/** All replies flattened to a list of (server, account) entries in order of arrival. */
module JszEntries {
  import opened JszMerge
  import opened JszFold
  import opened JszRows

  /** What a server says the account uses and has reserved, over all its streams. */
  datatype Amounts = Amounts(memory: int, store: int, reservedMemory: int, reservedStore: int)

  datatype Entry = Entry(server: ServerInfo, id: string, name: string, amounts: Amounts, streams: seq<StreamDetail>)

  /** What the servers said about one account. */
  function Listings(es: seq<Entry>, id: string): seq<Listing> {
    if es == [] then []
    else
      var last := es[|es| - 1];
      Listings(es[..|es| - 1], id)
      + if last.id == id then [Listing(last.server, last.name, last.streams)] else []
  }

  function Union(es: seq<Entry>, id: string): seq<StreamDetail> {
    Fold(Streams(Listings(es, id)))
  }

  lemma ListingsStep(es: seq<Entry>, p: nat, id: string)
    requires p < |es|
    ensures Listings(es[..p + 1], id) ==
            Listings(es[..p], id)
            + if es[p].id == id then [Listing(es[p].server, es[p].name, es[p].streams)] else []
  {
    assert es[..p + 1][..p] == es[..p];
  }

  /** One more entry of the account is merged with the union so far. */
  lemma UnionStep(es: seq<Entry>, p: nat, id: string)
    requires p < |es|
    ensures Union(es[..p + 1], id) ==
            if es[p].id == id then MergeStreams(Union(es[..p], id), es[p].streams) else Union(es[..p], id)
  {
    ListingsStep(es, p, id);
    if es[p].id == id {
      var before, after := Listings(es[..p], id), Listings(es[..p + 1], id);
      assert Streams(after) == Streams(before) + [es[p].streams];
      assert Streams(after)[..|before|] == Streams(before);
    } else {
      assert Listings(es[..p + 1], id) == Listings(es[..p], id);
    }
  }

  lemma {:induction false} ListingsPrefix(es: seq<Entry>, p: nat, id: string)
    requires p <= |es|
    ensures Listings(es[..p], id) <= Listings(es, id)
    decreases |es| - p
  {
    if p < |es| {
      ListingsStep(es, p, id);
      ListingsPrefix(es, p + 1, id);
    } else {
      assert es[..p] == es;
    }
  }

  /** The rows of the account from the first p entries. */
  function RowsSoFar(es: seq<Entry>, p: nat, id: string, counts: map<string, int>): seq<Row>
    requires p <= |es|
  {
    ListingsPrefix(es, p, id);
    RowsUpTo(id, Listings(es, id), counts, |Listings(es[..p], id)|)
  }

  lemma MergedIsUnion(es: seq<Entry>, p: nat, id: string)
    requires p <= |es|
    ensures |Listings(es[..p], id)| <= |Listings(es, id)|
    ensures Merged(Listings(es, id), |Listings(es[..p], id)|) == Union(es[..p], id)
  {
    ListingsPrefix(es, p, id);
    var n := |Listings(es[..p], id)|;
    assert Streams(Listings(es, id))[..n] == Streams(Listings(es[..p], id));
  }

  /** One more entry of the account adds rows built from the union up to it. */
  lemma RowsStep(es: seq<Entry>, p: nat, id: string, counts: map<string, int>)
    requires p < |es|
    ensures RowsSoFar(es, p + 1, id, counts) ==
            RowsSoFar(es, p, id, counts)
            + if es[p].id == id
              then RowsOf(es[p].server, id, es[p].name, counts, Union(es[..p + 1], id)) else []
  {
    ListingsStep(es, p, id);
    ListingsPrefix(es, p + 1, id);
    MergedIsUnion(es, p + 1, id);
  }

  lemma {:induction false} RowsComplete(es: seq<Entry>, id: string)
    ensures RowsSoFar(es, |es|, id, ConsumerCounts(Union(es, id))) == AccountRows(id, Listings(es, id))
  {
    assert es[..|es|] == es;
    MergedIsUnion(es, |es|, id);
  }

  /** The position of the account's latest entry among the first p, or -1. */
  function LastIndex(es: seq<Entry>, p: nat, id: string): (i: int)
    requires p <= |es|
    ensures -1 <= i < p
    ensures i >= 0 ==> es[i].id == id
    ensures forall j :: i < j < p ==> es[j].id != id
  {
    if p == 0 then -1
    else if es[p - 1].id == id then p - 1
    else LastIndex(es, p - 1, id)
  }

  /** For each entry, the union of the account's entries up to it. */
  function Unions(es: seq<Entry>): (r: seq<seq<StreamDetail>>)
    ensures |r| == |es| && forall i :: 0 <= i < |es| ==> r[i] == Union(es[..i + 1], es[i].id)
  {
    seq(|es|, i requires 0 <= i < |es| => Union(es[..i + 1], es[i].id))
  }

  /** What only the account's own entries change is as its latest entry left it. */
  lemma {:induction false} SinceLast<T>(es: seq<Entry>, values: seq<T>, p: nat, id: string)
    requires |values| == |es| + 1 && p <= |es|
    requires forall i :: 0 <= i < |es| && es[i].id != id ==> values[i + 1] == values[i]
    ensures values[p] == values[LastIndex(es, p, id) + 1]
  {
    if p > 0 && es[p - 1].id != id {
      SinceLast(es, values, p - 1, id);
    }
  }

  ghost function UnionsOf(es: seq<Entry>, id: string): (r: seq<seq<StreamDetail>>)
    ensures |r| == |es| + 1 && forall p :: 0 <= p <= |es| ==> r[p] == Union(es[..p], id)
  {
    seq(|es| + 1, p requires 0 <= p <= |es| => Union(es[..p], id))
  }

  lemma NoUnionYet(es: seq<Entry>, id: string)
    ensures Union(es[..0], id) == []
  {
    assert es[..0] == [];
  }

  lemma UnionSince(es: seq<Entry>, p: nat, id: string)
    requires p <= |es|
    ensures var i := LastIndex(es, p, id);
            Union(es[..p], id) == if i < 0 then [] else Unions(es)[i]
  {
    var unions := UnionsOf(es, id);
    forall i | 0 <= i < |es| && es[i].id != id
      ensures unions[i + 1] == unions[i]
    {
      UnionStep(es, i, id);
    }
    SinceLast(es, unions, p, id);
    NoUnionYet(es, id);
  }

  lemma {:induction false} MergeIntoEmpty(to: seq<StreamDetail>)
    ensures MergeStreams([], to) == to
  {
  }

  /** Each union is the account's previous union merged into the entry's own streams. */
  lemma UnionChain(es: seq<Entry>, p: nat)
    requires p < |es|
    ensures var i := LastIndex(es, p, es[p].id);
            Unions(es)[p] == if i < 0 then es[p].streams else MergeStreams(Unions(es)[i], es[p].streams)
  {
    UnionSince(es, p, es[p].id);
    UnionStep(es, p, es[p].id);
    MergeIntoEmpty(es[p].streams);
  }

  /** The latest entry of every account among the first p. */
  function LastOf(es: seq<Entry>, p: nat): map<string, nat>
    requires p <= |es|
  {
    if p == 0 then map[] else LastOf(es, p - 1)[es[p - 1].id := p - 1]
  }

  lemma {:induction false} LastOfIsLastIndex(es: seq<Entry>, p: nat, id: string)
    requires p <= |es|
    ensures id in LastOf(es, p) <==> LastIndex(es, p, id) >= 0
    ensures id in LastOf(es, p) ==> LastOf(es, p)[id] == LastIndex(es, p, id)
  {
    if p > 0 {
      LastOfIsLastIndex(es, p - 1, id);
    }
  }

  function LastOfs(es: seq<Entry>): (r: seq<map<string, nat>>)
    ensures |r| == |es| + 1 && forall p :: 0 <= p <= |es| ==> r[p] == LastOf(es, p)
  {
    seq(|es| + 1, p requires 0 <= p <= |es| => LastOf(es, p))
  }
}

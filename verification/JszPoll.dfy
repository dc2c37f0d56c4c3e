/** From the replies of one poll to the rows of every account. */
module JszPoll {
  import opened JszMerge
  import opened JszRows
  import opened JszEntries
  import opened JszHeap
  import opened JszStats

  /** The entries describe the items, apart from their streams. */
  ghost predicate Describes(es: seq<Entry>, items: seq<Item>) {
    && |es| == |items|
    && forall i :: 0 <= i < |es| ==>
         && es[i].server == items[i].server && es[i].id == items[i].detail.id && es[i].name == items[i].detail.name
         && es[i].amounts == items[i].detail.Usage()
  }

  /** The accounts that some reply mentions. */
  function Reported(es: seq<Entry>): set<string> {
    set i | 0 <= i < |es| :: es[i].id
  }

  /** What every account must list, and the rows it must have after the first p entries. */
  function Lists(es: seq<Entry>): map<string, seq<StreamSummary>> {
    map id | id in Reported(es) :: Summaries(Union(es, id))
  }

  function Target(es: seq<Entry>, p: nat): map<string, seq<Row>>
    requires p <= |es|
  {
    map id | id in Reported(es) :: RowsSoFar(es, p, id, ConsumerCounts(Union(es, id)))
  }

  /** The rows that one more entry adds to its account. */
  ghost predicate Grown(
    before: map<string, seq<Row>>, after: map<string, seq<Row>>, lists: map<string, seq<StreamSummary>>,
    server: ServerInfo, id: string, name: string, streams: seq<StreamDetail>)
  {
    && id in before && id in lists
    && after == before[id := before[id] + RowsOf(server, id, name, NamedCounts(lists[id]), streams)]
  }

  lemma OneGrown(
    before: map<string, seq<Row>>, after: map<string, seq<Row>>, lists: map<string, seq<StreamSummary>>,
    server: ServerInfo, id: string, name: string, streams: seq<StreamDetail>)
    requires id in lists && before.Keys == after.Keys == lists.Keys
    requires after[id] == before[id] + RowsOf(server, id, name, NamedCounts(lists[id]), streams)
    requires forall k :: k in before && k != id ==> after[k] == before[k]
    ensures Grown(before, after, lists, server, id, name, streams)
  {
  }

  lemma RowsOfOne(es: seq<Entry>, p: nat, id: string)
    requires p < |es|
    ensures RowsSoFar(es, p + 1, id, ConsumerCounts(Union(es, id))) ==
            RowsSoFar(es, p, id, ConsumerCounts(Union(es, id)))
            + if es[p].id == id
              then RowsOf(es[p].server, id, es[p].name, NamedCounts(Summaries(Union(es, id))), Unions(es)[p])
              else []
  {
    RowsStep(es, p, id, ConsumerCounts(Union(es, id)));
    NamedCountsOf(Union(es, id));
  }

  lemma TargetOfOne(es: seq<Entry>, p: nat, id: string)
    requires p < |es| && id in Reported(es)
    ensures Target(es, p + 1)[id] ==
            Target(es, p)[id]
            + if es[p].id == id
              then RowsOf(es[p].server, id, es[p].name, NamedCounts(Lists(es)[id]), Unions(es)[p]) else []
  {
    RowsOfOne(es, p, id);
  }

  lemma TargetStep(es: seq<Entry>, p: nat)
    requires p < |es|
    ensures Grown(Target(es, p), Target(es, p + 1), Lists(es), es[p].server, es[p].id, es[p].name, Unions(es)[p])
  {
    var before, after, lists := Target(es, p), Target(es, p + 1), Lists(es);
    assert es[p].id in Reported(es);
    TargetOfOne(es, p, es[p].id);
    forall id | id in before && id != es[p].id
      ensures after[id] == before[id]
    {
      TargetOfOne(es, p, id);
    }
    OneGrown(before, after, lists, es[p].server, es[p].id, es[p].name, Unions(es)[p]);
  }

  ghost predicate HaveRows(
    accs: map<string, AccountStats>, rows: map<string, seq<Row>>, lists: map<string, seq<StreamSummary>>)
    requires rows.Keys == lists.Keys
    reads accs.Values
  {
    && (forall id :: id in rows ==> id in accs && accs[id].jszData == rows[id] && accs[id].streams == lists[id])
    && forall id :: id in accs && id !in rows ==> accs[id].jszData == []
  }

  /** Add the rows of one detail of one server. */
  method AddRow(
    server: ServerInfo, detail: AccountDetail, accs: map<string, AccountStats>,
    ghost before: map<string, seq<Row>>, ghost after: map<string, seq<Row>>,
    ghost lists: map<string, seq<StreamSummary>>)
    requires before.Keys == lists.Keys == after.Keys
    requires Injective(accs) && HaveRows(accs, before, lists)
    requires Grown(before, after, lists, server, detail.id, detail.name, detail.streams)
    modifies accs.Values`jszData
    ensures HaveRows(accs, after, lists)
  {
    if detail.id in accs {
      MapStreamDetail(server, detail, accs[detail.id]);
    }
  }

  /** Every item holds the union of its account's entries up to it. */
  ghost predicate Holding(items: seq<Item>, unions: seq<seq<StreamDetail>>)
    reads Details(items)
  {
    |items| == |unions| && forall i :: 0 <= i < |items| ==> items[i].detail.streams == unions[i]
  }

  /** The rows of each prefix of the replies, one more entry at a time. */
  ghost predicate Chain(
    targets: seq<map<string, seq<Row>>>, lists: map<string, seq<StreamSummary>>, items: seq<Item>,
    unions: seq<seq<StreamDetail>>)
  {
    && |targets| == |items| + 1 && |unions| == |items|
    && (forall p :: 0 <= p < |targets| ==> targets[p].Keys == lists.Keys)
    && forall p :: 0 <= p < |items| ==>
         Grown(targets[p], targets[p + 1], lists,
               items[p].server, items[p].detail.id, items[p].detail.name, unions[p])
  }

  /** Walk the details of one reply; `base` entries came before it. */
  method AddRowsOf(
    js: JsStat, accs: map<string, AccountStats>,
    ghost targets: seq<map<string, seq<Row>>>, ghost lists: map<string, seq<StreamSummary>>,
    ghost items: seq<Item>, ghost unions: seq<seq<StreamDetail>>, ghost base: nat)
    requires Chain(targets, lists, items, unions) && Holding(items, unions)
    requires base + |js.details| <= |items|
    requires forall a :: 0 <= a < |js.details| ==> items[base + a] == Item(js.server, js.details[a])
    requires Injective(accs) && HaveRows(accs, targets[base], lists)
    modifies accs.Values`jszData
    ensures HaveRows(accs, targets[base + |js.details|], lists)
  {
    for a := 0 to |js.details|
      invariant HaveRows(accs, targets[base + a], lists)
    {
      var detail := js.details[a];
      assert items[base + a] == Item(js.server, detail);
      AddRow(js.server, detail, accs, targets[base + a], targets[base + a + 1], lists);
    }
  }

  /** Walk all replies again; their details now hold the unions. */
  method AddRows(
    jss: seq<JsStat>, accs: map<string, AccountStats>,
    ghost targets: seq<map<string, seq<Row>>>, ghost lists: map<string, seq<StreamSummary>>,
    ghost items: seq<Item>, ghost unions: seq<seq<StreamDetail>>, ghost starts: seq<nat>)
    requires LaidOut(jss, items, starts)
    requires Chain(targets, lists, items, unions) && Holding(items, unions)
    requires Injective(accs) && HaveRows(accs, targets[0], lists)
    modifies accs.Values`jszData
    ensures HaveRows(accs, targets[|items|], lists)
  {
    for r := 0 to |jss|
      invariant starts[r] <= |items|
      invariant HaveRows(accs, targets[starts[r]], lists)
      invariant Holding(items, unions)
    {
      assert LaidOutReply(jss[r], items, starts[r], starts[r + 1]);
      AddRowsOf(jss[r], accs, targets, lists, items, unions, starts[r]);
    }
  }

  ghost function Targets(es: seq<Entry>): (r: seq<map<string, seq<Row>>>)
    ensures |r| == |es| + 1 && forall p :: 0 <= p <= |es| ==> r[p] == Target(es, p)
  {
    seq(|es| + 1, p requires 0 <= p <= |es| => Target(es, p))
  }

  lemma TargetsChain(es: seq<Entry>, items: seq<Item>)
    requires Describes(es, items)
    ensures Chain(Targets(es), Lists(es), items, Unions(es))
  {
    forall p | 0 <= p < |es| {
      TargetStep(es, p);
    }
  }

  /** The account's own part of the latest entry about it; an account without one has none. */
  function LastName(es: seq<Entry>, id: string): string {
    var i := LastIndex(es, |es|, id);
    if i < 0 then "" else es[i].name
  }

  function LastAmounts(es: seq<Entry>, id: string): Amounts {
    var i := LastIndex(es, |es|, id);
    if i < 0 then Amounts(0, 0, 0, 0) else es[i].amounts
  }

  /** The totals of an account: amounts as its latest entry gives them, streams of all. */
  function TotalsOf(es: seq<Entry>, id: string): Totals {
    Totals(LastAmounts(es, id), Union(es, id))
  }

  ghost function Unified(es: seq<Entry>): map<string, Totals> {
    map id | id in Reported(es) :: TotalsOf(es, id)
  }

  /** The latest entry of each reported account has the union of all its entries. */
  lemma LastHasUnion(es: seq<Entry>, id: string)
    ensures var last := LastOf(es, |es|);
            && (id in last <==> id in Reported(es))
            && (id in last ==> last[id] < |es| && Unions(es)[last[id]] == Union(es, id))
  {
    LastOfIsLastIndex(es, |es|, id);
    UnionSince(es, |es|, id);
    assert es[..|es|] == es;
  }

  lemma ItemsHold(items: seq<Item>, es: seq<Entry>)
    requires |items| == |es| && FoldedUpTo(items, Own(es), Unions(es), |es|)
    ensures Holding(items, Unions(es))
  {
  }

  /** Item i is the latest of its account: it has the account's totals. */
  ghost predicate IsLatest(es: seq<Entry>, items: seq<Item>, id: string, i: nat) {
    && i < |es| == |items|
    && Unions(es)[i] == TotalsOf(es, id).streams && items[i].detail.Usage() == TotalsOf(es, id).amounts
  }

  lemma LatestIs(es: seq<Entry>, items: seq<Item>, id: string)
    requires Describes(es, items) && id in LastOf(es, |es|)
    ensures id in Unified(es) && IsLatest(es, items, id, LastOf(es, |es|)[id])
  {
    LastHasUnion(es, id);
    LastOfIsLastIndex(es, |es|, id);
  }

  lemma LastKeys(es: seq<Entry>)
    ensures LastOf(es, |es|).Keys == Unified(es).Keys
  {
    forall id
      ensures id in LastOf(es, |es|) <==> id in Reported(es)
    {
      LastHasUnion(es, id);
    }
  }

  lemma {:induction false} InfosMerged(infos: map<string, AccountDetail>, items: seq<Item>, es: seq<Entry>)
    requires Describes(es, items) && Holding(items, Unions(es)) && Points(infos, items, LastOf(es, |es|))
    ensures MergedTotals(infos, Unified(es))
  {
    LastKeys(es);
    forall id | id in infos
      ensures Totals(infos[id].Usage(), infos[id].streams) == Unified(es)[id]
    {
      LatestIs(es, items, id);
    }
  }

  ghost predicate Named(infos: map<string, AccountDetail>, es: seq<Entry>) {
    infos.Keys == Reported(es) && forall id :: id in infos ==> infos[id].name == LastName(es, id)
  }

  lemma {:induction false} InfosNamed(infos: map<string, AccountDetail>, items: seq<Item>, es: seq<Entry>)
    requires Describes(es, items) && Points(infos, items, LastOf(es, |es|))
    ensures Named(infos, es)
  {
    forall id: string
      ensures id in LastOf(es, |es|) <==> id in Reported(es)
      ensures id in LastOf(es, |es|) ==> LastOf(es, |es|)[id] == LastIndex(es, |es|, id)
    {
      LastHasUnion(es, id);
      LastOfIsLastIndex(es, |es|, id);
    }
  }

  /** The account details of one poll, merged: the first half of the work on a poll. */
  method MergeInfos(jss: seq<JsStat>) returns (infos: map<string, AccountDetail>)
    requires DistinctDetails(Items(jss))
    modifies Details(Items(jss))`streams
    ensures var es := old(Snapshot(Items(jss)));
            Describes(es, Items(jss)) && MergedTotals(infos, Unified(es)) && Holding(Items(jss), Unions(es))
            && Named(infos, es)
  {
    ghost var es := Snapshot(Items(jss));
    infos := MergeReplies(jss);
    ItemsHold(Items(jss), es);
    InfosMerged(infos, Items(jss), es);
    InfosNamed(infos, Items(jss), es);
  }

  lemma NoRowsYet(es: seq<Entry>)
    ensures forall id :: id in Reported(es) ==> Target(es, 0)[id] == []
  {
    assert es[..0] == [];
  }

  /** Every account holds the totals of its merged streams. */
  ghost predicate AllSummed(accs: map<string, AccountStats>, unified: map<string, Totals>)
    reads accs.Values
  {
    forall id :: id in unified ==> id in accs && Summed(accs[id], unified[id])
  }

  /** The name an account goes by: the one it was filed with, or else that of its latest entry. */
  ghost function NameFor(accs0: map<string, AccountStats>, es: seq<Entry>, id: string): string {
    if id in accs0 then accs0[id].accountName else LastName(es, id)
  }

  ghost function Names(accs0: map<string, AccountStats>, es: seq<Entry>): map<string, string> {
    map id | id in accs0.Keys + Reported(es) :: NameFor(accs0, es, id)
  }

  /** The accounts are those of before, as they were, and those reported, each under its own
      id and name. */
  ghost predicate Accounts(accs: map<string, AccountStats>, accs0: map<string, AccountStats>, es: seq<Entry>) {
    && accs.Keys == accs0.Keys + Reported(es)
    && (forall id :: id in accs0 ==> accs[id] == accs0[id])
    && forall id :: id in accs ==> Labelled(accs[id], id, Names(accs0, es))
  }

  /** Once every account has its totals, the walk over the replies can start. */
  lemma TotalsHaveNoRows(accs: map<string, AccountStats>, names: map<string, string>, es: seq<Entry>)
    requires AllHold(accs, names, Unified(es), {})
    ensures HaveRows(accs, Target(es, 0), Lists(es))
    ensures AllSummed(accs, Unified(es))
  {
    NoRowsYet(es);
    forall id | id in Reported(es)
      ensures Totalled(accs[id], TotalsOf(es, id))
    {
      assert Holds(accs[id], id, Unified(es), {});
    }
    forall id | id in accs && id !in Reported(es)
      ensures accs[id].jszData == []
    {
      assert Holds(accs[id], id, Unified(es), {});
    }
  }

  lemma NamesAreNew(infos: map<string, AccountDetail>, accs0: map<string, AccountStats>, es: seq<Entry>)
    requires Named(infos, es)
    ensures NewNames(infos, accs0, Names(accs0, es))
  {
  }

  lemma AccountsComplete(accs: map<string, AccountStats>, accs0: map<string, AccountStats>, es: seq<Entry>)
    requires forall id :: id in accs0 ==> id in accs && accs[id] == accs0[id]
    requires forall id :: id in Reported(es) ==> id in accs
    requires forall id :: id in accs ==> Labelled(accs[id], id, Names(accs0, es))
    ensures Accounts(accs, accs0, es)
  {
  }

  /** Totals for every account of the merged details. */
  method MapTotals(infos: map<string, AccountDetail>, accs0: map<string, AccountStats>, ghost es: seq<Entry>)
    returns (accs: map<string, AccountStats>)
    requires Injective(accs0) && Filed(accs0) && MergedTotals(infos, Unified(es)) && Named(infos, es)
    requires forall id :: id in accs0 ==> Blank(accs0[id])
    modifies accs0.Values
    ensures Injective(accs) && Extends(accs, accs0) && HaveRows(accs, Target(es, 0), Lists(es))
    ensures AllSummed(accs, Unified(es)) && Accounts(accs, accs0, es)
  {
    ghost var names := Names(accs0, es);
    NamesAreNew(infos, accs0, es);
    accs := AddTotals(infos, accs0, names, Unified(es));
    AccountsComplete(accs, accs0, es);
    TotalsHaveNoRows(accs, names, es);
  }

  /** The account holds the amounts of its latest entry, the totals of the union of its
      replies, and for each server the rows of the union of the replies up to that server's.
      An account in no reply has no rows. */
  ghost predicate Polled(accs: map<string, AccountStats>, es: seq<Entry>)
    reads accs.Values
  {
    && (forall id :: id in Reported(es) ==>
          && id in accs && Summed(accs[id], TotalsOf(es, id))
          && accs[id].jszData == AccountRows(id, Listings(es, id)))
    && forall id :: id in accs && id !in Reported(es) ==> accs[id].jszData == []
  }

  /** Adding rows leaves the totals alone. */
  method AddRowsOnly(
    jss: seq<JsStat>, accs: map<string, AccountStats>,
    ghost targets: seq<map<string, seq<Row>>>, ghost lists: map<string, seq<StreamSummary>>,
    ghost items: seq<Item>, ghost unions: seq<seq<StreamDetail>>, ghost starts: seq<nat>,
    ghost unified: map<string, Totals>)
    requires LaidOut(jss, items, starts)
    requires Chain(targets, lists, items, unions) && Holding(items, unions)
    requires Injective(accs) && HaveRows(accs, targets[0], lists) && AllSummed(accs, unified)
    modifies accs.Values`jszData
    ensures HaveRows(accs, targets[|items|], lists) && AllSummed(accs, unified)
  {
    AddRows(jss, accs, targets, lists, items, unions, starts);
    forall id | id in unified
      ensures id in accs && Summed(accs[id], unified[id]) == old(Summed(accs[id], unified[id]))
    {
    }
  }

  /** Rows for every account, server by server. */
  method MapRows(jss: seq<JsStat>, accs: map<string, AccountStats>, ghost es: seq<Entry>)
    requires Describes(es, Items(jss)) && Holding(Items(jss), Unions(es))
    requires Injective(accs) && HaveRows(accs, Target(es, 0), Lists(es)) && AllSummed(accs, Unified(es))
    modifies accs.Values`jszData
    ensures Polled(accs, es)
  {
    TargetsChain(es, Items(jss));
    ItemsLaidOut(jss);
    AddRowsOnly(jss, accs, Targets(es), Lists(es), Items(jss), Unions(es), Starts(jss), Unified(es));
    RowsPolled(accs, es);
  }

  lemma RowsPolled(accs: map<string, AccountStats>, es: seq<Entry>)
    requires HaveRows(accs, Target(es, |es|), Lists(es)) && AllSummed(accs, Unified(es))
    ensures Polled(accs, es)
  {
    forall id | id in Reported(es)
      ensures id in accs && Summed(accs[id], TotalsOf(es, id))
      ensures accs[id].jszData == AccountRows(id, Listings(es, id))
    {
      assert Unified(es)[id] == TotalsOf(es, id);
      assert accs[id].jszData == Target(es, |es|)[id];
      RowsComplete(es, id);
    }
  }

  /** The second half of the work on a poll. */
  method MapAll(
    jss: seq<JsStat>, infos: map<string, AccountDetail>, accs0: map<string, AccountStats>,
    ghost items: seq<Item>, ghost es: seq<Entry>)
    returns (accs: map<string, AccountStats>)
    requires items == Items(jss) && Describes(es, items) && Holding(items, Unions(es))
    requires MergedTotals(infos, Unified(es)) && Named(infos, es)
    requires Injective(accs0) && Filed(accs0) && forall id :: id in accs0 ==> Blank(accs0[id])
    modifies accs0.Values
    ensures Accounts(accs, accs0, es) && Polled(accs, es)
  {
    ghost var unions := Unions(es);
    accs := MapTotals(infos, accs0, es);
    forall i | 0 <= i < |items|
      ensures items[i].detail.streams == unions[i]
    {
      var detail: object := items[i].detail;
      assert detail is AccountDetail;
    }
    MapRows(jss, accs, es);
  }

  /** After a poll every account that some server reported holds its totals and its rows,
      and every other account is as blank as before. */
  method PollAccountInfo(jss: seq<JsStat>, accs0: map<string, AccountStats>)
    returns (accs: map<string, AccountStats>)
    requires DistinctDetails(Items(jss))
    requires Injective(accs0) && Filed(accs0) && forall id :: id in accs0 ==> Blank(accs0[id])
    modifies Details(Items(jss))`streams, accs0.Values
    ensures var es := old(Snapshot(Items(jss)));
            Accounts(accs, accs0, es) && Polled(accs, es)
  {
    ghost var es := Snapshot(Items(jss));
    var infos := MergeInfos(jss);
    accs := MapAll(jss, infos, accs0, Items(jss), es);
  }
}

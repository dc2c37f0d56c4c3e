/** The JetStream pipeline on mutable objects: replies are merged in place into the
    account details that are walked again afterwards. */
module JszHeap {
  import opened JszMerge
  import opened JszRows
  import opened JszEntries

  /** What one server reports about one account. */
  class AccountDetail {
    const id: string
    const name: string
    const memory: int
    const store: int
    const reservedMemory: int
    const reservedStore: int
    var streams: seq<StreamDetail>

    function Usage(): (r: Amounts)
      ensures r.memory == memory && r.store == store
      ensures r.reservedMemory == reservedMemory && r.reservedStore == reservedStore
    {
      Amounts(memory, store, reservedMemory, reservedStore)
    }

    constructor (id: string, name: string, memory: int, store: int, reservedMemory: int, reservedStore: int,
                 streams: seq<StreamDetail>)
      ensures this.id == id && this.name == name && this.streams == streams
      ensures Usage() == Amounts(memory, store, reservedMemory, reservedStore)
    {
      this.id, this.name, this.memory, this.store := id, name, memory, store;
      this.reservedMemory, this.reservedStore, this.streams := reservedMemory, reservedStore, streams;
    }
  }

  // ----- Merging one reply into the next -----

  method MergeStreamConsumers(from: StreamDetail, to: StreamDetail) returns (merged: StreamDetail)
    ensures merged == MergeStream(from, to)
  {
    merged := to;
    for i := 0 to |from.consumers|
      invariant merged == to.(consumers := MergeConsumers(from.consumers[..i], to.consumers))
    {
      assert from.consumers[..i + 1][..i] == from.consumers[..i];
      var cons := from.consumers[i];
      var found := false;
      var j := 0;
      while j < |merged.consumers| && !found
        invariant 0 <= j <= |merged.consumers|
        invariant found ==> exists m :: 0 <= m < |merged.consumers| && merged.consumers[m].name == cons.name
        invariant !found ==> forall m :: 0 <= m < j ==> merged.consumers[m].name != cons.name
        decreases |merged.consumers| - j, !found
      {
        if cons.name == merged.consumers[j].name {
          found := true;
        } else {
          j := j + 1;
        }
      }
      if !found {
        merged := merged.(consumers := merged.consumers + [cons]);
      }
    }
    assert from.consumers[..|from.consumers|] == from.consumers;
  }

  /** The first stream of the name absorbs the new one; without one it is appended. */
  lemma {:induction false} AddStreamAt(to: seq<StreamDetail>, s: StreamDetail, j: nat)
    requires j <= |to| && forall m :: 0 <= m < j ==> to[m].name != s.name
    requires j < |to| ==> to[j].name == s.name
    ensures AddStream(to, s) == if j < |to| then to[j := MergeStream(s, to[j])] else to + [s]
  {
    if j > 0 {
      AddStreamAt(to[1..], s, j - 1);
      assert to == [to[0]] + to[1..];
      assert AddStream(to, s) == [to[0]] + AddStream(to[1..], s);
    }
  }

  method MergeStreamDetails(from: AccountDetail, to: AccountDetail)
    requires from != to
    modifies to`streams
    ensures to.streams == MergeStreams(from.streams, old(to.streams))
  {
    for i := 0 to |from.streams|
      invariant from.streams == old(from.streams)
      invariant to.streams == MergeStreams(from.streams[..i], old(to.streams))
    {
      assert from.streams[..i + 1][..i] == from.streams[..i];
      var stream := from.streams[i];
      var j := 0;
      while j < |to.streams| && to.streams[j].name != stream.name
        invariant 0 <= j <= |to.streams|
        invariant forall m :: 0 <= m < j ==> to.streams[m].name != stream.name
      {
        j := j + 1;
      }
      AddStreamAt(to.streams, stream, j);
      if j < |to.streams| {
        var merged := MergeStreamConsumers(stream, to.streams[j]);
        to.streams := to.streams[j := merged];
      } else {
        to.streams := to.streams + [stream];
      }
    }
    assert from.streams[..|from.streams|] == from.streams;
  }

  // ----- Folding all replies -----

  datatype JsStat = JsStat(server: ServerInfo, details: seq<AccountDetail>)

  /** One account detail of one reply. */
  datatype Item = Item(server: ServerInfo, detail: AccountDetail)

  ghost function ItemsOf(js: JsStat): (r: seq<Item>)
    ensures |r| == |js.details|
    ensures forall a :: 0 <= a < |r| ==> r[a] == Item(js.server, js.details[a])
  {
    seq(|js.details|, a requires 0 <= a < |js.details| => Item(js.server, js.details[a]))
  }

  ghost function Items(jss: seq<JsStat>): seq<Item> {
    if jss == [] then [] else Items(jss[..|jss| - 1]) + ItemsOf(jss[|jss| - 1])
  }

  lemma {:induction false} ItemsPrefix(jss: seq<JsStat>, r: nat)
    requires r <= |jss|
    ensures Items(jss[..r]) <= Items(jss)
    ensures r < |jss| ==> Items(jss[..r]) + ItemsOf(jss[r]) == Items(jss[..r + 1]) <= Items(jss)
    decreases |jss| - r
  {
    if r < |jss| {
      assert jss[..r + 1][..r] == jss[..r];
      ItemsPrefix(jss, r + 1);
    } else {
      assert jss[..r] == jss;
    }
  }

  /** The a-th detail of the r-th reply in the flattened list. */
  lemma ItemAt(jss: seq<JsStat>, r: nat, a: nat)
    requires r < |jss| && a < |jss[r].details|
    ensures |Items(jss[..r])| + a < |Items(jss)|
    ensures Items(jss)[|Items(jss[..r])| + a] == Item(jss[r].server, jss[r].details[a])
  {
    ItemsPrefix(jss, r);
    assert Items(jss[..r + 1])[|Items(jss[..r])| + a] == ItemsOf(jss[r])[a];
  }

  /** The items are the details of the replies, those of reply r from starts[r] on. */
  ghost predicate LaidOut(jss: seq<JsStat>, items: seq<Item>, starts: seq<nat>) {
    && |starts| == |jss| + 1 && starts[0] == 0 && starts[|jss|] == |items|
    && forall r :: 0 <= r < |jss| ==> LaidOutReply(jss[r], items, starts[r], starts[r + 1])
  }

  ghost predicate LaidOutReply(js: JsStat, items: seq<Item>, start: nat, end: nat) {
    && start + |js.details| == end <= |items|
    && forall a :: 0 <= a < |js.details| ==> items[start + a] == Item(js.server, js.details[a])
  }

  ghost function Starts(jss: seq<JsStat>): (r: seq<nat>)
    ensures |r| == |jss| + 1 && forall i :: 0 <= i <= |jss| ==> r[i] == |Items(jss[..i])|
  {
    seq(|jss| + 1, i requires 0 <= i <= |jss| => |Items(jss[..i])|)
  }

  lemma ReplyItems(jss: seq<JsStat>, r: nat)
    requires r < |jss|
    ensures LaidOutReply(jss[r], Items(jss), |Items(jss[..r])|, |Items(jss[..r + 1])|)
  {
    ItemsPrefix(jss, r);
    forall a | 0 <= a < |jss[r].details| {
      ItemAt(jss, r, a);
    }
  }

  lemma {:induction false} ItemsLaidOut(jss: seq<JsStat>)
    ensures LaidOut(jss, Items(jss), Starts(jss))
  {
    forall r | 0 <= r < |jss| {
      ReplyItems(jss, r);
    }
    assert jss[..|jss|] == jss;
  }

  ghost predicate DistinctDetails(items: seq<Item>) {
    forall i, j :: 0 <= i < j < |items| ==> items[i].detail != items[j].detail
  }

  ghost function Details(items: seq<Item>): set<AccountDetail> {
    set i | 0 <= i < |items| :: items[i].detail
  }

  ghost function Snapshot(items: seq<Item>): (r: seq<Entry>)
    reads Details(items)
    ensures |r| == |items|
  {
    seq(|items|, i requires 0 <= i < |items| reads Details(items) =>
      Entry(items[i].server, items[i].detail.id, items[i].detail.name, items[i].detail.Usage(),
            items[i].detail.streams))
  }

  /** After p entries, the details of those entries hold unions; the others are untouched. */
  ghost predicate FoldedUpTo(items: seq<Item>, own: seq<seq<StreamDetail>>, unions: seq<seq<StreamDetail>>, p: nat)
    requires |items| == |own| == |unions|
    reads Details(items)
  {
    forall i :: 0 <= i < |items| ==> items[i].detail.streams == if i < p then unions[i] else own[i]
  }

  /** The map from account to the detail that was merged last. */
  ghost predicate Points(infos: map<string, AccountDetail>, items: seq<Item>, last: map<string, nat>) {
    infos.Keys == last.Keys && forall id :: id in last ==> last[id] < |items| && infos[id] == items[last[id]].detail
  }

  ghost function Own(es: seq<Entry>): (r: seq<seq<StreamDetail>>)
    ensures |r| == |es| && forall i :: 0 <= i < |es| ==> r[i] == es[i].streams
  {
    seq(|es|, i requires 0 <= i < |es| => es[i].streams)
  }

  /** Merge the detail of an earlier entry, if there is one, into that of entry p. */
  method MergeEarlier(
    infos: map<string, AccountDetail>, acc: AccountDetail, ghost items: seq<Item>,
    ghost own: seq<seq<StreamDetail>>, ghost unions: seq<seq<StreamDetail>>, ghost p: nat, ghost earlier: int)
    requires |items| == |own| == |unions| && DistinctDetails(items) && FoldedUpTo(items, own, unions, p)
    requires earlier < p < |items| && items[p].detail == acc
    requires acc.id in infos <==> earlier >= 0
    requires earlier >= 0 ==> infos[acc.id] == items[earlier].detail
    requires unions[p] == if earlier < 0 then own[p] else MergeStreams(unions[earlier], own[p])
    modifies acc`streams
    ensures FoldedUpTo(items, own, unions, p + 1)
  {
    if acc.id in infos {
      MergeStreamDetails(infos[acc.id], acc);
    }
  }

  /** What the fold works through: accounts, own streams, unions, and the latest entries.
      Each union is the account's previous union merged into the entry's own streams. */
  datatype Course = Course(
    ids: seq<string>, own: seq<seq<StreamDetail>>, unions: seq<seq<StreamDetail>>, lasts: seq<map<string, nat>>)

  ghost predicate Chained(c: Course, items: seq<Item>) {
    && |items| == |c.ids| == |c.own| == |c.unions| && |c.lasts| == |items| + 1 && c.lasts[0] == map[]
    && forall p :: 0 <= p < |items| ==> ChainedAt(c, p) && c.ids[p] == items[p].detail.id
  }

  ghost predicate ChainedAt(c: Course, p: nat)
    requires p < |c.ids| == |c.own| == |c.unions| && |c.lasts| == |c.ids| + 1
  {
    var last, id := c.lasts[p], c.ids[p];
    && c.lasts[p + 1] == last[id := p] && (id in last ==> last[id] < p)
    && c.unions[p] == if id in last then MergeStreams(c.unions[last[id]], c.own[p]) else c.own[p]
  }

  ghost function CourseOf(es: seq<Entry>): Course {
    Course(Ids(es), Own(es), Unions(es), LastOfs(es))
  }

  ghost function Ids(es: seq<Entry>): (r: seq<string>)
    ensures |r| == |es| && forall i :: 0 <= i < |es| ==> r[i] == es[i].id
  {
    seq(|es|, i requires 0 <= i < |es| => es[i].id)
  }

  lemma CourseChained(es: seq<Entry>, items: seq<Item>)
    requires |items| == |es| && forall i :: 0 <= i < |es| ==> es[i].id == items[i].detail.id
    ensures Chained(CourseOf(es), items)
  {
    forall p | 0 <= p < |es|
      ensures ChainedAt(CourseOf(es), p)
    {
      UnionChain(es, p);
      LastOfIsLastIndex(es, p, es[p].id);
    }
  }

  lemma PointsStep(infos: map<string, AccountDetail>, items: seq<Item>, last: map<string, nat>, id: string, p: nat)
    requires Points(infos, items, last) && p < |items|
    ensures Points(infos[id := items[p].detail], items, last[id := p])
  {
  }

  /** One step of the fold. */
  method MergeNext(
    infos: map<string, AccountDetail>, acc: AccountDetail, ghost items: seq<Item>, ghost c: Course, ghost p: nat)
    returns (merged: map<string, AccountDetail>)
    requires Chained(c, items) && DistinctDetails(items)
    requires p < |items| && items[p].detail == acc
    requires FoldedUpTo(items, c.own, c.unions, p) && Points(infos, items, c.lasts[p])
    modifies acc`streams
    ensures FoldedUpTo(items, c.own, c.unions, p + 1) && Points(merged, items, c.lasts[p + 1])
  {
    assert ChainedAt(c, p);
    MergeEarlier(infos, acc, items, c.own, c.unions, p, if acc.id in infos then c.lasts[p][acc.id] else -1);
    PointsStep(infos, items, c.lasts[p], acc.id, p);
    merged := infos[acc.id := acc];
  }

  /** Combine the details of one reply with those of the earlier ones. */
  method MergeReply(
    js: JsStat, infos0: map<string, AccountDetail>,
    ghost items: seq<Item>, ghost c: Course, ghost base: nat, ghost end: nat)
    returns (infos: map<string, AccountDetail>)
    requires Chained(c, items) && DistinctDetails(items)
    requires LaidOutReply(js, items, base, end)
    requires FoldedUpTo(items, c.own, c.unions, base) && Points(infos0, items, c.lasts[base])
    modifies js.details`streams
    ensures FoldedUpTo(items, c.own, c.unions, end) && Points(infos, items, c.lasts[end])
  {
    infos := infos0;
    for a := 0 to |js.details|
      invariant FoldedUpTo(items, c.own, c.unions, base + a) && Points(infos, items, c.lasts[base + a])
    {
      assert items[base + a] == Item(js.server, js.details[a]);
      infos := MergeNext(infos, js.details[a], items, c, base + a);
    }
  }

  lemma ReplyWithin(js: JsStat, items: seq<Item>, start: nat, end: nat)
    requires LaidOutReply(js, items, start, end)
    ensures forall d :: d in js.details ==> d in Details(items)
  {
    forall a | 0 <= a < |js.details|
      ensures js.details[a] in Details(items)
    {
      assert items[start + a].detail == js.details[a];
    }
  }

  method MergeAll(jss: seq<JsStat>, ghost items: seq<Item>, ghost c: Course, ghost starts: seq<nat>)
    returns (infos: map<string, AccountDetail>)
    requires Chained(c, items) && DistinctDetails(items) && LaidOut(jss, items, starts)
    requires FoldedUpTo(items, c.own, c.unions, 0)
    modifies Details(items)`streams
    ensures FoldedUpTo(items, c.own, c.unions, |items|) && Points(infos, items, c.lasts[|items|])
  {
    infos := map[];
    for r := 0 to |jss|
      invariant starts[r] <= |items|
      invariant FoldedUpTo(items, c.own, c.unions, starts[r]) && Points(infos, items, c.lasts[starts[r]])
    {
      assert LaidOutReply(jss[r], items, starts[r], starts[r + 1]);
      ReplyWithin(jss[r], items, starts[r], starts[r + 1]);
      infos := MergeReply(jss[r], infos, items, c, starts[r], starts[r + 1]);
    }
  }

  /** Combine the details of all replies, account by account. */
  method MergeReplies(jss: seq<JsStat>) returns (infos: map<string, AccountDetail>)
    requires DistinctDetails(Items(jss))
    modifies Details(Items(jss))`streams
    ensures var items, es := Items(jss), old(Snapshot(Items(jss)));
            FoldedUpTo(items, Own(es), Unions(es), |items|) && Points(infos, items, LastOf(es, |items|))
  {
    ghost var items := Items(jss);
    ghost var es := Snapshot(items);
    ItemsLaidOut(jss);
    CourseChained(es, items);
    infos := MergeAll(jss, items, CourseOf(es), Starts(jss));
  }
}

/** Account statistics: totals from the merged details, then rows server by server. */
module JszStats {
  import opened JszMerge
  import opened JszRows
  import opened JszTiers
  import opened JszEntries
  import opened JszHeap

  datatype StreamSummary = StreamSummary(name: string, raftGroup: string, consumers: int, replicas: int)

  class AccountStats {
    const accountId: string
    const accountName: string
    var enabled: bool
    var memoryUsed: int
    var storageUsed: int
    var memoryReserved: int
    var storageReserved: int
    var tieredMemoryUsed: map<int, int>
    var tieredStorageUsed: map<int, int>
    var tieredMemoryReserved: map<int, int>
    var tieredStorageReserved: map<int, int>
    var streamCount: int
    var streams: seq<StreamSummary>
    var jszData: seq<Row>

    constructor (accountId: string, accountName: string)
      ensures this.accountId == accountId && this.accountName == accountName
      ensures streams == [] && jszData == []
    {
      this.accountId, this.accountName := accountId, accountName;
      enabled, streamCount, streams, jszData := false, 0, [], [];
      memoryUsed, storageUsed, memoryReserved, storageReserved := 0, 0, 0, 0;
      tieredMemoryUsed, tieredStorageUsed := map[], map[];
      tieredMemoryReserved, tieredStorageReserved := map[], map[];
    }

    /** The tier maps are those of the given streams. */
    ghost predicate TiersOf(ss: seq<StreamDetail>)
      reads `tieredMemoryUsed, `tieredMemoryReserved, `tieredStorageUsed, `tieredStorageReserved
    {
      && tieredMemoryUsed == TierMap(ss, MemoryStorage, Used)
      && tieredMemoryReserved == TierMap(ss, MemoryStorage, Reserved)
      && tieredStorageUsed == TierMap(ss, FileStorage, Used)
      && tieredStorageReserved == TierMap(ss, FileStorage, Reserved)
    }
  }

  function Summary(s: StreamDetail): StreamSummary {
    StreamSummary(s.name, s.raftGroup, |s.consumers|, s.config.replicas)
  }

  function Summaries(ss: seq<StreamDetail>): (r: seq<StreamSummary>)
    ensures |r| == |ss| && forall i :: 0 <= i < |ss| ==> r[i] == Summary(ss[i])
    ensures forall i :: 0 <= i < |ss| ==>
              && r[i].name == ss[i].name && r[i].raftGroup == ss[i].raftGroup
              && r[i].consumers == |ss[i].consumers| && r[i].replicas == ss[i].config.replicas
  {
    seq(|ss|, i requires 0 <= i < |ss| => Summary(ss[i]))
  }

  function NamedCounts(sums: seq<StreamSummary>): map<string, int> {
    if sums == [] then map[]
    else
      var last := sums[|sums| - 1];
      NamedCounts(sums[..|sums| - 1])[last.name := last.consumers]
  }

  lemma {:induction false} NamedCountsOf(ss: seq<StreamDetail>)
    ensures NamedCounts(Summaries(ss)) == ConsumerCounts(ss)
  {
    if ss != [] {
      NamedCountsOf(ss[..|ss| - 1]);
      assert Summaries(ss)[..|ss| - 1] == Summaries(ss[..|ss| - 1]);
    }
  }

  /** A tier map after a stream that adds the amount, if its storage is that of the map. */
  ghost function Raised(m: map<int, int>, s: StreamDetail, storage: Storage, amount: int): map<int, int> {
    var tier := s.config.replicas;
    if s.config.storage != storage then m
    else if tier in m then m[tier := m[tier] + amount]
    else m[tier := amount]
  }

  lemma TierGrows(before: seq<StreamDetail>, s: StreamDetail, storage: Storage)
    ensures TierMap(before + [s], storage, Used) == Raised(TierMap(before, storage, Used), s, storage, s.state.bytes)
    ensures TierMap(before + [s], storage, Reserved) ==
            Raised(TierMap(before, storage, Reserved), s, storage,
                   if s.config.maxBytes > 0 then s.config.maxBytes else 0)
  {
    assert (before + [s])[..|before|] == before;
  }

  /** Add one stream to the tier it belongs to. */
  method AddToTier(sts: AccountStats, stream: StreamDetail, ghost before: seq<StreamDetail>)
    requires sts.TiersOf(before)
    modifies sts`tieredMemoryUsed, sts`tieredMemoryReserved, sts`tieredStorageUsed, sts`tieredStorageReserved
    ensures sts.TiersOf(before + [stream])
    ensures sts.tieredMemoryUsed ==
            Raised(old(sts.tieredMemoryUsed), stream, MemoryStorage, stream.state.bytes)
    ensures sts.tieredStorageUsed ==
            Raised(old(sts.tieredStorageUsed), stream, FileStorage, stream.state.bytes)
    ensures sts.tieredMemoryReserved ==
            Raised(old(sts.tieredMemoryReserved), stream, MemoryStorage,
                   if stream.config.maxBytes > 0 then stream.config.maxBytes else 0)
    ensures sts.tieredStorageReserved ==
            Raised(old(sts.tieredStorageReserved), stream, FileStorage,
                   if stream.config.maxBytes > 0 then stream.config.maxBytes else 0)
  {
    SameTiers(before, MemoryStorage);
    SameTiers(before, FileStorage);
    TierGrows(before, stream, MemoryStorage);
    TierGrows(before, stream, FileStorage);
    var used := stream.state.bytes;
    var reserved := 0;
    if stream.config.maxBytes > 0 {
      reserved := stream.config.maxBytes;
    }
    var tier := stream.config.replicas;
    match stream.config.storage {
      case MemoryStorage =>
        if tier in sts.tieredMemoryUsed {
          sts.tieredMemoryUsed := sts.tieredMemoryUsed[tier := sts.tieredMemoryUsed[tier] + used];
          sts.tieredMemoryReserved := sts.tieredMemoryReserved[tier := sts.tieredMemoryReserved[tier] + reserved];
        } else {
          sts.tieredMemoryUsed := sts.tieredMemoryUsed[tier := used];
          sts.tieredMemoryReserved := sts.tieredMemoryReserved[tier := reserved];
        }
      case FileStorage =>
        if tier in sts.tieredStorageUsed {
          sts.tieredStorageUsed := sts.tieredStorageUsed[tier := sts.tieredStorageUsed[tier] + used];
          sts.tieredStorageReserved := sts.tieredStorageReserved[tier := sts.tieredStorageReserved[tier] + reserved];
        } else {
          sts.tieredStorageUsed := sts.tieredStorageUsed[tier := used];
          sts.tieredStorageReserved := sts.tieredStorageReserved[tier := reserved];
        }
      case OtherStorage =>
    }
  }

  /** List every stream of the merged detail and add it to its tier, starting from no tiers. */
  method AddStreams(sts: AccountStats, streams: seq<StreamDetail>)
    modifies sts`streams
    modifies sts`tieredMemoryUsed, sts`tieredMemoryReserved, sts`tieredStorageUsed, sts`tieredStorageReserved
    ensures sts.streams == old(sts.streams) + Summaries(streams)
    ensures sts.TiersOf(streams)
  {
    sts.tieredMemoryUsed, sts.tieredStorageUsed := map[], map[];
    sts.tieredMemoryReserved, sts.tieredStorageReserved := map[], map[];
    for i := 0 to |streams|
      invariant sts.streams == old(sts.streams) + Summaries(streams[..i])
      invariant sts.TiersOf(streams[..i])
    {
      var stream := streams[i];
      sts.streams := sts.streams
        + [StreamSummary(stream.name, stream.raftGroup, |stream.consumers|, stream.config.replicas)];
      AddToTier(sts, stream, streams[..i]);
      assert streams[..i + 1] == streams[..i] + [stream];
      assert Summaries(streams[..i + 1]) == Summaries(streams[..i]) + [Summary(stream)];
    }
    assert streams[..|streams|] == streams;
  }

  /** What the merged details of an account amount to: the latest detail's own amounts, and
      the streams of all. */
  datatype Totals = Totals(amounts: Amounts, streams: seq<StreamDetail>)

  ghost predicate Uses(sts: AccountStats, amounts: Amounts)
    reads sts`memoryUsed, sts`storageUsed, sts`memoryReserved, sts`storageReserved
  {
    && sts.memoryUsed == amounts.memory && sts.storageUsed == amounts.store
    && sts.memoryReserved == amounts.reservedMemory && sts.storageReserved == amounts.reservedStore
  }

  /** Account totals from the merged detail. */
  method MapAccountDetail(id: string, detail: AccountDetail, sts0: AccountStats?) returns (sts: AccountStats)
    modifies if sts0 == null then {} else {sts0}
    ensures if sts0 == null then fresh(sts) && sts.accountId == id && sts.accountName == detail.name else sts == sts0
    ensures sts0 == null ==> sts.jszData == []
    ensures sts0 != null ==> sts.jszData == old(sts0.jszData)
    ensures sts.enabled && Uses(sts, detail.Usage())
    ensures sts.memoryUsed == detail.memory && sts.storageUsed == detail.store
    ensures sts.memoryReserved == detail.reservedMemory && sts.storageReserved == detail.reservedStore
    ensures sts.streamCount == |detail.streams|
    ensures sts.streams == (if sts0 == null then [] else old(sts0.streams)) + Summaries(detail.streams)
    ensures sts.TiersOf(detail.streams)
  {
    if sts0 == null {
      sts := new AccountStats(id, detail.name);
    } else {
      sts := sts0;
    }
    sts.enabled := true;
    sts.memoryUsed, sts.storageUsed := detail.memory, detail.store;
    sts.memoryReserved, sts.storageReserved := detail.reservedMemory, detail.reservedStore;
    sts.streamCount := |detail.streams|;
    AddStreams(sts, detail.streams);
  }

  method RaftGroupOf(groups: seq<RaftGroup>, c: ConsumerInfo) returns (group: string)
    ensures group == ConsumerRowOf(groups, c).raftGroup
  {
    group := "";
    if c.cluster.Some? {
      group := c.cluster.value.raftGroup;
    }
    if group == "" {
      var i := 0;
      while i < |groups| && groups[i].name != c.name
        invariant 0 <= i <= |groups|
        invariant FindGroup(groups, c.name) == FindGroup(groups[i..], c.name)
      {
        i := i + 1;
      }
      if i < |groups| {
        group := groups[i].group;
      }
    }
  }

  method MapConsumers(stream: StreamDetail) returns (rows: seq<ConsumerRow>)
    ensures rows == ConsumerRowsOf(stream.consumerRaftGroups, stream.consumers)
  {
    rows := [];
    for i := 0 to |stream.consumers|
      invariant rows == ConsumerRowsOf(stream.consumerRaftGroups, stream.consumers[..i])
    {
      var c := stream.consumers[i];
      var leader := if c.cluster.Some? then c.cluster.value.leader else "";
      var group := RaftGroupOf(stream.consumerRaftGroups, c);
      rows := rows + [ConsumerRow(
        c.name, leader, group, c.deliveredConsumer, c.deliveredStream, c.ackFloorConsumer, c.ackFloorStream,
        c.ackPending, c.pending, c.redelivered, c.waiting)];
    }
    assert stream.consumers[..|stream.consumers|] == stream.consumers;
  }

  method CountConsumers(sums: seq<StreamSummary>) returns (counts: map<string, int>)
    ensures counts == NamedCounts(sums)
  {
    counts := map[];
    for i := 0 to |sums|
      invariant counts == NamedCounts(sums[..i])
    {
      assert sums[..i + 1][..i] == sums[..i];
      counts := counts[sums[i].name := sums[i].consumers];
    }
    assert sums[..|sums|] == sums;
  }

  /** One row for each stream that the server's detail now holds. */
  method MapStreamDetail(server: ServerInfo, detail: AccountDetail, sts: AccountStats)
    modifies sts`jszData
    ensures sts.jszData ==
            old(sts.jszData) + RowsOf(server, detail.id, detail.name, NamedCounts(sts.streams), detail.streams)
  {
    var counts := CountConsumers(sts.streams);
    for i := 0 to |detail.streams|
      invariant sts.jszData ==
                old(sts.jszData) + RowsOf(server, detail.id, detail.name, counts, detail.streams[..i])
    {
      var stream := detail.streams[i];
      var leader := if stream.cluster.Some? then stream.cluster.value.leader else "";
      var consumers := MapConsumers(stream);
      var row := Row(
        detail.id, detail.name, server.id, server.name, server.cluster, stream.name, stream.raftGroup, leader,
        stream.state.consumers, stream.config.replicas,
        stream.state.msgs, stream.state.bytes, stream.state.firstSeq, stream.state.lastSeq, stream.state.subjects,
        if stream.name in counts then counts[stream.name] else 0, consumers);
      assert row == RowOf(server, detail.id, detail.name, counts, stream);
      assert detail.streams[..i + 1] == detail.streams[..i] + [stream];
      sts.jszData := sts.jszData + [row];
    }
    assert detail.streams[..|detail.streams|] == detail.streams;
  }

  // ----- The whole pipeline -----

  ghost predicate Injective(accs: map<string, AccountStats>) {
    forall a, b :: a in accs && b in accs && a != b ==> accs[a] != accs[b]
  }

  /** Every account is filed under its id. */
  ghost predicate Filed(accs: map<string, AccountStats>) {
    forall id :: id in accs ==> accs[id].accountId == id
  }

  /** The account has not seen any JetStream data in this poll. */
  ghost predicate Blank(sts: AccountStats)
    reads sts
  {
    sts.streams == [] && sts.jszData == []
  }

  /** The account holds these totals. */
  ghost predicate Summed(sts: AccountStats, totals: Totals)
    reads sts`memoryUsed, sts`storageUsed, sts`memoryReserved, sts`storageReserved
    reads sts`enabled, sts`streamCount, sts`streams
    reads sts`tieredMemoryUsed, sts`tieredMemoryReserved, sts`tieredStorageUsed, sts`tieredStorageReserved
  {
    && Uses(sts, totals.amounts) && sts.enabled && sts.streamCount == |totals.streams|
    && sts.streams == Summaries(totals.streams) && sts.TiersOf(totals.streams)
  }

  /** The totals are there, but no rows yet. */
  ghost predicate Totalled(sts: AccountStats, totals: Totals)
    reads sts
  {
    Summed(sts, totals) && sts.jszData == []
  }

  /** What an account must hold: its totals once its turn has come, nothing before. */
  ghost predicate Holds(sts: AccountStats, id: string, merged: map<string, Totals>, todo: set<string>)
    reads sts
  {
    if id in merged && id !in todo then Totalled(sts, merged[id]) else Blank(sts)
  }

  /** The account is labelled with its id and the name it goes by. */
  ghost predicate Labelled(sts: AccountStats, id: string, names: map<string, string>) {
    id in names && sts.accountId == id && sts.accountName == names[id]
  }

  ghost predicate AllHold(
    accs: map<string, AccountStats>, names: map<string, string>,
    merged: map<string, Totals>, todo: set<string>)
    reads accs.Values
  {
    && (forall id :: id in merged && id !in todo ==> id in accs)
    && forall id :: id in accs ==> Labelled(accs[id], id, names) && Holds(accs[id], id, merged, todo)
  }

  /** The accounts of before are kept, any others are new. */
  twostate predicate Extends(new accs: map<string, AccountStats>, accs0: map<string, AccountStats>) {
    && (forall id :: id in accs0 ==> id in accs && accs[id] == accs0[id])
    && (forall id :: id in accs && id !in accs0 ==> fresh(accs[id]))
  }

  /** The account, or a new one under the label it goes by, with its totals. */
  method Total(
    id: string, detail: AccountDetail, sts0: AccountStats?, ghost names: map<string, string>, ghost totals: Totals)
    returns (sts: AccountStats)
    requires totals == Totals(detail.Usage(), detail.streams)
    requires if sts0 == null then id in names && names[id] == detail.name else Blank(sts0) && Labelled(sts0, id, names)
    modifies if sts0 == null then {} else {sts0}
    ensures if sts0 == null then fresh(sts) else sts == sts0
    ensures Labelled(sts, id, names) && Totalled(sts, totals)
  {
    sts := MapAccountDetail(id, detail, sts0);
  }

  ghost predicate MergedTotals(infos: map<string, AccountDetail>, merged: map<string, Totals>)
    reads infos.Values
  {
    && infos.Keys == merged.Keys
    && forall id :: id in infos ==> Totals(infos[id].Usage(), infos[id].streams) == merged[id]
  }

  /** All accounts but one hold what they must, and that one has its totals. */
  lemma OneTotalled(
    id: string, sts: AccountStats, accs: map<string, AccountStats>,
    names: map<string, string>, merged: map<string, Totals>, todo: set<string>)
    requires forall other :: other in merged && other !in todo ==> other in accs
    requires forall other :: other in accs && other != id ==>
               Labelled(accs[other], other, names) && Holds(accs[other], other, merged, todo)
    requires id in merged && Labelled(sts, id, names) && Totalled(sts, merged[id])
    ensures AllHold(accs[id := sts], names, merged, todo - {id})
  {
  }

  /** The totals of one account; the others hold what they held. */
  method TotalOne(
    id: string, detail: AccountDetail, accs: map<string, AccountStats>,
    ghost names: map<string, string>, ghost merged: map<string, Totals>, ghost todo: set<string>)
    returns (sts: AccountStats)
    requires Injective(accs) && AllHold(accs, names, merged, todo)
    requires id in todo && id in merged && merged[id] == Totals(detail.Usage(), detail.streams)
    requires id in names && (id !in accs ==> names[id] == detail.name)
    modifies if id in accs then {accs[id]} else {}
    ensures if id in accs then sts == accs[id] else fresh(sts)
    ensures Labelled(sts, id, names) && Totalled(sts, merged[id])
    ensures forall other :: other in accs && other != id ==> Holds(accs[other], other, merged, todo)
  {
    assert id in accs ==> Holds(accs[id], id, merged, todo) && Labelled(accs[id], id, names);
    sts := Total(id, detail, if id in accs then accs[id] else null, names, merged[id]);
    forall other | other in accs && other != id
      ensures Holds(accs[other], other, merged, todo) == old(Holds(accs[other], other, merged, todo))
    {
      assert accs[other] != sts;
    }
  }

  method AddTotal(
    id: string, infos: map<string, AccountDetail>, accs0: map<string, AccountStats>,
    ghost names: map<string, string>, ghost merged: map<string, Totals>, ghost todo: set<string>)
    returns (accs: map<string, AccountStats>)
    requires Injective(accs0) && AllHold(accs0, names, merged, todo)
    requires id in todo && id in infos && MergedTotals(infos, merged)
    requires id in names && (id !in accs0 ==> names[id] == infos[id].name)
    modifies if id in accs0 then {accs0[id]} else {}
    ensures Injective(accs) && Extends(accs, accs0)
    ensures AllHold(accs, names, merged, todo - {id}) && MergedTotals(infos, merged)
  {
    var sts := TotalOne(id, infos[id], accs0, names, merged, todo);
    accs := accs0[id := sts];
    OneTotalled(id, sts, accs0, names, merged, todo);
  }

  /** An account that is not there yet goes by the name in its detail. */
  ghost predicate NewNames(
    infos: map<string, AccountDetail>, accs0: map<string, AccountStats>, names: map<string, string>)
  {
    forall id :: id in infos ==> id in names && (id !in accs0 ==> names[id] == infos[id].name)
  }

  /** Give every reported account its totals, creating the accounts that are missing. */
  method AddTotals(
    infos: map<string, AccountDetail>, accs0: map<string, AccountStats>,
    ghost names: map<string, string>, ghost merged: map<string, Totals>)
    returns (accs: map<string, AccountStats>)
    requires Injective(accs0) && MergedTotals(infos, merged) && NewNames(infos, accs0, names)
    requires AllHold(accs0, names, merged, merged.Keys)
    modifies accs0.Values
    ensures Injective(accs) && Extends(accs, accs0)
    ensures AllHold(accs, names, merged, {})
  {
    accs := accs0;
    var todo := infos.Keys;
    while todo != {}
      invariant todo <= infos.Keys && MergedTotals(infos, merged)
      invariant Injective(accs) && Extends(accs, accs0)
      invariant AllHold(accs, names, merged, todo)
      decreases todo
    {
      var id :| id in todo;
      accs := AddTotal(id, infos, accs, names, merged, todo);
      todo := todo - {id};
    }
  }
}

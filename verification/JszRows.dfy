/** The per-server rows built from the merged replies, and what remains of them when
    only leaders are reported. */
module JszRows {
  import opened Prelude
  import opened JszMerge
  import opened JszFold

  datatype ServerInfo = ServerInfo(id: string, name: string, cluster: string)

  datatype ConsumerRow = ConsumerRow(
    name: string, leader: string, raftGroup: string,
    deliveredConsumer: int, deliveredStream: int,
    ackFloorConsumer: int, ackFloorStream: int,
    ackPending: int, pending: int, redelivered: int, waiting: int)

  datatype Row = Row(
    accountId: string, accountName: string,
    serverId: string, serverName: string, clusterName: string,
    streamName: string, raftGroup: string, streamLeader: string,
    reportedConsumers: int, replicas: int,
    msgs: int, bytes: int, firstSeq: int, lastSeq: int, subjects: int,
    consumerCount: int, consumers: seq<ConsumerRow>)

  /** What one server said about the account, as it arrived. */
  datatype Listing = Listing(server: ServerInfo, accountName: string, streams: seq<StreamDetail>)

  function LeaderOf(cluster: Option<Cluster>): string {
    if cluster.Some? then cluster.value.leader else ""
  }

  function FindGroup(groups: seq<RaftGroup>, name: string): string {
    if groups == [] then ""
    else if groups[0].name == name then groups[0].group
    else FindGroup(groups[1..], name)
  }

  /** The first group of the name in the list, and none if there is none. */
  lemma {:induction false} FindGroupIs(groups: seq<RaftGroup>, name: string, i: nat)
    requires i <= |groups| && forall j :: 0 <= j < i ==> groups[j].name != name
    requires i < |groups| ==> groups[i].name == name
    ensures FindGroup(groups, name) == if i < |groups| then groups[i].group else ""
  {
    if i > 0 {
      FindGroupIs(groups[1..], name, i - 1);
    }
  }

  function ConsumerRowOf(groups: seq<RaftGroup>, c: ConsumerInfo): ConsumerRow {
    var own := if c.cluster.Some? then c.cluster.value.raftGroup else "";
    ConsumerRow(
      c.name, LeaderOf(c.cluster), if own == "" then FindGroup(groups, c.name) else own,
      c.deliveredConsumer, c.deliveredStream, c.ackFloorConsumer, c.ackFloorStream,
      c.ackPending, c.pending, c.redelivered, c.waiting)
  }

  function ConsumerRowsOf(groups: seq<RaftGroup>, cs: seq<ConsumerInfo>): seq<ConsumerRow> {
    seq(|cs|, i requires 0 <= i < |cs| => ConsumerRowOf(groups, cs[i]))
  }

  function RowOf(
    server: ServerInfo, id: string, accountName: string, counts: map<string, int>, s: StreamDetail): Row
  {
    Row(id, accountName, server.id, server.name, server.cluster,
        s.name, s.raftGroup, LeaderOf(s.cluster),
        s.state.consumers, s.config.replicas,
        s.state.msgs, s.state.bytes, s.state.firstSeq, s.state.lastSeq, s.state.subjects,
        CountOf(counts, s.name), ConsumerRowsOf(s.consumerRaftGroups, s.consumers))
  }

  function RowsOf(
    server: ServerInfo, id: string, accountName: string, counts: map<string, int>,
    streams: seq<StreamDetail>): seq<Row>
  {
    seq(|streams|, i requires 0 <= i < |streams| => RowOf(server, id, accountName, counts, streams[i]))
  }

  function ConsumerCounts(streams: seq<StreamDetail>): map<string, int> {
    if streams == [] then map[]
    else
      var last := streams[|streams| - 1];
      ConsumerCounts(streams[..|streams| - 1])[last.name := |last.consumers|]
  }

  function Streams(ls: seq<Listing>): (r: seq<seq<StreamDetail>>)
    ensures |r| == |ls|
    ensures forall i :: 0 <= i < |ls| ==> r[i] == ls[i].streams
  {
    seq(|ls|, i requires 0 <= i < |ls| => ls[i].streams)
  }

  function ServerNames(ls: seq<Listing>): (r: seq<string>)
    ensures |r| == |ls| && forall i :: 0 <= i < |ls| ==> r[i] == ls[i].server.name
  {
    seq(|ls|, i requires 0 <= i < |ls| => ls[i].server.name)
  }

  /** The union of what the first n servers listed. */
  function Merged(ls: seq<Listing>, n: nat): seq<StreamDetail>
    requires n <= |ls|
  {
    Fold(Streams(ls)[..n])
  }

  /** The rows of the first n listings. Because merging updated the replies in place, the
      k-th server's rows are built from the union of the first k replies. */
  function RowsUpTo(id: string, ls: seq<Listing>, counts: map<string, int>, n: nat): seq<Row>
    requires n <= |ls|
  {
    if n == 0 then []
    else
      RowsUpTo(id, ls, counts, n - 1)
      + RowsOf(ls[n - 1].server, id, ls[n - 1].accountName, counts, Merged(ls, n))
  }

  function AccountRows(id: string, ls: seq<Listing>): seq<Row> {
    RowsUpTo(id, ls, ConsumerCounts(Merged(ls, |ls|)), |ls|)
  }

  // ----- Every row carries the size of the union -----

  lemma {:induction false} ConsumerCountsFind(streams: seq<StreamDetail>, name: string)
    requires DistinctStreams(streams)
    ensures name in ConsumerCounts(streams) <==> FindStream(streams, name).Some?
    ensures FindStream(streams, name).Some? ==>
              ConsumerCounts(streams)[name] == |FindStream(streams, name).value.consumers|
  {
    if streams == [] {
    } else {
      var init, last := streams[..|streams| - 1], streams[|streams| - 1];
      ConsumerCountsFind(init, name);
      assert streams == init + [last];
      FindStreamSnoc(init, last, name);
    }
  }

  ghost predicate ListedBy(ls: seq<Listing>, n: nat, name: string)
    requires n <= |ls|
  {
    exists k :: 0 <= k <= n && FindStream(Merged(ls, k), name).Some?
  }

  lemma {:induction false} RowsUpToCounts(id: string, ls: seq<Listing>, counts: map<string, int>, n: nat, row: Row)
    requires n <= |ls| && row in RowsUpTo(id, ls, counts, n)
    ensures row.consumerCount == CountOf(counts, row.streamName)
    ensures ListedBy(ls, n, row.streamName)
  {
    var earlier := RowsUpTo(id, ls, counts, n - 1);
    if row in earlier {
      RowsUpToCounts(id, ls, counts, n - 1, row);
    } else {
      var own := Merged(ls, n);
      var rows := RowsOf(ls[n - 1].server, id, ls[n - 1].accountName, counts, own);
      var i :| 0 <= i < |rows| && rows[i] == row;
      assert own[i].name == row.streamName;
    }
  }

  lemma MergedWellFormed(ls: seq<Listing>, n: nat)
    requires AllWellFormed(Streams(ls)) && n <= |ls|
    ensures AllWellFormed(Streams(ls)[..n]) && WellFormed(Merged(ls, n))
  {
    FoldWellFormed(Streams(ls)[..n]);
  }

  lemma MergedGrows(ls: seq<Listing>, n: nat, m: nat, name: string)
    requires AllWellFormed(Streams(ls)) && n <= m <= |ls| && FindStream(Merged(ls, n), name).Some?
    ensures FindStream(Merged(ls, m), name).Some?
  {
    var all := Streams(ls);
    MergedWellFormed(ls, n);
    MergedWellFormed(ls, m);
    FoldStream(all[..n], name);
    LastStreamListed(all[..n], name);
    FoldStream(all[..m], name);
    LastStreamListed(all[..m], name);
    var i :| 0 <= i < n && ListsStream(all[..n][i], name);
    assert all[..m][i] == all[..n][i];
  }

  /** Every row of a stream, on whatever server, carries the number of consumers of that
      stream in the union of all replies. */
  lemma RowsCarryUnionCount(id: string, ls: seq<Listing>, row: Row)
    requires AllWellFormed(Streams(ls)) && row in AccountRows(id, ls)
    ensures var merged := FindStream(Merged(ls, |ls|), row.streamName);
            merged.Some? && row.consumerCount == |merged.value.consumers|
  {
    RowsUpToCounts(id, ls, ConsumerCounts(Merged(ls, |ls|)), |ls|, row);
    var k :| 0 <= k <= |ls| && FindStream(Merged(ls, k), row.streamName).Some?;
    MergedGrows(ls, k, |ls|, row.streamName);
    MergedWellFormed(ls, |ls|);
    ConsumerCountsFind(Merged(ls, |ls|), row.streamName);
  }
}

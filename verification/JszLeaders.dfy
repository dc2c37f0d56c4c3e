/** Reporting leaders only: although every server's rows contain the streams of the
    servers before it, each stream and each consumer is reported at most once. */
module JszLeaders {
  import opened Prelude
  import opened JszMerge
  import opened JszFold
  import opened JszRows

  ghost predicate DistinctServers(ls: seq<Listing>) {
    forall i, j :: 0 <= i < j < |ls| ==> ls[i].server.name != ls[j].server.name
  }

  // ----- Streams -----

  function PassRow(row: Row, name: string): Option<Row> {
    if row.streamName == name && row.serverName == row.streamLeader then Some(row) else None
  }

  function PassRows(rows: seq<Row>, name: string): (r: seq<Option<Row>>)
    ensures |r| == |rows| && forall i :: 0 <= i < |rows| ==> r[i] == PassRow(rows[i], name)
  {
    seq(|rows|, i requires 0 <= i < |rows| => PassRow(rows[i], name))
  }

  /** The rows of the stream that pass the leaders-only test, in order. */
  function LeaderRows(rows: seq<Row>, name: string): seq<Row> {
    Somes(PassRows(rows, name))
  }

  /** Every reply that lists the stream names the same leader. */
  ghost predicate AgreeOnStream(ls: seq<Listing>, name: string, leader: string) {
    forall i :: 0 <= i < |ls| && FindStream(ls[i].streams, name).Some? ==>
      LeaderOf(FindStream(ls[i].streams, name).value.cluster) == leader
  }

  /** The k-th server believes, from the replies so far, that it leads the stream. */
  predicate Leads(ls: seq<Listing>, k: nat, name: string)
    requires k < |ls|
  {
    var known := LastStream(Streams(ls)[..k + 1], name);
    known.Some? && LeaderOf(known.value.cluster) == ls[k].server.name
  }

  lemma LeaderRowsConcat(xs: seq<Row>, ys: seq<Row>, name: string)
    ensures LeaderRows(xs + ys, name) == LeaderRows(xs, name) + LeaderRows(ys, name)
  {
    assert PassRows(xs + ys, name) == PassRows(xs, name) + PassRows(ys, name);
    SomesConcat(PassRows(xs, name), PassRows(ys, name));
  }

  /** Of the rows of one server, only its own row of the stream can be a leader row. */
  lemma LeaderRowsOf(
    server: ServerInfo, id: string, accountName: string, counts: map<string, int>,
    streams: seq<StreamDetail>, name: string)
    requires DistinctStreams(streams)
    ensures var s := FindStream(streams, name);
            LeaderRows(RowsOf(server, id, accountName, counts, streams), name) ==
            if s.Some? && LeaderOf(s.value.cluster) == server.name
            then [RowOf(server, id, accountName, counts, s.value)] else []
  {
    var passed := PassRows(RowsOf(server, id, accountName, counts, streams), name);
    var s := FindStream(streams, name);
    if s.Some? && LeaderOf(s.value.cluster) == server.name {
      var i :| 0 <= i < |streams| && streams[i] == s.value;
      SomesOne(passed, i);
    } else {
      forall i | 0 <= i < |streams|
        ensures passed[i].None?
      {
        assert s.Some? && streams[i].name == name ==> streams[i] == s.value;
      }
      SomesNone(passed);
    }
  }

  /** The row of the stream that the k-th server contributes, if it passes the test. */
  function Pick(id: string, ls: seq<Listing>, counts: map<string, int>, name: string, k: nat): Option<Row>
    requires k < |ls|
  {
    var s := FindStream(Merged(ls, k + 1), name);
    if s.Some? && LeaderOf(s.value.cluster) == ls[k].server.name
    then Some(RowOf(ls[k].server, id, ls[k].accountName, counts, s.value))
    else None
  }

  function Picks(id: string, ls: seq<Listing>, counts: map<string, int>, name: string): (r: seq<Option<Row>>)
    ensures |r| == |ls| && forall k :: 0 <= k < |ls| ==> r[k] == Pick(id, ls, counts, name, k)
  {
    seq(|ls|, k requires 0 <= k < |ls| => Pick(id, ls, counts, name, k))
  }

  lemma PickLeads(id: string, ls: seq<Listing>, counts: map<string, int>, name: string, k: nat)
    requires AllWellFormed(Streams(ls)) && k < |ls|
    ensures Pick(id, ls, counts, name, k).Some? <==> Leads(ls, k, name)
  {
    MergedWellFormed(ls, k + 1);
    FoldStream(Streams(ls)[..k + 1], name);
  }

  lemma LeaderRowsOwn(id: string, ls: seq<Listing>, counts: map<string, int>, name: string, k: nat)
    requires k < |ls| && DistinctStreams(Merged(ls, k + 1))
    ensures LeaderRows(RowsOf(ls[k].server, id, ls[k].accountName, counts, Merged(ls, k + 1)), name) ==
            Single(Pick(id, ls, counts, name, k))
  {
    LeaderRowsOf(ls[k].server, id, ls[k].accountName, counts, Merged(ls, k + 1), name);
  }

  /** The rows of one more server add its pick. */
  lemma LeaderRowsStep(id: string, ls: seq<Listing>, counts: map<string, int>, name: string, k: nat)
    requires AllWellFormed(Streams(ls)) && k < |ls|
    ensures LeaderRows(RowsUpTo(id, ls, counts, k + 1), name) ==
            LeaderRows(RowsUpTo(id, ls, counts, k), name) + Single(Pick(id, ls, counts, name, k))
  {
    MergedWellFormed(ls, k + 1);
    LeaderRowsOwn(id, ls, counts, name, k);
    LeaderRowsConcat(
      RowsUpTo(id, ls, counts, k),
      RowsOf(ls[k].server, id, ls[k].accountName, counts, Merged(ls, k + 1)), name);
  }

  ghost function LeaderRowsSoFar(
    id: string, ls: seq<Listing>, counts: map<string, int>, name: string): (r: seq<seq<Row>>)
    ensures |r| == |ls| + 1
    ensures forall k :: 0 <= k <= |ls| ==> r[k] == LeaderRows(RowsUpTo(id, ls, counts, k), name)
  {
    seq(|ls| + 1, k requires 0 <= k <= |ls| => LeaderRows(RowsUpTo(id, ls, counts, k), name))
  }

  /** The leader rows are the picks of the servers, in order. */
  lemma LeaderRowsArePicks(id: string, ls: seq<Listing>, counts: map<string, int>, name: string)
    requires AllWellFormed(Streams(ls))
    ensures LeaderRows(RowsUpTo(id, ls, counts, |ls|), name) == Somes(Picks(id, ls, counts, name))
  {
    var grown := LeaderRowsSoFar(id, ls, counts, name);
    var picks := Picks(id, ls, counts, name);
    forall k | 0 <= k < |ls|
      ensures grown[k + 1] == grown[k] + Single(picks[k])
    {
      LeaderRowsStep(id, ls, counts, name, k);
    }
    SomesGrow(grown, picks);
  }

  /** The servers that believe they lead the stream. */
  function Leaders(ls: seq<Listing>, name: string): set<nat> {
    set k: nat | k < |ls| && Leads(ls, k, name)
  }

  /** There are as many leader rows of a stream as servers that believe they lead it. */
  lemma LeaderRowsCount(id: string, ls: seq<Listing>, name: string)
    requires AllWellFormed(Streams(ls))
    ensures |LeaderRows(AccountRows(id, ls), name)| == |Leaders(ls, name)|
  {
    var counts := ConsumerCounts(Merged(ls, |ls|));
    var picks := Picks(id, ls, counts, name);
    LeaderRowsArePicks(id, ls, counts, name);
    forall k | 0 <= k < |ls| {
      PickLeads(id, ls, counts, name, k);
    }
    SomesCount(picks);
    assert Places(picks) == Leaders(ls, name);
  }

  /** The exact condition for reporting a stream at most once: no two servers both believe,
      from the replies so far, that they lead it. */
  ghost predicate OneLeads(ls: seq<Listing>, name: string) {
    forall j, k :: 0 <= j < k < |ls| ==> !(Leads(ls, j, name) && Leads(ls, k, name))
  }

  lemma LeaderRowsOnceIff(id: string, ls: seq<Listing>, name: string)
    requires AllWellFormed(Streams(ls))
    ensures |LeaderRows(AccountRows(id, ls), name)| <= 1 <==> OneLeads(ls, name)
  {
    LeaderRowsCount(id, ls, name);
    AtMostOne(Leaders(ls, name));
    assert forall k: nat :: k < |ls| && Leads(ls, k, name) ==> k in Leaders(ls, name);
  }

  lemma {:induction false} KnownLeader(ls: seq<Listing>, n: nat, name: string, leader: string)
    requires AgreeOnStream(ls, name, leader) && n <= |ls|
    ensures var known := LastStream(Streams(ls)[..n], name);
            known.Some? ==> LeaderOf(known.value.cluster) == leader
  {
    if n > 0 {
      assert Streams(ls)[..n][..n - 1] == Streams(ls)[..n - 1];
      KnownLeader(ls, n - 1, name, leader);
    }
  }

  /** For each server, whether the replies up to its own list the stream. */
  function Known(ls: seq<Listing>, name: string): (r: seq<bool>)
    ensures |r| == |ls|
    ensures forall k :: 0 <= k < |ls| ==> r[k] == LastStream(Streams(ls)[..k + 1], name).Some?
  {
    seq(|ls|, k requires 0 <= k < |ls| => LastStream(Streams(ls)[..k + 1], name).Some?)
  }

  /** A server with the leader's name replied no earlier than the first reply that lists
      the stream. */
  ghost predicate LeaderAnswers(ls: seq<Listing>, name: string, leader: string) {
    exists k :: 0 <= k < |ls| && ServerNames(ls)[k] == leader && Known(ls, name)[k]
  }

  lemma PickWho(
    id: string, ls: seq<Listing>, counts: map<string, int>, name: string, leader: string, k: nat)
    requires AllWellFormed(Streams(ls)) && AgreeOnStream(ls, name, leader) && k < |ls|
    ensures Pick(id, ls, counts, name, k).Some? <==> ServerNames(ls)[k] == leader && Known(ls, name)[k]
  {
    PickLeads(id, ls, counts, name, k);
    KnownLeader(ls, k + 1, name, leader);
  }

  /** With distinct servers that agree on the leader, a stream has one leader row if the
      leader answers, and none otherwise. */
  lemma LeaderRowsExactlyOnce(id: string, ls: seq<Listing>, name: string, leader: string)
    requires AllWellFormed(Streams(ls)) && DistinctServers(ls) && AgreeOnStream(ls, name, leader)
    ensures |LeaderRows(AccountRows(id, ls), name)| == if LeaderAnswers(ls, name, leader) then 1 else 0
  {
    var counts := ConsumerCounts(Merged(ls, |ls|));
    LeaderRowsArePicks(id, ls, counts, name);
    forall k | 0 <= k < |ls| {
      PickWho(id, ls, counts, name, leader, k);
    }
    SomesTally(Picks(id, ls, counts, name), ServerNames(ls), Known(ls, name), leader);
  }

  /** The pick of a server whose own reply lists the stream carries that reply's fields. */
  lemma PickIsOwn(id: string, ls: seq<Listing>, counts: map<string, int>, name: string, k: nat)
    requires AllWellFormed(Streams(ls)) && k < |ls|
    requires FindStream(ls[k].streams, name).Some?
    requires LeaderOf(FindStream(ls[k].streams, name).value.cluster) == ls[k].server.name
    ensures Known(ls, name)[k] && Pick(id, ls, counts, name, k).Some?
    ensures Pick(id, ls, counts, name, k).value.(consumers := []) ==
            RowOf(ls[k].server, id, ls[k].accountName, counts,
                  FindStream(ls[k].streams, name).value).(consumers := [])
  {
    var upTo := Streams(ls)[..k + 1];
    assert LastStream(upTo, name) == FindStream(ls[k].streams, name);
    MergedWellFormed(ls, k + 1);
    FoldStream(upTo, name);
  }

  /** When the leader's own reply lists the stream, there is one leader row, and it carries that
      reply's numbers and labels and the consumer count of the union. */
  lemma LeaderRowIsLeaders(id: string, ls: seq<Listing>, name: string, k: nat, own: StreamDetail)
    returns (row: Row)
    requires AllWellFormed(Streams(ls)) && DistinctServers(ls) && k < |ls|
    requires AgreeOnStream(ls, name, ls[k].server.name) && FindStream(ls[k].streams, name) == Some(own)
    ensures LeaderRows(AccountRows(id, ls), name) == [row]
    ensures row.accountId == id && row.accountName == ls[k].accountName
    ensures row.serverId == ls[k].server.id && row.serverName == ls[k].server.name
    ensures row.clusterName == ls[k].server.cluster && row.streamName == name
    ensures row.raftGroup == own.raftGroup && row.streamLeader == ls[k].server.name
    ensures row.reportedConsumers == own.state.consumers && row.replicas == own.config.replicas
    ensures row.msgs == own.state.msgs && row.bytes == own.state.bytes
    ensures row.firstSeq == own.state.firstSeq && row.lastSeq == own.state.lastSeq
    ensures row.subjects == own.state.subjects
    ensures FindStream(Merged(ls, |ls|), name).Some?
    ensures row.consumerCount == |FindStream(Merged(ls, |ls|), name).value.consumers|
  {
    var counts := ConsumerCounts(Merged(ls, |ls|));
    OnlyPick(id, ls, counts, name, k);
    PickIsOwn(id, ls, counts, name, k);
    UnionHasListed(ls, name, k);
    row := Pick(id, ls, counts, name, k).value;
    assert row.(consumers := []) == RowOf(ls[k].server, id, ls[k].accountName, counts, own).(consumers := []);
  }

  lemma UnionHasListed(ls: seq<Listing>, name: string, k: nat)
    requires AllWellFormed(Streams(ls)) && k < |ls| && FindStream(ls[k].streams, name).Some?
    ensures FindStream(Merged(ls, |ls|), name).Some?
    ensures CountOf(ConsumerCounts(Merged(ls, |ls|)), name) ==
            |FindStream(Merged(ls, |ls|), name).value.consumers|
  {
    MergedWellFormed(ls, |ls|);
    ConsumerCountsFind(Merged(ls, |ls|), name);
    FoldStream(Streams(ls), name);
    LastStreamListed(Streams(ls), name);
    assert Streams(ls)[..|ls|] == Streams(ls);
    assert ListsStream(Streams(ls)[k], name);
  }

  lemma OnlyPick(id: string, ls: seq<Listing>, counts: map<string, int>, name: string, k: nat)
    requires AllWellFormed(Streams(ls)) && DistinctServers(ls) && k < |ls|
    requires AgreeOnStream(ls, name, ls[k].server.name)
    requires FindStream(ls[k].streams, name).Some?
    ensures Pick(id, ls, counts, name, k).Some?
    ensures LeaderRows(RowsUpTo(id, ls, counts, |ls|), name) == [Pick(id, ls, counts, name, k).value]
  {
    LeaderRowsArePicks(id, ls, counts, name);
    PickIsOwn(id, ls, counts, name, k);
    forall j | 0 <= j < |ls| {
      PickWho(id, ls, counts, name, ls[k].server.name, j);
    }
    SomesOne(Picks(id, ls, counts, name), k);
  }

  // ----- Replies that disagree -----

  function Bare(name: string, leader: string): StreamDetail {
    StreamDetail(name, Some(Cluster(leader, "")), "", StreamConfig(2, 0, FileStorage),
                 StreamState(0, 0, 0, 0, 0, 0), [], [])
  }

  /** Two replies taken during a change of leader: each server claims the stream. */
  function Torn(): seq<Listing> {
    [Listing(ServerInfo("1", "a", ""), "", [Bare("s", "a")]),
     Listing(ServerInfo("2", "b", ""), "", [Bare("s", "b")])]
  }

  lemma BothLead(k: nat)
    requires k < 2
    ensures AllWellFormed(Streams(Torn())) && DistinctServers(Torn()) && Leads(Torn(), k, "s")
  {
    assert Streams(Torn())[..1] == [[Bare("s", "a")]];
    assert Streams(Torn())[..2] == [[Bare("s", "a")], [Bare("s", "b")]];
  }

  /** And the stream is reported twice. */
  lemma DisagreementReportsTwice()
    ensures AllWellFormed(Streams(Torn())) && DistinctServers(Torn())
    ensures |LeaderRows(AccountRows("acc", Torn()), "s")| == 2
  {
    var counts := ConsumerCounts(Merged(Torn(), 2));
    BothLead(0);
    BothLead(1);
    PickLeads("acc", Torn(), counts, "s", 0);
    PickLeads("acc", Torn(), counts, "s", 1);
    LeaderRowsStep("acc", Torn(), counts, "s", 0);
    LeaderRowsStep("acc", Torn(), counts, "s", 1);
  }
}

/** The leaders-only guarantee for consumers. A consumer entry is compared with the
    leader of the consumer, whoever leads its stream. */
module JszConsumerLeaders {
  import opened Prelude
  import opened JszMerge
  import opened JszFold
  import opened JszRows
  import opened JszLeaders

  function PassEntry(c: ConsumerRow, server: string, consumer: string): Option<ConsumerRow> {
    if c.name == consumer && server == c.leader then Some(c) else None
  }

  function PassEntries(cs: seq<ConsumerRow>, server: string, consumer: string): (r: seq<Option<ConsumerRow>>)
    ensures |r| == |cs| && forall i :: 0 <= i < |cs| ==> r[i] == PassEntry(cs[i], server, consumer)
  {
    seq(|cs|, i requires 0 <= i < |cs| => PassEntry(cs[i], server, consumer))
  }

  /** The entries of the consumer that pass the leaders-only test in a row of the stream. */
  function LedConsumers(row: Row, name: string, consumer: string): seq<ConsumerRow> {
    if row.streamName == name then Somes(PassEntries(row.consumers, row.serverName, consumer)) else []
  }

  function LedByRow(rows: seq<Row>, name: string, consumer: string): (r: seq<seq<ConsumerRow>>)
    ensures |r| == |rows| && forall i :: 0 <= i < |rows| ==> r[i] == LedConsumers(rows[i], name, consumer)
  {
    seq(|rows|, i requires 0 <= i < |rows| => LedConsumers(rows[i], name, consumer))
  }

  /** Those entries over all rows, in order. */
  function LeaderConsumers(rows: seq<Row>, name: string, consumer: string): seq<ConsumerRow> {
    Flatten(LedByRow(rows, name, consumer))
  }

  ghost predicate AgreeOnConsumer(ls: seq<Listing>, name: string, consumer: string, leader: string) {
    forall i :: 0 <= i < |ls| && FindStream(ls[i].streams, name).Some? ==>
      var found := FindConsumer(FindStream(ls[i].streams, name).value.consumers, consumer);
      found.Some? ==> LeaderOf(found.value.cluster) == leader
  }

  predicate LeadsConsumer(ls: seq<Listing>, k: nat, name: string, consumer: string)
    requires k < |ls|
  {
    var known := LastConsumer(Streams(ls)[..k + 1], name, consumer);
    known.Some? && LeaderOf(known.value.cluster) == ls[k].server.name
  }

  lemma LedByRowConcat(xs: seq<Row>, ys: seq<Row>, name: string, consumer: string)
    ensures LedByRow(xs + ys, name, consumer) == LedByRow(xs, name, consumer) + LedByRow(ys, name, consumer)
  {
  }

  lemma LeaderConsumersConcat(xs: seq<Row>, ys: seq<Row>, name: string, consumer: string)
    ensures LeaderConsumers(xs + ys, name, consumer) ==
            LeaderConsumers(xs, name, consumer) + LeaderConsumers(ys, name, consumer)
  {
    LedByRowConcat(xs, ys, name, consumer);
    FlattenConcat(LedByRow(xs, name, consumer), LedByRow(ys, name, consumer));
  }

  lemma LedConsumersOf(
    server: ServerInfo, id: string, accountName: string, counts: map<string, int>, s: StreamDetail, consumer: string)
    requires DistinctConsumers(s.consumers)
    ensures var c := FindConsumer(s.consumers, consumer);
            LedConsumers(RowOf(server, id, accountName, counts, s), s.name, consumer) ==
            if c.Some? && LeaderOf(c.value.cluster) == server.name
            then [ConsumerRowOf(s.consumerRaftGroups, c.value)] else []
  {
    var cs := s.consumers;
    var passed := PassEntries(ConsumerRowsOf(s.consumerRaftGroups, cs), server.name, consumer);
    var c := FindConsumer(cs, consumer);
    if c.Some? && LeaderOf(c.value.cluster) == server.name {
      var i :| 0 <= i < |cs| && cs[i] == c.value;
      SomesOne(passed, i);
    } else {
      forall i | 0 <= i < |cs|
        ensures passed[i].None?
      {
        assert c.Some? && cs[i].name == consumer ==> cs[i] == c.value;
      }
      SomesNone(passed);
    }
  }

  /** Of the rows of one server, only its own row of the stream can have such entries. */
  lemma LeaderConsumersOf(
    server: ServerInfo, id: string, accountName: string, counts: map<string, int>,
    streams: seq<StreamDetail>, name: string, consumer: string)
    requires DistinctStreams(streams)
    ensures var s := FindStream(streams, name);
            LeaderConsumers(RowsOf(server, id, accountName, counts, streams), name, consumer) ==
            if s.Some? then LedConsumers(RowOf(server, id, accountName, counts, s.value), name, consumer) else []
  {
    var led := LedByRow(RowsOf(server, id, accountName, counts, streams), name, consumer);
    var s := FindStream(streams, name);
    if s.Some? {
      var i :| 0 <= i < |streams| && streams[i] == s.value;
      FlattenOne(led, i);
    } else {
      FlattenNone(led);
    }
  }

  /** The entry of the consumer that the k-th server contributes, if it passes the test. */
  function PickEntry(ls: seq<Listing>, name: string, consumer: string, k: nat): Option<ConsumerRow>
    requires k < |ls|
  {
    var s := FindStream(Merged(ls, k + 1), name);
    if s.None? then None
    else
      var c := FindConsumer(s.value.consumers, consumer);
      if c.Some? && LeaderOf(c.value.cluster) == ls[k].server.name
      then Some(ConsumerRowOf(s.value.consumerRaftGroups, c.value))
      else None
  }

  function PickEntries(ls: seq<Listing>, name: string, consumer: string): (r: seq<Option<ConsumerRow>>)
    ensures |r| == |ls| && forall k :: 0 <= k < |ls| ==> r[k] == PickEntry(ls, name, consumer, k)
  {
    seq(|ls|, k requires 0 <= k < |ls| => PickEntry(ls, name, consumer, k))
  }

  lemma PickEntryLeads(ls: seq<Listing>, name: string, consumer: string, k: nat)
    requires AllWellFormed(Streams(ls)) && k < |ls|
    ensures PickEntry(ls, name, consumer, k).Some? <==> LeadsConsumer(ls, k, name, consumer)
  {
    MergedWellFormed(ls, k + 1);
    FoldConsumer(Streams(ls)[..k + 1], name, consumer);
  }

  lemma OwnEntries(id: string, ls: seq<Listing>, counts: map<string, int>, name: string, consumer: string, k: nat)
    requires k < |ls| && WellFormed(Merged(ls, k + 1))
    ensures LeaderConsumers(
              RowsOf(ls[k].server, id, ls[k].accountName, counts, Merged(ls, k + 1)), name, consumer) ==
            Single(PickEntry(ls, name, consumer, k))
  {
    LeaderConsumersOf(ls[k].server, id, ls[k].accountName, counts, Merged(ls, k + 1), name, consumer);
    var s := FindStream(Merged(ls, k + 1), name);
    if s.Some? {
      LedConsumersOf(ls[k].server, id, ls[k].accountName, counts, s.value, consumer);
    }
  }

  /** The rows of one more server add its pick. */
  lemma LeaderConsumersStep(
    id: string, ls: seq<Listing>, counts: map<string, int>, name: string, consumer: string, k: nat)
    requires AllWellFormed(Streams(ls)) && k < |ls|
    ensures LeaderConsumers(RowsUpTo(id, ls, counts, k + 1), name, consumer) ==
            LeaderConsumers(RowsUpTo(id, ls, counts, k), name, consumer)
            + Single(PickEntry(ls, name, consumer, k))
  {
    MergedWellFormed(ls, k + 1);
    OwnEntries(id, ls, counts, name, consumer, k);
    LeaderConsumersConcat(
      RowsUpTo(id, ls, counts, k),
      RowsOf(ls[k].server, id, ls[k].accountName, counts, Merged(ls, k + 1)), name, consumer);
  }

  ghost function LeaderConsumersSoFar(
    id: string, ls: seq<Listing>, counts: map<string, int>, name: string, consumer: string)
    : (r: seq<seq<ConsumerRow>>)
    ensures |r| == |ls| + 1
    ensures forall k :: 0 <= k <= |ls| ==>
              r[k] == LeaderConsumers(RowsUpTo(id, ls, counts, k), name, consumer)
  {
    seq(|ls| + 1, k requires 0 <= k <= |ls| => LeaderConsumers(RowsUpTo(id, ls, counts, k), name, consumer))
  }

  /** The leader entries are the picks of the servers, in order. */
  lemma LeaderConsumersArePicks(
    id: string, ls: seq<Listing>, counts: map<string, int>, name: string, consumer: string)
    requires AllWellFormed(Streams(ls))
    ensures LeaderConsumers(RowsUpTo(id, ls, counts, |ls|), name, consumer) ==
            Somes(PickEntries(ls, name, consumer))
  {
    var grown := LeaderConsumersSoFar(id, ls, counts, name, consumer);
    var picks := PickEntries(ls, name, consumer);
    forall k | 0 <= k < |ls|
      ensures grown[k + 1] == grown[k] + Single(picks[k])
    {
      LeaderConsumersStep(id, ls, counts, name, consumer, k);
    }
    SomesGrow(grown, picks);
  }

  /** The servers that believe they lead the consumer. */
  function EntryLeaders(ls: seq<Listing>, name: string, consumer: string): set<nat> {
    set k: nat | k < |ls| && LeadsConsumer(ls, k, name, consumer)
  }

  /** There are as many leader entries of a consumer as servers that believe they lead it. */
  lemma LeaderEntriesCount(id: string, ls: seq<Listing>, name: string, consumer: string)
    requires AllWellFormed(Streams(ls))
    ensures |LeaderConsumers(AccountRows(id, ls), name, consumer)| == |EntryLeaders(ls, name, consumer)|
  {
    var picks := PickEntries(ls, name, consumer);
    LeaderConsumersArePicks(id, ls, ConsumerCounts(Merged(ls, |ls|)), name, consumer);
    forall k | 0 <= k < |ls| {
      PickEntryLeads(ls, name, consumer, k);
    }
    SomesCount(picks);
    assert Places(picks) == EntryLeaders(ls, name, consumer);
  }

  /** The exact condition for reporting a consumer at most once. */
  ghost predicate OneLeadsConsumer(ls: seq<Listing>, name: string, consumer: string) {
    forall j, k :: 0 <= j < k < |ls| ==>
      !(LeadsConsumer(ls, j, name, consumer) && LeadsConsumer(ls, k, name, consumer))
  }

  lemma LeaderEntriesOnceIff(id: string, ls: seq<Listing>, name: string, consumer: string)
    requires AllWellFormed(Streams(ls))
    ensures |LeaderConsumers(AccountRows(id, ls), name, consumer)| <= 1 <==> OneLeadsConsumer(ls, name, consumer)
  {
    LeaderEntriesCount(id, ls, name, consumer);
    AtMostOne(EntryLeaders(ls, name, consumer));
    assert forall k: nat :: k < |ls| && LeadsConsumer(ls, k, name, consumer) ==> k in EntryLeaders(ls, name, consumer);
  }

  lemma {:induction false} KnownConsumerLeader(ls: seq<Listing>, n: nat, name: string, consumer: string, leader: string)
    requires AgreeOnConsumer(ls, name, consumer, leader) && n <= |ls|
    ensures var known := LastConsumer(Streams(ls)[..n], name, consumer);
            known.Some? ==> LeaderOf(known.value.cluster) == leader
  {
    if n > 0 {
      assert Streams(ls)[..n][..n - 1] == Streams(ls)[..n - 1];
      KnownConsumerLeader(ls, n - 1, name, consumer, leader);
    }
  }

  /** For each server, whether the replies up to its own list the consumer. */
  function KnownEntries(ls: seq<Listing>, name: string, consumer: string): (r: seq<bool>)
    ensures |r| == |ls|
    ensures forall k :: 0 <= k < |ls| ==> r[k] == LastConsumer(Streams(ls)[..k + 1], name, consumer).Some?
  {
    seq(|ls|, k requires 0 <= k < |ls| => LastConsumer(Streams(ls)[..k + 1], name, consumer).Some?)
  }

  /** A server with the leader's name replied no earlier than the first reply that lists
      the consumer. */
  ghost predicate ConsumerLeaderAnswers(ls: seq<Listing>, name: string, consumer: string, leader: string) {
    exists k :: 0 <= k < |ls| && ServerNames(ls)[k] == leader && KnownEntries(ls, name, consumer)[k]
  }

  lemma PickEntryWho(ls: seq<Listing>, name: string, consumer: string, leader: string, k: nat)
    requires AllWellFormed(Streams(ls)) && AgreeOnConsumer(ls, name, consumer, leader) && k < |ls|
    ensures PickEntry(ls, name, consumer, k).Some? <==>
            ServerNames(ls)[k] == leader && KnownEntries(ls, name, consumer)[k]
  {
    PickEntryLeads(ls, name, consumer, k);
    KnownConsumerLeader(ls, k + 1, name, consumer, leader);
  }

  /** With distinct servers that agree on the leader, a consumer has one leader entry if
      the leader answers, and none otherwise. */
  lemma LeaderEntryExactlyOnce(id: string, ls: seq<Listing>, name: string, consumer: string, leader: string)
    requires AllWellFormed(Streams(ls)) && DistinctServers(ls) && AgreeOnConsumer(ls, name, consumer, leader)
    ensures |LeaderConsumers(AccountRows(id, ls), name, consumer)| ==
            if ConsumerLeaderAnswers(ls, name, consumer, leader) then 1 else 0
  {
    LeaderConsumersArePicks(id, ls, ConsumerCounts(Merged(ls, |ls|)), name, consumer);
    forall k | 0 <= k < |ls| {
      PickEntryWho(ls, name, consumer, leader, k);
    }
    SomesTally(
      PickEntries(ls, name, consumer), ServerNames(ls), KnownEntries(ls, name, consumer), leader);
  }

  /** The pick of a server whose own reply lists the consumer is that reply's entry. */
  lemma PickEntryIsOwn(ls: seq<Listing>, name: string, consumer: string, k: nat)
    requires AllWellFormed(Streams(ls)) && k < |ls|
    requires FindStream(ls[k].streams, name).Some?
    requires var own := FindConsumer(FindStream(ls[k].streams, name).value.consumers, consumer);
             own.Some? && LeaderOf(own.value.cluster) == ls[k].server.name
    ensures var own := FindStream(ls[k].streams, name).value;
            PickEntry(ls, name, consumer, k) ==
            Some(ConsumerRowOf(own.consumerRaftGroups, FindConsumer(own.consumers, consumer).value))
  {
    var own := FindStream(ls[k].streams, name).value;
    var upTo := Streams(ls)[..k + 1];
    assert LastStream(upTo, name) == Some(own);
    assert LastConsumer(upTo, name, consumer) == FindConsumer(own.consumers, consumer);
    MergedWellFormed(ls, k + 1);
    FoldStream(upTo, name);
    FoldConsumer(upTo, name, consumer);
  }

  /** When the leader's own reply lists the consumer, the one entry is that reply's. */
  lemma LeaderEntryIsLeaders(
    id: string, ls: seq<Listing>, name: string, consumer: string, k: nat, own: StreamDetail, c: ConsumerInfo)
    returns (row: ConsumerRow)
    requires AllWellFormed(Streams(ls)) && DistinctServers(ls) && k < |ls|
    requires AgreeOnConsumer(ls, name, consumer, ls[k].server.name)
    requires FindStream(ls[k].streams, name) == Some(own) && FindConsumer(own.consumers, consumer) == Some(c)
    ensures LeaderConsumers(AccountRows(id, ls), name, consumer) == [row]
    ensures row.name == consumer && row.leader == ls[k].server.name
    ensures row.deliveredConsumer == c.deliveredConsumer && row.deliveredStream == c.deliveredStream
    ensures row.ackFloorConsumer == c.ackFloorConsumer && row.ackFloorStream == c.ackFloorStream
    ensures row.ackPending == c.ackPending && row.pending == c.pending
    ensures row.redelivered == c.redelivered && row.waiting == c.waiting
    ensures row.raftGroup == if c.cluster.Some? && c.cluster.value.raftGroup != "" then c.cluster.value.raftGroup
                             else FindGroup(own.consumerRaftGroups, consumer)
    ensures row == ConsumerRowOf(own.consumerRaftGroups, c)
  {
    LeaderConsumersArePicks(id, ls, ConsumerCounts(Merged(ls, |ls|)), name, consumer);
    PickEntryIsOwn(ls, name, consumer, k);
    forall j | 0 <= j < |ls| {
      PickEntryWho(ls, name, consumer, ls[k].server.name, j);
    }
    SomesOne(PickEntries(ls, name, consumer), k);
    row := ConsumerRowOf(own.consumerRaftGroups, c);
  }

  // ----- Replies that disagree -----

  /** A stream that server "a" leads, and its consumer. */
  function Consumed(leader: string): StreamDetail {
    Bare("s", "a").(consumers := [ConsumerInfo("c", Some(Cluster(leader, "")), 0, 0, 0, 0, 0, 0, 0, 0)])
  }

  /** Two replies taken during a change of the consumer's leader: each server claims it. */
  function TornConsumer(): seq<Listing> {
    [Listing(ServerInfo("1", "a", ""), "", [Consumed("a")]),
     Listing(ServerInfo("2", "b", ""), "", [Consumed("b")])]
  }

  lemma BothLeadConsumer(k: nat)
    requires k < 2
    ensures AllWellFormed(Streams(TornConsumer())) && LeadsConsumer(TornConsumer(), k, "s", "c")
  {
    assert Streams(TornConsumer())[..1] == [[Consumed("a")]];
    assert Streams(TornConsumer())[..2] == [[Consumed("a")], [Consumed("b")]];
  }

  lemma TornConsumerAgrees()
    ensures DistinctServers(TornConsumer()) && AgreeOnStream(TornConsumer(), "s", "a")
  {
    assert FindStream([Consumed("a")], "s") == Some(Consumed("a"));
    assert FindStream([Consumed("b")], "s") == Some(Consumed("b"));
  }

  lemma BothCount(id: string, ls: seq<Listing>, name: string, consumer: string)
    requires AllWellFormed(Streams(ls)) && |ls| == 2
    requires LeadsConsumer(ls, 0, name, consumer) && LeadsConsumer(ls, 1, name, consumer)
    ensures |LeaderConsumers(AccountRows(id, ls), name, consumer)| == 2
  {
    LeaderEntriesCount(id, ls, name, consumer);
    assert EntryLeaders(ls, name, consumer) == {0, 1};
  }

  /** And the consumer is reported twice, although the replies agree on the stream's leader. */
  lemma TornConsumerTwice()
    ensures AllWellFormed(Streams(TornConsumer())) && DistinctServers(TornConsumer())
    ensures AgreeOnStream(TornConsumer(), "s", "a")
    ensures |LeaderConsumers(AccountRows("acc", TornConsumer()), "s", "c")| == 2
  {
    TornConsumerAgrees();
    BothLeadConsumer(0);
    BothLeadConsumer(1);
    BothCount("acc", TornConsumer(), "s", "c");
  }
}

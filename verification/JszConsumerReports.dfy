/** The leaders-only guarantee on the emitted metrics of consumers. */
module JszConsumerReports {
  import opened Prelude
  import opened JszMerge
  import opened JszFold
  import opened JszRows
  import opened JszLeaders
  import opened JszConsumerLeaders
  import opened JszEmission
  import opened JszReports

  function ConsumerIndex(kind: Kind): (k: nat)
    requires !IsStreamKind(kind)
    ensures k < |CONSUMER_KINDS| && CONSUMER_KINDS[k] == kind
  {
    match kind
    case DeliveredConsumerSeq => 0
    case DeliveredStreamSeq => 1
    case NumAckPending => 2
    case NumRedelivered => 3
    case NumWaiting => 4
    case NumPending => 5
    case AckFloorStreamSeq => 6
    case AckFloorConsumerSeq => 7
  }

  lemma OnlyConsumerKind(kind: Kind, i: nat)
    requires !IsStreamKind(kind) && i < |CONSUMER_KINDS| && i != ConsumerIndex(kind)
    ensures CONSUMER_KINDS[i] != kind
  {
  }

  lemma StreamKindsOnly(i: nat)
    requires i < |STREAM_KINDS|
    ensures IsStreamKind(STREAM_KINDS[i])
  {
  }

  function Values(ms: seq<Metric>): (r: seq<int>)
    ensures |r| == |ms| && forall i :: 0 <= i < |ms| ==> r[i] == ms[i].value
  {
    seq(|ms|, i requires 0 <= i < |ms| => ms[i].value)
  }

  function EntryValues(cs: seq<ConsumerRow>, kind: Kind): (r: seq<int>)
    ensures |r| == |cs| && forall i :: 0 <= i < |cs| ==> r[i] == ConsumerValue(cs[i], kind)
  {
    seq(|cs|, i requires 0 <= i < |cs| => ConsumerValue(cs[i], kind))
  }

  /** The number of the consumer that one of a row's entries contributes. */
  function EntryPick(row: Row, c: ConsumerRow, kind: Kind, name: string, consumer: string): Option<int> {
    if row.streamName == name && PassEntry(c, row.serverName, consumer).Some?
    then Some(ConsumerValue(c, kind)) else None
  }

  lemma OwnEntrySeries(
    s: Settings, acc: Account, row: Row, c: ConsumerRow, kind: Kind, name: string, consumer: string)
    requires s.leadersOnly && Admits(s, kind) && !IsStreamKind(kind)
    ensures Values(Series(
              Selected(s, ConsumerCandidates(acc, row, c, CONSUMER_KINDS)), kind, OfConsumer(name, consumer))) ==
            Single(EntryPick(row, c, kind, name, consumer))
  {
    var cs, k := ConsumerCandidates(acc, row, c, CONSUMER_KINDS), ConsumerIndex(kind);
    var topic := OfConsumer(name, consumer);
    forall i | 0 <= i < |cs| && i != k
      ensures Hit(s, cs[i], kind, topic).None?
    {
      OnlyConsumerKind(kind, i);
    }
    if EntryPick(row, c, kind, name, consumer).Some? {
      OneInSeries(s, cs, kind, topic, k);
    } else {
      NoSeries(s, cs, kind, topic);
    }
  }

  lemma NoEntrySeries(s: Settings, acc: Account, row: Row, kind: Kind, topic: Topic)
    requires !IsStreamKind(kind)
    ensures Series(Selected(s, StreamCandidates(acc, row, STREAM_KINDS)), kind, topic) == []
  {
    forall i | 0 <= i < |STREAM_KINDS| {
      StreamKindsOnly(i);
    }
    NoSeries(s, StreamCandidates(acc, row, STREAM_KINDS), kind, topic);
  }

  lemma ValuesConcat(xs: seq<Metric>, ys: seq<Metric>)
    ensures Values(xs + ys) == Values(xs) + Values(ys)
  {
  }

  lemma EntriesStep(
    s: Settings, acc: Account, row: Row, cs: seq<ConsumerRow>, n: nat, kind: Kind, name: string, consumer: string)
    requires s.leadersOnly && Admits(s, kind) && !IsStreamKind(kind) && n < |cs|
    ensures Values(Series(
              Selected(s, AllConsumerCandidates(acc, row, cs[..n + 1])), kind, OfConsumer(name, consumer))) ==
            Values(Series(Selected(s, AllConsumerCandidates(acc, row, cs[..n])), kind, OfConsumer(name, consumer)))
            + Single(EntryPick(row, cs[n], kind, name, consumer))
  {
    var topic := OfConsumer(name, consumer);
    var before := AllConsumerCandidates(acc, row, cs[..n]);
    var own := ConsumerCandidates(acc, row, cs[n], CONSUMER_KINDS);
    assert cs[..n + 1][..n] == cs[..n];
    SelectedConcat(s, before, own);
    SeriesConcat(Selected(s, before), Selected(s, own), kind, topic);
    ValuesConcat(Series(Selected(s, before), kind, topic), Series(Selected(s, own), kind, topic));
    OwnEntrySeries(s, acc, row, cs[n], kind, name, consumer);
  }

  function EntryPicks(row: Row, cs: seq<ConsumerRow>, kind: Kind, name: string, consumer: string)
    : (r: seq<Option<int>>)
    ensures |r| == |cs| && forall i :: 0 <= i < |cs| ==> r[i] == EntryPick(row, cs[i], kind, name, consumer)
  {
    seq(|cs|, i requires 0 <= i < |cs| => EntryPick(row, cs[i], kind, name, consumer))
  }

  ghost function EntriesSoFar(
    s: Settings, acc: Account, row: Row, cs: seq<ConsumerRow>, kind: Kind, topic: Topic): (r: seq<seq<int>>)
    ensures |r| == |cs| + 1
    ensures forall n :: 0 <= n <= |cs| ==>
              r[n] == Values(Series(Selected(s, AllConsumerCandidates(acc, row, cs[..n])), kind, topic))
  {
    seq(|cs| + 1, n requires 0 <= n <= |cs| =>
      Values(Series(Selected(s, AllConsumerCandidates(acc, row, cs[..n])), kind, topic)))
  }

  lemma {:induction false} EntryPicksAreLed(row: Row, cs: seq<ConsumerRow>, kind: Kind, name: string, consumer: string)
    requires row.streamName == name
    ensures Somes(EntryPicks(row, cs, kind, name, consumer)) ==
            EntryValues(Somes(PassEntries(cs, row.serverName, consumer)), kind)
  {
    if cs != [] {
      var n := |cs| - 1;
      EntryPicksAreLed(row, cs[..n], kind, name, consumer);
      assert EntryPicks(row, cs, kind, name, consumer)[..n] == EntryPicks(row, cs[..n], kind, name, consumer);
      assert PassEntries(cs, row.serverName, consumer)[..n] == PassEntries(cs[..n], row.serverName, consumer);
    }
  }

  /** What one row emits about a consumer is its led entries. */
  lemma RowEntries(s: Settings, acc: Account, row: Row, kind: Kind, name: string, consumer: string)
    requires s.leadersOnly && Admits(s, kind) && !IsStreamKind(kind)
    ensures Values(Series(
              Selected(s, AllConsumerCandidates(acc, row, row.consumers)), kind, OfConsumer(name, consumer))) ==
            EntryValues(LedConsumers(row, name, consumer), kind)
  {
    var cs := row.consumers;
    var picks := EntryPicks(row, cs, kind, name, consumer);
    var grown := EntriesSoFar(s, acc, row, cs, kind, OfConsumer(name, consumer));
    forall n | 0 <= n < |cs|
      ensures grown[n + 1] == grown[n] + Single(picks[n])
    {
      EntriesStep(s, acc, row, cs, n, kind, name, consumer);
    }
    SomesGrow(grown, picks);
    assert cs[..|cs|] == cs;
    if row.streamName == name {
      EntryPicksAreLed(row, cs, kind, name, consumer);
    } else {
      SomesNone(picks);
    }
  }

  lemma ConsumerSeriesStep(
    s: Settings, acc: Account, rows: seq<Row>, n: nat, kind: Kind, name: string, consumer: string)
    requires s.leadersOnly && Admits(s, kind) && !IsStreamKind(kind) && n < |rows|
    ensures Values(Series(Emitted(s, acc, rows[..n + 1]), kind, OfConsumer(name, consumer))) ==
            Values(Series(Emitted(s, acc, rows[..n]), kind, OfConsumer(name, consumer)))
            + EntryValues(LedConsumers(rows[n], name, consumer), kind)
  {
    var topic := OfConsumer(name, consumer);
    SeriesStep(s, acc, rows, n, kind, topic);
    NoEntrySeries(s, acc, rows[n], kind, topic);
    RowEntries(s, acc, rows[n], kind, name, consumer);
    ValuesConcat(
      Series(Emitted(s, acc, rows[..n]), kind, topic),
      Series(Selected(s, AllConsumerCandidates(acc, rows[n], rows[n].consumers)), kind, topic));
  }

  ghost function ValuesSoFar(s: Settings, acc: Account, rows: seq<Row>, kind: Kind, topic: Topic): (r: seq<seq<int>>)
    ensures |r| == |rows| + 1
    ensures forall n :: 0 <= n <= |rows| ==> r[n] == Values(Series(Emitted(s, acc, rows[..n]), kind, topic))
  {
    seq(|rows| + 1, n requires 0 <= n <= |rows| => Values(Series(Emitted(s, acc, rows[..n]), kind, topic)))
  }

  function LedValues(rows: seq<Row>, kind: Kind, name: string, consumer: string): (r: seq<seq<int>>)
    ensures |r| == |rows|
    ensures forall i :: 0 <= i < |rows| ==> r[i] == EntryValues(LedConsumers(rows[i], name, consumer), kind)
  {
    seq(|rows|, i requires 0 <= i < |rows| => EntryValues(LedConsumers(rows[i], name, consumer), kind))
  }

  lemma {:induction false} LedValuesAreLeaders(rows: seq<Row>, kind: Kind, name: string, consumer: string)
    ensures Flatten(LedValues(rows, kind, name, consumer)) == EntryValues(LeaderConsumers(rows, name, consumer), kind)
  {
    if rows != [] {
      var n := |rows| - 1;
      LedValuesAreLeaders(rows[..n], kind, name, consumer);
      assert LedValues(rows, kind, name, consumer)[..n] == LedValues(rows[..n], kind, name, consumer);
      assert LedByRow(rows, name, consumer)[..n] == LedByRow(rows[..n], name, consumer);
    }
  }

  /** With leaders only, what is emitted about a consumer is its leader entries. */
  lemma ConsumerSeries(s: Settings, acc: Account, rows: seq<Row>, kind: Kind, name: string, consumer: string)
    requires s.leadersOnly && Admits(s, kind) && !IsStreamKind(kind)
    ensures Values(Series(Emitted(s, acc, rows), kind, OfConsumer(name, consumer))) ==
            EntryValues(LeaderConsumers(rows, name, consumer), kind)
  {
    var grown := ValuesSoFar(s, acc, rows, kind, OfConsumer(name, consumer));
    var led := LedValues(rows, kind, name, consumer);
    forall n | 0 <= n < |rows|
      ensures grown[n + 1] == grown[n] + led[n]
    {
      ConsumerSeriesStep(s, acc, rows, n, kind, name, consumer);
    }
    FlattenGrow(grown, led);
    LedValuesAreLeaders(rows, kind, name, consumer);
    assert rows[..|rows|] == rows;
  }

  /** Leaders only reports each number of a consumer as often as servers believe they lead
      it; at most once if and only if no two do. */
  lemma ConsumerReportedOnceIff(
    s: Settings, acc: Account, id: string, ls: seq<Listing>, kind: Kind, name: string, consumer: string)
    requires s.leadersOnly && Admits(s, kind) && !IsStreamKind(kind) && AllWellFormed(Streams(ls))
    ensures var series := Series(Emitted(s, acc, AccountRows(id, ls)), kind, OfConsumer(name, consumer));
            && |series| == |EntryLeaders(ls, name, consumer)|
            && (|series| <= 1 <==> OneLeadsConsumer(ls, name, consumer))
  {
    ConsumerSeries(s, acc, AccountRows(id, ls), kind, name, consumer);
    LeaderEntriesCount(id, ls, name, consumer);
    LeaderEntriesOnceIff(id, ls, name, consumer);
  }

  /** Two replies taken around a change of a consumer's leader get each number of the consumer
      reported twice. */
  lemma TornConsumerReportsTwice(s: Settings, acc: Account, kind: Kind)
    requires s.leadersOnly && Admits(s, kind) && !IsStreamKind(kind)
    ensures AllWellFormed(Streams(TornConsumer())) && DistinctServers(TornConsumer())
    ensures |Series(Emitted(s, acc, AccountRows("acc", TornConsumer())), kind, OfConsumer("s", "c"))| == 2
  {
    ConsumerSeries(s, acc, AccountRows("acc", TornConsumer()), kind, "s", "c");
    TornConsumerTwice();
  }

  /** Leaders only reports each number of a consumer once if its leader answers, and never
      otherwise, given that the replies agree on the leader. */
  lemma ConsumerReportedOnce(
    s: Settings, acc: Account, id: string, ls: seq<Listing>, kind: Kind,
    name: string, consumer: string, leader: string)
    requires s.leadersOnly && Admits(s, kind) && !IsStreamKind(kind)
    requires AllWellFormed(Streams(ls)) && DistinctServers(ls) && AgreeOnConsumer(ls, name, consumer, leader)
    ensures |Series(Emitted(s, acc, AccountRows(id, ls)), kind, OfConsumer(name, consumer))| ==
            if ConsumerLeaderAnswers(ls, name, consumer, leader) then 1 else 0
  {
    ConsumerSeries(s, acc, AccountRows(id, ls), kind, name, consumer);
    LeaderEntryExactlyOnce(id, ls, name, consumer, leader);
  }

  // ----- Which metric it is -----

  lemma {:induction false} SelectedHas(s: Settings, cs: seq<Candidate>, c: Candidate)
    requires c in cs && Selects(s, c)
    ensures c.metric in Selected(s, cs)
  {
    if cs[|cs| - 1] != c {
      SelectedHas(s, cs[..|cs| - 1], c);
    }
  }

  lemma {:induction false} SeriesHas(ms: seq<Metric>, m: Metric, topic: Topic)
    requires m in ms && About(m, topic)
    ensures m in Series(ms, m.kind, topic)
  {
    if ms[|ms| - 1] != m {
      SeriesHas(ms[..|ms| - 1], m, topic);
    }
  }

  lemma {:induction false} EntryIsCandidate(acc: Account, row: Row, cs: seq<ConsumerRow>, c: ConsumerRow, kind: Kind)
    requires c in cs && !IsStreamKind(kind)
    ensures ConsumerCandidate(acc, row, c, kind) in AllConsumerCandidates(acc, row, cs)
  {
    var n := |cs| - 1;
    if cs[n] == c {
      var own := ConsumerCandidates(acc, row, c, CONSUMER_KINDS);
      assert own[ConsumerIndex(kind)] == ConsumerCandidate(acc, row, c, kind);
    } else {
      EntryIsCandidate(acc, row, cs[..n], c, kind);
    }
  }

  lemma {:induction false} RowCandidates(acc: Account, rows: seq<Row>, row: Row, c: Candidate)
    requires row in rows && c in AllConsumerCandidates(acc, row, row.consumers)
    ensures c in Candidates(acc, rows)
  {
    if rows[|rows| - 1] != row {
      RowCandidates(acc, rows[..|rows| - 1], row, c);
    }
  }

  /** A leader entry of some row is emitted with the labels of that row. */
  lemma EntryEmitted(s: Settings, acc: Account, rows: seq<Row>, row: Row, c: ConsumerRow, kind: Kind)
    requires Admits(s, kind) && !IsStreamKind(kind)
    requires row in rows && c in row.consumers && row.serverName == c.leader
    ensures ConsumerCandidate(acc, row, c, kind).metric in
              Series(Emitted(s, acc, rows), kind, OfConsumer(row.streamName, c.name))
  {
    var candidate := ConsumerCandidate(acc, row, c, kind);
    EntryIsCandidate(acc, row, row.consumers, c, kind);
    RowCandidates(acc, rows, row, candidate);
    SelectedHas(s, Candidates(acc, rows), candidate);
    SeriesHas(Emitted(s, acc, rows), candidate.metric, OfConsumer(row.streamName, c.name));
  }

  lemma {:induction false} RowIsThere(
    id: string, ls: seq<Listing>, counts: map<string, int>, n: nat, k: nat, s: StreamDetail)
    requires k < n <= |ls| && s in Merged(ls, k + 1)
    ensures RowOf(ls[k].server, id, ls[k].accountName, counts, s) in RowsUpTo(id, ls, counts, n)
  {
    if k < n - 1 {
      RowIsThere(id, ls, counts, n - 1, k, s);
    } else {
      var own := Merged(ls, n);
      var i :| 0 <= i < |own| && own[i] == s;
      assert RowsOf(ls[k].server, id, ls[k].accountName, counts, own)[i] ==
             RowOf(ls[k].server, id, ls[k].accountName, counts, s);
    }
  }

  lemma EntryIsThere(s: StreamDetail, c: ConsumerInfo)
    requires c in s.consumers
    ensures ConsumerRowOf(s.consumerRaftGroups, c) in ConsumerRowsOf(s.consumerRaftGroups, s.consumers)
  {
    var i :| 0 <= i < |s.consumers| && s.consumers[i] == c;
    assert ConsumerRowsOf(s.consumerRaftGroups, s.consumers)[i] == ConsumerRowOf(s.consumerRaftGroups, c);
  }

  /** The metric of a consumer as the k-th server reports it under the stream. */
  function OwnMetric(acc: Account, id: string, l: Listing, s: StreamDetail, c: ConsumerInfo, kind: Kind): Metric {
    var row := RowOf(l.server, id, l.accountName, map[], s);
    ConsumerCandidate(acc, row, ConsumerRowOf(s.consumerRaftGroups, c), kind).metric
  }

  /** The labels and the value depend on the stream's header only. */
  lemma SameOwnMetric(
    acc: Account, id: string, l: Listing, s: StreamDetail, t: StreamDetail, counts: map<string, int>,
    c: ConsumerInfo, kind: Kind)
    requires Header(s) == Header(t)
    ensures var row := RowOf(l.server, id, l.accountName, counts, s);
            ConsumerCandidate(acc, row, ConsumerRowOf(s.consumerRaftGroups, c), kind).metric ==
            OwnMetric(acc, id, l, t, c, kind)
  {
  }

  lemma {:induction false} LeaderEntryEmitted(
    s: Settings, acc: Account, id: string, ls: seq<Listing>, kind: Kind, name: string, consumer: string, k: nat)
    requires Admits(s, kind) && !IsStreamKind(kind) && AllWellFormed(Streams(ls)) && k < |ls|
    requires FindStream(ls[k].streams, name).Some?
    requires var own := FindConsumer(FindStream(ls[k].streams, name).value.consumers, consumer);
             own.Some? && LeaderOf(own.value.cluster) == ls[k].server.name
    ensures var own := FindStream(ls[k].streams, name).value;
            OwnMetric(acc, id, ls[k], own, FindConsumer(own.consumers, consumer).value, kind) in
              Series(Emitted(s, acc, AccountRows(id, ls)), kind, OfConsumer(name, consumer))
  {
    var own, merged := FindStream(ls[k].streams, name).value, FindStream(Merged(ls, k + 1), name);
    var c := FindConsumer(own.consumers, consumer).value;
    var counts := ConsumerCounts(Merged(ls, |ls|));
    MergedHeader(ls, name, consumer, k);
    RowIsThere(id, ls, counts, |ls|, k, merged.value);
    EntryIsThere(merged.value, c);
    EntryEmitted(
      s, acc, AccountRows(id, ls), RowOf(ls[k].server, id, ls[k].accountName, counts, merged.value),
      ConsumerRowOf(merged.value.consumerRaftGroups, c), kind);
    SameOwnMetric(acc, id, ls[k], merged.value, own, counts, c, kind);
  }

  /** What the k-th server lists itself is what the merge up to it says, in the stream's
      header and in each of the stream's consumers. */
  lemma MergedHeader(ls: seq<Listing>, name: string, consumer: string, k: nat)
    requires AllWellFormed(Streams(ls)) && k < |ls| && FindStream(ls[k].streams, name).Some?
    requires FindConsumer(FindStream(ls[k].streams, name).value.consumers, consumer).Some?
    ensures var own, merged := FindStream(ls[k].streams, name).value, FindStream(Merged(ls, k + 1), name);
            && merged.Some? && Header(merged.value) == Header(own)
            && FindConsumer(merged.value.consumers, consumer) == FindConsumer(own.consumers, consumer)
  {
    var upTo := Streams(ls)[..k + 1];
    assert upTo[|upTo| - 1] == ls[k].streams;
    MergedWellFormed(ls, k + 1);
    FoldStream(upTo, name);
    FoldConsumer(upTo, name, consumer);
  }

  /** When the leader's own reply lists the consumer, what is reported of it is that reply's
      number, with that server's and that reply's labels. */
  lemma ConsumerReportIsLeaders(
    s: Settings, acc: Account, id: string, ls: seq<Listing>, kind: Kind, name: string, consumer: string, k: nat,
    own: StreamDetail, c: ConsumerInfo)
    returns (m: Metric)
    requires s.leadersOnly && Admits(s, kind) && !IsStreamKind(kind)
    requires AllWellFormed(Streams(ls)) && DistinctServers(ls) && k < |ls|
    requires AgreeOnConsumer(ls, name, consumer, ls[k].server.name)
    requires FindStream(ls[k].streams, name) == Some(own) && FindConsumer(own.consumers, consumer) == Some(c)
    ensures Series(Emitted(s, acc, AccountRows(id, ls)), kind, OfConsumer(name, consumer)) == [m] && m.kind == kind
    ensures kind == DeliveredConsumerSeq ==> m.value == c.deliveredConsumer
    ensures kind == DeliveredStreamSeq ==> m.value == c.deliveredStream
    ensures kind == NumAckPending ==> m.value == c.ackPending
    ensures kind == NumRedelivered ==> m.value == c.redelivered
    ensures kind == NumWaiting ==> m.value == c.waiting
    ensures kind == NumPending ==> m.value == c.pending
    ensures kind == AckFloorStreamSeq ==> m.value == c.ackFloorStream
    ensures kind == AckFloorConsumerSeq ==> m.value == c.ackFloorConsumer
    ensures var group := if c.cluster.Some? && c.cluster.value.raftGroup != "" then c.cluster.value.raftGroup
                         else FindGroup(own.consumerRaftGroups, consumer);
            var streamLeader := if own.cluster.Some? then own.cluster.value.leader else "";
            m.labels ==
            [acc.id, acc.name, ls[k].server.cluster, group,
             ls[k].server.id, ls[k].server.name, name, streamLeader, consumer, ls[k].server.name]
  {
    ConsumerSeries(s, acc, AccountRows(id, ls), kind, name, consumer);
    var row := LeaderEntryIsLeaders(id, ls, name, consumer, k, own, c);
    LeaderEntryEmitted(s, acc, id, ls, kind, name, consumer, k);
    m := OwnMetric(acc, id, ls[k], own, c, kind);
  }
}

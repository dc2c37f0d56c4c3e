/** Counting what is emitted, and the leaders-only guarantee on the emitted metrics. */
module JszReports {
  import opened Prelude
  import opened JszMerge
  import opened JszFold
  import opened JszRows
  import opened JszLeaders
  import opened JszEmission

  // ----- The number of metrics -----

  predicate RowCounts(s: Settings, row: Row) {
    s.leadersOnly ==> row.serverName == row.streamLeader
  }

  predicate EntryCounts(s: Settings, row: Row, c: ConsumerRow) {
    s.leadersOnly ==> row.serverName == c.leader
  }

  function CountedRows(s: Settings, rows: seq<Row>): nat {
    if rows == [] then 0
    else CountedRows(s, rows[..|rows| - 1]) + if RowCounts(s, rows[|rows| - 1]) then 1 else 0
  }

  function CountedIn(s: Settings, row: Row, cs: seq<ConsumerRow>): nat {
    if cs == [] then 0
    else CountedIn(s, row, cs[..|cs| - 1]) + if EntryCounts(s, row, cs[|cs| - 1]) then 1 else 0
  }

  function CountedEntries(s: Settings, rows: seq<Row>): nat {
    if rows == [] then 0
    else
      var row := rows[|rows| - 1];
      CountedEntries(s, rows[..|rows| - 1]) + CountedIn(s, row, row.consumers)
  }

  function AdmittedKinds(s: Settings, kinds: seq<Kind>): set<Kind> {
    set k | k in kinds && Admits(s, k)
  }

  ghost predicate DistinctKinds(kinds: seq<Kind>) {
    forall i, j :: 0 <= i < j < |kinds| ==> kinds[i] != kinds[j]
  }

  /** One candidate per kind: the settings let the admitted kinds through, if it counts. */
  lemma {:induction false} SelectedKinds(s: Settings, cs: seq<Candidate>, kinds: seq<Kind>, leads: bool)
    requires |cs| == |kinds| && DistinctKinds(kinds)
    requires forall i :: 0 <= i < |cs| ==> cs[i].metric.kind == kinds[i] && cs[i].leads == leads
    ensures |Selected(s, cs)| == if s.leadersOnly ==> leads then |AdmittedKinds(s, kinds)| else 0
  {
    if cs == [] {
      assert AdmittedKinds(s, kinds) == {};
    } else {
      var init, last := kinds[..|kinds| - 1], kinds[|kinds| - 1];
      SelectedKinds(s, cs[..|cs| - 1], init, leads);
      assert kinds == init + [last];
      assert AdmittedKinds(s, kinds) == AdmittedKinds(s, init) + if Admits(s, last) then {last} else {};
      assert last !in init;
    }
  }

  lemma OwnStreamCount(s: Settings, acc: Account, row: Row)
    ensures |Selected(s, StreamCandidates(acc, row, STREAM_KINDS))| ==
            if RowCounts(s, row) then |AdmittedKinds(s, STREAM_KINDS)| else 0
  {
    SelectedKinds(s, StreamCandidates(acc, row, STREAM_KINDS), STREAM_KINDS, row.serverName == row.streamLeader);
  }

  lemma OwnConsumerCount(s: Settings, acc: Account, row: Row, c: ConsumerRow)
    ensures |Selected(s, ConsumerCandidates(acc, row, c, CONSUMER_KINDS))| ==
            if EntryCounts(s, row, c) then |AdmittedKinds(s, CONSUMER_KINDS)| else 0
  {
    SelectedKinds(s, ConsumerCandidates(acc, row, c, CONSUMER_KINDS), CONSUMER_KINDS, row.serverName == c.leader);
  }

  lemma OneMore(kinds: nat, n: nat)
    ensures kinds * (n + 1) == kinds * n + kinds
  {
  }

  lemma {:induction false} SelectedEntries(s: Settings, acc: Account, row: Row, cs: seq<ConsumerRow>, kinds: nat)
    requires kinds == |AdmittedKinds(s, CONSUMER_KINDS)|
    ensures |Selected(s, AllConsumerCandidates(acc, row, cs))| == kinds * CountedIn(s, row, cs)
  {
    if cs != [] {
      var init, last := cs[..|cs| - 1], cs[|cs| - 1];
      var before := CountedIn(s, row, init);
      SelectedEntries(s, acc, row, init, kinds);
      SelectedConcat(s, AllConsumerCandidates(acc, row, init), ConsumerCandidates(acc, row, last, CONSUMER_KINDS));
      OwnConsumerCount(s, acc, row, last);
      OneMore(kinds, before);
      assert CountedIn(s, row, cs) == if EntryCounts(s, row, last) then before + 1 else before;
    }
  }

  lemma CountStep(a: nat, b: nat, rows: nat, entries: nat, more: nat, extra: nat)
    ensures a * rows + b * entries + a * more + b * extra == a * (rows + more) + b * (entries + extra)
  {
  }

  lemma {:induction false} EmittedCountOf(s: Settings, acc: Account, rows: seq<Row>, a: nat, b: nat)
    requires a == |AdmittedKinds(s, STREAM_KINDS)| && b == |AdmittedKinds(s, CONSUMER_KINDS)|
    ensures |Emitted(s, acc, rows)| == a * CountedRows(s, rows) + b * CountedEntries(s, rows)
  {
    if rows != [] {
      var n := |rows| - 1;
      var row := rows[n];
      EmittedCountOf(s, acc, rows[..n], a, b);
      EmittedStep(s, acc, rows, n);
      assert rows[..n + 1] == rows;
      OwnStreamCount(s, acc, row);
      SelectedEntries(s, acc, row, row.consumers, b);
      CountStep(a, b, CountedRows(s, rows[..n]), CountedEntries(s, rows[..n]),
                if RowCounts(s, row) then 1 else 0, CountedIn(s, row, row.consumers));
    }
  }

  /** As many metrics as counted rows times stream kinds plus counted entries times
      consumer kinds. */
  lemma EmittedCount(s: Settings, acc: Account, rows: seq<Row>)
    ensures |Emitted(s, acc, rows)| ==
            |AdmittedKinds(s, STREAM_KINDS)| * CountedRows(s, rows)
            + |AdmittedKinds(s, CONSUMER_KINDS)| * CountedEntries(s, rows)
  {
    EmittedCountOf(s, acc, rows, |AdmittedKinds(s, STREAM_KINDS)|, |AdmittedKinds(s, CONSUMER_KINDS)|);
  }

  lemma {:induction false} SelectedAdmitted(s: Settings, cs: seq<Candidate>)
    ensures forall m :: m in Selected(s, cs) ==> Admits(s, m.kind)
  {
    if cs != [] {
      SelectedAdmitted(s, cs[..|cs| - 1]);
    }
  }

  /** Which kinds each mode lets through, and that a filter lets only its own through. */
  lemma ModesAreKinds(s: Settings, acc: Account, rows: seq<Row>, m: Metric)
    requires m in Emitted(s, acc, rows)
    ensures s.mode != CollectNone
    ensures s.mode == CollectStreams ==>
              m.kind in {StreamMsgs, StreamBytes, StreamFirstSeq, StreamLastSeq, StreamConsumers, StreamSubjects}
    ensures s.mode == CollectConsumers ==>
              m.kind in {DeliveredConsumerSeq, DeliveredStreamSeq, NumAckPending, NumRedelivered,
                         NumWaiting, NumPending, AckFloorStreamSeq, AckFloorConsumerSeq}
    ensures s.filters == {} || m.kind in s.filters
  {
    SelectedAdmitted(s, Candidates(acc, rows));
  }

  /** The consumers that the rows list. */
  function Entries(rows: seq<Row>): nat {
    if rows == [] then 0 else Entries(rows[..|rows| - 1]) + |rows[|rows| - 1].consumers|
  }

  lemma {:induction false} AllCounted(s: Settings, rows: seq<Row>)
    requires !s.leadersOnly
    ensures CountedRows(s, rows) == |rows| && CountedEntries(s, rows) == Entries(rows)
  {
    if rows != [] {
      AllCounted(s, rows[..|rows| - 1]);
      AllIn(s, rows[|rows| - 1], rows[|rows| - 1].consumers);
    }
  }

  lemma {:induction false} AllIn(s: Settings, row: Row, cs: seq<ConsumerRow>)
    requires !s.leadersOnly
    ensures CountedIn(s, row, cs) == |cs|
  {
    if cs != [] {
      AllIn(s, row, cs[..|cs| - 1]);
    }
  }

  lemma {:induction false} AllAdmitted(s: Settings, kinds: seq<Kind>)
    requires DistinctKinds(kinds) && forall i :: 0 <= i < |kinds| ==> Admits(s, kinds[i])
    ensures |AdmittedKinds(s, kinds)| == |kinds|
  {
    if kinds == [] {
      assert AdmittedKinds(s, kinds) == {};
    } else {
      var init, last := kinds[..|kinds| - 1], kinds[|kinds| - 1];
      AllAdmitted(s, init);
      assert kinds == init + [last];
      assert AdmittedKinds(s, kinds) == AdmittedKinds(s, init) + {last};
    }
  }

  lemma StreamKindsIn(s: Settings)
    requires s.filters == {}
    ensures |AdmittedKinds(s, STREAM_KINDS)| == if s.mode.CollectAll? || s.mode.CollectStreams? then 6 else 0
  {
    if s.mode.CollectAll? || s.mode.CollectStreams? {
      AllAdmitted(s, STREAM_KINDS);
    } else {
      assert AdmittedKinds(s, STREAM_KINDS) == {};
    }
  }

  lemma ConsumerKindsIn(s: Settings)
    requires s.filters == {}
    ensures |AdmittedKinds(s, CONSUMER_KINDS)| == if s.mode.CollectAll? || s.mode.CollectConsumers? then 8 else 0
  {
    if s.mode.CollectAll? || s.mode.CollectConsumers? {
      AllAdmitted(s, CONSUMER_KINDS);
    } else {
      assert AdmittedKinds(s, CONSUMER_KINDS) == {};
    }
  }

  /** Without leaders only and without a filter, every row gives six metrics, unless only
      consumers are collected, and every consumer in it eight, unless only streams are. */
  lemma EveryRowEmits(s: Settings, acc: Account, rows: seq<Row>)
    requires !s.leadersOnly && s.filters == {}
    ensures s.mode == CollectNone ==> |Emitted(s, acc, rows)| == 0
    ensures s.mode == CollectAll ==> |Emitted(s, acc, rows)| == 6 * |rows| + 8 * Entries(rows)
    ensures s.mode == CollectStreams ==> |Emitted(s, acc, rows)| == 6 * |rows|
    ensures s.mode == CollectConsumers ==> |Emitted(s, acc, rows)| == 8 * Entries(rows)
  {
    EmittedCount(s, acc, rows);
    AllCounted(s, rows);
    StreamKindsIn(s);
    ConsumerKindsIn(s);
  }

  // ----- The metrics about one stream or one consumer -----

  datatype Topic = OfStream(stream: string) | OfConsumer(stream: string, consumer: string)

  predicate About(m: Metric, topic: Topic) {
    match topic
    case OfStream(stream) => |m.labels| > 6 && m.labels[6] == stream
    case OfConsumer(stream, consumer) => |m.labels| > 8 && m.labels[6] == stream && m.labels[8] == consumer
  }

  /** The metrics of one kind about one stream or consumer, in order. */
  function Series(ms: seq<Metric>, kind: Kind, topic: Topic): seq<Metric> {
    if ms == [] then []
    else
      var last := ms[|ms| - 1];
      var earlier := Series(ms[..|ms| - 1], kind, topic);
      if last.kind == kind && About(last, topic) then earlier + [last] else earlier
  }

  lemma {:induction false} SeriesConcat(xs: seq<Metric>, ys: seq<Metric>, kind: Kind, topic: Topic)
    ensures Series(xs + ys, kind, topic) == Series(xs, kind, topic) + Series(ys, kind, topic)
  {
    if ys == [] {
      assert xs + ys == xs;
    } else {
      assert (xs + ys)[..|xs + ys| - 1] == xs + ys[..|ys| - 1];
      SeriesConcat(xs, ys[..|ys| - 1], kind, topic);
    }
  }

  function Hit(s: Settings, c: Candidate, kind: Kind, topic: Topic): Option<Metric> {
    if Selects(s, c) && c.metric.kind == kind && About(c.metric, topic) then Some(c.metric) else None
  }

  function Hits(s: Settings, cs: seq<Candidate>, kind: Kind, topic: Topic): (r: seq<Option<Metric>>)
    ensures |r| == |cs| && forall i :: 0 <= i < |cs| ==> r[i] == Hit(s, cs[i], kind, topic)
  {
    seq(|cs|, i requires 0 <= i < |cs| => Hit(s, cs[i], kind, topic))
  }

  lemma SeriesSnoc(ms: seq<Metric>, m: Metric, kind: Kind, topic: Topic)
    ensures Series(ms + [m], kind, topic) ==
            if m.kind == kind && About(m, topic) then Series(ms, kind, topic) + [m] else Series(ms, kind, topic)
  {
    assert (ms + [m])[..|ms|] == ms;
  }

  lemma {:induction false} SeriesAreHits(s: Settings, cs: seq<Candidate>, kind: Kind, topic: Topic)
    ensures Series(Selected(s, cs), kind, topic) == Somes(Hits(s, cs, kind, topic))
  {
    if cs != [] {
      var init, last := cs[..|cs| - 1], cs[|cs| - 1];
      SeriesAreHits(s, init, kind, topic);
      SeriesSnoc(Selected(s, init), last.metric, kind, topic);
      assert Hits(s, cs, kind, topic)[..|cs| - 1] == Hits(s, init, kind, topic);
    }
  }

  /** Candidates of other kinds contribute nothing. */
  lemma {:induction false} NoSeries(s: Settings, cs: seq<Candidate>, kind: Kind, topic: Topic)
    requires forall i :: 0 <= i < |cs| ==> Hit(s, cs[i], kind, topic).None?
    ensures Series(Selected(s, cs), kind, topic) == []
  {
    SeriesAreHits(s, cs, kind, topic);
    SomesNone(Hits(s, cs, kind, topic));
  }

  lemma OneInSeries(s: Settings, cs: seq<Candidate>, kind: Kind, topic: Topic, k: nat)
    requires k < |cs| && Hit(s, cs[k], kind, topic).Some?
    requires forall i :: 0 <= i < |cs| && i != k ==> Hit(s, cs[i], kind, topic).None?
    ensures Series(Selected(s, cs), kind, topic) == [cs[k].metric]
  {
    SeriesAreHits(s, cs, kind, topic);
    SomesOne(Hits(s, cs, kind, topic), k);
  }

  // ----- Streams: the series are the leader rows -----

  function StreamIndex(kind: Kind): (k: nat)
    requires IsStreamKind(kind)
    ensures k < |STREAM_KINDS| && STREAM_KINDS[k] == kind
  {
    match kind
    case StreamMsgs => 0
    case StreamBytes => 1
    case StreamFirstSeq => 2
    case StreamLastSeq => 3
    case StreamConsumers => 4
    case StreamSubjects => 5
  }

  lemma OnlyStreamKind(kind: Kind, i: nat)
    requires IsStreamKind(kind) && i < |STREAM_KINDS| && i != StreamIndex(kind)
    ensures STREAM_KINDS[i] != kind
  {
  }

  function StreamMetric(acc: Account, row: Row, kind: Kind): Metric {
    StreamCandidate(acc, row, kind).metric
  }

  lemma OwnStreamSeries(s: Settings, acc: Account, row: Row, kind: Kind, name: string)
    requires s.leadersOnly && Admits(s, kind) && IsStreamKind(kind)
    ensures Series(Selected(s, StreamCandidates(acc, row, STREAM_KINDS)), kind, OfStream(name)) ==
            if PassRow(row, name).Some? then [StreamMetric(acc, row, kind)] else []
  {
    var cs, k := StreamCandidates(acc, row, STREAM_KINDS), StreamIndex(kind);
    forall i | 0 <= i < |cs| && i != k
      ensures Hit(s, cs[i], kind, OfStream(name)).None?
    {
      OnlyStreamKind(kind, i);
    }
    if PassRow(row, name).Some? {
      OneInSeries(s, cs, kind, OfStream(name), k);
    } else {
      NoSeries(s, cs, kind, OfStream(name));
    }
  }

  lemma ConsumerKind(i: nat)
    requires i < |CONSUMER_KINDS|
    ensures !IsStreamKind(CONSUMER_KINDS[i])
  {
  }

  lemma {:induction false} NoStreamCandidates(acc: Account, row: Row, cs: seq<ConsumerRow>)
    ensures forall i :: 0 <= i < |AllConsumerCandidates(acc, row, cs)| ==>
              !IsStreamKind(AllConsumerCandidates(acc, row, cs)[i].metric.kind)
  {
    if cs != [] {
      NoStreamCandidates(acc, row, cs[..|cs| - 1]);
      forall i | 0 <= i < |CONSUMER_KINDS| {
        ConsumerKind(i);
      }
    }
  }

  lemma NoStreamSeries(s: Settings, acc: Account, row: Row, cs: seq<ConsumerRow>, kind: Kind, topic: Topic)
    requires IsStreamKind(kind)
    ensures Series(Selected(s, AllConsumerCandidates(acc, row, cs)), kind, topic) == []
  {
    NoStreamCandidates(acc, row, cs);
    NoSeries(s, AllConsumerCandidates(acc, row, cs), kind, topic);
  }

  function StreamMetrics(acc: Account, rows: seq<Row>, kind: Kind): (r: seq<Metric>)
    ensures |r| == |rows| && forall i :: 0 <= i < |rows| ==> r[i] == StreamMetric(acc, rows[i], kind)
  {
    seq(|rows|, i requires 0 <= i < |rows| => StreamMetric(acc, rows[i], kind))
  }

  lemma SeriesStep(s: Settings, acc: Account, rows: seq<Row>, n: nat, kind: Kind, topic: Topic)
    requires n < |rows|
    ensures Series(Emitted(s, acc, rows[..n + 1]), kind, topic) ==
            Series(Emitted(s, acc, rows[..n]), kind, topic)
            + Series(Selected(s, StreamCandidates(acc, rows[n], STREAM_KINDS)), kind, topic)
            + Series(Selected(s, AllConsumerCandidates(acc, rows[n], rows[n].consumers)), kind, topic)
  {
    EmittedStep(s, acc, rows, n);
    var before := Emitted(s, acc, rows[..n]);
    var own := Selected(s, StreamCandidates(acc, rows[n], STREAM_KINDS));
    SeriesConcat(before, own, kind, topic);
    SeriesConcat(before + own, Selected(s, AllConsumerCandidates(acc, rows[n], rows[n].consumers)), kind, topic);
  }

  /** The metric that a row contributes to the series of the stream. */
  function StreamPick(acc: Account, row: Row, kind: Kind, name: string): Option<Metric> {
    if PassRow(row, name).Some? then Some(StreamMetric(acc, row, kind)) else None
  }

  function StreamPicks(acc: Account, rows: seq<Row>, kind: Kind, name: string): (r: seq<Option<Metric>>)
    ensures |r| == |rows| && forall i :: 0 <= i < |rows| ==> r[i] == StreamPick(acc, rows[i], kind, name)
  {
    seq(|rows|, i requires 0 <= i < |rows| => StreamPick(acc, rows[i], kind, name))
  }

  ghost function SeriesSoFar(s: Settings, acc: Account, rows: seq<Row>, kind: Kind, topic: Topic)
    : (r: seq<seq<Metric>>)
    ensures |r| == |rows| + 1
    ensures forall n :: 0 <= n <= |rows| ==> r[n] == Series(Emitted(s, acc, rows[..n]), kind, topic)
  {
    seq(|rows| + 1, n requires 0 <= n <= |rows| => Series(Emitted(s, acc, rows[..n]), kind, topic))
  }

  lemma StreamSeriesStep(s: Settings, acc: Account, rows: seq<Row>, n: nat, kind: Kind, name: string)
    requires s.leadersOnly && Admits(s, kind) && IsStreamKind(kind) && n < |rows|
    ensures Series(Emitted(s, acc, rows[..n + 1]), kind, OfStream(name)) ==
            Series(Emitted(s, acc, rows[..n]), kind, OfStream(name)) + Single(StreamPick(acc, rows[n], kind, name))
  {
    SeriesStep(s, acc, rows, n, kind, OfStream(name));
    OwnStreamSeries(s, acc, rows[n], kind, name);
    NoStreamSeries(s, acc, rows[n], rows[n].consumers, kind, OfStream(name));
  }

  lemma {:induction false} StreamPicksAreLeaders(acc: Account, rows: seq<Row>, kind: Kind, name: string)
    ensures Somes(StreamPicks(acc, rows, kind, name)) == StreamMetrics(acc, LeaderRows(rows, name), kind)
  {
    if rows != [] {
      var n := |rows| - 1;
      StreamPicksAreLeaders(acc, rows[..n], kind, name);
      assert StreamPicks(acc, rows, kind, name)[..n] == StreamPicks(acc, rows[..n], kind, name);
      assert PassRows(rows, name)[..n] == PassRows(rows[..n], name);
    }
  }

  /** With leaders only, what is emitted about a stream is its leader rows. */
  lemma StreamSeries(s: Settings, acc: Account, rows: seq<Row>, kind: Kind, name: string)
    requires s.leadersOnly && Admits(s, kind) && IsStreamKind(kind)
    ensures Series(Emitted(s, acc, rows), kind, OfStream(name)) == StreamMetrics(acc, LeaderRows(rows, name), kind)
  {
    var grown, picks := SeriesSoFar(s, acc, rows, kind, OfStream(name)), StreamPicks(acc, rows, kind, name);
    forall n | 0 <= n < |rows|
      ensures grown[n + 1] == grown[n] + Single(picks[n])
    {
      StreamSeriesStep(s, acc, rows, n, kind, name);
    }
    SomesGrow(grown, picks);
    StreamPicksAreLeaders(acc, rows, kind, name);
    assert rows[..|rows|] == rows;
  }

  /** Leaders only reports each number of a stream as often as servers believe they lead it;
      at most once if and only if no two do. */
  lemma StreamReportedOnceIff(s: Settings, acc: Account, id: string, ls: seq<Listing>, kind: Kind, name: string)
    requires s.leadersOnly && Admits(s, kind) && IsStreamKind(kind) && AllWellFormed(Streams(ls))
    ensures var series := Series(Emitted(s, acc, AccountRows(id, ls)), kind, OfStream(name));
            |series| == |Leaders(ls, name)| && (|series| <= 1 <==> OneLeads(ls, name))
  {
    StreamSeries(s, acc, AccountRows(id, ls), kind, name);
    LeaderRowsCount(id, ls, name);
    LeaderRowsOnceIff(id, ls, name);
  }

  /** Two replies taken around a change of leader get each number of the stream reported
      twice. */
  lemma TornReportsTwice(s: Settings, acc: Account, kind: Kind)
    requires s.leadersOnly && Admits(s, kind) && IsStreamKind(kind)
    ensures AllWellFormed(Streams(Torn())) && DistinctServers(Torn())
    ensures |Series(Emitted(s, acc, AccountRows("acc", Torn())), kind, OfStream("s"))| == 2
  {
    StreamSeries(s, acc, AccountRows("acc", Torn()), kind, "s");
    DisagreementReportsTwice();
  }

  /** Leaders only reports each number of a stream once if its leader answers, and never
      otherwise, given that the replies agree on the leader. */
  lemma StreamReportedOnce(
    s: Settings, acc: Account, id: string, ls: seq<Listing>, kind: Kind, name: string, leader: string)
    requires s.leadersOnly && Admits(s, kind) && IsStreamKind(kind)
    requires AllWellFormed(Streams(ls)) && DistinctServers(ls) && AgreeOnStream(ls, name, leader)
    ensures |Series(Emitted(s, acc, AccountRows(id, ls)), kind, OfStream(name))| ==
            if LeaderAnswers(ls, name, leader) then 1 else 0
  {
    var rows := AccountRows(id, ls);
    StreamSeries(s, acc, rows, kind, name);
    LeaderRowsExactlyOnce(id, ls, name, leader);
  }

  /** When the leader's own reply lists the stream, the number reported is that reply's;
      the consumer count is that of the union of all replies. */
  lemma StreamReportIsLeaders(
    s: Settings, acc: Account, id: string, ls: seq<Listing>, kind: Kind, name: string, k: nat, own: StreamDetail)
    returns (m: Metric)
    requires s.leadersOnly && Admits(s, kind) && IsStreamKind(kind)
    requires AllWellFormed(Streams(ls)) && DistinctServers(ls) && k < |ls|
    requires AgreeOnStream(ls, name, ls[k].server.name) && FindStream(ls[k].streams, name) == Some(own)
    ensures FindStream(Merged(ls, |ls|), name).Some?
    ensures Series(Emitted(s, acc, AccountRows(id, ls)), kind, OfStream(name)) == [m] && m.kind == kind
    ensures kind == StreamMsgs ==> m.value == own.state.msgs
    ensures kind == StreamBytes ==> m.value == own.state.bytes
    ensures kind == StreamFirstSeq ==> m.value == own.state.firstSeq
    ensures kind == StreamLastSeq ==> m.value == own.state.lastSeq
    ensures kind == StreamSubjects ==> m.value == own.state.subjects
    ensures kind == StreamConsumers ==> m.value == |FindStream(Merged(ls, |ls|), name).value.consumers|
    ensures m.labels == [acc.id, acc.name, ls[k].server.cluster, own.raftGroup,
                         ls[k].server.id, ls[k].server.name, name, ls[k].server.name]
  {
    StreamSeries(s, acc, AccountRows(id, ls), kind, name);
    var row := LeaderRowIsLeaders(id, ls, name, k, own);
    m := StreamMetric(acc, row, kind);
  }
}

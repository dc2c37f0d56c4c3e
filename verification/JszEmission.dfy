/** From rows to metrics: which of the candidate metrics of an account are emitted. */
module JszEmission {
  import opened JszRows

  datatype Kind =
    | StreamMsgs | StreamBytes | StreamFirstSeq | StreamLastSeq | StreamConsumers | StreamSubjects
    | DeliveredConsumerSeq | DeliveredStreamSeq | NumAckPending | NumRedelivered | NumWaiting | NumPending
    | AckFloorStreamSeq | AckFloorConsumerSeq

  datatype Mode = CollectNone | CollectAll | CollectStreams | CollectConsumers

  datatype Settings = Settings(mode: Mode, leadersOnly: bool, filters: set<Kind>)

  datatype Account = Account(id: string, name: string)

  datatype Metric = Metric(kind: Kind, value: int, labels: seq<string>)

  const STREAM_KINDS: seq<Kind> :=
    [StreamMsgs, StreamBytes, StreamFirstSeq, StreamLastSeq, StreamConsumers, StreamSubjects]

  const CONSUMER_KINDS: seq<Kind> :=
    [DeliveredConsumerSeq, DeliveredStreamSeq, NumAckPending, NumRedelivered, NumWaiting, NumPending,
     AckFloorStreamSeq, AckFloorConsumerSeq]

  // ----- What could be emitted -----

  function StreamValue(row: Row, kind: Kind): int {
    match kind
    case StreamMsgs => row.msgs
    case StreamBytes => row.bytes
    case StreamFirstSeq => row.firstSeq
    case StreamLastSeq => row.lastSeq
    case StreamConsumers => row.consumerCount
    case StreamSubjects => row.subjects
    case _ => 0
  }

  function ConsumerValue(c: ConsumerRow, kind: Kind): int {
    match kind
    case DeliveredConsumerSeq => c.deliveredConsumer
    case DeliveredStreamSeq => c.deliveredStream
    case NumAckPending => c.ackPending
    case NumRedelivered => c.redelivered
    case NumWaiting => c.waiting
    case NumPending => c.pending
    case AckFloorStreamSeq => c.ackFloorStream
    case AckFloorConsumerSeq => c.ackFloorConsumer
    case _ => 0
  }

  function StreamLabels(acc: Account, row: Row): seq<string> {
    [acc.id, acc.name, row.clusterName, row.raftGroup, row.serverId, row.serverName, row.streamName, row.streamLeader]
  }

  function ConsumerLabels(acc: Account, row: Row, c: ConsumerRow): seq<string> {
    [acc.id, acc.name, row.clusterName, c.raftGroup, row.serverId, row.serverName, row.streamName, row.streamLeader,
     c.name, c.leader]
  }

  /** A metric that the settings may let through; `leads` says whether its server leads
      what the metric is about. */
  datatype Candidate = Candidate(metric: Metric, leads: bool)

  function StreamCandidate(acc: Account, row: Row, kind: Kind): Candidate {
    Candidate(Metric(kind, StreamValue(row, kind), StreamLabels(acc, row)), row.serverName == row.streamLeader)
  }

  function ConsumerCandidate(acc: Account, row: Row, c: ConsumerRow, kind: Kind): Candidate {
    Candidate(Metric(kind, ConsumerValue(c, kind), ConsumerLabels(acc, row, c)), row.serverName == c.leader)
  }

  function StreamCandidates(acc: Account, row: Row, kinds: seq<Kind>): (r: seq<Candidate>)
    ensures |r| == |kinds|
  {
    seq(|kinds|, i requires 0 <= i < |kinds| => StreamCandidate(acc, row, kinds[i]))
  }

  function ConsumerCandidates(acc: Account, row: Row, c: ConsumerRow, kinds: seq<Kind>): (r: seq<Candidate>)
    ensures |r| == |kinds|
  {
    seq(|kinds|, i requires 0 <= i < |kinds| => ConsumerCandidate(acc, row, c, kinds[i]))
  }

  function AllConsumerCandidates(acc: Account, row: Row, cs: seq<ConsumerRow>): seq<Candidate> {
    if cs == [] then []
    else
      AllConsumerCandidates(acc, row, cs[..|cs| - 1])
      + ConsumerCandidates(acc, row, cs[|cs| - 1], CONSUMER_KINDS)
  }

  function Candidates(acc: Account, rows: seq<Row>): seq<Candidate> {
    if rows == [] then []
    else
      var row := rows[|rows| - 1];
      Candidates(acc, rows[..|rows| - 1])
      + StreamCandidates(acc, row, STREAM_KINDS) + AllConsumerCandidates(acc, row, row.consumers)
  }

  // ----- What is emitted -----

  predicate IsStreamKind(kind: Kind) {
    match kind
    case StreamMsgs | StreamBytes | StreamFirstSeq | StreamLastSeq | StreamConsumers | StreamSubjects => true
    case _ => false
  }

  predicate Shown(mode: Mode, kind: Kind) {
    match mode
    case CollectNone => false
    case CollectAll => true
    case CollectStreams => IsStreamKind(kind)
    case CollectConsumers => !IsStreamKind(kind)
  }

  /** The settings let metrics of the kind through. */
  predicate Admits(s: Settings, kind: Kind) {
    Shown(s.mode, kind) && (s.filters == {} || kind in s.filters)
  }

  predicate Selects(s: Settings, c: Candidate) {
    Admits(s, c.metric.kind) && (s.leadersOnly ==> c.leads)
  }

  function Selected(s: Settings, cs: seq<Candidate>): seq<Metric> {
    if cs == [] then []
    else
      var last := cs[|cs| - 1];
      var earlier := Selected(s, cs[..|cs| - 1]);
      if Selects(s, last) then earlier + [last.metric] else earlier
  }

  function Emitted(s: Settings, acc: Account, rows: seq<Row>): seq<Metric> {
    Selected(s, Candidates(acc, rows))
  }

  lemma {:induction false} SelectedConcat(s: Settings, xs: seq<Candidate>, ys: seq<Candidate>)
    ensures Selected(s, xs + ys) == Selected(s, xs) + Selected(s, ys)
  {
    if ys == [] {
      assert xs + ys == xs;
    } else {
      assert (xs + ys)[..|xs + ys| - 1] == xs + ys[..|ys| - 1];
      SelectedConcat(s, xs, ys[..|ys| - 1]);
    }
  }

  lemma SelectedSnoc(s: Settings, cs: seq<Candidate>, k: nat)
    requires k < |cs|
    ensures Selected(s, cs[..k + 1]) ==
            if Selects(s, cs[k]) then Selected(s, cs[..k]) + [cs[k].metric] else Selected(s, cs[..k])
  {
    assert cs[..k + 1][..k] == cs[..k];
  }

  // ----- The loops that emit them -----

  /** Emit candidate k, whose place and mode have been checked, if the filters let it. */
  method EmitOne(
    s: Settings, ms: seq<Metric>, kind: Kind, value: int, labels: seq<string>,
    ghost cs: seq<Candidate>, ghost k: nat)
    returns (out: seq<Metric>)
    requires k < |cs| && ms == Selected(s, cs[..k]) && cs[k].metric == Metric(kind, value, labels)
    requires Shown(s.mode, kind) && (s.leadersOnly ==> cs[k].leads)
    ensures out == Selected(s, cs[..k + 1])
  {
    SelectedSnoc(s, cs, k);
    out := ms;
    var hasFilters := |s.filters| > 0;
    if kind in s.filters || !hasFilters {
      out := out + [Metric(kind, value, labels)];
    }
  }

  lemma {:induction false} SelectedNone(s: Settings, cs: seq<Candidate>)
    requires forall k :: 0 <= k < |cs| ==> !Selects(s, cs[k])
    ensures Selected(s, cs) == []
  {
    if cs != [] {
      SelectedNone(s, cs[..|cs| - 1]);
    }
  }

  /** The first three metrics of a stream that is to be shown. */
  method EmitVolume(s: Settings, acc: Account, row: Row, ghost cs: seq<Candidate>) returns (ms: seq<Metric>)
    requires cs == StreamCandidates(acc, row, STREAM_KINDS)
    requires s.mode == CollectAll || s.mode == CollectStreams
    requires s.leadersOnly ==> row.serverName == row.streamLeader
    ensures ms == Selected(s, cs[..3])
  {
    ms := [];
    var labels := StreamLabels(acc, row);
    ms := EmitOne(s, ms, StreamMsgs, row.msgs, labels, cs, 0);
    ms := EmitOne(s, ms, StreamBytes, row.bytes, labels, cs, 1);
    ms := EmitOne(s, ms, StreamFirstSeq, row.firstSeq, labels, cs, 2);
  }

  /** And the other three. */
  method EmitCounts(s: Settings, acc: Account, row: Row, ms0: seq<Metric>, ghost cs: seq<Candidate>)
    returns (ms: seq<Metric>)
    requires cs == StreamCandidates(acc, row, STREAM_KINDS) && ms0 == Selected(s, cs[..3])
    requires s.mode == CollectAll || s.mode == CollectStreams
    requires s.leadersOnly ==> row.serverName == row.streamLeader
    ensures ms == Selected(s, cs)
  {
    ms := ms0;
    var labels := StreamLabels(acc, row);
    ms := EmitOne(s, ms, StreamLastSeq, row.lastSeq, labels, cs, 3);
    ms := EmitOne(s, ms, StreamConsumers, row.consumerCount, labels, cs, 4);
    ms := EmitOne(s, ms, StreamSubjects, row.subjects, labels, cs, 5);
    assert cs[..6] == cs;
  }

  method EmitStream(s: Settings, acc: Account, row: Row) returns (ms: seq<Metric>)
    ensures ms == Selected(s, StreamCandidates(acc, row, STREAM_KINDS))
  {
    ms := [];
    ghost var cs := StreamCandidates(acc, row, STREAM_KINDS);
    var isLeaderOrAll := !s.leadersOnly || (s.leadersOnly && row.serverName == row.streamLeader);
    var showStreams := s.mode == CollectAll || s.mode == CollectStreams;
    if isLeaderOrAll && showStreams {
      ms := EmitVolume(s, acc, row, cs);
      ms := EmitCounts(s, acc, row, ms, cs);
    } else {
      SelectedNone(s, cs);
    }
  }

  /** The first four metrics of a consumer that is to be shown. */
  method EmitProgress(s: Settings, acc: Account, row: Row, c: ConsumerRow, ghost cs: seq<Candidate>)
    returns (ms: seq<Metric>)
    requires cs == ConsumerCandidates(acc, row, c, CONSUMER_KINDS)
    requires (s.mode == CollectAll || s.mode == CollectConsumers) && (s.leadersOnly ==> row.serverName == c.leader)
    ensures ms == Selected(s, cs[..4])
  {
    ms := [];
    var labels := ConsumerLabels(acc, row, c);
    ms := EmitOne(s, ms, DeliveredConsumerSeq, c.deliveredConsumer, labels, cs, 0);
    ms := EmitOne(s, ms, DeliveredStreamSeq, c.deliveredStream, labels, cs, 1);
    ms := EmitOne(s, ms, NumAckPending, c.ackPending, labels, cs, 2);
    ms := EmitOne(s, ms, NumRedelivered, c.redelivered, labels, cs, 3);
  }

  /** And the other four. */
  method EmitBacklog(
    s: Settings, acc: Account, row: Row, c: ConsumerRow, ms0: seq<Metric>, ghost cs: seq<Candidate>)
    returns (ms: seq<Metric>)
    requires cs == ConsumerCandidates(acc, row, c, CONSUMER_KINDS) && ms0 == Selected(s, cs[..4])
    requires (s.mode == CollectAll || s.mode == CollectConsumers) && (s.leadersOnly ==> row.serverName == c.leader)
    ensures ms == Selected(s, cs)
  {
    ms := ms0;
    var labels := ConsumerLabels(acc, row, c);
    ms := EmitOne(s, ms, NumWaiting, c.waiting, labels, cs, 4);
    ms := EmitOne(s, ms, NumPending, c.pending, labels, cs, 5);
    ms := EmitOne(s, ms, AckFloorStreamSeq, c.ackFloorStream, labels, cs, 6);
    ms := EmitOne(s, ms, AckFloorConsumerSeq, c.ackFloorConsumer, labels, cs, 7);
    assert cs[..8] == cs;
  }

  method EmitConsumer(s: Settings, acc: Account, row: Row, c: ConsumerRow) returns (ms: seq<Metric>)
    ensures ms == Selected(s, ConsumerCandidates(acc, row, c, CONSUMER_KINDS))
  {
    ms := [];
    ghost var cs := ConsumerCandidates(acc, row, c, CONSUMER_KINDS);
    var isLeaderOrAll := !s.leadersOnly || (s.leadersOnly && row.serverName == c.leader);
    var showConsumers := s.mode == CollectAll || s.mode == CollectConsumers;
    if isLeaderOrAll && showConsumers {
      ms := EmitProgress(s, acc, row, c, cs);
      ms := EmitBacklog(s, acc, row, c, ms, cs);
    } else {
      SelectedNone(s, cs);
    }
  }

  /** Emit the metrics of the account, row by row. */
  method Emit(s: Settings, acc: Account, rows: seq<Row>) returns (ms: seq<Metric>)
    ensures ms == Emitted(s, acc, rows)
  {
    ms := [];
    if s.mode == CollectNone {
      SelectedNone(s, Candidates(acc, rows));
      return;
    }
    for i := 0 to |rows|
      invariant ms == Emitted(s, acc, rows[..i])
    {
      var row := rows[i];
      var own := EmitStream(s, acc, row);
      var consumers := EmitConsumers(s, acc, row);
      EmittedStep(s, acc, rows, i);
      ms := ms + own + consumers;
    }
    assert rows[..|rows|] == rows;
  }

  method EmitConsumers(s: Settings, acc: Account, row: Row) returns (ms: seq<Metric>)
    ensures ms == Selected(s, AllConsumerCandidates(acc, row, row.consumers))
  {
    ms := [];
    for i := 0 to |row.consumers|
      invariant ms == Selected(s, AllConsumerCandidates(acc, row, row.consumers[..i]))
    {
      var own := EmitConsumer(s, acc, row, row.consumers[i]);
      assert row.consumers[..i + 1][..i] == row.consumers[..i];
      SelectedConcat(
        s, AllConsumerCandidates(acc, row, row.consumers[..i]),
        ConsumerCandidates(acc, row, row.consumers[i], CONSUMER_KINDS));
      ms := ms + own;
    }
    assert row.consumers[..|row.consumers|] == row.consumers;
  }

  lemma EmittedStep(s: Settings, acc: Account, rows: seq<Row>, i: nat)
    requires i < |rows|
    ensures Emitted(s, acc, rows[..i + 1]) ==
            Emitted(s, acc, rows[..i])
            + Selected(s, StreamCandidates(acc, rows[i], STREAM_KINDS))
            + Selected(s, AllConsumerCandidates(acc, rows[i], rows[i].consumers))
  {
    assert rows[..i + 1][..i] == rows[..i];
    var row := rows[i];
    var before := Candidates(acc, rows[..i]);
    var own := StreamCandidates(acc, row, STREAM_KINDS);
    SelectedConcat(s, before, own);
    SelectedConcat(s, before + own, AllConsumerCandidates(acc, row, row.consumers));
  }

  // ----- What the settings mean -----

  /** The metrics of the given kinds, in order. */
  function Restrict(ms: seq<Metric>, kinds: set<Kind>): seq<Metric> {
    if ms == [] then []
    else
      var last := ms[|ms| - 1];
      var earlier := Restrict(ms[..|ms| - 1], kinds);
      if last.kind in kinds then earlier + [last] else earlier
  }

  ghost predicate Subsequence<T>(xs: seq<T>, ys: seq<T>)
    decreases |ys|
  {
    if ys == [] then xs == []
    else
      || Subsequence(xs, ys[..|ys| - 1])
      || (xs != [] && xs[|xs| - 1] == ys[|ys| - 1] && Subsequence(xs[..|xs| - 1], ys[..|ys| - 1]))
  }

  lemma RestrictSnoc(ms: seq<Metric>, m: Metric, kinds: set<Kind>)
    ensures Restrict(ms + [m], kinds) == if m.kind in kinds then Restrict(ms, kinds) + [m] else Restrict(ms, kinds)
  {
    assert (ms + [m])[..|ms|] == ms;
  }

  lemma {:induction false} RestrictSelected(s: Settings, cs: seq<Candidate>)
    requires s.filters != {}
    ensures Selected(s, cs) == Restrict(Selected(s.(filters := {}), cs), s.filters)
  {
    if cs != [] {
      var init, last := cs[..|cs| - 1], cs[|cs| - 1];
      RestrictSelected(s, init);
      RestrictSnoc(Selected(s.(filters := {}), init), last.metric, s.filters);
    }
  }

  /** A filter leaves exactly the metrics of its kinds, in their order. */
  lemma FilterIsRestriction(s: Settings, acc: Account, rows: seq<Row>)
    requires s.filters != {}
    ensures Emitted(s, acc, rows) == Restrict(Emitted(s.(filters := {}), acc, rows), s.filters)
  {
    RestrictSelected(s, Candidates(acc, rows));
  }

  lemma {:induction false} SelectedModes(all: Settings, streams: Settings, consumers: Settings, cs: seq<Candidate>)
    requires all.mode == CollectAll
    requires streams == all.(mode := CollectStreams) && consumers == all.(mode := CollectConsumers)
    ensures multiset(Selected(all, cs)) == multiset(Selected(streams, cs)) + multiset(Selected(consumers, cs))
  {
    if cs != [] {
      var last := cs[|cs| - 1];
      SelectedModes(all, streams, consumers, cs[..|cs| - 1]);
      assert Selects(all, last) <==> Selects(streams, last) || Selects(consumers, last);
      assert !(Selects(streams, last) && Selects(consumers, last));
    }
  }

  /** Mode `all` emits what `streams` and `consumers` emit together. */
  lemma AllIsStreamsAndConsumers(s: Settings, acc: Account, rows: seq<Row>)
    ensures multiset(Emitted(s.(mode := CollectAll), acc, rows)) ==
            multiset(Emitted(s.(mode := CollectStreams), acc, rows))
            + multiset(Emitted(s.(mode := CollectConsumers), acc, rows))
  {
    SelectedModes(
      s.(mode := CollectAll), s.(mode := CollectStreams), s.(mode := CollectConsumers), Candidates(acc, rows));
  }

  lemma SubsequenceSnoc<T>(xs: seq<T>, ys: seq<T>, y: T)
    requires Subsequence(xs, ys)
    ensures Subsequence(xs, ys + [y]) && Subsequence(xs + [y], ys + [y])
  {
    assert (ys + [y])[..|ys|] == ys;
    assert (xs + [y])[..|xs|] == xs;
  }

  lemma {:induction false} SelectedLeaders(leaders: Settings, every: Settings, cs: seq<Candidate>)
    requires leaders == every.(leadersOnly := true) && !every.leadersOnly
    ensures Subsequence(Selected(leaders, cs), Selected(every, cs))
  {
    if cs != [] {
      var init, last := cs[..|cs| - 1], cs[|cs| - 1];
      SelectedLeaders(leaders, every, init);
      SubsequenceSnoc(Selected(leaders, init), Selected(every, init), last.metric);
    }
  }

  /** Leaders only emits a subsequence of what is emitted without it. */
  lemma LeadersOnlyIsSubsequence(s: Settings, acc: Account, rows: seq<Row>)
    ensures Subsequence(
              Emitted(s.(leadersOnly := true), acc, rows), Emitted(s.(leadersOnly := false), acc, rows))
  {
    SelectedLeaders(s.(leadersOnly := true), s.(leadersOnly := false), Candidates(acc, rows));
  }
}

/** What every run of the polling machine keeps. */
module PollRuns {
  import opened Prelude
  import opened MissingServers
  import opened PollMachine

  /** Among keys of one length the suffix test is equality. */
  lemma SuffixIsEquality(inbox: string, key: string, pollkey: string)
    requires |key| == |pollkey|
    ensures HasSuffix(Subject(inbox, key), pollkey) <==> key == pollkey
  {
    var s := Subject(inbox, key);
    assert s[|s| - |key|..] == key;
  }

  /** Keys have one length, and the current one is among them once there are any. */
  ghost predicate KeysOk(keys: set<string>, pollkey: string) {
    && (keys != {} ==> pollkey in keys)
    && forall j, k :: j in keys && k in keys ==> |j| == |k|
  }

  ghost predicate HandlerOk(
    h: nat, hd: Handler, keys: set<string>, pollkey: string, arrivals: nat, holder: Option<nat>)
  {
    && hd.reply.id == h < arrivals && hd.reply.key in keys
    && (!hd.Arrived? <==> holder == Some(h))
    && (!hd.Arrived? ==> hd.reply.key == pollkey)
  }

  ghost predicate HandlersOk(c: Collector) {
    && (forall h :: h in c.handlers ==> HandlerOk(h, c.handlers[h], c.keys, c.pollkey, c.arrivals, c.holder))
    && (c.holder.Some? ==> c.holder.value in c.handlers)
  }

  /** A reply in the statistics answered this poll, is not on its way any more, and its
      round-trip time is recorded or about to be, under the lock. */
  ghost predicate StatOk(r: Reply, c: Collector) {
    && r.key == c.pollkey && r.id < c.arrivals
    && (r.id in c.handlers ==> c.handlers[r.id].Recording? && c.holder == Some(r.id))
    && (r.server.id in c.rtts
        || (c.holder.Some? && c.holder.value in c.handlers && c.handlers[c.holder.value] == Recording(r)))
  }

  ghost predicate StatsOk(c: Collector) {
    && (forall i :: 0 <= i < |c.stats| ==> StatOk(c.stats[i], c))
    && (forall i, j :: 0 <= i < j < |c.stats| ==> c.stats[i].id != c.stats[j].id)
  }

  ghost predicate SizeOk(expected: int, size: nat, phase: Phase) {
    expected > 0 ==> size <= expected && (phase.Waiting? || phase.Started? ==> size < expected)
  }

  /** What the rest of the collector may rely on. */
  ghost predicate SnapshotOk(s: Snapshot, expected: int) {
    && (forall i :: 0 <= i < |s.stats| ==> s.stats[i].key == s.key && s.stats[i].server.id in s.rtts)
    && (forall i, j :: 0 <= i < j < |s.stats| ==> s.stats[i].id != s.stats[j].id)
    && (expected > 0 ==> |s.stats| <= expected)
  }

  /** Snapshots belong to different polls, and the poll under way has none yet. */
  ghost predicate SnapshotsOk(
    snapshots: seq<Snapshot>, expected: int, keys: set<string>, pollkey: string, phase: Phase)
  {
    && (forall i :: 0 <= i < |snapshots| ==> SnapshotOk(snapshots[i], expected) && snapshots[i].key in keys)
    && (forall i, j :: 0 <= i < j < |snapshots| ==> snapshots[i].key != snapshots[j].key)
    && (!phase.Idle? ==> keys != {} && forall i :: 0 <= i < |snapshots| ==> snapshots[i].key != pollkey)
  }

  function OnTheWay(handlers: map<nat, Handler>): set<nat> {
    set h | h in handlers && !handlers[h].Recording?
  }

  /** Every reply that arrived is on its way or was dealt with in exactly one manner. */
  ghost predicate Conserved(c: Collector) {
    c.arrivals == |OnTheWay(c.handlers)|
      + c.tally.delivered + c.tally.expired + c.tally.late + c.tally.extra + c.tally.garbled
  }

  ghost predicate Inv(c: Collector) {
    && c.polling == !c.phase.Idle?
    && KeysOk(c.keys, c.pollkey)
    && HandlersOk(c)
    && StatsOk(c)
    && SizeOk(c.expected, |c.stats|, c.phase)
    && SnapshotsOk(c.snapshots, c.expected, c.keys, c.pollkey, c.phase)
    && Conserved(c)
  }

  lemma InitInv(inbox: string, expected: int)
    ensures Inv(Init(inbox, expected))
  {
    assert OnTheWay(map[]) == {};
  }

  lemma StartInv(c: Collector, key: string)
    requires Inv(c) && Enabled(c, StartPoll(key))
    ensures Inv(Next(c, StartPoll(key)))
  {
  }

  lemma ArriveInv(c: Collector, key: string, server: Stat)
    requires Inv(c) && Enabled(c, Arrive(key, server))
    ensures Inv(Next(c, Arrive(key, server)))
  {
    var d := ArriveStep(c, key, server);
    assert c.arrivals !in c.handlers;
    assert OnTheWay(d.handlers) == OnTheWay(c.handlers) + {c.arrivals};
  }

  lemma GarbleInv(c: Collector, h: nat)
    requires Inv(c) && Enabled(c, Garble(h))
    ensures Inv(Next(c, Garble(h)))
  {
    assert OnTheWay(c.handlers - {h}) == OnTheWay(c.handlers) - {h};
  }

  lemma EnterInv(c: Collector, h: nat)
    requires Inv(c) && Enabled(c, Enter(h))
    ensures Inv(Next(c, Enter(h)))
  {
    var r := c.handlers[h].reply;
    SuffixIsEquality(c.inbox, r.key, c.pollkey);
    assert OnTheWay(c.handlers - {h}) == OnTheWay(c.handlers) - {h};
    assert OnTheWay(c.handlers[h := Sending(r)]) == OnTheWay(c.handlers);
  }

  lemma DeliverInv(c: Collector, h: nat)
    requires Inv(c) && Enabled(c, Deliver(h))
    ensures Inv(Next(c, Deliver(h)))
  {
    var r := c.handlers[h].reply;
    assert OnTheWay(c.handlers[h := Recording(r)]) == OnTheWay(c.handlers) - {h};
  }

  lemma ExpireInv(c: Collector, h: nat)
    requires Inv(c) && Enabled(c, Expire(h))
    ensures Inv(Next(c, Expire(h)))
  {
    var r := c.handlers[h].reply;
    assert OnTheWay(c.handlers[h := Recording(r)]) == OnTheWay(c.handlers) - {h};
  }

  lemma RecordInv(c: Collector, h: nat, rtt: int)
    requires Inv(c) && Enabled(c, Record(h, rtt))
    ensures Inv(Next(c, Record(h, rtt)))
  {
    assert OnTheWay(c.handlers - {h}) == OnTheWay(c.handlers);
  }

  lemma SnapshotNow(c: Collector)
    requires StatsOk(c) && c.holder.None? && (c.expected > 0 ==> |c.stats| <= c.expected)
    ensures SnapshotOk(Snapshot(c.pollkey, c.stats, c.rtts), c.expected)
  {
    assert forall i :: 0 <= i < |c.stats| ==> StatOk(c.stats[i], c);
  }

  lemma SnapshotsGrow(snapshots: seq<Snapshot>, s: Snapshot, expected: int, keys: set<string>, phase: Phase)
    requires SnapshotsOk(snapshots, expected, keys, s.key, phase) && !phase.Idle?
    requires SnapshotOk(s, expected) && s.key in keys
    ensures SnapshotsOk(snapshots + [s], expected, keys, s.key, Idle)
  {
  }

  lemma SnapshotInv(c: Collector)
    requires Inv(c) && Enabled(c, TakeSnapshot)
    ensures Inv(Next(c, TakeSnapshot))
  {
    SnapshotNow(c);
    SnapshotsGrow(c.snapshots, Snapshot(c.pollkey, c.stats, c.rtts), c.expected, c.keys, c.phase);
  }

  lemma NextInv(c: Collector, e: Event)
    requires Inv(c) && Enabled(c, e)
    ensures Inv(Next(c, e))
  {
    match e
    case StartPoll(key) => StartInv(c, key);
    case Arrive(key, server) => ArriveInv(c, key, server);
    case Garble(h) => GarbleInv(c, h);
    case Enter(h) => EnterInv(c, h);
    case Deliver(h) => DeliverInv(c, h);
    case Expire(h) => ExpireInv(c, h);
    case Record(h, rtt) => RecordInv(c, h, rtt);
    case TakeSnapshot => SnapshotInv(c);
    case _ =>
  }

  // ----- Over all runs -----

  ghost predicate Legal(c: Collector, evs: seq<Event>)
    decreases |evs|
  {
    evs == [] || (Enabled(c, evs[0]) && Legal(Next(c, evs[0]), evs[1..]))
  }

  ghost function Run(c: Collector, evs: seq<Event>): Collector
    requires Legal(c, evs)
    decreases |evs|
  {
    if evs == [] then c else Run(Next(c, evs[0]), evs[1..])
  }

  lemma {:induction false} RunOn(c: Collector, xs: seq<Event>, ys: seq<Event>)
    requires Legal(c, xs) && Legal(Run(c, xs), ys)
    ensures Legal(c, xs + ys) && Run(c, xs + ys) == Run(Run(c, xs), ys)
    decreases |xs|
  {
    if xs == [] {
      assert xs + ys == ys;
    } else {
      assert (xs + ys)[0] == xs[0] && (xs + ys)[1..] == xs[1..] + ys;
      RunOn(Next(c, xs[0]), xs[1..], ys);
    }
  }

  lemma RunOne(c: Collector, e: Event)
    requires Enabled(c, e)
    ensures Legal(c, [e]) && Run(c, [e]) == Next(c, e)
  {
    assert [e][1..] == [];
    assert Run(Next(c, e), []) == Next(c, e);
  }

  lemma {:induction false} RunInv(c: Collector, evs: seq<Event>)
    requires Inv(c) && Legal(c, evs)
    ensures Inv(Run(c, evs)) && Run(c, evs).expected == c.expected
    decreases |evs|
  {
    if evs != [] {
      NextInv(c, evs[0]);
      RunInv(Next(c, evs[0]), evs[1..]);
    }
  }

  /** In every run each snapshot holds only replies to its own poll, no reply twice, each
      with its round-trip time, and no more of them than expected. */
  lemma SnapshotsAnswerTheirPoll(inbox: string, expected: int, evs: seq<Event>, n: nat)
    requires Legal(Init(inbox, expected), evs) && n < |Run(Init(inbox, expected), evs).snapshots|
    ensures SnapshotOk(Run(Init(inbox, expected), evs).snapshots[n], expected)
  {
    InitInv(inbox, expected);
    RunInv(Init(inbox, expected), evs);
  }

  /** In every run no reply is part of two snapshots. */
  lemma NoReplyServesTwoPolls(inbox: string, expected: int, evs: seq<Event>, m: nat, n: nat, i: nat, j: nat)
    requires Legal(Init(inbox, expected), evs)
    requires m < n < |Run(Init(inbox, expected), evs).snapshots|
    requires i < |Run(Init(inbox, expected), evs).snapshots[m].stats|
    requires j < |Run(Init(inbox, expected), evs).snapshots[n].stats|
    ensures Run(Init(inbox, expected), evs).snapshots[m].stats[i] !=
            Run(Init(inbox, expected), evs).snapshots[n].stats[j]
  {
    InitInv(inbox, expected);
    RunInv(Init(inbox, expected), evs);
    var c := Run(Init(inbox, expected), evs);
    assert SnapshotOk(c.snapshots[m], expected) && SnapshotOk(c.snapshots[n], expected);
  }

  /** In every run each reply is on its way or was counted in exactly one manner. */
  lemma EveryReplyAccounted(inbox: string, expected: int, evs: seq<Event>)
    requires Legal(Init(inbox, expected), evs)
    ensures Conserved(Run(Init(inbox, expected), evs))
  {
    InitInv(inbox, expected);
    RunInv(Init(inbox, expected), evs);
  }
}

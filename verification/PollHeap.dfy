/** The collector as a mutable object: the sections of a poll and of a reply's handler, each
    proved to take the step of the same name, and the poll itself with the handlers' steps in
    between. */
module PollHeap {
  import opened Prelude
  import opened MissingServers
  import opened PollMachine
  import opened PollRuns
  import opened PollHistory

  class StatzCollector {
    const reply: string
    const numServers: int
    const tracker: ServerTracker
    var polling: bool
    var pollkey: string
    var stats: seq<Reply>
    var rtts: map<string, int>

    // Where the poll, the handlers and the lock are, and what became of the replies.
    var phase: Phase
    var handlers: map<nat, Handler>
    var holder: Option<nat>
    var keys: set<string>
    var arrivals: nat
    var tally: Tally
    var snapshots: seq<Snapshot>

    function State(): Collector
      reads this
    {
      Collector(reply, numServers, phase, polling, pollkey, keys, stats, rtts, handlers, holder, arrivals, tally,
                snapshots)
    }

    /** The bookkeeping of known servers has seen the snapshots, and nothing else. */
    ghost predicate Valid()
      reads this, tracker
    {
      tracker.Valid() && tracker.expected == numServers && tracker.polls == Polls(snapshots)
    }

    constructor (reply: string, numServers: int)
      ensures Valid() && State() == Init(reply, numServers) && fresh(tracker)
    {
      this.reply, this.numServers := reply, numServers;
      tracker := new ServerTracker(numServers);
      polling, pollkey, stats, rtts := false, "", [], map[];
      phase, handlers, holder, keys, arrivals := Idle, map[], None, {}, 0;
      tally, snapshots := Tally(0, 0, 0, 0, 0), [];
    }

    // ----- The sections of a reply's handler -----

    method Arrive(key: string, server: Stat)
      requires Valid() && Enabled(State(), PollMachine.Arrive(key, server))
      modifies `handlers, `arrivals
      ensures Valid() && State() == Next(old(State()), PollMachine.Arrive(key, server))
    {
      handlers := handlers[arrivals := Arrived(Reply(arrivals, key, server))];
      arrivals := arrivals + 1;
    }

    /** The reply cannot be read. */
    method Garble(h: nat)
      requires Valid() && Enabled(State(), PollMachine.Garble(h))
      modifies `handlers, `tally
      ensures Valid() && State() == Next(old(State()), PollMachine.Garble(h))
    {
      handlers := handlers - {h};
      tally := tally.(garbled := tally.garbled + 1);
    }

    /** The handler takes the lock. It keeps it exactly if it has something to send. */
    method Enter(h: nat) returns (sending: bool)
      requires Valid() && Enabled(State(), PollMachine.Enter(h))
      modifies `handlers, `holder, `tally
      ensures Valid() && State() == Next(old(State()), PollMachine.Enter(h))
      ensures sending == (h in handlers) == (holder == Some(h))
      ensures sending <==> polling && HasSuffix(reply + "." + old(handlers)[h].reply.key, pollkey)
      ensures !sending ==>
                tally == if HasSuffix(reply + "." + old(handlers)[h].reply.key, pollkey)
                         then old(tally).(extra := old(tally).extra + 1)
                         else old(tally).(late := old(tally).late + 1)
    {
      var r := handlers[h].reply;
      var isCurrent := HasSuffix(Subject(reply, r.key), pollkey);
      if polling && isCurrent {
        handlers := handlers[h := Sending(r)];
        holder := Some(h);
        return true;
      } else if !isCurrent {
        handlers := handlers - {h};
        tally := tally.(late := tally.late + 1);
      } else {
        handlers := handlers - {h};
        tally := tally.(extra := tally.extra + 1);
      }
      return false;
    }

    /** Nobody takes the reply in time. */
    method Expire(h: nat)
      requires Valid() && Enabled(State(), PollMachine.Expire(h))
      modifies `handlers, `tally
      ensures Valid() && State() == Next(old(State()), PollMachine.Expire(h))
    {
      handlers := handlers[h := Recording(handlers[h].reply)];
      tally := tally.(expired := tally.expired + 1);
    }

    /** The handler notes the round-trip time and gives the lock back. */
    method Record(h: nat, rtt: int)
      requires Valid() && Enabled(State(), PollMachine.Record(h, rtt))
      modifies `handlers, `holder, `rtts
      ensures Valid() && State() == Next(old(State()), PollMachine.Record(h, rtt))
    {
      rtts := rtts[handlers[h].reply.server.id := rtt];
      handlers := handlers - {h};
      holder := None;
    }

    // ----- The sections of a poll -----

    method Start(key: string)
      requires Valid() && Enabled(State(), StartPoll(key))
      modifies `phase, `polling, `pollkey, `keys, `stats, `rtts
      ensures Valid() && State() == Next(old(State()), StartPoll(key))
    {
      Reset(key);
    }

    method Reset(key: string)
      modifies `phase, `polling, `pollkey, `keys, `stats, `rtts
      ensures State() == StartStep(old(State()), key)
    {
      polling, pollkey := true, key;
      stats, rtts := [], map[];
      phase, keys := Started, keys + {key};
    }

    /** The deferred clean-up of a poll that could not send its ping. */
    method Clean()
      requires Valid() && Enabled(State(), Cleanup)
      modifies `phase, `polling
      ensures Valid() && State() == Next(old(State()), Cleanup)
    {
      polling := false;
      phase := Idle;
    }

    method SetPhase(next: Phase, ghost e: Event)
      requires Valid() && Enabled(State(), e)
      requires || (e == Publish && next == Waiting) || (e == Abort && next == Failed)
               || (e == StopWaiting && next == Finished)
      modifies `phase
      ensures Valid() && State() == Next(old(State()), e)
    {
      phase := next;
    }

    /** The poll takes a reply off the channel. */
    method Receive(h: nat)
      requires Valid() && Enabled(State(), Deliver(h))
      modifies `phase, `stats, `handlers, `tally
      ensures Valid() && State() == Next(old(State()), Deliver(h))
    {
      var r := handlers[h].reply;
      stats := stats + [r];
      handlers := handlers[h := Recording(r)];
      tally := tally.(delivered := tally.delivered + 1);
      phase := if numServers != -1 && |stats| == numServers then Finished else Waiting;
    }

    /** The poll has ended and its results are copied. */
    method Copy()
      requires Valid() && Enabled(State(), TakeSnapshot)
      modifies `phase, `polling, `snapshots
      ensures State() == Next(old(State()), TakeSnapshot)
    {
      polling := false;
      phase := Idle;
      snapshots := snapshots + [Snapshot(pollkey, stats, rtts)];
    }

    /** The known servers are brought up to date with the copied results. */
    method Note() returns (missing: seq<string>)
      requires tracker.Valid() && tracker.expected == numServers
      modifies tracker
      ensures tracker.Valid() && tracker.polls == old(tracker.polls) + [Servers(stats)]
      ensures Lists(missing, if numServers == -1 || |stats| == numServers then {}
                             else Known(numServers, old(tracker.polls)) - Responders(Servers(stats)))
    {
      missing := tracker.Track(Servers(stats));
    }

    /** The last part of a poll: it reports the known servers that did not reply, unless it has
        heard from as many as expected. */
    method Conclude() returns (missing: seq<string>)
      requires Valid() && Enabled(State(), TakeSnapshot)
      modifies `phase, `polling, `snapshots, tracker
      ensures Valid() && State() == Next(old(State()), TakeSnapshot)
      ensures Lists(missing, if numServers == -1 || |stats| == numServers then {}
                             else Known(numServers, Polls(old(snapshots))) - Responders(Servers(stats)))
    {
      PollsSnoc(snapshots, Snapshot(pollkey, stats, rtts));
      Copy();
      missing := Note();
    }
  }

  // ----- Any steps -----

  method Take(sc: StatzCollector, e: Event)
    requires sc.Valid() && Enabled(sc.State(), e)
    modifies sc, sc.tracker
    ensures sc.Valid() && sc.State() == Next(old(sc.State()), e)
  {
    match e {
      case StartPoll(key) => sc.Start(key);
      case Publish => sc.SetPhase(Waiting, e);
      case Abort => sc.SetPhase(Failed, e);
      case Cleanup => sc.Clean();
      case Arrive(key, server) => sc.Arrive(key, server);
      case Garble(h) => sc.Garble(h);
      case Enter(h) => var sending := sc.Enter(h);
      case Deliver(h) => sc.Receive(h);
      case Expire(h) => sc.Expire(h);
      case Record(h, rtt) => sc.Record(h, rtt);
      case StopWaiting => sc.SetPhase(Finished, e);
      case TakeSnapshot => var missing := sc.Conclude();
    }
  }

  method TakeAll(sc: StatzCollector, evs: seq<Event>)
    requires sc.Valid() && Legal(sc.State(), evs)
    modifies sc, sc.tracker
    ensures sc.Valid() && sc.State() == Run(old(sc.State()), evs)
  {
    ghost var start := sc.State();
    for i := 0 to |evs|
      invariant sc.Valid() && Legal(sc.State(), evs[i..])
      invariant Run(sc.State(), evs[i..]) == Run(start, evs)
    {
      assert evs[i..][0] == evs[i] && evs[i..][1..] == evs[i + 1..];
      Take(sc, evs[i]);
    }
  }

  /** A new collector, after any run: the servers it knows and the count of missing replies are
      functions of the snapshots of that run. */
  method KnowsItsPolls(reply: string, numServers: int, evs: seq<Event>) returns (sc: StatzCollector)
    requires Legal(Init(reply, numServers), evs)
    ensures sc.State() == Run(Init(reply, numServers), evs)
    ensures sc.tracker.servers.Keys == Known(numServers, Polls(sc.snapshots))
    ensures sc.tracker.noReplies == Misses(numServers, Polls(sc.snapshots))
  {
    sc := new StatzCollector(reply, numServers);
    TakeAll(sc, evs);
  }

  // ----- A poll -----

  /** What the loop of a poll can wake up for. */
  datatype Signal = GotStat(h: nat) | DiscoveryTimer | PollTimer | Closing

  /** Steps of the handlers, and then a signal. */
  datatype Turn = Turn(others: seq<Event>, signal: Signal)

  predicate ByHandler(e: Event) {
    e.Arrive? || e.Garble? || e.Enter? || e.Expire? || e.Record?
  }

  ghost predicate ByHandlers(c: Collector, evs: seq<Event>) {
    Legal(c, evs) && forall e :: e in evs ==> ByHandler(e)
  }

  /** The discovery timer only ends the polls that wait for any number of servers. */
  function Reaction(expected: int, signal: Signal): seq<Event> {
    match signal
    case GotStat(h) => [Deliver(h)]
    case DiscoveryTimer => if expected == -1 then [StopWaiting] else []
    case _ => [StopWaiting]
  }

  /** The turns keep the loop going until it ends. */
  ghost predicate Plays(c: Collector, turns: seq<Turn>)
    decreases |turns|
  {
    c.phase == Waiting ==>
      && turns != [] && ByHandlers(c, turns[0].others)
      && var d := Run(c, turns[0].others);
         && Legal(d, Reaction(c.expected, turns[0].signal))
         && Plays(Run(d, Reaction(c.expected, turns[0].signal)), turns[1..])
  }

  ghost function Played(c: Collector, turns: seq<Turn>): Collector
    requires Plays(c, turns)
    decreases |turns|
  {
    if c.phase != Waiting then c
    else Played(Run(Run(c, turns[0].others), Reaction(c.expected, turns[0].signal)), turns[1..])
  }

  /** What the handlers leave to the poll. */
  ghost predicate SamePoll(c: Collector, d: Collector) {
    && d.phase == c.phase && d.pollkey == c.pollkey && d.stats == c.stats
    && d.snapshots == c.snapshots && d.expected == c.expected
  }

  lemma {:induction false} HandlersKeepPoll(c: Collector, evs: seq<Event>)
    requires ByHandlers(c, evs)
    ensures SamePoll(c, Run(c, evs))
    decreases |evs|
  {
    if evs != [] {
      assert evs[0] in evs;
      HandlersKeepPoll(Next(c, evs[0]), evs[1..]);
    }
  }

  /** One round of the loop: some steps of the handlers, and the reaction to a signal. */
  method Round(sc: StatzCollector, turn: Turn) returns (done: bool)
    requires sc.Valid() && sc.phase == Waiting && ByHandlers(sc.State(), turn.others)
    requires Legal(Run(sc.State(), turn.others), Reaction(sc.numServers, turn.signal))
    modifies sc, sc.tracker
    ensures sc.Valid() && done == (sc.phase != Waiting)
    ensures sc.State() == Run(old(Run(sc.State(), turn.others)), Reaction(sc.numServers, turn.signal))
    ensures sc.pollkey == old(sc.pollkey) && sc.snapshots == old(sc.snapshots) && (done ==> sc.phase == Finished)
    ensures turn.signal.GotStat? ==> (done <==> sc.numServers != -1 && |sc.stats| == sc.numServers)
    ensures turn.signal.DiscoveryTimer? ==> (done <==> sc.numServers == -1)
    ensures turn.signal.PollTimer? || turn.signal.Closing? ==> done
  {
    HandlersKeepPoll(sc.State(), turn.others);
    TakeAll(sc, turn.others);
    done := false;
    match turn.signal {
      case GotStat(h) =>
        RunOne(sc.State(), Deliver(h));
        sc.Receive(h);
        done := sc.numServers != -1 && |sc.stats| == sc.numServers;
      case DiscoveryTimer =>
        if sc.numServers == -1 {
          RunOne(sc.State(), StopWaiting);
          sc.SetPhase(Finished, StopWaiting);
          done := true;
        }
      case _ =>
        RunOne(sc.State(), StopWaiting);
        sc.SetPhase(Finished, StopWaiting);
        done := true;
    }
  }

  /** The loop of a poll. */
  method Wait(sc: StatzCollector, turns: seq<Turn>) returns (ghost evs: seq<Event>)
    requires sc.Valid() && sc.phase == Waiting && Plays(sc.State(), turns)
    modifies sc, sc.tracker
    ensures sc.Valid() && sc.phase == Finished && sc.State() == Played(old(sc.State()), turns)
    ensures Legal(old(sc.State()), evs) && sc.State() == Run(old(sc.State()), evs)
    ensures sc.pollkey == old(sc.pollkey) && sc.snapshots == old(sc.snapshots)
  {
    ghost var start := sc.State();
    var done, i := false, 0;
    evs := [];
    assert turns[0..] == turns;
    while !done
      invariant i <= |turns| && sc.Valid() && done == (sc.phase != Waiting) && (done ==> sc.phase == Finished)
      invariant Plays(sc.State(), turns[i..]) && Played(sc.State(), turns[i..]) == Played(start, turns)
      invariant Legal(start, evs) && sc.State() == Run(start, evs)
      invariant sc.pollkey == start.pollkey && sc.snapshots == start.snapshots
      decreases |turns| - i
    {
      assert turns[i..][0] == turns[i] && turns[i..][1..] == turns[i + 1..];
      RunOn(start, evs, turns[i].others);
      RunOn(start, evs + turns[i].others, Reaction(sc.numServers, turns[i].signal));
      done := Round(sc, turns[i]);
      evs := evs + turns[i].others + Reaction(sc.numServers, turns[i].signal);
      i := i + 1;
    }
  }

  /** What happens beside the poll: while it prepares its ping, in its loop, and until it has
      the lock again. */
  datatype Script = Script(before: seq<Event>, turns: seq<Turn>, after: seq<Event>)

  ghost predicate Fits(c: Collector, key: string, sent: bool, script: Script) {
    && Enabled(c, StartPoll(key)) && ByHandlers(StartStep(c, key), script.before)
    && var d := Run(StartStep(c, key), script.before);
       if sent
       then Plays(d.(phase := Waiting), script.turns)
            && FitsEnd(Played(d.(phase := Waiting), script.turns), script.after)
       else FitsEnd(d.(phase := Failed), script.after)
  }

  /** The handler that has the lock, if any, gives it back. */
  ghost predicate FitsEnd(c: Collector, after: seq<Event>) {
    ByHandlers(c, after) && Run(c, after).holder.None?
  }

  /** Before the ping is sent. */
  method Prepare(sc: StatzCollector, key: string, before: seq<Event>) returns (ghost evs: seq<Event>)
    requires sc.Valid() && Enabled(sc.State(), StartPoll(key)) && ByHandlers(StartStep(sc.State(), key), before)
    modifies sc, sc.tracker
    ensures sc.Valid() && sc.State() == Run(StartStep(old(sc.State()), key), before)
    ensures Legal(old(sc.State()), evs) && sc.State() == Run(old(sc.State()), evs)
    ensures sc.phase == Started && sc.pollkey == key && sc.snapshots == old(sc.snapshots)
  {
    evs := [StartPoll(key)] + before;
    RunOne(sc.State(), StartPoll(key));
    RunOn(sc.State(), [StartPoll(key)], before);
    HandlersKeepPoll(StartStep(sc.State(), key), before);
    sc.Start(key);
    TakeAll(sc, before);
  }

  /** The poll waits for the lock. */
  method Settle(sc: StatzCollector, after: seq<Event>)
    requires sc.Valid() && FitsEnd(sc.State(), after)
    modifies sc, sc.tracker
    ensures sc.Valid() && Legal(old(sc.State()), after) && sc.State() == Run(old(sc.State()), after)
    ensures sc.holder.None? && SamePoll(old(sc.State()), sc.State())
  {
    HandlersKeepPoll(sc.State(), after);
    TakeAll(sc, after);
  }

  lemma LastSnapshot(c: Collector, evs: seq<Event>, earlier: seq<Snapshot>, s: Snapshot)
    requires Inv(c) && Legal(c, evs) && Run(c, evs).snapshots == earlier + [s]
    ensures SnapshotOk(s, c.expected)
  {
    RunInv(c, evs);
    assert Run(c, evs).snapshots[|earlier|] == s;
  }

  /** The ping could not be sent. */
  method Abandon(sc: StatzCollector, after: seq<Event>, ghost start: Collector, ghost evs: seq<Event>)
    returns (ghost more: seq<Event>)
    requires sc.Valid() && sc.phase == Started && FitsEnd(sc.State().(phase := Failed), after)
    requires Legal(start, evs) && sc.State() == Run(start, evs)
    modifies sc, sc.tracker
    ensures sc.Valid() && sc.phase == Idle && !sc.polling && sc.snapshots == old(sc.snapshots)
    ensures Legal(start, more) && sc.State() == Run(start, more)
  {
    RunOne(sc.State(), Abort);
    RunOn(start, evs, [Abort]);
    sc.SetPhase(Failed, Abort);
    RunOn(start, evs + [Abort], after);
    Settle(sc, after);
    RunOne(sc.State(), Cleanup);
    RunOn(start, evs + [Abort] + after, [Cleanup]);
    sc.Clean();
    more := evs + [Abort] + after + [Cleanup];
  }

  /** The ping is sent, and the poll waits for replies and then for the lock. */
  method Listen(sc: StatzCollector, script: Script, ghost start: Collector, ghost evs: seq<Event>)
    returns (ghost more: seq<Event>)
    requires sc.Valid() && sc.phase == Started && Plays(sc.State().(phase := Waiting), script.turns)
    requires FitsEnd(Played(sc.State().(phase := Waiting), script.turns), script.after)
    requires Legal(start, evs) && sc.State() == Run(start, evs)
    modifies sc, sc.tracker
    ensures sc.Valid() && sc.phase == Finished && sc.holder.None?
    ensures sc.pollkey == old(sc.pollkey) && sc.snapshots == old(sc.snapshots)
    ensures Legal(start, more) && sc.State() == Run(start, more)
  {
    RunOne(sc.State(), Publish);
    RunOn(start, evs, [Publish]);
    sc.SetPhase(Waiting, Publish);
    ghost var waited := Wait(sc, script.turns);
    RunOn(start, evs + [Publish], waited);
    RunOn(start, evs + [Publish] + waited, script.after);
    Settle(sc, script.after);
    more := evs + [Publish] + waited + script.after;
  }

  /** The poll has the lock, and its results are copied. */
  method Close(sc: StatzCollector, ghost start: Collector, ghost evs: seq<Event>)
    returns (missing: seq<string>, ghost more: seq<Event>)
    requires sc.Valid() && sc.phase == Finished && sc.holder.None?
    requires Legal(start, evs) && sc.State() == Run(start, evs)
    modifies sc, sc.tracker
    ensures sc.Valid() && sc.phase == Idle && !sc.polling
    ensures Legal(start, more) && sc.State() == Run(start, more)
    ensures sc.snapshots == old(sc.snapshots) + [Snapshot(sc.pollkey, sc.stats, sc.rtts)]
    ensures sc.pollkey == old(sc.pollkey)
    ensures Lists(missing, if sc.numServers == -1 || |sc.stats| == sc.numServers then {}
                           else Known(sc.numServers, Polls(old(sc.snapshots))) - Responders(Servers(sc.stats)))
  {
    RunOne(sc.State(), TakeSnapshot);
    RunOn(start, evs, [TakeSnapshot]);
    more := evs + [TakeSnapshot];
    missing := sc.Conclude();
  }

  /** A poll: a run of the machine from one idle state to the next. If the ping was sent, its
      one new snapshot has the replies and the round-trip times of this poll, and the known
      servers that did not reply are reported; if not, there is no snapshot. */
  method Poll(sc: StatzCollector, key: string, sent: bool, script: Script)
    returns (ok: bool, missing: seq<string>, ghost evs: seq<Event>)
    requires sc.Valid() && Fits(sc.State(), key, sent, script)
    modifies sc, sc.tracker
    ensures sc.Valid() && ok == sent && sc.phase == Idle && !sc.polling
    ensures Legal(old(sc.State()), evs) && sc.State() == Run(old(sc.State()), evs)
    ensures sc.snapshots == old(sc.snapshots) + if sent then [Snapshot(key, sc.stats, sc.rtts)] else []
    ensures sent && Inv(old(sc.State())) ==> SnapshotOk(Snapshot(key, sc.stats, sc.rtts), sc.numServers)
    ensures Lists(missing, if !sent || sc.numServers == -1 || |sc.stats| == sc.numServers then {}
                           else Known(sc.numServers, Polls(old(sc.snapshots))) - Responders(Servers(sc.stats)))
  {
    ghost var start := sc.State();
    evs := Prepare(sc, key, script.before);
    if !sent {
      evs := Abandon(sc, script.after, start, evs);
      return false, [], evs;
    }
    evs := Listen(sc, script, start, evs);
    missing, evs := Close(sc, start, evs);
    ok := true;
    if Inv(start) {
      LastSnapshot(start, evs, start.snapshots, Snapshot(key, sc.stats, sc.rtts));
    }
  }
}

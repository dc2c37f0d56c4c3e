/** What becomes of each reply: a reply to the poll under way is taken, and a poll that all
    expected servers answer has all their replies. */
module PollOutcomes {
  import opened Prelude
  import opened MissingServers
  import opened PollMachine
  import opened PollRuns

  /** A reply that arrived is sent to the poll exactly if it answers the poll under way. A reply
      to an earlier poll is late, and one that comes after its poll's end is extra. */
  lemma EnterOutcome(c: Collector, h: nat)
    requires Inv(c) && Enabled(c, Enter(h))
    ensures var r, d := c.handlers[h].reply, Next(c, Enter(h));
            && d.stats == c.stats && d.rtts == c.rtts && d.phase == c.phase && d.snapshots == c.snapshots
            && if r.key == c.pollkey && !c.phase.Idle?
               then d.handlers == c.handlers[h := Sending(r)] && d.holder == Some(h) && d.tally == c.tally
               else
                 && d.handlers == c.handlers - {h} && d.holder == None
                 && d.tally == if r.key != c.pollkey then c.tally.(late := c.tally.late + 1)
                               else c.tally.(extra := c.tally.extra + 1)
  {
    SuffixIsEquality(c.inbox, c.handlers[h].reply.key, c.pollkey);
  }

  /** What a handler does whose reply the poll takes. */
  function Answer(h: nat, rtt: int): seq<Event> {
    [Enter(h), Deliver(h)] + [Record(h, rtt)]
  }

  /** The poll waits, the lock is free, and the reply that arrived answers the poll. */
  ghost predicate Awaited(c: Collector, h: nat) {
    && c.phase == Waiting && c.holder.None?
    && h in c.handlers && c.handlers[h].Arrived? && c.handlers[h].reply.key == c.pollkey
  }

  /** Such a reply is taken and its round-trip time noted; the poll goes on unless it has as many
      replies as servers were expected. */
  lemma AnswerTaken(c: Collector, h: nat, rtt: int)
    requires Inv(c) && Awaited(c, h)
    ensures Legal(c, Answer(h, rtt))
    ensures var r, d := c.handlers[h].reply, Run(c, Answer(h, rtt));
            && d.stats == c.stats + [r] && d.rtts == c.rtts[r.server.id := rtt]
            && d.handlers == c.handlers - {h} && d.holder.None? && d.pollkey == c.pollkey
            && d.expected == c.expected && d.snapshots == c.snapshots
            && d.tally == c.tally.(delivered := c.tally.delivered + 1)
            && d.phase == if c.expected != -1 && |c.stats| + 1 == c.expected then Finished else Waiting
  {
    EnterOutcome(c, h);
    var entered := Next(c, Enter(h));
    var delivered := Next(entered, Deliver(h));
    RunOne(c, Enter(h));
    RunOne(entered, Deliver(h));
    RunOn(c, [Enter(h)], [Deliver(h)]);
    assert [Enter(h)] + [Deliver(h)] == [Enter(h), Deliver(h)];
    RunOne(delivered, Record(h, rtt));
    RunOn(c, [Enter(h), Deliver(h)], [Record(h, rtt)]);
    assert delivered.handlers - {h} == c.handlers - {h};
  }

  function Answers(hs: seq<nat>, rtt: int): seq<Event> {
    if hs == [] then [] else Answer(hs[0], rtt) + Answers(hs[1..], rtt)
  }

  /** The replies that some handlers have. */
  function Replies(handlers: map<nat, Handler>, hs: seq<nat>): (r: seq<Reply>)
    requires forall i :: 0 <= i < |hs| ==> hs[i] in handlers
    ensures |r| == |hs| && forall i :: 0 <= i < |hs| ==> r[i] == handlers[hs[i]].reply
  {
    seq(|hs|, i requires 0 <= i < |hs| => handlers[hs[i]].reply)
  }

  /** All of them arrived in answer to the poll, which is waiting for at least as many. */
  ghost predicate AllAwaited(c: Collector, hs: seq<nat>) {
    && (forall i :: 0 <= i < |hs| ==> Awaited(c, hs[i]))
    && (forall i, j :: 0 <= i < j < |hs| ==> hs[i] != hs[j])
    && (c.expected != -1 ==> |c.stats| + |hs| <= c.expected)
  }

  /** From c to d the poll took the replies, in order, and nothing else. */
  ghost predicate Took(c: Collector, d: Collector, replies: seq<Reply>) {
    && d.stats == c.stats + replies
    && d.holder.None? && d.pollkey == c.pollkey && d.expected == c.expected && d.snapshots == c.snapshots
    && d.phase == if replies != [] && c.expected != -1 && |c.stats| + |replies| == c.expected then Finished else c.phase
  }

  lemma TookMore(c: Collector, d: Collector, e: Collector, r: Reply, rest: seq<Reply>)
    requires Took(c, d, [r]) && Took(d, e, rest)
    requires c.expected != -1 ==> |c.stats| + 1 + |rest| <= c.expected
    ensures Took(c, e, [r] + rest)
  {
    assert c.stats + [r] + rest == c.stats + ([r] + rest);
  }

  ghost predicate Leads(c: Collector, evs: seq<Event>, d: Collector) {
    Legal(c, evs) && Run(c, evs) == d
  }

  lemma Then(c: Collector, xs: seq<Event>, d: Collector, ys: seq<Event>, e: Collector)
    requires Leads(c, xs, d) && Leads(d, ys, e)
    ensures Leads(c, xs + ys, e)
  {
    RunOn(c, xs, ys);
  }

  lemma TookOne(c: Collector, h: nat, rtt: int) returns (d: Collector)
    requires Inv(c) && Awaited(c, h)
    ensures Leads(c, Answer(h, rtt), d) && Inv(d)
    ensures Took(c, d, [c.handlers[h].reply]) && d.handlers == c.handlers - {h}
  {
    AnswerTaken(c, h, rtt);
    RunInv(c, Answer(h, rtt));
    d := Run(c, Answer(h, rtt));
  }

  lemma TookFirst(c: Collector, first: Collector, d: Collector, hs: seq<nat>)
    requires hs != [] && AllAwaited(c, hs) && AllAwaited(first, hs[1..]) && first.handlers == c.handlers - {hs[0]}
    requires Took(c, first, [c.handlers[hs[0]].reply]) && Took(first, d, Replies(first.handlers, hs[1..]))
    ensures Took(c, d, Replies(c.handlers, hs))
  {
    FirstReply(c.handlers, first.handlers, hs);
    TookMore(c, first, d, c.handlers[hs[0]].reply, Replies(first.handlers, hs[1..]));
  }

  /** The poll takes the replies of all of them, one after the other. */
  lemma {:induction false} AllTaken(c: Collector, hs: seq<nat>, rtt: int) returns (d: Collector)
    requires Inv(c) && AllAwaited(c, hs) && c.holder.None?
    ensures Leads(c, Answers(hs, rtt), d) && Took(c, d, Replies(c.handlers, hs))
    decreases |hs|
  {
    if hs == [] {
      d := c;
    } else {
      var first := TookOne(c, hs[0], rtt);
      RestAwaited(c, first, hs);
      d := AllTaken(first, hs[1..], rtt);
      Then(c, Answer(hs[0], rtt), first, Answers(hs[1..], rtt), d);
      TookFirst(c, first, d, hs);
    }
  }

  lemma FirstReply(handlers: map<nat, Handler>, rest: map<nat, Handler>, hs: seq<nat>)
    requires hs != [] && (forall i :: 0 <= i < |hs| ==> hs[i] in handlers) && rest == handlers - {hs[0]}
    requires forall i, j :: 0 <= i < j < |hs| ==> hs[i] != hs[j]
    ensures Replies(handlers, hs) == [handlers[hs[0]].reply] + Replies(rest, hs[1..])
  {
  }

  lemma RestAwaited(c: Collector, d: Collector, hs: seq<nat>)
    requires hs != [] && AllAwaited(c, hs) && d.handlers == c.handlers - {hs[0]} && d.pollkey == c.pollkey
    requires |d.stats| == |c.stats| + 1 && d.holder.None? && d.expected == c.expected
    requires d.phase == if c.expected != -1 && |c.stats| + 1 == c.expected then Finished else Waiting
    ensures AllAwaited(d, hs[1..]) && (|hs| > 1 ==> d.phase == Waiting)
  {
  }

  /** A poll that waits, and to which all expected servers reply, ends with just these replies
      in its snapshot. */
  lemma FullPoll(c: Collector, hs: seq<nat>, rtt: int) returns (d: Collector)
    requires Inv(c) && AllAwaited(c, hs) && c.phase == Waiting && c.holder.None? && c.stats == []
    requires c.expected > 0 && |hs| == c.expected
    ensures Leads(c, Answers(hs, rtt) + [TakeSnapshot], d) && d.phase == Idle
    ensures d.snapshots != [] && d.snapshots[..|d.snapshots| - 1] == c.snapshots
    ensures var s := d.snapshots[|d.snapshots| - 1];
            && s.key == c.pollkey && |s.stats| == c.expected
            && forall i :: 0 <= i < |hs| ==> s.stats[i] == c.handlers[hs[i]].reply
  {
    var taken := AllTaken(c, hs, rtt);
    RunOne(taken, TakeSnapshot);
    d := Next(taken, TakeSnapshot);
    Then(c, Answers(hs, rtt), taken, [TakeSnapshot], d);
  }

  /** A poll to which fewer servers reply, or one that takes any number, ends at a timer, with
      the replies that there were. */
  lemma PartialPoll(c: Collector, hs: seq<nat>, rtt: int) returns (d: Collector)
    requires Inv(c) && AllAwaited(c, hs) && c.phase == Waiting && c.holder.None? && c.stats == []
    requires c.expected == -1 || |hs| < c.expected
    ensures Leads(c, Answers(hs, rtt) + [StopWaiting] + [TakeSnapshot], d) && d.phase == Idle
    ensures d.snapshots != [] && d.snapshots[..|d.snapshots| - 1] == c.snapshots
    ensures var s := d.snapshots[|d.snapshots| - 1];
            s.key == c.pollkey && s.stats == Replies(c.handlers, hs)
  {
    var taken := AllTaken(c, hs, rtt);
    RunOne(taken, StopWaiting);
    var stopped := Next(taken, StopWaiting);
    Then(c, Answers(hs, rtt), taken, [StopWaiting], stopped);
    RunOne(stopped, TakeSnapshot);
    d := Next(stopped, TakeSnapshot);
    Then(c, Answers(hs, rtt) + [StopWaiting], stopped, [TakeSnapshot], d);
  }

  // ----- What is taken stays -----

  /** The poll is in its loop, or past it, and has the reply. */
  ghost predicate Taken(c: Collector, r: Reply) {
    r in c.stats && (c.phase == Waiting || c.phase == Finished)
  }

  lemma TakenStep(c: Collector, r: Reply, e: Event)
    requires Taken(c, r) && Enabled(c, e) && e != TakeSnapshot
    ensures Taken(Next(c, e), r)
  {
  }

  /** A reply that the poll has taken is in the next snapshot, whatever happens in between. */
  lemma {:induction false} TakenStays(c: Collector, r: Reply, evs: seq<Event>)
    requires Taken(c, r) && Legal(c, evs) && TakeSnapshot !in evs
    ensures Taken(Run(c, evs), r)
    decreases |evs|
  {
    if evs != [] {
      assert evs[0] in evs;
      TakenStep(c, r, evs[0]);
      TakenStays(Next(c, evs[0]), r, evs[1..]);
    }
  }

  /** Every reply delivered to a poll is in the snapshot of that poll. */
  lemma DeliveredIsInSnapshot(c: Collector, h: nat, evs: seq<Event>)
    requires Enabled(c, Deliver(h)) && Legal(Next(c, Deliver(h)), evs)
    requires TakeSnapshot !in evs && Enabled(Run(Next(c, Deliver(h)), evs), TakeSnapshot)
    ensures var d := Next(Run(Next(c, Deliver(h)), evs), TakeSnapshot);
            d.snapshots != [] && c.handlers[h].reply in d.snapshots[|d.snapshots| - 1].stats
  {
    var r := c.handlers[h].reply;
    assert Next(c, Deliver(h)).stats[|c.stats|] == r;
    TakenStays(Next(c, Deliver(h)), r, evs);
  }

  // ----- The tallies -----

  /** Each tally counts the events that it is for. */
  lemma TallyStep(c: Collector, e: Event)
    requires Enabled(c, e)
    ensures var t, u := c.tally, Next(c, e).tally;
            && u.delivered == t.delivered + (if e.Deliver? then 1 else 0)
            && u.expired == t.expired + (if e.Expire? then 1 else 0)
            && u.garbled == t.garbled + (if e.Garble? then 1 else 0)
            && (!e.Enter? ==> u.late == t.late && u.extra == t.extra)
  {
  }

  // ----- Whose round-trip times a snapshot has -----

  /** Which servers have replied, and to the poll of which key. */
  function RepliedBy(e: Event): set<(string, string)> {
    if e.Arrive? then {(e.key, e.server.id)} else {}
  }

  function Replied(evs: seq<Event>): set<(string, string)> {
    if evs == [] then {} else RepliedBy(evs[0]) + Replied(evs[1..])
  }

  lemma {:induction false} RepliedWhen(evs: seq<Event>, key: string, id: string) returns (i: nat)
    requires (key, id) in Replied(evs)
    ensures i < |evs| && evs[i].Arrive? && evs[i].key == key && evs[i].server.id == id
  {
    if (key, id) in RepliedBy(evs[0]) {
      i := 0;
    } else {
      i := RepliedWhen(evs[1..], key, id);
      i := i + 1;
    }
  }

  ghost predicate TimedBy(rtts: map<string, int>, key: string, who: set<(string, string)>) {
    forall id :: id in rtts ==> (key, id) in who
  }

  ghost predicate ComeFrom(handlers: map<nat, Handler>, who: set<(string, string)>) {
    forall h :: h in handlers ==> (handlers[h].reply.key, handlers[h].reply.server.id) in who
  }

  ghost predicate AllTimed(snapshots: seq<Snapshot>, who: set<(string, string)>) {
    forall i :: 0 <= i < |snapshots| ==> TimedBy(snapshots[i].rtts, snapshots[i].key, who)
  }

  ghost predicate TimesOk(c: Collector, who: set<(string, string)>) {
    ComeFrom(c.handlers, who) && TimedBy(c.rtts, c.pollkey, who) && AllTimed(c.snapshots, who)
  }

  lemma TimesStep(c: Collector, who: set<(string, string)>, e: Event)
    requires Inv(c) && TimesOk(c, who) && Enabled(c, e)
    ensures TimesOk(Next(c, e), who + RepliedBy(e))
  {
    if e.Record? {
      assert HandlerOk(e.h, c.handlers[e.h], c.keys, c.pollkey, c.arrivals, c.holder);
    }
  }

  lemma {:induction false} TimesRun(c: Collector, who: set<(string, string)>, evs: seq<Event>)
    requires Inv(c) && TimesOk(c, who) && Legal(c, evs)
    ensures TimesOk(Run(c, evs), who + Replied(evs))
    decreases |evs|
  {
    if evs == [] {
      assert who + Replied(evs) == who;
    } else {
      TimesStep(c, who, evs[0]);
      NextInv(c, evs[0]);
      TimesRun(Next(c, evs[0]), who + RepliedBy(evs[0]), evs[1..]);
      assert who + RepliedBy(evs[0]) + Replied(evs[1..]) == who + Replied(evs);
    }
  }

  /** In every run a snapshot has round-trip times of servers that replied to its own poll only,
      none that an earlier poll has left behind. */
  lemma TimesAnswerTheirPoll(inbox: string, expected: int, evs: seq<Event>, n: nat, id: string) returns (i: nat)
    requires Legal(Init(inbox, expected), evs) && n < |Run(Init(inbox, expected), evs).snapshots|
    requires id in Run(Init(inbox, expected), evs).snapshots[n].rtts
    ensures i < |evs| && evs[i].Arrive? && evs[i].server.id == id
    ensures evs[i].key == Run(Init(inbox, expected), evs).snapshots[n].key
  {
    InitInv(inbox, expected);
    TimesRun(Init(inbox, expected), {}, evs);
    var s := Run(Init(inbox, expected), evs).snapshots[n];
    assert TimedBy(s.rtts, s.key, {} + Replied(evs));
    i := RepliedWhen(evs, s.key, id);
  }

  // ----- No poll gets stuck -----

  /** What brings the poll to an end if no more replies are taken. */
  function Closing(c: Collector): Event
    requires c.phase != Idle || c.holder.Some?
    requires c.holder.Some? ==> c.holder.value in c.handlers
  {
    if c.holder.Some? then
      if c.handlers[c.holder.value].Sending? then Expire(c.holder.value) else Record(c.holder.value, 0)
    else
      match c.phase
      case Started => Abort
      case Failed => Cleanup
      case Waiting => StopWaiting
      case _ => TakeSnapshot
  }

  function PhasesLeft(phase: Phase): nat {
    match phase
    case Started | Waiting => 2
    case Failed | Finished => 1
    case Idle => 0
  }

  function HolderLeft(c: Collector): nat
    requires c.holder.Some? ==> c.holder.value in c.handlers
  {
    if c.holder.None? then 0 else if c.handlers[c.holder.value].Sending? then 2 else 1
  }

  lemma ClosingStep(c: Collector)
    requires Inv(c) && (c.phase != Idle || c.holder.Some?)
    ensures Enabled(c, Closing(c)) && Inv(Next(c, Closing(c)))
    ensures var d := Next(c, Closing(c));
            || PhasesLeft(d.phase) < PhasesLeft(c.phase)
            || (d.phase == c.phase && HolderLeft(d) < HolderLeft(c))
  {
    assert c.holder.Some? ==> HandlerOk(
        c.holder.value, c.handlers[c.holder.value], c.keys, c.pollkey, c.arrivals, c.holder);
    NextInv(c, Closing(c));
  }

  lemma {:induction false} EndPoll(s: Collector, xs: seq<Event>, c: Collector) returns (evs: seq<Event>, d: Collector)
    requires Inv(c) && Leads(s, xs, c)
    ensures Inv(d) && Leads(s, evs, d) && xs <= evs && d.phase == Idle && d.holder.None?
    decreases PhasesLeft(c.phase), HolderLeft(c)
  {
    if c.phase == Idle && c.holder.None? {
      evs, d := xs, c;
    } else {
      ClosingStep(c);
      RunOne(c, Closing(c));
      Then(s, xs, c, [Closing(c)], Next(c, Closing(c)));
      evs, d := EndPoll(s, xs + [Closing(c)], Next(c, Closing(c)));
    }
  }

  /** Replies that are still on their way when no poll runs are late or extra. */
  lemma {:induction false} EndHandlers(s: Collector, xs: seq<Event>, c: Collector)
    returns (evs: seq<Event>, d: Collector)
    requires Inv(c) && Leads(s, xs, c) && c.phase == Idle && c.holder.None?
    ensures Inv(d) && Leads(s, evs, d) && xs <= evs && d.phase == Idle && d.handlers == map[]
    decreases |c.handlers|
  {
    if c.handlers == map[] {
      evs, d := xs, c;
    } else {
      var h :| h in c.handlers;
      EnterOutcome(c, h);
      NextInv(c, Enter(h));
      RunOne(c, Enter(h));
      Then(s, xs, c, [Enter(h)], Next(c, Enter(h)));
      evs, d := EndHandlers(s, xs + [Enter(h)], Next(c, Enter(h)));
    }
  }

  /** Every run can be continued until no poll is under way and every reply that arrived was
      dealt with. */
  lemma EveryRunEnds(inbox: string, expected: int, evs: seq<Event>) returns (more: seq<Event>)
    requires Legal(Init(inbox, expected), evs)
    ensures Legal(Init(inbox, expected), more) && evs <= more
    ensures var c := Run(Init(inbox, expected), more);
            && c.phase == Idle && c.handlers == map[]
            && c.arrivals == c.tally.delivered + c.tally.expired + c.tally.late + c.tally.extra + c.tally.garbled
  {
    var s := Init(inbox, expected);
    InitInv(inbox, expected);
    RunInv(s, evs);
    var c: Collector;
    more, c := EndPoll(s, evs, Run(s, evs));
    more, c := EndHandlers(s, more, c);
    EveryReplyAccounted(inbox, expected, more);
    assert OnTheWay(c.handlers) == {};
  }
}

/** The pool never gets stuck: from whatever point of whatever run, its calls can be brought
    to an end, and then nothing is left open. */
module PoolDrain {
  import opened Prelude
  import opened PoolMachine
  import opened PoolInvariant
  import opened PoolRuns

  lemma More(s: Pool, xs: seq<Event>, m: Pool, e: Event)
    requires Inv(m) && Leads(s, xs, m) && Enabled(m, e)
    ensures Leads(s, xs + [e], Next(m, e)) && Inv(Next(m, e))
  {
    NextInv(m, e);
    RunSnoc(s, xs, e);
  }

  /** A running Close(true) comes to its end. */
  lemma {:induction false} EndSweep(s: Pool, xs: seq<Event>, m: Pool) returns (evs: seq<Event>, r: Pool)
    requires Inv(m) && Leads(s, xs, m)
    ensures Inv(r) && Leads(s, evs, r) && xs <= evs && r.sweep.None?
    decreases if m.sweep.Some? then |m.open| - m.sweep.value + 1 else 0
  {
    if m.sweep.None? {
      evs, r := xs, m;
    } else {
      var e := if m.sweep.value < |m.open| then SweepNext else SweepEnd;
      More(s, xs, m, e);
      evs, r := EndSweep(s, xs + [e], Next(m, e));
    }
  }

  /** What brings a caller on, if dials fail. */
  function NextFor(s: Pool, t: nat): Event
    requires Typed(s) && t in s.gets && (s.gets[t].Waiting? ==> s.gets[t].key in s.flights)
  {
    match s.gets[t]
    case Trying(_, _) => Enter(t)
    case Waiting(key, _) =>
      (match s.flights[key]
       case Looking => Lookup(key)
       case Dialing => DialFails(key)
       case _ => Land(key))
    case Got(_, _, c) => if s.conns[c].closed then Retry(t) else Acquire(t)
  }

  /** How far the caller's attempt is from its end. */
  function Distance(s: Pool, t: nat): nat
    requires t in s.gets && (s.gets[t].Waiting? ==> s.gets[t].key in s.flights)
  {
    match s.gets[t]
    case Trying(_, _) => 4
    case Waiting(key, _) => (match s.flights[key] case Looking => 3 case Dialing => 2 case _ => 1)
    case Got(_, _, _) => 0
  }

  /** The caller is out of its Get, or in its next attempt, or closer to the end of this one. */
  ghost predicate Closer(s: Pool, next: Pool, t: nat)
    requires t in s.gets && (s.gets[t].Waiting? ==> s.gets[t].key in s.flights)
  {
    && next.sweep == s.sweep && next.gets.Keys <= s.gets.Keys
    && (t in next.gets ==>
          && (next.gets[t].Waiting? ==> next.gets[t].key in next.flights)
          && (next.gets[t].tries == s.gets[t].tries + 1
              || (next.gets[t].tries == s.gets[t].tries && Distance(next, t) < Distance(s, t))))
  }

  lemma AdvanceFlight(s: Pool, t: nat)
    requires Typed(s) && t in s.gets && s.gets[t].Waiting? && s.gets[t].key in s.flights && s.sweep.None?
    ensures Enabled(s, NextFor(s, t)) && Closer(s, Next(s, NextFor(s, t)), t)
  {
    var key := s.gets[t].key;
    if s.flights[key] == Looking {
      assert LookupStep(s, key).gets == s.gets;
    }
  }

  lemma Advance(s: Pool, t: nat)
    requires Typed(s) && t in s.gets && (s.gets[t].Waiting? ==> s.gets[t].key in s.flights) && s.sweep.None?
    ensures Enabled(s, NextFor(s, t)) && Closer(s, Next(s, NextFor(s, t)), t)
  {
    if s.gets[t].Waiting? {
      AdvanceFlight(s, t);
    }
  }

  /** The caller's Get ends, and no other begins. */
  lemma {:induction false} EndGet(s: Pool, xs: seq<Event>, m: Pool, t: nat) returns (evs: seq<Event>, r: Pool)
    requires Inv(m) && Leads(s, xs, m) && t in m.gets && m.sweep.None?
    ensures Inv(r) && Leads(s, evs, r) && xs <= evs && r.sweep.None?
    ensures t !in r.gets && r.gets.Keys <= m.gets.Keys
    decreases MAX_TRIES - m.gets[t].tries, Distance(m, t)
  {
    var e := NextFor(m, t);
    Advance(m, t);
    More(s, xs, m, e);
    if t in Next(m, e).gets {
      evs, r := EndGet(s, xs + [e], Next(m, e), t);
    } else {
      evs, r := xs + [e], Next(m, e);
    }
  }

  lemma {:induction false} EndGets(s: Pool, xs: seq<Event>, m: Pool) returns (evs: seq<Event>, r: Pool)
    requires Inv(m) && Leads(s, xs, m) && m.sweep.None?
    ensures Inv(r) && Leads(s, evs, r) && xs <= evs && r.sweep.None? && r.gets == map[]
    decreases |m.gets|
  {
    if m.gets == map[] {
      evs, r := xs, m;
    } else {
      var t :| t in m.gets;
      evs, r := EndGet(s, xs, m, t);
      FewerGets(m, r, t);
      evs, r := EndGets(s, evs, r);
    }
  }

  lemma FewerGets(s: Pool, r: Pool, t: nat)
    requires t in s.gets && t !in r.gets && r.gets.Keys <= s.gets.Keys
    ensures |r.gets| < |s.gets|
  {
    SubsetSize(r.gets.Keys, s.gets.Keys - {t});
  }

  /** All handles go back. */
  lemma {:induction false} ReturnHandles(s: Pool, xs: seq<Event>, m: Pool) returns (evs: seq<Event>, r: Pool)
    requires Inv(m) && Leads(s, xs, m) && m.gets == map[]
    ensures Inv(r) && Leads(s, evs, r) && xs <= evs && r.gets == map[] && r.handles == map[]
    decreases |m.handles|
  {
    if m.handles == map[] {
      evs, r := xs, m;
    } else {
      var h :| h in m.handles;
      More(s, xs, m, Return(h));
      assert ReturnStep(m, h).handles == m.handles - {h} && ReturnStep(m, h).gets == m.gets;
      evs, r := ReturnHandles(s, xs + [Return(h)], Next(m, Return(h)));
    }
  }

  /** The connections whose last return has yet to close them. */
  ghost function Owing(conns: seq<Conn>): set<nat> {
    set c: nat | c < |conns| && conns[c].closers > 0
  }

  lemma ClosePays(s: Pool, c: nat)
    requires Inv(s) && c in Owing(s.conns)
    ensures Enabled(s, NcClose(c)) && Owing(Next(s, NcClose(c)).conns) == Owing(s.conns) - {c}
    ensures Next(s, NcClose(c)).gets == s.gets && Next(s, NcClose(c)).handles == s.handles
  {
  }

  lemma {:induction false} CloseAll(s: Pool, xs: seq<Event>, m: Pool) returns (evs: seq<Event>, r: Pool)
    requires Inv(m) && Leads(s, xs, m) && m.gets == map[] && m.handles == map[]
    ensures Inv(r) && Leads(s, evs, r) && xs <= evs && r.gets == map[] && r.handles == map[] && Owing(r.conns) == {}
    decreases |Owing(m.conns)|
  {
    if Owing(m.conns) == {} {
      evs, r := xs, m;
    } else {
      var c :| c in Owing(m.conns);
      ClosePays(m, c);
      More(s, xs, m, NcClose(c));
      evs, r := CloseAll(s, xs + [NcClose(c)], Next(m, NcClose(c)));
    }
  }

  /** Every run can be continued until no Get runs, no handle is out, the cache is empty and
      the pool has closed every connection exactly once. */
  lemma EveryRunDrains(evs: seq<Event>) returns (more: seq<Event>)
    requires Legal(Init(), evs)
    ensures Legal(Init(), more) && evs <= more
    ensures var s := Run(Init(), more);
            && s.gets == map[] && s.flights == map[] && s.handles == map[] && s.cache == map[]
            && forall c :: 0 <= c < |s.conns| ==>
                 s.conns[c].closed && s.conns[c].poolCloses == 1 && s.conns[c].closers == 0 && s.net[c] == Shut
  {
    InitInv();
    RunInv(Init(), evs);
    var s: Pool;
    more, s := EndSweep(Init(), evs, Run(Init(), evs));
    more, s := EndGets(Init(), more, s);
    more, s := ReturnHandles(Init(), more, s);
    more, s := CloseAll(Init(), more, s);
    AllReturnedAllClosed(more);
    NothingOwed(s);
  }

  lemma NothingOwed(s: Pool)
    requires Owing(s.conns) == {}
    ensures forall c :: 0 <= c < |s.conns| ==> s.conns[c].closers == 0
  {
    forall c | 0 <= c < |s.conns|
      ensures s.conns[c].closers == 0
    {
      assert c !in Owing(s.conns);
    }
  }
}

/** What holds in every interleaving of pool operations. */
module PoolRuns {
  import opened Prelude
  import opened PoolMachine
  import opened PoolInvariant

  ghost predicate Legal(s: Pool, evs: seq<Event>)
    requires Typed(s)
    decreases |evs|
  {
    evs == [] || (Enabled(s, evs[0]) && Legal(Next(s, evs[0]), evs[1..]))
  }

  ghost function Run(s: Pool, evs: seq<Event>): (r: Pool)
    requires Typed(s) && Legal(s, evs)
    ensures Typed(r)
    decreases |evs|
  {
    if evs == [] then s else Run(Next(s, evs[0]), evs[1..])
  }

  lemma {:induction false} RunInv(s: Pool, evs: seq<Event>)
    requires Inv(s) && Legal(s, evs)
    ensures Inv(Run(s, evs))
    decreases |evs|
  {
    if evs != [] {
      NextInv(s, evs[0]);
      RunInv(Next(s, evs[0]), evs[1..]);
    }
  }

  // ----- Putting runs together -----

  /** The steps lead from s to r. */
  ghost predicate Leads(s: Pool, evs: seq<Event>, r: Pool) {
    Typed(s) && Legal(s, evs) && Run(s, evs) == r
  }

  lemma LeadsCons(s: Pool, e: Event, rest: seq<Event>, r: Pool)
    requires Typed(s) && Enabled(s, e) && Leads(Next(s, e), rest, r)
    ensures Leads(s, [e] + rest, r)
  {
    assert ([e] + rest)[0] == e && ([e] + rest)[1..] == rest;
  }

  lemma LeadsTail(s: Pool, evs: seq<Event>, r: Pool)
    requires Leads(s, evs, r) && evs != []
    ensures Enabled(s, evs[0]) && Leads(Next(s, evs[0]), evs[1..], r)
  {
  }

  lemma {:induction false} LeadsOn(s: Pool, xs: seq<Event>, m: Pool, ys: seq<Event>, r: Pool)
    requires Leads(s, xs, m) && Leads(m, ys, r)
    ensures Leads(s, xs + ys, r)
    decreases |xs|
  {
    if xs == [] {
      assert xs + ys == ys;
    } else {
      ConcatHead(xs, ys);
      LeadsTail(s, xs, m);
      LeadsOn(Next(s, xs[0]), xs[1..], m, ys, r);
      LeadsCons(s, xs[0], xs[1..] + ys, r);
    }
  }

  lemma RunConcat(s: Pool, xs: seq<Event>, ys: seq<Event>)
    requires Typed(s) && Legal(s, xs) && Legal(Run(s, xs), ys)
    ensures Legal(s, xs + ys) && Run(s, xs + ys) == Run(Run(s, xs), ys)
  {
    LeadsOn(s, xs, Run(s, xs), ys, Run(Run(s, xs), ys));
  }

  lemma RunOne(s: Pool, e: Event)
    requires Typed(s) && Enabled(s, e)
    ensures Legal(s, [e]) && Run(s, [e]) == Next(s, e)
  {
    assert [e][1..] == [];
    assert Run(Next(s, e), []) == Next(s, e);
  }

  lemma {:induction false} RunSnoc(s: Pool, evs: seq<Event>, e: Event)
    requires Typed(s) && Legal(s, evs) && Enabled(Run(s, evs), e)
    ensures Legal(s, evs + [e]) && Run(s, evs + [e]) == Next(Run(s, evs), e)
  {
    RunOne(Run(s, evs), e);
    RunConcat(s, evs, [e]);
  }

  lemma RunCons(s: Pool, e: Event, rest: seq<Event>)
    requires Typed(s) && Enabled(s, e) && Legal(Next(s, e), rest)
    ensures Legal(s, [e] + rest) && Run(s, [e] + rest) == Run(Next(s, e), rest)
  {
    LeadsCons(s, e, rest, Run(Next(s, e), rest));
  }

  lemma RunTwo(s: Pool, d: Event, e: Event)
    requires Typed(s) && Enabled(s, d) && Enabled(Next(s, d), e)
    ensures Legal(s, [d, e]) && Run(s, [d, e]) == Next(Next(s, d), e)
  {
    RunOne(Next(s, d), e);
    RunCons(s, d, [e]);
    assert [d] + [e] == [d, e];
  }

  // ----- No leak -----

  /** An un-closed connection is held or a Get is about to hold it. */
  lemma NothingLeaks(evs: seq<Event>, i: nat)
    requires Legal(Init(), evs) && i < |Run(Init(), evs).conns|
    ensures var s := Run(Init(), evs);
            !s.conns[i].closed ==>
              (exists h :: h in s.handles && s.handles[h] == i) || Pending(s, i)
  {
    InitInv();
    RunInv(Init(), evs);
    var s := Run(Init(), evs);
    if s.conns[i].count > 0 {
      var h :| h in Preimage(s.handles, i);
    }
  }

  lemma PendingNeedsGet(s: Pool, i: nat)
    requires Inv(s) && Pending(s, i)
    ensures s.gets != map[]
  {
    if t :| GotBy(s.gets, t, i) {
    } else {
      var k :| ReadyFor(s.flights, k, i);
      var t :| Waits(s.gets, t, k);
    }
  }

  lemma FlightNeedsGet(s: Pool, k: Key)
    requires FlightsManned(s.gets, s.flights) && k in s.flights
    ensures s.gets != map[]
  {
    var t :| Waits(s.gets, t, k);
  }

  /** With no Get in progress the cache holds only held connections. */
  lemma IdleCacheIsHeld(evs: seq<Event>, k: Key)
    requires Legal(Init(), evs) && Run(Init(), evs).gets == map[]
    requires k in Run(Init(), evs).cache
    ensures var s := Run(Init(), evs);
            exists h :: h in s.handles && s.handles[h] == s.cache[k]
  {
    InitInv();
    RunInv(Init(), evs);
    var s := Run(Init(), evs);
    NothingLeaks(evs, s.cache[k]);
    if Pending(s, s.cache[k]) {
      PendingNeedsGet(s, s.cache[k]);
    }
  }

  /** Once every handle is returned and every return has finished, the cache is empty
      and the pool has closed every connection exactly once. */
  lemma AllReturnedAllClosed(evs: seq<Event>)
    requires Legal(Init(), evs)
    requires var s := Run(Init(), evs); s.gets == map[] && s.handles == map[]
    ensures var s := Run(Init(), evs);
            && s.cache == map[] && s.flights == map[]
            && forall i :: 0 <= i < |s.conns| ==>
                 && s.conns[i].closed
                 && s.conns[i].closers + s.conns[i].poolCloses == 1
                 && (s.conns[i].closers == 0 ==> s.conns[i].poolCloses == 1 && s.net[i] == Shut)
  {
    InitInv();
    RunInv(Init(), evs);
    var s := Run(Init(), evs);
    forall i | 0 <= i < |s.conns|
      ensures s.conns[i].closed
    {
      NothingLeaks(evs, i);
      if Pending(s, i) {
        PendingNeedsGet(s, i);
      }
    }
    if k :| k in s.flights {
      FlightNeedsGet(s, k);
    }
  }

  // ----- Reference counting -----

  /** In every interleaving the count of a connection is its number of outstanding
      handles, and a closed one has neither handles nor a place in the cache. */
  lemma CountIsHandles(evs: seq<Event>, i: nat)
    requires Legal(Init(), evs) && i < |Run(Init(), evs).conns|
    ensures var s := Run(Init(), evs);
            && s.conns[i].count == |Preimage(s.handles, i)|
            && (s.conns[i].closed ==>
                  && (forall h :: h in s.handles ==> s.handles[h] != i)
                  && (forall k :: k in s.cache ==> s.cache[k] != i))
  {
    InitInv();
    RunInv(Init(), evs);
    var s := Run(Init(), evs);
    forall h | h in s.handles && s.handles[h] == i
      ensures s.conns[i].count > 0
    {
      assert h in Preimage(s.handles, i);
    }
  }

  /** Acquire hands out a new handle on the connection it counted; no other event adds one. */
  lemma HandlesStay(s: Pool, e: Event)
    requires Typed(s) && Enabled(s, e) && !e.Acquire? && !e.Return?
    ensures Next(s, e).handles == s.handles
  {
    match e
    case Lookup(k) => assert LookupStep(s, k).handles == s.handles;
    case Publish(k, net) => assert PublishStep(s, k, net).handles == s.handles;
    case _ =>
  }

  lemma HandlesChange(s: Pool, e: Event)
    requires Typed(s) && HandlesIssued(s.handles, s.issued) && Enabled(s, e)
    ensures Next(s, e).handles ==
            match e
            case Acquire(t) => s.handles[s.issued := s.gets[t].conn]
            case Return(h) => s.handles - {h}
            case _ => s.handles
    ensures e.Acquire? ==> s.issued !in s.handles
  {
    match e
    case Return(h) => assert ReturnStep(s, h).handles == s.handles - {h};
    case Acquire(t) => assert AcquireStep(s, t).handles == s.handles[s.issued := s.gets[t].conn];
    case _ => HandlesStay(s, e);
  }

  lemma HeldIsOpen(s: Pool, h: nat)
    requires Inv(s) && h in s.handles
    ensures var c := s.conns[s.handles[h]]; c.count > 0 && !c.closed && c.closers == 0 && c.poolCloses == 0
  {
    assert h in Preimage(s.handles, s.handles[h]);
  }

  lemma HeldStep(s: Pool, e: Event, h: nat)
    requires Inv(s) && Enabled(s, e) && h in s.handles && e != Return(h)
    ensures h in Next(s, e).handles && Next(s, e).handles[h] == s.handles[h]
  {
    HandlesChange(s, e);
  }

  /** A connection handed out is not closed by any return until its own handle is
      returned, whatever else happens meanwhile. */
  lemma {:induction false} HeldUntilReturned(s: Pool, evs: seq<Event>, h: nat)
    requires Inv(s) && Legal(s, evs) && h in s.handles && Return(h) !in evs
    ensures var s' := Run(s, evs);
            && h in s'.handles && s'.handles[h] == s.handles[h]
            && !s'.conns[s.handles[h]].closed
            && s'.conns[s.handles[h]].closers == 0 && s'.conns[s.handles[h]].poolCloses == 0
    decreases |evs|
  {
    if evs == [] {
      HeldIsOpen(s, h);
    } else {
      NextInv(s, evs[0]);
      HeldStep(s, evs[0], h);
      HeldUntilReturned(Next(s, evs[0]), evs[1..], h);
    }
  }

  // ----- Replacement -----

  /** The last return of a replaced connection leaves its replacement cached. */
  lemma ReplacedNeverEvicts(evs: seq<Event>, h: nat)
    requires Legal(Init(), evs)
    requires var s := Run(Init(), evs); h in s.handles && s.conns[s.handles[h]].replaced
    ensures var s := Run(Init(), evs); Next(s, Return(h)).cache == s.cache
  {
    InitInv();
    RunInv(Init(), evs);
    var s := Run(Init(), evs);
    assert ReturnStep(s, h).cache == s.cache;
  }

  /** An un-closed connection that is not cached was replaced, and Close(true) knows it. */
  lemma UncachedIsRemembered(evs: seq<Event>, i: nat)
    requires Legal(Init(), evs) && i < |Run(Init(), evs).conns|
    requires var s := Run(Init(), evs);
             !s.conns[i].closed && (s.conns[i].key in s.cache ==> s.cache[s.conns[i].key] != i)
    ensures var s := Run(Init(), evs);
            && s.conns[i].replaced
            && (s.net[i] == Shut || i in s.open)
  {
    InitInv();
    RunInv(Init(), evs);
  }

  /** When a Close(true) ends, every replaced connection is shut. */
  lemma CloseReachesReplaced(evs: seq<Event>, i: nat)
    requires Legal(Init(), evs) && Enabled(Run(Init(), evs), SweepEnd)
    requires var s := Run(Init(), evs); i < |s.conns| && s.conns[i].replaced
    ensures Next(Run(Init(), evs), SweepEnd).net[i] == Shut
  {
    InitInv();
    RunInv(Init(), evs);
    var s := Run(Init(), evs);
    if i in s.open {
      var j :| 0 <= j < |s.open| && s.open[j] == i;
    }
  }

  // ----- Runs in which no connection drops -----

  predicate Calm(e: Event) {
    !e.Drop? && !e.Shutdown? && (e.Publish? ==> e.net == Connected)
  }

  ghost predicate LiveIsUp(conns: seq<Conn>, net: seq<Net>)
    requires |conns| == |net|
  {
    forall i :: 0 <= i < |conns| && !conns[i].closed ==> net[i] == Connected
  }

  ghost predicate NothingReplaced(conns: seq<Conn>) {
    forall i :: 0 <= i < |conns| ==> !conns[i].replaced
  }

  ghost predicate DialingUncached(flights: map<Key, Flight>, cache: map<Key, nat>) {
    forall k :: k in flights && flights[k] == Dialing ==> k !in cache
  }

  ghost predicate CalmState(s: Pool)
    requires Typed(s)
  {
    && s.open == []
    && LiveIsUp(s.conns, s.net)
    && NothingReplaced(s.conns)
    && DialingUncached(s.flights, s.cache)
  }

  lemma CalmOpen(s: Pool, e: Event)
    requires Typed(s) && CacheExact(s.conns, s.cache) && LiveIsUp(s.conns, s.net)
    requires s.open == [] && Enabled(s, e)
    ensures Next(s, e).open == []
  {
  }

  lemma CalmPublish(s: Pool, k: Key)
    requires Typed(s) && k in s.flights && LiveIsUp(s.conns, s.net)
    ensures LiveIsUp(PublishStep(s, k, Connected).conns, PublishStep(s, k, Connected).net)
  {
  }

  lemma CalmReturn(s: Pool, h: nat)
    requires Typed(s) && h in s.handles && LiveIsUp(s.conns, s.net)
    ensures LiveIsUp(ReturnStep(s, h).conns, ReturnStep(s, h).net)
  {
  }

  lemma CalmNet(s: Pool, e: Event)
    requires Typed(s) && ClosedOnce(s.conns, s.net)
    requires s.open == [] && LiveIsUp(s.conns, s.net) && Enabled(s, e) && Calm(e)
    ensures LiveIsUp(Next(s, e).conns, Next(s, e).net)
  {
    match e
    case Publish(k, _) => CalmPublish(s, k);
    case Return(h) => CalmReturn(s, h);
    case _ =>
  }

  lemma CalmReplaced(s: Pool, e: Event)
    requires Typed(s) && NothingReplaced(s.conns) && DialingUncached(s.flights, s.cache)
    requires Enabled(s, e)
    ensures NothingReplaced(Next(s, e).conns)
  {
  }

  lemma LookupKeepsCalm(s: Pool, k: Key)
    requires Typed(s) && CacheExact(s.conns, s.cache) && LiveIsUp(s.conns, s.net)
    requires DialingUncached(s.flights, s.cache) && Enabled(s, Lookup(k))
    ensures DialingUncached(LookupStep(s, k).flights, LookupStep(s, k).cache)
  {
  }

  lemma PublishKeepsCalm(s: Pool, k: Key, net: Net)
    requires Typed(s) && DialingUncached(s.flights, s.cache) && k in s.flights
    ensures DialingUncached(PublishStep(s, k, net).flights, PublishStep(s, k, net).cache)
  {
  }

  lemma ReturnKeepsCalm(s: Pool, h: nat)
    requires Typed(s) && DialingUncached(s.flights, s.cache) && h in s.handles
    ensures DialingUncached(ReturnStep(s, h).flights, ReturnStep(s, h).cache)
  {
  }

  lemma CalmDialing(s: Pool, e: Event)
    requires Typed(s) && CacheExact(s.conns, s.cache) && LiveIsUp(s.conns, s.net)
    requires DialingUncached(s.flights, s.cache) && Enabled(s, e)
    ensures DialingUncached(Next(s, e).flights, Next(s, e).cache)
  {
    match e
    case Lookup(k) => LookupKeepsCalm(s, k);
    case Publish(k, net) => PublishKeepsCalm(s, k, net);
    case Return(h) => ReturnKeepsCalm(s, h);
    case _ =>
  }

  lemma {:induction false} CalmRun(s: Pool, evs: seq<Event>)
    requires Inv(s) && CalmState(s) && Legal(s, evs) && forall e :: e in evs ==> Calm(e)
    ensures CalmState(Run(s, evs))
    decreases |evs|
  {
    if evs != [] {
      assert evs[0] in evs;
      NextInv(s, evs[0]);
      CalmOpen(s, evs[0]);
      CalmNet(s, evs[0]);
      CalmReplaced(s, evs[0]);
      CalmDialing(s, evs[0]);
      CalmRun(Next(s, evs[0]), evs[1..]);
    }
  }

  /** If nothing drops, there is at most one un-closed connection per key, and the
      cache holds exactly the un-closed connections. */
  lemma OneConnectionPerKey(evs: seq<Event>)
    requires Legal(Init(), evs) && forall e :: e in evs ==> Calm(e)
    ensures var s := Run(Init(), evs);
            && s.cache.Values == (set i | 0 <= i < |s.conns| && !s.conns[i].closed)
            && (forall i, j | 0 <= i < |s.conns| && 0 <= j < |s.conns|
                              && !s.conns[i].closed && !s.conns[j].closed
                              && s.conns[i].key == s.conns[j].key :: i == j)
  {
    InitInv();
    RunInv(Init(), evs);
    CalmRun(Init(), evs);
    var s := Run(Init(), evs);
    forall i | 0 <= i < |s.conns| && !s.conns[i].closed
      ensures i in s.cache.Values
    {
      assert s.conns[i].key in s.cache.Keys;
    }
  }

  // ----- The retry loop of Get -----

  function Retries(evs: seq<Event>, t: nat): nat {
    if evs == [] then 0 else (if evs[0] == Retry(t) then 1 else 0) + Retries(evs[1..], t)
  }

  lemma TriesLand(s: Pool, k: Key, t: nat)
    requires Typed(s) && k in s.flights && t in s.gets
    ensures t in LandStep(s, k).gets ==> LandStep(s, k).gets[t].tries == s.gets[t].tries
  {
  }

  lemma TriesStep(s: Pool, e: Event, t: nat)
    requires Typed(s) && Enabled(s, e) && t in s.gets && !(e.Begin? && e.t == t)
    ensures var s' := Next(s, e);
            var tries := s.gets[t].tries + (if e == Retry(t) then 1 else 0);
            if t in s'.gets then s'.gets[t].tries == tries
            else s.gets[t].tries < MAX_TRIES ==> tries <= MAX_TRIES
  {
    match e
    case Land(k) => TriesLand(s, k, t);
    case Lookup(k) => assert LookupStep(s, k).gets == s.gets;
    case Publish(k, net) => assert PublishStep(s, k, net).gets == s.gets;
    case Return(h) => assert ReturnStep(s, h).gets == s.gets;
    case _ =>
  }

  /** A Get that started with `tries` failed attempts gives up after ten in all, and
      every attempt that failed found its connection closed meanwhile. */
  lemma {:induction false} RetriesCounted(s: Pool, evs: seq<Event>, t: nat)
    requires Inv(s) && Legal(s, evs) && t in s.gets
    requires forall e :: e in evs ==> !(e.Begin? && e.t == t)
    ensures var s' := Run(s, evs);
            if t in s'.gets then s'.gets[t].tries == s.gets[t].tries + Retries(evs, t) < 10
            else s.gets[t].tries + Retries(evs, t) <= 10
    decreases |evs|
  {
    if evs != [] {
      assert evs[0] in evs;
      NextInv(s, evs[0]);
      TriesStep(s, evs[0], t);
      var s1 := Next(s, evs[0]);
      if t in s1.gets {
        RetriesCounted(s1, evs[1..], t);
      } else {
        GoneStaysGone(s1, evs[1..], t);
      }
    }
  }

  lemma {:induction false} GoneStaysGone(s: Pool, evs: seq<Event>, t: nat)
    requires Typed(s) && Legal(s, evs) && t !in s.gets
    requires forall e :: e in evs ==> !(e.Begin? && e.t == t)
    ensures t !in Run(s, evs).gets && Retries(evs, t) == 0
    decreases |evs|
  {
    if evs != [] {
      assert evs[0] in evs;
      GoneStaysGone(Next(s, evs[0]), evs[1..], t);
    }
  }
}

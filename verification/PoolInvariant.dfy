/** The inductive invariant of the pool, one conjunct at a time, and its preservation
    by every event. */
module PoolInvariant {
  import opened Prelude
  import opened PoolMachine

  /** A connection is only ever reached through its own key. */
  ghost predicate CacheKeys(conns: seq<Conn>, cache: map<Key, nat>)
    requires CacheTyped(cache, |conns|)
  {
    forall k :: k in cache ==> conns[cache[k]].key == k
  }

  /** The cache holds exactly the un-closed connections that were not replaced. */
  ghost predicate CacheExact(conns: seq<Conn>, cache: map<Key, nat>)
    requires CacheTyped(cache, |conns|)
  {
    && (forall k :: k in cache ==> !conns[cache[k]].closed && !conns[cache[k]].replaced)
    && (forall i :: 0 <= i < |conns| && !conns[i].closed && !conns[i].replaced ==>
          conns[i].key in cache && cache[conns[i].key] == i)
  }

  ghost predicate FlightKeys(conns: seq<Conn>, flights: map<Key, Flight>)
    requires FlightsTyped(flights, |conns|)
  {
    forall k :: k in flights && flights[k].Ready? ==> conns[flights[k].conn].key == k
  }

  ghost predicate GetKeys(conns: seq<Conn>, gets: map<nat, Get>)
    requires GetsTyped(gets, |conns|)
  {
    && (forall t :: t in gets && gets[t].Got? ==> conns[gets[t].conn].key == gets[t].key)
    && (forall t :: t in gets ==> gets[t].tries < MAX_TRIES)
  }

  ghost predicate Waits(gets: map<nat, Get>, t: nat, k: Key) {
    t in gets && gets[t].Waiting? && gets[t].key == k
  }

  /** Every flight has a caller, every waiting caller has a flight. */
  ghost predicate FlightsManned(gets: map<nat, Get>, flights: map<Key, Flight>) {
    && (forall k :: k in flights ==> exists t :: Waits(gets, t, k))
    && (forall t :: t in gets && gets[t].Waiting? ==> gets[t].key in flights)
  }

  /** `count` is the number of outstanding handles; a closed connection has none. */
  ghost predicate CountsExact(conns: seq<Conn>, handles: map<nat, nat>) {
    forall i :: 0 <= i < |conns| ==>
      && conns[i].count == |Preimage(handles, i)|
      && (conns[i].closed ==> conns[i].count == 0)
  }

  ghost predicate HandlesIssued(handles: map<nat, nat>, issued: nat) {
    forall h :: h in handles ==> h < issued
  }

  ghost predicate GotBy(gets: map<nat, Get>, t: nat, i: nat) {
    t in gets && gets[t].Got? && gets[t].conn == i
  }

  ghost predicate ReadyFor(flights: map<Key, Flight>, k: Key, i: nat) {
    k in flights && flights[k] == Ready(i)
  }

  /** Some Get is about to count the connection. */
  ghost predicate Pending(s: Pool, i: nat) {
    (exists t :: GotBy(s.gets, t, i)) || (exists k :: ReadyFor(s.flights, k, i))
  }

  /** A connection that is not closed is held or about to be. */
  ghost predicate NoLeak(s: Pool) {
    forall i :: 0 <= i < |s.conns| && !s.conns[i].closed ==> s.conns[i].count > 0 || Pending(s, i)
  }

  /** The pool closes a network connection once, after marking its entry closed. */
  ghost predicate ClosedOnce(conns: seq<Conn>, net: seq<Net>)
    requires |conns| == |net|
  {
    forall i :: 0 <= i < |conns| ==>
      && conns[i].closers + conns[i].poolCloses == (if conns[i].closed then 1 else 0)
      && (conns[i].poolCloses > 0 ==> net[i] == Shut)
  }

  ghost predicate Remembered(net: seq<Net>, open: seq<nat>, i: nat)
    requires i < |net|
  {
    net[i] == Shut || i in open
  }

  /** Replaced connections are shut or in openConns. */
  ghost predicate ReplacedRemembered(conns: seq<Conn>, net: seq<Net>, open: seq<nat>)
    requires |conns| == |net|
  {
    forall i :: 0 <= i < |conns| && conns[i].replaced ==> Remembered(net, open, i)
  }

  /** So are those about to be replaced. */
  ghost predicate DialingRemembered(
    cache: map<Key, nat>, flights: map<Key, Flight>, net: seq<Net>, open: seq<nat>)
    requires CacheTyped(cache, |net|)
  {
    forall k :: k in flights && flights[k] == Dialing && k in cache ==>
      Remembered(net, open, cache[k])
  }

  /** What a running Close(true) has passed is shut. */
  ghost predicate SweptShut(net: seq<Net>, open: seq<nat>, sweep: Option<nat>)
    requires OpenTyped(open, |net|)
    requires sweep.Some? ==> sweep.value <= |open|
  {
    sweep.Some? ==> forall j :: 0 <= j < sweep.value ==> net[open[j]] == Shut
  }

  ghost predicate Inv(s: Pool) {
    && Typed(s)
    && CacheKeys(s.conns, s.cache)
    && CacheExact(s.conns, s.cache)
    && FlightKeys(s.conns, s.flights)
    && GetKeys(s.conns, s.gets)
    && FlightsManned(s.gets, s.flights)
    && CountsExact(s.conns, s.handles)
    && HandlesIssued(s.handles, s.issued)
    && NoLeak(s)
    && ClosedOnce(s.conns, s.net)
    && ReplacedRemembered(s.conns, s.net, s.open)
    && DialingRemembered(s.cache, s.flights, s.net, s.open)
    && SweptShut(s.net, s.open, s.sweep)
  }

  lemma InitInv()
    ensures Inv(Init())
  {
  }

  /** What no event undoes. */
  ghost predicate Evolves(s: Pool, s': Pool)
    requires Typed(s) && Typed(s')
  {
    && |s.conns| <= |s'.conns|
    && forall i :: 0 <= i < |s.conns| ==>
         && s'.conns[i].key == s.conns[i].key
         && (s.conns[i].closed ==> s'.conns[i].closed)
         && (s.conns[i].replaced ==> s'.conns[i].replaced)
         && (s.net[i] == Shut ==> s'.net[i] == Shut)
  }

  lemma ReturnEvolves(s: Pool, h: nat)
    requires Typed(s) && h in s.handles
    ensures Evolves(s, ReturnStep(s, h))
  {
  }

  lemma PublishEvolves(s: Pool, k: Key, net: Net)
    requires Typed(s) && k in s.flights
    ensures Evolves(s, PublishStep(s, k, net))
  {
  }

  lemma NextEvolves(s: Pool, e: Event)
    requires Typed(s) && Enabled(s, e)
    ensures Evolves(s, Next(s, e))
  {
    match e
    case Return(h) => ReturnEvolves(s, h);
    case Publish(k, net) => PublishEvolves(s, k, net);
    case _ =>
  }

  lemma PublishKeepsCacheKeys(s: Pool, k: Key, net: Net)
    requires Typed(s) && k in s.flights && CacheKeys(s.conns, s.cache)
    ensures CacheKeys(PublishStep(s, k, net).conns, PublishStep(s, k, net).cache)
  {
  }

  lemma ReturnKeepsCacheKeys(s: Pool, h: nat)
    requires Typed(s) && h in s.handles && CacheKeys(s.conns, s.cache)
    ensures CacheKeys(ReturnStep(s, h).conns, ReturnStep(s, h).cache)
  {
  }

  lemma CacheKeysPreserved(s: Pool, e: Event)
    requires Typed(s) && Enabled(s, e) && CacheKeys(s.conns, s.cache)
    ensures CacheKeys(Next(s, e).conns, Next(s, e).cache)
  {
    match e
    case Publish(k, net) => PublishKeepsCacheKeys(s, k, net);
    case Return(h) => ReturnKeepsCacheKeys(s, h);
    case _ =>
  }

  lemma PublishKeepsCacheExact(s: Pool, k: Key, net: Net)
    requires Typed(s) && k in s.flights
    requires CacheKeys(s.conns, s.cache) && CacheExact(s.conns, s.cache)
    ensures CacheExact(PublishStep(s, k, net).conns, PublishStep(s, k, net).cache)
  {
  }

  lemma ReturnKeepsCacheExact(s: Pool, h: nat)
    requires Typed(s) && h in s.handles
    requires CacheKeys(s.conns, s.cache) && CacheExact(s.conns, s.cache)
    ensures CacheExact(ReturnStep(s, h).conns, ReturnStep(s, h).cache)
  {
  }

  lemma CacheExactPreserved(s: Pool, e: Event)
    requires Typed(s) && Enabled(s, e)
    requires CacheKeys(s.conns, s.cache) && CacheExact(s.conns, s.cache)
    ensures CacheExact(Next(s, e).conns, Next(s, e).cache)
  {
    match e
    case Publish(k, net) => PublishKeepsCacheExact(s, k, net);
    case Return(h) => ReturnKeepsCacheExact(s, h);
    case _ =>
  }

  lemma PublishKeepsFlightKeys(s: Pool, k: Key, net: Net)
    requires Typed(s) && k in s.flights && FlightKeys(s.conns, s.flights)
    ensures FlightKeys(PublishStep(s, k, net).conns, PublishStep(s, k, net).flights)
  {
  }

  lemma ReturnKeepsFlightKeys(s: Pool, h: nat)
    requires Typed(s) && h in s.handles && FlightKeys(s.conns, s.flights)
    ensures FlightKeys(ReturnStep(s, h).conns, ReturnStep(s, h).flights)
  {
  }

  lemma FlightKeysPreserved(s: Pool, e: Event)
    requires Typed(s) && Enabled(s, e) && FlightKeys(s.conns, s.flights) && CacheKeys(s.conns, s.cache)
    ensures FlightKeys(Next(s, e).conns, Next(s, e).flights)
  {
    match e
    case Publish(k, net) => PublishKeepsFlightKeys(s, k, net);
    case Return(h) => ReturnKeepsFlightKeys(s, h);
    case _ =>
  }

  lemma LandKeepsGetKeys(s: Pool, k: Key)
    requires Typed(s) && k in s.flights && GetKeys(s.conns, s.gets) && FlightKeys(s.conns, s.flights)
    ensures GetKeys(LandStep(s, k).conns, LandStep(s, k).gets)
  {
  }

  lemma PublishKeepsGetKeys(s: Pool, k: Key, net: Net)
    requires Typed(s) && k in s.flights && GetKeys(s.conns, s.gets)
    ensures GetKeys(PublishStep(s, k, net).conns, PublishStep(s, k, net).gets)
  {
  }

  lemma ReturnKeepsGetKeys(s: Pool, h: nat)
    requires Typed(s) && h in s.handles && GetKeys(s.conns, s.gets)
    ensures GetKeys(ReturnStep(s, h).conns, ReturnStep(s, h).gets)
  {
  }

  lemma GetKeysPreserved(s: Pool, e: Event)
    requires Typed(s) && Enabled(s, e) && GetKeys(s.conns, s.gets) && FlightKeys(s.conns, s.flights)
    ensures GetKeys(Next(s, e).conns, Next(s, e).gets)
  {
    match e
    case Land(k) => LandKeepsGetKeys(s, k);
    case Publish(k, net) => PublishKeepsGetKeys(s, k, net);
    case Return(h) => ReturnKeepsGetKeys(s, h);
    case Lookup(k) => assert LookupStep(s, k).gets == s.gets && LookupStep(s, k).conns == s.conns;
    case _ =>
  }

  lemma EnterKeepsFlights(s: Pool, t: nat)
    requires Typed(s) && Enabled(s, Enter(t)) && FlightsManned(s.gets, s.flights)
    ensures FlightsManned(Next(s, Enter(t)).gets, Next(s, Enter(t)).flights)
  {
    var s' := Next(s, Enter(t));
    forall k | k in s'.flights
      ensures exists t :: Waits(s'.gets, t, k)
    {
      if k in s.flights {
        var u :| Waits(s.gets, u, k);
        assert Waits(s'.gets, u, k);
      } else {
        assert Waits(s'.gets, t, k);
      }
    }
  }

  lemma LandKeepsFlights(s: Pool, key: Key)
    requires Typed(s) && Enabled(s, Land(key)) && FlightsManned(s.gets, s.flights)
    ensures FlightsManned(LandStep(s, key).gets, LandStep(s, key).flights)
  {
    var s' := LandStep(s, key);
    forall k | k in s'.flights
      ensures exists t :: Waits(s'.gets, t, k)
    {
      var t :| Waits(s.gets, t, k);
      assert Waits(s'.gets, t, k);
    }
  }

  /** Callers that do not wait may come and go, and a flight may reach its next stage. */
  lemma FlightsStay(gets: map<nat, Get>, flights: map<Key, Flight>, gets': map<nat, Get>, flights': map<Key, Flight>)
    requires FlightsManned(gets, flights) && flights'.Keys == flights.Keys
    requires forall t, k :: Waits(gets', t, k) <==> Waits(gets, t, k)
    ensures FlightsManned(gets', flights')
  {
    forall k | k in flights'
      ensures exists t :: Waits(gets', t, k)
    {
      var t :| Waits(gets, t, k);
      assert Waits(gets', t, k);
    }
    forall t | t in gets' && gets'[t].Waiting?
      ensures gets'[t].key in flights'
    {
      assert Waits(gets', t, gets'[t].key);
    }
  }

  /** A caller that is not in a flight starts, leaves or tries again. */
  lemma CallerKeepsFlights(s: Pool, e: Event)
    requires Typed(s) && Enabled(s, e) && FlightsManned(s.gets, s.flights) && (e.Begin? || e.Acquire? || e.Retry?)
    ensures FlightsManned(Next(s, e).gets, Next(s, e).flights)
  {
    FlightsStay(s.gets, s.flights, Next(s, e).gets, Next(s, e).flights);
  }

  lemma StageKeepsFlights(s: Pool, e: Event)
    requires Typed(s) && Enabled(s, e) && FlightsManned(s.gets, s.flights) && (e.Lookup? || e.DialFails? || e.Publish?)
    ensures FlightsManned(Next(s, e).gets, Next(s, e).flights)
  {
    assert Next(s, e).gets == s.gets;
    FlightsStay(s.gets, s.flights, s.gets, Next(s, e).flights);
  }

  lemma {:induction false} FlightsPreserved(s: Pool, e: Event)
    requires Typed(s) && Enabled(s, e) && FlightsManned(s.gets, s.flights)
    ensures FlightsManned(Next(s, e).gets, Next(s, e).flights)
  {
    match e
    case Enter(t) => EnterKeepsFlights(s, t);
    case Land(k) => LandKeepsFlights(s, k);
    case Begin(_, _) => CallerKeepsFlights(s, e);
    case Acquire(_) => CallerKeepsFlights(s, e);
    case Retry(_) => CallerKeepsFlights(s, e);
    case Lookup(_) => StageKeepsFlights(s, e);
    case DialFails(_) => StageKeepsFlights(s, e);
    case Publish(_, _) => StageKeepsFlights(s, e);
    case Return(h) => assert ReturnStep(s, h).gets == s.gets && ReturnStep(s, h).flights == s.flights;
    case _ =>
  }

  lemma AcquireKeepsCounts(s: Pool, t: nat)
    requires Typed(s) && t in s.gets && s.gets[t].Got? && !s.conns[s.gets[t].conn].closed
    requires CountsExact(s.conns, s.handles) && HandlesIssued(s.handles, s.issued)
    ensures CountsExact(AcquireStep(s, t).conns, AcquireStep(s, t).handles)
  {
    forall i | 0 <= i < |s.conns| {
      PreimageAdd(s.handles, s.issued, s.gets[t].conn, i);
    }
  }

  lemma ReturnKeepsCounts(s: Pool, h: nat)
    requires Typed(s) && h in s.handles && CountsExact(s.conns, s.handles)
    ensures CountsExact(ReturnStep(s, h).conns, ReturnStep(s, h).handles)
  {
    assert h in Preimage(s.handles, s.handles[h]);
    forall i | 0 <= i < |s.conns| {
      PreimageRemove(s.handles, h, i);
    }
  }

  lemma PublishKeepsCounts(s: Pool, k: Key, net: Net)
    requires Typed(s) && k in s.flights && CountsExact(s.conns, s.handles)
    ensures CountsExact(PublishStep(s, k, net).conns, PublishStep(s, k, net).handles)
  {
    assert Preimage(s.handles, |s.conns|) == {};
  }

  lemma CountsPreserved(s: Pool, e: Event)
    requires Typed(s) && Enabled(s, e)
    requires CountsExact(s.conns, s.handles) && HandlesIssued(s.handles, s.issued)
    ensures CountsExact(Next(s, e).conns, Next(s, e).handles)
    ensures HandlesIssued(Next(s, e).handles, Next(s, e).issued)
  {
    match e
    case Acquire(t) => AcquireKeepsCounts(s, t);
    case Return(h) => ReturnKeepsCounts(s, h);
    case Publish(k, net) => PublishKeepsCounts(s, k, net);
    case _ =>
  }

  lemma GotPersists(s: Pool, e: Event, t: nat, i: nat)
    requires Typed(s) && Enabled(s, e) && GotBy(s.gets, t, i)
    requires i < |s.conns| && !s.conns[i].closed
    requires e.Acquire? ==> s.gets[e.t].conn != i
    ensures GotBy(Next(s, e).gets, t, i)
  {
  }

  lemma ReadyPersists(s: Pool, e: Event, k: Key, i: nat)
    requires Typed(s) && Enabled(s, e) && ReadyFor(s.flights, k, i) && e != Land(k)
    ensures ReadyFor(Next(s, e).flights, k, i)
  {
    match e
    case Return(h) => assert ReturnStep(s, h).flights == s.flights;
    case _ =>
  }

  /** A pending connection stays pending until it is counted or found closed. */
  lemma PendingPersists(s: Pool, e: Event, i: nat)
    requires Typed(s) && Enabled(s, e) && FlightsManned(s.gets, s.flights) && Pending(s, i)
    requires i < |s.conns| && !s.conns[i].closed
    requires e.Acquire? ==> s.gets[e.t].conn != i
    ensures Pending(Next(s, e), i)
  {
    if t :| GotBy(s.gets, t, i) {
      GotPersists(s, e, t, i);
    } else {
      var k :| ReadyFor(s.flights, k, i);
      if e == Land(k) {
        var t :| Waits(s.gets, t, k);
        assert GotBy(LandStep(s, k).gets, t, i);
      } else {
        ReadyPersists(s, e, k, i);
      }
    }
  }

  lemma {:induction false} NoLeakPreserved(s: Pool, e: Event)
    requires Typed(s) && Enabled(s, e) && FlightsManned(s.gets, s.flights)
    requires CountsExact(s.conns, s.handles) && NoLeak(s)
    ensures NoLeak(Next(s, e))
  {
    var s' := Next(s, e);
    forall i | 0 <= i < |s'.conns| && !s'.conns[i].closed
      ensures s'.conns[i].count > 0 || Pending(s', i)
    {
      if i == |s.conns| {
        assert ReadyFor(s'.flights, e.key, i);
      } else if s'.conns[i].count == 0 {
        PendingPersists(s, e, i);
      }
    }
  }

  lemma ReturnKeepsClosedOnce(s: Pool, h: nat)
    requires Typed(s) && h in s.handles && CountsExact(s.conns, s.handles) && ClosedOnce(s.conns, s.net)
    ensures ClosedOnce(ReturnStep(s, h).conns, ReturnStep(s, h).net)
  {
    assert h in Preimage(s.handles, s.handles[h]);
  }

  lemma ClosedOncePreserved(s: Pool, e: Event)
    requires Typed(s) && Enabled(s, e) && CountsExact(s.conns, s.handles) && ClosedOnce(s.conns, s.net)
    ensures ClosedOnce(Next(s, e).conns, Next(s, e).net)
  {
    match e
    case Return(h) => ReturnKeepsClosedOnce(s, h);
    case Publish(k, net) => assert ClosedOnce(PublishStep(s, k, net).conns, PublishStep(s, k, net).net);
    case _ =>
  }

  lemma PublishKeepsReplaced(s: Pool, k: Key, net: Net)
    requires Typed(s) && k in s.flights && s.flights[k] == Dialing
    requires ReplacedRemembered(s.conns, s.net, s.open)
    requires DialingRemembered(s.cache, s.flights, s.net, s.open)
    ensures ReplacedRemembered(PublishStep(s, k, net).conns, PublishStep(s, k, net).net, s.open)
  {
  }

  lemma LookupKeepsReplaced(s: Pool, k: Key)
    requires Typed(s) && k in s.flights && (MustRemember(s, k) ==> s.sweep == None)
    requires ReplacedRemembered(s.conns, s.net, s.open)
    ensures ReplacedRemembered(s.conns, s.net, LookupStep(s, k).open)
  {
  }

  lemma ReplacedPreserved(s: Pool, e: Event)
    requires Typed(s) && Enabled(s, e) && ReplacedRemembered(s.conns, s.net, s.open)
    requires DialingRemembered(s.cache, s.flights, s.net, s.open)
    ensures ReplacedRemembered(Next(s, e).conns, Next(s, e).net, Next(s, e).open)
  {
    match e
    case Publish(k, net) => PublishKeepsReplaced(s, k, net);
    case Return(h) => assert ReplacedRemembered(ReturnStep(s, h).conns, s.net, s.open);
    case Lookup(k) => LookupKeepsReplaced(s, k);
    case NcClose(c) => assert ReplacedRemembered(CloseStep(s, c).conns, CloseStep(s, c).net, s.open);
    case Acquire(t) => assert ReplacedRemembered(AcquireStep(s, t).conns, s.net, s.open);
    case _ =>
  }

  lemma LookupKeepsDialing(s: Pool, k: Key)
    requires Typed(s) && k in s.flights && (MustRemember(s, k) ==> s.sweep == None)
    requires DialingRemembered(s.cache, s.flights, s.net, s.open)
    ensures var s' := LookupStep(s, k); DialingRemembered(s'.cache, s'.flights, s'.net, s'.open)
  {
  }

  lemma PublishKeepsDialing(s: Pool, k: Key, net: Net)
    requires Typed(s) && k in s.flights
    requires DialingRemembered(s.cache, s.flights, s.net, s.open)
    ensures var s' := PublishStep(s, k, net); DialingRemembered(s'.cache, s'.flights, s'.net, s'.open)
  {
  }

  lemma DialingPreserved(s: Pool, e: Event)
    requires Typed(s) && Enabled(s, e) && DialingRemembered(s.cache, s.flights, s.net, s.open)
    ensures DialingRemembered(Next(s, e).cache, Next(s, e).flights, Next(s, e).net, Next(s, e).open)
  {
    match e
    case Lookup(k) => LookupKeepsDialing(s, k);
    case Publish(k, net) => PublishKeepsDialing(s, k, net);
    case _ =>
  }

  lemma LookupKeepsSwept(s: Pool, k: Key)
    requires Typed(s) && k in s.flights && (MustRemember(s, k) ==> s.sweep == None)
    requires SweptShut(s.net, s.open, s.sweep)
    ensures var s' := LookupStep(s, k); SweptShut(s'.net, s'.open, s'.sweep)
  {
  }

  lemma PublishKeepsSwept(s: Pool, k: Key, net: Net)
    requires Typed(s) && k in s.flights && SweptShut(s.net, s.open, s.sweep)
    ensures var s' := PublishStep(s, k, net); SweptShut(s'.net, s'.open, s'.sweep)
  {
  }

  lemma SweepPreserved(s: Pool, e: Event)
    requires Typed(s) && Enabled(s, e) && SweptShut(s.net, s.open, s.sweep)
    ensures SweptShut(Next(s, e).net, Next(s, e).open, Next(s, e).sweep)
  {
    match e
    case Lookup(k) => LookupKeepsSwept(s, k);
    case Publish(k, net) => PublishKeepsSwept(s, k, net);
    case _ =>
  }

  lemma NextInv(s: Pool, e: Event)
    requires Inv(s) && Enabled(s, e)
    ensures Inv(Next(s, e))
  {
    CacheKeysPreserved(s, e);
    CacheExactPreserved(s, e);
    FlightKeysPreserved(s, e);
    GetKeysPreserved(s, e);
    FlightsPreserved(s, e);
    CountsPreserved(s, e);
    NoLeakPreserved(s, e);
    ClosedOncePreserved(s, e);
    ReplacedPreserved(s, e);
    DialingPreserved(s, e);
    SweepPreserved(s, e);
  }
}

/** What a Get that gives up has seen. Two attempts in succession can fail on one connection,
    because the second may join a flight that looked the connection up before it was closed;
    but every second attempt costs a connection that was closed while the Get was running. */
module PoolExhaustion {
  import opened Prelude
  import opened PoolMachine
  import opened PoolInvariant
  import opened PoolRuns

  /** The closed connections of the key. */
  ghost function ClosedOf(s: Pool, key: Key): set<nat> {
    set c | 0 <= c < |s.conns| && s.conns[c].closed && s.conns[c].key == key
  }

  /** The flight of the key, if it has a result, does not hand out one of the connections. */
  ghost predicate Avoids(flights: map<Key, Flight>, key: Key, shunned: set<nat>) {
    key in flights && flights[key].Ready? ==> flights[key].conn !in shunned
  }

  /** `shunned` are the connections that were closed when the latest even attempt landed, or
      before. The flight of the odd attempt after it started later, and avoids them. With
      every second failed attempt there is one more. */
  ghost predicate Burnt(s: Pool, t: nat, shunned: set<nat>, base: nat)
  {
    && t in s.gets
    && var g := s.gets[t];
       && shunned <= ClosedOf(s, g.key) && |shunned| >= base + g.tries / 2
       && (g.tries % 2 == 1 || g.Got? ==> Avoids(s.flights, g.key, shunned))
       && (g.tries % 2 == 1 && g.Got? ==> g.conn !in shunned)
  }

  lemma ClosedGrows(s: Pool, e: Event, key: Key)
    requires Typed(s) && Enabled(s, e)
    ensures ClosedOf(s, key) <= ClosedOf(Next(s, e), key)
  {
    NextEvolves(s, e);
  }

  /** Connections that are closed do not get into a flight any more. */
  lemma AvoidsStep(s: Pool, e: Event, key: Key, shunned: set<nat>)
    requires Typed(s) && CacheExact(s.conns, s.cache) && Enabled(s, e)
    requires shunned <= ClosedOf(s, key) && Avoids(s.flights, key, shunned)
    ensures Avoids(Next(s, e).flights, key, shunned)
  {
    match e
    case Lookup(k) =>
    case Publish(k, net) => assert PublishStep(s, k, net).flights == s.flights[k := Ready(|s.conns|)];
    case Return(h) => assert ReturnStep(s, h).flights == s.flights;
    case _ =>
  }

  /** A step that leaves the caller's attempt as it is. */
  lemma BurntStays(s: Pool, e: Event, t: nat, shunned: set<nat>, base: nat)
    requires Inv(s) && Enabled(s, e) && Burnt(s, t, shunned, base)
    requires t in Next(s, e).gets && Next(s, e).gets[t].tries == s.gets[t].tries
    requires Next(s, e).gets[t].key == s.gets[t].key
    requires Next(s, e).gets[t].Got? ==> Next(s, e).gets[t] == s.gets[t]
    ensures Burnt(Next(s, e), t, shunned, base)
  {
    var key := s.gets[t].key;
    ClosedGrows(s, e, key);
    if Avoids(s.flights, key, shunned) {
      AvoidsStep(s, e, key, shunned);
    }
  }

  /** The caller has a connection: after an even attempt what is closed now is shunned, after
      an odd one the connection is not among the shunned. */
  lemma BurntLands(s: Pool, t: nat, shunned: set<nat>, base: nat) returns (more: set<nat>)
    requires Inv(s) && Burnt(s, t, shunned, base) && s.gets[t].Waiting? && Enabled(s, Land(s.gets[t].key))
    ensures t in Next(s, Land(s.gets[t].key)).gets ==> Burnt(Next(s, Land(s.gets[t].key)), t, more, base)
  {
    var g := s.gets[t];
    if g.tries % 2 == 0 {
      more := ClosedOf(s, g.key);
      SubsetSize(shunned, more);
    } else {
      more := shunned;
    }
    ClosedGrows(s, Land(g.key), g.key);
  }

  /** An odd attempt that fails has found one more connection closed. */
  lemma BurntRetries(s: Pool, t: nat, shunned: set<nat>, base: nat) returns (more: set<nat>)
    requires Inv(s) && Burnt(s, t, shunned, base) && Enabled(s, Retry(t))
    ensures more <= ClosedOf(Next(s, Retry(t)), s.gets[t].key)
    ensures |more| >= base + (s.gets[t].tries + 1) / 2
    ensures t in Next(s, Retry(t)).gets ==> Burnt(Next(s, Retry(t)), t, more, base)
  {
    var g := s.gets[t];
    more := if g.tries % 2 == 0 then shunned else shunned + {g.conn};
  }

  lemma {:induction false} BurntStep(s: Pool, e: Event, t: nat, shunned: set<nat>, base: nat)
    returns (more: set<nat>)
    requires Inv(s) && Enabled(s, e) && Burnt(s, t, shunned, base) && !(e.Begin? && e.t == t)
    ensures t in Next(s, e).gets ==> Burnt(Next(s, e), t, more, base) && Next(s, e).gets[t].key == s.gets[t].key
    ensures e == Retry(t) && t !in Next(s, e).gets ==>
              |ClosedOf(Next(s, e), s.gets[t].key)| >= base + MAX_TRIES / 2
  {
    if e == Retry(t) {
      more := BurntRetries(s, t, shunned, base);
      SubsetSize(more, ClosedOf(Next(s, e), s.gets[t].key));
      TriesStep(s, e, t);
    } else if s.gets[t].Waiting? && e == Land(s.gets[t].key) {
      more := BurntLands(s, t, shunned, base);
    } else {
      more := shunned;
      if t in Next(s, e).gets {
        StaysPut(s, e, t);
        BurntStays(s, e, t, shunned, base);
      }
    }
  }

  lemma StaysPut(s: Pool, e: Event, t: nat)
    requires Typed(s) && Enabled(s, e) && t in s.gets && t in Next(s, e).gets
    requires !(e.Begin? && e.t == t) && e != Retry(t) && !(s.gets[t].Waiting? && e == Land(s.gets[t].key))
    ensures var g, g' := s.gets[t], Next(s, e).gets[t];
            g'.tries == g.tries && g'.key == g.key && (g'.Got? ==> g' == g)
  {
  }

  // ----- Over a whole Get -----

  lemma {:induction false} ClosedGrowsOn(s: Pool, evs: seq<Event>, key: Key)
    requires Typed(s) && Legal(s, evs)
    ensures ClosedOf(s, key) <= ClosedOf(Run(s, evs), key)
    decreases |evs|
  {
    if evs != [] {
      ClosedGrows(s, evs[0], key);
      ClosedGrowsOn(Next(s, evs[0]), evs[1..], key);
    }
  }

  /** The steps are those of one Get of the caller, from its start on, and of others. */
  ghost predicate OneGet(evs: seq<Event>, key: Key, t: nat) {
    evs != [] && evs[0] == Begin(t, key) && forall e :: e in evs[1..] ==> !(e.Begin? && e.t == t)
  }

  lemma OneGetOn(evs: seq<Event>, more: seq<Event>, key: Key, t: nat)
    requires OneGet(evs, key, t) && forall e :: e in more ==> !(e.Begin? && e.t == t)
    ensures OneGet(evs + more, key, t)
  {
    assert (evs + more)[1..] == evs[1..] + more;
  }

  lemma {:induction false} BurntUp(s: Pool, evs: seq<Event>, t: nat, shunned: set<nat>, base: nat)
    requires Inv(s) && Legal(s, evs) && Burnt(s, t, shunned, base)
    requires forall e :: e in evs ==> !(e.Begin? && e.t == t)
    requires s.gets[t].tries + Retries(evs, t) == MAX_TRIES
    ensures |ClosedOf(Run(s, evs), s.gets[t].key)| >= base + MAX_TRIES / 2
    decreases |evs|
  {
    var e, key := evs[0], s.gets[t].key;
    var next := Next(s, e);
    assert e in evs;
    NextInv(s, e);
    TriesStep(s, e, t);
    var more := BurntStep(s, e, t, shunned, base);
    if t in next.gets {
      BurntUp(next, evs[1..], t, more, base);
    } else {
      GoneStaysGone(next, evs[1..], t);
      ClosedGrowsOn(next, evs[1..], key);
      SubsetSize(ClosedOf(next, key), ClosedOf(Run(next, evs[1..]), key));
    }
  }

  /** The connections of the key that are closed now and were not then. */
  ghost function ClosedSince(s: Pool, now: Pool, key: Key): set<nat> {
    ClosedOf(now, key) - ClosedOf(s, key)
  }

  /** While a Get fails ten times, at least five connections of its key are closed. */
  lemma ExhaustedGet(s: Pool, evs: seq<Event>, key: Key, t: nat)
    requires Inv(s) && Legal(s, evs) && OneGet(evs, key, t) && Retries(evs, t) == 10
    ensures |ClosedSince(s, Run(s, evs), key)| >= 5
  {
    var before, begun := ClosedOf(s, key), Next(s, Begin(t, key));
    NextInv(s, Begin(t, key));
    assert before <= ClosedOf(begun, key);
    BurntUp(begun, evs[1..], t, before, |before|);
    ClosedGrowsOn(s, evs, key);
    var after := ClosedOf(Run(s, evs), key);
    assert after * before == before;
  }

  // ----- Who closes them -----

  /** The step is the last return of the connection. */
  ghost predicate Closes(s: Pool, e: Event, c: nat)
    requires Typed(s) && Enabled(s, e)
  {
    e.Return? && s.handles[e.h] == c && s.conns[c].count == 1
  }

  /** The last return of the connection is among the steps. */
  ghost predicate ClosesIn(s: Pool, evs: seq<Event>, c: nat)
    requires Typed(s) && Legal(s, evs)
    decreases |evs|
  {
    evs != [] && (Closes(s, evs[0], c) || ClosesIn(Next(s, evs[0]), evs[1..], c))
  }

  ghost predicate IsClosed(s: Pool, c: nat) {
    c < |s.conns| && s.conns[c].closed
  }

  lemma ReturnCloses(s: Pool, h: nat, c: nat)
    requires Inv(s) && h in s.handles
    ensures IsClosed(ReturnStep(s, h), c) <==> IsClosed(s, c) || Closes(s, Return(h), c)
    ensures IsClosed(s, c) ==> !Closes(s, Return(h), c)
  {
    assert h in Preimage(s.handles, s.handles[h]);
  }

  lemma OthersCloseNothing(s: Pool, e: Event, c: nat)
    requires Typed(s) && Enabled(s, e) && !e.Return?
    ensures IsClosed(Next(s, e), c) <==> IsClosed(s, c)
  {
    match e
    case Publish(k, net) => assert IsClosed(PublishStep(s, k, net), c) <==> IsClosed(s, c);
    case Lookup(k) => assert LookupStep(s, k).conns == s.conns;
    case _ =>
  }

  lemma ClosesStep(s: Pool, e: Event, c: nat)
    requires Inv(s) && Enabled(s, e)
    ensures IsClosed(Next(s, e), c) <==> IsClosed(s, c) || Closes(s, e, c)
    ensures IsClosed(s, c) ==> !Closes(s, e, c)
  {
    if e.Return? {
      ReturnCloses(s, e.h, c);
    } else {
      OthersCloseNothing(s, e, c);
    }
  }

  /** A connection is closed in the course of a run exactly if its last return is among the
      steps. */
  lemma {:induction false} ClosedByReturn(s: Pool, evs: seq<Event>, c: nat)
    requires Inv(s) && Legal(s, evs)
    ensures IsClosed(Run(s, evs), c) && !IsClosed(s, c) <==> ClosesIn(s, evs, c)
    decreases |evs|
  {
    if evs != [] {
      NextInv(s, evs[0]);
      ClosesStep(s, evs[0], c);
      ClosedByReturn(Next(s, evs[0]), evs[1..], c);
      if IsClosed(s, c) || Closes(s, evs[0], c) {
        NotTwice(Next(s, evs[0]), evs[1..], c);
      }
    }
  }

  lemma {:induction false} NotTwice(s: Pool, evs: seq<Event>, c: nat)
    requires Inv(s) && Legal(s, evs) && IsClosed(s, c)
    ensures IsClosed(Run(s, evs), c) && !ClosesIn(s, evs, c)
    decreases |evs|
  {
    if evs != [] {
      NextInv(s, evs[0]);
      ClosesStep(s, evs[0], c);
      NotTwice(Next(s, evs[0]), evs[1..], c);
    }
  }
}

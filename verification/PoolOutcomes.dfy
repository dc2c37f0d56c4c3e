/** How a flight ends, for everybody who waits for it, and what the network and the cache
    inspection do to connections. */
module PoolOutcomes {
  import opened Prelude
  import opened PoolMachine
  import opened PoolInvariant
  import opened PoolRuns

  /** A dial that fails ends the flight, and with it the Get of every caller that waits for it.
      Nothing else changes. */
  lemma DialFailureEndsGets(s: Pool, key: Key)
    requires Typed(s) && key in s.flights && s.flights[key] == Dialing
    ensures Legal(s, [DialFails(key), Land(key)])
    ensures var r := Run(s, [DialFails(key), Land(key)]);
            && key !in r.flights && (forall t :: Waits(s.gets, t, key) ==> t !in r.gets)
            && (forall t :: t in s.gets && !Waits(s.gets, t, key) ==> t in r.gets && r.gets[t] == s.gets[t])
            && r.handles == s.handles && r.conns == s.conns && r.net == s.net && r.cache == s.cache && r.open == s.open
  {
    RunTwo(s, DialFails(key), Land(key));
  }

  /** A dial that succeeds ends the flight, and every caller that waits for it has the new
      connection, which is cached under the key. */
  lemma DialServesWaiters(s: Pool, key: Key, net: Net)
    requires Typed(s) && key in s.flights && s.flights[key] == Dialing
    ensures Legal(s, [Publish(key, net), Land(key)])
    ensures var r := Run(s, [Publish(key, net), Land(key)]);
            && |r.conns| == |s.conns| + 1 && key in r.cache && r.cache[key] == |s.conns| && r.net == s.net + [net]
            && r.conns[|s.conns|].key == key && !r.conns[|s.conns|].closed && r.conns[|s.conns|].count == 0
            && key !in r.flights
            && (forall t :: Waits(s.gets, t, key) ==> t in r.gets && r.gets[t] == Got(key, s.gets[t].tries, |s.conns|))
            && (forall t :: t in s.gets && !Waits(s.gets, t, key) ==> t in r.gets && r.gets[t] == s.gets[t])
  {
    RunTwo(s, Publish(key, net), Land(key));
  }

  /** So does a look at the cache that finds a connected entry. */
  lemma CacheServesWaiters(s: Pool, key: Key)
    requires Typed(s) && key in s.flights && s.flights[key] == Looking
    requires key in s.cache && s.net[s.cache[key]] == Connected
    ensures Legal(s, [Lookup(key), Land(key)])
    ensures var r := Run(s, [Lookup(key), Land(key)]);
            && r.conns == s.conns && r.cache == s.cache && r.open == s.open && key !in r.flights
            && (forall t :: Waits(s.gets, t, key) ==>
                  t in r.gets && r.gets[t] == Got(key, s.gets[t].tries, s.cache[key]))
  {
    RunTwo(s, Lookup(key), Land(key));
  }

  /** A look that finds a dropped entry puts it in front of openConns. The shut entries leave
      openConns, the others stay. */
  lemma LookupRemembers(s: Pool, key: Key)
    requires Typed(s) && Enabled(s, Lookup(key)) && key in s.cache && s.net[s.cache[key]] == Dropped
    ensures var r := Next(s, Lookup(key));
            && r.open != [] && r.open[0] == s.cache[key] && r.flights[key] == Dialing
            && (forall i :: 0 <= i < |r.open| ==> r.net[r.open[i]] != Shut)
            && (forall c :: c in s.open && s.net[c] != Shut ==> c in r.open)
            && (forall c :: c in r.open ==> c in s.open || c == s.cache[key])
  {
  }

  lemma UnshutSnoc(net: seq<Net>, open: seq<nat>, c: nat)
    requires OpenTyped(open, |net|) && c < |net|
    ensures OpenTyped(open + [c], |net|)
    ensures Unshut(net, open + [c]) == if net[c] != Shut then Unshut(net, open) + [c] else Unshut(net, open)
  {
    assert (open + [c])[..|open|] == open;
  }

  lemma LastApart(xs: seq<nat>, ys: seq<nat>)
    requires ys != []
    ensures var init, last := ys[..|ys| - 1], ys[|ys| - 1];
            ys == init + [last] && xs + ys == xs + init + [last]
  {
  }

  lemma AllTyped(xs: seq<nat>, ys: seq<nat>, n: nat)
    requires OpenTyped(xs, n) && OpenTyped(ys, n)
    ensures OpenTyped(xs + ys, n)
  {
  }

  /** In the order in which they were. */
  lemma {:induction false} UnshutInOrder(net: seq<Net>, xs: seq<nat>, ys: seq<nat>)
    requires OpenTyped(xs + ys, |net|) && OpenTyped(xs, |net|) && OpenTyped(ys, |net|)
    ensures Unshut(net, xs + ys) == Unshut(net, xs) + Unshut(net, ys)
    decreases |ys|
  {
    if ys == [] {
      assert xs + ys == xs;
    } else {
      var init, last := ys[..|ys| - 1], ys[|ys| - 1];
      LastApart(xs, ys);
      AllTyped(xs, init, |net|);
      UnshutInOrder(net, xs, init);
      UnshutSnoc(net, xs + init, last);
      UnshutSnoc(net, init, last);
    }
  }

  /** Who changes the state of a connection: the network, its owner's close, or the sweep. */
  lemma NetSteps(s: Pool, e: Event, c: nat)
    requires Typed(s) && Enabled(s, e) && c < |s.conns|
    ensures Next(s, e).net[c] ==
            if e == Drop(c) then Dropped
            else if e == Reconnect(c) then Connected
            else if e == Shutdown(c) || e == NcClose(c) || (e == SweepNext && s.open[s.sweep.value] == c) then Shut
            else s.net[c]
  {
    match e
    case Lookup(k) => assert LookupStep(s, k).net == s.net;
    case Return(h) => assert ReturnStep(s, h).net == s.net;
    case _ =>
  }

  /** A return counts its connection down by one: the count never wraps around. */
  lemma ReturnsNeverWrap(s: Pool, h: nat)
    requires Inv(s) && h in s.handles
    ensures var c := s.handles[h];
            && 0 < s.conns[c].count && Next(s, Return(h)).conns[c].count == s.conns[c].count - 1
            && (Next(s, Return(h)).conns[c].closed <==> s.conns[c].count == 1)
  {
    assert h in Preimage(s.handles, s.handles[h]);
  }
}

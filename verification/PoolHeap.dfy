/** The pool as mutable objects. Each method is one critical section of the source and
    is proved to take the step of the same name of the pool machine. */
module PoolHeap {
  import opened Prelude
  import opened PoolMachine
  import opened PoolInvariant

  /** An entry of the pool together with the state of its network connection. */
  class PooledConn {
    const id: nat
    const key: Key
    var count: nat
    var closed: bool
    var nc: Net
    ghost var replaced: bool
    ghost var closers: nat
    ghost var poolCloses: nat

    constructor (id: nat, key: Key, nc: Net)
      ensures this.id == id && this.key == key && this.nc == nc
      ensures Entry() == Conn(key, 0, false, false, 0, 0)
    {
      this.id := id;
      this.key := key;
      this.nc := nc;
      count, closed, replaced, closers, poolCloses := 0, false, false, 0, 0;
    }

    ghost function Entry(): Conn
      reads this
    {
      Conn(key, count, closed, replaced, closers, poolCloses)
    }
  }

  ghost function Entries(pcs: seq<PooledConn>): seq<Conn>
    reads pcs
  {
    seq(|pcs|, i requires 0 <= i < |pcs| reads pcs => pcs[i].Entry())
  }

  ghost function Nets(pcs: seq<PooledConn>): seq<Net>
    reads pcs
  {
    seq(|pcs|, i requires 0 <= i < |pcs| reads pcs => pcs[i].nc)
  }

  ghost function Cached(cache: map<Key, PooledConn>): map<Key, nat> {
    map k | k in cache :: cache[k].id
  }

  class NatsConnPool {
    var cache: map<Key, PooledConn>
    var openConns: seq<PooledConn>

    /** Every entry ever created, and the progress of the calls that are running: what the
        source keeps on the heap and on the callers' stacks. */
    var all: seq<PooledConn>
    var gets: map<nat, Get>
    var flights: map<Key, Flight>
    var handles: map<nat, nat>
    var issued: nat
    var sweep: Option<nat>

    ghost function State(): Pool
      reads this, all
    {
      Pool(Entries(all), Nets(all), Cached(cache), Ids(openConns), gets, flights, handles, issued, sweep)
    }

    ghost predicate Known(pc: PooledConn)
      reads this
    {
      pc.id < |all| && all[pc.id] == pc
    }

    ghost predicate Valid()
      reads this, all
      ensures Valid() ==> Typed(State())
    {
      && (forall i :: 0 <= i < |all| ==> all[i].id == i)
      && (forall k :: k in cache ==> Known(cache[k]))
      && (forall i :: 0 <= i < |openConns| ==> Known(openConns[i]))
      && GetsTyped(gets, |all|) && FlightsTyped(flights, |all|) && HandlesTyped(handles, |all|)
      && (sweep.Some? ==> sweep.value <= |openConns|)
    }

    constructor ()
      ensures Valid() && State() == Init()
    {
      cache, openConns, all := map[], [], [];
      gets, flights, handles, issued, sweep := map[], map[], map[], 0, None;
    }

    /** The entries whose network connection is not shut, in order. */
    method KeepUnshut(pcs: seq<PooledConn>, ghost net: seq<Net>) returns (kept: seq<PooledConn>)
      requires forall i :: 0 <= i < |pcs| ==> Known(pcs[i]) && pcs[i].id < |net| && net[pcs[i].id] == pcs[i].nc
      ensures forall i :: 0 <= i < |kept| ==> Known(kept[i])
      ensures Ids(kept) == Unshut(net, Ids(pcs))
    {
      kept := [];
      for i := 0 to |pcs|
        invariant forall j :: 0 <= j < |kept| ==> Known(kept[j])
        invariant Ids(kept) == Unshut(net, Ids(pcs[..i]))
      {
        assert Ids(pcs[..i + 1])[..i] == Ids(pcs[..i]);
        if pcs[i].nc != Shut {
          kept := kept + [pcs[i]];
        }
      }
      assert pcs[..|pcs|] == pcs;
    }

    /** Put a disconnected entry at the front of openConns and drop the shut ones. */
    method Remember(pc: PooledConn)
      requires Valid() && Known(pc) && sweep == None
      modifies this`openConns
      ensures Valid() && State() == PoolMachine.Remember(old(State()), pc.id)
    {
      ghost var before := State();
      ghost var ids := Ids(openConns);
      var kept := KeepUnshut(openConns, before.net);
      assert Ids(kept) == Unshut(before.net, ids);
      openConns := [pc] + kept;
      IdsCons(pc, kept);
    }

    /** The closure's look at the cache. The result is the connection to hand out, if any. */
    method Lookup(key: Key) returns (found: Option<PooledConn>)
      requires Valid() && key in flights && flights[key] == Looking
      requires MustRemember(State(), key) ==> sweep == None
      modifies this`flights, this`openConns
      ensures Valid() && State() == LookupStep(old(State()), key)
      ensures found.Some? ==> Known(found.value) && flights[key] == Ready(found.value.id)
      ensures found.None? ==> flights[key] == Dialing
    {
      if key in cache {
        var pc := cache[key];
        assert State().cache[key] == pc.id && State().net[pc.id] == pc.nc;
        if pc.nc == Connected {
          flights := flights[key := Ready(pc.id)];
          return Some(pc);
        }
        if pc.nc != Shut {
          Remember(pc);
        }
      }
      flights := flights[key := Dialing];
      return None;
    }

    /** Ghost note that the cached entry of the key is about to be replaced. */
    ghost method NoteReplaced(key: Key)
      requires Valid()
      modifies all`replaced
      ensures Valid() && State() == MarkReplaced(old(State()), key)
    {
      ghost var before := State();
      if key in cache {
        cache[key].replaced := true;
        assert State().conns == MarkReplaced(before, key).conns;
        assert State().net == before.net;
      }
    }

    method Create(key: Key, nc: Net) returns (pc: PooledConn)
      requires Valid()
      modifies this`all
      ensures Valid() && fresh(pc) && Known(pc) && pc.id == old(|all|)
      ensures State() == PoolMachine.Create(old(State()), key, nc)
      ensures all == old(all) + [pc]
    {
      ghost var before := State();
      pc := new PooledConn(|all|, key, nc);
      all := all + [pc];
      assert State().conns == before.conns + [pc.Entry()];
      assert State().net == before.net + [nc];
      assert State().cache == before.cache && State().open == before.open;
    }

    /** The new entry takes the key's place in the cache and is the flight's result. */
    method Insert(key: Key, pc: PooledConn)
      requires Valid() && Known(pc)
      modifies this`cache, this`flights
      ensures Valid() && cache == old(cache)[key := pc]
      ensures State() == old(State()).(
                cache := old(State()).cache[key := pc.id], flights := old(State()).flights[key := Ready(pc.id)])
    {
      cache := cache[key := pc];
      flights := flights[key := Ready(pc.id)];
      assert Cached(cache) == Cached(old(cache))[key := pc.id];
    }

    /** nats.Connect has succeeded with a connection in state nc: insert it. */
    method Publish(key: Key, nc: Net) returns (pc: PooledConn)
      requires Valid() && key in flights && flights[key] == Dialing
      modifies this`cache, this`flights, this`all, all`replaced
      ensures Valid() && State() == PublishStep(old(State()), key, nc)
      ensures fresh(pc) && all == old(all) + [pc] && cache == old(cache)[key := pc]
    {
      NoteReplaced(key);
      pc := Create(key, nc);
      Insert(key, pc);
    }

    method CountUp(pc: PooledConn)
      requires Valid() && Known(pc)
      modifies pc`count
      ensures Valid() && State() == PoolMachine.CountUp(old(State()), pc.id)
    {
      ghost var before := State();
      pc.count := pc.count + 1;
      assert State().conns == PoolMachine.CountUp(before, pc.id).conns;
      assert State().net == before.net && State().cache == before.cache && State().open == before.open;
    }

    /** Get counts its connection, unless it was closed in between. */
    method Acquire(pc: PooledConn, t: nat) returns (ok: bool)
      requires Valid() && Known(pc) && GotBy(gets, t, pc.id)
      modifies this`gets, this`handles, this`issued, pc`count
      ensures Valid() && ok == old(!pc.closed)
      ensures State() == if ok then AcquireStep(old(State()), t) else RetryStep(old(State()), t)
    {
      if pc.closed {
        var g := gets[t];
        gets := if g.tries + 1 < MAX_TRIES then gets[t := Trying(g.key, g.tries + 1)] else gets - {t};
        return false;
      }
      CountUp(pc);
      gets := gets - {t};
      handles := handles[issued := pc.id];
      issued := issued + 1;
      return true;
    }

    /** Delete the entry from the cache if it is still there. */
    method Uncache(pc: PooledConn)
      requires Valid() && Known(pc)
      modifies this`cache
      ensures Valid() && State() == PoolMachine.Uncache(old(State()), pc.id)
    {
      ghost var before := State();
      if pc.key in cache && cache[pc.key] == pc {
        cache := cache - {pc.key};
      }
      assert before.conns[pc.id].key == pc.key;
      assert State().cache == PoolMachine.Uncache(before, pc.id).cache;
    }

    /** The last return marks the entry closed and is now to close its network connection. */
    method MarkClosed(pc: PooledConn)
      requires Valid() && Known(pc)
      modifies pc`closed, pc`closers
      ensures Valid() && State() == PoolMachine.MarkClosed(old(State()), pc.id)
      ensures pc.count == old(pc.count) && pc.closed && pc.closers == old(pc.closers) + 1
    {
      ghost var before := State();
      pc.closed := true;
      pc.closers := pc.closers + 1;
      assert State().conns == PoolMachine.MarkClosed(before, pc.id).conns;
      assert State().net == before.net && State().cache == before.cache && State().open == before.open;
    }

    method CountDown(pc: PooledConn, h: nat)
      requires Valid() && Known(pc) && h in handles && handles[h] == pc.id
      modifies this`handles, pc`count
      ensures Valid() && State() == Release(old(State()), h)
      ensures pc.count == if old(pc.count) == 0 then 0xFFFF_FFFF_FFFF_FFFF else old(pc.count) - 1
    {
      ghost var before := State();
      handles := handles - {h};
      pc.count := Decrement(pc.count);
      assert State().conns == Release(before, h).conns;
      assert State().net == before.net && State().cache == before.cache && State().open == before.open;
    }

    /** ReturnToPool up to the unlock; the result tells whether nc.Close() is to follow. */
    method ReturnToPool(pc: PooledConn, h: nat) returns (last: bool)
      requires Valid() && Known(pc) && h in handles && handles[h] == pc.id
      modifies this`handles, this`cache, pc`count, pc`closed, pc`closers
      ensures Valid() && State() == ReturnStep(old(State()), h)
      ensures pc.count == if old(pc.count) == 0 then 0xFFFF_FFFF_FFFF_FFFF else old(pc.count) - 1
      ensures last <==> pc.count == 0
      ensures last ==> pc.closed && pc.closers == old(pc.closers) + 1
    {
      CountDown(pc, h);
      assert State().conns[pc.id] == pc.Entry();
      if pc.count == 0 {
        Uncache(pc);
        MarkClosed(pc);
        return true;
      }
      return false;
    }

    /** nc.Close() after the unlock of the last return. */
    method CloseNet(pc: PooledConn)
      requires Valid() && Known(pc) && pc.closers > 0
      modifies pc`nc, pc`closers, pc`poolCloses
      ensures Valid() && State() == CloseStep(old(State()), pc.id)
    {
      ghost var before := State();
      pc.nc := Shut;
      pc.closers := pc.closers - 1;
      pc.poolCloses := pc.poolCloses + 1;
      assert State().conns == CloseStep(before, pc.id).conns;
      assert State().net == CloseStep(before, pc.id).net;
      assert State().cache == before.cache && State().open == before.open;
    }

    /** The network changes the state of a connection, or somebody closes it. */
    method ChangeNet(pc: PooledConn, nc: Net)
      requires Valid() && Known(pc)
      modifies pc`nc
      ensures Valid() && State() == SetNet(old(State()), pc.id, nc)
    {
      ghost var before := State();
      pc.nc := nc;
      assert State().conns == before.conns && State().net == before.net[pc.id := nc];
    }

    /** Close(true): shut the network connection of every remembered entry. */
    method CloseForce()
      requires Valid() && sweep == None
      modifies all`nc
      ensures Valid() && State() == old(State()).(net := Swept(old(State()).net, old(State()).open))
    {
      ghost var before := State();
      for i := 0 to |openConns|
        invariant Valid()
        invariant State() == before.(net := Swept(before.net, before.open[..i]))
      {
        ChangeNet(openConns[i], Shut);
        assert before.open[..i + 1][..i] == before.open[..i];
      }
      assert before.open[..|openConns|] == before.open;
    }
  }

  lemma IdsCons(pc: PooledConn, pcs: seq<PooledConn>)
    ensures Ids([pc] + pcs) == [pc.id] + Ids(pcs)
  {
  }

  ghost function Ids(pcs: seq<PooledConn>): seq<nat> {
    seq(|pcs|, i requires 0 <= i < |pcs| => pcs[i].id)
  }
}

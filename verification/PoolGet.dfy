/** The retry loop of Get, with the steps of all other callers in between. */
module PoolGet {
  import opened Prelude
  import opened PoolMachine
  import opened PoolInvariant
  import opened PoolRuns
  import opened PoolExhaustion
  import opened PoolOutcomes
  import opened PoolHeap

  /** Nothing of the pool is lost, and what is added is new. */
  twostate predicate Kept(pool: NatsConnPool)
    reads pool
  {
    forall i :: 0 <= i < |pool.all| ==>
      (i < |old(pool.all)| && pool.all[i] == old(pool.all)[i]) || fresh(pool.all[i])
  }

  /** A caller joins the flight of its key, or starts one. */
  method JoinFlight(pool: NatsConnPool, t: nat)
    requires pool.Valid() && t in pool.gets && pool.gets[t].Trying?
    modifies pool`gets, pool`flights
    ensures pool.Valid() && pool.State() == Next(old(pool.State()), Enter(t))
  {
    var g := pool.gets[t];
    if g.key !in pool.flights {
      pool.flights := pool.flights[g.key := Looking];
    }
    pool.gets := pool.gets[t := Waiting(g.key, g.tries)];
  }

  method EndFlight(pool: NatsConnPool, key: Key)
    requires pool.Valid() && Enabled(pool.State(), Land(key))
    modifies pool`gets, pool`flights
    ensures pool.Valid() && pool.State() == Next(old(pool.State()), Land(key))
  {
    pool.gets := Landed(pool.gets, pool.flights[key], key);
    pool.flights := pool.flights - {key};
  }

  /** A new caller, or a failed dial. */
  method Proceed(pool: NatsConnPool, e: Event)
    requires pool.Valid() && Enabled(pool.State(), e) && (e.Begin? || e.DialFails?)
    modifies pool`gets, pool`flights
    ensures pool.Valid() && pool.State() == Next(old(pool.State()), e)
  {
    match e {
      case Begin(t, key) => pool.gets := pool.gets[t := Trying(key, 0)];
      case DialFails(key) => pool.flights := pool.flights[key := Failed];
    }
  }

  /** The start or the end of Close(true). */
  method Sweep(pool: NatsConnPool, e: Event)
    requires pool.Valid() && Enabled(pool.State(), e) && (e.SweepBegin? || e.SweepEnd?)
    modifies pool`sweep
    ensures pool.Valid() && pool.State() == Next(old(pool.State()), e)
  {
    pool.sweep := if e.SweepBegin? then Some(0) else None;
  }

  /** Steps that change connections, other than looking up and inserting them. */
  method Touch(pool: NatsConnPool, e: Event)
    requires pool.Valid() && Enabled(pool.State(), e)
    requires e.Return? || e.NcClose? || e.Drop? || e.Reconnect? || e.Shutdown? || e.SweepNext?
    modifies pool`handles, pool`cache, pool`sweep, pool.all
    ensures pool.Valid() && pool.State() == Next(old(pool.State()), e)
  {
    match e {
      case Return(h) => var last := pool.ReturnToPool(pool.all[pool.handles[h]], h);
      case NcClose(c) => pool.CloseNet(pool.all[c]);
      case Drop(c) => pool.ChangeNet(pool.all[c], Dropped);
      case Reconnect(c) => pool.ChangeNet(pool.all[c], Connected);
      case Shutdown(c) => pool.ChangeNet(pool.all[c], Shut);
      case SweepNext =>
        pool.ChangeNet(pool.openConns[pool.sweep.value], Shut);
        pool.sweep := Some(pool.sweep.value + 1);
    }
  }

  /** The entry is the one that the latest handle is for; it is open and counted. */
  ghost predicate Held(pool: NatsConnPool, pc: PooledConn)
    reads pool, pc
  {
    && pool.issued > 0 && pool.issued - 1 in pool.handles && pool.handles[pool.issued - 1] == pc.id
    && pool.Known(pc) && !pc.closed && pc.count > 0
  }

  /** Count the connection, unless it was closed meanwhile. */
  method Count(pool: NatsConnPool, t: nat) returns (result: Option<PooledConn>)
    requires pool.Valid() && t in pool.gets && pool.gets[t].Got?
    modifies pool, pool.all
    ensures pool.Valid() && pool.all == old(pool.all)
    ensures Enabled(old(pool.State()), if result.Some? then Acquire(t) else Retry(t))
    ensures pool.State() == Next(old(pool.State()), if result.Some? then Acquire(t) else Retry(t))
    ensures result.Some? ==> Held(pool, result.value) && result.value == old(pool.all[pool.gets[t].conn])
  {
    var pc := pool.all[pool.gets[t].conn];
    var ok := pool.Acquire(pc, t);
    assert pool.State().conns[pc.id] == pc.Entry();
    return if ok then Some(pc) else None;
  }

  /** Steps of getPooledConn's closure, and of a Get that is back from it. */
  method Serve(pool: NatsConnPool, e: Event)
    requires pool.Valid() && Enabled(pool.State(), e)
    requires e.Lookup? || e.Publish? || e.Acquire? || e.Retry?
    modifies pool, pool.all
    ensures pool.Valid() && pool.State() == Next(old(pool.State()), e) && Kept(pool)
  {
    match e {
      case Lookup(key) => var found := pool.Lookup(key);
      case Publish(key, nc) => var pc := pool.Publish(key, nc);
      case Acquire(t) => var result := Count(pool, t);
      case Retry(t) => var result := Count(pool, t);
    }
  }

  /** Any step at all. */
  method Take(pool: NatsConnPool, e: Event)
    requires pool.Valid() && Enabled(pool.State(), e)
    modifies pool, pool.all
    ensures pool.Valid() && pool.State() == Next(old(pool.State()), e) && Kept(pool)
  {
    match e {
      case Begin(_, _) => Proceed(pool, e);
      case Enter(t) => JoinFlight(pool, t);
      case DialFails(_) => Proceed(pool, e);
      case Land(key) => EndFlight(pool, key);
      case SweepBegin => Sweep(pool, e);
      case SweepEnd => Sweep(pool, e);
      case Lookup(_) => Serve(pool, e);
      case Publish(_, _) => Serve(pool, e);
      case Acquire(_) => Serve(pool, e);
      case Retry(_) => Serve(pool, e);
      case _ => Touch(pool, e);
    }
  }

  /** Other callers and the network do what they do. */
  method Others(pool: NatsConnPool, evs: seq<Event>)
    requires pool.Valid() && Legal(pool.State(), evs)
    modifies pool, pool.all
    ensures pool.Valid() && pool.State() == Run(old(pool.State()), evs) && Kept(pool)
  {
    ghost var s := pool.State();
    for i := 0 to |evs|
      invariant pool.Valid() && Legal(pool.State(), evs[i..])
      invariant forall i :: 0 <= i < |pool.all| ==>
                  (i < |old(pool.all)| && pool.all[i] == old(pool.all)[i]) || fresh(pool.all[i])
      invariant Run(pool.State(), evs[i..]) == Run(s, evs)
    {
      assert evs[i..][0] == evs[i] && evs[i..][1..] == evs[i + 1..];
      Take(pool, evs[i]);
    }
  }

  // ----- Get -----

  /** None of the steps is one of caller t itself. */
  ghost predicate NotOwn(evs: seq<Event>, t: nat) {
    forall e :: e in evs ==> e != Enter(t) && e != Acquire(t) && e != Retry(t) && !(e.Begin? && e.t == t)
  }

  /** What others do during one attempt of caller t: until the flight is over and t is back
      with a connection, or its Get has failed. */
  ghost predicate Turn(s: Pool, t: nat, turn: seq<Event>)
    requires Typed(s)
  {
    && Enabled(s, Enter(t)) && NotOwn(turn, t) && Legal(Next(s, Enter(t)), turn)
    && var s2 := Run(Next(s, Enter(t)), turn);
       t in s2.gets ==> s2.gets[t].Got?
  }

  ghost function After(s: Pool, t: nat, turn: seq<Event>): (r: Pool)
    requires Typed(s) && Turn(s, t, turn)
    ensures Typed(r) && (t in r.gets ==> r.gets[t].Got?)
  {
    Run(Next(s, Enter(t)), turn)
  }

  /** The caller's connection was closed meanwhile, and it has attempts left. */
  ghost predicate Again(s: Pool, t: nat)
    requires Typed(s)
  {
    Enabled(s, Retry(t)) && t in Next(s, Retry(t)).gets
  }

  /** The turns of the others, as far as caller t needs them. */
  ghost predicate Plays(s: Pool, t: nat, turns: seq<seq<Event>>)
    requires Typed(s)
    decreases |turns|
  {
    turns != [] ==>
      && Turn(s, t, turns[0])
      && (Again(After(s, t, turns[0]), t) ==> Plays(Next(After(s, t, turns[0]), Retry(t)), t, turns[1..]))
  }

  /** Join the flight and wait for its result. */
  method Fly(pool: NatsConnPool, t: nat, turn: seq<Event>)
    requires pool.Valid() && Turn(pool.State(), t, turn)
    modifies pool, pool.all
    ensures pool.Valid() && Kept(pool) && pool.State() == After(old(pool.State()), t, turn)
    ensures Legal(old(pool.State()), [Enter(t)] + turn)
    ensures pool.State() == Run(old(pool.State()), [Enter(t)] + turn)
  {
    ghost var s := pool.State();
    JoinFlight(pool, t);
    Others(pool, turn);
    RunOne(s, Enter(t));
    RunConcat(s, [Enter(t)], turn);
  }

  /** Others do not touch the caller's key and number of attempts. */
  lemma OthersStep(s: Pool, e: Event, t: nat)
    requires Typed(s) && Enabled(s, e) && NotOwn([e], t)
    ensures t in Next(s, e).gets ==>
              t in s.gets && Next(s, e).gets[t].key == s.gets[t].key && Next(s, e).gets[t].tries == s.gets[t].tries
  {
    assert e in [e];
  }

  lemma {:induction false} OthersKeep(s: Pool, evs: seq<Event>, t: nat)
    requires Typed(s) && Legal(s, evs) && NotOwn(evs, t)
    ensures t in Run(s, evs).gets ==>
              t in s.gets && Run(s, evs).gets[t].key == s.gets[t].key && Run(s, evs).gets[t].tries == s.gets[t].tries
    ensures Retries(evs, t) == 0
    decreases |evs|
  {
    if evs != [] {
      assert evs[0] in evs;
      OthersStep(s, evs[0], t);
      OthersKeep(Next(s, evs[0]), evs[1..], t);
    }
  }

  lemma {:induction false} RetriesConcat(xs: seq<Event>, ys: seq<Event>, t: nat)
    ensures Retries(xs + ys, t) == Retries(xs, t) + Retries(ys, t)
  {
    if xs == [] {
      assert xs + ys == ys;
    } else {
      assert (xs + ys)[1..] == xs[1..] + ys;
      RetriesConcat(xs[1..], ys, t);
    }
  }

  lemma TurnKeeps(s: Pool, t: nat, turn: seq<Event>)
    requires Typed(s) && Turn(s, t, turn)
    ensures var s2 := After(s, t, turn);
            t in s2.gets ==> s2.gets[t].key == s.gets[t].key && s2.gets[t].tries == s.gets[t].tries
    ensures Retries([Enter(t)] + turn, t) == 0
  {
    OthersKeep(Next(s, Enter(t)), turn, t);
    RetriesConcat([Enter(t)], turn, t);
    assert [Enter(t)][1..] == [];
  }

  lemma RetriesSnoc(evs: seq<Event>, t: nat, e: Event)
    ensures Retries(evs + [e], t) == Retries(evs, t) + if e == Retry(t) then 1 else 0
  {
    RetriesConcat(evs, [e], t);
    assert [e][1..] == [];
  }

  // ----- Why a Get fails -----

  /** The flight of the key has failed and its callers have yet to learn of it. */
  predicate Failing(s: Pool, key: Key) {
    key in s.flights && s.flights[key].Failed?
  }

  /** A dial of the key failed: before the steps, in a flight still up, or among them. */
  ghost predicate DialFailed(s: Pool, evs: seq<Event>, key: Key) {
    Failing(s, key) || DialFails(key) in evs
  }

  lemma FailingStep(s: Pool, e: Event, key: Key)
    requires Typed(s) && Enabled(s, e) && Failing(Next(s, e), key)
    ensures Failing(s, key) || e == DialFails(key)
  {
  }

  lemma {:induction false} FailingSince(s: Pool, evs: seq<Event>, key: Key)
    requires Typed(s) && Legal(s, evs) && Failing(Run(s, evs), key)
    ensures DialFailed(s, evs, key)
    decreases |evs|
  {
    if evs != [] {
      FailingSince(Next(s, evs[0]), evs[1..], key);
      if Failing(Next(s, evs[0]), key) {
        FailingStep(s, evs[0], key);
        assert evs[0] in evs;
      }
    }
  }

  lemma LostStep(s: Pool, e: Event, t: nat)
    requires Typed(s) && Enabled(s, e) && NotOwn([e], t) && t in s.gets && t !in Next(s, e).gets
    ensures Failing(s, s.gets[t].key)
  {
    assert e in [e];
  }

  /** What others do takes a caller out of its Get only if a dial of its key failed. */
  lemma {:induction false} LostSince(s: Pool, evs: seq<Event>, t: nat)
    requires Typed(s) && Legal(s, evs) && NotOwn(evs, t) && t in s.gets && t !in Run(s, evs).gets
    ensures DialFailed(s, evs, s.gets[t].key)
    decreases |evs|
  {
    assert evs[0] in evs;
    var next := Next(s, evs[0]);
    if t in next.gets {
      OthersStep(s, evs[0], t);
      LostSince(next, evs[1..], t);
      if Failing(next, s.gets[t].key) {
        FailingStep(s, evs[0], s.gets[t].key);
      }
    } else {
      LostStep(s, evs[0], t);
    }
  }

  lemma TurnLost(s: Pool, evs: seq<Event>, start: Pool, t: nat, turn: seq<Event>)
    requires Leads(s, evs, start) && Turn(start, t, turn) && t !in After(start, t, turn).gets
    ensures DialFailed(s, evs + ([Enter(t)] + turn), start.gets[t].key)
  {
    var key := start.gets[t].key;
    LostSince(Next(start, Enter(t)), turn, t);
    if Failing(Next(start, Enter(t)), key) {
      FailingStep(start, Enter(t), key);
      FailingSince(s, evs, key);
    }
  }

  lemma GotKey(s: Pool, evs: seq<Event>, now: Pool, t: nat)
    requires Inv(s) && Leads(s, evs, now)
    ensures t in now.gets && now.gets[t].Got? ==>
              now.gets[t].conn < |now.conns| && now.conns[now.gets[t].conn].key == now.gets[t].key
  {
    RunInv(s, evs);
  }

  /** The last step is that the caller counts its connection. */
  ghost predicate Acquired(evs: seq<Event>, t: nat) {
    evs != [] && evs[|evs| - 1] == Acquire(t)
  }

  /** One attempt; `evs` are the steps since the start s of the Get. */
  method Attempt(
    pool: NatsConnPool, ghost key: Key, t: nat, turn: seq<Event>, ghost s: Pool, ghost evs: seq<Event>)
    returns (result: Option<PooledConn>, failed: bool, ghost more: seq<Event>)
    requires pool.Valid() && Turn(pool.State(), t, turn) && Leads(s, evs, pool.State()) && OneGet(evs, key, t)
    requires pool.gets[t].key == key
    modifies pool, pool.all
    ensures pool.Valid() && Kept(pool) && Leads(s, more, pool.State()) && OneGet(more, key, t)
    ensures failed ==> result.None? && t !in pool.gets && DialFailed(s, more, old(pool.gets[t].key))
    ensures result.Some? ==>
              && Held(pool, result.value) && t !in pool.gets && Acquired(more, t)
              && (Inv(s) ==> result.value.key == key)
    ensures result.None? && !failed ==>
              && Enabled(After(old(pool.State()), t, turn), Retry(t))
              && pool.State() == Next(After(old(pool.State()), t, turn), Retry(t))
              && Retries(more, t) == Retries(evs, t) + 1
  {
    ghost var start := pool.State();
    Fly(pool, t, turn);
    TurnKeeps(start, t, turn);
    RunConcat(s, evs, [Enter(t)] + turn);
    more := evs + ([Enter(t)] + turn);
    OneGetOn(evs, [Enter(t)] + turn, key, t);
    RetriesConcat(evs, [Enter(t)] + turn, t);
    if Inv(s) {
      GotKey(s, more, pool.State(), t);
    }
    if t !in pool.gets {
      TurnLost(s, evs, start, t, turn);
      return None, true, more;
    }
    result := Count(pool, t);
    ghost var last := if result.Some? then Acquire(t) else Retry(t);
    RunSnoc(s, more, last);
    RetriesSnoc(more, t, last);
    OneGetOn(more, [last], key, t);
    more := more + [last];
    failed := false;
  }

  lemma NextTurn(s: Pool, t: nat, turns: seq<seq<Event>>, i: nat)
    requires Typed(s) && i < |turns| && Plays(s, t, turns[i..])
    ensures Turn(s, t, turns[i])
    ensures Again(After(s, t, turns[i]), t) ==> Plays(Next(After(s, t, turns[i]), Retry(t)), t, turns[i + 1..])
  {
    assert turns[i..][0] == turns[i] && turns[i..][1..] == turns[i + 1..];
  }

  lemma RetryLeaves(s: Pool, t: nat, turn: seq<Event>, key: Key, tries: nat)
    requires Typed(s) && Turn(s, t, turn) && s.gets[t] == Trying(key, tries) && Enabled(After(s, t, turn), Retry(t))
    ensures TriesLeft(Next(After(s, t, turn), Retry(t)), t, key, tries + 1)
    ensures Again(After(s, t, turn), t) <==> tries + 1 < MAX_TRIES
  {
    TurnKeeps(s, t, turn);
  }

  /** The caller is about to make its next attempt, or has none left and is done. */
  ghost predicate TriesLeft(s: Pool, t: nat, key: Key, tries: nat) {
    if tries < MAX_TRIES then t in s.gets && s.gets[t] == Trying(key, tries) else t !in s.gets
  }

  /** The Get that began in state s has made i attempts, and the turns for the rest are set. */
  ghost predicate Going(
    pool: NatsConnPool, s: Pool, evs: seq<Event>, key: Key, t: nat, turns: seq<seq<Event>>, i: nat)
    requires Typed(s) && i <= |turns|
    reads pool, pool.all
  {
    && pool.Valid() && Legal(s, evs) && pool.State() == Run(s, evs) && OneGet(evs, key, t)
    && Retries(evs, t) == i && TriesLeft(pool.State(), t, key, i)
    && (i < MAX_TRIES ==> Plays(pool.State(), t, turns[i..]))
  }

  /** The Get that began in state s is over: its caller has a connection, or a dial of its
      key failed, or every attempt was in vain, and then at least five connections of the key
      were closed meanwhile. */
  ghost predicate Over(
    pool: NatsConnPool, s: Pool, evs: seq<Event>, key: Key, t: nat, result: Option<PooledConn>, failed: bool)
    requires Typed(s)
    reads pool, pool.all, if result.Some? then {result.value} else {}
  {
    && pool.Valid() && Legal(s, evs) && pool.State() == Run(s, evs) && OneGet(evs, key, t) && t !in pool.gets
    && (result.Some? ==> Held(pool, result.value) && Acquired(evs, t) && (Inv(s) ==> result.value.key == key))
    && (failed ==> result.None? && DialFailed(s, evs, key))
    && (result.None? && !failed ==>
          Retries(evs, t) == 10 && (Inv(s) ==> |ClosedSince(s, pool.State(), key)| >= 5))
  }

  /** Attempt i of ten. */
  method Try(
    pool: NatsConnPool, key: Key, t: nat, turns: seq<seq<Event>>, i: nat, ghost s: Pool, ghost evs: seq<Event>)
    returns (result: Option<PooledConn>, failed: bool, ghost more: seq<Event>)
    requires Typed(s) && i < |turns| && i < MAX_TRIES && Going(pool, s, evs, key, t, turns, i)
    modifies pool, pool.all
    ensures Kept(pool)
    ensures if failed || result.Some? then Over(pool, s, more, key, t, result, failed)
            else Going(pool, s, more, key, t, turns, i + 1)
  {
    ghost var start := pool.State();
    NextTurn(start, t, turns, i);
    result, failed, more := Attempt(pool, key, t, turns[i], s, evs);
    if result.None? && !failed {
      RetryLeaves(start, t, turns[i], key, i);
    }
  }

  lemma GoneOver(pool: NatsConnPool, s: Pool, evs: seq<Event>, key: Key, t: nat, turns: seq<seq<Event>>)
    requires Typed(s) && |turns| == MAX_TRIES && Going(pool, s, evs, key, t, turns, MAX_TRIES)
    ensures Over(pool, s, evs, key, t, None, false)
  {
    if Inv(s) {
      ExhaustedGet(s, evs, key, t);
    }
  }

  /** Up to ten attempts. */
  method TryAll(pool: NatsConnPool, key: Key, t: nat, turns: seq<seq<Event>>, ghost s: Pool, ghost begun: seq<Event>)
    returns (result: Option<PooledConn>, failed: bool, ghost evs: seq<Event>)
    requires Typed(s) && |turns| == MAX_TRIES && Going(pool, s, begun, key, t, turns, 0)
    modifies pool, pool.all
    ensures Kept(pool) && Over(pool, s, evs, key, t, result, failed)
  {
    evs := begun;
    ghost var all := pool.all;
    for i := 0 to MAX_TRIES
      invariant Going(pool, s, evs, key, t, turns, i)
      invariant forall j :: 0 <= j < |pool.all| ==> (j < |all| && pool.all[j] == all[j]) || fresh(pool.all[j])
    {
      result, failed, evs := Try(pool, key, t, turns, i, s, evs);
      if failed || result.Some? {
        return;
      }
    }
    GoneOver(pool, s, evs, key, t, turns);
    result, failed := None, false;
  }

  lemma Begun(s: Pool, key: Key, t: nat)
    requires Typed(s) && Enabled(s, Begin(t, key))
    ensures Legal(s, [Begin(t, key)]) && Run(s, [Begin(t, key)]) == Next(s, Begin(t, key))
    ensures Retries([Begin(t, key)], t) == 0 && TriesLeft(Next(s, Begin(t, key)), t, key, 0)
  {
    RunOne(s, Begin(t, key));
    assert [Begin(t, key)][1..] == [];
  }

  /** Get under any behaviour of the other callers: a run of the machine, at whose end the
      caller has an open, counted connection of its key, or a dial of the key failed, or each of ten
      attempts found its connection closed, in the course of which the pool closed at least
      five connections of the key. */
  method Get(pool: NatsConnPool, key: Key, t: nat, turns: seq<seq<Event>>)
    returns (result: Option<PooledConn>, failed: bool, ghost evs: seq<Event>)
    requires pool.Valid() && t !in pool.gets && |turns| == 10
    requires Plays(Next(pool.State(), Begin(t, key)), t, turns)
    modifies pool, pool.all
    ensures Kept(pool) && Over(pool, old(pool.State()), evs, key, t, result, failed)
  {
    ghost var s := pool.State();
    Begun(s, key, t);
    Proceed(pool, Begin(t, key));
    assert turns[0..] == turns;
    result, failed, evs := TryAll(pool, key, t, turns, s, [Begin(t, key)]);
  }

  // ----- An undisturbed Get -----

  /** What happens while nobody else is there: the lookup, a connection if needed, and the
      end of the flight. */
  function Alone(s: Pool, key: Key): seq<Event>
    requires Typed(s)
  {
    if key in s.cache && s.net[s.cache[key]] == Connected
    then [Lookup(key), Land(key)]
    else [Lookup(key), Publish(key, Connected), Land(key)]
  }

  /** After the flight of a lone caller of the key it has a connection that is not closed. */
  lemma LoneLanding(s: Pool, key: Key, t: nat)
    requires Typed(s) && t in s.gets && s.gets[t].Waiting? && s.gets[t].key == key
    requires key in s.flights && s.flights[key].Ready? && !s.conns[s.flights[key].conn].closed
    ensures Enabled(s, Land(key)) && Enabled(Next(s, Land(key)), Acquire(t))
  {
  }

  lemma ServedFromCache(s: Pool, key: Key, t: nat)
    requires Typed(s) && CacheExact(s.conns, s.cache) && t in s.gets && s.gets[t].Waiting? && s.gets[t].key == key
    requires key in s.flights && s.flights[key] == Looking
    requires key in s.cache && s.net[s.cache[key]] == Connected
    ensures Legal(s, [Lookup(key), Land(key)]) && Enabled(Run(s, [Lookup(key), Land(key)]), Acquire(t))
  {
    LoneLanding(Next(s, Lookup(key)), key, t);
    RunTwo(s, Lookup(key), Land(key));
  }

  lemma ServedAfterDial(s: Pool, key: Key, t: nat)
    requires Typed(s) && t in s.gets && s.gets[t].Waiting? && s.gets[t].key == key
    requires key in s.flights && s.flights[key] == Dialing
    ensures var rest := [Publish(key, Connected), Land(key)];
            Legal(s, rest) && Enabled(Run(s, rest), Acquire(t))
  {
    LoneLanding(Next(s, Publish(key, Connected)), key, t);
    RunTwo(s, Publish(key, Connected), Land(key));
  }

  lemma ServedByDial(s: Pool, key: Key, t: nat)
    requires Typed(s) && t in s.gets && s.gets[t].Waiting? && s.gets[t].key == key
    requires key in s.flights && s.flights[key] == Looking && (MustRemember(s, key) ==> s.sweep == None)
    requires !(key in s.cache && s.net[s.cache[key]] == Connected)
    ensures var turn := [Lookup(key), Publish(key, Connected), Land(key)];
            Legal(s, turn) && Enabled(Run(s, turn), Acquire(t))
  {
    ServedAfterDial(Next(s, Lookup(key)), key, t);
    RunCons(s, Lookup(key), [Publish(key, Connected), Land(key)]);
    assert [Lookup(key)] + [Publish(key, Connected), Land(key)] == [Lookup(key), Publish(key, Connected), Land(key)];
  }

  /** A caller that finds no flight of its key and is not disturbed is served at once. */
  lemma UndisturbedGet(s: Pool, key: Key, t: nat)
    requires Typed(s) && CacheExact(s.conns, s.cache) && t !in s.gets && key !in s.flights
    requires MustRemember(s, key) ==> s.sweep == None
    ensures Turn(Next(s, Begin(t, key)), t, Alone(s, key))
    ensures Enabled(After(Next(s, Begin(t, key)), t, Alone(s, key)), Acquire(t))
  {
    var waiting := Next(Next(s, Begin(t, key)), Enter(t));
    if key in s.cache && s.net[s.cache[key]] == Connected {
      ServedFromCache(waiting, key, t);
    } else {
      ServedByDial(waiting, key, t);
    }
  }

  // ----- An undisturbed Get whose dial fails -----

  lemma RefusedFlight(s: Pool, key: Key, t: nat)
    requires Typed(s) && Waits(s.gets, t, key) && key in s.flights && s.flights[key] == Looking
    requires (MustRemember(s, key) ==> s.sweep == None) && !(key in s.cache && s.net[s.cache[key]] == Connected)
    ensures var turn := [Lookup(key), DialFails(key), Land(key)];
            && Legal(s, turn) && t !in Run(s, turn).gets && key !in Run(s, turn).flights
            && Run(s, turn).handles == s.handles && Run(s, turn).conns == s.conns
  {
    var found := Next(s, Lookup(key));
    assert Waits(found.gets, t, key);
    DialFailureEndsGets(found, key);
    RunCons(s, Lookup(key), [DialFails(key), Land(key)]);
    assert [Lookup(key)] + [DialFails(key), Land(key)] == [Lookup(key), DialFails(key), Land(key)];
  }

  /** A caller that finds neither a flight nor a connection of its key, and whose dial fails, is
      out of its Get after one attempt, with no handle given out and no connection made. */
  lemma RefusedGet(s: Pool, key: Key, t: nat)
    requires Typed(s) && t !in s.gets && key !in s.flights
    requires (MustRemember(s, key) ==> s.sweep == None) && !(key in s.cache && s.net[s.cache[key]] == Connected)
    ensures var begun, turn := Next(s, Begin(t, key)), [Lookup(key), DialFails(key), Land(key)];
            && Turn(begun, t, turn) && t !in After(begun, t, turn).gets
            && After(begun, t, turn).handles == s.handles && After(begun, t, turn).conns == s.conns
            && key !in After(begun, t, turn).flights
  {
    RefusedFlight(Next(Next(s, Begin(t, key)), Enter(t)), key, t);
  }
}

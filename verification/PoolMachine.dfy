/** The reference-counted connection pool as a step machine.

    One event is one critical section of the pool (a stretch of code that runs
    under cacheMu, openMu or the lock of the singleflight group), one action of
    the singleflight group, or one change of a connection made by the network.
    Every interleaving of concurrent calls is a sequence of events. */
module PoolMachine {
  import opened Prelude

  type Key = string

  const MAX_TRIES: nat := 10
  const MAX_UINT64: nat := 0xFFFF_FFFF_FFFF_FFFF

  /** State of a network connection. Shut is final. */
  datatype Net = Connected | Dropped | Shut

  /** A pooled connection. `replaced` says that a later connection took its place
      in the cache, `closers` counts the returns that have released the lock and
      have yet to close the network connection, `poolCloses` those that have. */
  datatype Conn = Conn(
    key: Key, count: nat, closed: bool, replaced: bool, closers: nat, poolCloses: nat)

  /** Where a running Get is: about to call getPooledConn, waiting for a flight,
      or back from it with a connection it has not counted yet. */
  datatype Get =
    | Trying(key: Key, tries: nat)
    | Waiting(key: Key, tries: nat)
    | Got(key: Key, tries: nat, conn: nat)

  /** Where the closure of a singleflight key is. */
  datatype Flight = Looking | Dialing | Ready(conn: nat) | Failed

  /** `net[i]` is the network connection of `conns[i]`.
      `handles` are the results of Get that have not been returned, `issued` is how
      many were ever given out, `sweep` is the position of a running Close(true). */
  datatype Pool = Pool(
    conns: seq<Conn>, net: seq<Net>, cache: map<Key, nat>, open: seq<nat>,
    gets: map<nat, Get>, flights: map<Key, Flight>,
    handles: map<nat, nat>, issued: nat, sweep: Option<nat>)

  datatype Event =
    | Begin(t: nat, key: Key)      // Get is called
    | Enter(t: nat)                // it joins the flight of its key or starts one
    | Lookup(key: Key)             // the closure inspects the cache
    | DialFails(key: Key)          // nats.Connect fails
    | Publish(key: Key, net: Net)  // nats.Connect succeeded, the result is inserted
    | Land(key: Key)               // the flight ends and all its callers get the result
    | Acquire(t: nat)              // the caller counts its connection
    | Retry(t: nat)                // or finds it closed meanwhile
    | Return(h: nat)               // ReturnToPool up to the unlock
    | NcClose(c: nat)              // nc.Close() of the last return
    | Drop(c: nat)
    | Reconnect(c: nat)
    | Shutdown(c: nat)
    | SweepBegin | SweepNext | SweepEnd  // Close(true)

  function Init(): Pool {
    Pool([], [], map[], [], map[], map[], map[], 0, None)
  }

  ghost predicate CacheTyped(cache: map<Key, nat>, n: nat) {
    forall k :: k in cache ==> cache[k] < n
  }

  ghost predicate OpenTyped(open: seq<nat>, n: nat) {
    forall i :: 0 <= i < |open| ==> open[i] < n
  }

  ghost predicate GetsTyped(gets: map<nat, Get>, n: nat) {
    forall t :: t in gets && gets[t].Got? ==> gets[t].conn < n
  }

  ghost predicate FlightsTyped(flights: map<Key, Flight>, n: nat) {
    forall k :: k in flights && flights[k].Ready? ==> flights[k].conn < n
  }

  ghost predicate HandlesTyped(handles: map<nat, nat>, n: nat) {
    forall h :: h in handles ==> handles[h] < n
  }

  /** Every connection number that occurs in the state exists. */
  ghost predicate Typed(s: Pool) {
    && |s.net| == |s.conns|
    && CacheTyped(s.cache, |s.conns|)
    && OpenTyped(s.open, |s.conns|)
    && GetsTyped(s.gets, |s.conns|)
    && FlightsTyped(s.flights, |s.conns|)
    && HandlesTyped(s.handles, |s.conns|)
    && (s.sweep.Some? ==> s.sweep.value <= |s.open|)
  }

  /** A cached connection that is down but not shut is remembered before it is replaced. */
  predicate MustRemember(s: Pool, key: Key)
    requires Typed(s)
  {
    key in s.cache && s.net[s.cache[key]] == Dropped
  }

  ghost predicate Enabled(s: Pool, e: Event)
    requires Typed(s)
  {
    match e
    case Begin(t, _) => t !in s.gets
    case Enter(t) => t in s.gets && s.gets[t].Trying?
    case Lookup(k) =>
      k in s.flights && s.flights[k] == Looking && (MustRemember(s, k) ==> s.sweep == None)
    case DialFails(k) => k in s.flights && s.flights[k] == Dialing
    case Publish(k, _) => k in s.flights && s.flights[k] == Dialing
    case Land(k) => k in s.flights && (s.flights[k].Ready? || s.flights[k].Failed?)
    case Acquire(t) => t in s.gets && s.gets[t].Got? && !s.conns[s.gets[t].conn].closed
    case Retry(t) => t in s.gets && s.gets[t].Got? && s.conns[s.gets[t].conn].closed
    case Return(h) => h in s.handles
    case NcClose(c) => c < |s.conns| && s.conns[c].closers > 0
    case Drop(c) => c < |s.conns| && s.net[c] == Connected
    case Reconnect(c) => c < |s.conns| && s.net[c] == Dropped
    case Shutdown(c) => c < |s.conns|
    case SweepBegin => s.sweep == None
    case SweepNext => s.sweep.Some? && s.sweep.value < |s.open|
    case SweepEnd => s.sweep == Some(|s.open|)
  }

  /** The members of `open` whose network connection is not shut, in order. */
  function Unshut(net: seq<Net>, open: seq<nat>): (r: seq<nat>)
    requires OpenTyped(open, |net|)
    ensures forall c :: c in r <==> c in open && net[c] != Shut
    ensures OpenTyped(r, |net|)
  {
    if open == [] then []
    else
      var init := Unshut(net, open[..|open| - 1]);
      var last := open[|open| - 1];
      assert open == open[..|open| - 1] + [last];
      if net[last] != Shut then init + [last] else init
  }

  /** uint64 decrement, with its wrap-around. */
  function Decrement(n: nat): nat {
    if n == 0 then MAX_UINT64 else n - 1
  }

  /** A disconnected connection goes to the front of openConns; the shut ones leave. */
  function Remember(s: Pool, c: nat): (s1: Pool)
    requires Typed(s) && c < |s.conns| && s.sweep == None
    ensures Typed(s1)
  {
    s.(open := [c] + Unshut(s.net, s.open))
  }

  function LookupStep(s: Pool, k: Key): (s1: Pool)
    requires Typed(s) && k in s.flights && (MustRemember(s, k) ==> s.sweep == None)
    ensures Typed(s1)
  {
    if k in s.cache && s.net[s.cache[k]] == Connected then
      s.(flights := s.flights[k := Ready(s.cache[k])])
    else if k in s.cache && s.net[s.cache[k]] != Shut then
      Remember(s, s.cache[k]).(flights := s.flights[k := Dialing])
    else
      s.(flights := s.flights[k := Dialing])
  }

  /** The cached connection of the key, if any, is about to lose its place. */
  function MarkReplaced(s: Pool, k: Key): (s1: Pool)
    requires Typed(s)
    ensures Typed(s1)
  {
    if k in s.cache
    then s.(conns := s.conns[s.cache[k] := s.conns[s.cache[k]].(replaced := true)])
    else s
  }

  function Create(s: Pool, k: Key, net: Net): (s1: Pool)
    requires Typed(s)
    ensures Typed(s1)
  {
    s.(conns := s.conns + [Conn(k, 0, false, false, 0, 0)], net := s.net + [net])
  }

  function PublishStep(s: Pool, k: Key, net: Net): (s1: Pool)
    requires Typed(s) && k in s.flights
    ensures Typed(s1)
  {
    Create(MarkReplaced(s, k), k, net).(
      cache := s.cache[k := |s.conns|],
      flights := s.flights[k := Ready(|s.conns|)])
  }

  /** The callers of a flight have its result; with an error their Get ends. */
  function Landed(gets: map<nat, Get>, flight: Flight, k: Key): map<nat, Get> {
    if flight.Ready? then
      map t | t in gets ::
        if gets[t].Waiting? && gets[t].key == k then Got(k, gets[t].tries, flight.conn) else gets[t]
    else
      map t | t in gets && !(gets[t].Waiting? && gets[t].key == k) :: gets[t]
  }

  function LandStep(s: Pool, k: Key): (s1: Pool)
    requires Typed(s) && k in s.flights
    ensures Typed(s1)
  {
    s.(flights := s.flights - {k}, gets := Landed(s.gets, s.flights[k], k))
  }

  function CountUp(s: Pool, c: nat): (s1: Pool)
    requires Typed(s) && c < |s.conns|
    ensures Typed(s1)
  {
    s.(conns := s.conns[c := s.conns[c].(count := s.conns[c].count + 1)])
  }

  /** The caller counts the connection it got and leaves with a new handle. */
  function AcquireStep(s: Pool, t: nat): (s1: Pool)
    requires Typed(s) && t in s.gets && s.gets[t].Got?
    ensures Typed(s1)
  {
    CountUp(s, s.gets[t].conn).(
      gets := s.gets - {t},
      handles := s.handles[s.issued := s.gets[t].conn],
      issued := s.issued + 1)
  }

  /** The caller tries again, unless this was its last attempt. */
  function RetryStep(s: Pool, t: nat): (s1: Pool)
    requires Typed(s) && t in s.gets
    ensures Typed(s1)
  {
    var g := s.gets[t];
    if g.tries + 1 < MAX_TRIES
    then s.(gets := s.gets[t := Trying(g.key, g.tries + 1)])
    else s.(gets := s.gets - {t})
  }

  /** A handle goes back and its connection is counted down. */
  function Release(s: Pool, h: nat): (s1: Pool)
    requires Typed(s) && h in s.handles
    ensures Typed(s1)
  {
    var c := s.handles[h];
    s.(conns := s.conns[c := s.conns[c].(count := Decrement(s.conns[c].count))],
       handles := s.handles - {h})
  }

  /** A connection leaves the cache, unless another took its place. */
  function Uncache(s: Pool, c: nat): (s1: Pool)
    requires Typed(s) && c < |s.conns|
    ensures Typed(s1)
  {
    var key := s.conns[c].key;
    if key in s.cache && s.cache[key] == c then s.(cache := s.cache - {key}) else s
  }

  function MarkClosed(s: Pool, c: nat): (s1: Pool)
    requires Typed(s) && c < |s.conns|
    ensures Typed(s1)
  {
    s.(conns := s.conns[c := s.conns[c].(closed := true, closers := s.conns[c].closers + 1)])
  }

  function ReturnStep(s: Pool, h: nat): (s1: Pool)
    requires Typed(s) && h in s.handles
    ensures Typed(s1)
  {
    var c := s.handles[h];
    var released := Release(s, h);
    if released.conns[c].count == 0 then MarkClosed(Uncache(released, c), c) else released
  }

  function CloseStep(s: Pool, c: nat): (s1: Pool)
    requires Typed(s) && c < |s.conns| && s.conns[c].closers > 0
    ensures Typed(s1)
  {
    var conn := s.conns[c];
    s.(conns := s.conns[c := conn.(closers := conn.closers - 1, poolCloses := conn.poolCloses + 1)],
       net := s.net[c := Shut])
  }

  /** The network after a whole Close(true) over `open`. */
  function Swept(net: seq<Net>, open: seq<nat>): (r: seq<Net>)
    requires OpenTyped(open, |net|)
    ensures |r| == |net|
    ensures forall i :: 0 <= i < |net| ==> r[i] == if i in open then Shut else net[i]
  {
    if open == [] then net
    else
      assert open == open[..|open| - 1] + [open[|open| - 1]];
      Swept(net, open[..|open| - 1])[open[|open| - 1] := Shut]
  }

  function SetNet(s: Pool, c: nat, net: Net): Pool
    requires c < |s.net|
  {
    s.(net := s.net[c := net])
  }

  function Next(s: Pool, e: Event): (s1: Pool)
    requires Typed(s) && Enabled(s, e)
    ensures Typed(s1)
  {
    match e
    case Begin(t, k) => s.(gets := s.gets[t := Trying(k, 0)])
    case Enter(t) =>
      var g := s.gets[t];
      s.(gets := s.gets[t := Waiting(g.key, g.tries)],
         flights := if g.key in s.flights then s.flights else s.flights[g.key := Looking])
    case Lookup(k) => LookupStep(s, k)
    case DialFails(k) => s.(flights := s.flights[k := Failed])
    case Publish(k, net) => PublishStep(s, k, net)
    case Land(k) => LandStep(s, k)
    case Acquire(t) => AcquireStep(s, t)
    case Retry(t) => RetryStep(s, t)
    case Return(h) => ReturnStep(s, h)
    case NcClose(c) => CloseStep(s, c)
    case Drop(c) => SetNet(s, c, Dropped)
    case Reconnect(c) => SetNet(s, c, Connected)
    case Shutdown(c) => SetNet(s, c, Shut)
    case SweepBegin => s.(sweep := Some(0))
    case SweepNext => SetNet(s, s.open[s.sweep.value], Shut).(sweep := Some(s.sweep.value + 1))
    case SweepEnd => s.(sweep := None)
  }
}

/** One collector polling its servers, as a machine whose steps are the sections that run
    under the collector's lock and the hand-over of a reply on the unbuffered channel. */
module PollMachine {
  import opened Prelude
  import opened MissingServers

  /** A server's answer to the ping of one poll; ids tell replies apart. */
  datatype Reply = Reply(id: nat, key: string, server: Stat)

  datatype Handler =
    | Arrived(reply: Reply)
    | Sending(reply: Reply)
    | Recording(reply: Reply)

  datatype Phase = Idle | Started | Failed | Waiting | Finished

  /** What a poll that was not aborted works with. */
  datatype Snapshot = Snapshot(key: string, stats: seq<Reply>, rtts: map<string, int>)

  datatype Tally = Tally(delivered: nat, expired: nat, late: nat, extra: nat, garbled: nat)

  datatype Collector = Collector(
    inbox: string, expected: int,
    phase: Phase, polling: bool, pollkey: string, keys: set<string>,
    stats: seq<Reply>, rtts: map<string, int>,
    handlers: map<nat, Handler>, holder: Option<nat>, arrivals: nat, tally: Tally,
    snapshots: seq<Snapshot>)

  datatype Event =
    | StartPoll(key: string)
    | Publish
    | Abort
    | Cleanup
    | Arrive(key: string, server: Stat)
    | Garble(h: nat)
    | Enter(h: nat)
    | Deliver(h: nat)
    | Expire(h: nat)
    | Record(h: nat, rtt: int)
    | StopWaiting
    | TakeSnapshot

  function Init(inbox: string, expected: int): Collector {
    Collector(inbox, expected, Idle, false, "", {}, [], map[], map[], None, 0, Tally(0, 0, 0, 0, 0), [])
  }

  // ----- Matching a reply with the poll -----

  predicate HasSuffix(s: string, suffix: string) {
    |suffix| <= |s| && s[|s| - |suffix|..] == suffix
  }

  function Subject(inbox: string, key: string): string {
    inbox + "." + key
  }

  predicate IsCurrent(c: Collector, r: Reply) {
    HasSuffix(Subject(c.inbox, r.key), c.pollkey)
  }

  /** Keys are decimal nanosecond timestamps: all of one length and never repeated. */
  predicate FreshKey(c: Collector, key: string) {
    key !in c.keys && forall k :: k in c.keys ==> |k| == |key|
  }

  // ----- Steps -----

  predicate Enabled(c: Collector, e: Event) {
    match e
    case StartPoll(key) => c.phase == Idle && c.holder.None? && FreshKey(c, key)
    case Publish => c.phase == Started
    case Abort => c.phase == Started
    case Cleanup => c.phase == Failed && c.holder.None?
    case Arrive(key, _) => key in c.keys
    case Garble(h) => h in c.handlers && c.handlers[h].Arrived?
    case Enter(h) => h in c.handlers && c.handlers[h].Arrived? && c.holder.None?
    case Deliver(h) => h in c.handlers && c.handlers[h].Sending? && c.phase == Waiting
    case Expire(h) => h in c.handlers && c.handlers[h].Sending?
    case Record(h, _) => h in c.handlers && c.handlers[h].Recording?
    case StopWaiting => c.phase == Waiting
    case TakeSnapshot => c.phase == Finished && c.holder.None?
  }

  function StartStep(c: Collector, key: string): Collector {
    c.(phase := Started, polling := true, pollkey := key, keys := c.keys + {key}, stats := [], rtts := map[])
  }

  function ArriveStep(c: Collector, key: string, server: Stat): Collector {
    c.(handlers := c.handlers[c.arrivals := Arrived(Reply(c.arrivals, key, server))], arrivals := c.arrivals + 1)
  }

  function GarbleStep(c: Collector, h: nat): Collector {
    c.(handlers := c.handlers - {h}, tally := c.tally.(garbled := c.tally.garbled + 1))
  }

  /** The handler has the lock: send the reply to the poll, or count it as late or extra. */
  function EnterStep(c: Collector, h: nat): Collector
    requires h in c.handlers
  {
    var r := c.handlers[h].reply;
    if c.polling && IsCurrent(c, r) then
      c.(handlers := c.handlers[h := Sending(r)], holder := Some(h))
    else if !IsCurrent(c, r) then
      c.(handlers := c.handlers - {h}, tally := c.tally.(late := c.tally.late + 1))
    else
      c.(handlers := c.handlers - {h}, tally := c.tally.(extra := c.tally.extra + 1))
  }

  function DeliverStep(c: Collector, h: nat): Collector
    requires h in c.handlers
  {
    var r := c.handlers[h].reply;
    var stats := c.stats + [r];
    c.(stats := stats, handlers := c.handlers[h := Recording(r)],
       tally := c.tally.(delivered := c.tally.delivered + 1),
       phase := if c.expected != -1 && |stats| == c.expected then Finished else Waiting)
  }

  function ExpireStep(c: Collector, h: nat): Collector
    requires h in c.handlers
  {
    c.(handlers := c.handlers[h := Recording(c.handlers[h].reply)],
       tally := c.tally.(expired := c.tally.expired + 1))
  }

  function RecordStep(c: Collector, h: nat, rtt: int): Collector
    requires h in c.handlers
  {
    c.(rtts := c.rtts[c.handlers[h].reply.server.id := rtt], handlers := c.handlers - {h}, holder := None)
  }

  function SnapshotStep(c: Collector): Collector {
    c.(phase := Idle, polling := false, snapshots := c.snapshots + [Snapshot(c.pollkey, c.stats, c.rtts)])
  }

  function Next(c: Collector, e: Event): Collector
    requires Enabled(c, e)
  {
    match e
    case StartPoll(key) => StartStep(c, key)
    case Publish => c.(phase := Waiting)
    case Abort => c.(phase := Failed)
    case Cleanup => c.(phase := Idle, polling := false)
    case Arrive(key, server) => ArriveStep(c, key, server)
    case Garble(h) => GarbleStep(c, h)
    case Enter(h) => EnterStep(c, h)
    case Deliver(h) => DeliverStep(c, h)
    case Expire(h) => ExpireStep(c, h)
    case Record(h, rtt) => RecordStep(c, h, rtt)
    case StopWaiting => c.(phase := Finished)
    case TakeSnapshot => SnapshotStep(c)
  }
}

/** A listener manager with calls that overlap: the steps are the sections that run under
    the manager's lock and, between them, the calls to the pool, to NATS and to a listener's
    Stop. Both managers of the program follow this protocol. */
module ListenerMachine {
  import opened Prelude

  /** A listener; `conn` is the pool handle that it obtained last. */
  datatype Listener = Listener(config: Config, running: bool, subscribed: bool, conn: Option<nat>)

  datatype Thread =
    | Setting(config: Config)
    | Connecting(config: Config, existing: Option<nat>)
    | Subscribing(config: Config, existing: Option<nat>, own: nat)
    | Publishing(config: Config, existing: Option<nat>, own: nat)
    | Deleting(id: string)
    | Retiring(gone: nat)
    | Stopping(todo: set<nat>)

  datatype Manager = Manager(
    table: seq<Listener>, mapped: Option<map<string, nat>>, lock: Option<nat>, threads: map<nat, Thread>,
    handles: map<nat, nat>, issued: nat, returned: multiset<nat>)

  datatype Event =
    | CallSet(t: nat, config: Config)
    | CallDelete(t: nat, id: string)
    | StartManager
    | CallStop(t: nat)
    | StopOne(t: nat, l: nat)
    | EndStop(t: nat)
    | Read(t: nat)
    | Connect(t: nat)
    | ConnectFails(t: nat)
    | Subscribe(t: nat)
    | SubscribeFails(t: nat)
    | Publish(t: nat)
    | Remove(t: nat)
    | Retire(t: nat)

  function Init(): Manager {
    Manager([], None, None, map[], map[], 0, multiset{})
  }

  predicate Indexed(th: Thread, size: nat) {
    match th
    case Connecting(_, existing) => existing.Some? ==> existing.value < size
    case Subscribing(_, existing, own) => own < size && (existing.Some? ==> existing.value < size)
    case Publishing(_, existing, own) => own < size && (existing.Some? ==> existing.value < size)
    case Retiring(gone) => gone < size
    case Stopping(todo) => forall l :: l in todo ==> l < size
    case _ => true
  }

  /** All references are to listeners of the table. */
  predicate Typed(m: Manager) {
    && (forall t :: t in m.threads ==> Indexed(m.threads[t], |m.table|))
    && (m.mapped.Some? ==> forall id :: id in m.mapped.value ==> m.mapped.value[id] < |m.table|)
  }

  // ----- Pieces of steps -----

  function Done(m: Manager, t: nat): (r: Manager)
    requires Typed(m)
    ensures Typed(r)
  {
    m.(threads := m.threads - {t})
  }

  function At(m: Manager, t: nat, th: Thread): (r: Manager)
    requires Typed(m) && Indexed(th, |m.table|)
    ensures Typed(r)
  {
    m.(threads := m.threads[t := th])
  }

  /** Hand a pool connection back. */
  function Return(m: Manager, h: nat): Manager {
    m.(handles := m.handles - {h}, returned := m.returned + multiset{h})
  }

  /** The Stop method of a listener, which runs under the listener's own lock. */
  function StopListener(m: Manager, l: nat): (r: Manager)
    requires Typed(m) && l < |m.table|
    ensures Typed(r) && |r.table| == |m.table| && r.threads == m.threads
  {
    var lst := m.table[l];
    if !lst.running then m
    else
      var stopped := m.(table := m.table[l := lst.(running := false, conn := None)]);
      if lst.conn.Some? then Return(stopped, lst.conn.value) else stopped
  }

  // ----- Steps -----

  ghost predicate Enabled(m: Manager, e: Event) {
    match e
    case CallSet(t, _) => t !in m.threads
    case CallDelete(t, _) => t !in m.threads
    case StartManager => m.lock.None?
    case CallStop(t) => t !in m.threads && m.lock.None?
    case StopOne(t, l) => t in m.threads && m.threads[t].Stopping? && l in m.threads[t].todo
    case EndStop(t) => t in m.threads && m.threads[t] == Stopping({})
    case Read(t) => t in m.threads && m.threads[t].Setting? && m.lock.None?
    case Connect(t) => t in m.threads && m.threads[t].Connecting?
    case ConnectFails(t) => t in m.threads && m.threads[t].Connecting?
    case Subscribe(t) => t in m.threads && m.threads[t].Subscribing?
    case SubscribeFails(t) => t in m.threads && m.threads[t].Subscribing?
    case Publish(t) => t in m.threads && m.threads[t].Publishing? && m.lock.None?
    case Remove(t) => t in m.threads && m.threads[t].Deleting? && m.lock.None?
    case Retire(t) => t in m.threads && m.threads[t].Retiring?
  }

  function Lookup(mapped: map<string, nat>, id: string): Option<nat> {
    if id in mapped then Some(mapped[id]) else None
  }

  /** The first section of Set. */
  function ReadStep(m: Manager, t: nat, config: Config): (r: Manager)
    requires Typed(m)
    ensures Typed(r)
  {
    if m.mapped.None? then Done(m, t)
    else
      var existing := Lookup(m.mapped.value, config.id);
      if existing.Some? && m.table[existing.value].config == config then Done(m, t)
      else At(m, t, Connecting(config, existing))
  }

  function ConnectStep(m: Manager, t: nat, config: Config, existing: Option<nat>): (r: Manager)
    requires Typed(m) && (existing.Some? ==> existing.value < |m.table|)
    ensures Typed(r)
  {
    var own := |m.table|;
    At(m.(table := m.table + [Listener(config, true, false, Some(m.issued))],
          handles := m.handles[m.issued := own], issued := m.issued + 1),
       t, Subscribing(config, existing, own))
  }

  function SubscribeStep(m: Manager, t: nat, config: Config, existing: Option<nat>, own: nat): (r: Manager)
    requires Typed(m) && Indexed(Subscribing(config, existing, own), |m.table|)
    ensures Typed(r)
  {
    At(m.(table := m.table[own := m.table[own].(subscribed := true)]), t, Publishing(config, existing, own))
  }

  /** A listener that cannot subscribe gives its connection back but is left marked as
      running, with the connection it no longer owns. */
  function SubscribeFailsStep(m: Manager, t: nat, own: nat): (r: Manager)
    requires Typed(m) && own < |m.table|
    ensures Typed(r)
  {
    var lst := m.table[own];
    Done(if lst.conn.Some? then Return(m, lst.conn.value) else m, t)
  }

  /** The second section of Set. */
  function PublishStep(m: Manager, t: nat, config: Config, existing: Option<nat>, own: nat): (r: Manager)
    requires Typed(m) && Indexed(Publishing(config, existing, own), |m.table|)
    ensures Typed(r)
  {
    if m.mapped.None? then At(m, t, Retiring(own))
    else
      var swapped := m.(mapped := Some(m.mapped.value[config.id := own]));
      if existing.Some? then At(swapped, t, Retiring(existing.value)) else Done(swapped, t)
  }

  function RemoveStep(m: Manager, t: nat, id: string): (r: Manager)
    requires Typed(m)
    ensures Typed(r)
  {
    if m.mapped.None? || id !in m.mapped.value then Done(m, t)
    else At(m.(mapped := Some(m.mapped.value - {id})), t, Retiring(m.mapped.value[id]))
  }

  function CallStopStep(m: Manager, t: nat): (r: Manager)
    requires Typed(m)
    ensures Typed(r)
  {
    if m.mapped.None? then m
    else At(m.(lock := Some(t)), t, Stopping(m.mapped.value.Values))
  }

  function StopOneStep(m: Manager, t: nat, l: nat): (r: Manager)
    requires Typed(m) && t in m.threads && m.threads[t].Stopping? && l in m.threads[t].todo
    ensures Typed(r)
  {
    assert Indexed(m.threads[t], |m.table|);
    At(StopListener(m, l), t, Stopping(m.threads[t].todo - {l}))
  }

  ghost function Next(m: Manager, e: Event): Manager
    requires Typed(m) && Enabled(m, e)
    ensures Typed(Next(m, e))
  {
    match e
    case CallSet(t, config) => At(m, t, Setting(config))
    case CallDelete(t, id) => At(m, t, Deleting(id))
    case StartManager => if m.mapped.None? then m.(mapped := Some(map[])) else m
    case CallStop(t) => CallStopStep(m, t)
    case StopOne(t, l) => StopOneStep(m, t, l)
    case EndStop(t) => Done(m, t).(mapped := None, lock := None)
    case Read(t) => ReadStep(m, t, m.threads[t].config)
    case Connect(t) =>
      assert Indexed(m.threads[t], |m.table|);
      ConnectStep(m, t, m.threads[t].config, m.threads[t].existing)
    case ConnectFails(t) => Done(m, t)
    case Subscribe(t) =>
      assert Indexed(m.threads[t], |m.table|);
      SubscribeStep(m, t, m.threads[t].config, m.threads[t].existing, m.threads[t].own)
    case SubscribeFails(t) =>
      assert Indexed(m.threads[t], |m.table|);
      SubscribeFailsStep(m, t, m.threads[t].own)
    case Publish(t) =>
      assert Indexed(m.threads[t], |m.table|);
      PublishStep(m, t, m.threads[t].config, m.threads[t].existing, m.threads[t].own)
    case Remove(t) => RemoveStep(m, t, m.threads[t].id)
    case Retire(t) =>
      assert Indexed(m.threads[t], |m.table|);
      Done(StopListener(m, m.threads[t].gone), t)
  }
}

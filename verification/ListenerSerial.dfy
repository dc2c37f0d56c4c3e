/** The calls to a manager object, one after the other, are runs of the machine: what the
    object listens with is what the machine listens with, step for step of the protocol. */
module ListenerSerial {
  import opened Prelude
  import opened ListenerHeap
  import L = ListenerMachine
  import LR = ListenerRuns
  import LM = ListenerManager

  /** No call is under way. */
  ghost predicate Quiet(m: L.Manager) {
    LR.Inv(m) && m.threads == map[] && m.lock.None?
  }

  /** `on` tells which connection is behind a handle. */
  ghost predicate ShowsOne(lst: L.Listener, on: map<nat, nat>, config: Config, conn: nat) {
    lst.config == config && lst.conn.Some? && lst.conn.value in on && on[lst.conn.value] == conn
  }

  ghost predicate ShowsAll(mapped: map<string, nat>, table: seq<L.Listener>, on: map<nat, nat>, view: LM.View) {
    && view.configs.Keys == mapped.Keys == view.conns.Keys
    && forall id :: id in mapped ==>
         mapped[id] < |table| && ShowsOne(table[mapped[id]], on, view.configs[id], view.conns[id])
  }

  /** The mapped listeners of the machine are those of the view. */
  ghost predicate Shows(m: L.Manager, on: map<nat, nat>, view: Option<LM.View>) {
    && (m.mapped.None? <==> view.None?)
    && (m.mapped.Some? ==> ShowsAll(m.mapped.value, m.table, on, view.value))
  }

  ghost predicate Leads(m: L.Manager, evs: seq<L.Event>, n: L.Manager) {
    L.Typed(m) && LR.Legal(m, evs) && LR.Run(m, evs) == n && L.Typed(n)
  }

  lemma Then(m: L.Manager, xs: seq<L.Event>, n: L.Manager, ys: seq<L.Event>, r: L.Manager)
    requires Leads(m, xs, n) && Leads(n, ys, r)
    ensures Leads(m, xs + ys, r)
  {
    LR.RunOn(m, xs, ys);
  }

  lemma Step(m: L.Manager, xs: seq<L.Event>, n: L.Manager, e: L.Event)
    requires Leads(m, xs, n) && L.Enabled(n, e)
    ensures Leads(m, xs + [e], L.Next(n, e))
  {
    LR.OneStep(n, e);
    Then(m, xs, n, [e], L.Next(n, e));
  }

  /** What does not touch the map and the mapped listeners does not show. */
  lemma StillShows(m: L.Manager, n: L.Manager, on: map<nat, nat>, view: Option<LM.View>)
    requires L.Typed(m) && L.Typed(n) && Shows(m, on, view) && n.mapped == m.mapped
    requires m.mapped.Some? ==>
               forall id :: id in m.mapped.value ==> n.table[m.mapped.value[id]] == m.table[m.mapped.value[id]]
    ensures Shows(n, on, view)
  {
  }

  // ----- Set -----

  /** The machine with one call under way, at one point of it. */
  function Doing(m: L.Manager, th: L.Thread): (r: L.Manager)
    requires L.Typed(m) && L.Indexed(th, |m.table|)
    ensures L.Typed(r)
  {
    m.(threads := map[0 := th])
  }

  ghost predicate Unchanged(m: L.Manager, config: Config)
    requires L.Typed(m)
  {
    m.mapped.None? || (config.id in m.mapped.value && m.table[m.mapped.value[config.id]].config == config)
  }

  /** A Set that has nothing to do, or finds the manager stopped. */
  lemma SetRefused(m: L.Manager, config: Config)
    requires Quiet(m) && Unchanged(m, config)
    ensures Leads(m, [L.CallSet(0, config), L.Read(0)], m)
  {
    LR.TwoSteps(m, L.CallSet(0, config), L.Read(0));
    assert m.threads[0 := L.Setting(config)] - {0} == map[];
  }

  lemma SetBegins(m: L.Manager, config: Config)
    requires Quiet(m) && !Unchanged(m, config)
    ensures L.Indexed(L.Connecting(config, L.Lookup(m.mapped.value, config.id)), |m.table|)
    ensures Leads(m, [L.CallSet(0, config), L.Read(0)],
                  Doing(m, L.Connecting(config, L.Lookup(m.mapped.value, config.id))))
  {
    LR.TwoSteps(m, L.CallSet(0, config), L.Read(0));
    var th := L.Connecting(config, L.Lookup(m.mapped.value, config.id));
    assert m.threads[0 := L.Setting(config)][0 := th] == map[0 := th];
  }

  lemma NoConnection(m: L.Manager, config: Config)
    requires Quiet(m) && !Unchanged(m, config)
    ensures Leads(m, [L.CallSet(0, config), L.Read(0)] + [L.ConnectFails(0)], m)
  {
    SetBegins(m, config);
    var begun := Doing(m, L.Connecting(config, L.Lookup(m.mapped.value, config.id)));
    Step(m, [L.CallSet(0, config), L.Read(0)], begun, L.ConnectFails(0));
    assert begun.threads - {0} == map[];
  }

  /** The new listener has a connection and is about to subscribe. */
  function Connected(m: L.Manager, config: Config): (r: L.Manager)
    requires L.Typed(m) && m.mapped.Some?
    ensures L.Typed(r)
  {
    L.ConnectStep(
      Doing(m, L.Connecting(config, L.Lookup(m.mapped.value, config.id))), 0, config,
      L.Lookup(m.mapped.value, config.id))
  }

  function ToConnected(config: Config): seq<L.Event> {
    [L.CallSet(0, config), L.Read(0)] + [L.Connect(0)]
  }

  lemma SetConnects(m: L.Manager, config: Config)
    requires Quiet(m) && !Unchanged(m, config)
    ensures Leads(m, ToConnected(config), Connected(m, config))
  {
    SetBegins(m, config);
    var begun := Doing(m, L.Connecting(config, L.Lookup(m.mapped.value, config.id)));
    Step(m, [L.CallSet(0, config), L.Read(0)], begun, L.Connect(0));
  }

  lemma QuietAfter(m: L.Manager, evs: seq<L.Event>, n: L.Manager)
    requires LR.Inv(m) && Leads(m, evs, n) && n.threads == map[] && n.lock.None?
    ensures Quiet(n)
  {
    LR.RunInv(m, evs);
  }

  lemma NoSubscription(m: L.Manager, config: Config, on: map<nat, nat>, view: Option<LM.View>) returns (n: L.Manager)
    requires Quiet(m) && !Unchanged(m, config) && Shows(m, on, view)
    ensures Leads(m, ToConnected(config) + [L.SubscribeFails(0)], n) && Quiet(n) && Shows(n, on, view)
  {
    SetConnects(m, config);
    var connected := Connected(m, config);
    Step(m, ToConnected(config), connected, L.SubscribeFails(0));
    n := L.Next(connected, L.SubscribeFails(0));
    assert n.threads == map[];
    QuietAfter(m, ToConnected(config) + [L.SubscribeFails(0)], n);
    StillShows(m, n, on, view);
  }

  /** The new listener has subscribed and is published. */
  function Published(m: L.Manager, config: Config): (r: L.Manager)
    requires L.Typed(m) && m.mapped.Some?
    ensures L.Typed(r)
  {
    var existing, own := L.Lookup(m.mapped.value, config.id), |m.table|;
    L.PublishStep(L.SubscribeStep(Connected(m, config), 0, config, existing, own), 0, config, existing, own)
  }

  function ToPublished(config: Config): seq<L.Event> {
    ToConnected(config) + [L.Subscribe(0)] + [L.Publish(0)]
  }

  lemma SetPublishes(m: L.Manager, config: Config)
    requires Quiet(m) && !Unchanged(m, config)
    ensures Leads(m, ToPublished(config), Published(m, config))
  {
    SetConnects(m, config);
    Step(m, ToConnected(config), Connected(m, config), L.Subscribe(0));
    Step(m, ToConnected(config) + [L.Subscribe(0)], L.Next(Connected(m, config), L.Subscribe(0)), L.Publish(0));
  }

  function Installed(view: LM.View, config: Config, conn: nat): LM.View {
    LM.View(view.configs[config.id := config], view.conns[config.id := conn])
  }

  lemma PublishedIs(m: L.Manager, config: Config)
    requires L.Typed(m) && m.mapped.Some?
    ensures var n := Published(m, config);
            && n.mapped == Some(m.mapped.value[config.id := |m.table|]) && n.lock == m.lock
            && n.table == m.table + [L.Listener(config, true, true, Some(m.issued))]
            && n.threads ==
               if config.id in m.mapped.value then map[0 := L.Retiring(m.mapped.value[config.id])] else map[]
  {
    var th := map[0 := L.Publishing(config, L.Lookup(m.mapped.value, config.id), |m.table|)];
    assert th - {0} == map[];
  }

  /** One more listener, with a handle that no other has. */
  lemma ShowsMore(
    mapped: map<string, nat>, table: seq<L.Listener>, on: map<nat, nat>, view: LM.View, config: Config, h: nat,
    conn: nat)
    requires ShowsAll(mapped, table, on, view)
    requires forall id :: id in mapped ==> table[mapped[id]].conn != Some(h)
    ensures ShowsAll(mapped[config.id := |table|], table + [L.Listener(config, true, true, Some(h))], on[h := conn],
                     Installed(view, config, conn))
  {
  }

  lemma PublishedShows(m: L.Manager, config: Config, on: map<nat, nat>, view: Option<LM.View>, conn: nat)
    requires Quiet(m) && m.mapped.Some? && Shows(m, on, view)
    ensures Shows(Published(m, config), on[m.issued := conn], Some(Installed(view.value, config, conn)))
  {
    PublishedIs(m, config);
    forall id | id in m.mapped.value
      ensures m.table[m.mapped.value[id]].conn != Some(m.issued)
    {
      assert m.mapped.value[id] in m.mapped.value.Values;
    }
    ShowsMore(m.mapped.value, m.table, on, view.value, config, m.issued, conn);
  }

  /** A listener that is not mapped can be stopped without anything to show for it. */
  lemma RetireShows(m: L.Manager, gone: nat, on: map<nat, nat>, view: Option<LM.View>)
    requires LR.Inv(m) && m.threads == map[0 := L.Retiring(gone)] && m.lock.None? && Shows(m, on, view)
    ensures Leads(m, [L.Retire(0)], L.Next(m, L.Retire(0)))
    ensures Quiet(L.Next(m, L.Retire(0))) && Shows(L.Next(m, L.Retire(0)), on, view)
  {
    assert LR.Detached(m.threads[0], m.mapped);
    var n := L.Next(m, L.Retire(0));
    LR.OneStep(m, L.Retire(0));
    assert m.threads - {0} == map[];
    LR.NextInv(m, L.Retire(0));
    StillShows(m, n, on, view);
  }

  /** A Set whose listener starts. */
  lemma SetInstalls(m: L.Manager, config: Config, on: map<nat, nat>, view: Option<LM.View>, conn: nat)
    returns (evs: seq<L.Event>, n: L.Manager)
    requires Quiet(m) && !Unchanged(m, config) && Shows(m, on, view)
    ensures Leads(m, evs, n) && Quiet(n)
    ensures Shows(n, on[m.issued := conn], Some(Installed(view.value, config, conn)))
  {
    evs, n := ToPublished(config), Published(m, config);
    SetPublishes(m, config);
    PublishedIs(m, config);
    PublishedShows(m, config, on, view, conn);
    LR.RunInv(m, evs);
    if config.id in m.mapped.value {
      RetireShows(n, m.mapped.value[config.id], on[m.issued := conn], Some(Installed(view.value, config, conn)));
      Then(m, evs, n, [L.Retire(0)], L.Next(n, L.Retire(0)));
      evs, n := evs + [L.Retire(0)], L.Next(n, L.Retire(0));
    } else {
      QuietAfter(m, evs, n);
    }
  }

  // ----- Delete -----

  lemma DeleteAbsent(m: L.Manager, id: string)
    requires Quiet(m) && (m.mapped.None? || id !in m.mapped.value)
    ensures Leads(m, [L.CallDelete(0, id), L.Remove(0)], m)
  {
    LR.TwoSteps(m, L.CallDelete(0, id), L.Remove(0));
    assert m.threads[0 := L.Deleting(id)] - {0} == map[];
  }

  function Removed(m: L.Manager, id: string): (r: L.Manager)
    requires L.Typed(m) && m.mapped.Some? && id in m.mapped.value
    ensures L.Typed(r)
  {
    m.(mapped := Some(m.mapped.value - {id}), threads := map[0 := L.Retiring(m.mapped.value[id])])
  }

  lemma DeleteRemoves(m: L.Manager, id: string)
    requires Quiet(m) && m.mapped.Some? && id in m.mapped.value
    ensures Leads(m, [L.CallDelete(0, id), L.Remove(0)], Removed(m, id))
  {
    LR.TwoSteps(m, L.CallDelete(0, id), L.Remove(0));
    assert m.threads[0 := L.Deleting(id)][0 := L.Retiring(m.mapped.value[id])] == Removed(m, id).threads;
  }

  function Without(view: LM.View, id: string): LM.View {
    LM.View(view.configs - {id}, view.conns - {id})
  }

  lemma Deletes(m: L.Manager, id: string, on: map<nat, nat>, view: Option<LM.View>)
    returns (evs: seq<L.Event>, n: L.Manager)
    requires Quiet(m) && Shows(m, on, view) && view.Some?
    ensures Leads(m, evs, n) && Quiet(n) && Shows(n, on, Some(Without(view.value, id)))
  {
    evs := [L.CallDelete(0, id), L.Remove(0)];
    if id in m.mapped.value {
      DeleteRemoves(m, id);
      LR.RunInv(m, evs);
      RetireShows(Removed(m, id), m.mapped.value[id], on, Some(Without(view.value, id)));
      n := L.Next(Removed(m, id), L.Retire(0));
      Then(m, evs, Removed(m, id), [L.Retire(0)], n);
      evs := evs + [L.Retire(0)];
    } else {
      DeleteAbsent(m, id);
      n := m;
      assert Without(view.value, id) == view.value;
    }
  }

  // ----- Stop -----

  lemma StopsOne(m: L.Manager, todo: set<nat>, l: nat)
    requires LR.Inv(m) && m.lock == Some(0) && m.threads == map[0 := L.Stopping(todo)] && l in todo
    ensures var next := L.Next(m, L.StopOne(0, l));
            && Leads(m, [L.StopOne(0, l)], next) && LR.Inv(next)
            && next.lock == m.lock && next.threads == map[0 := L.Stopping(todo - {l})]
  {
    LR.NextInv(m, L.StopOne(0, l));
    LR.OneStep(m, L.StopOne(0, l));
    assert map[0 := L.Stopping(todo)][0 := L.Stopping(todo - {l})] == map[0 := L.Stopping(todo - {l})];
  }

  /** Stop goes through the mapped listeners in some order. */
  lemma {:induction false} StopsAll(m: L.Manager, todo: set<nat>) returns (evs: seq<L.Event>, n: L.Manager)
    requires LR.Inv(m) && m.lock == Some(0) && m.threads == map[0 := L.Stopping(todo)]
    ensures Leads(m, evs, n) && LR.Inv(n) && n.lock == Some(0) && n.threads == map[0 := L.Stopping({})]
    decreases |todo|
  {
    if todo == {} {
      evs, n := [], m;
    } else {
      var l :| l in todo;
      var next := L.Next(m, L.StopOne(0, l));
      StopsOne(m, todo, l);
      evs, n := StopsAll(next, todo - {l});
      Then(m, [L.StopOne(0, l)], next, evs, n);
      evs := [L.StopOne(0, l)] + evs;
    }
  }

  lemma Stops(m: L.Manager) returns (evs: seq<L.Event>, n: L.Manager)
    requires Quiet(m)
    ensures Leads(m, evs, n) && Quiet(n) && n.mapped.None?
  {
    var begun := L.Next(m, L.CallStop(0));
    LR.OneStep(m, L.CallStop(0));
    LR.NextInv(m, L.CallStop(0));
    evs, n := [L.CallStop(0)], begun;
    if m.mapped.Some? {
      assert begun.threads == map[0 := L.Stopping(m.mapped.value.Values)];
      var more, stopped := StopsAll(begun, m.mapped.value.Values);
      Then(m, evs, begun, more, stopped);
      Step(m, evs + more, stopped, L.EndStop(0));
      LR.NextInv(stopped, L.EndStop(0));
      evs, n := evs + more + [L.EndStop(0)], L.Next(stopped, L.EndStop(0));
      assert n.threads == map[];
    }
  }

  // ----- Any call -----

  lemma Sets(
    kind: Kind, m: L.Manager, on: map<nat, nat>, view: Option<LM.View>, config: Config, valid: bool, env: Env)
    returns (evs: seq<L.Event>, n: L.Manager, more: map<nat, nat>)
    requires Quiet(m) && Shows(m, on, view)
    ensures Leads(m, evs, n) && Quiet(n) && Shows(n, more, LM.Effect(kind, view, LM.DoSet(config, valid, env)))
  {
    evs, n, more := [], m, on;
    if valid {
      if Unchanged(m, config) {
        SetRefused(m, config);
        evs := [L.CallSet(0, config), L.Read(0)];
      } else if env.offer.None? {
        NoConnection(m, config);
        evs := [L.CallSet(0, config), L.Read(0)] + [L.ConnectFails(0)];
      } else if !CanStart(kind, env) {
        n := NoSubscription(m, config, on, view);
        evs := ToConnected(config) + [L.SubscribeFails(0)];
      } else {
        evs, n := SetInstalls(m, config, on, view, env.offer.value);
        more := on[m.issued := env.offer.value];
      }
    }
  }

  lemma Starts(m: L.Manager, on: map<nat, nat>, view: Option<LM.View>)
    requires Quiet(m) && Shows(m, on, view)
    ensures var n := L.Next(m, L.StartManager);
            && Leads(m, [L.StartManager], n) && Quiet(n)
            && Shows(n, on, if view.None? then Some(LM.View(map[], map[])) else view)
  {
    LR.OneStep(m, L.StartManager);
    LR.NextInv(m, L.StartManager);
  }

  /** Every call is a run of the machine that shows the same effect. */
  lemma CallRuns(kind: Kind, m: L.Manager, on: map<nat, nat>, view: Option<LM.View>, op: LM.Op)
    returns (evs: seq<L.Event>, n: L.Manager, more: map<nat, nat>)
    requires Quiet(m) && Shows(m, on, view)
    ensures Leads(m, evs, n) && Quiet(n) && Shows(n, more, LM.Effect(kind, view, op))
  {
    more := on;
    match op
    case DoStart =>
      Starts(m, on, view);
      evs, n := [L.StartManager], L.Next(m, L.StartManager);
    case DoStop =>
      evs, n := Stops(m);
    case DoSet(config, valid, env) =>
      evs, n, more := Sets(kind, m, on, view, config, valid, env);
    case DoDelete(id) =>
      if view.Some? {
        evs, n := Deletes(m, id, on, view);
      } else {
        DeleteAbsent(m, id);
        evs, n := [L.CallDelete(0, id), L.Remove(0)], m;
      }
  }

  /** And so is every sequence of calls. */
  lemma {:induction false} CallsRun(kind: Kind, ops: seq<LM.Op>)
    returns (evs: seq<L.Event>, n: L.Manager, on: map<nat, nat>)
    ensures Leads(L.Init(), evs, n) && Quiet(n) && Shows(n, on, LM.Effects(kind, None, ops))
  {
    if ops == [] {
      LR.InitInv();
      evs, n, on := [], L.Init(), map[];
    } else {
      var init, last := ops[..|ops| - 1], ops[|ops| - 1];
      evs, n, on := CallsRun(kind, init);
      var more, m, link := CallRuns(kind, n, on, LM.Effects(kind, None, init), last);
      Then(L.Init(), evs, n, more, m);
      evs, n, on := evs + more, m, link;
    }
  }

  /** A new manager, after any calls: the listeners that it has, with their configurations and
      connections, are those of a run of the machine. */
  method ReplayOnMachine(om: LM.Manager, ops: seq<LM.Op>) returns (ghost evs: seq<L.Event>, ghost on: map<nat, nat>)
    requires om.Valid() && om.listenerMap.None?
    modifies om`listenerMap, om.provider, om.gauge, om.Mapped().Values
    ensures om.Valid() && LR.Legal(L.Init(), evs)
    ensures Quiet(LR.Run(L.Init(), evs)) && Shows(LR.Run(L.Init(), evs), on, LM.ViewOf(om))
  {
    ghost var n;
    evs, n, on := CallsRun(om.kind, ops);
    LM.Replay(om, ops);
  }
}

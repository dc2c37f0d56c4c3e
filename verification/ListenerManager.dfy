/** The manager of the listeners of one kind, one call at a time. The program has one such
    manager for service observations and one for JetStream advisories. */
module ListenerManager {
  import opened Prelude
  import opened ListenerHeap

  type Listeners = map<string, Listener>

  /** The connection of every mapped listener. */
  ghost function Conns(m: Listeners): map<string, nat>
    reads m.Values
  {
    map id | id in m && m[id].conn.Some? :: m[id].conn.value
  }

  /** The configuration of every mapped listener. */
  ghost function ConfigsOf(m: Listeners): map<string, Config> {
    map id | id in m :: m[id].config
  }

  lemma ConfigsWithout(m: Listeners, id: string)
    ensures ConfigsOf(m - {id}) == ConfigsOf(m) - {id}
  {
  }

  lemma ConnsWithout(m: Listeners, id: string)
    ensures Conns(m - {id}) == Conns(m) - {id}
  {
  }

  lemma WithoutAbsent(m: Listeners, id: string)
    requires id !in m
    ensures m - {id} == m && ConfigsOf(m) - {id} == ConfigsOf(m)
  {
  }

  lemma ConfigsWith(m: Listeners, id: string, lst: Listener)
    ensures ConfigsOf(m[id := lst]) == ConfigsOf(m)[id := lst.config]
    ensures m[id := lst].Values <= m.Values + {lst}
  {
  }

  lemma SizeWith(m: Listeners, id: string, lst: Listener)
    requires id !in m
    ensures |m[id := lst]| == |m| + 1
  {
    assert m[id := lst].Keys == m.Keys + {id};
  }

  class Manager {
    const kind: Kind
    const provider: Provider
    const gauge: Gauge
    var listenerMap: Option<Listeners>

    /** What other users of the pool have on loan. */
    ghost var others: multiset<nat>

    ghost function Mapped(): Listeners
      reads this
    {
      if listenerMap.Some? then listenerMap.value else map[]
    }

    /** The listener is one of this manager's, and it runs. */
    ghost predicate Runs(lst: Listener)
      reads lst
    {
      && lst.kind == kind && lst.provider == provider && lst.gauge == gauge
      && lst.running && lst.Subscribed() && lst.conn.Some?
    }

    /** All mapped listeners run under the id they are mapped by. */
    ghost predicate AllRun(m: Listeners)
      reads m.Values
    {
      forall id :: id in m ==> m[id].config.id == id && Runs(m[id])
    }

    /** Beside what others have on loan, each connection is on loan as often as there are
        mapped listeners that hold it. */
    ghost predicate Balanced(held: multiset<nat>, conns: map<string, nat>)
      reads `others
    {
      forall c :: held[c] == others[c] + |Preimage(conns, c)|
    }

    ghost predicate Valid()
      reads this, provider, gauge, Mapped().Values
    {
      && AllRun(Mapped())
      && Balanced(provider.held, Conns(Mapped()))
      && gauge.value == |Mapped()|
    }

    /** The configurations of the mapped listeners. */
    ghost function Configs(): map<string, Config>
      reads this
    {
      ConfigsOf(Mapped())
    }

    /** The connections of the mapped listeners. */
    ghost function Connections(): map<string, nat>
      reads this, Mapped().Values
    {
      Conns(Mapped())
    }

    constructor (kind: Kind, provider: Provider, gauge: Gauge)
      requires gauge.value == 0
      ensures Valid() && listenerMap == None
      ensures this.kind == kind && this.provider == provider && this.gauge == gauge
      ensures others == provider.held
    {
      this.kind, this.provider, this.gauge := kind, provider, gauge;
      listenerMap, others := None, provider.held;
    }

    method Start()
      requires Valid()
      modifies `listenerMap
      ensures Valid() && listenerMap.Some? && Mapped() == old(Mapped())
    {
      if listenerMap.Some? {
        return;
      }
      listenerMap := Some(map[]);
    }

    method ConfigMap() returns (configs: map<string, Config>)
      requires Valid()
      ensures configs == Configs()
    {
      configs := map[];
      if listenerMap.None? {
        return;
      }
      var m := listenerMap.value;
      var todo := m.Keys;
      while todo != {}
        invariant todo <= m.Keys
        invariant configs == map id | id in m && id !in todo :: m[id].config
        decreases |todo|
      {
        var id :| id in todo;
        configs := configs[id := m[id].config];
        todo := todo - {id};
      }
    }

    /** The connection of a mapped listener is on loan. */
    lemma OnLoan(held: multiset<nat>, conns: map<string, nat>, id: string)
      requires Balanced(held, conns) && id in conns
      ensures conns[id] in held
    {
      assert id in Preimage(conns, conns[id]);
    }

    lemma Lend(held: multiset<nat>, conns: map<string, nat>, id: string, c: nat)
      requires Balanced(held, conns) && id !in conns
      ensures Balanced(held + multiset{c}, conns[id := c])
    {
      forall d {
        PreimageAdd(conns, id, c, d);
      }
    }

    lemma GiveBack(held: multiset<nat>, conns: map<string, nat>, id: string)
      requires Balanced(held, conns) && id in conns
      ensures conns[id] in held && Balanced(held - multiset{conns[id]}, conns - {id})
    {
      OnLoan(held, conns, id);
      forall d {
        PreimageRemove(conns, id, d);
      }
    }

    /** A new listener in place of an old one: one more loan, and one less. */
    lemma Exchange(held: multiset<nat>, conns: map<string, nat>, id: string, c: nat)
      requires Balanced(held, conns) && id in conns
      ensures conns[id] in held && Balanced(held + multiset{c} - multiset{conns[id]}, conns[id := c])
    {
      GiveBack(held, conns, id);
      Lend(held - multiset{conns[id]}, conns - {id}, id, c);
      assert (conns - {id})[id := c] == conns[id := c];
      assert held - multiset{conns[id]} + multiset{c} == held + multiset{c} - multiset{conns[id]};
    }

    /** Stop a listener that is not among the rest any more. */
    method Retire(gone: Listener, ghost rest: Listeners)
      requires AllRun(rest) && gone !in rest.Values && gauge.value == |rest| + 1
      requires Runs(gone)
      requires gone.conn.value in provider.held
      requires Balanced(provider.held - multiset{gone.conn.value}, Conns(rest))
      modifies gone, provider, gauge
      ensures AllRun(rest) && Balanced(provider.held, Conns(rest)) && gauge.value == |rest|
      ensures Conns(rest) == old(Conns(rest))
    {
      gone.Stop();
    }

    lemma Unmap(m: Listeners, held: multiset<nat>, id: string)
      requires AllRun(m) && Balanced(held, Conns(m)) && id in m
      ensures var gone := m[id];
              && gone.conn.value in held && gone !in (m - {id}).Values
              && Balanced(held - multiset{gone.conn.value}, Conns(m - {id}))
              && AllRun(m - {id}) && |m| == |m - {id}| + 1
    {
      GiveBack(held, Conns(m), id);
      assert Conns(m - {id}) == Conns(m) - {id};
      assert (m - {id}).Keys == m.Keys - {id};
    }

    /** Stop the listener of an id, which is not among the rest. */
    method StopGone(m: Listeners, id: string)
      requires id in m && AllRun(m) && Balanced(provider.held, Conns(m)) && gauge.value == |m|
      modifies provider, gauge, m[id]
      ensures var rest := m - {id};
              AllRun(rest) && Balanced(provider.held, Conns(rest)) && gauge.value == |rest| < |m|
      ensures Conns(m - {id}) == old(Conns(m)) - {id}
    {
      Unmap(m, provider.held, id);
      ConnsWithout(m, id);
      Retire(m[id], m - {id});
    }

    /** Take a mapped listener out of the map and stop it. */
    method Uninstall(id: string)
      requires Valid() && listenerMap.Some? && id in listenerMap.value
      modifies this`listenerMap, provider, gauge, listenerMap.value[id]
      ensures Valid() && listenerMap == Some(old(listenerMap).value - {id})
      ensures Connections() == old(Connections()) - {id}
    {
      var m := listenerMap.value;
      listenerMap := Some(m - {id});
      StopGone(m, id);
    }

    method Delete(id: string) returns (ok: bool)
      requires Valid()
      modifies this`listenerMap, provider, gauge, Mapped().Values
      ensures Valid()
      ensures ok == (old(listenerMap).Some? && id in old(Mapped()))
      ensures Mapped() == old(Mapped()) - {id} && listenerMap.Some? == old(listenerMap).Some?
      ensures Configs() == old(Configs()) - {id} && Connections() == old(Connections()) - {id}
      ensures !ok ==> provider.held == old(provider.held) && gauge.value == old(gauge.value)
    {
      if listenerMap.None? || id !in listenerMap.value {
        WithoutAbsent(Mapped(), id);
        assert id !in Connections() && Connections() - {id} == Connections();
        return false;
      }
      ConfigsWithout(listenerMap.value, id);
      Uninstall(id);
      return true;
    }

    lemma Settled(held: multiset<nat>, conns: map<string, nat>)
      requires Balanced(held, conns) && conns == map[]
      ensures forall c :: held[c] == others[c]
    {
    }

    method StopAll(m: Listeners)
      requires AllRun(m) && Balanced(provider.held, Conns(m)) && gauge.value == |m|
      modifies provider, gauge, m.Values
      ensures gauge.value == 0 && forall c :: provider.held[c] == others[c]
    {
      var rest := m;
      while rest != map[]
        invariant rest.Values <= m.Values
        invariant AllRun(rest) && Balanced(provider.held, Conns(rest)) && gauge.value == |rest|
        decreases |rest|
      {
        var id :| id in rest;
        StopGone(rest, id);
        rest := rest - {id};
      }
      Settled(provider.held, Conns(rest));
    }

    /** Stop every listener; all their loans are given back. */
    method Stop()
      requires Valid()
      modifies this`listenerMap, provider, gauge, Mapped().Values
      ensures Valid() && listenerMap.None? && gauge.value == 0
      ensures forall c :: provider.held[c] == others[c]
    {
      if listenerMap.None? {
        return;
      }
      StopAll(listenerMap.value);
      gauge.value := 0;
      listenerMap := None;
    }

    /** A new listener that is started, or not if something fails. */
    method Launch(config: Config, env: Env) returns (lst: Listener, ok: bool)
      modifies provider, gauge
      ensures fresh(lst) && lst.config == config && ok == CanStart(kind, env)
      ensures ok ==>
                && Runs(lst) && lst.conn == env.offer
                && provider.held == old(provider.held) + Loan(env.offer) && gauge.value == old(gauge.value) + 1
      ensures !ok ==> provider.held == old(provider.held) && gauge.value == old(gauge.value)
    {
      lst := new Listener(kind, config, provider, gauge);
      ok := lst.Start(env);
    }

    lemma Join(m: Listeners, held: multiset<nat>, lst: Listener)
      requires AllRun(m) && Balanced(held, Conns(m)) && lst.config.id !in m
      requires Runs(lst)
      ensures var next := m[lst.config.id := lst];
              && AllRun(next) && |next| == |m| + 1 && Balanced(held + multiset{lst.conn.value}, Conns(next))
              && Conns(next) == Conns(m)[lst.config.id := lst.conn.value]
    {
      var id, conns := lst.config.id, Conns(m);
      SizeWith(m, id, lst);
      assert Conns(m[id := lst]) == conns[id := lst.conn.value];
      Lend(held, conns, id, lst.conn.value);
    }

    /** The new listener is mapped where nothing was. */
    method Add(lst: Listener, ghost before: multiset<nat>)
      requires listenerMap.Some? && lst.config.id !in listenerMap.value
      requires Runs(lst)
      requires AllRun(Mapped()) && gauge.value == |Mapped()| + 1
      requires Balanced(before, Conns(Mapped())) && provider.held == before + multiset{lst.conn.value}
      modifies `listenerMap
      ensures Valid() && listenerMap == Some(old(listenerMap).value[lst.config.id := lst])
      ensures Connections() == old(Connections())[lst.config.id := lst.conn.value]
    {
      Join(Mapped(), before, lst);
      listenerMap := Some(listenerMap.value[lst.config.id := lst]);
    }

    lemma Swap(m: Listeners, held: multiset<nat>, lst: Listener)
      requires AllRun(m) && Balanced(held, Conns(m)) && lst.config.id in m && lst !in m.Values
      requires Runs(lst)
      ensures var gone, next := m[lst.config.id], m[lst.config.id := lst];
              && gone.conn.value in held + multiset{lst.conn.value} && gone !in next.Values
              && Balanced(held + multiset{lst.conn.value} - multiset{gone.conn.value}, Conns(next))
              && AllRun(next) && |next| == |m| && Conns(next) == Conns(m)[lst.config.id := lst.conn.value]
    {
      var id := lst.config.id;
      Exchange(held, Conns(m), id, lst.conn.value);
      assert Conns(m[id := lst]) == Conns(m)[id := lst.conn.value];
      assert m[id := lst].Keys == m.Keys;
    }

    /** The new listener takes the place of the old one, which is then stopped. */
    method Replace(lst: Listener, ghost before: multiset<nat>)
      requires listenerMap.Some? && lst.config.id in listenerMap.value && lst !in Mapped().Values
      requires Runs(lst)
      requires AllRun(Mapped()) && gauge.value == |Mapped()| + 1
      requires Balanced(before, Conns(Mapped())) && provider.held == before + multiset{lst.conn.value}
      modifies this`listenerMap, provider, gauge, listenerMap.value[lst.config.id]
      ensures Valid() && listenerMap == Some(old(listenerMap).value[lst.config.id := lst])
      ensures Connections() == old(Connections())[lst.config.id := old(lst.conn).value]
    {
      Swap(Mapped(), before, lst);
      var existing := listenerMap.value[lst.config.id];
      listenerMap := Some(listenerMap.value[lst.config.id := lst]);
      Retire(existing, Mapped());
    }

    /** The new listener is mapped, in place of the old one if there is one. */
    method Put(lst: Listener, ghost before: multiset<nat>)
      requires listenerMap.Some? && lst !in Mapped().Values
      requires Runs(lst)
      requires AllRun(Mapped()) && gauge.value == |Mapped()| + 1
      requires Balanced(before, Conns(Mapped())) && provider.held == before + multiset{lst.conn.value}
      modifies this`listenerMap, provider, gauge, Mapped().Values
      ensures Valid() && listenerMap == Some(old(listenerMap).value[lst.config.id := lst])
      ensures Connections() == old(Connections())[lst.config.id := old(lst.conn).value]
    {
      if lst.config.id in listenerMap.value {
        Replace(lst, before);
      } else {
        Add(lst, before);
      }
    }

    /** Start a listener and let it take its place; nothing changes if it does not start. */
    method Install(config: Config, env: Env) returns (ok: bool)
      requires Valid() && listenerMap.Some?
      modifies this`listenerMap, provider, gauge, Mapped().Values
      ensures Valid() && listenerMap.Some? && ok == CanStart(kind, env)
      ensures Configs() == if ok then old(Configs())[config.id := config] else old(Configs())
      ensures ok ==> Connections() == old(Connections())[config.id := env.offer.value]
      ensures !ok ==>
                && listenerMap == old(listenerMap) && Connections() == old(Connections())
                && provider.held == old(provider.held) && gauge.value == old(gauge.value)
      ensures forall lst :: lst in Mapped().Values ==> lst in old(Mapped()).Values || fresh(lst)
    {
      ghost var before, held := listenerMap.value, provider.held;
      var lst, started := Launch(config, env);
      if !started {
        return false;
      }
      assert lst !in before.Values && AllRun(before) && Conns(before) == old(Conns(before));
      ConfigsWith(before, config.id, lst);
      Put(lst, held);
      return true;
    }

    /** Create or update the listener of an id; `valid` is the verdict on the configuration.
        A call that fails changes nothing. */
    method Set(config: Config, valid: bool, env: Env) returns (ok: bool)
      requires Valid()
      modifies this`listenerMap, provider, gauge, Mapped().Values
      ensures Valid()
      ensures ok == (valid && old(listenerMap).Some?
                     && (Same(old(Configs()), config) || CanStart(kind, env)))
      ensures Configs() == if ok then old(Configs())[config.id := config] else old(Configs())
      ensures ok && !Same(old(Configs()), config) ==> Connections() == old(Connections())[config.id := env.offer.value]
      ensures !ok || Same(old(Configs()), config) ==>
                && listenerMap == old(listenerMap) && Connections() == old(Connections())
                && provider.held == old(provider.held) && gauge.value == old(gauge.value)
      ensures valid && old(listenerMap).Some? && config.id in old(Configs()) && old(Configs())[config.id] == config ==>
                ok && listenerMap == old(listenerMap) && provider.held == old(provider.held)
      ensures listenerMap.Some? == old(listenerMap).Some?
      ensures forall lst :: lst in Mapped().Values ==> lst in old(Mapped()).Values || fresh(lst)
    {
      if !valid || listenerMap.None? {
        return false;
      }
      if config.id in listenerMap.value && listenerMap.value[config.id].config == config {
        SameIsNothing(Configs(), config);
        return true;
      }
      ok := Install(config, env);
    }
  }

  /** The id is already set to just this configuration. */
  predicate Same(configs: map<string, Config>, config: Config) {
    config.id in configs && configs[config.id] == config
  }

  // ----- Serial runs -----

  datatype Op =
    | DoStart
    | DoStop
    | DoSet(config: Config, valid: bool, env: Env)
    | DoDelete(id: string)

  /** What a started manager listens with: the configuration and the connection of each id. */
  datatype View = View(configs: map<string, Config>, conns: map<string, nat>)

  /** What a call does to it. */
  function Effect(kind: Kind, view: Option<View>, op: Op): Option<View> {
    match op
    case DoStart => if view.None? then Some(View(map[], map[])) else view
    case DoStop => None
    case DoSet(config, valid, env) =>
      if valid && view.Some? && !Same(view.value.configs, config) && CanStart(kind, env)
      then Some(View(view.value.configs[config.id := config], view.value.conns[config.id := env.offer.value]))
      else view
    case DoDelete(id) => if view.Some? then Some(View(view.value.configs - {id}, view.value.conns - {id})) else None
  }

  function Effects(kind: Kind, view: Option<View>, ops: seq<Op>): Option<View> {
    if ops == [] then view else Effect(kind, Effects(kind, view, ops[..|ops| - 1]), ops[|ops| - 1])
  }

  ghost function ViewOf(om: Manager): Option<View>
    reads om, om.Mapped().Values
  {
    if om.listenerMap.Some? then Some(View(om.Configs(), om.Connections())) else None
  }

  lemma SameIsNothing(configs: map<string, Config>, config: Config)
    requires Same(configs, config)
    ensures configs[config.id := config] == configs
  {
  }

  method Do(om: Manager, op: Op)
    requires om.Valid()
    modifies om`listenerMap, om.provider, om.gauge, om.Mapped().Values
    ensures om.Valid() && ViewOf(om) == Effect(om.kind, old(ViewOf(om)), op)
    ensures forall lst :: lst in om.Mapped().Values ==> lst in old(om.Mapped()).Values || fresh(lst)
  {
    match op {
      case DoStart => om.Start();
      case DoStop => om.Stop();
      case DoSet(config, valid, env) =>
        var ok := om.Set(config, valid, env);
      case DoDelete(id) => var ok := om.Delete(id);
    }
  }

  /** In every serial run the manager's configurations and connections are those of the
      abstract view, the gauge counts them, and every connection is on loan once for each
      listener on it. */
  method Replay(om: Manager, ops: seq<Op>)
    requires om.Valid()
    modifies om`listenerMap, om.provider, om.gauge, om.Mapped().Values
    ensures om.Valid() && ViewOf(om) == Effects(om.kind, old(ViewOf(om)), ops)
  {
    for i := 0 to |ops|
      invariant om.Valid() && ViewOf(om) == Effects(om.kind, old(ViewOf(om)), ops[..i])
      invariant forall lst :: lst in om.Mapped().Values ==> lst in old(om.Mapped()).Values || fresh(lst)
    {
      Do(om, ops[i]);
      assert ops[..i + 1][..i] == ops[..i];
    }
    assert ops[..|ops|] == ops;
  }
}

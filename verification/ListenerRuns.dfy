/** What holds in every interleaving of calls to a listener manager. */
module ListenerRuns {
  import opened Prelude
  import opened ListenerMachine

  /** Every unreturned handle is the connection of a running listener, a listener that runs
      and subscribed holds its handle, and no handle was returned twice. */
  ghost predicate HandlesOk(table: seq<Listener>, handles: map<nat, nat>, issued: nat, returned: multiset<nat>) {
    && (forall h :: h in handles ==>
          && h < issued && handles[h] < |table| && returned[h] == 0
          && table[handles[h]].running && table[handles[h]].conn == Some(h))
    && (forall h :: returned[h] <= 1 && (returned[h] > 0 ==> h < issued))
    && (forall l :: 0 <= l < |table| && table[l].running && table[l].subscribed ==> Holds(table[l], handles, l))
  }

  ghost predicate Holds(lst: Listener, handles: map<nat, nat>, l: nat) {
    lst.conn.Some? && lst.conn.value in handles && handles[lst.conn.value] == l
  }

  /** The listener that the call has created and not yet published. */
  function Own(th: Thread): Option<nat> {
    match th
    case Subscribing(_, _, own) => Some(own)
    case Publishing(_, _, own) => Some(own)
    case _ => None
  }

  function Existing(th: Thread): Option<nat> {
    match th
    case Connecting(_, existing) => existing
    case Subscribing(_, existing, _) => existing
    case Publishing(_, existing, _) => existing
    case _ => None
  }

  /** The call may still use the listener. */
  predicate Uses(th: Thread, l: nat) {
    || Own(th) == Some(l) || Existing(th) == Some(l)
    || (th.Retiring? && th.gone == l)
  }

  ghost predicate ThreadOk(th: Thread, table: seq<Listener>, handles: map<nat, nat>)
    requires Indexed(th, |table|)
  {
    && (Existing(th).Some? ==>
          var e := table[Existing(th).value];
          e.subscribed && e.config.id == th.config.id)
    && (th.Subscribing? ==>
          var own := table[th.own];
          own.running && !own.subscribed && Holds(own, handles, th.own) && own.config == th.config)
    && (th.Publishing? ==>
          var own := table[th.own];
          own.running && own.subscribed && own.config == th.config && Existing(th) != Own(th))
    && (th.Retiring? ==> table[th.gone].subscribed)
  }

  ghost predicate Unmapped(mapped: Option<map<string, nat>>, l: nat) {
    mapped.Some? ==> forall id :: id in mapped.value ==> mapped.value[id] != l
  }

  ghost predicate Detached(th: Thread, mapped: Option<map<string, nat>>) {
    && (Own(th).Some? ==> Unmapped(mapped, Own(th).value))
    && (th.Retiring? ==> Unmapped(mapped, th.gone))
  }

  /** No other call uses what a call has created and not yet published. */
  ghost predicate Exclusive(threads: map<nat, Thread>) {
    forall t, u :: t in threads && u in threads && t != u && Own(threads[t]).Some? ==>
      !Uses(threads[u], Own(threads[t]).value)
  }

  ghost predicate ThreadsOk(m: Manager)
    requires Typed(m)
  {
    && (forall t :: t in m.threads ==>
          && ThreadOk(m.threads[t], m.table, m.handles)
          && Detached(m.threads[t], m.mapped)
          && (m.threads[t].Stopping? ==> m.lock == Some(t)))
    && Exclusive(m.threads)
  }

  ghost predicate MappedOk(mapped: map<string, nat>, table: seq<Listener>) {
    forall id :: id in mapped ==>
      mapped[id] < |table| && table[mapped[id]].subscribed && table[mapped[id]].config.id == id
  }

  ghost predicate AllRun(ls: set<nat>, table: seq<Listener>) {
    forall l :: l in ls ==> l < |table| && table[l].running
  }

  /** While nobody has the lock all mapped listeners run; during a Stop those still to be
      stopped do. */
  ghost predicate LockOk(m: Manager) {
    && (m.mapped.Some? ==> MappedOk(m.mapped.value, m.table))
    && (m.lock.None? ==> m.mapped.Some? ==> AllRun(m.mapped.value.Values, m.table))
    && (m.lock.Some? ==>
          && m.mapped.Some?
          && m.lock.value in m.threads && m.threads[m.lock.value].Stopping?
          && m.threads[m.lock.value].todo <= m.mapped.value.Values
          && AllRun(m.threads[m.lock.value].todo, m.table))
  }

  ghost predicate Inv(m: Manager) {
    && Typed(m)
    && HandlesOk(m.table, m.handles, m.issued, m.returned)
    && ThreadsOk(m)
    && LockOk(m)
  }

  lemma InitInv()
    ensures Inv(Init())
  {
  }

  /** A call moves on: what it owns is not used elsewhere, and it uses what no one else owns. */
  lemma ExclusiveAt(threads: map<nat, Thread>, t: nat, th: Thread)
    requires Exclusive(threads)
    requires forall u :: u in threads && u != t ==>
               && (Own(th).Some? ==> !Uses(threads[u], Own(th).value))
               && (Own(threads[u]).Some? ==> !Uses(th, Own(threads[u]).value))
    ensures Exclusive(threads[t := th])
  {
  }

  lemma CallsInv(m: Manager, t: nat, th: Thread)
    requires Inv(m) && t !in m.threads && (th.Setting? || th.Deleting?)
    ensures Inv(At(m, t, th))
  {
  }

  /** A call that owns nothing may end at any time. */
  lemma DoneInv(m: Manager, t: nat)
    requires Inv(m) && t in m.threads && !m.threads[t].Stopping?
    ensures Inv(Done(m, t))
  {
  }

  lemma StartInv(m: Manager)
    requires Inv(m) && Enabled(m, StartManager)
    ensures Inv(Next(m, StartManager))
  {
  }

  lemma CallStopInv(m: Manager, t: nat)
    requires Inv(m) && Enabled(m, CallStop(t))
    ensures Inv(Next(m, CallStop(t)))
  {
  }

  lemma EndStopInv(m: Manager, t: nat)
    requires Inv(m) && Enabled(m, EndStop(t))
    ensures Inv(Next(m, EndStop(t)))
  {
  }

  lemma ReadInv(m: Manager, t: nat)
    requires Inv(m) && Enabled(m, Read(t))
    ensures Inv(Next(m, Read(t)))
  {
  }

  // ----- Connecting and subscribing -----

  lemma ConnectHandles(
    table: seq<Listener>, handles: map<nat, nat>, issued: nat, returned: multiset<nat>, config: Config)
    requires HandlesOk(table, handles, issued, returned)
    ensures HandlesOk(
              table + [Listener(config, true, false, Some(issued))], handles[issued := |table|], issued + 1, returned)
  {
  }

  /** A new listener and a new handle do not disturb the other calls. */
  lemma ConnectKeeps(th: Thread, table: seq<Listener>, handles: map<nat, nat>, lst: Listener, h: nat)
    requires Indexed(th, |table|) && ThreadOk(th, table, handles) && h !in handles
    ensures Indexed(th, |table| + 1) && ThreadOk(th, table + [lst], handles[h := |table|]) && !Uses(th, |table|)
  {
  }

  lemma ConnectMapped(mapped: map<string, nat>, table: seq<Listener>, ls: set<nat>, lst: Listener)
    requires MappedOk(mapped, table) && AllRun(ls, table)
    ensures MappedOk(mapped, table + [lst]) && AllRun(ls, table + [lst])
  {
  }

  lemma ConnectThreads(m: Manager, t: nat)
    requires Inv(m) && Enabled(m, Connect(t))
    ensures Typed(Next(m, Connect(t))) && ThreadsOk(Next(m, Connect(t)))
  {
    var th := m.threads[t];
    forall u | u in m.threads {
      ConnectKeeps(m.threads[u], m.table, m.handles, Listener(th.config, true, false, Some(m.issued)), m.issued);
    }
    ExclusiveAt(m.threads, t, Subscribing(th.config, th.existing, |m.table|));
  }

  lemma ConnectInv(m: Manager, t: nat)
    requires Inv(m) && Enabled(m, Connect(t))
    ensures Inv(Next(m, Connect(t)))
  {
    var config := m.threads[t].config;
    ConnectHandles(m.table, m.handles, m.issued, m.returned, config);
    ConnectThreads(m, t);
    if m.mapped.Some? {
      ConnectMapped(
        m.mapped.value, m.table, if m.lock.None? then m.mapped.value.Values else m.threads[m.lock.value].todo,
        Listener(config, true, false, Some(m.issued)));
    }
  }

  lemma SubscribeHandles(table: seq<Listener>, handles: map<nat, nat>, issued: nat, returned: multiset<nat>, own: nat)
    requires HandlesOk(table, handles, issued, returned) && own < |table| && Holds(table[own], handles, own)
    ensures HandlesOk(table[own := table[own].(subscribed := true)], handles, issued, returned)
  {
  }

  lemma SubscribeKeeps(th: Thread, table: seq<Listener>, handles: map<nat, nat>, own: nat)
    requires Indexed(th, |table|) && ThreadOk(th, table, handles) && own < |table| && !Uses(th, own)
    ensures ThreadOk(th, table[own := table[own].(subscribed := true)], handles)
  {
  }

  lemma SubscribeMapped(mapped: map<string, nat>, table: seq<Listener>, ls: set<nat>, own: nat)
    requires MappedOk(mapped, table) && AllRun(ls, table) && own < |table|
    ensures var more := table[own := table[own].(subscribed := true)]; MappedOk(mapped, more) && AllRun(ls, more)
  {
  }

  lemma SubscribeThreads(m: Manager, t: nat)
    requires Inv(m) && Enabled(m, Subscribe(t))
    ensures ThreadsOk(Next(m, Subscribe(t)))
  {
    var th := m.threads[t];
    forall u | u in m.threads && u != t {
      SubscribeKeeps(m.threads[u], m.table, m.handles, th.own);
    }
    ExclusiveAt(m.threads, t, Publishing(th.config, th.existing, th.own));
  }

  lemma SubscribeInv(m: Manager, t: nat)
    requires Inv(m) && Enabled(m, Subscribe(t))
    ensures Inv(Next(m, Subscribe(t)))
  {
    var own := m.threads[t].own;
    SubscribeHandles(m.table, m.handles, m.issued, m.returned, own);
    SubscribeThreads(m, t);
    if m.mapped.Some? {
      SubscribeMapped(
        m.mapped.value, m.table, if m.lock.None? then m.mapped.value.Values else m.threads[m.lock.value].todo, own);
    }
  }

  lemma ReturnHandles(table: seq<Listener>, handles: map<nat, nat>, issued: nat, returned: multiset<nat>, own: nat)
    requires HandlesOk(table, handles, issued, returned) && own < |table|
    requires Holds(table[own], handles, own) && !table[own].subscribed
    ensures var h := table[own].conn.value; HandlesOk(table, handles - {h}, issued, returned + multiset{h})
  {
  }

  lemma ReturnKeeps(th: Thread, table: seq<Listener>, handles: map<nat, nat>, own: nat)
    requires Indexed(th, |table|) && ThreadOk(th, table, handles) && own < |table| && !Uses(th, own)
    requires Holds(table[own], handles, own)
    ensures ThreadOk(th, table, handles - {table[own].conn.value})
  {
  }

  lemma SubscribeFailsInv(m: Manager, t: nat)
    requires Inv(m) && Enabled(m, SubscribeFails(t))
    ensures Inv(Next(m, SubscribeFails(t)))
  {
    var th := m.threads[t];
    ReturnHandles(m.table, m.handles, m.issued, m.returned, th.own);
    forall u | u in m.threads && u != t {
      ReturnKeeps(m.threads[u], m.table, m.handles, th.own);
    }
  }

  // ----- Publishing and removing -----

  lemma PublishKeeps(th: Thread, mapped: map<string, nat>, id: string, own: nat)
    requires Detached(th, Some(mapped)) && !Uses(th, own)
    ensures Detached(th, Some(mapped[id := own]))
  {
  }

  /** The new listener takes the place of the old one, which only its Set still uses. */
  lemma PublishMapped(mapped: map<string, nat>, table: seq<Listener>, config: Config, own: nat)
    requires MappedOk(mapped, table) && AllRun(mapped.Values, table)
    requires own < |table| && table[own].subscribed && table[own].running && table[own].config == config
    ensures MappedOk(mapped[config.id := own], table) && AllRun(mapped[config.id := own].Values, table)
  {
  }

  lemma ReplacedUnmapped(mapped: map<string, nat>, table: seq<Listener>, id: string, own: nat, existing: nat)
    requires MappedOk(mapped, table) && existing < |table| && table[existing].config.id == id && existing != own
    ensures Unmapped(Some(mapped[id := own]), existing)
  {
  }

  lemma PublishThreads(m: Manager, t: nat)
    requires Inv(m) && Enabled(m, Publish(t))
    ensures ThreadsOk(Next(m, Publish(t)))
  {
    var th := m.threads[t];
    if m.mapped.Some? {
      var mapped := m.mapped.value;
      forall u | u in m.threads && u != t {
        PublishKeeps(m.threads[u], mapped, th.config.id, th.own);
      }
      if th.existing.Some? {
        ReplacedUnmapped(mapped, m.table, th.config.id, th.own, th.existing.value);
        ExclusiveAt(m.threads, t, Retiring(th.existing.value));
      }
    } else {
      ExclusiveAt(m.threads, t, Retiring(th.own));
    }
  }

  lemma PublishInv(m: Manager, t: nat)
    requires Inv(m) && Enabled(m, Publish(t))
    ensures Inv(Next(m, Publish(t)))
  {
    var th := m.threads[t];
    PublishThreads(m, t);
    if m.mapped.Some? {
      PublishMapped(m.mapped.value, m.table, th.config, th.own);
    }
  }

  lemma RemoveThreads(m: Manager, t: nat)
    requires Inv(m) && Enabled(m, Remove(t))
    ensures ThreadsOk(Next(m, Remove(t)))
  {
    var id := m.threads[t].id;
    if m.mapped.Some? && id in m.mapped.value {
      ExclusiveAt(m.threads, t, Retiring(m.mapped.value[id]));
    }
  }

  lemma RemoveInv(m: Manager, t: nat)
    requires Inv(m) && Enabled(m, Remove(t))
    ensures Inv(Next(m, Remove(t)))
  {
    RemoveThreads(m, t);
  }

  // ----- Stopping listeners -----

  lemma StopHandles(m: Manager, l: nat)
    requires Typed(m) && HandlesOk(m.table, m.handles, m.issued, m.returned)
    requires l < |m.table| && m.table[l].subscribed
    ensures var n := StopListener(m, l); HandlesOk(n.table, n.handles, n.issued, n.returned)
  {
  }

  lemma StopKeeps(m: Manager, l: nat, th: Thread)
    requires Typed(m) && HandlesOk(m.table, m.handles, m.issued, m.returned)
    requires l < |m.table| && m.table[l].subscribed
    requires Indexed(th, |m.table|) && ThreadOk(th, m.table, m.handles) && Own(th) != Some(l)
    ensures var n := StopListener(m, l); ThreadOk(th, n.table, n.handles)
  {
  }

  lemma StopKeepsMapped(m: Manager, l: nat, mapped: map<string, nat>)
    requires Typed(m) && l < |m.table| && MappedOk(mapped, m.table)
    ensures MappedOk(mapped, StopListener(m, l).table)
  {
  }

  lemma StopKeepsRunning(m: Manager, l: nat, ls: set<nat>)
    requires Typed(m) && l < |m.table| && l !in ls && AllRun(ls, m.table)
    ensures AllRun(ls, StopListener(m, l).table)
  {
  }

  lemma StopThreads(m: Manager, l: nat)
    requires Inv(m) && l < |m.table| && m.table[l].subscribed
    requires forall u :: u in m.threads ==> Own(m.threads[u]) != Some(l)
    ensures var n := StopListener(m, l);
            Typed(n) && HandlesOk(n.table, n.handles, n.issued, n.returned) && ThreadsOk(n)
  {
    StopHandles(m, l);
    forall u | u in m.threads {
      StopKeeps(m, l, m.threads[u]);
    }
  }

  lemma RetireInv(m: Manager, t: nat)
    requires Inv(m) && Enabled(m, Retire(t))
    ensures Inv(Next(m, Retire(t)))
  {
    var l := m.threads[t].gone;
    StopThreads(m, l);
    if m.mapped.Some? {
      StopKeepsMapped(m, l, m.mapped.value);
      StopKeepsRunning(m, l, if m.lock.None? then m.mapped.value.Values else m.threads[m.lock.value].todo);
    }
  }

  lemma StillStopping(m: Manager, t: nat, todo: set<nat>)
    requires Typed(m) && ThreadsOk(m) && t in m.threads && m.threads[t].Stopping? && Indexed(Stopping(todo), |m.table|)
    ensures ThreadsOk(At(m, t, Stopping(todo)))
  {
    ExclusiveAt(m.threads, t, Stopping(todo));
  }

  lemma StopOneThreads(m: Manager, t: nat, l: nat)
    requires Inv(m) && Enabled(m, StopOne(t, l)) && l < |m.table| && m.table[l].subscribed
    ensures var n := Next(m, StopOne(t, l)); HandlesOk(n.table, n.handles, n.issued, n.returned) && ThreadsOk(n)
  {
    StopThreads(m, l);
    assert Indexed(m.threads[t], |m.table|);
    StillStopping(StopListener(m, l), t, m.threads[t].todo - {l});
  }

  lemma StopOneInv(m: Manager, t: nat, l: nat)
    requires Inv(m) && Enabled(m, StopOne(t, l))
    ensures Inv(Next(m, StopOne(t, l)))
  {
    var id :| id in m.mapped.value && m.mapped.value[id] == l;
    StopOneThreads(m, t, l);
    StopKeepsMapped(m, l, m.mapped.value);
    StopKeepsRunning(m, l, m.threads[t].todo - {l});
  }

  lemma NextInv(m: Manager, e: Event)
    requires Inv(m) && Enabled(m, e)
    ensures Inv(Next(m, e))
  {
    match e
    case CallSet(t, config) => CallsInv(m, t, Setting(config));
    case CallDelete(t, id) => CallsInv(m, t, Deleting(id));
    case StartManager => StartInv(m);
    case CallStop(t) => CallStopInv(m, t);
    case StopOne(t, l) => StopOneInv(m, t, l);
    case EndStop(t) => EndStopInv(m, t);
    case Read(t) => ReadInv(m, t);
    case Connect(t) => ConnectInv(m, t);
    case ConnectFails(t) => DoneInv(m, t);
    case Subscribe(t) => SubscribeInv(m, t);
    case SubscribeFails(t) => SubscribeFailsInv(m, t);
    case Publish(t) => PublishInv(m, t);
    case Remove(t) => RemoveInv(m, t);
    case Retire(t) => RetireInv(m, t);
  }

  // ----- Over all runs -----

  ghost predicate Legal(m: Manager, evs: seq<Event>)
    requires Typed(m)
    decreases |evs|
  {
    evs == [] || (Enabled(m, evs[0]) && Legal(Next(m, evs[0]), evs[1..]))
  }

  ghost function Run(m: Manager, evs: seq<Event>): Manager
    requires Typed(m) && Legal(m, evs)
    decreases |evs|
  {
    if evs == [] then m else Run(Next(m, evs[0]), evs[1..])
  }

  lemma RunCons(m: Manager, e: Event, rest: seq<Event>)
    requires Typed(m) && Enabled(m, e) && Legal(Next(m, e), rest)
    ensures Legal(m, [e] + rest) && Run(m, [e] + rest) == Run(Next(m, e), rest)
  {
    assert ([e] + rest)[0] == e && ([e] + rest)[1..] == rest;
  }

  lemma {:induction false} RunOn(m: Manager, xs: seq<Event>, ys: seq<Event>)
    requires Typed(m) && Legal(m, xs) && Typed(Run(m, xs)) && Legal(Run(m, xs), ys)
    ensures Legal(m, xs + ys) && Run(m, xs + ys) == Run(Run(m, xs), ys)
    decreases |xs|
  {
    if xs == [] {
      assert xs + ys == ys;
    } else {
      ConcatHead(xs, ys);
      RunOn(Next(m, xs[0]), xs[1..], ys);
      RunCons(m, xs[0], xs[1..] + ys);
    }
  }

  lemma OneStep(m: Manager, e: Event)
    requires Typed(m) && Enabled(m, e)
    ensures Legal(m, [e]) && Run(m, [e]) == Next(m, e)
  {
    assert [e][1..] == [];
    assert Run(Next(m, e), []) == Next(m, e);
  }

  lemma TwoSteps(m: Manager, d: Event, e: Event)
    requires Typed(m) && Enabled(m, d) && Enabled(Next(m, d), e)
    ensures Legal(m, [d, e]) && Run(m, [d, e]) == Next(Next(m, d), e)
  {
    var n := Next(m, d);
    assert [d, e][1..] == [e] && [e][1..] == [];
    assert Run(n, [e]) == Run(Next(n, e), []);
  }

  lemma {:induction false} RunInv(m: Manager, evs: seq<Event>)
    requires Inv(m) && Legal(m, evs)
    ensures Inv(Run(m, evs))
    decreases |evs|
  {
    if evs != [] {
      NextInv(m, evs[0]);
      RunInv(Next(m, evs[0]), evs[1..]);
    }
  }

  lemma OneHandle(table: seq<Listener>, handles: map<nat, nat>, issued: nat, returned: multiset<nat>, l: nat)
    requires HandlesOk(table, handles, issued, returned)
    requires l < |table| && table[l].running && table[l].subscribed
    ensures Preimage(handles, l) == {table[l].conn.value}
  {
  }

  /** Whenever the manager's lock is free, every mapped listener runs, has subscribed, and
      holds exactly one pool handle that was not returned. */
  lemma MappedListenersRun(evs: seq<Event>, id: string)
    requires Legal(Init(), evs) && Run(Init(), evs).lock.None?
    requires Run(Init(), evs).mapped.Some? && id in Run(Init(), evs).mapped.value
    ensures var m := Run(Init(), evs);
            var l := m.mapped.value[id];
            && l < |m.table| && m.table[l].config.id == id
            && m.table[l].running && m.table[l].subscribed && m.table[l].conn.Some?
            && Preimage(m.handles, l) == {m.table[l].conn.value}
  {
    InitInv();
    RunInv(Init(), evs);
    var m := Run(Init(), evs);
    OneHandle(m.table, m.handles, m.issued, m.returned, m.mapped.value[id]);
  }

  /** In every run each handle is returned at most once, as the pool demands. */
  lemma HandlesReturnedOnce(evs: seq<Event>, h: nat)
    requires Legal(Init(), evs)
    ensures Run(Init(), evs).returned[h] <= 1
    ensures h in Run(Init(), evs).handles ==> Run(Init(), evs).returned[h] == 0
  {
    InitInv();
    RunInv(Init(), evs);
  }

  /** The step ends the listening of an id on purpose. */
  ghost predicate Removes(m: Manager, e: Event, id: string)
    requires Enabled(m, e)
  {
    (e.Remove? && m.threads[e.t].id == id) || e.EndStop?
  }

  /** An id stays mapped from the first Set until a Delete or a Stop, whatever is replaced
      in between. */
  lemma StaysMapped(m: Manager, e: Event, id: string)
    requires Typed(m) && Enabled(m, e) && !Removes(m, e, id)
    requires m.mapped.Some? && id in m.mapped.value
    ensures Next(m, e).mapped.Some? && id in Next(m, e).mapped.value
  {
    match e
    case Publish(t) =>
    case Remove(t) =>
    case _ =>
  }

  // ----- Listeners that could not subscribe -----

  /** The listener is marked as running with a connection that was returned, it is not
      mapped, and no call uses it. */
  ghost predicate Abandoned(m: Manager, l: nat) {
    && l < |m.table| && m.table[l].running && m.table[l].conn.Some?
    && m.table[l].conn.value !in m.handles && m.returned[m.table[l].conn.value] == 1
    && Unmapped(m.mapped, l)
    && forall t :: t in m.threads ==> !Uses(m.threads[t], l)
  }

  /** A subscription that fails leaves the listener so. */
  lemma SubscribeFailsAbandons(m: Manager, t: nat)
    requires Inv(m) && Enabled(m, SubscribeFails(t))
    ensures Abandoned(Next(m, SubscribeFails(t)), m.threads[t].own)
  {
    var own := m.threads[t].own;
    assert ThreadOk(m.threads[t], m.table, m.handles) && Own(m.threads[t]) == Some(own);
  }

  lemma AbandonedSet(m: Manager, e: Event, l: nat)
    requires Inv(m) && Enabled(m, e) && Abandoned(m, l)
    requires e.Connect? || e.Subscribe? || e.Publish?
    ensures Abandoned(Next(m, e), l)
  {
    assert e.Connect? || Own(m.threads[e.t]) == Some(m.threads[e.t].own);
  }

  lemma AbandonedRead(m: Manager, e: Event, l: nat)
    requires Inv(m) && Enabled(m, e) && Abandoned(m, l)
    requires e.Read? || e.Remove? || e.CallStop? || e.StartManager?
    ensures Abandoned(Next(m, e), l)
  {
  }

  lemma AbandonedStep(m: Manager, e: Event, l: nat)
    requires Inv(m) && Enabled(m, e) && Abandoned(m, l)
    ensures Abandoned(Next(m, e), l)
  {
    match e
    case CallSet(_, _) =>
    case CallDelete(_, _) =>
    case ConnectFails(_) =>
    case EndStop(_) =>
    case SubscribeFails(t) => AbandonedReturn(m, t, l);
    case Retire(t) => AbandonedStop(m, m.threads[t].gone, l);
    case StopOne(t, other) =>
      assert other in m.mapped.value.Values;
      AbandonedStop(m, other, l);
    case Read(_) => AbandonedRead(m, e, l);
    case Remove(_) => AbandonedRead(m, e, l);
    case CallStop(_) => AbandonedRead(m, e, l);
    case StartManager => AbandonedRead(m, e, l);
    case _ => AbandonedSet(m, e, l);
  }

  lemma AbandonedReturn(m: Manager, t: nat, l: nat)
    requires Inv(m) && Enabled(m, SubscribeFails(t)) && Abandoned(m, l)
    ensures Abandoned(Next(m, SubscribeFails(t)), l)
  {
    assert ThreadOk(m.threads[t], m.table, m.handles) && Own(m.threads[t]) == Some(m.threads[t].own);
  }

  lemma AbandonedStop(m: Manager, other: nat, l: nat)
    requires Inv(m) && other < |m.table| && other != l && m.table[other].subscribed && Abandoned(m, l)
    ensures Abandoned(StopListener(m, other), l)
  {
  }

  /** And so it stays: no later step of any call maps it, stops it, or returns its
      connection again. */
  lemma {:induction false} AbandonedForever(m: Manager, evs: seq<Event>, l: nat)
    requires Inv(m) && Legal(m, evs) && Abandoned(m, l)
    ensures Abandoned(Run(m, evs), l)
    decreases |evs|
  {
    if evs != [] {
      NextInv(m, evs[0]);
      AbandonedStep(m, evs[0], l);
      AbandonedForever(Next(m, evs[0]), evs[1..], l);
    }
  }
}

/** Which steps can leave a listener running on its own. Every handle belongs to a mapped
    listener or to a call that is about to deal with it, unless a Set publishes over a
    listener that it does not know of; no other step can break this. */
module ListenerOwners {
  import opened Prelude
  import opened ListenerMachine
  import opened ListenerRuns

  ghost predicate Mapped(m: Manager, l: nat) {
    m.mapped.Some? && l in m.mapped.value.Values
  }

  /** The call will publish or stop the listener. */
  predicate Cares(th: Thread, l: nat) {
    Own(th) == Some(l) || th == Retiring(l)
  }

  ghost predicate Owned(m: Manager, l: nat) {
    Mapped(m, l) || exists t :: t in m.threads && Cares(m.threads[t], l)
  }

  /** What a Set has found under its id is still what is mapped there, or nothing is. */
  ghost predicate UpToDate(th: Thread, mapped: Option<map<string, nat>>) {
    (th.Connecting? || th.Subscribing? || th.Publishing?) && mapped.Some? && th.config.id in mapped.value ==>
      Existing(th) == Some(mapped.value[th.config.id])
  }

  ghost predicate AllOwned(m: Manager) {
    forall h :: h in m.handles ==> Owned(m, m.handles[h])
  }

  /** A Stop under way still has to stop every mapped listener that holds a handle. */
  ghost predicate StopCovers(m: Manager) {
    m.lock.Some? && m.lock.value in m.threads && m.threads[m.lock.value].Stopping? && m.mapped.Some? ==>
      forall h :: h in m.handles && m.handles[h] in m.mapped.value.Values ==>
        m.handles[h] in m.threads[m.lock.value].todo
  }

  ghost predicate NoStrays(m: Manager) {
    AllOwned(m) && StopCovers(m)
  }

  /** When only call t moves, what it and the map no longer look after must be owned anew. */
  lemma StillOwned(m: Manager, n: Manager, t: nat, l: nat)
    requires Owned(m, l)
    requires forall u :: u in m.threads && u != t ==> u in n.threads && n.threads[u] == m.threads[u]
    requires Mapped(m, l) ==> Owned(n, l)
    requires t in m.threads && Cares(m.threads[t], l) ==> Owned(n, l)
    ensures Owned(n, l)
  {
    if !Mapped(m, l) {
      var u :| u in m.threads && Cares(m.threads[u], l);
      if u != t {
        assert Cares(n.threads[u], l);
      }
    }
  }

  ghost predicate SameExcept(m: Manager, n: Manager, t: nat) {
    forall u :: u in m.threads && u != t ==> u in n.threads && n.threads[u] == m.threads[u]
  }

  /** A step that leaves the map alone, and after which t cares for no less. */
  lemma OwnedAfter(m: Manager, n: Manager, t: nat)
    requires forall h :: h in m.handles ==> Owned(m, m.handles[h])
    requires SameExcept(m, n, t) && n.mapped == m.mapped
    requires forall h :: h in n.handles && h in m.handles ==> n.handles[h] == m.handles[h]
    requires forall h :: h in n.handles ==> h in m.handles || (t in n.threads && Cares(n.threads[t], n.handles[h]))
    requires forall h :: h in n.handles && t in m.threads && Cares(m.threads[t], n.handles[h]) ==>
               t in n.threads && Cares(n.threads[t], n.handles[h])
    ensures forall h :: h in n.handles ==> Owned(n, n.handles[h])
  {
    forall h | h in n.handles
      ensures Owned(n, n.handles[h])
    {
      if h in m.handles {
        StillOwned(m, n, t, m.handles[h]);
      }
    }
  }

  lemma DoneNoStrays(m: Manager, t: nat)
    requires Typed(m) && NoStrays(m) && t in m.threads
    requires m.threads[t].Setting? || m.threads[t].Connecting? || m.threads[t].Deleting?
    ensures NoStrays(Done(m, t))
  {
    OwnedAfter(m, Done(m, t), t);
  }

  lemma CallNoStrays(m: Manager, t: nat, th: Thread)
    requires Inv(m) && NoStrays(m) && t !in m.threads && (th.Setting? || th.Deleting?)
    ensures NoStrays(At(m, t, th))
  {
    OwnedAfter(m, At(m, t, th), t);
  }

  lemma ReadNoStrays(m: Manager, t: nat)
    requires Inv(m) && NoStrays(m) && Enabled(m, Read(t))
    ensures NoStrays(Next(m, Read(t)))
  {
    OwnedAfter(m, Next(m, Read(t)), t);
  }

  lemma ConnectNoStrays(m: Manager, t: nat)
    requires Inv(m) && NoStrays(m) && Enabled(m, Connect(t))
    ensures NoStrays(Next(m, Connect(t)))
  {
    OwnedAfter(m, Next(m, Connect(t)), t);
  }

  lemma SubscribeNoStrays(m: Manager, t: nat)
    requires Inv(m) && NoStrays(m) && Enabled(m, Subscribe(t))
    ensures NoStrays(Next(m, Subscribe(t)))
  {
    OwnedAfter(m, Next(m, Subscribe(t)), t);
  }

  lemma SubscribeFailsNoStrays(m: Manager, t: nat)
    requires Inv(m) && NoStrays(m) && Enabled(m, SubscribeFails(t))
    ensures NoStrays(Next(m, SubscribeFails(t)))
  {
    OwnedAfter(m, Next(m, SubscribeFails(t)), t);
  }

  lemma PublishOwned(m: Manager, t: nat, l: nat)
    requires Inv(m) && Enabled(m, Publish(t)) && m.mapped.Some?
    requires Owned(m, l) && UpToDate(m.threads[t], m.mapped)
    ensures Owned(Next(m, Publish(t)), l)
  {
    var n, th := Next(m, Publish(t)), m.threads[t];
    if Mapped(m, l) {
      var id :| id in m.mapped.value && m.mapped.value[id] == l;
      if id == th.config.id {
        assert Cares(n.threads[t], l);
      } else {
        assert n.mapped.value[id] == l;
      }
    }
    if Own(th) == Some(l) {
      assert n.mapped.value[th.config.id] == l;
    }
    StillOwned(m, n, t, l);
  }

  lemma PublishKeepsOwned(m: Manager, t: nat)
    requires Inv(m) && AllOwned(m) && Enabled(m, Publish(t)) && UpToDate(m.threads[t], m.mapped)
    ensures AllOwned(Next(m, Publish(t)))
  {
    var n := Next(m, Publish(t));
    if m.mapped.None? {
      OwnedAfter(m, n, t);
    } else {
      forall h | h in n.handles
        ensures Owned(n, n.handles[h])
      {
        PublishOwned(m, t, n.handles[h]);
      }
    }
  }

  /** A listener that is published over without being known to the Set loses its place in
      the map, and no call has it in its care. */
  lemma PublishLosesOwner(m: Manager, t: nat)
    requires Inv(m) && Enabled(m, Publish(t)) && !UpToDate(m.threads[t], m.mapped)
    ensures var l := m.mapped.value[m.threads[t].config.id];
            && l < |m.table| && m.table[l].conn.Some? && m.table[l].conn.value in m.handles
            && m.handles[m.table[l].conn.value] == l && !Owned(Next(m, Publish(t)), l)
  {
    var n, th := Next(m, Publish(t)), m.threads[t];
    var l := m.mapped.value[th.config.id];
    assert l in m.mapped.value.Values && Holds(m.table[l], m.handles, l);
    forall id | id in n.mapped.value
      ensures n.mapped.value[id] != l
    {
      assert Own(th) == Some(th.own);
      assert id in m.mapped.value && m.mapped.value[id] == l ==> id == th.config.id;
    }
    forall u | u in n.threads
      ensures !Cares(n.threads[u], l)
    {
      assert u != t ==> Detached(m.threads[u], m.mapped);
    }
  }

  /** The exact condition: a Publish leaves every handle with an owner if and only if what
      the Set found under its id is still what is mapped there, or nothing is. */
  lemma PublishStrandsIff(m: Manager, t: nat)
    requires Inv(m) && AllOwned(m) && Enabled(m, Publish(t))
    ensures AllOwned(Next(m, Publish(t))) <==> UpToDate(m.threads[t], m.mapped)
  {
    if UpToDate(m.threads[t], m.mapped) {
      PublishKeepsOwned(m, t);
    } else {
      PublishLosesOwner(m, t);
      var h := m.table[m.mapped.value[m.threads[t].config.id]].conn.value;
      assert Next(m, Publish(t)).handles[h] == m.handles[h];
    }
  }

  lemma RemoveNoStrays(m: Manager, t: nat)
    requires Inv(m) && NoStrays(m) && Enabled(m, Remove(t))
    ensures NoStrays(Next(m, Remove(t)))
  {
    var n, id := Next(m, Remove(t)), m.threads[t].id;
    if m.mapped.None? || id !in m.mapped.value {
      DoneNoStrays(m, t);
    } else {
      forall h | h in n.handles
        ensures Owned(n, n.handles[h])
      {
        RemoveOwned(m, t, n.handles[h]);
      }
    }
  }

  lemma RemoveOwned(m: Manager, t: nat, l: nat)
    requires Inv(m) && Enabled(m, Remove(t)) && m.mapped.Some? && m.threads[t].id in m.mapped.value && Owned(m, l)
    ensures Owned(Next(m, Remove(t)), l)
  {
    var n := Next(m, Remove(t));
    if Mapped(m, l) {
      var id :| id in m.mapped.value && m.mapped.value[id] == l;
      if id == m.threads[t].id {
        assert Cares(n.threads[t], l);
      } else {
        assert n.mapped.value[id] == l;
      }
    }
    StillOwned(m, n, t, l);
  }

  lemma RetireNoStrays(m: Manager, t: nat)
    requires Inv(m) && NoStrays(m) && Enabled(m, Retire(t))
    ensures NoStrays(Next(m, Retire(t)))
  {
    var n := Next(m, Retire(t));
    OwnedAfter(m, n, t);
  }

  lemma StopOneNoStrays(m: Manager, t: nat, l: nat)
    requires Inv(m) && NoStrays(m) && Enabled(m, StopOne(t, l))
    ensures NoStrays(Next(m, StopOne(t, l)))
  {
    var n := Next(m, StopOne(t, l));
    OwnedAfter(m, n, t);
  }

  lemma CallStopNoStrays(m: Manager, t: nat)
    requires Inv(m) && NoStrays(m) && Enabled(m, CallStop(t))
    ensures NoStrays(Next(m, CallStop(t)))
  {
    var n := Next(m, CallStop(t));
    OwnedAfter(m, n, t);
  }

  lemma EndStopNoStrays(m: Manager, t: nat)
    requires Inv(m) && NoStrays(m) && Enabled(m, EndStop(t))
    ensures NoStrays(Next(m, EndStop(t)))
  {
    var n := Next(m, EndStop(t));
    forall h | h in n.handles
      ensures Owned(n, n.handles[h])
    {
      StillOwned(m, n, t, n.handles[h]);
    }
  }

  lemma StartNoStrays(m: Manager)
    requires Inv(m) && NoStrays(m) && Enabled(m, StartManager)
    ensures NoStrays(Next(m, StartManager))
  {
    var n := Next(m, StartManager);
    forall h | h in n.handles
      ensures Owned(n, n.handles[h])
    {
      var l := n.handles[h];
      if m.mapped.None? {
        var u :| u in m.threads && Cares(m.threads[u], l);
        assert Cares(n.threads[u], l);
      }
    }
  }

  /** The step is not a Publish over a listener that its Set does not know of. */
  ghost predicate Prompt(m: Manager, e: Event)
    requires Enabled(m, e)
  {
    e.Publish? ==> UpToDate(m.threads[e.t], m.mapped)
  }

  /** No step but a Publish that is not up to date takes the owner of a handle away. */
  lemma NextNoStrays(m: Manager, e: Event)
    requires Inv(m) && NoStrays(m) && Enabled(m, e) && Prompt(m, e)
    ensures NoStrays(Next(m, e))
  {
    match e
    case CallSet(t, config) => CallNoStrays(m, t, Setting(config));
    case CallDelete(t, id) => CallNoStrays(m, t, Deleting(id));
    case StartManager => StartNoStrays(m);
    case CallStop(t) => CallStopNoStrays(m, t);
    case StopOne(t, l) => StopOneNoStrays(m, t, l);
    case EndStop(t) => EndStopNoStrays(m, t);
    case Read(t) => ReadNoStrays(m, t);
    case Connect(t) => ConnectNoStrays(m, t);
    case ConnectFails(t) => DoneNoStrays(m, t);
    case Subscribe(t) => SubscribeNoStrays(m, t);
    case SubscribeFails(t) => SubscribeFailsNoStrays(m, t);
    case Publish(t) => PublishKeepsOwned(m, t);
    case Remove(t) => RemoveNoStrays(m, t);
    case Retire(t) => RetireNoStrays(m, t);
  }

  // ----- Over all runs -----

  /** In the run every Publish is up to date. */
  ghost predicate PromptRun(m: Manager, evs: seq<Event>)
    requires Typed(m) && Legal(m, evs)
    decreases |evs|
  {
    evs == [] || (Prompt(m, evs[0]) && PromptRun(Next(m, evs[0]), evs[1..]))
  }

  /** In the run every handle has an owner at all times. */
  ghost predicate AlwaysOwned(m: Manager, evs: seq<Event>)
    requires Typed(m) && Legal(m, evs)
    decreases |evs|
  {
    AllOwned(m) && (evs == [] || AlwaysOwned(Next(m, evs[0]), evs[1..]))
  }

  /** Handles have owners throughout a run, with calls overlapping in any way, if and only
      if every Publish in it is up to date. */
  lemma {:induction false} OwnedIffPrompt(m: Manager, evs: seq<Event>)
    requires Inv(m) && NoStrays(m) && Legal(m, evs)
    ensures AlwaysOwned(m, evs) <==> PromptRun(m, evs)
    decreases |evs|
  {
    if evs != [] {
      var e := evs[0];
      NextInv(m, e);
      if Prompt(m, e) {
        NextNoStrays(m, e);
        OwnedIffPrompt(Next(m, e), evs[1..]);
      } else {
        PublishStrandsIff(m, e.t);
      }
    }
  }

  lemma {:induction false} PromptRunNoStrays(m: Manager, evs: seq<Event>)
    requires Inv(m) && NoStrays(m) && Legal(m, evs) && PromptRun(m, evs)
    ensures Inv(Run(m, evs)) && NoStrays(Run(m, evs))
    decreases |evs|
  {
    if evs != [] {
      NextInv(m, evs[0]);
      NextNoStrays(m, evs[0]);
      PromptRunNoStrays(Next(m, evs[0]), evs[1..]);
    }
  }

  lemma QuietHandles(m: Manager)
    requires Inv(m) && NoStrays(m) && m.threads == map[]
    ensures m.mapped.None? ==> m.handles == map[]
    ensures m.mapped.Some? ==> m.handles.Values == m.mapped.value.Values && Distinct(m.mapped.value)
    ensures Distinct(m.handles)
  {
    forall h | h in m.handles
      ensures Mapped(m, m.handles[h])
    {
      assert Owned(m, m.handles[h]);
    }
    if m.mapped.Some? {
      forall l | l in m.mapped.value.Values
        ensures l in m.handles.Values
      {
        assert m.table[l].running && m.table[l].subscribed;
        assert m.handles[m.table[l].conn.value] == l;
      }
    }
  }

  /** Conservation: after a run whose Publishes are all up to date, whenever no call is under
      way, there are as many unreturned handles as mapped listeners, each handle belonging to
      one of them; a stopped manager holds none. */
  lemma HandlesAreMapped(evs: seq<Event>)
    requires Legal(Init(), evs) && PromptRun(Init(), evs) && Run(Init(), evs).threads == map[]
    ensures var m := Run(Init(), evs);
            && (m.mapped.None? ==> m.handles == map[])
            && (m.mapped.Some? ==>
                  m.handles.Values == m.mapped.value.Values && |m.handles| == |m.mapped.value|)
  {
    InitInv();
    PromptRunNoStrays(Init(), evs);
    var m := Run(Init(), evs);
    QuietHandles(m);
    DistinctSize(m.handles);
    if m.mapped.Some? {
      DistinctSize(m.mapped.value);
    }
  }
}

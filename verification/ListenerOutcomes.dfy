/** What single steps of the listener managers achieve, and that no call gets stuck. */
module ListenerOutcomes {
  import opened Prelude
  import opened ListenerMachine
  import opened ListenerRuns

  /** A Set that finds the manager stopped, or its id mapped to just this configuration, ends
      without any effect. Any other goes on, with the listener that the id was mapped to. */
  lemma ReadOutcome(m: Manager, t: nat)
    requires Typed(m) && Enabled(m, Read(t))
    ensures var n, config := Next(m, Read(t)), m.threads[t].config;
            && n.table == m.table && n.mapped == m.mapped && n.lock == m.lock
            && n.handles == m.handles && n.returned == m.returned
            && if m.mapped.None? || (config.id in m.mapped.value && m.table[m.mapped.value[config.id]].config == config)
               then n.threads == m.threads - {t}
               else
                 n.threads ==
                 m.threads[t := Connecting(
                   config, if config.id in m.mapped.value then Some(m.mapped.value[config.id]) else None)]
  {
  }

  /** The step stops the listener. */
  ghost predicate Stops(m: Manager, e: Event, l: nat)
    requires Enabled(m, e)
  {
    (e.Retire? && m.threads[e.t].gone == l) || (e.StopOne? && e.l == l)
  }

  /** A listener that runs gives its connection back when it is stopped, and forgets it; one
      that does not run is left as it is. No other step makes a listener stop running. */
  lemma StopOutcome(m: Manager, e: Event, l: nat)
    requires Typed(m) && Enabled(m, e) && l < |m.table| && m.table[l].running
    ensures var n := Next(m, e);
            && l < |n.table| && (n.table[l].running <==> !Stops(m, e, l))
            && (Stops(m, e, l) ==>
                  && n.table[l].conn.None? && n.table[l].config == m.table[l].config
                  && (m.table[l].conn.Some? ==>
                        && m.table[l].conn.value !in n.handles
                        && n.returned == m.returned + multiset{m.table[l].conn.value}))
  {
    match e
    case StopOne(t, other) => assert Next(m, e).table == StopListener(m, other).table;
    case Retire(t) => assert Next(m, e).table == StopListener(m, m.threads[t].gone).table;
    case _ =>
  }

  // ----- No call gets stuck -----

  function Left(th: Thread): nat {
    match th
    case Setting(_) => 5
    case Connecting(_, _) => 4
    case Subscribing(_, _, _) => 3
    case Publishing(_, _, _) => 2
    case Deleting(_) => 2
    case Retiring(_) => 1
    case Stopping(todo) => |todo| + 1
  }

  /** The next step of a call that nothing goes wrong for. */
  ghost function Onward(t: nat, th: Thread): Event {
    match th
    case Setting(_) => Read(t)
    case Connecting(_, _) => Connect(t)
    case Subscribing(_, _, _) => Subscribe(t)
    case Publishing(_, _, _) => Publish(t)
    case Deleting(_) => Remove(t)
    case Retiring(_) => Retire(t)
    case Stopping(todo) =>
      if l :| l in todo then StopOne(t, l) else EndStop(t)
  }

  /** The lock is free, or the call has it. */
  ghost predicate MayGoOn(m: Manager, t: nat) {
    t in m.threads && (m.lock.None? || m.lock == Some(t))
  }

  lemma OnwardEnabled(m: Manager, t: nat)
    requires Inv(m) && MayGoOn(m, t)
    ensures Enabled(m, Onward(t, m.threads[t])) 
    ensures if m.threads[t].Stopping? then m.lock == Some(t) else m.lock.None?
  {
    assert m.lock.Some? ==> m.threads[m.lock.value].Stopping?;
  }

  lemma OneLess(todo: set<nat>, l: nat)
    requires l in todo
    ensures |todo - {l}| < |todo|
  {
  }

  /** The call ends, and with it its lock, or it gets closer to its end. */
  ghost predicate Nearer(m: Manager, n: Manager, t: nat)
    requires t in m.threads
  {
    || (n.threads == m.threads - {t} && n.lock.None?)
    || (t in n.threads && n.threads.Keys == m.threads.Keys && n.lock == m.lock
        && Left(n.threads[t]) < Left(m.threads[t]))
  }

  lemma StopNearer(m: Manager, t: nat)
    requires Typed(m) && t in m.threads && m.threads[t].Stopping?
    requires m.lock == Some(t)
    ensures var e := Onward(t, m.threads[t]); Enabled(m, e) && Nearer(m, Next(m, e), t)
  {
    var todo := m.threads[t].todo;
    if todo != {} {
      OneLess(todo, Onward(t, m.threads[t]).l);
    }
  }

  lemma SetNearer(m: Manager, t: nat)
    requires Typed(m) && t in m.threads && !m.threads[t].Stopping? && m.lock.None?
    ensures var e := Onward(t, m.threads[t]); Enabled(m, e) && Nearer(m, Next(m, e), t)
  {
    match m.threads[t]
    case Setting(config) => assert ReadStep(m, t, config).lock == m.lock;
    case Connecting(config, existing) => assert ConnectStep(m, t, config, existing).lock == m.lock;
    case Publishing(config, existing, own) => assert PublishStep(m, t, config, existing, own).lock == m.lock;
    case Retiring(gone) => assert StopListener(m, gone).lock == m.lock;
    case _ =>
  }

  ghost predicate Leads(m: Manager, evs: seq<Event>, n: Manager) {
    Typed(m) && Legal(m, evs) && Run(m, evs) == n && Typed(n)
  }

  lemma Step(m: Manager, xs: seq<Event>, n: Manager, e: Event)
    requires Leads(m, xs, n) && Enabled(n, e)
    ensures Leads(m, xs + [e], Next(n, e))
  {
    OneStep(n, e);
    RunOn(m, xs, [e]);
  }

  lemma {:induction false} EndCall(s: Manager, xs: seq<Event>, m: Manager, t: nat)
    returns (evs: seq<Event>, n: Manager)
    requires Inv(m) && Leads(s, xs, m) && MayGoOn(m, t)
    ensures Inv(n) && Leads(s, evs, n) && xs <= evs && n.threads.Keys == m.threads.Keys - {t} && n.lock.None?
    decreases Left(m.threads[t])
  {
    var e := Onward(t, m.threads[t]);
    OnwardEnabled(m, t);
    if m.threads[t].Stopping? {
      StopNearer(m, t);
    } else {
      SetNearer(m, t);
    }
    NextInv(m, e);
    Step(s, xs, m, e);
    evs, n := xs + [e], Next(m, e);
    if t in n.threads {
      evs, n := EndCall(s, evs, n, t);
    }
  }

  lemma {:induction false} EndCalls(s: Manager, xs: seq<Event>, m: Manager) returns (evs: seq<Event>, n: Manager)
    requires Inv(m) && Leads(s, xs, m)
    ensures Leads(s, evs, n) && xs <= evs && n.threads == map[] && n.lock.None?
    decreases |m.threads.Keys|
  {
    evs, n := xs, m;
    if m.threads != map[] {
      var t :| t in m.threads && (m.lock.Some? ==> t == m.lock.value);
      evs, n := EndCall(s, xs, m, t);
      evs, n := EndCalls(s, evs, n);
    }
  }

  /** Every run, however its calls overlap, can be continued until none is under way. */
  lemma EveryCallEnds(evs: seq<Event>) returns (more: seq<Event>)
    requires Legal(Init(), evs)
    ensures Legal(Init(), more) && evs <= more
    ensures Run(Init(), more).threads == map[] && Run(Init(), more).lock.None?
  {
    InitInv();
    RunInv(Init(), evs);
    var n: Manager;
    more, n := EndCalls(Init(), evs, Run(Init(), evs));
  }
}

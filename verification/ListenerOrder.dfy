/** A condition that callers can keep to: when no two Sets of one id overlap, every Publish
    is up to date, and so no listener is left running on its own. */
module ListenerOrder {
  import opened Prelude
  import opened ListenerMachine
  import opened ListenerRuns
  import opened ListenerOwners

  /** The id that the call is setting. */
  function Sets(th: Thread): Option<string> {
    match th
    case Setting(config) => Some(config.id)
    case Connecting(config, _) => Some(config.id)
    case Subscribing(config, _, _) => Some(config.id)
    case Publishing(config, _, _) => Some(config.id)
    case _ => None
  }

  /** No two Sets of one id are under way. */
  ghost predicate Orderly(threads: map<nat, Thread>) {
    forall t, u :: t in threads && u in threads && t != u && Sets(threads[t]).Some? ==>
      Sets(threads[t]) != Sets(threads[u])
  }

  ghost predicate AllUpToDate(m: Manager) {
    forall t :: t in m.threads ==> UpToDate(m.threads[t], m.mapped)
  }

  lemma PublishUpToDate(th: Thread, mapped: Option<map<string, nat>>, id: string, own: nat)
    requires mapped.Some? && UpToDate(th, mapped) && Sets(th) != Some(id)
    ensures UpToDate(th, Some(mapped.value[id := own]))
  {
  }

  lemma PublishAllUpToDate(m: Manager, t: nat)
    requires Typed(m) && Orderly(m.threads) && Enabled(m, Publish(t)) && m.mapped.Some?
    requires AllUpToDate(m)
    ensures AllUpToDate(Next(m, Publish(t)))
  {
    var th := m.threads[t];
    forall u | u in m.threads && u != t
      ensures UpToDate(m.threads[u], Some(m.mapped.value[th.config.id := th.own]))
    {
      assert Sets(m.threads[t]) != Sets(m.threads[u]);
      PublishUpToDate(m.threads[u], m.mapped, th.config.id, th.own);
    }
  }

  /** Among orderly calls no step makes what a Set has found out of date. */
  lemma NextUpToDate(m: Manager, e: Event)
    requires Typed(m) && Orderly(m.threads) && AllUpToDate(m) && Enabled(m, e)
    ensures AllUpToDate(Next(m, e))
  {
    match e
    case Publish(t) =>
      if m.mapped.Some? {
        PublishAllUpToDate(m, t);
      }
    case _ =>
  }

  /** A run in which no two Sets of one id ever overlap. */
  ghost predicate OrderlyRun(m: Manager, evs: seq<Event>)
    requires Typed(m) && Legal(m, evs)
    decreases |evs|
  {
    Orderly(m.threads) && (evs == [] || OrderlyRun(Next(m, evs[0]), evs[1..]))
  }

  /** In an orderly run every Publish is up to date, so every handle always has an owner. */
  lemma {:induction false} OrderlyIsPrompt(m: Manager, evs: seq<Event>)
    requires Typed(m) && AllUpToDate(m) && Legal(m, evs) && OrderlyRun(m, evs)
    ensures PromptRun(m, evs)
    decreases |evs|
  {
    if evs != [] {
      NextUpToDate(m, evs[0]);
      OrderlyIsPrompt(Next(m, evs[0]), evs[1..]);
    }
  }

  // ----- A run that strands a listener -----

  const X: Config := Config("a", "x")
  const Y: Config := Config("a", "y")

  function BothCalled(): Manager {
    Manager([], Some(map[]), None, map[0 := Setting(X), 1 := Setting(Y)], map[], 0, multiset{})
  }

  function BothRead(): Manager {
    BothCalled().(threads := map[0 := Connecting(X, None), 1 := Connecting(Y, None)])
  }

  function BothConnected(): Manager {
    Manager([Listener(X, true, false, Some(0)), Listener(Y, true, false, Some(1))], Some(map[]), None,
            map[0 := Subscribing(X, None, 0), 1 := Subscribing(Y, None, 1)], map[0 := 0, 1 := 1], 2, multiset{})
  }

  function BothSubscribed(): Manager {
    BothConnected().(
      table := [Listener(X, true, true, Some(0)), Listener(Y, true, true, Some(1))],
      threads := map[0 := Publishing(X, None, 0), 1 := Publishing(Y, None, 1)])
  }

  function BothPublished(): Manager {
    BothSubscribed().(mapped := Some(map["a" := 1]), threads := map[])
  }

  lemma Calls()
    ensures Legal(Init(), [StartManager, CallSet(0, X), CallSet(1, Y)])
    ensures Run(Init(), [StartManager, CallSet(0, X), CallSet(1, Y)]) == BothCalled()
  {
    var started := Next(Init(), StartManager);
    TwoSteps(started, CallSet(0, X), CallSet(1, Y));
    assert [StartManager, CallSet(0, X), CallSet(1, Y)][1..] == [CallSet(0, X), CallSet(1, Y)];
  }

  lemma Reads()
    ensures Legal(BothCalled(), [Read(0), Read(1)]) && Run(BothCalled(), [Read(0), Read(1)]) == BothRead()
  {
    TwoSteps(BothCalled(), Read(0), Read(1));
  }

  lemma Connects()
    ensures Legal(BothRead(), [Connect(0), Connect(1)])
    ensures Run(BothRead(), [Connect(0), Connect(1)]) == BothConnected()
  {
    TwoSteps(BothRead(), Connect(0), Connect(1));
  }

  lemma Subscribes()
    ensures Legal(BothConnected(), [Subscribe(0), Subscribe(1)])
    ensures Run(BothConnected(), [Subscribe(0), Subscribe(1)]) == BothSubscribed()
  {
    TwoSteps(BothConnected(), Subscribe(0), Subscribe(1));
  }

  lemma Publishes()
    ensures Legal(BothSubscribed(), [Publish(0), Publish(1)])
    ensures Run(BothSubscribed(), [Publish(0), Publish(1)]) == BothPublished()
  {
    var first := Next(BothSubscribed(), Publish(0));
    var second := Next(first, Publish(1));
    assert second.mapped.value == map["a" := 1] && second.threads == map[];
    TwoSteps(BothSubscribed(), Publish(0), Publish(1));
  }

  /** Two Sets of one id that both read the map before either has published. */
  function Overlapping(): seq<Event> {
    [StartManager, CallSet(0, X), CallSet(1, Y)] + [Read(0), Read(1)] + [Connect(0), Connect(1)]
    + [Subscribe(0), Subscribe(1)] + [Publish(0), Publish(1)]
  }

  /** The second to publish does not know of the first, whose listener keeps its handle
      although it is not mapped and no call will stop it. */
  lemma OverlapStrands()
    ensures Legal(Init(), Overlapping())
    ensures var m := Run(Init(), Overlapping());
            m.threads == map[] && 0 in m.handles && !Owned(m, m.handles[0])
  {
    var calls := [StartManager, CallSet(0, X), CallSet(1, Y)];
    var first, second := calls + [Read(0), Read(1)], calls + [Read(0), Read(1)] + [Connect(0), Connect(1)];
    Calls();
    Reads();
    RunOn(Init(), calls, [Read(0), Read(1)]);
    Connects();
    RunOn(Init(), first, [Connect(0), Connect(1)]);
    Subscribes();
    RunOn(Init(), second, [Subscribe(0), Subscribe(1)]);
    Publishes();
    RunOn(Init(), second + [Subscribe(0), Subscribe(1)], [Publish(0), Publish(1)]);
  }
}

/** Two attempts of one Get that fail on one connection: a run that leads there. */
module PoolTwice {
  import opened Prelude
  import opened PoolMachine
  import opened PoolRuns

  function Alone(count: nat, closed: bool, closers: nat): seq<Conn> {
    [Conn("k", count, closed, false, closers, 0)]
  }

  /** Callers 0 and 2 have the connection and have not counted it. */
  function BothGot(): Pool {
    Pool(Alone(0, false, 0), [Connected], map["k" := 0], [],
         map[0 := Got("k", 0, 0), 2 := Got("k", 0, 0)], map[], map[], 0, None)
  }

  /** Caller 2 counted it, and the flight of caller 1 found it in the cache. */
  function OneWaits(): Pool {
    Pool(Alone(1, false, 0), [Connected], map["k" := 0], [],
         map[0 := Got("k", 0, 0), 1 := Waiting("k", 0)], map["k" := Ready(0)], map[0 := 0], 1, None)
  }

  /** Caller 2 returned it, and caller 0 has found it closed. */
  function Returned(): Pool {
    Pool(Alone(0, true, 1), [Connected], map[], [],
         map[0 := Got("k", 0, 0), 1 := Waiting("k", 0)], map["k" := Ready(0)], map[], 1, None)
  }

  /** Caller 0 tried again and has it again. */
  function GotAgain(): Pool {
    Pool(Alone(0, true, 1), [Connected], map[], [],
         map[0 := Got("k", 1, 0), 1 := Got("k", 0, 0)], map[], map[], 1, None)
  }

  /** Callers 0 and 2 wait for one flight. */
  function BothWait(): Pool {
    Pool([], [], map[], [], map[0 := Waiting("k", 0), 2 := Waiting("k", 0)], map["k" := Looking], map[], 0, None)
  }

  function ToBothWait(): seq<Event> {
    [Begin(0, "k"), Begin(2, "k")] + [Enter(0), Enter(2)]
  }

  lemma ReachBothWait()
    ensures Leads(Init(), ToBothWait(), BothWait())
  {
    var begun := Next(Next(Init(), Begin(0, "k")), Begin(2, "k"));
    RunTwo(Init(), Begin(0, "k"), Begin(2, "k"));
    RunTwo(begun, Enter(0), Enter(2));
    assert Next(Next(begun, Enter(0)), Enter(2)).gets == BothWait().gets;
    LeadsOn(Init(), [Begin(0, "k"), Begin(2, "k")], begun, [Enter(0), Enter(2)], BothWait());
  }

  function ToBothGot(): seq<Event> {
    [Lookup("k"), Publish("k", Connected)] + [Land("k")]
  }

  /** The flight has made a connection. */
  function Dialed(): Pool {
    BothGot().(gets := BothWait().gets, flights := map["k" := Ready(0)])
  }

  lemma ReachDialed()
    ensures Leads(BothWait(), [Lookup("k"), Publish("k", Connected)], Dialed())
  {
    RunTwo(BothWait(), Lookup("k"), Publish("k", Connected));
  }

  lemma ReachBothGot()
    ensures Leads(BothWait(), ToBothGot(), BothGot())
  {
    ReachDialed();
    RunOne(Dialed(), Land("k"));
    assert Next(Dialed(), Land("k")).gets == BothGot().gets;
    LeadsOn(BothWait(), [Lookup("k"), Publish("k", Connected)], Dialed(), [Land("k")], BothGot());
  }

  function ToOneWaits(): seq<Event> {
    [Acquire(2), Begin(1, "k")] + [Enter(1), Lookup("k")]
  }

  /** Caller 2 counted it, and caller 1 came. */
  function Counted(): Pool {
    OneWaits().(gets := map[0 := Got("k", 0, 0), 1 := Trying("k", 0)], flights := map[])
  }

  lemma ReachCounted()
    ensures Leads(BothGot(), [Acquire(2), Begin(1, "k")], Counted())
  {
    RunTwo(BothGot(), Acquire(2), Begin(1, "k"));
    assert Next(Next(BothGot(), Acquire(2)), Begin(1, "k")).gets == Counted().gets;
  }

  lemma ReachOneWaits()
    ensures Leads(Counted(), [Enter(1), Lookup("k")], OneWaits())
  {
    RunTwo(Counted(), Enter(1), Lookup("k"));
    assert Next(Next(Counted(), Enter(1)), Lookup("k")).gets == OneWaits().gets;
  }

  lemma ReachReturned()
    ensures Leads(OneWaits(), [Return(0)], Returned())
  {
    RunOne(OneWaits(), Return(0));
    assert Next(OneWaits(), Return(0)).cache == map[];
  }

  /** Caller 0 has joined the flight of caller 1. */
  function Joined(): Pool {
    Returned().(gets := map[0 := Waiting("k", 1), 1 := Waiting("k", 0)])
  }

  lemma ReachJoined()
    ensures Enabled(Returned(), Retry(0)) && Leads(Returned(), [Retry(0), Enter(0)], Joined())
  {
    RunTwo(Returned(), Retry(0), Enter(0));
    assert Next(Next(Returned(), Retry(0)), Enter(0)).gets == Joined().gets;
  }

  lemma ReachGotAgain()
    ensures Leads(Joined(), [Land("k")], GotAgain()) && Enabled(GotAgain(), Retry(0))
  {
    RunOne(Joined(), Land("k"));
    assert Next(Joined(), Land("k")).gets == GotAgain().gets;
  }

  /** The caller is back from attempt `tries` with connection 0, which it will find closed. */
  ghost predicate HasGot(s: Pool, t: nat, tries: nat) {
    Typed(s) && t in s.gets && s.gets[t] == Got("k", tries, 0) && Enabled(s, Retry(t))
  }

  /** From the start, steps that lead caller 0 to connection 0 when that is closed, and then
      steps, the first of them the retry, that lead it there once more. */
  lemma TwiceTheSame()
    ensures var first := ToBothWait() + ToBothGot() + ToOneWaits() + [Return(0)];
            var second := [Retry(0), Enter(0)] + [Land("k")];
            && Legal(Init(), first) && HasGot(Run(Init(), first), 0, 0)
            && Legal(Run(Init(), first), second) && HasGot(Run(Run(Init(), first), second), 0, 1)
  {
    ReachBothWait();
    ReachBothGot();
    LeadsOn(Init(), ToBothWait(), BothWait(), ToBothGot(), BothGot());
    ReachCounted();
    ReachOneWaits();
    LeadsOn(BothGot(), [Acquire(2), Begin(1, "k")], Counted(), [Enter(1), Lookup("k")], OneWaits());
    LeadsOn(Init(), ToBothWait() + ToBothGot(), BothGot(), ToOneWaits(), OneWaits());
    ReachReturned();
    LeadsOn(Init(), ToBothWait() + ToBothGot() + ToOneWaits(), OneWaits(), [Return(0)], Returned());
    ReachJoined();
    ReachGotAgain();
    LeadsOn(Returned(), [Retry(0), Enter(0)], Joined(), [Land("k")], GotAgain());
  }
}

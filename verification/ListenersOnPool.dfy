/** A listener manager on top of the connection pool. The two machines run side by side;
    a listener's connection is the result of one Get of the pool, and stopping a listener
    returns it. Others may use the pool at the same time. */
module ListenersOnPool {
  import opened Prelude
  import P = PoolMachine
  import PI = PoolInvariant
  import PR = PoolRuns
  import L = ListenerMachine
  import LR = ListenerRuns
  import LO = ListenerOwners

  /** `lent` tells which handle of the pool stands behind a handle of the manager. */
  datatype Joint = Joint(pool: P.Pool, mgr: L.Manager, lent: map<nat, nat>)

  datatype Event =
    | Use(step: P.Event)           // a step of the pool that does not concern the manager
    | Manage(move: L.Event)        // a step of the manager; if it returns a handle, so does the pool
    | ConnectVia(t: nat, get: nat) // a Get of the pool ends, and the listener of call t has its result

  /** The handle that the step of the manager returns. */
  ghost function Gives(m: L.Manager, e: L.Event): Option<nat>
    requires L.Typed(m) && L.Enabled(m, e)
  {
    match e
    case SubscribeFails(t) =>
      assert L.Indexed(m.threads[t], |m.table|);
      m.table[m.threads[t].own].conn
    case Retire(t) =>
      assert L.Indexed(m.threads[t], |m.table|);
      var lst := m.table[m.threads[t].gone];
      if lst.running then lst.conn else None
    case StopOne(t, l) =>
      assert L.Indexed(m.threads[t], |m.table|);
      if m.table[l].running then m.table[l].conn else None
    case _ => None
  }

  // ----- Steps -----

  ghost predicate Typed(j: Joint) {
    P.Typed(j.pool) && L.Typed(j.mgr)
  }

  ghost predicate Enabled(j: Joint, e: Event)
    requires Typed(j)
  {
    match e
    case Use(step) => P.Enabled(j.pool, step) && !(step.Return? && step.h in j.lent.Values)
    case Manage(move) => L.Enabled(j.mgr, move) && !move.Connect?
    case ConnectVia(t, get) => L.Enabled(j.mgr, L.Connect(t)) && P.Enabled(j.pool, P.Acquire(get))
  }

  /** A handle of the manager goes back to the pool. */
  ghost function GiveBack(j: Joint, h: nat): (r: Joint)
    requires Typed(j)
    ensures Typed(r)
  {
    if h in j.lent && j.lent[h] in j.pool.handles
    then j.(pool := P.Next(j.pool, P.Return(j.lent[h])), lent := j.lent - {h})
    else j
  }

  ghost function Next(j: Joint, e: Event): (r: Joint)
    requires Typed(j) && Enabled(j, e)
    ensures Typed(r)
  {
    match e
    case Use(step) => j.(pool := P.Next(j.pool, step))
    case Manage(move) =>
      var given := Gives(j.mgr, move);
      (if given.Some? then GiveBack(j, given.value) else j).(mgr := L.Next(j.mgr, move))
    case ConnectVia(t, get) =>
      Joint(P.Next(j.pool, P.Acquire(get)), L.Next(j.mgr, L.Connect(t)), j.lent[j.mgr.issued := j.pool.issued])
  }

  function Init(): Joint {
    Joint(P.Init(), L.Init(), map[])
  }

  // ----- The manager uses the pool as the pool demands -----

  /** Every unreturned handle of the manager stands for an unreturned handle of the pool
      of its own. */
  ghost predicate Linked(mine: map<nat, nat>, theirs: map<nat, nat>, lent: map<nat, nat>) {
    && lent.Keys == mine.Keys && Distinct(lent)
    && forall h :: h in lent ==> lent[h] in theirs
  }

  lemma LinkMore(mine: map<nat, nat>, theirs: map<nat, nat>, lent: map<nat, nat>, h: nat, l: nat, p: nat, c: nat)
    requires Linked(mine, theirs, lent) && h !in mine && p !in theirs
    ensures Linked(mine[h := l], theirs[p := c], lent[h := p])
  {
  }

  lemma LinkLess(mine: map<nat, nat>, theirs: map<nat, nat>, lent: map<nat, nat>, h: nat)
    requires Linked(mine, theirs, lent) && h in lent
    ensures Linked(mine - {h}, theirs - {lent[h]}, lent - {h})
  {
  }

  ghost predicate Inv(j: Joint) {
    PI.Inv(j.pool) && LR.Inv(j.mgr) && Linked(j.mgr.handles, j.pool.handles, j.lent)
  }

  lemma StopGives(m: L.Manager, l: nat)
    requires L.Typed(m) && LR.HandlesOk(m.table, m.handles, m.issued, m.returned)
    requires l < |m.table| && m.table[l].subscribed
    ensures var lst := m.table[l];
            var given := if lst.running then lst.conn else None;
            && (given.Some? ==> given.value in m.handles)
            && L.StopListener(m, l).handles == if given.Some? then m.handles - {given.value} else m.handles
  {
  }

  /** A step of the manager gives back one of its handles or leaves them alone. */
  lemma GivesOwn(m: L.Manager, e: L.Event)
    requires LR.Inv(m) && L.Enabled(m, e) && !e.Connect?
    ensures Gives(m, e).Some? ==> Gives(m, e).value in m.handles
    ensures L.Next(m, e).handles == if Gives(m, e).Some? then m.handles - {Gives(m, e).value} else m.handles
  {
    match e
    case SubscribeFails(t) =>
      assert LR.ThreadOk(m.threads[t], m.table, m.handles);
    case Retire(t) =>
      assert LR.ThreadOk(m.threads[t], m.table, m.handles);
      StopGives(m, m.threads[t].gone);
    case StopOne(t, l) =>
      assert l in m.mapped.value.Values;
      StopGives(m, l);
    case _ =>
  }

  /** The pool's rule that a handle is returned at most once is kept: whenever the manager
      returns a handle, the pool has it on loan. */
  lemma ReturnsAreLegal(j: Joint, e: L.Event)
    requires Inv(j) && L.Enabled(j.mgr, e) && !e.Connect? && Gives(j.mgr, e).Some?
    ensures Gives(j.mgr, e).value in j.lent
    ensures P.Enabled(j.pool, P.Return(j.lent[Gives(j.mgr, e).value]))
  {
    GivesOwn(j.mgr, e);
  }

  lemma UseInv(j: Joint, step: P.Event)
    requires Inv(j) && Enabled(j, Use(step))
    ensures Inv(Next(j, Use(step)))
  {
    PI.NextInv(j.pool, step);
    PR.HandlesChange(j.pool, step);
  }

  lemma ManageInv(j: Joint, move: L.Event)
    requires Inv(j) && Enabled(j, Manage(move))
    ensures Inv(Next(j, Manage(move)))
  {
    LR.NextInv(j.mgr, move);
    GivesOwn(j.mgr, move);
    if Gives(j.mgr, move).Some? {
      ReturnsAreLegal(j, move);
      var back := P.Return(j.lent[Gives(j.mgr, move).value]);
      PI.NextInv(j.pool, back);
      PR.HandlesChange(j.pool, back);
      LinkLess(j.mgr.handles, j.pool.handles, j.lent, Gives(j.mgr, move).value);
    }
  }

  lemma ConnectHandles(m: L.Manager, t: nat)
    requires LR.Inv(m) && L.Enabled(m, L.Connect(t))
    ensures L.Next(m, L.Connect(t)).handles == m.handles[m.issued := |m.table|] && m.issued !in m.handles
  {
    assert L.Indexed(m.threads[t], |m.table|);
  }

  lemma ConnectInv(j: Joint, t: nat, get: nat)
    requires Inv(j) && Enabled(j, ConnectVia(t, get))
    ensures Inv(Next(j, ConnectVia(t, get)))
  {
    LR.NextInv(j.mgr, L.Connect(t));
    ConnectHandles(j.mgr, t);
    PI.NextInv(j.pool, P.Acquire(get));
    PR.HandlesChange(j.pool, P.Acquire(get));
    LinkMore(
      j.mgr.handles, j.pool.handles, j.lent, j.mgr.issued, |j.mgr.table|, j.pool.issued, j.pool.gets[get].conn);
  }

  lemma NextInv(j: Joint, e: Event)
    requires Inv(j) && Enabled(j, e)
    ensures Inv(Next(j, e))
  {
    match e
    case Use(step) => UseInv(j, step);
    case Manage(move) => ManageInv(j, move);
    case ConnectVia(t, get) => ConnectInv(j, t, get);
  }

  // ----- Over all runs -----

  ghost predicate Legal(j: Joint, evs: seq<Event>)
    requires Typed(j)
    decreases |evs|
  {
    evs == [] || (Enabled(j, evs[0]) && Legal(Next(j, evs[0]), evs[1..]))
  }

  ghost function Run(j: Joint, evs: seq<Event>): (r: Joint)
    requires Typed(j) && Legal(j, evs)
    ensures Typed(r)
    decreases |evs|
  {
    if evs == [] then j else Run(Next(j, evs[0]), evs[1..])
  }

  lemma {:induction false} RunInv(j: Joint, evs: seq<Event>)
    requires Inv(j) && Legal(j, evs)
    ensures Inv(Run(j, evs))
    decreases |evs|
  {
    if evs != [] {
      NextInv(j, evs[0]);
      RunInv(Next(j, evs[0]), evs[1..]);
    }
  }

  lemma InitInv()
    ensures Inv(Init())
  {
    PI.InitInv();
    LR.InitInv();
  }

  /** In every interleaving, whenever the manager's lock is free, the pool has neither
      closed nor forgotten the connection of a mapped listener. */
  lemma MappedConnectionIsOpen(evs: seq<Event>, id: string)
    requires Legal(Init(), evs)
    requires var m := Run(Init(), evs).mgr; m.lock.None? && m.mapped.Some? && id in m.mapped.value
    ensures var j := Run(Init(), evs);
            && j.mgr.mapped.value[id] < |j.mgr.table|
            && var lst := j.mgr.table[j.mgr.mapped.value[id]];
            && lst.running && lst.conn.Some? && lst.conn.value in j.lent
            && j.lent[lst.conn.value] in j.pool.handles
            && var c := j.pool.handles[j.lent[lst.conn.value]];
               c < |j.pool.conns| && j.pool.conns[c].count > 0 && !j.pool.conns[c].closed
  {
    InitInv();
    RunInv(Init(), evs);
    var j := Run(Init(), evs);
    var l := j.mgr.mapped.value[id];
    assert l in j.mgr.mapped.value.Values;
    PR.HeldIsOpen(j.pool, j.lent[j.mgr.table[l].conn.value]);
  }

  // ----- Conservation -----

  /** The pooled connection behind each handle of the manager. */
  ghost function Behind(theirs: map<nat, nat>, lent: map<nat, nat>): map<nat, nat> {
    map h | h in lent && lent[h] in theirs :: theirs[lent[h]]
  }

  /** The handles on connection c that others hold. */
  ghost function Foreign(theirs: map<nat, nat>, lent: map<nat, nat>, c: nat): set<nat> {
    set p | p in theirs && theirs[p] == c && p !in lent.Values
  }

  /** The pool's handles behind those of the manager's handles that are on connection c. */
  ghost function Ours(theirs: map<nat, nat>, lent: map<nat, nat>, c: nat): map<nat, nat> {
    map h | h in lent && lent[h] in theirs && theirs[lent[h]] == c :: lent[h]
  }

  lemma OursOrForeign(theirs: map<nat, nat>, lent: map<nat, nat>, c: nat)
    ensures Preimage(theirs, c) == Ours(theirs, lent, c).Values + Foreign(theirs, lent, c)
  {
    var ours := Ours(theirs, lent, c);
    forall p | p in Preimage(theirs, c) && p in lent.Values
      ensures p in ours.Values
    {
      var h :| h in lent && lent[h] == p;
      assert ours[h] == p;
    }
  }

  lemma LentAndForeign(theirs: map<nat, nat>, lent: map<nat, nat>, c: nat)
    requires Distinct(lent)
    ensures |Preimage(theirs, c)| == |Preimage(Behind(theirs, lent), c)| + |Foreign(theirs, lent, c)|
  {
    var ours := Ours(theirs, lent, c);
    OursOrForeign(theirs, lent, c);
    DistinctSize(ours);
    assert ours.Keys == Preimage(Behind(theirs, lent), c);
  }

  /** In every interleaving the count of a pooled connection is the number of the manager's
      handles on it plus the number of others'. */
  lemma CountsAreLoans(evs: seq<Event>)
    requires Legal(Init(), evs)
    ensures var j := Run(Init(), evs);
            forall c :: 0 <= c < |j.pool.conns| ==>
              j.pool.conns[c].count ==
              |Preimage(Behind(j.pool.handles, j.lent), c)| + |Foreign(j.pool.handles, j.lent, c)|
  {
    InitInv();
    RunInv(Init(), evs);
    var j := Run(Init(), evs);
    forall c | 0 <= c < |j.pool.conns|
      ensures j.pool.conns[c].count ==
              |Preimage(Behind(j.pool.handles, j.lent), c)| + |Foreign(j.pool.handles, j.lent, c)|
    {
      LentAndForeign(j.pool.handles, j.lent, c);
    }
  }

  // ----- Conservation by listener -----

  /** In the run every Publish of the manager is up to date. */
  ghost predicate PromptRun(j: Joint, evs: seq<Event>)
    requires Typed(j) && Legal(j, evs)
    decreases |evs|
  {
    evs == [] || ((evs[0].Manage? ==> LO.Prompt(j.mgr, evs[0].move)) && PromptRun(Next(j, evs[0]), evs[1..]))
  }

  lemma StepNoStrays(j: Joint, e: Event)
    requires Inv(j) && LO.NoStrays(j.mgr) && Enabled(j, e) && (e.Manage? ==> LO.Prompt(j.mgr, e.move))
    ensures LO.NoStrays(Next(j, e).mgr)
  {
    match e
    case Use(_) =>
    case Manage(move) => LO.NextNoStrays(j.mgr, move);
    case ConnectVia(t, _) => LO.NextNoStrays(j.mgr, L.Connect(t));
  }

  lemma {:induction false} RunNoStrays(j: Joint, evs: seq<Event>)
    requires Inv(j) && LO.NoStrays(j.mgr) && Legal(j, evs) && PromptRun(j, evs)
    ensures Inv(Run(j, evs)) && LO.NoStrays(Run(j, evs).mgr)
    decreases |evs|
  {
    if evs != [] {
      NextInv(j, evs[0]);
      StepNoStrays(j, evs[0]);
      RunNoStrays(Next(j, evs[0]), evs[1..]);
    }
  }

  /** The handle of each mapped listener. */
  ghost function Held(m: L.Manager): map<string, nat>
    requires L.Typed(m)
  {
    if m.mapped.None? then map[]
    else
      var mapped := m.mapped.value;
      map id | id in mapped && m.table[mapped[id]].conn.Some? :: m.table[mapped[id]].conn.value
  }

  /** The pooled connection that each mapped listener is on. */
  ghost function Seats(j: Joint): map<string, nat>
    requires Typed(j)
  {
    var held, behind := Held(j.mgr), Behind(j.pool.handles, j.lent);
    map id | id in held && held[id] in behind :: behind[held[id]]
  }

  /** While no call is under way the mapped listeners and the handles are one to one. */
  lemma QuietHeld(m: L.Manager)
    requires LR.Inv(m) && LO.NoStrays(m) && m.threads == map[]
    ensures Distinct(Held(m)) && Held(m).Values == m.handles.Keys
    ensures Held(m).Keys == if m.mapped.None? then {} else m.mapped.value.Keys
  {
    LO.QuietHandles(m);
    if m.mapped.Some? {
      var mapped := m.mapped.value;
      forall id | id in mapped
        ensures LR.Holds(m.table[mapped[id]], m.handles, mapped[id])
      {
        assert mapped[id] in mapped.Values;
      }
      forall h | h in m.handles
        ensures h in Held(m).Values
      {
        assert m.handles[h] in mapped.Values;
        var id :| id in mapped && mapped[id] == m.handles[h];
        assert Held(m)[id] == h;
      }
    }
  }

  lemma SeatsCount(held: map<string, nat>, behind: map<nat, nat>, seats: map<string, nat>, c: nat)
    requires Distinct(held) && held.Values == behind.Keys && seats.Keys == held.Keys
    requires forall id :: id in held ==> seats[id] == behind[held[id]]
    ensures |Preimage(behind, c)| == |Preimage(seats, c)|
  {
    var on := map id | id in seats && seats[id] == c :: held[id];
    assert on.Keys == Preimage(seats, c);
    forall h | h in Preimage(behind, c)
      ensures h in on.Values
    {
      assert h in held.Values;
      var id :| id in held && held[id] == h;
      assert on[id] == h;
    }
    assert on.Values == Preimage(behind, c);
    DistinctSize(on);
  }

  lemma QuietSeats(j: Joint)
    requires Inv(j) && LO.NoStrays(j.mgr) && j.mgr.threads == map[]
    ensures Held(j.mgr).Values == Behind(j.pool.handles, j.lent).Keys && Distinct(Held(j.mgr))
    ensures Seats(j).Keys == Held(j.mgr).Keys == if j.mgr.mapped.None? then {} else j.mgr.mapped.value.Keys
  {
    QuietHeld(j.mgr);
  }

  lemma QuietCount(j: Joint, c: nat)
    requires Inv(j) && LO.NoStrays(j.mgr) && j.mgr.threads == map[] && c < |j.pool.conns|
    ensures j.pool.conns[c].count == |Preimage(Seats(j), c)| + |Foreign(j.pool.handles, j.lent, c)|
  {
    QuietSeats(j);
    LentAndForeign(j.pool.handles, j.lent, c);
    SeatsCount(Held(j.mgr), Behind(j.pool.handles, j.lent), Seats(j), c);
  }

  /** After a run whose Publishes are all up to date, whenever no call to the manager is
      under way, every mapped listener is on a pooled connection, and the count of a
      connection is the number of listeners on it plus the number of others' handles. */
  lemma CountsAreListeners(evs: seq<Event>)
    requires Legal(Init(), evs) && PromptRun(Init(), evs) && Run(Init(), evs).mgr.threads == map[]
    ensures var j := Run(Init(), evs);
            && Seats(j).Keys == (if j.mgr.mapped.None? then {} else j.mgr.mapped.value.Keys)
            && forall c :: 0 <= c < |j.pool.conns| ==>
                 j.pool.conns[c].count == |Preimage(Seats(j), c)| + |Foreign(j.pool.handles, j.lent, c)|
  {
    InitInv();
    RunNoStrays(Init(), evs);
    var j := Run(Init(), evs);
    QuietSeats(j);
    forall c | 0 <= c < |j.pool.conns|
      ensures j.pool.conns[c].count == |Preimage(Seats(j), c)| + |Foreign(j.pool.handles, j.lent, c)|
    {
      QuietCount(j, c);
    }
  }
}

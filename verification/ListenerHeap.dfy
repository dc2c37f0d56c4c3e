/** Listeners and their manager as mutable objects, one call at a time. */
module ListenerHeap {
  import opened Prelude

  /** The connections that are out on loan, a connection as often as it is counted. */
  class Provider {
    var held: multiset<nat>

    constructor ()
      ensures held == multiset{}
    {
      held := multiset{};
    }

    /** The pool offers a connection, or none if it cannot connect. */
    method Get(offer: Option<nat>) returns (conn: Option<nat>)
      modifies this
      ensures conn == offer
      ensures held == old(held) + if offer.Some? then multiset{offer.value} else multiset{}
    {
      if offer.Some? {
        held := held + multiset{offer.value};
      }
      return offer;
    }

    method ReturnToPool(conn: nat)
      requires conn in held
      modifies this
      ensures held == old(held) - multiset{conn}
    {
      held := held - multiset{conn};
    }
  }

  class Gauge {
    var value: int

    constructor ()
      ensures value == 0
    {
      value := 0;
    }

    method Inc()
      modifies this
      ensures value == old(value) + 1
    {
      value := value + 1;
    }

    method Dec()
      modifies this
      ensures value == old(value) - 1
    {
      value := value - 1;
    }
  }

  /** What the surroundings do during one Start: whether an old connection still works,
      which connection the pool offers, and how many subscriptions succeed. */
  datatype Env = Env(connected: bool, offer: Option<nat>, subscriptions: nat)

  /** A listener for service observations has one subscription, one for JetStream advisories
      has two. */
  datatype Kind = ServiceObservation | JetStreamAdvisory

  function Subscriptions(kind: Kind): nat {
    if kind.ServiceObservation? then 1 else 2
  }

  /** The surroundings let a listener of the kind start. */
  predicate CanStart(kind: Kind, env: Env): (can: bool)
    ensures kind.ServiceObservation? ==> (can <==> env.offer.Some? && env.subscriptions >= 1)
    ensures kind.JetStreamAdvisory? ==> (can <==> env.offer.Some? && env.subscriptions >= 2)
  {
    env.offer.Some? && env.subscriptions >= Subscriptions(kind)
  }

  function Loan(conn: Option<nat>): multiset<nat> {
    if conn.Some? then multiset{conn.value} else multiset{}
  }

  class Listener {
    const kind: Kind
    const config: Config
    const provider: Provider
    const gauge: Gauge
    var conn: Option<nat>
    var first: bool
    var second: bool
    var running: bool

    /** A running listener has subscribed and has its connection on loan; another has neither. */
    ghost predicate Valid()
      reads this, provider
    {
      if running then conn.Some? && Subscribed() && conn.value in provider.held
      else conn.None? && !first && !second
    }

    /** All subscriptions of its kind are there. */
    ghost predicate Subscribed()
      reads this
    {
      first && (second <==> kind.JetStreamAdvisory?)
    }

    /** What a running listener has on loan. */
    ghost function Loans(): multiset<nat>
      reads this
    {
      if running then Loan(conn) else multiset{}
    }

    constructor (kind: Kind, config: Config, provider: Provider, gauge: Gauge)
      ensures this.kind == kind && this.config == config && this.provider == provider && this.gauge == gauge
      ensures !running && Valid()
    {
      this.kind, this.config, this.provider, this.gauge := kind, config, provider, gauge;
      conn, first, second, running := None, false, false, false;
    }

    method Stop()
      requires Valid()
      modifies this, provider, gauge
      ensures Valid() && !running && conn.None? && !first && !second
      ensures provider.held == old(provider.held) - old(Loans())
      ensures gauge.value == old(gauge.value) - if old(running) then 1 else 0
    {
      if !running {
        return;
      }
      first := false;
      second := false;
      gauge.Dec();
      provider.ReturnToPool(conn.value);
      conn := None;
      running := false;
    }

    /** Get a connection and subscribe. */
    method Open(env: Env) returns (ok: bool)
      requires !running && !first && !second
      modifies this, provider, gauge
      ensures ok == CanStart(kind, env) && conn == env.offer && running == env.offer.Some?
      ensures ok <==> env.offer.Some? && env.subscriptions >= if kind.JetStreamAdvisory? then 2 else 1
      ensures first ==> env.subscriptions >= 1
      ensures second ==> env.subscriptions >= 2
      ensures ok ==> first && (second <==> kind.JetStreamAdvisory?)
      ensures !ok ==> !first && !second
      ensures ok ==>
                && Valid() && provider.held == old(provider.held) + Loan(conn)
                && gauge.value == old(gauge.value) + 1
      ensures !ok ==> provider.held == old(provider.held) && gauge.value == old(gauge.value)
    {
      conn := provider.Get(env.offer);
      if conn.None? {
        return false;
      }
      running := true;
      if env.subscriptions < 1 {
        provider.ReturnToPool(conn.value);
        return false;
      }
      if kind.JetStreamAdvisory? && env.subscriptions < 2 {
        provider.ReturnToPool(conn.value);
        return false;
      }
      first, second := true, kind.JetStreamAdvisory?;
      gauge.Inc();
      return true;
    }

    /** On success the listener runs. On failure it has nothing on loan, whichever
        subscription failed; but if the pool offered a connection, and only then, it is left
        marked as running with that connection. */
    method Start(env: Env) returns (ok: bool)
      requires Valid()
      modifies this, provider, gauge
      ensures ok == (old(running && env.connected) || CanStart(kind, env))
      ensures ok && !(old(running) && env.connected) ==>
                && first && env.subscriptions >= 1
                && (second <==> kind.JetStreamAdvisory?) && (second ==> env.subscriptions >= 2)
      ensures old(running) && env.connected ==>
                && Valid() && running && conn == old(conn)
                && provider.held == old(provider.held) && gauge.value == old(gauge.value)
      ensures ok && !(old(running) && env.connected) ==>
                && Valid() && running && conn == env.offer
                && provider.held == old(provider.held) - old(Loans()) + Loan(conn)
                && gauge.value == old(gauge.value) + if old(running) then 0 else 1
      ensures !ok ==>
                && running == env.offer.Some? && conn == env.offer && !first && !second
                && provider.held == old(provider.held) - old(Loans())
                && gauge.value == old(gauge.value) - if old(running) then 1 else 0
    {
      if running {
        if conn.Some? && env.connected {
          return true;
        }
        Stop();
      }
      ok := Open(env);
    }
  }
}

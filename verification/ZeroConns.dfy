/** Account statistics of the servers, with the pairs left out that keep reporting that an
    account has no connections. */
module ZeroConns {
  import opened Prelude

  /** What one server says about one account. */
  datatype AccStat = AccStat(serverId: string, account: string, totalConns: int, conns: int)

  datatype Statz = Statz(serverId: string, accounts: seq<AccountStat>)
  datatype AccountStat = AccountStat(account: string, totalConns: int, conns: int)

  const SKIP: int := 3

  function KeyOf(o: AccStat): string {
    o.serverId + ":" + o.account
  }

  // ----- Reference: functions of all observations so far -----

  /** For how many observations, up to the latest, the pair has had no connections. */
  function Streak(obs: seq<AccStat>, key: string): nat {
    if obs == [] then 0
    else
      var last := obs[|obs| - 1];
      var earlier := Streak(obs[..|obs| - 1], key);
      if KeyOf(last) != key then earlier
      else if last.totalConns == 0 then earlier + 1
      else 0
  }

  /** An observation is reported unless it is without connections and its streak is over
      the limit. */
  predicate Reported(obs: seq<AccStat>, i: nat)
    requires i < |obs|
  {
    obs[i].totalConns != 0 || Streak(obs[..i + 1], KeyOf(obs[i])) <= SKIP
  }

  /** The observations of one account from place `from` on that are reported, in order. */
  function ReportedOf(obs: seq<AccStat>, from: nat, account: string): seq<AccStat>
    requires from <= |obs|
  {
    if |obs| == from then []
    else
      var i := |obs| - 1;
      var earlier := ReportedOf(obs[..i], from, account);
      if obs[i].account == account && Reported(obs, i) then earlier + [obs[i]] else earlier
  }

  function Min(a: int, b: int): int {
    if a <= b then a else b
  }

  lemma StreakStep(obs: seq<AccStat>, o: AccStat, key: string)
    ensures Streak(obs + [o], key) ==
            if KeyOf(o) != key then Streak(obs, key)
            else if o.totalConns == 0 then Streak(obs, key) + 1
            else 0
  {
    assert (obs + [o])[..|obs|] == obs;
  }

  lemma ReportedStep(obs: seq<AccStat>, o: AccStat, from: nat, account: string)
    requires from <= |obs|
    ensures ReportedOf(obs + [o], from, account) ==
            if o.account == account && Reported(obs + [o], |obs|)
            then ReportedOf(obs, from, account) + [o] else ReportedOf(obs, from, account)
  {
    assert (obs + [o])[..|obs|] == obs;
  }

  /** The places after `from` where the pair is observed. */
  function After(obs: seq<AccStat>, key: string, from: int): set<int> {
    set j | from < j < |obs| && 0 <= j && KeyOf(obs[j]) == key
  }

  lemma AfterStep(obs: seq<AccStat>, key: string, from: int)
    requires -1 <= from < |obs| - 1
    ensures |After(obs, key, from)| ==
            |After(obs[..|obs| - 1], key, from)| + if KeyOf(obs[|obs| - 1]) == key then 1 else 0
  {
    var n := |obs| - 1;
    assert After(obs, key, from) == After(obs[..n], key, from) + if KeyOf(obs[n]) == key then {n} else {};
  }

  /** A streak counts the pair's observations since the last one that had connections. */
  lemma {:induction false} StreakCounts(obs: seq<AccStat>, key: string, from: int)
    requires -1 <= from < |obs|
    requires from >= 0 ==> KeyOf(obs[from]) == key && obs[from].totalConns != 0
    requires forall j :: from < j < |obs| && KeyOf(obs[j]) == key ==> obs[j].totalConns == 0
    ensures Streak(obs, key) == |After(obs, key, from)|
  {
    if |obs| == from + 1 {
      assert After(obs, key, from) == {};
    } else {
      StreakCounts(obs[..|obs| - 1], key, from);
      AfterStep(obs, key, from);
    }
  }

  /** An observation without connections is reported exactly if fewer than three such came
      before it since the pair last had any. */
  lemma {:induction false} ReportedNow(obs: seq<AccStat>, o: AccStat)
    ensures Reported(obs + [o], |obs|) <==> o.totalConns != 0 || Streak(obs, KeyOf(o)) < 3
  {
    assert (obs + [o])[..|obs| + 1] == obs + [o];
    StreakStep(obs, o, KeyOf(o));
  }

  /** The first colon of a key ends the server id, provided that ids contain no colon. */
  lemma KeysTellPairsApart(o: AccStat, p: AccStat)
    requires ':' !in o.serverId && ':' !in p.serverId && KeyOf(o) == KeyOf(p)
    ensures o.serverId == p.serverId && o.account == p.account
  {
    ColonSplits(o.serverId, o.account, p.serverId, p.account);
  }

  // ----- The loop that groups and suppresses -----

  /** What the flattened replies add to the observations. */
  function ObservationsOf(statz: Statz): (r: seq<AccStat>)
    ensures |r| == |statz.accounts|
    ensures forall i :: 0 <= i < |r| ==>
              && r[i].serverId == statz.serverId && r[i].account == statz.accounts[i].account
              && r[i].totalConns == statz.accounts[i].totalConns && r[i].conns == statz.accounts[i].conns
  {
    seq(|statz.accounts|, i requires 0 <= i < |statz.accounts| =>
      AccStat(statz.serverId, statz.accounts[i].account, statz.accounts[i].totalConns, statz.accounts[i].conns))
  }

  function Observations(res: seq<Statz>): seq<AccStat> {
    if res == [] then [] else Observations(res[..|res| - 1]) + ObservationsOf(res[|res| - 1])
  }

  /** Reply by reply, in order of arrival. */
  lemma {:induction false} ObservationsInOrder(res: seq<Statz>, parts: seq<seq<AccStat>>)
    requires |parts| == |res| && forall i :: 0 <= i < |res| ==> parts[i] == ObservationsOf(res[i])
    ensures Observations(res) == Flatten(parts)
  {
    if res != [] {
      ObservationsInOrder(res[..|res| - 1], parts[..|res| - 1]);
    }
  }

  function GroupOf(groups: map<string, seq<AccStat>>, account: string): seq<AccStat> {
    if account in groups then groups[account] else []
  }

  class AccStatzCollector {
    var zeroConn: map<string, int>
    ghost var obs: seq<AccStat>

    /** Every counter is the length of its streak, cut off at the limit. */
    ghost predicate Valid()
      reads this
    {
      forall key :: CountOf(zeroConn, key) == Min(SKIP, Streak(obs, key))
    }

    constructor ()
      ensures Valid() && obs == []
    {
      zeroConn, obs := map[], [];
    }

    /** Take one observation into account and say whether it is to be reported. */
    method Observe(o: AccStat) returns (report: bool)
      requires Valid()
      modifies this
      ensures Valid() && obs == old(obs) + [o]
      ensures report == Reported(obs, |old(obs)|)
      ensures report <==> o.totalConns != 0 || Streak(old(obs), KeyOf(o)) < 3
    {
      ReportedNow(obs, o);
      forall key {
        StreakStep(obs, o, key);
      }
      obs := obs + [o];
      var zeroConnKey := o.serverId + ":" + o.account;
      if o.totalConns == 0 {
        var count := CountOf(zeroConn, zeroConnKey);
        if count >= SKIP {
          return false;
        }
        zeroConn := zeroConn[zeroConnKey := count + 1];
      } else {
        zeroConn := zeroConn[zeroConnKey := 0];
      }
      return true;
    }

    /** One more observation joins the group of its account, if it is reported. */
    method Add(o: AccStat, groups: map<string, seq<AccStat>>, ghost from: nat)
      returns (grown: map<string, seq<AccStat>>)
      requires Valid() && from <= |obs|
      requires forall account :: GroupOf(groups, account) == ReportedOf(obs, from, account)
      modifies this
      ensures Valid() && obs == old(obs) + [o]
      ensures forall account :: GroupOf(grown, account) == ReportedOf(obs, from, account)
    {
      forall account {
        ReportedStep(obs, o, from, account);
      }
      grown := groups;
      var report := Observe(o);
      if report {
        grown := groups[o.account := GroupOf(groups, o.account) + [o]];
      }
    }

    /** Group the replies to one poll by account: of each account exactly the observations
        to be reported, in order of arrival. */
    method Group(res: seq<Statz>) returns (groups: map<string, seq<AccStat>>)
      requires Valid()
      modifies this
      ensures Valid() && obs == old(obs) + Observations(res)
      ensures forall account :: GroupOf(groups, account) == ReportedOf(obs, |old(obs)|, account)
    {
      groups := map[];
      for r := 0 to |res|
        invariant Valid() && obs == old(obs) + Observations(res[..r])
        invariant forall account :: GroupOf(groups, account) == ReportedOf(obs, |old(obs)|, account)
      {
        groups := GroupReply(res[r], groups, |old(obs)|);
        assert res[..r + 1][..r] == res[..r];
      }
      assert res[..|res|] == res;
    }

    method GroupReply(statz: Statz, groups0: map<string, seq<AccStat>>, ghost from: nat)
      returns (groups: map<string, seq<AccStat>>)
      requires Valid() && from <= |obs|
      requires forall account :: GroupOf(groups0, account) == ReportedOf(obs, from, account)
      modifies this
      ensures Valid() && obs == old(obs) + ObservationsOf(statz)
      ensures forall account :: GroupOf(groups, account) == ReportedOf(obs, from, account)
    {
      groups := groups0;
      ghost var own := ObservationsOf(statz);
      for a := 0 to |statz.accounts|
        invariant Valid() && obs == old(obs) + own[..a]
        invariant forall account :: GroupOf(groups, account) == ReportedOf(obs, from, account)
      {
        var acc := statz.accounts[a];
        groups := Add(AccStat(statz.serverId, acc.account, acc.totalConns, acc.conns), groups, from);
        assert own[..a + 1] == own[..a] + [own[a]];
      }
      assert own[..|own|] == own;
    }
  }
}

/** Which servers a collector expects to hear from, kept up to date poll by poll. */
module MissingServers {
  import opened Prelude

  datatype Stat = Stat(cluster: string, id: string)

  function KeyOf(s: Stat): string {
    s.cluster + ":" + s.id
  }

  function Responders(stats: seq<Stat>): set<string> {
    set i | 0 <= i < |stats| :: KeyOf(stats[i])
  }

  /** A poll is full if any number of servers will do or exactly the expected number replied. */
  predicate IsFull(expected: int, stats: seq<Stat>) {
    expected == -1 || |stats| == expected
  }

  // ----- Reference: functions of the whole history of polls -----

  /** The last full poll, or the first poll if none was full. */
  function Since(expected: int, polls: seq<seq<Stat>>): (n: nat)
    ensures n <= |polls|
    ensures n < |polls| ==> n == 0 || IsFull(expected, polls[n])
    ensures forall i :: n < i < |polls| ==> !IsFull(expected, polls[i])
  {
    if |polls| <= 1 then 0
    else if IsFull(expected, polls[|polls| - 1]) then |polls| - 1
    else Since(expected, polls[..|polls| - 1])
  }

  /** The responders of the last full poll and of all partial polls since. */
  ghost function Known(expected: int, polls: seq<seq<Stat>>): set<string> {
    set i, k | Since(expected, polls) <= i < |polls| && k in Responders(polls[i]) :: k
  }

  /** How often a known server did not reply to a partial poll. */
  ghost function Misses(expected: int, polls: seq<seq<Stat>>): nat {
    if polls == [] then 0
    else
      var earlier, last := polls[..|polls| - 1], polls[|polls| - 1];
      Misses(expected, earlier)
      + if IsFull(expected, last) then 0 else |Known(expected, earlier) - Responders(last)|
  }

  lemma KnownAfterFull(expected: int, polls: seq<seq<Stat>>, stats: seq<Stat>)
    requires IsFull(expected, stats)
    ensures Known(expected, polls + [stats]) == Responders(stats)
  {
    var all := polls + [stats];
    assert all[..|all| - 1] == polls;
    assert Since(expected, all) == |polls|;
    forall k
      ensures k in Known(expected, all) <==> k in Responders(stats)
    {
      if k in Responders(stats) {
        assert k in Responders(all[|polls|]);
      }
    }
  }

  lemma KnownAfterPartial(expected: int, polls: seq<seq<Stat>>, stats: seq<Stat>)
    requires !IsFull(expected, stats)
    ensures Known(expected, polls + [stats]) == Known(expected, polls) + Responders(stats)
  {
    var all := polls + [stats];
    assert all[..|all| - 1] == polls;
    assert Since(expected, all) == Since(expected, polls);
    assert all[|polls|] == stats && forall i :: 0 <= i < |polls| ==> all[i] == polls[i];
  }

  /** With any number of servers nothing is ever counted as missing. */
  lemma {:induction false} UnlimitedNeverMisses(polls: seq<seq<Stat>>)
    ensures Misses(-1, polls) == 0
  {
    if polls != [] {
      UnlimitedNeverMisses(polls[..|polls| - 1]);
    }
  }

  /** Keys tell servers apart, provided that ids contain no colon. */
  lemma KeysTellServersApart(s: Stat, t: Stat)
    requires ':' !in s.id && ':' !in t.id && KeyOf(s) == KeyOf(t)
    ensures s == t
  {
    ColonSplits(s.cluster, s.id, t.cluster, t.id);
  }

  // ----- The bookkeeping itself -----

  /** Beside the known servers the map has the responders, and those are the ones seen. */
  ghost predicate SeenAre(servers: map<string, bool>, known: set<string>, responders: set<string>) {
    servers.Keys == known + responders && forall k :: k in servers ==> (servers[k] <==> k in responders)
  }

  ghost function UnseenIn(servers: map<string, bool>): set<string> {
    set k | k in servers && !servers[k]
  }

  lemma UnseenAre(servers: map<string, bool>, known: set<string>, responders: set<string>)
    requires SeenAre(servers, known, responders)
    ensures UnseenIn(servers) == known - responders
  {
  }

  /** The list has the members of the set, each once. */
  ghost predicate Lists(xs: seq<string>, s: set<string>) {
    |xs| == |s| && forall x :: x in xs <==> x in s
  }

  class ServerTracker {
    const expected: int
    var servers: map<string, bool>
    var noReplies: int
    ghost var polls: seq<seq<Stat>>

    ghost predicate Valid()
      reads this
    {
      servers.Keys == Known(expected, polls) && noReplies == Misses(expected, polls)
    }

    constructor (expected: int)
      ensures Valid() && this.expected == expected && polls == []
    {
      this.expected := expected;
      servers, noReplies, polls := map[], 0, [];
    }

    /** No known server has been seen yet. */
    method Unsee()
      modifies `servers
      ensures servers.Keys == old(servers).Keys && forall k :: k in servers ==> !servers[k]
    {
      var todo := servers.Keys;
      while todo != {}
        invariant todo <= servers.Keys == old(servers.Keys)
        invariant forall k :: k in servers && k !in todo ==> !servers[k]
        decreases |todo|
      {
        var key :| key in todo;
        servers := servers[key := false];
        todo := todo - {key};
      }
    }

    /** The responders have been seen. */
    method See(stats: seq<Stat>)
      requires forall k :: k in servers ==> !servers[k]
      modifies `servers
      ensures SeenAre(servers, old(servers).Keys, Responders(stats))
    {
      for i := 0 to |stats|
        invariant SeenAre(servers, old(servers).Keys, Responders(stats[..i]))
      {
        assert stats[..i + 1] == stats[..i] + [stats[i]];
        RespondersSnoc(stats[..i], stats[i]);
        servers := servers[KeyOf(stats[i]) := true];
      }
      assert stats[..|stats|] == stats;
    }

    /** The servers that have not been seen, in some order. */
    method Unseen() returns (missing: seq<string>)
      ensures Lists(missing, UnseenIn(servers))
    {
      missing := [];
      var todo := servers.Keys;
      ghost var done: set<string> := {};
      while todo != {}
        invariant done == set k | k in servers && k !in todo && !servers[k]
        invariant todo <= servers.Keys && Lists(missing, done)
        decreases |todo|
      {
        var key :| key in todo;
        if !servers[key] {
          missing := missing + [key];
          done := done + {key};
        }
        todo := todo - {key};
      }
      assert done == UnseenIn(servers);
    }

    method Expect(stats: seq<Stat>)
      modifies `servers
      ensures servers.Keys == Responders(stats) && forall k :: k in servers ==> !servers[k]
    {
      servers := map[];
      for i := 0 to |stats|
        invariant servers.Keys == Responders(stats[..i]) && forall k :: k in servers ==> !servers[k]
      {
        assert stats[..i + 1] == stats[..i] + [stats[i]];
        RespondersSnoc(stats[..i], stats[i]);
        servers := servers[KeyOf(stats[i]) := false];
      }
      assert stats[..|stats|] == stats;
    }

    /** Note which known servers did not reply. */
    method Miss(stats: seq<Stat>) returns (missing: seq<string>)
      modifies `servers, `noReplies
      ensures servers.Keys == old(servers).Keys + Responders(stats)
      ensures Lists(missing, old(servers).Keys - Responders(stats))
      ensures noReplies == old(noReplies) + |missing|
    {
      Unsee();
      See(stats);
      UnseenAre(servers, old(servers).Keys, Responders(stats));
      missing := Unseen();
      noReplies := noReplies + |missing|;
    }

    method Update(stats: seq<Stat>) returns (missing: seq<string>)
      modifies `servers, `noReplies
      ensures noReplies == old(noReplies) + |missing|
      ensures expected != -1 && |stats| != expected ==>
                && Lists(missing, old(servers).Keys - Responders(stats))
                && servers.Keys == old(servers).Keys + Responders(stats)
      ensures expected == -1 || |stats| == expected ==> missing == [] && servers.Keys == Responders(stats)
    {
      missing := [];
      if expected != -1 && |stats| != expected {
        missing := Miss(stats);
      }
      if |stats| == expected || expected == -1 {
        Expect(stats);
      }
    }

    /** Account for the replies to one poll. With too few replies, or too many, the known
        servers that did not reply are reported and counted, and the responders become known
        as well; with the expected number, or if any number will do, the responders are from
        now on the known servers. What is known stays a function of the polls so far. */
    method Track(stats: seq<Stat>) returns (missing: seq<string>)
      requires Valid()
      modifies this
      ensures Valid() && polls == old(polls) + [stats]
      ensures noReplies == old(noReplies) + |missing|
      ensures expected != -1 && |stats| != expected ==>
                && Lists(missing, old(servers).Keys - Responders(stats))
                && servers.Keys == old(servers).Keys + Responders(stats)
      ensures expected == -1 || |stats| == expected ==> missing == [] && servers.Keys == Responders(stats)
      ensures forall i :: 0 <= i < |stats| ==>
                var key := stats[i].cluster + ":" + stats[i].id; key in servers && key !in missing
    {
      missing := Update(stats);
      HistoryStep(expected, polls, stats);
      polls := polls + [stats];
    }
  }

  /** What one more poll does to the functions of the history. */
  lemma HistoryStep(expected: int, polls: seq<seq<Stat>>, stats: seq<Stat>)
    ensures Known(expected, polls + [stats]) ==
            if expected == -1 || |stats| == expected then Responders(stats)
            else Known(expected, polls) + Responders(stats)
    ensures Misses(expected, polls + [stats]) ==
            Misses(expected, polls)
            + if expected == -1 || |stats| == expected then 0 else |Known(expected, polls) - Responders(stats)|
  {
    assert (polls + [stats])[..|polls|] == polls;
    if IsFull(expected, stats) {
      KnownAfterFull(expected, polls, stats);
    } else {
      KnownAfterPartial(expected, polls, stats);
    }
  }

  lemma RespondersSnoc(stats: seq<Stat>, s: Stat)
    ensures Responders(stats + [s]) == Responders(stats) + {KeyOf(s)}
  {
    var all := stats + [s];
    assert all[|stats|] == s;
    assert forall i :: 0 <= i < |stats| ==> all[i] == stats[i];
  }
}

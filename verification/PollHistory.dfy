/** From the snapshots of a polling run to the servers that the collector knows. */
module PollHistory {
  import opened MissingServers
  import opened PollMachine
  import opened PollRuns

  /** The servers that a snapshot has replies from. */
  function Servers(stats: seq<Reply>): (r: seq<Stat>)
    ensures |r| == |stats| && forall i :: 0 <= i < |stats| ==> r[i] == stats[i].server
  {
    seq(|stats|, i requires 0 <= i < |stats| => stats[i].server)
  }

  /** The polls that were not aborted, as the bookkeeping sees them. */
  function Polls(snapshots: seq<Snapshot>): (r: seq<seq<Stat>>)
    ensures |r| == |snapshots| && forall n :: 0 <= n < |snapshots| ==> r[n] == Servers(snapshots[n].stats)
  {
    seq(|snapshots|, n requires 0 <= n < |snapshots| => Servers(snapshots[n].stats))
  }

  lemma PollsSnoc(snapshots: seq<Snapshot>, s: Snapshot)
    ensures Polls(snapshots + [s]) == Polls(snapshots) + [Servers(s.stats)]
  {
  }

  /** Reply i of snapshot n came from the server. */
  ghost predicate AnswersIn(snapshots: seq<Snapshot>, n: nat, i: nat, server: string) {
    && n < |snapshots| && i < |snapshots[n].stats|
    && KeyOf(snapshots[n].stats[i].server) == server && snapshots[n].stats[i].key == snapshots[n].key
  }

  lemma RespondersAnswer(snapshots: seq<Snapshot>, n: nat, server: string)
    requires n < |snapshots|
    requires forall i :: 0 <= i < |snapshots[n].stats| ==> snapshots[n].stats[i].key == snapshots[n].key
    ensures server in Responders(Polls(snapshots)[n]) <==> exists i :: AnswersIn(snapshots, n, i, server)
  {
    var stats := Polls(snapshots)[n];
    if server in Responders(stats) {
      var i :| 0 <= i < |stats| && KeyOf(stats[i]) == server;
      assert AnswersIn(snapshots, n, i, server);
    }
    if i: nat :| AnswersIn(snapshots, n, i, server) {
      assert KeyOf(stats[i]) == server;
    }
  }

  /** In every run the known servers are exactly those that answered the last full poll or a
      partial one since: in time, and that very poll. */
  lemma KnownServersAnswered(inbox: string, expected: int, evs: seq<Event>, server: string)
    requires Legal(Init(inbox, expected), evs)
    ensures var snapshots := Run(Init(inbox, expected), evs).snapshots;
            server in Known(expected, Polls(snapshots)) <==>
            exists n, i :: Since(expected, Polls(snapshots)) <= n && AnswersIn(snapshots, n, i, server)
  {
    var snapshots := Run(Init(inbox, expected), evs).snapshots;
    forall n | 0 <= n < |snapshots|
      ensures server in Responders(Polls(snapshots)[n]) <==> exists i :: AnswersIn(snapshots, n, i, server)
    {
      SnapshotsAnswerTheirPoll(inbox, expected, evs, n);
      RespondersAnswer(snapshots, n, server);
    }
  }

  /** A poll cannot have more responders than servers were expected, and with the expected
      number of them it is full. */
  lemma RespondersBounded(inbox: string, expected: int, evs: seq<Event>, n: nat)
    requires Legal(Init(inbox, expected), evs) && expected > 0
    requires n < |Run(Init(inbox, expected), evs).snapshots|
    ensures var polls := Polls(Run(Init(inbox, expected), evs).snapshots);
            && |Responders(polls[n])| <= expected
            && (|Responders(polls[n])| == expected ==> |polls[n]| == expected)
  {
    SnapshotsAnswerTheirPoll(inbox, expected, evs, n);
    RespondersSize(Polls(Run(Init(inbox, expected), evs).snapshots)[n]);
  }

  lemma {:induction false} RespondersSize(stats: seq<Stat>)
    ensures |Responders(stats)| <= |stats|
  {
    if stats == [] {
      assert Responders(stats) == {};
    } else {
      var n := |stats| - 1;
      RespondersSize(stats[..n]);
      RespondersSnoc(stats[..n], stats[n]);
      assert stats == stats[..n] + [stats[n]];
    }
  }
}

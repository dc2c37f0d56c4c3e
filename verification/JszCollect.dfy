/** From the replies of a poll to the emitted metrics. */
module JszCollect {
  import opened Prelude
  import opened JszMerge
  import opened JszFold
  import opened JszRows
  import opened JszLeaders
  import opened JszConsumerLeaders
  import opened JszEntries
  import opened JszHeap
  import opened JszStats
  import opened JszPoll
  import opened JszEmission
  import opened JszReports
  import opened JszConsumerReports

  // ----- What is expected of the replies -----

  /** No server lists a stream or a consumer twice. */
  ghost predicate Tidy(es: seq<Entry>) {
    forall i :: 0 <= i < |es| ==> WellFormed(es[i].streams)
  }

  /** No two entries of one account come from servers of the same name: a reply has an
      account once, and each server replies once. */
  ghost predicate Apart(es: seq<Entry>) {
    forall i, j :: 0 <= i < j < |es| && es[i].id == es[j].id ==> es[i].server.name != es[j].server.name
  }

  lemma {:induction false} ListingsAreEntries(es: seq<Entry>, id: string, k: nat)
    requires k < |Listings(es, id)|
    ensures exists i :: 0 <= i < |es| && es[i].id == id
                        && Listings(es, id)[k] == Listing(es[i].server, es[i].name, es[i].streams)
  {
    var n := |es| - 1;
    var earlier := Listings(es[..n], id);
    if k < |earlier| {
      ListingsAreEntries(es[..n], id, k);
      var i :| 0 <= i < n && es[..n][i].id == id
               && earlier[k] == Listing(es[..n][i].server, es[..n][i].name, es[..n][i].streams);
      assert es[i] == es[..n][i];
    } else {
      assert es[n].id == id;
    }
  }

  lemma {:induction false} ListingsTidy(es: seq<Entry>, id: string)
    requires Tidy(es)
    ensures AllWellFormed(Streams(Listings(es, id)))
  {
    forall k | 0 <= k < |Listings(es, id)|
      ensures WellFormed(Listings(es, id)[k].streams)
    {
      ListingsAreEntries(es, id, k);
    }
  }

  /** Tidy replies of distinct servers are what the leaders-only guarantee builds on. */
  lemma {:induction false} ListingsOk(es: seq<Entry>, id: string)
    requires Tidy(es) && Apart(es)
    ensures AllWellFormed(Streams(Listings(es, id))) && DistinctServers(Listings(es, id))
  {
    ListingsTidy(es, id);
    if es != [] {
      var n := |es| - 1;
      var earlier := Listings(es[..n], id);
      ListingsOk(es[..n], id);
      if es[n].id == id {
        forall k | 0 <= k < |earlier|
          ensures earlier[k].server.name != es[n].server.name
        {
          ListingsAreEntries(es[..n], id, k);
        }
      }
    }
  }

  /** Where the i-th entry is among the listings of its account. */
  lemma EntryIsListing(es: seq<Entry>, i: nat)
    requires i < |es|
    ensures var k, ls := |Listings(es[..i], es[i].id)|, Listings(es, es[i].id);
            k < |ls| && ls[k] == Listing(es[i].server, es[i].name, es[i].streams)
  {
    ListingsStep(es, i, es[i].id);
    ListingsPrefix(es, i + 1, es[i].id);
  }

  // ----- One round of collecting -----

  ghost function AccountOf(sts: AccountStats): Account {
    Account(sts.accountId, sts.accountName)
  }

  /** Emit the metrics of every account. */
  method EmitAll(s: Settings, accs: map<string, AccountStats>) returns (ms: map<string, seq<Metric>>)
    ensures ms.Keys == accs.Keys
    ensures forall id :: id in ms ==> ms[id] == Emitted(s, AccountOf(accs[id]), accs[id].jszData)
  {
    ms := map[];
    var todo := accs.Keys;
    while todo != {}
      invariant todo <= accs.Keys && ms.Keys == accs.Keys - todo
      invariant forall id :: id in ms ==> ms[id] == Emitted(s, AccountOf(accs[id]), accs[id].jszData)
      decreases |todo|
    {
      var id :| id in todo;
      var sts := accs[id];
      var own := Emit(s, Account(sts.accountId, sts.accountName), sts.jszData);
      ms := ms[id := own];
      todo := todo - {id};
    }
  }

  /** What a round emits for each reported account is determined by the replies, under the
      account's own id; an account in no reply emits nothing. */
  method Collect(s: Settings, jss: seq<JsStat>, accs0: map<string, AccountStats>)
    returns (accs: map<string, AccountStats>, ms: map<string, seq<Metric>>)
    requires DistinctDetails(Items(jss))
    requires Injective(accs0) && Filed(accs0) && forall id :: id in accs0 ==> Blank(accs0[id])
    modifies Details(Items(jss))`streams, accs0.Values
    ensures var es := old(Snapshot(Items(jss)));
            && ms.Keys == accs0.Keys + Reported(es)
            && forall id :: id in ms ==>
                 ms[id] ==
                 if id in Reported(es)
                 then Emitted(s, Account(id, NameFor(accs0, es, id)), AccountRows(id, Listings(es, id))) else []
  {
    ghost var es := Snapshot(Items(jss));
    accs := PollAccountInfo(jss, accs0);
    ms := EmitAll(s, accs);
    forall id | id in ms
      ensures AccountOf(accs[id]) == Account(id, NameFor(accs0, es, id))
    {
    }
  }

  /** From tidy replies, leaders only emits each number of a stream as often as servers
      believe they lead it, and at most once if and only if no two do. */
  lemma {:induction false} StreamOnceIff(
    s: Settings, acc: Account, es: seq<Entry>, id: string, kind: Kind, name: string)
    requires s.leadersOnly && Admits(s, kind) && IsStreamKind(kind) && Tidy(es)
    ensures var ls := Listings(es, id);
            var series := Series(Emitted(s, acc, AccountRows(id, ls)), kind, OfStream(name));
            |series| == |Leaders(ls, name)| && (|series| <= 1 <==> OneLeads(ls, name))
  {
    ListingsTidy(es, id);
    StreamReportedOnceIff(s, acc, id, Listings(es, id), kind, name);
  }

  /** The same for a consumer. */
  lemma {:induction false} ConsumerOnceIff(
    s: Settings, acc: Account, es: seq<Entry>, id: string, kind: Kind, name: string, consumer: string)
    requires s.leadersOnly && Admits(s, kind) && !IsStreamKind(kind) && Tidy(es)
    ensures var ls := Listings(es, id);
            var series := Series(Emitted(s, acc, AccountRows(id, ls)), kind, OfConsumer(name, consumer));
            && |series| == |EntryLeaders(ls, name, consumer)|
            && (|series| <= 1 <==> OneLeadsConsumer(ls, name, consumer))
  {
    ListingsTidy(es, id);
    ConsumerReportedOnceIff(s, acc, id, Listings(es, id), kind, name, consumer);
  }

  /** From tidy replies of distinct servers that agree on the leader, leaders only emits
      each number of a stream once if the leader answers and never otherwise. */
  lemma {:induction false} StreamOnce(
    s: Settings, acc: Account, es: seq<Entry>, id: string, kind: Kind, name: string, leader: string)
    requires s.leadersOnly && Admits(s, kind) && IsStreamKind(kind) && Tidy(es) && Apart(es)
    requires AgreeOnStream(Listings(es, id), name, leader)
    ensures |Series(Emitted(s, acc, AccountRows(id, Listings(es, id))), kind, OfStream(name))| ==
            if LeaderAnswers(Listings(es, id), name, leader) then 1 else 0
  {
    ListingsOk(es, id);
    StreamReportedOnce(s, acc, id, Listings(es, id), kind, name, leader);
  }

  /** The same for a consumer. */
  lemma {:induction false} ConsumerOnce(
    s: Settings, acc: Account, es: seq<Entry>, id: string, kind: Kind,
    name: string, consumer: string, leader: string)
    requires s.leadersOnly && Admits(s, kind) && !IsStreamKind(kind) && Tidy(es) && Apart(es)
    requires AgreeOnConsumer(Listings(es, id), name, consumer, leader)
    ensures |Series(Emitted(s, acc, AccountRows(id, Listings(es, id))), kind, OfConsumer(name, consumer))| ==
            if ConsumerLeaderAnswers(Listings(es, id), name, consumer, leader) then 1 else 0
  {
    ListingsOk(es, id);
    ConsumerReportedOnce(s, acc, id, Listings(es, id), kind, name, consumer, leader);
  }

  /** And it is the leader's own reply, if that lists the stream, that gives the number and
      the labels; the consumer count is that of the union of all replies. */
  lemma {:induction false} StreamIsLeaders(
    s: Settings, acc: Account, es: seq<Entry>, kind: Kind, name: string, i: nat, own: StreamDetail)
    returns (m: Metric)
    requires s.leadersOnly && Admits(s, kind) && IsStreamKind(kind) && Tidy(es) && Apart(es) && i < |es|
    requires AgreeOnStream(Listings(es, es[i].id), name, es[i].server.name)
    requires FindStream(es[i].streams, name) == Some(own)
    ensures FindStream(Union(es, es[i].id), name).Some?
    ensures Series(Emitted(s, acc, AccountRows(es[i].id, Listings(es, es[i].id))), kind, OfStream(name)) == [m]
    ensures m.kind == kind
    ensures kind == StreamMsgs ==> m.value == own.state.msgs
    ensures kind == StreamBytes ==> m.value == own.state.bytes
    ensures kind == StreamFirstSeq ==> m.value == own.state.firstSeq
    ensures kind == StreamLastSeq ==> m.value == own.state.lastSeq
    ensures kind == StreamSubjects ==> m.value == own.state.subjects
    ensures kind == StreamConsumers ==> m.value == |FindStream(Union(es, es[i].id), name).value.consumers|
    ensures m.labels == [acc.id, acc.name, es[i].server.cluster, own.raftGroup,
                         es[i].server.id, es[i].server.name, name, es[i].server.name]
  {
    var id := es[i].id;
    ListingsOk(es, id);
    EntryIsListing(es, i);
    MergedIsUnion(es, |es|, id);
    assert es[..|es|] == es;
    m := StreamReportIsLeaders(s, acc, id, Listings(es, id), kind, name, |Listings(es[..i], id)|, own);
  }

  /** The same for a consumer: number and labels are those of its leader's reply. */
  lemma {:induction false} ConsumerIsLeaders(
    s: Settings, acc: Account, es: seq<Entry>, kind: Kind, name: string, consumer: string, i: nat,
    own: StreamDetail, c: ConsumerInfo)
    returns (m: Metric)
    requires s.leadersOnly && Admits(s, kind) && !IsStreamKind(kind) && Tidy(es) && Apart(es) && i < |es|
    requires AgreeOnConsumer(Listings(es, es[i].id), name, consumer, es[i].server.name)
    requires FindStream(es[i].streams, name) == Some(own) && FindConsumer(own.consumers, consumer) == Some(c)
    ensures var rows := AccountRows(es[i].id, Listings(es, es[i].id));
            Series(Emitted(s, acc, rows), kind, OfConsumer(name, consumer)) == [m] && m.kind == kind
    ensures kind == DeliveredConsumerSeq ==> m.value == c.deliveredConsumer
    ensures kind == DeliveredStreamSeq ==> m.value == c.deliveredStream
    ensures kind == NumAckPending ==> m.value == c.ackPending
    ensures kind == NumRedelivered ==> m.value == c.redelivered
    ensures kind == NumWaiting ==> m.value == c.waiting
    ensures kind == NumPending ==> m.value == c.pending
    ensures kind == AckFloorStreamSeq ==> m.value == c.ackFloorStream
    ensures kind == AckFloorConsumerSeq ==> m.value == c.ackFloorConsumer
    ensures var group := if c.cluster.Some? && c.cluster.value.raftGroup != "" then c.cluster.value.raftGroup
                         else FindGroup(own.consumerRaftGroups, consumer);
            var streamLeader := if own.cluster.Some? then own.cluster.value.leader else "";
            m.labels ==
            [acc.id, acc.name, es[i].server.cluster, group,
             es[i].server.id, es[i].server.name, name, streamLeader, consumer, es[i].server.name]
  {
    var id := es[i].id;
    ListingsOk(es, id);
    EntryIsListing(es, i);
    m := ConsumerReportIsLeaders(
      s, acc, id, Listings(es, id), kind, name, consumer, |Listings(es[..i], id)|, own, c);
  }
}

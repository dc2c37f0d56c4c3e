# A verified model of the NATS surveyor

The surveyor polls NATS servers for statistics and turns their replies into Prometheus
metrics; it also listens for service latency observations and JetStream advisories. This
project models the three parts of it that hold state, and two pieces of string logic, and
proves what they promise. `dafny verify dfyconfig.toml` checks everything.

**The connection pool** (`conn_pool.go`). `PoolMachine` is a step machine: a step is one
stretch of code under `cacheMu`, `openMu` or the singleflight group, or a change that the
network makes to a connection. A `Get` that has been given a connection and has not yet
counted it is a state of its own, so other steps can come in between. `PoolInvariant` proves
what every step keeps, `PoolRuns` what follows for every interleaving, and `PoolHeap` is the
pool as mutable objects, each critical section proved to take the step of the same name.
`PoolGet` is the retry loop of `Get` on these objects, with any steps of the other callers in
between; `PoolExhaustion` and `PoolTwice` are about the Gets that give up. `PoolOutcomes` says
how a flight ends for those who wait for it, and `PoolDrain` that no run gets stuck.

**The JetStream pipeline** (`collector_statz.go`). Replies are merged in place into the
account details that are walked again afterwards, so the k-th server's rows are built from
the union of the first k replies. `JszMerge`, `JszFold`, `JszTiers`, `JszRows` and
`JszEntries` say what merging, totals and rows mean, in terms of the replies as they arrived.
`JszHeap`, `JszStats`, `JszPoll` and `JszCollect` are the loops over the mutable details and
account statistics, proved against that. `JszLeaders`, `JszConsumerLeaders`, `JszEmission`,
`JszReports` and `JszConsumerReports` prove what reaches the metrics, above all when leaders
only means once. `WithStats` runs the same loops over a given batch of replies.

**The rest of the collector.** `PollMachine` models a poll and the handlers of its replies,
with the collector's lock, the unbuffered channel and the timers as steps; `PollRuns` holds
for every run of it, and `PollOutcomes` says what becomes of each reply. `PollHeap` is the collector as a mutable object, each section proved to
take the step of the same name, with the poll itself on top. `MissingServers` and `ZeroConns`
are the bookkeeping that outlives a poll, proved to be functions of the history;
`PollHistory` says which servers are known after a run of polls.

**The listener managers** (`observation.go`, `jetstream_advisories.go`). `ListenerMachine` is
the protocol that both managers follow, with its steps cut where the manager's lock is
released; `ListenerRuns` and `ListenerOwners` hold for every interleaving, `ListenerOrder`
for calls that keep out of each other's way, and `ListenersOnPool` runs a manager and the
pool side by side. `ListenerOutcomes` proves that every call can end. `ListenerHeap`, `ListenerManager` and `RemoveEvent` are the listeners, the
managers and the file watcher's remove event as mutable objects, one call at a time; the two
kinds of listener differ in the number of their subscriptions, and the two managers in the
kind of their listeners. `ListenerSerial` proves that what these objects do in any sequence
of calls is what a run of the machine does.

**Strings.** `Tokens` is the validation of token positions and the lookup that relies on it;
`SubjectLimit` cuts the variable parts off the subjects of JetStream API calls.

## What the proofs show about the code

- Leaders only reports a stream as often as there are servers that believe, from the replies
  up to their own, that they lead it; so at most once exactly if no two servers do
  (`JszCollect.StreamOnceIff`, and `JszCollect.ConsumerOnceIff` for consumers). Replies that
  agree on the leader ensure this (`JszCollect.StreamOnce`). Two replies taken around a change
  of leader need not: then each number is emitted twice (`JszReports.TornReportsTwice`, and
  `JszConsumerReports.TornConsumerReportsTwice`, where only the consumer's leader changes).
- A `Get` that gives up found its connection closed in each of ten attempts. Two attempts in
  succession can find the same one closed, as the second may join a flight that looked it up
  before (`PoolTwice.TwiceTheSame`); but in the course of the ten the pool closes at
  least five connections of the key (`PoolExhaustion.ExhaustedGet`).
- A listener whose subscription fails returns its connection but stays marked as running,
  with the connection it no longer owns. A failed `Start` leaves a listener so exactly if the
  pool offered a connection (`ListenerHeap.Listener.Start`). No manager ever maps, stops or
  uses such a listener again (`ListenerRuns.SubscribeFailsAbandons`,
  `ListenerRuns.AbandonedForever`).
- Two overlapping `Set` calls for one id can leave a listener running that nothing will stop
  (`ListenerOrder.OverlapStrands`). Exactly those do of which one publishes over a listener
  that it did not find when it began (`ListenerOwners.PublishStrandsIff`): in a run every
  handle has an owner at all times if and only if no `Set` publishes so
  (`ListenerOwners.OwnedIffPrompt`). No two `Set` calls for one id under way at once is a
  condition that callers can keep to, and it is enough (`ListenerOrder.OrderlyIsPrompt`).
- `ServiceObsConfig.Validate` indexes before the first token exactly if an external account
  configuration leaves out the service name position (`Tokens.ServicePanicsIff`). The field's
  comment (observation.go:180-182) calls the position optional; the model follows the code.
- If an advisory configuration uses one subject for metrics and advisories, the metrics
  position serves both (`Tokens.AdvisoryAccountResolves`). All advisories resolve at the
  advisory position exactly if the subjects differ or the positions agree
  (`Tokens.AdvisoryPositionHoldsIff`); validation accepts configurations where neither holds
  (`Tokens.OneSubjectMisleads`).

## Model

| member | source | states |
|---|---|---|
| PoolRuns.NothingLeaks | surveyor/conn_pool.go:220-237 | in every interleaving a connection not marked closed has a handle or a Get about to count it |
| PoolRuns.IdleCacheIsHeld | surveyor/conn_pool.go:243-331 | with no Get in progress, every cached connection has a handle |
| PoolRuns.AllReturnedAllClosed | surveyor/conn_pool.go:136-149 | once all handles are returned and no Get runs, the cache is empty and each connection is closed by the pool exactly once |
| PoolRuns.CountIsHandles | surveyor/conn_pool.go:136-149 | in every interleaving the count is the number of outstanding handles; a closed connection has no handle and no place in the cache |
| PoolRuns.HeldUntilReturned | surveyor/conn_pool.go:226-236 | whatever else happens, a connection handed out is not closed by a return before its own handle is returned |
| PoolRuns.HandlesChange | surveyor/conn_pool.go:226-236 | only the counting section of Get adds a handle, a new one; only ReturnToPool removes one |
| PoolRuns.ReplacedNeverEvicts | surveyor/conn_pool.go:139-142 | the return of a replaced connection leaves the cache as it is |
| PoolRuns.UncachedIsRemembered | surveyor/conn_pool.go:247-262 | an open connection that is not cached was replaced, and is in openConns unless its NATS connection is closed |
| PoolRuns.CloseReachesReplaced | surveyor/conn_pool.go:175-186 | when Close(true) ends, every replaced connection's NATS connection is closed |
| PoolRuns.OneConnectionPerKey | surveyor/conn_pool.go:243-251 | if no connection drops, there is one open connection per key at most, and the cache is exactly the open ones |
| PoolRuns.RetriesCounted | surveyor/conn_pool.go:220-239 | a Get makes ten attempts at most, and each failed one found its connection closed meanwhile |
| PoolInvariant.NextInv | surveyor/conn_pool.go:136-343 | every step of the pool or the network keeps the invariant that ties counts, handles, running Gets, flights, cache and openConns together |
| PoolInvariant.NextEvolves | surveyor/conn_pool.go:136-343 | no step forgets a connection, changes its key, or reopens a closed one |
| PoolHeap.NatsConnPool.Remember | surveyor/conn_pool.go:252-262 | a dropped connection goes to the front of openConns and the closed ones leave, in order |
| PoolHeap.NatsConnPool.Lookup | surveyor/conn_pool.go:245-263 | the closure takes the lookup step: a connected entry is handed out, a dropped one remembered, otherwise it dials |
| PoolHeap.NatsConnPool.Publish | surveyor/conn_pool.go:315-331 | the new connection takes the key's place in the cache, and nothing else changes |
| PoolHeap.NatsConnPool.Acquire | surveyor/conn_pool.go:226-236 | a connection found closed costs an attempt; otherwise it is counted and a handle given out |
| PoolHeap.NatsConnPool.ReturnToPool | surveyor/conn_pool.go:136-148 | the return step, with the wrap-around of an unsigned 64-bit count, eviction only of itself, and the duty to close on the last return |
| PoolHeap.NatsConnPool.CloseNet | surveyor/conn_pool.go:145-145 | the NATS connection is closed after the lock was released |
| PoolHeap.NatsConnPool.CloseForce | surveyor/conn_pool.go:175-186 | Close(true) closes the NATS connections of openConns and no other |
| PoolGet.Take | surveyor/conn_pool.go:136-343 | on the mutable pool every step of the machine does what the machine says |
| PoolGet.Get | surveyor/conn_pool.go:220-239 | under any steps of other callers, Get is a run of the machine that ends with an open counted connection of its key, a failed dial of its key, or exactly ten attempts that each found a connection closed; during those the pool closed at least five connections of the key |
| PoolExhaustion.ExhaustedGet | surveyor/conn_pool.go:220-239 | in any run in which a Get fails ten times, at least five connections of its key are closed between its start and its end |
| PoolExhaustion.ClosedByReturn | surveyor/conn_pool.go:136-144 | a connection is closed in the course of a run exactly if its last return is among the steps |
| PoolTwice.TwiceTheSame | surveyor/conn_pool.go:220-237 | two attempts in succession can fail on one connection |
| PoolGet.UndisturbedGet | surveyor/conn_pool.go:243-331 | a caller that finds no flight of its key and is not disturbed has an open connection after one attempt, from the cache if that is connected and by dialing if not |
| PoolGet.RefusedGet | surveyor/conn_pool.go:220-224 | a Get of a key that is not connected, whose dial fails, ends with the error after that one attempt, and no handle is added |
| PoolOutcomes.DialFailureEndsGets | surveyor/conn_pool.go:315-336 | a dial that fails ends the flight and with it the Get of every caller that waits for it, and nothing else changes |
| PoolOutcomes.DialServesWaiters | surveyor/conn_pool.go:315-342 | a dial that succeeds caches the new connection and gives it to every caller that waits for the flight |
| PoolOutcomes.CacheServesWaiters | surveyor/conn_pool.go:244-251 | a connected entry of the cache is given to every caller that waits for the flight |
| PoolOutcomes.LookupRemembers | surveyor/conn_pool.go:252-262 | a dropped entry comes first in openConns, where afterwards no connection is closed and no other one is missing |
| PoolOutcomes.UnshutInOrder | surveyor/conn_pool.go:255-259 | those that stay in openConns keep their order |
| PoolOutcomes.NetSteps | surveyor/conn_pool.go:136-186 | a NATS connection is closed by the last return, by Close(true) or from outside, and changes in no other step of the pool |
| PoolOutcomes.ReturnsNeverWrap | surveyor/conn_pool.go:136-144 | in a state that can arise a return counts down by one, never below zero, and closes exactly the connections whose count was one |
| PoolDrain.EveryRunDrains | surveyor/conn_pool.go:136-343 | every run can be continued until no Get and no flight is under way, all handles are returned, the cache is empty and the pool has closed each connection exactly once |
| JszMerge.MergeConsumersFind | surveyor/collector_statz.go:1513-1524 | a merged consumer is the later reply's, or else the earlier one's |
| JszMerge.MergeStreamsFind | surveyor/collector_statz.go:1498-1511 | a merged stream is the later reply's with the earlier one's consumers added, or the one that exists |
| JszMerge.MergeStreamsWellFormed | surveyor/collector_statz.go:1498-1524 | merging repeats no stream and no consumer |
| JszMerge.MergeStreamsPlaces | surveyor/collector_statz.go:1498-1524 | the later reply's streams and consumers keep their places, and what only the earlier one has comes after them |
| JszFold.FoldStreamNames | surveyor/collector_statz.go:1314-1325 | the streams after merging all replies are the union of the replies' streams |
| JszFold.FoldConsumerNames | surveyor/collector_statz.go:1314-1325 | the consumers of a merged stream are the union of the replies' consumers |
| JszFold.FoldStream | surveyor/collector_statz.go:1498-1511 | a merged stream has the fields of the last reply that lists it |
| JszFold.FoldConsumer | surveyor/collector_statz.go:1513-1524 | a merged consumer is the one of the last reply that lists it |
| JszFold.FoldWellFormed | surveyor/collector_statz.go:1314-1325 | the merged account repeats no stream and no consumer |
| JszFold.StreamCountOrderFree | surveyor/collector_statz.go:2394-2401 | the stream count is the same for every order of the replies |
| JszFold.ConsumerCountOrderFree | surveyor/collector_statz.go:2395-2401 | and so is each stream's consumer count |
| JszRows.RowsCarryUnionCount | surveyor/collector_statz.go:2436-2461 | every row of a stream, on whatever server, carries the size of the union of its consumers |
| JszRows.FindGroupIs | surveyor/collector_statz.go:2473-2478 | the raft group looked up is that of the first list entry of the name, and empty if there is none |
| JszTiers.TierMapIsSum | surveyor/collector_statz.go:2403-2427 | a tier is present exactly if some stream is in it, and holds the sum over its streams |
| JszTiers.TierIsBytesAndLimits | surveyor/collector_statz.go:2403-2427 | a tier has used the bytes of its streams and reserved the sum of their limits above zero; streams without such a limit reserve nothing |
| JszTiers.SameTiers | surveyor/collector_statz.go:2408-2427 | the used and the reserved map have the same tiers |
| JszTiers.TiersConserve | surveyor/collector_statz.go:2389-2427 | the tiers of a storage class add up to the amounts of all its streams |
| JszEntries.UnionChain | surveyor/collector_statz.go:1314-1325 | a detail ends up as its own streams merged with what the account's previous detail ended up as |
| JszHeap.MergeStreamConsumers | surveyor/collector_statz.go:1513-1524 | the nested loops compute the merge of one stream |
| JszHeap.MergeStreamDetails | surveyor/collector_statz.go:1498-1511 | the loops that overwrite and append in place compute the merge of two details |
| JszHeap.MergeReplies | surveyor/collector_statz.go:1314-1325 | afterwards the k-th detail of an account holds the union of its first k, and the map points to its last one |
| JszStats.AddToTier | surveyor/collector_statz.go:2403-2427 | one stream more in the used and the reserved map of its storage class, under its replica count; the other maps are left alone |
| JszStats.MapAccountDetail | surveyor/collector_statz.go:2375-2429 | the four amounts, the stream list and the tiers of a merged detail; a missing account is created under its id and with the detail's name |
| JszStats.MapStreamDetail | surveyor/collector_statz.go:2432-2499 | one row per stream that the detail now holds, with the counts of the merged account |
| JszStats.RaftGroupOf | surveyor/collector_statz.go:2466-2480 | the consumer's own raft group, or else the first of that name in the stream's list |
| JszStats.AddTotals | surveyor/collector_statz.go:1193-1198 | every reported account has its totals, with the amounts of its merged detail, every other one none; accounts that were there are kept, new ones carry their id and the reported name |
| JszPoll.AddRows | surveyor/collector_statz.go:1199-1208 | the second walk gives each account the rows of each reply in turn |
| JszPoll.PollAccountInfo | surveyor/collector_statz.go:1178-1208 | after a poll each reported account has the memory and storage amounts of its latest reply, the totals of the union of its replies and the rows of every prefix of them, and every other account has no rows; the accounts are those of before and those reported, each under its own id |
| JszCollect.Collect | surveyor/collector_statz.go:1178-1215 | what a round emits for an account is determined by the replies as they arrived, labelled with that account's id and name; an account in no reply emits nothing |
| JszCollect.ListingsOk | surveyor/collector_statz.go:1199-1208 | replies of distinct servers that repeat nothing meet the conditions of the leaders-only guarantee |
| JszLeaders.LeaderRowsOnceIff | surveyor/collector_statz.go:1973-1978 | a stream has at most one leader row exactly if no two servers believe, from the replies up to their own, that they lead it |
| JszLeaders.LeaderRowsExactlyOnce | surveyor/collector_statz.go:1973-1978 | with agreement on the leader a stream has one leader row if the leader replied no earlier than the first reply listing it, and none otherwise |
| JszLeaders.LeaderRowIsLeaders | surveyor/collector_statz.go:2440-2463 | if the leader's reply lists the stream, there is one leader row; each of its fields is that of the leader's reply, but the consumer count is the union's |
| JszLeaders.DisagreementReportsTwice | surveyor/collector_statz.go:1973-1978 | two replies that each name their own server as the leader lead to two rows |
| JszConsumerLeaders.LeaderEntriesOnceIff | surveyor/collector_statz.go:2040-2043 | a consumer has at most one leader entry exactly if no two servers believe they lead it |
| JszConsumerLeaders.LeaderEntryExactlyOnce | surveyor/collector_statz.go:2040-2043 | with agreement on the consumer's leader it has one entry if that leader replied no earlier than the first reply listing it, and none otherwise |
| JszConsumerLeaders.LeaderEntryIsLeaders | surveyor/collector_statz.go:2465-2495 | if the leader's reply lists the consumer, there is one leader entry and each of its fields is that of the leader's reply |
| JszEmission.Emit | surveyor/collector_statz.go:1969-2122 | the nested loops and the filter tests emit exactly the candidates that the settings select, in order |
| JszEmission.FilterIsRestriction | surveyor/collector_statz.go:771-779 | a filter leaves exactly the metrics of its kinds, in their order |
| JszEmission.AllIsStreamsAndConsumers | surveyor/collector_statz.go:1977-2042 | mode all emits, as a multiset, what modes streams and consumers emit together |
| JszEmission.LeadersOnlyIsSubsequence | surveyor/collector_statz.go:1976-2041 | leaders only emits a subsequence of what is emitted without it |
| JszReports.EmittedCount | surveyor/collector_statz.go:1973-2121 | the number of metrics is eligible rows times admitted stream kinds plus eligible entries times admitted consumer kinds |
| JszReports.EveryRowEmits | surveyor/collector_statz.go:1973-2121 | without leaders only and filters every row gives six metrics and every consumer in it eight, as far as the mode includes them |
| JszReports.ModesAreKinds | surveyor/collector_statz.go:1969-2122 | which kinds of metrics each mode can emit, and that a filter lets only its own kinds through |
| JszReports.StreamSeries | surveyor/collector_statz.go:1973-2038 | with leaders only, the metrics about a stream are those of its leader rows |
| JszReports.StreamReportedOnceIff | surveyor/collector_statz.go:1973-2038 | each number of a stream is emitted as often as servers believe they lead it, and at most once exactly if no two do |
| JszReports.StreamReportedOnce | surveyor/collector_statz.go:1973-2038 | each number of a stream is emitted once if its leader answers and never otherwise |
| JszReports.TornReportsTwice | surveyor/collector_statz.go:1973-2038 | replies taken around a change of leader get each number of the stream emitted twice |
| JszReports.StreamReportIsLeaders | surveyor/collector_statz.go:1973-2038 | if the leader's reply lists the stream, the series of each of the six kinds is one metric; value and the eight labels, field by field, are that reply's, the consumer count the union's |
| JszConsumerReports.ConsumerReportedOnceIff | surveyor/collector_statz.go:2040-2120 | each number of a consumer is emitted as often as servers believe they lead it, and at most once exactly if no two do |
| JszConsumerReports.ConsumerReportedOnce | surveyor/collector_statz.go:2040-2120 | each number of a consumer is emitted once if its leader answers and never otherwise |
| JszConsumerReports.TornConsumerReportsTwice | surveyor/collector_statz.go:2040-2120 | replies taken around a change of a consumer's leader get each number of the consumer emitted twice, even if they agree on the stream's leader |
| JszConsumerReports.ConsumerReportIsLeaders | surveyor/collector_statz.go:2040-2120 | if the leader's reply lists the consumer, the series of each of the eight kinds is one metric; value and the ten labels, field by field, are that reply's and its server's |
| JszCollect.StreamOnceIff | surveyor/collector_statz.go:1178-1215 | the exact count for streams, from replies that repeat nothing to the metrics |
| JszCollect.ConsumerOnceIff | surveyor/collector_statz.go:1178-1215 | the exact count for consumers, from the replies to the metrics |
| JszCollect.StreamOnce | surveyor/collector_statz.go:1178-1215 | exactly once for streams whose leader answers, under agreement, from the replies to the metrics |
| JszCollect.ConsumerOnce | surveyor/collector_statz.go:1178-1215 | exactly once for consumers whose leader answers, under agreement, from the replies to the metrics |
| JszCollect.StreamIsLeaders | surveyor/collector_statz.go:1178-1215 | from the replies to the metrics: the one report of a stream has, field by field, the value and the labels of the leader's reply, and the union's consumer count |
| JszCollect.ConsumerIsLeaders | surveyor/collector_statz.go:1178-1215 | from the replies to the metrics: the one report of a consumer has, field by field, the value and the labels of its leader's reply |
| PollRuns.SuffixIsEquality | surveyor/collector_statz.go:1009-1013 | among keys of one length, the suffix test accepts exactly the replies to the current poll |
| PollRuns.NextInv | surveyor/collector_statz.go:1009-1106 | every step of a poll or a handler keeps the invariant |
| PollRuns.SnapshotsAnswerTheirPoll | surveyor/collector_statz.go:1078-1106 | in every run a snapshot has only replies to its own poll, none twice, each with its round-trip time, and no more than a positive expected number |
| PollRuns.NoReplyServesTwoPolls | surveyor/collector_statz.go:1033-1042 | in every run no reply is in two snapshots |
| PollRuns.EveryReplyAccounted | surveyor/collector_statz.go:1001-1027 | every reply is on its way or was delivered, timed out, late, extra or unreadable, and only one of these |
| PollOutcomes.EnterOutcome | surveyor/collector_statz.go:1009-1027 | a reply is sent on exactly if it answers the poll under way; one to an earlier poll is late, one to a poll that has ended is extra |
| PollOutcomes.AnswerTaken | surveyor/collector_statz.go:1013-1020 | a reply to a poll that waits can be taken: it joins the statistics, its time is recorded, and the poll ends if it was the last one expected |
| PollOutcomes.FullPoll | surveyor/collector_statz.go:1075-1106 | a poll that as many servers answer as are expected ends by itself with just their replies in its snapshot |
| PollOutcomes.PartialPoll | surveyor/collector_statz.go:1083-1097 | a poll that fewer answer, or one that takes any number, ends at a timer with the replies that there were |
| PollOutcomes.DeliveredIsInSnapshot | surveyor/collector_statz.go:1077-1106 | whatever happens in between, a reply that a poll has taken is in its snapshot |
| PollOutcomes.TallyStep | surveyor/collector_statz.go:1001-1027 | each tally counts just the steps that it is for |
| PollOutcomes.TimesAnswerTheirPoll | surveyor/collector_statz.go:1020-1039 | in every run the round-trip times of a snapshot are those of servers that replied to its own poll |
| PollOutcomes.EveryRunEnds | surveyor/collector_statz.go:1001-1106 | every run can be continued until no poll is under way and every reply that arrived was dealt with |
| PollHeap.StatzCollector.Enter | surveyor/collector_statz.go:1007-1027 | under the lock a reply is sent on, counted as late, or taken as extra; only in the first case the handler keeps the lock |
| PollHeap.StatzCollector.Receive | surveyor/collector_statz.go:1077-1082 | a reply joins the statistics, and the poll ends if it was the last one expected |
| PollHeap.StatzCollector.Conclude | surveyor/collector_statz.go:1099-1151 | the results of the poll are copied, and the missing servers are the known ones that did not reply to it |
| PollHeap.Wait | surveyor/collector_statz.go:1075-1097 | the loop is a run of the machine that ends with the expected number of replies or with a timer that counts |
| PollHeap.Poll | surveyor/collector_statz.go:1031-1151 | under any steps of the handlers, a poll is a run of the machine from idle to idle; with its ping sent it adds one snapshot of its own replies and reports the known servers that are not among them |
| PollHeap.KnowsItsPolls | surveyor/collector_statz.go:1108-1151 | after any run the known servers and the count of missing replies are functions of the snapshots |
| PollHistory.KnownServersAnswered | surveyor/collector_statz.go:1108-1151 | in every run a server is known exactly if a reply of its own to the last full poll, or to a partial one since, was taken in by that poll |
| PollHistory.RespondersBounded | surveyor/collector_statz.go:1077-1082 | in every run no poll has more responders than servers expected, and with that many it is full |
| MissingServers.ServerTracker.Track | surveyor/collector_statz.go:1108-1151 | with another number of replies than expected, exactly the known servers that did not reply are reported and counted, and the responders become known as well; with the expected number, or if any will do, nothing is missing and the responders are now the known servers |
| MissingServers.HistoryStep | surveyor/collector_statz.go:1108-1151 | what a full and a partial poll do to the two functions of the history |
| MissingServers.UnlimitedNeverMisses | surveyor/collector_statz.go:1109-1144 | with any number of servers nothing is ever counted |
| MissingServers.KeysTellServersApart | surveyor/collector_statz.go:1124-1124 | cluster and id can be read off a key if ids have no colon |
| ZeroConns.AccStatzCollector.Observe | surveyor/collector_statz.go:1396-1407 | the counter is the length of the pair's streak without connections, cut off at three; a report is made unless the streak is longer |
| ZeroConns.AccStatzCollector.Group | surveyor/collector_statz.go:1391-1414 | the group of an account has exactly its reported observations of this poll, in order of arrival |
| ZeroConns.ReportedNow | surveyor/collector_statz.go:1397-1407 | an observation is reported if it has connections or the streak before it is shorter than three, and only then |
| ZeroConns.StreakCounts | surveyor/collector_statz.go:1397-1407 | a streak is the number of the pair's observations since the last one with connections |
| ZeroConns.ObservationsInOrder | surveyor/collector_statz.go:1391-1393 | the replies are taken one after the other |
| ZeroConns.KeysTellPairsApart | surveyor/collector_statz.go:1396-1396 | server and account can be read off a key if server ids have no colon |
| ListenerRuns.NextInv | surveyor/observation.go:444-569 | every step of any call to a manager keeps the invariant |
| ListenerRuns.MappedListenersRun | surveyor/observation.go:507-547 | in every interleaving, whenever the manager's lock is free, each mapped listener runs, has subscribed and holds exactly one unreturned handle |
| ListenerRuns.HandlesReturnedOnce | surveyor/jetstream_advisories.go:734-774 | in every interleaving no handle is returned twice |
| ListenerRuns.StaysMapped | surveyor/jetstream_advisories.go:734-774 | only a Delete of the id or a Stop ends the mapping of an id; replacing it does not |
| ListenerRuns.SubscribeFailsAbandons | surveyor/observation.go:330-336 | a failed subscription leaves the listener marked as running with a returned connection, unmapped and unused |
| ListenerRuns.AbandonedForever | surveyor/observation.go:444-569 | and no later step of any call changes that |
| ListenerOutcomes.ReadOutcome | surveyor/observation.go:507-518 | a Set ends at once exactly if the manager is stopped or the id is set to just this configuration; otherwise it goes on with the listener found |
| ListenerOutcomes.StopOutcome | surveyor/observation.go:406-428 | a running listener stops running exactly when a call stops it, and then gives its connection back and forgets it |
| ListenerOutcomes.EveryCallEnds | surveyor/observation.go:444-569 | however calls overlap, every run can be continued until none is under way and the lock is free |
| ListenerOwners.NextNoStrays | surveyor/observation.go:507-547 | every step but a Publish over an unknown listener keeps each handle with a mapped listener or with a call that will deal with it |
| ListenerOwners.PublishStrandsIff | surveyor/observation.go:535-547 | a Publish keeps every handle owned if and only if its Set found the listener that it replaces |
| ListenerOwners.OwnedIffPrompt | surveyor/observation.go:444-569 | in a run every handle is owned at all times if and only if every Publish is of that kind |
| ListenerOwners.HandlesAreMapped | surveyor/observation.go:444-569 | after such a run, whenever no call is under way, the unreturned handles are those of the mapped listeners, one each; a stopped manager has none |
| ListenerOrder.OrderlyIsPrompt | surveyor/observation.go:507-547 | if no two Sets of one id are ever under way at once, every Publish finds the listener that it replaces |
| ListenerOrder.OverlapStrands | surveyor/observation.go:507-547 | two overlapping Sets of one id can leave a handle with a listener that is not mapped |
| ListenersOnPool.ReturnsAreLegal | surveyor/conn_pool.go:124-126 | a manager returns only handles that the pool has on loan to it |
| ListenersOnPool.MappedConnectionIsOpen | surveyor/observation.go:507-547 | in every interleaving of manager and pool, the pool has not closed the connection of a mapped listener while the lock is free |
| ListenersOnPool.CountsAreLoans | surveyor/conn_pool.go:136-149 | a connection's count is the manager's handles on it plus the other users' |
| ListenersOnPool.CountsAreListeners | surveyor/conn_pool.go:136-149 | after a run whose Publishes find what they replace, whenever no call is under way, a connection's count is the number of mapped listeners on it plus the other users' handles |
| ListenerHeap.Listener.Start | surveyor/observation.go:311-343 | starts with one connection, one gauge count and the subscriptions of its kind, all of which were made, or has nothing on loan and none; a lost connection is given back first; a failed start leaves it marked as running exactly if a connection was offered |
| ListenerHeap.Listener.Open | surveyor/jetstream_advisories.go:469-500 | succeeds exactly if a connection is offered and one subscription succeeds, for advisories two; otherwise what was lent is given back |
| ListenerHeap.Listener.Stop | surveyor/jetstream_advisories.go:628-651 | gives back what it has on loan, once |
| ListenerManager.Manager.ConfigMap | surveyor/observation.go:478-493 | the configurations of the mapped listeners |
| ListenerManager.Manager.Set | surveyor/observation.go:498-548 | succeeds exactly if the configuration is valid, the manager started, and the id already so set or the new listener started; success sets the id with the connection offered, failure changes nothing |
| ListenerManager.Manager.Delete | surveyor/observation.go:551-569 | removes exactly the id and stops its listener; fails exactly if there is none |
| ListenerManager.Manager.Stop | surveyor/observation.go:462-475 | all loans are given back and the gauge is zero |
| ListenerManager.Replay | surveyor/observation.go:444-569 | over every serial run configurations and connections are those of the abstract view, the gauge its size, and each connection on loan once per listener holding it |
| ListenerSerial.CallRuns | surveyor/observation.go:444-569 | from a machine with no call under way, each call of Start, Stop, Set or Delete is a run of the machine with the same effect on ids, configurations and connections |
| ListenerSerial.CallsRun | surveyor/observation.go:444-569 | and so is every sequence of calls |
| ListenerSerial.ReplayOnMachine | surveyor/observation.go:444-569 | what a manager object listens with after any calls is what the machine listens with after some run |
| RemoveEvent.HandleRemoveEvent | surveyor/observation.go:732-756 | exactly the listeners are left whose ids are neither the path nor below it; a stopped manager is left alone |
| RemoveEvent.SiblingsSurvive | surveyor/jetstream_advisories.go:959-983 | an id that begins with the path is below it only if a separator follows |
| RemoveEvent.UnderIff | surveyor/jetstream_advisories.go:959-971 | below a path is what begins with the path and a separator, which the path may end with already |
| RemoveEvent.TrailingSeparator | surveyor/jetstream_advisories.go:962-971 | a trailing separator changes nothing below, but spares a file of the bare name |
| Tokens.JoinSplit | surveyor/observation.go:398-404 | splitting at the dots loses nothing |
| Tokens.SplitJoin | surveyor/observation.go:398-404 | and undoes joining |
| Tokens.TokenOfJoined | surveyor/observation.go:398-404 | positions count the tokens from one; any other position is an error |
| Tokens.MatchesIff | surveyor/observation.go:333-333 | which messages a subscription receives: token by token, with a final `>` for one token or more |
| Tokens.StarResolves | surveyor/observation.go:398-404 | if a position holds a wildcard, the lookup in any matching subject yields the token that the wildcard stands for |
| Tokens.ServiceAcceptedIff | surveyor/observation.go:186-228 | a configuration is accepted exactly if it is named and both positions point to wildcards |
| Tokens.ServicePanicsIff | surveyor/observation.go:212-220 | validation indexes before the first token exactly if the service name position is left out |
| Tokens.ProblemsFoundIff | surveyor/observation.go:186-228 | each problem is reported exactly if it is there |
| Tokens.ServiceNamesResolve | surveyor/observation.go:345-369 | under an accepted configuration every observation received resolves to the tokens of its wildcards, or without an external account to the service name |
| Tokens.ServiceNamesAre | surveyor/observation.go:345-369 | by position: without one the account has no name, and the service goes by the account's; a position without a token is an error |
| Tokens.AdvisoryAcceptedIff | surveyor/jetstream_advisories.go:331-377 | a configuration is accepted exactly if it is named and both positions point to wildcards |
| Tokens.AdvisoryProblemsFoundIff | surveyor/jetstream_advisories.go:331-377 | each problem is reported exactly if it is there |
| Tokens.AdvisoryAccountResolves | surveyor/jetstream_advisories.go:540-560 | under an accepted configuration every message of either subscription resolves to the token of its wildcard, or without an external account to the account name; a message of another subscription does not resolve |
| Tokens.AdvisoryPositionHoldsIff | surveyor/jetstream_advisories.go:544-555 | under an accepted configuration all advisories resolve at the advisory position exactly if the subjects differ or the positions agree |
| Tokens.OneSubjectMisleads | surveyor/jetstream_advisories.go:544-555 | an accepted configuration under which an advisory is counted for the wrong token |
| SubjectLimit.LimitIsIdempotent | surveyor/jetstream_advisories.go:509-538 | cutting a second time changes nothing, for every string |
| SubjectLimit.LimitIsPart | surveyor/jetstream_advisories.go:509-538 | the result is a contiguous part of the subject |
| SubjectLimit.LimitIs | surveyor/jetstream_advisories.go:509-538 | the leftmost call on a message is left, or else that on a stream, a consumer or a template, or else one of the two prefixes, or else the whole subject |
| SubjectLimit.MessageCalls | surveyor/jetstream_advisories.go:42-42 | of a call on a message only the call is left |
| SubjectLimit.StreamCalls | surveyor/jetstream_advisories.go:41-41 | of a call on a stream only the call is left, unless it contains a call on a message |
| SubjectLimit.ConsumerCalls | surveyor/jetstream_advisories.go:43-43 | of a call on a consumer only the call is left, unless it contains one of those |
| SubjectLimit.TemplateCalls | surveyor/jetstream_advisories.go:44-44 | of a call on a template only the call is left, unless it contains one of those |
| SubjectLimit.DurableCalls | surveyor/jetstream_advisories.go:525-526 | of the creation of a durable consumer only the call is left, if what follows has no dollar sign |
| SubjectLimit.NextCalls | surveyor/jetstream_advisories.go:528-529 | of a request for the next message only the call is left, if what follows has no dollar sign |

## Left out

- `Close(false)` of the pool: it returns handles it does not own and takes the two locks in the other order.
- Closing one handle twice is a precondition of the pool that it never happens; that the managers keep to it is proved.
- PoolHeap.NatsConnPool.Publish: takes a successful `nats.Connect` and the insertion that follows as one step; the state of the new connection is left open.
- PoolGet.Get: the steps of the other callers between its own are a parameter, which must let the flight of each attempt end; nothing else is asked of them.
- PollHeap.Poll: the steps of the handlers between its own are a parameter, which must let the loop end and the lock become free.
- The pool's count wraps around only downwards; it would take 2^64 handles to wrap upwards.
- Whether a connection is up, down or closed is read once per critical section.
- `NatsContext` hashing, defaults, credentials and connect options: a key is just a string.
- Decoding replies, the filtering of replies with errors, and stopping at the expected number of JetStream replies: the pipeline starts from the replies kept.
- Replies without a stream configuration, and `float64` rounding: all amounts are integers.
- The spare capacity of Go slices: appending to a list that another struct copy shares is not visible to that copy, in the code or in the model.
- Which server's numbers a row has when leaders only is off: later servers' rows include earlier servers' streams, so only the union of the replies so far is claimed.
- Copying of server, route, gateway, raft and account totals into metrics, and the metric descriptions: one assignment each.
- Timers are steps that may come at any time; no durations are claimed. Poll keys are assumed to be distinct and of one length, as nanosecond timestamps are.
- The sorting of replies before missing servers are logged: it changes the order of log lines only.
- ListenerHeap.Listener.Start: requires that a running listener still has its connection on loan; a listener whose subscription failed must not be started or stopped again.
- ListenerManager.Manager.Set: does not model a configuration with a connection provider of its own, and takes the verdict of the validation as a parameter.
- The gauge under overlapping calls: `Stop` sets it to zero and a `Set` under way may count it down afterwards.
- Validation of a nil configuration, which is refused, and the texts of the error messages.
- Handling of the payloads of observations and advisories, and the file watcher's other events.

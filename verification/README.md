# grpc-bench: matching engine and event pipeline

grpc-bench subscribes to the same Solana streams on two gRPC endpoints and reports which endpoint
delivers each event first. Receivers put decoded events into bounded rings; one dispatcher per
endpoint drains its rings and feeds matchers that both dispatchers share; a matcher pairs the two
endpoints' reports of one key and collects the arrival deltas. This project models that path, from
the plan of subscriptions to the final counts, and proves what it reports.

Time is integer nanoseconds. A t-digest is the multiset of the samples merged into it. One dispatch
is one atomic step, because each matcher is touched under one lock. An object whose methods update
its fields is a class proved against a function on values; the theorems are about those functions.

## What is proved

- **The matcher** (`PairMatching.dfy`, `MatcherLaws.dfy`, `MatcherWindow.dfy`, `RendezvousSpec.dfy`,
  `Confluence.dfy`, `RepeatedKeys.dfy`). The eviction cadence is a parameter `every`: 256 is the code, 1 the eager
  matcher it replaced, 0 never evicts. On every trace the eager answers are the lazy ones at
  in-window positions and nothing elsewhere; on in-window traces the cadence is invisible. An
  in-window arrival is matched exactly when the previous arrival of its key came from the other
  endpoint and was not itself matched. With each key reported once per endpoint, every in-window
  interleaving reports the join of the two streams. With keys reported any number of times, an
  in-window arrival is matched exactly when it stands at an even place among the alternating
  reports of its key; that gives the whole report, and when no report of a key is left over.
- **Shards, streams, dispatch** (`AccountMatching.dfy`, `AccountSummary.dfy`, `Routing.dfy`,
  `EndToEnd.dfy`). Per-owner shards give the answers and totals of one unsharded matcher. Each
  stream is a plain matcher on its own subsequence of the merged events. What a stream
  without late and repeated reports says does not depend on how the dispatchers interleaved.
- **The transaction/account pairer** (`CrossStream.dfy`, `TrackerLaws.dfy`) is the eager matcher with a 64-slot window.
- **The pipeline** (`Rings.dfy`, `Pipeline.dfy`, `Drain.dfy`, `SlotCounter.dfy`, `Receiver.dfy`,
  `Stability.dfy`): conservation and order from the rings to the dispatch log; every pass ends, so
  an accepted event's wait is bounded in dispatcher polls whatever the receivers do; what a
  shutdown leaves behind, what the slot counter counts, when a receiver gives up, and the
  stability metrics.
- **The whole run** (`WholeRun.dfy`): two pipelines side by side feed the shared matchers. If no
  ring dropped anything or was left with events, every stream without late and repeated reports
  has the join of what the two endpoints' receivers offered, whatever the other streams are like.
- **Plan, layout, versions** (`Plan.dfy`, `PlanCoverage.dfy`, `PlanRoles.dfy`,
  `PlanRequests.dfy`, `Affinity.dfy`, `SemVersion.dfy`).

## Where the code does less than its comments say

- Drain at shutdown (src/run.rs:878-879 promises that residual events are drained). An event that
  arrives in a ring the current pass has already visited is left behind when the rest of that pass
  finds nothing and shutdown has been signalled: `Drain.StrandedEventLeft` is such a run, and
  `Drain.QuietDrain` says exactly when nothing is left.
- Per-program report (src/matching/accounts.rs:271-286): shards that share a bucket name overwrite
  each other. `AccountSummary.UnknownOwnersCollide` is a run that loses one; `AccountSummary.PerProgramMeetsSummary`
  says exactly when the report adds up.
- Slot counter (src/run.rs:846-849 says once per unique slot): it counts strict running maxima.
  `SlotCounter.LateSlotMissed` misses a slot; `SlotCounter.TotalSlotsExact` says when none is missed.
- Slot gaps add up to the elapsed time only when timestamps never go back: `Stability.GapsTelescope`.
- Transactions and accounts at two commitments, which is the default (src/config.rs:159-166). Their
  keys hold no commitment (src/matching/accounts.rs:68), so each endpoint reports each key once per
  commitment and the report depends on how the dispatchers interleave:
  `EndToEnd.TwoCommitmentsTell` is such a pair of runs, in which one sample even compares one
  endpoint's confirmed with the other's processed delivery. `RepeatedKeys.AllReportsMatched` says
  exactly when every report of a key is matched, and `EndToEnd.TransactionsReportPairs` and
  `EndToEnd.AccountsReportPairs` what is reported in every case. Blocks hold the commitment, and
  slots are subscribed once; but configured entries endpoints also deliver slot updates, so slot
  stages repeat then, and `EndToEnd.StageReportsPairs` applies.
- A burst of N writes under one key (src/matching/accounts.rs:20-28 says it contributes one match):
  it does exactly when the two endpoints' bursts do not interleave,
  `RepeatedKeys.BurstMatchedOnce`.
- A transaction pairs with at most one account update (src/crossstream.rs:5-7 says "update(s)"):
  `CrossStream.SecondUpdateWaits` is a run that leaves one out, and
  `CrossStream.RecordedExactlyWhen` says exactly which updates are recorded.
- Processed-to-confirmed drift (RUNBOOK.md:553 says it is populated on runs with two commitments):
  no configuration yields a sample, because all slot streams of a plan carry one label,
  `PlanRequests.PlansYieldNoDrift`; and then the arrivals it waits with are never removed. There
  is a sample exactly when a slot arrives both ways: `Stability.DriftsExactlyWhen`.

## Model

| member | source | states |
|---|---|---|
| `Types.DeltaNs` | src/matching/mod.rs:174-175 | the difference of two nanosecond readings, exact below 2^63 and saturated above, inside the signed 64-bit range |
| `Digests.PushAddsSample` | src/matching/mod.rs:202-216 | a push adds exactly its sample to merged plus buffered ones, merges at 1024 and not before |
| `PairMatching.PairMatcher.Observe` | src/matching/mod.rs:140-200 | the new state and the answer are those of one step at cadence 256 |
| `PairMatching.PairMatcher.MeetOrWait` | src/matching/mod.rs:155-199 | takes the waiting partner off the other side or waits on the own side |
| `PairMatching.PairMatcher.EvictStale` | src/matching/mod.rs:225-237 | keeps the entries at or above the cutoff on both sides and counts the others per endpoint |
| `PairMatching.PairMatcher.Summarize` | src/matching/mod.rs:332-347 | a final eviction, then every sample ever pushed is in the merged digest |
| `MatcherLaws.SampleAccounting` | src/matching/mod.rs:184-216 | over every run merged plus buffered samples are the deltas of the matches made, the buffer stays below 1024, the counters are the number and signs of those deltas |
| `MatcherLaws.Conservation` | src/matching/mod.rs:155-199 | over every run an endpoint's observations are matched, pending, evicted or overwritten, and no key waits on both sides |
| `MatcherLaws.CadenceSurvivesWrap` | src/matching/mod.rs:150-153 | the 256-observe cadence is unaffected by the wrap of the 64-bit observe counter |
| `MatcherLaws.BoundedStaleness` | src/matching/mod.rs:147-153 | after every observe at most 256 pending entries are below the cutoff of the last eviction pass |
| `MatcherLaws.OnePartner` | src/matching/mod.rs:168-199 | over every run a key is matched, or waits, no more often than each endpoint reported it |
| `MatcherLaws.EndpointSwap` | src/matching/mod.rs:155-237 | exchanging the endpoints of a whole trace negates every delta and sample and exchanges pending maps, faster counts and evicted counts |
| `MatcherWindow.HighWaterTracked` | src/matching/mod.rs:147-149 | the matcher's high water is the maximum slot of the trace |
| `MatcherWindow.StaleByPosition` | src/matching/mod.rs:147-153 | read off the trace: of the pending entries at most 256 are behind the window as of the last multiple of 256 arrivals |
| `MatcherWindow.StepAgree` | src/matching/mod.rs:140-200 | two matchers of different cadence that agree above the cutoff still do after any step, and answer an in-window arrival alike |
| `MatcherWindow.EagerPointwise` | src/matching/mod.rs:45-54 | on every trace and position the eager matcher answers what any cadence answers if the arrival is in-window, and nothing otherwise |
| `MatcherWindow.EagerSubsequence` | src/matching/mod.rs:45-54 | on every trace the eager matches are a subsequence of those of any other cadence |
| `MatcherWindow.CadenceInvisible` | src/matching/mod.rs:329-347 | on in-window traces any two cadences make the same matches in order and, after the final eviction, have the same pending maps and all five counters |
| `MatcherWindow.EagerLosesLateMatch` | src/matching/mod.rs:147-153 | a concrete out-of-window trace on which the two cadences differ |
| `RendezvousSpec.MatchedExactlyWhen` | src/matching/mod.rs:168-199 | under any cadence an in-window arrival is matched exactly when the previous arrival of its key is from the other endpoint and unmatched, and with that arrival |
| `Confluence.InterleavingJoins` | src/matching/mod.rs:140-200 | with keys reported once per endpoint, every in-window interleaving reports the join: matched, samples by multiplicity, signs |
| `Confluence.JoinOnReadings` | src/matching/mod.rs:168-196 | on clock readings: matched is the number of common keys, each sample is reading two minus reading one, each faster count the keys that endpoint read earlier |
| `Confluence.InterleavingConfluence` | src/matching/mod.rs:329-376 | two in-window interleavings of the same two endpoint streams, under any two cadences, give equal samples and, after the final eviction, equal pending maps and all five counters |
| `RepeatedKeys.MatchedIffEven` | src/matching/mod.rs:155-199 | under any cadence an in-window arrival is matched exactly when its place in the alternating reports of its key is even, and with the report before it |
| `RepeatedKeys.LogIsPairs` | src/matching/mod.rs:155-199 | on in-window traces with any repetitions, the matches in order are the pairs read off the trace |
| `RepeatedKeys.RepeatedReport` | src/matching/mod.rs:184-216 | on such traces matched is the number of even places, and samples and faster counts are those of the pairs |
| `RepeatedKeys.AllReportsMatched` | src/matching/mod.rs:155-199 | a key's matches are half of each of its alternating runs, rounded down; every report of the key is matched exactly when its reports, two by two, come from different endpoints |
| `RepeatedKeys.BurstMatchedOnce` | src/matching/accounts.rs:20-28 | a key reported equally often by both endpoints is matched once exactly when one endpoint's reports all come before the other's |
| `RepeatedKeys.KeyOrderDecides` | src/matching/mod.rs:155-199 | in-window traces that keep each key's reports in order make the same matches, under any two cadences |
| `Tallies.StepGains` | src/matching/mod.rs:184-196 | a step adds exactly its answer to what the matcher reports |
| `AccountMatching.LenientIgnoresVersions` | src/matching/accounts.rs:5-14 | outside strict mode changing every write version changes nothing in any run |
| `AccountMatching.StrictKeyIdentity` | src/matching/accounts.rs:179-189 | in strict mode two updates share a key exactly when slot, pubkey, signature and write version agree |
| `AccountMatching.LenientKeyIdentity` | src/matching/accounts.rs:62-68 | outside strict mode two updates share a key exactly when slot, pubkey and signature agree |
| `AccountMatching.ShardedStepAgrees` | src/matching/accounts.rs:202-225 | shards that agree with the unsharded matcher above its cutoff still do after any update |
| `AccountMatching.ShardingPointwise` | src/matching/accounts.rs:202-225 | on every trace, at every globally in-window position, the shard answers what the unsharded matcher answers |
| `AccountMatching.ShardingPreservesTotals` | src/matching/accounts.rs:228-269 | on in-window traces the shards' matched, faster counts and samples add up to those of the unsharded matcher |
| `AccountSummary.ProgramDigestsMirror` | src/matching/accounts.rs:87-106 | in every run each shard's program digest has its matcher's samples, buffer and counts |
| `AccountSummary.AccountMatcher.Observe` | src/matching/accounts.rs:202-225 | exactly the owner's shard takes one step, created on first use, and a match is pushed to its program digest |
| `AccountSummary.AccountMatcher.Summary` | src/matching/accounts.rs:228-269 | in any visiting order the total is the sum of the shards' reports, and every shard ends as its own final eviction and flush leave it |
| `AccountSummary.SettleSettles` | src/matching/accounts.rs:232-237 | the final eviction keeps exactly the in-window entries, counts the others per endpoint, and changes nothing that is reported |
| `AccountSummary.AccountMatcher.PerProgramSummary` | src/matching/accounts.rs:272-286 | visits each shard once and reports its row of counts and samples; a later shard replaces an earlier one of the same bucket; program digests are only flushed |
| `AccountSummary.RowsByName` | src/matching/accounts.rs:276-283 | the report has exactly the visited shards' names, the short name or "unknown", each with the row of the last shard of that name |
| `AccountSummary.ReportAddsUp` | src/matching/accounts.rs:272-286 | in a given visiting order the rows never count more matches than the total, and add up, in matches or in every column, exactly when no replaced shard had matches |
| `AccountSummary.PerProgramMeetsSummary` | src/matching/accounts.rs:227-286 | after any run the per-program rows add up to the overall totals in every order, in matches or in every column, exactly when shards sharing a bucket matched nothing |
| `AccountSummary.UnknownOwnersCollide` | src/matching/accounts.rs:276-283 | four account updates of two owners without a name: two matches, of which either order reports one |
| `CrossStream.PairerIsEagerMatcher` | src/crossstream.rs:145-186 | on every trace the pairer's digest is that of the eager window-64 matcher, its maps are that matcher's in-window entries, disjoint, and no slot is more than 64 behind |
| `CrossStream.OneUpdatePerTransaction` | src/crossstream.rs:145-165 | for each key no more pairs are recorded than transactions, nor than account updates, arrived |
| `CrossStream.RecordedExactlyWhen` | src/crossstream.rs:145-186 | on every trace an account update or transaction is recorded, with its delta, exactly when it is in-window and at an even place among its key's alternating arrivals; otherwise the digest is unchanged |
| `CrossStream.SecondUpdateWaits` | src/crossstream.rs:156-165 | a transaction's second account update is not paired |
| `CrossStream.TxAccountPairer.ObserveTx` | src/crossstream.rs:145-154 | one pairer step for a transaction |
| `CrossStream.TxAccountPairer.ObserveAccount` | src/crossstream.rs:156-165 | one pairer step for an account update |
| `CrossStream.TxAccountPairer.Record` | src/crossstream.rs:167-173 | the sample is account arrival minus transaction arrival |
| `CrossStream.TxAccountPairer.EvictStale` | src/crossstream.rs:181-185 | keeps the keys whose slot is within 64 of the high water |
| `CrossStream.CrossStreamTracker.Observe` | src/crossstream.rs:212-229 | the tracker is always the pairer's run over the events shown to it |
| `TrackerLaws.TrackerIgnores` | src/crossstream.rs:212-229 | the other endpoint's events, unsigned account updates and other payloads change nothing |
| `TrackerLaws.TrackerRecordsExactly` | src/crossstream.rs:145-229 | on event payloads: a transaction or signed account update adds a sample exactly when it is at most 64 slots behind and completes a pair, namely account reading minus transaction reading |
| `Routing.RoutingProjection` | src/matching/mod.rs:381-430 | every matcher is left as if only the events routed to it had been dispatched |
| `Routing.RoutingConfluence` | src/matching/mod.rs:381-430 | merged traces with the same subsequence per route leave the same state |
| `Routing.DispatchCommutes` | src/matching/mod.rs:381-430 | dispatches along different routes commute in every state; dead slots, entries and blocks without commitment change nothing |
| `Routing.StageRunsAlone` | src/matching/slots.rs:46-69 | each slot stage is the plain matcher on that stage's slots |
| `Routing.StagesRunAlone` | src/matching/slots.rs:59-69 | which of the six matchers reports which stage |
| `Routing.TransactionsRunAlone` | src/matching/mod.rs:406-412 | the transaction stream is the plain matcher on slot and signature |
| `Routing.BlocksRunAlone` | src/matching/mod.rs:413-421 | the block stream is the plain matcher on commitment, slot and blockhash |
| `Routing.AccountsRunAlone` | src/matching/mod.rs:394-405 | the account shards are the run over the account updates alone |
| `Routing.ShardRunsAlone` | src/matching/accounts.rs:218-224 | each owner's shard is the plain matcher on that owner's updates and exists exactly when there was one |
| `Routing.StreamKeysHoldSlots` | src/matching/accounts.rs:68 | in every stream the slot is a function of the key |
| `Routing.SharedMatchers.DispatchEvent` | src/matching/mod.rs:381-430 | the shared matchers are always the run over all events dispatched so far |
| `Routing.SharedMatchers.ObserveStage` | src/matching/slots.rs:46-57 | only the stage's own matcher steps; a dead slot is dropped |
| `EndToEnd.StageReportsJoin` | src/matching/slots.rs:72-81 | a healthy slot stage reports the join of the endpoints' slots, whatever else was dispatched |
| `EndToEnd.TransactionsReportJoin` | src/matching/transactions.rs:1-6 | a transaction stream without late or repeated reports has the join on slot and signature |
| `EndToEnd.StageReportsPairs` | src/matching/slots.rs:46-69 | an in-window slot stage, repeated or not, reports the alternating pairs of its slots |
| `EndToEnd.TransactionsReportPairs` | src/matching/mod.rs:406-412 | an in-window transaction stream at any number of commitments reports the alternating pairs of its keys |
| `EndToEnd.BlocksReportPairs` | src/matching/mod.rs:413-421 | the same for blocks |
| `EndToEnd.AccountsReportPairs` | src/matching/accounts.rs:202-269 | the sharded account totals, at any number of commitments, are the alternating pairs of owner and key |
| `EndToEnd.TwoCommitmentsTell` | src/config.rs:159-166 | two in-window runs of the same deliveries of one transaction at two commitments: one match across commitments, or two within them |
| `EndToEnd.BlocksReportJoin` | src/matching/blocks.rs:14-22 | a healthy block stream reports the join on commitment, slot and blockhash |
| `EndToEnd.AccountsReportJoin` | src/matching/accounts.rs:31-45 | the sharded account totals of a run without late or repeated account reports are the join of both endpoints' updates on owner and key |
| `EndToEnd.DispatcherTimingIrrelevant` | src/run.rs:483-492 | two runs in which each dispatcher delivers the same events in its own order report the same counts and samples on each slot stage, the transactions, the blocks and the accounts, each if that stream has no late or repeated reports |
| `WholeRun.MergedOrder` | src/run.rs:483-492 | the order in which events reach the shared matchers is an interleaving of the two pipelines' dispatch logs |
| `WholeRun.CompleteLog` | src/run.rs:899-942 | a pipeline whose rings are empty and dropped nothing has dispatched exactly the offered events |
| `WholeRun.RunReportsJoin` | src/run.rs:483-492 | in every run where receivers offer their own events and rings end empty with nothing dropped, each slot stage, the transactions, the blocks and the accounts report the join of what the two endpoints' receivers offered, each if that stream has no late or repeated reports |
| `Rings.EventRing.TrySend` | src/collect/ring.rs:38-50 | succeeds exactly on a connected ring below capacity and appends; a full ring is counted, a disconnected one is not; it is the send of the pipeline model |
| `Rings.EventRing.TryRecv` | src/collect/ring.rs:83-85 | takes the oldest event, or nothing from an empty ring |
| `Pipeline.PipelineConservation` | src/run.rs:899-942 | in every reachable state rings are within their configured capacity and drop only once that many events were accepted, offers are received, pending or dropped while connected, the events dispatched from a ring are a prefix of those it accepted and nothing else was dispatched, each kind counter is the number of its own events, received counts are the kind counters plus slot events |
| `Pipeline.OfferOutcome` | src/collect/ring.rs:38-50 | an offer to a connected ring is queued below capacity, dropped and counted at capacity, and touches no other ring |
| `Pipeline.StopsExactlyWhen` | src/run.rs:924-938 | in every run the dispatcher has stopped exactly when, after a shutdown signal, a pass found nothing or the time budget was used up |
| `Pipeline.KindsPartition` | src/run.rs:843-862 | each kind counter is the number of dispatched events of its kind, and with the slot events they are all |
| `Pipeline.EndpointTotals` | src/run.rs:1295-1331 | per-endpoint totals are the saturated sums over the paired roles and statistics |
| `Pipeline.StatisticCounts` | src/run.rs:1295-1331 | each paired statistic counts towards its own endpoint's sum, whatever the stream, and towards no other |
| `Drain.PassEnds` | src/run.rs:149-158 | whatever receivers offer, a running dispatcher ends its pass within (rings left) * 1025 - (taken in this visit) + 1 polls |
| `Drain.DrainWithinPasses` | src/run.rs:900-922 | the event at position p at the start of a pass has been dispatched, in ring order, after p/1024 + 1 passes |
| `Drain.DrainFairness` | src/run.rs:900-922 | whatever receivers do and wherever the dispatcher stands, the event at position p is dispatched, in ring order, within a number of polls: the rest of the pass and p/1024 passes more, one more if the ring has been visited |
| `Drain.QuietDrain` | src/run.rs:924-942 | with quiet receivers a signalled dispatcher stops; nothing is left behind exactly when it was not stranded, and exactly then the dispatch log has every accepted event of every ring, once and in ring order |
| `Drain.PassStartNeverStranded` | src/run.rs:900-902 | at the start of a pass nothing can be stranded |
| `Drain.StrandedEventLeft` | src/run.rs:924-938 | a reachable run that ends with an accepted event still queued |
| `Drain.Dispatcher.DrainAfterShutdown` | src/run.rs:900-942 | the loop runs the pipeline model to its stop, with empty rings or an expired budget; the log has each ring's events in order, up to those still queued |
| `Drain.Dispatcher.PassAndCheck` | src/run.rs:924-938 | one pass and its stop test are polls of the pipeline model; a pass that goes on leaves fewer events |
| `Drain.Dispatcher.DrainPass` | src/run.rs:901-922 | one pass is a number of polls, and takes the first 1024 events or all of each ring |
| `Drain.Dispatcher.DrainRing` | src/run.rs:903-921 | one visit is one poll per event and one more, and takes the first min(1024, length) events of one ring |
| `SlotCounter.CountsRecords` | src/run.rs:845-857 | the total is the number of strict running maxima above 0 among endpoint one's Processed slots |
| `SlotCounter.TotalSlotsExact` | src/run.rs:845-857 | the total never exceeds the distinct slots and equals them exactly when every first appearance is a new maximum above 0 |
| `SlotCounter.LateSlotMissed` | src/run.rs:846-856 | a slot after a higher one is not counted |
| `SlotCounter.InterleavedSlotsCountedOnce` | src/run.rs:845-857 | interleaved prefixes of one nondecreasing positive slot sequence are counted once per distinct slot |
| `Receiver.GiveUpExactly` | src/run.rs:1145-1266 | in every run the counter is the trailing run of identical errors since the last decoded event, below five while running; giving up means exactly five, across all three sites; what is sent is what was decoded; disconnects and decode errors are counted one by one |
| `Receiver.PhaseAfter` | src/run.rs:1149-1269 | in every run the last outcome decides where the loop stands: it reconnects after an error short of the fifth identical one and after a clean end, and shuts down only when told to |
| `Receiver.HistoriesExactly` | src/run.rs:1149-1269 | a sequence of outcomes is a run exactly when each outcome is possible after the ones before it |
| `Receiver.RetryLoop.Handle` | src/run.rs:1149-1269 | the loop's variables are always the replay of its history of outcomes |
| `Receiver.RetryLoop.Note` | src/run.rs:1156-1173 | a repeated error text counts up, a different one starts again at 1, five gives up |
| `Stability.GapLaws` | src/stability.rs:240-257 | over every run the samples are the gaps between consecutive slot updates, the maximum is theirs, the stalls are those above 600 ms in order |
| `Stability.GapsElementwise` | src/stability.rs:243-249 | there is one gap per consecutive pair: the difference of the two readings, or 0 if the clock went back |
| `Stability.StallsExactly` | src/stability.rs:251-257 | the stalls are exactly the gaps above 600 ms, in order, with the late arrival's wall time |
| `Stability.GapsTelescope` | src/stability.rs:243-257 | the gaps add up to at least last minus first, and to exactly that when and only when timestamps never go back |
| `Stability.DriftLaws` | src/stability.rs:259-292 | over every run the two arrival maps are disjoint, hold first arrivals since the slot's last pairing, and the drift samples pair exactly those |
| `Stability.DriftsExactlyWhen` | src/stability.rs:266-283 | there is a drift sample exactly when some slot arrives both as processed and as confirmed |
| `Stability.MarksExactly` | src/stability.rs:259-283 | the arrivals that count are the endpoint's processed stages at processed commitment and confirmed stages at confirmed commitment |
| `Stability.DriftNeedsBothStages` | src/stability.rs:266-292 | on events: there is a drift sample exactly when one slot was seen both ways |
| `PlanRequests.PlansYieldNoDrift` | src/subscribe/mod.rs:264-289 | with slot updates from a plan's own subscriptions no drift is ever recorded, and each arrival map holds every slot that ever arrived its way |
| `Stability.ReconnectLaws` | src/stability.rs:223-231 | a reconnect is timed by the first own event after it and by no other; the maximum is that of the samples |
| `Stability.StabilityTracker.Observe` | src/stability.rs:219-284 | the tracker is always the run over its inputs |
| `Stability.StabilityTracker.RecordReconnect` | src/stability.rs:311-313 | the reconnect becomes the pending one |
| `Plan.FromRunConfig` | src/subscribe/mod.rs:220-399 | the nested loops build exactly the plan |
| `PlanRoles.RolesOpened` | src/subscribe/mod.rs:264-399 | counting roles: one slot subscription per endpoint, accounts once per filter, a transaction and a block subscription per commitment exactly if switched on, entries exactly where configured |
| `PlanRoles.SoloRoles` | src/subscribe/mod.rs:228-249 | solo mode opens the listed streams without repetition, on endpoint one, at the first commitment |
| `PlanRoles.SoloOrder` | src/subscribe/mod.rs:230-236 | solo streams keep the order in which they are first listed |
| `PlanRoles.FiltersInOrder` | src/subscribe/mod.rs:309-349 | the filters list the heavy programs and then the others, each in the order of the program list |
| `Plan.SoloPlan` | src/subscribe/mod.rs:228-249 | solo mode opens each listed stream once, in order of first appearance |
| `Plan.AddAccounts` | src/subscribe/mod.rs:323-349 | one filter per heavy program, then the chunks of the rest |
| `PlanCoverage.FiltersPartition` | src/subscribe/mod.rs:309-349 | the filters hold each program as often as the program list, heavy programs alone, 1 to chunk-size owners each |
| `PlanCoverage.PlanFilters` | src/subscribe/mod.rs:270-371 | the plan's account filters for an endpoint and commitment are those filters, once per listing of the commitment |
| `PlanCoverage.PlanCovers` | src/subscribe/mod.rs:264-371 | for each configured endpoint and commitment every program is in exactly one account filter that requests that commitment |
| `PlanCoverage.StreamCount` | RUNBOOK.md:118-119 | an endpoint has 1 + C * (H + ceil(R / chunk) + tx + blocks) main subscriptions |
| `PlanCoverage.EndpointsMirror` | src/subscribe/mod.rs:270-371 | with two endpoints their main subscriptions differ in the endpoint only, position by position, and each half is opened on its own endpoint's address |
| `PlanCoverage.PlanAddresses` | src/subscribe/mod.rs:220-399 | every subscription of every plan is opened on the address configured for its role |
| `PlanRequests.RequestsMatchRoles` | src/subscribe/mod.rs:228-399 | in every plan each request has exactly the filters of its role's stream, at the role's commitment, with none for the slot request of a comparison; entries requests carry a slot filter too |
| `PlanCoverage.SoloStreamsOnce` | src/subscribe/mod.rs:230-236 | deduplication keeps the same streams, each once |
| `Affinity.AutoPartitions` | src/collect/mod.rs:521-550 | from six cores up the endpoints partition cores 2 to n-2 one by one in order, shares differing by at most one, control core on top; below six nothing is pinned |
| `Affinity.AssignCores` | src/run.rs:389-396 | each receiver gets the core of its position within its endpoint |
| `Affinity.AssignedByPosition` | src/collect/mod.rs:411-424 | a receiver cycles through its own endpoint's cores by the number of that endpoint's receivers before it; without cores it is not pinned |
| `Affinity.LoadExact` | src/collect/mod.rs:414-424 | the k-th of L distinct cores serves n/L receivers, and one more when k < n mod L |
| `Affinity.LoadsBalanced` | src/collect/mod.rs:411-424 | loads over an endpoint's distinct cores differ by at most 1, lower positions not less loaded |
| `SemVersion.ParseDecimal` | src/proto.rs:143-156 | number parsing inverts decimal printing for all 32-bit values |
| `SemVersion.ParseInvertsDisplay` | src/proto.rs:84-162 | parsing inverts display for every triple, with or without `v`, with any suffix that starts with `-` or `+`, inside any whitespace |
| `SemVersion.TooFewParts` | src/proto.rs:118-130 | the shape error comes exactly when there are fewer than two dots |
| `SemVersion.ThreeParts` | src/proto.rs:118-162 | any other input is major, minor and patch: accepted exactly when all three are 32-bit numbers, otherwise the first that is none is named |
| `SemVersion.CoreExactly` | src/proto.rs:119 | what is split is the input without outer whitespace and without at most one `v` |
| `SemVersion.Examples` | src/proto.rs:557-586 | digits, a padded version with suffixes, and the two rejections |
| `SemVersion.CompareByWeight` | src/proto.rs:76-81 | the order is total, majors before minors before patches, and only equal triples are equal |

## Left out

- The `Lru` eviction policy: no stream uses it.
- Quantile estimates and floating-point rounding: a digest is the multiset of its samples, in nanoseconds instead of milliseconds.
- Wrap-around of event counters other than the observe counter: they are unbounded here.
- Real time: the shutdown time budget is a nondeterministic early stop, sleeps and poll timeouts have no duration.
- gRPC connections, protobuf decoding, base58, kernel timestamps, scheduling and host probing: the receiver sees only the outcome of each attempt.
- Nested objects are held by value: shards and slot stages keep matcher values and the dispatcher keeps ring values, so sharing between objects is not modelled.
- Locks and atomics: one dispatch is one step; memory ordering and lock poisoning are not modelled.
- Configuration parsing and validation, core-list parsing, JSON assembly and the raw record file.
- `record_disconnect`, log lines, ring capacity per stream kind and the stop condition: single assignments, formatting or one comparison each.
- Subscribe requests: filter names and the fields that every request leaves empty are not modelled.

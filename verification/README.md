# ProxyHarbor: a verified model of its scheduling, caching and lease protocols

ProxyHarbor hands out leases on a shared pool of proxies. Its correctness rests on a handful of small state
machines that many instances run against one Redis and one database. This project models them in Dafny and proves
what they keep over whole runs and, where calls race, over every interleaving of their steps.

Objects that the program updates in place are classes here, and every method is specified by a function of the old
state; the theorems are about those functions and about runs built from them. Protocols are state machines whose
steps are the points where another call can get in between. Theorems named `...Meaning` say in the fields of leases,
proxies, nodes and keys what an operation decides, without the functions that specify it.

| part | files | main results |
|---|---|---|
| smooth weighted round-robin | `LocalSelector`, `LocalFairness` | exact shares in every window, bounded counters, no starvation, independence of candidate order |
| shared fair queue (Redis script) | `ZFair`, `ZFairQueue`, `ZFairLag`, `ZFairMeaning` | queue invariant, least-runtime picks, exactly when nothing is picked, bounded lag, proportional shares |
| node syncs and when they are skipped | `SyncSkip`, `SyncRuns`, `SelectRuns`, `SyncMeaning` | exactly which ids keep the signature faithful, exactly when a skip is right, sequential calls always get an eligible candidate, picks follow the candidates' records |
| health events | `ProxyHealth`, `Coalescing`, `Recorder` | the coalescer preserves meaning exactly for positive rewards, conservation of events, every effect accounted for under faults |
| validate-truth cache | `TruthRecord`, `ValidateTruth`, `ValidateService`, `ValidateRefinement`, `ValidateAnswer`, `ValidateMeaning`, `Staleness` | cached validation refines reading the store and answers its row; bounded staleness with lost invalidations |
| lease compare-and-swap | `LeaseStore` | serial renewals, none after a revoke, in every interleaving |
| leader lock | `LeaderLock` | mutual exclusion over time-leased upserts |
| key cache refresh | `AuthRefresh` | convergence and rejection of revoked keys |
| single flights | `SingleFlight`, `HostFlight` | read-your-writes per epoch, one flight per host, no cached positive verdict |
| SDK lease reuse | `SdkLeases` | one writer per key, one create |

`Domain`, `Text` and `Arith` hold the shared entities, printed forms and arithmetic. Instants and durations are
nanoseconds (milliseconds in the shared queue) on one clock; integers are unbounded; virtual runtimes are reals.

## Where the program falls short

- Coalescing does not preserve health for a reward that is zero or negative: the store turns it into a reward of one
  per write, and coalescing makes fewer writes. `Coalescing.PreservesHealthIff` gives the exact condition and
  `Coalescing.RecorderPreservesHealthIff` says which recorders meet it.
- A skipped node sync can be wrong after a sync that failed although Redis had executed part of it, because a failure
  leaves the remembered signature in place. `SyncRuns.SkipRightIff` gives the exact condition by what the process has
  seen, `SyncRuns.FailedSyncBreaksSkip` a family of runs that break it.
- The candidate signature is not injective for every id. It fails exactly for ids that read as the printed entry of
  one id followed by a later one (`SyncSkip.SignatureFaithfulIff`); a lone `|` or a lone `;` in an id is harmless.
- Equal fingerprints do not imply equal resources. They imply equal kinds and resource ids exactly when neither kind
  goes on after the other and a colon (`TruthRecord.KindAndIdToldIff`), and they never tell scope or labels
  (`TruthRecord.ScopeNeverTold`), so whole resources only of two different kinds whose leases can never agree
  (`TruthRecord.ResourcesToldIff`). Validation does not depend on it, because every create draws a fresh password.
- A health write can be applied twice: when its first attempt takes effect but reports a retryable error
  (`Recorder.AppliedTwiceIff`).
- The memory store and the SQL stores accept the same updates but refuse some with different errors;
  `LeaseStore.StoresRefuseAlikeIff` says exactly which.
- The script can return nothing while an allowed eligible proxy exists: one parked in the delayed set by older fields,
  while other members keep the ready set from being refilled. `ZFairQueue.WorkConserving` is the exact condition and
  `ZFairQueue.HealedNodeIsMissed` a run that meets it; without writes that shorten a parked proxy's circuit it never
  happens (`ZFairQueue.PicksWhenever`). One process making one call after another never gets there
  (`SelectRuns.SelectAnswers`); calls that overlap or clocks that differ can.
- A revoked lease can still be accepted from the cache when its invalidations are lost, at every instant of the
  window that `Staleness.RevokedNotAcceptedAfterWindow` allows (`Staleness.LostInvalidationIsServed`), but never later.

## Model

| member | source | states |
|---|---|---|
| `LocalSelector.Local.Select` | internal/control/selector/local.go:20-57 | no eligible candidate is an error that leaves the counters alone; otherwise the answer and all counters are those of one round-robin step over the eligible candidates |
| `LocalSelector.Local.Filter` | internal/control/selector/local.go:24-32 | the eligible candidates in order, their total weight and their ids |
| `LocalSelector.Local.Prune` | internal/control/selector/local.go:37-41 | exactly the counters of absent proxies are deleted |
| `LocalSelector.Local.Raise` | internal/control/selector/local.go:42-52 | every candidate's counter is raised once and the best candidate is found |
| `LocalSelector.StepMeaning` | internal/control/selector/local.go:37-57 | a step picks the highest raised counter, ties to the smallest id, charges it the total weight, raises all others by their weights and keeps no other counter |
| `LocalSelector.PickMeaning` | internal/control/selector/local.go:37-57 | the same on counters and ids themselves: highest counter plus weight, ties to the lesser id, who pays what, and whose counters remain |
| `LocalSelector.FilterMeaning` | internal/control/selector/selector.go:40-42 | exactly the healthy candidates of positive weight and score whose circuit is closed or past are considered |
| `LocalSelector.PickIsHealthy` | internal/control/selector/local.go:20-57 | a call fails exactly when none of its candidates may carry traffic, and its pick is one that may |
| `LocalSelector.NamelessGivesWay` | internal/control/selector/local.go:46-50 | a candidate without an id gives way to whichever is visited next |
| `Text.LessMeaning` | internal/control/selector/local.go:46-50 | ties go by bytes: a proper prefix, or the lower character at the first difference, comes first |
| `LocalFairness.PickOrderFree` | internal/control/selector/local.go:46-57 | the id picked and all counters after it depend on the counters and on the candidates' ids and weights only, not on their order or other fields |
| `LocalFairness.CounterBounds` | internal/control/selector/local.go:37-57 | in every run whose calls all have the same n eligible proxies by id and weight, of total weight W, the counters sum to zero and lie in [-(W-1), (n-1)(W-1)] |
| `LocalFairness.CounterIsDebt` | internal/control/selector/local.go:46-57 | a counter is always the share earned so far minus what the picks received have cost |
| `LocalFairness.ExactShares` | internal/control/selector/local.go:37-57 | after T picks with W dividing every T*w, each proxy has received exactly T*w/W picks and all counters are zero |
| `LocalFairness.AnyWindowIsExact` | internal/control/selector/local.go:37-57 | any W successive picks, wherever they start, contain a proxy exactly as often as its weight |
| `LocalFairness.NeverStarved` | internal/control/selector/local.go:37-57 | a proxy of weight w is passed over fewer than n*W/w times in a row |
| `ZFair.EffectiveWeightRatio` | internal/control/selector/redis_zfair.go:113-118 | effective weight is proportional to weight and health and inversely proportional to one second plus latency, with the default latency where none is known |
| `ZFair.SharedQueue.Select` | internal/control/selector/redis_zfair.go:18-127 | the script as one function of the queue: enqueue, promote, refill, scan |
| `ZFair.SharedQueue.Enqueue` | internal/control/selector/redis_zfair.go:31-50 | in any order of visiting, exactly the allowed live nodes in neither set join the ready set at their runtime or the delayed set at their deadline |
| `ZFair.SharedQueue.TakeDue` | internal/control/selector/redis_zfair.go:52 | the earliest due members, at most the limit |
| `ZFair.SharedQueue.Promote` | internal/control/selector/redis_zfair.go:53-60 | due members leave the delayed set and the allowed ones become ready at their runtime |
| `ZFair.SharedQueue.Refill` | internal/control/selector/redis_zfair.go:62-84 | with nothing ready, every allowed live node is queued afresh |
| `ZFair.SharedQueue.Scan` | internal/control/selector/redis_zfair.go:86-127 | heads of the ready set are dropped or parked until one can be picked and charged, or the limit is reached |
| `ZFair.SharedQueue.WriteNode` | internal/control/selector/redis_zfair.go:342-350 | the four written fields change, runtime and next eligibility are set only on a new node |
| `ZFair.Head` | internal/control/selector/redis_zfair.go:87 | the first member by score, ties in byte order |
| `ZFairQueue.RunValid` | internal/control/selector/redis_zfair.go:31-127 | every run of the script and of node writes keeps ready and delayed disjoint, members backed by nodes and ready scores equal to virtual runtimes |
| `ZFairQueue.PickIsLeast` | internal/control/selector/redis_zfair.go:86-124 | whatever the limits, the pick is allowed and eligible and has the least runtime among the allowed eligible ready members; only it is charged, by quantum over effective weight |
| `ZFairQueue.WorkConserving` | internal/control/selector/redis_zfair.go:31-127 | with limits at least the node count, the script returns nothing exactly when every allowed eligible node is parked past now and something else occupies the ready set; never while one is ready, unqueued or due |
| `ZFairQueue.PicksWhenever` | internal/control/selector/redis_zfair.go:31-127 | in runs whose writes do not shorten a parked node's circuit, it picks someone exactly when some allowed node is eligible |
| `ZFairQueue.HealedNodeIsMissed` | internal/control/selector/redis_zfair.go:31-127 | otherwise a run of two writes, a pick, a shortened circuit and a pick returns nothing although its only allowed node is eligible |
| `ZFairMeaning.PickMeaning` | internal/control/selector/redis_zfair.go:86-124 | on the nodes' own fields, with a promotion limit that covers the nodes: the pick is allowed, live, past circuit and eligibility time, first by runtime and then bytes among all such nodes not asleep; it is charged quantum*(1000+latency)/(10*weight*health) and is eligible again now |
| `ZFairMeaning.NothingPickedMeaning` | internal/control/selector/redis_zfair.go:31-127 | the same for the answer nil: exactly when every such node is asleep while something is ready or due |
| `ZFairMeaning.ScriptMeaning` | internal/control/selector/redis_zfair.go:31-127 | whatever the limits: only the pick's node changes, no live allowed node is dropped, and whoever is newly delayed is allowed, live, and waits for its circuit or else its eligibility time |
| `ZFairLag.FreshQueueIsFair` | internal/control/selector/redis_zfair.go:342-350 | newly written eligible nodes are a start from which the fairness theorems apply |
| `ZFairLag.BoundedLag` | internal/control/selector/redis_zfair.go:86-124 | for a fixed allowed set from equal runtimes, vr_i <= vr_j + quantum/e_i throughout every run, and a runtime is the start plus one charge per pick |
| `ZFairLag.PicksFollowWeights` | internal/control/selector/redis_zfair.go:110-122 | pick counts satisfy n_i/e_i - n_j/e_j <= 1/e_i both ways round |
| `ZFairLag.ProportionalShare` | internal/control/selector/redis_zfair.go:86-124 | of N picks, a proxy of effective weight e among k of total E gets at most N*e/E + 1 and at least (N-k)*e/E |
| `ZFairLag.AlwaysPicks` | internal/control/selector/redis_zfair.go:86-127 | such a run never stalls when the limits cover the nodes |
| `SyncSkip.Syncer.BuildRequest` | internal/control/selector/redis_zfair.go:300-312 | the eligible candidates by id |
| `SyncSkip.EligibleByIdMeaning` | internal/control/selector/redis_zfair.go:302-308 | every entry is an eligible candidate under its own id, and every eligible candidate's id has one |
| `SyncSkip.Syncer.CandidateSyncSignature` | internal/control/selector/redis_zfair.go:354-384 | the printed signature of the fields a sync would write |
| `SyncSkip.Syncer.WriteCandidateNodes` | internal/control/selector/redis_zfair.go:330-352 | in any order, exactly the executed writes are in the queue |
| `SyncSkip.Syncer.SyncCandidates` | internal/control/selector/redis_zfair.go:314-328 | a sync is skipped on an unchanged signature within the TTL; a failed one leaves signature and time alone |
| `SyncMeaning.CandidatesMeaning` | internal/control/selector/redis_zfair.go:298-306 | the candidates of a call are, for each id, its last healthy record |
| `SyncMeaning.SyncWritesRecords` | internal/control/selector/redis_zfair.go:330-352 | after a performed sync every candidate's node has its record's weight, health, latency (or the default) and circuit in whole milliseconds; runtime and eligibility of known nodes, other nodes and both sets stay |
| `SyncMeaning.SkipMeaning` | internal/control/selector/redis_zfair.go:314-328 | in every run a call is skipped exactly when the last performed sync was less than the TTL before and wrote the same fields for the same candidates |
| `SyncMeaning.FirstIsNotSkipped` | internal/control/selector/redis_zfair.go:314-328 | before the first performed sync nothing is skipped |
| `SyncMeaning.PicksFollowRecords` | internal/control/selector/redis_zfair.go:86-124 | from an empty queue, after a sync, of N picks a candidate of share s = weight*health/(1000+latency) of its own record, in a total of S, gets at most N*s/S + 1 and at least (N-k)*s/S |
| `SyncSkip.SignatureIff` | internal/control/selector/redis_zfair.go:354-384 | without ambiguous ids two signatures agree exactly when a sync would write the same |
| `SyncSkip.SignatureFaithfulIff` | internal/control/selector/redis_zfair.go:354-384 | a naming scheme that contains what its ids read as keeps signatures faithful if and only if no id reads as a printed entry followed by a later id |
| `SyncSkip.LoneSeparatorIsClear` | internal/control/selector/redis_zfair.go:371-381 | an id without one of the two separators is never ambiguous |
| `SyncSkip.SeparatorInIdCollides` | internal/control/selector/redis_zfair.go:371-381 | every ambiguous id prints like the two ids it reads as, whatever the fields of the second |
| `SyncRuns.SkipSoundIff` | internal/control/selector/redis_zfair.go:314-328 | in every run of one process, a skipped sync finds its fields in the nodes exactly when the last write Redis executed for each candidate wrote them |
| `SyncRuns.SkipRightIff` | internal/control/selector/redis_zfair.go:314-328 | after any history, a skip is right however far Redis got in the failed calls since the last performed sync if and only if each of those wrote the same fields for the ids it shares with that sync |
| `SyncRuns.SkipSound` | internal/control/selector/redis_zfair.go:314-328 | after any history, once a sync was performed and no later call has failed, a skipped sync would have changed nothing |
| `SyncRuns.LostWriteIsStale` | internal/control/selector/redis_zfair.go:321-326 | one failed sync that Redis executed with other fields makes the next skip wrong |
| `SyncRuns.FailedSyncBreaksSkip` | internal/control/selector/redis_zfair.go:321-326 | the same for any two records of one proxy |
| `SyncRuns.AnswerIsCandidate` | internal/control/selector/redis_zfair.go:386-396 | the script's answer is always one of the caller's eligible candidates, never a stale id |
| `SelectRuns.CallMeaning` | internal/control/selector/redis_zfair.go:234-276 | by cases: what a call leaves in the queue |
| `SelectRuns.SelectAnswers` | internal/control/selector/redis_zfair.go:234-276 | in every run of calls one after the other from a queue without parked members, a call with eligible candidates whose sync is performed or skipped, rightly or not, gets one of them from the first run of the script, with limits that cover the nodes |
| `ProxyHealth.ProxyStore.RecordProxyOutcome` | internal/storage/memory.go:179-244 | one outcome changes one proxy's health as the outcome function says and its latency average on a timed success only, never its id, weight or healthy flag; a fault or an unknown proxy changes nothing |
| `ProxyHealth.OutcomeMeaning` | internal/storage/memory.go:188-241 | by cases: what one success or failure does to the proxy's own score, count, hint, times and closed circuit |
| `ProxyHealth.FailuresLowerScore` | internal/storage/memory.go:213-219 | a row of failures leaves the score at max(0, start - sum of penalties), a penalty that is not positive counting 10 and a proxy never observed starting at 100 |
| `ProxyHealth.SuccessesRaiseScore` | internal/storage/memory.go:192-200 | a row of successes leaves it at min(100, start + sum of rewards), a reward that is not positive counting 1 |
| `ProxyHealth.ScoreStaysInRange` | internal/storage/memory.go:194-226 | over every run of outcomes the score stays between 0 and 100 |
| `ProxyHealth.FailuresOpenCircuit` | internal/storage/memory.go:213-241 | a row of k failures counts up by k and, from the threshold on, opens the circuit for count times base, at most the maximum (3, 30 seconds and 5 minutes where none is given); the last failure leaves its time and hint |
| `ProxyHealth.SuccessClosesCircuit` | internal/storage/memory.go:196-212 | one success ends the row, leaves its time and closes the circuit exactly if its deadline has come |
| `Coalescing.Coalesce` | internal/control/health/recorder.go:289-321 | the loop computes the coalesced deltas |
| `Coalescing.CoalescingPreservesHealth` | internal/control/health/recorder.go:206-321 | for every event list, proxy and positive reward, the coalesced deltas leave the same health as the events one by one |
| `Coalescing.NotPreservedWithoutReward` | internal/storage/memory.go:192-197 | for any other reward two successes coalesced leave a lower score |
| `Coalescing.PreservesHealthIff` | internal/control/health/recorder.go:206-321 | meaning is preserved exactly for positive rewards |
| `Coalescing.RecorderPreservesHealthIff` | internal/control/health/recorder.go:76-79 | a recorder preserves meaning unless built with a negative reward and a penalty table |
| `Coalescing.CoalescingKeepsCount` | internal/control/health/recorder.go:289-321 | bucket sizes sum to the number of events |
| `Coalescing.FailuresOfEvents` | internal/control/health/recorder.go:206-245 | a proxy whose events all failed loses the sum of its policy's penalties by kind (unknown, then 10, where none is set), and from the policy's threshold on its circuit is open for the cooldown of its count |
| `Coalescing.SuccessesOfEvents` | internal/control/health/recorder.go:206-245 | a proxy whose events all succeeded gains the policy's reward for each, up to 100 |
| `Coalescing.CoalescingKeepsLatency` | internal/control/health/recorder.go:289-321 | a proxy's buckets together hold the sum and number of its positive success latencies |
| `Coalescing.MeanLatency` | internal/control/health/recorder.go:211-217 | a success delta reports the mean latency of its bucket, rounded down |
| `Recorder.CoalescingRecorder.RecordProxyResult` | internal/control/health/recorder.go:95-110 | the event is appended in place and a full buffer loses exactly its oldest event; nothing happens after close |
| `Recorder.CoalescingRecorder.Drain` | internal/control/health/recorder.go:181-187 | the whole buffer, in order, and an empty buffer |
| `Recorder.CoalescingRecorder.RecordOutcome` | internal/control/health/recorder.go:247-260 | one write with a single retry of a retryable error, and every effect it had on the store, errors before and after the write alike |
| `Recorder.WriteMeaning` | internal/control/health/recorder.go:247-260 | by cases: a write is tried once more exactly after a retryable error, fails for all its events unless the last try was clean and the proxy known, and counts every try that took effect |
| `Recorder.AppliedTwiceIff` | internal/control/health/recorder.go:247-260 | by cases: exactly when a retry applies a write twice; a write reported good was applied |
| `Recorder.CoalescingRecorder.WriteEvents` | internal/control/health/recorder.go:206-245 | failed counts exactly the events whose write reported an error, and the store ends with exactly the effects of the writes, each with its own clock reading |
| `Recorder.CoalescingRecorder.FlushDrain` | internal/control/health/recorder.go:194-204 | drained plus failed is the number of events taken |
| `Recorder.CoalescingRecorder.Close` | internal/control/health/recorder.go:116-142 | close drains once; a second close does nothing |
| `Recorder.OnlyUnknownProxiesFail` | internal/control/health/recorder.go:206-245 | without backend faults exactly the events of unknown proxies fail |
| `Recorder.FlushMeansEvents` | internal/control/health/recorder.go:194-245 | a flush against a healthy backend at one observation time leaves the health that the events one by one would leave |
| `Recorder.FlushedFailures` | internal/control/health/recorder.go:194-245 | in the stored record, a flush of nothing but failures of a proxy by a recorder built with policy p subtracts the penalties of their kinds, with the default policy's 5, 10, 15, 30 and 30 where p is incomplete, and opens its circuit |
| `Recorder.BufferIsRecentTail` | internal/control/health/recorder.go:95-110 | in every run the buffer is the last min(n, capacity) events since the last drain, in order, and so was every batch drained |
| `Recorder.SegmentsPartition` | internal/control/health/recorder.go:181-187 | the stretches between drains partition the accepted events, so none is drained twice |
| `TruthRecord.FingerprintIff` | internal/control/service.go:362-375 | two fingerprints agree exactly when generation, revoked flag, expiry, hash, proxy and printed resource do, for hashes and proxy ids without a bar |
| `TruthRecord.FingerprintTellsRevoked` | internal/control/service.go:362-375 | generation, revoked flag and expiry are told apart whatever the other fields contain |
| `TruthRecord.FingerprintTellsHash` | internal/control/service.go:362-375 | a hash without a bar is told apart too, whatever resource and proxy id contain |
| `TruthRecord.FingerprintDeterminesLease` | internal/control/service.go:362-375 | kind and resource id are determined too unless one kind goes on after the other and a colon |
| `TruthRecord.KindAndIdToldIff` | internal/control/service.go:367-374 | for two given kinds, and hashes and proxy ids without a bar, fingerprints always tell kind and resource id if and only if neither kind goes on after the other and a colon |
| `TruthRecord.ScopeNeverTold` | internal/shared/domain/types.go:28-33 | by definition: a fingerprint stays the same whatever the resource's scope and labels |
| `TruthRecord.ResourcesToldIff` | internal/control/service.go:367-374 | for two given kinds, fingerprints always tell whole resources if and only if the kinds differ and neither goes on after the other and a colon; then no two such leases share a fingerprint at all |
| `TruthRecord.ColonInKindCollides` | internal/control/service.go:367-374 | every kind with a colon has resources that share a fingerprint with one of the kind before the colon |
| `TruthRecord.TruthRoundTrip` | internal/control/service.go:506-523 | a record decodes to what was encoded exactly when its version is a uint64 and its fingerprint is not empty |
| `TruthRecord.LeaseRecordRoundTrip` | internal/control/service.go:506-523 | every lease's record round-trips |
| `ValidateService.RedisCache.PutLease` | internal/cache/redis.go:92-102 | the lease without its password until the TTL; nothing for a TTL that is not positive |
| `ValidateService.RedisCache.InvalidateLeaseLocal` | internal/cache/redis.go:168-174 | the version moves on and both records of the key go |
| `ValidateService.RedisCache.InvalidateAllLeases` | internal/cache/redis.go:176-184 | the version moves on and all records go |
| `ValidateService.Service.ValidateLease` | internal/control/service.go:282-316 | stamp, shared record, store, in that order, with what each outcome leaves in the caches |
| `ValidateService.Service.LocalValidatedLease` | internal/control/service.go:377-420 | a fresh stamp counts only while the shared truth record has its fingerprint |
| `ValidateService.Service.StampValidateTruth` | internal/control/service.go:447-477 | the stamp is stored; a full map first loses its stale stamps, then any one |
| `ValidateService.Service.CreateLease` | internal/control/service.go:226-238 | the first lease of an id is kept; whichever lease the store answers is cached and remembered, the zero lease included when the memory store has lost the scope's lease |
| `ValidateService.Service.RenewLease` | internal/control/service.go:241-271 | refusals change nothing; a renewal swaps the row and clears stamp and records |
| `ValidateService.Service.RevokeLease` | internal/control/service.go:273-280 | the row is revoked and stamp and records are cleared |
| `ValidateTruth.RoomIsMade` | internal/control/service.go:462-475 | stamps never outgrow their limit, and a current stamp is lost only from a map full of current ones |
| `ValidateTruth.RoomMeaning` | internal/control/service.go:462-475 | below 8192 stamps all stay, at it only current ones, and one of those goes only when all are current |
| `ValidateRefinement.RunOk` | internal/control/service.go:187-332 | in every reachable state each truth record tells the stored lease, or an expired one whose row is gone |
| `ValidateRefinement.MatchIsStored` | internal/control/service.go:406-440 | a lease that matches its truth record is the stored one, or has expired and its row is gone |
| `ValidateRefinement.CachedValidationRefines` | internal/control/service.go:282-332 | with calls atomic, in every reachable state of any number of instances a validation accepts exactly when reading the store and checking would, and answers the stored lease in its resource and every field a fingerprint prints; while the row exists it refuses for the same reason |
| `ValidateMeaning.ValidationMeaning` | internal/control/service.go:282-332 | in every reachable state a validation accepts exactly a stored row whose hash is that of its id and the presented password, that is neither revoked nor expired and is for the target's host; a stored row is refused for the first of these that fails |
| `ValidateMeaning.ValidateEffects` | internal/control/service.go:282-316 | what each answer leaves: a stamp's nothing new, the shared record's a fresh stamp, the store's row stamped, recorded and told for one TTL, a missing row all of that forgotten |
| `ValidateMeaning.CreateEffects` | internal/control/service.go:226-238 | a create answers the row, with the password exactly when its hash is the created lease's, and remembers it |
| `ValidateMeaning.InvalidateEffects` | internal/cache/redis.go:168-184 | a renewal or revoke that succeeds forgets stamp and records of its key and moves the 64-bit version on; a refused one leaves the caches alone |
| `ValidateMeaning.RenewalRefusal` | internal/control/service.go:241-252 | why a renewal is refused, in the order of the checks |
| `ValidateMeaning.CreatedIsAccepted` | internal/control/service.go:221-238 | a lease created under a new id admits its password at every instance until it expires; under a known id the row stays |
| `ValidateMeaning.RenewalMeaning` | internal/control/service.go:241-270 | a renewal succeeds exactly for a row neither revoked nor expired, and answers and stores it one generation on with expiry now + ttl and renewal time now + ttl/2, half an hour where no ttl is given; nothing else changes |
| `ValidateMeaning.RenewedIsAccepted` | internal/control/service.go:241-270 | whoever was admitted before a renewal is admitted by every instance at every instant before now + ttl |
| `ValidateMeaning.RevokedIsRefused` | internal/control/service.go:273-280 | from a revoke on every instance refuses, with the revoke as reason for the right password |
| `ValidateMeaning.RecordMeaning` | internal/control/service.go:343-356 | a lease record is written without password until the expiry or one cache TTL, whichever is first, and not at all for an expired lease |
| `ValidateAnswer.AnswerIsStoredRow` | internal/control/service.go:282-316 | in every such state, when no two creates share a hash, an accepting validation answers the stored row in every field but the password, printed in the fingerprint or not |
| `ValidateRefinement.LiveRecordsAreUnexpired` | internal/control/service.go:343-356 | in every reachable state a live lease record is of a lease that has not expired |
| `Staleness.BoundedStaleness` | internal/control/service.go:406-492 | in every interleaving with any deletes and messages lost, a lease accepted from the cache rests on a step that put a truth record of its fingerprint less than one TTL before, for a row the store held at the instant that call had read it |
| `Staleness.RevokedNotAcceptedAfterWindow` | internal/control/service.go:273-316 | a revoked lease is only accepted from the cache on the word of a call that read it before the revoke, within one TTL plus that call's own delay, even if every invalidation was lost |
| `Staleness.PromptPutsCloseTheWindow` | internal/control/service.go:273-316 | when calls that read before the revoke put their records within a delay, one TTL plus that delay closes the window |
| `Staleness.LostInvalidationIsServed` | internal/control/service.go:284-291 | the window is as wide as that: revoked right after its create, with the create's records put any delay later, the lease is accepted at every instant less than one TTL after the put at which its fields are good |
| `LeaseStore.MemoryStore.GetLease` | internal/storage/memory.go:74-83 | the row or not found |
| `LeaseStore.MemoryStore.CreateLease` | internal/storage/memory.go:59-72 | the first create of a scope stores its lease without the password; later ones answer the stored lease |
| `LeaseStore.MemoryStore.UpdateLease` | internal/storage/memory.go:85-106 | the checks in their order, and a changed row only when all pass |
| `LeaseStore.MemoryStore.RevokeLease` | internal/storage/memory.go:108-124 | the row is revoked and nothing else changes |
| `LeaseStore.MemoryStore.DeleteExpiredLeases` | internal/storage/memory.go:141-153 | exactly the tenant's rows with an expiry before the instant go, and they are counted; a row without an expiry stays |
| `LeaseStore.SqlStore.CreateLeaseByPrimaryId` | internal/storage/mysql.go:134-156 | the first insert of an id is kept, a duplicate answers the stored row |
| `LeaseStore.SqlStore.UpdateLease` | internal/storage/sqlite.go:189-217 | the guarded UPDATE, and a refusal read off the row when none was affected |
| `LeaseStore.SqlStore.RevokeLease` | internal/storage/sqlite.go:219-233 | the row is revoked; an already revoked one counts as found |
| `LeaseStore.StoresAcceptTheSame` | internal/storage/mysql.go:185-221 | by cases: the memory check and the guarded UPDATE of both SQL stores accept the same updates and store the same row |
| `LeaseStore.StoresRefuseAlikeIff` | internal/storage/sqlite.go:189-217 | by cases: exactly when they refuse with the same error |
| `LeaseStore.RenewalsAreSerial` | internal/control/service.go:241-270 | in every interleaving a lease's generation is 1 plus its successful renewals, and no two share a generation |
| `LeaseStore.RowIsLastRenewal` | internal/control/service.go:241-270 | in every interleaving a row is the one its last successful renewal had read, one generation on, with expiry and renewal time counted from that reading, or else what its create wrote; only the revoked flag may differ |
| `LeaseStore.UndisturbedRenewal` | internal/control/service.go:241-270 | a renewal of a row neither revoked nor expired, with nothing in between, succeeds and extends it |
| `LeaseStore.CreateStores` | internal/storage/memory.go:59-72 | by cases: a create stores its lease at generation 1 unless there is a row |
| `LeaseStore.UpdateMeaning` | internal/storage/memory.go:85-106 | by cases: an update is accepted exactly one generation after a row neither revoked nor expired, and replaces that row only |
| `LeaseStore.NoRenewalAfterRevoke` | internal/storage/memory.go:85-124 | after a revoke no renewal succeeds, also none that had read the lease before, and the lease stays revoked |
| `LeaderLock.ClusterLocks.Upsert` | internal/storage/mysql.go:315-324 | the three guarded assignments, each seeing the earlier ones, act as one all-or-nothing update |
| `LeaderLock.ClusterLocks.TryAcquireLock` | internal/storage/mysql.go:312-335 | undisturbed, true exactly when the row was free, changed, and its lease ends after the clock reading |
| `LeaderLock.OneLeader` | internal/storage/mysql.go:312-335 | in every interleaving with any delay between clock reading and upsert, two instances never both hold an unexpired acquisition |
| `LeaderLock.LeaderOwnsRow` | internal/storage/mysql.go:328-335 | the row names the holder of every unexpired acquisition |
| `LeaderLock.AttemptMeaning` | internal/storage/mysql.go:312-335 | an undisturbed attempt in any reachable state gets the lock, for its lease length, exactly when there was no row, one whose lease had passed, or its own |
| `LeaderLock.TakenOver` | internal/storage/mysql.go:312-335 | once the holder's lease has passed, the next instance that tries holds the lock |
| `LeaderLock.CheckMeaning` | internal/storage/mysql.go:328-335 | by cases: an upsert counts only if the row read afterwards is still the instance's and unexpired by its clock reading |
| `AuthRefresh.MemoryAdminStore.UpdateTenant` | internal/server/admin_store_memory.go:65-94 | disabling a tenant revokes its keys and moves the version on |
| `AuthRefresh.MemoryAdminStore.CreateTenantKey` | internal/server/admin_store_memory.go:110-119 | a known tenant's key is appended and the version moves on |
| `AuthRefresh.MemoryAdminStore.RevokeTenantKey` | internal/server/admin_store_memory.go:121-133 | the first key with the id is revoked and the version moves on |
| `AuthRefresh.MemoryAdminStore.GetTenantKeys` | internal/server/admin_store_memory.go:149-153 | exactly the keys of all tenants, in any order of tenants |
| `AuthRefresh.DynamicStore.Load` | internal/auth/cache.go:271-283 | the loop fills the table row by row, skipping revoked rows |
| `AuthRefresh.TableHoldsExactly` | internal/auth/cache.go:271-283 | with distinct hashes the table holds exactly the unrevoked keys |
| `AuthRefresh.DynamicStore.Refresh` | internal/auth/cache.go:188-227 | undisturbed, the cache is current afterwards |
| `AuthRefresh.DynamicStore.Lookup` | internal/auth/cache.go:150-162 | a cached key until its expiry |
| `AuthRefresh.CurrentCacheIsExact` | internal/auth/cache.go:188-227 | in every interleaving, whenever the cached version equals the store's, the cache holds exactly the unrevoked keys |
| `AuthRefresh.LookupMeaning` | internal/auth/cache.go:150-162 | in every interleaving, while the versions are equal, a hash is admitted exactly when a listed unrevoked key of it has no expiry or has not passed it, and the answer is that key's tenant, id, purpose and expiry |
| `AuthRefresh.RefreshMeaning` | internal/auth/cache.go:188-227 | an undisturbed refresh completes at once for an unchanged version, and else with all rows and the version it read; a failed one changes nothing |
| `AuthRefresh.VersionNeverDecreases` | internal/auth/cache.go:188-227 | the cached version never decreases |
| `AuthRefresh.RevokedKeyRejected` | internal/auth/cache.go:150-227 | a key revoked before a successful refresh starts is rejected from its end on, whatever happens before and after |
| `AuthRefresh.RevokeShutsOut` | internal/server/admin_store_memory.go:121-133 | a revoke by tenant and id shuts that key's hash out from the next completed refresh on |
| `AuthRefresh.DisableShutsOut` | internal/server/admin_store_memory.go:65-94 | disabling a tenant shuts out every key it has |
| `AuthRefresh.CreatedKeyIsAdmitted` | internal/server/admin_store_memory.go:110-119 | a new key of a known tenant is admitted, as that tenant's and until its expiry, after the next refresh |
| `AuthRefresh.KeysAfter` | internal/server/admin_store_memory.go:65-133 | by cases: what each admin operation does to each key of each tenant |
| `AuthRefresh.TenantsAfter` | internal/server/admin_store_memory.go:49-94 | by cases: what it does to the tenants |
| `SingleFlight.LookupCache.Lookup` | internal/control/service.go:764-775 | an unexpired entry the rules serve |
| `SingleFlight.LookupCache.Begin` | internal/control/service.go:777-789 | a hit, the joinable flight of this epoch, or a new one |
| `SingleFlight.LookupCache.Finish` | internal/control/service.go:791-803 | the flight is closed with its reply, which is kept only if its epoch is still the present one |
| `SingleFlight.LookupCache.Clear` | internal/control/service.go:805-810 | a new epoch and no entry |
| `SingleFlight.ReadsYourWrites` | internal/control/service.go:736-810 | in every interleaving a lookup that begins after an admin change has cleared the cache answers with a value the store had after that change |
| `SingleFlight.OneFlightPerEpoch` | internal/control/service.go:856-889 | at most one unfinished flight belongs to the present epoch, and it is the joinable one |
| `SingleFlight.FlightsCloseOnce` | internal/control/service.go:870-882 | a flight is closed exactly once, and no lookup joins a closed one |
| `SingleFlight.ServedMeaning` | internal/control/service.go:764-775 | in every interleaving a lookup is answered at once exactly from an entry the rules serve whose time is not up, loaded by a lookup whose clock reading was less than the TTL before |
| `SingleFlight.KeptMeaning` | internal/control/service.go:791-803 | a loaded value is kept for the TTL from its lookup's clock reading exactly when read without error, kept by the rules, and no clear came in between |
| `SingleFlight.JoinMeaning` | internal/control/service.go:777-789 | a lookup that is not served waits for the epoch's unfinished flight, or opens one if there is none |
| `SingleFlight.ChangeMeaning` | internal/control/service.go:805-810 | a change and its clear: the value joins the history, the cache is emptied and the next epoch starts |
| `HostFlight.HostSafety.LookupHostSafety` | internal/control/service.go:1105-1119 | only an unexpired unsafe verdict decides |
| `HostFlight.HostSafety.Begin` | internal/control/service.go:1121-1130 | the flight of the host, new for its owner |
| `HostFlight.HostSafety.Finish` | internal/control/service.go:1132-1139 | the verdict is published and the host is free again |
| `HostFlight.HostSafety.Judge` | internal/control/service.go:1141-1166 | safe exactly for an uncancelled all-public answer; an internal address caches an unsafe verdict |
| `HostFlight.HostSafety.StoreHostSafety` | internal/control/service.go:1168-1190 | the verdict is stored within the size limit, dropping expired verdicts first |
| `HostFlight.StepsAreMethods` | internal/control/service.go:1069-1166 | by cases: every step of the interleaved requests does to flights, calls and verdicts what the method of that step is specified to do |
| `HostFlight.SafeOnlyFromFreshLookup` | internal/control/service.go:1069-1103 | in every interleaving a hostname is called safe only on an all-public lookup of that name that finished after the call began |
| `HostFlight.OneFlightPerHost` | internal/control/service.go:1121-1139 | at most one lookup per host is in flight |
| `HostFlight.LiveNeverAdoptsCancelled` | internal/control/service.go:1087-1103 | a live follower never adopts a cancelled owner's verdict |
| `HostFlight.VerdictMeaning` | internal/control/service.go:1141-1166 | a call answered from a lookup is told safe exactly when that was not cancelled, succeeded, and found an address and no internal one |
| `HostFlight.CachedMeaning` | internal/control/service.go:1105-1119 | a call is answered at once exactly from a verdict whose time is not up; it is unsafe and rests on a lookup of the host that found an internal address less than the TTL before |
| `HostFlight.FoundIsCached` | internal/control/service.go:1155-1190 | such a lookup is remembered for the TTL |
| `HostFlight.JoinMeaning` | internal/control/service.go:1121-1130 | a call that is not answered waits for the host's unfinished lookup, or owns a new one if there is none |
| `HostFlight.WaitMeaning` | internal/control/service.go:1087-1103 | a waiting call asks again if the owner was cancelled and it is alive, else takes the verdict; it gives up only when its own context is over |
| `SdkLeases.Client.AcquireUnderLock` | sdks/go/proxyharbor/leases.go:147-176 | reuse, else renew, else refuse or create, and the lease returned is the one cached |
| `SdkLeases.OneWriter` | sdks/go/proxyharbor/leases.go:140-176 | in every interleaving at most one call of a key renews, creates or stores |
| `SdkLeases.OneCreateSucceeds` | sdks/go/proxyharbor/leases.go:140-187 | on an empty cache, with created leases staying usable, all calls that return a lease return the one lease created |
| `SdkLeases.AtMostOneCreate` | sdks/go/proxyharbor/leases.go:140-187 | and at most one create succeeds |
| `SdkLeases.ReuseMeaning` | sdks/go/proxyharbor/leases.go:140-157 | in every run a call is answered from the cache, before or under the mutex, exactly when the cached lease has an id and no expiry or one later than the skew from now |
| `SdkLeases.LockMeaning` | sdks/go/proxyharbor/leases.go:147-176 | a lease not good any more is renewed while unexpired and past its renewal time, else the call fails or creates as the policy says |
| `SdkLeases.ForcedMeaning` | sdks/go/proxyharbor/leases.go:164-176 | by cases: a forced call never reuses or renews |
| `SdkLeases.RenewedMeaning` | sdks/go/proxyharbor/leases.go:188-220 | a renewed lease is the server's answer with the former password, user name and gateway where it names none |

## Left out

- The fallback script, `seedCandidates`, `ensureCandidates` and `waitForRebuild` of the shared queue: best-effort repair that does not keep the queue invariant.
- Fairness for proxies that join the shared queue mid-run: a newcomer starts at runtime 0, so the lag bound is meant for a fixed set.
- Floating-point rounding in the script (reals here) and in the latency average (a parameter; latency is outside the coalescing theorem).
- Overflow of Go's 64-bit integers and durations; only the uint64 lease version wraps.
- SHA-256, URL parsing and address classification: parameters of the model. DNS answers and context cancellation are inputs of the host-lookup steps.
- Composite Redis and map keys are tuples, so tenants or ids whose concatenations collide are not covered.
- JSON and SQL text and connections: a statement makes the state change it describes. An error of a Redis read or of writing a lease record is a step of `Staleness` only. Instants are stored exactly, without the rounding of a database column.
- Fields of a lease that no modelled step reads: subject, policy reference, gateway URL, user name, catalog version, candidate set, creation and update times.
- SyncRuns.SkipRightIff: one process owns the nodes, and one clock reading of a call serves the eligibility test, the skip test and the script.
- Caches without an invalidation version (`Noop`), for which validation always reads the store.
- ValidateRefinement.CachedValidationRefines: calls are atomic on one clock, the truth TTL is positive (a constant of the service), hashes contain no bar and creates of different resources or proxies have different hashes (each hashes a fresh random password), and the store keeps the first row of an id, as the SQL insert by primary id does; the memory store's zero lease for a scope whose lease was deleted is stated at `LeaseStore.MemoryStore.CreateLease` only.
- Staleness.BoundedStaleness: one lease key; reading the truth record and checking the lease's fields happen in one step, and a call's own invalidations are free steps that may or may not happen.
- LeaseStore.NoRenewalAfterRevoke: the runs have no deletion, since deleting and creating anew starts a new lease under the old id.
- LeaderLock.OneLeader: each instance asks for one lease length and runs its own acquisitions in time order.
- AuthRefresh.DynamicStore.constructor: the constructor reads rows before the version, so it assumes no key change between the two reads; key hashes are distinct.
- SdkLeases.OneCreateSucceeds: one key, non-forced calls, no release.
- HTTP handlers, gateway tunnels, CLI, configuration, metrics, logging, tickers, shutdown budgets, migrations, retention, tenant, policy, audit and usage records: plumbing or simple storage that would only add easy members.

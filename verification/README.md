# Fishmesh serving core, verified

A Dafny model of the gateway's serving core: the per-Pod KV event streams and the index they
feed, the lookup over that index, request leases and routing, the two latency estimators, the
admission and circuit control loops, and first-event detection on response streams. `dafny verify
dfyconfig.toml` checks the whole project.

Each component is specified twice over. Values and functions say what a critical section, a
selection or a tick does, and lemmas over whole runs say what follows from that. Classes and
methods with loops keep the program's own fields and update them in place, and are proved
against those functions.

| file | component |
|---|---|
| `EventStream.dfy` | one Pod's live and replay threads, sequence discipline, faults, freshness |
| `StreamLifecycle.dfy` | Reconcile, Close and Lookup over all streams, index ownership |
| `PrefixLookup.dfy` | hash chain, early-stopping walk, match range |
| `LookupMeaning.dfy` | what a match means: protocol, ownership and walk together |
| `StaticEstimator.dfy`, `Int64.dfy` | calibrated TTFT grid with 64-bit overflow checks |
| `RidgeFit.dfy` | learned TTFT model, box-projected coordinate descent |
| `Leases.dfy` | in-flight reservation, settlement and membership |
| `Routing.dfy`, `Selection.dfy` | KV-aware, load-balanced and load-aware strategies |
| `SessionKey.dfy` | sticky table, rendezvous hashing, bounded spillover |
| `Admission.dfy` | permits, soft target and its tuner |
| `Circuit.dfy` | EWMA circuit breaker |
| `SseDetector.dfy` | first-event detection over arbitrary chunks |
| `Text.dfy`, `Wrappers.dfy` | trimming of strings, optional values |

Abstractions. Floats are reals; interpolated durations are exact rationals rounded half away
from zero; instants are integers passed to each step. Counters and sequences that wrap in the
program are bounded explicitly. A backend is its ID, and IDs in a snapshot are distinct where
the program relies on it. SHA-256, the upstream block hash, index and scorer are parameters: an
uninterpreted score, a chained hash that never yields the empty key, a map from key to Pods, and
the leading run per Pod. The outcomes of Apply and Clear, a failing Clear included, are inputs of
each step, as are the points at which threads interleave.

## Where the code does less than one would expect

- A live gap writes the stream's reason without looking at it, so it can replace a fatal reason
  before the replay thread's exit check reads it; the stream can then become Valid over an index
  with a hole. `OverwrittenReasonAnnouncesHole` is such a run, `ExitCheckIsExact` the exact
  condition, and `ValidMeansComplete` the property under it.
- A reset accepted at sequence 1 starts its generation at 1, so its batch 0 is never asked for:
  `ResetAtOneSkipsZero` is a run, `StartsAtZeroIff` the exact condition.
- A reservation looks its counter up and increments it in two steps, and a settlement decrements
  and takes the lock in two steps. `OrphanedReservation`, `OrphanAnnouncedAsRemoved` and
  `RemovedWhileLeased` are interleavings in which a report or a removal is wrong.
  `ReportsStayExactIff` says exactly when all reports of a run are right, `GuardedRemovalsAreIdle`
  that all its removals are right then, and `AnnouncedIsIdleIff` decides each single removal. Over
  whole steps reports and removals are always right.
- A Select holds the table's lock three times, not once: `StaleRefreshMovesBinding` moves a key
  from a member to a departed backend, and `StickyIffAllCarry` is the exact condition. The gateway
  cannot produce that run, since it selects under its selection lock
  (internal/serving/requestpath/requestpath_impl.go:86-108): `SerialSelectsNeverMove`. The llm-d scorer
  (internal/serving/llmd/scorer_impl.go:97) calls Select without a lock of its own.
- The lookup's second check compares streams, not engine generations. A reset withdraws validity
  (`ResetIsInvalid`), but a replay END of the new generation restores it: `MatchCarriesLostGeneration`
  is a match of a block that a reset has already discarded, `MatchIsCurrentIffNoReset` the exact
  condition, and `ResetNeedsReplayEnd` says what else such a run must contain.
- A gateway started above MaxTarget lowers its target when it is underutilized:
  `IdleGatewayLowersTarget`, exactly then: `UnderuseLowersIff`. Overload never raises a target, even
  from a start below MinTarget: `OverloadNeverRaisesTarget`.

## Model

| member | source | states |
|---|---|---|
| `EventStreams.ValidMeansComplete` | internal/serving/kvcache/lifecycle_impl.go:192-304 | in every interleaving of live events, replays, resets, faults and failing clears in which the replay thread's exit check sees the fault, a Valid snapshot means the index equals the in-order, exactly-once application of an unbroken run of batches through lastSeq, from batch 0, or from batch 1 exactly when a reset event with sequence 1 began the generation |
| `EventStreams.StartsAtZeroIff` | internal/serving/kvcache/lifecycle_impl.go:268-304 | in every run the applied batches of the generation start at sequence 0 if and only if the last reset of the run was not an applied event with sequence 1; otherwise they start at 1 |
| `EventStreams.ResetAtOneSkipsZero` | internal/serving/kvcache/lifecycle_impl.go:302-304 | a concrete run of six live events and a replay END after which a Valid snapshot covers an index without batch 0 |
| `EventStreams.ResetIsInvalid` | internal/serving/kvcache/lifecycle_impl.go:274-283 | right after an accepted reset event no snapshot is Valid at any time, however its Clear and Apply went |
| `EventStreams.ExitCheckIsExact` | internal/serving/kvcache/replay_impl.go:9-28 | that condition is exact: at an exit check over an incomplete index some continuation announces the index as Valid if and only if the check's guard, hasFatalReason, is false |
| `EventStreams.OverwrittenReasonAnnouncesHole` | internal/serving/kvcache/lifecycle_impl.go:268-300 | a concrete run in which a live gap overwrites the fatal reason before the exit check and a Valid snapshot then covers an index that lost batch 0 |
| `EventStreams.AppliedSuffixIsConsecutive` | internal/serving/kvcache/lifecycle_impl.go:192-266 | in every run, fatal faults and failing clears included, the batches applied since the last Clear are consecutive and end at lastSeq, and after a successful Clear they are all the index holds |
| `EventStreams.GapsAreClosedBeforeValid` | internal/serving/kvcache/replay_impl.go:30-73 | in every run, once a live gap skipped to n no snapshot is Valid until batch n itself was applied in that generation |
| `EventStreams.ValidMeansFresh` | internal/serving/kvcache/lifecycle_impl.go:93-125 | in every run a Valid snapshot rests on a replay that reached its END marker within the freshness TTL |
| `EventStreams.ReplayEndIsValidIff` | internal/serving/kvcache/replay_impl.go:57-72 | after any run that ends inside a running replay, END at time at makes the snapshot at now Valid if and only if the stream is open, its reason is none, not confirmed, a gap or a reset, every batch a live gap skipped to in this generation has been applied, and now - at is within the TTL |
| `EventStreams.FaultStopsThreads` | internal/serving/kvcache/replay_impl.go:9-28 | a fatal reason stops either thread at its next check and lets no replay begin, and a transport error or an END alone lets both go on |
| `EventStreams.CancelledStaysSilent` | internal/serving/kvcache/lifecycle_impl.go:171-190 | in no continuation does an event of a cancelled thread change anything |
| `EventStreams.ClosedStaysInvalid` | internal/serving/kvcache/lifecycle_impl.go:153-169 | closing is permanent: no continuation of any thread makes a closed stream Valid again |
| `EventStreams.NextKeepsInv` | internal/serving/kvcache/lifecycle_impl.go:171-300 | every step of either thread or of the lifecycle owner keeps the invariant that ties reason, gapUntil, lastSeq, the applied batches and the index together |
| `EventStreams.AcceptEffect` | internal/serving/kvcache/lifecycle_impl.go:192-266 | an accepted event never makes an unusable stream usable, never hides lost batches, and fails only into a fatal reason or, live, into a sequence gap |
| `EventStreams.AcceptDecides` | internal/serving/kvcache/lifecycle_impl.go:192-304 | accept as a table over size, topic and sequence, in literal thresholds: refused with an emptied index, a new generation, unchanged, appended, or a live or replayed gap |
| `EventStreams.FaultDecides` | internal/serving/kvcache/lifecycle_impl.go:192-266 | a failing Apply, or the failing Clear of a reset, sets its fault, does not move the sequence, and leaves nothing in the index if the Clear after it succeeds |
| `EventStreams.LastWriteWins` | internal/serving/kvcache/vllm_index_impl.go:217-302 | a block is in the index after any items if and only if some item stored it and no later one removed it or cleared all |
| `EventStreams.ContentsAreItems` | internal/serving/kvcache/vllm_index_impl.go:217-302 | applying batches one by one is applying all their items in order |
| `EventStreams.ExitedStaysInvalid` | internal/serving/kvcache/replay_impl.go:9-28 | after the replay thread has left with a reason set, no later step of anyone clears the reason |
| `EventStreams.Revive` | internal/serving/kvcache/replay_impl.go:30-73 | constructs, for any stream whose replay goes on over an incomplete index, the events that make its snapshot Valid |
| `EventStreams.EventStream.AcceptEvent` | internal/serving/kvcache/lifecycle_impl.go:192-266 | the method makes exactly the specified transition, error result included, and keeps the invariant |
| `EventStreams.EventStream.Interleave` | internal/serving/kvcache/lifecycle_impl.go:171-300 | for any list of steps of the live thread, the replay thread and the owner, the methods called in that order do exactly what the run of the step system does |
| `EventStreams.EventStream.ClassifySequence` | internal/serving/kvcache/lifecycle_impl.go:268-300 | duplicate, in-order, gap and reset verdicts with exactly their state changes, for 64-bit wrapping sequences |
| `EventStreams.EventStream.ReplayOnce` | internal/serving/kvcache/replay_impl.go:30-73 | a whole replay, with its capacity limit, early failure and END marker, is the run of its steps in the step system, for any events |
| `EventStreams.EventStream.OnReplayEvent` | internal/serving/kvcache/replay_impl.go:39-49 | a replayed event past the session capacity clears the index and fails; otherwise it is accepted as any other |
| `EventStreams.EventStream.ConfirmReplay` | internal/serving/kvcache/replay_impl.go:58-72 | makes the transition whose effect ReplayEndIsValidIff decides: confirms the replay, resolves only non-fatal reasons, and a gap only once lastSeq covers it |
| `EventStreams.EventStream.Snapshot` | internal/serving/kvcache/lifecycle_impl.go:93-125 | Valid exactly when open, without reason, confirmed and fresh; Valid if and only if the reported reason is empty |
| `EventStreams.EventStream.Close` | internal/serving/kvcache/lifecycle_impl.go:153-169 | closing is permanent, keeps an earlier fault's reason and the invariant, and no snapshot is Valid afterwards at any time |
| `StreamLifecycle.OneLiveStreamPerPod` | internal/serving/kvcache/reconcile_impl.go:13-44 | over any run of Reconcile and Close steps, aborted and retried ones included, no two started and unclosed streams serve one Pod identifier |
| `StreamLifecycle.IndexStaysWithinGoal` | internal/serving/kvcache/reconcile_impl.go:13-71 | at every moment every index entry belongs to a Pod of the last successfully reconciled set and was written by that Pod's published stream |
| `StreamLifecycle.NewStreamStartsEmpty` | internal/serving/kvcache/reconcile_impl.go:36-42 | in every run the index holds nothing for the Pod of a stream that is about to be started, so the stream starts as the content property assumes |
| `StreamLifecycle.ValidMatchIsOwn` | internal/serving/kvcache/kvcache_impl.go:69-102 | with Reconcile, Close and all stream threads interleaved at any point of a lookup that reads one block at a time, a match that passes the second check carries only blocks written by the selected stream of the wanted instance, which is open and valid then |
| `StreamLifecycle.RetiredStaysRetired` | internal/serving/kvcache/reconcile_impl.go:46-71 | no ABA: a stream that has left the published map never comes back in any continuation |
| `StreamLifecycle.ClosedIsNeverUsable` | internal/serving/kvcache/lifecycle_impl.go:93-125 | a stream closed by a finished or an aborted Reconcile or by Close is, in every later state, neither selected by a lookup nor answered as usable by a second check |
| `StreamLifecycle.FreshNeedsReplayEnd` | internal/serving/kvcache/lifecycle_impl.go:93-125 | a stream made during a run is valid at its end only if it reached a replay END of its own |
| `StreamLifecycle.LapsedNeedsReplayEnd` | internal/serving/kvcache/lifecycle_impl.go:93-125 | validity lost to a gap, a fault or age comes back only with a replay END |
| `StreamLifecycle.EditMeans` | internal/serving/kvcache/vllm_index_impl.go:217-302 | after a batch of a running stream its Pod holds a block if and only if the batch added it, or it was there and the batch did not remove it; other Pods keep theirs |
| `StreamLifecycle.LookupSelects` | internal/serving/kvcache/kvcache_impl.go:169-202 | a lookup starts with exactly the queried, published streams that are neither closed nor invalid |
| `StreamLifecycle.CleanCloseEmptiesIndex` | internal/serving/kvcache/kvcache_impl.go:122-148 | a Close whose every Clear succeeded leaves an empty index, whatever happened before |
| `StreamLifecycle.NextKeepsInv` | internal/serving/kvcache/reconcile_impl.go:13-71 | every step of reconcile, close, stream threads and lookups keeps the ownership invariant |
| `StreamLifecycle.ValidateInstances` | internal/serving/kvcache/reconcile_impl.go:73-99 | accepts exactly the desired sets within the limit whose backend, UID, trimmed Pod, model and endpoints are complete and pairwise different in backend, UID and Pod identifier, and returns them trimmed and keyed by backend |
| `Text.TrimIsExact` | internal/serving/kvcache/reconcile_impl.go:117-123 | trimming takes white space from both ends and nothing else |
| `StreamLifecycle.KvService.ReconcileChanges` | internal/serving/kvcache/reconcile_impl.go:46-71 | keeps exactly the open streams of unchanged instances, makes fresh streams for the others and retires exactly the published streams not kept |
| `StreamLifecycle.KvService.Reconcile` | internal/serving/kvcache/reconcile_impl.go:13-44 | succeeds exactly on an open service when the Clear of every published stream that is not kept succeeds; then exactly the desired backends are published, each with a started, open stream of its wanted instance, every replaced stream is closed and its threads have left, and the index holds no Pod outside the desired set; otherwise the published map is unchanged and the stream whose Clear failed stays in it, closed; in all cases a run of the step system |
| `StreamLifecycle.KvService.Close` | internal/serving/kvcache/kvcache_impl.go:122-148 | idempotent shutdown as a run of the step system; clean exactly when every Clear of a published stream succeeded, and then the index is empty |
| `StreamLifecycle.KvService.LookupInputs` | internal/serving/kvcache/kvcache_impl.go:169-202 | refuses exactly on a closed service; otherwise every queried backend is selected if and only if its published stream serves the model, is not closed, is valid and timely, and else answered with the exact kind of failure |
| `StreamLifecycle.KvService.CurrentState` | internal/serving/kvcache/kvcache_impl.go:204-212 | the second check of one backend in whatever state it finds: usable exactly if the selected stream is still published, not closed, valid and timely; a replaced stream is told from a lapsed one |
| `StreamLifecycle.KvService.FinishLookup` | internal/serving/kvcache/kvcache_impl.go:92-101 | exactly one match per backend, by the second check for the selected ones and unchanged for the others |
| `StreamLifecycle.LookupAnswersEveryBackend` | internal/serving/kvcache/kvcache_impl.go:69-102 | whatever happens between the two halves of a lookup and between its second checks, the result answers exactly the queried backends, and a match is usable exactly for the stream that was published, not closed, valid and timely at both of its checks and serves the model |
| `StreamLifecycle.MatchIsCurrentIffNoReset` | internal/serving/kvcache/kvcache_impl.go:92-101 | over every run, a match whose stream is published and valid at the second check carries only blocks of the engine generation the stream is in then, if and only if the stream was not reset since the first block read that found anything |
| `StreamLifecycle.ResetNeedsReplayEnd` | internal/serving/kvcache/lifecycle_impl.go:274-283 | a reset withdraws validity: a stream reset during a lookup passes the second check only if a replay of the new generation has reached its END in between |
| `StreamLifecycle.MatchCarriesLostGeneration` | internal/serving/kvcache/kvcache_impl.go:92-101 | for every instance and block, a run in which a confirmed stream's block is read, the stream is reset and its replay of the new generation reaches END before the second check, and the passing match carries the block of the lost generation |
| `LookupMeaning.ValidMatchMeansGeneration` | internal/serving/kvcache/kvcache_impl.go:69-102 | end to end: if a stream's snapshot is Valid and its Pod's part of the index stands still during a lookup, whatever other Pods' parts do, the backend's matched blocks are the leading runs of the request keys over the in-order application of the stream's whole generation |
| `LookupMeaning.PartIsOwn` | internal/serving/kvcache/reconcile_impl.go:13-71 | in every run of the service all the index holds for a published Pod is what its published stream wrote |
| `LookupMeaning.QueryScoreOverPart` | internal/serving/kvcache/vllm_index_impl.go:89-174 | a backend's score depends on its own Pod's part of the index alone: with that part standing still it is the sum of the leading runs over it |
| `PrefixLookup.LookupUntilMiss` | internal/serving/kvcache/vllm_index_impl.go:134-174 | with the index free to change between block reads, the walk returns the longest prefix of the whole-prompt key chain whose reads each find an allowed Pod that holds the key then, with what those reads collected |
| `PrefixLookup.EarlyStopAgrees` | internal/serving/kvcache/vllm_index_impl.go:131-174 | every allowed Pod scores over the stopped walk what it scores when every key of the prompt is hashed and read, for any index changes between reads as long as a repeated key reads the same |
| `PrefixLookup.RepeatedKeyLosesRead` | internal/serving/kvcache/vllm_index_impl.go:157-171 | for any two-block request and a hash that gives both blocks one key, read while the key passes from one Pod to the other: the walk scores the first Pod 0 where the full read scores 1 |
| `PrefixLookup.FixedIndexAgrees` | internal/serving/kvcache/vllm_index_impl.go:131-174 | over an index that stands still, whatever the keys, the stopped walk scores every allowed Pod its leading run over the whole chain |
| `PrefixLookup.ScoreBetween` | internal/serving/kvcache/vllm_index_impl.go:131-174 | for any index changes between reads and any keys, a Pod that holds the first n keys throughout scores at least n and one that never holds key n scores at most n |
| `PrefixLookup.Lookup` | internal/serving/kvcache/vllm_index_impl.go:89-129 | over all prompts of a query each backend's matched blocks equal the sum of its walk scores, every other backend has none, and the block total is that of the whole query |
| `PrefixLookup.QueryScoreIsFull` | internal/serving/kvcache/vllm_index_impl.go:89-129 | over an index that stands still that sum is the sum of the full-chain scores, for any tokens, salt and Pods |
| `PrefixLookup.MatchedBlocks` | internal/serving/kvcache/kvcache_impl.go:84-91 | skipping the store for queries without a full block or without a valid instance changes no backend's score |
| `PrefixLookup.ChainStep` | internal/serving/kvcache/vllm_index_impl.go:207-215 | hashing one block after the previous request key yields the next key of the one-pass chain |
| `PrefixLookup.ChainIs` | internal/serving/kvcache/vllm_index_impl.go:207-215 | the first key hashes the model's seed, the first block and the cache salt; every later key its predecessor and its own block of tokens without a salt |
| `PrefixLookup.KeysAgreeIff` | internal/serving/kvcache/vllm_index_impl.go:134-174 | for a hash that tells its inputs apart, key i of two requests is equal if and only if their seeds, their first i + 1 blocks of tokens and their cache salts are |
| `PrefixLookup.TotalsMean` | internal/serving/kvcache/kvcache_impl.go:150-167 | the token total is the length of all prompts joined, and the block total counts whole blocks per prompt, at most one partial block short for each |
| `PrefixLookup.AddScores` | internal/serving/kvcache/vllm_index_impl.go:118-124 | each scored Pod is added once to its own backend and every other backend keeps its count |
| `PrefixLookup.MatchWithinPrompt` | internal/serving/kvcache/kvcache_impl.go:218-229 | for every query and any index changes during the lookup, a Valid match reports at most all tokens, summed over prompts with floor-divided blocks |
| `PrefixLookup.GateDependsOnValidityOnly` | internal/serving/routing/routing.go:249-262 | on matches the lookup produced, UsableFor is open if and only if the prompt and the candidates are not empty and every match is Valid: its range test cannot fail |
| `PrefixLookup.MeasureQuery` | internal/serving/kvcache/kvcache_impl.go:157-166 | refused exactly when all prompts together exceed the token limit, whatever their number |
| `PrefixLookup.ValidateQuery` | internal/serving/kvcache/kvcache_impl.go:150-167 | invalid exactly without a model, prompts or distinct named backends; over capacity exactly when the salt or all prompts together are too long; otherwise measured |
| `StaticEstimator.EstimateIsMonotone` | internal/serving/prediction/static_estimator_impl.go:31-106 | for every profile that passes validation the exact estimate never rises with more cached tokens, never falls with a longer prompt and never falls with more load, through segment boundaries, floor division and rounding |
| `StaticEstimator.EstimateTTFT` | internal/serving/prediction/static_estimator_impl.go:31-106 | Valid exactly for in-range inputs whose exact sum lies in (0, MaxInt64], and then equal to prefill, margin and the weighted queue, running and local terms, or the local fallback without valid load; every answer, refusals included, has its reason and its confidence; the basis-point product never overflows |
| `StaticEstimator.PrefillMonotone` | internal/serving/prediction/static_estimator_impl.go:118-124 | the doubly interpolated prefill grows with the prompt and shrinks with the cache ratio over any validated grid |
| `StaticEstimator.PiecewiseMonotone` | internal/serving/prediction/static_estimator_impl.go:126-144 | rounded interpolation between breakpoints moves with its table across all segment boundaries, upwards or downwards |
| `StaticEstimator.Interpolate` | internal/serving/prediction/static_estimator_impl.go:138-144 | the result is the straight line between the two points rounded to the nearest unit, halves upwards, and stays between the two end values |
| `StaticEstimator.PiecewiseAtBreakpoint` | internal/serving/prediction/static_estimator_impl.go:126-144 | at every breakpoint the interpolation is the table's own value |
| `StaticEstimator.PrefillAtGridPoint` | internal/serving/prediction/static_estimator_impl.go:118-124 | at every grid point the prefill is the calibrated cell of that prompt and ratio |
| `StaticEstimator.CacheRatio` | internal/serving/prediction/static_estimator_impl.go:31-106 | the cached share in basis points, rounded down |
| `StaticEstimator.Bracket` | internal/serving/prediction/static_estimator_impl.go:126-136 | adjacent breakpoints around the target, or one end point exactly when the target is at or beyond it |
| `StaticEstimator.InterpolateGrid` | internal/serving/prediction/static_estimator_impl.go:118-124 | interpolating two cells along the prompt and then along the ratio equals the piecewise function over the whole grid |
| `StaticEstimator.CacheRatioMonotone` | internal/serving/prediction/static_estimator_impl.go:31-106 | the floor-divided basis-point ratio never rises when the prompt grows or the cached count falls |
| `StaticEstimator.MultiplyIsExact` | internal/serving/prediction/static_estimator_impl.go:146-154 | the guarded product succeeds exactly when the unbounded product fits and then equals it |
| `StaticEstimator.AddLoad` | internal/serving/prediction/static_estimator_impl.go:70-106 | the stepwise load sum succeeds exactly when the unbounded total fits and then equals it, in whatever order a step overflows |
| `RidgeFit.DescentNeverRaisesLoss` | internal/serving/prediction/prediction_impl.go:201-241 | for any sample list and any two pass counts, the coefficients stay in their boxes and more passes never have a larger ridge loss |
| `RidgeFit.FixedPointIsOptimal` | internal/serving/prediction/prediction_impl.go:225-239 | for any sample list, coefficients that a whole pass leaves unchanged have the smallest ridge loss of all coefficients in the box |
| `RidgeFit.DescentAtRestIsOptimal` | internal/serving/prediction/prediction_impl.go:225-239 | a descent whose next pass would change nothing has reached that smallest loss |
| `RidgeFit.DescentImproves` | internal/serving/prediction/prediction_impl.go:225-239 | any positive number of passes has a strictly smaller loss than zero coefficients, unless these have the smallest loss in the box |
| `RidgeFit.StepIsStrict` | internal/serving/prediction/prediction_impl.go:225-239 | a coordinate update that changes anything lowers the loss strictly |
| `RidgeFit.LossIsObjective` | internal/serving/prediction/prediction_impl.go:201-247 | the loss over the accumulated rows is the sum over usable samples of the squared difference of constant, uncached, queue, running and in-flight terms from the TTFT in milliseconds, plus the ridge on the last four |
| `RidgeFit.StepIsCoordinateOptimal` | internal/serving/prediction/prediction_impl.go:225-239 | a coordinate update is the box's best value of that coordinate for the least-squares objective |
| `RidgeFit.LossAlongCoordinate` | internal/serving/prediction/prediction_impl.go:201-241 | along one coordinate the objective is the quadratic whose coefficients are the accumulated diagonal and the residual of the normal equations |
| `RidgeFit.Accumulate` | internal/serving/prediction/prediction_impl.go:201-219 | the in-place sums equal the normal matrix and right-hand side of the usable samples |
| `RidgeFit.Descend` | internal/serving/prediction/prediction_impl.go:225-239 | one in-place coordinate update computes the specified clamped step |
| `RidgeFit.Fit` | internal/serving/prediction/prediction_impl.go:201-241 | refused exactly below the minimum of usable samples; otherwise the coefficients after 64 passes, each in its box; no earlier pass has a smaller ridge objective over the samples, and it is strictly below that of zero coefficients unless these are the best in the box |
| `Leases.InflightIsOpenLeases` | internal/serving/requestpath/requestpath_state_impl.go:47-132 | over every run of reservations, settlements and membership changes each backend's counter, 0 if absent, equals its number of open leases |
| `Leases.CountersMatchLeases` | internal/serving/requestpath/requestpath_state_impl.go:100-132 | at the finest interleaving every counter object equals the open leases holding it, and the Service backend is never removed or recorded in the circuit |
| `Leases.RecordsCountOutcomes` | internal/serving/requestpath/requestpath_state_impl.go:85-98 | over every fine run the circuit of a backend is told of a failure once for each of its leases settled by a transport failure, a deadline or a broken upstream stream, of a success once for each completed response, and of nothing else |
| `Leases.ReportIsExactIffNoOrphan` | internal/serving/requestpath/requestpath_state_impl.go:100-132 | in any such state a backend's reported count is exact if and only if no open lease holds an unpublished counter |
| `Leases.OrphanedReservation` | internal/serving/requestpath/requestpath_impl.go:106-108 | a concrete interleaving between looking a counter up and incrementing it after which an open lease is not reported |
| `Leases.OrphanAnnouncedAsRemoved` | internal/serving/requestpath/requestpath_state_impl.go:66-79 | the same run two steps later: a membership change announces the backend as removed while that lease is open |
| `Leases.ReportsStayExactIff` | internal/serving/requestpath/requestpath_state_impl.go:47-132 | over every fine run, every report is exact in every state if and only if each increment finds its counter still published and each settlement that drops a counter finds it still zero |
| `Leases.StepKeepsExactIff` | internal/serving/requestpath/requestpath_state_impl.go:47-132 | one step of any interleaving keeps every report exact if and only if its guard holds |
| `Leases.GuardedRemovalsAreIdle` | internal/serving/requestpath/requestpath_state_impl.go:47-132 | in every fine run under those guards each announced removal, by settlement or by membership change, is of a non-member without open leases |
| `Leases.RemovalOnlyWhenIdle` | internal/serving/requestpath/requestpath_state_impl.go:47-132 | a removal is announced only for a non-member without open leases and never for the Service backend |
| `Leases.DepartedIdleIsForgotten` | internal/serving/requestpath/requestpath_state_impl.go:47-132 | over every run of whole steps a counter is kept only for members and for backends with open leases |
| `Leases.AnnouncedIsIdleIff` | internal/serving/requestpath/requestpath_state_impl.go:66-132 | in every fine state, whatever step announces a removal, the backend is a non-member, and idle if and only if its published counter is zero and none of its leases is orphaned |
| `Leases.RemovedWhileLeased` | internal/serving/requestpath/requestpath_state_impl.go:116-132 | a concrete run from the start in which a late settlement announces a backend with an open lease as removed |
| `Leases.CompleteIsIdempotent` | internal/serving/requestpath/requestpath.go:198-206 | completing a lease again, with any outcome, changes nothing |
| `Leases.LeaseService.ReserveLease` | internal/serving/requestpath/requestpath_impl.go:106-112 | a reservation opens one lease, raises its backend's report by one and keeps the accounting invariant |
| `Leases.LeaseService.CompleteLease` | internal/serving/requestpath/requestpath_state_impl.go:85-98 | settlement makes exactly the specified transition, circuit record and removal included, and keeps the accounting invariant; a repeated call changes nothing and repeats the first answer |
| `Leases.LeaseService.ReleaseBackend` | internal/serving/requestpath/requestpath_state_impl.go:116-132 | one decrement; the counter is dropped exactly when it reached zero, the backend is inactive and the counter is still the published one |
| `Leases.LeaseService.ReconcileBackends` | internal/serving/requestpath/requestpath_state_impl.go:47-83 | the membership is the given one and the Service; exactly the counters of non-members that are zero are dropped, and announced together; keeps the accounting invariant |
| `Routing.SelectKvAware` | internal/serving/routing/kv_aware_impl.go:40-135 | rejects exactly without usable locality; otherwise returns, with its reason and policy, the unique least backend by (TTFT, ID) or (cost, ID) over eligible, not hard-overloaded backends, and a hard-overloaded one only if all eligible ones are |
| `Routing.CostIsClampedExact` | internal/serving/routing/kv_aware_impl.go:147-180 | the saturating cost equals the unbounded cost clamped at MaxInt64, for all loads, penalties and in-range matches |
| `Routing.SaturationKeepsOrder` | internal/serving/routing/kv_aware_impl.go:147-180 | overflow never inverts an ordering of two backends |
| `Routing.WinnerIsCheapest` | internal/serving/routing/kv_aware_impl.go:66-92 | no candidate the winner beat is strictly cheaper in unbounded arithmetic unless both are at the ceiling |
| `Routing.MultiplySaturates` | internal/serving/routing/kv_aware_impl.go:163-171 | the guarded product is the exact product clamped at MaxInt64 |
| `Routing.HardOverloadIsLastResort` | internal/serving/routing/load_balanced_impl.go:57-69 | a hard-overloaded backend is a candidate only if every eligible backend is |
| `Routing.CandidatesMean` | internal/serving/routing/load_balanced_impl.go:57-69 | the candidates are the members without an open circuit, and hard-overloaded ones among them only if all are |
| `Routing.GatesMean` | internal/serving/routing/routing.go:249-262 | locality is usable if and only if every candidate has a valid match within the prompt; the static estimate if and only if every one has a valid, positive, versioned and calibrated estimate |
| `Routing.SelectLoadBalanced` | internal/serving/routing/load_balanced_impl.go:28-53 | the ring scan returns the least (in-flight, ID) candidate from any starting point; no candidate has fewer in flight |
| `Routing.SelectLoadAware` | internal/serving/routing/load_aware_impl.go:18-51 | the unique least backend, by queue, then running, local delta, in-flight and ID, when every load is valid; the load-balanced choice otherwise |
| `Routing.ChoiceIgnoresKeyAndOrder` | internal/serving/routing/load_balanced_impl.go:28-91 | two load-balanced choices over the same members agree whatever the routing keys and the list orders |
| `Routing.Burst` | internal/serving/requestpath/requestpath_impl.go:86-108 | with fixed membership and no exclusions any number of back-to-back reservations keeps every two counts within one of each other, and each count grows by its picks |
| `Routing.LeastLoaded` | internal/serving/routing/session_key_impl.go:202-253 | the unique least eligible backend by queue when all queues are known, in-flight, favoured ID and ID |
| `Routing.Eligible` | internal/serving/routing/routing.go:326-334 | exactly the members without an open circuit |
| `Selection.LeastAround` | internal/serving/routing/load_balanced_impl.go:37-46 | a strict-less scan around a ring finds the least element of any total order |
| `Selection.NewcomerOrWinner` | internal/serving/routing/session_key_impl.go:257-267 | a newcomer takes over exactly when it beats the old winner |
| `Selection.IdLessMeans` | internal/serving/routing/load_balanced_impl.go:71-91 | IDs compare as strings do: a proper prefix first, else the first difference decides |
| `SessionKey.StickyBinding` | internal/serving/routing/session_key_impl.go:55-198 | over any run a key reused within its TTL, not evicted and whose backend stays a member keeps its preferred backend through every spillover |
| `SessionKey.FineStickyBinding` | internal/serving/routing/session_key_impl.go:55-164 | at the finest interleaving of Selects: if the requests for a key under way carry its backend, every interleaving that leaves the key bound keeps the backend, and every later request carries it |
| `SessionKey.StickyIffAllCarry` | internal/serving/routing/session_key_impl.go:55-164 | exact condition over runs: a bound key keeps its backend in every interleaving that leaves it bound if and only if every request for it under way carries that backend |
| `SessionKey.SerialSelectsNeverMove` | internal/serving/requestpath/requestpath_impl.go:86-108 | with one Select at a time, as behind the gateway's selection lock, and membership changes anywhere, no step of any run moves a binding to another backend |
| `SessionKey.FineStepKeepsBindingIff` | internal/serving/routing/session_key_impl.go:116-144 | a critical section that leaves a key bound keeps its backend if and only if it is not the write of a request that worked out another backend before |
| `SessionKey.StaleRefreshMovesBinding` | internal/serving/routing/session_key_impl.go:71-91 | for every key, a run in which a paused request's refresh takes a key bound to a member back to a backend that has left |
| `SessionKey.FineTableStaysBounded` | internal/serving/routing/session_key_impl.go:116-164 | the table never exceeds MaxEntries however requests interleave between their critical sections |
| `SessionKey.SelectIsFine` | internal/serving/routing/session_key_impl.go:55-96 | a Select that nobody interrupts is a run of those critical sections |
| `SessionKey.TableStaysBounded` | internal/serving/routing/session_key_impl.go:136-164 | over any run the table never exceeds MaxEntries |
| `SessionKey.OnlyEarliestIsEvicted` | internal/serving/routing/session_key_impl.go:148-164 | a live entry is lost only when MaxEntries live ones are present, only one is, it expires no later than the others, and entries that stay are unchanged |
| `SessionKey.Rendezvous` | internal/serving/routing/session_key_impl.go:257-267 | the scan returns the unique backend with the highest score, ties going to the smaller ID |
| `SessionKey.RendezvousIgnoresOrder` | internal/serving/routing/session_key_impl.go:257-267 | the rendezvous choice does not depend on the list order |
| `SessionKey.RendezvousMovesLittle` | internal/serving/routing/session_key_impl.go:257-267 | removing a non-winner never moves a key; adding a backend moves it to the newcomer or not at all |
| `SessionKey.SelectWithinBounds` | internal/serving/routing/session_key_impl.go:169-198 | the chosen backend is eligible; it is the preferred one exactly while that is unblocked and within both bounds of the least loaded, which is taken otherwise; the reason is the circuit before the queue bound before the in-flight bound |
| `SessionKey.Strategy.SelectBackend` | internal/serving/routing/session_key_impl.go:55-96 | refuses exactly without eligible backends, chooses an eligible one, spills a keyed request only to the least loaded backend and for the right reason, reports a hit exactly for a live binding, and moves the table by the specified recall, bind and refresh steps; a request without a key leaves the table alone |
| `SessionKey.Strategy.CollectOrEvictOldest` | internal/serving/routing/session_key_impl.go:148-164 | removes exactly the expired entries and, if still full, one that expires first |
| `SessionKey.Strategy.Preferred` | internal/serving/routing/session_key_impl.go:116-132 | a hit exactly for an unexpired binding to a current member; any other binding of the key is dropped |
| `SessionKey.Strategy.Remember` | internal/serving/routing/session_key_impl.go:136-144 | binds the key for a full TTL, making room only for a new key in a full table |
| `SessionKey.Strategy.ReconcileBackends` | internal/serving/routing/session_key_impl.go:100-112 | keeps exactly the entries of current members |
| `Admission.PermitsAreConserved` | internal/serving/admission/admission_impl.go:32-91 | over every run in-flight equals the unreleased permits and never exceeds the hard limit, and the target stays in [1, hard limit] |
| `Admission.ReleaseIsIdempotent` | internal/serving/admission/admission_impl.go:85-91 | releasing an unreleased permit finds the channel occupied, and releasing again changes nothing |
| `Admission.Run` | internal/serving/admission/tuning_impl.go:68-135 | over every signal sequence the target stays in [1, hard limit] |
| `Admission.TargetStaysInBand` | internal/serving/admission/tuning_impl.go:68-135 | once in [MinTarget, MaxTarget] the target stays there and moves by at most Step |
| `Admission.UpdateNeverFails` | internal/serving/admission/tuning_impl.go:123-131 | over every signal sequence, in the band or not, a failed target update is unreachable |
| `Admission.TargetMovesForCause` | internal/serving/admission/tuning_impl.go:96-133 | in the band only a hard rejection lowers the target and only an admitting, rejection-free sample at or below the low watermark raises it; an observing tuner never moves it |
| `Admission.TargetMovesExactly` | internal/serving/admission/tuning_impl.go:96-133 | the new target, reason and cooling of every tick as a table: off cooldown an active tuner moves to exactly max(MinTarget, target - Step) on a hard rejection and min(MaxTarget, target + Step) on underuse, and nowhere else |
| `Admission.SampleCountsIff` | internal/serving/admission/tuning_impl.go:76-88 | a sample counts if and only if it is dated, not stale, whose rejection kinds do not exceed all rejections in wrapping 64-bit arithmetic, and no total has gone back |
| `Admission.ChangesRespectCooldown` | internal/serving/admission/tuning_impl.go:118-134 | any two applied changes of a run are at least Cooldown apart |
| `Admission.DeltasTelescope` | internal/serving/admission/tuning_impl.go:76-95 | over any mix of accepted, stale, malformed and reset samples the reported deltas add up to the last accepted totals minus the first |
| `Admission.DeltasNeverNegative` | internal/serving/admission/tuning_impl.go:76-95 | no reported delta of a run is negative |
| `Admission.OverloadNeverRaisesTarget` | internal/serving/admission/tuning_impl.go:96-133 | over any run of requests and samples of one gateway, from any initial target, a sample judged overloaded never raises the target |
| `Admission.MovesPointTheRightWay` | internal/serving/admission/tuning_impl.go:96-133 | after any such run an applied change answers overload by a lower target, and underutilization by a higher one if and only if the target was below MaxTarget |
| `Admission.IdleGatewayLowersTarget` | internal/serving/admission/tuning_impl.go:113-133 | a run of one served request, on signals the gateway really shows, in which an idle gateway started above MaxTarget is found underutilized and its target lowered |
| `Admission.UnderuseLowersIff` | internal/serving/admission/tuning_impl.go:113-133 | such a run exists if and only if the tuner is active and the gateway starts above MaxTarget |
| `Admission.GatewayRun` | internal/serving/admission/admission_impl.go:32-91 | over every run of requests and samples the permit accounting holds and, while the target is below MinTarget, no request was ever refused at the hard limit |
| `Admission.Controller.TryAcquirePermit` | internal/serving/admission/admission_impl.go:32-47 | admits exactly below both limits, with the right refusal otherwise, and keeps the permit count |
| `Admission.Controller.ReleasePermit` | internal/serving/admission/admission_impl.go:85-91 | gives back exactly one place for an unreleased permit and none for a released one, and keeps the permit count |
| `Admission.TuningLoop.TuneOnce` | internal/serving/admission/tuning_impl.go:68-135 | one in-place tick makes exactly the specified transition on the controller's target and never fails to update it |
| `Circuit.EwmaStaysInUnit` | internal/serving/circuit/circuit_impl.go:36-81 | for every history of outcomes, queries and removals the error rate stays in [0, 1] |
| `Circuit.FailuresShrinkGap` | internal/serving/circuit/circuit_impl.go:36-65 | n consecutive failures without a reset shrink 1 - EWMA by exactly (1 - alpha)^n |
| `Circuit.SuccessesShrinkRate` | internal/serving/circuit/circuit_impl.go:36-65 | n consecutive successes without a reset shrink the EWMA by exactly (1 - alpha)^n and open nothing |
| `Circuit.AllFailuresOpenAtMinimum` | internal/serving/circuit/circuit_impl.go:36-65 | an all-failure window has rate 1 and opens exactly at sample MinimumRequests |
| `Circuit.OpenMeansRecentFailure` | internal/serving/circuit/circuit_impl.go:36-81 | a circuit is open at t only if a failure was recorded within the preceding OpenDuration |
| `Circuit.Breaker.RecordOutcome` | internal/serving/circuit/circuit_impl.go:36-65 | the in-place update makes exactly the specified transition of one circuit and of no other, and opens exactly on a failure at or above the threshold with enough samples |
| `Circuit.Breaker.IsOpen` | internal/serving/circuit/circuit_impl.go:67-81 | answers from the open deadline and resets exactly an expired circuit |
| `Circuit.Breaker.Reconcile` | internal/serving/circuit/circuit_impl.go:83-100 | drops and reports exactly the circuits of non-members |
| `SseDetector.DetectionIgnoresChunking` | internal/serving/gateway/proxy_impl.go:446-463 | for any split of any byte stream Feed returns true for a chunk if and only if that chunk holds the newline ending the first non-[DONE] data line of the concatenated stream |
| `SseDetector.DetectedAtMostOnce` | internal/serving/gateway/proxy_impl.go:446-463 | Feed returns true for at most one chunk |
| `SseDetector.FeedConsumes` | internal/serving/gateway/proxy_impl.go:446-463 | after any prefix the detector holds exactly the unfinished line of the whole stream, or has already fired |
| `SseDetector.EventLineIs` | internal/serving/gateway/proxy_impl.go:446-463 | an event line, trimmed, begins with the bytes of data: and what follows, trimmed, is not [DONE] |
| `SseDetector.TrimIs` | internal/serving/gateway/proxy_impl.go:446-463 | trimming takes whole white-space characters from both ends and nothing else, and leaves none |
| `SseDetector.SpacesAreUtf8` | internal/serving/gateway/proxy_impl.go:446-463 | the byte tests recognise exactly the UTF-8 encodings of the Unicode white-space characters |
| `SseDetector.TrailingIsLeading` | internal/serving/gateway/proxy_impl.go:446-463 | the last bytes are trimmed as a white-space character exactly if they are one by themselves |
| `SseDetector.LineIs` | internal/serving/gateway/proxy_impl.go:446-463 | a line runs from after the last line feed to the next one |
| `SseDetector.StreamDetector.FeedChunk` | internal/serving/gateway/proxy_impl.go:446-463 | the in-place byte loop equals the specified detector step |

## Left out

- The upstream index, hash, msgpack decoding and scorer, and LRU eviction inside the bounded index: foreign code, abstract as above.
- PrefixLookup.EarlyStopAgrees: equality is stated for repeated keys that read the same; RepeatedKeyLosesRead shows that it can fail otherwise, and ScoreBetween bounds the score always.
- PrefixLookup.ValidateQuery: lengths are those of the strings given; a salt stands for its bytes.
- StreamLifecycle.ValidateInstances: which strings are absolute tcp endpoints is a parameter; URL parsing is not modelled.
- LookupMeaning.ValidMatchMeansGeneration: that a stream's entries in the shared index are the index of its own protocol run is a hypothesis; the two step systems run side by side, not in one state.
- EventStreams.EventStream.AcceptEvent: event counters, the last error text and observer callbacks are left out.
- EventStreams.EventStream.ReplayOnce: the method is the replay thread's own program order; live events between its steps are in Interleave.
- StaticEstimator.EstimateTTFT: float64 rounding of the interpolation weight is replaced by exact rationals, so results of the program may differ in the last unit.
- RidgeFit.Fit: float64 rounding is replaced by reals; the refit cadence, sample pruning and shadow comparison of the tracker are left out.
- SessionKey.Strategy.SelectBackend: the method is one request's own program order; other requests between its steps are in the fine steps.
- SessionKey.StickyBinding: treats each Select as one step; FineStickyBinding is the form for interleaved Selects.
- Leases.LeaseService.CompleteLease: the circuit's two answers in the Completion and the prediction ticket are left out.
- Admission.MovesPointTheRightWay: a sample's hard total is one the counter has shown by then, and its other fields are arbitrary; two gateways sharing counters are left out.
- Selection orchestration (tokenization, KV status, load fallbacks, hard-overload thresholds, snapshot building): wide branching over the strategies modelled here, with easy claims only.
- Round-robin routing, service fallback, State and metrics snapshots: would only add easy members.
- Sockets, HTTP proxying, transport pools, Kubernetes discovery, configuration, benchmarks and charts: input and output.
- Liveness: timers, tickers, reconnect delays and fairness of threads; only safety is stated.

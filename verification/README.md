# Verified model of the payment-lending pipeline

A Dafny model of the deciding parts of a pipeline that watches payments, prices
bridge loans and offers them, with proofs of what those parts promise. One
module per component:

| module | models |
|---|---|
| `IsotonicCalibration`, `CalibrationError` | pool-adjacent-violators calibration and the expected calibration error |
| `RocAuc`, `F2Threshold` | ranking quality and the choice of the decision threshold |
| `TokenBucket`, `FixedWindow` | the two rate limiters, over runs |
| `UetrTracker`, `RetryRuns` | retry detection, and exactly what it blocks over a run |
| `PaymentStates`, `AmlGate`, `OfferDesk`, `ExecutionAgent`, `Pipeline`, `Outcomes`, `ParallelChecks` | the payment lifecycle, the AML checker's log, offer delivery, the agent C7, one pipeline call, what its caller is told, and its two check threads |
| `PipelineRuns`, `LoanRuns`, `Funding`, `AgentFunding` | runs of calls and acceptances: how often a payment is answered, where loans and velocity entries come from, and what the agent lends on |
| `VelocityWindow`, `CapRuns` | the rolling velocity window, and what a run does to its cap |
| `PaymentGraph`, `GraphSnapshot`, `GraphQueries`, `CurrencyHhi` | the incremental payment graph, its snapshots, and what is read off it |
| `Fees` | fee derivation, rounding, floors, royalties, cascade pricing |
| `LeaveOneOut` | leave-one-out statistics of synthetic records |
| `ReportCache` | the bounded report cache with a time to live |
| `RealSums`, `StableOrder`, `Dictionaries`, `IndexSets`, `Options`, `Lockstep` | finite sums, stable sorting, insertion-ordered keys, sizes of index sets, optional values, runs that make the same steps |

Code that changes state is a class or a loop, proved against a function of its
inputs or its old state; the properties are then proved about that function,
over all inputs or all runs. Floats and decimals are exact reals. Clock
readings, identifiers and the replies of the engines C1, C2, C4, C6 and C7,
including raising, are arbitrary parameters.

C7 is asked for a decision on a payment that passed the checks, and for a log
entry when a payment is blocked (lip/pipeline.py:335, 462, 491, 515). In `Pipeline`
its replies are arbitrary in both, and it may hand an offer to the desk on the way
to either. Results that need more name it: `LoggedByAgent` and `AgentRuns` say that
the replies are those of the agent modelled in `ExecutionAgent`.

Where code and documentation disagree the model follows the code, and a lemma
says exactly how:

- predictions of exactly 1 are in no calibration bin (`BinnedOnce`);
- a negative amount matches every amount (`ToleranceMeaning`);
- a payment parked for review is blocked on re-submission exactly until the
  retry TTL is over, whatever the reviewer decided (`ReentryAfterReview`);
- velocity is recorded not only on acceptance: a recording checker counts every
  payment it passes (`VelocityIsAcceptancesIff`, `FundedOfferCountedTwice`);
- an offer can be funded although its call did not report it: with SYSTEM_ERROR
  when C7 raises after handing it over (`SystemErrorCanBeFunded`), and at a blocked
  gate when C7 hands one over instead of logging (`SilentHandoverIff`,
  `AmlBlockedCanBeFunded`); the agent never does the latter (`AgentLogsOnly`);
- COMPLIANCE_HOLD is kept apart from declines for compliance holds, but with the
  agent it is never returned: codes that mean a hold end as DISPUTE_BLOCKED before
  C1 (`AgentOutcomes`);
- counting a payment twice can break the velocity cap (`CapKeptIff`,
  `FundedOfferBreaksCap`);
- the absolute fee floor misses positive fees below half a cent
  (`FloorReachesFee`); no offer of the agent has one (`AgentOfferIsViable`);
- the fit depends on the order of points with equal scores (`TiesDependOnOrder`);
- the failure streak shows a record its own label (`OwnLabelInStreak`).

`dafny verify dfyconfig.toml` checks the whole project.

## Model

| member | source | states |
|---|---|---|
| IsotonicCalibration.LeastSquares | lip/c1_failure_classifier/calibration.py:62-81 | The fitted values rise, and every non-decreasing sequence z has squared error at least that of the fit plus its squared distance to the fit. |
| IsotonicCalibration.UniqueOptimum | lip/c1_failure_classifier/calibration.py:62-81 | A non-decreasing sequence does no worse than the fit if and only if it is the fit. |
| IsotonicCalibration.BeatsEveryMonotoneRule | lip/c1_failure_classifier/calibration.py:44-81 | Over the sorted data, no non-decreasing function of the score comes closer to the labels than the fit. |
| IsotonicCalibration.MergePools | lip/c1_failure_classifier/calibration.py:72-78 | Merging a violating pair keeps the stack invariant: every proper prefix of a block has a mean above that of the block. |
| IsotonicCalibration.SettlePartitions | lip/c1_failure_classifier/calibration.py:72-78 | The inner pooling loop turns a partition whose means rise up to the top block into one whose means all rise. |
| IsotonicCalibration.PavaPartitions | lip/c1_failure_classifier/calibration.py:69-78 | After any number of points the stack splits them into contiguous runs, with exact label sums, counts and mean scores, and rising means. |
| IsotonicCalibration.OnlyStack | lip/c1_failure_classifier/calibration.py:69-78 | The stack is the only way to split the points into runs of rising means none of which has a proper prefix with a mean as low as its own: knots and levels do not depend on how pairs are pooled. |
| IsotonicCalibration.NoLongerBlock | lip/c1_failure_classifier/calibration.py:69-78 | Of two such stacks neither has the longer last block. |
| IsotonicCalibration.TailBelow | lip/c1_failure_classifier/calibration.py:69-78 | From any point on, the labels do not sum above the last mean. |
| IsotonicCalibration.PavaConserves | lip/c1_failure_classifier/calibration.py:69-78 | Pooling loses no point and no label mass. |
| IsotonicCalibration.BlockGap | lip/c1_failure_classifier/calibration.py:72-78 | Summation by parts: over one pooled run no rising z gains on the run's mean. |
| IsotonicCalibration.MergeTop | lip/c1_failure_classifier/calibration.py:72-78 | Pooling the two top blocks of a partition leaves a partition. |
| IsotonicCalibration.PartitionGap | lip/c1_failure_classifier/calibration.py:69-78 | Any partition into pooled runs is within the Pythagorean gap, rising or not. |
| IsotonicCalibration.KnotsRise | lip/c1_failure_classifier/calibration.py:77 | Knots lie inside the range of scores, in rising order. |
| IsotonicCalibration.PavaShape | lip/c1_failure_classifier/calibration.py:80-81 | Knots and levels both rise, and there are none exactly when there is no data. |
| IsotonicCalibration.LevelsAreProbabilities | lip/c1_failure_classifier/calibration.py:81-121 | Labels in [0,1] give levels in [0,1], where the final clip changes nothing. |
| IsotonicCalibration.CalibrationShape | lip/c1_failure_classifier/calibration.py:80-82 | Whatever was fitted, knots and levels are equally many, at most one per score, and rise. |
| IsotonicCalibration.PredictMonotone | lip/c1_failure_classifier/calibration.py:111-121 | Calibration is a non-decreasing function of the score with values in [0,1]. |
| IsotonicCalibration.PredictionByRank | lip/c1_failure_classifier/calibration.py:111-121 | For any score: with n knots at or below it the n-th level, up to the first knot the first level, clipped to [0,1]. |
| IsotonicCalibration.PredictBetweenKnots | lip/c1_failure_classifier/calibration.py:116-119 | A score between two knots gets the level of the left one. |
| IsotonicCalibration.TrainingPointLevel | lip/c1_failure_classifier/calibration.py:62-119 | A training score gets the first level up to the first knot; beyond it the mean of the last block it occurs in if it is at or right of that block's knot, and otherwise the mean of the block before. |
| IsotonicCalibration.PermutedDataSameFit | lip/c1_failure_classifier/calibration.py:62-81 | Permuting the data keeps knots and levels if points with equal scores have equal labels. |
| IsotonicCalibration.TiesDependOnOrder | lip/c1_failure_classifier/calibration.py:62-81 | Otherwise it need not: scores 0.5 and 0.5 with labels 0, 1 give two blocks at one knot, with labels 1, 0 one block. |
| IsotonicCalibration.AnyStableSort | lip/c1_failure_classifier/calibration.py:62-81 | Every stable sort of the scores leads to the same knots and levels. |
| IsotonicCalibration.SearchSortedRight | lip/c1_failure_classifier/calibration.py:118 | The binary search returns the number of knots at or below the score. |
| IsotonicCalibration.SearchIsScan | lip/c1_failure_classifier/calibration.py:118-119 | Past the first knot, that position is the one a linear scan for the last knot not above the score finds. |
| IsotonicCalibration.PoolAdjacent | lip/c1_failure_classifier/calibration.py:68-78 | The push-and-pool loop builds exactly the specified stack, with (points - blocks) merges in total. |
| IsotonicCalibration.IsotonicCalibrator.constructor | lip/c1_failure_classifier/calibration.py:39-42 | A new calibrator is not fitted. |
| IsotonicCalibration.IsotonicCalibrator.Fit | lip/c1_failure_classifier/calibration.py:59-85 | Fitting stores the knots and levels of the pooled sorted data; too few labels fail and leave the calibrator untouched. |
| IsotonicCalibration.IsotonicCalibrator.Predict | lip/c1_failure_classifier/calibration.py:105-121 | Refuses when unfitted, fails on an empty fit, and otherwise looks every score up independently, in order. |
| StableOrder.StableOrderUnique | lip/c1_failure_classifier/calibration.py:62 | There is only one stable ascending order of given scores. |
| StableOrder.SortedKeysAgree | lip/c1_failure_classifier/calibration.py:62-63 | Two sorting orders read the same score at every position, whatever they do with ties. |
| CalibrationError.ComputeEce | lip/c1_failure_classifier/calibration.py:258-275 | The bin loop with its weighted bin means computes the sum over bins of the absolute net miss, divided by the number of points. |
| CalibrationError.EceIsNetMiss | lip/c1_failure_classifier/calibration.py:258-275 | ECE times the number of points is the sum, over the bins, of the absolute sum of prediction minus label over the predictions with that whole part of bins times prediction. |
| CalibrationError.BinnedOnce | lip/c1_failure_classifier/calibration.py:262-266 | A prediction is in some bin if and only if it is in [0,1), and never in two. |
| CalibrationError.EceAtMostMeanMiss | lip/c1_failure_classifier/calibration.py:229-275 | ECE never exceeds the mean absolute difference of prediction and label, for any predictions. |
| CalibrationError.BinsOfTheirOwn | lip/c1_failure_classifier/calibration.py:258-275 | That bound is met when no two predictions share a bin. |
| CalibrationError.EceAtLeastMeanGap | lip/c1_failure_classifier/calibration.py:229-275 | With predictions in [0,1), ECE is at least the difference of the two means. |
| CalibrationError.RefiningRaisesEce | lip/c1_failure_classifier/calibration.py:262-272 | Splitting every bin into equal parts never lowers ECE. |
| CalibrationError.NetWithinTotal | lip/c1_failure_classifier/calibration.py:265-272 | Over any run of bins the net miss is within the total of the bins' misses. |
| CalibrationError.PredictionOfOneIsFree | lip/c1_failure_classifier/calibration.py:266 | A prediction of exactly 1 costs nothing, whatever the label, although the documentation bins all of [0,1]. |
| F2Threshold.SelectF2Threshold | lip/c1_failure_classifier/model.py:448-467 | The returned score has the largest F2 among all real thresholds and is the smallest observed score attaining it; 0.5 for no scores. If every failure scores above everything else, it is the smallest score of a failure. |
| F2Threshold.F2IsOfSets | lip/c1_failure_classifier/model.py:452-463 | F2 is 5 tp / (5 tp + 4 fn + fp), with tp, fp and fn the numbers of failures at or above the threshold, of other cases at or above it, and of failures below it; 0 without a hit. |
| F2Threshold.PerfectIffSplits | lip/c1_failure_classifier/model.py:452-463 | F2 is at most 1, and is 1 if and only if there is a failure and the threshold has every failure at or above it and every other case below. |
| F2Threshold.BestOfSeparated | lip/c1_failure_classifier/model.py:448-467 | On separated classes the smallest score with the best F2 is the smallest score of a failure. |
| F2Threshold.AnyThreshold | lip/c1_failure_classifier/model.py:451-464 | If no observed score beats a threshold, no real number does. |
| F2Threshold.SameF2 | lip/c1_failure_classifier/model.py:456-461 | F2 depends on a threshold only through the scores it lets pass. |
| F2Threshold.FScoreIsFMeasure | lip/c1_failure_classifier/model.py:434-461 | The counting formula is the F-measure of precision and recall with recall weighted twice. |
| RocAuc.AucIsShareOfWins | lip/c1_failure_classifier/training.py:39-55 | With both classes, AUC lies between the share of (positive, negative) pairs won outright and the share not lost, for every order of ties; without ties across classes it is the share won. |
| RocAuc.AreaIsRankedShare | lip/c1_failure_classifier/training.py:46-54 | The trapezoid integral is the share of all pairs in which the order puts the positive first. |
| RocAuc.AreaIsTally | lip/c1_failure_classifier/training.py:51-54 | Partial trapezoid sums are multiples of one pair's area. |
| RocAuc.TallyCountsPairs | lip/c1_failure_classifier/training.py:51-54 | The running tally is the cardinality of the set of well ranked pairs. |
| RocAuc.ClampIsIdle | lip/c1_failure_classifier/training.py:54-55 | The area is already in [0,1], so the absolute value and the clamp change nothing. |
| RocAuc.AucInvariant | lip/c1_failure_classifier/training.py:39-55 | Strictly increasing rescaling of untied scores keeps the AUC, whatever the two sort orders. |
| RocAuc.AucNegated | lip/c1_failure_classifier/training.py:39-55 | Negating untied scores turns the AUC into 1 - AUC. |
| TokenBucket.AdmissionBound | lip/api/rate_limiter.py:113-129 | In any run with a non-decreasing clock, admissions of a key in any interval [t1, t2], less rate, times period, are at most rate times (t2 - t1). |
| TokenBucket.PassesIffEarned | lip/api/rate_limiter.py:117-129 | With x tokens at t, a call at u passes if and only if rate >= 1 and x * period + rate * (u - t) >= period. |
| TokenBucket.PassesExactlyWhen | lip/api/rate_limiter.py:117-129 | The same for the bucket of a known key, which then has one token less if it passed, and never more than rate. |
| TokenBucket.NewKeyPasses | lip/api/rate_limiter.py:117-127 | A key never seen has rate tokens. |
| TokenBucket.BurstTakesLevel | lip/api/rate_limiter.py:113-129 | Of calls at one instant exactly those pass for which the bucket holds a whole token. |
| TokenBucket.BurstIsRate | lip/api/rate_limiter.py:113-129 | A key that is new, or has been idle for a period, gets exactly rate of any number of calls at one instant. |
| TokenBucket.DeletingDenialChangesNothing | lip/api/rate_limiter.py:113-129 | Deleting a denied call from anywhere in a run changes no other decision, so lazy refill behaves as continuous refill. |
| TokenBucket.DeniedCallInvisible | lip/api/rate_limiter.py:127-129 | The write-back of a denied call is invisible to every later call. |
| TokenBucket.KeysIndependent | lip/api/rate_limiter.py:117-128 | A key is answered as if the calls on all other keys had not happened. |
| TokenBucket.RunKeepsTokensInRange | lip/api/rate_limiter.py:119-128 | In every reachable state every bucket holds between 0 and rate tokens. |
| TokenBucket.RemainingForetells | lip/api/rate_limiter.py:113-141 | remaining is at least 1 if and only if a check at that instant passes, which then reports one less. |
| TokenBucket.PacedNeverDenied | lip/api/rate_limiter.py:113-129 | With rate at least 1, a caller whose requests are period/rate apart is never denied, whatever other keys do. |
| TokenBucket.TokenBucketRateLimiter.CheckMemory | lip/api/rate_limiter.py:113-129 | Decision and new buckets of one check: a known key passes if and only if its tokens times period plus rate times the time since make a period; a new one if the rate allows any. |
| TokenBucket.TokenBucketRateLimiter.Remaining | lip/api/rate_limiter.py:131-141 | The largest number of tokens that are saved and fit the bucket, rate for a new key; nothing is changed. |
| TokenBucket.RemainingIsWhole | lip/api/rate_limiter.py:131-141 | That number, in tokens times period plus rate times the time since. |
| FixedWindow.AllowedIffFewEarlier | lip/api/rate_limiter.py:93-105 | In any interleaving of replicas a call passes if and only if fewer than rate earlier calls have its key and the same whole number of periods since the epoch; remaining is what that leaves. |
| FixedWindow.WindowQuota | lip/api/rate_limiter.py:98-104 | After any number of calls each window has admitted the lesser of its calls and rate. |
| FixedWindow.SlidingBound | lip/api/rate_limiter.py:93-105 | At most 2*rate requests are admitted in any interval of one period. |
| FixedWindow.TwoWindows | lip/api/rate_limiter.py:98 | An interval of one period touches at most two windows. |
| FixedWindow.CountersAccurate | lip/api/rate_limiter.py:98-102 | A counter, which expires a period after its first use, still equals the number of calls in its window while that window lasts. |
| FixedWindow.SharedCounters.Increment | lip/api/rate_limiter.py:100-102 | Increments the live count, a lapsed counter restarting at 1 with a new expiry. |
| FixedWindow.RedisRateLimiter.CheckRedis | lip/api/rate_limiter.py:93-105 | One replica's check advances the shared counter of the current window and decides by it. |
| UetrTracker.HeldIsRetry | lip/common/uetr_tracker.py:70-99 | A record blocks every resubmission of the same reference, or of the same parties, currency and matching amount, until its TTL is over. |
| UetrTracker.SingleRecordBlocks | lip/common/uetr_tracker.py:70-195 | From an empty tracker, one record blocks exactly its own reference for the TTL, and under another reference exactly payments with the same non-blank parties and currency and an amount that is negative or within 0.01 %. |
| UetrTracker.RecordedContentBlocks | lip/common/uetr_tracker.py:117-195 | In any tracker, recording a payment blocks the same content under any reference until the TTL is over. |
| UetrTracker.BlankBlockedByReference | lip/common/uetr_tracker.py:70-99 | A payment with a blank party or currency is blocked by its reference alone. |
| UetrTracker.OtherContentUnaffected | lip/common/uetr_tracker.py:117-195 | Where no sweep is due, recording a payment blocks no other content and reference. |
| UetrTracker.SameContentIsIndexed | lip/common/uetr_tracker.py:158-184 | The content index compares exactly: equal non-blank parties and currency, and an amount within 0.01 % of the new one, or a negative new one. |
| UetrTracker.RetryExactly | lip/common/uetr_tracker.py:70-99 | A payment is blocked if and only if its reference is known and younger than the TTL, or an entry for its content survives the sweep under another reference. |
| UetrTracker.RecordHolds | lip/common/uetr_tracker.py:117-144 | Recording enters the reference and, when complete, the payment's content. |
| UetrTracker.SweepKeeps | lip/common/uetr_tracker.py:188-217 | The periodic sweep removes no record within its TTL. |
| UetrTracker.RecordKeeps | lip/common/uetr_tracker.py:117-144 | Recording any other payment removes no record within its TTL. |
| UetrTracker.ToleranceMeaning | lip/common/uetr_tracker.py:169-184 | For a non-negative amount the tolerance test is |difference| <= 0.01 % of the new amount; a negative new amount matches every amount, against the documented tolerance. |
| UetrTracker.EveryThousandth | lip/common/uetr_tracker.py:188-217 | Every thousandth call of the tracker, and no other, forgets exactly what was recorded more than the TTL ago, and keeps the rest as it was. |
| UetrTracker.UETRTracker.CheckRetry | lip/common/uetr_tracker.py:70-99 | The loop over candidates and the two indexes answer the declarative retry question; only a due sweep changes the tracker. |
| UetrTracker.UETRTracker.RecordOutcome | lip/common/uetr_tracker.py:117-144 | Both indexes after a recording, including a due sweep. |
| UetrTracker.UETRTracker.Sweep | lip/common/uetr_tracker.py:188-217 | Every thousandth call, exactly the expired entries go, and with them empty rows. |
| UetrTracker.UETRTracker.RegisterHandoff | lip/common/uetr_tracker.py:228-267 | Registers a parent for a recognised rail and refuses any other rail unchanged. |
| RetryRuns.BlockedExactlyWhen | lip/common/uetr_tracker.py:70-217 | In any run from an empty tracker a visit is blocked if and only if an earlier one was answered and either had the same reference less than the TTL ago, or the same content and has not been swept. |
| RetryRuns.RowsExactly | lip/common/uetr_tracker.py:117-217 | After any run the content index holds exactly the answered visits, and what was there at first, that no sweep has removed. |
| RetryRuns.RekeyedOutlivesTtl | lip/common/uetr_tracker.py:146-195 | Content under a new reference stays blocked past the TTL, for as long as the tracker has had too few calls to sweep. |
| PaymentStates.PaymentStateMachine.Transition | lip/common/state_machines.py:196-213 | A move in the table is made, any other is refused and changes nothing. |
| PaymentStates.PaidOutWasOffered | lip/common/state_machines.py:91-161 | In every legal history a paid-out state comes after an offer, and no terminal state is ever left. |
| PaymentStates.NeverMovesBack | lip/common/state_machines.py:91-161 | A legal history never returns to an earlier stage, but for a cancellation alert, which can go back to a funded loan. |
| PaymentStates.LegalWayTo | lip/common/state_machines.py:91-161 | Every state can be reached, and seven are terminal. |
| Pipeline.FirstShutGateDecides | lip/pipeline.py:287-831 | Every call is decided by exactly one gate, the first in the code's order that is closed to it; gates are local tests on the event and one engine's reply. |
| Pipeline.OfferIffAllGatesOpen | lip/pipeline.py:287-831 | A bridge is offered if and only if every gate is open: no retry, no known BLOCK code, probability at the threshold, no blocking dispute class, C6 present, passed and un-flagged, pricing done, and a C7 reply outside every hold, halt, review and decline status; no raising engine opens a gate. |
| Pipeline.ReplyTellsGate | lip/pipeline.py:287-831 | The reply tells whether the call was a retry, was answered, or offered a bridge. |
| Pipeline.OnlyOffersCarryLoan | lip/pipeline.py:636-831 | Only an offered result carries a loan offer, the one C7 made, with a parent when it is a domestic leg. |
| Pipeline.DomesticLegIffHandoff | lip/pipeline.py:300-314 | An offer is a DOMESTIC_LEG_FAILURE if and only if the event is a rejection on a handoff rail with a parent registered in the last 30 minutes. |
| Pipeline.HistoryIsLegal | lip/pipeline.py:372-793 | Every result but a blocked retry has a legal history from MONITORING to its state in at most two moves, through BRIDGE_OFFERED exactly when a bridge is offered, never paid out, and AML-blocked only after a detected failure. |
| Pipeline.ZeroMaturityIsBlock | lip/pipeline.py:1125-1205 | Zero maturity days means class BLOCK; an unknown code gets that class although it is not blocked early. |
| Pipeline.LIPPipeline.Process | lip/pipeline.py:200-385 | One call on the tracker, the AML checker and the offer desk: the reply for all engine behaviours, one record unless it was a retry or raised, the entries a recording checker writes, the offer C7 hands over when asked for a decision or for the log of a block; C3 and the risk engine are untouched. |
| Pipeline.LIPPipeline.CheckAndExecute | lip/pipeline.py:431-558 | C6 is asked, and may write, before the reply of either check is acted on; a blocked payment is logged with C7. |
| Pipeline.LIPPipeline.AskC7 | lip/pipeline.py:1077-1123 | A call of C7 may leave an offer at the desk, whatever becomes of its reply. |
| Pipeline.LIPPipeline.Execute | lip/pipeline.py:636-831 | C7 hands its offer over before the pipeline reads its reply, and the state machine moves to BRIDGE_OFFERED only for an offer. |
| Pipeline.LIPPipeline.FinalizeAcceptedOffer | lip/pipeline.py:935-1075 | Unreadable numbers or AML caps raise before any effect; otherwise the velocity entry (with its three fallbacks for each party), the C3 loan and the risk position are each written or fail on their own. |
| Outcomes.RefusedIff | lip/pipeline.py:536-752 | HALT, COMPLIANCE_HOLD and PENDING_HUMAN_REVIEW: exactly which events and replies of the engines lead to each. |
| Outcomes.DecidedIff | lip/pipeline.py:636-831 | DECLINED is returned exactly for the other refusals of C7, SYSTEM_ERROR exactly if C7 raises, and an offer exactly for an offer of C7, each for a payment that was cleared. |
| Outcomes.BlockedIff | lip/pipeline.py:326-534 | DISPUTE_BLOCKED, AML_CHECK_UNAVAILABLE and AML_BLOCKED: exactly which events and replies of C4 and C6 lead to each. |
| Outcomes.TurnedAwayIff | lip/pipeline.py:287-426 | RETRY_BLOCKED is returned exactly for retries, BELOW_THRESHOLD exactly for a new, unblocked event with a probability below the threshold. |
| Outcomes.RaisedIff | lip/pipeline.py:320-831 | Exactly when the caller gets an exception instead of a result. |
| Outcomes.AmlFlags | lip/pipeline.py:449-534 | Past C1 the result is hard-blocked exactly if C6 did not pass the payment, reports a refusal exactly if C6 refused it, and no verdict exactly if C6 gave none. |
| Outcomes.OtherFlags | lip/pipeline.py:287-831 | When each of the other flags is set, and the state a payment is left in, by outcome. |
| Outcomes.OfferIsC7s | lip/pipeline.py:636-831 | A result has a loan offer exactly if C7 returned one; for a domestic leg it names the registered parent. |
| Outcomes.WritesVelocityIff | lip/pipeline.py:431-439 | A call writes velocity entries exactly if C6 records and was asked, and passed the payment or raised after writing; which ones. |
| Outcomes.HandsOverIff | lip/pipeline.py:636-1123 | Exactly when a call leaves an offer at the desk, and with which terms, reference and parties. |
| ParallelChecks.InterleavingIsIrrelevant | lip/pipeline.py:431-439 | Any two interleavings of the C4 and C6 threads that both finish end with the same replies, latency samples and velocity log. |
| ParallelChecks.InterleavedGate | lip/pipeline.py:835-933 | Whatever the interleaving, the replies of the threads close the gate that the engines' own replies do, and the log grows as in one sequential call. |
| ExecutionAgent.AgentHandsOverIff | lip/c7_execution_agent/agent.py:220-523 | The agent hands an offer to the desk if and only if every one of its gates lets the payment through and the desk, not another router, takes it; whether the decision log works after that does not matter. |
| ExecutionAgent.AgentNeverHandsBlocked | lip/c7_execution_agent/agent.py:288-308 | A context that says AML did not pass, or names a dispute, never leads to an offer at the desk. |
| ExecutionAgent.RefusalIff | lip/c7_execution_agent/agent.py:220-415 | Each refusal of the agent is given exactly if its reason is the first: enrollment, AML or dispute, hold, probability, currency. |
| ExecutionAgent.EconomicRefusalIff | lip/c7_execution_agent/agent.py:393-480 | And then the amount against class and license, the fee against 150, and the original amount. |
| ExecutionAgent.AgentOfferIsViable | lip/c7_execution_agent/agent.py:410-647 | What is handed over is at least the smaller of the class minimum and the largest loan, at no less than the floor of its hours, with a tenor, and for a projected fee that needs no absolute floor. |
| ExecutionAgent.ExecutionAgent.ProcessPayment | lip/c7_execution_agent/agent.py:220-523 | The gates in the agent's order, on the real desk. |
| ExecutionAgent.ExecutionAgent.MakeOffer | lip/c7_execution_agent/agent.py:481-523 | The desk takes the offer before the decision is logged. |
| VelocityWindow.CapPlusAdded | lip/c6_aml_velocity/velocity.py:534-595 | In any run the volume of a window exceeds the cap by no more than what was added unchecked since the last attempt that passed. |
| VelocityWindow.CapKeptIff | lip/c6_aml_velocity/velocity.py:534-595 | The volume stays within the cap throughout a run if and only if everything added unchecked would have passed the cap. |
| VelocityWindow.VerdictExactly | lip/c6_aml_velocity/velocity.py:514-569 | The verdict in the sums of the window it would make: dollar cap, then count, then more than 80 % to one of two or more beneficiaries among three or more records. |
| VelocityWindow.WindowExactly | lip/c6_aml_velocity/velocity.py:393-595 | After a run in order of time a window holds exactly the records that no later action found to be older than 86400 seconds. |
| VelocityWindow.LiveForADay | lip/c6_aml_velocity/velocity.py:393-405 | A record counts for 86400 seconds, the last included. |
| VelocityWindow.CountedTwiceBreaksCap | lip/c6_aml_velocity/velocity.py:534-674 | A payment that passed and is added again before it leaves the window breaks the cap whenever the two amounts exceed it: so every amount above half the cap does. |
| VelocityWindow.DoubledPayment | lip/c6_aml_velocity/velocity.py:534-674 | Such a run: 600000 twice against a cap of 1000000. |
| VelocityWindow.DecidedIsCapped | lip/c6_aml_velocity/velocity.py:534-539 | The checker passes nothing beyond a positive cap. |
| VelocityWindow.PrunedExactly | lip/c6_aml_velocity/velocity.py:393-405 | Of records in order of time exactly the expired ones are pruned. |
| VelocityWindow.VelocityChecker.CleanupExpired | lip/c6_aml_velocity/velocity.py:393-405 | The loop drops the expired records at the front. |
| VelocityWindow.VelocityChecker.Check | lip/c6_aml_velocity/velocity.py:468-569 | Dollar cap, count cap and concentration, in this order, on the live window; nothing is recorded. |
| VelocityWindow.VelocityChecker.Record | lip/c6_aml_velocity/velocity.py:571-595 | Recording appends, unchecked. |
| VelocityWindow.VelocityChecker.CheckAndRecord | lip/c6_aml_velocity/velocity.py:661-674 | Records exactly what passes. |
| CapRuns.WindowFollowsLog | lip/pipeline.py:871-992 | What a run records in the window of a direct payer is exactly, in order, the payer's direct entries in the velocity log. |
| CapRuns.PayerVolumeBound | lip/pipeline.py:871-992 | If C6 passes nothing beyond the cap, a direct payer's volume exceeds it by no more than the offers accepted since the last payment that passed. |
| CapRuns.FundedOfferBreaksCap | lip/pipeline.py:871-992 | With a recording checker, every fully bridged direct payment of more than half the cap takes its payer beyond it when the acceptance is recorded within a window of the check. |
| AmlGate.AmlChecker.Check | lip/c6_aml_velocity/aml_checker.py:297-389 | A recording checker writes a payment it passes into the direct window, or into those of its tenant and of all tenants, and none it refuses; the bare velocity checker writes nothing. |
| AmlGate.AmlChecker.Record | lip/c6_aml_velocity/velocity.py:571-595 | Recording an accepted payment appends one entry. |
| AmlGate.OnlyAcceptancesIff | lip/pipeline.py:921-992 | A log holds acceptances alone if and only if no step wrote while checking. |
| OfferDesk.ResolvedAtMostOnce | lip/c7_execution_agent/offer_delivery.py:221-368 | In any run, even one that delivers an offer again, an offer is accepted or rejected at most once. |
| OfferDesk.AttemptMeets | lip/c7_execution_agent/offer_delivery.py:221-558 | In a run with times in order, an attempt on an offer delivered once resolves it exactly if it is the first attempt and before the expiry; it is told the offer is resolved exactly if such an attempt was made, and otherwise that it has expired. |
| OfferDesk.AttemptRefused | lip/c7_execution_agent/offer_delivery.py:221-373 | A missing operator or reason is refused first and changes nothing; an offer that was never delivered is not found. |
| OfferDesk.OneStateKept | lip/c7_execution_agent/offer_delivery.py:162-443 | Offers delivered under new identifiers are always in one state: pending, accepted, rejected or expired. |
| OfferDesk.OfferDeliveryService.Deliver | lip/c7_execution_agent/offer_delivery.py:162-217 | The offer is pending under its identifier. |
| OfferDesk.OfferDeliveryService.Accept | lip/c7_execution_agent/offer_delivery.py:221-298 | Refuses a missing operator and every resolved, expired or unknown offer; otherwise moves the offer from pending to accepted. |
| OfferDesk.OfferDeliveryService.Reject | lip/c7_execution_agent/offer_delivery.py:302-373 | The same for rejection, which also needs a reason. |
| OfferDesk.OfferDeliveryService.CheckResolvable | lip/c7_execution_agent/offer_delivery.py:526-558 | The order of refusals, and the expiry of an offer that went stale. |
| OfferDesk.OfferDeliveryService.ExpireStaleOffers | lip/c7_execution_agent/offer_delivery.py:377-443 | Exactly the pending offers whose expiry is not in the future become expired. |
| LoanRuns.LoanHasOffer | lip/c7_execution_agent/offer_delivery.py:162-298 | Every loan traces to one delivered offer and its acceptance by an operator before it expired. |
| LoanRuns.OfferLendsOnce | lip/c7_execution_agent/offer_delivery.py:221-298 | Two loans never come from one offer. |
| LoanRuns.AcceptedIsLentIff | lip/c7_execution_agent/offer_delivery.py:288-298 | An accepted offer is on the book if and only if its acceptance got through to it. |
| LoanRuns.OfferIsLentIff | lip/c7_execution_agent/offer_delivery.py:162-298 | An offer delivered once is on the book if and only if the first attempt on it is an acceptance, before its expiry, that gets through to the book. |
| Funding.LoanHasCall | lip/pipeline.py:200-1075 | In any run, every C3 loan and every risk position is the offer of an earlier call, accepted by an operator before it expired. |
| Funding.LoanIsAsHanded | lip/pipeline.py:636-1075 | Its loan has the amount, fee and days that C7 handed over in that call, for the payment of the call or its substitute reference. |
| Funding.OfferFundedOnce | lip/pipeline.py:935-1075 | No offer is funded twice. |
| Funding.LoansAreTtlApart | lip/pipeline.py:287-1075 | Two loans come from two calls; if these are for one payment, they are at least the TTL apart. |
| Funding.SilentHandoverIff | lip/pipeline.py:1077-1123 | An answered call that reports neither an offer nor SYSTEM_ERROR hands an offer over if and only if it was blocked at a gate that is logged with C7 and C7 hands one over when asked for that log. |
| Funding.AmlBlockedCanBeFunded | lip/pipeline.py:512-534 | A run with such a C7: the caller is told AML_BLOCKED, nothing is counted, and the offer is funded. |
| Funding.AgentLogsOnly | lip/pipeline.py:1100-1120 | With the agent as C7 the log of a blocked payment never hands an offer over. |
| Funding.HandoverPassedGates | lip/pipeline.py:431-831 | With the agent keeping the log, a call that hands an offer over has passed every gate, C6 un-flagged, and is answered: with an offer if and only if C7 does not raise after handing over, else with SYSTEM_ERROR. |
| Funding.SystemErrorCanBeFunded | lip/pipeline.py:636-660 | A run in which the caller is told SYSTEM_ERROR and the offer is funded. |
| Funding.ReviewedPayment | lip/pipeline.py:536-558 | A run with a payment parked for review: blocked a second later, offered once the TTL is over. |
| Funding.AcceptedIsFundedIff | lip/pipeline.py:935-1075 | An acceptance that the desk resolves is on the book if and only if its numbers and caps were readable and the client took it. |
| Funding.VelocityIsLogged | lip/pipeline.py:871-992 | The velocity log of a run is, in order, the entries of each call that a recording C6 passed and one for each recorded acceptance. |
| Funding.VelocityIsAcceptancesIff | lip/pipeline.py:871-992 | The log holds accepted offers only, as finalize_accepted_offer is documented, if and only if no call wrote an entry while it was checked: the checker does not record, or no call got that far. |
| Funding.BlockedPaymentIsCounted | lip/pipeline.py:431-510 | A run in which a payment blocked as a dispute leaves a velocity entry. |
| Funding.FundedOfferCountedTwice | lip/pipeline.py:871-992 | With a recording checker, and the agent keeping the log, every funded offer was counted when its payment was checked, and again when its acceptance was recorded, under the same parties or, where blank, the banks. |
| AgentFunding.AgentFundsViableLoans | lip/pipeline.py:431-1075 | With the agent as C7, every loan and position is for a cleared payment with a known, unblocked rejection code or none, of at least 1.5, 0.7 or 0.5 million by its class, up to the largest loan, at the fee of C2 or the floor, for at most 3, 7 or 21 days. |
| AgentFunding.AgentOutcomes | lip/c7_execution_agent/agent.py:220-523 | For a cleared payment and every state of the agent, exactly which outcome the pipeline returns; COMPLIANCE_HOLD is never one of them. |
| PipelineRuns.RetryBlockedExactlyWhen | lip/pipeline.py:287-298 | In any run from an empty tracker a call is RETRY_BLOCKED if and only if an earlier call was answered and either had the same reference less than the TTL ago, or the same content and has not been swept. |
| PipelineRuns.AnsweredAtMostOnce | lip/pipeline.py:287-385 | Once a call was answered (SYSTEM_ERROR included) every call for the same payment less than the TTL later is blocked as a retry. |
| PipelineRuns.AnswersAreTtlApart | lip/pipeline.py:287-385 | Two answered calls for one payment are at least the TTL apart. |
| PipelineRuns.OfferedAtMostOnce | lip/pipeline.py:287-831 | Two bridges offered for one payment are at least a TTL apart. |
| PipelineRuns.ReentryAfterReview | lip/pipeline.py:222-298 | In any run from an empty tracker, a payment parked for review and submitted again, no other call having been answered for it, is blocked if and only if the TTL is not over; after that it is offered if and only if every gate is open. |
| PipelineRuns.RekeyedPaymentStaysBlocked | lip/common/uetr_tracker.py:146-195 | A payment submitted again under a new reference stays blocked past the TTL until the tracker has had enough calls to sweep. |
| PipelineRuns.RunAction | lip/pipeline.py:200-1075 | A call, and the desk's callback into the pipeline, on the real objects are the steps of the run model. |
| PaymentGraph.ScoresStayInside | lip/c1_failure_classifier/graph_builder.py:181-215 | With positive amounts every score and every prior stays strictly between 0 and 1, although each prior is the mean of earlier scores. |
| PaymentGraph.ScoreWeighs | lip/c1_failure_classifier/graph_builder.py:187-198 | (n + 5) * score = n * share + 5 * prior, with n the number of earlier payments to the receiver. |
| PaymentGraph.ShareOfVolume | lip/c1_failure_classifier/graph_builder.py:187-189 | The share is the amount over the sum of all amounts to the receiver so far, this one included. |
| PaymentGraph.PriorIsMean | lip/c1_failure_classifier/graph_builder.py:190-198 | The prior is 0.10 at first and then the mean of all scores before. |
| PaymentGraph.FirstPaymentScoresPrior | lip/c1_failure_classifier/graph_builder.py:181-198 | A receiver's first incoming payment is scored with the prior alone. |
| PaymentGraph.SmoothingFades | lip/c1_failure_classifier/graph_builder.py:194-198 | With n earlier payments the score is less than 5/(n+5) from the raw ratio. |
| PaymentGraph.PositiveIsScorable | lip/c1_failure_classifier/graph_builder.py:187-194 | With positive amounts the division by the receiver's volume never fails. |
| PaymentGraph.EnterIsSound | lip/c1_failure_classifier/graph_builder.py:159-205 | Adding one payment to a sound graph gives a sound one with that payment last. |
| PaymentGraph.Built | lip/c1_failure_classifier/graph_builder.py:159-205 | From an empty graph, any payments give a graph whose indexes, totals and scores are those of the payments. |
| PaymentGraph.BuiltUpTo | lip/c1_failure_classifier/graph_builder.py:168-172 | The time of a built graph is that of its creation or of its latest payment after it. |
| PaymentGraph.OutIndexIsSent | lip/c1_failure_classifier/graph_builder.py:179 | A bank's outgoing row holds exactly its sent edges, in order of arrival. |
| PaymentGraph.InIndexIsReceived | lip/c1_failure_classifier/graph_builder.py:182-183 | A bank's incoming row holds exactly its received edges, in order. |
| PaymentGraph.CorridorIsSentReceived | lip/c1_failure_classifier/graph_builder.py:184 | A corridor's row holds exactly the edges from the one bank to the other. |
| PaymentGraph.SentReceivedCommute | lip/c1_failure_classifier/graph_builder.py:179-184 | A corridor can be read off either its sender's or its receiver's row. |
| PaymentGraph.IndexesHoldSameEdges | lip/c1_failure_classifier/graph_builder.py:179-205 | All four indexes hold every edge equally often. |
| PaymentGraph.RowsOnlyGrow | lip/c1_failure_classifier/graph_builder.py:179-184 | Rows keep the order of arrival: what a row held before any later edge is where it starts. |
| PaymentGraph.VolumeIndexIsVolume | lip/c1_failure_classifier/graph_builder.py:187 | Stored incoming volumes are the sums of the incoming amounts. |
| PaymentGraph.FirstSeenIsEarliest | lip/c1_failure_classifier/graph_builder.py:173-177 | A bank is known if and only if it took part in a payment, first seen at the earliest of them in either role. |
| PaymentGraph.BICGraphBuilder.AddPayment | lip/c1_failure_classifier/graph_builder.py:159-205 | The in-place update of every field, under a receiver volume that does not become zero. |
| GraphSnapshot.SnapshotKeepsEdges | lip/c1_failure_classifier/graph_builder.py:464-486 | Whatever is added to the graph later, a snapshot keeps the edges of every corridor and of the whole. |
| GraphSnapshot.EnteredIsCorridors | lip/c1_failure_classifier/graph_builder.py:159-205 | Entering edges one by one shows, for every corridor, the row of the payment graph. |
| GraphSnapshot.ListGraph.BuildGraph | lip/c1_failure_classifier/graph_builder.py:473-482 | The snapshot has equal contents in lists of its own. |
| GraphSnapshot.ListGraph.AddEdge | lip/c1_failure_classifier/graph_builder.py:184-205 | The corridor's list and the list of all edges grow in place. |
| GraphQueries.NeighborsAreLargest | lip/c1_failure_classifier/graph_builder.py:236-246 | Of m receivers the first k are returned, all but the last -k for a negative k: distinct, in falling order of all that was paid to them, and no receiver left out was paid more. |
| GraphQueries.EqualsKeepOrder | lip/c1_failure_classifier/graph_builder.py:243-246 | Of two returned receivers that were paid the same, the one first paid comes first. |
| GraphQueries.VolumeIsPaid | lip/c1_failure_classifier/graph_builder.py:239-241 | The volume of a corridor's row is the sum of what the sender paid to that receiver. |
| GraphQueries.OmittedIsSmaller | lip/c1_failure_classifier/graph_builder.py:243-246 | Any omitted receiver against any returned one. |
| GraphQueries.GetNeighbors | lip/c1_failure_classifier/graph_builder.py:236-246 | The query on a sound graph ranks the bank's actual edges; an unknown bank has none. |
| GraphQueries.CorridorVolumes | lip/c1_failure_classifier/graph_builder.py:239-241 | The loop over an adjacency row sums each receiver's amounts. |
| CurrencyHhi.ConcentrationBounds | lip/c1_failure_classifier/graph_builder.py:369-376 | With m >= 1 currency pairs the concentration is between 1/m and 1. |
| CurrencyHhi.ConcentrationIsAgreement | lip/c1_failure_classifier/graph_builder.py:369-376 | The concentration is the share, among all ordered pairs of payments, of those in one currency pair. |
| CurrencyHhi.SquareOfSum | lip/c1_failure_classifier/graph_builder.py:374-376 | Sum of squares against square of the sum, in both directions. |
| CurrencyHhi.CountsAddUp | lip/c1_failure_classifier/graph_builder.py:370-373 | Every payment is counted under exactly one pair. |
| CurrencyHhi.CountPairs | lip/c1_failure_classifier/graph_builder.py:370-372 | The counting loop yields each pair's multiplicity. |
| CurrencyHhi.CurrencyConcentration | lip/c1_failure_classifier/graph_builder.py:369-376 | The feature is the sum of squared shares; 0 without payments. |
| Fees.IntegerFeeSound | lip/c2_pd_model/inference.py:172-179 | The half-up and half-even roundings composed are monotone in PD and LGD, at least 300, and within 0.55 bps of the unrounded fee. |
| Fees.FeeSound | lip/c2_pd_model/fee.py:109-121 | A fee is at least its tenor's floor, monotone in PD and LGD, and within 0.05 bps of the exact rate. |
| Fees.FloorBinds | lip/c2_pd_model/fee.py:113-121 | The fee equals the floor of its hours, 1200 bps below 48 hours and else 300, if and only if the expected loss is below it plus 0.05 bps. |
| Fees.FeeBpsExactly | lip/c2_pd_model/fee.py:109-121 | The fee is the tenth of a basis point nearest to the larger of expected loss and floor, a tie going up; NearestTenthUnique: there is one. |
| Fees.HalfUpExactly | lip/c2_pd_model/fee.py:121 | Exactly the values less than a half from n round to n, and of the ties the one nearer to zero. |
| Fees.HalfEvenExactly | lip/c2_pd_model/inference.py:172-179 | Both ties next to an even n round to it. |
| Fees.SplittingTenor | lip/c2_pd_model/fee.py:178-183 | Charging a tenor in k parts changes the total by at most floor((k+1)/2) cents. |
| Fees.PartsNearExact | lip/c2_pd_model/fee.py:178-183 | The rounded part fees miss the exact fee of the whole by at most half a cent each. |
| Fees.LoanFeeExactly | lip/c2_pd_model/fee.py:178-183 | A fee is the pro-rata share of a year of 365 days, to the nearest cent. |
| Fees.FloorReachesFee | lip/c2_pd_model/fee.py:203-206 | The absolute floor holds for a computed fee if and only if it is at least half a cent before rounding; smaller ones go out as zero, although the floor is documented for every offer. |
| Fees.TinyFeeGoesOutAsZero | lip/c2_pd_model/fee.py:182-206 | Such a fee: a dollar lent for a day. |
| Fees.RoyaltiesTotal | lip/c2_pd_model/fee.py:242-245 | n royalties total within n/2 cents of the rate times the fees. |
| Fees.RoyaltyWithinFee | lip/c2_pd_model/fee.py:242-245 | With a rate in [0,1] a royalty is between 0 and its fee. |
| Fees.CascadePriceSound | lip/c2_pd_model/fee.py:354-399 | A returned price has its discount in [0, cap], 800 <= adjusted fee <= base fee, and an adjusted fee of at least (1-cap) times the base less 0.1. |
| Fees.CascadePriceExactly | lip/c2_pd_model/fee.py:354-399 | What is returned: the discount is the cap or what the prevented value buys, the two fees are those of the expected losses before and after it, and a fee below 800 bps is refused. |
| Fees.DocumentedFees | lip/c2_pd_model/fee.py:169-183 | The three worked examples in the documentation come out to the cent. |
| Fees.DiscountIsShare | lip/c2_pd_model/fee.py:367-372 | The discount is the cap, or the share at which ten times the cost takes up the prevented value; 0 without cost or value. |
| Fees.PricedExactlyWhen | lip/c2_pd_model/fee.py:361-389 | A price is returned if and only if the base PD is a probability and the discounted loss reaches 799.95 bps. |
| Fees.MorePreventedNeverDearer | lip/c2_pd_model/fee.py:368-379 | Claiming more prevented value never raises the fee, and whatever the larger claim can buy the smaller can too. |
| LeaveOneOut.LooIsOthersRate | lip/c1_failure_classifier/synthetic_data.py:1266-1272 | The subtraction formula is the failing fraction of the other records with the key, 0 when there are none. |
| LeaveOneOut.StatsShowOthers | lip/c1_failure_classifier/synthetic_data.py:1274-1296 | The stats of a record: the rate of failures among the others, its 0.90 and 0.80 fractions, the size of its group, and a streak of the group's failures up to three. |
| LeaveOneOut.OwnLabelLeavesRates | lip/c1_failure_classifier/synthetic_data.py:1274-1296 | Flipping a record's own label changes none of its own failure rates, in any role. |
| LeaveOneOut.OwnLabelInStreak | lip/c1_failure_classifier/synthetic_data.py:1154-1215 | The streak feature does carry the record's own label, if and only if fewer than three others failed. |
| LeaveOneOut.SiblingsRevealLabels | lip/c1_failure_classifier/synthetic_data.py:1266-1276 | Of two records with the same key, one has the lower rate if and only if it failed and the other did not; the difference is one share of the group. |
| LeaveOneOut.RatesAddToFailures | lip/c1_failure_classifier/synthetic_data.py:1266-1276 | Over a group of two or more, the left-one-out rates add up to the number of failures. |
| LeaveOneOut.ComputeStats | lip/c1_failure_classifier/synthetic_data.py:1097-1119 | One pass yields, per role and key, the number of records and of failures. |
| LeaveOneOut.AttachStats | lip/c1_failure_classifier/synthetic_data.py:1258-1300 | The in-place pass gives every record, in every role, stats that show the others of its group in the original data set, and changes no other field. |
| ReportCache.LookupFindsNewest | lip/api/regulatory_service.py:166-276 | After any run with lookups in time order, a lookup returns a report if and only if its age is at most the TTL and fewer than max reports are newer, and raises if its content lost its hash; generation times may be in any order. |
| ReportCache.RunAccounts | lip/api/regulatory_service.py:179-276 | Invariant of every run: an unexpired report that is missing gave way to a full cache of newer ones. |
| ReportCache.NeverOverfull | lip/api/regulatory_service.py:181-185 | The cache never exceeds its maximum, whatever the ids and the clock. |
| ReportCache.UnknownIdNotFound | lip/api/regulatory_service.py:266-276 | An id that was never generated is never found. |
| ReportCache.RegulatoryService.constructor | lip/api/regulatory_service.py:51-65 | A new service has an empty cache. |
| ReportCache.RegulatoryService.GenerateReport | lip/api/regulatory_service.py:166-186 | Inserts the report with the hash of its content, evicting the first of the oldest when over the maximum. |
| ReportCache.RegulatoryService.GetReport | lip/api/regulatory_service.py:266-276 | Finds a report exactly if one with the id is no older than the TTL, and returns it; an older one is forgotten; the hash of what only the service wrote always matches. |

## Left out

- Floating point and the 28 digits of decimals: all arithmetic is exact, so rounding is modelled only where the code quantizes.
- GraphSAGE, TabTransformer, MLP training, Platt scaling, Merton-KMV: transcendental floating-point code without exact claims.
- CheckRedis: models a counter store that never fails; the fallback to the in-memory bucket, and the Redis store of the retry tracker, are not modelled.
- CheckMemory: models one atomic call under the lock, not threads waiting for it.
- CheckRetry: takes the clock readings inside one call as one instant, leaves out the Redis lookup, and reads context fields as already parsed.
- RecordOutcome: leaves out the Redis write and an amount that cannot be parsed; the pipeline passes amounts that are decimals already.
- Process: two calls on the same payment at the same time are not modelled; the check and the record are not atomic in the code. An event's parties are given with their defaults applied.
- Screen: the rejection taxonomy is reduced to a known code's class or an unknown code.
- AmlChecker.Check: the verdict (sanctions, caps, anomaly) is arbitrary there; VelocityWindow models the caps and the window. A raise between the two writes of a tenant payment is not modelled.
- VelocityChecker.Check: the readings of the clock inside one check are one instant, hashes of identifiers are the identifiers, and the Redis window is not modelled.
- EntityActions: a check that records nothing counts as no action on the window, though it may prune it.
- ProcessPayment: the rules behind human review, enrollment, licensing and currencies are readings of the agent's state, and a raise inside them is not modelled; the Go router is a flag.
- FinalizeAcceptedOffer: a client that raises is taken not to have kept anything; dates and labels of a loan are not modelled.
- Accept: the Redis store of the desk and the Go router, which bypasses it, are not modelled.
- Latency records, logging, drift monitor, exception assessment, and the fields of a result that no decision reads.
- C3 after a loan is registered, and the loan lifecycle: not part of the runs modelled here.
- AddPayment: rows and edges are values there (GraphSnapshot has the rows as shared lists), so adding one edge object twice is not modelled; neither is the partial update left by a receiver volume of zero.
- Cascade risk, and the remaining node and edge features of the graph.
- PermutedDataSameFit: gives no condition for data whose equal scores differ in label; there the order of the data can matter or not.
- Auc: labels are of two classes; other numeric labels are not modelled.
- Validation splits by time, amount statistics, and the synthetic sampling distributions.
- Conformal fee adjustment, tier and LGD tables, portfolio sums.
- GenerateReport: the report's content is a text and its hash an arbitrary function; stress tests cache their report by the same insertion.
- Contagion simulation, snapshots for regulators, rendering, routers.

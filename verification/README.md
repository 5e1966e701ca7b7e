# Burn-in accounting, verified

The burn-in harness decides whether a Pub/Sub connector lost, duplicated or reordered
messages. This project models the parts of it that do the deciding, and proves what their
answers mean over every run:

- the **sequence tracker**: packed window, watermark and suspected losses, per producer
  (`BitWindow`, `SequenceModel`, `Tracker`, `TrackerMap`, `LossAccounting`, `SeenSet`,
  `LossAmplification`, `LossGate`, `Totals`);
- the **concurrent counters**: exactly-once ack reconciliation, warmup reset against probes,
  nack and redelivery (`Weights`, `ExactlyOnce`, `WarmupReset`, `NackRedelivery`);
- the **run lifecycle**, the shutdown phases and the two evaluators of a run (`Lifecycle`,
  `Shutdown`, `Verdicts`, `Reports`, `GateLaws`);
- the **rate windows, drains and reconciliation keys** (`RateWindows`, `Drain`,
  `ReconciliationKeys`).

Objects the harness updates in place are classes, with an array where it has a fixed buffer,
and each method is proved against a function on values. Concurrent code is a state machine
whose steps are the atomic operations and the mutex-protected sections; a run is any
sequence of such steps.

## What turned out false

- *"The surviving pending count is the true loss"* (`burnin/tracker/tracker.go:216-217`). The
  arrival that slides the window always lands exactly one past its end, so it is never marked
  and is itself counted as lost later. With one sequence lost and all others delivered once and
  in order, the counter reads 1 + 2 + ... + k after k windows, for k up to the window size
  (`LossAmplification.OneLossIsReportedQuadratically`), and from then on grows with every single
  arrival (`LossAmplification.ThenEveryArrivalIsReported`). So one lost message fails the loss gate
  of every long enough run, for every window and every threshold under 100 percent
  (`LossGate.OneLossFailsLongRuns`). The claim holds, over every run, exactly when lost sequences
  that were jumped over and arrivals that were forgotten cancel out; when no arrival is more than
  two windows ahead, exactly when every arrival that slid the window and was passed by the
  watermark has been credited since (`LossAccounting.CounterIsTrueLossIff`). A tracker is right
  throughout a run exactly when no arrival is beyond the window
  (`LossAccounting.AlwaysFaithfulIffWithinWindow`).
- *A failure that is not retried successfully stays visible to the exactly-once gate.* A warmup
  reset breaks it exactly when some handler is between its recorded failure and the outcome of
  its retry (`ExactlyOnce.ResetIsSafeIffNoStraggler`).
- *A run can be started from the error state.* It is safe exactly when the failed run has gone
  through its deferred block (`Lifecycle.StartIsSafeIffDeferredRan`); otherwise two bodies can run
  and a channel can be closed twice.
- *Exit code 2 means passed with warnings, 1 failed* (`burnin/main.go:8-9`). The report can say
  "with warnings" while the process exits 0; and if the run is not judged yet when shutdown
  returns, the process exits 1 whatever the report says. `Reports.ExitCodeMatchesReportIff` gives
  the exact condition for both.
- *The dead-letter, interop and in-flight-cap loss gates fail a run.* Their counters are written
  after the snapshot is taken, so in a run that has the engine to itself they cannot fire
  (`Shutdown.LateGatesNeverFire`). They fire exactly when another run body, which a hasty start
  makes possible, stopped the shared consumers before the snapshot
  (`Shutdown.LateGatesFireIff`).
- *The 30-second rate is the rate.* At a steady rate it is right exactly when the current tick has
  seen nothing (up to 29 completed ticks) or one tick's worth (from then on)
  (`RateWindows.SteadyRateIsRightIff`); read right after a tick of a long run it is 29/30 of the
  rate (`RateWindows.SteadyRateIsUnderstated`).

## Model

| member | source | states |
|---|---|---|
| `Words.OrBitSetsOne` | burnin/tracker/tracker.go:241-246 | or-ing a one-bit mask into a 64-bit word sets that bit, keeps all others and stays in range |
| `Words.ShiftInBits` | burnin/tracker/tracker.go:255-262 | a shifted word holds the old word's next bit, and at the top the low bit of the next word |
| `BitWindow.GetBit` | burnin/tracker/tracker.go:248-253 | reads the bit of the whole packed window, clear outside it |
| `BitWindow.SetBit` | burnin/tracker/tracker.go:241-246 | in place, changes exactly one bit; a position outside the window changes nothing |
| `BitWindow.ShiftLeft` | burnin/tracker/tracker.go:255-262 | in place, every bit moves down by one across word boundaries and a clear bit comes in |
| `SequenceModel.GapEnd` | burnin/tracker/tracker.go:190-195 | where the advance stops: everything up to it is marked and the next sequence is not |
| `Tracker.ProducerState.AdvanceContiguous` | burnin/tracker/tracker.go:190-195 | terminates, shifts out exactly the run of set bits at the bottom, leaves bit 0 clear, and moves the watermark by its length, including the wrap-around of a first sequence 0 |
| `Tracker.ProducerState.Advance` | burnin/tracker/tracker.go:190-195 | on the set view, moves the watermark over the gap-free run above it |
| `Tracker.ProducerState.SuspectUnseen` | burnin/tracker/tracker.go:219-227 | adds to the suspected losses exactly the unmarked sequences that leave the window |
| `Tracker.ProducerState.ShiftBy` | burnin/tracker/tracker.go:229-231 | repeated one-bit shifts move the whole window by the distance |
| `Tracker.ProducerState.Relocate` | burnin/tracker/tracker.go:207-232 | the capped slide: what stays marked, what becomes suspected, and that no bit is at or beyond the window size |
| `Tracker.ProducerState.SlideWindow` | burnin/tracker/tracker.go:197-239 | refines the slide on sets; the sliding sequence sits exactly one past the window in both branches |
| `Tracker.ProducerState.Record` | burnin/tracker/tracker.go:78-114 | refines one step of the set model: new state, duplicate answer and out-of-order answer |
| `Tracker.ProducerState.constructor` | burnin/tracker/tracker.go:65-76 | the first arrival leaves the watermark at that sequence and an empty window, for every 64-bit sequence |
| `Tracker.ProducerState.Report` | burnin/tracker/tracker.go:124-131 | streams the positive part of the change in loss and remembers the current loss |
| `Trackers.SequenceTracker.Record` | burnin/tracker/tracker.go:60-114 | refines recording in the map; only the named producer's objects may change |
| `Trackers.SequenceTracker.DetectGaps` | burnin/tracker/tracker.go:118-134 | deltas of all producers in any map order, and the state they leave |
| `Trackers.SequenceTracker.Sum` | burnin/tracker/tracker.go:180-188 | the sum of a counter over all producers, whatever the map order |
| `Trackers.SequenceTracker.Reset` | burnin/tracker/tracker.go:137-141 | forgets every producer |
| `Trackers.SequenceTracker.Drive` | burnin/tracker/tracker.go:60-141 | a new tracker driven through any log of calls ends in the state the log's replay gives, so the theorems about replays are about the object |
| `TrackerModel.ProducersAreIndependent` | burnin/tracker/tracker.go:60-141 | in every interleaving of calls a producer's state is the one its own arrivals since the last reset produce |
| `TrackerModel.RemembersLossAtLastCall` | burnin/tracker/tracker.go:124-131 | after every log, what a producer remembers as reported is the loss its own arrivals had produced when `DetectGaps` was last called, and nothing after a reset |
| `TrackerModel.DetectGapsAnswersTheRise` | burnin/tracker/tracker.go:118-134 | after every log `DetectGaps` answers exactly the producers whose loss has risen since the last call, with the rise |
| `TrackerModel.StreamTelescopes` | burnin/tracker/tracker.go:118-141 | over every log the streamed deltas add up to the loss at the last call plus all falls, a reset counting as a fall to nothing |
| `Totals.CountersMean` | burnin/tracker/tracker.go:64-114 | received is the number of arrivals, out-of-order the descents, lost the pending sequences, and duplicates the arrivals neither credited nor slid |
| `Totals.CountersOfLog` | burnin/tracker/tracker.go:60-141 | after every log a producer's counters are those of its own arrivals since the last reset |
| `Totals.TotalReceivedIsCalls` | burnin/tracker/tracker.go:160-163 | after every log the total received is the number of calls since the last reset |
| `LossAccounting.ReplayIsConsistent` | burnin/tracker/tracker.go:60-114 | in every run each sequence up to the watermark is exactly one of credited, pending or jumped, above it credited means marked, bit 0 is clear, marks are inside the window, and the loss counter is the size of the pending set |
| `LossAccounting.ReplayIsOfRun` | burnin/tracker/tracker.go:60-114 | the ledger these facts are about follows the tracker through the same run |
| `LossAccounting.HistoryIsSeen` | burnin/tracker/tracker.go:60-114 | the ledger's history is the set of all arrivals |
| `LossAccounting.LossIdentity` | burnin/tracker/tracker.go:86-95 | the loss counter is the never-arrived sequences not jumped, plus forgotten arrivals that slid the window |
| `LossAccounting.LossBounds` | burnin/tracker/tracker.go:197-239 | over every run, loss is over-reported by at most the number of slides and under-reported by at most the jumped sequences |
| `LossAccounting.LossBalance` | burnin/tracker/tracker.go:197-239 | over every run, loss counter + lost sequences jumped over = true loss + forgotten arrivals |
| `LossAccounting.CounterIsTrueLossIff` | burnin/tracker/tracker.go:212-227 | over every run, the counter is the true loss exactly when those two cancel; with no arrival more than two windows ahead, exactly when every arrival that slid the window and was passed by the watermark has been credited |
| `LossAccounting.NothingJumpedIff` | burnin/tracker/tracker.go:207-218 | the watermark jumps over something exactly when an arrival is more than two windows ahead of it |
| `LossAccounting.FaithfulIffWithinWindow` | burnin/tracker/tracker.go:100-104 | one step: a tracker whose pending set is the true loss and that marks every arrival above the watermark stays so exactly when the arrival is inside the window |
| `LossAccounting.AlwaysFaithfulIffWithinWindow` | burnin/tracker/tracker.go:60-114 | whole runs: it is so after every arrival exactly when no arrival is beyond the window |
| `LossAccounting.FaithfulIff` | burnin/tracker/tracker.go:60-114 | it is so at the end of a run exactly when nothing jumped over is lost and every arrival that slid the window was credited since or jumped over |
| `LossAccounting.SlideNeverMarks` | burnin/tracker/tracker.go:234-238 | the arrival that slides the window is not marked by that call |
| `LossAccounting.CreditedOnce` | burnin/tracker/tracker.go:86-97 | once credited, a sequence is answered as a duplicate for the rest of every run, so a loss is recovered at most once |
| `LossAccounting.WatermarkAdvances` | burnin/tracker/tracker.go:190-195 | the watermark never moves back over any run |
| `LossAccounting.NextIsNotCredited` | burnin/tracker/tracker.go:190-195 | the sequence after the watermark is never credited |
| `LossAccounting.ReceiveConservation` | burnin/tracker/tracker.go:64-114 | calls = received = credited sequences + duplicates + slides |
| `LossAccounting.OutOfOrderCountsDescents` | burnin/tracker/tracker.go:80-84 | the out-of-order counter is the number of descents in the arrival order |
| `SeenSet.RunRemembersSeen` | burnin/tracker/tracker.go:60-114 | inside the window the tracker is a plain seen-set: watermark at the end of the longest gap-free run, no loss |
| `SeenSet.DuplicateIffSeen` | burnin/tracker/tracker.go:106-113 | inside the window, duplicate exactly when the sequence arrived before |
| `SeenSet.OrderDoesNotMatter` | burnin/tracker/tracker.go:60-114 | inside the window, final watermark and window do not depend on order or repetition |
| `LossAmplification.OneRound` | burnin/tracker/tracker.go:197-239 | with `owed` unmarked sequences behind the watermark, one window of in-order arrivals charges them all and leaves one more |
| `LossAmplification.OneLossIsReportedQuadratically` | burnin/tracker/tracker.go:212-227 | one true loss, everything else in order: after k windows, for k up to the window size, the reported loss is 1 + 2 + ... + k |
| `LossAmplification.SaturatedForEver` | burnin/tracker/tracker.go:197-239 | once more than a window of sequences is owed, every later in-order arrival moves the watermark by one, stays unmarked and adds one loss |
| `LossAmplification.ThenEveryArrivalIsReported` | burnin/tracker/tracker.go:212-227 | the same run for every greater length: one true loss, and one more reported loss for each arrival |
| `LossGate.OneLossFailsLongRuns` | burnin/engine/verdict.go:36-44 | for every window and every loss threshold under 100 percent, one lost message fails the loss gate of every long enough run |
| `LossGate.OneLostMessageFailsTheRun` | burnin/engine/verdict.go:36-44 | with the default window, 1010103 messages are long enough |
| `ExactlyOnce.EveryRunIsBalanced` | burnin/worker/exactly_once.go:224-245 | in every interleaving each counter is the number of handlers past its increment, and unreconciled is the failed ones not yet reconciled |
| `ExactlyOnce.ReconcileNeverFindsZero` | burnin/worker/worker.go:379-389 | the zero exit of the compare-and-swap loop is unreachable and the decrement never underflows |
| `ExactlyOnce.HandlersFollowOutcomes` | burnin/worker/exactly_once.go:224-245 | in every run each handler is where the outcomes of its own two acks put it; only the progress of a reconciliation depends on others |
| `ExactlyOnce.ConfirmedMeansSucceeded` | burnin/worker/exactly_once.go:224-245 | a handler goes on to confirm exactly when one of its acks succeeded, and gives up exactly when both failed |
| `ExactlyOnce.FinalAccounting` | burnin/worker/exactly_once.go:224-245 | when all handlers finished, confirmed = acked = the messages with a successful ack, unreconciled = errors = the others, and the gate passes exactly when every message had one |
| `ExactlyOnce.NoLivelock` | burnin/worker/worker.go:379-389 | however scheduled, the handlers at hand take a bounded number of steps, so every retry loop ends |
| `ExactlyOnce.ResetIsSafeIffNoStraggler` | burnin/worker/worker.go:594-595 | a reset can never hide a later genuine failure exactly when no handler is between a recorded failure and its retry's outcome |
| `WarmupReset.RanMeansObserved` | burnin/worker/worker.go:576-630 | in every interleaving of probes and resets, with no reset half done, one confirmed probe since the last clear is enough for a nonzero counter |
| `WarmupReset.CounterIsConfirmedSinceReset` | burnin/worker/worker.go:576-630 | in every interleaving the counter is exactly the probes confirmed since the last reset began |
| `WarmupReset.ResetLeavesNothing` | burnin/worker/worker.go:576-630 | a finished reset with no probe active since leaves counter and flag down |
| `NackRedelivery.EveryRunAgrees` | burnin/worker/nack_redelivery.go:188-247 | in every interleaving counters, map and handlers agree, key by key |
| `NackRedelivery.NackedAtMostOnce` | burnin/worker/nack_redelivery.go:213-243 | no two deliveries nack the same key or both recover it |
| `NackRedelivery.KeyMovesForward` | burnin/worker/nack_redelivery.go:213-238 | over every run a key only moves from absent to nacked to redelivered |
| `NackRedelivery.RedeliveredWasNacked` | burnin/worker/nack_redelivery.go:213-238 | a redelivered key was in the nacked state earlier in the run |
| `NackRedelivery.NackedIffDrawn` | burnin/worker/nack_redelivery.go:213-243 | in every run the keys in the map are exactly the tracked messages of which some receipt drew a nack |
| `NackRedelivery.QuietAccounting` | burnin/worker/nack_redelivery.go:188-247 | with no delivery mid-flight: nacks = keys, redeliveries = terminal keys, received = acked + nacks |
| `Lifecycle.StartIsSafeIffDeferredRan` | burnin/engine/engine.go:207-236 | a start keeps the engine safe exactly when no run is still in its deferred block |
| `Lifecycle.OrderlyRunsAreSafe` | burnin/engine/engine.go:286-397 | in every orderly interleaving: one run body, each done channel closed exactly when its run ended, a verdict only for the last run after it reached stopping |
| `Lifecycle.OrderlyRunsTell` | burnin/engine/engine.go:286-397 | in every orderly interleaving the published state follows from where the last run is, its verdict is stored exactly when it was shut down and judged, and a run that ends without one failed or was cancelled |
| `Lifecycle.StopCancelsLastRun` | burnin/engine/engine.go:239-250 | a stop cancels the last run while it can still be stopped and otherwise changes nothing |
| `Lifecycle.SetupDecides` | burnin/engine/engine.go:312-345 | a run goes on to measure exactly when its setup succeeds and it was not cancelled; error is published exactly on a failed setup |
| `Lifecycle.HastyStartRunsTwoBodies` | burnin/engine/engine.go:287-298 | from every state with a failed run still to defer, a hasty start can lead to two run bodies |
| `Lifecycle.HastyStartClosesTwice` | burnin/engine/engine.go:287-298 | and to the new run's channel being closed twice and the failed run's never |
| `Verdicts.ComputeVerdict` | burnin/engine/verdict.go:20-246 | for any map order: each worker's failing gates are reported once each and in gate order, nothing else is, and flag and result follow from them and memory growth |
| `GateLaws.EngineFailsIff` | burnin/engine/verdict.go:31-216 | the engine fails a run exactly when some worker is not clean, by a second description that goes by kind of worker and has no division |
| `GateLaws.WorkerPassesIff` | burnin/engine/verdict.go:31-216 | a worker passes all 28 gates exactly when it is within the thresholds, sound, and keeps the promise of its kind |
| `GateLaws.LossGateLaw` | burnin/engine/verdict.go:36-44 | the loss gate fires exactly when more than the threshold, and at least half a percent, of the messages sent are lost |
| `GateLaws.ShareGatesLaw` | burnin/engine/verdict.go:46-79 | the duplication gate with its five exempt workers, and the error-rate gate |
| `GateLaws.LatencyGatesLaw` | burnin/engine/verdict.go:59-68 | the four latency gates with their four exempt workers |
| `GateLaws.ThroughputGateLaw` | burnin/engine/verdict.go:81-97 | the throughput gate fires exactly when less than the demanded share of rate times time was sent, by a worker that is paced |
| `GateLaws.DowntimeGateLaw` | burnin/engine/verdict.go:99-105 | the downtime gate fires exactly when downtime exceeds its share of the time measured |
| `GateLaws.OwnFaults` | burnin/engine/verdict.go:150-168 | a run whose only fault is a filter, schema or seek mismatch fails exactly if it is of the worker of that kind |
| `GateLaws.CommonFaults` | burnin/engine/verdict.go:145-188 | the same for in-flight-cap loss, and for batch and flow-control violations, which fail any worker |
| `GateLaws.ProbeFaults` | burnin/engine/verdict.go:160-204 | a run whose only fault is a probe fails exactly when the probe ran on its worker and was never observed |
| `GateLaws.PairedFaults` | burnin/engine/verdict.go:190-211 | the lease probe needs both observations, and a dead-lettered message an attempt count |
| `GateLaws.SharedGatesAgree` | burnin/report/report.go:99-195 | each check of the report fails exactly when the engine's gate of the same name does, but for fan-out loss |
| `GateLaws.ExemptionsWarn` | burnin/report/report.go:118-160 | an exempt worker is warned about exactly when its counters would fail a worker without exemptions |
| `Verdicts.TighteningIsSafeIffGatesStayOn` | burnin/engine/verdict.go:31-105 | tightening the thresholds never turns a failed run into a passed one if and only if it leaves every latency threshold that was above zero above zero |
| `Reports.CheckWorkerMeaning` | burnin/report/report.go:99-195 | what one worker's checks contribute to the flag and the warnings |
| `Reports.CheckWorkers` | burnin/report/report.go:99-195 | the same over all workers, in any order |
| `Reports.TotalCorrupted` | burnin/report/report.go:197-200 | the sum is positive exactly when some worker saw corruption |
| `Reports.GenerateVerdict` | burnin/report/report.go:96-228 | order-independent result, and the flag is exactly that every non-advisory check passed |
| `Reports.RunReport` | burnin/main.go:269-280 | the reconciled result, with or without an engine verdict |
| `Reports.ReconciledIsTheWorse` | burnin/main.go:269-280 | what is printed is the worse of the report's and the engine's result |
| `Reports.LossGatesAgree` | burnin/report/report.go:241-246 | the engine's loss gate fires exactly when loss is over the report's single threshold |
| `Reports.ReportFailureIsEngineFailure` | burnin/report/report.go:99-207 | every hard failure of the report is one of the engine |
| `Reports.ReportNeverStricterIff` | burnin/engine/verdict.go:248-252 | that holds for all snapshots exactly when the p99 threshold is positive or no enabled worker has the p99 gate |
| `Reports.EngineIsStricter` | burnin/engine/verdict.go:145-147 | under every config there are snapshots that fail the engine and not the report |
| `Reports.ReportFailsIffExitOne` | burnin/main.go:113-136 | with validated thresholds, "the printed report fails exactly when the exit code is 1" is true if there was a verdict when shutdown returned; if not, exactly when the run fails by the verdict the report saw or, with none, by the report's own checks |
| `Reports.MemoryChecksAgree` | burnin/report/report.go:209-220 | the two memory checks agree for a growth threshold of at least one |
| `Reports.ExitCodeMatchesReportIff` | burnin/main.go:113-136 | the exit code means what is documented except exactly when a judged run passed without memory growth and an exempt worker is over a threshold, or shutdown returned before the verdict and the printed result is not a failure |
| `Reports.UnjudgedRunExitsOne` | burnin/engine/engine.go:252-275 | a clean run without a verdict is printed as passed while the process exits 1 |
| `Shutdown.LateGatesFireIff` | burnin/engine/engine.go:455-491 | in every run the dead-letter, interop and in-flight-cap loss gates fire exactly when another run body charged the worker before the capture |
| `Shutdown.LateGatesNeverFire` | burnin/engine/engine.go:455-491 | so in every run that has the engine to itself they cannot fire |
| `Shutdown.CaptureIsFinal` | burnin/engine/engine.go:480-491 | nothing after the capture changes what is judged |
| `Shutdown.EveryCaptureIsHonest` | burnin/engine/engine.go:628-641 | in every run the judged counters are the live ones at the capture, field by field, but for the fan-out worker's losses, which are all among its dropped deliveries |
| `Shutdown.FanoutLossFails` | burnin/engine/engine.go:630-637 | a fan-out worker with any loss or dropped delivery at the capture fails the run, and its gate fires for no other reason |
| `Shutdown.JudgedAfterAllStopped` | burnin/engine/engine.go:480-491 | in every run the verdict comes only after the consumers of all workers have stopped |
| `Shutdown.ResetStartsOver` | burnin/worker/worker.go:576-630 | a reset during measurement takes a worker back to where it began and leaves the others alone |
| `Shutdown.DeadLetterLossGoesUnnoticed` | burnin/worker/dead_letter.go:351-391 | for every number of dead-letter losses and all thresholds there is a run that loses them and passes |
| `RateWindows.SlidingRateWindow.Record` | burnin/metrics/metrics.go:551-556 | adds one event to the current tick; running total = bucket sum = events of the last 30 ticks |
| `RateWindows.SlidingRateWindow.Advance` | burnin/metrics/metrics.go:558-565 | starts a new tick, and the same equalities hold |
| `RateWindows.SlidingRateWindow.Rate` | burnin/metrics/metrics.go:567-578 | the rate in terms of the event log |
| `RateWindows.SlidingRateWindow.Reset` | burnin/metrics/metrics.go:580-589 | starts an empty log |
| `RateWindows.SteadyRateIsRightIff` | burnin/metrics/metrics.go:567-578 | at a steady rate the reported rate is right exactly when the current tick has seen nothing, up to 29 completed ticks, or one tick's worth, from then on |
| `RateWindows.SteadyRateIsUnderstated` | burnin/metrics/metrics.go:558-578 | right after a tick of a long steady run the reported rate is 29/30 of it |
| `RateWindows.PeakWindowIsMaximum` | burnin/metrics/metrics.go:611-621 | the peak of the log bounds every completed ten-tick window and is reached |
| `RateWindows.SteadyPeakIsRightIff` | burnin/metrics/metrics.go:611-624 | the peak of a steady rate is that rate exactly once ten ticks are complete |
| `RateWindows.PeakRateTracker.Advance` | burnin/metrics/metrics.go:611-624 | the stored peak is the peak of the log divided by ten, after every mix of records and ticks |
| `RateWindows.PeakRateTracker.Record` | burnin/metrics/metrics.go:605-609 | adds one event to the current tick and leaves the peak |
| `Drain.DrainAck` | burnin/worker/seek_snapshot.go:333-364 | against any broker: counts every message handed out, also those whose ack fails, ends within 6 * want pulls, overshoots by less than a batch, and stops early exactly at six empty pulls in a row, an interruption or a failed ack |
| `Drain.DrainReplay` | burnin/worker/seek_snapshot.go:372-402 | ends for every broker with finitely many messages, counting all that were handed out |
| `ReconciliationKeys.DecimalRoundTrip` | burnin/worker/dead_letter.go:276 | a decimal sequence reads back as itself |
| `ReconciliationKeys.KeyIsInjective` | burnin/worker/dead_letter.go:276 | the key determines producer and sequence, even for producers containing the separator |
| `ReconciliationKeys.KeysCount` | burnin/worker/cross_protocol_interop.go:140-145 | counting distinct keys counts distinct messages |
| `ReconciliationKeys.Reconciler.Publish` | burnin/worker/dead_letter.go:328-330 | remembers the publish time of that message and no other |
| `ReconciliationKeys.Reconciler.Confirm` | burnin/worker/dead_letter.go:277-283 | the mutex-protected half: remembers the message and tells exactly the first caller to count it |
| `ReconciliationKeys.Reconciler.Count` | burnin/worker/dead_letter.go:281 | the increment after the mutex: however callers interleave, the counter is the distinct messages confirmed less the callers still to count |
| `ReconciliationKeys.Reconciler.Reconcile` | burnin/worker/dead_letter.go:371-391 | charges exactly the published, unconfirmed messages older than the budget |
| `ReconciliationKeys.Reconciler.CountOverdue` | burnin/worker/cross_protocol_interop.go:231-245 | counts exactly those, in whatever order the map yields them |
| `ReconciliationKeys.ChargedAndConfirmedAreAll` | burnin/worker/dead_letter.go:371-386 | nothing confirmed or within the budget is charged, and charged and confirmed make up all published exactly when all else is older than the budget |
| `ReconciliationKeys.OverdueMoves` | burnin/worker/dead_letter.go:371-386 | a longer wait charges no less, and a confirmation takes exactly its message off |

## Modelling choices

- Sequences are 64-bit numbers. Every value of them is covered; only the first arrival of
  sequence 0 wraps, and `AdvanceContiguous` handles it. Counters are unbounded.
- Words are numbers below 2^64: a right shift halves, `& 1` is the remainder by two, and or-ing
  a mask adds it unless the bit is set.
- The reorder window is at least one (configuration demands at least 100).
- Percentages, latencies and memory growth are exact reals.
- Which acks succeed, which messages a pull returns, random draws and the clock are inputs.

## Left out

- Network clients, provisioning, HTTP control, logging, Prometheus and histogram percentiles.
- Configuration loading; validated thresholds are assumed only where a lemma says so.
- Verdict message texts and the advisory notes that never change a result.
- Tracker.ProducerState.SlideWindow: the two guarded marks of the source are left out because their guard is proved never to hold there.
- ExactlyOnce.EveryRunIsBalanced: message decoding, tracking and latency inside the handler are not steps.
- ExactlyOnce.ResetIsSafeIffNoStraggler: the reset's stores are one step; only the store to the unreconciled counter matters to the claim.
- Reports.ExitCodeMatchesReportIff: a new run started over HTTP between the end of shutdown and the report is not modelled.
- Shutdown.LateGatesFireIff: one set of counters per worker type; summing over channel instances is not modelled.
- Drain.DrainReplay: the finite supply of messages is a premise, as without it the source's loop need not end.
- The delivery-attempt maximum, the dead-letter budget formula, round numbering of the seek worker, and the quiescence poll before the snapshot: easy.
- Leases of the in-flight-cap worker, per-key ordering checks, and the connector itself.

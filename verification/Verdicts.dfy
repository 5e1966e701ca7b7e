/** The two evaluators of a finished run. The engine judges the captured snapshots; the
    report judges a summary built from them; the process exit code follows the engine.
    Percentages and latencies are exact reals. */
module Verdicts {

  datatype Worker =
    | PublishPull | StreamingPull | OrderingKeys | ExactlyOnce | DeadLetter | FanOut
    | CrossProtocol | NackRedelivery | Filtering | SchemaEnforce | SeekSnapshot | InflightCap

  predicate LatencyExempt(w: Worker) {
    w.DeadLetter? || w.InflightCap? || w.SeekSnapshot? || w.PublishPull?
  }

  predicate DuplicationExempt(w: Worker) {
    w.DeadLetter? || w.NackRedelivery? || w.InflightCap? || w.SeekSnapshot? || w.PublishPull?
  }

  /** The frozen counters of one worker type. */
  datatype Snapshot = Snapshot(
    sent: nat, received: nat, errors: nat, corrupted: nat, duplicated: nat, lost: nat,
    downtime: real, p50: real, p95: real, p99: real, p999: real,
    orderingViolations: nat, fanoutDropped: nat, exactlyOnceConfirmed: nat, exactlyOnceUnreconciled: nat,
    deadLetterRepublished: nat, deadLetterLost: nat, interopDiverged: nat,
    batchAtomicityViolations: nat, filterMismatch: nat, schemaRejectViolations: nat, schemaEnforceConfirmed: nat,
    seekReplayMismatch: nat, inflightCapLost: nat, invalidAckConfirmed: nat, flowControlViolations: nat,
    leaseExtendConfirmed: nat, leaseExtendRejectConfirmed: nat, deliveryAttemptMax: nat, crossStreamAckConfirmed: nat,
    invalidAckProbeRan: bool, confirmationsProbeRan: bool, crossStreamAckProbeRan: bool,
    leaseExtendProbeRan: bool, schemaEnforceProbeRan: bool)

  const UNTOUCHED: Snapshot := Snapshot(
    0, 0, 0, 0, 0, 0, 0.0, 0.0, 0.0, 0.0, 0.0, 0, 0, 0, 0, 0, 0, 0, 0, 0, 0, 0, 0, 0, 0, 0, 0, 0, 0, 0,
    false, false, false, false, false)

  datatype Thresholds = Thresholds(
    maxLossPct: real, maxDuplicationPct: real, maxP50: real, maxP95: real, maxP99: real, maxP999: real,
    minThroughputPct: real, maxErrorRatePct: real, maxMemoryGrowth: real, maxDowntimePct: real)

  /** What config validation demands of the thresholds the gates use. */
  predicate Validated(t: Thresholds) {
    && 0.0 <= t.maxLossPct <= 100.0 && 0.0 <= t.maxDuplicationPct <= 100.0
    && t.maxP50 > 0.0 && t.maxP95 > 0.0 && t.maxP99 > 0.0 && t.maxP999 > 0.0
    && 0.0 < t.minThroughputPct <= 100.0 && 0.0 <= t.maxErrorRatePct <= 100.0
    && t.maxMemoryGrowth >= 1.0 && 0.0 <= t.maxDowntimePct <= 100.0
  }

  datatype Config = Config(thresholds: Thresholds, rates: map<Worker, nat>, enabled: set<Worker>)

  /** Run-wide figures: the measurement window in seconds and the memory readings. */
  datatype RunInfo = RunInfo(seconds: real, baseline: nat, peak: nat)

  const BOUNDARY_LOSS_PCT: real := 0.5

  function Pct(part: nat, whole: nat): real
    requires whole > 0
  {
    part as real / whole as real * 100.0
  }

  function TargetRate(cfg: Config, w: Worker): nat {
    if w in cfg.rates then cfg.rates[w] else 100
  }

  /** The rate sent at, in percent of the target rate. */
  function ThroughputPct(sent: nat, seconds: real, rate: nat): real
    requires seconds > 0.0 && rate > 0
  {
    sent as real / seconds / rate as real * 100.0
  }

  function DowntimePct(downtime: real, seconds: real): real
    requires seconds > 0.0
  {
    downtime / seconds * 100.0
  }

  // ---- the engine's gates ----

  datatype Gate =
    | Corruption | Loss | Duplication | P50 | P95 | P99 | P999 | ErrorRate | Throughput | Downtime
    | Ordering | Unreconciled | DeadLetterLoss | FanoutDrop | Interop | BatchAtomicity | Filter
    | SchemaReject | SchemaNeverSeen | SeekMismatch | InflightLoss | InvalidAckNeverSeen | ConfirmationsNeverSeen
    | FlowControl | LeaseExtendNeverSeen | LeaseRejectNeverSeen | CrossStreamNeverSeen | DeliveryAttempt

  predicate TooSlow(value: real, threshold: real) {
    value > 0.0 && threshold > 0.0 && value > threshold
  }

  predicate Fails(cfg: Config, run: RunInfo, w: Worker, s: Snapshot, g: Gate) {
    var t := cfg.thresholds;
    match g
    case Corruption => s.corrupted > 0
    case Loss => s.sent > 0 && Pct(s.lost, s.sent) > t.maxLossPct && Pct(s.lost, s.sent) > BOUNDARY_LOSS_PCT
    case Duplication => s.received > 0 && !DuplicationExempt(w) && Pct(s.duplicated, s.received) > t.maxDuplicationPct
    case P50 => !LatencyExempt(w) && TooSlow(s.p50, t.maxP50)
    case P95 => !LatencyExempt(w) && TooSlow(s.p95, t.maxP95)
    case P99 => !LatencyExempt(w) && TooSlow(s.p99, t.maxP99)
    case P999 => !LatencyExempt(w) && TooSlow(s.p999, t.maxP999)
    case ErrorRate => s.sent + s.received > 0 && Pct(s.errors, s.sent + s.received) > t.maxErrorRatePct
    case Throughput =>
      && run.seconds > 0.0 && s.sent > 0 && !w.DeadLetter? && !w.SeekSnapshot? && !w.Filtering?
      && TargetRate(cfg, w) > 0 && ThroughputPct(s.sent, run.seconds, TargetRate(cfg, w)) < t.minThroughputPct
    case Downtime => run.seconds > 0.0 && s.downtime > 0.0 && DowntimePct(s.downtime, run.seconds) > t.maxDowntimePct
    case Ordering => w.OrderingKeys? && s.orderingViolations > 0
    case Unreconciled => w.ExactlyOnce? && s.exactlyOnceUnreconciled > 0
    case DeadLetterLoss => w.DeadLetter? && s.deadLetterLost > 0
    case FanoutDrop => w.FanOut? && s.fanoutDropped > 0
    case Interop => w.CrossProtocol? && s.interopDiverged > 0
    case BatchAtomicity => s.batchAtomicityViolations > 0
    case Filter => w.Filtering? && s.filterMismatch > 0
    case SchemaReject => w.SchemaEnforce? && s.schemaRejectViolations > 0
    case SchemaNeverSeen => w.SchemaEnforce? && s.schemaEnforceProbeRan && s.schemaEnforceConfirmed == 0
    case SeekMismatch => w.SeekSnapshot? && s.seekReplayMismatch > 0
    case InflightLoss => w.InflightCap? && s.inflightCapLost > 0
    case InvalidAckNeverSeen => w.ExactlyOnce? && s.invalidAckProbeRan && s.invalidAckConfirmed == 0
    case ConfirmationsNeverSeen => w.ExactlyOnce? && s.confirmationsProbeRan && s.exactlyOnceConfirmed == 0
    case FlowControl => s.flowControlViolations > 0
    case LeaseExtendNeverSeen => s.leaseExtendProbeRan && s.leaseExtendConfirmed == 0
    case LeaseRejectNeverSeen => s.leaseExtendProbeRan && s.leaseExtendRejectConfirmed == 0
    case CrossStreamNeverSeen => s.crossStreamAckProbeRan && s.crossStreamAckConfirmed == 0
    case DeliveryAttempt => w.DeadLetter? && s.deadLetterRepublished > 0 && s.deliveryAttemptMax == 0
  }

  ghost predicate EngineFailed(cfg: Config, run: RunInfo, snaps: map<Worker, Snapshot>) {
    exists w, g :: w in snaps && Fails(cfg, run, w, snaps[w], g)
  }

  /** Advisory memory growth. */
  predicate MemoryGrew(cfg: Config, run: RunInfo) {
    && run.baseline > 0 && run.peak > run.baseline
    && run.peak as real / run.baseline as real > cfg.thresholds.maxMemoryGrowth
  }

  datatype Result = PASSED | PASSED_WITH_WARNINGS | FAILED

  /** The verdict; a failure is a worker and the gate it did not pass, in order of report. */
  datatype EngineVerdict = EngineVerdict(result: Result, passed: bool, failures: seq<(Worker, Gate)>)

  /** All gates, in the order a worker is taken through them. */
  const GATES: seq<Gate> := [
    Corruption, Loss, Duplication, P50, P95, P99, P999, ErrorRate, Throughput, Downtime, Ordering, Unreconciled,
    DeadLetterLoss, FanoutDrop, Interop, BatchAtomicity, Filter, SchemaReject, SchemaNeverSeen, SeekMismatch,
    InflightLoss, InvalidAckNeverSeen, ConfirmationsNeverSeen, FlowControl, LeaseExtendNeverSeen,
    LeaseRejectNeverSeen, CrossStreamNeverSeen, DeliveryAttempt]

  /** The gates among `gates` that the worker fails, in order. */
  function Failing(cfg: Config, run: RunInfo, w: Worker, s: Snapshot, gates: seq<Gate>): (failed: seq<Gate>)
    ensures forall g :: g in failed <==> g in gates && Fails(cfg, run, w, s, g)
  {
    if gates == [] then []
    else
      var last := |gates| - 1;
      var before := Failing(cfg, run, w, s, gates[..last]);
      assert gates == gates[..last] + [gates[last]];
      if Fails(cfg, run, w, s, gates[last]) then before + [gates[last]] else before
  }

  lemma EveryGateIsTaken(g: Gate)
    ensures g in GATES
  {
    var i := match g
      case Corruption => 0 case Loss => 1 case Duplication => 2 case P50 => 3 case P95 => 4 case P99 => 5
      case P999 => 6 case ErrorRate => 7 case Throughput => 8 case Downtime => 9 case Ordering => 10
      case Unreconciled => 11 case DeadLetterLoss => 12 case FanoutDrop => 13 case Interop => 14
      case BatchAtomicity => 15 case Filter => 16 case SchemaReject => 17 case SchemaNeverSeen => 18
      case SeekMismatch => 19 case InflightLoss => 20 case InvalidAckNeverSeen => 21
      case ConfirmationsNeverSeen => 22 case FlowControl => 23 case LeaseExtendNeverSeen => 24
      case LeaseRejectNeverSeen => 25 case CrossStreamNeverSeen => 26 case DeliveryAttempt => 27;
    assert GATES[i] == g;
  }

  /** The gates reported for one worker, in order. */
  function GatesOf(failures: seq<(Worker, Gate)>, w: Worker): seq<Gate> {
    if failures == [] then []
    else
      var last := |failures| - 1;
      GatesOf(failures[..last], w) + if failures[last].0 == w then [failures[last].1] else []
  }

  lemma GatesOfAppend(failures: seq<(Worker, Gate)>, w: Worker, g: Gate, other: Worker)
    ensures GatesOf(failures + [(w, g)], other) == GatesOf(failures, other) + if w == other then [g] else []
  {
    assert (failures + [(w, g)])[..|failures|] == failures;
  }

  lemma {:induction false} GatesOfMember(failures: seq<(Worker, Gate)>, w: Worker, g: Gate)
    ensures g in GatesOf(failures, w) <==> (w, g) in failures
  {
    if failures != [] {
      var last := |failures| - 1;
      GatesOfMember(failures[..last], w, g);
      assert failures == failures[..last] + [failures[last]];
    }
  }

  /** `more` adds the failing ones of `gates`, in order, for worker `w` and nothing else. */
  ghost predicate Adds(cfg: Config, run: RunInfo, w: Worker, s: Snapshot, gates: seq<Gate>,
                       failures: seq<(Worker, Gate)>, more: seq<(Worker, Gate)>)
  {
    && GatesOf(more, w) == Failing(cfg, run, w, s, gates)
    && (forall other :: other != w ==> GatesOf(more, other) == GatesOf(failures, other))
  }

  lemma AddsNext(cfg: Config, run: RunInfo, w: Worker, s: Snapshot, gates: seq<Gate>,
                 failures: seq<(Worker, Gate)>, more: seq<(Worker, Gate)>, g: Gate)
    requires Adds(cfg, run, w, s, gates, failures, more)
    ensures Adds(cfg, run, w, s, gates + [g], failures,
                 if Fails(cfg, run, w, s, g) then more + [(w, g)] else more)
  {
    assert (gates + [g])[..|gates|] == gates;
    if Fails(cfg, run, w, s, g) {
      GatesOfAppend(more, w, g, w);
      forall other | other != w ensures GatesOf(more + [(w, g)], other) == GatesOf(failures, other) {
        GatesOfAppend(more, w, g, other);
      }
    }
  }

  /** Takes one worker through the gates, adding a failure for each it does not pass. */
  method JudgeWorker(cfg: Config, run: RunInfo, w: Worker, s: Snapshot, gates: seq<Gate>,
                     failures: seq<(Worker, Gate)>)
    returns (more: seq<(Worker, Gate)>)
    requires GatesOf(failures, w) == []
    ensures Adds(cfg, run, w, s, gates, failures, more)
  {
    more := failures;
    ghost var done := [];
    for i := 0 to |gates|
      invariant done == gates[..i]
      invariant Adds(cfg, run, w, s, done, failures, more)
    {
      more := JudgeGate(cfg, run, w, s, done, failures, more, gates[i]);
      done := done + [gates[i]];
    }
    assert done == gates;
  }

  method JudgeGate(cfg: Config, run: RunInfo, w: Worker, s: Snapshot, ghost done: seq<Gate>,
                   ghost failures: seq<(Worker, Gate)>, before: seq<(Worker, Gate)>, g: Gate)
    returns (more: seq<(Worker, Gate)>)
    requires Adds(cfg, run, w, s, done, failures, before)
    ensures Adds(cfg, run, w, s, done + [g], failures, more)
  {
    AddsNext(cfg, run, w, s, done, failures, before, g);
    more := if Fails(cfg, run, w, s, g) then before + [(w, g)] else before;
  }

  /** The failures of every worker but those in `todo` are reported once each, in the order of
      the gates. */
  ghost predicate Reported(cfg: Config, run: RunInfo, snaps: map<Worker, Snapshot>, gates: seq<Gate>,
                           todo: set<Worker>, failures: seq<(Worker, Gate)>)
  {
    forall w :: GatesOf(failures, w) ==
                if w in snaps && w !in todo then Failing(cfg, run, w, snaps[w], gates) else []
  }

  lemma ReportedNext(cfg: Config, run: RunInfo, snaps: map<Worker, Snapshot>, gates: seq<Gate>, todo: set<Worker>,
                     w: Worker, failures: seq<(Worker, Gate)>, more: seq<(Worker, Gate)>)
    requires Reported(cfg, run, snaps, gates, todo, failures) && w in snaps
    requires Adds(cfg, run, w, snaps[w], gates, failures, more)
    ensures Reported(cfg, run, snaps, gates, todo - {w}, more)
  {
  }

  method JudgeWorkers(cfg: Config, run: RunInfo, snaps: map<Worker, Snapshot>, gates: seq<Gate>)
    returns (failures: seq<(Worker, Gate)>)
    ensures Reported(cfg, run, snaps, gates, {}, failures)
  {
    failures := [];
    var todo := snaps.Keys;
    while todo != {}
      invariant todo <= snaps.Keys && Reported(cfg, run, snaps, gates, todo, failures)
      decreases todo
    {
      var w :| w in todo;
      ghost var before := failures;
      failures := JudgeWorker(cfg, run, w, snaps[w], gates, failures);
      ReportedNext(cfg, run, snaps, gates, todo, w, before, failures);
      todo := todo - {w};
    }
  }

  /** A verdict without a reported failure is one in which no gate fails. */
  lemma ReportedMeaning(cfg: Config, run: RunInfo, snaps: map<Worker, Snapshot>, failures: seq<(Worker, Gate)>)
    requires Reported(cfg, run, snaps, GATES, {}, failures)
    ensures forall w, g :: (w, g) in failures <==> w in snaps && Fails(cfg, run, w, snaps[w], g)
    ensures failures == [] <==> !EngineFailed(cfg, run, snaps)
  {
    forall w, g ensures (w, g) in failures <==> w in snaps && Fails(cfg, run, w, snaps[w], g) {
      GatesOfMember(failures, w, g);
      EveryGateIsTaken(g);
    }
    if failures != [] {
      assert failures[0] in failures;
      assert Fails(cfg, run, failures[0].0, snaps[failures[0].0], failures[0].1);
    }
    if w, g :| w in snaps && Fails(cfg, run, w, snaps[w], g) {
      assert (w, g) in failures;
    }
  }

  /** Judges the snapshots in whatever order the map yields them: each worker's failures are
      reported once and in gate order, and flag and result depend on the snapshots alone. */
  method ComputeVerdict(cfg: Config, run: RunInfo, snaps: map<Worker, Snapshot>) returns (v: EngineVerdict)
    ensures Reported(cfg, run, snaps, GATES, {}, v.failures)
    ensures v.passed <==> !EngineFailed(cfg, run, snaps)
    ensures forall w, g :: (w, g) in v.failures <==> w in snaps && Fails(cfg, run, w, snaps[w], g)
    ensures v.result == if !v.passed then FAILED else if MemoryGrew(cfg, run) then PASSED_WITH_WARNINGS else PASSED
  {
    var failures := JudgeWorkers(cfg, run, snaps, GATES);
    ReportedMeaning(cfg, run, snaps, failures);
    var passed := failures == [];
    var result := if passed then PASSED else FAILED;
    if MemoryGrew(cfg, run) && passed {
      result := PASSED_WITH_WARNINGS;
    }
    v := EngineVerdict(result, passed, failures);
  }

  /** `a` is nowhere more lenient than `b`. */
  predicate AtLeastAsStrict(a: Thresholds, b: Thresholds) {
    && a.maxLossPct <= b.maxLossPct && a.maxDuplicationPct <= b.maxDuplicationPct
    && a.maxP50 <= b.maxP50 && a.maxP95 <= b.maxP95 && a.maxP99 <= b.maxP99 && a.maxP999 <= b.maxP999
    && a.minThroughputPct >= b.minThroughputPct && a.maxErrorRatePct <= b.maxErrorRatePct
    && a.maxDowntimePct <= b.maxDowntimePct
  }

  /** No latency gate that `b` has on is off in `a`; a threshold at or below zero is off. */
  predicate KeepsLatencyGates(a: Thresholds, b: Thresholds) {
    && (b.maxP50 > 0.0 ==> a.maxP50 > 0.0) && (b.maxP95 > 0.0 ==> a.maxP95 > 0.0)
    && (b.maxP99 > 0.0 ==> a.maxP99 > 0.0) && (b.maxP999 > 0.0 ==> a.maxP999 > 0.0)
  }

  /** Every run that fails under `cfg` still fails under the thresholds `t`. */
  ghost predicate FailsNoLess(cfg: Config, t: Thresholds) {
    forall run, snaps :: EngineFailed(cfg, run, snaps) ==> EngineFailed(cfg.(thresholds := t), run, snaps)
  }

  /** A run of one worker whose only fault is one slow percentile. */
  function OneSlow(s: Snapshot): map<Worker, Snapshot> {
    map[StreamingPull := s]
  }

  lemma OffGateLetsThrough(cfg: Config, t: Thresholds, s: Snapshot, g: Gate)
    requires s == UNTOUCHED.(p50 := s.p50, p95 := s.p95, p99 := s.p99, p999 := s.p999)
    requires forall run :: Fails(cfg, run, StreamingPull, s, g)
    requires !TooSlow(s.p50, t.maxP50) && !TooSlow(s.p95, t.maxP95)
    requires !TooSlow(s.p99, t.maxP99) && !TooSlow(s.p999, t.maxP999)
    ensures !FailsNoLess(cfg, t)
  {
    var run := RunInfo(0.0, 0, 0);
    assert Fails(cfg, run, StreamingPull, OneSlow(s)[StreamingPull], g);
    assert EngineFailed(cfg, run, OneSlow(s)) && !EngineFailed(cfg.(thresholds := t), run, OneSlow(s));
  }

  /** Tightening the thresholds never turns a failed run into a passed one, except exactly
      when it lowers a latency threshold to zero or below, which switches that gate off. */
  lemma TighteningIsSafeIffGatesStayOn(cfg: Config, t: Thresholds)
    requires AtLeastAsStrict(t, cfg.thresholds)
    ensures FailsNoLess(cfg, t) <==> KeepsLatencyGates(t, cfg.thresholds)
  {
    var c := cfg.thresholds;
    if KeepsLatencyGates(t, c) {
      forall run, snaps | EngineFailed(cfg, run, snaps) ensures EngineFailed(cfg.(thresholds := t), run, snaps) {
        var w, g :| w in snaps && Fails(cfg, run, w, snaps[w], g);
        assert Fails(cfg.(thresholds := t), run, w, snaps[w], g);
      }
    } else if c.maxP50 > 0.0 >= t.maxP50 {
      OffGateLetsThrough(cfg, t, UNTOUCHED.(p50 := c.maxP50 + 1.0), P50);
    } else if c.maxP95 > 0.0 >= t.maxP95 {
      OffGateLetsThrough(cfg, t, UNTOUCHED.(p95 := c.maxP95 + 1.0), P95);
    } else if c.maxP99 > 0.0 >= t.maxP99 {
      OffGateLetsThrough(cfg, t, UNTOUCHED.(p99 := c.maxP99 + 1.0), P99);
    } else {
      OffGateLetsThrough(cfg, t, UNTOUCHED.(p999 := c.maxP999 + 1.0), P999);
    }
  }
}

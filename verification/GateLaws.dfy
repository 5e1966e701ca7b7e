/** What the engine's gates demand, worker by worker and without division: a second
    description of a passing run, beside the gate-by-gate one the verdict is computed from. */
module GateLaws {
  import opened Verdicts
  import opened Reports

  /** `part` is at most `pct` percent of `whole`; of nothing, any part is. */
  predicate AtMost(part: nat, whole: nat, pct: real) {
    whole == 0 || !OverShareOf(part as real, whole as real, pct)
  }

  function AtLeastHalf(pct: real): real {
    if pct < 0.5 then 0.5 else pct
  }

  /** A latency within a threshold that is switched on. */
  predicate InTime(value: real, threshold: real) {
    0.0 < threshold < value ==> value <= 0.0
  }

  const AT_LEAST_ONCE_WORKERS: set<Worker> := {PublishPull, DeadLetter, NackRedelivery, SeekSnapshot, InflightCap}
  const SLOW_WORKERS: set<Worker> := {PublishPull, DeadLetter, SeekSnapshot, InflightCap}
  const UNPACED_WORKERS: set<Worker> := {DeadLetter, Filtering, SeekSnapshot}

  /** Sent at least the demanded share of what the target rate allows in the time measured. */
  predicate Paced(cfg: Config, run: RunInfo, w: Worker, s: Snapshot) {
    var rate := if w in cfg.rates then cfg.rates[w] else 100;
    || w in UNPACED_WORKERS || run.seconds <= 0.0 || s.sent == 0
    || 100.0 * s.sent as real >= Demand(run.seconds, rate, cfg.thresholds.minThroughputPct)
  }

  /** A hundred times the messages demanded. */
  function Demand(seconds: real, rate: nat, pct: real): real {
    pct * (rate as real * seconds)
  }

  predicate Up(cfg: Config, run: RunInfo, s: Snapshot) {
    run.seconds <= 0.0 || s.downtime <= 0.0 || !OverShareOf(s.downtime, run.seconds, cfg.thresholds.maxDowntimePct)
  }

  predicate OverShareOf(part: real, whole: real, pct: real) {
    100.0 * part > pct * whole
  }

  /** Nothing lost, repeated, late or broken beyond what the thresholds allow. */
  predicate WithinThresholds(cfg: Config, run: RunInfo, w: Worker, s: Snapshot) {
    var t := cfg.thresholds;
    && AtMost(s.lost, s.sent, AtLeastHalf(t.maxLossPct))
    && (w in AT_LEAST_ONCE_WORKERS || AtMost(s.duplicated, s.received, t.maxDuplicationPct))
    && (w in SLOW_WORKERS ||
        (InTime(s.p50, t.maxP50) && InTime(s.p95, t.maxP95) && InTime(s.p99, t.maxP99) && InTime(s.p999, t.maxP999)))
    && AtMost(s.errors, s.sent + s.received, t.maxErrorRatePct)
    && Paced(cfg, run, w, s) && Up(cfg, run, s)
  }

  /** What no worker may show, whatever its kind. */
  predicate Sound(s: Snapshot) {
    && s.corrupted == s.batchAtomicityViolations == s.flowControlViolations == 0
    && (s.leaseExtendProbeRan ==> s.leaseExtendConfirmed > 0 && s.leaseExtendRejectConfirmed > 0)
    && (s.crossStreamAckProbeRan ==> s.crossStreamAckConfirmed > 0)
  }

  /** What a worker of each kind is there to show. */
  predicate KeepsPromise(w: Worker, s: Snapshot) {
    match w
    case OrderingKeys => s.orderingViolations == 0
    case ExactlyOnce =>
      && s.exactlyOnceUnreconciled == 0
      && (s.invalidAckProbeRan ==> s.invalidAckConfirmed > 0)
      && (s.confirmationsProbeRan ==> s.exactlyOnceConfirmed > 0)
    case DeadLetter => s.deadLetterLost == 0 && (s.deadLetterRepublished > 0 ==> s.deliveryAttemptMax > 0)
    case FanOut => s.fanoutDropped == 0
    case CrossProtocol => s.interopDiverged == 0
    case Filtering => s.filterMismatch == 0
    case SchemaEnforce => s.schemaRejectViolations == 0 && (s.schemaEnforceProbeRan ==> s.schemaEnforceConfirmed > 0)
    case SeekSnapshot => s.seekReplayMismatch == 0
    case InflightCap => s.inflightCapLost == 0
    case PublishPull => true
    case StreamingPull => true
    case NackRedelivery => true
  }

  predicate Clean(cfg: Config, run: RunInfo, w: Worker, s: Snapshot) {
    WithinThresholds(cfg, run, w, s) && Sound(s) && KeepsPromise(w, s)
  }

  // ---- the arithmetic of percentages ----

  lemma OverShare(part: real, whole: real, pct: real)
    requires whole > 0.0
    ensures part / whole * 100.0 > pct <==> OverShareOf(part, whole, pct)
  {
    var share := part / whole * 100.0;
    assert share * whole == 100.0 * part;
    if share > pct {
      assert (share - pct) * whole > 0.0;
    } else {
      assert (pct - share) * whole >= 0.0;
    }
  }

  lemma PctIsShare(part: nat, whole: nat, pct: real)
    requires whole > 0
    ensures Pct(part, whole) > pct <==> !AtMost(part, whole, pct)
  {
    OverShare(part as real, whole as real, pct);
  }

  lemma UnderShare(part: real, whole: real, pct: real)
    requires whole > 0.0
    ensures part / whole * 100.0 < pct <==> 100.0 * part < pct * whole
  {
    var share := part / whole * 100.0;
    assert share * whole == 100.0 * part;
    if share < pct {
      assert (pct - share) * whole > 0.0;
    } else {
      assert (share - pct) * whole >= 0.0;
    }
  }

  // ---- gate by gate ----

  /** The loss gate: more than the threshold, which counts as half a percent if it is less. */
  lemma LossGateLaw(cfg: Config, run: RunInfo, w: Worker, s: Snapshot)
    ensures Fails(cfg, run, w, s, Loss) <==> !AtMost(s.lost, s.sent, AtLeastHalf(cfg.thresholds.maxLossPct))
  {
    if s.sent > 0 {
      PctIsShare(s.lost, s.sent, AtLeastHalf(cfg.thresholds.maxLossPct));
    }
  }

  lemma ShareGatesLaw(cfg: Config, run: RunInfo, w: Worker, s: Snapshot)
    ensures Fails(cfg, run, w, s, Duplication) <==>
            w !in AT_LEAST_ONCE_WORKERS && !AtMost(s.duplicated, s.received, cfg.thresholds.maxDuplicationPct)
    ensures Fails(cfg, run, w, s, ErrorRate) <==>
            !AtMost(s.errors, s.sent + s.received, cfg.thresholds.maxErrorRatePct)
  {
    if s.received > 0 {
      PctIsShare(s.duplicated, s.received, cfg.thresholds.maxDuplicationPct);
    }
    if s.sent + s.received > 0 {
      PctIsShare(s.errors, s.sent + s.received, cfg.thresholds.maxErrorRatePct);
    }
  }

  lemma LatencyGatesLaw(cfg: Config, run: RunInfo, w: Worker, s: Snapshot)
    ensures var t := cfg.thresholds;
            && (Fails(cfg, run, w, s, P50) <==> w !in SLOW_WORKERS && !InTime(s.p50, t.maxP50))
            && (Fails(cfg, run, w, s, P95) <==> w !in SLOW_WORKERS && !InTime(s.p95, t.maxP95))
            && (Fails(cfg, run, w, s, P99) <==> w !in SLOW_WORKERS && !InTime(s.p99, t.maxP99))
            && (Fails(cfg, run, w, s, P999) <==> w !in SLOW_WORKERS && !InTime(s.p999, t.maxP999))
  {
  }

  /** The throughput gate without division; a target rate of zero demands nothing. */
  lemma ThroughputGateLaw(cfg: Config, run: RunInfo, w: Worker, s: Snapshot)
    ensures Fails(cfg, run, w, s, Throughput) <==> !Paced(cfg, run, w, s)
  {
    if run.seconds > 0.0 && s.sent > 0 {
      PaceLaw(s.sent, run.seconds, TargetRate(cfg, w), cfg.thresholds.minThroughputPct);
    }
  }

  lemma PaceLaw(sent: nat, seconds: real, rate: nat, pct: real)
    requires seconds > 0.0
    ensures 100.0 * sent as real >= Demand(seconds, rate, pct) <==>
            rate == 0 || ThroughputPct(sent, seconds, rate) >= pct
  {
    if rate > 0 {
      TargetShare(sent as real, seconds, rate as real);
      UnderShare(sent as real, rate as real * seconds, pct);
    }
  }

  lemma TargetShare(sent: real, seconds: real, rate: real)
    requires seconds > 0.0 && rate > 0.0
    ensures rate * seconds > 0.0 && sent / seconds / rate == sent / (rate * seconds)
  {
    var x := sent / seconds / rate;
    assert x * rate == sent / seconds;
    assert x * (rate * seconds) == x * rate * seconds == sent;
  }

  lemma DowntimeGateLaw(cfg: Config, run: RunInfo, w: Worker, s: Snapshot)
    ensures Fails(cfg, run, w, s, Downtime) <==> !Up(cfg, run, s)
  {
    if run.seconds > 0.0 {
      OverShare(s.downtime, run.seconds, cfg.thresholds.maxDowntimePct);
    }
  }

  // ---- the verdict ----

  ghost predicate Passes(cfg: Config, run: RunInfo, w: Worker, s: Snapshot) {
    forall g :: !Fails(cfg, run, w, s, g)
  }

  predicate ThresholdGate(g: Gate) {
    g.Loss? || g.Duplication? || g.P50? || g.P95? || g.P99? || g.P999? || g.ErrorRate? || g.Throughput? || g.Downtime?
  }

  predicate CommonGate(g: Gate) {
    || g.Corruption? || g.BatchAtomicity? || g.FlowControl? || g.LeaseExtendNeverSeen? || g.LeaseRejectNeverSeen?
    || g.CrossStreamNeverSeen?
  }

  lemma ThresholdsLaw(cfg: Config, run: RunInfo, w: Worker, s: Snapshot)
    ensures (forall g :: ThresholdGate(g) ==> !Fails(cfg, run, w, s, g)) <==> WithinThresholds(cfg, run, w, s)
  {
    LossGateLaw(cfg, run, w, s);
    ShareGatesLaw(cfg, run, w, s);
    LatencyGatesLaw(cfg, run, w, s);
    ThroughputGateLaw(cfg, run, w, s);
    DowntimeGateLaw(cfg, run, w, s);
  }

  lemma CommonLaw(cfg: Config, run: RunInfo, w: Worker, s: Snapshot)
    ensures (forall g :: CommonGate(g) ==> !Fails(cfg, run, w, s, g)) <==> Sound(s)
  {
    if !Sound(s) {
      var g := if s.corrupted > 0 then Corruption
               else if s.batchAtomicityViolations > 0 then BatchAtomicity
               else if s.flowControlViolations > 0 then FlowControl
               else if s.crossStreamAckProbeRan && s.crossStreamAckConfirmed == 0 then CrossStreamNeverSeen
               else if s.leaseExtendConfirmed == 0 then LeaseExtendNeverSeen
               else LeaseRejectNeverSeen;
      assert CommonGate(g) && Fails(cfg, run, w, s, g);
    }
  }

  /** A gate that a worker breaking its promise fails. */
  function BrokenGate(w: Worker, s: Snapshot): Gate {
    match w
    case OrderingKeys => Ordering
    case ExactlyOnce =>
      if s.exactlyOnceUnreconciled > 0 then Unreconciled
      else if s.invalidAckProbeRan && s.invalidAckConfirmed == 0 then InvalidAckNeverSeen
      else ConfirmationsNeverSeen
    case DeadLetter => if s.deadLetterLost > 0 then DeadLetterLoss else DeliveryAttempt
    case FanOut => FanoutDrop
    case CrossProtocol => Interop
    case Filtering => Filter
    case SchemaEnforce => if s.schemaRejectViolations > 0 then SchemaReject else SchemaNeverSeen
    case SeekSnapshot => SeekMismatch
    case _ => InflightLoss
  }

  lemma OwnLaw(cfg: Config, run: RunInfo, w: Worker, s: Snapshot)
    ensures (forall g :: !ThresholdGate(g) && !CommonGate(g) ==> !Fails(cfg, run, w, s, g)) <==> KeepsPromise(w, s)
  {
    if !KeepsPromise(w, s) {
      var g := BrokenGate(w, s);
      assert !ThresholdGate(g) && !CommonGate(g) && Fails(cfg, run, w, s, g);
    }
  }

  /** A worker passes all gates exactly when it is clean. */
  lemma WorkerPassesIff(cfg: Config, run: RunInfo, w: Worker, s: Snapshot)
    ensures Passes(cfg, run, w, s) <==> Clean(cfg, run, w, s)
  {
    ThresholdsLaw(cfg, run, w, s);
    CommonLaw(cfg, run, w, s);
    OwnLaw(cfg, run, w, s);
  }

  /** The engine fails a run exactly when some worker in it is not clean. */
  lemma EngineFailsIff(cfg: Config, run: RunInfo, snaps: map<Worker, Snapshot>)
    ensures EngineFailed(cfg, run, snaps) <==> exists w :: w in snaps && !Clean(cfg, run, w, snaps[w])
  {
    forall w | w in snaps ensures Passes(cfg, run, w, snaps[w]) <==> Clean(cfg, run, w, snaps[w]) {
      WorkerPassesIff(cfg, run, w, snaps[w]);
    }
    if w, g :| w in snaps && Fails(cfg, run, w, snaps[w], g) {
      assert !Passes(cfg, run, w, snaps[w]);
    }
    if w :| w in snaps && !Clean(cfg, run, w, snaps[w]) {
      var g :| Fails(cfg, run, w, snaps[w], g);
    }
  }

  /** The engine's verdict on a run of one worker. */
  ghost predicate Alone(cfg: Config, run: RunInfo, w: Worker, s: Snapshot) {
    EngineFailed(cfg, run, map[w := s])
  }

  lemma AloneLaw(cfg: Config, run: RunInfo, w: Worker, s: Snapshot)
    ensures Alone(cfg, run, w, s) <==> !Clean(cfg, run, w, s)
  {
    var snaps := map[w := s];
    EngineFailsIff(cfg, run, snaps);
    assert snaps[w] == s;
  }

  /** One counted fault of a kind of worker, and nothing else: it fails that kind. */
  lemma OwnFaults(cfg: Config, run: RunInfo, w: Worker, n: nat)
    ensures Alone(cfg, run, w, UNTOUCHED.(filterMismatch := n)) <==> w == Filtering && n > 0
    ensures Alone(cfg, run, w, UNTOUCHED.(schemaRejectViolations := n)) <==> w == SchemaEnforce && n > 0
    ensures Alone(cfg, run, w, UNTOUCHED.(seekReplayMismatch := n)) <==> w == SeekSnapshot && n > 0
  {
    AloneLaw(cfg, run, w, UNTOUCHED.(filterMismatch := n));
    AloneLaw(cfg, run, w, UNTOUCHED.(schemaRejectViolations := n));
    AloneLaw(cfg, run, w, UNTOUCHED.(seekReplayMismatch := n));
  }

  /** One counted fault that fails every kind, or the in-flight-cap worker. */
  lemma CommonFaults(cfg: Config, run: RunInfo, w: Worker, n: nat)
    ensures Alone(cfg, run, w, UNTOUCHED.(inflightCapLost := n)) <==> w == InflightCap && n > 0
    ensures Alone(cfg, run, w, UNTOUCHED.(batchAtomicityViolations := n)) <==> n > 0
    ensures Alone(cfg, run, w, UNTOUCHED.(flowControlViolations := n)) <==> n > 0
  {
    AloneLaw(cfg, run, w, UNTOUCHED.(inflightCapLost := n));
    AloneLaw(cfg, run, w, UNTOUCHED.(batchAtomicityViolations := n));
    AloneLaw(cfg, run, w, UNTOUCHED.(flowControlViolations := n));
  }

  /** One probe that ran or not, with `n` confirmations: "ran but never observed" fails. */
  lemma ProbeFaults(cfg: Config, run: RunInfo, w: Worker, ran: bool, n: nat)
    ensures Alone(cfg, run, w, UNTOUCHED.(schemaEnforceProbeRan := ran, schemaEnforceConfirmed := n)) <==>
            w == SchemaEnforce && ran && n == 0
    ensures Alone(cfg, run, w, UNTOUCHED.(invalidAckProbeRan := ran, invalidAckConfirmed := n)) <==>
            w == ExactlyOnce && ran && n == 0
    ensures Alone(cfg, run, w, UNTOUCHED.(confirmationsProbeRan := ran, exactlyOnceConfirmed := n)) <==>
            w == ExactlyOnce && ran && n == 0
    ensures Alone(cfg, run, w, UNTOUCHED.(crossStreamAckProbeRan := ran, crossStreamAckConfirmed := n)) <==>
            ran && n == 0
  {
    AloneLaw(cfg, run, w, UNTOUCHED.(schemaEnforceProbeRan := ran, schemaEnforceConfirmed := n));
    AloneLaw(cfg, run, w, UNTOUCHED.(invalidAckProbeRan := ran, invalidAckConfirmed := n));
    AloneLaw(cfg, run, w, UNTOUCHED.(confirmationsProbeRan := ran, exactlyOnceConfirmed := n));
    AloneLaw(cfg, run, w, UNTOUCHED.(crossStreamAckProbeRan := ran, crossStreamAckConfirmed := n));
  }

  /** The lease probe needs both of its observations; a dead-lettered message, an attempt. */
  lemma PairedFaults(cfg: Config, run: RunInfo, w: Worker, ran: bool, a: nat, b: nat)
    ensures var s := UNTOUCHED.(leaseExtendProbeRan := ran, leaseExtendConfirmed := a, leaseExtendRejectConfirmed := b);
            Alone(cfg, run, w, s) <==> ran && (a == 0 || b == 0)
    ensures Alone(cfg, run, w, UNTOUCHED.(deadLetterRepublished := a, deliveryAttemptMax := b)) <==>
            w == DeadLetter && a > 0 && b == 0
  {
    AloneLaw(cfg, run, w, UNTOUCHED.(leaseExtendProbeRan := ran, leaseExtendConfirmed := a,
                                     leaseExtendRejectConfirmed := b));
    AloneLaw(cfg, run, w, UNTOUCHED.(deadLetterRepublished := a, deliveryAttemptMax := b));
  }

  // ---- the gates the report has too ----

  predicate FailedCheck(r: Report, name: Check) {
    name in r.checks && !r.checks[name]
  }

  /** The report's checks of one worker, from an empty table. */
  function ChecksOf(cfg: Config, w: Worker, s: Snapshot): Report {
    CheckWorker(cfg, w, s, Report(true, map[], 0))
  }

  /** What the report flags under each name. */
  predicate Flagged(cfg: Config, w: Worker, s: Snapshot, kind: CheckKind) {
    var t := cfg.thresholds;
    match kind
    case MessageLoss => w != FanOut && s.sent > 0 && Pct(s.lost, s.sent) > LossGateThreshold(t.maxLossPct)
    case DuplicationCheck =>
      s.received > 0 && !DuplicationExempt(w) && Pct(s.duplicated, s.received) > t.maxDuplicationPct
    case P99Latency => s.p99 > 0.0 && !LatencyExempt(w) && s.p99 > t.maxP99
    case ErrorRateCheck => s.sent + s.received > 0 && Pct(s.errors, s.sent + s.received) > t.maxErrorRatePct
    case OrderingCheck => w == OrderingKeys && s.orderingViolations > 0
    case ReconciledCheck => w == ExactlyOnce && s.exactlyOnceUnreconciled > 0
    case DeadLetterCheck => w == DeadLetter && s.deadLetterLost > 0
    case FanoutCheck => w == FanOut && s.fanoutDropped > 0
    case InteropCheck => w == CrossProtocol && s.interopDiverged > 0
  }

  // Each check changes the entry under its own name only.
  lemma LossEntry(cfg: Config, w: Worker, s: Snapshot, r: Report, name: Check)
    ensures FailedCheck(CheckLoss(cfg, w, s, r), name) <==>
            if name == OfWorker(MessageLoss, w) && s.sent > 0 && w != FanOut then Flagged(cfg, w, s, MessageLoss)
            else FailedCheck(r, name)
  {
  }

  lemma DuplicationEntry(cfg: Config, w: Worker, s: Snapshot, r: Report, name: Check)
    ensures FailedCheck(CheckDuplication(cfg, w, s, r), name) <==>
            if name == OfWorker(DuplicationCheck, w) && s.received > 0 && !DuplicationExempt(w)
            then Flagged(cfg, w, s, DuplicationCheck)
            else FailedCheck(r, name)
  {
  }

  lemma LatencyEntry(cfg: Config, w: Worker, s: Snapshot, r: Report, name: Check)
    ensures FailedCheck(CheckLatency(cfg, w, s, r), name) <==>
            if name == OfWorker(P99Latency, w) && s.p99 > 0.0 && !LatencyExempt(w) then Flagged(cfg, w, s, P99Latency)
            else FailedCheck(r, name)
  {
  }

  lemma ErrorEntry(cfg: Config, w: Worker, s: Snapshot, r: Report, name: Check)
    ensures FailedCheck(CheckErrors(cfg, w, s, r), name) <==>
            if name == OfWorker(ErrorRateCheck, w) && s.sent + s.received > 0 then Flagged(cfg, w, s, ErrorRateCheck)
            else FailedCheck(r, name)
  {
  }

  lemma PatternEntries(cfg: Config, w: Worker, s: Snapshot, r: Report, kind: CheckKind)
    requires !FailedCheck(r, OfWorker(PatternCheck(w), w)) || kind != PatternCheck(w)
    ensures FailedCheck(CheckPattern(w, s, r), OfWorker(kind, w)) <==>
            FailedCheck(r, OfWorker(kind, w)) || (OfPattern(kind) && Flagged(cfg, w, s, kind))
  {
  }

  predicate OfPattern(kind: CheckKind) {
    kind.OrderingCheck? || kind.ReconciledCheck? || kind.DeadLetterCheck? || kind.FanoutCheck? || kind.InteropCheck?
  }

  lemma EntryOf(cfg: Config, w: Worker, s: Snapshot, kind: CheckKind)
    ensures FailedCheck(ChecksOf(cfg, w, s), OfWorker(kind, w)) <==> Flagged(cfg, w, s, kind)
  {
    var name := OfWorker(kind, w);
    var r0 := Report(true, map[], 0);
    var r1 := CheckLoss(cfg, w, s, r0);
    var r2 := CheckDuplication(cfg, w, s, r1);
    var r3 := CheckLatency(cfg, w, s, r2);
    LossEntry(cfg, w, s, r0, name);
    DuplicationEntry(cfg, w, s, r1, name);
    LatencyEntry(cfg, w, s, r2, name);
    ErrorEntry(cfg, w, s, r3, name);
    PatternEntries(cfg, w, s, CheckErrors(cfg, w, s, r3), kind);
  }

  /** The engine's gate for each check of the report. */
  function GateFor(kind: CheckKind): Gate {
    match kind
    case MessageLoss => Loss
    case DuplicationCheck => Duplication
    case P99Latency => P99
    case ErrorRateCheck => ErrorRate
    case OrderingCheck => Ordering
    case ReconciledCheck => Unreconciled
    case DeadLetterCheck => DeadLetterLoss
    case FanoutCheck => FanoutDrop
    case InteropCheck => Interop
  }

  /** The report's checks of a worker and the engine's gates agree one by one: on loss but for
      the fan-out worker, which the report leaves to its own check, and on p99 latency if that
      gate is switched on. */
  lemma SharedGatesAgree(cfg: Config, run: RunInfo, w: Worker, s: Snapshot, kind: CheckKind)
    requires kind == P99Latency ==> cfg.thresholds.maxP99 > 0.0
    ensures FailedCheck(ChecksOf(cfg, w, s), OfWorker(kind, w)) <==>
            !(kind == MessageLoss && w == FanOut) && Fails(cfg, run, w, s, GateFor(kind))
  {
    EntryOf(cfg, w, s, kind);
    FlaggedFails(cfg, run, w, s, kind);
  }

  /** An exempt worker is warned about exactly when the same counters would fail a check it is
      exempt from, had a worker without exemptions shown them. */
  lemma ExemptionsWarn(cfg: Config, w: Worker, s: Snapshot)
    ensures WorkerWarns(cfg, w, s) <==>
            var r := ChecksOf(cfg, StreamingPull, s);
            || (w in AT_LEAST_ONCE_WORKERS && FailedCheck(r, OfWorker(DuplicationCheck, StreamingPull)))
            || (w in SLOW_WORKERS && FailedCheck(r, OfWorker(P99Latency, StreamingPull)))
  {
    EntryOf(cfg, StreamingPull, s, DuplicationCheck);
    EntryOf(cfg, StreamingPull, s, P99Latency);
  }

  lemma FlaggedFails(cfg: Config, run: RunInfo, w: Worker, s: Snapshot, kind: CheckKind)
    requires kind == P99Latency ==> cfg.thresholds.maxP99 > 0.0
    ensures Flagged(cfg, w, s, kind) <==>
            !(kind == MessageLoss && w == FanOut) && Fails(cfg, run, w, s, GateFor(kind))
  {
  }
}

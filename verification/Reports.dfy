/** The report's own evaluator, its reconciliation with the engine verdict, and the exit
    code of the process. */
module Reports {
  import opened Verdicts

  /** The percentage the report compares loss with: at least the boundary tolerance. */
  function LossGateThreshold(base: real): real {
    if base < BOUNDARY_LOSS_PCT then BOUNDARY_LOSS_PCT else base
  }

  datatype CheckKind =
    | MessageLoss | DuplicationCheck | P99Latency | ErrorRateCheck
    | OrderingCheck | ReconciledCheck | DeadLetterCheck | FanoutCheck | InteropCheck

  datatype Check = OfWorker(kind: CheckKind, worker: Worker) | CorruptionCheck | MemoryStability

  datatype Report = Report(passed: bool, checks: map<Check, bool>, warnings: nat)

  datatype Verdict = Verdict(result: Result, passed: bool, checks: map<Check, bool>)

  /** A hard check: recorded under its name, and failing it fails the report. */
  function AddHard(r: Report, name: Check, value: real, threshold: real): Report {
    AddGate(r, name, value <= threshold)
  }

  function AddGate(r: Report, name: Check, ok: bool): Report {
    r.(checks := r.checks[name := ok], passed := r.passed && ok)
  }

  function AddWarning(r: Report, warn: bool): Report {
    if warn then r.(warnings := r.warnings + 1) else r
  }

  function CheckLoss(cfg: Config, w: Worker, s: Snapshot, r: Report): Report {
    if s.sent > 0 && !w.FanOut? then
      AddHard(r, OfWorker(MessageLoss, w), Pct(s.lost, s.sent), LossGateThreshold(cfg.thresholds.maxLossPct))
    else r
  }

  function CheckDuplication(cfg: Config, w: Worker, s: Snapshot, r: Report): Report {
    if s.received == 0 then r
    else if DuplicationExempt(w) then AddWarning(r, Pct(s.duplicated, s.received) > cfg.thresholds.maxDuplicationPct)
    else AddHard(r, OfWorker(DuplicationCheck, w), Pct(s.duplicated, s.received), cfg.thresholds.maxDuplicationPct)
  }

  function CheckLatency(cfg: Config, w: Worker, s: Snapshot, r: Report): Report {
    if s.p99 <= 0.0 then r
    else if LatencyExempt(w) then AddWarning(r, s.p99 > cfg.thresholds.maxP99)
    else AddHard(r, OfWorker(P99Latency, w), s.p99, cfg.thresholds.maxP99)
  }

  function CheckErrors(cfg: Config, w: Worker, s: Snapshot, r: Report): Report {
    if s.sent + s.received > 0 then
      AddHard(r, OfWorker(ErrorRateCheck, w), Pct(s.errors, s.sent + s.received), cfg.thresholds.maxErrorRatePct)
    else r
  }

  function CheckPattern(w: Worker, s: Snapshot, r: Report): Report {
    match w
    case OrderingKeys => AddGate(r, OfWorker(OrderingCheck, w), s.orderingViolations == 0)
    case ExactlyOnce => AddGate(r, OfWorker(ReconciledCheck, w), s.exactlyOnceUnreconciled == 0)
    case DeadLetter => AddGate(r, OfWorker(DeadLetterCheck, w), s.deadLetterLost == 0)
    case FanOut => AddGate(r, OfWorker(FanoutCheck, w), s.fanoutDropped == 0)
    case CrossProtocol => AddGate(r, OfWorker(InteropCheck, w), s.interopDiverged == 0)
    case _ => r
  }

  function CheckWorker(cfg: Config, w: Worker, s: Snapshot, r: Report): Report {
    var counted := CheckDuplication(cfg, w, s, CheckLoss(cfg, w, s, r));
    CheckPattern(w, s, CheckErrors(cfg, w, s, CheckLatency(cfg, w, s, counted)))
  }

  // ---- what the report's evaluation means ----

  /** A hard failure of one worker, other than corruption, as the report sees it. */
  predicate WorkerFails(cfg: Config, w: Worker, s: Snapshot) {
    var t := cfg.thresholds;
    || (s.sent > 0 && !w.FanOut? && Pct(s.lost, s.sent) > LossGateThreshold(t.maxLossPct))
    || (s.received > 0 && !DuplicationExempt(w) && Pct(s.duplicated, s.received) > t.maxDuplicationPct)
    || (s.p99 > 0.0 && !LatencyExempt(w) && s.p99 > t.maxP99)
    || (s.sent + s.received > 0 && Pct(s.errors, s.sent + s.received) > t.maxErrorRatePct)
    || (w.OrderingKeys? && s.orderingViolations > 0)
    || (w.ExactlyOnce? && s.exactlyOnceUnreconciled > 0)
    || (w.DeadLetter? && s.deadLetterLost > 0)
    || (w.FanOut? && s.fanoutDropped > 0)
    || (w.CrossProtocol? && s.interopDiverged > 0)
  }

  /** An exempt worker over a threshold: reported as a warning only. */
  predicate WorkerWarns(cfg: Config, w: Worker, s: Snapshot) {
    || (s.received > 0 && DuplicationExempt(w) && Pct(s.duplicated, s.received) > cfg.thresholds.maxDuplicationPct)
    || (s.p99 > 0.0 && LatencyExempt(w) && s.p99 > cfg.thresholds.maxP99)
  }

  predicate Advisory(c: Check) {
    c.MemoryStability?
  }

  /** The report's flag and its table of checks say the same. */
  ghost predicate FlagMatchesChecks(r: Report) {
    r.passed <==> forall c :: c in r.checks && !Advisory(c) ==> r.checks[c]
  }

  ghost predicate NoCheckOf(w: Worker, r: Report) {
    forall c :: c in r.checks && c.OfWorker? ==> c.worker != w
  }

  lemma CheckWorkerMeaning(cfg: Config, w: Worker, s: Snapshot, r: Report)
    ensures CheckWorker(cfg, w, s, r).passed <==> r.passed && !WorkerFails(cfg, w, s)
    ensures CheckWorker(cfg, w, s, r).warnings > 0 <==> r.warnings > 0 || WorkerWarns(cfg, w, s)
  {
  }

  // The flag still matches, and at most the check `name` is new.
  ghost predicate Adds(r: Report, after: Report, name: Check) {
    FlagMatchesChecks(after) && (forall c :: c in after.checks ==> c in r.checks || c == name)
  }

  lemma AddGateAdds(r: Report, name: Check)
    requires FlagMatchesChecks(r) && name !in r.checks && !Advisory(name)
    ensures forall ok :: Adds(r, AddGate(r, name, ok), name)
  {
    forall ok ensures Adds(r, AddGate(r, name, ok), name) {
      var after := AddGate(r, name, ok);
      if !after.passed && ok {
        var c :| c in r.checks && !Advisory(c) && !r.checks[c];
        assert !after.checks[c];
      } else if !ok {
        assert !after.checks[name];
      }
    }
  }

  function PatternCheck(w: Worker): CheckKind {
    match w
    case OrderingKeys => OrderingCheck
    case ExactlyOnce => ReconciledCheck
    case DeadLetter => DeadLetterCheck
    case FanOut => FanoutCheck
    case _ => InteropCheck
  }

  lemma CheckLossAdds(cfg: Config, w: Worker, s: Snapshot, r: Report)
    requires FlagMatchesChecks(r) && OfWorker(MessageLoss, w) !in r.checks
    ensures Adds(r, CheckLoss(cfg, w, s, r), OfWorker(MessageLoss, w))
  {
    AddGateAdds(r, OfWorker(MessageLoss, w));
  }

  lemma CheckDuplicationAdds(cfg: Config, w: Worker, s: Snapshot, r: Report)
    requires FlagMatchesChecks(r) && OfWorker(DuplicationCheck, w) !in r.checks
    ensures Adds(r, CheckDuplication(cfg, w, s, r), OfWorker(DuplicationCheck, w))
  {
    AddGateAdds(r, OfWorker(DuplicationCheck, w));
  }

  lemma CheckLatencyAdds(cfg: Config, w: Worker, s: Snapshot, r: Report)
    requires FlagMatchesChecks(r) && OfWorker(P99Latency, w) !in r.checks
    ensures Adds(r, CheckLatency(cfg, w, s, r), OfWorker(P99Latency, w))
  {
    AddGateAdds(r, OfWorker(P99Latency, w));
  }

  lemma CheckErrorsAdds(cfg: Config, w: Worker, s: Snapshot, r: Report)
    requires FlagMatchesChecks(r) && OfWorker(ErrorRateCheck, w) !in r.checks
    ensures Adds(r, CheckErrors(cfg, w, s, r), OfWorker(ErrorRateCheck, w))
  {
    AddGateAdds(r, OfWorker(ErrorRateCheck, w));
  }

  lemma CheckPatternAdds(w: Worker, s: Snapshot, r: Report)
    requires FlagMatchesChecks(r) && OfWorker(PatternCheck(w), w) !in r.checks
    ensures Adds(r, CheckPattern(w, s, r), OfWorker(PatternCheck(w), w))
  {
    AddGateAdds(r, OfWorker(PatternCheck(w), w));
  }

  // The flag still matches, and every new check is of worker `w` and one of `kinds`.
  ghost predicate AddsOnly(r: Report, after: Report, w: Worker, kinds: set<CheckKind>) {
    && FlagMatchesChecks(after)
    && (forall c :: c in after.checks ==> c in r.checks || (c.OfWorker? && c.worker == w && c.kind in kinds))
  }

  lemma CheckLossAndDuplication(cfg: Config, w: Worker, s: Snapshot, r: Report)
    requires FlagMatchesChecks(r) && NoCheckOf(w, r)
    ensures AddsOnly(r, CheckDuplication(cfg, w, s, CheckLoss(cfg, w, s, r)), w, {MessageLoss, DuplicationCheck})
  {
    CheckLossAdds(cfg, w, s, r);
    CheckDuplicationAdds(cfg, w, s, CheckLoss(cfg, w, s, r));
  }

  lemma CheckWorkerChecks(cfg: Config, w: Worker, s: Snapshot, r: Report)
    requires FlagMatchesChecks(r) && NoCheckOf(w, r)
    ensures FlagMatchesChecks(CheckWorker(cfg, w, s, r))
    ensures forall c :: c in CheckWorker(cfg, w, s, r).checks ==> c in r.checks || (c.OfWorker? && c.worker == w)
  {
    CheckLossAndDuplication(cfg, w, s, r);
    CheckTheRest(cfg, w, s, CheckDuplication(cfg, w, s, CheckLoss(cfg, w, s, r)));
  }

  lemma CheckTheRest(cfg: Config, w: Worker, s: Snapshot, r: Report)
    requires FlagMatchesChecks(r)
    requires forall c :: c in r.checks && c.OfWorker? && c.worker == w ==>
                           c.kind == MessageLoss || c.kind == DuplicationCheck
    ensures AddsOnly(r, CheckPattern(w, s, CheckErrors(cfg, w, s, CheckLatency(cfg, w, s, r))), w,
                     {P99Latency, ErrorRateCheck, PatternCheck(w)})
  {
    CheckLatencyAdds(cfg, w, s, r);
    CheckErrorsAdds(cfg, w, s, CheckLatency(cfg, w, s, r));
    CheckPatternAdds(w, s, CheckErrors(cfg, w, s, CheckLatency(cfg, w, s, r)));
  }

  ghost predicate ReportFailed(cfg: Config, stats: map<Worker, Snapshot>) {
    exists w :: w in stats && (WorkerFails(cfg, w, stats[w]) || stats[w].corrupted > 0)
  }

  predicate MemoryOver(cfg: Config, run: RunInfo) {
    run.baseline > 0 && run.peak as real / run.baseline as real > cfg.thresholds.maxMemoryGrowth
  }

  ghost predicate ReportWarned(cfg: Config, run: RunInfo, stats: map<Worker, Snapshot>) {
    MemoryOver(cfg, run) || exists w :: w in stats && WorkerWarns(cfg, w, stats[w])
  }

  ghost function ReportResult(cfg: Config, run: RunInfo, stats: map<Worker, Snapshot>): Result {
    if ReportFailed(cfg, stats) then FAILED
    else if ReportWarned(cfg, run, stats) then PASSED_WITH_WARNINGS
    else PASSED
  }

  /** The per-worker part of the report, over the workers in whatever order they come. */
  method CheckWorkers(cfg: Config, stats: map<Worker, Snapshot>) returns (r: Report)
    ensures r.passed <==> forall w :: w in stats ==> !WorkerFails(cfg, w, stats[w])
    ensures r.warnings > 0 <==> exists w :: w in stats && WorkerWarns(cfg, w, stats[w])
    ensures FlagMatchesChecks(r) && CorruptionCheck !in r.checks && MemoryStability !in r.checks
  {
    r := Report(true, map[], 0);
    var todo := stats.Keys;
    while todo != {}
      invariant todo <= stats.Keys
      invariant r.passed <==> forall w :: w in stats && w !in todo ==> !WorkerFails(cfg, w, stats[w])
      invariant r.warnings > 0 <==> exists w :: w in stats && w !in todo && WorkerWarns(cfg, w, stats[w])
      invariant FlagMatchesChecks(r)
      invariant forall c :: c in r.checks ==> c.OfWorker? && c.worker !in todo
      decreases todo
    {
      var w :| w in todo;
      CheckWorkerMeaning(cfg, w, stats[w], r);
      CheckWorkerChecks(cfg, w, stats[w], r);
      r := CheckWorker(cfg, w, stats[w], r);
      todo := todo - {w};
    }
  }

  method TotalCorrupted(stats: map<Worker, Snapshot>) returns (total: nat)
    ensures total > 0 <==> exists w :: w in stats && stats[w].corrupted > 0
  {
    total := 0;
    var todo := stats.Keys;
    while todo != {}
      invariant todo <= stats.Keys
      invariant total > 0 <==> exists w :: w in stats && w !in todo && stats[w].corrupted > 0
      decreases todo
    {
      var w :| w in todo;
      total := total + stats[w].corrupted;
      todo := todo - {w};
    }
  }

  /** The report's verdict does not depend on the order of the workers, and its flag says
      exactly that every non-advisory check passed. */
  method GenerateVerdict(cfg: Config, run: RunInfo, stats: map<Worker, Snapshot>) returns (v: Verdict)
    ensures v.result == ReportResult(cfg, run, stats) && (v.passed <==> v.result != FAILED)
    ensures v.passed <==> forall c :: c in v.checks && !Advisory(c) ==> v.checks[c]
  {
    var r := CheckWorkers(cfg, stats);
    var corrupted := TotalCorrupted(stats);
    AddGateAdds(r, CorruptionCheck);
    r := AddGate(r, CorruptionCheck, corrupted == 0);
    assert r.passed <==> !ReportFailed(cfg, stats);
    var checks, warnings := r.checks, r.warnings;
    if run.baseline > 0 {
      var ok := run.peak as real / run.baseline as real <= cfg.thresholds.maxMemoryGrowth;
      checks := checks[MemoryStability := ok];
      if !ok {
        warnings := warnings + 1;
      }
    }
    v := Verdict(if !r.passed then FAILED else if warnings > 0 then PASSED_WITH_WARNINGS else PASSED, r.passed, checks);
    assert forall c :: c in checks && !Advisory(c) ==> c in r.checks && checks[c] == r.checks[c];
    assert forall c :: c in r.checks && !Advisory(c) ==> c in checks && checks[c] == r.checks[c];
  }

  // ---- reconciliation and exit code ----

  /** The workers a report covers: those with a snapshot that the run's config enables. */
  function Summarise(cfg: Config, snaps: map<Worker, Snapshot>): map<Worker, Snapshot> {
    map w | w in snaps && w in cfg.enabled :: snaps[w]
  }

  ghost function EngineResult(cfg: Config, run: RunInfo, snaps: map<Worker, Snapshot>): Result {
    if EngineFailed(cfg, run, snaps) then FAILED
    else if MemoryGrew(cfg, run) then PASSED_WITH_WARNINGS
    else PASSED
  }

  datatype Option<T> = None | Some(value: T)

  /** The result printed; the engine has no verdict if shutdown timed out before it. */
  function Reconciled(report: Result, engine: Option<Result>): Result {
    if engine == Some(FAILED) then FAILED
    else if engine == Some(PASSED_WITH_WARNINGS) && report == PASSED then PASSED_WITH_WARNINGS
    else report
  }

  function Severity(result: Result): nat {
    match result case PASSED => 0 case PASSED_WITH_WARNINGS => 1 case FAILED => 2
  }

  /** What is printed is the worse of the two results; without an engine verdict, the report's. */
  lemma ReconciledIsTheWorse(report: Result, engine: Result)
    ensures var printed := Reconciled(report, Some(engine));
            && Severity(printed) >= Severity(report) && Severity(printed) >= Severity(engine)
            && (printed == report || printed == engine)
    ensures Reconciled(report, None) == report
  {
  }

  /** The exit codes as documented. */
  function CodeFor(result: Result): nat {
    match result case FAILED => 1 case PASSED_WITH_WARNINGS => 2 case PASSED => 0
  }

  /** Exit code of the process, which looks at the engine's verdict alone. */
  function ExitCode(engine: Option<Result>): nat {
    if engine.None? then 1 else CodeFor(engine.value)
  }

  method RunReport(cfg: Config, run: RunInfo, snaps: map<Worker, Snapshot>, engine: Option<EngineVerdict>)
    returns (v: Verdict)
    requires engine.Some? ==> (engine.value.passed <==> engine.value.result != FAILED)
    ensures v.result == Reconciled(ReportResult(cfg, run, Summarise(cfg, snaps)),
                                   if engine.Some? then Some(engine.value.result) else None)
    ensures v.passed <==> v.result != FAILED
  {
    v := GenerateVerdict(cfg, run, Summarise(cfg, snaps));
    if engine.Some? && !engine.value.passed {
      v := v.(passed := false, result := FAILED);
    } else if engine.Some? && engine.value.result == PASSED_WITH_WARNINGS && v.result == PASSED {
      v := v.(result := PASSED_WITH_WARNINGS);
    }
  }

  /** The report's one-threshold phrasing of the loss gate is the engine's two-comparison one. */
  lemma LossGatesAgree(cfg: Config, run: RunInfo, w: Worker, s: Snapshot)
    ensures Fails(cfg, run, w, s, Loss) <==>
            s.sent > 0 && Pct(s.lost, s.sent) > LossGateThreshold(cfg.thresholds.maxLossPct)
  {
  }

  // The engine gate behind each hard failure of the report.
  lemma WorkerFailureHasGate(cfg: Config, run: RunInfo, w: Worker, s: Snapshot)
    requires WorkerFails(cfg, w, s) && (cfg.thresholds.maxP99 > 0.0 || LatencyExempt(w))
    ensures exists g :: Fails(cfg, run, w, s, g)
  {
    if s.sent > 0 && Pct(s.lost, s.sent) > LossGateThreshold(cfg.thresholds.maxLossPct) {
      assert Fails(cfg, run, w, s, Loss);
    } else if s.received > 0 && !DuplicationExempt(w) &&
              Pct(s.duplicated, s.received) > cfg.thresholds.maxDuplicationPct {
      assert Fails(cfg, run, w, s, Duplication);
    } else if s.p99 > 0.0 && !LatencyExempt(w) && s.p99 > cfg.thresholds.maxP99 {
      assert Fails(cfg, run, w, s, P99);
    } else if s.sent + s.received > 0 && Pct(s.errors, s.sent + s.received) > cfg.thresholds.maxErrorRatePct {
      assert Fails(cfg, run, w, s, ErrorRate);
    } else {
      assert Fails(cfg, run, w, s, Ordering) || Fails(cfg, run, w, s, Unreconciled)
          || Fails(cfg, run, w, s, DeadLetterLoss) || Fails(cfg, run, w, s, FanoutDrop)
          || Fails(cfg, run, w, s, Interop);
    }
  }

  /** Every hard failure of the report is a failure of the engine. */
  ghost predicate ReportNeverStricter(cfg: Config, run: RunInfo) {
    forall snaps: map<Worker, Snapshot> :: ReportFailed(cfg, Summarise(cfg, snaps)) ==> EngineFailed(cfg, run, snaps)
  }

  lemma ReportFailureIsEngineFailure(cfg: Config, run: RunInfo, snaps: map<Worker, Snapshot>)
    requires cfg.thresholds.maxP99 > 0.0 || (forall w :: w in cfg.enabled ==> LatencyExempt(w))
    requires ReportFailed(cfg, Summarise(cfg, snaps))
    ensures EngineFailed(cfg, run, snaps)
  {
    var w :| w in Summarise(cfg, snaps) && (WorkerFails(cfg, w, snaps[w]) || snaps[w].corrupted > 0);
    if snaps[w].corrupted > 0 {
      assert Fails(cfg, run, w, snaps[w], Corruption);
    } else {
      WorkerFailureHasGate(cfg, run, w, snaps[w]);
    }
  }

  lemma SlowSnapshot(cfg: Config, run: RunInfo, w: Worker)
    requires w in cfg.enabled && !LatencyExempt(w) && cfg.thresholds.maxP99 <= 0.0
    ensures var snaps := map[w := UNTOUCHED.(p99 := 1.0)];
            ReportFailed(cfg, Summarise(cfg, snaps)) && !EngineFailed(cfg, run, snaps)
  {
    var snaps := map[w := UNTOUCHED.(p99 := 1.0)];
    assert WorkerFails(cfg, w, Summarise(cfg, snaps)[w]);
  }

  /** The report fails no run the engine passes, whatever the snapshots, exactly when the p99
      threshold is positive or no enabled worker has a p99 gate. Config validation ensures
      the former. */
  lemma ReportNeverStricterIff(cfg: Config, run: RunInfo)
    ensures ReportNeverStricter(cfg, run) <==>
            cfg.thresholds.maxP99 > 0.0 || (forall w :: w in cfg.enabled ==> LatencyExempt(w))
  {
    if cfg.thresholds.maxP99 > 0.0 || (forall w :: w in cfg.enabled ==> LatencyExempt(w)) {
      forall snaps: map<Worker, Snapshot> | ReportFailed(cfg, Summarise(cfg, snaps))
        ensures EngineFailed(cfg, run, snaps)
      {
        ReportFailureIsEngineFailure(cfg, run, snaps);
      }
    } else {
      var w :| w in cfg.enabled && !LatencyExempt(w);
      SlowSnapshot(cfg, run, w);
    }
  }

  /** The other way round it is hopeless: whatever the config, there are snapshots that fail
      the engine and not the report. */
  lemma EngineIsStricter(cfg: Config, run: RunInfo)
    ensures exists snaps :: EngineFailed(cfg, run, snaps) && !ReportFailed(cfg, Summarise(cfg, snaps))
  {
    var snaps := map[PublishPull := UNTOUCHED.(batchAtomicityViolations := 1)];
    assert Fails(cfg, run, PublishPull, snaps[PublishPull], BatchAtomicity);
    assert EngineFailed(cfg, run, snaps) && !ReportFailed(cfg, Summarise(cfg, snaps));
  }

  /** The engine's verdict, read once when shutdown returns and once more when the report is
      made: nil until the run is judged, and from then on the result for its snapshots. */
  ghost predicate Reads(cfg: Config, run: RunInfo, snaps: map<Worker, Snapshot>,
                        atExit: Option<Result>, atReport: Option<Result>)
  {
    && (atReport.Some? ==> atReport.value == EngineResult(cfg, run, snaps))
    && (atExit.Some? ==> atReport == atExit)
  }

  /** The result a read of the engine's verdict makes the report print. */
  ghost function Printed(cfg: Config, run: RunInfo, snaps: map<Worker, Snapshot>, atReport: Option<Result>): Result {
    Reconciled(ReportResult(cfg, run, Summarise(cfg, snaps)), atReport)
  }

  // With validated thresholds the report fails exactly when a judged run failed or, for a
  // run not judged yet, when one of the report's own checks does.
  lemma PrintedFails(cfg: Config, run: RunInfo, snaps: map<Worker, Snapshot>, atExit: Option<Result>,
                     atReport: Option<Result>)
    requires Validated(cfg.thresholds) && Reads(cfg, run, snaps, atExit, atReport)
    ensures Printed(cfg, run, snaps, atReport) == FAILED <==>
            if atReport.Some? then EngineFailed(cfg, run, snaps) else ReportFailed(cfg, Summarise(cfg, snaps))
  {
    if ReportFailed(cfg, Summarise(cfg, snaps)) {
      ReportFailureIsEngineFailure(cfg, run, snaps);
    }
  }

  /** With validated thresholds, "the printed report fails exactly when the exit code is 1"
      is true of a process that had a verdict when shutdown returned; of one that had none,
      exactly when the run fails by the verdict that came in before the report or, if none
      did, by the report's own checks. */
  lemma ReportFailsIffExitOne(cfg: Config, run: RunInfo, snaps: map<Worker, Snapshot>, atExit: Option<Result>,
                              atReport: Option<Result>)
    requires Validated(cfg.thresholds) && Reads(cfg, run, snaps, atExit, atReport)
    ensures (Printed(cfg, run, snaps, atReport) == FAILED <==> ExitCode(atExit) == 1) <==>
            || atExit.Some?
            || (if atReport.Some? then EngineFailed(cfg, run, snaps) else ReportFailed(cfg, Summarise(cfg, snaps)))
  {
    PrintedFails(cfg, run, snaps, atExit, atReport);
  }

  lemma MemoryChecksAgree(cfg: Config, run: RunInfo)
    requires cfg.thresholds.maxMemoryGrowth >= 1.0
    ensures MemoryOver(cfg, run) <==> MemoryGrew(cfg, run)
  {
    if run.baseline > 0 && run.peak <= run.baseline {
      assert run.peak as real / run.baseline as real <= 1.0;
    }
  }

  /** An exempt worker of the report is over one of its thresholds. */
  ghost predicate ExemptWarns(cfg: Config, snaps: map<Worker, Snapshot>) {
    exists w :: w in snaps && w in cfg.enabled && WorkerWarns(cfg, w, snaps[w])
  }

  lemma ExemptWarnsInSummary(cfg: Config, snaps: map<Worker, Snapshot>)
    ensures var stats := Summarise(cfg, snaps);
            ExemptWarns(cfg, snaps) <==> exists w :: w in stats && WorkerWarns(cfg, w, stats[w])
  {
    if w :| w in snaps && w in cfg.enabled && WorkerWarns(cfg, w, snaps[w]) {
      assert w in Summarise(cfg, snaps) && Summarise(cfg, snaps)[w] == snaps[w];
    }
  }

  /** The documented meaning of the exit codes (0 passed, 2 passed with warnings, 1 failed)
      holds for the printed result in exactly these cases. With a verdict when shutdown
      returned: unless the run passed without memory growth and an exempt worker is over its
      threshold, when the report says "with warnings" and the process exits 0. With none:
      the process exits 1, so the printed result has to be a failure. */
  lemma ExitCodeMatchesReportIff(cfg: Config, run: RunInfo, snaps: map<Worker, Snapshot>, atExit: Option<Result>,
                                 atReport: Option<Result>)
    requires Validated(cfg.thresholds) && Reads(cfg, run, snaps, atExit, atReport)
    ensures ExitCode(atExit) == CodeFor(Printed(cfg, run, snaps, atReport)) <==>
            if atExit.Some? then EngineFailed(cfg, run, snaps) || MemoryGrew(cfg, run) || !ExemptWarns(cfg, snaps)
            else if atReport.Some? then EngineFailed(cfg, run, snaps)
            else ReportFailed(cfg, Summarise(cfg, snaps))
  {
    PrintedFails(cfg, run, snaps, atExit, atReport);
    MemoryChecksAgree(cfg, run);
    ExemptWarnsInSummary(cfg, snaps);
  }

  /** So a clean run that is not judged yet is printed as passed while the process exits 1. */
  lemma UnjudgedRunExitsOne(cfg: Config, run: RunInfo, w: Worker)
    ensures var snaps := map[w := UNTOUCHED];
            Reads(cfg, run, snaps, None, None) && Printed(cfg, run, snaps, None) != FAILED && ExitCode(None) == 1
  {
  }
}

/** The tracker's loss count at the loss gate. */
module LossGate {
  import opened SequenceModel
  import opened LossAccounting
  import opened LossAmplification
  import opened Verdicts

  /** Exactly one of the sequences up to `last` is lost, all others are delivered once and in
      order, and a worker that sent them fails the loss gate. */
  ghost predicate OneLossFails(cfg: Config, run: RunInfo, w: Worker, window: nat, first: nat, last: nat) {
    exists lost :: OneTrueLoss(window, first, last, lost) && FailsWith(cfg, run, w, |OneLost(first, last)| + 1, lost)
  }

  predicate FailsWith(cfg: Config, run: RunInfo, w: Worker, sent: nat, lost: nat) {
    Fails(cfg, run, w, UNTOUCHED.(sent := sent, lost := lost), Loss)
  }

  /** Every run that reaches `enough` fails that way. */
  ghost predicate FailsFrom(cfg: Config, run: RunInfo, w: Worker, window: nat, first: nat, enough: nat) {
    forall last :: last >= enough ==> OneLossFails(cfg, run, w, window, first, last)
  }

  /** For every window and every loss threshold under 100 percent, a single lost message fails
      the loss gate of every run that is long enough. */
  lemma OneLossFailsLongRuns(cfg: Config, run: RunInfo, w: Worker, window: nat, first: nat)
    requires window >= 1 && cfg.thresholds.maxLossPct < 100.0
    ensures exists enough :: FailsFrom(cfg, run, w, window, first, enough)
  {
    var full := RoundEnd(window, first, window);
    var limit := if cfg.thresholds.maxLossPct > BOUNDARY_LOSS_PCT then cfg.thresholds.maxLossPct else BOUNDARY_LOSS_PCT;
    var enough := full + Enough(limit, full - first + 1);
    forall last | last >= enough ensures OneLossFails(cfg, run, w, window, first, last) {
      OneLossFailsAt(cfg, run, w, window, first, full, limit, last);
    }
    assert FailsFrom(cfg, run, w, window, first, enough);
  }

  lemma OneLossFailsAt(cfg: Config, run: RunInfo, w: Worker, window: nat, first: nat, full: nat, limit: real,
                       last: nat)
    requires window >= 1 && full == RoundEnd(window, first, window)
    requires cfg.thresholds.maxLossPct <= limit && BOUNDARY_LOSS_PCT <= limit < 100.0
    requires last >= full + Enough(limit, full - first + 1)
    ensures OneLossFails(cfg, run, w, window, first, last)
  {
    var lost := Triangle(window) + (last - full);
    ThenEveryArrivalIsReported(window, first, last - full, last, lost);
    ShareExceeds(limit, full - first + 1, last - full, lost);
    OverLimitFails(cfg, run, w, last - first + 1, lost, limit);
    assert FailsWith(cfg, run, w, |OneLost(first, last)| + 1, lost);
  }

  lemma OverLimitFails(cfg: Config, run: RunInfo, w: Worker, sent: nat, lost: nat, limit: real)
    requires cfg.thresholds.maxLossPct <= limit && BOUNDARY_LOSS_PCT <= limit && sent > 0 && Pct(lost, sent) > limit
    ensures FailsWith(cfg, run, w, sent, lost)
  {
  }

  /** How many reported losses beside `others` other messages are a share over `limit` percent. */
  function Enough(limit: real, others: nat): nat
    requires 0.0 <= limit < 100.0
  {
    Times(limit * others as real, 100.0 - limit)
  }

  /** A multiple of `b` above `a`. */
  function Times(a: real, b: real): (n: nat)
    requires b > 0.0
    ensures n as real * b > a
  {
    var n := if a / b < 0.0 then 0 else (a / b).Floor + 1;
    Crossed(a, b, n as real);
    n
  }

  lemma Crossed(a: real, b: real, x: real)
    requires b > 0.0 && x > a / b
    ensures x * b > a
  {
    assert a / b * b == a;
  }

  lemma ShareExceeds(limit: real, others: nat, m: nat, lost: nat)
    requires 0.0 <= limit < 100.0 && others > 0 && m >= Enough(limit, others) && lost >= m
    ensures Pct(lost, others + m) > limit
  {
    var o, x, y := others as real, m as real, lost as real;
    var least := Enough(limit, others) as real;
    assert least * (100.0 - limit) > limit * o;
    OverShare(limit, o, least, x);
    assert (others + m) as real == o + x;
    Scaled(y, o + x, limit);
  }

  lemma OverShare(limit: real, o: real, least: real, x: real)
    requires limit < 100.0 && least <= x && least * (100.0 - limit) > limit * o
    ensures 100.0 * x > limit * (o + x)
  {
    Grows(least, x, 100.0 - limit);
    assert x * (100.0 - limit) == 100.0 * x - limit * x;
    assert limit * (o + x) == limit * o + limit * x;
  }

  lemma Grows(x: real, y: real, b: real)
    requires x <= y && b > 0.0
    ensures x * b <= y * b
  {
  }

  lemma Scaled(part: real, whole: real, limit: real)
    requires whole > 0.0 && 100.0 * part > limit * whole
    ensures part / whole * 100.0 > limit
  {
    assert part / whole * 100.0 * whole == 100.0 * part;
  }

  /** With the default reorder window of 10000 and a loss threshold at or under the boundary
      tolerance, 1010103 messages are enough for one of them to fail the run. */
  lemma OneLostMessageFailsTheRun(cfg: Config, run: RunInfo, w: Worker, first: nat)
    requires cfg.thresholds.maxLossPct <= BOUNDARY_LOSS_PCT
    ensures OneLossFails(cfg, run, w, 10000, first, first + 1 + 101 * 10001)
    ensures |OneLost(first, first + 1 + 101 * 10001)| + 1 == 1010103
  {
    OneLossIsReportedQuadratically(10000, first, 101);
    DefaultShareFails(cfg, run, w, Triangle(101));
    assert FailsWith(cfg, run, w, |OneLost(first, first + 1 + 101 * 10001)| + 1, Triangle(101));
  }

  lemma DefaultShareFails(cfg: Config, run: RunInfo, w: Worker, lost: nat)
    requires cfg.thresholds.maxLossPct <= BOUNDARY_LOSS_PCT && 2 * lost == 101 * 102
    ensures FailsWith(cfg, run, w, 1010103, lost)
  {
    assert Pct(5151, 1010103) > BOUNDARY_LOSS_PCT;
  }
}

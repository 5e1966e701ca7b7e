/** The arrival that slides the window is never marked, so it is itself counted as lost
    one window later. This module follows that through: one sequence that never arrives,
    with every other sequence delivered once and in order, makes the loss counter grow
    by one, two, three, ... in consecutive windows. */
module LossAmplification {
  import opened SequenceModel
  import opened LossAccounting

  // `run(n)` is the state once sequence `n` has been recorded.
  ghost predicate Next(window: nat, run: nat -> Producer, n: nat) {
    n > 0 && run(n) == Step(window, run(n - 1), n)
  }

  /** The sequences `from`, `from + 1`, ..., `last` arrive once each, in order. */
  ghost predicate InOrder(window: nat, run: nat -> Producer, from: nat, last: nat) {
    forall n :: from <= n <= last ==> Next(window, run, n)
  }

  /** The watermark is `high`, exactly `lo..hi` are marked, and since `base` the sequences
      `start + 1..charged` became pending. */
  ghost predicate Stage(p: Producer, high: nat, lo: nat, hi: nat, base: set<nat>, start: nat, charged: nat) {
    && p.high == high
    && (forall t :: t in p.above <==> lo <= t <= hi)
    && (forall t :: t in p.pending <==> t in base || start < t <= charged)
  }

  // An arrival inside the window that does not close the gap is only marked.
  lemma MarkAhead(window: nat, q: Producer, n: nat)
    requires q.high + 1 < n <= q.high + window && n !in q.above && q.high + 1 !in q.above
    requires forall t :: t in q.above ==> t > q.high
    ensures var after := Step(window, q, n);
            after.high == q.high && after.pending == q.pending && after.above == q.above + {n}
  {
    GapEndUnique(q.high, q.above + {n}, q.high);
    assert Beyond(q.above + {n}, q.high) == q.above + {n};
  }

  // The arrival exactly one past the window changes nothing but the arrival counters.
  lemma SlideByNone(window: nat, q: Producer, n: nat)
    requires n == q.high + window + 1
    ensures var after := Step(window, q, n);
            after.high == q.high && after.pending == q.pending && after.above == q.above
  {
  }

  // A slide by exactly one evicts the sequence after the watermark and settles.
  lemma SlideByOne(window: nat, q: Producer, n: nat, end: nat)
    requires window >= 1 && n == q.high + window + 2
    requires forall t :: t in q.above ==> q.high + 1 < t
    requires q.high + 1 <= end && (forall t :: q.high + 1 < t <= end ==> t in q.above) && end + 1 !in q.above
    ensures var after := Step(window, q, n);
            && after.high == end && after.pending == q.pending + {q.high + 1}
            && after.above == Beyond(q.above, end)
  {
    assert Beyond(q.above, q.high + 1) == q.above;
    assert Evicted(q.high, q.above, 1) == {q.high + 1};
    GapEndUnique(q.high + 1, q.above, end);
  }

  lemma FillOne(window: nat, q: Producer, after: Producer, base: set<nat>, start: nat, lo: nat, last: nat)
    requires start + 1 < lo <= last <= start + window && after == Step(window, q, last)
    requires Stage(q, start, lo, last - 1, base, start, start)
    ensures Stage(after, start, lo, last, base, start, start)
  {
    MarkAhead(window, q, last);
  }

  // With the `owed` sequences after the watermark unmarked, in-order arrivals fill the window.
  lemma {:induction false} FillWindow(window: nat, run: nat -> Producer, start: nat, owed: nat, last: nat)
    requires 1 <= owed && start + owed <= last <= start + window
    requires InOrder(window, run, start + owed + 1, last)
    requires run(start + owed).high == start && run(start + owed).above == {}
    ensures Stage(run(last), start, start + owed + 1, last, run(start + owed).pending, start, start)
  {
    if last > start + owed {
      FillWindow(window, run, start, owed, last - 1);
      assert Next(window, run, last);
      FillOne(window, run(last - 1), run(last), run(start + owed).pending, start, start + owed + 1, last);
    }
  }

  lemma EvictNone(window: nat, q: Producer, after: Producer, base: set<nat>, start: nat, owed: nat)
    requires Stage(q, start, start + owed + 1, start + window, base, start, start)
    requires after == Step(window, q, start + window + 1)
    ensures Stage(after, start, start + owed + 1, start + window, base, start, start)
  {
    SlideByNone(window, q, start + window + 1);
  }

  // One more of the owed sequences is evicted; the next one still blocks the watermark.
  lemma EvictBlocked(window: nat, q: Producer, after: Producer, base: set<nat>, start: nat, owed: nat, i: nat)
    requires 1 <= i < owed <= window && after == Step(window, q, start + window + 1 + i)
    requires Stage(q, start + i - 1, start + owed + 1, start + window, base, start, start + i - 1)
    ensures Stage(after, start + i, start + owed + 1, start + window, base, start, start + i)
  {
    SlideByOne(window, q, start + window + 1 + i, start + i);
  }

  // The last of the owed sequences is evicted and the watermark runs through the window.
  lemma EvictLast(window: nat, q: Producer, base: set<nat>, start: nat, owed: nat)
    requires 1 <= owed <= window
    requires Stage(q, start + owed - 1, start + owed + 1, start + window, base, start, start + owed - 1)
    ensures Stage(Step(window, q, start + window + 1 + owed), start + window, start + window + 1, start + window, base,
                  start, start + owed)
  {
    SlideByOne(window, q, start + window + 1 + owed, start + window);
  }

  lemma NextEvictsLast(window: nat, run: nat -> Producer, base: set<nat>, start: nat, owed: nat)
    requires 1 <= owed <= window && Next(window, run, start + window + 1 + owed)
    ensures Stage(run(start + window + owed), start + owed - 1, start + owed + 1, start + window, base, start,
                  start + owed - 1) ==>
            Stage(run(start + window + 1 + owed), start + window, start + window + 1, start + window, base, start,
                  start + owed)
  {
    var q := run(start + window + owed);
    if Stage(q, start + owed - 1, start + owed + 1, start + window, base, start, start + owed - 1) {
      EvictLast(window, q, base, start, owed);
    }
  }

  lemma {:induction false} EvictOwed(window: nat, run: nat -> Producer, base: set<nat>, start: nat, owed: nat, i: nat)
    requires 1 <= owed <= window && i < owed
    requires InOrder(window, run, start + window + 1, start + window + 1 + i)
    requires Stage(run(start + window), start, start + owed + 1, start + window, base, start, start)
    ensures Stage(run(start + window + 1 + i), start + i, start + owed + 1, start + window, base, start, start + i)
  {
    var n := start + window + 1 + i;
    assert Next(window, run, n);
    if i == 0 {
      EvictNone(window, run(n - 1), run(n), base, start, owed);
    } else {
      EvictOwed(window, run, base, start, owed, i - 1);
      EvictBlocked(window, run(n - 1), run(n), base, start, owed, i);
    }
  }

  lemma InOrderPart(window: nat, run: nat -> Producer, from: nat, last: nat, a: nat, b: nat)
    requires InOrder(window, run, from, last) && from <= a && b <= last
    ensures InOrder(window, run, a, b)
  {
  }

  // The window is full and all owed sequences but the last are charged.
  lemma BeforeLast(window: nat, run: nat -> Producer, start: nat, owed: nat)
    requires 1 <= owed <= window
    requires InOrder(window, run, start + owed + 1, start + window + owed)
    requires run(start + owed).high == start && run(start + owed).above == {}
    ensures Stage(run(start + window + owed), start + owed - 1, start + owed + 1, start + window,
                  run(start + owed).pending, start, start + owed - 1)
  {
    InOrderPart(window, run, start + owed + 1, start + window + owed, start + owed + 1, start + window);
    InOrderPart(window, run, start + owed + 1, start + window + owed, start + window + 1, start + window + owed);
    FillWindow(window, run, start, owed, start + window);
    EvictOwed(window, run, run(start + owed).pending, start, owed, owed - 1);
  }

  /** One round: from a watermark with `owed` unmarked sequences after it, `window + 1`
      in-order arrivals move the watermark a full window on, charge all `owed` as lost,
      and leave `owed + 1` unmarked sequences behind the new watermark. */
  lemma OneRound(window: nat, run: nat -> Producer, start: nat, owed: nat)
    requires 1 <= owed <= window
    requires InOrder(window, run, start + owed + 1, start + window + 1 + owed)
    requires run(start + owed).high == start && run(start + owed).above == {}
    ensures Stage(run(start + window + 1 + owed), start + window, start + window + 1, start + window,
                  run(start + owed).pending, start, start + owed)
  {
    NextEvictsLast(window, run, run(start + owed).pending, start, owed);
    BeforeLast(window, run, start, owed);
  }

  // ---- all rounds ----

  /** 1 + 2 + ... + k. */
  function Triangle(k: nat): nat {
    if k == 0 then 0 else Triangle(k - 1) + k
  }

  /** The watermark after `k` rounds. */
  function RoundHigh(window: nat, first: nat, k: nat): (high: nat)
    ensures first <= high
  {
    if k == 0 then first else RoundHigh(window, first, k - 1) + window
  }

  /** The last sequence recorded by the end of round `k`. */
  function RoundEnd(window: nat, first: nat, k: nat): nat {
    RoundHigh(window, first, k) + k + 1
  }

  lemma {:induction false} ClosedForms(window: nat, first: nat, k: nat)
    ensures RoundHigh(window, first, k) == first + k * window
    ensures RoundEnd(window, first, k) == first + 1 + k * (window + 1)
    ensures 2 * Triangle(k) == k * (k + 1)
  {
    if k > 0 {
      ClosedForms(window, first, k - 1);
    }
  }

  /** The watermark is `high`, nothing is marked above it, and `lost` sequences are pending. */
  ghost predicate Bare(p: Producer, high: nat, lost: nat) {
    && p.high == high && p.above == {}
    && (forall t :: t in p.pending ==> t <= high)
    && |p.pending| == lost
  }

  /** After `k` rounds, with `k + 1` sequences left unmarked. */
  ghost predicate AfterRounds(p: Producer, window: nat, first: nat, k: nat) {
    Bare(p, RoundHigh(window, first, k), Triangle(k))
  }

  lemma ChargedSize(pending: set<nat>, base: set<nat>, start: nat, owed: nat)
    requires forall t :: t in pending <==> t in base || start < t <= start + owed
    requires forall t :: t in base ==> t <= start
    ensures |pending| == |base| + owed
  {
    var charged := Span(start + 1, start + owed);
    assert pending == base + charged;
    DisjointUnionSize(base, charged);
    SpanSize(start + 1, start + owed);
  }

  lemma NextRound(window: nat, run: nat -> Producer, first: nat, k: nat)
    requires 1 <= k <= window
    requires InOrder(window, run, RoundEnd(window, first, k - 1) + 1, RoundEnd(window, first, k))
    requires AfterRounds(run(RoundEnd(window, first, k - 1)), window, first, k - 1)
    ensures AfterRounds(run(RoundEnd(window, first, k)), window, first, k)
  {
    var start := RoundHigh(window, first, k - 1);
    OneRound(window, run, start, k);
    ChargedSize(run(start + window + 1 + k).pending, run(start + k).pending, start, k);
    assert run(start + window + 1 + k).above == {};
  }

  lemma {:induction false} Rounds(window: nat, run: nat -> Producer, first: nat, k: nat)
    requires k <= window && run(first + 1) == First(first)
    requires InOrder(window, run, first + 2, RoundEnd(window, first, k))
    ensures AfterRounds(run(RoundEnd(window, first, k)), window, first, k)
  {
    if k > 0 {
      var before := RoundEnd(window, first, k - 1);
      assert before < RoundEnd(window, first, k);
      InOrderPart(window, run, first + 2, RoundEnd(window, first, k), first + 2, before);
      InOrderPart(window, run, first + 2, RoundEnd(window, first, k), before + 1, RoundEnd(window, first, k));
      Rounds(window, run, first, k - 1);
      NextRound(window, run, first, k);
    }
  }

  // ---- saturation ----

  // With a full window owed, the next in-order arrival slides by one and is not marked.
  lemma EvictSaturated(window: nat, q: Producer, base: set<nat>, start: nat, high: nat)
    requires window >= 1 && high >= start && Stage(q, high, 1, 0, base, start, high)
    ensures Stage(Step(window, q, high + window + 2), high + 1, 1, 0, base, start, high + 1)
  {
    SlideByOne(window, q, high + window + 2, high + 1);
  }

  lemma SaturatedStep(window: nat, run: nat -> Producer, base: set<nat>, start: nat, m: nat)
    requires window >= 1 && Next(window, run, start + m + window + 2)
    ensures Stage(run(start + m + window + 1), start + m, 1, 0, base, start, start + m) ==>
            Stage(run(start + m + window + 2), start + m + 1, 1, 0, base, start, start + m + 1)
  {
    var q := run(start + m + window + 1);
    if Stage(q, start + m, 1, 0, base, start, start + m) {
      EvictSaturated(window, q, base, start, start + m);
    }
  }

  lemma {:induction false} SaturatedStages(window: nat, run: nat -> Producer, base: set<nat>, start: nat, m: nat)
    requires window >= 1 && Stage(run(start + window + 1), start, 1, 0, base, start, start)
    requires InOrder(window, run, start + window + 2, start + window + 1 + m)
    ensures Stage(run(start + m + window + 1), start + m, 1, 0, base, start, start + m)
  {
    if m > 0 {
      SaturatedStep(window, run, base, start, m - 1);
      SaturatedStages(window, run, base, start, m - 1);
    }
  }

  lemma StageIsBare(p: Producer, base: set<nat>, start: nat, m: nat)
    requires Stage(p, start + m, 1, 0, base, start, start + m) && (forall t :: t in base ==> t <= start)
    ensures Bare(p, start + m, |base| + m)
  {
    ChargedSize(p.pending, base, start, m);
    assert p.above == {};
  }

  /** Once `window + 1` sequences are owed the tracker never catches up: every later in-order
      arrival moves the watermark by one, is itself left unmarked and adds one loss. */
  lemma SaturatedForEver(window: nat, run: nat -> Producer, start: nat, lost: nat, m: nat)
    requires window >= 1 && Bare(run(start + window + 1), start, lost)
    requires InOrder(window, run, start + window + 2, start + window + 1 + m)
    ensures Bare(run(start + window + 1 + m), start + m, lost + m)
  {
    var base := run(start + window + 1).pending;
    SaturatedStages(window, run, base, start, m);
    StageIsBare(run(start + window + 1 + m), base, start, m);
  }

  // The run goes `m` arrivals beyond the last round.
  ghost predicate BeyondBy(window: nat, first: nat, m: nat, last: nat, high: nat, lost: nat) {
    && last == RoundEnd(window, first, window) + m
    && high == RoundHigh(window, first, window) + m
    && lost == Triangle(window) + m
  }

  lemma BeyondRounds(window: nat, run: nat -> Producer, first: nat, m: nat, last: nat, high: nat, lost: nat)
    requires window >= 1 && run(first + 1) == First(first)
    requires BeyondBy(window, first, m, last, high, lost) && InOrder(window, run, first + 2, last)
    ensures Bare(run(last), high, lost)
  {
    var full := RoundEnd(window, first, window);
    InOrderPart(window, run, first + 2, last, first + 2, full);
    InOrderPart(window, run, first + 2, last, full + 1, last);
    Rounds(window, run, first, window);
    SaturatedForEver(window, run, RoundHigh(window, first, window), Triangle(window), m);
  }

  /** Every sequence from `first` to `last` except `first + 1`, in order. */
  function OneLost(first: nat, last: nat): seq<nat>
    requires first < last
  {
    [first] + seq(last - first - 1, i requires 0 <= i => first + 2 + i)
  }

  function Trace(window: nat, first: nat): nat -> Producer {
    (n: nat) => if n <= first + 1 then First(first) else Run(window, OneLost(first, n))
  }

  lemma OneLostSplit(first: nat, n: nat)
    requires first + 2 <= n
    ensures var arrivals := OneLost(first, n);
            |arrivals| > 1 && arrivals[|arrivals| - 1] == n && arrivals[..|arrivals| - 1] == OneLost(first, n - 1)
    ensures OneLost(first, first + 1) == [first]
  {
  }

  lemma TraceNext(window: nat, first: nat, n: nat)
    requires first + 2 <= n
    ensures Next(window, Trace(window, first), n)
  {
    OneLostSplit(first, n);
    assert Run(window, [first]) == First(first);
  }

  lemma TraceIsInOrder(window: nat, first: nat, last: nat)
    ensures InOrder(window, Trace(window, first), first + 2, last)
  {
    forall n: nat ensures first + 2 <= n <= last ==> Next(window, Trace(window, first), n) {
      if first + 2 <= n {
        TraceNext(window, first, n);
      }
    }
  }

  lemma OneLostMissesOne(window: nat, first: nat, last: nat, l: Ledger)
    requires first + 1 <= l.producer.high <= last && l.first == first
    requires l.history == Seen(OneLost(first, last))
    ensures Missing(l) == {first + 1}
  {
    var arrivals := OneLost(first, last);
    forall t | first <= t <= last && t != first + 1 ensures t in arrivals {
      assert t == arrivals[if t == first then 0 else t - first - 1];
    }
  }

  /** All sequences up to `last` but one are delivered, and `lost` losses are reported. */
  ghost predicate OneTrueLoss(window: nat, first: nat, last: nat, lost: nat) {
    first < last &&
    var l := Replay(window, OneLost(first, last));
    Missing(l) == {first + 1} && l.producer.confirmedLost == lost
  }

  /** One lost sequence, all others delivered once and in order: after `k` rounds of
      `window + 1` arrivals, up to the `window`-th, the true loss is one and the reported
      loss is 1 + 2 + ... + k. */
  lemma OneLossIsReportedQuadratically(window: nat, first: nat, k: nat)
    requires 1 <= k <= window
    ensures OneTrueLoss(window, first, first + 1 + k * (window + 1), Triangle(k))
    ensures 2 * Triangle(k) == k * (k + 1)
  {
    var last := RoundEnd(window, first, k);
    ClosedForms(window, first, k);
    TraceIsInOrder(window, first, last);
    Rounds(window, Trace(window, first), first, k);
    AmplifiedLedger(window, first, last, RoundHigh(window, first, k), Triangle(k));
  }

  lemma {:induction false} RoundHighGrows(window: nat, first: nat, k: nat)
    requires window >= 1
    ensures RoundHigh(window, first, k) >= first + k
  {
    if k > 0 {
      RoundHighGrows(window, first, k - 1);
    }
  }

  /** After the last of those rounds it gets worse: for every number `m` of further arrivals,
      each of them adds one reported loss, and the true loss is still one. */
  lemma ThenEveryArrivalIsReported(window: nat, first: nat, m: nat, last: nat, lost: nat)
    requires window >= 1 && last == RoundEnd(window, first, window) + m && lost == Triangle(window) + m
    ensures OneTrueLoss(window, first, last, lost)
  {
    var high := RoundHigh(window, first, window) + m;
    TraceIsInOrder(window, first, last);
    BeyondRounds(window, Trace(window, first), first, m, last, high, lost);
    RoundHighGrows(window, first, window);
    AmplifiedLedger(window, first, last, high, lost);
  }

  // From the tracker's state to the ledger of the same run.
  lemma AmplifiedLedger(window: nat, first: nat, last: nat, high: nat, lost: nat)
    requires first + 1 <= high <= last && first + 2 <= last
    requires Bare(Trace(window, first)(last), high, lost)
    ensures OneTrueLoss(window, first, last, lost)
  {
    var arrivals := OneLost(first, last);
    ReplayIsOfRun(window, arrivals);
    HistoryIsSeen(window, arrivals);
    FirstIsFirst(window, arrivals);
    ReplayIsConsistent(window, arrivals);
    OneLostMissesOne(window, first, last, Replay(window, arrivals));
  }
}

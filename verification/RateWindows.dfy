/** The ring buffers behind the throughput figures, against a log with one entry per tick:
    `log[t]` is the number of events in tick `t`, and the last entry is the current tick. */
module RateWindows {

  function Sum(s: seq<nat>): nat {
    if s == [] then 0 else s[0] + Sum(s[1..])
  }

  lemma {:induction false} SumUpdate(s: seq<nat>, i: nat, v: nat)
    requires i < |s|
    ensures Sum(s[i := v]) == Sum(s) - s[i] + v
  {
    if i > 0 {
      SumUpdate(s[1..], i - 1, v);
      assert s[i := v][1..] == s[1..][i - 1 := v];
    } else {
      assert s[i := v][1..] == s[1..];
    }
  }

  lemma {:induction false} SumAppend(s: seq<nat>, v: nat)
    ensures Sum(s + [v]) == Sum(s) + v
  {
    if s == [] {
      assert s + [v] == [v];
    } else {
      SumAppend(s[1..], v);
      assert (s + [v])[1..] == s[1..] + [v];
    }
  }

  lemma {:induction false} SumConstant(s: seq<nat>, r: nat)
    requires forall i :: 0 <= i < |s| ==> s[i] == r
    ensures Sum(s) == |s| * r
  {
    if s != [] {
      SumConstant(s[1..], r);
      assert |s| * r == (|s| - 1) * r + r;
    }
  }

  /** The events of the current tick and the `n - 1` ticks before it. */
  function WindowSum(log: seq<nat>, n: nat): nat {
    Sum(if |log| > n then log[|log| - n..] else log)
  }

  lemma WindowTick(log: seq<nat>, n: nat)
    requires n >= 1 && |log| >= 1
    ensures WindowSum(log + [0], n) == WindowSum(log, n) - (if |log| >= n then log[|log| - n] else 0)
  {
    var next := log + [0];
    if |log| >= n {
      var window := log[|log| - n..];
      assert next[|next| - n..] == window[1..] + [0];
      SumAppend(window[1..], 0);
      assert |log| == n ==> log == window;
    } else {
      SumAppend(log, 0);
    }
  }

  lemma WindowRecord(log: seq<nat>, n: nat)
    requires n >= 1 && |log| >= 1
    ensures WindowSum(Recorded(log), n) == WindowSum(log, n) + 1
  {
    var last := |log| - 1;
    var next := Recorded(log);
    if |log| > n {
      assert next[|log| - n..] == log[|log| - n..][n - 1 := log[last] + 1];
      SumUpdate(log[|log| - n..], n - 1, log[last] + 1);
    } else {
      SumUpdate(log, last, log[last] + 1);
    }
  }

  function Recorded(log: seq<nat>): seq<nat>
    requires |log| >= 1
  {
    log[|log| - 1 := log[|log| - 1] + 1]
  }

  // ---- the ring ----

  function NextSlot(slot: nat, n: nat): nat {
    if slot + 1 >= n then 0 else slot + 1
  }

  /** The bucket of tick `t` in a ring of `n`. */
  function Slot(t: nat, n: nat): (slot: nat)
    requires n >= 1
    ensures slot < n
  {
    if t == 0 then 0 else NextSlot(Slot(t - 1, n), n)
  }

  lemma {:induction false} SlotAhead(t: nat, k: nat, n: nat)
    requires n >= 1 && k <= n
    ensures Slot(t + k, n) == if Slot(t, n) + k < n then Slot(t, n) + k else Slot(t, n) + k - n
  {
    if k > 0 {
      SlotAhead(t, k - 1, n);
    }
  }

  /** The last `n` ticks are in their buckets and buckets not reached yet are zero. */
  ghost predicate Slots(buckets: seq<nat>, idx: nat, log: seq<nat>, n: nat) {
    && n >= 1 && |buckets| == n && |log| >= 1
    && idx == Slot(|log| - 1, n)
    && (forall t :: |log| - n <= t < |log| && 0 <= t ==> buckets[Slot(t, n)] == log[t])
    && (forall i :: |log| <= i < n ==> buckets[i] == 0)
  }

  /** Besides, the buckets add up to the window. */
  ghost predicate Ring(buckets: seq<nat>, idx: nat, log: seq<nat>, n: nat) {
    Slots(buckets, idx, log, n) && Sum(buckets) == WindowSum(log, n)
  }

  lemma SlotsRecord(buckets: seq<nat>, idx: nat, log: seq<nat>, n: nat)
    requires Slots(buckets, idx, log, n)
    ensures Slots(buckets[idx := buckets[idx] + 1], idx, Recorded(log), n)
  {
    var last := |log| - 1;
    forall t | |log| - n <= t < last && 0 <= t ensures Slot(t, n) != idx {
      SlotAhead(t, last - t, n);
    }
    if |log| < n {
      SlotAhead(0, last, n);
    }
  }

  lemma RingRecord(buckets: seq<nat>, idx: nat, log: seq<nat>, n: nat)
    requires Ring(buckets, idx, log, n)
    ensures Ring(buckets[idx := buckets[idx] + 1], idx, Recorded(log), n)
  {
    SlotsRecord(buckets, idx, log, n);
    SumUpdate(buckets, idx, buckets[idx] + 1);
    WindowRecord(log, n);
  }

  // The bucket the ring moves on to holds the tick that leaves the window, if any.
  lemma RingNext(buckets: seq<nat>, idx: nat, log: seq<nat>, n: nat)
    requires Ring(buckets, idx, log, n)
    ensures NextSlot(idx, n) == Slot(|log|, n)
    ensures buckets[NextSlot(idx, n)] == if |log| >= n then log[|log| - n] else 0
  {
    if |log| >= n {
      SlotAhead(|log| - n, n, n);
    } else {
      SlotAhead(0, |log|, n);
    }
  }

  lemma RingAdvance(buckets: seq<nat>, idx: nat, log: seq<nat>, n: nat)
    requires Ring(buckets, idx, log, n)
    ensures Ring(buckets[NextSlot(idx, n) := 0], NextSlot(idx, n), log + [0], n)
  {
    var next := NextSlot(idx, n);
    var after, grown := buckets[next := 0], log + [0];
    RingNext(buckets, idx, log, n);
    forall t | |grown| - n <= t < |grown| && 0 <= t ensures after[Slot(t, n)] == grown[t] {
      SlotAhead(t, |log| - t, n);
    }
    SumUpdate(buckets, next, 0);
    WindowTick(log, n);
  }

  const SLIDING_WINDOW_SIZE: nat := 30
  const PEAK_WINDOW_SIZE: nat := 10

  /** Events of the current and the previous 29 ticks, per completed tick, at most 30. */
  function RateOf(log: seq<nat>): real {
    if |log| < 2 then 0.0 else WindowSum(log, 30) as real / (if |log| > 30 then 30 else |log| - 1) as real
  }

  /** A rate over a 30-tick sliding window, kept as a running total. */
  class SlidingRateWindow {
    const buckets: array<nat>
    var idx: nat
    var total: nat
    var ticks: nat
    ghost var log: seq<nat>

    ghost predicate Valid()
      reads this, buckets
    {
      && Ring(buckets[..], idx, log, SLIDING_WINDOW_SIZE)
      && ticks == |log| - 1
      && total == WindowSum(log, SLIDING_WINDOW_SIZE)
    }

    constructor ()
      ensures Valid() && log == [0] && fresh(buckets)
    {
      buckets := new nat[SLIDING_WINDOW_SIZE](_ => 0);
      idx, total, ticks, log := 0, 0, 0, [0];
      new;
      ZeroRing(buckets[..]);
    }

    method Record()
      requires Valid()
      modifies this, buckets
      ensures Valid() && log == Recorded(old(log))
    {
      RingRecord(buckets[..], idx, log, SLIDING_WINDOW_SIZE);
      WindowRecord(log, SLIDING_WINDOW_SIZE);
      ghost var next := buckets[..][idx := buckets[idx] + 1];
      buckets[idx] := buckets[idx] + 1;
      assert buckets[..] == next;
      total := total + 1;
      log := Recorded(log);
    }

    method Advance()
      requires Valid()
      modifies this, buckets
      ensures Valid() && log == old(log) + [0]
    {
      RingNext(buckets[..], idx, log, SLIDING_WINDOW_SIZE);
      RingAdvance(buckets[..], idx, log, SLIDING_WINDOW_SIZE);
      WindowTick(log, SLIDING_WINDOW_SIZE);
      ghost var next := buckets[..][NextSlot(idx, SLIDING_WINDOW_SIZE) := 0];
      idx := (idx + 1) % SLIDING_WINDOW_SIZE;
      total := total - buckets[idx];
      buckets[idx] := 0;
      assert buckets[..] == next;
      ticks := ticks + 1;
      log := log + [0];
    }

    method Rate() returns (rate: real)
      requires Valid()
      ensures rate == RateOf(log)
    {
      var window := if ticks > SLIDING_WINDOW_SIZE then SLIDING_WINDOW_SIZE else ticks;
      rate := if window == 0 then 0.0 else total as real / window as real;
    }

    method Reset()
      requires Valid()
      modifies this, buckets
      ensures Valid() && log == [0]
    {
      for i := 0 to buckets.Length
        invariant forall j :: 0 <= j < i ==> buckets[j] == 0
      {
        buckets[i] := 0;
      }
      idx, total, ticks, log := 0, 0, 0, [0];
      ZeroRing(buckets[..]);
    }
  }

  lemma ZeroRing(buckets: seq<nat>)
    requires |buckets| >= 1 && forall i :: 0 <= i < |buckets| ==> buckets[i] == 0
    ensures Ring(buckets, 0, [0], |buckets|) && WindowSum([0], |buckets|) == 0
  {
    SumConstant(buckets, 0);
  }

  // Completed ticks at `r` events each: the window holds as many of them as fit beside the
  // current tick.
  lemma SteadyWindow(log: seq<nat>, r: nat)
    requires |log| >= 1 && (forall t :: 0 <= t < |log| - 1 ==> log[t] == r)
    ensures WindowSum(log, 30) == (if |log| > 30 then 29 else |log| - 1) * r + log[|log| - 1]
  {
    var window := if |log| > 30 then log[|log| - 30..] else log;
    var full := window[..|window| - 1];
    assert window == full + [log[|log| - 1]];
    SumAppend(full, log[|log| - 1]);
    SumConstant(full, r);
  }

  /** At a steady `r` events per completed tick the reported rate is `r` exactly when the
      current tick, which is in the sum but not always in the divisor, has seen nothing in
      the first 29 ticks and exactly `r` events from then on. */
  lemma SteadyRateIsRightIff(log: seq<nat>, r: nat)
    requires |log| >= 2 && (forall t :: 0 <= t < |log| - 1 ==> log[t] == r)
    ensures RateOf(log) == r as real <==> log[|log| - 1] == if |log| > 30 then r else 0
  {
    SteadyWindow(log, r);
    if |log| <= 30 {
      var n, c := |log| - 1, log[|log| - 1];
      assert RateOf(log) == (n * r + c) as real / n as real;
      QuotientIs(n * r + c, n, r);
    }
  }

  lemma QuotientIs(total: nat, n: nat, r: nat)
    requires n > 0
    ensures total as real / n as real == r as real <==> total == n * r
  {
    assert (n * r) as real == n as real * r as real;
    if total as real / n as real == r as real {
      assert total as real == n as real * r as real;
    }
  }

  /** So a long steady run, read right after a tick, is reported at 29/30 of its rate. */
  lemma SteadyRateIsUnderstated(log: seq<nat>, r: nat)
    requires |log| >= 31 && log[|log| - 1] == 0
    requires forall t :: 0 <= t < |log| - 1 ==> log[t] == r
    ensures RateOf(log) == 29.0 / 30.0 * r as real
  {
    SteadyWindow(log, r);
  }

  // ---- peak ----

  /** The largest ten-tick window at the end of any completed tick. */
  function PeakWindow(log: seq<nat>): nat
    requires |log| >= 1
  {
    if |log| == 1 then 0
    else
      var before := log[..|log| - 1];
      var window := WindowSum(before, PEAK_WINDOW_SIZE);
      if window > PeakWindow(before) then window else PeakWindow(before)
  }

  lemma PeakAdvance(log: seq<nat>)
    requires |log| >= 1
    ensures var window := WindowSum(log, PEAK_WINDOW_SIZE);
            PeakWindow(log + [0]) == if window > PeakWindow(log) then window else PeakWindow(log)
  {
    assert (log + [0])[..|log|] == log;
  }

  /** That maximum is an upper bound of every completed window, and is reached unless zero. */
  lemma {:induction false} PeakWindowIsMaximum(log: seq<nat>)
    requires |log| >= 1
    ensures forall t :: 1 <= t < |log| ==> WindowSum(log[..t], PEAK_WINDOW_SIZE) <= PeakWindow(log)
    ensures || PeakWindow(log) == 0
            || exists t :: 1 <= t < |log| && WindowSum(log[..t], PEAK_WINDOW_SIZE) == PeakWindow(log)
  {
    if |log| > 1 {
      var before := log[..|log| - 1];
      PeakWindowIsMaximum(before);
      forall t | 1 <= t < |log| ensures WindowSum(log[..t], PEAK_WINDOW_SIZE) <= PeakWindow(log) {
        if t < |before| {
          assert before[..t] == log[..t];
        }
      }
      if PeakWindow(before) != 0 && PeakWindow(log) == PeakWindow(before) {
        var t :| 1 <= t < |before| && WindowSum(before[..t], PEAK_WINDOW_SIZE) == PeakWindow(before);
        assert before[..t] == log[..t];
      } else if PeakWindow(log) != 0 {
        assert WindowSum(log[..|log| - 1], PEAK_WINDOW_SIZE) == PeakWindow(log);
      }
    }
  }

  /** The peak rate a log amounts to. */
  function PeakOf(log: seq<nat>): real
    requires |log| >= 1
  {
    PeakWindow(log) as real / 10.0
  }

  lemma SteadyTenTicks(log: seq<nat>, r: nat)
    requires forall t :: 0 <= t < |log| ==> log[t] == r
    ensures WindowSum(log, PEAK_WINDOW_SIZE) == (if |log| > 10 then 10 else |log|) * r
  {
    SumConstant(if |log| > 10 then log[|log| - 10..] else log, r);
  }

  lemma {:induction false} SteadyPeakWindow(log: seq<nat>, r: nat)
    requires |log| >= 1 && (forall t :: 0 <= t < |log| - 1 ==> log[t] == r)
    ensures PeakWindow(log) == (if |log| > 10 then 10 else |log| - 1) * r
  {
    if |log| > 1 {
      var before := log[..|log| - 1];
      SteadyPeakWindow(before, r);
      SteadyTenTicks(before, r);
      var full, prior := if |before| > 10 then 10 else |before|, if |before| > 10 then 10 else |before| - 1;
      assert full * r == prior * r + (full - prior) * r;
    }
  }

  /** The peak of a steady rate is that rate exactly once ten ticks are complete; before that
      it is short by the ticks still missing. */
  lemma SteadyPeakIsRightIff(log: seq<nat>, r: nat)
    requires |log| >= 1 && (forall t :: 0 <= t < |log| - 1 ==> log[t] == r)
    ensures PeakOf(log) == r as real <==> |log| > 10 || r == 0
  {
    SteadyPeakWindow(log, r);
    if |log| <= 10 && r > 0 {
      assert (|log| - 1) * r + (11 - |log|) * r == 10 * r;
      assert (11 - |log|) * r > 0;
    }
  }

  /** Peak throughput over a ten-tick sliding window. */
  class PeakRateTracker {
    const buckets: array<nat>
    var idx: nat
    var peak: real
    ghost var log: seq<nat>

    ghost predicate Valid()
      reads this, buckets
    {
      && Ring(buckets[..], idx, log, PEAK_WINDOW_SIZE)
      && peak == PeakOf(log)
    }

    constructor ()
      ensures Valid() && log == [0] && fresh(buckets)
    {
      buckets := new nat[PEAK_WINDOW_SIZE](_ => 0);
      idx, peak, log := 0, 0.0, [0];
      new;
      ZeroRing(buckets[..]);
    }

    method Record()
      requires Valid()
      modifies this, buckets
      ensures Valid() && log == Recorded(old(log))
    {
      RingRecord(buckets[..], idx, log, PEAK_WINDOW_SIZE);
      ghost var next := buckets[..][idx := buckets[idx] + 1];
      assert Recorded(log)[..|log| - 1] == log[..|log| - 1];
      buckets[idx] := buckets[idx] + 1;
      assert buckets[..] == next;
      log := Recorded(log);
    }

    method Total() returns (total: nat)
      ensures total == Sum(buckets[..])
    {
      total := 0;
      for i := 0 to buckets.Length
        invariant total == Sum(buckets[..i])
      {
        assert buckets[..i + 1] == buckets[..i] + [buckets[i]];
        SumAppend(buckets[..i], buckets[i]);
        total := total + buckets[i];
      }
      assert buckets[..buckets.Length] == buckets[..];
    }

    /** Takes the window of the tick that ends into the peak. */
    method RaisePeak()
      requires Valid()
      modifies `peak
      ensures peak == PeakOf(log + [0])
    {
      var total := Total();
      var avg := total as real / PEAK_WINDOW_SIZE as real;
      if avg > peak {
        peak := avg;
      }
      PeakAdvance(log);
    }

    method Advance()
      requires Valid()
      modifies this, buckets
      ensures Valid() && log == old(log) + [0]
    {
      RingAdvance(buckets[..], idx, log, PEAK_WINDOW_SIZE);
      RaisePeak();
      ghost var next := buckets[..][NextSlot(idx, PEAK_WINDOW_SIZE) := 0];
      idx := (idx + 1) % PEAK_WINDOW_SIZE;
      buckets[idx] := 0;
      assert buckets[..] == next;
      log := log + [0];
    }
  }
}

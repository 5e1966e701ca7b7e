/** What the tracker's loss and receive counters mean, over every sequence of arrivals
    of one producer. A ledger runs beside the tracking state and remembers facts the
    tracker itself forgets: every sequence that ever arrived, which arrivals were
    credited, which slid the window, and which sequences a capped slide jumped over. */
module LossAccounting {
  import opened SequenceModel

  datatype Ledger = Ledger(
    producer: Producer,
    first: nat,
    history: set<nat>,    // every sequence that ever arrived
    accepted: set<nat>,   // credited as a distinct receive that is remembered
    jumped: set<nat>,     // passed by the watermark without being looked at
    slid: set<nat>,       // arrived far enough ahead to take the slide branch
    slides: nat)          // number of calls that took the slide branch

  function Open(n: nat): Ledger {
    Ledger(First(n), n, {n}, {n}, {}, {}, 0)
  }

  /** The sequences from `lo` to `hi`, both included. */
  function Span(lo: nat, hi: int): (r: set<nat>)
    ensures forall t :: t in r <==> lo <= t <= hi
    decreases hi
  {
    if hi < lo then {} else Span(lo, hi - 1) + {hi}
  }

  lemma {:induction false} SpanSize(lo: nat, hi: int)
    ensures |Span(lo, hi)| == if hi < lo then 0 else hi - lo + 1
    decreases hi
  {
    if hi >= lo {
      SpanSize(lo, hi - 1);
    }
  }

  function Observe(window: nat, l: Ledger, n: nat): Ledger {
    var next := l.(producer := Step(window, l.producer, n), history := l.history + {n});
    match Classify(window, l.producer, n)
    case Duplicate => next
    case Slid => next.(slid := l.slid + {n}, slides := l.slides + 1,
                       jumped := l.jumped + Span(l.producer.high + window + 1, n - window - 1))
    case _ => next.(accepted := l.accepted + {n})
  }

  function Replay(window: nat, arrivals: seq<nat>): Ledger
    requires |arrivals| > 0
  {
    if |arrivals| == 1 then Open(arrivals[0])
    else Observe(window, Replay(window, arrivals[..|arrivals| - 1]), arrivals[|arrivals| - 1])
  }

  // Each sequence between the first arrival and the watermark is in exactly one of
  // three places; above the watermark, credited means marked.
  ghost predicate Parts(first: nat, high: nat, above: set<nat>, accepted: set<nat>, pending: set<nat>,
                        jumped: set<nat>)
  {
    && first <= high
    && (forall t :: t in accepted ==> t !in pending && t !in jumped)
    && (forall t :: t in pending ==> t !in jumped)
    && (forall t :: first <= t <= high ==> t in accepted || t in pending || t in jumped)
    && (forall t :: t in pending ==> first <= t <= high)
    && (forall t :: t in jumped ==> first <= t <= high)
    && (forall t :: t in accepted ==> first <= t)
    && (forall t :: t > high ==> (t in accepted <==> t in above))
  }

  ghost predicate Partitioned(l: Ledger) {
    Parts(l.first, l.producer.high, l.producer.above, l.accepted, l.producer.pending, l.jumped)
  }

  ghost predicate InWindow(window: nat, high: nat, above: set<nat>) {
    forall t :: t in above ==> high < t <= high + window
  }

  ghost predicate WindowShape(window: nat, p: Producer) {
    && p.high + 1 !in p.above
    && InWindow(window, p.high, p.above)
    && p.confirmedLost == |p.pending|
  }

  ghost predicate Remembered(l: Ledger) {
    && l.accepted <= l.history && l.slid <= l.history
    && (forall t :: t in l.history && t >= l.first ==> t in l.accepted || t in l.slid || t in l.jumped)
    && |l.slid| <= l.slides
  }

  ghost predicate Conserved(l: Ledger) {
    l.producer.received == |l.accepted| + l.producer.duplicates + l.slides
  }

  ghost predicate Consistent(window: nat, l: Ledger) {
    Partitioned(l) && WindowShape(window, l.producer) && Remembered(l) && Conserved(l)
  }

  lemma SettleParts(first: nat, high: nat, above: set<nat>, accepted: set<nat>, pending: set<nat>, jumped: set<nat>)
    requires Parts(first, high, above, accepted, pending, jumped)
    ensures var end := GapEnd(high, above);
            Parts(first, end, Beyond(above, end), accepted, pending, jumped)
  {
  }

  lemma SlideParts(window: nat, l: Ledger, newHigh: nat)
    requires Partitioned(l) && InWindow(window, l.producer.high, l.producer.above)
    requires newHigh > l.producer.high
    ensures var p := l.producer;
            Parts(l.first, newHigh, Beyond(p.above, newHigh), l.accepted,
                  p.pending + Evicted(p.high, p.above, SlideDistance(window, p.high, newHigh)),
                  l.jumped + Span(p.high + window + 1, newHigh))
  {
  }

  lemma SlideFields(window: nat, p: Producer, n: nat)
    requires n > p.high + window + 1
    ensures var newHigh := n - window - 1;
            var above := Beyond(p.above, newHigh);
            var end := GapEnd(newHigh, above);
            var after := Step(window, p, n);
            && after.high == end && after.above == Beyond(above, end)
            && after.pending == p.pending + Evicted(p.high, p.above, SlideDistance(window, p.high, newHigh))
            && after.confirmedLost == |after.pending|
  {
  }

  // What a slide past the window's end does to the fields the partition is about.
  ghost predicate SlidTo(window: nat, l: Ledger, newHigh: nat, after: Ledger)
    requires newHigh > l.producer.high
  {
    var p := l.producer;
    var above := Beyond(p.above, newHigh);
    var end := GapEnd(newHigh, above);
    && after.first == l.first && after.producer.high == end
    && (after.producer.above, after.accepted, after.producer.pending, after.jumped)
       == (Beyond(above, end), l.accepted,
           p.pending + Evicted(p.high, p.above, SlideDistance(window, p.high, newHigh)),
           l.jumped + Span(p.high + window + 1, newHigh))
  }

  lemma ObserveSlides(window: nat, l: Ledger, n: nat)
    requires n > l.producer.high + window + 1
    ensures SlidTo(window, l, n - window - 1, Observe(window, l, n))
  {
    SlideFields(window, l.producer, n);
  }

  lemma SlidKeepsPartition(window: nat, l: Ledger, newHigh: nat, after: Ledger)
    requires newHigh > l.producer.high && SlidTo(window, l, newHigh, after)
    ensures Partitioned(l) && InWindow(window, l.producer.high, l.producer.above) ==> Partitioned(after)
  {
    var p := l.producer;
    if Partitioned(l) && InWindow(window, p.high, p.above) {
      SlideParts(window, l, newHigh);
      SettleParts(l.first, newHigh, Beyond(p.above, newHigh), l.accepted,
                  p.pending + Evicted(p.high, p.above, SlideDistance(window, p.high, newHigh)),
                  l.jumped + Span(p.high + window + 1, newHigh));
    }
  }

  lemma SlideKeepsPartition(window: nat, l: Ledger, n: nat)
    requires n > l.producer.high + window + 1
    ensures Partitioned(l) && InWindow(window, l.producer.high, l.producer.above) ==> Partitioned(Observe(window, l, n))
  {
    ObserveSlides(window, l, n);
    SlidKeepsPartition(window, l, n - window - 1, Observe(window, l, n));
  }

  lemma MarkKeepsPartition(window: nat, l: Ledger, n: nat)
    requires Partitioned(l)
    requires Classify(window, l.producer, n) == Marked
    ensures Partitioned(Observe(window, l, n))
  {
    var p := l.producer;
    assert Parts(l.first, p.high, p.above + {n}, l.accepted + {n}, p.pending, l.jumped);
    SettleParts(l.first, p.high, p.above + {n}, l.accepted + {n}, p.pending, l.jumped);
  }

  lemma MarkKeepsShape(window: nat, p: Producer, n: nat)
    requires WindowShape(window, p) && Classify(window, p, n) == Marked
    ensures WindowShape(window, Step(window, p, n))
  {
    assert InWindow(window, p.high, p.above + {n});
  }

  lemma SlideKeepsShape(window: nat, p: Producer, n: nat)
    requires WindowShape(window, p) && n > p.high + window + 1
    ensures WindowShape(window, Step(window, p, n))
  {
    SlideFields(window, p, n);
  }

  lemma StepKeepsShape(window: nat, p: Producer, n: nat)
    requires WindowShape(window, p)
    ensures WindowShape(window, Step(window, p, n))
  {
    if n > p.high + window + 1 {
      SlideKeepsShape(window, p, n);
    } else if Classify(window, p, n) == Marked {
      MarkKeepsShape(window, p, n);
    }
  }

  lemma ObserveKeepsPartition(window: nat, l: Ledger, n: nat)
    requires Partitioned(l) && InWindow(window, l.producer.high, l.producer.above)
    ensures Partitioned(Observe(window, l, n))
  {
    match Classify(window, l.producer, n)
    case Slid =>
      if n == l.producer.high + window + 1 {
        assert Span(n, n - window - 1) == {};
      } else {
        SlideKeepsPartition(window, l, n);
      }
    case Marked => MarkKeepsPartition(window, l, n);
    case Recovered =>
    case Duplicate =>
  }

  lemma ObserveRemembers(window: nat, l: Ledger, n: nat)
    requires Partitioned(l) && Remembered(l)
    ensures Remembered(Observe(window, l, n))
  {
    if Classify(window, l.producer, n) == Slid {
      assert |l.slid + {n}| <= |l.slid| + 1;
    }
  }

  lemma StepCounts(window: nat, p: Producer, n: nat)
    ensures Step(window, p, n).received == p.received + 1
    ensures Step(window, p, n).duplicates == p.duplicates + if Classify(window, p, n) == Duplicate then 1 else 0
  {
  }

  lemma ObserveConserves(window: nat, l: Ledger, n: nat)
    requires Partitioned(l) && Conserved(l)
    ensures Conserved(Observe(window, l, n))
  {
    StepCounts(window, l.producer, n);
  }

  lemma ObserveKeeps(window: nat, l: Ledger, n: nat)
    requires Consistent(window, l)
    ensures Consistent(window, Observe(window, l, n))
  {
    ObserveKeepsPartition(window, l, n);
    StepKeepsShape(window, l.producer, n);
    ObserveRemembers(window, l, n);
    ObserveConserves(window, l, n);
  }

  // ---- every run ----

  lemma ObserveFields(window: nat, l: Ledger, n: nat)
    ensures var after := Observe(window, l, n);
            after.producer == Step(window, l.producer, n) && after.first == l.first && after.history == l.history + {n}
  {
  }

  /** The ledger of a run follows the tracker through this very run. */
  lemma {:induction false} ReplayIsOfRun(window: nat, arrivals: seq<nat>)
    requires |arrivals| > 0
    ensures Replay(window, arrivals).producer == Run(window, arrivals)
  {
    if |arrivals| > 1 {
      var before := arrivals[..|arrivals| - 1];
      ReplayIsOfRun(window, before);
      ObserveFields(window, Replay(window, before), arrivals[|arrivals| - 1]);
    }
  }

  /** The ledger's history is what arrived. */
  lemma {:induction false} HistoryIsSeen(window: nat, arrivals: seq<nat>)
    requires |arrivals| > 0
    ensures Replay(window, arrivals).history == Seen(arrivals)
  {
    SeenSplit(arrivals);
    if |arrivals| > 1 {
      var before := arrivals[..|arrivals| - 1];
      HistoryIsSeen(window, before);
      ObserveFields(window, Replay(window, before), arrivals[|arrivals| - 1]);
    }
  }

  lemma {:induction false} FirstIsFirst(window: nat, arrivals: seq<nat>)
    requires |arrivals| > 0
    ensures Replay(window, arrivals).first == arrivals[0]
  {
    if |arrivals| > 1 {
      var before := arrivals[..|arrivals| - 1];
      FirstIsFirst(window, before);
      ObserveFields(window, Replay(window, before), arrivals[|arrivals| - 1]);
    }
  }

  /** Every reachable state is consistent. */
  lemma {:induction false} ReplayIsConsistent(window: nat, arrivals: seq<nat>)
    requires |arrivals| > 0
    ensures Consistent(window, Replay(window, arrivals))
  {
    if |arrivals| == 1 {
      OpenIsConsistent(window, arrivals[0]);
    } else {
      var before := arrivals[..|arrivals| - 1];
      ReplayIsConsistent(window, before);
      ObserveKeeps(window, Replay(window, before), arrivals[|arrivals| - 1]);
    }
  }

  lemma OpenIsConsistent(window: nat, n: nat)
    ensures Consistent(window, Open(n))
  {
  }

  /** Sequences between the first arrival and the watermark that never arrived. */
  function Missing(l: Ledger): set<nat> {
    Span(l.first, l.producer.high) - l.history
  }

  /** The loss counter, exactly: sequences that never arrived and were not jumped over,
      plus arrivals that slid the window, were never marked, and so count as lost. */
  lemma LossIdentity(window: nat, l: Ledger)
    requires Consistent(window, l)
    ensures l.producer.confirmedLost == |Missing(l) - l.jumped| + |l.producer.pending * l.history|
    ensures l.producer.pending * l.history <= l.slid
  {
    var p := l.producer.pending;
    assert Missing(l) - l.jumped == p - l.history;
    assert p == (p - l.history) + p * l.history;
    DisjointUnionSize(p - l.history, p * l.history);
  }

  lemma DisjointUnionSize(a: set<nat>, b: set<nat>)
    requires forall t :: t in a ==> t !in b
    ensures |a + b| == |a| + |b|
  {
    assert a * b == {};
  }

  lemma SubsetSize(a: set<nat>, b: set<nat>)
    requires a <= b
    ensures |a| <= |b|
  {
    assert b == a + (b - a);
    DisjointUnionSize(a, b - a);
  }

  /** Two-sided bound: the counter exceeds the true loss by at most one for each call
      that slid the window, and falls short of it by at most the jumped sequences. */
  lemma LossBounds(window: nat, arrivals: seq<nat>)
    requires |arrivals| > 0
    ensures var l := Replay(window, arrivals);
            && l.producer.confirmedLost <= |Missing(l)| + l.slides
            && |Missing(l)| <= l.producer.confirmedLost + |l.jumped|
  {
    var l := Replay(window, arrivals);
    ReplayIsConsistent(window, arrivals);
    LossIdentity(window, l);
    SubsetSize(l.producer.pending * l.history, l.slid);
    SubsetSize(Missing(l) - l.jumped, Missing(l));
    assert Missing(l) == (Missing(l) - l.jumped) + Missing(l) * l.jumped;
    DisjointUnionSize(Missing(l) - l.jumped, Missing(l) * l.jumped);
    SubsetSize(Missing(l) * l.jumped, l.jumped);
  }

  // ---- when the pending count is the true loss ----

  /** Arrivals that slid the window, were passed by the watermark and never credited: the
      tracker takes them for lost. */
  function Forgotten(l: Ledger): set<nat> {
    set t | t in l.slid && l.first <= t <= l.producer.high && t !in l.accepted && t !in l.jumped
  }

  lemma PendingArrivalsAreForgotten(window: nat, l: Ledger)
    requires Consistent(window, l)
    ensures l.producer.pending * l.history == Forgotten(l)
  {
  }

  /** In every run the loss counter and the true loss differ by exactly two things: lost
      sequences the watermark jumped over are not counted, and forgotten arrivals are. */
  lemma LossBalance(window: nat, arrivals: seq<nat>)
    requires |arrivals| > 0
    ensures var l := Replay(window, arrivals);
            l.producer.confirmedLost + |Missing(l) * l.jumped| == |Missing(l)| + |Forgotten(l)|
  {
    var l := Replay(window, arrivals);
    ReplayIsConsistent(window, arrivals);
    LossIdentity(window, l);
    PendingArrivalsAreForgotten(window, l);
    assert Missing(l) == (Missing(l) - l.jumped) + Missing(l) * l.jumped;
    DisjointUnionSize(Missing(l) - l.jumped, Missing(l) * l.jumped);
  }

  /** So the counter is the true loss exactly when the two cancel out. In a run with no
      arrival more than two windows ahead nothing is jumped over, and it is the true loss
      exactly when every arrival that slid the window and was passed by the watermark has
      been credited by a later arrival of the same sequence. */
  lemma CounterIsTrueLossIff(window: nat, arrivals: seq<nat>)
    requires |arrivals| > 0
    ensures var l := Replay(window, arrivals);
            l.producer.confirmedLost == |Missing(l)| <==> |Missing(l) * l.jumped| == |Forgotten(l)|
    ensures var l := Replay(window, arrivals);
            WithinReach(window, arrivals, 2 * window + 1) ==>
              (l.producer.confirmedLost == |Missing(l)| <==>
               forall t :: t in l.slid && l.first <= t <= l.producer.high ==> t in l.accepted)
  {
    var l := Replay(window, arrivals);
    LossBalance(window, arrivals);
    NothingJumpedIff(window, arrivals);
    if l.jumped == {} {
      assert Missing(l) * l.jumped == {};
      if t :| t in l.slid && l.first <= t <= l.producer.high && t !in l.accepted {
        assert t in Forgotten(l);
      } else {
        assert Forgotten(l) == {};
      }
    }
  }

  // As sets: the pending sequences are the lost ones exactly when nothing that was jumped
  // over is lost and no arrival is forgotten.
  lemma PendingIsMissingIff(window: nat, l: Ledger)
    requires Consistent(window, l)
    ensures l.producer.pending == Missing(l) <==> l.jumped <= l.history && Forgotten(l) == {}
  {
    var p, missing := l.producer.pending, Missing(l);
    PendingArrivalsAreForgotten(window, l);
    assert missing - l.jumped == p - l.history;
    if p == missing {
      assert p * l.history == {};
      forall t | t in l.jumped ensures t in l.history {
        assert t in missing || t in l.history;
      }
    }
    if l.jumped <= l.history && Forgotten(l) == {} {
      assert missing - l.jumped == missing;
      forall t | t in p ensures t !in l.history {
        assert t !in p * l.history;
      }
    }
  }

  /** Arrival `i` is at most `reach` ahead of the watermark it meets. */
  ghost predicate InReach(window: nat, arrivals: seq<nat>, reach: nat, i: nat)
    requires 0 < i < |arrivals|
  {
    arrivals[i] <= Run(window, arrivals[..i]).high + reach
  }

  ghost predicate WithinReach(window: nat, arrivals: seq<nat>, reach: nat) {
    forall i :: 0 < i < |arrivals| ==> InReach(window, arrivals, reach, i)
  }

  lemma InReachOfPrefix(window: nat, arrivals: seq<nat>, reach: nat, last: nat, i: nat)
    requires 0 < i < last <= |arrivals|
    ensures InReach(window, arrivals[..last], reach, i) <==> InReach(window, arrivals, reach, i)
  {
    assert arrivals[..last][..i] == arrivals[..i];
  }

  lemma WithinReachSplit(window: nat, arrivals: seq<nat>, reach: nat)
    requires |arrivals| > 1
    ensures var last := |arrivals| - 1;
            WithinReach(window, arrivals, reach) <==>
            WithinReach(window, arrivals[..last], reach) && InReach(window, arrivals, reach, last)
  {
    var last := |arrivals| - 1;
    forall i | 0 < i < last
      ensures InReach(window, arrivals[..last], reach, i) <==> InReach(window, arrivals, reach, i)
    {
      InReachOfPrefix(window, arrivals, reach, last, i);
    }
  }

  lemma ObserveJumps(window: nat, l: Ledger, n: nat)
    ensures Observe(window, l, n).jumped == {} <==> l.jumped == {} && n <= l.producer.high + 2 * window + 1
  {
    if Classify(window, l.producer, n) == Slid && n > l.producer.high + 2 * window + 1 {
      assert n - window - 1 in Span(l.producer.high + window + 1, n - window - 1);
    }
  }

  /** The watermark jumps over something exactly when an arrival is more than two windows
      ahead of it. */
  lemma {:induction false} NothingJumpedIff(window: nat, arrivals: seq<nat>)
    requires |arrivals| > 0
    ensures Replay(window, arrivals).jumped == {} <==> WithinReach(window, arrivals, 2 * window + 1)
  {
    if |arrivals| > 1 {
      var before := arrivals[..|arrivals| - 1];
      NothingJumpedIff(window, before);
      ReplayIsOfRun(window, before);
      WithinReachSplit(window, arrivals, 2 * window + 1);
      ObserveJumps(window, Replay(window, before), arrivals[|arrivals| - 1]);
    }
  }

  /** The tracker has forgotten nothing: the pending set is the true loss, and every
      arrival above the watermark is marked. */
  ghost predicate Faithful(l: Ledger) {
    && l.producer.pending == Missing(l)
    && (forall t :: t in l.history && t > l.producer.high ==> t in l.producer.above)
  }

  ghost predicate NothingOpen(l: Ledger) {
    l.jumped <= l.history && forall t :: t in l.slid && t >= l.first ==> t in l.accepted || t in l.jumped
  }

  lemma FaithfulLedgerIff(window: nat, l: Ledger)
    requires Consistent(window, l)
    ensures Faithful(l) <==> NothingOpen(l)
  {
    PendingIsMissingIff(window, l);
    if l.producer.pending == Missing(l) {
      forall t | t in l.slid && l.first <= t <= l.producer.high ensures t in l.accepted || t in l.jumped {
        assert t !in Forgotten(l);
      }
    }
  }

  /** A faithful tracker stays faithful exactly when the arrival is not beyond the window. */
  lemma FaithfulIffWithinWindow(window: nat, l: Ledger, n: nat)
    requires Consistent(window, l) && Faithful(l)
    ensures Faithful(Observe(window, l, n)) <==> n <= l.producer.high + window
  {
    var after := Observe(window, l, n);
    ObserveKeeps(window, l, n);
    if n > l.producer.high + window {
      SlideNeverMarks(window, l, n);
    } else {
      WithinWindowKeepsFaithful(window, l, n);
    }
  }

  ghost predicate FaithfulAfter(window: nat, arrivals: seq<nat>, i: nat)
    requires 0 < i <= |arrivals|
  {
    Faithful(Replay(window, arrivals[..i]))
  }

  /** Faithful after each of its arrivals. */
  ghost predicate AlwaysFaithful(window: nat, arrivals: seq<nat>) {
    forall i :: 0 < i <= |arrivals| ==> FaithfulAfter(window, arrivals, i)
  }

  lemma FaithfulAfterPrefix(window: nat, arrivals: seq<nat>, last: nat, i: nat)
    requires 0 < i <= last <= |arrivals|
    ensures FaithfulAfter(window, arrivals[..last], i) <==> FaithfulAfter(window, arrivals, i)
  {
    assert arrivals[..last][..i] == arrivals[..i];
  }

  lemma AlwaysFaithfulSplit(window: nat, arrivals: seq<nat>)
    requires |arrivals| > 1
    ensures AlwaysFaithful(window, arrivals) <==>
            AlwaysFaithful(window, arrivals[..|arrivals| - 1]) && FaithfulAfter(window, arrivals, |arrivals|)
  {
    var last := |arrivals| - 1;
    forall i | 0 < i <= last
      ensures FaithfulAfter(window, arrivals[..last], i) <==> FaithfulAfter(window, arrivals, i)
    {
      FaithfulAfterPrefix(window, arrivals, last, i);
    }
  }

  /** Over whole runs: the tracker is faithful throughout exactly when no arrival is beyond
      the window. */
  lemma {:induction false} AlwaysFaithfulIffWithinWindow(window: nat, arrivals: seq<nat>)
    requires |arrivals| > 0
    ensures AlwaysFaithful(window, arrivals) <==> WithinReach(window, arrivals, window)
  {
    if |arrivals| == 1 {
      assert arrivals[..1] == arrivals;
      assert Faithful(Open(arrivals[0]));
    } else {
      var before := arrivals[..|arrivals| - 1];
      AlwaysFaithfulIffWithinWindow(window, before);
      AlwaysFaithfulSplit(window, arrivals);
      WithinReachSplit(window, arrivals, window);
      ReplayIsOfRun(window, before);
      ReplayIsConsistent(window, before);
      assert arrivals[..|arrivals|] == arrivals && before[..|before|] == before;
      if AlwaysFaithful(window, before) {
        assert FaithfulAfter(window, before, |before|);
        FaithfulIffWithinWindow(window, Replay(window, before), arrivals[|arrivals| - 1]);
      }
    }
  }

  /** After a whole run the tracker is faithful exactly when nothing that was jumped over is
      lost and every arrival that slid the window has been credited since or jumped over. */
  lemma FaithfulIff(window: nat, arrivals: seq<nat>)
    requires |arrivals| > 0
    ensures var l := Replay(window, arrivals); Faithful(l) <==> NothingOpen(l)
  {
    ReplayIsConsistent(window, arrivals);
    FaithfulLedgerIff(window, Replay(window, arrivals));
  }

  /** An arrival that slides the window is neither credited nor marked by that call. */
  lemma SlideNeverMarks(window: nat, l: Ledger, n: nat)
    requires InWindow(window, l.producer.high, l.producer.above) && n > l.producer.high + window
    ensures var after := Observe(window, l, n).producer;
            after.high < n && n !in after.above
  {
    var p := l.producer;
    if n > p.high + window + 1 {
      SlideFields(window, p, n);
      GapEndStops(n - window - 1, Beyond(p.above, n - window - 1), n);
    }
  }

  lemma GapEndStops(high: nat, seen: set<nat>, n: nat)
    requires n > high && n !in seen
    ensures GapEnd(high, seen) < n
  {
  }

  lemma WithinWindowKeepsOpen(window: nat, l: Ledger, n: nat)
    requires NothingOpen(l) && n <= l.producer.high + window
    ensures NothingOpen(Observe(window, l, n))
  {
  }

  lemma WithinWindowKeepsFaithful(window: nat, l: Ledger, n: nat)
    requires Consistent(window, l) && Faithful(l) && n <= l.producer.high + window
    ensures Faithful(Observe(window, l, n))
  {
    ObserveKeeps(window, l, n);
    FaithfulLedgerIff(window, l);
    WithinWindowKeepsOpen(window, l, n);
    FaithfulLedgerIff(window, Observe(window, l, n));
  }

  // ---- what later arrivals cannot undo ----

  lemma {:induction false} ReplayGrows(window: nat, arrivals: seq<nat>, more: seq<nat>)
    requires |arrivals| > 0
    ensures Replay(window, arrivals).accepted <= Replay(window, arrivals + more).accepted
  {
    if more == [] {
      assert arrivals + more == arrivals;
    } else {
      var before := more[..|more| - 1];
      ReplayGrows(window, arrivals, before);
      assert (arrivals + more)[..|arrivals + more| - 1] == arrivals + before;
      ObserveCredits(window, Replay(window, arrivals + before), more[|more| - 1]);
    }
  }

  lemma ObserveCredits(window: nat, l: Ledger, n: nat)
    ensures l.accepted <= Observe(window, l, n).accepted
  {
  }

  lemma StepNeverLowersWatermark(window: nat, p: Producer, n: nat)
    ensures p.high <= Step(window, p, n).high
  {
  }

  /** Once a sequence is credited, every later arrival of it, at any distance in the run,
      is answered as a duplicate: a lost sequence is recovered at most once. */
  lemma CreditedOnce(window: nat, arrivals: seq<nat>, more: seq<nat>, n: nat)
    requires |arrivals| > 0 && n in Replay(window, arrivals).accepted
    ensures Classify(window, Run(window, arrivals + more), n) == Duplicate
  {
    ReplayGrows(window, arrivals, more);
    ReplayIsOfRun(window, arrivals + more);
    ReplayIsConsistent(window, arrivals + more);
  }

  lemma RunExtends(window: nat, arrivals: seq<nat>, n: nat)
    requires |arrivals| > 0
    ensures Run(window, arrivals + [n]) == Step(window, Run(window, arrivals), n)
  {
    assert (arrivals + [n])[..|arrivals|] == arrivals;
  }

  /** The watermark never moves back. */
  lemma {:induction false} WatermarkAdvances(window: nat, arrivals: seq<nat>, more: seq<nat>)
    requires |arrivals| > 0
    ensures Run(window, arrivals).high <= Run(window, arrivals + more).high
  {
    if more == [] {
      assert arrivals + more == arrivals;
    } else {
      var before := more[..|more| - 1];
      WatermarkAdvances(window, arrivals, before);
      assert arrivals + more == (arrivals + before) + [more[|more| - 1]];
      RunExtends(window, arrivals + before, more[|more| - 1]);
      StepNeverLowersWatermark(window, Run(window, arrivals + before), more[|more| - 1]);
    }
  }

  /** What follows the watermark is never credited. */
  lemma NextIsNotCredited(window: nat, l: Ledger)
    requires Consistent(window, l)
    ensures l.producer.high + 1 !in l.accepted
  {
  }

  /** Every call is one distinct receive, one duplicate or one slide. */
  lemma ReceiveConservation(window: nat, arrivals: seq<nat>)
    requires |arrivals| > 0
    ensures var l := Replay(window, arrivals);
            |arrivals| == l.producer.received == |l.accepted| + l.producer.duplicates + l.slides
  {
    ReplayIsOfRun(window, arrivals);
    ReplayIsConsistent(window, arrivals);
    ReceivedCounts(window, arrivals);
  }

  lemma {:induction false} ReceivedCounts(window: nat, arrivals: seq<nat>)
    requires |arrivals| > 0
    ensures Run(window, arrivals).received == |arrivals|
  {
    if |arrivals| > 1 {
      ReceivedCounts(window, arrivals[..|arrivals| - 1]);
    }
  }

  /** How often an arrival is lower than the one before it. */
  function Descents(arrivals: seq<nat>): nat {
    if |arrivals| < 2 then 0
    else
      var last := |arrivals| - 1;
      Descents(arrivals[..last]) + if arrivals[last] < arrivals[last - 1] then 1 else 0
  }

  lemma StepOrder(window: nat, p: Producer, n: nat)
    ensures Step(window, p, n).lastSeen == n
    ensures Step(window, p, n).outOfOrder == p.outOfOrder + if n < p.lastSeen then 1 else 0
  {
  }

  /** The out-of-order counter counts exactly the descents of the arrival order. */
  lemma {:induction false} OutOfOrderCountsDescents(window: nat, arrivals: seq<nat>)
    requires |arrivals| > 0
    ensures Run(window, arrivals).outOfOrder == Descents(arrivals)
    ensures Run(window, arrivals).lastSeen == arrivals[|arrivals| - 1]
  {
    if |arrivals| > 1 {
      var before := arrivals[..|arrivals| - 1];
      OutOfOrderCountsDescents(window, before);
      StepOrder(window, Run(window, before), arrivals[|arrivals| - 1]);
    }
  }
}

/** In runs that stay inside the reorder window the tracker is a plain set of seen
    sequences: the window, the watermark and the packed bookkeeping do not show. */
module SeenSet {
  import opened SequenceModel

  /** No arrival is below the first one, and none is `window` or more ahead of the first
      sequence still missing at that point. */
  ghost predicate StaysInside(window: nat, arrivals: seq<nat>) {
    forall i :: 0 < i < |arrivals| ==>
      arrivals[0] <= arrivals[i] <= GapEnd(arrivals[0], Seen(arrivals[..i])) + window
  }

  /** The tracking state that remembers exactly `seen`, starting at `first`. */
  ghost predicate Remembers(p: Producer, first: nat, seen: set<nat>) {
    && p.high == GapEnd(first, seen)
    && p.above == Beyond(seen, p.high)
    && p.pending == {}
    && p.confirmedLost == 0
  }

  lemma {:induction false} GapEndFrom(first: nat, from: nat, seen: set<nat>)
    requires first <= from <= GapEnd(first, seen)
    ensures GapEnd(from, seen) == GapEnd(first, seen)
  {
    GapEndUnique(from, seen, GapEnd(first, seen));
  }

  lemma GapEndBeyond(high: nat, seen: set<nat>)
    ensures GapEnd(high, Beyond(seen, high)) == GapEnd(high, seen)
  {
    GapEndUnique(high, Beyond(seen, high), GapEnd(high, seen));
  }

  lemma GapEndMonotone(first: nat, seen: set<nat>, more: set<nat>)
    requires seen <= more
    ensures GapEnd(first, seen) <= GapEnd(first, more)
  {
    var end := GapEnd(first, more);
    assert end < GapEnd(first, seen) ==> end + 1 in seen;
  }

  lemma StepRemembers(window: nat, p: Producer, first: nat, seen: set<nat>, n: nat)
    requires Remembers(p, first, seen) && first in seen
    requires first <= n <= p.high + window
    ensures Classify(window, p, n) == (if n in seen then Duplicate else Marked)
    ensures Remembers(Step(window, p, n), first, seen + {n})
  {
    var more := seen + {n};
    if n in seen {
      assert more == seen;
    } else {
      assert Beyond(more, p.high) == p.above + {n};
      GapEndMonotone(first, seen, more);
      GapEndFrom(first, p.high, more);
      GapEndBeyond(p.high, more);
      var end := GapEnd(first, more);
      assert Beyond(Beyond(more, p.high), end) == Beyond(more, end);
    }
  }

  /** After such a run the watermark is the end of the longest gap-free run, the marked
      sequences are the seen ones above it, and no loss is reported. */
  lemma {:induction false} RunRemembersSeen(window: nat, arrivals: seq<nat>)
    requires |arrivals| > 0 && StaysInside(window, arrivals)
    ensures Remembers(Run(window, arrivals), arrivals[0], Seen(arrivals))
  {
    SeenSplit(arrivals);
    if |arrivals| == 1 {
      FirstRemembers(arrivals[0]);
    } else {
      var last := |arrivals| - 1;
      var before := arrivals[..last];
      PrefixStaysInside(window, arrivals);
      RunRemembersSeen(window, before);
      assert before[0] in before;
      StepRemembers(window, Run(window, before), arrivals[0], Seen(before), arrivals[last]);
    }
  }

  lemma FirstRemembers(n: nat)
    ensures Remembers(First(n), n, {n})
  {
    GapEndUnique(n, {n}, n);
  }

  lemma PrefixStaysInside(window: nat, arrivals: seq<nat>)
    requires |arrivals| > 1 && StaysInside(window, arrivals)
    ensures StaysInside(window, arrivals[..|arrivals| - 1])
  {
    var before := arrivals[..|arrivals| - 1];
    forall i | 0 < i < |before|
      ensures before[0] <= before[i] <= GapEnd(before[0], Seen(before[..i])) + window
    {
      assert before[..i] == arrivals[..i];
    }
  }

  /** The last call of such a run answers "duplicate" exactly when the sequence arrived before. */
  lemma DuplicateIffSeen(window: nat, arrivals: seq<nat>)
    requires |arrivals| > 1 && StaysInside(window, arrivals)
    ensures var last := |arrivals| - 1;
            Classify(window, Run(window, arrivals[..last]), arrivals[last]) == Duplicate <==>
            arrivals[last] in arrivals[..last]
  {
    var before := arrivals[..|arrivals| - 1];
    PrefixStaysInside(window, arrivals);
    RunRemembersSeen(window, before);
    StepRemembers(window, Run(window, before), arrivals[0], Seen(before), arrivals[|arrivals| - 1]);
  }

  /** Two such runs over the same sequences, from the same first one, end with the same
      watermark and the same window, whatever the order and the repetitions. */
  lemma OrderDoesNotMatter(window: nat, a: seq<nat>, b: seq<nat>)
    requires |a| > 0 && |b| > 0 && a[0] == b[0] && Seen(a) == Seen(b)
    requires StaysInside(window, a) && StaysInside(window, b)
    ensures Run(window, a).high == Run(window, b).high
    ensures Run(window, a).above == Run(window, b).above
  {
    RunRemembersSeen(window, a);
    RunRemembersSeen(window, b);
  }
}

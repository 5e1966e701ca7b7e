/** One producer's tracking state as values: what burnin/tracker/tracker.go keeps in
    `producerState`, with the packed window read as the set of marked sequences above
    the watermark. */
module SequenceModel {

  datatype Producer = Producer(
    high: nat,               // highContiguous, the watermark
    above: set<nat>,         // sequences above the watermark whose window bit is set
    pending: set<nat>,       // pendingLost
    received: nat,
    duplicates: nat,
    outOfOrder: nat,
    confirmedLost: nat,
    lastReportedLost: nat,
    lastSeen: nat)

  /** How `Record` treats an arrival of a producer it already knows. */
  datatype Kind = Recovered | Duplicate | Slid | Marked

  function Beyond(seen: set<nat>, high: nat): set<nat> {
    set s | s in seen && s > high
  }

  /** The end of the gap-free run of `seen` that starts right after `high`. */
  function GapEnd(high: nat, seen: set<nat>): (end: nat)
    ensures high <= end
    ensures forall s :: high < s <= end ==> s in seen
    ensures end + 1 !in seen
    decreases Beyond(seen, high)
  {
    if high + 1 in seen then
      assert high + 1 in Beyond(seen, high) && high + 1 !in Beyond(seen, high + 1);
      GapEnd(high + 1, seen)
    else high
  }

  lemma {:induction false} GapEndUnique(high: nat, seen: set<nat>, end: nat)
    requires high <= end && (forall s :: high < s <= end ==> s in seen) && end + 1 !in seen
    ensures GapEnd(high, seen) == end
  {
    var g := GapEnd(high, seen);
    assert g < end ==> g + 1 in seen;
    assert end < g ==> end + 1 in seen;
  }

  /** Moves the watermark over the marked run right above it. */
  function Settle(p: Producer): Producer {
    var end := GapEnd(p.high, p.above);
    p.(high := end, above := Beyond(p.above, end))
  }

  /** The state after the first arrival of a producer. */
  function First(n: nat): Producer {
    Producer(n, {}, {}, 1, 0, 0, 0, 0, n)
  }

  function Classify(window: nat, p: Producer, n: nat): Kind {
    if n <= p.high then
      if n in p.pending then Recovered else Duplicate
    else if n - p.high - 1 >= window then Slid
    else if n in p.above then Duplicate
    else Marked
  }

  function SlideDistance(window: nat, high: nat, newHigh: nat): nat
    requires high <= newHigh
  {
    if newHigh - high > window then window else newHigh - high
  }

  /** Unmarked sequences that a slide by `distance` pushes out of the window. */
  function Evicted(high: nat, above: set<nat>, distance: nat): set<nat> {
    set t | high < t <= high + distance && t !in above
  }

  function Slide(window: nat, p: Producer, n: nat): Producer
    requires n > p.high + window
  {
    var newHigh := n - window - 1;
    if newHigh <= p.high then p else Settle(MoveWindow(window, p, newHigh))
  }

  /** Moves the window up to `newHigh`, suspecting what leaves it unmarked. */
  function MoveWindow(window: nat, p: Producer, newHigh: nat): Producer
    requires p.high <= newHigh
  {
    var pending := p.pending + Evicted(p.high, p.above, SlideDistance(window, p.high, newHigh));
    p.(high := newHigh, above := Beyond(p.above, newHigh), pending := pending, confirmedLost := |pending|)
  }

  lemma SlideIsMoveThenSettle(window: nat, p: Producer, n: nat)
    requires n > p.high + window + 1
    ensures Slide(window, p, n) == Settle(MoveWindow(window, p, n - window - 1))
  {
  }

  /** The counters every arrival of a known producer moves, whatever its kind. */
  function Arrive(p: Producer, n: nat): Producer {
    p.(received := p.received + 1,
       outOfOrder := if n < p.lastSeen then p.outOfOrder + 1 else p.outOfOrder,
       lastSeen := n)
  }

  /** What an arrival does besides moving the arrival counters. */
  function Place(window: nat, q: Producer, n: nat): Producer {
    match Classify(window, q, n)
    case Recovered => q.(pending := q.pending - {n}, confirmedLost := |q.pending - {n}|)
    case Duplicate => q.(duplicates := q.duplicates + 1)
    case Slid => Slide(window, q, n)
    case Marked => Settle(q.(above := q.above + {n}))
  }

  function Step(window: nat, p: Producer, n: nat): Producer {
    Place(window, Arrive(p, n), n)
  }

  /** What `DetectGaps` streams for a producer, and what it remembers. */
  function Delta(p: Producer): nat {
    if p.confirmedLost > p.lastReportedLost then p.confirmedLost - p.lastReportedLost else 0
  }

  function Reported(p: Producer): Producer {
    p.(lastReportedLost := p.confirmedLost)
  }

  /** The sequences that arrived at all. */
  function Seen(arrivals: seq<nat>): set<nat> {
    set n | n in arrivals
  }

  lemma SeenSplit(arrivals: seq<nat>)
    requires |arrivals| > 0
    ensures Seen(arrivals) == Seen(arrivals[..|arrivals| - 1]) + {arrivals[|arrivals| - 1]}
  {
    assert arrivals == arrivals[..|arrivals| - 1] + [arrivals[|arrivals| - 1]];
  }

  function Run(window: nat, arrivals: seq<nat>): Producer
    requires |arrivals| > 0
  {
    if |arrivals| == 1 then First(arrivals[0])
    else Step(window, Run(window, arrivals[..|arrivals| - 1]), arrivals[|arrivals| - 1])
  }
}

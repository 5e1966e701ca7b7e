/** The tracker as it is built: a watermark, an array of 64-bit words changed in place
    and a set of suspected losses per producer, and a map of producers. Each operation
    is proved against the functions of SequenceModel. */
module Tracker {
  import opened Words
  import opened BitWindow
  import opened SequenceModel

  /** Unsigned 64-bit wrap-around of a number at most one step out of range. */
  function Wrap(x: int): Word
    requires -1 <= x <= LIMIT
  {
    if x == -1 then LIMIT - 1 else if x == LIMIT then 0 else x
  }

  /** Sequence `s` is marked in a window that starts right above `high`. */
  predicate HasMark(high: nat, words: seq<Word>, s: nat) {
    Bit(words, s - high - 1)
  }

  function Marks(high: nat, words: seq<Word>): (marks: set<nat>)
    ensures forall s :: s in marks <==> HasMark(high, words, s)
  {
    set s: nat | high < s <= high + 64 * |words| && HasMark(high, words, s)
  }

  ghost predicate NothingFrom(words: seq<Word>, limit: int) {
    forall k :: limit <= k ==> !Bit(words, k)
  }

  ghost predicate AllUpTo(words: seq<Word>, d: nat) {
    forall k :: 0 <= k < d ==> Bit(words, k)
  }

  lemma OneMoreBit(was: seq<Word>, words: seq<Word>, d: nat, limit: int)
    requires AllUpTo(was, d) && MovedDown(was, words, d) && Bit(words, 0) && NothingFrom(was, limit)
    ensures AllUpTo(was, d + 1) && d < limit && d < 64 * |was|
  {
    assert Bit(was, 0 + d);
  }

  lemma MoveOneMore(was: seq<Word>, before: seq<Word>, words: seq<Word>, d: nat)
    requires MovedDown(was, before, d) && MovedDown(before, words, 1)
    ensures MovedDown(was, words, d + 1)
  {
    forall k | 0 <= k ensures Bit(words, k) <==> Bit(was, k + (d + 1)) {
      assert Bit(before, k + 1) <==> Bit(was, k + 1 + d);
    }
  }

  // ---- the packed window as a set of sequences ----

  lemma SettleMarks(high: nat, was: seq<Word>, words: seq<Word>, d: nat)
    requires AllUpTo(was, d) && MovedDown(was, words, d) && !Bit(words, 0)
    ensures GapEnd(high, Marks(high, was)) == high + d
    ensures Marks(high + d, words) == Beyond(Marks(high, was), high + d)
  {
    assert !Bit(was, 0 + d);
    assert !HasMark(high, was, high + d + 1);
    forall s | high < s <= high + d ensures s in Marks(high, was) {
      assert Bit(was, s - high - 1);
    }
    GapEndUnique(high, Marks(high, was), high + d);
    var after, kept := Marks(high + d, words), Beyond(Marks(high, was), high + d);
    forall s ensures s in after <==> s in kept {
      if s > high + d {
        assert Bit(words, s - high - d - 1) <==> Bit(was, (s - high - d - 1) + d);
      }
    }
  }

  lemma SlideMarks(size: nat, high: nat, newHigh: nat, was: seq<Word>, words: seq<Word>)
    requires high < newHigh && NothingFrom(was, size)
    requires MovedDown(was, words, SlideDistance(size, high, newHigh))
    ensures Marks(newHigh, words) == Beyond(Marks(high, was), newHigh)
  {
    var d := SlideDistance(size, high, newHigh);
    var after, kept := Marks(newHigh, words), Beyond(Marks(high, was), newHigh);
    forall s ensures s in after <==> s in kept {
      if s > newHigh {
        assert Bit(words, s - newHigh - 1) <==> Bit(was, (s - newHigh - 1) + d);
      }
    }
  }

  lemma SetMarks(high: nat, was: seq<Word>, words: seq<Word>, n: nat)
    requires n > high
    requires forall k :: Bit(words, k) <==> Bit(was, k) || k == n - high - 1
    ensures Marks(high, words) == Marks(high, was) + {n}
  {
  }

  lemma MovedDownLimit(was: seq<Word>, words: seq<Word>, d: nat, limit: int)
    requires MovedDown(was, words, d) && NothingFrom(was, limit)
    ensures NothingFrom(words, limit - d)
    ensures limit >= 0 ==> NothingFrom(words, limit)
  {
    forall k | limit - d <= k ensures !Bit(words, k) {
      if 0 <= k {
        assert Bit(words, k) <==> Bit(was, k + d);
      }
    }
  }

  class ProducerState {
    var highContiguous: Word
    const window: array<Word>
    var received: nat
    var duplicates: nat
    var outOfOrder: nat
    var confirmedLost: nat
    var pendingLost: set<nat>
    var lastReportedLost: nat
    var lastSeen: Word

    /** The window has room for `size` offsets, nothing is marked at or beyond `size`,
        and every marked sequence is a 64-bit number. */
    ghost predicate Valid(size: nat)
      reads `highContiguous, window
    {
      && window.Length == (size + 63) / 64
      && NothingFrom(window[..], size)
      && NothingFrom(window[..], LIMIT - highContiguous - 1)
    }

    ghost function View(): Producer
      reads this, window
    {
      Producer(highContiguous, Marks(highContiguous, window[..]), pendingLost, received, duplicates, outOfOrder,
               confirmedLost, lastReportedLost, lastSeen)
    }

    /** `d` steps of the advance are done: the lowest `d` bits of `was` were set and have
        been shifted out, and the watermark has moved from `base` by `d`. */
    ghost predicate Advanced(was: seq<Word>, base: int, d: nat)
      reads this, window
    {
      && AllUpTo(was, d) && MovedDown(was, window[..], d)
      && -1 <= base && base + d < LIMIT && highContiguous == Wrap(base + d)
    }

    method AdvanceOnce(ghost was: seq<Word>, ghost base: int, ghost d: nat)
      requires Advanced(was, base, d) && NothingFrom(was, LIMIT - base - 1) && Bit(window[..], 0)
      modifies `highContiguous, window
      ensures Advanced(was, base, d + 1) && d < 64 * window.Length
    {
      ghost var before := window[..];
      OneMoreBit(was, before, d, LIMIT - base - 1);
      highContiguous := Wrap(highContiguous + 1);
      ShiftLeft(window);
      MoveOneMore(was, before, window[..], d);
    }

    /** Moves the watermark over the run of set bits at the bottom of the window. `base`
        is the watermark before wrap-around; the result is the length of that run. */
    method AdvanceContiguous(ghost base: int) returns (ghost d: nat)
      requires -1 <= base < LIMIT && highContiguous == Wrap(base)
      requires NothingFrom(window[..], LIMIT - base - 1)
      modifies `highContiguous, window
      ensures Advanced(old(window[..]), base, d) && !Bit(window[..], 0)
    {
      ghost var was := window[..];
      d := 0;
      while GetBit(window, 0)
        invariant Advanced(was, base, d)
        decreases 64 * window.Length - d
      {
        AdvanceOnce(was, base, d);
        d := d + 1;
      }
    }

    /** Suspects every unmarked sequence among the lowest `distance` offsets. */
    method SuspectUnseen(distance: nat)
      modifies `pendingLost
      ensures pendingLost == old(pendingLost) + Evicted(highContiguous, Marks(highContiguous, window[..]), distance)
    {
      ghost var marks := Marks(highContiguous, window[..]);
      assert Evicted(highContiguous, marks, 0) == {};
      var i := 0;
      while i < distance
        invariant 0 <= i <= distance
        invariant pendingLost == old(pendingLost) + Evicted(highContiguous, marks, i)
      {
        EvictedStep(highContiguous, window[..], i);
        if !GetBit(window, i) {
          pendingLost := pendingLost + {highContiguous + 1 + i};
        }
        i := i + 1;
      }
    }

    method ShiftBy(distance: nat)
      modifies window
      ensures MovedDown(old(window[..]), window[..], distance)
    {
      ghost var was := window[..];
      var i := 0;
      while i < distance
        invariant 0 <= i <= distance
        invariant MovedDown(was, window[..], i)
      {
        ghost var before := window[..];
        ShiftLeft(window);
        MoveOneMore(was, before, window[..], i);
        i := i + 1;
      }
    }

    /** Advance from a plain watermark, stated on the marks. */
    method AdvanceMarks(size: nat)
      requires Valid(size)
      modifies `highContiguous, window
      ensures Valid(size) && highContiguous == GapEnd(old(highContiguous), old(Marks(highContiguous, window[..])))
      ensures Marks(highContiguous, window[..]) == Beyond(old(Marks(highContiguous, window[..])), highContiguous)
    {
      ghost var was, high := window[..], highContiguous;
      ghost var d := AdvanceContiguous(high);
      AdvancedWindow(size, high, was, window[..], d);
    }

    /** The same on the view. */
    method Advance(size: nat)
      requires Valid(size)
      modifies `highContiguous, window
      ensures Valid(size) && View() == Settle(old(View()))
    {
      AdvanceMarks(size);
    }

    /** Shifts the window and sets the watermark to `newHigh`. */
    method ShiftTo(size: nat, newHigh: Word, slideDist: nat)
      requires Valid(size) && newHigh > highContiguous && slideDist == SlideDistance(size, highContiguous, newHigh)
      modifies `highContiguous, window
      ensures Valid(size) && highContiguous == newHigh
      ensures Marks(newHigh, window[..]) == Beyond(old(Marks(highContiguous, window[..])), newHigh)
    {
      ghost var was, high := window[..], highContiguous;
      ShiftBy(slideDist);
      highContiguous := newHigh;
      ShiftedWindow(size, high, newHigh, was, window[..]);
    }

    /** Moves the window up to `newHigh`, suspecting what leaves it unmarked. */
    method Relocate(size: nat, newHigh: Word)
      requires Valid(size) && newHigh > highContiguous
      modifies `highContiguous, `pendingLost, `confirmedLost, window
      ensures Valid(size) && View() == MoveWindow(size, old(View()), newHigh)
    {
      var slideDist := newHigh - highContiguous;
      if slideDist > size {
        slideDist := size;
      }
      ghost var p := View();
      SuspectUnseen(slideDist);
      confirmedLost := |pendingLost|;
      assert View() == p.(pending := p.pending + Evicted(p.high, p.above, slideDist), confirmedLost := |pendingLost|);
      ShiftTo(size, newHigh, slideDist);
    }

    method RelocateAndAdvance(size: nat, newSeq: Word, newHigh: Word)
      requires Valid(size) && newHigh > highContiguous && newSeq == newHigh + size + 1
      modifies `highContiguous, `pendingLost, `confirmedLost, window
      ensures Valid(size) && View() == Settle(MoveWindow(size, old(View()), newHigh))
    {
      Relocate(size, newHigh);
      assert newSeq - highContiguous - 1 == size;
      Advance(size);
    }

    /** Moves the window so that `newSeq` sits right past its end. That is also where the
        source would mark `newSeq` if its offset were inside the window: it never is. */
    method SlideWindow(size: nat, newSeq: Word)
      requires Valid(size) && newSeq > highContiguous + size
      modifies `highContiguous, `pendingLost, `confirmedLost, window
      ensures Valid(size) && View() == Slide(size, old(View()), newSeq)
    {
      var newHigh := newSeq - size - 1;
      if newHigh <= highContiguous {
        assert newSeq - highContiguous - 1 == size;
        return;
      }
      SlideIsMoveThenSettle(size, View(), newSeq);
      RelocateAndAdvance(size, newSeq, newHigh);
    }

    /** Marks an offset inside the window and lets the watermark advance. */
    method MarkAndAdvance(size: nat, n: Word)
      requires Valid(size) && highContiguous < n <= highContiguous + size
      modifies `highContiguous, window
      ensures Valid(size) && View() == var p := old(View()); Settle(p.(above := p.above + {n}))
    {
      ghost var was, p := window[..], View();
      SetBit(window, n - highContiguous - 1);
      SetMarks(highContiguous, was, window[..], n);
      assert View() == p.(above := p.above + {n});
      Advance(size);
    }

    /** An arrival at or below the watermark: a recovery or a duplicate. */
    method PlaceBelow(size: nat, n: Word) returns (isDuplicate: bool)
      requires Valid(size) && n <= highContiguous
      modifies `pendingLost, `confirmedLost, `duplicates
      ensures Valid(size) && View() == Place(size, old(View()), n)
      ensures isDuplicate <==> Classify(size, old(View()), n) == Duplicate
    {
      if n in pendingLost {
        pendingLost := pendingLost - {n};
        confirmedLost := |pendingLost|;
        return false;
      }
      duplicates := duplicates + 1;
      return true;
    }

    /** An arrival above the watermark: a slide, a duplicate or a new mark. */
    method PlaceAbove(size: nat, n: Word) returns (isDuplicate: bool)
      requires size >= 1 && Valid(size) && n > highContiguous
      modifies this, window
      ensures Valid(size) && View() == Place(size, old(View()), n)
      ensures isDuplicate <==> Classify(size, old(View()), n) == Duplicate
    {
      var offset := n - highContiguous - 1;
      assert n in View().above <==> HasMark(highContiguous, window[..], n);
      if offset >= size {
        SlideWindow(size, n);
        return false;
      }
      if GetBit(window, offset) {
        duplicates := duplicates + 1;
        return true;
      }
      MarkAndAdvance(size, n);
      return false;
    }

    /** Records an arrival of a producer that has been seen before. */
    method Record(size: nat, n: Word) returns (isDuplicate: bool, isOutOfOrder: bool)
      requires size >= 1 && Valid(size)
      modifies this, window
      ensures Valid(size) && View() == Step(size, old(View()), n)
      ensures isDuplicate <==> Classify(size, old(View()), n) == Duplicate
      ensures isOutOfOrder <==> n < old(lastSeen)
    {
      ghost var p := View();
      received := received + 1;
      isOutOfOrder := n < lastSeen;
      if isOutOfOrder {
        outOfOrder := outOfOrder + 1;
      }
      lastSeen := n;
      assert View() == Arrive(p, n);
      if n <= highContiguous {
        isDuplicate := PlaceBelow(size, n);
      } else {
        isDuplicate := PlaceAbove(size, n);
      }
    }

    /** Newly confirmed losses since the previous report. */
    method Report() returns (delta: nat)
      modifies `lastReportedLost
      ensures View() == Reported(old(View())) && delta == Delta(old(View()))
    {
      delta := if confirmedLost > lastReportedLost then confirmedLost - lastReportedLost else 0;
      lastReportedLost := confirmedLost;
    }

    /** First arrival of a producer: the watermark starts one below the sequence, which
        wraps around for sequence 0, and the advance brings it back. */
    constructor (size: nat, n: Word)
      requires size >= 1
      ensures Valid(size) && View() == First(n) && fresh(window)
    {
      highContiguous := Wrap(n - 1);
      window := new Word[(size + 63) / 64](_ => 0);
      received, duplicates, outOfOrder, confirmedLost := 1, 0, 0, 0;
      pendingLost, lastReportedLost, lastSeen := {}, 0, n;
      new;
      ghost var clear := window[..];
      ClearHasNoBits(clear);
      SetBit(window, 0);
      ghost var was := window[..];
      ghost var d := AdvanceContiguous(n - 1);
      OnlyBitZero(was, window[..], d);
      assert View().above == {};
    }
  }

  lemma {:induction false} ZeroHasNoBits(k: nat)
    ensures !WordBit(0, k)
  {
    if k > 0 {
      ZeroHasNoBits(k - 1);
    }
  }

  lemma ClearHasNoBits(words: seq<Word>)
    requires forall i :: 0 <= i < |words| ==> words[i] == 0
    ensures NothingFrom(words, 0)
  {
    forall k | 0 <= k ensures !Bit(words, k) {
      ZeroHasNoBits(k % 64);
    }
  }

  lemma OnlyBitZero(was: seq<Word>, words: seq<Word>, d: nat)
    requires forall k :: Bit(was, k) <==> k == 0
    requires AllUpTo(was, d) && MovedDown(was, words, d) && !Bit(words, 0)
    ensures d == 1 && NothingFrom(words, 0)
  {
    assert Bit(words, 0) <==> Bit(was, 0 + d);
    assert d > 1 ==> Bit(was, 1);
    forall k | 0 <= k ensures !Bit(words, k) {
      assert Bit(words, k) <==> Bit(was, k + d);
    }
  }

  lemma AdvancedWindow(size: nat, high: nat, was: seq<Word>, words: seq<Word>, d: nat)
    requires NothingFrom(was, size) && NothingFrom(was, LIMIT - high - 1)
    requires AllUpTo(was, d) && MovedDown(was, words, d) && !Bit(words, 0)
    ensures NothingFrom(words, size) && NothingFrom(words, LIMIT - (high + d) - 1)
    ensures high + d == GapEnd(high, Marks(high, was))
    ensures Marks(high + d, words) == Beyond(Marks(high, was), high + d)
  {
    MovedDownLimit(was, words, d, size);
    MovedDownLimit(was, words, d, LIMIT - high - 1);
    SettleMarks(high, was, words, d);
  }

  lemma ShiftedWindow(size: nat, high: Word, newHigh: Word, was: seq<Word>, words: seq<Word>)
    requires high < newHigh && NothingFrom(was, size) && NothingFrom(was, LIMIT - high - 1)
    requires MovedDown(was, words, SlideDistance(size, high, newHigh))
    ensures NothingFrom(words, size) && NothingFrom(words, LIMIT - newHigh - 1)
    ensures Marks(newHigh, words) == Beyond(Marks(high, was), newHigh)
  {
    var d := SlideDistance(size, high, newHigh);
    MovedDownLimit(was, words, d, size);
    forall k: int | LIMIT - newHigh - 1 <= k ensures !Bit(words, k) {
      assert Bit(words, k) <==> Bit(was, k + d);
    }
    SlideMarks(size, high, newHigh, was, words);
  }

  lemma EvictedStep(high: nat, words: seq<Word>, i: nat)
    ensures var marks := Marks(high, words);
            Evicted(high, marks, i + 1) == Evicted(high, marks, i) + if Bit(words, i) then {} else {high + 1 + i}
  {
    var marks := Marks(high, words);
    assert high + 1 + i in marks <==> Bit(words, i);
  }
}

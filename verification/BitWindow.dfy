/** 64-bit words as numbers below 2^64, with the three word operations of the bitset
    written as exact arithmetic: a right shift halves, `& 1` is the remainder by two,
    and or-ing in a power of two adds it unless that bit is already set. */
module Words {

  function Pow2(k: nat): nat {
    if k == 0 then 1 else 2 * Pow2(k - 1)
  }

  /** Bit `k` of `w`. */
  predicate WordBit(w: nat, k: nat) {
    if k == 0 then w % 2 == 1 else WordBit(w / 2, k - 1)
  }

  const LIMIT: nat := 0x1_0000_0000_0000_0000
  const TOP: nat := 0x8000_0000_0000_0000

  type Word = w: nat | w < LIMIT

  lemma Pow2Eight(k: nat)
    ensures Pow2(k + 8) == 0x100 * Pow2(k)
  {
    assert Pow2(k + 2) == 4 * Pow2(k);
    assert Pow2(k + 4) == 4 * Pow2(k + 2);
    assert Pow2(k + 6) == 4 * Pow2(k + 4);
    assert Pow2(k + 8) == 4 * Pow2(k + 6);
  }

  lemma Pow2Limits()
    ensures Pow2(64) == LIMIT && Pow2(63) == TOP
  {
    Pow2Eight(0);
    Pow2Eight(8);
    Pow2Eight(16);
    Pow2Eight(24);
    Pow2Eight(32);
    Pow2Eight(40);
    Pow2Eight(48);
    Pow2Eight(56);
  }

  /** `w | (1 << k)`. */
  function OrBit(w: nat, k: nat): nat {
    if WordBit(w, k) then w else w + Pow2(k)
  }

  /** `(w >> 1) | ((next & 1) << 63)`: the shifted word has a clear top bit, so the
      or is an addition. */
  function ShiftIn(w: nat, next: nat): nat {
    w / 2 + (next % 2) * TOP
  }

  lemma {:induction false} AddClearBit(w: nat, j: nat, k: nat)
    requires !WordBit(w, j)
    ensures WordBit(w + Pow2(j), k) <==> k == j || WordBit(w, k)
  {
    if j > 0 {
      assert (w + Pow2(j)) / 2 == w / 2 + Pow2(j - 1) && (w + Pow2(j)) % 2 == w % 2;
      if k > 0 {
        AddClearBit(w / 2, j - 1, k - 1);
      }
    } else {
      assert (w + 1) / 2 == w / 2;
    }
  }

  lemma {:induction false} AddClearBitFits(w: nat, j: nat, n: nat)
    requires w < Pow2(n) && j < n && !WordBit(w, j)
    ensures w + Pow2(j) < Pow2(n)
  {
    if j > 0 {
      AddClearBitFits(w / 2, j - 1, n - 1);
    }
  }

  lemma {:induction false} HighBitsClear(w: nat, n: nat, k: nat)
    requires w < Pow2(n) && n <= k
    ensures !WordBit(w, k)
  {
    if n > 0 {
      HighBitsClear(w / 2, n - 1, k - 1);
    } else if k > 0 {
      HighBitsClear(0, 0, k - 1);
    }
  }

  /** Or-ing in bit `j` sets bit `j`, leaves every other bit alone and stays a word. */
  lemma OrBitSetsOne(w: Word, j: nat, k: nat)
    requires j < 64
    ensures OrBit(w, j) < LIMIT
    ensures WordBit(OrBit(w, j), k) <==> k == j || WordBit(w, k)
  {
    if !WordBit(w, j) {
      AddClearBit(w, j, k);
      Pow2Limits();
      AddClearBitFits(w, j, 64);
    }
  }

  /** A shifted word holds the next bit of the old word below the top, and the low bit
      of the next word at the top. */
  lemma ShiftInBits(w: Word, next: nat, k: nat)
    requires k < 64
    ensures ShiftIn(w, next) < LIMIT
    ensures WordBit(ShiftIn(w, next), k) <==> if k == 63 then WordBit(next, 0) else WordBit(w, k + 1)
  {
    Pow2Limits();
    HighBitsClear(w / 2, 63, 63);
    if next % 2 == 1 {
      AddClearBit(w / 2, 63, k);
    }
  }
}

/** The packed bitset of the sequence tracker: an array of 64-bit words in which
    position `pos` is bit `pos % 64` of word `pos / 64`, changed in place. */
module BitWindow {
  import opened Words

  /** Bit `pos` of the whole window; positions outside the window read as clear. */
  predicate Bit(words: seq<Word>, pos: int) {
    0 <= pos < 64 * |words| && WordBit(words[pos / 64], pos % 64)
  }

  /** Bits of `words` are those of `was`, moved down by `d`. */
  ghost predicate MovedDown(was: seq<Word>, words: seq<Word>, d: nat) {
    |words| == |was| && forall k :: 0 <= k ==> (Bit(words, k) <==> Bit(was, k + d))
  }

  /** Word `i` after a one-bit shift towards position 0. */
  ghost function ShiftedWord(words: seq<Word>, i: nat): nat
    requires i < |words|
  {
    ShiftIn(words[i], if i + 1 < |words| then words[i + 1] else 0)
  }

  lemma ShiftedWordBit(words: seq<Word>, i: nat, k: nat)
    requires i < |words| && k < 64
    ensures WordBit(ShiftedWord(words, i), k) <==> Bit(words, 64 * i + k + 1)
  {
    var next := if i + 1 < |words| then words[i + 1] else 0;
    ShiftInBits(words[i], next, k);
    if k == 63 {
      assert (64 * i + 64) / 64 == i + 1 && (64 * i + 64) % 64 == 0;
    } else {
      assert (64 * i + k + 1) / 64 == i && (64 * i + k + 1) % 64 == k + 1;
    }
  }

  lemma ShiftedWordsMoveDown(was: seq<Word>, words: seq<Word>)
    requires |words| == |was| && (forall i :: 0 <= i < |was| ==> words[i] == ShiftedWord(was, i))
    ensures MovedDown(was, words, 1)
  {
    forall k | 0 <= k < 64 * |was| ensures Bit(words, k) <==> Bit(was, k + 1) {
      ShiftedWordBit(was, k / 64, k % 64);
      assert 64 * (k / 64) + k % 64 == k;
    }
  }

  predicate GetBit(window: array<Word>, pos: int)
    reads window
    ensures GetBit(window, pos) == Bit(window[..], pos)
  {
    if pos < 0 || pos >= window.Length * 64 then false else WordBit(window[pos / 64], pos % 64)
  }

  /** Sets one bit and no other; a position outside the window changes nothing. */
  method SetBit(window: array<Word>, pos: int)
    modifies window
    ensures forall k :: Bit(window[..], k) <==> Bit(old(window[..]), k) || (k == pos && 0 <= pos < 64 * window.Length)
  {
    if pos < 0 || pos >= window.Length * 64 {
      return;
    }
    var w := pos / 64;
    OrBitSetsOne(window[w], pos % 64, 0);
    window[w] := OrBit(window[w], pos % 64);
    forall k | 0 <= k < 64 * window.Length
      ensures Bit(window[..], k) <==> Bit(old(window[..]), k) || k == pos
    {
      OrBitSetsOne(old(window[w]), pos % 64, k % 64);
      assert k / 64 == w && k % 64 == pos % 64 <==> k == pos;
    }
  }

  /** Shifts every bit one position down, across word boundaries, and brings in a
      clear bit at the top. */
  method ShiftLeft(window: array<Word>)
    modifies window
    ensures MovedDown(old(window[..]), window[..], 1)
  {
    ghost var was := window[..];
    var i := 0;
    while i < window.Length
      invariant 0 <= i <= window.Length
      invariant forall j :: 0 <= j < i ==> window[j] == ShiftedWord(was, j)
      invariant forall j :: i <= j < window.Length ==> window[j] == was[j]
    {
      var carry := if i + 1 < window.Length then window[i + 1] else 0;
      ShiftInBits(window[i], carry, 0);
      window[i] := ShiftIn(window[i], carry);
      i := i + 1;
    }
    ShiftedWordsMoveDown(was, window[..]);
  }
}

/** A bitmap packed into 32-bit words, seen as a sequence of booleans. */
module Bitmap {

  // --- bits of a word ------------------------------------------------------

  /** `bit_mask`, for a bit number below the word size. */
  function Mask(k: nat): bv32
    requires k < 32
  {
    (1 as bv32) << k
  }

  predicate BitOf(w: bv32, k: nat)
    requires k < 32
  {
    w & Mask(k) != 0
  }

  lemma MasksApart(i: nat, j: nat)
    requires i < 32 && j < 32 && i != j
    ensures Mask(i) & Mask(j) == 0
  {
  }

  lemma OrKeeps(w: bv32, m: bv32, n: bv32)
    requires m & n == 0
    ensures (w | m) & n == w & n
  {
  }

  lemma AndKeeps(w: bv32, m: bv32, n: bv32)
    requires m & n == 0
    ensures (w & !m) & n == w & n
  {
  }

  lemma OrHere(w: bv32, k: nat)
    requires k < 32
    ensures BitOf(w | Mask(k), k)
  {
  }

  lemma OrThere(w: bv32, k: nat, j: nat)
    requires k < 32 && j < 32 && k != j
    ensures (w | Mask(k)) & Mask(j) == w & Mask(j)
  {
    MasksApart(k, j);
    OrKeeps(w, Mask(k), Mask(j));
  }

  lemma AndHere(w: bv32, k: nat)
    requires k < 32
    ensures !BitOf(w & !Mask(k), k)
  {
  }

  lemma AndThere(w: bv32, k: nat, j: nat)
    requires k < 32 && j < 32 && k != j
    ensures (w & !Mask(k)) & Mask(j) == w & Mask(j)
  {
    MasksApart(k, j);
    AndKeeps(w, Mask(k), Mask(j));
  }

  lemma OrElsewhere(w: bv32, k: nat, j: nat)
    requires k < 32 && j < 32 && k != j
    ensures BitOf(w | Mask(k), j) == BitOf(w, j)
  {
    OrThere(w, k, j);
  }

  lemma AndElsewhere(w: bv32, k: nat, j: nat)
    requires k < 32 && j < 32 && k != j
    ensures BitOf(w & !Mask(k), j) == BitOf(w, j)
  {
    AndThere(w, k, j);
  }

  /** Word `w'` is `w` with bit `k` set to `v`. */
  ghost predicate OneBit(w: bv32, w': bv32, k: nat, v: bool) {
    forall j | 0 <= j < 32 :: BitOf(w', j) == if j == k then v else BitOf(w, j)
  }

  /** Or-ing a mask into a word sets one bit. */
  lemma OrOneBit(w: bv32, k: nat)
    requires k < 32
    ensures OneBit(w, w | Mask(k), k, true)
  {
    OrHere(w, k);
    forall j | 0 <= j < 32 && j != k ensures BitOf(w | Mask(k), j) == BitOf(w, j) {
      OrElsewhere(w, k, j);
    }
  }

  /** And-ing with its complement clears one. */
  lemma AndOneBit(w: bv32, k: nat)
    requires k < 32
    ensures OneBit(w, w & !Mask(k), k, false)
  {
    AndHere(w, k);
    forall j | 0 <= j < 32 && j != k ensures BitOf(w & !Mask(k), j) == BitOf(w, j) {
      AndElsewhere(w, k, j);
    }
  }

  // --- runs of bits ----------------------------------------------------------

  /** The `count` bits from `at` on all have the value `v`. */
  ghost predicate IsRun(b: seq<bool>, at: nat, count: nat, v: bool) {
    at + count <= |b| && forall i | at <= i < at + count :: b[i] == v
  }

  /** `b` with the `count` bits from `at` on set to `v`. */
  function Filled(b: seq<bool>, at: nat, count: nat, v: bool): seq<bool>
    requires at + count <= |b|
  {
    b[..at] + seq(count, _ => v) + b[at + count..]
  }

  lemma FilledAt(b: seq<bool>, at: nat, count: nat, v: bool, i: nat)
    requires at + count <= |b| && i < |b|
    ensures |Filled(b, at, count, v)| == |b|
    ensures Filled(b, at, count, v)[i] == if at <= i < at + count then v else b[i]
  {
  }

  lemma FilledNext(b: seq<bool>, at: nat, count: nat, v: bool)
    requires at + count < |b|
    ensures Filled(b, at, count, v)[at + count := v] == Filled(b, at, count + 1, v)
  {
  }

  // --- the packed bitmap -------------------------------------------------------

  function BitAt(words: seq<bv32>, i: nat): bool
    requires i / 32 < |words|
  {
    BitOf(words[i / 32], i % 32)
  }

  function Unpacked(words: seq<bv32>, size: nat): seq<bool>
    requires size <= 32 * |words|
  {
    seq(size, i requires 0 <= i < size => BitAt(words, i))
  }

  /** Changing a bit of a word changes that bit of the sequence and no other. */
  lemma SetWord(words: seq<bv32>, size: nat, i: nat, w: bv32, v: bool)
    requires i < size <= 32 * |words| && OneBit(words[i / 32], w, i % 32, v)
    ensures Unpacked(words[i / 32 := w], size) == Unpacked(words, size)[i := v]
  {
    var words' := words[i / 32 := w];
    forall k | 0 <= k < size ensures BitAt(words', k) == if k == i then v else BitAt(words, k) {
      if k / 32 == i / 32 {
        assert BitOf(w, k % 32) == if k % 32 == i % 32 then v else BitOf(words[i / 32], k % 32);
      }
    }
  }

  class Bits {
    const size: nat
    const words: array<bv32>

    ghost predicate Valid()
      reads this
    {
      size <= 32 * words.Length
    }

    ghost function View(): seq<bool>
      requires Valid()
      reads this, words
    {
      Unpacked(words[..], size)
    }

    /** `bitmap_create`, with the storage it needs. */
    constructor (count: nat)
      ensures Valid() && size == count && fresh(words)
      ensures View() == seq(count, _ => false)
    {
      size := count;
      words := new bv32[(count + 32 - 1) / 32](_ => 0);
      new;
      var v := false;
      SetMultiple(0, count, v);
      assert Filled(View(), 0, count, v) == seq(count, _ => false);
    }

    /** `bitmap_test`. */
    method Test(i: nat) returns (v: bool)
      requires Valid() && i < size
      ensures v == View()[i]
    {
      v := BitOf(words[i / 32], i % 32);
    }

    /** `bitmap_mark`. */
    method Mark(i: nat)
      requires Valid() && i < size
      modifies words
      ensures View() == old(View())[i := true]
    {
      var k, w := i / 32, words[i / 32];
      OrOneBit(w, i % 32);
      SetWord(words[..], size, i, w | Mask(i % 32), true);
      words[k] := w | Mask(i % 32);
    }

    /** `bitmap_reset`. */
    method Reset(i: nat)
      requires Valid() && i < size
      modifies words
      ensures View() == old(View())[i := false]
    {
      var k, w := i / 32, words[i / 32];
      AndOneBit(w, i % 32);
      SetWord(words[..], size, i, w & !Mask(i % 32), false);
      words[k] := w & !Mask(i % 32);
    }

    /** `bitmap_set`. */
    method Set(i: nat, v: bool)
      requires Valid() && i < size
      modifies words
      ensures View() == old(View())[i := v]
    {
      if v {
        Mark(i);
      } else {
        Reset(i);
      }
    }

    /** `bitmap_set_multiple`. */
    method SetMultiple(start: nat, count: nat, v: bool)
      requires Valid() && start + count <= size
      modifies words
      ensures View() == Filled(old(View()), start, count, v)
    {
      var i := 0;
      ghost var b := View();
      assert Filled(b, start, 0, v) == b;
      while i < count
        invariant i <= count && View() == Filled(b, start, i, v)
      {
        FilledNext(b, start, i, v);
        Set(start + i, v);
        i := i + 1;
      }
    }

    /** `bitmap_contains`. */
    method Contains(start: nat, count: nat, v: bool) returns (found: bool)
      requires Valid() && start + count <= size
      ensures found <==> !IsRun(View(), start, count, !v)
    {
      var i := 0;
      while i < count
        invariant i <= count && IsRun(View(), start, i, !v)
      {
        var b := Test(start + i);
        if b == v {
          return true;
        }
        i := i + 1;
      }
      found := false;
    }

    /** `bitmap_scan`: the first run at or after `start`, or none. */
    method Scan(start: nat, count: nat, v: bool) returns (found: bool, at: nat)
      requires Valid() && start <= size
      ensures found ==> start <= at && IsRun(View(), at, count, v)
      ensures forall q | start <= q && (found ==> q < at) :: !IsRun(View(), q, count, v)
    {
      at := start;
      if count <= size {
        while at <= size - count
          invariant start <= at
          invariant forall q | start <= q < at :: !IsRun(View(), q, count, v)
        {
          var clash := Contains(at, count, !v);
          if !clash {
            return true, at;
          }
          at := at + 1;
        }
      }
      found := false;
    }

    /** `bitmap_scan_and_flip`. */
    method ScanAndFlip(start: nat, count: nat, v: bool) returns (found: bool, at: nat)
      requires Valid() && start <= size
      modifies words
      ensures found ==>
        && start <= at && IsRun(old(View()), at, count, v)
        && View() == Filled(old(View()), at, count, !v)
      ensures !found ==> View() == old(View())
      ensures forall q | start <= q && (found ==> q < at) :: !IsRun(old(View()), q, count, v)
    {
      found, at := Scan(start, count, v);
      if found {
        SetMultiple(at, count, !v);
      }
    }
  }
}

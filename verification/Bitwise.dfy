/** Bitwise operations on numbers. */
module Bitwise {
  import opened Arithmetic

  /** Bitwise and. */
  function And(x: nat, y: nat): nat {
    if x == 0 || y == 0 then 0 else 2 * And(x / 2, y / 2) + (if x % 2 == 1 && y % 2 == 1 then 1 else 0)
  }

  lemma AndZero(x: nat)
    ensures And(x, 0) == 0 && And(0, x) == 0
  {
  }

  lemma AndStep(x: nat, p: nat)
    requires p > 0
    ensures And(x, 2 * p - 1) == 2 * And(x / 2, p - 1) + x % 2
  {
    assert (2 * p - 1) / 2 == p - 1 && (2 * p - 1) % 2 == 1;
  }

  /** Masking with one less than a power of two is taking the remainder. */
  lemma {:induction false} AndMask(x: nat, k: nat)
    ensures And(x, Pow2(k) - 1) == x % Pow2(k)
    decreases k
  {
    if k == 0 {
      AndZero(x);
    } else {
      AndMask(x / 2, k - 1);
      MaskStep(x, Pow2(k - 1), Pow2(k));
    }
  }

  lemma MaskStep(x: nat, p: nat, m: nat)
    requires p > 0 && m == 2 * p && And(x / 2, p - 1) == x / 2 % p
    ensures And(x, m - 1) == x % m
  {
    AndStep(x, p);
    HalfMod(x, p);
  }

  lemma ModUnique(x: nat, m: nat, q: nat, r: nat)
    requires r < m && x == q * m + r
    ensures x % m == r
  {
    DivUnique(x, m, q);
    DivMod(x, m);
  }

  lemma HalfMod(x: nat, p: nat)
    requires p > 0
    ensures x % (2 * p) == 2 * (x / 2 % p) + x % 2
  {
    var h, r := x / 2 / p, x / 2 % p;
    DivMod(x / 2, p);
    assert h * (2 * p) == 2 * (h * p);
    ModUnique(x, 2 * p, h, 2 * r + x % 2);
  }

  /** Bitwise or. */
  function Or(x: nat, y: nat): nat {
    if x == 0 && y == 0 then 0 else 2 * Or(x / 2, y / 2) + (if x % 2 == 1 || y % 2 == 1 then 1 else 0)
  }

  lemma {:induction false} OrZero(x: nat)
    ensures Or(x, 0) == x
  {
    if x > 0 {
      OrZero(x / 2);
    }
  }

  /** Twice a number, as bits. */
  lemma Doubled(x: nat, bit: nat)
    requires bit < 2
    ensures (2 * x + bit) / 2 == x && (2 * x + bit) % 2 == bit
  {
  }

  /** Or-ing low bits into a number that has none there is adding them. */
  lemma {:induction false} OrLow(high: nat, low: nat, k: nat)
    requires low < Pow2(k)
    ensures Or(Shifted(high, k), low) == Shifted(high, k) + low
    decreases k
  {
    if k == 0 {
      OrZero(high);
    } else {
      OrLow(high, low / 2, k - 1);
      OrStep(Shifted(high, k - 1), low, Shifted(high, k));
    }
  }

  lemma OrStep(h: nat, low: nat, high: nat)
    requires high == 2 * h && Or(h, low / 2) == h + low / 2
    ensures Or(high, low) == high + low
  {
    Doubled(h, 0);
  }

  /** The lowest bit of `And`, and the others. */
  lemma AndBits(x: nat, y: nat, a: nat, b: nat, i: nat, j: nat)
    requires i < 2 && j < 2 && x == 2 * a + i && y == 2 * b + j
    ensures And(x, y) == 2 * And(a, b) + if i == 1 && j == 1 then 1 else 0
  {
    AndZero(a);
    AndZero(b);
    if x > 0 && y > 0 {
      Doubled(a, i);
      Doubled(b, j);
    }
  }

  /** Masking with `m` ones above `k` zeros clears the low bits and keeps the rest. */
  lemma {:induction false} AndHigh(high: nat, low: nat, k: nat, m: nat)
    requires low < Pow2(k) && high < Pow2(m)
    ensures And(Shifted(high, k) + low, Shifted(Pow2(m) - 1, k)) == Shifted(high, k)
    decreases k
  {
    if k == 0 {
      AndMask(high, m);
      SmallMod(high, Pow2(m));
    } else {
      AndHigh(high, low / 2, k - 1, m);
      AndBits(Shifted(high, k) + low, Shifted(Pow2(m) - 1, k),
              Shifted(high, k - 1) + low / 2, Shifted(Pow2(m) - 1, k - 1), low % 2, 0);
    }
  }

  lemma SmallMod(x: nat, n: nat)
    requires x < n
    ensures x % n == x
  {
  }
}

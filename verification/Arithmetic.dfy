/** 64-bit division out of a 64-by-32-bit divide instruction. Machine integers
    are numbers; wrapping and truncation are written out. */
module Arithmetic {

  const B: nat := 0x1_0000_0000
  const BB: nat := 0x1_0000_0000_0000_0000

  function Pow2(k: nat): (p: nat)
    ensures p > 0
  {
    if k == 0 then 1 else 2 * Pow2(k - 1)
  }

  lemma {:induction false} PowAdd(a: nat, b: nat)
    ensures Pow2(a) * Pow2(b) == Pow2(a + b)
  {
    if a > 0 {
      PowAdd(a - 1, b);
      assert Pow2(a) * Pow2(b) == 2 * (Pow2(a - 1) * Pow2(b));
    }
  }

  // --- quotients -------------------------------------------------------------

  lemma Mono(a: nat, b: nat, d: nat)
    requires a <= b
    ensures a * d <= b * d
  {
    assert b * d == a * d + (b - a) * d;
  }

  /** The quotient is the one number that meets its two bounds. */
  lemma DivUnique(n: nat, d: nat, q: nat)
    requires d > 0 && q * d <= n < q * d + d
    ensures n / d == q
  {
    var r := n / d;
    assert r * d <= n < r * d + d;
    if r < q {
      Mono(r + 1, q, d);
    } else if q < r {
      Mono(q + 1, r, d);
    }
  }

  lemma DivBounds(n: nat, d: nat)
    requires d > 0
    ensures n / d * d <= n < n / d * d + d
  {
  }

  lemma NegativeProduct(x: int, d: nat)
    ensures x < 0 ==> x * d + d <= 0
  {
    if x < 0 {
      Mono(1, -x, d);
      assert -x * d == -(x * d);
    }
  }

  lemma DivNonNegative(n: nat, d: nat)
    requires d > 0
    ensures n / d >= 0
  {
    DivBounds(n, d);
    NegativeProduct(n / d, d);
  }

  lemma Regroup(q: nat, b: nat, c: nat)
    ensures q * c * b == q * (b * c) && (q * c + c) * b == q * (b * c) + b * c
  {
    assert c * b == b * c;
    assert q * c * b == q * (c * b);
    assert (q * c + c) * b == q * c * b + c * b;
  }

  lemma DivDiv(a: nat, b: nat, c: nat)
    requires b > 0 && c > 0
    ensures b * c > 0 && a / b / c == a / (b * c)
  {
    var x, q := a / b, a / b / c;
    DivBounds(a, b);
    DivBounds(x, c);
    Mono(q * c, x, b);
    Mono(x + 1, q * c + c, b);
    Regroup(q, b, c);
    DivBetween(a, b, x, b * c, q);
  }

  lemma DivBetween(a: nat, b: nat, x: nat, d: nat, q: nat)
    requires d > 0 && x * b <= a < x * b + b && q * d <= x * b && (x + 1) * b <= q * d + d
    ensures a / d == q
  {
    assert (x + 1) * b == x * b + b;
    DivUnique(a, d, q);
  }

  lemma Cancel(d: nat, p: nat, s: nat)
    requires p > 0 && s > 0
    ensures p * s > 0 && d * s / (p * s) == d / p
  {
    DivUnique(d * s, s, d);
    DivDiv(d * s, s, p);
    assert s * p == p * s;
  }

  lemma DivLess(n: nat, d: nat, q: nat)
    requires d > 0 && n < q * d
    ensures n / d < q
  {
    DivBounds(n, d);
    if n / d >= q {
      Mono(q, n / d, d);
    }
  }

  lemma DivAtLeast(n: nat, d: nat, q: nat)
    requires d > 0 && q * d <= n
    ensures q <= n / d
  {
    DivBounds(n, d);
    if n / d < q {
      Mono(n / d + 1, q, d);
    }
  }

  // --- the instruction ---------------------------------------------------------

  /** `divl`, which traps when its precondition does not hold. */
  function Divl(n: nat, d: nat): (q: nat)
    requires n < BB && 0 < d < B && n / d < B
    ensures q < B
  {
    n / d
  }

  /** `x` shifted left by `n`. */
  function Shifted(x: nat, n: nat): nat {
    if n == 0 then x else 2 * Shifted(x, n - 1)
  }

  lemma {:induction false} ShiftedIs(x: nat, n: nat)
    ensures Shifted(x, n) == x * Pow2(n)
  {
    if n > 0 {
      ShiftedIs(x, n - 1);
      assert x * Pow2(n) == 2 * (x * Pow2(n - 1));
    }
  }

  lemma Shift4(x: nat, n: nat)
    ensures Shifted(x, n + 1) == 2 * Shifted(x, n)
    ensures Shifted(x, n + 2) == 4 * Shifted(x, n)
    ensures Shifted(x, n + 4) == 16 * Shifted(x, n)
  {
    assert Shifted(x, n + 4) == 2 * Shifted(x, n + 3) && Shifted(x, n + 3) == 2 * Shifted(x, n + 2);
  }

  lemma Shift16(x: nat, n: nat)
    ensures Shifted(x, n + 8) == 0x100 * Shifted(x, n)
    ensures Shifted(x, n + 16) == 0x1_0000 * Shifted(x, n)
  {
    Shift4(x, n);
    Shift4(x, n + 4);
    Shift4(x, n + 8);
    Shift4(x, n + 12);
  }

  /** A value as it is stored in 32 bits. */
  function Wrap(x: nat): (y: nat)
    ensures x < B ==> y == x
    ensures y < B
  {
    x % B
  }

  /** The first two steps of `nlz`, which find the leading byte. */
  method LeadingByte(x: nat) returns (n: nat, y: nat)
    requires 0 < x < B
    ensures n <= 24 && y == Shifted(x, n) && 0x100_0000 <= y < B
  {
    n, y := 0, x;
    if y <= 0xFFFF {
      Shift16(x, n);
      n, y := n + 16, Wrap(y * 0x1_0000);
    }
    assert y == Shifted(x, n) && 0x1_0000 <= y < B && n <= 16;
    if y <= 0xFF_FFFF {
      Shift16(x, n);
      n, y := n + 8, Wrap(y * 0x100);
    }
  }

  /** `nlz`: the number of leading zero bits. */
  method Nlz(x: nat) returns (n: nat)
    requires 0 < x < B
    ensures n < 32 && 0x8000_0000 <= Shifted(x, n) < B
  {
    var y;
    n, y := LeadingByte(x);
    if y <= 0xFFF_FFFF {
      Shift4(x, n);
      n, y := n + 4, Wrap(y * 0x10);
    }
    assert y == Shifted(x, n) && 0x1000_0000 <= y < B && n <= 28;
    if y <= 0x3FFF_FFFF {
      Shift4(x, n);
      n, y := n + 2, Wrap(y * 4);
    }
    assert y == Shifted(x, n) && 0x4000_0000 <= y < B && n <= 30;
    if y <= 0x7FFF_FFFF {
      Shift4(x, n);
      n := n + 1;
    }
  }

  // --- unsigned division -------------------------------------------------------

  lemma TwoDigits(n: nat, d: nat, n1: nat, n0: nat, t: nat, r: nat, x: nat)
    requires d > 0 && n == B * n1 + n0 && n1 == t * d + r && x * d <= B * r + n0 < x * d + d
    ensures n / d == x + B * t
  {
    assert B * n1 == B * (t * d) + B * r;
    assert (x + B * t) * d == x * d + B * (t * d);
    DivUnique(n, d, x + B * t);
  }

  lemma LowBound(r: nat, n0: nat, d: nat)
    requires r < d < B && n0 < B
    ensures B * r + n0 < B * d < BB
  {
    Mono(r + 1, d, B);
    Mono(d + 1, B, B);
  }

  lemma LowDigit(n: nat, d: nat, n1: nat, n0: nat, t: nat, r: nat, low: nat, x: int)
    requires d > 0 && n == B * n1 + n0 && n1 == t * d + r && low == B * r + n0 && x * d <= low < x * d + d
    ensures n / d == x + B * t
  {
    NegativeProduct(x, d);
    TwoDigits(n, d, n1, n0, t, r, x);
  }

  lemma Digits(n: nat, d: nat, n1: nat, n0: nat, t: nat, r: nat, low: nat)
    requires 0 < d < B && n == B * n1 + n0 && n0 < B && n1 == t * d + r && r < d && low == B * r + n0
    ensures low < BB && low / d < B && low / d + B * t == n / d
  {
    LowBound(r, n0, d);
    DivLess(low, d, B);
    DivBounds(low, d);
    LowDigit(n, d, n1, n0, t, r, low, low / d);
  }

  lemma DivMod(n: nat, d: nat)
    requires d > 0
    ensures n == n / d * d + n % d && n % d < d
  {
  }

  /** The divisor fits in 32 bits: schoolbook division in two digits, neither of
      which overflows. */
  lemma SmallDivisor(n: nat, d: nat)
    requires n < BB && 0 < d < B
    ensures var low := B * (n / B % d) + n % B;
      && low < BB && low / d < B
      && low / d + B * (n / B / d) == n / d
  {
    DivMod(n / B, d);
    Digits(n, d, n / B, n % B, n / B / d, n / B % d, B * (n / B % d) + n % B);
  }

  // --- the estimate for a large divisor ----------------------------------------

  /** What the normalised divisor satisfies: with `p * s == 2^32` and `s` the
      shift, its top half `v` has its top bit set, and `v * p` is the divisor with
      its lowest bits cleared. */
  lemma Normalised(d: nat, s: nat, p: nat)
    requires B <= d < BB && s > 0 && p * s == B && 0x8000_0000 <= d / B * s < B
    ensures d * s < BB && d * s / B == d / p
    ensures 0x8000_0000 <= d / p < B
    ensures d / p * p <= d < d / p * p + p
    ensures 2 * s * d >= BB
  {
    var d1 := d / B;
    TopBelow(d1, s, p);
    Mono(d1 + 1, p, B);
    assert d < p * B;
    Scale(d, p, s);
    Cancel(d, p, s);
    DivLess(d, p, B);
    Mono(d1 * B, d, s);
    assert d1 * B * s == d1 * s * B;
    DivAtLeast(d * s, B, d1 * s);
    DivBounds(d, p);
  }

  lemma TopBelow(d1: nat, s: nat, p: nat)
    requires d1 * s < p * s
    ensures d1 < p
  {
    if d1 >= p {
      Mono(p, d1, s);
    }
  }

  lemma Scale(d: nat, p: nat, s: nat)
    requires d < p * B && p * s == B && s > 0
    ensures d * s < BB
  {
    Mono(d + 1, p * B, s);
    assert (d + 1) * s == d * s + s;
    assert p * B * s == p * s * B;
  }

  lemma EstimateIs(n: nat, v: nat, h: nat)
    requires v > 0 && h > 0
    ensures v * (2 * h) > 0 && n / 2 / v / h == n / (v * (2 * h))
  {
    DivDiv(n, 2, v);
    DivDiv(n, 2 * v, h);
    assert 2 * v * h == v * (2 * h);
    Positive(v, 2 * h);
  }

  lemma Positive(a: nat, b: nat)
    requires a > 0 && b > 0
    ensures a * b > 0
  {
  }

  lemma ErrorBound(q: nat, e: nat, s: nat, p: nat, v: nat)
    requires q + 1 <= 2 * s && e < p && p * s == B && v >= 0x8000_0000 && (p == 2 || p >= 4)
    ensures (q + 1) * e <= v * p
  {
    Mono(q + 1, 2 * s, e);
    Mono(e, p - 1, 2 * s);
    assert (p - 1) * (2 * s) == 2 * (p * s) - 2 * s;
    Mono(0x8000_0000, v, p);
  }

  lemma EstimateLow(n: nat, d: nat, c: nat)
    requires 0 < c <= d
    ensures n / d <= n / c
  {
    DivBounds(n, d);
    Mono(c, d, n / d);
    assert n / d * c == c * (n / d) && n / d * d == d * (n / d);
    DivAtLeast(n, c, n / d);
  }

  lemma EstimateHigh(n: nat, d: nat, c: nat)
    requires 0 < c <= d && (n / d + 1) * (d - c) <= c
    ensures n / c <= n / d + 1
  {
    var q := n / d;
    DivBounds(n, d);
    assert (q + 1) * d == q * d + d;
    assert (q + 1) * d == (q + 1) * c + (q + 1) * (d - c);
    assert (q + 2) * c == (q + 1) * c + c;
    DivLess(n, c, q + 2);
  }

  /** Dividing by the divisor with its lowest bits cleared gives the true quotient
      or one more. */
  lemma EstimateClose(n: nat, d: nat, s: nat, p: nat, v: nat, c: nat, q: nat)
    requires d > 0 && q == n / d && c == v * p && v >= 0x8000_0000 && 0 < c <= d < c + p && n < 2 * s * d
    requires p * s == B && (p == 2 || p >= 4)
    ensures q <= n / c <= q + 1
  {
    EstimateLow(n, d, c);
    DivLess(n, d, 2 * s);
    ErrorBound(q, d - c, s, p, v);
    EstimateHigh(n, d, c);
  }

  /** The last step of `udiv64` takes the one away again. */
  lemma Corrected(n: nat, d: nat, q: nat)
    requires 0 < d <= n < BB && n / d <= q <= n / d + 1
    ensures q > 0 && (q - 1) * d <= n
    ensures n / d == if n - (q - 1) * d < d then q - 1 else q
  {
    DivBounds(n, d);
    DivAtLeast(n, d, 1);
    Mono(q - 1, n / d, d);
    if q == n / d {
      assert n / d * d == (q - 1) * d + d;
    }
  }

  lemma EstimateFits(n: nat, v: nat)
    requires n < BB && v >= 0x8000_0000
    ensures n / 2 / v < B
  {
    Mono(0x8000_0000, v, B);
    assert v * B == B * v;
    DivLess(n / 2, v, B);
  }

  lemma EstimateNear(n: nat, d: nat, s: nat, p: nat, h: nat, v: nat, c: nat, q: nat)
    requires d > 0 && q == n / d && c == v * p && v >= 0x8000_0000 && 0 < c <= d < c + p && n < 2 * s * d
    requires p * s == B && (p == 2 || p >= 4) && p == 2 * h
    ensures q <= n / 2 / v / h <= q + 1
  {
    EstimateIs(n, v, h);
    EstimateClose(n, d, s, p, v, c, q);
  }

  /** The estimate does not overflow, and is the quotient or one more: with
      `s == 2^k` the shift, `p == 2^(32-k)` and `h` half of `p`. */
  lemma Estimate(n: nat, d: nat, s: nat, p: nat, h: nat, v: nat)
    requires n < BB && d > 0 && p * s == B && p == 2 * h && (p == 2 || p >= 4)
    requires 0x8000_0000 <= v < B && v * p <= d < v * p + p && 2 * s * d >= BB
    ensures n / 2 / v < B && n / d <= n / 2 / v / h <= n / d + 1
  {
    EstimateFits(n, v);
    Positive(v, p);
    DivNonNegative(n, d);
    EstimateNear(n, d, s, p, h, v, v * p, n / d);
  }

  lemma ShiftPowers(k: nat)
    requires k < 32
    ensures Pow2(32 - k) * Pow2(k) == B && Pow2(32 - k) == 2 * Pow2(31 - k)
    ensures Pow2(32 - k) == 2 || Pow2(32 - k) >= 4
  {
    PowAdd(32 - k, k);
    Powers();
    if k < 31 {
      assert Pow2(31 - k) == 2 * Pow2(30 - k);
    }
  }

  /** The divisor does not fit in 32 bits. */
  method LargeDivisor(n: nat, d: nat) returns (q: nat)
    requires n < BB && B <= d < BB && d <= n
    ensures q == n / d
  {
    var v, k := TopOf(d);
    Estimate(n, d, Pow2(k), Pow2(32 - k), Pow2(31 - k), v);
    q := ShiftRight(Divl(n / 2, v), 31 - k);
    Corrected(n, d, q);
    if n - (q - 1) * d < d {
      q := q - 1;
    }
  }

  function ShiftRight(x: nat, k: nat): nat {
    DivNonNegative(x, Pow2(k));
    x / Pow2(k)
  }

  /** The top half of the normalised divisor, and by how much it is shifted. */
  method TopOf(d: nat) returns (v: nat, k: nat)
    requires B <= d < BB
    ensures k < 32 && 0x8000_0000 <= v < B
    ensures v * Pow2(32 - k) <= d < v * Pow2(32 - k) + Pow2(32 - k) && 2 * Pow2(k) * d >= BB
    ensures Pow2(32 - k) * Pow2(k) == B && Pow2(32 - k) == 2 * Pow2(31 - k)
    ensures Pow2(32 - k) == 2 || Pow2(32 - k) >= 4
  {
    k := Nlz(d / B);
    ShiftedIs(d / B, k);
    ShiftPowers(k);
    ShiftedIs(d, k);
    Normalised(d, Pow2(k), Pow2(32 - k));
    v := Shifted(d, k) % BB / B;
  }

  lemma Powers()
    ensures Pow2(32) == B
  {
    PowAdd(4, 4);
    PowAdd(8, 8);
    PowAdd(16, 16);
  }

  method SmallQuotient(n: nat, d: nat) returns (q: nat)
    requires n < BB && 0 < d < B
    ensures q == n / d
  {
    SmallDivisor(n, d);
    DivNonNegative(n / B, d);
    q := Divl(B * (n / B % d) + n % B, d) + B * (n / B / d);
  }

  lemma TopHalf(d: nat)
    ensures d / B == 0 <==> d < B
  {
  }

  /** `udiv64`: the exact quotient, with no trap. */
  method Udiv64(n: nat, d: nat) returns (q: nat)
    requires n < BB && 0 < d < BB
    ensures q == n / d
  {
    TopHalf(d);
    if d / B == 0 {
      q := SmallQuotient(n, d);
    } else if n < d {
      DivUnique(n, d, 0);
      q := 0;
    } else {
      q := LargeDivisor(n, d);
    }
  }

  /** A remainder stored in 32 bits is right for every dividend if and only if the
      divisor is at most 2^32. */
  lemma UmodIsExact(d: nat)
    requires 0 < d < BB
    ensures (forall n: nat | n < BB :: n % d % B == n % d) <==> d <= B
  {
    if d <= B {
      forall n: nat | n < BB ensures n % d % B == n % d {
        DivMod(n, d);
        SmallRest(n % d);
      }
    } else {
      DivUnique(d - 1, d, 0);
      DivMod(d - 1, d);
      assert (d - 1) % d == d - 1 >= B;
    }
  }

  lemma SmallRest(r: nat)
    ensures r < B ==> r % B == r
  {
  }

  /** `umod64`: the remainder as it is stored in 32 bits. */
  method Umod64(n: nat, d: nat) returns (r: nat)
    requires n < BB && 0 < d < BB
    ensures r == n % d % B
    ensures r == n % d <==> n % d < B
    ensures d <= B ==> r == n % d
  {
    UmodIsExact(d);
    var q := Udiv64(n, d);
    DivMod(n, d);
    assert d * q == q * d;
    r := (n - d * q) % B;
  }

  // --- signed division -------------------------------------------------------------

  function Abs(x: int): nat { if x < 0 then -x else x }

  /** Division that rounds towards zero, as in C. */
  function Quot(n: int, d: int): int
    requires d != 0
  {
    if (n < 0) == (d < 0) then Abs(n) / Abs(d) else -(Abs(n) / Abs(d))
  }

  function Rem(n: int, d: int): int
    requires d != 0
  {
    n - d * Quot(n, d)
  }

  predicate Int64(x: int) { -HALF <= x < HALF }

  /** `x` as it is stored in a signed integer of the given range. */
  function Signed(x: int, range: nat): int
    requires range > 0 && range % 2 == 0
  {
    var u := x % range;
    if u < range / 2 then u else u - range
  }

  lemma QuotientBound(a: nat, b: nat)
    requires b > 0
    ensures a / b <= a
    ensures b > 1 && a > 0 ==> a / b < a
    ensures b == 1 ==> a / b == a
  {
    Mono(1, b, a + 1);
    assert b * (a + 1) == (a + 1) * b;
    DivLess(a, b, a + 1);
    if b > 1 && a > 0 {
      Mono(2, b, a);
      assert b * a == a * b;
      DivLess(a, b, a);
    }
  }

  const HALF: int := 0x8000_0000_0000_0000

  lemma SignedFits(x: int)
    requires -HALF <= x <= HALF
    ensures x < HALF ==> Signed(x, BB) == x
    ensures Signed(HALF, BB) == -HALF
  {
    if x < 0 {
      assert x % BB == x + BB;
    }
  }

  /** `sdiv64`: the quotient rounded towards zero, except that dividing the most
      negative number by -1 gives that number. */
  method Sdiv64(n: int, d: int) returns (q: int)
    requires Int64(n) && Int64(d) && d != 0
    ensures q == Quot(n, d) <==> !(n == -HALF && d == -1)
    ensures q == Signed(Quot(n, d), BB)
  {
    var a, b := Abs(n), Abs(d);
    var u := Udiv64(a, b);
    QuotientBound(a, b);
    assert u == HALF <==> a == HALF && b == 1;
    SignedFits(u);
    SignedFits(-(u as int));
    q := if (n < 0) == (d < 0) then Signed(u, BB) else Signed(-Signed(u, BB), BB);
  }

  lemma Signed32(x: int)
    ensures Signed(x, B) == x <==> -0x8000_0000 <= x < 0x8000_0000
    ensures Signed(-2 * HALF, B) == 0
  {
    if -0x8000_0000 <= x < 0 {
      assert x % B == x + B;
    }
  }

  /** The remainder has the size of the remainder of the sizes, and the sign of the
      dividend. */
  lemma RemIs(n: int, d: int)
    requires d != 0
    ensures Rem(n, d) == if n < 0 then -(Abs(n) % Abs(d)) else Abs(n) % Abs(d)
  {
    var q: int := Abs(n) / Abs(d);
    DivMod(Abs(n), Abs(d));
    Products(q, Abs(d));
  }

  lemma Products(q: int, b: int)
    ensures -b * q == -(q * b) && b * -q == -(q * b) && -b * -q == q * b && b * q == q * b
  {
  }

  lemma RemBound(n: int, d: int)
    requires d != 0
    ensures Abs(Rem(n, d)) < Abs(d)
    ensures Abs(n) < Abs(d) ==> Rem(n, d) == n
  {
    RemIs(n, d);
    DivMod(Abs(n), Abs(d));
    if Abs(n) < Abs(d) {
      DivUnique(Abs(n), Abs(d), 0);
    }
  }

  /** A remainder stored in 32 bits is right for every dividend if and only if the
      divisor is at most 2^31 in size. */
  lemma SmodIsExact(d: int)
    requires Int64(d) && d != 0
    ensures (forall n | Int64(n) :: Signed(Rem(n, d), B) == Rem(n, d)) <==> Abs(d) <= 0x8000_0000
  {
    if Abs(d) <= 0x8000_0000 {
      forall n | Int64(n) ensures Signed(Rem(n, d), B) == Rem(n, d) {
        RemBound(n, d);
        Signed32(Rem(n, d));
      }
    } else {
      var n := 0x8000_0000;
      RemBound(n, d);
      Signed32(Rem(n, d));
      assert Int64(n) && Signed(Rem(n, d), B) != Rem(n, d);
    }
  }

  /** `smod64`: the remainder, which has the sign of the dividend, as it is stored
      in 32 bits. */
  method Smod64(n: int, d: int) returns (r: int)
    requires Int64(n) && Int64(d) && d != 0
    ensures r == Signed(Rem(n, d), B)
    ensures r == Rem(n, d) <==> -0x8000_0000 <= Rem(n, d) < 0x8000_0000
    ensures Abs(d) <= 0x8000_0000 ==> r == Rem(n, d)
  {
    var q := Sdiv64(n, d);
    Signed32(Rem(n, d));
    SmodIsExact(d);
    if n == -HALF && d == -1 {
      QuotientBound(Abs(n), 1);
    }
    r := Signed(n - d * q, B);
  }
}

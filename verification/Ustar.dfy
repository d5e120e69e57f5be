/** Headers of ustar archives, as the ustar Interchange Format section of the pax
    utility (SUSv3) lays them out: composing them, parsing them, and the octal
    numbers in them. Characters are bytes. */
module Ustar {
  import opened Common
  import opened Arithmetic

  const HEADER_SIZE: nat := 512
  const SLASH: Byte := 47
  const DOT: Byte := 46
  const ZERO: Byte := 48
  const SPACE: Byte := 32

  // --- octal numbers ---------------------------------------------------------

  function Pow8(k: nat): (p: nat)
    ensures p > 0
  {
    if k == 0 then 1 else 8 * Pow8(k - 1)
  }

  /** The last `w` octal digits of `v`. */
  function Octal(v: nat, w: nat): (s: seq<Byte>)
    ensures |s| == w
  {
    if w == 0 then [] else Octal(v / 8, w - 1) + [ZERO + v % 8]
  }

  function Reverse(s: seq<Byte>): (r: seq<Byte>)
    ensures |r| == |s|
  {
    if s == [] then [] else Reverse(s[1..]) + [s[0]]
  }

  lemma {:induction false} ReverseAppend(s: seq<Byte>, b: Byte)
    ensures Reverse(s + [b]) == [b] + Reverse(s)
  {
    if s != [] {
      ReverseAppend(s[1..], b);
      assert (s + [b])[1..] == s[1..] + [b];
    }
  }

  lemma {:induction false} OctalZero(w: nat)
    ensures Octal(0, w) == seq(w, _ => ZERO)
  {
    if w > 0 {
      OctalZero(w - 1);
    }
  }

  /** The last `n` digits, and before them those of what is left. */
  lemma {:induction false} OctalSplit(v: nat, u: nat, n: nat, w: nat)
    requires n <= w && u == v / Pow8(n)
    ensures Octal(v, w) == Octal(u, w - n) + Octal(v, n)
    decreases n
  {
    if n == 0 {
      assert Octal(v, 0) == [];
    } else {
      DivPow(v, n);
      OctalSplit(v / 8, u, n - 1, w - 1);
      Append(Octal(u, w - n), Octal(v / 8, n - 1), [ZERO + v % 8]);
    }
  }

  lemma Append(a: seq<Byte>, b: seq<Byte>, c: seq<Byte>)
    ensures a + b + c == a + (b + c)
  {
  }

  lemma DivPow(v: nat, n: nat)
    requires n > 0
    ensures v / 8 / Pow8(n - 1) == v / Pow8(n)
  {
    DivDiv(v, 8, Pow8(n - 1));
  }

  lemma DivStep(v: nat, n: nat)
    ensures v / Pow8(n) / 8 == v / Pow8(n + 1)
  {
    DivDiv(v, Pow8(n), 8);
  }

  /** The digits of `v` in the order in which `format_integer` makes them. */
  ghost predicate Digits(v: nat, buf: seq<Byte>, rest: nat) {
    && rest == v / Pow8(|buf|) && Reverse(buf) == Octal(v, |buf|)
    && (|buf| > 0 ==> v >= Pow8(|buf| - 1))
  }

  lemma DigitsNext(v: nat, buf: seq<Byte>, rest: nat)
    requires Digits(v, buf, rest) && rest > 0
    ensures Digits(v, buf + [ZERO + rest % 8], rest / 8)
  {
    var n := |buf|;
    DivStep(v, n);
    ReverseAppend(buf, ZERO + rest % 8);
    OctalSplit(v, rest, n, n + 1);
    assert Octal(rest, 1) == [ZERO + rest % 8];
    DivAtMost(v, Pow8(n));
  }

  lemma DivAtMost(v: nat, d: nat)
    requires d > 0 && v / d > 0
    ensures v >= d
  {
    if v < d {
      DivUnique(v, d, 0);
    }
  }

  lemma {:induction false} PowMono(a: nat, b: nat)
    requires a <= b
    ensures Pow8(a) <= Pow8(b)
    decreases b
  {
    if a < b {
      PowMono(a, b - 1);
    }
  }

  /** All digits made: padded with zeros they are the number in `w` digits, or in
      as many as it needs. */
  lemma DigitsDone(v: nat, buf: seq<Byte>, w: nat, pad: nat)
    requires Digits(v, buf, 0) && pad == if |buf| < w then w - |buf| else 0
    ensures var out := seq(pad, _ => ZERO) + Reverse(buf);
      out == Octal(v, |out|) && InDigits(v, |out|, w)
  {
    var n := |buf|;
    PadZeros(v, n, n + pad);
    NoMore(v, n);
    PowMono(n, n + pad);
  }

  lemma NoMore(v: nat, n: nat)
    requires v / Pow8(n) == 0
    ensures v < Pow8(n)
  {
    DivBounds(v, Pow8(n));
  }

  /** `n` is `w`, or more if `v` needs more digits, and then no more than that. */
  predicate InDigits(v: nat, n: nat, w: nat) {
    n >= w && v < Pow8(n) && (n > w ==> n > 0 && v >= Pow8(n - 1))
  }

  lemma WidthEnough(v: nat, n: nat, w: nat)
    requires InDigits(v, n, w) && v < Pow8(w)
    ensures n == w
  {
    if n > w {
      PowMono(w, n - 1);
    }
  }

  lemma PadZeros(v: nat, n: nat, w: nat)
    requires n <= w && v / Pow8(n) == 0
    ensures Octal(v, w) == seq(w - n, _ => ZERO) + Octal(v, n)
  {
    OctalSplit(v, 0, n, w);
    OctalZero(w - n);
  }

  /** `output_dup`. */
  method Duplicate(b: Byte, count: nat, before: seq<Byte>) returns (out: seq<Byte>)
    ensures out == before + seq(count, _ => b)
  {
    out := before;
    var i := 0;
    while i < count
      invariant i <= count && out == before + seq(i, _ => b)
    {
      out := out + [b];
      i := i + 1;
    }
  }

  /** The last loop of `format_integer`, which turns the digits around. */
  method Backwards(buf: seq<Byte>, before: seq<Byte>) returns (out: seq<Byte>)
    ensures out == before + Reverse(buf)
  {
    out := before;
    var i := |buf|;
    assert buf[..i] == buf;
    while i > 0
      invariant 0 <= i <= |buf| && out + Reverse(buf[..i]) == before + Reverse(buf)
    {
      i := i - 1;
      assert buf[..i + 1] == buf[..i] + [buf[i]];
      ReverseAppend(buf[..i], buf[i]);
      out := out + [buf[i]];
    }
  }

  /** `format_integer` for an unsigned octal conversion padded with zeros, `%0wo`:
      the number in `w` digits, or in as many as it needs. */
  method FormatOctal(v: nat, w: nat) returns (out: seq<Byte>)
    requires w > 0
    ensures out == Octal(v, |out|) && InDigits(v, |out|, w)
  {
    var buf: seq<Byte>, x := [], v;
    while x > 0
      invariant Digits(v, buf, x)
    {
      DigitsNext(v, buf, x);
      buf, x := buf + [ZERO + x % 8], x / 8;
    }
    if |buf| >= 1 {
      DigitsDone(v, buf, w, if |buf| < w then w - |buf| else 0);
    } else {
      assert v == 0;
      buf := buf + [ZERO];
      OctalZero(w);
      assert Reverse(buf) == [ZERO];
    }
    out := Duplicate(ZERO, if w > |buf| then w - |buf| else 0, []);
    out := Backwards(buf, out);
  }

  /** `snprintf` of one such conversion into a field of `w + 1` bytes: what does
      not fit is cut off at the end. */
  method OctalField(v: nat, w: nat) returns (field: seq<Byte>)
    requires w > 0
    ensures v < Pow8(w) ==> field == Octal(v, w) + [0]
    ensures exists n: nat :: InDigits(v, n, w) && field == Octal(v, n)[..w] + [0]
  {
    var out := FormatOctal(v, w);
    assert InDigits(v, |out|, w);
    if v < Pow8(w) {
      WidthEnough(v, |out|, w);
    }
    field := out[..w] + [0];
  }

  // --- reading an octal field --------------------------------------------------

  /** What `parse_octal_field` makes of the bytes from `at` on, having read
      `value`. */
  function ParseFrom(s: seq<Byte>, at: nat, value: nat): Option<nat>
    requires at <= |s|
    decreases |s| - at
  {
    if at == |s| then None
    else if ZERO <= s[at] <= ZERO + 7 then
      if value > 0x1FFF_FFFF then None else ParseFrom(s, at + 1, s[at] - ZERO + value * 8)
    else if s[at] == SPACE || s[at] == 0 then
      if at > 0 then Some(value) else None
    else None
  }

  predicate IsOctal(s: seq<Byte>) {
    forall i | 0 <= i < |s| :: ZERO <= s[i] <= ZERO + 7
  }

  /** The number that octal digits stand for. */
  function OctalValue(s: seq<Byte>): (v: nat)
    requires IsOctal(s)
  {
    if s == [] then 0 else OctalValue(s[..|s| - 1]) * 8 + (s[|s| - 1] - ZERO)
  }

  const ULONG_MAX: nat := 0xFFFF_FFFF

  /** `s` is `n` octal digits, at least one, for a number that fits in a word, and
      then a space or a null. */
  predicate OctalAt(s: seq<Byte>, n: nat) {
    && 0 < n < |s| && IsOctal(s[..n]) && OctalValue(s[..n]) <= ULONG_MAX
    && (s[n] == SPACE || s[n] == 0)
  }

  /** `s` is a field for the number `v`. */
  ghost predicate Denotes(s: seq<Byte>, v: nat) {
    exists n: nat :: OctalAt(s, n) && OctalValue(s[..n]) == v
  }

  lemma NextDigit(s: seq<Byte>, at: nat)
    requires at < |s| && IsOctal(s[..at]) && ZERO <= s[at] <= ZERO + 7
    ensures IsOctal(s[..at + 1]) && OctalValue(s[..at + 1]) == OctalValue(s[..at]) * 8 + (s[at] - ZERO)
  {
    assert s[..at + 1][..at] == s[..at];
  }

  lemma {:induction false} ValueGrows(s: seq<Byte>, m: nat, n: nat)
    requires m <= n <= |s| && IsOctal(s[..n])
    ensures IsOctal(s[..m]) && OctalValue(s[..m]) <= OctalValue(s[..n])
    decreases n
  {
    assert s[..m] == s[..n][..m];
    if m < n {
      assert s[..n][..n - 1] == s[..n - 1];
      ValueGrows(s, m, n - 1);
    }
  }

  /** Once a number is too large, so is every longer one. */
  lemma TooLarge(s: seq<Byte>, at: nat)
    requires at < |s| && IsOctal(s[..at]) && ZERO <= s[at] <= ZERO + 7 && OctalValue(s[..at]) > 0x1FFF_FFFF
    ensures forall n: nat | n > at :: !OctalAt(s, n)
  {
    NextDigit(s, at);
    forall n | at < n < |s| && IsOctal(s[..n]) ensures OctalValue(s[..n]) > ULONG_MAX {
      ValueGrows(s, at + 1, n);
    }
  }

  /** Where the digits end, the field ends. */
  lemma DigitsEnd(s: seq<Byte>, at: nat, n: nat)
    requires at < |s| && IsOctal(s[..at]) && !(ZERO <= s[at] <= ZERO + 7) && OctalAt(s, n)
    ensures n == at
  {
    assert forall i | 0 <= i < n :: s[..n][i] == s[i];
    assert forall i | 0 <= i < at :: s[..at][i] == s[i];
  }

  /** The parser accepts exactly the fields that denote a number, and returns it. */
  lemma {:induction false} ParseMeaning(s: seq<Byte>, at: nat, v: nat)
    requires at <= |s| && IsOctal(s[..at]) && OctalValue(s[..at]) <= ULONG_MAX
    ensures ParseFrom(s, at, OctalValue(s[..at])) == Some(v) <==>
      exists n: nat :: n >= at && OctalAt(s, n) && OctalValue(s[..n]) == v
    decreases |s| - at
  {
    if at < |s| {
      if ZERO <= s[at] <= ZERO + 7 {
        NextDigit(s, at);
        assert !OctalAt(s, at);
        if OctalValue(s[..at]) > 0x1FFF_FFFF {
          TooLarge(s, at);
        } else {
          ParseMeaning(s, at + 1, v);
        }
      } else {
        forall n: nat | OctalAt(s, n) ensures n == at {
          DigitsEnd(s, at, n);
        }
        assert OctalAt(s, at) <==> at > 0 && (s[at] == SPACE || s[at] == 0);
      }
    }
  }

  /** `parse_octal_field`. */
  method ParseOctal(s: seq<Byte>) returns (r: Option<nat>)
    ensures forall v: nat :: r == Some(v) <==> Denotes(s, v)
    ensures r == ParseFrom(s, 0, 0)
  {
    var value, at := 0, 0;
    ParsedIs(s);
    while at < |s|
      invariant at <= |s| && 0 <= value && ParseFrom(s, at, value) == ParseFrom(s, 0, 0)
    {
      var c := s[at];
      if ZERO <= c <= ZERO + 7 {
        if value > 0x1FFF_FFFF {
          return None;
        }
        value := c - ZERO + value * 8;
      } else if c == SPACE || c == 0 {
        return if at > 0 then Some(value) else None;
      } else {
        return None;
      }
      at := at + 1;
    }
    r := None;
  }

  lemma ParsedIs(s: seq<Byte>)
    ensures forall v: nat :: ParseFrom(s, 0, 0) == Some(v) <==> Denotes(s, v)
  {
    forall v: nat ensures ParseFrom(s, 0, 0) == Some(v) <==> Denotes(s, v) {
      assert s[..0] == [];
      ParseMeaning(s, 0, v);
      if Denotes(s, v) {
        var n: nat :| OctalAt(s, n) && OctalValue(s[..n]) == v;
        assert n >= 0;
      }
    }
  }

  lemma {:induction false} ParseDigits(s: seq<Byte>, v: nat, w: nat)
    requires w <= |s| && s[..w] == Octal(v, w) && v < Pow8(w) && v <= 0xFFFF_FFFF
    ensures ParseFrom(s, 0, 0) == ParseFrom(s, w, v)
  {
    if w > 0 {
      assert s[..w - 1] == s[..w][..w - 1] == Octal(v / 8, w - 1);
      ParseDigits(s, v / 8, w - 1);
      assert s[w - 1] == s[..w][w - 1] == ZERO + v % 8;
    }
  }

  /** Reading back what was written. */
  lemma OctalRoundTrip(v: nat, w: nat)
    requires w > 0 && v < Pow8(w) && v <= 0xFFFF_FFFF
    ensures ParseFrom(Octal(v, w) + [0], 0, 0) == Some(v)
  {
    var s := Octal(v, w) + [0];
    assert s[..w] == Octal(v, w);
    ParseDigits(s, v, w);
  }

  // --- names ---------------------------------------------------------------------

  predicate Starts(s: seq<Byte>, p: seq<Byte>) { |p| <= |s| && s[..|p|] == p }

  predicate Antisocial(s: seq<Byte>) {
    Starts(s, [SLASH]) || Starts(s, [DOT, SLASH]) || Starts(s, [DOT, DOT, SLASH])
  }

  /** What follows the first slash. */
  function AfterSlash(s: seq<Byte>): (r: seq<Byte>)
    requires SLASH in s
    ensures |r| < |s|
  {
    if s[0] == SLASH then s[1..] else AfterSlash(s[1..])
  }

  function Strip(s: seq<Byte>): seq<Byte>
    decreases |s|
  {
    if Antisocial(s) then
      assert s[0] == SLASH || s[1] == SLASH || s[2] == SLASH;
      Strip(AfterSlash(s))
    else if s == [] || s == [DOT, DOT] then [DOT]
    else s
  }

  /** `strip_antisocial_prefixes`. */
  method StripPrefixes(name: seq<Byte>) returns (s: seq<Byte>)
    ensures s == Strip(name)
  {
    s := name;
    while Antisocial(s)
      invariant Strip(s) == Strip(name)
      decreases |s|
    {
      assert s[0] == SLASH || s[1] == SLASH || s[2] == SLASH;
      s := AfterSlash(s);
    }
    if s == [] || s == [DOT, DOT] {
      s := [DOT];
    }
  }

  /** A stripped name begins with none of the prefixes, and stripping it again
      changes nothing. */
  lemma {:induction false} StripIsSafe(s: seq<Byte>)
    ensures !Antisocial(Strip(s)) && Strip(s) != [] && Strip(s) != [DOT, DOT]
    ensures Strip(Strip(s)) == Strip(s)
    ensures |Strip(s)| <= |s| || Strip(s) == [DOT]
    decreases |s|
  {
    if Antisocial(s) {
      assert s[0] == SLASH || s[1] == SLASH || s[2] == SLASH;
      StripIsSafe(AfterSlash(s));
    } else {
      assert [DOT][..1][0] == DOT;
    }
  }

  /** What precedes the first slash. */
  function BeforeSlash(s: seq<Byte>): seq<Byte> {
    if s == [] || s[0] == SLASH then [] else [s[0]] + BeforeSlash(s[1..])
  }

  /** The components of a name. */
  function Components(s: seq<Byte>): (cs: seq<seq<Byte>>)
    ensures cs != []
    decreases |s|
  {
    if SLASH in s then [BeforeSlash(s)] + Components(AfterSlash(s)) else [s]
  }

  /** Components that lead nowhere, or up. */
  predicate Idle(c: seq<Byte>) { c == [] || c == [DOT] }
  predicate Up(c: seq<Byte>) { c == [DOT, DOT] }

  /** Leading components that are empty, `.` or `..` dropped; `.` if nothing else is
      left. */
  function Leading(cs: seq<seq<Byte>>): seq<seq<Byte>>
    requires cs != []
  {
    if |cs| > 1 && (Idle(cs[0]) || Up(cs[0])) then Leading(cs[1..])
    else if cs == [[]] || cs == [[DOT, DOT]] then [[DOT]]
    else cs
  }

  lemma {:induction false} SlashAt(s: seq<Byte>, k: nat)
    requires k < |s| && s[k] == SLASH && SLASH !in s[..k]
    ensures SLASH in s && BeforeSlash(s) == s[..k] && AfterSlash(s) == s[k + 1..]
  {
    if k > 0 {
      assert s[0] == s[..k][0];
      assert s[1..][..k - 1] == s[..k][1..];
      SlashAt(s[1..], k - 1);
      assert s[..k] == [s[0]] + s[1..][..k - 1];
    }
  }

  /** A name begins with one of the prefixes exactly if its first component, before
      a slash, is one of those. */
  lemma AntisocialIs(s: seq<Byte>)
    ensures Antisocial(s) <==> SLASH in s && (Idle(BeforeSlash(s)) || Up(BeforeSlash(s)))
  {
    if SLASH in s {
      FirstPart(s);
    }
    if Starts(s, [SLASH]) {
      assert s[0] == SLASH;
    } else if Starts(s, [DOT, SLASH]) {
      assert s[0] == [DOT, SLASH][0] && s[1] == [DOT, SLASH][1];
      SlashAt(s, 1);
    } else if Starts(s, [DOT, DOT, SLASH]) {
      assert s[0] == [DOT, DOT, SLASH][0] && s[1] == [DOT, DOT, SLASH][1] && s[2] == [DOT, DOT, SLASH][2];
      SlashAt(s, 2);
    }
  }

  lemma {:induction false} FirstPart(s: seq<Byte>)
    requires SLASH in s
    ensures var n := |BeforeSlash(s)|;
      n < |s| && s[..n] == BeforeSlash(s) && s[n] == SLASH && s[..n + 1] == BeforeSlash(s) + [SLASH]
  {
    if s[0] != SLASH {
      FirstPart(s[1..]);
      var n := |BeforeSlash(s[1..])|;
      assert s[..n + 1] == [s[0]] + s[1..][..n];
      assert s[..n + 2] == [s[0]] + s[1..][..n + 1];
    }
  }

  /** Stripping drops leading components, and no others. */
  lemma {:induction false} StripComponents(s: seq<Byte>)
    ensures Components(Strip(s)) == Leading(Components(s))
    decreases |s|
  {
    AntisocialIs(s);
    if Antisocial(s) {
      StripComponents(AfterSlash(s));
      assert Components(s)[1..] == Components(AfterSlash(s));
    } else if SLASH in s {
      assert |Components(s)| > 1;
    } else {
      assert SLASH !in [DOT];
    }
  }

  /** Where a name leads from the directory `at` below the current one, or nowhere
      if it leads above the current one. */
  function Walk(cs: seq<seq<Byte>>, at: seq<seq<Byte>>): Option<seq<seq<Byte>>> {
    if cs == [] then Some(at)
    else if Idle(cs[0]) then Walk(cs[1..], at)
    else if !Up(cs[0]) then Walk(cs[1..], at + [cs[0]])
    else if at == [] then None
    else Walk(cs[1..], at[..|at| - 1])
  }

  /** Names less ups. */
  function Balance(cs: seq<seq<Byte>>): int {
    if cs == [] then 0
    else (if Idle(cs[0]) then 0 else if Up(cs[0]) then -1 else 1) + Balance(cs[1..])
  }

  /** No beginning of `cs` has more ups than names and the `n` before it. */
  ghost predicate Above(cs: seq<seq<Byte>>, n: nat) {
    forall k | 0 <= k <= |cs| :: Balance(cs[..k]) + n >= 0
  }

  lemma AboveMore(cs: seq<seq<Byte>>, n: nat, m: nat)
    requires cs != [] && m == n + Balance(cs[..1])
    ensures Above(cs, n) <==> Above(cs[1..], m)
  {
    forall k | 0 <= k < |cs| ensures Balance(cs[..k + 1]) + n == Balance(cs[1..][..k]) + m {
      assert cs[..k + 1][1..] == cs[1..][..k];
      assert cs[..1][1..] == [];
    }
    if Above(cs, n) {
      forall k | 0 <= k <= |cs[1..]| ensures Balance(cs[1..][..k]) + m >= 0 {
        assert Balance(cs[..k + 1]) + n >= 0;
      }
    }
    if Above(cs[1..], m) {
      forall k | 0 <= k <= |cs| ensures Balance(cs[..k]) + n >= 0 {
        if k > 0 {
          assert Balance(cs[1..][..k - 1]) + m >= 0;
        }
      }
    }
  }

  /** A walk stays below the current directory if and only if no beginning of it
      has more ups than names. */
  lemma {:induction false} WalkStays(cs: seq<seq<Byte>>, at: seq<seq<Byte>>)
    ensures Walk(cs, at).Some? <==> Above(cs, |at|)
  {
    if cs != [] {
      var first := Balance(cs[..1]);
      assert cs[..1][1..] == [];
      if Up(cs[0]) && at == [] {
        assert Balance(cs[..1]) + |at| < 0;
      } else {
        var next := if Idle(cs[0]) then at else if Up(cs[0]) then at[..|at| - 1] else at + [cs[0]];
        WalkStays(cs[1..], next);
        AboveMore(cs, |at|, |next|);
      }
    }
  }

  /** A stripped name leads out of the current directory if and only if, without
      its leading components, some beginning of the name has more ups than names. */
  lemma StripStays(s: seq<Byte>)
    ensures Strip(s) != [] && Strip(s)[0] != SLASH
    ensures Walk(Components(Strip(s)), []).Some? <==> Above(Leading(Components(s)), 0)
  {
    StripIsSafe(s);
    assert Strip(s)[0] == SLASH ==> Starts(Strip(s), [SLASH]);
    StripComponents(s);
    WalkStays(Components(Strip(s)), []);
  }

  function UpTo(rest: seq<Byte>): seq<Byte> { [DOT, DOT] + [SLASH] + rest }

  /** `a/../../b` is such a name: stripping leaves it as it is. */
  lemma StillClimbs(a: seq<Byte>, b: seq<Byte>)
    requires SLASH !in a && !Idle(a) && !Up(a)
    ensures var s := a + [SLASH] + UpTo(UpTo(b));
      Strip(s) == s && Walk(Components(s), []) == None
  {
    var s := a + [SLASH] + UpTo(UpTo(b));
    Split(s, a, UpTo(UpTo(b)));
    Split(UpTo(UpTo(b)), [DOT, DOT], UpTo(b));
    Split(UpTo(b), [DOT, DOT], b);
    AntisocialIs(s);
    Climbing(a, Components(b));
    assert |s| > |a|;
  }

  /** A slash splits a name. */
  lemma Split(s: seq<Byte>, c: seq<Byte>, rest: seq<Byte>)
    requires s == c + [SLASH] + rest && SLASH !in c
    ensures SLASH in s && BeforeSlash(s) == c && AfterSlash(s) == rest && Components(s) == [c] + Components(rest)
  {
    assert s[..|c|] == c && s[|c| + 1..] == rest;
    SlashAt(s, |c|);
  }

  lemma Climbing(c: seq<Byte>, rest: seq<seq<Byte>>)
    requires !Idle(c) && !Up(c)
    ensures Walk([c] + ([[DOT, DOT]] + ([[DOT, DOT]] + rest)), []) == None
  {
    var cs := [[DOT, DOT]] + rest;
    assert cs[0] == [DOT, DOT];
    assert Walk(cs, []) == None;
    var cs2 := [[DOT, DOT]] + cs;
    assert cs2[1..] == cs && [c][..0] == [];
    assert Walk(cs2, [c]) == None;
    var cs3 := [c] + cs2;
    assert cs3[1..] == cs2 && [] + [c] == [c];
  }

  lemma {:induction false} StripPart(s: seq<Byte>, b: Byte)
    requires b in Strip(s)
    ensures b in s || b == DOT
    decreases |s|
  {
    if Antisocial(s) {
      assert s[0] == SLASH || s[1] == SLASH || s[2] == SLASH;
      StripPart(AfterSlash(s), b);
      AfterSlashPart(s, b);
    }
  }

  lemma {:induction false} AfterSlashPart(s: seq<Byte>, b: Byte)
    requires SLASH in s
    ensures b in AfterSlash(s) ==> b in s
  {
    if s[0] != SLASH {
      AfterSlashPart(s[1..], b);
    }
  }

  // --- the header --------------------------------------------------------------------

  datatype Type = Regular | Directory

  function TypeByte(t: Type): Byte { if t.Regular? then 48 else 53 }

  type Header = h: seq<Byte> | |h| == HEADER_SIZE witness seq(HEADER_SIZE, _ => 0)

  /** The sum of the bytes below `n`, those of the checksum field taken as
      spaces. */
  function Sum(h: Header, n: nat): (t: nat)
    requires n <= HEADER_SIZE
    ensures t <= 255 * n
  {
    if n == 0 then 0 else Sum(h, n - 1) + if 148 <= n - 1 < 156 then SPACE else h[n - 1]
  }

  /** `calculate_chksum`. */
  method Checksum(h: Header) returns (t: nat)
    ensures t == Sum(h, HEADER_SIZE)
  {
    t := 0;
    var i := 0;
    while i < HEADER_SIZE
      invariant i <= HEADER_SIZE && t == Sum(h, i)
    {
      t := t + if 148 <= i < 156 then SPACE else h[i];
      i := i + 1;
    }
  }

  /** The sum does not see the checksum field. */
  lemma {:induction false} SumIgnores(h: Header, k: Header, n: nat)
    requires n <= HEADER_SIZE && forall i | 0 <= i < n && !(148 <= i < 156) :: h[i] == k[i]
    ensures Sum(h, n) == Sum(k, n)
  {
    if n > 0 {
      SumIgnores(h, k, n - 1);
    }
  }

  /** A change of one byte elsewhere changes the sum by as much. */
  lemma {:induction false} SumChanges(h: Header, i: nat, b: Byte, n: nat)
    requires i < n <= HEADER_SIZE && !(148 <= i < 156)
    ensures Sum(h[i := b], n) == Sum(h, n) - h[i] + b
  {
    if i == n - 1 {
      SumIgnores(h, h[i := b], n - 1);
    } else {
      SumChanges(h, i, b, n - 1);
    }
  }

  datatype Result =
    | Entry(name: seq<Byte>, kind: Type, size: nat)
    | End
    | Error(message: string)

  /** The bytes before the first null. */
  function CString(s: seq<Byte>): (r: seq<Byte>)
    ensures 0 !in r
  {
    if s == [] || s[0] == 0 then [] else [s[0]] + CString(s[1..])
  }

  predicate AllZeros(h: seq<Byte>) { forall i | 0 <= i < |h| :: h[i] == 0 }

  const MAGIC: seq<Byte> := [117, 115, 116, 97, 114, 0]

  /** `ustar_parse_header`. */
  function Parse(h: Header): Result {
    if AllZeros(h) then End
    else if h[257..263] != MAGIC then Error("not a ustar archive")
    else if h[263] != ZERO || h[264] != ZERO then Error("invalid ustar version")
    else
      var sum := ParseFrom(h[148..156], 0, 0);
      if sum.None? then Error("corrupt chksum field")
      else if sum.value != Sum(h, HEADER_SIZE) then Error("checksum mismatch")
      else if h[99] != 0 || h[345] != 0 then Error("file name too long")
      else if h[156] != TypeByte(Regular) && h[156] != TypeByte(Directory) then Error("unimplemented file type")
      else if h[156] == TypeByte(Directory) then Entry(Strip(CString(h[..100])), Directory, 0)
      else
        var size := ParseFrom(h[124..136], 0, 0);
        if size.None? then Error("corrupt file size field")
        else if size.value > 0x7FFF_FFFF then Error("file too large")
        else Entry(Strip(CString(h[..100])), Regular, size.value)
  }

  /** `h` is the header of a file or directory of this name and size, whatever the
      order in which that is looked at. */
  ghost predicate Describes(h: Header, name: seq<Byte>, kind: Type, size: nat) {
    && h[257..263] == MAGIC && h[263] == h[264] == ZERO
    && Denotes(h[148..156], Sum(h, HEADER_SIZE))
    && h[99] == 0 && h[345] == 0 && name == Strip(CString(h[..100]))
    && h[156] == TypeByte(kind)
    && if kind.Directory? then size == 0 else Denotes(h[124..136], size) && size <= 0x7FFF_FFFF
  }

  /** A header is accepted for what it describes and nothing else; a blank one ends
      the archive; all others are errors. */
  lemma AcceptsExactly(h: Header)
    ensures forall name, kind, size: nat :: Parse(h) == Entry(name, kind, size) <==> Describes(h, name, kind, size)
    ensures Parse(h) == End <==> AllZeros(h)
  {
    ParsedIs(h[148..156]);
    ParsedIs(h[124..136]);
    assert h[257..263][0] == h[257];
    forall name, kind, size: nat ensures Parse(h) == Entry(name, kind, size) <==> Describes(h, name, kind, size) {
      assert kind == Regular || kind == Directory;
      assert Denotes(h[148..156], Sum(h, HEADER_SIZE)) <==> ParseFrom(h[148..156], 0, 0) == Some(Sum(h, HEADER_SIZE));
      assert Denotes(h[124..136], size) <==> ParseFrom(h[124..136], 0, 0) == Some(size);
    }
  }

  /** No change of a single byte outside the checksum field goes unnoticed. */
  lemma CorruptionIsFound(h: Header, i: nat, b: Byte)
    requires Parse(h).Entry? && i < HEADER_SIZE && !(148 <= i < 156) && b != h[i]
    ensures Parse(h[i := b]).Error?
  {
    var h' := h[i := b];
    SumChanges(h, i, b, HEADER_SIZE);
    assert h'[148..156] == h[148..156];
    ChecksumNotZero(h);
    assert h'[148] == h[148];
  }

  lemma ChecksumNotZero(h: Header)
    requires ParseFrom(h[148..156], 0, 0).Some?
    ensures h[148] != 0
  {
    assert h[148..156][0] == h[148];
  }

  // --- composing a header ------------------------------------------------------------

  function Put(h: Header, at: nat, s: seq<Byte>): Header
    requires at + |s| <= HEADER_SIZE
  {
    h[..at] + s + h[at + |s|..]
  }

  datatype Field = Field(at: nat, bytes: seq<Byte>)

  predicate Agrees(h: Header, f: Field) {
    f.at + |f.bytes| <= HEADER_SIZE && h[f.at..f.at + |f.bytes|] == f.bytes
  }

  predicate Clear(f: Field, at: nat, n: nat) {
    f.at + |f.bytes| <= at || at + n <= f.at
  }

  lemma PutAgrees(h: Header, at: nat, s: seq<Byte>, f: Field)
    requires at + |s| <= HEADER_SIZE
    ensures Agrees(Put(h, at, s), Field(at, s))
    ensures Agrees(h, f) && Clear(f, at, |s|) ==> Agrees(Put(h, at, s), f)
  {
    var h' := Put(h, at, s);
    assert h'[at..at + |s|] == s;
    if Agrees(h, f) && Clear(f, at, |s|) {
      assert h'[f.at..f.at + |f.bytes|] == h[f.at..f.at + |f.bytes|];
    }
  }

  ghost predicate InRange(puts: seq<Field>) {
    forall k | 0 <= k < |puts| :: puts[k].at + |puts[k].bytes| <= HEADER_SIZE
  }

  /** `h` with fields filled in one after the other. */
  ghost function Fill(h: Header, puts: seq<Field>): Header
    requires InRange(puts)
  {
    if puts == [] then h
    else
      var last := puts[|puts| - 1];
      Put(Fill(h, puts[..|puts| - 1]), last.at, last.bytes)
  }

  ghost predicate ClearOf(f: Field, puts: seq<Field>) {
    forall k | 0 <= k < |puts| :: Clear(f, puts[k].at, |puts[k].bytes|)
  }

  lemma {:induction false} FillKeeps(h: Header, puts: seq<Field>, f: Field)
    requires InRange(puts) && Agrees(h, f) && ClearOf(f, puts)
    ensures Agrees(Fill(h, puts), f)
  {
    if puts != [] {
      var n := |puts| - 1;
      FillKeeps(h, puts[..n], f);
      PutAgrees(Fill(h, puts[..n]), puts[n].at, puts[n].bytes, f);
    }
  }

  /** A field that no later one overlaps is there in the end. */
  lemma {:induction false} FillAgrees(h: Header, puts: seq<Field>, k: nat)
    requires InRange(puts) && k < |puts| && ClearOf(puts[k], puts[k + 1..])
    ensures Agrees(Fill(h, puts), puts[k])
  {
    var n := |puts| - 1;
    var before := Fill(h, puts[..n]);
    if k < n {
      assert puts[k + 1..n] == puts[k + 1..][..n - k - 1];
      assert puts[..n][k + 1..] == puts[k + 1..n];
      FillAgrees(h, puts[..n], k);
      assert puts[n] == puts[k + 1..][n - k - 1];
    }
    PutAgrees(before, puts[n].at, puts[n].bytes, puts[k]);
  }

  /** One field is written in place. */
  method Write(h: Header, at: nat, bytes: seq<Byte>, ghost start: Header, ghost puts: seq<Field>)
    returns (h': Header, ghost puts': seq<Field>)
    requires at + |bytes| <= HEADER_SIZE && InRange(puts) && h == Fill(start, puts)
    ensures puts' == puts + [Field(at, bytes)] && InRange(puts') && h' == Fill(start, puts')
  {
    puts' := puts + [Field(at, bytes)];
    assert puts'[..|puts|] == puts;
    h' := Put(h, at, bytes);
  }

  function Blank(): Header { seq<Byte>(HEADER_SIZE, _ => 0) }

  const NO_ID: seq<Byte> := [48, 48, 48, 48, 48, 48, 48, 0]
  const ROOT: seq<Byte> := [114, 111, 111, 116, 0]

  lemma Powers8()
    ensures Pow8(7) == 0x20_0000 && Pow8(11) == 0x2_0000_0000
  {
    assert Pow8(4) == 0x1000;
    assert Pow8(8) == 0x100_0000;
  }

  function Mode(t: Type): nat { if t.Regular? then 0x1A4 else 0x1ED }

  const MTIME: nat := 1136102400

  /** The fields of a header in the order in which `ustar_make_header` fills them
      in; the checksum comes after them. */
  function Fields(name: seq<Byte>, t: Type, size: nat, time: nat): seq<Field> {
    NumberFields(name, Mode(t), size, time) + OtherFields(t)
  }

  function NumberFields(name: seq<Byte>, mode: nat, size: nat, time: nat): seq<Field> {
    [Field(0, name + [0]), Field(100, Octal(mode, 7) + [0]), Field(108, NO_ID), Field(116, NO_ID),
     Field(124, Octal(size, 11) + [0]), Field(136, Octal(time, 11) + [0])]
  }

  function OtherFields(t: Type): seq<Field> {
    [Field(156, [TypeByte(t)]), Field(257, MAGIC), Field(263, [ZERO, ZERO]), Field(297, ROOT), Field(265, ROOT)]
  }

  method FillNumbers(name: seq<Byte>, mode: nat, size: nat, time: nat) returns (h: Header, ghost puts: seq<Field>)
    requires |name| <= 99 && mode < Pow8(7) && size < Pow8(11) && time < Pow8(11)
    ensures puts == NumberFields(name, mode, size, time) && InRange(puts) && h == Fill(Blank(), puts)
  {
    var a := OctalField(mode, 7);
    var b := OctalField(size, 11);
    var c := OctalField(time, 11);
    h, puts := Blank(), [];
    h, puts := Write(h, 0, name + [0], Blank(), puts);
    h, puts := Write(h, 100, a, Blank(), puts);
    h, puts := Write(h, 108, NO_ID, Blank(), puts);
    h, puts := Write(h, 116, NO_ID, Blank(), puts);
    h, puts := Write(h, 124, b, Blank(), puts);
    h, puts := Write(h, 136, c, Blank(), puts);
  }

  /** The header but for its checksum. */
  method FillIn(name: seq<Byte>, t: Type, size: nat, time: nat) returns (h: Header, ghost puts: seq<Field>)
    requires |name| <= 99 && size <= 0xFFFF_FFFF && time <= 0xFFFF_FFFF
    ensures puts == Fields(name, t, size, time) && InRange(puts) && h == Fill(Blank(), puts)
  {
    Powers8();
    h, puts := FillNumbers(name, Mode(t), size, time);
    h, puts := Write(h, 156, [TypeByte(t)], Blank(), puts);
    h, puts := Write(h, 257, MAGIC, Blank(), puts);
    h, puts := Write(h, 263, [ZERO, ZERO], Blank(), puts);
    h, puts := Write(h, 297, ROOT, Blank(), puts);
    h, puts := Write(h, 265, ROOT, Blank(), puts);
  }

  // --- the round trip --------------------------------------------------------------

  /** All fields, the checksum last. */
  function AllFields(name: seq<Byte>, t: Type, size: nat, time: nat, sum: nat): seq<Field> {
    Fields(name, t, size, time) + [Field(148, Octal(sum, 7) + [0])]
  }

  /** Where field `k` starts and how long it is. */
  function Start(k: nat): nat
    requires k < 12
  {
    [0, 100, 108, 116, 124, 136, 156, 257, 263, 297, 265, 148][k]
  }

  function Length(k: nat, n: nat): nat
    requires k < 12
  {
    if k == 0 then n + 1 else [0, 8, 8, 8, 12, 12, 1, 6, 2, 5, 5, 8][k]
  }

  lemma FieldPlace(name: seq<Byte>, t: Type, size: nat, time: nat, sum: nat, k: nat)
    requires k < 12
    ensures var f := AllFields(name, t, size, time, sum);
      |f| == 12 && f[k].at == Start(k) && |f[k].bytes| == Length(k, |name|)
  {
  }

  lemma PlacesApart(n: nat, k: nat, j: nat)
    requires k < 12 && j < 12 && k != j && n <= 99
    ensures Start(k) + Length(k, n) <= Start(j) || Start(j) + Length(j, n) <= Start(k)
  {
  }

  /** So each field is in the finished header. */
  lemma FieldIn(name: seq<Byte>, t: Type, size: nat, time: nat, sum: nat, k: nat)
    requires k < 12 && |name| <= 99
    ensures var f := AllFields(name, t, size, time, sum);
      |f| == 12 && InRange(f) && Agrees(Fill(Blank(), f), f[k])
  {
    var f := AllFields(name, t, size, time, sum);
    forall j | 0 <= j < 12 ensures |f| == 12 && f[j].at == Start(j) && |f[j].bytes| == Length(j, |name|) {
      FieldPlace(name, t, size, time, sum, j);
    }
    var later := f[k + 1..];
    forall j | 0 <= j < |later| ensures Clear(f[k], later[j].at, |later[j].bytes|) {
      PlacesApart(|name|, k, k + 1 + j);
    }
    FillAgrees(Blank(), f, k);
  }

  /** What no field covers is still blank. */
  lemma StillBlank(name: seq<Byte>, t: Type, size: nat, time: nat, sum: nat, i: nat)
    requires |name| <= 99 && (|name| < i < 100 || 156 < i < 257 || 269 < i < 297 || 301 < i < HEADER_SIZE)
    ensures var f := AllFields(name, t, size, time, sum);
      InRange(f) && Fill(Blank(), f)[i] == 0
  {
    var f, z := AllFields(name, t, size, time, sum), Field(i, [0]);
    forall j | 0 <= j < 12
      ensures |f| == 12 && f[j].at == Start(j) && |f[j].bytes| == Length(j, |name|)
      ensures Clear(z, f[j].at, |f[j].bytes|)
    {
      FieldPlace(name, t, size, time, sum, j);
    }
    assert Blank()[i..i + 1] == [0];
    FillKeeps(Blank(), f, z);
    assert Fill(Blank(), f)[i] == Fill(Blank(), f)[i..i + 1][0];
  }

  lemma {:induction false} CStringIs(s: seq<Byte>, name: seq<Byte>)
    requires |name| < |s| && s[..|name|] == name && s[|name|] == 0 && 0 !in name
    ensures CString(s) == name
  {
    if name != [] {
      assert s[0] == s[..|name|][0] == name[0];
      assert name[0] in name;
      assert s[1..][..|name| - 1] == s[..|name|][1..] == name[1..];
      CStringIs(s[1..], name[1..]);
      assert name == [name[0]] + name[1..];
    }
  }

  lemma SumBound(h: Header)
    ensures Sum(h, HEADER_SIZE) < Pow8(7)
  {
    Powers8();
  }

  /** Writing the checksum does not change it, and it reads back. */
  lemma MadeSum(name: seq<Byte>, t: Type, size: nat, time: nat, h0: Header, h: Header)
    requires |name| <= 99 && InRange(Fields(name, t, size, time)) && h0 == Fill(Blank(), Fields(name, t, size, time))
    requires var f := AllFields(name, t, size, time, Sum(h0, HEADER_SIZE)); InRange(f) && h == Fill(Blank(), f)
    ensures ParseFrom(h[148..156], 0, 0) == Some(Sum(h, HEADER_SIZE))
  {
    var sum := Sum(h0, HEADER_SIZE);
    var f := AllFields(name, t, size, time, sum);
    assert f[..11] == Fields(name, t, size, time);
    assert h == Put(h0, 148, Octal(sum, 7) + [0]);
    SumIgnores(h, h0, HEADER_SIZE);
    SumBound(h0);
    OctalRoundTrip(sum, 7);
    assert h[148..156] == Octal(sum, 7) + [0];
  }

  /** The name reads back. */
  lemma MadeName(name: seq<Byte>, t: Type, size: nat, time: nat, sum: nat)
    requires |name| <= 99 && 0 !in name
    ensures var f := AllFields(name, t, size, time, sum);
      && InRange(f)
      && var h := Fill(Blank(), f); CString(h[..100]) == name && h[99] == 0 && h[345] == 0
  {
    var f := AllFields(name, t, size, time, sum);
    FieldIn(name, t, size, time, sum, 0);
    var h := Fill(Blank(), f);
    var n := |name|;
    assert h[..n + 1] == h[0..0 + |f[0].bytes|] == name + [0];
    assert h[..n] == h[..n + 1][..n] == name;
    assert h[n] == h[..n + 1][n] == 0;
    assert h[..100][..n] == h[..n] && h[..100][n] == h[n];
    CStringIs(h[..100], name);
    StillBlank(name, t, size, time, sum, 345);
    if n < 99 {
      StillBlank(name, t, size, time, sum, 99);
    }
  }

  /** The other fields that are read. */
  lemma MadeFields(name: seq<Byte>, t: Type, size: nat, time: nat, sum: nat)
    requires |name| <= 99
    ensures var f := AllFields(name, t, size, time, sum);
      && InRange(f)
      && var h := Fill(Blank(), f);
         && h[124..136] == Octal(size, 11) + [0] && h[156] == TypeByte(t)
         && h[257..263] == MAGIC && h[263] == ZERO && h[264] == ZERO
  {
    var f := AllFields(name, t, size, time, sum);
    FieldIn(name, t, size, time, sum, 4);
    FieldIn(name, t, size, time, sum, 6);
    FieldIn(name, t, size, time, sum, 7);
    FieldIn(name, t, size, time, sum, 8);
    var h := Fill(Blank(), f);
    assert h[156] == h[156..157][0] && h[263] == h[263..265][0] && h[264] == h[263..265][1];
  }

  /** The bytes of a header that only other programs read: the permissions, "0000644"
      or "0000755"; the owner's numbers, all "0"; the time, "10355706000"; the
      owner's names, "root"; and zeros. */
  ghost predicate OtherBytes(h: Header, t: Type) {
    OtherNumbers(h, t) && OtherNames(h)
  }

  ghost predicate OtherNumbers(h: Header, t: Type) {
    && h[100..108] == [48, 48, 48, 48] + (if t.Regular? then [54, 52, 52, 0] else [55, 53, 53, 0])
    && h[108..116] == [48, 48, 48, 48, 48, 48, 48, 0] && h[116..124] == [48, 48, 48, 48, 48, 48, 48, 0]
    && h[136..148] == [49, 48, 51, 53, 53, 55, 48, 54, 48, 48, 48, 0]
  }

  ghost predicate OtherNames(h: Header) {
    && h[265..270] == [114, 111, 111, 116, 0] && h[297..302] == [114, 111, 111, 116, 0]
    && forall i | 156 < i < 257 || 269 < i < 297 || 301 < i < HEADER_SIZE :: h[i] == 0
  }

  lemma ModeDigits()
    ensures Octal(0x1A4, 7) == [48, 48, 48, 48, 54, 52, 52] && Octal(0x1ED, 7) == [48, 48, 48, 48, 55, 53, 53]
  {
    assert Octal(6, 5) == [48, 48, 48, 48, 54] && Octal(7, 5) == [48, 48, 48, 48, 55];
    assert Octal(0x34, 6) == Octal(6, 5) + [52] && Octal(0x3D, 6) == Octal(7, 5) + [53];
  }

  /** The digits of `v` come before the last one. */
  lemma OctalMore(v: nat, w: nat, s: seq<Byte>, d: nat)
    requires Octal(v, w) == s && d < 8
    ensures Octal(8 * v + d, w + 1) == s + [ZERO + d]
  {
  }

  lemma TimeDigits()
    ensures Octal(MTIME, 11) == [49, 48, 51, 53, 53, 55, 48, 54, 48, 48, 48]
  {
    assert Octal(0x43, 3) == [49, 48, 51];
    OctalMore(0x43, 3, [49, 48, 51], 5);
    OctalMore(0x21D, 4, [49, 48, 51, 53], 5);
    OctalMore(0x10ED, 5, [49, 48, 51, 53, 53], 7);
    OctalMore(0x876F, 6, [49, 48, 51, 53, 53, 55], 0);
    OctalMore(0x43B78, 7, [49, 48, 51, 53, 53, 55, 48], 6);
    OctalMore(0x21DBC6, 8, [49, 48, 51, 53, 53, 55, 48, 54], 0);
    OctalMore(0x10EDE30, 9, [49, 48, 51, 53, 53, 55, 48, 54, 48], 0);
    OctalMore(0x876F180, 10, [49, 48, 51, 53, 53, 55, 48, 54, 48, 48], 0);
  }

  lemma MadeMode(name: seq<Byte>, t: Type, size: nat, sum: nat)
    requires |name| <= 99
    ensures var f := AllFields(name, t, size, MTIME, sum);
      && InRange(f)
      && Fill(Blank(), f)[100..108] == [48, 48, 48, 48] + (if t.Regular? then [54, 52, 52, 0] else [55, 53, 53, 0])
  {
    ModeDigits();
    FieldIn(name, t, size, MTIME, sum, 1);
  }

  lemma MadeTime(name: seq<Byte>, t: Type, size: nat, sum: nat)
    requires |name| <= 99
    ensures var f := AllFields(name, t, size, MTIME, sum);
      InRange(f) && Fill(Blank(), f)[136..148] == [49, 48, 51, 53, 53, 55, 48, 54, 48, 48, 48, 0]
  {
    TimeDigits();
    FieldIn(name, t, size, MTIME, sum, 5);
  }

  lemma MadeNumbers(name: seq<Byte>, t: Type, size: nat, sum: nat)
    requires |name| <= 99
    ensures var f := AllFields(name, t, size, MTIME, sum); InRange(f) && OtherNumbers(Fill(Blank(), f), t)
  {
    MadeMode(name, t, size, sum);
    MadeTime(name, t, size, sum);
    FieldIn(name, t, size, MTIME, sum, 2);
    FieldIn(name, t, size, MTIME, sum, 3);
  }

  lemma MadeNames(name: seq<Byte>, t: Type, size: nat, sum: nat)
    requires |name| <= 99
    ensures var f := AllFields(name, t, size, MTIME, sum); InRange(f) && OtherNames(Fill(Blank(), f))
  {
    var f := AllFields(name, t, size, MTIME, sum);
    FieldIn(name, t, size, MTIME, sum, 9);
    FieldIn(name, t, size, MTIME, sum, 10);
    forall i | 156 < i < 257 || 269 < i < 297 || 301 < i < HEADER_SIZE ensures Fill(Blank(), f)[i] == 0 {
      StillBlank(name, t, size, MTIME, sum, i);
    }
  }

  /** A header reads back as what it was made for. */
  lemma RoundTrip(name: seq<Byte>, t: Type, size: nat, time: nat, h0: Header, h: Header)
    requires |name| <= 99 && 0 !in name && Strip(name) == name && size <= 0xFFFF_FFFF
    requires InRange(Fields(name, t, size, time)) && h0 == Fill(Blank(), Fields(name, t, size, time))
    requires var f := AllFields(name, t, size, time, Sum(h0, HEADER_SIZE)); InRange(f) && h == Fill(Blank(), f)
    ensures Parse(h) ==
      if t.Directory? then Entry(name, t, 0)
      else if size <= 0x7FFF_FFFF then Entry(name, t, size)
      else Error("file too large")
  {
    var sum := Sum(h0, HEADER_SIZE);
    MadeSum(name, t, size, time, h0, h);
    MadeName(name, t, size, time, sum);
    MadeFields(name, t, size, time, sum);
    assert h[257] == h[257..263][0] == 117;
    Powers8();
    OctalRoundTrip(size, 11);
  }

  /** `ustar_make_header`: a header exactly if the stripped name is short enough,
      and then one that parses to the stripped name, the type and the size. */
  method MakeHeader(name: seq<Byte>, t: Type, size: nat) returns (r: Option<Header>)
    requires 0 !in name && size <= 0xFFFF_FFFF
    ensures r.None? <==> |Strip(name)| > 99
    ensures r.Some? && t.Regular? && size <= 0x7FFF_FFFF ==> Parse(r.value) == Entry(Strip(name), t, size)
    ensures r.Some? && t.Directory? ==> Parse(r.value) == Entry(Strip(name), t, 0)
    ensures r.Some? && t.Regular? && size > 0x7FFF_FFFF ==> Parse(r.value).Error?
    ensures r.Some? ==> OtherBytes(r.value, t)
  {
    var s := StripPrefixes(name);
    if |s| > 99 {
      return None;
    }
    StripIsSafe(name);
    if 0 in s {
      StripPart(name, 0);
    }
    var h0, h;
    ghost var puts;
    h0, puts := FillIn(s, t, size, MTIME);
    var sum := Checksum(h0);
    SumBound(h0);
    var digits := OctalField(sum, 7);
    h, puts := Write(h0, 148, digits, Blank(), puts);
    RoundTrip(s, t, size, MTIME, h0, h);
    MadeNumbers(s, t, size, sum);
    MadeNames(s, t, size, sum);
    r := Some(h);
  }

  /** `is_all_zeros`. */
  method IsAllZeros(s: seq<Byte>) returns (r: bool)
    ensures r == AllZeros(s)
  {
    var i := 0;
    while i < |s|
      invariant i <= |s| && AllZeros(s[..i])
    {
      if s[i] != 0 {
        return false;
      }
      i := i + 1;
    }
    assert s[..i] == s;
    r := true;
  }

  /** `ustar_parse_header`. */
  method ParseHeader(h: Header) returns (r: Result)
    ensures forall name, kind, size: nat :: r == Entry(name, kind, size) <==> Describes(h, name, kind, size)
    ensures r == End <==> AllZeros(h)
    ensures r == Parse(h)
  {
    AcceptsExactly(h);
    var blank := IsAllZeros(h);
    if blank {
      return End;
    } else if h[257..263] != MAGIC {
      return Error("not a ustar archive");
    } else if h[263] != ZERO || h[264] != ZERO {
      return Error("invalid ustar version");
    }
    var sum := ParseOctal(h[148..156]);
    if sum.None? {
      return Error("corrupt chksum field");
    }
    var actual := Checksum(h);
    if sum.value != actual {
      return Error("checksum mismatch");
    } else if h[99] != 0 || h[345] != 0 {
      return Error("file name too long");
    } else if h[156] != TypeByte(Regular) && h[156] != TypeByte(Directory) {
      return Error("unimplemented file type");
    }
    var name := StripPrefixes(CString(h[..100]));
    if h[156] == TypeByte(Directory) {
      return Entry(name, Directory, 0);
    }
    var size := ParseOctal(h[124..136]);
    if size.None? {
      return Error("corrupt file size field");
    } else if size.value > 0x7FFF_FFFF {
      return Error("file too large");
    }
    r := Entry(name, Regular, size.value);
  }
}

// Decimal strings of any length: the arithmetic that the configuration does on
// text because shell integers would wrap.

module Decimal {
  import opened Utf8

  /** The bytes of an ASCII literal. */
  function B(s: string): Bytes {
    seq(|s|, i requires 0 <= i < |s| => if s[i] < 128 as char then s[i] as int else 63)
  }

  predicate Digits(s: Bytes) {
    forall i | 0 <= i < |s| :: 48 <= s[i] <= 57
  }

  /** A decimal without superfluous zeros. */
  predicate Canonical(s: Bytes) {
    s != [] && Digits(s) && (|s| > 1 ==> s[0] != 48)
  }

  function Value(s: Bytes): nat
    requires Digits(s)
  {
    if s == [] then 0 else Value(s[..|s| - 1]) * 10 + (s[|s| - 1] - 48)
  }

  function Show(n: nat): (s: Bytes)
    ensures Canonical(s) && (n > 0 ==> s[0] != 48)
  {
    if n < 10 then [48 + n] else Show(n / 10) + [48 + n % 10]
  }

  lemma {:induction false} ValueShow(n: nat)
    ensures Value(Show(n)) == n
  {
    if n >= 10 {
      ValueShow(n / 10);
      assert Show(n)[..|Show(n)| - 1] == Show(n / 10);
    }
  }

  lemma {:induction false} ShowValue(s: Bytes)
    requires Canonical(s)
    ensures Show(Value(s)) == s
  {
    var p := s[..|s| - 1];
    if p == [] {
      assert s == [s[0]] && Value(p) == 0;
    } else {
      assert p[0] == s[0];
      ShowValue(p);
      PositiveValue(p);
      assert s == p + [s[|s| - 1]];
    }
  }

  lemma {:induction false} PositiveValue(s: Bytes)
    requires Digits(s) && s != [] && s[0] != 48
    ensures Value(s) > 0
  {
    if |s| > 1 { PositiveValue(s[..|s| - 1]); }
  }

  lemma {:induction false} ShowLength(m: nat, n: nat)
    requires m <= n
    ensures |Show(m)| <= |Show(n)|
    decreases n
  {
    if n >= 10 && m >= 10 {
      ShowLength(m / 10, n / 10);
    }
  }

  // ------------------------------------------------------------------------
  // Comparison

  /** String order in the C locale. */
  predicate After(l: Bytes, r: Bytes) {
    l != [] && (r == [] || l[0] > r[0] || (l[0] == r[0] && After(l[1..], r[1..])))
  }

  predicate DecimalGt(l: Bytes, r: Bytes) {
    |l| > |r| || (|l| == |r| && After(l, r))
  }

  lemma {:induction false} AfterSnoc(l: Bytes, r: Bytes, x: Byte, y: Byte)
    requires |l| == |r|
    ensures After(l + [x], r + [y]) <==> After(l, r) || (l == r && x > y)
  {
    if l != [] {
      assert (l + [x])[1..] == l[1..] + [x] && (r + [y])[1..] == r[1..] + [y];
      AfterSnoc(l[1..], r[1..], x, y);
      assert l[0] == r[0] && l[1..] == r[1..] ==> l == r by {
        assert l == [l[0]] + l[1..] && r == [r[0]] + r[1..];
      }
    }
  }

  lemma {:induction false} SameLengthOrder(l: Bytes, r: Bytes)
    requires Digits(l) && Digits(r) && |l| == |r|
    ensures After(l, r) <==> Value(l) > Value(r)
    ensures l == r <==> Value(l) == Value(r)
  {
    if l != [] {
      hide Value, After, Digits;
      var n := |l| - 1;
      var (lf, rf, x, y) := (l[..n], r[..n], l[n], r[n]);
      ValueLast(l);
      ValueLast(r);
      SameLengthOrder(lf, rf);
      assert l == lf + [x] && r == rf + [y];
      AfterSnoc(lf, rf, x, y);
      DigitOrder(Value(lf), x - 48, Value(rf), y - 48);
    }
  }

  lemma ValueLast(s: Bytes)
    requires Digits(s) && s != []
    ensures var n := |s| - 1;
      Digits(s[..n]) && 48 <= s[n] <= 57 && Value(s) == Value(s[..n]) * 10 + (s[n] - 48)
  {
  }

  /** The last digit only decides between equal numbers in front of it. */
  lemma DigitOrder(p: nat, x: nat, q: nat, y: nat)
    requires x < 10 && y < 10
    ensures p * 10 + x > q * 10 + y <==> p > q || (p == q && x > y)
    ensures p * 10 + x == q * 10 + y <==> p == q && x == y
  {
  }

  /** Comparing canonical decimals as text compares the numbers, at any length. */
  lemma DecimalGtIsNumeric(l: Bytes, r: Bytes)
    requires Canonical(l) && Canonical(r)
    ensures DecimalGt(l, r) <==> Value(l) > Value(r)
  {
    if |l| == |r| {
      SameLengthOrder(l, r);
    } else {
      ShowValue(l);
      ShowValue(r);
      if Value(l) <= Value(r) { ShowLength(Value(l), Value(r)); }
      if Value(r) <= Value(l) { ShowLength(Value(r), Value(l)); }
    }
  }

  // ------------------------------------------------------------------------
  // The clamp

  const INT64_MAX: nat := 0x7FFF_FFFF_FFFF_FFFF

  /** Leading zeros removed, "0" for zero. */
  method Canonicalize(s: Bytes) returns (r: Bytes)
    requires Digits(s)
    ensures Canonical(r) && Value(r) == Value(s)
  {
    var i := 0;
    while i < |s| && s[i] == 48
      invariant i <= |s| && forall j | 0 <= j < i :: s[j] == 48
    {
      i := i + 1;
    }
    r := s[i..];
    DropZeros(s, i);
    if r == [] {
      r := [48];
    }
  }

  lemma {:induction false} DropZeros(s: Bytes, i: nat)
    requires Digits(s) && i <= |s| && forall j | 0 <= j < i :: s[j] == 48
    ensures Value(s[i..]) == Value(s)
  {
    if i < |s| {
      var n := |s| - 1;
      DropZeros(s[..n], i);
      assert s[..n][i..] == s[i..][..|s[i..]| - 1];
    } else if s != [] {
      DropZeros(s[..|s| - 1], i - 1);
      assert s[..|s| - 1][i - 1..] == [] && s[i..] == [];
    }
  }

  predicate Accepted(value: Bytes, allowZero: bool) {
    value != [] && Digits(value) && (allowZero || value[0] != 48)
  }

  /** What the clamp promises of a setting `value`; `max` zero stands for no bound. */
  ghost predicate Clamped(value: Bytes, default: Bytes, max: Bytes, allowZero: bool, r: Bytes)
    requires Digits(max)
  {
    if !Accepted(value, allowZero) then r == default
    else
      var (v, m) := (Value(value), Value(max));
      if m != 0 then r == Show(if v > m then m else v)
      else if v > INT64_MAX then r == default
      else r == Show(v)
  }

  method ClampInt(setting: Bytes, default: Bytes, max: Bytes, allowZero: bool) returns (value: Bytes)
    requires Digits(max)
    ensures Clamped(setting, default, max, allowZero, value)
  {
    value := setting;
    if !Accepted(value, allowZero) {
      value := default;
    } else {
      if allowZero {
        value := Canonicalize(value);
      }
      var maxNorm := Canonicalize(max);
      var limit := Show(INT64_MAX);
      ShowValue(value);
      ShowValue(maxNorm);
      ValueShow(INT64_MAX);
      if maxNorm != [48] {
        PositiveValue(maxNorm);
        DecimalGtIsNumeric(value, maxNorm);
        if DecimalGt(value, maxNorm) { value := maxNorm; }
      } else {
        assert Value(maxNorm[..0]) == 0;
        DecimalGtIsNumeric(value, limit);
        if DecimalGt(value, limit) { value := default; }
      }
    }
  }

  /** A clamped setting fits a signed 64-bit integer when the default and the bound do. */
  lemma ClampFits(value: Bytes, default: Bytes, max: Bytes, allowZero: bool, r: Bytes)
    requires Digits(max) && Clamped(value, default, max, allowZero, r)
    requires Digits(default) && Value(default) <= INT64_MAX && Value(max) <= INT64_MAX
    ensures Digits(r) && Value(r) <= INT64_MAX
  {
    if Accepted(value, allowZero) {
      ValueShow(if Value(value) > Value(max) then Value(max) else Value(value));
      ValueShow(Value(value));
    }
  }

  // ------------------------------------------------------------------------
  // The timeout test

  predicate TimeoutValid(s: Bytes) {
    && s != [] && Digits(s) && s[0] != 48
    && (|s| < 10 || (|s| == 10 && After(Show(2147483648), s)))
  }

  /** The test accepts exactly the decimals of 1 to 2147483647. */
  lemma TimeoutExactly(s: Bytes)
    ensures TimeoutValid(s) <==> exists n: nat :: 1 <= n <= 2147483647 && s == Show(n)
  {
    var big := Show(2147483648);
    ValueShow(2147483648);
    BillionLengths();
    if s != [] && Digits(s) && s[0] != 48 {
      ShowValue(s);
      PositiveValue(s);
      DecimalGtIsNumeric(big, s);
      if |s| > 10 { DecimalGtIsNumeric(s, big); }
      if TimeoutValid(s) {
        assert 1 <= Value(s) <= 2147483647 && s == Show(Value(s));
      }
    }
    if n: nat :| 1 <= n <= 2147483647 && s == Show(n) {
      ValueShow(n);
    }
  }

  lemma BillionLengths()
    ensures |Show(2147483648)| == 10
  {
    assert |Show(21474)| == 5;
    assert |Show(214748364)| == 9 by {
      assert |Show(2147483)| == 7 by { assert |Show(214748)| == 6; }
    }
  }
}

/** UTC timestamps as the ledger hashes them: full seconds and a fraction without trailing
    zeros, the date-time form of section 5.6 of RFC 3339. The form determines the time. */
module Timestamps {
  import opened Hashing

  datatype Time = Time(year: nat, month: nat, day: nat, hour: nat, minute: nat, second: nat, nanos: nat)

  /** Every field fits its width; years have four digits. */
  predicate Valid(t: Time) {
    && t.year < 10000 && t.month < 100 && t.day < 100 && t.hour < 100 && t.minute < 100 && t.second < 100
    && t.nanos < 1_000_000_000
  }

  /** Truncation to microseconds, the resolution of the stored column. */
  function Normalize(t: Time): Time { t.(nanos := t.nanos - t.nanos % 1000) }

  /** Truncation keeps everything down to the second and drops less than a microsecond. */
  lemma NormalizeTruncates(t: Time)
    ensures Normalize(t).(nanos := t.nanos) == t
    ensures Normalize(t).nanos % 1000 == 0 && 0 <= t.nanos - Normalize(t).nanos < 1000
  {
    NormalizeIdempotent(t);
    var q := t.nanos / 1000;
    assert t.nanos - t.nanos % 1000 == 1000 * q && (1000 * q) % 1000 == 0;
  }

  lemma NormalizeIdempotent(t: Time)
    ensures Normalize(Normalize(t)) == Normalize(t)
  {
    var q := t.nanos / 1000;
    assert t.nanos - t.nanos % 1000 == 1000 * q && (1000 * q) % 1000 == 0;
  }

  function Pow10(w: nat): (p: nat)
    ensures p >= 1
  {
    if w == 0 then 1 else 10 * Pow10(w - 1)
  }

  function Digits(n: nat, w: nat): (ds: Bytes)
    ensures |ds| == w
    ensures forall i :: 0 <= i < w ==> 48 <= ds[i] <= 57
  {
    if w == 0 then [] else Digits(n / 10, w - 1) + [(48 + n % 10) as Byte]
  }

  lemma {:induction false} DigitsInjective(m: nat, n: nat, w: nat)
    requires m < Pow10(w) && n < Pow10(w) && Digits(m, w) == Digits(n, w)
    ensures m == n
  {
    if w > 0 {
      var a, b := Digits(m, w), Digits(n, w);
      assert a[..w - 1] == Digits(m / 10, w - 1) && b[..w - 1] == Digits(n / 10, w - 1);
      assert a[w - 1] == b[w - 1];
      DigitsInjective(m / 10, n / 10, w - 1);
    }
  }

  function Trim(ds: Bytes): (t: Bytes)
    ensures |t| <= |ds| && t == ds[..|t|]
  {
    if ds != [] && ds[|ds| - 1] == 48 then Trim(ds[..|ds| - 1]) else ds
  }

  lemma {:induction false} TrimInjective(a: Bytes, b: Bytes)
    requires |a| == |b| && Trim(a) == Trim(b)
    ensures a == b
  {
    if a != [] && a[|a| - 1] == 48 && b[|b| - 1] == 48 {
      var n := |a| - 1;
      TrimInjective(a[..n], b[..n]);
      assert a == a[..n] + [48] && b == b[..n] + [48];
    }
  }

  function Seconds(t: Time): Bytes {
    Digits(t.year, 4) + [45] + Digits(t.month, 2) + [45] + Digits(t.day, 2) + [84] +
    Digits(t.hour, 2) + [58] + Digits(t.minute, 2) + [58] + Digits(t.second, 2)
  }

  function Fraction(nanos: nat): Bytes { if nanos == 0 then [] else [46] + Trim(Digits(nanos, 9)) }

  function Format(t: Time): Bytes { Seconds(t) + Fraction(t.nanos) + [90] }

  lemma SecondsParts(t: Time)
    ensures var s := Seconds(t);
            && |s| == 19 && s[..4] == Digits(t.year, 4) && s[5..7] == Digits(t.month, 2) && s[8..10] == Digits(t.day, 2)
            && s[11..13] == Digits(t.hour, 2) && s[14..16] == Digits(t.minute, 2) && s[17..19] == Digits(t.second, 2)
  {}

  lemma SecondsInjective(a: Time, b: Time)
    requires Valid(a) && Valid(b) && Seconds(a) == Seconds(b)
    ensures a.(nanos := 0) == b.(nanos := 0)
  {
    SecondsParts(a);
    SecondsParts(b);
    assert Pow10(2) == 100 && Pow10(4) == 10000;
    DigitsInjective(a.year, b.year, 4);
    DigitsInjective(a.month, b.month, 2);
    DigitsInjective(a.day, b.day, 2);
    DigitsInjective(a.hour, b.hour, 2);
    DigitsInjective(a.minute, b.minute, 2);
    DigitsInjective(a.second, b.second, 2);
  }

  lemma FractionInjective(m: nat, n: nat)
    requires m < 1_000_000_000 && n < 1_000_000_000 && Fraction(m) == Fraction(n)
    ensures m == n
  {
    if m != 0 && n != 0 {
      assert Trim(Digits(m, 9)) == Fraction(m)[1..] && Trim(Digits(n, 9)) == Fraction(n)[1..];
      TrimInjective(Digits(m, 9), Digits(n, 9));
      assert Pow10(9) == 10 * Pow10(8) == 100 * Pow10(7) == 1000 * Pow10(6) == 10000 * Pow10(5) == 100000 * Pow10(4);
      DigitsInjective(m, n, 9);
    }
  }

  lemma FormatParts(t: Time)
    ensures |Seconds(t)| == 19 && |Format(t)| == 20 + |Fraction(t.nanos)|
    ensures Format(t)[..19] == Seconds(t) && Format(t)[19..|Format(t)| - 1] == Fraction(t.nanos)
  {
    SecondsParts(t);
  }

  /** The text determines the time. */
  lemma FormatInjective(a: Time, b: Time)
    requires Valid(a) && Valid(b) && Format(a) == Format(b)
    ensures a == b
  {
    FormatParts(a);
    FormatParts(b);
    SecondsInjective(a, b);
    FractionInjective(a.nanos, b.nanos);
  }

  ghost predicate NoCloseBrace(b: Bytes) { forall i :: 0 <= i < |b| ==> b[i] != 125 }

  lemma NoCloseBraceJoin(a: Bytes, sep: Byte, b: Bytes)
    requires NoCloseBrace(a) && sep != 125 && NoCloseBrace(b)
    ensures NoCloseBrace(a + [sep] + b)
  {}

  lemma NoCloseBraceDigits(n: nat, w: nat)
    ensures NoCloseBrace(Digits(n, w))
  {}

  lemma SecondsHaveNoCloseBrace(t: Time)
    ensures NoCloseBrace(Seconds(t))
  {
    NoCloseBraceDigits(t.year, 4);
    NoCloseBraceDigits(t.month, 2);
    NoCloseBraceDigits(t.day, 2);
    NoCloseBraceDigits(t.hour, 2);
    NoCloseBraceDigits(t.minute, 2);
    NoCloseBraceDigits(t.second, 2);
    var s1 := Digits(t.year, 4) + [45] + Digits(t.month, 2);
    NoCloseBraceJoin(Digits(t.year, 4), 45, Digits(t.month, 2));
    var s2 := s1 + [45] + Digits(t.day, 2);
    NoCloseBraceJoin(s1, 45, Digits(t.day, 2));
    var s3 := s2 + [84] + Digits(t.hour, 2);
    NoCloseBraceJoin(s2, 84, Digits(t.hour, 2));
    var s4 := s3 + [58] + Digits(t.minute, 2);
    NoCloseBraceJoin(s3, 58, Digits(t.minute, 2));
    NoCloseBraceJoin(s4, 58, Digits(t.second, 2));
  }

  lemma FormatHasNoCloseBrace(t: Time)
    ensures forall i :: 0 <= i < |Format(t)| ==> Format(t)[i] != 125
  {
    SecondsHaveNoCloseBrace(t);
    NoCloseBraceDigits(t.nanos, 9);
    assert NoCloseBrace(Fraction(t.nanos));
  }

  // ----- reading the text back

  /** The number a sequence of decimal digits stands for, most significant digit first. */
  ghost function Number(b: Bytes): int {
    if b == [] then 0 else 10 * Number(b[..|b| - 1]) + (b[|b| - 1] as int - 48)
  }

  lemma NumberSnoc(b: Bytes, d: Byte)
    ensures Number(b + [d]) == 10 * Number(b) + (d as int - 48)
  {
    assert (b + [d])[..|b|] == b;
  }

  lemma TenthOf(n: nat, p: nat)
    requires n < 10 * p
    ensures n / 10 < p && 10 * (n / 10) + n % 10 == n
  {}

  lemma {:induction false} DigitsRead(n: nat, w: nat)
    requires n < Pow10(w)
    ensures Number(Digits(n, w)) == n
  {
    if w > 0 {
      TenthOf(n, Pow10(w - 1));
      DigitsRead(n / 10, w - 1);
      NumberSnoc(Digits(n / 10, w - 1), (48 + n % 10) as Byte);
    }
  }

  ghost function ZeroDigits(n: nat): (z: Bytes)
    ensures |z| == n
  {
    if n == 0 then [] else ZeroDigits(n - 1) + [48]
  }

  lemma SnocZero(x: Bytes, k: nat)
    ensures x + ZeroDigits(k + 1) == (x + ZeroDigits(k)) + [48]
  {}

  lemma TrimOnce(ds: Bytes, n: nat)
    requires |ds| == n + 1 && ds[n] == 48
    ensures Trim(ds) == Trim(ds[..n])
  {
    assert ds != [] && |ds| - 1 == n;
  }

  lemma LastZero(ds: Bytes, n: nat)
    requires |ds| == n + 1 && ds[n] == 48
    ensures ds == ds[..n] + [48]
  {}

  /** Trimming removes zero digits at the end and leaves none. */
  lemma {:induction false} TrimRead(ds: Bytes)
    ensures Trim(ds) + ZeroDigits(|ds| - |Trim(ds)|) == ds
    ensures Trim(ds) == [] || Trim(ds)[|Trim(ds)| - 1] != 48
    decreases |ds|
  {
    if ds != [] && ds[|ds| - 1] == 48 {
      var n := |ds| - 1;
      LastZero(ds, n);
      TrimOnce(ds, n);
      TrimRead(ds[..n]);
      SnocZero(Trim(ds), n - |Trim(ds)|);
    }
  }

  /** The separators of the date and the time of day. */
  lemma Separators(t: Time)
    ensures var s := Seconds(t); |s| == 19 && s[4] == 45 && s[7] == 45 && s[10] == 84 && s[13] == 58 && s[16] == 58
  {}

  lemma SecondsRead(t: Time)
    requires Valid(t)
    ensures var s := Seconds(t);
            && |s| == 19 && Number(s[..4]) == t.year && Number(s[5..7]) == t.month && Number(s[8..10]) == t.day
            && Number(s[11..13]) == t.hour && Number(s[14..16]) == t.minute && Number(s[17..19]) == t.second
  {
    SecondsParts(t);
    assert Pow10(2) == 100 && Pow10(4) == 10000;
    DigitsRead(t.year, 4);
    DigitsRead(t.month, 2);
    DigitsRead(t.day, 2);
    DigitsRead(t.hour, 2);
    DigitsRead(t.minute, 2);
    DigitsRead(t.second, 2);
  }

  lemma NineDigits(nanos: nat)
    requires nanos < 1_000_000_000
    ensures Number(Digits(nanos, 9)) == nanos
  {
    assert Pow10(9) == 10 * Pow10(8) == 100 * Pow10(7) == 1000 * Pow10(6) == 10000 * Pow10(5) == 100000 * Pow10(4);
    DigitsRead(nanos, 9);
  }

  lemma TrimmedRead(ds: Bytes)
    requires |ds| == 9 && Number(ds) > 0
    ensures var t := Trim(ds); 1 <= |t| <= 9 && t[|t| - 1] != 48 && Number(t + ZeroDigits(9 - |t|)) == Number(ds)
  {
    TrimRead(ds);
    if Trim(ds) == [] { AllZeros(ds); }
  }

  lemma AllZeros(ds: Bytes)
    requires Trim(ds) == []
    ensures Number(ds) == 0
  {
    TrimRead(ds);
    ZerosRead(|ds|);
    assert [] + ZeroDigits(|ds|) == ZeroDigits(|ds|);
  }

  /** A fraction of nine digits without the zeros at its end. */
  lemma FractionRead(nanos: nat)
    requires 0 < nanos < 1_000_000_000
    ensures var f := Fraction(nanos);
            && 2 <= |f| <= 10 && f[0] == 46 && f[|f| - 1] != 48
            && Number(f[1..] + ZeroDigits(10 - |f|)) == nanos
  {
    NineDigits(nanos);
    TrimmedRead(Digits(nanos, 9));
    assert Fraction(nanos)[1..] == Trim(Digits(nanos, 9));
  }

  lemma {:induction false} ZerosRead(n: nat)
    ensures Number(ZeroDigits(n)) == 0
  {
    if n > 0 {
      assert ZeroDigits(n)[..n - 1] == ZeroDigits(n - 1);
      ZerosRead(n - 1);
    }
  }

  /** The text is the date-time form: date and time of day with their separators, a fraction
      exactly when there are nanoseconds, and Z; each field reads back as its number. */
  lemma FormatReads(t: Time)
    requires Valid(t)
    ensures var f := Format(t); var n := |f| - 1;
            && 19 <= n && f[n] == 90 && f[4] == 45 && f[7] == 45 && f[10] == 84 && f[13] == 58 && f[16] == 58
            && Number(f[..4]) == t.year && Number(f[5..7]) == t.month && Number(f[8..10]) == t.day
            && Number(f[11..13]) == t.hour && Number(f[14..16]) == t.minute && Number(f[17..19]) == t.second
            && (t.nanos == 0 <==> n == 19)
            && (t.nanos > 0 ==> 21 <= n <= 29 && f[19] == 46 && f[n - 1] != 48
                                && Number(f[20..n] + ZeroDigits(29 - n)) == t.nanos)
  {
    var f, s := Format(t), Seconds(t);
    FormatParts(t);
    Separators(t);
    SecondsRead(t);
    assert forall i :: 0 <= i < 19 ==> f[i] == s[i];
    assert f[..4] == s[..4] && f[5..7] == s[5..7] && f[8..10] == s[8..10];
    assert f[11..13] == s[11..13] && f[14..16] == s[14..16] && f[17..19] == s[17..19];
    if t.nanos > 0 {
      FractionRead(t.nanos);
      var fr := Fraction(t.nanos);
      assert f[20..|f| - 1] == fr[1..] && f[19] == fr[0] && f[|f| - 2] == fr[|fr| - 1];
    }
  }
}

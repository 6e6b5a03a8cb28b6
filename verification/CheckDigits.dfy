/**
  The check-digit algebra of the Aadhaar and payment-card detectors: the Verhoeff code over
  the dihedral group of the pentagon and the Luhn code of Annex B of ISO/IEC 7812-1, for
  digit strings of every length.
 */
module CheckDigits {
  const VERHOEFF_D: seq<seq<int>> := [
    [0, 1, 2, 3, 4, 5, 6, 7, 8, 9],
    [1, 2, 3, 4, 0, 6, 7, 8, 9, 5],
    [2, 3, 4, 0, 1, 7, 8, 9, 5, 6],
    [3, 4, 0, 1, 2, 8, 9, 5, 6, 7],
    [4, 0, 1, 2, 3, 9, 5, 6, 7, 8],
    [5, 9, 8, 7, 6, 0, 4, 3, 2, 1],
    [6, 5, 9, 8, 7, 1, 0, 4, 3, 2],
    [7, 6, 5, 9, 8, 2, 1, 0, 4, 3],
    [8, 7, 6, 5, 9, 3, 2, 1, 0, 4],
    [9, 8, 7, 6, 5, 4, 3, 2, 1, 0]]

  const VERHOEFF_P: seq<seq<int>> := [
    [0, 1, 2, 3, 4, 5, 6, 7, 8, 9],
    [1, 5, 7, 6, 2, 8, 3, 0, 9, 4],
    [5, 8, 0, 3, 7, 9, 6, 1, 4, 2],
    [8, 9, 1, 6, 0, 4, 3, 5, 2, 7],
    [9, 4, 5, 3, 1, 2, 6, 8, 7, 0],
    [4, 2, 8, 6, 5, 7, 3, 9, 0, 1],
    [2, 7, 9, 3, 8, 0, 6, 4, 1, 5],
    [7, 0, 4, 6, 9, 1, 3, 2, 5, 8]]

  const VERHOEFF_INV: seq<int> := [0, 4, 3, 2, 1, 5, 6, 7, 8, 9]

  type Digit = d: int | 0 <= d < 10

  // ----- the tables as a group and a permutation of it

  function Wrap(x: int): (r: int)
    requires -5 < x < 10
    ensures 0 <= r < 5
  {
    if x >= 5 then x - 5 else if x < 0 then x + 5 else x
  }

  /** The symmetries of the pentagon: rotations are 0..4, reflections 5..9. */
  function Dihedral(a: Digit, b: Digit): Digit {
    if a < 5 then (if b < 5 then Wrap(a + b) else 5 + Wrap(a + b - 5))
    else (if b < 5 then 5 + Wrap(a - 5 - b) else Wrap(a - b))
  }

  lemma TableRotations(a: Digit, b: Digit)
    requires a < 5
    ensures VERHOEFF_D[a][b] == Dihedral(a, b)
  {}

  lemma TableReflections(a: Digit, b: Digit)
    requires a >= 5
    ensures VERHOEFF_D[a][b] == Dihedral(a, b)
  {}

  /** The D table is the multiplication table of the pentagon's symmetries. */
  lemma TableD(a: Digit, b: Digit)
    ensures |VERHOEFF_D| == 10 && |VERHOEFF_D[a]| == 10 && VERHOEFF_D[a][b] == Dihedral(a, b)
  {
    if a < 5 { TableRotations(a, b); } else { TableReflections(a, b); }
  }

  lemma AssociativeRotation(a: Digit, b: Digit, c: Digit)
    requires a < 5
    ensures Dihedral(Dihedral(a, b), c) == Dihedral(a, Dihedral(b, c))
  {}

  lemma AssociativeReflection(a: Digit, b: Digit, c: Digit)
    requires a >= 5
    ensures Dihedral(Dihedral(a, b), c) == Dihedral(a, Dihedral(b, c))
  {}

  lemma Associative(a: Digit, b: Digit, c: Digit)
    ensures Dihedral(Dihedral(a, b), c) == Dihedral(a, Dihedral(b, c))
  {
    if a < 5 { AssociativeRotation(a, b, c); } else { AssociativeReflection(a, b, c); }
  }

  lemma Cancel(a: Digit, b: Digit, c: Digit)
    ensures Dihedral(c, a) == Dihedral(c, b) ==> a == b
    ensures Dihedral(a, c) == Dihedral(b, c) ==> a == b
  {}

  lemma TableInv(a: Digit, d: Digit)
    ensures |VERHOEFF_INV| == 10 && 0 <= VERHOEFF_INV[a] < 10 && (Dihedral(d, a) == 0 <==> d == VERHOEFF_INV[a])
  {}

  function Row(r: nat, d: Digit): Digit
    requires r < 8
  {
    VERHOEFF_P[r][d]
  }

  /** The rows are the powers of one permutation of order 8. */
  lemma RowInverse(r: nat, d: Digit)
    requires r < 8
    ensures Row(if r == 0 then 0 else 8 - r, Row(r, d)) == d
  {}

  lemma RowInjective(r: nat, a: Digit, b: Digit)
    requires r < 8
    ensures Row(r, a) == Row(r, b) ==> a == b
  {
    RowInverse(r, a);
    RowInverse(r, b);
  }

  /** Each row is the row above permuted once more, and the first follows the last. */
  lemma NextRow(r: nat, d: Digit)
    requires r < 8
    ensures Row(if r == 7 then 0 else r + 1, d) == Row(1, Row(r, d))
  {}

  lemma AntiSymmetricOnce(a: Digit, b: Digit)
    ensures Dihedral(a, Row(1, b)) == Dihedral(b, Row(1, a)) ==> a == b
  {}

  function Perm(j: nat, d: Digit): Digit { Row(j % 8, d) }

  /** Swapping different digits under consecutive rows changes the product, also at the wrap. */
  lemma AntiSymmetric(j: nat, a: Digit, b: Digit)
    ensures Dihedral(Perm(j, a), Perm(j + 1, b)) == Dihedral(Perm(j, b), Perm(j + 1, a)) ==> a == b
  {
    assert (j + 1) % 8 == if j % 8 == 7 then 0 else j % 8 + 1;
    NextRow(j % 8, a);
    NextRow(j % 8, b);
    AntiSymmetricOnce(Perm(j, a), Perm(j, b));
    RowInjective(j % 8, a, b);
  }

  /** Digit b at place j and digit a before it. */
  function TwoDigits(j: nat, a: Digit, b: Digit, rest: Digit): Digit {
    Dihedral(Perm(j, b), Dihedral(Perm(j + 1, a), rest))
  }

  lemma SwapChanges(j: nat, a: Digit, b: Digit, rest: Digit)
    ensures TwoDigits(j, a, b, rest) == TwoDigits(j, b, a, rest) ==> a == b
  {
    Associative(Perm(j, b), Perm(j + 1, a), rest);
    Associative(Perm(j, a), Perm(j + 1, b), rest);
    Cancel(Dihedral(Perm(j, b), Perm(j + 1, a)), Dihedral(Perm(j, a), Perm(j + 1, b)), rest);
    AntiSymmetric(j, a, b);
  }

  // ----- digit strings

  predicate IsDigit(ch: char) { '0' <= ch <= '9' }

  ghost predicate AllDigits(s: string) { forall i :: 0 <= i < |s| ==> IsDigit(s[i]) }

  function Value(ch: char): Digit
    requires IsDigit(ch)
  {
    ch as int - '0' as int
  }

  /** The kept digits in order, as a specification of the filter loop. */
  ghost function OnlyDigits(s: string): string {
    if s == "" then "" else OnlyDigits(s[..|s| - 1]) + (if IsDigit(s[|s| - 1]) then [s[|s| - 1]] else "")
  }

  /** The filter keeps the characters 0 to 9 and works piece by piece. */
  lemma {:induction false} OnlyDigitsMeans(a: string, b: string, c: char)
    ensures OnlyDigits("") == "" && OnlyDigits([c]) == (if '0' <= c <= '9' then [c] else "")
    ensures OnlyDigits(a + b) == OnlyDigits(a) + OnlyDigits(b)
  {
    assert [c][..0] == "";
    if b == "" {
      assert a + b == a;
    } else {
      var n := |b| - 1;
      OnlyDigitsMeans(a, b[..n], c);
      assert (a + b)[..|a + b| - 1] == a + b[..n];
    }
  }

  method DigitsOnly(s: string) returns (out: string)
    ensures out == OnlyDigits(s) && AllDigits(out)
  {
    out := "";
    for i := 0 to |s|
      invariant out == OnlyDigits(s[..i]) && AllDigits(out)
    {
      assert s[..i + 1][..i] == s[..i];
      if IsDigit(s[i]) { out := out + [s[i]]; }
    }
    assert s[..|s|] == s;
  }

  ghost function Swap(s: string, i: nat): string
    requires i + 1 < |s|
  {
    s[i := s[i + 1]][i + 1 := s[i]]
  }

  // ----- Verhoeff

  /** The product in the dihedral group of the permuted digits, last digit first. The last
      digit is permuted by row `j`, the one before by row `j + 1`, and so on. */
  ghost function Product(s: string, j: nat): Digit
    requires AllDigits(s)
  {
    if s == "" then 0
    else Dihedral(Perm(j, Value(s[|s| - 1])), Product(s[..|s| - 1], j + 1))
  }

  lemma TableStep(c: Digit, j: nat, ch: char)
    requires IsDigit(ch)
    ensures |VERHOEFF_P| == 8 && |VERHOEFF_P[j % 8]| == 10 && 0 <= VERHOEFF_P[j % 8][Value(ch)] < 10
    ensures |VERHOEFF_D| == 10 && |VERHOEFF_D[c]| == 10
    ensures VERHOEFF_D[c][VERHOEFF_P[j % 8][Value(ch)]] == Dihedral(c, Perm(j, Value(ch)))
  {
    TableD(c, Perm(j, Value(ch)));
  }

  lemma Step(s: string, i: int, c: Digit, j: nat)
    requires AllDigits(s) && 0 <= i < |s|
    ensures var c' := Dihedral(c, Perm(j, Value(s[i])));
            Dihedral(c', Product(s[..i], j + 1)) == Dihedral(c, Product(s[..i + 1], j))
  {
    assert s[..i + 1][..i] == s[..i];
    Associative(c, Perm(j, Value(s[i])), Product(s[..i], j + 1));
  }

  method VerhoeffOK(digits: string) returns (ok: bool)
    requires AllDigits(digits)
    ensures ok == (Product(digits, 0) == 0)
  {
    var c: Digit := 0;
    var i, j := |digits| - 1, 0;
    assert digits[..i + 1] == digits;
    while i >= 0
      invariant -1 <= i < |digits| && j == |digits| - 1 - i
      invariant Dihedral(c, Product(digits[..i + 1], j)) == Product(digits, 0)
    {
      TableStep(c, j, digits[i]);
      Step(digits, i, c, j);
      c := VERHOEFF_D[c][VERHOEFF_P[j % 8][Value(digits[i])]];
      i, j := i - 1, j + 1;
    }
    ok := c == 0;
  }

  method VerhoeffCheck(payload: string) returns (check: char)
    requires AllDigits(payload)
    ensures IsDigit(check) && Product(payload + [check], 0) == 0
    ensures forall ch :: IsDigit(ch) && ch != check ==> Product(payload + [ch], 0) != 0
  {
    var c: Digit := 0;
    var i, j := |payload| - 1, 1;
    assert payload[..i + 1] == payload;
    while i >= 0
      invariant -1 <= i < |payload| && j == |payload| - i
      invariant Dihedral(c, Product(payload[..i + 1], j)) == Product(payload, 1)
    {
      TableStep(c, j, payload[i]);
      Step(payload, i, c, j);
      c := VERHOEFF_D[c][VERHOEFF_P[j % 8][Value(payload[i])]];
      i, j := i - 1, j + 1;
    }
    CheckIsUnique(payload);
    check := "0123456789"[VERHOEFF_INV[c]];
  }

  lemma CheckIsUnique(payload: string)
    requires AllDigits(payload)
    ensures |VERHOEFF_INV| == 10 && 0 <= VERHOEFF_INV[Product(payload, 1)] < 10
    ensures forall ch :: IsDigit(ch) ==>
              (Product(payload + [ch], 0) == 0 <==> ch == "0123456789"[VERHOEFF_INV[Product(payload, 1)]])
  {
    var c := Product(payload, 1);
    forall ch | IsDigit(ch)
      ensures Product(payload + [ch], 0) == 0 <==> ch == "0123456789"[VERHOEFF_INV[c]]
    {
      assert (payload + [ch])[..|payload|] == payload;
      assert Row(0, Value(ch)) == Value(ch);
      TableInv(c, Value(ch));
      DigitChar(VERHOEFF_INV[c]);
    }
  }

  lemma DigitChar(d: Digit)
    ensures IsDigit("0123456789"[d]) && Value("0123456789"[d]) == d
  {}

  /** A valid string with one digit replaced by another is rejected. */
  lemma {:induction false} VerhoeffSubstitution(s: string, i: nat, ch: char, j: nat)
    requires AllDigits(s) && i < |s| && IsDigit(ch) && ch != s[i]
    ensures Product(s[i := ch], j) != Product(s, j)
  {
    var n := |s| - 1;
    var t := s[i := ch];
    if i == n {
      assert t[..n] == s[..n];
      RowInjective(j % 8, Value(s[n]), Value(ch));
      Cancel(Perm(j, Value(s[n])), Perm(j, Value(ch)), Product(s[..n], j + 1));
    } else {
      assert t[..n] == s[..n][i := ch];
      VerhoeffSubstitution(s[..n], i, ch, j + 1);
      LastAlike(t, s, j);
    }
  }

  ghost predicate EndsIn(s: string, j: nat, a: Digit, b: Digit, rest: Digit) {
    && AllDigits(s) && |s| >= 2
    && Value(s[|s| - 2]) == a && Value(s[|s| - 1]) == b && Product(s[..|s| - 2], j + 2) == rest
  }

  lemma LastTwo(s: string, j: nat, a: Digit, b: Digit, rest: Digit)
    requires EndsIn(s, j, a, b, rest)
    ensures Product(s, j) == TwoDigits(j, a, b, rest)
  {
    var init := s[..|s| - 1];
    assert init[..|s| - 2] == s[..|s| - 2] && init[|s| - 2] == s[|s| - 2];
    assert Product(init, j + 1) == Dihedral(Perm(j + 1, a), rest);
  }

  lemma SwapLast(s: string, t: string, j: nat, a: Digit, b: Digit, rest: Digit)
    requires EndsIn(s, j, a, b, rest) && EndsIn(t, j, b, a, rest) && a != b
    ensures Product(t, j) != Product(s, j)
  {
    LastTwo(s, j, a, b, rest);
    LastTwo(t, j, b, a, rest);
    SwapChanges(j, a, b, rest);
  }

  lemma LastAlike(s: string, t: string, j: nat)
    requires AllDigits(s) && AllDigits(t) && |s| == |t| > 0 && s[|s| - 1] == t[|s| - 1]
    requires Product(s[..|s| - 1], j + 1) != Product(t[..|s| - 1], j + 1)
    ensures Product(s, j) != Product(t, j)
  {
    Cancel(Product(s[..|s| - 1], j + 1), Product(t[..|s| - 1], j + 1), Perm(j, Value(s[|s| - 1])));
  }

  lemma SwapEnds(s: string, j: nat)
    requires AllDigits(s) && |s| >= 2
    ensures var i, n := |s| - 2, |s| - 1; var rest := Product(s[..i], j + 2);
            EndsIn(s, j, Value(s[i]), Value(s[n]), rest) && EndsIn(Swap(s, i), j, Value(s[n]), Value(s[i]), rest)
  {
    assert Swap(s, |s| - 2)[..|s| - 2] == s[..|s| - 2];
  }

  lemma SwapAtEnd(s: string, j: nat)
    requires AllDigits(s) && |s| >= 2 && s[|s| - 2] != s[|s| - 1]
    ensures Product(Swap(s, |s| - 2), j) != Product(s, j)
  {
    var i, n := |s| - 2, |s| - 1;
    SwapEnds(s, j);
    SwapLast(s, Swap(s, i), j, Value(s[i]), Value(s[n]), Product(s[..i], j + 2));
  }

  lemma SwapEarlier(s: string, i: nat, j: nat)
    requires AllDigits(s) && i + 2 < |s|
    requires Product(Swap(s[..|s| - 1], i), j + 1) != Product(s[..|s| - 1], j + 1)
    ensures Product(Swap(s, i), j) != Product(s, j)
  {
    assert Swap(s, i)[..|s| - 1] == Swap(s[..|s| - 1], i);
    LastAlike(Swap(s, i), s, j);
  }

  /** A valid string with two different neighbours swapped is rejected. */
  lemma {:induction false} VerhoeffTransposition(s: string, i: nat, j: nat)
    requires AllDigits(s) && i + 1 < |s| && s[i] != s[i + 1]
    ensures Product(Swap(s, i), j) != Product(s, j)
  {
    if i + 2 == |s| {
      SwapAtEnd(s, j);
    } else {
      VerhoeffTransposition(s[..|s| - 1], i, j + 1);
      SwapEarlier(s, i, j);
    }
  }

  // ----- Luhn

  function Doubled(d: Digit): Digit { if 2 * d > 9 then 2 * d - 9 else 2 * d }

  function Weighted(d: Digit, alternate: bool): Digit { if alternate then Doubled(d) else d }

  /** The weighted sum from the last digit on; `alternate` says whether it is doubled. */
  ghost function LuhnSum(s: string, alternate: bool): int
    requires AllDigits(s)
  {
    if s == "" then 0
    else Weighted(Value(s[|s| - 1]), alternate) + LuhnSum(s[..|s| - 1], !alternate)
  }

  method LuhnOK(digits: string) returns (ok: bool)
    ensures ok <==> AllDigits(digits) && LuhnSum(digits, false) % 10 == 0
  {
    var sum, alternate := 0, false;
    var i := |digits| - 1;
    assert digits[..i + 1] == digits;
    while i >= 0
      invariant -1 <= i < |digits|
      invariant forall k :: i < k < |digits| ==> IsDigit(digits[k])
      invariant AllDigits(digits) ==> sum + LuhnSum(digits[..i + 1], alternate) == LuhnSum(digits, false)
    {
      // The byte subtraction wraps, so a byte below '0' becomes large and is refused too.
      var n := (digits[i] as int - '0' as int) % 256;
      if digits[i] as int >= 256 || n > 9 { return false; }
      assert digits[..i + 1][..i] == digits[..i];
      if alternate {
        n := n * 2;
        if n > 9 { n := n - 9; }
      }
      sum := sum + n;
      alternate := !alternate;
      i := i - 1;
    }
    ok := sum % 10 == 0;
  }

  /** Whether the digit at `distance` from the end is doubled. */
  ghost function Doubles(distance: nat, alternate: bool): bool {
    if distance == 0 then alternate else Doubles(distance - 1, !alternate)
  }

  lemma {:induction false} DoublesAlternates(distance: nat, alternate: bool)
    ensures Doubles(distance + 1, alternate) == !Doubles(distance, alternate)
  {
    if distance > 0 { DoublesAlternates(distance - 1, !alternate); }
  }

  lemma {:induction false} LuhnReplaced(s: string, i: nat, ch: char, alternate: bool)
    requires AllDigits(s) && i < |s| && IsDigit(ch)
    ensures var alt := Doubles(|s| - 1 - i, alternate);
            LuhnSum(s[i := ch], alternate)
            == LuhnSum(s, alternate) + Weighted(Value(ch), alt) - Weighted(Value(s[i]), alt)
  {
    var n := |s| - 1;
    var t := s[i := ch];
    if i == n {
      assert t[..n] == s[..n];
    } else {
      assert t[..n] == s[..n][i := ch];
      LuhnReplaced(s[..n], i, ch, !alternate);
    }
  }

  lemma LuhnDigit(a: Digit, b: Digit, alt: bool, sum: int)
    requires sum % 10 == 0
    ensures (sum + Weighted(a, alt) - Weighted(b, alt)) % 10 == 0 <==> a == b
  {
    assert -9 <= Weighted(a, alt) - Weighted(b, alt) <= 9;
    assert Weighted(a, alt) == Weighted(b, alt) <==> a == b;
  }

  lemma LuhnPair(a: Digit, b: Digit, alt: bool, sum: int, swapped: int)
    requires sum % 10 == 0
    requires swapped == sum + Weighted(b, alt) - Weighted(a, alt) + Weighted(a, !alt) - Weighted(b, !alt)
    ensures swapped % 10 == 0 <==> a == b || (a == 0 && b == 9) || (a == 9 && b == 0)
  {
    var d := Doubled(b) - b - (Doubled(a) - a);
    assert -9 <= d <= 9;
    assert d == 0 <==> a == b || (a == 0 && b == 9) || (a == 9 && b == 0);
  }

  lemma LuhnChars(a: char, b: char, alt: bool, sum: int, swapped: int)
    requires IsDigit(a) && IsDigit(b) && sum % 10 == 0
    requires var x, y := Value(a), Value(b);
             swapped == sum + Weighted(y, alt) - Weighted(x, alt) + Weighted(x, !alt) - Weighted(y, !alt)
    ensures swapped % 10 == 0 <==> a == b || (a == '0' && b == '9') || (a == '9' && b == '0')
  {
    LuhnPair(Value(a), Value(b), alt, sum, swapped);
  }

  /** A valid number with one digit replaced by another is rejected. */
  lemma LuhnSubstitution(s: string, i: nat, ch: char)
    requires AllDigits(s) && i < |s| && IsDigit(ch) && ch != s[i] && LuhnSum(s, false) % 10 == 0
    ensures LuhnSum(s[i := ch], false) % 10 != 0
  {
    LuhnReplaced(s, i, ch, false);
    LuhnDigit(Value(ch), Value(s[i]), Doubles(|s| - 1 - i, false), LuhnSum(s, false));
  }

  lemma LuhnSwapped(s: string, i: nat)
    requires AllDigits(s) && i + 1 < |s|
    ensures var a, b, alt := Value(s[i]), Value(s[i + 1]), Doubles(|s| - 1 - i, false);
            LuhnSum(Swap(s, i), false) ==
            LuhnSum(s, false) + Weighted(b, alt) - Weighted(a, alt) + Weighted(a, !alt) - Weighted(b, !alt)
  {
    LuhnReplaced(s, i, s[i + 1], false);
    LuhnReplaced(s[i := s[i + 1]], i + 1, s[i], false);
    DoublesAlternates(|s| - 2 - i, false);
  }

  /** Swapping neighbours of a valid number goes unnoticed exactly for equal digits and for
      the pair 0 and 9. */
  lemma LuhnTransposition(s: string, i: nat)
    requires AllDigits(s) && i + 1 < |s| && LuhnSum(s, false) % 10 == 0
    ensures LuhnSum(Swap(s, i), false) % 10 == 0 <==>
            s[i] == s[i + 1] || (s[i] == '0' && s[i + 1] == '9') || (s[i] == '9' && s[i + 1] == '0')
  {
    LuhnSwapped(s, i);
    LuhnChars(s[i], s[i + 1], Doubles(|s| - 1 - i, false), LuhnSum(s, false), LuhnSum(Swap(s, i), false));
  }

  // ----- the Luhn sum, position by position

  /** What a digit adds at a distance from the end: at odd distances it is doubled, less 9 if
      that has two digits. */
  function Share(d: int, distance: int): int {
    if distance % 2 == 0 then d else if d >= 5 then 2 * d - 9 else 2 * d
  }

  /** The shares of the first n digits. */
  ghost function Shares(s: string, n: nat): int
    requires AllDigits(s) && n <= |s|
  {
    if n == 0 then 0 else Shares(s, n - 1) + Share(s[n - 1] as int - '0' as int, |s| - n)
  }

  lemma {:induction false} SharesOfPrefix(s: string, n: nat)
    requires AllDigits(s) && n <= |s|
    ensures LuhnSum(s[..n], (|s| - n) % 2 == 1) == Shares(s, n)
  {
    if n > 0 {
      var t, odd := s[..n], (|s| - n) % 2 == 1;
      SharesOfPrefix(s, n - 1);
      assert t[..n - 1] == s[..n - 1] && ((|s| - (n - 1)) % 2 == 1) == !odd;
      assert Weighted(Value(t[n - 1]), odd) == Share(Value(s[n - 1]), |s| - n);
    }
  }

  /** The sum counts the last digit once, the one before it doubled, and so on alternately. */
  lemma LuhnSumIs(s: string)
    requires AllDigits(s)
    ensures LuhnSum(s, false) == Shares(s, |s|)
  {
    SharesOfPrefix(s, |s|);
    assert s[..|s|] == s;
  }

  /** Exactly one last digit completes a payload: minus the weighted payload sum modulo 10. */
  lemma LuhnCheckDigit(payload: string, ch: char)
    requires AllDigits(payload) && IsDigit(ch)
    ensures LuhnSum(payload + [ch], false) == LuhnSum(payload, true) + (ch as int - '0' as int)
    ensures LuhnSum(payload + [ch], false) % 10 == 0 <==>
            ch as int - '0' as int == (10 - LuhnSum(payload, true) % 10) % 10
  {
    assert (payload + [ch])[..|payload|] == payload;
    ComplementToTen(LuhnSum(payload, true), Value(ch));
  }

  lemma ComplementToTen(sum: int, d: Digit)
    ensures (sum + d) % 10 == 0 <==> d == (10 - sum % 10) % 10
  {
    var q, r := sum / 10, sum % 10;
    assert sum + d == 10 * q + (r + d) && (10 * q + (r + d)) % 10 == (r + d) % 10;
  }

  // ----- the Verhoeff permutation

  /** The eight digits that the permutation moves in one cycle; it swaps the other two. */
  const CYCLE: seq<int> := [0, 1, 5, 8, 9, 4, 2, 7]

  /** Row r is the r-th power of the permutation (0 1 5 8 9 4 2 7)(3 6). */
  lemma RowIsPower(r: nat, k: nat)
    requires r < 8 && k < 8
    ensures |CYCLE| == 8 && 0 <= CYCLE[k] < 10 && Row(r, CYCLE[k]) == CYCLE[if r + k < 8 then r + k else r + k - 8]
    ensures Row(r, 3) == (if r % 2 == 0 then 3 else 6) && Row(r, 6) == (if r % 2 == 0 then 6 else 3)
  {}

  lemma ProductSnoc(s: string, ch: char, j: nat)
    requires AllDigits(s) && IsDigit(ch)
    ensures AllDigits(s + [ch]) && Product(s + [ch], j) == Dihedral(Perm(j, Value(ch)), Product(s, j + 1))
  {
    assert (s + [ch])[..|s|] == s;
  }

  /** The published example: 3 completes 236. */
  lemma VerhoeffExample()
    ensures AllDigits("2363") && Product("2363", 0) == 0
  {
    ProductSnoc("", '2', 3);
    ProductSnoc("2", '3', 2);
    ProductSnoc("23", '6', 1);
    ProductSnoc("236", '3', 0);
    assert "" + ['2'] == "2" && "2" + ['3'] == "23" && "23" + ['6'] == "236" && "236" + ['3'] == "2363";
  }
}

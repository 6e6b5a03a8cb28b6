/** Stream ids: the text form of a pair of 64-bit numbers and its parser. */
module StreamIds {
  import opened Basics
  import opened CheckDigits

  const MAX: nat := 0x1_0000_0000_0000_0000

  datatype StreamID = StreamID(millis: nat, seqNo: nat)

  /** Both numbers are unsigned and of 64 bits. */
  ghost predicate Fits(id: StreamID) { id.millis <= 0xFFFF_FFFF_FFFF_FFFF && id.seqNo <= 0xFFFF_FFFF_FFFF_FFFF }

  function DecimalDigit(d: nat): char
    requires d < 10
  {
    ('0' as int + d) as char
  }

  function Decimal(n: nat): string {
    (if n < 10 then "" else Decimal(n / 10)) + [DecimalDigit(n % 10)]
  }

  function Format(id: StreamID): string { Decimal(id.millis) + "-" + Decimal(id.seqNo) }

  predicate IsNumeral(s: string) { s != "" && forall i :: 0 <= i < |s| ==> IsDigit(s[i]) }

  function ValueOf(s: string): nat
    requires forall i :: 0 <= i < |s| ==> IsDigit(s[i])
  {
    if s == "" then 0 else ValueOf(s[..|s| - 1]) * 10 + Value(s[|s| - 1])
  }

  function ParseUint(s: string): Option<nat> {
    if IsNumeral(s) && ValueOf(s) < MAX then Some(ValueOf(s)) else None
  }

  /** The position of the first hyphen, or the length. */
  function Hyphen(s: string): (k: nat)
    ensures k <= |s| && (forall i :: 0 <= i < k ==> s[i] != '-') && (k < |s| ==> s[k] == '-')
  {
    if s == "" || s[0] == '-' then 0 else 1 + Hyphen(s[1..])
  }

  function Parse(s: string): Option<StreamID> {
    var k := Hyphen(s);
    if k == |s| || k == 0 || k + 1 == |s| || '-' in s[k + 1..] then None
    else
      var m, n := ParseUint(s[..k]), ParseUint(s[k + 1..]);
      if m.None? || n.None? then None else Some(StreamID(m.value, n.value))
  }

  lemma {:induction false} DecimalValue(n: nat)
    ensures IsNumeral(Decimal(n)) && ValueOf(Decimal(n)) == n
  {
    if n >= 10 { DecimalValue(n / 10); }
    var s := Decimal(n);
    assert s[..|s| - 1] == if n < 10 then "" else Decimal(n / 10);
  }

  /** Two numerals around a hyphen, the shape that is accepted. */
  ghost predicate Spells(s: string, a: string, b: string, id: StreamID) {
    s == a + "-" + b && IsNumeral(a) && IsNumeral(b) && ValueOf(a) == id.millis && ValueOf(b) == id.seqNo && Fits(id)
  }

  lemma SpelledParses(s: string, a: string, b: string, id: StreamID)
    requires Spells(s, a, b, id)
    ensures Parse(s) == Some(id)
  {
    var k := Hyphen(s);
    assert s[|a|] == '-' && forall i :: 0 <= i < |a| ==> s[i] == a[i];
    assert k == |a|;
    assert s[..k] == a && s[k + 1..] == b;
  }

  /** The parser accepts exactly two 64-bit numerals around one hyphen. */
  lemma ParseExact(s: string, id: StreamID)
    ensures Parse(s) == Some(id) <==> exists a, b :: Spells(s, a, b, id)
  {
    if Parse(s) == Some(id) {
      var k := Hyphen(s);
      assert s == s[..k] + "-" + s[k + 1..];
      assert Spells(s, s[..k], s[k + 1..], id);
    }
    if exists a, b :: Spells(s, a, b, id) {
      var a, b :| Spells(s, a, b, id);
      SpelledParses(s, a, b, id);
    }
  }

  /** Printing and parsing are inverse on every 64-bit id. */
  lemma RoundTrip(id: StreamID)
    requires Fits(id)
    ensures Parse(Format(id)) == Some(id)
  {
    DecimalValue(id.millis);
    DecimalValue(id.seqNo);
    SpelledParses(Format(id), Decimal(id.millis), Decimal(id.seqNo), id);
  }

  /** One id written out. */
  lemma FormatExample()
    ensures Format(StreamID(1700, 3)) == "1700-3" && Parse("1700-3") == Some(StreamID(1700, 3))
  {
    assert Decimal(1) == "1" && Decimal(17) == "17" && Decimal(170) == "170" && Decimal(1700) == "1700";
    assert Decimal(3) == "3";
    RoundTrip(StreamID(1700, 3));
  }
}

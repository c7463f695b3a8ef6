/**
 * Rust's `{}` formatting of an integer (optional minus sign, then decimal
 * digits without leading zeros) and a reader for the "r g b\n" pixel line,
 * so that the colour writers can be specified by what a reader gets back.
 */
module Decimal {
  import opened Optional

  predicate IsDigit(c: char)
  {
    '0' <= c <= '9'
  }

  function DigitChar(d: nat): (c: char)
    requires d < 10
    ensures IsDigit(c) && (c as int) - ('0' as int) == d
  {
    ('0' as int + d) as char
  }

  function DigitValue(c: char): nat
    requires IsDigit(c)
  {
    (c as int) - ('0' as int)
  }

  /** Decimal digits of a natural number, most significant first. */
  function NatToString(n: nat): (s: string)
    ensures |s| > 0
    ensures forall i :: 0 <= i < |s| ==> IsDigit(s[i])
  {
    if n < 10 then [DigitChar(n)] else NatToString(n / 10) + [DigitChar(n % 10)]
  }

  /** `format!("{}", i)` for an integer. */
  function IntToString(i: int): string
  {
    if i < 0 then "-" + NatToString(-i) else NatToString(i)
  }

  /** The three channels separated by single spaces, with a trailing newline. */
  function Triple(r: int, g: int, b: int): string
  {
    IntToString(r) + (" " + IntToString(g) + (" " + IntToString(b) + "\n"))
  }

  /** The line of three zeros. */
  lemma ZeroLine()
    ensures Triple(0, 0, 0) == "0 0 0\n"
  {
    assert IntToString(0) == "0";
  }

  /** The value of a string of digits, read most significant first. */
  function DigitsValue(s: string): nat
    requires forall i :: 0 <= i < |s| ==> IsDigit(s[i])
  {
    if s == [] then 0 else DigitsValue(s[..|s| - 1]) * 10 + DigitValue(s[|s| - 1])
  }

  /** Length of the longest prefix of `s` made of digits. */
  function DigitSpan(s: string): (k: nat)
    ensures k <= |s|
    ensures forall i :: 0 <= i < k ==> IsDigit(s[i])
    ensures k < |s| ==> !IsDigit(s[k])
  {
    if s != [] && IsDigit(s[0]) then 1 + DigitSpan(s[1..]) else 0
  }

  /** Reads an optionally negative decimal integer from the front of `s`; gives its value and the rest. */
  function ReadInt(s: string): Option<(int, string)>
  {
    var negative := |s| > 0 && s[0] == '-';
    var body := if negative then s[1..] else s;
    var k := DigitSpan(body);
    if k == 0 then None
    else
      var n: int := DigitsValue(body[..k]);
      var value := if negative then -n else n;
      Some((value, body[k..]))
  }

  /** Reads a single space followed by an integer. */
  function ReadSpacedInt(s: string): Option<(int, string)>
  {
    if |s| == 0 || s[0] != ' ' then None else ReadInt(s[1..])
  }

  /** Reads one pixel line "r g b\n"; fails on anything else. */
  function ReadTriple(s: string): Option<(int, int, int)>
  {
    match ReadInt(s)
    case None => None
    case Some((r, s1)) =>
      match ReadSpacedInt(s1)
      case None => None
      case Some((g, s2)) =>
        match ReadSpacedInt(s2)
        case None => None
        case Some((b, s3)) => if s3 == "\n" then Some((r, g, b)) else None
  }

  lemma {:induction false} DigitsValueOfNat(n: nat)
    ensures DigitsValue(NatToString(n)) == n
  {
    var s := NatToString(n);
    if n >= 10 {
      DigitsValueOfNat(n / 10);
      assert s[..|s| - 1] == NatToString(n / 10);
    }
  }

  lemma {:induction false} DigitSpanOf(digits: string, rest: string)
    requires forall i :: 0 <= i < |digits| ==> IsDigit(digits[i])
    requires rest == [] || !IsDigit(rest[0])
    ensures DigitSpan(digits + rest) == |digits|
  {
    if digits != [] {
      assert (digits + rest)[1..] == digits[1..] + rest;
      DigitSpanOf(digits[1..], rest);
    }
  }

  /** Reading back a formatted integer that is followed by a non-digit gives the integer and that rest. */
  lemma ReadIntOf(i: int, rest: string)
    requires rest == [] || !IsDigit(rest[0])
    ensures ReadInt(IntToString(i) + rest) == Some((i, rest))
  {
    var n: nat := if i < 0 then -i else i;
    var digits := NatToString(n);
    DigitSpanOf(digits, rest);
    DigitsValueOfNat(n);
    var s := IntToString(i) + rest;
    var body := digits + rest;
    assert body[..|digits|] == digits;
    assert body[|digits|..] == rest;
    if i < 0 {
      assert s == ['-'] + body;
      assert s[1..] == body;
    } else {
      assert s == body;
      assert body == [] || body[0] != '-';
    }
  }

  lemma ReadSpacedIntOf(i: int, rest: string)
    requires rest == [] || !IsDigit(rest[0])
    ensures ReadSpacedInt(" " + IntToString(i) + rest) == Some((i, rest))
  {
    ReadIntOf(i, rest);
    assert (" " + IntToString(i) + rest)[1..] == IntToString(i) + rest;
  }

  /** A pixel line reads back as the three integers it was made of. */
  lemma ReadTripleOf(r: int, g: int, b: int)
    ensures ReadTriple(Triple(r, g, b)) == Some((r, g, b))
  {
    var t2 := " " + IntToString(b) + "\n";
    var t1 := " " + IntToString(g) + t2;
    ReadIntOf(r, t1);
    ReadSpacedIntOf(g, t2);
    ReadSpacedIntOf(b, "\n");
  }
}

/** Python's `int(s)` on a string (base 10) and `str(n)` on an integer, as the
    handler uses them to turn stored task ids into numbers and back. */
module PyInt {
  import opened Wrappers

  /** The whitespace Python's `int()` strips from ASCII text: tab, line feed,
      vertical tab, form feed, carriage return and space. The separator
      characters 28 to 31 are not among them. */
  predicate IsSpace(c: char) {
    var n := c as int;
    n == 32 || 9 <= n <= 13
  }

  predicate IsDigit(c: char) {
    '0' <= c <= '9'
  }

  function TrimStart(s: string): string {
    if s != [] && IsSpace(s[0]) then TrimStart(s[1..]) else s
  }

  function TrimEnd(s: string): string {
    if s != [] && IsSpace(s[|s| - 1]) then TrimEnd(s[..|s| - 1]) else s
  }

  /** Surrounding whitespace removed, as `int()` does before it reads the number. */
  function Strip(s: string): string {
    TrimEnd(TrimStart(s))
  }

  /** A decimal literal as `int()` accepts it: digits, with single underscores
      allowed between two digits. */
  predicate IsDigitGroup(s: string) {
    && |s| > 0
    && IsDigit(s[0])
    && (|s| == 1 || IsDigitGroup(if s[1] == '_' then s[2..] else s[1..]))
  }

  lemma {:induction false} AllDigitsIsDigitGroup(s: string)
    requires s != [] && forall i | 0 <= i < |s| :: IsDigit(s[i])
    ensures IsDigitGroup(s)
    decreases |s|
  {
    if |s| > 1 {
      assert IsDigit(s[1]);
      AllDigitsIsDigitGroup(s[1..]);
    }
  }

  function DigitValue(c: char): nat {
    if IsDigit(c) then c as int - '0' as int else 0
  }

  /** The number the digits of `s` denote, underscores skipped. */
  function DigitsValue(s: string): nat {
    if s == [] then 0
    else if s[|s| - 1] == '_' then DigitsValue(s[..|s| - 1])
    else DigitsValue(s[..|s| - 1]) * 10 + DigitValue(s[|s| - 1])
  }

  /** A digit group starts and ends with a digit. */
  lemma {:induction false} DigitGroupEndsInDigit(s: string)
    requires IsDigitGroup(s)
    ensures IsDigit(s[|s| - 1])
    decreases |s|
  {
    if |s| > 1 {
      var u := if s[1] == '_' then s[2..] else s[1..];
      DigitGroupEndsInDigit(u);
      assert u[|u| - 1] == s[|s| - 1];
    }
  }

  function ParseDigits(s: string): Option<nat> {
    if IsDigitGroup(s) then Some(DigitsValue(s)) else None
  }

  /** `int(s)`: `None` where Python raises `ValueError`. Whatever reads as an
      integer ends in a digit once stripped, and reads as a negative number only
      after a leading `-`. */
  function ParseInt(s: string): (r: Option<int>)
    ensures r.Some? ==> Strip(s) != [] && IsDigit(Strip(s)[|Strip(s)| - 1])
    ensures r.Some? && r.value < 0 ==> Strip(s) != [] && Strip(s)[0] == '-'
  {
    var t := Strip(s);
    if t != [] && (t[0] == '-' || t[0] == '+') then
      match ParseDigits(t[1..])
      case None => None
      case Some(d) =>
        DigitGroupEndsInDigit(t[1..]);
        var v: int := d;
        if t[0] == '-' then Some(-v) else Some(v)
    else
      match ParseDigits(t)
      case None => None
      case Some(d) => DigitGroupEndsInDigit(t); Some(d)
  }

  /** Readings of `int()` at its edges: ASCII padding and single underscores
      are accepted; a doubled or leading underscore, a doubled sign and the
      separator character 28 are not. */
  lemma ParseIntExamples()
    ensures ParseInt(" 7\n") == Some(7)
    ensures ParseInt("-1_0") == Some(-10)
    ensures ParseInt("1__0") == None
    ensures ParseInt("_1") == None
    ensures ParseInt("+-1") == None
    ensures ParseInt([28 as char, '5']) == None
  {
    var t := "-1_0";
    StripKeepsUnpadded(t);
    assert t[1..] == "1_0" && "1_0"[..2] == "1_" && "1_"[..1] == "1";
  }

  function Digit(d: nat): (c: char)
    requires d < 10
    ensures IsDigit(c) && DigitValue(c) == d
  {
    ('0' as int + d) as char
  }

  function NatToString(n: nat): (r: string)
    ensures r != [] && forall i | 0 <= i < |r| :: IsDigit(r[i])
  {
    if n < 10 then [Digit(n)] else NatToString(n / 10) + [Digit(n % 10)]
  }

  /** `str(n)`: the decimal digits of `n`, with a leading `-` when it is negative. */
  function IntToString(n: int): (r: string)
    ensures r != []
  {
    if n < 0 then "-" + NatToString(-n) else NatToString(n)
  }

  lemma {:induction false} DigitsValueOfNatToString(n: nat)
    ensures DigitsValue(NatToString(n)) == n
  {
    var r := NatToString(n);
    if n >= 10 {
      var p := NatToString(n / 10);
      assert r == p + [Digit(n % 10)];
      assert r[..|r| - 1] == p;
      DigitsValueOfNatToString(n / 10);
    } else {
      assert r[..|r| - 1] == [];
    }
  }

  lemma StripKeepsUnpadded(s: string)
    requires s != [] && !IsSpace(s[0]) && !IsSpace(s[|s| - 1])
    ensures Strip(s) == s
  {
  }

  lemma ParseDigitsOfNatToString(n: nat)
    ensures ParseDigits(NatToString(n)) == Some(n)
  {
    AllDigitsIsDigitGroup(NatToString(n));
    DigitsValueOfNatToString(n);
  }

  lemma ParseIntOfNatToString(n: nat)
    ensures ParseInt(NatToString(n)) == Some(n)
  {
    var s := NatToString(n);
    assert IsDigit(s[0]) && IsDigit(s[|s| - 1]);
    StripKeepsUnpadded(s);
    ParseDigitsOfNatToString(n);
  }

  lemma ParseIntOfNegative(n: int)
    requires n < 0
    ensures ParseInt("-" + NatToString(-n)) == Some(n)
  {
    var d := NatToString(-n);
    var s := "-" + d;
    assert s[0] == '-' && s[1..] == d && s[|s| - 1] == d[|d| - 1];
    assert IsDigit(d[|d| - 1]);
    StripKeepsUnpadded(s);
    ParseDigitsOfNatToString(-n);
  }

  /** `int(str(n)) == n`: the id the handler writes back reads as the number it allocated. */
  lemma ParseIntOfIntToString(n: int)
    ensures ParseInt(IntToString(n)) == Some(n)
  {
    if n < 0 {
      ParseIntOfNegative(n);
    } else {
      ParseIntOfNatToString(n);
    }
  }

  /** `str` never gives two numbers the same text. */
  lemma IntToStringInjective(m: int, n: int)
    requires IntToString(m) == IntToString(n)
    ensures m == n
  {
    ParseIntOfIntToString(m);
    ParseIntOfIntToString(n);
  }
}

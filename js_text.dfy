/**
 * The JavaScript string operations the core relies on: `toLowerCase`, `includes`,
 * `endsWith`, the numeric reading done by `Number`/`parseFloat` for plain decimal
 * text, and `parseInt` without a radix argument.
 */
module JsText {
  import opened Wrappers

  function LowerChar(c: char): char
  {
    if 'A' <= c <= 'Z' then (c as int - 'A' as int + 'a' as int) as char else c
  }

  /** `s.toLowerCase()` on ASCII letters. */
  function ToLower(s: string): (r: string)
    ensures |r| == |s|
    ensures forall i :: 0 <= i < |s| ==> r[i] == LowerChar(s[i])
  {
    if s == [] then [] else [LowerChar(s[0])] + ToLower(s[1..])
  }

  predicate StartsWith(s: string, prefix: string)
  {
    |prefix| <= |s| && s[..|prefix|] == prefix
  }

  /** `s.includes(sub)`: `sub` occurs somewhere in `s`. */
  predicate Contains(s: string, sub: string)
  {
    StartsWith(s, sub) || (s != [] && Contains(s[1..], sub))
  }

  /** `s.endsWith(suffix)`. */
  predicate EndsWith(s: string, suffix: string)
  {
    |suffix| <= |s| && s[|s| - |suffix|..] == suffix
  }

  /** Every string includes the empty string. */
  lemma EmptyIsContained(s: string)
    ensures Contains(s, "")
  {
  }

  /** `Contains` means an occurrence at some position. */
  lemma {:induction false} ContainsAt(s: string, sub: string, k: nat)
    requires k + |sub| <= |s| && s[k..k + |sub|] == sub
    ensures Contains(s, sub)
  {
    if k > 0 {
      assert s[1..][k - 1..k - 1 + |sub|] == s[k..k + |sub|];
      ContainsAt(s[1..], sub, k - 1);
    }
  }

  predicate IsDigit(c: char)
  {
    '0' <= c <= '9'
  }

  predicate AllDigits(s: string)
  {
    forall i :: 0 <= i < |s| ==> IsDigit(s[i])
  }

  /** The value of a run of decimal digits, most significant first. */
  function DigitsValue(s: string): (n: nat)
    requires AllDigits(s)
  {
    if s == [] then 0 else DigitsValue(s[..|s| - 1]) * 10 + (s[|s| - 1] as int - '0' as int)
  }

  function Pow10(k: nat): (p: nat)
    ensures p >= 1
  {
    if k == 0 then 1 else 10 * Pow10(k - 1)
  }

  /** The decimal digits of a natural number, with no leading zeros (`n.toString()`). */
  function NatToString(n: nat): (s: string)
    ensures s != [] && AllDigits(s)
  {
    if n < 10 then [('0' as int + n) as char]
    else NatToString(n / 10) + [('0' as int + n % 10) as char]
  }

  lemma {:induction false} NatToStringValue(n: nat)
    ensures DigitsValue(NatToString(n)) == n
  {
    if n >= 10 {
      NatToStringValue(n / 10);
      var s := NatToString(n);
      assert s[..|s| - 1] == NatToString(n / 10);
    }
  }

  /** Index of the first '.' in `s`, or `|s|` when there is none. */
  function DotIndex(s: string): (k: nat)
    ensures k <= |s|
    ensures forall i :: 0 <= i < k ==> s[i] != '.'
    ensures k < |s| ==> s[k] == '.'
  {
    if s == [] then 0 else if s[0] == '.' then 0 else 1 + DotIndex(s[1..])
  }

  /**
   * A decimal numeral: an optional sign, then digits with at most one '.', and at
   * least one digit in all ("12", "-3.5", ".5", "7.").
   */
  datatype Numeral = Numeral(negative: bool, whole: string, fraction: string)

  function Unsigned(s: string): string
  {
    if s != [] && (s[0] == '-' || s[0] == '+') then s[1..] else s
  }

  function ReadNumeral(s: string): (r: Option<Numeral>)
    ensures r.Some? ==> AllDigits(r.value.whole) && AllDigits(r.value.fraction)
    ensures r.Some? ==> |r.value.whole| + |r.value.fraction| >= 1
  {
    var body := Unsigned(s);
    var k := DotIndex(body);
    var whole := body[..k];
    var fraction := if k < |body| then body[k + 1..] else "";
    if AllDigits(whole) && AllDigits(fraction) && |whole| + |fraction| >= 1
    then Some(Numeral(s != [] && s[0] == '-', whole, fraction))
    else None
  }

  function NumeralValue(n: Numeral): real
    requires AllDigits(n.whole) && AllDigits(n.fraction)
  {
    var magnitude := DigitsValue(n.whole) as real + DigitsValue(n.fraction) as real / Pow10(|n.fraction|) as real;
    if n.negative then -magnitude else magnitude
  }

  /**
   * `Number(s)` for the text this model reads: the numeral's value, or None where
   * JavaScript gives NaN.
   */
  function NumberOf(s: string): (r: Option<real>)
  {
    match ReadNumeral(s)
    case Some(n) => Some(NumeralValue(n))
    case None => None
  }

  /** `n.toString()` read back by `Number` is `n` again. */
  lemma NatRoundTrip(n: nat)
    ensures NumberOf(NatToString(n)) == Some(n as real)
  {
    var s := NatToString(n);
    NoDotInDigits(s);
    assert Unsigned(s) == s by {
      assert s[0] != '-' && s[0] != '+' by { assert IsDigit(s[0]); }
    }
    assert s[..|s|] == s;
    assert ReadNumeral(s) == Some(Numeral(false, s, ""));
    NatToStringValue(n);
    assert NumeralValue(Numeral(false, s, "")) == n as real;
  }

  lemma {:induction false} NoDotInDigits(s: string)
    requires AllDigits(s)
    ensures DotIndex(s) == |s|
  {
    if s != [] {
      NoDotInDigits(s[1..]);
    }
  }

  /** Length of the longest prefix of `s` made only of digits. */
  function DigitPrefix(s: string): (k: nat)
    ensures k <= |s| && AllDigits(s[..k])
    ensures k < |s| ==> !IsDigit(s[k])
  {
    if s == [] || !IsDigit(s[0]) then 0
    else
      var k := 1 + DigitPrefix(s[1..]);
      assert forall i :: 1 <= i < k ==> s[..k][i] == s[1..][..k - 1][i - 1];
      k
  }

  /** A character `parseInt` skips at the start: ECMAScript's WhiteSpace and LineTerminator code points. */
  predicate IsJsSpace(c: char)
  {
    c == '\t' || c == '\n' || c == '\U{000B}' || c == '\U{000C}' || c == '\r' || c == ' '
    || c == '\U{00A0}' || c == '\U{1680}' || '\U{2000}' <= c <= '\U{200A}' || c == '\U{2028}' || c == '\U{2029}'
    || c == '\U{202F}' || c == '\U{205F}' || c == '\U{3000}' || c == '\U{FEFF}'
  }

  /** `s` without its leading white space. */
  function TrimStart(s: string): (t: string)
    ensures |t| <= |s|
    ensures t != [] ==> !IsJsSpace(t[0])
  {
    if s != [] && IsJsSpace(s[0]) then TrimStart(s[1..]) else s
  }

  /** The digit value of a character in radix 36 (`0`-`9`, then `a`-`z` or `A`-`Z`); 36 for any other character. */
  function DigitValue(c: char): (v: nat)
    ensures v <= 36
  {
    if '0' <= c <= '9' then c as int - '0' as int
    else if 'a' <= c <= 'z' then c as int - 'a' as int + 10
    else if 'A' <= c <= 'Z' then c as int - 'A' as int + 10
    else 36
  }

  /** Length of the longest prefix of `s` made of digits of the given radix. */
  function RadixPrefix(s: string, radix: nat): (k: nat)
    ensures k <= |s|
    ensures forall i :: 0 <= i < k ==> DigitValue(s[i]) < radix
    ensures k < |s| ==> DigitValue(s[k]) >= radix
  {
    if s == [] || DigitValue(s[0]) >= radix then 0
    else
      var k := 1 + RadixPrefix(s[1..], radix);
      assert forall i :: 1 <= i < k ==> s[i] == s[1..][i - 1];
      k
  }

  /** The value of a run of digits in the given radix, most significant first. */
  function RadixValue(s: string, radix: nat): nat
  {
    if s == [] then 0 else RadixValue(s[..|s| - 1], radix) * radix + DigitValue(s[|s| - 1])
  }

  /** Whether a sign-stripped text starts with the `0x`/`0X` prefix that selects radix 16. */
  predicate HexPrefixed(body: string)
  {
    |body| >= 2 && body[0] == '0' && (body[1] == 'x' || body[1] == 'X')
  }

  /**
   * `parseInt(s)` with no radix argument: leading white space is skipped, then an
   * optional sign; a `0x` or `0X` prefix selects radix 16, otherwise radix 10; the
   * longest run of digits of that radix is read, and an empty run is NaN (None).
   */
  function ParseInt(s: string): (r: Option<int>)
    ensures TrimStart(s) == [] ==> r.None?
    ensures r.Some? && TrimStart(s)[0] != '-' ==> r.value >= 0
    ensures r.Some? && TrimStart(s)[0] == '-' ==> r.value <= 0
  {
    ReadInt(TrimStart(s))
  }

  /** The reading of `parseInt` once the leading white space is gone. */
  function ReadInt(t: string): (r: Option<int>)
    ensures t == [] ==> r.None?
    ensures r.Some? && t[0] != '-' ==> r.value >= 0
    ensures r.Some? && t[0] == '-' ==> r.value <= 0
  {
    var body := Unsigned(t);
    var radix := if HexPrefixed(body) then 16 else 10;
    var digits := if HexPrefixed(body) then body[2..] else body;
    var k := RadixPrefix(digits, radix);
    if k == 0 then None
    else
      var n: int := RadixValue(digits[..k], radix);
      Some(if t[0] == '-' then -n else n)
  }

  /** In radix 10 the digit reading is the decimal reading. */
  lemma {:induction false} RadixValueDecimal(s: string)
    requires AllDigits(s)
    ensures RadixValue(s, 10) == DigitsValue(s)
  {
    if s != [] {
      RadixValueDecimal(s[..|s| - 1]);
    }
  }

  /** The decimal text of a whole number (as `toString` writes it) reads back as that number. */
  lemma ParseIntRoundTrip(n: nat)
    ensures ParseInt(NatToString(n)) == Some(n)
  {
    var s := NatToString(n);
    assert TrimStart(s) == s by { assert !IsJsSpace(s[0]) by { assert IsDigit(s[0]); } }
    assert Unsigned(s) == s by { assert IsDigit(s[0]); }
    assert !HexPrefixed(s) by { if |s| >= 2 { assert IsDigit(s[1]); } }
    assert RadixPrefix(s, 10) == |s|;
    assert s[..|s|] == s;
    RadixValueDecimal(s);
    NatToStringValue(n);
  }

  /** Leading white space does not change what `parseInt` reads. */
  lemma ParseIntSkipsSpace(c: char, s: string)
    requires IsJsSpace(c)
    ensures ParseInt([c] + s) == ParseInt(s)
  {
    assert ([c] + s)[1..] == s;
    assert TrimStart([c] + s) == TrimStart(s);
  }

  /** Text that does not start with white space is not trimmed. */
  lemma NoLeadingSpace(s: string)
    requires s != [] && (IsDigit(s[0]) || 'a' <= s[0] <= 'z' || s[0] == '-' || s[0] == '+')
    ensures TrimStart(s) == s
  {
    assert !IsJsSpace(s[0]);
  }

  /** Decimal text is read up to its first character that is not a digit. */
  lemma ReadDecimalPrefix(t: string, k: nat)
    requires t != [] && IsDigit(t[0]) && !HexPrefixed(t)
    requires 0 < k == RadixPrefix(t, 10)
    ensures ParseInt(t) == Some(RadixValue(t[..k], 10))
  {
    NoLeadingSpace(t);
    assert Unsigned(t) == t;
  }

  /** `0x` followed by hexadecimal digits only is read whole in radix 16. */
  lemma ReadHexRun(d: string)
    requires d != [] && RadixPrefix(d, 16) == |d|
    ensures ParseInt("0x" + d) == Some(RadixValue(d, 16))
  {
    var t := "0x" + d;
    assert t[0] == '0' && t[1] == 'x' && t[2..] == d;
    NoLeadingSpace(t);
    assert Unsigned(t) == t;
    assert d[..|d|] == d;
  }

  /** Without a radix, `0x` text is read in hexadecimal. */
  lemma ParseIntHex()
    ensures ParseInt("0x1A") == Some(26)
  {
    HexDigits();
    ReadHexRun("1A");
    assert "0x" + "1A" == "0x1A";
  }

  lemma HexDigits()
    ensures RadixPrefix("1A", 16) == 2
    ensures RadixValue("1A", 16) == 26
  {
    assert "1A"[1..] == "A";
    assert "1A"[..1] == "1";
  }

  lemma TwelveDigits()
    ensures RadixPrefix("12", 10) == 2
    ensures RadixValue("12", 10) == 12
    ensures ParseInt("12") == Some(12)
  {
    assert "12"[1..] == "2";
    assert "12"[..1] == "1";
    ReadDecimalPrefix("12", 2);
    assert "12"[..2] == "12";
  }

  /** Reading starts after white space and stops at the first character that is not a digit. */
  lemma ParseIntDecimalExamples()
    ensures ParseInt(" 12") == Some(12)
    ensures ParseInt("12abc") == Some(12)
  {
    TwelveDigits();
    ParseIntSkipsSpace(' ', "12");
    assert " 12" == [' '] + "12";
    StopsAtLetter();
  }

  lemma StopsAtLetter()
    ensures ParseInt("12abc") == Some(12)
  {
    var s := "12abc";
    assert RadixPrefix(s, 10) == 2 by {
      assert s[1..] == "2abc" && "2abc"[1..] == "abc";
    }
    ReadDecimalPrefix(s, 2);
    assert s[..2] == "12";
    TwelveDigits();
  }

  /** A sign is read before the digits, and text without leading digits is NaN. */
  lemma ParseIntSignAndNaN()
    ensures ParseInt("-7") == Some(-7)
    ensures ParseInt("abc") == None
  {
    NoLeadingSpace("-7");
    assert Unsigned("-7") == "7" && !HexPrefixed("7");
    assert RadixPrefix("7", 10) == 1 && "7"[..1] == "7";
    NoLeadingSpace("abc");
    assert Unsigned("abc") == "abc";
    assert RadixPrefix("abc", 10) == 0;
  }
}

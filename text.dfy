// The two JavaScript string built-ins the page relies on: String.prototype.trim,
// used by the presence check, and the Number conversion applied to each field
// before the arithmetic.

module Text {

  /** A fixed set of the whitespace characters that trim() and Number() strip:
      space, tab, line feed, vertical tab, form feed, carriage return, no-break
      space, line and paragraph separators and the byte-order mark. */
  predicate IsWhitespace(c: char) {
    c == ' ' || c == '\t' || c == '\n' || c == '\U{B}' || c == '\U{C}' || c == '\r'
    || c == '\U{A0}' || c == '\U{2028}' || c == '\U{2029}' || c == '\U{FEFF}'
  }

  predicate Blank(s: string) {
    forall i :: 0 <= i < |s| ==> IsWhitespace(s[i])
  }

  /** Drops the leading whitespace. */
  function TrimStart(s: string): string {
    if |s| > 0 && IsWhitespace(s[0]) then TrimStart(s[1..]) else s
  }

  /** Drops the trailing whitespace. */
  function TrimEnd(s: string): string {
    if |s| > 0 && IsWhitespace(s[|s| - 1]) then TrimEnd(s[..|s| - 1]) else s
  }

  /** String.prototype.trim: whitespace removed at both ends. */
  function Trim(s: string): string {
    TrimEnd(TrimStart(s))
  }

  /** What TrimStart drops is all whitespace, and what remains is a suffix of s
      that does not start with whitespace. */
  lemma {:induction false} TrimStartSpec(s: string)
    ensures var r := TrimStart(s);
      && |r| <= |s| && r == s[|s| - |r|..]
      && Blank(s[..|s| - |r|])
      && (r == [] || !IsWhitespace(r[0]))
  {
    if |s| > 0 && IsWhitespace(s[0]) {
      TrimStartSpec(s[1..]);
      var r := TrimStart(s[1..]);
      assert s[..|s| - |r|] == [s[0]] + s[1..][..|s| - 1 - |r|];
    }
  }

  /** What TrimEnd drops is all whitespace, and what remains is a prefix of s
      that does not end with whitespace. */
  lemma {:induction false} TrimEndSpec(s: string)
    ensures var r := TrimEnd(s);
      && |r| <= |s| && r == s[..|r|]
      && Blank(s[|r|..])
      && (r == [] || !IsWhitespace(r[|r| - 1]))
  {
    if |s| > 0 && IsWhitespace(s[|s| - 1]) {
      TrimEndSpec(s[..|s| - 1]);
      var r := TrimEnd(s[..|s| - 1]);
      assert s[|r|..] == s[..|s| - 1][|r|..] + [s[|s| - 1]];
    }
  }

  /** The trimmed text neither starts nor ends with whitespace, and is empty
      exactly when every character of s is whitespace. */
  lemma TrimSpec(s: string)
    ensures var r := Trim(s); r == [] || (!IsWhitespace(r[0]) && !IsWhitespace(r[|r| - 1]))
    ensures Trim(s) == [] <==> Blank(s)
  {
    var t := TrimStart(s);
    TrimStartSpec(s);
    TrimEndSpec(t);
    if t == [] {
      assert s == s[..|s| - |t|];
    } else {
      assert !IsWhitespace(s[|s| - |t|]);
      var r := TrimEnd(t);
      if r != [] {
        assert r[0] == t[0];
      }
    }
  }

  predicate IsDigit(c: char) {
    '0' <= c <= '9'
  }

  predicate IsDigits(s: string) {
    |s| > 0 && forall i :: 0 <= i < |s| ==> IsDigit(s[i])
  }

  /** The value of a string of decimal digits, most significant first. */
  function DigitsValue(s: string): (n: int)
    requires forall i :: 0 <= i < |s| ==> IsDigit(s[i])
    ensures n >= 0
  {
    if s == [] then 0
    else
      assert IsDigit(s[|s| - 1]);
      DigitsValue(s[..|s| - 1]) * 10 + (s[|s| - 1] as int - '0' as int)
  }

  /** What Number(text) yields, as far as this model tracks it: an integer, or
      a value the model does not follow (NaN, a fraction, an infinity, or an
      integer the double format cannot hold exactly). */
  datatype Number = Int(value: int) | Untracked

  /** 2^53: every integer of at most this magnitude is a double exactly, and so
      are its multiples by 8 and the floors of its eighths. */
  const MaxExact: int := 0x20_0000_0000_0000

  /** An integer value, tracked only where the double format holds it exactly. */
  function Exact(v: int): Number {
    if -MaxExact <= v <= MaxExact then Int(v) else Untracked
  }

  /** Number(text): surrounding whitespace is ignored, blank text is 0, and an
      optionally signed run of decimal digits is that integer. Other numeric
      spellings (fractions, exponents, radix prefixes) are not followed. */
  function ToNumber(s: string): (n: Number)
    ensures Blank(s) ==> n == Int(0)
    ensures n.Int? ==> -MaxExact <= n.value <= MaxExact
  {
    var t := Trim(s);
    TrimSpec(s);
    if t == [] then Int(0)
    else if IsDigits(t) then Exact(DigitsValue(t))
    else if (t[0] == '-' || t[0] == '+') && IsDigits(t[1..]) then
      var magnitude := DigitsValue(t[1..]);
      Exact(if t[0] == '-' then -magnitude else magnitude)
    else Untracked
  }

  /** Text with no whitespace at either end is its own trim. */
  lemma TrimFixed(t: string)
    requires t == [] || (!IsWhitespace(t[0]) && !IsWhitespace(t[|t| - 1]))
    ensures Trim(t) == t
  {
    assert TrimStart(t) == t;
  }

  /** Number() reads text and its trimmed text alike. */
  lemma ToNumberTrim(s: string)
    ensures ToNumber(Trim(s)) == ToNumber(s)
  {
    TrimSpec(s);
    TrimFixed(Trim(s));
  }

  function DigitChar(d: int): (c: char)
    requires 0 <= d < 10
    ensures IsDigit(c) && c as int - '0' as int == d
  {
    ('0' as int + d) as char
  }

  /** The decimal spelling of a natural number, without leading zeros. */
  function NatToDecimal(n: nat): string {
    if n < 10 then [DigitChar(n)] else NatToDecimal(n / 10) + [DigitChar(n % 10)]
  }

  /** The decimal spelling of an integer, with a '-' when it is negative. */
  function FromInt(n: int): string {
    if n < 0 then "-" + NatToDecimal(-n) else NatToDecimal(n)
  }

  lemma {:induction false} NatToDecimalValue(n: nat)
    ensures IsDigits(NatToDecimal(n)) && DigitsValue(NatToDecimal(n)) == n
  {
    if n >= 10 {
      NatToDecimalValue(n / 10);
      var s := NatToDecimal(n);
      assert s[..|s| - 1] == NatToDecimal(n / 10);
    }
  }

  /** Reading back the decimal spelling of an integer that a double holds
      exactly gives that integer. */
  lemma ToNumberFromInt(n: int)
    requires -MaxExact <= n <= MaxExact
    ensures ToNumber(FromInt(n)) == Int(n)
  {
    var m := if n < 0 then -n else n;
    NatToDecimalValue(m);
    var t := FromInt(n);
    TrimFixed(t);
    if n < 0 {
      assert t[1..] == NatToDecimal(m);
      assert !IsDigit(t[0]);
    }
  }
}

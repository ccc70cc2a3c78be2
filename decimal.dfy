/**
  Decimal numerals of integers, for the two places the bridge converts
  between numbers and text: JavaScript's `+` of a string and a number (the
  number is written in decimal) and Python's `int()` of a string.
 */
module Decimal {
  import opened Wrappers

  predicate IsDigit(c: char) {
    '0' <= c <= '9'
  }

  function DigitChar(d: nat): (c: char)
    requires d < 10
    ensures IsDigit(c) && c as int - '0' as int == d
  {
    ('0' as int + d) as char
  }

  function DigitOf(c: char): (d: nat)
    requires IsDigit(c)
    ensures d < 10
  {
    c as int - '0' as int
  }

  predicate AllDigits(s: string) {
    forall i :: 0 <= i < |s| ==> IsDigit(s[i])
  }

  /** The value of a string of digits, most significant first. */
  function DigitsValue(s: string): nat
    requires AllDigits(s)
  {
    if s == [] then 0 else DigitsValue(s[..|s| - 1]) * 10 + DigitOf(s[|s| - 1])
  }

  /** The shortest decimal numeral of `n`: digits only, and no leading zero unless `n` is 0. */
  function NatString(n: nat): (r: string)
    ensures |r| >= 1 && AllDigits(r)
    ensures r[0] == '0' ==> n == 0 && r == "0"
    ensures DigitsValue(r) == n
  {
    if n < 10 then [DigitChar(n)]
    else
      var init := NatString(n / 10);
      var r := init + [DigitChar(n % 10)];
      assert r[..|r| - 1] == init;
      r
  }

  /** `Number.prototype.toString()` of an integer, as used when JavaScript's `+` meets a string. */
  function Show(n: int): (r: string)
    ensures |r| >= 1
    ensures n < 0 <==> r[0] == '-'
  {
    if n < 0 then "-" + NatString(-n) else NatString(n)
  }

  /**
    The whitespace Python's `int()` strips from both ends: ASCII space, tab,
    line feed, vertical tab, form feed and carriage return, and every
    character beyond ASCII that `str.isspace` accepts. (The ASCII separators
    U+001C to U+001F are not stripped.)
   */
  predicate IsSpace(c: char) {
    || c == ' ' || c == '\t' || c == '\n' || c == '\r' || c == '\U{000B}' || c == '\U{000C}'
    || c == '\U{0085}' || c == '\U{00A0}' || c == '\U{1680}'
    || ('\U{2000}' <= c <= '\U{200A}')
    || c == '\U{2028}' || c == '\U{2029}' || c == '\U{202F}' || c == '\U{205F}' || c == '\U{3000}'
  }

  /** `s` with its leading whitespace removed. */
  function TrimStart(s: string): (r: string)
    ensures |r| <= |s|
  {
    if s != [] && IsSpace(s[0]) then TrimStart(s[1..]) else s
  }

  /** `s` with its trailing whitespace removed. */
  function TrimEnd(s: string): (r: string)
    ensures |r| <= |s|
  {
    if s != [] && IsSpace(s[|s| - 1]) then TrimEnd(s[..|s| - 1]) else s
  }

  /** Trimming the start removes exactly the leading run of whitespace: what is left is a suffix that starts with a non-space. */
  lemma {:induction false} TrimStartRemovesLeadingSpace(s: string)
    ensures var r := TrimStart(s);
      && r == s[|s| - |r|..]
      && (forall i :: 0 <= i < |s| - |r| ==> IsSpace(s[i]))
      && (r == [] || !IsSpace(r[0]))
  {
    if s != [] && IsSpace(s[0]) {
      TrimStartRemovesLeadingSpace(s[1..]);
    }
  }

  /** Trimming the end removes exactly the trailing run of whitespace: what is left is a prefix that ends with a non-space. */
  lemma {:induction false} TrimEndRemovesTrailingSpace(s: string)
    ensures var r := TrimEnd(s);
      && r == s[..|r|]
      && (forall i :: |r| <= i < |s| ==> IsSpace(s[i]))
      && (r == [] || !IsSpace(r[|r| - 1]))
  {
    if s != [] && IsSpace(s[|s| - 1]) {
      TrimEndRemovesTrailingSpace(s[..|s| - 1]);
    }
  }

  /**
    Digits, where single underscores may separate two digits (the grouping
    Python's integer literals allow): a digit, then digits each optionally
    preceded by one underscore.
   */
  predicate IsGroupedDigits(s: string)
    decreases |s|
  {
    && |s| >= 1 && IsDigit(s[0])
    && (|s| == 1 || if s[1] == '_' then |s| >= 3 && IsGroupedDigits(s[2..]) else IsGroupedDigits(s[1..]))
  }

  /** The digits of a grouped numeral, with the underscores dropped. */
  function DropUnderscores(s: string): (r: string)
    requires IsGroupedDigits(s)
    ensures |r| >= 1 && AllDigits(r)
    decreases |s|
  {
    if |s| == 1 then [s[0]]
    else if s[1] == '_' then [s[0]] + DropUnderscores(s[2..])
    else [s[0]] + DropUnderscores(s[1..])
  }

  /**
    Python's `int()` of a `str` in base 10: optional surrounding whitespace,
    an optional sign, then grouped digits; anything else is a `ValueError`
    (`None`).
   */
  function ParseInt(s: string): Option<int> {
    ParseSigned(TrimEnd(TrimStart(s)))
  }

  /** `int()` of a string without surrounding whitespace. */
  function ParseSigned(t: string): Option<int> {
    if t == [] then None
    else if t[0] == '-' || t[0] == '+' then
      match ParseDigits(t[1..])
      case Some(v) => Some(if t[0] == '-' then -v else v)
      case None => None
    else ParseDigits(t)
  }

  function ParseDigits(body: string): Option<int> {
    if IsGroupedDigits(body) then Some(DigitsValue(DropUnderscores(body))) else None
  }

  /** Reading back a numeral gives the number (the round trip of `Show` through `int()`). */
  lemma ShowParses(n: int)
    ensures ParseInt(Show(n)) == Some(n)
  {
    var m: nat := if n < 0 then -n else n;
    var digits := NatString(m);
    DigitsParse(digits);
    if n < 0 {
      NegativeParses(digits, m);
      assert Show(n) == "-" + digits;
    } else {
      UnsignedParses(digits);
    }
  }

  lemma DigitsParse(digits: string)
    requires |digits| >= 1 && AllDigits(digits)
    ensures ParseDigits(digits) == Some(DigitsValue(digits) as int)
  {
    DigitsAreGrouped(digits);
  }

  lemma UnsignedParses(digits: string)
    requires |digits| >= 1 && AllDigits(digits)
    ensures ParseInt(digits) == ParseDigits(digits)
  {
    NoSpaceAtEnds(digits);
    assert IsDigit(digits[0]);
  }

  lemma NegativeParses(digits: string, v: int)
    requires |digits| >= 1 && AllDigits(digits)
    requires ParseDigits(digits) == Some(v)
    ensures ParseInt("-" + digits) == Some(-v)
  {
    var s := "-" + digits;
    assert s[0] == '-' && s[1..] == digits;
    assert IsDigit(s[|s| - 1]);
    NoSpaceAtEnds(s);
  }

  /** Plain digits are a grouped numeral with nothing to drop. */
  lemma {:induction false} DigitsAreGrouped(s: string)
    requires |s| >= 1 && AllDigits(s)
    ensures IsGroupedDigits(s) && DropUnderscores(s) == s
    decreases |s|
  {
    if |s| > 1 {
      assert IsDigit(s[1]);
      DigitsAreGrouped(s[1..]);
      assert s == [s[0]] + s[1..];
    }
  }

  /** A numeral has no whitespace at either end, so `int()` reads all of it. */
  lemma NoSpaceAtEnds(s: string)
    requires |s| >= 1 && !IsSpace(s[0]) && !IsSpace(s[|s| - 1])
    ensures TrimEnd(TrimStart(s)) == s
  {
    assert TrimStart(s) == s;
    assert TrimEnd(s) == s;
  }
}

/** Python's `int(s)` on base-10 text and `str(v)` on an integer, as the session
    record uses them for its volume line. */
module Numbers {
  import opened Wrappers
  import opened Text

  predicate IsDigit(c: char) {
    '0' <= c <= '9'
  }

  function DigitValue(c: char): nat
    requires IsDigit(c)
  {
    (c as int) - ('0' as int)
  }

  function Digit(d: nat): (c: char)
    requires d < 10
    ensures IsDigit(c) && DigitValue(c) == d
  {
    ('0' as int + d) as char
  }

  /** The digit part `int()` accepts: digits, where single underscores may
      separate two digits. */
  predicate IsDigitRun(s: string) {
    && |s| > 0
    && IsDigit(s[0])
    && IsDigit(s[|s| - 1])
    && (forall i :: 0 <= i < |s| ==> IsDigit(s[i]) || s[i] == '_')
    && (forall i :: 0 <= i < |s| - 1 ==> !DoubleUnderscoreAt(s, i))
  }

  predicate DoubleUnderscoreAt(s: string, i: nat)
    requires i + 1 < |s|
  {
    s[i] == '_' && s[i + 1] == '_'
  }

  /** The value of a run of digits and underscores, the underscores skipped. */
  function RunValue(s: string): nat
    requires forall i :: 0 <= i < |s| ==> IsDigit(s[i]) || s[i] == '_'
  {
    if s == [] then 0
    else if s[|s| - 1] == '_' then RunValue(s[..|s| - 1])
    else RunValue(s[..|s| - 1]) * 10 + DigitValue(s[|s| - 1])
  }

  /** The whitespace `int()` skips around the number: the `str.isspace`
      characters except U+001C..U+001F, which `int()` leaves in place, so that
      they make it raise. */
  predicate IntSpace(c: char) {
    IsSpace(c) && !('\U{1C}' <= c <= '\U{1F}')
  }

  /** The longest prefix of `s` that does not end in `int()` whitespace. */
  function IntTrimEnd(s: string): (r: string)
    ensures r <= s
    ensures forall i :: |r| <= i < |s| ==> IntSpace(s[i])
    ensures r == [] || !IntSpace(r[|r| - 1])
  {
    if s == [] then []
    else if IntSpace(s[|s| - 1]) then IntTrimEnd(s[..|s| - 1])
    else s
  }

  /** The longest suffix of `s` that does not start with `int()` whitespace. */
  function IntTrimStart(s: string): (r: string)
    ensures |r| <= |s| && r == s[|s| - |r|..]
    ensures forall i :: 0 <= i < |s| - |r| ==> IntSpace(s[i])
    ensures r == [] || !IntSpace(r[0])
  {
    if s == [] then []
    else if IntSpace(s[0]) then IntTrimStart(s[1..])
    else s
  }

  /** `int(s)`: surrounding whitespace, an optional sign, then a digit run;
      `None` stands for the ValueError raised on anything else. */
  function ParseInt(s: string): Option<int> {
    ParseStripped(IntTrimStart(IntTrimEnd(s)))
  }

  /** `int()` on text whose surrounding whitespace is already gone. */
  function ParseStripped(t: string): Option<int> {
    if |t| > 0 && (t[0] == '+' || t[0] == '-') then
      if IsDigitRun(t[1..]) then
        var magnitude: int := RunValue(t[1..]);
        Some(if t[0] == '-' then -magnitude else magnitude)
      else None
    else if IsDigitRun(t) then Some(RunValue(t))
    else None
  }

  /** `str(n)` for a natural number: decimal digits, no leading zero. */
  function NatToString(n: nat): (r: string)
    ensures |r| > 0
    ensures forall i :: 0 <= i < |r| ==> IsDigit(r[i])
    ensures r[0] == '0' ==> n == 0
  {
    if n < 10 then [Digit(n)] else NatToString(n / 10) + [Digit(n % 10)]
  }

  /** `str(v)` for an integer: a minus sign in front of a negative value. */
  function IntToString(v: int): (r: string)
    ensures |r| > 0 && (r[0] == '-' <==> v < 0)
    ensures forall i :: (if v < 0 then 1 else 0) <= i < |r| ==> IsDigit(r[i])
  {
    if v < 0 then "-" + NatToString(-v) else NatToString(v)
  }

  lemma {:induction false} NatToStringValue(n: nat)
    ensures RunValue(NatToString(n)) == n
  {
    if n >= 10 {
      var r := NatToString(n);
      assert r[..|r| - 1] == NatToString(n / 10);
      NatToStringValue(n / 10);
    }
  }

  /** `int(str(v)) == v`: the printed volume reads back as the same integer */
  lemma ParseIntToString(v: int)
    ensures ParseInt(IntToString(v)) == Some(v)
  {
    var a: nat := if v < 0 then -v else v;
    NatToStringValue(a);
    if v < 0 {
      SignedDigits(NatToString(a));
      ParseNegative("-" + NatToString(a));
    } else {
      ParseUnsigned(NatToString(a));
    }
  }

  lemma ParseUnsigned(digits: string)
    requires IsDigitRun(digits)
    requires forall i :: 0 <= i < |digits| ==> IsDigit(digits[i])
    ensures ParseInt(digits) == Some(RunValue(digits))
  {
    DigitsAreUnstripped(digits);
    ParseIntOfStripped(digits);
    assert digits[0] != '+' && digits[0] != '-';
  }

  lemma DigitsAreUnstripped(digits: string)
    requires forall i :: 0 <= i < |digits| ==> IsDigit(digits[i])
    ensures IntTrimStart(IntTrimEnd(digits)) == digits
  {
    assert forall i :: 0 <= i < |digits| ==> !IntSpace(digits[i]);
    TrimNoSpace(digits);
  }

  /** text without `int()` whitespace is left alone by both trims */
  lemma TrimNoSpace(s: string)
    requires forall i :: 0 <= i < |s| ==> !IntSpace(s[i])
    ensures IntTrimEnd(s) == s && IntTrimStart(s) == s
  {
  }

  /** a minus sign followed by digits reads as the negated value */
  lemma ParseNegative(t: string)
    requires |t| >= 2 && t[0] == '-'
    requires forall i :: 1 <= i < |t| ==> IsDigit(t[i])
    ensures ParseInt(t) == Some(-(RunValue(t[1..]) as int))
  {
    var d := t[1..];
    assert forall j :: 0 <= j < |d| ==> d[j] == t[j + 1];
    assert IsDigitRun(d);
    assert forall i :: 0 <= i < |t| ==> !IntSpace(t[i]);
    TrimNoSpace(t);
    ParseIntOfStripped(t);
    ParseMinusSign(t);
  }

  lemma SignedDigits(d: string)
    requires |d| > 0 && forall i :: 0 <= i < |d| ==> IsDigit(d[i])
    ensures var t := "-" + d;
            && |t| >= 2 && t[0] == '-' && t[1..] == d
            && forall i :: 1 <= i < |t| ==> IsDigit(t[i])
  {
    var t := "-" + d;
    assert forall i :: 1 <= i < |t| ==> t[i] == d[i - 1];
  }

  lemma ParseMinusSign(t: string)
    requires |t| > 0 && t[0] == '-' && IsDigitRun(t[1..])
    ensures ParseStripped(t) == Some(-(RunValue(t[1..]) as int))
  {
  }

  lemma ParseIntOfStripped(t: string)
    requires IntTrimStart(IntTrimEnd(t)) == t
    ensures ParseInt(t) == ParseStripped(t)
  {
  }

  /** text without a single digit is never a number: `int()` raises */
  lemma ParseIntNeedsDigit(s: string)
    requires forall i :: 0 <= i < |s| ==> !IsDigit(s[i])
    ensures ParseInt(s) == None
  {
    var t := IntTrimStart(IntTrimEnd(s));
    var u := IntTrimEnd(s);
    assert forall i :: 0 <= i < |t| ==> t[i] == s[|u| - |t| + i];
  }

  /** a separator control character in front of the number is not skipped:
      `int()` raises, although `str.isspace` counts the character as whitespace */
  lemma SeparatorBeforeNumber(c: char, digits: string)
    requires '\U{1C}' <= c <= '\U{1F}'
    requires |digits| > 0 && forall i :: 0 <= i < |digits| ==> IsDigit(digits[i])
    ensures IsSpace(c)
    ensures ParseInt([c] + digits) == None
  {
    var t := [c] + digits;
    assert forall i :: 0 <= i < |t| ==> !IntSpace(t[i]);
    TrimNoSpace(t);
  }

  /** `int()` skips its own whitespace on either side of the digits */
  lemma ParseIntSkipsSpaces(pre: string, digits: string, post: string)
    requires forall i :: 0 <= i < |pre| ==> IntSpace(pre[i])
    requires forall i :: 0 <= i < |post| ==> IntSpace(post[i])
    requires |digits| > 0 && forall i :: 0 <= i < |digits| ==> IsDigit(digits[i])
    ensures ParseInt(pre + digits + post) == Some(RunValue(digits))
  {
    var body := pre + digits;
    var whole := body + post;
    assert whole == pre + digits + post;
    assert body[|body| - 1] == digits[|digits| - 1];
    assert !IntSpace(digits[0]) && !IntSpace(body[|body| - 1]);
    TrimEndSpace(body, post);
    TrimStartSpace(pre, digits);
    DigitsParse(digits);
    assert ParseInt(whole) == ParseStripped(IntTrimStart(body));
  }

  lemma DigitsParse(digits: string)
    requires |digits| > 0 && forall i :: 0 <= i < |digits| ==> IsDigit(digits[i])
    ensures ParseStripped(digits) == Some(RunValue(digits))
  {
    assert IsDigitRun(digits);
    assert digits[0] != '+' && digits[0] != '-';
  }

  lemma {:induction false} TrimEndSpace(s: string, post: string)
    requires s != [] && !IntSpace(s[|s| - 1])
    requires forall i :: 0 <= i < |post| ==> IntSpace(post[i])
    ensures IntTrimEnd(s + post) == s
    decreases |post|
  {
    if post == [] {
      assert s + post == s;
    } else {
      var init := post[..|post| - 1];
      assert (s + post)[..|s + post| - 1] == s + init;
      TrimEndSpace(s, init);
    }
  }

  lemma {:induction false} TrimStartSpace(pre: string, t: string)
    requires t != [] && !IntSpace(t[0])
    requires forall i :: 0 <= i < |pre| ==> IntSpace(pre[i])
    ensures IntTrimStart(pre + t) == t
    decreases |pre|
  {
    if pre == [] {
      assert pre + t == t;
    } else {
      assert (pre + t)[1..] == pre[1..] + t;
      TrimStartSpace(pre[1..], t);
    }
  }
}

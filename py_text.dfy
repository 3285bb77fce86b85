/** The few pieces of Python's string behaviour the bot relies on: `strip()`,
    substring `in`, `isdigit()`, `int()` and `str()` of a natural number. */
module PyText {
  import opened Wrappers

  /** Python's `str.isspace()`: the characters `strip()` removes and the regular
      expression class `\s` matches. */
  predicate IsSpace(c: char) {
    c == ' ' || ('\t' <= c <= '\r') || ('\U{1C}' <= c <= '\U{1F}') || c == '\U{85}' || c == '\U{A0}'
    || c == '\U{1680}' || ('\U{2000}' <= c <= '\U{200A}') || c == '\U{2028}' || c == '\U{2029}'
    || c == '\U{202F}' || c == '\U{205F}' || c == '\U{3000}'
  }

  predicate AllSpace(s: string) {
    forall i :: 0 <= i < |s| ==> IsSpace(s[i])
  }

  /** `s.lstrip()`. */
  function StripLeft(s: string): string
  {
    if |s| > 0 && IsSpace(s[0]) then StripLeft(s[1..]) else s
  }

  /** `s.rstrip()`. */
  function StripRight(s: string): string
  {
    if |s| > 0 && IsSpace(s[|s| - 1]) then StripRight(s[..|s| - 1]) else s
  }

  /** `s.strip()`: `s` without its leading and trailing whitespace. */
  function Strip(s: string): string
  {
    StripRight(StripLeft(s))
  }

  /** `lstrip` keeps a suffix, cuts only whitespace, and leaves no leading whitespace. */
  lemma {:induction false} StripLeftSpec(s: string)
    ensures var r := StripLeft(s);
            |r| <= |s| && r == s[|s| - |r|..] && AllSpace(s[..|s| - |r|]) && (r == [] || !IsSpace(r[0]))
  {
    if |s| > 0 && IsSpace(s[0]) {
      StripLeftSpec(s[1..]);
      var r := StripLeft(s);
      assert s[..|s| - |r|] == [s[0]] + s[1..][..|s| - 1 - |r|];
    }
  }

  /** `rstrip` keeps a prefix, cuts only whitespace, and leaves no trailing whitespace. */
  lemma {:induction false} StripRightSpec(s: string)
    ensures var r := StripRight(s);
            |r| <= |s| && r == s[..|r|] && AllSpace(s[|r|..]) && (r == [] || !IsSpace(r[|r| - 1]))
  {
    if |s| > 0 && IsSpace(s[|s| - 1]) {
      StripRightSpec(s[..|s| - 1]);
      var r := StripRight(s);
      assert s[|r|..] == s[..|s| - 1][|r|..] + [s[|s| - 1]];
    }
  }

  /** `strip()` returns a slice of `s`, everything cut off is whitespace, and
      neither end of the result is whitespace. */
  lemma StripSpec(s: string)
    ensures var r := Strip(s);
            (exists i, j :: 0 <= i <= j <= |s| && r == s[i..j] && AllSpace(s[..i]) && AllSpace(s[j..]))
            && (r == [] || (!IsSpace(r[0]) && !IsSpace(r[|r| - 1])))
  {
    var left := StripLeft(s);
    StripLeftSpec(s);
    var r := StripRight(left);
    StripRightSpec(left);
    var i := |s| - |left|;
    assert r == s[i..i + |r|];
    assert s[i + |r|..] == left[|r|..];
    if r != [] {
      assert r[0] == left[0];
    }
  }

  /** Python's `sub in s` on strings. */
  predicate Contains(s: string, sub: string) {
    exists i :: 0 <= i <= |s| && sub <= s[i..]
  }

  predicate IsDigit(c: char) {
    '0' <= c <= '9'
  }

  /** `s.isdigit()` for ASCII digits: non-empty and every character a digit. */
  predicate IsDigitString(s: string) {
    |s| > 0 && forall i :: 0 <= i < |s| ==> IsDigit(s[i])
  }

  function DigitValue(c: char): nat
    requires IsDigit(c)
  {
    (c - '0') as nat
  }

  /** `int(s)` for a string of ASCII digits (leading zeros allowed). */
  function DigitsValue(s: string): nat
    requires forall i :: 0 <= i < |s| ==> IsDigit(s[i])
  {
    if |s| == 0 then 0 else DigitsValue(s[..|s| - 1]) * 10 + DigitValue(s[|s| - 1])
  }

  function DigitChar(d: nat): (c: char)
    requires d < 10
    ensures IsDigit(c) && DigitValue(c) == d
  {
    ('0' as int + d) as char
  }

  /** `str(n)` for a natural number: decimal digits without leading zeros. */
  function IntString(n: nat): string
  {
    if n < 10 then [DigitChar(n)] else IntString(n / 10) + [DigitChar(n % 10)]
  }

  /** `str` and `int` are inverse on naturals: `int(str(n)) == n`, and `str(n)`
      passes `isdigit()`. */
  lemma {:induction false} IntStringRoundTrip(n: nat)
    ensures IsDigitString(IntString(n))
    ensures DigitsValue(IntString(n)) == n
  {
    if n >= 10 {
      IntStringRoundTrip(n / 10);
      var s := IntString(n);
      assert s[..|s| - 1] == IntString(n / 10);
    }
  }

  /** `str(n)` never starts with a zero unless it is "0". */
  lemma {:induction false} IntStringNoLeadingZero(n: nat)
    ensures |IntString(n)| > 0
    ensures IntString(n)[0] == '0' <==> n == 0
  {
    if n >= 10 {
      IntStringNoLeadingZero(n / 10);
    }
  }

  /** Python's `int(s)` on a string: surrounding whitespace is ignored, one
      optional sign, then at least one ASCII digit; anything else is a
      ValueError, modelled as `None`. */
  function ParseInt(s: string): Option<int>
  {
    var t := Strip(s);
    if |t| > 0 && (t[0] == '+' || t[0] == '-') then
      if IsDigitString(t[1..]) then
        Some(if t[0] == '-' then 0 - DigitsValue(t[1..]) as int else DigitsValue(t[1..]) as int)
      else None
    else if IsDigitString(t) then Some(DigitsValue(t))
    else None
  }

  /** Every natural number written out by `str` reads back through `int`. */
  lemma ParseIntOfIntString(n: nat)
    ensures ParseInt(IntString(n)) == Some(n)
  {
    IntStringRoundTrip(n);
    var s := IntString(n);
    assert IsDigit(s[0]) && IsDigit(s[|s| - 1]);
    StripOfUnpadded(s);
    assert s[0] != '+' && s[0] != '-';
  }

  lemma StripOfUnpadded(s: string)
    requires |s| > 0 && !IsSpace(s[0]) && !IsSpace(s[|s| - 1])
    ensures Strip(s) == s
  {
    assert StripLeft(s) == s;
    assert StripRight(s) == s;
  }
}

/** The few Python string built-ins the bot relies on: `str.strip()`,
    `str.isdigit()`, `int(str)` and `str(int)`, restricted to ASCII digits. */
module PyText {
  import opened Options

  /** Python's `str.isspace()` for a single character. */
  predicate IsSpace(c: char) {
    var n := c as int;
    || (0x09 <= n <= 0x0D)
    || (0x1C <= n <= 0x20)
    || n == 0x85 || n == 0xA0 || n == 0x1680
    || (0x2000 <= n <= 0x200A)
    || n == 0x2028 || n == 0x2029 || n == 0x202F || n == 0x205F || n == 0x3000
  }

  predicate IsDigit(c: char) {
    '0' <= c <= '9'
  }

  /** Number of whitespace characters at the front of `s`. */
  function LeadingSpaces(s: string): (n: nat)
    ensures n <= |s|
    ensures forall k :: 0 <= k < n ==> IsSpace(s[k])
    ensures n < |s| ==> !IsSpace(s[n])
  {
    if |s| == 0 || !IsSpace(s[0]) then 0 else 1 + LeadingSpaces(s[1..])
  }

  /** Number of whitespace characters at the back of `s`. */
  function TrailingSpaces(s: string): (n: nat)
    ensures n <= |s|
    ensures forall k :: |s| - n <= k < |s| ==> IsSpace(s[k])
    ensures n < |s| ==> !IsSpace(s[|s| - 1 - n])
  {
    if |s| == 0 || !IsSpace(s[|s| - 1]) then 0 else 1 + TrailingSpaces(s[..|s| - 1])
  }

  /** True when `s` neither starts nor ends with whitespace. */
  predicate Trimmed(s: string) {
    |s| == 0 || (!IsSpace(s[0]) && !IsSpace(s[|s| - 1]))
  }

  /** `r` is the slice of `s` starting at `i`, and everything of `s` around it is whitespace. */
  predicate CoreAt(s: string, r: string, i: int) {
    && 0 <= i <= |s| - |r|
    && r == s[i..i + |r|]
    && (forall k :: 0 <= k < i ==> IsSpace(s[k]))
    && (forall k :: i + |r| <= k < |s| ==> IsSpace(s[k]))
  }

  /** Python's `str.strip()` with no argument: the slice of `s` left after
      dropping every leading and every trailing whitespace character. */
  function Strip(s: string): (r: string)
    ensures Trimmed(r)
    ensures exists i :: CoreAt(s, r, i)
  {
    var i := LeadingSpaces(s);
    var t := s[i..];
    var j := TrailingSpaces(t);
    var r := t[..|t| - j];
    assert r == s[i..i + |r|];
    assert forall k :: i + |r| <= k < |s| ==> s[k] == t[k - i];
    assert CoreAt(s, r, i);
    r
  }

  /** Stripping a string that already has no whitespace at either end changes nothing. */
  lemma StripTrimmed(s: string)
    requires Trimmed(s)
    ensures Strip(s) == s
  {
  }

  /** `strip()` is idempotent. */
  lemma StripIdempotent(s: string)
    ensures Strip(Strip(s)) == Strip(s)
  {
  }

  /** The body `int()` accepts after the sign: digits, with single underscores
      allowed only between two digits. */
  predicate DigitRun(b: string) {
    && |b| > 0
    && IsDigit(b[0])
    && IsDigit(b[|b| - 1])
    && (forall k :: 0 <= k < |b| ==> IsDigit(b[k]) || b[k] == '_')
    && (forall k :: 0 <= k < |b| - 1 ==> !(b[k] == '_' && b[k + 1] == '_'))
  }

  /** Python's `str.isdigit()`, restricted to the ASCII digits. A string it
      accepts has nothing for `strip()` to remove and is a numeral `int()`
      reads without a sign. */
  predicate IsDigitString(s: string): (b: bool)
    ensures b ==> Trimmed(s) && DigitRun(s)
  {
    |s| > 0 && forall k :: 0 <= k < |s| ==> IsDigit(s[k])
  }

  /** The decimal value of the digits in `b`, underscores skipped. */
  function DigitsValue(b: string): nat {
    if |b| == 0 then 0
    else
      var c := b[|b| - 1];
      if IsDigit(c) then 10 * DigitsValue(b[..|b| - 1]) + (c as int - '0' as int)
      else DigitsValue(b[..|b| - 1])
  }

  predicate IsSign(c: char) {
    c == '+' || c == '-'
  }

  /** The grammar `int()` accepts once whitespace is stripped: `[+-]?` then a digit run. */
  predicate Numeral(t: string) {
    DigitRun(t) || (|t| > 0 && IsSign(t[0]) && DigitRun(t[1..]))
  }

  /** The value a numeral denotes. */
  function SignedValue(t: string): int
    requires Numeral(t)
  {
    if IsSign(t[0]) then
      (if t[0] == '-' then -1 else 1) * DigitsValue(t[1..])
    else DigitsValue(t)
  }

  /** Python's `int(s)` in base 10: surrounding whitespace is ignored, one
      optional sign, then a digit run; anything else raises, modelled as None. */
  function ParseInt(s: string): (r: Option<int>)
    ensures r.Some? <==> Numeral(Strip(s))
    ensures r.Some? ==> r.value == SignedValue(Strip(s))
    ensures IsDigitString(s) ==> r == Some(DigitsValue(s))
  {
    var t := Strip(s);
    if IsDigitString(s) then
      StripTrimmed(s);
      Some(DigitsValue(s))
    else if |t| > 0 && IsSign(t[0]) then
      if DigitRun(t[1..]) then
        assert forall k :: 1 <= k < |t| ==> t[k] == t[1..][k - 1];
        var v: int := DigitsValue(t[1..]);
        Some(if t[0] == '-' then -v else v)
      else None
    else if DigitRun(t) then
      Some(DigitsValue(t))
    else None
  }

  function DigitChar(d: nat): (c: char)
    requires d < 10
    ensures IsDigit(c) && c as int - '0' as int == d
  {
    ('0' as int + d) as char
  }

  /** Python's `str(n)` for a non-negative integer. */
  function ShowNat(n: nat): string {
    if n < 10 then [DigitChar(n)] else ShowNat(n / 10) + [DigitChar(n % 10)]
  }

  /** Python's `str(n)`. */
  function ShowInt(n: int): string {
    if n < 0 then "-" + ShowNat(-n) else ShowNat(n)
  }

  /** The decimal rendering of a natural number is a plain digit string that denotes it. */
  lemma {:induction false} ShowNatDenotes(n: nat)
    ensures IsDigitString(ShowNat(n))
    ensures DigitsValue(ShowNat(n)) == n
  {
    if n >= 10 {
      ShowNatDenotes(n / 10);
      var s := ShowNat(n);
      assert s[..|s| - 1] == ShowNat(n / 10);
    }
  }

  /** The printed form of a negative integer: a minus sign, then the digits. */
  lemma ShowNegativeIsNumeral(n: int)
    requires n < 0
    ensures Trimmed(ShowInt(n))
    ensures Numeral(ShowInt(n)) && SignedValue(ShowInt(n)) == n
  {
    ShowNatDenotes(-n);
    var s := ShowInt(n);
    var d := ShowNat(-n);
    assert s[0] == '-';
    assert s[1..] == d;
    assert s[|s| - 1] == d[|d| - 1];
    assert IsDigitString(d);
  }

  /** `int(str(n)) == n`: the argument parser reads back every integer the bot prints. */
  lemma ParseShowRoundTrip(n: int)
    ensures ParseInt(ShowInt(n)) == Some(n)
  {
    var s := ShowInt(n);
    if n < 0 {
      ShowNegativeIsNumeral(n);
      StripTrimmed(s);
      assert Strip(s) == s;
    } else {
      ShowNatDenotes(n);
      assert IsDigitString(s);
    }
  }

  /** On a string with no surrounding whitespace, `int()` succeeds exactly on numerals. */
  lemma ParseTrimmed(t: string)
    requires Trimmed(t)
    ensures ParseInt(t) == (if Numeral(t) then Some(SignedValue(t)) else None)
  {
    StripTrimmed(t);
  }

  /** `int()` ignores padding and accepts one sign. */
  lemma ParseAcceptsPaddedSign()
    ensures ParseInt(" +5 ") == Some(5)
  {
    var s := " +5 ";
    assert LeadingSpaces(s) == 1 by {
      assert IsSpace(s[0]) && !IsSpace(s[1]);
      assert s[1..][0] == '+';
    }
    assert TrailingSpaces(s[1..]) == 1 by {
      var t := s[1..];
      assert t == "+5 ";
      assert IsSpace(t[2]);
      assert t[..2] == "+5";
    }
    assert Strip(s) == "+5";
    assert Numeral("+5") by { assert "+5"[1..] == "5"; }
    assert SignedValue("+5") == 5 by { assert "+5"[1..] == "5"; }
  }

  lemma ParseAcceptsNegativeZero()
    ensures ParseInt("-0") == Some(0)
  {
    assert "-0"[1..] == "0";
    ParseTrimmed("-0");
  }

  /** `int()` skips single underscores between digits. */
  lemma ParseAcceptsUnderscores()
    ensures ParseInt("1_000") == Some(1000)
  {
    var t := "1_000";
    assert DigitRun(t);
    assert DigitsValue(t) == 1000 by {
      assert t[..4] == "1_00";
      assert "1_00"[..3] == "1_0";
      assert "1_0"[..2] == "1_";
      assert "1_"[..1] == "1";
    }
    ParseTrimmed(t);
  }

  lemma ParseRefusesDoubleUnderscore()
    ensures ParseInt("1__0") == None
  {
    var t := "1__0";
    assert t[1] == '_' && t[2] == '_';
    assert !Numeral(t);
    ParseTrimmed(t);
  }

  lemma ParseRefusesDoubleSign()
    ensures ParseInt("--1") == None
  {
    var t := "--1";
    assert t[1..][0] == '-';
    assert !Numeral(t);
    ParseTrimmed(t);
  }

  lemma ParseRefusesInnerSign()
    ensures ParseInt("1-2") == None
  {
    var t := "1-2";
    assert t[1] == '-';
    assert !Numeral(t);
    ParseTrimmed(t);
  }

  lemma ParseRefusesSpaceAfterSign()
    ensures ParseInt("- 1") == None
  {
    var t := "- 1";
    assert t[1..][0] == ' ';
    assert !Numeral(t);
    ParseTrimmed(t);
  }
}

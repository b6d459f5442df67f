/**
 * The few pieces of Python's string handling that the controller relies on:
 * `str.strip`, `str.split(sep)[0]`, slicing, `str.endswith`, `str.join`,
 * `'%d' % n`, `format(n, '5d')` and `int(text)`.
 */
module PyText {
  import opened Wrappers

  /**
   * The ASCII characters `str.strip` and `int` treat as whitespace: space,
   * \t, \n, \v, \f, \r and the separators U+001C to U+001F. The non-ASCII
   * whitespace Python also strips is not included.
   */
  predicate IsSpace(c: char) {
    c == ' ' || '\t' <= c <= '\r' || 28 as char <= c <= 31 as char
  }

  predicate IsDigit(c: char) {
    '0' <= c <= '9'
  }

  predicate AllDigits(s: string) {
    forall i :: 0 <= i < |s| ==> IsDigit(s[i])
  }

  function DigitValue(c: char): nat
    requires IsDigit(c)
  {
    c as int - '0' as int
  }

  function DigitChar(d: nat): (c: char)
    requires d < 10
    ensures IsDigit(c) && DigitValue(c) == d
  {
    ('0' as int + d) as char
  }

  /** `s.lstrip()` */
  function StripLeft(s: string): string
  {
    if s != [] && IsSpace(s[0]) then StripLeft(s[1..]) else s
  }

  /** `s.rstrip()` */
  function StripRight(s: string): string
  {
    if s != [] && IsSpace(s[|s| - 1]) then StripRight(s[..|s| - 1]) else s
  }

  /** `s.strip()` */
  function Strip(s: string): string {
    StripRight(StripLeft(s))
  }

  /** `lstrip` removes exactly the leading whitespace. */
  lemma {:induction false} StripLeftSpec(s: string)
    ensures var r := StripLeft(s);
            |r| <= |s| && r == s[|s| - |r|..] && (r == [] || !IsSpace(r[0])) &&
            forall i :: 0 <= i < |s| - |r| ==> IsSpace(s[i])
  {
    if s != [] && IsSpace(s[0]) {
      var t := s[1..];
      StripLeftSpec(t);
      var r := StripLeft(t);
      assert StripLeft(s) == r;
      assert r == s[|s| - |r|..] by {
        assert t[|t| - |r|..] == s[|s| - |r|..];
      }
      forall i | 0 <= i < |s| - |r|
        ensures IsSpace(s[i])
      {
        if i > 0 {
          assert s[i] == t[i - 1];
        }
      }
    }
  }

  /** `rstrip` removes exactly the trailing whitespace. */
  lemma {:induction false} StripRightSpec(s: string)
    ensures var r := StripRight(s);
            |r| <= |s| && r == s[..|r|] && (r == [] || !IsSpace(r[|r| - 1])) &&
            forall i :: |r| <= i < |s| ==> IsSpace(s[i])
  {
    if s != [] && IsSpace(s[|s| - 1]) {
      StripRightSpec(s[..|s| - 1]);
    }
  }

  /** `strip` only removes characters: whatever it returns was in its argument. */
  lemma StripKeeps(s: string, c: char)
    requires c in Strip(s)
    ensures c in s
  {
    StripLeftSpec(s);
    StripRightSpec(StripLeft(s));
    var l := StripLeft(s);
    var r := Strip(s);
    var j :| 0 <= j < |r| && r[j] == c;
    assert l[j] == c;
    assert s[|s| - |l| + j] == c;
  }

  /** A string that neither starts nor ends with whitespace is left alone by `strip`. */
  lemma StripUnchanged(s: string)
    requires s == [] || (!IsSpace(s[0]) && !IsSpace(s[|s| - 1]))
    ensures Strip(s) == s
  {
  }

  /** Leading blanks never survive `strip`. */
  lemma {:induction false} StripAfterSpaces(n: nat, s: string)
    ensures StripLeft(Spaces(n) + s) == StripLeft(s)
  {
    if n > 0 {
      var t := Spaces(n) + s;
      assert t[0] == ' ';
      assert t[1..] == Spaces(n - 1) + s;
      calc {
        StripLeft(t);
        StripLeft(t[1..]);
        { StripAfterSpaces(n - 1, s); }
        StripLeft(s);
      }
    } else {
      assert Spaces(n) + s == s;
    }
  }

  function Spaces(n: nat): (r: string)
    ensures |r| == n && forall i :: 0 <= i < n ==> r[i] == ' '
  {
    if n == 0 then "" else " " + Spaces(n - 1)
  }

  /** `s.split(sep)[0]`: everything before the first `sep`, or all of `s`. */
  function BeforeFirst(s: string, sep: char): string
  {
    if s == [] || s[0] == sep then "" else [s[0]] + BeforeFirst(s[1..], sep)
  }

  /** `s.split(sep)[0]` is the longest prefix of `s` without `sep`. */
  lemma {:induction false} BeforeFirstSpec(s: string, sep: char)
    ensures var r := BeforeFirst(s, sep);
            |r| <= |s| && r == s[..|r|] && sep !in r && (|r| < |s| ==> s[|r|] == sep)
  {
    if s != [] && s[0] != sep {
      BeforeFirstSpec(s[1..], sep);
    }
  }

  /** The slice `s[k:]` for k >= 0, which is empty when `s` is shorter than k. */
  function Drop(s: string, k: nat): string
  {
    if |s| <= k then "" else s[k..]
  }

  /** `s.endswith(suffix)` */
  predicate EndsWith(s: string, suffix: string) {
    |suffix| <= |s| && s[|s| - |suffix|..] == suffix
  }

  /** `sep.join(parts)` */
  function Join(sep: string, parts: seq<string>): string
  {
    if |parts| == 0 then ""
    else if |parts| == 1 then parts[0]
    else parts[0] + sep + Join(sep, parts[1..])
  }

  /** Value of a string of decimal digits, most significant first. */
  function DigitsValue(s: string): nat
    requires AllDigits(s)
  {
    if s == [] then 0 else DigitsValue(s[..|s| - 1]) * 10 + DigitValue(s[|s| - 1])
  }

  /** `'%d' % n` for n >= 0: the shortest decimal numeral. */
  function NatToDecimal(n: nat): (s: string)
    ensures s != [] && AllDigits(s)
    ensures |s| > 1 ==> s[0] != '0'
  {
    if n < 10 then [DigitChar(n)] else NatToDecimal(n / 10) + [DigitChar(n % 10)]
  }

  /** `'%d' % i` and `str(i)` for any int: a minus sign in front of negatives. */
  function IntToDecimal(i: int): string
  {
    if i < 0 then "-" + NatToDecimal(-i) else NatToDecimal(i)
  }

  /** A numeral has no blanks around it; only negatives start with a minus sign. */
  lemma IntToDecimalShape(i: int)
    ensures var s := IntToDecimal(i);
            s != [] && !IsSpace(s[0]) && !IsSpace(s[|s| - 1]) &&
            (i >= 0 ==> AllDigits(s)) &&
            (i < 0 ==> s[0] == '-' && AllDigits(s[1..]))
  {
    if i < 0 {
      assert IntToDecimal(i)[1..] == NatToDecimal(-i);
    }
  }

  /** `format(i, '5d')`: the numeral right-aligned in a field of at least five characters. */
  function FormatD5(i: int): string
  {
    PadLeft(IntToDecimal(i), 5)
  }

  /** `s.rjust(width)`: blanks in front of `s` up to `width` characters. */
  function PadLeft(s: string, width: nat): (r: string)
    ensures |r| == if |s| < width then width else |s|
    ensures r[|r| - |s|..] == s
    ensures forall k :: 0 <= k < |r| - |s| ==> r[k] == ' '
  {
    Spaces(if |s| < width then width - |s| else 0) + s
  }

  /**
   * `int(text)` for base 10: surrounding whitespace, an optional sign and at
   * least one digit; anything else is Python's ValueError, here `None`.
   */
  function ParseInt(text: string): Option<int>
  {
    ParseNumeral(Strip(text))
  }

  /** `int` once the surrounding whitespace is gone. */
  function ParseNumeral(t: string): Option<int>
  {
    if t != [] && (t[0] == '+' || t[0] == '-') then
      var d := t[1..];
      if d != [] && AllDigits(d) then
        var v: int := DigitsValue(d);
        Some(if t[0] == '-' then -v else v)
      else None
    else if t != [] && AllDigits(t) then Some(DigitsValue(t))
    else None
  }

  /** Reading a numeral back gives the number it was written from. */
  lemma {:induction false} DecimalRoundTrip(n: nat)
    ensures DigitsValue(NatToDecimal(n)) == n
  {
    if n >= 10 {
      var s := NatToDecimal(n);
      assert s[..|s| - 1] == NatToDecimal(n / 10);
      DecimalRoundTrip(n / 10);
    }
  }

  /** `int('%d' % i) == i` */
  lemma IntRoundTrip(i: int)
    ensures ParseInt(IntToDecimal(i)) == Some(i)
  {
    var s := IntToDecimal(i);
    IntToDecimalShape(i);
    StripUnchanged(s);
    if i < 0 {
      assert s[1..] == NatToDecimal(-i);
      DecimalRoundTrip(-i);
    } else {
      DecimalRoundTrip(i);
    }
  }

  /** `int(format(i, '5d')) == i`: the padding of a log column never changes its value. */
  lemma FormatD5RoundTrip(i: int)
    ensures ParseInt(FormatD5(i)) == Some(i)
  {
    var s := IntToDecimal(i);
    var n := if |s| < 5 then 5 - |s| else 0;
    assert FormatD5(i) == Spaces(n) + s;
    StripAfterSpaces(n, s);
    assert Strip(FormatD5(i)) == Strip(s);
    IntRoundTrip(i);
  }
}

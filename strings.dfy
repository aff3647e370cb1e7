/**
 * The few string operations the model needs: decimal rendering of integers (Python's
 * `str` and zero-padded `strftime` fields), the inverse parse (Python's `int`), suffix
 * tests and `str.split` on one separator character.
 */
module Strings {
  import opened Wrappers

  predicate IsDigit(c: char)
  {
    '0' <= c <= '9'
  }

  predicate AllDigits(s: string)
  {
    forall i :: 0 <= i < |s| ==> IsDigit(s[i])
  }

  function DigitChar(d: nat): (c: char)
    requires d < 10
    ensures IsDigit(c) && (c as int) - ('0' as int) == d
  {
    ('0' as int + d) as char
  }

  function DigitValue(c: char): (d: nat)
    requires IsDigit(c)
    ensures d < 10 && DigitChar(d) == c
  {
    (c as int) - ('0' as int)
  }

  function Pow10(e: nat): (p: nat)
    ensures p >= 1
  {
    if e == 0 then 1 else 10 * Pow10(e - 1)
  }

  /** The last `width` decimal digits of n, most significant first. */
  function Digits(n: nat, width: nat): (s: string)
    ensures |s| == width && AllDigits(s)
  {
    if width == 0 then "" else Digits(n / 10, width - 1) + [DigitChar(n % 10)]
  }

  /** The number a string of decimal digits denotes. */
  function DigitsValue(s: string): (n: nat)
    requires AllDigits(s)
    ensures n < Pow10(|s|)
  {
    if |s| == 0 then 0 else 10 * DigitsValue(s[..|s| - 1]) + DigitValue(s[|s| - 1])
  }

  /** Reading back `width` digits gives n exactly when n fits in that many digits. */
  lemma {:induction false} DigitsRoundTrip(n: nat, width: nat)
    requires n < Pow10(width)
    ensures DigitsValue(Digits(n, width)) == n
  {
    if width > 0 {
      var s := Digits(n, width);
      assert s[..|s| - 1] == Digits(n / 10, width - 1);
      DigitsRoundTrip(n / 10, width - 1);
    }
  }

  /** Number of decimal digits of n, at least one. */
  function DigitCount(n: nat): (k: nat)
    ensures k >= 1 && n < Pow10(k)
    ensures k > 1 ==> n >= Pow10(k - 1)
  {
    if n < 10 then 1 else 1 + DigitCount(n / 10)
  }

  /** Python's `str(n)` for a natural number: no leading zeros. */
  function NatToString(n: nat): string
  {
    Digits(n, DigitCount(n))
  }

  /** `str(n)` reads back as n, so distinct numbers print differently. */
  lemma NatToStringInjective(m: nat, n: nat)
    ensures DigitsValue(NatToString(n)) == n
    ensures NatToString(m) == NatToString(n) ==> m == n
  {
    DigitsRoundTrip(m, DigitCount(m));
    DigitsRoundTrip(n, DigitCount(n));
  }

  /** A `%0wd` field: zero-padded to `width`, or longer when n needs more digits. */
  function Pad(n: nat, width: nat): (s: string)
    ensures |s| >= width && AllDigits(s)
  {
    if DigitCount(n) >= width then NatToString(n) else Digits(n, width)
  }

  /** A field that fits is exactly `width` characters long. */
  lemma PadWidth(n: nat, width: nat)
    requires width >= 1 && n < Pow10(width)
    ensures |Pad(n, width)| == width
  {
    var k := DigitCount(n);
    if k > width {
      PowMono(width, k - 1);
    }
  }

  lemma PadRoundTrip(n: nat, width: nat)
    ensures DigitsValue(Pad(n, width)) == n
  {
    if DigitCount(n) >= width {
      DigitsRoundTrip(n, DigitCount(n));
    } else {
      PowMono(DigitCount(n), width);
      DigitsRoundTrip(n, width);
    }
  }

  lemma {:induction false} PowMono(a: nat, b: nat)
    requires a <= b
    ensures Pow10(a) <= Pow10(b)
  {
    if a < b {
      PowMono(a, b - 1);
    }
  }

  /** Python's `str(i)` for any integer. */
  function IntToString(i: int): string
  {
    if i < 0 then "-" + NatToString(-i) else NatToString(i)
  }

  predicate IsSpace(c: char)
  {
    c == ' ' || c == '\t' || c == '\n' || c == '\r' || c == 11 as char || c == 12 as char
  }

  /** `s.strip()` for ASCII whitespace. */
  function Strip(s: string): (r: string)
    ensures |r| <= |s|
    ensures |r| > 0 ==> !IsSpace(r[0]) && !IsSpace(r[|r| - 1])
    decreases |s|
  {
    if |s| > 0 && IsSpace(s[0]) then Strip(s[1..])
    else if |s| > 0 && IsSpace(s[|s| - 1]) then Strip(s[..|s| - 1])
    else s
  }

  /** Python's `int(s)` on ASCII input: optional surrounding whitespace, an optional sign
      and at least one digit; anything else is the ValueError, here None. */
  function ParseInt(s: string): (r: Option<int>)
    ensures r.Some? ==> |Strip(s)| > 0
  {
    var t := Strip(s);
    if |t| > 0 && (t[0] == '-' || t[0] == '+') then
      var body := t[1..];
      if |body| > 0 && AllDigits(body) then
        var v: int := DigitsValue(body);
        Some(if t[0] == '-' then -v else v)
      else None
    else if |t| > 0 && AllDigits(t) then Some(DigitsValue(t))
    else None
  }

  lemma StripClean(s: string)
    requires |s| > 0 && !IsSpace(s[0]) && !IsSpace(s[|s| - 1])
    ensures Strip(s) == s
  {
  }

  lemma StripDigits(s: string)
    requires |s| > 0 && AllDigits(s)
    ensures Strip(s) == s
  {
    StripClean(s);
  }

  lemma ParseUnsigned(d: string)
    requires |d| > 0 && AllDigits(d)
    ensures ParseInt(d) == Some(DigitsValue(d) as int)
  {
    StripDigits(d);
    assert IsDigit(d[0]);
  }

  lemma ParseSigned(d: string)
    requires |d| > 0 && AllDigits(d)
    ensures ParseInt("-" + d) == Some(-(DigitsValue(d) as int))
  {
    var s := "-" + d;
    assert s[|s| - 1] == d[|d| - 1];
    StripClean(s);
    assert s[1..] == d;
  }

  /** `int(str(i)) == i`. */
  lemma ParseIntRoundTrip(i: int)
    ensures ParseInt(IntToString(i)) == Some(i)
  {
    if i < 0 {
      var d := NatToString(-i);
      DigitsRoundTrip(-i, DigitCount(-i));
      assert DigitsValue(d) == -i;
      ParseSigned(d);
      assert IntToString(i) == "-" + d;
    } else {
      var d := NatToString(i);
      DigitsRoundTrip(i, DigitCount(i));
      assert DigitsValue(d) == i;
      ParseUnsigned(d);
      assert IntToString(i) == d;
    }
  }

  /** An input that is not a number is rejected. */
  lemma ParseIntRejects(s: string)
    requires forall i :: 0 <= i < |s| ==> !IsDigit(s[i])
    ensures ParseInt(s) == None
  {
    var t := Strip(s);
    if |t| > 0 {
      StripSub(s);
      assert !IsDigit(t[|t| - 1]);
    }
  }

  /** Stripping keeps a contiguous piece of the input. */
  lemma {:induction false} StripSub(s: string)
    ensures forall k :: 0 <= k < |Strip(s)| ==> Strip(s)[k] in s
    decreases |s|
  {
    if |s| > 0 && IsSpace(s[0]) {
      StripSub(s[1..]);
      forall k | 0 <= k < |Strip(s)| ensures Strip(s)[k] in s {
        assert Strip(s)[k] in s[1..];
      }
    } else if |s| > 0 && IsSpace(s[|s| - 1]) {
      StripSub(s[..|s| - 1]);
      forall k | 0 <= k < |Strip(s)| ensures Strip(s)[k] in s {
        assert Strip(s)[k] in s[..|s| - 1];
      }
    }
  }

  predicate EndsWith(s: string, suffix: string)
  {
    |suffix| <= |s| && s[|s| - |suffix|..] == suffix
  }

  lemma EndsWithAppend(s: string, suffix: string)
    ensures EndsWith(s + suffix, suffix)
  {
    assert (s + suffix)[|s|..] == suffix;
  }

  /** Appending the same suffix keeps different strings different. */
  lemma AppendCancel(a: string, b: string, suffix: string)
    requires a + suffix == b + suffix
    ensures a == b
  {
    assert |a| == |b|;
    assert a == (a + suffix)[..|a|];
    assert b == (b + suffix)[..|b|];
  }

  /** Position of the first occurrence of c. */
  function IndexOf(s: string, c: char): (i: nat)
    requires c in s
    ensures i < |s| && s[i] == c && c !in s[..i]
  {
    if s[0] == c then 0
    else
      assert c in s[1..] by {
        var j :| 0 <= j < |s| && s[j] == c;
        assert s[1..][j - 1] == c;
      }
      var k := IndexOf(s[1..], c);
      assert s[..k + 1] == [s[0]] + s[1..][..k];
      k + 1
  }

  /** Python's `s.split(sep)` for a one-character separator. */
  function Split(s: string, sep: char): (r: seq<string>)
    ensures |r| >= 1
    decreases |s|
  {
    if sep !in s then [s]
    else
      var i := IndexOf(s, sep);
      [s[..i]] + Split(s[i + 1..], sep)
  }

  lemma SplitPrefix(a: string, sep: char, rest: string)
    requires sep !in a
    ensures Split(a + [sep] + rest, sep) == [a] + Split(rest, sep)
  {
    var s := a + [sep] + rest;
    assert s[|a|] == sep;
    var i := IndexOf(s, sep);
    if i < |a| {
      assert false;
    } else if i > |a| {
      assert false;
    }
    assert s[..i] == a;
    assert s[i + 1..] == rest;
  }
  /** A string without the separator splits into itself. */
  lemma SplitWhole(s: string, sep: char)
    requires sep !in s
    ensures Split(s, sep) == [s]
  {
  }

  lemma SplitTwo(c: string, d: string, sep: char)
    requires sep !in c && sep !in d
    ensures var r := Split(c + [sep] + d, sep); |r| == 2 && r[0] == c && r[1] == d
  {
    SplitWhole(d, sep);
    SplitPrefix(c, sep, d);
  }

  lemma SplitThree(b: string, c: string, d: string, sep: char)
    requires sep !in b && sep !in c && sep !in d
    ensures var r := Split(b + [sep] + (c + [sep] + d), sep); |r| == 3 && r[0] == b && r[1] == c && r[2] == d
  {
    SplitTwo(c, d, sep);
    SplitPrefix(b, sep, c + [sep] + d);
  }

  /** Four fields without the separator, joined by it, split back into the four fields. */
  lemma SplitFour(a: string, b: string, c: string, d: string, sep: char)
    requires sep !in a && sep !in b && sep !in c && sep !in d
    ensures var r := Split(a + [sep] + (b + [sep] + (c + [sep] + d)), sep);
      |r| == 4 && r[0] == a && r[1] == b && r[2] == c && r[3] == d
  {
    SplitThree(b, c, d, sep);
    SplitPrefix(a, sep, b + [sep] + (c + [sep] + d));
  }

}

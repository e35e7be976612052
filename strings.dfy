/**
 * Text helpers with Python's meaning: `str()` of numbers, ASCII `lower()`/`upper()`,
 * the `in` test on strings and `str.replace(pat, '')`.
 */
module Strings {

  import opened Wrappers

  // ---------------------------------------------------------------------------
  // Decimal digits
  // ---------------------------------------------------------------------------

  predicate IsDigit(c: char) {
    '0' <= c <= '9'
  }

  predicate AllDigits(s: string) {
    forall i | 0 <= i < |s| :: IsDigit(s[i])
  }

  function DigitChar(d: nat): (c: char)
    requires d < 10
    ensures IsDigit(c) && c as int - '0' as int == d
  {
    (d + '0' as int) as char
  }

  /** The number a string of decimal digits denotes (the empty string denotes 0). */
  function DigitsValue(s: string): nat
    requires AllDigits(s)
  {
    if s == [] then 0 else DigitsValue(s[..|s| - 1]) * 10 + (s[|s| - 1] as int - '0' as int)
  }

  /** `str(n)` for a non-negative integer: its decimal digits, without leading zeros. */
  function NatToString(n: nat): (s: string)
    ensures |s| >= 1 && AllDigits(s)
    ensures |s| > 1 ==> s[0] != '0'
    decreases n
  {
    if n < 10 then [DigitChar(n)] else NatToString(n / 10) + [DigitChar(n % 10)]
  }

  lemma DigitsValueSnoc(s: string, c: char)
    requires AllDigits(s) && IsDigit(c)
    ensures AllDigits(s + [c])
    ensures DigitsValue(s + [c]) == DigitsValue(s) * 10 + (c as int - '0' as int)
  {
    assert (s + [c])[..|s + [c]| - 1] == s;
  }

  /** Reading back the digits `str(n)` writes gives `n`. */
  lemma {:induction false} NatToStringRoundTrip(n: nat)
    ensures DigitsValue(NatToString(n)) == n
    decreases n
  {
    if n >= 10 {
      NatToStringRoundTrip(n / 10);
      DigitsValueSnoc(NatToString(n / 10), DigitChar(n % 10));
    }
  }

  /** Three digits, with leading zeros. */
  function Pad3(f: nat): (s: string)
    requires f < 1000
    ensures |s| == 3 && AllDigits(s)
  {
    [DigitChar(f / 100), DigitChar(f / 10 % 10), DigitChar(f % 10)]
  }

  lemma Pad3Value(f: nat)
    requires f < 1000
    ensures DigitsValue(Pad3(f)) == f
  {
    var s := Pad3(f);
    var a, b, c := f / 100, f / 10 % 10, f % 10;
    assert f / 10 == a * 10 + b;
    assert f == (f / 10) * 10 + c;
    DigitsValueSnoc([], s[0]);
    assert [] + [s[0]] == [s[0]];
    DigitsValueSnoc([s[0]], s[1]);
    assert [s[0]] + [s[1]] == [s[0], s[1]];
    DigitsValueSnoc([s[0], s[1]], s[2]);
    assert [s[0], s[1]] + [s[2]] == s;
  }

  /** `s` without its trailing '0' characters. */
  function TrimZeros(s: string): (r: string)
    ensures r <= s
    ensures r == [] || r[|r| - 1] != '0'
    ensures forall i | |r| <= i < |s| :: s[i] == '0'
  {
    if s != [] && s[|s| - 1] == '0' then TrimZeros(s[..|s| - 1]) else s
  }

  /** The fractional digits Python prints for `f` thousandths: at least one digit, no trailing zero beyond it. */
  function Fraction(f: nat): (s: string)
    requires f < 1000
    ensures 1 <= |s| <= 3 && AllDigits(s)
  {
    if f == 0 then "0"
    else
      assert Pad3(f)[0] != '0' || Pad3(f)[1] != '0' || Pad3(f)[2] != '0';
      TrimZeros(Pad3(f))
  }

  /**
   * `str(x)` for the float `x == ms / 1000` (e.g. 5000 -> "5.0", 2500 -> "2.5", 1 -> "0.001"):
   * the shortest decimal that reads back as that float.
   */
  function SecondsText(ms: nat): (s: string)
  {
    NatToString(ms / 1000) + "." + Fraction(ms % 1000)
  }

  /** The weight of the last of `n` fraction digits, in thousandths. */
  function Scale(n: nat): nat {
    if n == 1 then 100 else if n == 2 then 10 else 1
  }

  /**
   * `t` is a "whole.fraction" decimal, with one to three fraction digits, of `ms` thousandths:
   * how a reader of the text gets the number back.
   */
  predicate DenotesMillis(t: string, ms: nat) {
    exists i | 0 <= i < |t| ::
      && t[i] == '.' && AllDigits(t[..i]) && 1 <= |t| - i - 1 <= 3 && AllDigits(t[i + 1..])
      && DigitsValue(t[..i]) * 1000 + DigitsValue(t[i + 1..]) * Scale(|t| - i - 1) == ms
  }

  /** The fraction digits denote the thousandths they were printed from. */
  lemma FractionValue(f: nat)
    requires f < 1000
    ensures DigitsValue(Fraction(f)) * Scale(|Fraction(f)|) == f
  {
    if f == 0 {
      assert "0"[..0] == "";
    } else {
      var p := Pad3(f);
      var t := Fraction(f);
      assert t == TrimZeros(p) && 1 <= |t| <= 3;
      Pad3Value(f);
      assert t == p[..|t|];
      if |t| == 3 {
        assert p[..3] == p;
      } else if |t| == 2 {
        assert p == t + [p[2]];
        DigitsValueSnoc(t, p[2]);
      } else {
        assert |t| == 1;
        assert p[..2] == t + [p[1]] && p == p[..2] + [p[2]];
        DigitsValueSnoc(t, p[1]);
        DigitsValueSnoc(p[..2], p[2]);
      }
    }
  }

  /** The seconds text of an error delay reads back as the same number of milliseconds. */
  lemma SecondsTextRoundTrip(ms: nat)
    ensures DenotesMillis(SecondsText(ms), ms)
  {
    var whole, frac := NatToString(ms / 1000), Fraction(ms % 1000);
    var t := SecondsText(ms);
    var i := |whole|;
    assert t[..i] == whole && t[i] == '.' && t[i + 1..] == frac;
    NatToStringRoundTrip(ms / 1000);
    FractionValue(ms % 1000);
  }

  // ---------------------------------------------------------------------------
  // ASCII case mapping (Python's lower()/upper() restricted to ASCII letters)
  // ---------------------------------------------------------------------------

  predicate IsAsciiLetter(c: char) {
    'a' <= c <= 'z' || 'A' <= c <= 'Z'
  }

  function LowerChar(c: char): char {
    if 'A' <= c <= 'Z' then (c as int + 32) as char else c
  }

  function UpperChar(c: char): char {
    if 'a' <= c <= 'z' then (c as int - 32) as char else c
  }

  function Lower(s: string): (r: string)
    ensures |r| == |s| && forall i | 0 <= i < |s| :: r[i] == LowerChar(s[i])
  {
    seq(|s|, i requires 0 <= i < |s| => LowerChar(s[i]))
  }

  function Upper(s: string): (r: string)
    ensures |r| == |s| && forall i | 0 <= i < |s| :: r[i] == UpperChar(s[i])
  {
    seq(|s|, i requires 0 <= i < |s| => UpperChar(s[i]))
  }

  // ---------------------------------------------------------------------------
  // Searching
  // ---------------------------------------------------------------------------

  /** Python's `pat in s`. */
  predicate Contains(s: string, pat: string)
    decreases |s|
  {
    pat <= s || (s != [] && Contains(s[1..], pat))
  }

  /** `pat` occurs in `s` starting at offset `i`. */
  predicate OccursAt(s: string, pat: string, i: nat) {
    i + |pat| <= |s| && s[i..i + |pat|] == pat
  }

  /** `pat in s` holds exactly when `pat` occurs at some offset of `s`. */
  lemma {:induction false} ContainsIff(s: string, pat: string)
    ensures Contains(s, pat) <==> exists i: nat :: OccursAt(s, pat, i)
    decreases |s|
  {
    if pat <= s {
      assert OccursAt(s, pat, 0);
    } else if s != [] {
      ContainsIff(s[1..], pat);
      if Contains(s[1..], pat) {
        var i: nat :| OccursAt(s[1..], pat, i);
        assert s[i + 1..i + 1 + |pat|] == s[1..][i..i + |pat|];
        assert OccursAt(s, pat, i + 1);
      }
      if exists i: nat :: OccursAt(s, pat, i) {
        var i: nat :| OccursAt(s, pat, i);
        assert i != 0;
        assert s[1..][i - 1..i - 1 + |pat|] == s[i..i + |pat|];
        assert OccursAt(s[1..], pat, i - 1);
      }
    }
  }

  /** An occurrence at a known offset is enough for `pat in s`. */
  lemma ContainsAt(s: string, pat: string, i: nat)
    requires OccursAt(s, pat, i)
    ensures Contains(s, pat)
  {
    ContainsIff(s, pat);
  }

  /** A text occurs in any text built around it. */
  lemma ContainsMiddle(a: string, b: string, c: string)
    ensures Contains(a + b + c, b)
  {
    assert (a + b + c)[|a|..|a| + |b|] == b;
    ContainsAt(a + b + c, b, |a|);
  }

  /** No character of `s` is one of `stops`. */
  predicate Avoids(s: string, stops: set<char>) {
    forall i | 0 <= i < |s| :: s[i] !in stops
  }

  /** The longest prefix of `s` holding none of `stops`. */
  function UpTo(s: string, stops: set<char>): (r: string)
    ensures r <= s
    ensures forall i | 0 <= i < |r| :: r[i] !in stops
    ensures |r| < |s| ==> s[|r|] in stops
  {
    if s == [] || s[0] in stops then [] else [s[0]] + UpTo(s[1..], stops)
  }

  /** UpTo stops at the first stop character, whatever follows it. */
  lemma {:induction false} UpToStops(a: string, b: string, stops: set<char>)
    requires forall i | 0 <= i < |a| :: a[i] !in stops
    requires b != [] && b[0] in stops
    ensures UpTo(a + b, stops) == a
  {
    if a == [] {
      assert a + b == b;
    } else {
      UpToStops(a[1..], b, stops);
      assert (a + b)[1..] == a[1..] + b;
      assert [a[0]] + a[1..] == a;
    }
  }

  /** Everything after the last `c` in `s`, or all of `s` when `c` does not occur (Python's `rpartition(c)[2]`). */
  function AfterLast(s: string, c: char): (r: string)
    ensures |r| <= |s|
  {
    if s == [] then []
    else if s[|s| - 1] == c then []
    else AfterLast(s[..|s| - 1], c) + [s[|s| - 1]]
  }

  /** AfterLast is the longest suffix free of `c`: it is preceded by `c` unless it is all of `s`. */
  lemma {:induction false} AfterLastSuffix(s: string, c: char)
    ensures AfterLast(s, c) == s[|s| - |AfterLast(s, c)|..]
    ensures c !in AfterLast(s, c)
    ensures |AfterLast(s, c)| < |s| ==> s[|s| - |AfterLast(s, c)| - 1] == c
  {
    if s != [] && s[|s| - 1] != c {
      AfterLastSuffix(s[..|s| - 1], c);
    }
  }

  /** Without a `c`, AfterLast keeps all of `s`. */
  lemma AfterLastAbsent(s: string, c: char)
    requires c !in s
    ensures AfterLast(s, c) == s
  {
    AfterLastSuffix(s, c);
  }

  /** AfterLast gives exactly what follows the last `c`. */
  lemma {:induction false} AfterLastSplit(a: string, c: char, b: string)
    requires c !in b
    ensures AfterLast(a + [c] + b, c) == b
    decreases |b|
  {
    var s := a + [c] + b;
    if b != [] {
      var b' := b[..|b| - 1];
      assert s[..|s| - 1] == a + [c] + b';
      AfterLastSplit(a, c, b');
      assert b' + [b[|b| - 1]] == b;
    }
  }

  /** Without a stop character, UpTo keeps all of `s`. */
  lemma UpToAll(s: string, stops: set<char>)
    requires Avoids(s, stops)
    ensures UpTo(s, stops) == s
  {
    var r := UpTo(s, stops);
    if |r| < |s| {
      assert s[|r|] in stops;
    }
  }

  // ---------------------------------------------------------------------------
  // Deleting a substring
  // ---------------------------------------------------------------------------

  /** Python's `s.replace(pat, '')`: every occurrence, scanning left to right without overlaps. */
  function RemoveAll(s: string, pat: string): (r: string)
    requires pat != []
    ensures |r| <= |s|
    decreases |s|
  {
    if |s| < |pat| then s
    else if pat <= s then RemoveAll(s[|pat|..], pat)
    else [s[0]] + RemoveAll(s[1..], pat)
  }

  /** With no occurrence to delete, the text is returned as it is. */
  lemma {:induction false} RemoveAllNone(s: string, pat: string)
    requires pat != []
    requires forall i: nat :: !OccursAt(s, pat, i)
    ensures RemoveAll(s, pat) == s
    decreases |s|
  {
    if |s| >= |pat| {
      assert !OccursAt(s, pat, 0);
      assert s[0..|pat|] == s[..|pat|];
      forall i: nat ensures !OccursAt(s[1..], pat, i) {
        assert !OccursAt(s, pat, i + 1);
        if i + |pat| <= |s[1..]| {
          assert s[1..][i..i + |pat|] == s[i + 1..i + 1 + |pat|];
        }
      }
      RemoveAllNone(s[1..], pat);
      assert [s[0]] + s[1..] == s;
    }
  }

  /** A leading occurrence followed by text without one leaves just that text. */
  lemma RemoveAllOnlyLeading(pat: string, s: string)
    requires pat != [] && !Contains(s, pat)
    ensures RemoveAll(pat + s, pat) == s
  {
    RemoveAllLeading(pat, s);
    ContainsIff(s, pat);
    RemoveAllNone(s, pat);
  }

  /** A leading occurrence is deleted and the scan goes on after it. */
  lemma RemoveAllLeading(pat: string, s: string)
    requires pat != []
    ensures RemoveAll(pat + s, pat) == RemoveAll(s, pat)
  {
    assert pat <= pat + s;
    assert (pat + s)[|pat|..] == s;
  }

  /** Deleting a character leaves none of it, and only characters of the text. */
  lemma {:induction false} RemoveAllChar(s: string, c: char)
    ensures forall i | 0 <= i < |RemoveAll(s, [c])| :: RemoveAll(s, [c])[i] != c
    ensures forall i | 0 <= i < |RemoveAll(s, [c])| :: RemoveAll(s, [c])[i] in s
    decreases |s|
  {
    if s != [] {
      RemoveAllChar(s[1..], c);
      var rest := RemoveAll(s[1..], [c]);
      if [c] <= s {
        assert s[1..] == s[|[c]|..];
      } else {
        assert s[0] != c;
        assert RemoveAll(s, [c]) == [s[0]] + rest;
        forall i | 0 <= i < |rest| ensures rest[i] in s {
          assert rest[i] in s[1..];
        }
      }
    }
  }
}

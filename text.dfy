/**
 * The handful of Python `str` operations the pipeline relies on, over
 * `string` (= `seq<char>`): `startswith`, `endswith`, `split(sep)` with a
 * one-character separator, `strip()` with no argument, `str(int)`, and the
 * reading of a decimal integer back (the inverse used by the config parser).
 */
module Text {
  import opened Wrappers

  /** `c * n` in Python: `n` copies of one character. */
  function Repeat(c: char, n: nat): (r: string)
    ensures |r| == n
    ensures forall i :: 0 <= i < n ==> r[i] == c
  {
    seq(n, _ => c)
  }

  /** `s.startswith(p)`: `s` is at least as long as `p` and agrees with it position by position. */
  predicate StartsWith(s: string, p: string)
    ensures StartsWith(s, p) <==> |p| <= |s| && forall i :: 0 <= i < |p| ==> s[i] == p[i]
  {
    |p| <= |s| && s[..|p|] == p
  }

  /** `s.endswith(suffix)`: the last `|suffix|` characters of `s` are those of `suffix`. */
  predicate EndsWith(s: string, suffix: string)
    ensures EndsWith(s, suffix) <==>
              |suffix| <= |s| && forall i :: 0 <= i < |suffix| ==> s[|s| - |suffix| + i] == suffix[i]
  {
    |suffix| <= |s| && s[|s| - |suffix|..] == suffix
  }

  /** The position of the first occurrence of `c` in `s`, if any. */
  function IndexOf(s: string, c: char): (r: Option<nat>)
    ensures r.None? <==> c !in s
    ensures r.Some? ==> r.value < |s| && s[r.value] == c && c !in s[..r.value]
  {
    if |s| == 0 then None
    else if s[0] == c then Some(0)
    else match IndexOf(s[1..], c)
      case None => None
      case Some(i) => Some(i + 1)
  }

  lemma ConcatAssoc(a: string, b: string, c: string)
    ensures (a + b) + c == a + (b + c)
  {
  }

  /** In `a + b`, the first `c` is the one opening `b` when `a` has none. */
  lemma IndexOfAfter(a: string, c: char, b: string)
    requires c !in a
    requires |b| > 0 && b[0] == c
    ensures IndexOf(a + b, c) == Some(|a|)
  {
    var s := a + b;
    assert s[|a|] == c;
    assert c in s;
  }

  /**
   * `s.split(c)`: the fields between occurrences of `c`; there is always at
   * least one field, and the first one is the text before the first `c`.
   */
  function Split(s: string, c: char): (r: seq<string>)
    ensures |r| >= 1
    ensures |r[0]| <= |s| && s[..|r[0]|] == r[0] && c !in r[0]
    ensures |r| == 1 <==> c !in s
    ensures |r| == 1 ==> r[0] == s
    ensures |r| > 1 ==> |r[0]| < |s| && s[|r[0]|] == c
  {
    if |s| == 0 then [""]
    else if s[0] == c then [""] + Split(s[1..], c)
    else
      var rest := Split(s[1..], c);
      [[s[0]] + rest[0]] + rest[1..]
  }

  /** The fields after the first separator are the split of the text after it. */
  lemma {:induction false} SplitAfterFirst(a: string, c: char, b: string)
    requires c !in a
    ensures Split(a + [c] + b, c) == [a] + Split(b, c)
  {
    if |a| == 0 {
      assert a + [c] + b == [c] + b;
      assert (a + [c] + b)[1..] == b;
    } else {
      assert (a + [c] + b)[1..] == a[1..] + [c] + b;
      SplitAfterFirst(a[1..], c, b);
      assert [a[0]] + a[1..] == a;
    }
  }

  /** The first field of `a + b` is `a` when `a` has no separator and `b` starts with one. */
  lemma FirstFieldBeforeSeparator(a: string, c: char, b: string)
    requires c !in a
    requires |b| > 0 && b[0] == c
    ensures Split(a + b, c)[0] == a
  {
    var s := a + b;
    assert s[..|a|] == a;
    assert s[|a|] == c;
  }

  /**
   * Python's `str.isspace()`: the ASCII whitespace '\t'..'\r' and ' ', the
   * separators U+001C..U+001F, and the Unicode White_Space characters above
   * U+007F.
   */
  predicate IsSpace(c: char) {
    ('\t' <= c <= '\r') || c == ' ' || ('\U{1C}' <= c <= '\U{1F}')
    || c == '\U{85}' || c == '\U{A0}' || c == '\U{1680}' || ('\U{2000}' <= c <= '\U{200A}')
    || c == '\U{2028}' || c == '\U{2029}' || c == '\U{202F}' || c == '\U{205F}' || c == '\U{3000}'
  }

  predicate NoSpace(s: string) {
    forall i :: 0 <= i < |s| ==> !IsSpace(s[i])
  }

  /** The number of whitespace characters `s` starts with. */
  function LeadingSpaces(s: string): (n: nat)
    ensures n <= |s|
    ensures forall i :: 0 <= i < n ==> IsSpace(s[i])
    ensures n == |s| || !IsSpace(s[n])
  {
    if |s| > 0 && IsSpace(s[0]) then 1 + LeadingSpaces(s[1..]) else 0
  }

  /** Where the whitespace `s` ends with begins. */
  function TrailingStart(s: string): (m: nat)
    ensures m <= |s|
    ensures forall i :: m <= i < |s| ==> IsSpace(s[i])
    ensures m == 0 || !IsSpace(s[m - 1])
  {
    if |s| > 0 && IsSpace(s[|s| - 1]) then TrailingStart(s[..|s| - 1]) else |s|
  }

  /**
   * `s.strip()`: the middle slice of `s` left once the whitespace at both
   * ends is cut away; it neither starts nor ends with whitespace.
   */
  function Strip(s: string): (r: string)
    ensures exists lo, hi :: 0 <= lo <= hi <= |s| && r == s[lo..hi]
              && (forall i :: 0 <= i < lo ==> IsSpace(s[i]))
              && (forall i :: hi <= i < |s| ==> IsSpace(s[i]))
    ensures r == [] || (!IsSpace(r[0]) && !IsSpace(r[|r| - 1]))
  {
    var lo, hi := LeadingSpaces(s), TrailingStart(s);
    if lo == |s| then
      assert s[lo..lo] == [];
      []
    else
      assert lo < hi;
      s[lo..hi]
  }

  /** Stripping a string without whitespace and with one trailing newline gives the string back. */
  lemma StripLine(s: string)
    requires NoSpace(s)
    ensures Strip(s + "\n") == s
  {
    var t := s + "\n";
    assert IsSpace(t[|s|]);
    if |s| > 0 {
      assert t[0] == s[0];
      assert LeadingSpaces(t) == 0;
      assert forall i :: 0 <= i < |s| ==> t[i] == s[i];
      assert TrailingStart(t) == |s|;
      assert t[0..|s|] == s;
    }
  }

  predicate IsDigit(c: char) {
    '0' <= c <= '9'
  }

  function DigitChar(d: nat): (c: char)
    requires d < 10
    ensures IsDigit(c) && (c == '0' <==> d == 0)
  {
    ('0' as int + d) as char
  }

  function DigitValue(c: char): (d: nat)
    requires IsDigit(c)
    ensures d < 10 && DigitChar(d) == c
  {
    (c as int - '0' as int) as nat
  }

  /**
   * `str(n)` for a natural number: its decimal digits, most significant
   * first, with no leading zero ("0" is the only text starting with '0').
   */
  function NatToString(n: nat): (r: string)
    ensures |r| >= 1
    ensures forall i :: 0 <= i < |r| ==> IsDigit(r[i])
    ensures r[0] == '0' <==> n == 0
    ensures |r| > 1 ==> r[0] != '0'
  {
    if n < 10 then [DigitChar(n)] else NatToString(n / 10) + [DigitChar(n % 10)]
  }

  /**
   * `str(t)` for a Python `int`: a '-' exactly for a negative value, then the
   * digits of its magnitude without a leading zero (so never "-0" or "007").
   */
  function IntToString(t: int): (r: string)
    ensures |r| >= 1 && '\n' !in r && '.' !in r
    ensures r[0] == '-' <==> t < 0
    ensures var digits := if t < 0 then r[1..] else r;
            |digits| >= 1 && (forall i :: 0 <= i < |digits| ==> IsDigit(digits[i]))
            && (|digits| > 1 || t < 0 ==> digits[0] != '0')
  {
    if t < 0 then "-" + NatToString(-t) else NatToString(t)
  }

  /** The value of a non-empty run of decimal digits. */
  function DigitsValue(s: string): (n: nat)
    requires |s| >= 1 && forall i :: 0 <= i < |s| ==> IsDigit(s[i])
  {
    if |s| == 1 then DigitValue(s[0])
    else DigitsValue(s[..|s| - 1]) * 10 + DigitValue(s[|s| - 1])
  }

  /**
   * Reads back the text `str(t)` writes: an optional minus sign followed by
   * decimal digits. Any other text gives None.
   */
  function ParseInt(s: string): Option<int> {
    if |s| >= 2 && s[0] == '-' && forall i :: 1 <= i < |s| ==> IsDigit(s[i]) then
      var v: int := 0 - DigitsValue(s[1..]) as int;
      Some(v)
    else if |s| >= 1 && forall i :: 0 <= i < |s| ==> IsDigit(s[i]) then
      Some(DigitsValue(s))
    else None
  }

  lemma {:induction false} NatToStringRoundTrip(n: nat)
    ensures DigitsValue(NatToString(n)) == n
  {
    if n >= 10 {
      var s := NatToString(n);
      assert s[..|s| - 1] == NatToString(n / 10);
      NatToStringRoundTrip(n / 10);
    }
  }

  lemma ParseNegative(d: string)
    requires |d| >= 1 && forall i :: 0 <= i < |d| ==> IsDigit(d[i])
    ensures ParseInt("-" + d) == Some(0 - DigitsValue(d) as int)
  {
    var s := "-" + d;
    assert s[1..] == d;
    assert forall i :: 1 <= i < |s| ==> s[i] == d[i - 1];
  }

  /** Reading back what `str(t)` wrote gives `t`. */
  lemma IntToStringRoundTrip(t: int)
    ensures ParseInt(IntToString(t)) == Some(t)
  {
    if t < 0 {
      ParseNegative(NatToString(-t));
      NatToStringRoundTrip(-t);
    } else {
      NatToStringRoundTrip(t);
    }
  }
}

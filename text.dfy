/**
 * The string operations of Python that the pipeline relies on:
 * `str.strip`, `startswith`/`endswith`, `split` on one character,
 * `in` on strings, `lower` and the `int(...)` conversion of a string.
 */
module Text {
  import opened Wrappers

  /** Python's `str.isspace` for a single character. */
  predicate IsSpace(c: char) {
    || c == ' ' || c == '\t' || c == '\n' || c == '\r' || c == '\U{B}' || c == '\U{C}'
    || ('\U{1C}' <= c <= '\U{1F}') || c == '\U{85}' || c == '\U{A0}' || c == '\U{1680}'
    || ('\U{2000}' <= c <= '\U{200A}') || c == '\U{2028}' || c == '\U{2029}'
    || c == '\U{202F}' || c == '\U{205F}' || c == '\U{3000}'
  }

  predicate AllSpace(s: string) {
    forall i :: 0 <= i < |s| ==> IsSpace(s[i])
  }

  /** Python's `str.lstrip()`: drops the leading whitespace and nothing else. */
  function TrimStart(s: string): (r: string)
    ensures |r| <= |s| && AllSpace(s[..|s| - |r|])
    ensures r == [] || !IsSpace(r[0])
  {
    if s != [] && IsSpace(s[0]) then
      var r := TrimStart(s[1..]);
      assert s[..|s| - |r|] == [s[0]] + s[1..][..|s| - 1 - |r|];
      r
    else s
  }

  /** Python's `str.rstrip()`: drops the trailing whitespace and nothing else. */
  function TrimEnd(s: string): (r: string)
    ensures |r| <= |s| && r == s[..|r|]
    ensures AllSpace(s[|r|..])
    ensures r == [] || !IsSpace(r[|r| - 1])
  {
    if s != [] && IsSpace(s[|s| - 1]) then
      var r := TrimEnd(s[..|s| - 1]);
      assert s[|r|..] == s[..|s| - 1][|r|..] + [s[|s| - 1]];
      r
    else s
  }

  /** Python's `str.strip()`. */
  function Trim(s: string): (r: string)
    ensures |r| <= |s|
    ensures r == [] || (!IsSpace(r[0]) && !IsSpace(r[|r| - 1]))
  {
    TrimEnd(TrimStart(s))
  }

  lemma {:induction false} TrimStartPadded(w: string, v: string)
    requires AllSpace(w)
    requires v == [] || !IsSpace(v[0])
    ensures TrimStart(w + v) == v
    decreases |w|
  {
    if w == [] {
      assert w + v == v;
    } else {
      assert (w + v)[1..] == w[1..] + v;
      TrimStartPadded(w[1..], v);
    }
  }

  lemma {:induction false} TrimEndPadded(v: string, w: string)
    requires AllSpace(w)
    requires v == [] || !IsSpace(v[|v| - 1])
    ensures TrimEnd(v + w) == v
    decreases |w|
  {
    if w == [] {
      assert v + w == v;
    } else {
      assert (v + w)[..|v + w| - 1] == v + w[..|w| - 1];
      TrimEndPadded(v, w[..|w| - 1]);
    }
  }

  /** Surrounding whitespace is exactly what `strip` removes. */
  lemma {:induction false} TrimPadded(w1: string, v: string, w2: string)
    requires AllSpace(w1) && AllSpace(w2)
    requires v == [] || (!IsSpace(v[0]) && !IsSpace(v[|v| - 1]))
    ensures Trim(w1 + v + w2) == v
  {
    if v == [] {
      assert w1 + v + w2 == (w1 + w2) + [];
      TrimStartPadded(w1 + w2, []);
    } else {
      assert w1 + v + w2 == w1 + (v + w2);
      TrimStartPadded(w1, v + w2);
      TrimEndPadded(v, w2);
    }
  }

  /** `strip` changes nothing in a string that has no surrounding whitespace. */
  lemma {:induction false} TrimUnpadded(v: string)
    requires v == [] || (!IsSpace(v[0]) && !IsSpace(v[|v| - 1]))
    ensures Trim(v) == v
  {
    TrimPadded([], v, []);
    assert [] + v + [] == v;
  }

  predicate StartsWith(s: string, p: string) {
    |p| <= |s| && s[..|p|] == p
  }

  predicate EndsWith(s: string, p: string) {
    |p| <= |s| && s[|s| - |p|..] == p
  }

  /** Python's `p in s` on two strings. */
  predicate HasSubstring(s: string, p: string)
    decreases |s|
  {
    StartsWith(s, p) || (s != [] && HasSubstring(s[1..], p))
  }

  function Occurrences(s: string, c: char): nat {
    if s == [] then 0 else (if s[0] == c then 1 else 0) + Occurrences(s[1..], c)
  }

  lemma {:induction false} OccurrencesAppend(a: string, b: string, c: char)
    ensures Occurrences(a + b, c) == Occurrences(a, c) + Occurrences(b, c)
    decreases |a|
  {
    if a == [] {
      assert a + b == b;
    } else {
      assert (a + b)[1..] == a[1..] + b;
      OccurrencesAppend(a[1..], b, c);
    }
  }

  lemma {:induction false} OccurrencesAbsent(s: string, c: char)
    requires c !in s
    ensures Occurrences(s, c) == 0
    decreases |s|
  {
    if s != [] {
      OccurrencesAbsent(s[1..], c);
    }
  }

  function IndexOf(s: string, c: char): (i: nat)
    requires c in s
    ensures i < |s| && s[i] == c && c !in s[..i]
  {
    if s[0] == c then 0 else 1 + IndexOf(s[1..], c)
  }

  /** Python's `sep.join(parts)` for a one-character separator. */
  function Join(parts: seq<string>, sep: char): string {
    if parts == [] then []
    else if |parts| == 1 then parts[0]
    else parts[0] + [sep] + Join(parts[1..], sep)
  }

  /**
   * Python's `s.split(sep)` for a one-character separator: the pieces
   * between separators, empty pieces included.
   */
  function Split(s: string, sep: char): (parts: seq<string>)
    ensures |parts| == Occurrences(s, sep) + 1
    ensures forall i :: 0 <= i < |parts| ==> sep !in parts[i]
    ensures Join(parts, sep) == s
    decreases |s|
  {
    if sep !in s then
      OccurrencesAbsent(s, sep);
      [s]
    else
      var i := IndexOf(s, sep);
      var rest := Split(s[i + 1..], sep);
      assert s == s[..i] + [sep] + s[i + 1..];
      OccurrencesAppend(s[..i] + [sep], s[i + 1..], sep);
      OccurrencesAppend(s[..i], [sep], sep);
      OccurrencesAbsent(s[..i], sep);
      [s[..i]] + rest
  }

  /** Splitting text that was joined from separator-free pieces gives the pieces back. */
  lemma {:induction false} SplitJoin(parts: seq<string>, sep: char)
    requires parts != []
    requires forall i :: 0 <= i < |parts| ==> sep !in parts[i]
    ensures Split(Join(parts, sep), sep) == parts
    decreases |parts|
  {
    if |parts| == 1 {
      assert Join(parts, sep) == parts[0];
    } else {
      SplitAtFirst(parts[0], Join(parts[1..], sep), sep);
      SplitJoin(parts[1..], sep);
      assert parts == [parts[0]] + parts[1..];
    }
  }

  /** A separator-free piece before the first separator is split off as it is. */
  lemma SplitAtFirst(p: string, rest: string, sep: char)
    requires sep !in p
    ensures Split(p + [sep] + rest, sep) == [p] + Split(rest, sep)
  {
    var s := p + [sep] + rest;
    assert s[|p|] == sep;
    var i := IndexOf(s, sep);
    assert forall k :: 0 <= k < |p| ==> s[k] == p[k];
    assert i == |p|;
    assert s[..i] == p;
    assert s[i + 1..] == rest;
  }

  function LowerChar(c: char): char {
    if 'A' <= c <= 'Z' then (c as int + 32) as char else c
  }

  /** Python's `str.lower()` on the ASCII letters. */
  function Lower(s: string): (r: string)
    ensures |r| == |s|
    ensures forall i :: 0 <= i < |s| ==> r[i] == LowerChar(s[i])
  {
    seq(|s|, i requires 0 <= i < |s| => LowerChar(s[i]))
  }

  predicate IsDigit(c: char) {
    '0' <= c <= '9'
  }

  predicate AllDigits(s: string) {
    forall i :: 0 <= i < |s| ==> IsDigit(s[i])
  }

  function DigitValue(c: char): nat
    requires IsDigit(c)
  {
    c as int - '0' as int
  }

  /**
   * The digit strings the model's `int()` accepts after the sign: ASCII
   * digits, with single underscores allowed between two digits. Python
   * also accepts the other Unicode decimal digits; the model does not.
   */
  predicate WellFormedDigits(d: string) {
    |d| > 0 && IsDigit(d[0]) && IsDigit(d[|d| - 1]) && UnderscoresSeparate(d)
  }

  /** Every character is a digit or an underscore followed by a digit. */
  predicate UnderscoresSeparate(d: string)
    decreases |d|
  {
    d == [] || ((IsDigit(d[0]) || (d[0] == '_' && |d| > 1 && IsDigit(d[1]))) && UnderscoresSeparate(d[1..]))
  }

  lemma {:induction false} DigitsSeparate(d: string)
    requires AllDigits(d)
    ensures UnderscoresSeparate(d)
    decreases |d|
  {
    if d != [] {
      DigitsSeparate(d[1..]);
    }
  }

  function DropUnderscores(d: string): (r: string)
    ensures UnderscoresSeparate(d) ==> AllDigits(r)
    ensures AllDigits(d) ==> r == d
  {
    if d == [] then []
    else (if d[0] == '_' then [] else [d[0]]) + DropUnderscores(d[1..])
  }

  /** The value of a string of decimal digits, most significant first. */
  function DigitsValue(d: string): nat
    requires AllDigits(d)
  {
    if d == [] then 0 else DigitsValue(d[..|d| - 1]) * 10 + DigitValue(d[|d| - 1])
  }

  /**
   * Python's `int(s)` on a string: surrounding whitespace is ignored, an
   * optional sign, then ASCII decimal digits; anything else raises
   * ValueError, which is `None` here.
   */
  function ParseInt(s: string): Option<int> {
    ParseTrimmedInt(Trim(s))
  }

  /** `int(...)` once the surrounding whitespace is gone. */
  function ParseTrimmedInt(t: string): Option<int> {
    if |t| > 0 && (t[0] == '-' || t[0] == '+') then
      if WellFormedDigits(t[1..]) then
        var v: int := DigitsValue(DropUnderscores(t[1..]));
        Some(if t[0] == '-' then -v else v)
      else None
    else if WellFormedDigits(t) then Some(DigitsValue(DropUnderscores(t)))
    else None
  }

  function DigitChar(d: nat): (c: char)
    requires d < 10
    ensures IsDigit(c) && DigitValue(c) == d
  {
    ('0' as int + d) as char
  }

  /** Decimal digits of a natural number, as Python's `str(n)` prints them. */
  function NatToString(n: nat): (s: string)
    ensures |s| > 0 && AllDigits(s)
  {
    if n < 10 then [DigitChar(n)] else NatToString(n / 10) + [DigitChar(n % 10)]
  }

  /** Python's `str(n)` for an integer. */
  function IntToString(n: int): string {
    if n < 0 then ['-'] + NatToString(-n) else NatToString(n)
  }

  lemma {:induction false} NatToStringValue(n: nat)
    ensures DigitsValue(NatToString(n)) == n
  {
    if n >= 10 {
      var s := NatToString(n);
      assert s[..|s| - 1] == NatToString(n / 10);
      NatToStringValue(n / 10);
    }
  }

  lemma {:induction false} AllDigitsWellFormed(d: string)
    requires |d| > 0 && AllDigits(d)
    ensures WellFormedDigits(d) && DropUnderscores(d) == d
    ensures !IsSpace(d[0]) && !IsSpace(d[|d| - 1]) && d[0] != '-' && d[0] != '+'
  {
    DigitsSeparate(d);
  }

  lemma {:induction false} ParseDigits(d: string)
    requires |d| > 0 && AllDigits(d)
    ensures ParseTrimmedInt(d) == Some(DigitsValue(d) as int)
  {
    AllDigitsWellFormed(d);
  }

  lemma {:induction false} ParseUnpadded(t: string)
    requires t == [] || (!IsSpace(t[0]) && !IsSpace(t[|t| - 1]))
    ensures ParseInt(t) == ParseTrimmedInt(t)
  {
    TrimUnpadded(t);
  }

  lemma {:induction false} ParseUnsigned(m: nat)
    ensures ParseInt(NatToString(m)) == Some(m)
    ensures ParseInt(IntToString(m)) == Some(m)
  {
    var d := NatToString(m);
    assert IntToString(m) == d;
    NatToStringValue(m);
    AllDigitsWellFormed(d);
    ParseUnpadded(d);
    ParseDigits(d);
  }

  lemma {:induction false} ParseNegative(m: nat)
    ensures ParseInt(['-'] + NatToString(m)) == Some(-(m as int))
  {
    NatToStringValue(m);
    ParseNegativeDigits(NatToString(m));
  }

  /** A negative number is printed as a minus sign before the digits of its magnitude. */
  lemma NegativeText(n: int)
    requires n < 0
    ensures IntToString(n) == ['-'] + NatToString(-n)
  {
  }

  /** `int(str(n)) == n` for a negative `n`. */
  lemma ParseNegativeText(n: int)
    requires n < 0
    ensures ParseInt(IntToString(n)) == Some(n)
  {
    var m: nat := -n;
    NegativeText(n);
    ParseNegative(m);
  }

  /** A minus sign before decimal digits gives the negated value. */
  lemma {:induction false} ParseNegativeDigits(d: string)
    requires |d| > 0 && AllDigits(d)
    ensures ParseInt(['-'] + d) == Some(-(DigitsValue(d) as int))
  {
    AllDigitsWellFormed(d);
    var t := ['-'] + d;
    assert t[1..] == d;
    assert ParseTrimmedInt(t) == Some(-(DigitsValue(d) as int));
    assert t[|t| - 1] == d[|d| - 1];
    TrimUnpadded(t);
  }

  /** Text that starts with neither whitespace, a sign nor an ASCII digit is no integer to the model. */
  lemma {:induction false} ParseRejectsNonDigit(s: string)
    requires s != [] && !IsSpace(s[0]) && !IsSpace(s[|s| - 1])
    requires !IsDigit(s[0]) && s[0] != '-' && s[0] != '+'
    ensures ParseInt(s) == None
  {
    TrimUnpadded(s);
  }

  /** `int(s.strip()) == int(s)`: stripping first changes nothing `int` sees. */
  lemma {:induction false} StripBeforeInt(s: string)
    ensures ParseInt(Trim(s)) == ParseInt(s)
  {
    TrimUnpadded(Trim(s));
  }

  /** `int(str(n)) == n`: every integer printed in decimal reads back as itself. */
  lemma {:induction false} ParseIntRoundTrip(n: int)
    ensures ParseInt(IntToString(n)) == Some(n)
  {
    if n < 0 {
      ParseNegativeText(n);
    } else {
      ParseUnsigned(n);
    }
  }
}

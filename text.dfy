/** The string operations of the Kotlin standard library that the app relies on:
    `isWhitespace`, `isBlank`, `trim`, `lowercase`, `contains`, integer formatting
    in string templates, and splitting a formatted date back into its parts. */
module Text {

  /** Kotlin `Char.isWhitespace()`: Java's `Character.isWhitespace` (the ASCII
      controls 9-13 and 28-31 and the Unicode separators other than no-break ones)
      together with `Character.isSpaceChar` (every Unicode separator). */
  predicate IsWhitespace(c: char) {
    || ('\U{9}' <= c <= '\U{D}')
    || ('\U{1C}' <= c <= ' ')
    || c == '\U{A0}' || c == '\U{1680}'
    || ('\U{2000}' <= c <= '\U{200A}')
    || c == '\U{2028}' || c == '\U{2029}' || c == '\U{202F}' || c == '\U{205F}' || c == '\U{3000}'
  }

  /** Kotlin `CharSequence.isBlank()`: empty, or whitespace only; that is, nothing is
      left once the leading whitespace is dropped. */
  predicate IsBlank(s: string)
    ensures IsBlank(s) <==> TrimStart(s) == []
  {
    forall i :: 0 <= i < |s| ==> IsWhitespace(s[i])
  }

  /** Kotlin `String.length`: the number of UTF-16 code units, where a character
      outside the Basic Multilingual Plane is a surrogate pair and counts twice. */
  function Utf16Length(s: string): (n: nat)
    ensures |s| <= n <= 2 * |s|
    ensures n == |s| <==> forall i :: 0 <= i < |s| ==> s[i] as int < 0x1_0000
  {
    if s == [] then 0 else (if s[0] as int < 0x1_0000 then 1 else 2) + Utf16Length(s[1..])
  }

  /** Drops leading whitespace: the result is the longest suffix of `s` that does not
      start with whitespace, and everything dropped is whitespace. */
  function TrimStart(s: string): (r: string)
    ensures |r| <= |s| && r == s[|s| - |r|..]
    ensures r != [] ==> !IsWhitespace(r[0])
    ensures forall i :: 0 <= i < |s| - |r| ==> IsWhitespace(s[i])
  {
    if s != [] && IsWhitespace(s[0]) then TrimStart(s[1..]) else s
  }

  /** Drops trailing whitespace: the result is the longest prefix of `s` that does
      not end with whitespace, and everything dropped is whitespace. */
  function TrimEnd(s: string): (r: string)
    ensures |r| <= |s| && r == s[..|r|]
    ensures r != [] ==> !IsWhitespace(r[|r| - 1])
    ensures forall i :: |r| <= i < |s| ==> IsWhitespace(s[i])
  {
    if s != [] && IsWhitespace(s[|s| - 1]) then TrimEnd(s[..|s| - 1]) else s
  }

  /** Kotlin `String.trim()`: nothing is left exactly when the string is blank, and
      what is kept is a contiguous part of the input with non-whitespace at both ends. */
  function Trim(s: string): (r: string)
    ensures r == [] <==> IsBlank(s)
    ensures r != [] ==> !IsWhitespace(r[0]) && !IsWhitespace(r[|r| - 1])
    ensures exists i :: OccursAt(s, r, i)
  {
    TrimEmptyIffBlank(s);
    TrimOccurs(s);
    TrimEnd(TrimStart(s))
  }

  /** Dropping trailing whitespace after leading whitespace leaves nothing only when
      there was nothing but whitespace. */
  lemma TrimEmptyIffBlank(s: string)
    ensures TrimEnd(TrimStart(s)) == [] <==> IsBlank(s)
  {
    var t := TrimStart(s);
    if t != [] {
      assert !IsWhitespace(t[0]);
      assert TrimEnd(t) != [];
    }
  }

  /** What `trim()` keeps sits in the input right after the leading whitespace. */
  lemma TrimOccurs(s: string)
    ensures OccursAt(s, TrimEnd(TrimStart(s)), |s| - |TrimStart(s)|)
  {
    var t := TrimStart(s);
    var u := TrimEnd(t);
    var k := |s| - |t|;
    assert s[k..k + |u|] == t[..|u|];
  }

  predicate IsUpper(c: char) {
    'A' <= c <= 'Z'
  }

  /** Lower-cases one character (ASCII letters only; see README). */
  function LowerChar(c: char): (r: char)
    ensures !IsUpper(r)
    ensures IsUpper(c) ==> r as int == c as int + 32
    ensures !IsUpper(c) ==> r == c
  {
    if IsUpper(c) then (c as int + 32) as char else c
  }

  /** Kotlin `String.lowercase()`, character by character. */
  function Lower(s: string): (r: string)
    ensures |r| == |s|
    ensures forall i :: 0 <= i < |s| ==> r[i] == LowerChar(s[i])
  {
    if s == [] then [] else [LowerChar(s[0])] + Lower(s[1..])
  }

  /** Lower-casing twice is lower-casing once. */
  lemma LowerIdempotent(s: string)
    ensures Lower(Lower(s)) == Lower(s)
  {
    var l := Lower(s);
    assert forall i :: 0 <= i < |l| ==> Lower(l)[i] == l[i];
  }

  /** `p` is a prefix of `s`. */
  predicate StartsWith(s: string, p: string) {
    |p| <= |s| && s[..|p|] == p
  }

  /** Kotlin `CharSequence.contains(other)`: `k` occurs in `s` as a contiguous
      substring (the empty string occurs everywhere). */
  predicate Contains(s: string, k: string)
    ensures k == [] ==> Contains(s, k)
    ensures Contains(s, k) ==> |k| <= |s|
    decreases |s|
  {
    StartsWith(s, k) || (s != [] && Contains(s[1..], k))
  }

  /** `k` occurs in `s` starting at index `i`. */
  predicate OccursAt(s: string, k: string, i: int) {
    0 <= i <= |s| - |k| && s[i..i + |k|] == k
  }

  /** `Contains` is substring search: it holds exactly when `k` occurs somewhere in `s`. */
  lemma {:induction false} ContainsIffOccurs(s: string, k: string)
    ensures Contains(s, k) <==> exists i :: OccursAt(s, k, i)
    decreases |s|
  {
    if StartsWith(s, k) {
      assert OccursAt(s, k, 0);
    } else if s != [] {
      ContainsIffOccurs(s[1..], k);
      if Contains(s[1..], k) {
        var i :| OccursAt(s[1..], k, i);
        assert s[i + 1..i + 1 + |k|] == s[1..][i..i + |k|];
        assert OccursAt(s, k, i + 1);
      }
      if exists i :: OccursAt(s, k, i) {
        var i :| OccursAt(s, k, i);
        assert i != 0;
        assert s[1..][i - 1..i - 1 + |k|] == s[i..i + |k|];
        assert OccursAt(s[1..], k, i - 1);
      }
    }
  }

  /** Every character of a contained string occurs in the containing string. */
  lemma {:induction false} ContainedCharOccurs(s: string, k: string, j: nat)
    requires Contains(s, k) && j < |k|
    ensures k[j] in s
    decreases |s|
  {
    if StartsWith(s, k) {
      assert s[j] == k[j];
    } else {
      ContainedCharOccurs(s[1..], k, j);
    }
  }

  /** A keyword with an upper-case letter is never found in a lower-cased input. */
  lemma UpperNeverContainedInLower(input: string, k: string, j: nat)
    requires j < |k| && IsUpper(k[j])
    ensures !Contains(Lower(input), k)
  {
    if Contains(Lower(input), k) {
      ContainedCharOccurs(Lower(input), k, j);
      assert false;
    }
  }

  predicate IsDigit(c: char) {
    '0' <= c <= '9'
  }

  predicate AllDigits(s: string) {
    forall i :: 0 <= i < |s| ==> IsDigit(s[i])
  }

  function DigitChar(d: nat): (c: char)
    requires d < 10
    ensures IsDigit(c) && c as int - '0' as int == d
  {
    ('0' as int + d) as char
  }

  /** The decimal text of `n` as a Kotlin string template writes it: at least one
      digit, and no leading zero unless `n` is zero. */
  function NatToString(n: nat): (r: string)
    ensures |r| >= 1 && AllDigits(r)
    ensures r[0] == '0' ==> n == 0
    ensures '-' !in r
    decreases n
  {
    if n < 10 then [DigitChar(n)] else NatToString(n / 10) + [DigitChar(n % 10)]
  }

  /** The value of a string of decimal digits. */
  function DigitsValue(s: string): nat
    requires AllDigits(s)
  {
    if s == [] then 0 else DigitsValue(s[..|s| - 1]) * 10 + (s[|s| - 1] as int - '0' as int)
  }

  /** Reading back the decimal text gives the number. */
  lemma {:induction false} NatToStringRoundTrip(n: nat)
    ensures DigitsValue(NatToString(n)) == n
    decreases n
  {
    if n >= 10 {
      NatToStringRoundTrip(n / 10);
      var r := NatToString(n);
      assert r[..|r| - 1] == NatToString(n / 10);
    }
  }

  /** Splits `s` at every occurrence of `sep` (Kotlin `split(sep)`). */
  function Split(s: string, sep: char): (r: seq<string>)
    ensures |r| >= 1
  {
    if s == [] then [[]]
    else if s[0] == sep then [[]] + Split(s[1..], sep)
    else var t := Split(s[1..], sep); [[s[0]] + t[0]] + t[1..]
  }

  /** A string without the separator is a single field. */
  lemma {:induction false} SplitNoSeparator(a: string, sep: char)
    requires sep !in a
    ensures Split(a, sep) == [a]
  {
    if a != [] {
      SplitNoSeparator(a[1..], sep);
      assert [a[0]] + a[1..] == a;
    }
  }

  /** A separator-free field followed by the separator splits off as the first field. */
  lemma {:induction false} SplitFirstField(a: string, sep: char, rest: string)
    requires sep !in a
    ensures Split(a + [sep] + rest, sep) == [a] + Split(rest, sep)
  {
    if a == [] {
      assert a + [sep] + rest == [sep] + rest;
      assert ([sep] + rest)[1..] == rest;
    } else {
      SplitFirstField(a[1..], sep, rest);
      assert (a + [sep] + rest)[1..] == a[1..] + [sep] + rest;
      assert [a[0]] + a[1..] == a;
    }
  }
}

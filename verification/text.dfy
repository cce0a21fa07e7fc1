/**
 * String operations the server and the pages rely on: Python's `str.lower`,
 * `in` on strings and `" ".join`, JavaScript's `split(",")`, `trim()` and
 * `join(", ")`, and decimal rendering of integers (Python f-strings and
 * JavaScript template literals print integers the same way).
 */
module Text {

  import opened Wrappers

  /** JavaScript's WhiteSpace and LineTerminator characters, the set `trim()` removes. */
  predicate IsSpace(c: char) {
    c == ' ' || c == '\t' || c == '\n' || c == '\r' || c == '\U{000B}' || c == '\U{000C}' ||
    c == '\U{00A0}' || c == '\U{1680}' || ('\U{2000}' <= c <= '\U{200A}') ||
    c == '\U{2028}' || c == '\U{2029}' || c == '\U{202F}' || c == '\U{205F}' ||
    c == '\U{3000}' || c == '\U{FEFF}'
  }

  ghost predicate AllSpace(s: string) {
    forall k :: 0 <= k < |s| ==> IsSpace(s[k])
  }

  predicate IsUpper(c: char) { 'A' <= c <= 'Z' }

  function LowerChar(c: char): char {
    if IsUpper(c) then (c as int + 32) as char else c
  }

  /** Lower-casing of the ASCII letters; every other character is kept. */
  function Lower(s: string): string {
    seq(|s|, i requires 0 <= i < |s| => LowerChar(s[i]))
  }

  lemma {:induction false} LowerOfLower(s: string)
    requires forall c :: c in s ==> !IsUpper(c)
    ensures Lower(s) == s
  {
    assert forall i :: 0 <= i < |s| ==> s[i] in s;
  }

  /** `k` occurs in `s` starting at index `i`. */
  predicate OccursAt(s: string, k: string, i: int) {
    0 <= i && i + |k| <= |s| && s[i..i + |k|] == k
  }

  /** Python's `k in s` on strings. */
  predicate Contains(s: string, k: string) {
    exists i :: 0 <= i <= |s| && OccursAt(s, k, i)
  }

  /** An occurrence at a known index is an occurrence. */
  lemma ContainsAt(s: string, k: string, i: int)
    requires OccursAt(s, k, i)
    ensures Contains(s, k)
  {
  }

  /** Every character of a keyword that occurs in a text is a character of the text. */
  lemma {:induction false} ContainsKeepsChars(s: string, k: string)
    requires Contains(s, k)
    ensures forall c :: c in k ==> c in s
  {
    var i :| 0 <= i <= |s| && OccursAt(s, k, i);
    forall c | c in k ensures c in s {
      var j :| 0 <= j < |k| && k[j] == c;
      assert s[i..i + |k|][j] == s[i + j];
    }
  }

  /** A keyword holding a character the text lacks cannot occur in the text. */
  lemma MissingCharRulesOut(s: string, k: string, j: nat)
    requires j < |k| && k[j] !in s
    ensures !Contains(s, k)
  {
    if Contains(s, k) {
      ContainsKeepsChars(s, k);
    }
  }

  /** `sep.join(parts)`, in both languages. */
  function Join(parts: seq<string>, sep: string): string {
    if |parts| == 0 then ""
    else if |parts| == 1 then parts[0]
    else parts[0] + sep + Join(parts[1..], sep)
  }

  /** A character of a join comes from a part or from the separator. */
  lemma {:induction false} JoinChars(parts: seq<string>, sep: string, c: char)
    ensures c in Join(parts, sep) ==> c in sep || exists p :: p in parts && c in p
    ensures (exists p :: p in parts && c in p) ==> c in Join(parts, sep)
  {
    if |parts| > 1 {
      JoinChars(parts[1..], sep, c);
      assert forall p :: p in parts ==> p == parts[0] || p in parts[1..];
    }
  }

  /** Every part occurs in the join of the parts. */
  lemma {:induction false} JoinContainsAll(parts: seq<string>, sep: string)
    ensures forall i :: 0 <= i < |parts| ==> Contains(Join(parts, sep), parts[i])
  {
    if |parts| == 1 {
      ContainsAt(parts[0], parts[0], 0);
    } else if |parts| > 1 {
      var rest := Join(parts[1..], sep);
      var pre := parts[0] + sep;
      var j := Join(parts, sep);
      assert j == pre + rest;
      JoinContainsAll(parts[1..], sep);
      assert j[0..|parts[0]|] == parts[0];
      ContainsAt(j, parts[0], 0);
      forall i | 1 <= i < |parts| ensures Contains(j, parts[i]) {
        assert parts[1..][i - 1] == parts[i];
        var k :| 0 <= k <= |rest| && OccursAt(rest, parts[i], k);
        assert j[|pre| + k..|pre| + k + |parts[i]|] == rest[k..k + |parts[i]|];
        ContainsAt(j, parts[i], |pre| + k);
      }
    }
  }

  /**
   * JavaScript's `s.split(sep)` for a one-character separator: the pieces
   * between separators, so joining them again gives back `s`.
   */
  function Split(s: string, sep: char): (pieces: seq<string>)
    ensures |pieces| >= 1
    ensures forall p :: p in pieces ==> sep !in p
    ensures Join(pieces, [sep]) == s
  {
    if s == [] then [""]
    else
      var rest := Split(s[1..], sep);
      if s[0] == sep then
        assert [sep] + Join(rest, [sep]) == s;
        [""] + rest
      else
        var pieces := [[s[0]] + rest[0]] + rest[1..];
        assert pieces[1..] == rest[1..];
        assert Join(pieces, [sep]) == [s[0]] + Join(rest, [sep]) by {
          if |rest| > 1 {
            assert Join(rest, [sep]) == rest[0] + [sep] + Join(rest[1..], [sep]);
          }
        }
        assert [s[0]] + s[1..] == s;
        pieces
  }

  /** The number of whitespace characters at the start of `s`. */
  function LeadingSpaces(s: string): (n: nat)
    ensures n <= |s|
    ensures forall k :: 0 <= k < n ==> IsSpace(s[k])
    ensures n < |s| ==> !IsSpace(s[n])
  {
    if s == [] || !IsSpace(s[0]) then 0 else 1 + LeadingSpaces(s[1..])
  }

  /** The number of whitespace characters at the end of `s`. */
  function TrailingSpaces(s: string): (n: nat)
    ensures n <= |s|
    ensures forall k :: |s| - n <= k < |s| ==> IsSpace(s[k])
    ensures n < |s| ==> !IsSpace(s[|s| - n - 1])
  {
    if s == [] || !IsSpace(s[|s| - 1]) then 0 else 1 + TrailingSpaces(s[..|s| - 1])
  }

  /** `r` is `s` with exactly the whitespace `s[..i]` and `s[i + |r|..]` removed around it. */
  ghost predicate TrimmedAt(r: string, s: string, i: int) {
    0 <= i && i + |r| <= |s| && s[i..i + |r|] == r && AllSpace(s[..i]) && AllSpace(s[i + |r|..])
  }

  /** JavaScript's `s.trim()`. */
  function Trim(s: string): (r: string)
    ensures exists i :: TrimmedAt(r, s, i)
    ensures r == [] || (!IsSpace(r[0]) && !IsSpace(r[|r| - 1]))
    ensures r == [] <==> AllSpace(s)
  {
    var i := LeadingSpaces(s);
    var n := TrailingSpaces(s[i..]);
    SpaceAround(s, i, |s| - n);
    s[i..|s| - n]
  }

  /** Cutting `s` where its leading and trailing whitespace ends leaves a trimmed slice. */
  lemma SpaceAround(s: string, i: int, j: int)
    requires 0 <= i <= j <= |s|
    requires forall k :: 0 <= k < i ==> IsSpace(s[k])
    requires forall k :: j <= k < |s| ==> IsSpace(s[k])
    ensures TrimmedAt(s[i..j], s, i)
  {
    assert forall k :: 0 <= k < i ==> s[..i][k] == s[k];
    assert forall k :: 0 <= k < |s| - j ==> s[j..][k] == s[j + k];
  }

  predicate IsDigit(c: char) { '0' <= c <= '9' }

  ghost predicate AllDigits(s: string) {
    forall k :: 0 <= k < |s| ==> IsDigit(s[k])
  }

  function DigitChar(d: nat): (c: char)
    requires d < 10
    ensures IsDigit(c)
  {
    ('0' as int + d) as char
  }

  function DigitValue(c: char): (d: nat)
    requires IsDigit(c)
    ensures d < 10 && DigitChar(d) == c
  {
    c as int - '0' as int
  }

  /** Decimal notation of a natural number, without leading zeros. */
  function NatToString(n: nat): (r: string)
    ensures |r| >= 1 && AllDigits(r)
    ensures |r| > 1 ==> r[0] != '0'
  {
    if n < 10 then [DigitChar(n)] else NatToString(n / 10) + [DigitChar(n % 10)]
  }

  /** Decimal notation of an integer, with a leading `-` when negative. */
  function IntToString(n: int): (r: string)
    ensures |r| >= 1
  {
    if n < 0 then "-" + NatToString(-n) else NatToString(n)
  }

  /** The number a string of decimal digits denotes. */
  function DigitsValue(s: string): nat
    requires AllDigits(s)
  {
    if s == [] then 0 else DigitsValue(s[..|s| - 1]) * 10 + DigitValue(s[|s| - 1])
  }

  lemma {:induction false} NatToStringRoundTrip(n: nat)
    ensures DigitsValue(NatToString(n)) == n
  {
    if n >= 10 {
      var r := NatToString(n);
      assert r[..|r| - 1] == NatToString(n / 10);
      NatToStringRoundTrip(n / 10);
    }
  }

  /** The length of the longest prefix of `s` made of digits. */
  function DigitSpan(s: string): (n: nat)
    ensures n <= |s| && AllDigits(s[..n])
    ensures n < |s| ==> !IsDigit(s[n])
  {
    if s == [] || !IsDigit(s[0]) then 0
    else
      var n := 1 + DigitSpan(s[1..]);
      assert forall k :: 1 <= k < n ==> s[..n][k] == s[1..][..n - 1][k - 1];
      n
  }

  lemma {:induction false} DigitSpanOfDigits(d: string, tail: string)
    requires AllDigits(d)
    requires tail == [] || !IsDigit(tail[0])
    ensures DigitSpan(d + tail) == |d|
  {
    if d != [] {
      assert (d + tail)[1..] == d[1..] + tail;
      DigitSpanOfDigits(d[1..], tail);
    } else {
      assert d + tail == tail;
    }
  }

  /**
   * Reads an optional `-` and then at least one digit at the front of `s`:
   * the integer and what follows it, or None when no digit is there.
   */
  function ReadInt(s: string): Option<(int, string)> {
    var neg := s != [] && s[0] == '-';
    var body := if neg then s[1..] else s;
    var n := DigitSpan(body);
    if n == 0 then None
    else
      var v: int := DigitsValue(body[..n]);
      Some((if neg then -v else v, body[n..]))
  }

  /** Writing an integer and reading it back, before any non-digit, gives the integer and the rest. */
  lemma {:induction false} ReadIntRoundTrip(n: int, tail: string)
    requires tail == [] || !IsDigit(tail[0])
    ensures ReadInt(IntToString(n) + tail) == Some((n, tail))
  {
    var m: nat := if n < 0 then -n else n;
    var d := NatToString(m);
    NatToStringRoundTrip(m);
    DigitSpanOfDigits(d, tail);
    assert (d + tail)[..|d|] == d && (d + tail)[|d|..] == tail;
    if n < 0 {
      assert IntToString(n) + tail == "-" + (d + tail);
      assert ("-" + (d + tail))[1..] == d + tail;
    } else {
      assert d[0] != '-';
    }
  }
}

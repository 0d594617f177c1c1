/**
 * The JavaScript string and array built-ins that the pages call, on strings
 * taken as sequences of characters: trim, ASCII case mapping, startsWith and
 * endsWith, substring, indexOf, replace with a string pattern, join and slice.
 */
module JsText {

  /** The WhiteSpace and LineTerminator code points of ECMAScript: what `trim` and `parseFloat` skip. */
  predicate IsWhiteSpace(c: char) {
    c == '\t' || c == '\n' || c == '\U{B}' || c == '\U{C}' || c == '\r' || c == ' '
    || c == '\U{A0}' || c == '\U{1680}' || ('\U{2000}' <= c <= '\U{200A}')
    || c == '\U{2028}' || c == '\U{2029}' || c == '\U{202F}' || c == '\U{205F}'
    || c == '\U{3000}' || c == '\U{FEFF}'
  }

  predicate IsAsciiChar(c: char) { c < '\U{80}' }

  predicate IsAscii(s: string) { forall i :: 0 <= i < |s| ==> IsAsciiChar(s[i]) }

  /** `trimStart`: the longest suffix of `s` that does not begin with white space. */
  function TrimStart(s: string): (r: string)
    ensures |r| <= |s| && r == s[|s| - |r|..]
    ensures forall i :: 0 <= i < |s| - |r| ==> IsWhiteSpace(s[i])
    ensures r == [] || !IsWhiteSpace(r[0])
  {
    if s != [] && IsWhiteSpace(s[0]) then TrimStart(s[1..]) else s
  }

  /** `trimEnd`: the longest prefix of `s` that does not end with white space. */
  function TrimEnd(s: string): (r: string)
    ensures |r| <= |s| && r == s[..|r|]
    ensures forall i :: |r| <= i < |s| ==> IsWhiteSpace(s[i])
    ensures r == [] || !IsWhiteSpace(r[|r| - 1])
  {
    if s != [] && IsWhiteSpace(s[|s| - 1]) then TrimEnd(s[..|s| - 1]) else s
  }

  /** `String.prototype.trim`. */
  function Trim(s: string): (r: string)
    ensures |r| <= |s|
    ensures r == [] || (!IsWhiteSpace(r[0]) && !IsWhiteSpace(r[|r| - 1]))
    ensures r == [] <==> forall i :: 0 <= i < |s| ==> IsWhiteSpace(s[i])
  {
    TrimEnd(TrimStart(s))
  }

  /** A string with no white space at either end is left alone by `trim`. */
  lemma TrimUnchanged(s: string)
    requires s == [] || (!IsWhiteSpace(s[0]) && !IsWhiteSpace(s[|s| - 1]))
    ensures Trim(s) == s
  {
  }

  /** `toUpperCase` restricted to ASCII: `a`-`z` become `A`-`Z`, every other character is kept. */
  function UpperChar(c: char): char {
    if 'a' <= c <= 'z' then (c as int - 32) as char else c
  }

  /** `toLowerCase` restricted to ASCII: `A`-`Z` become `a`-`z`, every other character is kept. */
  function LowerChar(c: char): char {
    if 'A' <= c <= 'Z' then (c as int + 32) as char else c
  }

  function AsciiUpper(s: string): string {
    seq(|s|, i requires 0 <= i < |s| => UpperChar(s[i]))
  }

  function AsciiLower(s: string): string {
    seq(|s|, i requires 0 <= i < |s| => LowerChar(s[i]))
  }

  /** Upper-casing leaves no lower-case ASCII letter and moves no character into or out of white space. */
  lemma AsciiUpperChars(s: string)
    ensures |AsciiUpper(s)| == |s|
    ensures forall i :: 0 <= i < |s| ==> !('a' <= AsciiUpper(s)[i] <= 'z')
    ensures forall i :: 0 <= i < |s| ==> (IsWhiteSpace(AsciiUpper(s)[i]) <==> IsWhiteSpace(s[i]))
  {
  }

  /** Text without lower-case ASCII letters is unchanged by upper-casing. */
  lemma AsciiUpperUnchanged(s: string)
    requires forall i :: 0 <= i < |s| ==> !('a' <= s[i] <= 'z')
    ensures AsciiUpper(s) == s
  {
  }

  /** Text without upper-case ASCII letters is unchanged by lower-casing. */
  lemma AsciiLowerUnchanged(s: string)
    requires forall i :: 0 <= i < |s| ==> !('A' <= s[i] <= 'Z')
    ensures AsciiLower(s) == s
  {
  }

  predicate StartsWith(s: string, prefix: string) {
    |prefix| <= |s| && s[..|prefix|] == prefix
  }

  predicate EndsWith(s: string, suffix: string) {
    |suffix| <= |s| && s[|s| - |suffix|..] == suffix
  }

  function Clamp(n: int, len: nat): (r: nat)
    ensures r <= len
  {
    if n < 0 then 0 else if n > len then len else n
  }

  /** `String.prototype.substring`: both ends clamped to the string, swapped when out of order. */
  function Substring(s: string, start: int, end: int): (r: string)
    ensures 0 <= start <= end <= |s| ==> r == s[start..end]
    ensures 0 <= start <= end ==>
      r == s[if start < |s| then start else |s|..if end < |s| then end else |s|]
    ensures |r| <= |s|
  {
    var a, b := Clamp(start, |s|), Clamp(end, |s|);
    if a <= b then s[a..b] else s[b..a]
  }

  predicate OccursAt(s: string, pattern: string, k: int) {
    0 <= k && k + |pattern| <= |s| && s[k..k + |pattern|] == pattern
  }

  /** `String.prototype.indexOf`: the first position where `pattern` occurs, or -1. */
  function IndexOf(s: string, pattern: string): (k: int)
    ensures -1 <= k
    ensures k >= 0 ==> OccursAt(s, pattern, k)
    ensures forall j :: 0 <= j && (k < 0 || j < k) ==> !OccursAt(s, pattern, j)
  {
    if |s| < |pattern| then -1
    else if s[..|pattern|] == pattern then 0
    else
      var k := IndexOf(s[1..], pattern);
      assert forall j :: 1 <= j && OccursAt(s, pattern, j) ==> OccursAt(s[1..], pattern, j - 1) by {
        forall j | 1 <= j && OccursAt(s, pattern, j) ensures OccursAt(s[1..], pattern, j - 1) {
          assert s[1..][j - 1..j - 1 + |pattern|] == s[j..j + |pattern|];
        }
      }
      if k < 0 then -1
      else
        assert s[1..][k..k + |pattern|] == s[k + 1..k + 1 + |pattern|];
        k + 1
  }

  /**
   * `String.prototype.replace` with a string pattern: only the FIRST occurrence
   * of `pattern`, the one `indexOf` finds, is replaced; without one the string
   * is returned as it is.
   */
  function ReplaceFirst(s: string, pattern: string, replacement: string): string {
    var k := IndexOf(s, pattern);
    if k < 0 then s else s[..k] + replacement + s[k + |pattern|..]
  }

  /**
   * Without an occurrence of the pattern the text is unchanged; with one, the
   * text before the first occurrence is kept, the replacement follows it, and
   * then the text after that occurrence.
   */
  lemma ReplaceFirstFacts(s: string, pattern: string, replacement: string, k: nat)
    ensures (forall j :: 0 <= j ==> !OccursAt(s, pattern, j)) ==> ReplaceFirst(s, pattern, replacement) == s
    ensures OccursAt(s, pattern, k) && (forall j :: 0 <= j < k ==> !OccursAt(s, pattern, j)) ==>
      ReplaceFirst(s, pattern, replacement) == s[..k] + replacement + s[k + |pattern|..]
  {
  }

  /** `parts.join(separator)`: the parts with the separator between neighbours. */
  function Join(parts: seq<string>, separator: string): (r: string)
    ensures parts == [] ==> r == ""
    ensures parts != [] ==> StartsWith(r, parts[0]) && EndsWith(r, parts[|parts| - 1])
  {
    if |parts| == 0 then ""
    else if |parts| == 1 then parts[0]
    else parts[0] + separator + Join(parts[1..], separator)
  }

  /** Appending one part to a joined list adds one separator and that part at the end. */
  lemma {:induction false} JoinSnoc(parts: seq<string>, last: string, separator: string)
    ensures Join(parts + [last], separator)
         == if parts == [] then last else Join(parts, separator) + separator + last
  {
    if |parts| > 1 {
      assert (parts + [last])[1..] == parts[1..] + [last];
      JoinSnoc(parts[1..], last, separator);
    } else if |parts| == 1 {
      assert (parts + [last])[1..] == [last];
    }
  }

  /** `Array.prototype.slice`: negative positions count from the end, both are clamped. */
  function Slice<T>(s: seq<T>, start: int, end: int): (r: seq<T>)
    ensures 0 <= start <= end <= |s| ==> r == s[start..end]
    ensures 0 <= start <= end ==>
      r == s[if start < |s| then start else |s|..if end < |s| then end else |s|]
    ensures 0 <= start && 0 <= end ==> |r| <= if end < start then 0 else end - start
    ensures 0 <= start && |s| <= start ==> r == []
  {
    var from := if start < 0 then Clamp(|s| + start, |s|) else Clamp(start, |s|);
    var to := if end < 0 then Clamp(|s| + end, |s|) else Clamp(end, |s|);
    if from < to then s[from..to] else []
  }
}

/**
 * The domain-name suggestion generator of the registration page
 * (pages/Domain.tsx): keyword normalisation, the candidate lists over the
 * fixed TLD list, and the search state.
 */
module DomainSuggest {
  import opened Wrappers
  import opened JsText

  /**
   * The two Unicode built-ins the normalisation relies on and the model does
   * not define: `String.prototype.toLowerCase` and `normalize("NFD")`.
   */
  datatype UnicodeOps = UnicodeOps(toLowerCase: string -> string, normalizeNfd: string -> string)

  /**
   * On ASCII text both built-ins do what the ECMAScript standard prescribes:
   * lower-casing maps `A`-`Z` only, and canonical decomposition changes nothing.
   */
  ghost predicate AgreesOnAscii(u: UnicodeOps) {
    forall s :: IsAscii(s) ==> u.toLowerCase(s) == AsciiLower(s) && u.normalizeNfd(s) == s
  }

  /** The block U+0300-U+036F of combining diacritical marks. */
  predicate IsCombiningMark(c: char) {
    '\U{0300}' <= c <= '\U{036F}'
  }

  /** No combining mark and no `đ` (U+0111) or `Đ` (U+0110). */
  predicate NoAccents(s: string) {
    forall i :: 0 <= i < |s| ==> !IsCombiningMark(s[i]) && s[i] != '\U{0111}' && s[i] != '\U{0110}'
  }

  /** `replace(/[\u0300-\u036f]/g, "")`: every combining mark is deleted, the rest kept in order. */
  function DropMarks(s: string): (r: string)
    ensures |r| <= |s|
    ensures forall i :: 0 <= i < |r| ==> !IsCombiningMark(r[i]) && r[i] in s
  {
    if s == [] then []
    else if IsCombiningMark(s[0]) then DropMarks(s[1..])
    else [s[0]] + DropMarks(s[1..])
  }

  /** Text without combining marks is unchanged by deleting them. */
  lemma {:induction false} DropMarksUnchanged(s: string)
    requires forall i :: 0 <= i < |s| ==> !IsCombiningMark(s[i])
    ensures DropMarks(s) == s
  {
    if s != [] {
      DropMarksUnchanged(s[1..]);
    }
  }

  /** `replace(/x/g, y)` for a one-character pattern `x` and replacement `y`. */
  function ReplaceChar(s: string, from: char, to: char): (r: string)
    ensures |r| == |s|
    ensures forall i :: 0 <= i < |s| ==> r[i] == if s[i] == from then to else s[i]
  {
    if s == [] then [] else [if s[0] == from then to else s[0]] + ReplaceChar(s[1..], from, to)
  }

  /** `removeAccents`: decompose, delete the combining marks, then spell `đ` as `d` and `Đ` as `D`. */
  function RemoveAccents(u: UnicodeOps, s: string): (r: string)
    ensures NoAccents(r)
  {
    var plain := DropMarks(u.normalizeNfd(s));
    var r := ReplaceChar(ReplaceChar(plain, '\U{0111}', 'd'), '\U{0110}', 'D');
    assert forall i :: 0 <= i < |r| ==> !IsCombiningMark(r[i]) by {
      forall i | 0 <= i < |r| ensures !IsCombiningMark(r[i]) {
        assert !IsCombiningMark(plain[i]);
      }
    }
    r
  }

  /** ASCII text has nothing to decompose, no marks and no `đ`/`Đ`, so accent removal keeps it. */
  lemma RemoveAccentsAscii(u: UnicodeOps, s: string)
    requires AgreesOnAscii(u) && IsAscii(s)
    ensures RemoveAccents(u, s) == s
  {
    assert u.normalizeNfd(s) == s;
    DropMarksUnchanged(s);
    var d := ReplaceChar(s, '\U{0111}', 'd');
    assert d == s;
    assert ReplaceChar(d, '\U{0110}', 'D') == s;
  }

  predicate IsLowerAlnum(c: char) {
    'a' <= c <= 'z' || '0' <= c <= '9'
  }

  /** The characters `[a-z0-9\-]` a processed keyword is made of. */
  predicate IsSlugChar(c: char) {
    IsLowerAlnum(c) || c == '-'
  }

  predicate AllSlugChars(s: string) {
    forall i :: 0 <= i < |s| ==> IsSlugChar(s[i])
  }

  predicate AllLowerAlnum(s: string) {
    forall i :: 0 <= i < |s| ==> IsLowerAlnum(s[i])
  }

  predicate NoDoubleDash(s: string) {
    forall i :: 0 <= i < |s| - 1 ==> !(s[i] == '-' && s[i + 1] == '-')
  }

  /** A well-formed domain label: only `[a-z0-9-]`, no `--`, no dash at either end. */
  predicate IsSlug(s: string) {
    AllSlugChars(s) && NoDoubleDash(s) && (s == [] || (s[0] != '-' && s[|s| - 1] != '-'))
  }

  /** The three regular-expression character classes used by the normalisation. */
  datatype CharClass =
    | NotSlug   // [^a-z0-9\-]
    | Dash      // -
    | NotAlnum  // [^a-z0-9]

  predicate InClass(k: CharClass, c: char) {
    match k
    case NotSlug => !IsSlugChar(c)
    case Dash => c == '-'
    case NotAlnum => !IsLowerAlnum(c)
  }

  /** What is left of `s` after its leading run of characters of class `k`. */
  function SkipRun(s: string, k: CharClass): (r: string)
    ensures |r| <= |s| && r == s[|s| - |r|..]
    ensures forall i :: 0 <= i < |s| - |r| ==> InClass(k, s[i])
    ensures r == [] || !InClass(k, r[0])
  {
    if s != [] && InClass(k, s[0]) then SkipRun(s[1..], k) else s
  }

  /** A character outside class `k` is never part of the skipped run. */
  lemma {:induction false} SkipRunKeeps(s: string, k: CharClass, c: char)
    requires c in s && !InClass(k, c)
    ensures c in SkipRun(s, k)
  {
    if s[0] != c && InClass(k, s[0]) {
      assert c in s[1..];
      SkipRunKeeps(s[1..], k, c);
    }
  }

  /**
   * `replace(/[class]+/g, rep)`: scanning left to right, each maximal run of
   * characters of class `k` is replaced by `rep`; other characters are kept.
   */
  function ReplaceRuns(s: string, k: CharClass, rep: string): (r: string)
    ensures forall i :: 0 <= i < |r| ==> r[i] in rep || (r[i] in s && !InClass(k, r[i]))
    decreases |s|
  {
    if s == [] then []
    else if InClass(k, s[0]) then
      var rest := SkipRun(s, k);
      assert forall c :: c in rest ==> c in s by {
        forall c | c in rest ensures c in s {
          var i :| 0 <= i < |rest| && rest[i] == c;
          assert s[|s| - |rest| + i] == c;
        }
      }
      rep + ReplaceRuns(rest, k, rep)
    else [s[0]] + ReplaceRuns(s[1..], k, rep)
  }

  /** Text with no character of class `k` is unchanged by the replacement. */
  lemma {:induction false} ReplaceRunsUnchanged(s: string, k: CharClass, rep: string)
    requires forall i :: 0 <= i < |s| ==> !InClass(k, s[i])
    ensures ReplaceRuns(s, k, rep) == s
    decreases |s|
  {
    if s != [] {
      ReplaceRunsUnchanged(s[1..], k, rep);
    }
  }

  /** Replacing the runs of non-slug characters by a dash leaves only slug characters. */
  lemma {:induction false} SluggedChars(s: string)
    ensures AllSlugChars(ReplaceRuns(s, NotSlug, "-"))
    decreases |s|
  {
    if s != [] {
      if InClass(NotSlug, s[0]) {
        SluggedChars(SkipRun(s, NotSlug));
      } else {
        SluggedChars(s[1..]);
      }
    }
  }

  /** Collapsing dash runs in slug text leaves slug text. */
  lemma {:induction false} CollapsedChars(s: string)
    requires AllSlugChars(s)
    ensures AllSlugChars(ReplaceRuns(s, Dash, "-"))
    decreases |s|
  {
    if s != [] {
      if s[0] == '-' {
        var rest := SkipRun(s, Dash);
        assert forall i :: 0 <= i < |rest| ==> rest[i] == s[|s| - |rest| + i];
        CollapsedChars(rest);
      } else {
        CollapsedChars(s[1..]);
      }
    }
  }

  /** Every character outside the replaced class survives the replacement. */
  lemma {:induction false} ReplaceRunsKeeps(s: string, k: CharClass, rep: string, c: char)
    requires c in s && !InClass(k, c)
    ensures c in ReplaceRuns(s, k, rep)
    decreases |s|
  {
    if s[0] == c {
    } else if InClass(k, s[0]) {
      SkipRunKeeps(s, k, c);
      ReplaceRunsKeeps(SkipRun(s, k), k, rep, c);
    } else {
      assert c in s[1..];
      ReplaceRunsKeeps(s[1..], k, rep, c);
    }
  }

  /** `replace(/-+/g, '-')` leaves no two adjacent dashes. */
  lemma {:induction false} CollapsedHasNoDoubleDash(s: string)
    ensures NoDoubleDash(ReplaceRuns(s, Dash, "-"))
    decreases |s|
  {
    if s == [] {
    } else if s[0] == '-' {
      var rest := SkipRun(s, Dash);
      CollapsedHasNoDoubleDash(rest);
    } else {
      CollapsedHasNoDoubleDash(s[1..]);
    }
  }

  /** Text without adjacent dashes is unchanged by collapsing dash runs. */
  lemma {:induction false} CollapseUnchanged(s: string)
    requires NoDoubleDash(s)
    ensures ReplaceRuns(s, Dash, "-") == s
    decreases |s|
  {
    if s == [] {
    } else {
      assert NoDoubleDash(s[1..]) by {
        forall i | 0 <= i < |s[1..]| - 1 ensures !(s[1..][i] == '-' && s[1..][i + 1] == '-') {
          assert s[1..][i] == s[i + 1] && s[1..][i + 1] == s[i + 2];
        }
      }
      CollapseUnchanged(s[1..]);
      if s[0] == '-' {
        assert SkipRun(s, Dash) == s[1..] by {
          if |s| > 1 {
            assert s[1] != '-';
          }
        }
      }
    }
  }

  /** `s` without its trailing run of dashes. */
  function DropTrailingDashes(s: string): (r: string)
    ensures |r| <= |s| && r == s[..|r|]
    ensures forall i :: |r| <= i < |s| ==> s[i] == '-'
    ensures r == [] || r[|r| - 1] != '-'
  {
    if s != [] && s[|s| - 1] == '-' then DropTrailingDashes(s[..|s| - 1]) else s
  }

  /**
   * `replace(/^-+|-+$/g, '')`: the leading and the trailing run of dashes go;
   * what remains is the piece of `s` between them.
   */
  function TrimDashes(s: string): (r: string)
    ensures r == [] || (r[0] != '-' && r[|r| - 1] != '-')
    ensures |r| <= |s|
  {
    DropTrailingDashes(SkipRun(s, Dash))
  }

  /** A piece of `s` framed by dashes holds every character of `s` but the dash, and nothing else. */
  lemma DashFramedPiece(s: string, a: nat, b: nat)
    requires a <= b <= |s|
    requires forall i :: 0 <= i < a ==> s[i] == '-'
    requires forall i :: b <= i < |s| ==> s[i] == '-'
    ensures forall c :: c in s && c != '-' ==> c in s[a..b]
    ensures forall c :: c in s[a..b] ==> c in s
  {
    var r := s[a..b];
    forall c | c in s && c != '-' ensures c in r {
      var i :| 0 <= i < |s| && s[i] == c;
      assert r[i - a] == c;
    }
    forall c | c in r ensures c in s {
      var i :| 0 <= i < |r| && r[i] == c;
      assert s[a + i] == c;
    }
  }

  /** Every piece of slug text is slug text, and a piece of text without `--` has none. */
  lemma PieceKeepsSlugChars(s: string, a: nat, b: nat)
    requires a <= b <= |s|
    ensures AllSlugChars(s) ==> AllSlugChars(s[a..b])
    ensures NoDoubleDash(s) ==> NoDoubleDash(s[a..b])
  {
    var r := s[a..b];
    if AllSlugChars(s) {
      forall i | 0 <= i < |r| ensures IsSlugChar(r[i]) {
        assert r[i] == s[a + i];
      }
    }
    if NoDoubleDash(s) {
      forall i | 0 <= i < |r| - 1 ensures !(r[i] == '-' && r[i + 1] == '-') {
        assert r[i] == s[a + i] && r[i + 1] == s[a + i + 1];
      }
    }
  }

  /**
   * Trimming dashes keeps every other character, adds none, keeps slug text
   * slug text and introduces no `--`; text with no edge dash is left alone.
   */
  lemma TrimDashesFacts(s: string)
    ensures var r := TrimDashes(s);
      && (forall c :: c in s && c != '-' ==> c in r)
      && (forall c :: c in r ==> c in s)
      && (AllSlugChars(s) ==> AllSlugChars(r))
      && (NoDoubleDash(s) ==> NoDoubleDash(r))
      && ((s == [] || (s[0] != '-' && s[|s| - 1] != '-')) ==> r == s)
  {
    var rest := SkipRun(s, Dash);
    var r := DropTrailingDashes(rest);
    var a := |s| - |rest|;
    var b := a + |r|;
    assert r == s[a..b];
    assert forall i :: b <= i < |s| ==> s[i] == rest[i - a];
    DashFramedPiece(s, a, b);
    PieceKeepsSlugChars(s, a, b);
  }

  /** The shared first stage of both normalisations: trim, lower-case, strip accents. */
  function Normalized(u: UnicodeOps, input: string): (r: string)
    ensures NoAccents(r)
  {
    RemoveAccents(u, u.toLowerCase(Trim(input)))
  }

  /** The three replacements of `processKeyword` after normalisation. */
  function Slugged(n: string): string {
    TrimDashes(ReplaceRuns(ReplaceRuns(n, NotSlug, "-"), Dash, "-"))
  }

  /**
   * `processKeyword`: the normalised text with every run of characters outside
   * `[a-z0-9-]` turned into one dash, dash runs collapsed, and edge dashes
   * trimmed; the result is always a well-formed label.
   */
  function ProcessKeyword(u: UnicodeOps, input: string): (r: string)
    ensures IsSlug(r)
  {
    var slugged := ReplaceRuns(Normalized(u, input), NotSlug, "-");
    SluggedChars(Normalized(u, input));
    CollapsedChars(slugged);
    CollapsedHasNoDoubleDash(slugged);
    TrimDashesFacts(ReplaceRuns(slugged, Dash, "-"));
    Slugged(Normalized(u, input))
  }

  /** The letters and digits of `s`, in order: a reference definition of deleting everything else. */
  function KeepAlnum(s: string): (r: string)
    ensures AllLowerAlnum(r)
  {
    if s == [] then [] else (if IsLowerAlnum(s[0]) then [s[0]] else []) + KeepAlnum(s[1..])
  }

  /** No class of replaced characters holds a letter or digit. */
  lemma ClassHasNoAlnum(k: CharClass, c: char)
    requires InClass(k, c)
    ensures !IsLowerAlnum(c)
  {
  }

  /** Skipping a run of any class drops no letter or digit. */
  lemma {:induction false} KeepAlnumSkip(s: string, k: CharClass)
    ensures KeepAlnum(SkipRun(s, k)) == KeepAlnum(s)
  {
    if s != [] && InClass(k, s[0]) {
      ClassHasNoAlnum(k, s[0]);
      KeepAlnumSkip(s[1..], k);
    }
  }

  /** The filter distributes over concatenation. */
  lemma {:induction false} KeepAlnumAppend(a: string, b: string)
    ensures KeepAlnum(a + b) == KeepAlnum(a) + KeepAlnum(b)
  {
    if a == [] {
      assert a + b == b;
    } else {
      var head := if IsLowerAlnum(a[0]) then [a[0]] else [];
      assert (a + b)[0] == a[0] && (a + b)[1..] == a[1..] + b;
      assert KeepAlnum(a + b) == head + KeepAlnum(a[1..] + b);
      KeepAlnumAppend(a[1..], b);
      assert KeepAlnum(a) == head + KeepAlnum(a[1..]);
    }
  }

  /** Replacing runs by text without letters or digits keeps the letters and digits, in order. */
  lemma {:induction false} ReplaceRunsKeepsAlnum(s: string, k: CharClass, rep: string)
    requires KeepAlnum(rep) == []
    ensures KeepAlnum(ReplaceRuns(s, k, rep)) == KeepAlnum(s)
    decreases |s|
  {
    if s != [] {
      if InClass(k, s[0]) {
        var rest := SkipRun(s, k);
        ReplaceRunsKeepsAlnum(rest, k, rep);
        KeepAlnumAppend(rep, ReplaceRuns(rest, k, rep));
        KeepAlnumSkip(s, k);
      } else {
        ReplaceRunsKeepsAlnum(s[1..], k, rep);
        KeepAlnumAppend([s[0]], ReplaceRuns(s[1..], k, rep));
      }
    }
  }

  /** Dropping the trailing dashes keeps the letters and digits. */
  lemma {:induction false} DropTrailingDashesKeepsAlnum(s: string)
    ensures KeepAlnum(DropTrailingDashes(s)) == KeepAlnum(s)
    decreases |s|
  {
    if s != [] && s[|s| - 1] == '-' {
      var init := s[..|s| - 1];
      DropTrailingDashesKeepsAlnum(init);
      assert s == init + [s[|s| - 1]];
      KeepAlnumAppend(init, [s[|s| - 1]]);
    }
  }

  /**
   * The slug keeps exactly the letters and digits of the normalised input,
   * in their order: the same reference filter as the combined form.
   */
  lemma ProcessKeywordKeepsAlnum(u: UnicodeOps, input: string)
    ensures KeepAlnum(ProcessKeyword(u, input)) == KeepAlnum(Normalized(u, input))
  {
    var n := Normalized(u, input);
    var slugged := ReplaceRuns(n, NotSlug, "-");
    var collapsed := ReplaceRuns(slugged, Dash, "-");
    ReplaceRunsKeepsAlnum(n, NotSlug, "-");
    ReplaceRunsKeepsAlnum(slugged, Dash, "-");
    KeepAlnumSkip(collapsed, Dash);
    DropTrailingDashesKeepsAlnum(SkipRun(collapsed, Dash));
  }

  /** Replacing each run of non-alphanumerics by nothing is the same as filtering the alphanumerics. */
  lemma {:induction false} DeleteRunsIsFilter(s: string)
    ensures ReplaceRuns(s, NotAlnum, "") == KeepAlnum(s)
    decreases |s|
  {
    if s != [] {
      if !IsLowerAlnum(s[0]) {
        var rest := SkipRun(s, NotAlnum);
        DeleteRunsIsFilter(rest);
        KeepAlnumSkip(s, NotAlnum);
        assert ReplaceRuns(s, NotAlnum, "") == "" + ReplaceRuns(rest, NotAlnum, "");
      } else {
        DeleteRunsIsFilter(s[1..]);
      }
    }
  }

  /** `processKeywordForCombine`: the normalised text with everything outside `[a-z0-9]` deleted. */
  function ProcessKeywordForCombine(u: UnicodeOps, input: string): (r: string)
    ensures AllLowerAlnum(r)
  {
    DeleteRunsIsFilter(Normalized(u, input));
    ReplaceRuns(Normalized(u, input), NotAlnum, "")
  }

  /** The combined form is exactly the letters and digits of the normalised input, in order. */
  lemma CombineIsFilter(u: UnicodeOps, input: string)
    ensures ProcessKeywordForCombine(u, input) == KeepAlnum(Normalized(u, input))
  {
    DeleteRunsIsFilter(Normalized(u, input));
  }

  /**
   * The processed keyword is empty (the search is refused) exactly when the
   * normalised input holds no letter `a`-`z` and no digit.
   */
  lemma KeywordEmptyIff(u: UnicodeOps, input: string)
    ensures ProcessKeyword(u, input) == [] <==>
      forall i :: 0 <= i < |Normalized(u, input)| ==> !IsLowerAlnum(Normalized(u, input)[i])
  {
    var n := Normalized(u, input);
    var r := ProcessKeyword(u, input);
    if i :| 0 <= i < |n| && IsLowerAlnum(n[i]) {
      AlnumReachesSlug(n, n[i]);
    }
    if r != [] {
      SlugCharFromInput(n, r[0]);
    }
  }

  /** A letter or digit of the input survives all three replacements. */
  lemma AlnumReachesSlug(n: string, c: char)
    requires c in n && IsLowerAlnum(c)
    ensures c in Slugged(n)
  {
    var slugged := ReplaceRuns(n, NotSlug, "-");
    ReplaceRunsKeeps(n, NotSlug, "-", c);
    ReplaceRunsKeeps(slugged, Dash, "-", c);
    TrimDashesFacts(ReplaceRuns(slugged, Dash, "-"));
  }

  /** The first character of a non-empty slug is a letter or digit of the input. */
  lemma SlugCharFromInput(n: string, c: char)
    requires Slugged(n) != [] && c == Slugged(n)[0]
    ensures c in n && IsLowerAlnum(c)
  {
    var slugged := ReplaceRuns(n, NotSlug, "-");
    var collapsed := ReplaceRuns(slugged, Dash, "-");
    TrimDashesFacts(collapsed);
    assert c in collapsed && c != '-';
    var i :| 0 <= i < |collapsed| && collapsed[i] == c;
    assert c in slugged;
    var j :| 0 <= j < |slugged| && slugged[j] == c;
    assert c in n && !InClass(NotSlug, c);
  }

  /** `processKeyword` is idempotent: its output is a fixed point. */
  lemma ProcessKeywordIdempotent(u: UnicodeOps, input: string)
    requires AgreesOnAscii(u)
    ensures ProcessKeyword(u, ProcessKeyword(u, input)) == ProcessKeyword(u, input)
  {
    var y := ProcessKeyword(u, input);
    NormalizedSlug(u, y);
    ReplaceRunsUnchanged(y, NotSlug, "-");
    CollapseUnchanged(y);
    TrimDashesFacts(y);
  }

  /** Slug text (no upper case, no whitespace, ASCII) passes the first stage unchanged. */
  lemma NormalizedSlug(u: UnicodeOps, y: string)
    requires AgreesOnAscii(u)
    requires AllSlugChars(y)
    ensures Normalized(u, y) == y
  {
    TrimUnchanged(y);
    assert IsAscii(y);
    AsciiLowerUnchanged(y);
    assert u.toLowerCase(y) == y;
    RemoveAccentsAscii(u, y);
  }

  /** A blank input normalises to the empty keyword. */
  lemma BlankInputRefused(u: UnicodeOps, input: string)
    requires AgreesOnAscii(u) && Trim(input) == []
    ensures ProcessKeyword(u, input) == []
  {
    assert IsAscii([]);
    assert Normalized(u, input) == RemoveAccents(u, []);
    RemoveAccentsAscii(u, []);
  }

  /** The TLDs every candidate ends with, in display order. */
  const Tlds: seq<string> := [".com", ".vn", ".net", ".com.vn", ".org", ".shop", ".store"]

  /** The suffixes of the second suggestion group. */
  const Suffixes: seq<string> := ["group", "global", "tech", "solution", "pro"]

  /** `tlds.map(tld => stem + tld)`. */
  function Appended(stem: string, tlds: seq<string>): (r: seq<string>)
    ensures |r| == |tlds|
    ensures forall i :: 0 <= i < |tlds| ==> r[i] == stem + tlds[i]
  {
    if tlds == [] then [] else [stem + tlds[0]] + Appended(stem, tlds[1..])
  }

  /**
   * `suffixes.flatMap(suf => TLDs.slice(0, 3).map(tld => keyword-suf + tld))`:
   * suffix-major, three TLDs per suffix.
   */
  function SuffixDomains(keyword: string, suffixes: seq<string>): (r: seq<string>)
    ensures |r| == 3 * |suffixes|
    ensures forall i, j :: 0 <= i < |suffixes| && 0 <= j < 3 ==>
      r[3 * i + j] == keyword + "-" + suffixes[i] + Tlds[j]
  {
    if suffixes == [] then []
    else
      var head := Appended(keyword + "-" + suffixes[0], Tlds[..3]);
      var tail := SuffixDomains(keyword, suffixes[1..]);
      assert forall i, j :: 0 <= i < |suffixes| && 0 <= j < 3 ==>
        (head + tail)[3 * i + j] == keyword + "-" + suffixes[i] + Tlds[j] by {
        forall i, j | 0 <= i < |suffixes| && 0 <= j < 3
          ensures (head + tail)[3 * i + j] == keyword + "-" + suffixes[i] + Tlds[j]
        {
          if i > 0 {
            assert (head + tail)[3 * i + j] == tail[3 * (i - 1) + j];
            assert suffixes[1..][i - 1] == suffixes[i];
          }
        }
      }
      head + tail
  }

  /** The two suggestion tabs, 'Ngành nghề' (industry) and 'Hậu tố' (suffix). */
  datatype Tab = IndustryTab | SuffixTab

  datatype Group = Group(tab: Tab, domains: seq<string>)

  /** The direct candidates and the suggestion groups in key insertion order. */
  datatype Results = Results(direct: seq<string>, suggestions: seq<Group>)

  /** The industry group, present only when the combined industry is non-empty. */
  function IndustryGroups(u: UnicodeOps, keyword: string, industry: string): (r: seq<Group>)
    ensures |r| == if ProcessKeywordForCombine(u, industry) == [] then 0 else 1
    ensures forall g :: g in r ==>
      && g.tab == IndustryTab
      && |g.domains| == |Tlds|
      && forall i :: 0 <= i < |Tlds| ==>
        g.domains[i] == ProcessKeywordForCombine(u, keyword) + ProcessKeywordForCombine(u, industry) + Tlds[i]
  {
    var combinedIndustry := ProcessKeywordForCombine(u, industry);
    if combinedIndustry != [] then
      [Group(IndustryTab, Appended(ProcessKeywordForCombine(u, keyword) + combinedIndustry, Tlds))]
    else []
  }

  /** `generateSuggestions(keyword, industry)`. */
  function GenerateSuggestions(u: UnicodeOps, keyword: string, industry: string): (r: Results)
    ensures |r.direct| == |Tlds| == 7
    ensures forall i :: 0 <= i < |Tlds| ==> r.direct[i] == keyword + Tlds[i]
    ensures r.suggestions != []
  {
    var suffixGroup := Group(SuffixTab, SuffixDomains(keyword, Suffixes));
    Results(Appended(keyword, Tlds), IndustryGroups(u, keyword, industry) + [suffixGroup])
  }

  /**
   * The suggestion groups: the industry group exactly when the combined
   * industry is non-empty, with 7 entries; then always the suffix group with
   * 15 entries, suffix-major over the first three TLDs; no tab twice.
   */
  lemma SuggestionGroups(u: UnicodeOps, keyword: string, industry: string)
    ensures var r := GenerateSuggestions(u, keyword, industry);
      && |r.suggestions| == (if ProcessKeywordForCombine(u, industry) == [] then 1 else 2)
      && ((exists g :: g in r.suggestions && g.tab == IndustryTab) <==>
          ProcessKeywordForCombine(u, industry) != [])
      && (forall i, j :: 0 <= i < j < |r.suggestions| ==> r.suggestions[i].tab != r.suggestions[j].tab)
      && (forall g :: g in r.suggestions && g.tab == IndustryTab ==>
          |g.domains| == 7 &&
          forall i :: 0 <= i < 7 ==>
            g.domains[i] == ProcessKeywordForCombine(u, keyword) + ProcessKeywordForCombine(u, industry) + Tlds[i])
      && r.suggestions[|r.suggestions| - 1].tab == SuffixTab
      && |r.suggestions[|r.suggestions| - 1].domains| == 15
      && (forall i, j :: 0 <= i < 5 && 0 <= j < 3 ==>
          r.suggestions[|r.suggestions| - 1].domains[3 * i + j] == keyword + "-" + Suffixes[i] + Tlds[j])
  {
    var r := GenerateSuggestions(u, keyword, industry);
    var industryGroups := IndustryGroups(u, keyword, industry);
    var suffixGroup := Group(SuffixTab, SuffixDomains(keyword, Suffixes));
    assert r.suggestions == industryGroups + [suffixGroup];
    assert |Suffixes| == 5;
    forall g | g in r.suggestions && g.tab == IndustryTab ensures g in industryGroups {
    }
  }

  /** `Object.keys(res.suggestions)[0] || null`. */
  function FirstTab(res: Results): Option<Tab> {
    if res.suggestions == [] then None else Some(res.suggestions[0].tab)
  }

  /** After a search the industry tab is active when the combined industry is non-empty, the suffix tab otherwise. */
  lemma ActiveTabAfterSearch(u: UnicodeOps, keyword: string, industry: string)
    ensures FirstTab(GenerateSuggestions(u, keyword, industry)) ==
      Some(if ProcessKeywordForCombine(u, industry) != [] then IndustryTab else SuffixTab)
  {
    var industryGroups := IndustryGroups(u, keyword, industry);
    if industryGroups != [] {
      assert industryGroups[0] in industryGroups;
    }
  }

  /** The search held back by the 500 ms timer: the processed keyword and the industry text at search time. */
  datatype SearchRequest = SearchRequest(keyword: string, industry: string)

  /**
   * The guard of `handleSearch`: no search for an empty processed keyword,
   * otherwise a request carrying the processed keyword and the industry text.
   */
  function SearchFor(u: UnicodeOps, domainInput: string, industryInput: string): Option<SearchRequest> {
    var processed := ProcessKeyword(u, domainInput);
    if processed == [] then None else Some(SearchRequest(processed, industryInput))
  }

  /**
   * A search goes ahead exactly when the domain input holds a letter or digit
   * after normalisation, and then carries a well-formed label.
   */
  lemma SearchGuard(u: UnicodeOps, domainInput: string, industryInput: string)
    ensures var r := SearchFor(u, domainInput, industryInput);
      && (r.None? <==> forall i :: 0 <= i < |Normalized(u, domainInput)| ==> !IsLowerAlnum(Normalized(u, domainInput)[i]))
      && (r.Some? ==> r.value.keyword == ProcessKeyword(u, domainInput) && IsSlug(r.value.keyword)
                      && r.value.keyword != [] && r.value.industry == industryInput)
  {
    KeywordEmptyIff(u, domainInput);
  }

  /** The state of the domain page. */
  class DomainSearch {
    const unicode: UnicodeOps
    var domainInput: string
    var industryInput: string
    var results: Results
    var activeTab: Option<Tab>
    var isLoading: bool
    var resultsVisible: bool

    constructor(unicode: UnicodeOps)
      ensures this.unicode == unicode
      ensures domainInput == [] && industryInput == []
      ensures results == Results([], []) && activeTab == None
      ensures !isLoading && !resultsVisible
    {
      this.unicode := unicode;
      domainInput, industryInput := [], [];
      results, activeTab := Results([], []), None;
      isLoading, resultsVisible := false, false;
    }

    method SetDomainInput(text: string)
      modifies this`domainInput
      ensures domainInput == text
    {
      domainInput := text;
    }

    method SetIndustryInput(text: string)
      modifies this`industryInput
      ensures industryInput == text
    {
      industryInput := text;
    }

    /** A tab button makes its group the active one. */
    method SelectTab(tab: Tab)
      modifies this`activeTab
      ensures activeTab == Some(tab)
    {
      activeTab := Some(tab);
    }

    /** `setIsLoading(true)` and `setResultsVisible(false)`: a search is under way. */
    method StartLoading()
      modifies this`isLoading, this`resultsVisible
      ensures isLoading && !resultsVisible
    {
      isLoading, resultsVisible := true, false;
    }

    /**
     * `handleSearch` up to the timer: an empty processed keyword changes
     * nothing; otherwise loading starts, the results are hidden and the request
     * for the timer callback is returned.
     */
    method Search() returns (pending: Option<SearchRequest>)
      modifies this`isLoading, this`resultsVisible
      ensures pending == SearchFor(unicode, old(domainInput), old(industryInput))
      ensures pending.None? ==> isLoading == old(isLoading) && resultsVisible == old(resultsVisible)
      ensures pending.Some? ==> isLoading && !resultsVisible
    {
      pending := SearchFor(unicode, domainInput, industryInput);
      if pending.Some? {
        StartLoading();
      }
    }

    /** The 500 ms callback: store the suggestions, activate the first group, stop loading. */
    method Complete(request: SearchRequest)
      modifies this`results, this`activeTab, this`isLoading
      ensures results == GenerateSuggestions(unicode, request.keyword, request.industry)
      ensures activeTab == FirstTab(results)
      ensures activeTab ==
        Some(if ProcessKeywordForCombine(unicode, request.industry) != [] then IndustryTab else SuffixTab)
      ensures !isLoading
    {
      var res := GenerateSuggestions(unicode, request.keyword, request.industry);
      ActiveTabAfterSearch(unicode, request.keyword, request.industry);
      Publish(res, FirstTab(res));
    }

    /** `setResults`, `setActiveTab` and `setIsLoading(false)`. */
    method Publish(res: Results, tab: Option<Tab>)
      modifies this`results, this`activeTab, this`isLoading
      ensures results == res && activeTab == tab && !isLoading
    {
      results, activeTab, isLoading := res, tab, false;
    }

    /** The 50 ms callback that reveals the results. */
    method Reveal()
      modifies this`resultsVisible
      ensures resultsVisible
    {
      resultsVisible := true;
    }
  }
}

/** The Python string operations the bot relies on: `lower()` (ASCII letters
    only), `in`, `find`/`rfind`, `split(sep)`, `sep.join`, `replace`,
    `strip()`/`rstrip(chars)`, `startswith` and `splitlines()`. */
module Text {
  import opened Wrappers

  // ---------------------------------------------------------------- case

  function LowerChar(c: char): char
  {
    if 'A' <= c <= 'Z' then (c as int + 32) as char else c
  }

  /** `s.lower()` on ASCII letters; every other character is kept. */
  function Lower(s: string): (r: string)
    ensures |r| == |s|
    ensures forall i :: 0 <= i < |s| ==> r[i] == LowerChar(s[i])
  {
    if s == [] then [] else [LowerChar(s[0])] + Lower(s[1..])
  }

  lemma LowerIdempotent(s: string)
    ensures Lower(Lower(s)) == Lower(s)
  {
  }

  // ----------------------------------------------------------- substrings

  predicate OccursAt(s: string, sub: string, i: int)
  {
    0 <= i && i + |sub| <= |s| && s[i..i + |sub|] == sub
  }

  /** Python's `sub in s`. */
  predicate Contains(s: string, sub: string)
  {
    exists i | 0 <= i <= |s| - |sub| :: OccursAt(s, sub, i)
  }

  predicate StartsWith(s: string, prefix: string)
  {
    |prefix| <= |s| && s[..|prefix|] == prefix
  }

  /** `s.find(sub)`: the first position where `sub` occurs. */
  function IndexOf(s: string, sub: string): (r: Option<nat>)
    ensures r.Some? ==> OccursAt(s, sub, r.value)
    ensures r.Some? ==> forall j :: 0 <= j < r.value ==> !OccursAt(s, sub, j)
    ensures r.None? <==> !Contains(s, sub)
    decreases |s|
  {
    if StartsWith(s, sub) then Some(0)
    else if s == [] then None
    else
      var rest := IndexOf(s[1..], sub);
      ShiftOccurrence(s, sub);
      assert !OccursAt(s, sub, 0);
      assert Contains(s, sub) ==> Contains(s[1..], sub) by {
        if Contains(s, sub) {
          var i :| 0 <= i <= |s| - |sub| && OccursAt(s, sub, i);
          assert i > 0 && OccursAt(s[1..], sub, i - 1);
        }
      }
      match rest
      case None => None
      case Some(i) => Some(i + 1)
  }

  lemma ShiftOccurrence(s: string, sub: string)
    requires s != []
    ensures forall j :: 1 <= j ==> (OccursAt(s, sub, j) <==> OccursAt(s[1..], sub, j - 1))
  {
    forall j | 1 <= j ensures OccursAt(s, sub, j) <==> OccursAt(s[1..], sub, j - 1) {
      if j + |sub| <= |s| {
        assert s[1..][j - 1..j - 1 + |sub|] == s[j..j + |sub|];
      }
    }
  }

  /** `s.rfind(sub)`: the last position where `sub` occurs. */
  function LastIndexOf(s: string, sub: string): (r: Option<nat>)
    ensures r.Some? ==> OccursAt(s, sub, r.value)
    ensures r.Some? ==> forall j :: r.value < j ==> !OccursAt(s, sub, j)
    ensures r.None? <==> !Contains(s, sub)
    decreases |s|
  {
    if |sub| <= |s| && s[|s| - |sub|..] == sub then
      assert OccursAt(s, sub, |s| - |sub|);
      Some(|s| - |sub|)
    else if s == [] then None
    else
      var r := LastIndexOf(s[..|s| - 1], sub);
      DropLastOccurrence(s, sub);
      r
  }

  /** An occurrence with none after it is the one `rfind` returns. */
  lemma LastIndexOfIsLast(s: string, sub: string, i: nat)
    requires OccursAt(s, sub, i)
    requires forall j :: i < j ==> !OccursAt(s, sub, j)
    ensures LastIndexOf(s, sub) == Some(i)
  {
    assert Contains(s, sub);
  }

  lemma DropLastOccurrence(s: string, sub: string)
    requires s != [] && !(|sub| <= |s| && s[|s| - |sub|..] == sub)
    ensures forall j :: OccursAt(s[..|s| - 1], sub, j) <==> OccursAt(s, sub, j)
  {
    forall j ensures OccursAt(s[..|s| - 1], sub, j) <==> OccursAt(s, sub, j) {
      if 0 <= j && j + |sub| <= |s| - 1 {
        assert s[..|s| - 1][j..j + |sub|] == s[j..j + |sub|];
      }
    }
  }

  // ------------------------------------------------- split, join, replace

  /** `sep.join(parts)`. */
  function Join(parts: seq<string>, sep: string): string
  {
    if parts == [] then []
    else if |parts| == 1 then parts[0]
    else parts[0] + sep + Join(parts[1..], sep)
  }

  /** `s.split(sep)` for a non-empty separator: every occurrence, scanned
      left to right, cuts the string; empty pieces are kept. */
  function Split(s: string, sep: string): (r: seq<string>)
    requires sep != []
    ensures |r| >= 1
    ensures forall k :: 0 <= k < |r| ==> !Contains(r[k], sep)
    ensures Contains(s, sep) <==> |r| >= 2
    ensures Join(r, sep) == s
    decreases |s|
  {
    match IndexOf(s, sep)
    case None => [s]
    case Some(i) =>
      var head := s[..i];
      var tail := Split(s[i + |sep|..], sep);
      NoEarlierOccurrence(s, sep, i);
      assert s == head + sep + s[i + |sep|..];
      [head] + tail
  }

  lemma NoEarlierOccurrence(s: string, sep: string, i: nat)
    requires i <= |s|
    requires forall j :: 0 <= j < i ==> !OccursAt(s, sep, j)
    requires sep != []
    ensures !Contains(s[..i], sep)
  {
    forall j | 0 <= j <= i - |sep| ensures !OccursAt(s[..i], sep, j) {
      assert s[..i][j..j + |sep|] == s[j..j + |sep|];
      assert !OccursAt(s, sep, j);
    }
  }

  /** `s.replace(pat, repl)`: Python replaces the non-overlapping occurrences
      found left to right, which is joining the split pieces with `repl`. */
  function Replace(s: string, pat: string, repl: string): string
    requires pat != []
  {
    Join(Split(s, pat), repl)
  }

  lemma {:induction false} JoinContainsSep(parts: seq<string>, sep: string)
    requires |parts| >= 2
    ensures Contains(Join(parts, sep), sep)
  {
    var j := Join(parts, sep);
    assert j == parts[0] + sep + Join(parts[1..], sep);
    assert j[|parts[0]|..|parts[0]| + |sep|] == sep;
    assert OccursAt(j, sep, |parts[0]|);
  }

  /** After `s.replace(pat, repl)` on a string that contains `pat`, the
      replacement text is present. */
  lemma ReplaceInserts(s: string, pat: string, repl: string)
    requires pat != [] && Contains(s, pat)
    ensures Contains(Replace(s, pat, repl), repl)
  {
    JoinContainsSep(Split(s, pat), repl);
  }

  /** Replacing an occurring pattern by `a + b` leaves `a` in the text. */
  lemma {:induction false} ReplaceInsertsPrefix(s: string, pat: string, a: string, b: string)
    requires pat != [] && Contains(s, pat)
    ensures Contains(Replace(s, pat, a + b), a)
  {
    ReplaceInserts(s, pat, a + b);
    ContainsPrefixOfNeedle(Replace(s, pat, a + b), a, b);
  }

  lemma {:induction false} ContainsPrefixOfNeedle(s: string, a: string, b: string)
    requires Contains(s, a + b)
    ensures Contains(s, a)
  {
    var i :| 0 <= i <= |s| - |a + b| && OccursAt(s, a + b, i);
    assert s[i..i + |a|] == (a + b)[..|a|];
    assert OccursAt(s, a, i);
  }

  lemma {:induction false} ContainsInLonger(s: string, t: string, sub: string)
    requires Contains(s, sub)
    ensures Contains(t + s, sub) && Contains(s + t, sub)
  {
    var i :| 0 <= i <= |s| - |sub| && OccursAt(s, sub, i);
    assert (t + s)[|t| + i..|t| + i + |sub|] == s[i..i + |sub|];
    assert OccursAt(t + s, sub, |t| + i);
    assert (s + t)[i..i + |sub|] == s[i..i + |sub|];
    assert OccursAt(s + t, sub, i);
  }

  /** Splitting `a + sep + b` where `a` never holds the separator's first
      character cuts exactly after `a`. */
  lemma {:induction false} SplitAfterClean(a: string, sep: string, b: string)
    requires sep != []
    requires forall k :: 0 <= k < |a| ==> a[k] != sep[0]
    ensures Split(a + sep + b, sep) == [a] + Split(b, sep)
  {
    var s := a + sep + b;
    assert OccursAt(s, sep, |a|);
    forall j | 0 <= j < |a| ensures !OccursAt(s, sep, j) {
      assert s[j] == a[j];
    }
    var i := IndexOf(s, sep);
    assert i == Some(|a|);
    assert s[..|a|] == a;
    assert s[|a| + |sep|..] == b;
  }

  /** Splitting `pre + m + [c]` at `pre`, where `m` never holds the first
      character of `pre`, and trimming the trailing `c` gives `m` back. */
  lemma {:induction false} SplitAfterPrefix(pre: string, m: string, c: char)
    requires pre != [] && pre[0] != c
    requires forall k :: 0 <= k < |m| ==> m[k] != pre[0]
    requires m != [] && m[|m| - 1] != c
    ensures var parts := Split(pre + (m + [c]), pre);
      |parts| >= 2 && TrimEndChar(parts[1], c) == m
  {
    var rest := m + [c];
    assert [] + pre + rest == pre + rest;
    SplitAfterClean([], pre, rest);
    MissingCharNotContained(rest, pre, 0);
    SplitWithoutSep(rest, pre);
    assert rest[..|rest| - 1] == m;
  }

  /** A text without the separator splits into itself. */
  lemma SplitWithoutSep(s: string, sep: string)
    requires sep != [] && !Contains(s, sep)
    ensures Split(s, sep) == [s]
  {
  }

  /** A text that lacks one of the characters of `sub` does not contain `sub`. */
  lemma MissingCharNotContained(s: string, sub: string, j: nat)
    requires j < |sub|
    requires forall k :: 0 <= k < |s| ==> s[k] != sub[j]
    ensures !Contains(s, sub)
  {
    forall i | 0 <= i <= |s| - |sub| ensures !OccursAt(s, sub, i) {
      assert s[i..i + |sub|][j] == s[i + j];
    }
  }

  /** A text without the character `c` does not contain `[c]`. */
  lemma NoCharNoContains(s: string, c: char)
    requires forall k :: 0 <= k < |s| ==> s[k] != c
    ensures !Contains(s, [c])
  {
    forall j | 0 <= j <= |s| - 1 ensures !OccursAt(s, [c], j) {
      assert s[j..j + 1][0] == s[j];
    }
  }

  /** Replacing a text's unique leading occurrence of `pat` by nothing drops it. */
  lemma {:induction false} ReplaceLeadingOnly(pat: string, rest: string)
    requires pat != [] && !Contains(rest, pat)
    ensures Replace(pat + rest, pat, "") == rest
  {
    var s := pat + rest;
    assert s[..|pat|] == pat;
    assert IndexOf(s, pat) == Some(0);
    assert s[|pat|..] == rest;
    assert Split(s, pat) == [[]] + Split(rest, pat);
    assert Split(rest, pat) == [rest];
    assert Join([[], rest], "") == rest;
  }

  /** Replacing a trailing pattern whose first character the text before
      it lacks by nothing drops it. */
  lemma {:induction false} ReplaceTrailingOnly(a: string, pat: string)
    requires pat != []
    requires forall k :: 0 <= k < |a| ==> a[k] != pat[0]
    ensures Replace(a + pat, pat, "") == a
  {
    assert a + pat == a + pat + [];
    SplitAfterClean(a, pat, []);
    assert Split([], pat) == [[]];
    assert Join([a, []], "") == a + "" + [];
  }

  /** `s` with every `c` removed. */
  function Without(s: string, c: char): (r: string)
    ensures |r| <= |s|
    ensures forall i :: 0 <= i < |r| ==> r[i] != c
    ensures (forall i :: 0 <= i < |s| ==> s[i] != c) ==> r == s
    decreases |s|
  {
    if s == [] then []
    else (if s[0] == c then [] else [s[0]]) + Without(s[1..], c)
  }

  lemma {:induction false} WithoutConcat(a: string, b: string, c: char)
    ensures Without(a + b, c) == Without(a, c) + Without(b, c)
    decreases |a|
  {
    if a == [] {
      assert a + b == b;
    } else {
      assert (a + b)[1..] == a[1..] + b;
      WithoutConcat(a[1..], b, c);
    }
  }

  /** `s.replace(c, "")` for a one-character pattern removes every `c`. */
  lemma {:induction false} ReplaceCharByNothing(s: string, c: char)
    ensures Replace(s, [c], "") == Without(s, c)
    decreases |s|
  {
    match IndexOf(s, [c])
    case None =>
      forall i | 0 <= i < |s| ensures s[i] != c {
        assert !OccursAt(s, [c], i);
        assert s[i..i + 1] == [s[i]];
      }
    case Some(i) =>
      var rest := s[i + 1..];
      assert s == s[..i] + [c] + rest;
      forall k | 0 <= k < i ensures s[..i][k] != c {
        assert !OccursAt(s, [c], k);
        assert s[k..k + 1] == [s[k]];
      }
      assert Split(s, [c]) == [s[..i]] + Split(rest, [c]);
      ReplaceCharByNothing(rest, c);
      WithoutConcat(s[..i] + [c], rest, c);
      WithoutConcat(s[..i], [c], c);
      assert Without([c], c) == [];
  }

  // ------------------------------------------------------------- strip

  /** Characters Python's `str.isspace` accepts. */
  predicate IsSpace(c: char)
  {
    c == ' ' || '\t' <= c <= '\r' || '\U{1C}' <= c <= '\U{1F}'
    || c == '\U{85}' || c == '\U{A0}' || c == '\U{1680}'
    || '\U{2000}' <= c <= '\U{200A}' || c == '\U{2028}' || c == '\U{2029}'
    || c == '\U{202F}' || c == '\U{205F}' || c == '\U{3000}'
  }

  /** The position of the first non-whitespace character at or after `i`
      (`|s|` when there is none). */
  function SkipSpace(s: string, i: nat): (j: nat)
    requires i <= |s|
    ensures i <= j <= |s|
    ensures j < |s| ==> !IsSpace(s[j])
    decreases |s| - i
  {
    if i < |s| && IsSpace(s[i]) then SkipSpace(s, i + 1) else i
  }

  /** The end of the text before the trailing whitespace that follows
      position `lo`. */
  function BackSpace(s: string, lo: nat, j: nat): (k: nat)
    requires lo <= j <= |s|
    ensures lo <= k <= j
    ensures k > lo ==> !IsSpace(s[k - 1])
    decreases j
  {
    if j > lo && IsSpace(s[j - 1]) then BackSpace(s, lo, j - 1) else j
  }

  /** `s.strip()`: the text between the leading and the trailing whitespace. */
  function Strip(s: string): (r: string)
    ensures |r| <= |s|
    ensures r != [] ==> !IsSpace(r[0]) && !IsSpace(r[|r| - 1])
  {
    var lo := SkipSpace(s, 0);
    s[lo..BackSpace(s, lo, |s|)]
  }

  lemma {:induction false} SkipSpaceSkipsOnlySpace(s: string, i: nat)
    requires i <= |s|
    ensures forall k :: i <= k < SkipSpace(s, i) ==> IsSpace(s[k])
    decreases |s| - i
  {
    if i < |s| && IsSpace(s[i]) {
      SkipSpaceSkipsOnlySpace(s, i + 1);
    }
  }

  lemma {:induction false} BackSpaceSkipsOnlySpace(s: string, lo: nat, j: nat)
    requires lo <= j <= |s|
    ensures forall k :: BackSpace(s, lo, j) <= k < j ==> IsSpace(s[k])
    decreases j
  {
    if j > lo && IsSpace(s[j - 1]) {
      BackSpaceSkipsOnlySpace(s, lo, j - 1);
    }
  }

  /** Only whitespace is removed, and from the two ends only. */
  lemma StripRemovesOnlySpace(s: string)
    ensures var lo := SkipSpace(s, 0);
      && Strip(s) == s[lo..lo + |Strip(s)|]
      && (forall k :: 0 <= k < lo ==> IsSpace(s[k]))
      && (forall k :: lo + |Strip(s)| <= k < |s| ==> IsSpace(s[k]))
  {
    SkipSpaceSkipsOnlySpace(s, 0);
    BackSpaceSkipsOnlySpace(s, SkipSpace(s, 0), |s|);
  }

  lemma {:induction false} StripAllSpace(s: string)
    requires forall i :: 0 <= i < |s| ==> IsSpace(s[i])
    ensures Strip(s) == []
  {
    AllSpaceSkipped(s, 0);
  }

  lemma {:induction false} AllSpaceSkipped(s: string, i: nat)
    requires i <= |s|
    requires forall k :: i <= k < |s| ==> IsSpace(s[k])
    ensures SkipSpace(s, i) == |s|
    decreases |s| - i
  {
    if i < |s| {
      AllSpaceSkipped(s, i + 1);
    }
  }

  lemma StripUnpadded(s: string)
    requires s != [] ==> !IsSpace(s[0]) && !IsSpace(s[|s| - 1])
    ensures Strip(s) == s
  {
  }

  /** `s.rstrip(c)` for a single character. */
  function TrimEndChar(s: string, c: char): (r: string)
    ensures |r| <= |s| && r == s[..|r|]
    ensures r != [] ==> r[|r| - 1] != c
    ensures forall i :: |r| <= i < |s| ==> s[i] == c
    decreases |s|
  {
    if s != [] && s[|s| - 1] == c then TrimEndChar(s[..|s| - 1], c) else s
  }

  // ---------------------------------------------------------- splitlines

  /** The line boundaries of Python's `str.splitlines()`. */
  predicate IsLineBreak(c: char)
  {
    c == '\n' || c == '\r' || c == '\U{0B}' || c == '\U{0C}'
    || c == '\U{1C}' || c == '\U{1D}' || c == '\U{1E}'
    || c == '\U{85}' || c == '\U{2028}' || c == '\U{2029}'
  }

  predicate NoLineBreak(s: string)
  {
    forall j :: 0 <= j < |s| ==> !IsLineBreak(s[j])
  }

  function FirstLineBreak(s: string): (r: Option<nat>)
    ensures r.Some? ==> r.value < |s| && IsLineBreak(s[r.value]) && NoLineBreak(s[..r.value])
    ensures r.None? ==> NoLineBreak(s)
    decreases |s|
  {
    if s == [] then None
    else if IsLineBreak(s[0]) then Some(0)
    else match FirstLineBreak(s[1..])
      case None => None
      case Some(i) => Some(i + 1)
  }

  /** `s.splitlines()`: "\r\n" counts as one boundary, and a boundary at
      the very end does not open an empty last line. */
  function SplitLines(s: string): (r: seq<string>)
    ensures r == [] <==> s == []
    decreases |s|
  {
    if s == [] then []
    else match FirstLineBreak(s)
      case None => [s]
      case Some(i) =>
        var next := if s[i] == '\r' && i + 1 < |s| && s[i + 1] == '\n' then i + 2 else i + 1;
        [s[..i]] + SplitLines(s[next..])
  }

  /** No line holds a line boundary. */
  lemma {:induction false} SplitLinesHaveNoBreaks(s: string)
    ensures forall k :: 0 <= k < |SplitLines(s)| ==> NoLineBreak(SplitLines(s)[k])
    decreases |s|
  {
    if s != [] {
      match FirstLineBreak(s)
      case None =>
      case Some(i) =>
        var next := if s[i] == '\r' && i + 1 < |s| && s[i + 1] == '\n' then i + 2 else i + 1;
        SplitLinesHaveNoBreaks(s[next..]);
    }
  }

  /** The first line of a text in which no line boundary comes before
      position `n` starts with the text's first `n` characters. */
  lemma {:induction false} FirstLineKeepsPrefix(s: string, n: nat)
    requires n <= |s| && n > 0 && NoLineBreak(s[..n])
    ensures SplitLines(s) != [] && StartsWith(SplitLines(s)[0], s[..n])
  {
    match FirstLineBreak(s)
    case None =>
    case Some(i) =>
      assert forall j :: 0 <= j < n ==> s[..n][j] == s[j];
      assert s[..i][..n] == s[..n];
  }

  lemma {:induction false} FirstLineBreakAfter(a: string, rest: string)
    requires NoLineBreak(a) && rest != [] && IsLineBreak(rest[0])
    ensures FirstLineBreak(a + rest) == Some(|a|)
    decreases |a|
  {
    if a != [] {
      assert (a + rest)[1..] == a[1..] + rest;
      FirstLineBreakAfter(a[1..], rest);
    }
  }

  /** A line without boundaries followed by "\n" is the first line. */
  lemma {:induction false} SplitLinesAfterLine(a: string, b: string)
    requires NoLineBreak(a)
    ensures SplitLines(a + "\n" + b) == [a] + SplitLines(b)
  {
    var s := a + "\n" + b;
    assert s == a + ("\n" + b);
    FirstLineBreakAfter(a, "\n" + b);
    assert s[|a|] == '\n';
    assert s[..|a|] == a;
    assert s[|a| + 1..] == b;
  }

  /** `"\n".join(lines).splitlines()` gives the lines back when none holds
      a boundary and the last is not empty. */
  lemma {:induction false} SplitLinesOfJoin(lines: seq<string>)
    requires |lines| >= 1 && lines[|lines| - 1] != []
    requires forall k :: 0 <= k < |lines| ==> NoLineBreak(lines[k])
    ensures SplitLines(Join(lines, "\n")) == lines
    decreases |lines|
  {
    if |lines| == 1 {
      assert Join(lines, "\n") == lines[0];
      SplitLinesOfLine(lines[0]);
    } else {
      var rest := lines[1..];
      var j := Join(rest, "\n");
      assert Join(lines, "\n") == lines[0] + "\n" + j;
      forall k | 0 <= k < |rest| ensures NoLineBreak(rest[k]) {
        assert rest[k] == lines[k + 1];
      }
      assert rest[|rest| - 1] == lines[|lines| - 1];
      SplitLinesOfJoin(rest);
      assert NoLineBreak(lines[0]);
      SplitLinesAfterLine(lines[0], j);
      assert [lines[0]] + rest == lines;
    }
  }

  /** A non-empty text without boundaries is one line. */
  lemma {:induction false} SplitLinesOfLine(a: string)
    requires a != [] && NoLineBreak(a)
    ensures SplitLines(a) == [a]
  {
    if FirstLineBreak(a).Some? {
      assert false;
    }
  }
}

/**
 * The regular expressions of the page extractor, each written out as string functions that
 * make the choice a JavaScript regular expression makes: the leftmost match, with greedy
 * `(.*)` groups (or a lazy `.*?`), where `.` never crosses a line terminator.
 */
module Patterns {
  import opened Wrappers
  import opened JsText

  // ------------------------------------------------------------------ PRE(.*)SEP(.*)SUF

  /** A case-insensitive pattern `PRE(.*)SEP(.*)SUF` whose three parts are literal text. */
  datatype Shape = Shape(pre: string, sep: string, suf: string)

  /**
   * A place where a shape matches: the match starts at `start`, group 1 runs from
   * `start + |pre|` to `sepAt`, group 2 from `sepAt + |sep|` to `sufAt`.
   */
  datatype Span = Span(start: nat, sepAt: nat, sufAt: nat)

  predicate IsMatch(s: string, p: Shape, m: Span) {
    && m.start + |p.pre| <= m.sepAt
    && m.sepAt + |p.sep| <= m.sufAt
    && OccursAt(s, m.start, p.pre, true)
    && OccursAt(s, m.sepAt, p.sep, true)
    && OccursAt(s, m.sufAt, p.suf, true)
    && NoLineBreak(s, m.start + |p.pre|, m.sepAt)
    && NoLineBreak(s, m.sepAt + |p.sep|, m.sufAt)
  }

  /**
   * The backtracking matcher tries `m` no later than `n`: an earlier start first, then at
   * the same start a longer group 1, then a longer group 2.
   */
  predicate TriedBefore(m: Span, n: Span) {
    || m.start < n.start
    || (m.start == n.start && m.sepAt > n.sepAt)
    || (m.start == n.start && m.sepAt == n.sepAt && m.sufAt >= n.sufAt)
  }

  /** The end of the line that `from` is on: where a `.*` starting at `from` must stop. */
  function LineEnd(s: string, from: nat): (e: nat)
    requires from <= |s|
    ensures from <= e <= |s| && NoLineBreak(s, from, e)
    ensures e < |s| ==> IsLineTerminator(s[e])
    decreases |s| - from
  {
    if from == |s| || IsLineTerminator(s[from]) then from else LineEnd(s, from + 1)
  }

  lemma WithinLine(s: string, from: nat, x: nat)
    requires from <= x <= |s| && NoLineBreak(s, from, x)
    ensures x <= LineEnd(s, from)
  {
  }

  /** The largest index in `lo..hi` where `lit` occurs up to case. */
  function LastOccurrence(s: string, lit: string, lo: nat, hi: nat): (r: Option<nat>)
    ensures r.Some? ==> lo <= r.value <= hi && OccursAt(s, r.value, lit, true)
    ensures r.Some? ==> forall k :: r.value < k <= hi ==> !OccursAt(s, k, lit, true)
    ensures r.None? ==> forall k :: lo <= k <= hi ==> !OccursAt(s, k, lit, true)
    decreases hi
  {
    if hi < lo then None
    else if OccursAt(s, hi, lit, true) then Some(hi)
    else if hi == lo then None
    else LastOccurrence(s, lit, lo, hi - 1)
  }

  /** The best match at `start` whose group 1 ends at `i` or earlier. */
  function SearchSeparator(s: string, p: Shape, start: nat, i: nat): (r: Option<Span>)
    requires OccursAt(s, start, p.pre, true)
    requires start + |p.pre| <= i <= LineEnd(s, start + |p.pre|)
    ensures r.Some? ==> r.value.start == start && r.value.sepAt <= i && IsMatch(s, p, r.value)
    ensures r.Some? ==> forall n :: IsMatch(s, p, n) && n.start == start && n.sepAt <= i ==> TriedBefore(r.value, n)
    ensures r.None? ==> forall n :: IsMatch(s, p, n) && n.start == start ==> n.sepAt > i
    decreases i
  {
    var after := i + |p.sep|;
    var sufAt := if OccursAt(s, i, p.sep, true) then LastOccurrence(s, p.suf, after, LineEnd(s, after)) else None;
    if sufAt.Some? then
      var m := Span(start, i, sufAt.value);
      assert NoLineBreak(s, start + |p.pre|, i);
      forall n | IsMatch(s, p, n) && n.start == start && n.sepAt == i
        ensures n.sufAt <= sufAt.value
      {
        WithinLine(s, after, n.sufAt);
      }
      Some(m)
    else
      assert forall n :: IsMatch(s, p, n) && n.start == start ==> n.sepAt != i;
      if i == start + |p.pre| then None
      else SearchSeparator(s, p, start, i - 1)
  }

  /** The match the backtracking matcher finds at `start`, if any. */
  function MatchAt(s: string, p: Shape, start: nat): (r: Option<Span>)
    requires start <= |s|
    ensures r.Some? ==> r.value.start == start && IsMatch(s, p, r.value)
    ensures r.Some? ==> forall n :: IsMatch(s, p, n) && n.start == start ==> TriedBefore(r.value, n)
    ensures r.None? ==> forall n :: IsMatch(s, p, n) ==> n.start != start
  {
    if !OccursAt(s, start, p.pre, true) then None
    else
      var a := start + |p.pre|;
      forall n | IsMatch(s, p, n) && n.start == start
        ensures n.sepAt <= LineEnd(s, a)
      {
        WithinLine(s, a, n.sepAt);
      }
      SearchSeparator(s, p, start, LineEnd(s, a))
  }

  function SearchFrom(s: string, p: Shape, from: nat): (r: Option<Span>)
    ensures r.Some? ==> from <= r.value.start && IsMatch(s, p, r.value)
    ensures r.Some? ==> forall n :: IsMatch(s, p, n) && from <= n.start ==> TriedBefore(r.value, n)
    ensures r.None? ==> forall n :: IsMatch(s, p, n) ==> n.start < from
    decreases |s| + 1 - from
  {
    if from > |s| then None
    else
      match MatchAt(s, p, from)
      case Some(m) => Some(m)
      case None => SearchFrom(s, p, from + 1)
  }

  /**
   * `s.match(PRE(.*)SEP(.*)SUF/i)`: the match a JavaScript regular expression reports, the
   * first of all matches in the order the backtracking matcher tries them.
   */
  function Match(s: string, p: Shape): (r: Option<Span>)
    ensures r.Some? ==> IsMatch(s, p, r.value) && forall n :: IsMatch(s, p, n) ==> TriedBefore(r.value, n)
    ensures r.None? ==> forall n :: !IsMatch(s, p, n)
  {
    SearchFrom(s, p, 0)
  }

  /** The text of group 1 (`match[1]`). */
  function Group1(s: string, p: Shape, m: Span): string
    requires IsMatch(s, p, m)
  {
    s[m.start + |p.pre|..m.sepAt]
  }

  /** The text of group 2 (`match[2]`). */
  function Group2(s: string, p: Shape, m: Span): string
    requires IsMatch(s, p, m)
  {
    s[m.sepAt + |p.sep|..m.sufAt]
  }

  /**
   * When `s` is exactly `a + sep + b + suf` on one line and the separator cannot occur after
   * `a`, the groups are `a` and `b`.
   */
  lemma {:induction false} MatchOfJoined(s: string, p: Shape, a: string, b: string)
    requires p.pre == "" && s == a + p.sep + b + p.suf
    requires NoLineBreak(s, 0, |s|)
    requires forall k :: |a| < k ==> !OccursAt(s, k, p.sep, true)
    ensures Match(s, p).Some?
    ensures Group1(s, p, Match(s, p).value) == a && Group2(s, p, Match(s, p).value) == b
  {
    var w := Span(0, |a|, |a| + |p.sep| + |b|);
    assert OccursAt(s, 0, p.pre, true);
    assert s[|a|..|a| + |p.sep|] == p.sep;
    assert OccursAt(s, |a|, p.sep, true);
    assert s[|a| + |p.sep| + |b|..] == p.suf;
    assert OccursAt(s, w.sufAt, p.suf, true);
    assert IsMatch(s, p, w);
    var m := Match(s, p).value;
    assert TriedBefore(m, w);
    assert m.start == 0 && m.sepAt == |a|;
    assert m.sufAt + |p.suf| <= |s|;
    assert s[|a| + |p.sep|..m.sufAt] == b;
  }

  // ------------------------------------------------------------------ year tokens

  /** `\b\d{4}\b` matches at `k`; with `modern`, `\b(19|20)\d{2}\b` does. */
  predicate YearAt(s: string, k: nat, modern: bool) {
    && k + 4 <= |s|
    && IsDigit(s[k]) && IsDigit(s[k + 1]) && IsDigit(s[k + 2]) && IsDigit(s[k + 3])
    && (k == 0 || !IsWordChar(s[k - 1]))
    && (k + 4 == |s| || !IsWordChar(s[k + 4]))
    && (modern ==> (s[k] == '1' && s[k + 1] == '9') || (s[k] == '2' && s[k + 1] == '0'))
  }

  function FindYear(s: string, modern: bool, from: nat): (r: Option<nat>)
    ensures r.Some? ==> from <= r.value && YearAt(s, r.value, modern)
    ensures r.Some? ==> forall k :: from <= k < r.value ==> !YearAt(s, k, modern)
    ensures r.None? ==> forall k :: from <= k ==> !YearAt(s, k, modern)
    decreases |s| - from
  {
    if from + 4 > |s| then None
    else if YearAt(s, from, modern) then Some(from)
    else FindYear(s, modern, from + 1)
  }

  /** `s.match(/\b\d{4}\b/)[0]` (or the `(19|20)` form), `None` when there is no match. */
  function FirstYear(s: string, modern: bool): (r: Option<string>)
    ensures r.Some? <==> exists k: nat :: YearAt(s, k, modern)
    ensures r.Some? ==> exists k: nat :: YearAt(s, k, modern) && r.value == s[k..k + 4] && forall j :: 0 <= j < k ==> !YearAt(s, j, modern)
  {
    match FindYear(s, modern, 0)
    case None => None
    case Some(k) => Some(s[k..k + 4])
  }

  /** A token the year pattern reports: four ASCII digits, starting with 19 or 20 for the modern pattern. */
  predicate IsYearToken(y: string, modern: bool) {
    && |y| == 4
    && (forall k :: 0 <= k < 4 ==> IsDigit(y[k]))
    && (modern ==> y[..2] == "19" || y[..2] == "20")
  }

  lemma FirstYearIsToken(s: string, modern: bool)
    requires FirstYear(s, modern).Some?
    ensures IsYearToken(FirstYear(s, modern).value, modern)
  {
    var k: nat :| YearAt(s, k, modern) && FirstYear(s, modern).value == s[k..k + 4];
    var y := s[k..k + 4];
    assert forall j :: 0 <= j < 4 ==> y[j] == s[k + j];
  }

  // ------------------------------------------------------------------ bracket groups

  /**
   * Where the `]` closing a lazy `\[.*?\]` lies, for the text `s` that follows the `[`:
   * the first `]`, provided no line terminator comes before it.
   */
  function CloseAt(s: string): (r: Option<nat>)
    ensures r.Some? ==> r.value < |s| && s[r.value] == ']' && NoLineBreak(s, 0, r.value)
    ensures r.Some? ==> forall k :: 0 <= k < r.value ==> s[k] != ']'
    ensures r.None? ==> forall k :: 0 <= k < |s| && s[k] == ']' ==> exists j :: 0 <= j < k && IsLineTerminator(s[j])
  {
    if s == [] then None
    else if s[0] == ']' then Some(0)
    else if IsLineTerminator(s[0]) then None
    else
      match CloseAt(s[1..])
      case Some(c) => Some(c + 1)
      case None =>
        assert forall k :: 1 <= k < |s| && s[k] == ']' ==> exists j :: 0 <= j < k && IsLineTerminator(s[j]) by {
          forall k | 1 <= k < |s| && s[k] == ']'
            ensures exists j :: 0 <= j < k && IsLineTerminator(s[j])
          {
            assert s[1..][k - 1] == ']';
            var j :| 0 <= j < k - 1 && IsLineTerminator(s[1..][j]);
            assert IsLineTerminator(s[j + 1]);
          }
        }
        None
  }

  /** `s.replace(/\[.*?\]/g, '')`: every bracketed group on one line, scanned left to right. */
  function StripBrackets(s: string): string
    decreases |s|
  {
    if s == [] then []
    else if s[0] == '[' then
      match CloseAt(s[1..])
      case Some(c) => StripBrackets(s[c + 2..])
      case None => [s[0]] + StripBrackets(s[1..])
    else [s[0]] + StripBrackets(s[1..])
  }

  /** No `[` in `s` has a closing `]` later on its line. */
  predicate NoBracketGroup(s: string) {
    forall i :: 0 <= i < |s| && s[i] == '[' ==> CloseAt(s[i + 1..]).None?
  }

  /** Removing groups never brings a `]` ahead of the line terminator that followed. */
  lemma {:induction false} StripKeepsUnclosed(s: string)
    requires CloseAt(s).None?
    ensures CloseAt(StripBrackets(s)).None?
    decreases |s|
  {
    if s != [] && !IsLineTerminator(s[0]) {
      assert s[0] != ']';
      assert CloseAt(s[1..]).None?;
      if s[0] == '[' {
        StripKeepsUnclosed(s[1..]);
      } else {
        StripKeepsUnclosed(s[1..]);
      }
      assert StripBrackets(s) == [s[0]] + StripBrackets(s[1..]);
      assert StripBrackets(s)[1..] == StripBrackets(s[1..]);
    }
  }

  /** After the replacement no bracketed group is left: every `[` that survives is unclosed on its line. */
  lemma {:induction false} StripBracketsLeavesNoGroup(s: string)
    ensures NoBracketGroup(StripBrackets(s))
    decreases |s|
  {
    if s == [] {
    } else if s[0] == '[' && CloseAt(s[1..]).Some? {
      StripBracketsLeavesNoGroup(s[CloseAt(s[1..]).value + 2..]);
    } else {
      var r := StripBrackets(s);
      var rest := StripBrackets(s[1..]);
      StripBracketsLeavesNoGroup(s[1..]);
      assert r == [s[0]] + rest;
      if s[0] == '[' {
        StripKeepsUnclosed(s[1..]);
        assert r[1..] == rest;
      }
      forall i | 0 <= i < |r| && r[i] == '['
        ensures CloseAt(r[i + 1..]).None?
      {
        if i > 0 {
          assert r[i + 1..] == rest[i..];
        }
      }
    }
  }

  /** Text without `[` is left alone. */
  lemma {:induction false} StripBracketsWithoutOpen(s: string)
    requires forall k :: 0 <= k < |s| ==> s[k] != '['
    ensures StripBrackets(s) == s
    decreases |s|
  {
    if s != [] {
      StripBracketsWithoutOpen(s[1..]);
    }
  }

  /** A `[` left unclosed stays unclosed when the text after it is cut short. */
  lemma UnclosedPrefix(s: string, n: nat)
    requires CloseAt(s).None? && n <= |s|
    ensures CloseAt(s[..n]).None?
  {
    var t := s[..n];
    forall k | 0 <= k < |t| && t[k] == ']'
      ensures exists j :: 0 <= j < k && IsLineTerminator(t[j])
    {
      assert s[k] == ']';
      var j :| 0 <= j < k && IsLineTerminator(s[j]);
      assert t[j] == s[j];
    }
  }

  /** Cutting text at both ends never creates a bracketed group. */
  lemma NoBracketGroupSlice(s: string, a: nat, b: nat)
    requires NoBracketGroup(s) && a <= b <= |s|
    ensures NoBracketGroup(s[a..b])
  {
    var t := s[a..b];
    forall i | 0 <= i < |t| && t[i] == '['
      ensures CloseAt(t[i + 1..]).None?
    {
      assert s[a + i] == '[';
      assert t[i + 1..] == s[a + i + 1..][..b - (a + i + 1)];
      UnclosedPrefix(s[a + i + 1..], b - (a + i + 1));
    }
  }

  /** Trimming never creates a bracketed group. */
  lemma TrimKeepsNoBracketGroup(s: string)
    requires NoBracketGroup(s)
    ensures NoBracketGroup(Trim(s))
  {
    var t := s[LeadingSpaces(s)..];
    NoBracketGroupSlice(s, LeadingSpaces(s), LeadingSpaces(s) + |t| - TrailingSpaces(t));
    assert Trim(s) == s[LeadingSpaces(s)..LeadingSpaces(s) + |t| - TrailingSpaces(t)];
  }
}

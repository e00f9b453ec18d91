/**
 * The JavaScript string primitives the extension relies on, stated over Dafny strings.
 * A Dafny `char` is a Unicode scalar value; JavaScript measures strings in UTF-16 code
 * units, which `Utf16Length` makes explicit.
 */
module JsText {
  import opened Wrappers

  // ------------------------------------------------------------------ characters

  /** The ECMAScript line terminators: the characters `.` in a regular expression does not match. */
  predicate IsLineTerminator(c: char) {
    c == '\n' || c == '\r' || c == '\U{2028}' || c == '\U{2029}'
  }

  /** ECMAScript WhiteSpace and LineTerminator: what `String.prototype.trim` removes. */
  predicate IsJsSpace(c: char) {
    || IsLineTerminator(c)
    || c == '\t' || c == '\U{000B}' || c == '\U{000C}' || c == ' ' || c == '\U{00A0}'
    || c == '\U{1680}' || ('\U{2000}' <= c <= '\U{200A}')
    || c == '\U{202F}' || c == '\U{205F}' || c == '\U{3000}' || c == '\U{FEFF}'
  }

  /** `\w` in a regular expression. */
  predicate IsWordChar(c: char) {
    ('a' <= c <= 'z') || ('A' <= c <= 'Z') || ('0' <= c <= '9') || c == '_'
  }

  /** `\d` in a regular expression. */
  predicate IsDigit(c: char) {
    '0' <= c <= '9'
  }

  /**
   * The form in which a case-insensitive regular expression compares characters:
   * the upper-case letter, for the ASCII and Latin-1 letters.
   */
  function Canon(c: char): char {
    if 'a' <= c <= 'z' then (c as int - 32) as char
    else if '\U{00E0}' <= c <= '\U{00FE}' && c != '\U{00F7}' then (c as int - 32) as char
    else c
  }

  function LowerAscii(c: char): char {
    if 'A' <= c <= 'Z' then (c as int + 32) as char else c
  }

  /** `toLowerCase` on a host name, which the URL parser has already turned into ASCII. */
  function ToLowerAscii(s: string): string {
    seq(|s|, k requires 0 <= k < |s| => LowerAscii(s[k]))
  }

  predicate NoLineBreak(s: string, lo: nat, hi: nat)
    requires lo <= hi <= |s|
  {
    forall k :: lo <= k < hi ==> !IsLineTerminator(s[k])
  }

  /** Every character of `s` is white space (so `s.trim()` is empty). */
  predicate Blank(s: string) {
    forall k :: 0 <= k < |s| ==> IsJsSpace(s[k])
  }

  // ------------------------------------------------------------------ occurrences

  /** `lit` occurs in `s` at index `k`, exactly (`ci` false) or up to case (`ci` true). */
  predicate OccursAt(s: string, k: nat, lit: string, ci: bool) {
    && k + |lit| <= |s|
    && forall j :: 0 <= j < |lit| ==> if ci then Canon(s[k + j]) == Canon(lit[j]) else s[k + j] == lit[j]
  }

  /**
   * The first index at or after `from` where `lit` occurs: `indexOf`, or where a regular
   * expression made of the literal `lit` matches first.
   */
  function Find(s: string, lit: string, ci: bool, from: nat): (r: Option<nat>)
    ensures r.Some? ==> from <= r.value && OccursAt(s, r.value, lit, ci)
    ensures r.Some? ==> forall k :: from <= k < r.value ==> !OccursAt(s, k, lit, ci)
    ensures r.None? ==> forall k :: from <= k ==> !OccursAt(s, k, lit, ci)
    decreases |s| - from
  {
    if from + |lit| > |s| then None
    else if OccursAt(s, from, lit, ci) then Some(from)
    else Find(s, lit, ci, from + 1)
  }

  /** `s.includes(lit)`. */
  predicate Includes(s: string, lit: string) {
    Find(s, lit, false, 0).Some?
  }

  /** `new RegExp(lit, 'i').test(s)` for a pattern without special characters. */
  predicate IncludesCi(s: string, lit: string) {
    Find(s, lit, true, 0).Some?
  }

  /** `s.replace(lit, rep)` with a string (`ci` false) or a case-insensitive literal regular expression (`ci` true): the first occurrence only. */
  function ReplaceFirst(s: string, lit: string, rep: string, ci: bool): string {
    match Find(s, lit, ci, 0)
    case None => s
    case Some(k) => s[..k] + rep + s[k + |lit|..]
  }

  /** `s.replace(/lit/g, rep)` for a literal pattern: every occurrence, left to right, without overlaps. */
  function ReplaceAll(s: string, lit: string, rep: string): string
    requires lit != ""
    decreases |s|
  {
    if |s| < |lit| then s
    else if s[..|lit|] == lit then rep + ReplaceAll(s[|lit|..], lit, rep)
    else [s[0]] + ReplaceAll(s[1..], lit, rep)
  }

  /** A literal whose first character never occurs is never replaced. */
  lemma {:induction false} ReplaceAllWithoutLead(s: string, lit: string, rep: string)
    requires lit != ""
    requires forall k :: 0 <= k < |s| ==> s[k] != lit[0]
    ensures ReplaceAll(s, lit, rep) == s
    decreases |s|
  {
    if |s| >= |lit| {
      assert s[..|lit|][0] != lit[0];
      ReplaceAllWithoutLead(s[1..], lit, rep);
    }
  }

  /** How often `c` occurs in `s`. */
  function Count(s: string, c: char): nat {
    if s == [] then 0 else (if s[0] == c then 1 else 0) + Count(s[1..], c)
  }

  /** Replacing every `c` by a text without `c` leaves no `c`, and grows the text by `|rep| - 1` per occurrence. */
  lemma {:induction false} ReplaceAllChar(s: string, c: char, rep: string)
    requires forall k :: 0 <= k < |rep| ==> rep[k] != c
    ensures forall k :: 0 <= k < |ReplaceAll(s, [c], rep)| ==> ReplaceAll(s, [c], rep)[k] != c
    ensures |ReplaceAll(s, [c], rep)| == |s| + Count(s, c) * (|rep| - 1)
    decreases |s|
  {
    if |s| >= 1 {
      ReplaceAllChar(s[1..], c, rep);
      var tail := ReplaceAll(s[1..], [c], rep);
      if s[..1] == [c] {
        assert ReplaceAll(s, [c], rep) == rep + tail;
      } else {
        assert ReplaceAll(s, [c], rep) == [s[0]] + tail;
      }
    }
  }

  /** `.replace(/<suffix>$/i, '')`: removes `suffix`, up to case, from the very end. */
  function StripSuffixCi(s: string, suffix: string): string {
    if |suffix| <= |s| && OccursAt(s, |s| - |suffix|, suffix, true) then s[..|s| - |suffix|] else s
  }

  /** `.replace(/^<prefix>/i, '')`: removes `prefix`, up to case, from the very start. */
  function StripPrefixCi(s: string, prefix: string): string {
    if OccursAt(s, 0, prefix, true) then s[|prefix|..] else s
  }

  // ------------------------------------------------------------------ html text

  /**
   * The explanation formatting both the side panel and the translator library apply: every
   * blank line becomes a paragraph break, then every remaining line break a `<br>`.
   */
  function BreakLines(s: string): (r: string)
    ensures forall k :: 0 <= k < |r| ==> r[k] != '\n'
  {
    var paragraphs := ReplaceAll(s, "\n\n", "</p><p>");
    ReplaceAllChar(paragraphs, '\n', "<br>");
    ReplaceAll(paragraphs, "\n", "<br>")
  }

  /** Text on a single line is left as it is. */
  lemma BreakLinesOfOneLine(s: string)
    requires forall k :: 0 <= k < |s| ==> s[k] != '\n'
    ensures BreakLines(s) == s
  {
    ReplaceAllWithoutLead(s, "\n\n", "</p><p>");
    ReplaceAllWithoutLead(s, "\n", "<br>");
  }

  // ------------------------------------------------------------------ trim

  function LeadingSpaces(s: string): (n: nat)
    ensures n <= |s|
    ensures forall k :: 0 <= k < n ==> IsJsSpace(s[k])
    ensures n < |s| ==> !IsJsSpace(s[n])
  {
    if |s| > 0 && IsJsSpace(s[0]) then 1 + LeadingSpaces(s[1..]) else 0
  }

  function TrailingSpaces(s: string): (n: nat)
    ensures n <= |s|
    ensures forall k :: |s| - n <= k < |s| ==> IsJsSpace(s[k])
    ensures n < |s| ==> !IsJsSpace(s[|s| - 1 - n])
  {
    if |s| > 0 && IsJsSpace(s[|s| - 1]) then 1 + TrailingSpaces(s[..|s| - 1]) else 0
  }

  /** `String.prototype.trim`. */
  function Trim(s: string): (r: string)
    ensures |r| <= |s|
    ensures r == "" <==> Blank(s)
    ensures r != "" ==> !IsJsSpace(r[0]) && !IsJsSpace(r[|r| - 1])
  {
    var t := s[LeadingSpaces(s)..];
    t[..|t| - TrailingSpaces(t)]
  }

  /** A string without white space at either end is its own trim. */
  lemma TrimOfTrimmed(s: string)
    requires s == "" || (!IsJsSpace(s[0]) && !IsJsSpace(s[|s| - 1]))
    ensures Trim(s) == s
  {
    assert LeadingSpaces(s) == 0;
    assert TrailingSpaces(s) == 0;
  }

  /** Trimming twice is trimming once. */
  lemma TrimIdempotent(s: string)
    ensures Trim(Trim(s)) == Trim(s)
  {
    TrimOfTrimmed(Trim(s));
  }

  // ------------------------------------------------------------------ lengths and values

  /** `s.length` in JavaScript: characters outside the Basic Multilingual Plane count twice. */
  function Utf16Length(s: string): (n: nat)
    ensures |s| <= n <= 2 * |s|
  {
    if s == [] then 0 else (if s[0] as int > 0xFFFF then 2 else 1) + Utf16Length(s[1..])
  }

  /** JavaScript truthiness of a string-valued property: present and not empty. */
  predicate Truthy(v: Option<string>) {
    v.Some? && v.value != ""
  }

  /** `a || b` on two string-valued properties. */
  function Or(a: Option<string>, b: Option<string>): Option<string> {
    if Truthy(a) then a else b
  }

  /** `v || ''`. */
  function OrEmpty(v: Option<string>): (r: string)
    ensures r == "" <==> !Truthy(v)
  {
    if Truthy(v) then v.value else ""
  }

  /** `v || fallback` for a non-empty fallback. */
  function OrDefault(v: Option<string>, fallback: string): (r: string)
    requires fallback != ""
    ensures r != ""
    ensures r == fallback <==> !Truthy(v) || v.value == fallback
  {
    if Truthy(v) then v.value else fallback
  }

  /** `items.join(sep)`. */
  function Join(items: seq<string>, sep: string): string {
    if items == [] then ""
    else if |items| == 1 then items[0]
    else items[0] + sep + Join(items[1..], sep)
  }

  /** The decimal form of a number in a template literal. */
  function Decimal(n: nat): (r: string)
    ensures r != []
    ensures forall k :: 0 <= k < |r| ==> IsDigit(r[k])
  {
    var last := [('0' as int + n % 10) as char];
    if n < 10 then last else Decimal(n / 10) + last
  }

  /** The number a string of decimal digits denotes. */
  function DecimalValue(s: string): nat
    requires forall k :: 0 <= k < |s| ==> IsDigit(s[k])
  {
    if s == [] then 0
    else
      assert IsDigit(s[|s| - 1]);
      10 * DecimalValue(s[..|s| - 1]) + (s[|s| - 1] as int - '0' as int)
  }

  /** Reading back the decimal form gives the number: distinct status codes give distinct texts. */
  lemma {:induction false} DecimalRoundTrip(n: nat)
    ensures DecimalValue(Decimal(n)) == n
  {
    var r := Decimal(n);
    if n >= 10 {
      DecimalRoundTrip(n / 10);
      assert r[..|r| - 1] == Decimal(n / 10);
    }
  }
}

/**
 * `preprocess_text` of `app/helpers/preprocessor.py`: a fixed chain of
 * regular-expression rewrites that strips Markdown from a text.
 *
 * Each `re.sub` is a scan from left to right: at each position the pattern
 * is tried; on a match the match is replaced and the scan resumes after it,
 * otherwise the character is kept and the scan moves on by one. Greedy and
 * lazy repetitions are resolved as Python's engine resolves them for these
 * particular patterns: `.` stops at a line break, `[\s\S]` and negated
 * classes do not.
 */
module Preprocessor {
  import opened Wrappers
  import opened Text

  /** `\w`, restricted to ASCII letters, digits and the underscore. */
  predicate IsWordChar(c: char) {
    'a' <= c <= 'z' || 'A' <= c <= 'Z' || '0' <= c <= '9' || c == '_'
  }

  /** Every character of `t` also occurs in `s`. */
  predicate CharsFrom(t: string, s: string) {
    forall c :: c in t ==> c in s
  }

  lemma {:induction false} SliceChars(s: string, a: nat, b: nat)
    requires a <= b <= |s|
    ensures CharsFrom(s[a..b], s)
  {
    forall c | c in s[a..b]
      ensures c in s
    {
      var k :| 0 <= k < b - a && s[a..b][k] == c;
      assert s[a + k] == c;
    }
  }

  /* ---------------------------------------------------------------- */
  /* Searching                                                         */
  /* ---------------------------------------------------------------- */

  /** `m` occurs in `s` at position `j`. */
  predicate MarkerAt(s: string, j: nat, m: string) {
    j + |m| <= |s| && s[j..j + |m|] == m
  }

  /**
   * The first position at or after `i` where `m` occurs. With
   * `stopAtNewline`, the text skipped over may not hold a line break (the
   * lazy `.*?` before a closing marker).
   */
  function FindMarker(s: string, i: nat, m: string, stopAtNewline: bool): (r: Option<nat>)
    requires |m| > 0
    ensures r.Some? ==> i <= r.value && MarkerAt(s, r.value, m)
    ensures r.Some? ==> forall j :: i <= j < r.value ==> !MarkerAt(s, j, m)
    ensures r.Some? && stopAtNewline ==> forall j :: i <= j < r.value ==> s[j] != '\n'
    ensures r.None? ==> forall j :: i <= j && MarkerAt(s, j, m) ==> stopAtNewline && exists k :: i <= k < j && s[k] == '\n'
    decreases |s| - i
  {
    if i + |m| > |s| then None
    else if MarkerAt(s, i, m) then Some(i)
    else if stopAtNewline && s[i] == '\n' then None
    else FindMarker(s, i + 1, m, stopAtNewline)
  }

  /** The first position at or after `i` holding `c`. */
  function FindChar(s: string, i: nat, c: char): (r: Option<nat>)
    ensures r.Some? ==> i <= r.value < |s| && s[r.value] == c
    ensures r.Some? ==> forall j :: i <= j < r.value ==> s[j] != c
    ensures r.None? ==> forall j :: i <= j < |s| ==> s[j] != c
    decreases |s| - i
  {
    if i >= |s| then None
    else if s[i] == c then Some(i)
    else FindChar(s, i + 1, c)
  }

  /** The length of the run of characters satisfying `p` that starts at `i`. */
  function RunFrom(s: string, i: nat, p: char -> bool): (n: nat)
    requires i <= |s|
    ensures i + n <= |s|
    ensures forall j :: i <= j < i + n ==> p(s[j])
    ensures i + n < |s| ==> !p(s[i + n])
    decreases |s| - i
  {
    if i == |s| || !p(s[i]) then 0 else 1 + RunFrom(s, i + 1, p)
  }

  predicate IsBacktick(c: char) { c == '`' }
  predicate IsHash(c: char) { c == '#' }

  /* ---------------------------------------------------------------- */
  /* The passes                                                        */
  /* ---------------------------------------------------------------- */

  /** `re.sub(r'```+', '', text)`: every run of three or more backticks is removed. */
  function DropFences(s: string): (r: string)
    ensures |r| <= |s| && CharsFrom(r, s)
    decreases |s|
  {
    if s == [] then []
    else if |s| >= 3 && s[..3] == "```" then
      var n := RunFrom(s, 0, IsBacktick);
      assert s[2] == s[..3][2];
      SliceChars(s, n, |s|);
      DropFences(s[n..])
    else
      SliceChars(s, 1, |s|);
      [s[0]] + DropFences(s[1..])
  }

  /** `re.sub(r'-', '', text)`: every hyphen is removed. */
  function DropDashes(s: string): (r: string)
    ensures |r| <= |s| && CharsFrom(r, s)
    ensures '-' !in r
    ensures '-' !in s ==> r == s
    decreases |s|
  {
    if s == [] then []
    else
      SliceChars(s, 1, |s|);
      assert s == [s[0]] + s[1..];
      (if s[0] == '-' then [] else [s[0]]) + DropDashes(s[1..])
  }

  /**
   * Where a header marker that starts at `i` ends: whitespace, one to six
   * `#`, whitespace (`\s*#{1,6}\s*`); `None` without a `#`.
   */
  function HeaderEnd(s: string, i: nat): (r: Option<nat>)
    requires i <= |s|
    ensures r.Some? ==> i < r.value <= |s| && '#' in s[i..r.value]
  {
    var a := i + RunFrom(s, i, IsSpace);
    var run := RunFrom(s, a, IsHash);
    var h := if run < 6 then run else 6;
    if h == 0 then None
    else
      assert s[a] == '#' && s[i..a + h + RunFrom(s, a + h, IsSpace)][a - i] == s[a];
      Some(a + h + RunFrom(s, a + h, IsSpace))
  }

  /** The `\n` alternative of the header pattern, tried at every position. */
  function NewlineHeaders(s: string): (r: string)
    ensures |r| <= |s| && CharsFrom(r, s)
    ensures '#' !in s ==> r == s
    decreases |s|
  {
    if s == [] then []
    else if s[0] == '\n' && HeaderEnd(s, 1).Some? then
      var e := HeaderEnd(s, 1).value;
      SliceChars(s, e, |s|);
      "\n" + NewlineHeaders(s[e..])
    else
      SliceChars(s, 1, |s|);
      assert '#' !in s ==> '#' !in s[1..];
      assert s == [s[0]] + s[1..];
      [s[0]] + NewlineHeaders(s[1..])
  }

  /**
   * `re.sub(r'(^|\n)\s*#{1,6}\s*', r'\1', text)`: a header marker at the
   * start of the text is removed, one after a line break is replaced by the
   * line break. Without the MULTILINE flag `^` is the start of the text only;
   * when it fails there, the `\n` alternative fails too, since it sees the
   * same whitespace.
   */
  function DropHeaders(s: string): (r: string)
    ensures |r| <= |s| && CharsFrom(r, s)
    ensures '#' !in s ==> r == s
  {
    var e := HeaderEnd(s, 0);
    if e.Some? then
      SliceChars(s, e.value, |s|);
      assert s[0..e.value] == s[..e.value];
      NewlineHeaders(s[e.value..])
    else NewlineHeaders(s)
  }

  /** The first marker of `markers` that `s` starts with. */
  function OpenedBy(s: string, markers: seq<string>): (r: Option<string>)
    ensures r.Some? ==> r.value in markers && |r.value| <= |s| && s[..|r.value|] == r.value
  {
    if markers == [] then None
    else if |markers[0]| <= |s| && s[..|markers[0]|] == markers[0] then Some(markers[0])
    else OpenedBy(s, markers[1..])
  }

  predicate NonEmptyMarkers(markers: seq<string>) {
    forall m :: m in markers ==> |m| > 0
  }

  /**
   * `re.sub(r'(M1|M2)(.*?)\1', r'\2', text)`: a marker, the shortest text
   * without a line break, and the same marker again are replaced by that
   * text. In the marker sets used below no two markers start with the same
   * character, so at most one alternative can open at a position.
   */
  function DropPairs(s: string, markers: seq<string>): (r: string)
    requires NonEmptyMarkers(markers)
    ensures |r| <= |s| && CharsFrom(r, s)
    decreases |s|
  {
    if s == [] then []
    else
      var m := OpenedBy(s, markers);
      if m.Some? && FindMarker(s, |m.value|, m.value, true).Some? then
        var q := FindMarker(s, |m.value|, m.value, true).value;
        SliceChars(s, |m.value|, q);
        SliceChars(s, q + |m.value|, |s|);
        s[|m.value|..q] + DropPairs(s[q + |m.value|..], markers)
      else
        SliceChars(s, 1, |s|);
        [s[0]] + DropPairs(s[1..], markers)
  }

  const BoldMarkers: seq<string> := ["**", "__"]
  const ItalicMarkers: seq<string> := ["*", "_"]
  const StrikeMarkers: seq<string> := ["~~"]

  /**
   * ``re.sub(r'`([^`]+)`', r'\1', text)``: a backtick, at least one other
   * character (line breaks included) and the next backtick are replaced by
   * the enclosed text.
   */
  function DropInlineCode(s: string): (r: string)
    ensures |r| <= |s| && CharsFrom(r, s)
    decreases |s|
  {
    if s == [] then []
    else if s[0] == '`' && FindChar(s, 1, '`').Some? && FindChar(s, 1, '`').value > 1 then
      var q := FindChar(s, 1, '`').value;
      SliceChars(s, 1, q);
      SliceChars(s, q + 1, |s|);
      s[1..q] + DropInlineCode(s[q + 1..])
    else
      SliceChars(s, 1, |s|);
      [s[0]] + DropInlineCode(s[1..])
  }

  /**
   * ``re.sub(r'```[\w]*\n([\s\S]*?)```', r'\1', text)``: three backticks, a
   * word, a line break, the shortest text and three backticks are replaced
   * by that text.
   */
  function DropFencedBlocks(s: string): (r: string)
    ensures |r| <= |s| && CharsFrom(r, s)
    decreases |s|
  {
    if s == [] then []
    else
      var w := if |s| >= 3 then RunFrom(s, 3, IsWordChar) else 0;
      if |s| >= 3 && s[..3] == "```" && 3 + w < |s| && s[3 + w] == '\n'
         && FindMarker(s, 4 + w, "```", false).Some? then
        var q := FindMarker(s, 4 + w, "```", false).value;
        SliceChars(s, 4 + w, q);
        SliceChars(s, q + 3, |s|);
        s[4 + w..q] + DropFencedBlocks(s[q + 3..])
      else
        SliceChars(s, 1, |s|);
        [s[0]] + DropFencedBlocks(s[1..])
  }

  /**
   * `re.sub(r'P\[(.*?)\]\([^)]*\)', r'\1', text)` for an opening `P[`: the
   * shortest bracketed text without a line break that is followed by `(`,
   * then everything up to the next `)`, are replaced by the bracketed text.
   * When no `)` follows the first `](`, no later `](` has one either, so the
   * match fails at that position.
   */
  function DropLinks(s: string, open: string): (r: string)
    requires |open| > 0
    ensures |r| <= |s| && CharsFrom(r, s)
    decreases |s|
  {
    if s == [] then []
    else
      var q := FindMarker(s, |open|, "](", true);
      if |open| <= |s| && s[..|open|] == open && q.Some? && FindChar(s, q.value + 2, ')').Some? then
        var e := FindChar(s, q.value + 2, ')').value;
        SliceChars(s, |open|, q.value);
        SliceChars(s, e + 1, |s|);
        s[|open|..q.value] + DropLinks(s[e + 1..], open)
      else
        SliceChars(s, 1, |s|);
        [s[0]] + DropLinks(s[1..], open)
  }

  /** Lines 11-17: fences, hyphens and headers. */
  function Front(s: string): (r: string)
    ensures |r| <= |s| && CharsFrom(r, s) && '-' !in r
  {
    DropHeaders(DropDashes(DropFences(s)))
  }

  /** Lines 20-22: bold, italic and strikethrough markers. */
  function Emphasis(s: string): (r: string)
    ensures |r| <= |s| && CharsFrom(r, s)
  {
    DropPairs(DropPairs(DropPairs(s, BoldMarkers), ItalicMarkers), StrikeMarkers)
  }

  /** Lines 25-28: inline code, then fenced blocks. */
  function Code(s: string): (r: string)
    ensures |r| <= |s| && CharsFrom(r, s)
  {
    DropFencedBlocks(DropInlineCode(s))
  }

  /** Lines 31-34: links, then images. */
  function Links(s: string): (r: string)
    ensures |r| <= |s| && CharsFrom(r, s)
  {
    DropLinks(DropLinks(s, "["), "![")
  }

  /** The rewrites of `preprocess_text`, in order, on a non-empty text. */
  function Rewrite(s: string): string {
    Links(Code(Emphasis(Front(s))))
  }

  /** `preprocess_text`: `None` and the empty text give the empty text. */
  function PreprocessText(text: Option<string>): (r: string)
    ensures !Given(text) ==> r == ""
  {
    if !Given(text) then "" else Rewrite(text.value)
  }

  /* ---------------------------------------------------------------- */
  /* Properties                                                        */
  /* ---------------------------------------------------------------- */

  /**
   * No pass inserts anything: the result is no longer than the input and
   * holds only characters of the input, and no hyphen survives.
   */
  lemma {:induction false} PreprocessShrinks(text: Option<string>)
    ensures text.Some? ==> |PreprocessText(text)| <= |text.value| && CharsFrom(PreprocessText(text), text.value)
    ensures '-' !in PreprocessText(text)
  {
    if Given(text) {
      var f := Front(text.value);
      var l := Links(Code(Emphasis(f)));
      assert CharsFrom(l, f);
    }
  }

  /* ---------------------------------------------------------------- */
  /* Texts without markup                                              */
  /* ---------------------------------------------------------------- */

  /** The characters that some pass reacts to. */
  predicate IsMarkup(c: char) {
    c == '`' || c == '-' || c == '#' || c == '*' || c == '_' || c == '~'
    || c == '[' || c == ']' || c == '(' || c == ')' || c == '\n'
  }

  predicate Plain(x: string) {
    forall i :: 0 <= i < |x| ==> !IsMarkup(x[i])
  }

  /** `c` never appears twice in a row in `s`. */
  predicate NoRepeat(s: string, c: char) {
    forall i :: 0 <= i < |s| - 1 ==> !(s[i] == c && s[i + 1] == c)
  }

  lemma {:induction false} NoRepeatTail(s: string, c: char)
    requires s != [] && NoRepeat(s, c)
    ensures NoRepeat(s[1..], c)
  {
    forall i | 0 <= i < |s[1..]| - 1
      ensures !(s[1..][i] == c && s[1..][i + 1] == c)
    {
      assert s[1..][i] == s[i + 1] && s[1..][i + 1] == s[i + 2];
    }
  }

  lemma {:induction false} DropFencesKeeps(s: string)
    requires NoRepeat(s, '`')
    ensures DropFences(s) == s
    decreases |s|
  {
    if s != [] {
      if |s| >= 3 {
        assert s[..3][0] == s[0] && s[..3][1] == s[1];
      }
      NoRepeatTail(s, '`');
      DropFencesKeeps(s[1..]);
      assert s == [s[0]] + s[1..];
    }
  }

  /** No marker of `markers` is a prefix of `t`. */
  lemma {:induction false} NotOpened(t: string, markers: seq<string>)
    requires forall m :: m in markers ==> !(|m| <= |t| && t[..|m|] == m)
    ensures OpenedBy(t, markers).None?
  {
    if markers != [] {
      assert markers[0] in markers;
      NotOpened(t, markers[1..]);
    }
  }

  /** No marker opens anywhere in `s`. */
  predicate NeverOpens(s: string, markers: seq<string>) {
    forall k :: 0 <= k < |s| ==> OpenedBy(s[k..], markers).None?
  }

  /** A text in which no marker begins is left alone by the marker pass. */
  lemma {:induction false} DropPairsKeeps(s: string, markers: seq<string>)
    requires NonEmptyMarkers(markers) && NeverOpens(s, markers)
    ensures DropPairs(s, markers) == s
    decreases |s|
  {
    if s != [] {
      assert s[0..] == s;
      forall k | 0 <= k < |s[1..]|
        ensures OpenedBy(s[1..][k..], markers).None?
      {
        assert s[1..][k..] == s[k + 1..];
      }
      DropPairsKeeps(s[1..], markers);
      assert s == [s[0]] + s[1..];
    }
  }

  /** Markers whose first character is absent never open. */
  lemma {:induction false} AbsentNeverOpens(s: string, markers: seq<string>)
    requires NonEmptyMarkers(markers)
    requires forall m :: m in markers ==> m[0] !in s
    ensures NeverOpens(s, markers)
  {
    forall k | 0 <= k < |s|
      ensures OpenedBy(s[k..], markers).None?
    {
      var t := s[k..];
      forall m | m in markers
        ensures !(|m| <= |t| && t[..|m|] == m)
      {
        if |m| <= |t| {
          assert t[..|m|][0] == s[k];
        }
      }
      NotOpened(t, markers);
    }
  }

  /** Bold markers never open where neither `*` nor `_` is doubled. */
  lemma {:induction false} UndoubledNeverOpensBold(s: string)
    requires NoRepeat(s, '*') && NoRepeat(s, '_')
    ensures NeverOpens(s, BoldMarkers)
  {
    forall k | 0 <= k < |s|
      ensures OpenedBy(s[k..], BoldMarkers).None?
    {
      var t := s[k..];
      forall m | m in BoldMarkers
        ensures !(|m| <= |t| && t[..|m|] == m)
      {
        if 2 <= |t| {
          assert t[..2][0] == s[k] && t[..2][1] == s[k + 1];
        }
      }
      NotOpened(t, BoldMarkers);
    }
  }

  lemma {:induction false} DropInlineCodeKeeps(s: string)
    requires '`' !in s
    ensures DropInlineCode(s) == s
    decreases |s|
  {
    if s != [] {
      DropInlineCodeKeeps(s[1..]);
      assert s == [s[0]] + s[1..];
    }
  }

  lemma {:induction false} DropFencedBlocksKeeps(s: string)
    requires '`' !in s
    ensures DropFencedBlocks(s) == s
    decreases |s|
  {
    if s != [] {
      if |s| >= 3 {
        assert s[..3][0] == s[0];
      }
      DropFencedBlocksKeeps(s[1..]);
      assert s == [s[0]] + s[1..];
    }
  }

  lemma {:induction false} DropLinksKeeps(s: string, open: string)
    requires |open| > 0 && open[|open| - 1] == '[' && '[' !in s
    ensures DropLinks(s, open) == s
    decreases |s|
  {
    if s != [] {
      if |open| <= |s| {
        assert s[..|open|][|open| - 1] == s[|open| - 1];
      }
      DropLinksKeeps(s[1..], open);
      assert s == [s[0]] + s[1..];
    }
  }

  /** The first stage leaves a text without backticks, hyphens and `#` alone. */
  lemma {:induction false} FrontKeeps(s: string)
    requires '`' !in s && '-' !in s && '#' !in s
    ensures Front(s) == s
  {
    DropFencesKeeps(s);
  }

  /** The second stage leaves a text without `*`, `_` and `~` alone, and so does each of its passes. */
  lemma {:induction false} EmphasisKeeps(s: string)
    requires '*' !in s && '_' !in s && '~' !in s
    ensures DropPairs(s, BoldMarkers) == s && DropPairs(s, ItalicMarkers) == s && DropPairs(s, StrikeMarkers) == s
    ensures Emphasis(s) == s
  {
    AbsentNeverOpens(s, BoldMarkers);
    AbsentNeverOpens(s, ItalicMarkers);
    AbsentNeverOpens(s, StrikeMarkers);
    DropPairsKeeps(s, BoldMarkers);
    DropPairsKeeps(s, ItalicMarkers);
    DropPairsKeeps(s, StrikeMarkers);
  }

  /** The third stage leaves a text without backticks alone. */
  lemma {:induction false} CodeKeeps(s: string)
    requires '`' !in s
    ensures DropInlineCode(s) == s && DropFencedBlocks(s) == s
    ensures Code(s) == s
  {
    DropInlineCodeKeeps(s);
    DropFencedBlocksKeeps(s);
  }

  /** The last stage leaves a text without `[` alone. */
  lemma {:induction false} LinksKeeps(s: string)
    requires '[' !in s
    ensures DropLinks(s, "[") == s && DropLinks(s, "![") == s
    ensures Links(s) == s
  {
    DropLinksKeeps(s, "[");
    DropLinksKeeps(s, "![");
  }

  /** A text without markup characters is returned unchanged. */
  lemma {:induction false} PlainUnchanged(x: string)
    requires Plain(x)
    ensures Front(x) == x && Emphasis(x) == x && Code(x) == x && Links(x) == x
    ensures DropPairs(x, ItalicMarkers) == x && DropPairs(x, StrikeMarkers) == x
    ensures Rewrite(x) == x
  {
    assert '`' !in x && '-' !in x && '#' !in x && '*' !in x && '_' !in x && '~' !in x && '[' !in x;
    FrontKeeps(x);
    EmphasisKeeps(x);
    CodeKeeps(x);
    LinksKeeps(x);
  }

  /* ---------------------------------------------------------------- */
  /* Markup that is stripped                                           */
  /* ---------------------------------------------------------------- */

  lemma {:induction false} FindMarkerSkips(s: string, i: nat, j: nat, m: string, stopAtNewline: bool)
    requires |m| > 0 && i <= j && MarkerAt(s, j, m)
    requires forall k :: i <= k < j ==> s[k] != m[0] && s[k] != '\n'
    ensures FindMarker(s, i, m, stopAtNewline) == Some(j)
    decreases j - i
  {
    if i < j {
      assert s[i..i + |m|][0] == s[i];
      FindMarkerSkips(s, i + 1, j, m, stopAtNewline);
    }
  }

  lemma {:induction false} FindCharSkips(s: string, i: nat, j: nat, c: char)
    requires i <= j < |s| && s[j] == c
    requires forall k :: i <= k < j ==> s[k] != c
    ensures FindChar(s, i, c) == Some(j)
    decreases j - i
  {
    if i < j {
      FindCharSkips(s, i + 1, j, c);
    }
  }

  /** A marker pass on `m x m`, when `m` opens at the start, leaves `x`. */
  lemma {:induction false} PairOpens(s: string, markers: seq<string>, m: string, x: string)
    requires NonEmptyMarkers(markers) && OpenedBy(s, markers) == Some(m) && s == m + x + m
    requires forall i :: 0 <= i < |x| ==> x[i] != m[0] && x[i] != '\n'
    ensures DropPairs(s, markers) == x
  {
    var n := |m|;
    forall k | n <= k < n + |x|
      ensures s[k] != m[0] && s[k] != '\n'
    {
      assert s[k] == x[k - n];
    }
    assert s[n + |x|..n + |x| + n] == m;
    FindMarkerSkips(s, n, n + |x|, m, true);
    assert s[n..n + |x|] == x;
    assert s[n + |x| + n..] == [];
  }

  /** The emphasis stage turns `**x**` and `__x__` into `x`. */
  lemma {:induction false} BoldStage(m: string, x: string)
    requires m == "**" || m == "__"
    requires Plain(x)
    ensures Emphasis(m + x + m) == x
  {
    var s := m + x + m;
    assert s[..2] == m;
    assert BoldMarkers[1..] == ["__"];
    assert m == "__" ==> s[..2][0] != "**"[0];
    assert OpenedBy(s, BoldMarkers) == Some(m);
    PairOpens(s, BoldMarkers, m, x);
    PlainUnchanged(x);
  }

  /** `**x**` and `__x__` become `x`. */
  lemma {:induction false} StripsBold(m: string, x: string)
    requires m == "**" || m == "__"
    requires Plain(x)
    ensures PreprocessText(Some(m + x + m)) == x
  {
    var s := m + x + m;
    assert '`' !in s && '-' !in s && '#' !in s;
    FrontKeeps(s);
    BoldStage(m, x);
    PlainUnchanged(x);
  }

  /** Doubled `*` or `_` do not occur in `m x m` for a one-character `m` and non-empty plain `x`. */
  lemma {:induction false} SingleMarkersUndoubled(m: string, x: string)
    requires |m| == 1 && Plain(x) && x != []
    ensures NoRepeat(m + x + m, '*') && NoRepeat(m + x + m, '_') && NoRepeat(m + x + m, '`')
  {
    var s := m + x + m;
    forall i | 0 <= i < |s| - 1
      ensures s[i] != s[i + 1] || !IsMarkup(s[i])
    {
      if i == 0 {
        assert s[1] == x[0];
      } else {
        assert s[i] == x[i - 1];
      }
    }
  }

  /** The emphasis stage turns `*x*` and `_x_` into `x`, the bold pass finding nothing to do. */
  lemma {:induction false} ItalicStage(m: string, x: string)
    requires m == "*" || m == "_"
    requires Plain(x) && x != []
    ensures Emphasis(m + x + m) == x
  {
    var s := m + x + m;
    assert s[..1] == m;
    assert ItalicMarkers[1..] == ["_"];
    assert OpenedBy(s, ItalicMarkers) == Some(m);
    SingleMarkersUndoubled(m, x);
    UndoubledNeverOpensBold(s);
    DropPairsKeeps(s, BoldMarkers);
    PairOpens(s, ItalicMarkers, m, x);
    PlainUnchanged(x);
  }

  /** `*x*` and `_x_` become `x`. */
  lemma {:induction false} StripsItalic(m: string, x: string)
    requires m == "*" || m == "_"
    requires Plain(x) && x != []
    ensures PreprocessText(Some(m + x + m)) == x
  {
    var s := m + x + m;
    assert '`' !in s && '-' !in s && '#' !in s;
    FrontKeeps(s);
    ItalicStage(m, x);
    PlainUnchanged(x);
  }

  /** The emphasis stage turns `~~x~~` into `x`. */
  lemma {:induction false} StrikeStage(x: string)
    requires Plain(x)
    ensures Emphasis("~~" + x + "~~") == x
  {
    var s := "~~" + x + "~~";
    assert s[..2] == "~~";
    assert OpenedBy(s, StrikeMarkers) == Some("~~");
    assert '*' !in s && '_' !in s;
    AbsentNeverOpens(s, BoldMarkers);
    AbsentNeverOpens(s, ItalicMarkers);
    DropPairsKeeps(s, BoldMarkers);
    DropPairsKeeps(s, ItalicMarkers);
    PairOpens(s, StrikeMarkers, "~~", x);
  }

  /** `~~x~~` becomes `x`. */
  lemma {:induction false} StripsStrikethrough(x: string)
    requires Plain(x)
    ensures PreprocessText(Some("~~" + x + "~~")) == x
  {
    var s := "~~" + x + "~~";
    assert '`' !in s && '-' !in s && '#' !in s;
    FrontKeeps(s);
    StrikeStage(x);
    PlainUnchanged(x);
  }

  /** The inline-code pass turns `` `x` `` into `x`. */
  lemma {:induction false} CodePass(x: string)
    requires Plain(x) && x != []
    ensures DropInlineCode("`" + x + "`") == x
  {
    var s := "`" + x + "`";
    forall k | 1 <= k < 1 + |x|
      ensures s[k] != '`'
    {
      assert s[k] == x[k - 1];
    }
    FindCharSkips(s, 1, 1 + |x|, '`');
    assert s[1..1 + |x|] == x && s[|x| + 2..] == [];
  }

  /** The stages before the code stage leave `` `x` `` alone: its backtick is single. */
  lemma {:induction false} CodeUntouchedBefore(x: string)
    requires Plain(x) && x != []
    ensures Emphasis(Front("`" + x + "`")) == "`" + x + "`"
  {
    var s := "`" + x + "`";
    SingleMarkersUndoubled("`", x);
    DropFencesKeeps(s);
    CodeTextChars(x);
    assert Front(s) == s;
    EmphasisKeeps(s);
  }

  /** `` `x` `` for plain `x` holds no markup but its two backticks. */
  lemma {:induction false} CodeTextChars(x: string)
    requires Plain(x)
    ensures var s := "`" + x + "`";
      '-' !in s && '#' !in s && '*' !in s && '_' !in s && '~' !in s
  {
  }

  /** The code stage turns `` `x` `` into `x`, the fenced-block pass finding nothing to do. */
  lemma {:induction false} CodeStage(x: string)
    requires Plain(x) && x != []
    ensures Code("`" + x + "`") == x
  {
    CodePass(x);
    assert '`' !in x;
    CodeKeeps(x);
  }

  /** `` `x` `` becomes `x` when `x` is not empty. */
  lemma {:induction false} StripsInlineCode(x: string)
    requires Plain(x) && x != []
    ensures PreprocessText(Some("`" + x + "`")) == x
  {
    CodeUntouchedBefore(x);
    CodeStage(x);
    assert '[' !in x;
    LinksKeeps(x);
  }

  /** A link pass on a text that is one whole link leaves its text. */
  lemma {:induction false} WholeLink(s: string, open: string, a: nat, e: nat)
    requires |open| > 0 && |open| <= |s| && s[..|open|] == open
    requires FindMarker(s, |open|, "](", true) == Some(a)
    requires FindChar(s, a + 2, ')') == Some(e) && e + 1 == |s|
    ensures DropLinks(s, open) == s[|open|..a]
  {
    assert s[e + 1..] == [];
  }

  /** In `o + x + w` with `w` opening with `m`, the first `m` after `o` follows `x`. */
  lemma {:induction false} MarkerAfter(o: string, x: string, w: string, m: string)
    requires |m| > 0 && |m| <= |w| && w[..|m|] == m
    requires forall i :: 0 <= i < |x| ==> x[i] != m[0] && x[i] != '\n'
    ensures FindMarker(o + x + w, |o|, m, true) == Some(|o| + |x|)
  {
    var s := o + x + w;
    forall k | |o| <= k < |o| + |x|
      ensures s[k] != m[0] && s[k] != '\n'
    {
      assert s[k] == x[k - |o|];
    }
    assert s[|o| + |x|..|o| + |x| + |m|] == w[..|m|];
    FindMarkerSkips(s, |o|, |o| + |x|, m, true);
  }

  /** In `o + u + [c]` with no `c` in `u`, the first `c` after `o` is the last character. */
  lemma {:induction false} CharAfter(o: string, u: string, c: char)
    requires forall i :: 0 <= i < |u| ==> u[i] != c
    ensures FindChar(o + u + [c], |o|, c) == Some(|o| + |u|)
  {
    var s := o + u + [c];
    forall k | |o| <= k < |o| + |u|
      ensures s[k] != c
    {
      assert s[k] == u[k - |o|];
    }
    FindCharSkips(s, |o|, |o| + |u|, c);
  }

  /** In `[x](u)` the first `](` follows `x`. */
  lemma {:induction false} LinkCloseFound(x: string, u: string)
    requires Plain(x)
    ensures FindMarker("[" + x + "](" + u + ")", 1, "](", true) == Some(1 + |x|)
  {
    var w := "](" + u + ")";
    assert "[" + x + "](" + u + ")" == "[" + x + w;
    assert w[..2] == "](";
    MarkerAfter("[", x, w, "](");
  }

  /** In `[x](u)` the first `)` after `](` follows `u`. */
  lemma {:induction false} LinkParenFound(x: string, u: string)
    requires Plain(u)
    ensures FindChar("[" + x + "](" + u + ")", 3 + |x|, ')') == Some(3 + |x| + |u|)
  {
    var o := "[" + x + "](";
    assert ")" == [')'];
    CharAfter(o, u, ')');
  }

  /** The link pass turns `[x](u)` into `x`. */
  lemma {:induction false} LinkPass(x: string, u: string)
    requires Plain(x) && Plain(u)
    ensures DropLinks("[" + x + "](" + u + ")", "[") == x
  {
    var s := "[" + x + "](" + u + ")";
    assert s[..1] == "[";
    LinkCloseFound(x, u);
    LinkParenFound(x, u);
    WholeLink(s, "[", 1 + |x|, 3 + |x| + |u|);
    assert s[1..1 + |x|] == x;
  }

  /** `[x](u)` becomes `x`. */
  lemma {:induction false} StripsLink(x: string, u: string)
    requires Plain(x) && Plain(u)
    ensures PreprocessText(Some("[" + x + "](" + u + ")")) == x
  {
    var s := "[" + x + "](" + u + ")";
    LinkTextChars("[", x, u);
    FrontKeeps(s);
    EmphasisKeeps(s);
    CodeKeeps(s);
    LinkPass(x, u);
    assert '[' !in x;
    LinksKeeps(x);
    assert Links(s) == x;
  }

  /** The link pass turns `![x](u)` into `!x`: it skips the `!` and takes `[x](u)`. */
  lemma {:induction false} ImageLinkPass(x: string, u: string)
    requires Plain(x) && Plain(u)
    ensures DropLinks("![" + x + "](" + u + ")", "[") == "!" + x
  {
    var link := "[" + x + "](" + u + ")";
    var s := "!" + link;
    assert s == "![" + x + "](" + u + ")";
    assert s[..1] != "[";
    assert s[1..] == link;
    LinkPass(x, u);
  }

  /** The last stage turns `![x](u)` into `!x`; the image pass finds no `[` left. */
  lemma {:induction false} ImageLinksStage(x: string, u: string)
    requires Plain(x) && Plain(u)
    ensures Links("![" + x + "](" + u + ")") == "!" + x
  {
    ImageLinkPass(x, u);
    assert '[' !in "!" + x;
    DropLinksKeeps("!" + x, "![");
  }

  /** A link of plain text and a plain target holds none of the characters the first three stages react to. */
  lemma {:induction false} LinkTextChars(open: string, x: string, u: string)
    requires Plain(x) && Plain(u) && (open == "[" || open == "![")
    ensures var s := open + x + "](" + u + ")";
      '`' !in s && '-' !in s && '#' !in s && '*' !in s && '_' !in s && '~' !in s
  {
  }

  /**
   * `![x](u)` becomes `!x`: the link pass runs first and takes `[x](u)`,
   * leaving nothing for the image pass.
   */
  lemma {:induction false} ImageBecomesBangAlt(x: string, u: string)
    requires Plain(x) && Plain(u)
    ensures PreprocessText(Some("![" + x + "](" + u + ")")) == "!" + x
  {
    var s := "![" + x + "](" + u + ")";
    LinkTextChars("![", x, u);
    FrontKeeps(s);
    EmphasisKeeps(s);
    CodeKeeps(s);
    ImageLinksStage(x, u);
  }

  /** Lines 31-34 with the image pattern applied before the link pattern, as the comment on line 33 intends. */
  function LinksImagesFirst(s: string): (r: string)
    ensures |r| <= |s| && CharsFrom(r, s)
  {
    DropLinks(DropLinks(s, "!["), "[")
  }

  /** `preprocess_text` with the image pattern applied before the link pattern. */
  function PreprocessTextImagesFirst(text: Option<string>): (r: string)
    ensures !Given(text) ==> r == ""
  {
    if !Given(text) then "" else LinksImagesFirst(Code(Emphasis(Front(text.value))))
  }

  /** The image pass turns `![x](u)` into `x`. */
  lemma {:induction false} ImagePass(x: string, u: string)
    requires Plain(x) && Plain(u)
    ensures DropLinks("![" + x + "](" + u + ")", "![") == x
  {
    var s := "![" + x + "](" + u + ")";
    var w := "](" + u + ")";
    assert s == "![" + x + w && w[..2] == "](";
    MarkerAfter("![", x, w, "](");
    var o := "![" + x + "](";
    assert s == o + u + [')'];
    CharAfter(o, u, ')');
    WholeLink(s, "![", 2 + |x|, 4 + |x| + |u|);
    assert s[2..2 + |x|] == x;
  }

  /** The image pass leaves `[x](u)` alone: its only `[` opens the text. */
  lemma {:induction false} ImagePassSkipsLink(x: string, u: string)
    requires Plain(x) && Plain(u)
    ensures DropLinks("[" + x + "](" + u + ")", "![") == "[" + x + "](" + u + ")"
  {
    var s := "[" + x + "](" + u + ")";
    assert s[..2][0] == '[';
    assert '[' !in s[1..];
    DropLinksKeeps(s[1..], "![");
    assert s == [s[0]] + s[1..];
  }

  /** With images first, `![x](u)` becomes `x`. */
  lemma {:induction false} ImagesFirstStripsImage(x: string, u: string)
    requires Plain(x) && Plain(u)
    ensures PreprocessTextImagesFirst(Some("![" + x + "](" + u + ")")) == x
  {
    var s := "![" + x + "](" + u + ")";
    LinkTextChars("![", x, u);
    FrontKeeps(s);
    EmphasisKeeps(s);
    CodeKeeps(s);
    ImagePass(x, u);
    assert '[' !in x;
    DropLinksKeeps(x, "[");
  }

  /** With images first, `[x](u)` still becomes `x`. */
  lemma {:induction false} ImagesFirstStripsLink(x: string, u: string)
    requires Plain(x) && Plain(u)
    ensures PreprocessTextImagesFirst(Some("[" + x + "](" + u + ")")) == x
  {
    var s := "[" + x + "](" + u + ")";
    LinkTextChars("[", x, u);
    FrontKeeps(s);
    EmphasisKeeps(s);
    CodeKeeps(s);
    ImagePassSkipsLink(x, u);
    LinkPass(x, u);
  }

  /** With images first, a text without markup is still returned unchanged. */
  lemma {:induction false} ImagesFirstPlainUnchanged(x: string)
    requires Plain(x)
    ensures PreprocessTextImagesFirst(Some(x)) == x
  {
    PlainUnchanged(x);
    LinksKeeps(x);
  }

  /** `#` repeated `h` times. */
  function Hashes(h: nat): (r: string)
    ensures |r| == h && forall i :: 0 <= i < h ==> r[i] == '#'
  {
    seq(h, _ => '#')
  }

  /** The header pass drops `#...# ` at the start of the text. */
  lemma {:induction false} HeaderPass(h: nat, x: string)
    requires 1 <= h <= 6 && Plain(x) && x != [] && !IsSpace(x[0])
    ensures DropHeaders(Hashes(h) + " " + x) == x
  {
    var s := Hashes(h) + " " + x;
    assert s[h] == ' ' && s[h + 1] == x[0];
    assert forall i :: 0 <= i < h ==> s[i] == '#';
    assert !IsSpace(s[0]) && !IsHash(s[h]) && IsSpace(s[h]) && !IsSpace(s[h + 1]);
    assert RunFrom(s, 0, IsSpace) == 0;
    assert RunFrom(s, 0, IsHash) == h;
    assert RunFrom(s, h, IsSpace) == 1;
    assert HeaderEnd(s, 0) == Some(h + 1);
    assert s[h + 1..] == x;
    assert '#' !in x;
  }

  /** `#...# x`, with one to six `#`, becomes `x`. */
  lemma {:induction false} StripsHeader(h: nat, x: string)
    requires 1 <= h <= 6 && Plain(x) && x != [] && !IsSpace(x[0])
    ensures PreprocessText(Some(Hashes(h) + " " + x)) == x
  {
    var s := Hashes(h) + " " + x;
    assert '`' !in s && '-' !in s;
    DropFencesKeeps(s);
    HeaderPass(h, x);
    assert Front(s) == x;
    PlainUnchanged(x);
  }
}

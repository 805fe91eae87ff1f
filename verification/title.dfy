/**
 * Title extraction for the post list: the first match of the regular
 * expression `/^#\s+(.*)/m` in the markdown text gives the title through its
 * capture group; without a match the title is the file name.
 *
 * The regular expression is modelled by what its engine does: try every
 * start position left to right; at a position that starts a line (the
 * `m` flag), expect `#`, then a greedy run of at least one `\s` character
 * (line terminators included), then `.*`, which takes characters up to the
 * next line terminator. Because `.*` can match the empty string, the first
 * position where `^#\s` matches is the match, and no backtracking into the
 * whitespace run ever happens.
 */
module Title {

  datatype Option<T> = None | Some(value: T)

  /** ECMAScript LineTerminator: the characters `.` refuses and after which `^` matches under `m`. */
  predicate IsLineTerm(c: char) {
    c == '\n' || c == '\r' || c == '\U{2028}' || c == '\U{2029}'
  }

  /**
   * ECMAScript `\s`: WhiteSpace (TAB, VT, FF, ZWNBSP and the space separators
   * of category Zs) together with every LineTerminator.
   */
  predicate IsWs(c: char) {
    || IsLineTerm(c)
    || c == '\t' || c == '\U{000B}' || c == '\U{000C}' || c == '\U{FEFF}'
    || c == ' ' || c == '\U{00A0}' || c == '\U{1680}'
    || ('\U{2000}' <= c <= '\U{200A}')
    || c == '\U{202F}' || c == '\U{205F}' || c == '\U{3000}'
  }

  /**
   * Among ASCII characters, `\s` is exactly TAB, LF, VT, FF, CR and space,
   * and the line terminators are exactly LF and CR; every line terminator
   * is also whitespace.
   */
  lemma {:induction false} CharClasses(c: char)
    ensures IsLineTerm(c) ==> IsWs(c)
    ensures c < '\U{0080}' ==> (IsWs(c) <==> c == ' ' || '\t' <= c <= '\r')
    ensures c < '\U{0080}' ==> (IsLineTerm(c) <==> c == '\n' || c == '\r')
  {
  }

  /** `^` under the `m` flag: the start of the text, or just after a line terminator. */
  predicate AtLineStart(s: string, p: nat)
    requires p <= |s|
  {
    p == 0 || IsLineTerm(s[p - 1])
  }

  /** The prefix `^#\s` of the pattern matches at position p. */
  predicate HeadingAt(s: string, p: nat) {
    p + 1 < |s| && AtLineStart(s, p) && s[p] == '#' && IsWs(s[p + 1])
  }

  /** End of the greedy run of whitespace that starts at i. */
  function SkipWs(s: string, i: nat): (j: nat)
    requires i <= |s|
    ensures i <= j <= |s|
    ensures forall k :: i <= k < j ==> IsWs(s[k])
    ensures j == |s| || !IsWs(s[j])
    decreases |s| - i
  {
    if i < |s| && IsWs(s[i]) then SkipWs(s, i + 1) else i
  }

  /** Where `.*` started at i stops: the first line terminator at or after i, or the end. */
  function LineEnd(s: string, i: nat): (j: nat)
    requires i <= |s|
    ensures i <= j <= |s|
    ensures forall k :: i <= k < j ==> !IsLineTerm(s[k])
    ensures j == |s| || IsLineTerm(s[j])
    decreases |s| - i
  {
    if i < |s| && !IsLineTerm(s[i]) then LineEnd(s, i + 1) else i
  }

  /** The capture group `(.*)` of the match whose `#` is at p. */
  function CaptureAt(s: string, p: nat): (t: string)
    requires HeadingAt(s, p)
    ensures forall k :: 0 <= k < |t| ==> !IsLineTerm(t[k])
    ensures t == [] || !IsWs(t[0])
    ensures t == [] ==> forall k :: p + 1 <= k < |s| ==> IsWs(s[k])
  {
    var q := SkipWs(s, p + 1);
    s[q..LineEnd(s, q)]
  }

  /**
   * The position of the match: the earliest position at or after `from`
   * where `^#\s` matches, found by trying each position in turn.
   */
  function FindHeading(s: string, from: nat): (r: Option<nat>)
    requires from <= |s|
    ensures r.Some? ==> from <= r.value && HeadingAt(s, r.value)
    ensures r.Some? ==> forall p :: from <= p < r.value ==> !HeadingAt(s, p)
    ensures r.None? <==> forall p :: from <= p ==> !HeadingAt(s, p)
    decreases |s| - from
  {
    if from == |s| then None
    else if HeadingAt(s, from) then Some(from)
    else FindHeading(s, from + 1)
  }

  /**
   * The capture group of the first match, or the file name when nothing
   * matches. A title taken from the text holds no line terminator and is
   * empty or starts with a non-whitespace character.
   */
  function ExtractTitle(md: string, file: string): (title: string)
    ensures (forall p :: !HeadingAt(md, p)) ==> title == file
    ensures || title == file
            || ((forall k :: 0 <= k < |title| ==> !IsLineTerm(title[k])) && (title == [] || !IsWs(title[0])))
  {
    match FindHeading(md, 0)
    case None => file
    case Some(p) => CaptureAt(md, p)
  }

  // ---------------------------------------------------------------------------
  // An independent, declarative reading of one match of `^#\s+(.*)` at p
  // ---------------------------------------------------------------------------

  /**
   * t is what `(.*)` captures when the match starts at p: the whitespace run
   * after `#` ends at q and is maximal (greedy), t starts at q, holds no line
   * terminator, and ends at a line terminator or at the end of the text.
   */
  ghost predicate IsCapture(s: string, p: nat, t: string) {
    && HeadingAt(s, p)
    && exists q :: CaptureFrom(s, p, q, t)
  }

  ghost predicate CaptureFrom(s: string, p: nat, q: nat, t: string) {
    && p + 1 < q <= |s| && q + |t| <= |s|
    && (forall k :: p + 1 <= k < q ==> IsWs(s[k]))
    && (q == |s| || !IsWs(s[q]))
    && s[q..q + |t|] == t
    && (forall k :: 0 <= k < |t| ==> !IsLineTerm(t[k]))
    && (q + |t| == |s| || IsLineTerm(s[q + |t|]))
  }

  /** CaptureAt computes the capture, and it is the only text the declarative reading admits. */
  lemma {:induction false} CaptureAtIsTheCapture(s: string, p: nat, t: string)
    requires HeadingAt(s, p)
    ensures IsCapture(s, p, CaptureAt(s, p))
    ensures IsCapture(s, p, t) ==> t == CaptureAt(s, p)
  {
    var q := SkipWs(s, p + 1);
    var e := LineEnd(s, q);
    assert CaptureFrom(s, p, q, s[q..e]);
    if IsCapture(s, p, t) {
      var q': nat :| CaptureFrom(s, p, q', t);
      assert q' == q;
      assert q + |t| == e;
    }
  }

  // ---------------------------------------------------------------------------
  // Which line gives the title
  // ---------------------------------------------------------------------------

  /** If some line starts with `#` and whitespace, the title is the capture at the earliest one. */
  lemma {:induction false} TitleFromEarliestHeading(md: string, file: string, p: nat)
    requires HeadingAt(md, p)
    requires forall k :: 0 <= k < p ==> !HeadingAt(md, k)
    ensures ExtractTitle(md, file) == CaptureAt(md, p)
  {
    var r := FindHeading(md, 0);
    assert r.Some?;
    assert r.value == p;
  }

  /**
   * A line that starts with `##`, or with `#` and a non-whitespace character,
   * or not with `#` at all, is never the title line: putting such a line in
   * front of a text leaves the title of the text as it was.
   */
  lemma {:induction false} NonHeadingLineSkipped(line: string, nl: char, rest: string, file: string)
    requires forall k :: 0 <= k < |line| ==> !IsLineTerm(line[k])
    requires IsLineTerm(nl)
    requires line == [] || line[0] != '#' || (|line| >= 2 && !IsWs(line[1]))
    ensures ExtractTitle(line + [nl] + rest, file) == ExtractTitle(rest, file)
  {
    var pre := line + [nl];
    var s := pre + rest;
    assert s == line + [nl] + rest;
    var r := FindHeading(rest, 0);
    var bound := if r.Some? then r.value else |rest|;
    NoHeadingBefore(line, nl, rest, bound);
    if r.Some? {
      TitleAfterPrefix(pre, rest, file, r.value);
    } else {
      assert FindHeading(s, 0).None?;
    }
  }

  /**
   * When nothing before a line terminator matches, the match found in the
   * text after it gives the title.
   */
  lemma {:induction false} TitleAfterPrefix(pre: string, rest: string, file: string, p: nat)
    requires |pre| > 0 && IsLineTerm(pre[|pre| - 1])
    requires HeadingAt(rest, p)
    requires forall k :: 0 <= k < |pre| + p ==> !HeadingAt(pre + rest, k)
    ensures ExtractTitle(pre + rest, file) == CaptureAt(rest, p)
  {
    var s := pre + rest;
    HeadingShift(pre, rest, p);
    TitleFromEarliestHeading(s, file, |pre| + p);
    CaptureShift(pre, rest, p);
  }

  /**
   * Before the first match in `rest`, the pattern matches nowhere in
   * `line + [nl] + rest` either.
   */
  lemma {:induction false} NoHeadingBefore(line: string, nl: char, rest: string, bound: nat)
    requires forall k :: 0 <= k < |line| ==> !IsLineTerm(line[k])
    requires IsLineTerm(nl)
    requires line == [] || line[0] != '#' || (|line| >= 2 && !IsWs(line[1]))
    requires bound <= |rest| && forall j :: 0 <= j < bound ==> !HeadingAt(rest, j)
    ensures forall k :: 0 <= k < |line| + 1 + bound ==> !HeadingAt(line + [nl] + rest, k)
    ensures bound == |rest| ==> forall k :: 0 <= k ==> !HeadingAt(line + [nl] + rest, k)
  {
    var pre := line + [nl];
    assert line + [nl] + rest == pre + rest;
    forall k | 0 <= k
      ensures k < |pre| + bound || bound == |rest| ==> !HeadingAt(pre + rest, k)
    {
      if k < |pre| {
        NoHeadingInLine(line, nl, rest, k);
      } else {
        HeadingShift(pre, rest, k - |pre|);
      }
    }
  }

  /** Inside a line that does not open with `#` and whitespace, `^#\s` matches nowhere. */
  lemma {:induction false} NoHeadingInLine(line: string, nl: char, rest: string, k: nat)
    requires forall k :: 0 <= k < |line| ==> !IsLineTerm(line[k])
    requires line == [] || line[0] != '#' || (|line| >= 2 && !IsWs(line[1]))
    requires IsLineTerm(nl) && k <= |line|
    ensures !HeadingAt(line + [nl] + rest, k)
  {
    var s := line + [nl] + rest;
    if 0 < k {
      assert s[k - 1] == line[k - 1];
    } else if line != [] {
      assert s[0] == line[0];
      if |line| >= 2 {
        assert s[1] == line[1];
      }
    } else {
      assert s[0] == nl;
    }
  }

  /** After a line terminator, `^#\s` matches at the same places as in the text that follows it. */
  lemma {:induction false} HeadingShift(pre: string, rest: string, k: nat)
    requires |pre| > 0 && IsLineTerm(pre[|pre| - 1])
    ensures HeadingAt(pre + rest, |pre| + k) == HeadingAt(rest, k)
  {
    var s := pre + rest;
    var off := |pre|;
    if k + 1 < |rest| {
      assert s[off + k] == rest[k] && s[off + k + 1] == rest[k + 1];
      if k > 0 {
        assert s[off + k - 1] == rest[k - 1];
      }
    }
  }

  /** A match found after a prefix captures the same text as in the text without the prefix. */
  lemma {:induction false} CaptureShift(pre: string, rest: string, p: nat)
    requires |pre| > 0 && IsLineTerm(pre[|pre| - 1])
    requires HeadingAt(rest, p)
    ensures HeadingAt(pre + rest, |pre| + p)
    ensures CaptureAt(pre + rest, |pre| + p) == CaptureAt(rest, p)
  {
    var s := pre + rest;
    var off := |pre|;
    HeadingShift(pre, rest, p);
    SkipWsShift(pre, rest, p + 1);
    var q := SkipWs(rest, p + 1);
    LineEndShift(pre, rest, q);
    SliceShift(pre, rest, q, LineEnd(rest, q));
  }

  lemma {:induction false} SliceShift(pre: string, rest: string, i: nat, j: nat)
    requires i <= j <= |rest|
    ensures (pre + rest)[|pre| + i..|pre| + j] == rest[i..j]
  {
    assert (pre + rest)[|pre|..] == rest;
  }

  lemma {:induction false} SkipWsShift(pre: string, rest: string, i: nat)
    requires i <= |rest|
    ensures SkipWs(pre + rest, |pre| + i) == |pre| + SkipWs(rest, i)
    decreases |rest| - i
  {
    var s := pre + rest;
    if i < |rest| {
      assert s[|pre| + i] == rest[i];
      if IsWs(rest[i]) {
        SkipWsShift(pre, rest, i + 1);
      }
    }
  }

  lemma {:induction false} LineEndShift(pre: string, rest: string, i: nat)
    requires i <= |rest|
    ensures LineEnd(pre + rest, |pre| + i) == |pre| + LineEnd(rest, i)
    decreases |rest| - i
  {
    var s := pre + rest;
    if i < |rest| {
      assert s[|pre| + i] == rest[i];
      if !IsLineTerm(rest[i]) {
        LineEndShift(pre, rest, i + 1);
      }
    }
  }

  /**
   * Writing a title as a level-1 heading line and extracting it gives the
   * title back, whatever follows the line and whatever the file is called.
   */
  lemma {:induction false} HeadingRoundTrip(t: string, rest: string, file: string)
    requires t != [] && !IsWs(t[0])
    requires forall k :: 0 <= k < |t| ==> !IsLineTerm(t[k])
    requires rest == [] || IsLineTerm(rest[0])
    ensures ExtractTitle("# " + t + rest, file) == t
  {
    var s := "# " + t + rest;
    assert HeadingAt(s, 0);
    assert s[2] == t[0];
    assert SkipWs(s, 2) == 2;
    assert SkipWs(s, 1) == 2;
    var e := LineEnd(s, 2);
    assert forall k :: 2 <= k < 2 + |t| ==> s[k] == t[k - 2];
    assert 2 + |t| < |s| ==> s[2 + |t|] == rest[0];
    assert e == 2 + |t|;
    assert s[2..e] == t;
  }

  // ---------------------------------------------------------------------------
  // Edge cases of the pattern, on concrete texts
  // ---------------------------------------------------------------------------

  /** A first line `# First` gives the title `First`. */
  lemma {:induction false} FirstLineHeading()
    ensures ExtractTitle("# First\nbody", "a.md") == "First"
  {
    var s := "# First\nbody";
    assert HeadingAt(s, 0);
    assert SkipWs(s, 2) == 2;
    assert LineEnd(s, 2) == 7;
  }

  /** A text with no `#` at all is titled by its file name. */
  lemma {:induction false} NoHeadingFallsBack()
    ensures ExtractTitle("no heading here", "b.md") == "b.md"
  {
    var s := "no heading here";
    forall p | 0 <= p
      ensures !HeadingAt(s, p)
    {
      if p < |s| {
        assert s[p] != '#';
      }
    }
    assert FindHeading(s, 0).None?;
  }

  /** `\s+` runs across a line break, so an empty heading takes the next line, `##` and all. */
  lemma {:induction false} EmptyHeadingTakesNextLine()
    ensures ExtractTitle("# \n## Sub", "a.md") == "## Sub"
  {
    var s := "# \n## Sub";
    assert HeadingAt(s, 0);
    assert SkipWs(s, 3) == 3;
    assert SkipWs(s, 1) == 3;
    assert LineEnd(s, 3) == 9;
  }

  /** Trailing spaces belong to the title: `.*` stops only at a line terminator. */
  lemma {:induction false} TrailingSpacesKept()
    ensures ExtractTitle("# Hello  ", "a.md") == "Hello  "
  {
    var s := "# Hello  ";
    assert HeadingAt(s, 0);
    assert SkipWs(s, 2) == 2;
    assert LineEnd(s, 2) == 9;
  }
}

/**
 The release-notes renderer: a section between two markers is appended to the
 notes, or replaces the one that is there. The overwrite law needs to know that
 markers cannot arise across the seams of a concatenation.
 */
module ReleaseNotes {
  import opened Basics

  const START := "<!-- windows-executable-hashes:start -->"
  const END := "<!-- windows-executable-hashes:end -->"

  // ----- substring search -----

  predicate At(s: string, m: string, i: int) {
    0 <= i <= |s| - |m| && s[i..i + |m|] == m
  }

  predicate Contains(s: string, m: string) {
    exists i :: 0 <= i <= |s| && At(s, m, i)
  }

  /** The first occurrence at or after i, or -1. */
  function FindFrom(s: string, m: string, i: nat): (r: int)
    requires i <= |s|
    ensures r == -1 || (i <= r && At(s, m, r))
    ensures forall j :: i <= j < (if r == -1 then |s| + 1 else r) ==> !At(s, m, j)
    decreases |s| - i
  {
    if At(s, m, i) then i
    else if i == |s| then -1
    else FindFrom(s, m, i + 1)
  }

  function Find(s: string, m: string): int {
    FindFrom(s, m, 0)
  }

  /** Non-overlapping occurrences, counted from the left. */
  function Count(s: string, m: string): nat
    requires 0 < |m|
    decreases |s|
  {
    var i := Find(s, m);
    if i == -1 then 0 else 1 + Count(s[i + |m|..], m)
  }

  function SplitOnce(s: string, m: string): Option<(string, string)> {
    var i := Find(s, m);
    if i == -1 then None else Some((s[..i], s[i + |m|..]))
  }

  predicate IsSpace(c: char) {
    '\U{09}' <= c <= '\U{0D}' || '\U{1C}' <= c <= '\U{20}' || c == '\U{85}' || c == '\U{A0}' || c == '\U{1680}'
    || '\U{2000}' <= c <= '\U{200A}' || c == '\U{2028}' || c == '\U{2029}' || c == '\U{202F}' || c == '\U{205F}'
    || c == '\U{3000}'
  }

  function RStrip(s: string): (r: string)
    ensures |r| <= |s| && r == s[..|r|]
    ensures r == "" || !IsSpace(r[|r| - 1])
    ensures forall i :: |r| <= i < |s| ==> IsSpace(s[i])
  {
    if s == "" || !IsSpace(s[|s| - 1]) then s else RStrip(s[..|s| - 1])
  }

  // ----- the section -----

  datatype Data = Data(tag: string, binary: string, hashes: seq<(string, string)>)

  function Join(lines: seq<string>): string {
    if lines == [] then ""
    else if |lines| == 1 then lines[0]
    else lines[0] + "\n" + Join(lines[1..])
  }

  function HashLine(hash: (string, string)): string {
    "| " + hash.0 + " | `" + hash.1 + "` |"
  }

  function HashLines(hashes: seq<(string, string)>): seq<string> {
    if hashes == [] then [] else [HashLine(hashes[0])] + HashLines(hashes[1..])
  }

  const LEGACY :=
    "MD5 and SHA-1 are provided for legacy "
    + "allowlist forms only; they are not proof "
    + "of authenticity. "
  const VERIFY := "Verify the SHA-256 checksum and GitHub " + "Artifact Attestation for provenance. "
  const REBUILT := "A rebuilt or updated executable has " + "different hashes and needs a new " + "allowlist review."
  const DISCLAIMER := LEGACY + VERIFY + REBUILT

  const ALGORITHMS := "| Algorithm | Hash |"
  const RULE := "| --- | --- |"

  function TagLine(tag: string): string {
    "## Windows executable hashes (" + tag + ")"
  }

  function AssetLine(binary: string): string {
    "Exact release asset: `" + binary + "`. For exact-file antivirus allowlisting:"
  }

  function BodyLines(d: Data): seq<string> {
    [TagLine(d.tag), "", AssetLine(d.binary), "", ALGORITHMS, RULE] + HashLines(d.hashes) + ["", DISCLAIMER]
  }

  function Section(d: Data): string {
    Join([START] + BodyLines(d) + [END])
  }

  function Body(d: Data): string {
    Join(BodyLines(d))
  }

  // ----- the update -----

  datatype Result = Ok(notes: string) | Malformed

  /**
   The text before the section, without trailing white space, and the text after it: notes with one marker
   of each kind divide at them, notes without markers get the section at their end.
   */
  function Divided(notes: string, m: string, e: string): Option<(string, string)>
    requires 0 < |m| && 0 < |e|
  {
    if Count(notes, m) != Count(notes, e) || Count(notes, m) > 1 then None
    else
      match SplitOnce(notes, m)
      case Some((before, remainder)) =>
        (match SplitOnce(remainder, e)
         case Some((_, after)) => Some((RStrip(before), after))
         case None => None)
      case None => Some((RStrip(notes), "\n"))
  }

  function Parts(notes: string): Option<(string, string)> {
    Divided(notes, START, END)
  }

  function UpdateNotes(notes: string, d: Data): Result {
    match Parts(notes)
    case Some((before, after)) => Ok(before + "\n\n" + Section(d) + after)
    case None => Malformed
  }

  // ----- markers -----

  /** What makes the seams safe: a marker opens and closes its only angle brackets, on one line without bars. */
  predicate Marker(m: string) {
    && 1 < |m| && m[0] == '<' && m[|m| - 1] == '>'
    && (forall i :: 0 < i < |m| ==> m[i] != '<')
    && (forall i :: 0 <= i < |m| - 1 ==> m[i] != '>')
    && (forall i :: 0 <= i < |m| ==> m[i] != '\n' && m[i] != '|')
  }

  lemma StartIsMarker()
    ensures Marker(START) && 31 < |START| && START[31] == 's'
  {
    StartHasTwoBrackets();
  }

  lemma StartHasTwoBrackets()
    ensures (forall i :: 0 < i < |START| ==> START[i] != '<') && (forall i :: 0 <= i < |START| - 1 ==> START[i] != '>')
  {}

  lemma EndIsMarker()
    ensures Marker(END) && 31 < |END| && END[31] == 'e'
  {
    EndHasTwoBrackets();
  }

  lemma EndHasTwoBrackets()
    ensures (forall i :: 0 < i < |END| ==> END[i] != '<') && (forall i :: 0 <= i < |END| - 1 ==> END[i] != '>')
  {}

  /** The two markers, by what the proofs use of them. */
  predicate Pair(m: string, e: string) {
    Marker(m) && Marker(e) && 31 < |m| && 31 < |e| && m[31] != e[31]
  }

  lemma MarkersDiffer(m: string, e: string)
    requires m == START && e == END
    ensures Pair(m, e)
  {
    StartIsMarker();
    EndIsMarker();
  }

  predicate Unmarked(s: string) {
    !Contains(s, START) && !Contains(s, END)
  }

  // ----- what a concatenation contains -----

  /** An occurrence, character by character. */
  lemma AtChars(s: string, m: string, i: int)
    ensures At(s, m, i) <==> 0 <= i <= |s| - |m| && forall k :: i <= k < i + |m| ==> s[k] == m[k - i]
  {
    if 0 <= i <= |s| - |m| {
      assert forall k :: i <= k < i + |m| ==> s[i..i + |m|][k - i] == s[k];
      if forall k :: i <= k < i + |m| ==> s[k] == m[k - i] {
        assert s[i..i + |m|] == m;
      }
    }
  }

  /** An occurrence in a concatenation lies in one of the two parts or straddles the seam. */
  lemma Seam(x: string, y: string, m: string, i: int)
    requires At(x + y, m, i)
    ensures At(x, m, i) || At(y, m, i - |x|) || i < |x| < i + |m|
  {
    if i + |m| <= |x| {
      assert x[i..i + |m|] == (x + y)[i..i + |m|];
    } else if |x| <= i {
      assert y[i - |x|..i - |x| + |m|] == (x + y)[i..i + |m|];
    }
  }

  lemma InLeft(x: string, y: string, m: string, i: int)
    requires At(x, m, i)
    ensures At(x + y, m, i)
  {
    assert (x + y)[i..i + |m|] == x[i..i + |m|];
  }

  lemma InRight(x: string, y: string, m: string, i: int)
    requires At(y, m, i)
    ensures At(x + y, m, |x| + i)
  {
    assert (x + y)[|x| + i..|x| + i + |m|] == y[i..i + |m|];
  }

  lemma PartsAreContained(x: string, y: string, m: string)
    ensures Contains(x, m) || Contains(y, m) ==> Contains(x + y, m)
  {
    if i :| 0 <= i <= |x| && At(x, m, i) {
      InLeft(x, y, m, i);
    }
    if i :| 0 <= i <= |y| && At(y, m, i) {
      InRight(x, y, m, i);
    }
  }

  /** Text without a closing bracket completes no marker. */
  lemma AppendPlain(x: string, p: string, m: string)
    requires Marker(m) && '>' !in p
    ensures Contains(x + p, m) <==> Contains(x, m)
  {
    PartsAreContained(x, p, m);
    if i :| 0 <= i <= |x + p| && At(x + p, m, i) {
      AtChars(x + p, m, i);
      assert (x + p)[i + |m| - 1] == '>';
      Seam(x, p, m, i);
    }
  }

  /** Text without an opening bracket begins no marker. */
  lemma PrependPlain(p: string, y: string, m: string)
    requires Marker(m) && '<' !in p
    ensures Contains(p + y, m) <==> Contains(y, m)
  {
    PartsAreContained(p, y, m);
    if i :| 0 <= i <= |p + y| && At(p + y, m, i) {
      AtChars(p + y, m, i);
      assert (p + y)[i] == '<';
      Seam(p, y, m, i);
    }
  }

  /** A character that no marker has separates. */
  lemma Separated(x: string, c: char, y: string, m: string)
    requires Marker(m) && (c == '\n' || c == '|')
    ensures Contains(x + [c] + y, m) <==> Contains(x, m) || Contains(y, m)
  {
    AppendPlain(x, [c], m);
    PartsAreContained(x + [c], y, m);
    var s := x + [c] + y;
    if i :| 0 <= i <= |s| && At(s, m, i) {
      AtChars(s, m, i);
      assert s[|x|] == c;
      Seam(x + [c], y, m, i);
    }
  }

  /** Two different markers do not overlap: behind the one, the other does not begin. */
  lemma OtherMarker(m: string, y: string, other: string)
    requires Marker(m) && Marker(other) && 31 < |m| && 31 < |other| && m[31] != other[31]
    ensures Contains(m + y, other) <==> Contains(y, other)
  {
    PartsAreContained(m, y, other);
    assert (m + y)[31] == m[31];
    if i :| 0 <= i <= |m + y| && At(m + y, other, i) {
      AtChars(m + y, other, i);
      Seam(m, y, other, i);
    }
  }

  // ----- counting -----

  lemma CountZero(s: string, m: string)
    requires Marker(m)
    ensures Count(s, m) == 0 <==> !Contains(s, m)
  {}

  /** Markers do not overlap themselves. */
  lemma Apart(s: string, m: string, i: int, j: int)
    requires Marker(m) && At(s, m, i) && At(s, m, j) && i < j
    ensures i + |m| <= j
  {
    AtChars(s, m, i);
    AtChars(s, m, j);
    assert s[j] == m[0];
  }

  lemma TwiceCounts(s: string, m: string, i: int, j: int)
    requires Marker(m) && At(s, m, i) && At(s, m, j) && i < j
    ensures Count(s, m) >= 2
  {
    var f := Find(s, m);
    Apart(s, m, f, j);
    var rest := s[f + |m|..];
    assert s == s[..f + |m|] + rest;
    Seam(s[..f + |m|], rest, m, j);
    CountZero(rest, m);
  }

  /** After marker-free text, the marker itself is the first occurrence, and what follows it is left to count. */
  lemma FirstAfterFree(p: string, m: string, r: string)
    requires Marker(m) && !Contains(p, m)
    ensures SplitOnce(p + m + r, m) == Some((p, r))
    ensures Count(p + m + r, m) == 1 + Count(r, m)
  {
    var s := p + m + r;
    InRight(p, m, m, 0);
    InLeft(p + m, r, m, |p|);
    var f := Find(s, m);
    assert s == p + (m + r);
    Seam(p, m + r, m, f);
    if f < |p| {
      Apart(s, m, f, |p|);
    }
    assert s[..|p|] == p && s[|p| + |m|..] == r;
  }

  /** A marker that occurs exactly once leaves free text on both sides. */
  lemma OnceLeavesFree(p: string, m: string, r: string)
    requires Marker(m) && Count(p + m + r, m) == 1
    ensures SplitOnce(p + m + r, m) == Some((p, r))
    ensures !Contains(p, m) && !Contains(r, m)
  {
    var s := p + m + r;
    InRight(p, m, m, 0);
    InLeft(p + m, r, m, |p|);
    if i :| 0 <= i <= |p| && At(p, m, i) {
      InLeft(p, m, m, i);
      InLeft(p + m, r, m, i);
      TwiceCounts(s, m, i, |p|);
    }
    FirstAfterFree(p, m, r);
    CountZero(r, m);
  }

  // ----- the text around the section -----

  predicate Stripped(s: string) {
    s == "" || !IsSpace(s[|s| - 1])
  }

  lemma StripUndoesBlankLine(s: string)
    requires Stripped(s)
    ensures RStrip(s + "\n\n") == s
  {
    var t := s + "\n\n";
    var r := RStrip(t);
    assert t[|s|] == '\n' && t[|s| + 1] == '\n';
    assert |r| > 0 ==> r[|r| - 1] == t[|r| - 1];
    assert t[..|s|] == s;
  }

  lemma JoinSplits(first: seq<string>, last: string)
    requires first != []
    ensures Join(first + [last]) == Join(first) + "\n" + last
  {
    if |first| == 1 {
      assert (first + [last])[1..] == [last];
    } else {
      JoinSplits(first[1..], last);
      assert (first + [last])[1..] == first[1..] + [last];
      assert first[0] + "\n" + (Join(first[1..]) + "\n" + last)
          == first[0] + "\n" + Join(first[1..]) + "\n" + last;
    }
  }

  /** The section is its body between the markers, each on a line of its own. */
  lemma SectionShape(d: Data)
    ensures Section(d) == START + "\n" + Body(d) + "\n" + END
  {
    var lines := [START] + BodyLines(d);
    JoinSplits(lines, END);
    assert lines[1..] == BodyLines(d);
  }

  lemma RStripKeepsFree(s: string, m: string)
    requires !Contains(s, m)
    ensures !Contains(RStrip(s), m)
  {
    var r := RStrip(s);
    assert s == r + s[|r|..];
    PartsAreContained(r, s[|r|..], m);
  }

  predicate Free(s: string, m: string, e: string) {
    !Contains(s, m) && !Contains(s, e)
  }

  lemma OneEachLeavesFree(s: string, before: string, m: string, rest: string, inside: string, e: string, after: string)
    requires Marker(m) && Marker(e) && Count(s, m) == 1 == Count(s, e)
    requires s == before + m + rest && rest == inside + e + after
    ensures Free(before, m, e) && Free(after, m, e)
  {
    OnceLeavesFree(before, m, rest);
    PartsAreContained(inside + e, after, m);
    Regrouped(before, m, inside, e, after);
    OnceLeavesFree(before + (m + inside), e, after);
    PartsAreContained(before, m + inside, e);
  }

  lemma Regrouped(before: string, m: string, inside: string, e: string, after: string)
    ensures before + m + (inside + e + after) == before + (m + inside) + e + after
  {}

  lemma ShortIsFree(s: string, m: string)
    requires |s| < |m|
    ensures !Contains(s, m)
  {}

  lemma SplitRejoins(s: string, m: string)
    requires SplitOnce(s, m).Some?
    ensures var (before, after) := SplitOnce(s, m).value; s == before + m + after
  {}

  /** Accepted notes keep text without markers on both sides of the section. */
  lemma DividedIsFree(notes: string, m: string, e: string)
    requires Pair(m, e) && Divided(notes, m, e).Some?
    ensures var parts := Divided(notes, m, e).value; Free(parts.0, m, e) && Stripped(parts.0)
    ensures var parts := Divided(notes, m, e).value; Free(parts.1, m, e)
  {
    CountZero(notes, m);
    CountZero(notes, e);
    match SplitOnce(notes, m)
    case None => {
      RStripKeepsFree(notes, m);
      RStripKeepsFree(notes, e);
      ShortIsFree("\n", m);
      ShortIsFree("\n", e);
    }
    case Some(split) => {
      var parts := SplitOnce(split.1, e).value;
      SplitRejoins(notes, m);
      SplitRejoins(split.1, e);
      OneEachLeavesFree(notes, split.0, m, split.1, parts.0, e, parts.1);
      RStripKeepsFree(split.0, m);
      RStripKeepsFree(split.0, e);
    }
  }

  // ----- rendering and dividing again -----

  /** The section between what precedes and what follows it. */
  function Laid(before: string, m: string, body: string, e: string, after: string): string {
    before + "\n\n" + m + ("\n" + body + "\n" + e + after)
  }

  lemma LaidRegrouped(before: string, m: string, body: string, e: string, after: string)
    ensures Laid(before, m, body, e, after) == (before + "\n\n" + (m + ("\n" + body + "\n"))) + e + after
  {}

  lemma NewlinesAround(body: string, m: string)
    requires Marker(m)
    ensures Contains("\n" + body + "\n", m) <==> Contains(body, m)
  {
    PrependPlain("\n", body, m);
    AppendPlain("\n" + body, "\n", m);
  }

  lemma BehindIsFree(body: string, e: string, after: string, m: string)
    requires Pair(m, e) && !Contains(body, m) && !Contains(after, m)
    ensures !Contains("\n" + body + "\n" + e + after, m)
  {
    OtherMarker(e, after, m);
    PrependPlain("\n", body, m);
    Separated("\n" + body, '\n', e + after, m);
    assert "\n" + body + "\n" + (e + after) == "\n" + body + "\n" + e + after;
  }

  lemma AheadIsFree(before: string, m: string, inside: string, e: string)
    requires Pair(m, e) && !Contains(before, e) && !Contains(inside, e)
    ensures !Contains(before + "\n\n" + (m + inside), e)
  {
    OtherMarker(m, inside, e);
    AppendPlain(before, "\n", e);
    Separated(before + "\n", '\n', m + inside, e);
    assert before + "\n" + "\n" == before + "\n\n";
  }

  lemma DividedAtMarkers(p: string, m: string, inside: string, e: string, after: string)
    requires Marker(m) && Marker(e) && !Contains(p, m) && !Contains(inside + e + after, m)
    requires !Contains(p + (m + inside), e) && Free(inside, e, e) && Free(after, e, e)
    ensures Divided(p + m + (inside + e + after), m, e) == Some((RStrip(p), after))
    ensures Count(p + m + (inside + e + after), m) == 1 == Count(p + m + (inside + e + after), e)
  {
    FirstAfterFree(p, m, inside + e + after);
    FirstAfterFree(inside, e, after);
    Regrouped(p, m, inside, e, after);
    FirstAfterFree(p + (m + inside), e, after);
    CountZero(inside + e + after, m);
    CountZero(after, e);
  }

  /** With a marker-free body, the section is found again and nothing else is. */
  lemma LaidIsDivided(before: string, m: string, body: string, e: string, after: string)
    requires Pair(m, e) && Free(before, m, e) && Free(body, m, e) && Free(after, m, e) && Stripped(before)
    ensures Divided(Laid(before, m, body, e, after), m, e) == Some((before, after))
    ensures Count(Laid(before, m, body, e, after), m) == 1 == Count(Laid(before, m, body, e, after), e)
  {
    var inside := "\n" + body + "\n";
    NewlinesAround(body, e);
    AppendPlain(before, "\n\n", m);
    BehindIsFree(body, e, after, m);
    AheadIsFree(before, m, inside, e);
    DividedAtMarkers(before + "\n\n", m, inside, e, after);
    StripUndoesBlankLine(before);
  }

  /** A marker and a text that contains it again. */
  lemma MarkerThenMore(p: string, m: string, y: string)
    requires Marker(m) && Contains(y, m)
    ensures Count(p + m + y, m) >= 2
  {
    var i :| 0 <= i <= |y| && At(y, m, i);
    InRight(p, m, m, 0);
    InLeft(p + m, y, m, |p|);
    InRight(p + m, y, m, i);
    TwiceCounts(p + m + y, m, |p|, |p + m| + i);
  }

  lemma MoreThenMarker(x: string, m: string, q: string)
    requires Marker(m) && Contains(x, m)
    ensures Count(x + m + q, m) >= 2
  {
    var i :| 0 <= i <= |x| && At(x, m, i);
    InRight(x, m, m, 0);
    InLeft(x + m, q, m, |x|);
    InLeft(x, m, m, i);
    InLeft(x + m, q, m, i);
    TwiceCounts(x + m + q, m, i, |x|);
  }

  /** A body with a marker in it makes the rendered notes malformed. */
  lemma MarkedBodyIsRefused(before: string, m: string, body: string, e: string, after: string)
    requires Pair(m, e) && !Free(body, m, e)
    ensures Divided(Laid(before, m, body, e, after), m, e) == None
  {
    var inside := "\n" + body + "\n";
    if Contains(body, m) {
      NewlinesAround(body, m);
      PartsAreContained(inside, e, m);
      PartsAreContained(inside + e, after, m);
      MarkerThenMore(before + "\n\n", m, inside + e + after);
    } else {
      NewlinesAround(body, e);
      PartsAreContained(m, inside, e);
      PartsAreContained(before + "\n\n", m + inside, e);
      LaidRegrouped(before, m, body, e, after);
      MoreThenMarker(before + "\n\n" + (m + inside), e, after);
    }
  }

  // ----- what the body contains -----

  lemma {:induction false} JoinContains(lines: seq<string>, m: string)
    requires Marker(m)
    ensures Contains(Join(lines), m) <==> exists i :: 0 <= i < |lines| && Contains(lines[i], m)
  {
    if |lines| < 2 {
      ShortIsFree("", m);
    } else {
      JoinContains(lines[1..], m);
      Separated(lines[0], '\n', Join(lines[1..]), m);
      assert forall i :: 1 <= i < |lines| ==> lines[i] == lines[1..][i - 1];
    }
  }

  lemma Framed(p: string, field: string, q: string, m: string)
    requires Marker(m) && '<' !in p && '>' !in q
    ensures Contains(p + field + q, m) <==> Contains(field, m)
  {
    PrependPlain(p, field, m);
    AppendPlain(p + field, q, m);
  }

  lemma HashLineContains(hash: (string, string), m: string)
    requires Marker(m)
    ensures Contains(HashLine(hash), m) <==> Contains(hash.0, m) || Contains(hash.1, m)
  {
    Framed("| ", hash.0, " ", m);
    Framed(" `", hash.1, "` |", m);
    Separated("| " + hash.0 + " ", '|', " `" + hash.1 + "` |", m);
    assert HashLine(hash) == "| " + hash.0 + " " + "|" + (" `" + hash.1 + "` |");
  }

  lemma {:induction false} HashLinesContain(hashes: seq<(string, string)>, m: string)
    requires Marker(m)
    ensures |HashLines(hashes)| == |hashes|
    ensures forall i :: 0 <= i < |hashes| ==>
      (Contains(HashLines(hashes)[i], m) <==> Contains(hashes[i].0, m) || Contains(hashes[i].1, m))
  {
    if hashes != [] {
      HashLineContains(hashes[0], m);
      HashLinesContain(hashes[1..], m);
    }
  }

  predicate InData(d: Data, m: string) {
    Contains(d.tag, m) || Contains(d.binary, m)
    || exists i :: 0 <= i < |d.hashes| && (Contains(d.hashes[i].0, m) || Contains(d.hashes[i].1, m))
  }

  lemma PlainIsFree(s: string, m: string)
    requires Marker(m) && '<' !in s
    ensures !Contains(s, m)
  {
    ShortIsFree("", m);
    PrependPlain(s, "", m);
    assert s + "" == s;
  }

  lemma LegacyIsPlain()
    ensures '<' !in LEGACY
  {}

  lemma VerifyIsPlain()
    ensures '<' !in VERIFY
  {}

  lemma RebuiltIsPlain()
    ensures '<' !in REBUILT
  {}

  lemma PlainTogether(x: string, y: string, z: string)
    requires '<' !in x && '<' !in y && '<' !in z
    ensures '<' !in x + y + z
  {}

  lemma TextIsPlain()
    ensures '<' !in DISCLAIMER
  {
    LegacyIsPlain();
    VerifyIsPlain();
    RebuiltIsPlain();
    PlainTogether(LEGACY, VERIFY, REBUILT);
  }

  lemma FixedLinesAreFree(m: string)
    requires Marker(m)
    ensures !Contains("", m) && !Contains(ALGORITHMS, m) && !Contains(RULE, m) && !Contains(DISCLAIMER, m)
  {
    PlainIsFree("", m);
    PlainIsFree(ALGORITHMS, m);
    PlainIsFree(RULE, m);
    TextIsPlain();
    PlainIsFree(DISCLAIMER, m);
  }

  lemma TagLineContains(tag: string, m: string)
    requires Marker(m)
    ensures Contains(TagLine(tag), m) <==> Contains(tag, m)
  {
    Framed("## Windows executable hashes (", tag, ")", m);
  }

  lemma AssetLineContains(binary: string, m: string)
    requires Marker(m)
    ensures Contains(AssetLine(binary), m) <==> Contains(binary, m)
  {
    Framed("Exact release asset: `", binary, "`. For exact-file antivirus allowlisting:", m);
  }

  /** Nothing in the fixed text helps to form a marker: one is in the body exactly when it is in one of the values. */
  lemma BodyContains(d: Data, m: string)
    requires Marker(m)
    ensures Contains(Body(d), m) <==> InData(d, m)
  {
    var lines := BodyLines(d);
    JoinContains(lines, m);
    FixedLinesAreFree(m);
    TagLineContains(d.tag, m);
    AssetLineContains(d.binary, m);
    HashLinesContain(d.hashes, m);
    assert lines[0] == TagLine(d.tag) && lines[2] == AssetLine(d.binary);
    assert forall i :: 0 <= i < |d.hashes| ==> lines[6 + i] == HashLines(d.hashes)[i];
    assert forall i :: 6 <= i < 6 + |d.hashes| ==> lines[i] == HashLines(d.hashes)[i - 6];
  }

  // ----- what the section shows -----

  lemma ContainedAt(x: string, m: string, y: string)
    ensures Contains(x + m + y, m)
  {
    InRight(x, m, m, 0);
    InLeft(x + m, y, m, |x|);
  }

  lemma ContainsItself(s: string)
    ensures Contains(s, s)
  {
    assert At(s, s, 0);
  }

  lemma ContainsWithin(s: string, t: string, m: string)
    requires Contains(s, t) && Contains(t, m)
    ensures Contains(s, m)
  {
    var i :| 0 <= i <= |s| && At(s, t, i);
    assert s == s[..i] + t + s[i + |t|..];
    PartsAreContained(s[..i], t, m);
    PartsAreContained(s[..i] + t, s[i + |t|..], m);
  }

  lemma {:induction false} JoinHolds(lines: seq<string>, i: nat)
    requires i < |lines|
    ensures Contains(Join(lines), lines[i])
  {
    ContainsItself(lines[i]);
    if |lines| == 1 {
    } else if i == 0 {
      PartsAreContained(lines[0], "\n", lines[0]);
      PartsAreContained(lines[0] + "\n", Join(lines[1..]), lines[0]);
    } else {
      JoinHolds(lines[1..], i - 1);
      PartsAreContained(lines[0] + "\n", Join(lines[1..]), lines[i]);
    }
  }

  lemma {:induction false} HashLinesInOrder(hashes: seq<(string, string)>, i: nat)
    requires i < |hashes|
    ensures |HashLines(hashes)| == |hashes| && HashLines(hashes)[i] == HashLine(hashes[i])
  {
    if |hashes| > 1 {
      HashLinesInOrder(hashes[1..], if i == 0 then 0 else i - 1);
    }
  }

  lemma LineIsShown(d: Data, i: nat, m: string)
    requires i < |BodyLines(d)| && Contains(BodyLines(d)[i], m)
    ensures Contains(Section(d), m)
  {
    var lines := [START] + BodyLines(d) + [END];
    assert lines[i + 1] == BodyLines(d)[i];
    JoinHolds(lines, i + 1);
    ContainsWithin(Section(d), lines[i + 1], m);
  }

  lemma ReleaseIsShown(d: Data)
    ensures Contains(Section(d), d.tag)
  {
    ContainedAt("## Windows executable hashes (", d.tag, ")");
    LineIsShown(d, 0, d.tag);
  }

  lemma AssetIsShown(d: Data)
    ensures Contains(Section(d), d.binary)
  {
    ContainedAt("Exact release asset: `", d.binary, "`. For exact-file antivirus allowlisting:");
    LineIsShown(d, 2, d.binary);
  }

  /** The section names the release and the asset, and has a table row for every digest, in order. */
  lemma EveryValueIsShown(d: Data, i: nat)
    requires i < |d.hashes|
    ensures Contains(Section(d), d.tag) && Contains(Section(d), d.binary)
    ensures i + 6 < |BodyLines(d)| && BodyLines(d)[i + 6] == HashLine(d.hashes[i])
    ensures Contains(Section(d), HashLine(d.hashes[i]))
  {
    ReleaseIsShown(d);
    AssetIsShown(d);
    HashLinesInOrder(d.hashes, i);
    ContainsItself(HashLine(d.hashes[i]));
    LineIsShown(d, 6 + i, HashLine(d.hashes[i]));
  }

  // ----- the overwrite law -----

  predicate Clean(d: Data) {
    !InData(d, START) && !InData(d, END)
  }

  lemma SectionLaid(before: string, d: Data, after: string)
    ensures before + "\n\n" + Section(d) + after == Laid(before, START, Body(d), END, after)
  {
    SectionShape(d);
    SectionRegrouped(before, START, Body(d), END, after);
  }

  lemma SectionRegrouped(before: string, m: string, body: string, e: string, after: string)
    ensures before + "\n\n" + (m + "\n" + body + "\n" + e) + after == Laid(before, m, body, e, after)
  {}

  lemma UpdateLays(notes: string, d: Data)
    ensures UpdateNotes(notes, d)
         == match Parts(notes)
            case Some(parts) => Ok(Laid(parts.0, START, Body(d), END, parts.1))
            case None => Malformed
  {
    if Parts(notes).Some? {
      SectionLaid(Parts(notes).value.0, d, Parts(notes).value.1);
    }
  }

  /**
   Rendering over rendered notes is rendering over the notes themselves, as long as the values of the
   first rendering contain no marker; with a marker among them, every later rendering is refused.
   */
  lemma OverwriteLaw(notes: string, a: Data, b: Data)
    requires UpdateNotes(notes, a).Ok?
    ensures UpdateNotes(UpdateNotes(notes, a).notes, b) == if Clean(a) then UpdateNotes(notes, b) else Malformed
  {
    MarkersDiffer(START, END);
    DividedIsFree(notes, START, END);
    BodyContains(a, START);
    BodyContains(a, END);
    UpdateLays(notes, a);
    UpdateLays(notes, b);
    var parts := Parts(notes).value;
    if Clean(a) {
      LaidIsDivided(parts.0, START, Body(a), END, parts.1);
    } else {
      MarkedBodyIsRefused(parts.0, START, Body(a), END, parts.1);
    }
    UpdateLays(UpdateNotes(notes, a).notes, b);
  }

  /** Rendering twice with the same values is rendering once, exactly when no value contains a marker. */
  lemma RenderingIsIdempotent(notes: string, d: Data)
    requires UpdateNotes(notes, d).Ok?
    ensures UpdateNotes(UpdateNotes(notes, d).notes, d) == UpdateNotes(notes, d) <==> Clean(d)
  {
    OverwriteLaw(notes, d, d);
  }

  /** The rendered notes hold exactly one section, and the text around it is the one the notes had. */
  lemma OneSectionIsLeft(notes: string, d: Data)
    requires UpdateNotes(notes, d).Ok? && Clean(d)
    ensures var out := UpdateNotes(notes, d).notes;
            Count(out, START) == 1 == Count(out, END) && Parts(out) == Parts(notes)
  {
    MarkersDiffer(START, END);
    DividedIsFree(notes, START, END);
    BodyContains(d, START);
    BodyContains(d, END);
    UpdateLays(notes, d);
    LaidIsDivided(Parts(notes).value.0, START, Body(d), END, Parts(notes).value.1);
  }

  // ----- which notes are accepted, and what of them is kept -----

  lemma SecondMarkerAhead(before: string, m: string, rest: string, e: string)
    requires Pair(m, e) && Count(before + m + rest, e) == 1 && !Contains(rest, e)
    ensures Find(before + m + rest, e) < |before|
  {
    OtherMarker(m, rest, e);
    var s := before + m + rest;
    CountZero(s, e);
    assert s == before + (m + rest);
    Seam(before, m + rest, e, Find(s, e));
  }

  lemma SecondMarkerBehind(s: string, before: string, m: string, inside: string, e: string, after: string)
    requires Marker(e) && s == before + m + (inside + e + after) && Count(s, e) == 1
    ensures Find(s, e) == |before| + |m| + |inside| && s[Find(s, e) + |e|..] == after
  {
    Regrouped(before, m, inside, e, after);
    OnceLeavesFree(before + (m + inside), e, after);
  }

  lemma DividedInOrder(s: string, m: string, e: string, rest: string)
    requires Pair(m, e) && Count(s, m) == 1 == Count(s, e)
    requires Find(s, m) != -1 && rest == s[Find(s, m) + |m|..] && Contains(rest, e)
    ensures Find(s, m) < Find(s, e)
    ensures Divided(s, m, e) == Some((RStrip(s[..Find(s, m)]), s[Find(s, e) + |e|..]))
  {
    CountZero(rest, e);
    SplitRejoins(s, m);
    SplitRejoins(rest, e);
    var (inside, after) := SplitOnce(rest, e).value;
    SecondMarkerBehind(s, s[..Find(s, m)], m, inside, e, after);
  }

  /** With one marker of each kind, the notes divide exactly when the first one comes first. */
  lemma DividedWhere(s: string, m: string, e: string)
    requires Pair(m, e) && Count(s, m) == 1 == Count(s, e)
    ensures Divided(s, m, e)
         == if Find(s, m) < Find(s, e) then Some((RStrip(s[..Find(s, m)]), s[Find(s, e) + |e|..])) else None
  {
    var rest := s[Find(s, m) + |m|..];
    SplitRejoins(s, m);
    if Contains(rest, e) {
      DividedInOrder(s, m, e, rest);
    } else {
      SecondMarkerAhead(s[..Find(s, m)], m, rest, e);
    }
  }

  lemma DividedExactly(s: string, m: string, e: string)
    requires Pair(m, e)
    ensures Divided(s, m, e) ==
      if Free(s, m, e) then Some((RStrip(s), "\n"))
      else if Count(s, m) == 1 == Count(s, e) && Find(s, m) < Find(s, e) then
        Some((RStrip(s[..Find(s, m)]), s[Find(s, e) + |e|..]))
      else None
  {
    CountZero(s, m);
    CountZero(s, e);
    if Count(s, m) == 1 == Count(s, e) {
      DividedWhere(s, m, e);
    }
  }

  /**
   Notes are accepted when they hold no marker, or one of each with the opening one first. What precedes
   the section is kept up to trailing white space, what follows it is kept as it is.
   */
  lemma AcceptedExactly(notes: string, d: Data)
    ensures UpdateNotes(notes, d) ==
      if Unmarked(notes) then Ok(RStrip(notes) + "\n\n" + Section(d) + "\n")
      else if Count(notes, START) == 1 == Count(notes, END) && Find(notes, START) < Find(notes, END) then
        Ok(RStrip(notes[..Find(notes, START)]) + "\n\n" + Section(d) + notes[Find(notes, END) + |END|..])
      else Malformed
  {
    MarkersDiffer(START, END);
    DividedExactly(notes, START, END);
  }
}

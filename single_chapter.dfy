// GenerateSingleChapterTaskExecutable: one chapter of a writing chain. It has the
// AI write the chapter's summary, creates the chapter (or temporary ids when
// nothing is persisted), has the AI write the content, stores it when it can, and
// submits the next chapter with a context window kept under 16000 characters.
module SingleChapterExecution {
  import opened Wrappers
  import opened JStrings
  import opened NovelModel

  // The window's numbers are written out where they are used: the context is
  // kept under 16000 characters; a forced cut keeps its first 16000 / 3 = 5333
  // and its last 16000 * 2 / 3 = 10666; the last 2 sections are kept whole, so a
  // digest is needed from 2 + 1 = 3 sections on.
  const MarkerOpen: string := "==== 第"
  const MarkerClose: string := "章 ===="
  const OmittedNote: string := "\n...(部分内容省略)...\n"
  const DigestHeading: string := "\n\n==== 前文摘要 ====\n"
  const TruncationNote: string := "\n\n... (内容过长，中间部分已省略) ...\n\n"
  const SummaryLabel: string := "摘要:"
  const ContentLabel: string := "\n\n内容:"
  const TempChapterPrefix: string := "temp-chapter-"
  const TempScenePrefix: string := "temp-scene-"
  const SummaryStage: string := "SUMMARY_GENERATED_AND_CHAPTER_CREATED"
  const ContentStage: string := "CONTENT_GENERATED"
  const NoUserMessage: string := "User ID not available in TaskContext"
  const SummaryFailedPrefix: string := "生成章节摘要或创建章节失败: "
  const ContentFailedPrefix: string := "生成或更新场景内容失败: "
  const SceneNotFoundPrefix: string := "场景不存在: "

  // ------------------------------------------------------------ the sections

  /** "==== 第" + n + "章 ====", the marker each chapter section starts with. */
  function Marker(n: int): string
  {
    "==== 第" + IntToString(n) + "章 ===="
  }

  /** What follows a chapter's marker: its summary and its content. */
  function SectionBody(summary: string, content: string): string
  {
    "\n" + SummaryLabel + "\n" + summary + ContentLabel + "\n" + content
  }

  /** The section a chapter adds to the context. */
  function ChapterSection(chapterIndex: int, summary: string, content: string): string
  {
    "\n\n" + Marker(chapterIndex) + SectionBody(summary, content)
  }

  /** The number of ASCII digits from position i on. */
  function DigitRun(s: string, i: nat): (k: nat)
    requires i <= |s|
    ensures i + k <= |s|
    ensures forall j :: i <= j < i + k ==> IsDigit(s[j])
    ensures i + k < |s| ==> !IsDigit(s[i + k])
    decreases |s| - i
  {
    if i < |s| && IsDigit(s[i]) then 1 + DigitRun(s, i + 1) else 0
  }

  /** The length of the match of open, one or more digits, then close, at the
      start of u, or 0 when u does not start with one. */
  function MatchLen(u: string, open: string, close: string): (k: nat)
    ensures k <= |u|
  {
    if StartsWith(u, open) then
      var d := DigitRun(u, |open|);
      if d > 0 && OccursAt(u, close, |open| + d) then |open| + d + |close| else 0
    else 0
  }

  /** The length of the match of the pattern "==== 第\d+章 ====" at position i,
      or 0 when none starts there. */
  function MarkerLen(s: string, i: nat): (k: nat)
    requires i <= |s|
    ensures i + k <= |s|
  {
    MatchLen(s[i..], MarkerOpen, MarkerClose)
  }

  /** No match of the pattern starts anywhere in s. */
  predicate MarkerFree(s: string)
  {
    forall j :: 0 <= j <= |s| ==> MarkerLen(s, j) == 0
  }

  /** The match lengths at the first n positions of s. */
  function MarksUpTo(s: string, n: nat): (ms: seq<nat>)
    requires n <= |s|
    ensures |ms| == n && forall i :: 0 <= i < n ==> i + ms[i] <= |s|
  {
    if n == 0 then [] else MarksUpTo(s, n - 1) + [MarkerLen(s, n - 1)]
  }

  /** The match lengths at every position of s. */
  function Marks(s: string): (ms: seq<nat>)
    ensures WellMarked(s, ms)
  {
    MarksUpTo(s, |s|)
  }

  lemma {:induction false} MarksUpToAreMatches(s: string, n: nat)
    requires n <= |s|
    ensures forall i :: 0 <= i < n ==> MarksUpTo(s, n)[i] == MarkerLen(s, i)
  {
    if n > 0 {
      MarksUpToAreMatches(s, n - 1);
      assert forall i :: 0 <= i < n - 1 ==> MarksUpTo(s, n)[i] == MarksUpTo(s, n - 1)[i];
    }
  }

  /** Match lengths that stay within s. */
  predicate WellMarked(s: string, ms: seq<nat>)
  {
    |ms| == |s| && forall i :: 0 <= i < |s| ==> i + ms[i] <= |s|
  }

  /** The pieces between the matches ms marks, scanning from position i with the
      current piece starting at start; trailing empty pieces still included. */
  function Pieces(s: string, ms: seq<nat>, start: nat, i: nat): (r: seq<string>)
    requires WellMarked(s, ms) && start <= i <= |s|
    ensures |r| >= 1
    decreases |s| - i
  {
    if i == |s| then [s[start..]]
    else if ms[i] > 0 then [s[start..i]] + Pieces(s, ms, i + ms[i], i + ms[i])
    else Pieces(s, ms, start, i + 1)
  }

  /** String.split("==== 第\\d+章 ===="): the pieces, trailing empty ones removed;
      a non-empty text without a match is its only section. */
  function Sections(s: string): (r: seq<string>)
    ensures r != [] ==> r[|r| - 1] != []
    ensures MarkerFree(s) && s != [] ==> r == [s]
  {
    var ps := Pieces(s, Marks(s), 0, 0);
    if MarkerFree(s) then MarkerFreeOnePiece(s); DropTrailingEmpty(ps) else DropTrailingEmpty(ps)
  }

  /** Without a match the scan yields the whole text. */
  lemma MarkerFreeOnePiece(s: string)
    requires MarkerFree(s)
    ensures Pieces(s, Marks(s), 0, 0) == [s]
  {
    MarksUpToAreMatches(s, |s|);
    ScanWithoutMarker(s, Marks(s), 0, 0);
  }

  /** Scanning where no match starts leaves the rest as one piece. */
  lemma {:induction false} ScanWithoutMarker(s: string, ms: seq<nat>, start: nat, q: nat)
    requires WellMarked(s, ms) && start <= q <= |s|
    requires forall j :: q <= j < |s| ==> ms[j] == 0
    ensures Pieces(s, ms, start, q) == [s[start..]]
    decreases |s| - q
  {
    if q < |s| {
      ScanWithoutMarker(s, ms, start, q + 1);
    }
  }

  /** Scanning up to a match at p, when no earlier match runs past p and no match
      follows it, ends with the piece after that match. */
  lemma {:induction false} ScanToMarker(s: string, ms: seq<nat>, start: nat, i: nat, p: nat)
    requires WellMarked(s, ms) && start <= i <= p < |s| && ms[p] > 0
    requires forall j :: i <= j < p ==> j + ms[j] <= p
    requires forall j :: p + ms[p] <= j < |s| ==> ms[j] == 0
    ensures var ps := Pieces(s, ms, start, i); |ps| >= 2 && ps[|ps| - 1] == s[p + ms[p]..]
    decreases p - i
  {
    var ps := Pieces(s, ms, start, i);
    if i == p {
      ScanWithoutMarker(s, ms, p + ms[p], p + ms[p]);
      assert ps == [s[start..i]] + [s[p + ms[p]..]];
    } else if ms[i] > 0 {
      ScanToMarker(s, ms, i + ms[i], i + ms[i], p);
    } else {
      ScanToMarker(s, ms, start, i + 1, p);
    }
  }

  /** A match of texts without line breaks never runs over a line break. */
  lemma MatchHasNoLineBreak(u: string, j: int, open: string, close: string)
    requires 0 <= j < MatchLen(u, open, close) && '\n' !in open && '\n' !in close
    ensures u[j] != '\n'
  {
    var d := DigitRun(u, |open|);
    if j < |open| {
      assert u[j] == u[..|open|][j] == open[j];
    } else if j >= |open| + d {
      var c := |open| + d;
      assert u[j] == u[c..c + |close|][j - c] == close[j - c];
    }
  }

  lemma MarkerHasNoLineBreak(s: string, i: nat, j: int)
    requires i <= |s| && i <= j < i + MarkerLen(s, i)
    ensures s[j] != '\n'
  {
    assert '\n' !in MarkerOpen && '\n' !in MarkerClose;
    MatchHasNoLineBreak(s[i..], j - i, MarkerOpen, MarkerClose);
    assert s[j] == s[i..][j - i];
  }

  /** A match depends only on the text from its position on. */
  lemma MarkerLenLocal(x: string, t: string, j: nat)
    requires j <= |t|
    ensures MarkerLen(x + t, |x| + j) == MarkerLen(t, j)
  {
    assert (x + t)[|x| + j..] == t[j..];
  }

  lemma {:induction false} DigitRunOfDigits(s: string, i: nat, k: nat)
    requires i + k < |s|
    requires forall j :: i <= j < i + k ==> IsDigit(s[j])
    requires !IsDigit(s[i + k])
    ensures DigitRun(s, i) == k
    decreases k
  {
    if k > 0 {
      DigitRunOfDigits(s, i + 1, k - 1);
    }
  }

  /** A marker with a non-negative number is matched whole at the start. */
  lemma MarkerMatchedAtStart(n: int, body: string)
    requires n >= 0 && body != []
    ensures MarkerLen(Marker(n) + body, 0) == |Marker(n)|
  {
    var t := Marker(n) + body;
    var digits := IntToString(n);
    var c := |MarkerOpen| + |digits|;
    assert t == MarkerOpen + digits + (MarkerClose + body);
    assert t[0..] == t;
    assert t[..|MarkerOpen|] == MarkerOpen;
    forall j | |MarkerOpen| <= j < c
      ensures IsDigit(t[j])
    {
      assert t[j] == digits[j - |MarkerOpen|];
    }
    assert t[c..c + |MarkerClose|] == MarkerClose;
    assert t[c] == MarkerClose[0];
    DigitRunOfDigits(t, |MarkerOpen|, |digits|);
  }

  /** The marker a chapter's section is added with is matched where it stands. */
  lemma SectionMarkerMatched(ctx: string, chapterIndex: int, body: string)
    requires chapterIndex >= 0 && body != []
    ensures MarkerLen(ctx + "\n\n" + (Marker(chapterIndex) + body), |ctx| + 2) == |Marker(chapterIndex)|
  {
    MarkerMatchedAtStart(chapterIndex, body);
    MarkerLenLocal(ctx + "\n\n", Marker(chapterIndex) + body, 0);
  }

  /** No match before a line break at p - 1 runs past p. */
  lemma NoMarkerAcrossLineBreak(s: string, p: nat)
    requires 1 <= p <= |s| && s[p - 1] == '\n'
    ensures forall j :: 0 <= j < p ==> j + MarkerLen(s, j) <= p
  {
    forall j | 0 <= j < p
      ensures j + MarkerLen(s, j) <= p
    {
      if MarkerLen(s, j) > 0 && j + MarkerLen(s, j) > p {
        MarkerHasNoLineBreak(s, j, p - 1);
      }
    }
  }

  /** No match starts inside a marker-free text that ends the string. */
  lemma MarkerFreeTail(x: string, t: string)
    requires MarkerFree(t)
    ensures forall j :: |x| <= j < |x + t| ==> MarkerLen(x + t, j) == 0
  {
    forall j | |x| <= j < |x + t|
      ensures MarkerLen(x + t, j) == 0
    {
      MarkerLenLocal(x, t, j - |x|);
    }
  }

  /** What the scan needs to know of the matches of a string whose last match,
      after a line break, is followed by a marker-free text. */
  lemma MarkFacts(s: string, p: nat, body: string)
    requires 1 <= p < |s| && s[p - 1] == '\n' && MarkerLen(s, p) > 0
    requires s[p + MarkerLen(s, p)..] == body && MarkerFree(body)
    ensures var ms := Marks(s);
      && ms[p] > 0 && s[p + ms[p]..] == body
      && (forall j :: 0 <= j < p ==> j + ms[j] <= p)
      && (forall j :: p + ms[p] <= j < |s| ==> ms[j] == 0)
  {
    MarksUpToAreMatches(s, |s|);
    NoMarkerAcrossLineBreak(s, p);
    var x := s[..p + MarkerLen(s, p)];
    assert s == x + body;
    MarkerFreeTail(x, body);
  }

  /** Splitting ends with the non-empty piece after the last match. */
  lemma SectionsEndAfter(s: string, ms: seq<nat>, p: nat)
    requires ms == Marks(s) && p < |s| && ms[p] > 0 && s[p + ms[p]..] != []
    requires forall j :: 0 <= j < p ==> j + ms[j] <= p
    requires forall j :: p + ms[p] <= j < |s| ==> ms[j] == 0
    ensures |Sections(s)| >= 2 && Sections(s)[|Sections(s)| - 1] == s[p + ms[p]..]
  {
    ScanToMarker(s, ms, 0, 0, p);
    KeepsNonEmptyLast(Pieces(s, ms, 0, 0));
  }

  lemma KeepsNonEmptyLast(ps: seq<string>)
    requires ps != [] && ps[|ps| - 1] != []
    ensures DropTrailingEmpty(ps) == ps
  {
  }

  /** A string whose last match, after a line break, is followed by a non-empty
      marker-free text splits into at least two sections, that text the last. */
  lemma LastSectionAfterMarker(s: string, p: nat, body: string)
    requires 1 <= p < |s| && s[p - 1] == '\n' && MarkerLen(s, p) > 0
    requires s[p + MarkerLen(s, p)..] == body && body != [] && MarkerFree(body)
    ensures |Sections(s)| >= 2 && Sections(s)[|Sections(s)| - 1] == body
  {
    MarkFacts(s, p, body);
    SectionsEndAfter(s, Marks(s), p);
  }

  /** A text ending in a line break, a match m and a marker-free text splits with
      that text last. */
  lemma MatchedTextEndsSections(x: string, m: string, body: string)
    requires x != [] && x[|x| - 1] == '\n' && body != [] && MarkerFree(body)
    requires m != [] && MarkerLen(x + (m + body), |x|) == |m|
    ensures |Sections(x + (m + body))| >= 2 && Sections(x + (m + body))[|Sections(x + (m + body))| - 1] == body
  {
    JoinedParts(x, m, body);
    LastSectionAfterMarker(x + (m + body), |x|, body);
  }

  /** A text followed by a line break, a chapter marker and a marker-free text
      splits with that text last. */
  lemma MarkedTextEndsSections(ctx: string, chapterIndex: int, body: string)
    requires chapterIndex >= 0 && body != [] && MarkerFree(body)
    ensures |Sections(ctx + "\n\n" + (Marker(chapterIndex) + body))| >= 2
    ensures Sections(ctx + "\n\n" + (Marker(chapterIndex) + body))[|Sections(ctx + "\n\n" + (Marker(chapterIndex) + body))| - 1]
            == body
  {
    SectionMarkerMatched(ctx, chapterIndex, body);
    MatchedTextEndsSections(ctx + "\n\n", Marker(chapterIndex), body);
  }

  lemma JoinedParts(x: string, m: string, body: string)
    requires x != []
    ensures (x + (m + body))[|x| - 1] == x[|x| - 1]
    ensures (x + (m + body))[|x| + |m|..] == body
  {
  }

  // -------------------------------------------------------- the window rules

  /** The label the window gives the i-th of n sections: as written, the current
      chapter's position minus n - i (shift 0); the labels the sections were
      added with, minus n - 1 - i (shift 1). */
  function Label(chapterIndex: int, n: int, i: int, shift: int): int
  {
    chapterIndex - (n - i) + shift
  }

  /** The sections from position from on, each after a marker with its label. */
  function Recent(secs: seq<string>, lo: nat, hi: nat, chapterIndex: int, shift: int): string
    requires lo <= hi <= |secs|
    decreases hi
  {
    if lo == hi then []
    else Recent(secs, lo, hi - 1, chapterIndex, shift) + (Marker(Label(chapterIndex, |secs|, hi - 1, shift)) + secs[hi - 1])
  }

  /** One line of the digest of an early section: the summary between "摘要:" and
      "\n\n内容:", or nothing when the section has no content label. The summary is
      taken from four characters past "摘要:", which fails when that lies past the
      content label. */
  function DigestLine(sec: string, chapterLabel: int): (r: Result<string>)
    ensures r.Err? ==> r.error.kind == IndexOutOfBounds
  {
    var e := IndexOf(sec, ContentLabel);
    if e <= 0 then Ok([])
    else
      var st := IndexOf(sec, SummaryLabel) + 4;
      if st > e then Err(Thrown(IndexOutOfBounds, "begin " + IntToString(st) + ", end " + IntToString(e)))
      else Ok("- 第" + IntToString(chapterLabel) + "章: " + Trim(sec[st..e]) + "\n")
  }

  /** The digest lines of the first n sections, each labelled as the window
      labels it. */
  function LinesUpTo(secs: seq<string>, n: nat, chapterIndex: int, shift: int): (lines: seq<Result<string>>)
    requires n <= |secs|
    ensures |lines| == n
    decreases n
  {
    if n == 0 then []
    else LinesUpTo(secs, n - 1, chapterIndex, shift) + [DigestLine(secs[n - 1], Label(chapterIndex, |secs|, n - 1, shift))]
  }

  /** Each section's digest line. */
  function DigestLines(secs: seq<string>, chapterIndex: int, shift: int): (lines: seq<Result<string>>)
    ensures |lines| == |secs|
  {
    LinesUpTo(secs, |secs|, chapterIndex, shift)
  }

  /** The i-th digest line is the i-th section's. */
  lemma {:induction false} LinesUpToAt(secs: seq<string>, n: nat, chapterIndex: int, shift: int, i: nat)
    requires i < n <= |secs|
    ensures LinesUpTo(secs, n, chapterIndex, shift)[i] == DigestLine(secs[i], Label(chapterIndex, |secs|, i, shift))
    decreases n
  {
    if i < n - 1 {
      LinesUpToAt(secs, n - 1, chapterIndex, shift, i);
    }
  }

  /** The digest of lines 1 up to (not including) upTo: their concatenation, or
      the first failure among them. */
  function Digest(lines: seq<Result<string>>, upTo: nat): (r: Result<string>)
    requires 1 <= upTo <= |lines|
    ensures r.Err? ==> exists i :: 1 <= i < upTo && lines[i] == r
    decreases upTo
  {
    if upTo == 1 then Ok([])
    else
      var before := Digest(lines, upTo - 1);
      if before.Err? then before
      else if lines[upTo - 1].Err? then lines[upTo - 1] else Ok(before.value + lines[upTo - 1].value)
  }

  /** Once a line fails, the digest is that failure. */
  lemma {:induction false} DigestErrorSticks(lines: seq<Result<string>>, i: nat, upTo: nat)
    requires 1 <= i <= upTo <= |lines| && Digest(lines, i).Err?
    ensures Digest(lines, upTo) == Digest(lines, i)
    decreases upTo - i
  {
    if i < upTo {
      DigestErrorSticks(lines, i, upTo - 1);
    }
  }

  /** A digest succeeds exactly when each of its lines does, and is then their
      concatenation in order. */
  lemma {:induction false} DigestSucceedsWithItsLines(lines: seq<Result<string>>, upTo: nat)
    requires 1 <= upTo <= |lines|
    ensures Digest(lines, upTo).Ok? <==> forall i :: 1 <= i < upTo ==> lines[i].Ok?
    decreases upTo
  {
    if upTo > 1 {
      DigestSucceedsWithItsLines(lines, upTo - 1);
    }
  }

  /** The forced cut: the first third, the note, then the last two thirds. */
  function ForceTruncate(r: string): (t: string)
    requires |r| > 16000
    ensures |t| == 5333 + |TruncationNote| + 10666
    ensures t[..5333] == r[..5333]
    ensures t[|t| - 10666..] == r[|r| - 10666..]
  {
    var t := r[..5333] + TruncationNote + r[|r| - 10666..];
    assert t[|t| - 10666..] == r[|r| - 10666..];
    t
  }

  /** What ends the text within its last two thirds of the limit survives the cut. */
  lemma TruncationKeepsTail(r: string, tail: string)
    requires |r| > 16000 && EndsWith(r, tail) && |tail| <= 10666
    ensures EndsWith(ForceTruncate(r), tail)
  {
    var t := ForceTruncate(r);
    var k := 10666;
    assert t[|t| - |tail|..] == t[|t| - k..][k - |tail|..];
    assert r[|r| - |tail|..] == r[|r| - k..][k - |tail|..];
  }

  /** The header kept when there are few sections: cut to a third of the limit
      with a note when longer. */
  function Header(h: string): string
  {
    if |h| > 5333 then h[..5333] + OmittedNote else h
  }

  /** The context rebuilt from its sections and their digest lines, before any
      forced cut; no sections at all fail on sections[0]. */
  function Rebuilt(secs: seq<string>, lines: seq<Result<string>>, chapterIndex: int, shift: int): (r: Result<string>)
    requires |lines| == |secs|
    ensures |secs| == 0 ==> r.Err? && r.error.kind == IndexOutOfBounds
    ensures 1 <= |secs| <= 3 ==> r.Ok?
    ensures r.Err? && |secs| > 3 ==> exists i :: 1 <= i < |secs| - 2 && lines[i] == r
    ensures r.Ok? && |secs| > 3 ==> StartsWith(r.value, secs[0] + DigestHeading)
  {
    if |secs| == 0 then Err(Thrown(IndexOutOfBounds, "Index 0 out of bounds for length 0"))
    else if |secs| <= 3 then
      var from := if |secs| - 2 > 1 then |secs| - 2 else 1;
      Ok(Header(secs[0]) + Recent(secs, from, |secs|, chapterIndex, shift))
    else
      var digest := Digest(lines, |secs| - 2);
      if digest.Err? then digest
      else Ok(secs[0] + DigestHeading + digest.value
              + Recent(secs, |secs| - 2, |secs|, chapterIndex, shift))
  }

  /** An over-long context from its sections: rebuilt, then cut by force when a
      digest was needed and the result is still over the limit. */
  function Fitted(secs: seq<string>, lines: seq<Result<string>>, chapterIndex: int, shift: int): (r: Result<string>)
    requires |lines| == |secs|
    ensures r.Err? <==> Rebuilt(secs, lines, chapterIndex, shift).Err?
    ensures |secs| <= 3 ==> r == Rebuilt(secs, lines, chapterIndex, shift)
    ensures r.Ok? && |secs| > 3 ==> |r.value| <= 15999 + |TruncationNote|
  {
    var rebuilt := Rebuilt(secs, lines, chapterIndex, shift);
    if rebuilt.Err? || |secs| <= 3 || |rebuilt.value| <= 16000 then rebuilt
    else Ok(ForceTruncate(rebuilt.value))
  }

  /** The window over the context with the new section appended, labels shifted
      by shift. */
  function WindowOf(full: string, chapterIndex: int, shift: int): Result<string>
  {
    if |full| <= 16000 then Ok(full)
    else
      var secs := Sections(full);
      Fitted(secs, DigestLines(secs, chapterIndex, shift), chapterIndex, shift)
  }

  /** manageContextWindow with the labels shifted by shift. */
  function Window(currentContext: string, chapterIndex: int, summary: string, content: string, shift: int)
    : (r: Result<string>)
    ensures var full := currentContext + ChapterSection(chapterIndex, summary, content);
      |full| <= 16000 ==> r == Ok(full)
    ensures r.Err? ==> |currentContext + ChapterSection(chapterIndex, summary, content)| > 16000
    ensures r.Err? ==> r.error.kind == IndexOutOfBounds
  {
    DigestLinesFailOutOfBounds(Sections(currentContext + ChapterSection(chapterIndex, summary, content)), chapterIndex, shift);
    WindowOf(currentContext + ChapterSection(chapterIndex, summary, content), chapterIndex, shift)
  }

  /** manageContextWindow as written. */
  function WindowAsWritten(currentContext: string, chapterIndex: int, summary: string, content: string)
    : (r: Result<string>)
    ensures |currentContext + ChapterSection(chapterIndex, summary, content)| <= 16000
            ==> r == ContextWindow(currentContext, chapterIndex, summary, content)
    ensures r.Err? <==> ContextWindow(currentContext, chapterIndex, summary, content).Err?
  {
    ShiftKeepsFailure(currentContext, chapterIndex, summary, content);
    Window(currentContext, chapterIndex, summary, content, 0)
  }

  /** A failing digest line fails whatever its label: an index out of bounds. */
  lemma DigestLinesFailOutOfBounds(secs: seq<string>, chapterIndex: int, shift: int)
    ensures forall i :: 0 <= i < |secs| && DigestLines(secs, chapterIndex, shift)[i].Err?
              ==> DigestLines(secs, chapterIndex, shift)[i].error.kind == IndexOutOfBounds
  {
    forall i | 0 <= i < |secs| && DigestLines(secs, chapterIndex, shift)[i].Err?
      ensures DigestLines(secs, chapterIndex, shift)[i].error.kind == IndexOutOfBounds
    {
      LinesUpToAt(secs, |secs|, chapterIndex, shift, i);
    }
  }

  /** The labels never decide whether a digest fails. */
  lemma {:induction false} DigestFailureIgnoresShift(secs: seq<string>, chapterIndex: int, n: nat)
    requires 1 <= n <= |secs|
    ensures Digest(DigestLines(secs, chapterIndex, 0), n).Err?
            <==> Digest(DigestLines(secs, chapterIndex, 1), n).Err?
  {
    var l0 := DigestLines(secs, chapterIndex, 0);
    var l1 := DigestLines(secs, chapterIndex, 1);
    DigestSucceedsWithItsLines(l0, n);
    DigestSucceedsWithItsLines(l1, n);
    forall i | 1 <= i < n
      ensures l0[i].Ok? <==> l1[i].Ok?
    {
      LinesUpToAt(secs, |secs|, chapterIndex, 0, i);
      LinesUpToAt(secs, |secs|, chapterIndex, 1, i);
    }
  }

  /** The window as written fails exactly when the one keeping the labels does. */
  lemma ShiftKeepsFailure(currentContext: string, chapterIndex: int, summary: string, content: string)
    ensures Window(currentContext, chapterIndex, summary, content, 0).Err?
            <==> Window(currentContext, chapterIndex, summary, content, 1).Err?
  {
    var full := currentContext + ChapterSection(chapterIndex, summary, content);
    var secs := Sections(full);
    if |full| > 16000 && |secs| > 3 {
      DigestFailureIgnoresShift(secs, chapterIndex, |secs| - 2);
    }
  }

  /** manageContextWindow with every section keeping the label it was added with. */
  function ContextWindow(currentContext: string, chapterIndex: int, summary: string, content: string)
    : Result<string>
  {
    Window(currentContext, chapterIndex, summary, content, 1)
  }

  /** Within the limit, the context is the old one followed by the new section. */
  lemma WithinLimitKeepsEverything(currentContext: string, chapterIndex: int, summary: string, content: string)
    requires |currentContext + ChapterSection(chapterIndex, summary, content)| <= 16000
    ensures WindowAsWritten(currentContext, chapterIndex, summary, content)
            == Ok(currentContext + ChapterSection(chapterIndex, summary, content))
  {
  }

  /** With at most three sections, a header over a third of the limit is cut to
      that third and the note. */
  lemma LongHeaderCut(secs: seq<string>, lines: seq<Result<string>>, chapterIndex: int, shift: int)
    requires 1 <= |secs| <= 3 && |lines| == |secs| && |secs[0]| > 5333
    ensures var r := Rebuilt(secs, lines, chapterIndex, shift);
      r.Ok? && StartsWith(r.value, secs[0][..5333] + OmittedNote)
  {
    var from := if |secs| - 2 > 1 then |secs| - 2 else 1;
    var h := secs[0][..5333] + OmittedNote;
    var r := h + Recent(secs, from, |secs|, chapterIndex, shift);
    assert r[..|h|] == h;
  }

  lemma EndsWithAppended(a: string, b: string)
    ensures EndsWith(a + b, b)
  {
    assert (a + b)[|a + b| - |b|..] == b;
  }

  lemma EndsWithExtended(head: string, a: string, b: string)
    requires EndsWith(a, b)
    ensures EndsWith(head + a, b)
  {
    assert (head + a)[|head + a| - |b|..] == a[|a| - |b|..];
  }

  /** The last piece of Recent is the last section after its marker, labelled
      chapterIndex - 1 + shift. */
  lemma RecentEndsWithLast(secs: seq<string>, from: nat, chapterIndex: int, shift: int)
    requires from < |secs|
    ensures EndsWith(Recent(secs, from, |secs|, chapterIndex, shift),
                     Marker(chapterIndex - 1 + shift) + secs[|secs| - 1])
  {
    RecentLastPiece(secs, from, chapterIndex, shift);
    EndsWithAppended(Recent(secs, from, |secs| - 1, chapterIndex, shift),
                     Marker(chapterIndex - 1 + shift) + secs[|secs| - 1]);
  }

  /** The last piece of Recent is labelled chapterIndex - 1 + shift. */
  lemma RecentLastPiece(secs: seq<string>, from: nat, chapterIndex: int, shift: int)
    requires from < |secs|
    ensures Recent(secs, from, |secs|, chapterIndex, shift)
            == Recent(secs, from, |secs| - 1, chapterIndex, shift) + (Marker(chapterIndex - 1 + shift) + secs[|secs| - 1])
  {
    assert Label(chapterIndex, |secs|, |secs| - 1, shift) == chapterIndex - 1 + shift;
  }

  /** With two or three sections the context is rebuilt from the header and the
      sections after the first. */
  lemma RebuiltFewSections(secs: seq<string>, lines: seq<Result<string>>, chapterIndex: int, shift: int)
    requires 1 <= |secs| <= 3 && |lines| == |secs|
    ensures var from := if |secs| - 2 > 1 then |secs| - 2 else 1;
      Rebuilt(secs, lines, chapterIndex, shift) == Ok(Header(secs[0]) + Recent(secs, from, |secs|, chapterIndex, shift))
  {
  }

  /** With more than three sections the context is rebuilt from the first section,
      the digest of the others and the last two sections, unless the digest fails. */
  lemma RebuiltManySections(secs: seq<string>, lines: seq<Result<string>>, chapterIndex: int, shift: int)
    requires |secs| > 3 && |lines| == |secs|
    ensures var digest := Digest(lines, |secs| - 2);
      Rebuilt(secs, lines, chapterIndex, shift)
      == if digest.Err? then digest
         else Ok(secs[0] + DigestHeading + digest.value
                 + Recent(secs, |secs| - 2, |secs|, chapterIndex, shift))
  {
  }

  /** Whatever precedes them, the recent sections end the text. */
  lemma RecentEndsText(head: string, secs: seq<string>, from: nat, chapterIndex: int, shift: int)
    requires from < |secs|
    ensures EndsWith(head + Recent(secs, from, |secs|, chapterIndex, shift),
                     Marker(chapterIndex - 1 + shift) + secs[|secs| - 1])
  {
    RecentEndsWithLast(secs, from, chapterIndex, shift);
    EndsWithExtended(head, Recent(secs, from, |secs|, chapterIndex, shift),
                     Marker(chapterIndex - 1 + shift) + secs[|secs| - 1]);
  }

  /** A context rebuilt from two or three sections ends with the last one. */
  lemma FewSectionsEndWithLast(secs: seq<string>, lines: seq<Result<string>>, chapterIndex: int, shift: int)
    requires 2 <= |secs| <= 3 && |lines| == |secs|
    ensures var r := Rebuilt(secs, lines, chapterIndex, shift);
      r.Ok? && EndsWith(r.value, Marker(chapterIndex - 1 + shift) + secs[|secs| - 1])
  {
    var n := |secs|;
    RebuiltFewSections(secs, lines, chapterIndex, shift);
    RecentEndsText(Header(secs[0]), secs, if n - 2 > 1 then n - 2 else 1,
                   chapterIndex, shift);
  }

  /** A context rebuilt from more than three sections ends with the last one. */
  lemma ManySectionsEndWithLast(secs: seq<string>, lines: seq<Result<string>>, chapterIndex: int, shift: int)
    requires |secs| > 3 && |lines| == |secs|
    ensures var r := Rebuilt(secs, lines, chapterIndex, shift);
      r.Ok? ==> EndsWith(r.value, Marker(chapterIndex - 1 + shift) + secs[|secs| - 1])
  {
    var n := |secs|;
    RebuiltManySections(secs, lines, chapterIndex, shift);
    var digest := Digest(lines, n - 2);
    if digest.Ok? {
      RecentEndsText(secs[0] + DigestHeading + digest.value, secs, n - 2, chapterIndex, shift);
    }
  }

  /** A rebuilt context of two sections or more ends with the last section, after
      a marker labelled chapterIndex - 1 + shift. */
  lemma RebuiltEndsWithLast(secs: seq<string>, lines: seq<Result<string>>, chapterIndex: int, shift: int)
    requires |secs| >= 2 && |lines| == |secs|
    ensures var r := Rebuilt(secs, lines, chapterIndex, shift);
      r.Ok? ==> EndsWith(r.value, Marker(chapterIndex - 1 + shift) + secs[|secs| - 1])
  {
    if |secs| <= 3 {
      FewSectionsEndWithLast(secs, lines, chapterIndex, shift);
    } else {
      ManySectionsEndWithLast(secs, lines, chapterIndex, shift);
    }
  }

  /** A fitted context of two sections or more ends with the last section after a
      marker labelled chapterIndex - 1 + shift, as long as that much survives a
      forced cut. */
  lemma FittedEndsWithLast(secs: seq<string>, lines: seq<Result<string>>, chapterIndex: int, shift: int)
    requires |secs| >= 2 && |lines| == |secs|
    requires |Marker(chapterIndex - 1 + shift) + secs[|secs| - 1]| <= 10666
    ensures var r := Fitted(secs, lines, chapterIndex, shift);
      r.Ok? ==> EndsWith(r.value, Marker(chapterIndex - 1 + shift) + secs[|secs| - 1])
  {
    RebuiltEndsWithLast(secs, lines, chapterIndex, shift);
    var rebuilt := Rebuilt(secs, lines, chapterIndex, shift);
    if rebuilt.Ok? && |secs| > 3 && |rebuilt.value| > 16000 {
      TruncationKeepsTail(rebuilt.value, Marker(chapterIndex - 1 + shift) + secs[|secs| - 1]);
    }
  }

  /** Over the limit, a window of two sections or more ends with the last one
      after a marker labelled chapterIndex - 1 + shift, as long as that much
      survives a forced cut. */
  lemma WindowEndsWithLastSection(full: string, chapterIndex: int, shift: int)
    requires |full| > 16000 && |Sections(full)| >= 2
    requires |Marker(chapterIndex - 1 + shift) + Sections(full)[|Sections(full)| - 1]| <= 10666
    ensures var r := WindowOf(full, chapterIndex, shift);
      r.Ok? ==> EndsWith(r.value, Marker(chapterIndex - 1 + shift) + Sections(full)[|Sections(full)| - 1])
  {
    WindowIsFitted(full, chapterIndex, shift);
    FittedEndsWithLast(Sections(full), DigestLines(Sections(full), chapterIndex, shift), chapterIndex, shift);
  }

  /** Over the limit, the window is the fitted context of the sections. */
  lemma WindowIsFitted(full: string, chapterIndex: int, shift: int)
    requires |full| > 16000
    ensures WindowOf(full, chapterIndex, shift)
            == Fitted(Sections(full), DigestLines(Sections(full), chapterIndex, shift), chapterIndex, shift)
  {
  }

  /** The context with a chapter's section appended, split where the section's
      body starts. */
  lemma AppendedSection(ctx: string, chapterIndex: int, summary: string, content: string)
    ensures ctx + ChapterSection(chapterIndex, summary, content)
            == ctx + "\n\n" + (Marker(chapterIndex) + SectionBody(summary, content))
    ensures SectionBody(summary, content) != []
  {
  }

  /** Over the limit, the window ends with the current chapter's body after a
      marker labelled chapterIndex - 1 + shift, as long as that much survives a
      forced cut. */
  lemma WindowEndsWithCurrentChapter(ctx: string, chapterIndex: int, summary: string, content: string, shift: int)
    requires chapterIndex >= 0 && MarkerFree(SectionBody(summary, content))
    requires |ctx + ChapterSection(chapterIndex, summary, content)| > 16000
    requires |Marker(chapterIndex - 1 + shift) + SectionBody(summary, content)| <= 10666
    ensures var r := Window(ctx, chapterIndex, summary, content, shift);
      r.Ok? ==> EndsWith(r.value, Marker(chapterIndex - 1 + shift) + SectionBody(summary, content))
  {
    var full := ctx + ChapterSection(chapterIndex, summary, content);
    var body := SectionBody(summary, content);
    AppendedSection(ctx, chapterIndex, summary, content);
    MarkedTextEndsSections(ctx, chapterIndex, body);
    var secs := Sections(full);
    assert |secs| >= 2 && secs[|secs| - 1] == body;
    WindowEndsWithLastSection(full, chapterIndex, shift);
    assert Window(ctx, chapterIndex, summary, content, shift) == WindowOf(full, chapterIndex, shift);
  }

  /** As written, the chapter just added is relabelled one chapter earlier once
      the window is rebuilt. */
  lemma CurrentChapterRelabelled(ctx: string, chapterIndex: int, summary: string, content: string)
    requires chapterIndex >= 0 && MarkerFree(SectionBody(summary, content))
    requires |ctx + ChapterSection(chapterIndex, summary, content)| > 16000
    requires |Marker(chapterIndex - 1) + SectionBody(summary, content)| <= 10666
    ensures var r := WindowAsWritten(ctx, chapterIndex, summary, content);
      r.Ok? ==> EndsWith(r.value, Marker(chapterIndex - 1) + SectionBody(summary, content))
  {
    WindowEndsWithCurrentChapter(ctx, chapterIndex, summary, content, 0);
  }

  /** With the corrected labels, the chapter just added keeps the label it was
      added with. */
  lemma CurrentChapterKeepsLabel(ctx: string, chapterIndex: int, summary: string, content: string)
    requires chapterIndex >= 0 && MarkerFree(SectionBody(summary, content))
    requires |ctx + ChapterSection(chapterIndex, summary, content)| > 16000
    requires |Marker(chapterIndex) + SectionBody(summary, content)| <= 10666
    ensures var r := ContextWindow(ctx, chapterIndex, summary, content);
      r.Ok? ==> EndsWith(r.value, Marker(chapterIndex) + SectionBody(summary, content))
  {
    WindowEndsWithCurrentChapter(ctx, chapterIndex, summary, content, 1);
  }

  /** manageContextWindow with its StringBuilder loops, labelling the kept sections
      as written, so the chapter just added is relabelled (see
      CurrentChapterRelabelled). */
  method ManageContextWindow(currentContext: string, chapterIndex: int, summary: string, content: string)
    returns (r: Result<string>)
    ensures r == WindowAsWritten(currentContext, chapterIndex, summary, content)
  {
    var fullContext := currentContext + ChapterSection(chapterIndex, summary, content);
    if |fullContext| <= 16000 {
      return Ok(fullContext);
    }
    var sections := Sections(fullContext);
    r := FitContext(sections, chapterIndex);
  }

  /** The over-limit half of manageContextWindow. */
  method FitContext(sections: seq<string>, chapterIndex: int) returns (r: Result<string>)
    ensures r == Fitted(sections, DigestLines(sections, chapterIndex, 0), chapterIndex, 0)
  {
    r := RebuildContext(sections, chapterIndex);
    if r.Ok? && |sections| > 3 && |r.value| > 16000 {
      var result := r.value;
      r := Ok(result[..5333] + TruncationNote + result[|result| - 10666..]);
    }
  }

  /** The rebuilding half of manageContextWindow: the header and the last two
      sections, with a digest of the others when there are more than three. */
  method RebuildContext(sections: seq<string>, chapterIndex: int) returns (r: Result<string>)
    ensures r == Rebuilt(sections, DigestLines(sections, chapterIndex, 0), chapterIndex, 0)
  {
    if |sections| == 0 {
      return Err(Thrown(IndexOutOfBounds, "Index 0 out of bounds for length 0"));
    }
    if |sections| <= 3 {
      r := KeepHeaderAndRecent(sections, chapterIndex);
    } else {
      r := DigestAndKeepRecent(sections, chapterIndex);
    }
  }

  /** Two or three sections: the header, cut to a third of the limit when longer,
      then the sections after it. */
  method KeepHeaderAndRecent(sections: seq<string>, chapterIndex: int) returns (r: Result<string>)
    requires 1 <= |sections| <= 3
    ensures r == Rebuilt(sections, DigestLines(sections, chapterIndex, 0), chapterIndex, 0)
  {
    var header := sections[0];
    if |header| > 5333 {
      header := header[..5333] + OmittedNote;
    }
    assert header == Header(sections[0]);
    var from := if |sections| - 2 > 1 then |sections| - 2 else 1;
    var recent := AppendRecent(sections, from, chapterIndex);
    RebuiltFewSections(sections, DigestLines(sections, chapterIndex, 0), chapterIndex, 0);
    r := Ok(header + recent);
  }

  /** More than three sections: the first, the digest of the early ones, then the
      last two. */
  method DigestAndKeepRecent(sections: seq<string>, chapterIndex: int) returns (r: Result<string>)
    requires |sections| > 3
    ensures r == Rebuilt(sections, DigestLines(sections, chapterIndex, 0), chapterIndex, 0)
  {
    RebuiltManySections(sections, DigestLines(sections, chapterIndex, 0), chapterIndex, 0);
    var digest := AppendDigest(sections, |sections| - 2, chapterIndex);
    if digest.Err? {
      return digest;
    }
    var recent := AppendRecent(sections, |sections| - 2, chapterIndex);
    r := Ok(sections[0] + DigestHeading + digest.value + recent);
  }

  /** One more section after its marker extends the recent sections. */
  lemma RecentStep(secs: seq<string>, lo: nat, i: nat, chapterIndex: int, shift: int)
    requires lo <= i < |secs|
    ensures Recent(secs, lo, i + 1, chapterIndex, shift)
            == Recent(secs, lo, i, chapterIndex, shift) + (Marker(Label(chapterIndex, |secs|, i, shift)) + secs[i])
  {
  }

  /** The loop appending the last sections after their markers. */
  method AppendRecent(sections: seq<string>, from: nat, chapterIndex: int) returns (s: string)
    requires from <= |sections|
    ensures s == Recent(sections, from, |sections|, chapterIndex, 0)
  {
    s := [];
    for i := from to |sections|
      invariant s == Recent(sections, from, i, chapterIndex, 0)
    {
      var chapterLabel := chapterIndex - (|sections| - i);
      assert chapterLabel == Label(chapterIndex, |sections|, i, 0);
      RecentStep(sections, from, i, chapterIndex, 0);
      s := s + (Marker(chapterLabel) + sections[i]);
    }
  }

  /** One more line extends the digest, or ends it with its failure. */
  lemma DigestExtended(lines: seq<Result<string>>, i: nat, s: string)
    requires 1 <= i < |lines| && Digest(lines, i) == Ok(s)
    ensures Digest(lines, i + 1) == if lines[i].Err? then lines[i] else Ok(s + lines[i].value)
  {
  }

  /** The loop digesting the early sections. */
  method AppendDigest(sections: seq<string>, upTo: nat, chapterIndex: int) returns (r: Result<string>)
    requires 1 <= upTo <= |sections|
    ensures r == Digest(DigestLines(sections, chapterIndex, 0), upTo)
  {
    ghost var lines := DigestLines(sections, chapterIndex, 0);
    var s: string := [];
    for i := 1 to upTo
      invariant Digest(lines, i) == Ok(s)
    {
      var line := DigestLine(sections[i], Label(chapterIndex, |sections|, i, 0));
      LinesUpToAt(sections, |sections|, chapterIndex, 0, i);
      DigestExtended(lines, i, s);
      if line.Err? {
        DigestErrorSticks(lines, i + 1, upTo);
        return line;
      }
      s := s + line.value;
    }
    r := Ok(s);
  }

  // -------------------------------------------------------------- the task

  /** GenerateSingleChapterParameters, as far as this task reads them. */
  datatype ChapterParameters = ChapterParameters(novelId: string, chapterIndex: int, totalChapters: int,
                                                 currentContext: string, persistChanges: bool, requiresReview: bool)

  /** The parameters the task sets on the next chapter's task; the builder leaves
      every other property at its default. */
  datatype NextChapterParameters = NextChapterParameters(novelId: string, chapterIndex: int, currentContext: string,
                                                         persistChanges: bool)

  /** CreatedChapterInfo. */
  datatype CreatedChapter = CreatedChapter(chapterId: string, sceneId: string, summary: string)

  /** GenerateSingleChapterResult. */
  datatype ChapterResult = ChapterResult(generatedChapterId: string, generatedInitialSceneId: string,
                                         generatedSummary: string, chapterIndex: int, contentGenerated: bool,
                                         contentPersisted: bool)

  /** What a run submits and returns. */
  datatype ChapterRun = ChapterRun(result: ChapterResult, next: Option<NextChapterParameters>)

  /** The ids a non-persisting run makes up for the chapter and its scene. */
  function TempChapterId(novelId: string, chapterIndex: int, now: int): string
  {
    TempChapterPrefix + novelId + "-" + IntToString(chapterIndex) + "-" + IntToString(now)
  }

  function TempSceneId(chapterId: string): string
  {
    TempScenePrefix + chapterId + "-1"
  }

  /** Content is stored only when the run persists and the chapter id is not a
      temporary one. */
  predicate CanPersist(persistChanges: bool, chapterId: string)
  {
    persistChanges && !StartsWith(chapterId, TempChapterPrefix)
  }

  /** A non-persisting run's chapter is never one whose content is stored. */
  lemma TempChapterNeverPersisted(persistChanges: bool, novelId: string, chapterIndex: int, now: int)
    ensures !CanPersist(persistChanges, TempChapterId(novelId, chapterIndex, now))
  {
    var id := TempChapterId(novelId, chapterIndex, now);
    assert id[..|TempChapterPrefix|] == TempChapterPrefix;
  }

  /** The chapter the summary step ends with: the one the novel service creates
      when persisting, made-up ids otherwise; failures are wrapped. */
  function ChapterOf(params: ChapterParameters, summary: Result<string>, created: Result<CreatedChapter>, now: int)
    : (r: Result<CreatedChapter>)
    ensures summary.Ok? && !params.persistChanges ==>
      r == Ok(CreatedChapter(TempChapterId(params.novelId, params.chapterIndex, now),
                             TempSceneId(TempChapterId(params.novelId, params.chapterIndex, now)), summary.value))
    ensures summary.Ok? && params.persistChanges && created.Ok? ==> r == created
    ensures summary.Ok? && params.persistChanges && created.Err? ==>
      r == Err(Wrapped(SummaryFailedPrefix, created.error))
    ensures summary.Err? ==> r == Err(Wrapped(SummaryFailedPrefix, summary.error))
    ensures r.Err? ==> r.error.kind == Runtime && r.error.message.Some?
                       && StartsWith(r.error.message.value, SummaryFailedPrefix)
  {
    if summary.Err? then Err(Wrapped(SummaryFailedPrefix, summary.error))
    else if params.persistChanges then
      if created.Err? then Err(Wrapped(SummaryFailedPrefix, created.error)) else created
    else
      var chapterId := TempChapterId(params.novelId, params.chapterIndex, now);
      Ok(CreatedChapter(chapterId, TempSceneId(chapterId), summary.value))
  }

  /** new RuntimeException(prefix + e.getMessage(), e). */
  function Wrapped(prefix: string, e: Exception): Exception
  {
    Exception(Runtime, Some(prefix + StringOf(e.message)), Some(e), [])
  }

  /** The streamed content: every chunk but "[DONE]" and "heartbeat", in order. */
  function StreamedContent(chunks: seq<string>): (s: string)
    decreases |chunks|
  {
    if chunks == [] then []
    else
      var c := chunks[|chunks| - 1];
      StreamedContent(chunks[..|chunks| - 1]) + (if c == "[DONE]" || c == "heartbeat" then [] else c)
  }

  /** The collect loop over the stream. */
  method CollectContent(chunks: seq<string>) returns (s: string)
    ensures s == StreamedContent(chunks)
  {
    s := [];
    for i := 0 to |chunks|
      invariant s == StreamedContent(chunks[..i])
    {
      assert chunks[..i + 1][..i] == chunks[..i];
      if chunks[i] != "[DONE]" && chunks[i] != "heartbeat" {
        s := s + chunks[i];
      }
    }
    assert chunks[..|chunks|] == chunks;
  }

  /** execute. The AI's summary, the service's new chapter, the clock, the AI's
      content stream, the content update (whether it stored a scene) and the
      stored scenes are inputs. The progress stages recorded come back beside the
      outcome. */
  method Execute(params: ChapterParameters, userId: Option<string>, summary: Result<string>,
                 created: Result<CreatedChapter>, now: int, chunks: Result<seq<string>>, persisted: Result<bool>,
                 stored: map<string, Scene>)
    returns (stages: seq<string>, r: Result<ChapterRun>)
    ensures userId.None? ==> stages == [] && r == Err(Thrown(IllegalState, NoUserMessage))
    ensures userId.Some? && ChapterOf(params, summary, created, now).Err? ==>
      stages == [] && r == Err(ChapterOf(params, summary, created, now).error)
    ensures userId.Some? && ChapterOf(params, summary, created, now).Ok? && params.requiresReview ==>
      var c := ChapterOf(params, summary, created, now).value;
      stages == [SummaryStage] && r == Ok(ChapterRun(ChapterResult(c.chapterId, c.sceneId, c.summary,
                                                                   params.chapterIndex, false, false), None))
    ensures (userId.Some? && ChapterOf(params, summary, created, now).Ok? && !params.requiresReview
             && chunks.Err?) ==> r == Err(Wrapped(ContentFailedPrefix, chunks.error))
    ensures r.Ok? && !params.requiresReview ==>
      var c := ChapterOf(params, summary, created, now).value;
      && r.value.result.generatedChapterId == c.chapterId && r.value.result.contentGenerated
      && (r.value.result.contentPersisted <==> CanPersist(params.persistChanges, c.chapterId) && persisted == Ok(true))
      && (r.value.next.Some? <==> params.chapterIndex < params.totalChapters)
    ensures r.Ok? && r.value.next.Some? ==>
      var c := ChapterOf(params, summary, created, now).value;
      c.sceneId in stored
      && WindowAsWritten(params.currentContext, params.chapterIndex, c.summary, StringOf(stored[c.sceneId].content)).Ok?
      && r.value.next.value == NextChapterParameters(params.novelId, params.chapterIndex + 1,
           WindowAsWritten(params.currentContext, params.chapterIndex, c.summary, StringOf(stored[c.sceneId].content)).value,
           params.persistChanges)
    ensures (userId.Some? && summary.Ok? && !params.persistChanges && !params.requiresReview && chunks.Ok?
             && params.chapterIndex < params.totalChapters
             && TempSceneId(TempChapterId(params.novelId, params.chapterIndex, now)) !in stored) ==>
      r.Err? && r.error.kind == ResourceNotFound
  {
    stages := [];
    if userId.None? {
      return stages, Err(Thrown(IllegalState, NoUserMessage));
    }
    var chapter := ChapterOf(params, summary, created, now);
    if chapter.Err? {
      return stages, Err(chapter.error);
    }
    var info := chapter.value;
    stages := stages + [SummaryStage];
    if params.requiresReview {
      return stages, Ok(ChapterRun(ChapterResult(info.chapterId, info.sceneId, info.summary, params.chapterIndex,
                                                 false, false), None));
    }
    var canPersist := params.persistChanges && !StartsWith(info.chapterId, TempChapterPrefix);
    if chunks.Err? {
      return stages, Err(Wrapped(ContentFailedPrefix, chunks.error));
    }
    var content := CollectContent(chunks.value);
    var contentWasPersisted := false;
    if canPersist {
      if persisted.Err? {
        return stages, Err(Wrapped(ContentFailedPrefix, persisted.error));
      }
      contentWasPersisted := persisted.value;
    }
    var result := ChapterResult(info.chapterId, info.sceneId, info.summary, params.chapterIndex, true,
                                contentWasPersisted);
    stages := stages + [ContentStage];
    if params.chapterIndex < params.totalChapters {
      if info.sceneId !in stored {
        return stages, Err(Thrown(ResourceNotFound, SceneNotFoundPrefix + info.sceneId));
      }
      var nextContext := ManageContextWindow(params.currentContext, params.chapterIndex, info.summary,
                                             StringOf(stored[info.sceneId].content));
      if nextContext.Err? {
        return stages, Err(nextContext.error);
      }
      var next := NextChapterParameters(params.novelId, params.chapterIndex + 1, nextContext.value,
                                        params.persistChanges);
      return stages, Ok(ChapterRun(result, Some(next)));
    }
    r := Ok(ChapterRun(result, None));
  }
}

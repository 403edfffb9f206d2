// GenerateNextSummariesOnlyTaskExecutable: the parent task that starts the chain
// of single-chapter summary children. It records its starting progress, finds the
// novel's last chapter, builds the context the first child starts from, and
// submits that child.
module NextSummariesExecution {
  import opened Wrappers
  import opened JStrings
  import opened NovelModel
  import opened NextSummariesAggregation

  const NovelNotFoundPrefix: string := "找不到小说: "
  const FirstChapterContext: string := "这是小说的第一章。"
  const LastChapterMode: string := "LAST_CHAPTER"
  const LastThreeMode: string := "LAST_THREE_CHAPTERS"
  const AllChaptersMode: string := "ALL_CHAPTERS"
  const RunningStatus: string := "RUNNING"

  /** GenerateNextSummariesOnlyParameters, as far as the parent reads them. */
  datatype SummariesParameters = SummariesParameters(novelId: string, numberOfChapters: int,
                                                     aiConfigIdSummary: Option<string>, startContextMode: Option<string>)

  /** GenerateSingleSummaryParameters: what each child of the chain is given. */
  datatype SingleSummaryParameters = SingleSummaryParameters(novelId: string, chapterIndex: int, chapterOrder: int,
                                                             aiConfigIdSummary: Option<string>, context: string,
                                                             previousSummary: string)

  /** What a started parent submits and returns. */
  datatype Launch = Launch(first: SingleSummaryParameters, result: SummariesResult)

  // ---------------------------------------------------------- the last chapter

  /** Stream.max by order over the chapters in act order: among chapters of the
      greatest order the first one wins. */
  function LastChapter(cs: seq<Chapter>): (r: Option<Chapter>)
    ensures r.None? <==> cs == []
    ensures r.Some? ==> exists i :: 0 <= i < |cs| && cs[i] == r.value
    ensures r.Some? ==> forall j :: 0 <= j < |cs| ==> cs[j].order <= r.value.order
    decreases |cs|
  {
    if cs == [] then None
    else
      var n := |cs| - 1;
      var m := LastChapter(cs[..n]);
      assert forall j :: 0 <= j < n ==> cs[..n][j] == cs[j];
      if m.None? || cs[n].order > m.value.order then Some(cs[n]) else m
  }

  /** Where the chapter LastChapter finds stands: the first position of the
      greatest order. */
  function GreatestAt(cs: seq<Chapter>): (i: nat)
    requires cs != []
    ensures i < |cs|
    decreases |cs|
  {
    if |cs| == 1 then 0
    else
      var k := GreatestAt(cs[..|cs| - 1]);
      if cs[|cs| - 1].order > cs[k].order then |cs| - 1 else k
  }

  /** The chapter found is the one at GreatestAt, and it comes after no chapter
      of the same order. */
  lemma {:induction false} LastChapterIsFirstOfGreatest(cs: seq<Chapter>)
    requires cs != []
    ensures LastChapter(cs) == Some(cs[GreatestAt(cs)])
    ensures forall j :: 0 <= j < GreatestAt(cs) ==> cs[j].order < cs[GreatestAt(cs)].order
    decreases |cs|
  {
    var n := |cs| - 1;
    if n > 0 {
      var init := cs[..n];
      LastChapterIsFirstOfGreatest(init);
      var k := GreatestAt(init);
      assert init[k] == cs[k];
      assert forall j :: 0 <= j < k ==> init[j] == cs[j];
      if cs[n].order <= cs[k].order {
        assert GreatestAt(cs) == k;
      } else {
        assert GreatestAt(cs) == n;
        assert forall j :: 0 <= j < n ==> init[j].order <= cs[k].order by {
          assert LastChapter(init).value == cs[k];
        }
        assert forall j :: 0 <= j < n ==> init[j] == cs[j];
      }
    }
  }

  /** getLastChapterOrder: the greatest order, or 0 when there is no chapter. */
  function LastChapterOrder(cs: seq<Chapter>): (k: int)
    ensures cs == [] ==> k == 0
    ensures cs != [] ==> (exists i :: 0 <= i < |cs| && cs[i].order == k) && forall j :: 0 <= j < |cs| ==> cs[j].order <= k
  {
    match LastChapter(cs)
    case None => 0
    case Some(c) => c.order
  }

  /** getLastChapterSummary: the description of the last chapter; "" when there is
      no chapter or its description is null. */
  function LastChapterSummary(cs: seq<Chapter>): (s: string)
    ensures cs == [] ==> s == []
    ensures cs != [] && LastChapter(cs).value.description.Some? ==> s == LastChapter(cs).value.description.value
  {
    match LastChapter(cs)
    case None => []
    case Some(c) => if c.description.Some? then c.description.value else []
  }

  // --------------------------------------------------------------- the context

  /** "第%d章 %s: %s" for one chapter, null strings written as "null". */
  function EntryLine(c: Chapter): string
  {
    "第" + IntToString(c.order) + "章 " + StringOf(c.title) + ": " + StringOf(c.description)
  }

  /** The entries of a run of chapters, each followed by a blank line. */
  function Entries(cs: seq<Chapter>): (s: string)
    ensures cs == [] <==> s == []
    decreases |cs|
  {
    if cs == [] then [] else Entries(cs[..|cs| - 1]) + EntryLine(cs[|cs| - 1]) + "\n\n"
  }

  /** The chapters the LAST_THREE_CHAPTERS context is made of: the last three in
      order, or all of them when there are fewer. */
  function LastThree(sorted: seq<Chapter>): (r: seq<Chapter>)
  {
    sorted[(if |sorted| >= 3 then |sorted| - 3 else 0)..]
  }

  /** The context the first child starts from; a null mode fails in the switch,
      and an unknown one is taken as LAST_CHAPTER. */
  function ContextContent(cs: seq<Chapter>, mode: Option<string>): Result<string>
  {
    if mode.None? then Err(Exception(NullPointer, None, None, []))
    else if mode.value == LastThreeMode then Ok(Trim(Entries(LastThree(SortByOrder(cs)))))
    else if mode.value == AllChaptersMode then Ok(Trim(Entries(SortByOrder(cs))))
    else if LastChapter(cs).None? then Ok(FirstChapterContext)
    else Ok(EntryLine(LastChapter(cs).value))
  }

  /** A mode other than the three named is LAST_CHAPTER. */
  lemma UnknownModeIsLastChapter(cs: seq<Chapter>, mode: string)
    requires mode != LastThreeMode && mode != AllChaptersMode
    ensures ContextContent(cs, Some(mode)) == ContextContent(cs, Some(LastChapterMode))
  {
  }

  /** A novel without chapters starts from the first-chapter note in the
      LAST_CHAPTER mode and from "" in the other two. */
  lemma NoChaptersContext(mode: string)
    ensures mode != LastThreeMode && mode != AllChaptersMode ==>
      ContextContent([], Some(mode)) == Ok(FirstChapterContext)
    ensures mode == LastThreeMode || mode == AllChaptersMode ==> ContextContent([], Some(mode)) == Ok([])
  {
    assert Trim([]) == [];
  }

  /** LAST_THREE_CHAPTERS draws on at most three chapters, as many as there are up
      to three, and on no chapter of smaller order than one it leaves out. */
  lemma LastThreeAreLatest(cs: seq<Chapter>)
    ensures |LastThree(SortByOrder(cs))| == (if |cs| >= 3 then 3 else |cs|)
    ensures multiset(LastThree(SortByOrder(cs))) <= multiset(cs)
    ensures forall i, j :: 0 <= i < |cs| - |LastThree(SortByOrder(cs))| && 0 <= j < |LastThree(SortByOrder(cs))| ==>
              SortByOrder(cs)[i].order <= LastThree(SortByOrder(cs))[j].order
  {
    SortByOrderSorted(cs);
    LastThreeOfSorted(SortByOrder(cs));
  }

  /** The same of a sorted run. */
  lemma LastThreeOfSorted(s: seq<Chapter>)
    requires SortedByOrder(s)
    ensures |LastThree(s)| == (if |s| >= 3 then 3 else |s|)
    ensures multiset(LastThree(s)) <= multiset(s)
    ensures forall i, j :: 0 <= i < |s| - |LastThree(s)| && 0 <= j < |LastThree(s)| ==> s[i].order <= LastThree(s)[j].order
  {
    SuffixOfSorted(s, if |s| >= 3 then |s| - 3 else 0);
  }

  /** A suffix of a sorted run is a sub-multiset of it, and no element before the
      suffix is of greater order than one in it. */
  lemma SuffixOfSorted(s: seq<Chapter>, k: int)
    requires SortedByOrder(s) && 0 <= k <= |s|
    ensures multiset(s[k..]) <= multiset(s)
    ensures forall i, j :: 0 <= i < k && 0 <= j < |s| - k ==> s[i].order <= s[k..][j].order
  {
    assert s == s[..k] + s[k..];
    assert multiset(s) == multiset(s[..k]) + multiset(s[k..]);
    forall i, j | 0 <= i < k && 0 <= j < |s| - k
      ensures s[i].order <= s[k..][j].order
    {
      assert s[k..][j] == s[k + j];
    }
  }

  lemma EntriesStep(run: seq<Chapter>, i: int)
    requires 0 <= i < |run|
    ensures Entries(run[..i + 1]) == Entries(run[..i]) + EntryLine(run[i]) + "\n\n"
  {
    assert run[..i + 1][..i] == run[..i];
  }

  /** The StringBuilder loop over the chosen chapters. */
  method AppendEntries(run: seq<Chapter>) returns (s: string)
    ensures s == Entries(run)
  {
    s := [];
    for i := 0 to |run|
      invariant s == Entries(run[..i])
    {
      EntriesStep(run, i);
      s := s + EntryLine(run[i]) + "\n\n";
    }
    assert run[..|run|] == run;
  }

  /** getContextContent. */
  method GetContextContent(cs: seq<Chapter>, mode: Option<string>) returns (r: Result<string>)
    ensures r == ContextContent(cs, mode)
  {
    if mode.None? {
      return Err(Exception(NullPointer, None, None, []));
    }
    if mode.value == LastThreeMode {
      var sorted := SortByOrder(cs);
      var start := if |sorted| - 3 > 0 then |sorted| - 3 else 0;
      var s := AppendEntries(sorted[start..]);
      r := Ok(Trim(s));
    } else if mode.value == AllChaptersMode {
      var sorted := SortByOrder(cs);
      var s := AppendEntries(sorted);
      r := Ok(Trim(s));
    } else {
      var last := LastChapter(cs);
      r := if last.Some? then Ok(EntryLine(last.value)) else Ok(FirstChapterContext);
    }
  }

  // --------------------------------------------------------------- the launch

  /** The parameters of the first child: chapter index 0, the chapter after the
      last one (in int arithmetic, so after IntMax comes IntMin), the chosen
      context and the last chapter's summary. */
  function FirstChild(params: SummariesParameters, cs: seq<Chapter>, context: string): (p: SingleSummaryParameters)
    ensures p.chapterIndex == 0 && p.chapterOrder == Wrap32(LastChapterOrder(cs) + 1)
    ensures p.novelId == params.novelId && p.aiConfigIdSummary == params.aiConfigIdSummary
    ensures p.context == context && p.previousSummary == LastChapterSummary(cs)
  {
    SingleSummaryParameters(params.novelId, 0, Wrap32(LastChapterOrder(cs) + 1), params.aiConfigIdSummary, context,
                            LastChapterSummary(cs))
  }

  /** Below IntMax the first child's order exceeds every chapter's; at IntMax the
      int addition wraps and it is IntMin. */
  lemma FirstChildFollowsLast(params: SummariesParameters, cs: seq<Chapter>, context: string)
    requires IntMin <= LastChapterOrder(cs) <= IntMax
    ensures LastChapterOrder(cs) < IntMax ==>
      forall j :: 0 <= j < |cs| ==> cs[j].order < FirstChild(params, cs, context).chapterOrder
    ensures LastChapterOrder(cs) == IntMax ==> FirstChild(params, cs, context).chapterOrder == IntMin
  {
    if LastChapterOrder(cs) == IntMax {
      assert Wrap32(IntMax + 1) == IntMin;
    }
  }

  /** The progress the parent records before anything else. */
  function InitialProgress(params: SummariesParameters): (p: SummariesProgress)
    ensures p.total == params.numberOfChapters && p.completed == 0 && p.failed == 0 && p.currentIndex == 0
  {
    SummariesProgress(params.numberOfChapters, 0, 0, 0)
  }

  /** execute: the progress is recorded first; then a missing novel, a novel
      without structure or a null mode fails, and otherwise the first child is
      submitted and the parent returns a RUNNING result with nothing generated. */
  method Execute(params: SummariesParameters, novel: Option<Novel>)
    returns (progress: SummariesProgress, r: Result<Launch>)
    ensures progress == InitialProgress(params)
    ensures novel.None? ==> r == Err(Thrown(IllegalArgument, NovelNotFoundPrefix + params.novelId))
    ensures novel.Some? && novel.value.structure.None? ==> r.Err? && r.error.kind == NullPointer
    ensures novel.Some? && novel.value.structure.Some? ==>
      var cs := AllChapters(novel.value.structure.value);
      && (ContextContent(cs, params.startContextMode).Err? ==> r.Err?)
      && (ContextContent(cs, params.startContextMode).Ok? ==>
            r == Ok(Launch(FirstChild(params, cs, ContextContent(cs, params.startContextMode).value),
                           SummariesResult([], 0, RunningStatus, []))))
  {
    progress := InitialProgress(params);
    if novel.None? {
      return progress, Err(Thrown(IllegalArgument, NovelNotFoundPrefix + params.novelId));
    }
    if novel.value.structure.None? {
      return progress, Err(Exception(NullPointer, None, None, []));
    }
    var cs := AllChapters(novel.value.structure.value);
    var context := GetContextContent(cs, params.startContextMode);
    if context.Err? {
      return progress, Err(context.error);
    }
    var first := FirstChild(params, cs, context.value);
    r := Ok(Launch(first, SummariesResult([], 0, RunningStatus, [])));
  }
}

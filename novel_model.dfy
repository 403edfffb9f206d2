// The novel document the task executors and aggregators read: its structure of
// acts, each act's chapters, and the chapters of all acts in reading order.
module NovelModel {
  import opened Wrappers

  /** Novel.Chapter; the strings may be null. */
  datatype Chapter = Chapter(id: string, title: Option<string>, description: Option<string>, order: int,
                             sceneId: Option<string>)

  /** Novel.Act. */
  datatype Act = Act(id: string, title: Option<string>, description: Option<string>, order: int,
                     chapters: seq<Chapter>)

  /** Novel with the parts the tasks read: the author's id (None when the author
      or its id is null) and the acts (None when the structure or its act list is
      null). */
  datatype Novel = Novel(id: string, title: Option<string>, authorId: Option<string>, structure: Option<seq<Act>>)

  /** Scene with the properties the services read and write; times are epoch
      milliseconds. */
  datatype Scene = Scene(id: Option<string>, novelId: Option<string>, chapterId: Option<string>,
                         title: Option<string>, content: Option<string>, summary: Option<string>,
                         sequence: Option<int>, version: int, createdAt: Option<int>, updatedAt: Option<int>)

  /** The chapters of all acts, act by act. */
  function AllChapters(acts: seq<Act>): seq<Chapter>
    decreases |acts|
  {
    if acts == [] then [] else AllChapters(acts[..|acts| - 1]) + acts[|acts| - 1].chapters
  }

  /** Appending one more act appends its chapters. */
  lemma AllChaptersSnoc(acts: seq<Act>, a: Act)
    ensures AllChapters(acts + [a]) == AllChapters(acts) + a.chapters
  {
    assert (acts + [a])[..|acts|] == acts;
  }

  /** Every chapter of an act is among all the chapters. */
  lemma {:induction false} ActChapterInAll(acts: seq<Act>, i: int, j: int)
    requires 0 <= i < |acts| && 0 <= j < |acts[i].chapters|
    ensures acts[i].chapters[j] in AllChapters(acts)
    decreases |acts|
  {
    var n := |acts| - 1;
    if i < n {
      assert acts[..n][i] == acts[i];
      ActChapterInAll(acts[..n], i, j);
    }
  }

  /** The chapters of two runs of acts, one after the other. */
  lemma {:induction false} AllChaptersAppend(a: seq<Act>, b: seq<Act>)
    ensures AllChapters(a + b) == AllChapters(a) + AllChapters(b)
    decreases |b|
  {
    if b != [] {
      var n := |b| - 1;
      AllChaptersAppend(a, b[..n]);
      assert a + b == (a + b[..n]) + [b[n]];
      AllChaptersSnoc(a + b[..n], b[n]);
      assert AllChapters(b) == AllChapters(b[..n]) + b[n].chapters;
    } else {
      assert a + b == a;
    }
  }

  // ------------------------------------------------------- looking up by id

  /** The first chapter with the id, if any. */
  function FirstWithId(cs: seq<Chapter>, id: string): (r: Option<Chapter>)
    ensures r.Some? ==> r.value in cs && r.value.id == id
    ensures r.None? <==> forall i :: 0 <= i < |cs| ==> cs[i].id != id
    decreases |cs|
  {
    if cs == [] then None
    else if cs[0].id == id then Some(cs[0])
    else
      var r := FirstWithId(cs[1..], id);
      assert forall i :: 1 <= i < |cs| ==> cs[i] == cs[1..][i - 1];
      r
  }

  /** A search of a + b finds in a first, and only then in b. */
  lemma {:induction false} FirstWithIdAppend(a: seq<Chapter>, b: seq<Chapter>, id: string)
    ensures FirstWithId(a + b, id) == if FirstWithId(a, id).Some? then FirstWithId(a, id) else FirstWithId(b, id)
    decreases |a|
  {
    if a != [] {
      assert (a + b)[1..] == a[1..] + b;
      FirstWithIdAppend(a[1..], b, id);
    } else {
      assert a + b == b;
    }
  }

  /** The index of the first chapter with the id, or -1. */
  function IndexOfId(cs: seq<Chapter>, id: string): (r: int)
    ensures -1 <= r < |cs|
    ensures r == -1 <==> forall i :: 0 <= i < |cs| ==> cs[i].id != id
    ensures r >= 0 ==> cs[r].id == id && forall i :: 0 <= i < r ==> cs[i].id != id
    decreases |cs|
  {
    if cs == [] then -1
    else if cs[0].id == id then 0
    else
      var r := IndexOfId(cs[1..], id);
      assert forall i :: 1 <= i < |cs| ==> cs[i] == cs[1..][i - 1];
      if r < 0 then -1 else r + 1
  }

  // --------------------------------------------------- sorting by chapter order

  predicate SortedByOrder(cs: seq<Chapter>)
  {
    forall i, j :: 0 <= i < j < |cs| ==> cs[i].order <= cs[j].order
  }

  /** c placed after every chapter of the sorted sequence whose order is not
      greater, so equal orders keep their arrival order. */
  function InsertByOrder(sorted: seq<Chapter>, c: Chapter): (r: seq<Chapter>)
    ensures |r| == |sorted| + 1
    ensures multiset(r) == multiset(sorted) + multiset{c}
    decreases |sorted|
  {
    if sorted == [] then [c]
    else if sorted[|sorted| - 1].order <= c.order then sorted + [c]
    else
      var init := sorted[..|sorted| - 1];
      assert sorted == init + [sorted[|sorted| - 1]];
      InsertByOrder(init, c) + [sorted[|sorted| - 1]]
  }

  /** List.sort with Integer.compare on the order: a stable sort. */
  function SortByOrder(cs: seq<Chapter>): (r: seq<Chapter>)
    ensures multiset(r) == multiset(cs) && |r| == |cs|
    decreases |cs|
  {
    if cs == [] then []
    else
      var init := cs[..|cs| - 1];
      assert cs == init + [cs[|cs| - 1]];
      InsertByOrder(SortByOrder(init), cs[|cs| - 1])
  }

  /** Inserting into a sorted sequence keeps it sorted. */
  lemma {:induction false} InsertKeepsSorted(sorted: seq<Chapter>, c: Chapter)
    requires SortedByOrder(sorted)
    ensures SortedByOrder(InsertByOrder(sorted, c))
    decreases |sorted|
  {
    if sorted != [] && sorted[|sorted| - 1].order > c.order {
      var init := sorted[..|sorted| - 1];
      var last := sorted[|sorted| - 1];
      InsertKeepsSorted(init, c);
      var r := InsertByOrder(init, c);
      assert InsertByOrder(sorted, c) == r + [last];
      forall i | 0 <= i < |r|
        ensures r[i].order <= last.order
      {
        assert r[i] in multiset(init) + multiset{c};
        if r[i] != c {
          var k :| 0 <= k < |init| && init[k] == r[i];
          assert sorted[k] == r[i];
        }
      }
    }
  }

  /** The sort yields the same chapters in non-decreasing order. */
  lemma {:induction false} SortByOrderSorted(cs: seq<Chapter>)
    ensures SortedByOrder(SortByOrder(cs))
    decreases |cs|
  {
    if cs != [] {
      SortByOrderSorted(cs[..|cs| - 1]);
      InsertKeepsSorted(SortByOrder(cs[..|cs| - 1]), cs[|cs| - 1]);
    }
  }

  /** The chapters of one order, in their order in the sequence. */
  function WithOrder(cs: seq<Chapter>, o: int): seq<Chapter>
    decreases |cs|
  {
    if cs == [] then []
    else WithOrder(cs[..|cs| - 1], o) + (if cs[|cs| - 1].order == o then [cs[|cs| - 1]] else [])
  }

  lemma {:induction false} WithOrderAppend(a: seq<Chapter>, b: seq<Chapter>, o: int)
    ensures WithOrder(a + b, o) == WithOrder(a, o) + WithOrder(b, o)
    decreases |b|
  {
    if b != [] {
      var init := b[..|b| - 1];
      assert (a + b)[..|a + b| - 1] == a + init;
      WithOrderAppend(a, init, o);
    } else {
      assert a + b == a;
    }
  }

  lemma WithOrderOne(x: Chapter, o: int)
    ensures WithOrder([x], o) == if x.order == o then [x] else []
  {
    assert [x][..0] == [];
  }

  /** The step of InsertAfterEqualOrders where c goes before the last chapter:
      the two can never share the order o, so their places in WithOrder commute. */
  lemma InsertBeforeLast(sorted: seq<Chapter>, c: Chapter, o: int)
    requires sorted != [] && sorted[|sorted| - 1].order > c.order
    requires WithOrder(InsertByOrder(sorted[..|sorted| - 1], c), o)
             == WithOrder(sorted[..|sorted| - 1], o) + (if c.order == o then [c] else [])
    ensures WithOrder(InsertByOrder(sorted, c), o) == WithOrder(sorted, o) + (if c.order == o then [c] else [])
  {
    var init := sorted[..|sorted| - 1];
    var last := sorted[|sorted| - 1];
    var mine := if c.order == o then [c] else [];
    var its := if last.order == o then [last] else [];
    var front := WithOrder(init, o);
    assert InsertByOrder(sorted, c) == InsertByOrder(init, c) + [last];
    WithOrderAppend(InsertByOrder(init, c), [last], o);
    WithOrderOne(last, o);
    assert WithOrder(InsertByOrder(sorted, c), o) == (front + mine) + its;
    assert WithOrder(sorted, o) == front + its;
    if mine == [] {
      assert front + mine == front && (front + its) + mine == front + its;
    } else {
      assert its == [];
      assert (front + mine) + its == front + mine && front + its == front;
    }
  }

  /** Insertion puts c after the chapters of its own order already there. */
  lemma {:induction false} InsertAfterEqualOrders(sorted: seq<Chapter>, c: Chapter, o: int)
    ensures WithOrder(InsertByOrder(sorted, c), o) == WithOrder(sorted, o) + (if c.order == o then [c] else [])
    decreases |sorted|
  {
    WithOrderOne(c, o);
    if sorted == [] {
      assert InsertByOrder(sorted, c) == [c];
    } else if sorted[|sorted| - 1].order <= c.order {
      assert InsertByOrder(sorted, c) == sorted + [c];
      WithOrderAppend(sorted, [c], o);
    } else {
      InsertAfterEqualOrders(sorted[..|sorted| - 1], c, o);
      InsertBeforeLast(sorted, c, o);
    }
  }

  /** The sort is stable: for every order, its chapters come out in the order
      they went in. */
  lemma {:induction false} SortByOrderStable(cs: seq<Chapter>, o: int)
    ensures WithOrder(SortByOrder(cs), o) == WithOrder(cs, o)
    decreases |cs|
  {
    if cs != [] {
      var init := cs[..|cs| - 1];
      SortByOrderStable(init, o);
      InsertAfterEqualOrders(SortByOrder(init), cs[|cs| - 1], o);
    }
  }
}

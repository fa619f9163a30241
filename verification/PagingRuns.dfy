/** Following the cursors of the paged listing while the index changes: stable entries are returned once, in order, and
    on an index that stays as it is the pages are exact and come to an end. */
module PagingRuns {
  import opened Types
  import opened Decimal
  import opened Keyspace
  import opened RedisInvariant
  import opened RedisAtomicity
  import opened Paging
  import RedisRuns

  // ------------------------------------------------------------------------------------------
  // Traversals.

  /** The moments of successive pages, all of one run. */
  ghost predicate Windows(mss: seq<seq<Keys>>) {
    && (forall i :: 0 <= i < |mss| ==> History(mss[i]))
    && (forall i, j, x, y :: 0 <= i < j < |mss| && 0 <= x < |mss[i]| && 0 <= y < |mss[j]| ==>
          IndexAdvances(mss[i][x], mss[j][y]))
  }

  /** Moments of a run in ascending order, cut into windows. */
  ghost predicate InRunOrder(run: RedisRuns.RRun, times: seq<seq<nat>>) {
    && (forall i, x :: 0 <= i < |times| && 0 <= x < |times[i]| ==> times[i][x] <= |run.ticks|)
    && (forall i, x, y :: 0 <= i < |times| && 0 <= x <= y < |times[i]| ==> times[i][x] <= times[i][y])
    && (forall i, j, x, y :: 0 <= i < j < |times| && 0 <= x < |times[i]| && 0 <= y < |times[j]| ==>
          times[i][x] <= times[j][y])
  }

  ghost function MomentsOf(run: RedisRuns.RRun, times: seq<nat>): (ms: seq<Keys>)
    requires RedisRuns.WellTimed(run) && forall x :: 0 <= x < |times| ==> times[x] <= |run.ticks|
    ensures |ms| == |times| && forall x :: 0 <= x < |times| ==> ms[x] == RedisRuns.KeysAt(run, times[x])
  {
    hide RedisRuns.WellTimed, RedisRuns.KeysAt;
    seq(|times|, x requires 0 <= x < |times| => RedisRuns.KeysAt(run, times[x]))
  }

  /** Whatever requests a run holds, pages read at any of its moments in order satisfy what is assumed below. */
  lemma RunGivesWindows(run: RedisRuns.RRun, times: seq<seq<nat>>, mss: seq<seq<Keys>>)
    requires RedisRuns.WellTimed(run) && InRunOrder(run, times)
    requires |mss| == |times| && forall i :: 0 <= i < |times| ==> mss[i] == MomentsOf(run, times[i])
    ensures Windows(mss)
  {
    hide Reachable, IndexAdvances, RedisRuns.KeysAt, RedisRuns.WellTimed;
    forall i | 0 <= i < |mss|
      ensures History(mss[i])
    {
      RunGivesHistory(run, times[i], mss[i]);
    }
    forall i, j, x, y | 0 <= i < j < |mss| && 0 <= x < |mss[i]| && 0 <= y < |mss[j]|
      ensures IndexAdvances(mss[i][x], mss[j][y])
    {
      RunsAdvanceTheIndex(run, times[i][x], times[j][y]);
    }
  }

  function CursorAt(pages: seq<Page>, i: nat): string
    requires i <= |pages|
  {
    if i == 0 then "" else if pages[i - 1].Page? then pages[i - 1].nextCursor else ""
  }

  function AfterAt(pages: seq<Page>, i: nat): Option<int>
    requires i <= |pages|
  {
    ScoreOf(BoundaryOf(CursorAt(pages, i)))
  }

  /** Pages read so far, each with the cursor of the one before and at moments of its own. */
  ghost predicate Pages(mss: seq<seq<Keys>>, n: string, limit: nat, pages: seq<Page>, shown: seq<seq<Entry>>) {
    && limit > 0 && |pages| == |shown| == |mss|
    && (forall i :: 0 <= i < |mss| ==>
          PageRead(mss[i], n, PlacementActive, AfterAt(pages, i), limit, pages[i], shown[i]))
    && (forall i :: 0 < i < |mss| ==> CursorAt(pages, i) != "")
  }

  /** Cursors followed from the first page to the last. */
  ghost predicate Traversal(mss: seq<seq<Keys>>, n: string, limit: nat, pages: seq<Page>, shown: seq<seq<Entry>>) {
    Pages(mss, n, limit, pages, shown) && pages != [] && CursorAt(pages, |pages|) == ""
  }

  /** The cursor a page hands out stands at the last entry it shows. */
  lemma CursorOfPage(ms: seq<Keys>, n: string, after: Option<int>, limit: nat, page: Page, shown: seq<Entry>)
    requires History(ms) && PageRead(ms, n, PlacementActive, after, limit, page, shown) && page.nextCursor != ""
    ensures |shown| == limit > 0 && CursorOk(page.nextCursor) && BoundaryOf(page.nextCursor) == Some(shown[limit - 1])
  {
    hide History, SeenAs, Keeps, FormatCursor, ParseCursor, CursorOk, BoundaryOf, Complete;
    assert SeenAs(ms, n, PlacementActive, shown[limit - 1], page.placements[limit - 1]);
    CursorStandsAt(ms, n, PlacementActive, shown[limit - 1], page.placements[limit - 1]);
  }

  /** A page of a traversal lies between its own cursor and the next one. */
  lemma PageOfTraversal(mss: seq<seq<Keys>>, n: string, limit: nat, pages: seq<Page>, shown: seq<seq<Entry>>, i: nat)
    requires Windows(mss) && Pages(mss, n, limit, pages, shown) && i < |mss|
    ensures PageRead(mss[i], n, PlacementActive, AfterAt(pages, i), limit, pages[i], shown[i])
    ensures CursorAt(pages, i + 1) != "" <==> AfterAt(pages, i + 1).Some?
    ensures CursorAt(pages, i + 1) == pages[i].nextCursor
    ensures AfterAt(pages, i + 1).Some? ==>
              && shown[i] != [] && CursorOk(CursorAt(pages, i + 1))
              && BoundaryOf(CursorAt(pages, i + 1)) == Some(shown[i][|shown[i]| - 1])
              && AfterAt(pages, i + 1).value == shown[i][|shown[i]| - 1].score
  {
    hide History, IndexAdvances, CursorOk, SeenAs, Complete, ParseCursor, FormatCursor;
    if pages[i].nextCursor != "" {
      CursorOfPage(mss[i], n, AfterAt(pages, i), limit, pages[i], shown[i]);
    }
  }

  /** What a page of a traversal shows: increasing, above its cursor, up to the next one. */
  lemma PageBounds(mss: seq<seq<Keys>>, n: string, limit: nat, pages: seq<Page>, shown: seq<seq<Entry>>, i: nat,
      e: Entry)
    requires Windows(mss) && Pages(mss, n, limit, pages, shown) && i < |mss| && e in shown[i]
    ensures AfterAt(pages, i).Some? ==> e.score > AfterAt(pages, i).value
    ensures AfterAt(pages, i + 1).Some? ==> e.score <= AfterAt(pages, i + 1).value
  {
    hide Windows, Pages, SeenAs, Complete, AfterAt, CursorAt, CursorOk, BoundaryOf, FormatCursor;
    PagesHaveLimit(mss, n, limit, pages, shown);
    PageOfTraversal(mss, n, limit, pages, shown, i);
    var a :| 0 <= a < |shown[i]| && shown[i][a] == e;
  }

  /** A grain that keeps its score between two cursors is on the page between them. */
  lemma PageHolds(mss: seq<seq<Keys>>, n: string, limit: nat, pages: seq<Page>, shown: seq<seq<Entry>>, i: nat,
      e: Entry)
    requires Windows(mss) && Pages(mss, n, limit, pages, shown) && i < |mss| && Keeps(mss[i], n, e)
    requires AfterAt(pages, i).Some? ==> e.score > AfterAt(pages, i).value
    requires AfterAt(pages, i + 1).Some? ==> e.score <= AfterAt(pages, i + 1).value
    ensures e in shown[i]
  {
    hide Windows, Pages, SeenAs, AfterAt, CursorAt, CursorOk, BoundaryOf, FormatCursor, Keeps;
    PageOfTraversal(mss, n, limit, pages, shown, i);
  }

  /** Moments that come after some windows. */
  ghost predicate ComesAfter(mss: seq<seq<Keys>>, at: nat -> Keys) {
    Successive(at) && forall i, x, y: nat :: 0 <= i < |mss| && 0 <= x < |mss[i]| ==> IndexAdvances(mss[i][x], at(y))
  }

  /** Later moments of the same run come after its earlier ones. */
  lemma RunComesAfter(run: RedisRuns.RRun, before: seq<seq<nat>>, mss: seq<seq<Keys>>, times: nat -> nat,
      at: nat -> Keys)
    requires RedisRuns.WellTimed(run) && InRunOrder(run, before)
    requires |mss| == |before| && forall i :: 0 <= i < |before| ==> mss[i] == MomentsOf(run, before[i])
    requires forall x: nat :: times(x) <= |run.ticks| && at(x) == RedisRuns.KeysAt(run, times(x))
    requires forall x: nat, y: nat :: x <= y ==> times(x) <= times(y)
    requires forall i, x :: 0 <= i < |before| && 0 <= x < |before[i]| ==> before[i][x] <= times(0)
    ensures Windows(mss) && ComesAfter(mss, at)
  {
    hide Windows, Successive, IndexAdvances, RedisRuns.KeysAt, RedisRuns.WellTimed;
    RunGivesWindows(run, before, mss);
    RunGivesMoments(run, times, at);
    forall i, x, y: nat | 0 <= i < |mss| && 0 <= x < |mss[i]|
      ensures IndexAdvances(mss[i][x], at(y))
    {
      RunsAdvanceTheIndex(run, before[i][x], times(y));
    }
  }

  /** A cursor keeps its place: while scores are never reused, no other entry can take the score it stands at. */
  lemma CursorsStayGood(mss: seq<seq<Keys>>, n: string, limit: nat, pages: seq<Page>, shown: seq<seq<Entry>>,
      at: nat -> Keys)
    requires Windows(mss) && Pages(mss, n, limit, pages, shown) && ComesAfter(mss, at)
    requires pages != [] ==> CursorAt(pages, |pages|) != ""
    ensures CursorOk(CursorAt(pages, |pages|)) && FitsFrom(at, 0, n, BoundaryOf(CursorAt(pages, |pages|)))
  {
    hide *;
    PagesHaveLimit(mss, n, limit, pages, shown);
    var i := |pages|;
    if i == 0 {
      FirstCursor(pages, at, n);
    } else {
      PageOfTraversal(mss, n, limit, pages, shown, i - 1);
      var last := shown[i - 1][|shown[i - 1]| - 1];
      var x := SeenAt(mss, n, limit, pages, shown, i - 1, |shown[i - 1]| - 1);
      KeptLater(mss, n, i - 1, x, at, last);
    }
  }

  lemma FirstCursor(pages: seq<Page>, at: nat -> Keys, n: string)
    ensures CursorOk(CursorAt(pages, 0)) && BoundaryOf(CursorAt(pages, 0)).None? && FitsFrom(at, 0, n, None)
  {
  }

  /** The moment of an entry's index read. */
  lemma SeenAt(mss: seq<seq<Keys>>, n: string, limit: nat, pages: seq<Page>, shown: seq<seq<Entry>>, i: nat, a: nat)
      returns (x: nat)
    requires Windows(mss) && Pages(mss, n, limit, pages, shown) && i < |mss| && i < |shown| && a < |shown[i]|
    ensures x < |mss[i]| && shown[i][a] in Entries(mss[i][x], n)
  {
    hide Windows, Pages, Complete, AfterAt, CursorAt, CursorOk, BoundaryOf, FormatCursor, Entries;
    PagesHaveLimit(mss, n, limit, pages, shown);
    PageOfTraversal(mss, n, limit, pages, shown, i);
    assert SeenAs(mss[i], n, PlacementActive, shown[i][a], pages[i].placements[a]);
    x :| x < |mss[i]| && shown[i][a] in Entries(mss[i][x], n);
  }

  lemma KeptLater(mss: seq<seq<Keys>>, n: string, i: nat, x: nat, at: nat -> Keys, last: Entry)
    requires Windows(mss) && ComesAfter(mss, at) && i < |mss| && x < |mss[i]| && last in Entries(mss[i][x], n)
    ensures FitsFrom(at, 0, n, Some(last))
  {
    hide IndexAdvances, Reachable, Entries, Listed, Successive;
    ReachableIsPageable(mss[i][x], n);
    forall y: nat, e | e in Entries(at(y), n) && e.score == last.score
      ensures e == last
    {
      ScoreIsKept(mss[i][x], at(y), n, e, last);
    }
  }

  /** A page of active placements, no longer than asked for; with a cursor it is full and the cursor is further on. */
  ghost predicate GoesOn(limit: nat, after: Option<int>, next: Page) {
    && next.Page? && |next.placements| <= limit
    && (forall p :: p in next.placements ==> p.status == PlacementActive)
    && (next.nextCursor != "" ==>
          && |next.placements| == limit && CursorOk(next.nextCursor) && BoundaryOf(next.nextCursor).Some?
          && (after.Some? ==> BoundaryOf(next.nextCursor).value.score > after.value))
  }

  /** So FindByNode always answers the next page, whatever has run since the last one and whatever runs meanwhile. */
  method FollowCursor(at: nat -> Keys, n: string, limit: nat, ghost mss: seq<seq<Keys>>, pages: seq<Page>,
      ghost shown: seq<seq<Entry>>)
    returns (next: Page, ghost found: seq<Entry>, ghost used: nat)
    requires Windows(mss) && Pages(mss, n, limit, pages, shown) && ComesAfter(mss, at)
    requires pages != [] ==> CursorAt(pages, |pages|) != ""
    ensures Windows(mss + [Window(at, used)])
    ensures Pages(mss + [Window(at, used)], n, limit, pages + [next], shown + [found])
    ensures GoesOn(limit, AfterAt(pages, |pages|), next)
  {
    hide GoesOn, Windows, Pages, PageRead, CursorOk, BoundaryOf, Fits, ComesAfter, Successive, CursorAt;
    CursorsStayGood(mss, n, limit, pages, shown, at);
    PagesHaveLimit(mss, n, limit, pages, shown);
    AfterIsScore(pages);
    ComesSuccessive(mss, at);
    ghost var full;
    next, found, used, full := FindByNode(at, n, None, CursorAt(pages, |pages|), limit);
    WindowsGrow(mss, at, used);
    PagesGrow(mss, n, limit, pages, shown, Window(at, used), next, found);
    GoesFurther(mss + [Window(at, used)], n, limit, pages, next, shown + [found]);
  }

  lemma GoesFurther(mss: seq<seq<Keys>>, n: string, limit: nat, pages: seq<Page>, next: Page, shown: seq<seq<Entry>>)
    requires Windows(mss) && Pages(mss, n, limit, pages + [next], shown)
    ensures GoesOn(limit, AfterAt(pages, |pages|), next)
  {
    hide GoesOn, PageRead, CursorAt, AfterAt, History, IndexAdvances;
    EarlierCursors(pages, next, |pages|);
    assert (pages + [next])[|pages|] == next;
    PageGoesOn(mss[|pages|], n, AfterAt(pages, |pages|), limit, next, shown[|pages|]);
  }

  lemma PageGoesOn(ms: seq<Keys>, n: string, after: Option<int>, limit: nat, page: Page, shown: seq<Entry>)
    requires History(ms) && PageRead(ms, n, PlacementActive, after, limit, page, shown)
    ensures GoesOn(limit, after, page)
  {
    hide History, Complete, CursorOk, BoundaryOf, FormatCursor, Entries;
    forall p | p in page.placements ensures p.status == PlacementActive {
      var i :| 0 <= i < |page.placements| && page.placements[i] == p;
      assert SeenAs(ms, n, PlacementActive, shown[i], p);
    }
    if page.nextCursor != "" { CursorOfPage(ms, n, after, limit, page, shown); }
  }

  lemma AfterIsScore(pages: seq<Page>)
    ensures AfterAt(pages, |pages|) == ScoreOf(BoundaryOf(CursorAt(pages, |pages|)))
  {
  }

  lemma ComesSuccessive(mss: seq<seq<Keys>>, at: nat -> Keys)
    requires ComesAfter(mss, at)
    ensures Successive(at)
  {
  }

  lemma WindowsGrow(mss: seq<seq<Keys>>, at: nat -> Keys, used: nat)
    requires Windows(mss) && ComesAfter(mss, at)
    ensures Windows(mss + [Window(at, used)])
  {
    hide History, IndexAdvances;
  }

  lemma PagesGrow(mss: seq<seq<Keys>>, n: string, limit: nat, pages: seq<Page>, shown: seq<seq<Entry>>, ms: seq<Keys>,
      next: Page, found: seq<Entry>)
    requires Pages(mss, n, limit, pages, shown) && (pages != [] ==> CursorAt(pages, |pages|) != "")
    requires PageRead(ms, n, PlacementActive, AfterAt(pages, |pages|), limit, next, found)
    ensures Pages(mss + [ms], n, limit, pages + [next], shown + [found])
  {
    hide PageRead, BoundaryOf, CursorAt, AfterAt;
    forall i: nat | i <= |pages| { EarlierCursors(pages, next, i); }
  }

  lemma EarlierCursors(pages: seq<Page>, next: Page, i: nat)
    requires i <= |pages|
    ensures CursorAt(pages + [next], i) == CursorAt(pages, i) && AfterAt(pages + [next], i) == AfterAt(pages, i)
  {
    hide BoundaryOf;
  }

  /** Following cursors ends however the index grows: each cursor stands at a higher score than the one before, and
      scores stay below the maximum. */
  lemma {:induction false} CursorsEnd(mss: seq<seq<Keys>>, n: string, limit: nat, pages: seq<Page>,
      shown: seq<seq<Entry>>, i: nat)
    requires Windows(mss) && Pages(mss, n, limit, pages, shown) && i < |pages| && CursorAt(pages, i + 1) != ""
    ensures AfterAt(pages, i + 1).Some? && i + 1 <= AfterAt(pages, i + 1).value <= MAX_EXACT_INTEGER
    decreases i
  {
    hide *;
    PagesHaveLimit(mss, n, limit, pages, shown);
    PageOfTraversal(mss, n, limit, pages, shown, i);
    CursorInRange(pages, i + 1);
    var a := |shown[i]| - 1;
    var x := SeenAt(mss, n, limit, pages, shown, i, a);
    ScoresArePositive(mss, i, x, n, shown[i][a]);
    if i > 0 {
      CursorsAreThere(mss, n, limit, pages, shown, i);
      CursorsEnd(mss, n, limit, pages, shown, i - 1);
      PageBounds(mss, n, limit, pages, shown, i, shown[i][a]);
    }
  }

  lemma CursorInRange(pages: seq<Page>, i: nat)
    requires i <= |pages| && CursorOk(CursorAt(pages, i)) && AfterAt(pages, i).Some?
    ensures AfterAt(pages, i).value <= MAX_EXACT_INTEGER
  {
    hide ParseCursor;
  }

  lemma ScoresArePositive(mss: seq<seq<Keys>>, i: nat, x: nat, n: string, e: Entry)
    requires Windows(mss) && i < |mss| && x < |mss[i]| && e in Entries(mss[i][x], n)
    ensures e.score >= 1
  {
    hide IndexAdvances, Reachable, Entries, Listed;
    ReachableIsPageable(mss[i][x], n);
  }

  lemma CursorsAreThere(mss: seq<seq<Keys>>, n: string, limit: nat, pages: seq<Page>, shown: seq<seq<Entry>>, i: nat)
    requires Pages(mss, n, limit, pages, shown) && 0 < i < |pages|
    ensures CursorAt(pages, i) != ""
  {
  }

  lemma PagesHaveLimit(mss: seq<seq<Keys>>, n: string, limit: nat, pages: seq<Page>, shown: seq<seq<Entry>>)
    requires Pages(mss, n, limit, pages, shown)
    ensures limit > 0 && |pages| == |mss| == |shown|
  {
  }

  lemma TraversalHasLimit(mss: seq<seq<Keys>>, n: string, limit: nat, pages: seq<Page>, shown: seq<seq<Entry>>)
    requires Traversal(mss, n, limit, pages, shown)
    ensures Pages(mss, n, limit, pages, shown)
    ensures limit > 0 && |pages| == |mss| == |shown| > 0 && AfterAt(pages, |pages|).None?
  {
  }

  /** The cursor of every page but the first stands above the one before. */
  lemma CursorContinues(mss: seq<seq<Keys>>, n: string, limit: nat, pages: seq<Page>, shown: seq<seq<Entry>>, j: nat)
    requires Windows(mss) && Pages(mss, n, limit, pages, shown) && 0 < j < |mss|
    ensures AfterAt(pages, j).Some?
    ensures AfterAt(pages, j - 1).Some? ==> AfterAt(pages, j - 1).value < AfterAt(pages, j).value
  {
    hide Windows, PageRead, AfterAt, CursorOk, BoundaryOf;
    PageOfTraversal(mss, n, limit, pages, shown, j - 1);
    var last := shown[j - 1][|shown[j - 1]| - 1];
    PageBounds(mss, n, limit, pages, shown, j - 1, last);
  }

  /** Cursor scores go up from page to page. */
  lemma {:induction false} CursorsGoUp(mss: seq<seq<Keys>>, n: string, limit: nat, pages: seq<Page>,
      shown: seq<seq<Entry>>, i: nat, j: nat)
    requires Windows(mss) && Pages(mss, n, limit, pages, shown) && 0 < i <= j < |mss|
    ensures |pages| == |mss| && AfterAt(pages, i).Some? && AfterAt(pages, j).Some?
    ensures AfterAt(pages, i).value <= AfterAt(pages, j).value
    decreases j
  {
    hide *;
    PagesHaveLimit(mss, n, limit, pages, shown);
    CursorContinues(mss, n, limit, pages, shown, j);
    if i < j { CursorsGoUp(mss, n, limit, pages, shown, i, j - 1); }
  }

  /** The whole traversal is in score order, across pages and within them. */
  lemma TraversalIsInOrder(mss: seq<seq<Keys>>, n: string, limit: nat, pages: seq<Page>, shown: seq<seq<Entry>>,
      i: nat, a: nat, j: nat, b: nat)
    requires Windows(mss) && Pages(mss, n, limit, pages, shown) && i < |mss| && j < |mss|
    requires a < |shown[i]| && b < |shown[j]| && (i < j || (i == j && a < b))
    ensures shown[i][a].score < shown[j][b].score
  {
    hide Windows, Pages, SeenAs, Complete, AfterAt, CursorAt, CursorOk, BoundaryOf, FormatCursor;
    PagesHaveLimit(mss, n, limit, pages, shown);
    PageOfTraversal(mss, n, limit, pages, shown, i);
    PageBounds(mss, n, limit, pages, shown, i, shown[i][a]);
    PageBounds(mss, n, limit, pages, shown, j, shown[j][b]);
    if i < j { CursorsGoUp(mss, n, limit, pages, shown, i + 1, j); }
  }

  /** Some page of a traversal is the first to reach a score. */
  lemma {:induction false} PageReaching(mss: seq<seq<Keys>>, n: string, limit: nat, pages: seq<Page>,
      shown: seq<seq<Entry>>, s: int, upTo: nat)
      returns (i: nat)
    requires Windows(mss) && Traversal(mss, n, limit, pages, shown) && upTo < |mss| == |pages|
    requires AfterAt(pages, upTo).Some? ==> AfterAt(pages, upTo).value < s
    ensures upTo <= i < |mss|
    ensures AfterAt(pages, i).Some? ==> AfterAt(pages, i).value < s
    ensures AfterAt(pages, i + 1).Some? ==> s <= AfterAt(pages, i + 1).value
    decreases |mss| - upTo
  {
    hide *;
    i := upTo;
    TraversalHasLimit(mss, n, limit, pages, shown);
    if AfterAt(pages, i + 1).Some? && AfterAt(pages, i + 1).value < s {
      i := PageReaching(mss, n, limit, pages, shown, s, upTo + 1);
    }
  }

  /** A grain's position in a traversal. */
  ghost predicate ShownAs(shown: seq<seq<Entry>>, key: string, i: nat, a: nat) {
    i < |shown| && a < |shown[i]| && shown[i][a].key == key
  }

  /** A grain that keeps its score at every moment of a traversal. */
  ghost predicate KeepsThroughout(mss: seq<seq<Keys>>, n: string, e: Entry) {
    forall i :: 0 <= i < |mss| ==> Keeps(mss[i], n, e)
  }

  lemma ShownOnce(mss: seq<seq<Keys>>, n: string, limit: nat, pages: seq<Page>, shown: seq<seq<Entry>>, e: Entry,
      i: nat, a: nat)
    requires Windows(mss) && Traversal(mss, n, limit, pages, shown) && KeepsThroughout(mss, n, e)
    requires ShownAs(shown, e.key, i, a)
    ensures i < |mss| && shown[i][a] == e
  {
    hide Windows, Traversal, Entries, Score;
    TraversalHasLimit(mss, n, limit, pages, shown);
    var x := SeenAt(mss, n, limit, pages, shown, i, a);
    assert Keeps(mss[i], n, e);
    OneScoreEach(mss[i][x], n, e, shown[i][a]);
  }

  lemma OneScoreEach(k: Keys, n: string, a: Entry, b: Entry)
    requires a in Entries(k, n) && b in Entries(k, n) && a.key == b.key
    ensures a == b
  {
    hide Entries, Score;
  }

  /** Stable paging: whatever requests run between any two reads, a grain that keeps its index score throughout is
      returned on exactly one page, exactly once, with a record that was stored for it. */
  lemma StablePaging(mss: seq<seq<Keys>>, n: string, limit: nat, pages: seq<Page>, shown: seq<seq<Entry>>, e: Entry)
    requires Windows(mss) && Traversal(mss, n, limit, pages, shown) && KeepsThroughout(mss, n, e)
    ensures exists i: nat, a: nat :: ShownAs(shown, e.key, i, a) && Returned(mss, n, pages, e, i, a)
    ensures forall i: nat, a: nat, j: nat, b: nat :: ShownAs(shown, e.key, i, a) && ShownAs(shown, e.key, j, b) ==>
              i == j && a == b
  {
    hide Windows, Traversal, PageRead, AfterAt, CursorAt, CursorOk, BoundaryOf, Keeps;
    TraversalHasLimit(mss, n, limit, pages, shown);
    FirstAfter(pages);
    var i := PageReaching(mss, n, limit, pages, shown, e.score, 0);
    PageHolds(mss, n, limit, pages, shown, i, e);
    var a :| 0 <= a < |shown[i]| && shown[i][a] == e;
    IsReturned(mss, n, limit, pages, shown, e, i, a);
    assert ShownAs(shown, e.key, i, a) && Returned(mss, n, pages, e, i, a);
    forall i: nat, a: nat, j: nat, b: nat | ShownAs(shown, e.key, i, a) && ShownAs(shown, e.key, j, b)
      ensures i == j && a == b
    {
      ShownOnce(mss, n, limit, pages, shown, e, i, a);
      ShownOnce(mss, n, limit, pages, shown, e, j, b);
      if i < j || (i == j && a < b) { TraversalIsInOrder(mss, n, limit, pages, shown, i, a, j, b); }
      if j < i || (i == j && b < a) { TraversalIsInOrder(mss, n, limit, pages, shown, j, b, i, a); }
    }
  }

  lemma FirstAfter(pages: seq<Page>)
    ensures AfterAt(pages, 0).None?
  {
  }

  /** The page holds an active record of the grain at this place. */
  ghost predicate Returned(mss: seq<seq<Keys>>, n: string, pages: seq<Page>, e: Entry, i: nat, a: nat) {
    && i < |pages| && i < |mss| && pages[i].Page? && a < |pages[i].placements|
    && SeenAs(mss[i], n, PlacementActive, e, pages[i].placements[a])
  }

  lemma IsReturned(mss: seq<seq<Keys>>, n: string, limit: nat, pages: seq<Page>, shown: seq<seq<Entry>>, e: Entry,
      i: nat, a: nat)
    requires Windows(mss) && Traversal(mss, n, limit, pages, shown) && i < |mss| && a < |shown[i]| && shown[i][a] == e
    ensures Returned(mss, n, pages, e, i, a)
  {
    hide Windows, SeenAs, Complete, AfterAt, CursorAt, CursorOk, BoundaryOf, FormatCursor;
  }

  // ------------------------------------------------------------------------------------------
  // An index that stays as it is.

  /** The page beyond a score: the first entries with their records, and a cursor at the last of them if more remain. */
  ghost predicate IsPageBeyond(k: Keys, n: string, after: Option<int>, limit: nat, page: Page, shown: seq<Entry>) {
    var rest := Remaining(k, n, after);
    && limit > 0
    && shown == (if |rest| > limit then rest[..limit] else rest)
    && page.Page? && |page.placements| == |shown|
    && (forall i :: 0 <= i < |shown| ==> Load(k.placement, shown[i].key) == Loaded(page.placements[i]))
    && page.nextCursor == if |rest| > limit then FormatCursor(Cursor(rest[limit - 1].score, rest[limit - 1].key))
          else ""
  }

  /** The same keyspace at each of some moments. */
  function Unchanged(k: Keys, m: nat): (ms: seq<Keys>)
    ensures |ms| == m && forall x :: 0 <= x < m ==> ms[x] == k
  {
    seq(m, _ => k)
  }

  lemma UnchangedIsHistory(k: Keys, m: nat)
    requires Reachable(k)
    ensures History(Unchanged(k, m))
  {
    hide Reachable, IndexAdvances;
    SameIndexAdvances(k, k);
  }

  /** A strictly increasing list with the members of another up to a score is its beginning. */
  lemma {:induction false} IncreasingPrefix(a: seq<Entry>, b: seq<Entry>)
    requires Increasing(a) && Increasing(b) && forall e :: e in a ==> e in b
    requires forall e, f :: e in b && f in a && e.score <= f.score ==> e in a
    ensures a <= b
    decreases |a|
  {
    if a != [] {
      HeadsAgree(a, b);
      TailsAgree(a, b);
      hide Increasing;
      IncreasingPrefix(a[1..], b[1..]);
      assert a == [a[0]] + a[1..] && b == [b[0]] + b[1..];
    }
  }

  lemma HeadsAgree(a: seq<Entry>, b: seq<Entry>)
    requires a != [] && Increasing(a) && Increasing(b) && forall e :: e in a ==> e in b
    requires forall e, f :: e in b && f in a && e.score <= f.score ==> e in a
    ensures b != [] && a[0] == b[0]
  {
    assert a[0] in a && a[0] in b;
    FirstIsLeast(a, a[0]);
    FirstIsLeast(b, a[0]);
    assert b[0] in b && b[0] in a;
    FirstIsLeast(a, b[0]);
    SameScoreSame(b, a[0], b[0]);
  }

  lemma FirstIsLeast(a: seq<Entry>, e: Entry)
    requires Increasing(a) && e in a
    ensures a[0].score <= e.score
  {
    var i :| 0 <= i < |a| && a[i] == e;
  }

  lemma SameScoreSame(a: seq<Entry>, e: Entry, f: Entry)
    requires Increasing(a) && e in a && f in a && e.score == f.score
    ensures e == f
  {
    var i :| 0 <= i < |a| && a[i] == e;
    var j :| 0 <= j < |a| && a[j] == f;
  }

  lemma TailsAgree(a: seq<Entry>, b: seq<Entry>)
    requires a != [] && b != [] && a[0] == b[0] && Increasing(a) && Increasing(b) && forall e :: e in a ==> e in b
    requires forall e, f :: e in b && f in a && e.score <= f.score ==> e in a
    ensures Increasing(a[1..]) && Increasing(b[1..]) && forall e :: e in a[1..] ==> e in b[1..]
    ensures forall e, f :: e in b[1..] && f in a[1..] && e.score <= f.score ==> e in a[1..]
  {
    TailMembers(a);
    TailMembers(b);
  }

  lemma TailMembers(a: seq<Entry>)
    requires a != [] && Increasing(a)
    ensures Increasing(a[1..]) && forall e :: e in a[1..] <==> e in a && e.score > a[0].score
  {
    forall e | e in a && e.score > a[0].score
      ensures e in a[1..]
    {
      var i :| 0 <= i < |a| && a[i] == e;
      assert a[1..][i - 1] == e;
    }
  }

  /** On an unchanged index a page is exactly the page beyond its cursor. */
  lemma QuietPageIsExact(k: Keys, m: nat, n: string, after: Option<int>, limit: nat, page: Page, shown: seq<Entry>)
    requires Reachable(k) && m > 0 && limit > 0
    requires PageRead(Unchanged(k, m), n, PlacementActive, after, limit, page, shown)
    ensures IsPageBeyond(k, n, after, limit, page, shown)
  {
    hide Reachable, Entries, FormatCursor, Remaining, Increasing, Complete, SeenAs;
    var rest := Remaining(k, n, after);
    RemainingIsTheRest(k, n, after);
    QuietMembers(k, m, n, after, limit, page, shown);
    IncreasingPrefix(shown, rest);
    QuietRecords(k, m, n, after, limit, page, shown);
    if page.nextCursor == "" {
      AllOfIt(shown, rest);
    } else {
      MoreRemain(k, m, n, after, limit, page, shown);
    }
  }

  lemma AllOfIt(a: seq<Entry>, b: seq<Entry>)
    requires Increasing(a) && Increasing(b) && forall e :: e in a <==> e in b
    ensures a == b
  {
    IncreasingPrefix(a, b);
    IncreasingPrefix(b, a);
  }

  /** On an unchanged index what a page shows are the remaining entries up to its end. */
  lemma QuietMembers(k: Keys, m: nat, n: string, after: Option<int>, limit: nat, page: Page, shown: seq<Entry>)
    requires Reachable(k) && m > 0 && PageRead(Unchanged(k, m), n, PlacementActive, after, limit, page, shown)
    ensures Increasing(shown)
    ensures forall e :: e in shown ==> e in Remaining(k, n, after)
    ensures forall e, f :: e in Remaining(k, n, after) && f in shown && e.score <= f.score ==> e in shown
    ensures page.nextCursor == "" ==> forall e :: e in Remaining(k, n, after) ==> e in shown
  {
    hide Reachable, Entries, FormatCursor, Remaining, Increasing;
    RemainingIsTheRest(k, n, after);
    forall e | e in shown
      ensures e in Entries(k, n)
      ensures page.nextCursor != "" ==> e.score <= shown[limit - 1].score
    {
      var i :| 0 <= i < |shown| && shown[i] == e;
      assert SeenAs(Unchanged(k, m), n, PlacementActive, shown[i], page.placements[i]);
      LastIsHighest(shown, e);
    }
    forall e | e in Entries(k, n)
      ensures Keeps(Unchanged(k, m), n, e)
    {
    }
  }

  lemma LastIsHighest(es: seq<Entry>, e: Entry)
    requires Increasing(es) && e in es
    ensures e.score <= es[|es| - 1].score
  {
    var i :| 0 <= i < |es| && es[i] == e;
  }

  /** A page with a cursor leaves entries to be read. */
  lemma MoreRemain(k: Keys, m: nat, n: string, after: Option<int>, limit: nat, page: Page, shown: seq<Entry>)
    requires Reachable(k) && m > 0 && PageRead(Unchanged(k, m), n, PlacementActive, after, limit, page, shown)
    requires page.nextCursor != "" && shown <= Remaining(k, n, after)
    ensures |shown| == limit && |Remaining(k, n, after)| > limit
  {
    hide Reachable, Entries, FormatCursor, Remaining, Complete, Increasing;
    RemainingIsTheRest(k, n, after);
    var last := shown[limit - 1];
    assert last in shown;
    var e: Entry, p: Placement :| e.score > last.score && SeenAs(Unchanged(k, m), n, PlacementActive, e, p);
    HigherMeansMore(Remaining(k, n, after), shown, e);
  }

  lemma HigherMeansMore(rest: seq<Entry>, shown: seq<Entry>, e: Entry)
    requires Increasing(rest) && shown <= rest && shown != [] && e in rest && e.score > shown[|shown| - 1].score
    ensures |rest| > |shown|
  {
    var i :| 0 <= i < |rest| && rest[i] == e;
    assert rest[|shown| - 1] == shown[|shown| - 1];
  }

  lemma QuietRecords(k: Keys, m: nat, n: string, after: Option<int>, limit: nat, page: Page, shown: seq<Entry>)
    requires PageRead(Unchanged(k, m), n, PlacementActive, after, limit, page, shown)
    ensures page.Page? && |page.placements| == |shown|
    ensures forall i :: 0 <= i < |shown| ==> Load(k.placement, shown[i].key) == Loaded(page.placements[i])
  {
    hide Entries, Complete, FormatCursor;
    forall i | 0 <= i < |shown|
      ensures Load(k.placement, shown[i].key) == Loaded(page.placements[i])
    {
      assert SeenAs(Unchanged(k, m), n, PlacementActive, shown[i], page.placements[i]);
    }
  }

  /** Pages read one after the other on an unchanged index, each with the cursor of the one before. */
  ghost predicate QuietPages(k: Keys, n: string, limit: nat, counts: seq<nat>, pages: seq<Page>,
      shown: seq<seq<Entry>>) {
    && limit > 0 && |counts| == |pages| == |shown|
    && (forall i :: 0 <= i < |pages| ==> counts[i] > 0)
    && (forall i :: 0 <= i < |pages| ==>
          PageRead(Unchanged(k, counts[i]), n, PlacementActive, AfterAt(pages, i), limit, pages[i], shown[i]))
    && (forall i :: 0 < i < |pages| ==> CursorAt(pages, i) != "")
  }

  /** Where a page of a quiet traversal starts. */
  function Offset(i: nat, limit: nat): nat {
    i * limit
  }

  lemma OffsetsGoOn(i: nat, limit: nat)
    ensures Offset(0, limit) == 0 && Offset(i + 1, limit) == Offset(i, limit) + limit
  {
  }

  /** The entries from one position up to another, as far as there are so many. */
  function Piece(es: seq<Entry>, lo: nat, hi: nat): seq<Entry>
    requires lo <= |es| && lo <= hi
  {
    es[lo..Min(hi, |es|)]
  }

  /** On an unchanged index the pages are the index cut into pieces of the page size, and there is a next cursor exactly
      while entries are left: so every entry is returned once, and following cursors ends. */
  lemma {:induction false} QuietPagesPartition(k: Keys, n: string, limit: nat, counts: seq<nat>, pages: seq<Page>,
      shown: seq<seq<Entry>>, i: nat)
    requires Reachable(k) && QuietPages(k, n, limit, counts, pages, shown) && i < |pages|
    ensures |shown| == |pages| && Offset(i, limit) <= |Entries(k, n)| && Offset(i, limit) <= Offset(i + 1, limit)
    ensures shown[i] == Piece(Entries(k, n), Offset(i, limit), Offset(i + 1, limit))
    ensures CursorAt(pages, i + 1) != "" <==> Offset(i + 1, limit) < |Entries(k, n)|
    ensures CursorAt(pages, i + 1) != "" ==> PositionAfter(Entries(k, n), AfterAt(pages, i + 1)) == Offset(i + 1, limit)
    decreases i
  {
    hide *;
    QuietPageAt(k, n, limit, counts, pages, shown, i);
    OffsetsGoOn(i, limit);
    FirstPosition(Entries(k, n), pages);
    if i > 0 { QuietPagesPartition(k, n, limit, counts, pages, shown, i - 1); }
    OnePiece(k, n, Offset(i, limit), AfterAt(pages, i), limit, pages[i], shown[i]);
  }

  lemma FirstPosition(es: seq<Entry>, pages: seq<Page>)
    ensures PositionAfter(es, AfterAt(pages, 0)) == 0
  {
  }

  lemma QuietPageAt(k: Keys, n: string, limit: nat, counts: seq<nat>, pages: seq<Page>, shown: seq<seq<Entry>>, i: nat)
    requires Reachable(k) && QuietPages(k, n, limit, counts, pages, shown) && i < |pages|
    ensures limit > 0 && |shown| == |pages| && (i > 0 ==> CursorAt(pages, i) != "")
    ensures IsPageBeyond(k, n, AfterAt(pages, i), limit, pages[i], shown[i])
    ensures CursorAt(pages, i + 1) == pages[i].nextCursor
    ensures pages[i].nextCursor != "" ==>
              shown[i] != [] && AfterAt(pages, i + 1) == Some(shown[i][|shown[i]| - 1].score)
  {
    hide Reachable, PageRead, IsPageBeyond, BoundaryOf, Entries;
    QuietPageIsExact(k, counts[i], n, AfterAt(pages, i), limit, pages[i], shown[i]);
    UnchangedIsHistory(k, counts[i]);
    IsAPage(k, n, AfterAt(pages, i), limit, pages[i], shown[i]);
    if pages[i].nextCursor != "" {
      CursorOfPage(Unchanged(k, counts[i]), n, AfterAt(pages, i), limit, pages[i], shown[i]);
    }
  }

  lemma IsAPage(k: Keys, n: string, after: Option<int>, limit: nat, page: Page, shown: seq<Entry>)
    requires IsPageBeyond(k, n, after, limit, page, shown)
    ensures page.Page?
  {
  }

  /** A page beyond a position shows the next entries and leaves its cursor at the position after them. */
  lemma OnePiece(k: Keys, n: string, lo: nat, after: Option<int>, limit: nat, page: Page, shown: seq<Entry>)
    requires Reachable(k) && limit > 0 && IsPageBeyond(k, n, after, limit, page, shown)
    requires PositionAfter(Entries(k, n), after) == lo
    ensures lo <= |Entries(k, n)| && shown == Piece(Entries(k, n), lo, lo + limit) && page.Page?
    ensures page.nextCursor != "" <==> lo + limit < |Entries(k, n)|
    ensures page.nextCursor != "" ==>
              shown != [] && PositionAfter(Entries(k, n), Some(shown[|shown| - 1].score)) == lo + limit
  {
    hide Reachable, Entries, Listed, FormatCursor, PositionAfter, Increasing;
    ReachableIsPageable(k, n);
    FormattedIsNotEmpty();
    var es := Entries(k, n);
    PartFacts(es, lo, limit);
    if |es[lo..]| > limit { PositionAfterEntry(es, lo + limit - 1); }
  }

  lemma PartFacts(es: seq<Entry>, lo: nat, limit: nat)
    requires lo <= |es| && limit > 0
    ensures var rest := es[lo..];
            && |rest| == |es| - lo
            && Piece(es, lo, lo + limit) == (if |rest| > limit then rest[..limit] else rest)
            && (|rest| > limit ==> rest[limit - 1] == es[lo + limit - 1])
  {
  }

  lemma FormattedIsNotEmpty()
    ensures forall c :: FormatCursor(c) != ""
  {
    forall c ensures FormatCursor(c) != "" { CursorIsNotEmpty(c); }
  }


}

/** The paged listing of a node's placements in Redis: a scan of the node's index in score order, in batches that start
    again at the last score. Every index read and every record read has a moment of its own, and other clients' requests
    may run between any two of them. */
module Paging {
  import opened Types
  import opened Ordering
  import opened Decimal
  import opened Keyspace
  import opened RedisInvariant
  import opened NodeRefinement
  import opened PlacementRefinement
  import opened RedisAtomicity
  import RedisRuns

  datatype Entry = Entry(key: string, score: int)

  datatype Page = Page(placements: seq<Placement>, nextCursor: string) | BadPage

  /** Sorted-set order: by score, then by member. */
  predicate IndexLess(z: map<string, int>, a: string, b: string) {
    var x, y := if a in z then z[a] else 0, if b in z then z[b] else 0;
    x < y || (x == y && StringLess(a, b))
  }

  lemma IndexLessTotal(z: map<string, int>)
    ensures StrictTotal((a, b) => IndexLess(z, a, b))
  {
    StringLessTotal();
    hide StringLess;
  }

  function IndexAt(k: Keys, n: string): map<string, int> {
    if n in k.index && k.index[n].Holds? then k.index[n].value else map[]
  }

  predicate Ascending(es: seq<Entry>) {
    forall i, j :: 0 <= i < j < |es| ==> es[i].score <= es[j].score
  }

  predicate Increasing(es: seq<Entry>) {
    forall i, j :: 0 <= i < j < |es| ==> es[i].score < es[j].score
  }

  /** The whole index of a node in order. */
  function Entries(k: Keys, n: string): (es: seq<Entry>)
    ensures Ascending(es)
    ensures forall e :: e in es <==> Score(k.index, n, e.key) == Some(e.score)
  {
    var z := IndexAt(k, n);
    IndexLessTotal(z);
    var ids := Sorted(z.Keys, (a, b) => IndexLess(z, a, b));
    assert forall i :: 0 <= i < |ids| ==> ids[i] in ids;
    var es := seq(|ids|, i requires 0 <= i < |ids| => Entry(ids[i], z[ids[i]]));
    EntriesMatch(z, ids, es);
    EntriesAscend(z, ids, es);
    es
  }

  lemma EntriesAscend(z: map<string, int>, ids: seq<string>, es: seq<Entry>)
    requires SortedBy(ids, (a, b) => IndexLess(z, a, b))
    requires |es| == |ids| && forall i :: 0 <= i < |ids| ==> ids[i] in z && es[i] == Entry(ids[i], z[ids[i]])
    ensures Ascending(es)
  {
    forall i, j | 0 <= i < j < |es|
      ensures es[i].score <= es[j].score
    {
      assert IndexLess(z, ids[i], ids[j]);
    }
  }

  lemma EntriesMatch(z: map<string, int>, ids: seq<string>, es: seq<Entry>)
    requires |es| == |ids| && forall id :: id in ids <==> id in z
    requires forall i :: 0 <= i < |ids| ==> ids[i] in z && es[i] == Entry(ids[i], z[ids[i]])
    ensures forall e :: e in es <==> e.key in z && z[e.key] == e.score
  {
    forall e: Entry | e.key in z && z[e.key] == e.score
      ensures e in es
    {
      var i :| 0 <= i < |ids| && ids[i] == e.key;
      assert es[i] == e;
    }
  }

  // ------------------------------------------------------------------------------------------
  // Positions in an ascending list.

  /** The first position with a score of at least s; the start when there is no s. */
  function From(es: seq<Entry>, s: Option<int>): (i: nat)
    ensures i <= |es|
    ensures s.Some? ==> forall j :: 0 <= j < i ==> es[j].score < s.value
    ensures s.Some? && i < |es| ==> es[i].score >= s.value
    ensures s.None? ==> i == 0
  {
    if s.None? || es == [] || es[0].score >= s.value then 0 else 1 + From(es[1..], s)
  }

  // ------------------------------------------------------------------------------------------
  // Single reads.

  /** ZRANGEBYSCORE with a lower bound and a count. */
  function Range(k: Keys, n: string, min: Option<int>, count: nat): (r: seq<Entry>)
    ensures |r| <= count
  {
    var es := Entries(k, n);
    var rest := es[From(es, min)..];
    if |rest| > count then rest[..count] else rest
  }

  predicate ScoreInRange(e: Entry) {
    0 <= e.score <= MAX_EXACT_INTEGER
  }

  predicate Listed(k: Keys, wanted: PlacementStatus, e: Entry) {
    match Load(k.placement, e.key)
    case Loaded(p) => p.status == wanted
    case _ => false
  }

  /** In a reachable keyspace the index of a node is in order and every entry is an active placement. */
  lemma ReachableIsPageable(k: Keys, n: string)
    requires Reachable(k)
    ensures Increasing(Entries(k, n))
    ensures forall e :: e in Entries(k, n) ==>
              && Listed(k, PlacementActive, e) && Load(k.placement, e.key).value.grainKey == e.key && e.key != ""
              && 1 <= e.score <= CounterValue(k.sequence)
  {
    hide Entries, Score, Reachable;
    var es := Entries(k, n);
    forall e | e in es
      ensures Listed(k, PlacementActive, e) && Load(k.placement, e.key).value.grainKey == e.key && e.key != ""
      ensures 1 <= e.score <= CounterValue(k.sequence) <= MAX_EXACT_INTEGER
    {
      IndexedOnce(k, n, e.key);
      StoredPlacement(k, e.key);
    }
    forall i, j | 0 <= i < j < |es|
      ensures es[i].score < es[j].score
    {
      assert es[i] in es && es[j] in es;
      IndexedOnce(k, n, es[i].key);
      if es[i].score == es[j].score { EntriesDiffer(k, n, i, j); }
    }
  }

  /** No key is listed twice. */
  lemma EntriesDiffer(k: Keys, n: string, i: nat, j: nat)
    requires i < j < |Entries(k, n)|
    ensures Entries(k, n)[i].key != Entries(k, n)[j].key
  {
    var z := IndexAt(k, n);
    IndexLessTotal(z);
    hide IndexLess;
  }

  /** What one index read gives: the entries from a score on, in strictly increasing order and without a gap. */
  lemma RangeFacts(k: Keys, n: string, min: Option<int>, count: nat)
    requires Reachable(k)
    ensures var values := Range(k, n, min, count);
            && Increasing(values)
            && (forall e :: e in values ==> e in Entries(k, n) && (min.Some? ==> e.score >= min.value))
            && (forall e :: e in Entries(k, n) && (min.Some? ==> e.score >= min.value) ==>
                  e in values || (|values| == count && (values == [] || e.score > values[|values| - 1].score)))
  {
    hide *;
    ReachableIsPageable(k, n);
    RangeIsSlice(k, n, min, count);
    SliceFacts(Entries(k, n), From(Entries(k, n), min), Range(k, n, min, count), min, count);
  }

  lemma RangeIsSlice(k: Keys, n: string, min: Option<int>, count: nat)
    ensures var es, lo, values := Entries(k, n), From(Entries(k, n), min), Range(k, n, min, count);
            && lo + |values| <= |es| && values == es[lo..lo + |values|] && |values| <= count
            && (|values| < count ==> lo + |values| == |es|)
            && (min.Some? ==> forall j :: 0 <= j < lo ==> es[j].score < min.value)
            && (min.None? ==> lo == 0)
            && (min.Some? && lo < |es| ==> es[lo].score >= min.value)
  {
    hide Entries, From;
  }

  lemma SliceFacts(es: seq<Entry>, lo: nat, values: seq<Entry>, min: Option<int>, count: nat)
    requires Increasing(es) && lo + |values| <= |es| && values == es[lo..lo + |values|]
    requires |values| <= count && (|values| < count ==> lo + |values| == |es|)
    requires min.Some? ==> forall j :: 0 <= j < lo ==> es[j].score < min.value
    requires min.None? ==> lo == 0
    requires min.Some? && lo < |es| ==> es[lo].score >= min.value
    ensures Increasing(values)
    ensures forall e :: e in values ==> e in es && (min.Some? ==> e.score >= min.value)
    ensures forall e :: e in es && (min.Some? ==> e.score >= min.value) ==>
              e in values || (|values| == count && (values == [] || e.score > values[|values| - 1].score))
  {
    SliceIncreases(es, lo, values);
    assert forall i :: 0 <= i < |values| ==> values[i] == es[lo + i] && es[lo + i].score >= es[lo].score;
    forall e | e in es && (min.Some? ==> e.score >= min.value)
      ensures e in values || (|values| == count && (values == [] || e.score > values[|values| - 1].score))
    {
      var i :| 0 <= i < |es| && es[i] == e;
      LaterInSlice(es, lo, values, i);
    }
  }

  lemma SliceIncreases(es: seq<Entry>, lo: nat, values: seq<Entry>)
    requires Increasing(es) && lo + |values| <= |es| && values == es[lo..lo + |values|]
    ensures Increasing(values)
  {
    assert forall i :: 0 <= i < |values| ==> values[i] == es[lo + i];
  }

  lemma LaterInSlice(es: seq<Entry>, lo: nat, values: seq<Entry>, i: nat)
    requires Increasing(es) && lo <= i < |es| && lo + |values| <= |es| && values == es[lo..lo + |values|]
    ensures es[i] in values || (i >= lo + |values| && (values == [] || es[i].score > values[|values| - 1].score))
  {
    if i < lo + |values| { assert values[i - lo] == es[i]; }
  }

  /** The least score above another. */
  function Above(after: Option<int>): Option<int> {
    if after.Some? then Some(after.value + 1) else None
  }

  /** The position of the first entry beyond a score. */
  function PositionAfter(es: seq<Entry>, after: Option<int>): (i: nat)
    ensures i <= |es|
  {
    From(es, Above(after))
  }

  /** The entries beyond a score. */
  ghost function Remaining(k: Keys, n: string, after: Option<int>): seq<Entry> {
    Entries(k, n)[PositionAfter(Entries(k, n), after)..]
  }

  lemma RemainingIsTheRest(k: Keys, n: string, after: Option<int>)
    requires Reachable(k)
    ensures var rest := Remaining(k, n, after);
            && Increasing(rest)
            && forall e :: e in rest <==> e in Entries(k, n) && (after.Some? ==> e.score > after.value)
  {
    hide Entries, Reachable, Listed, From, Increasing;
    var es := Entries(k, n);
    ReachableIsPageable(k, n);
    var lo := From(es, Above(after));
    assert es[lo..] == es[lo..lo + |es[lo..]|];
    SliceFacts(es, lo, es[lo..], Above(after), |es| + 1);
  }

  lemma PositionAfterEntry(es: seq<Entry>, i: nat)
    requires Increasing(es) && i < |es|
    ensures PositionAfter(es, Some(es[i].score)) == i + 1
  {
    hide From;
    var j := PositionAfter(es, Some(es[i].score));
    assert i + 1 < |es| ==> es[i + 1].score > es[i].score;
    assert forall x :: 0 <= x <= i ==> es[x].score <= es[i].score;
  }

  /** Keyspaces at successive moments of one run. */
  ghost predicate History(ks: seq<Keys>) {
    && (forall i :: 0 <= i < |ks| ==> Reachable(ks[i]))
    && (forall i, j :: 0 <= i <= j < |ks| ==> IndexAdvances(ks[i], ks[j]))
  }

  /** Any moments of a run, in order, form a history. */
  lemma RunGivesHistory(run: RedisRuns.RRun, times: seq<nat>, ks: seq<Keys>)
    requires RedisRuns.WellTimed(run) && |ks| == |times|
    requires forall i :: 0 <= i < |times| ==> times[i] <= |run.ticks| && ks[i] == RedisRuns.KeysAt(run, times[i])
    requires forall i, j :: 0 <= i <= j < |times| ==> times[i] <= times[j]
    ensures History(ks)
  {
    hide Reachable, IndexAdvances, RedisRuns.KeysAt, RedisRuns.WellTimed;
    forall i | 0 <= i < |ks| ensures Reachable(ks[i]) { RedisRuns.ReachableAt(run, times[i]); }
    forall i, j | 0 <= i <= j < |ks|
      ensures IndexAdvances(ks[i], ks[j])
    {
      RunsAdvanceTheIndex(run, times[i], times[j]);
    }
  }

  /** The first of an unlimited supply of moments: a scan takes as many of them as it needs. */
  function Window(at: nat -> Keys, t: nat): (ms: seq<Keys>)
    ensures |ms| == t && forall x :: 0 <= x < t ==> ms[x] == at(x)
  {
    seq(t, x requires 0 <= x => at(x))
  }

  ghost predicate Successive(at: nat -> Keys) {
    forall t: nat :: History(Window(at, t))
  }

  /** Any moments of a run, in order, are such moments. */
  lemma RunGivesMoments(run: RedisRuns.RRun, times: nat -> nat, at: nat -> Keys)
    requires RedisRuns.WellTimed(run)
    requires forall x: nat :: times(x) <= |run.ticks| && at(x) == RedisRuns.KeysAt(run, times(x))
    requires forall x: nat, y: nat :: x <= y ==> times(x) <= times(y)
    ensures Successive(at)
  {
    hide History, RedisRuns.KeysAt, RedisRuns.WellTimed;
    forall t: nat
      ensures History(Window(at, t))
    {
      var upTo := seq(t, x requires 0 <= x => times(x));
      RunGivesHistory(run, upTo, Window(at, t));
    }
  }

  // ------------------------------------------------------------------------------------------
  // What a scan promises.

  /** An entry and the record shown for it: the index held the entry at one moment, and the record was stored at one. */
  ghost predicate SeenAs(ms: seq<Keys>, n: string, wanted: PlacementStatus, e: Entry, p: Placement) {
    && (exists x :: 0 <= x < |ms| && e in Entries(ms[x], n))
    && (exists y :: 0 <= y < |ms| && Load(ms[y].placement, e.key) == Loaded(p))
    && p.status == wanted && p.grainKey == e.key
  }

  /** A grain that keeps its index score at every moment. */
  ghost predicate Keeps(ms: seq<Keys>, n: string, e: Entry) {
    forall x :: 0 <= x < |ms| ==> e in Entries(ms[x], n)
  }

  /** Every grain that keeps its score, above one score and up to another, is shown. */
  ghost predicate Complete(ms: seq<Keys>, n: string, wanted: PlacementStatus, after: Option<int>, upTo: Option<int>,
      shown: seq<Entry>) {
    wanted == PlacementActive ==>
      forall e ::
        && Keeps(ms, n, e) && (after.Some? ==> e.score > after.value) && (upTo.Some? ==> e.score <= upTo.value)
        ==> e in shown
  }

  /** A scan under way: what it found so far and the score it has come to. */
  datatype Progress = Progress(shown: seq<Entry>, records: seq<Placement>, position: Option<int>)

  ghost predicate GoodProgress(ms: seq<Keys>, n: string, wanted: PlacementStatus, after: Option<int>, sc: Progress) {
    && |sc.records| == |sc.shown| && Increasing(sc.shown)
    && (forall e :: e in sc.shown ==>
          (after.Some? ==> e.score > after.value) && sc.position.Some? && e.score <= sc.position.value)
    && (forall i :: 0 <= i < |sc.shown| ==> SeenAs(ms, n, wanted, sc.shown[i], sc.records[i]))
    && (after.Some? ==> sc.position.Some? && sc.position.value >= after.value)
    && if sc.position.Some? then Complete(ms, n, wanted, after, sc.position, sc.shown) else sc.shown == []
  }

  function ScoreOf(boundary: Option<Entry>): Option<int> {
    if boundary.Some? then Some(boundary.value.score) else None
  }

  /** No other entry has taken the boundary's score. */
  ghost predicate Fits(k: Keys, n: string, boundary: Option<Entry>) {
    boundary.Some? ==> forall e :: e in Entries(k, n) && e.score == boundary.value.score ==> e == boundary.value
  }

  ghost predicate FitsFrom(at: nat -> Keys, t: nat, n: string, boundary: Option<Entry>) {
    forall y: nat :: t <= y ==> Fits(at(y), n, boundary)
  }

  /** The score a scan has come to; scores start at zero. */
  function Floor(boundary: Option<Entry>): int {
    if boundary.Some? then boundary.value.score else -1
  }

  datatype Position = Disorder | AtBoundary | Beyond

  /** Where an entry lies; the boundary is only passed with the first entry of a batch. */
  function PositionOf(value: Entry, previous: Option<int>, boundary: Option<Entry>): Position {
    if !ScoreInRange(value) then Disorder
    else if boundary.Some? && value.score < boundary.value.score then Disorder
    else if boundary.Some? && value.score == boundary.value.score
    then (if value.key == boundary.value.key then AtBoundary else Disorder)
    else if previous.Some? && value.score <= previous.value then Disorder
    else Beyond
  }

  function PreviousScore(values: seq<Entry>, boundary: Option<Entry>, i: nat): Option<int>
    requires i <= |values|
  {
    if i > 0 then Some(values[i - 1].score) else ScoreOf(boundary)
  }

  function BoundaryAt(boundary: Option<Entry>, i: nat): Option<Entry> {
    if i == 0 then boundary else None
  }

  /** In a history a batch is never in disorder. */
  lemma BatchIsInOrder(ms: seq<Keys>, x: nat, n: string, boundary: Option<Entry>, count: nat, i: nat)
    requires History(ms) && x < |ms| && Fits(ms[x], n, boundary) && i < |Range(ms[x], n, ScoreOf(boundary), count)|
    ensures var values := Range(ms[x], n, ScoreOf(boundary), count);
            var position := PositionOf(values[i], PreviousScore(values, boundary, i), BoundaryAt(boundary, i));
            && !position.Disorder?
            && (position.AtBoundary? ==> i == 0 && Some(values[i].score) == ScoreOf(boundary))
  {
    hide Entries, Reachable, IndexAdvances, Range, Listed;
    RangeFacts(ms[x], n, ScoreOf(boundary), count);
    ReachableIsPageable(ms[x], n);
    SequenceFits(ms[x]);
    var values := Range(ms[x], n, ScoreOf(boundary), count);
    assert values[i] in values;
  }

  lemma SequenceFits(k: Keys)
    requires Reachable(k)
    ensures CounterValue(k.sequence) <= MAX_EXACT_INTEGER
  {
    hide Registered, Leased, OwnKeys, Protocol.Valid, Intact, Scored;
  }

  /** The record of a grain that keeps its score is there and active whenever it is read. */
  lemma KeptIsListed(ms: seq<Keys>, y: nat, n: string, e: Entry)
    requires History(ms) && y < |ms| && Keeps(ms, n, e)
    ensures Listed(ms[y], PlacementActive, e)
  {
    hide Entries, Reachable, IndexAdvances, Listed;
    ReachableIsPageable(ms[y], n);
  }

  /** A grain that keeps a score between the previous entry's and this one's is this one. */
  lemma NoneBetween(ms: seq<Keys>, x: nat, n: string, boundary: Option<Entry>, count: nat, i: nat, e: Entry)
    requires History(ms) && x < |ms| && i < |Range(ms[x], n, ScoreOf(boundary), count)| && Keeps(ms, n, e)
    requires var values := Range(ms[x], n, ScoreOf(boundary), count);
             && (PreviousScore(values, boundary, i).Some? ==> e.score > PreviousScore(values, boundary, i).value)
             && e.score <= values[i].score && (ScoreOf(boundary).Some? ==> e.score >= ScoreOf(boundary).value)
    ensures e == Range(ms[x], n, ScoreOf(boundary), count)[i]
  {
    hide Entries, Reachable, IndexAdvances, Range;
    RangeFacts(ms[x], n, ScoreOf(boundary), count);
    var values := Range(ms[x], n, ScoreOf(boundary), count);
    assert e in values;
    var j :| 0 <= j < |values| && values[j] == e;
  }

  /** What the scan holds after an entry beyond its position, given the moment of the record read. */
  function Extended(sc: Progress, k: Keys, wanted: PlacementStatus, value: Entry): Progress {
    if Listed(k, wanted, value)
    then Progress(sc.shown + [value], sc.records + [Load(k.placement, value.key).value], Some(value.score))
    else sc.(position := Some(value.score))
  }

  /** Then it is complete up to that entry. */
  lemma CompleteFurther(ms: seq<Keys>, x: nat, y: nat, n: string, wanted: PlacementStatus, after: Option<int>,
      sc: Progress, boundary: Option<Entry>, count: nat, i: nat)
    requires History(ms) && x < |ms| && y < |ms| && i < |Range(ms[x], n, ScoreOf(boundary), count)|
    requires GoodProgress(ms, n, wanted, after, sc)
    requires var values := Range(ms[x], n, ScoreOf(boundary), count);
             sc.position == PreviousScore(values, boundary, i)
             && (sc.position.Some? && ScoreOf(boundary).Some? ==> sc.position.value >= ScoreOf(boundary).value)
             && (sc.position.None? ==> after.None?)
    ensures var value := Range(ms[x], n, ScoreOf(boundary), count)[i];
            Complete(ms, n, wanted, after, Some(value.score), Extended(sc, ms[y], wanted, value).shown)
  {
    hide Entries, Reachable, IndexAdvances, Range, Listed, Keeps, History, SeenAs;
    var value := Range(ms[x], n, ScoreOf(boundary), count)[i];
    var shown := Extended(sc, ms[y], wanted, value).shown;
    if wanted == PlacementActive {
      forall e | Keeps(ms, n, e) && (after.Some? ==> e.score > after.value) && e.score <= value.score
        ensures e in shown
      {
        if sc.position.Some? && e.score <= sc.position.value {
          assert e in sc.shown;
        } else {
          NoneBetween(ms, x, n, boundary, count, i, e);
          KeptIsListed(ms, y, n, e);
        }
      }
    }
  }

  lemma SeenNow(ms: seq<Keys>, x: nat, y: nat, n: string, wanted: PlacementStatus, e: Entry)
    requires History(ms) && x < |ms| && y < |ms| && e in Entries(ms[x], n) && Listed(ms[y], wanted, e)
    ensures SeenAs(ms, n, wanted, e, Load(ms[y].placement, e.key).value)
  {
    hide Entries, Reachable, IndexAdvances;
    StoredPlacement(ms[y], e.key);
  }

  /** An entry beyond the position keeps the scan good. */
  lemma ScanGoesOn(ms: seq<Keys>, x: nat, y: nat, n: string, wanted: PlacementStatus, after: Option<int>,
      sc: Progress, boundary: Option<Entry>, count: nat, i: nat)
    requires History(ms) && x < |ms| && y < |ms| && i < |Range(ms[x], n, ScoreOf(boundary), count)|
    requires GoodProgress(ms, n, wanted, after, sc)
    requires var values := Range(ms[x], n, ScoreOf(boundary), count);
             && sc.position == PreviousScore(values, boundary, i)
             && PositionOf(values[i], PreviousScore(values, boundary, i), BoundaryAt(boundary, i)).Beyond?
             && (sc.position.Some? && ScoreOf(boundary).Some? ==> sc.position.value >= ScoreOf(boundary).value)
    ensures GoodProgress(ms, n, wanted, after,
            Extended(sc, ms[y], wanted, Range(ms[x], n, ScoreOf(boundary), count)[i]))
  {
    hide Entries, Reachable, IndexAdvances, Range, Listed, Keeps, History, SeenAs, Complete, ScoreInRange;
    CompleteFurther(ms, x, y, n, wanted, after, sc, boundary, count, i);
    var values := Range(ms[x], n, ScoreOf(boundary), count);
    InTheIndex(ms, x, n, boundary, count, i);
    if Listed(ms[y], wanted, values[i]) { SeenNow(ms, x, y, n, wanted, values[i]); }
  }

  lemma InTheIndex(ms: seq<Keys>, x: nat, n: string, boundary: Option<Entry>, count: nat, i: nat)
    requires History(ms) && x < |ms| && i < |Range(ms[x], n, ScoreOf(boundary), count)|
    ensures Range(ms[x], n, ScoreOf(boundary), count)[i] in Entries(ms[x], n)
  {
    hide Entries, Reachable, IndexAdvances, Range;
    RangeFacts(ms[x], n, ScoreOf(boundary), count);
    assert Range(ms[x], n, ScoreOf(boundary), count)[i] in Range(ms[x], n, ScoreOf(boundary), count);
  }

  // ------------------------------------------------------------------------------------------
  // The scan.

  /** What was good stays good as more moments are looked at. */
  lemma StaysGood(ms: seq<Keys>, more: seq<Keys>, n: string, wanted: PlacementStatus, after: Option<int>, sc: Progress)
    requires GoodProgress(ms, n, wanted, after, sc) && ms <= more
    ensures GoodProgress(more, n, wanted, after, sc)
  {
    hide Entries, Increasing;
    forall e, p | SeenAs(ms, n, wanted, e, p)
      ensures SeenAs(more, n, wanted, e, p)
    {
      var x :| 0 <= x < |ms| && e in Entries(ms[x], n);
      var y :| 0 <= y < |ms| && Load(ms[y].placement, e.key) == Loaded(p);
      assert e in Entries(more[x], n) && Load(more[y].placement, e.key) == Loaded(p);
    }
    forall e | Keeps(more, n, e)
      ensures Keeps(ms, n, e)
    {
      forall x | 0 <= x < |ms| ensures e in Entries(ms[x], n) { assert more[x] == ms[x]; }
    }
    hide SeenAs, Keeps;
  }

  /** How a batch ends: one entry more than the page holds, all entries read, or refused. */
  datatype Batch = Full | More | Wrong

  /** A batch as the scan assumes it: read from the index of one moment, from the scan's boundary on. */
  ghost predicate Ideal(at: nat -> Keys, x: nat, t: nat, n: string, wanted: PlacementStatus, after: Option<int>,
      so: Progress, boundary: Option<Entry>, count: nat, values: seq<Entry>) {
    && Successive(at) && x < t && Fits(at(x), n, boundary) && values == Range(at(x), n, ScoreOf(boundary), count)
    && GoodProgress(Window(at, t), n, wanted, after, so) && so.position == ScoreOf(boundary)
  }

  /** Reads the placements of one batch, each at a moment of its own. Whatever the index holds, the scores of a batch
      that goes on rise from entry to entry and stay below the maximum. */
  method ReadBatch(at: nat -> Keys, start: nat, wanted: PlacementStatus, limit: nat, values: seq<Entry>,
      boundary: Option<Entry>, so: Progress, ghost x: nat, ghost n: string, ghost after: Option<int>, ghost count: nat)
    returns (b: Batch, t: nat, sc: Progress)
    requires |so.records| == |so.shown| <= limit && so.position == ScoreOf(boundary)
    ensures start <= t <= start + |values| && |sc.records| == |sc.shown|
    ensures b.Full? ==> |sc.shown| == limit + 1
    ensures b.More? ==>
              |sc.shown| <= limit && Increasing(values) && sc.position == PreviousScore(values, boundary, |values|)
    ensures b.More? && values != [] ==>
              Floor(boundary) + |values| - 1 <= values[|values| - 1].score <= MAX_EXACT_INTEGER
    ensures Ideal(at, x, start, n, wanted, after, so, boundary, count, values) ==>
              !b.Wrong? && GoodProgress(Window(at, t), n, wanted, after, sc)
  {
    ghost var ideal := Ideal(at, x, start, n, wanted, after, so, boundary, count, values);
    hide Entries, Range, GoodProgress, Fits, History, Listed, Window;
    t, sc := start, so;
    for i := 0 to |values|
      invariant start <= t <= start + i && |sc.records| == |sc.shown| <= limit
      invariant sc.position == PreviousScore(values, boundary, i) && Increasing(values[..i])
      invariant ideal ==> GoodProgress(Window(at, t), n, wanted, after, sc)
      invariant ScoreOf(boundary).Some? && sc.position.Some? ==> sc.position.value >= ScoreOf(boundary).value
      invariant i > 0 ==> Floor(boundary) + i - 1 <= values[i - 1].score <= MAX_EXACT_INTEGER
    {
      if ideal { BatchIsInOrder(Window(at, x + 1), x, n, boundary, count, i); }
      GrowsIncreasing(values, i);
      var position := PositionOf(values[i], sc.position, BoundaryAt(boundary, i));
      if position == Disorder { return Wrong, t, sc; }
      if position == Beyond {
        var loaded := Load(at(t).placement, values[i].key);
        if ideal { EntryIsGood(at, x, t, n, wanted, after, sc, boundary, count, i); }
        t := t + 1;
        if loaded.Undecodable? { return Wrong, t, sc; }
        sc := Extended(sc, at(t - 1), wanted, values[i]);
        if |sc.shown| > limit { return Full, t, sc; }
      }
    }
    assert values[..|values|] == values;
    return More, t, sc;
  }

  /** One entry beyond the position and the read of its record at the next moment. */
  lemma EntryIsGood(at: nat -> Keys, x: nat, t: nat, n: string, wanted: PlacementStatus, after: Option<int>,
      sc: Progress, boundary: Option<Entry>, count: nat, i: nat)
    requires Successive(at) && x < t && i < |Range(at(x), n, ScoreOf(boundary), count)|
    requires GoodProgress(Window(at, t), n, wanted, after, sc)
    requires var values := Range(at(x), n, ScoreOf(boundary), count);
             && sc.position == PreviousScore(values, boundary, i)
             && PositionOf(values[i], PreviousScore(values, boundary, i), BoundaryAt(boundary, i)).Beyond?
             && (sc.position.Some? && ScoreOf(boundary).Some? ==> sc.position.value >= ScoreOf(boundary).value)
    ensures GoodProgress(Window(at, t + 1), n, wanted, after,
            Extended(sc, at(t), wanted, Range(at(x), n, ScoreOf(boundary), count)[i]))
    ensures forall key :: !Load(at(t).placement, key).Undecodable?
  {
    hide Entries, Range, GoodProgress, History, Listed, Window, ScoreInRange;
    var ms := Window(at, t + 1);
    assert Window(at, t) <= ms;
    StaysGood(Window(at, t), ms, n, wanted, after, sc);
    ScanGoesOn(ms, x, t, n, wanted, after, sc, boundary, count, i);
    forall key { NeverUndecodable(ms, t, key); }
  }

  lemma NeverUndecodable(ms: seq<Keys>, t: nat, key: string)
    requires History(ms) && t < |ms|
    ensures !Load(ms[t].placement, key).Undecodable?
  {
    hide Reachable, IndexAdvances;
    StoredPlacement(ms[t], key);
  }

  lemma GrowsIncreasing(values: seq<Entry>, i: nat)
    requires i < |values| && Increasing(values[..i])
    ensures (i > 0 ==> values[i - 1].score < values[i].score) ==> Increasing(values[..i + 1])
  {
    assert forall j :: 0 <= j < i ==> values[..i][j] == values[j];
  }

  predicate CursorOk(cursor: string) {
    cursor == "" || (ParseCursor(cursor).Some? && 0 <= ParseCursor(cursor).value.score <= MAX_EXACT_INTEGER)
  }

  /** A cursor that a page could have handed out is accepted exactly when its score is one Redis can hold exactly. */
  lemma CursorsAccepted(c: Cursor)
    requires -MAX_INT64 - 1 <= c.score <= MAX_INT64 && c.key != ""
    ensures CursorOk(FormatCursor(c)) <==> 0 <= c.score <= 9007199254740991
  {
    hide ParseCursor, FormatCursor;
    CursorRoundTrip(c);
    CursorIsNotEmpty(c);
  }

  /** The entry a cursor stands behind. */
  function BoundaryOf(cursor: string): Option<Entry> {
    if cursor == "" || ParseCursor(cursor).None? then None
    else Some(Entry(ParseCursor(cursor).value.key, ParseCursor(cursor).value.score))
  }

  /** What a page promises of the moments it was read at: its entries in increasing order beyond the cursor, each seen;
      every grain that kept its score up to where the page ends; and a cursor exactly if there was one entry more. */
  ghost predicate PageRead(ms: seq<Keys>, n: string, wanted: PlacementStatus, after: Option<int>, limit: nat,
      page: Page, shown: seq<Entry>) {
    && page.Page? && |page.placements| == |shown| <= limit && Increasing(shown)
    && (forall e :: e in shown ==> after.Some? ==> e.score > after.value)
    && (forall i :: 0 <= i < |shown| ==> SeenAs(ms, n, wanted, shown[i], page.placements[i]))
    && if page.nextCursor == "" then Complete(ms, n, wanted, after, None, shown)
       else
         && |shown| == limit > 0
         && page.nextCursor == FormatCursor(Cursor(shown[limit - 1].score, shown[limit - 1].key))
         && Complete(ms, n, wanted, after, Some(shown[limit - 1].score), shown)
         && exists e: Entry, p: Placement :: e.score > shown[limit - 1].score && SeenAs(ms, n, wanted, e, p)
  }

  /** How many entries some full batches pass, when each starts again at the last entry of the one before. */
  function Passed(full: nat, batch: nat): int {
    full * (batch - 1)
  }

  lemma OneMoreBatch(full: nat, batch: nat)
    ensures Passed(0, batch) == 0 && Passed(full + 1, batch) == Passed(full, batch) + batch - 1
  {
  }

  function BatchSize(limit: int): nat {
    Max(PageLimit(limit), DEFAULT_PAGE_LIMIT)
  }

  /** The index reads of a page on an index that stays as it is: all but the last pass a batch less one of the entries
      beyond the cursor, and for active placements there are at most two. */
  ghost predicate QuietCount(k: Keys, n: string, wanted: PlacementStatus, after: Option<int>, batch: nat, full: nat) {
    && Passed(full, batch) <= |Remaining(k, n, after)|
    && (wanted == PlacementActive ==> full <= 1)
  }

  /** FindByNode: one index read for each batch and one read for each record, at successive moments. With a cursor whose
      score no other entry takes, no moment of a run makes it fail. The refill loop ends whatever the index holds and
      however it grows, since every full batch raises the score it has come to by at least the batch size less one. */
  method FindByNode(at: nat -> Keys, n: string, status: Option<PlacementStatus>, cursor: string, limit: int)
    returns (r: Page, ghost shown: seq<Entry>, ghost used: nat, ghost full: nat)
    ensures !CursorOk(cursor) ==> r == BadPage
    ensures r.Page? ==> |r.placements| <= if limit <= 0 then 100 else limit
    ensures CursorOk(cursor) ==>
              used > 0 && Passed(full, BatchSize(limit)) <= MAX_EXACT_INTEGER - Floor(BoundaryOf(cursor))
    ensures CursorOk(cursor) && Successive(at) && FitsFrom(at, 0, n, BoundaryOf(cursor)) ==>
              var wanted := if status.Some? then status.value else PlacementActive;
              && PageRead(Window(at, used), n, wanted, ScoreOf(BoundaryOf(cursor)), PageLimit(limit), r, shown)
              && ((forall t: nat :: at(t) == at(0)) ==>
                    QuietCount(at(0), n, wanted, ScoreOf(BoundaryOf(cursor)), BatchSize(limit), full))
  {
    hide History, Fits, Entries, ParseCursor, Range, FormatCursor, GoodProgress, Complete, SeenAs, Increasing, PageRead,
         Passed, Window, PositionAfter, QuietCount;
    shown, used, full := [], 0, 0;
    if !CursorOk(cursor) { return BadPage, shown, used, full; }
    var wanted := if status.Some? then status.value else PlacementActive;
    var size := PageLimit(limit);
    var batch := Max(size, DEFAULT_PAGE_LIMIT);
    var boundary := BoundaryOf(cursor);
    ghost var first, after := boundary, ScoreOf(boundary);
    ghost var ideal := Successive(at) && FitsFrom(at, 0, n, boundary);
    ghost var quiet := ideal && forall t: nat :: at(t) == at(0);
    var sc, t := Progress([], [], ScoreOf(boundary)), 0;
    NothingScanned(Window(at, 0), n, wanted, after);
    OneMoreBatch(0, batch);
    NothingPassed(at(0), n, wanted, after, batch);
    while true
      invariant |sc.records| == |sc.shown| <= size && sc.position == ScoreOf(boundary)
      invariant Floor(first) + Passed(full, batch) <= Floor(boundary) <= MAX_EXACT_INTEGER
      invariant ideal ==> GoodProgress(Window(at, t), n, wanted, after, sc) && FitsFrom(at, t, n, boundary)
      invariant quiet ==> QuietProgress(at(0), n, wanted, after, ScoreOf(boundary), batch, full)
      decreases MAX_EXACT_INTEGER - Floor(boundary)
    {
      var values := Range(at(t), n, ScoreOf(boundary), batch);
      ghost var x := t;
      t := t + 1;
      if ideal { StaysGood(Window(at, x), Window(at, t), n, wanted, after, sc); }
      var b;
      b, t, sc := ReadBatch(at, t, wanted, size, values, boundary, sc, x, n, after, batch);
      used := t;
      if quiet { ProgressCounts(at(0), n, wanted, after, ScoreOf(boundary), batch, full); }
      if b == Wrong { return BadPage, shown, used, full; }
      if b == Full {
        var last := sc.shown[size - 1];
        shown := sc.shown[..size];
        r := Page(sc.records[..size], FormatCursor(Cursor(last.score, last.key)));
        if ideal { FullPage(Window(at, t), n, wanted, after, size, sc); }
        return;
      }
      if |values| < batch {
        shown := sc.shown;
        if ideal { LastPage(Window(at, t), x, n, wanted, after, boundary, batch, sc, size); }
        return Page(sc.records, ""), shown, used, full;
      }
      OneMoreBatch(full, batch);
      if ideal { LastIsBoundary(at, x, t, n, boundary, batch); }
      if quiet { QuietGoesOn(at, x, t, n, wanted, after, boundary, batch, full, sc, size); }
      boundary, full := Some(values[|values| - 1]), full + 1;
    }
  }

  /** How far full batches have come on an index that stays as it is. */
  ghost predicate QuietProgress(k: Keys, n: string, wanted: PlacementStatus, after: Option<int>, position: Option<int>,
      batch: nat, full: nat) {
    && PositionAfter(Entries(k, n), after) + Passed(full, batch) <= PositionAfter(Entries(k, n), position)
    && (wanted == PlacementActive ==> full <= 1)
  }

  lemma NothingPassed(k: Keys, n: string, wanted: PlacementStatus, after: Option<int>, batch: nat)
    ensures QuietProgress(k, n, wanted, after, after, batch, 0)
  {
    hide Entries, PositionAfter;
  }

  lemma ProgressCounts(k: Keys, n: string, wanted: PlacementStatus, after: Option<int>, position: Option<int>,
      batch: nat, full: nat)
    requires QuietProgress(k, n, wanted, after, position, batch, full)
    ensures QuietCount(k, n, wanted, after, batch, full)
  {
    hide Entries, PositionAfter, Passed;
  }

  /** The last entry of a full batch is the next boundary. */
  lemma LastIsBoundary(at: nat -> Keys, x: nat, t: nat, n: string, boundary: Option<Entry>, batch: nat)
    requires Successive(at) && x < t && batch > 0 && |Range(at(x), n, ScoreOf(boundary), batch)| == batch
    ensures FitsFrom(at, t, n, Some(Range(at(x), n, ScoreOf(boundary), batch)[batch - 1]))
  {
    hide History, Entries, Range, Fits;
    InTheIndex(Window(at, x + 1), x, n, boundary, batch, batch - 1);
    BoundaryKeeps(at, x, t, n, Range(at(x), n, ScoreOf(boundary), batch)[batch - 1]);
  }

  /** On an index that stays as it is a full batch ends at least a batch less one further on. */
  lemma QuietBatchPasses(k: Keys, n: string, position: Option<int>, batch: nat)
    requires Reachable(k) && batch > 0 && |Range(k, n, position, batch)| == batch
    ensures PositionAfter(Entries(k, n), position) + batch - 1
            <= PositionAfter(Entries(k, n), Some(Range(k, n, position, batch)[batch - 1].score))
  {
    hide Entries, Reachable, Listed, PositionAfter, From, Increasing, Range;
    ReachableIsPageable(k, n);
    RangeIsSlice(k, n, position, batch);
    var es, lo := Entries(k, n), From(Entries(k, n), position);
    assert Range(k, n, position, batch)[batch - 1] == es[lo + batch - 1];
    PositionAfterEntry(es, lo + batch - 1);
    AtMostOneFurther(es, position);
  }

  lemma AtMostOneFurther(es: seq<Entry>, position: Option<int>)
    requires Increasing(es)
    ensures PositionAfter(es, position) <= From(es, position) + 1
  {
    hide From;
    var lo, next := From(es, position), PositionAfter(es, position);
    assert lo + 1 < |es| ==> es[lo].score < es[lo + 1].score;
  }

  /** On such an index everything between two positions has been shown. */
  lemma QuietShown(k: Keys, ms: seq<Keys>, n: string, after: Option<int>, sc: Progress)
    requires Reachable(k) && ms != [] && (forall x :: 0 <= x < |ms| ==> ms[x] == k)
    requires GoodProgress(ms, n, PlacementActive, after, sc)
    ensures PositionAfter(Entries(k, n), sc.position) <= PositionAfter(Entries(k, n), after) + |sc.shown|
  {
    hide Entries, Reachable, Listed, From, SeenAs;
    ReachableIsPageable(k, n);
    var es := Entries(k, n);
    var lo, hi := PositionAfter(es, after), PositionAfter(es, sc.position);
    if lo < hi {
      forall i | lo <= i < hi
        ensures es[i] in sc.shown
      {
        assert Keeps(ms, n, es[i]);
        ScoresBetween(es, after, sc.position, i);
      }
      DistinctFit(es[lo..hi], sc.shown);
    }
  }

  lemma ScoresBetween(es: seq<Entry>, after: Option<int>, position: Option<int>, i: nat)
    requires Increasing(es) && PositionAfter(es, after) <= i < PositionAfter(es, position)
    ensures (after.Some? ==> es[i].score > after.value) && position.Some? && es[i].score <= position.value
  {
    hide From;
    var lo := PositionAfter(es, after);
    assert lo < i ==> es[lo].score < es[i].score;
  }

  lemma {:induction false} DistinctFit(a: seq<Entry>, b: seq<Entry>)
    requires Increasing(a) && forall e :: e in a ==> e in b
    ensures |a| <= |b|
    decreases |a|
  {
    if a != [] {
      var init, last := a[..|a| - 1], a[|a| - 1];
      assert last in b;
      var i :| 0 <= i < |b| && b[i] == last;
      var rest := b[..i] + b[i + 1..];
      forall e | e in init
        ensures e in rest
      {
        StillThere(b, i, e);
      }
      DistinctFit(init, rest);
    }
  }

  lemma StillThere(b: seq<Entry>, i: nat, e: Entry)
    requires i < |b| && e in b && e != b[i]
    ensures e in b[..i] + b[i + 1..]
  {
    var j :| 0 <= j < |b| && b[j] == e;
    if j < i { assert b[..i][j] == e; } else { assert b[i + 1..][j - i - 1] == e; }
  }

  lemma QuietGoesOn(at: nat -> Keys, x: nat, t: nat, n: string, wanted: PlacementStatus, after: Option<int>,
      boundary: Option<Entry>, batch: nat, full: nat, sc: Progress, size: nat)
    requires Successive(at) && x < t && (forall y: nat :: at(y) == at(0)) && size <= batch
    requires batch >= DEFAULT_PAGE_LIMIT
    requires |Range(at(x), n, ScoreOf(boundary), batch)| == batch && |sc.shown| <= size
    requires sc.position == Some(Range(at(x), n, ScoreOf(boundary), batch)[batch - 1].score)
    requires GoodProgress(Window(at, t), n, wanted, after, sc)
    requires QuietProgress(at(0), n, wanted, after, ScoreOf(boundary), batch, full)
    ensures QuietProgress(at(0), n, wanted, after, sc.position, batch, full + 1)
  {
    hide Entries, Reachable, GoodProgress, PositionAfter, Range, IndexAdvances;
    assert History(Window(at, 1));
    assert Reachable(at(0));
    QuietBatchPasses(at(0), n, ScoreOf(boundary), batch);
    OneMoreBatch(full, batch);
    OneMoreBatch(0, batch);
    OneMoreBatch(1, batch);
    hide Passed;
    if wanted == PlacementActive { QuietShown(at(0), Window(at, t), n, after, sc); }
  }

  lemma NothingScanned(ms: seq<Keys>, n: string, wanted: PlacementStatus, after: Option<int>)
    ensures GoodProgress(ms, n, wanted, after, Progress([], [], after))
  {
    hide Keeps;
  }

  /** The last entry of a batch is a boundary for the next one: no other entry can take its score later. */
  lemma BoundaryKeeps(at: nat -> Keys, x: nat, t: nat, n: string, last: Entry)
    requires Successive(at) && x <= t && last in Entries(at(x), n)
    ensures FitsFrom(at, t, n, Some(last))
  {
    hide Entries, Reachable, IndexAdvances, Listed;
    assert History(Window(at, x + 1));
    ReachableIsPageable(at(x), n);
    forall y: nat, e | t <= y && e in Entries(at(y), n) && e.score == last.score
      ensures e == last
    {
      assert History(Window(at, y + 1)) && Window(at, y + 1)[x] == at(x) && Window(at, y + 1)[y] == at(y);
      ScoreIsKept(at(x), at(y), n, e, last);
    }
  }

  lemma ScoreIsKept(k: Keys, k': Keys, n: string, e: Entry, last: Entry)
    requires Reachable(k) && IndexAdvances(k, k') && last in Entries(k, n) && e in Entries(k', n)
    requires e.score == last.score
    requires last.score <= CounterValue(k.sequence)
    ensures e == last
  {
    hide Entries, Reachable, Score;
    IndexedOnce(k, n, last.key);
  }

  /** The page of a complete scan. */
  lemma LastPage(ms: seq<Keys>, x: nat, n: string, wanted: PlacementStatus, after: Option<int>, boundary: Option<Entry>,
      count: nat, sc: Progress, limit: nat)
    requires History(ms) && x < |ms| && GoodProgress(ms, n, wanted, after, sc) && |sc.shown| <= limit
    requires var values := Range(ms[x], n, ScoreOf(boundary), count);
             |values| < count && sc.position == PreviousScore(values, boundary, |values|)
    ensures PageRead(ms, n, wanted, after, limit, Page(sc.records, ""), sc.shown)
  {
    hide Entries, Reachable, IndexAdvances, Range, SeenAs, Complete, History, ParseCursor, Increasing;
    ShortBatchCompletes(ms, x, n, wanted, after, boundary, count, sc);
  }

  /** The page of a scan that found one entry more than the page holds. */
  lemma FullPage(ms: seq<Keys>, n: string, wanted: PlacementStatus, after: Option<int>, limit: nat, sc: Progress)
    requires History(ms) && GoodProgress(ms, n, wanted, after, sc) && |sc.shown| == limit + 1 && limit > 0
    ensures var last := sc.shown[limit - 1];
            PageRead(ms, n, wanted, after, limit, Page(sc.records[..limit], FormatCursor(Cursor(last.score, last.key))),
                sc.shown[..limit])
  {
    hide Entries, Reachable, IndexAdvances, History, ParseCursor, FormatCursor, Keeps, SeenAs;
    var last, extra := sc.shown[limit - 1], sc.shown[limit];
    assert SeenAs(ms, n, wanted, last, sc.records[limit - 1]) && SeenAs(ms, n, wanted, extra, sc.records[limit]);
    CursorStandsAt(ms, n, wanted, last, sc.records[limit - 1]);
    HeadIsComplete(ms, n, wanted, after, limit, sc);
  }

  lemma HeadIsComplete(ms: seq<Keys>, n: string, wanted: PlacementStatus, after: Option<int>, limit: nat, sc: Progress)
    requires GoodProgress(ms, n, wanted, after, sc) && |sc.shown| == limit + 1 && limit > 0
    ensures Complete(ms, n, wanted, after, Some(sc.shown[limit - 1].score), sc.shown[..limit])
    ensures Increasing(sc.shown[..limit]) && forall e :: e in sc.shown[..limit] ==> e in sc.shown
  {
    hide SeenAs, Keeps;
    var head := sc.shown[..limit];
    assert sc.shown[limit] in sc.shown && sc.shown[limit].score > sc.shown[limit - 1].score;
    forall e | e in sc.shown && e.score <= sc.shown[limit - 1].score
      ensures e in head
    {
      var j :| 0 <= j < |sc.shown| && sc.shown[j] == e;
      assert head[j] == e;
    }
  }

  /** The cursor handed out at an entry parses back to it. */
  lemma CursorStandsAt(ms: seq<Keys>, n: string, wanted: PlacementStatus, e: Entry, p: Placement)
    requires History(ms) && SeenAs(ms, n, wanted, e, p)
    ensures var cursor := FormatCursor(Cursor(e.score, e.key));
            cursor != "" && CursorOk(cursor) && BoundaryOf(cursor) == Some(e)
  {
    hide Entries, Reachable, IndexAdvances, ParseCursor, FormatCursor, Listed;
    var x :| 0 <= x < |ms| && e in Entries(ms[x], n);
    ReachableIsPageable(ms[x], n);
    SequenceFits(ms[x]);
    CursorRoundTrip(Cursor(e.score, e.key));
    CursorIsNotEmpty(Cursor(e.score, e.key));
  }

  lemma CursorIsNotEmpty(c: Cursor)
    ensures FormatCursor(c) != ""
  {
  }

  /** A scan that has read a short batch is complete. */
  lemma ShortBatchCompletes(ms: seq<Keys>, x: nat, n: string, wanted: PlacementStatus, after: Option<int>,
      boundary: Option<Entry>,
      count: nat, sc: Progress)
    requires History(ms) && x < |ms| && GoodProgress(ms, n, wanted, after, sc)
    requires var values := Range(ms[x], n, ScoreOf(boundary), count);
             |values| < count && sc.position == PreviousScore(values, boundary, |values|)
    ensures Complete(ms, n, wanted, after, None, sc.shown)
  {
    hide Entries, Reachable, IndexAdvances, Range, SeenAs;
    RangeFacts(ms[x], n, ScoreOf(boundary), count);
    var values := Range(ms[x], n, ScoreOf(boundary), count);
    forall e | e in values
      ensures sc.position.Some? && e.score <= sc.position.value
    {
      var j :| 0 <= j < |values| && values[j] == e;
    }
    forall e | wanted == PlacementActive && Keeps(ms, n, e) && (after.Some? ==> e.score > after.value)
      ensures e in sc.shown
    {
      assert e in Entries(ms[x], n);
    }
  }
}

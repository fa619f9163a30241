/** The lease scan of the Redis backend: which nodes it looks at, what its scripts do with the records it read, and how
    requests of other clients may come in between. */
module LeaseScan {
  import opened Types
  import opened Naming
  import opened Ordering
  import opened Keyspace
  import opened Protocol
  import opened RedisInvariant
  import opened NodeRefinement
  import opened RedisRuns
  import opened RedisTraces
  import NodeScripts
  import PlacementScripts

  function Leases(k: Keys, g: Group): map<string, int> {
    if g in k.leases && k.leases[g].Holds? then k.leases[g].value else map[]
  }

  /** Sorted-set order: by score, then by member. */
  predicate ScoreLess(z: map<string, int>, a: string, b: string) {
    var x, y := if a in z then z[a] else 0, if b in z then z[b] else 0;
    x < y || (x == y && PlacementScripts.KeyLess(a, b))
  }

  lemma ScoreLessTotal(z: map<string, int>)
    ensures StrictTotal((a, b) => ScoreLess(z, a, b))
  {
    PlacementScripts.KeyLessTotal();
    hide PlacementScripts.KeyLess;
  }

  /** ZRANGEBYSCORE from the lowest score, with a count. */
  function LowestScores(k: Keys, g: Group, limit: nat): (ids: seq<string>)
  {
    var z := Leases(k, g);
    ScoreLessTotal(z);
    var all := Sorted(z.Keys, (a, b) => ScoreLess(z, a, b));
    if |all| > limit then all[..limit] else all
  }

  ghost predicate ScannedIds(k: Keys, g: Group, ids: seq<string>) {
    && (forall i :: 0 <= i < |ids| ==> Score(k.leases, g, ids[i]).Some?)
    && (forall i, j :: 0 <= i < j < |ids| ==> ids[i] != ids[j])
  }

  /** The head of a sorted set by score. */
  lemma LowestAreLeast(z: map<string, int>, n: nat)
    requires n <= |z.Keys|
    ensures StrictTotal((a, b) => ScoreLess(z, a, b))
    ensures var head := Sorted(z.Keys, (a, b) => ScoreLess(z, a, b))[..n];
            && (forall i :: 0 <= i < n ==> head[i] in z)
            && (forall i, j :: 0 <= i < j < n ==> head[i] != head[j])
            && (forall id, other :: id in head && other in z && other !in head ==> !ScoreLess(z, other, id))
  {
    hide PlacementScripts.KeyLess;
    ScoreLessTotal(z);
    var less := (a, b) => ScoreLess(z, a, b);
    HeadOfSorted(z.Keys, n, less);
    var head := Sorted(z.Keys, less)[..n];
    forall id, other | id in head && other in z && other !in head
      ensures !ScoreLess(z, other, id)
    {
      assert less(id, other);
      ScoreLessAsymmetric(z, id, other);
    }
  }

  lemma ScoreLessAsymmetric(z: map<string, int>, a: string, b: string)
    requires ScoreLess(z, a, b)
    ensures !ScoreLess(z, b, a)
  {
    PlacementScripts.KeyLessTotal();
    hide PlacementScripts.KeyLess;
  }

  lemma LowestIsHead(k: Keys, g: Group, limit: nat)
    ensures var z := Leases(k, g);
            && StrictTotal((a, b) => ScoreLess(z, a, b))
            && LowestScores(k, g, limit) == Sorted(z.Keys, (a, b) => ScoreLess(z, a, b))[..Min(limit, |z.Keys|)]
  {
    hide ScoreLess, Leases;
    var z := Leases(k, g);
    ScoreLessTotal(z);
    var all := Sorted(z.Keys, (a, b) => ScoreLess(z, a, b));
    assert all[..|all|] == all;
  }

  lemma LowestScoresAreLeased(k: Keys, g: Group, limit: nat)
    ensures var ids := LowestScores(k, g, limit);
            && ScannedIds(k, g, ids)
            && |ids| == Min(limit, |Leases(k, g)|)
            && (forall id, other :: id in ids && other in Leases(k, g) && other !in ids ==>
                  Leases(k, g)[id] <= Leases(k, g)[other])
            && (forall id :: id in ids ==> id in Leases(k, g))
  {
    hide StrictTotal, ScoreLess;
    var z := Leases(k, g);
    LowestIsHead(k, g, limit);
    LowestAreLeast(z, Min(limit, |z.Keys|));
    hide LowestScores, Sorted, PlacementScripts.KeyLess, Leases, Score;
    var ids := LowestScores(k, g, limit);
    assert |z.Keys| == |z|;
    forall i | 0 <= i < |ids|
      ensures Score(k.leases, g, ids[i]).Some?
    {
      LeasesAreScores(k, g, ids[i]);
    }
    forall id, other | id in ids && other in z && other !in ids
      ensures z[id] <= z[other]
    {
      NotLessMeansLowest(z, id, other);
    }
  }

  lemma NotLessMeansLowest(z: map<string, int>, a: string, b: string)
    requires a in z && b in z && !ScoreLess(z, b, a)
    ensures z[a] <= z[b]
  {
    hide PlacementScripts.KeyLess;
  }

  datatype Scanned = Scanned(keys: Keys, expired: nat)

  /** The script runs of a scan whose snapshots were taken of k. */
  ghost function Scan(k: Keys, now: int, g: Group, ids: seq<string>): Scanned
    requires ScannedIds(k, g, ids)
    decreases |ids|
  {
    if ids == [] then Scanned(k, 0)
    else
      var id := ids[|ids| - 1];
      var so := Scan(k, now, g, ids[..|ids| - 1]);
      var r := NodeScripts.ExpireNode(so.keys, now, id, g, ReadRecord(k, id), Score(k.leases, g, id).value);
      Scanned(r.keys, so.expired + if r.reply == Answer(NodeScripts.Expired) then 1 else 0)
  }

  lemma ScanNone(k: Keys, now: int, g: Group, ids: seq<string>)
    requires ScannedIds(k, g, ids)
    ensures Scan(k, now, g, ids[..0]) == Scanned(k, 0)
  {
  }

  lemma ScanNext(k: Keys, now: int, g: Group, ids: seq<string>, i: nat)
    requires ScannedIds(k, g, ids) && i < |ids|
    ensures var so := Scan(k, now, g, ids[..i]);
            var r := NodeScripts.ExpireNode(so.keys, now, ids[i], g, ReadRecord(k, ids[i]),
                Score(k.leases, g, ids[i]).value);
            Scan(k, now, g, ids[..i + 1])
                == Scanned(r.keys, so.expired + if r.reply == Answer(NodeScripts.Expired) then 1 else 0)
  {
    hide NodeScripts.ExpireNode;
    assert ids[..i + 1][..i] == ids[..i];
  }

  /** The world in which the due ones of some nodes are offline. */
  ghost function TakenOffline(w: World, now: int, ids: seq<string>): World {
    w.(nodes := map id | id in w.nodes ::
        if id in ids && Due(w, id, now) then w.nodes[id].(status := Offline) else w.nodes[id])
  }

  ghost function DueAmong(w: World, now: int, ids: seq<string>): set<string> {
    set id | id in ids && Due(w, id, now)
  }

  lemma NobodyOffline(w: World, now: int)
    ensures TakenOffline(w, now, []) == w
  {
    assert TakenOffline(w, now, []).nodes == w.nodes;
  }

  lemma OneMoreDue(w: World, now: int, ids: seq<string>, id: string)
    requires id !in ids
    ensures |DueAmong(w, now, ids + [id])| == |DueAmong(w, now, ids)| + if Due(w, id, now) then 1 else 0
  {
    hide Due;
    assert forall x :: x in ids + [id] <==> x in ids || x == id;
    assert DueAmong(w, now, ids + [id]) == DueAmong(w, now, ids) + if Due(w, id, now) then {id} else {};
  }

  lemma OneMoreOffline(w: World, now: int, ids: seq<string>, id: string)
    requires id !in ids
    ensures TakenOffline(w, now, ids + [id]) == ExpireOne(TakenOffline(w, now, ids), now, id).world
    ensures Due(TakenOffline(w, now, ids), id, now) <==> Due(w, id, now)
  {
    hide LeaseExpired;
    assert forall x :: x in ids + [id] <==> x in ids || x == id;
    assert TakenOffline(w, now, ids + [id]).nodes == ExpireOne(TakenOffline(w, now, ids), now, id).world.nodes;
  }

  /** A scan whose snapshots are current takes exactly the due ones of its candidates offline. */
  lemma {:induction false} ScanIsExact(k: Keys, now: int, g: Group, ids: seq<string>)
    requires Reachable(k) && ScannedIds(k, g, ids)
    ensures var r := Scan(k, now, g, ids);
            Reachable(r.keys) && Abs(r.keys) == TakenOffline(Abs(k), now, ids)
                && r.expired == |DueAmong(Abs(k), now, ids)|
    decreases |ids|
  {
    hide Reachable, Abs, NodeScripts.ExpireNode, TakenOffline, DueAmong, ExpireOne, Score, ReadRecord;
    if ids == [] {
      NobodyOffline(Abs(k), now);
      assert DueAmong(Abs(k), now, ids) == {} by { NoneDue(Abs(k), now); }
    } else {
      var init, id := ids[..|ids| - 1], ids[|ids| - 1];
      assert init + [id] == ids;
      ScanIsExact(k, now, g, init);
      var so := Scan(k, now, g, init);
      OneMoreOffline(Abs(k), now, init, id);
      OneMoreDue(Abs(k), now, init, id);
      SnapshotStaysCurrent(k, so.keys, now, g, init, id);
      ExpireNodeRefines(so.keys, now, id, g, ReadRecord(k, id), Score(k.leases, g, id).value);
      ExpiredIffDue(so.keys, now, id);
    }
  }

  lemma NoneDue(w: World, now: int)
    ensures DueAmong(w, now, []) == {}
  {
  }

  lemma ExpiredIffDue(k: Keys, now: int, id: string)
    ensures ExpireOne(Abs(k), now, id).reply.Ok? <==> Due(Abs(k), id, now)
    ensures !ExpireOne(Abs(k), now, id).reply.Ok? ==> ExpireOne(Abs(k), now, id).world == Abs(k)
  {
  }

  lemma SnapshotStaysCurrent(k: Keys, k': Keys, now: int, g: Group, ids: seq<string>, id: string)
    requires Reachable(k) && Reachable(k') && Abs(k') == TakenOffline(Abs(k), now, ids) && id !in ids
    requires Score(k.leases, g, id).Some?
    ensures Score(k'.leases, g, id) == Score(k.leases, g, id)
    ensures id in k'.node && k'.node[id].Holds? && ReadRecord(k, id) == Some(k'.node[id].value)
  {
    hide Reachable, Abs, Score, GoodNode;
    StoredNode(k, id);
    StoredNode(k', id);
  }

  lemma LeasesAreScores(k: Keys, g: Group, id: string)
    ensures id in Leases(k, g) <==> Score(k.leases, g, id).Some?
    ensures id in Leases(k, g) ==> Score(k.leases, g, id) == Some(Leases(k, g)[id])
  {
  }

  /** Due leases have the lowest scores, so a scan of the lowest ones finds min(limit, due) due nodes. */
  lemma DueComeFirst(k: Keys, now: int, g: Group, limit: nat)
    requires Reachable(k)
    ensures |DueAmong(Abs(k), now, LowestScores(k, g, limit))| == Min(limit, |DueIn(Abs(k), now, g)|)
  {
    hide Reachable, Abs, LowestScores, Score, Leases;
    var w, ids := Abs(k), LowestScores(k, g, limit);
    LowestScoresAreLeased(k, g, limit);
    forall id
      ensures id in Leases(k, g) <==> id in w.nodes && w.nodes[id].GroupOf() == g && w.nodes[id].status != Offline
      ensures id in Leases(k, g) ==> Leases(k, g)[id] == w.nodes[id].lease.expireAt
    {
      StoredNode(k, id);
      LeasesAreScores(k, g, id);
    }
    var found, due := DueAmong(w, now, ids), DueIn(w, now, g);
    assert found <= due;
    SetOf(ids);
    var listed := set id | id in ids;
    assert found <= listed && due <= Leases(k, g).Keys;
    if found == due {
      SubsetSize(found, listed);
    } else {
      var missed :| missed in due && missed !in ids;
      assert forall id :: id in ids ==> Due(w, id, now);
      assert found == listed;
      SubsetSize(found, due);
      if |ids| < limit { SubsetSize(listed, Leases(k, g).Keys - {missed}); }
    }
  }

  lemma {:induction false} SubsetSize<T>(a: set<T>, b: set<T>)
    requires a <= b
    ensures |a| <= |b|
    decreases |a|
  {
    if a != {} {
      var x :| x in a;
      SubsetSize(a - {x}, b - {x});
    }
  }

  lemma {:induction false} SetOf(ids: seq<string>)
    requires forall i, j :: 0 <= i < j < |ids| ==> ids[i] != ids[j]
    ensures |set id | id in ids| == |ids|
  {
    if ids != [] {
      SetOf(ids[1..]);
      assert (set id | id in ids) == {ids[0]} + set id | id in ids[1..];
    }
  }

  // ------------------------------------------------------------------------------------------
  // Traces of a scan.

  /** The scores a scan starts from. */
  function ScoresOf(k: Keys, g: Group, ids: seq<string>): (scores: seq<int>)
    requires ScannedIds(k, g, ids)
    ensures |scores| == |ids|
  {
    seq(|ids|, i requires 0 <= i < |ids| => Score(k.leases, g, ids[i]).value)
  }

  /** Each snapshot is the record at some moment among the requests of others that came before the first script. */
  ghost predicate ReadAt(k: Keys, ids: seq<string>, before: seq<Visit>, times: seq<nat>,
      snapshots: seq<Option<RedisNode>>) {
    && |times| == |snapshots| == |ids|
    && forall i :: 0 <= i < |ids| ==>
          times[i] <= |before| && snapshots[i] == ReadRecord(Visited(k, before[..times[i]]), ids[i])
  }

  /** The expiry of one candidate as a scan requests it: its score from the start of the scan, and its record from a
      moment that no script of the scan precedes. */
  ghost predicate RequestsExpiry(k: Keys, now: int, g: Group, id: string, trace: seq<Visit>, read: nat, v: Visit) {
    && Score(k.leases, g, id).Some? && v.now == now && v.request == RExpire(id, g, Score(k.leases, g, id).value)
    && read <= |trace| && v.earlier == Visited(k, trace[..read])
    && forall p :: 0 <= p < read ==> !trace[p].mine
  }

  /** The scan's own requests in a trace are one expiry for each candidate, in order. */
  ghost predicate ScanTrace(k: Keys, clocks: seq<int>, g: Group, ids: seq<string>, trace: seq<Visit>, times: seq<nat>) {
    && |Mine(trace)| == |times| == |ids| <= |clocks|
    && forall i :: 0 <= i < |ids| ==> RequestsExpiry(k, clocks[i], g, ids[i], trace, times[i], Mine(trace)[i])
  }

  /** How many of the observed client's requests succeeded. */
  ghost function Expiries(k: Keys, trace: seq<Visit>): nat {
    if trace == [] then 0
    else
      var init, v := trace[..|trace| - 1], trace[|trace| - 1];
      Expiries(k, init) + if v.mine && EndingOf(Visited(k, init), v).ok then 1 else 0
  }

  lemma NoScan(k: Keys, clocks: seq<int>, g: Group)
    ensures ScanTrace(k, clocks, g, LowestScores(k, g, 0), [], []) && Expiries(k, []) == 0
  {
    hide LowestScores, Leases, Score, RequestsExpiry, ScannedIds;
    LowestScoresAreLeased(k, g, 0);
  }

  lemma NothingRead(k: Keys, ids: seq<string>)
    ensures ReadAt(k, ids[..0], [], [], [])
  {
  }

  lemma OneMoreRead(k: Keys, ids: seq<string>, i: nat, before: seq<Visit>, visits: seq<Visit>, times: seq<nat>,
      snapshots: seq<Option<RedisNode>>)
    requires i < |ids| && ReadAt(k, ids[..i], before, times, snapshots)
    ensures Visited(k, before + visits) == Visited(Visited(k, before), visits)
    ensures ReadAt(k, ids[..i + 1], before + visits, times + [|before + visits|],
                   snapshots + [ReadRecord(Visited(k, before + visits), ids[i])])
  {
    hide Visited, ReadRecord;
    VisitedOn(k, before, visits);
    var longer := before + visits;
    assert forall j :: 0 <= j < i ==> longer[..times[j]] == before[..times[j]];
    assert longer[..|longer|] == longer;
  }

  lemma {:induction false} NoneExpired(k: Keys, trace: seq<Visit>)
    requires forall i :: 0 <= i < |trace| ==> !trace[i].mine
    ensures Expiries(k, trace) == 0
  {
    if trace != [] { NoneExpired(k, trace[..|trace| - 1]); }
  }

  lemma {:induction false} OthersExpireNothing(k: Keys, trace: seq<Visit>, visits: seq<Visit>)
    requires forall i :: 0 <= i < |visits| ==> !visits[i].mine
    ensures Expiries(k, trace + visits) == Expiries(k, trace)
    decreases |visits|
  {
    if visits == [] {
      assert trace + visits == trace;
    } else {
      var init, v := visits[..|visits| - 1], visits[|visits| - 1];
      assert (trace + visits)[..|trace + visits| - 1] == trace + init;
      OthersExpireNothing(k, trace, init);
    }
  }

  lemma NothingExpired(k: Keys, clocks: seq<int>, g: Group, ids: seq<string>, before: seq<Visit>, times: seq<nat>,
      snapshots: seq<Option<RedisNode>>)
    requires Foreign(before) && ReadAt(k, ids, before, times, snapshots) && |ids| <= |clocks|
    ensures ScanTrace(k, clocks, g, ids[..0], before, times[..0]) && Expiries(k, before) == 0
  {
    ForeignIsNotMine(before);
    NoneExpired(k, before);
  }

  /** The trace after the requests of others and one more expiry. */
  lemma ExtendTrace(k: Keys, clocks: seq<int>, g: Group, ids: seq<string>, i: nat, before: seq<Visit>,
      trace: seq<Visit>, visits: seq<Visit>, times: seq<nat>, v: Visit)
    requires i < |ids| == |times| && |ids| <= |clocks| && Foreign(before) && times[i] <= |before|
    requires ScanTrace(k, clocks, g, ids[..i], trace, times[..i]) && before <= trace && Foreign(visits)
    requires v.mine && v.earlier == Visited(k, before[..times[i]]) && v.now == clocks[i]
    requires Score(k.leases, g, ids[i]).Some? && v.request == RExpire(ids[i], g, Score(k.leases, g, ids[i]).value)
    ensures ScanTrace(k, clocks, g, ids[..i + 1], trace + visits + [v], times[..i + 1])
    ensures before <= trace + visits + [v]
  {
    hide Visited, Mine, Score, Reachable, RequestsExpiry;
    var longer := trace + visits + [v];
    VisitedOn(k, trace, visits);
    VisitedMore(k, trace + visits, v);
    ForeignIsNotMine(visits);
    FirstRequest(k, clocks[i], g, ids[i], before, times[i], v);
    RequestStays(k, clocks[i], g, ids[i], before, longer, times[i], v);
    forall j | 0 <= j < i
      ensures RequestsExpiry(k, clocks[j], g, ids[j], longer, times[j], Mine(longer)[j])
    {
      assert RequestsExpiry(k, clocks[j], g, ids[..i][j], trace, times[..i][j], Mine(trace)[j]);
      RequestStays(k, clocks[j], g, ids[j], trace, longer, times[j], Mine(trace)[j]);
    }
  }

  lemma FirstRequest(k: Keys, now: int, g: Group, id: string, before: seq<Visit>, read: nat, v: Visit)
    requires Foreign(before) && read <= |before| && v.earlier == Visited(k, before[..read]) && v.now == now
    requires Score(k.leases, g, id).Some? && v.request == RExpire(id, g, Score(k.leases, g, id).value)
    ensures RequestsExpiry(k, now, g, id, before, read, v)
  {
    hide Visited, Score, Reachable;
  }

  lemma RequestStays(k: Keys, now: int, g: Group, id: string, trace: seq<Visit>, longer: seq<Visit>, read: nat,
      v: Visit)
    requires RequestsExpiry(k, now, g, id, trace, read, v) && trace <= longer
    ensures RequestsExpiry(k, now, g, id, longer, read, v)
  {
    hide Visited, Score;
    assert longer[..read] == trace[..read];
  }

  lemma ExpiriesMore(k: Keys, trace: seq<Visit>, v: Visit)
    ensures Expiries(k, trace + [v])
            == Expiries(k, trace) + if v.mine && EndingOf(Visited(k, trace), v).ok then 1 else 0
  {
    hide Visited, EndingOf;
    assert (trace + [v])[..|trace|] == trace;
  }

  /** The effect of an expiry on the keyspace and on the count. */
  lemma MyExpiry(k: Keys, trace: seq<Visit>, v: Visit, id: string, g: Group, score: int)
    requires v.mine && v.request == RExpire(id, g, score)
    ensures var run := NodeScripts.ExpireNode(Visited(k, trace), v.now, id, g, ReadRecord(v.earlier, id), score);
            && Visited(k, trace + [v]) == run.keys
            && Expiries(k, trace + [v])
               == Expiries(k, trace) + if run.reply == Answer(NodeScripts.Expired) then 1 else 0
  {
    hide NodeScripts.ExpireNode, ReadRecord, Visited, Mine, Expiries;
    VisitedMore(k, trace, v);
    ExpiriesMore(k, trace, v);
  }

  /** The same after requests of others. */
  lemma OneMoreRun(k: Keys, trace: seq<Visit>, visits: seq<Visit>, id: string, g: Group, score: int, v: Visit)
    requires Foreign(visits) && v.mine && v.request == RExpire(id, g, score)
    ensures var longer := trace + visits + [v];
            var run := NodeScripts.ExpireNode(Visited(Visited(k, trace), visits), v.now, id, g,
                ReadRecord(v.earlier, id), score);
            && Visited(k, longer) == run.keys
            && Expiries(k, longer) == Expiries(k, trace) + if run.reply == Answer(NodeScripts.Expired) then 1 else 0
  {
    hide Visited, NodeScripts.ExpireNode, ReadRecord, Mine, Reachable, Expiries;
    VisitedOn(k, trace, visits);
    OthersExpireNothing(k, trace, visits);
    MyExpiry(k, trace + visits, v, id, g, score);
  }

  /** On reachable keyspaces the trace stays genuine and the script answers. */
  lemma OneMoreIsGenuine(k: Keys, trace: seq<Visit>, visits: seq<Visit>, before: seq<Visit>, read: nat, id: string,
      g: Group,
      score: int, seen: Option<RedisNode>, v: Visit)
    requires Foreign(visits) && Foreign(before) && read <= |before| && Reachable(k) && Genuine(trace)
    requires v.earlier == Visited(k, before[..read]) && v.ttl > 0
    ensures Genuine(trace + visits + [v])
    ensures NodeScripts.ExpireNode(Visited(Visited(k, trace), visits), v.now, id, g, seen, score).reply.Answer?
  {
    hide Reachable, Abs, Visited, NodeScripts.ExpireNode, Emitted, ExpireOne;
    VisitedIsReachable(k, before[..read]);
    VisitedIsReachable(k, trace);
    VisitedIsReachable(Visited(k, trace), visits);
    ExpireNodeRefines(Visited(Visited(k, trace), visits), v.now, id, g, seen, score);
  }

  lemma OneMoreExpiry(k: Keys, clocks: seq<int>, g: Group, ids: seq<string>, i: nat, before: seq<Visit>,
      trace: seq<Visit>, visits: seq<Visit>, times: seq<nat>, snapshots: seq<Option<RedisNode>>, v: Visit)
    requires i < |ids| <= |clocks| && ScannedIds(k, g, ids) && Foreign(before)
    requires ReadAt(k, ids, before, times, snapshots)
    requires ScanTrace(k, clocks, g, ids[..i], trace, times[..i]) && before <= trace && Foreign(visits)
    requires Reachable(k) ==> Genuine(trace)
    requires v.mine && v.earlier == Visited(k, before[..times[i]]) && v.now == clocks[i] && v.ttl > 0
    requires v.request == RExpire(ids[i], g, Score(k.leases, g, ids[i]).value)
    ensures var longer, score := trace + visits + [v], Score(k.leases, g, ids[i]).value;
            var run := NodeScripts.ExpireNode(Visited(Visited(k, trace), visits), v.now, ids[i], g, snapshots[i],
                score);
            && ScanTrace(k, clocks, g, ids[..i + 1], longer, times[..i + 1]) && before <= longer
            && Visited(k, longer) == run.keys
            && Expiries(k, longer) == Expiries(k, trace) + (if run.reply == Answer(NodeScripts.Expired) then 1 else 0)
            && (Reachable(k) ==> Genuine(longer) && run.reply.Answer?)
  {
    ExtendTrace(k, clocks, g, ids, i, before, trace, visits, times, v);
    OneMoreRun(k, trace, visits, ids[i], g, Score(k.leases, g, ids[i]).value, v);
    if Reachable(k) {
      OneMoreIsGenuine(k, trace, visits, before, times[i], ids[i], g, Score(k.leases, g, ids[i]).value,
          snapshots[i], v);
    }
    hide Reachable, ScanTrace, Visited, NodeScripts.ExpireNode, Expiries, ReadRecord, Foreign, Genuine, Score;
  }

  // ------------------------------------------------------------------------------------------
  // A scan that nobody disturbs.

  lemma {:induction false} OnlyMine(trace: seq<Visit>)
    ensures |Mine(trace)| <= |trace|
    ensures |Mine(trace)| == |trace| ==> Mine(trace) == trace && forall p :: 0 <= p < |trace| ==> trace[p].mine
  {
    if trace != [] { OnlyMine(trace[..|trace| - 1]); }
  }

  /** A trace that holds only a scan's requests, each with its record read at the start. */
  ghost predicate Undisturbed(k: Keys, now: int, g: Group, ids: seq<string>, trace: seq<Visit>)
    requires ScannedIds(k, g, ids)
  {
    |trace| == |ids| && forall i :: 0 <= i < |ids| ==> IsExpiry(k, now, g, ids[i], trace[i])
  }

  predicate IsExpiry(k: Keys, now: int, g: Group, id: string, v: Visit) {
    && v.mine && v.now == now && v.earlier == k && Score(k.leases, g, id).Some?
    && v.request == RExpire(id, g, Score(k.leases, g, id).value)
  }

  /** Such a trace runs the scripts on the snapshots of its first moment. */
  lemma {:induction false} UndisturbedIsScan(k: Keys, now: int, g: Group, ids: seq<string>, trace: seq<Visit>, n: nat)
    requires ScannedIds(k, g, ids) && Undisturbed(k, now, g, ids, trace) && n <= |ids|
    ensures n <= |trace| && Scan(k, now, g, ids[..n]) == Scanned(Visited(k, trace[..n]), Expiries(k, trace[..n]))
  {
    hide NodeScripts.ExpireNode, Score, ReadRecord, Scan, Visited, Expiries, ScannedIds;
    if n == 0 {
      ScanNone(k, now, g, ids);
      NothingVisited(k, trace);
    } else {
      UndisturbedIsScan(k, now, g, ids, trace, n - 1);
      ScanNext(k, now, g, ids, n - 1);
      assert trace[..n] == trace[..n - 1] + [trace[n - 1]];
      assert IsExpiry(k, now, g, ids[n - 1], trace[n - 1]);
      hide Undisturbed;
      MyExpiry(k, trace[..n - 1], trace[n - 1], ids[n - 1], g, Score(k.leases, g, ids[n - 1]).value);
    }
  }

  lemma NothingVisited(k: Keys, trace: seq<Visit>)
    ensures Visited(k, trace[..0]) == k && Expiries(k, trace[..0]) == 0
  {
  }

  /** A scan with no request of others in between takes exactly min(limit, due) due nodes offline, the ones with the
      lowest lease scores, and counts them. */
  lemma UndisturbedScanIsExact(k: Keys, now: int, clocks: seq<int>, g: Group, limit: nat, trace: seq<Visit>,
      times: seq<nat>)
    requires Reachable(k) && ScanTrace(k, clocks, g, LowestScores(k, g, limit), trace, times)
    requires |Mine(trace)| == |trace|
    requires forall i :: 0 <= i < |trace| ==> clocks[i] == now
    ensures Expiries(k, trace) == Min(limit, |DueIn(Abs(k), now, g)|)
    ensures Abs(Visited(k, trace)) == TakenOffline(Abs(k), now, LowestScores(k, g, limit))
  {
    hide *;
    var ids := LowestScores(k, g, limit);
    LowestScoresAreLeased(k, g, limit);
    ScanIsExact(k, now, g, ids);
    DueComeFirst(k, now, g, limit);
    TraceIsUndisturbed(k, now, clocks, g, ids, trace, times);
    UndisturbedIsScan(k, now, g, ids, trace, |ids|);
    WholeSlices(ids, trace);
  }

  lemma WholeSlices<A, B>(a: seq<A>, b: seq<B>)
    ensures a[..|a|] == a
    ensures |a| == |b| ==> b[..|a|] == b
  {
  }

  lemma TraceIsUndisturbed(k: Keys, now: int, clocks: seq<int>, g: Group, ids: seq<string>, trace: seq<Visit>,
      times: seq<nat>)
    requires ScannedIds(k, g, ids) && ScanTrace(k, clocks, g, ids, trace, times) && |Mine(trace)| == |trace|
    requires forall i :: 0 <= i < |trace| ==> clocks[i] == now
    ensures Undisturbed(k, now, g, ids, trace) && |trace| == |ids|
  {
    hide Score, Visited, RequestsExpiry, IsExpiry, ScannedIds;
    OnlyMine(trace);
    forall i | 0 <= i < |ids|
      ensures IsExpiry(k, now, g, ids[i], trace[i])
    {
      assert RequestsExpiry(k, clocks[i], g, ids[i], trace, times[i], Mine(trace)[i]);
      ReadAtTheStart(k, now, g, ids[i], trace, times[i], trace[i]);
    }
  }

  lemma ReadAtTheStart(k: Keys, now: int, g: Group, id: string, trace: seq<Visit>, read: nat, v: Visit)
    requires RequestsExpiry(k, now, g, id, trace, read, v) && v.mine && forall p :: 0 <= p < |trace| ==> trace[p].mine
    ensures IsExpiry(k, now, g, id, v)
  {
    hide Score;
  }

  lemma SnapshotIsSound(k: Keys, before: seq<Visit>, id: string)
    requires Genuine(before)
    ensures Reachable(k) ==> var r := Load(Visited(k, before).node, id);
                             !r.Undecodable? && (r.Loaded? ==>
                                 r.value.nodeKey == id && r.value.node.lease.version > 0 && r.value.node.lease.ttl > 0)
  {
    hide Reachable, Abs, WellFormedIdentity, NodeType, NodeGroup, NodeName, Visited;
    if Reachable(k) {
      VisitedIsReachable(k, before);
      StoredNode(Visited(k, before), id);
    }
  }
}

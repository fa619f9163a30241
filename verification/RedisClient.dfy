/** The client's loops around the scripts: the bounded retry of a route resolution and the lease scan. */
module RedisClient {
  import opened Types
  import opened Naming
  import opened Keyspace
  import opened Protocol
  import opened RedisInvariant
  import opened NodeRefinement
  import opened RedisRuns
  import opened RedisTraces
  import opened LeaseScan
  import opened RedisRoutes
  import Leases
  import NodeScripts
  import PlacementScripts
  import Server

  const RESOLVE_ROUTE_MAX_ATTEMPTS := 3

  /** The moments of one attempt: the client's clock at the request and at the answer, the server's clock in the
      script, and the placement ID drawn for it. */
  datatype Attempt = Attempt(start: int, server: int, end: int, placementId: string)

  class Client {
    const redis: Server.Redis
    const policy: PlacementScripts.Policy

    ghost predicate Valid()
      reads redis
    {
      Reachable(redis.State())
    }

    constructor (redis: Server.Redis, policy: PlacementScripts.Policy)
      requires Reachable(redis.State())
      ensures Valid() && this.redis == redis && this.policy == policy
    {
      this.redis, this.policy := redis, policy;
    }

    /** Any requests of other clients between two accesses of this one. */
    method Others() returns (ghost visits: seq<Visit>)
      modifies redis
      ensures Foreign(visits) && redis.State() == Visited(old(redis.State()), visits)
    {
      visits := [];
    }

    /** Reads, resolves and retries on a conflict. An answer other than a conflict is what the client makes of one
        script run with a read that was current there; after three conflicts nothing was changed. The keyspace that
        run found is the old one after the given requests of other clients. */
    method ResolveRoute(t: Target, attempts: seq<Attempt>)
      returns (r: Response<Route>, ghost others: seq<Visit>, ghost last: nat)
      requires Valid() && |attempts| == RESOLVE_ROUTE_MAX_ATTEMPTS
      modifies redis
      ensures Valid() && Foreign(others) && last < RESOLVE_ROUTE_MAX_ATTEMPTS
      ensures Reachable(Visited(old(redis.State()), others))
      ensures r != Refused(VersionConflict) ==>
                var found := Visited(old(redis.State()), others);
                Resolves(found, policy, t, attempts[last], redis.State(), r)
      ensures r == Refused(VersionConflict) ==> redis.State() == Visited(old(redis.State()), others) && last == 2
      ensures r.Answer? ==>
                var a := attempts[last]; IsStoredRoute(redis.State(), t, a.start, a.server, a.end, r.value)
    {
      hide Reachable, TargetNamed, Visited, Foreign, Resolves, IsStoredRoute;
      ghost var k := redis.State();
      others, last := [], 0;
      NoVisits(k);
      r := Refused(VersionConflict);
      if !TargetNamed(t) {
        UnnamedIsRefused(k, policy, t, attempts[0]);
        return Refused(InvalidIdentity), others, 0;
      }
      for i := 0 to RESOLVE_ROUTE_MAX_ATTEMPTS
        invariant Valid() && Foreign(others) && last < RESOLVE_ROUTE_MAX_ATTEMPTS
        invariant r == Refused(VersionConflict) && redis.State() == Visited(k, others) && (i > 0 ==> last == i - 1)
      {
        var answer, visits := ResolveRouteOnce(t, attempts[i]);
        VisitedOn(k, others, visits);
        ForeignTogether(others, visits);
        r, others, last := answer, others + visits, i;
        if r != Refused(VersionConflict) { return; }
      }
    }

    /** One attempt: the read, the script, and what the client makes of its answer. */
    method ResolveRouteOnce(t: Target, attempt: Attempt) returns (r: Response<Route>, ghost visits: seq<Visit>)
      requires Valid() && TargetNamed(t)
      modifies redis
      ensures Valid() && Foreign(visits) && Reachable(Visited(old(redis.State()), visits))
      ensures r != Refused(VersionConflict) ==>
                Resolves(Visited(old(redis.State()), visits), policy, t, attempt, redis.State(), r)
      ensures r == Refused(VersionConflict) ==> redis.State() == Visited(old(redis.State()), visits)
      ensures r.Answer? ==> IsStoredRoute(redis.State(), t, attempt.start, attempt.server, attempt.end, r.value)
    {
      hide Reachable, TargetNamed, Visited, Leases.RouteResult, PlacementScripts.ResolveRoute, ReadTarget,
           IsStoredRoute;
      ghost var earlier := redis.State();
      var seen := ReadTarget(redis.State(), t);
      visits := Others();
      VisitedIsReachable(earlier, visits);
      var reply := redis.ResolveRoute(attempt.server, policy, t, attempt.placementId, seen);
      AnswersAreCurrent(Visited(earlier, visits), earlier, attempt.server, policy, t, attempt.placementId, seen);
      ReadsAreGood(earlier, "", "", t);
      AnsweredRouteIsStored(Visited(earlier, visits), attempt.server, policy, t, attempt.placementId, seen,
          attempt.start, attempt.end);
      r := Leases.RouteResult(attempt.start, attempt.end, reply);
      ConflictsAreAnswered(attempt.start, attempt.end, reply);
    }

    /** One scan: the lowest lease scores of a group, then their records as snapshots, then one script run for each,
        with requests of other clients before every read and every script. */
    method ExpireNodeLeases(clocks: seq<int>, g: Group, limit: int)
      returns (r: Response<nat>, ghost trace: seq<Visit>, ghost times: seq<nat>)
      requires |clocks| >= Max(limit, 0)
      modifies redis
      ensures redis.State() == Visited(old(redis.State()), trace)
      ensures Reachable(old(redis.State())) ==> Genuine(trace) && r.Answer?
      ensures r.Answer? ==>
                ScanTrace(old(redis.State()), clocks, g, LowestScores(old(redis.State()), g, Max(limit, 0)), trace,
                    times)
      ensures r.Answer? ==> r.value == Expiries(old(redis.State()), trace)
    {
      hide Reachable, ScanTrace, LowestScores, Visited, Expiries, ReadAt, Score, Foreign, Genuine;
      ghost var k := redis.State();
      trace, times := [], [];
      NoVisits(k);
      LowestScoresAreLeased(k, g, Max(limit, 0));
      if limit <= 0 {
        NoScan(k, clocks, g);
        return Answer(0), trace, times;
      }
      if Reachable(k) { FamiliesHold(k); }
      if !CollectionOk(redis.leases, g) { return Faulted(WrongTypeFault), trace, times; }
      var candidates := LowestScores(redis.State(), g, limit);
      var scores := ScoresOf(redis.State(), g, candidates);
      var snapshots, before, moments := Snapshot(candidates);
      trace, times := before, moments;
      if !snapshots.Answer? {
        return Faulted(if snapshots.Faulted? then snapshots.fault else InvalidNode), trace, times;
      }
      r, trace := ExpireSnapshots(clocks, g, candidates, scores, snapshots.value, k, before, moments);
    }

    /** The snapshot phase: any unreadable or malformed record ends the scan before the first script. */
    method Snapshot(candidates: seq<string>)
      returns (r: Response<seq<Option<RedisNode>>>, ghost before: seq<Visit>, ghost times: seq<nat>)
      modifies redis
      ensures Foreign(before) && redis.State() == Visited(old(redis.State()), before)
      ensures r.Answer? ==>
                ReadAt(old(redis.State()), candidates, before, times, r.value) && |times| == |r.value| == |candidates|
      ensures forall i :: 0 <= i < |times| ==> times[i] <= |before|
      ensures Reachable(old(redis.State())) ==> r.Answer?
    {
      hide Reachable, ReadAt, ReadRecord, RStep;
      ghost var k := redis.State();
      before, times := [], [];
      if Reachable(k) { FamiliesHold(k); }
      if !redis.events.Holds? { return Faulted(WrongTypeFault), before, times; }
      var snapshots: seq<Option<RedisNode>> := [];
      NothingRead(k, candidates);
      for i := 0 to |candidates|
        invariant Foreign(before) && redis.State() == Visited(k, before)
        invariant ReadAt(k, candidates[..i], before, times, snapshots) && |times| == |snapshots| == i
        invariant forall j :: 0 <= j < |times| ==> times[j] <= |before|
      {
        ghost var visits := Others();
        OneMoreRead(k, candidates, i, before, visits, times, snapshots);
        before, times := before + visits, times + [|before + visits|];
        SnapshotIsSound(k, before, candidates[i]);
        var loaded := Load(redis.node, candidates[i]);
        if loaded.Undecodable? { return Faulted(InvalidJson), before, times; }
        if loaded.Loaded?
            && (loaded.value.nodeKey != candidates[i] || loaded.value.node.lease.version <= 0
            || loaded.value.node.lease.ttl <= 0) {
          return Faulted(InvalidNode), before, times;
        }
        snapshots := snapshots + [ReadRecord(redis.State(), candidates[i])];
      }
      assert candidates[..|candidates|] == candidates;
      return Answer(snapshots), before, times;
    }

    /** The script phase. */
    method ExpireSnapshots(clocks: seq<int>, g: Group, candidates: seq<string>, scores: seq<int>,
        snapshots: seq<Option<RedisNode>>, ghost k: Keys, ghost before: seq<Visit>, ghost times: seq<nat>)
      returns (r: Response<nat>, ghost trace: seq<Visit>)
      requires |candidates| <= |clocks| && ScannedIds(k, g, candidates) && scores == ScoresOf(k, g, candidates)
      requires Foreign(before) && redis.State() == Visited(k, before) && ReadAt(k, candidates, before, times, snapshots)
      requires |times| == |snapshots| == |candidates| && forall i :: 0 <= i < |times| ==> times[i] <= |before|
      modifies redis
      ensures redis.State() == Visited(k, trace)
      ensures Reachable(k) ==> Genuine(trace) && r.Answer?
      ensures r.Answer? ==> ScanTrace(k, clocks, g, candidates, trace, times) && r.value == Expiries(k, trace)
    {
      hide Reachable, ReadAt, ReadRecord, RStep, ScanTrace, NodeScripts.ExpireNode, EndingOf;
      var expired := 0;
      trace := before;
      NothingExpired(k, clocks, g, candidates, before, times, snapshots);
      for i := 0 to |candidates|
        invariant Reachable(k) ==> Genuine(trace)
        invariant redis.State() == Visited(k, trace) && expired == Expiries(k, trace)
        invariant ScanTrace(k, clocks, g, candidates[..i], trace, times[..i]) && before <= trace
      {
        ghost var visits := Others();
        ghost var v := Visit(true, Visited(k, before[..times[i]]), 1, policy, clocks[i],
            RExpire(candidates[i], g, scores[i]));
        OneMoreExpiry(k, clocks, g, candidates, i, before, trace, visits, times, snapshots, v);
        var result := redis.ExpireNode(clocks[i], candidates[i], g, snapshots[i], scores[i]);
        trace := trace + visits + [v];
        if result.Faulted? { return Faulted(result.fault), trace; }
        if result == Answer(NodeScripts.Expired) { expired := expired + 1; }
      }
      assert candidates[..|candidates|] == candidates && times[..|candidates|] == times;
      return Answer(expired), trace;
    }
  }

  lemma NoVisits(k: Keys)
    ensures Visited(k, []) == k && Foreign([]) && Genuine([])
  {
  }

  lemma ForeignTogether(a: seq<Visit>, b: seq<Visit>)
    requires Foreign(a) && Foreign(b)
    ensures Foreign(a + b)
  {
    hide Reachable;
  }

  // ------------------------------------------------------------------------------------------
  // Route resolution.

  /** What one attempt with a current read makes of a keyspace: the state it leaves and the client's answer. */
  ghost predicate Resolves(found: Keys, policy: PlacementScripts.Policy, t: Target, attempt: Attempt, left: Keys,
      r: Response<Route>)
  {
    var s := PlacementScripts.ResolveRoute(found, attempt.server, policy, t, attempt.placementId, ReadTarget(found, t));
    left == s.keys && r == Leases.RouteResult(attempt.start, attempt.end, s.reply)
  }

  lemma UnnamedIsRefused(k: Keys, policy: PlacementScripts.Policy, t: Target, attempt: Attempt)
    requires !TargetNamed(t)
    ensures Resolves(k, policy, t, attempt, k, Refused(InvalidIdentity))
  {
    hide TargetNamed, ReadTarget;
  }

  lemma ConflictsAreAnswered(start: int, end: int, reply: Response<RouteReply>)
    ensures Leases.RouteResult(start, end, reply) == Refused(VersionConflict) <==> reply == Refused(VersionConflict)
  {
  }

  /** A route resolution that is not refused as a conflict used a read that is current. */
  lemma AnswersAreCurrent(k: Keys, earlier: Keys, now: int, policy: PlacementScripts.Policy, t: Target,
      placementId: string, seen: Option<Placement>)
    requires Reachable(k) && Reachable(earlier) && TargetNamed(t) && seen == ReadTarget(earlier, t)
    ensures var r := PlacementScripts.ResolveRoute(k, now, policy, t, placementId, seen);
            && Reachable(r.keys)
            && (r.reply == Refused(VersionConflict) ==> r.keys == k)
            && (r.reply != Refused(VersionConflict) ==> seen == ReadTarget(k, t))
  {
    hide Reachable, PlacementScripts.ResolveRoute, TargetNamed, NewGrainKey, SelectionRefinement.CountersBelow;
    ReadsAreGood(earlier, "", "", t);
    PlacementRefinement.ResolveRefines(k, now, policy, t, placementId, seen);
    PlacementRefinement.TargetNames(EMPTY_WORLD, now, t, placementId, None);
  }
}

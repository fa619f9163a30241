/** Requests of several clients one after the other, as one client observes them. */
module RedisTraces {
  import opened Types
  import opened Keyspace
  import opened Protocol
  import opened RedisInvariant
  import opened RedisRuns
  import PlacementScripts

  /** A request that ran at the server: the keyspace its client had read, and whether it is the observed client's. */
  datatype Visit = Visit(mine: bool, earlier: Keys, ttl: int, policy: PlacementScripts.Policy, now: int,
      request: Request)

  ghost function EndingOf(k: Keys, v: Visit): Ending {
    RStep(k, v.earlier, v.ttl, v.now, v.policy, v.request)
  }

  /** The keyspace after some requests. */
  ghost function Visited(k: Keys, trace: seq<Visit>): Keys {
    if trace == [] then k else EndingOf(Visited(k, trace[..|trace| - 1]), trace[|trace| - 1]).keys
  }

  /** The observed client's own requests. */
  function Mine(trace: seq<Visit>): seq<Visit> {
    if trace == [] then []
    else Mine(trace[..|trace| - 1]) + if trace[|trace| - 1].mine then [trace[|trace| - 1]] else []
  }

  ghost predicate Genuine(trace: seq<Visit>) {
    forall i :: 0 <= i < |trace| ==> Reachable(trace[i].earlier) && trace[i].ttl > 0
  }

  ghost predicate Foreign(trace: seq<Visit>) {
    Genuine(trace) && forall i :: 0 <= i < |trace| ==> !trace[i].mine
  }

  lemma {:induction false} VisitedIsReachable(k: Keys, trace: seq<Visit>)
    requires Reachable(k) && Genuine(trace)
    ensures Reachable(Visited(k, trace))
  {
    hide Reachable, Abs, RStep, Step, Shadow;
    if trace != [] {
      var init, v := trace[..|trace| - 1], trace[|trace| - 1];
      VisitedIsReachable(k, init);
      RStepFollows(Visited(k, init), v.earlier, v.ttl, v.now, v.policy, v.request);
    }
  }

  lemma VisitedMore(k: Keys, trace: seq<Visit>, v: Visit)
    ensures Visited(k, trace + [v]) == EndingOf(Visited(k, trace), v).keys
    ensures Mine(trace + [v]) == Mine(trace) + if v.mine then [v] else []
  {
    assert (trace + [v])[..|trace|] == trace;
  }

  lemma {:induction false} VisitedOn(k: Keys, trace: seq<Visit>, more: seq<Visit>)
    ensures Visited(k, trace + more) == Visited(Visited(k, trace), more)
    ensures Mine(trace + more) == Mine(trace) + Mine(more)
    decreases |more|
  {
    if more == [] {
      assert trace + more == trace;
    } else {
      var init, v := more[..|more| - 1], more[|more| - 1];
      assert trace + more == (trace + init) + [v] && more == init + [v];
      VisitedOn(k, trace, init);
      VisitedMore(k, trace + init, v);
      VisitedMore(Visited(k, trace), init, v);
    }
  }

  lemma {:induction false} ForeignIsNotMine(trace: seq<Visit>)
    requires forall i :: 0 <= i < |trace| ==> !trace[i].mine
    ensures Mine(trace) == []
  {
    if trace != [] { ForeignIsNotMine(trace[..|trace| - 1]); }
  }
}

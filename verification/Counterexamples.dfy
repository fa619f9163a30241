/** Concrete states at which the code departs from what its documentation suggests, each beside the exact condition
    under which it does. */
module Counterexamples {
  import opened Types
  import opened Naming
  import opened Decimal
  import opened Keyspace
  import opened Protocol
  import opened RedisInvariant
  import opened NodeRefinement
  import opened SelectionRefinement
  import opened PlacementRefinement
  import opened PlacementScripts
  import opened ProtocolRuns
  import opened Leases
  import MutationRefinement
  import NodeScripts
  import RedisRoutes
  import RoundRobin
  import Schedule

  // ------------------------------------------------------------------------------------------
  // One node, one grain.

  const HOST := Node("t", "g", "n", "t/g/n", "s", "", 0, ZERO_METRICS, Active, Lease(0, 0, 0))
  const TTL := 1000
  const GRAIN := Target("k", "1", "t", "g")
  const KEY := "k/1"
  const POLICY := Policy(Schedule.RoundRobinMode, Schedule.Config(0, 0, 0, 0))

  /** A keyspace with one registered node. */
  function OneNode(): Keys {
    NodeScripts.Register(EMPTY_KEYS, TTL, 0, HOST).keys
  }

  /** The first resolution of a grain there. */
  ghost function Resolution(): Ran<RouteReply> {
    PlacementScripts.ResolveRoute(OneNode(), 0, POLICY, GRAIN, "p", None)
  }

  lemma Names()
    ensures NormalizedNode(HOST) && TargetNamed(GRAIN) && NewGrainKey("k", "1") == Some(KEY)
    ensures GroupOfIdentity(HOST.identity) == GRAIN.GroupOf() && NodeName(HOST.identity) == "n"
  {
    hide NodeType, NodeGroup, NodeName;
    assert "t" + "/" + "g" + "/" + "n" == "t/g/n" && "k" + "/" + "1" == "k/1";
    IdentityRoundTrip("t", "g", "n");
  }

  /** A node of another group. */
  const OTHER := HOST.(nodeGroup := "h", identity := "t/h/n")

  lemma OtherIsNormalized()
    ensures NormalizedNode(OTHER) && OTHER.GroupOf() != HOST.GroupOf() && OTHER.identity != HOST.identity
  {
    assert "t" + "/" + "h" + "/" + "n" == "t/h/n";
    assert OTHER.identity[2] != HOST.identity[2];
  }

  lemma OneNodeIsReachable()
    ensures Reachable(OneNode())
    ensures Abs(OneNode()) == EMPTY_WORLD.(nodes := map[HOST.identity := Enrolled(HOST, TTL, 0)])
  {
    hide Reachable, Abs, Emitted, NodeScripts.Register, NormalizedNode;
    EmptyIsReachable();
    Names();
    RegisterRefines(EMPTY_KEYS, TTL, 0, HOST);
  }

  lemma OneNodeCounts()
    ensures CountersBelow(OneNode(), GRAIN.GroupOf())
  {
    hide NormalizedNode;
  }

  lemma HostIsEligible()
    ensures Candidates(Abs(OneNode()), 0, GRAIN.GroupOf()) == {HOST.identity}
  {
    hide Reachable, Abs, OneNode;
    OneNodeIsReachable();
  }

  lemma ResolutionAnswers()
    ensures Reachable(OneNode()) && Reachable(Resolution().keys) && Resolution().reply.Answer?
    ensures Resolution().keys != OneNode()
    ensures Resolution().reply.value.remaining == TTL
    ensures var p := NewPlacement(GRAIN, KEY, "p", HOST, 0);
            && Load(Resolution().keys.placement, KEY) == Loaded(p)
            && Abs(Resolution().keys) == Create(Abs(OneNode()), p)
  {
    hide Reachable, Abs, OneNode, PlacementScripts.ResolveRoute, PlacementScripts.Select, Candidates, CountersBelow,
         NewGrainKey, TargetNamed, Emitted, GroupOfIdentity, NodeName;
    var k, w := OneNode(), Abs(OneNode());
    Names();
    OneNodeIsReachable();
    OneNodeCounts();
    HostIsEligible();
    RoundRobin.RoundRobinSelects(k, 0, POLICY, GRAIN.GroupOf(), true);
    SelectionIsAvailable(k, 0, POLICY, GRAIN.GroupOf(), true);
    StoredPlacement(k, KEY);
    ResolveRefines(k, 0, POLICY, GRAIN, "p", None);
    RedisRoutes.WritesForTheUnroutable(k, 0, POLICY, GRAIN, "p", None);
    StoredPlacement(Resolution().keys, KEY);
  }

  // ------------------------------------------------------------------------------------------
  // The departures.

  /** A resolution creates a placement and its caller is told that the owner is unavailable, because the answer took as
      long as the lease. RedisRoutes.FailuresThatWrote says exactly when. */
  lemma LateResolutionWritesAndFails()
    ensures Reachable(OneNode()) && Resolution().keys != OneNode()
    ensures Load(OneNode().placement, KEY).Missing? && Load(Resolution().keys.placement, KEY).Loaded?
    ensures RouteResult(0, TTL * MICROS_PER_MILLI, Resolution().reply) == Refused(OwnerUnavailable)
  {
    hide Reachable, Abs, OneNode, Resolution, NewGrainKey;
    ResolutionAnswers();
    OneNodeIsReachable();
    StoredPlacement(OneNode(), KEY);
    RedisRoutes.FailuresThatWrote(OneNode(), 0, POLICY, GRAIN, "p", None, 0, TTL * MICROS_PER_MILLI);
    assert Resolution() == PlacementScripts.ResolveRoute(OneNode(), 0, POLICY, GRAIN, "p", None) by { ResolutionIs(); }
  }

  lemma ResolutionIs()
    ensures Resolution() == PlacementScripts.ResolveRoute(OneNode(), 0, POLICY, GRAIN, "p", None)
  {
    hide OneNode, PlacementScripts.ResolveRoute;
  }

  /** The same keyspace with the sequence at its maximum. */
  function AtMaximum(k: Keys): Keys {
    k.(sequence := Some(Holds(MaxSequence())))
  }

  lemma MaximumIsReachable(k: Keys)
    requires Reachable(k)
    ensures Reachable(AtMaximum(k)) && Abs(AtMaximum(k)) == Abs(k)
    ensures CounterValue(AtMaximum(k).sequence) == MAX_EXACT_INTEGER
  {
    hide Valid, Registered, Leased, Scored, OwnKeys, AllHold, NoEmptyZSet, NoEmptyCellSet, MaxSequence;
    ScoresStayBelow(k.index, CounterValue(k.sequence), MAX_EXACT_INTEGER);
  }

  lemma ScoresStayBelow(f: map<string, Cell<map<string, int>>>, sequence: nat, maximum: nat)
    requires Scored(f, sequence) && sequence <= maximum
    ensures Scored(f, maximum)
  {
    hide Score;
  }

  /** At the sequence maximum every release that the in-process directory would accept is refused. */
  lemma ReleaseAtMaximumIsRefused(k: Keys, now: int, c: Claim)
    requires Reachable(k) && Protocol.Release(Abs(k), now, c).reply.Ok?
    ensures var full := AtMaximum(k);
            var seen := match Load(k.placement, c.grainKey) case Loaded(p) => Some(p) case _ => None;
            var script := Mutate(full, now, c.grainKey, c.placementId, c.version,
                ReleaseMutation(c.nodeIdentity, c.session), seen);
            && Reachable(full) && Abs(full) == Abs(k)
            && Unmoved(full, c.grainKey, seen) && script == Ran(full, Faulted(InvalidCounter))
  {
    hide Reachable, Abs, PlacementScripts.Release, MoveTo, NodeType, NodeGroup, NodeName, MaxSequence, Emitted;
    MaximumIsReachable(k);
    FamiliesHold(AtMaximum(k));
    StoredPlacement(k, c.grainKey);
    StoredNode(AtMaximum(k), c.nodeIdentity);
    StoredNode(AtMaximum(k), "");
    SequenceReads(AtMaximum(k));
    MutationRefinement.ReleaseMatches(Abs(k), now, c);
  }

  lemma ReleaseRefusedAtMaximum()
    ensures var k := Resolution().keys;
            var p := NewPlacement(GRAIN, KEY, "p", HOST, 0);
            && Reachable(AtMaximum(k))
            && Protocol.Release(Abs(AtMaximum(k)), 0, Claim(KEY, "p", HOST.identity, HOST.session, 1)).reply.Ok?
            && Mutate(AtMaximum(k), 0, KEY, "p", 1, ReleaseMutation(HOST.identity, HOST.session), Some(p)).reply
                  == Faulted(InvalidCounter)
  {
    hide Reachable, Abs, OneNode, Resolution, AtMaximum, Mutate, AddIndex, DropIndex;
    ResolutionAnswers();
    OneNodeIsReachable();
    ReleaseAtMaximumIsRefused(Resolution().keys, 0, Claim(KEY, "p", HOST.identity, HOST.session, 1));
  }

  /** A successful removal leaves placements of the node behind exactly when it is unguarded and the node owns some. */
  lemma RemovalLeavesPlacements(w: World, identity: string, session: string, guarded: bool)
    requires Valid(w) && Protocol.Unregister(w, identity, session, guarded).reply.Ok?
    ensures var w' := Protocol.Unregister(w, identity, session, guarded).world;
            && identity !in w'.nodes
            && ((exists key :: key in w'.placements && w'.placements[key].nodeIdentity == identity)
                <==> (!guarded && Owned(w.byNode, identity) != {}))
  {
    if Owned(w.byNode, identity) != {} {
      var key :| key in Owned(w.byNode, identity);
      assert key in w.placements && w.placements[key].nodeIdentity == identity;
    }
    hide GoodPlacement, GoodNode;
  }

  lemma UnregistrationLeavesAPlacement()
    ensures var w := Abs(Resolution().keys);
            var o := Protocol.Unregister(w, HOST.identity, HOST.session, false);
            && o.reply.Ok? && HOST.identity !in o.world.nodes
            && KEY in o.world.placements && o.world.placements[KEY].nodeIdentity == HOST.identity
            && Protocol.Unregister(w, HOST.identity, HOST.session, true).reply == Err(NodeHasPlacements)
  {
    hide Reachable, Abs, OneNode, Resolution, DropIndex;
    ResolutionAnswers();
    OneNodeIsReachable();
  }

  /** A drain is completed exactly for the registered session of a node that owns nothing, whatever its status and
      whether or not its name is marked. */
  lemma DrainCompletesExactly(w: World, ttl: int, now: int, identity: string, session: string)
    requires Valid(w)
    ensures Step(w, ttl, now, CCompleteDrain(identity, session)).ok <==>
              && identity in w.nodes && w.nodes[identity].session == session
              && !exists key :: key in w.placements && w.placements[key].nodeIdentity == identity
  {
    if Owned(w.byNode, identity) != {} {
      var key :| key in Owned(w.byNode, identity);
      assert key in w.placements && w.placements[key].nodeIdentity == identity;
    }
    assert forall key :: key in w.placements ==> key in Owned(w.byNode, w.placements[key].nodeIdentity);
    hide GoodPlacement, GoodNode, NoEmptySet;
  }

  /** A drain is completed for a node that is active and not marked invalid. */
  lemma DrainCompletesWhileActive()
    ensures var w := Abs(OneNode());
            && HOST.identity in w.nodes && w.nodes[HOST.identity].status == Active && !Barred(w, HOST.identity)
            && Step(w, TTL, 0, CCompleteDrain(HOST.identity, HOST.session)).ok
  {
    hide Reachable, Abs, OneNode, NodeType, NodeGroup, NodeName;
    OneNodeIsReachable();
  }

  /** A grain moves to a node of another group, from an owner that is still usable. */
  lemma TransferCrossesGroups()
    ensures var w := RegisterNode(Abs(Resolution().keys), TTL, 0, OTHER).world;
            var o := Protocol.Transfer(w, 0, KEY, "p", HOST.identity, OTHER.identity, 1);
            && Protocol.Lookup(w, 0, KEY).Ok? && o.reply.Ok? && o.reply.value.nodeIdentity == OTHER.identity
            && OTHER.GroupOf() != HOST.GroupOf()
  {
    hide Reachable, Abs, OneNode, Resolution, AddIndex, DropIndex, NormalizedNode;
    OtherIsNormalized();
    ResolutionAnswers();
    OneNodeIsReachable();
  }

  /** An allocation whose client read too early is refused, where the in-process one answers the placement. */
  lemma StaleAllocationIsRefused()
    ensures var k := Resolution().keys;
            && PlacementScripts.Allocate(k, 0, POLICY, GRAIN, "q", None).reply == Refused(VersionConflict)
            && AllocateAtOnce(Abs(k), 0, GRAIN, "q", None).reply == Ok(NewPlacement(GRAIN, KEY, "p", HOST, 0))
  {
    hide Reachable, Abs, OneNode, Resolution, PlacementScripts.Allocate, NewGrainKey, AddIndex, DropIndex, Emitted,
         CountersBelow, InputFor;
    Names();
    ResolutionAnswers();
    OneNodeIsReachable();
    AllocateRefines(Resolution().keys, 0, POLICY, GRAIN, "q", None);
  }
}

/** Fairness of the scripts' round-robin mode over runs of the Redis backend: picks that follow one another select
    every eligible node once, whatever other requests, clocks and placement counts come in between. */
module RoundRobin {
  import opened Types
  import opened Naming
  import opened Ordering
  import opened Decimal
  import opened Keyspace
  import opened Protocol
  import opened RedisInvariant
  import opened SelectionRefinement
  import opened PlacementScripts
  import opened RedisRuns
  import RedisAtomicity
  import opened NodeRefinement
  import opened PlacementRefinement
  import NodeScripts
  import Schedule

  /** The turn a group's round-robin counter stands at. */
  function Turn(k: Keys, g: Group): nat {
    CounterValue(CellAt(k.roundRobin, g))
  }

  function OwnerAt(k: Keys, key: string): Option<string> {
    match Load(k.placement, key) case Loaded(p) => Some(p.nodeIdentity) case _ => None
  }

  lemma KeyOrders()
    ensures forall a, b :: IsBytes(a) && IsBytes(b) && KeyLess(a, b) ==> StringLess(Encode(a), Encode(b))
  {
    hide Encode, IsBytes, KeyLess;
    forall a, b | IsBytes(a) && IsBytes(b) && KeyLess(a, b)
      ensures StringLess(Encode(a), Encode(b))
    {
      KeyOrderIsByEncoding(a, b);
    }
  }

  function InKeyOrder(ids: set<string>): (order: seq<string>)
    ensures |order| == |ids|
    ensures forall id :: id in order <==> id in ids
    ensures forall i, j :: 0 <= i < j < |order| && IsBytes(order[i]) && IsBytes(order[j]) ==>
              StringLess(Encode(order[i]), Encode(order[j]))
  {
    KeyLessTotal();
    KeyOrders();
    Sorted(ids, KeyLess)
  }

  /** The eligible node at a turn, in encoded-key order. */
  function AtTurn(ids: set<string>, turn: nat): string
    requires ids != {}
  {
    InKeyOrder(ids)[PickIndex(turn, 0, |ids|)]
  }

  /** A request selected a node: it created the grain's placement or moved it to another node. */
  predicate Selects(k: Keys, r: Keys, c: Request) {
    && (c.RAllocate? || c.RResolve?)
    && var named := NewGrainKey(c.target.kind, c.target.grainId);
       named.Some? && OwnerAt(r, named.value) != OwnerAt(k, named.value)
  }

  /** One turn passed; in round-robin mode the new owner is the eligible node at the turn that passed. */
  ghost predicate TurnTaken(k: Keys, r: Keys, now: int, policy: Policy, g: Group, owner: Option<string>) {
    && Turn(r, g) == Turn(k, g) + 1
    && var eligible := Candidates(Abs(k), now, g);
       policy.mode == Schedule.RoundRobinMode ==> eligible != {} && owner == Some(AtTurn(eligible, Turn(k, g)))
  }

  /** A group's turn passes exactly when a request for the group selects a node. */
  ghost predicate TurnsBySelection(k: Keys, r: Keys, now: int, policy: Policy, c: Request, g: Group) {
    if Selects(k, r, c) && c.target.GroupOf() == g
    then TurnTaken(k, r, now, policy, g, OwnerAt(r, NewGrainKey(c.target.kind, c.target.grainId).value))
    else Turn(r, g) == Turn(k, g)
  }

  // ------------------------------------------------------------------------------------------
  // One request.

  /** The script's candidates stand in encoded-key order, whatever their placement counts are. */
  lemma CandidatesAreSorted(k: Keys, now: int, g: Group, checked: bool)
    requires Reachable(k)
    ensures var gathered, order := Gather(k, now, g, NodeKeys(k, g), checked), InKeyOrder(Candidates(Abs(k), now, g));
            && gathered.Gathered? && |gathered.candidates| == |order|
            && forall i :: 0 <= i < |order| ==> gathered.candidates[i].indexKey == order[i]
  {
    hide Reachable, Abs, KeyLess, NodeKeys, Gather, Candidates;
    var eligible := Candidates(Abs(k), now, g);
    ScriptListsTheAvailable(k, now, g, checked);
    var cs := Gather(k, now, g, NodeKeys(k, g), checked).candidates;
    var ids := seq(|cs|, i requires 0 <= i < |cs| => cs[i].indexKey);
    forall id
      ensures id in ids <==> id in eligible
    {
      if id in eligible {
        var c :| c in cs && c.indexKey == id;
        var i :| 0 <= i < |cs| && cs[i] == c;
        assert ids[i] == id;
      }
    }
    KeyLessTotal();
    SortedIsUnique(eligible, ids, KeyLess);
  }

  /** The script's round-robin choice is the eligible node at the turn. */
  lemma ChoiceIsAtTurn(k: Keys, now: int, policy: Policy, g: Group, checked: bool)
    requires Reachable(k) && policy.mode == Schedule.RoundRobinMode
    requires PlacementScripts.Select(k, now, policy, g, checked).Selected?
    ensures var s, eligible := PlacementScripts.Select(k, now, policy, g, checked), Candidates(Abs(k), now, g);
            eligible != {} && s.candidate.node.identity == AtTurn(eligible, Value(s.turn))
  {
    hide Reachable, Abs, NodeKeys, Gather, ReadCounter, MaxRoundRobin, MaxSequence, Candidates, InKeyOrder;
    CandidatesAreSorted(k, now, g, checked);
    SelectionIsAvailable(k, now, policy, g, checked);
  }

  /** With an eligible node and counters below their maxima, round robin selects. */
  lemma RoundRobinSelects(k: Keys, now: int, policy: Policy, g: Group, checked: bool)
    requires Reachable(k) && policy.mode == Schedule.RoundRobinMode && Candidates(Abs(k), now, g) != {}
    requires CountersBelow(k, g)
    ensures PlacementScripts.Select(k, now, policy, g, checked).Selected?
  {
    hide Reachable, Abs, NodeKeys, Gather, ReadCounter, MaxRoundRobin, MaxSequence, Candidates, CountersBelow;
    ScriptListsTheAvailable(k, now, g, checked);
    SelectionIsAvailable(k, now, policy, g, checked);
  }

  lemma TurnRead(k: Keys, g: Group, turn: string)
    requires ReadCounter(CellAt(k.roundRobin, g), MaxRoundRobin()) == Some(turn)
    ensures Canonical(turn) && Turn(k, g) == Value(turn)
  {
    hide MaxRoundRobin;
    if g in k.roundRobin && k.roundRobin[g].Holds? { CounterAcceptedIff(k.roundRobin[g].value, MaxRoundRobin()); }
  }

  lemma CommitTurns(k: Keys, now: int, policy: Policy, t: Group, checked: bool, prior: Option<string>, p: Placement,
      e: Event, g: Group)
    requires Reachable(k) && PlacementScripts.Select(k, now, policy, t, checked).Selected? && k.events.Holds?
    requires prior.Some? ==> CollectionOk(k.index, prior.value)
    requires p.nodeIdentity == PlacementScripts.Select(k, now, policy, t, checked).candidate.node.identity
    ensures var s := PlacementScripts.Select(k, now, policy, t, checked);
            && CollectionOk(k.index, s.candidate.indexKey)
            && var r := Commit(k, t, s, prior, p, e);
               && OwnerAt(r, p.grainKey) == Some(p.nodeIdentity)
               && (if t == g then TurnTaken(k, r, now, policy, g, Some(p.nodeIdentity)) else Turn(r, g) == Turn(k, g))
  {
    hide Reachable, Abs, PlacementScripts.Select, ZAdd, ZRem, ReadCounter, MaxRoundRobin, Candidates, AtTurn;
    var s := PlacementScripts.Select(k, now, policy, t, checked);
    RedisAtomicity.CommitTakesATurn(k, now, policy, t, checked, prior, p, e, g);
    TurnRead(k, t, s.turn);
    if policy.mode == Schedule.RoundRobinMode { ChoiceIsAtTurn(k, now, policy, t, checked); }
  }

  lemma AllocationTurns(k: Keys, now: int, policy: Policy, t: Target, id: string, seen: Option<Placement>, g: Group)
    requires Reachable(k)
    ensures TurnsBySelection(k, PlacementScripts.Allocate(k, now, policy, t, id, seen).keys, now, policy,
            RAllocate(t, id), g)
  {
    hide Reachable, Abs, PlacementScripts.Select, Commit, LiveOwner, NewGrainKey, Candidates, AtTurn, TurnTaken, Turn,
         GroupOfIdentity;
    var named := NewGrainKey(t.kind, t.grainId);
    if named.Some? {
      StoredPlacement(k, named.value);
      var s := PlacementScripts.Select(k, now, policy, t.GroupOf(), false);
      if Load(k.placement, named.value).Missing? && s.Selected?
          && AllocateTypesOk(k, named.value, t.GroupOf(), OwnerOf(seen)) {
        var p := NewPlacement(t, named.value, id, s.candidate.node, now);
        CommitTurns(k, now, policy, t.GroupOf(), false, None, p, PlacementEvent(p, PlacementCreated), g);
      }
    }
  }

  lemma CreationTurns(k: Keys, now: int, policy: Policy, t: Target, key: string, id: string, g: Group)
    requires Reachable(k) && k.events.Holds? && NewGrainKey(t.kind, t.grainId) == Some(key)
    requires Load(k.placement, key).Missing?
    ensures TurnsBySelection(k, ResolveNew(k, now, policy, t, key, id, None).keys, now, policy, RResolve(t, id), g)
  {
    hide Reachable, Abs, PlacementScripts.Select, Commit, NewGrainKey, Candidates, AtTurn, TurnTaken, Turn;
    var s := PlacementScripts.Select(k, now, policy, t.GroupOf(), true);
    if s.Selected? {
      var p := NewPlacement(t, key, id, s.candidate.node, now);
      var e := PlacementEvent(p, PlacementCreated).(leaseVersion := s.candidate.node.lease.version);
      CommitTurns(k, now, policy, t.GroupOf(), true, None, p, e, g);
    }
  }

  /** A node whose name is marked invalid is not selected. */
  lemma SelectionLeavesTheBarred(k: Keys, now: int, policy: Policy, g: Group, checked: bool, owner: string)
    requires Reachable(k) && PlacementScripts.Select(k, now, policy, g, checked).Selected?
    requires GroupOfIdentity(owner) == g && NodeName(owner) in Members(k.invalid, g)
    ensures PlacementScripts.Select(k, now, policy, g, checked).candidate.node.identity != owner
  {
    hide Reachable, Abs, PlacementScripts.Select, NodeType, NodeGroup, NodeName, Members, NameInvalid;
    SelectionIsAvailable(k, now, policy, g, checked);
    var id := PlacementScripts.Select(k, now, policy, g, checked).candidate.indexKey;
    StoredNode(k, id);
    NamesMatch(k, g, NodeName(owner));
  }

  lemma ElsewhereTurns(k: Keys, now: int, policy: Policy, t: Target, key: string, p: Placement, id: string, g: Group)
    requires Reachable(k) && k.events.Holds? && NewGrainKey(t.kind, t.grainId) == Some(key)
    requires Load(k.placement, key) == Loaded(p)
    requires p.grainKey == key && CollectionOk(k.index, p.nodeIdentity)
    requires GroupOfIdentity(p.nodeIdentity) == t.GroupOf()
    ensures TurnsBySelection(k, ResolveElsewhere(k, now, policy, t, p).keys, now, policy, RResolve(t, id), g)
  {
    hide Reachable, Abs, PlacementScripts.Select, Commit, NewGrainKey, Candidates, AtTurn, TurnTaken, Turn, NodeType,
         NodeGroup, NodeName, Members;
    var s := PlacementScripts.Select(k, now, policy, t.GroupOf(), true);
    if s.Selected? && NodeName(p.nodeIdentity) in Members(k.invalid, t.GroupOf()) {
      var moved := Moved(p, s.candidate.node, now);
      var e := PlacementEvent(moved, PlacementRecovered).(leaseVersion := s.candidate.node.lease.version);
      SelectionLeavesTheBarred(k, now, policy, t.GroupOf(), true, p.nodeIdentity);
      CommitTurns(k, now, policy, t.GroupOf(), true, Some(p.nodeIdentity), moved, e, g);
    }
  }

  lemma OwnedTurns(k: Keys, now: int, policy: Policy, t: Target, key: string, p: Placement, id: string, g: Group)
    requires Reachable(k) && k.events.Holds? && NewGrainKey(t.kind, t.grainId) == Some(key)
    requires Load(k.placement, key) == Loaded(p)
    requires p.grainKey == key && CollectionOk(k.index, p.nodeIdentity)
    ensures TurnsBySelection(k, ResolveOwned(k, now, policy, t, p).keys, now, policy, RResolve(t, id), g)
  {
    hide Reachable, Abs, ResolveElsewhere, LiveOwner, NewGrainKey, TurnTaken, NodeType, NodeGroup, NodeName;
    if GroupOfIdentity(p.nodeIdentity) == t.GroupOf() { ElsewhereTurns(k, now, policy, t, key, p, id, g); }
    hide GroupOfIdentity;
    StoredNode(k, p.nodeIdentity);
  }

  lemma ResolutionTurns(k: Keys, now: int, policy: Policy, t: Target, id: string, seen: Option<Placement>, g: Group)
    requires Reachable(k)
    ensures TurnsBySelection(k, PlacementScripts.ResolveRoute(k, now, policy, t, id, seen).keys, now, policy,
            RResolve(t, id), g)
  {
    hide Reachable, Abs, ResolveOwned, ResolveNew, NewGrainKey, TurnTaken, NodeType, NodeGroup, NodeName,
         GroupOfIdentity;
    var named := NewGrainKey(t.kind, t.grainId);
    if named.Some? && AllocateTypesOk(k, named.value, t.GroupOf(), OwnerOf(seen)) && Unmoved(k, named.value, seen) {
      StoredPlacement(k, named.value);
      if seen.Some? {
        OwnedTurns(k, now, policy, t, named.value, seen.value, id, g);
      } else {
        CreationTurns(k, now, policy, t, named.value, id, g);
      }
    }
  }

  lemma MutationKeepsTurns(k: Keys, now: int, key: string, id: string, version: int, m: Mutation,
      seen: Option<Placement>)
    ensures Mutate(k, now, key, id, version, m, seen).keys.roundRobin == k.roundRobin
  {
    hide GroupOfIdentity, NodeType, NodeName, Unmoved, ReadCounter, MaxSequence, MoveTo, PlacementScripts.Release,
         StringOk;
    var sequence := ReadCounter(k.sequence, MaxSequence());
    if seen.Some? && MutateTypesOk(k, key, OwnerOf(seen), TargetOf(m)) && sequence.Some? {
      if m.ReleaseMutation? {
        ReleaseKeepsTurns(k, now, m, seen.value);
      } else {
        MoveKeepsTurns(k, now, m, seen.value, sequence.value);
      }
    }
  }

  lemma ReleaseKeepsTurns(k: Keys, now: int, m: Mutation, p: Placement)
    requires m.ReleaseMutation? && k.events.Holds? && CollectionOk(k.index, p.nodeIdentity)
    ensures PlacementScripts.Release(k, now, m, p).keys.roundRobin == k.roundRobin
  {
    hide GroupOfIdentity, NodeName, ZRem, Append;
  }

  lemma MoveKeepsTurns(k: Keys, now: int, m: Mutation, p: Placement, sequence: string)
    requires !m.ReleaseMutation? && k.events.Holds? && Canonical(sequence)
    requires CollectionOk(k.index, p.nodeIdentity) && CollectionOk(k.index, m.to)
    ensures MoveTo(k, now, m, p, sequence).keys.roundRobin == k.roundRobin
  {
    hide Receives, Healthy, ZAdd, ZRem, Increment, Append;
  }

  /** On a reachable keyspace a group's turn passes exactly when a request for the group selects a node, and in
      round-robin mode the selected node is the eligible one at that turn. */
  lemma RequestsTurnBySelection(k: Keys, earlier: Keys, ttl: int, now: int, policy: Policy, c: Request, g: Group)
    requires Reachable(k)
    ensures TurnsBySelection(k, RStep(k, earlier, ttl, now, policy, c).keys, now, policy, c, g)
  {
    hide Reachable, TurnTaken, NodeScripts.Register, NodeScripts.Replace, NodeScripts.RenewNode, NodeScripts.Unregister,
         NodeScripts.Drain, NodeScripts.MarkInvalid, NodeScripts.Restore, NodeScripts.ExpireNode,
         PlacementScripts.Allocate, PlacementScripts.ResolveRoute, PlacementScripts.Renew, PlacementScripts.Mutate,
         NewGrainKey;
    match c
    case RAllocate(t, id) => AllocationTurns(k, now, policy, t, id, ReadTarget(earlier, t), g);
    case RResolve(t, id) => ResolutionTurns(k, now, policy, t, id, ReadTarget(earlier, t), g);
    case RMutate(key, id, version, m) => MutationKeepsTurns(k, now, key, id, version, m, ReadPlacement(earlier, key));
    case _ => RedisAtomicity.NodeRequestsKeepTheIndex(k, earlier, ttl, now, policy, c);
  }

  // ------------------------------------------------------------------------------------------
  // Runs.

  /** At this step a request for the group selects a node. */
  ghost predicate PickAt(run: RRun, g: Group, i: nat)
    requires WellTimed(run) && i < |run.ticks|
  {
    Selects(KeysAt(run, i), KeysAt(run, i + 1), run.ticks[i].request) && run.ticks[i].request.target.GroupOf() == g
  }

  /** The node selected at a picking step: the owner it leaves the named grain with. */
  ghost function Picked(run: RRun, g: Group, i: nat): string
    requires WellTimed(run) && i < |run.ticks| && PickAt(run, g, i)
  {
    var t := run.ticks[i].request.target;
    var owner := OwnerAt(KeysAt(run, i + 1), NewGrainKey(t.kind, t.grainId).value);
    if owner.Some? then owner.value else ""
  }

  ghost predicate PicksNode(run: RRun, g: Group, i: nat, id: string)
    requires WellTimed(run) && i < |run.ticks|
  {
    PickAt(run, g, i) && Picked(run, g, i) == id
  }

  /** The nodes of the group a picking step may select. */
  ghost function EligibleAt(run: RRun, g: Group, i: nat): set<string>
    requires WellTimed(run) && i < |run.ticks|
  {
    Candidates(Abs(KeysAt(run, i)), run.ticks[i].now, g)
  }

  ghost function PicksBetween(run: RRun, g: Group, a: nat, b: nat): nat
    requires WellTimed(run) && a <= b <= |run.ticks|
    decreases b
  {
    if a == b then 0 else PicksBetween(run, g, a, b - 1) + if PickAt(run, g, b - 1) then 1 else 0
  }

  lemma TurnAt(run: RRun, g: Group, i: nat)
    requires WellTimed(run) && i < |run.ticks|
    ensures Turn(KeysAt(run, i + 1), g) == Turn(KeysAt(run, i), g) + if PickAt(run, g, i) then 1 else 0
    ensures PickAt(run, g, i) && run.ticks[i].policy.mode == Schedule.RoundRobinMode ==>
              && EligibleAt(run, g, i) != {}
              && Picked(run, g, i) == AtTurn(EligibleAt(run, g, i), Turn(KeysAt(run, i), g))
  {
    hide RStep, Reachable, Abs, Turn, AtTurn, Candidates, Selects, NewGrainKey, OwnerAt;
    var tick := run.ticks[i];
    ReachableAt(run, i);
    RequestsTurnBySelection(KeysAt(run, i), KeysAt(run, tick.read), tick.ttl, tick.now, tick.policy, tick.request, g);
    assert KeysAt(run, i + 1) == ResultAt(run, i).keys;
  }

  lemma {:induction false} TurnsCountPicks(run: RRun, g: Group, a: nat, b: nat)
    requires WellTimed(run) && a <= b <= |run.ticks|
    ensures Turn(KeysAt(run, b), g) == Turn(KeysAt(run, a), g) + PicksBetween(run, g, a, b)
    decreases b
  {
    hide KeysAt, Turn, PickAt, WellTimed, Picked, EligibleAt, AtTurn;
    if a < b {
      TurnsCountPicks(run, g, a, b - 1);
      TurnAt(run, g, b - 1);
    }
  }

  /** Every number below the count of picks is the number of picks before exactly one of them. */
  lemma {:induction false} NthPick(run: RRun, g: Group, a: nat, b: nat, n: nat) returns (i: nat)
    requires WellTimed(run) && a <= b <= |run.ticks| && n < PicksBetween(run, g, a, b)
    ensures a <= i < b && PickAt(run, g, i) && PicksBetween(run, g, a, i) == n
    decreases b
  {
    hide KeysAt, PickAt, WellTimed;
    if n < PicksBetween(run, g, a, b - 1) { i := NthPick(run, g, a, b - 1, n); } else { i := b - 1; }
  }

  lemma {:induction false} PicksGrow(run: RRun, g: Group, a: nat, i: nat, j: nat)
    requires WellTimed(run) && a <= i < j <= |run.ticks| && PickAt(run, g, i)
    ensures PicksBetween(run, g, a, i) < PicksBetween(run, g, a, j)
    decreases j
  {
    hide KeysAt, PickAt, WellTimed;
    if i + 1 < j { PicksGrow(run, g, a, i, j - 1); }
  }

  /** The window's picks are in round-robin mode and each may select exactly the nodes of one set. */
  ghost predicate SteadyPicks(run: RRun, g: Group, a: nat, b: nat, eligible: set<string>)
    requires WellTimed(run) && a <= b <= |run.ticks|
  {
    forall i :: a <= i < b && PickAt(run, g, i) ==>
      run.ticks[i].policy.mode == Schedule.RoundRobinMode && EligibleAt(run, g, i) == eligible
  }

  /** Every pick of a steady window selects the node at the position its number gives. */
  lemma PickedInOrder(run: RRun, g: Group, a: nat, b: nat, eligible: set<string>, i: nat)
    requires WellTimed(run) && a <= i < b <= |run.ticks| && SteadyPicks(run, g, a, b, eligible) && PickAt(run, g, i)
    ensures eligible != {}
    ensures Picked(run, g, i) == AtTurn(eligible, Turn(KeysAt(run, a), g) + PicksBetween(run, g, a, i))
  {
    hide KeysAt, PickAt, WellTimed, Turn, AtTurn, Picked, EligibleAt;
    TurnsCountPicks(run, g, a, i);
    TurnAt(run, g, i);
  }

  /** Round robin is fair: when a window of a run has as many picks for a group as there are eligible nodes, and
      these stay the same, every eligible node is selected at exactly one of them. */
  lemma EveryNodeIsPickedOnce(run: RRun, g: Group, a: nat, b: nat, eligible: set<string>, id: string)
    requires WellTimed(run) && a <= b <= |run.ticks| && SteadyPicks(run, g, a, b, eligible)
    requires PicksBetween(run, g, a, b) == |eligible| && id in eligible
    ensures exists i :: a <= i < b && PicksNode(run, g, i, id)
    ensures forall i, j :: a <= i < b && a <= j < b && PicksNode(run, g, i, id) && PicksNode(run, g, j, id) ==> i == j
  {
    hide *;
    var start, n := Turn(KeysAt(run, a), g), |eligible|;
    var position := TurnOf(eligible, id);
    ConsecutivePicksCoverOnce(start, n, position);
    var m: nat :| m < n && PickIndex(start, m, n) == position;
    PickedLater(start, m, n);
    AtPosition(eligible, start + m, position);
    var i := NthPick(run, g, a, b, m);
    PickedInOrder(run, g, a, b, eligible, i);
    PicksIt(run, g, i, id);
    forall i, j | a <= i < b && a <= j < b && PicksNode(run, g, i, id) && PicksNode(run, g, j, id)
      ensures i == j
    {
      SamePick(run, g, a, b, eligible, id, i, j);
    }
  }

  lemma PicksIt(run: RRun, g: Group, i: nat, id: string)
    requires WellTimed(run) && i < |run.ticks|
    ensures PicksNode(run, g, i, id) <==> PickAt(run, g, i) && Picked(run, g, i) == id
  {
    hide KeysAt, WellTimed, PickAt, Picked;
  }

  lemma SamePick(run: RRun, g: Group, a: nat, b: nat, eligible: set<string>, id: string, i: nat, j: nat)
    requires WellTimed(run) && a <= i < b <= |run.ticks| && a <= j < b && SteadyPicks(run, g, a, b, eligible)
    requires PicksBetween(run, g, a, b) == |eligible| && PicksNode(run, g, i, id) && PicksNode(run, g, j, id)
    ensures i == j
  {
    hide *;
    PicksIt(run, g, i, id);
    PicksIt(run, g, j, id);
    PickedInOrder(run, g, a, b, eligible, i);
    PickedInOrder(run, g, a, b, eligible, j);
    PicksGrow(run, g, a, i, b);
    PicksGrow(run, g, a, j, b);
    var start, first, second := Turn(KeysAt(run, a), g), PicksBetween(run, g, a, i), PicksBetween(run, g, a, j);
    SameTurnNode(eligible, start, first, second);
    ConsecutivePicksCoverOnce(start, |eligible|, PickIndex(start, first, |eligible|));
    if i < j { PicksGrow(run, g, a, i, j); }
    if j < i { PicksGrow(run, g, a, j, i); }
  }

  lemma TurnOf(ids: set<string>, id: string) returns (position: nat)
    requires id in ids
    ensures position < |ids| && AtTurn(ids, position) == id
  {
    hide InKeyOrder;
    assert id in InKeyOrder(ids);
    position :| position < |ids| && InKeyOrder(ids)[position] == id;
    DivisionUnique(position, |ids|, 0, position);
  }

  lemma PickedLater(start: nat, m: nat, n: nat)
    requires n > 0
    ensures PickIndex(start + m, 0, n) == PickIndex(start, m, n)
  {
  }

  lemma AtPosition(ids: set<string>, turn: nat, position: nat)
    requires position < |ids| && PickIndex(turn, 0, |ids|) == position
    ensures AtTurn(ids, turn) == AtTurn(ids, position)
  {
    hide InKeyOrder;
    DivisionUnique(position, |ids|, 0, position);
  }

  /** Two turns give one node exactly when they are at one position. */
  lemma SameTurnNode(ids: set<string>, start: nat, i: nat, j: nat)
    requires ids != {}
    ensures AtTurn(ids, start + i) == AtTurn(ids, start + j)
            <==> PickIndex(start, i, |ids|) == PickIndex(start, j, |ids|)
  {
    hide KeyLess;
    KeyLessTotal();
    SortedIsInjective(Sorted(ids, KeyLess), KeyLess, PickIndex(start, i, |ids|), PickIndex(start, j, |ids|));
  }
}

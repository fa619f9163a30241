/** Whole runs of the Redis backend: every client reads at one moment and runs its script at a later one, with any
    other scripts in between. Each run follows a run of the in-process protocol, so the theorems about those runs
    hold for Redis. */
module RedisRuns {
  import opened Types
  import opened Naming
  import opened Decimal
  import opened Keyspace
  import opened Protocol
  import opened ProtocolRuns
  import opened RedisInvariant
  import opened NodeRefinement
  import opened SelectionRefinement
  import opened PlacementRefinement
  import opened MutationRefinement
  import NodeScripts
  import PlacementScripts

  datatype Request =
    | RRegister(node: Node)
    | RReplace(node: Node)
    | RRenewNode(identity: string, session: string, metrics: Option<Metrics>)
    | RUnregister(identity: string, session: string, guarded: bool)
    | RDrain(identity: string)
    | RMarkInvalid(nodeType: string, nodeGroup: string, nodeName: string)
    | RRestore(nodeType: string, nodeGroup: string, nodeName: string)
    | RExpire(identity: string, group: Group, score: int)
    | RAllocate(target: Target, placementId: string)
    | RResolve(target: Target, placementId: string)
    | RRenew(claim: Claim)
    | RMutate(grainKey: string, placementId: string, version: int, mutation: PlacementScripts.Mutation)

  /** What a client learns from one read of a placement or node record. */
  function ReadPlacement(k: Keys, key: string): Option<Placement> {
    match Load(k.placement, key) case Loaded(p) => Some(p) case _ => None
  }

  function ReadNode(k: Keys, id: string): Option<Node> {
    match Load(k.node, id) case Loaded(rn) => Some(rn.node) case _ => None
  }

  function ReadRecord(k: Keys, id: string): Option<RedisNode> {
    match Load(k.node, id) case Loaded(rn) => Some(rn) case _ => None
  }

  function ReadTarget(k: Keys, t: Target): Option<Placement> {
    match NewGrainKey(t.kind, t.grainId) case None => None case Some(key) => ReadPlacement(k, key)
  }

  /** Where a request left the keyspace and whether it answered. */
  datatype Ending = Ending(keys: Keys, ok: bool)

  ghost function Ended<T>(r: Ran<T>): Ending {
    Ending(r.keys, r.reply.Answer?)
  }

  /** One request whose client read the keyspace earlier. */
  ghost function RStep(k: Keys, earlier: Keys, ttl: int, now: int, policy: PlacementScripts.Policy,
      c: Request): Ending {
    match c
    case RRegister(node) => Ended(NodeScripts.Register(k, ttl, now, node))
    case RReplace(node) => Ended(NodeScripts.Replace(k, ttl, now, node))
    case RRenewNode(id, session, metrics) =>
      Ended(NodeScripts.RenewNode(k, now, id, session, metrics, ReadNode(earlier, id)))
    case RUnregister(id, session, guarded) =>
      Ended(NodeScripts.Unregister(k, id, session, guarded, ReadNode(earlier, id)))
    case RDrain(id) => Ended(NodeScripts.Drain(k, id, ReadNode(earlier, id)))
    case RMarkInvalid(t, g, n) => Ended(NodeScripts.MarkInvalid(k, t, g, n))
    case RRestore(t, g, n) => Ended(NodeScripts.Restore(k, t, g, n))
    case RExpire(id, g, score) =>
      var r := NodeScripts.ExpireNode(k, now, id, g, ReadRecord(earlier, id), score);
      Ending(r.keys, r.reply == Answer(NodeScripts.Expired))
    case RAllocate(t, id) => Ended(PlacementScripts.Allocate(k, now, policy, t, id, ReadTarget(earlier, t)))
    case RResolve(t, id) => Ended(PlacementScripts.ResolveRoute(k, now, policy, t, id, ReadTarget(earlier, t)))
    case RRenew(claim) => Ended(PlacementScripts.Renew(k, now, claim, ReadPlacement(earlier, claim.grainKey)))
    case RMutate(key, id, version, m) =>
      Ended(PlacementScripts.Mutate(k, now, key, id, version, m, ReadPlacement(earlier, key)))
  }

  /** The in-process command a request stands for when it succeeds. */
  ghost function Counterpart(k: Keys, now: int, policy: PlacementScripts.Policy, c: Request): Command {
    match c
    case RRegister(node) => CRegister(node)
    case RReplace(node) => CReplace(node)
    case RRenewNode(id, session, metrics) => CRenewNode(id, session, metrics)
    case RUnregister(id, session, guarded) => if guarded then CCompleteDrain(id, session) else CUnregister(id, session)
    case RDrain(id) => CDrain(id)
    case RMarkInvalid(t, g, n) => CMarkInvalid(t, g, n)
    case RRestore(t, g, n) => CRestore(t, g, n)
    case RExpire(id, _, _) => CExpireOne(id)
    case RAllocate(t, id) =>
      CAllocate(t, id, match AllocatePick(k, now, policy, t) case Some(n) => n case None => NO_NODE)
    case RResolve(t, id) => CResolve(t, id, ResolvePick(k, now, policy, t))
    case RRenew(claim) => CRenew(claim)
    case RMutate(key, id, version, m) =>
      match m
      case ReleaseMutation(from, session) => CRelease(Claim(key, id, from, session, version))
      case TransferMutation(from, to) => CTransfer(key, id, from, to, version)
      case RecoverMutation(to) => CRecover(key, id, to, version)
  }

  ghost function Shadow(k: Keys, earlier: Keys, ttl: int, now: int, policy: PlacementScripts.Policy,
      c: Request): Command {
    if RStep(k, earlier, ttl, now, policy, c).ok then Counterpart(k, now, policy, c) else CIdle
  }

  lemma ReadsAreGood(k: Keys, id: string, key: string, t: Target)
    requires Reachable(k)
    ensures SeenNode(id, ReadNode(k, id)) && Parsable(ReadPlacement(k, key)) && Parsable(ReadTarget(k, t))
  {
    hide Reachable, Abs, GoodNode, WellFormedIdentity, NewGrainKey;
    StoredNode(k, id);
    StoredPlacement(k, key);
    var named := NewGrainKey(t.kind, t.grainId);
    if named.Some? { StoredPlacement(k, named.value); }
  }

  /** A step of the Redis backend and the step of the in-process protocol it follows: the world, the success and the
      events. The event of a placement renewal goes to the audit stream. */
  ghost predicate Matches(k: Keys, c: Request, r: Ending, e: Effect) {
    && Reachable(r.keys) && Abs(r.keys) == e.world && r.ok == e.ok
    && (if c.RRenew? then r.keys.events == k.events && Emitted(k.audit, r.keys.audit, e.events)
        else Emitted(k.events, r.keys.events, e.events))
  }

  lemma NothingSent(k: Keys)
    requires Reachable(k)
    ensures Emitted(k.events, k.events, []) && Emitted(k.audit, k.audit, [])
  {
    FamiliesHold(k);
    EmittedNone(k.events);
    EmittedNone(k.audit);
  }

  lemma RenewalSendsNothing(w: World, now: int, id: string, session: string, metrics: Option<Metrics>)
    ensures Protocol.RenewNode(w, now, id, session, metrics).events == []
  {
  }

  const ANY_TARGET := Target("", "", "", "")

  lemma EnrolmentKeepsOnError(k: Keys, ttl: int, now: int, node: Node)
    ensures !NodeScripts.Register(k, ttl, now, node).reply.Answer? ==> NodeScripts.Register(k, ttl, now, node).keys == k
    ensures !NodeScripts.Replace(k, ttl, now, node).reply.Answer? ==> NodeScripts.Replace(k, ttl, now, node).keys == k
  {
  }

  lemma NamesKeepOnError(k: Keys, t: string, g: string, n: string)
    ensures !NodeScripts.MarkInvalid(k, t, g, n).reply.Answer? ==> NodeScripts.MarkInvalid(k, t, g, n).keys == k
    ensures !NodeScripts.Restore(k, t, g, n).reply.Answer? ==> NodeScripts.Restore(k, t, g, n).keys == k
  {
  }

  /** An uninterrupted allocation that succeeds is its commit. */
  lemma AtOnceIsCommit(w: World, now: int, t: Target, placementId: string, pick: Option<Node>)
    requires AllocateAtOnce(w, now, t, placementId, pick).reply.Ok?
    ensures AllocateAtOnce(w, now, t, placementId, pick)
            == AllocateCommit(w, now, t, placementId, match pick case Some(n) => n case None => NO_NODE)
  {
    hide NewGrainKey, InputFor, Candidates, Available;
  }

  lemma EnrolmentFollows(k: Keys, earlier: Keys, ttl: int, now: int, policy: PlacementScripts.Policy, c: Request)
    requires Reachable(k) && Reachable(earlier) && ttl > 0
    requires c.RRegister? || c.RReplace? || c.RMarkInvalid? || c.RRestore?
    ensures Matches(k, c, RStep(k, earlier, ttl, now, policy, c),
                    Step(Abs(k), ttl, now, Shadow(k, earlier, ttl, now, policy, c)))
  {
    hide Reachable, Abs, Emitted, SeenNode, NodeScripts.Register, NodeScripts.Replace, NodeScripts.RenewNode,
         NodeScripts.Unregister, NodeScripts.Drain, NodeScripts.MarkInvalid, NodeScripts.Restore,
         NodeScripts.ExpireNode, RegisterNode, ReplaceNodeSession, Protocol.RenewNode, Protocol.Unregister, DrainNode,
         MarkNodeInvalid, RestoreNode, ExpireOne, PlacementScripts.Allocate, PlacementScripts.ResolveRoute,
         PlacementScripts.Renew, PlacementScripts.Mutate, AllocateCommit, Protocol.ResolveRoute, Protocol.Renew,
         Protocol.Release, Protocol.Transfer, Protocol.Recover, AllocatePick, ResolvePick;
    NothingSent(k);
    match c
    case RRegister(node) =>
      RegisterRefines(k, ttl, now, node);
      EnrolmentKeepsOnError(k, ttl, now, node);
    case RReplace(node) =>
      ReplaceRefines(k, ttl, now, node);
      EnrolmentKeepsOnError(k, ttl, now, node);
    case RMarkInvalid(t, g, n) =>
      MarkInvalidRefines(k, t, g, n);
      NamesKeepOnError(k, t, g, n);
    case RRestore(t, g, n) =>
      RestoreRefines(k, t, g, n);
      NamesKeepOnError(k, t, g, n);
  }

  lemma SessionRequestFollows(k: Keys, earlier: Keys, ttl: int, now: int, policy: PlacementScripts.Policy, c: Request)
    requires Reachable(k) && Reachable(earlier) && ttl > 0
    requires c.RRenewNode? || c.RUnregister? || c.RDrain? || c.RExpire?
    ensures Matches(k, c, RStep(k, earlier, ttl, now, policy, c),
                    Step(Abs(k), ttl, now, Shadow(k, earlier, ttl, now, policy, c)))
  {
    hide Reachable, Abs, Emitted, SeenNode, NodeScripts.Register, NodeScripts.Replace, NodeScripts.RenewNode,
         NodeScripts.Unregister, NodeScripts.Drain, NodeScripts.MarkInvalid, NodeScripts.Restore,
         NodeScripts.ExpireNode, RegisterNode, ReplaceNodeSession, Protocol.RenewNode, Protocol.Unregister, DrainNode,
         MarkNodeInvalid, RestoreNode, ExpireOne, PlacementScripts.Allocate, PlacementScripts.ResolveRoute,
         PlacementScripts.Renew, PlacementScripts.Mutate, AllocateCommit, Protocol.ResolveRoute, Protocol.Renew,
         Protocol.Release, Protocol.Transfer, Protocol.Recover, AllocatePick, ResolvePick;
    NothingSent(k);
    ReadsAreGood(earlier, c.identity, "", ANY_TARGET);
    match c
    case RRenewNode(id, session, metrics) =>
      RenewNodeRefines(k, now, id, session, metrics, ReadNode(earlier, id));
      RenewalSendsNothing(Abs(k), now, id, session, metrics);
    case RUnregister(id, session, guarded) => UnregisterRefines(k, id, session, guarded, ReadNode(earlier, id));
    case RDrain(id) => DrainRefines(k, id, ReadNode(earlier, id));
    case RExpire(id, g, score) => ExpireNodeRefines(k, now, id, g, ReadRecord(earlier, id), score);
  }

  lemma RoutingRequestFollows(k: Keys, earlier: Keys, ttl: int, now: int, policy: PlacementScripts.Policy, c: Request)
    requires Reachable(k) && Reachable(earlier) && ttl > 0
    requires c.RAllocate? || c.RResolve?
    ensures Matches(k, c, RStep(k, earlier, ttl, now, policy, c),
                    Step(Abs(k), ttl, now, Shadow(k, earlier, ttl, now, policy, c)))
  {
    hide Reachable, Abs, Emitted, Parsable, PlacementScripts.Allocate, PlacementScripts.ResolveRoute,
         PlacementScripts.Renew, PlacementScripts.Mutate, AllocateCommit, AllocateAtOnce, Protocol.ResolveRoute,
         Protocol.Renew, Protocol.Release, Protocol.Transfer, Protocol.Recover, AllocatePick, ResolvePick,
         CountersBelow, TargetNamed, NewGrainKey, ReadTarget, NodeScripts.Register, NodeScripts.Replace,
         NodeScripts.RenewNode, NodeScripts.Unregister, NodeScripts.Drain, NodeScripts.MarkInvalid,
         NodeScripts.Restore, NodeScripts.ExpireNode, RegisterNode, ReplaceNodeSession, Protocol.RenewNode,
         Protocol.Unregister, DrainNode, MarkNodeInvalid, RestoreNode, ExpireOne;
    NothingSent(k);
    var seen := ReadTarget(earlier, c.target);
    if c.RAllocate? {
      AllocateRefines(k, now, policy, c.target, c.placementId, seen);
      if AllocateAtOnce(Abs(k), now, c.target, c.placementId, AllocatePick(k, now, policy, c.target)).reply.Ok? {
        AtOnceIsCommit(Abs(k), now, c.target, c.placementId, AllocatePick(k, now, policy, c.target));
      }
    } else {
      ReadsAreGood(earlier, "", "", c.target);
      ResolveRefines(k, now, policy, c.target, c.placementId, seen);
    }
  }

  lemma OwnershipRequestFollows(k: Keys, earlier: Keys, ttl: int, now: int, policy: PlacementScripts.Policy, c: Request)
    requires Reachable(k) && Reachable(earlier) && ttl > 0
    requires c.RRenew? || c.RMutate?
    ensures Matches(k, c, RStep(k, earlier, ttl, now, policy, c),
                    Step(Abs(k), ttl, now, Shadow(k, earlier, ttl, now, policy, c)))
  {
    hide Reachable, Abs, Emitted, Parsable, PlacementScripts.Allocate, PlacementScripts.ResolveRoute,
         PlacementScripts.Renew, PlacementScripts.Mutate, AllocateCommit, AllocateAtOnce, Protocol.ResolveRoute,
         Protocol.Renew, Protocol.Release, Protocol.Transfer, Protocol.Recover, AllocatePick, ResolvePick,
         CountersBelow, TargetNamed, NewGrainKey, ReadTarget, NodeScripts.Register, NodeScripts.Replace,
         NodeScripts.RenewNode, NodeScripts.Unregister, NodeScripts.Drain, NodeScripts.MarkInvalid,
         NodeScripts.Restore, NodeScripts.ExpireNode, RegisterNode, ReplaceNodeSession, Protocol.RenewNode,
         Protocol.Unregister, DrainNode, MarkNodeInvalid, RestoreNode, ExpireOne;
    NothingSent(k);
    if c.RRenew? {
      RenewRefines(k, now, c.claim, ReadPlacement(earlier, c.claim.grainKey));
    } else {
      var seen := ReadPlacement(earlier, c.grainKey);
      match c.mutation
      case ReleaseMutation(from, session) =>
        ReleaseRefines(k, now, Claim(c.grainKey, c.placementId, from, session, c.version), seen);
      case _ => MoveRefines(k, now, c.grainKey, c.placementId, c.version, c.mutation, seen);
    }
  }

  /** Every request, after any earlier read, follows an in-process command or leaves the world alone. */
  lemma RStepFollows(k: Keys, earlier: Keys, ttl: int, now: int, policy: PlacementScripts.Policy, c: Request)
    requires Reachable(k) && Reachable(earlier) && ttl > 0
    ensures Matches(k, c, RStep(k, earlier, ttl, now, policy, c),
                    Step(Abs(k), ttl, now, Shadow(k, earlier, ttl, now, policy, c)))
  {
    hide *;
    if c.RAllocate? || c.RResolve? {
      RoutingRequestFollows(k, earlier, ttl, now, policy, c);
    } else if c.RRenew? || c.RMutate? {
      OwnershipRequestFollows(k, earlier, ttl, now, policy, c);
    } else if c.RRenewNode? || c.RUnregister? || c.RDrain? || c.RExpire? {
      SessionRequestFollows(k, earlier, ttl, now, policy, c);
    } else {
      EnrolmentFollows(k, earlier, ttl, now, policy, c);
    }
  }

  /** A request within the ranges Redis can store: counters below their maxima, exact metrics, and for an expiry the
      score the lease set holds. */
  predicate InRange(k: Keys, c: Request) {
    match c
    case RRenewNode(_, _, Some(m)) =>
      m.cpu <= MAX_EXACT_INTEGER && m.memory <= MAX_EXACT_INTEGER && m.goroutines <= MAX_EXACT_INTEGER
    case RExpire(id, g, score) => Score(k.leases, g, id) == Some(score)
    case RAllocate(t, _) => CountersBelow(k, t.GroupOf())
    case RResolve(t, _) => CountersBelow(k, t.GroupOf())
    case RMutate(_, _, _, _) => CounterValue(k.sequence) < MAX_EXACT_INTEGER
    case _ => true
  }

  lemma CommitIsAtOnce(w: World, now: int, t: Target, placementId: string, pick: Option<Node>)
    requires Valid(w)
    ensures AllocateAtOnce(w, now, t, placementId, pick).reply.Ok?
            <==> AllocateCommit(w, now, t, placementId, match pick case Some(n) => n case None => NO_NODE).reply.Ok?
  {
    hide NewGrainKey, InputFor;
    var chosen := match pick case Some(n) => n case None => NO_NODE;
    if AllocateCommit(w, now, t, placementId, chosen).reply.Ok? {
      if chosen.identity in w.nodes { assert GoodNode(chosen.identity, w.nodes[chosen.identity]); }
      assert && chosen.identity in w.nodes && w.nodes[chosen.identity].GroupOf() == t.GroupOf()
             && Available(w, w.nodes[chosen.identity], now)
             ==> chosen.identity in Candidates(w, now, t.GroupOf());
    }
    if AllocateAtOnce(w, now, t, placementId, pick).reply.Ok? { AtOnceIsCommit(w, now, t, placementId, pick); }
  }

  lemma NodeRequestsSucceedTogether(k: Keys, ttl: int, now: int, policy: PlacementScripts.Policy, c: Request)
    requires Reachable(k) && ttl > 0 && InRange(k, c)
    requires !(c.RAllocate? || c.RResolve? || c.RRenew? || c.RMutate?)
    ensures RStep(k, k, ttl, now, policy, c).ok <==> Step(Abs(k), ttl, now, Counterpart(k, now, policy, c)).ok
  {
    hide Reachable, Abs, Emitted, SeenNode, NodeScripts.Register, NodeScripts.Replace, NodeScripts.RenewNode,
         NodeScripts.Unregister, NodeScripts.Drain, NodeScripts.MarkInvalid, NodeScripts.Restore,
         NodeScripts.ExpireNode, RegisterNode, ReplaceNodeSession, Protocol.Unregister, DrainNode, MarkNodeInvalid,
         RestoreNode, ExpireOne, Score, Renewed, LeaseExpired, PlacementScripts.Allocate,
         PlacementScripts.ResolveRoute, PlacementScripts.Renew, PlacementScripts.Mutate, AllocateCommit,
         Protocol.ResolveRoute, Protocol.Renew, Protocol.Release, Protocol.Transfer, Protocol.Recover, AllocatePick,
         ResolvePick;
    match c
    case RRegister(node) => RegisterRefines(k, ttl, now, node);
    case RReplace(node) => ReplaceRefines(k, ttl, now, node);
    case RMarkInvalid(t, g, n) => MarkInvalidRefines(k, t, g, n);
    case RRestore(t, g, n) => RestoreRefines(k, t, g, n);
    case RRenewNode(id, session, metrics) =>
      StoredNode(k, id);
      ReadsAreGood(k, id, "", ANY_TARGET);
      RenewNodeRefines(k, now, id, session, metrics, ReadNode(k, id));
    case RUnregister(id, session, guarded) =>
      StoredNode(k, id);
      ReadsAreGood(k, id, "", ANY_TARGET);
      UnregisterRefines(k, id, session, guarded, ReadNode(k, id));
      UnknownNodes(Abs(k), now, id, session, guarded);
    case RDrain(id) =>
      StoredNode(k, id);
      ReadsAreGood(k, id, "", ANY_TARGET);
      DrainRefines(k, id, ReadNode(k, id));
      UnknownNodes(Abs(k), now, id, "", false);
    case RExpire(id, g, score) =>
      StoredNode(k, id);
      ExpireNodeRefines(k, now, id, g, ReadRecord(k, id), score);
      UnknownNodes(Abs(k), now, id, "", false);
      ScoredNodeExists(k, g, id);
  }

  lemma UnknownNodes(w: World, now: int, id: string, session: string, guarded: bool)
    ensures id !in w.nodes ==>
              Protocol.Unregister(w, id, session, guarded).reply.Err? && DrainNode(w, id).reply.Err?
                  && ExpireOne(w, now, id).reply.Err?
  {
  }

  lemma ScoredNodeExists(k: Keys, g: Group, id: string)
    requires Reachable(k) && Score(k.leases, g, id).Some?
    ensures id in k.node && k.node[id].Holds? && ReadRecord(k, id) == Some(k.node[id].value)
  {
    hide Reachable, Abs, Score, GoodNode;
    StoredNode(k, id);
  }

  /** With a current read and in range, every request succeeds in Redis exactly when its in-process counterpart,
      given the node the script picks, succeeds. */
  lemma CurrentRequestsSucceedTogether(k: Keys, ttl: int, now: int, policy: PlacementScripts.Policy, c: Request)
    requires Reachable(k) && ttl > 0 && InRange(k, c)
    ensures RStep(k, k, ttl, now, policy, c).ok <==> Step(Abs(k), ttl, now, Counterpart(k, now, policy, c)).ok
  {
    hide Abs, Bookkept, Valid, Emitted, Parsable, PlacementScripts.Allocate, PlacementScripts.ResolveRoute,
         PlacementScripts.Renew, PlacementScripts.Mutate, AllocateCommit, AllocateAtOnce, Protocol.ResolveRoute,
         Protocol.Renew, Protocol.Release, Protocol.Transfer, Protocol.Recover, AllocatePick, ResolvePick,
         CountersBelow, TargetNamed, NewGrainKey, CounterValue, NodeScripts.Register, NodeScripts.Replace,
         NodeScripts.RenewNode, NodeScripts.Unregister, NodeScripts.Drain, NodeScripts.MarkInvalid,
         NodeScripts.Restore, NodeScripts.ExpireNode, RegisterNode, ReplaceNodeSession, Protocol.RenewNode,
         Protocol.Unregister, DrainNode, MarkNodeInvalid, RestoreNode, ExpireOne;
    match c
    case RAllocate(t, id) =>
      ReadIsCurrent(k, t);
      AllocateRefines(k, now, policy, t, id, ReadTarget(k, t));
      CommitIsAtOnce(Abs(k), now, t, id, AllocatePick(k, now, policy, t));
    case RResolve(t, id) =>
      ReadIsCurrent(k, t);
      ReadsAreGood(k, "", "", t);
      ResolveRefines(k, now, policy, t, id, ReadTarget(k, t));
      TargetNames(Abs(k), now, t, id, ResolvePick(k, now, policy, t));
    case RRenew(claim) =>
      StoredPlacement(k, claim.grainKey);
      RenewRefines(k, now, claim, ReadPlacement(k, claim.grainKey));
    case RMutate(key, id, version, m) =>
      StoredPlacement(k, key);
      MutationsSucceedTogether(k, ttl, now, policy, c);
    case _ => NodeRequestsSucceedTogether(k, ttl, now, policy, c);
  }

  lemma MutationsSucceedTogether(k: Keys, ttl: int, now: int, policy: PlacementScripts.Policy, c: Request)
    requires Reachable(k) && InRange(k, c) && c.RMutate?
    ensures RStep(k, k, ttl, now, policy, c).ok <==> Step(Abs(k), ttl, now, Counterpart(k, now, policy, c)).ok
  {
    hide Abs, Bookkept, Valid, Emitted, PlacementScripts.Mutate, Protocol.Release, Protocol.Transfer,
         Protocol.Recover, CounterValue, NodeScripts.Register, NodeScripts.Replace, NodeScripts.RenewNode,
         NodeScripts.Unregister, NodeScripts.Drain, NodeScripts.MarkInvalid, NodeScripts.Restore,
         NodeScripts.ExpireNode, RegisterNode, ReplaceNodeSession, Protocol.RenewNode, Protocol.Unregister, DrainNode,
         MarkNodeInvalid, RestoreNode, ExpireOne, PlacementScripts.Allocate, PlacementScripts.ResolveRoute,
         PlacementScripts.Renew, AllocateCommit, Protocol.ResolveRoute, Protocol.Renew, AllocatePick, ResolvePick,
         GoodPlacement;
    StoredPlacement(k, c.grainKey);
    var seen := ReadPlacement(k, c.grainKey);
    match c.mutation
    case ReleaseMutation(from, session) =>
      ReleaseRefines(k, now, Claim(c.grainKey, c.placementId, from, session, c.version), seen);
    case _ => MoveRefines(k, now, c.grainKey, c.placementId, c.version, c.mutation, seen);
  }

  lemma ReadIsCurrent(k: Keys, t: Target)
    requires Reachable(k)
    ensures var named := NewGrainKey(t.kind, t.grainId);
            named.Some? ==> && PlacementScripts.Unmoved(k, named.value, ReadTarget(k, t))
                            && (named.value in Abs(k).placements ==>
                                  ReadTarget(k, t) == Some(Abs(k).placements[named.value]))
  {
    hide NewGrainKey, Bookkept, Valid;
    var named := NewGrainKey(t.kind, t.grainId);
    if named.Some? { StoredPlacement(k, named.value); }
  }

  // ------------------------------------------------------------------------------------------
  // Runs.

  /** A request, its client's lease duration and policy, the server clock when its script runs, and how many steps of
      the run the client had seen. */
  datatype RTick = RTick(ttl: int, policy: PlacementScripts.Policy, now: int, read: nat, request: Request)

  datatype RRun = RRun(ticks: seq<RTick>)

  ghost predicate WellTimed(run: RRun) {
    forall i :: 0 <= i < |run.ticks| ==> run.ticks[i].ttl > 0 && run.ticks[i].read <= i
  }

  ghost function KeysAt(run: RRun, i: nat): Keys
    requires WellTimed(run) && i <= |run.ticks|
    decreases i, 0
  {
    if i == 0 then EMPTY_KEYS else ResultAt(run, i - 1).keys
  }

  ghost function ResultAt(run: RRun, i: nat): Ending
    requires WellTimed(run) && i < |run.ticks|
    decreases i, 1
  {
    var tick := run.ticks[i];
    RStep(KeysAt(run, i), KeysAt(run, tick.read), tick.ttl, tick.now, tick.policy, tick.request)
  }

  /** The in-process run that a Redis run follows. */
  ghost function Followed(run: RRun, n: nat): (r: Run)
    requires WellTimed(run) && n <= |run.ticks|
    ensures WellFormed(r) && |r.ticks| == n
    ensures forall i :: 0 <= i < n ==> r.ticks[i] == Tick(run.ticks[i].ttl, run.ticks[i].now, ShadowAt(run, i))
  {
    Run(seq(n, i requires 0 <= i < n => Tick(run.ticks[i].ttl, run.ticks[i].now, ShadowAt(run, i))))
  }

  ghost function ShadowAt(run: RRun, i: nat): Command
    requires WellTimed(run) && i < |run.ticks|
  {
    var tick := run.ticks[i];
    Shadow(KeysAt(run, i), KeysAt(run, tick.read), tick.ttl, tick.now, tick.policy, tick.request)
  }

  /** The central simulation: at every point of every run the keyspace is reachable, stands for the world of the
      followed in-process run, and the two succeed at the same steps. */
  lemma {:induction false} RunsFollow(run: RRun, n: nat, i: nat)
    requires WellTimed(run) && i <= n <= |run.ticks|
    ensures Reachable(KeysAt(run, i)) && Abs(KeysAt(run, i)) == WorldAt(Followed(run, n), i)
    ensures i < n ==> ResultAt(run, i).ok == Succeeds(Followed(run, n), i)
    decreases i
  {
    hide RStep, Step, Shadow, Reachable, Abs, Followed;
    if i == 0 {
      EmptyIsReachable();
    } else {
      RunsFollow(run, n, i - 1);
      ReachableAt(run, i - 1);
    }
    ReachableAt(run, i);
    if i < n {
      ReachableAt(run, run.ticks[i].read);
      FollowsAt(run, i);
    }
    if i > 0 {
      ReachableAt(run, run.ticks[i - 1].read);
      FollowsAt(run, i - 1);
    }
  }

  /** The step at one tick, with both keyspaces reachable. */
  lemma FollowsAt(run: RRun, i: nat)
    requires WellTimed(run) && i < |run.ticks|
    requires Reachable(KeysAt(run, i)) && Reachable(KeysAt(run, run.ticks[i].read))
    ensures Matches(KeysAt(run, i), run.ticks[i].request, ResultAt(run, i),
                    Step(Abs(KeysAt(run, i)), run.ticks[i].ttl, run.ticks[i].now, ShadowAt(run, i)))
  {
    hide RStep, Step, Shadow, Reachable, Abs, Matches, KeysAt;
    var tick := run.ticks[i];
    RStepFollows(KeysAt(run, i), KeysAt(run, tick.read), tick.ttl, tick.now, tick.policy, tick.request);
  }

  lemma {:induction false} ReachableAt(run: RRun, i: nat)
    requires WellTimed(run) && i <= |run.ticks|
    ensures Reachable(KeysAt(run, i))
  {
    hide RStep, Step, Shadow, Reachable, Abs;
    if i == 0 {
      EmptyIsReachable();
    } else {
      ReachableAt(run, i - 1);
      ReachableAt(run, run.ticks[i - 1].read);
      FollowsAt(run, i - 1);
    }
  }

  // ------------------------------------------------------------------------------------------
  // Transferred theorems.

  function FreshId(c: Request): Option<string> {
    match c
    case RAllocate(_, id) => Some(id)
    case RResolve(_, id) => Some(id)
    case _ => None
  }

  ghost predicate FreshRequests(run: RRun) {
    forall i, j | 0 <= i < j < |run.ticks| ::
      FreshId(run.ticks[i].request).Some? ==> FreshId(run.ticks[i].request) != FreshId(run.ticks[j].request)
  }

  lemma FollowedIsFresh(run: RRun)
    requires WellTimed(run) && FreshRequests(run)
    ensures FreshIds(Followed(run, |run.ticks|))
  {
    hide RStep, Followed, KeysAt, AllocatePick, ResolvePick;
    var r := Followed(run, |run.ticks|);
    forall i | 0 <= i < |r.ticks|
      ensures NewId(CommandAt(r, i)).Some? ==> NewId(CommandAt(r, i)) == FreshId(run.ticks[i].request)
    {
      assert CommandAt(r, i) == ShadowAt(run, i);
    }
    assert forall i :: 0 <= i < |r.ticks| ==> NewId(CommandAt(r, i)).Some? ==> FreshId(run.ticks[i].request).Some?;
  }

  /** Redis fencing: in a whole run a grain, a placement ID and a version name one stored record. */
  lemma RedisFencing(run: RRun, i: nat, j: nat, key: string, p: Placement, q: Placement)
    requires WellTimed(run) && FreshRequests(run) && i <= |run.ticks| && j <= |run.ticks|
    requires Load(KeysAt(run, i).placement, key) == Loaded(p) && Load(KeysAt(run, j).placement, key) == Loaded(q)
    requires p.placementId == q.placementId && p.version == q.version
    ensures p == q
  {
    hide RStep, Followed, KeysAt, Reachable, Abs, WorldAt;
    var n := |run.ticks|;
    RunsFollow(run, n, i);
    RunsFollow(run, n, j);
    StoredPlacement(KeysAt(run, i), key);
    StoredPlacement(KeysAt(run, j), key);
    FollowedIsFresh(run);
    FencingTokenNamesOneOwner(Followed(run, n), i, j, key);
  }

  /** Redis tokens: at most one release, transfer or recovery that presents a grain, an ID and a version succeeds. */
  lemma RedisTokenIsSpentOnce(run: RRun, i: nat, j: nat)
    requires WellTimed(run) && FreshRequests(run) && i < j < |run.ticks|
    requires run.ticks[i].request.RMutate? && run.ticks[j].request.RMutate?
    requires run.ticks[i].request.grainKey == run.ticks[j].request.grainKey
    requires run.ticks[i].request.placementId == run.ticks[j].request.placementId
    requires run.ticks[i].request.version == run.ticks[j].request.version
    ensures !(ResultAt(run, i).ok && ResultAt(run, j).ok)
  {
    hide RStep, Followed, KeysAt, Reachable, Abs, WorldAt, Step, AllocatePick, ResolvePick, FreshIds, FreshRequests;
    var n := |run.ticks|;
    var r := Followed(run, n);
    if ResultAt(run, i).ok && ResultAt(run, j).ok {
      RunsFollow(run, n, i);
      RunsFollow(run, n, j);
      FollowedIsFresh(run);
      assert CommandAt(r, i) == ShadowAt(run, i) && CommandAt(r, j) == ShadowAt(run, j);
      OneUseOfEachToken(r, i, j);
    }
  }

  predicate ResetsLease(c: Request, identity: string) {
    match c
    case RReplace(node) => node.identity == identity
    case RUnregister(id, _, _) => id == identity
    case _ => false
  }

  /** How many renewals of the node's lease succeeded in a window of the run. */
  ghost function RedisRenewals(run: RRun, identity: string, i: nat, j: nat): nat
    requires WellTimed(run) && i <= j <= |run.ticks|
    decreases j
  {
    if i == j then 0
    else RedisRenewals(run, identity, i, j - 1) + if RenewedAt(run, identity, j - 1) then 1 else 0
  }

  ghost predicate RenewedAt(run: RRun, identity: string, m: nat)
    requires WellTimed(run) && m < |run.ticks|
  {
    run.ticks[m].request.RRenewNode? && run.ticks[m].request.identity == identity && ResultAt(run, m).ok
  }

  lemma RenewedTogether(run: RRun, identity: string, m: nat)
    requires WellTimed(run) && m < |run.ticks|
    ensures var r := Followed(run, |run.ticks|);
            RenewedAt(run, identity, m) <==>
                RenewsLease(WorldAt(r, m), r.ticks[m].ttl, r.ticks[m].now, r.ticks[m].command, identity)
  {
    hide RStep, Followed, KeysAt, Reachable, Abs, WorldAt, Step, AllocatePick, ResolvePick;
    RunsFollow(run, |run.ticks|, m);
  }

  lemma {:induction false} RenewalsAgree(run: RRun, identity: string, i: nat, j: nat)
    requires WellTimed(run) && i <= j <= |run.ticks|
    ensures RenewalsBetween(Followed(run, |run.ticks|), identity, i, j) == RedisRenewals(run, identity, i, j)
    decreases j
  {
    hide WellTimed, WellFormed, Followed, RenewedAt, RenewsLease, WorldAt;
    if i < j {
      RenewalsAgree(run, identity, i, j - 1);
      RenewedTogether(run, identity, j - 1);
    }
  }

  lemma NothingReset(run: RRun, identity: string, i: nat, j: nat)
    requires WellTimed(run) && i <= j <= |run.ticks|
    requires forall m :: i <= m < j ==> !ResetsLease(run.ticks[m].request, identity)
    ensures NotReset(Followed(run, |run.ticks|), identity, i, j)
  {
    hide RStep, Followed, KeysAt, AllocatePick, ResolvePick;
    var r := Followed(run, |run.ticks|);
    forall m | i <= m < j
      ensures !Resets(r.ticks[m].command, identity)
    {
      assert r.ticks[m].command == ShadowAt(run, m);
      assert !ResetsLease(run.ticks[m].request, identity);
    }
  }

  lemma StoredNodeAt(run: RRun, i: nat, identity: string)
    requires WellTimed(run) && i <= |run.ticks|
    ensures var w := WorldAt(Followed(run, |run.ticks|), i);
            ReadNode(KeysAt(run, i), identity) == if identity in w.nodes then Some(w.nodes[identity]) else None
  {
    hide RStep, Followed, KeysAt, Reachable, Abs, WorldAt, GoodNode, Score;
    RunsFollow(run, |run.ticks|, i);
    StoredNode(KeysAt(run, i), identity);
  }

  /** Redis leases: between replacements and removals a stored lease keeps its session, its version counts the
      successful renewals, its expiry never goes back whatever the server clock does, and an offline node stays
      offline. */
  lemma RedisLeaseMonotone(run: RRun, i: nat, j: nat, identity: string, before: Node)
    requires WellTimed(run) && i <= j <= |run.ticks|
    requires ReadNode(KeysAt(run, i), identity) == Some(before)
    requires forall m :: i <= m < j ==> !ResetsLease(run.ticks[m].request, identity)
    ensures var after := ReadNode(KeysAt(run, j), identity);
            && after.Some?
            && after.value.session == before.session
            && after.value.lease.version == before.lease.version + RedisRenewals(run, identity, i, j)
            && after.value.lease.expireAt >= before.lease.expireAt
            && (before.status == Offline ==> after.value == before)
  {
    hide *;
    StoredNodeAt(run, i, identity);
    StoredNodeAt(run, j, identity);
    NothingReset(run, identity, i, j);
    RenewalsAgree(run, identity, i, j);
    LeaseMonotone(Followed(run, |run.ticks|), identity, i, j);
  }

  /** At this step the node's stored lease is due by the server clock and an expiry of that node succeeds. */
  ghost predicate RedisExpiredAt(run: RRun, identity: string, m: nat, lease: Lease)
    requires WellTimed(run) && m < |run.ticks|
  {
    var n := ReadNode(KeysAt(run, m), identity);
    && n.Some? && n.value.status != Offline
    && n.value.lease == lease && run.ticks[m].now >= lease.expireAt
    && run.ticks[m].request.RExpire? && run.ticks[m].request.identity == identity && ResultAt(run, m).ok
  }

  lemma ExpiredTogether(run: RRun, identity: string, m: nat, lease: Lease)
    requires WellTimed(run) && m < |run.ticks|
    requires ExpiredAt(Followed(run, |run.ticks|), identity, m, lease)
    ensures RedisExpiredAt(run, identity, m, lease)
  {
    hide RStep, Followed, KeysAt, Reachable, Abs, WorldAt, Step, AllocatePick, ResolvePick, ReadNode;
    StoredNodeAt(run, m, identity);
  }

  /** Redis expiry: a node that went offline without a replacement or removal was taken offline by an expiry that
      found exactly the lease it still carries due. */
  lemma RedisOfflineOnlyWhenDue(run: RRun, i: nat, j: nat, identity: string, before: Node, after: Node)
    requires WellTimed(run) && i <= j <= |run.ticks|
    requires ReadNode(KeysAt(run, i), identity) == Some(before) && before.status != Offline
    requires ReadNode(KeysAt(run, j), identity) == Some(after) && after.status == Offline
    requires forall m :: i <= m < j ==> !ResetsLease(run.ticks[m].request, identity)
    ensures exists m :: i <= m < j && RedisExpiredAt(run, identity, m, after.lease)
  {
    hide *;
    var r := Followed(run, |run.ticks|);
    StoredNodeAt(run, i, identity);
    StoredNodeAt(run, j, identity);
    NothingReset(run, identity, i, j);
    OfflineOnlyWhenDue(r, identity, i, j);
    var m :| i <= m < j && ExpiredAt(r, identity, m, after.lease);
    ExpiredTogether(run, identity, m, after.lease);
  }

  predicate MarkedInvalid(k: Keys, identity: string) {
    NodeName(identity) in Members(k.invalid, GroupOfIdentity(identity))
  }

  predicate RestoresIt(c: Request, identity: string) {
    c.RRestore? && NewNodeIdentity(c.nodeType, c.nodeGroup, c.nodeName) == Some(identity)
  }

  /** Redis draining: from the mark until the restore, no grain moves onto the identity, whatever sessions come
      and go. */
  lemma RedisDrainMonotone(run: RRun, identity: string, i: nat, j: nat, key: string)
    requires WellTimed(run) && i <= j <= |run.ticks| && WellFormedIdentity(identity)
    requires MarkedInvalid(KeysAt(run, i), identity)
    requires forall m :: i <= m < j ==> !RestoresIt(run.ticks[m].request, identity)
    ensures MarkedInvalid(KeysAt(run, j), identity)
    ensures Score(KeysAt(run, j).index, identity, key).Some? ==> Score(KeysAt(run, i).index, identity, key).Some?
  {
    hide *;
    var r := Followed(run, |run.ticks|);
    MarkedIsBarred(run, i, identity);
    MarkedIsBarred(run, j, identity);
    OwnedAt(run, i, identity, key);
    OwnedAt(run, j, identity, key);
    NothingRestored(run, identity, i, j);
    DrainMonotone(r, identity, i, j);
  }

  lemma MarkedIsBarred(run: RRun, i: nat, identity: string)
    requires WellTimed(run) && i <= |run.ticks|
    ensures MarkedInvalid(KeysAt(run, i), identity) <==> Barred(WorldAt(Followed(run, |run.ticks|), i), identity)
  {
    hide RStep, Followed, KeysAt, Reachable, Abs, WorldAt, NodeType, NodeGroup, NodeName, NameInvalid, Members;
    RunsFollow(run, |run.ticks|, i);
    NamesMatch(KeysAt(run, i), GroupOfIdentity(identity), NodeName(identity));
  }

  lemma OwnedAt(run: RRun, i: nat, identity: string, key: string)
    requires WellTimed(run) && i <= |run.ticks|
    ensures Score(KeysAt(run, i).index, identity, key).Some?
            <==> key in Owned(WorldAt(Followed(run, |run.ticks|), i).byNode, identity)
  {
    hide RStep, Followed, KeysAt, Reachable, WorldAt, Score, Values, Ownership, NodesOf;
    RunsFollow(run, |run.ticks|, i);
    OwnedIsScored(KeysAt(run, i).index, identity, key);
  }

  lemma NothingRestored(run: RRun, identity: string, i: nat, j: nat)
    requires WellTimed(run) && i <= j <= |run.ticks|
    requires forall m :: i <= m < j ==> !RestoresIt(run.ticks[m].request, identity)
    ensures NotRestored(Followed(run, |run.ticks|), identity, i, j)
  {
    hide RStep, Followed, KeysAt, AllocatePick, ResolvePick, NewNodeIdentity;
    var r := Followed(run, |run.ticks|);
    forall m | i <= m < j
      ensures !Restores(r.ticks[m].command, identity)
    {
      assert r.ticks[m].command == ShadowAt(run, m);
      assert !RestoresIt(run.ticks[m].request, identity);
    }
  }

  predicate CompletesDrain(c: Request, identity: string) {
    c.RUnregister? && c.identity == identity && c.guarded
  }

  /** Redis drain completion: once a marked identity was removed by a guarded unregistration, no stored placement
      names it at any later moment, until the identity is restored. */
  lemma RedisDrainIsComplete(run: RRun, identity: string, i: nat, m: nat, j: nat, key: string, p: Placement)
    requires WellTimed(run) && i <= m < j <= |run.ticks|
    requires MarkedInvalid(KeysAt(run, i), identity)
    requires forall n :: i <= n < j ==> !RestoresIt(run.ticks[n].request, identity)
    requires CompletesDrain(run.ticks[m].request, identity) && ResultAt(run, m).ok
    requires Load(KeysAt(run, j).placement, key) == Loaded(p)
    ensures p.nodeIdentity != identity
  {
    hide *;
    MarkedIsBarred(run, i, identity);
    NothingRestored(run, identity, i, j);
    CompletionFollows(run, identity, m);
    DrainIsComplete(Followed(run, |run.ticks|), identity, i, m, j);
    StoredAt(run, j, key);
  }

  lemma CompletionFollows(run: RRun, identity: string, m: nat)
    requires WellTimed(run) && m < |run.ticks|
    requires CompletesDrain(run.ticks[m].request, identity) && ResultAt(run, m).ok
    ensures var r := Followed(run, |run.ticks|);
            && r.ticks[m].command.CCompleteDrain? && r.ticks[m].command.identity == identity
            && Succeeds(r, m)
  {
    hide RStep, Followed, KeysAt, Reachable, Abs, WorldAt, Step, AllocatePick, ResolvePick;
    RunsFollow(run, |run.ticks|, m);
  }

  lemma StoredAt(run: RRun, i: nat, key: string)
    requires WellTimed(run) && i <= |run.ticks|
    ensures var w, stored := WorldAt(Followed(run, |run.ticks|), i), Load(KeysAt(run, i).placement, key);
            stored == if key in w.placements then Loaded(w.placements[key]) else Missing
  {
    hide RStep, Followed, KeysAt, Reachable, Abs, WorldAt, GoodPlacement;
    RunsFollow(run, |run.ticks|, i);
    StoredPlacement(KeysAt(run, i), key);
  }

  /** The placement ID a request presents as proof of ownership. */
  function PresentedId(c: Request): Option<string> {
    match c
    case RRenew(claim) => Some(claim.placementId)
    case RMutate(_, id, _, _) => Some(id)
    case _ => None
  }

  /** Redis release is final: after a release, no renewal, release, transfer or recovery that presents the released
      placement ID succeeds again, whatever grain, version, session or earlier read it comes with. */
  lemma RedisReleasedIdIsFinal(run: RRun, i: nat, j: nat)
    requires WellTimed(run) && FreshRequests(run) && i < j < |run.ticks|
    requires run.ticks[i].request.RMutate? && run.ticks[i].request.mutation.ReleaseMutation? && ResultAt(run, i).ok
    requires PresentedId(run.ticks[j].request) == Some(run.ticks[i].request.placementId)
    ensures !ResultAt(run, j).ok
  {
    hide *;
    if ResultAt(run, j).ok {
      FollowedIsFresh(run);
      ReleaseFollows(run, i);
      PresentationFollows(run, j);
      ReleasedIdIsFinal(Followed(run, |run.ticks|), i, j);
    }
  }

  lemma ReleaseFollows(run: RRun, i: nat)
    requires WellTimed(run) && i < |run.ticks|
    requires run.ticks[i].request.RMutate? && run.ticks[i].request.mutation.ReleaseMutation? && ResultAt(run, i).ok
    ensures var r := Followed(run, |run.ticks|);
            && CommandAt(r, i).CRelease? && CommandAt(r, i).claim.placementId == run.ticks[i].request.placementId
            && Succeeds(r, i)
  {
    hide RStep, Followed, KeysAt, Reachable, Abs, WorldAt, Step, AllocatePick, ResolvePick;
    RunsFollow(run, |run.ticks|, i);
  }

  lemma PresentationFollows(run: RRun, j: nat)
    requires WellTimed(run) && j < |run.ticks| && PresentedId(run.ticks[j].request).Some? && ResultAt(run, j).ok
    ensures var r := Followed(run, |run.ticks|);
            IdClaimed(CommandAt(r, j)) == PresentedId(run.ticks[j].request) && Succeeds(r, j)
  {
    hide RStep, Followed, KeysAt, Reachable, Abs, WorldAt, Step, AllocatePick, ResolvePick;
    RunsFollow(run, |run.ticks|, j);
  }

  lemma RemovedIdIsDead(run: Run, i: nat, key: string, id: string)
    requires WellFormed(run) && FreshIds(run) && i < |run.ticks|
    requires HoldsId(WorldAt(run, i), key, id) && !HoldsId(WorldAt(run, i + 1), key, id)
    ensures Introduced(run, i + 1, id) && Dead(WorldAt(run, i + 1), id)
  {
    hide Step, WorldAt;
    IdsAreIntroducedAndDistinct(run, i);
    var w := WorldAt(run, i + 1);
    forall k
      ensures !HoldsId(w, k, id)
    {
      if HoldsId(w, k, id) { HeldBefore(run, i, k, id); }
    }
  }

  /** Redis release: once a grain's record is removed, no grain is ever stored again under its placement ID. */
  lemma RedisReleasedIdStaysGone(run: RRun, i: nat, j: nat, key: string, p: Placement, other: string, q: Placement)
    requires WellTimed(run) && FreshRequests(run) && i < j <= |run.ticks|
    requires Load(KeysAt(run, i).placement, key) == Loaded(p) && Load(KeysAt(run, i + 1).placement, key).Missing?
    requires Load(KeysAt(run, j).placement, other) == Loaded(q)
    ensures q.placementId != p.placementId
  {
    hide *;
    IdDies(run, i, key, p);
    LaterWorldLacks(run, i + 1, j, other, p.placementId);
    RunsFollow(run, |run.ticks|, j);
    StoredIsHeld(KeysAt(run, j), other, p.placementId);
  }

  lemma IdDies(run: RRun, i: nat, key: string, p: Placement)
    requires WellTimed(run) && FreshRequests(run) && i < |run.ticks|
    requires Load(KeysAt(run, i).placement, key) == Loaded(p) && Load(KeysAt(run, i + 1).placement, key).Missing?
    ensures var r := Followed(run, |run.ticks|);
            Introduced(r, i + 1, p.placementId) && Dead(WorldAt(r, i + 1), p.placementId)
  {
    hide *;
    var n := |run.ticks|;
    RunsFollow(run, n, i);
    RunsFollow(run, n, i + 1);
    StoredIsHeld(KeysAt(run, i), key, p.placementId);
    StoredIsHeld(KeysAt(run, i + 1), key, p.placementId);
    FollowedIsFresh(run);
    RemovedIdIsDead(Followed(run, n), i, key, p.placementId);
  }

  lemma LaterWorldLacks(run: RRun, i: nat, j: nat, key: string, id: string)
    requires WellTimed(run) && FreshRequests(run) && i <= j <= |run.ticks|
    requires Introduced(Followed(run, |run.ticks|), i, id) && Dead(WorldAt(Followed(run, |run.ticks|), i), id)
    ensures !HoldsId(WorldAt(Followed(run, |run.ticks|), j), key, id)
  {
    hide *;
    FollowedIsFresh(run);
    DeadStaysDead(Followed(run, |run.ticks|), i, j, id);
    DeadIsNotHeld(WorldAt(Followed(run, |run.ticks|), j), key, id);
  }

  lemma StoredIsHeld(k: Keys, key: string, id: string)
    requires Reachable(k)
    ensures HoldsId(Abs(k), key, id) <==>
            Load(k.placement, key).Loaded? && Load(k.placement, key).value.placementId == id
  {
    hide Reachable, Abs, GoodPlacement;
    StoredPlacement(k, key);
  }

  lemma DeadIsNotHeld(w: World, key: string, id: string)
    requires Dead(w, id)
    ensures !HoldsId(w, key, id)
  {
  }
}

/** Why commands are refused. For each command and each error the records say whether it is a reason; a command is
    refused in process exactly when there is a reason, and the error it answers is one. With a current read the Redis
    scripts answer only errors that are reasons too. */
module Refusals {
  import opened Types
  import opened Naming
  import opened Decimal
  import opened Keyspace
  import opened Protocol
  import opened RedisInvariant
  import opened NodeRefinement
  import opened SelectionRefinement
  import opened PlacementRefinement
  import opened RedisRuns
  import ProtocolRuns
  import Schedule
  import NodeScripts
  import PlacementScripts

  // ------------------------------------------------------------------------------------------
  // Reasons.

  predicate Unnamed(n: Node) {
    n.session == "" || NewNodeIdentity(n.nodeType, n.nodeGroup, n.nodeName) != Some(n.identity)
  }

  /** The target of an allocation or a resolution has a grain key, and a type and group that a node can have. */
  predicate Spelled(t: Target) {
    NewGrainKey(t.kind, t.grainId).Some? && NewNodeIdentity(t.nodeType, t.nodeGroup, "target").Some?
  }

  predicate Over(n: Node, now: int) {
    now >= n.lease.expireAt
  }

  predicate Negative(m: Metrics) {
    m.cpu < 0 || m.memory < 0 || m.goroutines < 0
  }

  predicate MarkedName(w: World, g: Group, name: string) {
    g in w.invalid && name in w.invalid[g]
  }

  /** A grain whose owner still serves the session it was placed on. */
  predicate Served(w: World, key: string, now: int)
    requires key in w.placements
  {
    var p := w.placements[key];
    && p.nodeIdentity in w.nodes && w.nodes[p.nodeIdentity].session == p.ownerSession
    && w.nodes[p.nodeIdentity].status != Offline && !Over(w.nodes[p.nodeIdentity], now)
  }

  /** A grain whose owner is up under a new session. */
  predicate OwnerReturned(w: World, key: string, now: int)
    requires key in w.placements
  {
    var p := w.placements[key];
    && p.nodeIdentity in w.nodes && w.nodes[p.nodeIdentity].session != p.ownerSession
    && w.nodes[p.nodeIdentity].status != Offline && !Over(w.nodes[p.nodeIdentity], now)
  }

  /** A registered node that is active, unexpired and not marked. */
  predicate Open(w: World, id: string, now: int) {
    && id in w.nodes && w.nodes[id].status == Active && !Over(w.nodes[id], now)
    && !MarkedName(w, Group(w.nodes[id].nodeType, w.nodes[id].nodeGroup), w.nodes[id].nodeName)
  }

  predicate OpenFor(w: World, n: Node, g: Group, now: int) {
    && Open(w, n.identity, now) && w.nodes[n.identity].session == n.session
    && w.nodes[n.identity].nodeType == g.nodeType && w.nodes[n.identity].nodeGroup == g.nodeGroup
  }

  predicate StaleToken(w: World, key: string, placementId: string, version: int) {
    key in w.placements && (w.placements[key].placementId != placementId || w.placements[key].version != version)
  }

  /** A resolution has to find a node: the grain is new, or its owner is down and marked. */
  predicate NeedsNode(w: World, now: int, t: Target) {
    var key := t.kind + "/" + t.grainId;
    key in w.placements ==>
      && GroupOfIdentity(w.placements[key].nodeIdentity) == t.GroupOf()
      && !Served(w, key, now) && !OwnerReturned(w, key, now)
      && MarkedName(w, t.GroupOf(), NodeName(w.placements[key].nodeIdentity))
  }

  ghost predicate NodeReason(w: World, now: int, c: Command, e: Error) {
    match c
    case CRegister(n) =>
      || (e == InvalidIdentity && Unnamed(n))
      || (e == InvalidNodeSession && !Unnamed(n) && n.identity in w.nodes && w.nodes[n.identity].session != n.session)
      || (e == NodeLeaseExpired && !Unnamed(n) && n.identity in w.nodes
          && (w.nodes[n.identity].status == Offline || Over(w.nodes[n.identity], now)))
    case CReplace(n) =>
      || (e == InvalidIdentity && Unnamed(n))
      || (e == InvalidNodeSession && !Unnamed(n) && n.identity in w.nodes && w.nodes[n.identity].session == n.session)
    case CRenewNode(id, session, metrics) =>
      || (e == NodeNotFound && (id !in w.nodes || w.nodes[id].status == Offline))
      || (e == InvalidNodeSession && id in w.nodes && w.nodes[id].session != session)
      || (e == NodeLeaseExpired && id in w.nodes && Over(w.nodes[id], now))
      || (e == ConfigInvalid && metrics.Some? && Negative(metrics.value))
    case CExpireOne(id) =>
      e == NodeNotFound && (id !in w.nodes || w.nodes[id].status == Offline || !Over(w.nodes[id], now))
    case CDrain(id) =>
      || (e == NodeNotFound && (id !in w.nodes || w.nodes[id].status == Offline))
      || (e == NodeNotInvalid && id in w.nodes
          && !MarkedName(w, Group(w.nodes[id].nodeType, w.nodes[id].nodeGroup), w.nodes[id].nodeName))
    case CUnregister(id, session) =>
      || (e == NodeNotFound && id !in w.nodes)
      || (e == InvalidNodeSession && id in w.nodes && w.nodes[id].session != session)
    case CCompleteDrain(id, session) =>
      || (e == NodeNotFound && id !in w.nodes)
      || (e == InvalidNodeSession && id in w.nodes && w.nodes[id].session != session)
      || (e == NodeHasPlacements && id in w.nodes
          && exists key :: key in w.placements && w.placements[key].nodeIdentity == id)
    case CMarkInvalid(t, g, n) => e == InvalidIdentity && NewNodeIdentity(t, g, n).None?
    case CRestore(t, g, n) => e == InvalidIdentity && NewNodeIdentity(t, g, n).None?
    case _ => false
  }

  ghost predicate PlacementReason(w: World, now: int, c: Command, e: Error) {
    match c
    case CAllocate(t, _, chosen) =>
      var key := t.kind + "/" + t.grainId;
      || (e == InvalidIdentity && NewGrainKey(t.kind, t.grainId).None?)
      || (e == OwnerUnavailable && NewGrainKey(t.kind, t.grainId).Some? && key in w.placements && !Served(w, key, now))
      || (e == NoAvailableNode && NewGrainKey(t.kind, t.grainId).Some? && key !in w.placements
          && !OpenFor(w, chosen, t.GroupOf(), now))
    case CResolve(t, _, pick) =>
      var key := t.kind + "/" + t.grainId;
      || (e == InvalidIdentity && !Spelled(t))
      || (e == TargetMismatch && Spelled(t) && key in w.placements
          && GroupOfIdentity(w.placements[key].nodeIdentity) != t.GroupOf())
      || (e == OwnerUnavailable && Spelled(t) && key in w.placements && !Served(w, key, now)
          && GroupOfIdentity(w.placements[key].nodeIdentity) == t.GroupOf() && !OwnerReturned(w, key, now)
          && !MarkedName(w, t.GroupOf(), NodeName(w.placements[key].nodeIdentity)))
      || (e == NoAvailableNode && Spelled(t) && NeedsNode(w, now, t)
          && (pick.None? || !OpenFor(w, pick.value, t.GroupOf(), now)))
      || (e == StrategyFailed && Spelled(t) && NeedsNode(w, now, t) && pick.None?)
    case CRenew(c) =>
      || (e == PlacementNotFound && c.grainKey !in w.placements)
      || (e == InvalidOwner && c.grainKey in w.placements && w.placements[c.grainKey].nodeIdentity != c.nodeIdentity)
      || (e == VersionConflict && StaleToken(w, c.grainKey, c.placementId, c.version))
      || (e == OwnerUnavailable && c.grainKey in w.placements
          && var id := w.placements[c.grainKey].nodeIdentity; id !in w.nodes || w.nodes[id].status == Offline)
      || (e == InvalidNodeSession && c.grainKey in w.placements
          && var p := w.placements[c.grainKey];
             p.nodeIdentity in w.nodes
             && (p.ownerSession != c.session || w.nodes[p.nodeIdentity].session != c.session))
      || (e == NodeLeaseExpired && c.grainKey in w.placements
          && var id := w.placements[c.grainKey].nodeIdentity; id in w.nodes && Over(w.nodes[id], now))
    case CRelease(c) =>
      || (e == PlacementNotFound && c.grainKey !in w.placements)
      || (e == InvalidOwner && c.grainKey in w.placements && w.placements[c.grainKey].nodeIdentity != c.nodeIdentity)
      || (e == VersionConflict && StaleToken(w, c.grainKey, c.placementId, c.version))
      || (e == OwnerUnavailable && c.grainKey in w.placements && w.placements[c.grainKey].nodeIdentity !in w.nodes)
      || (e == InvalidNodeSession && c.grainKey in w.placements
          && var p := w.placements[c.grainKey];
             p.nodeIdentity in w.nodes
             && (p.ownerSession != c.session || w.nodes[p.nodeIdentity].session != c.session))
    case CTransfer(key, placementId, from, to, version) =>
      || (e == PlacementNotFound && key !in w.placements)
      || (e == VersionConflict && StaleToken(w, key, placementId, version))
      || (e == InvalidOwner && from != "" && key in w.placements && w.placements[key].nodeIdentity != from)
      || (e == NoAvailableNode && key in w.placements && !Open(w, to, now))
    case CRecover(key, placementId, to, version) =>
      || (e == PlacementNotFound && key !in w.placements)
      || (e == VersionConflict && StaleToken(w, key, placementId, version))
      || (e == PlacementNotRecoverable && key in w.placements && Served(w, key, now))
      || (e == NoAvailableNode && key in w.placements && !Open(w, to, now))
    case _ => false
  }

  ghost predicate Reason(w: World, now: int, c: Command, e: Error) {
    NodeReason(w, now, c, e) || PlacementReason(w, now, c, e)
  }

  // ------------------------------------------------------------------------------------------
  // In process.

  function Why<R>(r: Result<R>): Option<Error> {
    match r case Ok(_) => None case Err(e) => Some(e)
  }

  /** The error a command answers. */
  function Refusal(w: World, ttl: int, now: int, c: Command): Option<Error> {
    match c
    case CRegister(n) => Why(RegisterNode(w, ttl, now, n).reply)
    case CReplace(n) => Why(ReplaceNodeSession(w, ttl, now, n).reply)
    case CRenewNode(id, session, metrics) => Why(RenewNode(w, now, id, session, metrics).reply)
    case CExpireOne(id) => Why(ExpireOne(w, now, id).reply)
    case CDrain(id) => Why(DrainNode(w, id).reply)
    case CUnregister(id, session) => Why(Unregister(w, id, session, false).reply)
    case CCompleteDrain(id, session) => Why(Unregister(w, id, session, true).reply)
    case CMarkInvalid(t, g, n) => Why(MarkNodeInvalid(w, t, g, n).reply)
    case CRestore(t, g, n) => Why(RestoreNode(w, t, g, n).reply)
    case CAllocate(t, id, chosen) => Why(AllocateCommit(w, now, t, id, chosen).reply)
    case CResolve(t, id, pick) => Why(ResolveRoute(w, now, t, id, pick).reply)
    case CRenew(claim) => Why(Renew(w, now, claim).reply)
    case CRelease(claim) => Why(Release(w, now, claim).reply)
    case CTransfer(key, id, from, to, version) => Why(Transfer(w, now, key, id, from, to, version).reply)
    case CRecover(key, id, to, version) => Why(Recover(w, now, key, id, to, version).reply)
    case CIdle => None
  }

  /** The error is a reason, and without one there is no reason; a refused command changes and announces nothing. */
  ghost predicate Justified(w: World, ttl: int, now: int, c: Command) {
    match Refusal(w, ttl, now, c)
    case Some(e) => Reason(w, now, c, e) && Step(w, ttl, now, c) == Effect(w, [], false)
    case None => forall e :: !Reason(w, now, c, e)
  }

  lemma NodeRefusals(w: World, ttl: int, now: int, c: Command)
    requires Valid(w) && ProtocolRuns.IsNodeCommand(c) && !c.CCompleteDrain?
    ensures Justified(w, ttl, now, c)
  {
    hide NewNodeIdentity, Valid, AddName, DropName, Owned, Enrolled, Renewed, PlacementReason;
    PlacedAreActive(w);
    PlacementReasonsAreOthers(w, now, c);
  }

  lemma PlacementReasonsAreOthers(w: World, now: int, c: Command)
    requires ProtocolRuns.IsNodeCommand(c)
    ensures forall e :: !PlacementReason(w, now, c, e)
  {
  }

  lemma DrainRefusals(w: World, ttl: int, now: int, c: Command)
    requires Valid(w) && c.CCompleteDrain?
    ensures Justified(w, ttl, now, c)
  {
    hide NoEmptySet, GoodNode, GoodPlacement;
    if Owned(w.byNode, c.identity) != {} {
      var key :| key in Owned(w.byNode, c.identity);
      assert key in w.placements && w.placements[key].nodeIdentity == c.identity;
    }
    assert forall key :: key in w.placements ==> key in Owned(w.byNode, w.placements[key].nodeIdentity);
    hide Owned;
  }

  lemma AllocationRefusals(w: World, ttl: int, now: int, c: Command)
    requires Valid(w) && c.CAllocate?
    ensures Justified(w, ttl, now, c)
  {
    hide NewGrainKey, Valid, Create;
    GrainKeyIsJoined(c.target.kind, c.target.grainId);
    PlacedAreActive(w);
  }

  lemma ResolutionRefusals(w: World, ttl: int, now: int, c: Command)
    requires Valid(w) && c.CResolve?
    ensures Justified(w, ttl, now, c)
  {
    hide NewGrainKey, NewNodeIdentity, Valid, Create, Move, NodeType, NodeGroup, NodeName, ChooseTarget, OpenFor,
         TargetNamed, Spelled;
    GrainKeyIsJoined(c.target.kind, c.target.grainId);
    PlacedAreActive(w);
    PickIsOpen(w, now, c.target.GroupOf(), c.pick);
    NamedTarget(c.target);
  }

  lemma NamedTarget(t: Target)
    ensures TargetNamed(t) <==> Spelled(t)
    ensures TargetNamed(t) ==> NewGrainKey(t.kind, t.grainId).Some?
  {
  }

  /** A strategy's answer is accepted exactly when its node is open for the group under its session. */
  lemma PickIsOpen(w: World, now: int, g: Group, pick: Option<Node>)
    ensures match ChooseTarget(w, now, g, pick)
            case Ok(_) => pick.Some? && OpenFor(w, pick.value, g, now)
            case Err(NoAvailableNode) => pick.None? || !OpenFor(w, pick.value, g, now)
            case Err(e) => e == StrategyFailed && pick.None?
  {
    if pick.Some? && OpenFor(w, pick.value, g, now) {
      assert pick.value.identity in Candidates(w, now, g);
    }
  }

  lemma ClaimRefusals(w: World, ttl: int, now: int, c: Command)
    requires Valid(w) && (c.CRenew? || c.CRelease?)
    ensures Justified(w, ttl, now, c)
  {
    hide Valid, DropIndex;
    PlacedAreActive(w);
  }

  lemma TransferRefusals(w: World, ttl: int, now: int, c: Command)
    requires Valid(w) && c.CTransfer?
    ensures Justified(w, ttl, now, c)
  {
    hide Valid, Move, Moved;
    PlacedAreActive(w);
  }

  lemma RecoveryRefusals(w: World, ttl: int, now: int, c: Command)
    requires Valid(w) && c.CRecover?
    ensures Justified(w, ttl, now, c)
  {
    hide Valid, Move, Moved;
    PlacedAreActive(w);
  }

  /** A command is refused exactly when there is a reason, with an error that is one, and then leaves everything as it
      was. */
  lemma RefusalsAreJustified(w: World, ttl: int, now: int, c: Command)
    requires Valid(w)
    ensures Justified(w, ttl, now, c)
  {
    hide *;
    match c
    case CAllocate(_, _, _) => AllocationRefusals(w, ttl, now, c);
    case CResolve(_, _, _) => ResolutionRefusals(w, ttl, now, c);
    case CRenew(_) => ClaimRefusals(w, ttl, now, c);
    case CRelease(_) => ClaimRefusals(w, ttl, now, c);
    case CTransfer(_, _, _, _, _) => TransferRefusals(w, ttl, now, c);
    case CRecover(_, _, _, _) => RecoveryRefusals(w, ttl, now, c);
    case CCompleteDrain(_, _) => DrainRefusals(w, ttl, now, c);
    case _ =>
      IsNode(c);
      NodeRefusals(w, ttl, now, c);
  }

  lemma IsNode(c: Command)
    ensures ProtocolRuns.IsNodeCommand(c)
            <==> !c.CAllocate? && !c.CResolve? && !c.CRenew? && !c.CRelease? && !c.CTransfer? && !c.CRecover?
  {
  }

  // ------------------------------------------------------------------------------------------
  // Redis.

  function Denied<R>(r: Response<R>): Option<Error> {
    if r.Refused? then Some(r.error) else None
  }

  /** The error a request answers whose client read the keyspace its script finds. */
  ghost function ScriptRefusal(k: Keys, ttl: int, now: int, policy: PlacementScripts.Policy,
      c: Request): Option<Error> {
    match c
    case RRegister(n) => Denied(NodeScripts.Register(k, ttl, now, n).reply)
    case RReplace(n) => Denied(NodeScripts.Replace(k, ttl, now, n).reply)
    case RRenewNode(id, session, metrics) =>
      Denied(NodeScripts.RenewNode(k, now, id, session, metrics, ReadNode(k, id)).reply)
    case RUnregister(id, session, guarded) =>
      Denied(NodeScripts.Unregister(k, id, session, guarded, ReadNode(k, id)).reply)
    case RDrain(id) => Denied(NodeScripts.Drain(k, id, ReadNode(k, id)).reply)
    case RMarkInvalid(t, g, n) => Denied(NodeScripts.MarkInvalid(k, t, g, n).reply)
    case RRestore(t, g, n) => Denied(NodeScripts.Restore(k, t, g, n).reply)
    case RExpire(id, g, score) => Denied(NodeScripts.ExpireNode(k, now, id, g, ReadRecord(k, id), score).reply)
    case RAllocate(t, id) => Denied(PlacementScripts.Allocate(k, now, policy, t, id, ReadTarget(k, t)).reply)
    case RResolve(t, id) => Denied(PlacementScripts.ResolveRoute(k, now, policy, t, id, ReadTarget(k, t)).reply)
    case RRenew(claim) => Denied(PlacementScripts.Renew(k, now, claim, ReadPlacement(k, claim.grainKey)).reply)
    case RMutate(key, id, version, m) =>
      Denied(PlacementScripts.Mutate(k, now, key, id, version, m, ReadPlacement(k, key)).reply)
  }

  /** Metrics that only Redis refuses, because a Lua number does not hold them exactly. */
  predicate TooLarge(c: Request, e: Error) {
    c.RRenewNode? && e == ConfigInvalid && c.metrics.Some?
    && (c.metrics.value.cpu > 9007199254740991 || c.metrics.value.memory > 9007199254740991
        || c.metrics.value.goroutines > 9007199254740991)
  }

  ghost predicate ScriptJustified(k: Keys, ttl: int, now: int, policy: PlacementScripts.Policy, c: Request) {
    match ScriptRefusal(k, ttl, now, policy, c)
    case Some(e) => Reason(Abs(k), now, Counterpart(k, now, policy, c), e) || TooLarge(c, e)
    case None => true
  }

  lemma EnrolmentDenials(k: Keys, ttl: int, now: int, policy: PlacementScripts.Policy, c: Request)
    requires Reachable(k) && (c.RRegister? || c.RReplace? || c.RMarkInvalid? || c.RRestore?)
    ensures ScriptJustified(k, ttl, now, policy, c)
  {
    hide Reachable, Abs, NewNodeIdentity, Score, NodeScripts.Enroll, NodeScripts.ScoreAgrees, PlacementReason;
    FamiliesHold(k);
    if c.RRegister? || c.RReplace? { StoredNode(k, c.node.identity); }
  }

  lemma RenewalDenials(k: Keys, ttl: int, now: int, policy: PlacementScripts.Policy, c: Request)
    requires Reachable(k) && (c.RRenewNode? || c.RExpire?)
    ensures ScriptJustified(k, ttl, now, policy, c)
  {
    hide Reachable, Abs, Score, NodeScripts.ScoreAgrees, PlacementReason, NodeScripts.Extend, NodeScripts.Restatus;
    FamiliesHold(k);
    StoredNode(k, c.identity);
  }

  lemma RemovalDenials(k: Keys, ttl: int, now: int, policy: PlacementScripts.Policy, c: Request)
    requires Reachable(k) && c.RUnregister?
    ensures ScriptJustified(k, ttl, now, policy, c)
  {
    hide Reachable, Abs, Score, NodeScripts.ScoreAgrees, PlacementReason, NodeScripts.Forget, Cardinality;
    FamiliesHold(k);
    StoredNode(k, c.identity);
    OwnersHavePlacements(k, c.identity);
  }

  lemma OwnersHavePlacements(k: Keys, id: string)
    requires Reachable(k)
    ensures Cardinality(k.index, id) > 0 ==>
              exists key :: key in Abs(k).placements && Abs(k).placements[key].nodeIdentity == id
  {
    hide Bookkept, Cardinality, GoodNode, GoodPlacement;
    OwnedCount(k, id);
    if Cardinality(k.index, id) > 0 {
      var key :| key in Owned(Abs(k).byNode, id);
      assert key in Abs(k).placements && Abs(k).placements[key].nodeIdentity == id;
    }
  }

  lemma DrainDenials(k: Keys, ttl: int, now: int, policy: PlacementScripts.Policy, c: Request)
    requires Reachable(k) && c.RDrain?
    ensures ScriptJustified(k, ttl, now, policy, c)
  {
    hide Reachable, Abs, Score, NodeScripts.ScoreAgrees, PlacementReason, NodeScripts.Restatus, Members;
    FamiliesHold(k);
    StoredNode(k, c.identity);
    if ReadNode(k, c.identity).Some? {
      var n := ReadNode(k, c.identity).value;
      NamesMatch(k, n.GroupOf(), n.nodeName);
    }
  }

  /** The current read of a grain. */
  lemma TargetIsRead(k: Keys, t: Target)
    requires Reachable(k) && NewGrainKey(t.kind, t.grainId).Some?
    ensures var key, w := t.kind + "/" + t.grainId, Abs(k);
            && NewGrainKey(t.kind, t.grainId).value == key
            && ReadTarget(k, t) == (if key in w.placements then Some(w.placements[key]) else None)
            && Load(k.placement, key) == (if key in w.placements then Loaded(w.placements[key]) else Missing)
            && (key in w.placements ==>
                  && w.placements[key].status == PlacementActive && w.placements[key].grainKey == key
                  && WellFormedIdentity(w.placements[key].nodeIdentity))
  {
    hide Reachable, Abs, WellFormedIdentity, NewGrainKey;
    StoredPlacement(k, t.kind + "/" + t.grainId);
    GrainKeyIsJoined(t.kind, t.grainId);
  }

  /** The scripts' test of an owner is whether it is up. */
  lemma OwnerIsLive(k: Keys, now: int, id: string)
    requires Reachable(k)
    ensures Load(k.node, id) == if id in Abs(k).nodes then Loaded(RedisNode(Abs(k).nodes[id], id, id)) else Missing
    ensures id in Abs(k).nodes ==>
              var n := Abs(k).nodes[id];
              && (PlacementScripts.LiveOwner(k, now, id, GroupOfIdentity(id), RedisNode(n, id, id))
                  <==> n.status != Offline && now < n.lease.expireAt)
              && n.identity == id && n.GroupOf() == GroupOfIdentity(id) && n.nodeName == NodeName(id)
              && n.lease.version > 0 && n.lease.ttl > 0
  {
    hide Reachable, Abs, PlacementScripts.LiveOwner, NodeType, NodeGroup, NodeName;
    StoredNode(k, id);
    if id in Abs(k).nodes { LiveIsUsable(k, now, id); }
  }

  lemma NoNodeIsClosed(k: Keys, g: Group, now: int)
    requires Reachable(k)
    ensures !OpenFor(Abs(k), ProtocolRuns.NO_NODE, g, now)
  {
    hide Reachable, Abs;
    StoredNode(k, "");
  }

  lemma AllocationDenials(k: Keys, ttl: int, now: int, policy: PlacementScripts.Policy, c: Request)
    requires Reachable(k) && c.RAllocate?
    ensures ScriptJustified(k, ttl, now, policy, c)
  {
    hide Reachable, Abs, PlacementScripts.LiveOwner, PlacementScripts.Select, PlacementScripts.Commit, OpenFor,
         NewGrainKey, GroupOfIdentity, WellFormedIdentity, ReadTarget, NodeReason;
    FamiliesHold(k);
    NoNodeIsClosed(k, c.target.GroupOf(), now);
    if NewGrainKey(c.target.kind, c.target.grainId).Some? {
      TargetIsRead(k, c.target);
      OwnerIsLive(k, now, PlacementScripts.OwnerOf(ReadTarget(k, c.target)));
      SelectionFails(k, now, policy, c.target.GroupOf(), false);
    }
  }

  lemma SelectionFails(k: Keys, now: int, policy: PlacementScripts.Policy, g: Group, checked: bool)
    ensures var s := PlacementScripts.Select(k, now, policy, g, checked);
            s.Unselected? ==> s.error == NoAvailableNode
  {
    hide PlacementScripts.Gather, PlacementScripts.NodeKeys, Schedule.Choice, ReadCounter, MaxSequence, MaxRoundRobin;
  }

  lemma ResolutionDenials(k: Keys, ttl: int, now: int, policy: PlacementScripts.Policy, c: Request)
    requires Reachable(k) && c.RResolve?
    ensures ScriptJustified(k, ttl, now, policy, c)
  {
    hide Reachable, Abs, PlacementScripts.LiveOwner, PlacementScripts.Select, PlacementScripts.Commit, OpenFor,
         NewGrainKey, NodeType, NodeGroup, NodeName, ReadTarget, NodeReason, TargetNamed, Spelled, Members;
    FamiliesHold(k);
    NamedTarget(c.target);
    if TargetNamed(c.target) {
      TargetIsRead(k, c.target);
      var owner := PlacementScripts.OwnerOf(ReadTarget(k, c.target));
      OwnerIsLive(k, now, owner);
      SelectionFails(k, now, policy, c.target.GroupOf(), true);
      NamesMatch(k, c.target.GroupOf(), NodeName(owner));
    }
  }

  lemma ClaimDenials(k: Keys, ttl: int, now: int, policy: PlacementScripts.Policy, c: Request)
    requires Reachable(k) && c.RRenew?
    ensures ScriptJustified(k, ttl, now, policy, c)
  {
    hide Reachable, Abs, GroupOfIdentity, NodeReason, WellFormedIdentity, Score;
    FamiliesHold(k);
    StoredPlacement(k, c.claim.grainKey);
    var owner := PlacementScripts.OwnerOf(ReadPlacement(k, c.claim.grainKey));
    OwnerIsLive(k, now, owner);
    StoredNode(k, owner);
  }

  lemma MutationDenials(k: Keys, ttl: int, now: int, policy: PlacementScripts.Policy, c: Request)
    requires Reachable(k) && c.RMutate?
    ensures ScriptJustified(k, ttl, now, policy, c)
  {
    hide Reachable, Abs, NodeReason, WellFormedIdentity, Score, PlacementScripts.Receives, PlacementScripts.Healthy,
         PlacementScripts.Place, PlacementScripts.Unindex, NodeType, NodeGroup, NodeName, ReadCounter, MaxSequence,
         Open;
    FamiliesHold(k);
    StoredPlacement(k, c.grainKey);
    var seen, target := ReadPlacement(k, c.grainKey), PlacementScripts.TargetOf(c.mutation);
    OwnerIsLive(k, now, PlacementScripts.OwnerOf(seen));
    OwnerIsLive(k, now, target);
    TargetIsOpen(k, now, target);
    if seen.Some? { HealthyIsServed(k, now, c.grainKey); }
  }

  lemma TargetIsOpen(k: Keys, now: int, id: string)
    requires Reachable(k)
    ensures id in Abs(k).nodes ==>
              (PlacementScripts.Receives(k, now, id, RedisNode(Abs(k).nodes[id], id, id)) <==> Open(Abs(k), id, now))
    ensures id !in Abs(k).nodes ==> !Open(Abs(k), id, now)
  {
    hide Reachable, Abs, PlacementScripts.Receives;
    if id in Abs(k).nodes { ReceivesIsAvailable(k, now, id); }
  }

  lemma HealthyIsServed(k: Keys, now: int, key: string)
    requires Reachable(k) && key in Abs(k).placements
    ensures PlacementScripts.Healthy(k, now, Abs(k).placements[key]) <==> Served(Abs(k), key, now)
  {
    hide Reachable, Abs, PlacementScripts.LiveOwner, NodeType, NodeGroup, NodeName;
    OwnerIsLive(k, now, Abs(k).placements[key].nodeIdentity);
  }

  /** With a current read a script answers an error only for a reason that holds of the stored records. */
  lemma ScriptRefusalsAreJustified(k: Keys, ttl: int, now: int, policy: PlacementScripts.Policy, c: Request)
    requires Reachable(k)
    ensures ScriptJustified(k, ttl, now, policy, c)
  {
    hide *;
    match c
    case RRenewNode(_, _, _) => RenewalDenials(k, ttl, now, policy, c);
    case RExpire(_, _, _) => RenewalDenials(k, ttl, now, policy, c);
    case RUnregister(_, _, _) => RemovalDenials(k, ttl, now, policy, c);
    case RDrain(_) => DrainDenials(k, ttl, now, policy, c);
    case RAllocate(_, _) => AllocationDenials(k, ttl, now, policy, c);
    case RResolve(_, _) => ResolutionDenials(k, ttl, now, policy, c);
    case RRenew(_) => ClaimDenials(k, ttl, now, policy, c);
    case RMutate(_, _, _, _) => MutationDenials(k, ttl, now, policy, c);
    case _ => EnrolmentDenials(k, ttl, now, policy, c);
  }
}

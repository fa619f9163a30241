/** The placement protocol as pure steps over one world value: what each directory and registry command does
    to placements, their reverse index, node leases and invalid-name sets, and which event it emits. */
module Protocol {
  import opened Types
  import opened Naming
  import opened Ordering

  datatype World = World(
    placements: map<string, Placement>,
    byNode: map<string, set<string>>,
    nodes: map<string, Node>,
    invalid: map<Group, set<string>>)

  const EMPTY_WORLD := World(map[], map[], map[], map[])

  datatype Outcome<+R> = Outcome(world: World, events: seq<Event>, reply: Result<R>)

  function Refuse<R>(w: World, e: Error): Outcome<R> {
    Outcome(w, [], Err(e))
  }

  function Reply<R>(w: World, r: R): Outcome<R> {
    Outcome(w, [], Ok(r))
  }

  datatype Target = Target(kind: string, grainId: string, nodeType: string, nodeGroup: string)
  {
    function GroupOf(): Group { Group(nodeType, nodeGroup) }
  }

  /** The identity a caller presents to renew or release a placement. */
  datatype Claim = Claim(
    grainKey: string,
    placementId: string,
    nodeIdentity: string,
    session: string,
    version: int)

  // ------------------------------------------------------------------------------------------
  // Reverse index.

  function Owned(byNode: map<string, set<string>>, n: string): set<string> {
    if n in byNode then byNode[n] else {}
  }

  /** The grains a world has placed on a node. */
  ghost function GrainsOn(w: World, id: string): set<string> {
    set key | key in w.placements && w.placements[key].nodeIdentity == id
  }

  function AddIndex(byNode: map<string, set<string>>, n: string, k: string): (r: map<string, set<string>>)
    ensures forall m :: Owned(r, m) == if m == n then Owned(byNode, n) + {k} else Owned(byNode, m)
    ensures NoEmptySet(byNode) ==> NoEmptySet(r)
  {
    byNode[n := Owned(byNode, n) + {k}]
  }

  function DropIndex(byNode: map<string, set<string>>, n: string, k: string): (r: map<string, set<string>>)
    ensures forall m :: Owned(r, m) == if m == n then Owned(byNode, n) - {k} else Owned(byNode, m)
    ensures NoEmptySet(byNode) ==> NoEmptySet(r)
  {
    var rest := Owned(byNode, n) - {k};
    if rest == {} then byNode - {n} else byNode[n := rest]
  }

  ghost predicate NoEmptySet<K(!new)>(m: map<K, set<string>>) {
    forall n :: n in m ==> m[n] != {}
  }

  // ------------------------------------------------------------------------------------------
  // Node state.

  predicate LeaseExpired(n: Node, now: int) {
    now >= n.lease.expireAt
  }

  predicate SessionUsable(n: Node, now: int) {
    (n.status == Active || n.status == Draining) && !LeaseExpired(n, now)
  }

  predicate NameInvalid(w: World, g: Group, name: string) {
    g in w.invalid && name in w.invalid[g]
  }

  predicate Available(w: World, n: Node, now: int) {
    n.status == Active && !LeaseExpired(n, now) && !NameInvalid(w, n.GroupOf(), n.nodeName)
  }

  predicate Routeable(w: World, p: Placement, now: int) {
    && p.status == PlacementActive
    && p.nodeIdentity in w.nodes
    && p.ownerSession == w.nodes[p.nodeIdentity].session
    && SessionUsable(w.nodes[p.nodeIdentity], now)
  }

  function GrantOf(n: Node): Grant {
    Grant(n.lease.version, n.lease.expireAt)
  }

  function NewLease(ttl: int, now: int): Lease {
    Lease(INITIAL_LEASE_VERSION, ttl, now + ttl)
  }

  predicate NormalizedNode(n: Node) {
    n.session != "" && NewNodeIdentity(n.nodeType, n.nodeGroup, n.nodeName) == Some(n.identity)
  }

  // ------------------------------------------------------------------------------------------
  // Registry commands.

  function Enrolled(node: Node, ttl: int, now: int): Node {
    node.(metrics := ZERO_METRICS, status := Active, lease := NewLease(ttl, now))
  }

  function RegisterNode(w: World, ttl: int, now: int, node: Node): Outcome<Grant> {
    if !NormalizedNode(node) then Refuse(w, InvalidIdentity)
    else if node.identity in w.nodes then
      var existing := w.nodes[node.identity];
      if existing.session != node.session then Refuse(w, InvalidNodeSession)
      else if existing.status == Offline || LeaseExpired(existing, now) then Refuse(w, NodeLeaseExpired)
      else Reply(w, GrantOf(existing))
    else
      var added := Enrolled(node, ttl, now);
      Outcome(w.(nodes := w.nodes[node.identity := added]), [NodeEvent(NodeRegistered, added)], Ok(GrantOf(added)))
  }

  function Renewed(n: Node, now: int, metrics: Option<Metrics>): Node {
    var lease := Lease(n.lease.version + 1, n.lease.ttl, Max(n.lease.expireAt, now + n.lease.ttl));
    n.(lease := lease, metrics := if metrics.Some? then metrics.value.(updatedAt := now) else n.metrics)
  }

  predicate MetricsNegative(m: Metrics) {
    m.cpu < 0 || m.memory < 0 || m.goroutines < 0
  }

  function RenewNode(w: World, now: int, identity: string, session: string, metrics: Option<Metrics>): Outcome<Grant> {
    if identity !in w.nodes || w.nodes[identity].status == Offline then Refuse(w, NodeNotFound)
    else
      var n := w.nodes[identity];
      if n.session != session then Refuse(w, InvalidNodeSession)
      else if LeaseExpired(n, now) then Refuse(w, NodeLeaseExpired)
      else if metrics.Some? && MetricsNegative(metrics.value) then Refuse(w, ConfigInvalid)
      else
        var renewed := Renewed(n, now, metrics);
        Reply(w.(nodes := w.nodes[identity := renewed]), GrantOf(renewed))
  }

  function ReplaceNodeSession(w: World, ttl: int, now: int, node: Node): Outcome<(Option<Node>, Grant)> {
    if !NormalizedNode(node) then Refuse(w, InvalidIdentity)
    else
      var previous := if node.identity in w.nodes then Some(w.nodes[node.identity]) else None;
      if previous.Some? && previous.value.session == node.session then Refuse(w, InvalidNodeSession)
      else
        var added := Enrolled(node, ttl, now);
        Outcome(w.(nodes := w.nodes[node.identity := added]), [NodeEvent(NodeReplaced, added)],
            Ok((previous, GrantOf(added))))
  }

  function Unregister(w: World, identity: string, session: string, guarded: bool): Outcome<()> {
    if identity !in w.nodes then Refuse(w, NodeNotFound)
    else if w.nodes[identity].session != session then Refuse(w, InvalidNodeSession)
    else if guarded && Owned(w.byNode, identity) != {} then Refuse(w, NodeHasPlacements)
    else Outcome(w.(nodes := w.nodes - {identity}), [NodeEvent(NodeUnregistered, w.nodes[identity])], Ok(()))
  }

  predicate Due(w: World, identity: string, now: int) {
    identity in w.nodes && w.nodes[identity].status != Offline && LeaseExpired(w.nodes[identity], now)
  }

  /** Takes one node offline when its own current lease is due. */
  function ExpireOne(w: World, now: int, identity: string): Outcome<()> {
    if Due(w, identity, now) then
      var expired := w.nodes[identity].(status := Offline);
      Outcome(w.(nodes := w.nodes[identity := expired]), [NodeEvent(NodeLeaseExpiredEvent, expired)], Ok(()))
    else Refuse(w, NodeNotFound)
  }

  function ExpireAll(w: World, now: int, identities: seq<string>): Outcome<int>
    decreases |identities|
  {
    if identities == [] then Reply(w, 0)
    else
      var first := ExpireOne(w, now, identities[0]);
      var rest := ExpireAll(first.world, now, identities[1..]);
      match rest.reply
      case Ok(n) => Outcome(rest.world, first.events + rest.events, Ok(n + |first.events|))
      case Err(e) => Outcome(rest.world, first.events + rest.events, Err(e))
  }

  function DueIn(w: World, now: int, g: Group): set<string> {
    set id | id in w.nodes && w.nodes[id].GroupOf() == g && Due(w, id, now)
  }

  /** The first due identities in identity order, at most limit of them. */
  function ScanList(w: World, now: int, g: Group, limit: nat): seq<string> {
    StringLessTotal();
    var due := Sorted(DueIn(w, now, g), StringLess);
    if |due| > limit then due[..limit] else due
  }

  function ExpireNodeLeases(w: World, now: int, g: Group, limit: int): Outcome<int> {
    if limit <= 0 then Reply(w, 0) else ExpireAll(w, now, ScanList(w, now, g, limit))
  }

  function DrainNode(w: World, identity: string): Outcome<()> {
    if identity !in w.nodes then Refuse(w, NodeNotFound)
    else
      var n := w.nodes[identity];
      if !NameInvalid(w, n.GroupOf(), n.nodeName) then Refuse(w, NodeNotInvalid)
      else if n.status == Offline then Refuse(w, NodeNotFound)
      else
        var draining := n.(status := Draining);
        Outcome(w.(nodes := w.nodes[identity := draining]), [NodeEvent(NodeDraining, draining)], Ok(()))
  }

  function NameEvent(kind: EventType, nodeType: string, nodeGroup: string, nodeName: string): Event
    requires NewNodeIdentity(nodeType, nodeGroup, nodeName).Some?
  {
    var identity := NewNodeIdentity(nodeType, nodeGroup, nodeName).value;
    Event(kind, "", "", identity, "", nodeType, nodeGroup, nodeName, 0, 0)
  }

  function AddName(invalid: map<Group, set<string>>, g: Group, name: string): map<Group, set<string>> {
    invalid[g := (if g in invalid then invalid[g] else {}) + {name}]
  }

  function DropName(invalid: map<Group, set<string>>, g: Group, name: string): map<Group, set<string>> {
    var rest := (if g in invalid then invalid[g] else {}) - {name};
    if rest == {} then invalid - {g} else invalid[g := rest]
  }

  function MarkNodeInvalid(w: World, nodeType: string, nodeGroup: string, nodeName: string): Outcome<()> {
    if NewNodeIdentity(nodeType, nodeGroup, nodeName).None? then Refuse(w, InvalidIdentity)
    else Outcome(w.(invalid := AddName(w.invalid, Group(nodeType, nodeGroup), nodeName)),
                 [NameEvent(NodeMarkedInvalid, nodeType, nodeGroup, nodeName)], Ok(()))
  }

  function RestoreNode(w: World, nodeType: string, nodeGroup: string, nodeName: string): Outcome<()> {
    if NewNodeIdentity(nodeType, nodeGroup, nodeName).None? then Refuse(w, InvalidIdentity)
    else Outcome(w.(invalid := DropName(w.invalid, Group(nodeType, nodeGroup), nodeName)),
                 [NameEvent(NodeRestored, nodeType, nodeGroup, nodeName)], Ok(()))
  }

  // ------------------------------------------------------------------------------------------
  // Directory commands.

  function RouteOf(p: Placement, n: Node): Route {
    Route(p.grainKey, p.placementId, p.nodeIdentity, p.ownerSession, p.version, p.status, n.lease.version,
        n.lease.expireAt)
  }

  function Lookup(w: World, now: int, key: string): Result<Route> {
    if key in w.placements && Routeable(w, w.placements[key], now)
    then Ok(RouteOf(w.placements[key], w.nodes[w.placements[key].nodeIdentity]))
    else Err(PlacementNotFound)
  }

  function Candidates(w: World, now: int, g: Group): set<string> {
    set id | id in w.nodes && w.nodes[id].GroupOf() == g && Available(w, w.nodes[id], now)
  }

  /** What a strategy is shown: the candidate nodes in identity order and how many grains each of them owns. */
  datatype StrategyInput = StrategyInput(nodes: seq<Node>, counts: map<string, nat>)

  function NodesAt(nodes: map<string, Node>, ids: seq<string>): (r: seq<Node>)
    requires forall i :: 0 <= i < |ids| ==> ids[i] in nodes
    ensures |r| == |ids| && forall i :: 0 <= i < |ids| ==> r[i] == nodes[ids[i]]
  {
    seq(|ids|, i requires 0 <= i < |ids| => nodes[ids[i]])
  }

  function CountsOf(byNode: map<string, set<string>>, ids: set<string>): map<string, nat> {
    map id | id in ids :: |Owned(byNode, id)|
  }

  function CandidateOrder(w: World, now: int, g: Group): (ids: seq<string>)
    ensures forall i :: 0 <= i < |ids| ==> ids[i] in Candidates(w, now, g)
  {
    StringLessTotal();
    var ids := Sorted(Candidates(w, now, g), StringLess);
    assert forall i :: 0 <= i < |ids| ==> ids[i] in ids;
    ids
  }

  function InputFor(w: World, now: int, g: Group): StrategyInput {
    StrategyInput(NodesAt(w.nodes, CandidateOrder(w, now, g)), CountsOf(w.byNode, Candidates(w, now, g)))
  }

  /** The node a strategy's answer selects: the answer must name a current candidate and its session. */
  function ChooseTarget(w: World, now: int, g: Group, pick: Option<Node>): Result<Node> {
    if Candidates(w, now, g) == {} then Err(NoAvailableNode)
    else if pick.None? then Err(StrategyFailed)
    else
      var id := pick.value.identity;
      if id in Candidates(w, now, g) && w.nodes[id].session == pick.value.session then Ok(w.nodes[id])
      else Err(NoAvailableNode)
  }

  function NewPlacement(t: Target, key: string, placementId: string, n: Node, now: int): Placement {
    Placement(t.grainId, t.kind, key, placementId, n.identity, n.session,
              INITIAL_PLACEMENT_VERSION, PlacementActive, now, now)
  }

  /** Stores a placement created on a node, dropping the index entry of any record it replaces. */
  function Create(w: World, p: Placement): World {
    var cleared := if p.grainKey in w.placements
                   then DropIndex(w.byNode, w.placements[p.grainKey].nodeIdentity, p.grainKey) else w.byNode;
    w.(placements := w.placements[p.grainKey := p], byNode := AddIndex(cleared, p.nodeIdentity, p.grainKey))
  }

  function Moved(p: Placement, n: Node, now: int): Placement {
    p.(nodeIdentity := n.identity, ownerSession := n.session, version := p.version + 1,
       status := PlacementActive, updateTime := now)
  }

  function Move(w: World, p: Placement, n: Node, now: int): World {
    w.(placements := w.placements[p.grainKey := Moved(p, n, now)],
       byNode := AddIndex(DropIndex(w.byNode, p.nodeIdentity, p.grainKey), n.identity, p.grainKey))
  }

  predicate TargetNamed(t: Target) {
    NewGrainKey(t.kind, t.grainId).Some? && NewNodeIdentity(t.nodeType, t.nodeGroup, "target").Some?
  }

  function ResolveRoute(w: World, now: int, t: Target, placementId: string, pick: Option<Node>): Outcome<Route> {
    if !TargetNamed(t) then Refuse(w, InvalidIdentity)
    else
      var key := NewGrainKey(t.kind, t.grainId).value;
      if key in w.placements && w.placements[key].status == PlacementActive then
        var p := w.placements[key];
        var owner := p.nodeIdentity;
        if GroupOfIdentity(owner) != t.GroupOf() then Refuse(w, TargetMismatch)
        else if Routeable(w, p, now) then Reply(w, RouteOf(p, w.nodes[owner]))
        else if owner in w.nodes && SessionUsable(w.nodes[owner], now) && w.nodes[owner].session != p.ownerSession then
          Relocate(w, p, w.nodes[owner], now)
        else if !NameInvalid(w, GroupOfIdentity(owner), NodeName(owner)) then Refuse(w, OwnerUnavailable)
        else match ChooseTarget(w, now, t.GroupOf(), pick)
          case Err(e) => Refuse(w, e)
          case Ok(n) => Relocate(w, p, n, now)
      else match ChooseTarget(w, now, t.GroupOf(), pick)
        case Err(e) => Refuse(w, e)
        case Ok(n) =>
          var p := NewPlacement(t, key, placementId, n, now);
          Outcome(Create(w, p), [PlacementEvent(p, PlacementCreated)], Ok(RouteOf(p, n)))
  }

  /** The recovery move made by a route resolution. */
  function Relocate(w: World, p: Placement, n: Node, now: int): Outcome<Route> {
    var moved := Moved(p, n, now);
    Outcome(Move(w, p, n, now), [PlacementEvent(moved, PlacementRecovered)], Ok(RouteOf(moved, n)))
  }

  /** What a resolution does when a grain's owner is unusable. */
  function RelocateFromBarred(w: World, now: int, t: Target, p: Placement, pick: Option<Node>): Outcome<Route> {
    if !NameInvalid(w, GroupOfIdentity(p.nodeIdentity), NodeName(p.nodeIdentity)) then Refuse(w, OwnerUnavailable)
    else match ChooseTarget(w, now, t.GroupOf(), pick)
      case Err(e) => Refuse(w, e)
      case Ok(n) => Relocate(w, p, n, now)
  }

  /** The branches of a resolution for a grain with an active placement. */
  function ResolvePlaced(w: World, now: int, t: Target, p: Placement, pick: Option<Node>): Outcome<Route> {
    var owner := p.nodeIdentity;
    if GroupOfIdentity(owner) != t.GroupOf() then Refuse(w, TargetMismatch)
    else if Routeable(w, p, now) then Reply(w, RouteOf(p, w.nodes[owner]))
    else if owner in w.nodes && SessionUsable(w.nodes[owner], now) && w.nodes[owner].session != p.ownerSession then
      Relocate(w, p, w.nodes[owner], now)
    else RelocateFromBarred(w, now, t, p, pick)
  }

  lemma ResolvePlacedIsResolve(w: World, now: int, t: Target, placementId: string, pick: Option<Node>, key: string)
    requires TargetNamed(t) && NewGrainKey(t.kind, t.grainId) == Some(key) && key in w.placements
    requires w.placements[key].status == PlacementActive
    ensures ResolveRoute(w, now, t, placementId, pick) == ResolvePlaced(w, now, t, w.placements[key], pick)
  {
    hide NewGrainKey, NewNodeIdentity, NodeType, NodeGroup, NodeName, Candidates;
  }

  /** The first phase of an allocation: an existing placement answers, otherwise candidates are listed. */
  datatype Preparation = Existing(placement: Placement) | Stopped(error: Error) | Proceed(input: StrategyInput)

  function AllocatePrepare(w: World, now: int, t: Target): Preparation {
    if NewGrainKey(t.kind, t.grainId).None? then Stopped(InvalidIdentity)
    else
      var key := NewGrainKey(t.kind, t.grainId).value;
      if key in w.placements && w.placements[key].status == PlacementActive then
        if Routeable(w, w.placements[key], now) then Existing(w.placements[key]) else Stopped(OwnerUnavailable)
      else if Candidates(w, now, t.GroupOf()) == {} then Stopped(NoAvailableNode)
      else Proceed(InputFor(w, now, t.GroupOf()))
  }

  /** The second phase, after a strategy chose a node from what it saw in the first. */
  function AllocateCommit(w: World, now: int, t: Target, placementId: string, chosen: Node): Outcome<Placement> {
    if NewGrainKey(t.kind, t.grainId).None? then Refuse(w, InvalidIdentity)
    else
      var key := NewGrainKey(t.kind, t.grainId).value;
      if key in w.placements && w.placements[key].status == PlacementActive then
        if Routeable(w, w.placements[key], now) then Reply(w, w.placements[key]) else Refuse(w, OwnerUnavailable)
      else if && chosen.identity in w.nodes
              && w.nodes[chosen.identity].session == chosen.session
              && w.nodes[chosen.identity].GroupOf() == t.GroupOf()
              && Available(w, w.nodes[chosen.identity], now)
      then
        var p := NewPlacement(t, key, placementId, w.nodes[chosen.identity], now);
        Outcome(Create(w, p), [PlacementEvent(p, PlacementCreated)], Ok(p))
      else Refuse(w, NoAvailableNode)
  }

  function Renew(w: World, now: int, c: Claim): Outcome<Placement> {
    if c.grainKey !in w.placements || w.placements[c.grainKey].status != PlacementActive
    then Refuse(w, PlacementNotFound)
    else
      var p := w.placements[c.grainKey];
      if p.nodeIdentity != c.nodeIdentity then Refuse(w, InvalidOwner)
      else if p.placementId != c.placementId || p.version != c.version then Refuse(w, VersionConflict)
      else if p.nodeIdentity !in w.nodes || w.nodes[p.nodeIdentity].status == Offline then Refuse(w, OwnerUnavailable)
      else if p.ownerSession != c.session || w.nodes[p.nodeIdentity].session != c.session
      then Refuse(w, InvalidNodeSession)
      else if LeaseExpired(w.nodes[p.nodeIdentity], now) then Refuse(w, NodeLeaseExpired)
      else Outcome(w, [PlacementEvent(p, PlacementRenewed)], Ok(p))
  }

  /** The record is removed, not kept in a released status; its event carries the next version. */
  function Release(w: World, now: int, c: Claim): Outcome<()> {
    if c.grainKey !in w.placements || w.placements[c.grainKey].status != PlacementActive
    then Refuse(w, PlacementNotFound)
    else
      var p := w.placements[c.grainKey];
      if p.nodeIdentity != c.nodeIdentity then Refuse(w, InvalidOwner)
      else if p.placementId != c.placementId || p.version != c.version then Refuse(w, VersionConflict)
      else if p.nodeIdentity !in w.nodes then Refuse(w, OwnerUnavailable)
      else if p.ownerSession != c.session || w.nodes[p.nodeIdentity].session != c.session
      then Refuse(w, InvalidNodeSession)
      else
        Outcome(w.(placements := w.placements - {c.grainKey},
            byNode := DropIndex(w.byNode, p.nodeIdentity, c.grainKey)),
                [PlacementEvent(p.(version := p.version + 1, updateTime := now), PlacementReleasedEvent)], Ok(()))
  }

  function Transfer(w: World, now: int, key: string, placementId: string, from: string, to: string, version: int)
    : Outcome<Placement>
  {
    if key !in w.placements || w.placements[key].status != PlacementActive then Refuse(w, PlacementNotFound)
    else
      var p := w.placements[key];
      if p.placementId != placementId || p.version != version then Refuse(w, VersionConflict)
      else if from != "" && p.nodeIdentity != from then Refuse(w, InvalidOwner)
      else if to !in w.nodes || !Available(w, w.nodes[to], now) then Refuse(w, NoAvailableNode)
      else
        var moved := Moved(p, w.nodes[to], now);
        Outcome(Move(w, p, w.nodes[to], now), [PlacementEvent(moved, PlacementTransferred)], Ok(moved))
  }

  function Recover(w: World, now: int, key: string, placementId: string, to: string, version: int): Outcome<Placement> {
    if key !in w.placements then Refuse(w, PlacementNotFound)
    else
      var p := w.placements[key];
      if p.placementId != placementId || p.version != version then Refuse(w, VersionConflict)
      else if p.status != PlacementActive || Routeable(w, p, now) then Refuse(w, PlacementNotRecoverable)
      else if to !in w.nodes || !Available(w, w.nodes[to], now) then Refuse(w, NoAvailableNode)
      else
        var moved := Moved(p, w.nodes[to], now);
        Outcome(Move(w, p, w.nodes[to], now), [PlacementEvent(moved, PlacementRecovered)], Ok(moved))
  }

  // ------------------------------------------------------------------------------------------
  // One step.

  datatype Command =
    | CRegister(node: Node)
    | CRenewNode(identity: string, session: string, metrics: Option<Metrics>)
    | CReplace(node: Node)
    | CExpireOne(identity: string)
    | CDrain(identity: string)
    | CCompleteDrain(identity: string, session: string)
    | CUnregister(identity: string, session: string)
    | CMarkInvalid(nodeType: string, nodeGroup: string, nodeName: string)
    | CRestore(nodeType: string, nodeGroup: string, nodeName: string)
    | CAllocate(target: Target, placementId: string, chosen: Node)
    | CResolve(target: Target, placementId: string, pick: Option<Node>)
    | CRenew(claim: Claim)
    | CRelease(claim: Claim)
    | CTransfer(grainKey: string, placementId: string, from: string, to: string, version: int)
    | CRecover(grainKey: string, placementId: string, to: string, version: int)
    | CIdle

  datatype Effect = Effect(world: World, events: seq<Event>, ok: bool)

  function Done<R>(o: Outcome<R>): Effect {
    Effect(o.world, o.events, o.reply.Ok?)
  }

  function Step(w: World, ttl: int, now: int, c: Command): Effect {
    match c
    case CRegister(node) => Done(RegisterNode(w, ttl, now, node))
    case CRenewNode(id, session, metrics) => Done(RenewNode(w, now, id, session, metrics))
    case CReplace(node) => Done(ReplaceNodeSession(w, ttl, now, node))
    case CExpireOne(id) => Done(ExpireOne(w, now, id))
    case CDrain(id) => Done(DrainNode(w, id))
    case CCompleteDrain(id, session) => Done(Unregister(w, id, session, true))
    case CUnregister(id, session) => Done(Unregister(w, id, session, false))
    case CMarkInvalid(t, g, n) => Done(MarkNodeInvalid(w, t, g, n))
    case CRestore(t, g, n) => Done(RestoreNode(w, t, g, n))
    case CAllocate(t, id, chosen) => Done(AllocateCommit(w, now, t, id, chosen))
    case CResolve(t, id, pick) => Done(ResolveRoute(w, now, t, id, pick))
    case CRenew(claim) => Done(Renew(w, now, claim))
    case CRelease(claim) => Done(Release(w, now, claim))
    case CTransfer(key, id, from, to, version) => Done(Transfer(w, now, key, id, from, to, version))
    case CRecover(key, id, to, version) => Done(Recover(w, now, key, id, to, version))
    case CIdle => Effect(w, [], false)
  }

  /** A command, the lease duration configured where it runs and the clock reading of its step; clocks may repeat or
      go back from one tick to the next. */
  datatype Tick = Tick(ttl: int, now: int, command: Command)

  /** Some commands one after the other: the last world and all their events. */
  function Replayed(w: World, ticks: seq<Tick>): Effect
    decreases |ticks|
  {
    if ticks == [] then Effect(w, [], true)
    else
      var first := Step(w, ticks[0].ttl, ticks[0].now, ticks[0].command);
      var rest := Replayed(first.world, ticks[1..]);
      Effect(rest.world, first.events + rest.events, first.ok && rest.ok)
  }

  // ------------------------------------------------------------------------------------------
  // The invariant.

  /** k is indexed under n exactly when k has a placement on n. */
  ghost predicate IndexAgrees(w: World) {
    forall n, k :: k in Owned(w.byNode, n) <==> k in w.placements && w.placements[k].nodeIdentity == n
  }

  predicate GoodPlacement(key: string, p: Placement) {
    && key != ""
    && p.grainKey == key
    && p.status == PlacementActive
    && p.version >= 1
    && WellFormedIdentity(p.nodeIdentity)
  }

  predicate GoodNode(identity: string, n: Node) {
    && n.identity == identity
    && n.session != ""
    && NodeType(identity) == n.nodeType
    && NodeGroup(identity) == n.nodeGroup
    && NodeName(identity) == n.nodeName
    && WellFormedIdentity(identity)
    && n.lease.version >= 1
    && n.lease.ttl > 0
  }

  ghost predicate Valid(w: World) {
    && IndexAgrees(w)
    && NoEmptySet(w.byNode)
    && NoEmptySet(w.invalid)
    && (forall k :: k in w.placements ==> GoodPlacement(k, w.placements[k]))
    && (forall id :: id in w.nodes ==> GoodNode(id, w.nodes[id]))
  }

  lemma PlacedAreActive(w: World)
    requires Valid(w)
    ensures forall key :: key in w.placements ==> w.placements[key].status == PlacementActive
    ensures forall id :: id in w.nodes ==> w.nodes[id].identity == id
  {
  }

  lemma ChosenIsRegistered(w: World, now: int, g: Group, pick: Option<Node>)
    requires Valid(w)
    ensures var r := ChooseTarget(w, now, g, pick);
            r.Ok? ==> r.value.identity in w.nodes && w.nodes[r.value.identity] == r.value
  {
    PlacedAreActive(w);
  }

  lemma EnrolledIsGood(node: Node, ttl: int, now: int)
    requires NormalizedNode(node) && ttl > 0
    ensures GoodNode(node.identity, Enrolled(node, ttl, now))
  {
    IdentityRoundTrip(node.nodeType, node.nodeGroup, node.nodeName);
  }

  lemma CreateKeepsValid(w: World, p: Placement)
    requires Valid(w) && GoodPlacement(p.grainKey, p)
    ensures Valid(Create(w, p))
  {
  }

  lemma MoveKeepsValid(w: World, key: string, n: Node, now: int)
    requires Valid(w) && key in w.placements && GoodNode(n.identity, n)
    ensures Valid(Move(w, w.placements[key], n, now))
  {
  }

  lemma NodeUpdateKeepsValid(w: World, identity: string, n: Node)
    requires Valid(w) && GoodNode(identity, n)
    ensures Valid(w.(nodes := w.nodes[identity := n]))
  {
    var w' := w.(nodes := w.nodes[identity := n]);
    assert IndexAgrees(w');
  }

  lemma NodeRemovalKeepsValid(w: World, identity: string)
    requires Valid(w)
    ensures Valid(w.(nodes := w.nodes - {identity}))
  {
    var w' := w.(nodes := w.nodes - {identity});
    assert IndexAgrees(w');
  }

  lemma NameChangeKeepsValid(w: World, g: Group, name: string)
    requires Valid(w)
    ensures Valid(w.(invalid := AddName(w.invalid, g, name)))
    ensures Valid(w.(invalid := DropName(w.invalid, g, name)))
  {
    assert IndexAgrees(w.(invalid := AddName(w.invalid, g, name)));
    assert IndexAgrees(w.(invalid := DropName(w.invalid, g, name)));
  }

  lemma ReleaseKeepsValid(w: World, now: int, c: Claim)
    requires Valid(w)
    ensures Valid(Release(w, now, c).world)
  {
  }

  lemma AllocateKeepsValid(w: World, now: int, t: Target, placementId: string, chosen: Node)
    requires Valid(w)
    ensures Valid(AllocateCommit(w, now, t, placementId, chosen).world)
  {
    if NewGrainKey(t.kind, t.grainId).Some? && chosen.identity in w.nodes {
      var key := NewGrainKey(t.kind, t.grainId).value;
      CreateKeepsValid(w, NewPlacement(t, key, placementId, w.nodes[chosen.identity], now));
    }
  }

  lemma ExpireOneKeepsValid(w: World, now: int, identity: string)
    requires Valid(w)
    ensures Valid(ExpireOne(w, now, identity).world)
  {
    if identity in w.nodes { NodeUpdateKeepsValid(w, identity, w.nodes[identity].(status := Offline)); }
  }

  lemma NodeCommandKeepsValid(w: World, ttl: int, now: int, c: Command)
    requires Valid(w) && ttl > 0
    requires c.CRegister? || c.CReplace? || c.CRenewNode? || c.CExpireOne? || c.CDrain?
    ensures Valid(Step(w, ttl, now, c).world)
  {
    match c
    case CRegister(node) =>
      if NormalizedNode(node) {
        EnrolledIsGood(node, ttl, now);
        NodeUpdateKeepsValid(w, node.identity, Enrolled(node, ttl, now));
      }
    case CReplace(node) =>
      if NormalizedNode(node) {
        EnrolledIsGood(node, ttl, now);
        NodeUpdateKeepsValid(w, node.identity, Enrolled(node, ttl, now));
      }
    case CRenewNode(id, session, metrics) =>
      if id in w.nodes { NodeUpdateKeepsValid(w, id, Renewed(w.nodes[id], now, metrics)); }
    case CExpireOne(id) =>
      if id in w.nodes { NodeUpdateKeepsValid(w, id, w.nodes[id].(status := Offline)); }
    case CDrain(id) =>
      if id in w.nodes { NodeUpdateKeepsValid(w, id, w.nodes[id].(status := Draining)); }
  }

  lemma TransferKeepsValid(w: World, now: int, key: string, placementId: string, from: string, to: string, version: int)
    requires Valid(w)
    ensures Valid(Transfer(w, now, key, placementId, from, to, version).world)
  {
    if key in w.placements && to in w.nodes { MoveKeepsValid(w, key, w.nodes[to], now); }
  }

  lemma RecoverKeepsValid(w: World, now: int, key: string, placementId: string, to: string, version: int)
    requires Valid(w)
    ensures Valid(Recover(w, now, key, placementId, to, version).world)
  {
    if key in w.placements && to in w.nodes { MoveKeepsValid(w, key, w.nodes[to], now); }
  }

  /** Every command keeps the reverse index, the Active status and the record shapes. */
  lemma StepKeepsValid(w: World, ttl: int, now: int, c: Command)
    requires Valid(w) && ttl > 0
    ensures Valid(Step(w, ttl, now, c).world)
  {
    hide Valid, AllocateCommit, ResolveRoute, Release, Transfer, Recover, NewNodeIdentity, AddName, DropName;
    match c
    case CCompleteDrain(id, session) => NodeRemovalKeepsValid(w, id);
    case CUnregister(id, session) => NodeRemovalKeepsValid(w, id);
    case CMarkInvalid(t, g, n) => NameChangeKeepsValid(w, Group(t, g), n);
    case CRestore(t, g, n) => NameChangeKeepsValid(w, Group(t, g), n);
    case CAllocate(t, id, chosen) => AllocateKeepsValid(w, now, t, id, chosen);
    case CResolve(t, id, pick) => ResolveKeepsValid(w, now, t, id, pick);
    case CRelease(claim) => ReleaseKeepsValid(w, now, claim);
    case CTransfer(key, id, from, to, version) => TransferKeepsValid(w, now, key, id, from, to, version);
    case CRecover(key, id, to, version) => RecoverKeepsValid(w, now, key, id, to, version);
    case CRenew(_) =>
    case CIdle =>
    case _ => NodeCommandKeepsValid(w, ttl, now, c);
  }

  lemma ResolveKeepsValid(w: World, now: int, t: Target, placementId: string, pick: Option<Node>)
    requires Valid(w)
    ensures Valid(ResolveRoute(w, now, t, placementId, pick).world)
  {
    hide NodeType, NodeGroup, NodeName, NewNodeIdentity, AddIndex, DropIndex;
    if TargetNamed(t) {
      var key := NewGrainKey(t.kind, t.grainId).value;
      var chosen := ChooseTarget(w, now, t.GroupOf(), pick);
      if key in w.placements {
        var owner := w.placements[key].nodeIdentity;
        if owner in w.nodes { MoveKeepsValid(w, key, w.nodes[owner], now); }
        if chosen.Ok? { MoveKeepsValid(w, key, chosen.value, now); }
      } else if chosen.Ok? {
        CreateKeepsValid(w, NewPlacement(t, key, placementId, chosen.value, now));
      }
    }
  }
}

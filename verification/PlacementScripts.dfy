/** The placement scripts as steps over the keyspace. Each takes the placement record the client read before it
    ran the script (seen); the client derives keys from that record and the script compares it with the current
    one. */
module PlacementScripts {
  import opened Types
  import opened Naming
  import opened Ordering
  import opened Decimal
  import opened Keyspace
  import opened Schedule
  import Protocol

  datatype Policy = Policy(mode: Mode, config: Config)

  // ------------------------------------------------------------------------------------------
  // Shared checks.

  function OwnerOf(seen: Option<Placement>): string {
    if seen.Some? then seen.value.nodeIdentity else ""
  }

  /** The current raw value is the one the client read. */
  predicate Unmoved(k: Keys, key: string, seen: Option<Placement>) {
    match Load(k.placement, key)
    case Missing => seen.None?
    case Undecodable => false
    case Loaded(p) => seen == Some(p)
  }

  /** A usable owner: its record is under its own key, it is not offline and its lease score is current. */
  predicate LiveOwner(k: Keys, now: int, id: string, g: Group, rn: RedisNode) {
    && rn.nodeKey == id
    && rn.node.identity == id
    && rn.node.status != Offline
    && Score(k.leases, g, id) == Some(rn.node.lease.expireAt)
    && rn.node.lease.expireAt > now
  }

  // ------------------------------------------------------------------------------------------
  // Candidate selection.

  /** Encoded-key order; the second comparison never decides between byte strings, whose encodings differ. */
  predicate KeyLess(a: string, b: string) {
    StringLess(Encode(a), Encode(b)) || (Encode(a) == Encode(b) && StringLess(a, b))
  }

  lemma KeyLessTotal()
    ensures StrictTotal(KeyLess)
  {
    StringLessTotal();
  }

  /** Between byte strings it is the order of the encodings alone. */
  lemma KeyOrderIsByEncoding(a: string, b: string)
    requires IsBytes(a) && IsBytes(b)
    ensures KeyLess(a, b) <==> StringLess(Encode(a), Encode(b))
  {
    hide Encode;
    EncodeInjective(a, b);
    StringLessTrichotomy(a, a);
    StringLessTrichotomy(Encode(a), Encode(a));
  }

  predicate Eligible(k: Keys, now: int, g: Group, id: string, rn: RedisNode, checked: bool) {
    && rn.nodeKey == id
    && rn.node.GroupOf() == g
    && rn.node.status == Active
    && (checked ==> rn.node.lease.version > 0)
    && rn.node.nodeName !in Members(k.invalid, g)
    && Score(k.leases, g, id) == Some(rn.node.lease.expireAt)
    && rn.node.lease.expireAt > now
  }

  datatype Gathering = Gathered(candidates: seq<Candidate>) | Broken(fault: Fault)

  function CandidateOf(k: Keys, rn: RedisNode): Candidate {
    Candidate(rn.node, Cardinality(k.index, rn.indexKey), rn.indexKey)
  }

  /** What the listing loop has gathered after one more node key, or the fault that ended it. */
  function GatherOne(k: Keys, now: int, g: Group, so: seq<Candidate>, id: string, checked: bool): Gathering {
    if !StringOk(k.node, id) then Broken(WrongTypeFault)
    else match Load(k.node, id)
      case Missing => Gathered(so)
      case Undecodable => Broken(InvalidJson)
      case Loaded(rn) =>
        if !CollectionOk(k.index, rn.indexKey) then Broken(WrongTypeFault)
        else if Eligible(k, now, g, id, rn, checked) then Gathered(so + [CandidateOf(k, rn)])
        else Gathered(so)
  }

  function Gather(k: Keys, now: int, g: Group, ids: seq<string>, checked: bool): Gathering
    decreases |ids|
  {
    if ids == [] then Gathered([])
    else match Gather(k, now, g, ids[..|ids| - 1], checked)
      case Broken(f) => Broken(f)
      case Gathered(so) => GatherOne(k, now, g, so, ids[|ids| - 1], checked)
  }

  /** SMEMBERS and table.sort. */
  function NodeKeys(k: Keys, g: Group): seq<string> {
    KeyLessTotal();
    Sorted(Members(k.nodes, g), KeyLess)
  }

  /** The node a script selects, with the two counters it read, or the reply that ends the script. */
  datatype Selection = Selected(candidate: Candidate, turn: string,
      sequence: string) | Unselected(error: Error) | Failed(fault: Fault)

  ghost function Select(k: Keys, now: int, policy: Policy, g: Group, checked: bool): (r: Selection)
    ensures r.Selected? ==> Canonical(r.turn) && Canonical(r.sequence)
  {
    match Gather(k, now, g, NodeKeys(k, g), checked)
    case Broken(f) => Failed(f)
    case Gathered(cs) =>
      if cs == [] then Unselected(NoAvailableNode)
      else
        var turn := ReadCounter(CellAt(k.roundRobin, g), MaxRoundRobin());
        var sequence := ReadCounter(k.sequence, MaxSequence());
        if turn.None? || sequence.None? then Failed(InvalidCounter)
        else match Choice(cs, turn.value, policy.mode, now, policy.config)
          case None => Unselected(NoAvailableNode)
          case Some(c) => Selected(c, turn.value, sequence.value)
  }

  // ------------------------------------------------------------------------------------------
  // Writes.

  /** A new index score and the record it belongs to. */
  function Place(k: Keys, sequence: string, p: Placement, indexKey: string, e: Event): Keys
    requires Canonical(sequence) && CollectionOk(k.index, indexKey) && k.events.Holds?
  {
    k.(placement := k.placement[p.grainKey := Holds(p)],
       index := ZAdd(k.index, indexKey, p.grainKey, Value(Increment(sequence))),
       sequence := Some(Holds(Increment(sequence))),
       events := Append(k.events, e))
  }

  function Unindex(k: Keys, indexKey: string, key: string): Keys
    requires CollectionOk(k.index, indexKey)
  {
    k.(index := ZRem(k.index, indexKey, key))
  }

  /** INCR of the round-robin counter followed by the writes of a creation or a move. */
  function Commit(k: Keys, g: Group, s: Selection, prior: Option<string>, p: Placement, e: Event): Keys
    requires s.Selected? && Canonical(s.turn) && Canonical(s.sequence) && k.events.Holds?
    requires CollectionOk(k.index, s.candidate.indexKey) && (prior.Some? ==> CollectionOk(k.index, prior.value))
  {
    var turned := k.(roundRobin := k.roundRobin[g := Holds(Increment(s.turn))]);
    var cleared := if prior.Some? then Unindex(turned, prior.value, p.grainKey) else turned;
    Place(cleared, s.sequence, p, s.candidate.indexKey, e)
  }

  lemma {:induction false} GatheredIndexesHold(k: Keys, now: int, g: Group, ids: seq<string>, checked: bool)
    ensures var r := Gather(k, now, g, ids, checked);
            r.Gathered? ==> forall c :: c in r.candidates ==> CollectionOk(k.index, c.indexKey)
    decreases |ids|
  {
    if ids != [] { GatheredIndexesHold(k, now, g, ids[..|ids| - 1], checked); }
  }

  lemma SelectedIndexHolds(k: Keys, now: int, policy: Policy, g: Group, checked: bool)
    ensures var s := Select(k, now, policy, g, checked); s.Selected? ==> CollectionOk(k.index, s.candidate.indexKey)
  {
    GatheredIndexesHold(k, now, g, NodeKeys(k, g), checked);
    var r := Gather(k, now, g, NodeKeys(k, g), checked);
    var turn := ReadCounter(CellAt(k.roundRobin, g), MaxRoundRobin());
    if r.Gathered? && r.candidates != [] && turn.Some? {
      ChoiceIsCandidate(r.candidates, turn.value, policy.mode, now, policy.config);
    }
  }

  // ------------------------------------------------------------------------------------------
  // Scripts.

  predicate AllocateTypesOk(k: Keys, key: string, g: Group, owner: string) {
    && StringOk(k.placement, key) && CollectionOk(k.nodes, g) && CollectionOk(k.invalid, g) && StringOk(k.roundRobin, g)
    && CollectionOk(k.leases, g) && k.sequence != Some(WrongType) && k.events.Holds? && CollectionOk(k.index, owner)
    && StringOk(k.node, owner) && CollectionOk(k.leases, GroupOfIdentity(owner))
  }

  ghost function Allocate(k: Keys, now: int, policy: Policy, t: Protocol.Target, placementId: string,
      seen: Option<Placement>): Ran<Placement> {
    if NewGrainKey(t.kind, t.grainId).None? then Ran(k, Refused(InvalidIdentity))
    else
      var key, owner := NewGrainKey(t.kind, t.grainId).value, OwnerOf(seen);
      if !AllocateTypesOk(k, key, t.GroupOf(), owner) then Ran(k, Faulted(WrongTypeFault))
      else match Load(k.placement, key)
        case Undecodable => Ran(k, Faulted(InvalidJson))
        case Missing => AllocateNew(k, now, policy, t, key, placementId, None)
        case Loaded(p) =>
          if seen != Some(p) then Ran(k, Refused(VersionConflict))
          else if p.grainKey != key then Ran(k, Faulted(IdentityMismatch))
          else if p.status != PlacementActive then AllocateNew(k, now, policy, t, key, placementId, Some(owner))
          else match Load(k.node, owner)
            case Missing => Ran(k, Refused(OwnerUnavailable))
            case Undecodable => Ran(k, Faulted(InvalidJson))
            case Loaded(rn) =>
              if LiveOwner(k, now, owner, GroupOfIdentity(owner), rn) && rn.node.session == p.ownerSession
              then Ran(k, Answer(p)) else Ran(k, Refused(OwnerUnavailable))
  }

  /** The part of allocate.lua that lists candidates and creates a placement. */
  ghost function AllocateNew(k: Keys, now: int, policy: Policy, t: Protocol.Target, key: string, placementId: string,
      prior: Option<string>): Ran<Placement>
    requires k.events.Holds? && (prior.Some? ==> CollectionOk(k.index, prior.value))
  {
    SelectedIndexHolds(k, now, policy, t.GroupOf(), false);
    match Select(k, now, policy, t.GroupOf(), false)
    case Failed(f) => Ran(k, Faulted(f))
    case Unselected(e) => Ran(k, Refused(e))
    case Selected(c, turn, sequence) =>
      var p := Protocol.NewPlacement(t, key, placementId, c.node, now);
      Ran(Commit(k, t.GroupOf(), Selected(c, turn, sequence), prior, p, PlacementEvent(p, PlacementCreated)), Answer(p))
  }

  function RouteTo(p: Placement, n: Node, now: int): RouteReply {
    RouteReply(p, n.lease.version, n.lease.expireAt - now)
  }

  ghost function ResolveRoute(k: Keys, now: int, policy: Policy, t: Protocol.Target, placementId: string,
      seen: Option<Placement>): Ran<RouteReply> {
    if !Protocol.TargetNamed(t) then Ran(k, Refused(InvalidIdentity))
    else if seen.Some?
        && (NodeType(OwnerOf(seen)) == "" || NodeGroup(OwnerOf(seen)) == "" || NodeName(OwnerOf(seen)) == "")
    then Ran(k, Faulted(UnparsableIdentity))
    else
      var key, owner := NewGrainKey(t.kind, t.grainId).value, OwnerOf(seen);
      if !AllocateTypesOk(k, key, t.GroupOf(), owner) then Ran(k, Faulted(WrongTypeFault))
      else if !Unmoved(k, key, seen) then Ran(k, Refused(VersionConflict))
      else if seen.Some? && seen.value.grainKey != key then Ran(k, Faulted(IdentityMismatch))
      else if seen.Some? && seen.value.status == PlacementActive then ResolveOwned(k, now, policy, t, seen.value)
      else ResolveNew(k, now, policy, t, key, placementId, if seen.Some? then Some(owner) else None)
  }

  /** The branches of resolve_route.lua for an active placement. */
  ghost function ResolveOwned(k: Keys, now: int, policy: Policy, t: Protocol.Target, p: Placement): Ran<RouteReply>
    requires k.events.Holds? && CollectionOk(k.index, p.nodeIdentity)
  {
    var owner := p.nodeIdentity;
    var g := GroupOfIdentity(owner);
    if g != t.GroupOf() then Ran(k, Refused(TargetMismatch))
    else match Load(k.node, owner)
      case Undecodable => Ran(k, Faulted(InvalidJson))
      case Missing => ResolveElsewhere(k, now, policy, t, p)
      case Loaded(rn) =>
        if !(LiveOwner(k, now, owner, g, rn) && rn.node.GroupOf() == g && rn.node.nodeName == NodeName(owner)
            && rn.node.lease.version > 0)
        then ResolveElsewhere(k, now, policy, t, p)
        else if rn.node.session == p.ownerSession then Ran(k, Answer(RouteTo(p, rn.node, now)))
        else
          var moved := Protocol.Moved(p, rn.node, now);
          var e := PlacementEvent(moved, PlacementRecovered).(leaseVersion := rn.node.lease.version);
          Ran(k.(placement := k.placement[p.grainKey := Holds(moved)], events := Append(k.events, e)),
              Answer(RouteTo(moved, rn.node, now)))
  }

  /** Recovery of a placement whose owner is unusable; only an invalid name lets it leave its node. */
  ghost function ResolveElsewhere(k: Keys, now: int, policy: Policy, t: Protocol.Target, p: Placement): Ran<RouteReply>
    requires k.events.Holds? && CollectionOk(k.index, p.nodeIdentity)
  {
    SelectedIndexHolds(k, now, policy, t.GroupOf(), true);
    if NodeName(p.nodeIdentity) !in Members(k.invalid, t.GroupOf()) then Ran(k, Refused(OwnerUnavailable))
    else match Select(k, now, policy, t.GroupOf(), true)
      case Failed(f) => Ran(k, Faulted(f))
      case Unselected(e) => Ran(k, Refused(e))
      case Selected(c, turn, sequence) =>
        var moved := Protocol.Moved(p, c.node, now);
        var e := PlacementEvent(moved, PlacementRecovered).(leaseVersion := c.node.lease.version);
        Ran(Commit(k, t.GroupOf(), Selected(c, turn, sequence), Some(p.nodeIdentity), moved, e),
            Answer(RouteTo(moved, c.node, now)))
  }

  ghost function ResolveNew(k: Keys, now: int, policy: Policy, t: Protocol.Target, key: string, placementId: string,
      prior: Option<string>): Ran<RouteReply>
    requires k.events.Holds? && (prior.Some? ==> CollectionOk(k.index, prior.value))
  {
    SelectedIndexHolds(k, now, policy, t.GroupOf(), true);
    match Select(k, now, policy, t.GroupOf(), true)
    case Failed(f) => Ran(k, Faulted(f))
    case Unselected(e) => Ran(k, Refused(e))
    case Selected(c, turn, sequence) =>
      var p := Protocol.NewPlacement(t, key, placementId, c.node, now);
      var e := PlacementEvent(p, PlacementCreated).(leaseVersion := c.node.lease.version);
      Ran(Commit(k, t.GroupOf(), Selected(c, turn, sequence), prior, p, e), Answer(RouteTo(p, c.node, now)))
  }

  function Lookup(k: Keys, now: int, key: string, seen: Option<Placement>): Ran<RouteReply> {
    if seen.None? then Ran(k, Refused(PlacementNotFound))
    else
      var owner := OwnerOf(seen);
      var g := GroupOfIdentity(owner);
      if !(StringOk(k.placement, key) && StringOk(k.node, owner) && CollectionOk(k.leases, g))
      then Ran(k, Faulted(WrongTypeFault))
      else if !Unmoved(k, key, seen) then Ran(k, Refused(PlacementNotFound))
      else match Load(k.node, owner)
        case Missing => Ran(k, Refused(PlacementNotFound))
        case Undecodable => Ran(k, Faulted(InvalidJson))
        case Loaded(rn) =>
          var p, n := seen.value, rn.node;
          if && p.grainKey == key && p.status == PlacementActive && LiveOwner(k, now, owner, g, rn)
             && p.ownerSession == n.session && n.lease.version > 0 && n.lease.ttl > 0
          then Ran(k, Answer(RouteTo(p, n, now))) else Ran(k, Refused(PlacementNotFound))
  }

  /** The lease renewal of a placement: checks and one audit entry. */
  function Renew(k: Keys, now: int, c: Protocol.Claim, seen: Option<Placement>): Ran<Placement> {
    if seen.None? then Ran(k, Refused(PlacementNotFound))
    else
      var key, owner := c.grainKey, OwnerOf(seen);
      var g := GroupOfIdentity(owner);
      if !(StringOk(k.placement, key) && StringOk(k.node, owner) && CollectionOk(k.leases, g) && k.audit.Holds?)
      then Ran(k, Faulted(WrongTypeFault))
      else if Load(k.placement, key).Missing? then Ran(k, Refused(PlacementNotFound))
      else if !Unmoved(k, key, seen) then Ran(k, Refused(VersionConflict))
      else if Load(k.node, owner).Undecodable? then Ran(k, Faulted(InvalidJson))
      else
        var p := seen.value;
        if p.grainKey != key || p.status != PlacementActive then Ran(k, Refused(PlacementNotFound))
        else if p.nodeIdentity != c.nodeIdentity then Ran(k, Refused(InvalidOwner))
        else if p.placementId != c.placementId || p.version != c.version then Ran(k, Refused(VersionConflict))
        else match Load(k.node, owner)
          case Missing => Ran(k, Refused(OwnerUnavailable))
          case Undecodable => Ran(k, Faulted(InvalidJson))
          case Loaded(rn) =>
            if rn.nodeKey != owner || rn.node.identity != owner || rn.node.status == Offline
            then Ran(k, Refused(OwnerUnavailable))
            else if p.ownerSession != c.session || rn.node.session != c.session then Ran(k, Refused(InvalidNodeSession))
            else if Score(k.leases, g, owner) != Some(rn.node.lease.expireAt) then Ran(k, Refused(OwnerUnavailable))
            else if rn.node.lease.expireAt <= now then Ran(k, Refused(NodeLeaseExpired))
            else Ran(k.(audit := Append(k.audit, PlacementEvent(p, PlacementRenewed))), Answer(p))
  }

  datatype Mutation =
    | ReleaseMutation(from: string, session: string)
    | TransferMutation(from: string, to: string)
    | RecoverMutation(to: string)

  function TargetOf(m: Mutation): string {
    if m.ReleaseMutation? then "" else m.to
  }

  predicate MutateTypesOk(k: Keys, key: string, owner: string, target: string) {
    && StringOk(k.placement, key) && StringOk(k.node, owner) && StringOk(k.node, target) && CollectionOk(k.index, owner)
    && CollectionOk(k.index, target) && CollectionOk(k.leases, GroupOfIdentity(target)) && k.events.Holds?
    && CollectionOk(k.leases, GroupOfIdentity(owner)) && CollectionOk(k.invalid, GroupOfIdentity(target))
    && k.sequence != Some(WrongType)
  }

  /** The target checks of a transfer or recovery. */
  predicate Receives(k: Keys, now: int, to: string, rn: RedisNode) {
    && rn.nodeKey == to
    && rn.node.identity == to
    && rn.node.GroupOf() == GroupOfIdentity(to)
    && rn.node.nodeName == NodeName(to)
    && rn.indexKey == to
    && rn.node.status == Active
    && rn.node.nodeName !in Members(k.invalid, GroupOfIdentity(to))
    && Score(k.leases, GroupOfIdentity(to), to) == Some(rn.node.lease.expireAt)
    && rn.node.lease.expireAt > now
  }

  function Mutate(k: Keys, now: int, key: string, placementId: string, version: int, m: Mutation,
      seen: Option<Placement>): Ran<Placement> {
    if seen.None? then Ran(k, Refused(PlacementNotFound))
    else if TargetOf(m) != "" && NodeType(TargetOf(m)) == "" then Ran(k, Faulted(UnparsableIdentity))
    else
      var owner, target := OwnerOf(seen), TargetOf(m);
      if !MutateTypesOk(k, key, owner, target) then Ran(k, Faulted(WrongTypeFault))
      else if Load(k.placement, key).Missing? then Ran(k, Refused(PlacementNotFound))
      else if !Unmoved(k, key, seen) then Ran(k, Refused(VersionConflict))
      else if Load(k.node, owner).Undecodable? || Load(k.node, target).Undecodable? then Ran(k, Faulted(InvalidJson))
      else
        var p := seen.value;
        var sequence := ReadCounter(k.sequence, MaxSequence());
        if p.grainKey != key then Ran(k, Refused(PlacementNotFound))
        else if p.placementId != placementId || p.version != version then Ran(k, Refused(VersionConflict))
        else if p.status != PlacementActive
        then Ran(k, Refused(if m.RecoverMutation? then PlacementNotRecoverable else PlacementNotFound))
        else if sequence.None? then Ran(k, Faulted(InvalidCounter))
        else if m.ReleaseMutation? then Release(k, now, m, p)
        else MoveTo(k, now, m, p, sequence.value)
  }

  function Release(k: Keys, now: int, m: Mutation, p: Placement): Ran<Placement>
    requires m.ReleaseMutation? && k.events.Holds? && CollectionOk(k.index, p.nodeIdentity)
  {
    var owner := p.nodeIdentity;
    if owner != m.from then Ran(k, Refused(InvalidOwner))
    else match Load(k.node, owner)
      case Missing => Ran(k, Refused(OwnerUnavailable))
      case Undecodable => Ran(k, Faulted(InvalidJson))
      case Loaded(rn) =>
        if rn.nodeKey != owner || rn.node.identity != owner || rn.node.GroupOf() != GroupOfIdentity(owner)
            || rn.node.nodeName != NodeName(owner)
        then Ran(k, Refused(OwnerUnavailable))
        else if p.ownerSession != m.session || rn.node.session != m.session then Ran(k, Refused(InvalidNodeSession))
        else
          var released := p.(version := p.version + 1, updateTime := now);
          Ran(Unindex(k, owner, p.grainKey).(placement := k.placement - {p.grainKey},
                                             events :=
                                               Append(k.events, PlacementEvent(released, PlacementReleasedEvent))),
              Answer(released))
  }

  function MoveTo(k: Keys, now: int, m: Mutation, p: Placement, sequence: string): Ran<Placement>
    requires !m.ReleaseMutation? && k.events.Holds? && Canonical(sequence)
    requires CollectionOk(k.index, p.nodeIdentity) && CollectionOk(k.index, m.to)
  {
    var owner := p.nodeIdentity;
    if m.TransferMutation? && m.from != "" && owner != m.from then Ran(k, Refused(InvalidOwner))
    else if m.RecoverMutation? && Healthy(k, now, p) then Ran(k, Refused(PlacementNotRecoverable))
    else match Load(k.node, m.to)
      case Missing => Ran(k, Refused(NoAvailableNode))
      case Undecodable => Ran(k, Faulted(InvalidJson))
      case Loaded(rn) =>
        if !Receives(k, now, m.to, rn) then Ran(k, Refused(NoAvailableNode))
        else
          var moved := Protocol.Moved(p, rn.node, now);
          var e := PlacementEvent(moved, if m.TransferMutation? then PlacementTransferred else PlacementRecovered);
          Ran(Place(Unindex(k, owner, p.grainKey), sequence, moved, m.to, e), Answer(moved))
  }

  predicate Healthy(k: Keys, now: int, p: Placement) {
    var owner := p.nodeIdentity;
    var loaded := Load(k.node, owner);
    loaded.Loaded? && LiveOwner(k, now, owner, GroupOfIdentity(owner), loaded.value)
        && loaded.value.node.session == p.ownerSession
  }
}

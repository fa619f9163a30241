/** Records, replies and events shared by the in-process and the Redis placement backends.
    Strings are byte sequences and every instant is a whole number of Unix milliseconds. */
module Types {

  datatype Option<+T> = None | Some(value: T)

  datatype Result<+T> = Ok(value: T) | Err(error: Error)

  datatype Error =
    | PlacementNotFound
    | PlacementNotRecoverable
    | NoAvailableNode
    | InvalidOwner
    | InvalidNodeSession
    | VersionConflict
    | NodeLeaseExpired
    | OwnerUnavailable
    | NodeNotFound
    | NodeHasPlacements
    | NodeNotInvalid
    | ConfigInvalid
    | TargetMismatch
    | InvalidIdentity
    | StrategyFailed

  /** The pair that scopes node sets, invalid sets, lease sets and round-robin counters. */
  datatype Group = Group(nodeType: string, nodeGroup: string)

  datatype NodeStatus = Active | Draining | Offline

  datatype Lease = Lease(version: int, ttl: int, expireAt: int)

  datatype Metrics = Metrics(cpu: int, memory: int, goroutines: int, updatedAt: int)

  datatype Node = Node(
    nodeType: string,
    nodeGroup: string,
    nodeName: string,
    identity: string,
    session: string,
    address: string,
    weight: int,
    metrics: Metrics,
    status: NodeStatus,
    lease: Lease)
  {
    function GroupOf(): Group {
      Group(nodeType, nodeGroup)
    }
  }

  datatype PlacementStatus = PlacementActive | PlacementReleased

  datatype Placement = Placement(
    grainId: string,
    kind: string,
    grainKey: string,
    placementId: string,
    nodeIdentity: string,
    ownerSession: string,
    version: int,
    status: PlacementStatus,
    createTime: int,
    updateTime: int)

  datatype Route = Route(
    grainKey: string,
    placementId: string,
    nodeIdentity: string,
    ownerSession: string,
    version: int,
    status: PlacementStatus,
    leaseVersion: int,
    validUntil: int)

  datatype Grant = Grant(version: int, validUntil: int)

  datatype EventType =
    | NodeRegistered
    | NodeReplaced
    | NodeDraining
    | NodeMarkedInvalid
    | NodeRestored
    | NodeUnregistered
    | NodeLeaseExpiredEvent
    | PlacementCreated
    | PlacementRenewed
    | PlacementReleasedEvent
    | PlacementTransferred
    | PlacementRecovered
    | PlacementCacheInvalidated
    | ManualCacheClear
    | UnknownEvent

  datatype Event = Event(
    kind: EventType,
    grainKey: string,
    placementId: string,
    nodeIdentity: string,
    session: string,
    nodeType: string,
    nodeGroup: string,
    nodeName: string,
    placementVersion: int,
    leaseVersion: int)

  const NO_EVENT := Event(UnknownEvent, "", "", "", "", "", "", "", 0, 0)

  const INITIAL_PLACEMENT_VERSION := 1
  const INITIAL_LEASE_VERSION := 1

  const ZERO_METRICS := Metrics(0, 0, 0, 0)

  /** The largest integer a Lua double holds exactly. */
  const MAX_EXACT_INTEGER := 9007199254740991
  const MAX_INT64 := 9223372036854775807

  function Max(a: int, b: int): int {
    if a < b then b else a
  }

  function Min(a: int, b: int): int {
    if a < b then a else b
  }

  function PlacementEvent(p: Placement, kind: EventType): Event {
    Event(kind, p.grainKey, p.placementId, p.nodeIdentity, p.ownerSession, "", "", "", p.version, 0)
  }

  function NodeEvent(kind: EventType, n: Node): Event {
    Event(kind, "", "", n.identity, n.session, n.nodeType, n.nodeGroup, n.nodeName, 0, n.lease.version)
  }

  const DEFAULT_PAGE_LIMIT := 100

  function PageLimit(limit: int): (r: nat)
    ensures r > 0 && (limit <= 0 ==> r == 100) && (limit > 0 ==> r == limit)
  {
    if limit <= 0 then DEFAULT_PAGE_LIMIT else limit
  }
}

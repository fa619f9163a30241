/** The cached router: its critical sections as steps of a router value, and as methods on the router object. Between
    the sections of one operation any other operation, event or mode change may run. */
module Router {
  import opened Types
  import opened Naming
  import opened Cache

  datatype RouterState = RouterState(
    entries: map<string, Route>,
    degraded: bool,
    epoch: nat,
    lastEvent: Event,
    lastEventEpoch: nat)

  const NEW_ROUTER := RouterState(map[], false, 0, NO_EVENT, 0)

  function Stored(r: RouterState, key: string, route: Route): RouterState {
    if r.degraded then r else r.(entries := r.entries[key := route])
  }

  /** Storing the route of a lookup or a resolution that began at an epoch. */
  function StoredIfCurrent(r: RouterState, key: string, epoch: nat, route: Route): RouterState {
    if r.epoch == epoch then Stored(r, key, route) else r
  }

  /** The one event since the allocation began is the allocation's own creation event. */
  predicate MatchesSynchronousCreated(r: RouterState, epoch: nat, p: Placement) {
    r.epoch == epoch + 1 && r.lastEventEpoch == r.epoch && Echoes(r.lastEvent, p)
  }

  predicate Echoes(e: Event, p: Placement) {
    && e.kind == PlacementCreated
    && e.grainKey == p.grainKey
    && e.placementId == p.placementId
    && e.placementVersion > 0
    && e.placementVersion == p.version
  }

  function StoredAfterAllocation(r: RouterState, epoch: nat, p: Placement, route: Route): RouterState {
    if r.epoch == epoch || MatchesSynchronousCreated(r, epoch, p) then Stored(r, p.grainKey, route) else r
  }

  function Advanced(r: RouterState): RouterState {
    r.(epoch := r.epoch + 1, lastEvent := NO_EVENT, lastEventEpoch := 0)
  }

  function AdvancedBy(r: RouterState, e: Event): RouterState {
    Advanced(r).(lastEvent := e, lastEventEpoch := r.epoch + 1)
  }

  function Handled(r: RouterState, e: Event): RouterState {
    var a := AdvancedBy(r, e);
    match e.kind
    case PlacementCreated => Dropped(a, e.grainKey)
    case PlacementReleasedEvent => Dropped(a, e.grainKey)
    case PlacementTransferred => Dropped(a, e.grainKey)
    case PlacementRecovered => Dropped(a, e.grainKey)
    case PlacementCacheInvalidated => Dropped(a, e.grainKey)
    case NodeReplaced => DroppedNode(a, e.nodeIdentity)
    case NodeLeaseExpiredEvent => DroppedNode(a, e.nodeIdentity)
    case NodeDraining => DroppedNode(a, e.nodeIdentity)
    case NodeMarkedInvalid => DroppedNode(a, e.nodeIdentity)
    case NodeUnregistered => DroppedNode(a, e.nodeIdentity)
    case NodeRestored =>
      if e.nodeType == "" || e.nodeGroup == "" then a.(entries := map[])
      else a.(entries := WithoutGroup(a.entries, e.nodeType, e.nodeGroup))
    case NodeRegistered => r
    case PlacementRenewed => r
    case ManualCacheClear => a.(entries := map[])
    case UnknownEvent => a.(entries := map[])
  }

  function Dropped(r: RouterState, key: string): RouterState {
    r.(entries := if key == "" then map[] else r.entries - {key})
  }

  function DroppedNode(r: RouterState, node: string): RouterState {
    r.(entries := if node == "" then map[] else WithoutNode(r.entries, node))
  }

  function AfterDegrade(r: RouterState): RouterState {
    Advanced(r).(entries := map[], degraded := true)
  }

  function AfterRecover(r: RouterState): RouterState {
    Advanced(r).(entries := map[], degraded := false)
  }

  /** A cached route a lookup may answer at some clock reading. */
  predicate Usable(route: Route, now: int) {
    route.status == PlacementActive && now < route.validUntil
  }

  predicate MatchesTarget(route: Route, nodeType: string, nodeGroup: string) {
    && route.status == PlacementActive && NodeType(route.nodeIdentity) == nodeType
    && NodeGroup(route.nodeIdentity) == nodeGroup
  }

  /** What an event does to the cached routes, in the routes themselves: a placement event drops its grain, an event
      about a node drops every route to that node, a restored name drops the routes into its group, and an event that
      does not say what it is about drops everything; all other routes stay. */
  ghost predicate Invalidates(before: map<string, Route>, e: Event, after: map<string, Route>) {
    && (forall k :: k in after ==> k in before && after[k] == before[k])
    && match e.kind
       case PlacementCreated | PlacementReleasedEvent | PlacementTransferred | PlacementRecovered
          | PlacementCacheInvalidated =>
         forall k :: k in before ==> (k in after <==> e.grainKey != "" && k != e.grainKey)
       case NodeReplaced | NodeLeaseExpiredEvent | NodeDraining | NodeMarkedInvalid | NodeUnregistered =>
         forall k :: k in before ==>
           (k in after <==> e.nodeIdentity != "" && before[k].nodeIdentity != e.nodeIdentity)
       case NodeRestored =>
         && (e.nodeType == "" || e.nodeGroup == "" ==> after == map[])
         && (NewNodeIdentity(e.nodeType, e.nodeGroup, e.nodeName).Some? ==>
               forall k :: k in before && WellFormedIdentity(before[k].nodeIdentity) ==>
                 (k in after <==> GroupOfIdentity(before[k].nodeIdentity) != Group(e.nodeType, e.nodeGroup)))
       case NodeRegistered | PlacementRenewed => after == before
       case ManualCacheClear | UnknownEvent => after == map[]
  }

  lemma HandledInvalidates(r: RouterState, e: Event)
    ensures Invalidates(r.entries, e, Handled(r, e).entries)
  {
    hide InGroup, NewNodeIdentity, WellFormedIdentity, GroupOfIdentity, NodeType, NodeGroup, NodeName;
    if NewNodeIdentity(e.nodeType, e.nodeGroup, e.nodeName).Some? && e.kind == NodeRestored {
      forall identity | WellFormedIdentity(identity)
        ensures InGroup(identity, e.nodeType, e.nodeGroup)
                <==> GroupOfIdentity(identity) == Group(e.nodeType, e.nodeGroup)
      {
        InGroupIsParsed(identity, e.nodeType, e.nodeGroup, e.nodeName);
      }
      NamedParts(e.nodeType, e.nodeGroup, e.nodeName);
    }
  }

  lemma NamedParts(nodeType: string, nodeGroup: string, nodeName: string)
    requires NewNodeIdentity(nodeType, nodeGroup, nodeName).Some?
    ensures nodeType != "" && nodeGroup != "" && Lacks(nodeType, '/') && Lacks(nodeGroup, '/')
  {
  }

  lemma InGroupIsParsed(identity: string, nodeType: string, nodeGroup: string, nodeName: string)
    requires WellFormedIdentity(identity) && NewNodeIdentity(nodeType, nodeGroup, nodeName).Some?
    ensures InGroup(identity, nodeType, nodeGroup) <==> GroupOfIdentity(identity) == Group(nodeType, nodeGroup)
  {
    NamedParts(nodeType, nodeGroup, nodeName);
    GroupPrefixExact(identity, nodeType, nodeGroup);
  }

  class CachedRouter {
    const cache: PlacementCache
    var epoch: nat
    var lastEvent: Event
    var lastEventEpoch: nat

    ghost function View(): RouterState
      reads this, cache
    {
      RouterState(cache.entries, cache.degraded, epoch, lastEvent, lastEventEpoch)
    }

    ghost predicate Valid()
      reads this, cache
    {
      cache.Valid()
    }

    constructor (cache: PlacementCache)
      requires cache.Valid() && cache.entries == map[] && !cache.degraded
      ensures Valid() && View() == NEW_ROUTER && this.cache == cache
    {
      this.cache := cache;
      epoch, lastEvent, lastEventEpoch := 0, NO_EVENT, 0;
    }

    /** The first section of a lookup: a usable cached route answers, an unusable one is dropped. */
    method LookupBegin(now: int, key: string) returns (hit: Option<Route>, began: nat)
      requires Valid()
      modifies cache
      ensures Valid() && began == View().epoch
      ensures var before := old(View());
              var found := !before.degraded && key in before.entries;
              && hit == (if found && Usable(before.entries[key], now) then Some(before.entries[key]) else None)
              && View() == before.(entries := if found && hit.None? then before.entries - {key} else before.entries)
      ensures hit.Some? ==> hit.value.status == PlacementActive && now < hit.value.validUntil
    {
      began := epoch;
      hit := cache.Get(key);
      if hit.Some? {
        if hit.value.status == PlacementActive && now < hit.value.validUntil { return; }
        cache.Delete(key);
        hit := None;
      }
    }

    /** The first section of a resolution: a usable cached route inside the target group answers. */
    method ResolveBegin(now: int, key: string, nodeType: string, nodeGroup: string) returns (hit: Option<Route>,
        began: nat)
      requires Valid()
      ensures began == epoch
      ensures hit == if !cache.degraded && key in cache.entries
              && MatchesTarget(cache.entries[key], nodeType, nodeGroup)
                        && now < cache.entries[key].validUntil then Some(cache.entries[key]) else None
      ensures hit.Some? <==>
                && !cache.degraded && key in cache.entries && cache.entries[key].status == PlacementActive
                && GroupOfIdentity(cache.entries[key].nodeIdentity) == Group(nodeType, nodeGroup)
                && now < cache.entries[key].validUntil
    {
      began := epoch;
      hit := cache.Get(key);
      if hit.Some? && !(MatchesTarget(hit.value, nodeType, nodeGroup) && now < hit.value.validUntil) { hit := None; }
    }

    /** The last section of a lookup or a resolution. */
    method StoreIfCurrent(key: string, began: nat, route: Route)
      requires Valid()
      modifies cache
      ensures Valid() && View() == StoredIfCurrent(old(View()), key, began, route)
      ensures epoch == began && !cache.degraded ==> key in cache.entries && cache.entries[key] == route
    {
      if epoch == began { cache.Set(key, route); }
    }

    method AllocateBegin() returns (began: nat)
      ensures began == epoch
    {
      began := epoch;
    }

    /** The last section of an allocation whose placement was looked up. */
    method StoreAllocated(began: nat, p: Placement, route: Route)
      requires Valid()
      modifies cache
      ensures Valid() && View() == StoredAfterAllocation(old(View()), began, p, route)
    {
      if epoch == began || MatchesOwnCreated(began, p) { cache.Set(p.grainKey, route); }
    }

    predicate MatchesOwnCreated(began: nat, p: Placement)
      reads this
    {
      && epoch == began + 1
      && lastEventEpoch == epoch
      && lastEvent.kind == PlacementCreated
      && lastEvent.grainKey == p.grainKey
      && lastEvent.placementId == p.placementId
      && lastEvent.placementVersion > 0
      && lastEvent.placementVersion == p.version
    }

    method AdvanceEvent(e: Event)
      modifies this
      ensures View() == AdvancedBy(old(View()), e)
    {
      Advance();
      lastEvent := e;
      lastEventEpoch := epoch;
    }

    method Advance()
      modifies this
      ensures View() == Advanced(old(View()))
    {
      epoch := epoch + 1;
      lastEvent := NO_EVENT;
      lastEventEpoch := 0;
    }

    method HandleGrainEvent(e: Event)
      requires Valid()
      modifies this, cache
      ensures Valid() && View() == Dropped(AdvancedBy(old(View()), e), e.grainKey)
    {
      AdvanceEvent(e);
      if e.grainKey == "" { cache.Clear(); } else { cache.Delete(e.grainKey); }
    }

    method HandleNodeEvent(e: Event)
      requires Valid()
      modifies this, cache
      ensures Valid() && View() == DroppedNode(AdvancedBy(old(View()), e), e.nodeIdentity)
    {
      AdvanceEvent(e);
      if e.nodeIdentity == "" { cache.Clear(); } else { cache.DeleteByNode(e.nodeIdentity); }
    }

    method HandleEvent(e: Event)
      requires Valid()
      modifies this, cache
      ensures Valid() && View() == Handled(old(View()), e)
      ensures Invalidates(old(cache.entries), e, cache.entries) && cache.degraded == old(cache.degraded)
      ensures epoch == if e.kind == NodeRegistered || e.kind == PlacementRenewed then old(epoch) else old(epoch) + 1
    {
      hide Invalidates;
      HandledInvalidates(View(), e);
      match e.kind {
        case PlacementCreated | PlacementReleasedEvent | PlacementTransferred | PlacementRecovered
           | PlacementCacheInvalidated =>
          HandleGrainEvent(e);
        case NodeReplaced | NodeLeaseExpiredEvent | NodeDraining | NodeMarkedInvalid | NodeUnregistered =>
          HandleNodeEvent(e);
        case NodeRestored =>
          AdvanceEvent(e);
          if e.nodeType == "" || e.nodeGroup == "" { cache.Clear(); } else {
            cache.DeleteByGroup(e.nodeType, e.nodeGroup);
          }
        case NodeRegistered | PlacementRenewed =>
        case ManualCacheClear | UnknownEvent =>
          AdvanceEvent(e);
          cache.Clear();
      }
    }

    method Degrade()
      requires Valid()
      modifies this, cache
      ensures Valid() && View() == AfterDegrade(old(View()))
      ensures cache.degraded && cache.entries == map[] && epoch == old(epoch) + 1
    {
      Advance();
      cache.SetDegraded(true);
    }

    method Recover()
      requires Valid()
      modifies this, cache
      ensures Valid() && View() == AfterRecover(old(View()))
      ensures !cache.degraded && cache.entries == map[] && epoch == old(epoch) + 1
    {
      Advance();
      cache.Clear();
      cache.SetDegraded(false);
    }
  }
}

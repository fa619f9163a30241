/** The field lists of stream entries: what the client and the scripts write, and what a consumer reads back. */
module EventCodec {
  import opened Types
  import opened Decimal

  function KindName(kind: EventType): string {
    match kind
    case NodeRegistered => "NodeRegistered"
    case NodeReplaced => "NodeReplaced"
    case NodeDraining => "NodeDraining"
    case NodeMarkedInvalid => "NodeMarkedInvalid"
    case NodeRestored => "NodeRestored"
    case NodeUnregistered => "NodeUnregistered"
    case NodeLeaseExpiredEvent => "NodeLeaseExpired"
    case PlacementCreated => "PlacementCreated"
    case PlacementRenewed => "PlacementRenewed"
    case PlacementReleasedEvent => "PlacementReleased"
    case PlacementTransferred => "PlacementTransferred"
    case PlacementRecovered => "PlacementRecovered"
    case PlacementCacheInvalidated => "PlacementCacheInvalidated"
    case ManualCacheClear => "ManualCacheClear"
    case UnknownEvent => ""
  }

  const KINDS := [NodeRegistered, NodeReplaced, NodeDraining, NodeMarkedInvalid, NodeRestored, NodeUnregistered,
                  NodeLeaseExpiredEvent, PlacementCreated, PlacementRenewed, PlacementReleasedEvent,
                  PlacementTransferred, PlacementRecovered, PlacementCacheInvalidated, ManualCacheClear]

  /** The event type a name stands for; any other name is an event the router treats as unknown. */
  function KindOf(name: string): EventType {
    KindAmong(name, KINDS)
  }

  function KindAmong(name: string, kinds: seq<EventType>): EventType {
    if kinds == [] then UnknownEvent else if KindName(kinds[0]) == name then kinds[0] else KindAmong(name, kinds[1..])
  }

  /** eventValues. */
  function EventValues(e: Event): map<string, string> {
    map["type" := KindName(e.kind), "grain_key" := e.grainKey, "placement_id" := e.placementId,
        "node_identity" := e.nodeIdentity, "node_session_id" := e.session, "node_type" := e.nodeType,
        "node_group" := e.nodeGroup, "node_name" := e.nodeName,
        "placement_version" := FormatInt(e.placementVersion), "node_lease_version" := FormatInt(e.leaseVersion)]
  }

  function Field(values: map<string, string>, name: string): string {
    if name in values then values[name] else ""
  }

  function Number(values: map<string, string>, name: string): int {
    match ParseInt(Field(values, name)) case Some(n) => n case None => 0
  }

  /** A lease event must say which lease of which session ran out. */
  predicate IncompleteLeaseEvent(e: Event) {
    e.kind == NodeLeaseExpiredEvent && (e.nodeIdentity == "" || e.session == "" || e.leaseVersion <= 0)
  }

  /** parseEvent. */
  function ParseEvent(values: map<string, string>): Option<Event> {
    if Field(values, "type") == "" then None
    else
      var e := Event(KindOf(Field(values, "type")), Field(values, "grain_key"), Field(values, "placement_id"),
                     Field(values, "node_identity"), Field(values, "node_session_id"), Field(values, "node_type"),
                     Field(values, "node_group"), Field(values, "node_name"), Number(values, "placement_version"),
                     Number(values, "node_lease_version"));
      if IncompleteLeaseEvent(e) then None else Some(e)
  }

  /** Names are told apart by length, or by their last or fifth character. */
  lemma KindNamesDiffer(a: EventType, b: EventType)
    requires KindName(a) == KindName(b)
    ensures a == b
  {
    var x, y := KindName(a), KindName(b);
    assert |x| == |y|;
    if |x| > 8 { assert x[0] == y[0] && x[4] == y[4] && x[8] == y[8] && x[|x| - 1] == y[|y| - 1]; }
  }

  lemma {:induction false} KindFound(kind: EventType, kinds: seq<EventType>)
    requires kind in kinds
    ensures KindAmong(KindName(kind), kinds) == kind
  {
    if kinds[0] != kind {
      KindFound(kind, kinds[1..]);
      if KindName(kinds[0]) == KindName(kind) { KindNamesDiffer(kinds[0], kind); }
    }
  }

  lemma KindRoundTrip(kind: EventType)
    requires kind != UnknownEvent
    ensures KindName(kind) != "" && KindOf(KindName(kind)) == kind
  {
    hide KindAmong;
    assert kind in KINDS;
    KindFound(kind, KINDS);
  }

  predicate Int64(n: int) {
    -MAX_INT64 - 1 <= n <= MAX_INT64
  }

  /** An entry read back is the event that was written, except that an incomplete lease event is refused. */
  lemma EventRoundTrip(e: Event)
    requires e.kind != UnknownEvent && Int64(e.placementVersion) && Int64(e.leaseVersion)
    ensures ParseEvent(EventValues(e))
            == if e.kind == NodeLeaseExpiredEvent && (e.nodeIdentity == "" || e.session == "" || e.leaseVersion <= 0)
               then None else Some(e)
  {
    hide FormatInt, ParseInt, KindName, KindOf;
    ParseFormatInt(e.placementVersion);
    ParseFormatInt(e.leaseVersion);
    KindRoundTrip(e.kind);
  }

  /** The shared event helper of the scripts: the fields of a placement event. */
  function ScriptEvent(kind: EventType, grain: string, placementId: string, node: string, session: string,
                       placementVersion: string, leaseVersion: string): map<string, string> {
    map["type" := KindName(kind), "grain_key" := grain, "placement_id" := placementId, "node_identity" := node,
        "node_session_id" := session, "node_type" := "", "node_group" := "", "node_name" := "",
        "placement_version" := placementVersion, "node_lease_version" := leaseVersion]
  }

  function ScriptNodeEvent(kind: EventType, node: string, session: string, nodeType: string, nodeGroup: string,
                           nodeName: string, leaseVersion: string): map<string, string> {
    map["type" := KindName(kind), "grain_key" := "", "placement_id" := "", "node_identity" := node,
        "node_session_id" := session, "node_type" := nodeType, "node_group" := nodeGroup, "node_name" := nodeName,
        "placement_version" := "0", "node_lease_version" := leaseVersion]
  }

  lemma ZeroIsZero()
    ensures FormatInt(0) == "0"
  {
  }

  /** What a script writes about a placement is read back as the event of the model. */
  lemma PlacementEntriesParse(p: Placement, kind: EventType, leaseVersion: int)
    requires kind != UnknownEvent && kind != NodeLeaseExpiredEvent && Int64(p.version) && Int64(leaseVersion)
    ensures ParseEvent(ScriptEvent(kind, p.grainKey, p.placementId, p.nodeIdentity, p.ownerSession,
                                   FormatInt(p.version), FormatInt(leaseVersion)))
            == Some(PlacementEvent(p, kind).(leaseVersion := leaseVersion))
  {
    hide FormatInt, ParseInt, KindAmong;
    var e := PlacementEvent(p, kind).(leaseVersion := leaseVersion);
    EventRoundTrip(e);
    assert ScriptEvent(kind, p.grainKey, p.placementId, p.nodeIdentity, p.ownerSession, FormatInt(p.version),
                       FormatInt(leaseVersion)) == EventValues(e);
  }

  /** The same about a stored node, whose identity, session and lease version a lease event needs. */
  lemma NodeEntriesParse(n: Node, kind: EventType)
    requires kind != UnknownEvent && n.identity != "" && n.session != "" && 0 < n.lease.version <= MAX_INT64
    ensures ParseEvent(ScriptNodeEvent(kind, n.identity, n.session, n.nodeType, n.nodeGroup, n.nodeName,
                                       FormatInt(n.lease.version)))
            == Some(NodeEvent(kind, n))
  {
    ZeroIsZero();
    hide FormatInt, ParseInt, KindAmong;
    EventRoundTrip(NodeEvent(kind, n));
    assert ScriptNodeEvent(kind, n.identity, n.session, n.nodeType, n.nodeGroup, n.nodeName, FormatInt(n.lease.version))
           == EventValues(NodeEvent(kind, n));
  }
}

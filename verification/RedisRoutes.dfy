/** Route resolution in Redis seen by its caller: what a second resolution answers, and when the caller is told of a
    failure although the script has written. */
module RedisRoutes {
  import opened Types
  import opened Naming
  import opened Keyspace
  import opened Protocol
  import opened RedisInvariant
  import opened NodeRefinement
  import opened PlacementRefinement
  import opened PlacementScripts
  import opened ProtocolRuns
  import opened Leases
  import RedisAtomicity

  // ------------------------------------------------------------------------------------------
  // A second resolution.

  /** An answered resolution leaves the placement it answers stored. */
  lemma OwnedAnswerIsStored(k: Keys, now: int, policy: Policy, t: Target, p: Placement)
    requires k.events.Holds? && CollectionOk(k.index, p.nodeIdentity) && Load(k.placement, p.grainKey) == Loaded(p)
    ensures var r := ResolveOwned(k, now, policy, t, p);
            r.reply.Answer? ==> Load(r.keys.placement, p.grainKey) == Loaded(r.reply.value.placement)
  {
    hide GroupOfIdentity, NodeType, NodeName, PlacementScripts.Select, Commit, Append, LiveOwner, Members;
    var s := PlacementScripts.Select(k, now, policy, t.GroupOf(), true);
    if s.Selected? {
      SelectedIndexHolds(k, now, policy, t.GroupOf(), true);
      var moved := Moved(p, s.candidate.node, now);
      var e := PlacementEvent(moved, PlacementRecovered).(leaseVersion := s.candidate.node.lease.version);
      RedisAtomicity.CommitWrites(k, t.GroupOf(), s, Some(p.nodeIdentity), moved, e);
    }
  }

  lemma AnswerIsStored(k: Keys, now: int, policy: Policy, t: Target, id: string, seen: Option<Placement>)
    requires Reachable(k)
    ensures var r := PlacementScripts.ResolveRoute(k, now, policy, t, id, seen);
            r.reply.Answer? ==> && TargetNamed(t)
                                && Load(r.keys.placement, NewGrainKey(t.kind, t.grainId).value)
                                      == Loaded(r.reply.value.placement)
  {
    hide Reachable, Abs, ResolveOwned, ResolveNew, NewGrainKey, NodeType, NodeGroup, NodeName, GroupOfIdentity,
         TargetNamed, Append;
    TargetNames(EMPTY_WORLD, now, t, id, None);
    if TargetNamed(t) {
      var key := NewGrainKey(t.kind, t.grainId).value;
      if AllocateTypesOk(k, key, t.GroupOf(), OwnerOf(seen)) && Unmoved(k, key, seen) {
        StoredPlacement(k, key);
        if seen.Some? {
          OwnedAnswerIsStored(k, now, policy, t, seen.value);
        } else {
          RedisAtomicity.ResolveNewIsAnnounced(k, now, policy, t, key, id, None);
        }
      }
    }
  }

  /** On a keyspace where the grain has a usable owner in the target group, a resolution with a current read answers
      that owner and leaves every key as it was. */
  lemma SettledIsAnswered(k: Keys, now: int, policy: Policy, t: Target, id: string, key: string, r: Route, p: Placement)
    requires Reachable(k) && TargetNamed(t) && NewGrainKey(t.kind, t.grainId) == Some(key)
    requires Settled(Abs(k), now, t, key, r) && Load(k.placement, key) == Loaded(p)
    ensures var again := PlacementScripts.ResolveRoute(k, now, policy, t, id, Some(p));
            && again.keys == k && again.reply.Answer?
            && again.reply.value.placement == p && SameRoute(again.reply.value, r, now)
  {
    hide Reachable, Abs, ResolveElsewhere, ResolveNew, NewGrainKey, NodeType, NodeGroup, NodeName, TargetNamed,
         LiveOwner;
    FamiliesHold(k);
    StoredPlacement(k, key);
    StoredNode(k, p.nodeIdentity);
    LiveIsUsable(k, now, p.nodeIdentity);
  }

  lemma AnswerSettles(k: Keys, now: int, policy: Policy, t: Target, id: string, seen: Option<Placement>)
    requires Reachable(k) && Parsable(seen) && PlacementScripts.ResolveRoute(k, now, policy, t, id, seen).reply.Answer?
    ensures var r := PlacementScripts.ResolveRoute(k, now, policy, t, id, seen);
            var o := Protocol.ResolveRoute(Abs(k), now, t, id, ResolvePick(k, now, policy, t));
            && TargetNamed(t) && NewGrainKey(t.kind, t.grainId).Some?
            && Reachable(r.keys) && o.reply.Ok? && SameRoute(r.reply.value, o.reply.value, now)
            && Settled(Abs(r.keys), now, t, NewGrainKey(t.kind, t.grainId).value, o.reply.value)
  {
    hide Reachable, Abs, ResolvePick, NewGrainKey, PlacementScripts.ResolveRoute, Protocol.ResolveRoute, Settled,
         TargetNamed, SameRoute, Emitted, SelectionRefinement.CountersBelow, GoodNodes, KeyedRecords, Unmoved;
    var pick := ResolvePick(k, now, policy, t);
    ResolveRefines(k, now, policy, t, id, seen);
    AnswerIsStored(k, now, policy, t, id, seen);
    TargetNames(Abs(k), now, t, id, pick);
    GoodWorld(k);
    ResolveSettles(Abs(k), now, t, id, pick, NewGrainKey(t.kind, t.grainId).value);
  }

  lemma GoodWorld(k: Keys)
    requires Reachable(k)
    ensures GoodNodes(Abs(k)) && KeyedRecords(Abs(k))
  {
    hide Bookkept, Abs;
    ValidRecordsAreKeyed(Abs(k));
  }

  /** A Redis resolution is stable: whatever read the first one answered with, a second one at the same server clock
      with a current read, any placement ID and any policy answers the same route and leaves every key as it was. */
  lemma RedisResolveIsStable(k: Keys, now: int, policy: Policy, t: Target, id: string, seen: Option<Placement>,
      policy': Policy, id': string, seen': Option<Placement>)
    requires Reachable(k) && Parsable(seen)
    requires PlacementScripts.ResolveRoute(k, now, policy, t, id, seen).reply.Answer?
    requires var r := PlacementScripts.ResolveRoute(k, now, policy, t, id, seen);
             NewGrainKey(t.kind, t.grainId).Some? ==> Unmoved(r.keys, NewGrainKey(t.kind, t.grainId).value, seen')
    ensures var r := PlacementScripts.ResolveRoute(k, now, policy, t, id, seen);
            PlacementScripts.ResolveRoute(r.keys, now, policy', t, id', seen') == r
  {
    hide Reachable, Abs, ResolvePick, NewGrainKey, PlacementScripts.ResolveRoute, Protocol.ResolveRoute, Settled,
         TargetNamed;
    var r := PlacementScripts.ResolveRoute(k, now, policy, t, id, seen);
    AnswerSettles(k, now, policy, t, id, seen);
    AnswerIsStored(k, now, policy, t, id, seen);
    var key := NewGrainKey(t.kind, t.grainId).value;
    var route := Protocol.ResolveRoute(Abs(k), now, t, id, ResolvePick(k, now, policy, t)).reply.value;
    SettledIsAnswered(r.keys, now, policy', t, id', key, route, r.reply.value.placement);
  }

  /** A route a caller is answered: it names the stored placement of the grain, whose node is stored under its session
      inside the requested group, not offline and not expired by the server's clock; it may be used until what then
      remains of the lease, counted from the moment the request started, has passed on the client's clock. */
  ghost predicate IsStoredRoute(k: Keys, t: Target, start: int, server: int, end: int, route: Route) {
    var key := t.kind + "/" + t.grainId;
    && Load(k.placement, key).Loaded? && Load(k.node, route.nodeIdentity).Loaded?
    && var p, n := Load(k.placement, key).value, Load(k.node, route.nodeIdentity).value.node;
       && route == Route(key, p.placementId, p.nodeIdentity, p.ownerSession, p.version, PlacementActive,
                         n.lease.version, start + (n.lease.expireAt - server) * 1000)
       && n.session == route.ownerSession && n.status != Offline && server < n.lease.expireAt
       && n.nodeType == t.nodeType && n.nodeGroup == t.nodeGroup && end < route.validUntil
  }

  lemma AnsweredRouteIsStored(k: Keys, server: int, policy: Policy, t: Target, id: string, seen: Option<Placement>,
      start: int, end: int)
    requires Reachable(k) && Parsable(seen)
    ensures var s := PlacementScripts.ResolveRoute(k, server, policy, t, id, seen);
            var r := RouteResult(start, end, s.reply);
            r.Answer? ==> IsStoredRoute(s.keys, t, start, server, end, r.value)
  {
    hide Reachable, Abs, NewGrainKey, PlacementScripts.ResolveRoute, Protocol.ResolveRoute, TargetNamed, NodeType,
         NodeGroup, NodeName;
    var s := PlacementScripts.ResolveRoute(k, server, policy, t, id, seen);
    if RouteResult(start, end, s.reply).Answer? {
      AnswerSettles(k, server, policy, t, id, seen);
      AnswerIsStored(k, server, policy, t, id, seen);
      GrainKeyIsJoined(t.kind, t.grainId);
      StoredPlacement(s.keys, t.kind + "/" + t.grainId);
      StoredNode(s.keys, s.reply.value.placement.nodeIdentity);
    }
  }

  // ------------------------------------------------------------------------------------------
  // Failures the caller sees.

  lemma RoutedIsSettled(w: World, now: int, t: Target, id: string, pick: Option<Node>, key: string)
    requires TargetNamed(t) && NewGrainKey(t.kind, t.grainId) == Some(key)
    requires Protocol.Lookup(w, now, key).Ok? && Protocol.ResolveRoute(w, now, t, id, pick).reply.Ok?
    ensures Settled(w, now, t, key, Protocol.Lookup(w, now, key).value)
  {
    hide NewGrainKey, NewNodeIdentity, NodeType, NodeGroup, NodeName, SessionUsable, Candidates;
  }

  /** A resolution writes exactly when it answers for a grain that no lookup would have routed. */
  lemma WritesForTheUnroutable(k: Keys, now: int, policy: Policy, t: Target, id: string, seen: Option<Placement>)
    requires Reachable(k) && Parsable(seen)
    ensures var r := PlacementScripts.ResolveRoute(k, now, policy, t, id, seen);
            r.keys != k <==> r.reply.Answer? && Protocol.Lookup(Abs(k), now, NewGrainKey(t.kind, t.grainId).value).Err?
  {
    hide Reachable, Abs, ResolvePick, NewGrainKey, PlacementScripts.ResolveRoute, Protocol.ResolveRoute, Emitted,
         TargetNamed, Settled, SelectionRefinement.CountersBelow, NodeType, NodeGroup, NodeName;
    var r := PlacementScripts.ResolveRoute(k, now, policy, t, id, seen);
    ResolveRefines(k, now, policy, t, id, seen);
    if r.reply.Answer? {
      AnswerSettles(k, now, policy, t, id, seen);
      var key, pick := NewGrainKey(t.kind, t.grainId).value, ResolvePick(k, now, policy, t);
      SettledIsFixed(Abs(r.keys), now, t, key, Protocol.ResolveRoute(Abs(k), now, t, id, pick).reply.value, id, pick);
      StoredPlacement(k, key);
      if Protocol.Lookup(Abs(k), now, key).Ok? {
        RoutedIsSettled(Abs(k), now, t, id, pick, key);
        SettledIsAnswered(k, now, policy, t, id, key, Protocol.Lookup(Abs(k), now, key).value, seen.value);
      }
    }
  }

  /** What a script answers is a version and a remaining time that are both positive. */
  lemma AnswersAreInTime(k: Keys, now: int, policy: Policy, t: Target, id: string, seen: Option<Placement>)
    requires Reachable(k) && Parsable(seen) && PlacementScripts.ResolveRoute(k, now, policy, t, id, seen).reply.Answer?
    ensures var reply := PlacementScripts.ResolveRoute(k, now, policy, t, id, seen).reply.value;
            reply.leaseVersion > 0 && reply.remaining > 0
  {
    hide Abs, ResolvePick, NewGrainKey, PlacementScripts.ResolveRoute, Protocol.ResolveRoute, Bookkept, TargetNamed,
         NodeType, NodeGroup, NodeName;
    AnswerSettles(k, now, policy, t, id, seen);
  }

  /** When the caller of a resolution is told of a failure: the script did not answer, or its answer came after the
      lease it carries or carries too long a lease. Then the keyspace has changed exactly if the grain had no usable
      route before; an answer's version and remaining time are never the reason. */
  lemma FailuresThatWrote(k: Keys, now: int, policy: Policy, t: Target, id: string, seen: Option<Placement>,
      requestStart: int, clientNow: int)
    requires Reachable(k) && Parsable(seen)
    ensures var s := PlacementScripts.ResolveRoute(k, now, policy, t, id, seen);
            var r := RouteResult(requestStart, clientNow, s.reply);
            && (s.reply.Answer? ==> s.reply.value.leaseVersion > 0 && s.reply.value.remaining > 0)
            && ((!r.Answer? && s.keys != k)
                <==> (s.reply.Answer? && Late(requestStart, clientNow, s.reply.value.remaining)
                      && Protocol.Lookup(Abs(k), now, NewGrainKey(t.kind, t.grainId).value).Err?))
            && (!r.Answer? && s.keys != k ==> r == Refused(OwnerUnavailable))
  {
    hide Reachable, Abs, NewGrainKey, PlacementScripts.ResolveRoute, Protocol.Lookup;
    if PlacementScripts.ResolveRoute(k, now, policy, t, id, seen).reply.Answer? {
      AnswersAreInTime(k, now, policy, t, id, seen);
    }
    WritesForTheUnroutable(k, now, policy, t, id, seen);
  }
}

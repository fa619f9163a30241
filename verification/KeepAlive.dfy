/** What a renewal is for: until the moment it was granted, no expiry takes the node offline and every grain placed on
    its session stays routeable, whatever else runs; in process and in Redis. */
module KeepAlive {
  import opened Types
  import opened Naming
  import opened Keyspace
  import opened Protocol
  import opened ProtocolRuns
  import opened Effects
  import opened RedisInvariant
  import opened RedisRuns
  import NodeScripts
  import PlacementScripts
  import NodeRefinement
  import PlacementRefinement

  // ------------------------------------------------------------------------------------------
  // In process.

  /** Every clock reading between two moments of a run is below some moment. */
  ghost predicate ClocksBelow(run: Run, i: nat, j: nat, moment: int)
    requires j <= |run.ticks|
  {
    forall m :: i <= m < j ==> run.ticks[m].now < moment
  }

  /** A node whose lease lasts until some moment stays up while the clock is below it. */
  lemma StandsUntil(run: Run, identity: string, i: nat, j: nat, moment: int)
    requires WellFormed(run) && i <= j <= |run.ticks| && NotReset(run, identity, i, j) && ClocksBelow(run, i, j, moment)
    requires identity in WorldAt(run, i).nodes && WorldAt(run, i).nodes[identity].status != Offline
    requires WorldAt(run, i).nodes[identity].lease.expireAt >= moment
    ensures identity in WorldAt(run, j).nodes
    ensures var n := WorldAt(run, j).nodes[identity];
            && n.session == WorldAt(run, i).nodes[identity].session
            && n.status != Offline && n.lease.expireAt >= moment
  {
    hide WorldAt, Step;
    LeaseMonotone(run, identity, i, j);
    if WorldAt(run, j).nodes[identity].status == Offline {
      OfflineOnlyWhenDue(run, identity, i, j);
    }
  }

  /** Grains placed on a node's session are routeable while the node stands. */
  ghost predicate RoutesUntil(w: World, identity: string, session: string, moment: int) {
    forall key, clock ::
      && key in w.placements && w.placements[key].nodeIdentity == identity
      && w.placements[key].ownerSession == session && clock < moment
      ==> Lookup(w, clock, key).Ok?
  }

  lemma StandingRoutes(w: World, identity: string, moment: int)
    requires Valid(w) && identity in w.nodes && w.nodes[identity].status != Offline
    requires w.nodes[identity].lease.expireAt >= moment
    ensures RoutesUntil(w, identity, w.nodes[identity].session, moment)
  {
  }

  /** A successful renewal at some clock reading keeps the node up and its grains routeable until a full lease duration
      later, unless its session is replaced or removed. */
  lemma RenewalKeepsAlive(run: Run, identity: string, i: nat, j: nat)
    requires WellFormed(run) && i < j <= |run.ticks| && Succeeds(run, i)
    requires run.ticks[i].command.CRenewNode? && run.ticks[i].command.identity == identity
    requires NotReset(run, identity, i + 1, j) && identity in WorldAt(run, i).nodes
    requires ClocksBelow(run, i + 1, j, run.ticks[i].now + WorldAt(run, i).nodes[identity].lease.ttl)
    ensures var w, before := WorldAt(run, j), WorldAt(run, i).nodes[identity];
            var moment := run.ticks[i].now + before.lease.ttl;
            && identity in w.nodes && w.nodes[identity].session == before.session
            && w.nodes[identity].status != Offline && w.nodes[identity].lease.expireAt >= moment
            && RoutesUntil(w, identity, before.session, moment)
  {
    hide WorldAt, Step, Valid, RoutesUntil, Lookup, ClocksBelow, NotReset, WellFormed;
    var moment := run.ticks[i].now + WorldAt(run, i).nodes[identity].lease.ttl;
    RenewedAtTick(run, identity, i);
    StandsUntil(run, identity, i + 1, j, moment);
    RunsStayValid(run, j);
    StandingRoutes(WorldAt(run, j), identity, moment);
  }

  lemma RenewedAtTick(run: Run, identity: string, i: nat)
    requires i < |run.ticks| && Succeeds(run, i) && identity in WorldAt(run, i).nodes
    requires run.ticks[i].command.CRenewNode? && run.ticks[i].command.identity == identity
    ensures identity in WorldAt(run, i + 1).nodes
    ensures var n, n' := WorldAt(run, i).nodes[identity], WorldAt(run, i + 1).nodes[identity];
            && n'.session == n.session && n'.status != Offline
            && n'.lease.expireAt >= run.ticks[i].now + n.lease.ttl
  {
    var c, tick := run.ticks[i].command, run.ticks[i];
    assert WorldAt(run, i + 1) == StepAt(run, i).world;
    hide RenewNode;
    RenewalExtends(WorldAt(run, i), tick.now, identity, c.session, c.metrics);
    RenewedIsUp(WorldAt(run, i), tick.now, identity, c.session, c.metrics);
  }

  lemma RenewedIsUp(w: World, now: int, identity: string, session: string, metrics: Option<Metrics>)
    requires RenewNode(w, now, identity, session, metrics).reply.Ok?
    ensures var w' := RenewNode(w, now, identity, session, metrics).world;
            identity in w'.nodes && w'.nodes[identity].status != Offline
  {
  }

  // ------------------------------------------------------------------------------------------
  // Redis.

  /** A renewal by the script: the stored node is extended, its lease score is the new expiry, the answer is the time
      that remains, and nothing else changes. */
  lemma RedisRenewalExtends(k: Keys, now: int, id: string, session: string, metrics: Option<Metrics>,
      seen: Option<Node>)
    requires NodeScripts.RenewNode(k, now, id, session, metrics, seen).reply.Answer?
    ensures var r := NodeScripts.RenewNode(k, now, id, session, metrics, seen);
            && seen.Some? && Load(k.node, id).Loaded? && Load(r.keys.node, id).Loaded?
            && var before, after := Load(k.node, id).value.node, Load(r.keys.node, id).value.node;
               && before.session == session && now < before.lease.expireAt
               && Extends(before, after, now, metrics)
               && r.reply.value == LeaseReply(after.lease.version, after.lease.expireAt - now)
               && (forall g, m :: Score(r.keys.leases, g, m)
                                  == if g == seen.value.GroupOf() && m == id then Some(after.lease.expireAt)
                                     else Score(k.leases, g, m))
               && r.keys == k.(node := k.node[id := Holds(Load(k.node, id).value.(node := after))],
                               leases := r.keys.leases)
  {
    hide NodeScripts.ScoreAgrees, NodeScripts.StorableMetrics;
  }

  /** The same promise over runs of Redis, whatever was read when and whatever the server clocks do in between below
      that moment. */
  lemma RedisRenewalKeepsAlive(run: RRun, identity: string, i: nat, j: nat, before: Node)
    requires WellTimed(run) && i < j <= |run.ticks| && ResultAt(run, i).ok
    requires run.ticks[i].request.RRenewNode? && run.ticks[i].request.identity == identity
    requires ReadNode(KeysAt(run, i), identity) == Some(before)
    requires forall m :: i < m < j ==> !ResetsLease(run.ticks[m].request, identity)
    requires forall m :: i < m < j ==> run.ticks[m].now < run.ticks[i].now + before.lease.ttl
    ensures var after := ReadNode(KeysAt(run, j), identity);
            && after.Some? && after.value.session == before.session && after.value.status != Offline
            && after.value.lease.expireAt >= run.ticks[i].now + before.lease.ttl
  {
    var c, tick := run.ticks[i].request, run.ticks[i];
    RedisRenewalExtends(KeysAt(run, i), tick.now, identity, c.session, c.metrics,
        ReadNode(KeysAt(run, tick.read), identity));
    RedisRenewedIsUp(KeysAt(run, i), tick.now, identity, c.session, c.metrics,
        ReadNode(KeysAt(run, tick.read), identity));
    assert KeysAt(run, i + 1) == ResultAt(run, i).keys;
    hide RStep, NodeScripts.RenewNode, KeysAt;
    var renewed := Load(ResultAt(run, i).keys.node, identity).value.node;
    RedisLeaseMonotone(run, i + 1, j, identity, renewed);
    var after := ReadNode(KeysAt(run, j), identity).value;
    if after.status == Offline {
      RedisOfflineOnlyWhenDue(run, i + 1, j, identity, renewed, after);
    }
  }

  lemma RedisRenewedIsUp(k: Keys, now: int, id: string, session: string, metrics: Option<Metrics>, seen: Option<Node>)
    requires NodeScripts.RenewNode(k, now, id, session, metrics, seen).reply.Answer?
    ensures var after := Load(NodeScripts.RenewNode(k, now, id, session, metrics, seen).keys.node, id);
            after.Loaded? && after.value.node.status != Offline
  {
    hide NodeScripts.ScoreAgrees, NodeScripts.StorableMetrics;
  }

  /** And the scripts' lookup, with a current read, answers each of its grains until then. */
  lemma RedisStandingRoutes(k: Keys, identity: string, key: string, clock: int)
    requires Reachable(k)
    requires var n, p := ReadNode(k, identity), ReadPlacement(k, key);
             && n.Some? && p.Some? && n.value.status != Offline && clock < n.value.lease.expireAt
             && p.value.nodeIdentity == identity && p.value.ownerSession == n.value.session
    ensures PlacementScripts.Lookup(k, clock, key, ReadPlacement(k, key)).reply.Answer?
  {
    PlacementRefinement.LookupRefines(k, clock, key, ReadPlacement(k, key));
    PlacementRefinement.StoredPlacement(k, key);
    NodeRefinement.StoredNode(k, identity);
    hide PlacementScripts.Lookup, Reachable, WellFormedIdentity;
  }
}

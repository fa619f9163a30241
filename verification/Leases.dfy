/** Lease durations and what a client makes of a lease a script answers. */
module Leases {
  import opened Types
  import opened Keyspace
  import Decimal

  const NANOS_PER_MILLI := 1000000

  /** The longest lease whose milliseconds still fit a signed 64-bit count of nanoseconds. */
  const MAX_NODE_LEASE_TTL_MILLIS := MAX_INT64 / NANOS_PER_MILLI

  /** A lease duration in nanoseconds, rounded to whole milliseconds. */
  function NormalizeTtl(ttl: int): Option<int> {
    if ttl <= 0 then None
    else
      var millis := ttl / NANOS_PER_MILLI;
      var rounded := if ttl % NANOS_PER_MILLI != 0 && millis < MAX_NODE_LEASE_TTL_MILLIS then millis + 1 else millis;
      Some(rounded * NANOS_PER_MILLI)
  }

  /** A positive duration becomes a positive whole number of milliseconds less than one millisecond away, without
      overflow; it is not shortened exactly when it is at most the longest whole-millisecond lease. */
  lemma NormalizedTtl(ttl: int)
    requires ttl <= MAX_INT64
    ensures NormalizeTtl(ttl).Some? <==> ttl > 0
    ensures ttl > 0 ==>
              var r := NormalizeTtl(ttl).value;
              && r % NANOS_PER_MILLI == 0
              && NANOS_PER_MILLI <= r <= MAX_INT64
              && r - NANOS_PER_MILLI < ttl < r + NANOS_PER_MILLI
              && (r >= ttl <==> ttl <= MAX_NODE_LEASE_TTL_MILLIS * NANOS_PER_MILLI)
  {
    if ttl > 0 {
      var millis, part := ttl / NANOS_PER_MILLI, ttl % NANOS_PER_MILLI;
      Decimal.DivisionUnique(MAX_INT64, NANOS_PER_MILLI, 9223372036854, 775807);
      WholeMillis(if part != 0 && millis < 9223372036854 then millis + 1 else millis);
      RoundedBounds(ttl, millis, part);
    }
  }

  lemma WholeMillis(millis: nat)
    ensures millis * NANOS_PER_MILLI % NANOS_PER_MILLI == 0
  {
    Decimal.DivisionUnique(millis * NANOS_PER_MILLI, NANOS_PER_MILLI, millis, 0);
  }

  lemma RoundedBounds(ttl: int, millis: int, part: int)
    requires 0 < ttl <= 9223372036854775807 && ttl == millis * 1000000 + part && 0 <= part < 1000000
    ensures 0 <= millis <= 9223372036854
    ensures var r := (if part != 0 && millis < 9223372036854 then millis + 1 else millis) * 1000000;
            && 1000000 <= r <= 9223372036854775807 && r - 1000000 < ttl < r + 1000000
            && (r >= ttl <==> ttl <= 9223372036854000000)
  {
  }

  /** A normalized duration is left alone by a second normalization. */
  lemma NormalizingTwice(ttl: int)
    requires 0 < ttl <= MAX_INT64
    ensures NormalizeTtl(NormalizeTtl(ttl).value) == NormalizeTtl(ttl)
  {
    NormalizedTtl(ttl);
  }

  const MICROS_PER_MILLI := 1000

  /** now_millis of a server clock in microseconds. */
  function ServerMillis(micros: nat): nat {
    micros / MICROS_PER_MILLI
  }

  /** nodeLeaseGrantResult: the remaining time counts from the moment the request started. */
  function GrantResult(requestStart: int, r: Response<LeaseReply>): Response<Grant> {
    match r
    case Refused(e) => Refused(e)
    case Faulted(f) => Faulted(f)
    case Answer(lease) =>
      if lease.version <= 0 then Faulted(InvalidReply)
      else if lease.remaining <= 0 then Refused(NodeLeaseExpired)
      else Answer(Grant(lease.version, requestStart + lease.remaining * MICROS_PER_MILLI))
  }

  /** The answer arrives when its remaining time is over, or carries a longer lease than a client accepts. */
  predicate Late(requestStart: int, clientNow: int, remaining: int) {
    clientNow >= requestStart + remaining * MICROS_PER_MILLI || remaining > MAX_NODE_LEASE_TTL_MILLIS
  }

  function RouteFrom(requestStart: int, r: RouteReply): Route {
    var p := r.placement;
    Route(p.grainKey, p.placementId, p.nodeIdentity, p.ownerSession, p.version, p.status, r.leaseVersion,
          requestStart + r.remaining * MICROS_PER_MILLI)
  }

  /** The route a resolution hands out. */
  function RouteResult(requestStart: int, clientNow: int, r: Response<RouteReply>): Response<Route> {
    match r
    case Refused(e) => Refused(e)
    case Faulted(f) => Faulted(f)
    case Answer(reply) =>
      if reply.leaseVersion <= 0 then Faulted(InvalidReply)
      else if reply.remaining <= 0 || Late(requestStart, clientNow, reply.remaining) then Refused(OwnerUnavailable)
      else Answer(RouteFrom(requestStart, reply))
  }

  /** The route a lookup hands out. */
  function LookupResult(requestStart: int, clientNow: int, r: Response<RouteReply>): Response<Route> {
    match r
    case Refused(e) => Refused(e)
    case Faulted(f) => Faulted(f)
    case Answer(reply) =>
      if reply.remaining <= 0 || Late(requestStart, clientNow, reply.remaining) then Refused(PlacementNotFound)
      else Answer(RouteFrom(requestStart, reply))
  }

  /** A grant counted from the request start is off the lease deadline by how far the client's clock was ahead of the
      server's at the request, and by less than one millisecond more; it passes the deadline exactly when the request
      started after the millisecond the server read. */
  lemma GrantStaysNearTheLease(requestStart: int, server: nat, expireAt: int, version: int)
    requires version > 0
    ensures var r := GrantResult(requestStart, Answer(LeaseReply(version, expireAt - ServerMillis(server))));
            var skew := requestStart - server;
            && (r.Answer? <==> expireAt > server / 1000) && (!r.Answer? ==> r == Refused(NodeLeaseExpired))
            && (r.Answer? ==>
                  && expireAt * 1000 + skew <= r.value.validUntil < (expireAt + 1) * 1000 + skew
                  && (r.value.validUntil > expireAt * 1000 <==> requestStart > server / 1000 * 1000)
                  && r.value.version == version)
  {
    var floor := ServerMillis(server);
    assert floor * MICROS_PER_MILLI <= server < (floor + 1) * MICROS_PER_MILLI;
  }

  /** The same for routes, which a client uses only while its own clock has not reached that moment. */
  lemma RouteStaysNearTheLease(requestStart: int, clientNow: int, server: nat, p: Placement, leaseVersion: int,
      expireAt: int)
    ensures var reply := RouteReply(p, leaseVersion, expireAt - ServerMillis(server));
            var r := RouteResult(requestStart, clientNow, Answer(reply));
            var skew := requestStart - server;
            var lookup := LookupResult(requestStart, clientNow, Answer(reply));
            var remaining := expireAt - server / 1000;
            && (lookup.Answer? <==> 0 < remaining <= 9223372036854 && clientNow < requestStart + remaining * 1000)
            && (r.Answer? <==> lookup.Answer? && leaseVersion > 0)
            && (!lookup.Answer? ==> lookup == Refused(PlacementNotFound))
            && (!r.Answer? ==> r == if leaseVersion <= 0 then Faulted(InvalidReply) else Refused(OwnerUnavailable))
            && (r.Answer? ==>
                  && expireAt * 1000 + skew <= r.value.validUntil < (expireAt + 1) * 1000 + skew
                  && clientNow < r.value.validUntil && lookup == r
                  && r.value == Route(p.grainKey, p.placementId, p.nodeIdentity, p.ownerSession, p.version, p.status,
                                      leaseVersion, r.value.validUntil))
  {
    var floor := ServerMillis(server);
    assert floor * MICROS_PER_MILLI <= server < (floor + 1) * MICROS_PER_MILLI;
  }
}

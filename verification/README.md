# Stable placement, verified

A Dafny model of the placement ownership protocol of the stable-placement library, with proofs of what it
promises. `dafny verify dfyconfig.toml` checks everything.

A directory assigns each grain to one node. A placement carries an ID, an owner, the owner's session and a version;
together they fence off stale owners. Nodes hold leases; a node name can be marked invalid so that it drains. The
library implements this twice: in process, as maps under locks, and in Redis, where a client reads a raw record,
derives the keys of a script from it, and the script compares the record again before it acts.

## How the files fit together

| files | content |
|---|---|
| `Types`, `Naming`, `Ordering`, `Decimal` | records and events; identities, grain keys and Redis key names; sorted listings; counters as digit strings and cursors |
| `Protocol`, `ProtocolRuns` | every command as a step from one world to the next, the invariant, and the theorems about whole runs |
| `Effects`, `Refusals`, `KeepAlive` | what the commands leave behind in the records and events themselves, why they are refused, and how long a renewal keeps a node up |
| `Memory` | the in-process registry and directory as objects, each method proved to be a protocol step |
| `Schedule`, `RoundRobin` | node selection: the one-pass Lua scan and the sorting Go strategy; fairness of the scripts' turns over runs |
| `Keyspace`, `NodeScripts`, `PlacementScripts`, `Server` | the Redis keyspace, the scripts as steps over it, and the scripts as programs proved to be those steps |
| `RedisInvariant`, `NodeRefinement`, `SelectionRefinement`, `PlacementRefinement`, `MutationRefinement` | what every reachable keyspace satisfies, the world it stands for, and the refinement of each script |
| `RedisRuns`, `RedisAtomicity`, `RedisRoutes` | whole Redis runs, failure atomicity and index scores, repeated and failed resolutions |
| `RedisTraces`, `LeaseScan`, `RedisClient` | the client's retry and scan loops with requests of other clients in between |
| `Paging`, `PagingRuns` | the Redis page scan, read by read, and the traversal of pages while the index changes |
| `Cache`, `Router`, `Coherence`, `OwnerCoherence`, `RouterOperations`, `RedisCoherence` | the route cache and the cached router, coherence over every interleaving, the router's operations as moves, and the router in front of Redis |
| `Streams`, `EventBus`, `EventCodec` | consumer groups: trimming, hand-over, closing; the consumer's loops and their failures; the fields of a stream entry |
| `Leases` | lease durations and what a client makes of an answered lease |
| `Counterexamples` | states at which the code departs from its documentation |

The Redis theorems do not assume that a client's read is current. `RStepFollows` takes any earlier reachable keyspace
as the one the client read; `RunsFollow` interleaves reads and scripts freely and maps each Redis run to an in-process
run, which is how the run theorems of `ProtocolRuns` reach Redis.

Two independently written definitions face each other in most places: the in-process commands and the Lua scripts, the
script steps and the straight-line script programs, the Lua scan and the Go sort, the loops and the functions they
compute. A wrong branch on one side breaks the refinement.

Where other clients or goroutines can run inside an operation, its method returns what they did as a ghost trace and its
contract replays exactly that trace: whatever changes is a named step of the operation or a legal step of someone else.

## Assumptions

- New placement IDs are fresh. Only the theorems that name `FreshIds` or `FreshRequests` use this.
- Each lock section and each script is one step, and the clock is one value inside a step. Between steps it may repeat
  or go back.
- A raw record is the record it encodes, so comparing raw values compares records. A cell may also hold the wrong
  Redis type or undecodable text. Every map of the keyspace is indexed by a key builder's arguments; that no two of them
  share a Redis key is `Naming.KeysInjective`.
- Integers are exact. Where a bound matters it is explicit: 2^53-1 for metrics and the sequence, 2^63-1 for round-robin
  counters and cursors, 2^64 for the strategy's own counter.
- Redis lists every consumer group once, with its true pending count, and its true lag where it reports a number.
- A publisher takes every event; the outbox is a field of the object that sends.

## Where code and documentation differ

The model follows the code.

- Release deletes the record, so every stored placement is active (`memory/directory.go:356`,
  `redis/lua/placement/mutate.lua:14`).
- Transfer and recovery may cross groups (`Counterexamples.TransferCrossesGroups`; exactly when they succeed:
  `ProtocolRuns.TransferMovesToAvailable`). CompleteDrain does not require a draining status
  (`Counterexamples.DrainCompletesWhileActive`; exactly when it succeeds: `Counterexamples.DrainCompletesExactly`).
- Unregistering may leave placements behind: exactly when it is unguarded and the node owns some
  (`Counterexamples.RemovalLeavesPlacements`, `Counterexamples.UnregistrationLeavesAPlacement`).
- In Redis even a release is refused once the sequence is at its maximum, because the counter is read first
  (`Counterexamples.ReleaseAtMaximumIsRefused`; exactly when a release succeeds: `MutationRefinement.ReleaseRefines`).
- A Redis allocation with a stale read of an existing record answers a version conflict, which the in-process one
  never does (`Counterexamples.StaleAllocationIsRefused`, `PlacementRefinement.AllocateRefines`). The two backends also
  order some of their error checks differently, so when several reasons hold they may answer different ones; each error
  is a reason that holds (`Refusals.RefusalsAreJustified`, `Refusals.ScriptRefusalsAreJustified`).
- A resolution in Redis may write and still be reported as failed to its caller
  (`Counterexamples.LateResolutionWritesAndFails`; exactly when: `RedisRoutes.FailuresThatWrote`).
- After an acknowledgement that fails with a context's error, the loop over pending entries returns without an error
  although the entry is still pending, and Subscribe turns to new entries if its own context goes on
  (`EventBus.NewBeforePending`; exactly when a new entry is handled too early: `EventBus.Bus.Subscribe`).

## Model

| member | source | states |
|---|---|---|
| `Protocol.StepKeepsValid` | memory/directory.go:548-571 | Every command of the directory and the registry keeps the invariant: a grain is indexed under a node exactly when its placement names that node, no index or invalid set is kept empty, every stored placement is active under its own key, every node record names its own identity. |
| `Protocol.AddIndex` | memory/directory.go:559-564 | Adds one grain to one node and leaves every other node's grains alone. |
| `Protocol.DropIndex` | memory/directory.go:566-571 | Removes one grain from one node, drops the node when it becomes empty, and leaves every other node alone. |
| `Protocol.CreateKeepsValid` | memory/directory.go:244-266 | Storing a created placement keeps the whole invariant, whatever record it replaces. |
| `Protocol.MoveKeepsValid` | memory/directory.go:548-557 | Moving a stored placement to a registered node keeps the whole invariant. |
| `Protocol.EnrolledIsGood` | memory/node_registry.go:43-71 | A node that passes the identity check is stored under an identity its three parts parse back from, with a positive lease. |
| `Protocol.ResolvePlacedIsResolve` | memory/directory.go:106-151 | For a grain with an active placement a resolution is exactly one of: target mismatch, reuse, move to the owner's new session, or recovery away from a marked owner. |
| `ProtocolRuns.RunsStayValid` | memory/directory.go:54-60 | The invariant holds at every point of every run from an empty directory. |
| `ProtocolRuns.PlacementStep` | memory/directory.go:92-437 | Each command changes at most the one grain it names: created at version 1, advanced by exactly one version with its ID kept, removed, or unchanged; with exactly the one matching event, and no change event when nothing changed. |
| `ProtocolRuns.IdsAreIntroducedAndDistinct` | memory/directory.go:157-166 | With fresh placement IDs, no two grains ever hold the same ID, and each held ID was introduced by an earlier command. |
| `ProtocolRuns.DeadStaysDead` | memory/directory.go:319-361 | An ID no grain holds any more is never held again. |
| `ProtocolRuns.FencingTokenNamesOneOwner` | memory/directory.go:269-437 | In a whole run a grain, a placement ID and a version name one record, hence one owner and session. |
| `ProtocolRuns.SuccessNeedsToken` | memory/directory.go:269-437 | Renew, release, transfer and recover succeed only for the ID and version the grain holds at that moment, and the last three spend that version. |
| `ProtocolRuns.OneUseOfEachToken` | memory/directory.go:319-437 | At most one transfer, recovery or release presenting the same grain, ID and version ever succeeds. |
| `ProtocolRuns.ReleasedIdIsFinal` | memory/directory.go:356-360 | After a release no renew, release, transfer or recovery naming the released ID succeeds, whatever else it presents. |
| `ProtocolRuns.RenewExactlyWhileRouteable` | memory/directory.go:269-317 | A placement renewal succeeds exactly when the claim names the current owner, session, ID and version and a lookup would route to it; it changes nothing. |
| `ProtocolRuns.ReleaseExactlyByRegisteredOwner` | memory/directory.go:319-361 | A release succeeds exactly when the claim matches and the owner's session is the registered one, expired or not; afterwards no record, route or index entry of the grain is left. |
| `ProtocolRuns.TransferMovesToAvailable` | memory/directory.go:363-399 | A transfer succeeds exactly for the current ID, version and (if given) owner and an available target; afterwards the target is the grain's one indexed owner and a lookup routes to it. The target may be in another group and the old owner healthy. |
| `ProtocolRuns.RecoverMovesOnlyUnroutable` | memory/directory.go:401-437 | A recovery succeeds exactly for the current ID and version, an unroutable grain and an available target, with the same outcome as a transfer. |
| `ProtocolRuns.LeaseStep` | memory/node_registry.go:73-103 | While a node is not replaced or removed, one step keeps its session and lease duration, raises the lease version by one exactly on a successful renewal, never lowers the expiry, leaves an offline record untouched, and turns it offline only through its own expiry when its current lease is due. |
| `ProtocolRuns.LeaseMonotone` | memory/node_registry.go:73-103 | Over a run the lease version counts the renewals, the expiry never decreases although the clock may go back, and an offline session is not revived by register, renew or drain. |
| `ProtocolRuns.OfflineOnlyWhenDue` | memory/node_registry.go:171-186 | A node that went offline was taken offline by an expiry that found the very lease it still carries run out. |
| `ProtocolRuns.ScanListIsTheDueHead` | memory/node_registry.go:157-170 | The scan list is the first min(limit, due) due nodes of the group in identity order. |
| `ProtocolRuns.ScanExpiresTheDue` | memory/node_registry.go:153-188 | A scan takes exactly those nodes offline, reports that many, sends one event each and leaves every other node alone. |
| `ProtocolRuns.ScanIsARun` | memory/node_registry.go:171-186 | A scan is a run of single expiries at one clock reading, so the run theorems hold for it. |
| `ProtocolRuns.DrainStep` | memory/node_registry.go:239-269 | While an identity is marked invalid, no command but its own restore unmarks it, and no command gives it a grain. |
| `ProtocolRuns.DrainMonotone` | memory/directory.go:543-546 | From the mark until the restore, across session replacement, unregistration and re-registration, the grains on an identity only shrink. |
| `ProtocolRuns.DrainIsComplete` | memory/directory.go:54-60 | After a successful CompleteDrain of a marked identity no placement names it until it is restored. |
| `ProtocolRuns.ResolveMovesOnlyFromBarredOwner` | memory/directory.go:111-151 | A resolution moves a grain to another node exactly when the owner is unusable and marked, the target group is the owner's and a candidate was picked; it re-homes it on the same node exactly when the owner is usable under a new session; any move stays in the group, keeps the ID and adds exactly 1 to the version. |
| `ProtocolRuns.ResolveSettles` | memory/directory.go:92-167 | A successful resolution leaves an active, routeable placement inside the requested group, and answers exactly its route. |
| `ProtocolRuns.ResolveIsStable` | memory/directory.go:92-167 | A second resolution at the same clock, with any pick and any fresh ID, answers the same route and changes nothing; so does a lookup. |
| `ProtocolRuns.AllocateCommitsOnlyToAvailable` | memory/directory.go:236-266 | Whatever happened between candidate selection and commit: a committed owner is registered, active, unexpired, unmarked, in the requested group and on the chosen session at commit, and an existing placement is never overwritten. |
| `Effects.RegistrationStartsSession` | memory/node_registry.go:43-71 | A registration stores a new node active, without metrics, on version 1 of a full lease, with one event; for a registered node it answers the lease it has and changes nothing. |
| `Effects.ReplacementStartsSession` | memory/node_registry.go:130-151 | A replacement stores the same fresh session whatever the node was, and answers exactly what it was. |
| `Effects.RenewalExtends` | memory/node_registry.go:73-103 | A renewal raises the version by one, and the stored expiry and the granted moment are the later of the old one and a full duration after the clock; the metrics are the presented ones stamped with the clock, or the old ones; nothing else changes. |
| `Effects.StatusChanges` | memory/node_registry.go:113-223 | Draining, expiry and removal change one status or one record, when they may, with one event that names the node, its session and its lease version. |
| `Effects.NameChanges` | memory/node_registry.go:239-269 | Marking and restoring change one name of one group, and the event names the identity that the name stands for. |
| `Effects.CommitPlaces` | memory/directory.go:236-266 | A commit that creates: the record field by field, its one index entry, its event and its answer; every other grain stays where it was. |
| `Effects.ResolutionPlaces` | memory/directory.go:92-167 | A resolution that changes something: a new record, or the old one on another node or session with the next version, its one index entry, its event and the route to it. |
| `Effects.MovesShift` | memory/directory.go:363-437 | A transfer or a recovery keeps grain, ID and creation time and adds exactly one version; its index entry, its event and its answer. |
| `Effects.ReleaseRemoves` | memory/directory.go:319-361 | A release removes the record and its index entry, and its event carries the next version. |
| `Effects.RenewalConfirms` | memory/directory.go:269-317 | A placement renewal changes nothing and announces the placement it answers. |
| `KeepAlive.RenewalKeepsAlive` | memory/node_registry.go:73-103 | Over a run: until a full lease duration after a successful renewal the node is registered under its session and not offline, and a lookup routes to every grain placed on that session, whatever else runs, unless the session is replaced or removed. |
| `KeepAlive.RedisRenewalExtends` | redis/lua/node/renew.lua:1-16 | On any keyspace: the script extends the stored node in the same way, its lease score is the new expiry, the answer is the time that remains, and no other key changes. |
| `KeepAlive.RedisRenewalKeepsAlive` | redis/lua/node/renew.lua:1-16 | The same promise over runs of Redis, whatever was read when. |
| `KeepAlive.RedisStandingRoutes` | redis/lua/placement/lookup.lua:1-8 | Until then the lookup script, with a current read, answers each grain placed on the session. |
| `Refusals.RefusalsAreJustified` | memory/directory.go:92-437 | For every in-process command: it is refused exactly when one of its listed reasons holds of the records, with an error that is one of them, and then changes and announces nothing. |
| `Refusals.ScriptRefusalsAreJustified` | redis/lua/placement/mutate.lua:1-14 | For every script with a current read: an error status it answers is one of the same reasons, or metrics beyond 2^53-1. |
| `Memory.NodeRegistry.RegisterNode` | memory/node_registry.go:43-71 | First registration, idempotent re-registration of a live session, refusal of another session or an expired one: new state, event and reply. |
| `Memory.NodeRegistry.RenewNode` | memory/node_registry.go:73-103 | Lease version and expiry advance and metrics are stamped: new state and reply, no event. |
| `Memory.NodeRegistry.ReplaceNodeSession` | memory/node_registry.go:130-151 | The session is replaced with a first-version lease and the previous record is answered. |
| `Memory.NodeRegistry.UnregisterNode` | memory/node_registry.go:113-128 | Guarded or unguarded removal: refusal codes, new state and event. |
| `Memory.NodeRegistry.CollectDue` | memory/node_registry.go:157-165 | The due nodes of a group, whatever order the map yields them in. |
| `Memory.NodeRegistry.ExpireNodeLeases` | memory/node_registry.go:153-188 | The scan and mutation loops compute the specified scan: state, events and count. |
| `Memory.NodeRegistry.DrainNode` | memory/node_registry.go:203-223 | Only a marked, not offline node starts draining. |
| `Memory.NodeRegistry.MarkNodeInvalid` | memory/node_registry.go:239-253 | The name joins its group's invalid set and one event is sent. |
| `Memory.NodeRegistry.RestoreNode` | memory/node_registry.go:255-269 | The name leaves its group's invalid set, an empty set is dropped, and one event is sent. |
| `Memory.Directory.Lookup` | memory/directory.go:66-90 | Answers exactly the route of a routeable placement. |
| `Memory.Directory.Exists` | memory/directory.go:439-447 | A grain exists exactly while a lookup would route to it. |
| `Memory.Directory.PlacementRouteable` | memory/directory.go:534-541 | Decides exactly the specified routeability. |
| `Memory.Directory.TargetAvailable` | memory/directory.go:543-546 | Decides exactly the specified availability. |
| `Memory.Directory.MovePlacement` | memory/directory.go:548-557 | The index and the record after a move, and the moved record. |
| `Memory.Directory.StorePlacement` | memory/directory.go:252-262 | The index and the record after a creation. |
| `Memory.Directory.EffectiveNodes` | memory/directory.go:510-532 | The available nodes of a group in identity order, with the number of grains indexed under each. |
| `Memory.Directory.ChooseTarget` | memory/directory.go:169-194 | A strategy's answer is accepted only if it names a candidate and that candidate's session. |
| `Memory.Directory.ResolveRoute` | memory/directory.go:92-167 | New state, event and reply of every branch. |
| `Memory.Directory.PrepareAllocation` | memory/directory.go:209-234 | The first phase: a usable placement answers, an unusable one or an empty group refuses, otherwise the strategy chooses. |
| `Memory.Directory.CommitAllocation` | memory/directory.go:236-266 | The second phase: state, event and reply of the commit on the state it finds. |
| `Memory.Directory.Allocate` | memory/directory.go:209-267 | Both phases: the commit acts on exactly the state that the commands of others made of the one the allocation began with, not on the one the strategy saw; every event is accounted for. A new grain whose strategy answers a node that can take it, before and at the commit, is stored on that node and session under the given ID, and a lookup routes there. |
| `Memory.Directory.Renew` | memory/directory.go:269-317 | State, event and reply of a placement renewal. |
| `Memory.Directory.Release` | memory/directory.go:319-361 | The record is deleted, its index entry dropped, and the event carries the next version. |
| `Memory.Directory.Transfer` | memory/directory.go:363-399 | State, event and reply of a transfer. |
| `Memory.Directory.Recover` | memory/directory.go:401-437 | State, event and reply of a recovery. |
| `Memory.Directory.CompleteDrain` | memory/directory.go:54-60 | The ownership test and the removal are one step. |
| `Memory.Directory.FindByNode` | memory/directory.go:449-493 | The page a cursor, a status and a limit select from the node's sorted grains: stored placements of that node and status, no more than the limit (100 if none is given); it fails exactly for a cursor that is not a number from 0. |
| `Memory.PagesCoverTheNode` | memory/directory.go:449-493 | On an unchanged directory the unfiltered pages concatenate to exactly the node's placements, each once and in key order. |
| `Memory.PagesConcatenate` | memory/directory.go:460-492 | From any page boundary on, following the page cursors yields exactly the remaining grains. |
| `Memory.PreparationAnswersTheServed` | memory/directory.go:209-225 | The first phase answers a placed grain exactly while its owner is registered under its session, not offline and not expired, and refuses it otherwise; names that make no grain key are refused. |
| `Memory.PreparationIsTheStrategys` | memory/directory.go:209-234 | For a new grain the first phase hands on exactly what the strategy answers, and refuses exactly when it has no node to show or gets no answer. |
| `Memory.StrategySeesTheAvailable` | memory/directory.go:510-532 | A strategy is shown exactly the registered nodes of the group that are active, unexpired and not marked, in identity order, each with the number of grains placed on it. |
| `Schedule.ScanBest` | redis/lua/shared/schedule.lua:14-44 | The one-pass best list is exactly the usable candidates no other usable one beats, in input order. |
| `Schedule.BestAreTheFittest` | redis/lua/shared/schedule.lua:27-34 | In the metrics themselves: the best list holds exactly the candidates within every configured bound of which no other has more units of 256 MiB, then more hundreds of millicores, then fewer hundreds of goroutines, then fewer grains. |
| `Schedule.ChoiceIsFittest` | redis/lua/shared/schedule.lua:11-46 | The resource-aware choice is such a candidate, and there is none exactly when no candidate is within the bounds. |
| `Schedule.EveryBestHasATurn` | redis/lua/shared/schedule.lua:46 | While the candidates stay as they are, each of the best is chosen within as many turns as there are candidates. |
| `Schedule.BestStep` | redis/lua/shared/schedule.lua:28-41 | One more candidate replaces the best list when it beats it, joins it on a tie, and otherwise leaves it. |
| `Schedule.ChooseCandidate` | redis/lua/shared/schedule.lua:11-46 | Round robin picks position counter mod n; resource-aware picks the same way from the best list; no usable candidate or another mode picks none; what resource-aware picks is the fittest in the metrics themselves. |
| `PlacementScripts.KeyOrderIsByEncoding` | redis/lua/placement/resolve_route.lua:19 | Candidates are listed in the byte order of their encoded keys. |
| `RoundRobin.ChoiceIsAtTurn` | redis/lua/shared/schedule.lua:12 | The round-robin choice of a script is the eligible node at the group's turn, in encoded-key order, whatever the placement counts are. |
| `RoundRobin.RequestsTurnBySelection` | redis/lua/placement/resolve_route.lua:32-46 | A group's turn passes exactly when a request for that group creates a placement or moves one to another node, and then the new owner is the eligible node at the turn that passed. |
| `RoundRobin.EveryNodeIsPickedOnce` | redis/lua/shared/schedule.lua:12 | In any window of a run with as many round-robin picks of a group as it has eligible nodes, whatever other requests, clocks and counts come in between, each eligible node is picked exactly once if the eligible set is the same at every pick. |
| `Schedule.ResourceAware.Choose` | strategies/resource_aware.go:35-67 | Rotates through the tied prefix of the sorted usable nodes; as a set that prefix is the best list of the Lua scan over the same nodes, counts and clock, for metrics up to 2^53-1; whatever their size, the prefix holds exactly the fittest nodes in the metrics themselves. |
| `Schedule.BeforeIsAWeakOrder` | strategies/resource_aware.go:54-59 | The comparator handed to the sort is a strict weak order that agrees with the Lua comparison of buckets and counts. |
| `Schedule.SortCandidates` | strategies/resource_aware.go:54-59 | The usable candidates sorted by that comparator, as a permutation. |
| `Schedule.TiedPrefixIsBest` | strategies/resource_aware.go:60-63 | The tied prefix holds exactly the candidates no other beats, in identity order. |
| `Schedule.RoundRobin.Choose` | strategies/round_robin.go:19-29 | The next position modulo the number of nodes. |
| `SelectionRefinement.SelectionIsFittest` | redis/lua/shared/schedule.lua:11-46 | Resource-aware selection on a reachable keyspace: an active, unexpired, unmarked node of the group within the bounds, with none better by its metrics and the grains placed on it; it finds none exactly when there is none. |
| `Decimal.DecimalMod` | redis/lua/shared/schedule.lua:1-5 | The digit-by-digit remainder equals the value of the whole string modulo the divisor. |
| `Decimal.CounterAcceptedIff` | redis/lua/shared/helper.lua:20-25 | The digit, leading-zero, length and string-order tests accept a text exactly when it is canonical and its value is below the maximum. |
| `Decimal.TextOrderIsNumericOrder` | redis/lua/shared/helper.lua:23 | Between digit strings of one length, string order is numeric order. |
| `Keyspace.ReadCounter` | redis/lua/shared/helper.lua:20-25 | What it accepts is canonical and one INCR later still within the maximum. |
| `Decimal.ConsecutivePicksCoverOnce` | redis/lua/shared/schedule.lua:12 | Consecutive counter values modulo n take every residue once. |
| `Decimal.CursorRoundTrip` | redis/directory.go:637-648 | Parsing a formatted cursor gives its score and key back, and fails exactly for an empty key. |
| `Naming.IdentityRoundTrip` | identity.go:40-96 | The three accessors give back the parts an identity was built from. |
| `Naming.IdentityFromParts` | identity.go:78-96 | An identity whose parts parse is those parts joined, so the parts determine it. |
| `Naming.NamesAreJoined` | identity.go:24-76 | Grain keys and identities are accepted exactly for parts of 1 to 128 bytes (grain IDs to 256) without slashes and control characters, and are the parts joined in order. |
| `Naming.GrainKeyInjective` | identity.go:24-32 | Two validated (kind, ID) pairs with the same grain key are the same pair. |
| `Naming.EncodeRoundTrip` | redis/keys.go:68-70 | Unpadded URL-safe base64 (sections 3.2 and 5 of RFC 4648) is undone by its decoder on every byte string. |
| `Naming.EncodingIsUrlSafeBase64` | redis/keys.go:68-70 | The symbols are the URL-safe alphabet of section 5 of RFC 4648 and carry the bits of three bytes in order. |
| `Naming.EncodeInjective` | redis/keys.go:68-70 | Encodings are equal exactly when the byte strings are. |
| `Naming.KeysInjective` | redis/keys.go:16-58 | Two Redis keys, of the same or of different builders, are equal exactly when builder and arguments are. |
| `Naming.ConsumerGroupsInjective` | redis/keys.go:60-62 | Two consumer group names are equal exactly when identity and session are. |
| `Naming.GroupPrefixExact` | memory/cache.go:71-84 | The slash-terminated prefix test on a well-formed identity is equality of its parsed type and group. |
| `Naming.GroupKeyInjective` | memory/node_registry.go:350 | The registry's joined group key separates groups. |
| `Server.Redis.Register` | redis/lua/node/register.lua:1-21 | Checks, early returns and writes of the script, on any keyspace: exact new keyspace and reply. |
| `Server.Redis.Replace` | redis/lua/node/replace_session.lua:1-10 | Likewise for session replacement, with the previous record in the reply. |
| `Server.Redis.RenewNode` | redis/lua/node/renew.lua:1-16 | Likewise for renewal: version, expiry that never falls, metrics and lease score. |
| `Server.Redis.Unregister` | redis/lua/node/unregister.lua:1-8 | Likewise for the guarded or unguarded removal. |
| `Server.Redis.Drain` | redis/lua/node/drain.lua:1-6 | Likewise for draining. |
| `Server.Redis.MarkInvalid` | redis/lua/node/mark_invalid.lua:1 | Likewise for marking a name. |
| `Server.Redis.Restore` | redis/lua/node/restore.lua:1 | Likewise for restoring a name. |
| `Server.Redis.ExpireNode` | redis/lua/lease/expire_node.lua:1-14 | Likewise for one expiry with its compare-and-set and its two clean-ups. |
| `Server.Redis.Lookup` | redis/lua/placement/lookup.lua:1-8 | Likewise for the routeability decision. |
| `Server.Redis.ListCandidates` | redis/lua/placement/resolve_route.lua:22-31 | The listing loop: the gathered candidates or the first fault, in encoded-key order. |
| `Server.Redis.SelectNode` | redis/lua/placement/allocate.lua:5-9 | Candidate list, counters and choice. |
| `Server.Redis.Allocate` | redis/lua/placement/allocate.lua:1-10 | Likewise for allocation. |
| `Server.Redis.ResolveRoute` | redis/lua/placement/resolve_route.lua:1-46 | Likewise for resolution: reuse, session recovery, cross-node recovery or creation. |
| `Server.Redis.Mutate` | redis/lua/placement/mutate.lua:1-14 | Likewise for release, transfer and recovery. |
| `Server.Redis.Renew` | redis/lua/placement/renew.lua:1-7 | Likewise for the placement renewal, which only appends to the audit stream. |
| `RedisClient.Client.ResolveRoute` | redis/directory.go:316-331 | Up to three attempts with requests of others before each script: an answer other than a conflict is what the client makes of one script run with a current read, on the old keyspace after exactly those requests; three conflicts change nothing. A route it answers names the stored placement, its stored node and session inside the requested group, and the time its lease has left. |
| `RedisClient.Client.ResolveRouteOnce` | redis/directory.go:333-413 | One attempt, from the read to the route handed out, with its check of the remaining lease time. |
| `RedisClient.AnswersAreCurrent` | redis/directory.go:324-330 | A resolution script that does not answer a conflict ran with a current read. |
| `RedisClient.Client.ExpireNodeLeases` | redis/node_lease.go:15-77 | One scan with requests of others before every read and script: its own requests are one expiry for each of the lowest scores, with the score from the start and a record from a moment before the first script; it counts those that succeed, and on a reachable keyspace it does not fail. |
| `RedisClient.Client.Snapshot` | redis/node_lease.go:38-65 | The snapshot phase reads each record at a moment of its own, or fails before the first script. |
| `LeaseScan.UndisturbedScanIsExact` | redis/node_lease.go:15-77 | A scan that nobody disturbs takes exactly min(limit, due) due nodes offline, the ones with the lowest scores, and counts them. |
| `LeaseScan.DueComeFirst` | redis/node_lease.go:20 | The lowest lease scores contain min(limit, due) due nodes. |
| `LeaseScan.ScanIsExact` | redis/node_lease.go:66-76 | Scripts run with the snapshots of one moment expire exactly the due candidates. |
| `RedisRoutes.RedisResolveIsStable` | redis/lua/placement/resolve_route.lua:6-46 | After an answered resolution a second one at the same server clock, with a current read, any placement ID and any policy, answers the same and leaves every key as it was: counters, sequence and index scores included. |
| `RedisRoutes.WritesForTheUnroutable` | redis/lua/placement/resolve_route.lua:6-46 | A resolution writes exactly when it answers for a grain that no lookup would have routed. |
| `RedisRoutes.AnsweredRouteIsStored` | redis/directory.go:360-413 | A route that a resolution hands out is the stored placement of the grain with its node's current lease version; the node is stored under its session inside the requested group, not offline and not expired, and the client's clock has not reached the moment handed out. |
| `RedisRoutes.FailuresThatWrote` | redis/directory.go:395-406 | When a resolution is reported as failed, the keyspace has changed exactly if the script answered for an unroutable grain and the answer came after its lease or carried too long a one; the answered version and remaining time are always positive. |
| `Counterexamples.LateResolutionWritesAndFails` | redis/directory.go:399-406 | One node, one grain: the script creates the placement and the client is told that the owner is unavailable. |
| `Counterexamples.ReleaseAtMaximumIsRefused` | redis/lua/placement/mutate.lua:6-7 | At the sequence maximum every release that the in-process directory accepts is refused by the script. |
| `Counterexamples.ReleaseRefusedAtMaximum` | redis/lua/placement/mutate.lua:6-7 | Such a state and such a release. |
| `Counterexamples.RemovalLeavesPlacements` | memory/node_registry.go:113-128 | A successful removal leaves placements of the node behind exactly when it is unguarded and the node owns some. |
| `Counterexamples.UnregistrationLeavesAPlacement` | memory/node_registry.go:105-128 | Such a removal, and the guarded one refused. |
| `Counterexamples.DrainCompletesExactly` | memory/directory.go:54-60 | A drain is completed exactly for the registered session of a node that no placement names, whatever its status or mark. |
| `Counterexamples.DrainCompletesWhileActive` | memory/directory.go:54-60 | Such a node, active and not marked. |
| `Counterexamples.TransferCrossesGroups` | memory/directory.go:363-399 | A grain with a usable owner is transferred to a node of another group. |
| `Counterexamples.StaleAllocationIsRefused` | redis/lua/placement/allocate.lua:2-4 | An allocation with a stale read answers a conflict where the in-process one answers the placement. |
| `RedisInvariant.EmptyIsReachable` | redis/keys.go:16-58 | The empty namespace satisfies the keyspace invariant and stands for the empty directory. |
| `NodeRefinement.RegisterRefines` | redis/lua/node/register.lua:5-21 | On a reachable keyspace registration answers no fault, succeeds exactly when the registry's does, with the same resulting world, event and lease; so LEASE_SCORE_MISMATCH and IDENTITY_MISMATCH are unreachable. |
| `NodeRefinement.ReplaceRefines` | redis/lua/node/replace_session.lua:4-10 | The same for session replacement. |
| `NodeRefinement.RenewNodeRefines` | redis/lua/node/renew.lua:3-16 | The same for renewal with metrics up to 2^53-1, with INVALID_NODE unreachable; a client that had not seen the node is refused. |
| `NodeRefinement.UnregisterRefines` | redis/lua/node/unregister.lua:3-8 | The same for guarded and unguarded removal, after any earlier read. |
| `NodeRefinement.DrainRefines` | redis/lua/node/drain.lua:2-6 | The same for draining. |
| `NodeRefinement.MarkInvalidRefines` | redis/lua/node/mark_invalid.lua:1 | The same for marking. |
| `NodeRefinement.RestoreRefines` | redis/lua/node/restore.lua:1 | The same for restoring. |
| `NodeRefinement.ExpireNodeRefines` | redis/lua/lease/expire_node.lua:3-14 | Whatever the scan saw and whatever raced with it, a node goes offline only when its own current lease is due; otherwise nothing changes, so the clean-ups are never needed; it is expired exactly when the snapshot and its score are current and the lease is due. |
| `SelectionRefinement.ScriptListsTheAvailable` | redis/lua/placement/allocate.lua:5-7 | The script's candidates are exactly the available nodes of the group, in encoded-key order; it lists none exactly when there is none. |
| `SelectionRefinement.BothBackendsSeeTheSameCandidates` | redis/lua/placement/resolve_route.lua:21-31 | Script candidates and the in-process strategy's input hold the same nodes with the same placement counts. |
| `SelectionRefinement.BothBackendsTieTheSame` | redis/lua/shared/schedule.lua:14-45 | Over a reachable keyspace the best list of the script and that over the in-process input have the same members. |
| `SelectionRefinement.SelectionIsAvailable` | redis/lua/placement/allocate.lua:8-9 | A selection names an available node by its own index key and the current counters; it fails only when a counter is at its maximum. |
| `SelectionRefinement.SelectionIsAccepted` | memory/directory.go:169-194 | The in-process target check accepts exactly the script's selection. |
| `PlacementRefinement.LookupRefines` | redis/lua/placement/lookup.lua:2-8 | A script lookup answers exactly when its read is current and the in-process lookup answers, with the same route. |
| `PlacementRefinement.RenewRefines` | redis/lua/placement/renew.lua:2-7 | A script renewal succeeds exactly when its read is current and the in-process one succeeds; it changes only the audit stream. |
| `PlacementRefinement.AllocateRefines` | redis/lua/placement/allocate.lua:2-10 | A stale read of a grain that has a record answers a conflict; otherwise the script succeeds exactly when an uninterrupted in-process allocation with its pick does, with the same world, event and placement. |
| `PlacementRefinement.ResolveRefines` | redis/lua/placement/resolve_route.lua:3-46 | A stale read answers a conflict and changes nothing; a current one succeeds exactly when the in-process resolution with the script's pick does, with the same world, event and route. |
| `PlacementRefinement.SessionRecoveryIsReachable` | redis/lua/placement/resolve_route.lua:13-17 | Session recovery leaves index and sequence alone and still equals the in-process move. |
| `MutationRefinement.ReleaseRefines` | redis/lua/placement/mutate.lua:2-14 | A script release succeeds exactly when its read is current, the sequence is below its maximum and the in-process release succeeds. |
| `MutationRefinement.MoveRefines` | redis/lua/placement/mutate.lua:2-14 | The same for transfer and recovery. |
| `RedisRuns.RStepFollows` | redis/directory.go:104-530 | Every request, after any earlier read, does what one in-process command does, appends that command's event (a renewal's to the audit stream), or leaves world and streams alone. |
| `RedisRuns.CurrentRequestsSucceedTogether` | redis/directory.go:104-530 | With a current read, counters below their maxima and exact metrics, every request succeeds exactly when its in-process counterpart, given the script's pick, succeeds. |
| `RedisRuns.RunsFollow` | redis/directory.go:104-530 | At every point of every run, with reads and scripts interleaved at will, the keyspace is reachable, stands for the world of the followed in-process run, and both succeed at the same steps. |
| `RedisRuns.RedisFencing` | redis/lua/placement/mutate.lua:3-14 | In a whole Redis run a grain, a placement ID and a version name one stored record. |
| `RedisRuns.RedisDrainMonotone` | redis/lua/placement/resolve_route.lua:19 | In a whole Redis run a marked identity gains no index entry until it is restored. |
| `RedisRuns.RedisTokenIsSpentOnce` | redis/lua/placement/mutate.lua:2-14 | At most one Redis release, transfer or recovery presenting a grain, an ID and a version succeeds. |
| `RedisRuns.RedisLeaseMonotone` | redis/lua/node/renew.lua:11-16 | Between replacements and removals a stored lease keeps its session, its version counts the successful renewals, its expiry never goes back whatever the server clock does, and an offline node stays offline. |
| `RedisRuns.RedisOfflineOnlyWhenDue` | redis/lua/lease/expire_node.lua:3-14 | A node that went offline without a replacement or removal was taken offline by a successful expiry that found the lease it still carries due by the server clock. |
| `RedisRuns.RedisDrainIsComplete` | redis/lua/node/unregister.lua:3-8 | After a guarded removal of a marked identity no stored placement names it, in any later state, until it is restored. |
| `RedisRuns.RedisReleasedIdIsFinal` | redis/lua/placement/mutate.lua:2-14 | After a release no renewal, release, transfer or recovery presenting the released ID succeeds, whatever grain, version, session or earlier read it comes with. |
| `RedisRuns.RedisReleasedIdStaysGone` | redis/lua/placement/mutate.lua:14 | Once a record is removed, no grain is stored under its placement ID again. |
| `RedisAtomicity.RequestsAreAtomicAndAnnounced` | redis/lua/placement/allocate.lua:2-10 | On any keyspace, wrong types and undecodable records included: a failure changes no key, but for the lease score an expiry cleans up; a success that writes a placement, node or name appends exactly one event that matches the write. |
| `RedisAtomicity.RequestsAdvanceTheIndex` | redis/lua/placement/mutate.lua:14 | On any keyspace: the sequence never goes back and every new index score is above all handed out before. |
| `RedisAtomicity.RunsAdvanceTheIndex` | redis/lua/placement/resolve_route.lua:41-42 | The same between any two moments of a run. |
| `RedisAtomicity.EveryPlacementIsIndexedOnce` | redis/lua/placement/allocate.lua:10 | In every state of every run a grain is indexed under exactly its placement's owner; scores are positive, globally distinct and at most the sequence, which stays at most 2^53-1. |
| `RedisAtomicity.CommitTakesATurn` | redis/lua/placement/allocate.lua:8-10 | A selection used its group's current turn and its commit leaves the next one; other groups keep theirs. |
| `Paging.FindByNode` | redis/directory.go:539-635 | Every index read and every record read has a moment of its own in some run. The refill loop ends however the index grows: full batches raise the score the scan has come to by at least a batch less one, below 2^53. A page is in strictly increasing score order beyond its cursor; each placement was stored at some moment while the index held its grain at one; every grain that kept its score up to where the page ends is on it; there is a cursor only if an entry beyond the page was seen. With a cursor whose score nobody takes it never fails. On an unchanged index full batches pass no more entries than remain, and an unfiltered page takes at most two index reads. |
| `Paging.CursorsAccepted` | redis/directory.go:549-560 | A cursor with a key is accepted exactly for a score from 0 to 2^53-1. |
| `Paging.ReadBatch` | redis/directory.go:582-625 | One batch: one that it accepts is in strictly increasing score order beyond the boundary and within the exact integers, and in a run it is never refused. |
| `Paging.RangeFacts` | redis/directory.go:573 | One index read gives the entries from a score on, without a gap. |
| `Paging.ReachableIsPageable` | redis/directory.go:584-609 | In every reachable keyspace the index scores are strictly increasing and every entry is a decodable active placement, so the score errors are unreachable. |
| `Paging.BoundaryKeeps` | redis/directory.go:626-630 | The last entry of a batch is a good boundary for the next: no other entry takes its score later. |
| `PagingRuns.CursorsStayGood` | redis/directory.go:595-604 | A cursor stays acceptable across arbitrary requests: no other entry can take its score. |
| `PagingRuns.FollowCursor` | redis/directory.go:539-635 | From any page of a traversal, with arbitrary requests before and during the next call, the method answers the next page of that traversal: active placements, no more than asked for, and exactly that many with a cursor further on when there is one. |
| `PagingRuns.CursorsEnd` | redis/directory.go:631-634 | Following cursors ends however the index grows: a traversal has a cursor left only while its pages, of the page size each, fit below 2^53. |
| `PagingRuns.RunComesAfter` | redis/directory.go:539-635 | Moments of a run after those of the earlier pages are what the next call needs. |
| `PagingRuns.TraversalIsInOrder` | redis/directory.go:584-625 | Across pages and within them, entries come in strictly increasing score order. |
| `PagingRuns.StablePaging` | redis/directory.go:539-635 | With arbitrary requests between any two reads, a grain that keeps its index score throughout is returned on exactly one page, exactly once, with an active record stored for it. |
| `PagingRuns.QuietPageIsExact` | redis/directory.go:539-635 | On an unchanged index a page is exactly the first entries beyond its cursor with their records, and a cursor at the last of them if more remain. |
| `PagingRuns.QuietPagesPartition` | redis/directory.go:631-634 | On an unchanged index the pages are the index cut into pieces of the page size, with a next cursor exactly while entries are left; so following cursors ends. |
| `PagingRuns.RunGivesWindows` | redis/directory.go:539-635 | Any moments of a run, in order, satisfy what the paging theorems assume. |
| `Cache.PlacementCache.Get` | memory/cache.go:24-35 | A degraded cache answers nothing. |
| `Cache.PlacementCache.Set` | memory/cache.go:37-51 | A degraded cache stores nothing; the two indexes stay in agreement. |
| `Cache.PlacementCache.Delete` | memory/cache.go:53-60 | Removes one entry from both indexes. |
| `Cache.PlacementCache.DeleteByNode` | memory/cache.go:62-69 | Removes exactly the routes to the node. |
| `Cache.PlacementCache.DeleteByGroup` | memory/cache.go:71-84 | The loop over the node index removes exactly the routes whose identity has the group prefix. |
| `Cache.PlacementCache.SetDegraded` | memory/cache.go:93-101 | Degrading empties the cache; leaving degraded mode keeps it empty. |
| `Cache.GroupDeletionIsExact` | memory/cache.go:71-84 | For well-formed identities those are exactly the routes whose parsed type and group match. |
| `Router.CachedRouter.LookupBegin` | memory/cached_router.go:25-35 | A usable cached route answers; an unusable one is dropped. |
| `Router.CachedRouter.ResolveBegin` | memory/cached_router.go:57-63 | A usable cached route answers only inside the target group. |
| `Router.CachedRouter.StoreIfCurrent` | memory/cached_router.go:44-48 | Stores only if no epoch has passed. |
| `Router.CachedRouter.StoreAllocated` | memory/cached_router.go:98-101 | Stores if no epoch has passed, or only the allocation's own creation event. |
| `Router.CachedRouter.HandleEvent` | memory/cached_router.go:105-151 | Every event type: epoch, last event and exactly the routes it removes: those of the grain, to the node, into the group, or all of them. |
| `Router.CachedRouter.Degrade` | memory/cached_router.go:153-158 | Advances the epoch and empties the cache. |
| `Router.CachedRouter.Recover` | memory/cached_router.go:160-166 | Advances the epoch, empties the cache and leaves degraded mode. |
| `RouterOperations.RoutedDirectory.Lookup` | memory/cached_router.go:25-50 | A usable cached route, or else one trace of coherence moves: its own first section, the directory's answer and its last section, in this order, with any moves of others in the gaps. The last section stores only if no epoch has passed; the answer is the directory's at that moment. An answered route is active and unexpired; if nothing invalidating happens in between, it is cached. |
| `RouterOperations.RoutedDirectory.ResolveRoute` | memory/cached_router.go:52-77 | The same for a resolution, whose event is published with it. Any route it answers, cached or not, is active, unexpired when it was found, and inside the requested type and group; if nothing invalidating happens in between, it is cached. |
| `RouterOperations.RoutedDirectory.Allocate` | memory/cached_router.go:85-103 | The same for an allocation: preparation, commit and lookup each at their own place in the trace, and the last section with its exception for the own creation event. A new grain whose strategy answers a node that can take it is placed on that node. |
| `RouterOperations.RoutedDirectory.HandleEvent` | memory/cached_router.go:105-151 | Handling an event is a delivery, or a redelivery of one already handled, and drops exactly the routes the event is about. |
| `RouterOperations.RoutedDirectory.Degrade` | memory/cached_router.go:153-158 | Degrading is that move. |
| `RouterOperations.RoutedDirectory.Recover` | memory/cached_router.go:160-166 | Recovering is that move. |
| `Router.HandledInvalidates` | memory/cached_router.go:105-151 | In the routes themselves: a placement event drops its grain, each of five node events drops every route to the node, a restored name drops the routes into its parsed group, an event that does not say what it is about drops everything; every other route stays. |
| `Coherence.MoveKeepsSound` | memory/cached_router.go:25-188 | Every critical section, directory command, delivery, redelivery, degradation, recovery and permitted loss keeps coherence. |
| `Coherence.DeliverKeepsSound` | memory/cached_router.go:105-151 | Handling an event, once or again and in any order, leaves no stale route cached and no stale route storable. |
| `Coherence.FlightSurvives` | memory/cached_router.go:180-188 | An allocation stays storable across one event only if that event echoes its own placement, and its freshness never rested on that event. |
| `Coherence.FinishKeepsSound` | memory/cached_router.go:44-48 | The last section of an operation stores only a route that is current or whose grain has an unhandled event. |
| `Coherence.ModeChangeKeepsSound` | memory/cached_router.go:153-166 | After degrading or recovering nothing is cached and nothing in flight can be stored, so pending events may be lost. |
| `Coherence.ExecutionsAreSound` | memory/cached_router.go:25-188 | Coherence holds after every sequence of moves. |
| `Coherence.CachedRoutesAreCoherent` | memory/cached_router.go:25-188 | Every cached route names the directory's current placement ID, owner, session and version, or the grain has a change event the router has not handled; a degraded cache is empty. |
| `Coherence.CaughtUpCacheIsExact` | memory/cached_router.go:105-151 | Once every event of a grain has been handled its cached route is exact. |
| `Coherence.OthersKeepFlight` | memory/cached_router.go:36-44 | What other operations do leaves an operation's own progress alone. |
| `Coherence.FinishStoresExactly` | memory/cached_router.go:44-48 | The last section stores exactly at the epoch its operation began with, for an allocation also when the one event since is the creation of that very placement, and never while degraded. |
| `OwnerCoherence.SessionStep` | memory/node_registry.go:113-186 | A session ends, or its node goes offline, only by a command whose event says so. |
| `OwnerCoherence.MoveKeepsOwners` | memory/cached_router.go:25-188 | Every move keeps the agreement of cached and storable routes with the sessions of their nodes. |
| `OwnerCoherence.CachedOwnersStand` | memory/cached_router.go:105-131 | Whatever has run: the node of a cached route is registered under the route's session and not offline, or an event about the end of a session of that node has not been handled. |
| `RedisCoherence.MovesTrack` | redis/directory.go:268-413 | In front of Redis every request of any client, after any earlier read, and every script an operation of the router runs is one move of the coherence system, with the stream entries it appends as its events. |
| `RedisCoherence.RedisCachedRoutesAreCoherent` | memory/cached_router.go:25-188 | For a router in front of Redis: every cached route names the stored placement ID, owner, session and version, or a stream entry about a change of the grain has not been handled. |
| `RedisCoherence.RedisCachedOwnersStand` | memory/cached_router.go:105-131 | For a router in front of Redis: the stored record of a cached route's node has the route's session and is not offline, or a stream entry about the end of a session of that node has not been handled. |
| `Streams.Stream.Publish` | redis/event_bus.go:78-83 | Appends one entry, which no group has acknowledged or been delivered. |
| `Streams.Stream.TrimStream` | redis/lua/stream/trim.lua:6-25 | Trims exactly when every listed group has no pending entry and a lag of zero, and then keeps exactly the newest entries up to the given length. |
| `Streams.Stream.ReplaceConsumer` | redis/lua/stream/replace_consumer.lua:6-43 | Hands over exactly from an idle old group, keeps an existing new one, starts a fresh one at the end of the stream, answers done when only the new one exists and an error when neither does, and leaves every other group alone. |
| `Streams.Stream.CloseIdleGroup` | redis/lua/stream/close_idle_group.lua:5-30 | Destroys a group exactly when it is idle, and no other group. |
| `Streams.TrimmedOnlyWhenAcknowledged` | redis/lua/stream/trim.lua:6-25 | An entry is trimmed only after every existing group acknowledged it, as far back as its lineage reaches. |
| `Streams.LineagesContinue` | redis/lua/stream/replace_consumer.lua:6-43 | No lineage disappears with an entry unacknowledged: it stays, is handed over with its history, or was closed with everything acknowledged. |
| `Streams.ActionsKeepSound` | redis/lua/stream/trim.lua:6-25 | Publishing, delivering, acknowledging, trimming, replacing and closing keep the promise that no lineage misses an entry. |
| `Streams.NoEventIsLost` | redis/event_bus.go:185-247 | In every run each entry published since a lineage began was acknowledged by it, or is still kept and pending or undelivered to its group. |
| `EventBus.Bus.HandleEntry` | redis/event_bus.go:489-514 | One entry: decoding failure, handler failure, a context that ends before the acknowledgement, an acknowledgement that fails, and whether the loop goes on, returns quietly or returns the error. |
| `EventBus.Bus.HandleBatch` | redis/event_bus.go:489-516 | Each acknowledgement directly follows the successful handling of its entry; what is not acknowledged stays pending; the bus degrades exactly at an error that is not the context's own. |
| `EventBus.Bus.ConsumePending` | redis/event_bus.go:458-516 | Ends by itself, since every round that goes on shrinks what is pending. Handles pending entries only, the lowest first; reports the end only when none is pending; returns quietly only when its context has ended or an acknowledgement was cut short. |
| `EventBus.Bus.ConsumeNew` | redis/event_bus.go:458-516 | Handles new entries only, the next one first, and none once the context has ended; while it goes on no new entry is left unacknowledged. |
| `EventBus.Bus.Join` | redis/event_bus.go:129-139 | Joining and the continuity check: when the subscription goes on and when the bus degrades. |
| `EventBus.Bus.ConsumeAll` | redis/event_bus.go:452-455 | A new entry is handled before every entry that was pending has been acknowledged exactly when the first loop was left by an acknowledgement cut short, with one of them unacknowledged, and the second loop came to an entry. |
| `EventBus.Bus.Subscribe` | redis/event_bus.go:442-456 | The same for a whole subscription, and it begins either loop as the reads of that loop find the stream; it degrades the bus exactly if joining did or one of the listed errors occurred. |
| `EventBus.NewBeforePending` | redis/event_bus.go:506-509 | One pending and one new entry in a stream, and a subscription that handles both and acknowledges neither. |
| `EventCodec.EventRoundTrip` | redis/event_bus.go:545-582 | An event written to the stream is read back as itself; only a lease event without identity, session or version is refused. |
| `EventCodec.KindRoundTrip` | event.go:10-25 | Every event type is found again by its name; no two share one. |
| `EventCodec.PlacementEntriesParse` | redis/lua/shared/event.lua:1-3 | The field list a script writes about a placement is read back as the model's event, lease version included. |
| `EventCodec.NodeEntriesParse` | redis/lua/shared/event.lua:5-7 | The same for a stored node. |
| `Leases.NormalizedTtl` | constants.go:19-29 | A positive duration becomes a positive whole number of milliseconds less than one away, without overflow, and is shortened exactly when it is above the longest whole-millisecond lease. |
| `Leases.NormalizingTwice` | constants.go:19-29 | Normalizing again changes nothing. |
| `Leases.GrantStaysNearTheLease` | redis/directory.go:182-199 | A grant is off the lease deadline by how far the client's clock was ahead of or behind the server's, and by less than a millisecond more; it passes the deadline exactly when the request started after the millisecond the server read. |
| `Leases.RouteStaysNearTheLease` | redis/directory.go:293-314 | The same for a route; a lookup and a resolution accept the same answers, and a client refuses a route once its own clock has reached that moment. |

## Left out

- UTF-8 and whitespace validation of identity parts; parts are non-empty, bounded, and free of slashes and control characters.
- JSON text and the number formatting of Lua and cjson; scores and metrics are integers, so the checks for fractional, infinite and NaN scores have no counterpart.
- Event types unknown to the router are one type, `UnknownEvent`; a version field out of the 64-bit range reads as 0.
- Signed 64-bit overflow of versions and expiry times, and wrap-around of the router's epoch.
- Publisher failures and the best-effort publishing of the in-process backend.
- FindNodes and ListInvalidNodes: sorted reads.
- EventBus.Bus.ConsumeNew: the loop over new entries runs until its context ends, so it is observed for a given number of reads (`Unfinished`); logging is left out.
- CheckContinuity's gap decision, which depends on Redis counters outside this repository; what follows from it is `EventBus.Bus.Join`.
- Forced deletion of consumer groups (DeleteConsumerGroup, CleanupConsumerGroup), Pub/Sub hints, tickers and the trim and lease loops around Trim and ExpireNodeLeases.
- The protoactor adapter, whose resolver has no epoch guard; the coherence theorem does not apply to it.
- Networking, pipelining, script loading, locks and lock order, random placement IDs, logging.
- Normalization of the resource-aware configuration and of node group configuration.

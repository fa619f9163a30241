/** The Redis keyspace: one map for each key builder, indexed by the builder's argument. Naming.KeysInjective is
    why no two of these maps can share a Redis key. A cell may hold a value of the wrong Redis type, or a string
    that does not decode. A raw string stands for the record it encodes. */
module Keyspace {
  import opened Types
  import opened Naming
  import opened Ordering
  import opened Decimal
  import opened Protocol

  datatype Cell<+T> = WrongType | Corrupt | Holds(value: T)

  /** The stored node record: the node and the two keys it names, given by the identities they are built from. */
  datatype RedisNode = RedisNode(node: Node, indexKey: string, nodeKey: string)

  datatype Keys = Keys(
    placement: map<string, Cell<Placement>>,
    node: map<string, Cell<RedisNode>>,
    nodes: map<Group, Cell<set<string>>>,
    invalid: map<Group, Cell<set<string>>>,
    leases: map<Group, Cell<map<string, int>>>,
    index: map<string, Cell<map<string, int>>>,
    roundRobin: map<Group, Cell<string>>,
    sequence: Option<Cell<string>>,
    events: Cell<seq<Event>>,
    audit: Cell<seq<Event>>)

  const EMPTY_KEYS := Keys(map[], map[], map[], map[], map[], map[], map[], None, Holds([]), Holds([]))

  /** The bounds the scripts compare counters with, as digit strings. */
  function MaxSequence(): (s: string)
    ensures Canonical(s) && Value(s) == MAX_EXACT_INTEGER
  {
    Format(MAX_EXACT_INTEGER)
  }

  function MaxRoundRobin(): (s: string)
    ensures Canonical(s) && Value(s) == MAX_INT64
  {
    Format(MAX_INT64)
  }

  // ------------------------------------------------------------------------------------------
  // Reads.

  /** expect_type for a string key. */
  predicate StringOk<K, T>(f: map<K, Cell<T>>, k: K) {
    k !in f || f[k] != WrongType
  }

  /** expect_type for a set or sorted-set key; such a key is never a string. */
  predicate CollectionOk<K, T>(f: map<K, Cell<T>>, k: K) {
    k !in f || f[k].Holds?
  }

  datatype Loaded<+T> = Missing | Undecodable | Loaded(value: T)

  /** GET followed by decode. */
  function Load<K, T>(f: map<K, Cell<T>>, k: K): Loaded<T> {
    if k !in f then Missing else if f[k].Holds? then Loaded(f[k].value) else Undecodable
  }

  function Score<K>(f: map<K, Cell<map<string, int>>>, k: K, member: string): Option<int> {
    if k in f && f[k].Holds? && member in f[k].value then Some(f[k].value[member]) else None
  }

  function Members<K>(f: map<K, Cell<set<string>>>, k: K): set<string> {
    if k in f && f[k].Holds? then f[k].value else {}
  }

  function Cardinality<K>(f: map<K, Cell<map<string, int>>>, k: K): nat {
    if k in f && f[k].Holds? then |f[k].value| else 0
  }

  /** read_counter: the canonical digits below the maximum, "0" for a missing key, nothing otherwise. What it
      accepts can be incremented once more without passing the maximum. */
  function ReadCounter(cell: Option<Cell<string>>, maximum: string): (r: Option<string>)
    requires Canonical(maximum) && Value(maximum) > 0
    ensures r.Some? ==> Canonical(r.value) && Value(Increment(r.value)) <= Value(maximum)
  {
    match cell
    case None => Some("0")
    case Some(Holds(raw)) => CounterAcceptedIff(raw, maximum); if AcceptsCounter(raw, maximum) then Some(raw) else None
    case Some(_) => None
  }

  function CellAt<K, T>(f: map<K, Cell<T>>, k: K): Option<Cell<T>> {
    if k in f then Some(f[k]) else None
  }

  // ------------------------------------------------------------------------------------------
  // Writes. A sorted set or set that becomes empty is removed, as Redis removes it.

  function ZAdd<K(!new)>(f: map<K, Cell<map<string, int>>>, k: K, member: string,
      score: int): (r: map<K, Cell<map<string, int>>>)
    requires CollectionOk(f, k)
    ensures forall k', m :: Score(r, k', m) == if k' == k && m == member then Some(score) else Score(f, k', m)
    ensures AllHold(f) ==> AllHold(r)
    ensures NoEmptyZSet(f) ==> NoEmptyZSet(r)
  {
    var grown := (if k in f then f[k].value else map[])[member := score];
    assert member in grown;
    f[k := Holds(grown)]
  }

  function ZRem<K(!new)>(f: map<K, Cell<map<string, int>>>, k: K, member: string): (r: map<K, Cell<map<string, int>>>)
    requires CollectionOk(f, k)
    ensures forall k', m :: Score(r, k', m) == if k' == k && m == member then None else Score(f, k', m)
    ensures AllHold(f) ==> AllHold(r)
    ensures forall k' :: CollectionOk(f, k') ==> CollectionOk(r, k')
    ensures NoEmptyZSet(f) ==> NoEmptyZSet(r)
  {
    if k !in f then f
    else
      var rest := f[k].value - {member};
      assert forall m :: m in f[k].value && m != member ==> m in rest;
      if rest == map[] then f - {k} else f[k := Holds(rest)]
  }

  function SAdd<K(!new)>(f: map<K, Cell<set<string>>>, k: K, member: string): (r: map<K, Cell<set<string>>>)
    requires CollectionOk(f, k)
    ensures forall k' :: Members(r, k') == if k' == k then Members(f, k) + {member} else Members(f, k')
    ensures AllHold(f) ==> AllHold(r)
    ensures NoEmptyCellSet(f) ==> NoEmptyCellSet(r)
  {
    f[k := Holds(Members(f, k) + {member})]
  }

  function SRem<K(!new)>(f: map<K, Cell<set<string>>>, k: K, member: string): (r: map<K, Cell<set<string>>>)
    requires CollectionOk(f, k)
    ensures forall k' :: Members(r, k') == if k' == k then Members(f, k) - {member} else Members(f, k')
    ensures AllHold(f) ==> AllHold(r)
    ensures NoEmptyCellSet(f) ==> NoEmptyCellSet(r)
  {
    var rest := Members(f, k) - {member};
    if rest == {} then f - {k} else f[k := Holds(rest)]
  }

  function Append(stream: Cell<seq<Event>>, e: Event): Cell<seq<Event>>
    requires stream.Holds?
  {
    Holds(stream.value + [e])
  }

  ghost predicate AllHold<K(!new), T>(f: map<K, Cell<T>>) {
    forall k :: k in f ==> f[k].Holds?
  }

  ghost predicate NoEmptyZSet<K(!new)>(f: map<K, Cell<map<string, int>>>) {
    forall k :: k in f && f[k].Holds? ==> f[k].value != map[]
  }

  ghost predicate NoEmptyCellSet<K(!new)>(f: map<K, Cell<set<string>>>) {
    forall k :: k in f && f[k].Holds? ==> f[k].value != {}
  }

  // ------------------------------------------------------------------------------------------
  // Answers.

  /** Error replies of the scripts, and the client's own refusals of an identity or a lease version. */
  datatype Fault =
    | WrongTypeFault
    | InvalidJson
    | IdentityMismatch
    | InvalidNode
    | LeaseScoreMismatch
    | InvalidCounter
    | UnparsableIdentity
    | InvalidReply

  /** A status string is given by the error the client maps it to. */
  datatype Response<+T> = Answer(value: T) | Refused(error: Error) | Faulted(fault: Fault)

  datatype Ran<+T> = Ran(keys: Keys, reply: Response<T>)

  /** A lease as a script answers it: the version and the remaining milliseconds. */
  datatype LeaseReply = LeaseReply(version: int, remaining: int)

  datatype RouteReply = RouteReply(placement: Placement, leaseVersion: int, remaining: int)
}

/** The placement world a keyspace stands for, and what every reachable keyspace satisfies. */
module RedisInvariant {
  import opened Types
  import opened Naming
  import opened Decimal
  import opened Keyspace
  import opened Protocol

  // ------------------------------------------------------------------------------------------
  // Abstraction.

  ghost function Values<K(!new), T>(f: map<K, Cell<T>>): map<K, T> {
    map x | x in f && f[x].Holds? :: f[x].value
  }

  ghost function NodesOf(f: map<string, Cell<RedisNode>>): map<string, Node> {
    map id | id in f && f[id].Holds? :: f[id].value.node
  }

  ghost function Ownership(f: map<string, Cell<map<string, int>>>): map<string, set<string>> {
    map n | n in f && f[n].Holds? :: f[n].value.Keys
  }

  ghost function Abs(k: Keys): World {
    World(Values(k.placement), Ownership(k.index), NodesOf(k.node), Values(k.invalid))
  }

  lemma ValuesSet<K(!new), T>(f: map<K, Cell<T>>, x: K, v: T)
    ensures Values(f[x := Holds(v)]) == Values(f)[x := v]
  {
  }

  lemma ValuesDrop<K(!new), T>(f: map<K, Cell<T>>, x: K)
    ensures Values(f - {x}) == Values(f) - {x}
  {
  }

  lemma NodesSet(f: map<string, Cell<RedisNode>>, id: string, rn: RedisNode)
    ensures NodesOf(f[id := Holds(rn)]) == NodesOf(f)[id := rn.node]
  {
  }

  lemma NodesDrop(f: map<string, Cell<RedisNode>>, id: string)
    ensures NodesOf(f - {id}) == NodesOf(f) - {id}
  {
  }

  lemma NameAdded(f: map<Group, Cell<set<string>>>, g: Group, name: string)
    requires CollectionOk(f, g)
    ensures Values(SAdd(f, g, name)) == AddName(Values(f), g, name)
  {
    ValuesSet(f, g, Members(f, g) + {name});
  }

  lemma NameDropped(f: map<Group, Cell<set<string>>>, g: Group, name: string)
    requires CollectionOk(f, g)
    ensures Values(SRem(f, g, name)) == DropName(Values(f), g, name)
  {
    ValuesDrop(f, g);
    ValuesSet(f, g, Members(f, g) - {name});
  }

  lemma IndexAdded(f: map<string, Cell<map<string, int>>>, n: string, key: string, score: int)
    requires CollectionOk(f, n)
    ensures Ownership(ZAdd(f, n, key, score)) == AddIndex(Ownership(f), n, key)
  {
    var r := ZAdd(f, n, key, score);
    assert Ownership(r)[n] == Owned(Ownership(f), n) + {key};
  }

  lemma IndexDropped(f: map<string, Cell<map<string, int>>>, n: string, key: string)
    requires CollectionOk(f, n)
    ensures Ownership(ZRem(f, n, key)) == DropIndex(Ownership(f), n, key)
  {
    if n in f {
      var rest := f[n].value - {key};
      assert rest.Keys == Owned(Ownership(f), n) - {key};
      assert rest == map[] <==> rest.Keys == {};
    } else {
      assert Ownership(f) - {n} == Ownership(f);
    }
  }

  /** The index holds a key under a node exactly when the abstract index does. */
  lemma OwnedIsScored(f: map<string, Cell<map<string, int>>>, n: string, key: string)
    ensures key in Owned(Ownership(f), n) <==> Score(f, n, key).Some?
  {
  }

  // ------------------------------------------------------------------------------------------
  // The invariant.

  ghost predicate Intact(k: Keys) {
    && AllHold(k.placement) && AllHold(k.node) && AllHold(k.nodes) && AllHold(k.invalid) && AllHold(k.leases)
    && AllHold(k.index)
    && NoEmptyCellSet(k.nodes) && NoEmptyCellSet(k.invalid) && NoEmptyZSet(k.leases) && NoEmptyZSet(k.index)
    && k.events.Holds? && k.audit.Holds?
  }

  predicate CounterWithin(cell: Cell<string>, maximum: int) {
    cell.Holds? && Canonical(cell.value) && Value(cell.value) <= maximum
  }

  ghost predicate CountersBounded(k: Keys) {
    && (k.sequence.Some? ==> CounterWithin(k.sequence.value, MAX_EXACT_INTEGER))
    && (forall g :: g in k.roundRobin ==> CounterWithin(k.roundRobin[g], MAX_INT64))
  }

  /** The number a counter cell stands for; a missing counter counts as zero. */
  function CounterValue(cell: Option<Cell<string>>): nat {
    match cell
    case Some(Holds(raw)) => if Canonical(raw) then Value(raw) else 0
    case _ => 0
  }

  ghost predicate OwnKeys(f: map<string, Cell<RedisNode>>) {
    forall id :: id in f && f[id].Holds? ==> f[id].value.nodeKey == id && f[id].value.indexKey == id
  }

  /** A node record exists exactly when it is in the nodes set of its group. */
  ghost predicate Registered(f: map<Group, Cell<set<string>>>, nodes: map<string, Node>) {
    forall g, id :: id in Members(f, g) <==> id in nodes && nodes[id].GroupOf() == g
  }

  function LeaseScore(nodes: map<string, Node>, g: Group, id: string): Option<int> {
    if id in nodes && nodes[id].GroupOf() == g && nodes[id].status != Offline then Some(nodes[id].lease.expireAt)
    else None
  }

  /** The lease scores are exactly the stored expiries of the nodes that are not offline. */
  ghost predicate Leased(f: map<Group, Cell<map<string, int>>>, nodes: map<string, Node>) {
    forall g, id :: Score(f, g, id) == LeaseScore(nodes, g, id)
  }

  /** Index scores are positive, at most the sequence, and no two entries of the keyspace share one. */
  ghost predicate Scored(f: map<string, Cell<map<string, int>>>, sequence: nat) {
    && (forall n, key :: Score(f, n, key).Some? ==> 1 <= Score(f, n, key).value <= sequence)
    && (forall n, key, n', key' :: Score(f, n, key).Some? && Score(f, n, key) == Score(f, n', key') ==>
          n == n' && key == key')
  }

  /** Everything but the agreement of placements with their index. */
  ghost predicate Bookkept(k: Keys) {
    && Intact(k)
    && CountersBounded(k)
    && OwnKeys(k.node)
    && Registered(k.nodes, NodesOf(k.node))
    && Leased(k.leases, NodesOf(k.node))
    && Scored(k.index, CounterValue(k.sequence))
  }

  ghost predicate Reachable(k: Keys) {
    Bookkept(k) && Valid(Abs(k))
  }

  lemma EmptyIsReachable()
    ensures Reachable(EMPTY_KEYS) && Abs(EMPTY_KEYS) == EMPTY_WORLD
  {
    assert Abs(EMPTY_KEYS) == EMPTY_WORLD;
    assert forall n, key :: key !in Owned(EMPTY_WORLD.byNode, n);
  }

  // ------------------------------------------------------------------------------------------
  // How the writes of the scripts keep each part.

  predicate SameGroup(nodes: map<string, Node>, n: Node) {
    n.identity in nodes ==> nodes[n.identity].GroupOf() == n.GroupOf()
  }

  lemma RegisteredAdded(f: map<Group, Cell<set<string>>>, nodes: map<string, Node>, n: Node)
    requires Registered(f, nodes) && CollectionOk(f, n.GroupOf()) && SameGroup(nodes, n)
    ensures Registered(SAdd(f, n.GroupOf(), n.identity), nodes[n.identity := n])
  {
    var r := SAdd(f, n.GroupOf(), n.identity);
    assert forall g, id :: id in Members(r, g) <==> id in Members(f, g) || (id == n.identity && g == n.GroupOf());
    hide SAdd;
  }

  lemma RegisteredKept(f: map<Group, Cell<set<string>>>, nodes: map<string, Node>, id: string, n: Node)
    requires Registered(f, nodes) && id in nodes && nodes[id].GroupOf() == n.GroupOf()
    ensures Registered(f, nodes[id := n])
  {
  }

  lemma RegisteredDropped(f: map<Group, Cell<set<string>>>, nodes: map<string, Node>, id: string, g: Group)
    requires Registered(f, nodes) && CollectionOk(f, g) && id in nodes && nodes[id].GroupOf() == g
    ensures Registered(SRem(f, g, id), nodes - {id})
  {
    var r := SRem(f, g, id);
    assert forall h, m :: m in Members(r, h) <==> m in Members(f, h) && !(m == id && h == g);
    hide SRem;
  }

  lemma LeasedSet(f: map<Group, Cell<map<string, int>>>, nodes: map<string, Node>, id: string, n: Node)
    requires Leased(f, nodes) && CollectionOk(f, n.GroupOf()) && n.status != Offline
    requires id in nodes ==> nodes[id].GroupOf() == n.GroupOf()
    ensures Leased(ZAdd(f, n.GroupOf(), id, n.lease.expireAt), nodes[id := n])
  {
    var r := ZAdd(f, n.GroupOf(), id, n.lease.expireAt);
    assert forall g, m :: Score(r, g, m) == if g == n.GroupOf() && m == id then Some(n.lease.expireAt)
        else Score(f, g, m);
    hide ZAdd, Score;
  }

  lemma LeasedCleared(f: map<Group, Cell<map<string, int>>>, nodes: map<string, Node>, id: string, g: Group,
      nodes': map<string, Node>)
    requires Leased(f, nodes) && CollectionOk(f, g) && id in nodes && nodes[id].GroupOf() == g
    requires nodes' == nodes - {id} || (nodes' == nodes[id := nodes[id].(status := Offline)])
    ensures Leased(ZRem(f, g, id), nodes')
  {
    var r := ZRem(f, g, id);
    assert forall h, m :: Score(r, h, m) == if h == g && m == id then None else Score(f, h, m);
    hide ZRem, Score;
  }

  lemma LeasedKept(f: map<Group, Cell<map<string, int>>>, nodes: map<string, Node>, id: string, n: Node)
    requires Leased(f, nodes) && id in nodes && nodes[id].GroupOf() == n.GroupOf()
    requires nodes[id].lease == n.lease && (nodes[id].status == Offline <==> n.status == Offline)
    ensures Leased(f, nodes[id := n])
  {
  }

  lemma ScoredAdded(f: map<string, Cell<map<string, int>>>, sequence: nat, n: string, key: string)
    requires Scored(f, sequence) && CollectionOk(f, n)
    ensures Scored(ZAdd(f, n, key, sequence + 1), sequence + 1)
  {
    var r := ZAdd(f, n, key, sequence + 1);
    assert forall m, x :: Score(r, m, x) == if m == n && x == key then Some(sequence + 1) else Score(f, m, x);
    hide ZAdd, Score;
  }

  lemma ScoredDropped(f: map<string, Cell<map<string, int>>>, sequence: nat, n: string, key: string)
    requires Scored(f, sequence) && CollectionOk(f, n)
    ensures Scored(ZRem(f, n, key), sequence)
  {
    var r := ZRem(f, n, key);
    assert forall m, x :: Score(r, m, x) == if m == n && x == key then None else Score(f, m, x);
    hide ZRem, Score;
  }

  /** How a script answer agrees with an in-process reply: no fault, and success on both sides or neither. */
  ghost predicate Agrees<A, B(!new)>(a: Response<A>, b: Result<B>) {
    !a.Faulted? && (a.Answer? <==> b.Ok?)
  }

  /** The events a script appended, up to the lease version that only route resolution records. */
  ghost predicate Emitted(before: Cell<seq<Event>>, after: Cell<seq<Event>>, events: seq<Event>) {
    && before.Holds? && after.Holds?
    && |after.value| == |before.value| + |events|
    && after.value[..|before.value|] == before.value
    && forall i :: 0 <= i < |events| ==>
         after.value[|before.value| + i].(leaseVersion := events[i].leaseVersion) == events[i]
  }

  lemma EmittedOne(before: Cell<seq<Event>>, e: Event, sent: Event)
    requires before.Holds? && e.(leaseVersion := sent.leaseVersion) == sent
    ensures Emitted(before, Append(before, e), [sent])
  {
  }

  lemma EmittedNone(before: Cell<seq<Event>>)
    requires before.Holds?
    ensures Emitted(before, before, [])
  {
  }
}

/** Identity parts, grain keys, node identities and the Redis key builders. */
module Naming {
  import opened Types

  const MAX_IDENTITY_PART_BYTES := 128
  const MAX_GRAIN_ID_BYTES := 256

  predicate Lacks(s: string, c: char) {
    forall i :: 0 <= i < |s| ==> s[i] != c
  }

  predicate ReservedCharacter(c: char) {
    c == '/' || c as int <= 0x1f || c as int == 0x7f
  }

  /** ValidateIdentityPart, without its UTF-8 and surrounding-whitespace tests. */
  predicate ValidPart(value: string, maxBytes: int) {
    && value != ""
    && 0 < maxBytes
    && |value| <= maxBytes
    && forall i :: 0 <= i < |value| ==> !ReservedCharacter(value[i])
  }

  function NewGrainKey(kind: string, grainId: string): Option<string> {
    if !ValidPart(kind, MAX_IDENTITY_PART_BYTES) || !ValidPart(grainId, MAX_GRAIN_ID_BYTES) then None
    else Some(kind + "/" + grainId)
  }

  function NewNodeIdentity(nodeType: string, nodeGroup: string, nodeName: string): Option<string> {
    if && ValidPart(nodeType, MAX_IDENTITY_PART_BYTES)
       && ValidPart(nodeGroup, MAX_IDENTITY_PART_BYTES)
       && ValidPart(nodeName, MAX_IDENTITY_PART_BYTES)
    then Some(nodeType + "/" + nodeGroup + "/" + nodeName)
    else None
  }

  /** A part of a name: not empty, no longer than its bound, and free of slashes and control characters. */
  predicate Plain(part: string, maxBytes: int) {
    1 <= |part| <= maxBytes && forall i :: 0 <= i < |part| ==> part[i] as int > 0x1f && part[i] as int !in {0x2f, 0x7f}
  }

  /** The names that are accepted, and what they are joined to. */
  lemma NamesAreJoined(kind: string, grainId: string, nodeType: string, nodeGroup: string, nodeName: string)
    ensures NewGrainKey(kind, grainId)
            == if Plain(kind, 128) && Plain(grainId, 256) then Some(kind + "/" + grainId) else None
    ensures NewNodeIdentity(nodeType, nodeGroup, nodeName)
            == if Plain(nodeType, 128) && Plain(nodeGroup, 128) && Plain(nodeName, 128)
               then Some(nodeType + "/" + nodeGroup + "/" + nodeName) else None
  {
    assert forall c: char :: ReservedCharacter(c) <==> !(c as int > 0x1f && c as int !in {0x2f, 0x7f});
  }

  lemma GrainKeyIsJoined(kind: string, grainId: string)
    ensures NewGrainKey(kind, grainId).Some? ==> NewGrainKey(kind, grainId) == Some(kind + "/" + grainId)
  {
  }

  /** strings.Split for a one-character separator: the pieces between separators, never empty. */
  function Split(s: string, separator: char): (pieces: seq<string>)
    ensures |pieces| >= 1
  {
    if s == "" then [""]
    else
      var rest := Split(s[1..], separator);
      if s[0] == separator then [""] + rest else [[s[0]] + rest[0]] + rest[1..]
  }

  function Join(pieces: seq<string>, separator: char): string
    requires |pieces| >= 1
  {
    if |pieces| == 1 then pieces[0] else pieces[0] + [separator] + Join(pieces[1..], separator)
  }

  function Part(identity: string, index: nat): string
    requires index < 3
  {
    var parts := Split(identity, '/');
    if |parts| != 3 then "" else parts[index]
  }

  function NodeType(identity: string): string { Part(identity, 0) }

  function NodeGroup(identity: string): string { Part(identity, 1) }

  function NodeName(identity: string): string { Part(identity, 2) }

  function GroupOfIdentity(identity: string): Group {
    Group(NodeType(identity), NodeGroup(identity))
  }

  /** The three accessors give back non-empty parts. */
  predicate WellFormedIdentity(identity: string) {
    NodeType(identity) != "" && NodeGroup(identity) != "" && NodeName(identity) != ""
  }

  lemma {:induction false} SplitWithout(s: string, c: char)
    requires Lacks(s, c)
    ensures Split(s, c) == [s]
  {
    if s != "" {
      SplitWithout(s[1..], c);
      assert [s[0]] + s[1..] == s;
    }
  }

  lemma {:induction false} SplitCons(a: string, c: char, rest: string)
    requires Lacks(a, c)
    ensures Split(a + [c] + rest, c) == [a] + Split(rest, c)
  {
    var s := a + [c] + rest;
    if a == "" {
      assert s[1..] == rest;
    } else {
      SplitCons(a[1..], c, rest);
      assert s[1..] == a[1..] + [c] + rest;
      assert [a[0]] + a[1..] == a;
    }
  }

  lemma {:induction false} SplitJoin(pieces: seq<string>, c: char)
    requires |pieces| >= 1
    requires forall i :: 0 <= i < |pieces| ==> Lacks(pieces[i], c)
    ensures Split(Join(pieces, c), c) == pieces
  {
    if |pieces| == 1 {
      SplitWithout(pieces[0], c);
    } else {
      SplitJoin(pieces[1..], c);
      SplitCons(pieces[0], c, Join(pieces[1..], c));
    }
  }

  lemma {:induction false} JoinSplit(s: string, c: char)
    ensures Join(Split(s, c), c) == s
    ensures forall i :: 0 <= i < |Split(s, c)| ==> Lacks(Split(s, c)[i], c)
  {
    if s != "" {
      JoinSplit(s[1..], c);
      var rest := Split(s[1..], c);
      if s[0] == c {
        assert Split(s, c)[1..] == rest;
      } else {
        assert Split(s, c)[1..] == rest[1..];
      }
    }
  }

  lemma JoinThree(a: string, b: string, c: string)
    ensures Join([a, b, c], '/') == a + "/" + b + "/" + c
  {
    var pieces := [a, b, c];
    assert pieces[1..] == [b, c];
    assert [b, c][1..] == [c];
    assert Join([b, c], '/') == b + ['/'] + c;
    assert a + ['/'] + (b + ['/'] + c) == a + "/" + b + "/" + c;
  }

  /** NewNodeIdentity is undone by the three part accessors. */
  lemma IdentityRoundTrip(nodeType: string, nodeGroup: string, nodeName: string)
    requires NewNodeIdentity(nodeType, nodeGroup, nodeName).Some?
    ensures var id := NewNodeIdentity(nodeType, nodeGroup, nodeName).value;
            NodeType(id) == nodeType && NodeGroup(id) == nodeGroup && NodeName(id) == nodeName
  {
    JoinThree(nodeType, nodeGroup, nodeName);
    SplitJoin([nodeType, nodeGroup, nodeName], '/');
  }

  /** A well-formed identity is spelled by its own parts, so the parts name one identity. */
  lemma IdentityFromParts(identity: string)
    requires WellFormedIdentity(identity)
    ensures identity == NodeType(identity) + "/" + NodeGroup(identity) + "/" + NodeName(identity)
    ensures Lacks(NodeType(identity), '/') && Lacks(NodeGroup(identity), '/') && Lacks(NodeName(identity), '/')
  {
    JoinSplit(identity, '/');
    var parts := Split(identity, '/');
    JoinThree(parts[0], parts[1], parts[2]);
    assert parts == [parts[0], parts[1], parts[2]];
  }

  /** NewGrainKey is injective on the parts it accepts. */
  lemma GrainKeyInjective(kind: string, grainId: string, kind': string, grainId': string)
    requires NewGrainKey(kind, grainId).Some?
    requires NewGrainKey(kind, grainId) == NewGrainKey(kind', grainId')
    ensures kind == kind' && grainId == grainId'
  {
    SplitCons(kind, '/', grainId);
    SplitCons(kind', '/', grainId');
    SplitWithout(grainId, '/');
    SplitWithout(grainId', '/');
    var pieces := [kind] + [grainId];
    var pieces' := [kind'] + [grainId'];
    assert pieces == pieces';
    assert pieces[0] == pieces'[0] && pieces[1] == pieces'[1];
  }

  /** The registry's group key: a string built from two slash-free parts names one pair. */
  lemma GroupKeyInjective(g: Group, g': Group)
    requires Lacks(g.nodeType, '/') && Lacks(g.nodeGroup, '/')
    requires Lacks(g'.nodeType, '/') && Lacks(g'.nodeGroup, '/')
    ensures g.nodeType + "/" + g.nodeGroup == g'.nodeType + "/" + g'.nodeGroup <==> g == g'
  {
    SplitCons(g.nodeType, '/', g.nodeGroup);
    SplitCons(g'.nodeType, '/', g'.nodeGroup);
    SplitWithout(g.nodeGroup, '/');
    SplitWithout(g'.nodeGroup, '/');
    var pieces := [g.nodeType] + [g.nodeGroup];
    var pieces' := [g'.nodeType] + [g'.nodeGroup];
    assert pieces == pieces' ==> pieces[0] == pieces'[0] && pieces[1] == pieces'[1];
  }

  /** The group prefix used by the cache selects exactly the identities parsed into that group. */
  lemma GroupPrefixExact(identity: string, nodeType: string, nodeGroup: string)
    requires WellFormedIdentity(identity)
    requires Lacks(nodeType, '/') && Lacks(nodeGroup, '/')
    ensures nodeType + "/" + nodeGroup + "/" <= identity
            <==> NodeType(identity) == nodeType && NodeGroup(identity) == nodeGroup
  {
    var prefix := nodeType + "/" + nodeGroup + "/";
    IdentityFromParts(identity);
    if prefix <= identity {
      var rest := identity[|prefix|..];
      assert identity == nodeType + "/" + (nodeGroup + "/" + rest);
      SplitCons(nodeType, '/', nodeGroup + "/" + rest);
      SplitCons(nodeGroup, '/', rest);
      assert Split(identity, '/') == [nodeType] + ([nodeGroup] + Split(rest, '/'));
      assert Split(identity, '/')[0] == nodeType && Split(identity, '/')[1] == nodeGroup;
    }
  }

  // ------------------------------------------------------------------------------------------
  // Unpadded URL-safe base64 (sections 3.2 and 5 of RFC 4648).

  function Symbol(i: int): char
    requires 0 <= i < 64
  {
    if i < 26 then ('A' as int + i) as char
    else if i < 52 then ('a' as int + i - 26) as char
    else if i < 62 then ('0' as int + i - 52) as char
    else if i == 62 then '-' else '_'
  }

  function SymbolValue(c: char): int {
    if 'A' <= c <= 'Z' then c as int - 'A' as int
    else if 'a' <= c <= 'z' then c as int - 'a' as int + 26
    else if '0' <= c <= '9' then c as int - '0' as int + 52
    else if c == '-' then 62 else 63
  }

  /** The low eight bits of a character, which are all of it when the string holds bytes. */
  function Octet(c: char): int { c as int % 256 }

  predicate IsBytes(s: string) {
    forall i :: 0 <= i < |s| ==> s[i] as int < 256
  }

  /** The four six-bit values of three octets. */
  function Sextets(a: int, b: int, c: int): (v: seq<int>)
    requires 0 <= a < 256 && 0 <= b < 256 && 0 <= c < 256
    ensures |v| == 4 && forall i :: 0 <= i < 4 ==> 0 <= v[i] < 64
  {
    [a / 4, a % 4 * 16 + b / 16, b % 16 * 4 + c / 64, c % 64]
  }

  function Symbols(v: seq<int>): (e: string)
    requires forall i :: 0 <= i < |v| ==> 0 <= v[i] < 64
    ensures |e| == |v|
  {
    seq(|v|, i requires 0 <= i < |v| => Symbol(v[i]))
  }

  /** A short tail is padded with zero octets and the symbols that carry no data are dropped. */
  function Encode(s: string): string {
    if |s| == 0 then ""
    else if |s| == 1 then Symbols(Sextets(Octet(s[0]), 0, 0)[..2])
    else if |s| == 2 then Symbols(Sextets(Octet(s[0]), Octet(s[1]), 0)[..3])
    else Symbols(Sextets(Octet(s[0]), Octet(s[1]), Octet(s[2]))) + Encode(s[3..])
  }

  function FirstOctet(p: int, q: int): int { p * 4 + q / 16 }
  function SecondOctet(q: int, r: int): int { q % 16 * 16 + r / 4 }
  function ThirdOctet(r: int, t: int): int { r % 4 * 64 + t }

  function Byte(i: int): char { (i % 256) as char }

  function Decode(e: string): string {
    if |e| < 2 then ""
    else
      var p, q := SymbolValue(e[0]), SymbolValue(e[1]);
      var first := Byte(FirstOctet(p, q));
      if |e| == 2 then [first]
      else
        var r := SymbolValue(e[2]);
        var second := Byte(SecondOctet(q, r));
        if |e| == 3 then [first, second]
        else [first, second, Byte(ThirdOctet(r, SymbolValue(e[3])))] + Decode(e[4..])
  }

  /** The alphabet of section 5 of RFC 4648, and the bits that each symbol carries. */
  lemma EncodingIsUrlSafeBase64(i: int, a: int, b: int, c: int)
    requires 0 <= i < 64 && 0 <= a < 256 && 0 <= b < 256 && 0 <= c < 256
    ensures Symbol(i) as int == if i < 26 then 0x41 + i else if i < 52 then 0x61 + i - 26
                                else if i < 62 then 0x30 + i - 52 else if i == 62 then 0x2d else 0x5f
    ensures var v := Sextets(a, b, c);
            v[0] * 0x40000 + v[1] * 0x1000 + v[2] * 0x40 + v[3] == a * 0x10000 + b * 0x100 + c
  {
  }

  lemma SymbolRoundTrip(i: int)
    requires 0 <= i < 64
    ensures SymbolValue(Symbol(i)) == i && Symbol(i) != ':' && Symbol(i) != '/'
  {
  }

  /** Four six-bit values carry three octets. */
  lemma SextetsRoundTrip(a: int, b: int, c: int)
    requires 0 <= a < 256 && 0 <= b < 256 && 0 <= c < 256
    ensures var v := Sextets(a, b, c);
            FirstOctet(v[0], v[1]) == a && SecondOctet(v[1], v[2]) == b && ThirdOctet(v[2], v[3]) == c
  {
  }

  lemma SymbolsRoundTrip(v: seq<int>, i: nat)
    requires forall i :: 0 <= i < |v| ==> 0 <= v[i] < 64
    requires i < |v|
    ensures SymbolValue(Symbols(v)[i]) == v[i]
    ensures Symbols(v)[i] != ':'
  {
    SymbolRoundTrip(v[i]);
  }

  lemma ByteOfOctet(c: char)
    requires c as int < 256
    ensures Byte(Octet(c)) == c
  {
  }

  lemma DecodeTail(x: char, y: char)
    requires x as int < 256 && y as int < 256
    ensures Decode(Encode([x])) == [x]
    ensures Decode(Encode([x, y])) == [x, y]
  {
    ByteOfOctet(x);
    ByteOfOctet(y);
    var v := Sextets(Octet(x), 0, 0);
    SextetsRoundTrip(Octet(x), 0, 0);
    SymbolsRoundTrip(v[..2], 0);
    SymbolsRoundTrip(v[..2], 1);
    var w := Sextets(Octet(x), Octet(y), 0);
    SextetsRoundTrip(Octet(x), Octet(y), 0);
    SymbolsRoundTrip(w[..3], 0);
    SymbolsRoundTrip(w[..3], 1);
    SymbolsRoundTrip(w[..3], 2);
  }

  lemma DecodeQuad(x: char, y: char, z: char, rest: string)
    requires x as int < 256 && y as int < 256 && z as int < 256
    ensures Decode(Symbols(Sextets(Octet(x), Octet(y), Octet(z))) + rest) == [x, y, z] + Decode(rest)
  {
    ByteOfOctet(x);
    ByteOfOctet(y);
    ByteOfOctet(z);
    var v := Sextets(Octet(x), Octet(y), Octet(z));
    SextetsRoundTrip(Octet(x), Octet(y), Octet(z));
    SymbolsRoundTrip(v, 0);
    SymbolsRoundTrip(v, 1);
    SymbolsRoundTrip(v, 2);
    SymbolsRoundTrip(v, 3);
    assert (Symbols(v) + rest)[4..] == rest;
  }

  lemma {:induction false} EncodeRoundTrip(s: string)
    requires IsBytes(s)
    ensures Decode(Encode(s)) == s
  {
    if |s| >= 3 {
      EncodeRoundTrip(s[3..]);
      DecodeQuad(s[0], s[1], s[2], Encode(s[3..]));
      assert s == [s[0], s[1], s[2]] + s[3..];
    } else if |s| == 2 {
      DecodeTail(s[0], s[1]);
      assert s == [s[0], s[1]];
    } else if |s| == 1 {
      DecodeTail(s[0], s[0]);
      assert s == [s[0]];
    }
  }

  lemma {:induction false} EncodeHasNoColon(s: string)
    ensures Lacks(Encode(s), ':')
  {
    if s == "" { return; }
    var b := if |s| > 1 then Octet(s[1]) else 0;
    var c := if |s| > 2 then Octet(s[2]) else 0;
    var v := Sextets(Octet(s[0]), b, c);
    forall i: nat, n: nat | n <= 4 && i < n
      ensures Symbols(v[..n])[i] != ':'
    {
      SymbolsRoundTrip(v[..n], i);
    }
    if |s| >= 3 {
      assert v[..4] == v;
      EncodeHasNoColon(s[3..]);
    }
  }

  lemma EncodeInjective(s: string, s': string)
    requires IsBytes(s) && IsBytes(s')
    ensures Encode(s) == Encode(s') <==> s == s'
  {
    EncodeRoundTrip(s);
    EncodeRoundTrip(s');
  }

  // ------------------------------------------------------------------------------------------
  // Redis keys.

  datatype Key =
    | PlacementKey(grainKey: string)
    | PlacementNodeKey(identity: string)
    | NodesKey(group: Group)
    | NodeKey(identity: string)
    | InvalidNodesKey(group: Group)
    | NodeLeaseKey(group: Group)
    | EventsStreamKey
    | EventsPubSubChannelKey
    | AuditStreamKey
    | SequenceKey
    | StrategyRoundRobinKey(group: Group)

  const NAMESPACE_PREFIX := "sp:{stable-placement}:v2:"

  function GroupParts(g: Group): seq<string> { [Encode(g.nodeType), Encode(g.nodeGroup)] }

  /** The colon-separated pieces that follow the namespace prefix. */
  function KeyParts(k: Key): (parts: seq<string>)
    ensures |parts| >= 1
  {
    match k
    case PlacementKey(grain) => ["placement", Encode(grain)]
    case PlacementNodeKey(id) => ["placement", "node", Encode(id)]
    case NodesKey(g) => ["nodes"] + GroupParts(g)
    case NodeKey(id) => ["node", Encode(id)]
    case InvalidNodesKey(g) => ["invalid"] + GroupParts(g)
    case NodeLeaseKey(g) => ["node_lease"] + GroupParts(g)
    case EventsStreamKey => ["events", "stream"]
    case EventsPubSubChannelKey => ["events", "pubsub"]
    case AuditStreamKey => ["audit", "stream"]
    case SequenceKey => ["sequence"]
    case StrategyRoundRobinKey(g) => ["strategy", "round_robin"] + GroupParts(g)
  }

  function Render(k: Key): string { NAMESPACE_PREFIX + Join(KeyParts(k), ':') }

  predicate KeyOfBytes(k: Key) {
    match k
    case PlacementKey(s) => IsBytes(s)
    case PlacementNodeKey(s) => IsBytes(s)
    case NodeKey(s) => IsBytes(s)
    case NodesKey(g) => IsBytes(g.nodeType) && IsBytes(g.nodeGroup)
    case InvalidNodesKey(g) => IsBytes(g.nodeType) && IsBytes(g.nodeGroup)
    case NodeLeaseKey(g) => IsBytes(g.nodeType) && IsBytes(g.nodeGroup)
    case StrategyRoundRobinKey(g) => IsBytes(g.nodeType) && IsBytes(g.nodeGroup)
    case _ => true
  }

  lemma TagsHaveNoColon()
    ensures Lacks("placement", ':') && Lacks("node", ':') && Lacks("nodes", ':') && Lacks("invalid", ':')
    ensures Lacks("node_lease", ':') && Lacks("events", ':') && Lacks("stream", ':') && Lacks("pubsub", ':')
    ensures Lacks("audit", ':') && Lacks("sequence", ':') && Lacks("strategy", ':') && Lacks("round_robin", ':')
  {
  }

  lemma PartsHaveNoColon(k: Key)
    ensures forall i :: 0 <= i < |KeyParts(k)| ==> Lacks(KeyParts(k)[i], ':')
  {
    TagsHaveNoColon();
    match k
    case PlacementKey(s) => EncodeHasNoColon(s);
    case PlacementNodeKey(s) => EncodeHasNoColon(s);
    case NodeKey(s) => EncodeHasNoColon(s);
    case NodesKey(g) => EncodeHasNoColon(g.nodeType); EncodeHasNoColon(g.nodeGroup);
    case InvalidNodesKey(g) => EncodeHasNoColon(g.nodeType); EncodeHasNoColon(g.nodeGroup);
    case NodeLeaseKey(g) => EncodeHasNoColon(g.nodeType); EncodeHasNoColon(g.nodeGroup);
    case StrategyRoundRobinKey(g) => EncodeHasNoColon(g.nodeType); EncodeHasNoColon(g.nodeGroup);
    case _ =>
  }

  lemma GroupPartsInjective(g: Group, g': Group)
    requires IsBytes(g.nodeType) && IsBytes(g.nodeGroup) && IsBytes(g'.nodeType) && IsBytes(g'.nodeGroup)
    requires GroupParts(g) == GroupParts(g')
    ensures g == g'
  {
    assert GroupParts(g)[0] == GroupParts(g')[0] && GroupParts(g)[1] == GroupParts(g')[1];
    EncodeInjective(g.nodeType, g'.nodeType);
    EncodeInjective(g.nodeGroup, g'.nodeGroup);
  }

  /** The piece lists of two keys differ unless the keys are built by one builder from equal arguments. */
  lemma KeyPartsInjective(k: Key, k': Key)
    requires KeyOfBytes(k) && KeyOfBytes(k')
    requires KeyParts(k) == KeyParts(k')
    ensures k == k'
  {
    var a, b := KeyParts(k), KeyParts(k');
    assert a[0] == b[0] && |a| == |b|;
    assert |a| >= 2 ==> a[1] == b[1];
    assert |a| >= 3 ==> a[2] == b[2];
    match k
    case PlacementKey(s) => assert k'.PlacementKey?; EncodeInjective(s, k'.grainKey);
    case PlacementNodeKey(s) => assert k'.PlacementNodeKey?; EncodeInjective(s, k'.identity);
    case NodeKey(s) => assert k'.NodeKey?; EncodeInjective(s, k'.identity);
    case NodesKey(g) =>
      assert a[1..] == GroupParts(g) && b[1..] == GroupParts(k'.group);
      GroupPartsInjective(g, k'.group);
    case InvalidNodesKey(g) =>
      assert a[1..] == GroupParts(g) && b[1..] == GroupParts(k'.group);
      GroupPartsInjective(g, k'.group);
    case NodeLeaseKey(g) =>
      assert a[1..] == GroupParts(g) && b[1..] == GroupParts(k'.group);
      GroupPartsInjective(g, k'.group);
    case StrategyRoundRobinKey(g) =>
      assert a[2..] == GroupParts(g) && b[2..] == GroupParts(k'.group);
      GroupPartsInjective(g, k'.group);
    case _ =>
  }

  /** Joint injectivity of the key builders: two keys share a Redis name only when they are one key.
      This is why the Redis model may keep one map for each builder. */
  lemma KeysInjective(k: Key, k': Key)
    requires KeyOfBytes(k) && KeyOfBytes(k')
    ensures Render(k) == Render(k') <==> k == k'
  {
    if Render(k) == Render(k') {
      assert Render(k)[|NAMESPACE_PREFIX|..] == Join(KeyParts(k), ':');
      assert Render(k')[|NAMESPACE_PREFIX|..] == Join(KeyParts(k'), ':');
      PartsHaveNoColon(k);
      PartsHaveNoColon(k');
      SplitJoin(KeyParts(k), ':');
      SplitJoin(KeyParts(k'), ':');
      KeyPartsInjective(k, k');
    }
  }

  function ConsumerGroupName(identity: string, session: string): string {
    "sp:v2:consumer:" + Encode(identity) + ":" + Encode(session)
  }

  /** Two node sessions never share a consumer group. */
  lemma ConsumerGroupsInjective(identity: string, session: string, identity': string, session': string)
    requires IsBytes(identity) && IsBytes(session) && IsBytes(identity') && IsBytes(session')
    ensures ConsumerGroupName(identity, session) == ConsumerGroupName(identity', session')
            <==> identity == identity' && session == session'
  {
    var prefix := "sp:v2:consumer:";
    assert ConsumerGroupName(identity, session)[|prefix|..] == Encode(identity) + ":" + Encode(session);
    assert ConsumerGroupName(identity', session')[|prefix|..] == Encode(identity') + ":" + Encode(session');
    EncodeHasNoColon(identity);
    EncodeHasNoColon(identity');
    EncodeHasNoColon(session);
    EncodeHasNoColon(session');
    SplitCons(Encode(identity), ':', Encode(session));
    SplitCons(Encode(identity'), ':', Encode(session'));
    SplitWithout(Encode(session), ':');
    SplitWithout(Encode(session'), ':');
    var a := [Encode(identity)] + [Encode(session)];
    var b := [Encode(identity')] + [Encode(session')];
    assert a == b ==> a[0] == b[0] && a[1] == b[1];
    EncodeInjective(identity, identity');
    EncodeInjective(session, session');
  }
}

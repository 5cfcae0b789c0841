/**
  Typed properties and property chains, section 2.2.2 of MQTT 5.0.

  A chain is a `std::map` from property identifiers to entities, so it is
  written in ascending order of identifiers and holds each at most once.
 */
module Properties {
  import opened Bytes
  import V = VarInt

  // ---------------------------------------------------------------- entities

  datatype Entity =
    | ByteE(b: byte)
    | TwoByteE(v: u16)
    | FourByteE(w: u32)
    | StringE(s: seq<byte>)
    | BinaryE(d: seq<byte>)
    | PairE(key: seq<byte>, val: seq<byte>)
    | VIntE(n: u32)

  datatype Kind = KByte | KTwoByte | KFourByte | KString | KBinary | KPair | KVInt | KUnknown

  /** The `switch` of `CreateProperty`. */
  function KindOf(id: byte): Kind {
    if id in {0x01, 0x17, 0x19, 0x24, 0x25, 0x28, 0x29, 0x2A} then KByte
    else if id in {0x13, 0x21, 0x22, 0x23} then KTwoByte
    else if id in {0x02, 0x11, 0x18, 0x27} then KFourByte
    else if id in {0x03, 0x08, 0x12, 0x15, 0x1A, 0x1C, 0x1F} then KString
    else if id in {0x09, 0x16} then KBinary
    else if id == 0x26 then KPair
    else if id == 0x0B then KVInt
    else KUnknown
  }

  predicate HasKind(e: Entity, k: Kind) {
    match e
    case ByteE(_) => k == KByte
    case TwoByteE(_) => k == KTwoByte
    case FourByteE(_) => k == KFourByte
    case StringE(_) => k == KString
    case BinaryE(_) => k == KBinary
    case PairE(_, _) => k == KPair
    case VIntE(_) => k == KVInt
  }

  /** `Size()` of the entity classes. */
  function Size(e: Entity): nat {
    match e
    case ByteE(_) => 1
    case TwoByteE(_) => 2
    case FourByteE(_) => 4
    case StringE(s) => 2 + |s|
    case BinaryE(d) => 2 + |d|
    case PairE(k, v) => (2 + |k|) + (2 + |v|)
    case VIntE(n) => |V.Code(n)|
  }

  /** `Serialize` of the entity classes. */
  function Encode(e: Entity): (b: seq<byte>)
    ensures |b| == Size(e)
  {
    match e
    case ByteE(x) => [x]
    case TwoByteE(v) => Net16(v)
    case FourByteE(w) => Net32(w)
    case StringE(s) => Prefixed(s)
    case BinaryE(d) => Prefixed(d)
    case PairE(k, v) => Prefixed(k) + Prefixed(v)
    case VIntE(n) => V.Code(n)
  }

  datatype Property = Property(id: byte, entity: Entity)

  function EncodeProperty(p: Property): (b: seq<byte>)
    ensures |b| == Size(p.entity) + 1
  {
    [p.id] + Encode(p.entity)
  }

  /** Strings fit their length prefix, and variable integers their encoding. */
  predicate Encodable(e: Entity) {
    match e
    case StringE(s) => |s| < 0x1_0000
    case BinaryE(d) => |d| < 0x1_0000
    case PairE(k, v) => |k| < 0x1_0000 && |v| < 0x1_0000
    case VIntE(n) => n < TWO_TO_THE_28
    case _ => true
  }

  predicate WellTyped(p: Property) {
    HasKind(p.entity, KindOf(p.id)) && Encodable(p.entity)
  }

  /** A property that `CreateProperty` can read back: right type, and a length that fits its `uint8_t`. */
  predicate Wellformed(p: Property) {
    WellTyped(p) && Size(p.entity) + 1 <= 255
  }

  // ---------------------------------------------------------------- reading one property

  /** `size` is the `uint8_t` the source reports, which wraps for longer properties. */
  datatype Parsed<+T> = Parsed(value: T, size: byte) | Null | CutShort

  predicate Holds(b: seq<byte>) {
    2 <= |b| && 2 + Host16(b) <= |b|
  }

  function ParsePair(b: seq<byte>): (r: Parsed<Entity>)
    ensures r.Parsed? ==> r.size <= |b| + 1
  {
    if !Holds(b) then CutShort else
    var len1 := Host16(b) as int;
    var b2 := b[2 + len1..];
    if !Holds(b2) then CutShort else
    var len2 := Host16(b2) as int;
    Parsed(PairE(b[2..2 + len1], b2[2..2 + len2]), (5 + len1 + len2) % 0x100)
  }

  /** The part of `CreateProperty` behind the identifier; the size includes the identifier's byte. */
  function ParseEntity(k: Kind, b: seq<byte>): (r: Parsed<Entity>)
    ensures r.Parsed? ==> r.size <= |b| + 1
  {
    match k
    case KByte => if |b| < 1 then CutShort else Parsed(ByteE(b[0]), 2)
    case KTwoByte => if |b| < 2 then CutShort else Parsed(TwoByteE(Host16(b)), 3)
    case KFourByte => if |b| < 4 then CutShort else Parsed(FourByteE(Host32(b)), 5)
    case KString =>
      if !Holds(b) then CutShort else
      var len := Host16(b) as int;
      Parsed(StringE(b[2..2 + len]), (3 + len) % 0x100)
    case KBinary =>
      if !Holds(b) then CutShort else
      var len := Host16(b) as int;
      Parsed(BinaryE(b[2..2 + len]), (3 + len) % 0x100)
    case KPair => ParsePair(b)
    case KVInt =>
      (match V.Decode(b)
       case Ok(n, size) => Parsed(VIntE(n), 1 + size)
       case VarIntErr => Null
       case Overrun => CutShort)
    case KUnknown => Null
  }

  /** `CreateProperty`. */
  function ParseProperty(b: seq<byte>): (r: Parsed<Property>)
    ensures r.Parsed? ==> r.size <= |b|
  {
    if b == [] then CutShort else
    match ParseEntity(KindOf(b[0]), b[1..])
    case Parsed(e, size) => Parsed(Property(b[0], e), size)
    case Null => Null
    case CutShort => CutShort
  }

  lemma PairRoundTrip(key: seq<byte>, val: seq<byte>, rest: seq<byte>)
    requires |key| < 0x1_0000 && |val| < 0x1_0000
    ensures ParsePair(Prefixed(key) + Prefixed(val) + rest) == Parsed(PairE(key, val), (5 + |key| + |val|) % 0x100)
  {
    assert Prefixed(key) + Prefixed(val) + rest == Prefixed(key) + (Prefixed(val) + rest);
    PrefixedRoundTrip(key, Prefixed(val) + rest);
    PrefixedRoundTrip(val, rest);
  }

  lemma ParseEntityRoundTrip(e: Entity, k: Kind, rest: seq<byte>)
    requires HasKind(e, k) && Encodable(e)
    ensures ParseEntity(k, Encode(e) + rest) == Parsed(e, (Size(e) + 1) % 0x100)
  {
    hide V.Decode, ParsePair, Prefixed, Net16, Net32;
    match e
    case ByteE(x) =>
    case TwoByteE(v) => Net16RoundTrip(v, rest);
    case FourByteE(w) => Net32RoundTrip(w, rest);
    case StringE(s) => PrefixedRoundTrip(s, rest);
    case BinaryE(d) => PrefixedRoundTrip(d, rest);
    case PairE(key, val) => PairRoundTrip(key, val, rest);
    case VIntE(n) => V.DecodeOfCode(n, rest);
  }

  /** Every well-typed property is read in full; its size is right exactly up to 255 bytes, and modulo 256 beyond. */
  lemma ParsePropertyRoundTrip(p: Property, rest: seq<byte>)
    requires WellTyped(p)
    ensures ParseProperty(EncodeProperty(p) + rest) == Parsed(p, (Size(p.entity) + 1) % 0x100)
    ensures ParseProperty(EncodeProperty(p) + rest).size == Size(p.entity) + 1 <==> Wellformed(p)
  {
    hide ParseEntity, KindOf, HasKind, Encodable, Size;
    assert (EncodeProperty(p) + rest)[1..] == Encode(p.entity) + rest;
    ParseEntityRoundTrip(p.entity, KindOf(p.id), rest);
  }

  // ---------------------------------------------------------------- chains

  type Chain = map<byte, Entity>

  /** `AddProperty`: `insert` keeps an entry that is already there. */
  function Add(c: Chain, p: Property): Chain {
    if p.id in c then c else c[p.id := p.entity]
  }

  function AddAll(c: Chain, ps: seq<Property>): Chain
    decreases |ps|
  {
    if ps == [] then c else AddAll(Add(c, ps[0]), ps[1..])
  }

  lemma MinExists(s: set<byte>, k: byte)
    requires s != {} && forall x :: x in s ==> k <= x
    ensures exists m :: m in s && forall x :: x in s ==> m <= x
    decreases 0x100 - k
  {
    if k !in s {
      var x :| x in s;
      MinExists(s, k + 1);
    }
  }

  /** The identifier a `std::map` iterates to first. */
  function Min(s: set<byte>): (m: byte)
    requires s != {}
    ensures m in s && forall x :: x in s ==> m <= x
  {
    MinExists(s, 0);
    var m :| m in s && forall x :: x in s ==> m <= x;
    m
  }

  function First(c: Chain): Property
    requires c != map[]
  {
    var id := Min(c.Keys);
    Property(id, c[id])
  }

  /** The properties of a chain in the order of the map. */
  function Listed(c: Chain): seq<Property>
    decreases |c|
  {
    if c == map[] then [] else [First(c)] + Listed(c - {First(c).id})
  }

  /** Properties one after another on the wire, without a length. */
  function Wire(ps: seq<Property>): seq<byte> {
    if ps == [] then [] else EncodeProperty(ps[0]) + Wire(ps[1..])
  }

  function Body(c: Chain): seq<byte> {
    Wire(Listed(c))
  }

  /** `GetSize`: a `uint16_t` sum. */
  function ChainSize(c: Chain): u16 {
    |Body(c)| % 0x1_0000
  }

  /** `Serialize` of a chain. */
  function EncodeChain(c: Chain): (b: seq<byte>)
    ensures |b| == |V.Code(ChainSize(c))| + |Body(c)|
  {
    V.Code(ChainSize(c)) + Body(c)
  }

  /** A chain every property of which can be read back, and whose total length fits `GetSize`. */
  predicate WellformedChain(c: Chain) {
    && (forall id :: id in c ==> Wellformed(Property(id, c[id])))
    && |Body(c)| < 0x1_0000
  }

  /**
    The outcome of `Create`.  `PropertyErr` and `VarIntErr` are the source's
    errors; `PastEnd` means it would read beyond the buffer, and `Hang` that a
    property reported size 0, so that it would read the same one for ever.
   */
  datatype Status = Done | PropertyErr | VarIntErr | PastEnd | Hang
  datatype Created = Created(status: Status, chain: Chain, size: nat)

  /** The loop of `Create`; `left` is the unsigned count of bytes still expected. */
  function Fill(b: seq<byte>, left: u32, c: Chain, size: nat): (r: Created)
    ensures r.size <= size + |b|
    decreases |b|
  {
    if left == 0 then Created(Done, c, size)
    else
      match ParseProperty(b)
      case CutShort => Created(PastEnd, c, size)
      case Null => Created(PropertyErr, c, size)
      case Parsed(p, n) =>
        if n == 0 then Created(Hang, Add(c, p), size)
        else Fill(b[n..], (left - n) % TWO_TO_THE_32, Add(c, p), size + n)
  }

  /** `Create` into a chain that already holds `old`: only a non-empty list clears it. */
  function CreateChain(before: Chain, b: seq<byte>): (r: Created)
    ensures r.size <= |b|
  {
    match V.Decode(b)
    case Overrun => Created(PastEnd, before, 0)
    case VarIntErr => Created(VarIntErr, before, 0)
    case Ok(len, n) =>
      if len == 0 then Created(Done, before, n) else Fill(b[n..], len, map[], n)
  }

  lemma FillStep(p: Property, tail: seq<byte>, left: u32, c: Chain, size: nat)
    requires Wellformed(p) && Size(p.entity) + 1 <= left
    ensures Fill(EncodeProperty(p) + tail, left, c, size)
         == Fill(tail, left - Size(p.entity) - 1, Add(c, p), size + Size(p.entity) + 1)
  {
    hide ParseProperty, EncodeProperty, KindOf, HasKind;
    ParsePropertyRoundTrip(p, tail);
    assert (EncodeProperty(p) + tail)[Size(p.entity) + 1..] == tail;
  }

  /** A property of 256 bytes, or a multiple of that, reports size 0, and the loop never gets past it. */
  lemma LoopStuckIff(p: Property, tail: seq<byte>, left: u32, c: Chain, size: nat)
    requires WellTyped(p) && left > 0
    ensures Fill(EncodeProperty(p) + tail, left, c, size) == Created(Hang, Add(c, p), size)
            <==> (Size(p.entity) + 1) % 0x100 == 0
  {
    hide ParseProperty, EncodeProperty, WellTyped;
    var n := (Size(p.entity) + 1) % 0x100;
    ParsePropertyRoundTrip(p, tail);
    if n > 0 {
      FillMoves((EncodeProperty(p) + tail)[n..], (left - n) % TWO_TO_THE_32, Add(c, p), size + n);
    }
  }

  lemma {:induction false} FillMoves(b: seq<byte>, left: u32, c: Chain, size: nat)
    ensures Fill(b, left, c, size).size >= size
    decreases |b|
  {
    hide ParseProperty;
    if left != 0 && ParseProperty(b).Parsed? && ParseProperty(b).size != 0 {
      var n := ParseProperty(b).size;
      FillMoves(b[n..], (left - n) % TWO_TO_THE_32, Add(c, ParseProperty(b).value), size + n);
    }
  }

  /** So `Create` never returns on the bytes of a chain that holds just such a property. */
  lemma LongPropertyHangs(before: Chain, p: Property, rest: seq<byte>)
    requires WellTyped(p) && (Size(p.entity) + 1) % 0x100 == 0 && Size(p.entity) + 1 < 0x1_0000
    ensures CreateChain(before, EncodeChain(map[p.id := p.entity]) + rest).status == Hang
  {
    hide V.Decode, V.Code, Fill, EncodeProperty, WellTyped;
    var c := map[p.id := p.entity];
    SingletonBody(p);
    var n, len := |V.Code(|Body(c)|)|, |Body(c)|;
    V.DecodeOfCode(len, Body(c) + rest);
    assert EncodeChain(c) + rest == V.Code(len) + (Body(c) + rest);
    assert (EncodeChain(c) + rest)[n..] == EncodeProperty(p) + rest;
    LoopStuckIff(p, rest, len, map[], n);
  }

  lemma SingletonBody(p: Property)
    ensures Body(map[p.id := p.entity]) == EncodeProperty(p) && |Body(map[p.id := p.entity])| == Size(p.entity) + 1
  {
    hide EncodeProperty;
    var c: Chain := map[p.id := p.entity];
    assert p.id in c;
    assert First(c) == p && c - {p.id} == map[];
    BodyStep(c);
    BodyEmpty();
    assert EncodeProperty(p) + [] == EncodeProperty(p);
  }

  /** Any list of readable properties is read back in order and to its last byte. */
  lemma {:induction false} FillOfWire(ps: seq<Property>, c: Chain, size: nat, rest: seq<byte>)
    requires forall p :: p in ps ==> Wellformed(p)
    requires |Wire(ps)| < TWO_TO_THE_32
    ensures Fill(Wire(ps) + rest, |Wire(ps)|, c, size) == Created(Done, AddAll(c, ps), size + |Wire(ps)|)
    decreases |ps|
  {
    hide ParseProperty, EncodeProperty, Wellformed;
    if ps != [] {
      var p, tail := ps[0], Wire(ps[1..]) + rest;
      assert Wire(ps) + rest == EncodeProperty(p) + tail;
      FillStep(p, tail, |Wire(ps)|, c, size);
      FillOfWire(ps[1..], Add(c, p), size + Size(p.entity) + 1, rest);
    }
  }

  lemma {:induction false} AddAllKeeps(c: Chain, ps: seq<Property>)
    ensures forall id :: id in c ==> id in AddAll(c, ps) && AddAll(c, ps)[id] == c[id]
    ensures forall id :: id in AddAll(c, ps) ==> id in c || exists i :: 0 <= i < |ps| && ps[i].id == id
    decreases |ps|
  {
    if ps != [] {
      AddAllKeeps(Add(c, ps[0]), ps[1..]);
      assert forall i :: 0 <= i < |ps| - 1 ==> ps[1..][i] == ps[i + 1];
    }
  }

  /** With repeated identifiers on the wire the first occurrence wins. */
  lemma {:induction false} FirstOccurrenceWins(c: Chain, ps: seq<Property>, i: nat)
    requires i < |ps| && ps[i].id !in c
    requires forall j :: 0 <= j < i ==> ps[j].id != ps[i].id
    ensures ps[i].id in AddAll(c, ps) && AddAll(c, ps)[ps[i].id] == ps[i].entity
    decreases |ps|
  {
    if i == 0 {
      AddAllKeeps(Add(c, ps[0]), ps[1..]);
    } else {
      FirstOccurrenceWins(Add(c, ps[0]), ps[1..], i - 1);
    }
  }

  lemma ListedStep(c: Chain) returns (p: Property, tail: Chain)
    requires c != map[]
    ensures p == First(c) && p.id in c && p.entity == c[p.id]
    ensures tail == c - {p.id} && |tail| < |c|
    ensures Listed(c) == [p] + Listed(tail)
  {
    p := First(c);
    tail := c - {p.id};
  }

  lemma {:induction false} ListedMembers(c: Chain)
    ensures forall p :: p in Listed(c) ==> p.id in c && p.entity == c[p.id]
    decreases |c|
  {
    hide First;
    if c != map[] {
      var _, tail := ListedStep(c);
      ListedMembers(tail);
    }
  }

  lemma MoveOne<K, T>(acc: map<K, T>, c: map<K, T>, k: K)
    requires k in c && acc.Keys !! c.Keys
    ensures acc[k := c[k]] + (c - {k}) == acc + c
    ensures acc[k := c[k]].Keys !! (c - {k}).Keys
  {
  }

  lemma {:induction false} AddAllListed(c: Chain, acc: Chain)
    requires acc.Keys !! c.Keys
    ensures AddAll(acc, Listed(c)) == acc + c
    decreases |c|
  {
    hide First;
    if c == map[] {
      assert acc + c == acc;
    } else {
      var p, tail := ListedStep(c);
      MoveOne(acc, c, p.id);
      AddAllListed(tail, Add(acc, p));
      assert Listed(c)[1..] == Listed(tail);
    }
  }

  /** What `Create` leaves of a chain: an empty list does not clear it. */
  function Replaced(before: Chain, c: Chain): Chain {
    if c == map[] then before else c
  }

  /**
    `Create` on `Serialize` output uses exactly the bytes written, whatever the
    chain held before, and gives the same map unless the list is empty and the
    chain was not.
   */
  lemma ChainRoundTrip(before: Chain, c: Chain, rest: seq<byte>)
    requires WellformedChain(c)
    ensures CreateChain(before, EncodeChain(c) + rest) == Created(Done, Replaced(before, c), |EncodeChain(c)|)
    ensures CreateChain(before, EncodeChain(c) + rest).chain == c <==> c != map[] || before == map[]
  {
    hide V.Decode, V.Code, Wellformed, ParseProperty, KindOf;
    var n, b := |V.Code(|Body(c)|)|, EncodeChain(c) + rest;
    V.DecodeOfCode(|Body(c)|, Body(c) + rest);
    assert b == V.Code(|Body(c)|) + (Body(c) + rest);
    assert b[n..] == Body(c) + rest;
    if c != map[] {
      assert |Body(c)| > 0 by { BodyStep(c); }
      BodyRoundTrip(c, n, rest);
    } else {
      BodyEmpty();
    }
  }

  lemma BodyRoundTrip(c: Chain, size: nat, rest: seq<byte>)
    requires WellformedChain(c)
    ensures Fill(Body(c) + rest, |Body(c)|, map[], size) == Created(Done, c, size + |Body(c)|)
  {
    hide Wellformed, ParseProperty, Fill;
    AddAllListed(c, map[]);
    assert map[] + c == c;
    ListedMembers(c);
    forall p | p in Listed(c) ensures Wellformed(p) {
      assert p == Property(p.id, c[p.id]);
    }
    FillOfWire(Listed(c), map[], size, rest);
  }

  /** An empty list on the wire leaves whatever the chain held before. */
  lemma EmptyListKeepsOldChain(c: Chain, rest: seq<byte>)
    ensures CreateChain(c, EncodeChain(map[]) + rest) == Created(Done, c, 1)
  {
    assert EncodeChain(map[]) + rest == V.Code(0) + rest;
    V.DecodeOfCode(0, rest);
  }

  // ---------------------------------------------------------------- copying

  /** The two bytes that happen to lie in memory behind the payload of a binary property, for each identifier. */
  type Stray = byte -> (byte, byte)

  /**
    Copying one property.  A binary property is rebuilt with length `Size()`,
    two more than its payload, truncated to 16 bits.
   */
  function CopyEntity(e: Entity, stray: (byte, byte)): Entity {
    match e
    case BinaryE(d) => BinaryE((d + [stray.0, stray.1])[..(|d| + 2) % 0x1_0000])
    case _ => e
  }

  /** The copy constructor and the copy assignment of `MqttPropertyChain`. */
  function CopyChain(c: Chain, stray: Stray): Chain {
    map id | id in c :: CopyEntity(c[id], stray(id))
  }

  predicate NoBinary(c: Chain) {
    forall id :: id in c ==> !c[id].BinaryE?
  }

  /** Copying preserves a chain exactly when it holds no binary property, whatever the stray bytes are. */
  lemma CopyPreservesIff(c: Chain, stray: Stray)
    ensures CopyChain(c, stray) == c <==> NoBinary(c)
    ensures CopyChain(c, stray).Keys == c.Keys
  {
    forall id | id in c && c[id].BinaryE? ensures CopyChain(c, stray)[id] != c[id] {
      var d := c[id].d;
      assert |(d + [stray(id).0, stray(id).1])[..(|d| + 2) % 0x1_0000]| != |d|;
    }
  }

  // ---------------------------------------------------------------- writing a chain

  /** `GetSize`: adds up sizes in a `uint16_t`, in map order. */
  method GetChainSize(c: Chain) returns (size: u16)
    ensures size == ChainSize(c)
  {
    hide First, Listed, Body, Size;
    BodyEmpty();
    var total := 0;
    var todo := c;
    ghost var sum: nat := 0;
    while todo != map[]
      invariant sum + |Body(todo)| == |Body(c)|
      invariant total == sum % 0x1_0000
      decreases |todo|
    {
      var p := First(todo);
      BodyStep(todo);
      WrapStep(sum, Size(p.entity) + 1);
      sum := sum + Size(p.entity) + 1;
      total := (total + Size(p.entity) + 1) % 0x1_0000;
      todo := todo - {p.id};
    }
    size := total;
  }

  lemma WrapStep(sum: nat, n: nat)
    ensures (sum % 0x1_0000 + n) % 0x1_0000 == (sum + n) % 0x1_0000
  {
  }

  /** `Serialize`: the length, then each property in map order. */
  method SerializeChain(c: Chain, buf: array<byte>, at: nat) returns (next: nat)
    requires at + |EncodeChain(c)| <= buf.Length
    modifies buf
    ensures next == at + |EncodeChain(c)|
    ensures buf[..] == Patched(old(buf[..]), at, EncodeChain(c))
  {
    hide EncodeProperty, First, Listed, Body, V.Code;
    var len := GetChainSize(c);
    var lenSize := V.CodeVarInt(buf, at, len);
    next := at + lenSize;
    ghost var written := V.Code(len);
    var todo := c;
    while todo != map[]
      invariant next == at + |written|
      invariant written + Body(todo) == EncodeChain(c)
      invariant buf[..] == Patched(old(buf[..]), at, written)
      decreases |todo|
    {
      var p := First(todo);
      BodyStep(todo);
      var bytes := EncodeProperty(p);
      PatchedTwice(old(buf[..]), at, written, bytes);
      assert written + bytes + Body(todo - {p.id}) == EncodeChain(c);
      next := Put(buf, next, bytes);
      written := written + bytes;
      todo := todo - {p.id};
    }
    BodyEmpty();
  }

  // ---------------------------------------------------------------- the mutable chain

  class PropertyChain {
    var properties: Chain

    constructor ()
      ensures properties == map[]
    {
      properties := map[];
    }

    method AddProperty(p: Property)
      modifies this
      ensures properties == Add(old(properties), p)
    {
      if p.id !in properties {
        properties := properties[p.id := p.entity];
      }
    }

    /** `Create`. */
    method Create(b: seq<byte>) returns (status: Status, size: nat)
      modifies this
      ensures Created(status, properties, size) == CreateChain(old(properties), b)
    {
      hide ParseProperty, Add;
      var len := V.DeCodeVarInt(b);
      if len.Overrun? { return PastEnd, 0; }
      if len.VarIntErr? { return VarIntErr, 0; }
      size := len.size;
      if len.value == 0 { return Done, size; }
      properties := map[];
      var left := len.value;
      while left > 0
        invariant 0 <= left < TWO_TO_THE_32 && size <= |b|
        invariant Fill(b[size..], left, properties, size) == CreateChain(old(properties), b)
        decreases |b| - size
      {
        var r := ParseProperty(b[size..]);
        if r.CutShort? { return PastEnd, size; }
        if r.Null? { return PropertyErr, size; }
        AddProperty(r.value);
        if r.size == 0 { return Hang, size; }
        left := (left - r.size) % TWO_TO_THE_32;
        assert b[size..][r.size..] == b[size + r.size..];
        size := size + r.size;
      }
      status := Done;
    }
  }

  lemma BodyStep(c: Chain)
    requires c != map[]
    ensures First(c).id in c && First(c).entity == c[First(c).id]
    ensures Body(c) == EncodeProperty(First(c)) + Body(c - {First(c).id})
  {
    hide EncodeProperty, First;
    var p, tail := ListedStep(c);
    assert Listed(c)[1..] == Listed(tail);
  }

  /** A chain is written in ascending order of identifiers. */
  lemma AscendingOrder(id: byte, e: Entity, c: Chain)
    requires forall k :: k in c ==> id < k
    ensures Body(c[id := e]) == EncodeProperty(Property(id, e)) + Body(c)
  {
    hide EncodeProperty, Body;
    var full := c[id := e];
    assert full - {id} == c;
    assert First(full).id == id by { assert id in full; }
    BodyStep(full);
  }

  lemma BodyEmpty()
    ensures Body(map[]) == []
  {
  }
}

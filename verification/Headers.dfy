/** The fixed header and the variable headers of the control packets. */
module Headers {
  import opened Bytes
  import opened Properties
  import V = VarInt

  // ---------------------------------------------------------------- fixed header

  const CONNECT: byte := 1
  const CONNACK: byte := 2
  const PUBLISH: byte := 3
  const PUBACK: byte := 4
  const PUBREC: byte := 5
  const PUBREL: byte := 6
  const PUBCOMP: byte := 7
  const SUBSCRIBE: byte := 8
  const SUBACK: byte := 9
  const UNSUBSCRIBE: byte := 10
  const UNSUBACK: byte := 11
  const PINGREQ: byte := 12
  const PINGRESP: byte := 13
  const DISCONNECT: byte := 14

  /** Bitwise or. */
  function Or(a: nat, b: nat): nat {
    if a == 0 then b
    else if b == 0 then a
    else 2 * Or(a / 2, b / 2) + if a % 2 == 1 || b % 2 == 1 then 1 else 0
  }

  lemma OrBit(a: nat, a0: nat, b: nat, b0: nat)
    requires a0 < 2 && b0 < 2
    ensures Or(2 * a + a0, 2 * b + b0) == 2 * Or(a, b) + if a0 == 1 || b0 == 1 then 1 else 0
  {
    assert (2 * a + a0) / 2 == a && (2 * b + b0) / 2 == b;
  }

  /** What `FHBuilder` makes of a packet type, a DUP flag and a QoS: shifts and ors in a `uint8_t`. */
  function FirstByte(packetType: byte, dup: bool, qos: byte): byte {
    var b := packetType * 16 % 0x100;
    var b := if dup then Or(b, 8) else b;
    Or(b, qos * 2) % 0x100
  }

  function QoS(first: byte): byte { first / 2 % 4 }
  predicate IsDup(first: byte) { first / 8 % 2 == 1 }
  predicate IsRetain(first: byte) { first % 2 == 1 }
  function PacketType(first: byte): byte { first / 16 }

  /** Reading the flags back; beyond QoS 3 the shifted value is or-ed into DUP and the packet type. */
  lemma FirstByteRoundTrip(packetType: byte, dup: bool, qos: byte)
    requires packetType < 16
    ensures QoS(FirstByte(packetType, dup, qos)) == qos % 4
    ensures !IsRetain(FirstByte(packetType, dup, qos))
    ensures IsDup(FirstByte(packetType, dup, qos)) <==> dup || qos / 4 % 2 == 1
    ensures PacketType(FirstByte(packetType, dup, qos)) == Or(packetType, qos / 8) % 16
    ensures qos < 4 ==> PacketType(FirstByte(packetType, dup, qos)) == packetType
    ensures qos < 4 ==> IsDup(FirstByte(packetType, dup, qos)) == dup
  {
    hide Or, FirstByte, QoS, IsDup, IsRetain, PacketType;
    var d, h, q2, q1, q0 := if dup then 1 else 0, qos / 8, qos / 4 % 2, qos / 2 % 2, qos % 2;
    BitsOf(qos);
    OrZero(packetType);
    FirstByteBits(packetType, dup, qos);
    OrBit(packetType, d, h, q2);
    FlagsOf(Or(packetType, h), if d == 1 || q2 == 1 then 1 else 0, q1, q0);
  }

  /** The first byte as section 2.1 of MQTT 5.0 lays it out. */
  lemma FirstByteIs(packetType: byte, dup: bool, qos: byte)
    requires packetType < 16 && qos < 4
    ensures FirstByte(packetType, dup, qos) == 16 * packetType + (if dup then 8 else 0) + 2 * qos
  {
    hide Or;
    FirstByteBits(packetType, dup, qos);
    OrZero(2 * packetType + if dup then 1 else 0);
  }

  lemma FlagsAre(t: nat, d: nat, q: nat, r: nat)
    requires t < 16 && d < 2 && q < 4 && r < 2
    ensures var b := 16 * t + 8 * d + 2 * q + r;
      b < 0x100 && PacketType(b) == t && (IsDup(b) <==> d == 1) && QoS(b) == q && (IsRetain(b) <==> r == 1)
  {
    var b := 16 * t + 8 * d + 2 * q + r;
    assert b / 2 == 4 * (2 * t + d) + q && b / 8 == 2 * t + d;
  }

  lemma BitsOf(qos: byte)
    ensures qos / 4 == 2 * (qos / 8) + qos / 4 % 2 && qos % 4 == 2 * (qos / 2 % 2) + qos % 2
  {
  }

  /** The lowest three bits of the first byte are those of the QoS; above them packet type, DUP and QoS are or-ed. */
  lemma FirstByteBits(packetType: byte, dup: bool, qos: byte)
    requires packetType < 16
    ensures FirstByte(packetType, dup, qos)
         == (8 * Or(2 * packetType + (if dup then 1 else 0), qos / 4) + 4 * (qos / 2 % 2) + 2 * (qos % 2)) % 0x100
  {
    hide Or;
    var d := if dup then 1 else 0;
    assert (if dup then Or(packetType * 16, 8) else packetType * 16) == 16 * packetType + 8 * d by {
      OrBit(8 * packetType, 0, 4, 0); OrBit(4 * packetType, 0, 2, 0);
      OrBit(2 * packetType, 0, 1, 0); OrBit(packetType, 0, 0, 1);
      OrZero(packetType);
    }
    var r, q1, q0 := qos / 4, qos / 2 % 2, qos % 2;
    assert qos == 2 * (2 * r + q1) + q0;
    OrBit(8 * packetType + 4 * d, 0, qos, 0);
    OrBit(4 * packetType + 2 * d, 0, 2 * r + q1, q0);
    OrBit(2 * packetType + d, 0, r, q1);
  }

  lemma OrZero(a: nat)
    ensures Or(a, 0) == a
  {
  }

  /** The flags of a byte; what lies above it is cut off. */
  lemma FlagsOf(high: nat, e: nat, q1: nat, q0: nat)
    requires e < 2 && q1 < 2 && q0 < 2
    ensures var b := (8 * (2 * high + e) + 4 * q1 + 2 * q0) % 0x100;
            && QoS(b) == 2 * q1 + q0 && !IsRetain(b) && PacketType(b) == high % 16 && IsDup(b) == (e == 1)
  {
    var k, h := high / 16, high % 16;
    ByteBits(h, e, q1, q0);
    CutOff(k, 16 * h + 8 * e + 4 * q1 + 2 * q0);
    assert 8 * (2 * high + e) + 4 * q1 + 2 * q0 == 0x100 * k + (16 * h + 8 * e + 4 * q1 + 2 * q0);
  }

  lemma CutOff(k: nat, b: nat)
    requires b < 0x100
    ensures (0x100 * k + b) % 0x100 == b
  {
  }

  lemma ByteBits(h: nat, e: nat, q1: nat, q0: nat)
    requires h < 16 && e < 2 && q1 < 2 && q0 < 2
    ensures var b := 16 * h + 8 * e + 4 * q1 + 2 * q0;
      0 <= b < 0x100 && b / 2 % 4 == 2 * q1 + q0 && b % 2 == 0 && b / 16 == h && b / 8 % 2 == e
  {
    var b := 16 * h + 8 * e + 4 * q1 + 2 * q0;
    assert b / 2 == 4 * (2 * h + e) + (2 * q1 + q0);
    assert b / 8 == 2 * h + e;
  }

  /** Type and remaining length, and what follows, as `ReadFixedHeader` takes them off a connection. */
  datatype FixedRead = FixedRead(first: byte, remaining: u32, rest: seq<byte>) | NoHeader

  function ReadFixed(b: seq<byte>): FixedRead {
    if b == [] then NoHeader else
    match V.Decode(b[1..])
    case Ok(n, size) => FixedRead(b[0], n, b[1 + size..])
    case _ => NoHeader
  }

  function EncodeFixed(first: byte, remaining: u32): seq<byte> {
    [first] + V.Code(remaining)
  }

  lemma FixedRoundTrip(first: byte, remaining: u32, rest: seq<byte>)
    requires remaining < TWO_TO_THE_28
    ensures ReadFixed(EncodeFixed(first, remaining) + rest) == FixedRead(first, remaining, rest)
  {
    var b := EncodeFixed(first, remaining) + rest;
    assert b[1..] == V.Code(remaining) + rest;
    V.DecodeOfCode(remaining, rest);
    assert b[1 + |V.Code(remaining)|..] == rest;
  }

  // ---------------------------------------------------------------- variable headers

  type Name = n: seq<byte> | |n| == 4 witness [0, 0, 0, 0]

  /** One constructor per header class; `PubackH` is also `TypicalVH`. */
  datatype Header =
    | ConnectH(nameLen: u16, name: Name, version: byte, flags: byte, alive: u16)
    | ConnackH(ack: byte, reason: byte, chain: Chain)
    | DisconnectH(reason: byte, chain: Chain)
    | PublishH(topic: seq<byte>, id: u16, chain: Chain)
    | SubscribeH(id: u16, chain: Chain)
    | SubackH(id: u16, chain: Chain, codes: seq<byte>)
    | PubackH(id: u16, reason: byte, chain: Chain)
    | UnsubscribeH(id: u16, chain: Chain)
    | UnsubackH(id: u16, chain: Chain, codes: seq<byte>)
    | TypicalV3H(id: u16)
    | PublishV3H(topic: seq<byte>, id: u16)

  predicate HasChain(h: Header) {
    !h.ConnectH? && !h.TypicalV3H? && !h.PublishV3H?
  }

  function LengthPrefix(c: Chain): nat {
    |V.Code(ChainSize(c))|
  }

  /** `GetSize` of the header classes. */
  function GetSize(h: Header): nat {
    match h
    case ConnectH(_, _, _, _, _) => 10
    case ConnackH(_, _, c) => 2 + ChainSize(c) + LengthPrefix(c)
    case DisconnectH(_, c) => 1 + LengthPrefix(c) + ChainSize(c)
    case PublishH(t, _, c) => (2 + |t|) + 2 + LengthPrefix(c) + ChainSize(c)
    case SubscribeH(_, c) => 2 + ChainSize(c)
    case SubackH(_, c, codes) => 2 + ChainSize(c) + LengthPrefix(c) + |codes|
    case PubackH(_, _, c) => 3 + ChainSize(c) + LengthPrefix(c)
    case UnsubscribeH(_, c) => 2 + ChainSize(c) + LengthPrefix(c)
    case UnsubackH(_, c, codes) => 2 + ChainSize(c) + LengthPrefix(c) + |codes|
    case TypicalV3H(_) => 2
    case PublishV3H(t, _) => (2 + |t|) + 2
  }

  function OptionalId(id: u16): seq<byte> {
    if id != 0 then Net16(id) else []
  }

  /** `Serialize` of the header classes. */
  function EncodeHeader(h: Header): seq<byte> {
    match h
    case ConnectH(nl, n, v, f, a) => Net16(nl) + n + [v, f] + Net16(a)
    case ConnackH(a, r, c) => [a, r] + EncodeChain(c)
    case DisconnectH(r, c) => [r] + EncodeChain(c)
    case PublishH(t, id, c) => Prefixed(t) + OptionalId(id) + EncodeChain(c)
    case SubscribeH(id, c) => OptionalId(id) + EncodeChain(c)
    case SubackH(id, c, codes) => Net16(id) + EncodeChain(c) + codes
    case PubackH(id, r, c) => Net16(id) + [r] + EncodeChain(c)
    case UnsubscribeH(id, c) => Net16(id) + EncodeChain(c)
    case UnsubackH(id, c, codes) => Net16(id) + EncodeChain(c) + codes
    case TypicalV3H(id) => Net16(id)
    case PublishV3H(t, id) => Prefixed(t) + OptionalId(id)
  }

  predicate ChainFits(h: Header) {
    HasChain(h) ==> |Body(h.chain)| < 0x1_0000
  }

  /** How many bytes `Serialize` writes against what `GetSize` announces. */
  function Surplus(h: Header): int {
    match h
    case PublishH(_, id, _) => if id == 0 then -2 else 0
    case PublishV3H(_, id) => if id == 0 then -2 else 0
    case SubscribeH(id, c) => LengthPrefix(c) - if id == 0 then 2 else 0
    case _ => 0
  }

  lemma HeaderSize(h: Header)
    requires ChainFits(h)
    ensures |EncodeHeader(h)| == GetSize(h) + Surplus(h)
  {
    hide Body, V.Code, Net16;
  }

  /** A chain too long for its `uint16_t` size is written in full all the same. */
  lemma HeaderSizeOverflow(h: Header)
    requires !ChainFits(h)
    ensures |EncodeHeader(h)| >= GetSize(h) + Surplus(h) + 0x1_0000
  {
  }

  /** Exactly when the announced size is the written one, for headers of every class and chains of every length. */
  lemma HeaderSizeExactIff(h: Header)
    ensures |EncodeHeader(h)| == GetSize(h) <==>
            && ChainFits(h)
            && ((h.PublishH? || h.PublishV3H?) ==> h.id != 0)
            && (h.SubscribeH? ==> h.id == 0 && 0x80 <= |Body(h.chain)| < 0x4000)
  {
    hide EncodeHeader, GetSize, Body, V.Code;
    if !ChainFits(h) {
      HeaderSizeOverflow(h);
    } else {
      HeaderSize(h);
      if h.SubscribeH? { TwoBytePrefix(|Body(h.chain)|); }
    }
  }

  lemma TwoBytePrefix(n: nat)
    ensures |V.Code(n)| == 2 <==> 0x80 <= n < 0x4000
  {
    hide V.Code;
    V.CodeLength(n, 1);
    V.CodeLength(n, 2);
    V.Powers();
  }

  /** `Serialize` of the header classes, into a buffer. */
  method SerializeHeader(h: Header, buf: array<byte>, at: nat) returns (next: nat)
    requires at + |EncodeHeader(h)| <= buf.Length
    modifies buf
    ensures next == at + |EncodeHeader(h)|
    ensures buf[..] == Patched(old(buf[..]), at, EncodeHeader(h))
  {
    hide *;
    FrontAndBack(h);
    var front := FrontOf(h);
    PatchedTwice(buf[..], at, front, ChainOf(h));
    PatchedTwice(buf[..], at, front + ChainOf(h), CodesOf(h));
    next := Put(buf, at, front);
    next := SerializeChainOf(h, buf, next);
    next := Put(buf, next, CodesOf(h));
  }

  method SerializeChainOf(h: Header, buf: array<byte>, at: nat) returns (next: nat)
    requires at + |ChainOf(h)| <= buf.Length
    modifies buf
    ensures next == at + |ChainOf(h)|
    ensures buf[..] == Patched(old(buf[..]), at, ChainOf(h))
  {
    if HasChain(h) {
      next := SerializeChain(h.chain, buf, at);
    } else {
      next := at;
    }
  }

  /** The fields written before the property chain. */
  function FrontOf(h: Header): seq<byte> {
    match h
    case ConnectH(nl, n, v, f, a) => Net16(nl) + n + [v, f] + Net16(a)
    case ConnackH(a, r, _) => [a, r]
    case DisconnectH(r, _) => [r]
    case PublishH(t, id, _) => Prefixed(t) + OptionalId(id)
    case SubscribeH(id, _) => OptionalId(id)
    case SubackH(id, _, _) => Net16(id)
    case PubackH(id, r, _) => Net16(id) + [r]
    case UnsubscribeH(id, _) => Net16(id)
    case UnsubackH(id, _, _) => Net16(id)
    case TypicalV3H(id) => Net16(id)
    case PublishV3H(t, id) => Prefixed(t) + OptionalId(id)
  }

  function ChainOf(h: Header): seq<byte> {
    if HasChain(h) then EncodeChain(h.chain) else []
  }

  /** The reason codes written one by one behind the chain. */
  function CodesOf(h: Header): seq<byte> {
    if h.SubackH? || h.UnsubackH? then h.codes else []
  }

  lemma FrontAndBack(h: Header)
    ensures EncodeHeader(h) == FrontOf(h) + ChainOf(h) + CodesOf(h)
  {
  }
}

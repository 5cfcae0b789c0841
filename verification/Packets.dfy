/** Whole control packets: `CreateMqttPacket` and the reading of PUBLISH, section 3.3 of MQTT 5.0. */
module Packets {
  import opened Bytes
  import opened Properties
  import opened Headers
  import V = VarInt

  // ---------------------------------------------------------------- writing

  /** The remaining length the overload with a payload announces; without QoS it deducts a packet id. */
  function PublishRemaining(first: byte, h: Header, payload: seq<byte>): int {
    GetSize(h) + (2 + |payload|) - 2 - if QoS(first) == 0 then 2 else 0
  }

  /** What that overload writes: fixed header, variable header and bare payload. */
  function PublishBytes(first: byte, h: Header, payload: seq<byte>): seq<byte>
    requires 0 <= PublishRemaining(first, h, payload) < TWO_TO_THE_32
  {
    EncodeFixed(first, PublishRemaining(first, h, payload)) + EncodeHeader(h) + payload
  }

  predicate SmallPublish(h: Header, payload: seq<byte>) {
    h.PublishH? && |h.topic| < 0x1_0000 && |payload| < 0x1_0000
  }

  lemma PublishFits(first: byte, h: Header, payload: seq<byte>)
    requires SmallPublish(h, payload)
    ensures 0 <= PublishRemaining(first, h, payload) < TWO_TO_THE_28
  {
    V.CodeLength(ChainSize(h.chain), 3);
    V.Powers();
  }

  /** The final `assert(size == offset)`: as much was written as was announced. */
  predicate SizesAgree(first: byte, h: Header, payload: seq<byte>)
    requires 0 <= PublishRemaining(first, h, payload) < TWO_TO_THE_32
  {
    |PublishBytes(first, h, payload)|
    == PublishRemaining(first, h, payload) + |EncodeFixed(first, PublishRemaining(first, h, payload))|
  }

  /**
    The final `assert(size == offset)`: for every PUBLISH it holds exactly when
    the QoS bits are zero just for a packet id of zero, and the chain fits its
    `uint16_t` size.
   */
  lemma PublishAssertionIff(first: byte, h: Header, payload: seq<byte>)
    requires SmallPublish(h, payload)
    ensures 0 <= PublishRemaining(first, h, payload) < TWO_TO_THE_28
    ensures SizesAgree(first, h, payload) <==> (QoS(first) == 0 <==> h.id == 0) && ChainFits(h)
  {
    hide V.Code, Net16, Prefixed, Body, EncodeHeader, GetSize;
    PublishFits(first, h, payload);
    if ChainFits(h) {
      HeaderSize(h);
    } else {
      HeaderSizeOverflow(h);
    }
  }

  /** `CreateMqttPacket` with a payload. Its caller owes it the condition of `PublishAssertionIff`. */
  method CreatePublish(first: byte, h: Header, payload: seq<byte>) returns (buf: array<byte>)
    requires SmallPublish(h, payload)
    requires (QoS(first) == 0 <==> h.id == 0) && ChainFits(h)
    ensures 0 <= PublishRemaining(first, h, payload) < TWO_TO_THE_28
    ensures fresh(buf) && buf[..] == PublishBytes(first, h, payload)
  {
    PublishLayout(first, h, payload);
    hide EncodeHeader, PublishBytes, V.Code, PublishRemaining, SmallPublish, ChainFits;
    var remaining: u32 := PublishRemaining(first, h, payload);
    buf := CreateBuffer(first, remaining, h, payload);
  }

  /** The body all overloads of `CreateMqttPacket` share, down to the final comparison of size and offset. */
  method CreateBuffer(first: byte, remaining: u32, h: Header, payload: seq<byte>) returns (buf: array<byte>)
    requires remaining == |EncodeHeader(h)| + |payload|
    ensures fresh(buf) && buf[..] == [first] + V.Code(remaining) + EncodeHeader(h) + payload
  {
    hide *;
    var lenSize := V.GetVarIntSize(remaining);
    var size: nat := remaining as int + lenSize + 1;
    buf := new byte[size];
    PatchedAll(buf[..], [first], V.Code(remaining), EncodeHeader(h), payload);
    var offset := Put(buf, 0, [first]);
    var n := V.CodeVarInt(buf, offset, remaining);
    offset := SerializeHeader(h, buf, offset + n);
    offset := Put(buf, offset, payload);
    assert size == offset;
  }

  lemma PublishLayout(first: byte, h: Header, payload: seq<byte>)
    requires SmallPublish(h, payload)
    requires (QoS(first) == 0 <==> h.id == 0) && ChainFits(h)
    ensures 0 <= PublishRemaining(first, h, payload) < TWO_TO_THE_28
    ensures PublishRemaining(first, h, payload) == |EncodeHeader(h)| + |payload|
    ensures PublishBytes(first, h, payload)
         == [first] + V.Code(PublishRemaining(first, h, payload)) + EncodeHeader(h) + payload
  {
    hide EncodeHeader, V.Code, PublishRemaining, SmallPublish, ChainFits;
    PublishAssertionIff(first, h, payload);
  }

  lemma PatchedAll(buf: seq<byte>, a: seq<byte>, b: seq<byte>, c: seq<byte>, d: seq<byte>)
    requires |buf| == |a| + |b| + |c| + |d|
    ensures Patched(Patched(Patched(Patched(buf, 0, a), |a|, b), |a| + |b|, c), |a| + |b| + |c|, d) == a + b + c + d
  {
    hide Patched;
    PatchedTwice(buf, 0, a, b);
    PatchedTwice(buf, 0, a + b, c);
    PatchedTwice(buf, 0, a + b + c, d);
    PatchedWhole(buf, a + b + c + d);
  }

  lemma PatchedWhole(buf: seq<byte>, a: seq<byte>)
    requires |buf| == |a|
    ensures Patched(buf, 0, a) == a
  {
  }

  /** The other overloads of `CreateMqttPacket`: a variable header only. */
  method CreatePacket(first: byte, h: Header) returns (buf: array<byte>)
    requires |EncodeHeader(h)| == GetSize(h) < TWO_TO_THE_28
    ensures fresh(buf) && buf[..] == EncodeFixed(first, GetSize(h)) + EncodeHeader(h)
  {
    hide EncodeHeader, V.Code, GetSize;
    buf := CreateBuffer(first, GetSize(h), h, []);
  }

  // ---------------------------------------------------------------- reading PUBLISH

  datatype PublishMessage = PublishMessage(topic: seq<byte>, id: u16, chain: Chain, payload: seq<byte>)

  /** A value read at the front of a buffer, and what lies behind it. */
  datatype Read<+T> = Read(value: T, rest: seq<byte>) | Overrun

  function ReadName(b: seq<byte>): Read<seq<byte>> {
    if !Holds(b) then Overrun else
    var len := Host16(b) as int;
    Read(b[2..2 + len], b[2 + len..])
  }

  function ReadId(b: seq<byte>): Read<u16> {
    if |b| < 2 then Overrun else Read(Host16(b), b[2..])
  }

  /** `Create` into the chain `before`; a chain that runs over the buffer or never ends is an overrun. */
  function ReadChain(before: Chain, b: seq<byte>): Read<(Status, Chain)> {
    var c := CreateChain(before, b);
    if c.status == PastEnd || c.status == Hang then Overrun else Read((c.status, c.chain), b[c.size..])
  }

  /** A length passed as `uint16_t`. */
  function Truncated(b: seq<byte>): seq<byte> {
    b[..|b| % 0x1_0000]
  }

  lemma ReadNameRoundTrip(s: seq<byte>, rest: seq<byte>)
    requires |s| < 0x1_0000
    ensures ReadName(Prefixed(s) + rest) == Read(s, rest)
  {
    PrefixedRoundTrip(s, rest);
  }

  lemma ReadIdRoundTrip(id: u16, rest: seq<byte>)
    ensures ReadId(Net16(id) + rest) == Read(id, rest)
  {
    Net16RoundTrip(id, rest);
  }

  lemma ReadChainRoundTrip(before: Chain, c: Chain, rest: seq<byte>)
    requires WellformedChain(c)
    ensures ReadChain(before, EncodeChain(c) + rest) == Read((Done, Replaced(before, c)), rest)
  {
    hide CreateChain, EncodeChain, WellformedChain;
    ChainRoundTrip(before, c, rest);
    assert (EncodeChain(c) + rest)[|EncodeChain(c)|..] == rest;
  }

  /**
    The parsing constructor of `PublishVH` and `HandleMqttPublish`.  The status
    of the property chain is ignored; the chain is then copied, and the length
    of the payload truncated to 16 bits.  `None` is a read beyond the packet,
    or a chain that never ends.
   */
  function ParsePublish(first: byte, body: seq<byte>, stray: Stray): Option<PublishMessage> {
    match ReadName(body) case Overrun => None case Read(topic, b1) =>
    match (if QoS(first) != 0 then ReadId(b1) else Read(0, b1)) case Overrun => None case Read(id, b2) =>
    match ReadChain(map[], b2) case Overrun => None case Read(c, payload) =>
    Some(PublishMessage(topic, id, CopyChain(c.1, stray), Truncated(payload)))
  }

  /** `HandleMqttPublish`, with the offset it advances and the chain object it fills. */
  method HandleMqttPublish(first: byte, body: seq<byte>, stray: Stray) returns (message: Option<PublishMessage>)
    ensures message == ParsePublish(first, body, stray)
  {
    hide CreateChain, CopyChain;
    if |body| < 2 { return None; }
    var len := Host16(body) as int;
    if 2 + len > |body| { return None; }
    var topic := body[2..2 + len];
    var offset := 2 + len;
    var id: u16 := 0;
    if QoS(first) != 0 {
      if offset + 2 > |body| { return None; }
      id := Host16(body[offset..]);
      offset := offset + 2;
    }
    var chain := new PropertyChain();
    var status, size := chain.Create(body[offset..]);
    if status == PastEnd || status == Hang { return None; }
    assert body[offset..][size..] == body[offset + size..];
    offset := offset + size;
    var payload := body[offset..];
    message := Some(PublishMessage(topic, id, CopyChain(chain.properties, stray), Truncated(payload)));
  }

  lemma PublishBodyRoundTrip(first: byte, topic: seq<byte>, id: u16, c: Chain, payload: seq<byte>, stray: Stray)
    requires |topic| < 0x1_0000 && |payload| < 0x1_0000 && WellformedChain(c)
    requires QoS(first) == 0 <==> id == 0
    ensures ParsePublish(first, EncodeHeader(PublishH(topic, id, c)) + payload, stray)
         == Some(PublishMessage(topic, id, CopyChain(c, stray), payload))
  {
    hide EncodeHeader, Prefixed, EncodeChain, ReadChain, CopyChain, Net16, ReadName, ReadId, WellformedChain, Truncated;
    var afterId := EncodeChain(c) + payload;
    var afterTopic := OptionalId(id) + afterId;
    PublishBodyShape(topic, id, c, payload);
    ReadNameRoundTrip(topic, afterTopic);
    if id != 0 {
      ReadIdRoundTrip(id, afterId);
    }
    ReadChainRoundTrip(map[], c, payload);
    TruncatedSmall(payload);
  }

  lemma PublishBodyShape(topic: seq<byte>, id: u16, c: Chain, payload: seq<byte>)
    ensures EncodeHeader(PublishH(topic, id, c)) + payload
         == Prefixed(topic) + (OptionalId(id) + (EncodeChain(c) + payload))
    ensures id == 0 ==> OptionalId(id) + (EncodeChain(c) + payload) == EncodeChain(c) + payload
  {
    hide Prefixed, EncodeChain, OptionalId;
    var t, i, e := Prefixed(topic), OptionalId(id), EncodeChain(c);
    assert t + i + e + payload == t + (i + (e + payload));
    assert id == 0 ==> i == [] by { IdAbsent(); }
  }

  lemma IdAbsent()
    ensures OptionalId(0) == []
  {
  }

  lemma TruncatedSmall(b: seq<byte>)
    requires |b| < 0x1_0000
    ensures Truncated(b) == b
  {
  }

  /**
    Reading back what the broker writes as a PUBLISH recovers type, flags,
    topic, packet id and payload to the last byte.  The chain comes back as its
    copy, which is the chain itself exactly when it holds no binary property.
   */
  lemma PublishRoundTrip(dup: bool, qos: byte, topic: seq<byte>, id: u16, c: Chain, payload: seq<byte>, stray: Stray,
                         rest: seq<byte>)
    requires |topic| < 0x1_0000 && |payload| < 0x1_0000 && WellformedChain(c)
    requires qos < 4 && (qos == 0 <==> id == 0)
    ensures var h, first := PublishH(topic, id, c), FirstByte(PUBLISH, dup, qos);
            && 0 <= PublishRemaining(first, h, payload) < TWO_TO_THE_28
            && QoS(first) == qos && IsDup(first) == dup && PacketType(first) == PUBLISH && !IsRetain(first)
            && var body := EncodeHeader(h) + payload;
            && |body| == PublishRemaining(first, h, payload)
            && ReadFixed(PublishBytes(first, h, payload) + rest) == FixedRead(first, |body|, body + rest)
            && ParsePublish(first, body, stray) == Some(PublishMessage(topic, id, CopyChain(c, stray), payload))
            && (CopyChain(c, stray) == c <==> NoBinary(c))
  {
    hide FirstByte, QoS, IsDup, IsRetain, PacketType, EncodeHeader, EncodeFixed, ReadFixed, ParsePublish,
      PublishBytes, PublishRemaining, SmallPublish, ChainFits, WellformedChain, CopyChain, NoBinary;
    var h, first := PublishH(topic, id, c), FirstByte(PUBLISH, dup, qos);
    FirstByteRoundTrip(PUBLISH, dup, qos);
    WellformedPublishFits(topic, id, c, payload);
    PublishLayout(first, h, payload);
    var body := EncodeHeader(h) + payload;
    FixedRoundTrip(first, |body|, body + rest);
    FixedThenBody(first, h, payload, rest);
    PublishBodyRoundTrip(first, topic, id, c, payload, stray);
    CopyPreservesIff(c, stray);
  }

  lemma WellformedPublishFits(topic: seq<byte>, id: u16, c: Chain, payload: seq<byte>)
    requires |topic| < 0x1_0000 && |payload| < 0x1_0000 && WellformedChain(c)
    ensures SmallPublish(PublishH(topic, id, c), payload) && ChainFits(PublishH(topic, id, c))
  {
  }

  lemma FixedThenBody(first: byte, h: Header, payload: seq<byte>, rest: seq<byte>)
    requires 0 <= PublishRemaining(first, h, payload) < TWO_TO_THE_32
    ensures PublishBytes(first, h, payload) + rest
         == EncodeFixed(first, PublishRemaining(first, h, payload)) + (EncodeHeader(h) + payload + rest)
  {
    hide EncodeFixed, EncodeHeader, PublishRemaining;
    var f, e := EncodeFixed(first, PublishRemaining(first, h, payload)), EncodeHeader(h);
    assert f + e + payload + rest == f + (e + payload + rest);
  }
}

/** The bytes of the packets the handlers put out, as they compose them. */
module Responses {
  import opened Bytes
  import opened Properties
  import opened Headers
  import opened Packets
  import I = BrokerIds
  import M = BrokerModel
  import V = VarInt
  import Topics
  import W = Wire

  function AckType(k: M.AckKind): byte {
    match k
    case Puback => PUBACK
    case Pubrec => PUBREC
    case Pubrel => PUBREL
    case Pubcomp => PUBCOMP
  }

  /** What `FHBuilder` is given; PUBREL gets bit 1 besides. */
  function FirstFor(p: M.Packet): byte {
    match p
    case Publish(dup, t) => I.FirstOf(t, dup)
    case Ack(k, dup, _) =>
      if k.Pubrel? then Or(FirstByte(PUBREL, dup, 0), 2) % 0x100 else FirstByte(AckType(k), dup, 0)
    case Suback(_, _) => FirstByte(SUBACK, false, 0)
    case Unsuback(_, _) => FirstByte(UNSUBACK, false, 0)
    case Connack(_, _) => FirstByte(CONNACK, false, 0)
    case Pingresp => FirstByte(PINGRESP, false, 0)
    case KeepAliveTimeout => FirstByte(DISCONNECT, false, 0)
  }

  const SUCCESS: byte := 0
  const KEEP_ALIVE_TIMEOUT: byte := 0x8D

  /** `MqttPropertyChainBuilder`, in the order of its calls. */
  function ConnackChain(newId: Option<seq<byte>>): Chain {
    var c0 := if newId.Some? then Add(map[], Property(0x12, StringE(newId.value))) else map[];
    var c1 := Add(c0, Property(0x25, ByteE(1)));
    var c2 := Add(c1, Property(0x27, FourByteE(65535)));
    var c3 := Add(c2, Property(0x28, ByteE(1)));
    Add(c3, Property(0x2A, ByteE(0)))
  }

  /** The variable header; PINGRESP has none. */
  function HeaderFor(p: M.Packet): Header
    requires !p.Pingresp?
  {
    match p
    case Publish(_, t) => I.HeaderOf(t)
    case Ack(_, _, id) => PubackH(id, SUCCESS, map[])
    case Suback(id, codes) => SubackH(id, map[], codes)
    case Unsuback(id, codes) => UnsubackH(id, map[], codes)
    case Connack(session, newId) => ConnackH(if session then 1 else 0, SUCCESS, ConnackChain(newId))
    case KeepAliveTimeout => DisconnectH(KEEP_ALIVE_TIMEOUT, map[])
  }

  /** The answers, all but PUBLISH, that fit a remaining length. */
  predicate Answer(p: M.Packet) {
    && !p.Publish?
    && (p.Suback? || p.Unsuback? ==> |p.codes| + 3 < TWO_TO_THE_28)
    && (p.Connack? && p.newId.Some? ==> |p.newId.value| < 0x1_0000)
  }

  function AnswerBytes(p: M.Packet): seq<byte>
    requires Answer(p)
  {
    if p.Pingresp? then EncodeFixed(FirstFor(p), 0)
    else EncodeFixed(FirstFor(p), GetSize(HeaderFor(p)) % TWO_TO_THE_32) + EncodeHeader(HeaderFor(p))
  }

  /** Lengths of strings and lists of the answers that are composed without failing the size assertion. */
  lemma AnswerFitsIff(p: M.Packet)
    requires Answer(p) && !p.Pingresp?
    ensures |EncodeHeader(HeaderFor(p))| == GetSize(HeaderFor(p))
            <==> !(p.Connack? && p.newId.Some? && |p.newId.value| >= 65522)
    ensures GetSize(HeaderFor(p)) < TWO_TO_THE_28
  {
    hide EncodeHeader, GetSize, Body, ConnackChain;
    var h := HeaderFor(p);
    HeaderSizeExactIff(h);
    BodyEmpty();
    if p.Connack? { ConnackBody(p.newId); }
    AnswerSize(h);
  }

  /** `CreateMqttPacket` as the handlers call it. */
  method CreateAnswer(p: M.Packet) returns (buf: array<byte>)
    requires Answer(p) && !p.Pingresp? && !(p.Connack? && p.newId.Some? && |p.newId.value| >= 65522)
    ensures fresh(buf) && buf[..] == AnswerBytes(p)
  {
    hide EncodeHeader, EncodeFixed, GetSize, HeaderFor, FirstFor;
    AnswerFitsIff(p);
    buf := CreatePacket(FirstFor(p), HeaderFor(p));
  }

  lemma AnswerSize(h: Header)
    requires h.ConnackH? || h.PubackH? || h.DisconnectH? || ((h.SubackH? || h.UnsubackH?) && h.chain == map[])
    requires h.SubackH? || h.UnsubackH? ==> |h.codes| + 3 < TWO_TO_THE_28
    ensures GetSize(h) < TWO_TO_THE_28
  {
    hide Body, V.Code;
    BodyEmpty();
    V.CodeLength(ChainSize(h.chain), 3);
    V.CodeLength(0, 1);
    V.Powers();
  }

  /**
    The properties of CONNACK: the assigned id if there is one, retaining,
    65535 as the largest packet, wildcards, and no shared subscriptions.
   */
  lemma ConnackBody(newId: Option<seq<byte>>)
    requires newId.Some? ==> |newId.value| < 0x1_0000
    ensures Body(ConnackChain(newId))
         == (if newId.None? then [] else [0x12, |newId.value| / 0x100, |newId.value| % 0x100] + newId.value)
          + [0x25, 1, 0x27, 0, 0, 255, 255, 0x28, 1, 0x2A, 0]
    ensures |Body(ConnackChain(newId))| == 11 + if newId.None? then 0 else 3 + |newId.value|
  {
    hide Body, EncodeProperty, ConnackChain;
    var c4: Chain := map[0x2A := ByteE(0)];
    var c3 := c4[0x28 := ByteE(1)];
    var c2 := c3[0x27 := FourByteE(65535)];
    var c1 := c2[0x25 := ByteE(1)];
    BodyEmpty();
    var none: Chain := map[];
    assert none[0x2A := ByteE(0)] == c4;
    AscendingOrder(0x2A, ByteE(0), none);
    AscendingOrder(0x28, ByteE(1), c4);
    AscendingOrder(0x27, FourByteE(65535), c3);
    AscendingOrder(0x25, ByteE(1), c2);
    Fixed();
    assert Body(c1) == [0x25, 1] + ([0x27, 0, 0, 255, 255] + ([0x28, 1] + ([0x2A, 0] + [])));
    assert Body(c1) == [0x25, 1, 0x27, 0, 0, 255, 255, 0x28, 1, 0x2A, 0];
    ChainIs(newId);
    var withoutId: Chain := map[0x25 := ByteE(1), 0x27 := FourByteE(65535), 0x28 := ByteE(1), 0x2A := ByteE(0)];
    assert c1 == withoutId;
    if newId.None? {
      assert ConnackChain(newId) == c1;
      assert [] + Body(c1) == Body(c1);
    } else {
      assert ConnackChain(newId) == c1[0x12 := StringE(newId.value)];
      var id := newId.value;
      AscendingOrder(0x12, StringE(id), c1);
      W.PropertyBytes(0x12, 0, |id| / 0x100, |id| % 0x100, 0, 0, id, [], 0);
    }
  }

  lemma Fixed()
    ensures EncodeProperty(Property(0x2A, ByteE(0))) == [0x2A, 0]
    ensures EncodeProperty(Property(0x28, ByteE(1))) == [0x28, 1]
    ensures EncodeProperty(Property(0x27, FourByteE(65535))) == [0x27, 0, 0, 255, 255]
    ensures EncodeProperty(Property(0x25, ByteE(1))) == [0x25, 1]
  {
  }

  lemma ChainIs(newId: Option<seq<byte>>)
    ensures ConnackChain(newId)
         == (if newId.None? then map[] else map[0x12 := StringE(newId.value)])
          + map[0x25 := ByteE(1), 0x27 := FourByteE(65535), 0x28 := ByteE(1), 0x2A := ByteE(0)]
  {
  }

  /** The first bytes, of PUBLISH as well. */
  lemma FirstByteOf(p: M.Packet)
    requires p.Publish? ==> p.topic.qos < 4
    ensures FirstFor(p) == match p
      case Publish(dup, t) => 0x30 + (if dup then 8 else 0) + 2 * t.qos
      case Ack(k, dup, _) =>
        (match k case Puback => 0x40 case Pubrec => 0x50 case Pubrel => 0x62 case Pubcomp => 0x70)
        + if dup then 8 else 0
      case Suback(_, _) => 0x90
      case Unsuback(_, _) => 0xB0
      case Connack(_, _) => 0x20
      case Pingresp => 0xD0
      case KeepAliveTimeout => 0xE0
  {
    hide FirstByte, Or;
    FirstByteIs(PUBLISH, p.Publish? && p.dup, if p.Publish? then p.topic.qos else 0);
    var dup := p.Ack? && p.dup;
    FirstByteIs(PUBACK, dup, 0);
    FirstByteIs(PUBREC, dup, 0);
    FirstByteIs(PUBREL, dup, 0);
    FirstByteIs(PUBCOMP, dup, 0);
    FirstByteIs(SUBACK, false, 0);
    FirstByteIs(UNSUBACK, false, 0);
    FirstByteIs(CONNACK, false, 0);
    FirstByteIs(PINGRESP, false, 0);
    FirstByteIs(DISCONNECT, false, 0);
    PubrelBit(0x60);
    PubrelBit(0x68);
  }

  lemma PubrelBit(first: byte)
    requires first in {0x60, 0x68}
    ensures Or(first, 2) == first + 2
  {
    OrBit(first / 2, 0, 1, 0);
    OrBit(first / 4, 0, 0, 1);
  }

  lemma ShortCodes()
    ensures V.Code(0) == [0] && V.Code(2) == [2] && V.Code(4) == [4] && V.Code(11) == [11] && V.Code(14) == [14]
  {
  }

  /** Sections 3.4 to 3.7, 3.9, 3.11, 3.13 and 3.14: the answers byte by byte. */
  lemma AnswersAre(p: M.Packet)
    requires Answer(p) && !p.Connack?
    ensures p.Ack? ==>
      var first := match p.kind case Puback => 0x40 case Pubrec => 0x50 case Pubrel => 0x62 case Pubcomp => 0x70;
      AnswerBytes(p) == [first + (if p.dup then 8 else 0), 4, p.id / 0x100, p.id % 0x100, 0, 0]
    ensures p.Suback? ==> AnswerBytes(p) == [0x90] + V.Code(3 + |p.codes|) + [p.id / 0x100, p.id % 0x100, 0] + p.codes
    ensures p.Unsuback? ==> AnswerBytes(p) == [0xB0] + V.Code(3 + |p.codes|) + [p.id / 0x100, p.id % 0x100, 0] + p.codes
    ensures p.Pingresp? ==> AnswerBytes(p) == [0xD0, 0]
    ensures p.KeepAliveTimeout? ==> AnswerBytes(p) == [0xE0, 2, 0x8D, 0]
  {
    hide FirstFor, V.Code, EncodeHeader, GetSize, HeaderFor;
    FirstByteOf(p);
    ShortCodes();
    if p.Pingresp? {
      assert [0xD0] + [0] == [0xD0, 0];
    } else {
      AnswerHeader(p);
      AnswerFitsIff(p);
    }
  }

  lemma AnswerHeader(p: M.Packet)
    requires !p.Publish? && !p.Connack? && !p.Pingresp?
    ensures EncodeHeader(HeaderFor(p)) == match p
      case Ack(_, _, id) => [id / 0x100, id % 0x100, 0, 0]
      case Suback(id, codes) => [id / 0x100, id % 0x100, 0] + codes
      case Unsuback(id, codes) => [id / 0x100, id % 0x100, 0] + codes
      case _ => [0x8D, 0]
  {
    hide EncodeChain;
    W.NoProperties();
    if p.Suback? || p.Unsuback? {
      assert Net16(p.id) + [0] == [p.id / 0x100, p.id % 0x100, 0];
    }
  }

  /** Section 3.2: CONNACK, whose assigned id comes first among its properties. */
  lemma ConnackIs(session: bool, newId: Option<seq<byte>>)
    requires newId.Some? ==> |newId.value| < 65522
    ensures var fixed := [0x25, 1, 0x27, 0, 0, 255, 255, 0x28, 1, 0x2A, 0];
      var flags, p := [if session then 1 else 0, 0], M.Connack(session, newId);
      && (newId.None? ==> AnswerBytes(p) == [0x20, 14] + flags + [11] + fixed)
      && (newId.Some? ==>
            var id, n := newId.value, 14 + |newId.value|;
            AnswerBytes(p)
            == [0x20] + V.Code(2 + |V.Code(n)| + n) + flags + V.Code(n)
               + [0x12, |id| / 0x100, |id| % 0x100] + id + fixed)
  {
    hide *;
    var c, fixed := ConnackChain(newId), [0x25, 1, 0x27, 0, 0, 255, 255, 0x28, 1, 0x2A, 0];
    var flags: seq<byte> := [if session then 1 else 0, 0];
    ConnackBody(newId);
    ConnackShape(session, newId);
    ShortCodes();
    if newId.None? {
      assert [0x20] + [14] + flags + [11] + ([] + fixed) == [0x20, 14] + flags + [11] + fixed;
    } else {
      var a, size := [0x20] + V.Code(2 + |V.Code(|Body(c)|)| + |Body(c)|) + flags + V.Code(|Body(c)|),
                     [0x12, |newId.value| / 0x100, |newId.value| % 0x100];
      assert a + (size + newId.value + fixed) == a + size + newId.value + fixed;
    }
  }

  lemma ConnackShape(session: bool, newId: Option<seq<byte>>)
    requires |Body(ConnackChain(newId))| < 0x1_0000 && (newId.Some? ==> |newId.value| < 0x1_0000)
    ensures var b := Body(ConnackChain(newId));
      AnswerBytes(M.Connack(session, newId))
      == [0x20] + V.Code(2 + |V.Code(|b|)| + |b|) + [if session then 1 else 0, 0] + V.Code(|b|) + b
  {
    hide FirstFor, V.Code, Body, ConnackChain;
    var p, n := M.Connack(session, newId), |Body(ConnackChain(newId))|;
    FirstByteOf(p);
    V.CodeLength(n, 3);
    V.Powers();
    var flags: seq<byte> := [if session then 1 else 0, 0];
    var a, c, b := [0x20] + V.Code(2 + |V.Code(n)| + n), V.Code(n), Body(ConnackChain(newId));
    assert EncodeHeader(HeaderFor(p)) == flags + (c + b);
    assert a + (flags + (c + b)) == a + flags + c + b;
  }

  /** Section 3.3: a PUBLISH as it goes out. */
  lemma PublishIs(dup: bool, t: Topics.Topic)
    requires I.SmallTopic(t) && t.qos < 4 && (t.qos == 0 <==> t.id == 0)
    ensures 0 <= PublishRemaining(I.FirstOf(t, dup), I.HeaderOf(t), t.payload) < TWO_TO_THE_32
    ensures PublishBytes(I.FirstOf(t, dup), I.HeaderOf(t), t.payload)
         == [0x30 + (if dup then 8 else 0) + 2 * t.qos]
          + V.Code(3 + |t.name| + (if t.qos == 0 then 0 else 2) + |t.payload|)
          + [|t.name| / 0x100, |t.name| % 0x100] + t.name
          + (if t.qos == 0 then [0] else [t.id / 0x100, t.id % 0x100, 0])
          + t.payload
  {
    hide I.FirstOf, V.Code, Body, QoS, EncodeHeader;
    FirstByteOf(M.Publish(dup, t));
    FlagsAre(3, if dup then 1 else 0, t.qos, 0);
    PublishFits(I.FirstOf(t, dup), I.HeaderOf(t), t.payload);
    W.HeaderBytes(t.name, |t.name| / 0x100, |t.name| % 0x100, t.id / 0x100, t.id % 0x100);
    BodyEmpty();
    ShortCodes();
    var head := EncodeFixed(I.FirstOf(t, dup), PublishRemaining(I.FirstOf(t, dup), I.HeaderOf(t), t.payload));
    var size := [|t.name| / 0x100, |t.name| % 0x100];
    var tail := if t.qos == 0 then [0] else [t.id / 0x100, t.id % 0x100, 0];
    assert EncodeHeader(I.HeaderOf(t)) == size + t.name + tail;
    assert head + (size + t.name + tail) + t.payload == head + size + t.name + tail + t.payload;
  }
}

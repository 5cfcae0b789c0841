/**
  From the bytes of a packet to a step of the broker: the dispatch over packet
  types, and what well-formed packets make the broker do.
 */
module Dispatch {
  import opened Bytes
  import opened Headers
  import opened Packets
  import opened Parsers
  import B = Broker
  import L = BrokerLoops
  import M = BrokerModel
  import R = Properties

  /**
    A packet behind its fixed header, and what else the handlers look at: the
    client's two property chains, the random id it gets if it sends none, and
    the bytes behind the binary properties of a chain that is copied.
   */
  datatype Incoming = Incoming(fd: int, first: byte, body: seq<byte>, props: R.Chain, willProps: R.Chain,
                               generated: seq<byte>, stray: R.Stray)

  /** What hash maps decide while the packet is handled. */
  datatype Schedule = Schedule(order: seq<int>, choice: M.Choice, at: nat, plan: seq<seq<seq<byte>>>,
                               holder: Option<int>)

  const NOT_READ := Back(BackOk, map[], None, None, None, [])

  /** Both halves of a CONNECT; the second is not read when the first fails. */
  function ReadConnect(p: Incoming): (ConnectFront, ConnectBack) {
    var front := ParseConnectFront(p.props, p.body);
    (front, if front.Front? then ParseConnectBack(front.flags, p.willProps, front.rest) else NOT_READ)
  }

  predicate IsAck(first: byte) {
    PUBACK <= PacketType(first) <= PUBCOMP
  }

  /** A CONNECT that is refused for its client id is not read any further. */
  predicate ConnectReadable(p: Incoming, s: M.State) {
    var (front, back) := ReadConnect(p);
    !front.FrontOverrun? && (front.Front? && !M.Refused(s, front) ==> !back.BackOverrun?)
  }

  /** No other parser reads beyond the packet. */
  predicate BodyReadable(p: Incoming) {
    var t := PacketType(p.first);
    if t == PUBLISH then ParsePublish(p.first, p.body, p.stray).Some?
    else if IsAck(p.first) then ReadId(p.body).Read?
    else if t == SUBSCRIBE then ParseSubscribe(p.body).Some?
    else if t == UNSUBSCRIBE then ParseUnsubscribe(p.body).Some?
    else true
  }

  predicate Readable(p: Incoming, s: M.State) {
    BodyReadable(p) && (PacketType(p.first) == CONNECT ==> ConnectReadable(p, s))
  }

  /** The step a packet asks for; packet types without a handler ask for none. */
  function Requested(p: Incoming, s: Schedule): Option<M.Action>
    requires BodyReadable(p)
  {
    var t := PacketType(p.first);
    if t == CONNECT then Some(M.Connect(p.fd, ReadConnect(p).0, ReadConnect(p).1, s.holder, p.generated))
    else if t == PUBLISH then
      var m := ParsePublish(p.first, p.body, p.stray).value;
      Some(M.PublishIn(p.fd, QoS(p.first), IsRetain(p.first), m.id, m.topic, m.payload, s.order, s.choice, s.at))
    else if t == PUBACK then Some(M.PubackIn(p.fd, ReadId(p.body).value))
    else if t == PUBREC then Some(M.PubrecIn(p.fd, ReadId(p.body).value))
    else if t == PUBREL then Some(M.PubrelIn(p.fd, ReadId(p.body).value, s.order, s.choice))
    else if t == PUBCOMP then Some(M.PubcompIn(p.fd, ReadId(p.body).value))
    else if t == SUBSCRIBE then
      var l := ParseSubscribe(p.body).value;
      Some(M.Subscribe(p.fd, l.id, l.items, s.plan))
    else if t == UNSUBSCRIBE then
      var l := ParseUnsubscribe(p.body).value;
      Some(M.Unsubscribe(p.fd, l.id, l.items))
    else if t == PINGREQ then Some(M.Ping(p.fd))
    else if t == DISCONNECT then Some(M.Disconnect(p.fd))
    else None
  }

  lemma ConnectIdNotEmpty(p: Incoming)
    ensures var front := ReadConnect(p).0; front.Front? && front.id.Some? ==> front.id.value != []
  {
    hide ParseConnectBack, ReadChain;
  }

  /** `MqttPacketHandler::HandlePacket`: ok means that the connection is kept. */
  method HandlePacket(broker: B.Broker, p: Incoming) returns (ok: bool, ghost s: Schedule)
    requires broker.Valid() && p.fd in broker.clients && Readable(p, broker.Abs())
    requires p.generated != [] && M.ValidHolder(broker.Abs(), p.generated, None)
    modifies broker, broker.clients.Values
    ensures broker.Valid()
    ensures match Requested(p, s)
      case Some(a) => M.Enabled(old(broker.Abs()), a) && broker.Abs() == M.Step(old(broker.Abs()), a)
      case None => broker.Abs() == old(broker.Abs())
    ensures ok <==> match Requested(p, s)
      case None => false
      case Some(Connect(_, front, back, holder, _)) => M.Accepted(front, back, holder)
      case Some(a) => !a.Disconnect?
  {
    hide M.Step, M.Enabled, M.ValidHolder, M.Accepted, M.Refused, ReadConnect, ParsePublish, ParseSubscribe,
         ParseUnsubscribe, ReadId;
    var t := PacketType(p.first);
    ok, s := true, Schedule([], map[], 0, [], None);
    AlwaysEnabled(broker.Abs(), p);
    if t == CONNECT {
      ConnectIdNotEmpty(p);
      var (front, back) := ReadConnect(p);
      ghost var holder;
      ok, holder := broker.HandleConnect(p.fd, front, back, p.generated);
      s := s.(holder := holder);
    } else if t == PUBLISH {
      var m := ParsePublish(p.first, p.body, p.stray).value;
      ghost var order, choice, at :=
        broker.HandlePublish(p.fd, QoS(p.first), IsRetain(p.first), m.id, m.topic, m.payload);
      s := s.(order := order, choice := choice, at := at);
    } else if t == PUBACK {
      broker.HandlePuback(p.fd, ReadId(p.body).value);
    } else if t == PUBREC {
      broker.HandlePubrec(p.fd, ReadId(p.body).value);
    } else if t == PUBREL {
      ghost var order, choice := broker.HandlePubrel(p.fd, ReadId(p.body).value);
      s := s.(order := order, choice := choice);
    } else if t == PUBCOMP {
      broker.HandlePubcomp(p.fd, ReadId(p.body).value);
    } else if t == SUBSCRIBE {
      var l := ParseSubscribe(p.body).value;
      ghost var plan := broker.HandleSubscribe(p.fd, l.id, l.items);
      s := s.(plan := plan);
    } else if t == UNSUBSCRIBE {
      var l := ParseUnsubscribe(p.body).value;
      broker.HandleUnsubscribe(p.fd, l.id, l.items);
    } else if t == PINGREQ {
      broker.HandlePing(p.fd);
    } else {
      ok := false;
      DisconnectDoesNothing(broker.Abs(), p.fd);
    }
  }

  lemma AlwaysEnabled(s: M.State, p: Incoming)
    requires p.fd in s.clients && BodyReadable(p)
    ensures forall k :: var a := Requested(p, k);
      a.Some? && !a.value.Connect? && !a.value.PublishIn? && !a.value.Subscribe? && !a.value.PubrelIn?
      ==> M.Enabled(s, a.value)
  {
  }

  lemma DisconnectDoesNothing(s: M.State, fd: int)
    requires fd in s.clients
    ensures M.Enabled(s, M.Disconnect(fd)) && M.Step(s, M.Disconnect(fd)) == s
  {
  }

  /**
    Section 2.1.2 of MQTT 5.0, for every packet that can be read: which packet
    type asks for which step, and which ask for none.  An acknowledgement asks
    for its packet id, the first two bytes behind the fixed header.
   */
  lemma TypesRequest(p: Incoming, s: Schedule)
    requires BodyReadable(p)
    ensures var t, r := p.first / 16, Requested(p, s);
      && (t == 1 <==> r.Some? && r.value.Connect?)
      && (t == 3 <==> r.Some? && r.value.PublishIn?)
      && (t == 4 <==> r.Some? && r.value.PubackIn?)
      && (t == 5 <==> r.Some? && r.value.PubrecIn?)
      && (t == 6 <==> r.Some? && r.value.PubrelIn?)
      && (t == 7 <==> r.Some? && r.value.PubcompIn?)
      && (t == 8 <==> r.Some? && r.value.Subscribe?)
      && (t == 10 <==> r.Some? && r.value.Unsubscribe?)
      && (t == 12 <==> r.Some? && r.value.Ping?)
      && (t == 14 <==> r.Some? && r.value.Disconnect?)
      && (t in {0, 2, 9, 11, 13, 15} <==> r.None?)
      && (r.Some? ==> !r.value.AddClient? && !r.value.Tick? && !r.value.Postpone? && r.value.fd == p.fd)
      && (4 <= t <= 7 ==> |p.body| >= 2 && r.value.id == (p.body[0] as int) * 0x100 + p.body[1])
      && (t == 3 ==> r.value.qos == p.first / 2 % 4 && r.value.retain == (p.first % 2 == 1))
  {
    hide ParsePublish, ParseSubscribe, ParseUnsubscribe, ReadConnect;
  }

  // ---------------------------------------------------------------- well-formed packets

  /** A PUBLISH built by the broker's own serializer asks for exactly its message to be published. */
  lemma PublishRequests(p: Incoming, s: Schedule, topic: seq<byte>, id: u16, c: R.Chain, payload: seq<byte>)
    requires PacketType(p.first) == PUBLISH && p.body == EncodeHeader(PublishH(topic, id, c)) + payload
    requires |topic| < 0x1_0000 && |payload| < 0x1_0000 && R.WellformedChain(c) && (QoS(p.first) == 0 <==> id == 0)
    ensures BodyReadable(p)
    ensures Requested(p, s)
         == Some(M.PublishIn(p.fd, QoS(p.first), IsRetain(p.first), id, topic, payload, s.order, s.choice, s.at))
  {
    hide EncodeHeader, ParsePublish, QoS, IsRetain;
    PublishBodyRoundTrip(p.first, topic, id, c, payload, p.stray);
  }

  lemma SubscribeRequests(p: Incoming, s: Schedule, id: u16, c: R.Chain, fs: seq<Filter>)
    requires PacketType(p.first) == SUBSCRIBE && p.body == EncodeHeader(SubscribeH(id, c)) + EncodeFilters(fs)
    requires id != 0 && R.WellformedChain(c) && forall f :: f in fs ==> |f.name| < 0x1_0000
    ensures BodyReadable(p) && Requested(p, s) == Some(M.Subscribe(p.fd, id, fs, s.plan))
  {
    hide EncodeHeader, EncodeFilters, ParseSubscribe;
    SubscribeRoundTrip(id, c, fs);
  }

  lemma UnsubscribeRequests(p: Incoming, s: Schedule, id: u16, c: R.Chain, ns: seq<seq<byte>>)
    requires PacketType(p.first) == UNSUBSCRIBE && p.body == EncodeHeader(UnsubscribeH(id, c)) + EncodeNames(ns)
    requires R.WellformedChain(c) && forall n :: n in ns ==> |n| < 0x1_0000
    ensures BodyReadable(p) && Requested(p, s) == Some(M.Unsubscribe(p.fd, id, ns))
  {
    hide EncodeHeader, EncodeNames, ParseUnsubscribe;
    UnsubscribeRoundTrip(id, c, ns);
  }

  /** Of an acknowledgement only the packet id is read. */
  lemma AckRequests(p: Incoming, s: Schedule, id: u16, reason: byte, c: R.Chain)
    requires IsAck(p.first) && p.body == EncodeHeader(PubackH(id, reason, c))
    ensures BodyReadable(p)
    ensures var t := PacketType(p.first);
      Requested(p, s) == Some(if t == PUBACK then M.PubackIn(p.fd, id)
                              else if t == PUBREC then M.PubrecIn(p.fd, id)
                              else if t == PUBREL then M.PubrelIn(p.fd, id, s.order, s.choice)
                              else M.PubcompIn(p.fd, id))
  {
    hide Net16, R.EncodeChain, Host16;
    assert p.body == Net16(id) + ([reason] + R.EncodeChain(c));
    ReadIdRoundTrip(id, [reason] + R.EncodeChain(c));
  }

  /** A CONNECT is accepted, with every field, unless it wants an id in use without a clean start. */
  lemma ConnectRequests(p: Incoming, s: Schedule, m: ConnectMessage, before: M.State)
    requires PacketType(p.first) == CONNECT && p.body == EncodeConnect(m) && WellformedConnect(m)
    ensures Readable(p, before) && Requested(p, s).Some? && Requested(p, s).value.Connect?
    ensures var a := Requested(p, s).value;
      && a.fd == p.fd && a.holder == s.holder && a.generated == p.generated
      && a.front == Front(m.flags, m.alive, R.Replaced(p.props, m.props), if m.id == [] then None else Some(m.id),
                          ConnectTail(m))
      && a.back == Back(BackOk, WillProps(p.willProps, m.will), WillTopic(m.flags, m.will), m.user, m.pwd, [])
      && (M.Accepted(a.front, a.back, a.holder) <==> m.id == [] || s.holder.None? || CleanFlag(m.flags))
      && ((m.id != [] ==> M.ValidHolder(before, m.id, s.holder)) ==>
            (M.Accepted(a.front, a.back, a.holder) <==> !M.Refused(before, a.front)))
  {
    hide EncodeConnect, ParseConnectFront, ParseConnectBack, ConnectTail, WellformedConnect, CleanFlag, WillTopic;
    ConnectRoundTrip(p.props, p.willProps, m);
    if m.id != [] ==> M.ValidHolder(before, m.id, s.holder) {
      L.RefusedIsRejected(before, ReadConnect(p).0, s.holder);
    }
  }
}

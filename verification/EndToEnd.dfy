/** From the bytes one client sends to the bytes another one reads. */
module EndToEnd {
  import opened Bytes
  import opened Topics
  import opened Headers
  import opened Packets
  import opened Parsers
  import opened Dispatch
  import opened Deliveries
  import opened BrokerIndex
  import opened BrokerIds
  import opened BrokerLoops
  import opened BrokerEffects
  import M = BrokerModel
  import Q = BrokerQos2
  import R = Properties

  /** A client reads the PUBLISH off its connection, to the last byte, as the message and nothing else. */
  predicate ReadsAs(t: Topic, dup: bool, name: Str, payload: seq<byte>, stray: R.Stray, rest: seq<byte>)
    requires SmallTopic(t)
  {
    PublishFits(FirstOf(t, dup), HeaderOf(t), t.payload);
    var body := EncodeHeader(HeaderOf(t)) + t.payload;
    && ReadFixed(PublishBytes(FirstOf(t, dup), HeaderOf(t), t.payload) + rest)
       == FixedRead(FirstOf(t, dup), |body|, body + rest)
    && FirstOf(t, dup) == 0x30 + (if dup then 8 else 0) + 2 * t.qos
    && QoS(FirstOf(t, dup)) == t.qos && IsDup(FirstOf(t, dup)) == dup
    && ParsePublish(FirstOf(t, dup), body, stray) == Some(PublishMessage(name, t.id, map[], payload))
  }

  /**
    The message has got to one connection, and d is its delivery: there is one
    exactly if the client has a matching filter; then one packet is put out or,
    if its client's queue is in use, postponed; and the bytes of either read back
    as the message unless the packet id has wrapped to 0.
   */
  predicate Reached(s: M.State, s': M.State, fd: int, name: Str, payload: seq<byte>, d: Option<M.Delivery>,
                    stray: R.Stray, rest: seq<byte>)
    requires fd in s.clients
  {
    && (d.Some? ==> d.value.fd == fd) && Due(s.clients[fd], fd, name, payload, d)
    && SeenBy(s, s', fd, d)
    && (DistinctIds(s) && s.clients[fd].id != [] ==> QueuedFor(s, s', fd, d))
    && (d.Some? && (d.value.qos > 0 ==> s.clients[fd].gen != 0) ==>
          var t := M.Numbered(s.clients[fd], d.value);
          SmallTopic(t) && ReadsAs(t, M.Postpones(s, d.value), name, payload, stray, rest))
  }

  /** Every fan-out reaches every connection so. */
  lemma FanOutReaches(s: M.State, name: Str, payload: seq<byte>, order: seq<int>, choice: M.Choice, fd: int,
                      stray: R.Stray, rest: seq<byte>) returns (d: Option<M.Delivery>)
    requires Indexed(s) && fd in s.clients && M.ValidFanOut(s, name, order, choice)
    requires |name| < 0x1_0000 && |payload| < 0x1_0000
    ensures M.Chosen(s.clients, choice) && M.AllTo(M.FanOut(s.clients, name, payload, order, choice), s.clients.Keys)
    ensures Reached(s, M.DeliverAll(s, M.FanOut(s.clients, name, payload, order, choice)), fd, name, payload, d, stray,
                    rest)
  {
    hide SeenBy, QueuedFor, Due, LiveMatch, M.FanOut, M.DeliverAll, M.Postpones, DistinctIds, Indexed,
         EncodeHeader, ParsePublish, PublishBytes, ReadFixed, QoS, IsDup, FirstByte;
    d := OnePublishEach(s, name, payload, order, choice, fd);
    if d.Some? && (d.value.qos > 0 ==> s.clients[fd].gen != 0) {
      DueMessage(s.clients[fd], fd, name, payload, d);
      FirstByteIs(3, M.Postpones(s, d.value), d.value.qos);
      DeliveredAsSent(M.Numbered(s.clients[fd], d.value), M.Postpones(s, d.value), stray, rest);
    }
  }

  lemma DueMessage(c: M.Client, fd: int, name: Str, payload: seq<byte>, d: Option<M.Delivery>)
    requires d.Some? && Due(c, fd, name, payload, d)
    ensures d.value.name == name && d.value.payload == payload && d.value.qos < 4
  {
  }

  /** Only the stored messages differ. */
  lemma ReachedStored(s: M.State, s1: M.State, s2: M.State, fd: int, name: Str, payload: seq<byte>,
                      d: Option<M.Delivery>, stray: R.Stray, rest: seq<byte>)
    requires fd in s.clients && Reached(s, s1, fd, name, payload, d, stray, rest)
    requires s2 == s1.(stored := s2.stored)
    ensures Reached(s, s2, fd, name, payload, d, stray, rest)
  {
    hide Due, ReadsAs, DistinctIds, M.Postpones;
  }

  lemma SameIndex(s: M.State, s1: M.State)
    requires Indexed(s) && s1.clients == s.clients && s1.subscribed == s.subscribed
    ensures Indexed(s1)
  {
  }

  function For(packets: seq<M.Packet>, sender: int, fd: int): seq<M.Packet> {
    if fd == sender then packets else []
  }

  lemma PacketsForMore(out: seq<M.Cmd>, cs: seq<M.Cmd>, fd: int)
    requires |cs| <= 2
    ensures PacketsFor(out + cs, fd)
         == PacketsFor(out, fd) + (if |cs| > 0 && cs[0].fd == fd then [cs[0].packet] else [])
            + (if |cs| > 1 && cs[1].fd == fd then [cs[1].packet] else [])
  {
    hide PacketsFor;
    if |cs| == 0 {
      assert out + cs == out;
    } else if |cs| == 1 {
      assert out + cs == out + [cs[0]];
      PacketsForSnoc(out, cs[0], fd);
    } else {
      assert out + cs == out + [cs[0]] + [cs[1]];
      PacketsForSnoc(out, cs[0], fd);
      PacketsForSnoc(out + [cs[0]], cs[1], fd);
    }
  }

  /** The packets of a connection after an answer to the sender and a message to everybody. */
  lemma SeenAfterAnswer(s: M.State, s1: M.State, s2: M.State, answer: seq<M.Cmd>, sender: int, packets: seq<M.Packet>,
                        fd: int, d: Option<M.Delivery>)
    requires |answer| == |packets| <= 2
    requires forall i :: 0 <= i < |answer| ==> answer[i] == M.Cmd(sender, packets[i])
    requires s1.out == s.out + answer && fd in s1.clients && (d.Some? ==> d.value.fd == fd) && SeenBy(s1, s2, fd, d)
    ensures PacketsFor(s2.out, fd) == PacketsFor(s.out, fd) + For(packets, sender, fd) + SentTo(s1, fd, d)
  {
    hide PacketsFor, SentTo;
    PacketsForMore(s.out, answer, fd);
    var before := PacketsFor(s.out, fd);
    if |packets| == 0 {
      assert before + [] + [] == before + For(packets, sender, fd);
    } else if |packets| == 1 {
      assert packets == [packets[0]];
      assert before + For(packets, sender, fd) + [] == before + For(packets, sender, fd);
    } else if fd == sender {
      assert packets == [packets[0]] + [packets[1]];
      assert before + [packets[0]] + [packets[1]] == before + packets;
    } else {
      assert before + [] + [] == before + [];
    }
  }

  /**
    A well-formed PUBLISH comes in as bytes, not at QoS 2.  At QoS 1 its sender
    is put out the PUBACK; with RETAIN the message is kept under its name; and
    then it reaches every connection.
   */
  lemma PublishReaches(s: M.State, p: Incoming, sch: Schedule, name: Str, id: u16, c: R.Chain, payload: seq<byte>,
                       fd: int, stray: R.Stray, rest: seq<byte>) returns (s1: M.State, d: Option<M.Delivery>)
    requires Indexed(s) && p.fd in s.clients && fd in s.clients && M.ValidFanOut(s, name, sch.order, sch.choice)
    requires PacketType(p.first) == 3 && QoS(p.first) != 2 && (QoS(p.first) == 0 <==> id == 0)
    requires p.body == EncodeHeader(PublishH(name, id, c)) + payload
    requires |name| < 0x1_0000 && |payload| < 0x1_0000 && R.WellformedChain(c)
    ensures BodyReadable(p) && Requested(p, sch).Some? && M.Enabled(s, Requested(p, sch).value)
    ensures var s', qos := M.Step(s, Requested(p, sch).value), QoS(p.first);
      var answer := if qos == 1 then [M.Ack(M.Puback, false, id)] else [];
      && s1 == s.(retained := s'.retained, out := s1.out)
      && Reached(s1, s', fd, name, payload, d, stray, rest)
      && PacketsFor(s'.out, fd) == PacketsFor(s.out, fd) + For(answer, p.fd, fd) + SentTo(s1, fd, d)
      && s'.retained == Retaining(s, p.first % 2 == 1, qos, id, name, payload)
  {
    hide EncodeHeader, Reached, PacketsFor, QoS, M.Step, M.Enabled, M.FanOut, M.DeliverAll, M.ValidFanOut, SentTo, For,
         R.WellformedChain, Indexed, Requested, BodyReadable, Retaining, Due, QueuedFor, ReadsAs;
    var qos := PublishAsks(p, sch, name, id, c, payload);
    s1 := PublishEffect(s, p.fd, qos, IsRetain(p.first), id, name, payload, sch.order, sch.choice, sch.at);
    SameIndex(s, s1);
    FanOutAlike(s, s1, name, sch.order, sch.choice);
    d := FanOutReaches(s1, name, payload, sch.order, sch.choice, fd, stray, rest);
    ReachedSeen(s1, M.Step(s, Requested(p, sch).value), fd, name, payload, d, stray, rest);
    var answer := if qos == 1 then [M.Ack(M.Puback, false, id)] else [];
    SeenAfterAnswer(s, s1, M.Step(s, Requested(p, sch).value), if qos == 1 then [M.Cmd(p.fd, answer[0])] else [], p.fd,
                    answer, fd, d);
  }

  lemma PublishAsks(p: Incoming, sch: Schedule, name: Str, id: u16, c: R.Chain, payload: seq<byte>) returns (qos: byte)
    requires PacketType(p.first) == 3 && (QoS(p.first) == 0 <==> id == 0)
    requires p.body == EncodeHeader(PublishH(name, id, c)) + payload
    requires |name| < 0x1_0000 && |payload| < 0x1_0000 && R.WellformedChain(c)
    ensures qos == QoS(p.first) < 4 && BodyReadable(p)
    ensures Requested(p, sch)
         == Some(M.PublishIn(p.fd, qos, p.first % 2 == 1, id, name, payload, sch.order, sch.choice, sch.at))
  {
    hide EncodeHeader, Requested, BodyReadable, R.WellformedChain;
    qos := QoS(p.first);
    PublishRequests(p, sch, name, id, c, payload);
  }

  lemma ReachedSeen(s: M.State, s': M.State, fd: int, name: Str, payload: seq<byte>, d: Option<M.Delivery>,
                    stray: R.Stray, rest: seq<byte>)
    requires fd in s.clients && Reached(s, s', fd, name, payload, d, stray, rest)
    ensures (d.Some? ==> d.value.fd == fd) && SeenBy(s, s', fd, d)
  {
  }

  /**
    A well-formed PUBLISH at QoS 2 whose id is not in use: it is stored under
    it and reaches nobody yet, and its sender gets one PUBREC with the id, put
    out or, if its queue is in use, queued.
   */
  lemma Qos2Waits(s: M.State, p: Incoming, sch: Schedule, name: Str, id: u16, c: R.Chain, payload: seq<byte>)
    requires p.fd in s.clients && Q.Waiting(s, s.clients[p.fd].id, id) == []
    requires sch.at <= |M.Stored(s, s.clients[p.fd].id)|
    requires PacketType(p.first) == 3 && QoS(p.first) == 2 && id != 0
    requires p.body == EncodeHeader(PublishH(name, id, c)) + payload
    requires |name| < 0x1_0000 && |payload| < 0x1_0000 && R.WellformedChain(c)
    ensures BodyReadable(p) && Requested(p, sch).Some? && M.Enabled(s, Requested(p, sch).value)
    ensures var s', cid := M.Step(s, Requested(p, sch).value), s.clients[p.fd].id;
      && s' == s.(stored := s'.stored, retained := s'.retained, out := s'.out, postponed := s'.postponed)
      && Q.Waiting(s', cid, id) == [Topic(2, id, name, payload)]
      && s'.retained == Retaining(s, p.first % 2 == 1, 2, id, name, payload)
      && s'.out == s.out + (if M.Queue(s, cid) == [] then [M.Cmd(p.fd, M.Ack(M.Pubrec, false, id))] else [])
      && M.Queue(s', cid)
         == M.Queue(s, cid) + (if M.Queue(s, cid) == [] then [] else [M.Event(M.Ack(M.Pubrec, true, id), id)])
  {
    hide EncodeHeader, QoS, M.Step, M.Enabled, M.Queue, R.WellformedChain, Q.Waiting, M.Stored, Requested, BodyReadable,
         Retaining;
    var qos := PublishAsks(p, sch, name, id, c, payload);
    var a, cid := Requested(p, sch).value, s.clients[p.fd].id;
    Qos2Effect(s, p.fd, p.first % 2 == 1, id, name, payload, sch.order, sch.choice, sch.at);
    TakenAtQos2(s, a);
    TakenInWaits(s, a, cid, id);
  }

  lemma TakenAtQos2(s: M.State, a: M.Action)
    requires M.Enabled(s, a) && a.PublishIn? && a.qos == 2
    ensures Q.TakenIn(s, a, s.clients[a.fd].id, a.id) == [Topic(2, a.id, a.name, a.payload)]
    ensures Q.LetOut(s, a, s.clients[a.fd].id, a.id) == []
  {
  }

  lemma TakenInWaits(s: M.State, a: M.Action, cid: Str, id: u16)
    requires M.Enabled(s, a) && Q.Waiting(s, cid, id) == [] && Q.LetOut(s, a, cid, id) == []
    ensures Q.Waiting(M.Step(s, a), cid, id) == Q.TakenIn(s, a, cid, id)
  {
    hide M.Enabled, M.Step, Q.Waiting, Q.TakenIn, Q.LetOut, Q.Bag;
    Q.StepConserves(s, a, cid, id);
    assert [] + Q.Waiting(M.Step(s, a), cid, id) == Q.Waiting(M.Step(s, a), cid, id);
    assert [] + Q.TakenIn(s, a, cid, id) == Q.TakenIn(s, a, cid, id);
  }

  /** The front of a queue, as packets. */
  function FrontPacket(q: seq<M.Event>): seq<M.Packet> {
    if q == [] then [] else [q[0].packet]
  }

  /**
    A PUBREL comes in as bytes while a message waits under its id.  Its sender
    is put out the PUBCOMP, and then the front of its queue without that id, if
    there is one; then the waiting message reaches every connection, and nothing
    waits under the id any more.
   */
  lemma PubrelReaches(s: M.State, p: Incoming, sch: Schedule, id: u16, reason: byte, c: R.Chain, t: Topic, fd: int,
                      stray: R.Stray, rest: seq<byte>) returns (s1: M.State, d: Option<M.Delivery>)
    requires Indexed(s) && p.fd in s.clients && fd in s.clients && M.ValidFanOut(s, t.name, sch.order, sch.choice)
    requires PacketType(p.first) == 6 && p.body == EncodeHeader(PubackH(id, reason, c))
    requires Q.Waiting(s, s.clients[p.fd].id, id) == [t] && SmallTopic(t)
    ensures BodyReadable(p) && Requested(p, sch).Some? && M.Enabled(s, Requested(p, sch).value)
    ensures var s', cid := M.Step(s, Requested(p, sch).value), s.clients[p.fd].id;
      var q := M.RemoveId(M.Queue(s, cid), id);
      && s1 == s.(postponed := s1.postponed, out := s1.out) && OneQueue(s, s1, cid, q)
      && Reached(s1, s', fd, t.name, t.payload, d, stray, rest)
      && PacketsFor(s'.out, fd)
         == PacketsFor(s.out, fd) + For([M.Ack(M.Pubcomp, false, id)] + FrontPacket(q), p.fd, fd) + SentTo(s1, fd, d)
      && Q.Waiting(s', cid, id) == []
  {
    hide EncodeHeader, Reached, M.Step, M.Enabled, M.FanOut, M.DeliverAll, M.ValidFanOut, Indexed, M.RemoveId,
         Q.Waiting, Requested, BodyReadable, PacketsFor, SentTo, For, OneQueue, M.Queue, Due, QueuedFor, ReadsAs;
    PubrelAsks(s, p, sch, id, reason, c, t);
    var s', cid := M.Step(s, Requested(p, sch).value), s.clients[p.fd].id;
    var q := M.RemoveId(M.Queue(s, cid), id);
    s1 := PubrelEffect(s, p.fd, id, sch.order, sch.choice);
    SameIndex(s, s1);
    FanOutAlike(s, s1, t.name, sch.order, sch.choice);
    d := FanOutReaches(s1, t.name, t.payload, sch.order, sch.choice, fd, stray, rest);
    var s2 := M.DeliverAll(s1, M.FanOut(s1.clients, t.name, t.payload, sch.order, sch.choice));
    ReachedStored(s1, s2, s', fd, t.name, t.payload, d, stray, rest);
    ReachedSeen(s1, s', fd, t.name, t.payload, d, stray, rest);
    var packets := [M.Ack(M.Pubcomp, false, id)] + FrontPacket(q);
    var answer := [M.Cmd(p.fd, M.Ack(M.Pubcomp, false, id))] + FrontCmd(p.fd, q);
    assert s.out + [M.Cmd(p.fd, M.Ack(M.Pubcomp, false, id))] + FrontCmd(p.fd, q) == s.out + answer;
    SeenAfterAnswer(s, s1, s', answer, p.fd, packets, fd, d);
    assert [t][1..] == [];
  }

  lemma PubrelAsks(s: M.State, p: Incoming, sch: Schedule, id: u16, reason: byte, c: R.Chain, t: Topic)
    requires p.fd in s.clients && M.ValidFanOut(s, t.name, sch.order, sch.choice)
    requires PacketType(p.first) == 6 && p.body == EncodeHeader(PubackH(id, reason, c))
    requires Q.Waiting(s, s.clients[p.fd].id, id) == [t]
    ensures BodyReadable(p) && Requested(p, sch) == Some(M.PubrelIn(p.fd, id, sch.order, sch.choice))
    ensures M.Enabled(s, M.PubrelIn(p.fd, id, sch.order, sch.choice))
  {
    hide EncodeHeader, Requested, BodyReadable, M.ValidFanOut, M.Find, Q.Having;
    AckRequests(p, sch, id, reason, c);
    Q.FindAndRemove(M.Stored(s, s.clients[p.fd].id), id, id);
  }

  // ---------------------------------------------------------------- retained messages

  /** The SUBSCRIBE is sent the message of that name at those options. */
  predicate SentRetained(ps: seq<M.Packet>, from: nat, options: byte, name: Str, payload: seq<byte>) {
    exists k :: from <= k < |ps| && Carries(ps[k], M.Delivery(0, options, name, payload))
  }

  /**
    A SUBSCRIBE comes in as bytes while a message is retained that one of its
    filters matches, and nothing is postponed for the client: behind the SUBACK
    it is put out the message, at the options of that filter.
   */
  lemma RetainedReaches(s: M.State, p: Incoming, sch: Schedule, id: u16, c: R.Chain, fs: seq<Filter>, i: nat, name: Str)
    requires p.fd in s.clients && M.Queue(s, s.clients[p.fd].id) == [] && M.ValidPlan(s.retained, fs, sch.plan)
    requires PacketType(p.first) == 8 && p.body == EncodeHeader(SubscribeH(id, c)) + EncodeFilters(fs)
    requires id != 0 && R.WellformedChain(c) && forall f :: f in fs ==> |f.name| < 0x1_0000
    requires i < |fs| && name in s.retained && RetainedMatch(fs[i].name, name)
    ensures BodyReadable(p) && Requested(p, sch).Some? && M.Enabled(s, Requested(p, sch).value)
    ensures var s', n := M.Step(s, Requested(p, sch).value), |PacketsFor(s.out, p.fd)|;
      var ps, t := PacketsFor(s'.out, p.fd), s.retained[name];
      && |ps| > n && ps[..n] == PacketsFor(s.out, p.fd) && ps[n] == M.Suback(id, seq(|fs|, _ => 2))
      && SentRetained(ps, n + 1, fs[i].options, t.name, t.payload)
  {
    hide EncodeHeader, EncodeFilters, M.Step, PacketsFor, RetainedMatch, R.WellformedChain, Requested, BodyReadable,
         M.Queue, SentRetained;
    SubscribeRequests(p, sch, id, c, fs);
    RetainedGoesOut(s, p.fd, id, fs, sch.plan, i, name);
  }

  lemma RetainedGoesOut(s: M.State, fd: int, id: u16, fs: seq<Filter>, plan: seq<seq<Str>>, i: nat, name: Str)
    requires fd in s.clients && M.Queue(s, s.clients[fd].id) == [] && M.ValidPlan(s.retained, fs, plan)
    requires i < |fs| && name in s.retained && RetainedMatch(fs[i].name, name)
    ensures var s', n := M.Step(s, M.Subscribe(fd, id, fs, plan)), |PacketsFor(s.out, fd)|;
      var ps, t := PacketsFor(s'.out, fd), s.retained[name];
      && |ps| > n && ps[..n] == PacketsFor(s.out, fd) && ps[n] == M.Suback(id, seq(|fs|, _ => 2))
      && SentRetained(ps, n + 1, fs[i].options, t.name, t.payload)
  {
    hide M.Step, PacketsFor, RetainedMatch, M.Queue, Carries, Subscribed, SameButGen, M.ValidPlan, SentRetained,
         RetainedMessage, Offset;
    var ds := SubscribeEffect(s, fd, id, fs, plan);
    assert name in plan[i];
    var j :| 0 <= j < |plan[i]| && plan[i][j] == name;
    assert RetainedMessage(s.retained, fd, fs, plan, ds, i, j);
    SentAmong(s.retained, fd, fs, plan, ds, i, j, PacketsFor(s.out, fd), M.Suback(id, seq(|fs|, _ => 2)),
              PacketsFor(M.Step(s, M.Subscribe(fd, id, fs, plan)).out, fd));
  }

  lemma SentAmong(retained: map<Str, Topic>, fd: int, fs: seq<Filter>, plan: seq<seq<Str>>, ds: seq<M.Delivery>, i: nat,
                  j: nat, before: seq<M.Packet>, ack: M.Packet, ps: seq<M.Packet>)
    requires |plan| == |fs| && i < |plan| && j < |plan[i]| && RetainedMessage(retained, fd, fs, plan, ds, i, j)
    requires |ps| == |before| + 1 + |ds| && ps[..|before| + 1] == before + [ack]
    requires forall k :: 0 <= k < |ds| ==> Carries(ps[|before| + 1 + k], ds[k])
    ensures ps[..|before|] == before && ps[|before|] == ack
    ensures var t := retained[plan[i][j]]; SentRetained(ps, |before| + 1, fs[i].options, t.name, t.payload)
  {
    hide Carries;
    var k, n := Offset(plan, i) + j, |before|;
    assert Carries(ps[n + 1 + k], ds[k]);
    AnyConnection(ps[n + 1 + k], ds[k]);
    assert ps[n] == ps[..n + 1][n] && ps[..n] == ps[..n + 1][..n];
  }

  lemma AnyConnection(p: M.Packet, d: M.Delivery)
    ensures Carries(p, d) <==> Carries(p, M.Delivery(0, d.qos, d.name, d.payload))
  {
  }

  // ---------------------------------------------------------------- wills

  /**
    A CONNECT composed from m comes in as bytes and is not refused.  The client
    it leaves, if it has not taken itself over, has m's flags, m's id or the
    generated one, and m's will; its subscriptions and its packet ids are as
    before; and it is put out a CONNACK.
   */
  lemma ConnectLeaves(s: M.State, p: Incoming, sch: Schedule, m: ConnectMessage)
    requires p.fd in s.clients && p.generated != [] && M.ValidHolder(s, p.generated, None)
    requires PacketType(p.first) == 1 && p.body == EncodeConnect(m) && WellformedConnect(m)
    requires m.id != [] ==> M.ValidHolder(s, m.id, sch.holder)
    requires m.id == [] || sch.holder.None? || m.flags / 2 % 2 == 1
    ensures Readable(p, s) && Requested(p, sch).Some? && M.Enabled(s, Requested(p, sch).value)
    ensures var s', was, taken := M.Step(s, Requested(p, sch).value), s.clients[p.fd], m.id != [] && sch.holder.Some?;
      && (taken ==> sch.holder.value !in s'.clients)
      && (!(taken && sch.holder.value == p.fd) ==>
            && p.fd in s'.clients
            && var c := s'.clients[p.fd];
            && c.flags == m.flags && c.id == (if m.id == [] then p.generated else m.id)
            && (m.will.Some? ==> c.will == M.Message(m.will.value.topic, m.will.value.payload))
            && c.subs == was.subs && c.gen == was.gen)
      && s'.out
         == s.out + [M.Cmd(p.fd, M.Connack(m.flags / 2 % 2 == 0,
                                           if m.id == [] then Some(p.generated)
                                           else if was.randomId then Some(m.id) else None))]
  {
    hide EncodeConnect, WellformedConnect, ConnectTail, M.Step, M.ValidHolder, Requested, BodyReadable, ConnectReadable;
    ConnectRequests(p, sch, m, s);
    var a := Requested(p, sch).value;
    ConnectAllowed(s, p, sch, m);
    ConnectEffect(s, p.fd, a.front, a.back, a.holder, a.generated);
  }

  lemma ConnectAllowed(s: M.State, p: Incoming, sch: Schedule, m: ConnectMessage)
    requires p.fd in s.clients && p.generated != [] && M.ValidHolder(s, p.generated, None)
    requires PacketType(p.first) == 1 && p.body == EncodeConnect(m) && WellformedConnect(m)
    requires m.id != [] ==> M.ValidHolder(s, m.id, sch.holder)
    requires m.id == [] || sch.holder.None? || m.flags / 2 % 2 == 1
    ensures Readable(p, s) && Requested(p, sch).Some? && M.Enabled(s, Requested(p, sch).value)
    ensures var a := Requested(p, sch).value; a.Connect? && !IdTaken(s, a.front)
  {
    hide EncodeConnect, WellformedConnect, ConnectTail, Requested, BodyReadable, ConnectReadable;
    ConnectRequests(p, sch, m, s);
  }

  /**
    From the bytes of a CONNECT with a will to the bytes of that will: however
    the run goes on, if the connection is lost while the client is still
    registered and has sent no further CONNECT, its will reaches every
    connection.
   */
  lemma WillReaches(s: M.State, p: Incoming, sch: Schedule, m: ConnectMessage, acts: seq<M.Action>, timeout: bool,
                    order: seq<int>, choice: M.Choice, fd: int, stray: R.Stray, rest: seq<byte>)
    returns (s1: M.State, d: Option<M.Delivery>)
    requires Indexed(s) && DistinctIds(s)
    requires p.fd in s.clients && p.generated != [] && M.ValidHolder(s, p.generated, None)
    requires PacketType(p.first) == 1 && p.body == EncodeConnect(m) && WellformedConnect(m) && m.will.Some?
    requires m.id != [] ==> M.ValidHolder(s, m.id, sch.holder)
    requires m.id == [] || sch.holder.None? || (m.flags / 2 % 2 == 1 && sch.holder != Some(p.fd))
    requires BodyReadable(p) && Requested(p, sch).Some? && M.Enabled(s, Requested(p, sch).value)
    requires var s0 := M.Step(s, Requested(p, sch).value); M.Run(s0, acts) && Stays(s0, acts, p.fd)
    requires var s2 := M.Reach(M.Step(s, Requested(p, sch).value), acts);
      fd in s2.clients && M.ValidFanOut(s2, m.will.value.topic, order, choice)
    ensures var s2, lost := M.Reach(M.Step(s, Requested(p, sch).value), acts), M.Lost(p.fd, timeout, order, choice);
      && M.Enabled(s2, lost)
      && s1 == s2.(out := s2.out + if timeout then [M.Cmd(p.fd, M.KeepAliveTimeout)] else [])
      && fd in s1.clients
      && Reached(s1, M.Step(s2, lost), fd, m.will.value.topic, m.will.value.payload, d, stray, rest)
  {
    hide EncodeConnect, M.Step, M.Enabled, M.ValidHolder, M.ValidFanOut, Requested, BodyReadable, Readable, Reached,
         Indexed, DistinctIds, M.Run, M.Reach, Stays, M.FanOut, M.DeliverAll;
    var s0 := M.Step(s, Requested(p, sch).value);
    var s2, lost := M.Reach(s0, acts), M.Lost(p.fd, timeout, order, choice);
    ConnectLeaves(s, p, sch, m);
    WillKept(s0, acts, p.fd);
    StepKeepsTables(s, Requested(p, sch).value);
    ReachableTables(s0, acts);
    LostEnabled(s2, p.fd, timeout, order, choice);
    s1 := LostEffect(s2, p.fd, timeout, order, choice);
    SameIndex(s2, s1);
    d := FanOutReaches(s1, m.will.value.topic, m.will.value.payload, order, choice, fd, stray, rest);
  }

  lemma LostEnabled(s: M.State, fd: int, timeout: bool, order: seq<int>, choice: M.Choice)
    requires fd in s.clients && M.ValidFanOut(s, s.clients[fd].will.name, order, choice)
    ensures M.Enabled(s, M.Lost(fd, timeout, order, choice))
  {
  }
}

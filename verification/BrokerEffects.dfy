/**
  What every step does, field by field and packet by packet, in terms of the
  action and the state before alone.
 */
module BrokerEffects {
  import opened Bytes
  import opened Topics
  import opened Parsers
  import opened BrokerModel
  import opened Deliveries
  import opened BrokerIds
  import I = BrokerIndex
  import L = BrokerLoops
  import Q = BrokerQueues
  import Q2 = BrokerQos2

  // ---------------------------------------------------------------- connections

  lemma AddClientEffect(s: State, fd: Fd)
    ensures var c := Client([], map[], 1, 0, false, Message([], []));
      Step(s, AddClient(fd)) == if fd in s.clients then s else s.(clients := s.clients[fd := c])
  {
    L.QuietStep(s, AddClient(fd));
  }

  lemma CloseEffect(s: State, fd: Fd)
    requires fd in s.clients
    ensures Step(s, Close(fd)) == s.(clients := s.clients - {fd}, subscribed := s.subscribed - {fd})
  {
    L.QuietStep(s, Close(fd));
  }

  lemma PingEffect(s: State, fd: Fd)
    requires fd in s.clients
    ensures Step(s, Ping(fd)) == s.(out := s.out + [Cmd(fd, Pingresp)])
    ensures Step(s, Disconnect(fd)) == s
  {
    L.QuietStep(s, Ping(fd));
    L.QuietStep(s, Disconnect(fd));
  }

  // ---------------------------------------------------------------- queues

  /** Exactly the entries of the id are gone, wherever they stood; the others keep their order. */
  lemma {:induction false} RemoveIdIs(a: seq<Event>, e: Event, b: seq<Event>, id: u16)
    ensures RemoveId([], id) == []
    ensures RemoveId(a + [e] + b, id) == RemoveId(a, id) + (if e.id == id then [] else [e]) + RemoveId(b, id)
  {
    if a == [] {
      assert ([] + [e] + b)[1..] == b && ([] + [e] + b)[0] == e;
    } else {
      var q := a + [e] + b;
      assert q[0] == a[0] && q[1..] == a[1..] + [e] + b;
      RemoveIdIs(a[1..], e, b, id);
    }
  }

  /** The front of a queue, as the packets it puts out. */
  function FrontCmd(fd: Fd, q: seq<Event>): seq<Cmd> {
    if q == [] then [] else [Cmd(fd, q[0].packet)]
  }

  /** Only one queue differs. */
  ghost predicate OneQueue(s: State, s': State, cid: Str, q: seq<Event>) {
    forall other :: Queue(s', other) == if other == cid then q else Queue(s, other)
  }

  lemma PostponeEffect(s: State, cid: Str, e: Event)
    ensures var s' := Step(s, Postpone(cid, e));
      s' == s.(postponed := s'.postponed) && OneQueue(s, s', cid, Queue(s, cid) + [e])
  {
    L.QuietStep(s, Postpone(cid, e));
  }

  lemma PubackEffect(s: State, fd: Fd, id: u16)
    requires fd in s.clients
    ensures var s', cid := Step(s, PubackIn(fd, id)), s.clients[fd].id;
      var q := RemoveId(Queue(s, cid), id);
      s' == s.(postponed := s'.postponed, out := s.out + FrontCmd(fd, q)) && OneQueue(s, s', cid, q)
  {
    hide RemoveId, Step;
    L.QuietStep(s, PubackIn(fd, id));
    Q.DelQosEventQueue(s, s.clients[fd].id, id);
    assert s.out + [] == s.out;
  }

  lemma PubrecEffect(s: State, fd: Fd, id: u16)
    requires fd in s.clients
    ensures var s', cid := Step(s, PubrecIn(fd, id)), s.clients[fd].id;
      && s' == s.(postponed := s'.postponed, out := s.out + [Cmd(fd, Ack(Pubrel, false, id))])
      && OneQueue(s, s', cid, RemoveId(Queue(s, cid), id))
  {
    hide RemoveId, Step;
    L.QuietStep(s, PubrecIn(fd, id));
    Q.DelQosEventQueue(s, s.clients[fd].id, id);
  }

  lemma PubcompEffect(s: State, fd: Fd, id: u16)
    requires fd in s.clients
    ensures Step(s, PubcompIn(fd, id)) == s.(out := s.out + FrontCmd(fd, Queue(s, s.clients[fd].id)))
  {
    L.QuietStep(s, PubcompIn(fd, id));
    assert s.out + [] == s.out;
  }

  /** A round of `QoSThread` puts the front of every queue in use out to its client, once, and changes nothing else. */
  lemma {:induction false} TickRounds(s: State, order: seq<Fd>, fd: Fd)
    requires NoDuplicates(order) && (forall c :: c in order ==> c in s.clients) && fd in s.clients
    ensures var s' := TickStep(s, order);
      && s' == s.(out := s'.out)
      && PacketsFor(s'.out, fd)
         == PacketsFor(s.out, fd)
            + (if fd in order && Queue(s, s.clients[fd].id) != [] then [Queue(s, s.clients[fd].id)[0].packet] else [])
    decreases |order|
  {
    hide PacketsFor;
    if order == [] {
      assert PacketsFor(s.out, fd) + [] == PacketsFor(s.out, fd);
    } else {
      var s1, cid := Resend(s, order[0], s.clients[order[0]].id), s.clients[order[0]].id;
      assert NoDuplicates(order[1..]) && order[0] !in order[1..];
      TickRounds(s1, order[1..], fd);
      if Queue(s, cid) != [] { PacketsForSnoc(s.out, Cmd(order[0], Queue(s, cid)[0].packet), fd); }
      assert Queue(s1, s.clients[fd].id) == Queue(s, s.clients[fd].id);
      assert PacketsFor(s.out, fd) + [] == PacketsFor(s.out, fd);
    }
  }

  lemma TickEffect(s: State, order: seq<Fd>, fd: Fd)
    requires Enabled(s, Tick(order)) && fd in s.clients
    ensures var s', q := Step(s, Tick(order)), Queue(s, s.clients[fd].id);
      && s' == s.(out := s'.out)
      && PacketsFor(s'.out, fd) == PacketsFor(s.out, fd) + (if q != [] then [q[0].packet] else [])
  {
    hide TickStep, PacketsFor, Queue, Step;
    L.QuietStep(s, Tick(order));
    TickRounds(s, order, fd);
  }

  // ---------------------------------------------------------------- subscriptions

  lemma UnsubscribeEffect(s: State, fd: Fd, id: u16, names: seq<Str>) returns (codes: seq<byte>)
    requires fd in s.clients
    ensures var c := s.clients[fd];
      Step(s, Unsubscribe(fd, id, names))
      == s.(clients := s.clients[fd := c.(subs := c.subs - (set n | n in names))],
            out := s.out + [Cmd(fd, Unsuback(id, codes))])
    ensures |codes| == |names|
    ensures forall i :: 0 <= i < |names| ==>
      codes[i] == if names[i] in s.clients[fd].subs && names[i] !in names[..i] then 0 else 0x11
  {
    hide RemoveSubs, Step;
    L.UnsubscribeStep(s, fd, id, names);
    UnsubscribeCodes(s.clients[fd].subs, names);
    codes := RemoveSubs(s.clients[fd].subs, names).1;
  }

  /** A PUBLISH to that connection, not marked as a duplicate. */
  predicate MessageTo(c: Cmd, fd: Fd) {
    c.fd == fd && c.packet.Publish? && !c.packet.dup
  }

  /** Deliveries to one connection leave all the others, and the queues of all other ids, as they are. */
  lemma {:induction false} DeliverToOne(s: State, ds: seq<Delivery>, fd: Fd)
    requires fd in s.clients && AllTo(ds, {fd})
    ensures AllTo(ds, s.clients.Keys)
    ensures var s' := DeliverAll(s, ds);
      && (forall other :: other in s.clients && other != fd ==>
            other in s'.clients && s'.clients[other] == s.clients[other])
      && (forall other :: other != fd ==> PacketsFor(s'.out, other) == PacketsFor(s.out, other))
      && (forall cid :: cid != s.clients[fd].id ==> Queue(s', cid) == Queue(s, cid))
      && |s.out| <= |s'.out| && (forall i :: |s.out| <= i < |s'.out| ==> MessageTo(s'.out[i], fd))
    decreases |ds|
  {
    hide PacketsFor, Deliver;
    if ds != [] {
      assert ds[0] in ds;
      var s1 := Deliver(s, ds[0]);
      DeliverOne(s, ds[0]);
      DeliverFrame(s, ds[0]);
      DeliverToOne(s1, ds[1..], fd);
      assert SameButGen(s.clients[fd], s1.clients[fd]);
      DeliverAllSends(s1, ds[1..]);
    }
  }

  lemma DeliverOne(s: State, d: Delivery)
    requires d.fd in s.clients
    ensures var s' := Deliver(s, d);
      && (forall other :: other in s.clients && other != d.fd ==>
            other in s'.clients && s'.clients[other] == s.clients[other])
      && (forall other :: other != d.fd ==> PacketsFor(s'.out, other) == PacketsFor(s.out, other))
      && (forall cid :: cid != s.clients[d.fd].id ==> Queue(s', cid) == Queue(s, cid))
      && (s'.out == s.out || (|s'.out| == |s.out| + 1 && s.out <= s'.out && MessageTo(s'.out[|s.out|], d.fd)))
  {
    forall other | other != d.fd ensures PacketsFor(Deliver(s, d).out, other) == PacketsFor(s.out, other) {
      hide PacketsFor;
      PacketsForSnoc(s.out, Cmd(d.fd, Publish(false, Numbered(s.clients[d.fd], d))), other);
    }
  }

  /** How many retained messages the filters before the i-th get. */
  function Offset(plan: seq<seq<Str>>, i: nat): nat
    requires i <= |plan|
  {
    if i == 0 then 0 else Offset(plan, i - 1) + |plan[i - 1]|
  }

  lemma {:induction false} OffsetTail(plan: seq<seq<Str>>, i: nat)
    requires 0 < i <= |plan|
    ensures Offset(plan, i) == |plan[0]| + Offset(plan[1..], i - 1)
  {
    if i > 1 { OffsetTail(plan, i - 1); }
  }

  lemma {:induction false} RetainedForIs(retained: map<Str, Topic>, fd: Fd, options: byte, names: seq<Str>)
    requires forall n :: n in names ==> n in retained
    ensures var ds := RetainedFor(retained, fd, options, names);
      && |ds| == |names|
      && forall j :: 0 <= j < |names| ==>
           names[j] in retained && ds[j] == Delivery(fd, options, retained[names[j]].name, retained[names[j]].payload)
  {
    if names != [] {
      RetainedForIs(retained, fd, options, names[1..]);
    }
  }

  /** Filter by filter, every retained message of its plan once, at that filter's options. */
  ghost predicate RetainedMessages(retained: map<Str, Topic>, fd: Fd, filters: seq<Filter>, plan: seq<seq<Str>>,
                                   ds: seq<Delivery>)
    requires |plan| == |filters|
  {
    && |ds| == Offset(plan, |plan|)
    && forall i, j :: 0 <= i < |plan| && 0 <= j < |plan[i]| ==> RetainedMessage(retained, fd, filters, plan, ds, i, j)
  }

  predicate RetainedMessage(retained: map<Str, Topic>, fd: Fd, filters: seq<Filter>, plan: seq<seq<Str>>,
                            ds: seq<Delivery>, i: nat, j: nat)
    requires |plan| == |filters| && i < |plan| && j < |plan[i]|
  {
    var k, n := Offset(plan, i) + j, plan[i][j];
    k < |ds| && n in retained && ds[k] == Delivery(fd, filters[i].options, retained[n].name, retained[n].payload)
  }

  lemma {:induction false} RetainedAllIs(retained: map<Str, Topic>, fd: Fd, filters: seq<Filter>, plan: seq<seq<Str>>)
    requires |plan| == |filters|
    requires forall i :: 0 <= i < |plan| ==> forall n :: n in plan[i] ==> n in retained
    ensures RetainedMessages(retained, fd, filters, plan, RetainedAll(retained, fd, filters, plan))
  {
    hide RetainedFor;
    if filters != [] {
      var head := RetainedFor(retained, fd, filters[0].options, plan[0]);
      var tail := RetainedAll(retained, fd, filters[1..], plan[1..]);
      RetainedForIs(retained, fd, filters[0].options, plan[0]);
      RetainedAllIs(retained, fd, filters[1..], plan[1..]);
      OffsetTail(plan, |plan|);
      var ds := RetainedAll(retained, fd, filters, plan);
      assert ds == head + tail;
      forall i, j | 0 <= i < |plan| && 0 <= j < |plan[i]|
        ensures RetainedMessage(retained, fd, filters, plan, ds, i, j)
      {
        if i == 0 {
          assert ds[j] == head[j];
        } else {
          OffsetTail(plan, i);
          assert plan[1..][i - 1] == plan[i] && filters[1..][i - 1] == filters[i];
          assert RetainedMessage(retained, fd, filters[1..], plan[1..], tail, i - 1, j);
          assert ds[|head| + (Offset(plan[1..], i - 1) + j)] == tail[Offset(plan[1..], i - 1) + j];
        }
      }
      assert |ds| == Offset(plan, |plan|);
    } else {
      assert plan == [];
    }
  }

  /** The packets a list of deliveries puts out while nothing is postponed for the client. */
  lemma {:induction false} DeliverAtOnce(s: State, ds: seq<Delivery>, fd: Fd)
    requires fd in s.clients && AllTo(ds, {fd}) && Queue(s, s.clients[fd].id) == []
    ensures AllTo(ds, s.clients.Keys)
    ensures var s', n := DeliverAll(s, ds), |PacketsFor(s.out, fd)|;
      var ps := PacketsFor(s'.out, fd);
      && |ps| == n + |ds| && ps[..n] == PacketsFor(s.out, fd) && Queue(s', s.clients[fd].id) == []
      && forall k :: 0 <= k < |ds| ==> Carries(ps[n + k], ds[k])
  {
    if ds != [] {
      hide PacketsFor, Deliver, DeliverAll, Carries;
      var front, d := ds[..|ds| - 1], ds[|ds| - 1];
      assert ds == front + [d] && d in ds;
      assert AllTo(front, {fd}) by { forall e | e in front ensures e.fd in {fd} { assert e in ds; } }
      DeliverAtOnce(s, front, fd);
      DeliverAllSnoc(s, front, d);
      DeliverAllFrame(s, front);
      assert SameButGen(s.clients[fd], DeliverAll(s, front).clients[fd]);
      AtOnce(DeliverAll(s, front), d);
    } else {
      DeliverNothing(s);
    }
  }

  /** A PUBLISH at the delivery's QoS with its name and payload, without packet id at QoS 0. */
  predicate Carries(p: Packet, d: Delivery) {
    && p.Publish? && !p.dup && p.topic.qos == d.qos && p.topic.name == d.name && p.topic.payload == d.payload
    && (d.qos == 0 ==> p.topic.id == 0)
  }

  lemma DeliverNothing(s: State)
    ensures DeliverAll(s, []) == s
  {
  }

  lemma AtOnce(s: State, d: Delivery)
    requires d.fd in s.clients && Queue(s, s.clients[d.fd].id) == []
    ensures var s', n := Deliver(s, d), |PacketsFor(s.out, d.fd)|;
      var ps := PacketsFor(s'.out, d.fd);
      |ps| == n + 1 && ps[..n] == PacketsFor(s.out, d.fd) && Carries(ps[n], d) && Queue(s', s.clients[d.fd].id) == []
  {
    hide PacketsFor;
    PacketsForSnoc(s.out, Cmd(d.fd, Publish(false, Numbered(s.clients[d.fd], d))), d.fd);
  }

  /** The subscriptions after a SUBSCRIBE: those there were, unchanged, and for new names the first listed options. */
  ghost predicate Subscribed(before: map<Str, byte>, filters: seq<Filter>, after: map<Str, byte>) {
    && (forall n :: n in after <==> n in before || exists i :: 0 <= i < |filters| && filters[i].name == n)
    && (forall n :: n in before ==> n in after && after[n] == before[n])
    && (forall i :: 0 <= i < |filters| && filters[i].name !in before
                    && (forall j :: 0 <= j < i ==> filters[j].name != filters[i].name)
          ==> filters[i].name in after && after[filters[i].name] == filters[i].options)
  }

  lemma AddSubsSubscribes(subs: map<Str, byte>, filters: seq<Filter>)
    ensures Subscribed(subs, filters, AddSubs(subs, filters))
  {
    hide AddSubs;
    forall n {
      FirstSubscriptionStays(subs, filters, n);
    }
    forall i | 0 <= i < |filters| && filters[i].name !in subs
               && (forall j :: 0 <= j < i ==> filters[j].name != filters[i].name)
      ensures filters[i].name in AddSubs(subs, filters)
      ensures AddSubs(subs, filters)[filters[i].name] == filters[i].options
    {
      FirstSubscriptionStays(subs, filters, filters[i].name);
    }
  }

  /**
    SUBSCRIBE: the client's subscriptions, the SUBACK with code 2 for every
    filter, then the retained messages, and the index.
   */
  lemma SubscribeEffect(s: State, fd: Fd, id: u16, filters: seq<Filter>, plan: seq<seq<Str>>)
    returns (ds: seq<Delivery>)
    requires Enabled(s, Subscribe(fd, id, filters, plan))
    ensures |plan| == |filters| && RetainedMessages(s.retained, fd, filters, plan, ds)
    ensures forall i :: 0 <= i < |plan| ==>
      && (forall j, k :: 0 <= j < k < |plan[i]| ==> plan[i][j] != plan[i][k])
      && (forall n :: n in plan[i] <==> n in s.retained && RetainedMatch(filters[i].name, n))
    ensures var s', c := Step(s, Subscribe(fd, id, filters, plan)), s.clients[fd];
      && s'.stored == s.stored && s'.retained == s.retained && s'.subscribed == s.subscribed + {fd}
      && s'.clients.Keys == s.clients.Keys
      && Subscribed(c.subs, filters, s'.clients[fd].subs)
      && SameButGen(c, s'.clients[fd].(subs := c.subs))
      && (forall other :: other in s.clients && other != fd ==> s'.clients[other] == s.clients[other])
      && s.out + [Cmd(fd, Suback(id, seq(|filters|, _ => 2)))] <= s'.out
      && (forall i :: |s.out| < i < |s'.out| ==> MessageTo(s'.out[i], fd))
      && (forall other :: other != fd ==> PacketsFor(s'.out, other) == PacketsFor(s.out, other))
      && (forall cid :: cid != c.id ==> Queue(s', cid) == Queue(s, cid))
      && (Queue(s, c.id) == [] ==>
            var n, ps := |PacketsFor(s.out, fd)| + 1, PacketsFor(s'.out, fd);
            && |ps| == n + |ds| && Queue(s', c.id) == []
            && ps[..n] == PacketsFor(s.out, fd) + [Suback(id, seq(|filters|, _ => 2))]
            && forall k :: 0 <= k < |ds| ==> Carries(ps[n + k], ds[k]))
  {
    hide RetainedAll, RetainedMessages, DeliverAll, Step, AddSubs, Subscribed, PacketsFor, RetainedMatch, Carries;
    PlanIsRetained(s.retained, filters, plan);
    ds := RetainedAll(s.retained, fd, filters, plan);
    RetainedAllIs(s.retained, fd, filters, plan);
    L.SubscribeStep(s, fd, id, filters, plan);
    var s1, c := SubscribeAnswered(s, fd, id, filters), s.clients[fd];
    AddSubsSubscribes(c.subs, filters);
    var ack := Suback(id, seq(|filters|, _ => 2));
    assert s1.out == s.out + [Cmd(fd, ack)];
    forall other ensures PacketsFor(s1.out, other) == PacketsFor(s.out, other) + if other == fd then [ack] else [] {
      PacketsForSnoc(s.out, Cmd(fd, ack), other);
    }
    Q.SameQueues(s, s1);
    DeliverAllFrame(s1, ds);
    DeliverAllSends(s1, ds);
    DeliverToOne(s1, ds, fd);
    assert SameButGen(s1.clients[fd], DeliverAll(s1, ds).clients[fd]);
    if Queue(s, c.id) == [] { DeliverAtOnce(s1, ds, fd); }
  }

  // ---------------------------------------------------------------- publishing

  /** What a notified message leaves alone. */
  predicate OnlyNotified(s: State, s': State) {
    && s'.subscribed == s.subscribed && s'.stored == s.stored && s'.retained == s.retained
    && s'.clients.Keys == s.clients.Keys
    && (forall fd :: fd in s.clients ==> SameButGen(s.clients[fd], s'.clients[fd]))
  }

  /** The retained messages after a PUBLISH. */
  function Retaining(s: State, retain: bool, qos: byte, id: u16, name: Str, payload: seq<byte>): map<Str, Topic> {
    if retain then s.retained[name := Topic(if qos > 2 then 0 else qos, id, name, payload)] else s.retained
  }

  /** A PUBLISH not at QoS 2: the retained copy, PUBACK exactly at QoS 1, and then the fan-out. */
  lemma PublishEffect(s: State, fd: Fd, qos: byte, retain: bool, id: u16, name: Str, payload: seq<byte>, order: seq<Fd>,
                      choice: Choice, at: nat) returns (s1: State)
    requires fd in s.clients && qos < 4 && qos != 2 && ValidFanOut(s, name, order, choice)
    ensures s1 == s.(retained := Retaining(s, retain, qos, id, name, payload),
                     out := s.out + if qos == 1 then [Cmd(fd, Ack(Puback, false, id))] else [])
    ensures var a := PublishIn(fd, qos, retain, id, name, payload, order, choice, at);
      && Enabled(s, a) && Chosen(s1.clients, choice)
      && Step(s, a) == DeliverAll(s1, FanOut(s1.clients, name, payload, order, choice))
      && OnlyNotified(s1, Step(s, a))
  {
    hide Step, DeliverAll, FanOut;
    s1 := PublishAnswered(s, fd, qos, retain, id, name, payload);
    assert s.out + [] == s.out;
    L.PublishStep(s, fd, qos, retain, id, name, payload, order, choice, at);
    DeliverAllFrame(s1, FanOut(s1.clients, name, payload, order, choice));
  }

  /** A PUBLISH at QoS 2: the retained copy, one PUBREC, put out or postponed, and the message in the store. */
  lemma Qos2Effect(s: State, fd: Fd, retain: bool, id: u16, name: Str, payload: seq<byte>, order: seq<Fd>,
                   choice: Choice, at: nat)
    requires fd in s.clients && at <= |Stored(s, s.clients[fd].id)|
    ensures var a, cid := PublishIn(fd, 2, retain, id, name, payload, order, choice, at), s.clients[fd].id;
      Enabled(s, a) &&
      var s', q, ts := Step(s, a), Queue(s, cid), Stored(s, cid);
      && s'.clients == s.clients && s'.subscribed == s.subscribed
      && s'.retained == Retaining(s, retain, 2, id, name, payload)
      && s'.stored == s.stored[cid := ts[..at] + [Topic(2, id, name, payload)] + ts[at..]]
      && s'.out == s.out + (if q == [] then [Cmd(fd, Ack(Pubrec, false, id))] else [])
      && OneQueue(s, s', cid, if q == [] then [] else q + [Event(Ack(Pubrec, true, id), id)])
  {
    hide Step;
    assert s.out + [] == s.out;
    L.PublishStep(s, fd, 2, retain, id, name, payload, order, choice, at);
  }

  /** PUBREL: PUBCOMP, then the front of the queue without the id; then the waiting message goes out and leaves. */
  lemma PubrelEffect(s: State, fd: Fd, id: u16, order: seq<Fd>, choice: Choice) returns (s1: State)
    requires Enabled(s, PubrelIn(fd, id, order, choice))
    ensures var cid, q := s.clients[fd].id, RemoveId(Queue(s, s.clients[fd].id), id);
      s1 == s.(postponed := s1.postponed, out := s.out + [Cmd(fd, Ack(Pubcomp, false, id))] + FrontCmd(fd, q))
      && OneQueue(s, s1, cid, q)
    ensures var a, cid := PubrelIn(fd, id, order, choice), s.clients[fd].id;
      var s', waiting := Step(s, a), Q2.Waiting(s, cid, id);
      && (waiting == [] ==> s' == s1)
      && (waiting != [] ==>
            var t := waiting[0];
            && ValidFanOut(s, t.name, order, choice) && Chosen(s1.clients, choice)
            && s' == DeliverAll(s1, FanOut(s1.clients, t.name, t.payload, order, choice)).(stored := s'.stored)
            && Q2.Waiting(s', cid, id) == waiting[1..]
            && forall c, i :: c != cid || i != id ==> Q2.Waiting(s', c, i) == Q2.Waiting(s, c, i))
  {
    hide Step, DeliverAll, FanOut, RemoveId, Find, RemoveFirst, ValidFanOut, Q2.Having;
    var a, cid := PubrelIn(fd, id, order, choice), s.clients[fd].id;
    s1 := PubrelAnswered(s, fd, id);
    PubrelAnswer(s, fd, id);
    Q2.FindAndRemove(Stored(s, cid), id, id);
    L.PubrelStep(s, fd, id, order, choice);
    if Q2.Waiting(s, cid, id) != [] {
      var t := Q2.Waiting(s, cid, id)[0];
      FanOutAlike(s, s1, t.name, order, choice);
      DeliverAllFrame(s1, FanOut(s1.clients, t.name, t.payload, order, choice));
      forall c, i | c != cid || i != id ensures Q2.Waiting(Step(s, a), c, i) == Q2.Waiting(s, c, i) {
        Q2.FindAndRemove(Stored(s, cid), id, i);
      }
    }
  }

  lemma FanOutAlike(s: State, s1: State, name: Str, order: seq<Fd>, choice: Choice)
    requires s1.clients == s.clients && s1.subscribed == s.subscribed && ValidFanOut(s, name, order, choice)
    ensures ValidFanOut(s1, name, order, choice) && Chosen(s1.clients, choice)
  {
  }

  lemma PubrelAnswer(s: State, fd: Fd, id: u16)
    requires fd in s.clients
    ensures var s1, cid := PubrelAnswered(s, fd, id), s.clients[fd].id;
      var q := RemoveId(Queue(s, cid), id);
      s1 == s.(postponed := s1.postponed, out := s.out + [Cmd(fd, Ack(Pubcomp, false, id))] + FrontCmd(fd, q))
      && OneQueue(s, s1, cid, q)
  {
    hide RemoveId;
    var s0 := AddCommand(s, fd, Ack(Pubcomp, false, id));
    Q.SameQueues(s, s0);
    Q.DelQosEventQueue(s0, s.clients[fd].id, id);
    assert s0.out + [] == s0.out;
  }

  /** A lost connection: the DISCONNECT of a timeout, and the client's will exactly if bit 2 of its flags is set. */
  lemma LostEffect(s: State, fd: Fd, timeout: bool, order: seq<Fd>, choice: Choice) returns (s1: State)
    requires Enabled(s, Lost(fd, timeout, order, choice))
    ensures s1 == s.(out := s.out + if timeout then [Cmd(fd, KeepAliveTimeout)] else [])
    ensures var s', c := Step(s, Lost(fd, timeout, order, choice)), s.clients[fd];
      && (c.flags / 4 % 2 == 0 ==> s' == s1)
      && (c.flags / 4 % 2 == 1 ==>
            && ValidFanOut(s1, c.will.name, order, choice) && Chosen(s1.clients, choice)
            && s' == DeliverAll(s1, FanOut(s1.clients, c.will.name, c.will.payload, order, choice))
            && OnlyNotified(s1, s'))
  {
    hide Step, DeliverAll, FanOut;
    s1 := if timeout then AddCommand(s, fd, KeepAliveTimeout) else s;
    assert s.out + [] == s.out;
    L.LostStep(s, fd, timeout, order, choice);
    if WillFlag(s.clients[fd].flags) {
      DeliverAllFrame(s1, FanOut(s1.clients, s.clients[fd].will.name, s.clients[fd].will.payload, order, choice));
    }
  }

  // ---------------------------------------------------------------- CONNECT

  /** Bit 1 of the flags is clear, and some registered client has the id. */
  predicate IdTaken(s: State, front: ConnectFront) {
    && front.Front? && front.id.Some? && front.flags / 2 % 2 == 0
    && exists fd :: fd in s.clients && s.clients[fd].id == front.id.value
  }

  /** The client a CONNECT that is not refused leaves. */
  function Introduced(c: Client, front: ConnectFront, back: ConnectBack, generated: Str): Client
    requires front.Front? && back.Back?
  {
    Client(if front.id.Some? then front.id.value else generated, c.subs, c.gen, front.flags,
           c.randomId || front.id.None?,
           if back.will.Some? then Message(back.will.value.name, back.will.value.payload) else c.will)
  }

  /**
    CONNECT in all its branches.  A wrong version changes nothing; bad
    properties, or an id that is taken, leave only the new flags; otherwise the
    client is introduced, the former holder of its id is gone, and CONNACK goes
    out if the rest of the packet is in order, with the session flag exactly if
    bit 1 of the flags is clear.
   */
  lemma ConnectEffect(s: State, fd: Fd, front: ConnectFront, back: ConnectBack, holder: Option<Fd>, generated: Str)
    requires Enabled(s, Connect(fd, front, back, holder, generated))
    ensures var s', c := Step(s, Connect(fd, front, back, holder, generated)), s.clients[fd];
      && (front.BadVersion? ==> s' == s)
      && (front.BadProperties? || IdTaken(s, front) ==> s' == s.(clients := s.clients[fd := c.(flags := front.flags)]))
      && (front.Front? && !IdTaken(s, front) ==>
            var gone, c' := if front.id.Some? && holder.Some? then {holder.value} else {},
                            Introduced(c, front, back, generated);
            && s' == s.(clients := s'.clients, subscribed := s.subscribed - gone, out := s'.out)
            && s'.clients.Keys == s.clients.Keys - gone
            && (fd !in gone ==> s'.clients[fd] == c')
            && (forall other :: other in s'.clients && other != fd ==> s'.clients[other] == s.clients[other])
            && s'.out
               == s.out + if back.status == BackOk
                          then [Cmd(fd, Connack(front.flags / 2 % 2 == 0, if c'.randomId then Some(c'.id) else None))]
                          else [])
  {
    hide Step, Prepare, ConnectStep, Enabled, Rejected, Refused, Introduced, CloseConnection;
    ConnectIs(s, fd, front, back, holder, generated);
    if front.Front? && !Rejected(front, holder) {
      ConnectIntroduces(s, fd, front, back, holder, generated);
    } else {
      ConnectChangesLittle(s, fd, front, back, holder, generated);
    }
  }

  lemma ConnectIs(s: State, fd: Fd, front: ConnectFront, back: ConnectBack, holder: Option<Fd>, generated: Str)
    requires Enabled(s, Connect(fd, front, back, holder, generated))
    ensures fd in s.clients && !front.FrontOverrun?
    ensures front.Front? && !Rejected(front, holder) ==> back.Back?
    ensures IdTaken(s, front) <==> Rejected(front, holder)
    ensures Step(s, Connect(fd, front, back, holder, generated)) == ConnectStep(s, fd, front, back, holder, generated)
  {
    hide Step, ConnectStep;
    L.QuietStep(s, Connect(fd, front, back, holder, generated));
    L.RefusedIsRejected(s, front, holder);
  }

  lemma ConnectChangesLittle(s: State, fd: Fd, front: ConnectFront, back: ConnectBack, holder: Option<Fd>,
                             generated: Str)
    requires fd in s.clients && !front.FrontOverrun? && !(front.Front? && !Rejected(front, holder))
    ensures ConnectStep(s, fd, front, back, holder, generated)
         == if front.BadVersion? then s else s.(clients := s.clients[fd := s.clients[fd].(flags := front.flags)])
  {
  }

  lemma ConnectIntroduces(s: State, fd: Fd, front: ConnectFront, back: ConnectBack, holder: Option<Fd>, generated: Str)
    requires fd in s.clients && front.Front? && !Rejected(front, holder) && back.Back?
    ensures var s', gone := ConnectStep(s, fd, front, back, holder, generated),
                            if front.id.Some? && holder.Some? then {holder.value} else {};
      var c' := Introduced(s.clients[fd], front, back, generated);
      && s' == s.(clients := s'.clients, subscribed := s.subscribed - gone, out := s'.out)
      && s'.clients.Keys == s.clients.Keys - gone
      && (fd !in gone ==> s'.clients[fd] == c')
      && (forall other :: other in s'.clients && other != fd ==> s'.clients[other] == s.clients[other])
      && s'.out
         == s.out + if back.status == BackOk
                    then [Cmd(fd, Connack(front.flags / 2 % 2 == 0, if c'.randomId then Some(c'.id) else None))]
                    else []
  {
    hide Rejected;
    assert s.out + [] == s.out && s.clients - {} == s.clients && s.subscribed - {} == s.subscribed;
  }

  // ---------------------------------------------------------------- what steps leave alone

  /** Only a PUBLISH with RETAIN changes the retained messages, and only those of its topic. */
  lemma RetainedEffect(s: State, a: Action)
    requires Enabled(s, a)
    ensures Step(s, a).retained
         == if a.PublishIn? then Retaining(s, a.retain, a.qos, a.id, a.name, a.payload) else s.retained
  {
    hide Outgoing, Enabled, Find, RemoveFirst, DeliverAll;
    PrepareKeepsConnections(s, a);
    PrepareRetained(s, a);
    hide Prepare;
    DeliverAllFrame(Prepare(s, a), Outgoing(s, a));
  }

  lemma PrepareRetained(s: State, a: Action)
    requires Enabled(s, a)
    ensures Prepare(s, a).retained
         == if a.PublishIn? then Retaining(s, a.retain, a.qos, a.id, a.name, a.payload) else s.retained
  {
    hide TickStep, Queue, Busy, RemoveId, AddSubs, RemoveSubs, ValidFanOut, ValidPlan, ConnectStep;
    if a.Tick? {
      TickRetained(s, a.order);
    } else if a.Connect? {
      ConnectKeeps(s, a, a.fd);
    }
  }

  lemma {:induction false} TickRetained(s: State, order: seq<Fd>)
    requires forall fd :: fd in order ==> fd in s.clients
    ensures TickStep(s, order).retained == s.retained
    decreases |order|
  {
    if order != [] { TickRetained(Resend(s, order[0], s.clients[order[0]].id), order[1..]); }
  }

  /** The action comes from that connection. */
  predicate From(a: Action, fd: Fd) {
    && !a.AddClient? && !a.Tick? && !a.Postpone? && a.fd == fd
  }

  lemma PrepareClients(s: State, a: Action, fd: Fd)
    requires Enabled(s, a) && fd in s.clients && fd in Prepare(s, a).clients
    ensures var c, c' := s.clients[fd], Prepare(s, a).clients[fd];
      && (!From(a, fd) ==> c' == c)
      && (!(a.Connect? && a.fd == fd) ==> c' == c.(subs := c'.subs))
      && (!(a.Subscribe? && a.fd == fd) && !(a.Unsubscribe? && a.fd == fd) ==> c'.subs == c.subs)
  {
    hide TickStep, Queue, Busy, RemoveId, AddSubs, RemoveSubs, ValidFanOut, ValidPlan, ConnectStep;
    if a.Tick? {
      TickKeepsClients(s, a.order);
    } else if a.Connect? {
      ConnectKeeps(s, a, fd);
    }
  }

  lemma ConnectKeeps(s: State, a: Action, fd: Fd)
    requires Enabled(s, a) && a.Connect?
    ensures var s' := ConnectStep(s, a.fd, a.front, a.back, a.holder, a.generated);
      && s'.retained == s.retained
      && (fd in s.clients && fd in s'.clients ==>
            && s'.clients[fd].subs == s.clients[fd].subs
            && (fd != a.fd ==> s'.clients[fd] == s.clients[fd]))
  {
    hide Enabled, Step, ConnectStep, Rejected;
    ConnectIs(s, a.fd, a.front, a.back, a.holder, a.generated);
    if a.front.Front? && !Rejected(a.front, a.holder) {
      ConnectIntroduces(s, a.fd, a.front, a.back, a.holder, a.generated);
    } else {
      ConnectChangesLittle(s, a.fd, a.front, a.back, a.holder, a.generated);
    }
  }

  /**
    A client changes by its own packets only, but for the packet ids it is
    drawn: id, flags and will by CONNECT, subscriptions by SUBSCRIBE and
    UNSUBSCRIBE.
   */
  lemma ClientKept(s: State, a: Action, fd: Fd)
    requires Enabled(s, a) && fd in s.clients && fd in Step(s, a).clients
    ensures var c, c' := s.clients[fd], Step(s, a).clients[fd];
      && (!From(a, fd) ==> SameButGen(c, c'))
      && (!(a.Connect? && a.fd == fd) ==> c'.id == c.id && c'.flags == c.flags && c'.will == c.will)
      && (!(a.Subscribe? && a.fd == fd) && !(a.Unsubscribe? && a.fd == fd) ==> c'.subs == c.subs)
  {
    hide Prepare, Outgoing, Step, Enabled, From;
    StepClients(s, a, fd);
    DeliverAllFrame(Prepare(s, a), Outgoing(s, a));
    PrepareClients(s, a, fd);
    assert SameButGen(Prepare(s, a).clients[fd], Step(s, a).clients[fd]);
  }

  /** The connection stays registered over the whole run, and sends no further CONNECT. */
  predicate Stays(s0: State, acts: seq<Action>, fd: Fd)
    requires Run(s0, acts)
  {
    && fd in Reach(s0, acts).clients
    && (acts != [] ==>
          var a := acts[|acts| - 1];
          Stays(s0, acts[..|acts| - 1], fd) && !(a.Connect? && a.fd == fd))
  }

  lemma {:induction false} WillKept(s0: State, acts: seq<Action>, fd: Fd)
    requires Run(s0, acts) && Stays(s0, acts, fd)
    ensures fd in s0.clients && fd in Reach(s0, acts).clients
    ensures Reach(s0, acts).clients[fd].flags == s0.clients[fd].flags
    ensures Reach(s0, acts).clients[fd].will == s0.clients[fd].will
  {
    hide Step, Enabled;
    if acts != [] {
      WillKept(s0, acts[..|acts| - 1], fd);
      ClientKept(Reach(s0, acts[..|acts| - 1]), acts[|acts| - 1], fd);
    }
  }
}

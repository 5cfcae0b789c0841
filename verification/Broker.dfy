/**
  The broker as the source has it: client objects, tables that refer to them,
  and handlers that update both.  Every handler is proved to take a step of
  the model; what the model does over whole runs is proved elsewhere.
 */
module Broker {
  import opened Bytes
  import opened Topics
  import opened Parsers
  import opened Deliveries
  import opened BrokerLoops
  import M = BrokerModel

  class Client {
    var id: Str
    var subs: map<Str, byte>
    var gen: u16
    var flags: byte
    var randomId: bool
    var will: Topic

    /** The client as the model has it. */
    ghost function Value(): M.Client
      reads this
    {
      M.Client(id, subs, gen, flags, randomId, M.Message(will.name, will.payload))
    }

    constructor ()
      ensures Value() == M.NEW_CLIENT
    {
      id, subs, gen, flags, randomId, will := [], map[], 1, 0, false, Topic(0, 0, [], []);
    }

    method AddSubscription(name: Str, options: byte)
      modifies this`subs
      ensures subs == if name in old(subs) then old(subs) else old(subs)[name := options]
    {
      if name !in subs { subs := subs[name := options]; }
    }

    method DelSubscription(name: Str) returns (erased: bool)
      modifies this`subs
      ensures erased == (name in old(subs)) && subs == old(subs) - {name}
    {
      erased := name in subs;
      subs := subs - {name};
    }

    /** The loop of SUBSCRIBE over the filters it parsed, with the reason codes of SUBACK. */
    method AddSubscriptions(filters: seq<Filter>) returns (codes: seq<byte>)
      modifies this`subs
      ensures subs == M.AddSubs(old(subs), filters) && codes == seq(|filters|, _ => M.GRANTED)
    {
      codes := [];
      assert filters[0..] == filters;
      for i := 0 to |filters|
        invariant M.AddSubs(subs, filters[i..]) == M.AddSubs(old(subs), filters)
        invariant codes == seq(i, _ => M.GRANTED)
      {
        assert filters[i..][1..] == filters[i + 1..];
        AddSubscription(filters[i].name, filters[i].options);
        codes := codes + [M.GRANTED];
      }
    }

    /** The loop of UNSUBSCRIBE, with the reason codes of UNSUBACK. */
    method DelSubscriptions(names: seq<Str>) returns (codes: seq<byte>)
      modifies this`subs
      ensures (subs, codes) == M.RemoveSubs(old(subs), names)
      ensures subs.Keys <= old(subs.Keys)
    {
      hide M.RemoveSubs;
      codes := [];
      RemoveStart(subs, names);
      for i := 0 to |names|
        invariant subs.Keys <= old(subs).Keys
        invariant M.RemoveSubs(old(subs), names) == RemoveRest(subs, names[i..], codes)
      {
        RemoveStep(subs, names, i, codes);
        var erased := DelSubscription(names[i]);
        codes := codes + [if erased then M.SUCCESS else M.NO_SUBSCRIPTION];
      }
      assert names[|names|..] == [];
      RemoveEnd(subs, codes);
    }

    method GenPacketID() returns (r: u16)
      modifies this`gen
      ensures r == old(gen) && gen == (old(gen) + 1) % 0x1_0000
    {
      r := gen;
      gen := (gen + 1) % 0x1_0000;
    }

    method MyTopic(topic: Str) returns (mine: bool, options: byte, filter: Str)
      ensures mine <==> exists f :: f in subs && LiveMatch(f, topic)
      ensures mine ==> filter in subs && LiveMatch(filter, topic) && options == subs[filter]
    {
      mine, options, filter := CheckWildCards(subs, topic);
    }
  }

  class Broker {
    var clients: map<int, Client>
    var subscribed: map<int, Client>   // weak pointers, each to the client registered under the same descriptor
    var postponed: map<Str, seq<M.Event>>
    var stored: map<Str, seq<Topic>>
    var retained: map<Str, Topic>
    var out: seq<M.Cmd>

    /** One object a connection, and the index refers to those objects. */
    ghost predicate Valid()
      reads this`clients, this`subscribed
    {
      && (forall fd, other :: fd in clients && other in clients && fd != other ==> clients[fd] != clients[other])
      && (forall fd :: fd in subscribed ==> fd in clients && subscribed[fd] == clients[fd])
    }

    ghost function Abs(): M.State
      reads this, clients.Values
    {
      M.State(map fd | fd in clients :: clients[fd].Value(), subscribed.Keys, postponed, stored, retained, out)
    }

    constructor ()
      ensures Valid() && Abs() == M.START
    {
      clients, subscribed, postponed, stored, retained, out := map[], map[], map[], map[], map[], [];
    }

    /** An update of one client object, seen from the tables; connections may have been closed meanwhile. */
    twostate lemma OneClientChanged(fd: int)
      requires old(Valid()) && fd in old(clients)
      requires forall c :: c in clients ==> c in old(clients) && clients[c] == old(clients[c])
      requires forall c :: c in clients && clients[c] != old(clients[fd]) ==> unchanged(clients[c])
      ensures Abs().clients == map c | c in clients ::
        if c == fd then old(clients[fd]).Value() else old(Abs()).clients[c]
    {
    }

    // ---------------------------------------------------------------- helpers of the handlers

    method AddCommand(fd: int, p: M.Packet)
      modifies this`out
      ensures Abs() == M.AddCommand(old(Abs()), fd, p)
    {
      out := out + [M.Cmd(fd, p)];
    }

    method CheckIfMoreMessages(cid: Str) returns (more: bool)
      ensures more == M.Busy(Abs(), cid)
    {
      more := cid in postponed && postponed[cid] != [];
    }

    method AddQosEvent(cid: Str, e: M.Event)
      modifies this`postponed
      ensures Abs() == M.AddQosEvent(old(Abs()), cid, e)
    {
      if cid !in postponed { postponed := postponed[cid := []]; }
      postponed := postponed[cid := postponed[cid] + [e]];
      assert postponed == M.AddQosEvent(old(Abs()), cid, e).postponed;
    }

    method DelQosEvent(cid: Str, id: u16)
      modifies this`postponed
      ensures Abs() == M.DelQosEvent(old(Abs()), cid, id)
    {
      if cid in postponed && postponed[cid] != [] {
        var q, rest := postponed[cid], [];
        for i := 0 to |q|
          invariant rest + M.RemoveId(q[i..], id) == M.RemoveId(q, id)
          invariant Abs() == old(Abs())
        {
          RemoveOneMore(rest, q, i, id);
          if q[i].id != id { rest := rest + [q[i]]; }
        }
        assert rest + [] == rest;
        postponed := postponed[cid := rest];
      }
    }

    /** `CheckIfMoreMessages`, `GetPacket`, `AddCommand`: the front of the queue once more. */
    method ResendFront(fd: int, cid: Str)
      modifies this`out
      ensures Abs() == M.Resend(old(Abs()), fd, cid)
    {
      var more := CheckIfMoreMessages(cid);
      if more { AddCommand(fd, postponed[cid][0].packet); }
    }

    // ---------------------------------------------------------------- notifying

    /** The packet id a topic leaves with. */
    method Number(pClient: Client, topic: Topic, ghost d: M.Delivery) returns (sent: Topic)
      requires d.qos == topic.qos && d.name == topic.name && d.payload == topic.payload
      modifies pClient`gen
      ensures sent == M.Numbered(old(pClient.Value()), d) && pClient.Value() == M.Draw(old(pClient.Value()), d)
    {
      if topic.qos == 0 {
        sent := topic.(id := 0);
      } else {
        var id := pClient.GenPacketID();
        sent := topic.(id := id);
      }
    }

    /** `NotifyClient`, and the same statements in the loop of `NotifyClients`; the topic is changed on the way. */
    method NotifyClient(fd: int, pClient: Client, topic: Topic) returns (sent: Topic)
      requires Valid() && fd in clients && pClient == clients[fd]
      modifies this`out, this`postponed, pClient`gen
      ensures Abs() == M.Deliver(old(Abs()), M.Delivery(fd, topic.qos, topic.name, topic.payload))
      ensures sent.name == topic.name && sent.payload == topic.payload
    {
      hide Valid, M.AddQosEvent, M.AddCommand, M.Draw, M.Deliver, M.Busy, M.Numbered;
      ghost var d := M.Delivery(fd, topic.qos, topic.name, topic.payload);
      ghost var s0 := old(Abs());
      sent := Number(pClient, topic, d);
      DeliverCases(s0, d);
      OneClientChanged(fd);
      assert Abs() == s0.(clients := s0.clients[fd := M.Draw(s0.clients[fd], d)]);
      if sent.qos > 0 {
        var more := CheckIfMoreMessages(pClient.id);
        if !more {
          AddCommand(fd, M.Publish(false, sent));
        } else {
          AddQosEvent(pClient.id, M.Event(M.Publish(true, sent), sent.id));
        }
      } else {
        AddCommand(fd, M.Publish(false, sent));
      }
    }

    /** The body of the loop of `NotifyClients`. */
    method NotifySubscriber(fd: int, pClient: Client, topic: Topic)
      returns (left: Topic, ghost filter: Option<Str>, ghost ds: seq<M.Delivery>)
      requires Valid() && fd in clients && pClient == clients[fd]
      modifies this`out, this`postponed, pClient`gen
      ensures filter.Some? ==> filter.value in pClient.subs && LiveMatch(filter.value, topic.name)
      ensures filter.None? ==> forall f :: f in pClient.subs ==> !LiveMatch(f, topic.name)
      ensures ds == SubscriberDelivery(fd, pClient.subs, filter, topic.name, topic.payload)
      ensures M.AllTo(ds, old(Abs()).clients.Keys)
      ensures Abs() == M.DeliverAll(old(Abs()), ds)
      ensures left.name == topic.name && left.payload == topic.payload
    {
      hide Valid, M.Deliver, M.DeliverAll, LiveMatch;
      ghost var s0 := Abs();
      left, filter, ds := topic, None, [];
      DeliverNothing(s0);
      var mine, options, found := pClient.MyTopic(topic.name);
      if mine {
        left := left.(qos := options % 4);
        filter, ds := Some(found), [M.Delivery(fd, left.qos, left.name, left.payload)];
        DeliverAllSnoc(s0, [], ds[0]);
        assert [] + [ds[0]] == ds;
        left := NotifyClient(fd, pClient, left);
      }
    }

    /** One shared topic goes through the whole loop; the index is walked in whatever order its hash map has. */
    method NotifyClients(topic: Topic) returns (left: Topic, ghost order: seq<int>, ghost choice: M.Choice)
      requires Valid()
      modifies this`out, this`postponed, clients.Values
      ensures M.ValidFanOut(old(Abs()), topic.name, order, choice) && M.Chosen(old(Abs()).clients, choice)
      ensures Abs() == M.DeliverAll(old(Abs()), M.FanOut(old(Abs()).clients, topic.name, topic.payload, order, choice))
      ensures left.name == topic.name && left.payload == topic.payload
    {
      hide M.Deliver, M.DeliverAll, M.FanOut, M.ValidFanOut, M.Enumerates, M.ValidChoice, Met, LiveMatch;
      ghost var s0 := Abs();
      left, order, choice := topic, [], map[];
      var todo := subscribed.Keys;
      assert forall fd :: fd in subscribed ==> fd in clients && fd in s0.clients;
      MetStart(s0, topic.name, topic.payload);
      DeliverNothing(s0);
      while todo != {}
        invariant todo <= subscribed.Keys
        invariant Met(s0, todo, topic.name, order, choice)
        invariant M.Chosen(s0.clients, choice)
        invariant Abs() == M.DeliverAll(s0, M.FanOut(s0.clients, topic.name, topic.payload, order, choice))
        invariant left.name == topic.name && left.payload == topic.payload
      {
        Inhabited(todo);
        var fd :| fd in todo;
        var pClient := subscribed[fd];
        ghost var filter, ds;
        ghost var sent := M.FanOut(s0.clients, topic.name, topic.payload, order, choice);
        DeliverAllFrame(s0, sent);
        assert SameButGen(s0.clients[fd], pClient.Value());
        left, filter, ds := NotifySubscriber(fd, pClient, left);
        MetOneMore(s0, todo, topic.name, topic.payload, order, choice, fd, filter);
        DeliverAllConcat(s0, sent, ds);
        order, choice := order + [fd], NowChosen(choice, fd, filter);
        todo := todo - {fd};
      }
      MetAll(s0, topic.name, order, choice);
    }

    /** The retained messages one filter of a SUBSCRIBE asks for, each a copy with the filter's options as QoS. */
    method SendRetained(fd: int, pClient: Client, filter: Filter) returns (ghost names: seq<Str>)
      requires Valid() && fd in clients && pClient == clients[fd]
      modifies this`out, this`postponed, pClient`gen
      ensures M.Enumerates(names, set n | n in retained && RetainedMatch(filter.name, n))
      ensures Abs() == M.DeliverAll(old(Abs()), M.RetainedFor(retained, fd, filter.options, names))
    {
      hide Valid, M.Deliver, M.DeliverAll, M.RetainedFor, M.Enumerates, RetainedMatch;
      ghost var s0 := Abs();
      var found := GetMatchedTopics(retained, filter.name);
      names := [];
      var todo := found.Keys;
      EnumeratesNothing(todo);
      RetainedNothing(retained, fd, filter.options);
      DeliverNothing(s0);
      while todo != {}
        invariant todo <= found.Keys
        invariant M.Enumerates(names, found.Keys - todo) && forall n :: n in names ==> n in retained
        invariant Abs() == M.DeliverAll(s0, M.RetainedFor(retained, fd, filter.options, names))
      {
        var n :| n in todo;
        ghost var sent := M.RetainedFor(retained, fd, filter.options, names);
        DeliverAllFrame(s0, sent);
        RetainedForSnoc(retained, fd, filter.options, names, n);
        DeliverAllSnoc(s0, sent, M.Delivery(fd, filter.options, retained[n].name, retained[n].payload));
        var _ := NotifyClient(fd, pClient, found[n].(qos := filter.options));
        EnumeratesOneMore(names, found.Keys, todo, n);
        names := names + [n];
        todo := todo - {n};
      }
      assert found.Keys - {} == set n | n in retained && RetainedMatch(filter.name, n);
    }

    method SendAllRetained(fd: int, pClient: Client, filters: seq<Filter>) returns (ghost plan: seq<seq<Str>>)
      requires Valid() && fd in clients && pClient == clients[fd]
      modifies this`out, this`postponed, pClient`gen
      ensures M.ValidPlan(retained, filters, plan) && PlanIn(retained, plan)
      ensures Abs() == M.DeliverAll(old(Abs()), M.RetainedAll(retained, fd, filters, plan))
    {
      hide Valid, M.DeliverAll, M.RetainedFor, M.RetainedAll, M.ValidPlan, M.Enumerates, RetainedMatch;
      ghost var s0 := Abs();
      plan := [];
      DeliverNothing(s0);
      PlanNothing(retained, fd);
      for i := 0 to |filters|
        invariant |plan| == i && M.ValidPlan(retained, filters[..i], plan) && PlanIn(retained, plan)
        invariant Abs() == M.DeliverAll(s0, M.RetainedAll(retained, fd, filters[..i], plan))
      {
        ghost var sent := M.RetainedAll(retained, fd, filters[..i], plan);
        ghost var names := SendRetained(fd, pClient, filters[i]);
        PlanOneMore(retained, fd, filters[..i], plan, filters[i], names);
        assert filters[..i] + [filters[i]] == filters[..i + 1];
        DeliverAllConcat(s0, sent, M.RetainedFor(retained, fd, filters[i].options, names));
        plan := plan + [names];
      }
      assert filters[..|filters|] == filters;
    }

    // ---------------------------------------------------------------- topic storage

    method StoreTopicValue(qos: byte, id: u16, name: Str, payload: seq<byte>)
      modifies this`retained
      ensures Abs() == old(Abs()).(retained := old(retained)[name := MakeTopic(qos, id, name, payload)])
    {
      retained := retained[name := MakeTopic(qos, id, name, payload)];
    }

    /** A multimap may put the new entry anywhere among those of the same client. */
    method AddQoSTopic(cid: Str, topic: Topic) returns (ghost at: nat)
      modifies this`stored
      ensures at <= |M.Stored(old(Abs()), cid)| && Abs() == M.AddQoSTopic(old(Abs()), cid, topic, at)
    {
      var group := if cid in stored then stored[cid] else [];
      var k: nat :| k <= |group|;
      at := k;
      stored := stored[cid := group[..k] + [topic] + group[k..]];
    }

    /** The walk through the client's group that `GetQoSTopic` and `DelQoSTopic` share. */
    method LocateQoSTopic(group: seq<Topic>, id: u16) returns (k: nat)
      ensures k <= |group|
      ensures M.Find(group, id) == if k < |group| then Some(group[k]) else None
      ensures k < |group| ==> M.RemoveFirst(group, id) == group[..k] + group[k + 1..]
    {
      k := 0;
      assert group[0..] == group;
      while k < |group|
        invariant k <= |group| && M.Find(group[k..], id) == M.Find(group, id)
        invariant group[..k] + M.RemoveFirst(group[k..], id) == M.RemoveFirst(group, id)
      {
        assert group[k..][1..] == group[k + 1..] && group[..k] + [group[k]] == group[..k + 1];
        if group[k].id == id { return; }
        k := k + 1;
      }
    }

    method GetQoSTopic(cid: Str, id: u16) returns (found: Option<Topic>)
      ensures found == M.Find(M.Stored(Abs(), cid), id)
    {
      if cid !in stored { return None; }
      var k := LocateQoSTopic(stored[cid], id);
      found := if k < |stored[cid]| then Some(stored[cid][k]) else None;
    }

    method DelQoSTopic(cid: Str, id: u16)
      modifies this`stored
      ensures Abs() == if M.Find(M.Stored(old(Abs()), cid), id).None? then old(Abs())
                       else old(Abs()).(stored := old(stored)[cid := M.RemoveFirst(M.Stored(old(Abs()), cid), id)])
    {
      if cid !in stored { return; }
      var group := stored[cid];
      var k := LocateQoSTopic(group, id);
      if k < |group| { stored := stored[cid := group[..k] + group[k + 1..]]; }
    }

    // ---------------------------------------------------------------- connections

    method AddClient(fd: int) returns (ok: bool)
      requires Valid()
      modifies this
      ensures Valid() && Abs() == M.Step(old(Abs()), M.AddClient(fd))
      ensures ok == (fd !in old(clients))
    {
      hide M.Step;
      QuietStep(Abs(), M.AddClient(fd));
      ok := fd !in clients;
      if ok {
        var pClient := new Client();
        clients := clients[fd := pClient];
        assert Abs().clients == old(Abs()).clients[fd := M.NEW_CLIENT];
      }
    }

    method CloseConnection(fd: int)
      requires Valid()
      modifies this`clients, this`subscribed
      ensures Valid() && Abs() == M.CloseConnection(old(Abs()), fd)
      ensures clients == old(clients) - {fd} && subscribed == old(subscribed) - {fd}
    {
      clients := clients - {fd};
      subscribed := subscribed - {fd};
      assert Abs().clients == old(Abs()).clients - {fd};
    }

    method GetClientFd(cid: Str) returns (holder: Option<int>)
      ensures M.ValidHolder(Abs(), cid, holder)
    {
      var todo := clients.Keys;
      while todo != {}
        invariant todo <= clients.Keys
        invariant forall fd :: fd in clients && fd !in todo ==> clients[fd].id != cid
      {
        Inhabited(todo);
        var fd :| fd in todo;
        if clients[fd].id == cid { return Some(fd); }
        todo := todo - {fd};
      }
      return None;
    }

    /** A client id is free, or its holder makes room. */
    method ClaimId(cid: Str, clean: bool) returns (ok: bool, holder: Option<int>)
      requires Valid()
      modifies this`clients, this`subscribed
      ensures Valid()
      ensures M.ValidHolder(old(Abs()), cid, holder) && ok == (holder.None? || clean)
      ensures clients == if holder.Some? && clean then old(clients) - {holder.value} else old(clients)
      ensures subscribed == if holder.Some? && clean then old(subscribed) - {holder.value} else old(subscribed)
    {
      holder := GetClientFd(cid);
      ok := true;
      if holder.Some? {
        if !clean { return false, holder; }
        CloseConnection(holder.value);
      }
    }

    /** The id a CONNECT brings, if it may have it, or else a generated one. */
    method TakeId(pClient: Client, front: ConnectFront, generated: Str) returns (free: bool, ghost holder: Option<int>)
      requires Valid() && pClient in clients.Values && front.Front? && pClient.flags == front.flags
      modifies this`clients, this`subscribed, pClient
      ensures Valid()
      ensures front.id.Some? ==> M.ValidHolder(old(Abs()), front.id.value, holder)
      ensures clients == old(clients) - Taken(front, holder) && subscribed == old(subscribed) - Taken(front, holder)
      ensures free == !M.Rejected(front, holder) && (M.Refused(old(Abs()), front) <==> !free)
      ensures pClient.Value()
           == if free then M.Identified(old(pClient.Value()), front, generated) else old(pClient.Value())
    {
      hide Valid, M.ValidHolder, M.Refused, CleanFlag;
      holder := None;
      match front.id {
        case Some(id) =>
          free, holder := ClaimId(id, CleanFlag(pClient.flags));
          RefusedIsRejected(old(Abs()), front, holder);
          if free { pClient.id := id; }
        case None =>
          free := true;
          RefusedIsRejected(old(Abs()), front, holder);
          pClient.id := generated;
          pClient.randomId := true;
      }
    }

    /** `HandleMqttConnect`, on what the parser reads before and after the client id. */
    method HandleMqttConnect(pClient: Client, front: ConnectFront, back: ConnectBack, generated: Str)
      returns (ok: bool, ghost holder: Option<int>)
      requires Valid() && pClient in clients.Values && !front.FrontOverrun?
      requires front.Front? && !M.Refused(Abs(), front) ==> !back.BackOverrun?
      modifies this`clients, this`subscribed, pClient
      ensures Valid()
      ensures front.Front? && front.id.Some? ==> M.ValidHolder(old(Abs()), front.id.value, holder)
      ensures clients == old(clients) - Taken(front, holder) && subscribed == old(subscribed) - Taken(front, holder)
      ensures pClient.Value() == M.Parsed(old(pClient.Value()), front, back, holder, generated)
      ensures ok == M.Accepted(front, back, holder)
    {
      hide Valid, M.ValidHolder, M.Refused, CleanFlag;
      holder := None;
      if front.BadVersion? { return false, holder; }
      pClient.flags := front.flags;
      if front.BadProperties? { return false, holder; }
      ghost var s1 := Abs();
      var free, other := TakeId(pClient, front, generated);
      holder := other;
      if front.id.Some? { SameHolder(old(Abs()), s1, front.id.value, holder); }
      RefusedIsRejected(old(Abs()), front, holder);
      if !free { return false, holder; }
      if back.will.Some? { pClient.will := back.will.value; }
      ok := back.status == BackOk;
    }

    /** `HandlePacket` for CONNECT. */
    method HandleConnect(fd: int, front: ConnectFront, back: ConnectBack, generated: Str)
      returns (ok: bool, ghost holder: Option<int>)
      requires Valid() && fd in clients && !front.FrontOverrun?
      requires front.Front? && !M.Refused(Abs(), front) ==> !back.BackOverrun?
      requires generated != [] && M.ValidHolder(Abs(), generated, None)
      requires front.Front? && front.id.Some? ==> front.id.value != []
      modifies this, clients[fd]
      ensures Valid()
      ensures var a := M.Connect(fd, front, back, holder, generated);
        M.Enabled(old(Abs()), a) && Abs() == M.Step(old(Abs()), a)
      ensures ok == M.Accepted(front, back, holder)
    {
      hide M.Step, M.Enabled, M.ValidHolder, M.Accepted, M.Rejected, M.Refused, M.Parsed, M.Update,
           M.AfterTakeover, Taken, Valid;
      var pClient := clients[fd];
      ok, holder := HandleMqttConnect(pClient, front, back, generated);
      OneClientChanged(fd);
      RefusedIsRejected(old(Abs()), front, holder);
      ConnectIsQuiet(old(Abs()), fd, front, back, holder, generated);
      AfterTakeoverIs(old(Abs()), front, holder);
      assert subscribed.Keys == old(subscribed).Keys - Taken(front, holder);
      UpdateByKeys(Abs().clients, M.AfterTakeover(old(Abs()), front, holder), fd, pClient.Value());
      if ok {
        AddCommand(fd, M.Connack(!CleanFlag(pClient.flags), if pClient.randomId then Some(pClient.id) else None));
      }
    }

    // ---------------------------------------------------------------- acknowledgements

    method HandlePuback(fd: int, id: u16)
      requires Valid() && fd in clients
      modifies this`postponed, this`out
      ensures Valid() && Abs() == M.Step(old(Abs()), M.PubackIn(fd, id))
    {
      hide Valid, M.Step, M.Resend, M.DelQosEvent;
      QuietStep(Abs(), M.PubackIn(fd, id));
      var pClient := clients[fd];
      DelQosEvent(pClient.id, id);
      ResendFront(fd, pClient.id);
    }

    method HandlePubrec(fd: int, id: u16)
      requires Valid() && fd in clients
      modifies this`postponed, this`out
      ensures Valid() && Abs() == M.Step(old(Abs()), M.PubrecIn(fd, id))
    {
      hide Valid, M.Step, M.DelQosEvent;
      QuietStep(Abs(), M.PubrecIn(fd, id));
      DelQosEvent(clients[fd].id, id);
      AddCommand(fd, M.Ack(M.Pubrel, false, id));
    }

    method HandlePubcomp(fd: int, id: u16)
      requires Valid() && fd in clients
      modifies this`out
      ensures Valid() && Abs() == M.Step(old(Abs()), M.PubcompIn(fd, id))
    {
      hide Valid, M.Step, M.Resend;
      QuietStep(Abs(), M.PubcompIn(fd, id));
      ResendFront(fd, clients[fd].id);
    }

    method HandlePing(fd: int)
      requires Valid() && fd in clients
      modifies this`out
      ensures Valid() && Abs() == M.Step(old(Abs()), M.Ping(fd))
    {
      hide Valid, M.Step;
      QuietStep(Abs(), M.Ping(fd));
      AddCommand(fd, M.Pingresp);
    }

    /** One round of `QoSThread`: the ids are copied first, then each busy queue's front goes out once more. */
    method QoSTick() returns (ghost order: seq<int>)
      requires Valid()
      modifies this`out
      ensures Valid() && M.Enabled(old(Abs()), M.Tick(order)) && Abs() == M.Step(old(Abs()), M.Tick(order))
    {
      hide Valid, M.Step, M.Resend, M.TickStep, M.Enumerates;
      ghost var s0 := Abs();
      order := [];
      TickNothing(s0);
      var ids := map fd | fd in clients :: clients[fd].id;
      var todo := ids.Keys;
      EnumeratesNothing(todo);
      while todo != {}
        invariant todo <= ids.Keys && Valid()
        invariant M.Enumerates(order, ids.Keys - todo) && forall c :: c in order ==> c in s0.clients
        invariant Abs() == M.TickStep(s0, order)
      {
        Inhabited(todo);
        var fd :| fd in todo;
        TickOneMore(s0, order, fd);
        ResendFront(fd, ids[fd]);
        EnumeratesOneMore(order, ids.Keys, todo, fd);
        order := order + [fd];
        todo := todo - {fd};
      }
      assert ids.Keys - {} == s0.clients.Keys;
      QuietStep(s0, M.Tick(order));
    }

    // ---------------------------------------------------------------- unsubscribing

    method HandleUnsubscribe(fd: int, id: u16, names: seq<Str>)
      requires Valid() && fd in clients
      modifies this`out, clients[fd]
      ensures Valid() && Abs() == M.Step(old(Abs()), M.Unsubscribe(fd, id, names))
    {
      hide Valid, M.Step, M.RemoveSubs, M.AddCommand;
      ghost var s0 := Abs();
      UnsubscribeStep(s0, fd, id, names);
      var pClient := clients[fd];
      var codes := pClient.DelSubscriptions(names);
      OneClientChanged(fd);
      assert Abs().clients == s0.clients[fd := s0.clients[fd].(subs := pClient.subs)];
      AddCommand(fd, M.Unsuback(id, codes));
    }

    // ---------------------------------------------------------------- publishing

    /** The retained copy, and PUBACK or PUBREC. */
    method AnswerPublish(fd: int, cid: Str, qos: byte, retain: bool, id: u16, name: Str, payload: seq<byte>)
      requires Valid() && fd in clients && cid == clients[fd].id
      modifies this`retained, this`postponed, this`out
      ensures Abs() == M.PublishAnswered(old(Abs()), fd, qos, retain, id, name, payload)
    {
      hide Valid, M.Busy, M.AddCommand, M.AddQosEvent, MakeTopic;
      if retain { StoreTopicValue(qos, id, name, payload); }
      if qos == 1 {
        AddCommand(fd, M.Ack(M.Puback, false, id));
      } else if qos == 2 {
        var more := CheckIfMoreMessages(cid);
        if !more {
          AddCommand(fd, M.Ack(M.Pubrec, false, id));
        } else {
          AddQosEvent(cid, M.Event(M.Ack(M.Pubrec, true, id), id));
        }
      }
    }

    method HandlePublish(fd: int, qos: byte, retain: bool, id: u16, name: Str, payload: seq<byte>)
      returns (ghost order: seq<int>, ghost choice: M.Choice, ghost at: nat)
      requires Valid() && fd in clients && qos < 4
      modifies this`retained, this`stored, this`postponed, this`out, clients.Values
      ensures Valid()
      ensures var a := M.PublishIn(fd, qos, retain, id, name, payload, order, choice, at);
        M.Enabled(old(Abs()), a) && Abs() == M.Step(old(Abs()), a)
    {
      hide M.Step, M.Enabled, M.AddQoSTopic, M.DeliverAll, M.FanOut, M.ValidFanOut, M.PublishAnswered, Valid;
      ghost var s0 := Abs();
      order, choice, at := [], map[], 0;
      var cid := clients[fd].id;
      AnswerPublish(fd, cid, qos, retain, id, name, payload);
      var topic := MakeTopic(qos, id, name, payload);
      if qos != 2 {
        var left: Topic;
        left, order, choice := NotifyClients(topic);
      } else {
        at := AddQoSTopic(cid, topic);
      }
      PublishStep(s0, fd, qos, retain, id, name, payload, order, choice, at);
    }

    /** PUBCOMP, and the front of the queue once more. */
    method AnswerPubrel(fd: int, cid: Str, id: u16)
      requires Valid() && fd in clients && cid == clients[fd].id
      modifies this`postponed, this`out
      ensures Abs() == M.PubrelAnswered(old(Abs()), fd, id)
    {
      hide M.Resend, M.AddCommand, M.DelQosEvent;
      AddCommand(fd, M.Ack(M.Pubcomp, false, id));
      DelQosEvent(cid, id);
      ResendFront(fd, cid);
    }

    method HandlePubrel(fd: int, id: u16) returns (ghost order: seq<int>, ghost choice: M.Choice)
      requires Valid() && fd in clients
      modifies this`stored, this`postponed, this`out, clients.Values
      ensures Valid()
      ensures var a := M.PubrelIn(fd, id, order, choice); M.Enabled(old(Abs()), a) && Abs() == M.Step(old(Abs()), a)
    {
      hide M.Step, M.Enabled, M.PubrelAnswered, M.DeliverAll, M.FanOut, M.ValidFanOut, M.Find, M.RemoveFirst, Valid;
      ghost var s0 := Abs();
      order, choice := [], map[];
      var cid := clients[fd].id;
      AnswerPubrel(fd, cid, id);
      var found := GetQoSTopic(cid, id);
      if found.Some? {
        ghost var s1 := Abs();
        var left: Topic;
        left, order, choice := NotifyClients(found.value);
        DeliverAllFrame(s1, M.FanOut(s1.clients, found.value.name, found.value.payload, order, choice));
        DelQoSTopic(cid, id);
      }
      PubrelStep(s0, fd, id, order, choice);
    }

    /** The will goes out, the very object the client holds. */
    method NotifyWill(fd: int, pClient: Client) returns (ghost order: seq<int>, ghost choice: M.Choice)
      requires Valid() && fd in clients && pClient == clients[fd]
      modifies this`postponed, this`out, clients.Values
      ensures var s0 := old(Abs());
        var will := s0.clients[fd].will;
        && M.ValidFanOut(s0, will.name, order, choice) && M.Chosen(s0.clients, choice)
        && Abs() == M.DeliverAll(s0, M.FanOut(s0.clients, will.name, will.payload, order, choice))
    {
      hide Valid, M.DeliverAll, M.FanOut, M.ValidFanOut, M.Chosen;
      ghost var s0, will := Abs(), pClient.will;
      var left: Topic;
      left, order, choice := NotifyClients(pClient.will);
      DeliverAllFrame(s0, M.FanOut(s0.clients, will.name, will.payload, order, choice));
      assert SameButGen(s0.clients[fd], pClient.Value());
      label L:
      pClient.will := left;
      assert pClient.Value() == old@L(pClient.Value());
      OneClientChanged@L(fd);
    }

    /** The connection is lost, or its keep-alive time is over. */
    method ConnectionLost(fd: int, timeout: bool) returns (ghost order: seq<int>, ghost choice: M.Choice)
      requires Valid() && fd in clients
      modifies this`postponed, this`out, clients.Values
      ensures Valid()
      ensures var a := M.Lost(fd, timeout, order, choice); M.Enabled(old(Abs()), a) && Abs() == M.Step(old(Abs()), a)
    {
      hide M.Step, M.Enabled, M.AddCommand, M.DeliverAll, M.FanOut, M.ValidFanOut, Valid;
      ghost var s0 := Abs();
      order, choice := [], map[];
      var pClient := clients[fd];
      if timeout { AddCommand(fd, M.KeepAliveTimeout); }
      if WillFlag(pClient.flags) { order, choice := NotifyWill(fd, pClient); }
      LostStep(s0, fd, timeout, order, choice);
    }

    // ---------------------------------------------------------------- subscribing

    method AddSubscribedClient(fd: int, pClient: Client)
      requires Valid() && fd in clients && pClient == clients[fd]
      modifies this`subscribed
      ensures Valid() && Abs() == old(Abs()).(subscribed := old(Abs()).subscribed + {fd})
    {
      if fd !in subscribed { subscribed := subscribed[fd := pClient]; }
    }

    /** `HandleMqttSubscribe`, and the SUBACK. */
    method AnswerSubscribe(fd: int, pClient: Client, id: u16, filters: seq<Filter>)
      requires Valid() && fd in clients && pClient == clients[fd]
      modifies this`out, pClient`subs
      ensures Valid() && Abs() == M.SubscribeAnswered(old(Abs()), fd, id, filters)
    {
      hide Valid, M.AddSubs;
      var codes := pClient.AddSubscriptions(filters);
      OneClientChanged(fd);
      ghost var s0 := old(Abs());
      assert Abs().clients == s0.clients[fd := s0.clients[fd].(subs := pClient.subs)];
      AddCommand(fd, M.Suback(id, codes));
    }

    method HandleSubscribe(fd: int, id: u16, filters: seq<Filter>) returns (ghost plan: seq<seq<Str>>)
      requires Valid() && fd in clients
      modifies this`subscribed, this`postponed, this`out, clients[fd]
      ensures Valid()
      ensures var a := M.Subscribe(fd, id, filters, plan); M.Enabled(old(Abs()), a) && Abs() == M.Step(old(Abs()), a)
    {
      hide Valid, M.Step, M.Enabled, M.SubscribeAnswered, M.DeliverAll, M.RetainedAll, M.ValidPlan;
      ghost var s0 := Abs();
      var pClient := clients[fd];
      AnswerSubscribe(fd, pClient, id, filters);
      plan := SendAllRetained(fd, pClient, filters);
      AddSubscribedClient(fd, pClient);
      SubscribeStep(s0, fd, id, filters, plan);
    }
  }
}

/**
  The broker's state and its atomic steps, on values.

  What the source leaves to a hash map's iteration order or to a random
  generator is part of the action, and `Enabled` says which values it may take.
 */
module BrokerModel {
  import opened Bytes
  import opened Topics
  import opened Parsers

  type Fd = int

  datatype Message = Message(name: Str, payload: seq<byte>)

  /** The part of `Client` the broker's behaviour depends on; `gen` is `packet_id_gen`. */
  datatype Client = Client(id: Str, subs: map<Str, byte>, gen: u16, flags: byte, randomId: bool, will: Message)

  const NEW_CLIENT := Client([], map[], 1, 0, false, Message([], []))

  datatype AckKind = Puback | Pubrec | Pubrel | Pubcomp

  datatype Packet =
    | Publish(dup: bool, topic: Topic)
    | Ack(kind: AckKind, dup: bool, id: u16)
    | Suback(id: u16, codes: seq<byte>)
    | Unsuback(id: u16, codes: seq<byte>)
    | Connack(sessionPresent: bool, newId: Option<Str>)
    | Pingresp
    | KeepAliveTimeout

  predicate IsDup(p: Packet) {
    (p.Publish? && p.dup) || (p.Ack? && p.dup)
  }

  /** A packet for a connection, as given to `AddCommand`. */
  datatype Cmd = Cmd(fd: Fd, packet: Packet)

  /** `mqtt_packet`: an entry of a client's postponed queue. */
  datatype Event = Event(packet: Packet, id: u16)

  /**
    `out` is everything ever given to `AddCommand`.  `subscribed` is the domain
    of `subscribed_clients`; `stored` is `qos_2_topics`, a group for each
    client id.
   */
  datatype State = State(
    clients: map<Fd, Client>,
    subscribed: set<Fd>,
    postponed: map<Str, seq<Event>>,
    stored: map<Str, seq<Topic>>,
    retained: map<Str, Topic>,
    out: seq<Cmd>)

  const START := State(map[], {}, map[], map[], map[], [])

  // ---------------------------------------------------------------- postponed packets

  function Queue(s: State, cid: Str): seq<Event> {
    if cid in s.postponed then s.postponed[cid] else []
  }

  /** `CheckIfMoreMessages`. */
  predicate Busy(s: State, cid: Str) {
    Queue(s, cid) != []
  }

  function AddCommand(s: State, fd: Fd, p: Packet): State {
    s.(out := s.out + [Cmd(fd, p)])
  }

  function AddQosEvent(s: State, cid: Str, e: Event): State {
    s.(postponed := s.postponed[cid := Queue(s, cid) + [e]])
  }

  function RemoveId(q: seq<Event>, id: u16): seq<Event> {
    if q == [] then [] else (if q[0].id == id then [] else [q[0]]) + RemoveId(q[1..], id)
  }

  function DelQosEvent(s: State, cid: Str, id: u16): State {
    if Busy(s, cid) then s.(postponed := s.postponed[cid := RemoveId(Queue(s, cid), id)]) else s
  }

  /** `CheckIfMoreMessages`, `GetPacket` and `AddCommand` in a row. */
  function Resend(s: State, fd: Fd, cid: Str): State {
    if Busy(s, cid) then AddCommand(s, fd, Queue(s, cid)[0].packet) else s
  }

  // ---------------------------------------------------------------- the QoS 2 store

  function Stored(s: State, cid: Str): seq<Topic> {
    if cid in s.stored then s.stored[cid] else []
  }

  /** `GetQoSTopic`: the first of the client's group with that packet id. */
  function Find(ts: seq<Topic>, id: u16): (r: Option<Topic>)
  {
    if ts == [] then None else if ts[0].id == id then Some(ts[0]) else Find(ts[1..], id)
  }

  /** `DelQoSTopic`. */
  function RemoveFirst(ts: seq<Topic>, id: u16): seq<Topic> {
    if ts == [] then [] else if ts[0].id == id then ts[1..] else [ts[0]] + RemoveFirst(ts[1..], id)
  }

  /** `AddQoSTopic`; where in the group a multimap inserts is not determined. */
  function AddQoSTopic(s: State, cid: Str, t: Topic, at: nat): State
    requires at <= |Stored(s, cid)|
  {
    s.(stored := s.stored[cid := Stored(s, cid)[..at] + [t] + Stored(s, cid)[at..]])
  }

  // ---------------------------------------------------------------- deliveries

  /** One PUBLISH to one client, at the QoS its subscription asks for. */
  datatype Delivery = Delivery(fd: Fd, qos: byte, name: Str, payload: seq<byte>)

  /** The topic as it leaves: its packet id is drawn from the client's generator. */
  function Numbered(c: Client, d: Delivery): Topic {
    Topic(d.qos, if d.qos == 0 then 0 else c.gen, d.name, d.payload)
  }

  /** `GenPacketID`, drawn only above QoS 0. */
  function Draw(c: Client, d: Delivery): Client {
    if d.qos == 0 then c else c.(gen := (c.gen + 1) % 0x1_0000)
  }

  predicate Postpones(s: State, d: Delivery)
    requires d.fd in s.clients
  {
    d.qos > 0 && Busy(s, s.clients[d.fd].id)
  }

  /** The common part of `NotifyClients` and `NotifyClient`. */
  function Deliver(s: State, d: Delivery): State
    requires d.fd in s.clients
  {
    var c := s.clients[d.fd];
    var t := Numbered(c, d);
    var s1 := s.(clients := s.clients[d.fd := Draw(c, d)]);
    if Postpones(s, d) then AddQosEvent(s1, c.id, Event(Publish(true, t), t.id))
    else AddCommand(s1, d.fd, Publish(false, t))
  }

  predicate AllTo(ds: seq<Delivery>, fds: set<Fd>) {
    forall d :: d in ds ==> d.fd in fds
  }

  function DeliverAll(s: State, ds: seq<Delivery>): State
    requires AllTo(ds, s.clients.Keys)
    decreases |ds|
  {
    if ds == [] then s else DeliverAll(Deliver(s, ds[0]), ds[1..])
  }

  /** Which filter `MyTopic` happened to meet first, for every client it accepted. */
  type Choice = map<Fd, Str>

  predicate ValidChoice(clients: map<Fd, Client>, fds: set<Fd>, name: Str, choice: Choice) {
    && choice.Keys <= fds
    && (forall fd :: fd in choice ==>
          fd in clients && choice[fd] in clients[fd].subs && LiveMatch(choice[fd], name))
    && (forall fd, f :: fd in fds && fd in clients && f in clients[fd].subs && LiveMatch(f, name) ==> fd in choice)
  }

  predicate NoDuplicates<T(==)>(xs: seq<T>) {
    forall i, j :: 0 <= i < j < |xs| ==> xs[i] != xs[j]
  }

  predicate Enumerates<T(==)>(xs: seq<T>, all: set<T>) {
    NoDuplicates(xs) && (forall x :: x in xs ==> x in all) && (forall x :: x in all ==> x in xs)
  }

  predicate Chosen(clients: map<Fd, Client>, choice: Choice) {
    forall fd :: fd in choice ==> fd in clients && choice[fd] in clients[fd].subs
  }

  /** The options of the subscription chosen for a client. */
  function Options(clients: map<Fd, Client>, choice: Choice, fd: Fd): byte
    requires Chosen(clients, choice) && fd in choice
  {
    clients[fd].subs[choice[fd]]
  }

  /** The loop of `NotifyClients` over the connections in `order`: options are masked with 3. */
  function FanOut(clients: map<Fd, Client>, name: Str, payload: seq<byte>, order: seq<Fd>, choice: Choice)
    : (ds: seq<Delivery>)
    requires Chosen(clients, choice)
    ensures AllTo(ds, clients.Keys)
  {
    if order == [] then [] else
    (if order[0] in choice
     then [Delivery(order[0], Options(clients, choice, order[0]) % 4, name, payload)] else [])
    + FanOut(clients, name, payload, order[1..], choice)
  }

  /** Retained messages for one filter of a SUBSCRIBE: the options are used unmasked. */
  function RetainedFor(retained: map<Str, Topic>, fd: Fd, options: byte, names: seq<Str>): (ds: seq<Delivery>)
    requires forall n :: n in names ==> n in retained
    ensures AllTo(ds, {fd})
  {
    if names == [] then [] else
    [Delivery(fd, options, retained[names[0]].name, retained[names[0]].payload)]
    + RetainedFor(retained, fd, options, names[1..])
  }

  predicate ValidPlan(retained: map<Str, Topic>, filters: seq<Filter>, plan: seq<seq<Str>>) {
    && |plan| == |filters|
    && forall i :: 0 <= i < |plan| ==>
         Enumerates(plan[i], set n | n in retained && RetainedMatch(filters[i].name, n))
  }

  function RetainedAll(retained: map<Str, Topic>, fd: Fd, filters: seq<Filter>, plan: seq<seq<Str>>)
    : (ds: seq<Delivery>)
    requires |plan| == |filters|
    requires forall i :: 0 <= i < |plan| ==> forall n :: n in plan[i] ==> n in retained
    ensures AllTo(ds, {fd})
  {
    if filters == [] then [] else
    RetainedFor(retained, fd, filters[0].options, plan[0]) + RetainedAll(retained, fd, filters[1..], plan[1..])
  }

  // ---------------------------------------------------------------- subscriptions

  /** `AddSubscription` for each filter: `insert` keeps older options. */
  function AddSubs(subs: map<Str, byte>, fs: seq<Filter>): map<Str, byte>
    decreases |fs|
  {
    if fs == [] then subs
    else AddSubs(if fs[0].name in subs then subs else subs[fs[0].name := fs[0].options], fs[1..])
  }

  const SUCCESS: byte := 0
  const NO_SUBSCRIPTION: byte := 0x11
  const GRANTED: byte := 2

  /** `DelSubscription` for each name, with the reason codes of UNSUBACK. */
  function RemoveSubs(subs: map<Str, byte>, ns: seq<Str>): (map<Str, byte>, seq<byte>)
    decreases |ns|
  {
    if ns == [] then (subs, []) else
    var (rest, codes) := RemoveSubs(subs - {ns[0]}, ns[1..]);
    (rest, [if ns[0] in subs then SUCCESS else NO_SUBSCRIPTION] + codes)
  }

  // ---------------------------------------------------------------- steps

  datatype Action =
    | AddClient(fd: Fd)
    | Connect(fd: Fd, front: ConnectFront, back: ConnectBack, holder: Option<Fd>, generated: Str)
    | PublishIn(fd: Fd, qos: byte, retain: bool, id: u16, name: Str, payload: seq<byte>, order: seq<Fd>, choice: Choice,
                at: nat)
    | Subscribe(fd: Fd, id: u16, filters: seq<Filter>, plan: seq<seq<Str>>)
    | PubackIn(fd: Fd, id: u16)
    | PubrecIn(fd: Fd, id: u16)
    | PubrelIn(fd: Fd, id: u16, order: seq<Fd>, choice: Choice)
    | PubcompIn(fd: Fd, id: u16)
    | Unsubscribe(fd: Fd, id: u16, names: seq<Str>)
    | Ping(fd: Fd)
    | Disconnect(fd: Fd)
    | Lost(fd: Fd, timeout: bool, order: seq<Fd>, choice: Choice)
    | Close(fd: Fd)
    | Tick(order: seq<Fd>)
    | Postpone(cid: Str, event: Event)   // `AddQosEvent`, called from outside the broker

  predicate ValidFanOut(s: State, name: Str, order: seq<Fd>, choice: Choice) {
    && Enumerates(order, s.subscribed) && s.subscribed <= s.clients.Keys
    && ValidChoice(s.clients, s.subscribed, name, choice)
  }

  /** `GetClientFd`: some connection with that id, if there is one. */
  predicate ValidHolder(s: State, id: Str, holder: Option<Fd>) {
    match holder
    case None => forall fd :: fd in s.clients ==> s.clients[fd].id != id
    case Some(fd) => fd in s.clients && s.clients[fd].id == id
  }

  predicate Enabled(s: State, a: Action) {
    match a
    case AddClient(_) => true
    case Connect(fd, front, back, holder, generated) =>
      && fd in s.clients && !front.FrontOverrun?
      && (front.Front? && !Rejected(front, holder) ==> !back.BackOverrun?)
      && generated != [] && ValidHolder(s, generated, None)
      && (front.Front? && front.id.Some? ==> front.id.value != [] && ValidHolder(s, front.id.value, holder))
    case PublishIn(fd, qos, _, _, name, _, order, choice, at) =>
      && fd in s.clients && qos < 4
      && (if qos == 2 then at <= |Stored(s, s.clients[fd].id)| else ValidFanOut(s, name, order, choice))
    case Subscribe(fd, _, filters, plan) => fd in s.clients && ValidPlan(s.retained, filters, plan)
    case PubrelIn(fd, id, order, choice) =>
      && fd in s.clients
      && var t := Find(Stored(s, s.clients[fd].id), id);
      (t.Some? ==> ValidFanOut(s, t.value.name, order, choice))
    case Lost(fd, _, order, choice) =>
      && fd in s.clients
      && (WillFlag(s.clients[fd].flags) ==> ValidFanOut(s, s.clients[fd].will.name, order, choice))
    case Tick(order) => Enumerates(order, s.clients.Keys)
    case Postpone(_, _) => true
    case _ => a.fd in s.clients
  }

  // ---- CONNECT

  /** `CloseConnection`. */
  function CloseConnection(s: State, fd: Fd): State {
    s.(clients := s.clients - {fd}, subscribed := s.subscribed - {fd})
  }

  /** The client after `HandleMqttConnect` went past the client id. */
  function Identified(c: Client, front: ConnectFront, generated: Str): Client
    requires front.Front?
  {
    var c1 := c.(flags := front.flags);
    match front.id
    case Some(id) => c1.(id := id)
    case None => c1.(id := generated, randomId := true)
  }

  function WithWill(c: Client, back: ConnectBack): Client {
    if back.Back? && back.will.Some? then c.(will := Message(back.will.value.name, back.will.value.payload)) else c
  }

  /** An object whose connection was closed under it is no longer in the table, and changes to it are lost. */
  function Update(s: State, fd: Fd, c: Client): State {
    if fd in s.clients then s.(clients := s.clients[fd := c]) else s
  }

  /** The id is in use, and the newcomer does not ask for a clean start. */
  predicate Rejected(front: ConnectFront, holder: Option<Fd>) {
    front.Front? && front.id.Some? && holder.Some? && !CleanFlag(front.flags)
  }

  /** The same, without naming a holder. */
  predicate Refused(s: State, front: ConnectFront) {
    && front.Front? && front.id.Some? && !CleanFlag(front.flags)
    && exists fd :: fd in s.clients && s.clients[fd].id == front.id.value
  }

  /** `HandleMqttConnect` returned ok. */
  predicate Accepted(front: ConnectFront, back: ConnectBack, holder: Option<Fd>) {
    front.Front? && !Rejected(front, holder) && back.Back? && back.status == BackOk
  }

  /** The client object after `HandleMqttConnect`. */
  function Parsed(c: Client, front: ConnectFront, back: ConnectBack, holder: Option<Fd>, generated: Str): Client
    requires !front.FrontOverrun?
  {
    if front.BadVersion? then c
    else if front.BadProperties? || Rejected(front, holder) then c.(flags := front.flags)
    else WithWill(Identified(c, front, generated), back)
  }

  /** The connections after it: without the former holder of the id, if that was taken over. */
  function AfterTakeover(s: State, front: ConnectFront, holder: Option<Fd>): State {
    if front.Front? && front.id.Some? && holder.Some? && !Rejected(front, holder)
    then CloseConnection(s, holder.value) else s
  }

  function ConnectStep(s: State, fd: Fd, front: ConnectFront, back: ConnectBack, holder: Option<Fd>, generated: Str)
    : State
    requires fd in s.clients && !front.FrontOverrun?
  {
    var c1 := Parsed(s.clients[fd], front, back, holder, generated);
    var s1 := Update(AfterTakeover(s, front, holder), fd, c1);
    if Accepted(front, back, holder)
    then AddCommand(s1, fd, Connack(!CleanFlag(front.flags), if c1.randomId then Some(c1.id) else None))
    else s1
  }

  // ---- the answers of the handlers that notify, before they do

  /** The retained copy, and PUBACK or PUBREC. */
  function PublishAnswered(s: State, fd: Fd, qos: byte, retain: bool, id: u16, name: Str, payload: seq<byte>)
    : (r: State)
    requires fd in s.clients
    ensures r.clients == s.clients && r.subscribed == s.subscribed && r.stored == s.stored
  {
    var cid := s.clients[fd].id;
    var s1 := if retain then s.(retained := s.retained[name := MakeTopic(qos, id, name, payload)]) else s;
    if qos == 1 then AddCommand(s1, fd, Ack(Puback, false, id))
    else if qos != 2 then s1
    else if Busy(s1, cid) then AddQosEvent(s1, cid, Event(Ack(Pubrec, true, id), id))
    else AddCommand(s1, fd, Ack(Pubrec, false, id))
  }

  /** PUBCOMP, and the front of the queue once more. */
  function PubrelAnswered(s: State, fd: Fd, id: u16): (r: State)
    requires fd in s.clients
    ensures r.clients == s.clients && r.subscribed == s.subscribed && r.stored == s.stored
  {
    var cid := s.clients[fd].id;
    Resend(DelQosEvent(AddCommand(s, fd, Ack(Pubcomp, false, id)), cid, id), fd, cid)
  }

  /** The subscriptions, and SUBACK. */
  function SubscribeAnswered(s: State, fd: Fd, id: u16, filters: seq<Filter>): (r: State)
    requires fd in s.clients
    ensures r.clients.Keys == s.clients.Keys && r.subscribed == s.subscribed && r.stored == s.stored
    ensures r.retained == s.retained
  {
    var c := s.clients[fd];
    AddCommand(s.(clients := s.clients[fd := c.(subs := AddSubs(c.subs, filters))]), fd,
               Suback(id, seq(|filters|, _ => GRANTED)))
  }

  // ---- one step: what a handler does itself, what it has delivered, and what it does after that

  /** Everything a handler does before it notifies anybody. */
  function Prepare(s: State, a: Action): State
    requires Enabled(s, a)
  {
    match a
    case AddClient(fd) => if fd in s.clients then s else s.(clients := s.clients[fd := NEW_CLIENT])
    case Connect(fd, front, back, holder, generated) => ConnectStep(s, fd, front, back, holder, generated)
    case PublishIn(fd, qos, retain, id, name, payload, _, _, at) =>
      var s1 := PublishAnswered(s, fd, qos, retain, id, name, payload);
      if qos == 2 then AddQoSTopic(s1, s.clients[fd].id, MakeTopic(qos, id, name, payload), at) else s1
    case Subscribe(fd, id, filters, _) => SubscribeAnswered(s, fd, id, filters)
    case PubackIn(fd, id) => Resend(DelQosEvent(s, s.clients[fd].id, id), fd, s.clients[fd].id)
    case PubrecIn(fd, id) => AddCommand(DelQosEvent(s, s.clients[fd].id, id), fd, Ack(Pubrel, false, id))
    case PubrelIn(fd, id, _, _) => PubrelAnswered(s, fd, id)
    case PubcompIn(fd, id) => Resend(s, fd, s.clients[fd].id)
    case Unsubscribe(fd, id, names) =>
      var c := s.clients[fd];
      var (subs, codes) := RemoveSubs(c.subs, names);
      AddCommand(Update(s, fd, c.(subs := subs)), fd, Unsuback(id, codes))
    case Ping(fd) => AddCommand(s, fd, Pingresp)
    case Disconnect(_) => s
    case Lost(fd, timeout, _, _) => if timeout then AddCommand(s, fd, KeepAliveTimeout) else s
    case Close(fd) => CloseConnection(s, fd)
    case Tick(order) => TickStep(s, order)
    case Postpone(cid, e) => AddQosEvent(s, cid, e)
  }

  /** One round of `QoSThread`. */
  function TickStep(s: State, order: seq<Fd>): State
    requires forall fd :: fd in order ==> fd in s.clients
    decreases |order|
  {
    if order == [] then s else TickStep(Resend(s, order[0], s.clients[order[0]].id), order[1..])
  }

  /** The message `NotifyClients` is called with, if it is. */
  function Announced(s: State, a: Action): Option<Message>
    requires Enabled(s, a)
  {
    match a
    case PublishIn(_, qos, _, _, name, payload, _, _, _) => if qos == 2 then None else Some(Message(name, payload))
    case PubrelIn(fd, id, _, _) =>
      (match Find(Stored(s, s.clients[fd].id), id)
       case None => None
       case Some(t) => Some(Message(t.name, t.payload)))
    case Lost(fd, _, _, _) => if WillFlag(s.clients[fd].flags) then Some(s.clients[fd].will) else None
    case _ => None
  }

  /** The packets the notifiers are asked to make, in order. */
  function Outgoing(s: State, a: Action): (ds: seq<Delivery>)
    requires Enabled(s, a)
    ensures AllTo(ds, s.clients.Keys)
  {
    var m := Announced(s, a);
    if m.Some? then
      FanOut(s.clients, m.value.name, m.value.payload, a.order, a.choice)
    else if a.Subscribe? then
      PlanIsRetained(s.retained, a.filters, a.plan);
      RetainedAll(s.retained, a.fd, a.filters, a.plan)
    else []
  }

  /** What is left to do once everybody is notified. */
  function Finish(s: State, a: Action, s1: State): State
    requires Enabled(s, a)
  {
    match a
    case Subscribe(fd, _, _, _) => s1.(subscribed := s1.subscribed + {fd})
    case PubrelIn(fd, id, _, _) =>
      var cid := s.clients[fd].id;
      if Find(Stored(s, cid), id).Some? then s1.(stored := s1.stored[cid := RemoveFirst(Stored(s1, cid), id)]) else s1
    case _ => s1
  }

  function Step(s: State, a: Action): State
    requires Enabled(s, a)
  {
    PrepareKeepsConnections(s, a);
    Finish(s, a, DeliverAll(Prepare(s, a), Outgoing(s, a)))
  }

  lemma PlanIsRetained(retained: map<Str, Topic>, filters: seq<Filter>, plan: seq<seq<Str>>)
    requires ValidPlan(retained, filters, plan)
    ensures forall i :: 0 <= i < |plan| ==> forall n :: n in plan[i] ==> n in retained
  {
    forall i | 0 <= i < |plan| ensures forall n :: n in plan[i] ==> n in retained {
      assert Enumerates(plan[i], set n | n in retained && RetainedMatch(filters[i].name, n));
    }
  }

  /** A handler that notifies has neither opened nor closed connections before. */
  lemma PrepareKeepsConnections(s: State, a: Action)
    requires Enabled(s, a)
    ensures AllTo(Outgoing(s, a), Prepare(s, a).clients.Keys)
  {
    hide Busy, Queue, RemoveId, FanOut, RetainedAll, AddSubs;
  }

  // ---------------------------------------------------------------- runs

  /** A run from s0; every action is enabled where it is taken. */
  predicate Run(s0: State, acts: seq<Action>)
    decreases |acts|, 0
  {
    acts == [] || (Run(s0, acts[..|acts| - 1]) && Enabled(Reach(s0, acts[..|acts| - 1]), acts[|acts| - 1]))
  }

  function Reach(s0: State, acts: seq<Action>): State
    requires Run(s0, acts)
    decreases |acts|, 1
  {
    if acts == [] then s0 else Step(Reach(s0, acts[..|acts| - 1]), acts[|acts| - 1])
  }
}

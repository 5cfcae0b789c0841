/** Packet ids drawn for outgoing PUBLISH packets, section 2.2.1 of MQTT 5.0, and subscriptions. */
module BrokerIds {
  import opened Bytes
  import opened Topics
  import opened Parsers
  import opened BrokerModel
  import opened Deliveries
  import H = Headers
  import K = Packets
  import R = Properties

  // ---------------------------------------------------------------- the generator

  /** How many packet ids a list of deliveries draws from a connection's generator. */
  function Draws(ds: seq<Delivery>, fd: Fd): nat {
    if ds == [] then 0 else Draws(ds[..|ds| - 1], fd) + if ds[|ds| - 1].fd == fd && ds[|ds| - 1].qos > 0 then 1 else 0
  }

  lemma DeliverGen(s: State, d: Delivery, fd: Fd)
    requires d.fd in s.clients && fd in s.clients
    ensures fd in Deliver(s, d).clients
    ensures Deliver(s, d).clients[fd].gen
         == if d.fd == fd && d.qos > 0 then (s.clients[fd].gen + 1) % 0x1_0000 else s.clients[fd].gen
  {
  }

  lemma {:induction false} DeliverAllGen(s: State, ds: seq<Delivery>, fd: Fd)
    requires AllTo(ds, s.clients.Keys) && fd in s.clients
    ensures fd in DeliverAll(s, ds).clients
    ensures DeliverAll(s, ds).clients[fd].gen == (s.clients[fd].gen + Draws(ds, fd)) % 0x1_0000
    decreases |ds|
  {
    hide Deliver;
    if ds != [] {
      var front, d := ds[..|ds| - 1], ds[|ds| - 1];
      assert ds == front + [d];
      DeliverAllGen(s, front, fd);
      DeliverAllSnoc(s, front, d);
      DeliverAllFrame(s, front);
      DeliverGen(DeliverAll(s, front), d, fd);
      Wrap(s.clients[fd].gen + Draws(front, fd));
    }
  }

  lemma Wrap(n: nat)
    ensures (n % 0x1_0000 + 1) % 0x1_0000 == (n + 1) % 0x1_0000
  {
  }

  lemma WrapAdd(m: nat, n: nat)
    ensures (m % 0x1_0000 + n) % 0x1_0000 == (m + n) % 0x1_0000
  {
  }

  /** The step puts a new client object under the connection. */
  predicate Registers(s: State, a: Action, fd: Fd) {
    a.AddClient? && a.fd == fd && fd !in s.clients
  }

  lemma {:induction false} TickKeepsClients(s: State, order: seq<Fd>)
    requires forall fd :: fd in order ==> fd in s.clients
    ensures TickStep(s, order).clients == s.clients
    decreases |order|
  {
    if order != [] {
      TickKeepsClients(Resend(s, order[0], s.clients[order[0]].id), order[1..]);
    }
  }

  lemma ConnectGen(s: State, fd: Fd, front: ConnectFront, back: ConnectBack, holder: Option<Fd>, generated: Str)
    requires fd in s.clients && !front.FrontOverrun?
    ensures var s' := ConnectStep(s, fd, front, back, holder, generated);
      forall f :: f in s'.clients ==> f in s.clients && s'.clients[f].gen == s.clients[f].gen
  {
    hide CleanFlag;
  }

  lemma PrepareGen(s: State, a: Action, fd: Fd)
    requires Enabled(s, a) && fd in Prepare(s, a).clients
    ensures if Registers(s, a, fd) then Prepare(s, a).clients[fd].gen == 1
            else fd in s.clients && Prepare(s, a).clients[fd].gen == s.clients[fd].gen
  {
    hide ConnectStep, TickStep, Busy, Queue, AddSubs, RemoveSubs, ValidFanOut, ValidPlan, RemoveId;
    match a
    case Connect(f, front, back, holder, generated) => ConnectGen(s, f, front, back, holder, generated);
    case Tick(order) => TickKeepsClients(s, order);
    case _ =>
  }

  lemma StepGen(s: State, a: Action, fd: Fd)
    requires Enabled(s, a) && fd in Step(s, a).clients
    ensures if Registers(s, a, fd) then Step(s, a).clients[fd].gen == 1
            else fd in s.clients
                 && Step(s, a).clients[fd].gen == (s.clients[fd].gen + Draws(Outgoing(s, a), fd)) % 0x1_0000
  {
    hide Prepare, Outgoing, Step, Enabled, Registers, Draws;
    PrepareKeepsConnections(s, a);
    StepClients(s, a, fd);
    DeliverAllFrame(Prepare(s, a), Outgoing(s, a));
    PrepareGen(s, a, fd);
    DeliverAllGen(Prepare(s, a), Outgoing(s, a), fd);
  }

  lemma StepClients(s: State, a: Action, fd: Fd)
    requires Enabled(s, a)
    ensures AllTo(Outgoing(s, a), Prepare(s, a).clients.Keys)
    ensures Step(s, a).clients == DeliverAll(Prepare(s, a), Outgoing(s, a)).clients
    ensures Registers(s, a, fd) ==> Draws(Outgoing(s, a), fd) == 0
  {
    PrepareKeepsConnections(s, a);
    assert Registers(s, a, fd) ==> Outgoing(s, a) == [];
    hide Prepare, Outgoing, Find, RemoveFirst;
  }

  /** The packet ids drawn for a connection since its client was registered. */
  function DrawnSince(acts: seq<Action>, fd: Fd): nat
    requires Run(START, acts)
  {
    if acts == [] then 0 else
    var s, a := Reach(START, acts[..|acts| - 1]), acts[|acts| - 1];
    if Registers(s, a, fd) then 0 else DrawnSince(acts[..|acts| - 1], fd) + Draws(Outgoing(s, a), fd)
  }

  /** In every run the generator of a connection stands at one more than the ids drawn, modulo 2^16. */
  lemma {:induction false} GeneratorCounts(acts: seq<Action>, fd: Fd)
    requires Run(START, acts) && fd in Reach(START, acts).clients
    ensures Reach(START, acts).clients[fd].gen == (1 + DrawnSince(acts, fd)) % 0x1_0000
  {
    hide Step, Enabled, Outgoing, Registers;
    if acts != [] {
      var before, a := acts[..|acts| - 1], acts[|acts| - 1];
      var s := Reach(START, before);
      StepGen(s, a, fd);
      if !Registers(s, a, fd) {
        GeneratorCounts(before, fd);
        WrapAdd(1 + DrawnSince(before, fd), Draws(Outgoing(s, a), fd));
      }
    }
  }

  /** The topic as the i-th delivery of a step sends it. */
  function TopicSent(s: State, a: Action, i: nat): Topic
    requires Enabled(s, a) && i < |Outgoing(s, a)|
  {
    var ds := Outgoing(s, a);
    PrepareKeepsConnections(s, a);
    assert AllTo(ds[..i], Prepare(s, a).clients.Keys) && ds[i] in ds;
    DeliverAllFrame(Prepare(s, a), ds[..i]);
    Numbered(DeliverAll(Prepare(s, a), ds[..i]).clients[ds[i].fd], ds[i])
  }

  /** Which message above QoS 0 to its client that delivery would be, counted from 1. */
  function MessageNumber(acts: seq<Action>, a: Action, i: nat): nat
    requires Run(START, acts) && Enabled(Reach(START, acts), a) && i < |Outgoing(Reach(START, acts), a)|
  {
    var ds := Outgoing(Reach(START, acts), a);
    DrawnSince(acts, ds[i].fd) + Draws(ds[..i], ds[i].fd) + 1
  }

  lemma TopicSentGen(s: State, a: Action, i: nat)
    requires Enabled(s, a) && i < |Outgoing(s, a)|
    ensures var d := Outgoing(s, a)[i];
      && d.fd in s.clients
      && TopicSent(s, a, i) == Topic(d.qos, if d.qos == 0 then 0
                                            else (s.clients[d.fd].gen + Draws(Outgoing(s, a)[..i], d.fd)) % 0x1_0000,
                                     d.name, d.payload)
  {
    var ds := Outgoing(s, a);
    var fd := ds[i].fd;
    assert ds[i] in ds && !Registers(s, a, fd);
    PrepareKeepsConnections(s, a);
    PrepareGen(s, a, fd);
    hide Prepare, Outgoing, Enabled, Draws;
    assert AllTo(ds[..i], Prepare(s, a).clients.Keys);
    DeliverAllGen(Prepare(s, a), ds[..i], fd);
  }

  /** In every run, the k-th message above QoS 0 to a client carries packet id k modulo 2^16. */
  lemma PacketIdOfMessage(acts: seq<Action>, a: Action, i: nat)
    requires Run(START, acts) && Enabled(Reach(START, acts), a) && i < |Outgoing(Reach(START, acts), a)|
    ensures var d := Outgoing(Reach(START, acts), a)[i];
      TopicSent(Reach(START, acts), a, i)
      == Topic(d.qos, if d.qos == 0 then 0 else MessageNumber(acts, a, i) % 0x1_0000, d.name, d.payload)
  {
    hide Run, Enabled, Reach, Outgoing, TopicSent, DrawnSince, Draws;
    var s := Reach(START, acts);
    var fd, drawn := Outgoing(s, a)[i].fd, Draws(Outgoing(s, a)[..i], Outgoing(s, a)[i].fd);
    TopicSentGen(s, a, i);
    GeneratorCounts(acts, fd);
    WrapAdd(1 + DrawnSince(acts, fd), drawn);
  }

  // ---------------------------------------------------------------- the notifiers' size assertion

  function HeaderOf(t: Topic): H.Header {
    H.PublishH(t.name, t.id, map[])
  }

  function FirstOf(t: Topic, dup: bool): byte {
    H.FirstByte(H.PUBLISH, dup, t.qos)
  }

  predicate SmallTopic(t: Topic) {
    |t.name| < 0x1_0000 && |t.payload| < 0x1_0000
  }

  /** The size assertion in `CreateMqttPacket` when a notifier makes this PUBLISH. */
  predicate AssertionHolds(t: Topic, dup: bool)
    requires SmallTopic(t)
  {
    K.PublishFits(FirstOf(t, dup), HeaderOf(t), t.payload);
    K.SizesAgree(FirstOf(t, dup), HeaderOf(t), t.payload)
  }

  /** It holds exactly when masked QoS and packet id are zero together. */
  lemma TopicSizesAgreeIff(t: Topic, dup: bool)
    requires SmallTopic(t)
    ensures AssertionHolds(t, dup) <==> (t.qos % 4 == 0 <==> t.id == 0)
  {
    hide K.SizesAgree, H.QoS, H.FirstByte;
    H.FirstByteRoundTrip(H.PUBLISH, dup, t.qos);
    R.BodyEmpty();
    K.PublishAssertionIff(FirstOf(t, dup), HeaderOf(t), t.payload);
  }

  /**
    In every run, for every PUBLISH a notifier makes: the assertion holds unless
    a packet id has wrapped to 0 or retained options above 3 mask to QoS 0, but
    not both.  So for options at most 3 it holds for a client's first 65535
    messages above QoS 0, and not for the one after.
   */
  lemma SizeAssertionInRuns(acts: seq<Action>, a: Action, i: nat, dup: bool)
    requires Run(START, acts) && Enabled(Reach(START, acts), a) && i < |Outgoing(Reach(START, acts), a)|
    requires SmallTopic(TopicSent(Reach(START, acts), a, i))
    ensures var t, k := TopicSent(Reach(START, acts), a, i), MessageNumber(acts, a, i);
      && (AssertionHolds(t, dup) <==> (t.qos % 4 == 0 <==> t.qos == 0 || k % 0x1_0000 == 0))
      && (t.qos < 4 ==> (AssertionHolds(t, dup) <==> t.qos == 0 || k % 0x1_0000 != 0))
      && (t.qos < 4 && k <= 0xFFFF ==> AssertionHolds(t, dup))
  {
    hide Run, Enabled, Reach, Outgoing, TopicSent, AssertionHolds;
    PacketIdOfMessage(acts, a, i);
    TopicSizesAgreeIff(TopicSent(Reach(START, acts), a, i), dup);
  }

  /** Retained messages use the options unmasked: the exact condition for any options and any generator. */
  lemma RetainedSizesAgreeIff(c: Client, d: Delivery, dup: bool)
    requires SmallTopic(Numbered(c, d))
    ensures AssertionHolds(Numbered(c, d), dup) <==> (d.qos % 4 == 0 <==> d.qos == 0 || c.gen == 0)
  {
    hide AssertionHolds;
    TopicSizesAgreeIff(Numbered(c, d), dup);
  }

  /** What a client reads from the bytes of a PUBLISH the broker put out is what the broker delivered. */
  lemma DeliveredAsSent(t: Topic, dup: bool, stray: R.Stray, rest: seq<byte>)
    requires SmallTopic(t) && t.qos < 4 && (t.qos == 0 <==> t.id == 0)
    ensures var first := FirstOf(t, dup);
      && 0 <= K.PublishRemaining(first, HeaderOf(t), t.payload) < TWO_TO_THE_28
      && H.QoS(first) == t.qos && H.IsDup(first) == dup
      && var body := H.EncodeHeader(HeaderOf(t)) + t.payload;
      && H.ReadFixed(K.PublishBytes(first, HeaderOf(t), t.payload) + rest) == H.FixedRead(first, |body|, body + rest)
      && K.ParsePublish(first, body, stray) == Some(K.PublishMessage(t.name, t.id, map[], t.payload))
  {
    hide H.FirstByte, H.QoS, H.IsDup, H.PacketType, H.IsRetain, H.EncodeHeader, H.ReadFixed, K.PublishBytes,
      K.ParsePublish, K.PublishRemaining, R.CopyChain;
    R.BodyEmpty();
    NoProperties(stray);
    K.PublishRoundTrip(dup, t.qos, t.name, t.id, map[], t.payload, stray, rest);
  }

  lemma NoProperties(stray: R.Stray)
    ensures R.CopyChain(map[], stray) == map[] && R.NoBinary(map[])
  {
  }

  // ---------------------------------------------------------------- subscriptions

  /** Options stay those of the first subscription to a filter until it is removed. */
  lemma {:induction false} FirstSubscriptionStays(subs: map<Str, byte>, fs: seq<Filter>, name: Str)
    ensures name in AddSubs(subs, fs) <==> name in subs || exists i :: 0 <= i < |fs| && fs[i].name == name
    ensures name in subs ==> AddSubs(subs, fs)[name] == subs[name]
    ensures forall i | 0 <= i < |fs| && fs[i].name == name && name !in subs
              && (forall j :: 0 <= j < i ==> fs[j].name != name)
              :: AddSubs(subs, fs)[name] == fs[i].options
    decreases |fs|
  {
    if fs != [] {
      var subs1 := if fs[0].name in subs then subs else subs[fs[0].name := fs[0].options];
      var tail := fs[1..];
      FirstSubscriptionStays(subs1, tail, name);
      assert forall i :: 0 <= i < |tail| ==> tail[i] == fs[i + 1];
      assert forall i :: 0 < i < |fs| ==> fs[i] == tail[i - 1];
      forall i | 0 <= i < |fs| && fs[i].name == name && name !in subs
              && (forall j :: 0 <= j < i ==> fs[j].name != name)
        ensures AddSubs(subs, fs)[name] == fs[i].options
      {
        if i > 0 {
          assert fs[0].name != name;
          assert forall j :: 0 <= j < i - 1 ==> tail[j].name != name;
        }
      }
    }
  }

  /** The i-th reason code of UNSUBACK says whether the filter was subscribed and not already named in the same list. */
  lemma {:induction false} UnsubscribeCodes(subs: map<Str, byte>, ns: seq<Str>)
    ensures var (rest, codes) := RemoveSubs(subs, ns);
      && |codes| == |ns|
      && (forall i :: 0 <= i < |ns| ==>
            codes[i] == if ns[i] in subs && ns[i] !in ns[..i] then SUCCESS else NO_SUBSCRIPTION)
      && rest == subs - (set n | n in ns)
    decreases |ns|
  {
    if ns != [] {
      var tail := ns[1..];
      UnsubscribeCodes(subs - {ns[0]}, tail);
      var (rest, codes) := RemoveSubs(subs, ns);
      forall i | 0 <= i < |ns|
        ensures codes[i] == if ns[i] in subs && ns[i] !in ns[..i] then SUCCESS else NO_SUBSCRIPTION
      {
        if i > 0 {
          assert tail[i - 1] == ns[i] && ns[..i] == [ns[0]] + tail[..i - 1];
        }
      }
      assert (set n | n in ns) == {ns[0]} + set n | n in tail;
    }
  }
}

/** Runs in which the size assertion fails, from packets any client may send. */
module BrokerWitnesses {
  import opened Bytes
  import opened Topics
  import opened Parsers
  import opened BrokerModel
  import opened Deliveries
  import opened BrokerIds
  import opened BrokerLoops

  const NAME: Str := [97]
  const FRONT := Front(2, 60, map[], Some(NAME), [])
  const BACK := Back(BackOk, map[], None, None, None, [])
  const CONNECT := Connect(1, FRONT, BACK, None, [98])
  const SUBSCRIBE := Subscribe(1, 1, [Filter(NAME, 1)], [[]])

  /** The subscriber publishes to itself. */
  const PUBLISH := PublishIn(1, 0, false, 0, NAME, [], [1], map[1 := NAME], 0)

  function Subscriber(subs: map<Str, byte>, gen: u16): Client {
    Client(NAME, subs, gen, 2, false, Message([], []))
  }

  /** One client, subscribed at QoS 1, with nothing postponed. */
  predicate Steady(s: State, gen: u16) {
    && s.clients == map[1 := Subscriber(map[NAME := 1], gen)] && s.subscribed == {1}
    && s.postponed == map[] && s.retained == map[]
  }

  lemma MatchesName()
    ensures LiveMatch(NAME, NAME) && RetainedMatch(NAME, NAME)
  {
    assert NAME[..1] == NAME && NAME[1..] == [];
    TokenLengthIs(NAME, 1);
    assert Tokens(NAME) == [NAME];
    RetainedVersusLive(NAME, NAME);
  }

  const OPENING := [AddClient(1), CONNECT]

  /** The client connects. */
  lemma Connected() returns (acts: seq<Action>)
    ensures acts == OPENING && Run(START, acts)
    ensures var s := Reach(START, acts);
      && s.clients == map[1 := Subscriber(map[], 1)] && s.subscribed == {}
      && s.postponed == map[] && s.retained == map[]
    ensures DrawnSince(acts, 1) == 0
  {
    StepExtendsRun(START, [], AddClient(1));
    assert [] + [AddClient(1)] == [AddClient(1)];
    var s := Reach(START, [AddClient(1)]);
    assert s == START.(clients := map[1 := NEW_CLIENT]);
    StepExtendsRun(START, [AddClient(1)], CONNECT);
    acts := [AddClient(1)] + [CONNECT];
    assert acts[..1] == [AddClient(1)];
  }

  lemma NothingRetained(s: State)
    requires s.clients == map[1 := Subscriber(map[], 1)] && s.subscribed == {}
    requires s.postponed == map[] && s.retained == map[]
    ensures Enabled(s, SUBSCRIBE) && Outgoing(s, SUBSCRIBE) == [] && Steady(Step(s, SUBSCRIBE), 1)
  {
    hide Step, DeliverAll, Prepare, Finish, RetainedMatch;
    EmptyPlan(s.retained);
    SubscribeStep(s, 1, 1, [Filter(NAME, 1)], [[]]);
    DeliverNothing(SubscribeAnswered(s, 1, 1, [Filter(NAME, 1)]));
    assert AddSubs(map[], [Filter(NAME, 1)]) == map[NAME := 1];
  }

  lemma EmptyPlan(retained: map<Str, Topic>)
    requires retained == map[]
    ensures ValidPlan(retained, [Filter(NAME, 1)], [[]]) && RetainedAll(retained, 1, [Filter(NAME, 1)], [[]]) == []
  {
    hide RetainedMatch;
    var plan: seq<seq<Str>> := [[]];
    assert [Filter(NAME, 1)][1..] == [] && plan[1..] == [];
    assert RetainedFor(retained, 1, 1, []) == [] && RetainedAll(retained, 1, [], []) == [];
  }

  lemma Subscribed() returns (acts: seq<Action>)
    ensures acts == OPENING + [SUBSCRIBE]
    ensures Run(START, acts) && Steady(Reach(START, acts), 1) && DrawnSince(acts, 1) == 0
  {
    var before := Connected();
    var s := Reach(START, before);
    NothingRetained(s);
    StepExtendsRun(START, before, SUBSCRIBE);
    acts := before + [SUBSCRIBE];
    assert acts[..|acts| - 1] == before;
  }

  lemma OnePublish(s: State, gen: u16)
    requires Steady(s, gen)
    ensures Enabled(s, PUBLISH) && Outgoing(s, PUBLISH) == [Delivery(1, 1, NAME, [])]
    ensures Steady(Step(s, PUBLISH), (gen + 1) % 0x1_0000)
  {
    MatchesName();
    var d := Delivery(1, 1, NAME, []);
    assert FanOut(s.clients, NAME, [], [], map[1 := NAME]) == [] && [1][1..] == [];
    assert FanOut(s.clients, NAME, [], [1], map[1 := NAME]) == [d];
    PublishStep(s, 1, 0, false, 0, NAME, [], [1], map[1 := NAME], 0);
    DeliverNothing(s);
    DeliverAllSnoc(s, [], d);
    assert [] + [d] == [d];
  }

  function Publishes(n: nat): seq<Action> {
    if n == 0 then [] else Publishes(n - 1) + [PUBLISH]
  }

  /** CONNECT, SUBSCRIBE and n times PUBLISH, with n packet ids drawn. */
  predicate After(acts: seq<Action>, n: nat) {
    && acts == OPENING + [SUBSCRIBE] + Publishes(n)
    && Run(START, acts) && Steady(Reach(START, acts), (1 + n) % 0x1_0000) && DrawnSince(acts, 1) == n
  }

  lemma OneMore(acts: seq<Action>, n: nat)
    requires After(acts, n)
    ensures After(acts + [PUBLISH], n + 1)
  {
    hide Step, Enabled, Outgoing, Steady;
    OnePublish(Reach(START, acts), (1 + n) % 0x1_0000);
    StepExtendsRun(START, acts, PUBLISH);
    var longer := acts + [PUBLISH];
    assert longer[..|longer| - 1] == acts;
    Associate(OPENING + [SUBSCRIBE], Publishes(n), [PUBLISH]);
    Wrap(1 + n);
    DrawsOne();
    assert !Registers(Reach(START, acts), PUBLISH, 1);
    assert DrawnSince(longer, 1) == n + 1;
  }

  lemma DrawsOne()
    ensures Draws([Delivery(1, 1, NAME, [])], 1) == 1
  {
    assert [Delivery(1, 1, NAME, [])][..0] == [];
  }

  lemma Next(acts: seq<Action>, n: nat)
    requires After(acts, n)
    ensures Run(START, acts) && Enabled(Reach(START, acts), PUBLISH)
    ensures Outgoing(Reach(START, acts), PUBLISH) == [Delivery(1, 1, NAME, [])]
    ensures MessageNumber(acts, PUBLISH, 0) == n + 1
  {
    hide Step, Enabled, Outgoing, Steady, Publishes, Run, Reach, DrawnSince;
    OnePublish(Reach(START, acts), (1 + n) % 0x1_0000);
    assert [Delivery(1, 1, NAME, [])][..0] == [];
  }

  lemma AfterNone() returns (acts: seq<Action>)
    ensures After(acts, 0)
  {
    hide Steady, Run, Reach, DrawnSince;
    acts := Subscribed();
    assert acts + [] == acts;
  }

  lemma {:induction false} AfterMany(n: nat) returns (acts: seq<Action>)
    ensures After(acts, n)
  {
    hide After;
    if n == 0 {
      acts := AfterNone();
    } else {
      var before := AfterMany(n - 1);
      OneMore(before, n - 1);
      acts := before + [PUBLISH];
    }
  }

  /** For every n, a run after which the next PUBLISH delivers message n + 1 to the client. */
  lemma Published(n: nat) returns (acts: seq<Action>)
    ensures After(acts, n) && Enabled(Reach(START, acts), PUBLISH)
    ensures Outgoing(Reach(START, acts), PUBLISH) == [Delivery(1, 1, NAME, [])]
    ensures MessageNumber(acts, PUBLISH, 0) == n + 1
  {
    hide Step, Enabled, Outgoing, Steady, Publishes, Run, Reach, DrawnSince, MessageNumber;
    acts := AfterMany(n);
    Next(acts, n);
  }

  /** A client's 65536th message above QoS 0 fails the assertion. */
  lemma WrappedIdFails(dup: bool) returns (acts: seq<Action>, n: nat)
    ensures n == 0xFFFF && acts == OPENING + [SUBSCRIBE] + Publishes(n)
    ensures Run(START, acts) && Enabled(Reach(START, acts), PUBLISH) && |Outgoing(Reach(START, acts), PUBLISH)| == 1
    ensures MessageNumber(acts, PUBLISH, 0) == 0x1_0000
    ensures var t := TopicSent(Reach(START, acts), PUBLISH, 0);
      SmallTopic(t) && t == Topic(1, 0, NAME, []) && !AssertionHolds(t, dup)
  {
    hide Run, Reach, Enabled, Outgoing, TopicSent, AssertionHolds, MessageNumber, Publishes;
    n := 0xFFFF;
    acts := Published(n);
    PacketIdOfMessage(acts, PUBLISH, 0);
    SizeAssertionInRuns(acts, PUBLISH, 0, dup);
  }

  const RETAIN := PublishIn(1, 0, true, 0, NAME, [], [], map[], 0)

  function SubscribeWith(options: byte): Action {
    Subscribe(1, 1, [Filter(NAME, options)], [[NAME]])
  }

  lemma Retained() returns (acts: seq<Action>)
    ensures acts == OPENING + [RETAIN]
    ensures Run(START, acts)
    ensures var s := Reach(START, acts);
      && s.clients == map[1 := Subscriber(map[], 1)] && s.subscribed == {} && s.postponed == map[]
      && s.retained == map[NAME := Topic(0, 0, NAME, [])]
    ensures DrawnSince(acts, 1) == 0
  {
    var before := Connected();
    assert Outgoing(Reach(START, before), RETAIN) == [];
    StepExtendsRun(START, before, RETAIN);
    acts := before + [RETAIN];
    assert acts[..|acts| - 1] == before;
  }

  lemma RetainedDelivery(s: State, options: byte)
    requires s.clients == map[1 := Subscriber(map[], 1)] && s.retained == map[NAME := Topic(0, 0, NAME, [])]
    ensures Enabled(s, SubscribeWith(options))
    ensures Outgoing(s, SubscribeWith(options)) == [Delivery(1, options, NAME, [])]
  {
    MatchesName();
    var found := set n | n in s.retained && RetainedMatch(NAME, n);
    assert Enumerates([NAME], found);
    assert ValidPlan(s.retained, [Filter(NAME, options)], [[NAME]]);
    assert RetainedFor(s.retained, 1, options, []) == [] && [NAME][1..] == [];
    assert RetainedAll(s.retained, 1, [], []) == [];
    assert [Filter(NAME, options)][1..] == [] && [[NAME]][1..] == [];
  }

  /**
    A retained message for a SUBSCRIBE with any options: the very first message
    a client gets fails the assertion exactly for options 4, 8, 12 and so on.
   */
  lemma RetainedOptionsFailIff(options: byte, dup: bool) returns (acts: seq<Action>)
    ensures acts == OPENING + [RETAIN]
    ensures Run(START, acts) && Enabled(Reach(START, acts), SubscribeWith(options))
    ensures |Outgoing(Reach(START, acts), SubscribeWith(options))| == 1
    ensures var t := TopicSent(Reach(START, acts), SubscribeWith(options), 0);
      SmallTopic(t) && t.qos == options && (!AssertionHolds(t, dup) <==> options > 0 && options % 4 == 0)
  {
    hide Run, Reach, Enabled, Outgoing, TopicSent, AssertionHolds, MessageNumber;
    acts := Retained();
    RetainedDelivery(Reach(START, acts), options);
    FirstMessage(acts, SubscribeWith(options));
    PacketIdOfMessage(acts, SubscribeWith(options), 0);
    SizeAssertionInRuns(acts, SubscribeWith(options), 0, dup);
  }

  lemma FirstMessage(acts: seq<Action>, a: Action)
    requires Run(START, acts) && Enabled(Reach(START, acts), a) && |Outgoing(Reach(START, acts), a)| > 0
    requires DrawnSince(acts, Outgoing(Reach(START, acts), a)[0].fd) == 0
    ensures MessageNumber(acts, a, 0) == 1
  {
    hide Run, Reach, Enabled, Outgoing, DrawnSince;
  }
}

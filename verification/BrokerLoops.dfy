/** What the loops and branches of the handlers add up to, in terms of the model's steps. */
module BrokerLoops {
  import opened Bytes
  import opened Topics
  import opened Parsers
  import opened Deliveries
  import M = BrokerModel

  /** Most packets are announced to nobody. */
  lemma QuietStep(s: M.State, a: M.Action)
    requires M.Enabled(s, a)
    requires !a.PublishIn? && !a.Subscribe? && !a.PubrelIn? && !a.Lost?
    ensures M.Step(s, a) == M.Prepare(s, a)
  {
    hide M.Prepare;
  }

  /** A delivery once the client's generator has moved on. */
  lemma DeliverCases(s: M.State, d: M.Delivery)
    requires d.fd in s.clients
    ensures var c, s1 := s.clients[d.fd], s.(clients := s.clients[d.fd := M.Draw(s.clients[d.fd], d)]);
      var t := M.Numbered(c, d);
      && t.qos == d.qos && t.name == d.name && t.payload == d.payload
      && M.Deliver(s, d)
         == if d.qos > 0 && M.Busy(s1, c.id) then M.AddQosEvent(s1, c.id, M.Event(M.Publish(true, t), t.id))
            else M.AddCommand(s1, d.fd, M.Publish(false, t))
  {
  }

  /** A handler that takes a step of the model extends whatever run led to the state it was called in. */
  lemma StepExtendsRun(s0: M.State, acts: seq<M.Action>, a: M.Action)
    requires M.Run(s0, acts) && M.Enabled(M.Reach(s0, acts), a)
    ensures M.Run(s0, acts + [a]) && M.Reach(s0, acts + [a]) == M.Step(M.Reach(s0, acts), a)
  {
    hide M.Step, M.Enabled;
    var longer := acts + [a];
    assert longer[..|longer| - 1] == acts;
  }

  /** What the loop of UNSUBSCRIBE ends with when `ns` is still to come. */
  function RemoveRest(subs: map<Str, byte>, ns: seq<Str>, codes: seq<byte>): (map<Str, byte>, seq<byte>) {
    var (rest, more) := M.RemoveSubs(subs, ns);
    (rest, codes + more)
  }

  lemma RemoveStart(subs: map<Str, byte>, ns: seq<Str>)
    ensures RemoveRest(subs, ns[0..], []) == M.RemoveSubs(subs, ns)
  {
    assert ns[0..] == ns;
    assert [] + M.RemoveSubs(subs, ns).1 == M.RemoveSubs(subs, ns).1;
  }

  lemma RemoveEnd(subs: map<Str, byte>, codes: seq<byte>)
    ensures RemoveRest(subs, [], codes) == (subs, codes)
  {
    assert codes + [] == codes;
  }

  lemma RemoveStep(subs: map<Str, byte>, ns: seq<Str>, i: nat, codes: seq<byte>)
    requires i < |ns|
    ensures var code := if ns[i] in subs then M.SUCCESS else M.NO_SUBSCRIPTION;
      RemoveRest(subs, ns[i..], codes) == RemoveRest(subs - {ns[i]}, ns[i + 1..], codes + [code])
  {
    assert ns[i..][1..] == ns[i + 1..];
    var code := if ns[i] in subs then M.SUCCESS else M.NO_SUBSCRIPTION;
    Associate(codes, [code], M.RemoveSubs(subs - {ns[i]}, ns[i + 1..]).1);
  }

  lemma UnsubscribeStep(s: M.State, fd: int, id: u16, names: seq<Str>)
    requires fd in s.clients
    ensures var (subs, codes) := M.RemoveSubs(s.clients[fd].subs, names);
      M.Step(s, M.Unsubscribe(fd, id, names))
      == M.AddCommand(s.(clients := s.clients[fd := s.clients[fd].(subs := subs)]), fd, M.Unsuback(id, codes))
  {
    QuietStep(s, M.Unsubscribe(fd, id, names));
  }

  lemma PublishStep(s: M.State, fd: int, qos: byte, retain: bool, id: u16, name: Str, payload: seq<byte>,
                    order: seq<int>, choice: M.Choice, at: nat)
    requires fd in s.clients && qos < 4
    ensures var a := M.PublishIn(fd, qos, retain, id, name, payload, order, choice, at);
      var s1 := M.PublishAnswered(s, fd, qos, retain, id, name, payload);
      var cid := s.clients[fd].id;
      && (qos == 2 && at <= |M.Stored(s1, cid)| ==>
            M.Enabled(s, a) && M.Step(s, a) == M.AddQoSTopic(s1, cid, MakeTopic(qos, id, name, payload), at))
      && (qos != 2 && M.ValidFanOut(s1, name, order, choice) ==>
            M.Enabled(s, a) && M.Step(s, a) == M.DeliverAll(s1, M.FanOut(s.clients, name, payload, order, choice)))
  {
  }

  lemma PubrelStep(s: M.State, fd: int, id: u16, order: seq<int>, choice: M.Choice)
    requires fd in s.clients
    ensures var a, s1, cid := M.PubrelIn(fd, id, order, choice), M.PubrelAnswered(s, fd, id), s.clients[fd].id;
      var t := M.Find(M.Stored(s1, cid), id);
      && (t.None? ==> M.Enabled(s, a) && M.Step(s, a) == s1)
      && (t.Some? && M.ValidFanOut(s1, t.value.name, order, choice) ==>
            var s2 := M.DeliverAll(s1, M.FanOut(s1.clients, t.value.name, t.value.payload, order, choice));
            M.Enabled(s, a) && M.Step(s, a) == s2.(stored := s2.stored[cid := M.RemoveFirst(M.Stored(s2, cid), id)]))
  {
    hide M.RemoveId, M.Busy, M.FanOut;
  }

  lemma LostStep(s: M.State, fd: int, timeout: bool, order: seq<int>, choice: M.Choice)
    requires fd in s.clients
    ensures var s1 := if timeout then M.AddCommand(s, fd, M.KeepAliveTimeout) else s;
      var a, c := M.Lost(fd, timeout, order, choice), s.clients[fd];
      && (!WillFlag(c.flags) ==> M.Enabled(s, a) && M.Step(s, a) == s1)
      && (WillFlag(c.flags) && M.ValidFanOut(s1, c.will.name, order, choice) ==>
            && M.Enabled(s, a)
            && M.Step(s, a) == M.DeliverAll(s1, M.FanOut(s1.clients, c.will.name, c.will.payload, order, choice)))
  {
    hide M.FanOut;
  }

  predicate PlanIn(retained: map<Str, Topic>, plan: seq<seq<Str>>) {
    forall i :: 0 <= i < |plan| ==> forall n :: n in plan[i] ==> n in retained
  }

  lemma PlanNothing(retained: map<Str, Topic>, fd: int)
    ensures M.ValidPlan(retained, [], []) && M.RetainedAll(retained, fd, [], []) == []
  {
  }

  /** The loop over the filters of a SUBSCRIBE has dealt with one more. */
  lemma PlanOneMore(retained: map<Str, Topic>, fd: int, filters: seq<Filter>, plan: seq<seq<Str>>, f: Filter,
                    names: seq<Str>)
    requires M.ValidPlan(retained, filters, plan) && PlanIn(retained, plan)
    requires M.Enumerates(names, set n | n in retained && RetainedMatch(f.name, n))
    ensures M.ValidPlan(retained, filters + [f], plan + [names]) && PlanIn(retained, plan + [names])
    ensures forall n :: n in names ==> n in retained
    ensures M.RetainedAll(retained, fd, filters + [f], plan + [names])
         == M.RetainedAll(retained, fd, filters, plan) + M.RetainedFor(retained, fd, f.options, names)
  {
    hide RetainedMatch, M.RetainedAll, M.RetainedFor, M.NoDuplicates;
    RetainedAllSnoc(retained, fd, filters, plan, f, names);
  }

  lemma SubscribeStep(s: M.State, fd: int, id: u16, filters: seq<Filter>, plan: seq<seq<Str>>)
    requires fd in s.clients && M.ValidPlan(s.retained, filters, plan) && PlanIn(s.retained, plan)
    ensures M.Enabled(s, M.Subscribe(fd, id, filters, plan))
    ensures var s2 := M.DeliverAll(M.SubscribeAnswered(s, fd, id, filters),
                                   M.RetainedAll(s.retained, fd, filters, plan));
      M.Step(s, M.Subscribe(fd, id, filters, plan)) == s2.(subscribed := s2.subscribed + {fd})
  {
    hide M.RetainedAll, M.AddSubs;
  }

  lemma RemoveOneMore(rest: seq<M.Event>, q: seq<M.Event>, i: nat, id: u16)
    requires i < |q|
    ensures rest + M.RemoveId(q[i..], id)
         == (if q[i].id != id then rest + [q[i]] else rest) + M.RemoveId(q[i + 1..], id)
  {
    assert q[i..][1..] == q[i + 1..];
  }

  lemma TickNothing(s: M.State)
    ensures M.TickStep(s, []) == s
  {
  }

  lemma {:induction false} TickOneMore(s: M.State, order: seq<int>, fd: int)
    requires (forall c :: c in order ==> c in s.clients) && fd in s.clients
    ensures forall c :: c in order + [fd] ==> c in s.clients
    ensures M.TickStep(s, order + [fd]) == M.Resend(M.TickStep(s, order), fd, s.clients[fd].id)
    decreases |order|
  {
    if order == [] {
      assert [] + [fd] == [fd] && [fd][1..] == [];
    } else {
      assert (order + [fd])[1..] == order[1..] + [fd];
      TickOneMore(M.Resend(s, order[0], s.clients[order[0]].id), order[1..], fd);
    }
  }

  /** Nobody is notified of a CONNECT. */
  lemma ConnectIsQuiet(s: M.State, fd: int, front: ConnectFront, back: ConnectBack, holder: Option<int>, generated: Str)
    requires fd in s.clients && !front.FrontOverrun?
    requires front.Front? && !M.Rejected(front, holder) ==> !back.BackOverrun?
    requires generated != [] && M.ValidHolder(s, generated, None)
    requires front.Front? && front.id.Some? ==> front.id.value != [] && M.ValidHolder(s, front.id.value, holder)
    ensures var a := M.Connect(fd, front, back, holder, generated);
      M.Enabled(s, a) && M.Step(s, a) == M.ConnectStep(s, fd, front, back, holder, generated)
    ensures var c := M.Parsed(s.clients[fd], front, back, holder, generated);
      c.subs == s.clients[fd].subs && (M.Accepted(front, back, holder) ==> c.flags == front.flags)
  {
    hide M.ConnectStep, M.ValidHolder;
  }

  /** Whether CONNECT is refused does not depend on which holder of the id the search meets. */
  lemma RefusedIsRejected(s: M.State, front: ConnectFront, holder: Option<int>)
    requires front.Front? && front.id.Some? ==> M.ValidHolder(s, front.id.value, holder)
    ensures M.Refused(s, front) <==> M.Rejected(front, holder)
  {
  }

  lemma SameHolder(s: M.State, s1: M.State, cid: Str, holder: Option<int>)
    requires s1.clients.Keys == s.clients.Keys && forall fd :: fd in s.clients ==> s1.clients[fd].id == s.clients[fd].id
    requires M.ValidHolder(s1, cid, holder)
    ensures M.ValidHolder(s, cid, holder)
  {
  }

  /** The connections a CONNECT closes. */
  function Taken(front: ConnectFront, holder: Option<int>): set<int> {
    if front.Front? && front.id.Some? && holder.Some? && !M.Rejected(front, holder) then {holder.value} else {}
  }

  lemma AfterTakeoverIs(s: M.State, front: ConnectFront, holder: Option<int>)
    ensures var taken := Taken(front, holder);
      M.AfterTakeover(s, front, holder) == s.(clients := s.clients - taken, subscribed := s.subscribed - taken)
  {
    assert s.clients - {} == s.clients && s.subscribed - {} == s.subscribed;
  }

  lemma UpdateByKeys(clients: map<int, M.Client>, s: M.State, fd: int, c: M.Client)
    requires clients.Keys == s.clients.Keys
    requires forall other :: other in clients ==> clients[other] == if other == fd then c else s.clients[other]
    ensures clients == M.Update(s, fd, c).clients && M.Update(s, fd, c) == s.(clients := clients)
  {
  }

  lemma RetainedNothing(retained: map<Str, Topic>, fd: int, options: byte)
    ensures M.RetainedFor(retained, fd, options, []) == []
  {
  }

  lemma EnumeratesNothing<T>(all: set<T>)
    ensures M.Enumerates([], all - all)
  {
  }

  lemma EnumeratesOneMore<T>(xs: seq<T>, all: set<T>, todo: set<T>, x: T)
    requires M.Enumerates(xs, all - todo) && x in todo && x in all
    ensures M.Enumerates(xs + [x], all - (todo - {x}))
  {
  }

  lemma Inhabited(t: set<int>)
    ensures t == {} || exists k :: k in t
  {
    assert !(exists k :: k in t) ==> t == {};
  }

  /** The state of the loop over the index: who was met, and which filter each had. */
  ghost predicate Met(s: M.State, todo: set<int>, name: Str, order: seq<int>, choice: M.Choice) {
    && M.Enumerates(order, s.subscribed - todo) && s.subscribed <= s.clients.Keys
    && M.ValidChoice(s.clients, s.subscribed - todo, name, choice)
  }

  lemma MetStart(s: M.State, name: Str, payload: seq<byte>)
    requires s.subscribed <= s.clients.Keys
    ensures Met(s, s.subscribed, name, [], map[]) && M.FanOut(s.clients, name, payload, [], map[]) == []
  {
  }

  lemma MetAll(s: M.State, name: Str, order: seq<int>, choice: M.Choice)
    requires Met(s, {}, name, order, choice)
    ensures M.ValidFanOut(s, name, order, choice)
  {
    assert s.subscribed - {} == s.subscribed;
  }

  /** The delivery for one connection of the index, with the filter it has or with none. */
  function SubscriberDelivery(fd: int, subs: map<Str, byte>, filter: Option<Str>, name: Str, payload: seq<byte>)
    : seq<M.Delivery>
    requires filter.Some? ==> filter.value in subs
  {
    if filter.None? then [] else [M.Delivery(fd, subs[filter.value] % 4, name, payload)]
  }

  function NowChosen(choice: M.Choice, fd: int, filter: Option<Str>): M.Choice {
    if filter.Some? then choice[fd := filter.value] else choice
  }

  /** The loop of `NotifyClients` has dealt with one more connection. */
  lemma MetOneMore(s: M.State, todo: set<int>, name: Str, payload: seq<byte>, order: seq<int>, choice: M.Choice,
                   fd: int, filter: Option<Str>)
    requires Met(s, todo, name, order, choice) && fd in todo && todo <= s.subscribed
    requires filter.Some? ==> filter.value in s.clients[fd].subs && LiveMatch(filter.value, name)
    requires filter.None? ==> forall f :: f in s.clients[fd].subs ==> !LiveMatch(f, name)
    ensures var choice' := NowChosen(choice, fd, filter);
      && Met(s, todo - {fd}, name, order + [fd], choice') && M.Chosen(s.clients, choice')
      && M.FanOut(s.clients, name, payload, order + [fd], choice')
         == M.FanOut(s.clients, name, payload, order, choice)
            + SubscriberDelivery(fd, s.clients[fd].subs, filter, name, payload)
  {
    hide LiveMatch;
    var choice' := NowChosen(choice, fd, filter);
    assert s.subscribed - (todo - {fd}) == s.subscribed - todo + {fd};
    if filter.Some? { FanOutChoice(s.clients, name, payload, order, choice, fd, filter.value); }
    FanOutSnoc(s.clients, name, payload, order, choice', fd);
    assert [fd][1..] == [];
  }
}

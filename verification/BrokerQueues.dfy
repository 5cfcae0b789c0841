/** The postponed queues: their order, who may pass them, and why they stay empty. */
module BrokerQueues {
  import opened Bytes
  import opened Topics
  import opened Parsers
  import opened BrokerModel
  import opened Deliveries

  /** The client id and packet id an acknowledgement clears from the queue. */
  function Acked(s: State, a: Action): Option<(Str, u16)>
    requires Enabled(s, a)
  {
    match a
    case PubackIn(fd, id) => Some((s.clients[fd].id, id))
    case PubrecIn(fd, id) => Some((s.clients[fd].id, id))
    case PubrelIn(fd, id, _, _) => Some((s.clients[fd].id, id))
    case _ => None
  }

  /** The queue without the entries the step acknowledges, in their old order. */
  function Kept(s: State, a: Action, cid: Str): seq<Event>
    requires Enabled(s, a)
  {
    var acked := Acked(s, a);
    if acked.Some? && acked.value.0 == cid then RemoveId(Queue(s, cid), acked.value.1) else Queue(s, cid)
  }

  /** A packet taken from the front of its client's queue. */
  predicate Resent(s: State, a: Action, c: Cmd)
    requires Enabled(s, a)
  {
    c.fd in s.clients && Kept(s, a, s.clients[c.fd].id) != [] && c.packet == Kept(s, a, s.clients[c.fd].id)[0].packet
  }

  /** Made by this step: not a duplicate, and a PUBLISH above QoS 0 only if nothing is postponed for the client. */
  predicate Original(s: State, a: Action, c: Cmd)
    requires Enabled(s, a)
  {
    && c.fd in s.clients && !IsDup(c.packet)
    && (c.packet.Publish? && c.packet.topic.qos > 0 ==> Kept(s, a, s.clients[c.fd].id) == [])
  }

  predicate NewCommands(s: State, a: Action, s': State)
    requires Enabled(s, a)
  {
    s.out <= s'.out && forall i :: |s.out| <= i < |s'.out| ==> Resent(s, a, s'.out[i]) || Original(s, a, s'.out[i])
  }

  /** Queues grow at the end only, and no step but a call from outside starts one. */
  ghost predicate QueuesGrow(s: State, a: Action, s': State)
    requires Enabled(s, a)
  {
    forall cid :: Kept(s, a, cid) <= Queue(s', cid)
                  && (Kept(s, a, cid) == [] && !a.Postpone? ==> Queue(s', cid) == [])
  }

  lemma RemoveIdFromNothing(id: u16)
    ensures RemoveId([], id) == []
  {
  }

  lemma {:induction false} TickResends(s: State, order: seq<Fd>)
    requires forall fd :: fd in order ==> fd in s.clients
    ensures var s' := TickStep(s, order);
      && s' == s.(out := s'.out) && s.out <= s'.out
      && forall i :: |s.out| <= i < |s'.out| ==>
           var c := s'.out[i];
           && c.fd in s.clients && Busy(s, s.clients[c.fd].id)
           && c.packet == Queue(s, s.clients[c.fd].id)[0].packet
    decreases |order|
  {
    if order != [] {
      var s1 := Resend(s, order[0], s.clients[order[0]].id);
      TickResends(s1, order[1..]);
      assert forall cid :: Queue(s1, cid) == Queue(s, cid);
    }
  }

  lemma DelQosEventQueue(s: State, cid: Str, id: u16)
    ensures forall other :: Queue(DelQosEvent(s, cid, id), other)
                            == if other == cid then RemoveId(Queue(s, cid), id) else Queue(s, other)
    ensures DelQosEvent(s, cid, id).out == s.out && DelQosEvent(s, cid, id).clients == s.clients
  {
    RemoveIdFromNothing(id);
  }

  lemma ConnectOut(s: State, fd: Fd, front: ConnectFront, back: ConnectBack, holder: Option<Fd>, generated: Str)
    requires fd in s.clients && !front.FrontOverrun?
    ensures var s' := ConnectStep(s, fd, front, back, holder, generated);
      && s'.postponed == s.postponed
      && (s'.out == s.out || exists p: Packet :: p.Connack? && s'.out == s.out + [Cmd(fd, p)])
  {
    hide Identified, WithWill;
  }

  lemma AcknowledgedQueues(s: State, a: Action)
    requires Enabled(s, a) && Acked(s, a).Some?
    ensures forall cid :: Queue(Prepare(s, a), cid) == Kept(s, a, cid)
    ensures NewCommands(s, a, Prepare(s, a))
  {
    hide DelQosEvent, RemoveId, Find, ValidFanOut, Queue;
    var cid := s.clients[a.fd].id;
    DelQosEventQueue(s, cid, a.id);
    if a.PubrelIn? {
      var s1 := AddCommand(s, a.fd, Ack(Pubcomp, false, a.id));
      DelQosEventQueue(s1, cid, a.id);
      SameQueues(s, s1);
      SameQueues(DelQosEvent(s1, cid, a.id), Prepare(s, a));
    } else {
      SameQueues(DelQosEvent(s, cid, a.id), Prepare(s, a));
    }
  }

  lemma SameQueues(s: State, s': State)
    requires s.postponed == s'.postponed
    ensures forall cid :: Queue(s, cid) == Queue(s', cid)
  {
  }

  /** Steps that put out one packet at most and leave the queues to themselves. */
  lemma OneCommand(s: State, a: Action, s': State, cs: seq<Cmd>)
    requires Enabled(s, a) && Acked(s, a).None? && s'.postponed == s.postponed
    requires s'.out == s.out + cs && |cs| <= 1
    requires cs != [] ==> Resent(s, a, cs[0]) || Original(s, a, cs[0])
    ensures NewCommands(s, a, s') && QueuesGrow(s, a, s')
  {
    hide Resent, Original, Enabled;
  }

  /** A step that puts out nothing and at most appends to one queue that is not empty. */
  lemma OneEvent(s: State, a: Action, s': State, cid: Str, e: Event)
    requires Enabled(s, a) && Acked(s, a).None? && s'.out == s.out
    requires Busy(s, cid) && s'.postponed == AddQosEvent(s, cid, e).postponed
    ensures NewCommands(s, a, s') && QueuesGrow(s, a, s')
  {
    hide Enabled;
    forall other ensures Queue(s, other) <= Queue(s', other) && (Queue(s, other) == [] ==> Queue(s', other) == []) {
      assert Queue(s', other) == if other == cid then Queue(s, cid) + [e] else Queue(s, other);
    }
  }

  lemma PublishQueues(s: State, a: Action)
    requires Enabled(s, a) && a.PublishIn?
    ensures NewCommands(s, a, Prepare(s, a)) && QueuesGrow(s, a, Prepare(s, a))
  {
    hide MakeTopic, RemoveId, ValidFanOut, NewCommands, QueuesGrow;
    var s', cid := Prepare(s, a), s.clients[a.fd].id;
    if a.qos == 2 && Busy(s, cid) {
      OneEvent(s, a, s', cid, Event(Ack(Pubrec, true, a.id), a.id));
    } else {
      OneCommand(s, a, s', if a.qos == 1 then [Cmd(a.fd, Ack(Puback, false, a.id))]
                           else if a.qos == 2 then [Cmd(a.fd, Ack(Pubrec, false, a.id))] else []);
    }
  }

  lemma PrepareQueues(s: State, a: Action)
    requires Enabled(s, a)
    ensures NewCommands(s, a, Prepare(s, a)) && QueuesGrow(s, a, Prepare(s, a))
  {
    hide ConnectStep, TickStep, RemoveId, DelQosEvent, AddSubs, RemoveSubs, ValidFanOut, ValidPlan, Find, MakeTopic,
      NewCommands, QueuesGrow;
    var s' := Prepare(s, a);
    match a
    case PublishIn(_, _, _, _, _, _, _, _, _) => PublishQueues(s, a);
    case Connect(_, _, _, _, _) => ConnectQueues(s, a);
    case Tick(order) => TickQueues(s, a);
    case PubackIn(_, _) => AcknowledgedGrow(s, a);
    case PubrecIn(_, _) => AcknowledgedGrow(s, a);
    case PubrelIn(_, _, _, _) => AcknowledgedGrow(s, a);
    case Postpone(_, _) => PostponeQueues(s, a);
    case _ => OneCommand(s, a, s', s'.out[|s.out|..]);
  }

  lemma AcknowledgedGrow(s: State, a: Action)
    requires Enabled(s, a) && Acked(s, a).Some?
    ensures NewCommands(s, a, Prepare(s, a)) && QueuesGrow(s, a, Prepare(s, a))
  {
    hide Kept, Prepare;
    AcknowledgedQueues(s, a);
  }

  lemma TickQueues(s: State, a: Action)
    requires Enabled(s, a) && a.Tick?
    ensures NewCommands(s, a, Prepare(s, a)) && QueuesGrow(s, a, Prepare(s, a))
  {
    hide TickStep;
    TickResends(s, a.order);
    SameQueues(s, Prepare(s, a));
  }

  lemma ConnectQueues(s: State, a: Action)
    requires Enabled(s, a) && a.Connect?
    ensures NewCommands(s, a, Prepare(s, a)) && QueuesGrow(s, a, Prepare(s, a))
  {
    hide ConnectStep, NewCommands, QueuesGrow, Kept;
    ConnectOut(s, a.fd, a.front, a.back, a.holder, a.generated);
    OneCommand(s, a, Prepare(s, a), Prepare(s, a).out[|s.out|..]);
  }

  lemma PostponeQueues(s: State, a: Action)
    requires Enabled(s, a) && a.Postpone?
    ensures NewCommands(s, a, Prepare(s, a)) && QueuesGrow(s, a, Prepare(s, a))
  {
  }

  /** A step that delivers anything has left the clients' ids alone. */
  lemma DeliveringKeepsIds(s: State, a: Action)
    requires Enabled(s, a) && Outgoing(s, a) != []
    ensures Prepare(s, a).clients.Keys == s.clients.Keys
    ensures forall fd :: fd in s.clients ==> Prepare(s, a).clients[fd].id == s.clients[fd].id
  {
    hide FanOut, RetainedAll, AddSubs, ValidFanOut, ValidPlan, Find, RemoveId, Busy, Queue;
  }

  /**
    From any queues, in every step: each queue becomes the old one less the
    acknowledged entries, in order, plus a suffix; a packet put out is either
    the front of its client's queue or a new one; and a new PUBLISH above QoS 0
    never passes a queue that is not empty.
   */
  lemma StepRespectsQueues(s: State, a: Action)
    requires Enabled(s, a)
    ensures QueuesGrow(s, a, Step(s, a)) && NewCommands(s, a, Step(s, a))
  {
    PrepareKeepsConnections(s, a);
    PrepareQueues(s, a);
    hide Prepare, Outgoing, Enabled, Find, RemoveFirst, Kept, NewCommands, QueuesGrow;
    var s2 := DeliverAll(Prepare(s, a), Outgoing(s, a));
    CommandsDelivered(s, a);
    QueuesDelivered(s, a);
    SameQueues(s2, Step(s, a));
    assert Step(s, a).out == s2.out;
    SameCommandsAndQueues(s, a, s2, Step(s, a));
  }

  lemma SameCommandsAndQueues(s: State, a: Action, s1: State, s2: State)
    requires Enabled(s, a) && s1.out == s2.out && forall cid :: Queue(s2, cid) == Queue(s1, cid)
    ensures NewCommands(s, a, s1) ==> NewCommands(s, a, s2)
    ensures QueuesGrow(s, a, s1) ==> QueuesGrow(s, a, s2)
  {
    hide Enabled, Kept, Queue;
  }

  lemma CommandsDelivered(s: State, a: Action)
    requires Enabled(s, a) && AllTo(Outgoing(s, a), Prepare(s, a).clients.Keys)
    requires NewCommands(s, a, Prepare(s, a)) && QueuesGrow(s, a, Prepare(s, a))
    ensures NewCommands(s, a, DeliverAll(Prepare(s, a), Outgoing(s, a)))
  {
    hide Prepare, Outgoing, Enabled, Kept, Queue, Busy, QueuesGrow, Resent, Original;
    var s1, s2 := Prepare(s, a), DeliverAll(Prepare(s, a), Outgoing(s, a));
    DeliverAllSends(s1, Outgoing(s, a));
    forall i | |s.out| <= i < |s2.out| ensures Resent(s, a, s2.out[i]) || Original(s, a, s2.out[i]) {
      if i < |s1.out| {
        assert s2.out[i] == s1.out[i];
      } else {
        FreshIsOriginal(s, a, s2.out[i]);
      }
    }
  }

  lemma QueuesDelivered(s: State, a: Action)
    requires Enabled(s, a) && AllTo(Outgoing(s, a), Prepare(s, a).clients.Keys) && QueuesGrow(s, a, Prepare(s, a))
    ensures QueuesGrow(s, a, DeliverAll(Prepare(s, a), Outgoing(s, a)))
  {
    hide Prepare, Outgoing, Enabled, Kept, Queue, Busy;
    var s1, s2 := Prepare(s, a), DeliverAll(Prepare(s, a), Outgoing(s, a));
    DeliverAllSends(s1, Outgoing(s, a));
    forall cid
      ensures Kept(s, a, cid) <= Queue(s2, cid) && (Kept(s, a, cid) == [] && !a.Postpone? ==> Queue(s2, cid) == [])
    {
      PrefixChain(Kept(s, a, cid), Queue(s1, cid), Queue(s2, cid));
      BusyIsNonEmpty(s1, cid);
      BusyIsNonEmpty(s2, cid);
    }
  }

  lemma BusyIsNonEmpty(s: State, cid: Str)
    ensures Busy(s, cid) <==> Queue(s, cid) != []
  {
  }

  lemma FreshIsOriginal(s: State, a: Action, c: Cmd)
    requires Enabled(s, a) && Outgoing(s, a) != [] && QueuesGrow(s, a, Prepare(s, a)) && Fresh(Prepare(s, a), c)
    ensures Original(s, a, c)
  {
    DeliveringKeepsIds(s, a);
    hide Prepare, Outgoing, Enabled, Kept;
    assert c.fd in s.clients;
    assert Kept(s, a, s.clients[c.fd].id) <= Queue(Prepare(s, a), s.clients[c.fd].id);
  }

  // ---------------------------------------------------------------- from empty queues

  predicate NothingPostponed(s: State) {
    forall cid :: cid in s.postponed ==> s.postponed[cid] == []
  }

  lemma NothingKept(s: State, a: Action, cid: Str)
    requires Enabled(s, a) && NothingPostponed(s)
    ensures Kept(s, a, cid) == []
  {
  }

  /**
    With no call of `AddQosEvent` from outside, queues that are empty stay
    empty over every run, and no packet put out is marked as a duplicate.
   */
  lemma {:induction false} QueuesStayEmpty(s0: State, acts: seq<Action>)
    requires Run(s0, acts) && NothingPostponed(s0)
    requires forall i :: 0 <= i < |acts| ==> !acts[i].Postpone?
    ensures NothingPostponed(Reach(s0, acts))
    ensures s0.out <= Reach(s0, acts).out
    ensures forall i :: |s0.out| <= i < |Reach(s0, acts).out| ==> !IsDup(Reach(s0, acts).out[i].packet)
  {
    if acts != [] {
      var before, a := acts[..|acts| - 1], acts[|acts| - 1];
      QueuesStayEmpty(s0, before);
      var s, s' := Reach(s0, before), Reach(s0, acts);
      StepRespectsQueues(s, a);
      hide Step, Enabled, IsDup;
      forall cid | cid in s'.postponed ensures s'.postponed[cid] == [] {
        NothingKept(s, a, cid);
        assert Queue(s', cid) == [];
      }
      forall i | |s0.out| <= i < |s'.out| ensures !IsDup(s'.out[i].packet) {
        if i < |s.out| {
          assert s'.out[i] == s.out[i];
        } else {
          var c := s'.out[i];
          assert Resent(s, a, c) || Original(s, a, c);
          NothingKept(s, a, s.clients[c.fd].id);
        }
      }
    }
  }

  /** And then `QoSThread` never sends anything. */
  lemma {:induction false} TickDoesNothing(s: State, order: seq<Fd>)
    requires forall fd :: fd in order ==> fd in s.clients
    requires NothingPostponed(s)
    ensures TickStep(s, order) == s
    decreases |order|
  {
    if order != [] {
      var fd := order[0];
      assert fd in order && !Busy(s, s.clients[fd].id);
      TickDoesNothing(s, order[1..]);
    }
  }
}

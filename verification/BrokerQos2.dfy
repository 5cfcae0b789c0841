/** Conservation of QoS 2 messages, section 4.3.3 of MQTT 5.0, over every run. */
module BrokerQos2 {
  import opened Bytes
  import opened Topics
  import opened Parsers
  import opened BrokerModel
  import opened Deliveries

  /** The stored messages of a group that carry a packet id, in the order of the group. */
  function Having(ts: seq<Topic>, id: u16): seq<Topic> {
    if ts == [] then [] else (if ts[0].id == id then [ts[0]] else []) + Having(ts[1..], id)
  }

  /** Messages regardless of their order. */
  function Bag(ts: seq<Topic>): multiset<Topic> {
    multiset(ts)
  }

  lemma BagConcat(a: seq<Topic>, b: seq<Topic>)
    ensures Bag(a + b) == Bag(a) + Bag(b)
  {
  }

  lemma Balance<T>(r: multiset<T>, l: multiset<T>, w: multiset<T>, w': multiset<T>, start: multiset<T>, c: multiset<T>,
                   t: multiset<T>)
    requires r + w == start + c && l + w' == w + t
    ensures r + l + w' == start + (c + t)
  {
    calc {
      r + l + w';
      r + (l + w');
      r + (w + t);
      r + w + t;
      start + c + t;
      start + (c + t);
    }
  }

  function Waiting(s: State, cid: Str, id: u16): seq<Topic> {
    Having(Stored(s, cid), id)
  }

  lemma {:induction false} HavingConcat(a: seq<Topic>, b: seq<Topic>, id: u16)
    ensures Having(a + b, id) == Having(a, id) + Having(b, id)
  {
    if a == [] {
      assert a + b == b && [] + Having(b, id) == Having(b, id);
    } else {
      var ab := a + b;
      assert ab[0] == a[0] && ab[1..] == a[1..] + b;
      HavingConcat(a[1..], b, id);
      Associate(if a[0].id == id then [a[0]] else [], Having(a[1..], id), Having(b, id));
    }
  }

  lemma HavingInserted(ts: seq<Topic>, t: Topic, at: nat, id: u16)
    requires at <= |ts|
    ensures Bag(Having(ts[..at] + [t] + ts[at..], id)) == Bag(Having(ts, id)) + Bag(if t.id == id then [t] else [])
    ensures Having(ts, id) == [] ==> Having(ts[..at] + [t] + ts[at..], id) == if t.id == id then [t] else []
    ensures t.id != id ==> Having(ts[..at] + [t] + ts[at..], id) == Having(ts, id)
  {
    hide Having, Bag;
    assert ts[..at] + ts[at..] == ts;
    HavingConcat(ts[..at], ts[at..], id);
    HavingConcat(ts[..at], [t], id);
    HavingConcat(ts[..at] + [t], ts[at..], id);
    HavingOne(t, id);
    var a, b, c := Having(ts[..at], id), Having([t], id), Having(ts[at..], id);
    BagConcat(a, b);
    BagConcat(a + b, c);
    BagConcat(a, c);
    Swap(Bag(a), Bag(b), Bag(c));
  }

  lemma Swap<T>(a: multiset<T>, b: multiset<T>, c: multiset<T>)
    ensures a + b + c == a + c + b
  {
  }

  lemma HavingOne(t: Topic, id: u16)
    ensures Having([t], id) == if t.id == id then [t] else []
  {
    assert [t][1..] == [];
  }

  /** `GetQoSTopic` and `DelQoSTopic` mean the same entry: the first waiting one. */
  lemma {:induction false} FindAndRemove(ts: seq<Topic>, id: u16, other: u16)
    ensures Find(ts, id) == if Having(ts, id) == [] then None else Some(Having(ts, id)[0])
    ensures Having(RemoveFirst(ts, id), other)
         == if id == other && Having(ts, id) != [] then Having(ts, id)[1..] else Having(ts, other)
  {
    if ts != [] {
      FindAndRemove(ts[1..], id, other);
      if ts[0].id != id {
        assert RemoveFirst(ts, id)[1..] == RemoveFirst(ts[1..], id);
      }
    }
  }

  // ---------------------------------------------------------------- what a step takes in and lets out

  /** The message a QoS 2 PUBLISH adds for a client id and packet id. */
  function TakenIn(s: State, a: Action, cid: Str, id: u16): seq<Topic>
    requires Enabled(s, a)
  {
    if a.PublishIn? && a.qos == 2 && s.clients[a.fd].id == cid && a.id == id
    then [MakeTopic(a.qos, a.id, a.name, a.payload)] else []
  }

  /** The message a PUBREL fans out, if it finds one. */
  function LetOut(s: State, a: Action, cid: Str, id: u16): seq<Topic>
    requires Enabled(s, a)
  {
    if a.PubrelIn? && s.clients[a.fd].id == cid && a.id == id && Find(Stored(s, cid), id).Some?
    then [Find(Stored(s, cid), id).value] else []
  }

  lemma {:induction false} TickKeepsStore(s: State, order: seq<Fd>)
    requires forall fd :: fd in order ==> fd in s.clients
    ensures TickStep(s, order).stored == s.stored
    decreases |order|
  {
    if order != [] {
      TickKeepsStore(Resend(s, order[0], s.clients[order[0]].id), order[1..]);
    }
  }

  lemma PrepareStore(s: State, a: Action)
    requires Enabled(s, a)
    ensures Prepare(s, a).stored ==
      if a.PublishIn? && a.qos == 2
      then AddQoSTopic(s, s.clients[a.fd].id, MakeTopic(a.qos, a.id, a.name, a.payload), a.at).stored
      else s.stored
  {
    hide TickStep, ConnectStep, Busy, Queue, AddSubs, RemoveSubs, ValidFanOut, ValidPlan, RemoveId;
    match a
    case Tick(order) => TickKeepsStore(s, order);
    case Connect(fd, front, back, holder, generated) => ConnectKeepsStore(s, fd, front, back, holder, generated);
    case _ =>
  }

  lemma ConnectKeepsStore(s: State, fd: Fd, front: ConnectFront, back: ConnectBack, holder: Option<Fd>, generated: Str)
    requires fd in s.clients && !front.FrontOverrun?
    ensures ConnectStep(s, fd, front, back, holder, generated).stored == s.stored
  {
    hide Identified, WithWill;
  }

  /** The store after a step: only QoS 2 PUBLISH adds to it, and only PUBREL takes from it. */
  lemma StepStore(s: State, a: Action)
    requires Enabled(s, a)
    ensures Step(s, a).stored ==
      if a.PublishIn? && a.qos == 2
      then AddQoSTopic(s, s.clients[a.fd].id, MakeTopic(a.qos, a.id, a.name, a.payload), a.at).stored
      else if a.PubrelIn? && Find(Stored(s, s.clients[a.fd].id), a.id).Some?
      then s.stored[s.clients[a.fd].id := RemoveFirst(Stored(s, s.clients[a.fd].id), a.id)]
      else s.stored
  {
    hide Prepare, Outgoing, Enabled, Find, RemoveFirst;
    PrepareKeepsConnections(s, a);
    PrepareStore(s, a);
    DeliverAllFrame(Prepare(s, a), Outgoing(s, a));
  }

  predicate Conserves(before: seq<Topic>, after: seq<Topic>, takenIn: seq<Topic>, letOut: seq<Topic>) {
    && Bag(letOut) + Bag(after) == Bag(before) + Bag(takenIn)
    && (before == [] || takenIn == [] ==> letOut + after == before + takenIn)
  }

  lemma TakeInConserves(ts: seq<Topic>, t: Topic, at: nat, id: u16)
    requires at <= |ts|
    ensures Conserves(Having(ts, id), Having(ts[..at] + [t] + ts[at..], id), if t.id == id then [t] else [], [])
  {
    hide Having, Bag;
    var before, after, more := Having(ts, id), Having(ts[..at] + [t] + ts[at..], id), if t.id == id then [t] else [];
    HavingInserted(ts, t, at, id);
    BagConcat([], after);
    assert [] + after == after && [] + more == more && before + [] == before;
  }

  lemma LetOutConserves(ts: seq<Topic>, id: u16, other: u16)
    ensures var out := if id == other && Find(ts, id).Some? then [Find(ts, id).value] else [];
      Conserves(Having(ts, other), if Find(ts, id).Some? then Having(RemoveFirst(ts, id), other) else Having(ts, other),
                [], out)
  {
    hide Having, Find, RemoveFirst, Bag;
    FindAndRemove(ts, id, other);
    var w := Having(ts, id);
    if w != [] {
      assert [w[0]] + w[1..] == w;
      BagConcat([w[0]], w[1..]);
    }
    BagConcat([], Having(ts, other));
    BagConcat(Having(ts, other), []);
    assert [] + Having(ts, other) == Having(ts, other) == Having(ts, other) + [];
  }

  /**
    One step conserves the messages waiting under a client id and packet id:
    what was waiting and came in is what was let out and is waiting now.
   */
  lemma StepConserves(s: State, a: Action, cid: Str, id: u16)
    requires Enabled(s, a)
    ensures Conserves(Waiting(s, cid, id), Waiting(Step(s, a), cid, id), TakenIn(s, a, cid, id), LetOut(s, a, cid, id))
  {
    hide Step, Having, Find, RemoveFirst, Conserves, ValidFanOut, ValidPlan;
    StepStore(s, a);
    if a.PublishIn? && a.qos == 2 && s.clients[a.fd].id == cid {
      TakeInConserves(Stored(s, cid), MakeTopic(a.qos, a.id, a.name, a.payload), a.at, id);
    } else if a.PubrelIn? && s.clients[a.fd].id == cid {
      LetOutConserves(Stored(s, cid), a.id, id);
    } else {
      NothingConserves(Waiting(s, cid, id));
    }
  }

  lemma NothingConserves(w: seq<Topic>)
    ensures Conserves(w, w, [], [])
  {
    assert [] + w == w == w + [];
  }

  // ---------------------------------------------------------------- over runs

  function Received(s0: State, acts: seq<Action>, cid: Str, id: u16): seq<Topic>
    requires Run(s0, acts)
  {
    if acts == [] then [] else
    Received(s0, acts[..|acts| - 1], cid, id) + TakenIn(Reach(s0, acts[..|acts| - 1]), acts[|acts| - 1], cid, id)
  }

  /** The messages fanned out on behalf of PUBRELs. */
  function Released(s0: State, acts: seq<Action>, cid: Str, id: u16): seq<Topic>
    requires Run(s0, acts)
  {
    if acts == [] then [] else
    Released(s0, acts[..|acts| - 1], cid, id) + LetOut(Reach(s0, acts[..|acts| - 1]), acts[|acts| - 1], cid, id)
  }

  /** Over every run, for every client id and packet id: released and still waiting is received and waiting before. */
  lemma {:induction false} Conservation(s0: State, acts: seq<Action>, cid: Str, id: u16)
    requires Run(s0, acts)
    ensures Bag(Released(s0, acts, cid, id)) + Bag(Waiting(Reach(s0, acts), cid, id))
         == Bag(Waiting(s0, cid, id)) + Bag(Received(s0, acts, cid, id))
  {
    hide Bag, Waiting, TakenIn, LetOut, Step, Enabled;
    if acts == [] {
      BagConcat([], Waiting(s0, cid, id));
      BagConcat(Waiting(s0, cid, id), []);
      assert [] + Waiting(s0, cid, id) == Waiting(s0, cid, id) == Waiting(s0, cid, id) + [];
    } else {
      var before, a := acts[..|acts| - 1], acts[|acts| - 1];
      var s := Reach(s0, before);
      Conservation(s0, before, cid, id);
      StepConserves(s, a, cid, id);
      BagConcat(Released(s0, before, cid, id), LetOut(s, a, cid, id));
      BagConcat(Received(s0, before, cid, id), TakenIn(s, a, cid, id));
      Balance(Bag(Released(s0, before, cid, id)), Bag(LetOut(s, a, cid, id)), Bag(Waiting(s, cid, id)),
              Bag(Waiting(Step(s, a), cid, id)), Bag(Waiting(s0, cid, id)), Bag(Received(s0, before, cid, id)),
              Bag(TakenIn(s, a, cid, id)));
    }
  }

  /** However many PUBRELs arrive, no message is released more often than it was received. */
  lemma AtMostOnce(acts: seq<Action>, cid: Str, id: u16)
    requires Run(START, acts)
    ensures Bag(Released(START, acts, cid, id)) <= Bag(Received(START, acts, cid, id))
  {
    hide Released, Received;
    Conservation(START, acts, cid, id);
    assert Waiting(START, cid, id) == [];
    assert Bag([]) + Bag(Received(START, acts, cid, id)) == Bag(Received(START, acts, cid, id));
  }

  /** The publisher never uses a packet id again while a message is waiting under it. */
  predicate NoReuse(s0: State, acts: seq<Action>, cid: Str, id: u16)
    requires Run(s0, acts)
  {
    acts == [] || (
      var s := Reach(s0, acts[..|acts| - 1]);
      && NoReuse(s0, acts[..|acts| - 1], cid, id)
      && (TakenIn(s, acts[|acts| - 1], cid, id) == [] || Waiting(s, cid, id) == []))
  }

  /** Then messages are released one by one in the order they were received, and at most one is waiting. */
  lemma {:induction false} ExactlyOnceInOrder(acts: seq<Action>, cid: Str, id: u16)
    requires Run(START, acts) && NoReuse(START, acts, cid, id)
    ensures Released(START, acts, cid, id) + Waiting(Reach(START, acts), cid, id) == Received(START, acts, cid, id)
    ensures |Waiting(Reach(START, acts), cid, id)| <= 1
  {
    hide Waiting, TakenIn, LetOut, Step, Enabled, Bag;
    if acts == [] {
      NothingWaits(cid, id);
    } else {
      var before, a := acts[..|acts| - 1], acts[|acts| - 1];
      var s := Reach(START, before);
      ExactlyOnceInOrder(before, cid, id);
      StepConserves(s, a, cid, id);
      AtMostOneTaken(s, a, cid, id);
      Chain(Released(START, before, cid, id), LetOut(s, a, cid, id), Waiting(s, cid, id), Waiting(Step(s, a), cid, id),
            TakenIn(s, a, cid, id));
    }
  }

  lemma Chain<T>(r: seq<T>, l: seq<T>, w: seq<T>, w': seq<T>, t: seq<T>)
    requires l + w' == w + t
    ensures r + l + w' == r + w + t
    ensures |w'| <= |w| + |t|
  {
    assert r + l + w' == r + (l + w');
    assert |l + w'| == |w + t|;
  }

  lemma NothingWaits(cid: Str, id: u16)
    ensures Waiting(START, cid, id) == []
  {
  }

  lemma AtMostOneTaken(s: State, a: Action, cid: Str, id: u16)
    requires Enabled(s, a)
    ensures |TakenIn(s, a, cid, id)| <= 1
  {
  }

  /** A PUBREL announces exactly the message it lets out, and nothing if it lets out none. */
  lemma PubrelAnnounces(s: State, a: Action)
    requires Enabled(s, a) && a.PubrelIn?
    ensures var out := LetOut(s, a, s.clients[a.fd].id, a.id);
      Announced(s, a) == if out == [] then None else Some(Message(out[0].name, out[0].payload))
    ensures LetOut(s, a, s.clients[a.fd].id, a.id) == [] <==> Waiting(s, s.clients[a.fd].id, a.id) == []
    ensures Announced(s, a).None? ==> Outgoing(s, a) == []
  {
    FindAndRemove(Stored(s, s.clients[a.fd].id), a.id, a.id);
  }
}

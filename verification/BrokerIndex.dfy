/** The subscriber index, fan-out, and the uniqueness of client ids, over every run. */
module BrokerIndex {
  import opened Bytes
  import opened Topics
  import opened Parsers
  import opened BrokerModel
  import opened Deliveries

  // ---------------------------------------------------------------- the index

  /** Only registered connections are indexed, and every one with a subscription is. */
  predicate Indexed(s: State) {
    && s.subscribed <= s.clients.Keys
    && (forall fd :: fd in s.clients && s.clients[fd].subs != map[] ==> fd in s.subscribed)
  }

  /** Registered clients with a non-empty id have it for themselves. */
  predicate DistinctIds(s: State) {
    forall fd, other :: fd in s.clients && other in s.clients && fd != other && s.clients[fd].id == s.clients[other].id
      ==> s.clients[fd].id == []
  }

  /** The connections, their subscriptions, ids and indexing are the same in both states. */
  predicate SameTables(s: State, s': State) {
    && s'.clients.Keys == s.clients.Keys && s'.subscribed == s.subscribed
    && (forall fd :: fd in s.clients ==>
          s'.clients[fd].subs == s.clients[fd].subs && s'.clients[fd].id == s.clients[fd].id)
  }

  lemma SameTablesKeep(s: State, s': State)
    requires SameTables(s, s')
    ensures Indexed(s) ==> Indexed(s')
    ensures DistinctIds(s) ==> DistinctIds(s')
  {
  }

  lemma DeliverSameTables(s: State, ds: seq<Delivery>)
    requires AllTo(ds, s.clients.Keys)
    ensures SameTables(s, DeliverAll(s, ds))
  {
    DeliverAllFrame(s, ds);
  }

  lemma {:induction false} TickSameTables(s: State, order: seq<Fd>)
    requires forall fd :: fd in order ==> fd in s.clients
    ensures SameTables(s, TickStep(s, order))
    decreases |order|
  {
    if order != [] {
      TickSameTables(Resend(s, order[0], s.clients[order[0]].id), order[1..]);
    }
  }

  lemma {:induction false} RemoveSubsShrinks(subs: map<Str, byte>, ns: seq<Str>)
    ensures RemoveSubs(subs, ns).0.Keys <= subs.Keys
    decreases |ns|
  {
    if ns != [] {
      RemoveSubsShrinks(subs - {ns[0]}, ns[1..]);
    }
  }

  lemma UpdateKeepsIndex(s: State, fd: Fd, c: Client)
    requires Indexed(s) && (fd in s.clients ==> c.subs == s.clients[fd].subs)
    ensures Indexed(Update(s, fd, c))
  {
  }

  lemma UpdateKeepsIds(s: State, fd: Fd, c: Client)
    requires DistinctIds(s)
    requires forall other :: other in s.clients && other != fd ==> s.clients[other].id != c.id || c.id == []
    ensures DistinctIds(Update(s, fd, c))
  {
  }

  lemma CloseKeeps(s: State, fd: Fd)
    ensures Indexed(s) ==> Indexed(CloseConnection(s, fd))
    ensures DistinctIds(s) ==> DistinctIds(CloseConnection(s, fd))
  {
  }

  lemma ConnectKeepsIndex(s: State, fd: Fd, front: ConnectFront, back: ConnectBack, holder: Option<Fd>, generated: Str)
    requires Enabled(s, Connect(fd, front, back, holder, generated)) && Indexed(s)
    ensures Indexed(ConnectStep(s, fd, front, back, holder, generated))
  {
    hide Update, CloseConnection, CleanFlag;
    var c := s.clients[fd];
    var s1 := AfterTakeover(s, front, holder);
    if holder.Some? { CloseKeeps(s, holder.value); }
    TakeoverClients(s, front, holder);
    UpdateKeepsIndex(s1, fd, Parsed(c, front, back, holder, generated));
  }

  lemma TakeoverClients(s: State, front: ConnectFront, holder: Option<Fd>)
    ensures forall fd :: fd in AfterTakeover(s, front, holder).clients ==>
      && fd in s.clients && AfterTakeover(s, front, holder).clients[fd] == s.clients[fd]
      && (front.Front? && front.id.Some? && !Rejected(front, holder) ==> holder != Some(fd))
  {
  }

  /**
    After a takeover, a fresh generated id, or a new explicit id nobody holds,
    the id set is set on one client only.
   */
  lemma ConnectKeepsIds(s: State, fd: Fd, front: ConnectFront, back: ConnectBack, holder: Option<Fd>, generated: Str)
    requires Enabled(s, Connect(fd, front, back, holder, generated)) && DistinctIds(s)
    ensures DistinctIds(ConnectStep(s, fd, front, back, holder, generated))
  {
    hide Update, CloseConnection, CleanFlag;
    var c := s.clients[fd];
    var s1, c1 := AfterTakeover(s, front, holder), Parsed(c, front, back, holder, generated);
    if holder.Some? { CloseKeeps(s, holder.value); }
    TakeoverClients(s, front, holder);
    forall other | other in s1.clients && other != fd ensures s1.clients[other].id != c1.id || c1.id == [] {
      if front.Front? && front.id.Some? && holder.Some? && !Rejected(front, holder) {
        assert s.clients[holder.value].id == c1.id;
      }
    }
    UpdateKeepsIds(s1, fd, c1);
  }

  lemma PrepareIndex(s: State, a: Action)
    requires Enabled(s, a) && Indexed(s)
    ensures Indexed(if a.Subscribe? then Finish(s, a, Prepare(s, a)) else Prepare(s, a))
  {
    hide ConnectStep, TickStep, Busy, Queue, AddSubs, RemoveSubs, ValidFanOut, ValidPlan;
    match a
    case Connect(fd, front, back, holder, generated) => ConnectKeepsIndex(s, fd, front, back, holder, generated);
    case Unsubscribe(fd, id, names) => RemoveSubsShrinks(s.clients[fd].subs, names);
    case Tick(order) => TickSameTables(s, order);
    case _ =>
  }

  lemma PrepareIds(s: State, a: Action)
    requires Enabled(s, a) && DistinctIds(s)
    ensures DistinctIds(Prepare(s, a))
  {
    hide ConnectStep, TickStep, Busy, Queue, AddSubs, RemoveSubs, ValidFanOut, ValidPlan;
    match a
    case Connect(fd, front, back, holder, generated) => ConnectKeepsIds(s, fd, front, back, holder, generated);
    case Tick(order) => TickSameTables(s, order);
    case _ =>
  }

  /**
    Every step keeps the index in agreement with the clients, and client ids
    distinct: new connections, accepted, rejected and repeated CONNECTs,
    takeovers, lost connections and the rest.
   */
  lemma StepKeepsTables(s: State, a: Action)
    requires Enabled(s, a)
    ensures Indexed(s) ==> Indexed(Step(s, a))
    ensures DistinctIds(s) ==> DistinctIds(Step(s, a))
  {
    hide Prepare, Outgoing, Enabled, Find, RemoveFirst;
    PrepareKeepsConnections(s, a);
    if Indexed(s) { PrepareIndex(s, a); }
    if DistinctIds(s) { PrepareIds(s, a); }
    var s1 := Prepare(s, a);
    DeliverSameTables(s1, Outgoing(s, a));
    if Indexed(s1) { SameTablesKeep(s1, DeliverAll(s1, Outgoing(s, a))); }
  }

  /** In every reachable state the index agrees with the clients, and non-empty client ids are distinct. */
  lemma {:induction false} ReachableTables(s0: State, acts: seq<Action>)
    requires Run(s0, acts) && Indexed(s0) && DistinctIds(s0)
    ensures Indexed(Reach(s0, acts)) && DistinctIds(Reach(s0, acts))
  {
    if acts != [] {
      ReachableTables(s0, acts[..|acts| - 1]);
      StepKeepsTables(Reach(s0, acts[..|acts| - 1]), acts[|acts| - 1]);
    }
  }

  // ---------------------------------------------------------------- index against full scan

  function Restrict(order: seq<Fd>, fds: set<Fd>): seq<Fd> {
    if order == [] then [] else (if order[0] in fds then [order[0]] else []) + Restrict(order[1..], fds)
  }

  lemma {:induction false} RestrictEnumerates(order: seq<Fd>, fds: set<Fd>)
    requires NoDuplicates(order)
    ensures NoDuplicates(Restrict(order, fds))
    ensures forall fd :: fd in Restrict(order, fds) <==> fd in order && fd in fds
  {
    if order != [] {
      var tail := Restrict(order[1..], fds);
      assert NoDuplicates(order[1..]);
      RestrictEnumerates(order[1..], fds);
      assert order[0] !in order[1..];
      if order[0] in fds {
        forall i, j | 0 <= i < j < |tail| + 1 ensures ([order[0]] + tail)[i] != ([order[0]] + tail)[j] {
          assert tail[j - 1] in tail;
        }
      } else {
        assert Restrict(order, fds) == tail;
      }
    }
  }

  lemma {:induction false} FanOutSkips(clients: map<Fd, Client>, name: Str, payload: seq<byte>, order: seq<Fd>,
                                       choice: Choice, fds: set<Fd>)
    requires Chosen(clients, choice) && choice.Keys <= fds
    ensures FanOut(clients, name, payload, order, choice)
         == FanOut(clients, name, payload, Restrict(order, fds), choice)
  {
    if order != [] {
      FanOutSkips(clients, name, payload, order[1..], choice, fds);
      if order[0] in fds {
        assert Restrict(order, fds)[1..] == Restrict(order[1..], fds);
      } else {
        assert Restrict(order, fds) == Restrict(order[1..], fds);
        assert FanOut(clients, name, payload, order, choice) == FanOut(clients, name, payload, order[1..], choice);
      }
    }
  }

  /**
    In a state whose index agrees with its clients, a scan of all clients in
    any order delivers exactly what the loop over the index delivers.
   */
  lemma ScanIsIndex(s: State, name: Str, payload: seq<byte>, scan: seq<Fd>, choice: Choice)
    requires Indexed(s) && Enumerates(scan, s.clients.Keys) && ValidChoice(s.clients, s.clients.Keys, name, choice)
    ensures ValidFanOut(s, name, Restrict(scan, s.subscribed), choice)
    ensures FanOut(s.clients, name, payload, scan, choice)
         == FanOut(s.clients, name, payload, Restrict(scan, s.subscribed), choice)
  {
    hide LiveMatch, FanOut, Restrict;
    forall fd | fd in choice ensures fd in s.subscribed {
      assert s.clients[fd].subs != map[];
    }
    RestrictEnumerates(scan, s.subscribed);
    RestrictValid(s, name, scan, choice, Restrict(scan, s.subscribed));
    FanOutSkips(s.clients, name, payload, scan, choice, s.subscribed);
  }

  lemma RestrictValid(s: State, name: Str, scan: seq<Fd>, choice: Choice, r: seq<Fd>)
    requires Indexed(s) && Enumerates(scan, s.clients.Keys) && ValidChoice(s.clients, s.clients.Keys, name, choice)
    requires choice.Keys <= s.subscribed && NoDuplicates(r)
    requires forall fd :: fd in r <==> fd in scan && fd in s.subscribed
    ensures ValidFanOut(s, name, r, choice)
  {
    hide LiveMatch;
    assert forall x :: x in r ==> x in s.subscribed;
    forall x | x in s.subscribed ensures x in r {
      assert x in s.clients.Keys;
    }
    forall fd, f | fd in s.subscribed && f in s.clients[fd].subs && LiveMatch(f, name) ensures fd in choice {
      assert fd in s.clients.Keys;
    }
  }

  // ---------------------------------------------------------------- one PUBLISH each

  /** The delivery a connection is due: none without a matching filter, else one at that filter's masked options. */
  predicate Due(c: Client, fd: Fd, name: Str, payload: seq<byte>, d: Option<Delivery>) {
    if exists f :: f in c.subs && LiveMatch(f, name)
    then d.Some? && exists f :: f in c.subs && LiveMatch(f, name)
                              && d.value == Delivery(fd, c.subs[f] % 4, name, payload)
    else d.None?
  }

  /**
    Fan-out, for every connection: whoever has a matching subscription gets
    exactly one PUBLISH, at the QoS of a matching filter and numbered by its own
    generator, sent at once or postponed; everybody else sees nothing.  The
    result does not mention the order of the loop.
   */
  lemma OnePublishEach(s: State, name: Str, payload: seq<byte>, order: seq<Fd>, choice: Choice, fd: Fd)
    returns (d: Option<Delivery>)
    requires Indexed(s) && ValidFanOut(s, name, order, choice) && fd in s.clients
    ensures AllTo(FanOut(s.clients, name, payload, order, choice), s.clients.Keys)
    ensures d.Some? ==> d.value.fd == fd
    ensures Due(s.clients[fd], fd, name, payload, d)
    ensures d == if fd in choice then Some(Delivery(fd, Options(s.clients, choice, fd) % 4, name, payload)) else None
    ensures SeenBy(s, DeliverAll(s, FanOut(s.clients, name, payload, order, choice)), fd, d)
    ensures DistinctIds(s) && s.clients[fd].id != []
      ==> QueuedFor(s, DeliverAll(s, FanOut(s.clients, name, payload, order, choice)), fd, d)
  {
    hide LiveMatch, SeenBy, QueuedFor, FanOut, DeliverAll;
    FanOutFor(s.clients, name, payload, order, choice, fd);
    var ds := FanOut(s.clients, name, payload, order, choice);
    d := For(ds, fd);
    DeliverAllSeen(s, ds, fd);
    if fd in choice {
      assert fd in s.subscribed && fd in order;
    } else {
      forall f | f in s.clients[fd].subs ensures !LiveMatch(f, name) {
        assert s.clients[fd].subs != map[];
      }
    }
  }
}

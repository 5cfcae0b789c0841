/** What a list of deliveries does to the broker's state, connection by connection. */
module Deliveries {
  import opened Bytes
  import opened Topics
  import opened Parsers
  import opened BrokerModel

  predicate SameButGen(a: Client, b: Client) {
    b == a.(gen := b.gen)
  }

  lemma DeliverFrame(s: State, d: Delivery)
    requires d.fd in s.clients
    ensures var s' := Deliver(s, d);
      && s'.subscribed == s.subscribed && s'.stored == s.stored && s'.retained == s.retained
      && s'.clients.Keys == s.clients.Keys
      && (forall fd :: fd in s.clients ==> SameButGen(s.clients[fd], s'.clients[fd]))
  {
  }

  /** Deliveries draw packet ids, and otherwise leave clients, index, retained messages and QoS 2 store alone. */
  lemma {:induction false} DeliverAllFrame(s: State, ds: seq<Delivery>)
    requires AllTo(ds, s.clients.Keys)
    ensures var s' := DeliverAll(s, ds);
      && s'.subscribed == s.subscribed && s'.stored == s.stored && s'.retained == s.retained
      && s'.clients.Keys == s.clients.Keys
      && (forall fd :: fd in s.clients ==> SameButGen(s.clients[fd], s'.clients[fd]))
    decreases |ds|
  {
    hide Deliver;
    if ds != [] {
      DeliverFrame(s, ds[0]);
      DeliverAllFrame(Deliver(s, ds[0]), ds[1..]);
    }
  }

  lemma {:induction false} DeliverAllSnoc(s: State, ds: seq<Delivery>, d: Delivery)
    requires AllTo(ds, s.clients.Keys) && d.fd in s.clients
    ensures AllTo(ds + [d], s.clients.Keys) && d.fd in DeliverAll(s, ds).clients
    ensures DeliverAll(s, ds + [d]) == Deliver(DeliverAll(s, ds), d)
    decreases |ds|
  {
    hide Deliver;
    DeliverAllFrame(s, ds);
    if ds == [] {
      assert [] + [d] == [d] && [d][1..] == [];
    } else {
      DeliverFrame(s, ds[0]);
      assert (ds + [d])[1..] == ds[1..] + [d];
      DeliverAllSnoc(Deliver(s, ds[0]), ds[1..], d);
    }
  }

  lemma DeliverNothing(s: State)
    ensures DeliverAll(s, []) == s
  {
  }

  lemma {:induction false} DeliverAllConcat(s: State, a: seq<Delivery>, b: seq<Delivery>)
    requires AllTo(a, s.clients.Keys) && AllTo(b, s.clients.Keys)
    ensures AllTo(a + b, s.clients.Keys) && AllTo(b, DeliverAll(s, a).clients.Keys)
    ensures DeliverAll(s, a + b) == DeliverAll(DeliverAll(s, a), b)
    decreases |a|
  {
    hide Deliver;
    DeliverAllFrame(s, a);
    if a == [] {
      assert [] + b == b;
    } else {
      DeliverFrame(s, a[0]);
      assert (a + b)[1..] == a[1..] + b;
      DeliverAllConcat(Deliver(s, a[0]), a[1..], b);
    }
  }

  /** A new PUBLISH that goes out at once: not a duplicate, and above QoS 0 only to a client with nothing postponed. */
  predicate Fresh(s: State, c: Cmd) {
    && c.fd in s.clients && c.packet.Publish? && !c.packet.dup
    && (c.packet.topic.qos > 0 ==> !Busy(s, s.clients[c.fd].id))
  }

  lemma DeliverSends(s: State, d: Delivery)
    requires d.fd in s.clients
    ensures var s' := Deliver(s, d);
      && (forall cid :: Queue(s, cid) <= Queue(s', cid) && Busy(s', cid) == Busy(s, cid))
      && s.out <= s'.out && (forall i :: |s.out| <= i < |s'.out| ==> Fresh(s, s'.out[i]))
  {
  }

  /** Deliveries only append, to queues that are already in use and to the output, and never start a queue. */
  lemma {:induction false} DeliverAllSends(s: State, ds: seq<Delivery>)
    requires AllTo(ds, s.clients.Keys)
    ensures var s' := DeliverAll(s, ds);
      && (forall cid :: Queue(s, cid) <= Queue(s', cid) && Busy(s', cid) == Busy(s, cid))
      && s.out <= s'.out && (forall i :: |s.out| <= i < |s'.out| ==> Fresh(s, s'.out[i]))
    decreases |ds|
  {
    hide Deliver, Busy, Queue;
    if ds != [] {
      var s1 := Deliver(s, ds[0]);
      DeliverFrame(s, ds[0]);
      DeliverSends(s, ds[0]);
      DeliverAllSends(s1, ds[1..]);
      var s' := DeliverAll(s1, ds[1..]);
      forall i | |s.out| <= i < |s'.out| ensures Fresh(s, s'.out[i]) {
        if i >= |s1.out| {
          assert Fresh(s1, s'.out[i]);
          assert SameButGen(s.clients[s'.out[i].fd], s1.clients[s'.out[i].fd]);
        } else {
          assert s'.out[i] == s1.out[i];
        }
      }
      forall cid ensures Queue(s, cid) <= Queue(s', cid) && Busy(s', cid) == Busy(s, cid) {
        PrefixChain(Queue(s, cid), Queue(s1, cid), Queue(s', cid));
      }
    }
  }

  lemma PrefixChain<T>(a: seq<T>, b: seq<T>, c: seq<T>)
    requires a <= b <= c
    ensures a <= c
  {
  }

  // ---------------------------------------------------------------- one connection at a time

  function PacketsFor(out: seq<Cmd>, fd: Fd): seq<Packet> {
    if out == [] then [] else
    PacketsFor(out[..|out| - 1], fd) + if out[|out| - 1].fd == fd then [out[|out| - 1].packet] else []
  }

  /** The delivery a list has for a connection. */
  function For(ds: seq<Delivery>, fd: Fd): (r: Option<Delivery>)
    ensures r.Some? ==> r.value in ds && r.value.fd == fd
    ensures r.None? ==> forall d :: d in ds ==> d.fd != fd
  {
    if ds == [] then None else if ds[0].fd == fd then Some(ds[0]) else For(ds[1..], fd)
  }

  predicate OneEach(ds: seq<Delivery>) {
    forall i, j :: 0 <= i < j < |ds| ==> ds[i].fd != ds[j].fd
  }

  /** What the connection is sent at once. */
  function SentTo(s: State, fd: Fd, d: Option<Delivery>): seq<Packet>
    requires fd in s.clients && (d.Some? ==> d.value.fd == fd)
  {
    if d.None? || Postpones(s, d.value) then [] else [Publish(false, Numbered(s.clients[fd], d.value))]
  }

  /** What is postponed for it instead. */
  function PostponedFor(s: State, fd: Fd, d: Option<Delivery>): seq<Event>
    requires fd in s.clients && (d.Some? ==> d.value.fd == fd)
  {
    if d.None? || !Postpones(s, d.value) then [] else
    var t := Numbered(s.clients[fd], d.value);
    [Event(Publish(true, t), t.id)]
  }

  predicate AloneWithId(s: State, ds: seq<Delivery>, fd: Fd)
    requires AllTo(ds, s.clients.Keys) && fd in s.clients
  {
    forall d :: d in ds && d.fd != fd ==> s.clients[d.fd].id != s.clients[fd].id
  }

  /** The state as one connection sees it: its packets, its queue and its client. */
  predicate SeenBy(s: State, s': State, fd: Fd, d: Option<Delivery>)
    requires fd in s.clients && (d.Some? ==> d.value.fd == fd)
  {
    && PacketsFor(s'.out, fd) == PacketsFor(s.out, fd) + SentTo(s, fd, d)
    && fd in s'.clients
    && s'.clients[fd] == if d.Some? then Draw(s.clients[fd], d.value) else s.clients[fd]
  }

  predicate QueuedFor(s: State, s': State, fd: Fd, d: Option<Delivery>)
    requires fd in s.clients && (d.Some? ==> d.value.fd == fd)
  {
    Queue(s', s.clients[fd].id) == Queue(s, s.clients[fd].id) + PostponedFor(s, fd, d)
  }

  lemma PacketsForSnoc(out: seq<Cmd>, c: Cmd, fd: Fd)
    ensures PacketsFor(out + [c], fd) == PacketsFor(out, fd) + if c.fd == fd then [c.packet] else []
  {
    assert (out + [c])[..|out|] == out;
  }

  lemma DeliverSeen(s: State, d: Delivery, fd: Fd)
    requires d.fd in s.clients && fd in s.clients
    ensures SeenBy(s, Deliver(s, d), fd, if d.fd == fd then Some(d) else None)
    ensures d.fd != fd ==> Deliver(s, d).clients[fd] == s.clients[fd]
  {
    hide PacketsFor;
    if !Postpones(s, d) {
      PacketsForSnoc(s.out, Cmd(d.fd, Publish(false, Numbered(s.clients[d.fd], d))), fd);
    }
  }

  lemma DeliverQueued(s: State, d: Delivery, fd: Fd)
    requires d.fd in s.clients && fd in s.clients
    requires d.fd != fd ==> s.clients[d.fd].id != s.clients[fd].id
    ensures QueuedFor(s, Deliver(s, d), fd, if d.fd == fd then Some(d) else None)
  {
  }

  /** With one delivery a connection at most, each gets exactly its own, whatever goes to the others in between. */
  lemma {:induction false} DeliverAllSeen(s: State, ds: seq<Delivery>, fd: Fd)
    requires AllTo(ds, s.clients.Keys) && OneEach(ds) && fd in s.clients
    ensures SeenBy(s, DeliverAll(s, ds), fd, For(ds, fd))
    ensures AloneWithId(s, ds, fd) ==> QueuedFor(s, DeliverAll(s, ds), fd, For(ds, fd))
    decreases |ds|
  {
    hide Deliver, PacketsFor, Busy, Numbered, Draw, Queue;
    if ds != [] {
      var d, s1, tail := ds[0], Deliver(s, ds[0]), ds[1..];
      DeliverFrame(s, d);
      DeliverSends(s, d);
      DeliverSeen(s, d, fd);
      DeliverAllSeen(s1, tail, fd);
      if d.fd == fd {
        forall e | e in tail ensures e.fd != fd {
          var j :| 0 <= j < |tail| && tail[j] == e;
          assert ds[0].fd != ds[j + 1].fd;
        }
        assert For(tail, fd).None?;
      } else {
        assert s1.clients[fd] == s.clients[fd];
      }
      SeenCompose(s, s1, DeliverAll(s, ds), fd, d, tail);
      if AloneWithId(s, ds, fd) {
        DeliverQueued(s, d, fd);
        AloneTail(s, s1, ds, fd);
        QueuedCompose(s, s1, DeliverAll(s, ds), fd, d, tail);
      }
    }
  }

  lemma AloneTail(s: State, s1: State, ds: seq<Delivery>, fd: Fd)
    requires ds != [] && AllTo(ds, s.clients.Keys) && fd in s.clients && AloneWithId(s, ds, fd)
    requires s1.clients.Keys == s.clients.Keys
    requires forall f :: f in s.clients ==> SameButGen(s.clients[f], s1.clients[f])
    ensures AloneWithId(s1, ds[1..], fd)
  {
    assert SameButGen(s.clients[fd], s1.clients[fd]);
    forall d | d in ds[1..] && d.fd != fd ensures s1.clients[d.fd].id != s1.clients[fd].id {
      assert d in ds && SameButGen(s.clients[d.fd], s1.clients[d.fd]);
    }
  }

  lemma SeenCompose(s: State, s1: State, s2: State, fd: Fd, d: Delivery, tail: seq<Delivery>)
    requires fd in s.clients && fd in s1.clients
    requires SeenBy(s, s1, fd, if d.fd == fd then Some(d) else None) && SeenBy(s1, s2, fd, For(tail, fd))
    requires if d.fd == fd then For(tail, fd).None? else s1.clients[fd] == s.clients[fd]
    requires forall cid :: Busy(s1, cid) == Busy(s, cid)
    ensures SeenBy(s, s2, fd, For([d] + tail, fd))
  {
    hide PacketsFor, Busy, Numbered, Draw;
    assert ([d] + tail)[1..] == tail;
    assert PacketsFor(s.out, fd) + [] == PacketsFor(s.out, fd);
    assert PacketsFor(s1.out, fd) + [] == PacketsFor(s1.out, fd);
  }

  lemma QueuedCompose(s: State, s1: State, s2: State, fd: Fd, d: Delivery, tail: seq<Delivery>)
    requires fd in s.clients && fd in s1.clients
    requires QueuedFor(s, s1, fd, if d.fd == fd then Some(d) else None) && QueuedFor(s1, s2, fd, For(tail, fd))
    requires if d.fd == fd then For(tail, fd).None? else s1.clients[fd] == s.clients[fd]
    requires SameButGen(s.clients[fd], s1.clients[fd])
    requires forall cid :: Busy(s1, cid) == Busy(s, cid)
    ensures QueuedFor(s, s2, fd, For([d] + tail, fd))
  {
    hide Busy, Numbered, Queue;
    var cid := s.clients[fd].id;
    assert ([d] + tail)[1..] == tail;
    assert Queue(s, cid) + [] == Queue(s, cid) && Queue(s1, cid) + [] == Queue(s1, cid);
  }

  // ---------------------------------------------------------------- fan-outs

  /** A fan-out has one delivery for each connection with a matching subscription, at that subscription's QoS. */
  lemma {:induction false} FanOutFor(clients: map<Fd, Client>, name: Str, payload: seq<byte>, order: seq<Fd>,
                                     choice: Choice, fd: Fd)
    requires Chosen(clients, choice) && NoDuplicates(order)
    ensures var ds := FanOut(clients, name, payload, order, choice);
      && OneEach(ds) && (forall d :: d in ds ==> d.fd in order)
      && For(ds, fd) == if fd in order && fd in choice
                        then Some(Delivery(fd, Options(clients, choice, fd) % 4, name, payload)) else None
  {
    if order != [] {
      var tail := FanOut(clients, name, payload, order[1..], choice);
      assert NoDuplicates(order[1..]);
      FanOutFor(clients, name, payload, order[1..], choice, fd);
      assert order[0] !in order[1..];
      if order[0] in choice {
        var d := Delivery(order[0], Options(clients, choice, order[0]) % 4, name, payload);
        assert FanOut(clients, name, payload, order, choice) == [d] + tail;
        OneMore(d, tail);
        assert ([d] + tail)[1..] == tail;
      } else {
        assert FanOut(clients, name, payload, order, choice) == tail;
      }
    }
  }

  /** The loop meets one more connection. */
  lemma {:induction false} FanOutSnoc(clients: map<Fd, Client>, name: Str, payload: seq<byte>, order: seq<Fd>,
                                      choice: Choice, fd: Fd)
    requires Chosen(clients, choice)
    ensures FanOut(clients, name, payload, order + [fd], choice)
         == FanOut(clients, name, payload, order, choice) + FanOut(clients, name, payload, [fd], choice)
  {
    hide Chosen, AllTo, Options;
    if order == [] {
      assert [] + [fd] == [fd];
    } else {
      assert (order + [fd])[1..] == order[1..] + [fd];
      FanOutSnoc(clients, name, payload, order[1..], choice, fd);
      var tail := FanOut(clients, name, payload, order[1..], choice);
      var last := FanOut(clients, name, payload, [fd], choice);
      if order[0] in choice {
        Associate([Delivery(order[0], Options(clients, choice, order[0]) % 4, name, payload)], tail, last);
      }
    }
  }

  /** A choice for a connection not met yet does not matter. */
  lemma {:induction false} FanOutChoice(clients: map<Fd, Client>, name: Str, payload: seq<byte>, order: seq<Fd>,
                                        choice: Choice, fd: Fd, f: Str)
    requires Chosen(clients, choice) && fd !in order && fd in clients && f in clients[fd].subs
    ensures FanOut(clients, name, payload, order, choice[fd := f]) == FanOut(clients, name, payload, order, choice)
  {
    if order != [] {
      FanOutChoice(clients, name, payload, order[1..], choice, fd, f);
    }
  }

  lemma {:induction false} RetainedForSnoc(retained: map<Str, Topic>, fd: Fd, options: byte, names: seq<Str>, n: Str)
    requires (forall m :: m in names ==> m in retained) && n in retained
    ensures RetainedFor(retained, fd, options, names + [n])
         == RetainedFor(retained, fd, options, names) + [Delivery(fd, options, retained[n].name, retained[n].payload)]
  {
    if names == [] {
      assert [] + [n] == [n];
    } else {
      assert (names + [n])[1..] == names[1..] + [n];
      RetainedForSnoc(retained, fd, options, names[1..], n);
    }
  }

  lemma {:induction false} RetainedAllSnoc(retained: map<Str, Topic>, fd: Fd, filters: seq<Filter>, plan: seq<seq<Str>>,
                                           f: Filter, names: seq<Str>)
    requires |plan| == |filters|
    requires forall i :: 0 <= i < |plan| ==> forall n :: n in plan[i] ==> n in retained
    requires forall n :: n in names ==> n in retained
    ensures RetainedAll(retained, fd, filters + [f], plan + [names])
         == RetainedAll(retained, fd, filters, plan) + RetainedFor(retained, fd, f.options, names)
  {
    if filters == [] {
      assert [] + [f] == [f] && [] + [names] == [names];
    } else {
      assert (filters + [f])[1..] == filters[1..] + [f] && (plan + [names])[1..] == plan[1..] + [names];
      RetainedAllSnoc(retained, fd, filters[1..], plan[1..], f, names);
    }
  }

  lemma OneMore(d: Delivery, tail: seq<Delivery>)
    requires OneEach(tail) && (forall e :: e in tail ==> e.fd != d.fd)
    ensures OneEach([d] + tail)
  {
    var ds := [d] + tail;
    forall i, j | 0 <= i < j < |ds| ensures ds[i].fd != ds[j].fd {
      assert ds[j] == tail[j - 1] && tail[j - 1] in tail;
    }
  }
}

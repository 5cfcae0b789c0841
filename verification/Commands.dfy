/**
  The queue of outgoing packets, the sender threads that empty it, and partial
  writes to the connections.
 */
module Commands {
  import opened Bytes

  /** `FdWriteCommand`: a packet and the descriptor it goes to. */
  datatype Cmd = Cmd(fd: int, bytes: seq<byte>)

  // ---------------------------------------------------------------- the queue and one write

  class CommandQueue {
    var commands: seq<Cmd>

    constructor ()
      ensures commands == []
    {
      commands := [];
    }

    method AddCommand(fd: int, bytes: seq<byte>)
      modifies this
      ensures commands == old(commands) + [Cmd(fd, bytes)]
    {
      commands := commands + [Cmd(fd, bytes)];
    }

    /**
      `Execute` of a thread that was not left waiting: takes the front off the
      queue and writes it.  `results` are what the calls of `write` return.
     */
    method Execute(results: seq<int>) returns (cmd: Cmd, ret: int, written: seq<byte>)
      requires commands != []
      modifies this
      ensures [cmd] + commands == old(commands)
      ensures written <= cmd.bytes && (ret == |cmd.bytes| <==> written == cmd.bytes)
      ensures |results| >= |cmd.bytes| && (forall r :: r in results ==> r > 0) ==> written == cmd.bytes
    {
      cmd := commands[0];
      commands := commands[1..];
      ret, written := WriteData(cmd.bytes, results);
    }
  }

  /**
    `WriteData`: repeats `write` until every byte is out or a call fails.  A
    call never takes more than it was offered; running out of results counts
    as a failure.
   */
  method WriteData(data: seq<byte>, results: seq<int>) returns (ret: int, written: seq<byte>)
    ensures written <= data
    ensures ret == if written == data then |data| else -1
    ensures |results| >= |data| && (forall r :: r in results ==> r > 0) ==> written == data
  {
    var sent := 0;
    var calls := 0;
    while sent < |data|
      invariant sent <= |data| && calls <= |results|
      invariant (forall r :: r in results ==> r > 0) ==> sent == |data| || sent >= calls
      decreases |data| - sent
    {
      if calls == |results| || results[calls] <= 0 {
        assert calls < |results| ==> results[calls] in results;
        return -1, data[..sent];
      }
      var res := if results[calls] <= |data| - sent then results[calls] else |data| - sent;
      calls := calls + 1;
      sent := sent + res;
    }
    return sent, data[..sent];
  }

  // ---------------------------------------------------------------- all threads together

  type Thread = nat

  /** A command a sender has taken off the queue, and how much of it is written. */
  datatype InFlight = InFlight(cmd: Cmd, sent: nat) {
    predicate Valid() { sent < |cmd.bytes| }
  }

  datatype State = State(queue: seq<Cmd>, busy: map<Thread, InFlight>, wire: map<int, seq<byte>>) {
    function Wire(fd: int): seq<byte> { if fd in wire then wire[fd] else [] }
  }

  /** The atomic steps: `AddCommand`, the pop under the mutex, one call of `write` with its result. */
  datatype Action = Add(cmd: Cmd) | Pop(thread: Thread) | Write(thread: Thread, result: int)

  predicate Enabled(s: State, a: Action) {
    match a
    case Add(_) => true
    case Pop(t) => s.queue != [] && t !in s.busy
    case Write(t, r) => t in s.busy && s.busy[t].Valid() && r <= |s.busy[t].cmd.bytes| - s.busy[t].sent
  }

  function Step(s: State, a: Action): State
    requires Enabled(s, a)
  {
    match a
    case Add(c) => s.(queue := s.queue + [c])
    case Pop(t) =>
      var c := s.queue[0];
      s.(queue := s.queue[1..], busy := if c.bytes == [] then s.busy else s.busy[t := InFlight(c, 0)])
    case Write(t, r) =>
      var f := s.busy[t];
      if r <= 0 then s.(busy := s.busy - {t}) else
      s.(wire := s.wire[f.cmd.fd := s.Wire(f.cmd.fd) + f.cmd.bytes[f.sent..f.sent + r]],
         busy := if f.sent + r == |f.cmd.bytes| then s.busy - {t} else s.busy[t := InFlight(f.cmd, f.sent + r)])
  }

  const IDLE := State([], map[], map[])

  predicate Run(acts: seq<Action>)
    decreases |acts|, 0
  {
    acts == [] || (Run(Init(acts)) && Enabled(Reach(Init(acts)), Last(acts)))
  }

  function Init(acts: seq<Action>): seq<Action> requires acts != [] { acts[..|acts| - 1] }
  function Last(acts: seq<Action>): Action requires acts != [] { acts[|acts| - 1] }

  function Reach(acts: seq<Action>): State
    requires Run(acts)
    decreases |acts|, 1
  {
    if acts == [] then IDLE else Step(Reach(Init(acts)), Last(acts))
  }

  function Added(acts: seq<Action>): seq<Cmd> {
    if acts == [] then [] else Added(Init(acts)) + if Last(acts).Add? then [Last(acts).cmd] else []
  }

  function Popped(acts: seq<Action>): seq<Cmd>
    requires Run(acts)
  {
    if acts == [] then [] else
      Popped(Init(acts)) + if Last(acts).Pop? then [Reach(Init(acts)).queue[0]] else []
  }

  /** Under any interleaving of producers and senders, the popped, then the queued, are the added, in order. */
  lemma {:induction false} Fifo(acts: seq<Action>)
    requires Run(acts)
    ensures Popped(acts) + Reach(acts).queue == Added(acts)
  {
    if acts != [] {
      Fifo(Init(acts));
      var q := Reach(Init(acts)).queue;
      if Last(acts).Pop? {
        assert [q[0]] + q[1..] == q;
      }
    }
  }

  // ---------------------------------------------------------------- the byte stream of a connection

  /** The bytes a list of commands has for one descriptor. */
  function BytesFor(cmds: seq<Cmd>, fd: int): seq<byte> {
    if cmds == [] then [] else (if cmds[0].fd == fd then cmds[0].bytes else []) + BytesFor(cmds[1..], fd)
  }

  /** Every `write` succeeds, and no command is taken while another sender still writes to the same descriptor. */
  predicate Exclusive(acts: seq<Action>)
    requires Run(acts)
  {
    acts == [] || (Exclusive(Init(acts)) && ExclusiveStep(Reach(Init(acts)), Last(acts)))
  }

  predicate ExclusiveStep(s: State, a: Action)
    requires Enabled(s, a)
  {
    match a
    case Add(_) => true
    case Pop(_) => forall u :: u in s.busy ==> s.busy[u].cmd.fd != s.queue[0].fd
    case Write(_, r) => r > 0
  }

  predicate OneWriterEach(s: State) {
    && (forall u :: u in s.busy ==> s.busy[u].Valid())
    && (forall u, v :: u in s.busy && v in s.busy && s.busy[u].cmd.fd == s.busy[v].cmd.fd ==> u == v)
  }

  /** `rest` is what is still to be written of the command in flight for fd, if there is one. */
  predicate IsRest(s: State, fd: int, rest: seq<byte>) {
    && (forall u :: u in s.busy && s.busy[u].cmd.fd == fd && s.busy[u].Valid()
          ==> rest == s.busy[u].cmd.bytes[s.busy[u].sent..])
    && ((forall u :: u in s.busy ==> s.busy[u].cmd.fd != fd) ==> rest == [])
  }

  lemma {:induction false} BytesForConcat(a: seq<Cmd>, b: seq<Cmd>, fd: int)
    ensures BytesFor(a + b, fd) == BytesFor(a, fd) + BytesFor(b, fd)
  {
    if a == [] {
      assert a + b == b;
    } else {
      assert (a + b)[1..] == a[1..] + b;
      BytesForConcat(a[1..], b, fd);
    }
  }

  /** What the stream of fd must look like: written, then in flight, then queued, is everything added for it. */
  predicate StreamIntact(s: State, added: seq<Cmd>, fd: int, rest: seq<byte>) {
    s.Wire(fd) + rest + BytesFor(s.queue, fd) == BytesFor(added, fd)
  }

  lemma AddKeepsStream(s: State, c: Cmd, added: seq<Cmd>, fd: int, rest: seq<byte>)
    requires StreamIntact(s, added, fd, rest)
    ensures StreamIntact(Step(s, Add(c)), added + [c], fd, rest)
  {
    BytesForConcat(s.queue, [c], fd);
    BytesForConcat(added, [c], fd);
    Associate(s.Wire(fd) + rest, BytesFor(s.queue, fd), BytesFor([c], fd));
  }

  lemma PopKeepsStream(s: State, t: Thread, added: seq<Cmd>, fd: int, rest: seq<byte>) returns (rest': seq<byte>)
    requires Enabled(s, Pop(t)) && ExclusiveStep(s, Pop(t)) && OneWriterEach(s)
    requires IsRest(s, fd, rest) && StreamIntact(s, added, fd, rest)
    ensures OneWriterEach(Step(s, Pop(t))) && IsRest(Step(s, Pop(t)), fd, rest')
    ensures StreamIntact(Step(s, Pop(t)), added, fd, rest')
  {
    hide StreamIntact;
    var s', c := Step(s, Pop(t)), s.queue[0];
    rest' := if c.fd == fd then c.bytes else rest;
    forall u | u in s.busy ensures u in s'.busy && s'.busy[u] == s.busy[u] {}
    assert c.bytes != [] ==> t in s'.busy && s'.busy[t].cmd.fd == c.fd;
    PopWire(s, t, added, fd, rest);
  }

  lemma PopWire(s: State, t: Thread, added: seq<Cmd>, fd: int, rest: seq<byte>)
    requires Enabled(s, Pop(t)) && StreamIntact(s, added, fd, rest)
    requires s.queue[0].fd == fd ==> rest == []
    ensures StreamIntact(Step(s, Pop(t)), added, fd, if s.queue[0].fd == fd then s.queue[0].bytes else rest)
  {
    var w, c, q := s.Wire(fd), s.queue[0], BytesFor(s.queue[1..], fd);
    assert w + [] + (c.bytes + q) == w + c.bytes + q;
    assert [] + q == q;
  }

  lemma WriteKeepsStream(s: State, t: Thread, r: int, added: seq<Cmd>, fd: int, rest: seq<byte>)
    returns (rest': seq<byte>)
    requires Enabled(s, Write(t, r)) && r > 0 && OneWriterEach(s)
    requires IsRest(s, fd, rest) && StreamIntact(s, added, fd, rest)
    ensures OneWriterEach(Step(s, Write(t, r))) && IsRest(Step(s, Write(t, r)), fd, rest')
    ensures StreamIntact(Step(s, Write(t, r)), added, fd, rest')
  {
    hide StreamIntact;
    var s', f := Step(s, Write(t, r)), s.busy[t];
    rest' := if f.cmd.fd == fd then f.cmd.bytes[f.sent + r..] else rest;
    forall u | u in s.busy && u != t ensures u in s'.busy && s'.busy[u] == s.busy[u] {}
    assert if f.sent + r == |f.cmd.bytes| then t !in s'.busy else t in s'.busy && s'.busy[t].cmd == f.cmd;
    WriteWire(s, t, r, added, fd, rest);
  }

  lemma WriteWire(s: State, t: Thread, r: int, added: seq<Cmd>, fd: int, rest: seq<byte>)
    requires Enabled(s, Write(t, r)) && r > 0 && StreamIntact(s, added, fd, rest)
    requires s.busy[t].cmd.fd == fd ==> rest == s.busy[t].cmd.bytes[s.busy[t].sent..]
    ensures StreamIntact(Step(s, Write(t, r)), added, fd,
                         if s.busy[t].cmd.fd == fd then s.busy[t].cmd.bytes[s.busy[t].sent + r..] else rest)
  {
    hide BytesFor;
    var f, w := s.busy[t], s.Wire(fd);
    var chunk, tail := f.cmd.bytes[f.sent..f.sent + r], f.cmd.bytes[f.sent + r..];
    if f.cmd.fd == fd {
      assert chunk + tail == rest;
      Associate(w, chunk, tail);
      assert Step(s, Write(t, r)).Wire(fd) == w + chunk;
    } else {
      assert Step(s, Write(t, r)).Wire(fd) == w;
    }
  }

  /**
    When each descriptor has at most one sender at a time and writes succeed,
    the stream of every connection is the concatenation of its packets in the
    order they were added, however the writes are cut up.
   */
  lemma {:induction false} StreamInOrder(acts: seq<Action>, fd: int) returns (rest: seq<byte>)
    requires Run(acts) && Exclusive(acts)
    ensures OneWriterEach(Reach(acts)) && IsRest(Reach(acts), fd, rest)
    ensures StreamIntact(Reach(acts), Added(acts), fd, rest)
  {
    rest := [];
    if acts != [] {
      rest := StreamInOrder(Init(acts), fd);
      var s, added := Reach(Init(acts)), Added(Init(acts));
      assert added + [] == added;
      match Last(acts)
      case Add(c) => AddKeepsStream(s, c, added, fd, rest);
      case Pop(t) => rest := PopKeepsStream(s, t, added, fd, rest);
      case Write(t, r) => rest := WriteKeepsStream(s, t, r, added, fd, rest);
    }
  }

  /** Once everything is written the stream is exactly the concatenation. */
  lemma StreamComplete(acts: seq<Action>, fd: int)
    requires Run(acts) && Exclusive(acts)
    requires Reach(acts).queue == [] && Reach(acts).busy == map[]
    ensures Reach(acts).Wire(fd) == BytesFor(Added(acts), fd)
  {
    var rest := StreamInOrder(acts, fd);
    assert Reach(acts).Wire(fd) + [] + [] == Reach(acts).Wire(fd);
  }

  /** Threads 0 to n - 1 are senders, and their writes succeed. */
  predicate Senders(acts: seq<Action>, n: nat) {
    && (forall i :: 0 <= i < |acts| && acts[i].Pop? ==> acts[i].thread < n)
    && (forall i :: 0 <= i < |acts| && acts[i].Write? ==> acts[i].result > 0)
  }

  /** One sender with successful writes is always exclusive. */
  lemma {:induction false} SingleSenderIsExclusive(acts: seq<Action>)
    requires Run(acts) && Senders(acts, 1)
    ensures Exclusive(acts) && Reach(acts).busy.Keys <= {0}
  {
    if acts != [] {
      SingleSenderIsExclusive(Init(acts));
    }
  }

  /** A run of n senders that ends with nothing left to do. */
  predicate Finished(acts: seq<Action>, n: nat) {
    Run(acts) && Senders(acts, n) && Reach(acts).queue == [] && Reach(acts).busy == map[]
  }

  predicate InOrder(acts: seq<Action>, fd: int)
    requires Run(acts)
  {
    Reach(acts).Wire(fd) == BytesFor(Added(acts), fd)
  }

  /**
    Every finished run with successful writes leaves each connection its packets
    in order, however they interleave, if and only if there is at most one
    sender.
   */
  lemma OrderedIffOneSender(n: nat)
    ensures (forall acts, fd :: Finished(acts, n) ==> InOrder(acts, fd)) <==> n <= 1
  {
    hide Run, Reach, Exclusive, Added, BytesFor;
    if n <= 1 {
      forall acts, fd | Finished(acts, n) ensures InOrder(acts, fd) {
        SingleSenderIsExclusive(acts);
        StreamComplete(acts, fd);
      }
    } else {
      var acts := TwoSendersInterleave(0);
      assert Finished(acts, n) && !InOrder(acts, 0);
    }
  }

  /** Half of the first packet is out. */
  lemma FirstHalf(c1: Cmd, c2: Cmd) returns (a: seq<Action>)
    requires c1.bytes == [1, 2]
    ensures a == [Add(c1), Add(c2), Pop(0), Write(0, 1)] && Run(a) && Added(a) == [c1, c2]
    ensures Reach(a) == State([c2], map[0 := InFlight(c1, 1)], map[c1.fd := [1]])
  {
    hide Run, Reach, Added;
    RunNothing();
    a := Extend([], Add(c1), State([c1], map[], map[]));
    a := Extend(a, Add(c2), State([c1, c2], map[], map[]));
    assert [c1, c2][1..] == [c2];
    a := Extend(a, Pop(0), State([c2], map[0 := InFlight(c1, 0)], map[]));
    assert [] + [1, 2][0..1] == [1];
    a := Extend(a, Write(0, 1), State([c2], map[0 := InFlight(c1, 1)], map[c1.fd := [1]]));
  }

  /** With the two senders the broker starts, packets of one connection can be mixed up. */
  lemma TwoSendersInterleave(fd: int) returns (a: seq<Action>)
    ensures a == [Add(Cmd(fd, [1, 2])), Add(Cmd(fd, [3])), Pop(0), Write(0, 1), Pop(1), Write(1, 1), Write(0, 1)]
    ensures Run(a) && Reach(a).queue == [] && Reach(a).busy == map[]
    ensures Reach(a).Wire(fd) == [1, 3, 2] && BytesFor(Added(a), fd) == [1, 2, 3]
  {
    hide Run, Reach, Added, BytesFor;
    var c1, c2 := Cmd(fd, [1, 2]), Cmd(fd, [3]);
    a := FirstHalf(c1, c2);
    a := Extend(a, Pop(1), State([], map[0 := InFlight(c1, 1), 1 := InFlight(c2, 0)], map[fd := [1]]));
    assert [1] + [3][0..1] == [1, 3];
    a := Extend(a, Write(1, 1), State([], map[0 := InFlight(c1, 1)], map[fd := [1, 3]]));
    assert [1, 3] + [1, 2][1..2] == [1, 3, 2];
    a := Extend(a, Write(0, 1), State([], map[], map[fd := [1, 3, 2]]));
    assert Added(a) == [c1, c2];
    BytesForTwo(c1, c2);
  }

  lemma RunNothing()
    ensures Run([]) && Reach([]) == IDLE && Added([]) == []
  {
  }

  lemma BytesForTwo(c1: Cmd, c2: Cmd)
    requires c1.fd == c2.fd
    ensures BytesFor([c1, c2], c1.fd) == c1.bytes + c2.bytes
  {
    assert [c1, c2][1..] == [c2] && [c2][1..] == [];
    assert BytesFor([c2], c1.fd) == c2.bytes + [] == c2.bytes;
  }

  lemma Extend(acts: seq<Action>, a: Action, s': State) returns (longer: seq<Action>)
    requires Run(acts) && Enabled(Reach(acts), a) && Step(Reach(acts), a) == s'
    ensures longer == acts + [a] && Run(longer) && Reach(longer) == s'
    ensures Added(longer) == Added(acts) + if a.Add? then [a.cmd] else []
  {
    longer := acts + [a];
    assert Init(longer) == acts && Last(longer) == a;
  }
}

/**
  The parsers of CONNECT, SUBSCRIBE and UNSUBSCRIBE, sections 3.1, 3.8 and 3.10
  of MQTT 5.0.
 */
module Parsers {
  import opened Bytes
  import opened Properties
  import opened Headers
  import opened Packets
  import opened Topics

  // ---------------------------------------------------------------- SUBSCRIBE and UNSUBSCRIBE

  datatype Filter = Filter(name: Str, options: byte)

  function EncodeFilters(fs: seq<Filter>): seq<byte> {
    if fs == [] then [] else Prefixed(fs[0].name) + [fs[0].options] + EncodeFilters(fs[1..])
  }

  function EncodeNames(ns: seq<Str>): seq<byte> {
    if ns == [] then [] else Prefixed(ns[0]) + EncodeNames(ns[1..])
  }

  function After<T>(done: seq<T>, more: Option<seq<T>>): Option<seq<T>> {
    if more.None? then None else Some(done + more.value)
  }

  function ReadFilter(b: seq<byte>): (r: Read<Filter>)
    ensures r.Read? ==> |r.rest| < |b|
  {
    match ReadName(b) case Overrun => Read.Overrun case Read(name, b1) =>
    if b1 == [] then Read.Overrun else Read(Filter(name, b1[0]), b1[1..])
  }

  /** The payload of SUBSCRIBE; `None` is a read beyond the packet. */
  function ParseFilters(b: seq<byte>): Option<seq<Filter>>
    decreases |b|
  {
    if b == [] then Some([]) else
    match ReadFilter(b) case Overrun => None case Read(f, b1) => After([f], ParseFilters(b1))
  }

  /** The payload of UNSUBSCRIBE. */
  function ParseNames(b: seq<byte>): Option<seq<Str>>
    decreases |b|
  {
    if b == [] then Some([]) else
    match ReadName(b) case Overrun => None case Read(name, b1) => After([name], ParseNames(b1))
  }

  datatype Listing<+T> = Listing(id: u16, chain: Chain, items: seq<T>)

  function ParseSubscribe(body: seq<byte>): Option<Listing<Filter>> {
    match ReadId(body) case Overrun => None case Read(id, b1) =>
    match ReadChain(map[], b1) case Overrun => None case Read(c, b2) =>
    match ParseFilters(b2) case None => None case Some(fs) => Some(Listing(id, c.1, fs))
  }

  function ParseUnsubscribe(body: seq<byte>): Option<Listing<Str>> {
    match ReadId(body) case Overrun => None case Read(id, b1) =>
    match ReadChain(map[], b1) case Overrun => None case Read(c, b2) =>
    match ParseNames(b2) case None => None case Some(ns) => Some(Listing(id, c.1, ns))
  }

  lemma ReadFilterRoundTrip(f: Filter, rest: seq<byte>)
    requires |f.name| < 0x1_0000
    ensures ReadFilter(Prefixed(f.name) + [f.options] + rest) == Read(f, rest)
  {
    hide Prefixed, ReadName;
    assert Prefixed(f.name) + [f.options] + rest == Prefixed(f.name) + ([f.options] + rest);
    ReadNameRoundTrip(f.name, [f.options] + rest);
  }

  lemma {:induction false} FiltersRoundTrip(fs: seq<Filter>)
    requires forall f :: f in fs ==> |f.name| < 0x1_0000
    ensures ParseFilters(EncodeFilters(fs)) == Some(fs)
  {
    hide Prefixed, ReadFilter;
    if fs != [] {
      ReadFilterRoundTrip(fs[0], EncodeFilters(fs[1..]));
      FiltersRoundTrip(fs[1..]);
      assert [fs[0]] + fs[1..] == fs;
    }
  }

  lemma {:induction false} NamesRoundTrip(ns: seq<Str>)
    requires forall n :: n in ns ==> |n| < 0x1_0000
    ensures ParseNames(EncodeNames(ns)) == Some(ns)
  {
    hide Prefixed, ReadName;
    if ns != [] {
      ReadNameRoundTrip(ns[0], EncodeNames(ns[1..]));
      NamesRoundTrip(ns[1..]);
      assert [ns[0]] + ns[1..] == ns;
    }
  }

  lemma IdChainShape(h: Header, b2: seq<byte>)
    requires (h.SubscribeH? && h.id != 0) || h.UnsubscribeH?
    ensures EncodeHeader(h) + b2 == Net16(h.id) + (EncodeChain(h.chain) + b2)
  {
    hide Net16, EncodeChain;
    var i, e := Net16(h.id), EncodeChain(h.chain);
    assert i + e + b2 == i + (e + b2);
  }

  /** Every SUBSCRIBE with a non-zero packet id parses back to its id, chain and filters in order. */
  lemma SubscribeRoundTrip(id: u16, c: Chain, fs: seq<Filter>)
    requires id != 0 && WellformedChain(c)
    requires forall f :: f in fs ==> |f.name| < 0x1_0000
    ensures ParseSubscribe(EncodeHeader(SubscribeH(id, c)) + EncodeFilters(fs)) == Some(Listing(id, c, fs))
  {
    hide EncodeHeader, Net16, EncodeChain, EncodeFilters, ParseFilters, ReadId, ReadChain, WellformedChain;
    var b2 := EncodeFilters(fs);
    IdChainShape(SubscribeH(id, c), b2);
    ReadIdRoundTrip(id, EncodeChain(c) + b2);
    ReadChainRoundTrip(map[], c, b2);
    FiltersRoundTrip(fs);
  }

  lemma UnsubscribeRoundTrip(id: u16, c: Chain, ns: seq<Str>)
    requires WellformedChain(c)
    requires forall n :: n in ns ==> |n| < 0x1_0000
    ensures ParseUnsubscribe(EncodeHeader(UnsubscribeH(id, c)) + EncodeNames(ns)) == Some(Listing(id, c, ns))
  {
    hide EncodeHeader, Net16, EncodeChain, EncodeNames, ParseNames, ReadId, ReadChain, WellformedChain;
    var b2 := EncodeNames(ns);
    IdChainShape(UnsubscribeH(id, c), b2);
    ReadIdRoundTrip(id, EncodeChain(c) + b2);
    ReadChainRoundTrip(map[], c, b2);
    NamesRoundTrip(ns);
  }

  lemma ReadNameAt(b: seq<byte>, offset: nat)
    requires offset <= |b|
    ensures ReadName(b[offset..]).Read? <==> offset + 2 <= |b| && offset + 2 + Host16(b[offset..]) <= |b|
    ensures ReadName(b[offset..]).Read? ==>
      var end := offset + 2 + Host16(b[offset..]) as int;
      ReadName(b[offset..]) == Read(b[offset + 2..end], b[end..])
  {
    if ReadName(b[offset..]).Read? {
      var len := Host16(b[offset..]) as int;
      assert b[offset..][2..2 + len] == b[offset + 2..offset + 2 + len];
      assert b[offset..][2 + len..] == b[offset + 2 + len..];
    }
  }

  lemma AfterNothing<T>(done: seq<T>, more: Option<seq<T>>)
    ensures After([], more) == more
    ensures After(done, Some([])) == Some(done)
  {
    assert done + [] == done;
    if more.Some? {
      assert [] + more.value == more.value;
    }
  }

  lemma AfterStep<T>(done: seq<T>, x: T, more: Option<seq<T>>)
    ensures After(done, After([x], more)) == After(done + [x], more)
  {
    if more.Some? {
      assert done + ([x] + more.value) == done + [x] + more.value;
    }
  }

  /** The loop of `HandleMqttSubscribe`, its offset and its measure. */
  method FilterLoop(b: seq<byte>) returns (r: Option<seq<Filter>>)
    ensures r == ParseFilters(b)
  {
    hide ReadName, Host16;
    var offset := 0;
    var filters := [];
    assert b[0..] == b;
    AfterNothing(filters, ParseFilters(b));
    while offset < |b|
      invariant offset <= |b|
      invariant ParseFilters(b) == After(filters, ParseFilters(b[offset..]))
      decreases |b| - offset
    {
      ReadNameAt(b, offset);
      if offset + 2 > |b| { return None; }
      var len := Host16(b[offset..]) as int;
      if offset + 2 + len + 1 > |b| { return None; }
      var name := b[offset + 2..offset + 2 + len];
      var options := b[offset + 2 + len];
      assert b[offset + 2 + len..][1..] == b[offset + 2 + len + 1..];
      AfterStep(filters, Filter(name, options), ParseFilters(b[offset + 2 + len + 1..]));
      filters := filters + [Filter(name, options)];
      offset := offset + 2 + len + 1;
    }
    AfterNothing(filters, None);
    r := Some(filters);
  }

  /** The loop of `HandleMqttUnsubscribe`. */
  method NameLoop(b: seq<byte>) returns (r: Option<seq<Str>>)
    ensures r == ParseNames(b)
  {
    hide ReadName, Host16;
    var offset := 0;
    var names := [];
    assert b[0..] == b;
    AfterNothing(names, ParseNames(b));
    while offset < |b|
      invariant offset <= |b|
      invariant ParseNames(b) == After(names, ParseNames(b[offset..]))
      decreases |b| - offset
    {
      ReadNameAt(b, offset);
      if offset + 2 > |b| { return None; }
      var len := Host16(b[offset..]) as int;
      if offset + 2 + len > |b| { return None; }
      var name := b[offset + 2..offset + 2 + len];
      AfterStep(names, name, ParseNames(b[offset + 2 + len..]));
      names := names + [name];
      offset := offset + 2 + len;
    }
    AfterNothing(names, None);
    r := Some(names);
  }

  // ---------------------------------------------------------------- CONNECT

  /**
    `CreateMqttStringEntity` and `CreateMqttBinaryDataEntity`: nothing for an
    empty string, and the bytes used in a `uint8_t`.
   */
  datatype Short = Short(value: Option<seq<byte>>, used: byte) | ShortOverrun

  function ReadShort(b: seq<byte>): (r: Short)
    ensures r.Short? ==> r.used <= |b|
  {
    if |b| < 2 then ShortOverrun else
    var len := Host16(b) as int;
    if len == 0 then Short(None, 0)
    else if 2 + len > |b| then ShortOverrun
    else Short(Some(b[2..2 + len]), (2 + len) % 0x100)
  }

  /** The client id; a reported size of 0 counts as 2. */
  function ReadClientId(b: seq<byte>): Read<Option<Str>> {
    match ReadShort(b)
    case ShortOverrun => Read.Overrun
    case Short(v, used) => Read(v, b[if used != 0 then used else 2..])
  }

  /**
    A string or binary entity is read in full, but the parser goes on right
    behind it exactly if it has at most 253 bytes: so for a user name and a
    password.
   */
  lemma ShortAdvanceIff(s: seq<byte>, tail: seq<byte>)
    requires 1 <= |s| < 0x1_0000
    ensures var r, b := ReadShort(Prefixed(s) + tail), Prefixed(s) + tail;
      && r.Short? && r.value == Some(s) && (|s| <= 253 ==> r.used == 2 + |s|)
      && (b[r.used..] == tail <==> |s| <= 253)
  {
    hide Prefixed, Host16;
    PrefixedRoundTrip(s, tail);
    assert |s| > 253 ==> (2 + |s|) % 0x100 < 2 + |s|;
  }

  /** The parser continues behind the client id exactly when the id has at most 253 bytes. */
  lemma ClientIdAdvanceIff(id: Str, tail: seq<byte>)
    requires |id| < 0x1_0000
    ensures ReadClientId(Prefixed(id) + tail).Read?
    ensures ReadClientId(Prefixed(id) + tail).value == if id == [] then None else Some(id)
    ensures ReadClientId(Prefixed(id) + tail).rest == tail <==> |id| <= 253
  {
    hide Prefixed, Host16;
    if id == [] {
      PrefixedRoundTrip(id, tail);
      assert (Prefixed(id) + tail)[2 + |id|..] == (Prefixed(id) + tail)[2..];
    } else {
      ShortAdvanceIff(id, tail);
    }
  }

  /** What is read before the client id is known. */
  datatype ConnectFront =
    | Front(flags: byte, alive: u16, props: Chain, id: Option<Str>, rest: seq<byte>)
    | BadVersion
    | BadProperties(flags: byte, alive: u16)
    | FrontOverrun

  datatype BackStatus = BackOk | WillPropertyErr | UserNameErr | AuthFail

  /** What is read after it. */
  datatype ConnectBack =
    | Back(status: BackStatus, willProps: Chain, will: Option<Topic>, user: Option<Str>, pwd: Option<seq<byte>>,
           rest: seq<byte>)
    | BackOverrun

  predicate UserFlag(flags: byte) { flags / 0x80 % 2 == 1 }
  predicate PwdFlag(flags: byte) { flags / 0x40 % 2 == 1 }
  predicate WillFlag(flags: byte) { flags / 4 % 2 == 1 }
  predicate CleanFlag(flags: byte) { flags / 2 % 2 == 1 }
  function WillQoS(flags: byte): byte { flags / 8 % 4 }

  const MQTT: Name := [77, 81, 84, 84]
  const MQTT_VERSION_5: byte := 5

  function ReadConnectHeader(b: seq<byte>): Read<Header> {
    if |b| < 10 then Read.Overrun
    else Read(ConnectH(Host16(b), b[2..6], b[6], b[7], Host16(b[8..])), b[10..])
  }

  /** The first half of `HandleMqttConnect`, on a client whose connection properties are `before`. */
  function ParseConnectFront(before: Chain, body: seq<byte>): ConnectFront {
    match ReadConnectHeader(body) case Overrun => FrontOverrun case Read(h, b1) =>
    if h.version != MQTT_VERSION_5 then BadVersion else
    match ReadChain(before, b1) case Overrun => FrontOverrun case Read(c, b2) =>
    if c.0 != Done then BadProperties(h.flags, h.alive) else
    match ReadClientId(b2) case Overrun => FrontOverrun case Read(id, b3) =>
    Front(h.flags, h.alive, c.1, id, b3)
  }

  datatype WillRead = WillRead(status: Status, props: Chain, will: Option<Topic>, rest: seq<byte>) | WillOverrun

  function ParseWill(flags: byte, before: Chain, b: seq<byte>): WillRead {
    if !WillFlag(flags) then WillRead(Done, before, None, b) else
    match ReadChain(before, b) case Overrun => WillOverrun case Read(c, b1) =>
    if c.0 != Done then WillRead(c.0, c.1, None, b1) else
    match ReadName(b1) case Overrun => WillOverrun case Read(name, b2) =>
    match ReadName(b2) case Overrun => WillOverrun case Read(payload, b3) =>
    WillRead(Done, c.1, Some(MakeTopic(WillQoS(flags), 1, name, payload)), b3)
  }

  /** The second half of `HandleMqttConnect`, on a client whose will properties are `before`. */
  function ParseConnectBack(flags: byte, before: Chain, b: seq<byte>): ConnectBack {
    match ParseWill(flags, before, b) case WillOverrun => BackOverrun case WillRead(status, c, will, b1) =>
    if status != Done then Back(WillPropertyErr, c, None, None, None, b1) else
    if !UserFlag(flags) then Back(BackOk, c, will, None, None, b1) else
    match ReadShort(b1) case ShortOverrun => BackOverrun case Short(user, n) =>
    if user.None? then Back(UserNameErr, c, will, None, None, b1) else
    if !PwdFlag(flags) then Back(BackOk, c, will, user, None, b1[n..]) else
    match ReadShort(b1[n..]) case ShortOverrun => BackOverrun case Short(pwd, m) =>
    if pwd.None? then Back(AuthFail, c, will, user, None, b1[n..]) else
    Back(BackOk, c, will, user, pwd, b1[n + m..])
  }

  /** The statements of `HandleMqttConnect` up to the client id, with the client's own chain of properties. */
  method ReadConnectFront(props: PropertyChain, body: seq<byte>) returns (front: ConnectFront)
    modifies props
    ensures front == ParseConnectFront(old(props.properties), body)
    ensures front.Front? ==> props.properties == front.props
  {
    hide CreateChain, Host16;
    if |body| < 10 { return FrontOverrun; }
    var version, flags, alive := body[6], body[7], Host16(body[8..]);
    var offset := 10;
    if version != MQTT_VERSION_5 { return BadVersion; }
    var status, size := props.Create(body[offset..]);
    if status == PastEnd || status == Hang { return FrontOverrun; }
    if status != Done { return BadProperties(flags, alive); }
    assert body[offset..][size..] == body[offset + size..];
    offset := offset + size;
    if offset + 2 > |body| { return FrontOverrun; }
    var len := Host16(body[offset..]) as int;
    if len == 0 {
      assert body[offset..][2..] == body[offset + 2..];
      return Front(flags, alive, props.properties, None, body[offset + 2..]);
    }
    if offset + 2 + len > |body| { return FrontOverrun; }
    var id := body[offset + 2..offset + 2 + len];
    var idLen: byte := (2 + len) % 0x100;
    assert body[offset..][2..2 + len] == id;
    var advance := if idLen != 0 then idLen else 2;
    assert body[offset..][advance..] == body[offset + advance..];
    front := Front(flags, alive, props.properties, Some(id), body[offset + advance..]);
  }

  // ---- the messages a conforming client composes

  datatype WillMessage = WillMessage(props: Chain, topic: Str, payload: seq<byte>)
  datatype ConnectMessage = ConnectMessage(flags: byte, alive: u16, props: Chain, id: Str, will: Option<WillMessage>,
                                           user: Option<Str>, pwd: Option<seq<byte>>)

  function EncodeOption(o: Option<seq<byte>>): seq<byte> {
    if o.Some? then Prefixed(o.value) else []
  }

  function EncodeWill(w: Option<WillMessage>): seq<byte> {
    if w.Some? then EncodeChain(w.value.props) + Prefixed(w.value.topic) + Prefixed(w.value.payload) else []
  }

  /** What follows the client id. */
  function ConnectTail(m: ConnectMessage): seq<byte> {
    EncodeWill(m.will) + EncodeOption(m.user) + EncodeOption(m.pwd)
  }

  function EncodeConnect(m: ConnectMessage): seq<byte> {
    EncodeHeader(ConnectH(4, MQTT, MQTT_VERSION_5, m.flags, m.alive)) + EncodeChain(m.props) + Prefixed(m.id)
    + EncodeWill(m.will) + EncodeOption(m.user) + EncodeOption(m.pwd)
  }

  predicate ShortString(o: Option<seq<byte>>) {
    o.Some? ==> 1 <= |o.value| <= 253
  }

  /** Flags that tell the truth, a password only beside a user name, and strings a `uint8_t` can count. */
  predicate WellformedConnect(m: ConnectMessage) {
    && WellformedChain(m.props) && |m.id| <= 253
    && (WillFlag(m.flags) <==> m.will.Some?)
    && (UserFlag(m.flags) <==> m.user.Some?) && ShortString(m.user)
    && (PwdFlag(m.flags) <==> m.pwd.Some?) && ShortString(m.pwd)
    && (m.pwd.Some? ==> m.user.Some?)
    && WellformedWill(m.will)
  }

  predicate WellformedWill(w: Option<WillMessage>) {
    w.Some? ==> WellformedChain(w.value.props) && |w.value.topic| < 0x1_0000 && |w.value.payload| < 0x1_0000
  }

  function WillTopic(flags: byte, w: Option<WillMessage>): Option<Topic> {
    if w.Some? then Some(MakeTopic(WillQoS(flags), 1, w.value.topic, w.value.payload)) else None
  }

  lemma ShortRoundTrip(s: seq<byte>, rest: seq<byte>)
    requires 1 <= |s| <= 253
    ensures ReadShort(Prefixed(s) + rest) == Short(Some(s), 2 + |s|)
    ensures (Prefixed(s) + rest)[2 + |s|..] == rest
  {
    hide Prefixed, ReadShort;
    ShortAdvanceIff(s, rest);
  }

  lemma ConnectHeaderRoundTrip(flags: byte, alive: u16, rest: seq<byte>)
    ensures ReadConnectHeader(EncodeHeader(ConnectH(4, MQTT, MQTT_VERSION_5, flags, alive)) + rest)
         == Read(ConnectH(4, MQTT, MQTT_VERSION_5, flags, alive), rest)
  {
    hide Net16, Host16;
    ConnectLayout(Net16(4), MQTT, MQTT_VERSION_5, flags, Net16(alive), rest);
    Net16RoundTrip(4, MQTT + [MQTT_VERSION_5, flags] + Net16(alive) + rest);
    Net16RoundTrip(alive, rest);
  }

  lemma ConnectLayout(len: seq<byte>, name: seq<byte>, version: byte, flags: byte, alive: seq<byte>, rest: seq<byte>)
    requires |len| == 2 && |name| == 4 && |alive| == 2
    ensures var b := len + name + [version, flags] + alive + rest;
      && b == len + (name + [version, flags] + alive + rest)
      && b[2..6] == name && b[6] == version && b[7] == flags && b[8..] == alive + rest && b[10..] == rest
  {
  }

  /** The will's properties after CONNECT on a client that had `before`. */
  function WillProps(before: Chain, w: Option<WillMessage>): Chain {
    if w.Some? then Replaced(before, w.value.props) else before
  }

  lemma WillRoundTrip(flags: byte, before: Chain, w: Option<WillMessage>, rest: seq<byte>)
    requires WillFlag(flags) <==> w.Some?
    requires WellformedWill(w)
    ensures ParseWill(flags, before, EncodeWill(w) + rest)
         == WillRead(Done, WillProps(before, w), WillTopic(flags, w), rest)
  {
    hide EncodeChain, Prefixed, ReadChain, ReadName, WellformedChain;
    if w.Some? {
      var b2 := Prefixed(w.value.payload) + rest;
      var b1 := Prefixed(w.value.topic) + b2;
      assert EncodeWill(w) + rest == EncodeChain(w.value.props) + b1;
      ReadChainRoundTrip(before, w.value.props, b1);
      ReadNameRoundTrip(w.value.topic, b2);
      ReadNameRoundTrip(w.value.payload, rest);
    } else {
      assert EncodeWill(w) + rest == rest;
    }
  }

  lemma BackRoundTrip(before: Chain, m: ConnectMessage)
    requires WellformedConnect(m)
    ensures ParseConnectBack(m.flags, before, ConnectTail(m))
         == Back(BackOk, WillProps(before, m.will), WillTopic(m.flags, m.will), m.user, m.pwd, [])
  {
    hide EncodeWill, ParseWill, Prefixed, ReadShort, WellformedChain, WillFlag, UserFlag, PwdFlag, WillTopic;
    var p := EncodeOption(m.pwd);
    var b1 := EncodeOption(m.user) + p;
    assert EncodeWill(m.will) + EncodeOption(m.user) + p == EncodeWill(m.will) + b1;
    WillRoundTrip(m.flags, before, m.will, b1);
    if m.user.Some? {
      ShortRoundTrip(m.user.value, p);
      if m.pwd.Some? {
        ShortRoundTrip(m.pwd.value, []);
        assert p + [] == p;
        assert b1[2 + |m.user.value| + (2 + |m.pwd.value|)..] == [];
      }
    } else {
      assert b1 == [];
    }
  }

  lemma ConnectShape(m: ConnectMessage)
    ensures EncodeConnect(m)
         == EncodeHeader(ConnectH(4, MQTT, MQTT_VERSION_5, m.flags, m.alive))
          + (EncodeChain(m.props) + (Prefixed(m.id) + ConnectTail(m)))
  {
    hide EncodeHeader, EncodeWill, EncodeOption, EncodeChain, Prefixed;
    var h, e := EncodeHeader(ConnectH(4, MQTT, MQTT_VERSION_5, m.flags, m.alive)), EncodeChain(m.props);
    var i, w, u, p := Prefixed(m.id), EncodeWill(m.will), EncodeOption(m.user), EncodeOption(m.pwd);
    assert h + e + i + w + u + p == h + (e + (i + (w + u + p)));
  }

  /**
    On any client, with any properties left from an earlier CONNECT, the parser
    recovers every field a conforming client composes, and ends on the last
    byte; only an empty list of properties leaves the former ones.
   */
  lemma ConnectRoundTrip(props: Chain, willProps: Chain, m: ConnectMessage)
    requires WellformedConnect(m)
    ensures var front := ParseConnectFront(props, EncodeConnect(m));
      && front == Front(m.flags, m.alive, Replaced(props, m.props), if m.id == [] then None else Some(m.id),
                        ConnectTail(m))
      && (front.props == m.props <==> m.props != map[] || props == map[])
    ensures var back := ParseConnectBack(m.flags, willProps, ConnectTail(m));
      && back == Back(BackOk, WillProps(willProps, m.will), WillTopic(m.flags, m.will), m.user, m.pwd, [])
      && (m.will.Some? ==>
            (back.willProps == m.will.value.props <==> m.will.value.props != map[] || willProps == map[]))
  {
    hide EncodeHeader, EncodeConnect, ConnectTail, EncodeChain, Prefixed, ReadConnectHeader, ReadChain, ReadClientId,
      ParseConnectBack, WellformedChain, WillFlag, UserFlag, PwdFlag, WillTopic, ShortString, WellformedWill;
    var b2 := Prefixed(m.id) + ConnectTail(m);
    ConnectShape(m);
    ConnectHeaderRoundTrip(m.flags, m.alive, EncodeChain(m.props) + b2);
    ReadChainRoundTrip(props, m.props, b2);
    ClientIdAdvanceIff(m.id, ConnectTail(m));
    BackRoundTrip(willProps, m);
  }
}

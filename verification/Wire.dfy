/**
  The formats byte by byte: what the parsers make of literal bytes, and what
  literal bytes the serializers write, as the sections of MQTT 5.0 lay them out.
 */
module Wire {
  import opened Bytes
  import opened Topics
  import opened Properties
  import opened Headers
  import opened Packets
  import opened Parsers
  import V = VarInt

  // ---------------------------------------------------------------- data representation

  /** Section 1.5.2 and 1.5.3: most significant byte first. */
  lemma NetworkOrder(a: byte, b: byte, c: byte, d: byte, rest: seq<byte>)
    ensures Net16(0x100 * a + b) == [a, b] && Host16([a, b] + rest) == 0x100 * a + b
    ensures Net32(0x100_0000 * a + 0x1_0000 * b + 0x100 * c + d) == [a, b, c, d]
    ensures Host32([a, b, c, d] + rest) == 0x100_0000 * a + 0x1_0000 * b + 0x100 * c + d
  {
    hide Net32, Host32, Net16, Host16;
    var hi, lo: u16 := 0x100 * a + b, 0x100 * c + d;
    TwoBytes(a, b);
    TwoBytes(c, d);
    var w: u32 := 0x1_0000 * hi + lo;
    assert w / 0x1_0000 == hi && w % 0x1_0000 == lo;
    assert Net32(w) == Net16(hi) + Net16(lo) by { NetHalves(w); }
    assert [a, b] + [c, d] == [a, b, c, d];
    Net32RoundTrip(w, rest);
    Net16RoundTrip(hi, rest);
  }

  lemma TwoBytes(a: byte, b: byte)
    ensures Net16(0x100 * a + b) == [a, b]
  {
  }

  lemma NetHalves(w: u32)
    ensures Net32(w) == Net16(w / 0x1_0000) + Net16(w % 0x1_0000)
  {
  }

  /** Section 1.5.5: one to four bytes, the seven low bits of each, least significant first. */
  lemma VariableBytes(a: byte, b: byte, c: byte, d: byte, rest: seq<byte>)
    ensures a < 0x80 ==> V.Decode([a] + rest) == V.Ok(a, 1)
    ensures a >= 0x80 > b ==> V.Decode([a, b] + rest) == V.Ok(a - 0x80 + 0x80 * b, 2)
    ensures a >= 0x80 && b >= 0x80 > c ==>
      V.Decode([a, b, c] + rest) == V.Ok(a - 0x80 + 0x80 * (b - 0x80) + 0x4000 * c, 3)
    ensures a >= 0x80 && b >= 0x80 && c >= 0x80 > d ==>
      V.Decode([a, b, c, d] + rest) == V.Ok(a - 0x80 + 0x80 * (b - 0x80) + 0x4000 * (c - 0x80) + 0x20_0000 * d, 4)
    ensures a >= 0x80 && b >= 0x80 && c >= 0x80 && d >= 0x80 && rest != [] ==>
      V.Decode([a, b, c, d] + rest) == V.VarIntErr
  {
    hide V.Decode, V.Value;
    ValuesAre(a, b, c, d);
    if a < 0x80 {
      DecodeGroup([a], rest);
    } else if b < 0x80 {
      DecodeGroup([a, b], rest);
    } else if c < 0x80 {
      DecodeGroup([a, b, c], rest);
    } else if d < 0x80 {
      DecodeGroup([a, b, c, d], rest);
    } else if rest != [] {
      AllContinued([a, b, c, d] + rest);
    }
  }

  lemma DecodeGroup(g: seq<byte>, rest: seq<byte>)
    requires 1 <= |g| <= 4 && (forall i :: 0 <= i < |g| - 1 ==> g[i] >= 0x80) && g[|g| - 1] < 0x80
    ensures 0 <= V.Value(g) < TWO_TO_THE_32 && V.Decode(g + rest) == V.Ok(V.Value(g), |g|)
  {
    hide V.Continued, V.Value;
    var b := g + rest;
    forall i | 0 <= i < |g| ensures b[i] == g[i] {}
    V.ContinuedUnique(b, |g| - 1);
    V.ValueBound(g);
    assert b[..|g|] == g;
  }

  lemma AllContinued(b: seq<byte>)
    requires |b| > 4 && b[0] >= 0x80 && b[1] >= 0x80 && b[2] >= 0x80 && b[3] >= 0x80
    ensures V.Decode(b) == V.VarIntErr
  {
    if V.Continued(b) < 4 { assert false; }
  }

  lemma ValuesAre(a: byte, b: byte, c: byte, d: byte)
    ensures V.Value([a]) == a % 0x80
    ensures V.Value([a, b]) == a % 0x80 + 0x80 * (b % 0x80)
    ensures V.Value([a, b, c]) == a % 0x80 + 0x80 * (b % 0x80) + 0x4000 * (c % 0x80)
    ensures V.Value([a, b, c, d]) == a % 0x80 + 0x80 * (b % 0x80) + 0x4000 * (c % 0x80) + 0x20_0000 * (d % 0x80)
  {
    ValueCons(a, []);
    ValueCons(b, []);
    ValueCons(c, []);
    ValueCons(d, []);
    ValueCons(a, [b]);
    ValueCons(b, [c]);
    ValueCons(c, [d]);
    ValueCons(a, [b, c]);
    ValueCons(b, [c, d]);
    ValueCons(a, [b, c, d]);
    assert [a] + [] == [a] && [b] + [] == [b] && [c] + [] == [c] && [d] + [] == [d];
    assert [a] + [b] == [a, b] && [b] + [c] == [b, c] && [c] + [d] == [c, d];
    assert [a] + [b, c] == [a, b, c] && [b] + [c, d] == [b, c, d] && [a] + [b, c, d] == [a, b, c, d];
  }

  lemma ValueCons(a: byte, b: seq<byte>)
    ensures V.Value([]) == 0 && V.Value([a] + b) == a % 0x80 + 0x80 * V.Value(b)
  {
    assert ([a] + b)[1..] == b;
  }

  // ---------------------------------------------------------------- properties

  /** Section 2.2.2.2: the type of every property, by its identifier; no other identifier is known. */
  lemma PropertyTable(id: byte, x: byte, a: byte, b: byte, c: byte, d: byte, s: seq<byte>, t: seq<byte>, n: u32,
                      rest: seq<byte>)
    requires |s| == 0x100 * a + b && |t| == 0x100 * c + d && n < TWO_TO_THE_28
    ensures id in {0x01, 0x17, 0x19, 0x24, 0x25, 0x28, 0x29, 0x2A} ==>
      ParseProperty([id, x] + rest) == Parsed(Property(id, ByteE(x)), 2)
    ensures id in {0x13, 0x21, 0x22, 0x23} ==>
      ParseProperty([id, a, b] + rest) == Parsed(Property(id, TwoByteE(0x100 * a + b)), 3)
    ensures id in {0x02, 0x11, 0x18, 0x27} ==>
      ParseProperty([id, a, b, c, d] + rest)
      == Parsed(Property(id, FourByteE(0x100_0000 * a + 0x1_0000 * b + 0x100 * c + d)), 5)
    ensures id in {0x03, 0x08, 0x12, 0x15, 0x1A, 0x1C, 0x1F} ==>
      ParseProperty([id, a, b] + s + rest) == Parsed(Property(id, StringE(s)), (3 + |s|) % 0x100)
    ensures id in {0x09, 0x16} ==>
      ParseProperty([id, a, b] + s + rest) == Parsed(Property(id, BinaryE(s)), (3 + |s|) % 0x100)
    ensures id == 0x26 ==>
      ParseProperty([id, a, b] + s + [c, d] + t + rest) == Parsed(Property(id, PairE(s, t)), (5 + |s| + |t|) % 0x100)
    ensures id == 0x0B ==>
      && |V.Code(n)| <= 4
      && ParseProperty([id] + V.Code(n) + rest) == Parsed(Property(id, VIntE(n)), 1 + |V.Code(n)|)
    ensures id !in {0x01, 0x17, 0x19, 0x24, 0x25, 0x28, 0x29, 0x2A, 0x13, 0x21, 0x22, 0x23, 0x02, 0x11, 0x18, 0x27,
                    0x03, 0x08, 0x12, 0x15, 0x1A, 0x1C, 0x1F, 0x09, 0x16, 0x26, 0x0B}
            ==> ParseProperty([id] + rest) == Null
  {
    hide ParseProperty, EncodeProperty, ParseEntity, V.Code, Wellformed;
    var kind := KindOf(id);
    if kind == KUnknown {
      UnknownProperty(id, rest);
    } else {
      PropertyBytes(id, x, a, b, c, d, s, t, n);
      var e := match kind
        case KByte => ByteE(x)
        case KTwoByte => TwoByteE(0x100 * a + b)
        case KFourByte => FourByteE(0x100_0000 * a + 0x1_0000 * b + 0x100 * c + d)
        case KString => StringE(s)
        case KBinary => BinaryE(s)
        case KPair => PairE(s, t)
        case _ => VIntE(n);
      ParsePropertyRoundTrip(Property(id, e), rest);
      if kind == KVInt { V.CodeLength(n, 4); V.Powers(); }
    }
  }

  lemma UnknownProperty(id: byte, rest: seq<byte>)
    requires KindOf(id) == KUnknown
    ensures ParseProperty([id] + rest) == Null
  {
    hide KindOf;
    assert ([id] + rest)[1..] == rest;
  }

  /** Every type as it is written. */
  lemma PropertyBytes(id: byte, x: byte, a: byte, b: byte, c: byte, d: byte, s: seq<byte>, t: seq<byte>, n: u32)
    requires |s| == 0x100 * a + b && |t| == 0x100 * c + d
    ensures EncodeProperty(Property(id, ByteE(x))) == [id, x]
    ensures EncodeProperty(Property(id, TwoByteE(0x100 * a + b))) == [id, a, b]
    ensures EncodeProperty(Property(id, FourByteE(0x100_0000 * a + 0x1_0000 * b + 0x100 * c + d))) == [id, a, b, c, d]
    ensures EncodeProperty(Property(id, StringE(s))) == [id, a, b] + s
    ensures EncodeProperty(Property(id, BinaryE(s))) == [id, a, b] + s
    ensures EncodeProperty(Property(id, PairE(s, t))) == [id, a, b] + s + [c, d] + t
    ensures EncodeProperty(Property(id, VIntE(n))) == [id] + V.Code(n)
  {
    hide Net16, Net32, V.Code;
    NetworkOrder(a, b, c, d, []);
    NetworkOrder(c, d, a, b, []);
    assert [id] + [a, b] == [id, a, b] && [id] + [a, b, c, d] == [id, a, b, c, d];
    assert [id] + ([a, b] + s) == [id, a, b] + s;
    assert [id] + (([a, b] + s) + ([c, d] + t)) == [id, a, b] + s + [c, d] + t;
  }

  // ---------------------------------------------------------------- topics

  /** Levels end at `/`, `|` and white space. */
  lemma SeparatorBytes(c: byte)
    ensures Tokens([c]) == (if c in {9, 10, 11, 12, 13, 32, 47, 124} then [] else [[c]])
  {
    assert Tokens([]) == [];
    assert [c][1..] == [];
    TokenLengthIs([c], if Separator(c) then 0 else 1);
    assert [c][..1] == [c];
  }

  /** Of the filters of one byte, `#` takes every topic, `+` every topic of one level, all others that level alone. */
  lemma WildcardBytes(c: byte, topic: Str)
    requires c !in {9, 10, 11, 12, 13, 32, 47, 124}
    ensures LiveMatch([c], topic)
            <==> c == 35 || (c == 43 && |Tokens(topic)| == 1) || topic == [c] || Tokens(topic) == [[c]]
    ensures RetainedMatch([c], topic) <==> c == 35 || (c == 43 && |Tokens(topic)| == 1) || Tokens(topic) == [[c]]
    ensures RetainedMatch([47, 35], topic)
  {
    hide Tokens, Matches, Beyond;
    SeparatorBytes(c);
    OneByteLevel(c, Tokens(topic));
    assert [c] != SLASH_HASH && ([c] == HASH <==> c == 35);
  }

  lemma OneByteLevel(c: byte, t: seq<Str>)
    ensures Matches([[c]], t) <==> t != [] && (c == 35 || (c == 43 && |t| == 1) || t == [[c]])
    ensures Beyond([[c]], t) <==> t == [] && c == 35
  {
    var f: seq<Str> := [[c]];
    assert f[0] == [c] && f[1..] == [] && (f[0] == HASH <==> c == 35) && (f[0] == PLUS <==> c == 43);
    assert Matches([], []) && !PlusesThenHash([]);
    if t != [] {
      assert !Beyond([], t[1..]);
      assert Matches([], t[1..]) <==> |t| == 1;
      assert t == f <==> |t| == 1 && t[0] == [c];
    }
  }

  // ---------------------------------------------------------------- packets

  /** Sections 3.3.2, 3.8.2 and 3.10.2: the variable headers without properties. */
  lemma HeaderBytes(name: Str, a: byte, b: byte, hi: byte, lo: byte)
    requires |name| == 0x100 * a + b
    ensures EncodeHeader(PublishH(name, 0, map[])) == [a, b] + name + [0]
    ensures hi + lo > 0 ==> EncodeHeader(PublishH(name, 0x100 * hi + lo, map[])) == [a, b] + name + [hi, lo, 0]
    ensures hi + lo > 0 ==> EncodeHeader(SubscribeH(0x100 * hi + lo, map[])) == [hi, lo, 0]
    ensures EncodeHeader(UnsubscribeH(0x100 * hi + lo, map[])) == [hi, lo, 0]
  {
    hide Net16, EncodeChain;
    TwoBytes(a, b);
    TwoBytes(hi, lo);
    NoProperties();
    var i, n := [hi, lo], [a, b] + name;
    assert n + [] + [0] == n + [0];
    assert n + i + [0] == n + [hi, lo, 0] && i + [0] == [hi, lo, 0];
  }

  lemma NoProperties()
    ensures EncodeChain(map[]) == [0] && WellformedChain(map[])
  {
    BodyEmpty();
  }

  /** Section 3.3: a PUBLISH without properties; bits 1 and 2 of the first byte tell whether there is a packet id. */
  lemma PublishPacket(first: byte, name: Str, a: byte, b: byte, hi: byte, lo: byte, payload: seq<byte>, stray: Stray)
    requires |name| == 0x100 * a + b && |payload| < 0x1_0000
    ensures first / 2 % 4 == 0 ==>
      ParsePublish(first, [a, b] + name + [0] + payload, stray) == Some(PublishMessage(name, 0, map[], payload))
    ensures first / 2 % 4 != 0 && hi + lo > 0 ==>
      ParsePublish(first, [a, b] + name + [hi, lo, 0] + payload, stray)
      == Some(PublishMessage(name, 0x100 * hi + lo, map[], payload))
  {
    hide ParsePublish, EncodeHeader;
    HeaderBytes(name, a, b, hi, lo);
    NoProperties();
    assert CopyChain(map[], stray) == map[];
    if first / 2 % 4 == 0 {
      PublishBodyRoundTrip(first, name, 0, map[], payload, stray);
    } else if hi + lo > 0 {
      PublishBodyRoundTrip(first, name, 0x100 * hi + lo, map[], payload, stray);
    }
  }

  /** Sections 3.8.3 and 3.10.3: filters, with their options behind each in SUBSCRIBE. */
  lemma FilterBytes(f: Filter, fs: seq<Filter>, ns: seq<Str>, a: byte, b: byte)
    requires |f.name| == 0x100 * a + b
    ensures EncodeFilters([]) == [] && EncodeFilters([f] + fs) == [a, b] + f.name + [f.options] + EncodeFilters(fs)
    ensures EncodeNames([]) == [] && EncodeNames([f.name] + ns) == [a, b] + f.name + EncodeNames(ns)
  {
    hide Net16;
    TwoBytes(a, b);
    assert ([f] + fs)[1..] == fs && ([f.name] + ns)[1..] == ns;
  }

  /** Section 3.8: a SUBSCRIBE of one filter without properties; section 3.10: an UNSUBSCRIBE. */
  lemma SubscribePacket(hi: byte, lo: byte, name: Str, a: byte, b: byte, options: byte)
    requires |name| == 0x100 * a + b
    ensures hi + lo > 0 ==>
      ParseSubscribe([hi, lo, 0, a, b] + name + [options])
      == Some(Listing(0x100 * hi + lo, map[], [Filter(name, options)]))
    ensures ParseUnsubscribe([hi, lo, 0, a, b] + name) == Some(Listing(0x100 * hi + lo, map[], [name]))
  {
    hide ParseSubscribe, ParseUnsubscribe, EncodeHeader, EncodeFilters, EncodeNames;
    var f := Filter(name, options);
    HeaderBytes(name, a, b, hi, lo);
    FilterBytes(f, [], [], a, b);
    NoProperties();
    assert [f] + [] == [f] && [name] + [] == [name];
    if hi + lo > 0 {
      SubscribeRoundTrip(0x100 * hi + lo, map[], [f]);
      assert [hi, lo, 0] + ([a, b] + name + [options] + []) == [hi, lo, 0, a, b] + name + [options];
    }
    UnsubscribeRoundTrip(0x100 * hi + lo, map[], [name]);
    assert [hi, lo, 0] + ([a, b] + name + []) == [hi, lo, 0, a, b] + name;
  }

  // ---------------------------------------------------------------- CONNECT

  /** Section 3.1.2.3: user name, password, will retain, will QoS, will, clean start and reserved, from the top. */
  lemma ConnectFlags(u: nat, p: nat, r: nat, q: nat, w: nat, c: nat, x: nat)
    requires u < 2 && p < 2 && r < 2 && q < 4 && w < 2 && c < 2 && x < 2
    ensures var flags := 0x80 * u + 0x40 * p + 0x20 * r + 8 * q + 4 * w + 2 * c + x;
      && 0 <= flags < 0x100
      && (UserFlag(flags) <==> u == 1) && (PwdFlag(flags) <==> p == 1)
      && WillQoS(flags) == q && (WillFlag(flags) <==> w == 1) && (CleanFlag(flags) <==> c == 1)
  {
    var top := 2 * u + p;
    var middle := 4 * (2 * top + r) + q;
    var flags := 4 * (2 * middle + w) + 2 * c + x;
    assert flags / 2 == 2 * (2 * middle + w) + c && flags / 4 == 2 * middle + w && flags / 8 == middle;
    assert flags / 0x40 == top && flags / 0x80 == u;
  }

  /** Section 3.1: every field of a CONNECT whose property lists are empty. */
  lemma ConnectPacket(m: ConnectMessage)
    requires WellformedConnect(m) && m.props == map[] && (m.will.Some? ==> m.will.value.props == map[])
    ensures EncodeConnect(m)
         == [0, 4, 77, 81, 84, 84, 5, m.flags, m.alive / 0x100, m.alive % 0x100, 0, 0, |m.id|] + m.id
          + (if m.will.None? then [] else
               var t, p := m.will.value.topic, m.will.value.payload;
               [0, |t| / 0x100, |t| % 0x100] + t + [|p| / 0x100, |p| % 0x100] + p)
          + (if m.user.None? then [] else [0, |m.user.value|] + m.user.value)
          + (if m.pwd.None? then [] else [0, |m.pwd.value|] + m.pwd.value)
  {
    hide EncodeChain, EncodeWill, EncodeOption, Prefixed, WellformedChain;
    NoProperties();
    SizedBytes(m.id);
    ShortBytes(m.user);
    ShortBytes(m.pwd);
    WillBytes(m.will);
    var head := [0, 4, 77, 81, 84, 84, 5, m.flags, m.alive / 0x100, m.alive % 0x100];
    assert EncodeHeader(ConnectH(4, MQTT, MQTT_VERSION_5, m.flags, m.alive)) == head by {
      assert Net16(4) + MQTT + [MQTT_VERSION_5, m.flags] + Net16(m.alive) == head;
    }
    assert head + [0] + ([0, |m.id|] + m.id) == head + [0, 0, |m.id|] + m.id;
    assert head + [0, 0, |m.id|]
        == [0, 4, 77, 81, 84, 84, 5, m.flags, m.alive / 0x100, m.alive % 0x100, 0, 0, |m.id|];
  }

  lemma SizedBytes(s: seq<byte>)
    requires |s| < 0x1_0000
    ensures Prefixed(s) == [|s| / 0x100, |s| % 0x100] + s
    ensures |s| < 0x100 ==> Prefixed(s) == [0, |s|] + s
  {
  }

  lemma ShortBytes(o: Option<seq<byte>>)
    requires ShortString(o)
    ensures EncodeOption(o) == if o.None? then [] else [0, |o.value|] + o.value
  {
    hide Prefixed;
    if o.Some? { SizedBytes(o.value); }
  }

  lemma WillBytes(w: Option<WillMessage>)
    requires WellformedWill(w) && (w.Some? ==> w.value.props == map[])
    ensures EncodeWill(w)
         == if w.None? then [] else
              var t, p := w.value.topic, w.value.payload;
              [0, |t| / 0x100, |t| % 0x100] + t + [|p| / 0x100, |p| % 0x100] + p
  {
    hide Prefixed, EncodeChain;
    if w.Some? {
      var t, p := w.value.topic, w.value.payload;
      NoProperties();
      SizedBytes(t);
      SizedBytes(p);
      assert [0] + ([|t| / 0x100, |t| % 0x100] + t) == [0, |t| / 0x100, |t| % 0x100] + t;
      assert [0, |t| / 0x100, |t| % 0x100] + t + ([|p| / 0x100, |p| % 0x100] + p)
          == [0, |t| / 0x100, |t| % 0x100] + t + [|p| / 0x100, |p| % 0x100] + p;
    }
  }

  /** The version decides first, and is all of the first seven bytes that is looked at. */
  lemma VersionDecides(before: Chain, body: seq<byte>)
    requires |body| >= 10
    ensures ParseConnectFront(before, body) == BadVersion <==> body[6] != 5
  {
    hide ReadChain, ReadClientId, Host16;
  }

  /** A user name or password that the flags announce may not be empty; without a user name no password is read. */
  lemma Credentials(flags: byte, before: Chain, user: Str, rest: seq<byte>)
    requires !WillFlag(flags) && 1 <= |user| <= 253
    ensures flags / 0x80 % 2 == 0 ==>
      ParseConnectBack(flags, before, rest) == Back(BackOk, before, None, None, None, rest)
    ensures flags / 0x80 % 2 == 1 ==>
      && ParseConnectBack(flags, before, [0, 0] + rest)
         == Back(UserNameErr, before, None, None, None, [0, 0] + rest)
      && ParseConnectBack(flags, before, [0, |user|] + user + ([0, 0] + rest))
         == Back(if flags / 0x40 % 2 == 1 then AuthFail else BackOk, before, None, Some(user), None, [0, 0] + rest)
  {
    hide ReadShort, Prefixed;
    assert ReadShort([0, 0] + rest) == Short(None, 0) by { Nothing(rest); }
    SizedBytes(user);
    ShortRoundTrip(user, [0, 0] + rest);
  }

  lemma Nothing(rest: seq<byte>)
    ensures ReadShort([0, 0] + rest) == Short(None, 0)
  {
    NetworkOrder(0, 0, 0, 0, rest);
  }
}

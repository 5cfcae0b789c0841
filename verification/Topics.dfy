/**
  Topic names, topic filters and the two wildcard matchers: the one used for
  live delivery (`Client::checkWildCards`) and the one used for retained
  messages (`CTopicStorage::GetMatchedTopics`).

  Neither loop of the source bounds its index into the shorter token list.
  Such a read is taken to yield a token different from every other one.
 */
module Topics {
  import opened Bytes

  type Str = seq<byte>

  const HASH: Str := [35]
  const PLUS: Str := [43]
  const SLASH: byte := 47
  const SLASH_HASH: Str := [47, 35]

  /** `MqttTopic`: a message on its way, with the QoS and packet id it currently carries. */
  datatype Topic = Topic(qos: byte, id: u16, name: Str, payload: seq<byte>)

  /** Its constructor turns an invalid QoS into 0. */
  function MakeTopic(qos: byte, id: u16, name: Str, payload: seq<byte>): Topic {
    Topic(if qos > 2 then 0 else qos, id, name, payload)
  }

  // ---------------------------------------------------------------- tokens

  /** The regular expression class `[\s|\/]`: white space, `|` and `/`. */
  predicate Separator(c: byte) {
    c == 124 || c == SLASH || c == 32 || 9 <= c <= 13
  }

  /** The length of the run of token characters at the front. */
  function TokenLength(s: Str): (n: nat)
    ensures n <= |s|
    ensures forall i :: 0 <= i < n ==> !Separator(s[i])
    ensures n < |s| ==> Separator(s[n])
  {
    if s == [] || Separator(s[0]) then 0 else 1 + TokenLength(s[1..])
  }

  /** The non-empty pieces between runs of separators. */
  function Tokens(s: Str): seq<Str>
    decreases |s|
  {
    if s == [] then []
    else if Separator(s[0]) then Tokens(s[1..])
    else [s[..TokenLength(s)]] + Tokens(s[TokenLength(s)..])
  }

  predicate WellFormedToken(t: Str) {
    t != [] && forall i :: 0 <= i < |t| ==> !Separator(t[i])
  }

  function Join(ts: seq<Str>): Str {
    if ts == [] then [] else if |ts| == 1 then ts[0] else ts[0] + [SLASH] + Join(ts[1..])
  }

  lemma {:induction false} TokenLengthIs(s: Str, n: nat)
    requires n <= |s|
    requires forall i :: 0 <= i < n ==> !Separator(s[i])
    requires n < |s| ==> Separator(s[n])
    ensures TokenLength(s) == n
  {
  }

  lemma {:induction false} TokensWellFormed(s: Str)
    ensures forall t :: t in Tokens(s) ==> WellFormedToken(t)
    decreases |s|
  {
    if s != [] {
      if Separator(s[0]) {
        TokensWellFormed(s[1..]);
      } else {
        TokensWellFormed(s[TokenLength(s)..]);
      }
    }
  }

  /** Tokenizing inverts joining with slashes, on every list of well-formed tokens. */
  lemma {:induction false} TokensOfJoin(ts: seq<Str>)
    requires forall t :: t in ts ==> WellFormedToken(t)
    ensures Tokens(Join(ts)) == ts
  {
    if ts != [] {
      var s, t := Join(ts), ts[0];
      assert WellFormedToken(t);
      assert t <= s && s[..|t|] == t && s[0] == t[0];
      TokenLengthIs(s, |t|);
      if |ts| == 1 {
        assert Tokens(s[|t|..]) == [];
      } else {
        assert s[|t|..] == [SLASH] + Join(ts[1..]);
        assert s[|t|..][1..] == Join(ts[1..]);
        TokensOfJoin(ts[1..]);
      }
      assert ts == [t] + ts[1..];
    }
  }

  /** `tokenize`. */
  method Tokenize(s: Str) returns (ts: seq<Str>)
    ensures ts == Tokens(s)
  {
    ts := [];
    var rest := s;
    while rest != []
      invariant ts + Tokens(rest) == Tokens(s)
      decreases |rest|
    {
      var n := TokenLength(rest);
      if n != 0 {
        ts := ts + [rest[..n]];
        rest := rest[n..];
      } else {
        rest := rest[1..];
      }
    }
  }

  // -------------------------------------------------------- level relations

  /**
    Level-by-level matching where `#` stands for one or more remaining levels,
    wherever it occurs.
   */
  predicate Matches(f: seq<Str>, t: seq<Str>) {
    if f == [] then t == []
    else t != [] && (f[0] == HASH || ((f[0] == PLUS || f[0] == t[0]) && Matches(f[1..], t[1..])))
  }

  /** Zero or more `+`, then `#`, then anything. */
  predicate PlusesThenHash(f: seq<Str>) {
    f != [] && (f[0] == HASH || (f[0] == PLUS && PlusesThenHash(f[1..])))
  }

  /** The filter matches every level of the topic without `#` and then goes on with pluses and a hash. */
  predicate Beyond(f: seq<Str>, t: seq<Str>) {
    if t == [] then PlusesThenHash(f)
    else f != [] && f[0] != HASH && (f[0] == PLUS || f[0] == t[0]) && Beyond(f[1..], t[1..])
  }

  /** Section 4.7.1 of MQTT 5.0: a final `#` matches the parent level and everything below it. */
  predicate Standard(f: seq<Str>, t: seq<Str>) {
    if f == [HASH] then true
    else if f == [] then t == []
    else t != [] && (f[0] == PLUS || f[0] == t[0]) && Standard(f[1..], t[1..])
  }

  /** What delivering a live message asks. */
  predicate LiveMatch(filter: Str, topic: Str) {
    || filter == HASH
    || filter == topic
    || (Tokens(topic) != [] && Matches(Tokens(filter), Tokens(topic)))
  }

  predicate RetainedLevels(f: seq<Str>, t: seq<Str>) {
    (t != [] && Matches(f, t)) || Beyond(f, t)
  }

  /** What looking up retained messages asks. */
  predicate RetainedMatch(filter: Str, topic: Str) {
    filter == HASH || filter == SLASH_HASH || RetainedLevels(Tokens(filter), Tokens(topic))
  }

  lemma {:induction false} MatchesItself(t: seq<Str>)
    ensures Matches(t, t)
  {
    if t != [] {
      MatchesItself(t[1..]);
    }
  }

  lemma {:induction false} BeyondExcludesMatches(f: seq<Str>, t: seq<Str>)
    requires Beyond(f, t)
    ensures |f| > |t| && !Matches(f, t)
  {
    if t != [] {
      BeyondExcludesMatches(f[1..], t[1..]);
    }
  }

  lemma WildcardTokens()
    ensures Tokens(HASH) == [HASH] && Tokens(SLASH_HASH) == [HASH]
  {
    assert HASH[..1] == HASH && HASH[1..] == [];
    TokenLengthIs(HASH, 1);
    assert SLASH_HASH[1..] == HASH;
  }

  /** On a topic with at least one level the live shortcuts add nothing to the level relation. */
  lemma LiveIsMatches(filter: Str, topic: Str)
    requires Tokens(topic) != []
    ensures LiveMatch(filter, topic) <==> Matches(Tokens(filter), Tokens(topic))
  {
    WildcardTokens();
    MatchesItself(Tokens(topic));
  }

  /**
    On every topic with at least one level, the retained matcher accepts
    whatever the live one does, and they differ exactly on the filters that
    match all levels and go on with pluses and a hash.
   */
  lemma RetainedVersusLive(filter: Str, topic: Str)
    requires Tokens(topic) != []
    ensures LiveMatch(filter, topic) ==> RetainedMatch(filter, topic)
    ensures RetainedMatch(filter, topic) && !LiveMatch(filter, topic) <==> Beyond(Tokens(filter), Tokens(topic))
  {
    WildcardTokens();
    LiveIsMatches(filter, topic);
    if Beyond(Tokens(filter), Tokens(topic)) {
      BeyondExcludesMatches(Tokens(filter), Tokens(topic));
    }
  }

  /** The remaining topics, those without a level such as "/" or the empty name. */
  lemma MatchersOnEmptyTopic(filter: Str, topic: Str)
    requires Tokens(topic) == []
    ensures LiveMatch(filter, topic) <==> filter == HASH || filter == topic
    ensures RetainedMatch(filter, topic) <==> PlusesThenHash(Tokens(filter))
  {
    WildcardTokens();
  }

  /** `#` occurs only as the last level, as the standard demands of a filter. */
  predicate HashOnlyLast(f: seq<Str>) {
    forall i :: 0 <= i < |f| - 1 ==> f[i] != HASH
  }

  /** A filter whose levels before a final `#` are exactly those of the topic. */
  predicate ParentOnly(f: seq<Str>, t: seq<Str>) {
    |f| == |t| + 1 && Beyond(f, t) && f[|t|] == HASH
  }

  /**
    Both matchers against the standard, for filters it allows and topics whose
    levels are not themselves wildcards: live delivery misses exactly the
    parent level of a `#`; the retained lookup adds exactly the filters that
    put at least one `+` between the topic's last level and the `#`.
   */
  lemma {:induction false} MatchersVersusStandard(f: seq<Str>, t: seq<Str>)
    requires HashOnlyLast(f)
    requires HASH !in t
    ensures Matches(f, t) <==> Standard(f, t) && !ParentOnly(f, t)
    ensures Beyond(f, t) ==> (Standard(f, t) <==> ParentOnly(f, t))
  {
    if f == [] || t == [] {
      if t == [] && Beyond(f, t) {
        PlusesThenHashLast(f);
      }
    } else if f[0] == HASH {
      assert f == [HASH];
    } else {
      assert HashOnlyLast(f[1..]);
      MatchersVersusStandard(f[1..], t[1..]);
      if |f| == |t| + 1 {
        assert f[|t|] == f[1..][|t| - 1];
      }
    }
  }

  lemma {:induction false} PlusesThenHashLast(f: seq<Str>)
    requires HashOnlyLast(f) && PlusesThenHash(f)
    ensures |f| == 1 ==> f == [HASH]
    ensures |f| > 1 ==> f[0] == PLUS
  {
  }

  // ---------------------------------------------------------------- names as the standard reads them

  function LevelLength(s: Str): (n: nat)
    ensures n <= |s| && SLASH !in s[..n]
    ensures n < |s| ==> s[n] == SLASH
  {
    if s == [] || s[0] == SLASH then 0 else 1 + LevelLength(s[1..])
  }

  /** The levels of section 4.7.1: the pieces between slashes, empty ones included. */
  function Levels(s: Str): (ls: seq<Str>)
    ensures |ls| >= 1
    decreases |s|
  {
    var n := LevelLength(s);
    if n == |s| then [s] else [s[..n]] + Levels(s[n + 1..])
  }

  /** Every level is non-empty, and free of white space and bars. */
  predicate Plain(s: Str) {
    forall l :: l in Levels(s) ==> WellFormedToken(l)
  }

  /** Section 4.7.1 on names. */
  predicate StandardMatch(filter: Str, topic: Str) {
    Standard(Levels(filter), Levels(topic))
  }

  lemma JoinCons(l: Str, ls: seq<Str>)
    requires ls != []
    ensures Join([l] + ls) == l + [SLASH] + Join(ls)
  {
    assert ([l] + ls)[1..] == ls;
  }

  lemma {:induction false} JoinOfLevels(s: Str)
    ensures Join(Levels(s)) == s
    decreases |s|
  {
    hide Join;
    var n := LevelLength(s);
    if n < |s| {
      JoinOfLevels(s[n + 1..]);
      JoinCons(s[..n], Levels(s[n + 1..]));
      assert s == s[..n] + [SLASH] + s[n + 1..];
    } else {
      JoinOne(s);
    }
  }

  lemma JoinOne(l: Str)
    ensures Join([l]) == l
  {
  }

  lemma {:induction false} LevelLengthIs(s: Str, n: nat)
    requires n <= |s| && SLASH !in s[..n] && (n < |s| ==> s[n] == SLASH)
    ensures LevelLength(s) == n
  {
    if n > 0 {
      assert s[0] in s[..n];
      assert s[1..][..n - 1] == s[..n][1..];
      LevelLengthIs(s[1..], n - 1);
    }
  }

  lemma {:induction false} LevelsOfJoin(ts: seq<Str>)
    requires ts != [] && forall t :: t in ts ==> WellFormedToken(t)
    ensures Levels(Join(ts)) == ts
  {
    var s, t := Join(ts), ts[0];
    assert t in ts;
    assert t <= s && s[..|t|] == t;
    LevelLengthIs(s, |t|);
    if |ts| > 1 {
      assert s[|t| + 1..] == Join(ts[1..]);
      LevelsOfJoin(ts[1..]);
    }
  }

  /** The tokens of a name are its levels exactly if the name is plain. */
  lemma PlainIff(s: Str)
    ensures Plain(s) <==> Tokens(s) == Levels(s)
  {
    if Plain(s) {
      JoinOfLevels(s);
      TokensOfJoin(Levels(s));
    }
    TokensWellFormed(s);
  }

  /**
    Both matchers against section 4.7.1, on plain filters the section allows
    and plain topics: live delivery misses exactly the parent level of a final
    `#`; the retained lookup adds exactly the filters beyond the topic.
   */
  lemma MatchersVersusSection(filter: Str, topic: Str)
    requires Plain(filter) && Plain(topic)
    requires HashOnlyLast(Levels(filter)) && HASH !in Levels(topic)
    ensures LiveMatch(filter, topic) <==> StandardMatch(filter, topic) && !ParentOnly(Levels(filter), Levels(topic))
    ensures RetainedMatch(filter, topic) <==> StandardMatch(filter, topic) || Beyond(Levels(filter), Levels(topic))
  {
    hide Matches, Standard, Beyond, Tokens, ParentOnly, HashOnlyLast;
    PlainIff(filter);
    PlainIff(topic);
    LiveIsMatches(filter, topic);
    MatchersVersusStandard(Levels(filter), Levels(topic));
    ShortcutsArePlain(filter, topic);
    ParentIsBeyond(Levels(filter), Levels(topic));
  }

  lemma ParentIsBeyond(f: seq<Str>, t: seq<Str>)
    ensures ParentOnly(f, t) ==> Beyond(f, t)
  {
  }

  lemma ShortcutsArePlain(filter: Str, topic: Str)
    requires Plain(filter) && Plain(topic)
    ensures filter != SLASH_HASH && (filter == HASH ==> Matches(Tokens(filter), Tokens(topic)))
  {
    WildcardTokens();
    PlainIff(topic);
    assert LevelLength(SLASH_HASH) == 0;
    assert Levels(SLASH_HASH)[0] == [] && [] in Levels(SLASH_HASH);
  }

  // ---- names that are not plain

  /** The topic names the section allows: no `#` and no `+`. */
  predicate NoWildcards(s: Str) {
    forall i :: 0 <= i < |s| ==> s[i] != HASH[0] && s[i] != PLUS[0]
  }

  /** Agreement of live delivery with section 4.7.1 but for the parent level. */
  predicate LiveAgrees(filter: Str, topic: Str) {
    LiveMatch(filter, topic) <==> StandardMatch(filter, topic) && !ParentOnly(Levels(filter), Levels(topic))
  }

  /** Agreement of the retained lookup with it but for the filters beyond the topic. */
  predicate RetainedAgrees(filter: Str, topic: Str) {
    RetainedMatch(filter, topic) <==> StandardMatch(filter, topic) || Beyond(Levels(filter), Levels(topic))
  }

  predicate Proper(filter: Str) {
    Plain(filter) && HashOnlyLast(Levels(filter))
  }

  lemma {:induction false} TokensFrom(s: Str)
    ensures forall t, i :: t in Tokens(s) && 0 <= i < |t| ==> t[i] in s
    decreases |s|
  {
    if s != [] {
      if Separator(s[0]) {
        TokensFrom(s[1..]);
      } else {
        TokensFrom(s[TokenLength(s)..]);
      }
    }
  }

  lemma {:induction false} StandardWithoutWildcards(f: seq<Str>, t: seq<Str>)
    requires forall l :: l in f ==> l != HASH && l != PLUS
    ensures Standard(f, t) <==> f == t
  {
    if f != [] && t != [] {
      assert f[0] in f && forall l :: l in f[1..] ==> l in f;
      StandardWithoutWildcards(f[1..], t[1..]);
      assert f == [f[0]] + f[1..] && t == [t[0]] + t[1..];
    } else if f != [] {
      assert f[0] in f;
    }
  }

  function Pluses(n: nat): seq<Str> {
    if n == 0 then [] else [PLUS] + Pluses(n - 1)
  }

  lemma {:induction false} PlusesMatch(t: seq<Str>)
    ensures Standard(Pluses(|t|), t) && |Pluses(|t|)| == |t|
    ensures forall l :: l in Pluses(|t|) ==> l == PLUS && WellFormedToken(l) && l != HASH
  {
    if t != [] {
      PlusesMatch(t[1..]);
      assert Pluses(|t|)[1..] == Pluses(|t| - 1);
    }
  }

  /** A topic without a level: a filter of as many `+` as it has empty levels fails. */
  lemma DisagreesWithoutTokens(topic: Str) returns (filter: Str)
    requires Tokens(topic) == []
    ensures Proper(filter) && !LiveAgrees(filter, topic) && !RetainedAgrees(filter, topic)
  {
    hide Standard, LiveMatch, RetainedMatch, Beyond, PlusesThenHash, Tokens, Levels, Join, ParentOnly;
    var f := Pluses(|Levels(topic)|);
    PlusesMatch(Levels(topic));
    filter := Join(f);
    ProperJoin(f);
    WildcardTokens();
    assert f[0] == PLUS;
    MatchersOnEmptyTopic(filter, topic);
    SameLength(f, Levels(topic));
    NoHashNotBeyond(f, Levels(topic));
  }

  lemma {:induction false} NoHashNotBeyond(f: seq<Str>, t: seq<Str>)
    requires HASH !in f
    ensures !Beyond(f, t) && !PlusesThenHash(f)
  {
    if f != [] {
      assert f[0] in f;
      NoHashNotBeyond(f[1..], if t == [] then [] else t[1..]);
    }
  }

  lemma ProperJoin(f: seq<Str>)
    requires f != [] && forall l :: l in f ==> WellFormedToken(l) && l != HASH
    ensures Proper(Join(f)) && Levels(Join(f)) == f && Tokens(Join(f)) == f
  {
    hide Join, Tokens, Levels, WellFormedToken;
    assert forall i :: 0 <= i < |f| ==> f[i] in f;
    LevelsOfJoin(f);
    TokensOfJoin(f);
  }

  lemma SameLength(f: seq<Str>, t: seq<Str>)
    requires |f| == |t|
    ensures !ParentOnly(f, t)
  {
  }

  lemma TokensAreNoWildcards(s: Str)
    requires NoWildcards(s)
    ensures forall l :: l in Tokens(s) ==> WellFormedToken(l) && l != HASH && l != PLUS
  {
    TokensWellFormed(s);
    TokensFrom(s);
    forall l | l in Tokens(s) ensures l != HASH && l != PLUS {
      assert WellFormedToken(l) && l[0] in s;
    }
  }

  /** A topic that is not plain: the filter of its tokens fails. */
  lemma DisagreesWithTokens(topic: Str) returns (filter: Str)
    requires NoWildcards(topic) && !Plain(topic) && Tokens(topic) != []
    ensures Proper(filter) && !LiveAgrees(filter, topic) && !RetainedAgrees(filter, topic)
  {
    hide RetainedMatch, Matches, Standard, Tokens, Levels, Join;
    var f := Tokens(topic);
    filter := Join(f);
    TokensAreNoWildcards(topic);
    ProperJoin(f);
    LiveIsMatches(filter, topic);
    MatchesItself(f);
    PlainIff(topic);
    StandardWithoutWildcards(f, Levels(topic));
    RetainedVersusLive(filter, topic);
    NoHashNotBeyond(f, Levels(topic));
  }

  /**
    The class is exact: of the topic names the section allows, each matcher
    agrees with it on every proper filter (but for the filters named above) for
    the plain ones, and for no other.
   */
  lemma AgreementIffPlain(topic: Str)
    requires NoWildcards(topic)
    ensures (forall filter :: Proper(filter) ==> LiveAgrees(filter, topic)) <==> Plain(topic)
    ensures (forall filter :: Proper(filter) ==> RetainedAgrees(filter, topic)) <==> Plain(topic)
  {
    hide Proper, LiveAgrees, RetainedAgrees;
    if Plain(topic) {
      forall filter | Proper(filter) ensures LiveAgrees(filter, topic) && RetainedAgrees(filter, topic) {
        PlainTopicAgrees(filter, topic);
      }
    } else if Tokens(topic) == [] {
      var filter := DisagreesWithoutTokens(topic);
    } else {
      var filter := DisagreesWithTokens(topic);
    }
  }

  lemma PlainTopicAgrees(filter: Str, topic: Str)
    requires Proper(filter) && Plain(topic) && NoWildcards(topic)
    ensures LiveAgrees(filter, topic) && RetainedAgrees(filter, topic)
  {
    hide LiveMatch, RetainedMatch, StandardMatch, ParentOnly, Beyond;
    PlainIff(topic);
    TokensAreNoWildcards(topic);
    MatchersVersusSection(filter, topic);
  }

  /** Section 4.7.1 never lets a filter that is not plain match a plain topic. */
  lemma {:induction false} StandardNeedsPlain(f: seq<Str>, t: seq<Str>)
    requires HashOnlyLast(f) && Standard(f, t) && forall l :: l in t ==> WellFormedToken(l)
    ensures forall l :: l in f ==> WellFormedToken(l)
  {
    assert WellFormedToken(PLUS) && WellFormedToken(HASH);
    if f != [HASH] && f != [] {
      assert t[0] in t && HashOnlyLast(f[1..]);
      StandardNeedsPlain(f[1..], t[1..]);
      assert f == [f[0]] + f[1..];
    }
  }

  lemma {:induction false} BeyondNeedsPlain(f: seq<Str>, t: seq<Str>)
    requires HashOnlyLast(f) && Beyond(f, t) && forall l :: l in t ==> WellFormedToken(l)
    ensures forall l :: l in f ==> WellFormedToken(l)
  {
    assert WellFormedToken(PLUS) && WellFormedToken(HASH);
    if t == [] {
      PlusesThenHashLast(f);
    }
    if |f| > 1 {
      assert HashOnlyLast(f[1..]);
      if t != [] { assert t[0] in t; }
      BeyondNeedsPlain(f[1..], if t == [] then [] else t[1..]);
    }
    assert f == [f[0]] + f[1..];
  }

  lemma NotPlainNotStandard(filter: Str, topic: Str)
    requires HashOnlyLast(Levels(filter)) && !Plain(filter) && Plain(topic)
    ensures !StandardMatch(filter, topic) && !Beyond(Levels(filter), Levels(topic))
  {
    hide Standard, Beyond;
    if Beyond(Levels(filter), Levels(topic)) {
      BeyondNeedsPlain(Levels(filter), Levels(topic));
    }
    if StandardMatch(filter, topic) {
      StandardNeedsPlain(Levels(filter), Levels(topic));
    }
  }

  const LETTER: Str := [120]

  /** A topic level for every level of a filter. */
  function Concrete(f: seq<Str>): seq<Str> {
    if f == [] then [] else [if f[0] == HASH || f[0] == PLUS then LETTER else f[0]] + Concrete(f[1..])
  }

  predicate OrdinaryTopic(topic: Str) {
    Plain(topic) && HASH !in Levels(topic) && PLUS !in Levels(topic)
  }

  lemma {:induction false} ConcreteMatches(f: seq<Str>)
    requires forall l :: l in f ==> WellFormedToken(l)
    ensures Matches(f, Concrete(f)) && |Concrete(f)| == |f|
    ensures forall l :: l in Concrete(f) ==> WellFormedToken(l) && l != HASH && l != PLUS
  {
    if f != [] {
      assert f[0] in f && forall l :: l in f[1..] ==> l in f;
      ConcreteMatches(f[1..]);
      assert Concrete(f)[1..] == Concrete(f[1..]) && WellFormedToken(LETTER);
    }
  }

  /**
    And of the filters with `#` as last level only, each matcher agrees with the
    section on every ordinary topic (but for the filters named above) for the
    plain ones and those without any token, and for no other.
   */
  lemma AgreementIffPlainFilter(filter: Str)
    requires HashOnlyLast(Levels(filter))
    ensures (forall topic :: OrdinaryTopic(topic) ==> LiveAgrees(filter, topic))
            <==> Plain(filter) || Tokens(filter) == []
    ensures (forall topic :: OrdinaryTopic(topic) ==> RetainedAgrees(filter, topic))
            <==> Plain(filter) || Tokens(filter) == []
  {
    hide LiveAgrees, RetainedAgrees, OrdinaryTopic;
    if Plain(filter) || Tokens(filter) == [] {
      forall topic | OrdinaryTopic(topic) ensures LiveAgrees(filter, topic) && RetainedAgrees(filter, topic) {
        FilterAgrees(filter, topic);
      }
    } else {
      var topic := FilterDisagrees(filter);
    }
  }

  lemma FilterAgrees(filter: Str, topic: Str)
    requires HashOnlyLast(Levels(filter)) && (Plain(filter) || Tokens(filter) == []) && OrdinaryTopic(topic)
    ensures LiveAgrees(filter, topic) && RetainedAgrees(filter, topic)
  {
    hide Standard, Tokens, Levels, ParentOnly, Plain, HashOnlyLast;
    if Plain(filter) {
      MatchersVersusSection(filter, topic);
    } else {
      NotPlainNotStandard(filter, topic);
      PlainIff(topic);
      LiveIsMatches(filter, topic);
      RetainedVersusLive(filter, topic);
    }
  }

  lemma FilterDisagrees(filter: Str) returns (topic: Str)
    requires HashOnlyLast(Levels(filter)) && !Plain(filter) && Tokens(filter) != []
    ensures OrdinaryTopic(topic) && !LiveAgrees(filter, topic) && !RetainedAgrees(filter, topic)
  {
    hide Standard, Tokens, Levels, ParentOnly, HashOnlyLast, Matches, Beyond, RetainedMatch;
    var t := Concrete(Tokens(filter));
    TokensWellFormed(filter);
    ConcreteMatches(Tokens(filter));
    topic := Join(t);
    ProperJoin(t);
    LiveIsMatches(filter, topic);
    RetainedVersusLive(filter, topic);
    NotPlainNotStandard(filter, topic);
  }

  /** The retained shortcut `/#` takes every topic, where section 4.7.1 asks for an empty first level. */
  lemma SlashHashShortcut(topic: Str)
    ensures RetainedMatch(SLASH_HASH, topic)
    ensures StandardMatch(SLASH_HASH, topic) <==> Levels(topic)[0] == []
  {
    assert LevelLength(SLASH_HASH) == 0 && SLASH_HASH[1..] == HASH;
    assert LevelLength(HASH) == 1;
    assert Levels(SLASH_HASH) == [[], HASH];
    assert [[], HASH][1..] == [HASH];
    var t := Levels(topic);
    assert Standard([HASH], t[1..]);
    assert Standard([[], HASH], t) <==> ([] == PLUS || [] == t[0]) && Standard([HASH], t[1..]);
  }

  /** Two of the failing inputs: "a/b" takes "a//b", and "a b" takes "a/b". */
  lemma SeparatorsMatter(a: byte, b: byte)
    requires !Separator(a) && !Separator(b)
    requires [a] != PLUS && [b] != PLUS && [a] != HASH && [b] != HASH
    ensures LiveMatch([a, SLASH, b], [a, SLASH, SLASH, b]) && !StandardMatch([a, SLASH, b], [a, SLASH, SLASH, b])
    ensures RetainedMatch([a, SLASH, b], [a, SLASH, SLASH, b])
    ensures LiveMatch([a, 32, b], [a, SLASH, b]) && !StandardMatch([a, 32, b], [a, SLASH, b])
    ensures RetainedMatch([a, 32, b], [a, SLASH, b])
  {
    var ab, doubled, spaced := [a, SLASH, b], [a, SLASH, SLASH, b], [a, 32, b];
    TwoTokens(a, b);
    MatchesItself([[a], [b]]);
    LiveIsMatches(ab, doubled);
    LiveIsMatches(spaced, ab);
    RetainedVersusLive(ab, doubled);
    RetainedVersusLive(spaced, ab);
    StandardWithoutWildcards(Levels(ab), Levels(doubled));
    assert [a, 32, b] !in [HASH, PLUS];
    StandardWithoutWildcards(Levels(spaced), Levels(ab));
  }

  lemma TwoTokens(a: byte, b: byte)
    requires !Separator(a) && !Separator(b)
    ensures Tokens([a, SLASH, b]) == [[a], [b]] && Levels([a, SLASH, b]) == [[a], [b]]
    ensures Tokens([a, SLASH, SLASH, b]) == [[a], [b]] && Levels([a, SLASH, SLASH, b]) == [[a], [], [b]]
    ensures Tokens([a, 32, b]) == [[a], [b]] && Levels([a, 32, b]) == [[a, 32, b]]
  {
    hide Separator, Tokens, Levels;
    SeparatorsAre(a, b);
    OneToken(b);
    FirstToken(a, SLASH, [b]);
    assert [SLASH] + [b] == [SLASH, b];
    FirstToken(a, SLASH, [SLASH, b]);
    FirstToken(a, 32, [b]);
    SkipSlash([b]);
    assert [a, SLASH] + [b] == [a, SLASH, b] && [a, 32] + [b] == [a, 32, b];
    assert [a, SLASH] + [SLASH, b] == [a, SLASH, SLASH, b];
    FirstLevel([a], [b]);
    FirstLevel([], [b]);
    FirstLevel([a], [SLASH, b]);
    assert [a] + [SLASH] + [b] == [a, SLASH, b] && [] + [SLASH] + [b] == [SLASH, b];
    assert [a] + [SLASH] + [SLASH, b] == [a, SLASH, SLASH, b];
    OneLevel([a, 32, b]);
  }

  lemma SeparatorsAre(a: byte, b: byte)
    ensures Separator(SLASH) && Separator(32)
    ensures !Separator(a) && !Separator(b) ==> SLASH !in [a] && SLASH !in [a, 32, b]
  {
  }

  lemma SkipSlash(rest: Str)
    ensures Tokens([SLASH] + rest) == Tokens(rest)
  {
    assert ([SLASH] + rest)[1..] == rest;
  }

  lemma OneLevel(s: Str)
    requires SLASH !in s
    ensures Levels(s) == [s]
  {
    LevelLengthIs(s, |s|);
  }

  lemma FirstToken(a: byte, c: byte, rest: Str)
    requires !Separator(a) && Separator(c)
    ensures Tokens([a, c] + rest) == [[a]] + Tokens(rest)
  {
    var s := [a, c] + rest;
    TokenLengthIs(s, 1);
    assert s[..1] == [a] && s[1..][1..] == rest;
    assert Tokens(s[1..]) == Tokens(rest);
  }

  lemma FirstLevel(l: Str, rest: Str)
    requires SLASH !in l
    ensures Levels(l + [SLASH] + rest) == [l] + Levels(rest)
  {
    var s := l + [SLASH] + rest;
    assert s[..|l|] == l && s[|l| + 1..] == rest;
    LevelLengthIs(s, |l|);
  }

  lemma OneToken(b: byte)
    requires !Separator(b)
    ensures Tokens([b]) == [[b]] && Levels([b]) == [[b]]
  {
    TokenLengthIs([b], 1);
    LevelLengthIs([b], 1);
    assert [b][1..] == [] && [b][..1] == [b];
  }

  // ---------------------------------------------------------------- the loops

  /** The inner loop of `checkWildCards`. */
  method LiveLevels(f: seq<Str>, t: seq<Str>) returns (hit: bool)
    ensures hit <==> t != [] && Matches(f, t)
  {
    var i := 0;
    while i < |t|
      invariant i <= |t| && i <= |f|
      invariant Matches(f, t) == Matches(f[i..], t[i..])
      invariant 0 < i == |t| ==> |f| > |t|
    {
      if i >= |f| { return false; }
      if f[i] == PLUS {
        if i + 1 == |t| && i + 1 == |f| { return true; }
        i := i + 1;
        continue;
      }
      if f[i] == HASH { return true; }
      if t[i] != f[i] { return false; }
      if i + 1 == |t| && i + 1 == |f| { return true; }
      i := i + 1;
    }
    return false;
  }

  /**
    `checkWildCards`: walks the subscriptions in whatever order the hash map
    yields and answers with the options of the first filter that matches.
   */
  method CheckWildCards(subs: map<Str, byte>, topic: Str) returns (found: bool, options: byte, filter: Str)
    ensures found <==> exists f :: f in subs && LiveMatch(f, topic)
    ensures found ==> filter in subs && LiveMatch(filter, topic) && options == subs[filter]
  {
    var topicTokens := Tokenize(topic);
    var todo := subs.Keys;
    while todo != {}
      invariant todo <= subs.Keys
      invariant forall f :: f in subs && f !in todo ==> !LiveMatch(f, topic)
    {
      filter :| filter in todo;
      if filter == HASH { return true, subs[filter], filter; }
      if topic == filter { return true, subs[filter], filter; }
      var filterTokens := Tokenize(filter);
      var hit := LiveLevels(filterTokens, topicTokens);
      if hit { return true, subs[filter], filter; }
      todo := todo - {filter};
    }
    return false, 0, [];
  }

  /** The inner loop of `GetMatchedTopics`; it bounds its index by the filter only. */
  method RetainedLevelsLoop(f: seq<Str>, t: seq<Str>) returns (hit: bool)
    ensures hit <==> RetainedLevels(f, t)
  {
    hit := false;
    var i := 0;
    while i < |f|
      invariant i <= |f|
      invariant RetainedLevels(f, t) <==> hit || RetainedLevels(f[i..], Rest(t, i))
    {
      RetainedStep(f[i..], Rest(t, i));
      assert f[i..][1..] == f[i + 1..] && Rest(Rest(t, i), 1) == Rest(t, i + 1);
      if f[i] == PLUS {
        if i + 1 == |f| && i + 1 == |t| { hit := true; }
        i := i + 1;
        continue;
      }
      if f[i] == HASH { hit := true; }
      if i >= |t| || f[i] != t[i] { break; }
      if i + 1 == |f| && i + 1 == |t| { hit := true; }
      i := i + 1;
    }
  }

  lemma RetainedStep(f: seq<Str>, t: seq<Str>)
    requires f != []
    ensures RetainedLevels(f, t) <==>
            || f[0] == HASH
            || ((f[0] == PLUS || (t != [] && f[0] == t[0]))
                && ((|f| == 1 && |t| == 1) || RetainedLevels(f[1..], Rest(t, 1))))
  {
    if t == [] {
      assert Beyond(f, t) == PlusesThenHash(f) && Beyond(f[1..], Rest(t, 1)) == PlusesThenHash(f[1..]);
    } else {
      assert Rest(t, 1) == t[1..];
      assert t[1..] == [] && Matches(f[1..], t[1..]) ==> |f| == 1 && |t| == 1;
    }
  }

  function Rest(t: seq<Str>, i: nat): seq<Str> {
    if i <= |t| then t[i..] else []
  }

  /** `GetMatchedTopics`: the retained topics a new subscription is sent. */
  method GetMatchedTopics<V>(topics: map<Str, V>, filter: Str) returns (matched: map<Str, V>)
    ensures matched == map n | n in topics && RetainedMatch(filter, n) :: topics[n]
  {
    if filter == HASH || filter == SLASH_HASH { return topics; }
    matched := map[];
    var filterTokens := Tokenize(filter);
    var todo := topics.Keys;
    while todo != {}
      invariant todo <= topics.Keys
      invariant matched == map n | n in topics && n !in todo && RetainedMatch(filter, n) :: topics[n]
    {
      var name :| name in todo;
      var nameTokens := Tokenize(name);
      var hit := RetainedLevelsLoop(filterTokens, nameTokens);
      if hit { matched := matched[name := topics[name]]; }
      todo := todo - {name};
    }
  }
}

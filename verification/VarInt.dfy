/** Variable byte integers, section 1.5.5 of MQTT 5.0. */
module VarInt {
  import opened Bytes

  /** The encoding: seven bits a byte, least significant group first. */
  function Code(v: nat): (b: seq<byte>)
    ensures |b| >= 1
  {
    if v < 0x80 then [v] else [v % 0x80 + 0x80] + Code(v / 0x80)
  }

  /** The number a group of bytes stands for, whatever its continuation bits say. */
  function Value(b: seq<byte>): nat {
    if b == [] then 0 else b[0] % 0x80 + 0x80 * Value(b[1..])
  }

  function Pow128(n: nat): (p: nat)
    ensures p >= 1
  {
    if n == 0 then 1 else 0x80 * Pow128(n - 1)
  }

  lemma Powers()
    ensures Pow128(0) == 1 && Pow128(1) == 0x80 && Pow128(2) == 0x4000 && Pow128(3) == 0x20_0000
    ensures Pow128(4) == TWO_TO_THE_28 && Pow128(5) == 0x8_0000_0000
  {
  }

  /** How many bytes at the front carry the continuation bit. */
  function Continued(b: seq<byte>): (k: nat)
    ensures k <= |b|
    ensures forall i :: 0 <= i < k ==> b[i] >= 0x80
    ensures k < |b| ==> b[k] < 0x80
  {
    if b == [] || b[0] < 0x80 then 0 else 1 + Continued(b[1..])
  }

  /** `Overrun` stands for a read beyond the end of the buffer, or an exhausted stream. */
  datatype Decoded = Ok(value: u32, size: byte) | VarIntErr | Overrun

  /**
    What decoding must answer: the first group of at most four bytes that ends
    with a clear continuation bit, an error if the first four all continue.
   */
  function Decode(b: seq<byte>): (r: Decoded) {
    var k := Continued(b);
    if k >= 4 then (if |b| > 4 then VarIntErr else Overrun)
    else if k == |b| then Overrun
    else (ValueBound(b[..k + 1]); Ok(Value(b[..k + 1]), k + 1))
  }

  lemma ValueBound(b: seq<byte>)
    requires |b| <= 4
    ensures Value(b) < Pow128(|b|) <= TWO_TO_THE_28
  {
    if b != [] {
      ValueBound(b[1..]);
    }
    Powers();
  }

  lemma {:induction false} ValueSnoc(b: seq<byte>, x: byte)
    ensures Value(b + [x]) == Value(b) + x % 0x80 * Pow128(|b|)
    ensures Pow128(|b| + 1) == Pow128(|b|) * 0x80
  {
    if b == [] {
      assert b + [x] == [x] && [x][1..] == [];
    } else {
      assert (b + [x])[1..] == b[1..] + [x];
      ValueSnoc(b[1..], x);
      assert 0x80 * (x % 0x80 * Pow128(|b| - 1)) == x % 0x80 * (0x80 * Pow128(|b| - 1));
    }
  }

  lemma {:induction false} ContinuedUnique(b: seq<byte>, k: nat)
    requires k <= |b|
    requires forall i :: 0 <= i < k ==> b[i] >= 0x80
    requires k < |b| ==> b[k] < 0x80
    ensures Continued(b) == k
  {
  }

  lemma {:induction false} CodeShape(v: nat)
    ensures Continued(Code(v)) == |Code(v)| - 1
    ensures Value(Code(v)) == v
  {
    if v < 0x80 {
      assert Code(v)[1..] == [];
    } else {
      assert Code(v)[1..] == Code(v / 0x80);
      CodeShape(v / 0x80);
    }
  }

  /** An encoding of n bytes is used for exactly the numbers that need n groups of seven bits. */
  lemma {:induction false} CodeLength(v: nat, n: nat)
    requires n >= 1
    ensures |Code(v)| <= n <==> v < Pow128(n)
  {
    if v < 0x80 {
      assert n > 1 ==> Pow128(n) == 0x80 * Pow128(n - 1);
      assert Pow128(1) == 0x80;
    } else if n == 1 {
      assert Pow128(1) == 0x80;
    } else {
      CodeLength(v / 0x80, n - 1);
    }
  }

  /** Decoding an encoding recovers the number exactly when it is below 2^28; otherwise it is refused. */
  lemma DecodeOfCode(v: nat, rest: seq<byte>)
    ensures v < TWO_TO_THE_28 ==> |Code(v)| <= 4 && Decode(Code(v) + rest) == Ok(v, |Code(v)|)
    ensures v >= TWO_TO_THE_28 ==> Decode(Code(v) + rest) == VarIntErr
  {
    CodeShape(v);
    CodeLength(v, 4);
    Powers();
    var n := |Code(v)|;
    forall i | 0 <= i < n ensures (Code(v) + rest)[i] == Code(v)[i] {}
    ContinuedUnique(Code(v) + rest, n - 1);
    assert (Code(v) + rest)[..n] == Code(v);
  }

  /** No accepted byte string for v is shorter than the one `CodeVarInt` writes. */
  lemma CodeIsShortest(b: seq<byte>)
    requires Decode(b).Ok?
    ensures |Code(Decode(b).value)| <= Decode(b).size
  {
    var n := Continued(b) + 1;
    ValueBound(b[..n]);
    CodeLength(Value(b[..n]), n);
  }

  /** One turn of the encoding loop, on the buffer and on what is left to encode. */
  lemma CodeStep(buf: seq<byte>, at: nat, v: nat, written: seq<byte>, value: nat, single: byte)
    requires at + |Code(v)| <= |buf| && written + Code(value) == Code(v)
    requires single == value % 0x80 + if value < 0x80 then 0 else 0x80
    ensures at + |written| < |buf| && |written| < |Code(v)|
    ensures Patched(buf, at, written)[at + |written| := single] == Patched(buf, at, written + [single])
    ensures if value < 0x80 then written + [single] == Code(v) else written + [single] + Code(value / 0x80) == Code(v)
  {
    PatchedStep(buf, at, written, single);
    if value >= 0x80 {
      assert written + Code(value) == written + [single] + Code(value / 0x80);
    }
  }

  /** `CodeVarInt`: writes the encoding into the buffer. */
  method CodeVarInt(buf: array<byte>, at: nat, v: u32) returns (size: byte)
    requires at + |Code(v)| <= buf.Length
    modifies buf
    ensures size == |Code(v)|
    ensures buf[..] == Patched(old(buf[..]), at, Code(v))
  {
    hide Pow128;
    var value: nat := v;
    var offset := 0;
    assert |Code(v)| <= 5 by { CodeLength(v, 5); Powers(); }
    ghost var written: seq<byte> := [];
    assert buf[..] == Patched(old(buf[..]), at, written);
    hide Patched, Code;
    while true
      invariant offset == |written| && written + Code(value) == Code(v)
      invariant buf[..] == Patched(old(buf[..]), at, written)
      decreases value
    {
      var single: byte := value % 0x80;
      ghost var group := value;
      value := value / 0x80;
      if value > 0 { single := single + 0x80; }
      CodeStep(old(buf[..]), at, v, written, group, single);
      buf[at + offset] := single;
      written := written + [single];
      offset := offset + 1;
      if value == 0 { break; }
    }
    size := offset;
  }

  lemma {:induction false} ContinuedAtLeast(b: seq<byte>, k: nat)
    requires k <= |b|
    requires forall i :: 0 <= i < k ==> b[i] >= 0x80
    ensures Continued(b) >= k
  {
  }

  /** The state of both decoding loops after k bytes, all of which asked for more. */
  predicate DecodedSoFar(b: seq<byte>, k: nat, value: int, multiplier: int) {
    && k <= 4 && k <= |b| && multiplier == Pow128(k)
    && (forall i :: 0 <= i < k ==> b[i] >= 0x80)
    && value == Value(b[..k])
  }

  lemma DecodeStart(b: seq<byte>)
    ensures DecodedSoFar(b, 0, 0, 1)
  {
    assert b[..0] == [];
  }

  /** What both loops add up from one more byte, in 32 bits. */
  function Accumulated(value: int, single: byte, multiplier: int): (r: u32) {
    (value + single % 0x80 * multiplier) % TWO_TO_THE_32
  }

  /** One turn of both loops: no byte left, a fifth byte, the last byte, or one that asks for more. */
  lemma DecodeStep(b: seq<byte>, k: nat, value: int, multiplier: int)
    requires DecodedSoFar(b, k, value, multiplier)
    ensures k <= |b| && k <= 4 && (multiplier > 0x20_0000 <==> k == 4)
    ensures k == |b| ==> Decode(b) == Overrun
    ensures k < |b| && k == 4 ==> Decode(b) == VarIntErr
    ensures k < |b| && k < 4 && b[k] < 0x80 ==> Decode(b) == Ok(Accumulated(value, b[k], multiplier), k + 1)
    ensures k < |b| && k < 4 && b[k] >= 0x80
      ==> DecodedSoFar(b, k + 1, Accumulated(value, b[k], multiplier), multiplier * 0x80)
  {
    hide Pow128, Value, Continued;
    Powers();
    if k == |b| {
      ContinuedUnique(b, k);
      assert b[..k] == b;
    } else if k == 4 {
      ContinuedAtLeast(b, 4);
    } else {
      ValueSnoc(b[..k], b[k]);
      assert b[..k] + [b[k]] == b[..k + 1];
      ValueBound(b[..k + 1]);
      if b[k] < 0x80 { ContinuedUnique(b, k); }
    }
  }

  /** `DeCodeVarInt`: the loop over the buffer, 32-bit arithmetic and all. */
  method DeCodeVarInt(b: seq<byte>) returns (r: Decoded)
    ensures r == Decode(b)
  {
    hide Decode, DecodedSoFar;
    var multiplier := 1;
    var value := 0;
    var offset := 0;
    DecodeStart(b);
    while true
      invariant DecodedSoFar(b, offset, value, multiplier)
      decreases 4 - offset
    {
      DecodeStep(b, offset, value, multiplier);
      if offset >= |b| { return Overrun; }
      var single := b[offset];
      value := (value + single % 0x80 * multiplier) % TWO_TO_THE_32;
      if multiplier > 0x20_0000 { return VarIntErr; }
      multiplier := multiplier * 0x80;
      offset := offset + 1;
      if single < 0x80 { break; }
    }
    r := Ok(value, offset);
  }

  /**
    `ReadVariableInt`: the same decoding, one byte at a time from a descriptor.
    `available` is what the descriptor will deliver before it fails.
   */
  method ReadVariableInt(available: seq<byte>) returns (r: Decoded, consumed: nat)
    ensures r == Decode(available)
    ensures consumed <= |available|
    ensures r.Ok? ==> consumed == r.size
  {
    hide Decode, DecodedSoFar;
    var multiplier := 1;
    var value := 0;
    consumed := 0;
    DecodeStart(available);
    while true
      invariant DecodedSoFar(available, consumed, value, multiplier)
      decreases 4 - consumed
    {
      DecodeStep(available, consumed, value, multiplier);
      if consumed == |available| { return Overrun, consumed; }
      var single := available[consumed];
      consumed := consumed + 1;
      value := (value + single % 0x80 * multiplier) % TWO_TO_THE_32;
      if multiplier > 0x20_0000 { return VarIntErr, consumed; }
      multiplier := multiplier * 0x80;
      if single < 0x80 { break; }
    }
    r := Ok(value, consumed);
  }

  /** `GetVarIntSize`: counts the groups. */
  method GetVarIntSize(v: u32) returns (count: byte)
    ensures count == |Code(v)|
  {
    if v == 0 { return 1; }
    var value: nat := v;
    var n := 0;
    while value > 0
      invariant value > 0 ==> n + |Code(value)| == |Code(v)|
      invariant value == 0 ==> n == |Code(v)|
    {
      n := n + 1;
      value := value / 0x80;
    }
    CodeLength(v, 5);
    Powers();
    count := n;
  }
}

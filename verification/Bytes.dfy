/**
  Bytes, network byte order, and writing into fixed-size buffers.

  C++ strings and raw buffers are both sequences of bytes here.  A `uint8_t`,
  `uint16_t` or `uint32_t` is the corresponding range of integers, and every
  place where the source truncates or wraps is written out with `%`.
 */
module Bytes {
  type byte = x: int | 0 <= x < 0x100
  type u16 = x: int | 0 <= x < 0x1_0000
  type u32 = x: int | 0 <= x < 0x1_0000_0000

  const TWO_TO_THE_28 := 0x1000_0000
  const TWO_TO_THE_32 := 0x1_0000_0000

  datatype Option<+T> = None | Some(value: T)

  lemma Associate<T>(a: seq<T>, b: seq<T>, c: seq<T>)
    ensures a + (b + c) == a + b + c
  {
  }

  /** `htons` followed by `memcpy`. */
  function Net16(v: u16): (b: seq<byte>)
    ensures |b| == 2
  {
    [v / 0x100, v % 0x100]
  }

  /** `htonl` followed by `memcpy`. */
  function Net32(v: u32): (b: seq<byte>)
    ensures |b| == 4
  {
    Net16(v / 0x1_0000) + Net16(v % 0x1_0000)
  }

  /** `ConvertToHost2Bytes`. */
  function Host16(b: seq<byte>): (v: u16)
    requires |b| >= 2
    ensures Net16(v) == b[..2]
  {
    (b[0] as int) * 0x100 + b[1]
  }

  /** `ConvertToHost4Bytes`. */
  function Host32(b: seq<byte>): (v: u32)
    requires |b| >= 4
    ensures Net32(v) == b[..4]
  {
    (Host16(b) as int) * 0x1_0000 + Host16(b[2..])
  }

  lemma Net16RoundTrip(v: u16, rest: seq<byte>)
    ensures Host16(Net16(v) + rest) == v
    ensures (Net16(v) + rest)[2..] == rest
  {
    assert (Net16(v) + rest)[0] == v / 0x100 && (Net16(v) + rest)[1] == v % 0x100;
  }

  lemma Net32RoundTrip(v: u32, rest: seq<byte>)
    ensures Host32(Net32(v) + rest) == v
    ensures (Net32(v) + rest)[4..] == rest
  {
    var hi, lo := v / 0x1_0000, v % 0x1_0000;
    assert Net32(v) + rest == Net16(hi) + (Net16(lo) + rest);
    Net16RoundTrip(hi, Net16(lo) + rest);
    Net16RoundTrip(lo, rest);
    assert (Net32(v) + rest)[2..] == Net16(lo) + rest;
  }

  /** A length-prefixed byte string; the length goes through `htons` of a `size_t`. */
  function Prefixed(s: seq<byte>): (b: seq<byte>)
    ensures |b| == 2 + |s|
  {
    Net16(|s| % 0x1_0000) + s
  }

  lemma PrefixedRoundTrip(s: seq<byte>, rest: seq<byte>)
    requires |s| < 0x1_0000
    ensures Host16(Prefixed(s) + rest) == |s|
    ensures (Prefixed(s) + rest)[2..2 + |s|] == s
    ensures (Prefixed(s) + rest)[2 + |s|..] == rest
  {
    hide Net16, Host16;
    assert Prefixed(s) + rest == Net16(|s|) + (s + rest);
    Net16RoundTrip(|s|, s + rest);
    assert (s + rest)[..|s|] == s && (s + rest)[|s|..] == rest;
  }

  /** The contents of a buffer after `bytes` were copied to position `at`. */
  function Patched(buf: seq<byte>, at: nat, bytes: seq<byte>): (r: seq<byte>)
    requires at + |bytes| <= |buf|
    ensures |r| == |buf|
    ensures r[at..at + |bytes|] == bytes
    ensures r[..at] == buf[..at] && r[at + |bytes|..] == buf[at + |bytes|..]
  {
    buf[..at] + bytes + buf[at + |bytes|..]
  }

  lemma PatchedTwice(buf: seq<byte>, at: nat, a: seq<byte>, b: seq<byte>)
    requires at + |a| + |b| <= |buf|
    ensures Patched(Patched(buf, at, a), at + |a|, b) == Patched(buf, at, a + b)
  {
  }

  lemma PatchedStep(buf: seq<byte>, at: nat, a: seq<byte>, x: byte)
    requires at + |a| < |buf|
    ensures Patched(buf, at, a)[at + |a| := x] == Patched(buf, at, a + [x])
  {
  }

  /** `memcpy(buf + at, bytes, bytes.size())`; returns the advanced offset. */
  method Put(buf: array<byte>, at: nat, bytes: seq<byte>) returns (next: nat)
    requires at + |bytes| <= buf.Length
    modifies buf
    ensures next == at + |bytes|
    ensures buf[..] == Patched(old(buf[..]), at, bytes)
  {
    assert old(buf[..]) == Patched(old(buf[..]), at, bytes[..0]);
    hide Patched;
    for i := 0 to |bytes|
      invariant buf[..] == Patched(old(buf[..]), at, bytes[..i])
    {
      ghost var before := buf[..];
      buf[at + i] := bytes[i];
      assert buf[..] == before[at + i := bytes[i]];
      PatchedStep(old(buf[..]), at, bytes[..i], bytes[i]);
      assert bytes[..i] + [bytes[i]] == bytes[..i + 1];
    }
    assert bytes[..|bytes|] == bytes;
    next := at + |bytes|;
  }
}

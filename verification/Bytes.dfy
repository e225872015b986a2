/** Bytes, big-endian integers and the loops that move them in and out of
    buffers (src/protocol/protocol.c:4-31). */
module Bytes {
  type byte = x: int | 0 <= x < 256

  const U16_LIMIT: nat := 0x1_0000
  const U32_LIMIT: nat := 0x1_0000_0000
  const U64_LIMIT: nat := 0x1_0000_0000_0000_0000

  type u16 = x: int | 0 <= x < 0x1_0000
  type u32 = x: int | 0 <= x < 0x1_0000_0000
  type u64 = x: int | 0 <= x < 0x1_0000_0000_0000_0000

  const U64_MAX: u64 := 0xFFFF_FFFF_FFFF_FFFF

  datatype Option<+T> = None | Some(value: T)

  /** n zero bytes. */
  function Pad(n: nat): (b: seq<byte>)
    ensures |b| == n
  {
    seq(n, _ => 0)
  }

  function Pow256(n: nat): (p: nat)
    ensures p >= 1
  {
    if n == 0 then 1 else 256 * Pow256(n - 1)
  }

  /** The `n` low-order bytes of `v`, most significant first. */
  function BigEndian(v: nat, n: nat): (b: seq<byte>)
    ensures |b| == n
    decreases n, v
  {
    if n == 0 then [] else BigEndian(v / 256, n - 1) + [v % 256]
  }

  /** The number whose big-endian digits are `b`. */
  function Value(b: seq<byte>): nat
    decreases |b|
  {
    if b == [] then 0 else 256 * Value(b[..|b| - 1]) + b[|b| - 1]
  }

  lemma Pow256Values()
    ensures Pow256(1) == 256 && Pow256(2) == U16_LIMIT
    ensures Pow256(4) == U32_LIMIT && Pow256(8) == U64_LIMIT
  {
    assert Pow256(1) == 256 * Pow256(0);
    assert Pow256(2) == 256 * Pow256(1);
    assert Pow256(3) == 256 * Pow256(2);
    assert Pow256(4) == 256 * Pow256(3);
    assert Pow256(5) == 256 * Pow256(4);
    assert Pow256(6) == 256 * Pow256(5);
    assert Pow256(7) == 256 * Pow256(6);
    assert Pow256(8) == 256 * Pow256(7);
  }

  lemma {:induction false} ValueOfBigEndian(v: nat, n: nat)
    requires v < Pow256(n)
    ensures Value(BigEndian(v, n)) == v
    decreases n
  {
    if n > 0 {
      ValueOfBigEndian(v / 256, n - 1);
      var b := BigEndian(v, n);
      assert b[..|b| - 1] == BigEndian(v / 256, n - 1);
    }
  }

  lemma {:induction false} BigEndianOfValue(b: seq<byte>)
    ensures Value(b) < Pow256(|b|)
    ensures BigEndian(Value(b), |b|) == b
    decreases |b|
  {
    if b != [] {
      var h := b[..|b| - 1];
      BigEndianOfValue(h);
      assert Value(b) / 256 == Value(h) && Value(b) % 256 == b[|b| - 1];
      assert b == h + [b[|b| - 1]];
    }
  }

  // ct_put_u16, ct_put_u32 and ct_put_u64 as they appear in messages.
  function U16(v: u16): (b: seq<byte>) ensures |b| == 2 { BigEndian(v, 2) }
  function U32(v: u32): (b: seq<byte>) ensures |b| == 4 { BigEndian(v, 4) }
  function U64(v: u64): (b: seq<byte>) ensures |b| == 8 { BigEndian(v, 8) }

  function GetU16(b: seq<byte>): (v: u16)
    requires |b| == 2
  {
    BigEndianOfValue(b); Pow256Values();
    Value(b)
  }

  function GetU32(b: seq<byte>): (v: u32)
    requires |b| == 4
  {
    BigEndianOfValue(b); Pow256Values();
    Value(b)
  }

  function GetU64(b: seq<byte>): (v: u64)
    requires |b| == 8
  {
    BigEndianOfValue(b); Pow256Values();
    Value(b)
  }

  // Get and put are inverse of each other.
  lemma Put16(b: seq<byte>)
    requires |b| == 2
    ensures U16(GetU16(b)) == b
  {
    BigEndianOfValue(b);
  }

  lemma Put32(b: seq<byte>)
    requires |b| == 4
    ensures U32(GetU32(b)) == b
  {
    BigEndianOfValue(b);
  }

  lemma Put64(b: seq<byte>)
    requires |b| == 8
    ensures U64(GetU64(b)) == b
  {
    BigEndianOfValue(b);
  }

  lemma Got16(v: u16)
    ensures GetU16(U16(v)) == v
  {
    Pow256Values(); ValueOfBigEndian(v, 2);
  }

  lemma Got32(v: u32)
    ensures GetU32(U32(v)) == v
  {
    Pow256Values(); ValueOfBigEndian(v, 4);
  }

  lemma Got64(v: u64)
    ensures GetU64(U64(v)) == v
  {
    Pow256Values(); ValueOfBigEndian(v, 8);
  }

  /** The loop of ct_put_u64: eight bytes written from the last to the first. */
  method PutU64(p: array<byte>, at: nat, v: u64)
    requires at + 8 <= p.Length
    modifies p
    ensures p[..] == old(p[..at]) + U64(v) + old(p[at + 8..])
  {
    var i, rest: nat := 8, v;
    while i > 0
      invariant 0 <= i <= 8
      invariant U64(v) == BigEndian(rest, i) + p[at + i..at + 8]
      invariant p[..at] == old(p[..at]) && p[at + 8..] == old(p[at + 8..])
    {
      i := i - 1;
      ghost var done := p[at + i + 1..at + 8];
      p[at + i] := rest % 256;
      assert p[at + i..at + 8] == [rest % 256] + done;
      rest := rest / 256;
    }
    assert p[..] == p[..at] + p[at..at + 8] + p[at + 8..];
  }

  /** The loop of ct_get_u64: shift left by eight and add the next byte. */
  method ReadU64(p: array<byte>, at: nat) returns (v: u64)
    requires at + 8 <= p.Length
    ensures U64(v) == p[at..at + 8]
  {
    var i, acc: nat := 0, 0;
    Pow256Values();
    while i < 8
      invariant 0 <= i <= 8
      invariant acc == Value(p[at..at + i])
    {
      assert p[at..at + i + 1][..i] == p[at..at + i];
      acc := acc * 256 + p[at + i];
      i := i + 1;
    }
    BigEndianOfValue(p[at..at + 8]);
    v := acc;
  }
}

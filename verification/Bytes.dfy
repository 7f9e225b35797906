/** Octets, big-endian integers and the bits of a byte string, most significant first. */
module Bytes {

  type Byte = n: nat | n < 256

  // ---------------------------------------------------------------- big-endian integers

  /** 256 to the power of the width. */
  function Capacity(width: nat): (c: nat)
    ensures c >= 1
  {
    if width == 0 then 1 else 256 * Capacity(width - 1)
  }

  function PutUint(n: nat, width: nat): (b: seq<Byte>)
    ensures |b| == width
  {
    if width == 0 then [] else PutUint(n / 256, width - 1) + [n % 256]
  }

  function Uint(b: seq<Byte>): nat {
    if b == [] then 0 else 256 * Uint(b[..|b| - 1]) + b[|b| - 1]
  }

  /** Reading back what was written, and writing back what was read. */
  lemma {:induction false} UintOfPut(n: nat, width: nat)
    requires n < Capacity(width)
    ensures Uint(PutUint(n, width)) == n
  {
    if width != 0 {
      UintOfPut(n / 256, width - 1);
      assert PutUint(n, width)[..width - 1] == PutUint(n / 256, width - 1);
    }
  }

  lemma {:induction false} PutOfUint(b: seq<Byte>)
    ensures Uint(b) < Capacity(|b|) && PutUint(Uint(b), |b|) == b
  {
    if b != [] {
      PutOfUint(b[..|b| - 1]);
    }
  }

  // ---------------------------------------------------------------- bits

  function BitsOfByte(n: nat, width: nat): (bits: seq<bool>)
    ensures |bits| == width
  {
    if width == 0 then [] else BitsOfByte(n / 2, width - 1) + [n % 2 == 1]
  }

  function BitsValue(bits: seq<bool>): nat {
    if bits == [] then 0 else 2 * BitsValue(bits[..|bits| - 1]) + if bits[|bits| - 1] then 1 else 0
  }

  function Power(width: nat): (p: nat)
    ensures p >= 1
  {
    if width == 0 then 1 else 2 * Power(width - 1)
  }

  lemma {:induction false} ByteOfItsBits(n: nat, width: nat)
    requires n < Power(width)
    ensures BitsValue(BitsOfByte(n, width)) == n
  {
    if width != 0 {
      ByteOfItsBits(n / 2, width - 1);
      assert BitsOfByte(n, width)[..width - 1] == BitsOfByte(n / 2, width - 1);
    }
  }

  lemma {:induction false} BitsOfTheirByte(bits: seq<bool>)
    ensures BitsValue(bits) < Power(|bits|) && BitsOfByte(BitsValue(bits), |bits|) == bits
  {
    if bits != [] {
      BitsOfTheirByte(bits[..|bits| - 1]);
    }
  }

  lemma EightBits()
    ensures Power(8) == 256
  {
    assert Power(4) == 16;
  }

  function Bits(b: seq<Byte>): (bits: seq<bool>)
    ensures |bits| == 8 * |b|
  {
    if b == [] then [] else BitsOfByte(b[0], 8) + Bits(b[1..])
  }

  function Pack(bits: seq<bool>): (b: seq<Byte>)
    requires |bits| % 8 == 0
    ensures 8 * |b| == |bits|
    decreases |bits|
  {
    if bits == [] then []
    else
      BitsOfTheirByte(bits[..8]);
      EightBits();
      [BitsValue(bits[..8])] + Pack(bits[8..])
  }

  lemma {:induction false} PackOfBits(b: seq<Byte>)
    ensures Pack(Bits(b)) == b
  {
    if b != [] {
      EightBits();
      ByteOfItsBits(b[0], 8);
      assert Bits(b)[..8] == BitsOfByte(b[0], 8);
      assert Bits(b)[8..] == Bits(b[1..]);
      PackOfBits(b[1..]);
    }
  }

  lemma {:induction false} BitsOfPack(bits: seq<bool>)
    requires |bits| % 8 == 0
    ensures Bits(Pack(bits)) == bits
    decreases |bits|
  {
    if bits != [] {
      EightBits();
      BitsOfTheirByte(bits[..8]);
      BitsOfPack(bits[8..]);
      assert bits == bits[..8] + bits[8..];
    }
  }

  lemma Regroup(a: seq<Byte>, b: seq<Byte>, c: seq<Byte>)
    ensures (a + b) + c == a + (b + c)
  {
  }

  function Zeros(n: nat): (b: seq<Byte>)
    ensures |b| == n
  {
    seq(n, _ => 0)
  }
}

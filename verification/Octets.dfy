/** Octets as machine bytes: a buffer of them read as bits, most significant first, and changed bit by bit with
    masks. */
module Octets {
  type Octet = bv8

  function Mask(k: nat): Octet
    requires k < 8
  {
    1 << (7 - k)
  }

  predicate BitAt(b: Octet, k: nat)
    requires k < 8
  {
    b & Mask(k) != 0
  }

  lemma Masks(k: nat)
    requires k < 8
    ensures Mask(k) == [0x80, 0x40, 0x20, 0x10, 0x08, 0x04, 0x02, 0x01][k]
  {
    assert (1 as Octet) << 7 == 0x80 && (1 as Octet) << 6 == 0x40 && (1 as Octet) << 5 == 0x20
        && (1 as Octet) << 4 == 0x10;
    assert (1 as Octet) << 3 == 0x08 && (1 as Octet) << 2 == 0x04 && (1 as Octet) << 1 == 0x02
        && (1 as Octet) << 0 == 0x01;
    if
    case k == 0 =>
    case k == 1 =>
    case k == 2 =>
    case k == 3 =>
    case k == 4 =>
    case k == 5 =>
    case k == 6 =>
    case k == 7 =>
  }

  lemma Setting(b: Octet, k: nat, j: nat)
    requires k < 8 && j < 8
    ensures BitAt(b | Mask(k), j) == (j == k || BitAt(b, j))
    ensures BitAt(b & !Mask(k), j) == (j != k && BitAt(b, j))
  {
    Masks(k);
    Masks(j);
    OneMask(b, Mask(k), Mask(j));
  }

  lemma OneMask(b: Octet, m: Octet, n: Octet)
    requires m in {0x80, 0x40, 0x20, 0x10, 0x08, 0x04, 0x02, 0x01}
        && n in {0x80, 0x40, 0x20, 0x10, 0x08, 0x04, 0x02, 0x01}
    ensures ((b | m) & n != 0) == (n == m || b & n != 0)
    ensures ((b & !m) & n != 0) == (n != m && b & n != 0)
  {
  }

  function Bits(b: seq<Octet>): (bits: seq<bool>)
    ensures |bits| == 8 * |b|
  {
    seq(8 * |b|, i requires 0 <= i < 8 * |b| => BitAt(b[i / 8], i % 8))
  }

  function Bit(on: bool, k: nat): Octet
    requires k < 8
  {
    if on then Mask(k) else 0
  }

  /** The first n bits of an octet, the rest zero. */
  function OctetOf(bits: seq<bool>, n: nat): Octet
    requires n <= |bits| && n <= 8
  {
    if n == 0 then 0 else OctetOf(bits, n - 1) | Bit(bits[n - 1], n - 1)
  }

  lemma {:induction false} OctetHasBits(bits: seq<bool>, n: nat, k: nat)
    requires n <= |bits| && n <= 8 && k < 8
    ensures BitAt(OctetOf(bits, n), k) == (k < n && bits[k])
  {
    if n == 0 {
      Nothing(0, Mask(k));
    } else {
      OctetHasBits(bits, n - 1, k);
      Adding(OctetOf(bits, n - 1), bits[n - 1], n - 1, k);
    }
  }

  lemma Adding(b: Octet, on: bool, k: nat, j: nat)
    requires k < 8 && j < 8
    ensures BitAt(b | Bit(on, k), j) == ((on && j == k) || BitAt(b, j))
  {
    if on {
      Setting(b, k, j);
    }
    Nothing(b, Mask(j));
  }

  lemma Nothing(b: Octet, m: Octet)
    ensures b | 0 == b && (0 as Octet) & m == 0
  {
  }

  /** The octets of bits that fill them. */
  function Packed(bits: seq<bool>): (b: seq<Octet>)
    requires |bits| % 8 == 0
    ensures |b| == |bits| / 8 && Bits(b) == bits
  {
    var b := seq(|bits| / 8, i requires 0 <= i < |bits| / 8 => OctetOf(bits[8 * i..8 * i + 8], 8));
    assert Bits(b) == bits by {
      forall i | 0 <= i < |bits| ensures Bits(b)[i] == bits[i] {
        OctetHasBits(bits[8 * (i / 8)..8 * (i / 8) + 8], 8, i % 8);
      }
    }
    b
  }

  function Changed(octet: Octet, k: nat, on: bool): Octet
    requires k < 8
  {
    if on then octet | Mask(k) else octet & !Mask(k)
  }

  /** One octet changed by a mask changes one bit of the buffer. */
  lemma BitChanges(b: seq<Octet>, n: nat, on: bool)
    requires n < 8 * |b|
    ensures Bits(b[n / 8 := Changed(b[n / 8], n % 8, on)]) == Bits(b)[n := on]
  {
    var c := b[n / 8 := Changed(b[n / 8], n % 8, on)];
    forall i | 0 <= i < 8 * |b| ensures Bits(c)[i] == Bits(b)[n := on][i] {
      ChangedBit(b[n / 8], n % 8, on, i % 8);
      SameBit(i, n);
      assert Bits(c)[i] == BitAt(c[i / 8], i % 8) && Bits(b)[i] == BitAt(b[i / 8], i % 8);
    }
  }

  lemma ChangedBit(octet: Octet, k: nat, on: bool, j: nat)
    requires k < 8 && j < 8
    ensures BitAt(Changed(octet, k, on), j) == if j == k then on else BitAt(octet, j)
  {
    Setting(octet, k, j);
  }

  lemma SameBit(i: nat, n: nat)
    ensures i == n <==> i / 8 == n / 8 && i % 8 == n % 8
  {
  }
}

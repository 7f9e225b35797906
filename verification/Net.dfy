/** Addresses and canonical prefixes as bit sequences, most significant bit first.

    A canonical (masked) prefix is its leading bits, so "contains" is the prefix order
    on sequences and two prefixes overlap when one extends the other.
 */
module Net {
  import opened Common
  import opened Bytes

  datatype Family = IPv4 | IPv6

  function Width(family: Family): nat {
    if family.IPv4? then 32 else 128
  }

  datatype Address = Address(family: Family, bits: seq<bool>)

  datatype Prefix = Prefix(family: Family, bits: seq<bool>)

  predicate ValidAddress(a: Address) {
    |a.bits| == Width(a.family)
  }

  predicate ValidPrefix(p: Prefix) {
    |p.bits| <= Width(p.family)
  }

  /** netip.Prefix.Contains for canonical prefixes. */
  predicate Contains(p: Prefix, a: Address) {
    p.family == a.family && p.bits <= a.bits
  }

  /** The inner prefix is at least as long as the outer one and starts inside it. */
  predicate Within(inner: Prefix, outer: Prefix) {
    inner.family == outer.family && outer.bits <= inner.bits
  }

  predicate Overlap(p: Prefix, q: Prefix) {
    Within(p, q) || Within(q, p)
  }

  /** Two prefixes of one address are nested. */
  lemma CommonAddressOverlaps(p: Prefix, q: Prefix, a: Address)
    requires Contains(p, a) && Contains(q, a)
    ensures if |p.bits| <= |q.bits| then Within(q, p) else Within(p, q)
  {
    assert p.bits == a.bits[..|p.bits|];
    assert q.bits == a.bits[..|q.bits|];
  }

  lemma WithinContains(p: Prefix, q: Prefix, a: Address)
    requires Within(p, q) && Contains(p, a)
    ensures Contains(q, a)
  {
    assert q.bits == p.bits[..|q.bits|] == a.bits[..|q.bits|];
  }

  // ---------------------------------------------------------------- address classes

  datatype Endpoint = Endpoint(address: Address, port: nat)

  /** The number that the first n bits spell. */
  function Leading(a: Address, n: nat): nat {
    if n <= |a.bits| then BitsValue(a.bits[..n]) else 0
  }

  predicate AllBits(a: Address, value: bool) {
    forall i | 0 <= i < |a.bits| :: a.bits[i] == value
  }

  predicate IsUnspecified(a: Address) {
    AllBits(a, false)
  }

  predicate Is4In6(a: Address) {
    a.family.IPv6? && ValidAddress(a) && Leading(a, 96) == 0xffff
  }

  function Unmap(a: Address): Address {
    if Is4In6(a) then Address(IPv4, a.bits[96..]) else a
  }

  /** 224.0.0.0/4 and ff00::/8. */
  predicate IsMulticast(a: Address) {
    var u := Unmap(a);
    if u.family.IPv4? then Leading(u, 4) == 0xe else Leading(u, 8) == 0xff
  }

  /** 169.254.0.0/16 and fe80::/10. */
  predicate IsLinkLocal(a: Address) {
    var u := Unmap(a);
    if u.family.IPv4? then Leading(u, 16) == 0xa9fe else Leading(u, 10) == 0x3fa
  }

  predicate IsLimitedBroadcast(a: Address) {
    a.family.IPv4? && AllBits(a, true)
  }

  predicate UsableEndpoint(e: Endpoint) {
    ValidAddress(e.address) && 0 < e.port < 65536 && !IsUnspecified(e.address) && !IsMulticast(e.address)
  }
}

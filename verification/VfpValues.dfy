/** The values carried in VFP messages and their octets: node identities, addresses, endpoints and policies
    (internal/vfp/message/message.go). Each printer and its parser are inverse to one another. */
module VfpValues {
  import opened Common
  import opened Bytes
  import opened Net

  datatype Uid = Uid(uuid: seq<Byte>, name: seq<Byte>)

  datatype Policy = Policy(revision: nat, accept: bool)

  /** An address with a prefix length that need not be masked. */
  datatype Cidr = Cidr(address: Address, length: nat)

  predicate AllZero(b: seq<Byte>) {
    forall i | 0 <= i < |b| :: b[i] == 0
  }

  // ---------------------------------------------------------------- node identities

  predicate NameByte(b: Byte) {
    'a' as nat <= b <= 'z' as nat || '0' as nat <= b <= '9' as nat
  }

  predicate ValidName(name: seq<Byte>) {
    |name| <= 5 && forall i | 0 <= i < |name| :: NameByte(name[i])
  }

  function ParseUid(value: seq<Byte>): Option<Uid> {
    if |value| < 16 || |value| > 21 || AllZero(value[..16]) || !ValidName(value[16..]) then None
    else Some(Uid(value[..16], value[16..]))
  }

  function EncodeUid(u: Uid): Option<seq<Byte>> {
    if AllZero(u.uuid) || !ValidName(u.name) then None else Some(u.uuid + u.name)
  }

  lemma UidInverse(u: Uid, b: seq<Byte>)
    requires |u.uuid| == 16
    ensures EncodeUid(u) == Some(b) <==> ParseUid(b) == Some(u)
  {
    if EncodeUid(u) == Some(b) {
      assert b[..16] == u.uuid && b[16..] == u.name;
    }
    if ParseUid(b) == Some(u) {
      assert b == b[..16] + b[16..];
    }
  }

  // ---------------------------------------------------------------- addresses

  function Octets(family: Family): nat {
    if family.IPv4? then 4 else 16
  }

  function AddressOctets(a: Address): seq<Byte>
    requires ValidAddress(a)
  {
    Pack(a.bits)
  }

  function AddressOf(family: Family, b: seq<Byte>): Address {
    Address(family, Bytes.Bits(b))
  }

  lemma AddressInverse(a: Address, family: Family, b: seq<Byte>)
    requires ValidAddress(a) && |b| == Octets(family)
    ensures a == AddressOf(family, b) <==> a.family == family && AddressOctets(a) == b
    ensures ValidAddress(AddressOf(family, b))
  {
    PackOfBits(b);
    BitsOfPack(a.bits);
  }

  /** Neither unspecified, multicast, link-local nor the limited broadcast. */
  predicate AllowedAddress(a: Address) {
    !IsUnspecified(a) && !IsMulticast(a) && !IsLinkLocal(a) && !IsLimitedBroadcast(a)
  }

  function ParseAddress(value: seq<Byte>, family: Family): Option<Address> {
    if |value| != Octets(family) || !AllowedAddress(AddressOf(family, value)) then None
    else Some(AddressOf(family, value))
  }

  predicate Masked(c: Cidr) {
    c.length <= |c.address.bits| && forall i | c.length <= i < |c.address.bits| :: !c.address.bits[i]
  }

  function LinkBits(family: Family): nat {
    if family.IPv4? then 30 else 126
  }

  function ParsePrefix(value: seq<Byte>, family: Family): Option<Cidr> {
    match ParseAddress(value, family)
    case None => None
    case Some(a) =>
      if Masked(Cidr(a, LinkBits(family))) then Some(Cidr(a, LinkBits(family))) else None
  }

  // ---------------------------------------------------------------- endpoints

  predicate SizedEndpoint(e: Endpoint) {
    ValidAddress(e.address) && e.port < 0x1_0000
  }

  predicate AllowedEndpoint(e: Endpoint) {
    e.port != 0 && !Is4In6(e.address) && AllowedAddress(e.address)
  }

  function Afi(family: Family): nat {
    if family.IPv4? then 1 else 2
  }

  function EncodeEndpoint(e: Endpoint): Option<seq<Byte>>
    requires SizedEndpoint(e)
  {
    if !AllowedEndpoint(e) then None
    else Some(PutUint(Afi(e.address.family), 2) + PutUint(e.port, 2) + AddressOctets(e.address))
  }

  function ParseEndpoint(value: seq<Byte>): (r: Option<Endpoint>)
    ensures r.Some? ==> SizedEndpoint(r.value)
  {
    if |value| != 8 && |value| != 20 then None
    else
      var family := if |value| == 8 then IPv4 else IPv6;
      PortFits(value[2..4]);
      AddressFits(family, value[4..]);
      var e := Endpoint(AddressOf(family, value[4..]), Uint(value[2..4]));
      if Uint(value[..2]) != Afi(family) || !AllowedEndpoint(e) then None else Some(e)
  }

  lemma PortFits(b: seq<Byte>)
    requires |b| == 2
    ensures Uint(b) < 0x1_0000
  {
    PutOfUint(b);
    assert Capacity(2) == 256 * Capacity(1);
  }

  lemma AddressFits(family: Family, b: seq<Byte>)
    requires |b| == Octets(family)
    ensures ValidAddress(AddressOf(family, b))
  {
  }

  lemma ShortRoundTrip(n: nat)
    requires n < 0x1_0000
    ensures Uint(PutUint(n, 2)) == n
  {
    assert Capacity(2) == 256 * Capacity(1);
    UintOfPut(n, 2);
  }

  lemma EndpointInverse(e: Endpoint, b: seq<Byte>)
    requires SizedEndpoint(e)
    ensures EncodeEndpoint(e) == Some(b) <==> ParseEndpoint(b) == Some(e)
  {
    var family := e.address.family;
    if EncodeEndpoint(e) == Some(b) {
      assert b[..2] == PutUint(Afi(family), 2) && b[2..4] == PutUint(e.port, 2) && b[4..] == AddressOctets(e.address);
      ShortRoundTrip(Afi(family));
      ShortRoundTrip(e.port);
      AddressInverse(e.address, family, b[4..]);
    }
    if ParseEndpoint(b) == Some(e) {
      AddressInverse(e.address, family, b[4..]);
      PutOfUint(b[..2]);
      PutOfUint(b[2..4]);
      assert b == b[..2] + b[2..4] + b[4..];
    }
  }

  // ---------------------------------------------------------------- policies

  const REVISIONS: nat := 0x1_0000_0000_0000_0000

  function EncodePolicy(p: Option<Policy>): Option<seq<Byte>> {
    if p.None? || p.value.revision == 0 then None
    else Some(PutUint(p.value.revision, 8) + [if p.value.accept then 1 else 0])
  }

  function ParsePolicy(value: seq<Byte>): Option<Policy> {
    if |value| != 9 || value[8] > 1 || Uint(value[..8]) == 0 then None
    else Some(Policy(Uint(value[..8]), value[8] == 1))
  }

  lemma EightOctets()
    ensures Capacity(8) == REVISIONS
  {
    assert Capacity(4) == 0x1_0000_0000 by {
      assert Capacity(2) == 0x1_0000;
    }
    assert Capacity(6) == 0x1_0000_0000_0000;
  }

  lemma PolicyInverse(p: Policy, b: seq<Byte>)
    requires p.revision < REVISIONS
    ensures EncodePolicy(Some(p)) == Some(b) <==> ParsePolicy(b) == Some(p)
  {
    EightOctets();
    if EncodePolicy(Some(p)) == Some(b) {
      assert b[..8] == PutUint(p.revision, 8);
      UintOfPut(p.revision, 8);
    }
    if ParsePolicy(b) == Some(p) {
      PutOfUint(b[..8]);
      assert b == b[..8] + [b[8]];
    }
  }
}

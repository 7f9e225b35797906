/** Link prefixes and addresses derived from a shared key (internal/link/derive.go), on bits. The keyed digest is an
    arbitrary function of its inputs. */
module Derive {
  import opened Common
  import opened Bytes
  import opened Net
  import Negotiation
  import Octets

  type Uuid = Negotiation.Uuid
  type Proposal = Negotiation.Proposal

  /** What HMAC makes of the family, the two node UUIDs in ascending order and the attempt: 256 bits. */
  type Digest = (Family, Uuid, Uuid, nat) -> seq<bool>

  ghost predicate FullDigest(digest: Digest) {
    forall family, a, b, n :: |digest(family, a, b, n)| == 256
  }

  function LinkLength(family: Family): nat {
    if family.IPv4? then 30 else 126
  }

  function Zeroes(n: nat): seq<bool> {
    seq(n, _ => false)
  }

  // ---------------------------------------------------------------- filling a prefix with entropy

  /** The first n entropy bits, going round after 256. */
  function Entropy(entropy: seq<bool>, n: nat): seq<bool>
    requires |entropy| == 256
  {
    seq(n, i => entropy[i % 256])
  }

  function FilledTo(pool: Prefix, bit: nat, entropy: seq<bool>): seq<bool>
    requires |entropy| == 256 && |pool.bits| <= bit <= Width(pool.family)
  {
    pool.bits + Entropy(entropy, bit - |pool.bits|) + Zeroes(Width(pool.family) - bit)
  }

  /** The pool's own bits, then entropy up to the target, then what the pool's address had: zeros. */
  function Filled(pool: Prefix, target: nat, entropy: seq<bool>): Address
    requires |entropy| == 256 && |pool.bits| <= target <= Width(pool.family)
  {
    Address(pool.family, FilledTo(pool, target, entropy))
  }

  lemma MoreEntropy(entropy: seq<bool>, n: nat)
    requires |entropy| == 256
    ensures Entropy(entropy, n + 1) == Entropy(entropy, n) + [entropy[n % 256]]
  {
  }

  function BaseBits(p: Prefix): seq<bool>
    requires ValidPrefix(p)
  {
    p.bits + Zeroes(Width(p.family) - |p.bits|)
  }

  lemma FillsOne(pool: Prefix, bit: nat, entropy: seq<Octets.Octet>)
    requires |entropy| == 32 && |pool.bits| <= bit < Width(pool.family)
    ensures
      var n := bit - |pool.bits|;
      FilledTo(pool, bit + 1, Octets.Bits(entropy))
      == FilledTo(pool, bit, Octets.Bits(entropy))[bit := Octets.BitAt(entropy[n / 8 % 32], n % 8)]
  {
    EntropyBit(entropy, bit - |pool.bits|);
    FillsFrom(pool, bit, Octets.Bits(entropy));
  }

  lemma EntropyBit(entropy: seq<Octets.Octet>, n: nat)
    requires |entropy| == 32
    ensures Octets.Bits(entropy)[n % 256] == Octets.BitAt(entropy[n / 8 % 32], n % 8)
  {
    assert n / 8 % 32 == n % 256 / 8 && n % 8 == n % 256 % 8;
  }

  lemma FillsFrom(pool: Prefix, bit: nat, entropy: seq<bool>)
    requires |entropy| == 256 && |pool.bits| <= bit < Width(pool.family)
    ensures FilledTo(pool, bit + 1, entropy) == FilledTo(pool, bit, entropy)[bit := entropy[(bit - |pool.bits|) % 256]]
  {
    MoreEntropy(entropy, bit - |pool.bits|);
  }

  /** What one round of the loop does to the octets. */
  lemma OctetsFilled(pool: Prefix, bit: nat, entropy: seq<Octets.Octet>, b: seq<Octets.Octet>, on: bool)
    requires |entropy| == 32 && |pool.bits| <= bit < Width(pool.family) && 8 * |b| == Width(pool.family)
    requires Octets.Bits(b) == FilledTo(pool, bit, Octets.Bits(entropy))
    requires var n := bit - |pool.bits|; on == Octets.BitAt(entropy[n / 8 % 32], n % 8)
    ensures Octets.Bits(b[bit / 8 := Octets.Changed(b[bit / 8], bit % 8, on)])
         == FilledTo(pool, bit + 1, Octets.Bits(entropy))
  {
    Octets.BitChanges(b, bit, on);
    FillsOne(pool, bit, entropy);
  }

  lemma NothingFilled(pool: Prefix, entropy: seq<bool>)
    requires |entropy| == 256 && ValidPrefix(pool)
    ensures FilledTo(pool, |pool.bits|, entropy) == BaseBits(pool)
  {
  }

  method Copy(slice: seq<Octets.Octet>) returns (a: array<Octets.Octet>)
    ensures fresh(a) && a[..] == slice
  {
    a := new Octets.Octet[|slice|](i requires 0 <= i < |slice| => slice[i]);
  }

  /** The pool's own bits, then entropy, then zeros: each bit is set or cleared in the octets of the pool's address. */
  method FillBits(pool: Prefix, target: nat, entropy: seq<Octets.Octet>) returns (a: Address)
    requires |entropy| == 32 && |pool.bits| <= target <= Width(pool.family)
    ensures a == Filled(pool, target, Octets.Bits(entropy)) && ValidAddress(a)
  {
    var addressBytes := Copy(Octets.Packed(BaseBits(pool)));
    NothingFilled(pool, Octets.Bits(entropy));
    for addressBit := |pool.bits| to target
      invariant 8 * addressBytes.Length == Width(pool.family)
      invariant Octets.Bits(addressBytes[..]) == FilledTo(pool, addressBit, Octets.Bits(entropy))
    {
      var entropyBit, at := addressBit - |pool.bits|, addressBit / 8;
      var on := Octets.BitAt(entropy[entropyBit / 8 % |entropy|], entropyBit % 8);
      OctetsFilled(pool, addressBit, entropy, addressBytes[..], on);
      ghost var filled := addressBytes[..][at := Octets.Changed(addressBytes[at], addressBit % 8, on)];
      addressBytes[at] := Octets.Changed(addressBytes[at], addressBit % 8, on);
      assert addressBytes[..] == filled;
    }
    a := Address(pool.family, Octets.Bits(addressBytes[..]));
  }

  /** The first `length` bits of an address as a canonical prefix. */
  function MaskedAt(a: Address, length: nat): Prefix
    requires length <= |a.bits|
  {
    Prefix(a.family, a.bits[..length])
  }

  function DeriveSubnet(pool: Prefix, length: nat, entropy: seq<bool>): Prefix
    requires |entropy| == 256 && |pool.bits| <= length <= Width(pool.family)
  {
    MaskedAt(Filled(pool, length, entropy), length)
  }

  /** A derived subnet keeps the pool's bits, so it is a canonical prefix of the wanted length inside the pool, and its
      free bits are exactly the entropy. */
  lemma SubnetIsInPool(pool: Prefix, length: nat, entropy: seq<bool>)
    requires |entropy| == 256 && |pool.bits| <= length <= Width(pool.family)
    ensures
      var p := DeriveSubnet(pool, length, entropy);
      && ValidPrefix(p) && |p.bits| == length && Within(p, pool)
      && p.bits[|pool.bits|..] == Entropy(entropy, length - |pool.bits|)
  {
    var a := Filled(pool, length, entropy);
    assert a.bits[..length] == pool.bits + Entropy(entropy, length - |pool.bits|);
  }

  // ---------------------------------------------------------------- proposals

  function Derived(digest: Digest, pool: Option<Prefix>, low: Uuid, high: Uuid, attempt: nat): Option<Prefix>
    requires pool.Some? ==>
        |pool.value.bits| <= LinkLength(pool.value.family) && |digest(pool.value.family, low, high, attempt)| == 256
  {
    if pool.None? then None
    else Some(DeriveSubnet(pool.value, LinkLength(pool.value.family), digest(pool.value.family, low, high, attempt)))
  }

  /** A configured address for a family replaces what was derived for it; the last one wins. */
  function Override(p: Proposal, overrides: seq<Prefix>): Proposal {
    if overrides == [] then p
    else
      var before, o := Override(p, overrides[..|overrides| - 1]), overrides[|overrides| - 1];
      if o.family.IPv4? then before.(v4 := Some(o)) else before.(v6 := Some(o))
  }

  predicate PoolOk(pool: Option<Prefix>, family: Family) {
    pool.Some? ==> pool.value.family == family && |pool.value.bits| <= LinkLength(family)
  }

  ghost predicate Derivable(digest: Digest, v4: Option<Prefix>, v6: Option<Prefix>) {
    FullDigest(digest) && PoolOk(v4, IPv4) && PoolOk(v6, IPv6)
  }

  function DeriveProposal(digest: Digest, local: Uuid, remote: Uuid, v4: Option<Prefix>, v6: Option<Prefix>,
    overrides: seq<Prefix>, attempt: nat): Proposal
    requires v4.Some? ==>
        PoolOk(v4, IPv4) && |digest(IPv4, local, remote, attempt)| == |digest(IPv4, remote, local, attempt)| == 256
    requires v6.Some? ==>
        PoolOk(v6, IPv6) && |digest(IPv6, local, remote, attempt)| == |digest(IPv6, remote, local, attempt)| == 256
  {
    var low, high := if local > remote then remote else local, if local > remote then local else remote;
    Override(Negotiation.Proposal(Derived(digest, v4, low, high, attempt), Derived(digest, v6, low, high, attempt)),
             overrides)
  }

  /** Both ends of a Link derive the same proposal for the same attempt. */
  lemma BothEndsDeriveTheSame(digest: Digest, a: Uuid, b: Uuid, v4: Option<Prefix>, v6: Option<Prefix>,
      overrides: seq<Prefix>, attempt: nat)
    requires Derivable(digest, v4, v6)
    ensures DeriveProposal(digest, a, b, v4, v6, overrides, attempt)
        == DeriveProposal(digest, b, a, v4, v6, overrides, attempt)
  {
  }

  /** Configured addresses are whole Link prefixes inside the pools, at most one a family (internal/spec/spec.go). */
  predicate OverridesOk(v4: Option<Prefix>, v6: Option<Prefix>, overrides: seq<Prefix>) {
    && (forall i | 0 <= i < |overrides| ::
          var o := overrides[i];
          && |o.bits| == LinkLength(o.family)
          && Negotiation.WithinPool(Some(o), if o.family.IPv4? then v4 else v6))
    && (forall i, j | 0 <= i < j < |overrides| :: overrides[i].family != overrides[j].family)
  }

  function PartOf(p: Proposal, family: Family): Option<Prefix> {
    if family.IPv4? then p.v4 else p.v6
  }

  predicate MatchesOverrides(p: Proposal, overrides: seq<Prefix>) {
    forall i | 0 <= i < |overrides| :: PartOf(p, overrides[i].family) == Some(overrides[i])
  }

  /** What overriding leaves: a configured prefix where there is one, else what was there. */
  lemma {:induction false} OverrideResult(p: Proposal, overrides: seq<Prefix>, family: Family)
    ensures
      var r := PartOf(Override(p, overrides), family);
      || (r == PartOf(p, family) && forall i | 0 <= i < |overrides| :: overrides[i].family != family)
      || (exists i | 0 <= i < |overrides| :: overrides[i].family == family && r == Some(overrides[i]))
  {
    if overrides != [] {
      var init, last := overrides[..|overrides| - 1], overrides[|overrides| - 1];
      OverrideResult(p, init, family);
      var r := PartOf(Override(p, init), family);
      if last.family == family {
        assert overrides[|overrides| - 1] == last;
      } else if exists i | 0 <= i < |init| :: init[i].family == family && r == Some(init[i]) {
        var i :| 0 <= i < |init| && init[i].family == family && r == Some(init[i]);
        assert overrides[i] == init[i];
      } else {
        assert forall i | 0 <= i < |init| :: overrides[i] == init[i];
      }
    }
  }

  /** What an end derives satisfies its own configured addresses exactly when no two of them disagree. */
  lemma DerivedMatchesIff(digest: Digest, local: Uuid, remote: Uuid, v4: Option<Prefix>, v6: Option<Prefix>,
    overrides: seq<Prefix>, attempt: nat)
    requires Derivable(digest, v4, v6)
    ensures MatchesOverrides(DeriveProposal(digest, local, remote, v4, v6, overrides, attempt), overrides)
       <==> forall i, j | 0 <= i < |overrides| && 0 <= j < |overrides| && overrides[i].family == overrides[j].family ::
              overrides[i] == overrides[j]
  {
    var low, high := if local > remote then remote else local, if local > remote then local else remote;
    var plain := Negotiation.Proposal(Derived(digest, v4, low, high, attempt), Derived(digest, v6, low, high, attempt));
    OverrideResult(plain, overrides, IPv4);
    OverrideResult(plain, overrides, IPv6);
    var p := Override(plain, overrides);
    if MatchesOverrides(p, overrides) {
      forall i, j | 0 <= i < |overrides| && 0 <= j < |overrides| && overrides[i].family == overrides[j].family
        ensures overrides[i] == overrides[j]
      {
        assert PartOf(p, overrides[i].family) == Some(overrides[i])
            && PartOf(p, overrides[j].family) == Some(overrides[j]);
      }
    }
  }

  /** Whatever is derived for a validated Link has whole Link prefixes inside the pools. */
  lemma DerivedIsInPools(digest: Digest, local: Uuid, remote: Uuid, v4: Option<Prefix>, v6: Option<Prefix>,
    overrides: seq<Prefix>, attempt: nat, family: Family)
    requires Derivable(digest, v4, v6) && OverridesOk(v4, v6, overrides)
    ensures
      var p := PartOf(DeriveProposal(digest, local, remote, v4, v6, overrides, attempt), family);
      && Negotiation.WithinPool(p, if family.IPv4? then v4 else v6)
      && (p.Some? ==> p.value.family == family && |p.value.bits| == LinkLength(family))
  {
    var low, high := if local > remote then remote else local, if local > remote then local else remote;
    var plain := Negotiation.Proposal(Derived(digest, v4, low, high, attempt), Derived(digest, v6, low, high, attempt));
    OverrideResult(plain, overrides, family);
    var pool := if family.IPv4? then v4 else v6;
    if pool.Some? {
      SubnetIsInPool(pool.value, LinkLength(family), digest(family, low, high, attempt));
    }
  }

  // ---------------------------------------------------------------- the two addresses of a Link

  /** The next address; None past the last one of its family. */
  function Next(bits: seq<bool>): Option<seq<bool>> {
    if bits == [] then None
    else
      var init := bits[..|bits| - 1];
      if !bits[|bits| - 1] then Some(init + [true])
      else
        match Next(init)
        case None => None
        case Some(up) => Some(up + [false])
  }

  lemma {:induction false} NextAddsOne(bits: seq<bool>)
    ensures Next(bits).Some? ==> |Next(bits).value| == |bits| && BitsValue(Next(bits).value) == BitsValue(bits) + 1
    ensures Next(bits).None? <==> forall i | 0 <= i < |bits| :: bits[i]
  {
    if bits != [] {
      var init := bits[..|bits| - 1];
      NextAddsOne(init);
      if bits[|bits| - 1] && Next(init).Some? {
        assert (Next(init).value + [false])[..|init|] == Next(init).value;
      } else if !bits[|bits| - 1] {
        assert (init + [true])[..|init|] == init;
      }
    }
  }

  /** With two host bits or more, the first two addresses after the base are inside the prefix, distinct and not its
      base. */
  lemma TwoHostAddresses(p: Prefix)
    requires ValidPrefix(p) && |p.bits| + 2 <= Width(p.family)
    ensures
      var base := BaseBits(p);
      && Next(base).Some? && Next(Next(base).value).Some?
      && var first, second := Next(base).value, Next(Next(base).value).value;
      && p.bits <= first && p.bits <= second && |first| == |second| == Width(p.family)
      && first != second && first != base && second != base
  {
    var base := BaseBits(p);
    var n := |base|;
    NextAddsOne(base);
    assert !base[n - 1] && !base[n - 2];
    var init := base[..n - 1];
    var first := init + [true];
    assert Next(base) == Some(first);
    assert first[..n - 1] == init && !init[n - 2];
    assert Next(init) == Some(init[..n - 2] + [true]);
    assert Next(first) == Some(init[..n - 2] + [true] + [false]);
    var second := init[..n - 2] + [true] + [false];
    assert second[n - 1] == false && first[n - 1] == true && second[n - 2] == true;
  }

  datatype Ends = Ends(local: seq<(Address, nat)>, peer: seq<Address>)

  /** This end's addresses with their prefix lengths, and the peer's, for each family proposed; None past the last
      address. */
  function EndsOf(p: Option<Prefix>, lower: bool): Option<Ends>
    requires p.Some? ==> ValidPrefix(p.value)
  {
    if p.None? then Some(Ends([], []))
    else
      var first := Next(BaseBits(p.value));
      if first.None? || Next(first.value).None? then None
      else
        var a, b := Address(p.value.family, first.value), Address(p.value.family, Next(first.value).value);
        Some(Ends([(if lower then a else b, |p.value.bits|)], [if lower then b else a]))
  }

  method EndpointAddresses(p: Proposal, local: Uuid, remote: Uuid) returns (ends: Option<Ends>)
    requires p.v4.Some? ==> ValidPrefix(p.v4.value)
    requires p.v6.Some? ==> ValidPrefix(p.v6.value)
    ensures ends == Joined(EndsOf(p.v4, local < remote), EndsOf(p.v6, local < remote))
  {
    var lower := local < remote;
    var parts := [p.v4, p.v6];
    var out := Ends([], []);
    for i := 0 to |parts|
      invariant Some(out) == (if i == 0 then Some(Ends([], []))
                              else if i == 1 then EndsOf(p.v4, lower)
                              else Joined(EndsOf(p.v4, lower), EndsOf(p.v6, lower)))
    {
      var part := EndsOf(parts[i], lower);
      if part.None? {
        return None;
      }
      assert i == 0 ==>
          out.local + part.value.local == part.value.local && out.peer + part.value.peer == part.value.peer;
      out := Ends(out.local + part.value.local, out.peer + part.value.peer);
    }
    return Some(out);
  }

  function Joined(a: Option<Ends>, b: Option<Ends>): Option<Ends> {
    if a.None? || b.None? then None else Some(Ends(a.value.local + b.value.local, a.value.peer + b.value.peer))
  }

  /** For an agreed prefix the two ends take distinct addresses inside it, and each one's own is the other's peer. */
  lemma EndsMirror(p: Option<Prefix>, a: Uuid, b: Uuid)
    requires p.Some? ==> ValidPrefix(p.value) && |p.value.bits| + 2 <= Width(p.value.family)
    requires a != b
    ensures
      var x, y := EndsOf(p, a < b), EndsOf(p, b < a);
      && x.Some? && y.Some? && |x.value.local| == |x.value.peer| == |y.value.local| == |y.value.peer|
      && (forall i | 0 <= i < |x.value.local| ::
            && x.value.local[i].0 == y.value.peer[i] && y.value.local[i].0 == x.value.peer[i]
            && x.value.local[i].0 != y.value.local[i].0
            && x.value.local[i].1 == |p.value.bits|
            && ValidAddress(x.value.local[i].0) && Contains(p.value, x.value.local[i].0)
            && ValidAddress(y.value.local[i].0) && Contains(p.value, y.value.local[i].0))
  {
    if p.Some? {
      TwoHostAddresses(p.value);
    }
  }

  // ---------------------------------------------------------------- hosts and control addresses

  /** A node's own address in a pool; an IPv4 one is never the network address. */
  function DeriveHost(pool: Prefix, entropy: seq<bool>): Option<Address>
    requires |entropy| == 256 && ValidPrefix(pool)
  {
    var a := Filled(pool, Width(pool.family), entropy);
    if pool.family.IPv4? && |pool.bits| <= 30 && a.bits == BaseBits(pool) then
      match Next(a.bits)
      case None => None
      case Some(up) => Some(Address(pool.family, up))
    else Some(a)
  }

  lemma HostIsInPool(pool: Prefix, entropy: seq<bool>)
    requires |entropy| == 256 && ValidPrefix(pool)
    ensures
      var a := DeriveHost(pool, entropy);
      && a.Some? && ValidAddress(a.value) && Contains(pool, a.value)
      && (pool.family.IPv4? && |pool.bits| <= 30 ==> a.value.bits != BaseBits(pool))
  {
    var a := Filled(pool, Width(pool.family), entropy);
    assert pool.bits <= a.bits;
    if pool.family.IPv4? && |pool.bits| <= 30 && a.bits == BaseBits(pool) {
      TwoHostAddresses(pool);
    }
  }

  /** fe80::/64 and eight octets of entropy, the group bit clear and never all zero. */
  function LinkLocal(entropy: seq<bool>): Address
    requires |entropy| == 256
  {
    var raw := entropy[..64][7 := false];
    var iid := if raw == Zeroes(64) then raw[63 := true] else raw;
    Address(IPv6, [true, true, true, true, true, true, true, false, true, false] + Zeroes(54) + iid)
  }

  lemma LinkLocalIsUsable(entropy: seq<bool>)
    requires |entropy| == 256
    ensures
      var a := LinkLocal(entropy);
      && ValidAddress(a) && IsLinkLocal(a) && !a.bits[71] && a.bits[64..] != Zeroes(64)
  {
    var a := LinkLocal(entropy);
    var head := [true, true, true, true, true, true, true, false, true, false];
    assert a.bits[..10] == head;
    assert BitsValue(head) == 0x3fa by {
      assert head[..9] == [true, true, true, true, true, true, true, false, true];
      assert head[..9][..8] == [true, true, true, true, true, true, true, false];
      assert head[..9][..8][..7] == [true, true, true, true, true, true, true];
      SevenOnes();
    }
    assert a.bits[0];
    NotMapped(a);
    assert a.bits[64..] == (if entropy[..64][7 := false] == Zeroes(64) then entropy[..64][7 := false][63 := true]
                            else entropy[..64][7 := false]);
    assert a.bits[71] == a.bits[64..][7];
    assert a.bits[64..] != Zeroes(64) by {
      if entropy[..64][7 := false] == Zeroes(64) {
        assert a.bits[64..][63];
      }
    }
  }

  lemma SevenOnes()
    ensures BitsValue([true, true, true, true, true, true, true]) == 127
  {
    var b: seq<bool> := [];
    var v := 0;
    for i := 0 to 7
      invariant b == seq(i, _ => true) && BitsValue(b) == v && v == Power(i) - 1
    {
      var next := b + [true];
      assert next[..i] == b;
      b, v := next, 2 * v + 1;
    }
    assert Power(7) == 128 by {
      assert Power(4) == 16;
    }
    assert b == [true, true, true, true, true, true, true];
  }

  lemma {:induction false} LeadingOneIsLarge(bits: seq<bool>)
    requires bits != [] && bits[0]
    ensures BitsValue(bits) >= Power(|bits| - 1)
  {
    if |bits| > 1 {
      LeadingOneIsLarge(bits[..|bits| - 1]);
    }
  }

  lemma {:induction false} PowerGrows(n: nat, m: nat)
    requires n <= m
    ensures Power(n) <= Power(m)
  {
    if n < m {
      PowerGrows(n, m - 1);
    }
  }

  /** An address that starts with a one bit is not an IPv4 address in disguise. */
  lemma NotMapped(a: Address)
    requires ValidAddress(a) && a.family.IPv6? && a.bits[0]
    ensures !Is4In6(a)
  {
    LeadingOneIsLarge(a.bits[..96]);
    PowerGrows(16, 95);
    assert Power(16) == 65536 by {
      assert Power(8) == 256 by {
        assert Power(4) == 16;
      }
      assert Power(12) == 4096;
    }
  }
}

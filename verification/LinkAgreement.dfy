/** Negotiation over derived proposals: two nodes of one fabric, with the same key, pools and configured addresses. */
module LinkAgreement {
  import opened Common
  import opened Net
  import opened Negotiation
  import opened NegotiationPair
  import opened NegotiationProgress
  import Derive

  /** Both configurations derive from the same digest, pools and overrides, each for its own UUID. */
  ghost predicate SharesFabric(u: Setup, digest: Derive.Digest, overrides: seq<Prefix>) {
    && u.a.initiator && !u.b.initiator && u.a.context.LinkBound? && u.b.context.LinkBound? && u.a.firstMessage.None?
    && u.a.localUid != u.b.localUid
    && LoopbackAllowed(u.a, u.b.localLoopback) && LoopbackAllowed(u.b, u.a.localLoopback)
    && u.a.poolV4 == u.b.poolV4 && u.a.poolV6 == u.b.poolV6
    && Derive.Derivable(digest, u.a.poolV4, u.a.poolV6)
    && Derive.OverridesOk(u.a.poolV4, u.a.poolV6, overrides)
    && (forall k: nat ::
          && u.a.derive(u.b.localUid, k)
             == Some(Derive.DeriveProposal(digest, u.a.localUid, u.b.localUid, u.a.poolV4, u.a.poolV6, overrides, k))
          && u.b.derive(u.a.localUid, k)
             == Some(Derive.DeriveProposal(digest, u.b.localUid, u.a.localUid, u.a.poolV4, u.a.poolV6, overrides, k)))
  }

  lemma FabricIsHonest(u: Setup, digest: Derive.Digest, overrides: seq<Prefix>)
    requires SharesFabric(u, digest, overrides)
    ensures Honest(u)
  {
    forall k: nat | k < MAX_COUNTERPROPOSALS
      ensures
        var d := u.a.derive(u.b.localUid, k);
        && u.b.derive(u.a.localUid, k) == d && d.Some?
        && WithinPools(u.a, d.value) && WithinPools(u.b, d.value)
    {
      var a, b := u.a.localUid, u.b.localUid;
      Derive.BothEndsDeriveTheSame(digest, a, b, u.a.poolV4, u.a.poolV6, overrides, k);
      Derive.DerivedIsInPools(digest, a, b, u.a.poolV4, u.a.poolV6, overrides, k, IPv4);
      Derive.DerivedIsInPools(digest, a, b, u.a.poolV4, u.a.poolV6, overrides, k, IPv6);
    }
  }

  /** An undisturbed session between two nodes of one fabric that has nothing left to read has committed, at both ends,
      one derived proposal that suits both, if one of the first 64 does, and its addresses mirror each other. */
  lemma FabricLinkIsAgreed(u: Setup, digest: Derive.Digest, overrides: seq<Prefix>, schedule: seq<Side>)
    requires SharesFabric(u, digest, overrides) && Settled(SmoothRun(u, schedule))
    ensures Honest(u)
    ensures SomeMutual(u) ==>
              var p := SmoothRun(u, schedule);
              && p.a.committed.Some? && p.a.committed == p.b.committed && Mutual(u, p.a.committed.value)
              && MirroredEnds(p.a.committed.value.v4, u.a.localUid, u.b.localUid)
              && MirroredEnds(p.a.committed.value.v6, u.a.localUid, u.b.localUid)
  {
    FabricIsHonest(u, digest, overrides);
    NegotiationIsComplete(u, schedule);
    if SomeMutual(u) {
      var p := SmoothRun(u, schedule);
      var q :| p.a.committed == Some(q) && p.b.committed == Some(q) && Mutual(u, q) && Indexed(u, q);
      var k: nat :| k < MAX_COUNTERPROPOSALS && Derived(u, k) == q;
      AddressesMirror(u, digest, overrides, k, IPv4);
      AddressesMirror(u, digest, overrides, k, IPv6);
    }
  }

  /** One address for each end, inside the prefix, each end's own being the other's peer. */
  ghost predicate MirroredEnds(p: Option<Prefix>, a: Uuid, b: Uuid) {
    p.Some? ==>
      && ValidPrefix(p.value)
      && var x, y := Derive.EndsOf(p, a < b), Derive.EndsOf(p, b < a);
      && x.Some? && y.Some? && |x.value.local| == |y.value.local| == |x.value.peer| == |y.value.peer| == 1
      && x.value.local[0].0 == y.value.peer[0] && y.value.local[0].0 == x.value.peer[0]
      && x.value.local[0].0 != y.value.local[0].0
      && Contains(p.value, x.value.local[0].0) && Contains(p.value, y.value.local[0].0)
  }

  lemma AddressesMirror(u: Setup, digest: Derive.Digest, overrides: seq<Prefix>, k: nat, family: Family)
    requires SharesFabric(u, digest, overrides) && Honest(u) && k < MAX_COUNTERPROPOSALS
    ensures MirroredEnds(Derive.PartOf(Derived(u, k), family), u.a.localUid, u.b.localUid)
  {
    Derive.DerivedIsInPools(digest, u.a.localUid, u.b.localUid, u.a.poolV4, u.a.poolV6, overrides, k, family);
    Derive.EndsMirror(Derive.PartOf(Derived(u, k), family), u.a.localUid, u.b.localUid);
  }
}

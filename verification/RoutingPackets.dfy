/** What the rules and tables do with a packet: the matching rule of the smallest number is tried first, and a throw or
    a miss leads on to the next. A packet from a Domain's source is decided by the infrastructure, by the Domain whose
    source it goes to, or by its own Domain, and by no other. */
module RoutingPackets {
  import opened Common
  import opened Net
  import opened Routing
  import opened RoutingCompiler
  import opened RoutingLookup
  import opened RoutingIsolation

  predicate RuleMatches(q: RulePlan, src: Address, dst: Address) {
    && (q.source.Some? ==> Contains(q.source.value, src))
    && (q.destination.Some? ==> Contains(q.destination.value, dst))
  }

  /** The table of a rule that is tried first. */
  ghost predicate Reaches(rules: seq<RulePlan>, src: Address, dst: Address, table: int) {
    exists q :: FirstRule(rules, src, dst, q) && q.table == table
  }

  ghost predicate FirstRule(rules: seq<RulePlan>, src: Address, dst: Address, q: RulePlan) {
    && q in rules && RuleMatches(q, src, dst)
    && forall p :: p in rules && RuleMatches(p, src, dst) ==> q.priority <= p.priority
  }

  /** A lookup in the table leads on to the next rule. */
  ghost predicate Passes(routes: seq<RoutePlan>, table: int, dst: Address) {
    (forall r :: !Resolves(routes, table, dst, r)) || (exists r :: Resolves(routes, table, dst, r) && r.kind.Throw?)
  }

  /** The packet can get as far as rule q. */
  ghost predicate Comes(c: Compiled, src: Address, dst: Address, q: RulePlan) {
    && q in c.rules && RuleMatches(q, src, dst)
    && forall p :: p in c.rules && RuleMatches(p, src, dst) && p.priority < q.priority ==>
        Passes(c.routes, p.table, dst)
  }

  /** The packet takes route r, or is refused by it. */
  ghost predicate Decides(c: Compiled, src: Address, dst: Address, r: RoutePlan) {
    !r.kind.Throw? && exists q :: Comes(c, src, dst, q) && Resolves(c.routes, q.table, dst, r)
  }

  /** No rule decides and the packet falls to the rest of the host's routing. */
  ghost predicate Leaves(c: Compiled, src: Address, dst: Address) {
    forall q :: q in c.rules && RuleMatches(q, src, dst) ==> Passes(c.routes, q.table, dst)
  }

  predicate InPool(s: NodeSpec, a: Address) {
    exists i | 0 <= i < |s.pools| :: Contains(s.pools[i], a)
  }

  predicate InSource(d: Domain, a: Address) {
    exists i | 0 <= i < |d.sources| :: Contains(d.sources[i], a)
  }

  predicate InSomeSource(s: NodeSpec, a: Address) {
    exists j | 0 <= j < |s.domains| :: InSource(s.domains[j], a)
  }

  predicate Announces(d: Domain, a: Address) {
    exists i | 0 <= i < |d.announcements| :: Contains(d.announcements[i].prefix, a)
  }

  /** A packet of one address family from inside a source of Domain k. */
  ghost predicate PacketOf(s: NodeSpec, c: Compiled, k: nat, src: Address, dst: Address) {
    && CompilesTo(s, c) && k < |s.domains| && InSource(s.domains[k], src)
    && ValidAddress(src) && ValidAddress(dst) && src.family == dst.family
  }

  // ---------------------------------------------------------------- which rules match

  lemma {:induction false} FromDomainRules(fabricTable: int, ds: seq<Domain>, r: RulePlan)
    requires r in DomainRules(fabricTable, ds)
    ensures exists k: nat, i: nat :: k < |ds| && i < |ds[k].sources| &&
              (r == RulePlan(ds[k].table, DOMAIN_RULE_PRIORITY, Some(ds[k].sources[i]), None)
               || r == RulePlan(fabricTable, FABRIC_RULE_PRIORITY, None, Some(ds[k].sources[i])))
  {
    var init, last := ds[..|ds| - 1], ds[|ds| - 1];
    if r in DomainRules(fabricTable, init) {
      FromDomainRules(fabricTable, init, r);
      var k: nat, i: nat :| k < |init| && i < |init[k].sources| &&
        (r == RulePlan(init[k].table, DOMAIN_RULE_PRIORITY, Some(init[k].sources[i]), None)
         || r == RulePlan(fabricTable, FABRIC_RULE_PRIORITY, None, Some(init[k].sources[i])));
      assert ds[k] == init[k];
    } else {
      FromSourceRules(fabricTable, last.table, last.sources, r);
      assert ds[|ds| - 1] == last;
    }
  }

  lemma {:induction false} FromSourceRules(fabricTable: int, table: int, sources: seq<Prefix>, r: RulePlan)
    requires r in SourceRules(fabricTable, table, sources)
    ensures exists i: nat :: i < |sources| &&
              (r == RulePlan(table, DOMAIN_RULE_PRIORITY, Some(sources[i]), None)
               || r == RulePlan(fabricTable, FABRIC_RULE_PRIORITY, None, Some(sources[i])))
  {
    var init := sources[..|sources| - 1];
    if r in SourceRules(fabricTable, table, init) {
      FromSourceRules(fabricTable, table, init, r);
      var i: nat :| i < |init| && (r == RulePlan(table, DOMAIN_RULE_PRIORITY, Some(init[i]), None)
                                   || r == RulePlan(fabricTable, FABRIC_RULE_PRIORITY, None, Some(init[i])));
      assert sources[i] == init[i];
    }
  }

  lemma {:induction false} SourceRulesAreAsked(fabricTable: int, table: int, sources: seq<Prefix>, i: nat)
    requires i < |sources|
    ensures RulePlan(table, DOMAIN_RULE_PRIORITY, Some(sources[i]), None) in SourceRules(fabricTable, table, sources)
    ensures RulePlan(fabricTable, FABRIC_RULE_PRIORITY, None, Some(sources[i]))
        in SourceRules(fabricTable, table, sources)
  {
    if i < |sources| - 1 {
      SourceRulesAreAsked(fabricTable, table, sources[..|sources| - 1], i);
    }
  }

  lemma {:induction false} DomainRulesAreAsked(fabricTable: int, ds: seq<Domain>, k: nat, r: RulePlan)
    requires k < |ds| && r in SourceRules(fabricTable, ds[k].table, ds[k].sources)
    ensures r in DomainRules(fabricTable, ds)
  {
    if k < |ds| - 1 {
      DomainRulesAreAsked(fabricTable, ds[..|ds| - 1], k, r);
    }
  }

  ghost predicate ToShared(s: NodeSpec, q: RulePlan) {
    && q.table == s.fabricTable && q.priority == FABRIC_RULE_PRIORITY && q.source.None? && q.destination.Some?
    && (q.destination.value in s.pools || exists k: nat ::
        k < |s.domains| && q.destination.value in s.domains[k].sources)
  }

  ghost predicate ToDomain(d: Domain, q: RulePlan) {
    && q.table == d.table && q.priority == DOMAIN_RULE_PRIORITY && q.destination.None?
    && q.source.Some? && q.source.value in d.sources
  }

  lemma RuleShape(s: NodeSpec, c: Compiled, q: RulePlan)
    requires CompilesTo(s, c) && q in c.rules
    ensures ToShared(s, q) || exists k: nat :: k < |s.domains| && ToDomain(s.domains[k], q)
  {
    RulesAreAsked([], AllRules(s));
    if q !in PoolRules(s.fabricTable, s.pools) {
      FromDomainRules(s.fabricTable, s.domains, q);
      var k: nat, i: nat :| k < |s.domains| && i < |s.domains[k].sources|
        && (q == RulePlan(s.domains[k].table, DOMAIN_RULE_PRIORITY, Some(s.domains[k].sources[i]), None)
            || q == RulePlan(s.fabricTable, FABRIC_RULE_PRIORITY, None, Some(s.domains[k].sources[i])));
      assert ToShared(s, q) || ToDomain(s.domains[k], q);
    }
  }

  /** A rule that was asked for is there: with its table, source and destination it has its number too. */
  lemma RuleIsThere(s: NodeSpec, c: Compiled, r: RulePlan)
    requires CompilesTo(s, c) && r in AllRules(s)
    requires ToShared(s, r) || exists k: nat :: k < |s.domains| && ToDomain(s.domains[k], r)
    ensures r in c.rules
  {
    AskedRulesAreKept([], AllRules(s), r);
    var q :| q in c.rules && RuleKey(q) == RuleKey(r);
    RuleShape(s, c, q);
  }

  /** The rules for the source of a packet all name the Domain whose source it is from, and there is one. */
  lemma SourceSelectsDomain(s: NodeSpec, c: Compiled, k: nat, src: Address)
    requires CompilesTo(s, c) && k < |s.domains| && ValidAddress(src) && InSource(s.domains[k], src)
    ensures exists q :: q in c.rules && q.source.Some? && Contains(q.source.value, src)
    ensures forall q :: q in c.rules && q.source.Some? && Contains(q.source.value, src) ==> ToDomain(s.domains[k], q)
  {
    var d := s.domains[k];
    var l: nat :| l < |d.sources| && Contains(d.sources[l], src);
    SourceRuleIsThere(s, c, k, l);
    forall q | q in c.rules && q.source.Some? && Contains(q.source.value, src) ensures ToDomain(d, q) {
      RuleShape(s, c, q);
      var j: nat :| j < |s.domains| && ToDomain(s.domains[j], q);
      var i: nat :| i < |s.domains[j].sources| && s.domains[j].sources[i] == q.source.value;
      SourcesAreDisjoint(s, j, i, k, l, src);
    }
  }

  lemma SourceRuleIsThere(s: NodeSpec, c: Compiled, k: nat, l: nat)
    requires CompilesTo(s, c) && k < |s.domains| && l < |s.domains[k].sources|
    ensures RulePlan(s.domains[k].table, DOMAIN_RULE_PRIORITY, Some(s.domains[k].sources[l]), None) in c.rules
  {
    var d := s.domains[k];
    var q := RulePlan(d.table, DOMAIN_RULE_PRIORITY, Some(d.sources[l]), None);
    SourceRulesAreAsked(s.fabricTable, d.table, d.sources, l);
    DomainRulesAreAsked(s.fabricTable, s.domains, k, q);
    assert ToDomain(s.domains[k], q);
    RuleIsThere(s, c, q);
  }

  /** Only two kinds of rule match a packet from a source of Domain k. */
  lemma MatchingRules(s: NodeSpec, c: Compiled, k: nat, src: Address, dst: Address, q: RulePlan)
    requires PacketOf(s, c, k, src, dst) && q in c.rules && RuleMatches(q, src, dst)
    ensures
      || (q.table == s.fabricTable && q.priority == FABRIC_RULE_PRIORITY && (InPool(s, dst) || InSomeSource(s, dst)))
      || (q.table == s.domains[k].table && q.priority == DOMAIN_RULE_PRIORITY)
  {
    RuleShape(s, c, q);
    if ToShared(s, q) {
      if q.destination.value in s.pools {
        var i :| 0 <= i < |s.pools| && s.pools[i] == q.destination.value;
        assert InPool(s, dst);
      } else {
        var j: nat :| j < |s.domains| && q.destination.value in s.domains[j].sources;
        assert InSource(s.domains[j], dst);
      }
    } else {
      SourceSelectsDomain(s, c, k, src);
    }
  }

  lemma DomainRuleIsThere(s: NodeSpec, c: Compiled, k: nat, src: Address, dst: Address)
    requires PacketOf(s, c, k, src, dst)
    ensures exists q :: q in c.rules && RuleMatches(q, src, dst) && ToDomain(s.domains[k], q)
  {
    SourceSelectsDomain(s, c, k, src);
    var q :| q in c.rules && q.source.Some? && Contains(q.source.value, src);
    assert RuleMatches(q, src, dst);
  }

  lemma SharedRuleIsThere(s: NodeSpec, c: Compiled, src: Address, dst: Address)
    requires CompilesTo(s, c) && (InPool(s, dst) || InSomeSource(s, dst))
    ensures exists q :: q in c.rules && RuleMatches(q, src, dst) && ToShared(s, q)
  {
    if InPool(s, dst) {
      var i :| 0 <= i < |s.pools| && Contains(s.pools[i], dst);
      var q := PoolRules(s.fabricTable, s.pools)[i];
      assert q in AllRules(s) && ToShared(s, q);
      RuleIsThere(s, c, q);
    } else {
      var j: nat :| j < |s.domains| && InSource(s.domains[j], dst);
      var d := s.domains[j];
      var i :| 0 <= i < |d.sources| && Contains(d.sources[i], dst);
      var q := RulePlan(s.fabricTable, FABRIC_RULE_PRIORITY, None, Some(d.sources[i]));
      SourceRulesAreAsked(s.fabricTable, d.table, d.sources, i);
      DomainRulesAreAsked(s.fabricTable, s.domains, j, q);
      assert q.destination.value in s.domains[j].sources;
      RuleIsThere(s, c, q);
    }
  }

  /** A packet from a Domain's source reaches exactly one table first: the shared one if it goes to the infrastructure
      or to a source of any Domain, and its own Domain's otherwise. */
  lemma PacketReaches(s: NodeSpec, c: Compiled, k: nat, src: Address, dst: Address, table: int)
    requires PacketOf(s, c, k, src, dst)
    ensures
      Reaches(c.rules, src, dst, table)
      <==> table == if InPool(s, dst) || InSomeSource(s, dst) then s.fabricTable else s.domains[k].table
  {
    forall q | q in c.rules && RuleMatches(q, src, dst)
      ensures (q.table == s.fabricTable && q.priority == FABRIC_RULE_PRIORITY
               && (InPool(s, dst) || InSomeSource(s, dst)))
           || (q.table == s.domains[k].table && q.priority == DOMAIN_RULE_PRIORITY) {
      MatchingRules(s, c, k, src, dst, q);
    }
    DomainRuleIsThere(s, c, k, src, dst);
    if InPool(s, dst) || InSomeSource(s, dst) {
      SharedRuleIsThere(s, c, src, dst);
      var q :| q in c.rules && RuleMatches(q, src, dst) && ToShared(s, q);
      assert FirstRule(c.rules, src, dst, q);
    } else {
      var q :| q in c.rules && RuleMatches(q, src, dst) && ToDomain(s.domains[k], q);
      assert FirstRule(c.rules, src, dst, q);
    }
  }

  // ---------------------------------------------------------------- what decides

  /** The two tables a packet can be looked up in. */
  ghost predicate DecidedIn(s: NodeSpec, c: Compiled, k: nat, dst: Address, r: RoutePlan)
    requires k < |s.domains|
  {
    var shared := InPool(s, dst) || InSomeSource(s, dst);
    || (shared && Resolves(c.routes, s.fabricTable, dst, r))
    || ((shared ==> Passes(c.routes, s.fabricTable, dst)) && Resolves(c.routes, s.domains[k].table, dst, r))
  }

  lemma DecidesIff(s: NodeSpec, c: Compiled, k: nat, src: Address, dst: Address, r: RoutePlan)
    requires PacketOf(s, c, k, src, dst)
    ensures Decides(c, src, dst, r) <==> !r.kind.Throw? && DecidedIn(s, c, k, dst, r)
  {
    forall q | q in c.rules && RuleMatches(q, src, dst)
      ensures (q.table == s.fabricTable && q.priority == FABRIC_RULE_PRIORITY
               && (InPool(s, dst) || InSomeSource(s, dst)))
           || (q.table == s.domains[k].table && q.priority == DOMAIN_RULE_PRIORITY) {
      MatchingRules(s, c, k, src, dst, q);
    }
    DomainRuleIsThere(s, c, k, src, dst);
    var own :| own in c.rules && RuleMatches(own, src, dst) && ToDomain(s.domains[k], own);
    if InPool(s, dst) || InSomeSource(s, dst) {
      SharedRuleIsThere(s, c, src, dst);
      var q :| q in c.rules && RuleMatches(q, src, dst) && ToShared(s, q);
      assert Comes(c, src, dst, q);
      assert Passes(c.routes, s.fabricTable, dst) ==> Comes(c, src, dst, own);
    } else {
      assert Comes(c, src, dst, own);
    }
  }

  lemma LeavesIff(s: NodeSpec, c: Compiled, k: nat, src: Address, dst: Address)
    requires PacketOf(s, c, k, src, dst)
    ensures
      var shared := InPool(s, dst) || InSomeSource(s, dst);
      Leaves(c, src, dst)
      <==> (Passes(c.routes, s.domains[k].table, dst) && (shared ==> Passes(c.routes, s.fabricTable, dst)))
  {
    forall q | q in c.rules && RuleMatches(q, src, dst)
      ensures (q.table == s.fabricTable && (InPool(s, dst) || InSomeSource(s, dst))) || q.table == s.domains[k].table {
      MatchingRules(s, c, k, src, dst, q);
    }
    DomainRuleIsThere(s, c, k, src, dst);
    if InPool(s, dst) || InSomeSource(s, dst) {
      SharedRuleIsThere(s, c, src, dst);
    }
  }

  // ---------------------------------------------------------------- infrastructure in the shared table

  /** Nothing a Domain puts into the shared table holds an address of a pool. */
  lemma DomainsAvoidPools(s: NodeSpec, j: nat, r: RoutePlan, a: Address)
    requires PrefixesAreValid(s) && ValidRouting(s) && j < |s.domains| && ValidAddress(a) && InPool(s, a)
    requires FromDomain(s, s.domains[j], r) && r.table == s.fabricTable
    ensures !Contains(r.prefix, a)
  {
    var d := s.domains[j];
    var n :| 0 <= n < |s.pools| && Contains(s.pools[n], a);
    assert r.table != d.table;
    if Contains(r.prefix, a) {
      if exists i | 0 <= i < |d.sources| :: r == Guard(r.table, d.sources[i]) {
        var i :| 0 <= i < |d.sources| && r == Guard(r.table, d.sources[i]);
        SourcesAvoidPools(s, j, i, n, a);
      } else {
        var i :| 0 <= i < |d.sources| && d.sources[i].family == r.prefix.family
            && |d.sources[i].bits| <= |r.prefix.bits|
                 && Contains(d.sources[i], Base(r.prefix));
        ContainedMeansWithin(r.prefix, d.sources[i]);
        WithinContains(r.prefix, d.sources[i], a);
        SourcesAvoidPools(s, j, i, n, a);
      }
    }
  }

  lemma {:induction false} PoolGuarded(pools: seq<Prefix>, tables: seq<int>, i: nat, t: nat)
    requires i < |pools| && t < |tables|
    ensures Guard(tables[t], pools[i]) in PoolGuards(pools, tables)
  {
    var init, last := pools[..|pools| - 1], pools[|pools| - 1];
    if i < |pools| - 1 {
      PoolGuarded(init, tables, i, t);
    } else {
      assert GuardAll(last, tables)[t] == Guard(tables[t], last);
    }
  }

  /** An address of a pool resolves in the shared table, to infrastructure only, and so is never passed on. */
  lemma PoolsAreDecided(s: NodeSpec, c: Compiled, a: Address)
    requires CompilesTo(s, c) && ValidAddress(a) && InPool(s, a)
    ensures exists r :: Resolves(c.routes, s.fabricTable, a, r)
    ensures forall r :: Resolves(c.routes, s.fabricTable, a, r) ==> FromFabric(s, r)
  {
    var i: nat :| i < |s.pools| && Contains(s.pools[i], a);
    var guard := Guard(s.fabricTable, s.pools[i]);
    assert Tables(s)[0] == s.fabricTable;
    PoolGuarded(s.pools, Tables(s), i, 0);
    assert guard in AllPlans(s).value;
    AskedAreKept([], AllPlans(s).value, guard);
    var q :| q in c.routes && RouteKey(q) == RouteKey(guard);
    SomeResolves(c.routes, s.fabricTable, a, q);
    forall r | Resolves(c.routes, s.fabricTable, a, r) ensures FromFabric(s, r) {
      KeptHasOrigin(s, c, r);
      if !FromFabric(s, r) {
        var j: nat :| j < |s.domains| && FromDomain(s, s.domains[j], r);
        DomainsAvoidPools(s, j, r, a);
      }
    }
  }

  /** Outside the pools a Domain's own table holds an address only by what that Domain asks for. */
  lemma OwnTableIsOwn(s: NodeSpec, c: Compiled, k: nat, a: Address, r: RoutePlan)
    requires CompilesTo(s, c) && k < |s.domains| && ValidAddress(a) && !InPool(s, a)
    requires Resolves(c.routes, s.domains[k].table, a, r)
    ensures FromDomain(s, s.domains[k], r)
  {
    KeptHasOrigin(s, c, r);
    if FromFabric(s, r) {
      FabricIsInPools(s, r, a);
    } else {
      var j: nat :| j < |s.domains| && FromDomain(s, s.domains[j], r);
      TablesAreDistinct(s, k);
    }
  }

  lemma FabricIsInPools(s: NodeSpec, r: RoutePlan, a: Address)
    requires PrefixesAreValid(s) && ValidRouting(s) && FromFabric(s, r) && Contains(r.prefix, a)
    ensures InPool(s, a)
  {
    if r.kind.ViaPeer? {
      var i :| 0 <= i < |Flat(s.fabricRoutes)| && Flat(s.fabricRoutes)[i] == Route(r.prefix, r.metric);
      assert PrefixContained(r.prefix, s.pools);
      var j :| 0 <= j < |s.pools| && s.pools[j].family == r.prefix.family && |s.pools[j].bits| <= |r.prefix.bits|
               && Contains(s.pools[j], Base(r.prefix));
      ContainedMeansWithin(r.prefix, s.pools[j]);
      WithinContains(r.prefix, s.pools[j], a);
    }
  }

  // ---------------------------------------------------------------- results

  /** Who may decide a packet of Domain k: infrastructure for an address of a pool; for an address of a source the
      source's Domain, by a route inside that source or its guard, or, where that Domain announces the address itself,
      Domain k; and Domain k for everything else. */
  ghost predicate MayDecide(s: NodeSpec, k: nat, dst: Address, r: RoutePlan)
    requires PrefixesAreValid(s) && k < |s.domains|
  {
    if InPool(s, dst) then FromFabric(s, r)
    else if InSomeSource(s, dst) then
      exists j: nat, i: nat :: j < |s.domains| && i < |s.domains[j].sources| && Contains(s.domains[j].sources[i], dst)
        && (Belongs(s.domains[j], s.domains[j].sources[i], r)
            || (Announces(s.domains[j], dst) && FromDomain(s, s.domains[k], r)))
    else FromDomain(s, s.domains[k], r) && r.table == s.domains[k].table
  }

  /** Every packet from a Domain's source is decided by a route that may, or falls to the host, which happens only where
      the Domain itself announces the destination and never for infrastructure. */
  lemma PacketStays(s: NodeSpec, c: Compiled, k: nat, src: Address, dst: Address)
    requires PacketOf(s, c, k, src, dst)
    ensures Leaves(c, src, dst) || exists r :: Decides(c, src, dst, r)
    ensures forall r :: Decides(c, src, dst, r) ==> MayDecide(s, k, dst, r)
    ensures Leaves(c, src, dst) ==> Announces(s.domains[k], dst) && !InPool(s, dst)
  {
    SomethingDecides(s, c, k, src, dst);
    forall r | Decides(c, src, dst, r) ensures MayDecide(s, k, dst, r) {
      DeciderMay(s, c, k, src, dst, r);
    }
    if Leaves(c, src, dst) {
      LeavesByAnnouncement(s, c, k, src, dst);
    }
  }

  lemma SomethingDecides(s: NodeSpec, c: Compiled, k: nat, src: Address, dst: Address)
    requires PacketOf(s, c, k, src, dst)
    ensures Leaves(c, src, dst) || exists r :: Decides(c, src, dst, r)
  {
    LeavesIff(s, c, k, src, dst);
    if !Leaves(c, src, dst) {
      if (InPool(s, dst) || InSomeSource(s, dst)) && !Passes(c.routes, s.fabricTable, dst) {
        var r :| Resolves(c.routes, s.fabricTable, dst, r);
        DecidesIff(s, c, k, src, dst, r);
      } else {
        var r :| Resolves(c.routes, s.domains[k].table, dst, r);
        DecidesIff(s, c, k, src, dst, r);
      }
    }
  }

  lemma DeciderMay(s: NodeSpec, c: Compiled, k: nat, src: Address, dst: Address, r: RoutePlan)
    requires PacketOf(s, c, k, src, dst) && Decides(c, src, dst, r)
    ensures MayDecide(s, k, dst, r)
  {
    DecidesIff(s, c, k, src, dst, r);
    if InPool(s, dst) {
      PoolsAreDecided(s, c, dst);
    } else if InSomeSource(s, dst) {
      SourceDecides(s, c, k, dst, r);
    } else {
      OwnTableIsOwn(s, c, k, dst, r);
    }
  }

  lemma SourceDecides(s: NodeSpec, c: Compiled, k: nat, dst: Address, r: RoutePlan)
    requires CompilesTo(s, c) && k < |s.domains| && ValidAddress(dst)
    requires !InPool(s, dst) && InSomeSource(s, dst) && DecidedIn(s, c, k, dst, r)
    ensures MayDecide(s, k, dst, r)
  {
    var j: nat :| j < |s.domains| && InSource(s.domains[j], dst);
    var i: nat :| i < |s.domains[j].sources| && Contains(s.domains[j].sources[i], dst);
    StaysInSource(s, c, j, i, s.fabricTable, dst);
    if !Resolves(c.routes, s.fabricTable, dst, r) {
      var t :| Resolves(c.routes, s.fabricTable, dst, t) && t.kind.Throw?;
      ThrowIsAnnounced(s.domains[j], s.domains[j].sources[i], t, dst);
      OwnTableIsOwn(s, c, k, dst, r);
    }
  }

  lemma ThrowIsAnnounced(d: Domain, p: Prefix, t: RoutePlan, a: Address)
    requires Belongs(d, p, t) && t.kind.Throw? && Contains(t.prefix, a)
    ensures Announces(d, a)
  {
  }

  lemma LeavesByAnnouncement(s: NodeSpec, c: Compiled, k: nat, src: Address, dst: Address)
    requires PacketOf(s, c, k, src, dst) && Leaves(c, src, dst)
    ensures Announces(s.domains[k], dst) && !InPool(s, dst)
  {
    LeavesIff(s, c, k, src, dst);
    var l :| 0 <= l < |s.domains[k].sources| && Contains(s.domains[k].sources[l], src);
    assert HasFamily(s.domains[k].sources, dst.family);
    FailsClosed(s, c, k, dst);
    if InPool(s, dst) {
      PoolsAreDecided(s, c, dst);
    }
  }

  // ---------------------------------------------------------------- isolation of packets

  /** In the shared table an address of a pool meets the infrastructure alone. */
  lemma PoolSelected(s: NodeSpec, c: Compiled, a: Address)
    requires CompilesTo(s, c) && ValidAddress(a) && InPool(s, a)
    ensures PeerPlans(s.fabricRoutes, s.fabricTable, s.links).Some?
    ensures
      var f := Focus(s.fabricTable, Some(a));
      Select(f, Select(Focus(s.fabricTable, None), c.routes))
          == AddRoutes([], Select(f, Infrastructure(s, s.fabricTable)))
  {
    var all, f := Focus(s.fabricTable, None), Focus(s.fabricTable, Some(a));
    var fabric := PeerPlans(s.fabricRoutes, s.fabricTable, s.links).value;
    var pools, routes, domains := PoolGuards(s.pools, Tables(s)), Shared(fabric, Tables(s)),
        AllDomainPlans(s, s.domains).value;
    SelectDeduped(all, pools + routes + domains);
    SelectConcat(all, pools + routes, domains);
    SelectConcat(all, pools, routes);
    SharedTableOnce(s);
    PoolsSelected(s.pools, Tables(s), s.fabricTable, 0);
    SharedSelected(fabric, Tables(s), s.fabricTable, 0);
    SelectDeduped(f, Infrastructure(s, s.fabricTable) + Select(all, domains));
    SelectConcat(f, Infrastructure(s, s.fabricTable), Select(all, domains));
    Selected(all, domains);
    forall r | r in Select(all, domains) ensures !Relevant(f, r) {
      FromSomeDomain(s, s.domains, r);
      var j: nat :| j < |s.domains| && FromDomain(s, s.domains[j], r);
      DomainsAvoidPools(s, j, r, a);
    }
    NothingSelected(f, Select(all, domains));
    assert Select(f, Infrastructure(s, s.fabricTable)) + [] == Select(f, Infrastructure(s, s.fabricTable));
  }

  lemma SharedTableOnce(s: NodeSpec)
    requires PrefixesAreValid(s) && ValidRouting(s)
    ensures Once(Tables(s), s.fabricTable, 0)
  {
    forall i | 0 <= i < |Tables(s)| && i != 0 ensures Tables(s)[i] != s.fabricTable {
      assert Tables(s)[i] == s.domains[i - 1].table;
    }
  }

  lemma PoolLookupIsIsolated(s: NodeSpec, c: Compiled, t: NodeSpec, e: Compiled, k: nat, m: nat, a: Address,
      r: RoutePlan)
    requires CompilesTo(s, c) && CompilesTo(t, e) && AgreeOn(s, t, k, m) && ValidAddress(a) && InPool(s, a)
    ensures Resolves(c.routes, s.fabricTable, a, r) <==> Resolves(e.routes, s.fabricTable, a, r)
  {
    var all, f := Focus(s.fabricTable, None), Focus(s.fabricTable, Some(a));
    assert InPool(t, a);
    PoolSelected(s, c, a);
    PoolSelected(t, e, a);
    ResolvesBySelection(all, c.routes, a, r);
    ResolvesBySelection(all, e.routes, a, r);
    ResolvesBySelection(f, Select(all, c.routes), a, r);
    ResolvesBySelection(f, Select(all, e.routes), a, r);
  }

  /** Only Domain k, if any, has the destination in a source. */
  predicate NotToOthers(s: NodeSpec, k: nat, dst: Address) {
    forall j | 0 <= j < |s.domains| && j != k :: !InSource(s.domains[j], dst)
  }

  /** A packet from a Domain's source to anywhere but another Domain's source is decided alike whatever other Domains
      the node has. */
  lemma PacketsAreIsolated(s: NodeSpec, c: Compiled, t: NodeSpec, e: Compiled, k: nat, m: nat, src: Address,
      dst: Address)
    requires PacketOf(s, c, k, src, dst) && PacketOf(t, e, m, src, dst) && AgreeOn(s, t, k, m)
    requires NotToOthers(s, k, dst) && NotToOthers(t, m, dst)
    ensures Leaves(c, src, dst) <==> Leaves(e, src, dst)
    ensures forall r :: Decides(c, src, dst, r) <==> Decides(e, src, dst, r)
  {
    SameAudience(s, t, k, m, dst);
    if InPool(s, dst) || InSomeSource(s, dst) {
      forall r ensures Resolves(c.routes, s.fabricTable, dst, r) <==> Resolves(e.routes, s.fabricTable, dst, r) {
        SharedLookupIsIsolated(s, c, t, e, k, m, dst, r);
      }
      assert Passes(c.routes, s.fabricTable, dst) <==> Passes(e.routes, s.fabricTable, dst);
    }
    forall r ensures Resolves(c.routes, s.domains[k].table, dst, r)
        <==> Resolves(e.routes, s.domains[k].table, dst, r) {
      OwnTableIsIsolated(s, c, t, e, k, m, dst, r);
    }
    LeavesIff(s, c, k, src, dst);
    LeavesIff(t, e, m, src, dst);
    forall r ensures Decides(c, src, dst, r) <==> Decides(e, src, dst, r) {
      DecidesIff(s, c, k, src, dst, r);
      DecidesIff(t, e, m, src, dst, r);
    }
  }

  lemma SameAudience(s: NodeSpec, t: NodeSpec, k: nat, m: nat, dst: Address)
    requires AgreeOn(s, t, k, m) && NotToOthers(s, k, dst) && NotToOthers(t, m, dst)
    ensures InPool(s, dst) == InPool(t, dst)
    ensures InSomeSource(s, dst) == InSource(s.domains[k], dst) == InSomeSource(t, dst)
  {
    if InSource(s.domains[k], dst) {
      assert InSource(t.domains[m], dst);
    }
  }

  lemma SharedLookupIsIsolated(s: NodeSpec, c: Compiled, t: NodeSpec, e: Compiled, k: nat, m: nat, a: Address,
      r: RoutePlan)
    requires CompilesTo(s, c) && CompilesTo(t, e) && AgreeOn(s, t, k, m) && ValidAddress(a)
    requires InPool(s, a) || InSource(s.domains[k], a)
    ensures Resolves(c.routes, s.fabricTable, a, r) <==> Resolves(e.routes, s.fabricTable, a, r)
  {
    if InPool(s, a) {
      PoolLookupIsIsolated(s, c, t, e, k, m, a, r);
    } else {
      var l: nat :| l < |s.domains[k].sources| && Contains(s.domains[k].sources[l], a);
      SharedTableIsIsolated(s, c, t, e, k, m, l, a, r);
    }
  }
}

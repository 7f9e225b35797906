/** What the compiled tables mean: longest prefix first (section 5.2.4.3 of RFC 1812), then lowest metric. For every
    valid specification and every address a Domain's lookups never miss, stay inside the Domain's own sources, and do
    not depend on any other Domain. */
module RoutingLookup {
  import opened Common
  import opened Net
  import opened Routing
  import opened RoutingCompiler

  /** r is what the table gives for the address: no matching route is longer, or as long and cheaper. */
  ghost predicate Resolves(routes: seq<RoutePlan>, table: int, a: Address, r: RoutePlan) {
    && r in routes && Matches(table, a, r)
    && forall q :: q in routes && Matches(table, a, q) ==> !Better(q, r)
  }

  predicate Matches(table: int, a: Address, r: RoutePlan) {
    r.table == table && Contains(r.prefix, a)
  }

  predicate Better(q: RoutePlan, r: RoutePlan) {
    |q.prefix.bits| > |r.prefix.bits| || (|q.prefix.bits| == |r.prefix.bits| && Metric(q) < Metric(r))
  }

  lemma {:induction false} SomeResolves(routes: seq<RoutePlan>, table: int, a: Address, r: RoutePlan)
    requires r in routes && Matches(table, a, r)
    ensures exists best :: Resolves(routes, table, a, best)
  {
    var init, last := routes[..|routes| - 1], routes[|routes| - 1];
    assert routes == init + [last];
    if exists q :: q in init && Matches(table, a, q) {
      var q :| q in init && Matches(table, a, q);
      SomeResolves(init, table, a, q);
      var best :| Resolves(init, table, a, best);
      if Matches(table, a, last) && Better(last, best) {
        assert Resolves(routes, table, a, last);
      } else {
        assert Resolves(routes, table, a, best);
      }
    } else {
      assert Resolves(routes, table, a, last);
    }
  }

  /** A specification that passes validation, and what it compiles to. */
  ghost predicate CompilesTo(s: NodeSpec, c: Compiled) {
    PrefixesAreValid(s) && ValidRouting(s) && Compile(s) == Some(c)
  }

  // ---------------------------------------------------------------- sources are disjoint

  lemma {:induction false} SourcePosition(ds: seq<Domain>, k: nat, i: nat)
    requires k < |ds| && i < |ds[k].sources|
    ensures |SourcesOf(ds[..k])| + i < |SourcesOf(ds)|
    ensures SourcesOf(ds)[|SourcesOf(ds[..k])| + i] == ds[k].sources[i]
  {
    var init := ds[..|ds| - 1];
    if k < |ds| - 1 {
      SourcePosition(init, k, i);
      assert init[..k] == ds[..k];
    }
  }

  lemma {:induction false} PositionsGrow(ds: seq<Domain>, j: nat, k: nat)
    requires j < k <= |ds|
    ensures |SourcesOf(ds[..j])| + |ds[j].sources| <= |SourcesOf(ds[..k])|
  {
    assert ds[..k][..k - 1] == ds[..k - 1];
    if j < k - 1 {
      PositionsGrow(ds, j, k - 1);
    } else {
      assert ds[..j + 1][..j] == ds[..j];
    }
  }

  function Position(ds: seq<Domain>, k: nat, i: nat): nat
    requires k < |ds|
  {
    |SourcesOf(ds[..k])| + i
  }

  lemma PositionsDiffer(ds: seq<Domain>, j: nat, i: nat, k: nat, l: nat)
    requires j < |ds| && i < |ds[j].sources| && k < |ds| && l < |ds[k].sources|
    requires Position(ds, j, i) == Position(ds, k, l)
    ensures j == k && i == l
  {
    if j < k {
      PositionsGrow(ds, j, k);
    } else if k < j {
      PositionsGrow(ds, k, j);
    }
  }

  lemma DomainsApart(pools: seq<Prefix>, ds: seq<Domain>, j: nat, i: nat, k: nat, l: nat, a: Address)
    requires forall n | 0 <= n < |pools| :: ValidPrefix(pools[n])
    requires forall n | 0 <= n < |SourcesOf(ds)| :: ValidPrefix(SourcesOf(ds)[n])
    requires SourcesOk(pools, SourcesOf(ds))
    requires j < |ds| && i < |ds[j].sources| && k < |ds| && l < |ds[k].sources|
    requires ValidAddress(a) && Contains(ds[j].sources[i], a) && Contains(ds[k].sources[l], a)
    ensures j == k && i == l
  {
    var all, x, y := SourcesOf(ds), Position(ds, j, i), Position(ds, k, l);
    SourcePosition(ds, j, i);
    SourcePosition(ds, k, l);
    if x < y {
      SourcesApart(pools, all, x, y, a);
    } else if y < x {
      SourcesApart(pools, all, y, x, a);
    } else {
      PositionsDiffer(ds, j, i, k, l);
    }
  }

  /** No address is in two sources of a valid specification, or in a source and a pool. */
  lemma SourcesAreDisjoint(s: NodeSpec, j: nat, i: nat, k: nat, l: nat, a: Address)
    requires PrefixesAreValid(s) && ValidRouting(s)
    requires j < |s.domains| && i < |s.domains[j].sources| && k < |s.domains| && l < |s.domains[k].sources|
    requires ValidAddress(a) && Contains(s.domains[j].sources[i], a) && Contains(s.domains[k].sources[l], a)
    ensures j == k && i == l
  {
    SourcesAreValid(s.domains);
    DomainsApart(s.pools, s.domains, j, i, k, l, a);
  }

  lemma SourcesApart(pools: seq<Prefix>, all: seq<Prefix>, x: nat, y: nat, a: Address)
    requires forall i | 0 <= i < |pools| :: ValidPrefix(pools[i])
    requires forall i | 0 <= i < |all| :: ValidPrefix(all[i])
    requires SourcesOk(pools, all) && x < y < |all| && ValidAddress(a)
    ensures !(Contains(all[x], a) && Contains(all[y], a))
  {
    OverlapMeansShared(all[y], all[x]);
    assert SourceOk(pools, all[..y], all[y]) && all[..y][x] == all[x];
  }

  lemma SourcesAvoidPools(s: NodeSpec, k: nat, l: nat, i: nat, a: Address)
    requires PrefixesAreValid(s) && ValidRouting(s)
    requires k < |s.domains| && l < |s.domains[k].sources| && i < |s.pools|
    requires ValidAddress(a) && Contains(s.domains[k].sources[l], a)
    ensures !Contains(s.pools[i], a) && s.domains[k].sources[l].bits != []
  {
    var all := SourcesOf(s.domains);
    SourcePosition(s.domains, k, l);
    var y := |SourcesOf(s.domains[..k])| + l;
    SourcesAreValid(s.domains);
    OverlapMeansShared(all[y], s.pools[i]);
    assert SourceOk(s.pools, all[..y], all[y]);
  }

  lemma SourceIsNotEverything(s: NodeSpec, k: nat, l: nat)
    requires PrefixesAreValid(s) && ValidRouting(s) && k < |s.domains| && l < |s.domains[k].sources|
    ensures s.domains[k].sources[l].bits != []
  {
    var all := SourcesOf(s.domains);
    SourcePosition(s.domains, k, l);
    SourcesAreValid(s.domains);
    var y := |SourcesOf(s.domains[..k])| + l;
    assert SourceOk(s.pools, all[..y], all[y]);
  }

  // ---------------------------------------------------------------- where a route comes from

  lemma {:induction false} FromPool(pools: seq<Prefix>, tables: seq<int>, r: RoutePlan)
    requires r in PoolGuards(pools, tables)
    ensures r.kind.Unreachable? && exists i :: 0 <= i < |pools| && r.prefix == pools[i]
  {
    var init, last := pools[..|pools| - 1], pools[|pools| - 1];
    if r in PoolGuards(init, tables) {
      FromPool(init, tables, r);
    } else {
      assert r in GuardAll(last, tables);
    }
  }

  lemma {:induction false} FromShared(plans: seq<RoutePlan>, tables: seq<int>, r: RoutePlan)
    requires r in Shared(plans, tables)
    ensures exists i :: 0 <= i < |plans| && r == plans[i].(table := r.table)
  {
    var init, last := plans[..|plans| - 1], plans[|plans| - 1];
    if r in Shared(init, tables) {
      FromShared(init, tables, r);
    } else {
      assert r in InTables(last, tables);
    }
  }

  lemma {:induction false} FromSources(fabricTable: int, table: int, sources: seq<Prefix>, r: RoutePlan)
    requires r in SourceGuards(fabricTable, table, sources)
    ensures exists i ::
        0 <= i < |sources| && r == Guard(r.table, sources[i]) && (r.table == table || r.table == fabricTable)
  {
    var init := sources[..|sources| - 1];
    if r in SourceGuards(fabricTable, table, init) {
      FromSources(fabricTable, table, init, r);
    }
  }

  lemma {:induction false} FromReturns(fabricTable: int, d: Domain, plans: seq<RoutePlan>, r: RoutePlan)
    requires forall i | 0 <= i < |plans| :: ValidPrefix(plans[i].prefix)
    requires r in Returns(fabricTable, d, plans)
    ensures exists i :: 0 <= i < |plans| &&
              (r == plans[i] || (r == plans[i].(table := fabricTable) && IsAccessPrefix(d, plans[i].prefix)))
  {
    var init := plans[..|plans| - 1];
    if r in Returns(fabricTable, d, init) {
      FromReturns(fabricTable, d, init, r);
    } else {
      assert r in WithReturn(fabricTable, d, plans[|plans| - 1]);
    }
  }

  /** A static route or an announcement of the Domain. */
  predicate Configured(d: Domain, r: RoutePlan) {
    || (r.kind.ViaPeer? && exists i | 0 <= i < |Flat(d.routes)| :: Flat(d.routes)[i] == Route(r.prefix, r.metric))
    || (r.kind.Throw? && r.metric.None? && exists i | 0 <= i < |d.announcements| ::
        d.announcements[i].prefix == r.prefix)
  }

  /** The four ways a Domain puts a route into its own table or the shared one. */
  predicate FromDomain(s: NodeSpec, d: Domain, r: RoutePlan)
    requires DomainPrefixesAreValid(d)
  {
    && (r.table == d.table || r.table == s.fabricTable)
    && (|| (exists i | 0 <= i < |d.sources| :: r == Guard(r.table, d.sources[i]))
        || (r.table == d.table && r.kind.Unreachable? && r.prefix.bits == [])
        || (Configured(d, r) && ValidPrefix(r.prefix) && (r.table == d.table || IsAccessPrefix(d, r.prefix))))
  }

  lemma DomainOrigins(s: NodeSpec, d: Domain, r: RoutePlan)
    requires DomainPrefixesAreValid(d) && DomainPlans(s, d).Some? && r in DomainPlans(s, d).value
    ensures FromDomain(s, d, r)
  {
    var plans := PeerPlans(d.routes, d.table, s.links).value;
    PlansAreRoutes(d.routes, d.table, s.links);
    if r in SourceGuards(s.fabricTable, d.table, d.sources) {
      FromSources(s.fabricTable, d.table, d.sources, r);
    } else if r in ZeroGuards(d.table, CanonicalSources(d.sources)) {
    } else if r in Returns(s.fabricTable, d, plans) {
      FromReturns(s.fabricTable, d, plans, r);
      var i :| 0 <= i < |plans| && (r == plans[i]
                                    || (r == plans[i].(table := s.fabricTable) && IsAccessPrefix(d, plans[i].prefix)));
      assert Flat(d.routes)[i] == Route(r.prefix, r.metric);
    } else {
      var throws := Throws(d.table, d.announcements);
      FromReturns(s.fabricTable, d, throws, r);
      var i :| 0 <= i < |throws| && (r == throws[i]
                                     || (r == throws[i].(table := s.fabricTable)
                                         && IsAccessPrefix(d, throws[i].prefix)));
      assert d.announcements[i].prefix == r.prefix;
    }
  }

  lemma {:induction false} FromSomeDomain(s: NodeSpec, ds: seq<Domain>, r: RoutePlan)
    requires forall k | 0 <= k < |ds| :: DomainPrefixesAreValid(ds[k])
    requires AllDomainPlans(s, ds).Some? && r in AllDomainPlans(s, ds).value
    ensures exists k: nat :: k < |ds| && FromDomain(s, ds[k], r)
  {
    var init, last := ds[..|ds| - 1], ds[|ds| - 1];
    if r in AllDomainPlans(s, init).value {
      FromSomeDomain(s, init, r);
    } else {
      DomainOrigins(s, last, r);
    }
  }

  predicate FromFabric(s: NodeSpec, r: RoutePlan) {
    || (r.kind.Unreachable? && exists i | 0 <= i < |s.pools| :: r.prefix == s.pools[i])
    || (r.kind.ViaPeer? && exists i | 0 <= i < |Flat(s.fabricRoutes)| ::
        Flat(s.fabricRoutes)[i] == Route(r.prefix, r.metric))
  }

  lemma Origins(s: NodeSpec, r: RoutePlan)
    requires PrefixesAreValid(s) && AllPlans(s).Some? && r in AllPlans(s).value
    ensures FromFabric(s, r) || exists k: nat :: k < |s.domains| && FromDomain(s, s.domains[k], r)
  {
    var fabric := PeerPlans(s.fabricRoutes, s.fabricTable, s.links).value;
    PlansAreRoutes(s.fabricRoutes, s.fabricTable, s.links);
    if r in PoolGuards(s.pools, Tables(s)) {
      FromPool(s.pools, Tables(s), r);
    } else if r in Shared(fabric, Tables(s)) {
      FromShared(fabric, Tables(s), r);
      var i :| 0 <= i < |fabric| && r == fabric[i].(table := r.table);
      assert Flat(s.fabricRoutes)[i] == Route(r.prefix, r.metric);
    } else {
      FromSomeDomain(s, s.domains, r);
    }
  }

  /** Infrastructure routes hold no address of a source. */
  lemma FabricAvoidsSources(s: NodeSpec, k: nat, l: nat, r: RoutePlan, a: Address)
    requires PrefixesAreValid(s) && ValidRouting(s) && k < |s.domains| && l < |s.domains[k].sources|
    requires ValidAddress(a) && Contains(s.domains[k].sources[l], a) && FromFabric(s, r)
    ensures !Contains(r.prefix, a)
  {
    if r.kind.Unreachable? {
      var i :| 0 <= i < |s.pools| && r.prefix == s.pools[i];
      SourcesAvoidPools(s, k, l, i, a);
    } else {
      var i :| 0 <= i < |Flat(s.fabricRoutes)| && Flat(s.fabricRoutes)[i] == Route(r.prefix, r.metric);
      assert PrefixContained(r.prefix, s.pools);
      var j :| 0 <= j < |s.pools| && s.pools[j].family == r.prefix.family && |s.pools[j].bits| <= |r.prefix.bits|
               && Contains(s.pools[j], Base(r.prefix));
      ContainedMeansWithin(r.prefix, s.pools[j]);
      SourcesAvoidPools(s, k, l, j, a);
      if Contains(r.prefix, a) {
        WithinContains(r.prefix, s.pools[j], a);
      }
    }
  }

  // ---------------------------------------------------------------- what the tables hold

  lemma {:induction false} SourceGuarded(fabricTable: int, table: int, sources: seq<Prefix>, i: nat)
    requires i < |sources|
    ensures Guard(fabricTable, sources[i]) in SourceGuards(fabricTable, table, sources)
    ensures Guard(table, sources[i]) in SourceGuards(fabricTable, table, sources)
  {
    if i < |sources| - 1 {
      SourceGuarded(fabricTable, table, sources[..|sources| - 1], i);
    }
  }

  lemma {:induction false} FamilyIsCanonical(sources: seq<Prefix>, family: Family)
    requires HasFamily(sources, family)
    ensures HasFamily(CanonicalSources(sources), family)
  {
    var init, last := sources[..|sources| - 1], sources[|sources| - 1];
    var i :| 0 <= i < |sources| && sources[i].family == family;
    var before := CanonicalSources(init);
    if i < |sources| - 1 {
      assert init[i].family == family;
      FamilyIsCanonical(init, family);
      var j :| 0 <= j < |before| && before[j].family == family;
      assert CanonicalSources(sources)[j].family == family;
    } else if !HasFamily(before, family) {
      assert CanonicalSources(sources)[|before|] == last;
    }
  }

  lemma {:induction false} DomainCompiles(s: NodeSpec, ds: seq<Domain>, k: nat)
    requires forall j | 0 <= j < |ds| :: DomainPrefixesAreValid(ds[j])
    requires AllDomainPlans(s, ds).Some? && k < |ds|
    ensures DomainPlans(s, ds[k]).Some?
  {
    if k < |ds| - 1 {
      DomainCompiles(s, ds[..|ds| - 1], k);
    }
  }

  lemma {:induction false} DomainIsCompiled(s: NodeSpec, ds: seq<Domain>, k: nat, r: RoutePlan)
    requires forall j | 0 <= j < |ds| :: DomainPrefixesAreValid(ds[j])
    requires AllDomainPlans(s, ds).Some? && k < |ds|
    requires DomainPlans(s, ds[k]).Some? && r in DomainPlans(s, ds[k]).value
    ensures r in AllDomainPlans(s, ds).value
  {
    if k < |ds| - 1 {
      DomainIsCompiled(s, ds[..|ds| - 1], k, r);
    }
  }

  /** Whatever a Domain asks for, its table and the shared one have a route with the same prefix and metric. */
  lemma AskedIsThere(s: NodeSpec, c: Compiled, k: nat, r: RoutePlan)
    requires CompilesTo(s, c) && k < |s.domains|
    requires DomainPlans(s, s.domains[k]).Some? && r in DomainPlans(s, s.domains[k]).value
    ensures exists q :: q in c.routes && RouteKey(q) == RouteKey(r)
  {
    DomainIsCompiled(s, s.domains, k, r);
    AskedAreKept([], AllPlans(s).value, r);
  }

  lemma KeptHasOrigin(s: NodeSpec, c: Compiled, r: RoutePlan)
    requires CompilesTo(s, c) && r in c.routes
    ensures FromFabric(s, r) || exists k: nat :: k < |s.domains| && FromDomain(s, s.domains[k], r)
  {
    KeptAreAsked([], AllPlans(s).value);
    Origins(s, r);
  }

  // ---------------------------------------------------------------- a Domain's own table never misses

  /** A lookup in a Domain's table finds something for every address of a family the Domain has sources in. */
  lemma NeverMisses(s: NodeSpec, c: Compiled, k: nat, a: Address)
    requires CompilesTo(s, c) && k < |s.domains| && HasFamily(s.domains[k].sources, a.family)
    ensures exists r :: Resolves(c.routes, s.domains[k].table, a, r)
  {
    var d := s.domains[k];
    FamilyIsCanonical(d.sources, a.family);
    var canonical := CanonicalSources(d.sources);
    var i :| 0 <= i < |canonical| && canonical[i].family == a.family;
    var zero := ZeroGuards(d.table, canonical)[i];
    DomainCompiles(s, s.domains, k);
    assert zero in DomainPlans(s, d).value;
    AskedIsThere(s, c, k, zero);
    var q :| q in c.routes && RouteKey(q) == RouteKey(zero);
    SomeResolves(c.routes, d.table, a, q);
  }

  // ---------------------------------------------------------------- lookups inside a source stay there

  /** The Domain's unreachable guard of this source, or a route or announcement of its own inside it. */
  predicate Belongs(d: Domain, p: Prefix, r: RoutePlan) {
    Within(r.prefix, p) && (r == Guard(r.table, p) || Configured(d, r))
  }

  lemma GuardIsThere(s: NodeSpec, c: Compiled, k: nat, l: nat, table: int)
    requires CompilesTo(s, c) && k < |s.domains| && l < |s.domains[k].sources|
    requires table == s.domains[k].table || table == s.fabricTable
    ensures exists q :: q in c.routes && RouteKey(q) == RouteKey(Guard(table, s.domains[k].sources[l]))
  {
    var d := s.domains[k];
    var guard := Guard(table, d.sources[l]);
    SourceGuarded(s.fabricTable, d.table, d.sources, l);
    DomainCompiles(s, s.domains, k);
    assert guard in DomainPlans(s, d).value;
    AskedIsThere(s, c, k, guard);
  }

  /** A route that holds an address of a source and is at least as long as the source belongs to the source's Domain. */
  lemma LongRouteBelongs(s: NodeSpec, k: nat, l: nat, j: nat, r: RoutePlan, a: Address)
    requires PrefixesAreValid(s) && ValidRouting(s) && k < |s.domains| && l < |s.domains[k].sources| && j < |s.domains|
    requires ValidAddress(a) && Contains(s.domains[k].sources[l], a) && Contains(r.prefix, a)
    requires |r.prefix.bits| >= |s.domains[k].sources[l].bits|
    requires r.table == s.domains[k].table || r.table == s.fabricTable
    requires FromDomain(s, s.domains[j], r)
    ensures j == k && Belongs(s.domains[k], s.domains[k].sources[l], r)
  {
    var d, p := s.domains[j], s.domains[k].sources[l];
    CommonAddressOverlaps(p, r.prefix, a);
    SourceIsNotEverything(s, k, l);
    if exists i | 0 <= i < |d.sources| :: r == Guard(r.table, d.sources[i]) {
      var i :| 0 <= i < |d.sources| && r == Guard(r.table, d.sources[i]);
      SourcesAreDisjoint(s, j, i, k, l, a);
    } else if r.table == s.fabricTable {
      assert r.table != d.table;
      var i :| 0 <= i < |d.sources| && d.sources[i].family == r.prefix.family && |d.sources[i].bits| <= |r.prefix.bits|
               && Contains(d.sources[i], Base(r.prefix));
      ContainedMeansWithin(r.prefix, d.sources[i]);
      WithinContains(r.prefix, d.sources[i], a);
      SourcesAreDisjoint(s, j, i, k, l, a);
    }
  }

  /** A destination inside a Domain's source resolves, in the Domain's own table and in the shared one, to a route
      inside that source that the Domain itself configured, or to the source's unreachable guard. */
  lemma StaysInSource(s: NodeSpec, c: Compiled, k: nat, l: nat, table: int, a: Address)
    requires CompilesTo(s, c) && k < |s.domains| && l < |s.domains[k].sources|
    requires table == s.domains[k].table || table == s.fabricTable
    requires ValidAddress(a) && Contains(s.domains[k].sources[l], a)
    ensures exists r :: Resolves(c.routes, table, a, r)
    ensures forall r :: Resolves(c.routes, table, a, r) ==> Belongs(s.domains[k], s.domains[k].sources[l], r)
  {
    var p := s.domains[k].sources[l];
    GuardIsThere(s, c, k, l, table);
    var q :| q in c.routes && RouteKey(q) == RouteKey(Guard(table, p));
    SomeResolves(c.routes, table, a, q);
    forall r | Resolves(c.routes, table, a, r) ensures Belongs(s.domains[k], p, r) {
      assert !Better(q, r);
      KeptHasOrigin(s, c, r);
      if FromFabric(s, r) {
        FabricAvoidsSources(s, k, l, r, a);
      } else {
        var j: nat :| j < |s.domains| && FromDomain(s, s.domains[j], r);
        LongRouteBelongs(s, k, l, j, r, a);
      }
    }
  }
}

/** A Domain's lookups are its own: they have one result, they fail closed, and no change to another Domain moves
    them. */
module RoutingIsolation {
  import opened Common
  import opened Net
  import opened Routing
  import opened RoutingCompiler
  import opened RoutingLookup

  // ---------------------------------------------------------------- one result

  ghost predicate DistinctKeys(routes: seq<RoutePlan>) {
    forall i, j :: 0 <= i < j < |routes| ==> RouteKey(routes[i]) != RouteKey(routes[j])
  }

  lemma AddKeepsDistinct(routes: seq<RoutePlan>, r: RoutePlan)
    requires DistinctKeys(routes)
    ensures DistinctKeys(Routing.AddRoute(routes, r))
  {
    var kept := Routing.AddRoute(routes, r);
    forall i, j | 0 <= i < j < |kept| ensures RouteKey(kept[i]) != RouteKey(kept[j]) {
      assert kept[i] == routes[i];
      assert j < |routes| ==> kept[j] == routes[j] && RouteKey(routes[i]) != RouteKey(routes[j]);
    }
  }

  lemma {:induction false} KeysAreDistinct(routes: seq<RoutePlan>, more: seq<RoutePlan>)
    requires DistinctKeys(routes)
    ensures DistinctKeys(AddRoutes(routes, more))
  {
    if more != [] {
      KeysAreDistinct(routes, more[..|more| - 1]);
      AddKeepsDistinct(AddRoutes(routes, more[..|more| - 1]), more[|more| - 1]);
    }
  }

  lemma SameKeySameRoute(s: NodeSpec, c: Compiled, q: RoutePlan, r: RoutePlan)
    requires CompilesTo(s, c) && q in c.routes && r in c.routes && RouteKey(q) == RouteKey(r)
    ensures q == r
  {
    KeysAreDistinct([], AllPlans(s).value);
    OnePerKey(c.routes, q, r);
  }

  lemma OnePerKey(routes: seq<RoutePlan>, q: RoutePlan, r: RoutePlan)
    requires DistinctKeys(routes) && q in routes && r in routes && RouteKey(q) == RouteKey(r)
    ensures q == r
  {
    var i :| 0 <= i < |routes| && routes[i] == q;
    var j :| 0 <= j < |routes| && routes[j] == r;
    if i < j {
      var differ := RouteKey(routes[i]) != RouteKey(routes[j]);
    } else if j < i {
      var differ := RouteKey(routes[j]) != RouteKey(routes[i]);
    }
  }

  /** Of two routes of one Domain with the same prefix only a route and the guard can meet, and the guard loses. */
  lemma GuardIsLast(s: NodeSpec, k: nat, p: Prefix, q: RoutePlan, r: RoutePlan)
    requires PrefixesAreValid(s) && ValidRouting(s) && k < |s.domains|
    requires Belongs(s.domains[k], p, q) && Belongs(s.domains[k], p, r)
    requires q.prefix == r.prefix && Metric(q) == Metric(r)
    ensures q.kind == r.kind
  {
    var d := s.domains[k];
    assert DomainOk(d, s.links);
    if q.kind.ViaPeer? {
      ConfiguredMetric(d, s.links, q);
    }
    if r.kind.ViaPeer? {
      ConfiguredMetric(d, s.links, r);
    }
    if q.kind.ViaPeer? && r.kind.Throw? {
      NoConflict(d, s.links, q, r);
    } else if q.kind.Throw? && r.kind.ViaPeer? {
      NoConflict(d, s.links, r, q);
    }
  }

  lemma ConfiguredMetric(d: Domain, links: map<string, string>, r: RoutePlan)
    requires DomainOk(d, links) && r.kind.ViaPeer? && Configured(d, r)
    ensures Metric(r) <= MAX_METRIC
  {
    var i :| 0 <= i < |Flat(d.routes)| && Flat(d.routes)[i] == Route(r.prefix, r.metric);
    assert MetricOk(Flat(d.routes)[i]);
  }

  lemma NoConflict(d: Domain, links: map<string, string>, via: RoutePlan, thrown: RoutePlan)
    requires DomainOk(d, links) && via.kind.ViaPeer? && thrown.kind.Throw? && Configured(d, via)
        && Configured(d, thrown)
    ensures via.prefix != thrown.prefix
  {
    var i :| 0 <= i < |Flat(d.routes)| && Flat(d.routes)[i] == Route(via.prefix, via.metric);
    var j :| 0 <= j < |d.announcements| && d.announcements[j].prefix == thrown.prefix;
    assert d.announcements[j].prefix != Flat(d.routes)[i].prefix;
  }

  /** A destination inside a source has exactly one result in each of the two tables. */
  lemma ResolvesOnce(s: NodeSpec, c: Compiled, k: nat, l: nat, table: int, a: Address, q: RoutePlan, r: RoutePlan)
    requires CompilesTo(s, c) && k < |s.domains| && l < |s.domains[k].sources|
    requires table == s.domains[k].table || table == s.fabricTable
    requires ValidAddress(a) && Contains(s.domains[k].sources[l], a)
    requires Resolves(c.routes, table, a, q) && Resolves(c.routes, table, a, r)
    ensures q == r
  {
    StaysInSource(s, c, k, l, table, a);
    assert !Better(q, r) && !Better(r, q);
    assert q.prefix.bits == a.bits[..|q.prefix.bits|] && r.prefix.bits == a.bits[..|r.prefix.bits|];
    GuardIsLast(s, k, s.domains[k].sources[l], q, r);
    SameKeySameRoute(s, c, q, r);
  }

  /** A lookup in a Domain's table falls through to the node's other tables only where the Domain announces the
      destination: every other result is a way to a peer or unreachable. */
  lemma FailsClosed(s: NodeSpec, c: Compiled, k: nat, a: Address)
    requires CompilesTo(s, c) && k < |s.domains| && ValidAddress(a) && HasFamily(s.domains[k].sources, a.family)
    ensures exists r :: Resolves(c.routes, s.domains[k].table, a, r)
    ensures forall r :: Resolves(c.routes, s.domains[k].table, a, r) && r.kind.Throw? ==>
              exists i :: 0 <= i < |s.domains[k].announcements| && Contains(s.domains[k].announcements[i].prefix, a)
  {
    NeverMisses(s, c, k, a);
    forall r | Resolves(c.routes, s.domains[k].table, a, r) && r.kind.Throw?
      ensures exists i :: 0 <= i < |s.domains[k].announcements| && Contains(s.domains[k].announcements[i].prefix, a)
    {
      KeptHasOrigin(s, c, r);
      assert !FromFabric(s, r);
      var j: nat :| j < |s.domains| && FromDomain(s, s.domains[j], r);
      assert j == k;
      var i :| 0 <= i < |s.domains[k].announcements| && s.domains[k].announcements[i].prefix == r.prefix;
      assert Contains(s.domains[k].announcements[i].prefix, a);
    }
  }

  // ---------------------------------------------------------------- selecting from a list

  /** What matters to a lookup: one table, and either all its routes or those that hold one address. */
  datatype Focus = Focus(table: int, address: Option<Address>)

  predicate Relevant(f: Focus, r: RoutePlan) {
    r.table == f.table && (f.address.Some? ==> Contains(r.prefix, f.address.value))
  }

  function Select(f: Focus, rs: seq<RoutePlan>): seq<RoutePlan> {
    if rs == [] then []
    else
      var before, last := Select(f, rs[..|rs| - 1]), rs[|rs| - 1];
      if Relevant(f, last) then before + [last] else before
  }

  lemma {:induction false} SelectConcat(f: Focus, xs: seq<RoutePlan>, ys: seq<RoutePlan>)
    ensures Select(f, xs + ys) == Select(f, xs) + Select(f, ys)
  {
    if ys == [] {
      assert xs + ys == xs;
    } else {
      assert (xs + ys)[..|xs + ys| - 1] == xs + ys[..|ys| - 1];
      SelectConcat(f, xs, ys[..|ys| - 1]);
    }
  }

  lemma {:induction false} Selected(f: Focus, rs: seq<RoutePlan>)
    ensures forall r :: r in Select(f, rs) <==> r in rs && Relevant(f, r)
  {
    if rs != [] {
      Selected(f, rs[..|rs| - 1]);
      assert rs == rs[..|rs| - 1] + [rs[|rs| - 1]];
    }
  }

  lemma NothingSelected(f: Focus, rs: seq<RoutePlan>)
    requires forall r :: r in rs ==> !Relevant(f, r)
    ensures Select(f, rs) == []
  {
    Selected(f, rs);
    if Select(f, rs) != [] {
      assert Select(f, rs)[0] in Select(f, rs);
    }
  }

  lemma {:induction false} EverythingSelected(f: Focus, rs: seq<RoutePlan>)
    requires forall i :: 0 <= i < |rs| ==> Relevant(f, rs[i])
    ensures Select(f, rs) == rs
  {
    if rs != [] {
      EverythingSelected(f, rs[..|rs| - 1]);
    }
  }

  lemma SelectAdd(f: Focus, kept: seq<RoutePlan>, r: RoutePlan)
    ensures Select(f, Routing.AddRoute(kept, r)) == if Relevant(f, r) then Routing.AddRoute(Select(f, kept), r)
        else Select(f, kept)
  {
    Selected(f, kept);
    if exists i | 0 <= i < |kept| :: RouteKey(kept[i]) == RouteKey(r) {
      var i :| 0 <= i < |kept| && RouteKey(kept[i]) == RouteKey(r);
      assert kept[i] in kept;
      if Relevant(f, r) {
        var j :| 0 <= j < |Select(f, kept)| && Select(f, kept)[j] == kept[i];
      }
    } else {
      assert (kept + [r])[..|kept|] == kept;
      if exists j | 0 <= j < |Select(f, kept)| :: RouteKey(Select(f, kept)[j]) == RouteKey(r) {
        var j :| 0 <= j < |Select(f, kept)| && RouteKey(Select(f, kept)[j]) == RouteKey(r);
        assert Select(f, kept)[j] in kept;
      }
    }
  }

  /** Dropping duplicates and then selecting is selecting and then dropping duplicates. */
  lemma {:induction false} SelectDeduped(f: Focus, rs: seq<RoutePlan>)
    ensures Select(f, AddRoutes([], rs)) == AddRoutes([], Select(f, rs))
  {
    if rs != [] {
      var init, last := rs[..|rs| - 1], rs[|rs| - 1];
      SelectDeduped(f, init);
      SelectAdd(f, AddRoutes([], init), last);
      if Relevant(f, last) {
        assert (Select(f, init) + [last])[..|Select(f, init)|] == Select(f, init);
      }
    }
  }

  lemma ResolvesBySelection(f: Focus, routes: seq<RoutePlan>, a: Address, r: RoutePlan)
    requires f.address.Some? ==> f.address.value == a
    ensures Resolves(routes, f.table, a, r) <==> Resolves(Select(f, routes), f.table, a, r)
  {
    Selected(f, routes);
    forall q ensures q in routes && Matches(f.table, a, q) <==> q in Select(f, routes) && Matches(f.table, a, q) {
    }
  }

  // ---------------------------------------------------------------- what a Domain's lookups depend on

  /** The shared infrastructure in one table. */
  function Infrastructure(s: NodeSpec, table: int): seq<RoutePlan>
    requires PeerPlans(s.fabricRoutes, s.fabricTable, s.links).Some?
  {
    GuardAllIn(s.pools, table) + InTable(PeerPlans(s.fabricRoutes, s.fabricTable, s.links).value, table)
  }

  function GuardAllIn(pools: seq<Prefix>, table: int): seq<RoutePlan> {
    if pools == [] then [] else GuardAllIn(pools[..|pools| - 1], table) + [Guard(table, pools[|pools| - 1])]
  }

  function InTable(plans: seq<RoutePlan>, table: int): seq<RoutePlan> {
    if plans == [] then [] else InTable(plans[..|plans| - 1], table) + [plans[|plans| - 1].(table := table)]
  }

  predicate Once(tables: seq<int>, table: int, at: nat) {
    at < |tables| && tables[at] == table && forall i | 0 <= i < |tables| && i != at :: tables[i] != table
  }

  /** A copy for each table leaves one copy in each. */
  lemma CopiesSelected(f: Focus, copies: seq<RoutePlan>, at: nat)
    requires at < |copies| && f.address.None?
    requires forall i | 0 <= i < |copies| :: copies[i].table == f.table <==> i == at
    ensures Select(f, copies) == [copies[at]]
  {
    assert copies == copies[..at] + [copies[at]] + copies[at + 1..];
    SelectConcat(f, copies[..at] + [copies[at]], copies[at + 1..]);
    SelectConcat(f, copies[..at], [copies[at]]);
    NothingSelected(f, copies[..at]);
    NothingSelected(f, copies[at + 1..]);
    EverythingSelected(f, [copies[at]]);
  }

  lemma {:induction false} PoolsSelected(pools: seq<Prefix>, tables: seq<int>, table: int, at: nat)
    requires Once(tables, table, at)
    ensures Select(Focus(table, None), PoolGuards(pools, tables)) == GuardAllIn(pools, table)
  {
    if pools != [] {
      var init, last := pools[..|pools| - 1], pools[|pools| - 1];
      PoolsSelected(init, tables, table, at);
      SelectConcat(Focus(table, None), PoolGuards(init, tables), GuardAll(last, tables));
      CopiesSelected(Focus(table, None), GuardAll(last, tables), at);
    }
  }

  lemma {:induction false} SharedSelected(plans: seq<RoutePlan>, tables: seq<int>, table: int, at: nat)
    requires Once(tables, table, at)
    ensures Select(Focus(table, None), Shared(plans, tables)) == InTable(plans, table)
  {
    if plans != [] {
      var init, last := plans[..|plans| - 1], plans[|plans| - 1];
      SharedSelected(init, tables, table, at);
      SelectConcat(Focus(table, None), Shared(init, tables), InTables(last, tables));
      CopiesSelected(Focus(table, None), InTables(last, tables), at);
    }
  }

  lemma {:induction false} OneDomainSelected(s: NodeSpec, f: Focus, ds: seq<Domain>, k: nat)
    requires forall j | 0 <= j < |ds| :: DomainPrefixesAreValid(ds[j])
    requires AllDomainPlans(s, ds).Some? && k < |ds| && DomainPlans(s, ds[k]).Some?
    requires forall j, r | 0 <= j < |ds| && j != k && FromDomain(s, ds[j], r) :: !Relevant(f, r)
    ensures Select(f, AllDomainPlans(s, ds).value) == Select(f, DomainPlans(s, ds[k]).value)
  {
    var init, last := ds[..|ds| - 1], ds[|ds| - 1];
    SelectConcat(f, AllDomainPlans(s, init).value, DomainPlans(s, last).value);
    if k < |ds| - 1 {
      OneDomainSelected(s, f, init, k);
      forall r | r in DomainPlans(s, last).value ensures !Relevant(f, r) {
        DomainOrigins(s, last, r);
      }
      NothingSelected(f, DomainPlans(s, last).value);
    } else {
      forall r | r in AllDomainPlans(s, init).value ensures !Relevant(f, r) {
        FromSomeDomain(s, init, r);
        var j: nat :| j < |init| && FromDomain(s, init[j], r);
        assert FromDomain(s, ds[j], r);
      }
      NothingSelected(f, AllDomainPlans(s, init).value);
    }
  }

  lemma TablesAreDistinct(s: NodeSpec, k: nat)
    requires PrefixesAreValid(s) && ValidRouting(s) && k < |s.domains|
    ensures Once(Tables(s), s.domains[k].table, k + 1)
    ensures forall j | 0 <= j < |s.domains| && j != k :: s.domains[j].table != s.domains[k].table
  {
    var tables := Tables(s);
    forall i | 0 <= i < |tables| && i != k + 1 ensures tables[i] != s.domains[k].table {
      if i > 0 {
        assert tables[i] == s.domains[i - 1].table;
      }
    }
  }

  /** A Domain's own table holds the shared infrastructure and what that Domain itself asks for, in that order. */
  lemma OwnTableSelected(s: NodeSpec, c: Compiled, k: nat)
    requires CompilesTo(s, c) && k < |s.domains|
    ensures DomainPlans(s, s.domains[k]).Some? && PeerPlans(s.fabricRoutes, s.fabricTable, s.links).Some?
    ensures
      var f := Focus(s.domains[k].table, None);
      Select(f, c.routes) == AddRoutes([], Infrastructure(s, f.table) + Select(f, DomainPlans(s, s.domains[k]).value))
  {
    var d, f := s.domains[k], Focus(s.domains[k].table, None);
    var fabric := PeerPlans(s.fabricRoutes, s.fabricTable, s.links).value;
    var pools, routes, domains := PoolGuards(s.pools, Tables(s)), Shared(fabric, Tables(s)),
        AllDomainPlans(s, s.domains).value;
    SelectDeduped(f, pools + routes + domains);
    SelectConcat(f, pools + routes, domains);
    SelectConcat(f, pools, routes);
    TablesAreDistinct(s, k);
    PoolsSelected(s.pools, Tables(s), d.table, k + 1);
    SharedSelected(fabric, Tables(s), d.table, k + 1);
    DomainCompiles(s, s.domains, k);
    assert s.fabricTable != d.table;
    OneDomainSelected(s, f, s.domains, k);
  }

  /** For an address of a source, only the source's own Domain matters in the shared table. */
  lemma SharedTableSelected(s: NodeSpec, c: Compiled, k: nat, l: nat, a: Address)
    requires CompilesTo(s, c) && k < |s.domains| && l < |s.domains[k].sources|
    requires ValidAddress(a) && Contains(s.domains[k].sources[l], a)
    ensures DomainPlans(s, s.domains[k]).Some?
    ensures
      var f := Focus(s.fabricTable, Some(a));
      Select(f, c.routes) == AddRoutes([], Select(f, DomainPlans(s, s.domains[k]).value))
  {
    var f := Focus(s.fabricTable, Some(a));
    var fabric := PeerPlans(s.fabricRoutes, s.fabricTable, s.links).value;
    var pools, routes, domains := PoolGuards(s.pools, Tables(s)), Shared(fabric, Tables(s)),
        AllDomainPlans(s, s.domains).value;
    SelectDeduped(f, pools + routes + domains);
    SelectConcat(f, pools + routes, domains);
    SelectConcat(f, pools, routes);
    InfrastructureIsIrrelevant(s, k, l, a, f.table);
    NothingSelected(f, pools);
    NothingSelected(f, routes);
    DomainCompiles(s, s.domains, k);
    forall j, r | 0 <= j < |s.domains| && j != k && FromDomain(s, s.domains[j], r) ensures !Relevant(f, r) {
      if Relevant(f, r) {
        ForeignAvoidsSources(s, k, l, j, r, a);
      }
    }
    OneDomainSelected(s, f, s.domains, k);
    assert [] + [] + Select(f, domains) == Select(f, domains);
  }

  lemma InfrastructureIsIrrelevant(s: NodeSpec, k: nat, l: nat, a: Address, table: int)
    requires PrefixesAreValid(s) && ValidRouting(s) && k < |s.domains| && l < |s.domains[k].sources|
    requires ValidAddress(a) && Contains(s.domains[k].sources[l], a)
    requires PeerPlans(s.fabricRoutes, s.fabricTable, s.links).Some?
    ensures forall r :: r in PoolGuards(s.pools, Tables(s)) ==> !Relevant(Focus(table, Some(a)), r)
    ensures forall r :: r in Shared(PeerPlans(s.fabricRoutes, s.fabricTable, s.links).value, Tables(s)) ==>
        !Relevant(Focus(table, Some(a)), r)
  {
    var fabric := PeerPlans(s.fabricRoutes, s.fabricTable, s.links).value;
    forall r | r in PoolGuards(s.pools, Tables(s)) ensures !Contains(r.prefix, a) {
      FromPool(s.pools, Tables(s), r);
      FabricAvoidsSources(s, k, l, r, a);
    }
    forall r | r in Shared(fabric, Tables(s)) ensures !Contains(r.prefix, a) {
      PlansAreRoutes(s.fabricRoutes, s.fabricTable, s.links);
      FromShared(fabric, Tables(s), r);
      var i :| 0 <= i < |fabric| && r == fabric[i].(table := r.table);
      assert Flat(s.fabricRoutes)[i] == Route(r.prefix, r.metric);
      FabricAvoidsSources(s, k, l, r, a);
    }
  }

  /** In the shared table another Domain has nothing that holds an address of this source. */
  lemma ForeignAvoidsSources(s: NodeSpec, k: nat, l: nat, j: nat, r: RoutePlan, a: Address)
    requires PrefixesAreValid(s) && ValidRouting(s) && k < |s.domains| && l < |s.domains[k].sources| && j < |s.domains|
        && j != k
    requires ValidAddress(a) && Contains(s.domains[k].sources[l], a)
    requires FromDomain(s, s.domains[j], r) && r.table == s.fabricTable
    ensures !Contains(r.prefix, a)
  {
    var d := s.domains[j];
    assert r.table != d.table;
    if Contains(r.prefix, a) {
      if exists i | 0 <= i < |d.sources| :: r == Guard(r.table, d.sources[i]) {
        var i :| 0 <= i < |d.sources| && r == Guard(r.table, d.sources[i]);
        SourcesAreDisjoint(s, j, i, k, l, a);
      } else {
        var i :| 0 <= i < |d.sources| && d.sources[i].family == r.prefix.family
            && |d.sources[i].bits| <= |r.prefix.bits|
                 && Contains(d.sources[i], Base(r.prefix));
        ContainedMeansWithin(r.prefix, d.sources[i]);
        WithinContains(r.prefix, d.sources[i], a);
        SourcesAreDisjoint(s, j, i, k, l, a);
      }
    }
  }

  // ---------------------------------------------------------------- isolation

  /** Two specifications of one node that agree on the infrastructure and on one Domain. */
  predicate AgreeOn(s: NodeSpec, t: NodeSpec, k: nat, m: nat) {
    && k < |s.domains| && m < |t.domains| && s.domains[k] == t.domains[m]
    && s.fabricTable == t.fabricTable && s.pools == t.pools && s.fabricRoutes == t.fabricRoutes && s.links == t.links
  }

  /** Adding, removing or changing other Domains moves no lookup in a Domain's own table, for any address. */
  lemma OwnTableIsIsolated(s: NodeSpec, c: Compiled, t: NodeSpec, e: Compiled, k: nat, m: nat, a: Address, r: RoutePlan)
    requires CompilesTo(s, c) && CompilesTo(t, e) && AgreeOn(s, t, k, m)
    ensures Resolves(c.routes, s.domains[k].table, a, r) <==> Resolves(e.routes, s.domains[k].table, a, r)
  {
    var f := Focus(s.domains[k].table, None);
    OwnTableSelected(s, c, k);
    OwnTableSelected(t, e, m);
    ResolvesBySelection(f, c.routes, a, r);
    ResolvesBySelection(f, e.routes, a, r);
  }

  /** Nor does it move a lookup in the shared table for an address inside the Domain's sources. */
  lemma SharedTableIsIsolated(s: NodeSpec, c: Compiled, t: NodeSpec, e: Compiled, k: nat, m: nat, l: nat, a: Address,
      r: RoutePlan)
    requires CompilesTo(s, c) && CompilesTo(t, e) && AgreeOn(s, t, k, m)
    requires l < |s.domains[k].sources| && ValidAddress(a) && Contains(s.domains[k].sources[l], a)
    ensures Resolves(c.routes, s.fabricTable, a, r) <==> Resolves(e.routes, s.fabricTable, a, r)
  {
    var f := Focus(s.fabricTable, Some(a));
    SharedTableSelected(s, c, k, l, a);
    SharedTableSelected(t, e, m, l, a);
    ResolvesBySelection(f, c.routes, a, r);
    ResolvesBySelection(f, e.routes, a, r);
  }
}

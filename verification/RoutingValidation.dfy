/** The loops of validateRouting (internal/spec/spec.go): they find nothing wrong exactly when the specification is
    valid. */
module RoutingValidation {
  import opened Common
  import opened Net
  import opened Routing

  // ---------------------------------------------------------------- routes and announcements

  ghost predicate Prefixes(routes: seq<Route>, resolved: set<Prefix>) {
    forall p :: p in resolved <==> exists i :: 0 <= i < |routes| && routes[i].prefix == p
  }

  predicate RoutesSoFar(seen: seq<Route>) {
    Distinct(seen) && forall i | 0 <= i < |seen| :: MetricOk(seen[i])
  }

  /** One more route keeps the list good when its prefix is new and its metric fits. */
  lemma OneMore(seen: seq<Route>, resolved: set<Prefix>, r: Route)
    requires Prefixes(seen, resolved)
    ensures RoutesSoFar(seen + [r]) <==> RoutesSoFar(seen) && r.prefix !in resolved && MetricOk(r)
    ensures Prefixes(seen + [r], resolved + {r.prefix})
  {
    var all := seen + [r];
    assert all[|seen|] == r;
    assert forall i :: 0 <= i < |seen| ==> all[i] == seen[i];
    if RoutesSoFar(all) {
      assert forall i :: 0 <= i < |seen| ==> MetricOk(all[i]);
    }
    forall p ensures p in resolved + {r.prefix} <==> exists i :: 0 <= i < |all| && all[i].prefix == p {
      if p in resolved {
        var i :| 0 <= i < |seen| && seen[i].prefix == p;
        assert all[i].prefix == p;
      }
    }
  }

  method CheckAnnouncements(routes: seq<Route>) returns (resolved: set<Prefix>, bad: nat)
    ensures bad == 0 <==> ValidAnnouncements(routes)
    ensures Prefixes(routes, resolved)
  {
    resolved, bad := {}, 0;
    for i := 0 to |routes|
      invariant bad == 0 <==> RoutesSoFar(routes[..i])
      invariant Prefixes(routes[..i], resolved)
    {
      var r := routes[i];
      assert routes[..i + 1] == routes[..i] + [r];
      OneMore(routes[..i], resolved, r);
      if r.prefix in resolved {
        bad := bad + 1;
      }
      if !MetricOk(r) {
        bad := bad + 1;
      }
      resolved := resolved + {r.prefix};
    }
    assert routes[..|routes|] == routes;
  }

  predicate NamesOk(rs: seq<PeerRoutes>, links: map<string, string>) {
    forall i | 0 <= i < |rs| :: rs[i].peer in links && rs[i].routes != []
  }

  method CheckRoutes(rs: seq<PeerRoutes>, links: map<string, string>) returns (resolved: set<Prefix>, bad: nat)
    ensures bad == 0 <==> ValidRoutes(rs, links)
    ensures Prefixes(Flat(rs), resolved)
  {
    resolved, bad := {}, 0;
    for i := 0 to |rs|
      invariant bad == 0 <==> NamesOk(rs[..i], links) && RoutesSoFar(Flat(rs[..i]))
      invariant Prefixes(Flat(rs[..i]), resolved)
    {
      var entry := rs[i];
      assert rs[..i + 1] == rs[..i] + [entry];
      assert rs[..i + 1][..i] == rs[..i];
      NextName(rs[..i], entry, links);
      ghost var known := bad == 0;
      if entry.peer !in links {
        bad := bad + 1;
      }
      if entry.routes == [] {
        bad := bad + 1;
      }
      ghost var before := Flat(rs[..i]);
      assert before + entry.routes[..0] == before;
      for j := 0 to |entry.routes|
        invariant bad == 0 <==> NamesOk(rs[..i + 1], links) && RoutesSoFar(before + entry.routes[..j])
        invariant Prefixes(before + entry.routes[..j], resolved)
      {
        var r := entry.routes[j];
        assert before + entry.routes[..j + 1] == before + entry.routes[..j] + [r];
        OneMore(before + entry.routes[..j], resolved, r);
        if r.prefix in resolved {
          bad := bad + 1;
        } else {
          resolved := resolved + {r.prefix};
          if !MetricOk(r) {
            bad := bad + 1;
          }
        }
        assert resolved + {r.prefix} == resolved;
      }
      assert entry.routes[..|entry.routes|] == entry.routes;
    }
    assert rs[..|rs|] == rs;
  }

  lemma NextName(rs: seq<PeerRoutes>, entry: PeerRoutes, links: map<string, string>)
    ensures NamesOk(rs + [entry], links) <==> NamesOk(rs, links) && entry.peer in links && entry.routes != []
  {
    assert forall i :: 0 <= i < |rs| ==> (rs + [entry])[i] == rs[i];
    assert (rs + [entry])[|rs|] == entry;
  }

  // ---------------------------------------------------------------- sources

  /** Whether any source of the list has an address in common with p. */
  method Touches(p: Prefix, others: seq<Prefix>) returns (found: bool)
    requires ValidPrefix(p) && forall i | 0 <= i < |others| :: ValidPrefix(others[i])
    ensures found <==> exists i | 0 <= i < |others| :: PrefixesOverlap(p, others[i])
  {
    for i := 0 to |others|
      invariant forall j | 0 <= j < i :: !PrefixesOverlap(p, others[j])
    {
      if PrefixesOverlap(p, others[i]) {
        return true;
      }
    }
    return false;
  }

  /** The sources of one domain against the pools and every source before them. */
  method CheckSources(pools: seq<Prefix>, earlier: seq<Prefix>, sources: seq<Prefix>) returns (bad: nat)
    requires forall i | 0 <= i < |pools| :: ValidPrefix(pools[i])
    requires forall i | 0 <= i < |earlier| :: ValidPrefix(earlier[i])
    requires forall i | 0 <= i < |sources| :: ValidPrefix(sources[i])
    requires forall i | 0 <= i < |earlier + sources| :: ValidPrefix((earlier + sources)[i])
    ensures SourcesOk(pools, earlier + sources) <==> SourcesOk(pools, earlier) && bad == 0
  {
    bad := 0;
    assert earlier + sources[..0] == earlier;
    for k := 0 to |sources|
      invariant SourcesOk(pools, earlier + sources[..k]) <==> SourcesOk(pools, earlier) && bad == 0
    {
      var p, seen := sources[k], earlier + sources[..k];
      assert earlier + sources[..k + 1] == seen + [p];
      NextSource(pools, seen, p);
      var inPool := Touches(p, pools);
      var inSource := Touches(p, seen);
      if p.bits == [] {
        bad := bad + 1;
      }
      if inPool {
        bad := bad + 1;
      }
      if inSource {
        bad := bad + 1;
      }
    }
    assert sources[..|sources|] == sources;
  }

  lemma NextSource(pools: seq<Prefix>, seen: seq<Prefix>, p: Prefix)
    requires forall i | 0 <= i < |pools| :: ValidPrefix(pools[i])
    requires forall i | 0 <= i < |seen| :: ValidPrefix(seen[i])
    requires ValidPrefix(p)
    ensures SourcesOk(pools, seen + [p]) <==> SourcesOk(pools, seen) && SourceOk(pools, seen, p)
  {
    var all := seen + [p];
    assert forall k :: 0 <= k < |seen| ==> all[..k] == seen[..k] && all[k] == seen[k];
    assert all[..|seen|] == seen && all[|seen|] == p;
    if SourcesOk(pools, all) {
      forall k | 0 <= k < |seen| ensures SourceOk(pools, seen[..k], seen[k]) {
        assert SourceOk(pools, all[..k], all[k]);
      }
      assert SourceOk(pools, all[..|seen|], all[|seen|]);
    }
  }

  // ---------------------------------------------------------------- one domain, and all of them

  method SomePrefix(resolved: set<Prefix>, routes: seq<Route>) returns (shared: bool)
    ensures shared <==> exists i | 0 <= i < |routes| :: routes[i].prefix in resolved
  {
    for i := 0 to |routes|
      invariant forall j | 0 <= j < i :: routes[j].prefix !in resolved
    {
      if routes[i].prefix in resolved {
        return true;
      }
    }
    return false;
  }

  method MissingFamily(sources: seq<Prefix>, routes: seq<Route>) returns (missing: bool)
    ensures missing <==> exists i | 0 <= i < |routes| :: !HasFamily(sources, routes[i].prefix.family)
  {
    for i := 0 to |routes|
      invariant forall j | 0 <= j < i :: HasFamily(sources, routes[j].prefix.family)
    {
      if !HasFamily(sources, routes[i].prefix.family) {
        return true;
      }
    }
    return false;
  }

  /** The pattern of a Domain's name, one character after another. */
  method MatchesName(name: string) returns (matches: bool)
    ensures matches <==> NameOk(name)
  {
    if |name| < 1 || |name| > 64 || !IsWordChar(name[0]) {
      return false;
    }
    for i := 1 to |name|
      invariant forall j | 0 < j < i :: IsNameChar(name[j])
    {
      if !IsNameChar(name[i]) {
        return false;
      }
    }
    return true;
  }

  method CheckDomain(d: Domain, links: map<string, string>) returns (bad: nat)
    ensures bad == 0 <==> DomainOk(d, links)
  {
    var named := MatchesName(d.name);
    bad := if named then 0 else 1;
    if !ValidTable(d.table) {
      bad := bad + 1;
    }
    if d.sources == [] {
      bad := bad + 1;
    }
    var routes, badRoutes := CheckRoutes(d.routes, links);
    var announced, badAnnouncements := CheckAnnouncements(d.announcements);
    var noRouteFamily := MissingFamily(d.sources, Flat(d.routes));
    var noAnnouncementFamily := MissingFamily(d.sources, d.announcements);
    var conflict := SomePrefix(routes, d.announcements);
    bad := bad + badRoutes + badAnnouncements;
    if noRouteFamily || noAnnouncementFamily || conflict {
      bad := bad + 1;
    }
    assert conflict <==> exists i, j | 0 <= i < |d.announcements| && 0 <= j < |Flat(d.routes)| ::
        d.announcements[i].prefix == Flat(d.routes)[j].prefix;
  }

  predicate TableIsNew(s: NodeSpec, k: nat)
    requires k < |s.domains|
  {
    s.domains[k].table != s.fabricTable && forall j | 0 <= j < k :: s.domains[j].table != s.domains[k].table
  }

  method AnyOutside(routes: seq<Route>, pools: seq<Prefix>) returns (outside: bool)
    requires forall i | 0 <= i < |routes| :: ValidPrefix(routes[i].prefix)
    ensures outside <==> exists i | 0 <= i < |routes| :: !PrefixContained(routes[i].prefix, pools)
  {
    for i := 0 to |routes|
      invariant forall j | 0 <= j < i :: PrefixContained(routes[j].prefix, pools)
    {
      if !PrefixContained(routes[i].prefix, pools) {
        return true;
      }
    }
    return false;
  }

  /** The tables and the domains one after the other. */
  method CheckTables(s: NodeSpec) returns (bad: nat)
    ensures bad == 0 <==> forall k | 0 <= k < |s.domains| :: TableIsNew(s, k) && DomainOk(s.domains[k], s.links)
  {
    var tables: set<int> := {s.fabricTable};
    bad := 0;
    for k := 0 to |s.domains|
      invariant forall t :: t in tables <==> t == s.fabricTable || exists j :: 0 <= j < k && s.domains[j].table == t
      invariant bad == 0 <==> forall j | 0 <= j < k :: TableIsNew(s, j) && DomainOk(s.domains[j], s.links)
    {
      var d := s.domains[k];
      assert d.table in tables <==> !TableIsNew(s, k);
      var badDomain := CheckDomain(d, s.links);
      if d.table in tables {
        badDomain := badDomain + 1;
      }
      bad := bad + badDomain;
      tables := tables + {d.table};
    }
  }

  method CheckAllSources(s: NodeSpec) returns (bad: nat)
    requires PrefixesAreValid(s)
    requires forall i | 0 <= i < |SourcesOf(s.domains)| :: ValidPrefix(SourcesOf(s.domains)[i])
    ensures bad == 0 <==> SourcesOk(s.pools, SourcesOf(s.domains))
  {
    var sources: seq<Prefix> := [];
    bad := 0;
    for k := 0 to |s.domains|
      invariant sources == SourcesOf(s.domains[..k])
      invariant forall i | 0 <= i < |sources| :: ValidPrefix(sources[i])
      invariant bad == 0 <==> SourcesOk(s.pools, sources)
    {
      assert s.domains[..k + 1][..k] == s.domains[..k];
      assert DomainPrefixesAreValid(s.domains[k]);
      var more := CheckSources(s.pools, sources, s.domains[k].sources);
      bad := bad + more;
      sources := sources + s.domains[k].sources;
    }
    assert s.domains[..|s.domains|] == s.domains;
  }

  /** Validation of the routing section reports nothing exactly when it is valid. */
  method Validate(s: NodeSpec) returns (bad: nat)
    requires PrefixesAreValid(s)
    ensures bad == 0 <==> ValidRouting(s)
  {
    SourcesAreValid(s.domains);
    var fabric, badFabric := CheckRoutes(s.fabricRoutes, s.links);
    var outside := AnyOutside(Flat(s.fabricRoutes), s.pools);
    var badTables := CheckTables(s);
    var badSources := CheckAllSources(s);
    bad := badFabric + badTables + badSources + (if outside then 1 else 0) + if TimeoutOk(s.recoveryTimeout)
        then 0 else 1;
    assert (forall k | 0 <= k < |s.domains| :: TableIsNew(s, k) && DomainOk(s.domains[k], s.links))
      <==> (forall k | 0 <= k < |s.domains| ::
              && s.domains[k].table != s.fabricTable
              && (forall j | 0 <= j < k :: s.domains[j].table != s.domains[k].table)
              && DomainOk(s.domains[k], s.links));
  }
}

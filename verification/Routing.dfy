/** The routing part of a node specification, its validation (internal/spec/spec.go) and its compilation into policy
    rules and routes (internal/reconcile/desired.go). */
module Routing {
  import opened Common
  import opened Net

  const FABRIC_RULE_PRIORITY: nat := 20000
  const DOMAIN_RULE_PRIORITY: nat := 20001
  const UNREACHABLE_METRIC: nat := 2147483647
  const MAX_METRIC: nat := 65534

  // ---------------------------------------------------------------- the specification

  datatype Route = Route(prefix: Prefix, metric: Option<nat>)

  /** One entry of a routes map; maps are walked in the order of their keys. */
  datatype PeerRoutes = PeerRoutes(peer: string, routes: seq<Route>)

  datatype Domain = Domain(
    name: string,
    table: int,
    sources: seq<Prefix>,
    routes: seq<PeerRoutes>,
    announcements: seq<Route>)

  /** `links` gives the interface to each peer. */
  datatype NodeSpec = NodeSpec(
    recoveryTimeout: Option<int>,
    fabricTable: int,
    pools: seq<Prefix>,
    fabricRoutes: seq<PeerRoutes>,
    domains: seq<Domain>,
    links: map<string, string>)

  /** The prefix's own address: its bits and then zeros. */
  function Base(p: Prefix): Address
    requires ValidPrefix(p)
  {
    Address(p.family, p.bits + seq(Width(p.family) - |p.bits|, _ => false))
  }

  predicate PrefixesOverlap(p: Prefix, q: Prefix)
    requires ValidPrefix(p) && ValidPrefix(q)
  {
    p.family == q.family && (Contains(p, Base(q)) || Contains(q, Base(p)))
  }

  predicate PrefixContained(p: Prefix, parents: seq<Prefix>)
    requires ValidPrefix(p)
  {
    exists i | 0 <= i < |parents| ::
      parents[i].family == p.family && |parents[i].bits| <= |p.bits| && Contains(parents[i], Base(p))
  }

  predicate IsAccessPrefix(d: Domain, p: Prefix)
    requires ValidPrefix(p)
  {
    PrefixContained(p, d.sources)
  }

  /** Two prefixes overlap when some address is in both, and one is contained when all its addresses are. */
  lemma OverlapMeansShared(p: Prefix, q: Prefix)
    requires ValidPrefix(p) && ValidPrefix(q)
    ensures PrefixesOverlap(p, q) <==> exists a :: ValidAddress(a) && Contains(p, a) && Contains(q, a)
    ensures PrefixesOverlap(p, q) <==> Overlap(p, q)
  {
    if PrefixesOverlap(p, q) {
      var a := if Contains(p, Base(q)) then Base(q) else Base(p);
      assert ValidAddress(a) && Contains(p, a) && Contains(q, a);
    }
    if a :| ValidAddress(a) && Contains(p, a) && Contains(q, a) {
      CommonAddressOverlaps(p, q, a);
      if Within(q, p) {
        assert p.bits == q.bits[..|p.bits|];
        assert Base(q).bits[..|p.bits|] == p.bits;
      } else {
        assert Base(p).bits[..|q.bits|] == q.bits;
      }
    }
    if Overlap(p, q) {
      var a := if Within(q, p) then Base(q) else Base(p);
      assert Base(q).bits[..|q.bits|] == q.bits && Base(p).bits[..|p.bits|] == p.bits;
      if Within(q, p) {
        WithinContains(q, p, a);
      } else {
        WithinContains(p, q, a);
      }
    }
  }

  lemma ContainedMeansWithin(p: Prefix, parent: Prefix)
    requires ValidPrefix(p)
    ensures parent.family == p.family && |parent.bits| <= |p.bits| && Contains(parent, Base(p)) <==> Within(p, parent)
  {
    assert Base(p).bits[..|p.bits|] == p.bits;
    if |parent.bits| <= |p.bits| {
      assert Base(p).bits[..|parent.bits|] == p.bits[..|parent.bits|];
    }
  }

  // ---------------------------------------------------------------- validation

  function Flat(rs: seq<PeerRoutes>): seq<Route> {
    if rs == [] then [] else Flat(rs[..|rs| - 1]) + rs[|rs| - 1].routes
  }

  predicate Distinct(routes: seq<Route>) {
    forall i, j | 0 <= i < j < |routes| :: routes[i].prefix != routes[j].prefix
  }

  predicate MetricOk(r: Route) {
    r.metric.Some? ==> r.metric.value <= MAX_METRIC
  }

  predicate ValidRoutes(rs: seq<PeerRoutes>, links: map<string, string>) {
    && (forall i | 0 <= i < |rs| :: rs[i].peer in links && rs[i].routes != [])
    && Distinct(Flat(rs))
    && (forall i | 0 <= i < |Flat(rs)| :: MetricOk(Flat(rs)[i]))
  }

  predicate ValidAnnouncements(routes: seq<Route>) {
    Distinct(routes) && forall i | 0 <= i < |routes| :: MetricOk(routes[i])
  }

  predicate HasFamily(sources: seq<Prefix>, family: Family) {
    exists i | 0 <= i < |sources| :: sources[i].family == family
  }

  predicate ValidTable(table: int) {
    1 <= table <= 0xffff_ffff && table != 253 && table != 254 && table != 255
  }

  predicate PrefixesAreValid(s: NodeSpec) {
    && (forall i | 0 <= i < |s.pools| :: ValidPrefix(s.pools[i]))
    && (forall i | 0 <= i < |Flat(s.fabricRoutes)| :: ValidPrefix(Flat(s.fabricRoutes)[i].prefix))
    && (forall k | 0 <= k < |s.domains| :: DomainPrefixesAreValid(s.domains[k]))
  }

  predicate DomainPrefixesAreValid(d: Domain) {
    && (forall i | 0 <= i < |d.sources| :: ValidPrefix(d.sources[i]))
    && (forall i | 0 <= i < |Flat(d.routes)| :: ValidPrefix(Flat(d.routes)[i].prefix))
    && (forall i | 0 <= i < |d.announcements| :: ValidPrefix(d.announcements[i].prefix))
  }

  /** Sources of the domains before this one, in order. */
  function SourcesOf(ds: seq<Domain>): seq<Prefix> {
    if ds == [] then [] else SourcesOf(ds[..|ds| - 1]) + ds[|ds| - 1].sources
  }

  /** A source prefix may be neither everything, nor infrastructure, nor touched by an earlier source. */
  predicate SourceOk(pools: seq<Prefix>, earlier: seq<Prefix>, p: Prefix)
    requires ValidPrefix(p)
    requires forall i | 0 <= i < |pools| :: ValidPrefix(pools[i])
    requires forall i | 0 <= i < |earlier| :: ValidPrefix(earlier[i])
  {
    && p.bits != []
    && (forall i | 0 <= i < |pools| :: !PrefixesOverlap(p, pools[i]))
    && (forall i | 0 <= i < |earlier| :: !PrefixesOverlap(p, earlier[i]))
  }

  predicate SourcesOk(pools: seq<Prefix>, all: seq<Prefix>)
    requires forall i | 0 <= i < |pools| :: ValidPrefix(pools[i])
    requires forall i | 0 <= i < |all| :: ValidPrefix(all[i])
  {
    forall k | 0 <= k < |all| :: SourceOk(pools, all[..k], all[k])
  }

  predicate IsWordChar(c: char) {
    'A' <= c <= 'Z' || 'a' <= c <= 'z' || '0' <= c <= '9'
  }

  predicate IsNameChar(c: char) {
    IsWordChar(c) || c == '_' || c == '.' || c == '-'
  }

  /** A letter or digit, then at most 63 of those, underscores, dots and dashes. */
  predicate NameOk(name: string) {
    1 <= |name| <= 64 && IsWordChar(name[0]) && forall i | 0 < i < |name| :: IsNameChar(name[i])
  }

  predicate TimeoutOk(seconds: Option<int>) {
    seconds.Some? ==> 30 <= seconds.value <= 604800
  }

  predicate DomainOk(d: Domain, links: map<string, string>) {
    && NameOk(d.name) && ValidTable(d.table) && d.sources != []
    && ValidRoutes(d.routes, links) && ValidAnnouncements(d.announcements)
    && (forall i | 0 <= i < |Flat(d.routes)| :: HasFamily(d.sources, Flat(d.routes)[i].prefix.family))
    && (forall i | 0 <= i < |d.announcements| :: HasFamily(d.sources, d.announcements[i].prefix.family))
    && (forall i, j | 0 <= i < |d.announcements| && 0 <= j < |Flat(d.routes)| ::
          d.announcements[i].prefix != Flat(d.routes)[j].prefix)
  }

  /** What validateRouting finds nothing wrong with. */
  predicate ValidRouting(s: NodeSpec)
    requires PrefixesAreValid(s)
  {
    SourcesAreValid(s.domains);
    && TimeoutOk(s.recoveryTimeout)
    && ValidRoutes(s.fabricRoutes, s.links)
    && (forall i | 0 <= i < |Flat(s.fabricRoutes)| :: PrefixContained(Flat(s.fabricRoutes)[i].prefix, s.pools))
    && (forall k | 0 <= k < |s.domains| ::
          && s.domains[k].table != s.fabricTable
          && (forall j | 0 <= j < k :: s.domains[j].table != s.domains[k].table)
          && DomainOk(s.domains[k], s.links))
    && SourcesOk(s.pools, SourcesOf(s.domains))
  }

  lemma {:induction false} SourcesAreValid(ds: seq<Domain>)
    requires forall k | 0 <= k < |ds| :: DomainPrefixesAreValid(ds[k])
    ensures forall i | 0 <= i < |SourcesOf(ds)| :: ValidPrefix(SourcesOf(ds)[i])
  {
    if ds != [] {
      SourcesAreValid(ds[..|ds| - 1]);
      assert DomainPrefixesAreValid(ds[|ds| - 1]);
    }
  }

  // ---------------------------------------------------------------- what is compiled

  datatype RouteType = ViaPeer | Throw | Unreachable

  datatype RoutePlan = RoutePlan(
    table: int, prefix: Prefix, kind: RouteType, peer: string, interface: string, metric: Option<nat>)

  datatype RulePlan = RulePlan(table: int, priority: nat, source: Option<Prefix>, destination: Option<Prefix>)

  function Metric(r: RoutePlan): nat {
    r.metric.GetOr(0)
  }

  function RouteKey(r: RoutePlan): (int, Prefix, RouteType, nat) {
    (r.table, r.prefix, r.kind, Metric(r))
  }

  function RuleKey(r: RulePlan): (int, Option<Prefix>, Option<Prefix>) {
    (r.table, r.source, r.destination)
  }

  function Guard(table: int, prefix: Prefix): RoutePlan {
    RoutePlan(table, prefix, Unreachable, "", "", Some(UNREACHABLE_METRIC))
  }

  function Everything(family: Family): Prefix {
    Prefix(family, [])
  }

  function Tables(s: NodeSpec): seq<int> {
    [s.fabricTable] + seq(|s.domains|, k requires 0 <= k < |s.domains| => s.domains[k].table)
  }

  /** One guard of a prefix for each table. */
  function GuardAll(prefix: Prefix, tables: seq<int>): seq<RoutePlan> {
    seq(|tables|, i requires 0 <= i < |tables| => Guard(tables[i], prefix))
  }

  function PoolGuards(pools: seq<Prefix>, tables: seq<int>): seq<RoutePlan> {
    if pools == [] then [] else PoolGuards(pools[..|pools| - 1], tables) + GuardAll(pools[|pools| - 1], tables)
  }

  function PlansOf(peer: string, interface: string, table: int, routes: seq<Route>): seq<RoutePlan> {
    seq(|routes|, i requires 0 <= i < |routes| =>
        RoutePlan(table, routes[i].prefix, ViaPeer, peer, interface, routes[i].metric))
  }

  /** compilePeerRoutes; None when a route names an unknown peer. */
  function PeerPlans(rs: seq<PeerRoutes>, table: int, links: map<string, string>): Option<seq<RoutePlan>> {
    if rs == [] then Some([])
    else
      var last := rs[|rs| - 1];
      match PeerPlans(rs[..|rs| - 1], table, links)
      case None => None
      case Some(before) =>
        if last.peer !in links then None else Some(before + PlansOf(last.peer, links[last.peer], table, last.routes))
  }

  function InTables(r: RoutePlan, tables: seq<int>): seq<RoutePlan> {
    seq(|tables|, i requires 0 <= i < |tables| => r.(table := tables[i]))
  }

  function Shared(plans: seq<RoutePlan>, tables: seq<int>): seq<RoutePlan> {
    if plans == [] then [] else Shared(plans[..|plans| - 1], tables) + InTables(plans[|plans| - 1], tables)
  }

  function SourceGuards(fabricTable: int, table: int, sources: seq<Prefix>): seq<RoutePlan> {
    if sources == [] then []
    else
      var p := sources[|sources| - 1];
      SourceGuards(fabricTable, table, sources[..|sources| - 1]) + [Guard(fabricTable, p), Guard(table, p)]
  }

  /** The first source of each address family. */
  function CanonicalSources(sources: seq<Prefix>): seq<Prefix> {
    if sources == [] then []
    else
      var before, p := CanonicalSources(sources[..|sources| - 1]), sources[|sources| - 1];
      if HasFamily(before, p.family) then before else before + [p]
  }

  function ZeroGuards(table: int, sources: seq<Prefix>): seq<RoutePlan> {
    seq(|sources|, i requires 0 <= i < |sources| => Guard(table, Everything(sources[i].family)))
  }

  /** A route in the domain's table, and a copy in the shared one if it leads into the domain's own sources. */
  function WithReturn(fabricTable: int, d: Domain, r: RoutePlan): seq<RoutePlan>
    requires ValidPrefix(r.prefix)
  {
    if IsAccessPrefix(d, r.prefix) then [r, r.(table := fabricTable)] else [r]
  }

  function Returns(fabricTable: int, d: Domain, plans: seq<RoutePlan>): seq<RoutePlan>
    requires forall i | 0 <= i < |plans| :: ValidPrefix(plans[i].prefix)
  {
    if plans == [] then []
    else Returns(fabricTable, d, plans[..|plans| - 1]) + WithReturn(fabricTable, d, plans[|plans| - 1])
  }

  function Throws(table: int, announcements: seq<Route>): seq<RoutePlan> {
    seq(|announcements|, i requires 0 <= i < |announcements| =>
      RoutePlan(table, announcements[i].prefix, Throw, "", "", None))
  }

  lemma {:induction false} PlansAreRoutes(rs: seq<PeerRoutes>, table: int, links: map<string, string>)
    requires PeerPlans(rs, table, links).Some?
    ensures
      var plans := PeerPlans(rs, table, links).value;
      && |plans| == |Flat(rs)|
      && forall i | 0 <= i < |plans| ::
           plans[i].table == table && plans[i].kind.ViaPeer?
           && plans[i].prefix == Flat(rs)[i].prefix && plans[i].metric == Flat(rs)[i].metric
  {
    if rs != [] {
      PlansAreRoutes(rs[..|rs| - 1], table, links);
    }
  }

  function DomainPlans(s: NodeSpec, d: Domain): Option<seq<RoutePlan>>
    requires DomainPrefixesAreValid(d)
  {
    match PeerPlans(d.routes, d.table, s.links)
    case None => None
    case Some(plans) =>
      PlansAreRoutes(d.routes, d.table, s.links);
      Some(SourceGuards(s.fabricTable, d.table, d.sources)
           + ZeroGuards(d.table, CanonicalSources(d.sources))
           + Returns(s.fabricTable, d, plans)
           + Returns(s.fabricTable, d, Throws(d.table, d.announcements)))
  }

  function AllDomainPlans(s: NodeSpec, ds: seq<Domain>): Option<seq<RoutePlan>>
    requires forall k | 0 <= k < |ds| :: DomainPrefixesAreValid(ds[k])
  {
    if ds == [] then Some([])
    else
      match AllDomainPlans(s, ds[..|ds| - 1])
      case None => None
      case Some(before) =>
        match DomainPlans(s, ds[|ds| - 1])
        case None => None
        case Some(more) => Some(before + more)
  }

  /** Every route that is asked for, in order, before duplicates are dropped. */
  function AllPlans(s: NodeSpec): Option<seq<RoutePlan>>
    requires PrefixesAreValid(s)
  {
    var fabric, domains := PeerPlans(s.fabricRoutes, s.fabricTable, s.links), AllDomainPlans(s, s.domains);
    if fabric.None? || domains.None? then None
    else Some(PoolGuards(s.pools, Tables(s)) + Shared(fabric.value, Tables(s)) + domains.value)
  }

  function PoolRules(fabricTable: int, pools: seq<Prefix>): seq<RulePlan> {
    seq(|pools|, i requires 0 <= i < |pools| => RulePlan(fabricTable, FABRIC_RULE_PRIORITY, None, Some(pools[i])))
  }

  function SourceRules(fabricTable: int, table: int, sources: seq<Prefix>): seq<RulePlan> {
    if sources == [] then []
    else
      var p := sources[|sources| - 1];
      SourceRules(fabricTable, table, sources[..|sources| - 1])
      + [RulePlan(table, DOMAIN_RULE_PRIORITY, Some(p), None),
         RulePlan(fabricTable, FABRIC_RULE_PRIORITY, None, Some(p))]
  }

  function DomainRules(fabricTable: int, ds: seq<Domain>): seq<RulePlan> {
    if ds == [] then []
    else DomainRules(fabricTable, ds[..|ds| - 1]) + SourceRules(fabricTable, ds[|ds| - 1].table, ds[|ds| - 1].sources)
  }

  function AllRules(s: NodeSpec): seq<RulePlan> {
    PoolRules(s.fabricTable, s.pools) + DomainRules(s.fabricTable, s.domains)
  }

  // ---------------------------------------------------------------- duplicates

  /** The first of each key wins. */
  function AddRoute(routes: seq<RoutePlan>, r: RoutePlan): seq<RoutePlan> {
    if exists i | 0 <= i < |routes| :: RouteKey(routes[i]) == RouteKey(r) then routes else routes + [r]
  }

  function AddRoutes(routes: seq<RoutePlan>, more: seq<RoutePlan>): seq<RoutePlan> {
    if more == [] then routes else AddRoute(AddRoutes(routes, more[..|more| - 1]), more[|more| - 1])
  }

  function AddRule(rules: seq<RulePlan>, r: RulePlan): seq<RulePlan> {
    if exists i | 0 <= i < |rules| :: RuleKey(rules[i]) == RuleKey(r) then rules else rules + [r]
  }

  function AddRules(rules: seq<RulePlan>, more: seq<RulePlan>): seq<RulePlan> {
    if more == [] then rules else AddRule(AddRules(rules, more[..|more| - 1]), more[|more| - 1])
  }

  lemma {:induction false} AddRoutesConcat(routes: seq<RoutePlan>, xs: seq<RoutePlan>, ys: seq<RoutePlan>)
    ensures AddRoutes(routes, xs + ys) == AddRoutes(AddRoutes(routes, xs), ys)
  {
    if ys == [] {
      assert xs + ys == xs;
    } else {
      assert (xs + ys)[..|xs + ys| - 1] == xs + ys[..|ys| - 1];
      AddRoutesConcat(routes, xs, ys[..|ys| - 1]);
    }
  }

  lemma {:induction false} AddRulesConcat(rules: seq<RulePlan>, xs: seq<RulePlan>, ys: seq<RulePlan>)
    ensures AddRules(rules, xs + ys) == AddRules(AddRules(rules, xs), ys)
  {
    if ys == [] {
      assert xs + ys == xs;
    } else {
      assert (xs + ys)[..|xs + ys| - 1] == xs + ys[..|ys| - 1];
      AddRulesConcat(rules, xs, ys[..|ys| - 1]);
    }
  }

  lemma {:induction false} KeptAreAsked(routes: seq<RoutePlan>, more: seq<RoutePlan>)
    ensures forall r :: r in AddRoutes(routes, more) ==> r in routes || r in more
    ensures routes <= AddRoutes(routes, more)
  {
    if more != [] {
      KeptAreAsked(routes, more[..|more| - 1]);
      assert more == more[..|more| - 1] + [more[|more| - 1]];
    }
  }

  /** Every route asked for is there, or one with its table, prefix, type and metric is. */
  lemma {:induction false} AskedAreKept(routes: seq<RoutePlan>, more: seq<RoutePlan>, r: RoutePlan)
    requires r in more
    ensures exists k :: k in AddRoutes(routes, more) && RouteKey(k) == RouteKey(r)
  {
    var before, last := AddRoutes(routes, more[..|more| - 1]), more[|more| - 1];
    KeptAreAsked(before, [last]);
    assert more == more[..|more| - 1] + [last];
    if r == last {
      if exists i | 0 <= i < |before| :: RouteKey(before[i]) == RouteKey(r) {
        var i :| 0 <= i < |before| && RouteKey(before[i]) == RouteKey(r);
        assert before[i] in AddRoutes(routes, more);
      } else {
        assert last in AddRoutes(routes, more);
      }
    } else {
      AskedAreKept(routes, more[..|more| - 1], r);
      var k :| k in before && RouteKey(k) == RouteKey(r);
      assert k in AddRoutes(routes, more);
    }
  }

  lemma {:induction false} RulesAreAsked(rules: seq<RulePlan>, more: seq<RulePlan>)
    ensures forall r :: r in AddRules(rules, more) ==> r in rules || r in more
    ensures rules <= AddRules(rules, more)
  {
    if more != [] {
      RulesAreAsked(rules, more[..|more| - 1]);
      assert more == more[..|more| - 1] + [more[|more| - 1]];
    }
  }

  lemma {:induction false} AskedRulesAreKept(rules: seq<RulePlan>, more: seq<RulePlan>, r: RulePlan)
    requires r in more
    ensures exists k :: k in AddRules(rules, more) && RuleKey(k) == RuleKey(r)
  {
    var before, last := AddRules(rules, more[..|more| - 1]), more[|more| - 1];
    assert more == more[..|more| - 1] + [last];
    if r == last {
      if exists i | 0 <= i < |before| :: RuleKey(before[i]) == RuleKey(r) {
        var i :| 0 <= i < |before| && RuleKey(before[i]) == RuleKey(r);
        assert before[i] in AddRules(rules, more);
      } else {
        assert last in AddRules(rules, more);
      }
    } else {
      AskedRulesAreKept(rules, more[..|more| - 1], r);
      var k :| k in before && RuleKey(k) == RuleKey(r);
      assert k in AddRules(rules, more);
    }
  }
}

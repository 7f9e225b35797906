/** The loops of the routing compiler and of its validation, proved against the lists they build. */
module RoutingCompiler {
  import opened Common
  import opened Net
  import opened Routing

  datatype Compiled = Compiled(routes: seq<RoutePlan>, rules: seq<RulePlan>)

  function Compile(s: NodeSpec): Option<Compiled>
    requires PrefixesAreValid(s)
  {
    match AllPlans(s)
    case None => None
    case Some(plans) => Some(Compiled(AddRoutes([], plans), AddRules([], AllRules(s))))
  }

  class Compiler {
    var routes: seq<RoutePlan>
    var rules: seq<RulePlan>
    var routeKeys: set<(int, Prefix, RouteType, nat)>
    var ruleKeys: set<(int, Option<Prefix>, Option<Prefix>)>

    constructor ()
      ensures Valid() && routes == [] && rules == []
    {
      routes, rules, routeKeys, ruleKeys := [], [], {}, {};
    }

    /** The keys recorded are those of the lists. */
    ghost predicate Valid()
      reads this
    {
      && (forall k :: k in routeKeys <==> exists i :: 0 <= i < |routes| && RouteKey(routes[i]) == k)
      && (forall k :: k in ruleKeys <==> exists i :: 0 <= i < |rules| && RuleKey(rules[i]) == k)
    }

    method Add(r: RoutePlan)
      requires Valid()
      modifies this`routes, this`routeKeys
      ensures Valid() && routes == Routing.AddRoute(old(routes), r)
    {
      if RouteKey(r) in routeKeys {
        return;
      }
      routeKeys := routeKeys + {RouteKey(r)};
      routes := routes + [r];
      assert forall i :: 0 <= i < |old(routes)| ==> routes[i] == old(routes)[i];
      assert routes[|routes| - 1] == r;
      forall k ensures k in routeKeys <==> exists i :: 0 <= i < |routes| && RouteKey(routes[i]) == k {
        if k in routeKeys && k != RouteKey(r) {
          var i :| 0 <= i < |old(routes)| && RouteKey(old(routes)[i]) == k;
          assert RouteKey(routes[i]) == k;
        }
      }
    }

    method AddPolicy(r: RulePlan)
      requires Valid()
      modifies this`rules, this`ruleKeys
      ensures Valid() && rules == Routing.AddRule(old(rules), r)
    {
      if RuleKey(r) in ruleKeys {
        return;
      }
      ruleKeys := ruleKeys + {RuleKey(r)};
      rules := rules + [r];
      assert forall i :: 0 <= i < |old(rules)| ==> rules[i] == old(rules)[i];
      assert rules[|rules| - 1] == r;
      forall k ensures k in ruleKeys <==> exists i :: 0 <= i < |rules| && RuleKey(rules[i]) == k {
        if k in ruleKeys && k != RuleKey(r) {
          var i :| 0 <= i < |old(rules)| && RuleKey(old(rules)[i]) == k;
          assert RuleKey(rules[i]) == k;
        }
      }
    }

    method AddEach(plans: seq<RoutePlan>)
      requires Valid()
      modifies this`routes, this`routeKeys
      ensures Valid() && routes == AddRoutes(old(routes), plans)
    {
      for i := 0 to |plans|
        invariant Valid() && routes == AddRoutes(old(routes), plans[..i])
      {
        assert plans[..i + 1][..i] == plans[..i];
        Add(plans[i]);
      }
      assert plans[..|plans|] == plans;
    }

    method AddPools(s: NodeSpec, tables: seq<int>)
      requires Valid()
      modifies this
      ensures Valid()
      ensures routes == AddRoutes(old(routes), PoolGuards(s.pools, tables))
      ensures rules == AddRules(old(rules), PoolRules(s.fabricTable, s.pools))
    {
      var policy := PoolRules(s.fabricTable, s.pools);
      for i := 0 to |s.pools|
        invariant Valid()
        invariant routes == AddRoutes(old(routes), PoolGuards(s.pools[..i], tables))
        invariant rules == AddRules(old(rules), policy[..i])
      {
        assert policy[..i + 1][..i] == policy[..i];
        assert s.pools[..i + 1][..i] == s.pools[..i];
        AddPolicy(RulePlan(s.fabricTable, FABRIC_RULE_PRIORITY, None, Some(s.pools[i])));
        AddRoutesConcat(old(routes), PoolGuards(s.pools[..i], tables), GuardAll(s.pools[i], tables));
        AddEach(GuardAll(s.pools[i], tables));
      }
      assert s.pools[..|s.pools|] == s.pools && policy[..|s.pools|] == policy;
    }

    method AddShared(plans: seq<RoutePlan>, tables: seq<int>)
      requires Valid()
      modifies this`routes, this`routeKeys
      ensures Valid() && routes == AddRoutes(old(routes), Shared(plans, tables))
    {
      for i := 0 to |plans|
        invariant Valid() && routes == AddRoutes(old(routes), Shared(plans[..i], tables))
      {
        assert plans[..i + 1][..i] == plans[..i];
        AddRoutesConcat(old(routes), Shared(plans[..i], tables), InTables(plans[i], tables));
        AddEach(InTables(plans[i], tables));
      }
      assert plans[..|plans|] == plans;
    }

    method AddSources(fabricTable: int, d: Domain)
      requires Valid()
      modifies this
      ensures Valid()
      ensures routes == AddRoutes(old(routes), SourceGuards(fabricTable, d.table, d.sources))
      ensures rules == AddRules(old(rules), SourceRules(fabricTable, d.table, d.sources))
    {
      for i := 0 to |d.sources|
        invariant Valid()
        invariant routes == AddRoutes(old(routes), SourceGuards(fabricTable, d.table, d.sources[..i]))
        invariant rules == AddRules(old(rules), SourceRules(fabricTable, d.table, d.sources[..i]))
      {
        var p := d.sources[i];
        assert d.sources[..i + 1][..i] == d.sources[..i];
        var guards := [Guard(fabricTable, p), Guard(d.table, p)];
        var policy := [RulePlan(d.table, DOMAIN_RULE_PRIORITY, Some(p), None),
                       RulePlan(fabricTable, FABRIC_RULE_PRIORITY, None, Some(p))];
        AddRoutesConcat(old(routes), SourceGuards(fabricTable, d.table, d.sources[..i]), guards);
        AddRulesConcat(old(rules), SourceRules(fabricTable, d.table, d.sources[..i]), policy);
        AddEach(guards);
        AddPolicies(policy);
      }
      assert d.sources[..|d.sources|] == d.sources;
    }

    method AddPolicies(policy: seq<RulePlan>)
      requires Valid()
      modifies this`rules, this`ruleKeys
      ensures Valid() && rules == AddRules(old(rules), policy)
    {
      for i := 0 to |policy|
        invariant Valid() && rules == AddRules(old(rules), policy[..i])
      {
        assert policy[..i + 1][..i] == policy[..i];
        AddPolicy(policy[i]);
      }
      assert policy[..|policy|] == policy;
    }

    method AddReturns(fabricTable: int, d: Domain, plans: seq<RoutePlan>)
      requires Valid() && forall i | 0 <= i < |plans| :: ValidPrefix(plans[i].prefix)
      modifies this`routes, this`routeKeys
      ensures Valid() && routes == AddRoutes(old(routes), Returns(fabricTable, d, plans))
    {
      for i := 0 to |plans|
        invariant Valid() && routes == AddRoutes(old(routes), Returns(fabricTable, d, plans[..i]))
      {
        assert plans[..i + 1][..i] == plans[..i];
        AddRoutesConcat(old(routes), Returns(fabricTable, d, plans[..i]), WithReturn(fabricTable, d, plans[i]));
        AddEach(WithReturn(fabricTable, d, plans[i]));
      }
      assert plans[..|plans|] == plans;
    }

    method AddDomain(s: NodeSpec, d: Domain) returns (ok: bool)
      requires Valid() && DomainPrefixesAreValid(d)
      modifies this
      ensures Valid() && ok == DomainPlans(s, d).Some?
      ensures ok ==> routes == AddRoutes(old(routes), DomainPlans(s, d).value)
      ensures ok ==> rules == AddRules(old(rules), SourceRules(s.fabricTable, d.table, d.sources))
    {
      ghost var before := routes;
      AddSources(s.fabricTable, d);
      var canonical := FirstOfEachFamily(d.sources);
      AddEach(ZeroGuards(d.table, canonical));
      var plans := CompilePeerRoutes(d.routes, d.table, s.links);
      if plans.None? {
        return false;
      }
      PlansAreRoutes(d.routes, d.table, s.links);
      AddReturns(s.fabricTable, d, plans.value);
      AddReturns(s.fabricTable, d, Throws(d.table, d.announcements));
      ghost var a, b, c := SourceGuards(s.fabricTable, d.table, d.sources), ZeroGuards(d.table, canonical),
        Returns(s.fabricTable, d, plans.value);
      AddRoutesConcat(before, a, b);
      AddRoutesConcat(before, a + b, c);
      AddRoutesConcat(before, a + b + c, Returns(s.fabricTable, d, Throws(d.table, d.announcements)));
      return true;
    }

    method Run(s: NodeSpec) returns (ok: bool)
      requires Valid() && routes == [] && rules == [] && PrefixesAreValid(s)
      modifies this
      ensures Valid() && ok == Compile(s).Some?
      ensures ok ==> Compiled(routes, rules) == Compile(s).value
    {
      var tables := Tables(s);
      AddPools(s, tables);
      var plans := CompilePeerRoutes(s.fabricRoutes, s.fabricTable, s.links);
      if plans.None? {
        return false;
      }
      AddShared(plans.value, tables);
      ghost var a, b := PoolGuards(s.pools, tables), Shared(plans.value, tables);
      AddRoutesConcat([], a, b);
      AddRulesConcat([], PoolRules(s.fabricTable, s.pools), DomainRules(s.fabricTable, s.domains));
      ok := AddDomains(s);
      if ok {
        AddRoutesConcat([], a + b, AllDomainPlans(s, s.domains).value);
      }
    }

    method AddDomains(s: NodeSpec) returns (ok: bool)
      requires Valid() && PrefixesAreValid(s)
      modifies this
      ensures Valid() && ok == AllDomainPlans(s, s.domains).Some?
      ensures ok ==> routes == AddRoutes(old(routes), AllDomainPlans(s, s.domains).value)
      ensures ok ==> rules == AddRules(old(rules), DomainRules(s.fabricTable, s.domains))
    {
      ghost var asked: seq<RoutePlan> := [];
      for k := 0 to |s.domains|
        invariant Valid() && AllDomainPlans(s, s.domains[..k]) == Some(asked)
        invariant routes == AddRoutes(old(routes), asked)
        invariant rules == AddRules(old(rules), DomainRules(s.fabricTable, s.domains[..k]))
      {
        var d := s.domains[k];
        DomainStep(s, k, asked);
        var good := AddDomain(s, d);
        if !good {
          NoPlansFrom(s, k, |s.domains|);
          assert s.domains[..|s.domains|] == s.domains;
          return false;
        }
        AddRoutesConcat(old(routes), asked, DomainPlans(s, d).value);
        AddRulesConcat(old(rules), DomainRules(s.fabricTable, s.domains[..k]),
                       SourceRules(s.fabricTable, d.table, d.sources));
        asked := asked + DomainPlans(s, d).value;
      }
      assert s.domains[..|s.domains|] == s.domains;
      return true;
    }
  }

  lemma DomainStep(s: NodeSpec, k: nat, asked: seq<RoutePlan>)
    requires PrefixesAreValid(s) && k < |s.domains| && AllDomainPlans(s, s.domains[..k]) == Some(asked)
    ensures DomainPrefixesAreValid(s.domains[k])
    ensures AllDomainPlans(s, s.domains[..k + 1])
         == if DomainPlans(s, s.domains[k]).None? then None else Some(asked + DomainPlans(s, s.domains[k]).value)
    ensures DomainRules(s.fabricTable, s.domains[..k + 1])
         == DomainRules(s.fabricTable, s.domains[..k])
             + SourceRules(s.fabricTable, s.domains[k].table, s.domains[k].sources)
  {
    assert s.domains[..k + 1][..k] == s.domains[..k];
  }

  /** A domain that cannot be compiled fails the whole. */
  lemma {:induction false} NoPlansFrom(s: NodeSpec, k: nat, n: nat)
    requires PrefixesAreValid(s) && k < n <= |s.domains| && DomainPlans(s, s.domains[k]).None?
    ensures AllDomainPlans(s, s.domains[..n]).None?
  {
    assert s.domains[..n][..n - 1] == s.domains[..n - 1];
    if n > k + 1 {
      NoPlansFrom(s, k, n - 1);
    }
  }

  method CompilePeerRoutes(rs: seq<PeerRoutes>, table: int, links: map<string, string>)
    returns (plans: Option<seq<RoutePlan>>)
    ensures plans == PeerPlans(rs, table, links)
  {
    var built: seq<RoutePlan> := [];
    for i := 0 to |rs|
      invariant PeerPlans(rs[..i], table, links) == Some(built)
    {
      assert rs[..i + 1][..i] == rs[..i];
      if rs[i].peer !in links {
        UnknownPeer(rs, table, links, i, |rs|);
        return None;
      }
      var interface := links[rs[i].peer];
      ghost var more := PlansOf(rs[i].peer, interface, table, rs[i].routes);
      ghost var start := built;
      for j := 0 to |rs[i].routes|
        invariant built == start + more[..j]
      {
        var item := rs[i].routes[j];
        assert more[..j + 1] == more[..j] + [more[j]];
        built := built + [RoutePlan(table, item.prefix, ViaPeer, rs[i].peer, interface, item.metric)];
      }
      assert more[..|more|] == more;
    }
    assert rs[..|rs|] == rs;
    return Some(built);
  }

  lemma {:induction false} UnknownPeer(rs: seq<PeerRoutes>, table: int, links: map<string, string>, i: nat, n: nat)
    requires i < n <= |rs| && rs[i].peer !in links
    ensures PeerPlans(rs[..n], table, links).None? && rs[..|rs|] == rs
  {
    assert rs[..n][..n - 1] == rs[..n - 1];
    if n > i + 1 {
      UnknownPeer(rs, table, links, i, n - 1);
    }
  }

  method FirstOfEachFamily(sources: seq<Prefix>) returns (canonical: seq<Prefix>)
    ensures canonical == CanonicalSources(sources)
  {
    var seen: set<Family> := {};
    canonical := [];
    for i := 0 to |sources|
      invariant canonical == CanonicalSources(sources[..i])
      invariant forall f :: f in seen <==> HasFamily(canonical, f)
    {
      assert sources[..i + 1][..i] == sources[..i];
      if sources[i].family in seen {
        continue;
      }
      seen := seen + {sources[i].family};
      ghost var before := canonical;
      canonical := canonical + [sources[i]];
      forall f ensures f in seen <==> HasFamily(canonical, f) {
        assert canonical[|before|] == sources[i];
        if HasFamily(before, f) {
          var k :| 0 <= k < |before| && before[k].family == f;
          assert canonical[k].family == f;
        }
      }
    }
    assert sources[..|sources|] == sources;
  }
}

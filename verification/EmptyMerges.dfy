/** When the policies listed on a gateway ask for no limits at all. */
module EmptyMerges {
  import opened Cluster
  import opened Common
  import opened LimitIndexes
  import opened LimitOrder
  import opened Merging
  import opened MergeLaws
  import opened Plans
  import opened Sums
  import opened TargetRefs

  predicate NoLimits(rateLimits: seq<RateLimitSpec>) {
    forall rl :: rl in rateLimits ==> rl.limits == []
  }

  /** No policy, or one without any limit. */
  predicate Limitless(policies: Policies, k: Option<ObjectKey>) {
    k.Some? && k.value in policies ==> NoLimits(policies[k.value].rateLimits)
  }

  predicate NoHostnames(policies: Policies, routes: Routes, k: ObjectKey) {
    k in policies && RouteKey(policies, k) in routes ==> routes[RouteKey(policies, k)].hostnames == []
  }

  /** A listed policy adds no limit to the merge: a route policy whose route names no
      hosts, or which has no limits beside a gateway-level policy without any; or a
      gateway-level policy without limits. */
  predicate AsksNothing(policies: Policies, routes: Routes, gateway: Option<ObjectKey>, k: ObjectKey) {
    if IsRoutePolicy(policies, k) then
      NoHostnames(policies, routes, k) || (Limitless(policies, Some(k)) && Limitless(policies, gateway))
    else
      IsGatewayPolicy(policies, k) ==> Limitless(policies, Some(k))
  }

  lemma {:induction false} TimesPositive(n: nat, c: nat)
    ensures Times(n, c) > 0 <==> n > 0 && c > 0
  {
    if n > 0 {
      TimesPositive(n - 1, c);
    }
  }

  lemma NoShareOfNothing(policies: Policies, k: Option<ObjectKey>, l: Limit)
    requires Limitless(policies, k)
    ensures LimitShare(policies, k, l) == 0
  {
    if k.Some? && k.value in policies {
      SumZero(LimitCopies(l), policies[k.value].rateLimits);
    }
  }

  lemma SomeShare(policies: Policies, k: Option<ObjectKey>) returns (l: Limit)
    requires !Limitless(policies, k)
    ensures LimitShare(policies, k, l) > 0
  {
    var rls := policies[k.value].rateLimits;
    var rl :| rl in rls && rl.limits != [];
    l := rl.limits[0];
    assert l in rl.limits;
    SumAtLeast(LimitCopies(l), rls, rl);
    assert LimitCopies(l)(rl) > 0;
  }

  lemma NothingContributed(policies: Policies, routes: Routes, hostnames: seq<string>, gateway: Option<ObjectKey>,
                           d: string, l: Limit, k: ObjectKey)
    requires AsksNothing(policies, routes, gateway, k)
    ensures Contribution(policies, routes, hostnames, gateway, d, l, k) == 0
  {
    if IsRoutePolicy(policies, k) {
      TimesPositive(RouteUses(policies, routes, k, d),
                    LimitShare(policies, Some(k), l) + LimitShare(policies, gateway, l));
      if !NoHostnames(policies, routes, k) {
        NoShareOfNothing(policies, Some(k), l);
        NoShareOfNothing(policies, gateway, l);
      }
    } else if IsGatewayPolicy(policies, k) {
      TimesPositive(GatewayUses(hostnames, d), LimitShare(policies, Some(k), l));
      NoShareOfNothing(policies, Some(k), l);
    }
  }

  lemma SomethingContributed(policies: Policies, routes: Routes, hostnames: seq<string>, gateway: Option<ObjectKey>,
                             k: ObjectKey) returns (d: string, l: Limit)
    requires !AsksNothing(policies, routes, gateway, k)
    ensures Contribution(policies, routes, hostnames, gateway, d, l, k) > 0
  {
    if IsRoutePolicy(policies, k) {
      var names := routes[RouteKey(policies, k)].hostnames;
      d := names[0];
      assert d in names;
      l := SomeShare(policies, if Limitless(policies, Some(k)) then gateway else Some(k));
      TimesPositive(RouteUses(policies, routes, k, d),
                    LimitShare(policies, Some(k), l) + LimitShare(policies, gateway, l));
    } else {
      d := if hostnames == [] then "*" else hostnames[0];
      assert hostnames != [] ==> d in hostnames;
      l := SomeShare(policies, Some(k));
      TimesPositive(GatewayUses(hostnames, d), LimitShare(policies, Some(k), l));
    }
  }

  /** The merge for a gateway is empty if and only if every listed policy asks for nothing. */
  lemma EmptyMergeIff(s: ClusterState, refs: seq<ObjectKey>, g: ObjectKey)
    ensures (forall e: Entry :: e.gateway == g ==> MergedAt(s, refs, e) == 0) <==>
            (forall k :: k in refs ==> AsksNothing(s.policies, s.topo.routes, GatewayRef(s.policies, refs), k))
  {
    var gateway := GatewayRef(s.policies, refs);
    if k :| k in refs && !AsksNothing(s.policies, s.topo.routes, gateway, k) {
      var d, l := SomethingContributed(s.policies, s.topo.routes, HostsOf(s.topo, g), gateway, k);
      SumAtLeast(Contributions(s.policies, s.topo.routes, HostsOf(s.topo, g), gateway, d, l), refs, k);
      assert MergedAt(s, refs, Entry(g, d, l)) > 0;
    } else {
      forall e: Entry | e.gateway == g
        ensures MergedAt(s, refs, e) == 0
      {
        var f := Contributions(s.policies, s.topo.routes, HostsOf(s.topo, g), gateway, e.domain, e.limit);
        forall k | k in refs
          ensures f(k) == 0
        {
          NothingContributed(s.policies, s.topo.routes, HostsOf(s.topo, g), gateway, e.domain, e.limit, k);
        }
        if Sum(f, refs) > 0 {
          SumPositive(f, refs);
        }
      }
    }
  }

  // ----- merges read only the policies they list -----

  predicate AgreeAt(a: Policies, b: Policies, k: ObjectKey) {
    (k in a <==> k in b) && (k in a ==> a[k] == b[k])
  }

  ghost predicate AgreeOn(a: Policies, b: Policies, refs: seq<ObjectKey>) {
    forall k :: k in refs ==> AgreeAt(a, b, k)
  }

  lemma {:induction false} SameLoad(a: Policies, b: Policies, refs: seq<ObjectKey>)
    requires AgreeOn(a, b, refs)
    ensures Load(a, refs) == Load(b, refs)
  {
    if refs != [] {
      assert forall k :: k in refs[..|refs| - 1] ==> k in refs;
      assert AgreeAt(a, b, refs[|refs| - 1]);
      SameLoad(a, b, refs[..|refs| - 1]);
    }
  }

  lemma {:induction false} LoadedGatewayIsListed(policies: Policies, refs: seq<ObjectKey>)
    ensures var gateway := GatewayRef(policies, refs); gateway.Some? ==> gateway.value in refs
  {
    if refs != [] {
      var init := refs[..|refs| - 1];
      LoadedGatewayIsListed(policies, init);
      assert refs[|refs| - 1] in refs && forall k :: k in init ==> k in refs;
    }
  }

  lemma SameRole(a: Policies, b: Policies, routes: Routes, k: ObjectKey)
    requires AgreeAt(a, b, k)
    ensures IsRoutePolicy(a, k) == IsRoutePolicy(b, k) && IsGatewayPolicy(a, k) == IsGatewayPolicy(b, k)
    ensures forall d :: RouteUses(a, routes, k, d) == RouteUses(b, routes, k, d)
    ensures forall l :: LimitShare(a, Some(k), l) == LimitShare(b, Some(k), l)
  {
  }

  lemma SameContribution(a: Policies, b: Policies, routes: Routes, hostnames: seq<string>, gateway: Option<ObjectKey>,
                         d: string, l: Limit, k: ObjectKey)
    requires AgreeAt(a, b, k) && LimitShare(a, gateway, l) == LimitShare(b, gateway, l)
    ensures Contribution(a, routes, hostnames, gateway, d, l, k) == Contribution(b, routes, hostnames, gateway, d, l, k)
  {
    SameRole(a, b, routes, k);
  }

  lemma SameMerge(s: ClusterState, t: ClusterState, refs: seq<ObjectKey>, e: Entry)
    requires s.topo == t.topo && AgreeOn(s.policies, t.policies, refs)
    ensures MergedAt(s, refs, e) == MergedAt(t, refs, e)
  {
    SameLoad(s.policies, t.policies, refs);
    LoadedGatewayIsListed(s.policies, refs);
    var gateway := GatewayRef(s.policies, refs);
    if gateway.Some? {
      SameRole(s.policies, t.policies, s.topo.routes, gateway.value);
    }
    var hosts := HostsOf(s.topo, e.gateway);
    var f := Contributions(s.policies, s.topo.routes, hosts, gateway, e.domain, e.limit);
    var h := Contributions(t.policies, t.topo.routes, hosts, gateway, e.domain, e.limit);
    forall k | k in refs
      ensures f(k) == h(k)
    {
      SameContribution(s.policies, t.policies, s.topo.routes, hosts, gateway, e.domain, e.limit, k);
    }
    SumCongruent(f, h, refs);
  }
}

/** The two merges agree on domains: what is written to Limitador for a gateway
    is reachable through exactly one policy of that gateway's plugin. */
module SharedDomains {
  import opened ActionLaws
  import opened Common
  import opened LimitOrder
  import opened Merging
  import opened MergeLaws
  import opened Namespaces
  import opened Sums
  import opened WasmPlugins

  ghost predicate SamePartDomains<T, U>(a: seq<Part<T>>, b: seq<Part<U>>) {
    |a| == |b| && forall i :: 0 <= i < |a| ==> a[i].domains == b[i].domains
  }

  lemma SharedDomainsOf<T, U>(a: seq<Part<T>>, b: seq<Part<U>>)
    requires SamePartDomains(a, b)
    ensures Domains(a) == Domains(b)
  {
    forall d
      ensures d in Domains(a) <==> d in Domains(b)
    {
      if d in Domains(a) {
        var i :| 0 <= i < |a| && d in a[i].domains;
        assert d in b[i].domains;
      }
      if d in Domains(b) {
        var i :| 0 <= i < |b| && d in b[i].domains;
        assert d in a[i].domains;
      }
    }
  }

  lemma SameParts<T, U>(x: Option<Part<T>>, y: Option<Part<U>>, f: ObjectKey -> Part<T>, g: ObjectKey -> Part<U>,
                        ks: seq<ObjectKey>)
    requires (x.Some? <==> y.Some?) && (x.Some? ==> x.value.domains == y.value.domains)
    requires forall k :: k in ks ==> f(k).domains == g(k).domains
    ensures SamePartDomains(PartsOf(x, f, ks), PartsOf(y, g, ks))
  {
    var a, b := PartsOf(x, f, ks), PartsOf(y, g, ks);
    var n := if x.Some? then 1 else 0;
    forall i | 0 <= i < |a|
      ensures a[i].domains == b[i].domains
    {
      if i >= n {
        assert ks[i - n] in ks && a[i] == f(ks[i - n]) && b[i] == g(ks[i - n]);
      }
    }
  }

  /** Limits and actions are filed under the same domains. */
  lemma DomainsAgree(policies: Policies, routes: Routes, hostnames: seq<string>, loaded: Loaded)
    ensures Domains(LimitParts(policies, routes, hostnames, loaded)) ==
            Domains(ActionParts(policies, routes, hostnames, loaded))
  {
    SameParts(GatewayLimitPart(policies, hostnames, loaded.gateway),
        GatewayActionPart(policies, hostnames, loaded.gateway),
              RouteLimits(policies, routes, loaded.gateway), RouteActionsFor(policies, routes, loaded.gateway),
              loaded.routes);
    SharedDomainsOf(LimitParts(policies, routes, hostnames, loaded), ActionParts(policies, routes, hostnames, loaded));
  }

  lemma {:induction false} GatheredHasDomain<T>(parts: seq<Part<T>>, d: string)
    requires Gather(parts, d) != []
    ensures d in Domains(parts)
  {
    var init, last := parts[..|parts| - 1], parts[|parts| - 1];
    assert parts == init + [last];
    DomainsNext(init, last, d);
    if Gather(init, d) != [] {
      GatheredHasDomain(init, d);
    }
  }

  /** Every namespace the merge writes to Limitador for a gateway is the rate limit
      domain of one policy of the gateway's plugin, and of no other. */
  lemma NamespaceHasOnePluginPolicy(gwKey: ObjectKey, policies: Policies, routes: Routes, hostnames: seq<string>,
                                    refs: seq<ObjectKey>, d: string, l: Limit)
    requires Load(policies, refs).Ok?
    requires MergeCount(policies, routes, hostnames, refs, d, l) > 0
    ensures var plugin := PluginPolicies(gwKey, ActionParts(policies, routes, hostnames, Load(policies, refs).value));
            exists p :: p in plugin && p.rateLimitDomain == MarshallNamespace(gwKey, d) && p.hostnames == [d]
                        && forall q :: q in plugin && q.rateLimitDomain == MarshallNamespace(gwKey, d) ==> q == p
  {
    var loaded := Load(policies, refs).value;
    var limitParts := LimitParts(policies, routes, hostnames, loaded);
    var actionParts := ActionParts(policies, routes, hostnames, loaded);
    MergeLaw(policies, routes, hostnames, refs, d, l);
    GatheredHasDomain(limitParts, d);
    DomainsAgree(policies, routes, hostnames, loaded);
    var plugin := PluginPolicies(gwKey, actionParts);
    var p := PolicyFor(gwKey, d, Gather(actionParts, d));
    assert p in plugin;
    forall q | q in plugin && q.rateLimitDomain == MarshallNamespace(gwKey, d)
      ensures q == p
    {
      SamePrefix(gwKey.namespace + "/" + gwKey.name + "#", q.name, d);
    }
  }

  lemma SamePrefix(prefix: string, a: string, b: string)
    requires prefix + a == prefix + b
    ensures a == b
  {
    assert (prefix + a)[|prefix|..] == a;
    assert (prefix + b)[|prefix|..] == b;
  }

  lemma {:induction false} PartItemsAreGathered<T>(parts: seq<Part<T>>, i: nat, d: string, x: T)
    requires i < |parts| && d in parts[i].domains
    ensures Count(Gather(parts, d), x) >= Count(parts[i].items, x)
  {
    var init, last := parts[..|parts| - 1], parts[|parts| - 1];
    assert parts == init + [last];
    GatherNext(init, last, d, x);
    if i < |init| {
      PartItemsAreGathered(init, i, d, x);
    } else {
      assert Occ(d, last.domains) >= 1;
    }
  }

  lemma PartHoldsGatewayLimits(policies: Policies, routes: Routes, hostnames: seq<string>, loaded: Loaded,
                               part: Part<Limit>, l: Limit)
    requires part in LimitParts(policies, routes, hostnames, loaded)
    ensures Count(part.items, l) >= Count(LimitsOfKey(policies, loaded.gateway), l)
  {
    if Some(part) != GatewayLimitPart(policies, hostnames, loaded.gateway) {
      var k :| k in loaded.routes && part == RouteLimitPart(policies, routes, loaded.gateway, k);
      CountConcat(LimitsOfKey(policies, Some(k)), LimitsOfKey(policies, loaded.gateway), l);
    }
  }

  /** The gateway-level policy's limits apply under every domain of the merge. */
  lemma GatewayLimitsApplyEverywhere(policies: Policies, routes: Routes, hostnames: seq<string>,
                                     refs: seq<ObjectKey>, d: string, l: Limit)
    requires Load(policies, refs).Ok? && MergeDomain(policies, routes, hostnames, refs, d)
    ensures MergeCount(policies, routes, hostnames, refs, d, l) >=
            LimitShare(policies, GatewayRef(policies, refs), l)
  {
    LimitShareIsCount(policies, GatewayRef(policies, refs), l);
    var loaded := Load(policies, refs).value;
    var parts := LimitParts(policies, routes, hostnames, loaded);
    MergeDomainsIff(policies, routes, hostnames, refs, d);
    DomainsAgree(policies, routes, hostnames, loaded);
    var i :| 0 <= i < |parts| && d in parts[i].domains;
    PartItemsAreGathered(parts, i, d, l);
    PartHoldsGatewayLimits(policies, routes, hostnames, loaded, parts[i], l);
    MergeLaw(policies, routes, hostnames, refs, d, l);
  }

  lemma PartHoldsGatewayActions(policies: Policies, routes: Routes, hostnames: seq<string>, loaded: Loaded,
                                part: Part<GatewayAction>, a: GatewayAction)
    requires part in ActionParts(policies, routes, hostnames, loaded)
    ensures Count(part.items, a) >= Count(GatewayActionsOfKey(policies, loaded.gateway), a)
  {
    if Some(part) != GatewayActionPart(policies, hostnames, loaded.gateway) {
      var k :| k in loaded.routes && part == RouteActionPart(policies, routes, loaded.gateway, k);
      CountConcat(RouteActions(policies, routes, k), GatewayActionsOfKey(policies, loaded.gateway), a);
    }
  }

  /** And its actions are asked for under every domain, so those limits are consulted. */
  lemma GatewayActionsApplyEverywhere(policies: Policies, routes: Routes, hostnames: seq<string>,
                                      refs: seq<ObjectKey>, d: string, a: GatewayAction)
    requires Load(policies, refs).Ok? && MergeDomain(policies, routes, hostnames, refs, d)
    ensures ActionCount(policies, routes, hostnames, refs, d, a) >=
            ActionShare(policies, GatewayRef(policies, refs), None, a)
  {
    var loaded := Load(policies, refs).value;
    var parts := ActionParts(policies, routes, hostnames, loaded);
    MergeDomainsIff(policies, routes, hostnames, refs, d);
    var i :| 0 <= i < |parts| && d in parts[i].domains;
    PartItemsAreGathered(parts, i, d, a);
    PartHoldsGatewayActions(policies, routes, hostnames, loaded, parts[i], a);
    ActionLaw(policies, routes, hostnames, refs, d, a);
    GatewayShareIsCount(policies, loaded.gateway, a);
  }
}

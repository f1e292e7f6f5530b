/** controllers/apim/ratelimitpolicy_wasm_plugins.go and pkg/rlptools/wasm_utils.go:
    the second merge loop, which files gateway actions instead of limits. */
module WasmPlugins {
  import opened Common
  import opened LimitIndexes
  import opened Merging
  import opened Namespaces
  import opened RouteRules
  import opened TargetRefs

  datatype GatewayAction = GatewayAction(configurations: seq<Configuration>, rules: seq<Rule>)

  function ActionOf(rl: RateLimitSpec, route: Option<HTTPRoute>): GatewayAction {
    GatewayAction(rl.configurations,
                  if route.Some? && rl.rules == [] then RulesOfRoute(route.value.hostnames, route.value.rules)
                  else rl.rules)
  }

  function ActionsOf(rateLimits: seq<RateLimitSpec>, route: Option<HTTPRoute>): seq<GatewayAction> {
    seq(|rateLimits|, i requires 0 <= i < |rateLimits| => ActionOf(rateLimits[i], route))
  }

  /** The action a rate limit asks for: its own configurations, and its own rules or,
      where it has none, those compiled from the route, if there is one. */
  predicate AskedBy(a: GatewayAction, rl: RateLimitSpec, route: Option<HTTPRoute>) {
    && a.configurations == rl.configurations
    && (rl.rules != [] ==> a.rules == rl.rules)
    && (rl.rules == [] && route.Some? ==> a.rules == RulesOfRoute(route.value.hostnames, route.value.rules))
    && (rl.rules == [] && route.None? ==> a.rules == [])
  }

  /** One action for each rate limit, in order. */
  ghost predicate AskedByAll(actions: seq<GatewayAction>, rateLimits: seq<RateLimitSpec>, route: Option<HTTPRoute>) {
    |actions| == |rateLimits| && forall i :: 0 <= i < |actions| ==> AskedBy(actions[i], rateLimits[i], route)
  }

  method GatewayActionsFromRateLimitPolicy(policy: Policy, route: Option<HTTPRoute>)
    returns (actions: seq<GatewayAction>)
    ensures actions == ActionsOf(policy.rateLimits, route)
    ensures AskedByAll(actions, policy.rateLimits, route)
  {
    actions := [];
    var rls := policy.rateLimits;
    for i := 0 to |rls|
      invariant actions == ActionsOf(rls[..i], route)
    {
      var rules := rls[i].rules;
      if route.Some? && |rules| == 0 {
        rules := RulesFromHTTPRoute(route.value.hostnames, route.value.rules);
      }
      actions := actions + [GatewayAction(rls[i].configurations, rules)];
    }
    assert rls[..|rls|] == rls;
  }

  // ----- the parts the merge gathers -----

  function GatewayActionsOfKey(policies: Policies, k: Option<ObjectKey>): seq<GatewayAction> {
    if k.Some? && k.value in policies then ActionsOf(policies[k.value].rateLimits, None) else []
  }

  function RouteActions(policies: Policies, routes: Routes, k: ObjectKey): seq<GatewayAction> {
    if k in policies && RouteKey(policies, k) in routes
    then ActionsOf(policies[k].rateLimits, Some(routes[RouteKey(policies, k)])) else []
  }

  function RouteActionPart(policies: Policies, routes: Routes, gateway: Option<ObjectKey>,
                           k: ObjectKey): Part<GatewayAction> {
    Part(HostnamesOfRoute(policies, routes, k),
         RouteActions(policies, routes, k) + GatewayActionsOfKey(policies, gateway))
  }

  function RouteActionsFor(policies: Policies, routes: Routes,
                           gateway: Option<ObjectKey>): ObjectKey -> Part<GatewayAction> {
    k => RouteActionPart(policies, routes, gateway, k)
  }

  function GatewayActionPart(policies: Policies, hostnames: seq<string>,
                             gateway: Option<ObjectKey>): Option<Part<GatewayAction>> {
    if gateway.Some? then Some(Part(GatewayDomains(hostnames), GatewayActionsOfKey(policies, gateway))) else None
  }

  function ActionParts(policies: Policies, routes: Routes, hostnames: seq<string>,
                       loaded: Loaded): seq<Part<GatewayAction>> {
    PartsOf(GatewayActionPart(policies, hostnames, loaded.gateway), RouteActionsFor(policies, routes, loaded.gateway),
            loaded.routes)
  }

  // ----- the WASM plugin -----

  const UPSTREAM_CLUSTER := "kuadrant-rate-limiting-service"

  datatype WasmPolicy = WasmPolicy(
    name: string, rateLimitDomain: string, upstreamCluster: string,
    hostnames: seq<string>, gatewayActions: seq<GatewayAction>)

  function PolicyFor(gwKey: ObjectKey, domain: string, actions: seq<GatewayAction>): WasmPolicy {
    WasmPolicy(domain, MarshallNamespace(gwKey, domain), UPSTREAM_CLUSTER, [domain], actions)
  }

  /** A plugin policy for one domain of a gateway: it acts on requests to that domain and
      asks for the limits filed under it. */
  predicate ServesDomain(w: WasmPolicy, gwKey: ObjectKey, domain: string) {
    && w.name == domain && w.hostnames == [domain]
    && w.rateLimitDomain == MarshallNamespace(gwKey, domain)
    && w.upstreamCluster == "kuadrant-rate-limiting-service"
  }

  /** The policies of a plugin, whatever their order. */
  ghost function PluginPolicies(gwKey: ObjectKey, parts: seq<Part<GatewayAction>>): set<WasmPolicy> {
    set d | d in Domains(parts) :: PolicyFor(gwKey, d, Gather(parts, d))
  }

  /** The plugin as a list, its domains visited in the given order. */
  function ListPolicies(gwKey: ObjectKey, parts: seq<Part<GatewayAction>>, domains: seq<string>): seq<WasmPolicy> {
    seq(|domains|, i requires 0 <= i < |domains| => PolicyFor(gwKey, domains[i], Gather(parts, domains[i])))
  }

  /** One order in which the keys of the domain map can be visited. */
  ghost predicate Visits(domains: seq<string>, parts: seq<Part<GatewayAction>>) {
    NoDuplicates(domains) && forall d :: d in domains <==> d in Domains(parts)
  }

  /** `plugin` lists these policies, each once. */
  ghost predicate ListsOnce(plugin: seq<WasmPolicy>, policies: set<WasmPolicy>) {
    NoDuplicates(plugin) && forall w :: w in plugin <==> w in policies
  }

  /** Whatever the order, each policy is listed once. */
  lemma VisitedPolicies(gwKey: ObjectKey, parts: seq<Part<GatewayAction>>, domains: seq<string>)
    requires Visits(domains, parts)
    ensures ListsOnce(ListPolicies(gwKey, parts, domains), PluginPolicies(gwKey, parts))
  {
    var plugin := ListPolicies(gwKey, parts, domains);
    assert forall i :: 0 <= i < |domains| ==> plugin[i].name == domains[i];
    forall w
      ensures w in plugin <==> w in PluginPolicies(gwKey, parts)
    {
      if w in PluginPolicies(gwKey, parts) {
        var d :| d in Domains(parts) && w == PolicyFor(gwKey, d, Gather(parts, d));
        assert d in domains;
        var i :| 0 <= i < |domains| && domains[i] == d;
        assert plugin[i] == w;
      }
      if w in plugin {
        var i :| 0 <= i < |plugin| && plugin[i] == w;
        assert domains[i] in domains;
      }
    }
  }

  method MergeGatewayActions(policy: Policy, gwPolicy: Option<Policy>, route: HTTPRoute)
    returns (actions: seq<GatewayAction>)
    ensures actions == ActionsOf(policy.rateLimits, Some(route)) +
                       if gwPolicy.Some? then ActionsOf(gwPolicy.value.rateLimits, None) else []
    ensures var n := |policy.rateLimits|;
      && n <= |actions| && AskedByAll(actions[..n], policy.rateLimits, Some(route))
      && (gwPolicy.None? ==> |actions| == n)
      && (gwPolicy.Some? ==> AskedByAll(actions[n..], gwPolicy.value.rateLimits, None))
  {
    actions := GatewayActionsFromRateLimitPolicy(policy, Some(route));
    if gwPolicy.None? {
      assert actions[..|actions|] == actions;
      return;
    }
    var gwActions := GatewayActionsFromRateLimitPolicy(gwPolicy.value, None);
    assert (actions + gwActions)[..|actions|] == actions && (actions + gwActions)[|actions|..] == gwActions;
    actions := actions + gwActions;
  }

  /** The actions of one route-level policy, merged with the gateway-level one. */
  method RouteActionsOf(policies: Policies, routes: Routes, gateway: Option<ObjectKey>, k: ObjectKey)
    returns (r: Result<Part<GatewayAction>>)
    requires k in policies && (gateway.Some? ==> gateway.value in policies)
    ensures var route := FetchValidHTTPRoute(routes, RouteKey(policies, k));
      r == if route.Err? then Err(route.error) else Ok(RouteActionPart(policies, routes, gateway, k))
  {
    var route := FetchValidHTTPRoute(routes, TargetKey(policies[k].targetRef, k.namespace));
    if route.Err? {
      return Err(route.error);
    }
    var gwPolicy := if gateway.Some? then Some(policies[gateway.value]) else None;
    var mergedActions := MergeGatewayActions(policies[k], gwPolicy, route.value);
    return Ok(Part(route.value.hostnames, mergedActions));
  }

  /** The gateway-level policy's actions, under the hostnames of the gateway. */
  method GatewayLevelActions(policies: Policies, hostnames: seq<string>, gateway: Option<ObjectKey>,
                             ghost part: ObjectKey -> Part<GatewayAction>)
    returns (actions: map<string, seq<GatewayAction>>)
    requires gateway.Some? ==> gateway.value in policies
    ensures Gathers(actions, PartsOf(GatewayActionPart(policies, hostnames, gateway), part, []))
  {
    actions := map[];
    if gateway.Some? {
      var gwActions := GatewayActionsFromRateLimitPolicy(policies[gateway.value], None);
      if |hostnames| == 0 {
        // wildcard domain
        actions := AppendToDomains(actions, gwActions, ["*"]);
      } else {
        actions := AppendToDomains(actions, gwActions, hostnames);
      }
    }
    PartsStart(GatewayActionPart(policies, hostnames, gateway), part, actions);
  }

  method GatewayActionsByDomain(policies: Policies, routes: Routes, hostnames: seq<string>, refs: seq<ObjectKey>)
    returns (r: Result<map<string, seq<GatewayAction>>>)
    ensures r.Err? <==> MergeError(policies, routes, refs).Some?
    ensures r.Err? ==> MergeError(policies, routes, refs) == Some(r.error)
    ensures r.Ok? ==> Gathers(r.value, ActionParts(policies, routes, hostnames, Load(policies, refs).value))
  {
    var load := LoadPolicies(policies, refs);
    if load.Err? {
      return Err(load.error);
    }
    var loaded := load.value;
    ghost var first := GatewayActionPart(policies, hostnames, loaded.gateway);
    ghost var part := RouteActionsFor(policies, routes, loaded.gateway);
    var actions := GatewayLevelActions(policies, hostnames, loaded.gateway, part);
    for i := 0 to |loaded.routes|
      invariant RoutesError(policies, routes, loaded.routes[..i]) == None
      invariant Gathers(actions, PartsOf(first, part, loaded.routes[..i]))
    {
      assert loaded.routes[..i + 1][..i] == loaded.routes[..i];
      var next := RouteActionsOf(policies, routes, loaded.gateway, loaded.routes[i]);
      if next.Err? {
        RoutesErrorStays(policies, routes, loaded.routes, i + 1);
        return Err(next.error);
      }
      var merged := AppendToDomains(actions, next.value.items, next.value.domains);
      PartMerged(first, part, loaded.routes, i, actions, merged);
      actions := merged;
    }
    assert loaded.routes[..|loaded.routes|] == loaded.routes;
    return Ok(actions);
  }

  /** `plugin` has one policy for each domain, in order. */
  ghost predicate HasPolicies(plugin: seq<WasmPolicy>, gwKey: ObjectKey, actions: map<string, seq<GatewayAction>>,
                              domains: seq<string>)
  {
    |plugin| == |domains|
    && forall i :: 0 <= i < |domains| ==> plugin[i] == PolicyFor(gwKey, domains[i], Lookup(actions, domains[i]))
  }

  lemma PolicyAdded(plugin: seq<WasmPolicy>, gwKey: ObjectKey, actions: map<string, seq<GatewayAction>>,
                    domains: seq<string>, d: string)
    requires HasPolicies(plugin, gwKey, actions, domains)
    ensures HasPolicies(plugin + [PolicyFor(gwKey, d, Lookup(actions, d))], gwKey, actions, domains + [d])
  {
  }

  lemma DomainVisited(domains: seq<string>, visited: set<string>, d: string)
    requires NoDuplicates(domains) && (forall x :: x in domains <==> x in visited) && d !in visited
    ensures NoDuplicates(domains + [d]) && forall x :: x in domains + [d] <==> x in visited + {d}
  {
    assert d !in domains;
  }

  /** One plugin policy per domain; Go visits the domains in any order. */
  method PoliciesByDomain(gwKey: ObjectKey, actions: map<string, seq<GatewayAction>>)
    returns (plugin: seq<WasmPolicy>, ghost domains: seq<string>)
    ensures NoDuplicates(domains) && forall d :: d in domains <==> d in actions.Keys
    ensures HasPolicies(plugin, gwKey, actions, domains)
  {
    plugin, domains := [], [];
    var todo := actions.Keys;
    ghost var visited := {};
    while todo != {}
      invariant todo !! visited && todo + visited == actions.Keys
      invariant NoDuplicates(domains) && forall d :: d in domains <==> d in visited
      invariant HasPolicies(plugin, gwKey, actions, domains)
      decreases todo
    {
      var d :| d in todo;
      PolicyAdded(plugin, gwKey, actions, domains, d);
      DomainVisited(domains, visited, d);
      plugin := plugin + [PolicyFor(gwKey, d, Lookup(actions, d))];
      todo, visited, domains := todo - {d}, visited + {d}, domains + [d];
    }
  }

  lemma GatheredPlugin(plugin: seq<WasmPolicy>, gwKey: ObjectKey, actions: map<string, seq<GatewayAction>>,
                       domains: seq<string>, parts: seq<Part<GatewayAction>>)
    requires Gathers(actions, parts) && HasPolicies(plugin, gwKey, actions, domains)
    requires NoDuplicates(domains) && forall d :: d in domains <==> d in actions.Keys
    ensures Visits(domains, parts) && plugin == ListPolicies(gwKey, parts, domains)
  {
    forall i | 0 <= i < |domains|
      ensures plugin[i] == ListPolicies(gwKey, parts, domains)[i]
    {
      assert Lookup(actions, domains[i]) == Gather(parts, domains[i]);
    }
  }

  /** The plugin for a list of references, its domains visited in some order. */
  method WasmPluginConfig(gwKey: ObjectKey, policies: Policies, routes: Routes, hostnames: seq<string>,
                          refs: seq<ObjectKey>)
    returns (r: Result<seq<WasmPolicy>>, ghost domains: seq<string>)
    ensures r.Err? <==> MergeError(policies, routes, refs).Some?
    ensures r.Err? ==> MergeError(policies, routes, refs) == Some(r.error)
    ensures r.Ok? ==>
      var parts := ActionParts(policies, routes, hostnames, Load(policies, refs).value);
      && Visits(domains, parts)
      && r.value == ListPolicies(gwKey, parts, domains)
      && ListsOnce(r.value, PluginPolicies(gwKey, parts))
      && forall i :: 0 <= i < |domains| ==>
           ServesDomain(r.value[i], gwKey, domains[i]) && r.value[i].gatewayActions == Gather(parts, domains[i])
  {
    var gathered := GatewayActionsByDomain(policies, routes, hostnames, refs);
    if gathered.Err? {
      return Err(gathered.error), [];
    }
    var plugin;
    plugin, domains := PoliciesByDomain(gwKey, gathered.value);
    ghost var parts := ActionParts(policies, routes, hostnames, Load(policies, refs).value);
    GatheredPlugin(plugin, gwKey, gathered.value, domains, parts);
    VisitedPolicies(gwKey, parts, domains);
    return Ok(plugin), domains;
  }
}

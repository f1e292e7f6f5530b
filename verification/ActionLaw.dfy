/** What the plugin's merge loop computes, independently of how: a sum over the listed
    policies, the counterpart of the law for limits. */
module ActionLaws {
  import opened Common
  import opened Merging
  import opened MergeLaws
  import opened Sums
  import opened TargetRefs
  import opened WasmPlugins

  /** Whether a rate limit asks for an action. */
  function ActionCopies(a: GatewayAction, route: Option<HTTPRoute>): RateLimitSpec -> nat {
    (rl: RateLimitSpec) => if AskedBy(a, rl, route) then 1 else 0
  }

  lemma {:induction false} ActionsCount(rateLimits: seq<RateLimitSpec>, route: Option<HTTPRoute>, a: GatewayAction)
    ensures Count(ActionsOf(rateLimits, route), a) == Sum(ActionCopies(a, route), rateLimits)
  {
    if rateLimits != [] {
      var init, last := rateLimits[..|rateLimits| - 1], rateLimits[|rateLimits| - 1];
      ActionsCount(init, route, a);
      assert ActionsOf(rateLimits, route) == ActionsOf(init, route) + [ActionOf(last, route)];
      OneAsked(last, route, a);
    }
  }

  lemma OneAsked(rl: RateLimitSpec, route: Option<HTTPRoute>, a: GatewayAction)
    ensures a == ActionOf(rl, route) <==> AskedBy(a, rl, route)
  {
  }

  /** How many of a policy's rate limits ask for an action. */
  function ActionShare(policies: Policies, k: Option<ObjectKey>, route: Option<HTTPRoute>, a: GatewayAction): nat {
    if k.Some? && k.value in policies then Sum(ActionCopies(a, route), policies[k.value].rateLimits) else 0
  }

  function RouteOf(policies: Policies, routes: Routes, k: ObjectKey): Option<HTTPRoute> {
    if k in policies && RouteKey(policies, k) in routes then Some(routes[RouteKey(policies, k)]) else None
  }

  /** How often one listed policy puts action `a` under domain `d`: a route-level policy
      under the hostnames of its route, its own actions, filled from the route, and the
      gateway-level policy's; a gateway-level one under the gateway's hostnames. */
  function ActionContribution(policies: Policies, routes: Routes, hostnames: seq<string>, gateway: Option<ObjectKey>,
                              d: string, a: GatewayAction, k: ObjectKey): nat
  {
    if IsRoutePolicy(policies, k) then
      Times(RouteUses(policies, routes, k, d),
            ActionShare(policies, Some(k), RouteOf(policies, routes, k), a) + ActionShare(policies, gateway, None, a))
    else if IsGatewayPolicy(policies, k) then
      Times(GatewayUses(hostnames, d), ActionShare(policies, Some(k), None, a))
    else 0
  }

  ghost function ActionContributions(policies: Policies, routes: Routes, hostnames: seq<string>,
                                     gateway: Option<ObjectKey>, d: string, a: GatewayAction): ObjectKey -> nat
  {
    k => ActionContribution(policies, routes, hostnames, gateway, d, a, k)
  }

  /** How often the references of a gateway ask for `a` under `d`. */
  ghost function ActionCount(policies: Policies, routes: Routes, hostnames: seq<string>, refs: seq<ObjectKey>,
                             d: string, a: GatewayAction): nat
  {
    Sum(ActionContributions(policies, routes, hostnames, GatewayRef(policies, refs), d, a), refs)
  }

  lemma GatewayShareIsCount(policies: Policies, k: Option<ObjectKey>, a: GatewayAction)
    ensures Count(GatewayActionsOfKey(policies, k), a) == ActionShare(policies, k, None, a)
  {
    if k.Some? && k.value in policies {
      ActionsCount(policies[k.value].rateLimits, None, a);
    }
  }

  lemma RouteActionCount(policies: Policies, routes: Routes, hostnames: seq<string>, gateway: Option<ObjectKey>,
                         k: ObjectKey, d: string, a: GatewayAction)
    requires IsRoutePolicy(policies, k)
    ensures Files(RouteActionPart(policies, routes, gateway, k), d, a) ==
            ActionContribution(policies, routes, hostnames, gateway, d, a, k)
  {
    RouteFiles(policies, routes, gateway, k, d, a);
  }

  lemma RouteFiles(policies: Policies, routes: Routes, gateway: Option<ObjectKey>, k: ObjectKey, d: string,
                   a: GatewayAction)
    ensures Files(RouteActionPart(policies, routes, gateway, k), d, a) ==
            Times(RouteUses(policies, routes, k, d),
                  ActionShare(policies, Some(k), RouteOf(policies, routes, k), a) +
                  ActionShare(policies, gateway, None, a))
  {
    var part := RouteActionPart(policies, routes, gateway, k);
    var uses := RouteUses(policies, routes, k, d);
    assert Occ(d, part.domains) == uses;
    if RouteOf(policies, routes, k).Some? {
      RouteItemsCount(policies, routes, gateway, k, a);
    } else {
      assert uses == 0;
    }
  }

  lemma RouteItemsCount(policies: Policies, routes: Routes, gateway: Option<ObjectKey>, k: ObjectKey, a: GatewayAction)
    requires RouteOf(policies, routes, k).Some?
    ensures Count(RouteActionPart(policies, routes, gateway, k).items, a) ==
            ActionShare(policies, Some(k), RouteOf(policies, routes, k), a) + ActionShare(policies, gateway, None, a)
  {
    CountConcat(RouteActions(policies, routes, k), GatewayActionsOfKey(policies, gateway), a);
    GatewayShareIsCount(policies, gateway, a);
    RouteShareIsCount(policies, routes, k, a);
  }

  lemma RouteShareIsCount(policies: Policies, routes: Routes, k: ObjectKey, a: GatewayAction)
    requires RouteOf(policies, routes, k).Some?
    ensures Count(RouteActions(policies, routes, k), a) ==
        ActionShare(policies, Some(k), RouteOf(policies, routes, k), a)
  {
    ActionsCount(policies[k].rateLimits, RouteOf(policies, routes, k), a);
  }

  /** What the plugin's merge loop files under `d` holds each action exactly
      `ActionCount` times. */
  lemma ActionLaw(policies: Policies, routes: Routes, hostnames: seq<string>, refs: seq<ObjectKey>,
                  d: string, a: GatewayAction)
    requires Load(policies, refs).Ok?
    ensures Count(Gather(ActionParts(policies, routes, hostnames, Load(policies, refs).value), d), a) ==
            ActionCount(policies, routes, hostnames, refs, d, a)
  {
    var loaded := Load(policies, refs).value;
    var f := ActionContributions(policies, routes, hostnames, loaded.gateway, d, a);
    LoadSplitsSum(policies, refs, f);
    forall k | k in loaded.routes
      ensures f(k) == Files(RouteActionsFor(policies, routes, loaded.gateway)(k), d, a)
    {
      RouteActionCount(policies, routes, hostnames, loaded.gateway, k, d, a);
    }
    PartsSum(GatewayActionPart(policies, hostnames, loaded.gateway), RouteActionsFor(policies, routes, loaded.gateway),
             loaded.routes, d, a, f);
    if loaded.gateway.Some? {
      UsesAreOccurrences(policies, routes, hostnames, loaded.gateway.value, d);
      GatewayShareIsCount(policies, loaded.gateway, a);
    }
  }

  /** The order of the references does not matter. */
  lemma ActionsIgnoreOrder(policies: Policies, routes: Routes, hostnames: seq<string>,
                           x: seq<ObjectKey>, y: seq<ObjectKey>, d: string, a: GatewayAction)
    requires multiset(x) == multiset(y)
    ensures ActionCount(policies, routes, hostnames, x, d, a) == ActionCount(policies, routes, hostnames, y, d, a)
  {
    SameGatewayRef(policies, x, y);
    SumPermutation(ActionContributions(policies, routes, hostnames, GatewayRef(policies, x), d, a), x, y);
  }

  // ----- the domains of the merge -----

  /** A domain of the merge: a hostname of the gateway, if a gateway-level policy is
      listed, or of the route of a listed route-level policy. */
  ghost predicate MergeDomain(policies: Policies, routes: Routes, hostnames: seq<string>, refs: seq<ObjectKey>,
                              d: string)
  {
    exists k :: k in refs &&
      if IsRoutePolicy(policies, k) then RouteUses(policies, routes, k, d) > 0
      else IsGatewayPolicy(policies, k) && GatewayUses(hostnames, d) > 0
  }

  lemma DomainsOfParts<T>(first: Option<Part<T>>, part: ObjectKey -> Part<T>, ks: seq<ObjectKey>, d: string)
    ensures d in Domains(PartsOf(first, part, ks)) <==>
            (first.Some? && d in first.value.domains) || exists k :: k in ks && d in part(k).domains
  {
    var parts := PartsOf(first, part, ks);
    var n := if first.Some? then 1 else 0;
    if d in Domains(parts) {
      var i :| 0 <= i < |parts| && d in parts[i].domains;
      if i >= n {
        assert parts[i] == part(ks[i - n]) && ks[i - n] in ks;
      }
    }
    if first.Some? && d in first.value.domains {
      assert d in parts[0].domains;
    }
    if k :| k in ks && d in part(k).domains {
      var i :| 0 <= i < |ks| && ks[i] == k;
      assert parts[i + n] == part(k);
    }
  }

  /** The domains under which anything is filed. */
  lemma MergeDomainsIff(policies: Policies, routes: Routes, hostnames: seq<string>, refs: seq<ObjectKey>, d: string)
    requires Load(policies, refs).Ok?
    ensures d in Domains(ActionParts(policies, routes, hostnames, Load(policies, refs).value)) <==>
            MergeDomain(policies, routes, hostnames, refs, d)
  {
    var loaded := Load(policies, refs).value;
    LoadedMembers(policies, refs);
    DomainsOfParts(GatewayActionPart(policies, hostnames, loaded.gateway),
                   RouteActionsFor(policies, routes, loaded.gateway), loaded.routes, d);
    forall k
      ensures d in RouteActionsFor(policies, routes, loaded.gateway)(k).domains <==>
          RouteUses(policies, routes, k, d) > 0
      ensures d in GatewayDomains(hostnames) <==> GatewayUses(hostnames, d) > 0
    {
      UsesAreOccurrences(policies, routes, hostnames, k, d);
    }
  }
}

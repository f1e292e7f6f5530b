/** controllers/apim/ratelimitpolicy_limits.go: loading the policies a gateway
    lists and merging gateway-level and route-level limits per hostname. */
module Merging {
  import opened Common
  import opened Concatenations
  import opened LimitOrder
  import opened LimitIndexes
  import opened Sums
  import opened TargetRefs

  type Policies = map<ObjectKey, Policy>
  type Routes = map<ObjectKey, HTTPRoute>

  // ----- what one policy contributes -----

  function LimitsOf(rateLimits: seq<RateLimitSpec>): seq<Limit> {
    if rateLimits == [] then []
    else LimitsOf(rateLimits[..|rateLimits| - 1]) + rateLimits[|rateLimits| - 1].limits
  }

  function LimitsOfRateLimit(): RateLimitSpec -> seq<Limit> {
    (rl: RateLimitSpec) => rl.limits
  }

  /** The limits of all rate limits: those of the first, complete and in order, then
      those of the second, and so on. */
  lemma {:induction false} LimitsInOrder(rateLimits: seq<RateLimitSpec>)
    ensures Concatenates(LimitsOf(rateLimits), LimitsOfRateLimit(), rateLimits)
  {
    if rateLimits != [] {
      var init, last := rateLimits[..|rateLimits| - 1], rateLimits[|rateLimits| - 1];
      assert rateLimits == init + [last];
      LimitsInOrder(init);
      ConcatenatesNext(LimitsOf(init), LimitsOfRateLimit(), init, last);
    }
  }

  /** How often a rate limit has a limit. */
  function LimitCopies(l: Limit): RateLimitSpec -> nat {
    (rl: RateLimitSpec) => Count(rl.limits, l)
  }

  /** None is lost: each limit occurs as often as in all rate limits together. */
  lemma LimitsCount(rateLimits: seq<RateLimitSpec>, l: Limit)
    ensures Count(LimitsOf(rateLimits), l) == Sum(LimitCopies(l), rateLimits)
  {
    LimitsInOrder(rateLimits);
    ConcatenatedCount(LimitsOf(rateLimits), LimitsOfRateLimit(), rateLimits, l);
    SumCongruent(Copies(LimitsOfRateLimit(), l), LimitCopies(l), rateLimits);
  }

  method FlattenLimits(policy: Policy) returns (limits: seq<Limit>)
    ensures limits == LimitsOf(policy.rateLimits)
    ensures Concatenates(limits, LimitsOfRateLimit(), policy.rateLimits)
    ensures forall l :: Count(limits, l) == Sum(LimitCopies(l), policy.rateLimits)
  {
    LimitsInOrder(policy.rateLimits);
    forall l
      ensures Count(LimitsOf(policy.rateLimits), l) == Sum(LimitCopies(l), policy.rateLimits)
    {
      LimitsCount(policy.rateLimits, l);
    }
    limits := [];
    var rls := policy.rateLimits;
    for i := 0 to |rls|
      invariant limits == LimitsOf(rls[..i])
    {
      limits := limits + rls[i].limits;
      assert rls[..i + 1][..i] == rls[..i];
    }
    assert rls[..|rls|] == rls;
  }

  // ----- gathering items under domains -----

  /** `items` filed under every occurrence of every domain listed. */
  datatype Part<T> = Part(domains: seq<string>, items: seq<T>)

  function Repeat<T>(items: seq<T>, n: nat): seq<T> {
    if n == 0 then [] else Repeat(items, n - 1) + items
  }

  function Occ(domain: string, domains: seq<string>): nat {
    multiset(domains)[domain]
  }

  function Gather<T>(parts: seq<Part<T>>, domain: string): seq<T> {
    if parts == [] then []
    else
      var last := parts[|parts| - 1];
      Gather(parts[..|parts| - 1], domain) + Repeat(last.items, Occ(domain, last.domains))
  }

  ghost function Domains<T>(parts: seq<Part<T>>): set<string> {
    set i, d | 0 <= i < |parts| && d in parts[i].domains :: d
  }

  /** At `d`, `r` is `m` with the items appended once per occurrence of `d`. */
  ghost predicate AppendedAt<T>(m: map<string, seq<T>>, items: seq<T>, domains: seq<string>,
                                r: map<string, seq<T>>, d: string)
  {
    && (d in r <==> d in m || d in domains)
    && Lookup(r, d) == Lookup(m, d) + Repeat(items, Occ(d, domains))
  }

  ghost predicate Appended<T>(m: map<string, seq<T>>, items: seq<T>, domains: seq<string>, r: map<string, seq<T>>) {
    forall d :: AppendedAt(m, items, domains, r, d)
  }

  lemma LookupUpdated<T>(m: map<string, seq<T>>, d: string, v: seq<T>, x: string)
    ensures Lookup(m[d := v], x) == if x == d then v else Lookup(m, x)
    ensures x in m[d := v] <==> x in m || x == d
  {
  }

  lemma RepeatNext<T>(a: seq<T>, items: seq<T>, n: nat)
    ensures a + Repeat(items, n + 1) == a + Repeat(items, n) + items
  {
    assert Repeat(items, n + 1) == Repeat(items, n) + items;
  }

  lemma OccNext(x: string, domains: seq<string>, d: string)
    ensures Occ(x, domains + [d]) == Occ(x, domains) + if x == d then 1 else 0
    ensures x in domains + [d] <==> x in domains || x == d
  {
  }

  lemma AppendNext<T>(m: map<string, seq<T>>, items: seq<T>, domains: seq<string>,
                      r: map<string, seq<T>>, d: string, x: string)
    requires AppendedAt(m, items, domains, r, x)
    ensures AppendedAt(m, items, domains + [d], r[d := Lookup(r, d) + items], x)
  {
    OccNext(x, domains, d);
    LookupUpdated(r, d, Lookup(r, d) + items, x);
    if x == d {
      RepeatNext(Lookup(m, x), items, Occ(x, domains));
      assert Lookup(r[d := Lookup(r, d) + items], x) == Lookup(m, x) + Repeat(items, Occ(x, domains)) + items;
    }
  }

  lemma AppendNextEverywhere<T>(m: map<string, seq<T>>, items: seq<T>, domains: seq<string>,
                                r: map<string, seq<T>>, d: string, r': map<string, seq<T>>)
    requires Appended(m, items, domains, r) && r' == r[d := Lookup(r, d) + items]
    ensures Appended(m, items, domains + [d], r')
  {
    forall x
      ensures AppendedAt(m, items, domains + [d], r', x)
    {
      assert AppendedAt(m, items, domains, r, x);
      AppendNext(m, items, domains, r, d, x);
    }
  }

  /** The inner loop of both merges: append the items once per listed domain. */
  method AppendToDomains<T>(m: map<string, seq<T>>, items: seq<T>, domains: seq<string>)
    returns (r: map<string, seq<T>>)
    ensures Appended(m, items, domains, r)
  {
    r := m;
    ghost var done := [];
    for i := 0 to |domains|
      invariant done == domains[..i]
      invariant Appended(m, items, done, r)
    {
      ghost var prev := r;
      r := r[domains[i] := Lookup(r, domains[i]) + items];
      AppendNextEverywhere(m, items, done, prev, domains[i], r);
      done := done + [domains[i]];
    }
    assert done == domains;
  }

  /** `m` holds, domain by domain, what the parts gather. */
  ghost predicate Gathers<T>(m: map<string, seq<T>>, parts: seq<Part<T>>) {
    forall d :: (d in m <==> d in Domains(parts)) && Lookup(m, d) == Gather(parts, d)
  }

  lemma DomainsNext<T>(parts: seq<Part<T>>, part: Part<T>, d: string)
    ensures d in Domains(parts + [part]) <==> d in Domains(parts) || d in part.domains
  {
    if d in Domains(parts) {
      var i :| 0 <= i < |parts| && d in parts[i].domains;
      assert d in (parts + [part])[i].domains;
    }
    if d in part.domains {
      assert d in (parts + [part])[|parts|].domains;
    }
  }

  lemma GathersNext<T>(m: map<string, seq<T>>, parts: seq<Part<T>>, part: Part<T>, r: map<string, seq<T>>)
    requires Gathers(m, parts) && Appended(m, part.items, part.domains, r)
    ensures Gathers(r, parts + [part])
  {
    assert (parts + [part])[..|parts|] == parts;
    forall d
      ensures (d in r <==> d in Domains(parts + [part])) && Lookup(r, d) == Gather(parts + [part], d)
    {
      DomainsNext(parts, part, d);
      assert AppendedAt(m, part.items, part.domains, r, d);
    }
  }

  lemma GathersFirst<T>(part: Part<T>, r: map<string, seq<T>>)
    requires Appended(map[], part.items, part.domains, r)
    ensures Gathers(r, [part])
  {
    var none: seq<Part<T>> := [];
    GathersNext(map[], none, part, r);
    assert none + [part] == [part];
  }

  /** The parts a merge gathers: the gateway-level one, if there is such a policy, then
      one for each route-level policy. */
  function PartsOf<T>(first: Option<Part<T>>, part: ObjectKey -> Part<T>, ks: seq<ObjectKey>): seq<Part<T>> {
    (if first.Some? then [first.value] else []) + seq(|ks|, i requires 0 <= i < |ks| => part(ks[i]))
  }

  lemma PartsStart<T>(first: Option<Part<T>>, part: ObjectKey -> Part<T>, m: map<string, seq<T>>)
    requires if first.None? then m == map[] else Appended(map[], first.value.items, first.value.domains, m)
    ensures Gathers(m, PartsOf(first, part, []))
  {
    if first.Some? {
      GathersFirst(first.value, m);
      assert PartsOf(first, part, []) == [first.value];
    } else {
      assert PartsOf(first, part, []) == [];
    }
  }

  lemma PartsNext<T>(first: Option<Part<T>>, part: ObjectKey -> Part<T>, ks: seq<ObjectKey>, k: ObjectKey)
    ensures PartsOf(first, part, ks + [k]) == PartsOf(first, part, ks) + [part(k)]
  {
  }

  lemma PartMerged<T>(first: Option<Part<T>>, part: ObjectKey -> Part<T>, ks: seq<ObjectKey>, i: nat,
                      m: map<string, seq<T>>, r: map<string, seq<T>>)
    requires i < |ks| && Gathers(m, PartsOf(first, part, ks[..i]))
    requires Appended(m, part(ks[i]).items, part(ks[i]).domains, r)
    ensures Gathers(r, PartsOf(first, part, ks[..i + 1]))
  {
    assert ks[..i + 1] == ks[..i] + [ks[i]];
    PartsNext(first, part, ks[..i], ks[i]);
    GathersNext(m, PartsOf(first, part, ks[..i]), part(ks[i]), r);
  }

  // ----- loading the referenced policies -----

  /** The gateway-level policy, if any, and the route-level ones in list order. */
  datatype Loaded = Loaded(gateway: Option<ObjectKey>, routes: seq<ObjectKey>)

  predicate IsGatewayPolicy(policies: Policies, k: ObjectKey) {
    k in policies && !IsTargetRefHTTPRoute(policies[k].targetRef) && IsTargetRefGateway(policies[k].targetRef)
  }

  predicate IsRoutePolicy(policies: Policies, k: ObjectKey) {
    k in policies && IsTargetRefHTTPRoute(policies[k].targetRef)
  }

  function Load(policies: Policies, refs: seq<ObjectKey>): (r: Result<Loaded>)
    ensures r.Ok? ==> forall i :: 0 <= i < |r.value.routes| ==> IsRoutePolicy(policies, r.value.routes[i])
    ensures r.Ok? && r.value.gateway.Some? ==> IsGatewayPolicy(policies, r.value.gateway.value)
  {
    if refs == [] then Ok(Loaded(None, []))
    else
      var init := Load(policies, refs[..|refs| - 1]);
      var k := refs[|refs| - 1];
      if init.Err? then init
      else if k !in policies then Err(NotFound)
      else if IsRoutePolicy(policies, k) then Ok(init.value.(routes := init.value.routes + [k]))
      else if IsGatewayPolicy(policies, k) then
        if init.value.gateway.None? then Ok(init.value.(gateway := Some(k))) else Err(MultipleGatewayPolicies)
      else init
  }

  function RoutePolicyOf(policies: Policies): ObjectKey -> seq<ObjectKey> {
    k => if IsRoutePolicy(policies, k) then [k] else []
  }

  /** The route-level policies come out as often and in the order they are listed. */
  lemma {:induction false} LoadedInOrder(policies: Policies, refs: seq<ObjectKey>)
    requires Load(policies, refs).Ok?
    ensures Concatenates(Load(policies, refs).value.routes, RoutePolicyOf(policies), refs)
  {
    if refs != [] {
      var init, last := refs[..|refs| - 1], refs[|refs| - 1];
      assert refs == init + [last];
      LoadedInOrder(policies, init);
      var routes := Load(policies, init).value.routes;
      ConcatenatesNext(routes, RoutePolicyOf(policies), init, last);
      assert routes + [] == routes;
    }
  }

  method LoadPolicies(policies: Policies, refs: seq<ObjectKey>) returns (r: Result<Loaded>)
    ensures r == Load(policies, refs)
  {
    var routes, gateway := [], None;
    for i := 0 to |refs|
      invariant Load(policies, refs[..i]) == Ok(Loaded(gateway, routes))
    {
      assert refs[..i + 1][..i] == refs[..i];
      var k := refs[i];
      if k !in policies {
        LoadErrorStays(policies, refs, i + 1);
        return Err(NotFound);
      }
      if IsTargetRefHTTPRoute(policies[k].targetRef) {
        routes := routes + [k];
      } else if IsTargetRefGateway(policies[k].targetRef) {
        if gateway == None {
          gateway := Some(k);
        } else {
          LoadErrorStays(policies, refs, i + 1);
          return Err(MultipleGatewayPolicies);
        }
      }
    }
    assert refs[..|refs|] == refs;
    return Ok(Loaded(gateway, routes));
  }

  lemma {:induction false} LoadErrorStays(policies: Policies, refs: seq<ObjectKey>, i: nat)
    requires i <= |refs| && Load(policies, refs[..i]).Err?
    ensures Load(policies, refs) == Load(policies, refs[..i])
  {
    if i == |refs| {
      assert refs[..i] == refs;
    } else {
      assert refs[..|refs| - 1][..i] == refs[..i];
      LoadErrorStays(policies, refs[..|refs| - 1], i);
    }
  }

  function RouteKey(policies: Policies, k: ObjectKey): (key: ObjectKey)
    requires k in policies
    ensures Denotes(key, policies[k].targetRef.namespace, policies[k].targetRef.name, k.namespace)
  {
    TargetKey(policies[k].targetRef, k.namespace)
  }

  /** The first route of the listed policies that cannot be fetched. */
  function RoutesError(policies: Policies, routes: Routes, ks: seq<ObjectKey>): Option<Error>
    requires forall i :: 0 <= i < |ks| ==> ks[i] in policies
  {
    if ks == [] then None
    else
      var init := RoutesError(policies, routes, ks[..|ks| - 1]);
      if init.Some? then init
      else
        var route := FetchValidHTTPRoute(routes, RouteKey(policies, ks[|ks| - 1]));
        if route.Err? then Some(route.error) else None
  }

  function RouteAt(policies: Policies, routes: Routes, k: ObjectKey): Result<HTTPRoute>
    requires k in policies
  {
    FetchValidHTTPRoute(routes, RouteKey(policies, k))
  }

  lemma {:induction false} RoutesErrorStays(policies: Policies, routes: Routes, ks: seq<ObjectKey>, i: nat)
    requires forall j :: 0 <= j < |ks| ==> ks[j] in policies
    requires i <= |ks| && RoutesError(policies, routes, ks[..i]).Some?
    ensures RoutesError(policies, routes, ks) == RoutesError(policies, routes, ks[..i])
  {
    if i == |ks| {
      assert ks[..i] == ks;
    } else {
      assert ks[..|ks| - 1][..i] == ks[..i];
      RoutesErrorStays(policies, routes, ks[..|ks| - 1], i);
    }
  }

  ghost predicate AllUsable(policies: Policies, routes: Routes, ks: seq<ObjectKey>) {
    forall k :: k in ks ==> k in policies && RouteAt(policies, routes, k).Ok?
  }

  lemma {:induction false} UsableRoutes(policies: Policies, routes: Routes, ks: seq<ObjectKey>)
    requires forall j :: 0 <= j < |ks| ==> ks[j] in policies
    ensures RoutesError(policies, routes, ks).None? <==> AllUsable(policies, routes, ks)
  {
    if ks != [] {
      var init, last := ks[..|ks| - 1], ks[|ks| - 1];
      UsableRoutes(policies, routes, init);
      assert ks == init + [last] && last in policies;
      assert forall k :: k in ks <==> k in init || k == last;
    }
  }

  /** The error is that of the first route that is not usable. */
  lemma FirstUnusableRoute(policies: Policies, routes: Routes, ks: seq<ObjectKey>, i: nat)
    requires forall j :: 0 <= j < |ks| ==> ks[j] in policies
    requires i < |ks| && AllUsable(policies, routes, ks[..i]) && RouteAt(policies, routes, ks[i]).Err?
    ensures RoutesError(policies, routes, ks) == Some(RouteAt(policies, routes, ks[i]).error)
  {
    var upTo := ks[..i + 1];
    assert upTo[..|upTo| - 1] == ks[..i] && upTo[|upTo| - 1] == ks[i];
    UsableRoutes(policies, routes, ks[..i]);
    assert RoutesError(policies, routes, upTo) == Some(RouteAt(policies, routes, ks[i]).error);
    RoutesErrorStays(policies, routes, ks, i + 1);
  }

  /** Why merging a reference list fails, if it does; the same for both merges. */
  function MergeError(policies: Policies, routes: Routes, refs: seq<ObjectKey>): Option<Error> {
    var loaded := Load(policies, refs);
    if loaded.Err? then Some(loaded.error) else RoutesError(policies, routes, loaded.value.routes)
  }

  // ----- the parts the merge gathers -----

  function GatewayDomains(hostnames: seq<string>): seq<string> {
    if hostnames == [] then ["*"] else hostnames
  }

  function HostnamesOfRoute(policies: Policies, routes: Routes, k: ObjectKey): seq<string> {
    if k in policies && RouteKey(policies, k) in routes then routes[RouteKey(policies, k)].hostnames else []
  }

  function LimitsOfKey(policies: Policies, k: Option<ObjectKey>): seq<Limit> {
    if k.Some? && k.value in policies then LimitsOf(policies[k.value].rateLimits) else []
  }

  function RouteLimitPart(policies: Policies, routes: Routes, gateway: Option<ObjectKey>, k: ObjectKey): Part<Limit> {
    Part(HostnamesOfRoute(policies, routes, k), LimitsOfKey(policies, Some(k)) + LimitsOfKey(policies, gateway))
  }

  function RouteLimits(policies: Policies, routes: Routes, gateway: Option<ObjectKey>): ObjectKey -> Part<Limit> {
    k => RouteLimitPart(policies, routes, gateway, k)
  }

  function GatewayLimitPart(policies: Policies, hostnames: seq<string>,
                            gateway: Option<ObjectKey>): Option<Part<Limit>> {
    if gateway.Some? then Some(Part(GatewayDomains(hostnames), LimitsOfKey(policies, gateway))) else None
  }

  function LimitParts(policies: Policies, routes: Routes, hostnames: seq<string>, loaded: Loaded): seq<Part<Limit>> {
    PartsOf(GatewayLimitPart(policies, hostnames, loaded.gateway), RouteLimits(policies, routes, loaded.gateway),
            loaded.routes)
  }

  // ----- the merge loop for limits -----

  method MergeLimits(policy: Policy, gwPolicy: Option<Policy>) returns (limits: seq<Limit>)
    ensures limits == LimitsOf(policy.rateLimits) + if gwPolicy.Some? then LimitsOf(gwPolicy.value.rateLimits) else []
  {
    limits := FlattenLimits(policy);
    if gwPolicy.None? {
      return;
    }
    var gwLimits := FlattenLimits(gwPolicy.value);
    limits := limits + gwLimits;
  }

  /** The limits of one route-level policy, merged with the gateway-level one. */
  method RouteLimitsOf(policies: Policies, routes: Routes, gateway: Option<ObjectKey>, k: ObjectKey)
    returns (r: Result<Part<Limit>>)
    requires k in policies && (gateway.Some? ==> gateway.value in policies)
    ensures var route := FetchValidHTTPRoute(routes, RouteKey(policies, k));
      r == if route.Err? then Err(route.error) else Ok(RouteLimitPart(policies, routes, gateway, k))
  {
    var route := FetchValidHTTPRoute(routes, TargetKey(policies[k].targetRef, k.namespace));
    if route.Err? {
      return Err(route.error);
    }
    var gwPolicy := if gateway.Some? then Some(policies[gateway.value]) else None;
    var mergedLimits := MergeLimits(policies[k], gwPolicy);
    return Ok(Part(route.value.hostnames, mergedLimits));
  }

  method GatewayLimits(policies: Policies, routes: Routes, hostnames: seq<string>, refs: seq<ObjectKey>)
    returns (r: Result<LimitsByDomain>)
    ensures r.Err? <==> MergeError(policies, routes, refs).Some?
    ensures r.Err? ==> MergeError(policies, routes, refs) == Some(r.error)
    ensures r.Ok? ==> Gathers(r.value, LimitParts(policies, routes, hostnames, Load(policies, refs).value))
  {
    var load := LoadPolicies(policies, refs);
    if load.Err? {
      return Err(load.error);
    }
    var loaded := load.value;
    var limits: LimitsByDomain := map[];
    if loaded.gateway.Some? {
      var gwLimits := FlattenLimits(policies[loaded.gateway.value]);
      if |hostnames| == 0 {
        // wildcard domain
        limits := AppendToDomains(limits, gwLimits, ["*"]);
      } else {
        limits := AppendToDomains(limits, gwLimits, hostnames);
      }
    }
    ghost var first := GatewayLimitPart(policies, hostnames, loaded.gateway);
    ghost var part := RouteLimits(policies, routes, loaded.gateway);
    PartsStart(first, part, limits);
    for i := 0 to |loaded.routes|
      invariant RoutesError(policies, routes, loaded.routes[..i]) == None
      invariant Gathers(limits, PartsOf(first, part, loaded.routes[..i]))
    {
      assert loaded.routes[..i + 1][..i] == loaded.routes[..i];
      var next := RouteLimitsOf(policies, routes, loaded.gateway, loaded.routes[i]);
      if next.Err? {
        RoutesErrorStays(policies, routes, loaded.routes, i + 1);
        return Err(next.error);
      }
      var merged := AppendToDomains(limits, next.value.items, next.value.domains);
      PartMerged(first, part, loaded.routes, i, limits, merged);
      limits := merged;
    }
    assert loaded.routes[..|loaded.routes|] == loaded.routes;
    return Ok(limits);
  }
}

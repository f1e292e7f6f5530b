/** What the merge loops compute, independently of how: a sum over the listed policies. */
module MergeLaws {
  import opened Common
  import opened LimitOrder
  import opened Merging
  import opened Sums
  import opened TargetRefs

  // ----- what any merge gathers -----

  /** The product of `n` and `c`, as `n` additions of `c`. */
  function Times(n: nat, c: nat): nat {
    if n == 0 then 0 else Times(n - 1, c) + c
  }

  lemma {:induction false} CountRepeat<T>(items: seq<T>, n: nat, x: T)
    ensures Count(Repeat(items, n), x) == Times(n, Count(items, x))
  {
    if n > 0 {
      CountRepeat(items, n - 1, x);
      assert Count(Repeat(items, n), x) == Count(Repeat(items, n - 1), x) + Count(items, x);
    }
  }

  lemma GatherNext<T>(parts: seq<Part<T>>, part: Part<T>, d: string, x: T)
    ensures Count(Gather(parts + [part], d), x) ==
            Count(Gather(parts, d), x) + Times(Occ(d, part.domains), Count(part.items, x))
  {
    assert (parts + [part])[..|parts|] == parts;
    CountRepeat(part.items, Occ(d, part.domains), x);
  }

  /** How often a part files `x` under `d`. */
  ghost function Files<T>(part: Part<T>, d: string, x: T): nat {
    Times(Occ(d, part.domains), Count(part.items, x))
  }

  /** When `f` says what each part files, the parts together file the sum. */
  lemma {:induction false} PartsSum<T>(first: Option<Part<T>>, part: ObjectKey -> Part<T>, ks: seq<ObjectKey>,
                                       d: string, x: T, f: ObjectKey -> nat)
    requires forall k :: k in ks ==> f(k) == Files(part(k), d, x)
    ensures Count(Gather(PartsOf(first, part, ks), d), x) ==
            (if first.Some? then Files(first.value, d, x) else 0) + Sum(f, ks)
  {
    if ks == [] {
      if first.Some? {
        assert PartsOf(first, part, ks) == [] + [first.value];
        GatherNext([], first.value, d, x);
      } else {
        assert PartsOf(first, part, ks) == [];
      }
    } else {
      var init, k := ks[..|ks| - 1], ks[|ks| - 1];
      assert ks == init + [k];
      PartsSum(first, part, init, d, x, f);
      PartsNext(first, part, init, k);
      GatherNext(PartsOf(first, part, init), part(k), d, x);
    }
  }

  /** Loading splits a sum over the list into the gateway-level policy's share and the
      route-level policies'. */
  lemma {:induction false} LoadSplitsSum(policies: Policies, refs: seq<ObjectKey>, f: ObjectKey -> nat)
    requires Load(policies, refs).Ok?
    requires forall k :: !IsRoutePolicy(policies, k) && !IsGatewayPolicy(policies, k) ==> f(k) == 0
    ensures var loaded := Load(policies, refs).value;
      Sum(f, refs) == (if loaded.gateway.Some? then f(loaded.gateway.value) else 0) + Sum(f, loaded.routes)
  {
    if refs != [] {
      var init := refs[..|refs| - 1];
      LoadSplitsSum(policies, init, f);
      var before := Load(policies, init).value.routes;
      if IsRoutePolicy(policies, refs[|refs| - 1]) {
        assert (before + [refs[|refs| - 1]])[..|before|] == before;
      }
    }
  }

  lemma CountConcat<T>(a: seq<T>, b: seq<T>, x: T)
    ensures Count(a + b, x) == Count(a, x) + Count(b, x)
  {
  }

  // ----- where a policy's limits and actions go -----

  /** How often the route of a route-level policy names a hostname. */
  function RouteUses(policies: Policies, routes: Routes, k: ObjectKey, d: string): nat {
    if k in policies && RouteKey(policies, k) in routes then Count(routes[RouteKey(policies, k)].hostnames, d) else 0
  }

  /** How often a gateway names a hostname; '*' stands for none. */
  function GatewayUses(hostnames: seq<string>, d: string): nat {
    if hostnames != [] then Count(hostnames, d) else if d == "*" then 1 else 0
  }

  lemma UsesAreOccurrences(policies: Policies, routes: Routes, hostnames: seq<string>, k: ObjectKey, d: string)
    ensures Occ(d, HostnamesOfRoute(policies, routes, k)) == RouteUses(policies, routes, k, d)
    ensures Occ(d, GatewayDomains(hostnames)) == GatewayUses(hostnames, d)
  {
  }

  // ----- the merge law for limits -----

  /** How often a policy has a limit, in all its rate limits together. */
  function LimitShare(policies: Policies, k: Option<ObjectKey>, l: Limit): nat {
    if k.Some? && k.value in policies then Sum(LimitCopies(l), policies[k.value].rateLimits) else 0
  }

  lemma LimitShareIsCount(policies: Policies, k: Option<ObjectKey>, l: Limit)
    ensures Count(LimitsOfKey(policies, k), l) == LimitShare(policies, k, l)
  {
    if k.Some? && k.value in policies {
      LimitsCount(policies[k.value].rateLimits, l);
    }
  }

  /** How many copies of limit `l` one listed policy puts under domain `d`, given
      the gateway-level policy of the list. */
  function Contribution(policies: Policies, routes: Routes, hostnames: seq<string>, gateway: Option<ObjectKey>,
                        d: string, l: Limit, k: ObjectKey): nat
  {
    if IsRoutePolicy(policies, k) then
      Times(RouteUses(policies, routes, k, d), LimitShare(policies, Some(k), l) + LimitShare(policies, gateway, l))
    else if IsGatewayPolicy(policies, k) then
      Times(GatewayUses(hostnames, d), LimitShare(policies, Some(k), l))
    else 0
  }

  ghost function Contributions(policies: Policies, routes: Routes, hostnames: seq<string>,
                               gateway: Option<ObjectKey>, d: string, l: Limit): ObjectKey -> nat
  {
    k => Contribution(policies, routes, hostnames, gateway, d, l, k)
  }

  ghost function GatewayKind(policies: Policies): ObjectKey -> nat {
    k => if IsGatewayPolicy(policies, k) then 1 else 0
  }

  /** The gateway-level policy of a reference list. */
  ghost function GatewayRef(policies: Policies, refs: seq<ObjectKey>): Option<ObjectKey> {
    var loaded := Load(policies, refs);
    if loaded.Ok? then loaded.value.gateway else None
  }

  /** The copies of `l` the merge of `refs` puts under `d`: a sum over the listed policies. */
  ghost function MergeCount(policies: Policies, routes: Routes, hostnames: seq<string>, refs: seq<ObjectKey>,
                            d: string, l: Limit): nat
  {
    Sum(Contributions(policies, routes, hostnames, GatewayRef(policies, refs), d, l), refs)
  }

  lemma RoutePartCount(policies: Policies, routes: Routes, hostnames: seq<string>, gateway: Option<ObjectKey>,
                       k: ObjectKey, d: string, l: Limit)
    requires IsRoutePolicy(policies, k)
    ensures Files(RouteLimitPart(policies, routes, gateway, k), d, l) ==
            Contribution(policies, routes, hostnames, gateway, d, l, k)
  {
    UsesAreOccurrences(policies, routes, hostnames, k, d);
    CountConcat(LimitsOfKey(policies, Some(k)), LimitsOfKey(policies, gateway), l);
    LimitShareIsCount(policies, Some(k), l);
    LimitShareIsCount(policies, gateway, l);
  }

  /** What the merge loop files under `d` holds each limit exactly `MergeCount` times. */
  lemma MergeLaw(policies: Policies, routes: Routes, hostnames: seq<string>, refs: seq<ObjectKey>, d: string, l: Limit)
    requires Load(policies, refs).Ok?
    ensures Count(Gather(LimitParts(policies, routes, hostnames, Load(policies, refs).value), d), l) ==
            MergeCount(policies, routes, hostnames, refs, d, l)
  {
    var loaded := Load(policies, refs).value;
    var f := Contributions(policies, routes, hostnames, loaded.gateway, d, l);
    LoadSplitsSum(policies, refs, f);
    forall k | k in loaded.routes
      ensures f(k) == Files(RouteLimits(policies, routes, loaded.gateway)(k), d, l)
    {
      RoutePartCount(policies, routes, hostnames, loaded.gateway, k, d, l);
    }
    PartsSum(GatewayLimitPart(policies, hostnames, loaded.gateway), RouteLimits(policies, routes, loaded.gateway),
             loaded.routes, d, l, f);
    if loaded.gateway.Some? {
      UsesAreOccurrences(policies, routes, hostnames, loaded.gateway.value, d);
      LimitShareIsCount(policies, loaded.gateway, l);
    }
  }

  /** Loading succeeds exactly when every key exists and at most one names a gateway policy. */
  lemma {:induction false} LoadSucceeds(policies: Policies, refs: seq<ObjectKey>)
    ensures Load(policies, refs).Ok? <==>
      (forall k :: k in refs ==> k in policies) && Sum(GatewayKind(policies), refs) <= 1
    ensures Load(policies, refs).Ok? ==>
      var gateway := Load(policies, refs).value.gateway;
      && (gateway.Some? ==> gateway.value in refs)
      && (gateway.Some? <==> Sum(GatewayKind(policies), refs) == 1)
      && forall k :: k in refs && IsGatewayPolicy(policies, k) ==> gateway == Some(k)
  {
    if refs != [] {
      var init := refs[..|refs| - 1];
      LoadSucceeds(policies, init);
      assert refs == init + [refs[|refs| - 1]];
    }
  }

  /** What is loaded, by membership. */
  lemma {:induction false} LoadedMembers(policies: Policies, refs: seq<ObjectKey>)
    requires Load(policies, refs).Ok?
    ensures var loaded := Load(policies, refs).value;
      && (forall k :: k in loaded.routes <==> k in refs && IsRoutePolicy(policies, k))
      && (forall k :: loaded.gateway == Some(k) <==> k in refs && IsGatewayPolicy(policies, k))
  {
    LoadSucceeds(policies, refs);
    if refs != [] {
      var init := refs[..|refs| - 1];
      assert refs == init + [refs[|refs| - 1]];
      LoadedMembers(policies, init);
      LoadSucceeds(policies, init);
    }
  }

  /** The first reference that cannot be loaded decides the error: there is no such
      policy, or there is a gateway-level one before it and it is another. */
  lemma FirstUnloadable(policies: Policies, refs: seq<ObjectKey>, i: nat)
    requires i < |refs| && Load(policies, refs[..i]).Ok?
    ensures refs[i] !in policies ==> Load(policies, refs) == Err(NotFound)
    ensures IsGatewayPolicy(policies, refs[i]) && (exists j :: 0 <= j < i && IsGatewayPolicy(policies, refs[j])) ==>
      Load(policies, refs) == Err(MultipleGatewayPolicies)
  {
    assert refs[..i + 1][..i] == refs[..i];
    if refs[i] !in policies {
      LoadErrorStays(policies, refs, i + 1);
    } else if IsGatewayPolicy(policies, refs[i]) {
      if j :| 0 <= j < i && IsGatewayPolicy(policies, refs[j]) {
        LoadedMembers(policies, refs[..i]);
        assert refs[j] in refs[..i];
        LoadErrorStays(policies, refs, i + 1);
      }
    }
  }

  /** The route of a policy is there, and none of its parents rejects it. */
  ghost predicate RouteIsUsable(policies: Policies, routes: Routes, k: ObjectKey)
    requires k in policies
  {
    RouteKey(policies, k) in routes && !Rejected(routes[RouteKey(policies, k)])
  }

  /** When the policies listed on a gateway can be merged. */
  lemma MergesIff(policies: Policies, routes: Routes, refs: seq<ObjectKey>)
    ensures MergeError(policies, routes, refs).None? <==>
      && (forall k :: k in refs ==> k in policies) && Sum(GatewayKind(policies), refs) <= 1
      && (forall k :: k in refs && IsRoutePolicy(policies, k) ==> RouteIsUsable(policies, routes, k))
  {
    LoadSucceeds(policies, refs);
    if Load(policies, refs).Ok? {
      var ks := Load(policies, refs).value.routes;
      LoadedMembers(policies, refs);
      UsableRoutes(policies, routes, ks);
      forall k | k in policies
        ensures RouteAt(policies, routes, k).Ok? <==> RouteIsUsable(policies, routes, k)
      {
        UsableRouteIff(routes, RouteKey(policies, k));
      }
    }
  }

  lemma SameGatewayRef(policies: Policies, a: seq<ObjectKey>, b: seq<ObjectKey>)
    requires multiset(a) == multiset(b)
    ensures Load(policies, a).Ok? <==> Load(policies, b).Ok?
    ensures GatewayRef(policies, a) == GatewayRef(policies, b)
  {
    SumPermutation(GatewayKind(policies), a, b);
    LoadSucceeds(policies, a);
    LoadSucceeds(policies, b);
    assert forall k :: k in a <==> k in multiset(a);
    assert forall k :: k in b <==> k in multiset(b);
  }

  /** The merge of a reference list does not depend on its order. */
  lemma MergeIgnoresOrder(policies: Policies, routes: Routes, hostnames: seq<string>,
                          a: seq<ObjectKey>, b: seq<ObjectKey>, d: string, l: Limit)
    requires multiset(a) == multiset(b)
    ensures Load(policies, a).Ok? <==> Load(policies, b).Ok?
    ensures MergeCount(policies, routes, hostnames, a, d, l) == MergeCount(policies, routes, hostnames, b, d, l)
  {
    SameGatewayRef(policies, a, b);
    SumPermutation(Contributions(policies, routes, hostnames, GatewayRef(policies, a), d, l), a, b);
  }
}

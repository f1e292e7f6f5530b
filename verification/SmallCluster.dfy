/** What runs come down to in a cluster with one usable gateway whose policies name no
    rules; the concrete clusters of the modules beside this one are of this kind. */
module SmallClusters {
  import opened Cluster
  import opened Common
  import opened Completion
  import opened Effects
  import opened FinalizeEffects
  import opened LimitIndexes
  import opened LimitOrder
  import opened Merging
  import opened MergeLaws
  import opened Plans
  import opened Sums
  import opened TargetRefs

  const GATEWAY := ObjectKey("infra", "gateway")
  const OWNER := ObjectKey("infra", "limits")
  const LIMIT := Limit(10, 60, [], [])
  const ENTRY := Entry(GATEWAY, "*", LIMIT)
  const READY := Some(Limitador([], true, Endpoint("limitador", 8081)))

  /** A policy that puts these limits on the gateway. */
  function GatewayPolicy(limits: seq<Limit>): Policy {
    Policy(TargetRef(GATEWAY_API_GROUP, "Gateway", None, "gateway"), [RateLimitSpec([], [], limits)])
  }

  predicate Small(s: ClusterState) {
    s.topo.gateways.Keys == {GATEWAY} && !s.topo.gateways[GATEWAY].unready
  }

  predicate OnGateway(s: ClusterState, p: ObjectKey, limits: seq<Limit>) {
    p.namespace == "infra" && p in s.policies && s.policies[p] == GatewayPolicy(limits)
  }

  lemma RateLimitsOf(limits: seq<Limit>)
    ensures LimitsOf(GatewayPolicy(limits).rateLimits) == limits
    ensures PolicyHosts(GatewayPolicy(limits).rateLimits) == []
  {
    var rls := GatewayPolicy(limits).rateLimits;
    assert rls[..0] == [] && LimitsOf([]) == [] && PolicyHosts([]) == [];
    assert RuleHosts([]) == [];
  }

  lemma GatewayIsTarget(s: ClusterState, p: ObjectKey, limits: seq<Limit>)
    requires Small(s) && OnGateway(s, p, limits)
    ensures TargetedBy(s, p) == Ok([GATEWAY]) && TargetOf(s, p) == Ok(GatewayTarget(GATEWAY))
    ensures forall g :: Targets(s, p, g) <==> g == GATEWAY
    ensures Validate(s.policies[p], p.namespace) && HostsError(s, p) == None
    ensures IsGatewayPolicy(s.policies, p) && !IsRoutePolicy(s.policies, p)
  {
    RateLimitsOf(limits);
    assert GATEWAY in s.topo.gateways;
    assert TargetKey(s.policies[p].targetRef, p.namespace) == GATEWAY;
    assert "Gateway"[0] != "HTTPRoute"[0];
  }

  // ----- merging one policy -----

  lemma OneLoads(policies: Policies, routes: Routes, p: ObjectKey)
    requires IsGatewayPolicy(policies, p) && !IsRoutePolicy(policies, p)
    ensures Load(policies, [p]) == Ok(Loaded(Some(p), [])) && MergeError(policies, routes, [p]) == None
    ensures GatewayRef(policies, [p]) == Some(p)
  {
    assert [p][..0] == [];
    assert Load(policies, []) == Ok(Loaded(None, []));
  }

  lemma OneMerges(s: ClusterState, p: ObjectKey, limits: seq<Limit>, e: Entry)
    requires Small(s) && OnGateway(s, p, limits) && e.gateway == GATEWAY
    ensures MergedAt(s, [p], e) ==
            Times(GatewayUses(HostsOf(s.topo, GATEWAY), e.domain), Count(limits, e.limit))
  {
    GatewayIsTarget(s, p, limits);
    RateLimitsOf(limits);
    OneLoads(s.policies, s.topo.routes, p);
    LimitShareIsCount(s.policies, Some(p), e.limit);
    var f := Contributions(s.policies, s.topo.routes, HostsOf(s.topo, GATEWAY), Some(p), e.domain, e.limit);
    assert [p][..0] == [] && Sum(f, []) == 0;
    assert Sum(f, [p]) == f(p);
  }

  // ----- runs -----

  /** The gateway's back reference is free, or the policy's own. */
  predicate MayAcquire(s: ClusterState, p: ObjectKey) {
    GatewayTarget(GATEWAY) in s.backRefs ==> s.backRefs[GatewayTarget(GATEWAY)] == p
  }

  /** An order for a reconcile that would leave these entries in Limitador. */
  lemma LiveOrder(s: ClusterState, p: ObjectKey, entries: seq<Entry>) returns (o: Order)
    requires Live(s, p) && TargetedBy(s, p).Ok?
    requires forall e: Entry :: multiset(entries)[e] == ReconciledCount(s, p, TargetedBy(s, p).value, e)
    ensures forall ws :: FaithfulOrder(s, p, o, ws)
  {
    o := AnyOrder(s, p).(entries := entries);
    forall e: Entry
      ensures multiset(entries)[e] == UpdatedCount(s, RunDiff(s, p, o.listing), p, e)
    {
      UpdatedIsReconciled(s, p, TargetedBy(s, p).value, o.listing, e);
    }
  }

  /** The same for a finalize. */
  lemma LeavingOrder(s: ClusterState, p: ObjectKey, entries: seq<Entry>) returns (o: Order)
    requires Leaving(s, p)
    requires forall e: Entry :: multiset(entries)[e] == if Withdrawn(s, p, e.gateway) then 0 else Held(s)[e]
    ensures forall ws :: FaithfulOrder(s, p, o, ws)
  {
    o := AnyOrder(s, p).(entries := entries);
    forall e: Entry
      ensures multiset(entries)[e] == UpdatedCount(s, RunDiff(s, p, o.listing), p, e)
    {
      FinalizeTargetKeys(s, LeftKeys(s, p), e.gateway);
    }
  }

  /** A reconcile of a policy that is alone on the gateway runs to its end. */
  lemma AloneCompletes(s: ClusterState, p: ObjectKey, limits: seq<Limit>, o: Order)
    requires Small(s) && OnGateway(s, p, limits) && Live(s, p) && MayAcquire(s, p)
    requires LimitadorReady(s) && Projected(Refs(s, GATEWAY), p) == [p] && forall ws :: FaithfulOrder(s, p, o, ws)
    ensures Completed(s, p, o)
  {
    GatewayIsTarget(s, p, limits);
    OneLoads(s.policies, s.topo.routes, p);
    forall g | Touched(s, p, g)
      ensures JobAt(s, p, [GATEWAY], g).refs == [p]
    {
    }
    assert FaithfulOrder(s, p, o, []);
    ReconcileCompletesIff(s, p, o);
  }

  /** Nothing is asked for, nothing is held, and nothing has to be printed. */
  lemma NoLimitsAlone(s: ClusterState, p: ObjectKey, e: Entry)
    requires Small(s) && OnGateway(s, p, []) && Projected(Refs(s, GATEWAY), p) == [p] && Held(s)[e] == 0
    ensures ReconciledCount(s, p, [GATEWAY], e) == 0
  {
    if e.gateway == GATEWAY {
      OneMerges(s, p, [], e);
      assert Count([], e.limit) == 0;
      TimesNothing(GatewayUses(HostsOf(s.topo, GATEWAY), e.domain));
    }
  }

  lemma {:induction false} TimesNothing(n: nat)
    ensures Times(n, 0) == 0
  {
    if n > 0 {
      TimesNothing(n - 1);
    }
  }

  /** A reconcile of a policy without limits, alone on the gateway. */
  lemma BareRun(s: ClusterState, p: ObjectKey) returns (o: Order)
    requires Small(s) && OnGateway(s, p, []) && Live(s, p) && MayAcquire(s, p)
    requires LimitadorReady(s) && Projected(Refs(s, GATEWAY), p) == [p] && Held(s) == multiset{}
    ensures Completed(s, p, o)
  {
    GatewayIsTarget(s, p, []);
    forall e: Entry
      ensures multiset([])[e] == ReconciledCount(s, p, [GATEWAY], e)
    {
      NoLimitsAlone(s, p, e);
    }
    o := LiveOrder(s, p, []);
    AloneCompletes(s, p, [], o);
  }

  /** A finalize that leaves at most one gateway-level policy, where the gateway is the
      only one with limits. */
  lemma LastRun(s: ClusterState, p: ObjectKey) returns (o: Order)
    requires Small(s) && Leaving(s, p) && Releasable(s, p) && Withdrawn(s, p, GATEWAY)
    requires LimitadorReady(s) && Merges(s, Remaining(s, p, GATEWAY))
    requires forall e: Entry :: Held(s)[e] > 0 ==> e.gateway == GATEWAY
    ensures Completed(s, p, o)
  {
    assert forall g :: Withdrawn(s, p, g) ==> g == GATEWAY;
    o := LeavingOrder(s, p, []);
    assert FaithfulOrder(s, p, o, []);
    FinalizeCompletesIff(s, p, o);
  }

  /** One limit, on a gateway without hostnames. */
  lemma MergedOnce(s: ClusterState, p: ObjectKey, e: Entry)
    requires Small(s) && OnGateway(s, p, [LIMIT]) && HostsOf(s.topo, GATEWAY) == [] && e.gateway == GATEWAY
    ensures MergedAt(s, [p], e) == if e == ENTRY then 1 else 0
  {
    OneMerges(s, p, [LIMIT], e);
    assert Times(0, 1) == 0 && Times(1, 0) == 0 && Times(1, 1) == 1;
  }

  /** A reconcile of a policy with one limit, alone on the gateway. */
  lemma LimitedRun(s: ClusterState, p: ObjectKey) returns (o: Order)
    requires Small(s) && OnGateway(s, p, [LIMIT]) && HostsOf(s.topo, GATEWAY) == [] && Live(s, p) && MayAcquire(s, p)
    requires LimitadorReady(s) && Projected(Refs(s, GATEWAY), p) == [p] && Held(s) == multiset{}
    ensures Completed(s, p, o)
    ensures forall e: Entry :: ReconciledCount(s, p, [GATEWAY], e) == multiset{ENTRY}[e]
  {
    GatewayIsTarget(s, p, [LIMIT]);
    forall e: Entry
      ensures multiset([ENTRY])[e] == ReconciledCount(s, p, [GATEWAY], e)
    {
      if e.gateway == GATEWAY {
        MergedOnce(s, p, e);
      }
    }
    o := LiveOrder(s, p, [ENTRY]);
    AloneCompletes(s, p, [LIMIT], o);
  }
}

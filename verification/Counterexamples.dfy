/** Concrete clusters on which the code does not do what one would expect; each is the
    failing side of a condition proved elsewhere. */
module Counterexamples {
  import opened Artefacts
  import opened Cluster
  import opened Common
  import opened Completion
  import opened Convergence
  import opened Effects
  import opened EmptyMerges
  import opened FinalizeEffects
  import opened ForeignEntries
  import opened GatewayRefs
  import opened Leftovers
  import opened LimitIndexes
  import opened LockProtocol
  import opened MergeLaws
  import opened Merging
  import opened Namespaces
  import opened Plans
  import opened Restoration
  import opened RouteRules
  import opened SecondRun
  import opened SmallClusters
  import opened Sums
  import opened TargetRefs

  // ----- a second reconcile that writes -----

  /** Two listeners, so the plugin's two policies may come in either order. */
  const TWO_DOMAINS := ClusterState(
    Topology(map[GATEWAY := Gateway([Some("a.example"), Some("b.example")], false)], map[]),
    map[OWNER := GatewayPolicy([])], {}, {}, map[], map[], READY, map[], map[])

  lemma TwoHostnames()
    ensures HostsOf(TWO_DOMAINS.topo, GATEWAY) == ["a.example", "b.example"]
  {
    var listeners := TWO_DOMAINS.topo.gateways[GATEWAY].listeners;
    assert listeners[..1] == [Some("a.example")] && listeners[..1][..0] == [];
    assert ListenerHostnames([]) == [];
    assert ListenerHostnames(listeners[..1]) == ["a.example"];
  }

  lemma PartDomains<T>(parts: seq<Part<T>>, i: nat)
    requires i < |parts|
    ensures forall d :: d in parts[i].domains ==> d in Domains(parts)
  {
  }

  lemma TwoMergeDomains()
    ensures |MergeDomains(TWO_DOMAINS, [OWNER], GATEWAY)| >= 2
  {
    TwoHostnames();
    GatewayIsTarget(TWO_DOMAINS, OWNER, []);
    OneLoads(TWO_DOMAINS.policies, TWO_DOMAINS.topo.routes, OWNER);
    var parts := PluginParts(TWO_DOMAINS, Job(GATEWAY, TWO_DOMAINS.topo.gateways[GATEWAY].listeners, [OWNER]));
    assert parts[0].domains == ["a.example", "b.example"];
    assert parts[0].domains[0] in parts[0].domains && parts[0].domains[1] in parts[0].domains;
    PartDomains(parts, 0);
    assert "a.example"[0] != "b.example"[0];
    TwoElements(Domains(parts), "a.example", "b.example");
  }

  lemma TwoElements(domains: set<string>, a: string, b: string)
    requires a in domains && b in domains && a != b
    ensures |domains| >= 2
  {
    assert domains == {a, b} + (domains - {a, b});
  }

  lemma TwoDomainsIsFresh()
    ensures Small(TWO_DOMAINS) && OnGateway(TWO_DOMAINS, OWNER, []) && Live(TWO_DOMAINS, OWNER)
    ensures MayAcquire(TWO_DOMAINS, OWNER) && LimitadorReady(TWO_DOMAINS) && Held(TWO_DOMAINS) == multiset{}
    ensures Refs(TWO_DOMAINS, GATEWAY) == [] && NamesOk(TWO_DOMAINS.topo) && RefsOk(TWO_DOMAINS)
  {
    assert TWO_DOMAINS.limitador.value.limits == [];
    TwoDomainsNames();
  }

  lemma TwoDomainsNames()
    ensures NamesOk(TWO_DOMAINS.topo)
  {
    TwoHostnames();
  }

  lemma WritesAgain(s: ClusterState, p: ObjectKey) returns (o: Order, o': Order)
    requires Small(s) && OnGateway(s, p, []) && Live(s, p) && MayAcquire(s, p) && LimitadorReady(s)
    requires Held(s) == multiset{} && Refs(s, GATEWAY) == [] && NamesOk(s.topo) && RefsOk(s)
    requires |MergeDomains(s, [p], GATEWAY)| >= 2
    ensures Completed(s, p, o) && FaithfulOrder(After(s, p, o), p, o', []) &&
        ReconcilePlan(After(s, p, o), p, o') != DONE
  {
    o := BareRun(s, p);
    GatewayIsTarget(s, p, []);
    o' := NotQuietIfTwoDomains(s, p, o, GATEWAY);
  }

  /** A reconcile completes, and repeating it at once still updates the plugin in some
      order of Go's maps. */
  lemma SecondRunWrites() returns (o: Order, o': Order)
    ensures Live(TWO_DOMAINS, OWNER) && Completed(TWO_DOMAINS, OWNER, o)
    ensures var t := After(TWO_DOMAINS, OWNER, o);
      FaithfulOrder(t, OWNER, o', []) && ReconcilePlan(t, OWNER, o') != DONE
  {
    TwoDomainsIsFresh();
    TwoMergeDomains();
    o, o' := WritesAgain(TWO_DOMAINS, OWNER);
  }

  // ----- artefacts without references -----

  /** The gateway's reference annotation is not valid JSON. */
  const MALFORMED := ClusterState(
    Topology(map[GATEWAY := Gateway([], false)], map[]),
    map[OWNER := GatewayPolicy([])], {}, {}, map[], map[GATEWAY := Malformed], READY, map[], map[])

  /** The reconcile completes and makes filter and plugin for a gateway that lists nobody. */
  lemma MalformedBreaksArtefacts() returns (o: Order)
    ensures Live(MALFORMED, OWNER) && Completed(MALFORMED, OWNER, o)
    ensures ArtefactsMatch(MALFORMED) && !ArtefactsMatch(After(MALFORMED, OWNER, o))
  {
    assert MALFORMED.limitador.value.limits == [];
    o := BareRun(MALFORMED, OWNER);
    GatewayIsTarget(MALFORMED, OWNER, []);
    assert Ann(MALFORMED, GATEWAY).Malformed?;
    ReconcileKeepsArtefacts(MALFORMED, OWNER, o);
  }

  /** The annotation lists the policy twice. */
  const LISTED_TWICE := ClusterState(
    Topology(map[GATEWAY := Gateway([], false)], map[]),
    map[OWNER := GatewayPolicy([])], {OWNER}, {OWNER}, map[GatewayTarget(GATEWAY) := OWNER],
    map[GATEWAY := Listed([OWNER, OWNER])], READY,
    map[GATEWAY := READY.value.endpoint], map[GATEWAY := []])

  lemma ListedTwiceFacts()
    ensures Small(LISTED_TWICE) && Leaving(LISTED_TWICE, OWNER) && Releasable(LISTED_TWICE, OWNER)
    ensures Withdrawn(LISTED_TWICE, OWNER, GATEWAY) && LimitadorReady(LISTED_TWICE) && Held(LISTED_TWICE) == multiset{}
  {
    GatewayIsTarget(LISTED_TWICE, OWNER, []);
    assert LISTED_TWICE.limitador.value.limits == [];
  }

  lemma ListedTwiceRefs()
    ensures Refs(LISTED_TWICE, GATEWAY) == [OWNER, OWNER] && Remaining(LISTED_TWICE, OWNER, GATEWAY) == []
    ensures ArtefactsMatch(LISTED_TWICE)
  {
    LastReference([OWNER, OWNER], OWNER);
    LastReference([OWNER], OWNER);
  }

  lemma ListedTwiceRun(s: ClusterState, p: ObjectKey) returns (o: Order)
    requires Small(s) && Leaving(s, p) && Releasable(s, p) && Withdrawn(s, p, GATEWAY) && LimitadorReady(s)
    requires Held(s) == multiset{} && Refs(s, GATEWAY) == [p, p] && Remaining(s, p, GATEWAY) == [] && ArtefactsMatch(s)
    ensures Completed(s, p, o) && !ArtefactsMatch(After(s, p, o))
  {
    EmptyListMerges(s);
    o := LastRun(s, p);
    FinalizeKeepsArtefacts(s, p, o);
  }

  /** The finalize completes and removes filter and plugin, but only one of the listings. */
  lemma ListedTwiceBreaksArtefacts() returns (o: Order)
    ensures Leaving(LISTED_TWICE, OWNER) && Completed(LISTED_TWICE, OWNER, o)
    ensures ArtefactsMatch(LISTED_TWICE) && !ArtefactsMatch(After(LISTED_TWICE, OWNER, o))
  {
    ListedTwiceFacts();
    ListedTwiceRefs();
    o := ListedTwiceRun(LISTED_TWICE, OWNER);
  }

  // ----- a departure that takes the others' limits -----

  const STAYER := ObjectKey("infra", "stays")
  const LEAVER := ObjectKey("infra", "leaves")
  const ROUTE := ObjectKey("infra", "route")
  const ROUTE_POLICY := Policy(TargetRef(GATEWAY_API_GROUP, "HTTPRoute", None, "route"), [])

  /** One policy with a limit on the gateway, one on a route of that gateway that is being
      deleted; everything is in place. */
  const SHARED := ClusterState(
    Topology(map[GATEWAY := Gateway([], false)],
             map[ROUTE := HTTPRoute([ParentRef(None, "gateway", None)], [], [], [])]),
    map[STAYER := GatewayPolicy([LIMIT]), LEAVER := ROUTE_POLICY], {STAYER, LEAVER}, {LEAVER},
    map[GatewayTarget(GATEWAY) := STAYER, RouteTarget(ROUTE) := LEAVER],
    map[GATEWAY := Listed([STAYER, LEAVER])],
    Some(Limitador(PrintAll([ENTRY]), true, Endpoint("limitador", 8081))),
    map[GATEWAY := Endpoint("limitador", 8081)], map[GATEWAY := []])

  lemma SharedKeys()
    ensures STAYER != LEAVER && Refs(SHARED, GATEWAY) == [STAYER, LEAVER]
    ensures NoDuplicates([STAYER, LEAVER]) && RemoveFirst([STAYER, LEAVER], LEAVER) == [STAYER]
    ensures RemoveFirst([STAYER], LEAVER) == [STAYER] && Others([STAYER, LEAVER], LEAVER) == [STAYER]
  {
    assert STAYER.name[0] != LEAVER.name[0];
    assert IndexOfKey([STAYER, LEAVER], LEAVER) == 1;
    RemoveFromDistinct([STAYER, LEAVER], LEAVER);
  }

  lemma LeaverTargetsGateway()
    ensures LEAVER in SHARED.policies && TargetedBy(SHARED, LEAVER) == Ok([GATEWAY])
    ensures TargetOf(SHARED, LEAVER) == Ok(RouteTarget(ROUTE))
    ensures IsRoutePolicy(SHARED.policies, LEAVER) && NoHostnames(SHARED.policies, SHARED.topo.routes, LEAVER)
  {
    SharedKeys();
    var parents := SHARED.topo.routes[ROUTE].parentRefs;
    assert TargetKey(ROUTE_POLICY.targetRef, "infra") == ROUTE;
    assert ParentKeys("infra", parents) == [GATEWAY];
  }

  lemma EntryIsHeld()
    ensures Held(SHARED) == multiset{ENTRY}
  {
    assert CanonicalEntry(ENTRY);
    ParsePrintedList([ENTRY]);
  }

  lemma StayerStands()
    ensures STAYER in SHARED.policies && IsGatewayPolicy(SHARED.policies, STAYER) &&
        !IsRoutePolicy(SHARED.policies, STAYER)
    ensures LimitsOf(SHARED.policies[STAYER].rateLimits) == [LIMIT]
    ensures !NoLimits(SHARED.policies[STAYER].rateLimits)
  {
    SharedKeys();
    GatewayIsTarget(SHARED, STAYER, [LIMIT]);
    RateLimitsOf([LIMIT]);
    assert SHARED.policies[STAYER].rateLimits[0] in SHARED.policies[STAYER].rateLimits;
  }

  /** A gateway-level policy beside a policy whose route names no hosts. */
  lemma BesideSilentRoute(s: ClusterState, p: ObjectKey, q: ObjectKey, e: Entry)
    requires IsGatewayPolicy(s.policies, p) && !IsRoutePolicy(s.policies, p) && e.gateway == GATEWAY
    requires IsRoutePolicy(s.policies, q) && NoHostnames(s.policies, s.topo.routes, q)
    ensures MergedAt(s, [p, q], e) ==
            Times(GatewayUses(HostsOf(s.topo, GATEWAY), e.domain), LimitShare(s.policies, Some(p), e.limit))
  {
    assert RouteUses(s.policies, s.topo.routes, q, e.domain) == 0;
    OneLoads(s.policies, s.topo.routes, p);
    assert [p, q][..1] == [p] && [p][..0] == [];
    assert GatewayRef(s.policies, [p, q]) == Some(p);
    var f := Contributions(s.policies, s.topo.routes, HostsOf(s.topo, GATEWAY), Some(p), e.domain, e.limit);
    assert f(q) == 0;
    assert Sum(f, [p]) == Sum(f, []) + f(p) && Sum(f, []) == 0;
    assert Sum(f, [p, q]) == Sum(f, [p]) + f(q);
  }

  lemma SharedMerges(e: Entry)
    requires e.gateway == GATEWAY
    ensures MergedAt(SHARED, [STAYER, LEAVER], e) == if e == ENTRY then 1 else 0
  {
    StayerStands();
    LeaverTargetsGateway();
    BesideSilentRoute(SHARED, STAYER, LEAVER, e);
    LimitShareIsCount(SHARED.policies, Some(STAYER), e.limit);
    assert HostsOf(SHARED.topo, GATEWAY) == [];
    assert Times(0, 1) == 0 && Times(1, 0) == 0 && Times(1, 1) == 1;
  }

  lemma SharedFacts()
    ensures Small(SHARED) && Leaving(SHARED, LEAVER) && Releasable(SHARED, LEAVER) && Withdrawn(SHARED, LEAVER, GATEWAY)
    ensures LimitadorReady(SHARED) && NamesOk(SHARED.topo)
  {
    LeaverTargetsGateway();
  }

  lemma SharedRefs()
    ensures RefsOk(SHARED) && Refs(SHARED, GATEWAY) == [STAYER, LEAVER]
    ensures Remaining(SHARED, LEAVER, GATEWAY) == Others(Refs(SHARED, GATEWAY), LEAVER) == [STAYER]
  {
    SharedKeys();
  }

  lemma SharedIsMerged()
    ensures MergedHeld(SHARED, GATEWAY)
  {
    SharedRefs();
    EntryIsHeld();
    forall e: Entry | e.gateway == GATEWAY
      ensures Held(SHARED)[e] == MergedAt(SHARED, Refs(SHARED, GATEWAY), e)
    {
      SharedMerges(e);
    }
  }

  lemma LosesLimits(s: ClusterState, p: ObjectKey, q: ObjectKey) returns (o: Order)
    requires Small(s) && Leaving(s, p) && Releasable(s, p) && Withdrawn(s, p, GATEWAY) && LimitadorReady(s)
    requires NamesOk(s.topo) && RefsOk(s) && Remaining(s, p, GATEWAY) == Others(Refs(s, GATEWAY), p) == [q]
    requires IsGatewayPolicy(s.policies, q) && !IsRoutePolicy(s.policies, q)
    requires !NoLimits(s.policies[q].rateLimits)
    requires forall e: Entry :: Held(s)[e] > 0 ==> e.gateway == GATEWAY
    ensures Completed(s, p, o)
    ensures var t := After(s, p, o); Refs(t, GATEWAY) == [q] && Held(t) == multiset{} && !MergedHeld(t, GATEWAY)
  {
    OneLoads(s.policies, s.topo.routes, q);
    o := LastRun(s, p);
    DepartureClears(s, p, o, GATEWAY);
    NothingHeld(s, p, o);
    assert q in [q] && !AsksNothing(s.policies, s.topo.routes, Some(q), q);
    DepartureKeepsLimitsIff(s, p, o, GATEWAY);
  }

  lemma NothingHeld(s: ClusterState, p: ObjectKey, o: Order)
    requires Leaving(s, p) && Completed(s, p, o) && Withdrawn(s, p, GATEWAY)
    requires forall e: Entry :: Held(s)[e] > 0 ==> e.gateway == GATEWAY
    ensures Held(After(s, p, o)) == multiset{}
  {
    FinalizeHasEffect(s, p, o);
  }

  /** Before the deletion Limitador holds what the gateway's policies ask for; once it
      completed, the other policy is still listed but its limit is gone. */
  lemma DepartureLosesLimits() returns (o: Order)
    ensures Leaving(SHARED, LEAVER) && Completed(SHARED, LEAVER, o)
    ensures MergedHeld(SHARED, GATEWAY) && Held(SHARED) == multiset{ENTRY}
    ensures var t := After(SHARED, LEAVER, o);
      Refs(t, GATEWAY) == [STAYER] && Held(t) == multiset{} && !MergedHeld(t, GATEWAY)
  {
    SharedFacts();
    SharedRefs();
    SharedIsMerged();
    StayerStands();
    EntryIsHeld();
    o := LosesLimits(SHARED, LEAVER, STAYER);
  }

  // ----- a key left behind -----

  const GONE := ObjectKey("infra", "gone")

  /** A policy that is being deleted is listed on the gateway, its route does not exist
      any more; another policy targets the gateway. */
  const HAUNTED := ClusterState(
    Topology(map[GATEWAY := Gateway([], false)], map[]),
    map[GONE := ROUTE_POLICY, OWNER := GatewayPolicy([LIMIT])], {GONE}, {GONE}, map[],
    map[GATEWAY := Listed([GONE])], READY, map[GATEWAY := READY.value.endpoint], map[GATEWAY := []])

  lemma GoneHasNoRoute()
    ensures Leaving(HAUNTED, GONE) && Releasable(HAUNTED, GONE) && TargetedBy(HAUNTED, GONE) == Err(NotFound)
    ensures forall g :: !Withdrawn(HAUNTED, GONE, g)
  {
    assert GONE.name[0] != OWNER.name[0];
  }

  lemma OwnerIsLive()
    ensures OnGateway(HAUNTED, OWNER, [LIMIT]) && Live(HAUNTED, OWNER) && Small(HAUNTED) && OWNER != GONE
    ensures Targets(HAUNTED, OWNER, GATEWAY) && Refs(HAUNTED, GATEWAY) == [GONE] && Held(HAUNTED) == multiset{}
  {
    assert GONE.name[0] != OWNER.name[0];
    GatewayIsTarget(HAUNTED, OWNER, [LIMIT]);
    assert HAUNTED.limitador.value.limits == [];
  }

  lemma LeavesNothing(s: ClusterState, p: ObjectKey) returns (o: Order)
    requires Leaving(s, p) && Releasable(s, p) && (forall g :: !Withdrawn(s, p, g)) && Held(s) == multiset{}
    ensures Completed(s, p, o)
  {
    o := LeavingOrder(s, p, []);
    assert FaithfulOrder(s, p, o, []);
    FinalizeCompletesIff(s, p, o);
  }

  lemma StillTargets(s: ClusterState, p: ObjectKey, o: Order, q: ObjectKey, g: ObjectKey)
    requires Leaving(s, p) && Completed(s, p, o) && q != p && Live(s, q) && Targets(s, q, g)
    ensures Live(After(s, p, o), q) && Targets(After(s, p, o), q, g)
  {
    FinalizeHasEffect(s, p, o);
  }

  lemma LeavesItsKey(s: ClusterState, p: ObjectKey, q: ObjectKey) returns (o: Order)
    requires Leaving(s, p) && Releasable(s, p) && (forall g :: !Withdrawn(s, p, g)) && Held(s) == multiset{}
    requires GATEWAY in s.topo.gateways && p in Refs(s, GATEWAY) && q != p && Live(s, q) && Targets(s, q, GATEWAY)
    ensures Completed(s, p, o) && !Unlisted(After(s, p, o), p) && Live(After(s, p, o), q)
    ensures forall o': Order :: Lists(o'.listing, s.topo) ==> ReconcilePlan(After(s, p, o), q, o').err.Some?
  {
    o := LeavesNothing(s, p);
    FinalizeUnlistsIff(s, p, o);
    StillTargets(s, p, o, q, GATEWAY);
    forall o': Order | Lists(o'.listing, s.topo)
      ensures ReconcilePlan(After(s, p, o), q, o').err.Some?
    {
      LeftoverBlocks(s, p, o, GATEWAY, q, o');
    }
  }

  /** The finalize completes, the policy is gone and still listed, and from then on the
      other policy fails in every order. */
  lemma DeletedPolicyHaunts() returns (o: Order)
    ensures Leaving(HAUNTED, GONE) && Completed(HAUNTED, GONE, o)
    ensures var t := After(HAUNTED, GONE, o);
      && !Unlisted(t, GONE) && Live(t, OWNER)
      && forall o': Order :: Lists(o'.listing, HAUNTED.topo) ==> ReconcilePlan(t, OWNER, o').err.Some?
  {
    GoneHasNoRoute();
    OwnerIsLive();
    o := LeavesItsKey(HAUNTED, GONE, OWNER);
  }

  // ----- a route match that is lost -----

  const GET := HTTPRouteMatch(None, Some("GET"), map[])
  const HEADER_ONLY := HTTPRouteMatch(None, None, map["x-tier" := "gold"])

  /** One rule that matches GET requests or requests with a header: the compiled rules
      know the former only. */
  lemma HeaderMatchIsLost()
    ensures !Covers([], [[GET, HEADER_ONLY]], (val, path) => true)
    ensures RulesOfRoute([], [[GET, HEADER_ONLY]]) == [Rule([], ["GET"], ["*"])]
  {
    var matches := [GET, HEADER_ONLY];
    var none: seq<RouteRule> := [];
    assert [matches][..0] == none && Flatten(none) == [];
    assert Flatten([matches]) == matches;
    assert matches[..1] == [GET] && [GET][..0] == [];
    assert KeptRules([], []) == [] && KeptRules([], [GET]) == [RuleOf([], GET)];
    assert KeptRules([], matches) == [RuleOf([], GET)];
    assert GET in matches && HEADER_ONLY in matches && Supported(GET) && !Supported(HEADER_ONLY);
    assert matches in [matches] && HasMatch([matches], GET) && HasMatch([matches], HEADER_ONLY);
    assert !CaughtPath([matches], "/");
    DroppedMatchEscapes([], [matches], HEADER_ONLY, "/");
  }

  // ----- a rule wider than its match -----

  const STARRED := HTTPRouteMatch(Some(HTTPPathMatch(Some(Exact), Some("/admin/*"))), Some("POST"), map[])

  /** An Exact path that ends in '*' compiles to a rule that takes it for a prefix. */
  lemma StarredExactIsWide()
    ensures var r := Request("a.example", "POST", "/admin/toys", map[]);
      RuleAccepts(RuleOf([], STARRED), r) && !Reads([], STARRED, r)
      && forall regex :: !MatchAccepts(STARRED, r, regex)
  {
    var r := Request("a.example", "POST", "/admin/toys", map[]);
    var val := "/admin/*";
    assert MatchValue(STARRED.path.value) == val && val[..|val| - 1] == "/admin/";
    assert r.path[..7] == "/admin/" && r.path[7] != val[7];
    RuleAcceptsParts([], STARRED, r);
    RulePathsMeaning(STARRED.path.value, r.path);
  }

  // ----- entries that do not parse -----

  const STRANGER := RateLimit("somebody-else", 5, 1, [], [])

  /** Somebody else's entry is in Limitador, and a policy with a limit is new. */
  const SHARED_LIMITADOR := ClusterState(
    Topology(map[GATEWAY := Gateway([], false)], map[]),
    map[OWNER := GatewayPolicy([LIMIT])], {}, {}, map[], map[],
    Some(Limitador([STRANGER], true, Endpoint("limitador", 8081))), map[], map[])

  lemma StrangerDoesNotParse()
    ensures Foreign(SHARED_LIMITADOR) == [STRANGER] && Held(SHARED_LIMITADOR) == multiset{}
  {
    SplitWhole("somebody-else", '#');
    assert ParseEntry(STRANGER).None?;
    assert [STRANGER][..0] == [] && Unparsed([]) == [] && ParsedEntries([]) == [];
  }

  lemma SharedLimitadorIsFresh()
    ensures var s := SHARED_LIMITADOR;
      && Small(s) && OnGateway(s, OWNER, [LIMIT]) && HostsOf(s.topo, GATEWAY) == [] && Live(s, OWNER)
      && MayAcquire(s, OWNER) && LimitadorReady(s) && Refs(s, GATEWAY) == [] && NamesOk(s.topo)
  {
  }

  lemma ForeignIsDropped(s: ClusterState, p: ObjectKey) returns (o: Order)
    requires Small(s) && OnGateway(s, p, [LIMIT]) && HostsOf(s.topo, GATEWAY) == [] && Live(s, p)
    requires MayAcquire(s, p) && LimitadorReady(s) && Refs(s, GATEWAY) == [] && NamesOk(s.topo)
    requires Held(s) == multiset{} && Foreign(s) != []
    ensures Completed(s, p, o) && Foreign(After(s, p, o)) == []
  {
    GatewayIsTarget(s, p, [LIMIT]);
    o := LimitedRun(s, p);
    UpdatedIsReconciled(s, p, [GATEWAY], o.listing, ENTRY);
    assert ReconciledCount(s, p, [GATEWAY], ENTRY) == 1 && Held(s)[ENTRY] == 0;
    assert !LimitsSettled(s, RunDiff(s, p, o.listing), p);
    ForeignKeptIff(s, p, o);
  }

  /** The reconcile completes, and the stranger's entry is gone. */
  lemma StrangersEntryIsDropped() returns (o: Order)
    ensures Live(SHARED_LIMITADOR, OWNER) && Completed(SHARED_LIMITADOR, OWNER, o)
    ensures Foreign(SHARED_LIMITADOR) == [STRANGER] && Foreign(After(SHARED_LIMITADOR, OWNER, o)) == []
  {
    SharedLimitadorIsFresh();
    StrangerDoesNotParse();
    o := ForeignIsDropped(SHARED_LIMITADOR, OWNER);
  }
}

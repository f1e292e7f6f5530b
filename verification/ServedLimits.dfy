/** What Limitador holds for a reconciled gateway is what the gateway's plugin asks it,
    and what the plugin asks is what the policies listed on the gateway say. */
module ServedLimits {
  import opened ActionLaws
  import opened Cluster
  import opened Common
  import opened Convergence
  import opened ConvergedArtefacts
  import opened Effects
  import opened LimitIndexes
  import opened Merging
  import opened MergeLaws
  import opened Namespaces
  import opened Plans
  import opened SharedDomains
  import opened Sums
  import opened TargetRefs
  import opened WasmPlugins

  ghost predicate ServedByOne(plugin: seq<WasmPolicy>, e: Entry) {
    exists w :: w in plugin && w.rateLimitDomain == MarshallNamespace(e.gateway, e.domain) && w.hostnames == [e.domain]
                && forall v :: v in plugin && v.rateLimitDomain == MarshallNamespace(e.gateway, e.domain) ==> v == w
  }

  lemma MergedIsServed(s: ClusterState, j: Job, e: Entry, plugin: seq<WasmPolicy>)
    requires MergeError(s.policies, s.topo.routes, j.refs).None? && e.gateway == j.gateway
    requires HostsOf(s.topo, j.gateway) == ListenerHostnames(j.listeners) && MergedAt(s, j.refs, e) > 0
    requires ListsOnce(plugin, PluginPolicies(j.gateway, PluginParts(s, j)))
    ensures ServedByOne(plugin, e)
  {
    NamespaceHasOnePluginPolicy(j.gateway, s.policies, s.topo.routes, ListenerHostnames(j.listeners), j.refs,
        e.domain, e.limit);
  }

  lemma TargetedListIsNotEmpty(s: ClusterState, p: ObjectKey, g: ObjectKey)
    requires g in s.topo.gateways && Targets(s, p, g)
    ensures JobAt(s, p, TargetedBy(s, p).value, g).refs != []
  {
  }

  /** The plugin of a gateway the policy targets, with the references it has afterwards. */
  lemma TargetedPluginIsListed(s: ClusterState, p: ObjectKey, o: Order, g: ObjectKey) returns (j: Job)
    requires RefsOk(s) && Live(s, p) && Completed(s, p, o)
    requires g in s.topo.gateways && Targets(s, p, g)
    ensures var t := After(s, p, o);
      && t.topo == s.topo && t.policies == s.policies
      && g in t.plugins && j.gateway == g && j.refs == Refs(t, g)
      && HostsOf(s.topo, g) == ListenerHostnames(j.listeners)
      && MergeError(s.policies, s.topo.routes, j.refs).None?
      && ListsOnce(t.plugins[g], PluginPolicies(g, PluginParts(s, j)))
  {
    var t := After(s, p, o);
    var targeted := TargetedBy(s, p).value;
    ReconcileGatewayEffect(s, p, o);
    ProjectedIsStored(s, p, o, g);
    j := JobAt(s, p, targeted, g);
    assert ArtefactsAt(s, p, targeted, g, t);
    TargetedListIsNotEmpty(s, p, g);
  }

  /** After a completed reconcile, every limit held for a gateway the policy targets is
      filed under the rate limit domain of exactly one policy of the gateway's plugin,
      and that policy acts on the limit's domain. */
  lemma HeldLimitsAreServed(s: ClusterState, p: ObjectKey, o: Order, e: Entry)
    requires RefsOk(s) && NamesOk(s.topo) && Live(s, p) && Completed(s, p, o)
    requires e.gateway in s.topo.gateways && Targets(s, p, e.gateway)
    requires Held(After(s, p, o))[e] > 0
    ensures var t := After(s, p, o);
      e.gateway in t.plugins && ServedByOne(t.plugins[e.gateway], e)
  {
    var t := After(s, p, o);
    ReconcileEffect(s, p, o);
    EffectMerges(s, p, t, e.gateway);
    var j := TargetedPluginIsListed(s, p, o, e.gateway);
    assert MergedAt(t, j.refs, e) == MergedAt(s, j.refs, e);
    MergedIsServed(s, j, e, t.plugins[e.gateway]);
  }

  /** After a completed reconcile, the elements of Limitador's flat list that name a gateway
      the policy targets are the merge over the policies now listed there. */
  lemma StoredLimitsSay(s: ClusterState, p: ObjectKey, o: Order, e: Entry)
    requires RefsOk(s) && NamesOk(s.topo) && Live(s, p) && Completed(s, p, o)
    requires e.gateway in s.topo.gateways && Targets(s, p, e.gateway)
    ensures var t := After(s, p, o);
      && t.limitador.Some?
      && SaidIn(t.limitador.value.limits, e) ==
           MergeCount(t.policies, t.topo.routes, HostsOf(t.topo, e.gateway), Refs(t, e.gateway), e.domain, e.limit)
  {
    var t := After(s, p, o);
    ReconcileEffect(s, p, o);
    EffectMerges(s, p, t, e.gateway);
    HeldIsSaid(t, e);
  }

  // ----- the actions of a plugin -----

  /** The policy asks, for one domain of a gateway, for each action as often as the
      policies listed in `refs` do together. */
  ghost predicate AsksFor(s: ClusterState, g: ObjectKey, refs: seq<ObjectKey>, w: WasmPolicy, d: string) {
    && ServesDomain(w, g, d)
    && forall a :: Count(w.gatewayActions, a) ==
                   ActionCount(s.policies, s.topo.routes, HostsOf(s.topo, g), refs, d, a)
  }

  ghost predicate DomainAt(s: ClusterState, g: ObjectKey, refs: seq<ObjectKey>, d: string) {
    MergeDomain(s.policies, s.topo.routes, HostsOf(s.topo, g), refs, d)
  }

  /** A plugin has one policy for each domain of the merge, which asks for what it should,
      and no others. */
  ghost predicate AsksForAll(s: ClusterState, g: ObjectKey, refs: seq<ObjectKey>, plugin: seq<WasmPolicy>) {
    && (forall i, j :: 0 <= i < j < |plugin| ==> plugin[i].name != plugin[j].name)
    && (forall w :: w in plugin ==> DomainAt(s, g, refs, w.name) && AsksFor(s, g, refs, w, w.name))
    && forall d :: DomainAt(s, g, refs, d) ==> exists w :: w in plugin && w.name == d
  }

  lemma ListedPoliciesAsk(s: ClusterState, j: Job, plugin: seq<WasmPolicy>)
    requires MergeError(s.policies, s.topo.routes, j.refs).None?
    requires HostsOf(s.topo, j.gateway) == ListenerHostnames(j.listeners)
    requires ListsOnce(plugin, PluginPolicies(j.gateway, PluginParts(s, j)))
    ensures AsksForAll(s, j.gateway, j.refs, plugin)
  {
    var parts, hosts := PluginParts(s, j), HostsOf(s.topo, j.gateway);
    forall d
      ensures DomainAt(s, j.gateway, j.refs, d) <==> d in Domains(parts)
    {
      MergeDomainsIff(s.policies, s.topo.routes, hosts, j.refs, d);
    }
    forall w | w in plugin
      ensures w.name in Domains(parts) && w == PolicyFor(j.gateway, w.name, Gather(parts, w.name))
      ensures AsksFor(s, j.gateway, j.refs, w, w.name)
    {
      forall a
        ensures Count(w.gatewayActions, a) == ActionCount(s.policies, s.topo.routes, hosts, j.refs, w.name, a)
      {
        ActionLaw(s.policies, s.topo.routes, hosts, j.refs, w.name, a);
      }
    }
    forall d | DomainAt(s, j.gateway, j.refs, d)
      ensures exists w :: w in plugin && w.name == d
    {
      assert PolicyFor(j.gateway, d, Gather(parts, d)) in plugin;
    }
    forall i, k | 0 <= i < k < |plugin|
      ensures plugin[i].name != plugin[k].name
    {
      assert plugin[i] in plugin && plugin[k] in plugin;
    }
  }

  lemma SameAsks(s: ClusterState, t: ClusterState, g: ObjectKey, refs: seq<ObjectKey>, plugin: seq<WasmPolicy>)
    requires AsksForAll(s, g, refs, plugin) && t.topo == s.topo && t.policies == s.policies
    ensures AsksForAll(t, g, refs, plugin)
  {
    assert forall d :: DomainAt(t, g, refs, d) == DomainAt(s, g, refs, d);
    forall w | w in plugin
      ensures AsksFor(t, g, refs, w, w.name)
    {
      assert AsksFor(s, g, refs, w, w.name);
    }
  }

  /** After a completed reconcile, the plugin of a gateway the policy targets asks, domain
      by domain, for exactly what the policies now listed on the gateway say. */
  lemma StoredPluginAsks(s: ClusterState, p: ObjectKey, o: Order, g: ObjectKey)
    requires RefsOk(s) && Live(s, p) && Completed(s, p, o)
    requires g in s.topo.gateways && Targets(s, p, g)
    ensures var t := After(s, p, o);
      g in t.plugins && AsksForAll(t, g, Refs(t, g), t.plugins[g])
  {
    var t := After(s, p, o);
    var j := TargetedPluginIsListed(s, p, o, g);
    ListedPoliciesAsk(s, j, t.plugins[g]);
    SameAsks(s, t, g, j.refs, t.plugins[g]);
  }

  /** And so does every plugin where the artefacts have settled. */
  lemma SettledPluginsAsk(s: ClusterState, g: ObjectKey)
    requires ArtefactsConverged(s) && g in s.topo.gateways
    ensures if Refs(s, g) == [] then g !in s.plugins
            else g in s.plugins && AsksForAll(s, g, Refs(s, g), s.plugins[g])
  {
    assert PluginInPlace(s, g);
    if Refs(s, g) != [] {
      ListedPoliciesAsk(s, GatewayJob(s, g), s.plugins[g]);
    }
  }
}

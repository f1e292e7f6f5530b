/** The same two rounds settle filters and plugins: they exist exactly where policies
    are listed, and each plugin has the policies its gateway's references ask for. */
module ConvergedArtefacts {
  import opened Cluster
  import opened Common
  import opened Convergence
  import opened Effects
  import opened Plans

  /** The gateway with the references it lists. */
  function GatewayJob(s: ClusterState, g: ObjectKey): Job
    requires g in s.topo.gateways
  {
    Job(g, s.topo.gateways[g].listeners, Refs(s, g))
  }

  /** The plugin is absent without references, and else has the policies they ask for. */
  ghost predicate PluginInPlace(s: ClusterState, g: ObjectKey)
    requires g in s.topo.gateways
  {
    PluginMatches(s, GatewayJob(s, g), s)
  }

  /** Idle gateways have neither filter nor plugin, and a gateway that lists somebody
      who targets it has a filter. */
  ghost predicate ArtefactsExpected(s: ClusterState, g: ObjectKey) {
    && (Idle(s, g) ==> g !in s.filters && g !in s.plugins)
    && forall k :: k in Refs(s, g) && Targets(s, k, g) ==> g in s.filters
  }

  ghost predicate ArtefactsStart(s: ClusterState) {
    forall g :: g in s.topo.gateways ==> ArtefactsExpected(s, g)
  }

  ghost predicate ArtefactsConverged(s: ClusterState) {
    forall g :: g in s.topo.gateways ==> (g in s.filters <==> Refs(s, g) != []) && PluginInPlace(s, g)
  }

  lemma EffectKeepsExpected(s: ClusterState, p: ObjectKey, t: ClusterState, g: ObjectKey)
    requires p in s.policies && TargetOf(s, p).Ok? && TargetedBy(s, p).Ok? && RefsOk(s) && GatewayEffect(s, p, t)
    requires g in s.topo.gateways && ArtefactsExpected(s, g)
    ensures ArtefactsExpected(t, g)
  {
    var targeted := TargetedBy(s, p).value;
    EditedRefs(s, p, targeted, g);
    assert Ann(t, g) == EditedAnn(s, p, targeted, g);
    assert ArtefactsAt(s, p, targeted, g, t);
    SameTargets(s, t, g);
    assert g in targeted <==> Targets(t, p, g);
    if g !in targeted && p !in Refs(s, g) {
      assert Refs(t, g) == Refs(s, g);
    }
  }

  lemma SameTargets(s: ClusterState, t: ClusterState, g: ObjectKey)
    requires t.topo == s.topo && t.policies == s.policies
    ensures forall q :: Targets(t, q, g) == Targets(s, q, g)
  {
  }

  lemma EventKeepsArtefacts(s: ClusterState, p: ObjectKey, o: Order)
    requires Start(s) && ArtefactsStart(s) && Live(s, p) && Completed(s, p, o)
    ensures Start(After(s, p, o)) && ArtefactsStart(After(s, p, o))
  {
    var t := After(s, p, o);
    EventKeepsStart(s, p, o);
    ReconcileGatewayEffect(s, p, o);
    forall g | g in t.topo.gateways
      ensures ArtefactsExpected(t, g)
    {
      EffectKeepsExpected(s, p, t, g);
    }
  }

  lemma {:induction false} RoundKeepsArtefacts(s: ClusterState, evs: seq<Event>)
    requires Start(s) && ArtefactsStart(s) && AllComplete(s, evs)
    ensures ArtefactsStart(RunEvents(s, evs))
    decreases |evs|
  {
    if evs != [] {
      EventKeepsArtefacts(s, evs[0].policy, evs[0].order);
      RoundKeepsArtefacts(After(s, evs[0].policy, evs[0].order), evs[1..]);
    }
  }

  /** Once references are settled, a reconcile puts the plugins of its own gateways in
      place and leaves every other plugin alone. */
  lemma EventPlacesPlugin(s: ClusterState, p: ObjectKey, o: Order, g: ObjectKey)
    requires Start(s) && AllSettled(s) && Live(s, p) && Completed(s, p, o) && g in s.topo.gateways
    ensures var t := After(s, p, o);
      && Start(t) && AllSettled(t) && t.topo == s.topo && Refs(t, g) == Refs(s, g)
      && (p in Refs(s, g) || PluginInPlace(s, g) ==> PluginInPlace(t, g))
  {
    var t := After(s, p, o);
    EventMerges(s, p, o, g);
    ReconcileGatewayEffect(s, p, o);
    var targeted := TargetedBy(s, p).value;
    SettledRefs(s, g);
    assert p in Refs(s, g) <==> g in targeted;
    assert ArtefactsAt(s, p, targeted, g, t);
    PluginStays(s, t, p, targeted, g);
  }

  lemma PluginStays(s: ClusterState, t: ClusterState, p: ObjectKey, targeted: seq<ObjectKey>, g: ObjectKey)
    requires t.topo == s.topo && t.policies == s.policies && g in s.topo.gateways && Refs(t, g) == Refs(s, g)
    requires (p in Refs(s, g) <==> g in targeted) && ArtefactsAt(s, p, targeted, g, t)
    ensures p in Refs(s, g) || PluginInPlace(s, g) ==> PluginInPlace(t, g)
  {
    if p in Refs(s, g) {
      assert JobAt(s, p, targeted, g) == GatewayJob(t, g);
      MatchesTransfer(t, s, GatewayJob(t, g), t);
    }
  }

  lemma {:induction false} RoundPlacesPlugin(s: ClusterState, evs: seq<Event>, g: ObjectKey)
    requires Start(s) && AllSettled(s) && AllComplete(s, evs) && g in s.topo.gateways
    ensures var t := RunEvents(s, evs);
      && t.topo == s.topo && Refs(t, g) == Refs(s, g)
      && (PluginInPlace(s, g) ==> PluginInPlace(t, g))
      && (forall q :: Mentions(evs, q) && q in Refs(s, g) ==> PluginInPlace(t, g))
    decreases |evs|
  {
    if evs != [] {
      var s1 := After(s, evs[0].policy, evs[0].order);
      EventPlacesPlugin(s, evs[0].policy, evs[0].order, g);
      RoundPlacesPlugin(s1, evs[1..], g);
    }
  }

  /** Two rounds of completed reconciles also settle filters and plugins. */
  lemma TwoRoundsSettleArtefacts(s: ClusterState, first: seq<Event>, second: seq<Event>)
    requires Start(s) && ArtefactsStart(s)
    requires AllComplete(s, first) && Round(first, s)
    requires AllComplete(RunEvents(s, first), second) && Round(second, s)
    ensures ArtefactsConverged(RunEvents(RunEvents(s, first), second))
  {
    var m := RunEvents(s, first);
    var t := RunEvents(m, second);
    TwoRoundsConverge(s, first, second);
    FirstRoundSettles(s, first);
    RoundKeepsArtefacts(s, first);
    RoundKeepsArtefacts(m, second);
    forall g | g in t.topo.gateways
      ensures (g in t.filters <==> Refs(t, g) != []) && PluginInPlace(t, g)
    {
      RoundPlacesPlugin(m, second, g);
      SettledAt(s, m, t, second, g);
    }
  }

  lemma SettledAt(s: ClusterState, m: ClusterState, t: ClusterState, second: seq<Event>, g: ObjectKey)
    requires Converged(t) && ArtefactsExpected(t, g) && g in t.topo.gateways && Round(second, m)
    requires Refs(t, g) == Refs(m, g) && t.policies == m.policies
    requires forall q :: Mentions(second, q) && q in Refs(m, g) ==> PluginInPlace(t, g)
    ensures (g in t.filters <==> Refs(t, g) != []) && PluginInPlace(t, g)
  {
    if Refs(t, g) == [] {
      assert Idle(t, g);
    } else {
      var p := Refs(t, g)[0];
      assert p in Refs(t, g) && Targets(t, p, g);
      assert Mentions(second, p);
    }
  }
}

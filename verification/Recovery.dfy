/** Filters and plugins under attempts that may fail on their own, and recovery: from
    every cluster that interrupted runs leave behind, two rounds of attempts settle
    references, limits, filters and plugins. */
module Recovery {
  import opened Cluster
  import opened Common
  import opened Completion
  import opened ConvergedArtefacts
  import opened Convergence
  import opened Effects
  import opened InterruptedRuns
  import opened LockProtocol
  import opened Plans
  import opened Progress

  // ----- filters and plugins -----

  /** Gateways that list nobody and that nobody eligible targets have neither filter nor
      plugin, and gateways that list somebody have a filter. */
  ghost predicate ArtefactsSoundAt(s: ClusterState, g: ObjectKey) {
    && (Refs(s, g) == [] && !Wanted(s, g) ==> g !in s.filters && g !in s.plugins)
    && (Refs(s, g) != [] ==> g in s.filters)
  }

  ghost predicate ArtefactsSound(s: ClusterState) {
    forall g :: g in s.topo.gateways ==> ArtefactsSoundAt(s, g)
  }

  lemma ThroughArtefactsAt(s: ClusterState, p: ObjectKey, o: Order, g: ObjectKey)
    requires GetsThrough(s, p, o) && g in s.topo.gateways
    ensures TargetedBy(s, p).Ok? && (g in TargetedBy(s, p).value <==> Targets(s, p, g))
    ensures ArtefactsAt(s, p, TargetedBy(s, p).value, g, After(s, p, o))
  {
    ThroughEffect(s, p, o);
  }

  lemma ThroughKeepsArtefacts(s: ClusterState, p: ObjectKey, o: Order, g: ObjectKey)
    requires GetsThrough(s, p, o) && g in s.topo.gateways && ArtefactsSoundAt(s, g)
    ensures ArtefactsSoundAt(After(s, p, o), g)
  {
    var t := After(s, p, o);
    ThroughAt(s, p, o, g);
    ThroughArtefactsAt(s, p, o, g);
    SameEligible(s, t);
    if Targets(s, p, g) {
      assert Eligible(s, p) && Wanted(s, g);
    }
  }

  lemma AttemptKeepsArtefacts(s: ClusterState, p: ObjectKey, o: Order)
    requires Sound(s) && ArtefactsSound(s) && MayAttempt(s, p, o)
    ensures ArtefactsSound(After(s, p, o))
  {
    var t := After(s, p, o);
    AttemptKeeps(s, p, o);
    SameEligible(s, t);
    forall g | g in t.topo.gateways
      ensures ArtefactsSoundAt(t, g)
    {
      assert ArtefactsSoundAt(s, g);
      if Admitted(s, p) {
        ThroughKeepsArtefacts(s, p, o, g);
      } else {
        RefusedWrites(s, p, o);
      }
    }
  }

  lemma {:induction false} AttemptsKeepArtefacts(s: ClusterState, evs: seq<Event>)
    requires Sound(s) && ArtefactsSound(s) && Attempts(s, evs)
    ensures ArtefactsSound(Attempted(s, evs))
    decreases |evs|
  {
    if evs != [] {
      var p, o := evs[0].policy, evs[0].order;
      AttemptKeeps(s, p, o);
      AttemptKeepsArtefacts(s, p, o);
      AttemptsKeepArtefacts(After(s, p, o), evs[1..]);
    }
  }

  /** Once everybody has tried, attempts put the plugins of the gateways they reach in
      place and leave every other plugin alone. */
  lemma AttemptPlacesPlugin(s: ClusterState, p: ObjectKey, o: Order, g: ObjectKey)
    requires Sound(s) && Tried(s, p) && MayAttempt(s, p, o) && g in s.topo.gateways
    ensures var t := After(s, p, o);
      t.topo == s.topo && (p in Refs(s, g) || PluginInPlace(s, g) ==> PluginInPlace(t, g))
  {
    var t := After(s, p, o);
    AttemptKeeps(s, p, o);
    AttemptMerges(s, p, o, g);
    if Admitted(s, p) {
      ThroughAt(s, p, o, g);
      ThroughArtefactsAt(s, p, o, g);
      assert Owns(s, p);
      PluginStays(s, t, p, TargetedBy(s, p).value, g);
    } else {
      RefusedWrites(s, p, o);
      RefusedIsUnlisted(s, p, g);
      SamePlugin(s, t, g);
    }
  }

  lemma RefusedIsUnlisted(s: ClusterState, p: ObjectKey, g: ObjectKey)
    requires Sound(s) && p in s.policies && !Admitted(s, p) && g in s.topo.gateways
    ensures p !in Refs(s, g)
  {
    assert ListedRightly(s, g, Refs(s, g));
    if p in Refs(s, g) {
      OwnersAreEligible(s, p);
    }
  }

  lemma SamePlugin(s: ClusterState, t: ClusterState, g: ObjectKey)
    requires t == s.(finalizers := t.finalizers) && g in s.topo.gateways
    ensures PluginInPlace(s, g) ==> PluginInPlace(t, g)
  {
    assert GatewayJob(s, g) == GatewayJob(t, g);
  }

  lemma PlacingAttempt(s: ClusterState, p: ObjectKey, o: Order, g: ObjectKey)
    requires Sound(s) && AllTried(s) && MayAttempt(s, p, o) && g in s.topo.gateways
    ensures var t := After(s, p, o);
      && Sound(t) && AllTried(t) && t.topo == s.topo && Refs(t, g) == Refs(s, g)
      && (p in Refs(s, g) || PluginInPlace(s, g) ==> PluginInPlace(t, g))
  {
    AttemptKeepsAll(s, p, o);
    AttemptMerges(s, p, o, g);
    AttemptPlacesPlugin(s, p, o, g);
  }

  lemma {:induction false} AttemptsPlacePlugin(s: ClusterState, evs: seq<Event>, g: ObjectKey)
    requires Sound(s) && AllTried(s) && Attempts(s, evs) && g in s.topo.gateways
    ensures var t := Attempted(s, evs);
      && t.topo == s.topo && (PluginInPlace(s, g) ==> PluginInPlace(t, g))
      && (forall q :: Mentions(evs, q) && q in Refs(s, g) ==> PluginInPlace(t, g))
    decreases |evs|
  {
    if evs != [] {
      PlacingAttempt(s, evs[0].policy, evs[0].order, g);
      AttemptsPlacePlugin(After(s, evs[0].policy, evs[0].order), evs[1..], g);
    }
  }

  lemma SecondRoundPlaces(m: ClusterState, second: seq<Event>, g: ObjectKey)
    requires Sound(m) && AllTried(m) && Attempts(m, second) && Round(second, m) && g in m.topo.gateways
    requires Refs(m, g) != []
    ensures g in Attempted(m, second).topo.gateways && PluginInPlace(Attempted(m, second), g)
  {
    AttemptsPlacePlugin(m, second, g);
    var p := Refs(m, g)[0];
    assert ListedRightly(m, g, Refs(m, g)) && p in Refs(m, g);
    assert Mentions(second, p);
  }

  /** Two rounds of attempts also settle filters and plugins: they exist exactly where
      policies are listed, and each plugin has the policies its gateway's references
      ask for. */
  lemma AttemptsSettleArtefacts(s: ClusterState, first: seq<Event>, second: seq<Event>)
    requires Sound(s) && ArtefactsSound(s) && Attempts(s, first) && Round(first, s)
    requires Attempts(Attempted(s, first), second) && Round(second, s)
    ensures ArtefactsConverged(Attempted(Attempted(s, first), second))
  {
    var m := Attempted(s, first);
    var t := Attempted(m, second);
    AllHaveTried(s, first);
    AllHaveTried(m, second);
    AttemptsKeepArtefacts(s, first);
    AttemptsKeepArtefacts(m, second);
    forall g | g in t.topo.gateways
      ensures (g in t.filters <==> Refs(t, g) != []) && PluginInPlace(t, g)
    {
      assert ArtefactsSoundAt(t, g);
      RoundOfAttemptsMerges(m, second, g);
      if Refs(t, g) == [] {
        NobodyWants(t, g);
      } else {
        SecondRoundPlaces(m, second, g);
      }
    }
  }

  // ----- recovery -----

  /** Whoever holds a target is eligible, and no gateway is left to policies that are not. */
  ghost predicate LeftToEligible(s: ClusterState) {
    && (forall u :: u in s.backRefs ==> Eligible(s, s.backRefs[u]))
    && forall g :: g in s.topo.gateways && Owned(s, g) ==> Wanted(s, g)
  }

  /** As is the case when every policy is eligible. */
  lemma AllAreEligible(s: ClusterState)
    requires LockInv(s) && forall p :: p in s.policies ==> Eligible(s, p)
    ensures LeftToEligible(s)
  {
    forall u | u in s.backRefs
      ensures Eligible(s, s.backRefs[u])
    {
      assert Recorded(s, u, s.backRefs[u]);
    }
    forall g | Owned(s, g)
      ensures Wanted(s, g)
    {
      var p :| p in s.finalizers && Targets(s, p, g);
      assert Eligible(s, p);
    }
  }

  /** Any cluster no controller has touched is a start for attempts, whatever its policies. */
  lemma PristineIsSound(s: ClusterState)
    requires Pristine(s) && NamesOk(s.topo) && LimitadorReady(s)
    ensures Sound(s) && ArtefactsSound(s)
  {
    UntouchedIsSafe(s);
  }

  /** Whatever interrupted runs leave behind is a start for attempts. */
  lemma AccountableIsSound(t: ClusterState)
    requires Accountable(t) && NamesOk(t.topo) && LimitadorReady(t) && t.deleting == {} && LeftToEligible(t)
    ensures Sound(t) && ArtefactsSound(t)
  {
  }

  lemma {:induction false} WritesKeepReadiness(s: ClusterState, ws: seq<Write>)
    requires LimitadorReady(s)
    ensures LimitadorReady(ApplyAll(s, ws))
    decreases |ws|
  {
    if ws != [] {
      WritesKeepReadiness(Apply(s, ws[0]), ws[1..]);
    }
  }

  lemma {:induction false} RunsKeepReadiness(s: ClusterState, steps: seq<Step>)
    requires LimitadorReady(s) && ValidRun(s, steps)
    ensures LimitadorReady(EndOf(s, steps))
    decreases |steps|
  {
    if steps != [] {
      if steps[0].Run? {
        WritesKeepReadiness(s, ReconcilePlan(s, steps[0].key, steps[0].order).writes[..steps[0].done]);
      }
      RunsKeepReadiness(Next(s, steps[0]), steps[1..]);
    }
  }

  /** However reconciles and finalizes were interrupted since the cluster was pristine:
      once no policy is being deleted, holders are eligible and no gateway is left to
      policies that are not, two rounds of attempts, each in any order, settle references,
      limits, filters and plugins for the policies that hold their targets. No attempt is
      assumed to complete. */
  lemma InterruptedRunsRecover(s: ClusterState, steps: seq<Step>, first: seq<Event>, second: seq<Event>)
    requires Pristine(s) && NamesOk(s.topo) && LimitadorReady(s) && ValidRun(s, steps) && FaithfulRun(s, steps)
    requires var t := EndOf(s, steps);
      && t.deleting == {} && LeftToEligible(t)
      && Attempts(t, first) && Round(first, t)
      && Attempts(Attempted(t, first), second) && Round(second, t)
    ensures var u := Attempted(Attempted(EndOf(s, steps), first), second);
      HoldersConverged(u) && TargetsAreHeld(u) && ArtefactsConverged(u)
  {
    UntouchedIsSafe(s);
    RunsAreAccountable(s, steps);
    RunsKeepReadiness(s, steps);
    var t := EndOf(s, steps);
    AccountableIsSound(t);
    AttemptsConverge(t, first, second);
    AttemptsSettleArtefacts(t, first, second);
  }
}

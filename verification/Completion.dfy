/** When a reconcile of a live policy, or a finalize, runs to its end. */
module Completion {
  import opened Cluster
  import opened Common
  import opened Effects
  import opened FinalizeEffects
  import opened GatewayRefs
  import opened LimitIndexes
  import opened Merging
  import opened Plans
  import opened TargetRefs

  predicate Merges(s: ClusterState, refs: seq<ObjectKey>) {
    MergeError(s.policies, s.topo.routes, refs).None?
  }

  predicate LimitadorReady(s: ClusterState) {
    s.limitador.Some? && s.limitador.value.ready
  }

  // ----- stage by stage -----

  lemma {:induction false} FiltersComplete(s: ClusterState, jobs: seq<Job>)
    ensures FilterPlan(s, jobs).err.None? <==> forall j :: j in jobs && j.refs != [] ==> LimitadorReady(s)
    decreases |jobs|
  {
    if jobs != [] {
      var step := FilterStep(s, jobs[0]);
      assert jobs[0] in jobs && forall j :: j in jobs <==> j == jobs[0] || j in jobs[1..];
      if step.err.None? {
        FilterStepApplied(s, jobs[0]);
        FiltersComplete(ApplyAll(s, step.writes), jobs[1..]);
      }
    }
  }

  lemma EmptyListMerges(s: ClusterState)
    ensures Merges(s, [])
  {
  }

  lemma {:induction false} PluginPlanCompletes(s: ClusterState, jobs: seq<PluginJob>)
    ensures WasmPlan(s, jobs).err.None? <==> forall pj :: pj in jobs ==> Merges(s, pj.job.refs)
    decreases |jobs|
  {
    EmptyListMerges(s);
    if jobs != [] {
      var step := WasmStep(s, jobs[0]);
      assert jobs[0] in jobs && forall j :: j in jobs <==> j == jobs[0] || j in jobs[1..];
      if step.err.None? {
        WasmStepApplied(s, jobs[0]);
        PluginPlanCompletes(ApplyAll(s, step.writes), jobs[1..]);
      }
    }
  }

  lemma PluginsComplete(s: ClusterState, jobs: seq<Job>, domains: seq<seq<string>>)
    ensures WasmPlan(s, PluginJobs(jobs, domains)).err.None? <==> forall j :: j in jobs ==> Merges(s, j.refs)
  {
    PluginPlanCompletes(s, PluginJobs(jobs, domains));
    PluginJobsMembers(s, jobs, domains);
  }

  lemma {:induction false} MergesComplete(s: ClusterState, snaps: seq<Snapshot>, extra: seq<ObjectKey>)
    ensures MergeErrors(s, snaps, extra).None? <==> forall g :: g in snaps ==> Merges(s, RefKeys(g.annotation) + extra)
  {
    if snaps != [] {
      var init, last := snaps[..|snaps| - 1], snaps[|snaps| - 1];
      MergesComplete(s, init, extra);
      assert snaps == init + [last];
    }
  }

  // ----- a whole reconcile -----

  /** A gateway the policy targets or is listed on. */
  ghost predicate Touched(s: ClusterState, p: ObjectKey, g: ObjectKey)
    requires p in s.policies && TargetedBy(s, p).Ok?
  {
    g in s.topo.gateways && (g in TargetedBy(s, p).value || p in Refs(s, g))
  }

  /** What a reconcile depends on, as far as the gateways go: the policies that will be
      listed on each touched gateway can be merged, and Limitador is there, and ready
      if a gateway changes hands while policies remain on it. */
  ghost predicate GatewaysWillDo(s: ClusterState, p: ObjectKey)
    requires p in s.policies && TargetedBy(s, p).Ok?
  {
    var targeted := TargetedBy(s, p).value;
    && s.limitador.Some?
    && (forall g :: Touched(s, p, g) ==> Merges(s, JobAt(s, p, targeted, g).refs))
    && (forall g :: Touched(s, p, g) && (g in targeted <==> p !in Refs(s, g)) && JobAt(s, p, targeted, g).refs != []
          ==> LimitadorReady(s))
  }

  lemma StagesComplete(s: ClusterState, d: Diff, p: ObjectKey, o: Order)
    ensures StagesPlan(s, d, p, o).err.None? <==>
      && s.limitador.Some? && LimitsError(s, d, p).None?
      && (forall j :: j in FilterJobs(d, p) && j.refs != [] ==> LimitadorReady(s))
      && (forall j :: j in WasmJobs(d, p) ==> Merges(s, j.refs))
  {
    var l := LimitsPlan(s, d, p, o.entries);
    if l.err.None? {
      LimitsFrame(s, d, p, o.entries);
      var s1 := ApplyAll(s, l.writes);
      LimitsKeepReadiness(s, d, p, o.entries);
      ArtefactsComplete(s1, d, p, o.domains);
    }
  }

  lemma LimitsKeepReadiness(s: ClusterState, d: Diff, p: ObjectKey, entries: seq<Entry>)
    requires LimitsPlan(s, d, p, entries).err.None?
    ensures LimitadorReady(ApplyAll(s, LimitsPlan(s, d, p, entries).writes)) <==> LimitadorReady(s)
  {
    if LimitsPlan(s, d, p, entries).writes != [] {
      WriteKeepsReadiness(s, PrintAll(entries));
    }
  }

  lemma WriteKeepsReadiness(s: ClusterState, limits: seq<RateLimit>)
    ensures LimitadorReady(ApplyAll(s, [SetLimits(limits)])) <==> LimitadorReady(s)
  {
    ApplyOne(s, SetLimits(limits));
  }

  lemma ArtefactsComplete(s: ClusterState, d: Diff, p: ObjectKey, domains: seq<seq<string>>)
    ensures ArtefactPlan(s, d, p, domains).err.None? <==>
      && (forall j :: j in FilterJobs(d, p) && j.refs != [] ==> LimitadorReady(s))
      && (forall j :: j in WasmJobs(d, p) ==> Merges(s, j.refs))
  {
    var f := FilterPlan(s, FilterJobs(d, p));
    var s1 := ApplyAll(s, f.writes);
    FiltersComplete(s, FilterJobs(d, p));
    FilterPlanWrites(s, FilterJobs(d, p));
    FilterFrame(s, f.writes);
    PluginsComplete(s1, WasmJobs(d, p), domains);
  }

  /** The limits stage merges what the plugin stage merges again. */
  lemma LimitsMergeJobs(s: ClusterState, p: ObjectKey, targeted: seq<ObjectKey>, listing: seq<ObjectKey>)
    requires Lists(listing, s.topo)
    requires forall j :: j in WasmJobs(DiffOf(s, p, targeted, listing), p) ==> Merges(s, j.refs)
    ensures LimitsError(s, DiffOf(s, p, targeted, listing), p).None?
  {
    var d := DiffOf(s, p, targeted, listing);
    forall g | g in d.same
      ensures Merges(s, RefKeys(g.annotation) + [])
    {
      var i :| 0 <= i < |d.same| && d.same[i] == g;
      assert SameJobs(d.same)[i] in WasmJobs(d, p);
      assert RefKeys(g.annotation) + [] == RefKeys(g.annotation);
    }
    MergesComplete(s, d.same, []);
    SelectMembers(SnapshotsOf(s, listing), NewFilter(p, targeted));
    forall g | g in d.added
      ensures Merges(s, RefKeys(g.annotation) + [p])
    {
      var i :| 0 <= i < |d.added| && d.added[i] == g;
      assert NewJobs(d.added, p)[i] in WasmJobs(d, p);
    }
    MergesComplete(s, d.added, [p]);
  }

  lemma JobsAreTouched(s: ClusterState, p: ObjectKey, listing: seq<ObjectKey>)
    requires p in s.policies && TargetedBy(s, p).Ok? && Lists(listing, s.topo)
    ensures var targeted := TargetedBy(s, p).value;
            var d := DiffOf(s, p, targeted, listing);
      && (forall j :: j in WasmJobs(d, p) <==> Touched(s, p, j.gateway) && j == JobAt(s, p, targeted, j.gateway))
      && (forall j :: j in FilterJobs(d, p) <==>
            Touched(s, p, j.gateway) && j == JobAt(s, p, targeted, j.gateway)
            && (j.gateway in targeted <==> p !in Refs(s, j.gateway)))
  {
    var targeted := TargetedBy(s, p).value;
    JobsAreJobAt(s, p, targeted, listing);
    forall g | g in s.topo.gateways
      ensures var d := DiffOf(s, p, targeted, listing);
        && (JobAt(s, p, targeted, g) in WasmJobs(d, p) <==> Touched(s, p, g))
        && (JobAt(s, p, targeted, g) in FilterJobs(d, p) <==> (g in targeted <==> p !in Refs(s, g)))
    {
      JobsCover(s, p, targeted, listing, g);
    }
  }

  lemma TouchedMerge(s: ClusterState, p: ObjectKey, listing: seq<ObjectKey>)
    requires p in s.policies && TargetedBy(s, p).Ok? && Lists(listing, s.topo)
    ensures var targeted := TargetedBy(s, p).value;
      (forall j :: j in WasmJobs(DiffOf(s, p, targeted, listing), p) ==> Merges(s, j.refs)) <==>
      (forall g :: Touched(s, p, g) ==> Merges(s, JobAt(s, p, targeted, g).refs))
  {
    var targeted := TargetedBy(s, p).value;
    JobsAreTouched(s, p, listing);
    forall g | Touched(s, p, g)
      ensures JobAt(s, p, targeted, g) in WasmJobs(DiffOf(s, p, targeted, listing), p)
    {
    }
  }

  lemma TouchedReady(s: ClusterState, p: ObjectKey, listing: seq<ObjectKey>)
    requires p in s.policies && TargetedBy(s, p).Ok? && Lists(listing, s.topo)
    ensures var targeted := TargetedBy(s, p).value;
      (forall j :: j in FilterJobs(DiffOf(s, p, targeted, listing), p) && j.refs != [] ==> LimitadorReady(s)) <==>
      (forall g :: Touched(s, p, g) && (g in targeted <==> p !in Refs(s, g)) && JobAt(s, p, targeted, g).refs != []
         ==> LimitadorReady(s))
  {
    var targeted := TargetedBy(s, p).value;
    JobsAreTouched(s, p, listing);
    forall g | Touched(s, p, g) && (g in targeted <==> p !in Refs(s, g))
      ensures JobAt(s, p, targeted, g) in FilterJobs(DiffOf(s, p, targeted, listing), p)
    {
    }
  }

  lemma StagesCompleteIff(s: ClusterState, p: ObjectKey, o: Order)
    requires p in s.policies && TargetedBy(s, p).Ok? && Lists(o.listing, s.topo)
    ensures StagesPlan(s, DiffOf(s, p, TargetedBy(s, p).value, o.listing), p, o).err.None? <==> GatewaysWillDo(s, p)
  {
    var targeted := TargetedBy(s, p).value;
    var d := DiffOf(s, p, targeted, o.listing);
    StagesComplete(s, d, p, o);
    TouchedMerge(s, p, o.listing);
    TouchedReady(s, p, o.listing);
    if forall j :: j in WasmJobs(d, p) ==> Merges(s, j.refs) {
      LimitsMergeJobs(s, p, targeted, o.listing);
    }
  }

  /** The policy is valid, its hosts are served, its target can be fetched and is free
      or already its own. */
  ghost predicate Admitted(s: ClusterState, p: ObjectKey)
    requires p in s.policies
  {
    && Validate(s.policies[p], p.namespace) && HostsError(s, p).None? && TargetOf(s, p).Ok?
    && (TargetOf(s, p).value in s.backRefs ==> s.backRefs[TargetOf(s, p).value] == p)
  }

  lemma SpecCompletesIff(s: ClusterState, p: ObjectKey, o: Order)
    requires p in s.policies && Lists(o.listing, s.topo)
    ensures SpecPlan(s, p, o).err.None? <==> Admitted(s, p) && TargetedBy(s, p).Ok? && GatewaysWillDo(s, p)
  {
    if Admitted(s, p) && TargetedBy(s, p).Ok? {
      AcquireApplied(s, p);
      var s1 := s.(backRefs := s.backRefs[TargetOf(s, p).value := p]);
      DiffReads(s, s1, p, TargetedBy(s, p).value, o.listing);
      StagesCompleteIff(s1, p, o);
      GatewaysStillDo(s, s1, p);
    }
  }

  lemma GatewaysStillDo(s: ClusterState, t: ClusterState, p: ObjectKey)
    requires p in s.policies && t == s.(finalizers := t.finalizers, backRefs := t.backRefs) && TargetedBy(s, p).Ok?
    ensures GatewaysWillDo(s, p) <==> GatewaysWillDo(t, p)
  {
    forall g
      ensures Touched(s, p, g) == Touched(t, p, g)
      ensures Touched(s, p, g) ==> JobAt(s, p, TargetedBy(s, p).value, g) == JobAt(t, p, TargetedBy(t, p).value, g)
    {
    }
  }

  /** A reconcile of a live policy ends without error, in any listing and printing
      order, if and only if the policy is admitted and its gateways will do. */
  lemma ReconcileCompletesIff(s: ClusterState, p: ObjectKey, o: Order)
    requires Live(s, p) && Lists(o.listing, s.topo)
    ensures ReconcilePlan(s, p, o).err.None? <==> Admitted(s, p) && TargetedBy(s, p).Ok? && GatewaysWillDo(s, p)
  {
    var s1 := s.(finalizers := s.finalizers + {p});
    LivePlan(s, p, o);
    SpecCompletesIff(s1, p, o);
    assert Admitted(s1, p) == Admitted(s, p) && TargetedBy(s1, p) == TargetedBy(s, p);
    if TargetedBy(s, p).Ok? {
      GatewaysStillDo(s, s1, p);
    }
  }

  // ----- a whole finalize -----

  /** What a finalize depends on, as far as the gateways go: the policies that remain
      can be merged, and Limitador is ready if any remain. */
  ghost predicate GatewaysLetGo(s: ClusterState, p: ObjectKey)
    requires p in s.policies
  {
    forall g :: Withdrawn(s, p, g) ==>
      Merges(s, Remaining(s, p, g)) && (Remaining(s, p, g) != [] ==> LimitadorReady(s))
  }

  /** The policy's gateways and its target can be fetched, or its route is gone. */
  predicate Releasable(s: ClusterState, p: ObjectKey)
    requires p in s.policies
  {
    && (TargetedBy(s, p).Err? ==> TargetedBy(s, p).error == NotFound)
    && (TargetOf(s, p).Err? ==> TargetOf(s, p).error == NotFound)
  }

  lemma WithdrawalCompletesIff(s: ClusterState, s1: ClusterState, p: ObjectKey, o: Order)
    requires p in s.policies && s1 == s.(refs := s1.refs)
    ensures WithdrawPlan(s1, Forget(FinalizeDiff(s, p).left, p), p, o).err.None? <==> GatewaysLetGo(s, p)
  {
    var left := Forget(FinalizeDiff(s, p).left, p);
    var jobs := FinalJobs(s, p);
    ForgottenJob(s, p, LeftKeys(s, p));
    var w := WasmPlan(s1, PluginJobs(jobs, o.domains));
    var s2 := ApplyAll(s1, w.writes);
    PluginsComplete(s1, jobs, o.domains);
    WasmPlanWrites(s1, PluginJobs(jobs, o.domains));
    PluginFrame(s1, w.writes);
    FiltersComplete(s2, jobs);
    assert WithdrawArtefactsPlan(s1, left, p, o.domains) == Then(w, FilterPlan(s2, jobs));
    TolerantLimitsComplete(ApplyAll(s1, WithdrawArtefactsPlan(s1, left, p, o.domains).writes), left, p, o.entries);
    JobsLetGo(s, s1, p);
  }

  lemma JobsLetGo(s: ClusterState, s1: ClusterState, p: ObjectKey)
    requires p in s.policies && s1 == s.(refs := s1.refs)
    ensures GatewaysLetGo(s, p) <==>
      forall j :: j in FinalJobs(s, p) ==> Merges(s1, j.refs) && (j.refs != [] ==> LimitadorReady(s1))
  {
    var jobs := FinalJobs(s, p);
    ForgottenJob(s, p, LeftKeys(s, p));
    forall g | Withdrawn(s, p, g)
      ensures RemainingJob(s, p, g) in jobs
    {
      var j :| j in jobs && j.gateway == g;
    }
    if GatewaysLetGo(s, p) {
      forall j | j in FinalJobs(s, p)
        ensures Merges(s1, j.refs) && (j.refs != [] ==> LimitadorReady(s1))
      {
        assert Withdrawn(s, p, j.gateway);
      }
    }
  }

  lemma TolerantLimitsComplete(s: ClusterState, left: seq<Snapshot>, p: ObjectKey, entries: seq<Entry>)
    ensures TolerantLimitsPlan(s, left, p, entries).err.None?
  {
  }

  /** A finalize ends without error, in any printing order, if and only if its target
      is releasable and its gateways let go. */
  lemma FinalizeCompletesIff(s: ClusterState, p: ObjectKey, o: Order)
    requires Leaving(s, p) && Lists(o.listing, s.topo)
    ensures ReconcilePlan(s, p, o).err.None? <==> Releasable(s, p) && GatewaysLetGo(s, p)
  {
    RemovedRefs(s, p, p);
    WithdrawalCompletesIff(s, ApplyAll(s, RefsPlan(FinalizeDiff(s, p), p).writes), p, o);
    RemovalCompletes(s, p, o);
    RemovalDecides(s, p, o);
  }

  lemma RemovalDecides(s: ClusterState, p: ObjectKey, o: Order)
    requires Leaving(s, p) && Lists(o.listing, s.topo)
    ensures ReconcilePlan(s, p, o).err.None? <==>
            Releasable(s, p) && RemovePlan(s, FinalizeDiff(s, p).left, p, o).err.None?
  {
    ReleaseCompletesIff(s, p);
    var m, release := RemovePlan(s, FinalizeDiff(s, p).left, p, o), ReleasePlan(s, p);
    assert Then(m, release).err.None? <==> m.err.None? && release.err.None?;
  }

  lemma ReleaseCompletesIff(s: ClusterState, p: ObjectKey)
    requires p in s.policies
    ensures ReleasePlan(s, p).err.None? <==> TargetOf(s, p).Err? ==> TargetOf(s, p).error == NotFound
  {
  }

  lemma RemovalCompletes(s: ClusterState, p: ObjectKey, o: Order)
    requires p in s.policies
    ensures var left := FinalizeDiff(s, p).left;
            RemovePlan(s, left, p, o).err ==
            WithdrawPlan(ApplyAll(s, RefsPlan(FinalizeDiff(s, p), p).writes), Forget(left, p), p, o).err
  {
  }
}

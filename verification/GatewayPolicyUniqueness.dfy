/** What the lock is for: no gateway ever lists two gateway-level policies, so the
    merge never fails for that reason. */
module GatewayPolicyUniqueness {
  import opened Cluster
  import opened Common
  import opened Effects
  import opened FinalizeEffects
  import opened GatewayRefs
  import opened LimitIndexes
  import opened LockProtocol
  import opened Merging
  import opened MergeLaws
  import opened Plans
  import opened Sums
  import opened TargetRefs

  lemma GatewayPolicyHoldsItsGateway(s: ClusterState, g: ObjectKey, k: ObjectKey)
    requires Owns(s, k) && IsGatewayPolicy(s.policies, k) && TargetedBy(s, k).Ok? && g in TargetedBy(s, k).value
    ensures GatewayTarget(g) in s.backRefs && s.backRefs[GatewayTarget(g)] == k
  {
  }

  /** At most one of the policies rightly listed on a gateway is gateway-level. */
  lemma OneGatewayPolicy(s: ClusterState, g: ObjectKey, keys: seq<ObjectKey>, a: ObjectKey, b: ObjectKey)
    requires ListedRightly(s, g, keys) && a in keys && b in keys
    requires IsGatewayPolicy(s.policies, a) && IsGatewayPolicy(s.policies, b)
    ensures a == b
  {
    GatewayPolicyHoldsItsGateway(s, g, a);
    GatewayPolicyHoldsItsGateway(s, g, b);
  }

  lemma {:induction false} SumAtMostOne(f: ObjectKey -> nat, keys: seq<ObjectKey>)
    requires forall k :: f(k) <= 1
    requires NoDuplicates(keys) && forall a, b :: a in keys && b in keys && f(a) > 0 && f(b) > 0 ==> a == b
    ensures Sum(f, keys) <= 1
  {
    if keys != [] {
      var init, last := keys[..|keys| - 1], keys[|keys| - 1];
      assert keys == init + [last];
      SumAtMostOne(f, init);
      if f(last) > 0 && Sum(f, init) > 0 {
        SumPositive(f, init);
      }
    }
  }

  lemma RightListLoads(s: ClusterState, g: ObjectKey, keys: seq<ObjectKey>)
    requires ListedRightly(s, g, keys)
    ensures Load(s.policies, keys).Ok?
  {
    var f := GatewayKind(s.policies);
    forall a, b | a in keys && b in keys && f(a) > 0 && f(b) > 0
      ensures a == b
    {
      OneGatewayPolicy(s, g, keys, a, b);
    }
    SumAtMostOne(f, keys);
    LoadSucceeds(s.policies, keys);
  }

  predicate OtherError(err: Option<Error>) {
    err != Some(MultipleGatewayPolicies)
  }

  lemma {:induction false} RoutesErrorIsOther(policies: Policies, routes: Routes, ks: seq<ObjectKey>)
    requires forall i :: 0 <= i < |ks| ==> ks[i] in policies
    ensures OtherError(RoutesError(policies, routes, ks))
  {
    if ks != [] {
      RoutesErrorIsOther(policies, routes, ks[..|ks| - 1]);
    }
  }

  lemma RightListMerges(s: ClusterState, g: ObjectKey, keys: seq<ObjectKey>)
    requires ListedRightly(s, g, keys)
    ensures OtherError(MergeError(s.policies, s.topo.routes, keys))
  {
    RightListLoads(s, g, keys);
    RoutesErrorIsOther(s.policies, s.topo.routes, Load(s.policies, keys).value.routes);
  }

  lemma {:induction false} MergeErrorsAreOther(s: ClusterState, snaps: seq<Snapshot>, extra: seq<ObjectKey>)
    requires forall g :: g in snaps ==> ListedRightly(s, g.key, RefKeys(g.annotation) + extra)
    ensures OtherError(MergeErrors(s, snaps, extra))
  {
    if snaps != [] {
      var last := snaps[|snaps| - 1];
      MergeErrorsAreOther(s, snaps[..|snaps| - 1], extra);
      assert last in snaps;
      RightListMerges(s, last.key, RefKeys(last.annotation) + extra);
    }
  }

  lemma {:induction false} FilterErrorIsOther(s: ClusterState, jobs: seq<Job>)
    ensures OtherError(FilterPlan(s, jobs).err)
    decreases |jobs|
  {
    if jobs != [] {
      FilterErrorIsOther(ApplyAll(s, FilterStep(s, jobs[0]).writes), jobs[1..]);
    }
  }

  lemma {:induction false} WasmErrorIsOther(s: ClusterState, jobs: seq<PluginJob>)
    requires forall pj :: pj in jobs ==> OtherError(MergeError(s.policies, s.topo.routes, pj.job.refs))
    ensures OtherError(WasmPlan(s, jobs).err)
    decreases |jobs|
  {
    if jobs != [] {
      var step := WasmStep(s, jobs[0]);
      assert jobs[0] in jobs && forall j :: j in jobs[1..] ==> j in jobs;
      if step.err.None? {
        WasmStepApplied(s, jobs[0]);
        WasmErrorIsOther(ApplyAll(s, step.writes), jobs[1..]);
      }
    }
  }

  lemma ExtendedRightly(s: ClusterState, g: ObjectKey, keys: seq<ObjectKey>, p: ObjectKey)
    requires ListedRightly(s, g, keys) && p !in keys && Owns(s, p) && Targets(s, p, g)
    ensures ListedRightly(s, g, keys + [p])
  {
  }

  lemma JobListsRightly(s: ClusterState, p: ObjectKey, targeted: seq<ObjectKey>, g: ObjectKey)
    requires LockInv(s) && Owns(s, p) && TargetedBy(s, p) == Ok(targeted) && g in s.topo.gateways
    ensures ListedRightly(s, g, JobAt(s, p, targeted, g).refs)
  {
    assert ListedRightly(s, g, Refs(s, g));
    if g in targeted {
      if p !in Refs(s, g) {
        ExtendedRightly(s, g, Refs(s, g), p);
      }
    } else {
      RemoveFromDistinct(Refs(s, g), p);
    }
  }

  lemma LimitsErrorIsOther(s: ClusterState, p: ObjectKey, targeted: seq<ObjectKey>, listing: seq<ObjectKey>)
    requires LockInv(s) && Owns(s, p) && Lists(listing, s.topo) && TargetedBy(s, p) == Ok(targeted)
    ensures OtherError(LimitsError(s, DiffOf(s, p, targeted, listing), p))
  {
    var d := DiffOf(s, p, targeted, listing);
    DiffMembers(s, p, targeted, listing);
    SelectMembers(SnapshotsOf(s, listing), NewFilter(p, targeted));
    forall g | g in d.same
      ensures ListedRightly(s, g.key, RefKeys(g.annotation) + [])
    {
      assert ListedRightly(s, g.key, Refs(s, g.key)) && RefKeys(g.annotation) + [] == Refs(s, g.key);
    }
    MergeErrorsAreOther(s, d.same, []);
    forall g | g in d.added
      ensures ListedRightly(s, g.key, RefKeys(g.annotation) + [p])
    {
      assert ListedRightly(s, g.key, Refs(s, g.key));
      ExtendedRightly(s, g.key, Refs(s, g.key), p);
    }
    MergeErrorsAreOther(s, d.added, [p]);
  }

  lemma DiffErrorIsOther(s: ClusterState, p: ObjectKey, o: Order)
    requires LockInv(s) && Owns(s, p) && Lists(o.listing, s.topo)
    ensures OtherError(DiffPlan(s, p, o).err)
  {
    if TargetedBy(s, p).Ok? {
      var targeted := TargetedBy(s, p).value;
      var d := DiffOf(s, p, targeted, o.listing);
      LimitsErrorIsOther(s, p, targeted, o.listing);
      LimitsPlanKeepsPolicies(s, d, p, o.entries);
      ArtefactErrorIsOther(s, ApplyAll(s, LimitsPlan(s, d, p, o.entries).writes), p, targeted, o);
    }
  }

  lemma ArtefactErrorIsOther(s: ClusterState, t: ClusterState, p: ObjectKey, targeted: seq<ObjectKey>,
                             o: Order)
    requires LockInv(s) && Owns(s, p) && Lists(o.listing, s.topo) && TargetedBy(s, p) == Ok(targeted)
    requires t.topo == s.topo && t.policies == s.policies
    ensures OtherError(ArtefactPlan(t, DiffOf(s, p, targeted, o.listing), p, o.domains).err)
  {
    var d := DiffOf(s, p, targeted, o.listing);
    JobsAreJobAt(s, p, targeted, o.listing);
    FilterErrorIsOther(t, FilterJobs(d, p));
    FilterPlanWrites(t, FilterJobs(d, p));
    FilterFrame(t, FilterPlan(t, FilterJobs(d, p)).writes);
    var u := ApplyAll(t, FilterPlan(t, FilterJobs(d, p)).writes);
    forall j | j in WasmJobs(d, p)
      ensures OtherError(MergeError(u.policies, u.topo.routes, j.refs))
    {
      JobListsRightly(s, p, targeted, j.gateway);
      RightListMerges(s, j.gateway, j.refs);
    }
    PluginJobsMembers(u, WasmJobs(d, p), o.domains);
    WasmErrorIsOther(u, PluginJobs(WasmJobs(d, p), o.domains));
  }

  lemma LimitsPlanKeepsPolicies(s: ClusterState, d: Diff, p: ObjectKey, entries: seq<Entry>)
    ensures var t := ApplyAll(s, LimitsPlan(s, d, p, entries).writes);
      t.topo == s.topo && t.policies == s.policies
  {
    DerivedKeepsOwnership(s, LimitsPlan(s, d, p, entries).writes);
  }

  lemma ReconcileErrorIsOther(s: ClusterState, p: ObjectKey, o: Order)
    requires LockInv(s) && Live(s, p) && Lists(o.listing, s.topo)
    ensures OtherError(ReconcilePlan(s, p, o).err)
  {
    LivePlan(s, p, o);
    AddFinalizerSafe(s, p);
    var s1 := s.(finalizers := s.finalizers + {p});
    assert s1 == Apply(s, AddFinalizer(p));
    SpecErrorIsOther(s1, p, o);
  }

  lemma SpecErrorIsOther(s: ClusterState, p: ObjectKey, o: Order)
    requires LockInv(s) && p in s.policies && p in s.finalizers && Lists(o.listing, s.topo)
    ensures OtherError(SpecPlan(s, p, o).err)
  {
    if AcquirePlan(s, p).err.None? {
      AcquireSafe(s, p);
      DiffErrorIsOther(ApplyAll(s, AcquirePlan(s, p).writes), p, o);
    }
    HostsErrorIsOther(s, p);
  }

  lemma HostsErrorIsOther(s: ClusterState, p: ObjectKey)
    requires p in s.policies
    ensures OtherError(HostsError(s, p)) && OtherError(AcquirePlan(s, p).err)
  {
  }

  lemma RemainingListsRightly(s: ClusterState, p: ObjectKey, g: ObjectKey)
    requires LockInv(s) && g in s.topo.gateways
    ensures ListedRightly(s, g, Remaining(s, p, g))
  {
    assert ListedRightly(s, g, Refs(s, g));
    RemoveFromDistinct(Refs(s, g), p);
    RemoveFromDistinct(RefKeys(DeleteRef(Ann(s, g), p)), p);
  }

  lemma RemoveErrorIsOther(s: ClusterState, p: ObjectKey, o: Order)
    requires LockInv(s) && p in s.policies
    ensures OtherError(RemovePlan(s, FinalizeDiff(s, p).left, p, o).err)
  {
    RemovedRefs(s, p, p);
    WithdrawErrorIsOther(s, ApplyAll(s, RefsPlan(FinalizeDiff(s, p), p).writes), p, o);
  }

  lemma TargetErrorsAreOther(s: ClusterState, p: ObjectKey)
    requires p in s.policies
    ensures OtherError(ReleasePlan(s, p).err)
    ensures TargetedBy(s, p).Err? ==> OtherError(Some(TargetedBy(s, p).error))
  {
  }

  lemma FinalizeErrorIsOther(s: ClusterState, p: ObjectKey, o: Order)
    requires LockInv(s) && Leaving(s, p) && Lists(o.listing, s.topo)
    ensures OtherError(ReconcilePlan(s, p, o).err)
  {
    RemoveErrorIsOther(s, p, o);
    TargetErrorsAreOther(s, p);
    var remove := RemovePlan(s, FinalizeDiff(s, p).left, p, o);
    assert FinalizePlan(s, p, o) == Then(remove, ReleasePlan(s, p)) ||
        FinalizePlan(s, p, o).err == Some(TargetedBy(s, p).error);
  }

  lemma WithdrawErrorIsOther(s: ClusterState, s1: ClusterState, p: ObjectKey, o: Order)
    requires LockInv(s) && p in s.policies && s1 == s.(refs := s1.refs)
    ensures OtherError(WithdrawPlan(s1, Forget(FinalizeDiff(s, p).left, p), p, o).err)
  {
    var jobs := LeftJobs(Forget(FinalizeDiff(s, p).left, p), p);
    ForgottenJob(s, p, LeftKeys(s, p));
    forall j | j in jobs
      ensures OtherError(MergeError(s1.policies, s1.topo.routes, j.refs))
    {
      RemainingListsRightly(s, p, j.gateway);
      RightListMerges(s, j.gateway, j.refs);
    }
    PluginJobsMembers(s1, jobs, o.domains);
    WasmErrorIsOther(s1, PluginJobs(jobs, o.domains));
    FilterErrorIsOther(ApplyAll(s1, WasmPlan(s1, PluginJobs(jobs, o.domains)).writes), jobs);
  }

  /** In every cluster a run can reach, no reconcile or finalize, in any order, ends
      with the "multiple gateway policies" error. */
  lemma MultipleGatewayErrorUnreachable(s: ClusterState, steps: seq<Step>, p: ObjectKey, o: Order)
    requires Untouched(s) && ValidRun(s, steps) && Lists(o.listing, s.topo)
    ensures OtherError(ReconcilePlan(EndOf(s, steps), p, o).err)
  {
    UntouchedIsSafe(s);
    LockSafety(s, steps);
    var t := EndOf(s, steps);
    if Live(t, p) {
      ReconcileErrorIsOther(t, p, o);
    } else if Leaving(t, p) {
      FinalizeErrorIsOther(t, p, o);
    }
  }

  /** And no gateway ever lists two gateway-level policies. */
  lemma ReachableGatewaysListOne(s: ClusterState, steps: seq<Step>, g: ObjectKey, a: ObjectKey, b: ObjectKey)
    requires Untouched(s) && ValidRun(s, steps) && g in s.topo.gateways
    requires var t := EndOf(s, steps);
      a in Refs(t, g) && b in Refs(t, g) && IsGatewayPolicy(t.policies, a) && IsGatewayPolicy(t.policies, b)
    ensures a == b
  {
    UntouchedIsSafe(s);
    LockSafety(s, steps);
    var t := EndOf(s, steps);
    assert ListedRightly(t, g, Refs(t, g));
    OneGatewayPolicy(t, g, Refs(t, g), a, b);
  }
}

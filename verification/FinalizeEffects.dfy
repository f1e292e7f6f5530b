/** What a completed finalize leaves behind, column by column. */
module FinalizeEffects {
  import opened Cluster
  import opened Common
  import opened Effects
  import opened GatewayRefs
  import opened LimitIndexes
  import opened Plans
  import opened TargetRefs

  /** A policy being deleted that still holds its finalizer. */
  ghost predicate Leaving(s: ClusterState, p: ObjectKey) {
    p in s.policies && p in s.deleting && p in s.finalizers
  }

  function LeftKeys(s: ClusterState, p: ObjectKey): seq<ObjectKey>
    requires p in s.policies
  {
    var targeted := TargetedBy(s, p);
    if targeted.Ok? then targeted.value else []
  }

  function ClearedTarget(s: ClusterState, p: ObjectKey): set<Target>
    requires p in s.policies
  {
    if TargetOf(s, p).Ok? then {TargetOf(s, p).value} else {}
  }

  ghost predicate Withdrawn(s: ClusterState, p: ObjectKey, g: ObjectKey)
    requires p in s.policies
  {
    g in s.topo.gateways && g in LeftKeys(s, p)
  }

  /** The references left on a gateway the policy withdraws from. */
  function Remaining(s: ClusterState, p: ObjectKey, g: ObjectKey): seq<ObjectKey> {
    RemoveFirst(RefKeys(DeleteRef(Ann(s, g), p)), p)
  }

  /** References, limits and artefacts after the policy was withdrawn. */
  ghost predicate WithdrawnFrom(s: ClusterState, p: ObjectKey, t: ClusterState)
    requires p in s.policies
  {
    && (forall g :: Ann(t, g) == if Withdrawn(s, p, g) then DeleteRef(Ann(s, g), p) else Ann(s, g))
    && (forall e: Entry :: Held(t)[e] == if Withdrawn(s, p, e.gateway) then 0 else Held(s)[e])
    && (forall g :: WithdrawnArtefactsAt(s, p, g, t))
  }

  ghost predicate WithdrawnArtefactsAt(s: ClusterState, p: ObjectKey, g: ObjectKey, t: ClusterState)
    requires p in s.policies
  {
    && (if Withdrawn(s, p, g) then FilterMatches(s, RemainingJob(s, p, g), t) else SameFilterAt(s, t, g))
    && (if Withdrawn(s, p, g) then PluginMatches(s, RemainingJob(s, p, g), t) else SamePluginAt(s, t, g))
  }

  function RemainingJob(s: ClusterState, p: ObjectKey, g: ObjectKey): Job
    requires g in s.topo.gateways
  {
    Job(g, s.topo.gateways[g].listeners, Remaining(s, p, g))
  }

  ghost predicate FinalizeEffect(s: ClusterState, p: ObjectKey, t: ClusterState)
    requires p in s.policies
  {
    && t == s.(policies := s.policies - {p}, finalizers := s.finalizers - {p}, deleting := s.deleting - {p},
               backRefs := s.backRefs - ClearedTarget(s, p),
               refs := t.refs, limitador := t.limitador, filters := t.filters, plugins := t.plugins)
    && (t.limitador == s.limitador || SameStatus(s, t))
    && WithdrawnFrom(s, p, t)
  }

  // ----- the withdrawn gateways -----

  lemma {:induction false} FinalizeTargetKeys(s: ClusterState, targeted: seq<ObjectKey>, g: ObjectKey)
    ensures g in KeysOf(FinalizeTargets(s, targeted)) <==> g in targeted && g in s.topo.gateways
  {
    if targeted != [] {
      var init, last := targeted[..|targeted| - 1], targeted[|targeted| - 1];
      FinalizeTargetKeys(s, init, g);
      assert targeted == init + [last];
      var before := FinalizeTargets(s, init);
      if last in s.topo.gateways {
        assert KeysOf(before + [SnapshotOf(s, last)]) == KeysOf(before) + [last];
      } else {
        assert before + [] == before;
      }
    }
  }

  /** The jobs of the finalize, computed after the references were removed. */
  function FinalJobs(s: ClusterState, p: ObjectKey): seq<Job>
    requires p in s.policies
  {
    LeftJobs(Forget(FinalizeTargets(s, LeftKeys(s, p)), p), p)
  }

  lemma ForgottenJob(s: ClusterState, p: ObjectKey, targeted: seq<ObjectKey>)
    ensures var jobs := LeftJobs(Forget(FinalizeTargets(s, targeted), p), p);
      && Consistent(jobs)
      && (forall j :: j in jobs ==>
            j.gateway in targeted && j.gateway in s.topo.gateways && j == RemainingJob(s, p, j.gateway))
      && (forall g :: g in targeted && g in s.topo.gateways ==> exists j :: j in jobs && j.gateway == g)
  {
    var left := FinalizeTargets(s, targeted);
    var jobs := LeftJobs(Forget(left, p), p);
    forall j | j in jobs
      ensures j.gateway in targeted && j.gateway in s.topo.gateways
      ensures j == RemainingJob(s, p, j.gateway)
    {
      var i :| 0 <= i < |jobs| && jobs[i] == j;
      assert left[i] in left && KeysOf(left)[i] == j.gateway;
      FinalizeTargetKeys(s, targeted, j.gateway);
    }
    forall g | g in targeted && g in s.topo.gateways
      ensures exists j :: j in jobs && j.gateway == g
    {
      FinalizeTargetKeys(s, targeted, g);
      var i :| 0 <= i < |left| && KeysOf(left)[i] == g;
      assert jobs[i] in jobs && jobs[i].gateway == g;
    }
  }

  // ----- the stages -----

  lemma RemovedRefs(s: ClusterState, p: ObjectKey, g: ObjectKey)
    requires p in s.policies
    ensures var d := FinalizeDiff(s, p);
            var t := ApplyAll(s, RefsPlan(d, p).writes);
      && t == s.(refs := t.refs)
      && Ann(t, g) == if Withdrawn(s, p, g) then DeleteRef(Ann(s, g), p) else Ann(s, g)
  {
    var d := FinalizeDiff(s, p);
    RefWritesOnly(d.left, p);
    RefFrame(s, RefsPlan(d, p).writes);
    assert RefsPlan(d, p).writes == DeleteRefWrites(d.left, p);
    EditsApplied(s, d.left, Deletion(p), g);
    FinalizeTargetKeys(s, LeftKeys(s, p), g);
    KeyHasSnapshot(d.left, g);
  }

  lemma WithdrawnArtefacts(s: ClusterState, s1: ClusterState, p: ObjectKey, o: Order, g: ObjectKey)
    requires p in s.policies && VisitsJobs(s, FinalJobs(s, p), o.domains)
    requires s1 == s.(refs := s1.refs)
    requires WithdrawArtefactsPlan(s1, Forget(FinalizeDiff(s, p).left, p), p, o.domains).err.None?
    ensures WithdrawnArtefactsAt(s, p, g,
              ApplyAll(s1, WithdrawArtefactsPlan(s1, Forget(FinalizeDiff(s, p).left, p), p, o.domains).writes))
  {
    var jobs := FinalJobs(s, p);
    ForgottenJob(s, p, LeftKeys(s, p));
    var pjs := PluginJobs(jobs, o.domains);
    VisitsTransfer(s, s1, jobs, o.domains);
    PluginJobsMembers(s1, jobs, o.domains);
    var w := WasmPlan(s1, pjs);
    var s2 := ApplyAll(s1, w.writes);
    var f := FilterPlan(s2, jobs);
    ThenApplied(s1, w, f);
    WasmPlanWrites(s1, pjs);
    PluginFrame(s1, w.writes);
    FilterPlanWrites(s2, jobs);
    FilterFrame(s2, f.writes);
    FilterAt(s2, jobs, g);
    if Withdrawn(s, p, g) {
      var j :| j in jobs && j.gateway == g;
      var pj :| pj in pjs && pj.job == j;
      WasmAt(s1, pjs, pj);
      MatchesTransfer(s, s1, j, s2);
    } else {
      WasmFrameAt(s1, pjs, g);
    }
  }

  lemma WithdrawnLimits(s: ClusterState, s2: ClusterState, p: ObjectKey, entries: seq<Entry>)
    requires p in s.policies
    requires s2.topo == s.topo && s2.limitador == s.limitador
    requires var plan := TolerantLimitsPlan(s2, Forget(FinalizeDiff(s, p).left, p), p, entries);
             plan.err.None? && (plan.writes != [] ==> EnumeratesUpdate(s, FinalizeDiff(s, p), p, entries))
    ensures var t := ApplyAll(s2, TolerantLimitsPlan(s2, Forget(FinalizeDiff(s, p).left, p), p, entries).writes);
      && t == s2.(limitador := t.limitador)
      && (t.limitador == s.limitador || SameStatus(s, t))
      && forall e: Entry :: Held(t)[e] == if Withdrawn(s, p, e.gateway) then 0 else Held(s)[e]
  {
    var left := FinalizeDiff(s, p).left;
    var d := Diff([], [], Forget(left, p));
    assert KeysOf(d.left) == KeysOf(left);
    forall e: Entry
      ensures UpdatedCount(s2, d, p, e) == UpdatedCount(s, FinalizeDiff(s, p), p, e)
      ensures UpdatedCount(s2, d, p, e) == if Withdrawn(s, p, e.gateway) then 0 else Held(s)[e]
    {
      FinalizeTargetKeys(s, LeftKeys(s, p), e.gateway);
    }
    if s2.limitador.Some? {
      LimitsApplied(s2, d, p, entries);
      LimitsFrame(s2, d, p, entries);
    }
  }

  /** The states a completed finalize passes through: references removed, artefacts
      withdrawn, limits cleared. */
  lemma FinalizeShape(s: ClusterState, p: ObjectKey, o: Order)
    requires Leaving(s, p) && Completed(s, p, o)
    ensures var left := FinalizeDiff(s, p).left;
            var s1 := ApplyAll(s, RefsPlan(FinalizeDiff(s, p), p).writes);
            var a := WithdrawArtefactsPlan(s1, Forget(left, p), p, o.domains);
            var s2 := ApplyAll(s1, a.writes);
            var l := TolerantLimitsPlan(s2, Forget(left, p), p, o.entries);
            var s3 := ApplyAll(s2, l.writes);
      && a.err.None? && l.err.None? && ReleasePlan(s, p).err.None?
      && After(s, p, o) == Apply(ApplyAll(s3, ReleasePlan(s, p).writes), RemoveFinalizer(p))
  {
    var left := FinalizeDiff(s, p).left;
    var remove, release := RemovePlan(s, left, p, o), ReleasePlan(s, p);
    var r := RefsPlan(FinalizeDiff(s, p), p);
    var s1 := ApplyAll(s, r.writes);
    var a := WithdrawArtefactsPlan(s1, Forget(left, p), p, o.domains);
    var l := TolerantLimitsPlan(ApplyAll(s1, a.writes), Forget(left, p), p, o.entries);
    ThenApplied(s, FinalizePlan(s, p, o), Plan([RemoveFinalizer(p)], None));
    ThenApplied(s, remove, release);
    ThenApplied(s, r, WithdrawPlan(s1, Forget(left, p), p, o));
    ThenApplied(s1, a, l);
    ApplyOne(ApplyAll(s, FinalizePlan(s, p, o).writes), RemoveFinalizer(p));
  }

  /** The cluster after references, artefacts and limits, before the release. */
  ghost function Withdrawal(s: ClusterState, p: ObjectKey, o: Order): ClusterState
    requires p in s.policies
  {
    var left := FinalizeDiff(s, p).left;
    var s1 := ApplyAll(s, RefsPlan(FinalizeDiff(s, p), p).writes);
    var s2 := ApplyAll(s1, WithdrawArtefactsPlan(s1, Forget(left, p), p, o.domains).writes);
    ApplyAll(s2, TolerantLimitsPlan(s2, Forget(left, p), p, o.entries).writes)
  }

  ghost predicate WithdrawalCompletes(s: ClusterState, p: ObjectKey, o: Order)
    requires p in s.policies
  {
    var left := FinalizeDiff(s, p).left;
    var s1 := ApplyAll(s, RefsPlan(FinalizeDiff(s, p), p).writes);
    var a := WithdrawArtefactsPlan(s1, Forget(left, p), p, o.domains);
    var l := TolerantLimitsPlan(ApplyAll(s1, a.writes), Forget(left, p), p, o.entries);
    && a.err.None? && l.err.None? && (l.writes != [] ==> EnumeratesUpdate(s, FinalizeDiff(s, p), p, o.entries))
    && VisitsJobs(s, FinalJobs(s, p), o.domains)
  }

  lemma WithdrawalAt(s: ClusterState, p: ObjectKey, o: Order, g: ObjectKey)
    requires p in s.policies && WithdrawalCompletes(s, p, o)
    ensures var t := Withdrawal(s, p, o);
      && SameOwnership(s, t)
      && (t.limitador == s.limitador || SameStatus(s, t))
      && Ann(t, g) == (if Withdrawn(s, p, g) then DeleteRef(Ann(s, g), p) else Ann(s, g))
      && WithdrawnArtefactsAt(s, p, g, t)
      && forall e: Entry :: Held(t)[e] == if Withdrawn(s, p, e.gateway) then 0 else Held(s)[e]
  {
    var left := FinalizeDiff(s, p).left;
    var s1 := ApplyAll(s, RefsPlan(FinalizeDiff(s, p), p).writes);
    var a := WithdrawArtefactsPlan(s1, Forget(left, p), p, o.domains);
    RemovedRefs(s, p, g);
    WithdrawArtefactsWrites(s1, Forget(left, p), p, o.domains);
    ArtefactFrame(s1, a.writes);
    WithdrawnArtefacts(s, s1, p, o, g);
    WithdrawnLimits(s, ApplyAll(s1, a.writes), p, o.entries);
  }

  lemma WithdrawalApplied(s: ClusterState, p: ObjectKey, o: Order)
    requires p in s.policies && WithdrawalCompletes(s, p, o)
    ensures WithdrawnFrom(s, p, Withdrawal(s, p, o))
    ensures var t := Withdrawal(s, p, o);
      SameOwnership(s, t) && (t.limitador == s.limitador || SameStatus(s, t))
  {
    var t := Withdrawal(s, p, o);
    WithdrawalAt(s, p, o, p);
    forall g
      ensures Ann(t, g) == if Withdrawn(s, p, g) then DeleteRef(Ann(s, g), p) else Ann(s, g)
      ensures WithdrawnArtefactsAt(s, p, g, t)
    {
      WithdrawalAt(s, p, o, g);
    }
  }

  /** The effect of every completed finalize. */
  lemma FinalizeHasEffect(s: ClusterState, p: ObjectKey, o: Order)
    requires Leaving(s, p) && Completed(s, p, o)
    ensures FinalizeEffect(s, p, After(s, p, o))
  {
    FinalizeCompletes(s, p, o);
    var t := Withdrawal(s, p, o);
    WithdrawalApplied(s, p, o);
    ReleaseApplied(s, t, p);
    SameDerived(s, p, t, After(s, p, o));
  }

  lemma FinalizeCompletes(s: ClusterState, p: ObjectKey, o: Order)
    requires Leaving(s, p) && Completed(s, p, o)
    ensures WithdrawalCompletes(s, p, o) && ReleasePlan(s, p).err.None?
    ensures After(s, p, o) == Apply(ApplyAll(Withdrawal(s, p, o), ReleasePlan(s, p).writes), RemoveFinalizer(p))
  {
    FinalizeShape(s, p, o);
    var left := FinalizeDiff(s, p).left;
    var s1 := ApplyAll(s, RefsPlan(FinalizeDiff(s, p), p).writes);
    var s2 := ApplyAll(s1, WithdrawArtefactsPlan(s1, Forget(left, p), p, o.domains).writes);
    if TolerantLimitsPlan(s2, Forget(left, p), p, o.entries).writes != [] {
      FinalizeWritesLimits(s, p, o);
    }
  }

  lemma SameDerived(s: ClusterState, p: ObjectKey, t: ClusterState, u: ClusterState)
    requires p in s.policies && WithdrawnFrom(s, p, t)
    requires u.refs == t.refs && u.limitador == t.limitador && u.filters == t.filters && u.plugins == t.plugins
    ensures WithdrawnFrom(s, p, u)
  {
    forall g
      ensures Ann(u, g) == if Withdrawn(s, p, g) then DeleteRef(Ann(s, g), p) else Ann(s, g)
      ensures WithdrawnArtefactsAt(s, p, g, u)
    {
      assert Ann(u, g) == Ann(t, g) && WithdrawnArtefactsAt(s, p, g, t);
    }
  }

  lemma FinalizeWritesLimits(s: ClusterState, p: ObjectKey, o: Order)
    requires Leaving(s, p) && Completed(s, p, o)
    requires var left := FinalizeDiff(s, p).left;
             var s1 := ApplyAll(s, RefsPlan(FinalizeDiff(s, p), p).writes);
             var s2 := ApplyAll(s1, WithdrawArtefactsPlan(s1, Forget(left, p), p, o.domains).writes);
             TolerantLimitsPlan(s2, Forget(left, p), p, o.entries).writes != []
    ensures EnumeratesUpdate(s, FinalizeDiff(s, p), p, o.entries)
  {
    var left := FinalizeDiff(s, p).left;
    var r := RefsPlan(FinalizeDiff(s, p), p);
    var s1 := ApplyAll(s, r.writes);
    var a := WithdrawArtefactsPlan(s1, Forget(left, p), p, o.domains);
    var l := TolerantLimitsPlan(ApplyAll(s1, a.writes), Forget(left, p), p, o.entries);
    assert WritesLimits(l.writes) by {
      assert l.writes[0] in l.writes;
    }
    ThenWritesLimits(a, l);
    ThenWritesLimits(r, WithdrawPlan(s1, Forget(left, p), p, o));
    ThenWritesLimits(RemovePlan(s, left, p, o), ReleasePlan(s, p));
    ThenWritesLimits(FinalizePlan(s, p, o), Plan([RemoveFinalizer(p)], None));
  }

  lemma ThenWritesLimits(a: Plan, b: Plan)
    requires Then(a, b).err.None? && (WritesLimits(a.writes) || WritesLimits(b.writes))
    ensures WritesLimits(Then(a, b).writes)
  {
    var w :| w in a.writes + b.writes && w.SetLimits?;
    assert w in Then(a, b).writes;
  }

  lemma ReleaseApplied(s: ClusterState, t: ClusterState, p: ObjectKey)
    requires p in s.policies && ReleasePlan(s, p).err.None? && t.backRefs == s.backRefs
    ensures ApplyAll(t, ReleasePlan(s, p).writes) == t.(backRefs := s.backRefs - ClearedTarget(s, p))
  {
    var ws := ReleasePlan(s, p).writes;
    if ws != [] {
      ApplyOne(t, ws[0]);
    } else {
      assert s.backRefs - ClearedTarget(s, p) == s.backRefs;
    }
  }
}

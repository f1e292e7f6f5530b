/** A policy leaves a gateway in two ways. A reconcile withdraws limits, filter and
    plugin and removes the references last; a finalize removes the references first
    and then withdraws plugin, filter and limits. Both end in the same cluster. */
module StageOrders {
  import opened Cluster
  import opened Common
  import opened Effects
  import opened GatewayRefs
  import opened LimitIndexes
  import opened Plans

  // ----- what each stage reads, and the one column it writes -----

  predicate SameFilterReads(a: ClusterState, b: ClusterState) {
    && a.filters == b.filters
    && a.limitador.Some? && b.limitador.Some?
    && a.limitador.value.ready == b.limitador.value.ready
    && a.limitador.value.endpoint == b.limitador.value.endpoint
  }

  lemma {:induction false} FiltersReadFilters(a: ClusterState, b: ClusterState, jobs: seq<Job>)
    requires SameFilterReads(a, b)
    ensures FilterPlan(a, jobs) == FilterPlan(b, jobs)
    ensures ApplyAll(a, FilterPlan(a, jobs).writes).filters == ApplyAll(b, FilterPlan(b, jobs).writes).filters
    decreases |jobs|
  {
    if jobs != [] {
      var step := FilterStep(a, jobs[0]);
      var a1, b1 := ApplyAll(a, step.writes), ApplyAll(b, step.writes);
      FilterStepWrites(a, b, step);
      FiltersReadFilters(a1, b1, jobs[1..]);
      ApplyConcat(a, step.writes, FilterPlan(a1, jobs[1..]).writes);
      ApplyConcat(b, step.writes, FilterPlan(b1, jobs[1..]).writes);
    }
  }

  lemma FilterStepWrites(a: ClusterState, b: ClusterState, step: Plan)
    requires SameFilterReads(a, b)
    requires |step.writes| <= 1 && forall w :: w in step.writes ==> w.PutFilter? || w.DeleteFilter?
    ensures SameFilterReads(ApplyAll(a, step.writes), ApplyAll(b, step.writes))
  {
    if step.writes != [] {
      assert step.writes[0] in step.writes && step.writes == [step.writes[0]];
      ApplyOne(a, step.writes[0]);
      ApplyOne(b, step.writes[0]);
      FilterWriteReads(a, b, step.writes[0]);
    }
  }

  lemma FilterWriteReads(a: ClusterState, b: ClusterState, w: Write)
    requires SameFilterReads(a, b) && (w.PutFilter? || w.DeleteFilter?)
    ensures SameFilterReads(Apply(a, w), Apply(b, w))
  {
  }

  predicate SamePluginReads(a: ClusterState, b: ClusterState) {
    a.topo == b.topo && a.policies == b.policies && a.plugins == b.plugins
  }

  lemma {:induction false} PluginsReadPlugins(a: ClusterState, b: ClusterState, jobs: seq<PluginJob>)
    requires SamePluginReads(a, b)
    ensures WasmPlan(a, jobs) == WasmPlan(b, jobs)
    ensures ApplyAll(a, WasmPlan(a, jobs).writes).plugins == ApplyAll(b, WasmPlan(b, jobs).writes).plugins
    decreases |jobs|
  {
    if jobs != [] {
      var step := WasmStep(a, jobs[0]);
      WasmStepReads(a, b, jobs[0]);
      var a1, b1 := ApplyAll(a, step.writes), ApplyAll(b, step.writes);
      PluginStepWrites(a, b, step);
      PluginsReadPlugins(a1, b1, jobs[1..]);
      ApplyConcat(a, step.writes, WasmPlan(a1, jobs[1..]).writes);
      ApplyConcat(b, step.writes, WasmPlan(b1, jobs[1..]).writes);
    }
  }

  lemma WasmStepReads(a: ClusterState, b: ClusterState, j: PluginJob)
    requires SamePluginReads(a, b)
    ensures WasmStep(a, j) == WasmStep(b, j)
    ensures var ws := WasmStep(a, j).writes; |ws| <= 1 && forall w :: w in ws ==> w.PutPlugin? || w.DeletePlugin?
  {
  }

  lemma PluginStepWrites(a: ClusterState, b: ClusterState, step: Plan)
    requires SamePluginReads(a, b)
    requires |step.writes| <= 1 && forall w :: w in step.writes ==> w.PutPlugin? || w.DeletePlugin?
    ensures SamePluginReads(ApplyAll(a, step.writes), ApplyAll(b, step.writes))
  {
    if step.writes != [] {
      assert step.writes[0] in step.writes && step.writes == [step.writes[0]];
      ApplyOne(a, step.writes[0]);
      ApplyOne(b, step.writes[0]);
    }
  }

  lemma {:induction false} RefWritesReadRefs(a: ClusterState, b: ClusterState, ws: seq<Write>)
    requires a.refs == b.refs && forall w :: w in ws ==> w.SetRefs?
    ensures ApplyAll(a, ws).refs == ApplyAll(b, ws).refs
    decreases |ws|
  {
    if ws != [] {
      assert ws[0] in ws;
      RefWritesReadRefs(Apply(a, ws[0]), Apply(b, ws[0]), ws[1..]);
    }
  }

  lemma LimitsComplete(s: ClusterState, left: seq<Snapshot>, p: ObjectKey, entries: seq<Entry>)
    requires s.limitador.Some?
    ensures LimitsPlan(s, Diff([], [], left), p, entries).err.None?
  {
  }

  lemma LimitsReadLimits(a: ClusterState, b: ClusterState, left: seq<Snapshot>, left': seq<Snapshot>, p: ObjectKey,
                         entries: seq<Entry>)
    requires a.limitador == b.limitador && a.limitador.Some? && KeysOf(left) == KeysOf(left')
    ensures LimitsPlan(a, Diff([], [], left), p, entries) == LimitsPlan(b, Diff([], [], left'), p, entries)
  {
    LimitsComplete(a, left, p, entries);
    LimitsComplete(b, left', p, entries);
    SameSettled(a, b, left, left', p);
  }

  lemma LimitWritesReadLimits(a: ClusterState, b: ClusterState, ws: seq<Write>)
    requires a.limitador == b.limitador && |ws| <= 1 && forall w :: w in ws ==> w.SetLimits?
    ensures ApplyAll(a, ws).limitador == ApplyAll(b, ws).limitador
  {
    if ws != [] {
      assert ws[0] in ws && ws == [ws[0]];
      ApplyOne(a, ws[0]);
      ApplyOne(b, ws[0]);
    }
  }

  lemma SameSettled(a: ClusterState, b: ClusterState, left: seq<Snapshot>, left': seq<Snapshot>, p: ObjectKey)
    requires a.limitador == b.limitador && KeysOf(left) == KeysOf(left')
    ensures LimitsSettled(a, Diff([], [], left), p) <==> LimitsSettled(b, Diff([], [], left'), p)
  {
    forall e: Entry
      ensures UpdatedCount(a, Diff([], [], left), p, e) == UpdatedCount(b, Diff([], [], left'), p, e)
    {
    }
  }

  // ----- the two orders -----

  /** A policy listed at most once is gone after one removal, so the list a withdrawal
      works on is the same before and after the references were removed. */
  lemma ForgettingChangesNoJob(left: seq<Snapshot>, p: ObjectKey)
    requires forall g :: g in left ==> p !in RemoveFirst(RefKeys(g.annotation), p)
    ensures LeftJobs(Forget(left, p), p) == LeftJobs(left, p)
  {
    forall i | 0 <= i < |left|
      ensures LeftJob(Forget(left, p)[i], p) == LeftJob(left[i], p)
    {
      assert left[i] in left;
      RemovingTwice(left[i].annotation, p);
    }
  }

  lemma RemovingTwice(a: RefAnnotation, p: ObjectKey)
    requires p !in RemoveFirst(RefKeys(a), p)
    ensures RemoveFirst(RefKeys(DeleteRef(a, p)), p) == RemoveFirst(RefKeys(a), p)
  {
  }

  /** The reconcile order on left gateways alone. */
  lemma LastShape(s: ClusterState, left: seq<Snapshot>, p: ObjectKey, o: Order)
    ensures var l := LimitsPlan(s, Diff([], [], left), p, o.entries);
            var s1 := ApplyAll(s, l.writes);
            var f := FilterPlan(s1, LeftJobs(left, p));
            var s2 := ApplyAll(s1, f.writes);
            var w := WasmPlan(s2, PluginJobs(LeftJobs(left, p), o.domains));
            var plan := StagesPlan(s, Diff([], [], left), p, o);
      && (plan.err.None? <==> l.err.None? && f.err.None? && w.err.None?)
      && (plan.err.None? ==>
            ApplyAll(s, plan.writes) == ApplyAll(ApplyAll(s2, w.writes), DeleteRefWrites(left, p)))
  {
    var d := Diff([], [], left);
    assert FilterJobs(d, p) == LeftJobs(left, p) && WasmJobs(d, p) == LeftJobs(left, p);
    assert RefsPlan(d, p).writes == DeleteRefWrites(left, p);
    if StagesPlan(s, d, p, o).err.None? {
      StagesShape(s, d, p, o);
    }
  }

  /** The finalize order. */
  lemma FirstShape(s: ClusterState, left: seq<Snapshot>, p: ObjectKey, o: Order)
    requires LeftJobs(Forget(left, p), p) == LeftJobs(left, p)
    ensures var s1 := ApplyAll(s, DeleteRefWrites(left, p));
            var w := WasmPlan(s1, PluginJobs(LeftJobs(left, p), o.domains));
            var s2 := ApplyAll(s1, w.writes);
            var f := FilterPlan(s2, LeftJobs(left, p));
            var s3 := ApplyAll(s2, f.writes);
            var l := TolerantLimitsPlan(s3, Forget(left, p), p, o.entries);
            var plan := RemovePlan(s, left, p, o);
      && (plan.err.None? <==> w.err.None? && f.err.None? && l.err.None?)
      && (plan.err.None? ==> ApplyAll(s, plan.writes) == ApplyAll(s3, l.writes))
  {
    var r := RefsPlan(Diff([], [], left), p);
    assert r.writes == DeleteRefWrites(left, p);
    var s1 := ApplyAll(s, r.writes);
    var a := WithdrawArtefactsPlan(s1, Forget(left, p), p, o.domains);
    var w := WasmPlan(s1, PluginJobs(LeftJobs(left, p), o.domains));
    var f := FilterPlan(ApplyAll(s1, w.writes), LeftJobs(left, p));
    var l := TolerantLimitsPlan(ApplyAll(s1, a.writes), Forget(left, p), p, o.entries);
    if a.err.None? {
      ThenApplied(s1, w, f);
    }
    if RemovePlan(s, left, p, o).err.None? {
      ThenApplied(s, r, WithdrawPlan(s1, Forget(left, p), p, o));
      ThenApplied(s1, a, l);
    }
  }

  lemma AfterLimits(s: ClusterState, d: Diff, p: ObjectKey, entries: seq<Entry>)
    requires LimitsPlan(s, d, p, entries).err.None?
    ensures var t := ApplyAll(s, LimitsPlan(s, d, p, entries).writes);
      t == s.(limitador := t.limitador) && SameFilterReads(t, s)
  {
    LimitsFrame(s, d, p, entries);
    if LimitsPlan(s, d, p, entries).writes != [] {
      ApplyOne(s, SetLimits(PrintAll(entries)));
    }
  }

  lemma AfterFilters(s: ClusterState, jobs: seq<Job>)
    ensures var t := ApplyAll(s, FilterPlan(s, jobs).writes); t == s.(filters := t.filters)
  {
    FilterPlanWrites(s, jobs);
    FilterFrame(s, FilterPlan(s, jobs).writes);
  }

  lemma AfterPlugins(s: ClusterState, jobs: seq<PluginJob>)
    ensures var t := ApplyAll(s, WasmPlan(s, jobs).writes); t == s.(plugins := t.plugins)
  {
    WasmPlanWrites(s, jobs);
    PluginFrame(s, WasmPlan(s, jobs).writes);
  }

  lemma AfterRefs(s: ClusterState, left: seq<Snapshot>, p: ObjectKey)
    ensures var t := ApplyAll(s, DeleteRefWrites(left, p)); t == s.(refs := t.refs)
  {
    RefWritesOnly(left, p);
    RefFrame(s, DeleteRefWrites(left, p));
  }

  /** `s` with each column as its own stage, run alone, would leave it. */
  ghost function ColumnByColumn(s: ClusterState, left: seq<Snapshot>, p: ObjectKey, o: Order): ClusterState {
    s.(limitador := ApplyAll(s, LimitsPlan(s, Diff([], [], left), p, o.entries).writes).limitador,
       filters := ApplyAll(s, FilterPlan(s, LeftJobs(left, p)).writes).filters,
       plugins := ApplyAll(s, WasmPlan(s, PluginJobs(LeftJobs(left, p), o.domains)).writes).plugins,
       refs := ApplyAll(s, DeleteRefWrites(left, p)).refs)
  }

  ghost predicate WithdrawalSucceeds(s: ClusterState, left: seq<Snapshot>, p: ObjectKey, o: Order) {
    FilterPlan(s, LeftJobs(left, p)).err.None? && WasmPlan(s, PluginJobs(LeftJobs(left, p), o.domains)).err.None?
  }

  lemma LastReaches(s: ClusterState, left: seq<Snapshot>, p: ObjectKey, o: Order)
    requires s.limitador.Some?
    ensures var plan := StagesPlan(s, Diff([], [], left), p, o);
      && (plan.err.None? <==> WithdrawalSucceeds(s, left, p, o))
      && (plan.err.None? ==> ApplyAll(s, plan.writes) == ColumnByColumn(s, left, p, o))
  {
    var jobs := LeftJobs(left, p);
    var pjs := PluginJobs(jobs, o.domains);
    LastShape(s, left, p, o);
    LimitsComplete(s, left, p, o.entries);
    AfterLimits(s, Diff([], [], left), p, o.entries);
    var s1 := ApplyAll(s, LimitsPlan(s, Diff([], [], left), p, o.entries).writes);
    FiltersReadFilters(s1, s, jobs);
    AfterFilters(s1, jobs);
    var s2 := ApplyAll(s1, FilterPlan(s1, jobs).writes);
    PluginsReadPlugins(s2, s, pjs);
    AfterPlugins(s2, pjs);
    var s3 := ApplyAll(s2, WasmPlan(s2, pjs).writes);
    RefWritesOnly(left, p);
    RefWritesReadRefs(s3, s, DeleteRefWrites(left, p));
    AfterRefs(s3, left, p);
  }

  lemma FirstReaches(s: ClusterState, left: seq<Snapshot>, p: ObjectKey, o: Order)
    requires s.limitador.Some? && LeftJobs(Forget(left, p), p) == LeftJobs(left, p)
    ensures var plan := RemovePlan(s, left, p, o);
      && (plan.err.None? <==> WithdrawalSucceeds(s, left, p, o))
      && (plan.err.None? ==> ApplyAll(s, plan.writes) == ColumnByColumn(s, left, p, o))
  {
    var jobs := LeftJobs(left, p);
    var pjs := PluginJobs(jobs, o.domains);
    FirstShape(s, left, p, o);
    AfterRefs(s, left, p);
    var s1 := ApplyAll(s, DeleteRefWrites(left, p));
    PluginsReadPlugins(s1, s, pjs);
    AfterPlugins(s1, pjs);
    var s2 := ApplyAll(s1, WasmPlan(s1, pjs).writes);
    FiltersReadFilters(s2, s, jobs);
    AfterFilters(s2, jobs);
    var s3 := ApplyAll(s2, FilterPlan(s2, jobs).writes);
    FirstLimits(s3, s, left, p, o.entries);
  }

  /** The limits stage at the end, with the references gone, does what it would have
      done at the beginning. */
  lemma FirstLimits(t: ClusterState, s: ClusterState, left: seq<Snapshot>, p: ObjectKey, entries: seq<Entry>)
    requires s.limitador.Some? && t.topo == s.topo && t.policies == s.policies && t.limitador == s.limitador
    ensures var plan := TolerantLimitsPlan(t, Forget(left, p), p, entries);
            var u := ApplyAll(t, plan.writes);
      && plan.err.None? && u == t.(limitador := u.limitador)
      && u.limitador == ApplyAll(s, LimitsPlan(s, Diff([], [], left), p, entries).writes).limitador
  {
    assert KeysOf(Forget(left, p)) == KeysOf(left);
    LimitsReadLimits(t, s, Forget(left, p), left, p, entries);
    LimitsComplete(t, Forget(left, p), p, entries);
    AfterLimits(t, Diff([], [], Forget(left, p)), p, entries);
    var l := LimitsPlan(s, Diff([], [], left), p, entries);
    LimitsPlanWrites(s, Diff([], [], left), p, entries);
    LimitWritesReadLimits(t, s, l.writes);
  }

  /** Withdrawing before the references are removed, or after, succeeds in the same
      cases and leaves the same cluster behind, as long as the policy is listed at
      most once on each gateway it leaves. */
  lemma ReferencesFirstOrLast(s: ClusterState, left: seq<Snapshot>, p: ObjectKey, o: Order)
    requires s.limitador.Some?
    requires forall g :: g in left ==> p !in RemoveFirst(RefKeys(g.annotation), p)
    ensures var last, first := StagesPlan(s, Diff([], [], left), p, o), RemovePlan(s, left, p, o);
      && (last.err.None? <==> first.err.None?)
      && (last.err.None? ==> ApplyAll(s, last.writes) == ApplyAll(s, first.writes))
  {
    ForgettingChangesNoJob(left, p);
    LastReaches(s, left, p, o);
    FirstReaches(s, left, p, o);
  }
}

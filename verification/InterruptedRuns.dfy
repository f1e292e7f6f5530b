/** What runs leave behind when reconciles and finalizes are cut short after any write:
    limits, filters and plugins sit only on gateways that somebody targets. So however
    a cluster got where it is, two completed rounds converge from there. */
module InterruptedRuns {
  import opened Cluster
  import opened Common
  import opened Convergence
  import opened ConvergedArtefacts
  import opened Effects
  import opened FinalizeEffects
  import opened GatewayRefs
  import opened LimitIndexes
  import opened LimitWrites
  import opened LockProtocol
  import opened Plans

  /** A policy with finalizer targets the gateway. */
  ghost predicate Owned(s: ClusterState, g: ObjectKey) {
    exists p :: p in s.finalizers && Targets(s, p, g)
  }

  ghost predicate Parseable(s: ClusterState) {
    forall g :: g in s.topo.gateways ==> !Ann(s, g).Malformed?
  }

  ghost predicate HeldIsOwned(s: ClusterState) {
    forall e: Entry :: e.gateway in s.topo.gateways && Held(s)[e] > 0 ==> Owned(s, e.gateway)
  }

  ghost predicate ArtefactsOwned(s: ClusterState) {
    forall g :: g in s.topo.gateways && (g in s.filters || g in s.plugins) ==> Owned(s, g)
  }

  ghost predicate ListedHasFilter(s: ClusterState) {
    forall g :: g in s.topo.gateways && Refs(s, g) != [] ==> g in s.filters
  }

  ghost predicate Accountable(s: ClusterState) {
    LockInv(s) && Parseable(s) && HeldIsOwned(s) && ArtefactsOwned(s) && ListedHasFilter(s)
  }

  // ----- ownership and writes -----

  /** Owners stay owners as long as nobody loses the finalizer or is retargeted. */
  lemma OwnedStays(s: ClusterState, t: ClusterState)
    requires t.topo == s.topo && s.finalizers <= t.finalizers
    requires forall p :: p in s.finalizers ==>
      p in s.policies && p in t.policies && t.policies[p].targetRef == s.policies[p].targetRef
    ensures forall g :: Owned(s, g) ==> Owned(t, g)
  {
    forall g | Owned(s, g)
      ensures Owned(t, g)
    {
      var p :| p in s.finalizers && Targets(s, p, g);
      assert Targets(t, p, g);
    }
  }

  /** Writes that add artefacts only to owned gateways, and take no finalizer away. */
  ghost predicate OwnedWrites(s: ClusterState, ws: seq<Write>) {
    forall w :: w in ws ==> !w.RemoveFinalizer? && (w.PutFilter? || w.PutPlugin? ==> Owned(s, w.gateway))
  }

  lemma FinalizersAfter(s: ClusterState, w: Write)
    requires !w.RemoveFinalizer?
    ensures Apply(s, w).policies == s.policies && s.finalizers <= Apply(s, w).finalizers
  {
  }

  lemma {:induction false} FinalizersGrow(s: ClusterState, ws: seq<Write>)
    requires forall w :: w in ws ==> !w.RemoveFinalizer?
    ensures var t := ApplyAll(s, ws); t.policies == s.policies && s.finalizers <= t.finalizers
    decreases |ws|
  {
    if ws != [] {
      assert ws[0] in ws && forall w :: w in ws[1..] ==> w in ws;
      FinalizersAfter(s, ws[0]);
      FinalizersGrow(Apply(s, ws[0]), ws[1..]);
    }
  }

  lemma FilterWritten(s: ClusterState, w: Write, g: ObjectKey)
    requires g in Apply(s, w).filters
    ensures g in s.filters || (w.PutFilter? && w.gateway == g)
  {
  }

  lemma {:induction false} FilterOrigin(s: ClusterState, ws: seq<Write>, g: ObjectKey)
    requires g in ApplyAll(s, ws).filters
    ensures g in s.filters || exists w :: w in ws && w.PutFilter? && w.gateway == g
    decreases |ws|
  {
    if ws != [] {
      var rest := ws[1..];
      FilterOrigin(Apply(s, ws[0]), rest, g);
      if g in Apply(s, ws[0]).filters {
        FilterWritten(s, ws[0], g);
        assert ws[0] in ws;
      } else {
        var w :| w in rest && w.PutFilter? && w.gateway == g;
        assert w in ws;
      }
    }
  }

  lemma PluginWritten(s: ClusterState, w: Write, g: ObjectKey)
    requires g in Apply(s, w).plugins
    ensures g in s.plugins || (w.PutPlugin? && w.gateway == g)
  {
  }

  lemma {:induction false} PluginOrigin(s: ClusterState, ws: seq<Write>, g: ObjectKey)
    requires g in ApplyAll(s, ws).plugins
    ensures g in s.plugins || exists w :: w in ws && w.PutPlugin? && w.gateway == g
    decreases |ws|
  {
    if ws != [] {
      var rest := ws[1..];
      PluginOrigin(Apply(s, ws[0]), rest, g);
      if g in Apply(s, ws[0]).plugins {
        PluginWritten(s, ws[0], g);
        assert ws[0] in ws;
      } else {
        var w :| w in rest && w.PutPlugin? && w.gateway == g;
        assert w in ws;
      }
    }
  }

  lemma OwnedWritesApplied(s: ClusterState, ws: seq<Write>, g: ObjectKey)
    requires OwnedWrites(s, ws)
    ensures var t := ApplyAll(s, ws);
      && t.policies == s.policies && s.finalizers <= t.finalizers
      && (g in t.filters ==> g in s.filters || Owned(s, g))
      && (g in t.plugins ==> g in s.plugins || Owned(s, g))
  {
    FinalizersGrow(s, ws);
    if g in ApplyAll(s, ws).filters {
      FilterOrigin(s, ws, g);
    }
    if g in ApplyAll(s, ws).plugins {
      PluginOrigin(s, ws, g);
    }
  }

  lemma ParseableAfter(s: ClusterState, w: Write)
    requires Parseable(s) && (w.SetRefs? ==> !w.annotation.Malformed?)
    ensures Parseable(Apply(s, w))
  {
    forall g | g in s.topo.gateways
      ensures !Ann(Apply(s, w), g).Malformed?
    {
      AnnotationAfter(s, w, g);
    }
  }

  lemma AnnotationAfter(s: ClusterState, w: Write, g: ObjectKey)
    ensures Ann(Apply(s, w), g) == if w.SetRefs? && w.gateway == g then w.annotation else Ann(s, g)
  {
  }

  lemma {:induction false} ParseableApplied(s: ClusterState, ws: seq<Write>)
    requires Parseable(s) && forall w :: w in ws && w.SetRefs? ==> !w.annotation.Malformed?
    ensures Parseable(ApplyAll(s, ws))
    decreases |ws|
  {
    if ws != [] {
      assert ws[0] in ws && forall w :: w in ws[1..] ==> w in ws;
      ParseableAfter(s, ws[0]);
      ParseableApplied(Apply(s, ws[0]), ws[1..]);
    }
  }

  lemma {:induction false} FinalizersOf(s: ClusterState, ws: seq<Write>)
    requires forall w :: w in ws ==> !w.AddFinalizer? && !w.RemoveFinalizer?
    ensures var t := ApplyAll(s, ws); t.finalizers == s.finalizers && t.policies == s.policies
    decreases |ws|
  {
    if ws != [] {
      assert ws[0] in ws && forall w :: w in ws[1..] ==> w in ws;
      FinalizersOf(Apply(s, ws[0]), ws[1..]);
    }
  }

  // ----- the writes of a reconcile -----

  lemma SpecWrites(s: ClusterState, p: ObjectKey, o: Order)
    requires p in s.policies && Lists(o.listing, s.topo)
    ensures forall w :: w in SpecPlan(s, p, o).writes ==> w.SetBackRef? || Derived(w)
  {
    var a := AcquirePlan(s, p);
    SpecPlanCases(s, p, o);
    if a.err.None? {
      var s1 := ApplyAll(s, a.writes);
      DiffPlanWrites(s1, p, o);
      ThenWrites(a, DiffPlan(s1, p, o));
    }
  }

  /** The stage writes of a reconcile come from the differences in the state it starts in. */
  lemma SpecStages(s: ClusterState, p: ObjectKey, o: Order, w: Write) returns (s1: ClusterState)
    requires p in s.policies && Lists(o.listing, s.topo)
    requires w in SpecPlan(s, p, o).writes && Derived(w)
    ensures TargetedBy(s, p).Ok? && s1 == s.(backRefs := s1.backRefs)
    ensures var stages := StagesPlan(s1, DiffOf(s, p, TargetedBy(s, p).value, o.listing), p, o);
      && SpecPlan(s, p, o).writes == AcquirePlan(s, p).writes + stages.writes
      && w !in AcquirePlan(s, p).writes && w in stages.writes
  {
    var a := AcquirePlan(s, p);
    SpecPlanCases(s, p, o);
    AcquireApplied(s, p);
    s1 := ApplyAll(s, a.writes);
    DiffReads(s, s1, p, if TargetedBy(s, p).Ok? then TargetedBy(s, p).value else [], o.listing);
    ThenWrites(a, DiffPlan(s1, p, o));
  }

  lemma {:induction false} FilterWriteGateways(s: ClusterState, jobs: seq<Job>, w: Write)
    requires w in FilterPlan(s, jobs).writes
    ensures w.PutFilter? || w.DeleteFilter?
    ensures exists j :: j in jobs && j.gateway == w.gateway && (w.PutFilter? <==> j.refs != [])
    decreases |jobs|
  {
    var step := FilterStep(s, jobs[0]);
    assert jobs[0] in jobs && forall j :: j in jobs[1..] ==> j in jobs;
    if w !in step.writes {
      FilterWriteGateways(ApplyAll(s, step.writes), jobs[1..], w);
    }
  }

  lemma {:induction false} PluginWriteGateways(s: ClusterState, jobs: seq<PluginJob>, w: Write)
    requires w in WasmPlan(s, jobs).writes
    ensures (w.PutPlugin? || w.DeletePlugin?) && exists pj :: pj in jobs && pj.job.gateway == w.gateway
    decreases |jobs|
  {
    var step := WasmStep(s, jobs[0]);
    assert jobs[0] in jobs && forall pj :: pj in jobs[1..] ==> pj in jobs;
    if w !in step.writes {
      PluginWriteGateways(ApplyAll(s, step.writes), jobs[1..], w);
    }
  }

  /** Where topology and targets never change, no reconcile leaves a gateway. */
  lemma NothingIsLeft(s: ClusterState, p: ObjectKey, listing: seq<ObjectKey>)
    requires LockInv(s) && p in s.policies && TargetedBy(s, p).Ok? && Lists(listing, s.topo)
    ensures DiffOf(s, p, TargetedBy(s, p).value, listing).left == []
  {
    var d := DiffOf(s, p, TargetedBy(s, p).value, listing);
    forall g
      ensures g !in KeysOf(d.left)
    {
      DiffKeys(s, p, TargetedBy(s, p).value, listing, g);
      assert g in s.topo.gateways && p in Refs(s, g) ==> ListedRightly(s, g, Refs(s, g)) && Targets(s, p, g);
    }
    SomeKey(d.left);
  }

  /** Every artefact a reconcile writes belongs to a gateway the policy targets. */
  lemma StageArtefacts(s: ClusterState, s1: ClusterState, p: ObjectKey, o: Order, w: Write)
    requires LockInv(s) && p in s.policies && TargetedBy(s, p).Ok? && Lists(o.listing, s.topo)
    requires s1 == s.(backRefs := s1.backRefs)
    requires w in StagesPlan(s1, DiffOf(s, p, TargetedBy(s, p).value, o.listing), p, o).writes && Artefact(w)
    ensures !w.DeleteFilter? && w.gateway in s.topo.gateways && Targets(s, p, w.gateway)
  {
    var targeted := TargetedBy(s, p).value;
    var d := DiffOf(s, p, targeted, o.listing);
    NothingIsLeft(s, p, o.listing);
    JobsAreTargeted(s, p, o.listing);
    var l := LimitsPlan(s1, d, p, o.entries);
    var s2 := ApplyAll(s1, l.writes);
    var f := FilterPlan(s2, FilterJobs(d, p));
    var s3 := ApplyAll(s2, f.writes);
    ThenWrites(DerivedPlan(s1, d, p, o), RefsPlan(d, p));
    RefWritesOnly(d.left, p);
    RefWritesOnly(d.added, p);
    ThenWrites(l, ArtefactPlan(s2, d, p, o.domains));
    LimitsPlanWrites(s1, d, p, o.entries);
    ThenWrites(f, WasmPlan(s3, PluginJobs(WasmJobs(d, p), o.domains)));
    if w in f.writes {
      FilterWriteGateways(s2, FilterJobs(d, p), w);
    } else {
      PluginWriteGateways(s3, PluginJobs(WasmJobs(d, p), o.domains), w);
      PluginJobsMembers(s, WasmJobs(d, p), o.domains);
    }
  }

  lemma JobsAreTargeted(s: ClusterState, p: ObjectKey, listing: seq<ObjectKey>)
    requires p in s.policies && TargetedBy(s, p).Ok? && Lists(listing, s.topo)
    requires DiffOf(s, p, TargetedBy(s, p).value, listing).left == []
    ensures var d := DiffOf(s, p, TargetedBy(s, p).value, listing);
      && (forall j :: j in FilterJobs(d, p) ==> j in WasmJobs(d, p) && j.refs != [])
      && (forall j :: j in WasmJobs(d, p) ==> j.gateway in s.topo.gateways && Targets(s, p, j.gateway))
  {
    var targeted := TargetedBy(s, p).value;
    var d := DiffOf(s, p, targeted, listing);
    JobsAreJobAt(s, p, targeted, listing);
    JobGateways(d, p);
    forall j | j in WasmJobs(d, p)
      ensures j.gateway in targeted
    {
      DiffKeys(s, p, targeted, listing, j.gateway);
      assert j.gateway !in KeysOf(d.left);
    }
  }

  // ----- filters along a sequence of writes -----

  /** A filter stays, or stays put, unless it is deleted. */
  lemma {:induction false} FilterKept(s: ClusterState, ws: seq<Write>, g: ObjectKey)
    requires forall w :: w in ws ==> !(w.DeleteFilter? && w.gateway == g)
    requires g in s.filters || exists w :: w in ws && w.PutFilter? && w.gateway == g
    ensures g in ApplyAll(s, ws).filters
    decreases |ws|
  {
    if ws != [] {
      var init, last := ws[..|ws| - 1], ws[|ws| - 1];
      assert ws == init + [last] && last in ws;
      assert forall w :: w in ws <==> w in init || w == last;
      ApplyConcat(s, init, [last]);
      ApplyOne(ApplyAll(s, init), last);
      if !(last.PutFilter? && last.gateway == g) {
        FilterKept(s, init, g);
      }
    }
  }

  lemma {:induction false} AnnotationKept(s: ClusterState, ws: seq<Write>, g: ObjectKey)
    requires forall w :: w in ws ==> !(w.SetRefs? && w.gateway == g)
    ensures Ann(ApplyAll(s, ws), g) == Ann(s, g)
    decreases |ws|
  {
    if ws != [] {
      assert ws[0] in ws && forall w :: w in ws[1..] ==> w in ws;
      AnnotationAfter(s, ws[0], g);
      AnnotationKept(Apply(s, ws[0]), ws[1..], g);
    }
  }

  lemma {:induction false} FilterIsPut(s: ClusterState, jobs: seq<Job>, j: Job)
    requires FilterPlan(s, jobs).err.None? && j in jobs && j.refs != []
    ensures exists w :: w in FilterPlan(s, jobs).writes && w.PutFilter? && w.gateway == j.gateway
    decreases |jobs|
  {
    var step := FilterStep(s, jobs[0]);
    var rest := FilterPlan(ApplyAll(s, step.writes), jobs[1..]);
    assert forall w :: w in step.writes || w in rest.writes ==> w in FilterPlan(s, jobs).writes;
    if j == jobs[0] {
      assert step.writes[0] in step.writes;
    } else {
      assert j in jobs[1..];
      FilterIsPut(ApplyAll(s, step.writes), jobs[1..], j);
      var w :| w in rest.writes && w.PutFilter? && w.gateway == j.gateway;
      assert w in FilterPlan(s, jobs).writes;
    }
  }

  /** A prefix that reaches beyond `x` has all of `x`. */
  lemma PrefixSplit(x: seq<Write>, y: seq<Write>, m: nat, w: Write)
    requires m <= |x + y| && w in (x + y)[..m] && w !in x
    ensures |x| <= m && (x + y)[..m] == x + y[..m - |x|] && w in y[..m - |x|]
  {
    var i :| 0 <= i < m && (x + y)[i] == w;
    assert i >= |x|;
    assert (x + y)[..m] == x + y[..m - |x|];
  }

  lemma PrefixCovers(x: seq<Write>, y: seq<Write>, m: nat, w: Write)
    requires m <= |x + y| && w in (x + y)[..m] && w !in x
    ensures forall v :: v in x ==> v in (x + y)[..m]
  {
    PrefixSplit(x, y, m, w);
  }

  /** A policy is written onto a gateway only after the gateway's filter. */
  lemma FilterBeforeReference(s: ClusterState, d: Diff, p: ObjectKey, o: Order, m: nat, w: Write)
    requires d.left == [] && m <= |StagesPlan(s, d, p, o).writes|
    requires w in StagesPlan(s, d, p, o).writes[..m] && w.SetRefs?
    requires forall j :: j in FilterJobs(d, p) ==> j.refs != []
    ensures exists v :: v in StagesPlan(s, d, p, o).writes[..m] && v.PutFilter? && v.gateway == w.gateway
  {
    var derived := DerivedPlan(s, d, p, o);
    var l := LimitsPlan(s, d, p, o.entries);
    var s1 := ApplyAll(s, l.writes);
    var f := FilterPlan(s1, FilterJobs(d, p));
    StagesPlanWrites(s, d, p, o);
    StageRefWrites(s, d, p, o, w);
    EditWritesMembers(d.added, Addition(p));
    assert DeleteRefWrites(d.left, p) == [];
    var g :| g in d.added && w == SetRefs(g.key, Addition(p)(g.annotation));
    var i :| 0 <= i < |d.added| && d.added[i] == g;
    assert NewJobs(d.added, p)[i] in FilterJobs(d, p) && NewJobs(d.added, p)[i].gateway == g.key;
    FilterIsPut(s1, FilterJobs(d, p), NewJobs(d.added, p)[i]);
    var v :| v in f.writes && v.PutFilter? && v.gateway == g.key;
    var a := ArtefactPlan(s1, d, p, o.domains);
    assert v in a.writes && v in derived.writes;
    assert StagesPlan(s, d, p, o).writes == derived.writes + RefsPlan(d, p).writes;
    PrefixCovers(derived.writes, RefsPlan(d, p).writes, m, w);
  }

  // ----- a reconcile cut short -----

  /** The writes of the specification, as the invariants see them. */
  lemma SpecWriteIsFine(s: ClusterState, p: ObjectKey, o: Order, w: Write)
    requires LockInv(s) && Parseable(s) && p in s.policies && p in s.finalizers && Lists(o.listing, s.topo)
    requires w in SpecPlan(s, p, o).writes
    ensures w.SetBackRef? || Derived(w)
    ensures w.PutFilter? || w.PutPlugin? ==> Owned(s, w.gateway)
    ensures w.SetRefs? ==> !w.annotation.Malformed?
    ensures !w.DeleteFilter?
  {
    SpecWrites(s, p, o);
    if Derived(w) {
      var s1 := SpecStages(s, p, o, w);
      var targeted := TargetedBy(s, p).value;
      var d := DiffOf(s, p, targeted, o.listing);
      if Artefact(w) {
        StageArtefacts(s, s1, p, o, w);
      } else if w.SetRefs? {
        StageRefWrites(s1, d, p, o, w);
        EditedParses(s, p, targeted, o.listing, w);
      }
    }
  }

  lemma EditedParses(s: ClusterState, p: ObjectKey, targeted: seq<ObjectKey>, listing: seq<ObjectKey>, w: Write)
    requires Parseable(s) && Lists(listing, s.topo)
    requires w in RefsPlan(DiffOf(s, p, targeted, listing), p).writes && w.SetRefs?
    ensures !w.annotation.Malformed?
  {
    var d := DiffOf(s, p, targeted, listing);
    DiffMembers(s, p, targeted, listing);
    EditWritesMembers(d.left, Deletion(p));
    EditWritesMembers(d.added, Addition(p));
  }

  lemma SpecListsWithFilter(s: ClusterState, p: ObjectKey, o: Order, m: nat, g: ObjectKey)
    requires LockInv(s) && Parseable(s) && ListedHasFilter(s) && p in s.policies && p in s.finalizers
    requires Lists(o.listing, s.topo) && m <= |SpecPlan(s, p, o).writes| && g in s.topo.gateways
    ensures var t := ApplyAll(s, SpecPlan(s, p, o).writes[..m]); Refs(t, g) != [] ==> g in t.filters
  {
    var ws := SpecPlan(s, p, o).writes[..m];
    forall w | w in ws
      ensures !w.DeleteFilter?
    {
      SpecWriteIsFine(s, p, o, w);
    }
    if w :| w in ws && w.SetRefs? && w.gateway == g {
      SpecFilterFirst(s, p, o, m, w);
      FilterKept(s, ws, g);
    } else {
      AnnotationKept(s, ws, g);
      if Refs(s, g) != [] {
        FilterKept(s, ws, g);
      }
    }
  }

  lemma SpecFilterFirst(s: ClusterState, p: ObjectKey, o: Order, m: nat, w: Write)
    requires LockInv(s) && p in s.policies && Lists(o.listing, s.topo) && m <= |SpecPlan(s, p, o).writes|
    requires w in SpecPlan(s, p, o).writes[..m] && w.SetRefs?
    ensures exists v :: v in SpecPlan(s, p, o).writes[..m] && v.PutFilter? && v.gateway == w.gateway
  {
    assert w in SpecPlan(s, p, o).writes;
    var s1 := SpecStages(s, p, o, w);
    NothingIsLeft(s, p, o.listing);
    JobsAreTargeted(s, p, o.listing);
    var a := AcquirePlan(s, p).writes;
    var d := DiffOf(s, p, TargetedBy(s, p).value, o.listing);
    var stages := StagesPlan(s1, d, p, o).writes;
    PrefixSplit(a, stages, m, w);
    FilterBeforeReference(s1, d, p, o, m - |a|, w);
    var v :| v in stages[..m - |a|] && v.PutFilter? && v.gateway == w.gateway;
    assert v in SpecPlan(s, p, o).writes[..m];
  }

  /** Any prefix of the specification's writes. */
  lemma SpecPrefix(s: ClusterState, p: ObjectKey, o: Order, m: nat)
    requires Accountable(s) && p in s.policies && p in s.finalizers && Lists(o.listing, s.topo)
    requires m <= |SpecPlan(s, p, o).writes|
    ensures var t := ApplyAll(s, SpecPlan(s, p, o).writes[..m]);
      && t.policies == s.policies && s.finalizers <= t.finalizers
      && Parseable(t) && ArtefactsOwned(t) && ListedHasFilter(t)
  {
    var ws := SpecPlan(s, p, o).writes[..m];
    var t := ApplyAll(s, ws);
    forall w | w in ws
      ensures !w.RemoveFinalizer? && (w.PutFilter? || w.PutPlugin? ==> Owned(s, w.gateway))
      ensures w.SetRefs? ==> !w.annotation.Malformed?
    {
      assert w in SpecPlan(s, p, o).writes;
      SpecWriteIsFine(s, p, o, w);
    }
    ParseableApplied(s, ws);
    OwnedWritesApplied(s, ws, p);
    OwnedStays(s, t);
    forall g | g in t.topo.gateways
      ensures g in t.filters || g in t.plugins ==> Owned(t, g)
      ensures Refs(t, g) != [] ==> g in t.filters
    {
      OwnedWritesApplied(s, ws, g);
      SpecListsWithFilter(s, p, o, m, g);
    }
  }

  lemma FinalizerAdded(s: ClusterState, p: ObjectKey)
    requires Accountable(s) && p in s.policies
    ensures Accountable(s.(finalizers := s.finalizers + {p}))
  {
    var t := s.(finalizers := s.finalizers + {p});
    AddFinalizerSafe(s, p);
    assert Apply(s, AddFinalizer(p)) == t;
    OwnedStays(s, t);
    forall e: Entry | e.gateway in t.topo.gateways && Held(t)[e] > 0
      ensures Owned(t, e.gateway)
    {
      assert Held(s)[e] > 0;
    }
  }

  /** Whatever part of a reconcile happened, limits are held for owned gateways only. */
  lemma HeldAfterReconcile(s: ClusterState, p: ObjectKey, o: Order, n: nat)
    requires HeldIsOwned(s) && s.finalizers <= s.policies.Keys && Live(s, p) && NamesOk(s.topo) &&
        Lists(o.listing, s.topo)
    requires n <= |ReconcilePlan(s, p, o).writes| && FaithfulOrder(s, p, o, ReconcilePlan(s, p, o).writes[..n])
    requires var t := ApplyAll(s, ReconcilePlan(s, p, o).writes[..n]);
             t.policies == s.policies && s.finalizers <= t.finalizers && p in t.finalizers
    ensures HeldIsOwned(ApplyAll(s, ReconcilePlan(s, p, o).writes[..n]))
  {
    var t := ApplyAll(s, ReconcilePlan(s, p, o).writes[..n]);
    var d := RunDiff(s, p, o.listing);
    LimitsAllOrNothing(s, p, o, n);
    OwnedStays(s, t);
    forall e: Entry | e.gateway in t.topo.gateways && Held(t)[e] > 0
      ensures Owned(t, e.gateway)
    {
      if Held(s)[e] > 0 {
        assert Owned(s, e.gateway);
      } else {
        assert UpdatedCount(s, d, p, e) > 0;
        DiffKeys(s, p, if TargetedBy(s, p).Ok? then TargetedBy(s, p).value else [], o.listing, e.gateway);
        assert Targets(t, p, e.gateway);
      }
    }
  }

  lemma ReconcilePrefix(s: ClusterState, p: ObjectKey, o: Order, n: nat)
    requires Accountable(s) && Live(s, p) && NamesOk(s.topo) && Lists(o.listing, s.topo)
    requires n <= |ReconcilePlan(s, p, o).writes| && FaithfulOrder(s, p, o, ReconcilePlan(s, p, o).writes[..n])
    ensures Accountable(ApplyAll(s, ReconcilePlan(s, p, o).writes[..n]))
  {
    var ws := ReconcilePlan(s, p, o).writes;
    if n < |FinalizerPlan(s, p).writes| {
      assert ws[..n] == [];
    } else {
      ReconcileSafe(s, p, o);
      SafePrefix(s, ws, n);
      PrefixWithFinalizer(s, p, o, n);
      HeldAfterReconcile(s, p, o, n);
    }
  }

  /** What such a prefix leaves, once it has the finalizer. */
  lemma PrefixWithFinalizer(s: ClusterState, p: ObjectKey, o: Order, n: nat)
    requires Accountable(s) && Live(s, p) && Lists(o.listing, s.topo)
    requires |FinalizerPlan(s, p).writes| <= n <= |ReconcilePlan(s, p, o).writes|
    ensures var t := ApplyAll(s, ReconcilePlan(s, p, o).writes[..n]);
      && t.policies == s.policies && s.finalizers + {p} <= t.finalizers
      && Parseable(t) && ArtefactsOwned(t) && ListedHasFilter(t)
  {
    FinalizerAdded(s, p);
    PrefixOfSpec(s, p, o, n);
    SpecPrefix(s.(finalizers := s.finalizers + {p}), p, o, n - |FinalizerPlan(s, p).writes|);
  }

  /** It is a prefix of what follows the finalizer. */
  lemma PrefixOfSpec(s: ClusterState, p: ObjectKey, o: Order, n: nat)
    requires Live(s, p) && Lists(o.listing, s.topo)
    requires |FinalizerPlan(s, p).writes| <= n <= |ReconcilePlan(s, p, o).writes|
    ensures var s1 := s.(finalizers := s.finalizers + {p});
      var m := n - |FinalizerPlan(s, p).writes|;
      && m <= |SpecPlan(s1, p, o).writes|
      && ApplyAll(s, ReconcilePlan(s, p, o).writes[..n]) == ApplyAll(s1, SpecPlan(s1, p, o).writes[..m])
  {
    var f, s1 := FinalizerPlan(s, p), s.(finalizers := s.finalizers + {p});
    LivePlan(s, p, o);
    PrefixBeyond(s, s1, ReconcilePlan(s, p, o).writes, f.writes, SpecPlan(s1, p, o).writes, n);
  }

  lemma PrefixBeyond(s: ClusterState, s1: ClusterState, ws: seq<Write>, first: seq<Write>, rest: seq<Write>, n: nat)
    requires ws == first + rest && s1 == ApplyAll(s, first) && |first| <= n <= |ws|
    ensures ApplyAll(s, ws[..n]) == ApplyAll(s1, rest[..n - |first|])
  {
    assert ws[..n] == first + rest[..n - |first|];
    ApplyConcat(s, first, rest[..n - |first|]);
  }

  // ----- a finalize cut short -----

  lemma RemovalWrites(s: ClusterState, p: ObjectKey, o: Order, w: Write)
    requires Parseable(s) && p in s.policies && w in RemovePlan(s, FinalizeDiff(s, p).left, p, o).writes
    ensures Derived(w)
    ensures Artefact(w) ==> Withdrawn(s, p, w.gateway)
    ensures w.DeleteFilter? ==> Remaining(s, p, w.gateway) == []
    ensures w.SetRefs? ==> w in RefsPlan(FinalizeDiff(s, p), p).writes && !w.annotation.Malformed?
  {
    var left := FinalizeDiff(s, p).left;
    var r := RefsPlan(Diff([], [], left), p);
    var s1 := ApplyAll(s, r.writes);
    RemovePlanWrites(s, left, p, o);
    ThenWrites(r, WithdrawPlan(s1, Forget(left, p), p, o));
    EditWritesMembers(left, Deletion(p));
    if w in r.writes {
      assert w in DeleteRefWrites(left, p);
    } else {
      WithdrawalWrites(s, s1, p, o, w);
    }
  }

  lemma WithdrawalWrites(s: ClusterState, s1: ClusterState, p: ObjectKey, o: Order, w: Write)
    requires p in s.policies && w in WithdrawPlan(s1, Forget(FinalizeDiff(s, p).left, p), p, o).writes
    ensures !w.SetRefs?
    ensures Artefact(w) ==> Withdrawn(s, p, w.gateway)
    ensures w.DeleteFilter? ==> Remaining(s, p, w.gateway) == []
  {
    var left := Forget(FinalizeDiff(s, p).left, p);
    var jobs := FinalJobs(s, p);
    var a := WithdrawArtefactsPlan(s1, left, p, o.domains);
    var wasm := WasmPlan(s1, PluginJobs(jobs, o.domains));
    var filters := FilterPlan(ApplyAll(s1, wasm.writes), jobs);
    WithdrawPlanWrites(s1, left, p, o);
    ThenWrites(a, TolerantLimitsPlan(ApplyAll(s1, a.writes), left, p, o.entries));
    ThenWrites(wasm, filters);
    ForgottenJob(s, p, LeftKeys(s, p));
    PluginJobsMembers(s1, jobs, o.domains);
    if w in wasm.writes {
      PluginWriteGateways(s1, PluginJobs(jobs, o.domains), w);
    } else if w in filters.writes {
      FilterWriteGateways(ApplyAll(s1, wasm.writes), jobs, w);
    } else {
      LimitsPlanWrites(ApplyAll(s1, a.writes), Diff([], [], left), p, o.entries);
    }
  }

  /** The writes of a finalize other than its last, the removal of the finalizer. */
  lemma FinalizeWriteIsFine(s: ClusterState, p: ObjectKey, o: Order, w: Write)
    requires Parseable(s) && Leaving(s, p) && Lists(o.listing, s.topo)
    requires w in ReconcilePlan(s, p, o).writes && !w.RemoveFinalizer?
    ensures w.PutFilter? || w.PutPlugin? ==> Owned(s, w.gateway)
    ensures w.DeleteFilter? ==> Withdrawn(s, p, w.gateway) && Remaining(s, p, w.gateway) == []
    ensures w.SetRefs? ==> w in RefsPlan(FinalizeDiff(s, p), p).writes && !w.annotation.Malformed?
    ensures !w.AddFinalizer?
  {
    FinalizeWriteCases(s, p, o, w);
    if w in RemovePlan(s, FinalizeDiff(s, p).left, p, o).writes {
      RemovalWrites(s, p, o, w);
      if Artefact(w) {
        assert Targets(s, p, w.gateway);
      }
    }
  }

  lemma FinalizeWriteCases(s: ClusterState, p: ObjectKey, o: Order, w: Write)
    requires Leaving(s, p) && Lists(o.listing, s.topo) && w in ReconcilePlan(s, p, o).writes
    ensures w in RemovePlan(s, FinalizeDiff(s, p).left, p, o).writes || w.ClearBackRef? || w.RemoveFinalizer?
  {
    FinalizeWrites(s, p, o);
  }

  lemma ReferencesGoFirst(s: ClusterState, p: ObjectKey, o: Order) returns (rest: seq<Write>)
    requires Leaving(s, p) && Lists(o.listing, s.topo)
    ensures ReconcilePlan(s, p, o).writes == [] ||
            ReconcilePlan(s, p, o).writes == RefsPlan(FinalizeDiff(s, p), p).writes + rest
  {
    var left := FinalizeDiff(s, p).left;
    FinalizeWrites(s, p, o);
    rest := Regrouped(ReconcilePlan(s, p, o).writes, RemovePlan(s, left, p, o).writes,
                      ReleasePlan(s, p).writes + [RemoveFinalizer(p)],
                      RefsPlan(FinalizeDiff(s, p), p).writes, RemovalRest(s, left, p, o));
  }

  lemma Regrouped(ws: seq<Write>, m: seq<Write>, ending: seq<Write>, r: seq<Write>, rest: seq<Write>)
    returns (y: seq<Write>)
    requires m == r + rest && (ws == [] || ws == m || ws == m + ending)
    ensures ws == [] || ws == r + y
  {
    y := if ws == m then rest else rest + ending;
    assert (r + rest) + ending == r + (rest + ending);
  }

  ghost function RemovalRest(s: ClusterState, left: seq<Snapshot>, p: ObjectKey, o: Order): (rest: seq<Write>)
    ensures RemovePlan(s, left, p, o).writes == RefsPlan(Diff([], [], left), p).writes + rest
  {
    WithdrawPlan(ApplyAll(s, RefsPlan(Diff([], [], left), p).writes), Forget(left, p), p, o).writes
  }

  /** References go first: a filter is deleted only once they are gone. */
  lemma DeletedAfterReferences(s: ClusterState, p: ObjectKey, o: Order, n: nat, w: Write)
    requires Leaving(s, p) && Lists(o.listing, s.topo) && n <= |ReconcilePlan(s, p, o).writes|
    requires w in ReconcilePlan(s, p, o).writes[..n] && w.DeleteFilter?
    ensures forall v :: v in RefsPlan(FinalizeDiff(s, p), p).writes ==> v in ReconcilePlan(s, p, o).writes[..n]
  {
    RefWritesOnly(FinalizeDiff(s, p).left, p);
    var rest := ReferencesGoFirst(s, p, o);
    PrefixCovers(RefsPlan(FinalizeDiff(s, p), p).writes, rest, n, w);
  }

  lemma {:induction false} SameEditsSameAnnotation(s: ClusterState, a: seq<Write>, b: seq<Write>, g: ObjectKey)
    requires forall w :: w in a && w.SetRefs? && w.gateway == g ==> w in b
    requires forall w :: w in b && w.SetRefs? && w.gateway == g ==> w in a
    requires forall v, w :: v in a && w in a && v.SetRefs? && w.SetRefs? && v.gateway == g && w.gateway == g ==> v == w
    ensures Ann(ApplyAll(s, a), g) == Ann(ApplyAll(s, b), g)
  {
    if w :| w in a && w.SetRefs? && w.gateway == g {
      WrittenAnnotation(s, a, w);
      WrittenAnnotation(s, b, w);
    } else {
      AnnotationKept(s, a, g);
      AnnotationKept(s, b, g);
    }
  }

  /** If every write to a gateway's references is the same, that is what is stored. */
  lemma {:induction false} WrittenAnnotation(s: ClusterState, ws: seq<Write>, w: Write)
    requires w in ws && w.SetRefs? && forall v :: v in ws && v.SetRefs? && v.gateway == w.gateway ==> v == w
    ensures Ann(ApplyAll(s, ws), w.gateway) == w.annotation
    decreases |ws|
  {
    var init, last := ws[..|ws| - 1], ws[|ws| - 1];
    assert ws == init + [last] && last in ws;
    assert forall v :: v in init ==> v in ws;
    ApplyConcat(s, init, [last]);
    ApplyOne(ApplyAll(s, init), last);
    AnnotationAfter(ApplyAll(s, init), last, w.gateway);
    if last != w {
      assert w in init;
      WrittenAnnotation(s, init, w);
    }
  }

  /** All removals from one gateway write the same list, even if it is fetched twice. */
  lemma OneRemoval(s: ClusterState, p: ObjectKey, v: Write, w: Write)
    requires p in s.policies
    requires v in RefsPlan(FinalizeDiff(s, p), p).writes && w in RefsPlan(FinalizeDiff(s, p), p).writes
    requires v.SetRefs? && w.SetRefs? && v.gateway == w.gateway
    ensures v == w
  {
    var left := FinalizeDiff(s, p).left;
    EditWritesMembers(left, Deletion(p));
    assert RefsPlan(FinalizeDiff(s, p), p).writes == DeleteRefWrites(left, p);
    var g :| g in left && v == SetRefs(g.key, DeleteRef(g.annotation, p));
    var h :| h in left && w == SetRefs(h.key, DeleteRef(h.annotation, p));
  }

  lemma CutFinalizeRefs(s: ClusterState, p: ObjectKey, o: Order, n: nat)
    requires Parseable(s) && Leaving(s, p) && Lists(o.listing, s.topo) && n <= |ReconcilePlan(s, p, o).writes|
    requires forall w :: w in ReconcilePlan(s, p, o).writes[..n] ==> !w.RemoveFinalizer?
    ensures forall w :: w in ReconcilePlan(s, p, o).writes[..n] ==>
      w in ReconcilePlan(s, p, o).writes && (w.SetRefs? ==> w in RefsPlan(FinalizeDiff(s, p), p).writes)
  {
    forall w | w in ReconcilePlan(s, p, o).writes[..n]
      ensures w in ReconcilePlan(s, p, o).writes && (w.SetRefs? ==> w in RefsPlan(FinalizeDiff(s, p), p).writes)
    {
      FinalizeWriteIsFine(s, p, o, w);
    }
  }

  /** A filter is deleted only once the gateway lists nobody. */
  lemma UnlistedWithoutFilter(s: ClusterState, p: ObjectKey, o: Order, n: nat, g: ObjectKey, w: Write)
    requires LockInv(s) && Parseable(s) && Leaving(s, p) && Lists(o.listing, s.topo)
    requires n <= |ReconcilePlan(s, p, o).writes| && g in s.topo.gateways
    requires forall v :: v in ReconcilePlan(s, p, o).writes[..n] ==> !v.RemoveFinalizer?
    requires w in ReconcilePlan(s, p, o).writes[..n] && w.DeleteFilter? && w.gateway == g
    ensures Refs(ApplyAll(s, ReconcilePlan(s, p, o).writes[..n]), g) == []
  {
    CutFinalizeRefs(s, p, o, n);
    FinalizeWriteIsFine(s, p, o, w);
    DeletedAfterReferences(s, p, o, n, w);
    RemovedCompletely(s, p, ReconcilePlan(s, p, o).writes[..n], g);
    assert ListedRightly(s, g, Refs(s, g));
    RemoveFromDistinct(Refs(s, g), p);
    AbsentRemains(RefKeys(DeleteRef(Ann(s, g), p)), p);
  }

  lemma FinalizeListsWithFilter(s: ClusterState, p: ObjectKey, o: Order, n: nat, g: ObjectKey)
    requires LockInv(s) && Parseable(s) && ListedHasFilter(s) && Leaving(s, p) && Lists(o.listing, s.topo)
    requires n <= |ReconcilePlan(s, p, o).writes| && g in s.topo.gateways
    requires forall w :: w in ReconcilePlan(s, p, o).writes[..n] ==> !w.RemoveFinalizer?
    ensures var t := ApplyAll(s, ReconcilePlan(s, p, o).writes[..n]); Refs(t, g) != [] ==> g in t.filters
  {
    var ws := ReconcilePlan(s, p, o).writes[..n];
    CutFinalizeRefs(s, p, o, n);
    ListedBefore(s, p, ws, g);
    if w :| w in ws && w.DeleteFilter? && w.gateway == g {
      UnlistedWithoutFilter(s, p, o, n, g, w);
    } else if Refs(s, g) != [] {
      FilterKept(s, ws, g);
    }
  }

  lemma AbsentRemains(keys: seq<ObjectKey>, p: ObjectKey)
    requires p !in keys
    ensures RemoveFirst(keys, p) == keys
  {
  }

  /** Removals alone never make an empty list non-empty. */
  lemma ListedBefore(s: ClusterState, p: ObjectKey, ws: seq<Write>, g: ObjectKey)
    requires p in s.policies && forall w :: w in ws && w.SetRefs? ==> w in RefsPlan(FinalizeDiff(s, p), p).writes
    ensures Refs(ApplyAll(s, ws), g) != [] ==> Refs(s, g) != []
  {
    if w :| w in ws && w.SetRefs? && w.gateway == g {
      forall v | v in ws && v.SetRefs? && v.gateway == g
        ensures v == w
      {
        OneRemoval(s, p, v, w);
      }
      WrittenAnnotation(s, ws, w);
      EditWritesMembers(FinalizeDiff(s, p).left, Deletion(p));
    } else {
      AnnotationKept(s, ws, g);
    }
  }

  lemma RemovedCompletely(s: ClusterState, p: ObjectKey, ws: seq<Write>, g: ObjectKey)
    requires p in s.policies && Withdrawn(s, p, g)
    requires forall w :: w in ws && w.SetRefs? ==> w in RefsPlan(FinalizeDiff(s, p), p).writes
    requires forall w :: w in RefsPlan(FinalizeDiff(s, p), p).writes ==> w in ws
    ensures Ann(ApplyAll(s, ws), g) == DeleteRef(Ann(s, g), p)
  {
    var r := RefsPlan(FinalizeDiff(s, p), p).writes;
    forall v, w | v in ws && w in ws && v.SetRefs? && w.SetRefs? && v.gateway == g && w.gateway == g
      ensures v == w
    {
      OneRemoval(s, p, v, w);
    }
    SameEditsSameAnnotation(s, ws, r, g);
    RemovedRefs(s, p, g);
  }

  lemma FinalizePrefix(s: ClusterState, p: ObjectKey, o: Order, n: nat)
    requires Accountable(s) && Leaving(s, p) && Lists(o.listing, s.topo)
    requires n <= |ReconcilePlan(s, p, o).writes| && FaithfulOrder(s, p, o, ReconcilePlan(s, p, o).writes[..n])
    requires forall w :: w in ReconcilePlan(s, p, o).writes[..n] ==> !w.RemoveFinalizer?
    ensures var t := ApplyAll(s, ReconcilePlan(s, p, o).writes[..n]);
      Parseable(t) && HeldIsOwned(t) && ArtefactsOwned(t) && ListedHasFilter(t)
  {
    var ws := ReconcilePlan(s, p, o).writes[..n];
    var t := ApplyAll(s, ws);
    forall w | w in ws
      ensures !w.RemoveFinalizer? && (w.PutFilter? || w.PutPlugin? ==> Owned(s, w.gateway))
      ensures w.SetRefs? ==> !w.annotation.Malformed?
    {
      assert w in ReconcilePlan(s, p, o).writes;
      FinalizeWriteIsFine(s, p, o, w);
    }
    ParseableApplied(s, ws);
    OwnedWritesApplied(s, ws, p);
    OwnedStays(s, t);
    forall g | g in t.topo.gateways
      ensures g in t.filters || g in t.plugins ==> Owned(t, g)
      ensures Refs(t, g) != [] ==> g in t.filters
    {
      OwnedWritesApplied(s, ws, g);
      FinalizeListsWithFilter(s, p, o, n, g);
    }
    HeldAfterFinalizePrefix(s, p, o, n);
  }

  lemma HeldAfterFinalizePrefix(s: ClusterState, p: ObjectKey, o: Order, n: nat)
    requires HeldIsOwned(s) && s.finalizers <= s.policies.Keys && Leaving(s, p) && Lists(o.listing, s.topo)
    requires n <= |ReconcilePlan(s, p, o).writes| && FaithfulOrder(s, p, o, ReconcilePlan(s, p, o).writes[..n])
    requires var t := ApplyAll(s, ReconcilePlan(s, p, o).writes[..n]);
             t.policies == s.policies && s.finalizers <= t.finalizers
    ensures HeldIsOwned(ApplyAll(s, ReconcilePlan(s, p, o).writes[..n]))
  {
    var t := ApplyAll(s, ReconcilePlan(s, p, o).writes[..n]);
    LimitsAllOrNothing(s, p, o, n);
    OwnedStays(s, t);
    forall e: Entry | e.gateway in t.topo.gateways && Held(t)[e] > 0
      ensures Owned(t, e.gateway)
    {
      assert Held(s)[e] > 0;
    }
  }

  /** A completed finalize gives up what only its policy owned. */
  lemma FinalizedIsAccountable(s: ClusterState, p: ObjectKey, t: ClusterState)
    requires Accountable(s) && p in s.policies && FinalizeEffect(s, p, t) && LockInv(t)
    ensures Accountable(t)
  {
    forall g | g in t.topo.gateways
      ensures !Ann(t, g).Malformed?
      ensures g in t.filters || g in t.plugins ==> Owned(t, g)
      ensures Refs(t, g) != [] ==> g in t.filters
    {
      assert WithdrawnArtefactsAt(s, p, g, t);
      assert ListedRightly(s, g, Refs(s, g)) && ListedRightly(t, g, Refs(t, g));
      ListedIsOwned(t, g);
      RemoveFromDistinct(Refs(s, g), p);
      if Withdrawn(s, p, g) {
        assert Ann(t, g) == DeleteRef(Ann(s, g), p);
        RemoveFromDistinct(RefKeys(DeleteRef(Ann(s, g), p)), p);
        AbsentRemains(Refs(t, g), p);
      } else {
        OtherOwner(s, p, t, g);
      }
    }
    forall e: Entry | e.gateway in t.topo.gateways && Held(t)[e] > 0
      ensures Owned(t, e.gateway)
    {
      OtherOwner(s, p, t, e.gateway);
    }
  }

  lemma ListedIsOwned(t: ClusterState, g: ObjectKey)
    requires LockInv(t) && ListedRightly(t, g, Refs(t, g))
    ensures Refs(t, g) != [] ==> Owned(t, g)
  {
    if Refs(t, g) != [] {
      var k := Refs(t, g)[0];
      assert k in Refs(t, g) && Owns(t, k) && Targets(t, k, g);
      assert Recorded(t, TargetOf(t, k).value, k);
    }
  }

  lemma OtherOwner(s: ClusterState, p: ObjectKey, t: ClusterState, g: ObjectKey)
    requires p in s.policies && FinalizeEffect(s, p, t) && g in s.topo.gateways && !Withdrawn(s, p, g)
    requires s.finalizers <= s.policies.Keys
    ensures Owned(s, g) ==> Owned(t, g)
  {
    if Owned(s, g) {
      var q :| q in s.finalizers && Targets(s, q, g);
      assert q != p;
      assert Targets(t, q, g);
    }
  }

  lemma FinalizeAccountable(s: ClusterState, p: ObjectKey, o: Order, n: nat)
    requires Accountable(s) && Leaving(s, p) && Lists(o.listing, s.topo)
    requires n <= |ReconcilePlan(s, p, o).writes| && FaithfulOrder(s, p, o, ReconcilePlan(s, p, o).writes[..n])
    requires LockInv(ApplyAll(s, ReconcilePlan(s, p, o).writes[..n]))
    ensures Accountable(ApplyAll(s, ReconcilePlan(s, p, o).writes[..n]))
  {
    var ws := ReconcilePlan(s, p, o).writes;
    if w :| w in ws[..n] && w.RemoveFinalizer? {
      FinalizerGoesLast(s, p, o, n, w);
      assert ws[..n] == ws;
      FinalizeHasEffect(s, p, o);
      FinalizedIsAccountable(s, p, After(s, p, o));
    } else {
      FinalizePrefix(s, p, o, n);
    }
  }

  lemma FinalizerGoesLast(s: ClusterState, p: ObjectKey, o: Order, n: nat, w: Write)
    requires Leaving(s, p) && Lists(o.listing, s.topo) && n <= |ReconcilePlan(s, p, o).writes|
    requires w in ReconcilePlan(s, p, o).writes[..n] && w.RemoveFinalizer?
    ensures n == |ReconcilePlan(s, p, o).writes| && ReconcilePlan(s, p, o).err.None?
  {
    assert w in ReconcilePlan(s, p, o).writes;
    var init := FinalizerIsLast(s, p, o, w);
    PrefixSplit(init, [w], n, w);
  }

  lemma FinalizerIsLast(s: ClusterState, p: ObjectKey, o: Order, w: Write) returns (init: seq<Write>)
    requires Leaving(s, p) && Lists(o.listing, s.topo)
    requires w in ReconcilePlan(s, p, o).writes && w.RemoveFinalizer?
    ensures w !in init && ReconcilePlan(s, p, o).writes == init + [w] && ReconcilePlan(s, p, o).err.None?
  {
    var removed := RemovePlan(s, FinalizeDiff(s, p).left, p, o).writes;
    var release := ReleasePlan(s, p).writes;
    FinalizeWrites(s, p, o);
    RemovePlanWrites(s, FinalizeDiff(s, p).left, p, o);
    ReleaseOnly(s, p, w);
    init := removed + release;
    LastOf(ReconcilePlan(s, p, o).writes, removed, release, RemoveFinalizer(p), w);
  }

  lemma ReleaseOnly(s: ClusterState, p: ObjectKey, w: Write)
    requires p in s.policies && w.RemoveFinalizer?
    ensures w !in ReleasePlan(s, p).writes
  {
  }

  lemma LastOf(ws: seq<Write>, a: seq<Write>, b: seq<Write>, last: Write, w: Write)
    requires ws == [] || ws == a || ws == a + (b + [last])
    requires w in ws && w !in a && w !in b
    ensures ws != [] && ws != a && w == last && w !in a + b && ws == (a + b) + [w]
  {
  }

  // ----- whole runs -----

  /** A valid run in which every attempt visits Go's maps in a possible order. */
  ghost predicate FaithfulRun(s: ClusterState, steps: seq<Step>)
    decreases |steps|
  {
    steps != [] ==>
      && Enabled(s, steps[0]) && ReleasesSafely(s, steps[0])
      && (steps[0].Run? ==>
            FaithfulOrder(s, steps[0].key, steps[0].order,
                          ReconcilePlan(s, steps[0].key, steps[0].order).writes[..steps[0].done]))
      && FaithfulRun(Next(s, steps[0]), steps[1..])
  }

  lemma {:induction false} FaithfulIsValid(s: ClusterState, steps: seq<Step>)
    requires FaithfulRun(s, steps)
    ensures ValidRun(s, steps)
    decreases |steps|
  {
    if steps != [] {
      FaithfulIsValid(Next(s, steps[0]), steps[1..]);
    }
  }

  lemma UserStepAccountable(s: ClusterState, t: ClusterState)
    requires Accountable(s) && LockInv(t) && t == s.(policies := t.policies, deleting := t.deleting)
    requires forall p :: p in s.finalizers ==> p in t.policies && t.policies[p].targetRef == s.policies[p].targetRef
    ensures Accountable(t)
  {
    OwnedStays(s, t);
    forall e: Entry | e.gateway in t.topo.gateways && Held(t)[e] > 0
      ensures Owned(t, e.gateway)
    {
      assert Held(s)[e] > 0;
    }
  }

  lemma StepAccountable(s: ClusterState, step: Step)
    requires Accountable(s) && NamesOk(s.topo) && Enabled(s, step) && ReleasesSafely(s, step)
    requires step.Run? ==> FaithfulOrder(s, step.key, step.order,
        ReconcilePlan(s, step.key, step.order).writes[..step.done])
    ensures Accountable(Next(s, step))
  {
    StepSafe(s, step);
    if step.Run? {
      if Live(s, step.key) {
        ReconcilePrefix(s, step.key, step.order, step.done);
      } else if Leaving(s, step.key) {
        FinalizeAccountable(s, step.key, step.order, step.done);
      }
    } else {
      UserStepAccountable(s, Next(s, step));
    }
  }

  /** Along every run, wherever reconciles and finalizes are cut short: annotations
      parse, limits, filters and plugins sit on owned gateways only, and nobody is
      listed on a gateway without a filter. */
  lemma {:induction false} RunsAreAccountable(s: ClusterState, steps: seq<Step>)
    requires Accountable(s) && NamesOk(s.topo) && FaithfulRun(s, steps)
    ensures ValidRun(s, steps) && Accountable(EndOf(s, steps))
    decreases |steps|
  {
    FaithfulIsValid(s, steps);
    if steps != [] {
      StepAccountable(s, steps[0]);
      RunsAreAccountable(Next(s, steps[0]), steps[1..]);
    }
  }

  lemma AccountableIsStart(t: ClusterState)
    requires Accountable(t) && NamesOk(t.topo) && t.deleting == {}
    ensures Start(t) && ArtefactsStart(t)
  {
    forall g | g in t.topo.gateways
      ensures NoDuplicates(Refs(t, g)) && forall p :: p in Refs(t, g) ==> p in t.policies
      ensures Idle(t, g) ==> !Owned(t, g)
      ensures ArtefactsExpected(t, g)
    {
      assert ListedRightly(t, g, Refs(t, g));
    }
  }

  /** A cluster no controller has touched: no limits, filters or plugins yet for its gateways. */
  ghost predicate Pristine(s: ClusterState) {
    && Untouched(s) && (forall e: Entry :: e.gateway in s.topo.gateways ==> Held(s)[e] == 0)
    && forall g :: g in s.topo.gateways ==> g !in s.filters && g !in s.plugins
  }

  /** However reconciles and finalizes were interrupted since the cluster was pristine,
      once no policy is being deleted two rounds of completed reconciles, each in any
      order, settle references, limits, filters and plugins. */
  lemma InterruptedRunsConverge(s: ClusterState, steps: seq<Step>, first: seq<Event>, second: seq<Event>)
    requires Pristine(s) && NamesOk(s.topo) && ValidRun(s, steps) && FaithfulRun(s, steps)
    requires var t := EndOf(s, steps);
      && t.deleting == {}
      && AllComplete(t, first) && Round(first, t)
      && AllComplete(RunEvents(t, first), second) && Round(second, t)
    ensures var u := RunEvents(RunEvents(EndOf(s, steps), first), second);
      Converged(u) && ArtefactsConverged(u)
  {
    UntouchedIsSafe(s);
    RunsAreAccountable(s, steps);
    var t := EndOf(s, steps);
    AccountableIsStart(t);
    TwoRoundsConverge(t, first, second);
    TwoRoundsSettleArtefacts(t, first, second);
  }
}

/** A reconcile repeated right after it completed: everything but the order inside the
    plugins is in place, so plugins are all it may still write. */
module SecondRun {
  import opened Cluster
  import opened Common
  import opened Convergence
  import opened Effects
  import opened GatewayRefs
  import opened Merging
  import opened Plans
  import opened WasmPlugins

  // ----- plugins that hold the right policies already -----

  /** Every gateway of the jobs has a plugin with the policies its references ask for,
      and each is considered once, its domains visited in a possible order. */
  ghost predicate InPlace(s: ClusterState, jobs: seq<PluginJob>) {
    && (forall pj :: pj in jobs ==>
          pj.job.refs != [] && PluginMatches(s, pj.job, s) && VisitsJob(s, pj.job, pj.domains))
    && forall i, j :: 0 <= i < j < |jobs| ==> jobs[i].job.gateway != jobs[j].job.gateway
  }

  /** The write replaces a plugin by the same policies in another order. */
  ghost predicate Reorders(s: ClusterState, w: Write) {
    && w.PutPlugin? && w.gateway in s.plugins
    && w.plugin != s.plugins[w.gateway] && multiset(w.plugin) == multiset(s.plugins[w.gateway])
  }

  lemma DesiredIsPermutation(s: ClusterState, pj: PluginJob)
    requires pj.job.refs != [] && PluginMatches(s, pj.job, s) && VisitsJob(s, pj.job, pj.domains)
    ensures multiset(DesiredPlugin(s, pj)) == multiset(s.plugins[pj.job.gateway])
  {
    VisitedPolicies(pj.job.gateway, PluginParts(s, pj.job), pj.domains);
    SameMembersSameMultiset(DesiredPlugin(s, pj), s.plugins[pj.job.gateway]);
  }

  lemma StepReorders(s: ClusterState, jobs: seq<PluginJob>)
    requires jobs != [] && InPlace(s, jobs)
    ensures var step := WasmStep(s, jobs[0]);
            var t := ApplyAll(s, step.writes);
      && step.err.None? && (forall w :: w in step.writes ==> Reorders(s, w))
      && InPlace(t, jobs[1..])
      && forall pj :: pj in jobs[1..] ==> SamePluginAt(s, t, pj.job.gateway)
  {
    var step := WasmStep(s, jobs[0]);
    assert jobs[0] in jobs;
    DesiredIsPermutation(s, jobs[0]);
    WasmStepApplied(s, jobs[0]);
    RestInPlace(s, ApplyAll(s, step.writes), jobs);
  }

  lemma RestInPlace(s: ClusterState, t: ClusterState, jobs: seq<PluginJob>)
    requires jobs != [] && InPlace(s, jobs) && t == s.(plugins := t.plugins)
    requires forall g :: g != jobs[0].job.gateway ==> SamePluginAt(s, t, g)
    ensures InPlace(t, jobs[1..])
    ensures forall pj :: pj in jobs[1..] ==> SamePluginAt(s, t, pj.job.gateway)
  {
    var rest := jobs[1..];
    assert forall i :: 0 <= i < |rest| ==> rest[i] == jobs[i + 1];
    forall pj | pj in rest
      ensures pj.job.refs != [] && PluginMatches(t, pj.job, t) && VisitsJob(t, pj.job, pj.domains)
      ensures SamePluginAt(s, t, pj.job.gateway)
    {
      var i :| 0 <= i < |rest| && rest[i] == pj;
      assert jobs[0].job.gateway != jobs[i + 1].job.gateway;
      MatchesStay(s, t, pj);
    }
  }

  lemma MatchesStay(s: ClusterState, t: ClusterState, pj: PluginJob)
    requires t == s.(plugins := t.plugins) && SamePluginAt(s, t, pj.job.gateway)
    requires PluginMatches(s, pj.job, s) && VisitsJob(s, pj.job, pj.domains)
    ensures PluginMatches(t, pj.job, t) && VisitsJob(t, pj.job, pj.domains)
  {
  }

  lemma {:induction false} PluginsReorder(s: ClusterState, jobs: seq<PluginJob>)
    requires InPlace(s, jobs)
    ensures var plan := WasmPlan(s, jobs); plan.err.None? && forall w :: w in plan.writes ==> Reorders(s, w)
    decreases |jobs|
  {
    if jobs != [] {
      var t := ApplyAll(s, WasmStep(s, jobs[0]).writes);
      var rest := jobs[1..];
      StepReorders(s, jobs);
      PluginsReorder(t, rest);
      forall w | w in WasmPlan(t, rest).writes
        ensures Reorders(s, w)
      {
        assert Reorders(t, w);
        WritesOfJobs(t, rest, w);
        var pj :| pj in rest && pj.job.gateway == w.gateway;
        assert SamePluginAt(s, t, pj.job.gateway);
      }
    }
  }

  lemma {:induction false} WritesOfJobs(s: ClusterState, jobs: seq<PluginJob>, w: Write)
    requires w in WasmPlan(s, jobs).writes && w.PutPlugin?
    ensures exists pj :: pj in jobs && pj.job.gateway == w.gateway
    decreases |jobs|
  {
    var step := WasmStep(s, jobs[0]);
    assert jobs[0] in jobs && forall pj :: pj in jobs[1..] ==> pj in jobs;
    if w !in step.writes {
      WritesOfJobs(ApplyAll(s, step.writes), jobs[1..], w);
    }
  }

  ghost predicate VisitedAsStored(s: ClusterState, pj: PluginJob) {
    && MergeError(s.policies, s.topo.routes, pj.job.refs).None?
    && pj.job.gateway in s.plugins && s.plugins[pj.job.gateway] == DesiredPlugin(s, pj)
  }

  /** Nothing is written exactly when every order visited is the one stored. */
  lemma {:induction false} NoReorderIff(s: ClusterState, jobs: seq<PluginJob>)
    requires InPlace(s, jobs)
    ensures WasmPlan(s, jobs) == DONE <==> forall pj :: pj in jobs ==> VisitedAsStored(s, pj)
    decreases |jobs|
  {
    if jobs != [] {
      var step := WasmStep(s, jobs[0]);
      StepReorders(s, jobs);
      assert jobs[0] in jobs && forall pj :: pj in jobs <==> pj == jobs[0] || pj in jobs[1..];
      if step.writes == [] {
        NoReorderIff(s, jobs[1..]);
      }
    }
  }

  // ----- the second run -----

  /** The second run, reduced to its plugin stage on the gateways that stay. */
  ghost function StayingJobs(t: ClusterState, p: ObjectKey, o: Order): seq<PluginJob>
    requires p in t.policies && TargetedBy(t, p).Ok? && Lists(o.listing, t.topo)
  {
    PluginJobs(SameJobs(DiffOf(t, p, TargetedBy(t, p).value, o.listing).same), o.domains)
  }

  lemma OnlyPluginsLeft(s: ClusterState, d: Diff, p: ObjectKey, o: Order)
    requires d.added == [] && d.left == [] && s.limitador.Some? && LimitsSettled(s, d, p)
    requires forall g :: g in d.same ==> MergeError(s.policies, s.topo.routes, RefKeys(g.annotation)).None?
    ensures StagesPlan(s, d, p, o) == WasmPlan(s, PluginJobs(SameJobs(d.same), o.domains))
  {
    NoMergeErrors(s, d.same);
    assert FilterJobs(d, p) == [] && WasmJobs(d, p) == SameJobs(d.same);
    assert LimitsPlan(s, d, p, o.entries) == DONE;
    var w := WasmPlan(s, PluginJobs(SameJobs(d.same), o.domains));
    assert [] + w.writes == w.writes;
    assert ArtefactPlan(s, d, p, o.domains) == w;
    assert DerivedPlan(s, d, p, o) == w;
    assert RefsPlan(d, p) == DONE && w.writes + [] == w.writes;
  }

  lemma SecondSpec(s: ClusterState, t: ClusterState, p: ObjectKey, o: Order, o': Order)
    requires Live(s, p) && Completed(s, p, o) && TargetOf(s, p).Ok?
    requires t == Locked(s, p).(refs := t.refs, limitador := t.limitador, filters := t.filters, plugins := t.plugins)
    requires Lists(o'.listing, t.topo)
    ensures ReconcilePlan(t, p, o') == DiffPlan(t, p, o')
  {
    assert AcquirePlan(t, p) == DONE;
    assert HostsError(t, p) == HostsError(s, p);
    assert ApplyAll(t, []) == t;
    var plan := DiffPlan(t, p, o');
    assert [] + plan.writes == plan.writes;
  }

  lemma SameSnapshotMatches(s: ClusterState, p: ObjectKey, t: ClusterState, listing: seq<ObjectKey>, g: Snapshot)
    requires p in s.policies && TargetOf(s, p).Ok? && TargetedBy(s, p).Ok?
    requires RefsOk(s) && GatewayEffect(s, p, t) && Lists(listing, t.topo)
    requires g in DiffOf(t, p, TargetedBy(s, p).value, listing).same
    ensures PluginMatches(t, SameJob(g), t) && RefKeys(g.annotation) != []
    ensures g.key in s.topo.gateways && g.key in TargetedBy(s, p).value
    ensures SameJob(g) == JobAt(s, p, TargetedBy(s, p).value, g.key)
  {
    var targeted := TargetedBy(s, p).value;
    DiffMembers(t, p, targeted, listing);
    SelectMembers(SnapshotsOf(t, listing), SameFilter(p, targeted));
    EditedRefs(s, p, targeted, g.key);
    assert Ann(t, g.key) == EditedAnn(s, p, targeted, g.key);
    assert SameJob(g) == JobAt(s, p, targeted, g.key);
    assert ArtefactsAt(s, p, targeted, g.key, t);
    MatchesTransfer(t, s, SameJob(g), t);
  }

  /** After a completed reconcile a second one has no new and no left gateways, finds
      the limits settled, and comes down to the plugins of the gateways that stay,
      which hold the right policies. */
  lemma SecondRunShape(s: ClusterState, p: ObjectKey, o: Order, o': Order)
    requires Live(s, p) && Completed(s, p, o) && NamesOk(s.topo) && RefsOk(s)
    requires FaithfulOrder(After(s, p, o), p, o', [])
    ensures var t := After(s, p, o);
      && Lists(o'.listing, t.topo) && p in t.policies && TargetedBy(t, p).Ok?
      && DiffOf(t, p, TargetedBy(t, p).value, o'.listing).added == []
      && DiffOf(t, p, TargetedBy(t, p).value, o'.listing).left == []
      && ReconcilePlan(t, p, o') == WasmPlan(t, StayingJobs(t, p, o')) && InPlace(t, StayingJobs(t, p, o'))
  {
    var t := After(s, p, o);
    ReconcileEffect(s, p, o);
    EffectKeepsRefsOk(s, p, t);
    var targeted := TargetedBy(s, p).value;
    forall g | g in t.topo.gateways && g in targeted
      ensures MergedHeld(t, g)
    {
      EffectMerges(s, p, t, g);
    }
    NothingToDo(t, p, o'.listing);
    var d := DiffOf(t, p, targeted, o'.listing);
    forall g | g in d.same
      ensures PluginMatches(t, SameJob(g), t) && RefKeys(g.annotation) != []
    {
      SameSnapshotMatches(s, p, t, o'.listing, g);
    }
    OnlyPluginsLeft(t, d, p, o');
    SecondSpec(s, t, p, o, o');
    StayingInPlace(t, p, o');
  }

  lemma StayingInPlace(t: ClusterState, p: ObjectKey, o: Order)
    requires p in t.policies && TargetedBy(t, p).Ok? && Lists(o.listing, t.topo)
    requires var d := DiffOf(t, p, TargetedBy(t, p).value, o.listing);
      && d.added == d.left == [] && VisitsJobs(t, WasmJobs(d, p), o.domains)
      && forall g :: g in d.same ==> PluginMatches(t, SameJob(g), t) && RefKeys(g.annotation) != []
    ensures InPlace(t, StayingJobs(t, p, o))
  {
    var targeted := TargetedBy(t, p).value;
    var d := DiffOf(t, p, targeted, o.listing);
    var jobs := SameJobs(d.same);
    assert WasmJobs(d, p) == jobs;
    var items := SnapshotsOf(t, o.listing);
    assert DistinctKeys(items);
    SelectDistinct(items, SameFilter(p, targeted));
    SameJobsInPlace(t, d.same, o.domains);
  }

  lemma SameJobsInPlace(t: ClusterState, same: seq<Snapshot>, domains: seq<seq<string>>)
    requires DistinctKeys(same) && VisitsJobs(t, SameJobs(same), domains)
    requires forall g :: g in same ==> PluginMatches(t, SameJob(g), t) && RefKeys(g.annotation) != []
    ensures InPlace(t, PluginJobs(SameJobs(same), domains))
  {
    var pjs := PluginJobs(SameJobs(same), domains);
    forall pj | pj in pjs
      ensures pj.job.refs != [] && PluginMatches(t, pj.job, t) && VisitsJob(t, pj.job, pj.domains)
    {
      var i :| 0 <= i < |pjs| && pjs[i] == pj;
      assert same[i] in same && SameJobs(same)[i] == SameJob(same[i]);
    }
  }

  /** A second reconcile completes and writes no limits, references, filters,
      finalizers or back references: it only puts plugins whose policies are the
      stored ones in another order. */
  lemma SecondRunOnlyReorders(s: ClusterState, p: ObjectKey, o: Order, o': Order)
    requires Live(s, p) && Completed(s, p, o) && NamesOk(s.topo) && RefsOk(s)
    requires FaithfulOrder(After(s, p, o), p, o', [])
    ensures var t := After(s, p, o);
            var plan := ReconcilePlan(t, p, o');
      plan.err.None? && forall w :: w in plan.writes ==> Reorders(t, w)
  {
    SecondRunShape(s, p, o, o');
    PluginsReorder(After(s, p, o), StayingJobs(After(s, p, o), p, o'));
  }

  // ----- when it writes nothing -----

  /** The domains under which the references of a gateway are merged. */
  ghost function MergeDomains(s: ClusterState, refs: seq<ObjectKey>, g: ObjectKey): set<string> {
    if g in s.topo.gateways && MergeError(s.policies, s.topo.routes, refs).None?
    then Domains(PluginParts(s, Job(g, s.topo.gateways[g].listeners, refs))) else {}
  }

  /** With at most one domain there is only one order. */
  lemma OneOrder(s: ClusterState, pj: PluginJob)
    requires pj.job.refs != [] && PluginMatches(s, pj.job, s) && VisitsJob(s, pj.job, pj.domains)
    requires |Domains(PluginParts(s, pj.job))| <= 1
    ensures VisitedAsStored(s, pj)
  {
    DesiredIsPermutation(s, pj);
    DistinctLength(pj.domains, Domains(PluginParts(s, pj.job)));
    ShortPermutation(DesiredPlugin(s, pj), s.plugins[pj.job.gateway]);
  }

  lemma ShortPermutation<T>(a: seq<T>, b: seq<T>)
    requires multiset(a) == multiset(b) && |a| <= 1
    ensures a == b
  {
    assert |b| == |multiset(b)| == |multiset(a)| == |a|;
    if |a| == 1 {
      assert a == [a[0]] && b == [b[0]];
      assert a[0] in multiset(b);
    }
  }

  lemma FirstTwoSwapped(ds: seq<string>) returns (swapped: seq<string>)
    requires NoDuplicates(ds) && |ds| >= 2
    ensures NoDuplicates(swapped) && |swapped| == |ds| && swapped[0] != ds[0]
    ensures forall d :: d in swapped <==> d in ds
  {
    swapped := ds[0 := ds[1]][1 := ds[0]];
    assert swapped[0] == ds[1] && swapped[1] == ds[0];
    forall d
      ensures d in swapped <==> d in ds
    {
      if d in ds {
        var i :| 0 <= i < |ds| && ds[i] == d;
        assert swapped[if i == 0 then 1 else if i == 1 then 0 else i] == d;
      }
    }
  }

  /** With two domains or more there is an order other than the stored one. */
  lemma AnotherOrder(s: ClusterState, j: Job, stored: seq<WasmPolicy>) returns (domains: seq<string>)
    requires MergeError(s.policies, s.topo.routes, j.refs).None?
    requires |Domains(PluginParts(s, j))| >= 2
    ensures VisitsJob(s, j, domains) && DesiredPlugin(s, PluginJob(j, domains)) != stored
  {
    var ds := AnyVisit(s, j);
    DistinctLength(ds, Domains(PluginParts(s, j)));
    if DesiredPlugin(s, PluginJob(j, ds)) != stored {
      return ds;
    }
    domains := FirstTwoSwapped(ds);
    assert DesiredPlugin(s, PluginJob(j, domains))[0].name != stored[0].name;
  }

  /** A reconcile of `p` would find no new and no left gateways. */
  ghost predicate Steady(t: ClusterState, p: ObjectKey, listing: seq<ObjectKey>) {
    && Live(t, p) && TargetedBy(t, p).Ok? && Lists(listing, t.topo)
    && var d := DiffOf(t, p, TargetedBy(t, p).value, listing); d.added == d.left == []
  }

  lemma SteadyJobs(t: ClusterState, p: ObjectKey, listing: seq<ObjectKey>)
    requires Steady(t, p, listing)
    ensures RunJobs(t, p, listing) == SameJobs(DiffOf(t, p, TargetedBy(t, p).value, listing).same)
  {
    var d := DiffOf(t, p, TargetedBy(t, p).value, listing);
    assert WasmJobs(d, p) == SameJobs(d.same);
  }

  /** Where a steady run considers a targeted gateway. */
  lemma StayingIndex(t: ClusterState, p: ObjectKey, listing: seq<ObjectKey>, g: ObjectKey) returns (i: nat)
    requires Steady(t, p, listing) && g in t.topo.gateways && Targets(t, p, g)
    ensures var jobs := RunJobs(t, p, listing);
      i < |jobs| && jobs[i] == Job(g, t.topo.gateways[g].listeners, Refs(t, g))
  {
    var targeted := TargetedBy(t, p).value;
    var d := DiffOf(t, p, targeted, listing);
    DiffKeys(t, p, targeted, listing, g);
    assert KeysOf(d.added) == [];
    i :| 0 <= i < |d.same| && KeysOf(d.same)[i] == g;
    assert d.same[i] in d.same;
    DiffMembers(t, p, targeted, listing);
    SteadyJobs(t, p, listing);
  }

  lemma OneDomainEach(t: ClusterState, p: ObjectKey, o: Order)
    requires Steady(t, p, o.listing) && InPlace(t, StayingJobs(t, p, o))
    requires forall g :: g in t.topo.gateways && Targets(t, p, g) ==> |MergeDomains(t, Refs(t, g), g)| <= 1
    ensures forall pj :: pj in StayingJobs(t, p, o) ==> VisitedAsStored(t, pj)
  {
    var targeted := TargetedBy(t, p).value;
    var d := DiffOf(t, p, targeted, o.listing);
    var pjs := StayingJobs(t, p, o);
    DiffMembers(t, p, targeted, o.listing);
    SelectMembers(SnapshotsOf(t, o.listing), SameFilter(p, targeted));
    forall pj | pj in pjs
      ensures VisitedAsStored(t, pj)
    {
      var i :| 0 <= i < |pjs| && pjs[i] == pj;
      assert d.same[i] in d.same;
      assert pj.job == Job(d.same[i].key, t.topo.gateways[d.same[i].key].listeners, Refs(t, d.same[i].key));
      OneOrder(t, pj);
    }
  }

  /** An order that visits the domains of gateway `g` otherwise than stored. */
  lemma OtherOrder(t: ClusterState, p: ObjectKey, any: Order, g: ObjectKey) returns (o: Order)
    requires Steady(t, p, any.listing) && FaithfulOrder(t, p, any, [])
    requires g in t.topo.gateways && Targets(t, p, g) && |MergeDomains(t, Refs(t, g), g)| >= 2
    ensures FaithfulOrder(t, p, o, []) && o.listing == any.listing
    ensures exists pj :: pj in StayingJobs(t, p, o) && !VisitedAsStored(t, pj)
  {
    var jobs := RunJobs(t, p, any.listing);
    var i := StayingIndex(t, p, any.listing, g);
    var ds := AnotherOrder(t, jobs[i], if g in t.plugins then t.plugins[g] else []);
    OrderChanged(t, p, any, i, ds);
    o := any.(domains := any.domains[i := ds]);
    ConsideredJob(t, p, o, i);
    assert !VisitedAsStored(t, PluginJob(jobs[i], ds));
  }

  lemma ConsideredJob(t: ClusterState, p: ObjectKey, o: Order, i: nat)
    requires Steady(t, p, o.listing) && i < |RunJobs(t, p, o.listing)| && i < |o.domains|
    ensures PluginJob(RunJobs(t, p, o.listing)[i], o.domains[i]) in StayingJobs(t, p, o)
  {
    SteadyJobs(t, p, o.listing);
    var pjs := StayingJobs(t, p, o);
    assert pjs[i] in pjs;
  }

  lemma OrderChanged(t: ClusterState, p: ObjectKey, o: Order, i: nat, ds: seq<string>)
    requires p in t.policies && FaithfulOrder(t, p, o, []) && i < |o.domains|
    requires VisitsJob(t, RunJobs(t, p, o.listing)[i], ds)
    ensures FaithfulOrder(t, p, o.(domains := o.domains[i := ds]), [])
  {
    var jobs := RunJobs(t, p, o.listing);
    forall k | 0 <= k < |jobs|
      ensures VisitsJob(t, jobs[k], o.domains[i := ds][k])
    {
      assert VisitsJob(t, jobs[k], o.domains[k]);
    }
  }

  lemma ProjectedRefs(s: ClusterState, p: ObjectKey, t: ClusterState, g: ObjectKey)
    requires p in s.policies && TargetOf(s, p).Ok? && TargetedBy(s, p).Ok? && RefsOk(s) && GatewayEffect(s, p, t)
    requires g in s.topo.gateways && Targets(s, p, g)
    ensures Targets(t, p, g) && MergeDomains(t, Refs(t, g), g) == MergeDomains(s, Projected(Refs(s, g), p), g)
  {
    EditedRefs(s, p, TargetedBy(s, p).value, g);
    assert Ann(t, g) == EditedAnn(s, p, TargetedBy(s, p).value, g);
  }

  lemma ReconciledIsSteady(s: ClusterState, p: ObjectKey, t: ClusterState, listing: seq<ObjectKey>)
    requires Live(s, p) && TargetOf(s, p).Ok? && TargetedBy(s, p).Ok? && RefsOk(s) && Effect(s, p, t)
    requires Lists(listing, s.topo)
    ensures Steady(t, p, listing)
  {
    EffectKeepsRefsOk(s, p, t);
    forall g | g in t.topo.gateways && g in TargetedBy(s, p).value
      ensures MergedHeld(t, g)
    {
      EffectMerges(s, p, t, g);
    }
    NothingToDo(t, p, listing);
  }

  lemma QuietIfOneDomain(s: ClusterState, p: ObjectKey, o: Order, o': Order)
    requires Live(s, p) && Completed(s, p, o) && NamesOk(s.topo) && RefsOk(s)
    requires forall g :: g in s.topo.gateways && Targets(s, p, g) ==>
        |MergeDomains(s, Projected(Refs(s, g), p), g)| <= 1
    requires FaithfulOrder(After(s, p, o), p, o', [])
    ensures ReconcilePlan(After(s, p, o), p, o') == DONE
  {
    var t := After(s, p, o);
    ReconcileEffect(s, p, o);
    ReconciledIsSteady(s, p, t, o'.listing);
    SecondRunShape(s, p, o, o');
    forall g | g in t.topo.gateways && Targets(t, p, g)
      ensures |MergeDomains(t, Refs(t, g), g)| <= 1
    {
      ProjectedRefs(s, p, t, g);
    }
    OneDomainEach(t, p, o');
    NoReorderIff(t, StayingJobs(t, p, o'));
  }

  lemma NotQuietIfTwoDomains(s: ClusterState, p: ObjectKey, o: Order, g: ObjectKey) returns (o': Order)
    requires Live(s, p) && Completed(s, p, o) && NamesOk(s.topo) && RefsOk(s)
    requires g in s.topo.gateways && Targets(s, p, g) && |MergeDomains(s, Projected(Refs(s, g), p), g)| >= 2
    ensures FaithfulOrder(After(s, p, o), p, o', []) && ReconcilePlan(After(s, p, o), p, o') != DONE
  {
    var t := After(s, p, o);
    var any := AnyOrder(t, p);
    ReconcileEffect(s, p, o);
    ReconciledIsSteady(s, p, t, any.listing);
    ProjectedRefs(s, p, t, g);
    o' := OtherOrder(t, p, any, g);
    SecondRunShape(s, p, o, o');
    NoReorderIff(t, StayingJobs(t, p, o'));
  }

  /** A second reconcile does nothing whatever the order in which Go visits its maps, if
      and only if the references of every targeted gateway are merged under at most
      one domain. */
  lemma SecondRunIsQuietIff(s: ClusterState, p: ObjectKey, o: Order)
    requires Live(s, p) && Completed(s, p, o) && NamesOk(s.topo) && RefsOk(s)
    ensures (forall o' :: FaithfulOrder(After(s, p, o), p, o', []) ==> ReconcilePlan(After(s, p, o), p, o') == DONE)
       <==> (forall g :: g in s.topo.gateways && Targets(s, p, g) ==>
           |MergeDomains(s, Projected(Refs(s, g), p), g)| <= 1)
  {
    if forall g :: g in s.topo.gateways && Targets(s, p, g) ==> |MergeDomains(s, Projected(Refs(s, g), p), g)| <= 1 {
      forall o' | FaithfulOrder(After(s, p, o), p, o', [])
        ensures ReconcilePlan(After(s, p, o), p, o') == DONE
      {
        QuietIfOneDomain(s, p, o, o');
      }
    } else {
      var g :| g in s.topo.gateways && Targets(s, p, g) && |MergeDomains(s, Projected(Refs(s, g), p), g)| >= 2;
      var o' := NotQuietIfTwoDomains(s, p, o, g);
    }
  }
}

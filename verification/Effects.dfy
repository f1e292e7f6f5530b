/** What a completed reconcile leaves behind, column by column. */
module Effects {
  import opened Cluster
  import opened Common
  import opened GatewayRefs
  import opened LimitIndexes
  import opened Merging
  import opened MergeLaws
  import opened Namespaces
  import opened Plans
  import opened Sums
  import opened TargetRefs
  import opened WasmPlugins

  // ----- frames -----

  lemma {:induction false} ArtefactFrame(s: ClusterState, ws: seq<Write>)
    requires forall w :: w in ws ==> Artefact(w)
    ensures var t := ApplyAll(s, ws); t == s.(filters := t.filters, plugins := t.plugins)
    decreases |ws|
  {
    if ws != [] {
      assert Artefact(ws[0]);
      ArtefactFrame(Apply(s, ws[0]), ws[1..]);
    }
  }

  lemma {:induction false} RefFrame(s: ClusterState, ws: seq<Write>)
    requires forall w :: w in ws ==> w.SetRefs?
    ensures var t := ApplyAll(s, ws); t == s.(refs := t.refs)
    decreases |ws|
  {
    if ws != [] {
      assert ws[0].SetRefs?;
      RefFrame(Apply(s, ws[0]), ws[1..]);
    }
  }

  // ----- references -----

  lemma KeysOfMembers(gs: seq<Snapshot>)
    ensures forall g :: g in gs ==> g.key in KeysOf(gs)
    ensures gs != [] ==> forall k :: k in KeysOf(gs) <==> k == gs[0].key || k in KeysOf(gs[1..])
  {
    if gs != [] {
      assert KeysOf(gs) == [gs[0].key] + KeysOf(gs[1..]);
    }
    forall g | g in gs
      ensures g.key in KeysOf(gs)
    {
      var i :| 0 <= i < |gs| && gs[i] == g;
      assert KeysOf(gs)[i] == g.key;
    }
  }

  lemma RefWriteApplied(s: ClusterState, g: Snapshot, edited: RefAnnotation, k: ObjectKey)
    requires Ann(s, g.key) == g.annotation || Ann(s, g.key) == edited
    ensures Ann(ApplyAll(s, RefWrite(g, edited)), k) == if k == g.key then edited else Ann(s, k)
  {
    if edited != g.annotation {
      var w := SetRefs(g.key, edited);
      assert ApplyAll(s, [w]) == Apply(s, w);
    }
  }

  /** After the edits, gateway `k` has its annotation edited once if it was among the
      snapshots, even when it was fetched more than once. */
  lemma {:induction false} EditsApplied(s: ClusterState, gs: seq<Snapshot>, edit: RefAnnotation -> RefAnnotation,
                                        k: ObjectKey)
    requires forall g :: g in gs ==> Ann(s, g.key) == g.annotation || Ann(s, g.key) == edit(g.annotation)
    requires forall g, h :: g in gs && h in gs && g.key == h.key ==> g.annotation == h.annotation
    ensures var t := ApplyAll(s, EditWrites(gs, edit));
      && (k !in KeysOf(gs) ==> Ann(t, k) == Ann(s, k))
      && forall g :: g in gs && g.key == k ==> Ann(t, k) == edit(g.annotation)
    decreases |gs|
  {
    if gs != [] {
      var first := RefWrite(gs[0], edit(gs[0].annotation));
      var s1 := ApplyAll(s, first);
      ApplyConcat(s, first, EditWrites(gs[1..], edit));
      forall x
        ensures Ann(s1, x) == if x == gs[0].key then edit(gs[0].annotation) else Ann(s, x)
      {
        RefWriteApplied(s, gs[0], edit(gs[0].annotation), x);
      }
      EditsApplied(s1, gs[1..], edit, k);
      KeysOfMembers(gs);
      KeysOfMembers(gs[1..]);
      KeyHasSnapshot(gs[1..], k);
    }
  }

  lemma KeyHasSnapshot(gs: seq<Snapshot>, k: ObjectKey)
    ensures k in KeysOf(gs) ==> exists g :: g in gs && g.key == k
  {
    if k in KeysOf(gs) {
      var i :| 0 <= i < |gs| && KeysOf(gs)[i] == k;
      assert gs[i] in gs && gs[i].key == k;
    }
  }

  // ----- filters and plugins -----

  /** Jobs for the same gateway are the same job. */
  ghost predicate Consistent(jobs: seq<Job>) {
    forall j, k :: j in jobs && k in jobs && j.gateway == k.gateway ==> j == k
  }

  /** The filter of a job's gateway: none without references, else Limitador's endpoint. */
  ghost predicate FilterMatches(s: ClusterState, j: Job, t: ClusterState) {
    && (j.gateway in t.filters <==> j.refs != [])
    && (j.refs != [] ==> s.limitador.Some? && t.filters[j.gateway] == s.limitador.value.endpoint)
  }

  ghost predicate SameFilterAt(s: ClusterState, t: ClusterState, g: ObjectKey) {
    && (g in t.filters <==> g in s.filters)
    && (g in s.filters ==> t.filters[g] == s.filters[g])
  }

  lemma FilterStepApplied(s: ClusterState, j: Job)
    requires FilterStep(s, j).err.None?
    ensures var t := ApplyAll(s, FilterStep(s, j).writes);
      && t == s.(filters := t.filters)
      && FilterMatches(s, j, t)
      && forall g :: g != j.gateway ==> SameFilterAt(s, t, g)
  {
    if j.refs != [] {
      ApplyOne(s, PutFilter(j.gateway, s.limitador.value.endpoint));
    } else if j.gateway in s.filters {
      ApplyOne(s, DeleteFilter(j.gateway));
    }
  }

  lemma {:induction false} FilterFrameAt(s: ClusterState, jobs: seq<Job>, g: ObjectKey)
    requires FilterPlan(s, jobs).err.None? && forall j :: j in jobs ==> j.gateway != g
    ensures SameFilterAt(s, ApplyAll(s, FilterPlan(s, jobs).writes), g)
    decreases |jobs|
  {
    if jobs != [] {
      var step := FilterStep(s, jobs[0]);
      var s1 := ApplyAll(s, step.writes);
      var rest := jobs[1..];
      FilterStepApplied(s, jobs[0]);
      assert jobs[0] in jobs && forall j :: j in rest ==> j in jobs;
      FilterFrameAt(s1, rest, g);
      ApplyConcat(s, step.writes, FilterPlan(s1, rest).writes);
      assert SameFilterAt(s, s1, g);
    }
  }

  lemma {:induction false} FilterJobAt(s: ClusterState, jobs: seq<Job>, j: Job)
    requires FilterPlan(s, jobs).err.None? && Consistent(jobs) && j in jobs
    ensures FilterMatches(s, j, ApplyAll(s, FilterPlan(s, jobs).writes))
    decreases |jobs|
  {
    var step := FilterStep(s, jobs[0]);
    var s1 := ApplyAll(s, step.writes);
    var rest := jobs[1..];
    FilterStepApplied(s, jobs[0]);
    ApplyConcat(s, step.writes, FilterPlan(s1, rest).writes);
    assert jobs[0] in jobs && forall k :: k in rest ==> k in jobs;
    if j in rest {
      FilterJobAt(s1, rest, j);
    } else {
      FilterFrameAt(s1, rest, j.gateway);
    }
  }

  /** A completed filter stage: a gateway worked on has a filter exactly where
      references remain, with Limitador's endpoint; other filters are as before. */
  lemma FilterAt(s: ClusterState, jobs: seq<Job>, g: ObjectKey)
    requires FilterPlan(s, jobs).err.None? && Consistent(jobs)
    ensures var t := ApplyAll(s, FilterPlan(s, jobs).writes);
      && ((forall j :: j in jobs ==> j.gateway != g) ==> SameFilterAt(s, t, g))
      && forall j :: j in jobs && j.gateway == g ==> FilterMatches(s, j, t)
  {
    if forall j :: j in jobs ==> j.gateway != g {
      FilterFrameAt(s, jobs, g);
    }
    forall j | j in jobs && j.gateway == g
      ensures FilterMatches(s, j, ApplyAll(s, FilterPlan(s, jobs).writes))
    {
      FilterJobAt(s, jobs, j);
    }
  }

  /** The plugin of a job's gateway: none without references, else the policies its
      references ask for, each once. */
  ghost predicate PluginMatches(s: ClusterState, j: Job, t: ClusterState) {
    && (j.gateway in t.plugins <==> j.refs != [])
    && (j.refs != [] ==>
          MergeError(s.policies, s.topo.routes, j.refs).None?
          && ListsOnce(t.plugins[j.gateway], PluginPolicies(j.gateway, PluginParts(s, j))))
  }

  ghost predicate SamePluginAt(s: ClusterState, t: ClusterState, g: ObjectKey) {
    && (g in t.plugins <==> g in s.plugins)
    && (g in s.plugins ==> t.plugins[g] == s.plugins[g])
  }

  lemma WasmStepApplied(s: ClusterState, pj: PluginJob)
    requires WasmStep(s, pj).err.None?
    ensures var t := ApplyAll(s, WasmStep(s, pj).writes);
      && t == s.(plugins := t.plugins)
      && (VisitsJob(s, pj.job, pj.domains) ==> PluginMatches(s, pj.job, t))
      && forall g :: g != pj.job.gateway ==> SamePluginAt(s, t, g)
  {
    var j := pj.job;
    if j.refs != [] {
      ApplyOne(s, PutPlugin(j.gateway, DesiredPlugin(s, pj)));
      if VisitsJob(s, j, pj.domains) {
        VisitedPolicies(j.gateway, PluginParts(s, j), pj.domains);
      }
    } else if j.gateway in s.plugins {
      ApplyOne(s, DeletePlugin(j.gateway));
    }
  }

  lemma MatchesTransfer(s: ClusterState, s1: ClusterState, j: Job, t: ClusterState)
    requires s1.topo == s.topo && s1.policies == s.policies && PluginMatches(s1, j, t)
    ensures PluginMatches(s, j, t)
  {
  }

  lemma {:induction false} WasmFrameAt(s: ClusterState, jobs: seq<PluginJob>, g: ObjectKey)
    requires WasmPlan(s, jobs).err.None? && forall pj :: pj in jobs ==> pj.job.gateway != g
    ensures SamePluginAt(s, ApplyAll(s, WasmPlan(s, jobs).writes), g)
    decreases |jobs|
  {
    if jobs != [] {
      var step := WasmStep(s, jobs[0]);
      var s1 := ApplyAll(s, step.writes);
      WasmStepApplied(s, jobs[0]);
      var rest := jobs[1..];
      assert jobs[0] in jobs && forall j :: j in rest ==> j in jobs;
      WasmFrameAt(s1, rest, g);
      ApplyConcat(s, step.writes, WasmPlan(s1, rest).writes);
      assert SamePluginAt(s, s1, g);
    }
  }

  /** Possible visiting orders, and jobs that never disagree. */
  ghost predicate VisitedRightly(s: ClusterState, jobs: seq<PluginJob>) {
    && (forall pj :: pj in jobs ==> VisitsJob(s, pj.job, pj.domains))
    && forall a, b :: a in jobs && b in jobs && a.job.gateway == b.job.gateway ==> a.job == b.job
  }

  /** A completed plugin stage: a plugin exists exactly where references remain, and
      it is the one those references ask for. */
  lemma {:induction false} WasmAt(s: ClusterState, jobs: seq<PluginJob>, pj: PluginJob)
    requires WasmPlan(s, jobs).err.None? && VisitedRightly(s, jobs) && pj in jobs
    ensures PluginMatches(s, pj.job, ApplyAll(s, WasmPlan(s, jobs).writes))
    decreases |jobs|
  {
    var step := WasmStep(s, jobs[0]);
    var s1 := ApplyAll(s, step.writes);
    var rest := jobs[1..];
    WasmStepApplied(s, jobs[0]);
    ApplyConcat(s, step.writes, WasmPlan(s1, rest).writes);
    assert jobs[0] in jobs && forall k :: k in rest ==> k in jobs;
    var t := ApplyAll(s1, WasmPlan(s1, rest).writes);
    if k :| k in rest && k.job == pj.job {
      RestVisitedRightly(s, s1, jobs);
      WasmAt(s1, rest, k);
      MatchesTransfer(s, s1, pj.job, t);
    } else {
      WasmFrameAt(s1, rest, pj.job.gateway);
    }
  }

  lemma RestVisitedRightly(s: ClusterState, s1: ClusterState, jobs: seq<PluginJob>)
    requires jobs != [] && VisitedRightly(s, jobs) && s1.topo == s.topo && s1.policies == s.policies
    ensures VisitedRightly(s1, jobs[1..])
  {
    assert forall k :: k in jobs[1..] ==> k in jobs;
    forall k | k in jobs[1..]
      ensures VisitsJob(s1, k.job, k.domains)
    {
      assert VisitsJob(s, k.job, k.domains);
    }
  }

  lemma PluginJobsMembers(s: ClusterState, jobs: seq<Job>, domains: seq<seq<string>>)
    ensures forall pj :: pj in PluginJobs(jobs, domains) ==> pj.job in jobs
    ensures forall j :: j in jobs ==> exists pj :: pj in PluginJobs(jobs, domains) && pj.job == j
    ensures VisitsJobs(s, jobs, domains) && Consistent(jobs) ==> VisitedRightly(s, PluginJobs(jobs, domains))
  {
    var pjs := PluginJobs(jobs, domains);
    forall pj | pj in pjs
      ensures pj.job in jobs
      ensures VisitsJobs(s, jobs, domains) ==> VisitsJob(s, pj.job, pj.domains)
    {
      var i :| 0 <= i < |pjs| && pjs[i] == pj;
      assert jobs[i] == pj.job;
    }
    forall j | j in jobs
      ensures exists pj :: pj in pjs && pj.job == j
    {
      var i :| 0 <= i < |jobs| && jobs[i] == j;
      assert pjs[i] in pjs;
    }
  }

  // ----- limits -----

  /** Names the string form of a namespace can carry. */
  ghost predicate NamesOk(topo: Topology) {
    && (forall g :: g in topo.gateways ==> CanonicalKey(g))
    && (forall g, d :: g in topo.gateways && d in HostsOf(topo, g) ==> CanonicalDomain(d))
    && (forall r, d :: r in topo.routes && d in topo.routes[r].hostnames ==> CanonicalDomain(d))
  }

  lemma MergedIsCanonical(s: ClusterState, refs: seq<ObjectKey>, e: Entry)
    requires NamesOk(s.topo) && e.gateway in s.topo.gateways && MergedAt(s, refs, e) > 0
    ensures CanonicalEntry(e)
  {
    var hosts := HostsOf(s.topo, e.gateway);
    var gateway := GatewayRef(s.policies, refs);
    SumPositive(Contributions(s.policies, s.topo.routes, hosts, gateway, e.domain, e.limit), refs);
    var k :| k in refs && Contribution(s.policies, s.topo.routes, hosts, gateway, e.domain, e.limit, k) > 0;
    if IsRoutePolicy(s.policies, k) {
      assert RouteUses(s.policies, s.topo.routes, k, e.domain) > 0;
      assert e.domain in s.topo.routes[RouteKey(s.policies, k)].hostnames;
    } else {
      assert GatewayUses(hosts, e.domain) > 0;
      assert hosts != [] ==> e.domain in hosts;
    }
  }

  /** What is held is what the elements of the flat list say. */
  lemma HeldIsSaid(s: ClusterState, e: Entry)
    ensures Held(s)[e] == if s.limitador.Some? then SaidIn(s.limitador.value.limits, e) else 0
  {
    if s.limitador.Some? {
      ParsedIsSum(s.limitador.value.limits, e);
    }
  }

  lemma HeldIsCanonical(s: ClusterState, e: Entry)
    requires Held(s)[e] > 0
    ensures CanonicalEntry(e)
  {
    IndexHoldsParsed(s.limitador.value.limits);
    assert Mult(IndexOf(s.limitador.value.limits), e) > 0;
  }

  /** Every name the update prints for the first time can be carried by the string form. */
  ghost predicate Printable(s: ClusterState, d: Diff) {
    && (NamesOk(s.topo) || d.added == d.same == [])
    && forall k :: k in KeysOf(d.added) || k in KeysOf(d.same) ==> k in s.topo.gateways
  }

  lemma UpdatedIsCanonical(s: ClusterState, d: Diff, p: ObjectKey, e: Entry)
    requires Printable(s, d)
    requires UpdatedCount(s, d, p, e) > 0
    ensures CanonicalEntry(e)
  {
    if e.gateway in KeysOf(d.added) {
      MergedIsCanonical(s, Refs(s, e.gateway) + [p], e);
    } else if e.gateway in KeysOf(d.same) {
      MergedIsCanonical(s, Refs(s, e.gateway), e);
    } else {
      HeldIsCanonical(s, e);
    }
  }

  lemma PrintedUpdateParses(s: ClusterState, d: Diff, p: ObjectKey, entries: seq<Entry>)
    requires Printable(s, d) && EnumeratesUpdate(s, d, p, entries)
    ensures Parsed(PrintAll(entries)) == multiset(entries)
  {
    forall e | e in entries
      ensures CanonicalEntry(e)
    {
      assert e in multiset(entries);
      assert multiset(entries)[e] == UpdatedCount(s, d, p, e);
      UpdatedIsCanonical(s, d, p, e);
    }
    ParsePrintedList(entries);
  }

  /** A completed limits stage: Limitador holds exactly the updated index, whether
      it had to be written or not. */
  lemma LimitsApplied(s: ClusterState, d: Diff, p: ObjectKey, entries: seq<Entry>)
    requires Printable(s, d)
    requires LimitsPlan(s, d, p, entries).err.None?
    requires LimitsPlan(s, d, p, entries).writes != [] ==> EnumeratesUpdate(s, d, p, entries)
    ensures var t := ApplyAll(s, LimitsPlan(s, d, p, entries).writes);
      && t == s.(limitador := t.limitador) && t.limitador.Some?
      && forall e: Entry :: Held(t)[e] == UpdatedCount(s, d, p, e)
  {
    if !LimitsSettled(s, d, p) {
      LimitsWritten(s, PrintAll(entries));
      PrintedUpdateParses(s, d, p, entries);
    }
  }

  lemma LimitsWritten(s: ClusterState, limits: seq<RateLimit>)
    requires s.limitador.Some?
    ensures var t := ApplyAll(s, [SetLimits(limits)]);
      && t == s.(limitador := t.limitador) && SameStatus(s, t)
      && Held(t) == Parsed(limits)
  {
    ApplyOne(s, SetLimits(limits));
  }

  // ----- the shape of a completed reconcile -----

  ghost predicate Live(s: ClusterState, p: ObjectKey) {
    p in s.policies && p !in s.deleting
  }

  ghost predicate Targets(s: ClusterState, p: ObjectKey, g: ObjectKey) {
    p in s.policies && TargetedBy(s, p).Ok? && g in TargetedBy(s, p).value
  }

  /** What it means to target a gateway: to name it, or to name a route that is not
      rejected and has it among its parents. Missing namespaces are filled in from the
      policy, and for the parents from the route. */
  lemma TargetsIff(s: ClusterState, p: ObjectKey, g: ObjectKey, key: ObjectKey)
    requires p in s.policies
    requires Denotes(key, s.policies[p].targetRef.namespace, s.policies[p].targetRef.name, p.namespace)
    ensures Targets(s, p, g) <==>
      if s.policies[p].targetRef.kind == "HTTPRoute" then
        && key in s.topo.routes && !Rejected(s.topo.routes[key])
        && exists parent :: parent in s.topo.routes[key].parentRefs
                            && Denotes(g, parent.namespace, parent.name, key.namespace)
      else s.policies[p].targetRef.kind == "Gateway" && g == key
  {
    var ref := s.policies[p].targetRef;
    TargetedMeaning(s.topo, ref, p.namespace, key);
    if ref.kind == "HTTPRoute" && TargetedBy(s, p).Ok? {
      ParentsMembers(TargetedBy(s, p).value, s.topo.routes[key], key.namespace, g);
    }
  }

  /** And what it means to have a target: the object named is there and usable. */
  lemma TargetIff(s: ClusterState, p: ObjectKey, key: ObjectKey)
    requires p in s.policies
    requires Denotes(key, s.policies[p].targetRef.namespace, s.policies[p].targetRef.name, p.namespace)
    ensures TargetOf(s, p) ==
            if s.policies[p].targetRef.kind == "HTTPRoute" then
              if key !in s.topo.routes then Err(NotFound)
              else if Rejected(s.topo.routes[key]) then Err(RouteNotAccepted) else Ok(RouteTarget(key))
            else if s.policies[p].targetRef.kind == "Gateway" then
              if key !in s.topo.gateways then Err(NotFound)
              else if s.topo.gateways[key].unready then Err(GatewayNotReady) else Ok(GatewayTarget(key))
            else Err(UnknownTarget)
  {
    TargetMeaning(s.topo, s.policies[p].targetRef, p.namespace, key);
  }

  lemma ParentsMembers(keys: seq<ObjectKey>, route: HTTPRoute, routeNs: string, g: ObjectKey)
    requires ParentsOf(keys, route, routeNs)
    ensures g in keys <==> exists parent :: parent in route.parentRefs
                                            && Denotes(g, parent.namespace, parent.name, routeNs)
  {
    if g in keys {
      var i :| 0 <= i < |keys| && keys[i] == g;
      assert route.parentRefs[i] in route.parentRefs;
    }
    if parent :| parent in route.parentRefs && Denotes(g, parent.namespace, parent.name, routeNs) {
      var i :| 0 <= i < |keys| && route.parentRefs[i] == parent;
      assert keys[i] == g;
    }
  }

  /** The run is carried out in full, without error. */
  ghost predicate Completed(s: ClusterState, p: ObjectKey, o: Order) {
    && Lists(o.listing, s.topo)
    && ReconcilePlan(s, p, o).err.None?
    && FaithfulOrder(s, p, o, ReconcilePlan(s, p, o).writes)
  }

  ghost function After(s: ClusterState, p: ObjectKey, o: Order): ClusterState
    requires Lists(o.listing, s.topo)
  {
    ApplyAll(s, ReconcilePlan(s, p, o).writes)
  }

  /** The cluster once the finalizer and the back reference are in place. */
  ghost function Locked(s: ClusterState, p: ObjectKey): ClusterState
    requires p in s.policies && TargetOf(s, p).Ok?
  {
    s.(finalizers := s.finalizers + {p}, backRefs := s.backRefs[TargetOf(s, p).value := p])
  }

  lemma AcquireApplied(s: ClusterState, p: ObjectKey)
    requires p in s.policies && AcquirePlan(s, p).err.None?
    ensures TargetOf(s, p).Ok?
    ensures ApplyAll(s, AcquirePlan(s, p).writes) == s.(backRefs := s.backRefs[TargetOf(s, p).value := p])
  {
    var target := TargetOf(s, p).value;
    if target !in s.backRefs {
      ApplyOne(s, SetBackRef(target, p));
    } else {
      assert s.backRefs[target := p] == s.backRefs;
    }
  }

  lemma FinalizerApplied(s: ClusterState, p: ObjectKey)
    ensures ApplyAll(s, FinalizerPlan(s, p).writes) == s.(finalizers := s.finalizers + {p})
  {
    if p in s.finalizers {
      assert s.finalizers + {p} == s.finalizers;
    } else {
      ApplyOne(s, AddFinalizer(p));
    }
  }

  /** A live policy gets its finalizer, then its specification is reconciled. */
  lemma LivePlan(s: ClusterState, p: ObjectKey, o: Order)
    requires Live(s, p) && Lists(o.listing, s.topo)
    ensures var s1 := s.(finalizers := s.finalizers + {p});
      && ApplyAll(s, FinalizerPlan(s, p).writes) == s1
      && ReconcilePlan(s, p, o) == Then(FinalizerPlan(s, p), SpecPlan(s1, p, o))
  {
    FinalizerApplied(s, p);
  }

  lemma SpecPlanCases(s: ClusterState, p: ObjectKey, o: Order)
    requires p in s.policies && Lists(o.listing, s.topo)
    ensures var a := AcquirePlan(s, p);
      || SpecPlan(s, p, o).writes == []
      || (a.err.None? && SpecPlan(s, p, o) == Then(a, DiffPlan(ApplyAll(s, a.writes), p, o)))
  {
  }

  lemma WritesLimitsSuffix(a: seq<Write>, b: seq<Write>)
    requires WritesLimits(b)
    ensures WritesLimits(a + b)
  {
    var w :| w in b && w.SetLimits?;
    assert w in a + b;
  }

  lemma DiffReads(s: ClusterState, t: ClusterState, p: ObjectKey, targeted: seq<ObjectKey>, listing: seq<ObjectKey>)
    requires t.topo == s.topo && t.refs == s.refs && Lists(listing, s.topo)
    ensures DiffOf(t, p, targeted, listing) == DiffOf(s, p, targeted, listing)
  {
    assert SnapshotsOf(t, listing) == SnapshotsOf(s, listing);
  }

  lemma SpecShape(s: ClusterState, p: ObjectKey, o: Order)
    requires p in s.policies && Lists(o.listing, s.topo) && SpecPlan(s, p, o).err.None?
    ensures TargetOf(s, p).Ok? && TargetedBy(s, p).Ok?
    ensures var s1 := s.(backRefs := s.backRefs[TargetOf(s, p).value := p]);
            var stages := StagesPlan(s1, DiffOf(s, p, TargetedBy(s, p).value, o.listing), p, o);
      && stages.err.None?
      && ApplyAll(s, SpecPlan(s, p, o).writes) == ApplyAll(s1, stages.writes)
      && (WritesLimits(stages.writes) ==> WritesLimits(SpecPlan(s, p, o).writes))
  {
    var s1 := s.(backRefs := s.backRefs[TargetOf(s, p).value := p]);
    AcquireApplied(s, p);
    SpecIsStages(s, p, o);
    var a := AcquirePlan(s, p);
    var stages := StagesPlan(s1, DiffOf(s, p, TargetedBy(s, p).value, o.listing), p, o);
    ThenApplied(s, a, stages);
    if WritesLimits(stages.writes) {
      WritesLimitsSuffix(a.writes, stages.writes);
    }
  }

  lemma SpecIsStages(s: ClusterState, p: ObjectKey, o: Order)
    requires p in s.policies && Lists(o.listing, s.topo) && SpecPlan(s, p, o).err.None?
    ensures TargetOf(s, p).Ok? && TargetedBy(s, p).Ok?
    ensures var s1 := s.(backRefs := s.backRefs[TargetOf(s, p).value := p]);
      SpecPlan(s, p, o) ==
      Then(AcquirePlan(s, p), StagesPlan(s1, DiffOf(s, p, TargetedBy(s, p).value, o.listing), p, o))
  {
    AcquireApplied(s, p);
    var s1 := s.(backRefs := s.backRefs[TargetOf(s, p).value := p]);
    DiffReads(s, s1, p, TargetedBy(s, p).value, o.listing);
  }

  /** A completed reconcile of a live policy takes finalizer and back reference and
      completes the stages from there. */
  lemma ReconcileShape(s: ClusterState, p: ObjectKey, o: Order)
    requires Live(s, p) && Completed(s, p, o)
    ensures TargetOf(s, p).Ok? && TargetedBy(s, p).Ok?
    ensures var d := DiffOf(s, p, TargetedBy(s, p).value, o.listing);
      var stages := StagesPlan(Locked(s, p), d, p, o);
      && stages.err.None?
      && After(s, p, o) == ApplyAll(Locked(s, p), stages.writes)
      && (WritesLimits(stages.writes) ==> EnumeratesUpdate(s, d, p, o.entries))
      && VisitsJobs(s, WasmJobs(d, p), o.domains)
  {
    LivePlan(s, p, o);
    var f := FinalizerPlan(s, p);
    var s1 := s.(finalizers := s.finalizers + {p});
    var spec := SpecPlan(s1, p, o);
    ApplyConcat(s, f.writes, spec.writes);
    SpecShape(s1, p, o);
    DiffReads(s, s1, p, TargetedBy(s, p).value, o.listing);
    if WritesLimits(spec.writes) {
      WritesLimitsSuffix(f.writes, spec.writes);
    }
  }

  // ----- the effect of a completed reconcile -----

  /** The references a gateway's limits and artefacts are built from. */
  function Projected(refs: seq<ObjectKey>, p: ObjectKey): seq<ObjectKey> {
    if p in refs then refs else refs + [p]
  }

  /** How often Limitador holds an entry once `p` has been reconciled. */
  ghost function ReconciledCount(s: ClusterState, p: ObjectKey, targeted: seq<ObjectKey>, e: Entry): nat {
    if e.gateway !in s.topo.gateways then Held(s)[e]
    else if e.gateway in targeted then MergedAt(s, Projected(Refs(s, e.gateway), p), e)
    else if p in Refs(s, e.gateway) then 0
    else Held(s)[e]
  }

  function EditedAnn(s: ClusterState, p: ObjectKey, targeted: seq<ObjectKey>, g: ObjectKey): RefAnnotation {
    if g !in s.topo.gateways then Ann(s, g)
    else if g in targeted then AddRef(Ann(s, g), p)
    else DeleteRef(Ann(s, g), p)
  }

  lemma DiffKeys(s: ClusterState, p: ObjectKey, targeted: seq<ObjectKey>, listing: seq<ObjectKey>, g: ObjectKey)
    requires Lists(listing, s.topo)
    ensures var d := DiffOf(s, p, targeted, listing);
      && (g in KeysOf(d.added) <==> g in s.topo.gateways && g in targeted && p !in Refs(s, g))
      && (g in KeysOf(d.same) <==> g in s.topo.gateways && g in targeted && p in Refs(s, g))
      && (g in KeysOf(d.left) <==> g in s.topo.gateways && g !in targeted && p in Refs(s, g))
  {
    var items := SnapshotsOf(s, listing);
    assert KeysOf(items) == listing;
    assert DistinctKeys(items);
    if g in listing {
      var i :| 0 <= i < |listing| && listing[i] == g;
      assert items[i] in items;
      SelectedKey(items, NewFilter(p, targeted), items[i]);
      SelectedKey(items, SameFilter(p, targeted), items[i]);
      SelectedKey(items, LeftFilter(p, targeted), items[i]);
    } else {
      SelectedKeys(items, NewFilter(p, targeted));
      SelectedKeys(items, SameFilter(p, targeted));
      SelectedKeys(items, LeftFilter(p, targeted));
    }
  }

  lemma DiffMembers(s: ClusterState, p: ObjectKey, targeted: seq<ObjectKey>, listing: seq<ObjectKey>)
    requires Lists(listing, s.topo)
    ensures var d := DiffOf(s, p, targeted, listing);
      forall g :: g in d.added || g in d.same || g in d.left ==> g.key in s.topo.gateways && g == SnapshotOf(s, g.key)
  {
    var items := SnapshotsOf(s, listing);
    SelectMembers(items, NewFilter(p, targeted));
    SelectMembers(items, SameFilter(p, targeted));
    SelectMembers(items, LeftFilter(p, targeted));
  }

  lemma UpdatedIsReconciled(s: ClusterState, p: ObjectKey, targeted: seq<ObjectKey>, listing: seq<ObjectKey>, e: Entry)
    requires Lists(listing, s.topo)
    ensures UpdatedCount(s, DiffOf(s, p, targeted, listing), p, e) == ReconciledCount(s, p, targeted, e)
  {
    DiffKeys(s, p, targeted, listing, e.gateway);
  }

  /** Removing the policy from the left gateways does not change the new ones. */
  lemma AddedUntouched(s: ClusterState, t0: ClusterState, p: ObjectKey, targeted: seq<ObjectKey>,
                       listing: seq<ObjectKey>)
    requires Lists(listing, s.topo) && t0.refs == s.refs
    ensures var d := DiffOf(s, p, targeted, listing);
            forall k :: k in KeysOf(d.added) ==> Ann(ApplyAll(t0, DeleteRefWrites(d.left, p)), k) == Ann(s, k)
  {
    var d := DiffOf(s, p, targeted, listing);
    DiffMembers(s, p, targeted, listing);
    forall k | k in KeysOf(d.added)
      ensures Ann(ApplyAll(t0, DeleteRefWrites(d.left, p)), k) == Ann(s, k)
    {
      DiffKeys(s, p, targeted, listing, k);
      EditsApplied(t0, d.left, Deletion(p), k);
    }
  }

  /** The snapshots in a reading of the cluster, edited one by one. */
  lemma EditedAt(s: ClusterState, t: ClusterState, gs: seq<Snapshot>, edit: RefAnnotation -> RefAnnotation,
                 g: ObjectKey)
    requires (forall x :: x in gs ==> x.key in s.topo.gateways && x == SnapshotOf(s, x.key))
    requires forall k :: k in KeysOf(gs) ==> Ann(t, k) == Ann(s, k)
    ensures Ann(ApplyAll(t, EditWrites(gs, edit)), g) == if g in KeysOf(gs) then edit(Ann(s, g)) else Ann(t, g)
  {
    KeysOfMembers(gs);
    EditsApplied(t, gs, edit, g);
    KeyHasSnapshot(gs, g);
  }

  /** The reference stage, gateway by gateway. */
  lemma RefsApplied(s: ClusterState, t0: ClusterState, p: ObjectKey, targeted: seq<ObjectKey>, listing: seq<ObjectKey>,
                    g: ObjectKey)
    requires Lists(listing, s.topo) && t0.refs == s.refs
    ensures var d := DiffOf(s, p, targeted, listing);
            Ann(ApplyAll(t0, RefsPlan(d, p).writes), g) == EditedAnn(s, p, targeted, g)
  {
    var d := DiffOf(s, p, targeted, listing);
    var t1 := ApplyAll(t0, DeleteRefWrites(d.left, p));
    ApplyConcat(t0, DeleteRefWrites(d.left, p), AddRefWrites(d.added, p));
    DiffMembers(s, p, targeted, listing);
    AddedUntouched(s, t0, p, targeted, listing);
    EditedAt(s, t0, d.left, Deletion(p), g);
    EditedAt(s, t1, d.added, Addition(p), g);
    EditedByDiff(s, p, targeted, listing, g);
  }

  /** The edit each gateway gets, told by the diff. */
  lemma EditedByDiff(s: ClusterState, p: ObjectKey, targeted: seq<ObjectKey>, listing: seq<ObjectKey>, g: ObjectKey)
    requires Lists(listing, s.topo)
    ensures var d := DiffOf(s, p, targeted, listing);
      EditedAnn(s, p, targeted, g) ==
      if g in KeysOf(d.added) then Addition(p)(Ann(s, g))
      else if g in KeysOf(d.left) then Deletion(p)(Ann(s, g))
      else Ann(s, g)
  {
    DiffKeys(s, p, targeted, listing, g);
  }

  // ----- the jobs of a reconcile -----

  function JobAt(s: ClusterState, p: ObjectKey, targeted: seq<ObjectKey>, g: ObjectKey): Job
    requires g in s.topo.gateways
  {
    Job(g, s.topo.gateways[g].listeners,
        if g in targeted then Projected(Refs(s, g), p) else RemoveFirst(Refs(s, g), p))
  }

  /** Every job is the one its gateway calls for, so jobs never disagree. */
  lemma JobsAreJobAt(s: ClusterState, p: ObjectKey, targeted: seq<ObjectKey>, listing: seq<ObjectKey>)
    requires Lists(listing, s.topo)
    ensures var d := DiffOf(s, p, targeted, listing);
      && (forall j :: j in WasmJobs(d, p) ==> j.gateway in s.topo.gateways && j == JobAt(s, p, targeted, j.gateway))
      && (forall j :: j in FilterJobs(d, p) ==> j in WasmJobs(d, p))
      && Consistent(WasmJobs(d, p)) && Consistent(FilterJobs(d, p))
  {
    var d := DiffOf(s, p, targeted, listing);
    DiffMembers(s, p, targeted, listing);
    var items := SnapshotsOf(s, listing);
    SelectMembers(items, NewFilter(p, targeted));
    SelectMembers(items, SameFilter(p, targeted));
    SelectMembers(items, LeftFilter(p, targeted));
    forall j | j in WasmJobs(d, p)
      ensures j.gateway in s.topo.gateways && j == JobAt(s, p, targeted, j.gateway)
    {
      if j in LeftJobs(d.left, p) {
        var i :| 0 <= i < |d.left| && LeftJobs(d.left, p)[i] == j;
        assert d.left[i] in d.left;
      } else if j in SameJobs(d.same) {
        var i :| 0 <= i < |d.same| && SameJobs(d.same)[i] == j;
        assert d.same[i] in d.same;
      } else {
        var i :| 0 <= i < |d.added| && NewJobs(d.added, p)[i] == j;
        assert d.added[i] in d.added;
      }
    }
  }

  lemma JobOfSnapshot(gs: seq<Snapshot>, p: ObjectKey, g: ObjectKey)
    requires g in KeysOf(gs)
    ensures exists j :: j in LeftJobs(gs, p) && j.gateway == g
    ensures exists j :: j in SameJobs(gs) && j.gateway == g
    ensures exists j :: j in NewJobs(gs, p) && j.gateway == g
  {
    var i :| 0 <= i < |gs| && KeysOf(gs)[i] == g;
    assert LeftJobs(gs, p)[i] in LeftJobs(gs, p);
    assert SameJobs(gs)[i] in SameJobs(gs);
    assert NewJobs(gs, p)[i] in NewJobs(gs, p);
  }

  lemma JobsCover(s: ClusterState, p: ObjectKey, targeted: seq<ObjectKey>, listing: seq<ObjectKey>, g: ObjectKey)
    requires Lists(listing, s.topo) && g in s.topo.gateways
    ensures var d := DiffOf(s, p, targeted, listing);
      && (JobAt(s, p, targeted, g) in WasmJobs(d, p) <==> g in targeted || p in Refs(s, g))
      && (JobAt(s, p, targeted, g) in FilterJobs(d, p) <==> (g in targeted <==> p !in Refs(s, g)))
      && (!(g in targeted || p in Refs(s, g)) ==> forall j :: j in WasmJobs(d, p) ==> j.gateway != g)
      && (!(g in targeted <==> p !in Refs(s, g)) ==> forall j :: j in FilterJobs(d, p) ==> j.gateway != g)
  {
    var d := DiffOf(s, p, targeted, listing);
    JobsAreJobAt(s, p, targeted, listing);
    DiffKeys(s, p, targeted, listing, g);
    if g in KeysOf(d.left) { JobOfSnapshot(d.left, p, g); }
    if g in KeysOf(d.same) { JobOfSnapshot(d.same, p, g); }
    if g in KeysOf(d.added) { JobOfSnapshot(d.added, p, g); }
    JobGateways(d, p);
  }

  lemma JobGateways(d: Diff, p: ObjectKey)
    ensures forall j :: j in WasmJobs(d, p) ==>
      j.gateway in KeysOf(d.left) || j.gateway in KeysOf(d.same) || j.gateway in KeysOf(d.added)
    ensures forall j :: j in FilterJobs(d, p) ==> j.gateway in KeysOf(d.left) || j.gateway in KeysOf(d.added)
  {
    forall j | j in LeftJobs(d.left, p)
      ensures j.gateway in KeysOf(d.left)
    {
      var i :| 0 <= i < |d.left| && LeftJobs(d.left, p)[i] == j;
      assert KeysOf(d.left)[i] == j.gateway;
    }
    forall j | j in SameJobs(d.same)
      ensures j.gateway in KeysOf(d.same)
    {
      var i :| 0 <= i < |d.same| && SameJobs(d.same)[i] == j;
      assert KeysOf(d.same)[i] == j.gateway;
    }
    forall j | j in NewJobs(d.added, p)
      ensures j.gateway in KeysOf(d.added)
    {
      var i :| 0 <= i < |d.added| && NewJobs(d.added, p)[i] == j;
      assert KeysOf(d.added)[i] == j.gateway;
    }
  }

  // ----- the effect, stage by stage -----

  lemma StagesShape(s: ClusterState, d: Diff, p: ObjectKey, o: Order)
    requires StagesPlan(s, d, p, o).err.None?
    ensures var l := LimitsPlan(s, d, p, o.entries);
            var s2 := ApplyAll(s, l.writes);
            var f := FilterPlan(s2, FilterJobs(d, p));
            var s3 := ApplyAll(s2, f.writes);
            var w := WasmPlan(s3, PluginJobs(WasmJobs(d, p), o.domains));
            var s4 := ApplyAll(s3, w.writes);
      && l.err.None? && f.err.None? && w.err.None?
      && ApplyAll(s, StagesPlan(s, d, p, o).writes) == ApplyAll(s4, RefsPlan(d, p).writes)
  {
    var l := LimitsPlan(s, d, p, o.entries);
    var s2 := ApplyAll(s, l.writes);
    var f := FilterPlan(s2, FilterJobs(d, p));
    var s3 := ApplyAll(s2, f.writes);
    var w := WasmPlan(s3, PluginJobs(WasmJobs(d, p), o.domains));
    ThenApplied(s, DerivedPlan(s, d, p, o), RefsPlan(d, p));
    ThenApplied(s, l, ArtefactPlan(s2, d, p, o.domains));
    ThenApplied(s2, f, w);
  }

  lemma WritesLimitsPrefix(a: Plan, b: Plan)
    requires a.writes != [] && a.writes[0].SetLimits?
    ensures Then(a, b).writes != [] && Then(a, b).writes[0] == a.writes[0] && WritesLimits(Then(a, b).writes)
  {
    assert Then(a, b).writes[0] == a.writes[0];
  }

  lemma StagesWriteLimits(s: ClusterState, d: Diff, p: ObjectKey, o: Order)
    requires StagesPlan(s, d, p, o).err.None? && LimitsPlan(s, d, p, o.entries).writes != []
    ensures WritesLimits(StagesPlan(s, d, p, o).writes)
  {
    var l := LimitsPlan(s, d, p, o.entries);
    WritesLimitsPrefix(l, ArtefactPlan(ApplyAll(s, l.writes), d, p, o.domains));
    WritesLimitsPrefix(DerivedPlan(s, d, p, o), RefsPlan(d, p));
  }

  /** References, filters and plugins after a completed reconcile, and what it leaves alone. */
  ghost predicate GatewayEffect(s: ClusterState, p: ObjectKey, t: ClusterState)
    requires p in s.policies && TargetOf(s, p).Ok? && TargetedBy(s, p).Ok?
  {
    var targeted := TargetedBy(s, p).value;
    && t == Locked(s, p).(refs := t.refs, limitador := t.limitador, filters := t.filters, plugins := t.plugins)
    && SameStatus(s, t)
    && (forall g :: Ann(t, g) == EditedAnn(s, p, targeted, g))
    && (forall g :: ArtefactsAt(s, p, targeted, g, t))
  }

  /** Limitador is there, and nothing but its limits may have changed. */
  ghost predicate SameStatus(s: ClusterState, t: ClusterState) {
    && s.limitador.Some? && t.limitador.Some?
    && t.limitador.value == s.limitador.value.(limits := t.limitador.value.limits)
  }

  /** Everything a completed reconcile leaves behind. */
  ghost predicate Effect(s: ClusterState, p: ObjectKey, t: ClusterState)
    requires p in s.policies && TargetOf(s, p).Ok? && TargetedBy(s, p).Ok?
  {
    && GatewayEffect(s, p, t)
    && forall e: Entry :: Held(t)[e] == ReconciledCount(s, p, TargetedBy(s, p).value, e)
  }

  /** Filter and plugin of one gateway after the reconcile: made anew where the policy
      targets it or was listed, except that filters of gateways that stay are skipped;
      as before everywhere else. */
  ghost predicate ArtefactsAt(s: ClusterState, p: ObjectKey, targeted: seq<ObjectKey>, g: ObjectKey, t: ClusterState) {
    if g !in s.topo.gateways then SameFilterAt(s, t, g) && SamePluginAt(s, t, g)
    else
      var j := JobAt(s, p, targeted, g);
      && (if g in targeted <==> p !in Refs(s, g) then FilterMatches(s, j, t) else SameFilterAt(s, t, g))
      && (if g in targeted || p in Refs(s, g) then PluginMatches(s, j, t) else SamePluginAt(s, t, g))
  }

  lemma {:induction false} FilterFrame(s: ClusterState, ws: seq<Write>)
    requires forall w :: w in ws ==> w.PutFilter? || w.DeleteFilter?
    ensures var t := ApplyAll(s, ws); t == s.(filters := t.filters)
    decreases |ws|
  {
    if ws != [] {
      assert ws[0].PutFilter? || ws[0].DeleteFilter?;
      FilterFrame(Apply(s, ws[0]), ws[1..]);
    }
  }

  lemma {:induction false} PluginFrame(s: ClusterState, ws: seq<Write>)
    requires forall w :: w in ws ==> w.PutPlugin? || w.DeletePlugin?
    ensures var t := ApplyAll(s, ws); t == s.(plugins := t.plugins)
    decreases |ws|
  {
    if ws != [] {
      assert ws[0].PutPlugin? || ws[0].DeletePlugin?;
      PluginFrame(Apply(s, ws[0]), ws[1..]);
    }
  }

  lemma SameUpdate(s: ClusterState, t: ClusterState, d: Diff, p: ObjectKey)
    requires t == s.(finalizers := t.finalizers, backRefs := t.backRefs)
    ensures forall e: Entry :: UpdatedCount(t, d, p, e) == UpdatedCount(s, d, p, e)
  {
  }

  lemma LimitsOfRun(s: ClusterState, s1: ClusterState, p: ObjectKey, targeted: seq<ObjectKey>, o: Order)
    requires Lists(o.listing, s.topo) && NamesOk(s.topo)
    requires s1 == s.(finalizers := s1.finalizers, backRefs := s1.backRefs)
    requires var d := DiffOf(s, p, targeted, o.listing);
             && LimitsPlan(s1, d, p, o.entries).err.None?
             && (LimitsPlan(s1, d, p, o.entries).writes != [] ==> EnumeratesUpdate(s, d, p, o.entries))
    ensures var d := DiffOf(s, p, targeted, o.listing);
            var t := ApplyAll(s1, LimitsPlan(s1, d, p, o.entries).writes);
      && t == s1.(limitador := t.limitador) && t.limitador.Some?
      && forall e: Entry :: Held(t)[e] == ReconciledCount(s, p, targeted, e)
  {
    var d := DiffOf(s, p, targeted, o.listing);
    SameUpdate(s, s1, d, p);
    forall e: Entry
      ensures UpdatedCount(s, d, p, e) == ReconciledCount(s, p, targeted, e)
    {
      UpdatedIsReconciled(s, p, targeted, o.listing, e);
    }
    forall k | k in KeysOf(d.added) || k in KeysOf(d.same)
      ensures k in s.topo.gateways
    {
      DiffKeys(s, p, targeted, o.listing, k);
    }
    LimitsApplied(s1, d, p, o.entries);
  }

  lemma ArtefactsOfRun(s: ClusterState, s2: ClusterState, p: ObjectKey, targeted: seq<ObjectKey>, o: Order,
                       g: ObjectKey)
    requires Lists(o.listing, s.topo)
    requires s2.topo == s.topo && s2.policies == s.policies && s2.filters == s.filters && s2.plugins == s.plugins
    requires SameStatus(s, s2)
    requires var d := DiffOf(s, p, targeted, o.listing);
             var s3 := ApplyAll(s2, FilterPlan(s2, FilterJobs(d, p)).writes);
             && VisitsJobs(s, WasmJobs(d, p), o.domains)
             && FilterPlan(s2, FilterJobs(d, p)).err.None?
             && WasmPlan(s3, PluginJobs(WasmJobs(d, p), o.domains)).err.None?
    ensures var d := DiffOf(s, p, targeted, o.listing);
            var s3 := ApplyAll(s2, FilterPlan(s2, FilterJobs(d, p)).writes);
            ArtefactsAt(s, p, targeted, g, ApplyAll(s3, WasmPlan(s3, PluginJobs(WasmJobs(d, p), o.domains)).writes))
  {
    var d := DiffOf(s, p, targeted, o.listing);
    var s3 := ApplyAll(s2, FilterPlan(s2, FilterJobs(d, p)).writes);
    var pjs := PluginJobs(WasmJobs(d, p), o.domains);
    JobsAreJobAt(s, p, targeted, o.listing);
    if g in s.topo.gateways {
      JobsCover(s, p, targeted, o.listing, g);
    }
    FilterAt(s2, FilterJobs(d, p), g);
    FilterPlanWrites(s2, FilterJobs(d, p));
    FilterFrame(s2, FilterPlan(s2, FilterJobs(d, p)).writes);
    WasmPlanWrites(s3, pjs);
    PluginFrame(s3, WasmPlan(s3, pjs).writes);
    PluginsOfRun(s, s3, p, targeted, o, g);
  }

  lemma PluginsOfRun(s: ClusterState, s3: ClusterState, p: ObjectKey, targeted: seq<ObjectKey>, o: Order, g: ObjectKey)
    requires Lists(o.listing, s.topo)
    requires s3.topo == s.topo && s3.policies == s.policies && s3.plugins == s.plugins
    requires var d := DiffOf(s, p, targeted, o.listing);
             VisitsJobs(s, WasmJobs(d, p), o.domains) && WasmPlan(s3, PluginJobs(WasmJobs(d, p), o.domains)).err.None?
    ensures var d := DiffOf(s, p, targeted, o.listing);
            var t := ApplyAll(s3, WasmPlan(s3, PluginJobs(WasmJobs(d, p), o.domains)).writes);
            if g in s.topo.gateways && (g in targeted || p in Refs(s, g))
            then PluginMatches(s, JobAt(s, p, targeted, g), t) else SamePluginAt(s, t, g)
  {
    var d := DiffOf(s, p, targeted, o.listing);
    var pjs := PluginJobs(WasmJobs(d, p), o.domains);
    var t := ApplyAll(s3, WasmPlan(s3, pjs).writes);
    JobsAreJobAt(s, p, targeted, o.listing);
    VisitsTransfer(s, s3, WasmJobs(d, p), o.domains);
    PluginJobsMembers(s3, WasmJobs(d, p), o.domains);
    if g in s.topo.gateways {
      JobsCover(s, p, targeted, o.listing, g);
    }
    if g in s.topo.gateways && (g in targeted || p in Refs(s, g)) {
      var pj :| pj in pjs && pj.job == JobAt(s, p, targeted, g);
      WasmAt(s3, pjs, pj);
      MatchesTransfer(s, s3, pj.job, t);
    } else {
      WasmFrameAt(s3, pjs, g);
    }
  }

  lemma LimitsFrame(s: ClusterState, d: Diff, p: ObjectKey, entries: seq<Entry>)
    requires LimitsPlan(s, d, p, entries).err.None?
    ensures var t := ApplyAll(s, LimitsPlan(s, d, p, entries).writes);
      t == s.(limitador := t.limitador) && SameStatus(s, t)
  {
    if LimitsPlan(s, d, p, entries).writes != [] {
      LimitsWritten(s, PrintAll(entries));
    }
  }

  /** References, filters and plugins after every completed reconcile of a live policy. */
  lemma ReconcileGatewayEffect(s: ClusterState, p: ObjectKey, o: Order)
    requires Live(s, p) && Completed(s, p, o)
    ensures TargetOf(s, p).Ok? && TargetedBy(s, p).Ok?
    ensures GatewayEffect(s, p, After(s, p, o))
  {
    ReconcileShape(s, p, o);
    var targeted := TargetedBy(s, p).value;
    var d := DiffOf(s, p, targeted, o.listing);
    var s1 := Locked(s, p);
    StagesShape(s1, d, p, o);
    LimitsFrame(s1, d, p, o.entries);
    var s2 := ApplyAll(s1, LimitsPlan(s1, d, p, o.entries).writes);
    EffectFrames(s2, d, p, o.domains);
    forall g
      ensures ArtefactsAt(s, p, targeted, g, After(s, p, o))
    {
      ArtefactsOfRun(s, s2, p, targeted, o, g);
    }
    forall g
      ensures Ann(After(s, p, o), g) == EditedAnn(s, p, targeted, g)
    {
      var s3 := ApplyAll(s2, FilterPlan(s2, FilterJobs(d, p)).writes);
      RefsApplied(s, ApplyAll(s3, WasmPlan(s3, PluginJobs(WasmJobs(d, p), o.domains)).writes), p, targeted,
          o.listing, g);
    }
  }

  lemma ReconcileLimitsEffect(s: ClusterState, p: ObjectKey, o: Order)
    requires Live(s, p) && Completed(s, p, o) && NamesOk(s.topo)
    ensures TargetOf(s, p).Ok? && TargetedBy(s, p).Ok?
    ensures forall e: Entry :: Held(After(s, p, o))[e] == ReconciledCount(s, p, TargetedBy(s, p).value, e)
  {
    ReconcileShape(s, p, o);
    var targeted := TargetedBy(s, p).value;
    var d := DiffOf(s, p, targeted, o.listing);
    var s1 := Locked(s, p);
    StagesShape(s1, d, p, o);
    if LimitsPlan(s1, d, p, o.entries).writes != [] {
      StagesWriteLimits(s1, d, p, o);
    }
    LimitsOfRun(s, s1, p, targeted, o);
    EffectFrames(ApplyAll(s1, LimitsPlan(s1, d, p, o.entries).writes), d, p, o.domains);
  }

  /** The effect of every completed reconcile of a live policy, in any listing and
      printing order. */
  lemma ReconcileEffect(s: ClusterState, p: ObjectKey, o: Order)
    requires Live(s, p) && Completed(s, p, o) && NamesOk(s.topo)
    ensures TargetOf(s, p).Ok? && TargetedBy(s, p).Ok?
    ensures Effect(s, p, After(s, p, o))
  {
    ReconcileGatewayEffect(s, p, o);
    ReconcileLimitsEffect(s, p, o);
  }

  lemma EffectFrames(s2: ClusterState, d: Diff, p: ObjectKey, domains: seq<seq<string>>)
    ensures var f := FilterPlan(s2, FilterJobs(d, p));
            var s3 := ApplyAll(s2, f.writes);
            var s4 := ApplyAll(s3, WasmPlan(s3, PluginJobs(WasmJobs(d, p), domains)).writes);
            var t := ApplyAll(s4, RefsPlan(d, p).writes);
      && s4 == s2.(filters := s4.filters, plugins := s4.plugins)
      && t == s4.(refs := t.refs)
  {
    var f := FilterPlan(s2, FilterJobs(d, p));
    var s3 := ApplyAll(s2, f.writes);
    var w := WasmPlan(s3, PluginJobs(WasmJobs(d, p), domains));
    FilterPlanWrites(s2, FilterJobs(d, p));
    FilterFrame(s2, f.writes);
    WasmPlanWrites(s3, PluginJobs(WasmJobs(d, p), domains));
    PluginFrame(s3, w.writes);
    RefWritesOnly(d.left, p);
    RefWritesOnly(d.added, p);
    RefFrame(ApplyAll(s3, w.writes), RefsPlan(d, p).writes);
  }
}

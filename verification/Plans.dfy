/** controllers/apim/ratelimitpolicy_*.go: the plan of every reconcile stage, and
    of a whole reconcile or finalize, as a function of the state it starts in. */
module Plans {
  import opened Cluster
  import opened Common
  import opened GatewayRefs
  import opened Hostnames
  import opened LimitIndexes
  import opened Merging
  import opened MergeLaws
  import opened TargetRefs
  import opened WasmPlugins

  /** `gatewayDiff`. */
  datatype Diff = Diff(added: seq<Snapshot>, same: seq<Snapshot>, left: seq<Snapshot>)

  /** What a run leaves open: the order in which gateways are listed, the order in
      which the updated index is printed, and, for each gateway whose plugin is
      considered, the order in which its domains are visited. */
  datatype Order = Order(listing: seq<ObjectKey>, entries: seq<Entry>, domains: seq<seq<string>>)

  // ----- limits -----

  function MergeErrors(s: ClusterState, snaps: seq<Snapshot>, extra: seq<ObjectKey>): Option<Error> {
    if snaps == [] then None
    else
      var init := MergeErrors(s, snaps[..|snaps| - 1], extra);
      if init.Some? then init
      else MergeError(s.policies, s.topo.routes, RefKeys(snaps[|snaps| - 1].annotation) + extra)
  }

  /** The first merge failure: same gateways are merged before new ones. */
  function LimitsError(s: ClusterState, d: Diff, p: ObjectKey): Option<Error> {
    var same := MergeErrors(s, d.same, []);
    if same.Some? then same else MergeErrors(s, d.added, [p])
  }

  ghost function MergedAt(s: ClusterState, refs: seq<ObjectKey>, e: Entry): nat {
    MergeCount(s.policies, s.topo.routes, HostsOf(s.topo, e.gateway), refs, e.domain, e.limit)
  }

  /** How often the updated index holds an entry: left gateways hold nothing, same
      and new gateways the merge over their (projected) references, every other
      gateway what it held before. */
  ghost function UpdatedCount(s: ClusterState, d: Diff, p: ObjectKey, e: Entry): nat {
    if e.gateway in KeysOf(d.added) then MergedAt(s, Refs(s, e.gateway) + [p], e)
    else if e.gateway in KeysOf(d.same) then MergedAt(s, Refs(s, e.gateway), e)
    else if e.gateway in KeysOf(d.left) then 0
    else Held(s)[e]
  }

  /** The updated index equals the stored one. */
  ghost predicate LimitsSettled(s: ClusterState, d: Diff, p: ObjectKey) {
    forall e: Entry :: UpdatedCount(s, d, p, e) == Held(s)[e]
  }

  ghost function LimitsPlan(s: ClusterState, d: Diff, p: ObjectKey, entries: seq<Entry>): Plan {
    if s.limitador.None? then Fail(NotFound)
    else if LimitsError(s, d, p).Some? then Fail(LimitsError(s, d, p).value)
    else if LimitsSettled(s, d, p) then DONE
    else Plan([SetLimits(PrintAll(entries))], None)
  }

  /** `entries` is one enumeration of the updated index. */
  ghost predicate EnumeratesUpdate(s: ClusterState, d: Diff, p: ObjectKey, entries: seq<Entry>) {
    forall e: Entry :: multiset(entries)[e] == UpdatedCount(s, d, p, e)
  }

  // ----- per-gateway artefacts -----

  /** One gateway with the references to build its filter or plugin from. */
  datatype Job = Job(gateway: ObjectKey, listeners: seq<Option<string>>, refs: seq<ObjectKey>)

  function LeftJob(g: Snapshot, p: ObjectKey): Job {
    Job(g.key, g.listeners, RemoveFirst(RefKeys(g.annotation), p))
  }

  function SameJob(g: Snapshot): Job {
    Job(g.key, g.listeners, RefKeys(g.annotation))
  }

  function NewJob(g: Snapshot, p: ObjectKey): Job {
    var refs := RefKeys(g.annotation);
    Job(g.key, g.listeners, if p in refs then refs else refs + [p])
  }

  function LeftJobs(gs: seq<Snapshot>, p: ObjectKey): seq<Job> {
    seq(|gs|, i requires 0 <= i < |gs| => LeftJob(gs[i], p))
  }

  function SameJobs(gs: seq<Snapshot>): seq<Job> {
    seq(|gs|, i requires 0 <= i < |gs| => SameJob(gs[i]))
  }

  function NewJobs(gs: seq<Snapshot>, p: ObjectKey): seq<Job> {
    seq(|gs|, i requires 0 <= i < |gs| => NewJob(gs[i], p))
  }

  function FilterStep(s: ClusterState, j: Job): Plan {
    if j.refs == [] then (if j.gateway in s.filters then Plan([DeleteFilter(j.gateway)], None) else DONE)
    else if s.limitador.None? then Fail(NotFound)
    else if !s.limitador.value.ready then Fail(LimitadorNotReady)
    else Plan([PutFilter(j.gateway, s.limitador.value.endpoint)], None)
  }

  function FilterPlan(s: ClusterState, jobs: seq<Job>): Plan
    decreases |jobs|
  {
    if jobs == [] then DONE
    else
      var step := FilterStep(s, jobs[0]);
      Then(step, FilterPlan(ApplyAll(s, step.writes), jobs[1..]))
  }

  /** The gateway's part of the merge of its job's references. */
  ghost function PluginParts(s: ClusterState, j: Job): seq<Part<GatewayAction>>
    requires MergeError(s.policies, s.topo.routes, j.refs).None?
  {
    ActionParts(s.policies, s.topo.routes, ListenerHostnames(j.listeners), Load(s.policies, j.refs).value)
  }

  /** A job together with the order in which the domains of its plugin are visited. */
  datatype PluginJob = PluginJob(job: Job, domains: seq<string>)

  function PluginJobs(jobs: seq<Job>, domains: seq<seq<string>>): seq<PluginJob> {
    seq(|jobs|, i requires 0 <= i < |jobs| => PluginJob(jobs[i], if i < |domains| then domains[i] else []))
  }

  ghost predicate VisitsJob(s: ClusterState, j: Job, domains: seq<string>) {
    MergeError(s.policies, s.topo.routes, j.refs).None? ==> Visits(domains, PluginParts(s, j))
  }

  /** `domains` has a possible visiting order for each of the jobs. */
  ghost predicate VisitsJobs(s: ClusterState, jobs: seq<Job>, domains: seq<seq<string>>) {
    |domains| == |jobs| && forall i :: 0 <= i < |jobs| ==> VisitsJob(s, jobs[i], domains[i])
  }

  ghost function DesiredPlugin(s: ClusterState, pj: PluginJob): seq<WasmPolicy>
    requires MergeError(s.policies, s.topo.routes, pj.job.refs).None?
  {
    ListPolicies(pj.job.gateway, PluginParts(s, pj.job), pj.domains)
  }

  /** The stored and the desired list are compared in order. */
  ghost function WasmStep(s: ClusterState, pj: PluginJob): Plan {
    var j := pj.job;
    if j.refs == [] then (if j.gateway in s.plugins then Plan([DeletePlugin(j.gateway)], None) else DONE)
    else if MergeError(s.policies, s.topo.routes, j.refs).Some? then
      Fail(MergeError(s.policies, s.topo.routes, j.refs).value)
    else if j.gateway in s.plugins && s.plugins[j.gateway] == DesiredPlugin(s, pj) then DONE
    else Plan([PutPlugin(j.gateway, DesiredPlugin(s, pj))], None)
  }

  ghost function WasmPlan(s: ClusterState, jobs: seq<PluginJob>): Plan
    decreases |jobs|
  {
    if jobs == [] then DONE
    else
      var step := WasmStep(s, jobs[0]);
      Then(step, WasmPlan(ApplyAll(s, step.writes), jobs[1..]))
  }

  // ----- references -----

  /** The write one snapshot causes, if any. */
  function RefWrite(g: Snapshot, edited: RefAnnotation): seq<Write> {
    if edited != g.annotation then [SetRefs(g.key, edited)] else []
  }

  /** Each annotation edited, and written if that changed it. */
  function EditWrites(gs: seq<Snapshot>, edit: RefAnnotation -> RefAnnotation): seq<Write> {
    if gs == [] then [] else RefWrite(gs[0], edit(gs[0].annotation)) + EditWrites(gs[1..], edit)
  }

  function Deletion(p: ObjectKey): RefAnnotation -> RefAnnotation {
    a => DeleteRef(a, p)
  }

  function Addition(p: ObjectKey): RefAnnotation -> RefAnnotation {
    a => AddRef(a, p)
  }

  function DeleteRefWrites(gs: seq<Snapshot>, p: ObjectKey): seq<Write> {
    EditWrites(gs, Deletion(p))
  }

  function AddRefWrites(gs: seq<Snapshot>, p: ObjectKey): seq<Write> {
    EditWrites(gs, Addition(p))
  }

  function RefsPlan(d: Diff, p: ObjectKey): Plan {
    Plan(DeleteRefWrites(d.left, p) + AddRefWrites(d.added, p), None)
  }

  /** The left gateways after their in-memory annotations lost the policy. */
  function Forget(gs: seq<Snapshot>, p: ObjectKey): seq<Snapshot> {
    seq(|gs|, i requires 0 <= i < |gs| => gs[i].(annotation := DeleteRef(gs[i].annotation, p)))
  }

  // ----- back references -----

  function TargetOf(s: ClusterState, p: ObjectKey): Result<Target>
    requires p in s.policies
  {
    FetchValidTargetRef(s.topo, s.policies[p].targetRef, p.namespace)
  }

  function TargetedBy(s: ClusterState, p: ObjectKey): Result<seq<ObjectKey>>
    requires p in s.policies
  {
    Targeted(s.topo, s.policies[p].targetRef, p.namespace)
  }

  /** `ReconcileTargetBackReference`. */
  function AcquirePlan(s: ClusterState, p: ObjectKey): Plan
    requires p in s.policies
  {
    var target := TargetOf(s, p);
    if target.Err? then Fail(target.error)
    else if target.value !in s.backRefs then Plan([SetBackRef(target.value, p)], None)
    else if s.backRefs[target.value] != p then Fail(AlreadyReferenced)
    else DONE
  }

  /** `DeleteTargetBackReference`: the annotation goes, whoever it names. */
  function ReleasePlan(s: ClusterState, p: ObjectKey): Plan
    requires p in s.policies
  {
    var target := TargetOf(s, p);
    if target.Err? then (if target.error == NotFound then DONE else Fail(target.error))
    else if target.value in s.backRefs then Plan([ClearBackRef(target.value)], None)
    else DONE
  }

  // ----- whole runs -----

  ghost function DiffOf(s: ClusterState, p: ObjectKey, targeted: seq<ObjectKey>, listing: seq<ObjectKey>): Diff
    requires Lists(listing, s.topo)
  {
    var items := SnapshotsOf(s, listing);
    Diff(Select(items, NewFilter(p, targeted)), Select(items, SameFilter(p, targeted)),
         Select(items, LeftFilter(p, targeted)))
  }

  /** Filters are reconciled on left and new gateways only. */
  function FilterJobs(d: Diff, p: ObjectKey): seq<Job> {
    LeftJobs(d.left, p) + NewJobs(d.added, p)
  }

  function WasmJobs(d: Diff, p: ObjectKey): seq<Job> {
    LeftJobs(d.left, p) + SameJobs(d.same) + NewJobs(d.added, p)
  }

  ghost function ArtefactPlan(s: ClusterState, d: Diff, p: ObjectKey, domains: seq<seq<string>>): Plan {
    var f := FilterPlan(s, FilterJobs(d, p));
    Then(f, WasmPlan(ApplyAll(s, f.writes), PluginJobs(WasmJobs(d, p), domains)))
  }

  /** Limits, filter and plugin. */
  ghost function DerivedPlan(s: ClusterState, d: Diff, p: ObjectKey, o: Order): Plan {
    var l := LimitsPlan(s, d, p, o.entries);
    Then(l, ArtefactPlan(ApplyAll(s, l.writes), d, p, o.domains))
  }

  /** Everything derived, and the references last. */
  ghost function StagesPlan(s: ClusterState, d: Diff, p: ObjectKey, o: Order): Plan {
    Then(DerivedPlan(s, d, p, o), RefsPlan(d, p))
  }

  /** `reconcileGatewayDiffs`. */
  ghost function DiffPlan(s: ClusterState, p: ObjectKey, o: Order): Plan
    requires p in s.policies && Lists(o.listing, s.topo)
  {
    var targeted := TargetedBy(s, p);
    if targeted.Err? then Fail(targeted.error)
    else StagesPlan(s, DiffOf(s, p, targeted.value, o.listing), p, o)
  }

  /** `validateRuleHosts`. */
  ghost function HostsError(s: ClusterState, p: ObjectKey): Option<Error>
    requires p in s.policies
  {
    var hosts := HostnamesOfTarget(s.topo, s.policies[p].targetRef, p.namespace);
    if hosts.Err? then Some(hosts.error)
    else
      var invalid := FirstUncovered(hosts.value, PolicyHosts(s.policies[p].rateLimits));
      if invalid.Some? then Some(InvalidRuleHost(invalid.value)) else None
  }

  /** `reconcileSpec`: the back reference is taken before anything derived is written. */
  ghost function SpecPlan(s: ClusterState, p: ObjectKey, o: Order): Plan
    requires p in s.policies && Lists(o.listing, s.topo)
  {
    if !Validate(s.policies[p], p.namespace) then Fail(InvalidPolicy)
    else if HostsError(s, p).Some? then Fail(HostsError(s, p).value)
    else
      var a := AcquirePlan(s, p);
      if a.err.Some? then a else Then(a, DiffPlan(ApplyAll(s, a.writes), p, o))
  }

  /** The gateways a deleted policy still targets, each as fetched on its own. */
  function FinalizeTargets(s: ClusterState, targeted: seq<ObjectKey>): (gs: seq<Snapshot>)
    ensures forall g :: g in gs ==> g.key in s.topo.gateways && g == SnapshotOf(s, g.key)
  {
    if targeted == [] then []
    else
      var last := targeted[|targeted| - 1];
      FinalizeTargets(s, targeted[..|targeted| - 1]) + if last in s.topo.gateways then [SnapshotOf(s, last)] else []
  }

  /** The limits stage of a finalize, which shrugs off a missing Limitador. */
  ghost function TolerantLimitsPlan(s: ClusterState, left: seq<Snapshot>, p: ObjectKey, entries: seq<Entry>): Plan {
    var l := LimitsPlan(s, Diff([], [], left), p, entries);
    if l.err == Some(NotFound) then DONE else l
  }

  ghost function WithdrawArtefactsPlan(s: ClusterState, left: seq<Snapshot>, p: ObjectKey,
                                       domains: seq<seq<string>>): Plan {
    var w := WasmPlan(s, PluginJobs(LeftJobs(left, p), domains));
    Then(w, FilterPlan(ApplyAll(s, w.writes), LeftJobs(left, p)))
  }

  /** The middle of `finalizeRLP`, after the references were removed. */
  ghost function WithdrawPlan(s: ClusterState, left: seq<Snapshot>, p: ObjectKey, o: Order): Plan {
    var a := WithdrawArtefactsPlan(s, left, p, o.domains);
    Then(a, TolerantLimitsPlan(ApplyAll(s, a.writes), left, p, o.entries))
  }

  /** `computeFinalizeGatewayDiff`, when it succeeds. */
  ghost function FinalizeDiff(s: ClusterState, p: ObjectKey): Diff
    requires p in s.policies
  {
    var targeted := TargetedBy(s, p);
    Diff([], [], FinalizeTargets(s, if targeted.Ok? then targeted.value else []))
  }

  ghost function RemovePlan(s: ClusterState, left: seq<Snapshot>, p: ObjectKey, o: Order): Plan {
    var r := RefsPlan(Diff([], [], left), p);
    Then(r, WithdrawPlan(ApplyAll(s, r.writes), Forget(left, p), p, o))
  }

  /** `finalizeRLP`: references first, back reference last. */
  ghost function FinalizePlan(s: ClusterState, p: ObjectKey, o: Order): Plan
    requires p in s.policies
  {
    var targeted := TargetedBy(s, p);
    if targeted.Err? && targeted.error != NotFound then Fail(targeted.error)
    else Then(RemovePlan(s, FinalizeDiff(s, p).left, p, o), ReleasePlan(s, p))
  }

  /** One call of `Reconcile` for policy `p`. */
  ghost function ReconcilePlan(s: ClusterState, p: ObjectKey, o: Order): Plan
    requires Lists(o.listing, s.topo)
  {
    if p !in s.policies then DONE
    else if p in s.deleting then
      if p in s.finalizers then Then(FinalizePlan(s, p, o), Plan([RemoveFinalizer(p)], None)) else DONE
    else
      var f := FinalizerPlan(s, p);
      Then(f, SpecPlan(ApplyAll(s, f.writes), p, o))
  }

  ghost function FinalizerPlan(s: ClusterState, p: ObjectKey): Plan {
    if p in s.finalizers then DONE else Plan([AddFinalizer(p)], None)
  }

  /** The gateway differences the limits stage of a run works on. */
  ghost function RunDiff(s: ClusterState, p: ObjectKey, listing: seq<ObjectKey>): Diff
    requires p in s.policies && Lists(listing, s.topo)
  {
    var targeted := TargetedBy(s, p);
    if p in s.deleting then FinalizeDiff(s, p)
    else DiffOf(s, p, if targeted.Ok? then targeted.value else [], listing)
  }

  /** The jobs of the run's plugin stage. */
  ghost function RunJobs(s: ClusterState, p: ObjectKey, listing: seq<ObjectKey>): seq<Job>
    requires p in s.policies && Lists(listing, s.topo)
  {
    var d := RunDiff(s, p, listing);
    if p in s.deleting then LeftJobs(Forget(d.left, p), p) else WasmJobs(d, p)
  }

  predicate WritesLimits(ws: seq<Write>) {
    exists w :: w in ws && w.SetLimits?
  }

  /** If the run wrote limits, `o.entries` enumerates the updated index; `o.domains`
      visits the domains of every gateway considered. */
  ghost predicate FaithfulOrder(s: ClusterState, p: ObjectKey, o: Order, ws: seq<Write>) {
    && Lists(o.listing, s.topo)
    && (p in s.policies ==>
          && (WritesLimits(ws) ==> EnumeratesUpdate(s, RunDiff(s, p, o.listing), p, o.entries))
          && VisitsJobs(s, RunJobs(s, p, o.listing), o.domains))
  }

  lemma VisitsTransfer(s: ClusterState, t: ClusterState, jobs: seq<Job>, domains: seq<seq<string>>)
    requires t.topo == s.topo && t.policies == s.policies
    ensures VisitsJobs(s, jobs, domains) <==> VisitsJobs(t, jobs, domains)
  {
    assert forall j, ds :: VisitsJob(s, j, ds) == VisitsJob(t, j, ds);
  }

  /** Some possible order for the domains of a job. */
  ghost function AnyVisit(s: ClusterState, j: Job): (domains: seq<string>)
    ensures VisitsJob(s, j, domains)
  {
    if MergeError(s.policies, s.topo.routes, j.refs).Some? then [] else Listing(Domains(PluginParts(s, j)))
  }

  ghost function AnyVisits(s: ClusterState, jobs: seq<Job>): (domains: seq<seq<string>>)
    ensures VisitsJobs(s, jobs, domains)
  {
    seq(|jobs|, i requires 0 <= i < |jobs| => AnyVisit(s, jobs[i]))
  }

  ghost function AnyOrder(s: ClusterState, p: ObjectKey): (o: Order)
    ensures FaithfulOrder(s, p, o, [])
  {
    var listing := Listing(s.topo.gateways.Keys);
    Order(listing, [], if p in s.policies then AnyVisits(s, RunJobs(s, p, listing)) else [])
  }

  // ----- plans over concatenated job lists -----

  lemma ThenAssociates(a: Plan, b: Plan, c: Plan)
    ensures Then(a, Then(b, c)) == Then(Then(a, b), c)
  {
    if a.err.None? && b.err.None? {
      assert a.writes + (b.writes + c.writes) == (a.writes + b.writes) + c.writes;
    }
  }

  lemma {:induction false} FilterPlanConcat(s: ClusterState, a: seq<Job>, b: seq<Job>)
    ensures FilterPlan(s, a + b) == Then(FilterPlan(s, a), FilterPlan(ApplyAll(s, FilterPlan(s, a).writes), b))
    decreases |a|
  {
    if a == [] {
      assert a + b == b;
    } else {
      assert (a + b)[1..] == a[1..] + b;
      var step := FilterStep(s, a[0]);
      var s1 := ApplyAll(s, step.writes);
      FilterPlanConcat(s1, a[1..], b);
      ApplyConcat(s, step.writes, FilterPlan(s1, a[1..]).writes);
      ThenAssociates(step, FilterPlan(s1, a[1..]), FilterPlan(ApplyAll(s1, FilterPlan(s1, a[1..]).writes), b));
    }
  }

  lemma {:induction false} WasmPlanConcat(s: ClusterState, a: seq<PluginJob>, b: seq<PluginJob>)
    ensures WasmPlan(s, a + b) == Then(WasmPlan(s, a), WasmPlan(ApplyAll(s, WasmPlan(s, a).writes), b))
    decreases |a|
  {
    if a == [] {
      assert a + b == b;
    } else {
      assert (a + b)[1..] == a[1..] + b;
      var step := WasmStep(s, a[0]);
      var s1 := ApplyAll(s, step.writes);
      WasmPlanConcat(s1, a[1..], b);
      ApplyConcat(s, step.writes, WasmPlan(s1, a[1..]).writes);
      ThenAssociates(step, WasmPlan(s1, a[1..]), WasmPlan(ApplyAll(s1, WasmPlan(s1, a[1..]).writes), b));
    }
  }

  // ----- what the derived stages leave alone -----

  /** Writes of everything but finalizers and back references. */
  predicate Derived(w: Write) {
    w.SetRefs? || w.SetLimits? || w.PutFilter? || w.DeleteFilter? || w.PutPlugin? || w.DeletePlugin?
  }

  /** Writes of filters and plugins. */
  predicate Artefact(w: Write) {
    w.PutFilter? || w.DeleteFilter? || w.PutPlugin? || w.DeletePlugin?
  }

  ghost predicate AllDerived(ws: seq<Write>) {
    forall w :: w in ws ==> Derived(w)
  }

  ghost predicate SameOwnership(s: ClusterState, t: ClusterState) {
    && t.topo == s.topo && t.policies == s.policies && t.finalizers == s.finalizers
    && t.deleting == s.deleting && t.backRefs == s.backRefs
  }

  lemma {:induction false} DerivedKeepsOwnership(s: ClusterState, ws: seq<Write>)
    requires AllDerived(ws)
    ensures SameOwnership(s, ApplyAll(s, ws))
    decreases |ws|
  {
    if ws != [] {
      assert Derived(ws[0]);
      DerivedKeepsOwnership(Apply(s, ws[0]), ws[1..]);
    }
  }

  lemma {:induction false} FilterPlanWrites(s: ClusterState, jobs: seq<Job>)
    ensures forall w :: w in FilterPlan(s, jobs).writes ==> w.PutFilter? || w.DeleteFilter?
    decreases |jobs|
  {
    if jobs != [] {
      FilterPlanWrites(ApplyAll(s, FilterStep(s, jobs[0]).writes), jobs[1..]);
    }
  }

  lemma {:induction false} WasmPlanWrites(s: ClusterState, jobs: seq<PluginJob>)
    ensures forall w :: w in WasmPlan(s, jobs).writes ==> w.PutPlugin? || w.DeletePlugin?
    decreases |jobs|
  {
    if jobs != [] {
      WasmPlanWrites(ApplyAll(s, WasmStep(s, jobs[0]).writes), jobs[1..]);
    }
  }

  lemma {:induction false} EditWritesMembers(gs: seq<Snapshot>, edit: RefAnnotation -> RefAnnotation)
    ensures forall w :: w in EditWrites(gs, edit) ==> exists g :: g in gs && w == SetRefs(g.key, edit(g.annotation))
  {
    if gs != [] {
      EditWritesMembers(gs[1..], edit);
      assert gs[0] in gs && forall g :: g in gs[1..] ==> g in gs;
    }
  }

  lemma RefWritesOnly(gs: seq<Snapshot>, p: ObjectKey)
    ensures forall w :: w in DeleteRefWrites(gs, p) ==> w.SetRefs?
    ensures forall w :: w in AddRefWrites(gs, p) ==> w.SetRefs?
  {
    EditWritesMembers(gs, Deletion(p));
    EditWritesMembers(gs, Addition(p));
  }

  lemma ArtefactPlanWrites(s: ClusterState, d: Diff, p: ObjectKey, domains: seq<seq<string>>)
    ensures forall w :: w in ArtefactPlan(s, d, p, domains).writes ==> Artefact(w)
  {
    var f := FilterPlan(s, FilterJobs(d, p));
    FilterPlanWrites(s, FilterJobs(d, p));
    WasmPlanWrites(ApplyAll(s, f.writes), PluginJobs(WasmJobs(d, p), domains));
  }

  lemma WithdrawArtefactsWrites(s: ClusterState, left: seq<Snapshot>, p: ObjectKey, domains: seq<seq<string>>)
    ensures forall w :: w in WithdrawArtefactsPlan(s, left, p, domains).writes ==> Artefact(w)
  {
    var w := WasmPlan(s, PluginJobs(LeftJobs(left, p), domains));
    WasmPlanWrites(s, PluginJobs(LeftJobs(left, p), domains));
    FilterPlanWrites(ApplyAll(s, w.writes), LeftJobs(left, p));
  }

  lemma WithdrawPlanWrites(s: ClusterState, left: seq<Snapshot>, p: ObjectKey, o: Order)
    ensures forall w :: w in WithdrawPlan(s, left, p, o).writes ==> Derived(w) && !w.SetRefs?
  {
    var a := WithdrawArtefactsPlan(s, left, p, o.domains);
    var l := TolerantLimitsPlan(ApplyAll(s, a.writes), left, p, o.entries);
    WithdrawArtefactsWrites(s, left, p, o.domains);
    LimitsPlanWrites(ApplyAll(s, a.writes), Diff([], [], left), p, o.entries);
    ThenWrites(a, l);
  }

  lemma LimitsPlanWrites(s: ClusterState, d: Diff, p: ObjectKey, entries: seq<Entry>)
    ensures forall w :: w in LimitsPlan(s, d, p, entries).writes ==> w.SetLimits?
  {
  }

  lemma ThenWrites(a: Plan, b: Plan)
    ensures forall w :: w in Then(a, b).writes ==> w in a.writes || w in b.writes
  {
  }

  lemma RemovePlanWrites(s: ClusterState, left: seq<Snapshot>, p: ObjectKey, o: Order)
    ensures AllDerived(RemovePlan(s, left, p, o).writes)
  {
    RefWritesOnly(left, p);
    var r := RefsPlan(Diff([], [], left), p);
    WithdrawPlanWrites(ApplyAll(s, r.writes), Forget(left, p), p, o);
  }

  lemma DiffPlanWrites(s: ClusterState, p: ObjectKey, o: Order)
    requires p in s.policies && Lists(o.listing, s.topo)
    ensures AllDerived(DiffPlan(s, p, o).writes)
  {
    var targeted := TargetedBy(s, p);
    if targeted.Ok? {
      var d := DiffOf(s, p, targeted.value, o.listing);
      StagesPlanWrites(s, d, p, o);
    }
  }

  lemma StagesPlanWrites(s: ClusterState, d: Diff, p: ObjectKey, o: Order)
    ensures AllDerived(StagesPlan(s, d, p, o).writes)
    ensures forall w :: w in DerivedPlan(s, d, p, o).writes ==> !w.SetRefs?
  {
    var l := LimitsPlan(s, d, p, o.entries);
    var a := ArtefactPlan(ApplyAll(s, l.writes), d, p, o.domains);
    LimitsPlanWrites(s, d, p, o.entries);
    ArtefactPlanWrites(ApplyAll(s, l.writes), d, p, o.domains);
    ThenWrites(l, a);
    RefWritesOnly(d.left, p);
    RefWritesOnly(d.added, p);
    ThenWrites(DerivedPlan(s, d, p, o), RefsPlan(d, p));
  }
}

/** Limitador is updated by one write or not at all, wherever a run stops. */
module LimitWrites {
  import opened Cluster
  import opened Common
  import opened Effects
  import opened FinalizeEffects
  import opened GatewayRefs
  import opened LimitIndexes
  import opened Plans

  /** No list but `limits` is written, and none at all if there is no such list. */
  ghost predicate WritesOnly(ws: seq<Write>, limits: Option<seq<RateLimit>>) {
    forall w :: w in ws && w.SetLimits? ==> limits == Some(w.limits)
  }

  lemma ThenWritesOnly(a: Plan, b: Plan, limits: Option<seq<RateLimit>>)
    requires WritesOnly(a.writes, limits) && (a.err.None? ==> WritesOnly(b.writes, limits))
    ensures WritesOnly(Then(a, b).writes, limits)
  {
  }

  lemma {:induction false} LimitsAfterWrites(s: ClusterState, ws: seq<Write>, limits: Option<seq<RateLimit>>)
    requires WritesOnly(ws, limits)
    ensures ApplyAll(s, ws).limitador ==
            if s.limitador.Some? && limits.Some? && WritesLimits(ws)
            then Some(s.limitador.value.(limits := limits.value)) else s.limitador
    decreases |ws|
  {
    if ws != [] {
      assert ws[0] in ws && forall w :: w in ws[1..] ==> w in ws;
      LimitsAfterWrites(Apply(s, ws[0]), ws[1..], limits);
      FirstWritesLimits(ws);
      LimitsAfterWrite(s, ws[0], limits);
    }
  }

  lemma LimitsAfterWrite(s: ClusterState, w: Write, limits: Option<seq<RateLimit>>)
    requires w.SetLimits? ==> limits == Some(w.limits)
    ensures Apply(s, w).limitador ==
            if s.limitador.Some? && w.SetLimits? then Some(s.limitador.value.(limits := limits.value)) else s.limitador
  {
  }

  lemma FirstWritesLimits(ws: seq<Write>)
    requires ws != []
    ensures WritesLimits(ws) <==> ws[0].SetLimits? || WritesLimits(ws[1..])
  {
    if WritesLimits(ws[1..]) {
      var w :| w in ws[1..] && w.SetLimits?;
      assert w in ws;
    }
  }

  /** The printed update, if every gateway's merge succeeds. */
  ghost function Update(s: ClusterState, d: Diff, p: ObjectKey, entries: seq<Entry>): Option<seq<RateLimit>> {
    if LimitsError(s, d, p).Some? then None else Some(PrintAll(entries))
  }

  lemma LimitsWriteUpdate(s: ClusterState, d: Diff, p: ObjectKey, entries: seq<Entry>)
    ensures WritesOnly(LimitsPlan(s, d, p, entries).writes, Update(s, d, p, entries))
  {
  }

  lemma StagesWriteUpdate(s: ClusterState, d: Diff, p: ObjectKey, o: Order)
    ensures WritesOnly(StagesPlan(s, d, p, o).writes, Update(s, d, p, o.entries))
  {
    var limits := Update(s, d, p, o.entries);
    var l := LimitsPlan(s, d, p, o.entries);
    var a := ArtefactPlan(ApplyAll(s, l.writes), d, p, o.domains);
    LimitsWriteUpdate(s, d, p, o.entries);
    ArtefactPlanWrites(ApplyAll(s, l.writes), d, p, o.domains);
    ArtefactsOnly(a.writes, limits);
    ThenWritesOnly(l, a, limits);
    RefWritesOnly(d.left, p);
    RefWritesOnly(d.added, p);
    RefsOnly(RefsPlan(d, p).writes, limits);
    ThenWritesOnly(DerivedPlan(s, d, p, o), RefsPlan(d, p), limits);
  }

  lemma ArtefactsOnly(ws: seq<Write>, limits: Option<seq<RateLimit>>)
    requires forall w :: w in ws ==> Artefact(w)
    ensures WritesOnly(ws, limits)
  {
  }

  lemma RefsOnly(ws: seq<Write>, limits: Option<seq<RateLimit>>)
    requires forall w :: w in ws ==> w.SetRefs?
    ensures WritesOnly(ws, limits)
  {
  }

  lemma {:induction false} SameMergeErrors(s: ClusterState, t: ClusterState, snaps: seq<Snapshot>,
                                           extra: seq<ObjectKey>)
    requires s.policies == t.policies && s.topo == t.topo
    ensures MergeErrors(s, snaps, extra) == MergeErrors(t, snaps, extra)
  {
    if snaps != [] {
      SameMergeErrors(s, t, snaps[..|snaps| - 1], extra);
    }
  }

  lemma SameLimitsError(s: ClusterState, t: ClusterState, d: Diff, p: ObjectKey)
    requires s.policies == t.policies && s.topo == t.topo
    ensures LimitsError(s, d, p) == LimitsError(t, d, p)
  {
    SameMergeErrors(s, t, d.same, []);
    SameMergeErrors(s, t, d.added, [p]);
  }

  lemma SpecWritesUpdate(s: ClusterState, p: ObjectKey, o: Order)
    requires p in s.policies && Lists(o.listing, s.topo)
    ensures var targeted := if TargetedBy(s, p).Ok? then TargetedBy(s, p).value else [];
            WritesOnly(SpecPlan(s, p, o).writes, Update(s, DiffOf(s, p, targeted, o.listing), p, o.entries))
  {
    var a := AcquirePlan(s, p);
    SpecPlanCases(s, p, o);
    if a.err.None? && TargetedBy(s, p).Ok? {
      AcquireApplied(s, p);
      DiffWritesUpdate(s, s.(backRefs := s.backRefs[TargetOf(s, p).value := p]), p, o);
      var d := DiffOf(s, p, TargetedBy(s, p).value, o.listing);
      ThenWritesOnly(a, DiffPlan(ApplyAll(s, a.writes), p, o), Update(s, d, p, o.entries));
    }
  }

  lemma DiffWritesUpdate(s: ClusterState, s1: ClusterState, p: ObjectKey, o: Order)
    requires p in s.policies && TargetedBy(s, p).Ok? && Lists(o.listing, s.topo) && s1 == s.(backRefs := s1.backRefs)
    ensures WritesOnly(DiffPlan(s1, p, o).writes,
                       Update(s, DiffOf(s, p, TargetedBy(s, p).value, o.listing), p, o.entries))
  {
    var targeted := TargetedBy(s, p).value;
    var d := DiffOf(s, p, targeted, o.listing);
    DiffReads(s, s1, p, targeted, o.listing);
    SameLimitsError(s, s1, d, p);
    StagesWriteUpdate(s1, d, p, o);
  }

  lemma LiveWritesUpdate(s: ClusterState, p: ObjectKey, o: Order)
    requires Live(s, p) && Lists(o.listing, s.topo)
    ensures WritesOnly(ReconcilePlan(s, p, o).writes, Update(s, RunDiff(s, p, o.listing), p, o.entries))
  {
    var s1 := s.(finalizers := s.finalizers + {p});
    var d := RunDiff(s, p, o.listing);
    LivePlan(s, p, o);
    SpecWritesUpdate(s1, p, o);
    DiffReads(s, s1, p, if TargetedBy(s, p).Ok? then TargetedBy(s, p).value else [], o.listing);
    SameLimitsError(s, s1, d, p);
    ThenWritesOnly(FinalizerPlan(s, p), SpecPlan(s1, p, o), Update(s, d, p, o.entries));
  }

  lemma WithdrawWritesUpdate(s: ClusterState, left: seq<Snapshot>, p: ObjectKey, o: Order)
    ensures WritesOnly(WithdrawPlan(s, left, p, o).writes, Some(PrintAll(o.entries)))
  {
    var a := WithdrawArtefactsPlan(s, left, p, o.domains);
    var l := TolerantLimitsPlan(ApplyAll(s, a.writes), left, p, o.entries);
    WithdrawArtefactsWrites(s, left, p, o.domains);
    ArtefactsOnly(a.writes, Some(PrintAll(o.entries)));
    ThenWritesOnly(a, l, Some(PrintAll(o.entries)));
  }

  lemma RemovalWritesUpdate(s: ClusterState, left: seq<Snapshot>, p: ObjectKey, o: Order)
    ensures WritesOnly(RemovePlan(s, left, p, o).writes, Some(PrintAll(o.entries)))
  {
    var r := RefsPlan(Diff([], [], left), p);
    var withdraw := WithdrawPlan(ApplyAll(s, r.writes), Forget(left, p), p, o);
    RefWritesOnly(left, p);
    RefsOnly(r.writes, Some(PrintAll(o.entries)));
    WithdrawWritesUpdate(ApplyAll(s, r.writes), Forget(left, p), p, o);
    ThenWritesOnly(r, withdraw, Some(PrintAll(o.entries)));
  }

  lemma LeavingWritesUpdate(s: ClusterState, p: ObjectKey, o: Order)
    requires Leaving(s, p) && Lists(o.listing, s.topo)
    ensures WritesOnly(ReconcilePlan(s, p, o).writes, Some(PrintAll(o.entries)))
  {
    var limits := Some(PrintAll(o.entries));
    var remove := RemovePlan(s, FinalizeDiff(s, p).left, p, o);
    RemovalWritesUpdate(s, FinalizeDiff(s, p).left, p, o);
    ThenWritesOnly(remove, ReleasePlan(s, p), limits);
    ThenWritesOnly(FinalizePlan(s, p, o), Plan([RemoveFinalizer(p)], None), limits);
  }

  lemma RunWritesUpdate(s: ClusterState, p: ObjectKey, o: Order)
    requires p in s.policies && Lists(o.listing, s.topo)
    ensures WritesOnly(ReconcilePlan(s, p, o).writes, Update(s, RunDiff(s, p, o.listing), p, o.entries))
  {
    if Live(s, p) {
      LiveWritesUpdate(s, p, o);
    } else if p in s.finalizers {
      LeavingWritesUpdate(s, p, o);
    }
  }

  lemma RunIsPrintable(s: ClusterState, p: ObjectKey, listing: seq<ObjectKey>)
    requires p in s.policies && Lists(listing, s.topo) && (Live(s, p) ==> NamesOk(s.topo))
    ensures Printable(s, RunDiff(s, p, listing))
  {
    if Live(s, p) {
      var targeted := if TargetedBy(s, p).Ok? then TargetedBy(s, p).value else [];
      forall k
        ensures k in KeysOf(RunDiff(s, p, listing).added) || k in KeysOf(RunDiff(s, p, listing).same) ==>
            k in s.topo.gateways
      {
        DiffKeys(s, p, targeted, listing, k);
      }
    }
  }

  /** Stop a run after any of its writes: Limitador either is untouched, or already
      holds the complete update for every gateway; and it is untouched when the limits
      of some gateway could not be computed. */
  lemma LimitsAllOrNothing(s: ClusterState, p: ObjectKey, o: Order, n: nat)
    requires p in s.policies && Lists(o.listing, s.topo) && (Live(s, p) ==> NamesOk(s.topo))
    requires n <= |ReconcilePlan(s, p, o).writes|
    requires FaithfulOrder(s, p, o, ReconcilePlan(s, p, o).writes[..n])
    ensures var t := ApplyAll(s, ReconcilePlan(s, p, o).writes[..n]);
            var d := RunDiff(s, p, o.listing);
      && (t.limitador == s.limitador || forall e: Entry :: Held(t)[e] == UpdatedCount(s, d, p, e))
      && (LimitsError(s, d, p).Some? ==> t.limitador == s.limitador)
  {
    var ws := ReconcilePlan(s, p, o).writes[..n];
    var d := RunDiff(s, p, o.listing);
    RunWritesUpdate(s, p, o);
    assert WritesOnly(ws, Update(s, d, p, o.entries)) by {
      assert forall w :: w in ws ==> w in ReconcilePlan(s, p, o).writes;
    }
    LimitsAfterWrites(s, ws, Update(s, d, p, o.entries));
    if s.limitador.Some? && WritesLimits(ws) {
      RunIsPrintable(s, p, o.listing);
      PrintedUpdateParses(s, d, p, o.entries);
    }
  }
}

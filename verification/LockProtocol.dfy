/** The direct back reference as a lock: it is taken before anything derived is
    written and released after the references are gone. Runs interleave users'
    actions with reconciles that may stop after any write. */
module LockProtocol {
  import opened Cluster
  import opened Common
  import opened Effects
  import opened FinalizeEffects
  import opened GatewayRefs
  import opened Plans
  import opened TargetRefs

  // ----- the invariant -----

  /** `p` is recorded on its target. */
  ghost predicate Owns(s: ClusterState, p: ObjectKey) {
    && p in s.policies && TargetOf(s, p).Ok?
    && TargetOf(s, p).value in s.backRefs && s.backRefs[TargetOf(s, p).value] == p
  }

  /** A back reference names an existing policy with finalizer, on its own target. */
  ghost predicate Recorded(s: ClusterState, t: Target, p: ObjectKey) {
    p in s.policies && p in s.finalizers && TargetOf(s, p) == Ok(t)
  }

  ghost predicate ListedRightly(s: ClusterState, g: ObjectKey, keys: seq<ObjectKey>) {
    NoDuplicates(keys) && forall k :: k in keys ==> Owns(s, k) && Targets(s, k, g)
  }

  /** Whoever is listed on a gateway targets it, is recorded on its target, and still
      has its finalizer. */
  ghost predicate LockInv(s: ClusterState) {
    && s.finalizers <= s.policies.Keys && s.deleting <= s.policies.Keys
    && (forall t :: t in s.backRefs ==> Recorded(s, t, s.backRefs[t]))
    && (forall g :: g in s.topo.gateways ==> ListedRightly(s, g, Refs(s, g)))
  }

  ghost predicate Unlisted(s: ClusterState, p: ObjectKey) {
    forall g :: g in s.topo.gateways ==> p !in Refs(s, g)
  }

  // ----- single writes -----

  lemma AddFinalizerSafe(s: ClusterState, p: ObjectKey)
    requires LockInv(s) && p in s.policies
    ensures LockInv(Apply(s, AddFinalizer(p)))
  {
    SameListing(s, Apply(s, AddFinalizer(p)));
  }

  /** Listings stay right when ownership is not taken away. */
  lemma SameListing(s: ClusterState, t: ClusterState)
    requires t.topo == s.topo && t.policies == s.policies && t.refs == s.refs
    requires forall u :: u in s.backRefs ==> u in t.backRefs && t.backRefs[u] == s.backRefs[u]
    ensures forall g, keys :: ListedRightly(s, g, keys) ==> ListedRightly(t, g, keys)
  {
    forall k, g
      ensures Owns(s, k) ==> Owns(t, k)
      ensures Targets(s, k, g) ==> Targets(t, k, g)
    {
    }
  }

  lemma SetBackRefSafe(s: ClusterState, t: Target, p: ObjectKey)
    requires LockInv(s) && Recorded(s, t, p) && t !in s.backRefs
    ensures LockInv(Apply(s, SetBackRef(t, p)))
  {
    var u := Apply(s, SetBackRef(t, p));
    SameListing(s, u);
    forall x | x in u.backRefs
      ensures Recorded(u, x, u.backRefs[x])
    {
      assert x != t ==> Recorded(s, x, s.backRefs[x]);
    }
  }

  lemma OwnershipDecides(s: ClusterState, t: ClusterState)
    requires SameOwnership(s, t)
    ensures forall g, keys :: ListedRightly(s, g, keys) <==> ListedRightly(t, g, keys)
    ensures forall x, p :: Recorded(s, x, p) <==> Recorded(t, x, p)
  {
    forall k, g
      ensures Owns(s, k) == Owns(t, k) && Targets(s, k, g) == Targets(t, k, g)
    {
    }
  }

  lemma DerivedWriteSafe(s: ClusterState, w: Write)
    requires LockInv(s) && Derived(w)
    requires w.SetRefs? ==> ListedRightly(s, w.gateway, RefKeys(w.annotation))
    ensures LockInv(Apply(s, w)) && SameOwnership(s, Apply(s, w))
  {
    RefsAfterWrite(s, w);
    OwnedInvTransfer(s, Apply(s, w));
  }

  lemma RefsOfApply(s: ClusterState, w: Write, g: ObjectKey)
    requires Derived(w)
    ensures SameOwnership(s, Apply(s, w))
    ensures Refs(Apply(s, w), g) == if w.SetRefs? && g == w.gateway then RefKeys(w.annotation) else Refs(s, g)
  {
  }

  lemma RefsAfterWrite(s: ClusterState, w: Write)
    requires Derived(w)
    requires forall g :: g in s.topo.gateways ==> ListedRightly(s, g, Refs(s, g))
    requires w.SetRefs? ==> ListedRightly(s, w.gateway, RefKeys(w.annotation))
    ensures SameOwnership(s, Apply(s, w))
    ensures forall g :: g in s.topo.gateways ==> ListedRightly(s, g, Refs(Apply(s, w), g))
  {
    forall g
      ensures SameOwnership(s, Apply(s, w))
      ensures g in s.topo.gateways ==> ListedRightly(s, g, Refs(Apply(s, w), g))
    {
      RefsOfApply(s, w, g);
    }
  }

  lemma OwnedInvTransfer(s: ClusterState, t: ClusterState)
    requires LockInv(s) && SameOwnership(s, t)
    requires forall g :: g in s.topo.gateways ==> ListedRightly(s, g, Refs(t, g))
    ensures LockInv(t)
  {
    OwnershipDecides(s, t);
  }

  /** Releasing a back reference keeps the invariant exactly when its holder is
      listed nowhere; the code releases it whoever the holder is. */
  lemma ReleaseIsSafeIffHolderUnlisted(s: ClusterState, t: Target)
    requires LockInv(s) && t in s.backRefs
    ensures LockInv(Apply(s, ClearBackRef(t))) <==> Unlisted(s, s.backRefs[t])
  {
    var u := Apply(s, ClearBackRef(t));
    var holder := s.backRefs[t];
    assert Recorded(s, t, holder);
    if Unlisted(s, holder) {
      forall x | x in u.backRefs
        ensures Recorded(u, x, u.backRefs[x])
      {
        assert Recorded(s, x, s.backRefs[x]);
      }
      forall g | g in u.topo.gateways
        ensures ListedRightly(u, g, Refs(u, g))
      {
        assert ListedRightly(s, g, Refs(s, g));
        forall k | k in Refs(u, g)
          ensures Owns(u, k) && Targets(u, k, g)
        {
          assert Owns(s, k) && Targets(s, k, g);
        }
      }
    } else {
      var g :| g in s.topo.gateways && holder in Refs(s, g);
      assert holder in Refs(u, g) && !Owns(u, holder);
      assert !ListedRightly(u, g, Refs(u, g));
    }
  }

  lemma RemoveFinalizerSafe(s: ClusterState, p: ObjectKey)
    requires LockInv(s) && Unlisted(s, p)
    requires forall t :: t in s.backRefs ==> s.backRefs[t] != p
    ensures LockInv(Apply(s, RemoveFinalizer(p)))
  {
    var u := Apply(s, RemoveFinalizer(p));
    forall x | x in u.backRefs
      ensures Recorded(u, x, u.backRefs[x])
    {
      assert Recorded(s, x, s.backRefs[x]);
    }
    forall g | g in u.topo.gateways
      ensures ListedRightly(u, g, Refs(u, g))
    {
      assert ListedRightly(s, g, Refs(s, g));
      forall k | k in Refs(u, g)
        ensures Owns(u, k) && Targets(u, k, g)
      {
        assert Owns(s, k) && Targets(s, k, g);
      }
    }
  }

  // ----- sequences of writes -----

  /** The invariant holds before, between and after the writes. */
  ghost predicate SafeFrom(s: ClusterState, ws: seq<Write>)
    decreases |ws|
  {
    LockInv(s) && (ws != [] ==> SafeFrom(Apply(s, ws[0]), ws[1..]))
  }

  lemma {:induction false} SafePrefix(s: ClusterState, ws: seq<Write>, n: nat)
    requires SafeFrom(s, ws) && n <= |ws|
    ensures LockInv(ApplyAll(s, ws[..n]))
    decreases n
  {
    if n > 0 {
      assert ws[..n][1..] == ws[1..][..n - 1];
      SafePrefix(Apply(s, ws[0]), ws[1..], n - 1);
    }
  }

  lemma {:induction false} SafeConcat(s: ClusterState, a: seq<Write>, b: seq<Write>)
    requires SafeFrom(s, a) && SafeFrom(ApplyAll(s, a), b)
    ensures SafeFrom(s, a + b)
    decreases |a|
  {
    if a == [] {
      assert a + b == b;
    } else {
      assert (a + b)[1..] == a[1..] + b;
      SafeConcat(Apply(s, a[0]), a[1..], b);
    }
  }

  /** Derived writes that list rightly are safe in any number. */
  lemma {:induction false} DerivedSafe(s: ClusterState, ws: seq<Write>)
    requires LockInv(s)
    requires forall w :: w in ws ==> Derived(w) && (w.SetRefs? ==> ListedRightly(s, w.gateway, RefKeys(w.annotation)))
    ensures SafeFrom(s, ws)
    decreases |ws|
  {
    if ws != [] {
      assert ws[0] in ws;
      var t := Apply(s, ws[0]);
      DerivedWriteSafe(s, ws[0]);
      OwnershipDecides(s, t);
      forall w | w in ws[1..]
        ensures Derived(w) && (w.SetRefs? ==> ListedRightly(t, w.gateway, RefKeys(w.annotation)))
      {
        assert w in ws;
      }
      DerivedSafe(t, ws[1..]);
    }
  }

  // ----- whole reconciles -----

  lemma DeletedListsRightly(s: ClusterState, g: ObjectKey, a: RefAnnotation, p: ObjectKey)
    requires ListedRightly(s, g, RefKeys(a))
    ensures ListedRightly(s, g, RefKeys(DeleteRef(a, p)))
  {
    RemoveFromDistinct(RefKeys(a), p);
  }

  lemma AddedListsRightly(s: ClusterState, g: ObjectKey, a: RefAnnotation, p: ObjectKey)
    requires ListedRightly(s, g, RefKeys(a)) && Owns(s, p) && Targets(s, p, g)
    ensures ListedRightly(s, g, RefKeys(AddRef(a, p)))
  {
    if !a.Malformed? {
      AddRefMeaning(a, p);
    }
  }

  lemma DiffPlanSafe(s: ClusterState, p: ObjectKey, o: Order)
    requires LockInv(s) && Owns(s, p) && Lists(o.listing, s.topo)
    ensures SafeFrom(s, DiffPlan(s, p, o).writes)
  {
    var ws := DiffPlan(s, p, o).writes;
    DiffPlanWrites(s, p, o);
    forall w | w in ws && w.SetRefs?
      ensures ListedRightly(s, w.gateway, RefKeys(w.annotation))
    {
      DiffRefWriteRight(s, p, o, w);
    }
    DerivedSafe(s, ws);
  }

  lemma DiffRefWriteRight(s: ClusterState, p: ObjectKey, o: Order, w: Write)
    requires LockInv(s) && Owns(s, p) && Lists(o.listing, s.topo)
    requires w in DiffPlan(s, p, o).writes && w.SetRefs?
    ensures ListedRightly(s, w.gateway, RefKeys(w.annotation))
  {
    assert TargetedBy(s, p).Ok?;
    var d := DiffOf(s, p, TargetedBy(s, p).value, o.listing);
    StageRefWrites(s, d, p, o, w);
    RefsPlanRight(s, p, TargetedBy(s, p).value, o.listing, w);
  }

  lemma StageRefWrites(s: ClusterState, d: Diff, p: ObjectKey, o: Order, w: Write)
    requires w in StagesPlan(s, d, p, o).writes && w.SetRefs?
    ensures w in RefsPlan(d, p).writes
  {
    StagesPlanWrites(s, d, p, o);
    ThenWrites(DerivedPlan(s, d, p, o), RefsPlan(d, p));
  }

  lemma RefsPlanRight(s: ClusterState, p: ObjectKey, targeted: seq<ObjectKey>, listing: seq<ObjectKey>, w: Write)
    requires LockInv(s) && Owns(s, p) && Lists(listing, s.topo) && TargetedBy(s, p) == Ok(targeted)
    requires w in RefsPlan(DiffOf(s, p, targeted, listing), p).writes && w.SetRefs?
    ensures ListedRightly(s, w.gateway, RefKeys(w.annotation))
  {
    var d := DiffOf(s, p, targeted, listing);
    EditWritesMembers(d.left, Deletion(p));
    EditWritesMembers(d.added, Addition(p));
    DiffMembers(s, p, targeted, listing);
    SelectMembers(SnapshotsOf(s, listing), NewFilter(p, targeted));
    if w in DeleteRefWrites(d.left, p) {
      var g :| g in d.left && w == SetRefs(g.key, DeleteRef(g.annotation, p));
      assert ListedRightly(s, g.key, Refs(s, g.key));
      DeletedListsRightly(s, g.key, g.annotation, p);
    } else {
      var g :| g in d.added && w == SetRefs(g.key, AddRef(g.annotation, p));
      assert ListedRightly(s, g.key, Refs(s, g.key));
      AddedListsRightly(s, g.key, g.annotation, p);
    }
  }

  lemma SpecPlanSafe(s: ClusterState, p: ObjectKey, o: Order)
    requires LockInv(s) && p in s.policies && p in s.finalizers && Lists(o.listing, s.topo)
    ensures SafeFrom(s, SpecPlan(s, p, o).writes)
  {
    var a := AcquirePlan(s, p);
    SpecPlanCases(s, p, o);
    if a.err.None? {
      AcquireSafe(s, p);
      var s1 := ApplyAll(s, a.writes);
      DiffPlanSafe(s1, p, o);
      SafeConcat(s, a.writes, DiffPlan(s1, p, o).writes);
    }
  }

  lemma AcquireSafe(s: ClusterState, p: ObjectKey)
    requires LockInv(s) && p in s.policies && p in s.finalizers && AcquirePlan(s, p).err.None?
    ensures var t := ApplyAll(s, AcquirePlan(s, p).writes);
      && SafeFrom(s, AcquirePlan(s, p).writes) && LockInv(t) && Owns(t, p)
      && t == s.(backRefs := t.backRefs)
  {
    AcquireApplied(s, p);
    var target := TargetOf(s, p).value;
    if target !in s.backRefs {
      SetBackRefSafe(s, target, p);
      ApplyOne(s, SetBackRef(target, p));
    }
  }

  /** A reconcile of a live policy keeps the invariant after every single write. */
  lemma ReconcileSafe(s: ClusterState, p: ObjectKey, o: Order)
    requires LockInv(s) && Live(s, p) && Lists(o.listing, s.topo)
    ensures SafeFrom(s, ReconcilePlan(s, p, o).writes)
  {
    var f := FinalizerPlan(s, p);
    LivePlan(s, p, o);
    var s1 := s.(finalizers := s.finalizers + {p});
    AddFinalizerSafe(s, p);
    assert Apply(s, AddFinalizer(p)) == s1;
    assert p in s.finalizers ==> s1 == s;
    SpecPlanSafe(s1, p, o);
    SafeConcat(s, f.writes, SpecPlan(s1, p, o).writes);
  }

  // ----- whole finalizes -----

  /** The back reference of the policy's target is absent, its own, or of a policy
      that no gateway lists. */
  ghost predicate MayRelease(s: ClusterState, p: ObjectKey)
    requires p in s.policies
  {
    TargetOf(s, p).Ok? && TargetOf(s, p).value in s.backRefs ==>
      s.backRefs[TargetOf(s, p).value] == p || Unlisted(s, s.backRefs[TargetOf(s, p).value])
  }

  lemma RemovePlanSafe(s: ClusterState, p: ObjectKey, o: Order)
    requires LockInv(s) && p in s.policies
    ensures SafeFrom(s, RemovePlan(s, FinalizeDiff(s, p).left, p, o).writes)
  {
    var left := FinalizeDiff(s, p).left;
    var r := RefsPlan(Diff([], [], left), p);
    RemovePlanWrites(s, left, p, o);
    WithdrawPlanWrites(ApplyAll(s, r.writes), Forget(left, p), p, o);
    EditWritesMembers(left, Deletion(p));
    var ws := RemovePlan(s, left, p, o).writes;
    forall w | w in ws && w.SetRefs?
      ensures ListedRightly(s, w.gateway, RefKeys(w.annotation))
    {
      assert w in DeleteRefWrites(left, p);
      var g :| g in left && w == SetRefs(g.key, DeleteRef(g.annotation, p));
      DeletedListsRightly(s, g.key, g.annotation, p);
    }
    DerivedSafe(s, ws);
  }

  lemma RemovedAt(s: ClusterState, p: ObjectKey, g: ObjectKey)
    requires LockInv(s) && p in s.policies && g in s.topo.gateways
    ensures var t := ApplyAll(s, RefsPlan(FinalizeDiff(s, p), p).writes);
            forall k :: k in Refs(t, g) <==> k in Refs(s, g) && k != p
  {
    RemovedRefs(s, p, g);
    assert ListedRightly(s, g, Refs(s, g));
    RemoveFromDistinct(Refs(s, g), p);
  }

  /** From `s` to `t`, gateway `g` lost `p` and nobody else. */
  ghost predicate LostOnly(s: ClusterState, t: ClusterState, p: ObjectKey, g: ObjectKey) {
    forall k :: k in Refs(t, g) <==> k in Refs(s, g) && k != p
  }

  lemma LostOnlyAt(s: ClusterState, t: ClusterState, p: ObjectKey, g: ObjectKey)
    requires LockInv(s) && p in s.policies && g in s.topo.gateways
    requires t.refs == ApplyAll(s, RefsPlan(FinalizeDiff(s, p), p).writes).refs
    ensures LostOnly(s, t, p, g)
  {
    RemovedAt(s, p, g);
    assert Refs(t, g) == Refs(ApplyAll(s, RefsPlan(FinalizeDiff(s, p), p).writes), g);
  }

  lemma LostOnlyEverywhere(s: ClusterState, t: ClusterState, p: ObjectKey)
    requires LockInv(s) && p in s.policies && t.topo == s.topo
    requires t.refs == ApplyAll(s, RefsPlan(FinalizeDiff(s, p), p).writes).refs
    ensures Unlisted(t, p)
    ensures forall g :: g in s.topo.gateways ==> LostOnly(s, t, p, g)
  {
    forall g | g in s.topo.gateways
      ensures LostOnly(s, t, p, g)
    {
      LostOnlyAt(s, t, p, g);
    }
  }

  /** Once the references are removed, the policy is listed nowhere, and everybody
      else is listed where they were. */
  lemma RemovedIsUnlisted(s: ClusterState, p: ObjectKey, ws: seq<Write>)
    requires LockInv(s) && p in s.policies && AllDerived(ws)
    requires ApplyAll(s, ws).refs == ApplyAll(s, RefsPlan(FinalizeDiff(s, p), p).writes).refs
    ensures var t := ApplyAll(s, ws);
      && SameOwnership(s, t) && Unlisted(t, p)
      && forall g :: g in s.topo.gateways ==> LostOnly(s, t, p, g)
  {
    DerivedKeepsOwnership(s, ws);
    LostOnlyEverywhere(s, ApplyAll(s, ws), p);
  }

  lemma RemoveRefsOnly(s: ClusterState, p: ObjectKey, o: Order)
    requires p in s.policies && RemovePlan(s, FinalizeDiff(s, p).left, p, o).err.None?
    ensures ApplyAll(s, RemovePlan(s, FinalizeDiff(s, p).left, p, o).writes).refs ==
            ApplyAll(s, RefsPlan(FinalizeDiff(s, p), p).writes).refs
  {
    var left := FinalizeDiff(s, p).left;
    var r := RefsPlan(FinalizeDiff(s, p), p);
    var s1 := ApplyAll(s, r.writes);
    ThenApplied(s, r, WithdrawPlan(s1, Forget(left, p), p, o));
    WithdrawPlanWrites(s1, Forget(left, p), p, o);
    RefsUntouched(s1, WithdrawPlan(s1, Forget(left, p), p, o).writes);
  }

  lemma {:induction false} RefsUntouched(s: ClusterState, ws: seq<Write>)
    requires forall w :: w in ws ==> Derived(w) && !w.SetRefs?
    ensures ApplyAll(s, ws).refs == s.refs
    decreases |ws|
  {
    if ws != [] {
      assert ws[0] in ws;
      RefsUntouched(Apply(s, ws[0]), ws[1..]);
    }
  }

  lemma ReleaseSafe(s: ClusterState, t: ClusterState, p: ObjectKey)
    requires LockInv(t) && SameOwnership(s, t) && p in s.policies && ReleasePlan(s, p).err.None?
    requires Unlisted(t, p) && (forall q :: q != p && Unlisted(s, q) ==> Unlisted(t, q)) && MayRelease(s, p)
    ensures SafeFrom(t, ReleasePlan(s, p).writes + [RemoveFinalizer(p)])
  {
    var ws := ReleasePlan(s, p).writes;
    var u := ApplyAll(t, ws);
    ReleaseApplied(s, t, p);
    if ws != [] {
      ReleaseIsSafeIffHolderUnlisted(t, ws[0].target);
      ApplyOne(t, ws[0]);
    }
    assert SafeFrom(t, ws);
    forall x | x in u.backRefs
      ensures u.backRefs[x] != p
    {
      assert Recorded(t, x, t.backRefs[x]);
    }
    assert Unlisted(u, p);
    RemoveFinalizerSafe(u, p);
    assert SafeFrom(u, [RemoveFinalizer(p)]);
    SafeConcat(t, ws, [RemoveFinalizer(p)]);
  }

  /** A finalize writes what it removes, and the release and the finalizer only if
      all of that succeeded. */
  lemma FinalizeWrites(s: ClusterState, p: ObjectKey, o: Order)
    requires Leaving(s, p) && Lists(o.listing, s.topo)
    ensures var m := RemovePlan(s, FinalizeDiff(s, p).left, p, o);
            var ws := ReconcilePlan(s, p, o).writes;
      || ws == [] || ws == m.writes
      || (m.err.None? && ReleasePlan(s, p).err.None? && ReconcilePlan(s, p, o).err.None?
          && ws == m.writes + (ReleasePlan(s, p).writes + [RemoveFinalizer(p)]))
  {
    ThenTwice(RemovePlan(s, FinalizeDiff(s, p).left, p, o), ReleasePlan(s, p), RemoveFinalizer(p));
  }

  lemma ThenTwice(m: Plan, release: Plan, last: Write)
    requires release.err.Some? ==> release.writes == []
    ensures var plan := Then(Then(m, release), Plan([last], None));
      || plan.writes == m.writes
      || (m.err.None? && release.err.None? && plan.err.None? && plan.writes == m.writes + (release.writes + [last]))
  {
    if m.err.None? && release.err.None? {
      assert m.writes + release.writes + [last] == m.writes + (release.writes + [last]);
    } else if m.err.None? {
      assert m.writes + [] == m.writes;
    }
  }

  lemma UnlistedStays(s: ClusterState, t: ClusterState, p: ObjectKey)
    requires t.topo == s.topo && forall g :: g in s.topo.gateways ==> LostOnly(s, t, p, g)
    ensures forall q :: Unlisted(s, q) ==> Unlisted(t, q)
  {
    forall q | Unlisted(s, q)
      ensures Unlisted(t, q)
    {
      assert forall g :: g in t.topo.gateways ==> LostOnly(s, t, p, g);
    }
  }

  lemma RemovedThenReleasedSafe(s: ClusterState, p: ObjectKey, o: Order)
    requires LockInv(s) && Leaving(s, p) && MayRelease(s, p)
    requires RemovePlan(s, FinalizeDiff(s, p).left, p, o).err.None? && ReleasePlan(s, p).err.None?
    ensures SafeFrom(s, RemovePlan(s, FinalizeDiff(s, p).left, p, o).writes +
                        (ReleasePlan(s, p).writes + [RemoveFinalizer(p)]))
  {
    var ws := RemovePlan(s, FinalizeDiff(s, p).left, p, o).writes;
    RemovePlanSafe(s, p, o);
    RemovePlanWrites(s, FinalizeDiff(s, p).left, p, o);
    RemoveRefsOnly(s, p, o);
    RemovedIsUnlisted(s, p, ws);
    UnlistedStays(s, ApplyAll(s, ws), p);
    SafePrefix(s, ws, |ws|);
    assert ws[..|ws|] == ws;
    ReleaseSafe(s, ApplyAll(s, ws), p);
    SafeConcat(s, ws, ReleasePlan(s, p).writes + [RemoveFinalizer(p)]);
  }

  /** A finalize keeps the invariant after every single write, provided the release
      only meets an absent or own back reference, or one of an unlisted policy. */
  lemma FinalizeSafe(s: ClusterState, p: ObjectKey, o: Order)
    requires LockInv(s) && Leaving(s, p) && MayRelease(s, p) && Lists(o.listing, s.topo)
    ensures SafeFrom(s, ReconcilePlan(s, p, o).writes)
  {
    FinalizeWrites(s, p, o);
    RemovePlanSafe(s, p, o);
    if RemovePlan(s, FinalizeDiff(s, p).left, p, o).err.None? && ReleasePlan(s, p).err.None? {
      RemovedThenReleasedSafe(s, p, o);
    }
  }

  lemma StolenLock(s: ClusterState, t: ClusterState, p: ObjectKey)
    requires LockInv(s) && SameOwnership(s, t) && p in s.policies && !MayRelease(s, p)
    requires forall g :: g in s.topo.gateways ==> LostOnly(s, t, p, g)
    ensures ReleasePlan(s, p).err.None?
    ensures !LockInv(Apply(ApplyAll(t, ReleasePlan(s, p).writes), RemoveFinalizer(p)))
  {
    var target := TargetOf(s, p).value;
    var holder := s.backRefs[target];
    assert Recorded(s, target, holder);
    ReleaseApplied(s, t, p);
    var u := Apply(ApplyAll(t, ReleasePlan(s, p).writes), RemoveFinalizer(p));
    var g :| g in s.topo.gateways && holder in Refs(s, g);
    assert holder in Refs(u, g) && !Owns(u, holder);
    assert !ListedRightly(u, g, Refs(u, g));
  }

  /** A finalize that runs to its end keeps the invariant exactly when the release was
      allowed: the code never compares the annotation it deletes with the policy. */
  lemma FinalizeIsSafeIff(s: ClusterState, p: ObjectKey, o: Order)
    requires LockInv(s) && Leaving(s, p) && Lists(o.listing, s.topo) && ReconcilePlan(s, p, o).err.None?
    ensures LockInv(After(s, p, o)) <==> MayRelease(s, p)
  {
    var ws := ReconcilePlan(s, p, o).writes;
    if MayRelease(s, p) {
      FinalizeSafe(s, p, o);
      SafePrefix(s, ws, |ws|);
      assert ws[..|ws|] == ws;
    } else {
      var m := RemovePlan(s, FinalizeDiff(s, p).left, p, o);
      ThenApplied(s, FinalizePlan(s, p, o), Plan([RemoveFinalizer(p)], None));
      ThenApplied(s, m, ReleasePlan(s, p));
      ApplyOne(ApplyAll(s, FinalizePlan(s, p, o).writes), RemoveFinalizer(p));
      RemovePlanWrites(s, FinalizeDiff(s, p).left, p, o);
      RemoveRefsOnly(s, p, o);
      RemovedIsUnlisted(s, p, m.writes);
      StolenLock(s, ApplyAll(s, m.writes), p);
    }
  }

  // ----- runs -----

  /** One step of a run: a user's action, or a reconcile of which the first `done`
      writes are accepted. Users never retarget a policy. */
  datatype Step =
    | CreatePolicy(key: ObjectKey, policy: Policy)
    | EditPolicy(key: ObjectKey, policy: Policy)
    | RequestDeletion(key: ObjectKey)
    | Run(key: ObjectKey, order: Order, done: nat)

  ghost predicate Enabled(s: ClusterState, step: Step) {
    match step
    case CreatePolicy(k, _) => k !in s.policies
    case EditPolicy(k, policy) => k in s.policies && policy.targetRef == s.policies[k].targetRef
    case RequestDeletion(k) => k in s.policies
    case Run(k, o, done) => Lists(o.listing, s.topo) && done <= |ReconcilePlan(s, k, o).writes|
  }

  /** A policy without finalizer goes at once when its deletion is requested. */
  ghost function Next(s: ClusterState, step: Step): ClusterState
    requires Enabled(s, step)
  {
    match step
    case CreatePolicy(k, policy) => s.(policies := s.policies[k := policy])
    case EditPolicy(k, policy) => s.(policies := s.policies[k := policy])
    case RequestDeletion(k) =>
      if k in s.finalizers then s.(deleting := s.deleting + {k})
      else s.(policies := s.policies - {k}, deleting := s.deleting - {k})
    case Run(k, o, done) => ApplyAll(s, ReconcilePlan(s, k, o).writes[..done])
  }

  ghost predicate Releases(ws: seq<Write>) {
    exists w :: w in ws && w.ClearBackRef?
  }

  /** The run, if it gets as far as releasing a back reference, may release it. */
  ghost predicate ReleasesSafely(s: ClusterState, step: Step)
    requires Enabled(s, step)
  {
    step.Run? && Leaving(s, step.key) && Releases(ReconcilePlan(s, step.key, step.order).writes[..step.done])
    ==> MayRelease(s, step.key)
  }

  lemma PolicyEditSafe(s: ClusterState, t: ClusterState)
    requires LockInv(s) && t == s.(policies := t.policies)
    requires forall k :: k in s.policies ==> k in t.policies && t.policies[k].targetRef == s.policies[k].targetRef
    ensures LockInv(t)
  {
    forall k, g
      ensures Owns(s, k) ==> Owns(t, k)
      ensures Targets(s, k, g) ==> Targets(t, k, g)
    {
    }
    forall x | x in t.backRefs
      ensures Recorded(t, x, t.backRefs[x])
    {
      assert Recorded(s, x, s.backRefs[x]);
    }
    forall g | g in t.topo.gateways
      ensures ListedRightly(t, g, Refs(t, g))
    {
      assert ListedRightly(s, g, Refs(s, g));
    }
  }

  lemma DeletionRequestSafe(s: ClusterState, k: ObjectKey)
    requires LockInv(s) && k in s.policies
    ensures LockInv(Next(s, RequestDeletion(k)))
  {
    if k in s.finalizers {
      DeletingSafe(s, s.deleting + {k});
    } else {
      HoldsNothing(s, k);
      RemoveFinalizerSafe(s, k);
      assert s.finalizers - {k} == s.finalizers;
    }
  }

  lemma DeletingSafe(s: ClusterState, deleting: set<ObjectKey>)
    requires LockInv(s) && deleting <= s.policies.Keys
    ensures LockInv(s.(deleting := deleting))
  {
    var t := s.(deleting := deleting);
    SameListing(s, t);
    forall x | x in t.backRefs
      ensures Recorded(t, x, t.backRefs[x])
    {
      assert Recorded(s, x, s.backRefs[x]);
    }
  }

  /** A policy without finalizer is neither recorded nor listed. */
  lemma HoldsNothing(s: ClusterState, k: ObjectKey)
    requires LockInv(s) && k !in s.finalizers
    ensures Unlisted(s, k) && forall t :: t in s.backRefs ==> s.backRefs[t] != k
  {
    forall t | t in s.backRefs
      ensures s.backRefs[t] != k
    {
      assert Recorded(s, t, s.backRefs[t]);
    }
    forall g | g in s.topo.gateways
      ensures k !in Refs(s, g)
    {
      assert ListedRightly(s, g, Refs(s, g));
      assert forall q :: q in Refs(s, g) ==> Owns(s, q);
    }
  }

  lemma TakeWithin(a: seq<Write>, b: seq<Write>, n: nat)
    requires n <= |a|
    ensures (a + b)[..n] == a[..n]
  {
  }

  lemma TakeBeyond(a: seq<Write>, b: seq<Write>, n: nat)
    requires |a| < n <= |a + b|
    ensures b[0] in (a + b)[..n]
  {
    assert (a + b)[..n][|a|] == b[0];
  }

  lemma ForeignRelease(s: ClusterState, p: ObjectKey)
    requires p in s.policies && !MayRelease(s, p)
    ensures ReleasePlan(s, p).writes != [] && ReleasePlan(s, p).writes[0].ClearBackRef?
  {
  }

  lemma InterruptedRemovalSafe(s: ClusterState, removed: seq<Write>, rest: seq<Write>, n: nat)
    requires SafeFrom(s, removed) && n <= |removed|
    ensures LockInv(ApplyAll(s, (removed + rest)[..n]))
  {
    TakeWithin(removed, rest, n);
    SafePrefix(s, removed, n);
  }

  lemma ReachesRelease(removed: seq<Write>, release: seq<Write>, last: Write, n: nat)
    requires release != [] && release[0].ClearBackRef?
    requires |removed| < n <= |removed + (release + [last])|
    ensures Releases((removed + (release + [last]))[..n])
  {
    TakeBeyond(removed, release + [last], n);
  }

  /** A finalize's writes, cut within the removal or after the release. */
  lemma CutRemoval(s: ClusterState, ws: seq<Write>, removed: seq<Write>, release: seq<Write>, last: Write, n: nat)
    requires LockInv(s) && SafeFrom(s, removed) && release != [] && release[0].ClearBackRef?
    requires ws == [] || ws == removed || ws == removed + (release + [last])
    requires n <= |ws|
    ensures Releases(ws[..n]) || LockInv(ApplyAll(s, ws[..n]))
  {
    if ws != [] {
      var rest := if ws == removed then [] else release + [last];
      assert ws == removed + rest;
      if n <= |removed| {
        InterruptedRemovalSafe(s, removed, rest, n);
      } else {
        ReachesRelease(removed, release, last, n);
      }
    }
  }

  /** An interrupted finalize that did not reach the release only removed things. */
  lemma InterruptedFinalizeSafe(s: ClusterState, p: ObjectKey, o: Order, done: nat)
    requires LockInv(s) && Leaving(s, p) && !MayRelease(s, p) && Lists(o.listing, s.topo)
    requires done <= |ReconcilePlan(s, p, o).writes|
    ensures var ws := ReconcilePlan(s, p, o).writes[..done];
      Releases(ws) || LockInv(ApplyAll(s, ws))
  {
    var removed := RemovePlan(s, FinalizeDiff(s, p).left, p, o).writes;
    FinalizeWrites(s, p, o);
    RemovePlanSafe(s, p, o);
    ForeignRelease(s, p);
    CutRemoval(s, ReconcilePlan(s, p, o).writes, removed, ReleasePlan(s, p).writes, RemoveFinalizer(p), done);
  }

  lemma StepSafe(s: ClusterState, step: Step)
    requires LockInv(s) && Enabled(s, step) && ReleasesSafely(s, step)
    ensures LockInv(Next(s, step))
  {
    match step
    case CreatePolicy(k, policy) => PolicyEditSafe(s, Next(s, step));
    case EditPolicy(k, policy) => PolicyEditSafe(s, Next(s, step));
    case RequestDeletion(k) => DeletionRequestSafe(s, k);
    case Run(k, o, done) =>
      if Live(s, k) {
        ReconcileSafe(s, k, o);
        SafePrefix(s, ReconcilePlan(s, k, o).writes, done);
      } else if Leaving(s, k) && MayRelease(s, k) {
        FinalizeSafe(s, k, o);
        SafePrefix(s, ReconcilePlan(s, k, o).writes, done);
      } else if Leaving(s, k) {
        InterruptedFinalizeSafe(s, k, o, done);
      }
  }

  ghost predicate ValidRun(s: ClusterState, steps: seq<Step>)
    decreases |steps|
  {
    steps != [] ==>
      Enabled(s, steps[0]) && ReleasesSafely(s, steps[0]) && ValidRun(Next(s, steps[0]), steps[1..])
  }

  ghost function EndOf(s: ClusterState, steps: seq<Step>): (t: ClusterState)
    requires ValidRun(s, steps)
    ensures t.topo == s.topo
    decreases |steps|
  {
    if steps == [] then s else EndOf(Next(s, steps[0]), steps[1..])
  }

  /** A cluster the controller has not touched yet. */
  ghost predicate Untouched(s: ClusterState) {
    s.finalizers == {} && s.deleting == {} && s.backRefs == map[] && s.refs == map[]
  }

  lemma UntouchedIsSafe(s: ClusterState)
    requires Untouched(s)
    ensures LockInv(s)
  {
  }

  /** Lock safety over whole runs: however users act and wherever reconciles and
      finalizes are cut short, a listed policy targets the gateway, is recorded on its
      target and has its finalizer. */
  lemma {:induction false} LockSafety(s: ClusterState, steps: seq<Step>)
    requires LockInv(s) && ValidRun(s, steps)
    ensures LockInv(EndOf(s, steps))
    decreases |steps|
  {
    if steps != [] {
      StepSafe(s, steps[0]);
      LockSafety(Next(s, steps[0]), steps[1..]);
    }
  }
}

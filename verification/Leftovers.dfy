/** controllers/apim/ratelimitpolicy_finalizers.go:58-90: a finalize withdraws only from
    the gateways its policy still targets. A key it leaves behind on another gateway
    then stops every policy that targets that gateway. */
module Leftovers {
  import opened Cluster
  import opened Common
  import opened Completion
  import opened Effects
  import opened FinalizeEffects
  import opened GatewayRefs
  import opened LockProtocol
  import opened Merging
  import opened MergeLaws
  import opened Plans
  import opened Sums

  // ----- which keys a finalize leaves behind -----

  /** One removal takes the last listing exactly when there was only one. */
  lemma OnlyListing(keys: seq<ObjectKey>, k: ObjectKey)
    requires k in keys
    ensures k !in RemoveFirst(keys, k) <==> multiset(keys)[k] == 1
  {
    var i := IndexOfKey(keys, k);
    assert keys == keys[..i] + [k] + keys[i + 1..];
    assert multiset(keys)[k] == multiset(RemoveFirst(keys, k))[k] + 1;
  }

  /** A completed finalize leaves the policy listed nowhere if and only if every gateway
      that listed it was still targeted and listed it once. */
  lemma FinalizeUnlistsIff(s: ClusterState, p: ObjectKey, o: Order)
    requires Leaving(s, p) && Completed(s, p, o)
    ensures Unlisted(After(s, p, o), p) <==>
            forall g :: g in s.topo.gateways && p in Refs(s, g) ==> Withdrawn(s, p, g) && multiset(Refs(s, g))[p] == 1
  {
    var t := After(s, p, o);
    FinalizeHasEffect(s, p, o);
    forall g | g in s.topo.gateways
      ensures p in Refs(t, g) <==> p in Refs(s, g) && !(Withdrawn(s, p, g) && multiset(Refs(s, g))[p] == 1)
    {
      if p in Refs(s, g) {
        OnlyListing(Refs(s, g), p);
      }
      assert Ann(t, g) == if Withdrawn(s, p, g) then DeleteRef(Ann(s, g), p) else Ann(s, g);
    }
  }

  // ----- what a leftover key does -----

  /** Merging a list that names a missing policy fails, with NotFound unless the list
      names two gateway-level policies as well. */
  lemma {:induction false} MissingPolicyFails(policies: Policies, routes: Routes, refs: seq<ObjectKey>, k: ObjectKey)
    requires k in refs && k !in policies
    ensures MergeError(policies, routes, refs).Some?
    ensures Sum(GatewayKind(policies), refs) <= 1 ==> MergeError(policies, routes, refs) == Some(NotFound)
  {
    LoadSucceeds(policies, refs);
    if Sum(GatewayKind(policies), refs) <= 1 {
      OneGatewayFailsNotFound(policies, refs);
    }
  }

  lemma {:induction false} OneGatewayFailsNotFound(policies: Policies, refs: seq<ObjectKey>)
    requires Load(policies, refs).Err? && Sum(GatewayKind(policies), refs) <= 1
    ensures Load(policies, refs) == Err(NotFound)
  {
    var init := refs[..|refs| - 1];
    if Load(policies, init).Err? {
      OneGatewayFailsNotFound(policies, init);
    } else {
      LoadSucceeds(policies, init);
    }
  }

  /** The gateway lists a policy that does not exist. */
  predicate Haunted(s: ClusterState, g: ObjectKey) {
    g in s.topo.gateways && exists k :: k in Refs(s, g) && k !in s.policies
  }

  lemma HauntedLimits(s: ClusterState, q: ObjectKey, targeted: seq<ObjectKey>, listing: seq<ObjectKey>, g: ObjectKey)
    requires Haunted(s, g) && g in targeted && Lists(listing, s.topo)
    ensures LimitsError(s, DiffOf(s, q, targeted, listing), q).Some?
  {
    var d := DiffOf(s, q, targeted, listing);
    var k :| k in Refs(s, g) && k !in s.policies;
    DiffKeys(s, q, targeted, listing, g);
    DiffMembers(s, q, targeted, listing);
    MergesComplete(s, d.same, []);
    MergesComplete(s, d.added, [q]);
    if q in Refs(s, g) {
      var i :| 0 <= i < |d.same| && KeysOf(d.same)[i] == g;
      assert d.same[i] in d.same && d.same[i].key == g;
      MissingPolicyFails(s.policies, s.topo.routes, Refs(s, g) + [], k);
    } else {
      var i :| 0 <= i < |d.added| && KeysOf(d.added)[i] == g;
      assert d.added[i] in d.added && d.added[i].key == g;
      MissingPolicyFails(s.policies, s.topo.routes, Refs(s, g) + [q], k);
    }
  }

  lemma HauntedDiff(s: ClusterState, q: ObjectKey, o: Order, g: ObjectKey)
    requires Haunted(s, g) && Targets(s, q, g) && Lists(o.listing, s.topo)
    ensures DiffPlan(s, q, o).err.Some? && DiffPlan(s, q, o).writes == []
  {
    HauntedLimits(s, q, TargetedBy(s, q).value, o.listing, g);
  }

  lemma AcquireWrites(s: ClusterState, q: ObjectKey)
    requires q in s.policies
    ensures forall w :: w in AcquirePlan(s, q).writes ==> w.SetBackRef?
  {
  }

  /** A reconcile of a policy that targets such a gateway fails in its limits stage: it
      writes nothing but the finalizer and the back reference. */
  lemma HauntedBlocksReconcile(s: ClusterState, q: ObjectKey, o: Order, g: ObjectKey)
    requires Haunted(s, g) && Live(s, q) && Targets(s, q, g) && Lists(o.listing, s.topo)
    ensures ReconcilePlan(s, q, o).err.Some?
    ensures forall w :: w in ReconcilePlan(s, q, o).writes ==> !Derived(w)
  {
    HauntedWillNotDo(s, q, g);
    ReconcileCompletesIff(s, q, o);
    LivePlan(s, q, o);
    HauntedSpec(s.(finalizers := s.finalizers + {q}), q, o, g);
    ThenWrites(FinalizerPlan(s, q), SpecPlan(s.(finalizers := s.finalizers + {q}), q, o));
  }

  lemma HauntedSpec(s: ClusterState, q: ObjectKey, o: Order, g: ObjectKey)
    requires Haunted(s, g) && Targets(s, q, g) && Lists(o.listing, s.topo)
    ensures forall w :: w in SpecPlan(s, q, o).writes ==> !Derived(w)
  {
    var a := AcquirePlan(s, q);
    SpecPlanCases(s, q, o);
    AcquireWrites(s, q);
    if a.err.None? {
      AcquireApplied(s, q);
      HauntedDiff(ApplyAll(s, a.writes), q, o, g);
    }
  }

  lemma HauntedWillNotDo(s: ClusterState, q: ObjectKey, g: ObjectKey)
    requires Haunted(s, g) && Targets(s, q, g)
    ensures !GatewaysWillDo(s, q)
  {
    var k :| k in Refs(s, g) && k !in s.policies;
    MissingPolicyFails(s.policies, s.topo.routes, Projected(Refs(s, g), q), k);
    assert Touched(s, q, g);
  }

  /** A finalize of a policy that withdraws from such a gateway fails as well, and the
      policy keeps its finalizer: it cannot be deleted. */
  lemma HauntedBlocksFinalize(s: ClusterState, q: ObjectKey, o: Order, g: ObjectKey)
    requires Haunted(s, g) && Leaving(s, q) && Withdrawn(s, q, g) && Lists(o.listing, s.topo)
    ensures ReconcilePlan(s, q, o).err.Some?
    ensures forall w :: w in ReconcilePlan(s, q, o).writes ==> Derived(w)
  {
    var k :| k in Refs(s, g) && k !in s.policies;
    RemoveKeepsOthers(Refs(s, g), q);
    RemoveKeepsOthers(RefKeys(DeleteRef(Ann(s, g), q)), q);
    OthersMembers(Refs(s, g), q);
    OthersMembers(Remaining(s, q, g), q);
    MissingPolicyFails(s.policies, s.topo.routes, Remaining(s, q, g), k);
    FinalizeCompletesIff(s, q, o);
    FinalizeWrites(s, q, o);
    RemovePlanWrites(s, FinalizeDiff(s, q).left, q, o);
  }

  /** A finalize that completes although its policy is still listed on a gateway it no
      longer targets leaves that gateway to nobody: no policy that targets it can be
      reconciled, and none that withdraws from it can be deleted. */
  lemma LeftoverBlocks(s: ClusterState, p: ObjectKey, o: Order, g: ObjectKey, q: ObjectKey, o': Order)
    requires Leaving(s, p) && Completed(s, p, o)
    requires g in s.topo.gateways && p in Refs(s, g) && !Withdrawn(s, p, g)
    requires Lists(o'.listing, s.topo)
    ensures var t := After(s, p, o);
      && Lists(o'.listing, t.topo)
      && (Live(t, q) && Targets(t, q, g) ==>
            ReconcilePlan(t, q, o').err.Some? && forall w :: w in ReconcilePlan(t, q, o').writes ==> !Derived(w))
      && (Leaving(t, q) && Withdrawn(t, q, g) ==>
            ReconcilePlan(t, q, o').err.Some? && forall w :: w in ReconcilePlan(t, q, o').writes ==> Derived(w))
  {
    var t := After(s, p, o);
    FinalizeHasEffect(s, p, o);
    assert Ann(t, g) == Ann(s, g);
    assert Haunted(t, g);
    if Live(t, q) && Targets(t, q, g) {
      HauntedBlocksReconcile(t, q, o', g);
    }
    if Leaving(t, q) && Withdrawn(t, q, g) {
      HauntedBlocksFinalize(t, q, o', g);
    }
  }
}

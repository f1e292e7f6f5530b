/** A policy that leaves a gateway takes the limits of everybody listed there with it.
    The gateway update requeues those still listed, and the next completed reconcile
    of any one of them brings the limits back. */
module Restoration {
  import opened Artefacts
  import opened Cluster
  import opened Common
  import opened Convergence
  import opened Effects
  import opened EmptyMerges
  import opened FinalizeEffects
  import opened GatewayRefs
  import opened LimitIndexes
  import opened MergeLaws
  import opened Merging
  import opened Plans

  /** `GatewayEventMapper`: the policies requeued when a gateway changes. */
  method MapToRateLimitPolicy(gw: GatewayWrapper) returns (requests: seq<ObjectKey>)
    ensures requests == RefKeys(gw.annotation)
  {
    requests := [];
    var refs := gw.RLPRefs();
    for i := 0 to |refs|
      invariant requests == refs[..i]
    {
      requests := requests + [refs[i]];
    }
  }

  /** A reconcile of `p` leaves gateway `g`, or a finalize withdraws from it. */
  ghost predicate Departs(s: ClusterState, p: ObjectKey, g: ObjectKey) {
    && g in s.topo.gateways
    && ((Live(s, p) && p in Refs(s, g) && !Targets(s, p, g)) || (Leaving(s, p) && Withdrawn(s, p, g)))
  }

  lemma DepartureClears(s: ClusterState, p: ObjectKey, o: Order, g: ObjectKey)
    requires RefsOk(s) && NamesOk(s.topo) && Completed(s, p, o) && Departs(s, p, g)
    ensures var t := After(s, p, o);
      && t.topo == s.topo && RefsOk(t)
      && Refs(t, g) == Others(Refs(s, g), p)
      && forall e: Entry :: e.gateway == g ==> Held(t)[e] == 0
  {
    var t := After(s, p, o);
    RemoveFromDistinct(Refs(s, g), p);
    OthersMembers(Refs(s, g), p);
    if Live(s, p) {
      ReconcileEffect(s, p, o);
      assert Ann(t, g) == EditedAnn(s, p, TargetedBy(s, p).value, g);
      EffectMerges(s, p, t, g);
      EffectKeepsRefsOk(s, p, t);
    } else {
      FinalizeHasEffect(s, p, o);
      FinalizeKeepsRefsOk(s, p, t);
      assert Ann(t, g) == DeleteRef(Ann(s, g), p);
    }
  }

  /** The merge over everybody else is the same before and after the departure. */
  lemma DepartureKeepsMerge(s: ClusterState, p: ObjectKey, o: Order, g: ObjectKey, e: Entry)
    requires RefsOk(s) && NamesOk(s.topo) && Completed(s, p, o) && Departs(s, p, g)
    ensures MergedAt(After(s, p, o), Others(Refs(s, g), p), e) == MergedAt(s, Others(Refs(s, g), p), e)
  {
    OthersStay(s, p, o, g);
    SameMerge(s, After(s, p, o), Others(Refs(s, g), p), e);
  }

  lemma OthersStay(s: ClusterState, p: ObjectKey, o: Order, g: ObjectKey)
    requires Completed(s, p, o) && Departs(s, p, g)
    ensures After(s, p, o).topo == s.topo && AgreeOn(s.policies, After(s, p, o).policies, Others(Refs(s, g), p))
  {
    OthersMembers(Refs(s, g), p);
    if Live(s, p) {
      ReconcileGatewayEffect(s, p, o);
      AgreeIfSame(s.policies, Others(Refs(s, g), p));
    } else {
      FinalizeHasEffect(s, p, o);
      AgreeIfRemoved(s.policies, p, Others(Refs(s, g), p));
    }
  }

  lemma AgreeIfSame(a: Policies, refs: seq<ObjectKey>)
    ensures AgreeOn(a, a, refs)
  {
  }

  lemma AgreeIfRemoved(a: Policies, p: ObjectKey, refs: seq<ObjectKey>)
    requires p !in refs
    ensures AgreeOn(a, a - {p}, refs)
  {
    forall k | k in refs
      ensures AgreeAt(a, a - {p}, k)
    {
    }
  }

  /** Right after a departure the gateway's limits are the merge over its remaining
      policies if and only if, before it, each of those asked for nothing. */
  lemma DepartureKeepsLimitsIff(s: ClusterState, p: ObjectKey, o: Order, g: ObjectKey)
    requires RefsOk(s) && NamesOk(s.topo) && Completed(s, p, o) && Departs(s, p, g)
    ensures var others := Others(Refs(s, g), p);
      MergedHeld(After(s, p, o), g) <==>
      forall k :: k in others ==> AsksNothing(s.policies, s.topo.routes, GatewayRef(s.policies, others), k)
  {
    var t := After(s, p, o);
    var others := Others(Refs(s, g), p);
    DepartureClears(s, p, o, g);
    forall e: Entry
      ensures MergedAt(t, others, e) == MergedAt(s, others, e)
    {
      DepartureKeepsMerge(s, p, o, g, e);
    }
    assert MergedHeld(t, g) <==> forall e: Entry :: e.gateway == g ==> MergedAt(s, others, e) == 0;
    EmptyMergeIff(s, others, g);
  }

  /** A completed reconcile of any policy listed on a gateway it targets makes the
      gateway's limits the merge over all its references, whatever they were before. */
  lemma ListedPolicyRestores(t: ClusterState, q: ObjectKey, o: Order, g: ObjectKey)
    requires RefsOk(t) && NamesOk(t.topo) && Live(t, q) && Completed(t, q, o)
    requires g in t.topo.gateways && q in Refs(t, g) && Targets(t, q, g)
    ensures var u := After(t, q, o);
      && Refs(u, g) == Refs(t, g) && MergedHeld(u, g)
      && u.policies == t.policies && u.topo == t.topo
  {
    var u := After(t, q, o);
    ReconcileEffect(t, q, o);
    assert Ann(u, g) == EditedAnn(t, q, TargetedBy(t, q).value, g);
    EffectMerges(t, q, u, g);
  }

  /** Departure, requeue, repair: when `p` has left `g`, everybody else is still listed
      and requeued, and one completed reconcile of one of them, `q`, gives the gateway
      the merged limits of all of them. */
  lemma DepartureIsRepaired(s: ClusterState, p: ObjectKey, o: Order, q: ObjectKey, o': Order, g: ObjectKey)
    requires RefsOk(s) && NamesOk(s.topo) && Completed(s, p, o) && Departs(s, p, g)
    requires var t := After(s, p, o);
             Live(t, q) && Completed(t, q, o') && q in Refs(t, g) && Targets(t, q, g)
    ensures var t := After(s, p, o);
            var u := After(t, q, o');
      && (forall k :: k in Refs(t, g) <==> k in Refs(s, g) && k != p)
      && Refs(u, g) == Others(Refs(s, g), p)
      && forall e: Entry :: e.gateway == g ==> Held(u)[e] == MergedAt(u, Others(Refs(s, g), p), e)
  {
    DepartureClears(s, p, o, g);
    OthersMembers(Refs(s, g), p);
    ListedPolicyRestores(After(s, p, o), q, o', g);
  }
}

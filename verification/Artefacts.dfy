/** A gateway's filter and plugin exist exactly when policies are listed on it. */
module Artefacts {
  import opened Cluster
  import opened Common
  import opened Convergence
  import opened Effects
  import opened FinalizeEffects
  import opened GatewayRefs
  import opened LockProtocol
  import opened Plans

  ghost predicate MatchAt(s: ClusterState, g: ObjectKey) {
    && (g in s.filters <==> Refs(s, g) != [])
    && (g in s.plugins <==> Refs(s, g) != [])
  }

  ghost predicate ArtefactsMatch(s: ClusterState) {
    forall g :: g in s.topo.gateways ==> MatchAt(s, g)
  }

  // ----- one completed run -----

  lemma ReconciledMatchAt(s: ClusterState, p: ObjectKey, t: ClusterState, g: ObjectKey)
    requires p in s.policies && TargetOf(s, p).Ok? && TargetedBy(s, p).Ok?
    requires GatewayEffect(s, p, t) && g in s.topo.gateways && MatchAt(s, g)
    ensures MatchAt(t, g) <==> !(g in TargetedBy(s, p).value && Ann(s, g).Malformed?)
  {
    var targeted := TargetedBy(s, p).value;
    assert Ann(t, g) == EditedAnn(s, p, targeted, g);
    assert ArtefactsAt(s, p, targeted, g, t);
  }

  /** A completed reconcile keeps the match exactly when no gateway the policy targets
      has an annotation that does not parse: there the artefacts are made for the
      policy, but it cannot be listed. */
  lemma ReconcileKeepsArtefacts(s: ClusterState, p: ObjectKey, o: Order)
    requires Live(s, p) && Completed(s, p, o) && ArtefactsMatch(s)
    ensures ArtefactsMatch(After(s, p, o)) <==>
            forall g :: g in s.topo.gateways && Targets(s, p, g) ==> !Ann(s, g).Malformed?
  {
    var t := After(s, p, o);
    ReconcileGatewayEffect(s, p, o);
    forall g | g in s.topo.gateways
      ensures MatchAt(t, g) <==> (Targets(s, p, g) ==> !Ann(s, g).Malformed?)
    {
      ReconciledMatchAt(s, p, t, g);
    }
  }

  lemma FinalizedMatchAt(s: ClusterState, p: ObjectKey, t: ClusterState, g: ObjectKey)
    requires p in s.policies && FinalizeEffect(s, p, t) && g in s.topo.gateways && MatchAt(s, g)
    ensures MatchAt(t, g) <==> !(Withdrawn(s, p, g) && Refs(s, g) == [p, p])
  {
    assert WithdrawnArtefactsAt(s, p, g, t);
    if Withdrawn(s, p, g) {
      var keys := Refs(s, g);
      assert Refs(t, g) == RemoveFirst(keys, p);
      LastReference(keys, p);
      LastReference(Refs(t, g), p);
    }
  }

  /** When one removal of a key empties a list, and when it leaves that key alone on it. */
  lemma LastReference(keys: seq<ObjectKey>, p: ObjectKey)
    ensures RemoveFirst(keys, p) == [] <==> keys == [] || keys == [p]
    ensures RemoveFirst(keys, p) == [p] <==> keys == [p, p]
  {
    var i := IndexOfKey(keys, p);
    if i < |keys| {
      assert keys == keys[..i] + [p] + keys[i + 1..];
      if RemoveFirst(keys, p) == [p] {
        assert p !in keys[..i];
        assert i == 0;
      }
    }
  }

  /** A completed finalize keeps the match exactly when no gateway it withdraws from
      lists the policy twice and nobody else: only one of the two listings goes. */
  lemma FinalizeKeepsArtefacts(s: ClusterState, p: ObjectKey, o: Order)
    requires Leaving(s, p) && Completed(s, p, o) && ArtefactsMatch(s)
    ensures ArtefactsMatch(After(s, p, o)) <==> forall g :: Withdrawn(s, p, g) ==> Refs(s, g) != [p, p]
  {
    var t := After(s, p, o);
    FinalizeHasEffect(s, p, o);
    forall g | g in s.topo.gateways
      ensures MatchAt(t, g) <==> !(Withdrawn(s, p, g) && Refs(s, g) == [p, p])
    {
      FinalizedMatchAt(s, p, t, g);
    }
  }

  lemma FinalizeKeepsRefsOk(s: ClusterState, p: ObjectKey, t: ClusterState)
    requires p in s.policies && RefsOk(s) && FinalizeEffect(s, p, t)
    ensures RefsOk(t)
  {
    forall g | g in t.topo.gateways
      ensures !Ann(t, g).Malformed? && NoDuplicates(Refs(t, g))
    {
      RemoveFromDistinct(Refs(s, g), p);
    }
  }

  // ----- any sequence of completed runs -----

  /** A user's action, or a reconcile or finalize that runs to its end. */
  ghost predicate Finishes(s: ClusterState, step: Step) {
    && Enabled(s, step)
    && (step.Run? ==>
          Completed(s, step.key, step.order) && step.done == |ReconcilePlan(s, step.key, step.order).writes|)
  }

  ghost predicate AllFinish(s: ClusterState, steps: seq<Step>)
    decreases |steps|
  {
    steps != [] ==> Finishes(s, steps[0]) && AllFinish(Next(s, steps[0]), steps[1..])
  }

  ghost function Outcome(s: ClusterState, steps: seq<Step>): ClusterState
    requires AllFinish(s, steps)
    decreases |steps|
  {
    if steps == [] then s else Outcome(Next(s, steps[0]), steps[1..])
  }

  lemma StepKeepsArtefacts(s: ClusterState, step: Step)
    requires RefsOk(s) && ArtefactsMatch(s) && Finishes(s, step)
    ensures RefsOk(Next(s, step)) && ArtefactsMatch(Next(s, step))
  {
    if step.Run? {
      RunKeepsArtefacts(s, step.key, step.order);
      var ws := ReconcilePlan(s, step.key, step.order).writes;
      assert ws[..|ws|] == ws;
    } else {
      UserKeepsArtefacts(s, Next(s, step));
    }
  }

  lemma UserKeepsArtefacts(s: ClusterState, t: ClusterState)
    requires RefsOk(s) && ArtefactsMatch(s) && t == s.(policies := t.policies, deleting := t.deleting)
    ensures RefsOk(t) && ArtefactsMatch(t)
  {
    forall g | g in t.topo.gateways
      ensures MatchAt(t, g) && Ann(t, g) == Ann(s, g)
    {
      assert MatchAt(s, g);
    }
  }

  lemma RunKeepsArtefacts(s: ClusterState, p: ObjectKey, o: Order)
    requires RefsOk(s) && ArtefactsMatch(s) && Completed(s, p, o)
    ensures RefsOk(After(s, p, o)) && ArtefactsMatch(After(s, p, o))
  {
    if Live(s, p) {
      ReconcileGatewayEffect(s, p, o);
      EffectKeepsRefsOk(s, p, After(s, p, o));
      ReconcileKeepsArtefacts(s, p, o);
    } else if Leaving(s, p) {
      FinalizeHasEffect(s, p, o);
      FinalizeKeepsRefsOk(s, p, After(s, p, o));
      ListedOnce(s, p);
      FinalizeKeepsArtefacts(s, p, o);
    }
  }

  lemma ListedOnce(s: ClusterState, p: ObjectKey)
    requires RefsOk(s)
    ensures forall g :: g in s.topo.gateways ==> Refs(s, g) != [p, p]
  {
    assert !NoDuplicates([p, p]) by {
      assert [p, p][0] == [p, p][1];
    }
  }

  /** From annotations that parse and list nobody twice, any sequence of completed
      reconciles and finalizes, with users' actions in between, keeps every gateway's
      filter and plugin existing exactly when policies are listed on it. */
  lemma {:induction false} ArtefactsFollowReferences(s: ClusterState, steps: seq<Step>)
    requires RefsOk(s) && ArtefactsMatch(s) && AllFinish(s, steps)
    ensures RefsOk(Outcome(s, steps)) && ArtefactsMatch(Outcome(s, steps))
    decreases |steps|
  {
    if steps != [] {
      StepKeepsArtefacts(s, steps[0]);
      ArtefactsFollowReferences(Next(s, steps[0]), steps[1..]);
    }
  }
}

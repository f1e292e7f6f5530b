/** What repeated reconciles lead to: each one settles its own policy, and two rounds
    over all policies, in any order, settle the references and limits of the cluster. */
module Convergence {
  import opened Cluster
  import opened Common
  import opened Effects
  import opened GatewayRefs
  import opened LimitIndexes
  import opened Merging
  import opened MergeLaws
  import opened Plans

  /** Annotations that parse and list nobody twice. */
  ghost predicate RefsOk(s: ClusterState) {
    forall g :: g in s.topo.gateways ==> !Ann(s, g).Malformed? && NoDuplicates(Refs(s, g))
  }

  /** `p` is listed on exactly the gateways it targets. */
  ghost predicate SettledFor(s: ClusterState, p: ObjectKey) {
    forall g :: g in s.topo.gateways ==> (p in Refs(s, g) <==> Targets(s, p, g))
  }

  /** Limitador holds for `g` the merge over the policies listed on it. */
  ghost predicate MergedHeld(s: ClusterState, g: ObjectKey) {
    forall e: Entry :: e.gateway == g ==> Held(s)[e] == MergedAt(s, Refs(s, g), e)
  }

  // ----- one reconcile, seen from one gateway -----

  lemma EditedRefs(s: ClusterState, p: ObjectKey, targeted: seq<ObjectKey>, g: ObjectKey)
    requires RefsOk(s) && g in s.topo.gateways
    ensures var a := EditedAnn(s, p, targeted, g);
      && !a.Malformed? && NoDuplicates(RefKeys(a))
      && (forall x :: x in RefKeys(a) <==> if x == p then g in targeted else x in Refs(s, g))
      && (g in targeted ==> RefKeys(a) == Projected(Refs(s, g), p))
      && Others(RefKeys(a), p) == Others(Refs(s, g), p)
  {
    AddRefMeaning(Ann(s, g), p);
    RemoveFromDistinct(Refs(s, g), p);
    RemoveKeepsOthers(Refs(s, g), p);
  }

  lemma EffectKeepsRefsOk(s: ClusterState, p: ObjectKey, t: ClusterState)
    requires p in s.policies && TargetOf(s, p).Ok? && TargetedBy(s, p).Ok?
    requires RefsOk(s) && GatewayEffect(s, p, t)
    ensures RefsOk(t) && SettledFor(t, p)
    ensures forall q :: q != p && SettledFor(s, q) ==> SettledFor(t, q)
  {
    var targeted := TargetedBy(s, p).value;
    forall g | g in s.topo.gateways
      ensures !Ann(t, g).Malformed? && NoDuplicates(Refs(t, g))
      ensures forall x :: x in Refs(t, g) <==> if x == p then g in targeted else x in Refs(s, g)
    {
      EditedRefs(s, p, targeted, g);
      assert Ann(t, g) == EditedAnn(s, p, targeted, g);
    }
    forall q | q != p && SettledFor(s, q)
      ensures SettledFor(t, q)
    {
      forall g | g in t.topo.gateways
        ensures q in Refs(t, g) <==> Targets(t, q, g)
      {
        assert Targets(t, q, g) == Targets(s, q, g);
      }
    }
  }

  /** After a completed reconcile the policy is listed on a gateway exactly when it
      targets it, everybody else keeps their place, and nobody is listed twice. */
  lemma ReferencesFollowTargets(s: ClusterState, p: ObjectKey, o: Order, g: ObjectKey)
    requires RefsOk(s) && Live(s, p) && Completed(s, p, o) && g in s.topo.gateways
    ensures var refs := Refs(After(s, p, o), g);
      && (p in refs <==> Targets(s, p, g))
      && Others(refs, p) == Others(Refs(s, g), p)
      && NoDuplicates(refs)
  {
    ReconcileGatewayEffect(s, p, o);
    EditedRefs(s, p, TargetedBy(s, p).value, g);
    assert Ann(After(s, p, o), g) == EditedAnn(s, p, TargetedBy(s, p).value, g);
  }

  /** The list a gateway's filter and plugin are made from before its references are
      written is the list that is then stored. */
  lemma ProjectedIsStored(s: ClusterState, p: ObjectKey, o: Order, g: ObjectKey)
    requires RefsOk(s) && Live(s, p) && Completed(s, p, o) && g in s.topo.gateways
    ensures JobAt(s, p, TargetedBy(s, p).value, g).refs == Refs(After(s, p, o), g)
  {
    ReconcileGatewayEffect(s, p, o);
    EditedRefs(s, p, TargetedBy(s, p).value, g);
    assert Ann(After(s, p, o), g) == EditedAnn(s, p, TargetedBy(s, p).value, g);
  }

  /** The gateways a reconcile touches hold the merge over their new references. */
  lemma EffectMerges(s: ClusterState, p: ObjectKey, t: ClusterState, g: ObjectKey)
    requires p in s.policies && TargetOf(s, p).Ok? && TargetedBy(s, p).Ok?
    requires RefsOk(s) && Effect(s, p, t) && g in s.topo.gateways
    ensures g in TargetedBy(s, p).value ==> MergedHeld(t, g)
    ensures g !in TargetedBy(s, p).value && p in Refs(s, g) ==> forall e: Entry :: e.gateway == g ==> Held(t)[e] == 0
    ensures g !in TargetedBy(s, p).value && p !in Refs(s, g) ==>
      forall e: Entry :: e.gateway == g ==> Held(t)[e] == Held(s)[e]
  {
    var targeted := TargetedBy(s, p).value;
    EditedRefs(s, p, targeted, g);
    assert Ann(t, g) == EditedAnn(s, p, targeted, g);
    if g in targeted {
      forall e: Entry | e.gateway == g
        ensures Held(t)[e] == MergedAt(t, Refs(t, g), e)
      {
        assert Held(t)[e] == ReconciledCount(s, p, targeted, e);
      }
    }
  }

  ghost predicate Disagree(s: ClusterState, p: ObjectKey, g: ObjectKey) {
    p in s.policies && g in s.topo.gateways && (p in Refs(s, g) <==> !Targets(s, p, g))
  }

  /** The pairs of policy and gateway on which references and targets disagree. */
  ghost function Disagreements(s: ClusterState): set<(ObjectKey, ObjectKey)> {
    set p, g | p in s.policies && g in s.topo.gateways && Disagree(s, p, g) :: (p, g)
  }

  ghost function AboutOthers(pairs: set<(ObjectKey, ObjectKey)>, p: ObjectKey): set<(ObjectKey, ObjectKey)> {
    set d | d in pairs && d.0 != p
  }

  lemma DisagreementsLeft(s: ClusterState, p: ObjectKey, t: ClusterState)
    requires p in s.policies && TargetOf(s, p).Ok? && TargetedBy(s, p).Ok?
    requires RefsOk(s) && GatewayEffect(s, p, t)
    ensures Disagreements(t) == AboutOthers(Disagreements(s), p)
  {
    OthersUndisturbed(s, p, t);
    forall q, g
      ensures Disagree(t, q, g) <==> Disagree(s, q, g) && q != p
    {
      assert Targets(t, q, g) == Targets(s, q, g);
    }
  }

  lemma FewerIfUnsettled(s: ClusterState, p: ObjectKey)
    requires p in s.policies
    ensures |AboutOthers(Disagreements(s), p)| < |Disagreements(s)| <==> !SettledFor(s, p)
  {
    var before := Disagreements(s);
    if SettledFor(s, p) {
      assert AboutOthers(before, p) == before;
    } else {
      var g :| g in s.topo.gateways && !(p in Refs(s, g) <==> Targets(s, p, g));
      assert Disagree(s, p, g) && (p, g) in before && (p, g) !in AboutOthers(before, p);
      SmallerSubset(AboutOthers(before, p), before);
    }
  }

  /** A completed reconcile settles the disagreements about its own policy and causes
      none, so it makes progress exactly when its policy was not settled. */
  lemma ReconcileClearsDisagreements(s: ClusterState, p: ObjectKey, o: Order)
    requires Live(s, p) && Completed(s, p, o) && RefsOk(s)
    ensures var before, after := Disagreements(s), Disagreements(After(s, p, o));
      && after == AboutOthers(before, p)
      && (|after| < |before| <==> !SettledFor(s, p))
  {
    ReconcileGatewayEffect(s, p, o);
    DisagreementsLeft(s, p, After(s, p, o));
    FewerIfUnsettled(s, p);
  }

  lemma SmallerSubset<T>(a: set<T>, b: set<T>)
    requires a < b
    ensures |a| < |b|
  {
    assert |b - a| == |b| - |a|;
  }

  lemma OthersUndisturbed(s: ClusterState, p: ObjectKey, t: ClusterState)
    requires p in s.policies && TargetOf(s, p).Ok? && TargetedBy(s, p).Ok?
    requires RefsOk(s) && GatewayEffect(s, p, t)
    ensures forall q, g :: g in s.topo.gateways ==>
      (q in Refs(t, g) <==> if q == p then Targets(s, p, g) else q in Refs(s, g))
  {
    var targeted := TargetedBy(s, p).value;
    forall q, g | g in s.topo.gateways
      ensures q in Refs(t, g) <==> if q == p then Targets(s, p, g) else q in Refs(s, g)
    {
      EditedRefs(s, p, targeted, g);
      assert Ann(t, g) == EditedAnn(s, p, targeted, g);
    }
  }

  // ----- nothing left to do -----

  /** When `p` is listed exactly where it targets and those gateways hold their merge,
      a reconcile of `p` finds no new and no left gateways and no limits to write. */
  lemma NothingToDo(s: ClusterState, p: ObjectKey, listing: seq<ObjectKey>)
    requires p in s.policies && TargetedBy(s, p).Ok? && Lists(listing, s.topo)
    requires SettledFor(s, p)
    requires forall g :: g in s.topo.gateways && g in TargetedBy(s, p).value ==> MergedHeld(s, g)
    ensures var d := DiffOf(s, p, TargetedBy(s, p).value, listing);
      d.added == [] && d.left == [] && LimitsSettled(s, d, p)
  {
    var targeted := TargetedBy(s, p).value;
    var d := DiffOf(s, p, targeted, listing);
    forall g
      ensures g !in KeysOf(d.added) && g !in KeysOf(d.left)
    {
      DiffKeys(s, p, targeted, listing, g);
      assert g in s.topo.gateways ==> (p in Refs(s, g) <==> Targets(s, p, g));
    }
    SomeKey(d.added);
    SomeKey(d.left);
    forall e: Entry
      ensures UpdatedCount(s, d, p, e) == Held(s)[e]
    {
      DiffKeys(s, p, targeted, listing, e.gateway);
      assert e.gateway in s.topo.gateways && e.gateway in targeted ==> MergedHeld(s, e.gateway);
    }
  }

  lemma SomeKey(gs: seq<Snapshot>)
    ensures gs != [] ==> exists k :: k in KeysOf(gs)
  {
    if gs != [] {
      assert KeysOf(gs)[0] in KeysOf(gs);
    }
  }

  lemma {:induction false} NoMergeErrors(s: ClusterState, snaps: seq<Snapshot>)
    requires forall g :: g in snaps ==> MergeError(s.policies, s.topo.routes, RefKeys(g.annotation)).None?
    ensures MergeErrors(s, snaps, []) == None
  {
    if snaps != [] {
      var last := snaps[|snaps| - 1];
      NoMergeErrors(s, snaps[..|snaps| - 1]);
      assert last in snaps && RefKeys(last.annotation) + [] == RefKeys(last.annotation);
    }
  }

  // ----- two rounds settle everything -----

  datatype Event = Event(policy: ObjectKey, order: Order)

  /** Every event reconciles a live policy to completion. */
  ghost predicate AllComplete(s: ClusterState, evs: seq<Event>)
    decreases |evs|
  {
    evs != [] ==>
      && Live(s, evs[0].policy) && Completed(s, evs[0].policy, evs[0].order)
      && AllComplete(After(s, evs[0].policy, evs[0].order), evs[1..])
  }

  ghost function RunEvents(s: ClusterState, evs: seq<Event>): ClusterState
    requires AllComplete(s, evs)
    decreases |evs|
  {
    if evs == [] then s else RunEvents(After(s, evs[0].policy, evs[0].order), evs[1..])
  }

  ghost predicate Mentions(evs: seq<Event>, p: ObjectKey)
    decreases |evs|
  {
    evs != [] && (evs[0].policy == p || Mentions(evs[1..], p))
  }

  /** Each policy is reconciled at least once. */
  ghost predicate Round(evs: seq<Event>, s: ClusterState) {
    forall p :: p in s.policies ==> Mentions(evs, p)
  }

  /** Nobody is listed on the gateway, and nobody targets it. */
  ghost predicate Idle(s: ClusterState, g: ObjectKey) {
    Refs(s, g) == [] && forall p :: !Targets(s, p, g)
  }

  /** Where convergence starts from: printable names, parseable references to existing
      policies, nothing being deleted, and no limits on idle gateways. */
  ghost predicate Start(s: ClusterState) {
    && NamesOk(s.topo) && RefsOk(s)
    && (forall p :: p in s.policies ==> p !in s.deleting)
    && (forall g, p :: g in s.topo.gateways && p in Refs(s, g) ==> p in s.policies)
    && (forall e: Entry :: e.gateway in s.topo.gateways && Idle(s, e.gateway) ==> Held(s)[e] == 0)
  }

  ghost predicate SameUserState(s: ClusterState, t: ClusterState) {
    t.topo == s.topo && t.policies == s.policies && t.deleting == s.deleting
  }

  /** What one completed reconcile of a settled or unsettled cluster preserves. */
  lemma EventKeepsStart(s: ClusterState, p: ObjectKey, o: Order)
    requires Start(s) && Live(s, p) && Completed(s, p, o)
    ensures var t := After(s, p, o);
      && Start(t) && SameUserState(s, t) && SettledFor(t, p)
      && (forall q :: SettledFor(s, q) ==> SettledFor(t, q))
      && (forall e: Entry :: e.gateway !in s.topo.gateways ==> Held(t)[e] == Held(s)[e])
  {
    var t := After(s, p, o);
    ReconcileEffect(s, p, o);
    EffectKeepsRefsOk(s, p, t);
    var targeted := TargetedBy(s, p).value;
    forall g | g in s.topo.gateways
      ensures forall x :: x in Refs(t, g) ==> x in t.policies
      ensures Idle(t, g) ==> forall e: Entry :: e.gateway == g ==> Held(t)[e] == 0
    {
      EditedRefs(s, p, targeted, g);
      assert Ann(t, g) == EditedAnn(s, p, targeted, g);
      EffectMerges(s, p, t, g);
      if Idle(t, g) {
        assert !Targets(t, p, g);
        if p !in Refs(s, g) {
          assert Ann(t, g) == Ann(s, g);
          assert forall q :: Targets(s, q, g) == Targets(t, q, g);
        }
      }
    }
  }

  /** Once every policy is settled, a reconcile merges its own gateways and leaves
      references and every other merge as they are. */
  lemma EventKeepsMerged(s: ClusterState, p: ObjectKey, o: Order)
    requires Start(s) && Live(s, p) && Completed(s, p, o) && SettledFor(s, p)
    ensures var t := After(s, p, o);
      && (forall g :: g in s.topo.gateways ==> Refs(t, g) == Refs(s, g))
      && (forall g :: g in s.topo.gateways && (p in Refs(s, g) || MergedHeld(s, g)) ==> MergedHeld(t, g))
  {
    var t := After(s, p, o);
    ReconcileEffect(s, p, o);
    var targeted := TargetedBy(s, p).value;
    forall g | g in s.topo.gateways
      ensures Refs(t, g) == Refs(s, g)
      ensures p in Refs(s, g) || MergedHeld(s, g) ==> MergedHeld(t, g)
    {
      assert p in Refs(s, g) <==> Targets(s, p, g);
      assert Ann(t, g) == EditedAnn(s, p, targeted, g);
      EffectMerges(s, p, t, g);
      if p !in Refs(s, g) && MergedHeld(s, g) {
        forall e: Entry | e.gateway == g
          ensures Held(t)[e] == MergedAt(t, Refs(t, g), e)
        {
          assert Held(s)[e] == MergedAt(s, Refs(s, g), e);
        }
      }
    }
  }

  lemma {:induction false} RoundSettles(s: ClusterState, evs: seq<Event>)
    requires Start(s) && AllComplete(s, evs)
    ensures var t := RunEvents(s, evs);
      && Start(t) && SameUserState(s, t)
      && (forall q :: SettledFor(s, q) ==> SettledFor(t, q))
      && (forall q :: Mentions(evs, q) ==> SettledFor(t, q))
      && (forall e: Entry :: e.gateway !in s.topo.gateways ==> Held(t)[e] == Held(s)[e])
    decreases |evs|
  {
    if evs != [] {
      EventKeepsStart(s, evs[0].policy, evs[0].order);
      RoundSettles(After(s, evs[0].policy, evs[0].order), evs[1..]);
    }
  }

  ghost predicate AllSettled(s: ClusterState) {
    forall p :: p in s.policies ==> SettledFor(s, p)
  }

  lemma {:induction false} RoundMerges(s: ClusterState, evs: seq<Event>, g: ObjectKey)
    requires Start(s) && AllSettled(s) && AllComplete(s, evs) && g in s.topo.gateways
    ensures var t := RunEvents(s, evs);
      && Refs(t, g) == Refs(s, g)
      && (MergedHeld(s, g) ==> MergedHeld(t, g))
      && (forall q :: Mentions(evs, q) && q in Refs(s, g) ==> MergedHeld(t, g))
    decreases |evs|
  {
    if evs != [] {
      var s1 := After(s, evs[0].policy, evs[0].order);
      EventMerges(s, evs[0].policy, evs[0].order, g);
      RoundMerges(s1, evs[1..], g);
    }
  }

  lemma EventMerges(s: ClusterState, p: ObjectKey, o: Order, g: ObjectKey)
    requires Start(s) && AllSettled(s) && Live(s, p) && Completed(s, p, o) && g in s.topo.gateways
    ensures var t := After(s, p, o);
      && Start(t) && AllSettled(t) && t.topo == s.topo
      && Refs(t, g) == Refs(s, g)
      && (p in Refs(s, g) || MergedHeld(s, g) ==> MergedHeld(t, g))
  {
    EventKeepsStart(s, p, o);
    EventKeepsMerged(s, p, o);
  }

  /** The goal of the control loop. */
  ghost predicate Converged(s: ClusterState) {
    forall g :: g in s.topo.gateways ==>
      && NoDuplicates(Refs(s, g))
      && (forall p :: p in Refs(s, g) <==> Targets(s, p, g))
      && MergedHeld(s, g)
  }

  /** Two rounds of completed reconciles, each in any order and with repetitions,
      converge: every gateway lists exactly the policies that target it and holds
      the merge of their limits; limits of other gateways are as they were. */
  lemma TwoRoundsConverge(s: ClusterState, first: seq<Event>, second: seq<Event>)
    requires Start(s) && AllComplete(s, first) && Round(first, s)
    requires AllComplete(RunEvents(s, first), second) && Round(second, s)
    ensures var t := RunEvents(RunEvents(s, first), second);
      && Converged(t) && SameUserState(s, t) && Start(t)
      && forall e: Entry :: e.gateway !in s.topo.gateways ==> Held(t)[e] == Held(s)[e]
  {
    var m := RunEvents(s, first);
    FirstRoundSettles(s, first);
    RoundSettles(m, second);
    var t := RunEvents(m, second);
    forall g | g in s.topo.gateways
      ensures NoDuplicates(Refs(t, g))
      ensures forall p :: p in Refs(t, g) <==> Targets(t, p, g)
      ensures MergedHeld(t, g)
    {
      RoundMerges(m, second, g);
      SettledRefs(t, g);
      assert AllSettled(t);
      if Refs(t, g) == [] {
        EmptyIsMerged(t, g);
      } else {
        var p := Refs(t, g)[0];
        assert p in Refs(m, g) && p in s.policies;
        assert Mentions(second, p);
      }
    }
  }

  lemma FirstRoundSettles(s: ClusterState, first: seq<Event>)
    requires Start(s) && AllComplete(s, first) && Round(first, s)
    ensures var m := RunEvents(s, first);
      && Start(m) && AllSettled(m) && SameUserState(s, m)
      && forall e: Entry :: e.gateway !in s.topo.gateways ==> Held(m)[e] == Held(s)[e]
  {
    RoundSettles(s, first);
    var m := RunEvents(s, first);
    forall p | p in m.policies
      ensures SettledFor(m, p)
    {
      assert Mentions(first, p);
    }
  }

  lemma SettledRefs(s: ClusterState, g: ObjectKey)
    requires Start(s) && AllSettled(s) && g in s.topo.gateways
    ensures forall p :: p in Refs(s, g) <==> Targets(s, p, g)
  {
    forall p
      ensures p in Refs(s, g) <==> Targets(s, p, g)
    {
      assert p in s.policies ==> SettledFor(s, p);
    }
  }

  lemma EmptyIsMerged(s: ClusterState, g: ObjectKey)
    requires Start(s) && AllSettled(s) && g in s.topo.gateways && Refs(s, g) == []
    ensures Idle(s, g) && MergedHeld(s, g)
  {
    SettledRefs(s, g);
    forall e: Entry | e.gateway == g
      ensures Held(s)[e] == MergedAt(s, Refs(s, g), e)
    {
      assert Held(s)[e] == 0;
    }
  }

  /** The converged state does not depend on the order of reconciles: reference lists
      agree as sets, and Limitador holds the same entries equally often. */
  lemma ConvergenceIsConfluent(s: ClusterState, a1: seq<Event>, a2: seq<Event>, b1: seq<Event>, b2: seq<Event>)
    requires Start(s)
    requires AllComplete(s, a1) && Round(a1, s) && AllComplete(RunEvents(s, a1), a2) && Round(a2, s)
    requires AllComplete(s, b1) && Round(b1, s) && AllComplete(RunEvents(s, b1), b2) && Round(b2, s)
    ensures var t, u := RunEvents(RunEvents(s, a1), a2), RunEvents(RunEvents(s, b1), b2);
      && (forall g :: g in s.topo.gateways ==> multiset(Refs(t, g)) == multiset(Refs(u, g)))
      && Held(t) == Held(u)
  {
    TwoRoundsConverge(s, a1, a2);
    TwoRoundsConverge(s, b1, b2);
    var t, u := RunEvents(RunEvents(s, a1), a2), RunEvents(RunEvents(s, b1), b2);
    ConvergedStatesAgree(t, u);
    SameHeld(s, t, u);
  }

  lemma SameHeld(s: ClusterState, t: ClusterState, u: ClusterState)
    requires forall e: Entry :: e.gateway in s.topo.gateways ==> Held(t)[e] == Held(u)[e]
    requires forall e: Entry :: e.gateway !in s.topo.gateways ==> Held(t)[e] == Held(s)[e] && Held(u)[e] == Held(s)[e]
    ensures Held(t) == Held(u)
  {
    forall e: Entry
      ensures Held(t)[e] == Held(u)[e]
    {
      if e.gateway in s.topo.gateways {
        assert Held(t)[e] == Held(u)[e];
      }
    }
  }

  lemma ConvergedStatesAgree(t: ClusterState, u: ClusterState)
    requires Converged(t) && Converged(u) && SameUserState(t, u)
    ensures forall g :: g in t.topo.gateways ==> multiset(Refs(t, g)) == multiset(Refs(u, g))
    ensures forall e: Entry :: e.gateway in t.topo.gateways ==> Held(t)[e] == Held(u)[e]
  {
    forall g | g in t.topo.gateways
      ensures multiset(Refs(t, g)) == multiset(Refs(u, g))
      ensures forall e: Entry :: e.gateway == g ==> Held(t)[e] == Held(u)[e]
    {
      forall p
        ensures p in Refs(t, g) <==> p in Refs(u, g)
      {
        assert Targets(t, p, g) == Targets(u, p, g);
      }
      SameMembersSameMultiset(Refs(t, g), Refs(u, g));
      forall e: Entry | e.gateway == g
        ensures Held(t)[e] == Held(u)[e]
      {
        MergeIgnoresOrder(t.policies, t.topo.routes, HostsOf(t.topo, g), Refs(t, g), Refs(u, g), e.domain, e.limit);
      }
    }
  }

  /** Neither limits nor references are written. */
  ghost predicate Quiet(ws: seq<Write>) {
    forall w :: w in ws ==> !w.SetLimits? && !w.SetRefs?
  }

  lemma QuietThen(a: Plan, b: Plan)
    requires Quiet(a.writes) && Quiet(b.writes)
    ensures Quiet(Then(a, b).writes)
  {
  }

  lemma QuietStages(s: ClusterState, d: Diff, p: ObjectKey, o: Order)
    requires d.added == [] && d.left == [] && LimitsSettled(s, d, p)
    ensures Quiet(StagesPlan(s, d, p, o).writes)
  {
    var l := LimitsPlan(s, d, p, o.entries);
    assert l.writes == [];
    var a := ArtefactPlan(ApplyAll(s, l.writes), d, p, o.domains);
    ArtefactPlanWrites(ApplyAll(s, l.writes), d, p, o.domains);
    assert Quiet(a.writes) by {
      assert forall w :: w in a.writes ==> Artefact(w);
    }
    QuietThen(l, a);
    assert RefsPlan(d, p).writes == [];
    QuietThen(DerivedPlan(s, d, p, o), RefsPlan(d, p));
  }

  lemma QuietDiff(s: ClusterState, t: ClusterState, p: ObjectKey, o: Order)
    requires Converged(s) && p in s.policies && Lists(o.listing, s.topo)
    requires t == s.(finalizers := t.finalizers, backRefs := t.backRefs)
    ensures Quiet(DiffPlan(t, p, o).writes)
  {
    if TargetedBy(t, p).Ok? {
      forall g | g in t.topo.gateways
        ensures p in Refs(t, g) <==> Targets(t, p, g)
        ensures MergedHeld(t, g)
      {
        assert Targets(t, p, g) == Targets(s, p, g);
        assert p in Refs(s, g) <==> Targets(s, p, g);
        assert MergedHeld(s, g);
      }
      NothingToDo(t, p, o.listing);
      QuietStages(t, DiffOf(t, p, TargetedBy(t, p).value, o.listing), p, o);
    }
  }

  lemma QuietSpec(s: ClusterState, t: ClusterState, p: ObjectKey, o: Order)
    requires Converged(s) && p in s.policies && Lists(o.listing, s.topo)
    requires t == s.(finalizers := t.finalizers)
    ensures Quiet(SpecPlan(t, p, o).writes)
  {
    var a := AcquirePlan(t, p);
    AcquireKeepsRest(t, p);
    SpecPlanCases(t, p, o);
    if a.err.None? {
      QuietDiff(s, ApplyAll(t, a.writes), p, o);
      QuietThen(a, DiffPlan(ApplyAll(t, a.writes), p, o));
    }
  }

  lemma AcquireKeepsRest(s: ClusterState, p: ObjectKey)
    requires p in s.policies
    ensures var a := AcquirePlan(s, p);
            var t := ApplyAll(s, a.writes);
      && t == s.(backRefs := t.backRefs)
      && Quiet(a.writes)
  {
    var a := AcquirePlan(s, p);
    if a.writes != [] {
      ApplyOne(s, a.writes[0]);
    }
  }

  /** In a converged cluster no reconcile, completed or not, writes limits or references. */
  lemma ConvergedIsQuiet(s: ClusterState, p: ObjectKey, o: Order)
    requires Converged(s) && Live(s, p) && Lists(o.listing, s.topo)
    ensures Quiet(ReconcilePlan(s, p, o).writes)
  {
    var t := s.(finalizers := s.finalizers + {p});
    LivePlan(s, p, o);
    QuietSpec(s, t, p, o);
    QuietThen(FinalizerPlan(s, p), SpecPlan(t, p, o));
  }
}

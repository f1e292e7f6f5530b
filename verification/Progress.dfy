/** Convergence without assuming that anything completes. Attempts may fail on their
    own: a policy may be invalid, or its target may belong to another one. The policies
    that hold their target get through, and two rounds settle what they ask for. */
module Progress {
  import opened Cluster
  import opened Common
  import opened Completion
  import opened Convergence
  import opened Effects
  import opened GatewayPolicyUniqueness
  import opened LimitIndexes
  import opened LockProtocol
  import opened Merging
  import opened MergeLaws
  import opened Plans
  import opened TargetRefs

  // ----- who gets through -----

  /** What users control: the policy is valid, its hosts are served, and its target can
      be fetched. */
  ghost predicate Eligible(s: ClusterState, p: ObjectKey) {
    p in s.policies && Validate(s.policies[p], p.namespace) && HostsError(s, p).None? && TargetOf(s, p).Ok?
  }

  /** Somebody eligible targets the gateway. */
  ghost predicate Wanted(s: ClusterState, g: ObjectKey) {
    exists p :: Eligible(s, p) && Targets(s, p, g)
  }

  /** Where attempts start from: the lock invariant, a ready Limitador, nothing being
      deleted, annotations that parse, eligible holders, and no limits on gateways that
      list nobody and that nobody eligible targets. */
  ghost predicate Sound(s: ClusterState) {
    && LockInv(s) && NamesOk(s.topo) && LimitadorReady(s) && s.deleting == {}
    && (forall g :: g in s.topo.gateways ==> !Ann(s, g).Malformed?)
    && (forall u :: u in s.backRefs ==> Eligible(s, s.backRefs[u]))
    && (forall e: Entry :: e.gateway in s.topo.gateways && Refs(s, e.gateway) == [] && !Wanted(s, e.gateway) ==>
          Held(s)[e] == 0)
  }

  lemma SoundRefs(s: ClusterState)
    requires Sound(s)
    ensures RefsOk(s)
  {
    forall g | g in s.topo.gateways
      ensures !Ann(s, g).Malformed? && NoDuplicates(Refs(s, g))
    {
      assert ListedRightly(s, g, Refs(s, g));
    }
  }

  lemma TargetDecidesGateways(s: ClusterState, p: ObjectKey)
    requires p in s.policies && TargetOf(s, p).Ok?
    ensures TargetedBy(s, p).Ok?
    ensures forall q :: q in s.policies && TargetOf(s, q) == TargetOf(s, p) ==> TargetedBy(s, q) == TargetedBy(s, p)
  {
  }

  // ----- merging what is rightly listed -----

  lemma RightListIsMerged(s: ClusterState, g: ObjectKey, keys: seq<ObjectKey>)
    requires ListedRightly(s, g, keys)
    ensures Merges(s, keys)
  {
    RightListLoads(s, g, keys);
    LoadedMembers(s.policies, keys);
    var ks := Load(s.policies, keys).value.routes;
    forall k | k in ks
      ensures k in s.policies && RouteAt(s.policies, s.topo.routes, k).Ok?
    {
      assert Owns(s, k) && IsRoutePolicy(s.policies, k);
    }
    UsableRoutes(s.policies, s.topo.routes, ks);
  }

  // ----- one attempt -----

  lemma OwnedGatewaysWillDo(s: ClusterState, p: ObjectKey)
    requires LockInv(s) && LimitadorReady(s) && Owns(s, p) && TargetedBy(s, p).Ok?
    ensures GatewaysWillDo(s, p)
  {
    var targeted := TargetedBy(s, p).value;
    forall g | Touched(s, p, g)
      ensures Merges(s, JobAt(s, p, targeted, g).refs)
    {
      JobListsRightly(s, p, targeted, g);
      RightListIsMerged(s, g, JobAt(s, p, targeted, g).refs);
    }
  }

  /** A policy that may take its target, or has it, gets through: its reconcile ends
      without error in every order. */
  lemma AdmittedCompletes(s: ClusterState, p: ObjectKey, o: Order)
    requires LockInv(s) && LimitadorReady(s) && Live(s, p) && Admitted(s, p) && Lists(o.listing, s.topo)
    ensures ReconcilePlan(s, p, o).err.None?
  {
    var s1 := s.(finalizers := s.finalizers + {p});
    AddFinalizerSafe(s, p);
    assert s1 == Apply(s, AddFinalizer(p));
    AcquireSafe(s1, p);
    var s2 := ApplyAll(s1, AcquirePlan(s1, p).writes);
    AcquireApplied(s1, p);
    TargetDecidesGateways(s, p);
    OwnedGatewaysWillDo(s2, p);
    GatewaysStillDo(s, s2, p);
    ReconcileCompletesIff(s, p, o);
  }

  /** Every other policy writes its finalizer, if it was missing, and nothing else. */
  lemma RefusedWrites(s: ClusterState, p: ObjectKey, o: Order)
    requires Live(s, p) && !Admitted(s, p) && Lists(o.listing, s.topo)
    ensures ReconcilePlan(s, p, o).err.Some?
    ensures forall w :: w in ReconcilePlan(s, p, o).writes ==> w == AddFinalizer(p)
    ensures After(s, p, o) == s.(finalizers := s.finalizers + {p})
  {
    var s1 := s.(finalizers := s.finalizers + {p});
    LivePlan(s, p, o);
    assert Admitted(s1, p) == Admitted(s, p);
    assert SpecPlan(s1, p, o).err.Some? && SpecPlan(s1, p, o).writes == [];
    assert FinalizerPlan(s, p).writes + [] == FinalizerPlan(s, p).writes;
  }

  // ----- what an attempt keeps and achieves -----

  lemma SameEligible(s: ClusterState, t: ClusterState)
    requires t.topo == s.topo && t.policies == s.policies
    ensures forall p :: Eligible(t, p) == Eligible(s, p)
    ensures forall p, g :: Targets(t, p, g) == Targets(s, p, g)
    ensures forall g :: Wanted(t, g) == Wanted(s, g)
  {
    forall g
      ensures Wanted(t, g) == Wanted(s, g)
    {
      if p :| Eligible(s, p) && Targets(s, p, g) {
        assert Eligible(t, p) && Targets(t, p, g);
      }
      if p :| Eligible(t, p) && Targets(t, p, g) {
        assert Eligible(s, p) && Targets(s, p, g);
      }
    }
  }

  /** The target of an eligible policy is held by somebody. */
  ghost predicate Taken(s: ClusterState, p: ObjectKey) {
    Eligible(s, p) ==> TargetOf(s, p).value in s.backRefs
  }

  /** A policy that holds its target is listed wherever it targets. */
  ghost predicate Placed(s: ClusterState, p: ObjectKey) {
    Owns(s, p) ==> forall g :: g in s.topo.gateways && Targets(s, p, g) ==> p in Refs(s, g)
  }

  /** Holders stay, and nobody loses a place. */
  ghost predicate Keeps(s: ClusterState, t: ClusterState) {
    && SameUserState(s, t)
    && (forall u :: u in s.backRefs ==> u in t.backRefs && t.backRefs[u] == s.backRefs[u])
    && (forall g, q :: g in s.topo.gateways && q in Refs(s, g) ==> q in Refs(t, g))
  }

  lemma KeepsPlaces(s: ClusterState, t: ClusterState, q: ObjectKey)
    requires Keeps(s, t) && Taken(s, q) && Placed(s, q) && (Owns(s, q) || Eligible(s, q) || !Owns(t, q))
    ensures Taken(t, q) && Placed(t, q)
  {
    assert Eligible(t, q) == Eligible(s, q);
    if Owns(t, q) {
      assert Owns(s, q);
      forall g | g in t.topo.gateways && Targets(t, q, g)
        ensures q in Refs(t, g)
      {
        assert Targets(s, q, g);
      }
    }
  }

  /** A reconcile that gets through. */
  ghost predicate GetsThrough(s: ClusterState, p: ObjectKey, o: Order) {
    && Sound(s) && Live(s, p) && Admitted(s, p) && Lists(o.listing, s.topo)
    && FaithfulOrder(s, p, o, ReconcilePlan(s, p, o).writes)
  }

  lemma ThroughEffect(s: ClusterState, p: ObjectKey, o: Order)
    requires GetsThrough(s, p, o)
    ensures Completed(s, p, o) && RefsOk(s) && TargetOf(s, p).Ok? && TargetedBy(s, p).Ok?
    ensures Effect(s, p, After(s, p, o)) && RefsOk(After(s, p, o)) && LockInv(After(s, p, o))
  {
    var ws := ReconcilePlan(s, p, o).writes;
    AdmittedCompletes(s, p, o);
    SoundRefs(s);
    ReconcileEffect(s, p, o);
    EffectKeepsRefsOk(s, p, After(s, p, o));
    ReconcileSafe(s, p, o);
    SafePrefix(s, ws, |ws|);
    assert ws[..|ws|] == ws;
  }

  /** Seen from one gateway: the policy is listed where it targets, everybody else stays. */
  lemma ThroughAt(s: ClusterState, p: ObjectKey, o: Order, g: ObjectKey)
    requires GetsThrough(s, p, o) && g in s.topo.gateways
    ensures var t := After(s, p, o);
      && t.topo == s.topo && t.policies == s.policies
      && (p in Refs(s, g) ==> Targets(s, p, g))
      && (forall q :: q in Refs(t, g) <==> if q == p then Targets(s, p, g) else q in Refs(s, g))
      && (p in Refs(s, g) ==> Refs(t, g) == Refs(s, g))
      && (if Targets(s, p, g) then MergedHeld(t, g)
          else Refs(t, g) == Refs(s, g) && forall e: Entry :: e.gateway == g ==> Held(t)[e] == Held(s)[e])
  {
    var t := After(s, p, o);
    ThroughEffect(s, p, o);
    EditedRefs(s, p, TargetedBy(s, p).value, g);
    assert Ann(t, g) == EditedAnn(s, p, TargetedBy(s, p).value, g);
    EffectMerges(s, p, t, g);
    assert ListedRightly(s, g, Refs(s, g));
  }

  lemma ThroughKeeps(s: ClusterState, p: ObjectKey, o: Order)
    requires GetsThrough(s, p, o)
    ensures var t := After(s, p, o);
      && Keeps(s, t) && t.backRefs == s.backRefs[TargetOf(s, p).value := p] && Owns(t, p) && Placed(t, p)
  {
    var t := After(s, p, o);
    ThroughEffect(s, p, o);
    forall g | g in s.topo.gateways
      ensures forall q :: q in Refs(s, g) ==> q in Refs(t, g)
      ensures Targets(t, p, g) ==> p in Refs(t, g)
    {
      ThroughAt(s, p, o, g);
    }
  }

  lemma ThroughIsSound(s: ClusterState, p: ObjectKey, o: Order)
    requires GetsThrough(s, p, o)
    ensures Sound(After(s, p, o))
  {
    var t := After(s, p, o);
    ThroughEffect(s, p, o);
    ThroughKeeps(s, p, o);
    SameEligible(s, t);
    assert Eligible(s, p);
    forall e: Entry | e.gateway in t.topo.gateways && Refs(t, e.gateway) == [] && !Wanted(t, e.gateway)
      ensures Held(t)[e] == 0
    {
      ThroughAt(s, p, o, e.gateway);
      assert !Targets(s, p, e.gateway);
    }
  }

  lemma RefusedIsSound(s: ClusterState, p: ObjectKey)
    requires Sound(s) && Live(s, p)
    ensures var t := s.(finalizers := s.finalizers + {p}); Sound(t) && Keeps(s, t)
  {
    var t := s.(finalizers := s.finalizers + {p});
    AddFinalizerSafe(s, p);
    assert t == Apply(s, AddFinalizer(p));
    SameEligible(s, t);
    assert Held(t) == Held(s);
  }

  // ----- any attempt, through or not -----

  ghost predicate Tried(s: ClusterState, p: ObjectKey) {
    Taken(s, p) && Placed(s, p)
  }

  ghost predicate AllTried(s: ClusterState) {
    forall p :: p in s.policies ==> Tried(s, p)
  }

  lemma OwnersAreEligible(s: ClusterState, p: ObjectKey)
    requires Sound(s) && Owns(s, p)
    ensures Eligible(s, p) && Admitted(s, p)
  {
    assert s.backRefs[TargetOf(s, p).value] == p;
  }

  lemma TriedStays(s: ClusterState, t: ClusterState, q: ObjectKey)
    requires Sound(t) && Keeps(s, t) && Tried(s, q)
    ensures Tried(t, q)
  {
    SameEligible(s, t);
    if Owns(t, q) {
      OwnersAreEligible(t, q);
    }
    KeepsPlaces(s, t, q);
  }

  ghost predicate MayAttempt(s: ClusterState, p: ObjectKey, o: Order) {
    Live(s, p) && Lists(o.listing, s.topo) && FaithfulOrder(s, p, o, ReconcilePlan(s, p, o).writes)
  }

  lemma AttemptKeeps(s: ClusterState, p: ObjectKey, o: Order)
    requires Sound(s) && MayAttempt(s, p, o)
    ensures var t := After(s, p, o);
      && Sound(t) && Keeps(s, t) && Tried(t, p) && (forall q :: Tried(s, q) ==> Tried(t, q))
      && forall e: Entry :: e.gateway !in s.topo.gateways ==> Held(t)[e] == Held(s)[e]
  {
    var t := After(s, p, o);
    if Admitted(s, p) {
      ThroughEffect(s, p, o);
      ThroughKeeps(s, p, o);
      ThroughIsSound(s, p, o);
    } else {
      RefusedWrites(s, p, o);
      RefusedIsSound(s, p);
      RefusedIsTried(s, p);
    }
    forall q | Tried(s, q)
      ensures Tried(t, q)
    {
      TriedStays(s, t, q);
    }
  }

  /** Whoever is turned away finds the target held, if it is eligible at all. */
  lemma RefusedIsTried(s: ClusterState, p: ObjectKey)
    requires Sound(s) && Live(s, p) && !Admitted(s, p)
    ensures Tried(s.(finalizers := s.finalizers + {p}), p)
  {
    var t := s.(finalizers := s.finalizers + {p});
    SameEligible(s, t);
  }

  /** Once everybody has tried, attempts leave the references alone and merge the limits
      of the gateways they reach. */
  lemma AttemptMerges(s: ClusterState, p: ObjectKey, o: Order, g: ObjectKey)
    requires Sound(s) && Tried(s, p) && MayAttempt(s, p, o) && g in s.topo.gateways
    ensures var t := After(s, p, o);
      && Refs(t, g) == Refs(s, g)
      && (p in Refs(s, g) || MergedHeld(s, g) ==> MergedHeld(t, g))
  {
    var t := After(s, p, o);
    assert ListedRightly(s, g, Refs(s, g));
    if Admitted(s, p) {
      assert Eligible(s, p) && Owns(s, p);
      ThroughAt(s, p, o, g);
      if MergedHeld(s, g) && !Targets(s, p, g) {
        MergedStays(s, t, g);
      }
    } else {
      RefusedWrites(s, p, o);
      if p in Refs(s, g) {
        OwnersAreEligible(s, p);
      }
      if MergedHeld(s, g) {
        MergedStays(s, t, g);
      }
    }
  }

  lemma MergedStays(s: ClusterState, t: ClusterState, g: ObjectKey)
    requires MergedHeld(s, g) && t.topo == s.topo && t.policies == s.policies && Refs(t, g) == Refs(s, g)
    requires forall e: Entry :: e.gateway == g ==> Held(t)[e] == Held(s)[e]
    ensures MergedHeld(t, g)
  {
    forall e: Entry | e.gateway == g
      ensures Held(t)[e] == MergedAt(t, Refs(t, g), e)
    {
      assert Held(s)[e] == MergedAt(s, Refs(s, g), e);
    }
  }

  // ----- rounds of attempts -----

  /** Attempts one after the other, none of them cut short. */
  ghost predicate Attempts(s: ClusterState, evs: seq<Event>)
    decreases |evs|
  {
    evs != [] ==>
      && MayAttempt(s, evs[0].policy, evs[0].order)
      && Attempts(After(s, evs[0].policy, evs[0].order), evs[1..])
  }

  ghost function Attempted(s: ClusterState, evs: seq<Event>): ClusterState
    requires Attempts(s, evs)
    decreases |evs|
  {
    if evs == [] then s else Attempted(After(s, evs[0].policy, evs[0].order), evs[1..])
  }

  lemma {:induction false} RoundTries(s: ClusterState, evs: seq<Event>)
    requires Sound(s) && Attempts(s, evs)
    ensures var t := Attempted(s, evs);
      && Sound(t) && SameUserState(s, t)
      && (forall q :: Tried(s, q) ==> Tried(t, q))
      && (forall q :: Mentions(evs, q) ==> Tried(t, q))
      && (forall e: Entry :: e.gateway !in s.topo.gateways ==> Held(t)[e] == Held(s)[e])
    decreases |evs|
  {
    if evs != [] {
      AttemptKeeps(s, evs[0].policy, evs[0].order);
      RoundTries(After(s, evs[0].policy, evs[0].order), evs[1..]);
    }
  }

  lemma AllHaveTried(s: ClusterState, evs: seq<Event>)
    requires Sound(s) && Attempts(s, evs) && Round(evs, s)
    ensures Sound(Attempted(s, evs)) && AllTried(Attempted(s, evs)) && SameUserState(s, Attempted(s, evs))
  {
    RoundTries(s, evs);
    forall p | p in s.policies
      ensures Tried(Attempted(s, evs), p)
    {
      assert Mentions(evs, p);
    }
  }

  lemma AttemptKeepsAll(s: ClusterState, p: ObjectKey, o: Order)
    requires Sound(s) && AllTried(s) && MayAttempt(s, p, o)
    ensures Sound(After(s, p, o)) && AllTried(After(s, p, o)) && After(s, p, o).topo == s.topo
  {
    AttemptKeeps(s, p, o);
  }

  lemma {:induction false} RoundOfAttemptsMerges(s: ClusterState, evs: seq<Event>, g: ObjectKey)
    requires Sound(s) && AllTried(s) && Attempts(s, evs) && g in s.topo.gateways
    ensures var t := Attempted(s, evs);
      && Refs(t, g) == Refs(s, g)
      && (MergedHeld(s, g) ==> MergedHeld(t, g))
      && (forall q :: Mentions(evs, q) && q in Refs(s, g) ==> MergedHeld(t, g))
    decreases |evs|
  {
    if evs != [] {
      var p, o := evs[0].policy, evs[0].order;
      AttemptKeepsAll(s, p, o);
      AttemptMerges(s, p, o, g);
      RoundOfAttemptsMerges(After(s, p, o), evs[1..], g);
    }
  }

  // ----- what two rounds achieve -----

  /** Every gateway lists exactly the policies that target it and hold their target,
      each once, and holds the merge of their limits. */
  ghost predicate HoldersConverged(s: ClusterState) {
    forall g :: g in s.topo.gateways ==>
      && NoDuplicates(Refs(s, g))
      && (forall p :: p in Refs(s, g) <==> Owns(s, p) && Targets(s, p, g))
      && MergedHeld(s, g)
  }

  /** The target of every eligible policy is held, by an eligible policy. */
  ghost predicate TargetsAreHeld(s: ClusterState) {
    forall p :: Eligible(s, p) ==>
      && TargetOf(s, p).value in s.backRefs
      && var q := s.backRefs[TargetOf(s, p).value]; Eligible(s, q) && Owns(s, q) && TargetOf(s, q) == TargetOf(s, p)
  }

  lemma TriedTargetsAreHeld(s: ClusterState)
    requires Sound(s) && AllTried(s)
    ensures TargetsAreHeld(s)
  {
    forall p | Eligible(s, p)
      ensures TargetOf(s, p).value in s.backRefs
      ensures var q := s.backRefs[TargetOf(s, p).value];
        Eligible(s, q) && Owns(s, q) && TargetOf(s, q) == TargetOf(s, p)
    {
      assert Tried(s, p);
      assert Recorded(s, TargetOf(s, p).value, s.backRefs[TargetOf(s, p).value]);
    }
  }

  lemma TriedRefs(s: ClusterState, g: ObjectKey)
    requires Sound(s) && AllTried(s) && g in s.topo.gateways
    ensures NoDuplicates(Refs(s, g)) && forall p :: p in Refs(s, g) <==> Owns(s, p) && Targets(s, p, g)
  {
    assert ListedRightly(s, g, Refs(s, g));
    forall p | Owns(s, p) && Targets(s, p, g)
      ensures p in Refs(s, g)
    {
      assert Tried(s, p);
    }
  }

  /** A gateway that lists nobody after the first round is wanted by nobody eligible. */
  lemma NobodyWants(s: ClusterState, g: ObjectKey)
    requires Sound(s) && AllTried(s) && g in s.topo.gateways && Refs(s, g) == []
    ensures !Wanted(s, g)
  {
    TriedRefs(s, g);
    TriedTargetsAreHeld(s);
    if p :| Eligible(s, p) && Targets(s, p, g) {
      var q := s.backRefs[TargetOf(s, p).value];
      TargetDecidesGateways(s, p);
      assert Owns(s, q) && Targets(s, q, g);
    }
  }

  lemma UnwantedIsMerged(s: ClusterState, g: ObjectKey)
    requires Sound(s) && AllTried(s) && g in s.topo.gateways && Refs(s, g) == []
    ensures MergedHeld(s, g)
  {
    NobodyWants(s, g);
    forall e: Entry | e.gateway == g
      ensures Held(s)[e] == MergedAt(s, Refs(s, g), e)
    {
      assert Held(s)[e] == 0;
    }
  }

  lemma SecondRoundMerges(m: ClusterState, second: seq<Event>, g: ObjectKey)
    requires Sound(m) && AllTried(m) && Attempts(m, second) && Round(second, m) && g in m.topo.gateways
    ensures MergedHeld(Attempted(m, second), g)
  {
    RoundOfAttemptsMerges(m, second, g);
    if Refs(m, g) == [] {
      UnwantedIsMerged(m, g);
    } else {
      var p := Refs(m, g)[0];
      assert ListedRightly(m, g, Refs(m, g)) && p in Refs(m, g);
      assert Mentions(second, p);
    }
  }

  /** Two rounds of attempts, none cut short, each in any order and with repetitions,
      converge, whether they complete or not: every target an eligible policy claims is
      held, every gateway lists exactly the holders that target it, and holds the merge
      of their limits; limits of other gateways are as they were. */
  lemma AttemptsConverge(s: ClusterState, first: seq<Event>, second: seq<Event>)
    requires Sound(s) && Attempts(s, first) && Round(first, s)
    requires Attempts(Attempted(s, first), second) && Round(second, s)
    ensures var t := Attempted(Attempted(s, first), second);
      && HoldersConverged(t) && TargetsAreHeld(t) && SameUserState(s, t) && Sound(t)
      && forall e: Entry :: e.gateway !in s.topo.gateways ==> Held(t)[e] == Held(s)[e]
  {
    var m := Attempted(s, first);
    var t := Attempted(m, second);
    AllHaveTried(s, first);
    RoundTries(s, first);
    AllHaveTried(m, second);
    RoundTries(m, second);
    TriedTargetsAreHeld(t);
    forall g | g in t.topo.gateways
      ensures NoDuplicates(Refs(t, g))
      ensures forall p :: p in Refs(t, g) <==> Owns(t, p) && Targets(t, p, g)
      ensures MergedHeld(t, g)
    {
      TriedRefs(t, g);
      SecondRoundMerges(m, second, g);
    }
  }

  // ----- when nobody competes -----

  /** Every policy is eligible, and no two share a target. */
  ghost predicate Uncontested(s: ClusterState) {
    && (forall p :: p in s.policies ==> Eligible(s, p))
    && forall p, q :: p in s.policies && q in s.policies && TargetOf(s, p) == TargetOf(s, q) ==> p == q
  }

  lemma UncontestedIsAdmitted(s: ClusterState, p: ObjectKey)
    requires Sound(s) && Uncontested(s) && p in s.policies
    ensures Admitted(s, p)
  {
    assert Eligible(s, p);
    var target := TargetOf(s, p).value;
    if target in s.backRefs {
      assert Recorded(s, target, s.backRefs[target]);
    }
  }

  lemma UncontestedStays(s: ClusterState, t: ClusterState)
    requires Uncontested(s) && t.topo == s.topo && t.policies == s.policies
    ensures Uncontested(t)
  {
    SameEligible(s, t);
  }

  /** Then every attempt completes. */
  lemma {:induction false} UncontestedAttemptsComplete(s: ClusterState, evs: seq<Event>)
    requires Sound(s) && Uncontested(s) && Attempts(s, evs)
    ensures AllComplete(s, evs) && RunEvents(s, evs) == Attempted(s, evs)
    ensures Sound(Attempted(s, evs)) && Uncontested(Attempted(s, evs))
    decreases |evs|
  {
    if evs != [] {
      var p, o := evs[0].policy, evs[0].order;
      UncontestedIsAdmitted(s, p);
      ThroughEffect(s, p, o);
      AttemptKeeps(s, p, o);
      UncontestedStays(s, After(s, p, o));
      UncontestedAttemptsComplete(After(s, p, o), evs[1..]);
    }
  }

  lemma SoundIsStart(s: ClusterState)
    requires Sound(s) && Uncontested(s)
    ensures Start(s)
  {
    SoundRefs(s);
    forall g | g in s.topo.gateways
      ensures forall p :: p in Refs(s, g) ==> p in s.policies
      ensures Idle(s, g) ==> !Wanted(s, g)
    {
      assert ListedRightly(s, g, Refs(s, g));
    }
  }

  /** And two rounds lead to the goal of the control loop, every policy listed on every
      gateway it targets. */
  lemma UncontestedConverges(s: ClusterState, first: seq<Event>, second: seq<Event>)
    requires Sound(s) && Uncontested(s) && Attempts(s, first) && Round(first, s)
    requires Attempts(Attempted(s, first), second) && Round(second, s)
    ensures AllComplete(s, first) && AllComplete(RunEvents(s, first), second)
    ensures Converged(RunEvents(RunEvents(s, first), second))
  {
    SoundIsStart(s);
    UncontestedAttemptsComplete(s, first);
    UncontestedAttemptsComplete(Attempted(s, first), second);
    TwoRoundsConverge(s, first, second);
  }
}

/** A run that breaks the lock, from a cluster the controller has not touched: policy
    `b` never gets the gateway, because policy `a` holds it, and yet deleting `b`
    releases `a`'s back reference. */
module StolenLock {
  import opened Cluster
  import opened Common
  import opened Completion
  import opened Effects
  import opened FinalizeEffects
  import opened GatewayRefs
  import opened LimitIndexes
  import opened LockProtocol
  import opened Plans
  import opened SmallClusters
  import opened TargetRefs

  const HOLDER := ObjectKey("infra", "a")
  const LOSER := ObjectKey("infra", "b")

  /** One gateway, no policies yet. */
  const NOBODY := ClusterState(
    Topology(map[GATEWAY := Gateway([], false)], map[]), map[], {}, {}, map[], map[], READY, map[], map[])

  /** Both policies are created and reconciled, the second one is turned away after its
      first write, and its deletion is requested. */
  function Race(o: Order, done: nat, o': Order): seq<Step> {
    [CreatePolicy(HOLDER, GatewayPolicy([])), Run(HOLDER, o, done),
     CreatePolicy(LOSER, GatewayPolicy([])), Run(LOSER, o', 1), RequestDeletion(LOSER)]
  }

  lemma KeysDiffer()
    ensures HOLDER != LOSER
  {
    assert HOLDER.name[0] != LOSER.name[0];
  }

  /** `a` holds the gateway and is the only policy listed there. */
  ghost predicate HeldBy(s: ClusterState, p: ObjectKey) {
    && Small(s) && LimitadorReady(s) && Held(s) == multiset{} && OnGateway(s, p, [])
    && s.backRefs == map[GatewayTarget(GATEWAY) := p] && Refs(s, GATEWAY) == [p]
  }

  lemma HolderGetsTheGateway(s: ClusterState, p: ObjectKey) returns (o: Order)
    requires Small(s) && LimitadorReady(s) && Held(s) == multiset{} && OnGateway(s, p, []) && Live(s, p)
    requires s.backRefs == map[] && s.refs == map[] && NamesOk(s.topo)
    ensures Completed(s, p, o) && HeldBy(After(s, p, o), p)
    ensures var t := After(s, p, o);
      t.topo == s.topo && t.policies == s.policies && t.deleting == s.deleting && t.finalizers == s.finalizers + {p}
  {
    o := BareRun(s, p);
    GatewayIsTarget(s, p, []);
    ReconcileEffect(s, p, o);
    var t := After(s, p, o);
    assert Ann(t, GATEWAY) == EditedAnn(s, p, [GATEWAY], GATEWAY) == Listed([p]);
    forall e: Entry
      ensures Held(t)[e] == 0
    {
      NoLimitsAlone(s, p, e);
    }
  }

  /** The target belongs to somebody else: the finalizer is all the reconcile writes. */
  lemma LoserIsTurnedAway(s: ClusterState, p: ObjectKey, q: ObjectKey, o: Order)
    requires HeldBy(s, p) && p != q && OnGateway(s, q, []) && Live(s, q) && q !in s.finalizers
    requires Lists(o.listing, s.topo)
    ensures ReconcilePlan(s, q, o) == Plan([AddFinalizer(q)], Some(AlreadyReferenced))
  {
    var s1 := s.(finalizers := s.finalizers + {q});
    GatewayIsTarget(s1, q, []);
    LivePlan(s, q, o);
    assert SpecPlan(s1, q, o) == Fail(AlreadyReferenced);
  }

  lemma LoserLeaves(s: ClusterState, p: ObjectKey, q: ObjectKey) returns (o: Order)
    requires HeldBy(s, p) && p != q && OnGateway(s, q, []) && Leaving(s, q) && LockInv(s)
    ensures Completed(s, q, o) && !LockInv(After(s, q, o))
  {
    GatewayIsTarget(s, p, []);
    GatewayIsTarget(s, q, []);
    OneLoads(s.policies, s.topo.routes, p);
    assert IndexOfKey([p], q) == 1;
    assert Remaining(s, q, GATEWAY) == [p];
    o := LastRun(s, q);
    assert p in Refs(s, GATEWAY) && !MayRelease(s, q);
    FinalizeIsSafeIff(s, q, o);
  }

  ghost function Created(s: ClusterState, p: ObjectKey): ClusterState {
    s.(policies := s.policies[p := GatewayPolicy([])])
  }

  lemma HolderIsFresh()
    ensures Untouched(NOBODY) && HOLDER !in NOBODY.policies
    ensures var s := Created(NOBODY, HOLDER);
      && Small(s) && LimitadorReady(s) && Held(s) == multiset{} && OnGateway(s, HOLDER, []) && Live(s, HOLDER)
      && s.backRefs == map[] && s.refs == map[] && NamesOk(s.topo) && s.finalizers == s.deleting == {}
  {
    assert NOBODY.limitador.value.limits == [];
  }

  /** The cluster after the race, `t` being the one in which `a` has got the gateway. */
  ghost function Raced(t: ClusterState, q: ObjectKey): ClusterState {
    Created(t, q).(finalizers := t.finalizers + {q}, deleting := t.deleting + {q})
  }

  lemma StepFirst(s: ClusterState, step: Step, rest: seq<Step>)
    requires Enabled(s, step) && ReleasesSafely(s, step) && ValidRun(Next(s, step), rest)
    ensures ValidRun(s, [step] + rest) && EndOf(s, [step] + rest) == EndOf(Next(s, step), rest)
  {
    assert ([step] + rest)[1..] == rest;
  }

  /** The part of the race after `a` has got the gateway. */
  lemma RaceTail(t: ClusterState, o: Order)
    requires LOSER !in t.policies && LOSER !in t.deleting && Lists(o.listing, t.topo)
    requires ReconcilePlan(Created(t, LOSER), LOSER, o).writes == [AddFinalizer(LOSER)]
    ensures var steps := [CreatePolicy(LOSER, GatewayPolicy([])), Run(LOSER, o, 1), RequestDeletion(LOSER)];
      ValidRun(t, steps) && EndOf(t, steps) == Raced(t, LOSER)
  {
    var t1 := Created(t, LOSER);
    var t2 := Apply(t1, AddFinalizer(LOSER));
    var create, run, delete := CreatePolicy(LOSER, GatewayPolicy([])), Run(LOSER, o, 1), RequestDeletion(LOSER);
    var ws := ReconcilePlan(t1, LOSER, o).writes;
    assert ws[..1] == [AddFinalizer(LOSER)];
    ApplyOne(t1, AddFinalizer(LOSER));
    assert ValidRun(Raced(t, LOSER), []) && Next(t2, delete) == Raced(t, LOSER);
    StepFirst(t2, delete, []);
    StepFirst(t1, run, [delete]);
    StepFirst(t, create, [run, delete]);
    assert [run] + [delete] == [run, delete] && [create] + [run, delete] == [create, run, delete];
  }

  lemma RaceEnds(s: ClusterState, o: Order, t: ClusterState, o': Order)
    requires HOLDER !in s.policies && HOLDER !in s.deleting
    requires Lists(o.listing, s.topo) && t == After(Created(s, HOLDER), HOLDER, o)
    requires LOSER !in t.policies && LOSER !in t.deleting && Lists(o'.listing, t.topo)
    requires ReconcilePlan(Created(t, LOSER), LOSER, o').writes == [AddFinalizer(LOSER)]
    ensures var steps := Race(o, |ReconcilePlan(Created(s, HOLDER), HOLDER, o).writes|, o');
      ValidRun(s, steps) && EndOf(s, steps) == Raced(t, LOSER)
  {
    var s1 := Created(s, HOLDER);
    var ws := ReconcilePlan(s1, HOLDER, o).writes;
    var create, run := CreatePolicy(HOLDER, GatewayPolicy([])), Run(HOLDER, o, |ws|);
    var tail := [CreatePolicy(LOSER, GatewayPolicy([])), Run(LOSER, o', 1), RequestDeletion(LOSER)];
    WholeRun(s1, HOLDER, o);
    RaceTail(t, o');
    StepFirst(s1, run, tail);
    StepFirst(s, create, [run] + tail);
    RaceIsTwoSteps(o, |ws|, o');
  }

  lemma RaceIsTwoSteps(o: Order, done: nat, o': Order)
    ensures Race(o, done, o') == [CreatePolicy(HOLDER, GatewayPolicy([]))] + ([Run(HOLDER, o, done)] +
              [CreatePolicy(LOSER, GatewayPolicy([])), Run(LOSER, o', 1), RequestDeletion(LOSER)])
  {
  }

  /** A run of which every write is accepted. */
  lemma WholeRun(s: ClusterState, p: ObjectKey, o: Order)
    requires Lists(o.listing, s.topo) && p !in s.deleting
    ensures var run := Run(p, o, |ReconcilePlan(s, p, o).writes|);
      Enabled(s, run) && ReleasesSafely(s, run) && Next(s, run) == After(s, p, o)
  {
    var ws := ReconcilePlan(s, p, o).writes;
    assert ws[..|ws|] == ws;
  }

  /** The invariant holds up to the deletion of `b`; the finalize of `b` completes and
      leaves `a` listed but no longer recorded. */
  lemma LoserReleasesTheLock() returns (o: Order, done: nat, o': Order, last: Order)
    ensures Untouched(NOBODY) && ValidRun(NOBODY, Race(o, done, o'))
    ensures var s := EndOf(NOBODY, Race(o, done, o'));
      LockInv(s) && Leaving(s, LOSER) && Completed(s, LOSER, last) && !LockInv(After(s, LOSER, last))
  {
    KeysDiffer();
    HolderIsFresh();
    var s1 := Created(NOBODY, HOLDER);
    o := HolderGetsTheGateway(s1, HOLDER);
    done := |ReconcilePlan(s1, HOLDER, o).writes|;
    var t := After(s1, HOLDER, o);
    o' := AnyOrder(Created(t, LOSER), LOSER);
    LoserIsTurnedAway(Created(t, LOSER), HOLDER, LOSER, o');
    RaceEnds(NOBODY, o, t, o');
    UntouchedIsSafe(NOBODY);
    LockSafety(NOBODY, Race(o, done, o'));
    last := LoserLeaves(Raced(t, LOSER), HOLDER, LOSER);
  }
}

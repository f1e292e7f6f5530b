/** The smallest interesting cluster, one policy with one limit on one gateway: both
    rounds of the convergence theorem complete there, and Limitador ends up holding
    that limit. */
module OnePolicy {
  import opened Cluster
  import opened Common
  import opened Convergence
  import opened Effects
  import opened LimitIndexes
  import opened Plans
  import opened SecondRun
  import opened SmallClusters
  import opened TargetRefs

  const FRESH := ClusterState(
    Topology(map[GATEWAY := Gateway([], false)], map[]),
    map[OWNER := GatewayPolicy([LIMIT])], {}, {}, map[], map[], READY, map[], map[])

  lemma FreshIsAStart()
    ensures Start(FRESH) && Live(FRESH, OWNER) && Small(FRESH) && OnGateway(FRESH, OWNER, [LIMIT])
    ensures Held(FRESH) == multiset{}
  {
    assert FRESH.limitador.value.limits == [];
  }

  lemma FirstRun() returns (o: Order)
    ensures Live(FRESH, OWNER) && Completed(FRESH, OWNER, o)
  {
    FreshIsAStart();
    o := LimitedRun(FRESH, OWNER);
  }

  lemma AgainRun(o: Order) returns (o': Order)
    requires Completed(FRESH, OWNER, o)
    ensures var t := After(FRESH, OWNER, o); Live(t, OWNER) && Completed(t, OWNER, o') && t.policies == FRESH.policies
  {
    var t := After(FRESH, OWNER, o);
    FreshIsAStart();
    EventKeepsStart(FRESH, OWNER, o);
    o' := AnyOrder(t, OWNER);
    SecondRunOnlyReorders(FRESH, OWNER, o, o');
  }

  lemma RoundCompletes(s: ClusterState, o: Order)
    requires Live(s, OWNER) && Completed(s, OWNER, o)
    ensures AllComplete(s, [Event(OWNER, o)])
    ensures RunEvents(s, [Event(OWNER, o)]) == After(s, OWNER, o)
  {
    var round := [Event(OWNER, o)];
    var t := After(s, OWNER, o);
    assert round[1..] == [];
    assert AllComplete(t, []) && RunEvents(t, []) == t;
  }

  /** Both rounds run to their end, and the limit arrives. */
  lemma OnePolicyConverges() returns (first: seq<Event>, second: seq<Event>)
    ensures Start(FRESH) && AllComplete(FRESH, first) && Round(first, FRESH)
    ensures var m := RunEvents(FRESH, first);
      && AllComplete(m, second) && Round(second, m)
      && Held(RunEvents(m, second)) == multiset{ENTRY}
  {
    FreshIsAStart();
    var o := FirstRun();
    var o' := AgainRun(o);
    first, second := [Event(OWNER, o)], [Event(OWNER, o')];
    RoundCompletes(FRESH, o);
    RoundCompletes(After(FRESH, OWNER, o), o');
    OneRound(FRESH, o);
    OneRound(After(FRESH, OWNER, o), o');
    BothRoundsConverge(first, second);
  }

  lemma BothRoundsConverge(first: seq<Event>, second: seq<Event>)
    requires Start(FRESH) && AllComplete(FRESH, first) && Round(first, FRESH) && Held(FRESH) == multiset{}
    requires AllComplete(RunEvents(FRESH, first), second) && Round(second, FRESH)
    ensures Held(RunEvents(RunEvents(FRESH, first), second)) == multiset{ENTRY}
  {
    TwoRoundsConverge(FRESH, first, second);
    LimitArrives(RunEvents(RunEvents(FRESH, first), second));
  }

  lemma OneRound(s: ClusterState, o: Order)
    requires s.policies.Keys == {OWNER}
    ensures Round([Event(OWNER, o)], s)
  {
    assert [Event(OWNER, o)][0].policy == OWNER;
  }

  lemma LimitArrives(t: ClusterState)
    requires Converged(t) && t.topo == FRESH.topo && t.policies == FRESH.policies
    requires forall e: Entry :: e.gateway != GATEWAY ==> Held(t)[e] == 0
    ensures Held(t) == multiset{ENTRY}
  {
    GatewayIsTarget(t, OWNER, [LIMIT]);
    assert Refs(t, GATEWAY) == [OWNER] by {
      var refs := Refs(t, GATEWAY);
      assert forall p :: p in refs <==> p == OWNER;
      OnlyMember(refs);
    }
    forall e: Entry
      ensures Held(t)[e] == multiset{ENTRY}[e]
    {
      if e.gateway == GATEWAY {
        MergedOnce(t, OWNER, e);
      }
    }
  }

  lemma OnlyMember(refs: seq<ObjectKey>)
    requires NoDuplicates(refs) && forall p :: p in refs <==> p == OWNER
    ensures refs == [OWNER]
  {
    SameMembersSameMultiset(refs, [OWNER]);
    assert |refs| == |multiset(refs)| == |multiset([OWNER])| == 1;
    assert refs[0] in refs;
  }
}

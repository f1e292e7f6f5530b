/** The cluster as the controller sees it, the writes it can issue, and plans:
    the writes one reconcile would issue, in order, and the error that ends it. */
module Cluster {
  import opened Common
  import opened GatewayRefs
  import opened LimitIndexes
  import opened Merging
  import opened Sums
  import opened TargetRefs
  import opened WasmPlugins

  datatype Endpoint = Endpoint(host: string, port: int)

  datatype Limitador = Limitador(limits: seq<RateLimit>, ready: bool, endpoint: Endpoint)

  /** The user owns `topo` and the policies' contents; the controller owns the rest.
      `filters` and `plugins` are keyed by the gateway they are named after. */
  datatype ClusterState = ClusterState(
    topo: Topology,
    policies: Policies,
    finalizers: set<ObjectKey>,
    deleting: set<ObjectKey>,
    backRefs: map<Target, ObjectKey>,
    refs: map<ObjectKey, RefAnnotation>,
    limitador: Option<Limitador>,
    filters: map<ObjectKey, Endpoint>,
    plugins: map<ObjectKey, seq<WasmPolicy>>)

  datatype Write =
    | AddFinalizer(policy: ObjectKey)
    | RemoveFinalizer(policy: ObjectKey)
    | SetBackRef(target: Target, policy: ObjectKey)
    | ClearBackRef(target: Target)
    | SetRefs(gateway: ObjectKey, annotation: RefAnnotation)
    | SetLimits(limits: seq<RateLimit>)
    | PutFilter(gateway: ObjectKey, endpoint: Endpoint)
    | DeleteFilter(gateway: ObjectKey)
    | PutPlugin(gateway: ObjectKey, plugin: seq<WasmPolicy>)
    | DeletePlugin(gateway: ObjectKey)

  /** The effect of one accepted write. Removing the finalizer of a policy that is
      being deleted lets the API server drop the policy. */
  function Apply(s: ClusterState, w: Write): (r: ClusterState)
    ensures r.topo == s.topo
    ensures !w.RemoveFinalizer? ==> r.policies == s.policies && r.deleting == s.deleting
  {
    match w
    case AddFinalizer(p) => s.(finalizers := s.finalizers + {p})
    case RemoveFinalizer(p) =>
      s.(finalizers := s.finalizers - {p}, policies := s.policies - {p}, deleting := s.deleting - {p})
    case SetBackRef(t, p) => s.(backRefs := s.backRefs[t := p])
    case ClearBackRef(t) => s.(backRefs := s.backRefs - {t})
    case SetRefs(g, a) => s.(refs := s.refs[g := a])
    case SetLimits(ls) =>
      if s.limitador.Some? then s.(limitador := Some(s.limitador.value.(limits := ls))) else s
    case PutFilter(g, e) => s.(filters := s.filters[g := e])
    case DeleteFilter(g) => s.(filters := s.filters - {g})
    case PutPlugin(g, plugin) => s.(plugins := s.plugins[g := plugin])
    case DeletePlugin(g) => s.(plugins := s.plugins - {g})
  }

  function ApplyAll(s: ClusterState, ws: seq<Write>): (r: ClusterState)
    ensures r.topo == s.topo
    ensures |ws| == 1 && !ws[0].RemoveFinalizer? ==> r.policies == s.policies
    decreases |ws|
  {
    if ws == [] then s else ApplyAll(Apply(s, ws[0]), ws[1..])
  }

  lemma {:induction false} ApplyConcat(s: ClusterState, a: seq<Write>, b: seq<Write>)
    ensures ApplyAll(s, a + b) == ApplyAll(ApplyAll(s, a), b)
    decreases |a|
  {
    if a == [] {
      assert a + b == b;
    } else {
      assert (a + b)[1..] == a[1..] + b;
      ApplyConcat(Apply(s, a[0]), a[1..], b);
    }
  }

  lemma ApplyOne(s: ClusterState, w: Write)
    ensures ApplyAll(s, [w]) == Apply(s, w)
  {
  }

  // ----- plans -----

  datatype Plan = Plan(writes: seq<Write>, err: Option<Error>)

  const DONE := Plan([], None)

  function Fail(e: Error): Plan {
    Plan([], Some(e))
  }

  /** Do `a`, and `b` after it unless `a` fails. */
  function Then(a: Plan, b: Plan): Plan {
    if a.err.Some? then a else Plan(a.writes + b.writes, b.err)
  }

  lemma ThenApplied(s: ClusterState, a: Plan, b: Plan)
    requires Then(a, b).err.None?
    ensures a.err.None? && b.err.None?
    ensures ApplyAll(s, Then(a, b).writes) == ApplyAll(ApplyAll(s, a.writes), b.writes)
  {
    ApplyConcat(s, a.writes, b.writes);
  }

  /** What an attempt at a plan did: all of it, ending as planned, or a proper
      prefix of its writes, ending with a refused write. */
  ghost predicate Performed(before: ClusterState, plan: Plan, ws: seq<Write>, after: ClusterState, err: Option<Error>) {
    && after == ApplyAll(before, ws)
    && ((ws == plan.writes && err == plan.err) || (ws < plan.writes && err == Some(WriteFailed)))
  }

  lemma PerformedThenFailed(s: ClusterState, a: Plan, b: Plan, ws: seq<Write>, s1: ClusterState, err: Option<Error>)
    requires Performed(s, a, ws, s1, err) && err.Some?
    ensures Performed(s, Then(a, b), ws, s1, err)
  {
  }

  lemma PerformedThen(s: ClusterState, a: Plan, b: Plan, ws: seq<Write>, s1: ClusterState,
                      vs: seq<Write>, s2: ClusterState, err: Option<Error>)
    requires Performed(s, a, ws, s1, None) && Performed(s1, b, vs, s2, err)
    ensures Performed(s, Then(a, b), ws + vs, s2, err)
  {
    ApplyConcat(s, ws, vs);
  }

  // ----- reading the cluster -----

  function Ann(s: ClusterState, g: ObjectKey): RefAnnotation {
    if g in s.refs then s.refs[g] else Absent
  }

  /** The policies listed on a gateway. */
  function Refs(s: ClusterState, g: ObjectKey): seq<ObjectKey> {
    RefKeys(Ann(s, g))
  }

  function HostsOf(topo: Topology, g: ObjectKey): seq<string> {
    if g in topo.gateways then ListenerHostnames(topo.gateways[g].listeners) else []
  }

  /** A hostname counts once for each listener of the gateway that carries it. */
  lemma HostsCount(topo: Topology, g: ObjectKey, hostname: string)
    requires g in topo.gateways
    ensures Count(HostsOf(topo, g), hostname) == Sum(Carries(hostname), topo.gateways[g].listeners)
  {
    ListenerCount(topo.gateways[g].listeners, hostname);
  }

  function SnapshotOf(s: ClusterState, g: ObjectKey): Snapshot
    requires g in s.topo.gateways
  {
    Snapshot(g, s.topo.gateways[g].listeners, Ann(s, g))
  }

  /** Every gateway once, in the order the API server lists them. */
  ghost predicate Lists(listing: seq<ObjectKey>, topo: Topology) {
    NoDuplicates(listing) && forall g :: g in listing <==> g in topo.gateways
  }

  function SnapshotsOf(s: ClusterState, gws: seq<ObjectKey>): seq<Snapshot>
    requires forall g :: g in gws ==> g in s.topo.gateways
  {
    seq(|gws|, i requires 0 <= i < |gws| => SnapshotOf(s, gws[i]))
  }

  /** The entries held by Limitador, whatever their order. */
  ghost function Held(s: ClusterState): multiset<Entry> {
    if s.limitador.Some? then Parsed(s.limitador.value.limits) else multiset{}
  }
}

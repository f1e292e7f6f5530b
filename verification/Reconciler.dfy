/** controllers/apim/ratelimitpolicy_controller.go and ratelimitpolicy_finalizers.go:
    the controller itself. Every write may be refused; each method performs its
    plan, or a proper prefix of it that ends with the refused write. */
module Reconcilers {
  import opened Cluster
  import opened Common
  import opened GatewayRefs
  import opened Hostnames
  import opened LimitIndexes
  import opened Merging
  import opened MergeLaws
  import opened Plans
  import opened Sums
  import opened TargetRefs
  import opened WasmPlugins

  class ApiServer {
    var state: ClusterState

    constructor (s: ClusterState)
      ensures state == s
    {
      state := s;
    }

    /** One create, update or delete; the server may refuse it. */
    method Issue(w: Write) returns (ok: bool)
      modifies this
      ensures state == if ok then Apply(old(state), w) else old(state)
    {
      if * {
        state := Apply(state, w);
        return true;
      } else {
        return false;
      }
    }
  }

  class Reconciler {
    const api: ApiServer

    constructor (api: ApiServer)
      ensures this.api == api
    {
      this.api := api;
    }

    /** Issues a single write; `plan` is the plan that consists of it. */
    method Perform(w: Write) returns (err: Option<Error>, ghost ws: seq<Write>)
      modifies api
      ensures Performed(old(api.state), Plan([w], None), ws, api.state, err)
    {
      var ok := api.Issue(w);
      if !ok {
        assert [] < [w];
        return Some(WriteFailed), [];
      }
      assert ApplyAll(old(api.state), [w]) == Apply(old(api.state), w);
      return None, [w];
    }

    // ----- filters and plugins: `ReconcileResource` -----

    method ReconcileFilter(j: Job) returns (err: Option<Error>, ghost ws: seq<Write>)
      modifies api
      ensures Performed(old(api.state), FilterStep(old(api.state), j), ws, api.state, err)
    {
      if |j.refs| < 1 {
        // tagged for deletion
        if j.gateway !in api.state.filters {
          return None, [];
        }
        err, ws := Perform(DeleteFilter(j.gateway));
        return;
      }
      if api.state.limitador.None? {
        return Some(NotFound), [];
      }
      if !api.state.limitador.value.ready {
        return Some(LimitadorNotReady), [];
      }
      err, ws := Perform(PutFilter(j.gateway, api.state.limitador.value.endpoint));
    }

    method ReconcilePlugin(j: Job) returns (err: Option<Error>, ghost ws: seq<Write>, ghost domains: seq<string>)
      modifies api
      ensures VisitsJob(old(api.state), j, domains)
      ensures Performed(old(api.state), WasmStep(old(api.state), PluginJob(j, domains)), ws, api.state, err)
    {
      if |j.refs| < 1 {
        // tagged for deletion
        domains := AnyVisit(api.state, j);
        if j.gateway !in api.state.plugins {
          return None, [], domains;
        }
        err, ws := Perform(DeletePlugin(j.gateway));
        return;
      }
      var hostnames := GatewayHostnames(j.listeners);
      var config;
      config, domains := WasmPluginConfig(j.gateway, api.state.policies, api.state.topo.routes, hostnames, j.refs);
      if config.Err? {
        return Some(config.error), [], domains;
      }
      // the lists are compared in order
      if j.gateway in api.state.plugins && api.state.plugins[j.gateway] == config.value {
        return None, [], domains;
      }
      err, ws := Perform(PutPlugin(j.gateway, config.value));
    }

    /** The references of a gateway the policy leaves or has left. */
    method RemainingJob(gw: GatewayWrapper, rlpKey: ObjectKey) returns (j: Job)
      ensures j == LeftJob(gw.Snap(), rlpKey)
    {
      var rlpRefs := gw.RLPRefs();
      var refID := FindObjectKey(rlpRefs, rlpKey);
      if refID != |rlpRefs| {
        rlpRefs := rlpRefs[..refID] + rlpRefs[refID + 1..];
      }
      return Job(gw.key, gw.listeners, rlpRefs);
    }

    /** The references of a gateway the policy joins. */
    method JoinedJob(gw: GatewayWrapper, rlpKey: ObjectKey) returns (j: Job)
      ensures j == NewJob(gw.Snap(), rlpKey)
    {
      var rlpRefs := gw.RLPRefs();
      var found := ContainsObjectKey(rlpRefs, rlpKey);
      if !found {
        rlpRefs := rlpRefs + [rlpKey];
      }
      return Job(gw.key, gw.listeners, rlpRefs);
    }

    method ReconcileLeftFilters(left: seq<GatewayWrapper>, ghost snaps: seq<Snapshot>, rlpKey: ObjectKey)
      returns (err: Option<Error>, ghost ws: seq<Write>)
      requires Shows(left, snaps)
      modifies api
      ensures Performed(old(api.state), FilterPlan(old(api.state), LeftJobs(snaps, rlpKey)), ws, api.state, err)
    {
      ghost var before, jobs := api.state, LeftJobs(snaps, rlpKey);
      ws := [];
      FilterStart(before, jobs);
      for i := 0 to |left|
        invariant FilterProgress(before, jobs, i, ws, api.state)
      {
        var j := RemainingJob(left[i], rlpKey);
        assert jobs[i] == j;
        ghost var now, vs := api.state, [];
        err, vs := ReconcileFilter(j);
        FilterNext(before, jobs, i, ws, now, vs, api.state, err);
        ws := ws + vs;
        if err.Some? {
          return;
        }
      }
      FilterEnd(before, jobs, ws, api.state);
      return None, ws;
    }

    method ReconcileNewFilters(added: seq<GatewayWrapper>, ghost snaps: seq<Snapshot>, rlpKey: ObjectKey)
      returns (err: Option<Error>, ghost ws: seq<Write>)
      requires Shows(added, snaps)
      modifies api
      ensures Performed(old(api.state), FilterPlan(old(api.state), NewJobs(snaps, rlpKey)), ws, api.state, err)
    {
      ghost var before, jobs := api.state, NewJobs(snaps, rlpKey);
      ws := [];
      FilterStart(before, jobs);
      for i := 0 to |added|
        invariant FilterProgress(before, jobs, i, ws, api.state)
      {
        var j := JoinedJob(added[i], rlpKey);
        assert jobs[i] == j;
        ghost var now, vs := api.state, [];
        err, vs := ReconcileFilter(j);
        FilterNext(before, jobs, i, ws, now, vs, api.state, err);
        ws := ws + vs;
        if err.Some? {
          return;
        }
      }
      FilterEnd(before, jobs, ws, api.state);
      return None, ws;
    }

    /** `reconcileRateLimitingClusterEnvoyFilter`: gateways that stay are skipped. */
    method ReconcileFilters(added: seq<GatewayWrapper>, left: seq<GatewayWrapper>, ghost d: Diff, rlpKey: ObjectKey)
      returns (err: Option<Error>, ghost ws: seq<Write>)
      requires Shows(added, d.added) && Shows(left, d.left)
      modifies api
      ensures Performed(old(api.state),
                        FilterPlan(old(api.state), FilterJobs(d, rlpKey)),
                        ws, api.state, err)
    {
      ghost var s0 := api.state;
      ghost var leftJobs, newJobs := LeftJobs(d.left, rlpKey), NewJobs(d.added, rlpKey);
      FilterPlanConcat(s0, leftJobs, newJobs);
      err, ws := ReconcileLeftFilters(left, d.left, rlpKey);
      if err.Some? {
        return;
      }
      ghost var s1, vs := api.state, [];
      err, vs := ReconcileNewFilters(added, d.added, rlpKey);
      PerformedThen(s0, FilterPlan(s0, leftJobs), FilterPlan(s1, newJobs), ws, s1, vs, api.state, err);
      ws := ws + vs;
    }

    method ReconcileLeftPlugins(left: seq<GatewayWrapper>, ghost snaps: seq<Snapshot>, rlpKey: ObjectKey)
      returns (err: Option<Error>, ghost ws: seq<Write>, ghost domains: seq<seq<string>>)
      requires Shows(left, snaps)
      modifies api
      ensures PluginsPerformed(old(api.state), LeftJobs(snaps, rlpKey), domains, ws, api.state, err)
    {
      ghost var before, jobs := api.state, LeftJobs(snaps, rlpKey);
      ws, domains := [], [];
      for i := 0 to |left|
        invariant PluginsPerformed(before, jobs[..i], domains, ws, api.state, None)
      {
        var j := RemainingJob(left[i], rlpKey);
        assert jobs[i] == j;
        ghost var now, vs, ds := api.state, [], [];
        err, vs, ds := ReconcilePlugin(j);
        PluginsNext(before, jobs, i, domains, ws, now, ds, vs, api.state, err);
        ws, domains := ws + vs, domains + [ds];
        if err.Some? {
          domains := domains + AnyVisits(before, jobs[i + 1..]);
          return;
        }
      }
      assert jobs[..|left|] == jobs;
      return None, ws, domains;
    }

    method ReconcileSamePlugins(same: seq<GatewayWrapper>, ghost snaps: seq<Snapshot>)
      returns (err: Option<Error>, ghost ws: seq<Write>, ghost domains: seq<seq<string>>)
      requires Shows(same, snaps)
      modifies api
      ensures PluginsPerformed(old(api.state), SameJobs(snaps), domains, ws, api.state, err)
    {
      ghost var before, jobs := api.state, SameJobs(snaps);
      ws, domains := [], [];
      for i := 0 to |same|
        invariant PluginsPerformed(before, jobs[..i], domains, ws, api.state, None)
      {
        var j := Job(same[i].key, same[i].listeners, same[i].RLPRefs());
        assert jobs[i] == j;
        ghost var now, vs, ds := api.state, [], [];
        err, vs, ds := ReconcilePlugin(j);
        PluginsNext(before, jobs, i, domains, ws, now, ds, vs, api.state, err);
        ws, domains := ws + vs, domains + [ds];
        if err.Some? {
          domains := domains + AnyVisits(before, jobs[i + 1..]);
          return;
        }
      }
      assert jobs[..|same|] == jobs;
      return None, ws, domains;
    }

    method ReconcileNewPlugins(added: seq<GatewayWrapper>, ghost snaps: seq<Snapshot>, rlpKey: ObjectKey)
      returns (err: Option<Error>, ghost ws: seq<Write>, ghost domains: seq<seq<string>>)
      requires Shows(added, snaps)
      modifies api
      ensures PluginsPerformed(old(api.state), NewJobs(snaps, rlpKey), domains, ws, api.state, err)
    {
      ghost var before, jobs := api.state, NewJobs(snaps, rlpKey);
      ws, domains := [], [];
      for i := 0 to |added|
        invariant PluginsPerformed(before, jobs[..i], domains, ws, api.state, None)
      {
        var j := JoinedJob(added[i], rlpKey);
        assert jobs[i] == j;
        ghost var now, vs, ds := api.state, [], [];
        err, vs, ds := ReconcilePlugin(j);
        PluginsNext(before, jobs, i, domains, ws, now, ds, vs, api.state, err);
        ws, domains := ws + vs, domains + [ds];
        if err.Some? {
          domains := domains + AnyVisits(before, jobs[i + 1..]);
          return;
        }
      }
      assert jobs[..|added|] == jobs;
      return None, ws, domains;
    }

    /** `reconcileWASMPluginConf`. */
    method ReconcilePlugins(added: seq<GatewayWrapper>, same: seq<GatewayWrapper>, left: seq<GatewayWrapper>,
                            ghost d: Diff, rlpKey: ObjectKey)
      returns (err: Option<Error>, ghost ws: seq<Write>, ghost domains: seq<seq<string>>)
      requires Shows(added, d.added) && Shows(same, d.same) && Shows(left, d.left)
      modifies api
      ensures PluginsPerformed(old(api.state), WasmJobs(d, rlpKey), domains, ws, api.state, err)
    {
      ghost var s0 := api.state;
      ghost var leftJobs, sameJobs, newJobs := LeftJobs(d.left, rlpKey), SameJobs(d.same), NewJobs(d.added, rlpKey);
      err, ws, domains := ReconcileLeftPlugins(left, d.left, rlpKey);
      if err.Some? {
        PluginsFailed(s0, leftJobs, domains, ws, api.state, err, sameJobs + newJobs);
        assert leftJobs + (sameJobs + newJobs) == WasmJobs(d, rlpKey);
        domains := domains + AnyVisits(s0, sameJobs + newJobs);
        return;
      }
      ghost var s1, vs, ds := api.state, [], [];
      err, vs, ds := ReconcileSamePlugins(same, d.same);
      PluginsThen(s0, leftJobs, domains, ws, s1, sameJobs, ds, vs, api.state, err);
      ws, domains := ws + vs, domains + ds;
      if err.Some? {
        PluginsFailed(s0, leftJobs + sameJobs, domains, ws, api.state, err, newJobs);
        domains := domains + AnyVisits(s0, newJobs);
        return;
      }
      ghost var s2 := api.state;
      err, vs, ds := ReconcileNewPlugins(added, d.added, rlpKey);
      PluginsThen(s0, leftJobs + sameJobs, domains, ws, s2, newJobs, ds, vs, api.state, err);
      ws, domains := ws + vs, domains + ds;
    }

    // ----- gateway references -----

    method RemoveReference(gw: GatewayWrapper, rlpKey: ObjectKey) returns (err: Option<Error>, ghost ws: seq<Write>)
      modifies api, gw
      ensures gw.annotation == DeleteRef(old(gw.annotation), rlpKey)
      ensures Performed(old(api.state), RefStep(gw.key, old(gw.annotation), gw.annotation), ws, api.state, err)
    {
      var changed := gw.DeleteRLP(rlpKey);
      if changed {
        err, ws := Perform(SetRefs(gw.key, gw.annotation));
      } else {
        err, ws := None, [];
      }
    }

    /** Seen from the list the gateway stands in. */
    method RemoveReferenceAt(ghost gws: seq<GatewayWrapper>, ghost shown: seq<Snapshot>, ghost i: nat,
                             gw: GatewayWrapper, rlpKey: ObjectKey)
      returns (err: Option<Error>, ghost ws: seq<Write>)
      requires Shows(gws, shown) && NoDuplicates(gws) && i < |gws| && gws[i] == gw
      modifies api, gw
      ensures var edited := DeleteRef(shown[i].annotation, rlpKey);
        && Performed(old(api.state), RefStep(shown[i].key, shown[i].annotation, edited), ws, api.state, err)
        && Shows(gws, shown[i := shown[i].(annotation := edited)])
    {
      assert gws[i].Snap() == shown[i];
      err, ws := RemoveReference(gw, rlpKey);
    }

    method RemoveReferences(left: seq<GatewayWrapper>, ghost snaps: seq<Snapshot>, rlpKey: ObjectKey)
      returns (err: Option<Error>, ghost ws: seq<Write>)
      requires Shows(left, snaps) && NoDuplicates(left)
      modifies api, left
      ensures Performed(old(api.state), Plan(DeleteRefWrites(snaps, rlpKey), None), ws, api.state, err)
      ensures err.None? ==> Shows(left, Forget(snaps, rlpKey))
    {
      ghost var before := api.state;
      ws := [];
      assert snaps[0..] == snaps && ForgetUpTo(snaps, rlpKey, 0) == snaps;
      for i := 0 to |left|
        invariant api.state == ApplyAll(before, ws)
        invariant DeleteRefWrites(snaps, rlpKey) == ws + DeleteRefWrites(snaps[i..], rlpKey)
        invariant Shows(left, ForgetUpTo(snaps, rlpKey, i))
      {
        ForgetNext(snaps, rlpKey, i);
        EditWritesFrom(snaps, Deletion(rlpKey), i);
        ghost var now, vs := api.state, [];
        err, vs := RemoveReferenceAt(left, ForgetUpTo(snaps, rlpKey, i), i, left[i], rlpKey);
        RefWritesNext(before, RefStep(snaps[i].key, snaps[i].annotation, DeleteRef(snaps[i].annotation, rlpKey)),
                      DeleteRefWrites(snaps[i + 1..], rlpKey), ws, now, vs, api.state, err);
        ws := ws + vs;
        if err.Some? {
          return;
        }
      }
      assert snaps[|left|..] == [] && snaps[..|left|] == snaps;
      assert ForgetUpTo(snaps, rlpKey, |left|) == Forget(snaps, rlpKey);
      return None, ws;
    }

    method AddReference(gw: GatewayWrapper, rlpKey: ObjectKey) returns (err: Option<Error>, ghost ws: seq<Write>)
      modifies api, gw
      ensures gw.annotation == AddRef(old(gw.annotation), rlpKey)
      ensures Performed(old(api.state), RefStep(gw.key, old(gw.annotation), gw.annotation), ws, api.state, err)
    {
      var changed := gw.AddRLP(rlpKey);
      if changed {
        err, ws := Perform(SetRefs(gw.key, gw.annotation));
      } else {
        err, ws := None, [];
      }
    }

    method AddReferences(added: seq<GatewayWrapper>, ghost snaps: seq<Snapshot>, rlpKey: ObjectKey)
      returns (err: Option<Error>, ghost ws: seq<Write>)
      requires Shows(added, snaps) && NoDuplicates(added)
      modifies api, added
      ensures Performed(old(api.state), Plan(AddRefWrites(snaps, rlpKey), None), ws, api.state, err)
    {
      ghost var before := api.state;
      ws := [];
      assert snaps[0..] == snaps;
      for i := 0 to |added|
        invariant api.state == ApplyAll(before, ws)
        invariant AddRefWrites(snaps, rlpKey) == ws + AddRefWrites(snaps[i..], rlpKey)
        invariant forall k :: i <= k < |added| ==> added[k].Snap() == snaps[k]
      {
        assert added[i].Snap() == snaps[i];
        EditWritesFrom(snaps, Addition(rlpKey), i);
        ghost var now, vs := api.state, [];
        err, vs := AddReference(added[i], rlpKey);
        RefWritesNext(before, RefStep(snaps[i].key, snaps[i].annotation, AddRef(snaps[i].annotation, rlpKey)),
                      AddRefWrites(snaps[i + 1..], rlpKey), ws, now, vs, api.state, err);
        ws := ws + vs;
        if err.Some? {
          return;
        }
      }
      assert snaps[|added|..] == [];
      return None, ws;
    }

    /** `reconcileGatewayRLPReferences`. */
    method ReconcileReferences(added: seq<GatewayWrapper>, left: seq<GatewayWrapper>, ghost d: Diff, rlpKey: ObjectKey)
      returns (err: Option<Error>, ghost ws: seq<Write>)
      requires Shows(added, d.added) && Shows(left, d.left)
      requires NoDuplicates(added) && NoDuplicates(left) && forall g :: g in added ==> g !in left
      modifies api, left, added
      ensures Performed(old(api.state), RefsPlan(d, rlpKey), ws, api.state, err)
      ensures err.None? && added == [] ==> Shows(left, Forget(d.left, rlpKey))
    {
      ghost var s0 := api.state;
      ghost var a, b := Plan(DeleteRefWrites(d.left, rlpKey), None), Plan(AddRefWrites(d.added, rlpKey), None);
      assert Then(a, b) == RefsPlan(d, rlpKey);
      err, ws := RemoveReferences(left, d.left, rlpKey);
      if err.Some? {
        PerformedThenFailed(s0, a, b, ws, api.state, err);
        return;
      }
      forall k | 0 <= k < |added|
        ensures added[k].Snap() == d.added[k]
      {
        assert added[k] in added && added[k] !in left;
        assert old(added[k].Snap()) == d.added[k];
      }
      ghost var s1, vs := api.state, [];
      err, vs := AddReferences(added, d.added, rlpKey);
      PerformedThen(s0, a, b, ws, s1, vs, api.state, err);
      ws := ws + vs;
    }

    // ----- limits -----

    /** Replaces what the index holds for a gateway by the merge of `refs`. */
    method ReplaceGateway(limitIdx: LimitIndex, gw: GatewayWrapper, refs: seq<ObjectKey>)
      returns (err: Option<Error>)
      requires gw.key in api.state.topo.gateways && gw.listeners == api.state.topo.gateways[gw.key].listeners
      requires WellFormed(limitIdx.gatewayLimits)
      modifies limitIdx
      ensures err == MergeError(api.state.policies, api.state.topo.routes, refs)
      ensures err.None? ==> WellFormed(limitIdx.gatewayLimits)
      ensures err.None? ==> forall e: Entry ::
        Mult(limitIdx.gatewayLimits, e) ==
        (if e.gateway == gw.key then MergedAt(api.state, refs, e) else old(Mult(limitIdx.gatewayLimits, e)))
    {
      ghost var s := api.state;
      var hostnames := GatewayHostnames(gw.listeners);
      var gwLimits := GatewayLimits(api.state.policies, api.state.topo.routes, hostnames, refs);
      if gwLimits.Err? {
        return Some(gwLimits.error);
      }
      // delete first, so that limits that no longer apply are gone
      DeleteGatewayCounts(limitIdx.gatewayLimits, gw.key);
      limitIdx.DeleteGateway(gw.key);
      limitIdx.AddGatewayLimits(gw.key, gwLimits.value);
      forall e: Entry | e.gateway == gw.key
        ensures multiset(Lookup(gwLimits.value, e.domain))[e.limit] == MergedAt(s, refs, e)
      {
        MergeLaw(s.policies, s.topo.routes, hostnames, refs, e.domain, e.limit);
        assert Count(Lookup(gwLimits.value, e.domain), e.limit) == MergedAt(s, refs, e);
      }
      return None;
    }

    /** The loop over same gateways (`extra` empty) or new ones (`extra` the policy). */
    method ReplaceGateways(limitIdx: LimitIndex, gws: seq<GatewayWrapper>, ghost snaps: seq<Snapshot>,
                           extra: seq<ObjectKey>)
      returns (err: Option<Error>)
      requires Shows(gws, snaps) && ReadFrom(snaps, api.state)
      requires WellFormed(limitIdx.gatewayLimits)
      modifies limitIdx
      ensures err == MergeErrors(api.state, snaps, extra)
      ensures err.None? ==> WellFormed(limitIdx.gatewayLimits)
      ensures err.None? ==> forall e: Entry ::
        Mult(limitIdx.gatewayLimits, e) ==
        (if e.gateway in KeysOf(snaps) then MergedAt(api.state, Refs(api.state, e.gateway) + extra, e)
         else old(Mult(limitIdx.gatewayLimits, e)))
    {
      for i := 0 to |gws|
        invariant MergeErrors(api.state, snaps[..i], extra) == None
        invariant WellFormed(limitIdx.gatewayLimits)
        invariant forall e: Entry ::
          Mult(limitIdx.gatewayLimits, e) ==
          (if e.gateway in KeysOf(snaps[..i]) then MergedAt(api.state, Refs(api.state, e.gateway) + extra, e)
           else old(Mult(limitIdx.gatewayLimits, e)))
      {
        assert snaps[..i + 1][..i] == snaps[..i];
        assert gws[i].Snap() == snaps[i];
        err := ReplaceGateway(limitIdx, gws[i], gws[i].RLPRefs() + extra);
        if err.Some? {
          MergeErrorStays(api.state, snaps, extra, i + 1);
          return;
        }
        KeysOfNext(snaps, i);
      }
      assert snaps[..|gws|] == snaps;
      return None;
    }

    /** The loop over left gateways. */
    method DropGateways(limitIdx: LimitIndex, left: seq<GatewayWrapper>, ghost snaps: seq<Snapshot>)
      requires Shows(left, snaps) && WellFormed(limitIdx.gatewayLimits)
      modifies limitIdx
      ensures WellFormed(limitIdx.gatewayLimits)
      ensures forall e: Entry ::
        Mult(limitIdx.gatewayLimits, e) ==
        if e.gateway in KeysOf(snaps) then 0 else old(Mult(limitIdx.gatewayLimits, e))
    {
      for i := 0 to |left|
        invariant WellFormed(limitIdx.gatewayLimits)
        invariant forall e: Entry ::
          Mult(limitIdx.gatewayLimits, e) ==
          if e.gateway in KeysOf(snaps[..i]) then 0 else old(Mult(limitIdx.gatewayLimits, e))
      {
        assert left[i].Snap() == snaps[i];
        DeleteGatewayCounts(limitIdx.gatewayLimits, left[i].key);
        limitIdx.DeleteGateway(left[i].key);
        KeysOfNext(snaps, i);
      }
      assert snaps[..|left|] == snaps;
    }

    /** The first half of `reconcileLimits`: the stored index with left gateways
        dropped and same and new gateways merged anew. */
    method UpdatedIndex(limits: seq<RateLimit>, added: seq<GatewayWrapper>, same: seq<GatewayWrapper>,
                        left: seq<GatewayWrapper>, ghost d: Diff, rlpKey: ObjectKey)
      returns (err: Option<Error>, limitIdx: LimitIndex)
      requires Shows(added, d.added) && Shows(same, d.same) && Shows(left, d.left)
      requires ReadFrom(d.added, api.state) && ReadFrom(d.same, api.state)
      requires api.state.limitador.Some? && api.state.limitador.value.limits == limits
      ensures fresh(limitIdx)
      ensures err == LimitsError(api.state, d, rlpKey)
      ensures err.None? ==> WellFormed(limitIdx.gatewayLimits)
      ensures err.None? ==> forall e: Entry :: Mult(limitIdx.gatewayLimits, e) == UpdatedCount(api.state, d, rlpKey, e)
    {
      ghost var s := api.state;
      IndexHoldsParsed(limits);
      limitIdx := new LimitIndex(Some(limits));
      DropGateways(limitIdx, left, d.left);
      err := ReplaceGateways(limitIdx, same, d.same, []);
      if err.Some? {
        return;
      }
      err := ReplaceGateways(limitIdx, added, d.added, [rlpKey]);
      assert forall g :: Refs(s, g) + [] == Refs(s, g);
    }

    /** `reconcileLimits`: nothing is written unless every gateway merged and the
        updated index differs from the stored one. */
    method ReconcileLimits(added: seq<GatewayWrapper>, same: seq<GatewayWrapper>, left: seq<GatewayWrapper>,
                           ghost d: Diff, rlpKey: ObjectKey)
      returns (err: Option<Error>, ghost ws: seq<Write>, ghost entries: seq<Entry>)
      requires Shows(added, d.added) && Shows(same, d.same) && Shows(left, d.left)
      requires ReadFrom(d.added, api.state) && ReadFrom(d.same, api.state)
      modifies api
      ensures Performed(old(api.state), LimitsPlan(old(api.state), d, rlpKey, entries), ws, api.state, err)
      ensures ws != [] ==> EnumeratesUpdate(old(api.state), d, rlpKey, entries)
    {
      entries := [];
      if api.state.limitador.None? {
        return Some(NotFound), [], [];
      }
      var limits := api.state.limitador.value.limits;
      var limitIdx;
      err, limitIdx := UpdatedIndex(limits, added, same, left, d, rlpKey);
      if err.Some? {
        return err, [], [];
      }
      // a second index with the stored content, to compare with
      var originalIndex := new LimitIndex(Some(limits));
      IndexHoldsParsed(limits);
      SameIndexIsSameMult(originalIndex.gatewayLimits, limitIdx.gatewayLimits);
      var equal := originalIndex.Equals(limitIdx);
      if equal {
        return None, [], [];
      }
      var printed;
      printed, entries := limitIdx.ToLimits();
      err, ws := Perform(SetLimits(printed));
    }

    // ----- the stages of a reconcile -----

    method ListGateways() returns (items: seq<GatewayWrapper>, ghost listing: seq<ObjectKey>)
      ensures Lists(listing, api.state.topo)
      ensures Shows(items, SnapshotsOf(api.state, listing))
      ensures forall g :: g in items ==> fresh(g)
    {
      items, listing := [], [];
      var gateways := api.state.topo.gateways;
      var todo := gateways.Keys;
      while todo != {}
        invariant todo <= gateways.Keys
        invariant NoDuplicates(listing) && forall g :: g in listing <==> g in gateways.Keys - todo
        invariant Shows(items, SnapshotsOf(api.state, listing))
        invariant forall g :: g in items ==> fresh(g)
        decreases todo
      {
        var g :| g in todo;
        var annotation := if g in api.state.refs then api.state.refs[g] else Absent;
        var gw := new GatewayWrapper(Snapshot(g, gateways[g].listeners, annotation));
        assert g !in listing;
        items, listing := items + [gw], listing + [g];
        todo := todo - {g};
      }
    }

    /** `computeGatewayDiffs`. */
    method ComputeGatewayDiffs(rlpKey: ObjectKey, targeted: seq<ObjectKey>)
      returns (added: seq<GatewayWrapper>, same: seq<GatewayWrapper>, left: seq<GatewayWrapper>,
               ghost d: Diff, ghost listing: seq<ObjectKey>)
      ensures Lists(listing, api.state.topo) && d == DiffOf(api.state, rlpKey, targeted, listing)
      ensures Shows(added, d.added) && Shows(same, d.same) && Shows(left, d.left)
      ensures ReadFrom(d.added, api.state) && ReadFrom(d.same, api.state)
      ensures NoDuplicates(added) && NoDuplicates(left) && forall g :: g in added ==> g !in left
      ensures forall i :: 0 <= i < |added| ==> fresh(added[i])
      ensures forall i :: 0 <= i < |left| ==> fresh(left[i])
    {
      var items;
      items, listing := ListGateways();
      ghost var snaps := SnapshotsOf(api.state, listing);
      added := NewGateways(items, snaps, rlpKey, targeted);
      same := SameGateways(items, snaps, rlpKey, targeted);
      left := LeftGateways(items, snaps, rlpKey, targeted);
      d := DiffOf(api.state, rlpKey, targeted, listing);
      DiffIsReadFrom(api.state, rlpKey, targeted, listing);
      ShownDistinct(added, d.added);
      ShownDistinct(left, d.left);
      ShownApart(added, d.added, left, d.left);
      assert forall i :: 0 <= i < |added| ==> added[i] in added;
      assert forall i :: 0 <= i < |left| ==> left[i] in left;
    }

    method ReconcileArtefacts(added: seq<GatewayWrapper>, same: seq<GatewayWrapper>, left: seq<GatewayWrapper>,
                              ghost d: Diff, rlpKey: ObjectKey)
      returns (err: Option<Error>, ghost ws: seq<Write>, ghost domains: seq<seq<string>>)
      requires Shows(added, d.added) && Shows(same, d.same) && Shows(left, d.left)
      modifies api
      ensures VisitsJobs(old(api.state), WasmJobs(d, rlpKey), domains)
      ensures Performed(old(api.state), ArtefactPlan(old(api.state), d, rlpKey, domains), ws, api.state, err)
    {
      ghost var s0, jobs := api.state, WasmJobs(d, rlpKey);
      ghost var filters := FilterPlan(s0, FilterJobs(d, rlpKey));
      err, ws := ReconcileFilters(added, left, d, rlpKey);
      if err.Some? {
        domains := AnyVisits(s0, jobs);
        PerformedThenFailed(s0, filters, WasmPlan(ApplyAll(s0, filters.writes), PluginJobs(jobs, domains)),
                            ws, api.state, err);
        return;
      }
      ghost var s1, vs := api.state, [];
      FiltersKeepReading(s0, FilterJobs(d, rlpKey), ws, s1);
      err, vs, domains := ReconcilePlugins(added, same, left, d, rlpKey);
      VisitsTransfer(s0, s1, jobs, domains);
      PerformedThen(s0, filters, WasmPlan(s1, PluginJobs(jobs, domains)), ws, s1, vs, api.state, err);
      ws := ws + vs;
    }

    method ReconcileDerived(added: seq<GatewayWrapper>, same: seq<GatewayWrapper>, left: seq<GatewayWrapper>,
                            ghost d: Diff, rlpKey: ObjectKey, ghost listing: seq<ObjectKey>)
      returns (err: Option<Error>, ghost ws: seq<Write>, ghost o: Order)
      requires Shows(added, d.added) && Shows(same, d.same) && Shows(left, d.left)
      requires ReadFrom(d.added, api.state) && ReadFrom(d.same, api.state)
      modifies api
      ensures o.listing == listing && VisitsJobs(old(api.state), WasmJobs(d, rlpKey), o.domains)
      ensures Performed(old(api.state), DerivedPlan(old(api.state), d, rlpKey, o), ws, api.state, err)
      ensures WritesLimits(ws) ==> EnumeratesUpdate(old(api.state), d, rlpKey, o.entries)
    {
      ghost var s0 := api.state;
      ghost var entries;
      err, ws, entries := ReconcileLimits(added, same, left, d, rlpKey);
      ghost var s1 := api.state;
      ghost var limits := LimitsPlan(s0, d, rlpKey, entries);
      if err.Some? {
        o := Order(listing, entries, AnyVisits(s0, WasmJobs(d, rlpKey)));
        PerformedThenFailed(s0, limits, ArtefactPlan(ApplyAll(s0, limits.writes), d, rlpKey, o.domains), ws, s1, err);
        return;
      }
      LimitsKeepReading(s0, d, rlpKey, entries, ws, s1);
      ghost var vs, domains;
      err, vs, domains := ReconcileArtefacts(added, same, left, d, rlpKey);
      VisitsTransfer(s0, s1, WasmJobs(d, rlpKey), domains);
      o := Order(listing, entries, domains);
      PerformedThen(s0, limits, ArtefactPlan(s1, d, rlpKey, domains), ws, s1, vs, api.state, err);
      ArtefactsWriteNoLimits(s1, d, rlpKey, domains, ws, vs, api.state, err);
      ws := ws + vs;
    }

    /** The stages of `reconcileGatewayDiffs`; references only when everything
        derived is in place. */
    method ReconcileStages(added: seq<GatewayWrapper>, same: seq<GatewayWrapper>, left: seq<GatewayWrapper>,
                           ghost d: Diff, rlpKey: ObjectKey, ghost listing: seq<ObjectKey>)
      returns (err: Option<Error>, ghost ws: seq<Write>, ghost o: Order)
      requires Shows(added, d.added) && Shows(same, d.same) && Shows(left, d.left)
      requires ReadFrom(d.added, api.state) && ReadFrom(d.same, api.state)
      requires NoDuplicates(added) && NoDuplicates(left) && forall g :: g in added ==> g !in left
      modifies api, left, added
      ensures o.listing == listing && VisitsJobs(old(api.state), WasmJobs(d, rlpKey), o.domains)
      ensures Performed(old(api.state), StagesPlan(old(api.state), d, rlpKey, o), ws, api.state, err)
      ensures WritesLimits(ws) ==> EnumeratesUpdate(old(api.state), d, rlpKey, o.entries)
    {
      ghost var s0 := api.state;
      err, ws, o := ReconcileDerived(added, same, left, d, rlpKey, listing);
      ghost var s1 := api.state;
      if err.Some? {
        PerformedThenFailed(s0, DerivedPlan(s0, d, rlpKey, o), RefsPlan(d, rlpKey), ws, s1, err);
        return;
      }
      ghost var vs;
      err, vs := ReconcileReferences(added, left, d, rlpKey);
      StagesPerformed(s0, d, rlpKey, o, ws, s1, vs, api.state, err);
      ws := ws + vs;
    }

    /** `reconcileGatewayDiffs`. */
    method ReconcileGatewayDiffs(rlpKey: ObjectKey)
      returns (err: Option<Error>, ghost ws: seq<Write>, ghost o: Order)
      requires rlpKey in api.state.policies && rlpKey !in api.state.deleting
      modifies api
      ensures FaithfulOrder(old(api.state), rlpKey, o, ws)
      ensures Performed(old(api.state), DiffPlan(old(api.state), rlpKey, o), ws, api.state, err)
    {
      ghost var s0 := api.state;
      var targeted := TargetedGatewayKeys(api.state.topo, api.state.policies[rlpKey].targetRef, rlpKey.namespace);
      if targeted.Err? {
        o := AnyOrder(s0, rlpKey);
        return Some(targeted.error), [], o;
      }
      var added, same, left;
      ghost var d, listing;
      added, same, left, d, listing := ComputeGatewayDiffs(rlpKey, targeted.value);
      err, ws, o := ReconcileStages(added, same, left, d, rlpKey, listing);
    }

    // ----- back references -----

    /** `ReconcileTargetBackReference`. */
    method AcquireBackReference(rlpKey: ObjectKey) returns (err: Option<Error>, ghost ws: seq<Write>)
      requires rlpKey in api.state.policies
      modifies api
      ensures Performed(old(api.state), AcquirePlan(old(api.state), rlpKey), ws, api.state, err)
    {
      var target := FetchValidTargetRef(api.state.topo, api.state.policies[rlpKey].targetRef, rlpKey.namespace);
      if target.Err? {
        return Some(target.error), [];
      }
      if target.value in api.state.backRefs {
        if api.state.backRefs[target.value] != rlpKey {
          return Some(AlreadyReferenced), [];
        }
        return None, [];
      }
      err, ws := Perform(SetBackRef(target.value, rlpKey));
    }

    /** `DeleteTargetBackReference`. */
    method ReleaseBackReference(rlpKey: ObjectKey) returns (err: Option<Error>, ghost ws: seq<Write>)
      requires rlpKey in api.state.policies
      modifies api
      ensures Performed(old(api.state), ReleasePlan(old(api.state), rlpKey), ws, api.state, err)
      ensures forall w :: w in ws ==> w.ClearBackRef?
    {
      var target := FetchValidTargetRef(api.state.topo, api.state.policies[rlpKey].targetRef, rlpKey.namespace);
      if target.Err? {
        if target.error == NotFound {
          return None, [];
        }
        return Some(target.error), [];
      }
      if target.value in api.state.backRefs {
        err, ws := Perform(ClearBackRef(target.value));
        return;
      }
      return None, [];
    }

    // ----- reconciling a live policy -----

    /** `validateRuleHosts`. */
    method ValidateRuleHosts(rlpKey: ObjectKey) returns (err: Option<Error>)
      requires rlpKey in api.state.policies
      ensures err == HostsError(api.state, rlpKey)
    {
      var policy := api.state.policies[rlpKey];
      var hostnames := TargetHostnames(api.state.topo, policy.targetRef, rlpKey.namespace);
      if hostnames.Err? {
        return Some(hostnames.error);
      }
      var ruleHosts := CollectRuleHosts(policy.rateLimits);
      var valid, invalid := ValidSubdomains(hostnames.value, ruleHosts);
      if !valid {
        return Some(InvalidRuleHost(invalid));
      }
      return None;
    }

    /** `reconcileSpec`. */
    method ReconcileSpec(rlpKey: ObjectKey)
      returns (err: Option<Error>, ghost ws: seq<Write>, ghost o: Order)
      requires rlpKey in api.state.policies && rlpKey !in api.state.deleting
      modifies api
      ensures FaithfulOrder(old(api.state), rlpKey, o, ws)
      ensures Performed(old(api.state), SpecPlan(old(api.state), rlpKey, o), ws, api.state, err)
    {
      ghost var s0 := api.state;
      o := AnyOrder(s0, rlpKey);
      if !Validate(api.state.policies[rlpKey], rlpKey.namespace) {
        return Some(InvalidPolicy), [], o;
      }
      err := ValidateRuleHosts(rlpKey);
      if err.Some? {
        return err, [], o;
      }
      // only one policy may target a route or gateway
      err, ws := AcquireBackReference(rlpKey);
      ghost var acquire := AcquirePlan(s0, rlpKey);
      if err.Some? {
        SpecStopsEarly(s0, rlpKey, o, ws, api.state, err);
        return;
      }
      ghost var s1, vs := api.state, [];
      AcquireKeeps(s0, rlpKey);
      err, vs, o := ReconcileGatewayDiffs(rlpKey);
      PerformedThen(s0, acquire, DiffPlan(s1, rlpKey, o), ws, s1, vs, api.state, err);
      SameReading(s0, s1, rlpKey, o);
      WritesLimitsLater(ws, vs);
      ws := ws + vs;
    }

    // ----- finalizing a deleted policy -----

    /** `computeFinalizeGatewayDiff`: each targeted gateway fetched on its own, the
        missing ones skipped. */
    method FetchTargets(targeted: seq<ObjectKey>) returns (left: seq<GatewayWrapper>)
      ensures Shows(left, FinalizeTargets(api.state, targeted))
      ensures NoDuplicates(left)
      ensures forall i :: 0 <= i < |left| ==> fresh(left[i])
    {
      left := [];
      for i := 0 to |targeted|
        invariant Shows(left, FinalizeTargets(api.state, targeted[..i]))
        invariant NoDuplicates(left)
        invariant forall i :: 0 <= i < |left| ==> fresh(left[i])
      {
        assert targeted[..i + 1][..i] == targeted[..i];
        var g := targeted[i];
        if g in api.state.topo.gateways {
          var annotation := if g in api.state.refs then api.state.refs[g] else Absent;
          var gw := new GatewayWrapper(Snapshot(g, api.state.topo.gateways[g].listeners, annotation));
          left := left + [gw];
        }
      }
      assert targeted[..|targeted|] == targeted;
    }

    method WithdrawArtefacts(left: seq<GatewayWrapper>, ghost snaps: seq<Snapshot>, rlpKey: ObjectKey)
      returns (err: Option<Error>, ghost ws: seq<Write>, ghost domains: seq<seq<string>>)
      requires Shows(left, snaps)
      modifies api
      ensures VisitsJobs(old(api.state), LeftJobs(snaps, rlpKey), domains)
      ensures Performed(old(api.state), WithdrawArtefactsPlan(old(api.state), snaps, rlpKey, domains),
                        ws, api.state, err)
    {
      ghost var s0 := api.state;
      ghost var d, jobs := Diff([], [], snaps), LeftJobs(snaps, rlpKey);
      assert WasmJobs(d, rlpKey) == jobs && FilterJobs(d, rlpKey) == jobs;
      err, ws, domains := ReconcilePlugins([], [], left, d, rlpKey);
      ghost var w := WasmPlan(s0, PluginJobs(jobs, domains));
      if err.Some? {
        PerformedThenFailed(s0, w, FilterPlan(ApplyAll(s0, w.writes), jobs), ws, api.state, err);
        return;
      }
      ghost var s1, vs := api.state, [];
      err, vs := ReconcileFilters([], left, d, rlpKey);
      PerformedThen(s0, w, FilterPlan(s1, jobs), ws, s1, vs, api.state, err);
      ws := ws + vs;
    }

    /** Plugin, filter and limits of the gateways the policy was removed from. */
    method Withdraw(left: seq<GatewayWrapper>, ghost snaps: seq<Snapshot>, rlpKey: ObjectKey,
                    ghost listing: seq<ObjectKey>)
      returns (err: Option<Error>, ghost ws: seq<Write>, ghost o: Order)
      requires Shows(left, snaps)
      modifies api
      ensures o.listing == listing && VisitsJobs(old(api.state), LeftJobs(snaps, rlpKey), o.domains)
      ensures Performed(old(api.state), WithdrawPlan(old(api.state), snaps, rlpKey, o), ws, api.state, err)
      ensures WritesLimits(ws) ==> EnumeratesUpdate(old(api.state), Diff([], [], snaps), rlpKey, o.entries)
    {
      ghost var s0, domains := api.state, [];
      err, ws, domains := WithdrawArtefacts(left, snaps, rlpKey);
      ghost var s1 := api.state;
      ghost var a := WithdrawArtefactsPlan(s0, snaps, rlpKey, domains);
      WithdrawArtefactsKeep(s0, snaps, rlpKey, domains, ws);
      if err.Some? {
        o := Order(listing, [], domains);
        PerformedThenFailed(s0, a, TolerantLimitsPlan(ApplyAll(s0, a.writes), snaps, rlpKey, []), ws, s1, err);
        return;
      }
      ghost var vs, entries;
      err, vs, entries := ReconcileLimits([], [], left, Diff([], [], snaps), rlpKey);
      if err == Some(NotFound) {
        err := None;
      }
      o := Order(listing, entries, domains);
      PerformedThen(s0, a, TolerantLimitsPlan(s1, snaps, rlpKey, entries), ws, s1, vs, api.state, err);
      WritesLimitsLater(ws, vs);
      ws := ws + vs;
    }

    /** `finalizeRLP`. */
    method Finalize(rlpKey: ObjectKey)
      returns (err: Option<Error>, ghost ws: seq<Write>, ghost o: Order)
      requires rlpKey in api.state.policies && rlpKey in api.state.deleting
      modifies api
      ensures Performed(old(api.state), FinalizePlan(old(api.state), rlpKey, o), ws, api.state, err)
      ensures FaithfulOrder(old(api.state), rlpKey, o, ws)
    {
      ghost var s0 := api.state;
      o := AnyOrder(s0, rlpKey);
      var targeted := TargetedGatewayKeys(api.state.topo, api.state.policies[rlpKey].targetRef, rlpKey.namespace);
      if targeted.Err? && targeted.error != NotFound {
        return Some(targeted.error), [], o;
      }
      var left := FetchTargets(if targeted.Ok? then targeted.value else []);
      ghost var d := FinalizeDiff(s0, rlpKey);
      err, ws, o := RemoveAndWithdraw(left, d, rlpKey, o.listing);
      FinalOrder(s0, rlpKey, o, ws);
      ghost var s1, vs := api.state, [];
      if err.Some? {
        FinalizeFailed(s0, rlpKey, o, ws, s1, err);
        return;
      }
      RemovalKeepsOwnership(s0, d.left, rlpKey, o, ws, s1);
      err, vs := ReleaseBackReference(rlpKey);
      FinalizePerformed(s0, rlpKey, o, ws, s1, vs, api.state, err);
      WritesLimitsFirst(ws, vs);
      ws := ws + vs;
    }

    method RemoveAndWithdraw(left: seq<GatewayWrapper>, ghost d: Diff, rlpKey: ObjectKey, ghost listing: seq<ObjectKey>)
      returns (err: Option<Error>, ghost ws: seq<Write>, ghost o: Order)
      requires d.added == d.same == [] && Shows(left, d.left) && NoDuplicates(left)
      modifies api, left
      ensures o.listing == listing && VisitsJobs(old(api.state), LeftJobs(Forget(d.left, rlpKey), rlpKey), o.domains)
      ensures Performed(old(api.state), RemovePlan(old(api.state), d.left, rlpKey, o), ws, api.state, err)
      ensures WritesLimits(ws) ==> EnumeratesUpdate(old(api.state), d, rlpKey, o.entries)
    {
      ghost var s0 := api.state;
      ghost var r := RefsPlan(d, rlpKey);
      ghost var forgotten := Forget(d.left, rlpKey);
      ghost var jobs := LeftJobs(forgotten, rlpKey);
      err, ws := ReconcileReferences([], left, d, rlpKey);
      ghost var s1 := api.state;
      RefsWriteOnlyRefs(d, rlpKey, ws);
      if err.Some? {
        o := Order(listing, [], AnyVisits(s0, jobs));
        PerformedThenFailed(s0, r, WithdrawPlan(ApplyAll(s0, r.writes), forgotten, rlpKey, o), ws, s1, err);
        return;
      }
      ghost var vs;
      err, vs, o := Withdraw(left, forgotten, rlpKey, listing);
      RefsKeepReading(s0, ws, s1);
      VisitsTransfer(s0, s1, jobs, o.domains);
      PerformedThen(s0, r, WithdrawPlan(s1, forgotten, rlpKey, o), ws, s1, vs, api.state, err);
      ForgottenEnumerates(s0, d, rlpKey, o.entries);
      WritesLimitsLater(ws, vs);
      ws := ws + vs;
    }

    // ----- the entry point -----

    /** `Reconcile`, for the policy named in the request. */
    method Reconcile(rlpKey: ObjectKey)
      returns (err: Option<Error>, ghost ws: seq<Write>, ghost o: Order)
      modifies api
      ensures FaithfulOrder(old(api.state), rlpKey, o, ws)
      ensures Performed(old(api.state), ReconcilePlan(old(api.state), rlpKey, o), ws, api.state, err)
    {
      ghost var s0 := api.state;
      o := AnyOrder(s0, rlpKey);
      if rlpKey !in api.state.policies {
        return None, [], o;
      }
      if rlpKey in api.state.deleting && rlpKey in api.state.finalizers {
        err, ws, o := Finalize(rlpKey);
        ghost var finalize, last := FinalizePlan(s0, rlpKey, o), Plan([RemoveFinalizer(rlpKey)], None);
        if err.Some? {
          PerformedThenFailed(s0, finalize, last, ws, api.state, err);
          return;
        }
        ghost var s1, vs := api.state, [];
        err, vs := Perform(RemoveFinalizer(rlpKey));
        PerformedThen(s0, finalize, last, ws, s1, vs, api.state, err);
        WritesLimitsFirst(ws, vs);
        ws := ws + vs;
        return;
      }
      if rlpKey in api.state.deleting {
        return None, [], o;
      }
      ws := [];
      if rlpKey !in api.state.finalizers {
        ghost var add := Plan([AddFinalizer(rlpKey)], None);
        err, ws := Perform(AddFinalizer(rlpKey));
        if err.Some? {
          PerformedThenFailed(s0, add, SpecPlan(Apply(s0, AddFinalizer(rlpKey)), rlpKey, o), ws, api.state, err);
          assert ws == [];
          return;
        }
        assert ApplyAll(s0, ws) == Apply(s0, AddFinalizer(rlpKey));
      }
      ghost var s1, vs := api.state, [];
      err, vs, o := ReconcileSpec(rlpKey);
      PerformedThen(s0, Plan(ws, None), SpecPlan(s1, rlpKey, o), ws, s1, vs, api.state, err);
      SameReading(s0, s1, rlpKey, o);
      WritesLimitsLater(ws, vs);
      ws := ws + vs;
    }
  }

  // ----- loop bookkeeping -----

  /** The first `i` jobs are done with the writes `ws`; the rest is planned from `now`. */
  ghost predicate FilterProgress(before: ClusterState, jobs: seq<Job>, i: nat, ws: seq<Write>, now: ClusterState) {
    && i <= |jobs|
    && now == ApplyAll(before, ws)
    && FilterPlan(before, jobs) == Then(Plan(ws, None), FilterPlan(now, jobs[i..]))
  }

  /** The limits of a withdrawal do not depend on the references removed before. */
  lemma ForgottenEnumerates(s: ClusterState, d: Diff, p: ObjectKey, entries: seq<Entry>)
    requires d.added == d.same == [] && forall w :: w in RefsPlan(d, p).writes ==> w.SetRefs?
    ensures EnumeratesUpdate(ApplyAll(s, RefsPlan(d, p).writes), Diff([], [], Forget(d.left, p)), p, entries) <==>
            EnumeratesUpdate(s, d, p, entries)
  {
    RefWritesKeepHeld(s, RefsPlan(d, p).writes);
    assert KeysOf(Forget(d.left, p)) == KeysOf(d.left);
    forall e: Entry
      ensures UpdatedCount(ApplyAll(s, RefsPlan(d, p).writes), Diff([], [], Forget(d.left, p)), p, e) ==
          UpdatedCount(s, d, p, e)
    {
    }
  }

  lemma RemovalKeepsOwnership(s: ClusterState, left: seq<Snapshot>, p: ObjectKey, o: Order, ws: seq<Write>,
                              t: ClusterState)
    requires Performed(s, RemovePlan(s, left, p, o), ws, t, None) && p in s.policies
    ensures SameOwnership(s, t) && ReleasePlan(t, p) == ReleasePlan(s, p)
  {
    RemovePlanWrites(s, left, p, o);
    DerivedKeepsOwnership(s, ws);
  }

  lemma FinalizeFailed(s: ClusterState, p: ObjectKey, o: Order, ws: seq<Write>, t: ClusterState, err: Option<Error>)
    requires p in s.policies && (TargetedBy(s, p).Err? ==> TargetedBy(s, p).error == NotFound) && err.Some?
    requires Performed(s, RemovePlan(s, FinalizeDiff(s, p).left, p, o), ws, t, err)
    ensures Performed(s, FinalizePlan(s, p, o), ws, t, err)
  {
    PerformedThenFailed(s, RemovePlan(s, FinalizeDiff(s, p).left, p, o), ReleasePlan(s, p), ws, t, err);
  }

  lemma FinalizePerformed(s: ClusterState, p: ObjectKey, o: Order, ws: seq<Write>, s1: ClusterState, vs: seq<Write>,
                          t: ClusterState, err: Option<Error>)
    requires p in s.policies && (TargetedBy(s, p).Err? ==> TargetedBy(s, p).error == NotFound)
    requires Performed(s, RemovePlan(s, FinalizeDiff(s, p).left, p, o), ws, s1, None)
    requires p in s1.policies && Performed(s1, ReleasePlan(s1, p), vs, t, err)
    ensures Performed(s, FinalizePlan(s, p, o), ws + vs, t, err)
  {
    RemovalKeepsOwnership(s, FinalizeDiff(s, p).left, p, o, ws, s1);
    PerformedThen(s, RemovePlan(s, FinalizeDiff(s, p).left, p, o), ReleasePlan(s, p), ws, s1, vs, t, err);
  }

  /** One more step of a plan of which `ws` is done. */
  lemma StepPerformed(before: ClusterState, ws: seq<Write>, now: ClusterState, step: Plan, rest: Plan,
                      vs: seq<Write>, after: ClusterState, err: Option<Error>)
    requires now == ApplyAll(before, ws) && Performed(now, step, vs, after, err)
    ensures after == ApplyAll(before, ws + vs)
    ensures err.Some? ==> Performed(before, Then(Plan(ws, None), Then(step, rest)), ws + vs, after, err)
    ensures err.None? ==> Then(Plan(ws, None), Then(step, rest)) == Then(Plan(ws + vs, None), rest)
  {
    ApplyConcat(before, ws, vs);
    ThenAssociates(Plan(ws, None), step, rest);
  }

  lemma FilterNext(before: ClusterState, jobs: seq<Job>, i: nat, ws: seq<Write>, now: ClusterState,
                   vs: seq<Write>, after: ClusterState, err: Option<Error>)
    requires i < |jobs| && FilterProgress(before, jobs, i, ws, now)
    requires Performed(now, FilterStep(now, jobs[i]), vs, after, err)
    ensures err.Some? ==> Performed(before, FilterPlan(before, jobs), ws + vs, after, err)
    ensures err.None? ==> FilterProgress(before, jobs, i + 1, ws + vs, after)
  {
    assert jobs[i..][1..] == jobs[i + 1..];
    var step := FilterStep(now, jobs[i]);
    StepPerformed(before, ws, now, step, FilterPlan(ApplyAll(now, step.writes), jobs[i + 1..]), vs, after, err);
  }

  lemma FilterStart(before: ClusterState, jobs: seq<Job>)
    ensures FilterProgress(before, jobs, 0, [], before)
  {
    assert jobs[0..] == jobs;
  }

  lemma FilterEnd(before: ClusterState, jobs: seq<Job>, ws: seq<Write>, now: ClusterState)
    requires FilterProgress(before, jobs, |jobs|, ws, now)
    ensures Performed(before, FilterPlan(before, jobs), ws, now, None)
  {
    assert jobs[|jobs|..] == [];
  }

  // ----- plugins, whose domains are visited in some order -----

  lemma FinalOrder(s: ClusterState, p: ObjectKey, o: Order, ws: seq<Write>)
    requires p in s.policies && p in s.deleting && Lists(o.listing, s.topo)
    requires VisitsJobs(s, LeftJobs(Forget(FinalizeDiff(s, p).left, p), p), o.domains)
    requires WritesLimits(ws) ==> EnumeratesUpdate(s, FinalizeDiff(s, p), p, o.entries)
    ensures FaithfulOrder(s, p, o, ws)
  {
  }

  /** The plugin plan of these jobs was attempted, with possible visiting orders. */
  ghost predicate PluginsPerformed(before: ClusterState, jobs: seq<Job>, domains: seq<seq<string>>, ws: seq<Write>,
                                   after: ClusterState, err: Option<Error>) {
    && VisitsJobs(before, jobs, domains)
    && Performed(before, WasmPlan(before, PluginJobs(jobs, domains)), ws, after, err)
  }

  lemma PluginStepPerformed(s: ClusterState, j: Job, domains: seq<string>, ws: seq<Write>, after: ClusterState,
                            err: Option<Error>)
    requires VisitsJob(s, j, domains) && Performed(s, WasmStep(s, PluginJob(j, domains)), ws, after, err)
    ensures PluginsPerformed(s, [j], [domains], ws, after, err)
  {
    var pj := PluginJob(j, domains);
    var step := WasmStep(s, pj);
    assert PluginJobs([j], [domains]) == [pj];
    assert WasmPlan(s, [pj]) == Then(step, DONE);
    assert step.err.None? ==> step.writes + [] == step.writes;
  }

  lemma PluginJobsConcat(a: seq<Job>, x: seq<seq<string>>, b: seq<Job>, y: seq<seq<string>>)
    requires |x| == |a|
    ensures PluginJobs(a + b, x + y) == PluginJobs(a, x) + PluginJobs(b, y)
  {
  }

  lemma PluginsKeepReading(s: ClusterState, jobs: seq<PluginJob>, ws: seq<Write>, t: ClusterState)
    requires Performed(s, WasmPlan(s, jobs), ws, t, None)
    ensures t.topo == s.topo && t.policies == s.policies
  {
    WasmPlanWrites(s, jobs);
    PluginWritesKeepPolicies(s, ws);
  }

  lemma {:induction false} PluginWritesKeepPolicies(s: ClusterState, ws: seq<Write>)
    requires forall w :: w in ws ==> Derived(w)
    ensures var t := ApplyAll(s, ws); t.topo == s.topo && t.policies == s.policies
  {
    DerivedKeepsOwnership(s, ws);
  }

  lemma VisitsConcat(s: ClusterState, a: seq<Job>, x: seq<seq<string>>, b: seq<Job>, y: seq<seq<string>>)
    requires VisitsJobs(s, a, x) && VisitsJobs(s, b, y)
    ensures VisitsJobs(s, a + b, x + y)
  {
    forall i | 0 <= i < |a + b|
      ensures VisitsJob(s, (a + b)[i], (x + y)[i])
    {
      assert i < |a| ==> VisitsJob(s, a[i], x[i]);
      assert i >= |a| ==> VisitsJob(s, b[i - |a|], y[i - |a|]);
    }
  }

  lemma PluginPlansThen(s0: ClusterState, a: seq<PluginJob>, ws: seq<Write>, s1: ClusterState, b: seq<PluginJob>,
                        vs: seq<Write>, s2: ClusterState, err: Option<Error>)
    requires Performed(s0, WasmPlan(s0, a), ws, s1, None) && Performed(s1, WasmPlan(s1, b), vs, s2, err)
    ensures Performed(s0, WasmPlan(s0, a + b), ws + vs, s2, err)
  {
    WasmPlanConcat(s0, a, b);
    PerformedThen(s0, WasmPlan(s0, a), WasmPlan(s1, b), ws, s1, vs, s2, err);
  }

  lemma PluginPlansFailed(s0: ClusterState, a: seq<PluginJob>, ws: seq<Write>, s1: ClusterState, err: Option<Error>,
                          b: seq<PluginJob>)
    requires Performed(s0, WasmPlan(s0, a), ws, s1, err) && err.Some?
    ensures Performed(s0, WasmPlan(s0, a + b), ws, s1, err)
  {
    var first := WasmPlan(s0, a);
    WasmPlanConcat(s0, a, b);
    PerformedThenFailed(s0, first, WasmPlan(ApplyAll(s0, first.writes), b), ws, s1, err);
  }

  lemma PluginsThen(s0: ClusterState, a: seq<Job>, x: seq<seq<string>>, ws: seq<Write>, s1: ClusterState,
                    b: seq<Job>, y: seq<seq<string>>, vs: seq<Write>, s2: ClusterState, err: Option<Error>)
    requires PluginsPerformed(s0, a, x, ws, s1, None) && PluginsPerformed(s1, b, y, vs, s2, err)
    ensures PluginsPerformed(s0, a + b, x + y, ws + vs, s2, err)
  {
    PluginPlansThen(s0, PluginJobs(a, x), ws, s1, PluginJobs(b, y), vs, s2, err);
    PluginsKeepReading(s0, PluginJobs(a, x), ws, s1);
    VisitsTransfer(s0, s1, b, y);
    VisitsConcat(s0, a, x, b, y);
    PluginJobsConcat(a, x, b, y);
  }

  lemma PluginsFailed(s0: ClusterState, a: seq<Job>, x: seq<seq<string>>, ws: seq<Write>, s1: ClusterState,
                      err: Option<Error>, b: seq<Job>)
    requires PluginsPerformed(s0, a, x, ws, s1, err) && err.Some?
    ensures PluginsPerformed(s0, a + b, x + AnyVisits(s0, b), ws, s1, err)
  {
    var y := AnyVisits(s0, b);
    PluginPlansFailed(s0, PluginJobs(a, x), ws, s1, err, PluginJobs(b, y));
    VisitsConcat(s0, a, x, b, y);
    PluginJobsConcat(a, x, b, y);
  }

  lemma PluginsNext(before: ClusterState, jobs: seq<Job>, i: nat, domains: seq<seq<string>>, ws: seq<Write>,
                    now: ClusterState, ds: seq<string>, vs: seq<Write>, after: ClusterState, err: Option<Error>)
    requires i < |jobs| && PluginsPerformed(before, jobs[..i], domains, ws, now, None)
    requires VisitsJob(now, jobs[i], ds) && Performed(now, WasmStep(now, PluginJob(jobs[i], ds)), vs, after, err)
    ensures err.None? ==> PluginsPerformed(before, jobs[..i + 1], domains + [ds], ws + vs, after, None)
    ensures err.Some? ==>
      PluginsPerformed(before, jobs, domains + [ds] + AnyVisits(before, jobs[i + 1..]), ws + vs, after, err)
  {
    PluginStepPerformed(now, jobs[i], ds, vs, after, err);
    PluginsThen(before, jobs[..i], domains, ws, now, [jobs[i]], [ds], vs, after, err);
    SplitAt(jobs, i);
    if err.Some? {
      PluginsFailed(before, jobs[..i + 1], domains + [ds], ws + vs, after, err, jobs[i + 1..]);
    }
  }

  lemma SplitAt<T>(xs: seq<T>, i: nat)
    requires i < |xs|
    ensures xs[..i + 1] == xs[..i] + [xs[i]] && xs == xs[..i + 1] + xs[i + 1..]
  {
  }

  // ----- the stages before leave what the plugins read alone -----

  lemma FiltersKeepReading(s: ClusterState, jobs: seq<Job>, ws: seq<Write>, t: ClusterState)
    requires Performed(s, FilterPlan(s, jobs), ws, t, None)
    ensures t.topo == s.topo && t.policies == s.policies
  {
    FilterPlanWrites(s, jobs);
    PluginWritesKeepPolicies(s, ws);
  }

  lemma LimitsKeepReading(s: ClusterState, d: Diff, p: ObjectKey, entries: seq<Entry>, ws: seq<Write>, t: ClusterState)
    requires Performed(s, LimitsPlan(s, d, p, entries), ws, t, None)
    ensures t.topo == s.topo && t.policies == s.policies
  {
    LimitsPlanWrites(s, d, p, entries);
    PluginWritesKeepPolicies(s, ws);
  }

  lemma RefsKeepReading(s: ClusterState, ws: seq<Write>, t: ClusterState)
    requires (forall w :: w in ws ==> w.SetRefs?) && t == ApplyAll(s, ws)
    ensures t.topo == s.topo && t.policies == s.policies
  {
    PluginWritesKeepPolicies(s, ws);
  }

  // ----- lemmas for the reference stage -----

  function RefStep(g: ObjectKey, before: RefAnnotation, after: RefAnnotation): Plan {
    Plan(if after != before then [SetRefs(g, after)] else [], None)
  }

  /** The snapshots, the first `i` of them without the policy. */
  function ForgetUpTo(snaps: seq<Snapshot>, p: ObjectKey, i: nat): seq<Snapshot>
    requires i <= |snaps|
  {
    Forget(snaps[..i], p) + snaps[i..]
  }

  lemma ForgetNext(snaps: seq<Snapshot>, p: ObjectKey, i: nat)
    requires i < |snaps|
    ensures ForgetUpTo(snaps, p, i)[i] == snaps[i]
    ensures ForgetUpTo(snaps, p, i + 1) ==
            ForgetUpTo(snaps, p, i)[i := snaps[i].(annotation := DeleteRef(snaps[i].annotation, p))]
  {
  }

  lemma EditWritesFrom(snaps: seq<Snapshot>, edit: RefAnnotation -> RefAnnotation, i: nat)
    requires i < |snaps|
    ensures var g := snaps[i];
      EditWrites(snaps[i..], edit) ==
      RefStep(g.key, g.annotation, edit(g.annotation)).writes + EditWrites(snaps[i + 1..], edit)
  {
    assert snaps[i..][0] == snaps[i] && snaps[i..][1..] == snaps[i + 1..];
  }

  lemma RefWritesNext(before: ClusterState, step: Plan, rest: seq<Write>, ws: seq<Write>, now: ClusterState,
                      vs: seq<Write>, after: ClusterState, err: Option<Error>)
    requires now == ApplyAll(before, ws) && step.err.None?
    requires Performed(now, step, vs, after, err)
    ensures after == ApplyAll(before, ws + vs)
    ensures err.Some? ==> Performed(before, Plan(ws + (step.writes + rest), None), ws + vs, after, err)
    ensures err.None? ==> ws + (step.writes + rest) == (ws + vs) + rest
  {
    ApplyConcat(before, ws, vs);
  }

  // ----- lemmas for the limits stage -----

  /** The snapshots agree with the cluster they were read from. */
  ghost predicate ReadFrom(snaps: seq<Snapshot>, s: ClusterState) {
    forall g :: g in snaps ==> g.key in s.topo.gateways && g == SnapshotOf(s, g.key)
  }

  lemma KeysOfNext(snaps: seq<Snapshot>, i: nat)
    requires i < |snaps|
    ensures forall k :: k in KeysOf(snaps[..i + 1]) <==> k in KeysOf(snaps[..i]) || k == snaps[i].key
  {
    assert KeysOf(snaps[..i + 1]) == KeysOf(snaps[..i]) + [snaps[i].key];
  }

  lemma {:induction false} MergeErrorStays(s: ClusterState, snaps: seq<Snapshot>, extra: seq<ObjectKey>, i: nat)
    requires i <= |snaps| && MergeErrors(s, snaps[..i], extra).Some?
    ensures MergeErrors(s, snaps, extra) == MergeErrors(s, snaps[..i], extra)
  {
    if i == |snaps| {
      assert snaps[..i] == snaps;
    } else {
      assert snaps[..|snaps| - 1][..i] == snaps[..i];
      MergeErrorStays(s, snaps[..|snaps| - 1], extra, i);
    }
  }

  // ----- lemmas for whole runs -----

  lemma AcquireKeeps(s: ClusterState, p: ObjectKey)
    requires p in s.policies
    ensures var ws := AcquirePlan(s, p).writes;
      && ApplyAll(s, ws) == s.(backRefs := ApplyAll(s, ws).backRefs)
      && forall w :: w in ws ==> w.SetBackRef?
  {
    var ws := AcquirePlan(s, p).writes;
    if ws != [] {
      assert ApplyAll(s, ws) == Apply(s, ws[0]);
    }
  }

  lemma RefsWriteOnlyRefs(d: Diff, p: ObjectKey, ws: seq<Write>)
    requires ws <= RefsPlan(d, p).writes
    ensures forall w :: w in RefsPlan(d, p).writes ==> w.SetRefs?
    ensures forall w :: w in ws ==> w.SetRefs?
  {
    RefWritesOnly(d.left, p);
    RefWritesOnly(d.added, p);
    assert forall w :: w in ws ==> w in RefsPlan(d, p).writes;
  }

  lemma {:induction false} RefWritesKeepHeld(s: ClusterState, ws: seq<Write>)
    requires forall w :: w in ws ==> w.SetRefs?
    ensures Held(ApplyAll(s, ws)) == Held(s)
    decreases |ws|
  {
    if ws != [] {
      assert ws[0].SetRefs?;
      RefWritesKeepHeld(Apply(s, ws[0]), ws[1..]);
    }
  }

  lemma ArtefactsKeepReading(s: ClusterState, ws: seq<Write>, planned: seq<Write>)
    requires forall w :: w in planned ==> Artefact(w)
    requires ws <= planned
    ensures forall w :: w in ws ==> !w.SetLimits?
    ensures Held(ApplyAll(s, ws)) == Held(s)
  {
    assert forall w :: w in ws ==> w in planned;
    ArtefactWritesKeepHeld(s, ws);
  }

  lemma WithdrawArtefactsKeep(s: ClusterState, snaps: seq<Snapshot>, p: ObjectKey, domains: seq<seq<string>>,
                              ws: seq<Write>)
    requires ws <= WithdrawArtefactsPlan(s, snaps, p, domains).writes
    ensures forall w :: w in ws ==> !w.SetLimits?
    ensures forall entries :: EnumeratesUpdate(ApplyAll(s, ws), Diff([], [], snaps), p, entries) <==>
                              EnumeratesUpdate(s, Diff([], [], snaps), p, entries)
  {
    WithdrawArtefactsWrites(s, snaps, p, domains);
    ArtefactsKeepReading(s, ws, WithdrawArtefactsPlan(s, snaps, p, domains).writes);
    SameWithdrawal(s, ApplyAll(s, ws), snaps, p);
  }

  lemma SameWithdrawal(s: ClusterState, t: ClusterState, snaps: seq<Snapshot>, p: ObjectKey)
    requires Held(t) == Held(s)
    ensures forall entries :: EnumeratesUpdate(t, Diff([], [], snaps), p, entries) <==>
                              EnumeratesUpdate(s, Diff([], [], snaps), p, entries)
  {
    forall e: Entry
      ensures UpdatedCount(t, Diff([], [], snaps), p, e) == UpdatedCount(s, Diff([], [], snaps), p, e)
    {
    }
  }

  lemma {:induction false} ArtefactWritesKeepHeld(s: ClusterState, ws: seq<Write>)
    requires forall w :: w in ws ==> Artefact(w)
    ensures Held(ApplyAll(s, ws)) == Held(s)
    decreases |ws|
  {
    if ws != [] {
      assert Artefact(ws[0]);
      assert Apply(s, ws[0]).limitador == s.limitador;
      ArtefactWritesKeepHeld(Apply(s, ws[0]), ws[1..]);
    }
  }

  lemma SpecStopsEarly(s: ClusterState, p: ObjectKey, o: Order, ws: seq<Write>, after: ClusterState, err: Option<Error>)
    requires p in s.policies && Lists(o.listing, s.topo)
    requires Validate(s.policies[p], p.namespace) && HostsError(s, p).None?
    requires Performed(s, AcquirePlan(s, p), ws, after, err) && err.Some? && FaithfulOrder(s, p, o, [])
    ensures Performed(s, SpecPlan(s, p, o), ws, after, err)
    ensures FaithfulOrder(s, p, o, ws)
  {
    assert ws == [];
  }

  /** Limits and plugins read only these parts of the cluster. */
  lemma SameReading(s: ClusterState, t: ClusterState, p: ObjectKey, o: Order)
    requires p in s.policies && Lists(o.listing, s.topo)
    requires t == s.(finalizers := t.finalizers, backRefs := t.backRefs)
    ensures RunDiff(s, p, o.listing) == RunDiff(t, p, o.listing)
    ensures forall e: Entry, d: Diff :: UpdatedCount(s, d, p, e) == UpdatedCount(t, d, p, e)
    ensures VisitsJobs(s, RunJobs(s, p, o.listing), o.domains) <==> VisitsJobs(t, RunJobs(t, p, o.listing), o.domains)
  {
    assert SnapshotsOf(s, o.listing) == SnapshotsOf(t, o.listing);
    var targeted := TargetedBy(s, p);
    FinalizeTargetsRead(s, t, if targeted.Ok? then targeted.value else []);
    VisitsTransfer(s, t, RunJobs(s, p, o.listing), o.domains);
  }

  lemma {:induction false} FinalizeTargetsRead(s: ClusterState, t: ClusterState, targeted: seq<ObjectKey>)
    requires t.topo == s.topo && t.refs == s.refs
    ensures FinalizeTargets(s, targeted) == FinalizeTargets(t, targeted)
  {
    if targeted != [] {
      FinalizeTargetsRead(s, t, targeted[..|targeted| - 1]);
    }
  }

  lemma WritesLimitsFirst(a: seq<Write>, b: seq<Write>)
    requires forall w :: w in b ==> !w.SetLimits?
    ensures WritesLimits(a + b) ==> WritesLimits(a)
  {
  }

  lemma WritesLimitsLater(a: seq<Write>, b: seq<Write>)
    requires forall w :: w in a ==> !w.SetLimits?
    ensures WritesLimits(a + b) ==> WritesLimits(b)
  {
  }

  // ----- lemmas for the diff -----

  lemma ArtefactsWriteNoLimits(s: ClusterState, d: Diff, p: ObjectKey, domains: seq<seq<string>>, ws: seq<Write>,
                               vs: seq<Write>, after: ClusterState, err: Option<Error>)
    requires Performed(s, ArtefactPlan(s, d, p, domains), vs, after, err)
    ensures WritesLimits(ws + vs) ==> WritesLimits(ws)
  {
    ArtefactPlanWrites(s, d, p, domains);
    assert forall w :: w in vs ==> w in ArtefactPlan(s, d, p, domains).writes;
  }

  lemma StagesPerformed(s: ClusterState, d: Diff, p: ObjectKey, o: Order, ws: seq<Write>, s1: ClusterState,
                        vs: seq<Write>, after: ClusterState, err: Option<Error>)
    requires Performed(s, DerivedPlan(s, d, p, o), ws, s1, None) && Performed(s1, RefsPlan(d, p), vs, after, err)
    ensures Performed(s, StagesPlan(s, d, p, o), ws + vs, after, err)
    ensures WritesLimits(ws + vs) ==> WritesLimits(ws)
  {
    PerformedThen(s, DerivedPlan(s, d, p, o), RefsPlan(d, p), ws, s1, vs, after, err);
    RefsWriteNoLimits(s1, d, p, ws, vs, after, err);
  }

  lemma RefsWriteNoLimits(s: ClusterState, d: Diff, p: ObjectKey, ws: seq<Write>, vs: seq<Write>,
                          after: ClusterState, err: Option<Error>)
    requires Performed(s, RefsPlan(d, p), vs, after, err)
    ensures WritesLimits(ws + vs) ==> WritesLimits(ws)
  {
    RefWritesOnly(d.left, p);
    RefWritesOnly(d.added, p);
    assert forall w :: w in vs ==> w in RefsPlan(d, p).writes;
  }

  lemma ShownDistinct(gws: seq<GatewayWrapper>, snaps: seq<Snapshot>)
    requires Shows(gws, snaps) && DistinctKeys(snaps)
    ensures NoDuplicates(gws)
  {
    forall i, j | 0 <= i < j < |gws|
      ensures gws[i] != gws[j]
    {
      assert gws[i].Snap() == snaps[i] && gws[j].Snap() == snaps[j];
    }
  }

  lemma ShownApart(gws: seq<GatewayWrapper>, snaps: seq<Snapshot>, others: seq<GatewayWrapper>,
                   otherSnaps: seq<Snapshot>)
    requires Shows(gws, snaps) && Shows(others, otherSnaps)
    requires forall g :: g in snaps ==> g !in otherSnaps
    ensures forall g :: g in gws ==> g !in others
  {
    forall i, j | 0 <= i < |gws| && 0 <= j < |others|
      ensures gws[i] != others[j]
    {
      assert gws[i].Snap() == snaps[i] && others[j].Snap() == otherSnaps[j];
      assert snaps[i] in snaps && otherSnaps[j] in otherSnaps;
    }
  }

  lemma DiffIsReadFrom(s: ClusterState, p: ObjectKey, targeted: seq<ObjectKey>, listing: seq<ObjectKey>)
    requires Lists(listing, s.topo)
    ensures var d := DiffOf(s, p, targeted, listing);
      && ReadFrom(d.added, s) && ReadFrom(d.same, s) && ReadFrom(d.left, s)
      && DistinctKeys(d.added) && DistinctKeys(d.same) && DistinctKeys(d.left)
      && (forall g :: g in d.added ==> NewFilter(p, targeted)(g))
      && (forall g :: g in d.same ==> SameFilter(p, targeted)(g))
      && (forall g :: g in d.left ==> LeftFilter(p, targeted)(g))
  {
    var items := SnapshotsOf(s, listing);
    SelectMembers(items, NewFilter(p, targeted));
    SelectMembers(items, SameFilter(p, targeted));
    SelectMembers(items, LeftFilter(p, targeted));
    assert DistinctKeys(items);
    SelectDistinct(items, NewFilter(p, targeted));
    SelectDistinct(items, SameFilter(p, targeted));
    SelectDistinct(items, LeftFilter(p, targeted));
  }
}

/** Entries of Limitador whose namespace does not parse. The index skips them, and the
    list it is written back as replaces the whole stored list, so they do not survive. */
module ForeignEntries {
  import opened Cluster
  import opened Common
  import opened Effects
  import opened FinalizeEffects
  import opened GatewayRefs
  import opened LimitIndexes
  import opened LimitWrites
  import opened Plans

  /** The elements of a flat list whose namespace does not parse, in order. */
  ghost function Unparsed(limits: seq<RateLimit>): seq<RateLimit> {
    if limits == [] then []
    else
      var last := limits[|limits| - 1];
      Unparsed(limits[..|limits| - 1]) + if ParseEntry(last).None? then [last] else []
  }

  /** What Limitador holds beside the entries of `Held`. */
  ghost function Foreign(s: ClusterState): seq<RateLimit> {
    if s.limitador.Some? then Unparsed(s.limitador.value.limits) else []
  }

  lemma {:induction false} ParsedAndUnparsed(limits: seq<RateLimit>)
    ensures |ParsedEntries(limits)| + |Unparsed(limits)| == |limits|
  {
    if limits != [] {
      ParsedAndUnparsed(limits[..|limits| - 1]);
    }
  }

  /** Nothing foreign is printed. */
  lemma PrintedUpdateIsOwn(s: ClusterState, d: Diff, p: ObjectKey, entries: seq<Entry>)
    requires Printable(s, d) && EnumeratesUpdate(s, d, p, entries)
    ensures Unparsed(PrintAll(entries)) == []
  {
    forall e | e in entries
      ensures CanonicalEntry(e)
    {
      assert multiset(entries)[e] == UpdatedCount(s, d, p, e);
      UpdatedIsCanonical(s, d, p, e);
    }
    ParsePrintedList(entries);
    ParsedAndUnparsed(PrintAll(entries));
  }

  lemma SameSettled(s: ClusterState, t: ClusterState, d: Diff, p: ObjectKey)
    requires t == s.(finalizers := t.finalizers, backRefs := t.backRefs)
    ensures LimitsSettled(s, d, p) <==> LimitsSettled(t, d, p)
  {
    SameUpdate(s, t, d, p);
  }

  /** How a completed run leaves Limitador: untouched if the limits were settled, and
      else with the printed update. */
  ghost predicate LimitsOutcome(s: ClusterState, t: ClusterState, d: Diff, p: ObjectKey, entries: seq<Entry>) {
    if s.limitador.None? || LimitsSettled(s, d, p) then t.limitador == s.limitador
    else EnumeratesUpdate(s, d, p, entries) && t.limitador == Some(s.limitador.value.(limits := PrintAll(entries)))
  }

  lemma StageOutcome(s: ClusterState, d: Diff, p: ObjectKey, entries: seq<Entry>)
    requires LimitsPlan(s, d, p, entries).err.None?
    requires LimitsPlan(s, d, p, entries).writes != [] ==> EnumeratesUpdate(s, d, p, entries)
    ensures LimitsOutcome(s, ApplyAll(s, LimitsPlan(s, d, p, entries).writes), d, p, entries)
  {
    if !LimitsSettled(s, d, p) {
      ApplyOne(s, SetLimits(PrintAll(entries)));
    }
  }

  lemma ReconcileOutcome(s: ClusterState, p: ObjectKey, o: Order)
    requires Live(s, p) && Completed(s, p, o)
    ensures LimitsOutcome(s, After(s, p, o), RunDiff(s, p, o.listing), p, o.entries)
  {
    ReconcileShape(s, p, o);
    var d := DiffOf(s, p, TargetedBy(s, p).value, o.listing);
    var s1 := Locked(s, p);
    StagesShape(s1, d, p, o);
    if LimitsPlan(s1, d, p, o.entries).writes != [] {
      StagesWriteLimits(s1, d, p, o);
    }
    SameSettled(s, s1, d, p);
    SameUpdate(s, s1, d, p);
    StageOutcome(s1, d, p, o.entries);
    EffectFrames(ApplyAll(s1, LimitsPlan(s1, d, p, o.entries).writes), d, p, o.domains);
  }

  /** The limits stage of a finalize works on the gateways whose references are gone. */
  lemma WithdrawnOutcome(s: ClusterState, s2: ClusterState, p: ObjectKey, entries: seq<Entry>)
    requires p in s.policies && s2.limitador == s.limitador && s2.topo == s.topo
    requires var plan := TolerantLimitsPlan(s2, Forget(FinalizeDiff(s, p).left, p), p, entries);
             plan.err.None? && (plan.writes != [] ==> EnumeratesUpdate(s, FinalizeDiff(s, p), p, entries))
    ensures var t := ApplyAll(s2, TolerantLimitsPlan(s2, Forget(FinalizeDiff(s, p).left, p), p, entries).writes);
      LimitsOutcome(s, t, FinalizeDiff(s, p), p, entries)
  {
    var left := FinalizeDiff(s, p).left;
    var d := Diff([], [], Forget(left, p));
    assert KeysOf(d.left) == KeysOf(left);
    assert forall e: Entry :: UpdatedCount(s2, d, p, e) == UpdatedCount(s, FinalizeDiff(s, p), p, e);
    if s.limitador.Some? {
      StageOutcome(s2, d, p, entries);
    }
  }

  lemma WithdrawalOutcome(s: ClusterState, p: ObjectKey, o: Order)
    requires p in s.policies && WithdrawalCompletes(s, p, o)
    ensures LimitsOutcome(s, Withdrawal(s, p, o), FinalizeDiff(s, p), p, o.entries)
  {
    var left := FinalizeDiff(s, p).left;
    var s1 := ApplyAll(s, RefsPlan(FinalizeDiff(s, p), p).writes);
    var a := WithdrawArtefactsPlan(s1, Forget(left, p), p, o.domains);
    RemovedRefs(s, p, p);
    WithdrawArtefactsWrites(s1, Forget(left, p), p, o.domains);
    ArtefactFrame(s1, a.writes);
    WithdrawnOutcome(s, ApplyAll(s1, a.writes), p, o.entries);
  }

  lemma FinalizeOutcome(s: ClusterState, p: ObjectKey, o: Order)
    requires Leaving(s, p) && Completed(s, p, o)
    ensures LimitsOutcome(s, After(s, p, o), RunDiff(s, p, o.listing), p, o.entries)
  {
    FinalizeCompletes(s, p, o);
    WithdrawalApplied(s, p, o);
    ReleaseApplied(s, Withdrawal(s, p, o), p);
    WithdrawalOutcome(s, p, o);
  }

  /** A completed run keeps the foreign entries if and only if there are none, or the
      limits it asks for are the ones already held; else it drops them all. */
  lemma ForeignKeptIff(s: ClusterState, p: ObjectKey, o: Order)
    requires (Live(s, p) && NamesOk(s.topo)) || Leaving(s, p)
    requires Completed(s, p, o)
    ensures Foreign(After(s, p, o)) == Foreign(s) <==>
            Foreign(s) == [] || LimitsSettled(s, RunDiff(s, p, o.listing), p)
    ensures Foreign(After(s, p, o)) == Foreign(s) || Foreign(After(s, p, o)) == []
  {
    var d := RunDiff(s, p, o.listing);
    if Live(s, p) {
      ReconcileOutcome(s, p, o);
    } else {
      FinalizeOutcome(s, p, o);
    }
    if s.limitador.Some? && !LimitsSettled(s, d, p) {
      RunIsPrintable(s, p, o.listing);
      PrintedUpdateIsOwn(s, d, p, o.entries);
    }
  }
}

/** Exactly when Ready=True can be relied on: every hazard of module Soundness leads to a
    reconcile that reports Ready=True over a target without the source's data, and nothing else
    does. */
module Hazards {
  import opened Names
  import opened HashData
  import opened ConfigMaps
  import opened RolloutPlanner
  import opened Reconcile
  import opened Status
  import opened Runs
  import opened Soundness

  /** A rolling reconcile never reads a target it has recorded: if all selected targets are on
      record it reports Ready=True and leaves every one of them as it is. */
  lemma RollingTrustsItsRecord(r: Resource, p: Pass, w: World)
    requires p.key == r.key && p.d.source == r.source
    requires p.strategy == Rolling && p.selected <= CompletedFor(w.planner, p.key, p.d.hash)
    ensures p.Planned(w) == []
    ensures ReportsReady(p.Result(w))
    ensures forall ns :: ns in p.selected ==>
      Lookup(Outcome(p, w, Completed).objects, Target(r, ns)) == Lookup(w.objects, Target(r, ns))
  {
    assert p.selected - p.DoneBefore(w) == {};
    PlannedSelected(p, w);
    assert p.Planned(w) == [];
    assert p.DoneAfter(w) == p.selected;
    Conservation(p, w);
    forall ns | ns in p.selected
      ensures Lookup(Outcome(p, w, Completed).objects, Target(r, ns)) == Lookup(w.objects, Target(r, ns))
    {
      OutcomeAt(r, p, w, Completed, ns);
      OutcomeObjects(p, w, Completed);
    }
  }

  // ---------------------------------------------------------------------------
  // A hazard makes Ready=True false
  // ---------------------------------------------------------------------------

  function Plain(strategy: Strategy): Spec {
    Spec([], strategy, 1, Overwrite, true)
  }

  lemma PlainIsWholeData(r: Resource, ns: string, w: World, after: World)
    requires r.source in w.objects
    ensures HoldsEffectiveData(r, Plain(Rolling), {ns}, w, after)
            <==> Target(r, ns) in after.objects && after.objects[Target(r, ns)].data == w.objects[r.source].data
  {
    EffectiveIsEffective(w.objects[r.source].data, []);
  }

  /** A rolling reconcile of one recorded namespace would report Ready=True, and leave its target
      without the source's data. */
  ghost predicate FalseReady(r: Resource, w: World, ns: string) {
    && r.source in w.objects && ns != r.source.ns
    && var p := PassOf(r, Plain(Rolling), {ns}, w.objects);
       && ReportsReady(p.Result(w))
       && !HoldsEffectiveData(r, Plain(Rolling), {ns}, w, Outcome(p, w, Completed))
  }

  lemma StaleRecord(r: Resource, w: World, ns: string)
    requires r.source in w.objects && ns != r.source.ns && ns in Recorded(w, r.key)
    requires w.planner[r.key].hash == HashOf(r.digest, w.objects[r.source].data)
    requires var o := Lookup(w.objects, Target(r, ns)); o.Some? ==> o.value.data != w.objects[r.source].data
    ensures FalseReady(r, w, ns)
  {
    var p := PassOf(r, Plain(Rolling), {ns}, w.objects);
    RollingTrustsItsRecord(r, p, w);
    assert Lookup(Outcome(p, w, Completed).objects, Target(r, ns)) == Lookup(w.objects, Target(r, ns));
  }

  /** The source given some data, and nothing else changed. */
  function WithSource(r: Resource, w: World, data: StringMap): World {
    World(w.objects[r.source := ConfigMap(data, map[], map[])], w.planner)
  }

  lemma SettingTheSource(r: Resource, w: World, data: StringMap)
    ensures Step(r, w, Environment, WithSource(r, w, data))
    ensures Clean(data) ==> CleanStep(r, w, Environment, WithSource(r, w, data))
    ensures forall ns :: ns != r.source.ns ==>
      Lookup(WithSource(r, w, data).objects, Target(r, ns)) == Lookup(w.objects, Target(r, ns))
  {
    forall ns | ns != r.source.ns
      ensures Lookup(WithSource(r, w, data).objects, Target(r, ns)) == Lookup(w.objects, Target(r, ns))
    {
      assert Target(r, ns) != r.source;
    }
  }

  /** The recorded data of a target: what it holds, under the hash on record. */
  lemma RecordedData(r: Resource, w: World, ns: string) returns (data: StringMap)
    requires Invariant(r, w) && ns in Recorded(w, r.key)
    ensures ns != r.source.ns && Clean(data) && HashOf(r.digest, data) == w.planner[r.key].hash
  {
    assert UpToDateAt(r, w.objects, w.planner[r.key].hash, ns);
    assert FaithfulAt(r, Lookup(w.objects, Target(r, ns)));
    data := w.objects[Target(r, ns)].data;
  }

  /** The first hazard: the target now holds other data, and the record still stands. */
  lemma AfterFailedImmediate(r: Resource, p: Pass, w: World, n: nat, ns: string)
    requires GoodDigest(r.digest) && Invariant(r, w)
    requires p.key == r.key && p.d.source == r.source && p.strategy == Immediate && r.source.ns !in p.selected
    requires p.d.hash == HashOf(r.digest, p.d.data)
    requires Possible(p, w, AtTarget(n)) && ns in p.Planned(w)[..n] && ns in Recorded(w, r.key)
    requires w.planner[r.key].hash != p.d.hash
    ensures Outcome(p, w, AtTarget(n)).planner == w.planner
    ensures Lookup(Outcome(p, w, AtTarget(n)).objects, Target(r, ns)) == Some(Written(p.d))
  {
    assert UpToDateAt(r, w.objects, w.planner[r.key].hash, ns);
    SyncPointwise(w.objects, p.d, Elements(p.Planned(w)[..n]));
    assert Lookup(Outcome(p, w, AtTarget(n)).objects, Target(r, ns))
        == SyncedAt(w.objects, p.d, Elements(p.Planned(w)[..n]), Target(r, ns));
  }

  lemma FailedImmediateMakesReadyFalse(r: Resource, p: Pass, w: World, n: nat, ns: string) returns (w2: World)
    requires GoodDigest(r.digest) && Invariant(r, w)
    requires p.key == r.key && p.d.source == r.source && p.strategy == Immediate && r.source.ns !in p.selected
    requires p.d.hash == HashOf(r.digest, p.d.data)
    requires Possible(p, w, AtTarget(n)) && ns in p.Planned(w)[..n] && ns in Recorded(w, r.key)
    requires w.planner[r.key].hash != p.d.hash
    ensures CleanStep(r, Outcome(p, w, AtTarget(n)), Environment, w2) && FalseReady(r, w2, ns)
  {
    var w' := Outcome(p, w, AtTarget(n));
    var data := RecordedData(r, w, ns);
    AfterFailedImmediate(r, p, w, n, ns);
    SettingTheSource(r, w', data);
    w2 := WithSource(r, w', data);
    StaleRecord(r, w2, ns);
  }

  /** The second hazard: the target is gone, or no longer managed and then free to go. */
  lemma FinalizationMakesReadyFalse(r: Resource, w: World, prune: bool, cleaned: set<string>, ns: string)
    returns (w2: World)
    requires Invariant(r, w) && ns in cleaned && ns in Recorded(w, r.key)
    ensures CleanStep(r, Finalized(r.source, prune, w, cleaned), Environment, w2) && FalseReady(r, w2, ns)
  {
    var w' := Finalized(r.source, prune, w, cleaned);
    var data := RecordedData(r, w, ns);
    CleanLeaves(r, w.objects, prune, cleaned, ns);
    var gone := World(w'.objects - {Target(r, ns)}, w'.planner);
    w2 := WithSource(r, gone, data);
    SettingTheSource(r, gone, data);
    forall n | n != r.source.ns ensures LeavesManaged(r, w'.objects, w2.objects, n) {
      assert Lookup(w2.objects, Target(r, n)) == Lookup(gone.objects, Target(r, n));
    }
    StaleRecord(r, w2, ns);
  }

  /** After every hazard, whatever its spec, selection or stopping point, one step of the
      environment leads to a world in which a rolling reconcile reports Ready=True falsely. */
  lemma HazardMakesReadyFalse(r: Resource, w: World, e: Event, w': World) returns (ns: string, w2: World)
    requires GoodDigest(r.digest) && Invariant(r, w) && CleanStep(r, w, e, w') && Hazard(r, w, e)
    ensures CleanStep(r, w', Environment, w2) && FalseReady(r, w2, ns)
  {
    match e {
      case Attempt(spec, selected, stop) =>
        var p := PassOf(r, spec, selected, w.objects);
        ns :| ns in p.Planned(w)[..stop.n] && ns in Recorded(w, r.key);
        w2 := FailedImmediateMakesReadyFalse(r, p, w, stop.n, ns);
      case Finalize(prune, cleaned) =>
        ns :| ns in cleaned && ns in Recorded(w, r.key);
        w2 := FinalizationMakesReadyFalse(r, w, prune, cleaned, ns);
    }
  }

  // ---------------------------------------------------------------------------
  // Exactly when Ready=True can be relied on
  // ---------------------------------------------------------------------------

  /** A successful reconcile that reports Ready=True falsely. */
  ghost predicate Lies(r: Resource, w: World, e: Event, w': World) {
    && e.Attempt? && e.stop == Completed && r.source in w.objects
    && ReportsReady(PassOf(r, e.spec, e.selected, w.objects).Result(w))
    && !HoldsEffectiveData(r, e.spec, e.selected, w, w')
  }

  /** Every Ready=True in every hazard-free continuation is true. */
  ghost predicate Reliable(r: Resource, w: World) {
    forall ws, es, i: nat :: CleanRun(r, ws, es) && ws[0] == w && FreeOfHazards(r, ws, es) && i < |es| ==>
      !Lies(r, ws[i], es[i], ws[i + 1])
  }

  lemma InvariantIsReliable(r: Resource, w: World)
    requires GoodDigest(r.digest) && Invariant(r, w)
    ensures Reliable(r, w)
  {
    forall ws, es, i: nat | CleanRun(r, ws, es) && ws[0] == w && FreeOfHazards(r, ws, es) && i < |es|
      ensures !Lies(r, ws[i], es[i], ws[i + 1])
    {
      if Lies(r, ws[i], es[i], ws[i + 1]) {
        ReadyIsSoundInRuns(r, ws, es, i);
      }
    }
  }

  /** A two-step continuation whose second step lies. */
  lemma LieIsUnreliable(r: Resource, ws: seq<World>, es: seq<Event>)
    requires |ws| == 3 && |es| == 2
    requires CleanStep(r, ws[0], es[0], ws[1]) && CleanStep(r, ws[1], es[1], ws[2])
    requires !Hazard(r, ws[0], es[0]) && !Hazard(r, ws[1], es[1])
    requires Lies(r, ws[1], es[1], ws[2])
    ensures !Reliable(r, ws[0])
  {
    var i: nat := 1;
    assert CleanRun(r, ws, es) && FreeOfHazards(r, ws, es) && Lies(r, ws[i], es[i], ws[i + 1]);
  }

  lemma FalseReadyLies(r: Resource, w: World, ns: string) returns (e: Event, w': World)
    requires FalseReady(r, w, ns)
    ensures CleanStep(r, w, e, w') && !Hazard(r, w, e) && Lies(r, w, e, w')
  {
    e := Attempt(Plain(Rolling), {ns}, Completed);
    w' := Outcome(PassOf(r, Plain(Rolling), {ns}, w.objects), w, Completed);
  }

  lemma FalseReadyIsUnreliable(r: Resource, w: World, w2: World, ns: string)
    requires CleanStep(r, w, Environment, w2) && FalseReady(r, w2, ns)
    ensures !Reliable(r, w)
  {
    var e, w3 := FalseReadyLies(r, w2, ns);
    var ws, es := [w, w2, w3], [Environment, e];
    assert ws[0] == w && ws[1] == w2 && ws[2] == w3 && es[0] == Environment && es[1] == e;
    LieIsUnreliable(r, ws, es);
  }

  /** A step out of the invariant leaves Ready=True reliable exactly if it is not a hazard. */
  lemma ReliableIffNoHazard(r: Resource, w: World, e: Event, w': World)
    requires GoodDigest(r.digest) && Invariant(r, w) && CleanStep(r, w, e, w')
    ensures Reliable(r, w') <==> !Hazard(r, w, e)
  {
    if Hazard(r, w, e) {
      var ns, w2 := HazardMakesReadyFalse(r, w, e, w');
      FalseReadyIsUnreliable(r, w', w2, ns);
    } else {
      StepKeepsFaithful(r, w, e, w');
      AgreementIffNoHazard(r, w, e, w');
      InvariantIsReliable(r, w');
    }
  }

  /** Ready=True is reliable all along a run exactly if no step of the run is a hazard. */
  lemma ReliableAlongIffHazardFree(r: Resource, ws: seq<World>, es: seq<Event>)
    requires CleanRun(r, ws, es)
    requires GoodDigest(r.digest) && Invariant(r, ws[0])
    ensures (forall i :: 0 <= i < |ws| ==> Reliable(r, ws[i])) <==> FreeOfHazards(r, ws, es)
  {
    if FreeOfHazards(r, ws, es) {
      forall i | 0 <= i < |ws| ensures Reliable(r, ws[i]) {
        InvariantAlong(r, ws, es, i);
        InvariantIsReliable(r, ws[i]);
      }
    }
    if forall i :: 0 <= i < |ws| ==> Reliable(r, ws[i]) {
      ReliableKeepsInvariant(r, ws, es, |es|);
    }
  }

  lemma {:induction false} ReliableKeepsInvariant(r: Resource, ws: seq<World>, es: seq<Event>, n: nat)
    requires CleanRun(r, ws, es) && n <= |es|
    requires GoodDigest(r.digest) && Invariant(r, ws[0])
    requires forall i :: 0 <= i < |ws| ==> Reliable(r, ws[i])
    ensures Invariant(r, ws[n])
    ensures forall i :: 0 <= i < n ==> !Hazard(r, ws[i], es[i])
  {
    if n == 0 {
    } else {
      ReliableKeepsInvariant(r, ws, es, n - 1);
      assert CleanStep(r, ws[n - 1], es[n - 1], ws[n]);
      assert Reliable(r, ws[n]);
      ReliableIffNoHazard(r, ws[n - 1], es[n - 1], ws[n]);
      StepKeepsFaithful(r, ws[n - 1], es[n - 1], ws[n]);
      AgreementIffNoHazard(r, ws[n - 1], es[n - 1], ws[n]);
    }
  }

  // ---------------------------------------------------------------------------
  // Hazards do happen
  // ---------------------------------------------------------------------------

  /** Switching strategy: from any world with two targets or more on record, the source is edited
      to data of another hash and an immediate reconcile of the recorded targets fails at its
      second one. That is a hazard. */
  lemma StrategySwitchMakesReadyFalse(r: Resource, w: World, edit: StringMap) returns (ns: string, w3: World)
    requires GoodDigest(r.digest) && Invariant(r, w) && |Recorded(w, r.key)| >= 2
    requires Clean(edit) && HashOf(r.digest, edit) != w.planner[r.key].hash
    ensures var w1 := WithSource(r, w, edit);
            var p := PassOf(r, Plain(Immediate), Recorded(w, r.key), w1.objects);
            var e := Attempt(Plain(Immediate), Recorded(w, r.key), AtTarget(1));
            && CleanStep(r, w, Environment, w1) && Possible(p, w1, AtTarget(1))
            && var w2 := Outcome(p, w1, AtTarget(1));
               && CleanStep(r, w1, e, w2) && Hazard(r, w1, e)
               && CleanStep(r, w2, Environment, w3) && FalseReady(r, w3, ns)
  {
    var targets := Recorded(w, r.key);
    var w1 := WithSource(r, w, edit);
    SettingTheSource(r, w, edit);
    StepKeepsFaithful(r, w, Environment, w1);
    AgreementIffNoHazard(r, w, Environment, w1);
    var p := PassOf(r, Plain(Immediate), targets, w1.objects);
    SortSetCount(targets);
    ns := SortSet(targets)[0];
    assert ns in p.Planned(w1)[..1];
    w3 := FailedImmediateMakesReadyFalse(r, p, w1, 1, ns);
  }

  /** Deleting and re-creating a resource: finalization forgets nothing, so if the record is for
      the present source, pruning a recorded target makes the very next rolling reconcile report
      Ready=True falsely. */
  lemma RecreationMakesReadyFalse(r: Resource, w: World, cleaned: set<string>, ns: string)
    requires Invariant(r, w) && ns in Recorded(w, r.key) && ns in cleaned
    requires r.source in w.objects && w.planner[r.key].hash == HashOf(r.digest, w.objects[r.source].data)
    requires cleaned <= ListedNamespaces(w.objects, r.source) && r.source.ns !in cleaned
    ensures var w1 := Finalized(r.source, true, w, cleaned);
            && CleanStep(r, w, Finalize(true, cleaned), w1)
            && Hazard(r, w, Finalize(true, cleaned))
            && FalseReady(r, w1, ns)
  {
    var w1 := Finalized(r.source, true, w, cleaned);
    CleanPointwise(w.objects, r.source.name, true, cleaned);
    assert Lookup(w1.objects, r.source) == CleanedAt(w.objects, r.source.name, true, cleaned, r.source);
    assert Lookup(w1.objects, Target(r, ns)) == CleanedAt(w.objects, r.source.name, true, cleaned, Target(r, ns));
    StaleRecord(r, w1, ns);
  }
}

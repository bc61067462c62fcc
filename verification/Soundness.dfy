/** What holds in every run: the planner and the cluster agree, and Ready=True is the truth. */
module Soundness {
  import opened Names
  import opened HashData
  import opened ConfigMaps
  import opened RolloutPlanner
  import opened Reconcile
  import opened Status
  import opened Runs

  // ---------------------------------------------------------------------------
  // Contents
  // ---------------------------------------------------------------------------

  lemma EffectiveIsClean(data: StringMap, keys: seq<string>)
    requires Clean(data)
    ensures Clean(Effective(data, keys))
  {
  }

  /** Every step keeps contents faithful to their hash annotations. */
  lemma StepKeepsFaithful(r: Resource, w: World, e: Event, w': World)
    requires Faithful(r, w.objects) && SourceClean(r, w.objects) && CleanStep(r, w, e, w')
    ensures Faithful(r, w'.objects) && SourceClean(r, w'.objects)
  {
    match e {
      case Environment =>
        forall ns | ns != r.source.ns ensures FaithfulAt(r, Lookup(w'.objects, Target(r, ns))) {
          assert LeavesManaged(r, w.objects, w'.objects, ns);
        }
      case Attempt(spec, selected, stop) =>
        if r.source in w.objects {
          AttemptKeepsFaithful(r, PassOf(r, spec, selected, w.objects), w, stop);
        }
      case Finalize(prune, cleaned) =>
        CleanKeepsFaithful(r, w.objects, prune, cleaned);
        CleanPointwise(w.objects, r.source.name, prune, cleaned);
        assert Lookup(w'.objects, r.source) == CleanedAt(w.objects, r.source.name, prune, cleaned, r.source);
    }
  }

  lemma AttemptKeepsFaithful(r: Resource, p: Pass, w: World, stop: Stop)
    requires Faithful(r, w.objects) && SourceClean(r, w.objects)
    requires Possible(p, w, stop) && p.d.source == r.source && r.source.ns !in p.selected
    requires r.source in w.objects && exists keys :: p.d.data == Effective(w.objects[r.source].data, keys)
    requires p.d.hash == HashOf(r.digest, p.d.data)
    ensures Faithful(r, Outcome(p, w, stop).objects) && SourceClean(r, Outcome(p, w, stop).objects)
  {
    var keys :| p.d.data == Effective(w.objects[r.source].data, keys);
    EffectiveIsClean(w.objects[r.source].data, keys);
    OutcomeObjects(p, w, stop);
    SyncKeepsFaithful(r, w.objects, p.d, SyncedSet(p, w, stop));
    CleanKeepsFaithful(r, SyncObjects(w.objects, p.d, SyncedSet(p, w, stop)), p.prune, CleanedSet(p, w, stop));
    SourceKeepsData(r, w.objects, p.d, SyncedSet(p, w, stop), p.prune, CleanedSet(p, w, stop));
  }

  // ---------------------------------------------------------------------------
  // Planner and cluster
  // ---------------------------------------------------------------------------

  function Recorded(w: World, key: NamespacedName): set<string> {
    if key in w.planner then w.planner[key].completed else {}
  }

  /** The two steps that can part the planner from the cluster: an immediate sync that fails
      after overwriting targets still recorded for another hash, and a finalization, which
      forgets nothing. */
  ghost predicate Hazard(r: Resource, w: World, e: Event) {
    match e
    case Environment => false
    case Attempt(spec, selected, AtTarget(n)) =>
      r.source in w.objects &&
      var p := PassOf(r, spec, selected, w.objects);
      && spec.strategy == Immediate && n < |p.Planned(w)|
      && r.key in w.planner && w.planner[r.key].hash != p.d.hash
      && exists ns :: ns in p.Planned(w)[..n] && ns in Recorded(w, r.key)
    case Attempt(_, _, _) => false
    case Finalize(prune, cleaned) => exists ns :: ns in cleaned && ns in Recorded(w, r.key)
  }

  /** Starting in agreement, a step keeps it exactly when it is not a hazard. */
  lemma AgreementIffNoHazard(r: Resource, w: World, e: Event, w': World)
    requires Agreement(r, w) && Step(r, w, e, w')
    ensures Agreement(r, w') <==> !Hazard(r, w, e)
  {
    match e {
      case Environment =>
        forall ns | ns in Recorded(w', r.key)
          ensures ns != r.source.ns && UpToDateAt(r, w'.objects, w'.planner[r.key].hash, ns)
        {
          assert LeavesManaged(r, w.objects, w'.objects, ns);
        }
      case Attempt(spec, selected, stop) =>
        if r.source in w.objects {
          var p := PassOf(r, spec, selected, w.objects);
          if stop.AtTarget? && spec.strategy == Immediate {
            FailedImmediate(r, p, w, stop.n);
          } else {
            AttemptKeepsAgreement(r, p, w, stop);
          }
        }
      case Finalize(prune, cleaned) =>
        forall ns ensures UpToDateAt(r, w'.objects, HashRecorded(w, r.key), ns)
                          <==> ns !in cleaned && UpToDateAt(r, w.objects, HashRecorded(w, r.key), ns)
        {
          CleanLeaves(r, w.objects, prune, cleaned, ns);
        }
    }
  }

  function HashRecorded(w: World, key: NamespacedName): string {
    if key in w.planner then w.planner[key].hash else ""
  }

  /** Deselected entries are dropped before their targets are cleaned, and new entries are added
      after their targets are written, so stopping anywhere keeps the agreement. */
  lemma AttemptKeepsAgreement(r: Resource, p: Pass, w: World, stop: Stop)
    requires Agreement(r, w) && Possible(p, w, stop)
    requires p.key == r.key && p.d.source == r.source && r.source.ns !in p.selected
    requires !(stop.AtTarget? && p.strategy == Immediate)
    ensures Agreement(r, Outcome(p, w, stop))
  {
    var w' := Outcome(p, w, stop);
    PlannedSelected(p, w);
    forall ns | ns in Recorded(w', r.key)
      ensures ns != r.source.ns && UpToDateAt(r, w'.objects, w'.planner[r.key].hash, ns)
    {
      if stop != Early {
        OutcomeAt(r, p, w, stop, ns);
        OutcomeObjects(p, w, stop);
      }
    }
  }

  lemma FailedImmediate(r: Resource, p: Pass, w: World, n: nat)
    requires Agreement(r, w) && Possible(p, w, AtTarget(n))
    requires p.key == r.key && p.d.source == r.source && r.source.ns !in p.selected && p.strategy == Immediate
    ensures Agreement(r, Outcome(p, w, AtTarget(n))) <==>
      !(r.key in w.planner && w.planner[r.key].hash != p.d.hash
        && exists ns :: ns in p.Planned(w)[..n] && ns in Recorded(w, r.key))
  {
  }

  // ---------------------------------------------------------------------------
  // Runs
  // ---------------------------------------------------------------------------

  ghost predicate FreeOfHazards(r: Resource, ws: seq<World>, es: seq<Event>)
    requires |ws| == |es| + 1
  {
    forall i :: 0 <= i < |es| ==> !Hazard(r, ws[i], es[i])
  }

  /** The invariant holds all along every hazard-free run. */
  lemma {:induction false} InvariantAlong(r: Resource, ws: seq<World>, es: seq<Event>, i: nat)
    requires CleanRun(r, ws, es) && FreeOfHazards(r, ws, es) && Invariant(r, ws[0]) && i < |ws|
    ensures Invariant(r, ws[i])
  {
    if i == 0 {
    } else {
      InvariantAlong(r, ws, es, i - 1);
      StepKeepsFaithful(r, ws[i - 1], es[i - 1], ws[i]);
      AgreementIffNoHazard(r, ws[i - 1], es[i - 1], ws[i]);
    }
  }

  /** A run of rolling reconciles only, without finalization, is free of hazards. */
  lemma RollingIsFreeOfHazards(r: Resource, ws: seq<World>, es: seq<Event>)
    requires |ws| == |es| + 1
    requires forall i :: 0 <= i < |es| ==>
      !es[i].Finalize? && (es[i].Attempt? ==> es[i].spec.strategy == Rolling)
    ensures FreeOfHazards(r, ws, es)
  {
  }

  /** Every target a successful reconcile reports as completed is up to date afterwards. */
  lemma DoneIsUpToDate(r: Resource, p: Pass, w: World, ns: string)
    requires Agreement(r, w) && p.key == r.key && p.d.source == r.source && ns in p.DoneAfter(w)
    ensures UpToDateAt(r, Outcome(p, w, Completed).objects, p.d.hash, ns)
  {
    DoneAfterSelected(p, w);
    OutcomeAt(r, p, w, Completed, ns);
  }

  /** The promise of Ready=True: every selected namespace holds exactly the effective data. */
  ghost predicate HoldsEffectiveData(r: Resource, spec: Spec, selected: set<string>, before: World, after: World)
    requires r.source in before.objects
  {
    forall ns :: ns in selected ==>
      && Target(r, ns) in after.objects
      && IsEffective(before.objects[r.source].data, spec.dataKeys, after.objects[Target(r, ns)].data)
  }

  lemma ReadyIsTrue(r: Resource, spec: Spec, selected: set<string>, w: World)
    requires GoodDigest(r.digest) && Invariant(r, w)
    requires r.source in w.objects && r.source.ns !in selected
    requires ReportsReady(PassOf(r, spec, selected, w.objects).Result(w))
    ensures HoldsEffectiveData(r, spec, selected, w, Outcome(PassOf(r, spec, selected, w.objects), w, Completed))
  {
    var p := PassOf(r, spec, selected, w.objects);
    var w' := Outcome(p, w, Completed);
    Conservation(p, w);
    EffectiveIsEffective(w.objects[r.source].data, spec.dataKeys);
    AttemptKeepsFaithful(r, p, w, Completed);
    EffectiveIsClean(w.objects[r.source].data, spec.dataKeys);
    forall ns | ns in selected ensures Target(r, ns) in w'.objects && w'.objects[Target(r, ns)].data == p.d.data {
      DoneIsUpToDate(r, p, w, ns);
      assert FaithfulAt(r, Lookup(w'.objects, Target(r, ns)));
      EqualHashesMeanEqualData(r.digest, w'.objects[Target(r, ns)].data, p.d.data);
    }
  }

  /** Ready=True is sound over whole runs: source edits, selection changes, spec changes, planner
      losses, and reconciles that fail at any call. */
  lemma ReadyIsSoundInRuns(r: Resource, ws: seq<World>, es: seq<Event>, i: nat)
    requires GoodDigest(r.digest)
    requires CleanRun(r, ws, es) && FreeOfHazards(r, ws, es) && Invariant(r, ws[0])
    requires i < |es| && es[i].Attempt? && es[i].stop == Completed
    ensures r.source in ws[i].objects
    ensures ReportsReady(PassOf(r, es[i].spec, es[i].selected, ws[i].objects).Result(ws[i])) ==>
      HoldsEffectiveData(r, es[i].spec, es[i].selected, ws[i], ws[i + 1])
  {
    InvariantAlong(r, ws, es, i);
    assert CleanStep(r, ws[i], es[i], ws[i + 1]);
    if ReportsReady(PassOf(r, es[i].spec, es[i].selected, ws[i].objects).Result(ws[i])) {
      ReadyIsTrue(r, es[i].spec, es[i].selected, ws[i]);
    }
  }

  /** An immediate reconcile reads every target, so its Ready=True needs no agreement at all. */
  lemma ImmediateReadyIsTrue(r: Resource, spec: Spec, selected: set<string>, w: World)
    requires GoodDigest(r.digest) && Faithful(r, w.objects) && SourceClean(r, w.objects)
    requires r.source in w.objects && r.source.ns !in selected && spec.strategy == Immediate
    requires ReportsReady(PassOf(r, spec, selected, w.objects).Result(w))
    ensures HoldsEffectiveData(r, spec, selected, w, Outcome(PassOf(r, spec, selected, w.objects), w, Completed))
  {
    var forgetful := World(w.objects, w.planner - {r.key});
    var p := PassOf(r, spec, selected, w.objects);
    assert p.Planned(w) == p.Planned(forgetful);
    assert p.Result(w) == p.Result(forgetful);
    assert Outcome(p, w, Completed).objects == Outcome(p, forgetful, Completed).objects;
    ReadyIsTrue(r, spec, selected, forgetful);
  }
}

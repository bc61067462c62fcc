/** What a reconcile that succeeds has done, said of the objects, the selection, the spec and the
    record alone: target by target, in the report and in the planner. */
module Promises {
  import opened Names
  import opened HashData
  import opened ConfigMaps
  import opened RolloutPlanner
  import opened Reconcile
  import opened Runs

  /** What the promises are made of: the resource, its spec, the selection, and the world before. */
  datatype Setting = Setting(r: Resource, spec: Spec, selected: set<string>, w: World)
  {
    ghost function Hash(): string
      requires r.source in w.objects
    {
      HashOf(r.digest, Effective(w.objects[r.source].data, spec.dataKeys))
    }

    /** What is on record for this content. */
    ghost function Recorded(): set<string>
      requires r.source in w.objects
    {
      if r.key in w.planner && w.planner[r.key].hash == Hash() then w.planner[r.key].completed else {}
    }

    function Before(ns: string): Option<ConfigMap> {
      Lookup(w.objects, NamespacedName(ns, r.source.name))
    }

    /** A target that bears the managed label, or the annotation with this source. */
    predicate Own(o: ConfigMap) {
      || (MANAGED_LABEL in o.labels && o.labels[MANAGED_LABEL] == "true")
      || (SOURCE_ANNOTATION in o.annotations && o.annotations[SOURCE_ANNOTATION] == r.source.ns + "/" + r.source.name)
    }

    /** A target that bears both, so that cleanup finds it. */
    predicate Found(o: ConfigMap) {
      && MANAGED_LABEL in o.labels && o.labels[MANAGED_LABEL] == "true"
      && SOURCE_ANNOTATION in o.annotations && o.annotations[SOURCE_ANNOTATION] == r.source.ns + "/" + r.source.name
    }

    /** A target annotated with the current hash; without the annotation it passes for one that holds
        no data, whose hash is empty. */
    ghost predicate HasHash(o: ConfigMap)
      requires r.source in w.objects
    {
      if HASH_ANNOTATION in o.annotations then o.annotations[HASH_ANNOTATION] == Hash() else Hash() == ""
    }

    /** A target that is skipped if it has its turn. */
    predicate Skipped(ns: string) {
      Before(ns).Some? && !Own(Before(ns).value) && spec.policy == Skip
    }

    ghost predicate IsCopy(o: Option<ConfigMap>)
      requires r.source in w.objects
    {
      && o.Some?
      && IsEffective(w.objects[r.source].data, spec.dataKeys, o.value.data)
      && o.value.labels == map[MANAGED_LABEL := "true"]
      && o.value.annotations
         == map[SOURCE_ANNOTATION := r.source.ns + "/" + r.source.name, HASH_ANNOTATION := HashOf(r.digest, o.value.data)]
    }

    // -------------------------------------------------------------------------
    // The promises
    // -------------------------------------------------------------------------

    /** A planned target: skipped, found up to date, or made a copy. */
    ghost predicate HasHadTurn(ns: string, after: Option<ConfigMap>)
      requires r.source in w.objects
    {
      var o := Before(ns);
      if Skipped(ns) then after == o
      else if o.Some? && Own(o.value) && HasHash(o.value) then after == o
      else IsCopy(after)
    }

    /** Every object: planned targets have had their turn, deselected ones are cleaned up as the spec
        says, and all others are as they were. */
    ghost predicate Objects(planned: seq<string>, after: ConfigMaps.Objects)
      requires r.source in w.objects
    {
      && (forall k: NamespacedName :: k.name != r.source.name ==> Lookup(after, k) == Lookup(w.objects, k))
      && (forall ns :: ObjectAt(planned, ns, Lookup(after, NamespacedName(ns, r.source.name))))
    }

    ghost predicate ObjectAt(planned: seq<string>, ns: string, after: Option<ConfigMap>)
      requires r.source in w.objects
    {
      if ns in planned then HasHadTurn(ns, after)
      else if ns in selected || Before(ns).None? || !Found(Before(ns).value) then after == Before(ns)
      else CleanedUp(Before(ns).value, after, spec.prune)
    }

    /** Immediate plans everything; rolling plans the first targets that are not on record, as many as
        the batch size, which counts as one if it is less. */
    ghost predicate Planned(planned: seq<string>)
      requires r.source in w.objects
    {
      && Ascending(planned)
      && if spec.strategy == Immediate then Elements(planned) == selected else
           var pending := selected - Recorded();
           var batchSize := if spec.batchSize < 1 then 1 else spec.batchSize;
           && Elements(planned) <= pending
           && |planned| == (if |pending| < batchSize then |pending| else batchSize)
           && forall x, y :: x in planned && y in pending && y !in planned ==> Less(x, y)
    }

    /** Every selected target is completed or listed with the reason why not. */
    ghost predicate Report(result: RolloutResult)
      requires r.source in w.objects
    {
      && result.totalTargets == |selected| == result.completedCount + |result.outOfSync|
      && forall item :: item in result.outOfSync <==> IsOutOfSync(result.planned, item)
    }

    ghost predicate IsOutOfSync(planned: seq<string>, item: OutOfSyncItem)
      requires r.source in w.objects
    {
      match item.reason
      case ConflictPolicySkip => item.namespace in planned && Skipped(item.namespace)
      case PendingRollout =>
        spec.strategy == Rolling && item.namespace in selected - Recorded() && item.namespace !in planned
      case PendingSync => false
    }

    /** Rolling records what is selected and either was on record or has been planned and not skipped;
        immediate forgets the resource. The records of other resources stay. */
    ghost predicate Record(planned: seq<string>, after: Progresses)
      requires r.source in w.objects
    {
      if spec.strategy == Immediate then after == w.planner - {r.key} else
        && r.key in after && after - {r.key} == w.planner - {r.key} && after[r.key].hash == Hash()
        && forall ns :: ns in after[r.key].completed
                        <==> ns in selected && (ns in Recorded() || (ns in planned && !Skipped(ns)))
    }

    /** All promises of a reconcile that succeeds. */
    ghost predicate Kept(after: World, result: RolloutResult) {
      && r.source in w.objects
      && Planned(result.planned) && Objects(result.planned, after.objects)
      && Report(result) && Record(result.planned, after.planner)
    }

    /** What a reconcile keeps to wherever it stops: an object is as it was, or selected and has had
        its turn, or listed, not selected and cleaned up, which begins after the sync is recorded. */
    ghost predicate KeptInPart(after: World) {
      && (forall k: NamespacedName :: k.name != r.source.name ==> Lookup(after.objects, k) == Lookup(w.objects, k))
      && RecordInPart(after.planner)
      && (RecordedAll(after.planner) || forall ns :: ns !in selected ==>
            Lookup(after.objects, NamespacedName(ns, r.source.name)) == Before(ns))
      && forall ns :: InPart(ns, Lookup(after.objects, NamespacedName(ns, r.source.name)))
    }

    /** The record is as it was, or rid of what is not selected, or that of a whole sync. */
    ghost predicate RecordInPart(after: Progresses) {
      || after == w.planner
      || RecordedAll(after)
      || (r.source in w.objects && spec.strategy == Rolling
          && after == w.planner[r.key := Progress(Hash(), Recorded() * selected)])
    }

    /** All of the batch is recorded, or forgotten: nothing is cleaned up before that. */
    ghost predicate RecordedAll(after: Progresses) {
      r.source in w.objects && exists planned :: Planned(planned) && Record(planned, after)
    }

    ghost predicate InPart(ns: string, after: Option<ConfigMap>) {
      || after == Before(ns)
      || (r.source in w.objects && ns in selected && HasHadTurn(ns, after))
      || (ns !in selected && Before(ns).Some? && Found(Before(ns).value)
          && CleanedUp(Before(ns).value, after, spec.prune))
    }
  }

  // ---------------------------------------------------------------------------
  // A reconcile that succeeds keeps them
  // ---------------------------------------------------------------------------

  ghost function PassFor(s: Setting): Pass
    requires s.r.source in s.w.objects
  {
    PassOf(s.r, s.spec, s.selected, s.w.objects)
  }

  lemma SkippedIsConflict(s: Setting, ns: string)
    requires s.r.source in s.w.objects
    ensures s.Skipped(ns) <==> Classify(s.Before(ns), PassFor(s).d) == Conflict
  {
  }

  lemma KeepsPlanned(s: Setting)
    requires s.r.source in s.w.objects
    ensures s.Planned(PassFor(s).Planned(s.w))
  {
    var p := PassFor(s);
    PlannedSelected(p, s.w);
    assert s.selected - p.DoneBefore(s.w) == s.selected - s.Recorded();
    if s.spec.strategy == Rolling {
      BatchIsFirstPending(p.batchSize, p.DoneBefore(s.w), p.selected);
    }
  }

  lemma WrittenIsCopy(s: Setting)
    requires s.r.source in s.w.objects
    ensures s.IsCopy(Some(Written(PassFor(s).d)))
  {
    EffectiveIsEffective(s.w.objects[s.r.source].data, s.spec.dataKeys);
  }

  lemma FoundIsListed(s: Setting, ns: string)
    ensures ListedAt(s.w.objects, s.r.source, ns) <==> s.Before(ns).Some? && s.Found(s.Before(ns).value)
  {
  }

  lemma KeepsObjectAt(s: Setting, ns: string)
    requires s.r.source in s.w.objects
    ensures s.ObjectAt(PassFor(s).Planned(s.w), ns,
                       Lookup(Outcome(PassFor(s), s.w, Completed).objects, NamespacedName(ns, s.r.source.name)))
  {
    var p := PassFor(s);
    var k := NamespacedName(ns, s.r.source.name);
    OutcomeObjects(p, s.w, Completed);
    OutcomePointwise(p, s.w, Completed, k);
    if ns in s.selected {
      SkippedIsConflict(s, ns);
      WrittenIsCopy(s);
    } else {
      ListedOutside(p, s.w, ns);
      FoundIsListed(s, ns);
      if ListedAt(s.w.objects, s.r.source, ns) {
        DetachedLoses(s.w.objects[k]);
      }
    }
  }

  lemma DetachedLoses(o: ConfigMap)
    ensures CleanedUp(o, Some(Detached(o)), false)
  {
  }

  lemma {:induction false} ItemsAre(namespaces: seq<string>, reason: Reason, item: OutOfSyncItem)
    ensures item in Items(namespaces, reason) <==> item.reason == reason && item.namespace in namespaces
  {
    if namespaces == [] {
    } else {
      var n := |namespaces| - 1;
      ItemsAre(namespaces[..n], reason, item);
      assert namespaces == namespaces[..n] + [namespaces[n]];
    }
  }

  lemma BlockedIsSkipped(s: Setting, ns: string)
    requires s.r.source in s.w.objects
    ensures ns in PassFor(s).Blocked(s.w) <==> ns in PassFor(s).Planned(s.w) && s.Skipped(ns)
  {
    SkippedIsConflict(s, ns);
  }

  lemma Pending(s: Setting, ns: string)
    requires s.r.source in s.w.objects
    ensures var p := PassFor(s);
            ns in p.selected - p.DoneAfter(s.w) - p.Blocked(s.w)
            <==> s.spec.strategy == Rolling && ns in s.selected - s.Recorded() && ns !in p.Planned(s.w)
  {
    var p := PassFor(s);
    PlannedSelected(p, s.w);
    assert ns in p.DoneBefore(s.w) <==> ns in s.Recorded() && ns in s.selected;
  }

  lemma ItemsOf(a: set<string>, b: set<string>, reason: Reason, item: OutOfSyncItem)
    ensures item in Items(SortSet(a), ConflictPolicySkip) + Items(SortSet(b), reason)
            <==> || (item.reason == ConflictPolicySkip && item.namespace in a)
                 || (item.reason == reason && item.namespace in b)
  {
    ItemsAre(SortSet(a), ConflictPolicySkip, item);
    ItemsAre(SortSet(b), reason, item);
    SortSetElements(a);
    SortSetElements(b);
  }

  lemma KeepsItem(s: Setting, item: OutOfSyncItem)
    requires s.r.source in s.w.objects
    ensures item in PassFor(s).Result(s.w).outOfSync <==> s.IsOutOfSync(PassFor(s).Planned(s.w), item)
  {
    var p := PassFor(s);
    ItemsOf(p.Blocked(s.w), p.selected - p.DoneAfter(s.w) - p.Blocked(s.w),
            if p.strategy == Rolling then PendingRollout else PendingSync, item);
    BlockedIsSkipped(s, item.namespace);
    Pending(s, item.namespace);
  }

  lemma KeepsReport(s: Setting)
    requires s.r.source in s.w.objects
    ensures s.Report(PassFor(s).Result(s.w))
  {
    Conservation(PassFor(s), s.w);
    forall item ensures item in PassFor(s).Result(s.w).outOfSync <==> s.IsOutOfSync(PassFor(s).Planned(s.w), item) {
      KeepsItem(s, item);
    }
  }

  lemma KeepsRecord(s: Setting)
    requires s.r.source in s.w.objects
    ensures s.Record(PassFor(s).Planned(s.w), Outcome(PassFor(s), s.w, Completed).planner)
  {
    var p := PassFor(s);
    PlannedSelected(p, s.w);
    forall ns ensures ns in p.Blocked(s.w) <==> ns in p.Planned(s.w) && s.Skipped(ns) {
      BlockedIsSkipped(s, ns);
    }
  }

  lemma KeepsObjects(s: Setting)
    requires s.r.source in s.w.objects
    ensures s.Objects(PassFor(s).Planned(s.w), Outcome(PassFor(s), s.w, Completed).objects)
  {
    var p := PassFor(s);
    var after := Outcome(p, s.w, Completed).objects;
    forall ns ensures s.ObjectAt(p.Planned(s.w), ns, Lookup(after, NamespacedName(ns, s.r.source.name))) {
      KeepsObjectAt(s, ns);
    }
    forall k: NamespacedName | k.name != s.r.source.name ensures Lookup(after, k) == Lookup(s.w.objects, k) {
      OtherNames(p, s.w, k);
    }
  }

  lemma OtherNames(p: Pass, w: World, k: NamespacedName)
    requires k.name != p.d.source.name
    ensures Lookup(Outcome(p, w, Completed).objects, k) == Lookup(w.objects, k)
  {
    SyncPointwise(w.objects, p.d, Elements(p.Planned(w)));
    CleanPointwise(p.Synced(w), p.d.source.name, p.prune, p.Deselected(w));
    assert Lookup(p.Synced(w), k) == SyncedAt(w.objects, p.d, Elements(p.Planned(w)), k);
    assert Lookup(Outcome(p, w, Completed).objects, k)
        == CleanedAt(p.Synced(w), p.d.source.name, p.prune, p.Deselected(w), k);
  }

  /** A reconcile that succeeds keeps all promises. */
  lemma PromisesKept(s: Setting)
    requires s.r.source in s.w.objects
    ensures s.Kept(Outcome(PassFor(s), s.w, Completed), PassFor(s).Result(s.w))
  {
    KeepsPlanned(s);
    KeepsObjects(s);
    KeepsReport(s);
    KeepsRecord(s);
  }

  lemma StopsInPart(s: Setting, stop: Stop, ns: string)
    requires s.r.source in s.w.objects && Possible(PassFor(s), s.w, stop)
    ensures s.InPart(ns, Lookup(Outcome(PassFor(s), s.w, stop).objects, NamespacedName(ns, s.r.source.name)))
  {
    var p := PassFor(s);
    var k := NamespacedName(ns, s.r.source.name);
    OutcomeObjects(p, s.w, stop);
    OutcomePointwise(p, s.w, stop, k);
    if ns in s.selected {
      SkippedIsConflict(s, ns);
      WrittenIsCopy(s);
    } else if ns in CleanedSet(p, s.w, stop) {
      ListedMembers(s.w.objects, s.r.source);
      FoundIsListed(s, ns);
      DetachedLoses(s.w.objects[k]);
    }
  }

  lemma PlanIsInPart(s: Setting)
    requires s.r.source in s.w.objects
    ensures s.RecordInPart(PassFor(s).PlannerAfterPlan(s.w))
  {
    assert PassFor(s).DoneBefore(s.w) == s.Recorded() * s.selected;
  }

  lemma IsRecorded(s: Setting, planned: seq<string>, after: Progresses)
    requires s.r.source in s.w.objects && s.Planned(planned) && s.Record(planned, after)
    ensures s.RecordedAll(after)
  {
  }

  lemma SyncIsRecorded(s: Setting)
    requires s.r.source in s.w.objects
    ensures s.RecordedAll(PassFor(s).PlannerAfterSync(s.w))
  {
    KeepsPlanned(s);
    KeepsRecord(s);
    StopsAtRecord(PassFor(s), s.w, Completed);
    IsRecorded(s, PassFor(s).Planned(s.w), PassFor(s).PlannerAfterSync(s.w));
  }

  lemma StopsAtRecord(p: Pass, w: World, stop: Stop)
    requires Possible(p, w, stop)
    ensures Outcome(p, w, stop).planner
            == if stop.Early? then w.planner else if stop.AtTarget? then p.PlannerAfterPlan(w) else p.PlannerAfterSync(w)
  {
  }

  lemma StopsInRecord(s: Setting, stop: Stop, after: World)
    requires s.r.source in s.w.objects && Possible(PassFor(s), s.w, stop)
    requires after == Outcome(PassFor(s), s.w, stop)
    ensures s.RecordInPart(after.planner)
    ensures !stop.Early? && !stop.AtTarget? ==> s.RecordedAll(after.planner)
  {
    StopsAtRecord(PassFor(s), s.w, stop);
    if stop.AtTarget? {
      PlanIsInPart(s);
    } else if !stop.Early? {
      SyncIsRecorded(s);
    }
  }

  lemma CleansNothing(p: Pass, w: World, stop: Stop, ns: string)
    requires Possible(p, w, stop) && (stop.Early? || stop.AtTarget?) && ns !in p.selected
    ensures var k := NamespacedName(ns, p.d.source.name);
            Lookup(Outcome(p, w, stop).objects, k) == Lookup(w.objects, k)
  {
    OutcomeObjects(p, w, stop);
    OutcomePointwise(p, w, stop, NamespacedName(ns, p.d.source.name));
  }

  lemma StopsInOrder(s: Setting, stop: Stop)
    requires s.r.source in s.w.objects && Possible(PassFor(s), s.w, stop)
    ensures var after := Outcome(PassFor(s), s.w, stop);
            && s.RecordInPart(after.planner)
            && (s.RecordedAll(after.planner) || forall ns :: ns !in s.selected ==>
                  Lookup(after.objects, NamespacedName(ns, s.r.source.name)) == s.Before(ns))
  {
    StopsInRecord(s, stop, Outcome(PassFor(s), s.w, stop));
    if stop.Early? || stop.AtTarget? {
      forall ns | ns !in s.selected
        ensures Lookup(Outcome(PassFor(s), s.w, stop).objects, NamespacedName(ns, s.r.source.name)) == s.Before(ns)
      {
        CleansNothing(PassFor(s), s.w, stop, ns);
      }
    }
  }

  /** A reconcile that stops anywhere keeps to its part. */
  lemma PromisesKeptInPart(s: Setting, stop: Stop, after: World)
    requires Reconciles(s.r, s.spec, s.selected, s.w, stop, after)
    ensures s.KeptInPart(after)
  {
    if s.r.source in s.w.objects {
      forall ns ensures s.InPart(ns, Lookup(after.objects, NamespacedName(ns, s.r.source.name))) {
        StopsInPart(s, stop, ns);
      }
      StopsInOrder(s, stop);
      OthersInPart(PassFor(s), s.w, stop);
    }
  }

  lemma OthersInPart(p: Pass, w: World, stop: Stop)
    requires Possible(p, w, stop)
    ensures forall k: NamespacedName :: k.name != p.d.source.name ==>
      Lookup(Outcome(p, w, stop).objects, k) == Lookup(w.objects, k)
  {
  }
}

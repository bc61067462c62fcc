/** What Ready=True means for any data, data with colliding hashes included: over whole runs every
    selected target reads like the source once serialized, and whether that is the source's data
    is exactly the question of module HashAmbiguity. */
module Collisions {
  import opened Names
  import opened HashData
  import opened HashAmbiguity
  import opened ConfigMaps
  import opened RolloutPlanner
  import opened Reconcile
  import opened Status
  import opened Runs
  import opened Soundness
  import opened Hazards

  // ---------------------------------------------------------------------------
  // Hash annotations over runs
  // ---------------------------------------------------------------------------

  lemma PassKeepsHashed(r: Resource, objects: Objects, d: Desired, synced: set<string>, prune: bool, cleaned: set<string>)
    requires d.source == r.source && d.hash == HashOf(r.digest, d.data) && Hashed(r, objects)
    ensures Hashed(r, CleanObjects(SyncObjects(objects, d, synced), d.source.name, prune, cleaned))
  {
    var middle := SyncObjects(objects, d, synced);
    SyncPointwise(objects, d, synced);
    WrittenMarkers(d);
    forall ns | ns != r.source.ns ensures HashedAt(r, Lookup(middle, Target(r, ns))) {
      assert HashedAt(r, Lookup(objects, Target(r, ns)));
      assert Lookup(middle, Target(r, ns)) == SyncedAt(objects, d, synced, Target(r, ns));
    }
    CleaningKeepsHashed(r, middle, prune, cleaned);
  }

  lemma CleaningKeepsHashed(r: Resource, objects: Objects, prune: bool, cleaned: set<string>)
    requires Hashed(r, objects)
    ensures Hashed(r, CleanObjects(objects, r.source.name, prune, cleaned))
  {
    forall ns | ns != r.source.ns
      ensures HashedAt(r, Lookup(CleanObjects(objects, r.source.name, prune, cleaned), Target(r, ns)))
    {
      assert HashedAt(r, Lookup(objects, Target(r, ns)));
      CleanLeaves(r, objects, prune, cleaned, ns);
    }
  }

  lemma AttemptKeepsHashed(r: Resource, p: Pass, w: World, stop: Stop)
    requires Hashed(r, w.objects) && Possible(p, w, stop)
    requires p.d.source == r.source && p.d.hash == HashOf(r.digest, p.d.data)
    ensures Hashed(r, Outcome(p, w, stop).objects)
  {
    OutcomeObjects(p, w, stop);
    PassKeepsHashed(r, w.objects, p.d, SyncedSet(p, w, stop), p.prune, CleanedSet(p, w, stop));
  }

  /** Every step keeps each managed target under the hash of its own data, whatever the data. */
  lemma StepKeepsHashed(r: Resource, w: World, e: Event, w': World)
    requires Hashed(r, w.objects) && Step(r, w, e, w')
    ensures Hashed(r, w'.objects)
  {
    match e {
      case Environment =>
        forall ns | ns != r.source.ns ensures HashedAt(r, Lookup(w'.objects, Target(r, ns))) {
          assert LeavesManaged(r, w.objects, w'.objects, ns);
          assert HashedAt(r, Lookup(w.objects, Target(r, ns)));
        }
      case Attempt(spec, selected, stop) =>
        if r.source in w.objects {
          AttemptKeepsHashed(r, PassOf(r, spec, selected, w.objects), w, stop);
        }
      case Finalize(prune, cleaned) =>
        CleaningKeepsHashed(r, w.objects, prune, cleaned);
    }
  }

  lemma {:induction false} HashedAlong(r: Resource, ws: seq<World>, es: seq<Event>, i: nat)
    requires Run(r, ws, es) && FreeOfHazards(r, ws, es) && i < |ws|
    requires Hashed(r, ws[0].objects) && Agreement(r, ws[0])
    ensures Hashed(r, ws[i].objects) && Agreement(r, ws[i])
  {
    if i == 0 {
    } else {
      HashedAlong(r, ws, es, i - 1);
      assert Step(r, ws[i - 1], es[i - 1], ws[i]);
      StepKeepsHashed(r, ws[i - 1], es[i - 1], ws[i]);
      AgreementIffNoHazard(r, ws[i - 1], es[i - 1], ws[i]);
    }
  }

  // ---------------------------------------------------------------------------
  // Ready=True up to the hash
  // ---------------------------------------------------------------------------

  /** Every selected target holds data with the serialization of the effective data. */
  ghost predicate ReadsAlike(r: Resource, spec: Spec, selected: set<string>, before: World, after: World)
    requires r.source in before.objects
  {
    forall ns :: ns in selected ==>
      && Target(r, ns) in after.objects
      && Serialized(after.objects[Target(r, ns)].data)
         == Serialized(Effective(before.objects[r.source].data, spec.dataKeys))
  }

  lemma ReadyMeansReadsAlike(r: Resource, spec: Spec, selected: set<string>, w: World)
    requires GoodDigest(r.digest) && Hashed(r, w.objects) && Agreement(r, w)
    requires r.source in w.objects && r.source.ns !in selected
    requires ReportsReady(PassOf(r, spec, selected, w.objects).Result(w))
    ensures ReadsAlike(r, spec, selected, w, Outcome(PassOf(r, spec, selected, w.objects), w, Completed))
  {
    var p := PassOf(r, spec, selected, w.objects);
    var w' := Outcome(p, w, Completed);
    ReadyIffAllDone(p, w);
    AttemptKeepsHashed(r, p, w, Completed);
    forall ns | ns in selected
      ensures Target(r, ns) in w'.objects && Serialized(w'.objects[Target(r, ns)].data) == Serialized(p.d.data)
    {
      DoneIsUpToDate(r, p, w, ns);
      assert HashedAt(r, Lookup(w'.objects, Target(r, ns)));
      SameSerializationSameHash(r.digest, w'.objects[Target(r, ns)].data, p.d.data);
    }
  }

  /** Over whole hazard-free runs with any data whatever, Ready=True means that every selected
      target has the serialization of the effective data. */
  lemma ReadyMeansReadsAlikeInRuns(r: Resource, ws: seq<World>, es: seq<Event>, i: nat)
    requires GoodDigest(r.digest)
    requires Run(r, ws, es) && FreeOfHazards(r, ws, es) && Hashed(r, ws[0].objects) && Agreement(r, ws[0])
    requires i < |es| && es[i].Attempt? && es[i].stop == Completed
    ensures r.source in ws[i].objects
    ensures ReportsReady(PassOf(r, es[i].spec, es[i].selected, ws[i].objects).Result(ws[i])) ==>
      ReadsAlike(r, es[i].spec, es[i].selected, ws[i], ws[i + 1])
  {
    HashedAlong(r, ws, es, i);
    assert Step(r, ws[i], es[i], ws[i + 1]);
    if ReportsReady(PassOf(r, es[i].spec, es[i].selected, ws[i].objects).Result(ws[i])) {
      ReadyMeansReadsAlike(r, es[i].spec, es[i].selected, ws[i]);
    }
  }

  // ---------------------------------------------------------------------------
  // A colliding edit
  // ---------------------------------------------------------------------------

  /** After the source has been edited, a rolling reconcile of a recorded target reports Ready=True
      falsely exactly if the edit has the serialization of the target's data without being it. */
  lemma EditMakesReadyFalseIff(r: Resource, w: World, ns: string, edit: StringMap)
    requires GoodDigest(r.digest) && Hashed(r, w.objects) && Agreement(r, w) && ns in Recorded(w, r.key)
    ensures Step(r, w, Environment, WithSource(r, w, edit)) && Target(r, ns) in w.objects
    ensures var data := w.objects[Target(r, ns)].data;
            FalseReady(r, WithSource(r, w, edit), ns) <==> edit != data && Serialized(edit) == Serialized(data)
  {
    assert UpToDateAt(r, w.objects, w.planner[r.key].hash, ns);
    assert HashedAt(r, Lookup(w.objects, Target(r, ns)));
    var data := w.objects[Target(r, ns)].data;
    assert Target(r, ns) != r.source;
    var w' := WithSource(r, w, edit);
    SettingTheSource(r, w, edit);
    assert w'.objects[Target(r, ns)] == w.objects[Target(r, ns)];
    SameSerializationSameHash(r.digest, edit, data);
    if HashOf(r.digest, edit) == HashOf(r.digest, data) {
      RecordedReadyIff(r, w', ns, edit);
    } else {
      OtherHashIsWritten(r, w', ns, edit);
    }
  }

  lemma RecordedReadyIff(r: Resource, w: World, ns: string, edit: StringMap)
    requires r.source in w.objects && w.objects[r.source].data == edit && ns != r.source.ns
    requires Target(r, ns) in w.objects
    requires ns in Recorded(w, r.key) && w.planner[r.key].hash == HashOf(r.digest, edit)
    ensures FalseReady(r, w, ns) <==> w.objects[Target(r, ns)].data != edit
  {
    var p := PassOf(r, Plain(Rolling), {ns}, w.objects);
    var after := Outcome(p, w, Completed);
    RollingTrustsItsRecord(r, p, w);
    assert Lookup(after.objects, Target(r, ns)) == Lookup(w.objects, Target(r, ns));
    PlainIsWholeData(r, ns, w, after);
  }

  /** A record for another hash does not count: the target is written. */
  lemma OtherHashIsWritten(r: Resource, w: World, ns: string, edit: StringMap)
    requires r.source in w.objects && w.objects[r.source].data == edit && ns != r.source.ns
    requires r.key in w.planner && w.planner[r.key].hash != HashOf(r.digest, edit)
    requires UpToDateAt(r, w.objects, w.planner[r.key].hash, ns)
    ensures !FalseReady(r, w, ns)
  {
    var p := PassOf(r, Plain(Rolling), {ns}, w.objects);
    assert p.selected - p.DoneBefore(w) == {ns};
    SortSetCount({ns});
    assert ns in p.Planned(w);
    OutcomeObjects(p, w, Completed);
    OutcomePointwise(p, w, Completed, Target(r, ns));
    PlainIsWholeData(r, ns, w, Outcome(p, w, Completed));
  }

  /** So one edit of the source can make Ready=True false exactly if the data of the target is
      ambiguous, that is, shares its hash with other data. */
  lemma EditCanMakeReadyFalseIff(r: Resource, w: World, ns: string)
    requires GoodDigest(r.digest) && Hashed(r, w.objects) && Agreement(r, w) && ns in Recorded(w, r.key)
    requires Target(r, ns) in w.objects && CleanKeys(w.objects[Target(r, ns)].data)
    ensures (exists edit :: CleanKeys(edit) && FalseReady(r, WithSource(r, w, edit), ns))
            <==> Ambiguous(w.objects[Target(r, ns)].data)
  {
    var data := w.objects[Target(r, ns)].data;
    forall edit ensures FalseReady(r, WithSource(r, w, edit), ns)
                        <==> edit != data && Serialized(edit) == Serialized(data)
    {
      EditMakesReadyFalseIff(r, w, ns, edit);
    }
    if Ambiguous(data) {
      AmbiguousIsShared(data);
      var edit :| CleanKeys(edit) && edit != data && Serialized(edit) == Serialized(data);
      assert FalseReady(r, WithSource(r, w, edit), ns);
    }
    if edit :| CleanKeys(edit) && FalseReady(r, WithSource(r, w, edit), ns) {
      SharedIsAmbiguous(data);
    }
  }
}

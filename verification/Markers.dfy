/** What becomes of targets that carry one marker only, of the source when it is itself a target,
    and of the old targets when the source reference changes. */
module Markers {
  import opened Names
  import opened ConfigMaps
  import opened Reconcile
  import opened Runs
  import opened Writing

  // ---------------------------------------------------------------------------
  // One marker
  // ---------------------------------------------------------------------------

  /** Every target that sync takes for managed can be found by cleanup. */
  ghost predicate AllPaired(r: Resource, objects: Objects) {
    forall ns :: ns != r.source.ns ==> PairedAt(objects, r.source, ns)
  }

  /** No step of a run makes a target with one marker. */
  lemma StepKeepsPairs(r: Resource, w: World, e: Event, w': World)
    requires AllPaired(r, w.objects) && Step(r, w, e, w')
    ensures AllPaired(r, w'.objects)
  {
    forall ns | ns != r.source.ns ensures PairedAt(w'.objects, r.source, ns) {
      assert PairedAt(w.objects, r.source, ns);
      match e {
        case Environment =>
          assert LeavesManaged(r, w.objects, w'.objects, ns);
          assert Target(r, ns) == NamespacedName(ns, r.source.name);
        case Attempt(spec, selected, stop) =>
          if r.source in w.objects {
            var p := PassOf(r, spec, selected, w.objects);
            OutcomeObjects(p, w, stop);
            PassKeepsPairs(w.objects, p.d, SyncedSet(p, w, stop), p.prune, CleanedSet(p, w, stop), ns);
          }
        case Finalize(prune, cleaned) =>
          CleanLeaves(r, w.objects, prune, cleaned, ns);
      }
    }
  }

  lemma {:induction false} PairedAlong(r: Resource, ws: seq<World>, es: seq<Event>, i: nat)
    requires Run(r, ws, es) && AllPaired(r, ws[0].objects) && i < |ws|
    ensures AllPaired(r, ws[i].objects)
  {
    if i == 0 {
    } else {
      PairedAlong(r, ws, es, i - 1);
      StepKeepsPairs(r, ws[i - 1], es[i - 1], ws[i]);
    }
  }

  /** A target with one marker and the current hash counts as completed, is left as it is, and
      survives deletion of the resource, still taken for managed. */
  lemma OneMarkerSurvives(r: Resource, p: Pass, w: World, ns: string, prune: bool)
    requires p.d.source == r.source && ns in p.Planned(w)
    requires UpToDateAt(r, w.objects, p.d.hash, ns) && !ListedAt(w.objects, r.source, ns)
    ensures var after := Outcome(p, w, Completed);
            var gone := Finalized(r.source, prune, after, ListedNamespaces(after.objects, r.source));
            && ns in p.DoneAfter(w)
            && Lookup(after.objects, Target(r, ns)) == Lookup(w.objects, Target(r, ns))
            && ManagedAt(gone.objects, r.source, ns)
  {
    var after := Outcome(p, w, Completed);
    PlannedSelected(p, w);
    OutcomeObjects(p, w, Completed);
    OutcomePointwise(p, w, Completed, Target(r, ns));
    ManagedAfterCleanup(after.objects, r.source, prune, ns);
  }

  // ---------------------------------------------------------------------------
  // The source as a target
  // ---------------------------------------------------------------------------

  /** A reconcile changes the source exactly if it has its turn as a target that needs a write, or
      if it is cleaned up as a deselected target. */
  lemma SourceChangedIff(r: Resource, p: Pass, w: World, stop: Stop)
    requires p.d.source == r.source && r.source in w.objects && Possible(p, w, stop)
    ensures var o := w.objects[r.source];
            var written := r.source.ns in SyncedSet(p, w, stop) && Classify(Some(o), p.d) == Write;
            && (Lookup(Outcome(p, w, stop).objects, r.source) != Some(o)
                <==> written || r.source.ns in CleanedSet(p, w, stop))
            && (written ==> Lookup(Outcome(p, w, stop).objects, r.source) == Some(Written(p.d)))
            && (stop == Completed ==>
                  (r.source.ns in CleanedSet(p, w, stop) <==> Listed(o, r.source) && r.source.ns !in p.selected))
  {
    var o := w.objects[r.source];
    assert NamespacedName(r.source.ns, r.source.name) == r.source;
    OutcomeObjects(p, w, stop);
    OutcomePointwise(p, w, stop, r.source);
    ListedMembers(w.objects, r.source);
    assert ListedAt(w.objects, r.source, r.source.ns) <==> Listed(o, r.source);
    WrittenMarkers(p.d);
    DetachedIsUnmanaged(o, r.source);
    if stop == Completed {
      PlannedSelected(p, w);
      if r.source.ns !in p.selected {
        ListedOutside(p, w, r.source.ns);
      }
    }
  }

  /** Once it has been written as a target, deleting the resource with prune deletes the source. */
  lemma WrittenSourceIsPruned(r: Resource, p: Pass, w: World, stop: Stop)
    requires p.d.source == r.source && r.source in w.objects && Possible(p, w, stop)
    requires r.source.ns in SyncedSet(p, w, stop) && Classify(Some(w.objects[r.source]), p.d) == Write
    ensures var after := Outcome(p, w, stop);
            var listed := ListedNamespaces(after.objects, r.source);
            r.source.ns in listed && r.source !in Finalized(r.source, true, after, listed).objects
  {
    var after := Outcome(p, w, stop);
    var listed := ListedNamespaces(after.objects, r.source);
    assert NamespacedName(r.source.ns, r.source.name) == r.source;
    SourceChangedIff(r, p, w, stop);
    WrittenMarkers(p.d);
    ListedMembers(after.objects, r.source);
    assert ListedAt(after.objects, r.source, r.source.ns);
    CleanPointwise(after.objects, r.source.name, true, listed);
    assert Lookup(Finalized(r.source, true, after, listed).objects, r.source)
        == CleanedAt(after.objects, r.source.name, true, listed, r.source);
  }

  // ---------------------------------------------------------------------------
  // A change of the source reference
  // ---------------------------------------------------------------------------

  /** After the resource has been pointed at a source of another name, no reconcile and no
      finalization touches the old targets: they are orphans. */
  lemma ChangingTheSourceOrphans(r: Resource, changed: Resource, spec: Spec, selected: set<string>, w: World,
                                 stop: Stop, w': World, prune: bool, cleaned: set<string>)
    requires changed.source.name != r.source.name
    requires Reconciles(changed, spec, selected, w, stop, w')
    ensures ListedNamespaces(w'.objects, r.source) == ListedNamespaces(w.objects, r.source)
    ensures ListedNamespaces(Finalized(changed.source, prune, w, cleaned).objects, r.source)
            == ListedNamespaces(w.objects, r.source)
  {
    var gone := Finalized(changed.source, prune, w, cleaned).objects;
    CleanPointwise(w.objects, changed.source.name, prune, cleaned);
    ListedMembers(w.objects, r.source);
    ListedMembers(w'.objects, r.source);
    ListedMembers(gone, r.source);
    forall ns ensures ListedAt(w'.objects, r.source, ns) <==> ListedAt(w.objects, r.source, ns)
              ensures ListedAt(gone, r.source, ns) <==> ListedAt(w.objects, r.source, ns)
    {
      var k := Target(r, ns);
      assert Lookup(gone, k) == CleanedAt(w.objects, changed.source.name, prune, cleaned, k);
      if changed.source in w.objects && Lookup(w'.objects, k) != Lookup(w.objects, k) {
        ChangesAreConfined(PassOf(changed, spec, selected, w.objects), w, stop, k);
      }
      assert Lookup(w'.objects, k) == Lookup(w.objects, k);
    }
  }

  /** conflictPolicy=skip does not protect a target that was written for another source of the same
      name: the managed label makes it pass for managed, and with another hash it is overwritten. */
  lemma SkipTakesOver(p: Pass, w: World, stop: Stop, other: Desired, ns: string)
    requires p.d.policy == Skip && Possible(p, w, stop) && ns in SyncedSet(p, w, stop)
    requires other.source.name == p.d.source.name && other.source.ns != p.d.source.ns
    requires Lookup(w.objects, NamespacedName(ns, p.d.source.name)) == Some(Written(other))
    ensures Lookup(Outcome(p, w, stop).objects, NamespacedName(ns, p.d.source.name))
            == Some(Written(if other.hash == p.d.hash then other else p.d))
  {
    SourceIdsDiffer(other.source, p.d.source);
    WrittenMarkers(other);
    ForeignChangedIff(p, w, stop, NamespacedName(ns, p.d.source.name));
  }

  /** After the source has moved to another namespace under the same name, an old target is taken
      over exactly if it has its turn and carries another hash than the present one. Otherwise it
      is left as it is, counts as completed if it had its turn, is not listed for the new source,
      and survives deletion of the resource. */
  lemma MovingTheSourceOrphansIff(r: Resource, moved: Resource, p: Pass, w: World, stop: Stop, ns: string,
                                  prune: bool)
    requires moved.source.name == r.source.name && moved.source.ns != r.source.ns && p.d.source == moved.source
    requires Possible(p, w, stop) && ListedAt(w.objects, r.source, ns)
    ensures var o := w.objects[Target(r, ns)];
            var after := Outcome(p, w, stop);
            var gone := Finalized(moved.source, prune, after, ListedNamespaces(after.objects, moved.source));
            var takenOver := ns in SyncedSet(p, w, stop) && Read(o.annotations, HASH_ANNOTATION) != p.d.hash;
            && (ListedAt(after.objects, moved.source, ns) <==> takenOver)
            && (takenOver ==> Lookup(after.objects, Target(r, ns)) == Some(Written(p.d)))
            && (!takenOver ==> Lookup(after.objects, Target(r, ns)) == Lookup(gone.objects, Target(r, ns)) == Some(o))
            && (!takenOver && ns in SyncedSet(p, w, stop) ==> ns in p.DoneAfter(w))
  {
    var o := w.objects[Target(r, ns)];
    var after := Outcome(p, w, stop);
    var listed := ListedNamespaces(after.objects, moved.source);
    SourceIdsDiffer(r.source, moved.source);
    OutcomeObjects(p, w, stop);
    OutcomePointwise(p, w, stop, Target(r, ns));
    ListedMembers(w.objects, moved.source);
    ListedMembers(after.objects, moved.source);
    WrittenMarkers(p.d);
    PlannedSelected(p, w);
    assert !ListedAt(w.objects, moved.source, ns);
    CleanPointwise(after.objects, moved.source.name, prune, listed);
    assert Lookup(Finalized(moved.source, prune, after, listed).objects, Target(r, ns))
        == CleanedAt(after.objects, moved.source.name, prune, listed, Target(r, ns));
  }
}

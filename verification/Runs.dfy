/** Whole runs of one ConfigPropagation: reconciles that succeed or fail at any call, users
    editing the source and everything unmanaged, other resources, and restarts. */
module Runs {
  import opened Names
  import opened HashData
  import opened ConfigMaps
  import opened Reconcile

  // ---------------------------------------------------------------------------
  // Steps
  // ---------------------------------------------------------------------------

  datatype Event =
    | Environment
    | Attempt(spec: Spec, selected: set<string>, stop: Stop)
    | Finalize(prune: bool, cleaned: set<string>)

  function Target(r: Resource, ns: string): NamespacedName {
    NamespacedName(ns, r.source.name)
  }

  predicate IsManaged(r: Resource, o: Option<ConfigMap>) {
    o.Some? && Managed(o.value, r.source)
  }

  /** What may happen outside the controller: anything to the source, to objects of other names
      and to the progress of other resources; anything to a target that is unmanaged before and
      after; and the loss of this resource's progress. */
  ghost predicate EnvironmentStep(r: Resource, w: World, w': World) {
    && (forall ns :: ns != r.source.ns ==> LeavesManaged(r, w.objects, w'.objects, ns))
    && (r.key in w'.planner ==> r.key in w.planner && w'.planner[r.key] == w.planner[r.key])
  }

  predicate LeavesManaged(r: Resource, before: Objects, after: Objects, ns: string) {
    var o, o' := Lookup(before, Target(r, ns)), Lookup(after, Target(r, ns));
    o' == o || (!IsManaged(r, o) && !IsManaged(r, o'))
  }

  ghost predicate Step(r: Resource, w: World, e: Event, w': World) {
    match e
    case Environment => EnvironmentStep(r, w, w')
    case Attempt(spec, selected, stop) => r.source.ns !in selected && Reconciles(r, spec, selected, w, stop, w')
    case Finalize(prune, cleaned) =>
      cleaned <= ListedNamespaces(w.objects, r.source) && w' == Finalized(r.source, prune, w, cleaned)
  }

  ghost predicate Run(r: Resource, ws: seq<World>, es: seq<Event>) {
    && |ws| == |es| + 1
    && forall i :: 0 <= i < |es| ==> Step(r, ws[i], es[i], ws[i + 1])
  }

  /** Data in which hashing tells everything apart: no edit of the source leaves it. */
  ghost predicate SourceClean(r: Resource, objects: Objects) {
    r.source in objects ==> Clean(objects[r.source].data)
  }

  ghost predicate CleanStep(r: Resource, w: World, e: Event, w': World) {
    Step(r, w, e, w') && (e.Environment? ==> SourceClean(r, w'.objects))
  }

  ghost predicate CleanRun(r: Resource, ws: seq<World>, es: seq<Event>) {
    && |ws| == |es| + 1
    && forall i :: 0 <= i < |es| ==> CleanStep(r, ws[i], es[i], ws[i + 1])
  }

  // ---------------------------------------------------------------------------
  // What runs keep
  // ---------------------------------------------------------------------------

  /** Every managed target carries the hash of its own data. */
  ghost predicate Hashed(r: Resource, objects: Objects) {
    forall ns :: ns != r.source.ns ==> HashedAt(r, Lookup(objects, Target(r, ns)))
  }

  ghost predicate HashedAt(r: Resource, o: Option<ConfigMap>) {
    IsManaged(r, o) ==> Read(o.value.annotations, HASH_ANNOTATION) == HashOf(r.digest, o.value.data)
  }

  /** And this data is clean. */
  ghost predicate Faithful(r: Resource, objects: Objects) {
    forall ns :: ns != r.source.ns ==> FaithfulAt(r, Lookup(objects, Target(r, ns)))
  }

  ghost predicate FaithfulAt(r: Resource, o: Option<ConfigMap>) {
    HashedAt(r, o) && (IsManaged(r, o) ==> Clean(o.value.data))
  }

  predicate UpToDateAt(r: Resource, objects: Objects, hash: string, ns: string) {
    var o := Lookup(objects, Target(r, ns));
    IsManaged(r, o) && Read(o.value.annotations, HASH_ANNOTATION) == hash
  }

  /** The planner and the cluster agree: whatever is recorded as completed for a hash is a
      managed target annotated with that hash. */
  ghost predicate Agreement(r: Resource, w: World) {
    r.key in w.planner ==>
      forall ns :: ns in w.planner[r.key].completed ==>
        ns != r.source.ns && UpToDateAt(r, w.objects, w.planner[r.key].hash, ns)
  }

  ghost predicate Invariant(r: Resource, w: World) {
    Faithful(r, w.objects) && SourceClean(r, w.objects) && Agreement(r, w)
  }

  // Sync

  lemma SyncKeepsFaithful(r: Resource, objects: Objects, d: Desired, namespaces: set<string>)
    requires d.source == r.source && d.hash == HashOf(r.digest, d.data) && Clean(d.data)
    requires Faithful(r, objects)
    ensures Faithful(r, SyncObjects(objects, d, namespaces))
  {
  }

  /** After its turn a target is up to date, unless it was a conflict; and what was up to date stays so. */
  lemma SyncBringsUpToDate(r: Resource, objects: Objects, d: Desired, namespaces: set<string>, ns: string)
    requires d.source == r.source
    ensures ns in namespaces && Classify(Lookup(objects, Target(r, ns)), d) != Conflict ==>
      UpToDateAt(r, SyncObjects(objects, d, namespaces), d.hash, ns)
    ensures UpToDateAt(r, objects, d.hash, ns) ==> UpToDateAt(r, SyncObjects(objects, d, namespaces), d.hash, ns)
    ensures ns !in namespaces ==>
      Lookup(SyncObjects(objects, d, namespaces), Target(r, ns)) == Lookup(objects, Target(r, ns))
  {
  }

  // Cleanup

  lemma CleanLeaves(r: Resource, objects: Objects, prune: bool, namespaces: set<string>, ns: string)
    ensures ns !in namespaces ==>
      Lookup(CleanObjects(objects, r.source.name, prune, namespaces), Target(r, ns)) == Lookup(objects, Target(r, ns))
    ensures ns in namespaces ==>
      !IsManaged(r, Lookup(CleanObjects(objects, r.source.name, prune, namespaces), Target(r, ns)))
  {
  }

  lemma CleanKeepsFaithful(r: Resource, objects: Objects, prune: bool, namespaces: set<string>)
    requires Faithful(r, objects)
    ensures Faithful(r, CleanObjects(objects, r.source.name, prune, namespaces))
  {
  }

  /** The source is never written; at most it loses its markers or is pruned. */
  lemma SourceKeepsData(r: Resource, objects: Objects, d: Desired, planned: set<string>, prune: bool, cleaned: set<string>)
    requires d.source == r.source && r.source.ns !in planned
    ensures var after := CleanObjects(SyncObjects(objects, d, planned), r.source.name, prune, cleaned);
            r.source in after ==> r.source in objects && after[r.source].data == objects[r.source].data
  {
  }

  // ---------------------------------------------------------------------------
  // One attempt
  // ---------------------------------------------------------------------------

  /** What an attempt does to the cluster: a sync of some planned targets, then a cleanup of some
      deselected ones. */
  ghost function SyncedSet(p: Pass, w: World, stop: Stop): set<string>
    requires Possible(p, w, stop)
  {
    match stop
    case Early => {}
    case AtTarget(n) => Elements(p.Planned(w)[..n])
    case _ => Elements(p.Planned(w))
  }

  ghost function CleanedSet(p: Pass, w: World, stop: Stop): set<string>
    requires Possible(p, w, stop)
  {
    match stop
    case InCleanup(c) => c
    case Completed => p.Deselected(w)
    case _ => {}
  }

  lemma OutcomeObjects(p: Pass, w: World, stop: Stop)
    requires Possible(p, w, stop)
    ensures Outcome(p, w, stop).objects
            == CleanObjects(SyncObjects(w.objects, p.d, SyncedSet(p, w, stop)),
                            p.d.source.name, p.prune, CleanedSet(p, w, stop))
    ensures SyncedSet(p, w, stop) <= p.selected
    ensures CleanedSet(p, w, stop) !! p.selected
    ensures CleanedSet(p, w, stop) <= ListedNamespaces(w.objects, p.d.source)
  {
    PlannedSelected(p, w);
    ListedAfterSync(w.objects, p.d, Elements(p.Planned(w)));
    var synced := SyncObjects(w.objects, p.d, SyncedSet(p, w, stop));
    CleanPointwise(synced, p.d.source.name, p.prune, {});
    SameObjects(CleanObjects(synced, p.d.source.name, p.prune, {}), synced);
    if stop == Early {
      SyncPointwise(w.objects, p.d, {});
      SameObjects(synced, w.objects);
    }
  }

  lemma OutcomePointwise(p: Pass, w: World, stop: Stop, k: NamespacedName)
    requires Possible(p, w, stop) && k.name == p.d.source.name
    ensures Lookup(Outcome(p, w, stop).objects, k) ==
      var o := if k.ns in SyncedSet(p, w, stop) then ConfigMaps.Synced(Lookup(w.objects, k), p.d) else Lookup(w.objects, k);
      if k.ns in CleanedSet(p, w, stop) then Cleaned(o, p.prune) else o
  {
    OutcomeObjects(p, w, stop);
    var synced := SyncObjects(w.objects, p.d, SyncedSet(p, w, stop));
    SyncPointwise(w.objects, p.d, SyncedSet(p, w, stop));
    CleanPointwise(synced, p.d.source.name, p.prune, CleanedSet(p, w, stop));
    assert Lookup(synced, k) == SyncedAt(w.objects, p.d, SyncedSet(p, w, stop), k);
    assert Lookup(Outcome(p, w, stop).objects, k)
        == CleanedAt(synced, p.d.source.name, p.prune, CleanedSet(p, w, stop), k);
  }

  /** Outside the selection a sync lists and unlists nothing. */
  lemma ListedOutside(p: Pass, w: World, ns: string)
    requires ns !in p.selected
    ensures ns in p.Deselected(w) <==> ListedAt(w.objects, p.d.source, ns)
  {
    PlannedSelected(p, w);
    ListedMembers(w.objects, p.d.source);
    ListedMembers(p.Synced(w), p.d.source);
    SyncPointwise(w.objects, p.d, Elements(p.Planned(w)));
    var k := NamespacedName(ns, p.d.source.name);
    assert Lookup(p.Synced(w), k) == SyncedAt(w.objects, p.d, Elements(p.Planned(w)), k);
  }

  /** Where an attempt leaves one target. */
  lemma OutcomeAt(r: Resource, p: Pass, w: World, stop: Stop, ns: string)
    requires Possible(p, w, stop) && p.d.source == r.source
    ensures var after := Outcome(p, w, stop).objects;
            && (UpToDateAt(r, w.objects, p.d.hash, ns) && ns in p.selected ==> UpToDateAt(r, after, p.d.hash, ns))
            && (ns in SyncedSet(p, w, stop) && Classify(Lookup(w.objects, Target(r, ns)), p.d) != Conflict ==>
                  UpToDateAt(r, after, p.d.hash, ns))
            && (ns !in SyncedSet(p, w, stop) && ns !in CleanedSet(p, w, stop) ==>
                  Lookup(after, Target(r, ns)) == Lookup(w.objects, Target(r, ns)))
  {
    OutcomeObjects(p, w, stop);
    var synced := SyncObjects(w.objects, p.d, SyncedSet(p, w, stop));
    SyncBringsUpToDate(r, w.objects, p.d, SyncedSet(p, w, stop), ns);
    CleanLeaves(r, synced, p.prune, CleanedSet(p, w, stop), ns);
  }
}

/** Which objects a run writes, and how often. */
module Writing {
  import opened Names
  import opened ConfigMaps
  import opened RolloutPlanner
  import opened Reconcile
  import opened Runs

  // ---------------------------------------------------------------------------
  // Confinement
  // ---------------------------------------------------------------------------

  /** Whatever the policy and wherever it stops, an attempt changes only objects that bear the
      source's name, in selected namespaces or where a target of this source is listed. */
  lemma ChangesAreConfined(p: Pass, w: World, stop: Stop, k: NamespacedName)
    requires Possible(p, w, stop)
    requires Lookup(Outcome(p, w, stop).objects, k) != Lookup(w.objects, k)
    ensures k.name == p.d.source.name
    ensures k.ns in p.selected || k.ns in ListedNamespaces(w.objects, p.d.source)
  {
    OutcomeObjects(p, w, stop);
    var planned, cleaned := SyncedSet(p, w, stop), CleanedSet(p, w, stop);
    var synced := SyncObjects(w.objects, p.d, planned);
    SyncPointwise(w.objects, p.d, planned);
    CleanPointwise(synced, p.d.source.name, p.prune, cleaned);
    assert Lookup(synced, k) == SyncedAt(w.objects, p.d, planned, k);
    assert Lookup(Outcome(p, w, stop).objects, k) == CleanedAt(synced, p.d.source.name, p.prune, cleaned, k);
  }

  /** Nothing but this resource's own progress changes in the planner. */
  lemma ProgressIsConfined(p: Pass, w: World, stop: Stop, id: NamespacedName)
    requires Possible(p, w, stop) && id != p.key
    ensures id in Outcome(p, w, stop).planner <==> id in w.planner
    ensures id in w.planner ==> Outcome(p, w, stop).planner[id] == w.planner[id]
  {
  }

  // ---------------------------------------------------------------------------
  // Which target is changed
  // ---------------------------------------------------------------------------

  /** A managed target that has its turn is changed exactly if its hash annotation differs,
      whatever its data, and counts as completed either way: drift is judged by the annotation. */
  lemma DriftIsJudgedByHash(r: Resource, p: Pass, w: World, stop: Stop, ns: string)
    requires Possible(p, w, stop) && p.d.source == r.source && ns in SyncedSet(p, w, stop)
    requires IsManaged(r, Lookup(w.objects, Target(r, ns)))
    ensures var o := w.objects[Target(r, ns)];
            var o' := Lookup(Outcome(p, w, stop).objects, Target(r, ns));
            && (o' == Some(o) <==> Read(o.annotations, HASH_ANNOTATION) == p.d.hash)
            && (o' == Some(o) || o' == Some(Written(p.d)))
            && ns in p.DoneAfter(w)
  {
    PlannedSelected(p, w);
    OutcomeObjects(p, w, stop);
    OutcomePointwise(p, w, stop, Target(r, ns));
    WrittenMarkers(p.d);
  }

  /** An unmanaged object of the source's name is changed by a reconcile exactly if the policy is
      to overwrite and it has its turn; then it becomes a copy of the source. */
  lemma UnmanagedChangedIff(p: Pass, w: World, stop: Stop, k: NamespacedName)
    requires Possible(p, w, stop) && k.name == p.d.source.name
    requires k in w.objects && !Managed(w.objects[k], p.d.source)
    ensures var o' := Lookup(Outcome(p, w, stop).objects, k);
            && (o' != Some(w.objects[k]) <==> p.d.policy == Overwrite && k.ns in SyncedSet(p, w, stop))
            && (o' != Some(w.objects[k]) ==> o' == Some(Written(p.d)))
  {
    OutcomeObjects(p, w, stop);
    OutcomePointwise(p, w, stop, k);
    ListedMembers(w.objects, p.d.source);
    assert k == NamespacedName(k.ns, p.d.source.name);
    WrittenMarkers(p.d);
  }

  predicate Labelled(o: ConfigMap) {
    Read(o.labels, MANAGED_LABEL) == "true"
  }

  /** An object that does not carry this source's annotation is changed by a reconcile exactly if it
      has its turn and either bears the managed label without the current hash, whatever the policy,
      or bears no label and the policy is to overwrite. */
  lemma ForeignChangedIff(p: Pass, w: World, stop: Stop, k: NamespacedName)
    requires Possible(p, w, stop) && k.name == p.d.source.name
    requires k in w.objects && Read(w.objects[k].annotations, SOURCE_ANNOTATION) != SourceId(p.d.source)
    ensures var o := w.objects[k];
            var o' := Lookup(Outcome(p, w, stop).objects, k);
            && (o' != Some(o) <==>
                  && k.ns in SyncedSet(p, w, stop)
                  && (if Labelled(o) then Read(o.annotations, HASH_ANNOTATION) != p.d.hash else p.d.policy == Overwrite))
            && (o' != Some(o) ==> o' == Some(Written(p.d)))
  {
    OutcomeObjects(p, w, stop);
    OutcomePointwise(p, w, stop, k);
    ListedMembers(w.objects, p.d.source);
    assert k == NamespacedName(k.ns, p.d.source.name);
    WrittenMarkers(p.d);
  }

  /** An object that carries this source's annotation is rewritten on its turn exactly if its hash
      annotation differs, under skip as well, and whether it is labelled or not. */
  lemma AnnotatedChangedIff(p: Pass, w: World, stop: Stop, k: NamespacedName)
    requires Possible(p, w, stop) && k.name == p.d.source.name && k.ns in SyncedSet(p, w, stop)
    requires k in w.objects && Read(w.objects[k].annotations, SOURCE_ANNOTATION) == SourceId(p.d.source)
    ensures var o := w.objects[k];
            Lookup(Outcome(p, w, stop).objects, k)
            == Some(if Read(o.annotations, HASH_ANNOTATION) == p.d.hash then o else Written(p.d))
  {
    OutcomeObjects(p, w, stop);
    OutcomePointwise(p, w, stop, k);
  }

  // ---------------------------------------------------------------------------
  // What a failing target blocks
  // ---------------------------------------------------------------------------

  ghost predicate NeedsWrite(p: Pass, w: World, i: nat)
    requires i < |p.Planned(w)|
  {
    Classify(Lookup(w.objects, NamespacedName(p.Planned(w)[i], p.d.source.name)), p.d) == Write
  }

  ghost predicate IsWritten(p: Pass, w: World, stop: Stop, i: nat)
    requires Possible(p, w, stop) && i < |p.Planned(w)|
  {
    Lookup(Outcome(p, w, stop).objects, NamespacedName(p.Planned(w)[i], p.d.source.name)) == Some(Written(p.d))
  }

  /** When the sync loop fails at its n-th target, a target that needs a write is written exactly
      if it comes before. */
  lemma WrittenIffBeforeFailure(p: Pass, w: World, n: nat, i: nat)
    requires Possible(p, w, AtTarget(n)) && i < |p.Planned(w)| && NeedsWrite(p, w, i)
    ensures IsWritten(p, w, AtTarget(n), i) <==> i < n
  {
    var planned := p.Planned(w);
    PlannedSelected(p, w);
    OutcomePointwise(p, w, AtTarget(n), NamespacedName(planned[i], p.d.source.name));
    assert planned[i] in Elements(planned[..n]) <==> i < n by {
      if i < n {
        assert planned[..n][i] == planned[i];
      }
    }
    WrittenMarkers(p.d);
  }

  /** So in this one attempt the failing target blocks no other target of the batch exactly if nothing
      after it needs a write. Module Blocking says what it blocks in later attempts. */
  lemma FailureBlocksNothingIff(p: Pass, w: World, n: nat)
    requires Possible(p, w, AtTarget(n))
    ensures (forall i: nat :: i < |p.Planned(w)| && i != n && NeedsWrite(p, w, i) ==> IsWritten(p, w, AtTarget(n), i))
            <==> (forall i: nat :: n < i < |p.Planned(w)| ==> !NeedsWrite(p, w, i))
  {
    forall i: nat | i < |p.Planned(w)| && NeedsWrite(p, w, i)
      ensures IsWritten(p, w, AtTarget(n), i) <==> i < n
    {
      WrittenIffBeforeFailure(p, w, n, i);
    }
  }

  // ---------------------------------------------------------------------------
  // Unmanaged objects under the skip policy
  // ---------------------------------------------------------------------------

  /** Every attempt of the run skips conflicts, and the environment leaves one object alone. */
  ghost predicate SkippingRun(r: Resource, ws: seq<World>, es: seq<Event>, k: NamespacedName) {
    && Run(r, ws, es)
    && (forall i :: 0 <= i < |es| && es[i].Attempt? ==> es[i].spec.policy == Skip)
    && (forall i :: 0 <= i < |es| && es[i].Environment? ==> Lookup(ws[i + 1].objects, k) == Lookup(ws[i].objects, k))
  }

  lemma SkipLeavesUnmanaged(r: Resource, w: World, e: Event, w': World, k: NamespacedName)
    requires Step(r, w, e, w') && !e.Environment? && (e.Attempt? ==> e.spec.policy == Skip)
    requires k in w.objects && !Managed(w.objects[k], r.source)
    ensures Lookup(w'.objects, k) == Lookup(w.objects, k)
  {
    ListedMembers(w.objects, r.source);
    assert k.name == r.source.name ==> k == NamespacedName(k.ns, r.source.name);
    match e {
      case Attempt(spec, selected, stop) =>
        if r.source in w.objects {
          var p := PassOf(r, spec, selected, w.objects);
          OutcomeObjects(p, w, stop);
          var planned, cleaned := SyncedSet(p, w, stop), CleanedSet(p, w, stop);
          var synced := SyncObjects(w.objects, p.d, planned);
          SyncPointwise(w.objects, p.d, planned);
          CleanPointwise(synced, p.d.source.name, p.prune, cleaned);
          assert Lookup(synced, k) == SyncedAt(w.objects, p.d, planned, k);
          assert Lookup(w'.objects, k) == CleanedAt(synced, p.d.source.name, p.prune, cleaned, k);
        }
      case Finalize(prune, cleaned) =>
        CleanPointwise(w.objects, r.source.name, prune, cleaned);
        assert Lookup(w'.objects, k) == CleanedAt(w.objects, r.source.name, prune, cleaned, k);
    }
  }

  /** With conflictPolicy=skip an unmanaged object stays exactly as it is through every run of
      reconciles, cleanups and finalizations. */
  lemma {:induction false} UnmanagedIsFrozen(r: Resource, ws: seq<World>, es: seq<Event>, k: NamespacedName, i: nat)
    requires SkippingRun(r, ws, es, k) && i < |ws|
    requires k in ws[0].objects && !Managed(ws[0].objects[k], r.source)
    ensures Lookup(ws[i].objects, k) == Lookup(ws[0].objects, k)
  {
    if i == 0 {
    } else {
      UnmanagedIsFrozen(r, ws, es, k, i - 1);
      assert Lookup(ws[i - 1].objects, k) == Some(ws[0].objects[k]);
      if !es[i - 1].Environment? {
        SkipLeavesUnmanaged(r, ws[i - 1], es[i - 1], ws[i], k);
      }
    }
  }

  // ---------------------------------------------------------------------------
  // How often a target is written
  // ---------------------------------------------------------------------------

  /** The namespaces an event upserts. */
  ghost function Upserts(r: Resource, w: World, e: Event): set<string> {
    match e
    case Attempt(spec, selected, stop) =>
      if r.source in w.objects && Possible(PassOf(r, spec, selected, w.objects), w, stop) then
        var p := PassOf(r, spec, selected, w.objects);
        Writes(w.objects, p.d, SyncedSet(p, w, stop))
      else {}
    case _ => {}
  }

  /** The writes that the reconciler logs are those: each namespace once. */
  lemma UpsertsAreLogged(r: Resource, spec: Spec, selected: set<string>, w: World, stop: Stop)
    requires r.source in w.objects && Possible(PassOf(r, spec, selected, w.objects), w, stop)
    ensures var p := PassOf(r, spec, selected, w.objects);
            var logged := p.Upserted(w, Turns(p, w, stop));
            NoDuplicates(logged) && Elements(logged) == Upserts(r, w, Attempt(spec, selected, stop))
  {
    var p := PassOf(r, spec, selected, w.objects);
    var n := Turns(p, w, stop);
    PlannedSelected(p, w);
    SelectAscending(p.Planned(w)[..n], Writes(w.objects, p.d, Elements(p.Planned(w))));
    AscendingNoDuplicates(p.Upserted(w, n));
    assert p.Planned(w)[..|p.Planned(w)|] == p.Planned(w);
    assert SyncedSet(p, w, stop) == Elements(p.Planned(w)[..n]);
  }

  ghost function UpsertCount(r: Resource, ws: seq<World>, es: seq<Event>, ns: string): nat
    requires |ws| == |es| + 1
  {
    if es == [] then 0
    else (if ns in Upserts(r, ws[0], es[0]) then 1 else 0) + UpsertCount(r, ws[1..], es[1..], ns)
  }

  /** While the run lasts the content to propagate has one hash, and the target stays selected. */
  ghost predicate SameContent(r: Resource, ws: seq<World>, es: seq<Event>, ns: string, hash: string)
    requires |ws| == |es| + 1
  {
    forall i :: 0 <= i < |es| ==> SameContentAt(r, ws[i], es[i], ns, hash)
  }

  ghost predicate SameContentAt(r: Resource, w: World, e: Event, ns: string, hash: string) {
    match e
    case Environment => true
    case Attempt(spec, selected, stop) =>
      ns in selected && (r.source in w.objects ==> DesiredOf(r, spec, w.objects).hash == hash)
    case Finalize(_, _) => false
  }

  /** A target that is up to date is not written, and stays up to date. */
  lemma UpToDateStays(r: Resource, w: World, e: Event, w': World, ns: string, hash: string)
    requires Step(r, w, e, w') && SameContentAt(r, w, e, ns, hash)
    requires ns != r.source.ns && UpToDateAt(r, w.objects, hash, ns)
    ensures UpToDateAt(r, w'.objects, hash, ns)
    ensures ns !in Upserts(r, w, e)
  {
    match e {
      case Environment =>
        assert LeavesManaged(r, w.objects, w'.objects, ns);
      case Attempt(spec, selected, stop) =>
        if r.source in w.objects {
          OutcomeAt(r, PassOf(r, spec, selected, w.objects), w, stop, ns);
        }
    }
  }

  /** A target that is written is up to date afterwards. */
  lemma UpsertBringsUpToDate(r: Resource, w: World, e: Event, w': World, ns: string, hash: string)
    requires Step(r, w, e, w') && SameContentAt(r, w, e, ns, hash)
    requires ns in Upserts(r, w, e)
    ensures UpToDateAt(r, w'.objects, hash, ns)
  {
    OutcomeAt(r, PassOf(r, e.spec, e.selected, w.objects), w, e.stop, ns);
  }

  /** At most one write per target and content, over any run: failures, restarts and changes of
      strategy, batch size or policy included. A target already up to date is never written. */
  lemma {:induction false} AtMostOneUpsert(r: Resource, ws: seq<World>, es: seq<Event>, ns: string, hash: string)
    requires Run(r, ws, es) && SameContent(r, ws, es, ns, hash) && ns != r.source.ns
    ensures UpsertCount(r, ws, es, ns) <= 1
    ensures UpToDateAt(r, ws[0].objects, hash, ns) ==> UpsertCount(r, ws, es, ns) == 0
    decreases |es|
  {
    if es == [] {
    } else {
      assert Step(r, ws[0], es[0], ws[1]) && SameContentAt(r, ws[0], es[0], ns, hash);
      AtMostOneUpsert(r, ws[1..], es[1..], ns, hash);
      if UpToDateAt(r, ws[0].objects, hash, ns) {
        UpToDateStays(r, ws[0], es[0], ws[1], ns, hash);
      } else if ns in Upserts(r, ws[0], es[0]) {
        UpsertBringsUpToDate(r, ws[0], es[0], ws[1], ns, hash);
      }
    }
  }

  /** One rolling reconcile upserts no more targets than the batch size. */
  lemma UpsertsFitTheBatch(r: Resource, w: World, spec: Spec, selected: set<string>, stop: Stop)
    requires spec.strategy == Rolling
    ensures |Upserts(r, w, Attempt(spec, selected, stop))| <= (if spec.batchSize < 1 then 1 else spec.batchSize)
  {
    if r.source in w.objects && Possible(PassOf(r, spec, selected, w.objects), w, stop) {
      var p := PassOf(r, spec, selected, w.objects);
      PlannedSelected(p, w);
      assert SyncedSet(p, w, stop) <= Elements(p.Planned(w));
      SubsetCount(Upserts(r, w, Attempt(spec, selected, stop)), Elements(p.Planned(w)));
    }
  }
}

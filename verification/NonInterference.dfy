/** Two ConfigPropagations whose keys and source names differ do not affect one another. */
module NonInterference {
  import opened Names
  import opened ConfigMaps
  import opened Reconcile
  import opened Runs
  import opened Writing

  /** The part of the world that a pass can see. */
  ghost predicate SameView(name: string, key: NamespacedName, w: World, w': World) {
    && (forall k: NamespacedName :: k.name == name ==> Lookup(w.objects, k) == Lookup(w'.objects, k))
    && (key in w.planner <==> key in w'.planner)
    && (key in w.planner ==> w.planner[key] == w'.planner[key])
  }

  lemma SamePlan(p: Pass, w: World, w': World)
    requires SameView(p.d.source.name, p.key, w, w')
    ensures p.DoneBefore(w) == p.DoneBefore(w') && p.Planned(w) == p.Planned(w')
    ensures p.Blocked(w) == p.Blocked(w') && p.DoneAfter(w) == p.DoneAfter(w')
    ensures p.Result(w) == p.Result(w')
  {
  }

  lemma SameDeselected(p: Pass, w: World, w': World)
    requires SameView(p.d.source.name, p.key, w, w')
    ensures p.Deselected(w) == p.Deselected(w')
  {
  }

  lemma SameSets(p: Pass, w: World, w': World, stop: Stop)
    requires SameView(p.d.source.name, p.key, w, w') && Possible(p, w, stop)
    ensures Possible(p, w', stop)
    ensures SyncedSet(p, w, stop) == SyncedSet(p, w', stop)
    ensures CleanedSet(p, w, stop) == CleanedSet(p, w', stop)
  {
    assert p.Planned(w) == p.Planned(w') by {
      SamePlan(p, w, w');
    }
    SameDeselected(p, w, w');
  }

  /** A pass does the same to its own objects and its own progress wherever it sees the same. */
  lemma SameEffect(p: Pass, w: World, w': World, stop: Stop)
    requires SameView(p.d.source.name, p.key, w, w') && Possible(p, w, stop)
    ensures Possible(p, w', stop)
    ensures SameView(p.d.source.name, p.key, Outcome(p, w, stop), Outcome(p, w', stop))
  {
    SameSets(p, w, w', stop);
    SamePlan(p, w, w');
    forall k: NamespacedName | k.name == p.d.source.name
      ensures Lookup(Outcome(p, w, stop).objects, k) == Lookup(Outcome(p, w', stop).objects, k)
    {
      OutcomePointwise(p, w, stop, k);
      OutcomePointwise(p, w', stop, k);
    }
  }

  /** A pass changes nothing that another pass sees. */
  lemma OutOfView(p: Pass, w: World, stop: Stop, name: string, key: NamespacedName)
    requires Possible(p, w, stop) && name != p.d.source.name && key != p.key
    ensures SameView(name, key, w, Outcome(p, w, stop))
  {
  }

  /** Two passes commute, wherever each of them stops. */
  lemma PassesCommute(p: Pass, q: Pass, w: World, stop: Stop, stop': Stop)
    requires p.key != q.key && p.d.source.name != q.d.source.name
    requires Possible(p, w, stop) && Possible(q, w, stop')
    ensures var wp, wq := Outcome(p, w, stop), Outcome(q, w, stop');
            && Possible(q, wp, stop') && Possible(p, wq, stop)
            && Outcome(q, wp, stop') == Outcome(p, wq, stop)
            && q.Result(wp) == q.Result(w) && p.Result(wq) == p.Result(w)
  {
    var wp, wq := Outcome(p, w, stop), Outcome(q, w, stop');
    OutOfView(p, w, stop, q.d.source.name, q.key);
    OutOfView(q, w, stop', p.d.source.name, p.key);
    SameEffect(q, w, wp, stop');
    SameEffect(p, w, wq, stop);
    SamePlan(q, w, wp);
    SamePlan(p, w, wq);
    OutOfView(q, wp, stop', p.d.source.name, p.key);
    OutOfView(p, wq, stop, q.d.source.name, q.key);
    SameWorld(p, q, w, wp, wq, stop, stop');
  }

  lemma SameWorld(p: Pass, q: Pass, w: World, wp: World, wq: World, stop: Stop, stop': Stop)
    requires p.key != q.key && p.d.source.name != q.d.source.name
    requires Possible(p, w, stop) && Possible(q, w, stop') && Possible(q, wp, stop') && Possible(p, wq, stop)
    requires wp == Outcome(p, w, stop) && wq == Outcome(q, w, stop')
    requires SameView(q.d.source.name, q.key, wq, Outcome(q, wp, stop'))
    requires SameView(q.d.source.name, q.key, wq, Outcome(p, wq, stop))
    requires SameView(p.d.source.name, p.key, wp, Outcome(p, wq, stop))
    requires SameView(p.d.source.name, p.key, wp, Outcome(q, wp, stop'))
    ensures Outcome(q, wp, stop') == Outcome(p, wq, stop)
  {
    var a, b := Outcome(q, wp, stop'), Outcome(p, wq, stop);
    forall k ensures Lookup(a.objects, k) == Lookup(b.objects, k) {
      if k.name != p.d.source.name && k.name != q.d.source.name {
        OutOfView(p, w, stop, k.name, q.key);
        OutOfView(q, wp, stop', k.name, p.key);
        OutOfView(q, w, stop', k.name, p.key);
        OutOfView(p, wq, stop, k.name, q.key);
      }
    }
    SameObjects(a.objects, b.objects);
    forall id ensures id in a.planner <==> id in b.planner
              ensures id in a.planner ==> a.planner[id] == b.planner[id]
    {
      if id != p.key && id != q.key {
        ProgressIsConfined(p, w, stop, id);
        ProgressIsConfined(q, wp, stop', id);
        ProgressIsConfined(q, w, stop', id);
        ProgressIsConfined(p, wq, stop, id);
      }
    }
    assert a.planner == b.planner;
  }

  /** What a reconcile reads and what it reports is the same in both worlds. */
  ghost predicate SameAnswer(r: Resource, spec: Spec, selected: set<string>, w: World, w': World) {
    && (r.source in w.objects <==> r.source in w'.objects)
    && (r.source in w.objects ==>
          var p := PassOf(r, spec, selected, w.objects);
          PassOf(r, spec, selected, w'.objects) == p && p.Result(w') == p.Result(w))
  }

  /** The diamond: two reconciles of different resources from one world, each stopping anywhere,
      can be completed by the other to one and the same world, and neither changes what the other
      reads and reports. */
  lemma ReconcilesCommute(r: Resource, spec: Spec, selected: set<string>, stop: Stop,
                          r': Resource, spec': Spec, selected': set<string>, stop': Stop,
                          w: World, wr: World, wr': World) returns (both: World)
    requires r.key != r'.key && r.source.name != r'.source.name
    requires Reconciles(r, spec, selected, w, stop, wr) && Reconciles(r', spec', selected', w, stop', wr')
    ensures Reconciles(r', spec', selected', wr, stop', both) && Reconciles(r, spec, selected, wr', stop, both)
    ensures SameAnswer(r', spec', selected', w, wr) && SameAnswer(r, spec, selected, w, wr')
  {
    InputsUnaffected(r, spec, selected, stop, r', w, wr);
    InputsUnaffected(r', spec', selected', stop', r, w, wr');
    if r.source !in w.objects {
      both := wr';
    } else if r'.source !in w.objects {
      both := wr;
    } else {
      var p, q := PassOf(r, spec, selected, w.objects), PassOf(r', spec', selected', w.objects);
      PassesCommute(p, q, w, stop, stop');
      both := Outcome(q, wr, stop');
    }
  }

  // ---------------------------------------------------------------------------
  // Sources of one name
  // ---------------------------------------------------------------------------

  /** What a sync writes bears the managed label, so every other sync takes it for managed. */
  lemma SyncedByOther(o: Option<ConfigMap>, a: Desired, b: Desired)
    ensures Synced(Synced(o, a), b)
            == if Classify(o, a) != Write then Synced(o, b)
               else Some(Written(if a.hash == b.hash then a else b))
  {
    WrittenMarkers(a);
  }

  /** Two contents may be synced in either order if, where both would write, they write the same, and
      where only one would, they have the same hash. */
  predicate SyncsCommute(o: Option<ConfigMap>, a: Desired, b: Desired) {
    if Classify(o, a) == Write && Classify(o, b) == Write then Written(a) == Written(b)
    else if Classify(o, a) == Write || Classify(o, b) == Write then a.hash == b.hash
    else true
  }

  lemma SyncsCommuteIff(o: Option<ConfigMap>, a: Desired, b: Desired)
    ensures Synced(Synced(o, a), b) == Synced(Synced(o, b), a) <==> SyncsCommute(o, a, b)
  {
    SyncedByOther(o, a, b);
    SyncedByOther(o, b, a);
    WrittenMarkers(a);
    WrittenMarkers(b);
  }

  /** Different source names are needed: for passes that share the name of their targets, wherever
      they stop, the order matters at a target that has its turn in both exactly unless the present
      object lets their contents commute. */
  lemma SharedNameCommutesIff(p: Pass, q: Pass, w: World, stop: Stop, stop': Stop, ns: string)
    requires p.key != q.key && p.d.source.name == q.d.source.name
    requires Possible(p, w, stop) && ns in SyncedSet(p, w, stop)
    requires Possible(q, w, stop') && ns in SyncedSet(q, w, stop')
    requires Possible(q, Outcome(p, w, stop), stop') && Possible(p, Outcome(q, w, stop'), stop)
    ensures var k := NamespacedName(ns, p.d.source.name);
            var wp, wq := Outcome(p, w, stop), Outcome(q, w, stop');
            Lookup(Outcome(q, wp, stop').objects, k) == Lookup(Outcome(p, wq, stop).objects, k)
            <==> SyncsCommute(Lookup(w.objects, k), p.d, q.d)
  {
    BothSynced(p, q, w, stop, stop', ns);
    BothSynced(q, p, w, stop', stop, ns);
    SyncsCommuteIff(Lookup(w.objects, NamespacedName(ns, p.d.source.name)), p.d, q.d);
  }

  lemma BothSynced(p: Pass, q: Pass, w: World, stop: Stop, stop': Stop, ns: string)
    requires p.key != q.key && p.d.source.name == q.d.source.name
    requires Possible(p, w, stop) && ns in SyncedSet(p, w, stop)
    requires Possible(q, w, stop') && ns in SyncedSet(q, w, stop') && Possible(q, Outcome(p, w, stop), stop')
    ensures var k := NamespacedName(ns, p.d.source.name);
            Lookup(Outcome(q, Outcome(p, w, stop), stop').objects, k)
            == ConfigMaps.Synced(ConfigMaps.Synced(Lookup(w.objects, k), p.d), q.d)
  {
    TurnIsSynced(p, w, stop, ns);
    SamePlanned(p, q, w, stop);
    TurnIsSynced(q, Outcome(p, w, stop), stop', ns);
  }

  lemma TurnIsSynced(p: Pass, w: World, stop: Stop, ns: string)
    requires Possible(p, w, stop) && ns in SyncedSet(p, w, stop)
    ensures var k := NamespacedName(ns, p.d.source.name);
            Lookup(Outcome(p, w, stop).objects, k) == ConfigMaps.Synced(Lookup(w.objects, k), p.d)
  {
    OutcomeObjects(p, w, stop);
    OutcomePointwise(p, w, stop, NamespacedName(ns, p.d.source.name));
  }

  /** What a pass plans depends on its own progress only. */
  lemma SamePlanned(p: Pass, q: Pass, w: World, stop: Stop)
    requires p.key != q.key && Possible(p, w, stop)
    ensures q.Planned(Outcome(p, w, stop)) == q.Planned(w)
  {
    ProgressIsConfined(p, w, stop, q.key);
    assert q.DoneBefore(Outcome(p, w, stop)) == q.DoneBefore(w);
  }

  /** One resource syncs a target that the other deselects, and finds listed for its own source. The
      order does not matter exactly if the target needs the write and can still be had after it has
      been cleaned, or needs none and is detached and then skipped. */
  lemma HandoverCommutesIff(p: Pass, q: Pass, w: World, stop: Stop, ns: string)
    requires p.key != q.key && p.d.source.name == q.d.source.name && p.d.source.ns != q.d.source.ns
    requires Possible(p, w, stop) && ns in SyncedSet(p, w, stop)
    requires Possible(p, Outcome(q, w, Completed), stop)
    requires ns !in q.selected && ListedAt(w.objects, q.d.source, ns)
    ensures var k := NamespacedName(ns, p.d.source.name);
            var wp, wq := Outcome(p, w, stop), Outcome(q, w, Completed);
            Lookup(Outcome(q, wp, Completed).objects, k) == Lookup(Outcome(p, wq, stop).objects, k)
            <==> if Read(w.objects[k].annotations, HASH_ANNOTATION) != p.d.hash then q.prune || p.d.policy == Overwrite
                 else !q.prune && p.d.policy == Skip
  {
    var k := NamespacedName(ns, p.d.source.name);
    var wp, wq := Outcome(p, w, stop), Outcome(q, w, Completed);
    TurnIsSynced(p, w, stop, ns);
    UnselectedAt(q, wp, ns);
    UnselectedAt(q, w, ns);
    SamePlanned(q, p, w, Completed);
    TurnIsSynced(p, wq, stop, ns);
    Handover(w.objects[k], p.d, q.d.source, q.prune);
  }

  /** A whole reconcile cleans what is listed and not selected, and leaves other unselected targets. */
  lemma UnselectedAt(q: Pass, w: World, ns: string)
    requires ns !in q.selected
    ensures var k := NamespacedName(ns, q.d.source.name);
            Lookup(Outcome(q, w, Completed).objects, k)
            == CleanedIfListed(Lookup(w.objects, k), q.d.source, q.prune)
  {
    OutcomeObjects(q, w, Completed);
    OutcomePointwise(q, w, Completed, NamespacedName(ns, q.d.source.name));
    ListedOutside(q, w, ns);
  }

  function CleanedIfListed(o: Option<ConfigMap>, source: NamespacedName, prune: bool): Option<ConfigMap> {
    if o.Some? && Listed(o.value, source) then Cleaned(o, prune) else o
  }

  lemma Handover(o: ConfigMap, d: Desired, source: NamespacedName, prune: bool)
    requires Listed(o, source) && source.name == d.source.name && source.ns != d.source.ns
    ensures CleanedIfListed(Synced(Some(o), d), source, prune) == Synced(CleanedIfListed(Some(o), source, prune), d)
            <==> if Read(o.annotations, HASH_ANNOTATION) != d.hash then prune || d.policy == Overwrite
                 else !prune && d.policy == Skip
  {
    SourceIdsDiffer(source, d.source);
    WrittenMarkers(d);
    DetachedIsUnmanaged(o, d.source);
    assert MANAGED_LABEL !in Detached(o).labels;
  }

  lemma InputsUnaffected(r: Resource, spec: Spec, selected: set<string>, stop: Stop, other: Resource, w: World, w': World)
    requires r.key != other.key && r.source.name != other.source.name
    requires Reconciles(r, spec, selected, w, stop, w')
    ensures Lookup(w'.objects, other.source) == Lookup(w.objects, other.source)
  {
  }
}

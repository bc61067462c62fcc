/** One reconcile of a ConfigPropagation, as a function of the cluster, the planner and the
    point at which it stops. */
module Reconcile {
  import opened Names
  import opened HashData
  import opened ConfigMaps
  import opened RolloutPlanner

  /** What stays fixed over the life of a ConfigPropagation. The target objects bear the name of
      the source; the digest is the hash function in use. */
  datatype Resource = Resource(key: NamespacedName, source: NamespacedName, digest: Digest)

  /** What a user may edit, after defaulting and validation. */
  datatype Spec = Spec(dataKeys: seq<string>, strategy: Strategy, batchSize: int32, policy: ConflictPolicy, prune: bool)

  datatype World = World(objects: Objects, planner: Progresses)

  datatype Reason = ConflictPolicySkip | PendingRollout | PendingSync

  datatype OutOfSyncItem = OutOfSyncItem(namespace: string, reason: Reason)

  datatype RolloutResult = RolloutResult(
    planned: seq<string>, totalTargets: nat, completedCount: nat, outOfSync: seq<OutOfSyncItem>)

  function Items(namespaces: seq<string>, reason: Reason): seq<OutOfSyncItem> {
    if namespaces == [] then [] else
      var n := |namespaces| - 1;
      Items(namespaces[..n], reason) + [OutOfSyncItem(namespaces[n], reason)]
  }

  /** The part of the source data that is propagated. */
  function Effective(data: StringMap, keys: seq<string>): StringMap {
    if keys == [] then data else map k | k in keys && k in data :: data[k]
  }

  /** The entries of the source that the spec picks: all of them if it lists no keys. */
  ghost predicate IsEffective(source: StringMap, keys: seq<string>, effective: StringMap) {
    && (forall k :: k in effective <==> k in source && (keys == [] || k in keys))
    && (forall k :: k in effective ==> effective[k] == source[k])
  }

  lemma EffectiveIsEffective(source: StringMap, keys: seq<string>)
    ensures IsEffective(source, keys, Effective(source, keys))
    ensures forall e :: IsEffective(source, keys, e) ==> e == Effective(source, keys)
  {
  }

  // ---------------------------------------------------------------------------
  // What a reconcile intends
  // ---------------------------------------------------------------------------

  /** The namespaces whose target may not be touched. */
  function Conflicts(objects: Objects, d: Desired, namespaces: set<string>): set<string> {
    set ns | ns in namespaces && Classify(Lookup(objects, NamespacedName(ns, d.source.name)), d) == Conflict
  }

  /** The namespaces whose target a sync pass writes. */
  function Writes(objects: Objects, d: Desired, namespaces: set<string>): set<string> {
    set ns | ns in namespaces && Classify(Lookup(objects, NamespacedName(ns, d.source.name)), d) == Write
  }

  /** The inputs of one reconcile, once the source and the selection have been read. */
  datatype Pass = Pass(
    key: NamespacedName, d: Desired, strategy: Strategy, batchSize: int32, prune: bool, selected: set<string>)
  {
    /** Targets recorded as completed before the batch is worked on. */
    function DoneBefore(w: World): set<string> {
      CompletedFor(w.planner, key, d.hash) * selected
    }

    ghost function Planned(w: World): seq<string> {
      Batch(strategy, batchSize, DoneBefore(w), selected)
    }

    /** Planned targets that are skipped. */
    ghost function Blocked(w: World): set<string> {
      Conflicts(w.objects, d, Elements(Planned(w)))
    }

    /** The targets reported as completed by a reconcile that succeeds. */
    ghost function DoneAfter(w: World): set<string> {
      var now := Elements(Planned(w)) - Blocked(w);
      if strategy == Immediate then now else DoneBefore(w) + now
    }

    ghost function Result(w: World): RolloutResult {
      RolloutResult(
        Planned(w), |selected|, |DoneAfter(w)|,
        Items(SortSet(Blocked(w)), ConflictPolicySkip)
        + Items(SortSet(selected - DoneAfter(w) - Blocked(w)), if strategy == Rolling then PendingRollout else PendingSync))
    }

    /** The namespaces written while the first n planned targets are synced, in order. */
    ghost function Upserted(w: World, n: nat): seq<string>
      requires n <= |Planned(w)|
    {
      Select(Planned(w)[..n], Writes(w.objects, d, Elements(Planned(w))))
    }

    ghost function Synced(w: World): Objects {
      SyncObjects(w.objects, d, Elements(Planned(w)))
    }

    ghost function Deselected(w: World): set<string> {
      ListedNamespaces(Synced(w), d.source) - selected
    }

    function PlannerAfterPlan(w: World): Progresses {
      AfterPlan(w.planner, key, d.hash, strategy, selected)
    }

    ghost function PlannerAfterSync(w: World): Progresses {
      if strategy == Immediate then w.planner - {key} else w.planner[key := Progress(d.hash, DoneAfter(w))]
    }
  }

  ghost function DesiredOf(r: Resource, spec: Spec, objects: Objects): Desired
    requires r.source in objects
  {
    var data := Effective(objects[r.source].data, spec.dataKeys);
    Desired(r.source, data, HashOf(r.digest, data), spec.policy)
  }

  ghost function PassOf(r: Resource, spec: Spec, selected: set<string>, objects: Objects): Pass
    requires r.source in objects
  {
    Pass(r.key, DesiredOf(r, spec, objects), spec.strategy, spec.batchSize, spec.prune, selected)
  }

  // ---------------------------------------------------------------------------
  // What a reconcile does, up to where it stops
  // ---------------------------------------------------------------------------

  /** Early: a read failed before anything was planned. AtTarget(n): the sync loop failed after
      n targets. InCleanup(d): listing or cleaning failed after the namespaces in d. */
  datatype Stop = Early | AtTarget(n: nat) | InCleanup(cleaned: set<string>) | Completed

  ghost predicate Possible(p: Pass, w: World, stop: Stop) {
    match stop
    case Early => true
    case AtTarget(n) => n < |p.Planned(w)|
    case InCleanup(c) => c == {} || c < p.Deselected(w)
    case Completed => true
  }

  /** How many planned targets have had their turn. */
  ghost function Turns(p: Pass, w: World, stop: Stop): (n: nat)
    requires Possible(p, w, stop)
    ensures n <= |p.Planned(w)|
  {
    match stop
    case Early => 0
    case AtTarget(n) => n
    case _ => |p.Planned(w)|
  }

  function TargetsIn(namespaces: seq<string>, name: string): seq<NamespacedName> {
    if namespaces == [] then [] else
      var n := |namespaces| - 1;
      TargetsIn(namespaces[..n], name) + [NamespacedName(namespaces[n], name)]
  }

  ghost function Outcome(p: Pass, w: World, stop: Stop): World
    requires Possible(p, w, stop)
  {
    match stop
    case Early => w
    case AtTarget(n) => World(SyncObjects(w.objects, p.d, Elements(p.Planned(w)[..n])), p.PlannerAfterPlan(w))
    case InCleanup(c) => World(CleanObjects(p.Synced(w), p.d.source.name, p.prune, c), p.PlannerAfterSync(w))
    case Completed => World(CleanObjects(p.Synced(w), p.d.source.name, p.prune, p.Deselected(w)), p.PlannerAfterSync(w))
  }

  /** One reconcile of a resource, the reads included: without a source it stops early. */
  ghost predicate Reconciles(r: Resource, spec: Spec, selected: set<string>, w: World, stop: Stop, w': World) {
    if r.source in w.objects then
      var p := PassOf(r, spec, selected, w.objects);
      Possible(p, w, stop) && w' == Outcome(p, w, stop)
    else
      stop == Early && w' == w
  }

  /** Deleting the resource cleans up as if nothing were selected, and leaves the planner alone. */
  function Finalized(source: NamespacedName, prune: bool, w: World, cleaned: set<string>): World {
    World(CleanObjects(w.objects, source.name, prune, cleaned), w.planner)
  }

  // ---------------------------------------------------------------------------
  // Facts about batches
  // ---------------------------------------------------------------------------

  lemma PlannedSelected(p: Pass, w: World)
    ensures Ascending(p.Planned(w)) && NoDuplicates(p.Planned(w)) && |Elements(p.Planned(w))| == |p.Planned(w)|
    ensures Elements(p.Planned(w)) <= p.selected
    ensures p.strategy == Immediate ==> Elements(p.Planned(w)) == p.selected
    ensures p.strategy == Rolling ==>
      Elements(p.Planned(w)) !! p.DoneBefore(w) && |p.Planned(w)| <= Window(p.batchSize)
  {
    if p.strategy == Rolling {
      BatchIsFirstPending(p.batchSize, p.DoneBefore(w), p.selected);
    }
    AscendingNoDuplicates(p.Planned(w));
  }

  /** Marking after planning leaves exactly the completed set that is reported. */
  lemma MarkAfterPlan(p: Pass, w: World)
    requires p.strategy == Rolling
    ensures AfterMark(p.PlannerAfterPlan(w), p.key, p.d.hash, Elements(p.Planned(w)) - p.Blocked(w))
            == p.PlannerAfterSync(w)
    ensures CompletedFor(p.PlannerAfterSync(w), p.key, p.d.hash) == p.DoneAfter(w)
  {
    var before, now := p.DoneBefore(w), Elements(p.Planned(w)) - p.Blocked(w);
    MarkTwice(w.planner, p.key, p.d.hash, before, now);
  }

  lemma MarkTwice(planner: Progresses, key: NamespacedName, hash: string, before: set<string>, now: set<string>)
    ensures AfterMark(planner[key := Progress(hash, before)], key, hash, now)
            == planner[key := Progress(hash, before + now)]
  {
    if now == {} {
      assert before + now == before;
    }
  }

  // ---------------------------------------------------------------------------
  // Conservation
  // ---------------------------------------------------------------------------

  function Namespaces(items: seq<OutOfSyncItem>): seq<string> {
    if items == [] then [] else
      var n := |items| - 1;
      Namespaces(items[..n]) + [items[n].namespace]
  }

  lemma {:induction false} NamespacesOfItems(s: seq<string>, reason: Reason)
    ensures Namespaces(Items(s, reason)) == s
  {
    if s == [] {
    } else {
      var n := |s| - 1;
      NamespacesOfItems(s[..n], reason);
      var items := Items(s, reason);
      assert items[..|items| - 1] == Items(s[..n], reason);
      assert s == s[..n] + [s[n]];
    }
  }

  lemma {:induction false} NamespacesConcat(a: seq<OutOfSyncItem>, b: seq<OutOfSyncItem>)
    ensures Namespaces(a + b) == Namespaces(a) + Namespaces(b)
    ensures |Namespaces(a)| == |a|
  {
    if b == [] {
      assert a + b == a;
      if a != [] {
        NamespacesConcat(a[..|a| - 1], []);
      }
    } else {
      assert (a + b)[..|a + b| - 1] == a + b[..|b| - 1];
      NamespacesConcat(a, b[..|b| - 1]);
    }
  }

  lemma ItemsSplit(all: set<string>, conflicts: set<string>, reasonA: Reason, reasonB: Reason)
    requires conflicts <= all
    ensures var outOfSync := Namespaces(Items(SortSet(conflicts), reasonA) + Items(SortSet(all - conflicts), reasonB));
            NoDuplicates(outOfSync) && Elements(outOfSync) == all
  {
    NamespacesOfItems(SortSet(conflicts), reasonA);
    NamespacesOfItems(SortSet(all - conflicts), reasonB);
    NamespacesConcat(Items(SortSet(conflicts), reasonA), Items(SortSet(all - conflicts), reasonB));
    AscendingNoDuplicates(SortSet(conflicts));
    AscendingNoDuplicates(SortSet(all - conflicts));
    ConcatNoDuplicates(SortSet(conflicts), SortSet(all - conflicts));
  }

  /** What is done was selected, and no conflict is done. */
  lemma DoneAfterSelected(p: Pass, w: World)
    ensures p.DoneAfter(w) <= p.selected
    ensures p.Blocked(w) <= p.selected - p.DoneAfter(w)
  {
    PlannedSelected(p, w);
  }

  /** The conflicts of the batch, then the pending targets that are neither done nor conflicts. */
  lemma OutOfSyncNamespaces(p: Pass, w: World)
    ensures var outOfSync := Namespaces(p.Result(w).outOfSync);
            NoDuplicates(outOfSync) && Elements(outOfSync) == p.selected - p.DoneAfter(w)
  {
    DoneAfterSelected(p, w);
    ItemsSplit(p.selected - p.DoneAfter(w), p.Blocked(w), ConflictPolicySkip,
               if p.strategy == Rolling then PendingRollout else PendingSync);
  }

  /** After a reconcile that succeeds, the completed set and the out-of-sync namespaces split the
      selected targets without overlap or repetition. */
  lemma Conservation(p: Pass, w: World)
    ensures var result := p.Result(w);
            var outOfSync := Namespaces(result.outOfSync);
            && NoDuplicates(outOfSync)
            && p.DoneAfter(w) !! Elements(outOfSync)
            && p.DoneAfter(w) + Elements(outOfSync) == p.selected
            && result.completedCount == |p.DoneAfter(w)|
            && result.completedCount + |result.outOfSync| == result.totalTargets == |p.selected|
            && (result.outOfSync == [] <==> p.DoneAfter(w) == p.selected)
            && (result.outOfSync == [] <==> result.completedCount == result.totalTargets)
  {
    OutOfSyncNamespaces(p, w);
    DoneAfterSelected(p, w);
    NamespacesConcat(p.Result(w).outOfSync, []);
    CountSplit(p.selected, p.DoneAfter(w), Namespaces(p.Result(w).outOfSync));
  }

  lemma CountSplit(all: set<string>, part: set<string>, rest: seq<string>)
    requires part <= all && NoDuplicates(rest) && Elements(rest) == all - part
    ensures |part| + |rest| == |all|
    ensures part + Elements(rest) == all
    ensures rest == [] <==> part == all
  {
    ElementsCount(rest);
    assert all == part + (all - part);
    if rest != [] {
      assert rest[0] in Elements(rest);
    }
  }

  lemma ConcatNoDuplicates(a: seq<string>, b: seq<string>)
    requires NoDuplicates(a) && NoDuplicates(b) && Elements(a) !! Elements(b)
    ensures NoDuplicates(a + b)
  {
    forall i, j | 0 <= i < j < |a + b| ensures (a + b)[i] != (a + b)[j] {
      if i < |a| <= j {
        assert a[i] in Elements(a) && b[j - |a|] in Elements(b);
      }
    }
  }
}

/** The reconciler: the loops that drive the client and the planner. Each method is proved to
    do what the functions of module Reconcile say, up to wherever a failing call stops it. */
module Reconciler {
  import opened Names
  import opened HashData
  import opened ConfigMaps
  import opened RolloutPlanner
  import opened Cluster
  import opened Reconcile
  import opened Promises

  datatype Answer = Success(result: RolloutResult) | Failure

  class Reconciler {
    const client: Client
    const planner: Planner

    constructor (client: Client)
      ensures this.client == client
      ensures fresh(planner) && planner.Valid() && planner.owned == {} && planner.progresses == map[]
    {
      this.client := client;
      planner := new Planner();
    }

    ghost predicate Valid()
      reads this, planner, planner.owned
    {
      planner.Valid()
    }

    ghost function World(): World
      reads this, client, planner
    {
      Reconcile.World(client.objects, planner.progresses)
    }

    static method ComputeEffective(source: StringMap, selectedKeys: seq<string>) returns (effective: StringMap)
      ensures IsEffective(source, selectedKeys, effective) && effective == Effective(source, selectedKeys)
    {
      effective := map[];
      if |selectedKeys| == 0 {
        var todo := source.Keys;
        while todo != {}
          invariant todo <= source.Keys
          invariant effective == Restrict(source, source.Keys - todo)
          decreases todo
        {
          var key :| key in todo;
          todo := todo - {key};
          effective := effective[key := source[key]];
        }
        return;
      }
      for i := 0 to |selectedKeys|
        invariant effective == Restrict(source, Elements(selectedKeys[..i]))
      {
        if selectedKeys[i] in source {
          effective := effective[selectedKeys[i] := source[selectedKeys[i]]];
        }
        assert Elements(selectedKeys[..i + 1]) == Elements(selectedKeys[..i]) + {selectedKeys[i]};
      }
      assert selectedKeys[..|selectedKeys|] == selectedKeys;
    }

    /** Brings one planned target to the desired content. */
    method SyncTarget(namespace: string, d: Desired) returns (ok: bool, conflict: bool)
      modifies client`objects, client`upserted
      ensures client.healthy ==> ok
      ensures client.objects
              == if ok then SyncObjects(old(client.objects), d, {namespace}) else old(client.objects)
      ensures var k := NamespacedName(namespace, d.source.name);
              client.upserted == old(client.upserted)
                                 + if ok && Classify(Lookup(old(client.objects), k), d) == Write then [k] else []
      ensures ok ==>
        (conflict <==> Classify(Lookup(old(client.objects), NamespacedName(namespace, d.source.name)), d) == Conflict)
    {
      var k := NamespacedName(namespace, d.source.name);
      var read, target := client.GetTargetConfigMap(k);
      if !read {
        return false, false;
      }
      var managed := false;
      if target.Some? {
        if Read(target.value.labels, MANAGED_LABEL) == "true" {
          managed := true;
        }
        if Read(target.value.annotations, SOURCE_ANNOTATION) == SourceId(d.source) {
          managed := true;
        }
      }
      assert target.Some? ==> managed == Managed(target.value, d.source);
      if target.Some? && !managed && d.policy == Skip {
        SyncOne(client.objects, d, namespace);
        return true, true;
      }
      if target.Some? && managed && Read(target.value.annotations, HASH_ANNOTATION) == d.hash {
        SyncOne(client.objects, d, namespace);
        return true, false;
      }
      SyncOne(client.objects, d, namespace);
      ok := client.UpsertConfigMap(k, d.data, DesiredLabels(), DesiredAnnotations(d));
      conflict := false;
    }

    /** Syncs a list of targets in order, up to the first call that fails. A target listed twice is
        written once. */
    method SyncTargets(planned: seq<string>, d: Desired)
      returns (ok: bool, completed: seq<string>, outOfSync: seq<OutOfSyncItem>, ghost reached: nat)
      modifies client`objects, client`upserted
      ensures reached <= |planned| && (ok <==> reached == |planned|)
      ensures client.healthy ==> ok
      ensures !ok ==> client.objects == SyncObjects(old(client.objects), d, Elements(planned[..reached]))
      ensures ok ==> client.objects == SyncObjects(old(client.objects), d, Elements(planned))
      ensures client.upserted
              == old(client.upserted)
                 + TargetsIn(Firsts(Select(planned[..reached], Writes(old(client.objects), d, Elements(planned)))),
                             d.source.name)
      ensures ok ==>
        var conflicts := Conflicts(old(client.objects), d, Elements(planned));
        && completed == Select(planned, Elements(planned) - conflicts)
        && outOfSync == Items(Select(planned, conflicts), ConflictPolicySkip)
    {
      ok, completed, outOfSync, reached := true, [], [], 0;
      ghost var conflicts := Conflicts(client.objects, d, Elements(planned));
      ghost var writes := Writes(client.objects, d, Elements(planned));
      SyncNone(client.objects, d);
      for i := 0 to |planned|
        invariant reached == i
        invariant client.objects == SyncObjects(old(client.objects), d, Elements(planned[..i]))
        invariant client.upserted == old(client.upserted) + TargetsIn(Firsts(Select(planned[..i], writes)), d.source.name)
        invariant completed == Select(planned[..i], Elements(planned) - conflicts)
        invariant outOfSync == Items(Select(planned[..i], conflicts), ConflictPolicySkip)
      {
        var namespace := planned[i];
        SyncMore(old(client.objects), d, planned, i);
        LogMore(old(client.upserted), planned, writes, i, d.source.name);
        assert namespace in writes && namespace !in planned[..i]
          <==> Classify(Lookup(client.objects, NamespacedName(namespace, d.source.name)), d) == Write;
        var synced, conflict := SyncTarget(namespace, d);
        if !synced {
          return false, completed, outOfSync, i;
        }
        assert conflict <==> namespace in conflicts;
        SelectNext(planned, conflicts, i);
        SelectNext(planned, Elements(planned) - conflicts, i);
        ItemsNext(Select(planned[..i], conflicts), namespace, ConflictPolicySkip);
        if conflict {
          outOfSync := outOfSync + [OutOfSyncItem(namespace, ConflictPolicySkip)];
        } else {
          completed := completed + [namespace];
        }
        reached := i + 1;
      }
      assert planned[..|planned|] == planned;
    }

    /** Reports every target that is neither completed nor already reported. */
    static method ReportPending(targets: seq<string>, completed: set<string>, reported: set<string>, reason: Reason)
      returns (items: seq<OutOfSyncItem>)
      requires Ascending(targets)
      ensures items == Items(SortSet(Elements(targets) - completed - reported), reason)
    {
      items := [];
      ghost var pending := Elements(targets) - completed - reported;
      for i := 0 to |targets|
        invariant items == Items(Select(targets[..i], pending), reason)
      {
        SelectNext(targets, pending, i);
        ItemsNext(Select(targets[..i], pending), targets[i], reason);
        if targets[i] in completed {
          continue;
        }
        if targets[i] in reported {
          continue;
        }
        items := items + [OutOfSyncItem(targets[i], reason)];
      }
      assert targets[..|targets|] == targets;
      SelectIsSortSet(targets, pending);
      assert Elements(targets) * pending == pending;
    }

    /** Prunes or detaches one deselected target. */
    method CleanTarget(source: NamespacedName, prune: bool, namespace: string) returns (ok: bool)
      modifies client`objects
      ensures client.healthy ==> ok
      ensures client.objects
              == if ok then CleanObjects(old(client.objects), source.name, prune, {namespace}) else old(client.objects)
    {
      var k := NamespacedName(namespace, source.name);
      CleanOne(client.objects, source.name, prune, namespace);
      if prune {
        ok := client.DeleteConfigMap(k);
        return;
      }
      var read, target := client.GetTargetConfigMap(k);
      if !read {
        return false;
      }
      ok := true;
      if target.Some? {
        var labels, annotations := target.value.labels, target.value.annotations;
        labels := labels - {MANAGED_LABEL};
        annotations := annotations - {SOURCE_ANNOTATION};
        annotations := annotations - {HASH_ANNOTATION};
        ok := client.UpdateConfigMapMetadata(k, labels, annotations);
      }
    }

    method CleanupDeselected(source: NamespacedName, prune: bool, selected: seq<string>)
      returns (ok: bool, ghost cleaned: set<string>)
      modifies client`objects
      ensures client.healthy ==> ok
      ensures var deselected := ListedNamespaces(old(client.objects), source) - Elements(selected);
              if ok then cleaned == deselected else cleaned == {} || cleaned < deselected
      ensures client.objects == CleanObjects(old(client.objects), source.name, prune, cleaned)
    {
      cleaned := {};
      CleanNone(client.objects, source.name, prune);
      var listing := client.ListManagedTargetNamespaces(source);
      if listing.None? {
        return false, {};
      }
      var managed := listing.value;
      ghost var deselected := Elements(managed) - Elements(selected);
      for i := 0 to |managed|
        invariant cleaned == Elements(managed[..i]) - Elements(selected)
        invariant client.objects == CleanObjects(old(client.objects), source.name, prune, cleaned)
      {
        assert Elements(managed[..i + 1]) == Elements(managed[..i]) + {managed[i]};
        if managed[i] in selected {
          continue;
        }
        CleanMore(old(client.objects), source.name, prune, cleaned, managed[i]);
        assert managed[i] in deselected && managed[i] !in cleaned;
        var done := CleanTarget(source, prune, managed[i]);
        if !done {
          return false, cleaned;
        }
        cleaned := cleaned + {managed[i]};
      }
      assert managed[..|managed|] == managed;
      ok := true;
    }

    /** Reads the source and the selection and works out what every target should hold. */
    method Intend(r: Resource, spec: Spec) returns (ok: bool, d: Desired, targets: seq<string>)
      requires NoDuplicates(client.selected)
      ensures ok ==> r.source in client.objects && d == DesiredOf(r, spec, client.objects)
      ensures ok ==> targets == SortSet(Elements(client.selected))
      ensures client.healthy && r.source in client.objects ==> ok
    {
      ok, d, targets := false, Desired(r.source, map[], "", spec.policy), [];
      var source := client.GetSourceConfigMap(r.source);
      if source.None? {
        return;
      }
      var effective := ComputeEffective(source.value, spec.dataKeys);
      var listing := client.ListNamespacesBySelector();
      if listing.None? {
        return;
      }
      SortIsSortSet(listing.value);
      targets := Sort(listing.value);
      var hash := ComputeHash(r.digest, effective);
      d := Desired(r.source, effective, hash, spec.policy);
      ok := true;
    }

    /** Asks the planner for the next batch and syncs it. */
    method PlanAndSync(p: Pass, targets: seq<string>)
      returns (ok: bool, planned: seq<string>, completed: seq<string>, conflicts: seq<OutOfSyncItem>, ghost reached: nat)
      requires Valid() && targets == SortSet(p.selected)
      modifies client`objects, client`upserted, planner, planner.owned
      ensures Valid()
      ensures forall o :: o in planner.owned ==> o in old(planner.owned) || fresh(o)
      ensures planned == p.Planned(old(World()))
      ensures reached <= |planned| && (ok <==> reached == |planned|) && (client.healthy ==> ok)
      ensures planner.progresses == p.PlannerAfterPlan(old(World()))
      ensures client.upserted == old(client.upserted) + TargetsIn(p.Upserted(old(World()), reached), p.d.source.name)
      ensures !ok ==> client.objects == SyncObjects(old(client.objects), p.d, Elements(planned[..reached]))
      ensures ok ==>
        && client.objects == p.Synced(old(World()))
        && NoDuplicates(completed) && Elements(completed) == Elements(planned) - p.Blocked(old(World()))
        && conflicts == Items(SortSet(p.Blocked(old(World()))), ConflictPolicySkip)
    {
      ghost var w := World();
      planned := PlanBatch(p, targets);
      ok, completed, conflicts, reached := SyncBatch(p, planned, w);
    }

    method PlanBatch(p: Pass, targets: seq<string>) returns (planned: seq<string>)
      requires Valid() && targets == SortSet(p.selected)
      modifies planner, planner.owned
      ensures Valid()
      ensures forall o :: o in planner.owned ==> o in old(planner.owned) || fresh(o)
      ensures planned == p.Planned(old(World()))
      ensures planner.progresses == p.PlannerAfterPlan(old(World()))
    {
      ghost var w := World();
      SortSetElements(p.selected);
      var alreadyDone;
      planned, alreadyDone := planner.Plan(p.key, p.d.hash, p.strategy, p.batchSize, targets);
      PlannedIsBatch(p, w, targets);
    }

    /** Syncs the planned batch, a sorted list. */
    method SyncBatch(p: Pass, planned: seq<string>, ghost w: World)
      returns (ok: bool, completed: seq<string>, conflicts: seq<OutOfSyncItem>, ghost reached: nat)
      requires planned == p.Planned(w) && client.objects == w.objects
      modifies client`objects, client`upserted
      ensures reached <= |planned| && (ok <==> reached == |planned|) && (client.healthy ==> ok)
      ensures client.upserted == old(client.upserted) + TargetsIn(p.Upserted(w, reached), p.d.source.name)
      ensures !ok ==> client.objects == SyncObjects(old(client.objects), p.d, Elements(planned[..reached]))
      ensures ok ==>
        && client.objects == p.Synced(w)
        && NoDuplicates(completed) && Elements(completed) == Elements(planned) - p.Blocked(w)
        && conflicts == Items(SortSet(p.Blocked(w)), ConflictPolicySkip)
    {
      ok, completed, conflicts, reached := SyncTargets(planned, p.d);
      SplitBatch(p, w, reached);
    }

    /** Rolling: records what was synced; what is neither recorded nor a conflict awaits a batch. */
    method ReportRolling(key: NamespacedName, hash: string, targets: seq<string>, completed: seq<string>,
                         reported: set<string>)
      returns (count: nat, pending: seq<OutOfSyncItem>)
      requires Valid() && Ascending(targets)
      modifies planner, planner.owned
      ensures Valid()
      ensures forall o :: o in planner.owned ==> o in old(planner.owned) || fresh(o)
      ensures planner.progresses == AfterMark(old(planner.progresses), key, hash, Elements(completed))
      ensures var done := CompletedFor(planner.progresses, key, hash);
              count == |done| && pending == Items(SortSet(Elements(targets) - done - reported), PendingRollout)
    {
      count := planner.MarkCompleted(key, hash, completed);
      var completedNamespaces := planner.CompletedNamespaces(key, hash);
      assert Elements(completedNamespaces) == CompletedFor(planner.progresses, key, hash);
      pending := ReportPending(targets, Elements(completedNamespaces), reported, PendingRollout);
    }

    /** Immediate: what was synced is what is completed, and the planner forgets the resource. */
    method ReportImmediate(key: NamespacedName, targets: seq<string>, completed: seq<string>, reported: set<string>)
      returns (count: nat, pending: seq<OutOfSyncItem>)
      requires Valid() && Ascending(targets)
      modifies planner
      ensures Valid() && planner.owned == old(planner.owned)
      ensures planner.progresses == old(planner.progresses) - {key}
      ensures count == |completed|
      ensures pending == Items(SortSet(Elements(targets) - Elements(completed) - reported), PendingSync)
    {
      count := |completed|;
      pending := ReportPending(targets, Elements(completed), reported, PendingSync);
      planner.Forget(key);
    }

    /** Turns a synced batch into a count, the pending items and planner progress. */
    method Report(key: NamespacedName, strategy: Strategy, hash: string, targets: seq<string>,
                  completed: seq<string>, conflicts: seq<OutOfSyncItem>,
                  ghost selected: set<string>, ghost blocked: set<string>)
      returns (count: nat, outOfSync: seq<OutOfSyncItem>)
      requires Valid() && targets == SortSet(selected) && NoDuplicates(completed)
      requires conflicts == Items(SortSet(blocked), ConflictPolicySkip)
      modifies planner, planner.owned
      ensures Valid()
      ensures forall o :: o in planner.owned ==> o in old(planner.owned) || fresh(o)
      ensures planner.progresses
              == if strategy == Rolling then AfterMark(old(planner.progresses), key, hash, Elements(completed))
                 else old(planner.progresses) - {key}
      ensures var done := if strategy == Rolling then CompletedFor(planner.progresses, key, hash) else Elements(completed);
              && count == |done|
              && outOfSync == conflicts + Items(SortSet(selected - done - blocked),
                                                if strategy == Rolling then PendingRollout else PendingSync)
    {
      var reported := Elements(Namespaces(conflicts));
      ReportedAre(blocked);
      SortSetElements(selected);
      var pending;
      if strategy == Rolling {
        count, pending := ReportRolling(key, hash, targets, completed, reported);
      } else {
        ElementsCount(completed);
        count, pending := ReportImmediate(key, targets, completed, reported);
      }
      outOfSync := conflicts + pending;
    }

    /** Everything between reading the inputs and cleaning up. */
    method SyncAndReport(p: Pass, targets: seq<string>) returns (ok: bool, result: RolloutResult, ghost reached: nat)
      requires Valid() && targets == SortSet(p.selected)
      modifies client`objects, client`upserted, planner, planner.owned
      ensures Valid()
      ensures forall o :: o in planner.owned ==> o in old(planner.owned) || fresh(o)
      ensures client.healthy ==> ok
      ensures !ok ==> reached < |p.Planned(old(World()))| && planner.progresses == p.PlannerAfterPlan(old(World()))
                      && client.objects
                         == SyncObjects(old(client.objects), p.d, Elements(p.Planned(old(World()))[..reached]))
      ensures reached <= |p.Planned(old(World()))| && (ok <==> reached == |p.Planned(old(World()))|)
      ensures client.upserted == old(client.upserted) + TargetsIn(p.Upserted(old(World()), reached), p.d.source.name)
      ensures ok ==> client.objects == p.Synced(old(World())) && planner.progresses == p.PlannerAfterSync(old(World()))
      ensures ok ==> result == p.Result(old(World()))
    {
      ghost var w := World();
      result := RolloutResult([], 0, 0, []);
      var planned, completed, conflicts;
      ok, planned, completed, conflicts, reached := PlanAndSync(p, targets);
      if ok {
        var count, outOfSync :=
          Report(p.key, p.strategy, p.d.hash, targets, completed, conflicts, p.selected, p.Blocked(w));
        result := RolloutResult(planned, |targets|, count, outOfSync);
        ReportIsResult(p, w, completed, planner.progresses, result);
      }
    }

    /** Sync, report and cleanup, given the inputs. */
    method RunPass(p: Pass, targets: seq<string>) returns (answer: Answer, ghost stop: Stop)
      requires Valid() && targets == SortSet(p.selected)
      modifies client`objects, client`upserted, planner, planner.owned
      ensures Valid()
      ensures forall o :: o in planner.owned ==> o in old(planner.owned) || fresh(o)
      ensures Possible(p, old(World()), stop) && World() == Outcome(p, old(World()), stop)
      ensures client.upserted
              == old(client.upserted) + TargetsIn(p.Upserted(old(World()), Turns(p, old(World()), stop)), p.d.source.name)
      ensures answer == if stop.Completed? then Success(p.Result(old(World()))) else Failure
      ensures client.healthy ==> answer.Success?
    {
      var ok, result, reached := SyncAndReport(p, targets);
      if ok {
        SortSetElements(p.selected);
        var clean, cleaned := CleanupDeselected(p.d.source, p.prune, targets);
        answer, stop := if clean then Success(result) else Failure, if clean then Completed else InCleanup(cleaned);
      } else {
        answer, stop := Failure, AtTarget(reached);
      }
    }

    method ReconcileImpl(r: Resource, spec: Spec) returns (answer: Answer, ghost stop: Stop)
      requires Valid() && NoDuplicates(client.selected)
      modifies client`objects, client`upserted, planner, planner.owned
      ensures Valid()
      ensures forall o :: o in planner.owned ==> o in old(planner.owned) || fresh(o)
      ensures Reconciles(r, spec, Elements(client.selected), old(World()), stop, World())
      ensures client.upserted
              == old(client.upserted)
                 + if r.source !in old(client.objects) then [] else
                     var p := PassOf(r, spec, Elements(client.selected), old(client.objects));
                     TargetsIn(p.Upserted(old(World()), Turns(p, old(World()), stop)), r.source.name)
      ensures answer == if stop.Completed?
                        then Success(PassOf(r, spec, Elements(client.selected), old(client.objects)).Result(old(World())))
                        else Failure
      ensures client.healthy && r.source in old(client.objects) ==> answer.Success?
      ensures r.source !in old(client.objects) ==> answer.Failure?
      ensures var s := Setting(r, spec, Elements(client.selected), old(World()));
              if answer.Success? then s.Kept(World(), answer.result) else s.KeptInPart(World())
    {
      ghost var s := Setting(r, spec, Elements(client.selected), World());
      var read, d, targets := Intend(r, spec);
      if !read {
        PromisesKeptInPart(s, Early, World());
        return Failure, Early;
      }
      var p := Pass(r.key, d, spec.strategy, spec.batchSize, spec.prune, Elements(client.selected));
      answer, stop := RunPass(p, targets);
      if answer.Success? {
        PromisesKept(s);
      } else {
        PromisesKeptInPart(s, stop, World());
      }
    }

    /** Full cleanup over all managed targets: the same cleanup with an empty selection. */
    method Finalize(r: Resource, spec: Spec) returns (ok: bool, ghost cleaned: set<string>)
      requires Valid()
      modifies client`objects
      ensures World() == Finalized(r.source, spec.prune, old(World()), cleaned)
      ensures var listed := ListedNamespaces(old(client.objects), r.source);
              if ok then cleaned == listed else cleaned == {} || cleaned < listed
      ensures ok ==> AllCleanedUp(old(client.objects), client.objects, r.source, spec.prune)
      ensures client.healthy ==> ok
    {
      ok, cleaned := CleanupDeselected(r.source, spec.prune, []);
      ghost var listed := ListedNamespaces(old(client.objects), r.source);
      assert listed - Elements([]) == listed == listed - {};
      CleanupEffect(old(client.objects), r.source, spec.prune, {});
    }
  }

  // ---------------------------------------------------------------------------
  // The planner's answers in the terms of module Reconcile
  // ---------------------------------------------------------------------------

  lemma PlannedIsBatch(p: Pass, w: World, targets: seq<string>)
    requires targets == SortSet(p.selected)
    ensures Chosen(p.strategy, p.batchSize, CompletedFor(p.PlannerAfterPlan(w), p.key, p.d.hash), targets)
            == p.Planned(w)
  {
    SortSetElements(p.selected);
    ChosenIsBatch(p.strategy, p.batchSize, CompletedFor(p.PlannerAfterPlan(w), p.key, p.d.hash), targets);
  }

  /** The lists a batch is split into, and its upserts, which do not repeat. */
  lemma SplitBatch(p: Pass, w: World, reached: nat)
    requires reached <= |p.Planned(w)|
    ensures var planned, blocked := p.Planned(w), p.Blocked(w);
            && NoDuplicates(Select(planned, Elements(planned) - blocked))
            && Elements(Select(planned, Elements(planned) - blocked)) == Elements(planned) - blocked
            && Select(planned, blocked) == SortSet(blocked)
            && Firsts(p.Upserted(w, reached)) == p.Upserted(w, reached)
  {
    PlannedSelected(p, w);
    SplitAscending(p.Planned(w), p.Blocked(w));
    var writes := Writes(w.objects, p.d, Elements(p.Planned(w)));
    SelectAscending(p.Planned(w)[..reached], writes);
    AscendingNoDuplicates(p.Upserted(w, reached));
    FirstsOfDistinct(p.Upserted(w, reached));
  }

  lemma SplitAscending(planned: seq<string>, blocked: set<string>)
    requires Ascending(planned) && blocked <= Elements(planned)
    ensures NoDuplicates(Select(planned, Elements(planned) - blocked))
    ensures Elements(Select(planned, Elements(planned) - blocked)) == Elements(planned) - blocked
    ensures Select(planned, blocked) == SortSet(blocked)
  {
    SelectAscending(planned, Elements(planned) - blocked);
    AscendingNoDuplicates(Select(planned, Elements(planned) - blocked));
    SelectIsSortSet(planned, blocked);
    assert Elements(planned) * blocked == blocked;
  }

  /** Marking and reporting after a whole batch give the planner and the result that are specified. */
  lemma ReportIsResult(p: Pass, w: World, completed: seq<string>, after: Progresses, result: RolloutResult)
    requires Elements(completed) == Elements(p.Planned(w)) - p.Blocked(w)
    requires after == if p.strategy == Rolling
                      then AfterMark(p.PlannerAfterPlan(w), p.key, p.d.hash, Elements(completed))
                      else p.PlannerAfterPlan(w) - {p.key}
    requires var done := if p.strategy == Rolling then CompletedFor(after, p.key, p.d.hash) else Elements(completed);
             result == RolloutResult(
               p.Planned(w), |SortSet(p.selected)|, |done|,
               Items(SortSet(p.Blocked(w)), ConflictPolicySkip)
               + Items(SortSet(p.selected - done - p.Blocked(w)),
                       if p.strategy == Rolling then PendingRollout else PendingSync))
    ensures after == p.PlannerAfterSync(w)
    ensures result == p.Result(w)
  {
    SortSetCount(p.selected);
    if p.strategy == Rolling {
      MarkAfterPlan(p, w);
    }
  }

  lemma ReportedAre(blocked: set<string>)
    ensures Elements(Namespaces(Items(SortSet(blocked), ConflictPolicySkip))) == blocked
  {
    NamespacesOfItems(SortSet(blocked), ConflictPolicySkip);
  }

  // ---------------------------------------------------------------------------
  // One target more
  // ---------------------------------------------------------------------------

  lemma SyncNone(objects: Objects, d: Desired)
    ensures SyncObjects(objects, d, {}) == objects
  {
  }

  lemma SyncOne(objects: Objects, d: Desired, namespace: string)
    ensures var k := NamespacedName(namespace, d.source.name);
            SyncObjects(objects, d, {namespace})
            == if Classify(Lookup(objects, k), d) == Write then objects[k := Written(d)] else objects
  {
  }

  /** The next target is still as it was when the loop began, unless it has had its turn already. */
  lemma SyncMore(objects: Objects, d: Desired, planned: seq<string>, i: nat)
    requires i < |planned|
    ensures var before := SyncObjects(objects, d, Elements(planned[..i]));
            var k := NamespacedName(planned[i], d.source.name);
            && SyncObjects(before, d, {planned[i]}) == SyncObjects(objects, d, Elements(planned[..i + 1]))
            && Classify(Lookup(before, k), d)
               == if planned[i] in planned[..i] && Classify(Lookup(objects, k), d) == Write then UpToDate
                  else Classify(Lookup(objects, k), d)
  {
    var before := SyncObjects(objects, d, Elements(planned[..i]));
    var k := NamespacedName(planned[i], d.source.name);
    assert Elements(planned[..i + 1]) == Elements(planned[..i]) + {planned[i]};
    SyncPointwise(objects, d, Elements(planned[..i]));
    SyncedTwice(Lookup(objects, k), d);
    assert Lookup(before, k) == SyncedAt(objects, d, Elements(planned[..i]), k);
    SyncUnion(objects, d, Elements(planned[..i]), {planned[i]});
  }

  lemma LogMore(log: seq<NamespacedName>, planned: seq<string>, writes: set<string>, i: nat, name: string)
    requires i < |planned|
    ensures log + TargetsIn(Firsts(Select(planned[..i + 1], writes)), name)
            == log + TargetsIn(Firsts(Select(planned[..i], writes)), name)
               + if planned[i] in writes && planned[i] !in planned[..i] then [NamespacedName(planned[i], name)] else []
  {
    FirstsMore(planned, writes, i);
    LogOne(log, Firsts(Select(planned[..i], writes)), planned[i], name);
  }

  lemma LogOne(log: seq<NamespacedName>, t: seq<string>, x: string, name: string)
    ensures log + TargetsIn(t + [x], name) == log + TargetsIn(t, name) + [NamespacedName(x, name)]
    ensures log + TargetsIn(t + [], name) == log + TargetsIn(t, name) + []
  {
    assert t + [] == t && (t + [x])[..|t|] == t;
  }

  lemma FirstsMore(s: seq<string>, keep: set<string>, i: nat)
    requires i < |s|
    ensures Firsts(Select(s[..i + 1], keep))
            == Firsts(Select(s[..i], keep)) + if s[i] in keep && s[i] !in s[..i] then [s[i]] else []
  {
    var front, x := Select(s[..i], keep), s[i];
    SelectNext(s, keep, i);
    FirstsNext(front, x);
    if x !in keep {
      assert front + [] == front;
    }
  }

  /** A list without the later repetitions of its entries. */
  function Firsts(s: seq<string>): seq<string> {
    if s == [] then [] else
      var n := |s| - 1;
      Firsts(s[..n]) + if s[n] in s[..n] then [] else [s[n]]
  }

  lemma FirstsNext(s: seq<string>, x: string)
    ensures Firsts(s + [x]) == Firsts(s) + if x in s then [] else [x]
  {
    assert (s + [x])[..|s|] == s;
  }

  lemma {:induction false} FirstsOfDistinct(s: seq<string>)
    requires NoDuplicates(s)
    ensures Firsts(s) == s
  {
    if s == [] {
    } else {
      var n := |s| - 1;
      FirstsOfDistinct(s[..n]);
      assert s == s[..n] + [s[n]];
    }
  }

  lemma ItemsNext(s: seq<string>, x: string, reason: Reason)
    ensures Items(s + [x], reason) == Items(s, reason) + [OutOfSyncItem(x, reason)]
    ensures Items(s + [], reason) == Items(s, reason)
  {
    assert s + [] == s;
    assert (s + [x])[..|s|] == s;
  }

  lemma CleanNone(objects: Objects, name: string, prune: bool)
    ensures CleanObjects(objects, name, prune, {}) == objects
  {
  }

  lemma CleanOne(objects: Objects, name: string, prune: bool, namespace: string)
    ensures var k := NamespacedName(namespace, name);
            CleanObjects(objects, name, prune, {namespace})
            == if k !in objects then objects
               else if prune then objects - {k}
               else objects[k := Detached(objects[k])]
  {
  }

  lemma CleanMore(objects: Objects, name: string, prune: bool, cleaned: set<string>, namespace: string)
    requires namespace !in cleaned
    ensures CleanObjects(CleanObjects(objects, name, prune, cleaned), name, prune, {namespace})
            == CleanObjects(objects, name, prune, cleaned + {namespace})
  {
  }
}

/** Repeated successful rolling reconciles with nothing else happening: where they end, when they
    report Ready=True, and how that compares with one immediate reconcile. */
module Rollout {
  import opened Names
  import opened HashData
  import opened ConfigMaps
  import opened RolloutPlanner
  import opened Reconcile
  import opened Status
  import opened RolloutLimit
  import opened Runs
  import opened Soundness

  ghost function Rolled(p: Pass, w: World, k: nat): World {
    if k == 0 then w else Outcome(p, Rolled(p, w, k - 1), Completed)
  }

  /** The selected namespaces whose target is a conflict. */
  function AllBlocked(p: Pass, w: World): set<string> {
    Conflicts(w.objects, p.d, p.selected)
  }

  /** Every target on record for the current hash is up to date. */
  ghost predicate RecordsHold(p: Pass, w: World) {
    forall ns :: ns in p.DoneBefore(w) ==>
      Classify(Lookup(w.objects, NamespacedName(ns, p.d.source.name)), p.d) == UpToDate
  }

  lemma RecordsHoldIsStart(p: Pass, w: World)
    requires RecordsHold(p, w)
    ensures Start(p.selected, AllBlocked(p, w), p.DoneBefore(w))
  {
  }

  // ---------------------------------------------------------------------------
  // One round
  // ---------------------------------------------------------------------------

  lemma CompletedIsTidy(p: Pass, w: World)
    ensures Outcome(p, w, Completed).objects == Tidy(w.objects, p.d, p.prune, Elements(p.Planned(w)), p.selected)
    ensures Elements(p.Planned(w)) <= p.selected
  {
    PlannedSelected(p, w);
  }

  /** The controller's batches and completed sets are those of module RolloutLimit. */
  lemma RoundIsAdvance(p: Pass, w: World)
    requires p.strategy == Rolling
    ensures Elements(p.Planned(w)) == NextBatch(p.selected, Window(p.batchSize), p.DoneBefore(w))
    ensures p.DoneAfter(w) == Advance(p.selected, AllBlocked(p, w), Window(p.batchSize), p.DoneBefore(w))
  {
    PlannedSelected(p, w);
    assert p.Blocked(w) == Elements(p.Planned(w)) * AllBlocked(p, w);
  }

  /** No sync and no cleanup turns a selected target into a conflict, or a conflict into anything. */
  lemma ConflictsStay(objects: Objects, d: Desired, prune: bool, planned: set<string>, selected: set<string>)
    requires planned <= selected
    ensures Conflicts(Tidy(objects, d, prune, planned, selected), d, selected) == Conflicts(objects, d, selected)
  {
  }

  lemma DoneCarriesOver(p: Pass, w: World, after: World)
    requires p.strategy == Rolling && after.planner == p.PlannerAfterSync(w)
    ensures p.DoneBefore(after) == p.DoneAfter(w)
  {
    DoneAfterSelected(p, w);
    assert p.DoneAfter(w) * p.selected == p.DoneAfter(w);
  }

  // ---------------------------------------------------------------------------
  // k rounds
  // ---------------------------------------------------------------------------

  /** The completed set after k rounds. */
  ghost function DoneAfterRounds(p: Pass, w: World, k: nat): set<string> {
    DoneIn(p.selected, AllBlocked(p, w), Window(p.batchSize), p.DoneBefore(w), k)
  }

  /** What the planner records and which targets are conflicts, after k rounds. */
  lemma {:induction false} RolledRecords(p: Pass, w: World, k: nat)
    requires p.strategy == Rolling
    ensures p.DoneBefore(Rolled(p, w, k)) == DoneAfterRounds(p, w, k)
    ensures AllBlocked(p, Rolled(p, w, k)) == AllBlocked(p, w)
  {
    if k == 0 {
    } else {
      var before := Rolled(p, w, k - 1);
      RolledRecords(p, w, k - 1);
      RoundIsAdvance(p, before);
      CompletedIsTidy(p, before);
      DoneCarriesOver(p, before, Rolled(p, w, k));
      ConflictsStay(before.objects, p.d, p.prune, Elements(p.Planned(before)), p.selected);
    }
  }

  ghost function BatchInRound(p: Pass, w: World, k: nat): set<string> {
    NextBatch(p.selected, Window(p.batchSize), DoneAfterRounds(p, w, k))
  }

  lemma PlannedInRound(p: Pass, w: World, k: nat)
    requires p.strategy == Rolling
    ensures Elements(p.Planned(Rolled(p, w, k))) == BatchInRound(p, w, k)
  {
    RolledRecords(p, w, k);
    RoundIsAdvance(p, Rolled(p, w, k));
  }

  /** What the k-th round does to the cluster. */
  lemma RoundObjects(p: Pass, w: World, k: nat)
    requires p.strategy == Rolling && k >= 1
    ensures Rolled(p, w, k).objects
            == Tidy(Rolled(p, w, k - 1).objects, p.d, p.prune, BatchInRound(p, w, k - 1), p.selected)
    ensures BatchInRound(p, w, k - 1) <= p.selected
  {
    PlannedInRound(p, w, k - 1);
    TidyBatch(p, Rolled(p, w, k - 1), BatchInRound(p, w, k - 1), Rolled(p, w, k));
  }

  lemma TidyBatch(p: Pass, w: World, batch: set<string>, after: World)
    requires Elements(p.Planned(w)) == batch && after == Outcome(p, w, Completed)
    ensures after.objects == Tidy(w.objects, p.d, p.prune, batch, p.selected)
    ensures batch <= p.selected
  {
    CompletedIsTidy(p, w);
  }

  /** What the k-th round reports as done. */
  lemma RoundDone(p: Pass, w: World, k: nat)
    requires p.strategy == Rolling && k >= 1
    ensures p.DoneAfter(Rolled(p, w, k - 1)) == DoneAfterRounds(p, w, k)
  {
    RolledRecords(p, w, k - 1);
    RoundIsAdvance(p, Rolled(p, w, k - 1));
  }

  /** The pass over `attempted` accounts for the first k rounds. */
  ghost predicate AccountsFor(p: Pass, w: World, k: nat, attempted: set<string>) {
    && attempted <= p.selected
    && Rolled(p, w, k).objects == Tidy(w.objects, p.d, p.prune, attempted, p.selected)
    && DoneAfterRounds(p, w, k) == p.DoneBefore(w) + (attempted - AllBlocked(p, w))
  }

  lemma FirstRound(p: Pass, w: World) returns (attempted: set<string>)
    requires p.strategy == Rolling
    ensures AccountsFor(p, w, 1, attempted)
  {
    var one: nat := 1;
    attempted := BatchInRound(p, w, 0);
    RoundObjects(p, w, one);
    assert DoneAfterRounds(p, w, one) == p.DoneBefore(w) + (BatchInRound(p, w, one - 1) - AllBlocked(p, w));
  }

  lemma LaterRound(p: Pass, w: World, k: nat, before: set<string>) returns (attempted: set<string>)
    requires p.strategy == Rolling && k > 1 && AccountsFor(p, w, k - 1, before)
    ensures AccountsFor(p, w, k, attempted)
  {
    attempted := before + BatchInRound(p, w, k - 1);
    RoundObjects(p, w, k);
    JoinTidy(w.objects, Rolled(p, w, k - 1).objects, Rolled(p, w, k).objects, p,
             before, BatchInRound(p, w, k - 1), attempted);
    assert DoneAfterRounds(p, w, k) == DoneAfterRounds(p, w, k - 1) + (BatchInRound(p, w, k - 1) - AllBlocked(p, w));
  }

  /** k rounds together sync whatever was in some batch, and their k cleanups are one cleanup. */
  lemma RolledObjects(p: Pass, w: World, k: nat) returns (attempted: set<string>)
    requires p.strategy == Rolling && k >= 1
    ensures AccountsFor(p, w, k, attempted)
  {
    attempted := FirstRound(p, w);
    for i := 1 to k
      invariant AccountsFor(p, w, i, attempted)
    {
      attempted := LaterRound(p, w, i + 1, attempted);
    }
  }

  lemma JoinTidy(a: Objects, b: Objects, c: Objects, p: Pass, first: set<string>, second: set<string>, both: set<string>)
    requires first <= p.selected && second <= p.selected && both == first + second
    requires b == Tidy(a, p.d, p.prune, first, p.selected)
    requires c == Tidy(b, p.d, p.prune, second, p.selected)
    ensures c == Tidy(a, p.d, p.prune, both, p.selected)
  {
    TidyTwice(a, p.d, p.prune, first, second, p.selected);
  }

  /** The k-th reconcile reports Ready=True exactly when all selected targets are done. */
  lemma ReadyInRound(p: Pass, w: World, k: nat)
    requires p.strategy == Rolling && k >= 1
    ensures ReportsReady(p.Result(Rolled(p, w, k - 1))) <==> DoneAfterRounds(p, w, k) == p.selected
  {
    RoundDone(p, w, k);
    ReadyIffAllDone(p, Rolled(p, w, k - 1));
  }

  // ---------------------------------------------------------------------------
  // Where it ends
  // ---------------------------------------------------------------------------

  /** A target that is neither done nor a conflict is completed sooner or later if and only if
      fewer conflicts than the batch size come before it in sorted order. */
  lemma RolledOutExactlyIf(p: Pass, w: World, ns: string)
    requires p.strategy == Rolling && RecordsHold(p, w)
    requires ns in p.selected && ns !in AllBlocked(p, w) && ns !in p.DoneBefore(w)
    ensures (exists k: nat :: ns in p.DoneBefore(Rolled(p, w, k)))
            <==> |Before(AllBlocked(p, w), ns)| < (if p.batchSize < 1 then 1 else p.batchSize)
  {
    RecordsHoldIsStart(p, w);
    var blocked, window, done := AllBlocked(p, w), Window(p.batchSize), p.DoneBefore(w);
    if |Before(blocked, ns)| < window {
      ExactLimit(p.selected, blocked, window, done, ns);
      var k: nat :| ns in DoneIn(p.selected, blocked, window, done, k);
      RolledRecords(p, w, k);
      assert ns in p.DoneBefore(Rolled(p, w, k));
    } else {
      forall k: nat ensures ns !in p.DoneBefore(Rolled(p, w, k)) {
        RolledRecords(p, w, k);
        NeverReached(p.selected, blocked, window, done, ns, k);
      }
    }
  }

  /** A rolling reconcile completes nothing new exactly when its whole batch is conflicts, which
      is exactly when no target that is neither done nor a conflict has fewer conflicts than the
      batch size before it. By Quiescence nothing changes from then on. */
  lemma StuckExactlyIf(p: Pass, w: World)
    requires p.strategy == Rolling && RecordsHold(p, w)
    ensures p.DoneAfter(w) == p.DoneBefore(w) <==> Elements(p.Planned(w)) <= AllBlocked(p, w)
    ensures p.DoneAfter(w) == p.DoneBefore(w) <==>
      forall ns :: ns in p.selected && ns !in AllBlocked(p, w) && ns !in p.DoneBefore(w) ==>
        |Before(AllBlocked(p, w), ns)| >= Window(p.batchSize)
  {
    RecordsHoldIsStart(p, w);
    RoundIsAdvance(p, w);
    var blocked, window, done := AllBlocked(p, w), Window(p.batchSize), p.DoneBefore(w);
    StuckIsLimit(p.selected, blocked, window, done);
    var limit := Limit(p.selected, blocked, window, done);
    forall ns | ns in p.selected && ns !in blocked && ns !in done
      ensures ns in limit <==> |Before(blocked, ns)| < window
    {
    }
    assert limit == done <==> forall ns :: ns in p.selected && ns !in blocked && ns !in done ==> ns !in limit;
  }

  /** Without conflicts, k reconciles reach Ready=True exactly if k batches cover what was
      pending. Overwriting has no conflicts. */
  lemma ReadyAfterExactly(p: Pass, w: World, k: nat)
    requires p.strategy == Rolling && RecordsHold(p, w) && k >= 1
    requires p.d.policy == Overwrite || AllBlocked(p, w) == {}
    ensures ReportsReady(p.Result(Rolled(p, w, k - 1)))
            <==> k * (if p.batchSize < 1 then 1 else p.batchSize) >= |p.selected - p.DoneBefore(w)|
  {
    assert AllBlocked(p, w) == {};
    ReadyInRound(p, w, k);
    ExactRounds(p.selected, Window(p.batchSize), p.DoneBefore(w), k);
  }

  /** With fewer conflicts than the batch size, every other target is done after
      ceil(pending / (batch size - conflicts)) reconciles. */
  lemma DoneAfterAtMost(p: Pass, w: World, k: nat)
    requires p.strategy == Rolling && RecordsHold(p, w)
    requires var c := |AllBlocked(p, w)|;
             c < Window(p.batchSize)
             && k * (Window(p.batchSize) - c) >= |p.selected - AllBlocked(p, w) - p.DoneBefore(w)|
    ensures p.DoneBefore(Rolled(p, w, k)) == p.selected - AllBlocked(p, w)
  {
    RecordsHoldIsStart(p, w);
    RolledRecords(p, w, k);
    EnoughRounds(p.selected, AllBlocked(p, w), Window(p.batchSize), p.DoneBefore(w), k);
  }

  // ---------------------------------------------------------------------------
  // Rolling and immediate
  // ---------------------------------------------------------------------------

  function AllAtOnce(p: Pass): Pass {
    p.(strategy := Immediate)
  }

  /** Two passes that differ only on targets a sync leaves alone end in the same cluster. */
  lemma TidySame(objects: Objects, d: Desired, prune: bool, some: set<string>, selected: set<string>)
    requires some <= selected
    ensures Tidy(objects, d, prune, some, selected) == Tidy(objects, d, prune, selected, selected)
            <==> forall ns :: ns in selected && ns !in some ==>
                   Classify(Lookup(objects, NamespacedName(ns, d.source.name)), d) != Write
  {
    var a, b := Tidy(objects, d, prune, some, selected), Tidy(objects, d, prune, selected, selected);
    forall ns | ns in selected && ns !in some
      ensures var k := NamespacedName(ns, d.source.name);
              Lookup(a, k) == Lookup(b, k) <==> Classify(Lookup(objects, k), d) != Write
    {
      var k := NamespacedName(ns, d.source.name);
      TidyAt(objects, d, prune, some, selected, k);
      TidyAt(objects, d, prune, selected, selected, k);
      WrittenMarkers(d);
    }
    if forall ns :: ns in selected && ns !in some ==>
        Classify(Lookup(objects, NamespacedName(ns, d.source.name)), d) != Write {
      forall k ensures Lookup(a, k) == Lookup(b, k) {
        TidyAt(objects, d, prune, some, selected, k);
        TidyAt(objects, d, prune, selected, selected, k);
        if k.name == d.source.name {
          assert k == NamespacedName(k.ns, d.source.name);
        }
      }
      SameObjects(a, b);
    }
  }

  /** The cluster after k rounds is that of one immediate reconcile exactly when all targets that
      need a write have completed. */
  lemma SameClusterIff(p: Pass, w: World, k: nat)
    requires p.strategy == Rolling && RecordsHold(p, w) && k >= 1
    ensures Rolled(p, w, k).objects == Outcome(AllAtOnce(p), w, Completed).objects
            <==> Writes(w.objects, p.d, p.selected) <= DoneAfterRounds(p, w, k)
  {
    var attempted := RolledObjects(p, w, k);
    CompletedIsTidy(AllAtOnce(p), w);
    PlannedSelected(AllAtOnce(p), w);
    TidySame(w.objects, p.d, p.prune, attempted, p.selected);
    forall ns | ns in Writes(w.objects, p.d, p.selected)
      ensures ns in attempted <==> ns in DoneAfterRounds(p, w, k)
    {
      assert ns !in p.DoneBefore(w) && ns !in AllBlocked(p, w);
    }
  }

  /** Once the rollout has run its course, the cluster is the one a single immediate reconcile
      produces if and only if every target that needs a write has fewer conflicts than the batch
      size before it. */
  lemma RollingRefinesImmediate(p: Pass, w: World, k: nat)
    requires p.strategy == Rolling && RecordsHold(p, w) && k >= 1 && k >= |p.selected|
    ensures Rolled(p, w, k).objects == Outcome(AllAtOnce(p), w, Completed).objects
            <==> forall ns :: ns in Writes(w.objects, p.d, p.selected) ==>
                   |Before(AllBlocked(p, w), ns)| < Window(p.batchSize)
  {
    RecordsHoldIsStart(p, w);
    SameClusterIff(p, w, k);
    LimitReached(p.selected, AllBlocked(p, w), Window(p.batchSize), p.DoneBefore(w), k);
    forall ns | ns in Writes(w.objects, p.d, p.selected)
      ensures ns in DoneAfterRounds(p, w, k) <==> |Before(AllBlocked(p, w), ns)| < Window(p.batchSize)
    {
      assert ns !in p.DoneBefore(w) && ns !in AllBlocked(p, w);
    }
  }

  /** In particular with overwriting, or with fewer conflicts than the batch size, and then
      already after ceil(pending / (batch size - conflicts)) reconciles. */
  lemma RollingCatchesUp(p: Pass, w: World, k: nat)
    requires p.strategy == Rolling && RecordsHold(p, w) && k >= 1
    requires var c := |AllBlocked(p, w)|;
             c < Window(p.batchSize)
             && k * (Window(p.batchSize) - c) >= |p.selected - AllBlocked(p, w) - p.DoneBefore(w)|
    ensures Rolled(p, w, k).objects == Outcome(AllAtOnce(p), w, Completed).objects
  {
    SameClusterIff(p, w, k);
    DoneAfterAtMost(p, w, k);
    RolledRecords(p, w, k);
  }

  // ---------------------------------------------------------------------------
  // Quiescence
  // ---------------------------------------------------------------------------

  /** After a pass nothing is left for the same pass to write or to clean. */
  lemma TidyIsSettled(objects: Objects, d: Desired, prune: bool, planned: set<string>, selected: set<string>)
    requires planned <= selected
    ensures var after := Tidy(objects, d, prune, planned, selected);
            && Writes(after, d, planned) == {}
            && ListedNamespaces(after, d.source) <= selected
            && Tidy(after, d, prune, planned, selected) == after
  {
    var after := Tidy(objects, d, prune, planned, selected);
    forall ns | ns in planned ensures Classify(Lookup(after, NamespacedName(ns, d.source.name)), d) != Write {
      TidyAt(objects, d, prune, planned, selected, NamespacedName(ns, d.source.name));
      SyncedTwice(Lookup(objects, NamespacedName(ns, d.source.name)), d);
    }
    var synced := SyncObjects(objects, d, planned);
    ListedAfterClean(synced, d.source, prune, ListedNamespaces(synced, d.source) - selected);
    TidyTwice(objects, d, prune, planned, planned, selected);
    assert planned + planned == planned;
  }

  /** After a successful immediate reconcile, or a rolling one that completed nothing new, the
      same reconcile again writes nothing, cleans nothing, changes nothing and reports the same. */
  lemma Quiescence(p: Pass, w: World)
    requires p.strategy == Immediate || p.DoneAfter(w) == p.DoneBefore(w)
    ensures var after := Outcome(p, w, Completed);
            && Writes(after.objects, p.d, Elements(p.Planned(after))) == {}
            && p.Deselected(after) == {}
            && Outcome(p, after, Completed) == after
            && p.Result(after) == p.Result(w)
  {
    var after := Outcome(p, w, Completed);
    CompletedIsTidy(p, w);
    SamePlan(p, w, after);
    CompletedIsTidy(p, after);
    TidyIsSettled(w.objects, p.d, p.prune, Elements(p.Planned(w)), p.selected);
    ListedAfterSync(after.objects, p.d, Elements(p.Planned(after)));
    assert p.Deselected(after) <= ListedNamespaces(after.objects, p.d.source) - p.selected;
    SameResult(p, w, after);
  }

  lemma SamePlan(p: Pass, w: World, after: World)
    requires p.strategy == Immediate || p.DoneAfter(w) == p.DoneBefore(w)
    requires after.planner == p.PlannerAfterSync(w)
    ensures p.Planned(after) == p.Planned(w)
    ensures p.strategy == Rolling ==> p.DoneBefore(after) == p.DoneBefore(w)
  {
  }

  lemma SameBlocked(p: Pass, w: World, after: World)
    requires after == Outcome(p, w, Completed) && p.Planned(after) == p.Planned(w)
    ensures p.Blocked(after) == p.Blocked(w)
  {
    CompletedIsTidy(p, w);
    ConflictsStay(w.objects, p.d, p.prune, Elements(p.Planned(w)), p.selected);
    assert p.Blocked(w) == AllBlocked(p, w) * Elements(p.Planned(w));
    assert p.Blocked(after) == AllBlocked(p, after) * Elements(p.Planned(w));
  }

  lemma SameResult(p: Pass, w: World, after: World)
    requires p.strategy == Immediate || p.DoneAfter(w) == p.DoneBefore(w)
    requires after == Outcome(p, w, Completed) && p.Planned(after) == p.Planned(w)
    requires p.strategy == Rolling ==> p.DoneBefore(after) == p.DoneBefore(w)
    ensures p.Result(after) == p.Result(w)
    ensures p.PlannerAfterSync(after) == after.planner
  {
    SameBlocked(p, w, after);
    SameDone(p, w, after);
  }

  lemma SameDone(p: Pass, w: World, after: World)
    requires p.strategy == Immediate || p.DoneAfter(w) == p.DoneBefore(w)
    requires p.Planned(after) == p.Planned(w) && p.Blocked(after) == p.Blocked(w)
    requires p.strategy == Rolling ==> p.DoneBefore(after) == p.DoneBefore(w)
    requires after.planner == p.PlannerAfterSync(w)
    ensures p.Result(after) == p.Result(w)
    ensures p.PlannerAfterSync(after) == after.planner
  {
    assert p.DoneAfter(after) == p.DoneAfter(w);
  }

  // ---------------------------------------------------------------------------
  // Reconciles that read everything anew
  // ---------------------------------------------------------------------------

  /** The source exists, is not a target, and is not listed as one. */
  ghost predicate SteadySource(r: Resource, selected: set<string>, objects: Objects) {
    r.source in objects && r.source.ns !in selected && !Listed(objects[r.source], r.source)
  }

  /** A reconcile leaves a steady source alone, so the next one starts from the same inputs. */
  lemma SameInputsAgain(r: Resource, spec: Spec, selected: set<string>, w: World, w': World)
    requires SteadySource(r, selected, w.objects) && Reconciles(r, spec, selected, w, Completed, w')
    ensures w' == Outcome(PassOf(r, spec, selected, w.objects), w, Completed)
    ensures SteadySource(r, selected, w'.objects)
    ensures PassOf(r, spec, selected, w'.objects) == PassOf(r, spec, selected, w.objects)
  {
    var p := PassOf(r, spec, selected, w.objects);
    CompletedIsTidy(p, w);
    TidyAt(w.objects, p.d, p.prune, Elements(p.Planned(w)), p.selected, r.source);
    assert Lookup(w'.objects, r.source) == Some(w.objects[r.source]);
  }

  /** Successful reconciles of one spec and selection, one after another. */
  ghost predicate Repeats(r: Resource, spec: Spec, selected: set<string>, ws: seq<World>) {
    && |ws| >= 1
    && forall i :: 0 <= i < |ws| - 1 ==> Reconciles(r, spec, selected, ws[i], Completed, ws[i + 1])
  }

  lemma RepeatsIsRolled(r: Resource, spec: Spec, selected: set<string>, ws: seq<World>, i: nat)
    requires Repeats(r, spec, selected, ws) && SteadySource(r, selected, ws[0].objects) && i < |ws|
    ensures SteadySource(r, selected, ws[i].objects)
    ensures PassOf(r, spec, selected, ws[i].objects) == PassOf(r, spec, selected, ws[0].objects)
    ensures ws[i] == Rolled(PassOf(r, spec, selected, ws[0].objects), ws[0], i)
  {
    var p := PassOf(r, spec, selected, ws[0].objects);
    for j := 0 to i
      invariant SteadySource(r, selected, ws[j].objects)
      invariant PassOf(r, spec, selected, ws[j].objects) == p
      invariant ws[j] == Rolled(p, ws[0], j)
    {
      SameInputsAgain(r, spec, selected, ws[j], ws[j + 1]);
    }
  }

  lemma AgreementMeansRecordsHold(r: Resource, p: Pass, w: World)
    requires Agreement(r, w) && p.key == r.key && p.d.source == r.source
    ensures RecordsHold(p, w)
  {
  }

  /** A rollout under conflictPolicy=overwrite, from any world with the invariant: the last of k
      reconciles is the first to be able to report Ready=True when k batches cover what was
      pending; then every selected namespace holds exactly the effective data, and the cluster is
      the one a single immediate reconcile would have produced. */
  lemma OverwritingRolloutCompletes(r: Resource, spec: Spec, selected: set<string>, ws: seq<World>)
    requires Repeats(r, spec, selected, ws) && |ws| >= 2 && SteadySource(r, selected, ws[0].objects)
    requires GoodDigest(r.digest) && Invariant(r, ws[0])
    requires spec.strategy == Rolling && spec.policy == Overwrite
    ensures var k := |ws| - 1;
            var p := PassOf(r, spec, selected, ws[0].objects);
            && (ReportsReady(p.Result(ws[k - 1])) <==> k * Window(spec.batchSize) >= |selected - p.DoneBefore(ws[0])|)
            && (ReportsReady(p.Result(ws[k - 1])) ==>
                  && HoldsEffectiveData(r, spec, selected, ws[0], ws[k])
                  && ws[k].objects == Outcome(AllAtOnce(p), ws[0], Completed).objects)
  {
    var k := |ws| - 1;
    var p := PassOf(r, spec, selected, ws[0].objects);
    AgreementMeansRecordsHold(r, p, ws[0]);
    RepeatsIsRolled(r, spec, selected, ws, k - 1);
    RepeatsIsRolled(r, spec, selected, ws, k);
    ReadyAfterExactly(p, ws[0], k);
    if ReportsReady(p.Result(ws[k - 1])) {
      ReadyInRound(p, ws[0], k);
      SameClusterIff(p, ws[0], k);
      RepeatsKeepInvariant(r, spec, selected, ws, k - 1);
      ReadyIsTrue(r, spec, selected, ws[k - 1]);
      SameEffectiveData(r, spec, selected, ws, k - 1, ws[k]);
    }
  }

  lemma {:induction false} RepeatsKeepInvariant(r: Resource, spec: Spec, selected: set<string>, ws: seq<World>, i: nat)
    requires Repeats(r, spec, selected, ws) && SteadySource(r, selected, ws[0].objects) && i < |ws|
    requires Invariant(r, ws[0])
    ensures Invariant(r, ws[i])
  {
    if i == 0 {
    } else {
      RepeatsKeepInvariant(r, spec, selected, ws, i - 1);
      assert CleanStep(r, ws[i - 1], Attempt(spec, selected, Completed), ws[i]);
      StepKeepsFaithful(r, ws[i - 1], Attempt(spec, selected, Completed), ws[i]);
      AgreementIffNoHazard(r, ws[i - 1], Attempt(spec, selected, Completed), ws[i]);
    }
  }

  /** All rounds are about the same data. */
  lemma SameEffectiveData(r: Resource, spec: Spec, selected: set<string>, ws: seq<World>, i: nat, after: World)
    requires Repeats(r, spec, selected, ws) && SteadySource(r, selected, ws[0].objects) && i < |ws|
    ensures r.source in ws[i].objects
    ensures HoldsEffectiveData(r, spec, selected, ws[i], after) ==> HoldsEffectiveData(r, spec, selected, ws[0], after)
  {
    RepeatsIsRolled(r, spec, selected, ws, i);
    assert PassOf(r, spec, selected, ws[i].objects).d == PassOf(r, spec, selected, ws[0].objects).d;
    EffectiveIsEffective(ws[i].objects[r.source].data, spec.dataKeys);
    EffectiveIsEffective(ws[0].objects[r.source].data, spec.dataKeys);
  }
}

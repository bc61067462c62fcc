/** Reconciles that are repeated although some targets cannot be updated: the sync loop stops at the
    first one that has its turn, so what comes after it waits, in this batch and in all later ones. */
module Blocking {
  import opened Names
  import opened ConfigMaps
  import opened RolloutPlanner
  import opened Reconcile
  import opened RolloutLimit
  import opened Runs
  import opened Rollout

  /** How many entries come before the first one in `failing`. */
  function Until(s: seq<string>, failing: set<string>): (n: nat)
    ensures n <= |s|
    ensures forall i :: 0 <= i < n ==> s[i] !in failing
    ensures n < |s| ==> s[n] in failing
  {
    if s == [] || s[0] in failing then 0 else 1 + Until(s[1..], failing)
  }

  /** A reconcile stops at the first planned target that fails. */
  ghost function StopAt(p: Pass, w: World, failing: set<string>): (stop: Stop)
    ensures Possible(p, w, stop)
  {
    var n := Until(p.Planned(w), failing);
    if n < |p.Planned(w)| then AtTarget(n) else Completed
  }

  ghost function Next(p: Pass, w: World, failing: set<string>): World {
    Outcome(p, w, StopAt(p, w, failing))
  }

  /** The world after k reconciles with these targets failing whenever they have their turn. */
  ghost function Attempted(p: Pass, w: World, failing: set<string>, k: nat): World {
    if k == 0 then w else Next(p, Attempted(p, w, failing, k - 1), failing)
  }

  /** The targets that will have a turn unless something before them fails. */
  function Due(p: Pass, w: World): set<string> {
    if p.strategy == Immediate then p.selected else p.selected - p.DoneBefore(w)
  }

  // ---------------------------------------------------------------------------
  // A failure repeats itself
  // ---------------------------------------------------------------------------

  lemma PlanTwice(planner: Progresses, key: NamespacedName, hash: string, strategy: Strategy, targets: set<string>)
    ensures var after := AfterPlan(planner, key, hash, strategy, targets);
            && AfterPlan(after, key, hash, strategy, targets) == after
            && CompletedFor(after, key, hash) * targets == CompletedFor(planner, key, hash) * targets
  {
  }

  /** Planning again what was planned before a failure gives the same batch, so the next reconcile
      fails at the same target, and changes nothing at all. */
  lemma FailureIsFixedPoint(p: Pass, w: World, failing: set<string>)
    requires StopAt(p, w, failing).AtTarget?
    ensures StopAt(p, Next(p, w, failing), failing) == StopAt(p, w, failing)
    ensures Next(p, Next(p, w, failing), failing) == Next(p, w, failing)
  {
    var stop := StopAt(p, w, failing);
    var after := Outcome(p, w, stop);
    PlanTwice(w.planner, p.key, p.d.hash, p.strategy, p.selected);
    assert p.DoneBefore(after) == p.DoneBefore(w);
    var synced := Elements(p.Planned(w)[..stop.n]);
    SyncUnion(w.objects, p.d, synced, synced);
    assert synced + synced == synced;
  }

  ghost predicate Fails(p: Pass, w: World, failing: set<string>) {
    StopAt(p, w, failing).AtTarget?
  }

  /** k reconciles are k full rounds, or i of them and then one that failed and has been repeated
      without effect. */
  ghost predicate Course(p: Pass, w: World, failing: set<string>, k: nat, i: nat) {
    i <= k && Ends(p, Rolled(p, w, i), failing, i == k, Attempted(p, w, failing, k))
  }

  ghost predicate Ends(p: Pass, rolled: World, failing: set<string>, full: bool, end: World) {
    if full then end == rolled else Fails(p, rolled, failing) && end == Next(p, rolled, failing)
  }

  lemma {:induction false} CourseOf(p: Pass, w: World, failing: set<string>, k: nat) returns (i: nat)
    ensures Course(p, w, failing, k, i)
  {
    if k == 0 {
      i := 0;
    } else {
      i := CourseOf(p, w, failing, k - 1);
      var goesOn := OneMore(p, Rolled(p, w, i), failing, i == k - 1, Attempted(p, w, failing, k - 1));
      i := if goesOn then k else i;
    }
  }

  lemma OneMore(p: Pass, rolled: World, failing: set<string>, full: bool, end: World) returns (goesOn: bool)
    requires Ends(p, rolled, failing, full, end)
    ensures goesOn ==> full && Next(p, end, failing) == Outcome(p, rolled, Completed)
    ensures !goesOn ==> Ends(p, rolled, failing, false, Next(p, end, failing))
  {
    goesOn := full && !Fails(p, rolled, failing);
    if !full {
      FailureIsFixedPoint(p, rolled, failing);
    }
  }

  // ---------------------------------------------------------------------------
  // Who has a turn
  // ---------------------------------------------------------------------------

  /** Whatever is due and does not come after a planned target is planned too. */
  lemma DueIsPlanned(p: Pass, w: World, x: string, y: string)
    requires x in p.Planned(w) && y in Due(p, w) && !Less(x, y)
    ensures y in p.Planned(w)
  {
    if p.strategy == Rolling {
      BatchIsFirstPending(p.batchSize, p.DoneBefore(w), p.selected);
    }
  }

  lemma PlannedIsDue(p: Pass, w: World)
    ensures Elements(p.Planned(w)) <= Due(p, w) <= p.selected
  {
    PlannedSelected(p, w);
  }

  lemma FirstFailing(s: seq<string>, failing: set<string>, x: string)
    requires Ascending(s) && x in s
    ensures x in s[..Until(s, failing)] <==> forall f :: f in failing && f in s ==> Less(x, f)
  {
    var n := Until(s, failing);
    var i :| 0 <= i < |s| && s[i] == x;
    if i < n {
      assert s[..n][i] == x;
      forall f | f in failing && f in s ensures Less(x, f) {
        var j :| 0 <= j < |s| && s[j] == f;
      }
    } else {
      LessTrichotomy(x, s[n]);
      assert s[n] in failing && !Less(x, s[n]);
      forall j | 0 <= j < n ensures s[..n][j] != x {
        assert Less(s[j], x);
      }
    }
  }

  /** A planned target has its turn exactly if every failing target that is due comes after it. */
  lemma TurnIff(p: Pass, w: World, failing: set<string>, ns: string)
    requires ns in p.Planned(w)
    ensures ns in SyncedSet(p, w, StopAt(p, w, failing))
            <==> forall f :: f in failing && f in Due(p, w) ==> Less(ns, f)
  {
    PlannedSelected(p, w);
    PlannedIsDue(p, w);
    FirstFailing(p.Planned(w), failing, ns);
    assert p.Planned(w)[..|p.Planned(w)|] == p.Planned(w);
    forall f | f in failing && f in Due(p, w) && !Less(ns, f) ensures f in p.Planned(w) {
      DueIsPlanned(p, w, ns, f);
    }
  }

  // ---------------------------------------------------------------------------
  // What a failing target holds up
  // ---------------------------------------------------------------------------

  /** A failing target stays due, and a reconcile leaves every selected target alone that does
      not come before it. */
  lemma HeldUpOnce(p: Pass, w: World, failing: set<string>, f: string, ns: string)
    requires f in failing && f in Due(p, w) && ns in p.selected && !Less(ns, f)
    ensures f in Due(p, Next(p, w, failing))
    ensures Lookup(Next(p, w, failing).objects, NamespacedName(ns, p.d.source.name))
            == Lookup(w.objects, NamespacedName(ns, p.d.source.name))
  {
    var stop := StopAt(p, w, failing);
    StaysDue(p, w, failing, f);
    OutcomeObjects(p, w, stop);
    OutcomePointwise(p, w, stop, NamespacedName(ns, p.d.source.name));
    if ns in p.Planned(w) {
      TurnIff(p, w, failing, ns);
    }
  }

  lemma StaysDue(p: Pass, w: World, failing: set<string>, f: string)
    requires f in failing && f in Due(p, w)
    ensures f in Due(p, Next(p, w, failing))
  {
    if p.strategy == Rolling {
      if Fails(p, w, failing) {
        PlanTwice(w.planner, p.key, p.d.hash, p.strategy, p.selected);
      } else {
        DoneCarriesOver(p, w, Next(p, w, failing));
      }
    }
  }

  lemma {:induction false} HeldUp(p: Pass, w: World, failing: set<string>, f: string, ns: string, k: nat)
    requires f in failing && f in Due(p, w) && ns in p.selected && !Less(ns, f)
    ensures f in Due(p, Attempted(p, w, failing, k))
    ensures Lookup(Attempted(p, w, failing, k).objects, NamespacedName(ns, p.d.source.name))
            == Lookup(w.objects, NamespacedName(ns, p.d.source.name))
  {
    if k == 0 {
    } else {
      HeldUp(p, w, failing, f, ns, k - 1);
      HeldUpOnce(p, Attempted(p, w, failing, k - 1), failing, f, ns);
    }
  }

  // ---------------------------------------------------------------------------
  // What is written in the end
  // ---------------------------------------------------------------------------

  ghost predicate HoldsCopy(p: Pass, w: World, ns: string) {
    Lookup(w.objects, NamespacedName(ns, p.d.source.name)) == Some(Written(p.d))
  }

  /** A selected target that needs a write is written by a reconcile exactly if it has its turn. */
  lemma WrittenOnTurn(p: Pass, w: World, failing: set<string>, ns: string)
    requires ns in Writes(w.objects, p.d, p.selected)
    ensures HoldsCopy(p, Next(p, w, failing), ns) <==> ns in SyncedSet(p, w, StopAt(p, w, failing))
  {
    var stop := StopAt(p, w, failing);
    OutcomeObjects(p, w, stop);
    OutcomePointwise(p, w, stop, NamespacedName(ns, p.d.source.name));
    WrittenMarkers(p.d);
  }

  lemma CopyStays(p: Pass, w: World, failing: set<string>, ns: string)
    requires ns in p.selected && HoldsCopy(p, w, ns)
    ensures HoldsCopy(p, Next(p, w, failing), ns)
  {
    var stop := StopAt(p, w, failing);
    OutcomeObjects(p, w, stop);
    OutcomePointwise(p, w, stop, NamespacedName(ns, p.d.source.name));
    WrittenMarkers(p.d);
  }

  /** k full rounds write a target that needs it exactly if it has completed by then. */
  lemma RolledWrites(p: Pass, w: World, k: nat, ns: string)
    requires p.strategy == Rolling && RecordsHold(p, w) && ns in Writes(w.objects, p.d, p.selected)
    ensures if ns in DoneAfterRounds(p, w, k) then HoldsCopy(p, Rolled(p, w, k), ns)
            else ns in Writes(Rolled(p, w, k).objects, p.d, p.selected)
  {
    assert ns !in p.DoneBefore(w) && ns !in AllBlocked(p, w);
    if k != 0 {
      var attempted := RolledObjects(p, w, k);
      TidyAt(w.objects, p.d, p.prune, attempted, p.selected, NamespacedName(ns, p.d.source.name));
    }
  }

  /** Being planned in a round is completing in it, unless blocked. */
  lemma PlannedCompletes(p: Pass, w: World, k: nat, ns: string)
    requires p.strategy == Rolling && ns in p.Planned(Rolled(p, w, k)) && ns !in AllBlocked(p, w)
    ensures ns in DoneAfterRounds(p, w, k + 1)
  {
    PlannedInRound(p, w, k);
  }

  /** What a course of reconciles adds to its full rounds. */
  lemma EndWrites(p: Pass, rolled: World, failing: set<string>, full: bool, end: World, ns: string)
    requires Ends(p, rolled, failing, full, end) && ns in Writes(rolled.objects, p.d, p.selected)
    ensures HoldsCopy(p, end, ns) <==> !full && ns in SyncedSet(p, rolled, StopAt(p, rolled, failing))
    ensures HoldsCopy(p, end, ns) ==> ns in p.Planned(rolled)
  {
    WrittenMarkers(p.d);
    if !full {
      WrittenOnTurn(p, rolled, failing, ns);
    }
  }

  lemma EndKeepsCopy(p: Pass, rolled: World, failing: set<string>, full: bool, end: World, ns: string)
    requires Ends(p, rolled, failing, full, end) && ns in p.selected && HoldsCopy(p, rolled, ns)
    ensures HoldsCopy(p, end, ns)
  {
    if !full {
      CopyStays(p, rolled, failing, ns);
    }
  }

  lemma EndIsCompleted(p: Pass, w: World, failing: set<string>, i: nat, full: bool, end: World, ns: string)
    requires p.strategy == Rolling && RecordsHold(p, w) && ns in Writes(w.objects, p.d, p.selected)
    requires Ends(p, Rolled(p, w, i), failing, full, end) && HoldsCopy(p, end, ns)
    ensures ns in DoneAfterRounds(p, w, i) || ns in DoneAfterRounds(p, w, i + 1)
  {
    if ns !in DoneAfterRounds(p, w, i) {
      RolledWrites(p, w, i, ns);
      EndWrites(p, Rolled(p, w, i), failing, full, end, ns);
      PlannedCompletes(p, w, i, ns);
    }
  }

  /** Only what full rounds would complete is ever written. */
  lemma WrittenIsCompleted(p: Pass, w: World, failing: set<string>, k: nat, ns: string) returns (rounds: nat)
    requires p.strategy == Rolling && RecordsHold(p, w) && ns in Writes(w.objects, p.d, p.selected)
    requires HoldsCopy(p, Attempted(p, w, failing, k), ns)
    ensures ns in DoneAfterRounds(p, w, rounds)
  {
    var i := CourseOf(p, w, failing, k);
    EndIsCompleted(p, w, failing, i, i == k, Attempted(p, w, failing, k), ns);
    rounds := if ns in DoneAfterRounds(p, w, i) then i else i + 1;
  }

  /** If a planned target fails, any target that is due, needs a write and comes before all that
      fail has its turn. */
  lemma WrittenBeforeFailure(p: Pass, w: World, failing: set<string>, ns: string)
    requires Fails(p, w, failing) && ns in Due(p, w) && ns in Writes(w.objects, p.d, p.selected)
    requires forall f :: f in failing && f in Due(p, w) ==> Less(ns, f)
    ensures HoldsCopy(p, Next(p, w, failing), ns)
  {
    var f := p.Planned(w)[StopAt(p, w, failing).n];
    PlannedIsDue(p, w);
    assert f in failing && f in Due(p, w);
    LessTrichotomy(f, ns);
    DueIsPlanned(p, w, f, ns);
    TurnIff(p, w, failing, ns);
    WrittenOnTurn(p, w, failing, ns);
  }

  lemma DueShrinks(p: Pass, w: World, k: nat)
    requires p.strategy == Rolling && RecordsHold(p, w)
    ensures Due(p, Rolled(p, w, k)) == p.selected - DoneAfterRounds(p, w, k) <= Due(p, w)
  {
    RecordsHoldIsStart(p, w);
    RolledRecords(p, w, k);
    DoneBounds(p.selected, AllBlocked(p, w), Window(p.batchSize), p.DoneBefore(w), k);
  }

  /** Whatever full rounds complete is written as long as it comes before all that fail. */
  lemma CompletedIsWritten(p: Pass, w: World, failing: set<string>, k: nat, ns: string)
    requires p.strategy == Rolling && RecordsHold(p, w) && ns in Writes(w.objects, p.d, p.selected)
    requires forall f :: f in failing && f in Due(p, w) ==> Less(ns, f)
    requires ns in DoneAfterRounds(p, w, k)
    ensures HoldsCopy(p, Attempted(p, w, failing, k), ns)
  {
    var i := CourseOf(p, w, failing, k);
    RolledWrites(p, w, i, ns);
    DueShrinks(p, w, i);
    if ns in DoneAfterRounds(p, w, i) {
      EndKeepsCopy(p, Rolled(p, w, i), failing, i == k, Attempted(p, w, failing, k), ns);
    } else {
      WrittenBeforeFailure(p, Rolled(p, w, i), failing, ns);
    }
  }

  ghost predicate WrittenInTheEnd(p: Pass, w: World, failing: set<string>, ns: string) {
    exists k: nat :: HoldsCopy(p, Attempted(p, w, failing, k), ns)
  }

  /** The condition: before everything that fails, and with fewer conflicts than the batch size
      before it. */
  ghost predicate WithinReach(p: Pass, w: World, failing: set<string>, ns: string) {
    && (forall f :: f in failing && f in Due(p, w) ==> Less(ns, f))
    && (p.strategy == Rolling ==> |Before(AllBlocked(p, w), ns)| < Window(p.batchSize))
  }

  lemma CompletedHasRank(p: Pass, w: World, k: nat, ns: string)
    requires p.strategy == Rolling && RecordsHold(p, w) && ns in Writes(w.objects, p.d, p.selected)
    requires ns in DoneAfterRounds(p, w, k)
    ensures |Before(AllBlocked(p, w), ns)| < Window(p.batchSize)
  {
    RecordsHoldIsStart(p, w);
    assert ns !in p.DoneBefore(w) && ns !in AllBlocked(p, w);
    if |Before(AllBlocked(p, w), ns)| >= Window(p.batchSize) {
      NeverReached(p.selected, AllBlocked(p, w), Window(p.batchSize), p.DoneBefore(w), ns, k);
    }
  }

  lemma WrittenIsWithinReach(p: Pass, w: World, failing: set<string>, k: nat, ns: string)
    requires p.strategy == Rolling ==> RecordsHold(p, w)
    requires ns in Writes(w.objects, p.d, p.selected) && HoldsCopy(p, Attempted(p, w, failing, k), ns)
    ensures WithinReach(p, w, failing, ns)
  {
    WrittenMarkers(p.d);
    forall f | f in failing && f in Due(p, w) ensures Less(ns, f) {
      if !Less(ns, f) {
        HeldUp(p, w, failing, f, ns, k);
      }
    }
    if p.strategy == Rolling {
      var rounds := WrittenIsCompleted(p, w, failing, k, ns);
      CompletedHasRank(p, w, rounds, ns);
    }
  }

  lemma WithinReachIsWritten(p: Pass, w: World, failing: set<string>, ns: string) returns (k: nat)
    requires p.strategy == Rolling ==> RecordsHold(p, w)
    requires ns in Writes(w.objects, p.d, p.selected) && WithinReach(p, w, failing, ns)
    ensures HoldsCopy(p, Attempted(p, w, failing, k), ns)
  {
    if p.strategy == Rolling {
      RecordsHoldIsStart(p, w);
      ExactLimit(p.selected, AllBlocked(p, w), Window(p.batchSize), p.DoneBefore(w), ns);
      k :| ns in DoneIn(p.selected, AllBlocked(p, w), Window(p.batchSize), p.DoneBefore(w), k);
      CompletedIsWritten(p, w, failing, k, ns);
    } else {
      k := 1;
      PlannedSelected(p, w);
      TurnIff(p, w, failing, ns);
      WrittenOnTurn(p, w, failing, ns);
      assert Attempted(p, w, failing, 1) == Next(p, Attempted(p, w, failing, 0), failing);
    }
  }

  /** While some targets fail whenever they have their turn, a target that needs a write is written
      sooner or later if and only if it comes before every failing one that is due and, rolling,
      fewer conflicts than the batch size come before it. */
  lemma WrittenInTheEndIff(p: Pass, w: World, failing: set<string>, ns: string)
    requires p.strategy == Rolling ==> RecordsHold(p, w)
    requires ns in Writes(w.objects, p.d, p.selected)
    ensures WrittenInTheEnd(p, w, failing, ns) <==> WithinReach(p, w, failing, ns)
  {
    if WrittenInTheEnd(p, w, failing, ns) {
      var k: nat :| HoldsCopy(p, Attempted(p, w, failing, k), ns);
      WrittenIsWithinReach(p, w, failing, k, ns);
    }
    if WithinReach(p, w, failing, ns) {
      var k := WithinReachIsWritten(p, w, failing, ns);
    }
  }

  /** So failing targets block no other one if and only if whatever is due and fails comes after
      everything else that would be written without them. */
  lemma BlocksNoOtherIff(p: Pass, w: World, failing: set<string>)
    requires p.strategy == Rolling ==> RecordsHold(p, w)
    ensures (forall ns :: ns in Writes(w.objects, p.d, p.selected) - failing && WrittenInTheEnd(p, w, {}, ns) ==>
               WrittenInTheEnd(p, w, failing, ns))
            <==> (forall ns :: ns in Writes(w.objects, p.d, p.selected) - failing && WithinReach(p, w, {}, ns) ==>
                    forall f :: f in failing && f in Due(p, w) ==> Less(ns, f))
  {
    forall ns | ns in Writes(w.objects, p.d, p.selected)
      ensures WrittenInTheEnd(p, w, {}, ns) <==> WithinReach(p, w, {}, ns)
      ensures WrittenInTheEnd(p, w, failing, ns) <==> WithinReach(p, w, failing, ns)
    {
      WrittenInTheEndIff(p, w, {}, ns);
      WrittenInTheEndIff(p, w, failing, ns);
    }
  }

  /** An input that shows the promise fails: of two absent targets, taken one at a time, the second
      is never written if the first one cannot be. */
  lemma SecondWaitsForFirst(p: Pass, w: World, x: string, y: string)
    requires p.strategy == Rolling && p.batchSize == 1 && p.selected == {x, y} && Less(x, y)
    requires p.key !in w.planner
    requires NamespacedName(x, p.d.source.name) !in w.objects && NamespacedName(y, p.d.source.name) !in w.objects
    ensures WrittenInTheEnd(p, w, {}, y) && !WrittenInTheEnd(p, w, {x}, y)
  {
    assert AllBlocked(p, w) == {};
    WrittenInTheEndIff(p, w, {}, y);
    WrittenInTheEndIff(p, w, {x}, y);
    LessTrichotomy(x, y);
  }

  // ---------------------------------------------------------------------------
  // Cleanup
  // ---------------------------------------------------------------------------

  ghost predicate LeftAlone(p: Pass, w: World, failing: set<string>, k: nat, ns: string) {
    Lookup(Attempted(p, w, failing, k).objects, NamespacedName(ns, p.d.source.name))
    == Lookup(w.objects, NamespacedName(ns, p.d.source.name))
  }

  lemma {:induction false} StandsStill(p: Pass, w: World, failing: set<string>, k: nat)
    requires Fails(p, w, failing) && k >= 1
    ensures Attempted(p, w, failing, k) == Next(p, w, failing)
  {
    if k == 1 {
      assert Attempted(p, w, failing, k - 1) == w;
    } else {
      StandsStill(p, w, failing, k - 1);
      FailureIsFixedPoint(p, w, failing);
    }
  }

  /** A failure in the batch blocks the cleanup as well, for good: a listed target that is no longer
      selected is ever cleaned if and only if nothing in the first batch fails. */
  lemma CleanedInTheEndIff(p: Pass, w: World, failing: set<string>, ns: string)
    requires ns !in p.selected && ListedAt(w.objects, p.d.source, ns)
    ensures (exists k: nat :: !LeftAlone(p, w, failing, k, ns)) <==> Elements(p.Planned(w)) !! failing
  {
    var key := NamespacedName(ns, p.d.source.name);
    OutcomeObjects(p, w, StopAt(p, w, failing));
    OutcomePointwise(p, w, StopAt(p, w, failing), key);
    if Fails(p, w, failing) {
      forall k: nat ensures LeftAlone(p, w, failing, k, ns) {
        if k >= 1 {
          StandsStill(p, w, failing, k);
        }
      }
    } else {
      ListedOutside(p, w, ns);
      DetachedIsUnmanaged(w.objects[key], p.d.source);
      assert Attempted(p, w, failing, 1) == Next(p, Attempted(p, w, failing, 0), failing);
      assert !LeftAlone(p, w, failing, 1, ns);
    }
  }
}

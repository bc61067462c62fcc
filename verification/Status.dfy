/** The status a ConfigPropagation reports after a reconcile that succeeds. */
module Status {
  import opened RolloutPlanner
  import opened Reconcile

  datatype ConditionType = Ready | Progressing | Degraded

  datatype Condition = Condition(kind: ConditionType, status: bool, reason: string)

  const ROLLING_UPDATE := "RollingUpdate"
  const RECONCILED := "Reconciled"
  const ROLLOUT_COMPLETE := "RolloutComplete"
  const HEALTHY := "Healthy"
  const ERROR := "Error"
  const RECONCILE_ERROR := "ReconcileError"

  datatype StatusView = StatusView(
    targetCount: int32, syncedCount: int32, outOfSyncCount: int32, outOfSync: seq<OutOfSyncItem>,
    conditions: seq<Condition>)

  class ConfigPropagationStatus {
    var targetCount: int32
    var syncedCount: int32
    var outOfSyncCount: int32
    var outOfSync: seq<OutOfSyncItem>
    var conditions: seq<Condition>

    constructor ()
      ensures conditions == [] && outOfSync == []
    {
      targetCount, syncedCount, outOfSyncCount := 0, 0, 0;
      outOfSync, conditions := [], [];
    }

    ghost function View(): StatusView
      reads this
    {
      StatusView(targetCount, syncedCount, outOfSyncCount, outOfSync, conditions)
    }

    /** Exactly one condition is of this kind, and it is this one. */
    predicate Says(kind: ConditionType, status: bool, reason: string)
      reads this
    {
      exists i :: 0 <= i < |conditions| && conditions[i] == Condition(kind, status, reason)
                  && forall j :: 0 <= j < |conditions| && conditions[j].kind == kind ==> j == i
    }

    /** The status says what a result says. */
    predicate Shows(result: RolloutResult)
      reads this
    {
      && targetCount == ToInt32(result.totalTargets) && syncedCount == ToInt32(result.completedCount)
      && outOfSyncCount == ToInt32(|result.outOfSync|) && outOfSync == result.outOfSync
      && |conditions| == 3 && Says(Degraded, false, HEALTHY)
      && if result.outOfSync == [] then Says(Ready, true, RECONCILED) && Says(Progressing, false, ROLLOUT_COMPLETE)
         else Says(Ready, false, ROLLING_UPDATE) && Says(Progressing, true, ROLLING_UPDATE)
    }

    /** The status says that a reconcile has failed. */
    predicate ShowsFailure()
      reads this
    {
      && |conditions| == 3 && Says(Degraded, true, RECONCILE_ERROR)
      && Says(Ready, false, ERROR) && Says(Progressing, false, ERROR)
    }

    /** The counts are cut to 32 bits; Ready is decided on the list, not on the counts. */
    method ApplyRolloutStatus(result: RolloutResult)
      modifies this
      ensures Shows(result)
    {
      targetCount := ToInt32(result.totalTargets);
      syncedCount := ToInt32(result.completedCount);
      var pendingCount := |result.outOfSync|;
      outOfSyncCount := ToInt32(pendingCount);
      if pendingCount > 0 {
        outOfSync := result.outOfSync;
      } else {
        outOfSync := [];
      }
      var ready := Condition(Ready, false, "");
      var progressing := Condition(Progressing, false, "");
      var degraded := Condition(Degraded, false, HEALTHY);
      if pendingCount > 0 {
        ready := ready.(status := false, reason := ROLLING_UPDATE);
        progressing := progressing.(status := true, reason := ROLLING_UPDATE);
      } else {
        ready := ready.(status := true, reason := RECONCILED);
        progressing := progressing.(status := false, reason := ROLLOUT_COMPLETE);
      }
      conditions := [ready, progressing, degraded];
      assert conditions[0] == ready && conditions[1] == progressing && conditions[2] == degraded;
    }

    /** A failed reconcile is Degraded and neither Ready nor Progressing; the counts stay. */
    method ApplyErrorStatus()
      modifies this`conditions
      ensures ShowsFailure() && View().(conditions := old(conditions)) == old(View())
    {
      conditions := [
        Condition(Ready, false, ERROR), Condition(Progressing, false, ERROR), Condition(Degraded, true, RECONCILE_ERROR)];
      assert conditions[0].kind == Ready && conditions[1].kind == Progressing && conditions[2].kind == Degraded;
    }
  }

  /** A result is reported as Ready=True. */
  predicate ReportsReady(result: RolloutResult) {
    |result.outOfSync| == 0
  }

  lemma ReadyIffAllDone(p: Pass, w: World)
    ensures ReportsReady(p.Result(w)) <==> p.DoneAfter(w) == p.selected
  {
    Conservation(p, w);
  }

  /** Ready=True is reported exactly when every selected target is counted as completed; the
      reported counts say so too as long as the number of targets fits in 32 bits. */
  lemma ReadyMeansAllCompleted(p: Pass, w: World)
    ensures var result := p.Result(w);
            && (ReportsReady(result) <==> result.completedCount == result.totalTargets)
            && (ReportsReady(result) <==> p.DoneAfter(w) == p.selected)
            && (result.totalTargets < 0x8000_0000 ==>
                  && ToInt32(result.completedCount) + ToInt32(|result.outOfSync|) == ToInt32(result.totalTargets)
                  && (ReportsReady(result) <==> ToInt32(result.completedCount) == ToInt32(result.totalTargets)))
  {
    Conservation(p, w);
    var result := p.Result(w);
    if result.totalTargets < 0x8000_0000 {
      ToInt32Exact(result.totalTargets);
      ToInt32Exact(result.completedCount);
      ToInt32Exact(|result.outOfSync|);
    }
  }
}

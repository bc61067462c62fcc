/** How far a rolling rollout gets, and how fast, as a matter of sets: `targets` are worked on in
    order, at most `window` at a time, and `blocked` ones never complete. */
module RolloutLimit {
  import opened Names

  ghost function NextBatch(targets: set<string>, window: nat, done: set<string>): set<string> {
    Elements(Take(SortSet(targets - done), window))
  }

  ghost function Advance(targets: set<string>, blocked: set<string>, window: nat, done: set<string>): set<string> {
    done + (NextBatch(targets, window, done) - blocked)
  }

  /** The completed targets after k rounds. */
  ghost function DoneIn(targets: set<string>, blocked: set<string>, window: nat, done: set<string>, k: nat): set<string> {
    if k == 0 then done else Advance(targets, blocked, window, DoneIn(targets, blocked, window, done, k - 1))
  }

  /** A starting point: some targets are done, none of them blocked. */
  ghost predicate Start(targets: set<string>, blocked: set<string>, done: set<string>) {
    blocked <= targets && done <= targets && done !! blocked
  }

  lemma NextBatchPending(targets: set<string>, window: nat, done: set<string>)
    ensures NextBatch(targets, window, done) <= targets - done
    ensures |NextBatch(targets, window, done)|
            == if |targets - done| < window then |targets - done| else window
  {
    var batch := Take(SortSet(targets - done), window);
    AscendingNoDuplicates(batch);
    SortSetCount(targets - done);
  }

  lemma AdvanceBounds(targets: set<string>, blocked: set<string>, window: nat, done: set<string>)
    requires Start(targets, blocked, done)
    ensures Start(targets, blocked, Advance(targets, blocked, window, done))
    ensures done <= Advance(targets, blocked, window, done)
  {
    NextBatchPending(targets, window, done);
  }

  lemma {:induction false} DoneBounds(targets: set<string>, blocked: set<string>, window: nat, done: set<string>, k: nat)
    requires Start(targets, blocked, done)
    ensures Start(targets, blocked, DoneIn(targets, blocked, window, done, k))
    ensures done <= DoneIn(targets, blocked, window, done, k)
  {
    if k == 0 {
    } else {
      DoneBounds(targets, blocked, window, done, k - 1);
      AdvanceBounds(targets, blocked, window, DoneIn(targets, blocked, window, done, k - 1));
    }
  }

  /** k * gain, as k rounds of adding. */
  function Total(k: nat, gain: nat): nat {
    if k == 0 then 0 else Total(k - 1, gain) + gain
  }

  lemma {:induction false} TotalIsProduct(k: nat, gain: nat)
    ensures Total(k, gain) == k * gain
  {
    if k == 0 {
    } else {
      TotalIsProduct(k - 1, gain);
      assert k * gain == (k - 1) * gain + gain;
    }
  }

  lemma {:induction false} TotalGrows(k: nat, a: nat, b: nat)
    requires a <= b
    ensures Total(k, a) <= Total(k, b)
    ensures a >= 1 ==> Total(k, a) >= k
  {
    if k == 0 {
    } else {
      TotalGrows(k - 1, a, b);
    }
  }

  // ---------------------------------------------------------------------------
  // Which targets are reached
  // ---------------------------------------------------------------------------

  /** A target with a windowful of blocked targets before it is never reached. */
  lemma {:induction false} NeverReached(
    targets: set<string>, blocked: set<string>, window: nat, done: set<string>, x: string, k: nat)
    requires Start(targets, blocked, done) && x in targets - blocked - done
    requires |Before(blocked, x)| >= window
    ensures x !in DoneIn(targets, blocked, window, done, k)
  {
    if k == 0 {
    } else {
      NeverReached(targets, blocked, window, done, x, k - 1);
      var d := DoneIn(targets, blocked, window, done, k - 1);
      DoneBounds(targets, blocked, window, done, k - 1);
      SubsetCount(Before(blocked, x), Before(targets - d, x));
      TakeByRank(targets - d, window, x);
    }
  }

  /** The members of a batch come before any pending target that is left out. */
  lemma BatchComesFirst(pending: set<string>, window: nat, x: string, y: string)
    requires x in pending && x !in Take(SortSet(pending), window)
    requires y in Take(SortSet(pending), window)
    ensures Less(y, x)
  {
  }

  /** A round that leaves a pending target out is full, and works on targets before it. */
  lemma LeftOut(targets: set<string>, window: nat, done: set<string>, x: string)
    requires x in targets - done && x !in NextBatch(targets, window, done)
    ensures |NextBatch(targets, window, done)| == window
    ensures forall y :: y in NextBatch(targets, window, done) ==> Less(y, x)
  {
    var batch := NextBatch(targets, window, done);
    NextBatchPending(targets, window, done);
    assert x in targets - done - batch;
    DifferenceCount(batch, targets - done);
    forall y | y in batch ensures Less(y, x) {
      BatchComesFirst(targets - done, window, x, y);
    }
  }

  lemma UnblockedShare(batch: set<string>, blocked: set<string>, x: string)
    requires forall y :: y in batch ==> Less(y, x)
    ensures |batch| <= |batch - blocked| + |Before(blocked, x)|
  {
    SubsetCount(batch * blocked, Before(blocked, x));
    DifferenceCount(batch * blocked, batch);
    assert batch - batch * blocked == batch - blocked;
  }

  /** If a round leaves out a target with fewer than a windowful of blocked targets before it,
      that many unblocked ones before it complete. */
  lemma RoundMakesWay(targets: set<string>, blocked: set<string>, window: nat, done: set<string>, x: string)
    requires Start(targets, blocked, done) && x in targets - blocked - done
    requires |Before(blocked, x)| < window
    requires x !in Advance(targets, blocked, window, done)
    ensures |Before(targets - blocked - Advance(targets, blocked, window, done), x)| + (window - |Before(blocked, x)|)
            <= |Before(targets - blocked - done, x)|
  {
    var batch := NextBatch(targets, window, done);
    NextBatchPending(targets, window, done);
    LeftOut(targets, window, done, x);
    UnblockedShare(batch, blocked, x);
    DifferenceCount(batch - blocked, Before(targets - blocked - done, x));
    assert Before(targets - blocked - done, x) - (batch - blocked)
        == Before(targets - blocked - Advance(targets, blocked, window, done), x);
  }

  /** Until a reachable target completes, every round counts. */
  lemma {:induction false} Countdown(
    targets: set<string>, blocked: set<string>, window: nat, done: set<string>, x: string, k: nat)
    requires Start(targets, blocked, done) && x in targets - blocked - done
    requires |Before(blocked, x)| < window
    requires x !in DoneIn(targets, blocked, window, done, k)
    ensures var left := |Before(targets - blocked - DoneIn(targets, blocked, window, done, k), x)|;
            left + Total(k, window - |Before(blocked, x)|) <= |Before(targets - blocked - done, x)|
  {
    if k == 0 {
    } else {
      DoneBounds(targets, blocked, window, done, k - 1);
      Countdown(targets, blocked, window, done, x, k - 1);
      RoundMakesWay(targets, blocked, window, DoneIn(targets, blocked, window, done, k - 1), x);
    }
  }

  /** A deadline for each reachable target. */
  lemma ReachedBy(targets: set<string>, blocked: set<string>, window: nat, done: set<string>, x: string, k: nat)
    requires Start(targets, blocked, done) && x in targets - blocked - done
    requires |Before(blocked, x)| < window
    requires Total(k, window - |Before(blocked, x)|) > |Before(targets - blocked - done, x)|
    ensures x in DoneIn(targets, blocked, window, done, k)
  {
    if x !in DoneIn(targets, blocked, window, done, k) {
      Countdown(targets, blocked, window, done, x, k);
    }
  }

  /** Exactly the targets with fewer than a windowful of blocked targets before them complete. */
  lemma ExactLimit(targets: set<string>, blocked: set<string>, window: nat, done: set<string>, x: string)
    requires Start(targets, blocked, done) && x in targets - blocked - done
    ensures (exists k: nat :: x in DoneIn(targets, blocked, window, done, k)) <==> |Before(blocked, x)| < window
  {
    if |Before(blocked, x)| < window {
      var k := |Before(targets - blocked - done, x)| + 1;
      TotalGrows(k, window - |Before(blocked, x)|, window - |Before(blocked, x)|);
      ReachedBy(targets, blocked, window, done, x, k);
    } else {
      forall k: nat ensures x !in DoneIn(targets, blocked, window, done, k) {
        NeverReached(targets, blocked, window, done, x, k);
      }
    }
  }

  /** What is completed in the end. */
  ghost function Limit(targets: set<string>, blocked: set<string>, window: nat, done: set<string>): set<string> {
    done + set x | x in targets && x !in blocked && |Before(blocked, x)| < window
  }

  /** As many rounds as there are targets are enough to get there. */
  lemma LimitReached(targets: set<string>, blocked: set<string>, window: nat, done: set<string>, k: nat)
    requires Start(targets, blocked, done) && k >= |targets|
    ensures DoneIn(targets, blocked, window, done, k) == Limit(targets, blocked, window, done)
  {
    DoneBounds(targets, blocked, window, done, k);
    forall x | x in targets - blocked - done
      ensures x in DoneIn(targets, blocked, window, done, k) <==> |Before(blocked, x)| < window
    {
      if |Before(blocked, x)| < window {
        BeforeIsFewer(targets - blocked - done, x);
        SubsetCount(targets - blocked - done, targets);
        TotalGrows(k, window - |Before(blocked, x)|, window - |Before(blocked, x)|);
        ReachedBy(targets, blocked, window, done, x, k);
      } else {
        NeverReached(targets, blocked, window, done, x, k);
      }
    }
  }

  /** A round changes nothing exactly when its whole batch is blocked, and then none ever will:
      the limit is reached. */
  lemma StuckIsLimit(targets: set<string>, blocked: set<string>, window: nat, done: set<string>)
    requires Start(targets, blocked, done)
    ensures Advance(targets, blocked, window, done) == done <==> NextBatch(targets, window, done) <= blocked
    ensures Advance(targets, blocked, window, done) == done <==> Limit(targets, blocked, window, done) == done
  {
    NextBatchPending(targets, window, done);
    if Advance(targets, blocked, window, done) == done {
      StaysStuck(targets, blocked, window, done, |targets|);
      LimitReached(targets, blocked, window, done, |targets|);
    }
    if Limit(targets, blocked, window, done) == done {
      var first := DoneIn(targets, blocked, window, done, 1);
      assert first == Advance(targets, blocked, window, DoneIn(targets, blocked, window, done, 0));
      forall x | x in first ensures x in done {
        if x !in done {
          DoneBounds(targets, blocked, window, done, 1);
          ExactLimit(targets, blocked, window, done, x);
        }
      }
    }
  }

  lemma {:induction false} StaysStuck(targets: set<string>, blocked: set<string>, window: nat, done: set<string>, k: nat)
    requires Advance(targets, blocked, window, done) == done
    ensures DoneIn(targets, blocked, window, done, k) == done
  {
    if k == 0 {
    } else {
      StaysStuck(targets, blocked, window, done, k - 1);
    }
  }

  // ---------------------------------------------------------------------------
  // How many rounds it takes
  // ---------------------------------------------------------------------------

  /** With fewer blocked targets than the window is wide, every unblocked target is done after
      ceil(pending / (window - blocked)) rounds. */
  lemma EnoughRounds(targets: set<string>, blocked: set<string>, window: nat, done: set<string>, k: nat)
    requires Start(targets, blocked, done) && |blocked| < window
    requires k * (window - |blocked|) >= |targets - blocked - done|
    ensures DoneIn(targets, blocked, window, done, k) == targets - blocked
  {
    TotalIsProduct(k, window - |blocked|);
    EnoughInTotal(targets, blocked, window, done, k);
  }

  lemma EnoughInTotal(targets: set<string>, blocked: set<string>, window: nat, done: set<string>, k: nat)
    requires Start(targets, blocked, done) && |blocked| < window
    requires Total(k, window - |blocked|) >= |targets - blocked - done|
    ensures DoneIn(targets, blocked, window, done, k) == targets - blocked
  {
    DoneBounds(targets, blocked, window, done, k);
    forall x | x in targets - blocked - done ensures x in DoneIn(targets, blocked, window, done, k) {
      EnoughRoundsFor(targets, blocked, window, done, k, x);
    }
  }

  lemma EnoughRoundsFor(targets: set<string>, blocked: set<string>, window: nat, done: set<string>, k: nat, x: string)
    requires Start(targets, blocked, done) && |blocked| < window && x in targets - blocked - done
    requires Total(k, window - |blocked|) >= |targets - blocked - done|
    ensures x in DoneIn(targets, blocked, window, done, k)
  {
    SubsetCount(Before(blocked, x), blocked);
    BeforeIsFewer(targets - blocked - done, x);
    TotalGrows(k, window - |blocked|, window - |Before(blocked, x)|);
    ReachedBy(targets, blocked, window, done, x, k);
  }

  lemma BeforeIsFewer(s: set<string>, x: string)
    requires x in s
    ensures |Before(s, x)| < |s|
  {
    SubsetCount(Before(s, x) + {x}, s);
  }

  /** A round completes no more than a windowful: k rounds complete what one list of that many
      windowfuls names. */
  lemma {:induction false} NotFaster(targets: set<string>, blocked: set<string>, window: nat, done: set<string>, k: nat)
    returns (worked: seq<string>)
    ensures |worked| <= Total(k, window)
    ensures DoneIn(targets, blocked, window, done, k) <= done + Elements(worked)
  {
    if k == 0 {
      worked := [];
    } else {
      var before := NotFaster(targets, blocked, window, done, k - 1);
      var batch := Take(SortSet(targets - DoneIn(targets, blocked, window, done, k - 1)), window);
      worked := before + batch;
      assert Elements(worked) == Elements(before) + Elements(batch);
    }
  }

  lemma {:induction false} ElementsFewer(s: seq<string>)
    ensures |Elements(s)| <= |s|
  {
    if s == [] {
    } else {
      var n := |s| - 1;
      ElementsFewer(s[..n]);
      assert Elements(s) == Elements(s[..n]) + {s[n]};
    }
  }

  /** Without blocked targets, k rounds complete the rollout exactly if k * window covers what was
      pending: ceil(pending / window) rounds, no more and no fewer. */
  lemma ExactRounds(targets: set<string>, window: nat, done: set<string>, k: nat)
    requires done <= targets && window >= 1
    ensures DoneIn(targets, {}, window, done, k) == targets <==> k * window >= |targets - done|
  {
    assert targets - {} == targets;
    assert targets - {} - done == targets - done;
    if k * window >= |targets - done| {
      EnoughRounds(targets, {}, window, done, k);
    }
    TotalIsProduct(k, window);
    var worked := NotFaster(targets, {}, window, done, k);
    ElementsFewer(worked);
    if DoneIn(targets, {}, window, done, k) == targets {
      SubsetCount(targets - done, Elements(worked));
    }
  }
}

/** The in-memory planner that remembers, per ConfigPropagation, which namespaces already hold
    the current content. */
module RolloutPlanner {
  import opened Names

  type int32 = x: int | -0x8000_0000 <= x < 0x8000_0000

  /** Go's int32(n): the low 32 bits as a signed number. */
  function ToInt32(n: int): (r: int32)
    ensures (n - r) % 0x1_0000_0000 == 0
  {
    (n + 0x8000_0000) % 0x1_0000_0000 - 0x8000_0000
  }

  lemma ToInt32Exact(n: nat)
    requires n < 0x8000_0000
    ensures ToInt32(n) == n
  {
  }

  datatype Strategy = Immediate | Rolling

  // ---------------------------------------------------------------------------
  // The planner as a map
  // ---------------------------------------------------------------------------

  datatype Progress = Progress(hash: string, completed: set<string>)

  type Progresses = map<NamespacedName, Progress>

  /** What the planner holds for one id, as far as the given hash is concerned. */
  function CompletedFor(p: Progresses, id: NamespacedName, hash: string): set<string> {
    if id in p && p[id].hash == hash then p[id].completed else {}
  }

  function AfterPlan(p: Progresses, id: NamespacedName, hash: string, strategy: Strategy, targets: set<string>)
    : Progresses
  {
    if strategy == Immediate then p
    else p[id := Progress(hash, CompletedFor(p, id, hash) * targets)]
  }

  function AfterMark(p: Progresses, id: NamespacedName, hash: string, namespaces: set<string>): Progresses {
    if namespaces == {} then p
    else p[id := Progress(hash, CompletedFor(p, id, hash) + namespaces)]
  }

  /** Entry by entry: planning immediately changes nothing; planning a rolling batch keeps what was
      recorded for the same hash and is a target. */
  lemma PlanEffect(p: Progresses, id: NamespacedName, hash: string, strategy: Strategy, targets: set<string>)
    ensures var after := AfterPlan(p, id, hash, strategy, targets);
            if strategy == Immediate then after == p else
              && id in after && after - {id} == p - {id} && after[id].hash == hash
              && forall x :: x in after[id].completed
                             <==> id in p && p[id].hash == hash && x in p[id].completed && x in targets
  {
  }

  /** Entry by entry: marking nothing changes nothing; marking something adds it to what was recorded
      for the same hash. */
  lemma MarkEffect(p: Progresses, id: NamespacedName, hash: string, namespaces: set<string>)
    ensures var after := AfterMark(p, id, hash, namespaces);
            if namespaces == {} then after == p else
              && id in after && after - {id} == p - {id} && after[id].hash == hash
              && forall x :: x in after[id].completed
                             <==> x in namespaces || (id in p && p[id].hash == hash && x in p[id].completed)
  {
  }

  /** A batch size below one counts as one. */
  function Window(batchSize: int32): (w: nat) {
    if batchSize < 1 then 1 else batchSize
  }

  /** The namespaces to work on now: all of them, or the first few that are not completed. */
  ghost function Batch(strategy: Strategy, batchSize: int32, completed: set<string>, targets: set<string>)
    : seq<string>
  {
    if strategy == Immediate then SortSet(targets)
    else Take(SortSet(targets - completed), Window(batchSize))
  }

  /** The planner's choice from a list in any order: the whole list, or its first entries that are
      not completed. */
  ghost function Chosen(strategy: Strategy, batchSize: int32, completed: set<string>, targets: seq<string>): seq<string> {
    if strategy == Immediate then targets
    else Take(Select(targets, Elements(targets) - completed), Window(batchSize))
  }

  /** From a list without repetition the planner chooses as many as the batch size. */
  lemma ChosenCount(batchSize: int32, completed: set<string>, targets: seq<string>)
    requires NoDuplicates(targets)
    ensures var chosen, pending := Chosen(Rolling, batchSize, completed, targets), Elements(targets) - completed;
            && NoDuplicates(chosen) && Elements(chosen) <= pending
            && (batchSize >= 1 ==> |chosen| == if |pending| < batchSize then |pending| else batchSize)
            && (batchSize < 1 ==> |chosen| == if pending == {} then 0 else 1)
  {
    var pending := Elements(targets) - completed;
    SelectNoDuplicates(targets, pending);
    ElementsCount(Select(targets, pending));
    assert Elements(Select(targets, pending)) == pending;
  }

  /** From a sorted list without repetition the planner chooses the batch. */
  lemma ChosenIsBatch(strategy: Strategy, batchSize: int32, completed: set<string>, targets: seq<string>)
    requires Ascending(targets)
    ensures Chosen(strategy, batchSize, completed, targets) == Batch(strategy, batchSize, completed, Elements(targets))
  {
    if strategy == Immediate {
      AscendingIsSortSet(targets);
    } else {
      PendingInOrder(targets, completed);
    }
  }

  /** A rolling batch consists of targets that are not completed; it is as large as the window
      allows; and whatever is left out comes after all of it. */
  lemma BatchIsFirstPending(batchSize: int32, completed: set<string>, targets: set<string>)
    ensures var batch := Batch(Rolling, batchSize, completed, targets);
            var pending := targets - completed;
            && Ascending(batch)
            && Elements(batch) <= pending
            && (batchSize >= 1 ==> |batch| == if |pending| < batchSize then |pending| else batchSize)
            && (batchSize < 1 ==> |batch| == if pending == {} then 0 else 1)
            && forall x, y :: x in batch && y in pending && y !in batch ==> Less(x, y)
  {
    var pending := targets - completed;
    var batch := Batch(Rolling, batchSize, completed, targets);
    var all := SortSet(pending);
    SortSetCount(pending);
    forall x, y | x in batch && y in pending && y !in batch ensures Less(x, y) {
      var i :| 0 <= i < |batch| && batch[i] == x;
      var j :| 0 <= j < |all| && all[j] == y;
      assert j >= |batch|;
      assert all[i] == x;
    }
  }

  // ---------------------------------------------------------------------------
  // Sequences of operations
  // ---------------------------------------------------------------------------

  datatype Operation =
    | PlanOp(id: NamespacedName, hash: string, strategy: Strategy, targets: set<string>)
    | MarkOp(id: NamespacedName, hash: string, namespaces: set<string>)
    | ForgetOp(id: NamespacedName)

  function Apply(p: Progresses, op: Operation): Progresses {
    match op
    case PlanOp(id, hash, strategy, targets) => AfterPlan(p, id, hash, strategy, targets)
    case MarkOp(id, hash, namespaces) => AfterMark(p, id, hash, namespaces)
    case ForgetOp(id) => p - {id}
  }

  function ApplyAll(p: Progresses, ops: seq<Operation>): Progresses
    decreases |ops|
  {
    if ops == [] then p else ApplyAll(Apply(p, ops[0]), ops[1..])
  }

  function About(ops: seq<Operation>, id: NamespacedName): seq<Operation> {
    if ops == [] then [] else (if ops[0].id == id then [ops[0]] else []) + About(ops[1..], id)
  }

  /** What the planner holds for an id after any sequence of operations depends only on what it
      held before and on the operations on that id. */
  lemma {:induction false} OnlyOwnOperationsMatter(p: Progresses, q: Progresses, ops: seq<Operation>, id: NamespacedName)
    requires id in p <==> id in q
    requires id in p ==> p[id] == q[id]
    ensures id in ApplyAll(p, ops) <==> id in ApplyAll(q, About(ops, id))
    ensures id in ApplyAll(p, ops) ==> ApplyAll(p, ops)[id] == ApplyAll(q, About(ops, id))[id]
    decreases |ops|
  {
    if ops == [] {
    } else {
      var rest := About(ops[1..], id);
      if ops[0].id == id {
        assert About(ops, id) == [ops[0]] + rest;
        assert ([ops[0]] + rest)[1..] == rest;
        OnlyOwnOperationsMatter(Apply(p, ops[0]), Apply(q, ops[0]), ops[1..], id);
      } else {
        assert About(ops, id) == [] + rest == rest;
        OnlyOwnOperationsMatter(Apply(p, ops[0]), q, ops[1..], id);
      }
    }
  }

  /** Completed targets stay completed while the hash does not change and they stay selected. */
  lemma {:induction false} ProgressIsKept(p: Progresses, ops: seq<Operation>, id: NamespacedName, hash: string, ns: string)
    requires ns in CompletedFor(p, id, hash)
    requires forall op :: op in ops && op.id == id ==>
      !op.ForgetOp? && op.hash == hash && (op.PlanOp? ==> ns in op.targets)
    ensures ns in CompletedFor(ApplyAll(p, ops), id, hash)
    decreases |ops|
  {
    if ops == [] {
    } else {
      assert ops[0] in ops;
      ProgressIsKept(Apply(p, ops[0]), ops[1..], id, hash, ns);
    }
  }

  // ---------------------------------------------------------------------------
  // The planner as the program keeps it
  // ---------------------------------------------------------------------------

  class RolloutState {
    var hash: string
    var completed: set<string>

    constructor (hash: string)
      ensures this.hash == hash && completed == {}
    {
      this.hash := hash;
      completed := {};
    }

    /** Adds namespaces one by one. */
    method Add(namespaces: seq<string>)
      modifies this`completed
      ensures completed == old(completed) + Elements(namespaces)
    {
      for i := 0 to |namespaces|
        invariant completed == old(completed) + Elements(namespaces[..i])
      {
        completed := completed + {namespaces[i]};
      }
      assert namespaces[..|namespaces|] == namespaces;
    }
  }

  class Planner {
    var states: map<NamespacedName, RolloutState>
    ghost var owned: set<RolloutState>

    ghost var progresses: Progresses

    /** No two ids share a state object, and the abstract map is what the objects hold. */
    ghost predicate Valid()
      reads this, owned
    {
      && (forall i :: i in states ==> states[i] in owned)
      && (forall i, j :: i in states && j in states && i != j ==> states[i] != states[j])
      && progresses.Keys == states.Keys
      && (forall i :: i in states ==> progresses[i] == Progress(states[i].hash, states[i].completed))
    }

    constructor ()
      ensures Valid() && progresses == map[] && owned == {}
    {
      states := map[];
      owned := {};
      progresses := map[];
    }

    /** Retrieves the state for an id, creating it or resetting it when the hash differs. */
    method EnsureState(id: NamespacedName, hash: string) returns (state: RolloutState)
      requires Valid()
      modifies this, owned
      ensures Valid()
      ensures forall o :: o in owned ==> o in old(owned) || fresh(o)
      ensures id in states && states[id] == state
      ensures progresses == old(progresses)[id := Progress(hash, CompletedFor(old(progresses), id, hash))]
    {
      progresses := progresses[id := Progress(hash, CompletedFor(progresses, id, hash))];
      if id !in states {
        state := new RolloutState(hash);
        states := states[id := state];
        owned := owned + {state};
        return;
      }
      state := states[id];
      if state.hash != hash {
        state.hash := hash;
        state.completed := {};
      }
    }

    method Plan(id: NamespacedName, hash: string, strategy: Strategy, batchSize: int32, targets: seq<string>)
      returns (planned: seq<string>, done: nat)
      requires Valid()
      modifies this, owned
      ensures Valid()
      ensures forall o :: o in owned ==> o in old(owned) || fresh(o)
      ensures progresses == AfterPlan(old(progresses), id, hash, strategy, Elements(targets))
      ensures planned == Chosen(strategy, batchSize, CompletedFor(progresses, id, hash), targets)
      ensures done == if strategy == Immediate then |targets| else |CompletedFor(progresses, id, hash)|
      ensures strategy == Rolling && NoDuplicates(targets) ==>
        var pending := Elements(targets) - CompletedFor(progresses, id, hash);
        && NoDuplicates(planned) && Elements(planned) <= pending
        && (batchSize >= 1 ==> |planned| == if |pending| < batchSize then |pending| else batchSize)
        && (batchSize < 1 ==> |planned| == if pending == {} then 0 else 1)
    {
      if strategy == Immediate {
        return targets, |targets|;
      }
      var state := SelectedState(id, hash, Elements(targets));
      planned := FirstPending(state.completed, Window(batchSize), targets);
      done := |state.completed|;
      if NoDuplicates(targets) {
        ChosenCount(batchSize, state.completed, targets);
      }
    }

    /** The state for an id and hash, rid of entries that are no longer selected. */
    method SelectedState(id: NamespacedName, hash: string, allowed: set<string>) returns (state: RolloutState)
      requires Valid()
      modifies this, owned
      ensures Valid()
      ensures forall o :: o in owned ==> o in old(owned) || fresh(o)
      ensures id in states && states[id] == state
      ensures progresses
              == old(progresses)[id := Progress(hash, CompletedFor(old(progresses), id, hash) * allowed)]
    {
      state := EnsureState(id, hash);
      DropDeselected(id, allowed);
    }

    /** Drops completed entries that are no longer selected, one by one. */
    method DropDeselected(id: NamespacedName, allowed: set<string>)
      requires Valid() && id in states
      modifies states[id], this`progresses
      ensures Valid()
      ensures progresses == old(progresses)[id := Progress(old(states[id].hash), old(states[id].completed) * allowed)]
    {
      var state := states[id];
      var todo := state.completed;
      while todo != {}
        modifies state
        invariant state.hash == old(state.hash)
        invariant todo <= old(state.completed)
        invariant state.completed == old(state.completed) * allowed + todo
        decreases todo
      {
        var namespace :| namespace in todo;
        todo := todo - {namespace};
        if namespace !in allowed {
          state.completed := state.completed - {namespace};
        }
      }
      assert state.completed == old(state.completed) * allowed;
      progresses := progresses[id := Progress(state.hash, state.completed)];
    }

    /** Walks the targets in order and stops as soon as the batch is full. */
    static method FirstPending(completed: set<string>, window: nat, targets: seq<string>)
      returns (planned: seq<string>)
      requires 1 <= window < 0x8000_0000
      ensures planned == Take(Select(targets, Elements(targets) - completed), window)
    {
      planned := [];
      ghost var pending := Elements(targets) - completed;
      for i := 0 to |targets|
        invariant planned == Select(targets[..i], pending)
        invariant |planned| < window
      {
        SelectNext(targets, pending, i);
        if targets[i] !in completed {
          planned := planned + [targets[i]];
          ToInt32Exact(|planned|);
          if ToInt32(|planned|) >= window {
            SelectStopsEarly(targets, pending, i + 1, window);
            return;
          }
        }
      }
      assert targets[..|targets|] == targets;
    }

    /** An empty list touches nothing, not even a state for another hash. */
    method MarkCompleted(id: NamespacedName, hash: string, namespaces: seq<string>) returns (count: nat)
      requires Valid()
      modifies this, owned
      ensures Valid()
      ensures forall o :: o in owned ==> o in old(owned) || fresh(o)
      ensures progresses == AfterMark(old(progresses), id, hash, Elements(namespaces))
      ensures count == |CompletedFor(progresses, id, hash)|
    {
      if |namespaces| == 0 {
        assert Elements(namespaces) == {};
        count := CountFor(id, hash);
      } else {
        assert namespaces[0] in Elements(namespaces);
        count := MarkSome(id, hash, namespaces);
      }
    }

    method CountFor(id: NamespacedName, hash: string) returns (count: nat)
      requires Valid()
      ensures count == |CompletedFor(progresses, id, hash)|
    {
      count := if id in states && states[id].hash == hash then |states[id].completed| else 0;
    }

    method MarkSome(id: NamespacedName, hash: string, namespaces: seq<string>) returns (count: nat)
      requires Valid()
      modifies this, owned
      ensures Valid()
      ensures forall o :: o in owned ==> o in old(owned) || fresh(o)
      ensures progresses
              == old(progresses)[id := Progress(hash, CompletedFor(old(progresses), id, hash) + Elements(namespaces))]
      ensures count == |progresses[id].completed|
    {
      ghost var before := Progress(hash, CompletedFor(progresses, id, hash));
      UpdateTwice(progresses, id, before, Progress(hash, before.completed + Elements(namespaces)));
      var state := EnsureState(id, hash);
      count := AddAll(id, namespaces, before);
    }

    method AddAll(id: NamespacedName, namespaces: seq<string>, ghost was: Progress) returns (count: nat)
      requires Valid() && id in states && progresses[id] == was
      modifies states[id], this`progresses
      ensures Valid()
      ensures progresses == old(progresses)[id := Progress(was.hash, was.completed + Elements(namespaces))]
      ensures count == |was.completed + Elements(namespaces)|
    {
      var state := states[id];
      state.Add(namespaces);
      progresses := progresses[id := Progress(state.hash, state.completed)];
      count := |state.completed|;
    }

    method CompletedNamespaces(id: NamespacedName, hash: string) returns (completed: seq<string>)
      requires Valid()
      ensures completed == SortSet(CompletedFor(progresses, id, hash))
    {
      if id !in states || states[id].hash != hash {
        completed := [];
        AscendingIsSortSet(completed);
        assert Elements(completed) == {};
        return;
      }
      completed := Listing(states[id].completed);
      SortIsSortSet(completed);
      completed := Sort(completed);
    }

    /** Ranges over a set in whatever order it yields its members. */
    static method Listing(s: set<string>) returns (r: seq<string>)
      ensures NoDuplicates(r) && Elements(r) == s
    {
      r := [];
      var todo := s;
      while todo != {}
        invariant todo <= s
        invariant NoDuplicates(r) && Elements(r) == s - todo
        decreases todo
      {
        var x :| x in todo;
        assert x !in Elements(r);
        assert Elements(r + [x]) == Elements(r) + {x};
        r := r + [x];
        todo := todo - {x};
      }
    }

    method Forget(id: NamespacedName)
      requires Valid()
      modifies this
      ensures Valid() && owned == old(owned)
      ensures progresses == old(progresses) - {id}
    {
      states := states - {id};
      progresses := progresses - {id};
    }
  }

  lemma UpdateTwice(p: Progresses, id: NamespacedName, first: Progress, second: Progress)
    ensures p[id := first][id := second] == p[id := second]
  {
  }

  /** Filtering a longer prefix only extends the result. */
  lemma {:induction false} SelectPrefix(s: seq<string>, keep: set<string>, i: nat)
    requires i <= |s|
    ensures Select(s[..i], keep) <= Select(s, keep)
    decreases |s|
  {
    if i == |s| {
      assert s[..i] == s;
    } else {
      var n := |s| - 1;
      assert s[..n][..i] == s[..i];
      SelectPrefix(s[..n], keep, i);
    }
  }

  lemma SelectStopsEarly(s: seq<string>, keep: set<string>, i: nat, n: nat)
    requires i <= |s| && |Select(s[..i], keep)| == n
    ensures Select(s[..i], keep) == Take(Select(s, keep), n)
  {
    SelectPrefix(s, keep, i);
  }

  lemma PendingInOrder(targets: seq<string>, completed: set<string>)
    requires Ascending(targets)
    ensures Select(targets, Elements(targets) - completed) == SortSet(Elements(targets) - completed)
  {
    SelectIsSortSet(targets, Elements(targets) - completed);
    assert Elements(targets) * (Elements(targets) - completed) == Elements(targets) - completed;
  }
}

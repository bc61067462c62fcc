/** The finalizer protocol: one controller working through its calls while users create, edit and
    delete the resource in between, and any call may fail. */
module Protocol {
  import opened Names
  import opened ConfigMaps
  import opened Reconcile

  const FINALIZER := "configpropagator.platform.example.com/finalizer"

  /** The stored resource. Every write gives it a new version. */
  datatype Stored = Stored(version: nat, finalizers: set<string>, deleting: bool, spec: Spec)

  /** The API server's record of the resource; revision is the last version it gave out. */
  datatype Api = Api(stored: Option<Stored>, revision: nat)

  /** Where the controller is between two calls. It works from the copy it has read. */
  datatype Phase =
    | Idle
    | Loaded(copy: Stored)
    | Working(copy: Stored)
    | Cleaning(copy: Stored, todo: set<string>)
    | Cleared(copy: Stored)

  datatype System = System(api: Api, objects: Objects, phase: Phase)

  predicate Guarded(api: Api) {
    api.stored.Some? && FINALIZER in api.stored.value.finalizers
  }

  /** An object marked for deletion is removed once its last finalizer is. */
  function Settled(s: Stored): Option<Stored> {
    if s.deleting && s.finalizers == {} then None else Some(s)
  }

  // ---------------------------------------------------------------------------
  // What others do
  // ---------------------------------------------------------------------------

  function Bumped(api: Api, s: Stored): Api {
    Api(Settled(s.(version := api.revision + 1)), api.revision + 1)
  }

  /** One request of a user or another controller: create, delete, or edit anything but our
      finalizer. Deleting an object with finalizers only marks it. */
  ghost predicate Request(api: Api, api': Api) {
    || (api.stored.None? && api'.stored.Some? && !api'.stored.value.deleting
        && api'.revision == api'.stored.value.version == api.revision + 1)
    || (api.stored.Some? && api' == Bumped(api, api.stored.value.(deleting := true)))
    || (api.stored.Some? && exists s :: EditOf(api.stored.value, s) && api' == Bumped(api, s))
  }

  predicate EditOf(s: Stored, s': Stored) {
    s'.deleting == s.deleting && (FINALIZER in s'.finalizers <==> FINALIZER in s.finalizers)
  }

  /** Others may change objects as they like, short of marking one as a target of this source. */
  ghost predicate OthersLeaveMarkers(source: NamespacedName, objects: Objects, objects': Objects) {
    ListedNamespaces(objects', source) <= ListedNamespaces(objects, source)
  }

  // ---------------------------------------------------------------------------
  // What the controller does
  // ---------------------------------------------------------------------------

  /** Storing an edited copy: refused unless the stored object is still the one that was read. */
  predicate CanStore(api: Api, copy: Stored) {
    api.stored.Some? && api.stored.value.version == copy.version
  }

  function StoredWith(api: Api, copy: Stored, finalizers: set<string>): Api {
    Bumped(api, copy.(finalizers := finalizers))
  }

  /** Some part of a reconcile: syncing some targets to some content, then cleaning some. */
  ghost predicate SomeWork(source: NamespacedName, objects: Objects, objects': Objects) {
    exists d: Desired, synced: set<string>, prune: bool, cleaned: set<string> ::
      d.source == source && objects' == WorkOn(objects, d, synced, prune, cleaned)
  }

  function WorkOn(objects: Objects, d: Desired, synced: set<string>, prune: bool, cleaned: set<string>): Objects {
    CleanObjects(SyncObjects(objects, d, synced), d.source.name, prune, cleaned)
  }

  ghost predicate ControllerStep(source: NamespacedName, s: System, s': System) {
    match s.phase
    case Idle =>
      s.api.stored.Some? && s' == s.(phase := Loaded(s.api.stored.value))
    case Loaded(copy) =>
      || (!copy.deleting && FINALIZER in copy.finalizers && s' == s.(phase := Working(copy)))
      || (!copy.deleting && FINALIZER !in copy.finalizers && CanStore(s.api, copy)
          && var api := StoredWith(s.api, copy, copy.finalizers + {FINALIZER});
             api.stored.Some? && s' == System(api, s.objects, Working(api.stored.value)))
      || (copy.deleting && FINALIZER in copy.finalizers
          && s' == s.(phase := Cleaning(copy, ListedNamespaces(s.objects, source))))
    case Working(copy) =>
      s'.api == s.api && s'.phase == s.phase && SomeWork(source, s.objects, s'.objects)
    case Cleaning(copy, todo) =>
      || (todo == {} && s' == s.(phase := Cleared(copy)))
      || exists part :: part <= todo
           && s' == System(s.api, CleanObjects(s.objects, source.name, copy.spec.prune, part), Cleaning(copy, todo - part))
    case Cleared(copy) =>
      CanStore(s.api, copy) && s' == System(StoredWith(s.api, copy, copy.finalizers - {FINALIZER}), s.objects, Idle)
  }

  /** A call that fails, a conflict, the end of a reconcile or a restart: back to the start with
      nothing changed. */
  predicate GiveUp(s: System, s': System) {
    s' == s.(phase := Idle)
  }

  ghost predicate OthersStep(source: NamespacedName, s: System, s': System) {
    && s'.phase == s.phase
    && (s'.api == s.api || Request(s.api, s'.api))
    && OthersLeaveMarkers(source, s.objects, s'.objects)
  }

  ghost predicate Next(source: NamespacedName, s: System, s': System) {
    ControllerStep(source, s, s') || GiveUp(s, s') || OthersStep(source, s, s')
  }

  ghost predicate IsTrace(source: NamespacedName, trace: seq<System>) {
    && trace != []
    && forall i :: 0 <= i < |trace| - 1 ==> Next(source, trace[i], trace[i + 1])
  }

  // ---------------------------------------------------------------------------
  // Safety
  // ---------------------------------------------------------------------------

  /** No target is listed for the source unless the resource exists and carries the finalizer. */
  ghost predicate NoOrphans(source: NamespacedName, s: System) {
    ListedNamespaces(s.objects, source) != {} ==> Guarded(s.api)
  }

  /** The copy the controller works from is old, or it is what is stored. */
  predicate CopyIsOldOrCurrent(api: Api, copy: Stored) {
    && copy.version <= api.revision
    && (api.stored.Some? && api.stored.value.version == copy.version ==> api.stored.value == copy)
  }

  ghost predicate PhaseHolds(source: NamespacedName, s: System) {
    match s.phase
    case Idle => true
    case Loaded(copy) => CopyIsOldOrCurrent(s.api, copy) && (FINALIZER in copy.finalizers ==> Guarded(s.api))
    case Working(copy) => CopyIsOldOrCurrent(s.api, copy) && Guarded(s.api)
    case Cleaning(copy, todo) => CopyIsOldOrCurrent(s.api, copy) && ListedNamespaces(s.objects, source) <= todo
    case Cleared(copy) => CopyIsOldOrCurrent(s.api, copy) && ListedNamespaces(s.objects, source) == {}
  }

  ghost predicate Safe(source: NamespacedName, s: System) {
    && NoOrphans(source, s)
    && PhaseHolds(source, s)
    && (s.api.stored.Some? ==> s.api.stored.value.version <= s.api.revision)
  }

  lemma OthersKeepSafe(source: NamespacedName, s: System, s': System)
    requires Safe(source, s) && OthersStep(source, s, s')
    ensures Safe(source, s')
  {
  }

  lemma ControllerKeepsSafe(source: NamespacedName, s: System, s': System)
    requires Safe(source, s) && ControllerStep(source, s, s')
    ensures Safe(source, s')
  {
    match s.phase {
      case Idle =>
      case Loaded(copy) =>
      case Working(copy) =>
      case Cleaning(copy, todo) =>
        if !(todo == {} && s' == s.(phase := Cleared(copy))) {
          var part :| part <= todo
            && s' == System(s.api, CleanObjects(s.objects, source.name, copy.spec.prune, part), Cleaning(copy, todo - part));
          ListedAfterClean(s.objects, source, copy.spec.prune, part);
        }
      case Cleared(copy) =>
    }
  }

  /** Every step, at the granularity of single calls, keeps the system safe. */
  lemma NextKeepsSafe(source: NamespacedName, s: System, s': System)
    requires Safe(source, s) && Next(source, s, s')
    ensures Safe(source, s')
  {
    if OthersStep(source, s, s') {
      OthersKeepSafe(source, s, s');
    } else if ControllerStep(source, s, s') {
      ControllerKeepsSafe(source, s, s');
    }
  }

  /** Over every interleaving: as long as a target is listed, the resource exists and carries the
      finalizer; so once the resource is gone none is left. */
  lemma {:induction false} NoOrphansEver(source: NamespacedName, trace: seq<System>, i: nat)
    requires IsTrace(source, trace) && Safe(source, trace[0]) && i < |trace|
    ensures Safe(source, trace[i])
    ensures NoOrphans(source, trace[i])
    ensures trace[i].api.stored.None? ==> ListedNamespaces(trace[i].objects, source) == {}
  {
    if i == 0 {
    } else {
      NoOrphansEver(source, trace, i - 1);
      NextKeepsSafe(source, trace[i - 1], trace[i]);
    }
  }

  /** A resource that carries our finalizer disappears in one way only: it is marked for deletion, the
      finalizer is its last one, and the controller gives it up with no target listed any more. */
  lemma OnlyClearedRemoves(source: NamespacedName, s: System, s': System)
    requires Safe(source, s) && Next(source, s, s') && Guarded(s.api) && s'.api.stored.None?
    ensures s.phase.Cleared? && ListedNamespaces(s.objects, source) == {}
    ensures s.api.stored.value.deleting && s.api.stored.value.finalizers == {FINALIZER}
  {
  }

  // ---------------------------------------------------------------------------
  // Targets with one marker
  // ---------------------------------------------------------------------------

  /** Every target that sync takes for managed is listed. */
  ghost predicate Paired(source: NamespacedName, objects: Objects) {
    forall ns :: PairedAt(objects, source, ns)
  }

  ghost predicate KeepsPairs(source: NamespacedName, s: System, s': System) {
    Paired(source, s.objects) ==> Paired(source, s'.objects)
  }

  lemma ControllerKeepsPairs(source: NamespacedName, s: System, s': System)
    requires Paired(source, s.objects) && ControllerStep(source, s, s')
    ensures Paired(source, s'.objects)
  {
    match s.phase {
      case Idle =>
      case Loaded(copy) =>
      case Working(copy) =>
        var d: Desired, synced, prune, cleaned :|
          d.source == source && s'.objects == WorkOn(s.objects, d, synced, prune, cleaned);
        forall ns ensures PairedAt(s'.objects, source, ns) {
          assert PairedAt(s.objects, source, ns);
          PassKeepsPairs(s.objects, d, synced, prune, cleaned, ns);
        }
      case Cleaning(copy, todo) =>
        if s'.objects != s.objects {
          var part :| s'.objects == CleanObjects(s.objects, source.name, copy.spec.prune, part);
          forall ns ensures PairedAt(s'.objects, source, ns) {
            assert PairedAt(s.objects, source, ns);
            CleaningKeepsPairs(s.objects, source, copy.spec.prune, part, ns);
          }
        }
      case Cleared(copy) =>
    }
  }

  /** In every trace in which others do not part the markers of a target, no target is taken for
      managed once the resource is gone. */
  lemma {:induction false} NoManagedOrphansEver(source: NamespacedName, trace: seq<System>, i: nat)
    requires IsTrace(source, trace) && Safe(source, trace[0]) && Paired(source, trace[0].objects) && i < |trace|
    requires forall j :: 0 <= j < |trace| - 1 && OthersStep(source, trace[j], trace[j + 1]) ==>
      KeepsPairs(source, trace[j], trace[j + 1])
    ensures Paired(source, trace[i].objects)
    ensures trace[i].api.stored.None? ==> forall ns :: !ManagedAt(trace[i].objects, source, ns)
  {
    if i == 0 {
    } else {
      NoManagedOrphansEver(source, trace, i - 1);
      if ControllerStep(source, trace[i - 1], trace[i]) {
        ControllerKeepsPairs(source, trace[i - 1], trace[i]);
      } else {
        assert GiveUp(trace[i - 1], trace[i]) || OthersStep(source, trace[i - 1], trace[i]);
      }
    }
    NoOrphansEver(source, trace, i);
    ListedMembers(trace[i].objects, source);
    forall ns | ManagedAt(trace[i].objects, source, ns) ensures trace[i].api.stored.Some? {
      assert PairedAt(trace[i].objects, source, ns);
    }
  }

  /** A system in which no target is listed and the controller is idle is a safe start. */
  lemma FreshStartIsSafe(source: NamespacedName, s: System)
    requires s.phase == Idle && ListedNamespaces(s.objects, source) == {}
    requires s.api.stored.Some? ==> s.api.stored.value.version <= s.api.revision
    ensures Safe(source, s)
  {
  }

  /** A write that the server accepts changes the finalizers of what is stored and nothing else:
      no edit made since the copy was read is lost. */
  lemma NoLostUpdates(source: NamespacedName, s: System, finalizers: set<string>)
    requires Safe(source, s) && (s.phase.Loaded? || s.phase.Cleared?) && CanStore(s.api, s.phase.copy)
    ensures StoredWith(s.api, s.phase.copy, finalizers) == Bumped(s.api, s.api.stored.value.(finalizers := finalizers))
  {
  }

  /** A trace that has reached a state. */
  ghost predicate Reaches(source: NamespacedName, trace: seq<System>, first: System, last: System) {
    IsTrace(source, trace) && trace[0] == first && trace[|trace| - 1] == last
  }

  lemma TraceGrows(source: NamespacedName, trace: seq<System>, first: System, last: System, next: System)
    requires Reaches(source, trace, first, last) && Next(source, last, next)
    ensures Reaches(source, trace + [next], first, next)
  {
  }
}

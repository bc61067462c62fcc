# ConfigPropagation: rollout and reconcile, verified

A Dafny model of the controller that copies one ConfigMap, the source, into every namespace a
selector picks, in batches or all at once, and cleans up where the selector no longer applies.
The model follows the code of the repository; where its documentation promises something else,
see "Where code and documentation differ".

## What is modelled

- **The cluster** (`ConfigMaps.dfy`, `Cluster.dfy`): a map from (namespace, name) to data, labels
  and annotations. The client adapter is a class over that map. While the API is unhealthy any
  call may fail, and a failed call changes nothing; while it is healthy no call fails.
- **The planner** (`RolloutPlanner.dfy`): a class that keeps one heap object per resource, updated
  in place, proved against a map from resource to (hash, completed set).
- **The reconciler** (`Reconcile.dfy`, `Reconciler.dfy`, `Promises.dfy`): the loops of a reconcile as
  methods, proved to do what the functions of `Reconcile.dfy` say for the whole reconcile and for
  every point at which a failing call can stop it; and what that means, said without those functions,
  of the objects, the selection, the spec and the record before.
- **The hash** (`HashData.dfy`, `HashAmbiguity.dfy`): the serialization as a method with its loops,
  a decoder, their round trip, and which maps share their serialization with another one. The
  digest is a parameter, assumed collision-free and never empty where that matters (`GoodDigest`).
- **Runs** (`Runs.dfy`, `Soundness.dfy`, `Hazards.dfy`, `Collisions.dfy`, `Writing.dfy`,
  `Markers.dfy`): sequences of reconciles
  that succeed or fail at any call, finalizations, and steps of the environment: source edits,
  other resources, restarts of the controller, users changing unmanaged objects. Spec and
  selection may change at every step.
- **Rollouts** (`RolloutLimit.dfy`, `Rollout.dfy`, `Blocking.dfy`): repeated rolling reconciles, their
  limit, their speed, their relation to one immediate reconcile, and what targets that cannot be
  updated hold up.
- **Two resources** (`NonInterference.dfy`): reconciles of different resources commute; exactly when
  they do at a target they share.
- **Finalizers** (`Protocol.dfy`, `Controller.dfy`): the entry point as a protocol over single
  calls, with others acting on the resource and on objects between any two of them; and as a method
  whose every run is a trace of that protocol. In the method others act on the resource between
  the controller's calls for it, and a sync or a cleanup of targets is one undisturbed step.
- **Status** (`Status.dfy`): the conditions and counts that are reported.

`Names.dfy` holds the order of Go strings, sorting, and lists as sets. Strings are sequences of
characters; for valid UTF-8 their order is that of the bytes.

## Main results

- A reconcile that succeeds keeps its promises (`Promises.PromisesKept`,
  `Reconciler.Reconciler.ReconcileImpl`): planned targets are as many as the batch size allows, each is
  skipped, found up to date or made an exact copy of the picked entries of the source; deselected
  targets are deleted or detached as the spec says; nothing else changes; the report names every
  target that is not completed with its reason; and the planner remembers the others. One that fails
  at any call keeps to its part, and cleans nothing before the sync is recorded
  (`Promises.PromisesKeptInPart`).
- After every call of the entry point the status is as it was, or shows the result of a reconcile that
  has been carried out, or shows the failure of one that has not and keeps its counts; without a source
  it is the last of these (`Controller.ConfigPropagationController.Reconcile`).
- Exactly when Ready=True is the truth. The planner and the cluster agree as an inductive
  invariant, and a step breaks the agreement exactly if it is one of two hazards
  (`Soundness.AgreementIffNoHazard`): an immediate sync that fails after overwriting targets
  recorded for another hash, and a finalization while targets are on record. Under the invariant
  every Ready=True of every hazard-free run is true (`Soundness.ReadyIsSoundInRuns`), and after
  every hazard, whatever its spec, selection or stopping point, one step of the environment leads
  to a reconcile that reports Ready=True over a target without the source's data
  (`Hazards.HazardMakesReadyFalse`). So Ready=True stays reliable along a run if and only if no
  step of the run is a hazard (`Hazards.ReliableIffNoHazard`, `Hazards.ReliableAlongIffHazardFree`).
- For any data, colliding hashes included, Ready=True over hazard-free runs means that every selected
  target has the serialization of the effective data (`Collisions.ReadyMeansReadsAlikeInRuns`); one
  edit of the source can make it false if and only if the target's data is ambiguous in the sense of
  `HashAmbiguity` (`Collisions.EditCanMakeReadyFalseIff`).
- In repeated reconciles of one content and selection, with what is on record up to date
  (`Rollout.RecordsHold`) and some targets failing whenever they have their turn, a target that needs
  a write is written sooner or later if and only if it comes before every failing one that is due and,
  rolling, fewer conflicts than the batch size come before it (`Blocking.WrittenInTheEndIff`). Once a
  reconcile has failed, repeating it changes nothing (`Blocking.FailureIsFixedPoint`); if already the
  first one fails, deselected targets are never cleaned (`Blocking.CleanedInTheEndIff`).
- A target completes if and only if fewer conflicts than the batch size come before it in sorted
  order (`Rollout.RolledOutExactlyIf`), and a finished rollout has produced the cluster of one
  immediate reconcile if and only if that holds of every target that needs a write
  (`Rollout.RollingRefinesImmediate`).
- Without conflicts the number of reconciles to Ready=True is exactly ceil(pending / batch size)
  (`Rollout.ReadyAfterExactly`); with c conflicts, fewer than the batch size, it takes at most
  ceil(pending / (batch size - c)) to complete the rest (`Rollout.DoneAfterAtMost`).
- A target receives at most one write per content over any run (`Writing.AtMostOneUpsert`).
- No listed target outlives the resource, at the granularity of single calls and with others acting
  in between (`Protocol.NoOrphansEver`); every run of the entry point is such a trace
  (`Controller.ConfigPropagationController.Reconcile`). Sync takes a target for managed on either of
  two markers, cleanup lists it only with both. Where nobody parts the markers nothing managed is
  left over either (`Protocol.NoManagedOrphansEver`); a target with one marker is
  (`Markers.OneMarkerSurvives`).
- Equal hashes mean equal data for keys free of NUL and newline and values free of NUL
  (`HashData.EqualHashesMeanEqualData`). For any values, a map with such keys shares its hash with
  another one if and only if it has two entries or more, or a single one whose value contains a
  newline, a larger key and a NUL, in that order (`HashAmbiguity.HashSharedIff`).

## Hypotheses

- The source reference of a resource is fixed. After a change of the source's name the old targets
  are orphans (`Markers.ChangingTheSourceOrphans`); after a change of its namespace alone an old
  target is left behind if and only if it does not have its turn or has the right hash already
  (`Markers.MovingTheSourceOrphansIff`).
- The source's namespace is not selected in runs. `Markers.SourceChangedIff` says exactly when a
  reconcile changes the source; once written, it is pruned together with the other targets when the
  resource is deleted (`Markers.WrittenSourceIsPruned`). Where rounds are repeated with a fixed
  source, the source does not carry both managed markers either (`Rollout.SteadySource`).
- No other ConfigPropagation has a source of the same name: their targets would be the same objects
  (`Runs.LeavesManaged`, `Protocol.OthersLeaveMarkers`, `NonInterference.SharedNameCommutesIff`).
- Nobody but the controller edits its finalizer into or out of a stored resource (`Protocol.EditOf`).
- Nobody but the controller edits managed targets in runs. Drift is judged by the hash annotation
  alone (`Writing.DriftIsJudgedByHash`), and a rolling reconcile does not read what it has on
  record (`Hazards.RollingTrustsItsRecord`).
- Managed targets start out with the hash of their own data (`Runs.Hashed`). Where Ready=True is to
  mean equal data, the data is free of the characters named above (`HashData.Clean`,
  `Runs.CleanRun`); elsewhere it is not restricted.
- A reconcile stopped at any call is one step of a run: between the read of a target and the write that
  follows, and between the listing and the cleanup of a target, nobody else changes that target.
  Otherwise an object created in between is overwritten in spite of conflictPolicy=skip, and one that
  has replaced a listed target is deleted or detached.
- The listing of namespaces has no duplicates, and reads see the latest writes.

## Where code and documentation differ

The model follows the code.

- The capability document promises that a target that cannot be updated is listed as out of sync
  without blocking the others; the sync loop returns at the first failing call
  (pkg/controllers/configpropagation/controller.go:255-288), before anything is marked as completed,
  so that the same batch is planned again. In one attempt the targets of the batch before the failing
  one are written (`Writing.WrittenIffBeforeFailure`). Over all attempts nothing selected that does not
  come before a due failing target ever changes (`Blocking.HeldUp`), in later batches too: of two
  absent targets taken one at a time the second waits for the first for ever
  (`Blocking.SecondWaitsForFirst`). The promise holds if and only if every failing target that is due
  comes after everything else that would be written without failures (`Blocking.BlocksNoOtherIff`).
  Cleanup of deselected targets is blocked if and only if a target of the first batch fails.
- The repository's README (line 3) speaks of tracking drift by hashing; the hash that is compared is
  the one in the annotation, never that of the target's data
  (pkg/controllers/configpropagation/controller.go:255-284). A managed target that has its turn is
  rewritten if and only if its annotation differs (`Writing.DriftIsJudgedByHash`).
- The capability document says the operator touches only resources it manages, identified by its
  annotations. An object without this source's annotation is changed if and only if it has its turn
  and either bears the managed label without the current hash, whatever the conflict policy, or bears
  no label and the policy is to overwrite, the default (`Writing.ForeignChangedIff`,
  pkg/controllers/configpropagation/controller.go:260-286). So conflictPolicy=skip protects objects
  with neither marker (`Writing.UnmanagedChangedIff`), but not a target of another source of the same
  name (`Markers.SkipTakesOver`).

## Model

| member | source | states |
|---|---|---|
| HashData.ComputeHash | pkg/core/hash.go:12-37 | the loops compute the digest of the serialization, and the empty string for the empty map, whatever order the keys are ranged over in |
| HashData.KeysOf | pkg/core/hash.go:17-21 | ranging over the map lists every key exactly once, in no particular order |
| HashData.WriteEntries | pkg/core/hash.go:25-32 | the four writes per key build the concatenation of the records |
| HashData.DecodeSerialize | pkg/core/hash.go:25-32 | a decoder that knows only the string recovers the values of all listed keys |
| HashData.RoundTrip | pkg/core/hash.go:12-37 | the string that is digested determines the data, for keys without NUL or newline and values without NUL |
| HashData.EqualHashesMeanEqualData | pkg/core/hash.go:12-37 | with a collision-free digest two clean maps have equal hashes if and only if they are equal; only the empty map hashes to the empty string |
| HashData.IterationOrderIrrelevant | pkg/core/hash.go:17-23 | sorting makes the serialization independent of the iteration order |
| HashData.Layout | pkg/core/hash.go:25-32 | the serialization of two entries, character by character: smaller key, NUL, value, newline, larger key, NUL, value, newline |
| HashData.NulInValueCollides | pkg/core/hash.go:27-32 | every two-key map has the hash of a one-key map whose value holds a NUL, for any digest |
| HashAmbiguity.HashSharedIff | pkg/core/hash.go:12-37 | with a collision-free digest and keys free of NUL and newline, some other map has the hash of a given one if and only if the given one has two entries or more, or one whose value contains a newline, a larger key and a NUL in that order |
| HashAmbiguity.OnlyNulCollides | pkg/core/hash.go:27-32 | whatever shares the hash of a map with values free of NUL has a NUL in some value |
| HashAmbiguity.SameSerializationSameHash | pkg/core/hash.go:12-37 | with a collision-free digest hashes are equal if and only if the strings that are digested are, the special case of the empty map included |
| Names.SortIsSortSet | pkg/core/hash.go:23 | sorting a duplicate-free list depends only on its members |
| Names.FirstDifferenceDecides | pkg/core/hash.go:23 | the order of strings: the smaller character at the first difference comes first, and a string comes before its extensions |
| ConfigMaps.SyncedTwice | pkg/controllers/configpropagation/controller.go:260-290 | syncing a target twice is syncing it once, and creates no conflict |
| ConfigMaps.SourceIdParts | pkg/controllers/configpropagation/controller.go:247 | for namespaces without a slash the namespace is the text before the first slash, and equal identifiers mean equal sources |
| ConfigMaps.WrittenEntries | pkg/controllers/configpropagation/controller.go:246-252 | a copy has the data, the managed label as its only label, and the source and the hash as its only annotations |
| ConfigMaps.CleanupEffect | pkg/controllers/configpropagation/controller.go:308-359 | afterwards exactly the selected ones of the listed targets are listed; each deselected one is gone with prune, and else keeps its data and loses exactly the markers; all other objects are unchanged |
| ConfigMaps.TidyTwice | pkg/controllers/configpropagation/controller.go:123-185 | batches compose: two passes with their cleanups equal one pass over both batches |
| RolloutPlanner.BatchIsFirstPending | pkg/core/rollout.go:67-79 | a rolling batch has as many targets as batchSize and the pending ones allow, one if batchSize is less than one and any is pending, and everything left out comes after it in order |
| RolloutPlanner.ChosenIsBatch | pkg/controllers/configpropagation/controller.go:112-121 | from the sorted target list the planner, which takes a list in any order, chooses exactly that batch |
| RolloutPlanner.ChosenCount | pkg/core/rollout.go:67-79 | from a duplicate-free list in any order the planner chooses the smaller of batchSize and the number of pending entries, at least one if any is pending |
| RolloutPlanner.PlanEffect | pkg/core/rollout.go:40-65 | entry by entry: immediate planning changes nothing, rolling keeps exactly what was recorded for the same hash and is a target |
| RolloutPlanner.MarkEffect | pkg/core/rollout.go:85-107 | entry by entry: marking adds to what was recorded for the same hash, and marking nothing changes nothing |
| RolloutPlanner.ToInt32 | pkg/api/v1alpha1/webhook.go:60-65 | the conversion to 32 bits wraps: the result differs from the number by a multiple of 2 to the 32 |
| RolloutPlanner.OnlyOwnOperationsMatter | pkg/core/rollout.go:40-153 | after any sequence of planner operations the state of an id depends only on the operations on that id |
| RolloutPlanner.ProgressIsKept | pkg/core/rollout.go:60-106 | a completed target stays completed as long as the hash stays, it stays selected and nothing is forgotten |
| RolloutPlanner.Planner.EnsureState | pkg/core/rollout.go:137-153 | the state of an id is created, or reset if its hash differs, and no other id changes |
| RolloutPlanner.Planner.Plan | pkg/core/rollout.go:40-82 | for a list in any order: immediate plans everything and touches no state; rolling resets on a new hash, drops deselected entries and plans the first entries that are pending, for a duplicate-free list as many as batchSize allows and at least one if any is pending |
| RolloutPlanner.Planner.DropDeselected | pkg/core/rollout.go:61-65 | removing entries one by one leaves the intersection with the targets |
| RolloutPlanner.Planner.FirstPending | pkg/core/rollout.go:67-79 | walking any list and stopping early yields its first pending entries, and the 32-bit length never wraps |
| RolloutPlanner.Planner.MarkCompleted | pkg/core/rollout.go:85-107 | adds the namespaces to the completed set and counts it; an empty list changes nothing |
| RolloutPlanner.Planner.CompletedNamespaces | pkg/core/rollout.go:110-126 | the completed set in sorted order, empty for another hash |
| RolloutPlanner.Planner.Forget | pkg/core/rollout.go:129-134 | drops the state of one id only |
| Cluster.Client.UpsertConfigMap | pkg/adapters/controller_runtime_client.go:87-135 | creates or fully replaces data, labels and annotations of one object, or fails and changes nothing |
| Cluster.Client.ListManagedTargetNamespaces | pkg/adapters/controller_runtime_client.go:155-179 | lists each namespace whose object has the name, the managed label and this source annotation exactly once |
| Cluster.Client.DeleteConfigMap | pkg/adapters/controller_runtime_client.go:182-188 | removes one object, absent ones included |
| Cluster.Client.UpdateConfigMapMetadata | pkg/adapters/controller_runtime_client.go:191-204 | replaces labels and annotations, keeps the data, fails for a missing object |
| Reconciler.Reconciler.ComputeEffective | pkg/controllers/configpropagation/controller.go:204-224 | an entry is picked if and only if it is in the source and the list of keys is empty or names it, and it keeps its value |
| Reconciler.Reconciler.SyncTarget | pkg/controllers/configpropagation/controller.go:255-295 | one target is left alone as a conflict or as up to date, or written, and an upsert is made exactly in the last case |
| Reconciler.Reconciler.SyncTargets | pkg/controllers/configpropagation/controller.go:244-298 | all targets of any list are synced, or exactly those before the failing one; completed and skipped ones are told apart in order, and the upserts made are logged, one for a target listed twice |
| Reconciler.Reconciler.CleanupDeselected | pkg/controllers/configpropagation/controller.go:308-359 | cleans exactly the listed targets that are not selected, or a part of them if a call fails |
| Reconciler.Reconciler.RunPass | pkg/controllers/configpropagation/controller.go:121-192 | planning, syncing, marking, reporting and cleaning have the specified outcome wherever a call fails, the upserts made included |
| Reconciler.Reconciler.ReconcileImpl | pkg/controllers/configpropagation/controller.go:99-193 | cluster, planner and result are those of the specification for some stopping point; a success keeps all promises of module Promises, cleanup by spec.prune included, and a failure keeps to its part; a healthy cluster with a source never fails, a missing source always does |
| Promises.PromisesKept | pkg/controllers/configpropagation/controller.go:99-193 | a reconcile that succeeds: size and order of the batch by batchSize, every object planned, selected, deselected or other, every out-of-sync item with its reason, and the record of the planner |
| Promises.PromisesKeptInPart | pkg/controllers/configpropagation/controller.go:99-193 | wherever a reconcile stops, every object is as it was, or selected and has had its turn, or listed, deselected and cleaned up, the last only after the sync has been recorded |
| Reconciler.Reconciler.Finalize | pkg/controllers/configpropagation/controller.go:362-373 | cleans all listed targets as spec.prune says, or a part of them if a call fails, and leaves the planner alone |
| Reconcile.PlannedSelected | pkg/core/rollout.go:67-79 | planned targets are selected, distinct, not yet done and no more than the batch size |
| Reconcile.EffectiveIsEffective | pkg/controllers/configpropagation/controller.go:204-224 | the effective data is the one map that holds exactly the picked entries of the source |
| Reconcile.MarkAfterPlan | pkg/controllers/configpropagation/controller.go:121-140 | planning, then marking what was synced, leaves exactly the reported completed set in the planner |
| Reconcile.Conservation | pkg/controllers/configpropagation/controller.go:130-191 | completed and out-of-sync namespaces split the selected ones without overlap or repetition under both strategies, so the counts add up |
| Status.ConfigPropagationStatus.ApplyRolloutStatus | pkg/api/v1alpha1/webhook.go:55-106 | exactly one condition of each kind: with nothing out of sync Ready is true (Reconciled) and Progressing false (RolloutComplete), else Ready is false and Progressing true (RollingUpdate); Degraded is false (Healthy); counts wrapped to 32 bits and the list as reported |
| Status.ConfigPropagationStatus.ApplyErrorStatus | pkg/api/v1alpha1/webhook.go:109-140 | exactly one condition of each kind: Degraded true (ReconcileError), Ready and Progressing false (Error); the counts and the out-of-sync list are kept |
| Status.ReadyMeansAllCompleted | pkg/api/v1alpha1/webhook.go:58-103 | Ready=True if and only if completed count equals target count, also in the 32-bit counts while the targets fit |
| Runs.SyncBringsUpToDate | pkg/controllers/configpropagation/controller.go:254-296 | a synced target that is no conflict is managed and annotated with the hash, and up-to-date ones stay so |
| Runs.OutcomeObjects | pkg/controllers/configpropagation/controller.go:121-185 | wherever it stops, a reconcile syncs selected targets only and cleans only listed ones that are not selected |
| Soundness.StepKeepsFaithful | pkg/controllers/configpropagation/controller.go:249-286 | every step of a run keeps each managed target annotated with the hash of its own data |
| Soundness.AgreementIffNoHazard | pkg/controllers/configpropagation/controller.go:121-184 | from agreement between planner and cluster, a step keeps it if and only if it is not a hazard |
| Soundness.AttemptKeepsAgreement | pkg/core/rollout.go:52-65 | a reconcile that fails at any call keeps the agreement, unless it is an immediate sync failing half-way |
| Soundness.FailedImmediate | pkg/controllers/configpropagation/controller.go:123-126 | an immediate sync failing half-way keeps the agreement if and only if it has overwritten nothing recorded for another hash |
| Soundness.InvariantAlong | pkg/controllers/configpropagation/controller.go:99-193 | the invariant holds at every point of every hazard-free run |
| Soundness.RollingIsFreeOfHazards | pkg/controllers/configpropagation/controller.go:138-158 | runs of rolling reconciles without finalization are hazard-free |
| Soundness.ReadyIsTrue | pkg/api/v1alpha1/webhook.go:62-103 | under the invariant, Ready=True means every selected namespace holds exactly the effective data |
| Soundness.ReadyIsSoundInRuns | pkg/api/v1alpha1/webhook.go:62-103 | the same for every successful reconcile of every hazard-free run |
| Soundness.ImmediateReadyIsTrue | pkg/controllers/configpropagation/controller.go:159-178 | an immediate reconcile's Ready=True needs no agreement with the planner |
| Collisions.StepKeepsHashed | pkg/controllers/configpropagation/controller.go:249-286 | every step keeps each managed target annotated with the hash of its own data, whatever characters the data holds |
| Collisions.ReadyMeansReadsAlike | pkg/api/v1alpha1/webhook.go:62-103 | for any data, Ready=True means that every selected target has the serialization of the effective data |
| Collisions.ReadyMeansReadsAlikeInRuns | pkg/api/v1alpha1/webhook.go:62-103 | the same for every successful reconcile of every hazard-free run |
| Collisions.EditMakesReadyFalseIff | pkg/core/hash.go:25-32 | after an edit of the source a rolling reconcile of a recorded target reports Ready=True falsely if and only if the edit differs from the target's data and has the same serialization |
| Collisions.EditCanMakeReadyFalseIff | pkg/core/hash.go:25-32 | some edit does so if and only if the target's data has two entries or more, or reads as two |
| Hazards.RollingTrustsItsRecord | pkg/core/rollout.go:69-72 | if all selected targets are on record, a rolling reconcile reports Ready=True and leaves them as they are |
| Hazards.HazardMakesReadyFalse | pkg/core/rollout.go:69-72 | after any hazard, whatever its spec, selection, stop or extent of the cleanup, one step of the environment leads to a world in which a rolling reconcile reports Ready=True over a target without the source's data |
| Hazards.ReliableIffNoHazard | pkg/controllers/configpropagation/controller.go:121-184 | after a step out of the invariant every Ready=True of every hazard-free continuation is true if and only if the step is no hazard |
| Hazards.ReliableAlongIffHazardFree | pkg/controllers/configpropagation/controller.go:99-193 | Ready=True is reliable at every point of a run if and only if no step of the run is a hazard |
| Hazards.StrategySwitchMakesReadyFalse | pkg/controllers/configpropagation/controller.go:123-126 | hazards happen: from any agreeing world with two targets on record, a source edit, an immediate reconcile failing at its second target and another edit make the next rolling reconcile report Ready=True falsely |
| Hazards.RecreationMakesReadyFalse | pkg/controllers/configpropagation/controller.go:362-373 | finalization keeps the planner state, so after any cleanup that prunes a recorded target the re-created resource reports Ready=True falsely at once |
| Writing.ChangesAreConfined | pkg/controllers/configpropagation/controller.go:254-357 | a reconcile changes only objects of the source's name in selected or listed namespaces |
| Writing.DriftIsJudgedByHash | pkg/controllers/configpropagation/controller.go:280-286 | under either strategy and wherever the reconcile stops, a managed target that has its turn is rewritten if and only if its hash annotation differs, whatever its data, and counts as completed |
| Writing.UnmanagedChangedIff | pkg/controllers/configpropagation/controller.go:270-286 | an object of the source's name with neither marker is changed if and only if the policy is to overwrite and it has its turn |
| Writing.ForeignChangedIff | pkg/controllers/configpropagation/controller.go:260-286 | an object without this source's annotation is changed if and only if it has its turn and is labelled with another hash than the current one, or is unlabelled under overwrite |
| Writing.AnnotatedChangedIff | pkg/controllers/configpropagation/controller.go:260-286 | an object with this source's annotation, labelled or not, is rewritten on its turn if and only if its hash annotation differs, under skip as well |
| Writing.WrittenIffBeforeFailure | pkg/controllers/configpropagation/controller.go:254-288 | when the sync loop fails at a target, a target that needs a write is written if and only if it comes before |
| Writing.FailureBlocksNothingIff | pkg/controllers/configpropagation/controller.go:286-288 | within one attempt a failing target blocks no other target of its batch if and only if nothing after it needs a write |
| Writing.UnmanagedIsFrozen | pkg/controllers/configpropagation/controller.go:260-278 | with conflictPolicy=skip an unmanaged object stays exactly as it is through every run, finalizations included |
| Writing.UpToDateStays | pkg/controllers/configpropagation/controller.go:280-284 | an up-to-date target is not written and stays up to date |
| Writing.UpsertsAreLogged | pkg/controllers/configpropagation/controller.go:286-290 | the upserts a reconcile makes, up to where it stops, are one for each target it writes |
| Writing.AtMostOneUpsert | pkg/controllers/configpropagation/controller.go:280-290 | while content and selection of a target last it is written at most once over any run, and never if it is up to date |
| Writing.UpsertsFitTheBatch | pkg/core/rollout.go:76-78 | one rolling reconcile writes no more targets than batchSize, or one if that is less |
| ConfigMaps.ManagedAfterCleanup | pkg/controllers/configpropagation/controller.go:308-359 | after a complete cleanup exactly those targets are still managed that carry one marker |
| Markers.StepKeepsPairs | pkg/controllers/configpropagation/controller.go:260-357 | no step of a run makes a target that is managed but not listed |
| Markers.PairedAlong | pkg/controllers/configpropagation/controller.go:260-357 | the same over whole runs |
| Markers.OneMarkerSurvives | pkg/controllers/configpropagation/controller.go:260-284 | a target with one marker and the current hash counts as completed, is left as it is, and is still managed after deletion of the resource |
| Markers.SourceChangedIff | pkg/controllers/configpropagation/controller.go:254-357 | a reconcile changes the source if and only if it has its turn as a target that needs a write, or is cleaned up, which a whole reconcile does if and only if it is listed and not selected |
| Markers.WrittenSourceIsPruned | pkg/controllers/configpropagation/controller.go:254-286 | a source written as a target is listed and deleted with the resource |
| Markers.SkipTakesOver | pkg/controllers/configpropagation/controller.go:260-286 | conflictPolicy=skip does not protect a target written for another source of the same name: it is overwritten unless the hashes are equal |
| Markers.ChangingTheSourceOrphans | pkg/controllers/configpropagation/controller.go:314-316 | after a change of the source's name neither reconciles nor finalization touch the old targets |
| Markers.MovingTheSourceOrphansIff | pkg/controllers/configpropagation/controller.go:260-284 | after a change of the source's namespace an old target is taken over if and only if it has its turn and another hash; otherwise it is left as it is and survives deletion of the resource, though it counts as completed if it had its turn |
| RolloutLimit.ExactLimit | pkg/core/rollout.go:69-79 | a target completes in some round if and only if fewer blocked targets than the window come before it |
| RolloutLimit.ReachedBy | pkg/core/rollout.go:69-79 | a deadline for each reachable target |
| RolloutLimit.LimitReached | pkg/core/rollout.go:69-79 | as many rounds as targets reach the limit, which is given in closed form |
| RolloutLimit.StuckIsLimit | pkg/core/rollout.go:69-79 | a round changes nothing if and only if its batch is blocked, if and only if the limit is reached |
| RolloutLimit.EnoughRounds | pkg/core/rollout.go:67-79 | with fewer blocked targets than the window, ceil(pending / (window - blocked)) rounds complete the rest |
| RolloutLimit.ExactRounds | pkg/core/rollout.go:67-79 | without blocked targets exactly ceil(pending / window) rounds are needed |
| Rollout.RolledRecords | pkg/controllers/configpropagation/controller.go:138-144 | after k reconciles the planner holds the completed set of k rounds, and the conflicts are still the same |
| Rollout.RolledObjects | pkg/controllers/configpropagation/controller.go:121-185 | the cluster after k reconciles is that of one pass over all batches, their cleanups together being one |
| Rollout.ReadyInRound | pkg/api/v1alpha1/webhook.go:87-103 | the k-th reconcile reports Ready=True if and only if k rounds complete all selected targets |
| Rollout.RolledOutExactlyIf | pkg/core/rollout.go:69-79 | a target is completed sooner or later if and only if fewer conflicts than the batch size precede it |
| Rollout.StuckExactlyIf | pkg/controllers/configpropagation/controller.go:270-278 | a rolling reconcile completes nothing new if and only if its batch is all conflicts, if and only if no target can be completed any more |
| Rollout.ReadyAfterExactly | pkg/core/rollout.go:67-81 | without conflicts k reconciles reach Ready=True if and only if k batches cover what was pending |
| Rollout.DoneAfterAtMost | pkg/core/rollout.go:67-81 | the bound with conflicts |
| Rollout.SameClusterIff | pkg/controllers/configpropagation/controller.go:121-184 | k rolling reconciles give the cluster of one immediate reconcile if and only if all targets that need a write have completed |
| Rollout.RollingRefinesImmediate | pkg/controllers/configpropagation/controller.go:121-184 | in the end this holds if and only if each such target has fewer conflicts than the batch size before it |
| Rollout.RollingCatchesUp | pkg/controllers/configpropagation/controller.go:121-184 | with fewer conflicts than the batch size it holds after the bounded number of reconciles |
| Rollout.Quiescence | pkg/controllers/configpropagation/controller.go:254-289 | after an immediate reconcile, or a rolling one that completed nothing new, the same reconcile writes, cleans and changes nothing and reports the same |
| Blocking.FailureIsFixedPoint | pkg/controllers/configpropagation/controller.go:121-140 | after a sync that failed, the next reconcile plans the same batch, fails at the same target and changes neither cluster nor planner |
| Blocking.HeldUp | pkg/controllers/configpropagation/controller.go:254-288 | a failing target that is due stays due, and no selected target that does not come before it is ever changed |
| Blocking.WrittenInTheEndIff | pkg/controllers/configpropagation/controller.go:121-140 | with any set of targets failing at every turn, a target that needs a write is written sooner or later if and only if it comes before every failing one that is due and, rolling, fewer conflicts than the batch size come before it |
| Blocking.BlocksNoOtherIff | pkg/controllers/configpropagation/controller.go:286-288 | failing targets keep no other target from being written if and only if those that are due come after all others that would be written without them |
| Blocking.SecondWaitsForFirst | pkg/core/rollout.go:69-79 | an input where the documented promise fails: of two absent targets, batch size one, the second is never written while the first fails |
| Blocking.CleanedInTheEndIff | pkg/controllers/configpropagation/controller.go:123-185 | a listed target that is no longer selected is ever cleaned if and only if nothing in the first batch fails |
| Rollout.OverwritingRolloutCompletes | pkg/controllers/configpropagation/controller.go:99-193 | consecutive overwriting reconciles that read everything anew report Ready=True exactly when the batches cover what was pending, with the right data everywhere and the cluster of one immediate reconcile |
| NonInterference.PassesCommute | pkg/controllers/configpropagation/controller.go:99-193 | reconciles of resources with different keys and source names commute wherever they stop, with unchanged results |
| NonInterference.ReconcilesCommute | pkg/controllers/configpropagation/controller.go:99-193 | the diamond for whole reconciles, reads and missing sources included, and neither changes what the other reads or reports |
| NonInterference.SharedNameCommutesIff | pkg/controllers/configpropagation/controller.go:254-286 | different source names are needed: at any target, absent or not, that has its turn in two passes of one source name, wherever they stop, the order does not matter if and only if both would write the same, or just one would write and the hashes are equal, or none would |
| NonInterference.HandoverCommutesIff | pkg/controllers/configpropagation/controller.go:254-357 | the exact condition when one pass syncs a target that the other deselects and cleans |
| Protocol.NextKeepsSafe | pkg/controllers/configpropagation/runtime_controller.go:49-120 | every single call, every failure and every request of others keeps the protocol safe |
| Protocol.NoOrphansEver | pkg/controllers/configpropagation/runtime_controller.go:57-81 | at every point of every interleaving a listed target implies that the resource exists with its finalizer; once it is gone none is left |
| Protocol.NoManagedOrphansEver | pkg/controllers/configpropagation/runtime_controller.go:57-81 | where others never part the two markers, no target is taken for managed once the resource is gone |
| Protocol.OnlyClearedRemoves | pkg/controllers/configpropagation/runtime_controller.go:66-76 | a resource that carries the finalizer disappears only when it is marked for deletion, no other finalizer is left, and the controller gives it up with no target listed any more |
| Protocol.FreshStartIsSafe | pkg/controllers/configpropagation/runtime_controller.go:44-64 | an idle controller and a cluster without listed targets are a safe start |
| Protocol.NoLostUpdates | pkg/controllers/configpropagation/runtime_controller.go:58-75 | an accepted write changes the finalizers of what is stored and nothing else, for a stored spec that is already defaulted |
| Controller.ConfigPropagationController.EnsureFinalizer | pkg/controllers/configpropagation/runtime_controller.go:57-64 | no target is worked on before the stored resource carries the finalizer, which is added to the others, and no request is made if it is there already |
| Controller.ConfigPropagationController.FinishDeletion | pkg/controllers/configpropagation/runtime_controller.go:66-76 | it succeeds only if every listed target has been deleted or detached as the spec says and the finalizer, and no other, has been given up after that |
| Controller.ConfigPropagationController.PatchOutcome | pkg/controllers/configpropagation/runtime_controller.go:81-108 | a success shows its counts, its out-of-sync list and all three conditions; a failure shows Degraded and keeps the counts and the list; it succeeds only if the patch has been stored |
| Controller.ConfigPropagationController.Reconcile | pkg/controllers/configpropagation/runtime_controller.go:44-120 | with others acting on the resource between the calls for it: every call is a trace of the protocol from idle to idle and keeps it safe; the status is as it was, or shows the result of a reconcile that has been carried out, or the failure of one that stopped, with its counts as before; success means that result has been patched, or a complete cleanup has been followed by giving the finalizer up; undisturbed with a missing source it fails and says so |

## Left out

- Evaluation of label selectors: matching is done by a library; the selected set is an input that may change at every step.
- SHA-256 and hex encoding: the digest is a parameter.
- Defaulting and validation of the spec: the model starts from a spec that has passed them. A spec that fails validation blocks its own finalization.
- Caches, requeue times and retries of the controller runtime: a failed call ends the reconcile, and the next one is another step.
- Metrics, events, log lines, timestamps and condition messages: output only.
- The work queue and its callbacks: the runtime controller does not use them.
- The mutex of the planner: each planner method is one atomic step.
- Deep copies, scheme registration, webhook plumbing and deployment files.
- Protocol.NoLostUpdates: assumes a stored spec that is already defaulted. Finalizing defaults the loaded spec in place (pkg/controllers/configpropagation/controller.go:367), and the update that gives the finalizer up (pkg/controllers/configpropagation/runtime_controller.go:73) stores those defaults too.
- Controller.ConfigPropagationController.Reconcile: others do not act between the calls of one sync or one cleanup; module Protocol has single steps there.

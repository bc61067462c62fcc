/** The controller's entry point. Others act on the stored resource between the controller's calls
    for it; a sync or a cleanup of targets is one step here, and single steps in module Protocol.
    Each run of Reconcile is a trace of that module. */
module Controller {
  import opened Names
  import opened ConfigMaps
  import opened Cluster
  import opened Reconcile
  import opened Runs
  import opened Reconciler
  import opened Status
  import opened Protocol

  class ApiServer {
    var api: Api
    var healthy: bool
    /** Whether others keep still. */
    var quiet: bool

    constructor (api: Api, healthy: bool, quiet: bool)
      ensures this.api == api && this.healthy == healthy && this.quiet == quiet
    {
      this.api, this.healthy, this.quiet := api, healthy, quiet;
    }

    /** Others make one request, or none. */
    method OthersAct()
      modifies this`api
      ensures api == old(api) || Request(old(api), api)
      ensures quiet ==> api == old(api)
    {
      var act := *;
      if quiet || !act {
        return;
      }
      match api.stored {
        case None =>
          var s: Stored := *;
          api := Api(Some(s.(version := api.revision + 1, deleting := false)), api.revision + 1);
        case Some(s) =>
          var delete := *;
          if delete {
            api := Bumped(api, s.(deleting := true));
          } else {
            var e: Stored := *;
            var finalizers :=
              if FINALIZER in s.finalizers then e.finalizers + {FINALIZER} else e.finalizers - {FINALIZER};
            var edited := e.(deleting := s.deleting, finalizers := finalizers);
            assert EditOf(s, edited);
            api := Bumped(api, edited);
          }
      }
    }

    method Get() returns (ok: bool, stored: Option<Stored>)
      ensures ok ==> stored == api.stored
      ensures healthy ==> ok
    {
      var failed := CallFails(healthy);
      return !failed, if failed then None else api.stored;
    }

    /** Refused unless the object still has the version of the copy; answers with the new copy. */
    method Update(copy: Stored, finalizers: set<string>) returns (ok: bool, updated: Stored)
      modifies this`api
      ensures ok ==> updated == copy.(finalizers := finalizers, version := old(api).revision + 1)
      ensures ok ==> CanStore(old(api), copy) && api == StoredWith(old(api), copy, finalizers)
      ensures !ok ==> api == old(api)
      ensures healthy && CanStore(old(api), copy) ==> ok
    {
      var failed := CallFails(healthy);
      if failed || api.stored.None? || api.stored.value.version != copy.version {
        return false, copy;
      }
      updated := copy.(finalizers := finalizers, version := api.revision + 1);
      api := StoredWith(api, copy, finalizers);
      ok := true;
    }

    /** A status patch is an edit that touches no finalizer, of whatever is stored by then. */
    method PatchStatus() returns (ok: bool)
      modifies this`api
      ensures ok ==> old(api).stored.Some? && api == Bumped(old(api), old(api).stored.value)
      ensures !ok ==> api == old(api)
      ensures healthy && old(api).stored.Some? ==> ok
    {
      var failed := CallFails(healthy);
      if failed || api.stored.None? {
        return false;
      }
      api := Bumped(api, api.stored.value);
      ok := true;
    }
  }

  /** What a call has read of the resource, if it could. */
  datatype Reading = Unread | Seen(stored: Option<Stored>)

  class ConfigPropagationController {
    const server: ApiServer
    const reconciler: Reconciler
    const status: ConfigPropagationStatus

    constructor (server: ApiServer, client: Client)
      requires NoDuplicates(client.selected)
      ensures this.server == server && reconciler.client == client && Valid()
    {
      this.server := server;
      reconciler := new Reconciler(client);
      status := new ConfigPropagationStatus();
    }

    ghost predicate Valid()
      reads this, reconciler.client, reconciler.planner, reconciler.planner.owned
    {
      reconciler.planner.Valid() && NoDuplicates(reconciler.client.selected)
    }

    ghost function At(phase: Phase): System
      reads server, reconciler.client
    {
      System(server.api, reconciler.client.objects, phase)
    }

    /** Whatever others do while the controller is in a phase. */
    method Meanwhile(source: NamespacedName, phase: Phase, ghost first: System, ghost sofar: seq<System>)
      returns (ghost trace: seq<System>)
      requires Reaches(source, sofar, first, At(phase))
      modifies server`api
      ensures Reaches(source, trace, first, At(phase))
      ensures server.quiet ==> server.api == old(server.api)
    {
      trace := sofar;
      var requests: nat :| requests >= 0;
      for i := 0 to requests
        invariant Reaches(source, trace, first, At(phase))
        invariant server.quiet ==> server.api == old(server.api)
      {
        ghost var before := At(phase);
        server.OthersAct();
        TraceGrows(source, trace, first, before, At(phase));
        trace := trace + [At(phase)];
      }
    }

    /** Makes sure the stored resource carries the finalizer before any target is written. */
    method EnsureFinalizer(source: NamespacedName, copy: Stored, ghost first: System, ghost sofar: seq<System>)
      returns (ok: bool, current: Stored, ghost trace: seq<System>)
      requires Reaches(source, sofar, first, At(Loaded(copy))) && !copy.deleting
      modifies server`api
      ensures ok ==> Reaches(source, trace, first, At(Working(current)))
      ensures !ok ==> Reaches(source, trace, first, At(Idle))
      ensures current.spec == copy.spec
      ensures ok ==> current.finalizers == copy.finalizers + {FINALIZER}
      ensures ok && FINALIZER in copy.finalizers ==> server.api == old(server.api) && current == copy
      ensures server.quiet && server.healthy && old(server.api).stored == Some(copy) ==>
        && ok && server.api.stored == Some(current)
        && current == copy.(version := current.version, finalizers := copy.finalizers + {FINALIZER})
    {
      current := copy;
      if FINALIZER in copy.finalizers {
        ok := true;
        TraceGrows(source, sofar, first, At(Loaded(copy)), At(Working(copy)));
        trace := sofar + [At(Working(copy))];
        return;
      }
      trace := Meanwhile(source, Loaded(copy), first, sofar);
      ghost var before := At(Loaded(copy));
      var wanted := copy.finalizers + {FINALIZER};
      var updated;
      ok, updated := server.Update(copy, wanted);
      if ok {
        current := updated;
        TraceGrows(source, trace, first, before, At(Working(current)));
        trace := trace + [At(Working(current))];
      } else {
        TraceGrows(source, trace, first, before, At(Idle));
        trace := trace + [At(Idle)];
      }
    }

    /** Cleans up every listed target, then gives the finalizer up. */
    method FinishDeletion(r: Resource, copy: Stored, ghost first: System, ghost sofar: seq<System>)
      returns (ok: bool, ghost trace: seq<System>)
      requires reconciler.Valid() && Reaches(r.source, sofar, first, At(Loaded(copy)))
      requires copy.deleting && FINALIZER in copy.finalizers
      modifies server`api, reconciler.client`objects
      ensures Reaches(r.source, trace, first, At(Idle))
      ensures ok ==>
        && AllCleanedUp(old(reconciler.client.objects), reconciler.client.objects, r.source, copy.spec.prune)
        && FinalizerGivenUp(r.source, copy, trace)
      ensures reconciler.client.healthy && server.quiet && server.healthy && old(server.api).stored == Some(copy) ==>
        && ok && ListedNamespaces(reconciler.client.objects, r.source) == {}
        && server.api == StoredWith(old(server.api), copy, copy.finalizers - {FINALIZER})
    {
      ghost var listed := ListedNamespaces(reconciler.client.objects, r.source);
      TraceGrows(r.source, sofar, first, At(Loaded(copy)), At(Cleaning(copy, listed)));
      trace := sofar + [At(Cleaning(copy, listed))];
      ghost var before := At(Cleaning(copy, listed));
      ghost var cleaned;
      ok, cleaned := reconciler.Finalize(r, copy.spec);
      assert cleaned <= listed;
      assert ControllerStep(r.source, before, At(Cleaning(copy, listed - cleaned)));
      TraceGrows(r.source, trace, first, before, At(Cleaning(copy, listed - cleaned)));
      trace := trace + [At(Cleaning(copy, listed - cleaned))];
      if !ok {
        TraceGrows(r.source, trace, first, At(Cleaning(copy, listed - cleaned)), At(Idle));
        trace := trace + [At(Idle)];
        return;
      }
      assert listed - cleaned == {};
      ListedAfterClean(before.objects, r.source, copy.spec.prune, listed);
      TraceGrows(r.source, trace, first, At(Cleaning(copy, {})), At(Cleared(copy)));
      ok, trace := GiveUpFinalizer(r.source, copy, first, trace + [At(Cleared(copy))]);
    }

    method GiveUpFinalizer(source: NamespacedName, copy: Stored, ghost first: System, ghost sofar: seq<System>)
      returns (ok: bool, ghost trace: seq<System>)
      requires Reaches(source, sofar, first, At(Cleared(copy)))
      modifies server`api
      ensures Reaches(source, trace, first, At(Idle))
      ensures ok ==> FinalizerGivenUp(source, copy, trace)
      ensures server.quiet && server.healthy && old(server.api).stored == Some(copy) ==>
        ok && server.api == StoredWith(old(server.api), copy, copy.finalizers - {FINALIZER})
    {
      trace := Meanwhile(source, Cleared(copy), first, sofar);
      ghost var before := At(Cleared(copy));
      var updated;
      ok, updated := server.Update(copy, copy.finalizers - {FINALIZER});
      TraceGrows(source, trace, first, before, At(Idle));
      trace := trace + [At(Idle)];
    }

    /** Reconciles the targets while the resource carries the finalizer. */
    method SyncAll(r: Resource, copy: Stored, ghost first: System, ghost sofar: seq<System>)
      returns (answer: Answer, ghost trace: seq<System>)
      requires Valid() && Reaches(r.source, sofar, first, At(Working(copy)))
      modifies reconciler.client`objects, reconciler.client`upserted, reconciler.planner, reconciler.planner.owned
      ensures Valid()
      ensures Reaches(r.source, trace, first, At(Working(copy)))
      ensures answer.Success? ==> CarriedOut(r, copy.spec, old(reconciler.World()), answer.result)
      ensures answer.Failure? ==> Stopped(r, copy.spec, old(reconciler.World()))
      ensures reconciler.client.healthy && r.source in old(reconciler.client.objects) ==> answer.Success?
    {
      ghost var before, w := At(Working(copy)), reconciler.World();
      ghost var stop;
      answer, stop := reconciler.ReconcileImpl(r, copy.spec);
      ReconcileIsWork(r, copy.spec, Elements(reconciler.client.selected), w, stop, reconciler.World());
      assert Next(r.source, before, At(Working(copy)));
      TraceGrows(r.source, sofar, first, before, At(Working(copy)));
      trace := sofar + [At(Working(copy))];
    }

    method WriteOutcome(answer: Answer)
      modifies status
      ensures answer.Success? ==> status.Shows(answer.result)
      ensures answer.Failure? ==> FailureShown(old(status.View()))
    {
      match answer {
        case Success(result) => status.ApplyRolloutStatus(result);
        case Failure => status.ApplyErrorStatus();
      }
    }

    /** Writes the outcome into the status and patches the stored object. */
    method PatchOutcome(source: NamespacedName, copy: Stored, answer: Answer,
                        ghost first: System, ghost sofar: seq<System>)
      returns (patched: bool, ghost trace: seq<System>)
      requires Valid() && Reaches(source, sofar, first, At(Working(copy)))
      modifies server`api, status
      ensures Valid()
      ensures Reaches(source, trace, first, At(Idle))
      ensures answer.Success? ==> status.Shows(answer.result)
      ensures answer.Failure? ==> FailureShown(old(status.View()))
      ensures patched ==> PatchStored(trace)
      ensures server.quiet && server.healthy && old(server.api).stored.Some? ==>
        patched && server.api == Bumped(old(server.api), old(server.api).stored.value)
    {
      trace := Meanwhile(source, Working(copy), first, sofar);
      WriteOutcome(answer);
      patched, trace := SendPatch(source, copy, first, trace);
    }

    method SendPatch(source: NamespacedName, copy: Stored, ghost first: System, ghost sofar: seq<System>)
      returns (patched: bool, ghost trace: seq<System>)
      requires Reaches(source, sofar, first, At(Working(copy)))
      modifies server`api
      ensures Reaches(source, trace, first, At(Idle))
      ensures patched ==> PatchStored(trace)
      ensures server.healthy && old(server.api).stored.Some? ==>
        patched && server.api == Bumped(old(server.api), old(server.api).stored.value)
    {
      trace := sofar;
      ghost var before := At(Working(copy));
      patched := server.PatchStatus();
      if patched {
        assert EditOf(before.api.stored.value, before.api.stored.value);
        TraceGrows(source, trace, first, before, At(Working(copy)));
        trace := trace + [At(Working(copy))];
      }
      TraceGrows(source, trace, first, At(Working(copy)), At(Idle));
      trace := trace + [At(Idle)];
    }

    /** A live resource: ensure the finalizer, reconcile, report. */
    method Propagate(r: Resource, copy: Stored, ghost first: System, ghost sofar: seq<System>)
      returns (ok: bool, ghost trace: seq<System>)
      requires Valid() && Reaches(r.source, sofar, first, At(Loaded(copy))) && !copy.deleting
      modifies server`api, reconciler.client`objects, reconciler.client`upserted
      modifies reconciler.planner, reconciler.planner.owned, status
      ensures Valid()
      ensures Reaches(r.source, trace, first, At(Idle))
      ensures Finished(r, copy.spec, old(reconciler.World()), old(status.View()), ok, trace)
              || (!ok && reconciler.World() == old(reconciler.World()) && status.View() == old(status.View()))
      ensures server.quiet && server.healthy && old(server.api).stored == Some(copy) ==>
        Finished(r, copy.spec, old(reconciler.World()), old(status.View()), ok, trace)
      ensures server.quiet && server.healthy && old(server.api).stored == Some(copy) ==>
        server.api.stored == Some(copy.(version := server.api.revision, finalizers := copy.finalizers + {FINALIZER}))
      ensures server.quiet && server.healthy && old(server.api).stored == Some(copy)
              && reconciler.client.healthy && r.source in old(reconciler.client.objects) ==>
        ok
    {
      var current;
      ok, current, trace := EnsureFinalizer(r.source, copy, first, sofar);
      assert reconciler.World() == old(reconciler.World()) && status.View() == old(status.View());
      if ok {
        ok, trace := SyncAndPatch(r, current, first, trace);
      }
    }

    /** Reconciles the targets and reports, whatever the outcome. */
    method SyncAndPatch(r: Resource, copy: Stored, ghost first: System, ghost sofar: seq<System>)
      returns (ok: bool, ghost trace: seq<System>)
      requires Valid() && Reaches(r.source, sofar, first, At(Working(copy)))
      modifies server`api, reconciler.client`objects, reconciler.client`upserted
      modifies reconciler.planner, reconciler.planner.owned, status
      ensures Valid()
      ensures Reaches(r.source, trace, first, At(Idle))
      ensures Finished(r, copy.spec, old(reconciler.World()), old(status.View()), ok, trace)
      ensures server.quiet && server.healthy && old(server.api).stored.Some? ==>
        server.api == Bumped(old(server.api), old(server.api).stored.value)
      ensures server.quiet && server.healthy && old(server.api).stored.Some?
              && reconciler.client.healthy && r.source in old(reconciler.client.objects) ==>
        ok
    {
      var answer, patched;
      answer, trace := SyncAll(r, copy, first, sofar);
      patched, trace := PatchOutcome(r.source, copy, answer, first, trace);
      assert answer.Success? ==> CarriedOut(r, copy.spec, old(reconciler.World()), answer.result);
      ok := answer.Success? && patched;
    }

    /** A whole reconcile has been carried out with the given result. */
    ghost predicate CarriedOut(r: Resource, spec: Spec, w: World, result: RolloutResult)
      reads reconciler, reconciler.client, reconciler.planner
    {
      var selected := Elements(reconciler.client.selected);
      && r.source in w.objects
      && Reconciles(r, spec, selected, w, Completed, reconciler.World())
      && result == PassOf(r, spec, selected, w.objects).Result(w)
    }

    /** A whole reconcile has been carried out and the status shows its result. */
    ghost predicate Reported(r: Resource, spec: Spec, w: World)
      reads reconciler, reconciler.client, reconciler.planner, status
    {
      exists result :: CarriedOut(r, spec, w, result) && status.Shows(result)
    }

    /** The reconcile has come to a stop before its end. */
    ghost predicate Stopped(r: Resource, spec: Spec, w: World)
      reads reconciler, reconciler.client, reconciler.planner
    {
      exists stop :: stop != Completed
                     && Reconciles(r, spec, Elements(reconciler.client.selected), w, stop, reconciler.World())
    }

    /** The status shows a failure, and its counts and its list are as they were. */
    ghost predicate FailureShown(was: StatusView)
      reads this, status
    {
      status.ShowsFailure() && status.View().(conditions := was.conditions) == was
    }

    /** The status tells what has become of the reconcile. */
    ghost predicate Told(r: Resource, spec: Spec, w: World, was: StatusView)
      reads this, reconciler, reconciler.client, reconciler.planner, status
    {
      Reported(r, spec, w) || (Stopped(r, spec, w) && FailureShown(was))
    }

    /** The outcome is told, and the call succeeds only if that is a result which has been stored. */
    ghost predicate Finished(r: Resource, spec: Spec, w: World, was: StatusView, ok: bool, trace: seq<System>)
      reads this, reconciler, reconciler.client, reconciler.planner, status
    {
      Told(r, spec, w, was) && (ok ==> Reported(r, spec, w) && PatchStored(trace))
    }

    /** Without a source the only outcome is failure. */
    lemma MissingSourceFails(r: Resource, spec: Spec, w: World, was: StatusView, ok: bool, trace: seq<System>)
      requires Finished(r, spec, w, was, ok, trace) && r.source !in w.objects
      ensures FailureShown(was) && !ok
    {
    }

    /** A resource marked for deletion: finish it if it is still ours. */
    method Retire(r: Resource, copy: Stored, ghost first: System, ghost sofar: seq<System>)
      returns (ok: bool, ghost trace: seq<System>)
      requires reconciler.Valid() && Reaches(r.source, sofar, first, At(Loaded(copy))) && copy.deleting
      modifies server`api, reconciler.client`objects
      ensures Reaches(r.source, trace, first, At(Idle))
      ensures ok && FINALIZER in copy.finalizers ==>
        && AllCleanedUp(old(reconciler.client.objects), reconciler.client.objects, r.source, copy.spec.prune)
        && FinalizerGivenUp(r.source, copy, trace)
      ensures FINALIZER !in copy.finalizers ==>
        ok && server.api == old(server.api) && reconciler.client.objects == old(reconciler.client.objects)
      ensures FINALIZER in copy.finalizers && reconciler.client.healthy && server.quiet && server.healthy
              && old(server.api).stored == Some(copy) ==>
        && ok && ListedNamespaces(reconciler.client.objects, r.source) == {}
        && server.api == StoredWith(old(server.api), copy, copy.finalizers - {FINALIZER})
    {
      if FINALIZER in copy.finalizers {
        ok, trace := FinishDeletion(r, copy, first, sofar);
      } else {
        TraceGrows(r.source, sofar, first, At(Loaded(copy)), At(Idle));
        ok, trace := true, sofar + [At(Idle)];
      }
    }

    /** What a call comes to, for the resource as it was read. In deletion nothing is recorded or
        reported, and with the finalizer still there it succeeds only after a complete cleanup and with
        the finalizer given up. Otherwise the outcome is told, or nothing has been done at all. */
    ghost predicate Served(r: Resource, copy: Stored, w: World, was: StatusView, ok: bool, trace: seq<System>)
      reads this, reconciler, reconciler.client, reconciler.planner, status
    {
      if copy.deleting then
        && reconciler.planner.progresses == w.planner && status.View() == was
        && (FINALIZER !in copy.finalizers ==> ok && reconciler.World() == w)
        && (FINALIZER in copy.finalizers && ok ==>
              && AllCleanedUp(w.objects, reconciler.client.objects, r.source, copy.spec.prune)
              && FinalizerGivenUp(r.source, copy, trace))
      else
        || Finished(r, copy.spec, w, was, ok, trace)
        || (!ok && reconciler.World() == w && status.View() == was)
    }

    /** Undisturbed, a resource in deletion gives its finalizer up, and any other one ends with the
        finalizer in place and the outcome told. */
    method Serve(r: Resource, copy: Stored, ghost first: System, ghost sofar: seq<System>)
      returns (ok: bool, ghost trace: seq<System>)
      requires Valid() && Reaches(r.source, sofar, first, At(Loaded(copy)))
      modifies server`api, reconciler.client`objects, reconciler.client`upserted
      modifies reconciler.planner, reconciler.planner.owned, status
      ensures Valid()
      ensures Reaches(r.source, trace, first, At(Idle))
      ensures Served(r, copy, old(reconciler.World()), old(status.View()), ok, trace)
      ensures server.quiet && server.healthy && old(server.api).stored == Some(copy) && !copy.deleting ==>
        && server.api.stored
           == Some(copy.(version := server.api.revision, finalizers := copy.finalizers + {FINALIZER}))
        && Finished(r, copy.spec, old(reconciler.World()), old(status.View()), ok, trace)
        && (r.source !in old(reconciler.client.objects) ==> !ok && FailureShown(old(status.View())))
      ensures server.quiet && server.healthy && old(server.api).stored == Some(copy) && reconciler.client.healthy ==>
        && (copy.deleting || r.source in old(reconciler.client.objects) ==> ok)
        && (copy.deleting && copy.finalizers == {FINALIZER} ==> server.api.stored.None?)
      ensures copy.deleting && FINALIZER !in copy.finalizers ==> server.api == old(server.api)
    {
      if copy.deleting {
        ok, trace := Retire(r, copy, first, sofar);
      } else {
        ok, trace := Propagate(r, copy, first, sofar);
        if Finished(r, copy.spec, old(reconciler.World()), old(status.View()), ok, trace)
           && r.source !in old(reconciler.client.objects) {
          MissingSourceFails(r, copy.spec, old(reconciler.World()), old(status.View()), ok, trace);
        }
      }
    }

    /** Reads the resource. */
    method Load(source: NamespacedName) returns (seen: Reading, ghost trace: seq<System>)
      modifies server`api
      ensures Reaches(source, trace, old(At(Idle)),
                      At(if seen.Seen? && seen.stored.Some? then Loaded(seen.stored.value) else Idle))
      ensures server.quiet ==> server.api == old(server.api) && (seen == Unread || seen == Seen(server.api.stored))
      ensures server.healthy ==> seen != Unread
    {
      ghost var first := At(Idle);
      trace := Meanwhile(source, Idle, first, [first]);
      var read, stored := server.Get();
      seen := if read then Seen(stored) else Unread;
      if read && stored.Some? {
        TraceGrows(source, trace, first, At(Idle), At(Loaded(stored.value)));
        trace := trace + [At(Loaded(stored.value))];
      }
    }

    /** One call of the entry point: a trace of the protocol from idle to idle. */
    method Reconcile(r: Resource) returns (ok: bool, seen: Reading, ghost trace: seq<System>)
      requires Valid()
      modifies server`api, reconciler.client`objects, reconciler.client`upserted
      modifies reconciler.planner, reconciler.planner.owned, status
      ensures Valid()
      ensures Reaches(r.source, trace, old(At(Idle)), At(Idle))
      ensures Safe(r.source, old(At(Idle))) ==> Safe(r.source, At(Idle))
      ensures server.quiet ==> seen == Unread || seen == Seen(old(server.api).stored)
      ensures server.healthy ==> seen != Unread
      ensures seen == Unread || seen == Seen(None) ==>
        && (ok <==> seen != Unread)
        && reconciler.World() == old(reconciler.World()) && status.View() == old(status.View())
      ensures seen.Seen? && seen.stored.Some? ==>
        Served(r, seen.stored.value, old(reconciler.World()), old(status.View()), ok, trace)
      ensures server.quiet && server.healthy && old(server.api).stored.Some? ==>
        var s := old(server.api).stored.value;
        && (!s.deleting ==>
              && Finished(r, s.spec, old(reconciler.World()), old(status.View()), ok, trace)
              && server.api.stored
                 == Some(s.(version := server.api.revision, finalizers := s.finalizers + {FINALIZER})))
        && (!s.deleting && r.source !in old(reconciler.client.objects) ==> !ok && FailureShown(old(status.View())))
        && (reconciler.client.healthy && (s.deleting || r.source in old(reconciler.client.objects)) ==> ok)
        && (reconciler.client.healthy && s.deleting && s.finalizers == {FINALIZER} ==> server.api.stored.None?)
        && (s.deleting && FINALIZER !in s.finalizers ==> server.api == old(server.api))
    {
      ghost var first := At(Idle);
      seen, trace := Load(r.source);
      if seen.Seen? && seen.stored.Some? {
        ok, trace := Serve(r, seen.stored.value, first, trace);
      } else {
        ok := seen.Seen?;
      }
      SafeAtTheEnd(r.source, trace, first, At(Idle));
    }
  }

  /** The last request before the end was a patch that has been stored. */
  ghost predicate PatchStored(trace: seq<System>) {
    var n := |trace|;
    && n >= 3 && trace[n - 3].api.stored.Some?
    && trace[n - 2].api == Bumped(trace[n - 3].api, trace[n - 3].api.stored.value)
  }

  /** The last request was the update that gives the finalizer up, and it has been stored. */
  ghost predicate FinalizerGivenUp(source: NamespacedName, copy: Stored, trace: seq<System>) {
    var n := |trace|;
    && n >= 2 && trace[n - 2].phase == Cleared(copy) && CanStore(trace[n - 2].api, copy)
    && trace[n - 1].api == StoredWith(trace[n - 2].api, copy, copy.finalizers - {FINALIZER})
  }

  lemma SafeAtTheEnd(source: NamespacedName, trace: seq<System>, first: System, last: System)
    requires Reaches(source, trace, first, last)
    ensures Safe(source, first) ==> Safe(source, last)
  {
    if Safe(source, first) {
      NoOrphansEver(source, trace, |trace| - 1);
    }
  }

  /** A reconcile, wherever it stops, is work in the sense of the protocol. */
  lemma ReconcileIsWork(r: Resource, spec: Spec, selected: set<string>, w: World, stop: Stop, w': World)
    requires Reconciles(r, spec, selected, w, stop, w')
    ensures SomeWork(r.source, w.objects, w'.objects) || w'.objects == w.objects
  {
    if r.source in w.objects {
      var p := PassOf(r, spec, selected, w.objects);
      OutcomeObjects(p, w, stop);
      assert w'.objects == WorkOn(w.objects, p.d, SyncedSet(p, w, stop), p.prune, CleanedSet(p, w, stop));
    }
  }
}

/** The OperatorController: the admission filter, the worker step and its
    loop, the sync handler and the scheduler, over listers that it only reads,
    a work queue, and an event recorder, a condition updater and a write
    client whose calls it logs. */
module Controller {
  import opened Wrappers
  import opened RestoreTypes
  import opened Keys
  import opened Validation
  import opened Admission
  import opened SyncHandler
  import opened WorkQueue
  import opened Worker

  class OperatorController {
    // The listers' contents. The informer cache is read-only to the
    // controller: it reads a Restore as a value and works on a copy.
    const restores: map<ObjectKey, RestoreValue>
    const clusters: map<ObjectKey, StoreEntry>
    const backups: map<ObjectKey, StoreEntry>
    const primaries: map<ObjectKey, PodListing>
    // The failures the write client and the condition updater report.
    const updateErrors: map<ObjectKey, string>
    const conditionErrors: map<ObjectKey, string>
    const hooks: Hooks
    const queue: RateLimitingQueue
    // syncHandler: what the worker runs for each key, as the outcome the
    // handler has; it is processRestore (see SyncHandlerIsProcessRestore).
    ghost const syncHandler: string -> Outcome

    // The calls made on the recorder, the condition updater and the client,
    // in order.
    var effects: seq<Effect>

    /** The calls made so far on the queue and on the collaborators. */
    ghost function CurrentTrace(): Trace
      reads this, queue
    {
      Worker.Trace(queue.calls, effects)
    }

    function Listers(): Store
    {
      SyncHandler.Store(restores, clusters, backups, primaries, updateErrors, conditionErrors)
    }

    /** The handler the worker runs is processRestore over these listers. */
    ghost predicate SyncHandlerIsProcessRestore()
    {
      forall key {:trigger Reconcile(hooks, Listers(), key)} :: syncHandler(key) == Reconcile(hooks, Listers(), key)
    }

    constructor (restores: map<ObjectKey, RestoreValue>, clusters: map<ObjectKey, StoreEntry>,
                 backups: map<ObjectKey, StoreEntry>, primaries: map<ObjectKey, PodListing>,
                 updateErrors: map<ObjectKey, string>, conditionErrors: map<ObjectKey, string>, hooks: Hooks)
      ensures Listers() == SyncHandler.Store(restores, clusters, backups, primaries, updateErrors, conditionErrors)
      ensures this.hooks == hooks && SyncHandlerIsProcessRestore()
      ensures fresh(queue) && queue.Valid() && queue.pending == [] && !queue.shuttingDown && queue.calls == []
      ensures effects == []
    {
      this.restores := restores;
      this.clusters := clusters;
      this.backups := backups;
      this.primaries := primaries;
      this.updateErrors := updateErrors;
      this.conditionErrors := conditionErrors;
      this.hooks := hooks;
      var store := SyncHandler.Store(restores, clusters, backups, primaries, updateErrors, conditionErrors);
      syncHandler := key => Reconcile(hooks, store, key);
      queue := new RateLimitingQueue();
      effects := [];
    }

    /** The AddFunc handler for a Restore the informer reports as added, with
        what the key function returned for it. */
    method OnAdd(restore: RestoreValue, key: Result<string, string>)
      requires queue.Valid()
      requires key.Ok? ==> key.value == MetaNamespaceKey(KeyOf(restore))
      modifies queue
      ensures queue.Valid() && queue.shuttingDown == old(queue.shuttingDown)
      ensures match Admit(restore, key)
        case Enqueue(k) =>
          && k == MetaNamespaceKey(KeyOf(restore))
          && queue.calls == old(queue.calls) + [Added(k)]
          && queue.pending == if old(queue.shuttingDown) || k in old(queue.pending) then old(queue.pending)
                              else old(queue.pending) + [k]
        case _ => queue.calls == old(queue.calls) && queue.pending == old(queue.pending)
    {
      var cond := GetCondition(restore.conditions, RestoreScheduled);
      if cond.Some? && cond.value.status == ConditionTrue {
        return;
      }
      if key.Err? {
        return;
      }
      queue.Add(key.value);
    }

    /** recorder.Eventf. */
    method Eventf(restore: Restore, eventType: EventType, reason: string, message: string)
      modifies this`effects
      ensures effects == old(effects) + [EventRecorded(restore.Value(), eventType, reason, message)]
    {
      effects := effects + [EventRecorded(restore.Value(), eventType, reason, message)];
    }

    /** conditionUpdater.Update: records the request and reports the
        updater's chosen result. */
    method UpdateCondition(restore: Restore, condition: Condition) returns (err: Option<SyncError>)
      modifies this`effects
      ensures effects == old(effects) + [ConditionRequested(restore.Value(), condition)]
      ensures err == ConditionUpdate(conditionErrors, restore.Value())
    {
      effects := effects + [ConditionRequested(restore.Value(), condition)];
      err := ConditionUpdate(conditionErrors, restore.Value());
    }

    /** client.Restores(ns).Update: records the write and returns the stored
        object as a new one, or the client's chosen error. */
    method Update(ns: string, restore: Restore) returns (updated: Restore?, err: Option<string>)
      modifies this`effects
      ensures effects == old(effects) + [ClientUpdate(ns, restore.Value())]
      ensures var target := ObjectKey(ns, restore.meta.name);
        && (err.Some? <==> target in updateErrors)
        && (err.Some? ==> err.value == updateErrors[target] && updated == null)
        && (err.None? ==> updated != null && fresh(updated) && updated.Value() == restore.Value())
    {
      effects := effects + [ClientUpdate(ns, restore.Value())];
      var target := ObjectKey(ns, restore.meta.name);
      if target in updateErrors {
        return null, Some(updateErrors[target]);
      }
      updated := new Restore.FromValue(restore.Value());
      err := None;
    }

    /** scheduleRestore: writes the Scheduled condition and the member into
        the given object in place. */
    method ScheduleRestore(restore: Restore) returns (scheduled: Restore?, err: Option<ScheduleError>)
      modifies restore
      ensures match Schedule(primaries, old(restore.Value()))
        case Ok(v) => scheduled == restore && restore.Value() == v && err == None
        case Err(e) =>
          && err == Some(e) && restore.Value() == old(restore.Value())
          && scheduled == (if e.PodListError? then restore else null)
    {
      var name, ns := restore.spec.clusterName, restore.meta.namespace;
      var listing := ListPrimaries(primaries, ns, name);
      if listing.ListFailed? {
        return restore, Some(PodListError(listing.err));
      }
      if |listing.pods| > 0 {
        restore.UpdateCondition(ScheduledTrue);
        restore.spec := restore.spec.(scheduledMember := listing.pods[0].name);
        return restore, None;
      }
      return null, Some(NoPrimaries);
    }

    /** processRestore: works on a fresh deep copy of the cached Restore, so
        the only object it changes is one no one else holds. */
    method ProcessRestore(key: string) returns (err: Option<SyncError>)
      requires SyncHandlerIsProcessRestore()
      modifies this`effects
      ensures effects == old(effects) + syncHandler(key).effects
      ensures err == syncHandler(key).err
    {
      var split := SplitMetaNamespaceKey(key);
      if split.Err? {
        assert Reconcile(hooks, Listers(), key) == Abort(KeySplitError(split.error));
        return Some(KeySplitError(split.error));
      }
      var k := split.value;
      if k !in restores {
        assert Reconcile(hooks, Listers(), key) == Abort(RestoreGetError(k));
        return Some(RestoreGetError(k));
      }
      // The handler works on a private copy; the cached value stays as it is.
      var restore := new Restore.FromValue(restores[k]);
      restore.EnsureDefaults(hooks.ensureDefaults);
      ghost var defaulted := restore.Value();
      assert Reconcile(hooks, Listers(), key) == Sync(hooks, Listers(), k.namespace, defaulted);

      var validation := Validate(hooks, clusters, backups, k.namespace, restore.Value());
      if validation.Err? {
        return Some(ReferenceLookupError(validation.error));
      }
      if validation.value.Some? {
        var text := ErrorText(validation.value.value);
        Eventf(restore, Warning, "FailedValidation", text);
        err := UpdateCondition(restore, Condition(RestoreFailed, ConditionFalse, "FailedValidation", text));
        return;
      }
      assert Reconcile(hooks, Listers(), key) == ScheduleAndUpdate(Listers(), k.namespace, defaulted);

      var scheduled, scheduleErr := ScheduleRestore(restore);
      if scheduleErr.Some? {
        return Some(ScheduleFailed(scheduleErr.value));
      }
      assert Reconcile(hooks, Listers(), key) == Persist(updateErrors, k.namespace, scheduled.Value());
      var updated, updateErr := Update(k.namespace, scheduled);
      if updateErr.Some? {
        return Some(UpdateFailed(updateErr.value));
      }
      Eventf(updated, Normal, "SuccessScheduled", ScheduledMessage(updated.spec.scheduledMember));
      return None;
    }

    /** processNextWorkItem: one key from the queue through the handler;
        Done is deferred, so it comes after Forget or AddRateLimited. */
    method ProcessNextWorkItem() returns (more: bool)
      requires SyncHandlerIsProcessRestore() && queue.Valid()
      requires queue.shuttingDown || queue.pending != []
      modifies this`effects, queue
      ensures queue.Valid() && queue.shuttingDown == old(queue.shuttingDown)
      ensures more <==> old(queue.pending) != []
      ensures !more ==> queue.pending == old(queue.pending) && CurrentTrace() == old(CurrentTrace())
      ensures more ==>
        var key := old(queue.pending)[0];
        && queue.pending == old(queue.pending)[1..]
        && CurrentTrace() == Extend(old(CurrentTrace()), key, syncHandler(key))
    {
      var key, quit := queue.Get();
      if quit {
        return false;
      }
      var err := ProcessRestore(key);
      if err.None? {
        queue.Forget(key);
      } else {
        queue.AddRateLimited(key);
      }
      queue.Done(key);
      return true;
    }

    /** runWorker once the queue is shut down: the worker takes every pending
        key in order, then stops. */
    method RunWorker()
      requires SyncHandlerIsProcessRestore() && queue.Valid() && queue.shuttingDown
      modifies this`effects, queue
      ensures queue.Valid() && queue.shuttingDown && queue.pending == []
      ensures CurrentTrace() == Drain(old(CurrentTrace()), syncHandler, old(queue.pending))
    {
      ghost var keys := queue.pending;
      ghost var i := 0;
      var more := true;
      while more
        invariant queue.Valid() && queue.shuttingDown
        invariant 0 <= i <= |keys| && queue.pending == keys[i..]
        invariant !more ==> queue.pending == []
        invariant CurrentTrace() == Drain(old(CurrentTrace()), syncHandler, keys[..i])
        decreases |queue.pending| + (if more then 1 else 0)
      {
        more := ProcessNextWorkItem();
        if more {
          DrainStep(old(CurrentTrace()), syncHandler, keys[..i], keys[i]);
          assert keys[..i] + [keys[i]] == keys[..i + 1];
          i := i + 1;
        }
      }
      assert keys[..i] == keys;
    }
  }
}

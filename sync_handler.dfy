/** The sync handler (processRestore) and the scheduler (scheduleRestore) as a
    function from the listers' contents and a queue key to the effects of one
    invocation: the events recorded, the condition updates requested, the
    writes made through the client, and the error returned. */
module SyncHandler {
  import opened Wrappers
  import opened RestoreTypes
  import opened Keys
  import opened Validation
  import Admission

  /** An entry of the Cluster or Backup lister: the object, or an error other
      than NotFound. A key the map lacks is NotFound. */
  datatype StoreEntry = Cached | Unreadable(err: string)

  datatype Pod = Pod(name: string)

  /** What the Pod lister returns for the primary selector of one cluster. */
  datatype PodListing = Listed(pods: seq<Pod>) | ListFailed(err: string)

  /** The listers' contents and the chosen failures of the two writers:
      primaries is keyed by (namespace, cluster name); an Update of an object
      whose key is in updateErrors fails with that error, and so does a
      condition update in conditionErrors. */
  datatype Store = Store(
    restores: map<ObjectKey, RestoreValue>,
    clusters: map<ObjectKey, StoreEntry>,
    backups: map<ObjectKey, StoreEntry>,
    primaries: map<ObjectKey, PodListing>,
    updateErrors: map<ObjectKey, string>,
    conditionErrors: map<ObjectKey, string>)

  /** EnsureDefaults and Validate of the Restore type, whose rules live
      outside the controller. */
  datatype Hooks = Hooks(ensureDefaults: RestoreValue -> RestoreValue, validate: RestoreValue -> Option<string>)

  datatype EventType = Normal | Warning

  /** A call on one of the handler's collaborators: recorder.Eventf,
      conditionUpdater.Update, or the client's Update. */
  datatype Effect =
    | EventRecorded(involved: RestoreValue, eventType: EventType, reason: string, message: string)
    | ConditionRequested(restore: RestoreValue, condition: Condition)
    | ClientUpdate(namespace: string, restore: RestoreValue)

  datatype ScheduleError = PodListError(err: string) | NoPrimaries

  datatype SyncError =
    | KeySplitError(err: string)
    | RestoreGetError(key: ObjectKey)
    | ReferenceLookupError(err: string)
    | ConditionUpdateError(err: string)
    | ScheduleFailed(cause: ScheduleError)
    | UpdateFailed(err: string)

  /** Everything one invocation of the handler does: the collaborator calls
      in the order made, and the error returned (None is nil). */
  datatype Outcome = Outcome(effects: seq<Effect>, err: Option<SyncError>)

  const ScheduledTrue := Condition(RestoreScheduled, ConditionTrue, "", "")

  function Get(m: map<ObjectKey, StoreEntry>, k: ObjectKey): Lookup
  {
    if k !in m then NotFound
    else match m[k]
      case Cached => Found
      case Unreadable(e) => LookupError(e)
  }

  function ListPrimaries(primaries: map<ObjectKey, PodListing>, ns: string, cluster: string): PodListing
  {
    var k := ObjectKey(ns, cluster);
    if k in primaries then primaries[k] else Listed([])
  }

  /** scheduleRestore: lists the primaries of the Restore's cluster in the
      Restore's own namespace and schedules on the first one. */
  function Schedule(primaries: map<ObjectKey, PodListing>, r: RestoreValue): (res: Result<RestoreValue, ScheduleError>)
    ensures var l := ListPrimaries(primaries, r.meta.namespace, r.spec.clusterName);
      && (res.Ok? <==> l.Listed? && l.pods != [])
      && (res == Err(NoPrimaries) <==> l == Listed([]))
      && (res.Ok? ==> res.value.spec.scheduledMember == l.pods[0].name)
    ensures res.Ok? ==>
      && res.value.meta == r.meta
      && res.value.spec.clusterName == r.spec.clusterName
      && res.value.spec.backupName == r.spec.backupName
      && GetCondition(res.value.conditions, RestoreScheduled) == Some(ScheduledTrue)
      && Admission.IsScheduled(res.value)
      && (forall t :: t != RestoreScheduled ==> GetCondition(res.value.conditions, t) == GetCondition(r.conditions, t))
  {
    match ListPrimaries(primaries, r.meta.namespace, r.spec.clusterName)
    case ListFailed(e) => Err(PodListError(e))
    case Listed(pods) =>
      if |pods| > 0 then
        Ok(r.(conditions := SetCondition(r.conditions, ScheduledTrue),
              spec := r.spec.(scheduledMember := pods[0].name)))
      else Err(NoPrimaries)
  }

  /** The two references of a Restore, looked up in namespace ns. */
  function References(clusters: map<ObjectKey, StoreEntry>, backups: map<ObjectKey, StoreEntry>,
                      ns: string, r: RestoreValue): seq<Reference>
  {
    [Reference("spec.cluster.name", r.spec.clusterName, Get(clusters, ObjectKey(ns, r.spec.clusterName))),
     Reference("spec.backup.name", r.spec.backupName, Get(backups, ObjectKey(ns, r.spec.backupName)))]
  }

  /** Local validation first; only when it passes are the references looked
      up. Err is a lookup failure that aborts the sync; Ok(None) is valid. */
  function Validate(hooks: Hooks, clusters: map<ObjectKey, StoreEntry>, backups: map<ObjectKey, StoreEntry>,
                    ns: string, r: RestoreValue): Result<Option<ValidationError>, string>
  {
    match hooks.validate(r)
    case Some(m) => Ok(Some(Invalid(m)))
    case None =>
      match CheckReferences(References(clusters, backups, ns, r))
      case Err(e) => Err(e)
      case Ok(errs) => if |errs| > 0 then Ok(Some(Aggregate(errs))) else Ok(None)
  }

  function FailedCondition(v: ValidationError): Condition
  {
    Condition(RestoreFailed, ConditionFalse, "FailedValidation", ErrorText(v))
  }

  function ScheduledMessage(member: string): string
  {
    "Scheduled on Pod \"" + member + "\""
  }

  function Abort(e: SyncError): Outcome
  {
    Outcome([], Some(e))
  }

  /** The condition updater's result for r. */
  function ConditionUpdate(conditionErrors: map<ObjectKey, string>, r: RestoreValue): Option<SyncError>
  {
    if KeyOf(r) in conditionErrors then Some(ConditionUpdateError(conditionErrors[KeyOf(r)])) else None
  }

  /** processRestore(key): split the key, fetch the cached Restore, then
      work on its defaulted copy. */
  function Reconcile(hooks: Hooks, store: Store, key: string): Outcome
  {
    match SplitMetaNamespaceKey(key)
    case Err(e) => Abort(KeySplitError(e))
    case Ok(k) =>
      if k !in store.restores then Abort(RestoreGetError(k))
      else Sync(hooks, store, k.namespace, hooks.ensureDefaults(store.restores[k]))
  }

  /** processRestore from the defaulted copy on: validate, then either mark
      the copy Failed or schedule and persist it. */
  function Sync(hooks: Hooks, store: Store, ns: string, restore: RestoreValue): Outcome
  {
    match Validate(hooks, store.clusters, store.backups, ns, restore)
    case Err(e) => Abort(ReferenceLookupError(e))
    case Ok(Some(v)) => Reject(store.conditionErrors, restore, v)
    case Ok(None) => ScheduleAndUpdate(store, ns, restore)
  }

  /** The invalid branch: one warning event, one Failed condition, and the
      condition updater's result. */
  function Reject(conditionErrors: map<ObjectKey, string>, restore: RestoreValue, v: ValidationError): Outcome
  {
    Outcome([EventRecorded(restore, Warning, "FailedValidation", ErrorText(v)),
             ConditionRequested(restore, FailedCondition(v))],
            ConditionUpdate(conditionErrors, restore))
  }

  /** The valid branch: schedule, write the scheduled copy through the
      client, and on success record the Normal event. */
  function ScheduleAndUpdate(store: Store, ns: string, restore: RestoreValue): Outcome
  {
    match Schedule(store.primaries, restore)
    case Err(e) => Abort(ScheduleFailed(e))
    case Ok(scheduled) => Persist(store.updateErrors, ns, scheduled)
  }

  /** The client's Update of the scheduled copy; the object it returns is
      the one written, and the Normal event names its member. */
  function Persist(updateErrors: map<ObjectKey, string>, ns: string, scheduled: RestoreValue): Outcome
  {
    var target := ObjectKey(ns, scheduled.meta.name);
    if target in updateErrors then
      Outcome([ClientUpdate(ns, scheduled)], Some(UpdateFailed(updateErrors[target])))
    else
      Outcome([ClientUpdate(ns, scheduled),
               EventRecorded(scheduled, Normal, "SuccessScheduled", ScheduledMessage(scheduled.spec.scheduledMember))],
              None)
  }
}

/** What processRestore promises, stated as lemmas over Reconcile. */
module SyncHandlerProperties {
  import opened Wrappers
  import opened RestoreTypes
  import opened Keys
  import opened Validation
  import opened SyncHandler
  import Admission

  /** The failures that end the sync before any collaborator is called. */
  predicate Infrastructure(e: SyncError)
  {
    e.KeySplitError? || e.RestoreGetError? || e.ReferenceLookupError? || e.ScheduleFailed?
  }

  /** Every outcome of processRestore calls the collaborators at most
      twice, starting with an event or a client Update; infrastructure and
      scheduling failures, and only they, call none. */
  lemma ReconcileOutcomeShape(hooks: Hooks, store: Store, key: string)
    ensures var o := Reconcile(hooks, store, key);
      && |o.effects| <= 2
      && (o.effects == [] <==> o.err.Some? && Infrastructure(o.err.value))
      && (o.effects != [] ==> o.effects[0].EventRecorded? || o.effects[0].ClientUpdate?)
  {
    match SplitMetaNamespaceKey(key)
    case Err(_) =>
    case Ok(k) =>
      if k in store.restores {
        var r := hooks.ensureDefaults(store.restores[k]);
        match Validate(hooks, store.clusters, store.backups, k.namespace, r)
        case Err(_) =>
        case Ok(Some(v)) =>
          assert Reconcile(hooks, store, key) == Reject(store.conditionErrors, r, v);
        case Ok(None) =>
          assert Reconcile(hooks, store, key) == ScheduleAndUpdate(store, k.namespace, r);
      }
  }

  /** The invalid branch: one warning, then the Failed condition with the
      same text, nothing written through the client, and the condition
      updater's result returned. */
  lemma RejectedOutcome(hooks: Hooks, store: Store, key: string)
    ensures var o := Reconcile(hooks, store, key);
      o.effects != [] && o.effects[0].EventRecorded? ==>
        var ev := o.effects[0];
        && |o.effects| == 2
        && ev.eventType == Warning && ev.reason == "FailedValidation"
        && o.effects[1] == ConditionRequested(ev.involved, Condition(RestoreFailed, ConditionFalse, "FailedValidation", ev.message))
        && o.err == ConditionUpdate(store.conditionErrors, ev.involved)
  {
    match SplitMetaNamespaceKey(key)
    case Err(_) =>
    case Ok(k) =>
      if k in store.restores {
        var r := hooks.ensureDefaults(store.restores[k]);
        match Validate(hooks, store.clusters, store.backups, k.namespace, r)
        case Err(_) =>
        case Ok(Some(v)) =>
          assert Reconcile(hooks, store, key) == Reject(store.conditionErrors, r, v);
        case Ok(None) =>
          assert Reconcile(hooks, store, key) == ScheduleAndUpdate(store, k.namespace, r);
      }
  }

  /** The valid branch: the scheduled copy of the cached Restore is written
      once; only a successful write is followed by the Normal event naming
      the member. */
  lemma ScheduledOutcome(hooks: Hooks, store: Store, key: string)
    ensures var o := Reconcile(hooks, store, key);
      o.effects != [] && o.effects[0].ClientUpdate? ==>
        var w := o.effects[0].restore;
        && SplitMetaNamespaceKey(key).Ok?
        && var k := SplitMetaNamespaceKey(key).value;
        && k in store.restores
        && o.effects[0].namespace == k.namespace
        && var r := hooks.ensureDefaults(store.restores[k]);
        && Validate(hooks, store.clusters, store.backups, k.namespace, r) == Ok(None)
        && Schedule(store.primaries, r).Ok? && w == Schedule(store.primaries, r).value
        && w.meta == r.meta
        && GetCondition(w.conditions, RestoreScheduled) == Some(ScheduledTrue)
        && var l := ListPrimaries(store.primaries, w.meta.namespace, w.spec.clusterName);
        && l.Listed? && l.pods != [] && w.spec.scheduledMember == l.pods[0].name
        && (o.err.None? <==> |o.effects| == 2)
        && (o.err.Some? ==> o.err.value.UpdateFailed? && |o.effects| == 1)
        && (|o.effects| == 2 ==> o.effects[1] == EventRecorded(w, Normal, "SuccessScheduled", ScheduledMessage(w.spec.scheduledMember)))
  {
    match SplitMetaNamespaceKey(key)
    case Err(_) =>
    case Ok(k) =>
      if k in store.restores {
        var r := hooks.ensureDefaults(store.restores[k]);
        match Validate(hooks, store.clusters, store.backups, k.namespace, r)
        case Err(_) =>
        case Ok(Some(v)) =>
          assert Reconcile(hooks, store, key) == Reject(store.conditionErrors, r, v);
        case Ok(None) =>
          assert Reconcile(hooks, store, key) == ScheduleAndUpdate(store, k.namespace, r);
      }
  }

  /** Once the Restore is fetched, the validation result decides the branch:
      a lookup failure aborts; an invalid Restore gets exactly the warning and
      the Failed condition, and is never written; a valid Restore that cannot
      be scheduled aborts with the scheduler's error; a scheduled one is
      written through the client first. */
  lemma ValidationDecidesBranch(hooks: Hooks, store: Store, key: string, k: ObjectKey)
    requires SplitMetaNamespaceKey(key) == Ok(k) && k in store.restores
    ensures var r := hooks.ensureDefaults(store.restores[k]);
      var v := Validate(hooks, store.clusters, store.backups, k.namespace, r);
      var s := Schedule(store.primaries, r);
      var o := Reconcile(hooks, store, key);
      && (v.Err? ==> o == Abort(ReferenceLookupError(v.error)))
      && (v.Ok? && v.value.Some? ==>
            && o.effects == [EventRecorded(r, Warning, "FailedValidation", ErrorText(v.value.value)),
                             ConditionRequested(r, FailedCondition(v.value.value))]
            && o.err == ConditionUpdate(store.conditionErrors, r))
      && (v == Ok(None) && s.Err? ==> o == Abort(ScheduleFailed(s.error)))
      && (v == Ok(None) && s.Ok? ==> o.effects != [] && o.effects[0] == ClientUpdate(k.namespace, s.value))
  {
  }

  /** A key that does not split, or a Restore the lister does not have, ends
      the sync with an error and no event, condition update or write. */
  lemma FetchFailuresLeaveNoTrace(hooks: Hooks, store: Store, key: string)
    ensures SplitMetaNamespaceKey(key).Err? ==>
              Reconcile(hooks, store, key) == Abort(KeySplitError(SplitMetaNamespaceKey(key).error))
    ensures SplitMetaNamespaceKey(key).Ok? && SplitMetaNamespaceKey(key).value !in store.restores ==>
              Reconcile(hooks, store, key) == Abort(RestoreGetError(SplitMetaNamespaceKey(key).value))
  {
  }

  /** A Cluster or Backup lookup error other than NotFound ends the sync with
      that error and no trace; the Cluster is looked up first. */
  lemma ReferenceLookupFailureAborts(hooks: Hooks, store: Store, key: string, k: ObjectKey)
    requires SplitMetaNamespaceKey(key) == Ok(k) && k in store.restores
    requires hooks.validate(hooks.ensureDefaults(store.restores[k])).None?
    ensures var r := hooks.ensureDefaults(store.restores[k]);
      var c := Get(store.clusters, ObjectKey(k.namespace, r.spec.clusterName));
      var b := Get(store.backups, ObjectKey(k.namespace, r.spec.backupName));
      && (c.LookupError? ==> Reconcile(hooks, store, key) == Abort(ReferenceLookupError(c.err)))
      && (!c.LookupError? && b.LookupError? ==> Reconcile(hooks, store, key) == Abort(ReferenceLookupError(b.err)))
  {
    var r := hooks.ensureDefaults(store.restores[k]);
    var refs := References(store.clusters, store.backups, k.namespace, r);
    if Failed(refs[0]) {
      FirstFailureWins(refs, 0);
    } else if Failed(refs[1]) {
      FirstFailureWins(refs, 1);
    }
  }

  /** Each missing reference contributes exactly one NotFound error at its
      own field path, the Cluster's first; none missing leaves no error. */
  lemma MissingReferencesAreReported(clusters: map<ObjectKey, StoreEntry>, backups: map<ObjectKey, StoreEntry>,
                                     ns: string, r: RestoreValue)
    requires !Get(clusters, ObjectKey(ns, r.spec.clusterName)).LookupError?
    requires !Get(backups, ObjectKey(ns, r.spec.backupName)).LookupError?
    ensures CheckReferences(References(clusters, backups, ns, r)) ==
      Ok((if Get(clusters, ObjectKey(ns, r.spec.clusterName)) == NotFound
          then [FieldNotFound("spec.cluster.name", r.spec.clusterName)] else [])
       + (if Get(backups, ObjectKey(ns, r.spec.backupName)) == NotFound
          then [FieldNotFound("spec.backup.name", r.spec.backupName)] else []))
  {
    var refs := References(clusters, backups, ns, r);
    var backupErrs := if refs[1].lookup == NotFound then [FieldNotFound(refs[1].path, refs[1].name)] else [];
    assert refs[1..] == [refs[1]];
    assert [refs[1]][1..] == [];
    assert CheckReferences([refs[1]]) == Ok(backupErrs) by {
      assert backupErrs + [] == backupErrs;
    }
    if refs[0].lookup == NotFound {
      assert CheckReferences(refs) == Ok([FieldNotFound(refs[0].path, refs[0].name)] + backupErrs);
    } else {
      assert CheckReferences(refs) == Ok(backupErrs);
      assert [] + backupErrs == backupErrs;
    }
  }

  /** References are looked up only when local validation passed: a locally
      invalid Restore gets the same outcome whatever the Cluster and Backup
      listers hold, and that outcome is the Failed condition with the local
      error's text. */
  lemma LocalValidationShortCircuits(hooks: Hooks, s1: Store, s2: Store, key: string, k: ObjectKey)
    requires s1.(clusters := s2.clusters, backups := s2.backups) == s2
    requires SplitMetaNamespaceKey(key) == Ok(k) && k in s1.restores
    requires hooks.validate(hooks.ensureDefaults(s1.restores[k])).Some?
    ensures Reconcile(hooks, s1, key) == Reconcile(hooks, s2, key)
    ensures var r := hooks.ensureDefaults(s1.restores[k]);
      var m := hooks.validate(r).value;
      Reconcile(hooks, s1, key).effects == [EventRecorded(r, Warning, "FailedValidation", m),
                                            ConditionRequested(r, Condition(RestoreFailed, ConditionFalse, "FailedValidation", m))]
  {
  }

  /** With both references missing, the Failed condition and the warning
      event name both field paths. */
  lemma BothMissingMentionsBothPaths(hooks: Hooks, store: Store, key: string, k: ObjectKey)
    requires SplitMetaNamespaceKey(key) == Ok(k) && k in store.restores
    requires var r := hooks.ensureDefaults(store.restores[k]);
      && hooks.validate(r).None?
      && Get(store.clusters, ObjectKey(k.namespace, r.spec.clusterName)) == NotFound
      && Get(store.backups, ObjectKey(k.namespace, r.spec.backupName)) == NotFound
    ensures var o := Reconcile(hooks, store, key);
      && |o.effects| == 2 && o.effects[0].EventRecorded? && o.effects[1].ConditionRequested?
      && Mentions(o.effects[1].condition.message, "spec.cluster.name")
      && Mentions(o.effects[1].condition.message, "spec.backup.name")
      && Mentions(o.effects[0].message, "spec.cluster.name")
      && Mentions(o.effects[0].message, "spec.backup.name")
  {
    var r := hooks.ensureDefaults(store.restores[k]);
    MissingReferencesAreReported(store.clusters, store.backups, k.namespace, r);
    var errs := [FieldNotFound("spec.cluster.name", r.spec.clusterName), FieldNotFound("spec.backup.name", r.spec.backupName)];
    AggregateMentionsEveryPath(errs, errs[0]);
    AggregateMentionsEveryPath(errs, errs[1]);
  }

  /** With no primary to schedule on, the sync fails with a retryable error
      and neither the condition nor the Restore is written. */
  lemma NoPrimariesLeavesNoTrace(hooks: Hooks, store: Store, key: string, k: ObjectKey)
    requires SplitMetaNamespaceKey(key) == Ok(k) && k in store.restores
    requires var r := hooks.ensureDefaults(store.restores[k]);
      && Validate(hooks, store.clusters, store.backups, k.namespace, r) == Ok(None)
      && ListPrimaries(store.primaries, r.meta.namespace, r.spec.clusterName) == Listed([])
    ensures Reconcile(hooks, store, key) == Abort(ScheduleFailed(NoPrimaries))
  {
  }

  /** A Restore the scheduler has placed is skipped by the admission filter
      when its add is replayed. */
  lemma ScheduledRestoreIsNotReadmitted(primaries: map<ObjectKey, PodListing>, r: RestoreValue, key: Result<string, string>)
    ensures Schedule(primaries, r).Ok? ==> Admission.Admit(Schedule(primaries, r).value, key) == Admission.AlreadyScheduled
  {
  }

  /** The key the admission filter enqueues for an unscheduled Restore is the
      one the handler splits back to that Restore's namespace and name. */
  lemma AdmittedKeyResolvesToRestore(r: RestoreValue)
    requires '/' !in r.meta.namespace && '/' !in r.meta.name
    requires !Admission.IsScheduled(r)
    ensures var key := MetaNamespaceKey(KeyOf(r));
      && Admission.Admit(r, Ok(key)) == Admission.Enqueue(key)
      && SplitMetaNamespaceKey(key) == Ok(KeyOf(r))
  {
    SplitJoin(KeyOf(r));
  }

  /** The handler does not look at the Scheduled condition: a Restore that is
      already scheduled and reaches it is scheduled again on the current
      first primary, overwriting the member it had. */
  lemma AlreadyScheduledIsRescheduled(hooks: Hooks, store: Store, key: string, k: ObjectKey, first: Pod, rest: seq<Pod>)
    requires SplitMetaNamespaceKey(key) == Ok(k) && k in store.restores
    requires var r := hooks.ensureDefaults(store.restores[k]);
      && Admission.IsScheduled(r)
      && Validate(hooks, store.clusters, store.backups, k.namespace, r) == Ok(None)
      && ListPrimaries(store.primaries, r.meta.namespace, r.spec.clusterName) == Listed([first] + rest)
      && r.spec.scheduledMember != first.name
    ensures var o := Reconcile(hooks, store, key);
      && o.effects != [] && o.effects[0].ClientUpdate?
      && o.effects[0].restore.spec.scheduledMember == first.name
      && o.effects[0].restore.spec.scheduledMember != hooks.ensureDefaults(store.restores[k]).spec.scheduledMember
  {
  }

  const NoHooks := Hooks(r => r, r => None)

  function ScenarioRestore(name: string, cluster: string, backup: string): RestoreValue
  {
    RestoreValue(ObjectMeta("ns", name, map[]), RestoreSpec(cluster, backup, ""), [])
  }

  lemma ScenarioKeys()
    ensures SplitMetaNamespaceKey("ns/r1") == Ok(ObjectKey("ns", "r1"))
    ensures SplitMetaNamespaceKey("ns/r2") == Ok(ObjectKey("ns", "r2"))
  {
    assert "ns" + "/" + "r1" == "ns/r1" && "ns" + "/" + "r2" == "ns/r2";
    assert '/' !in "ns" && '/' !in "r1" && '/' !in "r2";
    SplitJoin(ObjectKey("ns", "r1"));
    SplitJoin(ObjectKey("ns", "r2"));
  }

  lemma MissingBackupValidation()
    ensures Validate(NoHooks, map[ObjectKey("ns", "db1") := Cached], map[], "ns", ScenarioRestore("r1", "db1", "missing-backup"))
         == Ok(Some(Aggregate([FieldNotFound("spec.backup.name", "missing-backup")])))
  {
    var r1 := ScenarioRestore("r1", "db1", "missing-backup");
    var clusters: map<ObjectKey, StoreEntry> := map[ObjectKey("ns", "db1") := Cached];
    var backups: map<ObjectKey, StoreEntry> := map[];
    assert Get(clusters, ObjectKey("ns", r1.spec.clusterName)) == Found;
    assert Get(backups, ObjectKey("ns", r1.spec.backupName)) == NotFound;
    MissingReferencesAreReported(clusters, backups, "ns", r1);
    assert [] + [FieldNotFound("spec.backup.name", "missing-backup")] == [FieldNotFound("spec.backup.name", "missing-backup")];
  }

  /** r1 in ns: Cluster db1 exists, Backup missing-backup does not. One error
      at spec.backup.name; a warning and the Failed condition whose text
      names the path and the missing backup; no write of ScheduledMember. */
  lemma ScenarioMissingBackup()
    ensures var r1 := ScenarioRestore("r1", "db1", "missing-backup");
      var store := Store(map[ObjectKey("ns", "r1") := r1], map[ObjectKey("ns", "db1") := Cached], map[],
                         map[ObjectKey("ns", "db1") := Listed([Pod("pod-0")])], map[], map[]);
      var o := Reconcile(NoHooks, store, "ns/r1");
      var text := ErrorText(Aggregate([FieldNotFound("spec.backup.name", "missing-backup")]));
      && o.effects == [EventRecorded(r1, Warning, "FailedValidation", text),
                       ConditionRequested(r1, Condition(RestoreFailed, ConditionFalse, "FailedValidation", text))]
      && o.err == None
      && Mentions(text, "spec.backup.name") && Mentions(text, "missing-backup")
  {
    ScenarioKeys();
    MissingBackupValidation();
    var e := FieldNotFound("spec.backup.name", "missing-backup");
    assert ErrorText(Aggregate([e])) == FieldErrorText(e);
  }

  /** r2 in ns: both references exist and pod-0 is the one primary. The
      Restore is written once with ScheduledMember pod-0 and Scheduled=True,
      and one Normal event is recorded. */
  lemma ScenarioScheduled()
    ensures var r2 := ScenarioRestore("r2", "db1", "b1");
      var store := Store(map[ObjectKey("ns", "r2") := r2], map[ObjectKey("ns", "db1") := Cached],
                         map[ObjectKey("ns", "b1") := Cached],
                         map[ObjectKey("ns", "db1") := Listed([Pod("pod-0")])], map[], map[]);
      var o := Reconcile(NoHooks, store, "ns/r2");
      var scheduled := r2.(spec := r2.spec.(scheduledMember := "pod-0"), conditions := [ScheduledTrue]);
      && o.effects == [ClientUpdate("ns", scheduled),
                       EventRecorded(scheduled, Normal, "SuccessScheduled", ScheduledMessage("pod-0"))]
      && o.err == None
  {
    var r2 := ScenarioRestore("r2", "db1", "b1");
    ScenarioKeys();
    var clusters: map<ObjectKey, StoreEntry> := map[ObjectKey("ns", "db1") := Cached];
    var backups: map<ObjectKey, StoreEntry> := map[ObjectKey("ns", "b1") := Cached];
    assert Get(clusters, ObjectKey("ns", r2.spec.clusterName)) == Found;
    assert Get(backups, ObjectKey("ns", r2.spec.backupName)) == Found;
    MissingReferencesAreReported(clusters, backups, "ns", r2);
    assert Validate(NoHooks, clusters, backups, "ns", r2) == Ok(None);
    var primaries := map[ObjectKey("ns", "db1") := Listed([Pod("pod-0")])];
    assert ListPrimaries(primaries, "ns", "db1") == Listed([Pod("pod-0")]);
    var scheduled := r2.(spec := r2.spec.(scheduledMember := "pod-0"), conditions := [ScheduledTrue]);
    assert Schedule(primaries, r2) == Ok(scheduled);
    var store := Store(map[ObjectKey("ns", "r2") := r2], clusters, backups, primaries, map[], map[]);
    assert Reconcile(NoHooks, store, "ns/r2") ==
      Outcome([ClientUpdate("ns", scheduled), EventRecorded(scheduled, Normal, "SuccessScheduled", ScheduledMessage("pod-0"))], None);
  }
}

/** The Restore resource as the controller sees it: object metadata, the spec
    written by the requester, and the status conditions. Also the condition
    helpers the controller relies on (GetRestoreCondition and
    UpdateRestoreCondition of the restore API package), and the Restore object
    that lives in the informer cache or is a private copy of it. */
module RestoreTypes {
  import opened Wrappers

  /** Namespace and name of a namespaced object; the key of every lister. */
  datatype ObjectKey = ObjectKey(namespace: string, name: string)

  datatype ObjectMeta = ObjectMeta(namespace: string, name: string, labels: map<string, string>)

  datatype ConditionType = RestoreScheduled | RestoreFailed

  datatype ConditionStatus = ConditionTrue | ConditionFalse | ConditionUnknown

  /** A status condition; the transition time is not modelled. */
  datatype Condition = Condition(ctype: ConditionType, status: ConditionStatus, reason: string, message: string)

  /** Spec.Cluster.Name, Spec.Backup.Name and Spec.ScheduledMember. */
  datatype RestoreSpec = RestoreSpec(clusterName: string, backupName: string, scheduledMember: string)

  datatype RestoreValue = RestoreValue(meta: ObjectMeta, spec: RestoreSpec, conditions: seq<Condition>)

  function KeyOf(r: RestoreValue): ObjectKey
  {
    ObjectKey(r.meta.namespace, r.meta.name)
  }

  /** The first condition of type t, if there is one. */
  function GetCondition(conds: seq<Condition>, t: ConditionType): (r: Option<Condition>)
    ensures r.Some? ==> r.value in conds && r.value.ctype == t
    ensures r.Some? ==> exists i :: 0 <= i < |conds| && conds[i] == r.value && forall j :: 0 <= j < i ==> conds[j].ctype != t
    ensures r.None? <==> forall c :: c in conds ==> c.ctype != t
  {
    if conds == [] then None
    else if conds[0].ctype == t then Some(conds[0])
    else GetCondition(conds[1..], t)
  }

  /** Upsert by type: the first condition of c's type is replaced by c, or c
      is appended when there is none. */
  function SetCondition(conds: seq<Condition>, c: Condition): (r: seq<Condition>)
    ensures GetCondition(r, c.ctype) == Some(c)
    ensures forall t :: t != c.ctype ==> GetCondition(r, t) == GetCondition(conds, t)
    ensures |r| == if GetCondition(conds, c.ctype).None? then |conds| + 1 else |conds|
  {
    if conds == [] then [c]
    else if conds[0].ctype == c.ctype then [c] + conds[1..]
    else [conds[0]] + SetCondition(conds[1..], c)
  }

  /** Setting a condition leaves the conditions of other types where they
      were: every condition of another type is kept. */
  lemma {:induction false} SetConditionKeepsOthers(conds: seq<Condition>, c: Condition, d: Condition)
    requires d in conds && d.ctype != c.ctype
    ensures d in SetCondition(conds, c)
  {
    if conds[0] != d {
      assert d in conds[1..];
      if conds[0].ctype != c.ctype {
        SetConditionKeepsOthers(conds[1..], c, d);
      }
    }
  }

  /** Setting the same condition twice is the same as setting it once. */
  lemma {:induction false} SetConditionIdempotent(conds: seq<Condition>, c: Condition)
    ensures SetCondition(SetCondition(conds, c), c) == SetCondition(conds, c)
  {
    if conds != [] && conds[0].ctype != c.ctype {
      SetConditionIdempotent(conds[1..], c);
    }
  }

  /** The Restore object the sync handler works on: a deep copy of what the
      informer cache holds, changed in place by defaulting and scheduling. */
  class Restore {
    var meta: ObjectMeta
    var spec: RestoreSpec
    var conditions: seq<Condition>

    function Value(): RestoreValue
      reads this
    {
      RestoreValue(meta, spec, conditions)
    }

    constructor FromValue(v: RestoreValue)
      ensures Value() == v
    {
      meta, spec, conditions := v.meta, v.spec, v.conditions;
    }

    /** EnsureDefaults applies the defaulting rules (the operator version
        label and the like) in place; the rules are a parameter. */
    method EnsureDefaults(defaults: RestoreValue -> RestoreValue)
      modifies this
      ensures Value() == defaults(old(Value()))
    {
      var v := defaults(Value());
      meta, spec, conditions := v.meta, v.spec, v.conditions;
    }

    /** UpdateRestoreCondition on this object's status. */
    method UpdateCondition(c: Condition)
      modifies this`conditions
      ensures conditions == SetCondition(old(conditions), c)
    {
      conditions := SetCondition(conditions, c);
    }
  }
}

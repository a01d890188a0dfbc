/** The admission filter run for every Restore the informer reports as added:
    a Restore already scheduled is skipped, otherwise its key is enqueued; a
    key that cannot be built is logged and dropped. */
module Admission {
  import opened Wrappers
  import opened RestoreTypes

  /** The Restore carries a Scheduled condition whose status is True. */
  predicate IsScheduled(r: RestoreValue)
  {
    match GetCondition(r.conditions, RestoreScheduled)
    case Some(c) => c.status == ConditionTrue
    case None => false
  }

  datatype Decision = AlreadyScheduled | KeyError(err: string) | Enqueue(key: string)

  /** The decision for restore r, given what the key function returned. */
  function Admit(r: RestoreValue, key: Result<string, string>): (d: Decision)
    ensures d.Enqueue? <==> !IsScheduled(r) && key.Ok?
    ensures d.Enqueue? ==> d.key == key.value
    ensures d.AlreadyScheduled? <==> IsScheduled(r)
  {
    if IsScheduled(r) then AlreadyScheduled
    else
      match key
      case Err(e) => KeyError(e)
      case Ok(k) => Enqueue(k)
  }
}

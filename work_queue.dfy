/** The rate-limited work queue the controller drives, reduced to what the
    controller relies on: a FIFO of pending keys without duplicates, the
    shut-down flag, and a log of every call made on it. */
module WorkQueue {

  datatype QueueCall = Added(key: string) | Got(key: string) | Finished(key: string)
                     | Forgot(key: string) | RateLimited(key: string)

  class RateLimitingQueue {
    var pending: seq<string>
    var shuttingDown: bool
    var calls: seq<QueueCall>

    /** A key is pending at most once. */
    ghost predicate Valid()
      reads this
    {
      forall i, j :: 0 <= i < j < |pending| ==> pending[i] != pending[j]
    }

    constructor ()
      ensures Valid() && pending == [] && !shuttingDown && calls == []
    {
      pending, shuttingDown, calls := [], false, [];
    }

    /** Add: ignored once shut down or while the key is already pending. */
    method Add(key: string)
      requires Valid()
      modifies this
      ensures Valid() && shuttingDown == old(shuttingDown)
      ensures calls == old(calls) + [Added(key)]
      ensures pending == if old(shuttingDown) || key in old(pending) then old(pending) else old(pending) + [key]
    {
      calls := calls + [Added(key)];
      if !shuttingDown && key !in pending {
        pending := pending + [key];
      }
    }

    /** Get blocks while the queue is empty and not shut down, so it returns
        only in a state where the precondition holds: the first pending key,
        or quit when nothing is pending. */
    method Get() returns (key: string, quit: bool)
      requires Valid()
      requires shuttingDown || pending != []
      modifies this
      ensures Valid() && shuttingDown == old(shuttingDown)
      ensures quit <==> old(pending) == []
      ensures quit ==> pending == old(pending) && calls == old(calls)
      ensures !quit ==> key == old(pending)[0] && pending == old(pending)[1..] && calls == old(calls) + [Got(key)]
    {
      if pending == [] {
        return "", true;
      }
      key, quit := pending[0], false;
      pending := pending[1..];
      calls := calls + [Got(key)];
    }

    method Done(key: string)
      modifies this`calls
      ensures calls == old(calls) + [Finished(key)]
    {
      calls := calls + [Finished(key)];
    }

    /** Forget: drop the key's failure history. */
    method Forget(key: string)
      modifies this`calls
      ensures calls == old(calls) + [Forgot(key)]
    {
      calls := calls + [Forgot(key)];
    }

    /** AddRateLimited: the key comes back after a back-off delay. */
    method AddRateLimited(key: string)
      modifies this`calls
      ensures calls == old(calls) + [RateLimited(key)]
    {
      calls := calls + [RateLimited(key)];
    }

    method ShutDown()
      modifies this`shuttingDown
      ensures shuttingDown
    {
      shuttingDown := true;
    }
  }
}

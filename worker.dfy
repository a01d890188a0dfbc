/** What a worker leaves behind when it drains a sequence of keys: the calls
    on the queue and the handler's collaborator calls, key after key. */
module Worker {
  import opened Wrappers
  import opened WorkQueue
  import opened SyncHandler
  import SyncHandlerProperties

  /** The calls made on the queue and on the handler's collaborators. */
  datatype Trace = Trace(calls: seq<QueueCall>, effects: seq<Effect>)

  /** processNextWorkItem's calls on the queue for one key: Get, then Forget
      on success or AddRateLimited on error, then the deferred Done. */
  function StepCalls(key: string, err: Option<SyncError>): seq<QueueCall>
  {
    [Got(key), if err.None? then Forgot(key) else RateLimited(key), Finished(key)]
  }

  /** The trace after one more key is handled with outcome o. */
  function Extend(t: Trace, key: string, o: Outcome): Trace
  {
    Trace(t.calls + StepCalls(key, o.err), t.effects + o.effects)
  }

  /** The trace after a worker running handler takes keys in order,
      starting from start. */
  function Drain(start: Trace, handler: string -> Outcome, keys: seq<string>): Trace
  {
    if keys == [] then start
    else
      var n := |keys| - 1;
      Extend(Drain(start, handler, keys[..n]), keys[n], handler(keys[n]))
  }

  /** Draining one more key extends the trace by that key. */
  lemma DrainStep(start: Trace, handler: string -> Outcome, done: seq<string>, key: string)
    ensures Drain(start, handler, done + [key]) == Extend(Drain(start, handler, done), key, handler(key))
  {
    assert (done + [key])[..|done|] == done;
  }

  /** Every key drained is taken once, released by Done exactly once, and
      either forgotten (its sync succeeded) or re-added with rate limiting
      (its sync failed), never both; keys are handled in queue order. */
  lemma {:induction false} DrainCallsAt(handler: string -> Outcome, keys: seq<string>, i: nat)
    requires i < |keys|
    ensures |Drain(Trace([], []), handler, keys).calls| == 3 * |keys|
    ensures Drain(Trace([], []), handler, keys).calls[3 * i..3 * i + 3] == StepCalls(keys[i], handler(keys[i]).err)
  {
    var n := |keys| - 1;
    var before := Drain(Trace([], []), handler, keys[..n]).calls;
    var after := Drain(Trace([], []), handler, keys).calls;
    var step := StepCalls(keys[n], handler(keys[n]).err);
    assert after == before + step;
    assert |before| == 3 * n by {
      if n > 0 {
        DrainCallsAt(handler, keys[..n], 0);
      }
    }
    if i < n {
      DrainCallsAt(handler, keys[..n], i);
      assert keys[..n][i] == keys[i];
      assert after[3 * i..3 * i + 3] == before[3 * i..3 * i + 3];
    } else {
      assert after[3 * i..3 * i + 3] == step;
    }
  }

  /** Each key processRestore handles adds at most two collaborator calls. */
  lemma {:induction false} DrainEffectsBounded(hooks: Hooks, store: Store, keys: seq<string>)
    ensures |Drain(Trace([], []), key => Reconcile(hooks, store, key), keys).effects| <= 2 * |keys|
  {
    if keys != [] {
      var n := |keys| - 1;
      DrainEffectsBounded(hooks, store, keys[..n]);
      SyncHandlerProperties.ReconcileOutcomeShape(hooks, store, keys[n]);
    }
  }
}

/**
 The offline queue's own code: localStorage, the keys in flight, and the chain of flushes, each
 changed in place.  `doFlush` is cut at its awaits into methods; `model` adds the server and the
 history, and every method makes exactly the model's step.
 */
module OrderQueue {
  import opened Sums
  import opened OfflineQueue
  import opened OfflineDelivery

  class Queue {
    /** The orders under the queue's storage key. */
    var store: seq<Order>
    var inFlightKeys: set<string>
    var current: Option<nat>
    /** Every flush of this page, each with where it stands. */
    var runs: seq<FlushRun>

    ghost var model: State

    ghost predicate Valid()
      reads this
    {
      Inv(model) && store == model.store && inFlightKeys == model.inFlight && current == model.current && runs == model.runs
    }

    constructor ()
      ensures Valid() && model == Empty
    {
      store, inFlightKeys, current, runs := [], {}, None, [];
      model := Empty;
      new;
      EmptyOk();
    }

    /** Reads the queue back, oldest first, without what does not read as an order. */
    method LoadQueue() returns (queue: seq<Order>)
      ensures queue == Load(store, inFlightKeys) && OldestFirst(queue)
      ensures forall o :: o in queue ==> IsQueuedOrder(o)
    {
      LoadKeeps(store, inFlightKeys);
      queue := Sort(ReviveAll(Kept(store), inFlightKeys));
    }

    method UpdateOrder(key: string, p: Patch)
      modifies this`store
      ensures store == PatchKey(Load(old(store), inFlightKeys), key, p)
    {
      var queue := LoadQueue();
      store := PatchKey(queue, key, p);
    }

    method RemoveOrder(key: string)
      modifies this`store
      ensures store == Filter(Load(old(store), inFlightKeys), OtherKey(key))
    {
      var queue := LoadQueue();
      store := Filter(queue, OtherKey(key));
    }

    /** Adds an order, or answers with the one already queued under its key.  The order answered can be read back
        exactly when it is a readable one. */
    method EnqueueOrder(key: string, payload: Payload, amountNaira: Number, now: Number) returns (order: Order)
      requires Valid()
      modifies this
      ensures Valid() && model == Act(old(model), Enqueue(key, payload, amountNaira, now)) && order.key == key
      ensures order in Load(store, inFlightKeys) <==> IsQueuedOrder(order)
    {
      hide Inv;
      if !InQueue(model, key) {
        EnqueuedIsReadIff(model, key, payload, amountNaira, now);
      }
      ActKeepsInv(model, Enqueue(key, payload, amountNaira, now));
      model := DoEnqueue(model, key, payload, amountNaira, now);
      order := NewOrder(key, payload, amountNaira, now);
      var queue := LoadQueue();
      for i := 0 to |queue|
        invariant forall j :: 0 <= j < i ==> queue[j].key != key
      {
        if queue[i].key == key {
          return queue[i];
        }
      }
      store := queue + [order];
    }

    method DiscardOrder(key: string)
      requires Valid()
      modifies this
      ensures Valid() && model == Act(old(model), Discard(key))
    {
      hide Inv, Filter;
      ActKeepsInv(model, Discard(key));
      model := Act(model, Discard(key));
      RemoveOrder(key);
    }

    /** A call without a key, or with an empty one, joins the flush already chained last; any other is chained behind it. */
    method FlushQueue(onlyKey: Option<string>) returns (run: nat)
      requires Valid()
      modifies this
      ensures Valid() && model == Act(old(model), Flush(onlyKey)) && current == Some(run)
    {
      hide Inv;
      ActKeepsInv(model, Flush(onlyKey));
      model := DoFlush(model, onlyKey);
      if current.Some? && !Given(onlyKey) {
        return current.value;
      }
      runs := runs + [FlushRun(onlyKey, current, NotStarted, FlushResult([], [], false))];
      run := |runs| - 1;
      current := Some(run);
    }

    /** doFlush up to its first order: take the snapshot. */
    method StartFlush(run: nat)
      requires Valid() && Enabled(model, Start(run))
      modifies this
      ensures Valid() && model == Act(old(model), Start(run))
    {
      hide Inv, Filter, Load;
      ActKeepsInv(model, Start(run));
      model := Act(model, Start(run));
      var queue := LoadQueue();
      var candidates := Filter(queue, Wanted(runs[run].onlyKey));
      runs := runs[run := runs[run].(progress := Active(candidates, 0, false))];
    }

    /** The head of the loop: stop without a session, else mark the order and send its request.  An empty token
        is no session. */
    method NextOrder(run: nat, token: Option<string>) returns (request: Option<Request>)
      requires Valid() && Enabled(model, Take(run, Given(token)))
      modifies this
      ensures Valid() && model == Act(old(model), Take(run, Given(token)))
      ensures request.Some? ==> request.value in model.sent
    {
      hide Inv, Load;
      ActKeepsInv(model, Take(run, Given(token)));
      model := DoTake(model, run, Given(token));
      var progress := runs[run].progress;
      if progress.next >= |progress.candidates| {
        runs := runs[run := runs[run].(progress := Over)];
        return None;
      }
      if !Given(token) {
        runs := runs[run := runs[run].(progress := Over, result := runs[run].result.(authRequired := true))];
        return None;
      }
      var order := progress.candidates[progress.next];
      inFlightKeys := inFlightKeys + {order.key};
      UpdateOrder(order.key, MarkSyncing);
      runs := runs[run := runs[run].(progress := progress.(awaiting := true))];
      request := Some(Request(order.key, order.payload));
    }

    /** What follows the answer, whatever it is; the key leaves `inFlightKeys` last. */
    method OnAnswer(run: nat, reply: ServerReply)
      requires Valid() && Enabled(model, Answer(run, reply))
      modifies this
      ensures Valid() && model == Act(old(model), Answer(run, reply))
    {
      hide Inv, Load, Filter;
      ActKeepsInv(model, Answer(run, reply));
      model := DoAnswer(model, run, reply);
      var r := runs[run];
      var order := r.progress.candidates[r.progress.next];
      var next := r.progress.(next := r.progress.next + 1, awaiting := false);
      var result := r.result;
      var threw := false;
      match reply {
        case Created(nullBody) =>
          RemoveOrder(order.key);
          result := result.(sentKeys := result.sentKeys + [order.key]);
          threw := nullBody;
        case Unauthorized =>
          UpdateOrder(order.key, MarkPending);
          result := result.(authRequired := true);
          next := Over;
        case Refused(status, nullBody) =>
          threw := nullBody;
          if !threw {
            var retryable := status >= 500 || status == 429 || status == 408;
            UpdateOrder(order.key, MarkFailed(order.attempts + 1, retryable));
            result := result.(failedKeys := result.failedKeys + [order.key]);
          }
        case NetworkError =>
          threw := true;
      }
      if threw {
        UpdateOrder(order.key, MarkFailed(order.attempts + 1, true));
        result := result.(failedKeys := result.failedKeys + [order.key]);
      }
      runs := runs[run := r.(progress := next, result := result)];
      inFlightKeys := inFlightKeys - {order.key};
    }

    /** The flush's promise settles; nothing later is chained behind it, there is no current flush any more. */
    method FinishFlush(run: nat)
      requires Valid() && Enabled(model, Finally(run))
      modifies this
      ensures Valid() && model == Act(old(model), Finally(run))
    {
      hide Inv;
      ActKeepsInv(model, Finally(run));
      model := Act(model, Finally(run));
      runs := runs[run := runs[run].(progress := Settled)];
      if current == Some(run) {
        current := None;
      }
    }
  }
}

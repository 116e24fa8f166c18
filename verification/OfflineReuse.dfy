/** When a key may be used again: exactly when no other order's request under it can still be answered. */
module OfflineReuse {
  import opened Sums
  import opened OfflineQueue
  import opened OfflineDelivery

  function RequestOf(o: Order): Request {
    Request(o.key, o.payload)
  }

  /** Every order of q's key among these is q. */
  ghost predicate AllAre(orders: seq<Order>, q: Request) {
    forall o :: o in orders && o.key == q.key ==> RequestOf(o) == q
  }

  /** What a flush has still to send under q's key, and what it waits for, is q. */
  ghost predicate RestAre(p: Progress, q: Request) {
    p.Active? ==> forall j :: 0 <= j < |p.candidates| && p.next <= j && p.candidates[j].key == q.key ==> RequestOf(p.candidates[j]) == q
  }

  /** No other request of q's key has been sent (or, therefore, listed), or waits in a running flush's remaining snapshot. */
  ghost predicate OnlyRequest(s: State, q: Request) {
    && (forall x :: x in s.sent && x.key == q.key ==> x == q)
    && (forall i :: 0 <= i < |s.runs| ==> RestAre(s.runs[i].progress, q))
  }

  ghost predicate NeverEnqueues(r: Run, key: string) {
    forall k :: 0 <= k < |r.actions| ==> !(r.actions[k].Enqueue? && r.actions[k].key == key)
  }

  /** One step takes q out of the queue although it was neither discarded nor listed. */
  ghost predicate LosesAt(r: Run, q: Request, k: nat)
    requires k < |r.actions| && |r.states| == |r.actions| + 1
  {
    QueuesRequest(r.states[k], q) && !QueuesRequest(r.states[k + 1], q) &&
    r.actions[k] != Discard(q.key) && q !in r.states[k].listings
  }

  ghost predicate NeverLoses(r: Run, q: Request)
    requires |r.states| == |r.actions| + 1
  {
    forall k :: 0 <= k < |r.actions| ==> !LosesAt(r, q, k)
  }

  // ----- the orders of one key -----

  lemma FoundIn(s: State, q: Request)
    ensures AllAre(Kept(s.store), q) ==> AllAre(Load(s.store, s.inFlight), q) && (QueuesRequest(s, q) <==> InQueue(s, q.key))
  {
    LoadKeeps(s.store, s.inFlight);
    hide Load, Kept;
    var queue, kept := Load(s.store, s.inFlight), Kept(s.store);
    if AllAre(kept, q) {
      forall o | o in queue && o.key == q.key ensures RequestOf(o) == q {
        var i :| 0 <= i < |kept| && o == Revived(kept[i], s.inFlight);
        assert kept[i] in kept;
      }
      if QueuesRequest(s, q) {
        var o :| o in queue && RequestOf(o) == q;
        var i :| 0 <= i < |queue| && queue[i] == o;
      }
      if InQueue(s, q.key) {
        var i :| 0 <= i < |queue| && queue[i].key == q.key;
        assert queue[i] in queue;
      }
    }
  }

  /** A queue with q in it has no other order of its key. */
  lemma QueuedAlone(s: State, q: Request)
    requires UniqueKeys(Kept(s.store)) && QueuesRequest(s, q)
    ensures AllAre(Kept(s.store), q) && InQueue(s, q.key) && q.key != ""
  {
    LoadKeeps(s.store, s.inFlight);
    hide Load, Kept;
    var queue, kept := Load(s.store, s.inFlight), Kept(s.store);
    var o :| o in queue && RequestOf(o) == q;
    var i :| 0 <= i < |kept| && o == Revived(kept[i], s.inFlight);
    var j :| 0 <= j < |queue| && queue[j] == o;
    forall other | other in kept && other.key == q.key ensures RequestOf(other) == q {
      var k :| 0 <= k < |kept| && kept[k] == other;
    }
  }

  lemma UpdatedAre(s: State, inFlight: set<string>, key: string, p: Patch, q: Request)
    requires AllAre(Kept(s.store), q)
    ensures AllAre(Kept(Updated(s, inFlight, key, p)), q)
  {
    var queue, u := Load(s.store, inFlight), Updated(s, inFlight, key, p);
    FoundIn(s.(inFlight := inFlight), q);
    KeptAreReadable(u);
    hide Load, Kept;
    forall o | o in u && o.key == q.key ensures RequestOf(o) == q {
      var i :| 0 <= i < |u| && u[i] == o;
      assert queue[i] in queue;
    }
  }

  lemma RemovedAre(s: State, key: string, q: Request)
    requires AllAre(Kept(s.store), q)
    ensures AllAre(Kept(Removed(s, key)), q)
  {
    FoundIn(s, q);
    FilterMembers(Load(s.store, s.inFlight), OtherKey(key));
    KeptAreReadable(Removed(s, key));
    hide Load, Kept, Filter;
  }

  lemma StartAre(s: State, run: nat, q: Request)
    requires AllAre(Kept(s.store), q) && Enabled(s, Start(run))
    ensures RestAre(Act(s, Start(run)).runs[run].progress, q)
  {
    FoundIn(s, q);
    FilterMembers(Load(s.store, s.inFlight), Wanted(s.runs[run].onlyKey));
    hide Load, Kept, Filter;
    var c := Act(s, Start(run)).runs[run].progress.candidates;
    assert forall j :: 0 <= j < |c| ==> c[j] in c;
  }

  lemma EnqueueAre(s: State, a: Action, q: Request)
    requires a.Enqueue? && a.key != q.key && AllAre(Kept(s.store), q)
    ensures AllAre(Kept(Act(s, a).store), q)
  {
    var o := NewOrder(a.key, a.payload, a.amountNaira, a.now);
    FoundIn(s, q);
    KeptAreReadable(Act(s, a).store);
    hide Load, Kept;
  }

  /** What is stored under the key stays q while nothing else is queued under it. */
  lemma StoreStays(s: State, a: Action, q: Request)
    requires Enabled(s, a) && AllAre(Kept(s.store), q) && !(a.Enqueue? && a.key == q.key)
    ensures AllAre(Kept(Act(s, a).store), q)
  {
    hide Load, Kept, Updated, Removed, AllAre;
    match a
    case Enqueue(_, _, _, _) => EnqueueAre(s, a, q);
    case Discard(key) => RemovedAre(s, key, q);
    case Take(run, _) =>
      var p := s.runs[run].progress;
      if p.next < |p.candidates| {
        UpdatedAre(s, s.inFlight + {p.candidates[p.next].key}, p.candidates[p.next].key, MarkSyncing, q);
      }
    case Answer(run, reply) => AnswerAre(s, run, reply, q);
    case _ =>
  }

  lemma AnswerAre(s: State, run: nat, reply: ServerReply, q: Request)
    requires Enabled(s, Answer(run, reply)) && AllAre(Kept(s.store), q)
    ensures AllAre(Kept(DoAnswer(s, run, reply).store), q)
  {
    hide Load, Kept, Updated, Removed, AllAre;
    var order := Sending(s, run);
    match reply
    case Created(_) =>
      RemovedAre(s, order.key, q);
      UpdatedAre(s.(store := Removed(s, order.key)), s.inFlight, order.key, MarkFailed(order.attempts + 1, true), q);
    case Unauthorized => UpdatedAre(s, s.inFlight, order.key, MarkPending, q);
    case Refused(status, nullBody) =>
      UpdatedAre(s, s.inFlight, order.key, MarkFailed(order.attempts + 1, nullBody || Temporary(status)), q);
    case NetworkError => UpdatedAre(s, s.inFlight, order.key, MarkFailed(order.attempts + 1, true), q);
  }

  /** Nor does another request of the key come up. */
  lemma OnlyRequestStays(s: State, a: Action, q: Request)
    requires Enabled(s, a) && AllAre(Kept(s.store), q) && OnlyRequest(s, q)
    ensures OnlyRequest(Act(s, a), q)
  {
    hide Load, Kept, Updated, Removed;
    match a
    case Start(run) => StartAre(s, run, q);
    case Take(run, _) => assert RestAre(s.runs[run].progress, q);
    case Answer(run, _) => assert RestAre(s.runs[run].progress, q);
    case _ =>
  }

  // ----- the condition is enough -----

  /** In a state where it holds, the key can only leave with q. */
  lemma LeavesWithOwn(s: State, a: Action, q: Request)
    requires Inv(s) && Enabled(s, a) && AllAre(Kept(s.store), q) && !(a.Enqueue? && a.key == q.key)
    requires OnlyRequest(s, q) && QueuesRequest(s, q) && !QueuesRequest(Act(s, a), q) && a != Discard(q.key)
    ensures q in s.listings
  {
    hide Load, Kept, Act;
    FoundIn(s, q);
    StoreStays(s, a, q);
    FoundIn(Act(s, a), q);
    LeavesOnlyWhenDone(s, a, q.key);
    var i :| 0 <= i < |s.listings| && s.listings[i].key == q.key;
    assert s.listings[i] in s.sent;
  }

  lemma {:induction false} CleanRun(r: Run, s: State, q: Request, k: nat)
    requires RunFrom(r, s) && NeverEnqueues(r, q.key) && k < |r.states|
    requires Inv(s) && AllAre(Kept(s.store), q) && OnlyRequest(s, q)
    ensures Inv(r.states[k]) && AllAre(Kept(r.states[k].store), q) && OnlyRequest(r.states[k], q)
  {
    hide Inv, Act, Enabled, AllAre, OnlyRequest, Kept;
    if k > 0 {
      CleanRun(r, s, q, k - 1);
      assert StepsTo(r, k - 1);
      ActKeepsInv(r.states[k - 1], r.actions[k - 1]);
      StoreStays(r.states[k - 1], r.actions[k - 1], q);
      OnlyRequestStays(r.states[k - 1], r.actions[k - 1], q);
    }
  }

  lemma {:induction false} StaysListed(r: Run, s: State, q: Request, k: nat)
    requires RunFrom(r, s) && q in s.listings && k < |r.states|
    ensures q in r.states[k].listings
  {
    if k > 0 {
      StaysListed(r, s, q, k - 1);
      assert StepsTo(r, k - 1);
      ListedStep(r.states[k - 1], r.actions[k - 1], q);
    }
  }

  lemma ListedStep(s: State, a: Action, q: Request)
    requires Enabled(s, a) && q in s.listings
    ensures q in Act(s, a).listings
  {
    hide Load, Updated, Removed;
  }

  // ----- and needed -----

  /** A run that begins with one more action. */
  lemma Prepend(s: State, a: Action, r: Run, q: Request) returns (r': Run)
    requires Enabled(s, a) && RunFrom(r, Act(s, a)) && !(a.Enqueue? && a.key == q.key)
    requires NeverEnqueues(r, q.key) && !NeverLoses(r, q)
    ensures RunFrom(r', s) && NeverEnqueues(r', q.key) && !NeverLoses(r', q)
  {
    hide Enabled, Act, QueuesRequest;
    r' := Run([a] + r.actions, [s] + r.states);
    forall k | 0 <= k < |r'.actions| ensures StepsTo(r', k) {
      assert k > 0 ==> StepsTo(r, k - 1);
    }
    var k :| 0 <= k < |r.actions| && LosesAt(r, q, k);
    assert LosesAt(r', q, k + 1);
  }

  /** q is in the queue, alone under its key, and has no listing. */
  ghost predicate Queued(s: State, q: Request) {
    Inv(s) && AllAre(Kept(s.store), q) && InQueue(s, q.key) && q.key != "" && q !in s.listings
  }

  lemma StaysQueued(s: State, a: Action, q: Request)
    requires Queued(s, q) && Enabled(s, a) && !(a.Enqueue? && a.key == q.key) && a != Discard(q.key)
    requires !(a.Answer? && a.reply.Created?) && !(a.ServerLists? && a.request == q)
    ensures Queued(Act(s, a), q)
  {
    hide Inv, AllAre, InQueue, Kept;
    ActKeepsInv(s, a);
    StoreStays(s, a, q);
    LeavesOnlyWhenDone(s, a, q.key);
    NotListed(s, a, q);
  }

  lemma NotListed(s: State, a: Action, q: Request)
    requires Enabled(s, a) && q !in s.listings && !(a.ServerLists? && a.request == q)
    ensures q !in Act(s, a).listings
  {
    hide Load, Updated, Removed;
  }

  /** The last step: the request of q is answered because the key has a listing, which is not q's. */
  lemma LosesOnAnswer(s: State, q: Request) returns (r: Run)
    requires Queued(s, q) && Waiting(s, 0) && Sending(s, 0).key == q.key && Listed(s, q.key)
    ensures RunFrom(r, s) && NeverEnqueues(r, q.key) && !NeverLoses(r, q)
  {
    hide Inv, AllAre, InQueue, Kept, QueuesRequest, Load, Act;
    var a := Answer(0, Created(false));
    FoundIn(s, q);
    StoreStays(s, a, q);
    LeavesOnlyWhenDone(s, a, q.key);
    FoundIn(Act(s, a), q);
    r := Run([a], [s, Act(s, a)]);
    assert LosesAt(r, q, 0);
  }

  lemma LosesOnTake(s: State, q: Request) returns (r: Run)
    requires Queued(s, q) && Listed(s, q.key) && |s.runs| == 1 && s.runs[0].progress.Active?
    requires var p := s.runs[0].progress; !p.awaiting && p.next < |p.candidates| && p.candidates[p.next].key == q.key
    ensures RunFrom(r, s) && NeverEnqueues(r, q.key) && !NeverLoses(r, q)
  {
    hide Inv, AllAre, InQueue, Kept, Load, Updated, RunFrom, NeverEnqueues, NeverLoses;
    var a := Take(0, true);
    StaysQueued(s, a, q);
    var i :| 0 <= i < |s.listings| && s.listings[i].key == q.key;
    assert Act(s, a).listings[i].key == q.key;
    r := LosesOnAnswer(Act(s, a), q);
    r := Prepend(s, a, r, q);
  }

  lemma LosesOnStart(s: State, q: Request) returns (r: Run)
    requires Queued(s, q) && Listed(s, q.key)
    requires s.runs == [FlushRun(Some(q.key), None, NotStarted, FlushResult([], [], false))]
    ensures RunFrom(r, s) && NeverEnqueues(r, q.key) && !NeverLoses(r, q)
  {
    StartTakesUp(s, q);
    hide Inv, AllAre, InQueue, Kept, Load, Filter, RunFrom, NeverEnqueues, NeverLoses;
    var a := Start(0);
    StaysQueued(s, a, q);
    var i :| 0 <= i < |s.listings| && s.listings[i].key == q.key;
    assert Act(s, a).listings[i].key == q.key;
    r := LosesOnTake(Act(s, a), q);
    r := Prepend(s, a, r, q);
  }

  /** The flush of a key in the queue begins with an order of that key. */
  lemma StartTakesUp(s: State, q: Request)
    requires InQueue(s, q.key) && q.key != "" && |s.runs| == 1 && s.runs[0].onlyKey == Some(q.key)
    requires Enabled(s, Start(0))
    ensures var s' := Act(s, Start(0));
            |s'.runs| == 1 && s'.runs[0].progress.Active? &&
            var p := s'.runs[0].progress; !p.awaiting && p.next == 0 < |p.candidates| && p.candidates[0].key == q.key
  {
    var queue := Load(s.store, s.inFlight);
    var j :| 0 <= j < |queue| && queue[j].key == q.key;
    FilterMembers(queue, Wanted(Some(q.key)));
    hide Load, Filter;
    var c := Filter(queue, Wanted(Some(q.key)));
    assert queue[j] in queue && queue[j] in c && c[0] in c;
  }

  lemma LosesOnFlush(s: State, q: Request) returns (r: Run)
    requires Queued(s, q) && Listed(s, q.key) && s.runs == [] && s.current.None?
    ensures RunFrom(r, s) && NeverEnqueues(r, q.key) && !NeverLoses(r, q)
  {
    hide Inv, AllAre, InQueue, Kept, RunFrom, NeverEnqueues, NeverLoses;
    var a := Flush(Some(q.key));
    StaysQueued(s, a, q);
    r := LosesOnStart(Act(s, a), q);
    r := Prepend(s, a, r, q);
  }

  lemma LosesOnReload(s: State, q: Request) returns (r: Run)
    requires Queued(s, q) && Listed(s, q.key)
    ensures RunFrom(r, s) && NeverEnqueues(r, q.key) && !NeverLoses(r, q)
  {
    hide Inv, AllAre, InQueue, Kept, RunFrom, NeverEnqueues, NeverLoses;
    StaysQueued(s, Reload, q);
    r := LosesOnFlush(Act(s, Reload), q);
    r := Prepend(s, Reload, r, q);
  }

  /** With q in the queue and another request of its key sent, six actions take q out unlisted: the other is
      listed, the page reloaded, and q flushed, sent and answered. */
  lemma LosesAfterSent(s: State, q: Request, other: Request) returns (r: Run)
    requires Queued(s, q) && other in s.sent && other.key == q.key && other != q
    ensures RunFrom(r, s) && NeverEnqueues(r, q.key) && !NeverLoses(r, q)
  {
    hide Inv, AllAre, InQueue, Kept, RunFrom, NeverEnqueues, NeverLoses;
    var a := ServerLists(other);
    StaysQueued(s, a, q);
    var s' := Act(s, a);
    assert Listed(s', q.key) by {
      if !Listed(s, q.key) {
        assert s'.listings[|s.listings|] == other;
      }
    }
    r := LosesOnReload(s', q);
    r := Prepend(s, a, r, q);
  }

  /** Another order of the key still to be sent by a running flush gets sent if the requests before it fail. */
  lemma {:induction false} LosesAfterSnapshot(s: State, q: Request, run: nat, j: nat) returns (r: Run)
    requires Queued(s, q) && WaitsForSent(s) && run < |s.runs| && s.runs[run].progress.Active?
    requires var p := s.runs[run].progress;
             p.next <= j < |p.candidates| && p.candidates[j].key == q.key && RequestOf(p.candidates[j]) != q
    ensures RunFrom(r, s) && NeverEnqueues(r, q.key) && !NeverLoses(r, q)
    decreases j - s.runs[run].progress.next, !s.runs[run].progress.awaiting
  {
    hide Inv, AllAre, InQueue, Kept, Load, Updated, Removed, RunFrom, NeverEnqueues, NeverLoses;
    var p := s.runs[run].progress;
    if p.awaiting && p.next == j {
      assert Waiting(s, run) && Sending(s, run) == p.candidates[j];
      r := LosesAfterSent(s, q, RequestOf(p.candidates[j]));
    } else {
      var a := if p.awaiting then Answer(run, NetworkError) else Take(run, true);
      StaysQueued(s, a, q);
      WaitsStep(s, a);
      r := LosesAfterSnapshot(Act(s, a), q, run, j);
      r := Prepend(s, a, r, q);
    }
  }

  // ----- the request being waited for has been sent -----

  ghost predicate WaitsForSent(s: State) {
    forall run :: Waiting(s, run) ==> RequestOf(Sending(s, run)) in s.sent
  }

  lemma WaitsStep(s: State, a: Action)
    requires Enabled(s, a) && WaitsForSent(s)
    ensures WaitsForSent(Act(s, a))
  {
    hide Load, Updated, Removed;
    var s' := Act(s, a);
    forall run | Waiting(s', run) ensures RequestOf(Sending(s', run)) in s'.sent {
      if Waiting(s, run) && Sending(s, run) == Sending(s', run) {
        assert RequestOf(Sending(s, run)) in s.sent;
      }
    }
  }

  lemma {:induction false} RunWaits(r: Run, k: nat)
    requires ValidRun(r) && k < |r.states|
    ensures WaitsForSent(r.states[k])
  {
    hide Act, Enabled;
    if k > 0 {
      RunWaits(r, k - 1);
      assert StepsTo(r, k - 1);
      WaitsStep(r.states[k - 1], r.actions[k - 1]);
    }
  }

  // ----- exactly when -----

  /** In every reachable state with q in the queue: in all continuations without another enqueue of its key, q
      leaves the queue only by a discard or with its own listing, if and only if it is listed already or no other
      request of its key has been sent or waits in a running flush's remaining snapshot. */
  lemma ReuseSafeIff(h: Run, n: nat, q: Request)
    requires ValidRun(h) && n < |h.states| && QueuesRequest(h.states[n], q)
    ensures (forall r :: RunFrom(r, h.states[n]) && NeverEnqueues(r, q.key) ==> NeverLoses(r, q))
       <==> q in h.states[n].listings || OnlyRequest(h.states[n], q)
  {
    var s := h.states[n];
    RunKeepsInv(h, n);
    RunWaits(h, n);
    assert Queued(s, q) || q in s.listings by { QueuedAlone(s, q); }
    QueuedAlone(s, q);
    hide Inv, WaitsForSent, InQueue, Kept, AllAre, OnlyRequest;
    if q in s.listings || OnlyRequest(s, q) {
      forall r | RunFrom(r, s) && NeverEnqueues(r, q.key) ensures NeverLoses(r, q) {
        SafeRun(r, s, q);
      }
    } else {
      var r := UnsafeRun(s, q);
    }
  }

  lemma SafeRun(r: Run, s: State, q: Request)
    requires RunFrom(r, s) && NeverEnqueues(r, q.key) && Inv(s) && AllAre(Kept(s.store), q)
    requires q in s.listings || OnlyRequest(s, q)
    ensures NeverLoses(r, q)
  {
    hide Inv, Act, Enabled, AllAre, OnlyRequest, Kept, QueuesRequest;
    forall k | 0 <= k < |r.actions| ensures !LosesAt(r, q, k) {
      assert StepsTo(r, k);
      if q in s.listings {
        StaysListed(r, s, q, k);
      } else if LosesAt(r, q, k) {
        CleanRun(r, s, q, k);
        LeavesWithOwn(r.states[k], r.actions[k], q);
      }
    }
  }

  lemma UnsafeRun(s: State, q: Request) returns (r: Run)
    requires Queued(s, q) && WaitsForSent(s) && !OnlyRequest(s, q)
    ensures RunFrom(r, s) && NeverEnqueues(r, q.key) && !NeverLoses(r, q)
  {
    hide Queued, WaitsForSent, RunFrom, NeverEnqueues, NeverLoses;
    if x :| x in s.sent && x.key == q.key && x != q {
      r := LosesAfterSent(s, q, x);
    } else {
      var i :| 0 <= i < |s.runs| && !RestAre(s.runs[i].progress, q);
      var p := s.runs[i].progress;
      var j :| 0 <= j < |p.candidates| && p.next <= j && p.candidates[j].key == q.key && RequestOf(p.candidates[j]) != q;
      r := LosesAfterSnapshot(s, q, i, j);
    }
  }

  /** In particular it is safe when the key was never queued with anything else. */
  lemma OnePayloadIsSafe(s: State, q: Request)
    requires Inv(s) && OnePayload(s, q)
    ensures OnlyRequest(s, q)
  {
    forall i | 0 <= i < |s.runs| ensures RestAre(s.runs[i].progress, q) {
      var p := s.runs[i].progress;
      if p.Active? {
        assert AllQueued(p.candidates, s.queued);
      }
    }
  }
}

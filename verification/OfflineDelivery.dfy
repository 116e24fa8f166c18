/** Exactly-once delivery of the offline order queue, over every interleaving. */
module OfflineDelivery {
  import opened Sums
  import opened OfflineQueue

  // ----- what each change to the stored queue keeps -----

  lemma LoadedOk(s: State, inFlight: set<string>)
    requires UniqueKeys(Kept(s.store)) && AllQueued(Kept(s.store), s.queued)
    ensures var q := Load(s.store, inFlight);
            && Kept(q) == q && UniqueKeys(q) && AllQueued(q, s.queued)
            && (forall key :: Queues(q, key) <==> Queues(Kept(s.store), key))
            && (forall o :: o in q && o.status.Syncing? ==> o.key in inFlight)
  {
    hide Kept, UniqueKeys;
    var q, kept := Load(s.store, inFlight), Kept(s.store);
    LoadKeeps(s.store, inFlight);
    KeptWhole(q);
    forall o | o in q
      ensures Request(o.key, o.payload) in s.queued && (o.status.Syncing? ==> o.key in inFlight)
    {
      var j :| 0 <= j < |kept| && o == Revived(kept[j], inFlight);
      assert Request(kept[j].key, kept[j].payload) in s.queued;
    }
    assert forall i :: 0 <= i < |q| ==> q[i] in q;
  }

  lemma UpdatedOk(s: State, inFlight: set<string>, key: string, p: Patch)
    requires UniqueKeys(Kept(s.store)) && AllQueued(Kept(s.store), s.queued)
    ensures var u := Updated(s, inFlight, key, p);
            && Kept(u) == u && UniqueKeys(u) && AllQueued(u, s.queued)
            && (forall k :: Queues(u, k) <==> Queues(Kept(s.store), k))
            && (forall o :: o in u && o.status.Syncing? ==> if o.key == key then p.MarkSyncing? else o.key in inFlight)
  {
    LoadedOk(s, inFlight);
    LoadKeeps(s.store, inFlight);
    hide Load, Kept, UniqueKeys, AllQueued, PatchKey, Queues;
    var q := Load(s.store, inFlight);
    PatchedOk(q, key, p, s.queued);
    PatchedSyncing(q, key, p, inFlight);
  }

  lemma PatchedOk(q: seq<Order>, key: string, p: Patch, queued: seq<Request>)
    requires UniqueKeys(q) && AllQueued(q, queued) && forall o :: o in q ==> IsQueuedOrder(o)
    ensures var u := PatchKey(q, key, p);
            Kept(u) == u && UniqueKeys(u) && AllQueued(u, queued) && forall k :: Queues(u, k) <==> Queues(q, k)
  {
    var u := PatchKey(q, key, p);
    hide Kept;
    forall o | o in u ensures IsQueuedOrder(o) {
      var i :| 0 <= i < |u| && u[i] == o;
      assert q[i] in q;
    }
    KeptWhole(u);
    forall i | 0 <= i < |u| ensures Request(u[i].key, u[i].payload) in queued {
      assert Request(q[i].key, q[i].payload) in queued;
    }
    forall k ensures Queues(u, k) <==> Queues(q, k) {
      if Queues(q, k) {
        var i :| 0 <= i < |q| && q[i].key == k;
        assert u[i].key == k;
      }
    }
  }

  lemma PatchedSyncing(q: seq<Order>, key: string, p: Patch, inFlight: set<string>)
    requires forall o :: o in q && o.status.Syncing? ==> o.key in inFlight
    ensures forall o :: o in PatchKey(q, key, p) && o.status.Syncing? ==> if o.key == key then p.MarkSyncing? else o.key in inFlight
  {
    var u := PatchKey(q, key, p);
    forall o | o in u && o.status.Syncing? ensures if o.key == key then p.MarkSyncing? else o.key in inFlight {
      var i :| 0 <= i < |u| && u[i] == o;
      assert q[i] in q;
    }
  }

  lemma RemovedOk(s: State, key: string)
    requires UniqueKeys(Kept(s.store)) && AllQueued(Kept(s.store), s.queued)
    ensures var r := Removed(s, key);
            && Kept(r) == r && UniqueKeys(r) && AllQueued(r, s.queued)
            && (forall k :: Queues(r, k) <==> Queues(Kept(s.store), k) && k != key)
            && (forall o :: o in r && o.status.Syncing? ==> o.key in s.inFlight && o.key != key)
  {
    LoadedOk(s, s.inFlight);
    LoadKeeps(s.store, s.inFlight);
    var q, r := Load(s.store, s.inFlight), Removed(s, key);
    FilterKeeps(q, OtherKey(key));
    hide Load, Filter, Kept;
    KeptWhole(r);
    forall i | 0 <= i < |r| ensures Request(r[i].key, r[i].payload) in s.queued {
      assert r[i] in r && r[i] in q;
      var j :| 0 <= j < |q| && q[j] == r[i];
    }
    OthersRemain(q, r, key);
  }

  lemma OthersRemain(q: seq<Order>, r: seq<Order>, key: string)
    requires forall o :: o in r <==> o in q && o.key != key
    ensures forall k :: Queues(r, k) <==> Queues(q, k) && k != key
  {
    forall k ensures Queues(r, k) <==> Queues(q, k) && k != key {
      if Queues(q, k) && k != key {
        var j :| 0 <= j < |q| && q[j].key == k;
        assert q[j] in q && q[j] in r;
        var i :| 0 <= i < |r| && r[i] == q[j];
      }
      if Queues(r, k) {
        var i :| 0 <= i < |r| && r[i].key == k;
        assert r[i] in r && r[i] in q;
        var j :| 0 <= j < |q| && q[j] == r[i];
      }
    }
  }

  /** The queue, as a reader sees it, has an order of this key. */
  ghost predicate InQueue(s: State, key: string) {
    Queues(Load(s.store, s.inFlight), key)
  }

  lemma InQueueIff(s: State, key: string)
    ensures InQueue(s, key) <==> Queues(Kept(s.store), key)
  {
    LoadKeeps(s.store, s.inFlight);
  }

  // ----- one flush at a time -----

  /** Of two flushes, one has not begun or one has settled. */
  lemma OneActive(s: State, i: nat, j: nat)
    requires ChainOk(s) && i < |s.runs| && j < |s.runs|
    requires s.runs[i].progress.Active? && s.runs[j].progress.Active?
    ensures i == j
  {
  }

  /** So at most one request is being waited for, and its key is the only one in flight. */
  lemma OneInFlight(s: State, run: nat)
    requires ChainOk(s) && FlightOk(s) && Waiting(s, run)
    ensures s.inFlight == {Sending(s, run).key}
  {
    forall key | key in s.inFlight ensures key == Sending(s, run).key {
      var other :| Waiting(s, other) && Sending(s, other).key == key;
      OneActive(s, run, other);
    }
  }

  lemma NoneInFlight(s: State, run: nat)
    requires ChainOk(s) && FlightOk(s) && run < |s.runs| && s.runs[run].progress.Active? && !s.runs[run].progress.awaiting
    ensures s.inFlight == {} && forall other :: !Waiting(s, other)
  {
    forall other ensures !Waiting(s, other) {
      if Waiting(s, other) {
        OneActive(s, run, other);
      }
    }
  }

  /** A begun flush goes on, or ends. */
  lemma RunMovesKeepsChain(s: State, s': State, run: nat)
    requires ChainOk(s) && run < |s.runs| && s'.current == s.current
    requires |s'.runs| == |s.runs| && s'.runs == SetRun(s, run, s'.runs[run].progress, s'.runs[run].result)
    requires !s.runs[run].progress.NotStarted? && !s.runs[run].progress.Settled?
    ensures ChainOk(s')
  {
  }

  // ----- the actions -----

  lemma EnqueueKeeps(s: State, key: string, payload: Payload, amountNaira: Number, now: Number)
    requires Inv(s)
    ensures Inv(DoEnqueue(s, key, payload, amountNaira, now))
  {
    LoadedOk(s, s.inFlight);
    var q, s' := Load(s.store, s.inFlight), DoEnqueue(s, key, payload, amountNaira, now);
    var o := NewOrder(key, payload, amountNaira, now);
    if !Queues(q, key) {
      AddedIsKept(q, o);
      AddedOk(q, o, s.queued);
      assert s' == s.(store := q + [o],
                      queued := if IsQueuedOrder(o) then s.queued + [Request(o.key, o.payload)] else s.queued);
      hide Load, Kept, AllQueued, UniqueKeys, Queues, ChainOk, FlightOk, SourcesOk, NothingLost, SyncingOk, DoEnqueue, NewOrder;
      AllQueuedStill(s, s');
      NothingLostStill(s, s', q, o);
      SyncingStill(s, s', q, o);
      SameRuns(s, s');
      SameChain(s, s');
    }
  }

  lemma NothingLostStill(s: State, s': State, q: seq<Order>, o: Order)
    requires NothingLost(s) && s'.listings == s.listings && s'.discarded == s.discarded
    requires forall k :: Queues(q, k) <==> Queues(Kept(s.store), k)
    requires forall k :: Queues(q + [o], k) <==> Queues(q, k) || k == o.key
    requires Kept(s'.store) == if IsQueuedOrder(o) then q + [o] else q
    requires s'.queued == if IsQueuedOrder(o) then s.queued + [Request(o.key, o.payload)] else s.queued
    ensures NothingLost(s')
  {
    hide Queues, Kept;
    forall r | r in s'.queued ensures Queues(Kept(s'.store), r.key) || r.key in s'.discarded || Listed(s', r.key) {
      if r in s.queued {
        assert Listed(s, r.key) ==> Listed(s', r.key);
      }
    }
  }

  lemma SyncingStill(s: State, s': State, q: seq<Order>, o: Order)
    requires s'.inFlight == s.inFlight && s'.touched == s.touched && !o.status.Syncing?
    requires forall x :: x in q && x.status.Syncing? ==> x.key in s.inFlight
    requires Kept(s'.store) == if IsQueuedOrder(o) then q + [o] else q
    ensures SyncingOk(s')
  {
    hide Kept;
  }

  /** A readable order joins the queue under a key of its own. */
  lemma AddedOk(q: seq<Order>, o: Order, queued: seq<Request>)
    requires UniqueKeys(q) && AllQueued(q, queued) && !Queues(q, o.key)
    ensures UniqueKeys(q + [o]) && AllQueued(q + [o], queued + [Request(o.key, o.payload)])
    ensures forall r :: r in queued ==> r in queued + [Request(o.key, o.payload)]
    ensures forall k :: Queues(q + [o], k) <==> Queues(q, k) || k == o.key
  {
    var q', queued' := q + [o], queued + [Request(o.key, o.payload)];
    assert queued'[|queued|] == Request(o.key, o.payload) && forall r :: r in queued ==> r in queued';
    forall k ensures Queues(q', k) <==> Queues(q, k) || k == o.key {
      if Queues(q, k) {
        var i :| 0 <= i < |q| && q[i].key == k;
        assert q'[i].key == k;
      }
      assert q'[|q|].key == o.key;
    }
  }

  lemma AllQueuedStill(s: State, s': State)
    requires SourcesOk(s) && AllQueued(Kept(s'.store), s'.queued) && (forall r :: r in s.queued ==> r in s'.queued)
    requires s'.runs == s.runs && s'.sent == s.sent && s'.listings == s.listings
    ensures SourcesOk(s')
  {
  }

  /** An order put behind readable ones is seen by the next reader exactly when it is readable itself. */
  lemma AddedIsKept(q: seq<Order>, o: Order)
    requires Kept(q) == q
    ensures Kept(q + [o]) == if IsQueuedOrder(o) then q + [o] else q
  {
    FilterSnoc(q, o, Readable());
  }

  lemma SameRuns(s: State, s': State)
    requires FlightOk(s) && s'.runs == s.runs && s'.inFlight == s.inFlight
    ensures FlightOk(s')
  {
    assert forall run :: Waiting(s', run) <==> Waiting(s, run);
    SameFlight(s, s');
  }

  /** The same requests are being waited for. */
  lemma SameFlight(s: State, s': State)
    requires FlightOk(s) && s'.inFlight == s.inFlight
    requires forall run :: Waiting(s', run) <==> Waiting(s, run)
    requires forall run :: Waiting(s, run) ==> Sending(s', run) == Sending(s, run)
    requires forall i :: 0 <= i < |s'.runs| && s'.runs[i].progress.Active? && s'.runs[i].progress.awaiting ==> Waiting(s', i)
    ensures FlightOk(s')
  {
    forall key | key in s'.inFlight ensures exists run :: Waiting(s', run) && Sending(s', run).key == key {
      var run :| Waiting(s, run) && Sending(s, run).key == key;
      assert Waiting(s', run) && Sending(s', run).key == key;
    }
  }

  lemma SameChain(s: State, s': State)
    requires ChainOk(s) && s'.runs == s.runs && s'.current == s.current
    ensures ChainOk(s')
  {
  }

  lemma DiscardKeeps(s: State, key: string)
    requires Inv(s)
    ensures Inv(Act(s, Discard(key)))
  {
    RemovedOk(s, key);
    var s' := Act(s, Discard(key));
    SameChain(s, s');
    SameRuns(s, s');
  }

  lemma FlushKeeps(s: State, onlyKey: Option<string>)
    requires Inv(s)
    ensures Inv(DoFlush(s, onlyKey))
  {
    hide ChainOk;
    var s' := DoFlush(s, onlyKey);
    if s'.runs != s.runs {
      assert FlightOk(s') by {
        assert forall run :: Waiting(s', run) <==> Waiting(s, run);
        SameFlight(s, s');
      }
      assert ChainOk(s') by { FlushKeepsChain(s, onlyKey); }
    }
  }

  lemma FlushKeepsChain(s: State, onlyKey: Option<string>)
    requires ChainOk(s)
    ensures ChainOk(DoFlush(s, onlyKey))
  {
  }

  lemma StartKeeps(s: State, run: nat)
    requires Inv(s) && Enabled(s, Start(run))
    ensures Inv(Act(s, Start(run)))
  {
    hide Load, Filter;
    var s' := Act(s, Start(run));
    StartKeepsChain(s, run);
    assert FlightOk(s') by { QuietRun(s, s', run); }
    LoadedOk(s, s.inFlight);
    var q, c := Load(s.store, s.inFlight), s'.runs[run].progress.candidates;
    FilterKeeps(q, Wanted(s.runs[run].onlyKey));
    forall i | 0 <= i < |c| ensures Request(c[i].key, c[i].payload) in s.queued {
      assert c[i] in c && c[i] in q;
      var j :| 0 <= j < |q| && q[j] == c[i];
    }
  }

  lemma StartKeepsChain(s: State, run: nat)
    requires ChainOk(s) && Enabled(s, Start(run))
    ensures ChainOk(Act(s, Start(run)))
  {
    assert forall i :: 0 <= i < run ==> s.runs[i].progress.Settled?;
  }

  /** A flush that is not waiting for an answer, before or after, has no bearing on what is in flight. */
  lemma QuietRun(s: State, s': State, run: nat)
    requires FlightOk(s) && run < |s.runs| && s'.inFlight == s.inFlight
    requires |s'.runs| == |s.runs| && s'.runs == SetRun(s, run, s'.runs[run].progress, s'.runs[run].result)
    requires !Waiting(s, run) && (s'.runs[run].progress.Active? ==> !s'.runs[run].progress.awaiting)
    ensures FlightOk(s')
  {
    assert forall other :: Waiting(s', other) <==> Waiting(s, other);
    assert forall i :: 0 <= i < |s'.runs| && i != run ==> s'.runs[i] == s.runs[i];
    SameFlight(s, s');
  }

  lemma TakeKeeps(s: State, run: nat, signedIn: bool)
    requires Inv(s) && Enabled(s, Take(run, signedIn))
    ensures Inv(DoTake(s, run, signedIn))
  {
    var s', p := DoTake(s, run, signedIn), s.runs[run].progress;
    RunMovesKeepsChain(s, s', run);
    NoneInFlight(s, run);
    if p.next < |p.candidates| && signedIn {
      var order := p.candidates[p.next];
      UpdatedOk(s, s.inFlight + {order.key}, order.key, MarkSyncing);
      assert Request(order.key, order.payload) in s.queued;
      assert Waiting(s', run) && Sending(s', run) == order;
      assert forall other :: other != run ==> (Waiting(s', other) <==> Waiting(s, other));
    } else {
      QuietRun(s, s', run);
    }
  }

  lemma AnswerKeeps(s: State, run: nat, reply: ServerReply)
    requires Inv(s) && Enabled(s, Answer(run, reply))
    ensures Inv(DoAnswer(s, run, reply))
  {
    hide ChainOk, FlightOk, SourcesOk, NothingLost, SyncingOk;
    AnswerKeepsFlight(s, run, reply);
    AnswerKeepsStore(s, run, reply);
  }

  lemma AnswerKeepsFlight(s: State, run: nat, reply: ServerReply)
    requires ChainOk(s) && FlightOk(s) && Enabled(s, Answer(run, reply))
    ensures ChainOk(DoAnswer(s, run, reply)) && FlightOk(DoAnswer(s, run, reply))
  {
    hide Load, Removed, Updated;
    var s' := DoAnswer(s, run, reply);
    assert ChainOk(s') by { RunMovesKeepsChain(s, s', run); }
    OneInFlight(s, run);
    forall other: nat ensures !Waiting(s', other) {
      if other < |s.runs| && other != run && s.runs[other].progress.Active? {
        OneActive(s, run, other);
      }
    }
  }

  lemma AnswerKeepsStore(s: State, run: nat, reply: ServerReply)
    requires Inv(s) && Enabled(s, Answer(run, reply))
    ensures var s' := DoAnswer(s, run, reply);
            UniqueKeys(Kept(s'.store)) && SourcesOk(s') && NothingLost(s') && SyncingOk(s')
  {
    hide Load, Removed, Updated, UniqueKeys, Kept;
    OneInFlight(s, run);
    hide ChainOk, FlightOk;
    var order := Sending(s, run);
    match reply {
      case Created(nullBody) =>
        RemovedOk(s, order.key);
        if nullBody {
          UpdatedOk(s.(store := Removed(s, order.key)), s.inFlight, order.key, MarkFailed(order.attempts + 1, true));
        }
      case Unauthorized => UpdatedOk(s, s.inFlight, order.key, MarkPending);
      case Refused(status, nullBody) =>
        UpdatedOk(s, s.inFlight, order.key, MarkFailed(order.attempts + 1, nullBody || Temporary(status)));
      case NetworkError => UpdatedOk(s, s.inFlight, order.key, MarkFailed(order.attempts + 1, true));
    }
  }

  lemma FinallyKeeps(s: State, run: nat)
    requires Inv(s) && Enabled(s, Finally(run))
    ensures Inv(Act(s, Finally(run)))
  {
    var s' := Act(s, Finally(run));
    QuietRun(s, s', run);
    FinallyKeepsChain(s, run);
  }

  lemma FinallyKeepsChain(s: State, run: nat)
    requires ChainOk(s) && Enabled(s, Finally(run))
    ensures ChainOk(Act(s, Finally(run)))
  {
  }

  lemma ServerKeeps(s: State, request: Request)
    requires Inv(s) && Enabled(s, ServerLists(request))
    ensures Inv(Act(s, ServerLists(request)))
  {
    var s' := Act(s, ServerLists(request));
    SameChain(s, s');
    SameRuns(s, s');
    forall key | Listed(s, key) ensures Listed(s', key) {
      var i :| 0 <= i < |s.listings| && s.listings[i].key == key;
      assert s'.listings[i].key == key;
    }
  }

  lemma ReloadKeeps(s: State)
    requires Inv(s)
    ensures Inv(Act(s, Reload))
  {
    var s' := Act(s, Reload);
    assert forall run :: !Waiting(s', run);
  }

  lemma ActKeepsInv(s: State, a: Action)
    requires Inv(s) && Enabled(s, a)
    ensures Inv(Act(s, a))
  {
    hide Inv;
    match a
    case Enqueue(key, payload, amountNaira, now) => EnqueueKeeps(s, key, payload, amountNaira, now);
    case Discard(key) => DiscardKeeps(s, key);
    case Flush(onlyKey) => FlushKeeps(s, onlyKey);
    case Start(run) => StartKeeps(s, run);
    case Take(run, signedIn) => TakeKeeps(s, run, signedIn);
    case Answer(run, reply) => AnswerKeeps(s, run, reply);
    case Finally(run) => FinallyKeeps(s, run);
    case ServerLists(request) => ServerKeeps(s, request);
    case Reload => ReloadKeeps(s);
  }

  // ----- every interleaving -----

  datatype Run = Run(actions: seq<Action>, states: seq<State>)

  ghost predicate StepsTo(r: Run, k: nat)
    requires k < |r.actions| && |r.states| == |r.actions| + 1
  {
    Enabled(r.states[k], r.actions[k]) && r.states[k + 1] == Act(r.states[k], r.actions[k])
  }

  /** A run that goes on from state s. */
  ghost predicate RunFrom(r: Run, s: State) {
    |r.states| == |r.actions| + 1 && r.states[0] == s && forall k :: 0 <= k < |r.actions| ==> StepsTo(r, k)
  }

  ghost predicate ValidRun(r: Run) {
    RunFrom(r, Empty)
  }

  lemma EmptyOk()
    ensures Inv(Empty)
  {
    assert forall run :: !Waiting(Empty, run);
  }

  lemma {:induction false} RunKeepsInv(r: Run, k: nat)
    requires ValidRun(r) && k < |r.states|
    ensures Inv(r.states[k])
  {
    hide Inv, Act, Enabled;
    if k == 0 {
      EmptyOk();
    } else {
      RunKeepsInv(r, k - 1);
      assert StepsTo(r, k - 1);
      ActKeepsInv(r.states[k - 1], r.actions[k - 1]);
    }
  }

  /** Each key has at most one listing, and it is for a payload that was queued under that key. */
  lemma AtMostOneListing(r: Run, k: nat)
    requires ValidRun(r) && k < |r.states|
    ensures var s := r.states[k];
            && (forall i, j :: 0 <= i < |s.listings| && 0 <= j < |s.listings| && i != j ==> s.listings[i].key != s.listings[j].key)
            && (forall i :: 0 <= i < |s.listings| ==> s.listings[i] in s.queued)
  {
    RunKeepsInv(r, k);
    var s := r.states[k];
    assert forall i :: 0 <= i < |s.listings| ==> s.listings[i] in s.sent;
  }

  /** The key of q was never queued with anything else. */
  ghost predicate OnePayload(s: State, q: Request) {
    q in s.queued && forall other :: other in s.queued && other.key == q.key ==> other == q
  }

  /** If a key was only ever queued with one payload, its listing is for that payload. */
  lemma ListingIsAsQueued(r: Run, k: nat, q: Request, i: nat)
    requires ValidRun(r) && k < |r.states| && i < |r.states[k].listings| && r.states[k].listings[i].key == q.key
    requires OnePayload(r.states[k], q)
    ensures r.states[k].listings[i] == q
  {
    AtMostOneListing(r, k);
  }

  /** No key is lost: everything queued can still be read, was discarded, or has a listing.  A key queued with
      one payload only has the order itself still queued or listed. */
  lemma NoOrderLost(r: Run, k: nat, q: Request)
    requires ValidRun(r) && k < |r.states| && q in r.states[k].queued
    ensures var s := r.states[k];
            && (InQueue(s, q.key) || q.key in s.discarded || Listed(s, q.key))
            && (OnePayload(s, q) ==> QueuesRequest(s, q) || q.key in s.discarded || q in s.listings)
  {
    RunKeepsInv(r, k);
    AtMostOneListing(r, k);
    var s := r.states[k];
    InQueueIff(s, q.key);
    if OnePayload(s, q) && InQueue(s, q.key) {
      StoredAsQueued(s, q);
    }
  }

  /** The queue, as a reader sees it, has an order with this key and this payload. */
  ghost predicate QueuesRequest(s: State, q: Request) {
    exists o :: o in Load(s.store, s.inFlight) && Request(o.key, o.payload) == q
  }

  lemma StoredAsQueued(s: State, q: Request)
    requires Inv(s) && OnePayload(s, q) && InQueue(s, q.key)
    ensures QueuesRequest(s, q)
  {
    LoadedOk(s, s.inFlight);
    var queue := Load(s.store, s.inFlight);
    var i :| 0 <= i < |queue| && queue[i].key == q.key;
    assert queue[i] in queue && Request(queue[i].key, queue[i].payload) in s.queued;
  }

  /** An order just added is there at the next read exactly when it has a key and its numbers are finite;
      otherwise the caller is handed an order that nobody will ever see again. */
  lemma EnqueuedIsReadIff(s: State, key: string, payload: Payload, amountNaira: Number, now: Number)
    requires Inv(s) && !InQueue(s, key)
    ensures var s', o := DoEnqueue(s, key, payload, amountNaira, now), NewOrder(key, payload, amountNaira, now);
            && o in s'.store
            && (o in Load(s'.store, s'.inFlight) <==> IsQueuedOrder(o))
            && (InQueue(s', key) <==> IsQueuedOrder(o))
            && (Request(key, payload) in s'.queued <==> IsQueuedOrder(o) || Request(key, payload) in s.queued)
  {
    var s', o := DoEnqueue(s, key, payload, amountNaira, now), NewOrder(key, payload, amountNaira, now);
    var q := Load(s.store, s.inFlight);
    LoadedOk(s, s.inFlight);
    AddedIsKept(q, o);
    LoadKeeps(s'.store, s'.inFlight);
    InQueueIff(s', key);
    hide Load, Kept;
    assert s'.store == q + [o] && s'.store[|q|] == o;
    if IsQueuedOrder(o) {
      assert Kept(s'.store)[|q|] == o && Revived(o, s'.inFlight) == o;
    }
  }

  /** An enqueue that counts: of a readable order, under a key not in the queue already. */
  ghost predicate Adds(s: State, a: Action, q: Request) {
    a.Enqueue? && a.key == q.key && a.payload == q.payload && !InQueue(s, q.key) &&
    IsQueuedOrder(NewOrder(a.key, a.payload, a.amountNaira, a.now))
  }

  /** What has been queued, in every run: exactly what such an enqueue added. */
  lemma {:induction false} QueuedIff(r: Run, k: nat, q: Request)
    requires ValidRun(r) && k < |r.states|
    ensures q in r.states[k].queued <==> exists j :: 0 <= j < k && Adds(r.states[j], r.actions[j], q)
  {
    if k > 0 {
      QueuedIff(r, k - 1, q);
      assert StepsTo(r, k - 1);
      QueuedStep(r.states[k - 1], r.actions[k - 1], q);
    }
  }

  lemma QueuedStep(s: State, a: Action, q: Request)
    requires Enabled(s, a)
    ensures q in Act(s, a).queued <==> (q in s.queued || Adds(s, a, q))
  {
    hide Load, Removed, Updated;
  }

  /** Nothing is ever sent or listed but what was added readable. */
  lemma SentWasReadable(r: Run, k: nat, q: Request)
    requires ValidRun(r) && k < |r.states| && (q in r.states[k].sent || q in r.states[k].listings)
    ensures exists j :: 0 <= j < k && Adds(r.states[j], r.actions[j], q)
  {
    RunKeepsInv(r, k);
    QueuedIff(r, k, q);
    hide Adds;
  }

  /** A key leaves the queue exactly by being discarded, or by a 2xx answer to a request for that key; in particular
      orders queued while a flush runs survive it.  If the key was queued with one payload only, the request
      was for the order that leaves, and the listing is its own. */
  lemma LeavesOnlyWhenDone(s: State, a: Action, key: string)
    requires Inv(s) && Enabled(s, a) && InQueue(s, key)
    ensures !InQueue(Act(s, a), key) <==>
            a == Discard(key) || (a.Answer? && a.reply.Created? && Sending(s, a.run).key == key)
    ensures !InQueue(Act(s, a), key) && a.Answer? ==> Listed(s, key) && forall q: Request :: q.key == key && OnePayload(s, q) ==>
              q == Request(key, Sending(s, a.run).payload) && q in s.listings
  {
    InQueueIff(s, key);
    InQueueIff(Act(s, a), key);
    LeavesKept(s, a, key);
    if a.Answer? && a.reply.Created? && Sending(s, a.run).key == key {
      ListingsQueued(s, key);
      assert Request(key, Sending(s, a.run).payload) in s.queued;
    }
  }

  lemma LeavesKept(s: State, a: Action, key: string)
    requires Inv(s) && Enabled(s, a) && Queues(Kept(s.store), key)
    ensures !Queues(Kept(Act(s, a).store), key) <==>
            a == Discard(key) || (a.Answer? && a.reply.Created? && Sending(s, a.run).key == key)
  {
    hide ChainOk, FlightOk, NothingLost, Load, Kept, Removed, Updated;
    match a
    case Enqueue(k, payload, amountNaira, now) => EnqueueStays(s, k, payload, amountNaira, now, key);
    case Discard(k) => RemovedOk(s, k);
    case Take(run, signedIn) =>
      var p := s.runs[run].progress;
      if p.next < |p.candidates| {
        UpdatedOk(s, s.inFlight + {p.candidates[p.next].key}, p.candidates[p.next].key, MarkSyncing);
      }
    case Answer(run, reply) => AnswerLeaves(s, run, reply, key);
    case _ =>
  }

  lemma ListingsQueued(s: State, key: string)
    requires SourcesOk(s)
    ensures forall q: Request :: q.key == key && OnePayload(s, q) && Listed(s, key) ==> q in s.listings
  {
    forall q: Request | q.key == key && OnePayload(s, q) && Listed(s, key) ensures q in s.listings {
      var i :| 0 <= i < |s.listings| && s.listings[i].key == key;
      assert s.listings[i] in s.sent;
    }
  }

  lemma EnqueueStays(s: State, k: string, payload: Payload, amountNaira: Number, now: Number, key: string)
    requires UniqueKeys(Kept(s.store)) && AllQueued(Kept(s.store), s.queued)
    ensures Queues(Kept(s.store), key) ==> Queues(Kept(DoEnqueue(s, k, payload, amountNaira, now).store), key)
  {
    LoadedOk(s, s.inFlight);
    hide Load, Kept;
    var q := Load(s.store, s.inFlight);
    if !Queues(q, k) {
      AddedIsKept(q, NewOrder(k, payload, amountNaira, now));
      AddedOk(q, NewOrder(k, payload, amountNaira, now), s.queued);
    }
  }

  lemma AnswerLeaves(s: State, run: nat, reply: ServerReply, key: string)
    requires Inv(s) && Enabled(s, Answer(run, reply))
    ensures Queues(Kept(DoAnswer(s, run, reply).store), key) <==>
              Queues(Kept(s.store), key) && !(reply.Created? && Sending(s, run).key == key)
  {
    hide ChainOk, FlightOk, NothingLost, SyncingOk, Load, Kept, Removed, Updated, UniqueKeys;
    var order := Sending(s, run);
    match reply {
      case Created(nullBody) =>
        RemovedOk(s, order.key);
        if nullBody {
          UpdatedOk(s.(store := Removed(s, order.key)), s.inFlight, order.key, MarkFailed(order.attempts + 1, true));
        }
      case Unauthorized => UpdatedOk(s, s.inFlight, order.key, MarkPending);
      case Refused(status, nullBody) =>
        UpdatedOk(s, s.inFlight, order.key, MarkFailed(order.attempts + 1, nullBody || Temporary(status)));
      case NetworkError => UpdatedOk(s, s.inFlight, order.key, MarkFailed(order.attempts + 1, true));
    }
  }

  /** At most one flush is under way at any time. */
  lemma OneFlushAtATime(r: Run, k: nat, i: nat, j: nat)
    requires ValidRun(r) && k < |r.states| && i < |r.states[k].runs| && j < |r.states[k].runs|
    requires r.states[k].runs[i].progress.Active? && r.states[k].runs[j].progress.Active?
    ensures i == j
  {
    RunKeepsInv(r, k);
    OneActive(r.states[k], i, j);
  }

  /** When no request is out, nothing this page has sent is left syncing in the storage; and reading the queue
      never shows an order as syncing unless its request is out. */
  lemma NothingLeftSyncing(r: Run, k: nat)
    requires ValidRun(r) && k < |r.states|
    ensures var s := r.states[k];
            && ((forall run :: !Waiting(s, run)) ==>
                  forall o :: o in s.store && IsQueuedOrder(o) && o.key in s.touched ==> !o.status.Syncing?)
            && forall o :: o in Load(s.store, s.inFlight) && o.status.Syncing? ==>
                 exists run :: Waiting(s, run) && Sending(s, run).key == o.key
  {
    hide SourcesOk, NothingLost, Load;
    RunKeepsInv(r, k);
    KeptAreReadable(r.states[k].store);
    SourcesFor(r.states[k]);
    LoadedOk(r.states[k], r.states[k].inFlight);
  }

  lemma SourcesFor(s: State)
    requires SourcesOk(s)
    ensures AllQueued(Kept(s.store), s.queued)
  {
  }

  /** A flush works through a snapshot taken oldest first, one order a key. */
  lemma FlushesOldestFirst(s: State, run: nat)
    requires Inv(s) && Enabled(s, Start(run))
    ensures var c := Act(s, Start(run)).runs[run].progress.candidates;
            OldestFirst(c) && UniqueKeys(c) &&
            forall o :: o in c <==> o in Load(s.store, s.inFlight) && Wanted(s.runs[run].onlyKey)(o)
  {
    LoadKeeps(s.store, s.inFlight);
    FilterKeeps(Load(s.store, s.inFlight), Wanted(s.runs[run].onlyKey));
  }

  /** Whether an automatic flush begun on the queue as it is now would send the order of this key. */
  predicate SentAutomatically(s: State, key: string) {
    Queues(Filter(Load(s.store, s.inFlight), Wanted(None)), key)
  }

  /** An order marked failed is sent automatically exactly when it was marked worth retrying. */
  lemma FailedIsSentIff(s: State, key: string, retryable: bool)
    requires Queues(Kept(s.store), key)
    requires forall o :: o in Kept(s.store) && o.key == key ==> o.status.Failed? && o.retryable == retryable
    ensures SentAutomatically(s, key) <==> retryable
  {
    LoadKeeps(s.store, s.inFlight);
    hide Load, Kept;
    var q := Load(s.store, s.inFlight);
    forall o | o in q && o.key == key ensures o.status.Failed? && o.retryable == retryable {
      var i :| 0 <= i < |Kept(s.store)| && o == Revived(Kept(s.store)[i], s.inFlight);
      assert Kept(s.store)[i] in Kept(s.store);
    }
    FilterMembers(q, Wanted(None));
    hide Filter;
    WantedIff(q, key, retryable);
  }

  lemma WantedIff(q: seq<Order>, key: string, retryable: bool)
    requires Queues(q, key) && forall o :: o in q && o.key == key ==> o.status.Failed? && o.retryable == retryable
    ensures Queues(Filter(q, Wanted(None)), key) <==> retryable
  {
    FilterMembers(q, Wanted(None));
    hide Filter;
    var f := Filter(q, Wanted(None));
    if Queues(f, key) {
      var i :| 0 <= i < |f| && f[i].key == key;
      assert f[i] in f && f[i] in q;
    }
    if retryable {
      var i :| 0 <= i < |q| && q[i].key == key;
      assert q[i] in q && q[i] in f;
      var j :| 0 <= j < |f| && f[j] == q[i];
    }
  }

  /** Where an order stands after a failed attempt: counted, failed, and sent again by the next automatic
      flush exactly when the server might still take it, or when a refusal came with a null body. */
  lemma RetriedAutomaticallyIff(s: State, run: nat, reply: ServerReply)
    requires Inv(s) && Enabled(s, Answer(run, reply)) && (reply.Refused? || reply.NetworkError?)
    requires InQueue(s, Sending(s, run).key)
    ensures var s', order := DoAnswer(s, run, reply), Sending(s, run);
            && (forall o :: o in Load(s'.store, s'.inFlight) && o.key == order.key ==>
                  o.status.Failed? && o.attempts == order.attempts + 1)
            && (SentAutomatically(s', order.key) <==> reply.NetworkError? || Temporary(reply.status) || reply.nullBody)
  {
    hide ChainOk, FlightOk, NothingLost, SyncingOk, Load, Kept, Updated, Removed, SentAutomatically, UniqueKeys;
    var s', order := DoAnswer(s, run, reply), Sending(s, run);
    var p := MarkFailed(order.attempts + 1, reply.NetworkError? || Temporary(reply.status) || reply.nullBody);
    assert s'.store == Updated(s, s.inFlight, order.key, p);
    InQueueIff(s, order.key);
    UpdatedOk(s, s.inFlight, order.key, p);
    FailedThen(s, s'.store, order, p);
    FailedShown(s', order.key, p);
  }

  lemma FailedShown(s: State, key: string, p: Patch)
    requires Queues(Kept(s.store), key) && p.MarkFailed?
    requires forall o :: o in Kept(s.store) && o.key == key ==>
               o.status.Failed? && o.attempts == p.attempts && o.retryable == p.retryable
    ensures forall o :: o in Load(s.store, s.inFlight) && o.key == key ==> o.status.Failed? && o.attempts == p.attempts
    ensures SentAutomatically(s, key) <==> p.retryable
  {
    LoadKeeps(s.store, s.inFlight);
    hide Load, Kept;
    forall o | o in Load(s.store, s.inFlight) && o.key == key ensures o.status.Failed? && o.attempts == p.attempts {
      var i :| 0 <= i < |Kept(s.store)| && o == Revived(Kept(s.store)[i], s.inFlight);
      assert Kept(s.store)[i] in Kept(s.store);
    }
    FailedIsSentIff(s, key, p.retryable);
  }

  lemma FailedThen(s: State, u: seq<Order>, order: Order, p: Patch)
    requires u == Updated(s, s.inFlight, order.key, p) && p.MarkFailed?
    ensures forall o :: o in u && o.key == order.key ==> o.status.Failed? && o.attempts == p.attempts && o.retryable == p.retryable
  {
    hide Load;
    forall o | o in u && o.key == order.key
      ensures o.status.Failed? && o.attempts == p.attempts && o.retryable == p.retryable
    {
      var i :| 0 <= i < |u| && u[i] == o;
    }
  }

  // ----- what a flush reports -----

  ghost predicate WorkedThrough(p: Progress, key: string)
    requires p.Active?
  {
    exists i :: 0 <= i < |p.candidates| && i < p.next && p.candidates[i].key == key
  }

  /** A flush has reported exactly the orders it is done with, and has not been stopped. */
  ghost predicate ReportOk(r: FlushRun) {
    && (r.progress.NotStarted? ==> r.result == FlushResult([], [], false))
    && (r.progress.Active? ==>
          && UniqueKeys(r.progress.candidates) && r.progress.next <= |r.progress.candidates| && !r.result.authRequired
          && forall key :: key in r.result.sentKeys || key in r.result.failedKeys <==> WorkedThrough(r.progress, key))
  }

  ghost predicate ReportsOk(s: State) {
    forall i :: 0 <= i < |s.runs| ==> ReportOk(s.runs[i])
  }

  /** Some order is reported both as sent and as failed. */
  ghost predicate Contradicts(r: FlushResult) {
    exists key :: key in r.sentKeys && key in r.failedKeys
  }

  lemma ActKeepsReports(s: State, a: Action)
    requires Inv(s) && ReportsOk(s) && Enabled(s, a)
    ensures ReportsOk(Act(s, a))
  {
    hide ChainOk, FlightOk, SourcesOk, NothingLost, SyncingOk, Load, Removed, Updated, UniqueKeys, Filter;
    match a
    case Start(run) => StartReports(s, run);
    case Answer(run, reply) => AnswerReports(s, run, reply);
    case _ =>
  }

  lemma StartReports(s: State, run: nat)
    requires Inv(s) && ReportsOk(s) && Enabled(s, Start(run))
    ensures ReportsOk(Act(s, Start(run)))
  {
    hide ChainOk, FlightOk, SourcesOk, NothingLost, SyncingOk, Load, Filter;
    LoadKeeps(s.store, s.inFlight);
    FilterKeeps(Load(s.store, s.inFlight), Wanted(s.runs[run].onlyKey));
  }

  /** An answer reports its order for the first time: as sent exactly after a 2xx, as failed exactly after a refusal, a
      network error, or a 2xx whose body is null, and not at all when the session has expired, which stops the
      flush.  No other order's report changes, and a flush's two lists come to contradict each other exactly
      after a 2xx with a null body. */
  lemma AnswerReports(s: State, run: nat, reply: ServerReply)
    requires Inv(s) && ReportsOk(s) && Enabled(s, Answer(run, reply))
    ensures ReportsOk(DoAnswer(s, run, reply))
    ensures var key, was, now := Sending(s, run).key, s.runs[run].result, DoAnswer(s, run, reply).runs[run].result;
            && key !in was.sentKeys + was.failedKeys
            && (key in now.sentKeys <==> reply.Created?)
            && (key in now.failedKeys <==> reply.Refused? || reply.NetworkError? || (reply.Created? && reply.nullBody))
            && (forall k :: k != key ==> (k in now.sentKeys <==> k in was.sentKeys) && (k in now.failedKeys <==> k in was.failedKeys))
            && (now.authRequired <==> reply.Unauthorized?)
            && (Contradicts(now) <==> Contradicts(was) || (reply.Created? && reply.nullBody))
    ensures DoAnswer(s, run, reply).runs[run].progress ==
              if reply.Unauthorized? then Over
              else s.runs[run].progress.(next := s.runs[run].progress.next + 1, awaiting := false)
  {
    AnswerResult(s, run, reply);
    hide Inv, DoAnswer, UniqueKeys, WorkedThrough, Contradicts;
    var s' := DoAnswer(s, run, reply);
    ReportStays(s.runs[run], s'.runs[run], reply);
    hide ReportOk;
    assert forall i :: 0 <= i < |s.runs| ==> ReportOk(s.runs[i]);
  }

  /** The report of one flush, from one answer to the next. */
  lemma ReportStays(r: FlushRun, r': FlushRun, reply: ServerReply)
    requires ReportOk(r) && r.progress.Active? && r.progress.next < |r.progress.candidates|
    requires Reports(r.result, r'.result, r.progress.candidates[r.progress.next].key, reply)
    requires r'.progress == if reply.Unauthorized? then Over else r.progress.(next := r.progress.next + 1, awaiting := false)
    ensures ReportOk(r') && !(r.progress.candidates[r.progress.next].key in r.result.sentKeys + r.result.failedKeys)
    ensures Contradicts(r'.result) <==> Contradicts(r.result) || (reply.Created? && reply.nullBody)
  {
    var key := r.progress.candidates[r.progress.next].key;
    NotWorkedYet(r.progress);
    NextWorked(r.progress);
    hide UniqueKeys, WorkedThrough;
    if Contradicts(r.result) {
      var k :| k in r.result.sentKeys && k in r.result.failedKeys;
      assert k in r'.result.sentKeys && k in r'.result.failedKeys;
    }
    if reply.Created? && reply.nullBody {
      assert key in r'.result.sentKeys && key in r'.result.failedKeys;
    }
  }

  /** The lists before and after an answer to the order of this key. */
  ghost predicate Reports(was: FlushResult, now: FlushResult, key: string, reply: ServerReply) {
    && (forall k :: k in now.sentKeys <==> (k in was.sentKeys || (k == key && reply.Created?)))
    && (forall k :: k in now.failedKeys <==> (k in was.failedKeys ||
          (k == key && (reply.Refused? || reply.NetworkError? || (reply.Created? && reply.nullBody)))))
    && now.authRequired == (was.authRequired || reply.Unauthorized?)
  }

  /** What an answer does to the flush that waited for it, and to no other. */
  lemma AnswerResult(s: State, run: nat, reply: ServerReply)
    requires Enabled(s, Answer(run, reply))
    ensures var key, was, s' := Sending(s, run).key, s.runs[run].result, DoAnswer(s, run, reply);
            && |s'.runs| == |s.runs| && (forall i :: 0 <= i < |s.runs| && i != run ==> s'.runs[i] == s.runs[i])
            && Reports(was, s'.runs[run].result, key, reply)
            && s'.runs[run].progress == (if reply.Unauthorized? then Over
                 else s.runs[run].progress.(next := s.runs[run].progress.next + 1, awaiting := false))
  {
    hide Load, Removed, Updated;
  }

  /** The order being sent is not among those worked through, ... */
  lemma NotWorkedYet(p: Progress)
    requires p.Active? && UniqueKeys(p.candidates) && p.next < |p.candidates|
    ensures !WorkedThrough(p, p.candidates[p.next].key)
  {
  }

  /** ... and then the only one more. */
  lemma NextWorked(p: Progress)
    requires p.Active? && p.next < |p.candidates|
    ensures forall key :: WorkedThrough(p.(next := p.next + 1, awaiting := false), key) <==>
              WorkedThrough(p, key) || key == p.candidates[p.next].key
  {
    var p' := p.(next := p.next + 1, awaiting := false);
    forall key ensures WorkedThrough(p', key) <==> WorkedThrough(p, key) || key == p.candidates[p.next].key {
      if WorkedThrough(p, key) {
        var i :| 0 <= i < |p.candidates| && i < p.next && p.candidates[i].key == key;
        assert p'.candidates[i].key == key;
      }
      assert p'.candidates[p.next].key == p.candidates[p.next].key;
    }
  }

  /** A flush that gets to its end has reported every order of its snapshot; one that stops before says so. */
  lemma FlushEnds(s: State, run: nat, signedIn: bool)
    requires Inv(s) && ReportsOk(s) && Enabled(s, Take(run, signedIn))
    ensures var p, r' := s.runs[run].progress, DoTake(s, run, signedIn).runs[run];
            && (r'.progress.Over? <==> p.next == |p.candidates| || !signedIn)
            && (r'.progress.Over? && !r'.result.authRequired ==>
                  forall i :: 0 <= i < |p.candidates| ==>
                    p.candidates[i].key in r'.result.sentKeys || p.candidates[i].key in r'.result.failedKeys)
            && (r'.progress.Over? && r'.result.authRequired ==> !signedIn && p.next < |p.candidates|)
            && r'.result.sentKeys == s.runs[run].result.sentKeys && r'.result.failedKeys == s.runs[run].result.failedKeys
  {
    hide ChainOk, FlightOk, SourcesOk, NothingLost, SyncingOk, Load, Updated, UniqueKeys;
    assert ReportOk(s.runs[run]);
    var p := s.runs[run].progress;
    assert forall i :: 0 <= i < p.next ==> WorkedThrough(p, p.candidates[i].key);
  }

  /** Otherwise it sends the next order of its snapshot, as it was then, and waits for the answer. */
  lemma TakeSendsNext(s: State, run: nat)
    requires Enabled(s, Take(run, true)) && s.runs[run].progress.next < |s.runs[run].progress.candidates|
    ensures var o, s' := s.runs[run].progress.candidates[s.runs[run].progress.next], DoTake(s, run, true);
            && s'.sent == s.sent + {Request(o.key, o.payload)} && Waiting(s', run) && Sending(s', run) == o
            && o.key in s'.inFlight && s'.touched == s.touched + {o.key} && s'.listings == s.listings && s'.queued == s.queued
  {
    hide Load, Updated;
  }

  /** Keys reported as sent have a listing, in every run. */
  ghost predicate SentAreListed(s: State) {
    forall i, key :: 0 <= i < |s.runs| && key in s.runs[i].result.sentKeys ==> Listed(s, key)
  }

  lemma ListedStays(s: State, a: Action, key: string)
    requires Enabled(s, a) && Listed(s, key)
    ensures Listed(Act(s, a), key)
  {
    hide Load, Removed, Updated;
    var i :| 0 <= i < |s.listings| && s.listings[i].key == key;
    assert Act(s, a).listings[i].key == key;
  }

  lemma ActKeepsListed(s: State, a: Action)
    requires Enabled(s, a) && SentAreListed(s)
    ensures SentAreListed(Act(s, a))
  {
    var s' := Act(s, a);
    forall i, key | 0 <= i < |s'.runs| && key in s'.runs[i].result.sentKeys ensures Listed(s', key) {
      SentKeyStep(s, a, i, key);
      hide Act, Enabled;
      ListedStays(s, a, key);
    }
  }

  lemma SentKeyStep(s: State, a: Action, i: nat, key: string)
    requires Enabled(s, a) && i < |Act(s, a).runs| && key in Act(s, a).runs[i].result.sentKeys
    ensures (i < |s.runs| && key in s.runs[i].result.sentKeys) || Listed(s, key)
  {
    hide Load, Removed, Updated, Listed, Filter;
  }

  lemma {:induction false} SentKeysAreListed(r: Run, k: nat)
    requires ValidRun(r) && k < |r.states|
    ensures SentAreListed(r.states[k])
  {
    hide Act, Enabled;
    if k > 0 {
      SentKeysAreListed(r, k - 1);
      assert StepsTo(r, k - 1);
      ActKeepsListed(r.states[k - 1], r.actions[k - 1]);
    }
  }

  lemma {:induction false} RunKeepsReports(r: Run, k: nat)
    requires ValidRun(r) && k < |r.states|
    ensures ReportsOk(r.states[k])
  {
    hide Inv, Act, Enabled, ReportsOk;
    if k == 0 {
      assert ReportsOk(Empty) by { EmptyReports(); }
    } else {
      RunKeepsReports(r, k - 1);
      RunKeepsInv(r, k - 1);
      assert StepsTo(r, k - 1);
      ActKeepsReports(r.states[k - 1], r.actions[k - 1]);
    }
  }

  lemma EmptyReports()
    ensures ReportsOk(Empty)
  {
  }
}

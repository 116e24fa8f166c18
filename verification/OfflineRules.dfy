/** What each step does to the orders a reader of the queue sees. */
module OfflineRules {
  import opened Sums
  import opened OfflineQueue
  import opened OfflineDelivery

  /** The two queues show the same orders of this key. */
  ghost predicate SameFor(store: seq<Order>, inFlight: set<string>, store': seq<Order>, inFlight': set<string>, key: string) {
    forall o: Order :: o.key == key ==> (o in Load(store, inFlight) <==> o in Load(store', inFlight'))
  }

  lemma LoadMembers(store: seq<Order>, inFlight: set<string>, o: Order)
    ensures o in Load(store, inFlight) <==> exists x :: x in store && IsQueuedOrder(x) && o == Revived(x, inFlight)
  {
    LoadKeeps(store, inFlight);
    KeptAreReadable(store);
    hide Load, Kept;
    var kept := Kept(store);
    if x :| x in store && IsQueuedOrder(x) && o == Revived(x, inFlight) {
      var i :| 0 <= i < |kept| && kept[i] == x;
    }
    if i :| 0 <= i < |kept| && o == Revived(kept[i], inFlight) {
      assert kept[i] in kept;
    }
  }

  lemma SameFlightFor(store: seq<Order>, inFlight: set<string>, inFlight': set<string>, key: string)
    requires key in inFlight <==> key in inFlight'
    ensures SameFor(store, inFlight, store, inFlight', key)
  {
    forall o: Order | o.key == key ensures o in Load(store, inFlight) <==> o in Load(store, inFlight') {
      LoadMembers(store, inFlight, o);
      LoadMembers(store, inFlight', o);
      hide Load;
      assert forall x: Order :: x.key == key ==> Revived(x, inFlight) == Revived(x, inFlight');
    }
  }

  /** Saving what was read changes nothing a reader sees. */
  lemma SavedFor(store: seq<Order>, inFlight: set<string>, key: string)
    ensures SameFor(store, inFlight, Load(store, inFlight), inFlight, key)
  {
    var q := Load(store, inFlight);
    forall o: Order | o.key == key ensures o in q <==> o in Load(q, inFlight) {
      LoadMembers(store, inFlight, o);
      LoadMembers(q, inFlight, o);
      LoadKeeps(store, inFlight);
      hide Load;
      assert o in q ==> Revived(o, inFlight) == o;
      if x :| x in q && o == Revived(x, inFlight) {
        LoadMembers(store, inFlight, x);
        assert Revived(x, inFlight) == x;
      }
    }
  }

  /** Nor does a change to orders of another key. */
  lemma ChangedFor(q: seq<Order>, u: seq<Order>, inFlight: set<string>, key: string)
    requires forall o: Order :: o.key == key ==> (o in q <==> o in u)
    ensures SameFor(q, inFlight, u, inFlight, key)
  {
    forall o: Order | o.key == key ensures o in Load(q, inFlight) <==> o in Load(u, inFlight) {
      LoadMembers(q, inFlight, o);
      LoadMembers(u, inFlight, o);
    }
  }

  lemma PatchedFor(q: seq<Order>, other: string, p: Patch, key: string)
    requires other != key
    ensures forall o: Order :: o.key == key ==> (o in q <==> o in PatchKey(q, other, p))
  {
    var u := PatchKey(q, other, p);
    forall o: Order | o.key == key ensures o in q <==> o in u {
      if o in q {
        var i :| 0 <= i < |q| && q[i] == o;
        assert u[i] == o;
      }
      if o in u {
        var i :| 0 <= i < |u| && u[i] == o;
        assert q[i] == o;
      }
    }
  }

  lemma UpdatedFor(s: State, inFlight: set<string>, other: string, p: Patch, inFlight': set<string>, key: string)
    requires other != key && (key in inFlight <==> key in s.inFlight) && (key in inFlight' <==> key in s.inFlight)
    ensures SameFor(s.store, s.inFlight, Updated(s, inFlight, other, p), inFlight', key)
  {
    var q, u := Load(s.store, inFlight), Updated(s, inFlight, other, p);
    SameFlightFor(s.store, s.inFlight, inFlight, key);
    SavedFor(s.store, inFlight, key);
    PatchedFor(q, other, p, key);
    ChangedFor(q, u, inFlight, key);
    SameFlightFor(u, inFlight, inFlight', key);
    hide Load, Updated;
  }

  lemma RemovedFor(s: State, other: string, inFlight': set<string>, key: string)
    requires other != key && (key in inFlight' <==> key in s.inFlight)
    ensures SameFor(s.store, s.inFlight, Removed(s, other), inFlight', key)
  {
    var q, u := Load(s.store, s.inFlight), Removed(s, other);
    SavedFor(s.store, s.inFlight, key);
    FilterMembers(q, OtherKey(other));
    ChangedFor(q, u, s.inFlight, key);
    SameFlightFor(u, s.inFlight, inFlight', key);
    hide Load, Filter;
  }

  // ----- every step -----

  /** The key whose order the action is about, if any. */
  function Touched(s: State, a: Action): Option<string>
    requires Enabled(s, a)
  {
    match a
    case Enqueue(key, _, _, _) => Some(key)
    case Discard(key) => Some(key)
    case Take(run, _) =>
      var p := s.runs[run].progress;
      if p.next < |p.candidates| then Some(p.candidates[p.next].key) else None
    case Answer(run, _) => Some(Sending(s, run).key)
    case _ => None
  }

  /** No step but a reload changes what is shown of orders it is not about. */
  lemma OthersUntouched(s: State, a: Action, key: string)
    requires Enabled(s, a) && !a.Reload? && Touched(s, a) != Some(key)
    ensures SameFor(s.store, s.inFlight, Act(s, a).store, Act(s, a).inFlight, key)
  {
    hide Load, Kept, Removed, Updated, SameFor;
    SameFlightFor(s.store, s.inFlight, s.inFlight, key);
    match a
    case Enqueue(other, payload, amountNaira, now) => EnqueuedFor(s, other, payload, amountNaira, now, key);
    case Discard(other) => RemovedFor(s, other, s.inFlight, key);
    case Take(run, _) =>
      var p := s.runs[run].progress;
      if p.next < |p.candidates| {
        var other := p.candidates[p.next].key;
        UpdatedFor(s, s.inFlight + {other}, other, MarkSyncing, s.inFlight + {other}, key);
      }
    case Answer(run, reply) => AnsweredFor(s, run, reply, key);
    case _ =>
  }

  lemma EnqueuedFor(s: State, other: string, payload: Payload, amountNaira: Number, now: Number, key: string)
    requires other != key
    ensures SameFor(s.store, s.inFlight, DoEnqueue(s, other, payload, amountNaira, now).store, s.inFlight, key)
  {
    var q, o := Load(s.store, s.inFlight), NewOrder(other, payload, amountNaira, now);
    SavedFor(s.store, s.inFlight, key);
    ChangedFor(q, q + [o], s.inFlight, key);
    hide Load;
  }

  lemma AnsweredFor(s: State, run: nat, reply: ServerReply, key: string)
    requires Enabled(s, Answer(run, reply)) && Sending(s, run).key != key
    ensures SameFor(s.store, s.inFlight, DoAnswer(s, run, reply).store, DoAnswer(s, run, reply).inFlight, key)
  {
    hide Load, Kept, Removed, Updated, SameFor;
    var order := Sending(s, run);
    var inFlight' := s.inFlight - {order.key};
    match reply
    case Created(nullBody) =>
      if nullBody {
        RemovedTwiceFor(s, order.key, MarkFailed(order.attempts + 1, true), inFlight', key);
      } else {
        RemovedFor(s, order.key, inFlight', key);
      }
    case Unauthorized => UpdatedFor(s, s.inFlight, order.key, MarkPending, inFlight', key);
    case Refused(status, nullBody) =>
      UpdatedFor(s, s.inFlight, order.key, MarkFailed(order.attempts + 1, nullBody || Temporary(status)), inFlight', key);
    case NetworkError => UpdatedFor(s, s.inFlight, order.key, MarkFailed(order.attempts + 1, true), inFlight', key);
  }

  lemma RemovedTwiceFor(s: State, other: string, p: Patch, inFlight': set<string>, key: string)
    requires other != key && (key in inFlight' <==> key in s.inFlight)
    ensures SameFor(s.store, s.inFlight, Updated(s.(store := Removed(s, other)), s.inFlight, other, p), inFlight', key)
  {
    RemovedFor(s, other, s.inFlight, key);
    UpdatedFor(s.(store := Removed(s, other)), s.inFlight, other, p, inFlight', key);
    hide Load, Kept, Removed, Updated;
  }

  // ----- the order a step is about -----

  /** The same order, but perhaps for how its sending stands. */
  ghost predicate SameContent(o: Order, x: Order) {
    o.key == x.key && o.payload == x.payload && o.amountNaira == x.amountNaira && o.createdAt == x.createdAt
  }

  /** An order shown after a patch of its key is one shown before, patched. */
  lemma UpdatedShows(s: State, inFlight: set<string>, key: string, p: Patch, inFlight': set<string>, o: Order) returns (x: Order)
    requires o in Load(Updated(s, inFlight, key, p), inFlight') && o.key == key
    ensures x in Load(s.store, s.inFlight) && SameContent(o, x) && (!p.MarkFailed? ==> o.attempts == x.attempts && o.retryable == x.retryable)
    ensures match p
            case MarkSyncing => key in inFlight' ==> o.status.Syncing?
            case MarkPending => o.status.Pending?
            case MarkFailed(attempts, retryable) => o.status.Failed? && o.attempts == attempts && o.retryable == retryable
  {
    var y := PatchedFrom(s, inFlight, key, p, inFlight', o);
    x := ShownIn(s, inFlight, y);
    hide Load, Updated;
  }

  lemma PatchedFrom(s: State, inFlight: set<string>, key: string, p: Patch, inFlight': set<string>, o: Order) returns (y: Order)
    requires o in Load(Updated(s, inFlight, key, p), inFlight') && o.key == key
    ensures y in Load(s.store, inFlight) && o == Revived(Patched(y, p), inFlight')
  {
    var q, u := Load(s.store, inFlight), Updated(s, inFlight, key, p);
    LoadMembers(u, inFlight', o);
    hide Load, Patched;
    var z :| z in u && IsQueuedOrder(z) && o == Revived(z, inFlight');
    var i :| 0 <= i < |u| && u[i] == z;
    PatchKeeps(q[i], p);
    y := q[i];
  }

  lemma PatchKeeps(o: Order, p: Patch)
    ensures Patched(o, p).key == o.key
  {
  }

  lemma ShownIn(s: State, inFlight: set<string>, y: Order) returns (x: Order)
    requires y in Load(s.store, inFlight)
    ensures x in Load(s.store, s.inFlight) && SameContent(y, x) && x.attempts == y.attempts && x.retryable == y.retryable
  {
    LoadMembers(s.store, inFlight, y);
    hide Load;
    var z :| z in s.store && IsQueuedOrder(z) && y == Revived(z, inFlight);
    x := Revived(z, s.inFlight);
    LoadMembers(s.store, s.inFlight, x);
  }

  /** A readable order just enqueued is shown as it was given, pending and never tried, and the next automatic flush sends it. */
  lemma EnqueueShows(s: State, key: string, payload: Payload, amountNaira: Number, now: Number)
    requires Inv(s) && !InQueue(s, key) && IsQueuedOrder(NewOrder(key, payload, amountNaira, now))
    ensures var s', o := DoEnqueue(s, key, payload, amountNaira, now), Order(key, payload, amountNaira, now, Pending, 0, true);
            && o in Load(s'.store, s'.inFlight) && (forall x :: x in Load(s'.store, s'.inFlight) && x.key == key ==> x == o)
            && SentAutomatically(s', key)
  {
    var s', o := DoEnqueue(s, key, payload, amountNaira, now), NewOrder(key, payload, amountNaira, now);
    EnqueuedIsReadIff(s, key, payload, amountNaira, now);
    EnqueueKeeps(s, key, payload, amountNaira, now);
    LoadedOk(s', s'.inFlight);
    hide Inv, DoEnqueue;
    OneOfKey(s', o);
    WantedIsSent(s', o);
  }

  lemma OneOfKey(s: State, o: Order)
    requires o in Load(s.store, s.inFlight) && UniqueKeys(Load(s.store, s.inFlight))
    ensures forall x :: x in Load(s.store, s.inFlight) && x.key == o.key ==> x == o
  {
    hide Load;
    var q := Load(s.store, s.inFlight);
    var i :| 0 <= i < |q| && q[i] == o;
    forall x | x in q && x.key == o.key ensures x == o {
      var j :| 0 <= j < |q| && q[j] == x;
    }
  }

  lemma WantedIsSent(s: State, o: Order)
    requires o in Load(s.store, s.inFlight) && (o.status.Pending? || (o.status.Failed? && o.retryable))
    ensures SentAutomatically(s, o.key)
  {
    var f := Filter(Load(s.store, s.inFlight), Wanted(None));
    FilterMembers(Load(s.store, s.inFlight), Wanted(None));
    hide Load, Filter;
    var i :| 0 <= i < |f| && f[i] == o;
  }

  /** While its request is out an order is shown as syncing, otherwise as it was. */
  lemma TakeShows(s: State, run: nat, o: Order) returns (x: Order)
    requires Enabled(s, Take(run, true)) && s.runs[run].progress.next < |s.runs[run].progress.candidates|
    requires o.key == s.runs[run].progress.candidates[s.runs[run].progress.next].key
    requires o in Load(DoTake(s, run, true).store, DoTake(s, run, true).inFlight)
    ensures x in Load(s.store, s.inFlight) && SameContent(o, x) && o.attempts == x.attempts && o.status.Syncing?
  {
    hide Load, Updated;
    x := UpdatedShows(s, s.inFlight + {o.key}, o.key, MarkSyncing, s.inFlight + {o.key}, o);
  }

  /** After a 401 the order waits as before, with no attempt counted, and the next automatic flush sends it. */
  lemma UnauthorizedShows(s: State, run: nat, o: Order) returns (x: Order)
    requires Enabled(s, Answer(run, Unauthorized)) && o.key == Sending(s, run).key
    requires o in Load(DoAnswer(s, run, Unauthorized).store, DoAnswer(s, run, Unauthorized).inFlight)
    ensures x in Load(s.store, s.inFlight) && SameContent(o, x) && o.attempts == x.attempts && o.status.Pending?
    ensures SentAutomatically(DoAnswer(s, run, Unauthorized), o.key)
  {
    hide Load, Updated;
    x := UpdatedShows(s, s.inFlight, o.key, MarkPending, s.inFlight - {o.key}, o);
    WantedIsSent(DoAnswer(s, run, Unauthorized), o);
  }

  /** After a failed attempt the order is otherwise what it was. */
  lemma FailedShows(s: State, run: nat, reply: ServerReply, o: Order) returns (x: Order)
    requires Enabled(s, Answer(run, reply)) && (reply.Refused? || reply.NetworkError?) && o.key == Sending(s, run).key
    requires o in Load(DoAnswer(s, run, reply).store, DoAnswer(s, run, reply).inFlight)
    ensures x in Load(s.store, s.inFlight) && SameContent(o, x)
    ensures o.status.Failed? && o.attempts == Sending(s, run).attempts + 1
    ensures o.retryable <==> reply.NetworkError? || reply.nullBody || reply.status >= 500 || reply.status == 429 || reply.status == 408
  {
    hide Load, Updated;
    x := UpdatedShows(s, s.inFlight, o.key,
           MarkFailed(Sending(s, run).attempts + 1, reply.NetworkError? || reply.nullBody || Temporary(reply.status)), s.inFlight - {o.key}, o);
  }

  /** Without a session a flush with orders left is stopped and says so, and nothing else changes. */
  lemma SignedOutStops(s: State, run: nat)
    requires Inv(s) && ReportsOk(s) && Enabled(s, Take(run, false)) && s.runs[run].progress.next < |s.runs[run].progress.candidates|
    ensures var s' := DoTake(s, run, false);
            && s'.runs[run].progress.Over? && s'.runs[run].result.authRequired
            && s'.store == s.store && s'.inFlight == s.inFlight && s'.sent == s.sent
  {
    hide Inv, ReportsOk;
  }

  /** A flush is joined exactly when one is under way or waiting and no key is given, an empty key being none;
      otherwise a new one is chained behind it. */
  lemma FlushJoinsIff(s: State, onlyKey: Option<string>)
    ensures var s' := DoFlush(s, onlyKey);
            && s'.current.Some?
            && (s' == s <==> s.current.Some? && (onlyKey == None || onlyKey == Some("")))
            && (s' != s ==> |s'.runs| == |s.runs| + 1 && s'.current == Some(|s.runs|) && s'.runs[..|s.runs|] == s.runs &&
                            s'.runs[|s.runs|].prev == s.current && s'.runs[|s.runs|].progress.NotStarted? &&
                            s'.runs[|s.runs|].onlyKey == onlyKey)
  {
    assert DoFlush(s, onlyKey) != s ==> |DoFlush(s, onlyKey).runs| > |s.runs|;
  }

  /** The flush that calls join is one that has not settled. */
  ghost predicate CurrentIsLive(s: State) {
    s.current.Some? ==> s.current.value < |s.runs| && !s.runs[s.current.value].progress.Settled?
  }

  lemma ActKeepsLive(s: State, a: Action)
    requires Enabled(s, a) && CurrentIsLive(s)
    ensures CurrentIsLive(Act(s, a))
  {
    hide Load, Updated, Removed, Filter;
  }

  /** In every run nobody joins a flush that is over and done with: when all flushes have settled, a flush without a
      key starts a new one. */
  lemma {:induction false} RunCurrentIsLive(r: Run, k: nat)
    requires ValidRun(r) && k < |r.states|
    ensures CurrentIsLive(r.states[k])
    ensures (forall i :: 0 <= i < |r.states[k].runs| ==> r.states[k].runs[i].progress.Settled?) ==>
              DoFlush(r.states[k], None).runs == r.states[k].runs + [FlushRun(None, None, NotStarted, FlushResult([], [], false))]
  {
    hide Act, Enabled;
    if k > 0 {
      RunCurrentIsLive(r, k - 1);
      assert StepsTo(r, k - 1);
      ActKeepsLive(r.states[k - 1], r.actions[k - 1]);
    }
  }

  // ----- the history the promises speak of -----

  /** What has been discarded, and what has been sent since the page was opened, is what was. */
  lemma {:induction false} DiscardedIff(r: Run, k: nat, key: string)
    requires ValidRun(r) && k < |r.states|
    ensures key in r.states[k].discarded <==> exists j :: 0 <= j < k && r.actions[j] == Discard(key)
  {
    hide Act, Enabled;
    if k > 0 {
      DiscardedIff(r, k - 1, key);
      assert StepsTo(r, k - 1);
      HistoryStep(r.states[k - 1], r.actions[k - 1]);
    }
  }

  lemma HistoryStep(s: State, a: Action)
    requires Enabled(s, a)
    ensures var s' := Act(s, a);
            && (forall key :: key in s'.discarded <==> (key in s.discarded || a == Discard(key)))
            && (s'.touched == s.touched || a.Reload? || a.Take?) && (a.Reload? ==> s'.touched == {})
            && (s'.sent == s.sent || a.Take?)
  {
    hide Load, Updated, Removed, Filter;
  }

  // ----- reading -----

  /** A reader sees each readable stored order as it is, except that one marked syncing which this page is not sending
      is shown as pending. */
  lemma ShownIff(store: seq<Order>, inFlight: set<string>, o: Order)
    ensures o in Load(store, inFlight) <==>
            exists x :: x in store && x.key != "" && x.payload.amount.Finite? && x.payload.expiresInHours.Finite? &&
              x.amountNaira.Finite? && x.createdAt.Finite? &&
              o == if x.status.Syncing? && x.key !in inFlight then x.(status := Pending) else x
  {
    LoadMembers(store, inFlight, o);
    hide Load;
    if x :| x in store && IsQueuedOrder(x) && o == Revived(x, inFlight) {
      assert x.key != "";
    }
  }

  /** So when the page is opened again, an order left syncing is sent by the next automatic flush. */
  lemma ReloadRevives(s: State, x: Order)
    requires x in s.store && IsQueuedOrder(x) && x.status.Syncing?
    ensures SentAutomatically(Act(s, Reload), x.key)
  {
    var s', o := Act(s, Reload), x.(status := Pending);
    ShownIff(s'.store, s'.inFlight, o);
    WantedIsSent(s', o);
  }
}

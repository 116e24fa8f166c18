/**
 The offline order queue, a server that keeps one listing per idempotency key, and a network that
 may lose, delay or repeat anything in between.  Each step is one stretch of the page's code
 between two awaits, or one act of the server.
 */
module OfflineQueue {
  import opened Sums

  datatype Status = Pending | Syncing | Failed

  /** A JavaScript number.  JSON text holds null for NaN and the infinities. */
  datatype Number = NonFinite | Finite(value: real)

  /** What is sent to the server, and becomes the listing. */
  datatype Payload = Payload(assetType: string, amount: Number, expiresInHours: Number)

  datatype Order = Order(
    key: string, payload: Payload, amountNaira: Number, createdAt: Number, status: Status, attempts: nat, retryable: bool)

  datatype Request = Request(key: string, payload: Payload)

  /** A flush: not yet begun, working through its snapshot (with or without a request out), over, or settled. */
  datatype Progress =
    | NotStarted
    | Active(candidates: seq<Order>, next: nat, awaiting: bool)
    | Over
    | Settled

  datatype FlushResult = FlushResult(sentKeys: seq<string>, failedKeys: seq<string>, authRequired: bool)

  /** `prev` is the flush this one was chained behind. */
  datatype FlushRun = FlushRun(onlyKey: Option<string>, prev: Option<nat>, progress: Progress, result: FlushResult)

  /** `store` is what localStorage holds; `touched` are the keys sent since the page was opened.
      `queued` (the readable orders ever added) and `discarded` are history, `sent` is every request
      ever put on the wire. */
  datatype State = State(
    store: seq<Order>, inFlight: set<string>, runs: seq<FlushRun>, current: Option<nat>, touched: set<string>,
    sent: set<Request>, listings: seq<Request>, queued: seq<Request>, discarded: set<string>)

  const Empty: State := State([], {}, [], None, {}, {}, [], [], {})

  /** `nullBody`: the body of the answer is the JSON value null, which the page's reading of its fields trips over. */
  datatype ServerReply = Created(nullBody: bool) | Unauthorized | Refused(status: nat, nullBody: bool) | NetworkError

  /** Statuses of an answer that say the server might still take the order. */
  predicate Temporary(status: nat) {
    status >= 500 || status == 429 || status == 408
  }

  // ----- storage -----

  /** What a reader of the storage takes for an order, of those this module writes: one with a key, and with
      numbers that come back as numbers. */
  predicate IsQueuedOrder(o: Order) {
    o.key != "" && o.payload.amount.Finite? && o.amountNaira.Finite? && o.payload.expiresInHours.Finite? && o.createdAt.Finite?
  }

  function Readable(): Order -> bool {
    (o: Order) => IsQueuedOrder(o)
  }

  /** The orders in the storage that a reader sees. */
  function Kept(store: seq<Order>): seq<Order> {
    Filter(store, Readable())
  }

  function CreationTime(o: Order): real {
    if o.createdAt.Finite? then o.createdAt.value else 0.0
  }

  /** An order marked syncing that this page is not sending is put back to pending. */
  function Revived(o: Order, inFlight: set<string>): Order {
    if o.status.Syncing? && o.key !in inFlight then o.(status := Pending) else o
  }

  function ReviveAll(store: seq<Order>, inFlight: set<string>): (r: seq<Order>)
    ensures |r| == |store| && forall i :: 0 <= i < |store| ==> r[i] == Revived(store[i], inFlight)
  {
    seq(|store|, i requires 0 <= i < |store| => Revived(store[i], inFlight))
  }

  /** Places x behind everything not created later, as a stable sort does. */
  function Insert(sorted: seq<Order>, x: Order): seq<Order> {
    if |sorted| == 0 || CreationTime(sorted[|sorted| - 1]) <= CreationTime(x) then sorted + [x]
    else Insert(sorted[..|sorted| - 1], x) + [sorted[|sorted| - 1]]
  }

  function Sort(orders: seq<Order>): seq<Order> {
    if |orders| == 0 then [] else Insert(Sort(orders[..|orders| - 1]), orders[|orders| - 1])
  }

  function Load(store: seq<Order>, inFlight: set<string>): seq<Order> {
    Sort(ReviveAll(Kept(store), inFlight))
  }

  function OtherKey(key: string): Order -> bool {
    (o: Order) => o.key != key
  }

  predicate Queues(orders: seq<Order>, key: string) {
    exists i :: 0 <= i < |orders| && orders[i].key == key
  }

  /** The change an answer makes to its order. */
  datatype Patch = MarkSyncing | MarkPending | MarkFailed(attempts: nat, retryable: bool)

  function Patched(o: Order, p: Patch): Order {
    match p
    case MarkSyncing => o.(status := Syncing)
    case MarkPending => o.(status := Pending)
    case MarkFailed(attempts, retryable) => o.(status := Failed, attempts := attempts, retryable := retryable)
  }

  function PatchKey(orders: seq<Order>, key: string, p: Patch): (r: seq<Order>)
    ensures |r| == |orders|
    ensures forall i :: 0 <= i < |orders| ==> r[i] == if orders[i].key == key then Patched(orders[i], p) else orders[i]
  {
    seq(|orders|, i requires 0 <= i < |orders| => if orders[i].key == key then Patched(orders[i], p) else orders[i])
  }

  /** What JavaScript takes for present: an empty string counts as none. */
  predicate Given(text: Option<string>) {
    text.Some? && text.value != ""
  }

  function Wanted(onlyKey: Option<string>): Order -> bool {
    (o: Order) =>
      if Given(onlyKey) then o.key == onlyKey.value
      else o.status.Pending? || (o.status.Failed? && o.retryable)
  }

  // ----- the steps -----

  datatype Action =
    | Enqueue(key: string, payload: Payload, amountNaira: Number, now: Number)
    | Discard(key: string)
    | Flush(onlyKey: Option<string>)
    | Start(run: nat)
    | Take(run: nat, signedIn: bool)
    | Answer(run: nat, reply: ServerReply)
    | Finally(run: nat)
    | ServerLists(request: Request)
    | Reload

  predicate Waiting(s: State, run: nat) {
    run < |s.runs| && s.runs[run].progress.Active? && s.runs[run].progress.next < |s.runs[run].progress.candidates| &&
    s.runs[run].progress.awaiting
  }

  function Sending(s: State, run: nat): Order
    requires Waiting(s, run)
  {
    s.runs[run].progress.candidates[s.runs[run].progress.next]
  }

  predicate Listed(s: State, key: string) {
    exists i :: 0 <= i < |s.listings| && s.listings[i].key == key
  }

  /** A flush begins only when the one it waits for has settled; a 2xx answer means the server has a listing for the
      key; the server may act on any request ever sent, at any time and again. */
  predicate Enabled(s: State, a: Action) {
    match a
    case Start(run) =>
      run < |s.runs| && s.runs[run].progress.NotStarted? &&
      (s.runs[run].prev.Some? ==> s.runs[run].prev.value < |s.runs| && s.runs[s.runs[run].prev.value].progress.Settled?)
    case Take(run, _) => run < |s.runs| && s.runs[run].progress.Active? && !s.runs[run].progress.awaiting
    case Answer(run, reply) => Waiting(s, run) && (reply.Created? ==> Listed(s, Sending(s, run).key))
    case Finally(run) => run < |s.runs| && s.runs[run].progress.Over?
    case ServerLists(request) => request in s.sent
    case _ => true
  }

  function SetRun(s: State, run: nat, progress: Progress, result: FlushResult): seq<FlushRun>
    requires run < |s.runs|
  {
    s.runs[run := s.runs[run].(progress := progress, result := result)]
  }

  function NewOrder(key: string, payload: Payload, amountNaira: Number, now: Number): Order {
    Order(key, payload, amountNaira, now, Pending, 0, true)
  }

  function DoEnqueue(s: State, key: string, payload: Payload, amountNaira: Number, now: Number): State {
    var queue, order := Load(s.store, s.inFlight), NewOrder(key, payload, amountNaira, now);
    // the same key must never be queued twice
    if Queues(queue, key) then s
    else s.(store := queue + [order],
            queued := if IsQueuedOrder(order) then s.queued + [Request(key, payload)] else s.queued)
  }

  function Removed(s: State, key: string): seq<Order> {
    Filter(Load(s.store, s.inFlight), OtherKey(key))
  }

  function Updated(s: State, inFlight: set<string>, key: string, p: Patch): seq<Order> {
    PatchKey(Load(s.store, inFlight), key, p)
  }

  function DoFlush(s: State, onlyKey: Option<string>): State {
    if s.current.Some? && !Given(onlyKey) then s
    else s.(runs := s.runs + [FlushRun(onlyKey, s.current, NotStarted, FlushResult([], [], false))],
            current := Some(|s.runs|))
  }

  function DoTake(s: State, run: nat, signedIn: bool): State
    requires Enabled(s, Take(run, signedIn))
  {
    var r, p := s.runs[run], s.runs[run].progress;
    if p.next >= |p.candidates| then s.(runs := SetRun(s, run, Over, r.result))
    else if !signedIn then s.(runs := SetRun(s, run, Over, r.result.(authRequired := true)))
    else
      var order, inFlight := p.candidates[p.next], s.inFlight + {p.candidates[p.next].key};
      s.(inFlight := inFlight, store := Updated(s, inFlight, order.key, MarkSyncing), touched := s.touched + {order.key},
         sent := s.sent + {Request(order.key, order.payload)}, runs := SetRun(s, run, p.(awaiting := true), r.result))
  }

  function DoAnswer(s: State, run: nat, reply: ServerReply): State
    requires Enabled(s, Answer(run, reply))
  {
    var r, p, order := s.runs[run], s.runs[run].progress, Sending(s, run);
    var next, done := p.(next := p.next + 1, awaiting := false), s.(inFlight := s.inFlight - {order.key});
    var failed := r.result.(failedKeys := r.result.failedKeys + [order.key]);
    match reply
    case Created(nullBody) =>
      var sent := r.result.(sentKeys := r.result.sentKeys + [order.key]);
      if !nullBody then done.(store := Removed(s, order.key), runs := SetRun(s, run, next, sent))
      else
        // reading the null body throws: the order, already removed and reported sent, is reported failed too
        done.(store := Updated(s.(store := Removed(s, order.key)), s.inFlight, order.key, MarkFailed(order.attempts + 1, true)),
              runs := SetRun(s, run, next, failed.(sentKeys := sent.sentKeys)))
    case Unauthorized =>
      // not the order's fault: it waits, and the flush stops
      done.(store := Updated(s, s.inFlight, order.key, MarkPending),
            runs := SetRun(s, run, Over, r.result.(authRequired := true)))
    case Refused(status, nullBody) =>
      // a null body throws here too, and the order is treated as after a network error
      done.(store := Updated(s, s.inFlight, order.key, MarkFailed(order.attempts + 1, nullBody || Temporary(status))),
            runs := SetRun(s, run, next, failed))
    case NetworkError =>
      done.(store := Updated(s, s.inFlight, order.key, MarkFailed(order.attempts + 1, true)),
            runs := SetRun(s, run, next, failed))
  }

  function Act(s: State, a: Action): State
    requires Enabled(s, a)
  {
    match a
    case Enqueue(key, payload, amountNaira, now) => DoEnqueue(s, key, payload, amountNaira, now)
    case Discard(key) => s.(store := Removed(s, key), discarded := s.discarded + {key})
    case Flush(onlyKey) => DoFlush(s, onlyKey)
    case Start(run) =>
      s.(runs := SetRun(s, run, Active(Filter(Load(s.store, s.inFlight), Wanted(s.runs[run].onlyKey)), 0, false),
                        s.runs[run].result))
    case Take(run, signedIn) => DoTake(s, run, signedIn)
    case Answer(run, reply) => DoAnswer(s, run, reply)
    case Finally(run) =>
      s.(runs := SetRun(s, run, Settled, s.runs[run].result), current := if s.current == Some(run) then None else s.current)
    case ServerLists(request) => if Listed(s, request.key) then s else s.(listings := s.listings + [request])
    case Reload => s.(inFlight := {}, runs := [], current := None, touched := {})
  }

  // ----- the invariant -----

  ghost predicate UniqueKeys(orders: seq<Order>) {
    forall i, j :: 0 <= i < j < |orders| ==> orders[i].key != orders[j].key
  }

  ghost predicate AllQueued(orders: seq<Order>, queued: seq<Request>) {
    forall i :: 0 <= i < |orders| ==> Request(orders[i].key, orders[i].payload) in queued
  }

  /** Flushes are chained one behind another: none has begun unless all before it have settled. */
  ghost predicate ChainOk(s: State) {
    && (s.current.Some? ==> s.current.value == |s.runs| - 1)
    && (s.current.None? ==> forall i :: 0 <= i < |s.runs| ==> s.runs[i].progress.Settled?)
    && (forall j :: 0 <= j < |s.runs| && s.runs[j].prev.Some? ==> s.runs[j].prev.value == j - 1)
    && (forall i, j :: 0 <= i < j < |s.runs| && (s.runs[j].prev.None? || !s.runs[j].progress.NotStarted?) ==>
          s.runs[i].progress.Settled?)
  }

  /** The keys in flight are those of the requests being waited for. */
  ghost predicate FlightOk(s: State) {
    && (forall run :: Waiting(s, run) ==> Sending(s, run).key in s.inFlight)
    && (forall key :: key in s.inFlight ==> exists run :: Waiting(s, run) && Sending(s, run).key == key)
    && (forall i :: 0 <= i < |s.runs| && s.runs[i].progress.Active? && s.runs[i].progress.awaiting ==>
          s.runs[i].progress.next < |s.runs[i].progress.candidates|)
  }

  ghost predicate SourcesOk(s: State) {
    && AllQueued(Kept(s.store), s.queued)
    && (forall i :: 0 <= i < |s.runs| && s.runs[i].progress.Active? ==> AllQueued(s.runs[i].progress.candidates, s.queued))
    && (forall r :: r in s.sent ==> r in s.queued)
    && (forall i :: 0 <= i < |s.listings| ==> s.listings[i] in s.sent)
    && (forall i, j :: 0 <= i < j < |s.listings| ==> s.listings[i].key != s.listings[j].key)
  }

  ghost predicate NothingLost(s: State) {
    forall r :: r in s.queued ==> Queues(Kept(s.store), r.key) || r.key in s.discarded || Listed(s, r.key)
  }

  /** Nothing sent since the page was opened is left syncing, except while its request is out. */
  ghost predicate SyncingOk(s: State) {
    forall o :: o in Kept(s.store) && o.status.Syncing? && o.key in s.touched ==> o.key in s.inFlight
  }

  ghost predicate Inv(s: State) {
    UniqueKeys(Kept(s.store)) && ChainOk(s) && FlightOk(s) && SourcesOk(s) && NothingLost(s) && SyncingOk(s)
  }

  // ----- sorting keeps the orders -----

  lemma {:induction false} InsertKeeps(sorted: seq<Order>, x: Order)
    ensures |Insert(sorted, x)| == |sorted| + 1
    ensures forall o :: o in Insert(sorted, x) <==> o in sorted || o == x
  {
    if |sorted| == 0 || CreationTime(sorted[|sorted| - 1]) <= CreationTime(x) {
    } else {
      var init, last := sorted[..|sorted| - 1], sorted[|sorted| - 1];
      InsertKeeps(init, x);
      assert sorted == init + [last];
    }
  }

  lemma {:induction false} SortKeeps(orders: seq<Order>)
    ensures |Sort(orders)| == |orders|
    ensures forall o :: o in Sort(orders) <==> o in orders
  {
    if |orders| > 0 {
      var init, last := orders[..|orders| - 1], orders[|orders| - 1];
      SortKeeps(init);
      InsertKeeps(Sort(init), last);
      assert orders == init + [last];
    }
  }

  ghost predicate Fresh(orders: seq<Order>, key: string) {
    forall o :: o in orders ==> o.key != key
  }

  lemma {:induction false} InsertUnique(sorted: seq<Order>, x: Order)
    requires UniqueKeys(sorted) && Fresh(sorted, x.key)
    ensures UniqueKeys(Insert(sorted, x))
  {
    if |sorted| == 0 || CreationTime(sorted[|sorted| - 1]) <= CreationTime(x) {
    } else {
      var init, last := sorted[..|sorted| - 1], sorted[|sorted| - 1];
      assert forall o :: o in init ==> o in sorted;
      InsertUnique(init, x);
      InsertKeeps(init, x);
      assert last in sorted;
      forall i | 0 <= i < |Insert(init, x)| ensures Insert(init, x)[i].key != last.key {
        var o := Insert(init, x)[i];
        assert o in Insert(init, x);
        if o in init {
          var j :| 0 <= j < |init| && init[j] == o;
          assert sorted[j].key != sorted[|sorted| - 1].key;
        }
      }
    }
  }

  lemma {:induction false} SortUnique(orders: seq<Order>)
    requires UniqueKeys(orders)
    ensures UniqueKeys(Sort(orders))
  {
    if |orders| > 0 {
      var init, last := orders[..|orders| - 1], orders[|orders| - 1];
      SortUnique(init);
      SortKeeps(init);
      forall o | o in Sort(init) ensures o.key != last.key {
        assert o in init;
        var j :| 0 <= j < |init| && init[j] == o;
        assert orders[j].key != orders[|orders| - 1].key;
      }
      InsertUnique(Sort(init), last);
    }
  }

  ghost predicate OldestFirst(orders: seq<Order>) {
    forall i, j :: 0 <= i < j < |orders| ==> CreationTime(orders[i]) <= CreationTime(orders[j])
  }

  lemma {:induction false} InsertSorts(sorted: seq<Order>, x: Order)
    requires OldestFirst(sorted)
    ensures OldestFirst(Insert(sorted, x))
  {
    if |sorted| == 0 || CreationTime(sorted[|sorted| - 1]) <= CreationTime(x) {
    } else {
      var init, last := sorted[..|sorted| - 1], sorted[|sorted| - 1];
      InsertSorts(init, x);
      InsertKeeps(init, x);
      forall i | 0 <= i < |Insert(init, x)| ensures CreationTime(Insert(init, x)[i]) <= CreationTime(last) {
        var o := Insert(init, x)[i];
        assert o in Insert(init, x);
        if o in init {
          var j :| 0 <= j < |init| && init[j] == o;
          assert CreationTime(sorted[j]) <= CreationTime(last);
        }
      }
    }
  }

  lemma {:induction false} SortSorts(orders: seq<Order>)
    ensures OldestFirst(Sort(orders))
  {
    if |orders| > 0 {
      SortSorts(orders[..|orders| - 1]);
      InsertSorts(Sort(orders[..|orders| - 1]), orders[|orders| - 1]);
    }
  }

  /** What reading the queue back gives: the readable orders, revived, oldest first. */
  lemma LoadKeeps(store: seq<Order>, inFlight: set<string>)
    ensures var q, kept := Load(store, inFlight), Kept(store);
            && (UniqueKeys(kept) ==> UniqueKeys(q))
            && OldestFirst(q)
            && (forall o :: o in q <==> exists i :: 0 <= i < |kept| && o == Revived(kept[i], inFlight))
            && (forall o :: o in q ==> IsQueuedOrder(o))
            && (forall key :: Queues(q, key) <==> Queues(kept, key))
  {
    hide Sort, Kept;
    var kept := Kept(store);
    assert forall o :: o in kept ==> IsQueuedOrder(o) by { KeptAreReadable(store); }
    var all, q := ReviveAll(kept, inFlight), Load(store, inFlight);
    SortKeeps(all);
    SortSorts(all);
    if UniqueKeys(kept) {
      SortUnique(all);
    }
    forall o | o in q ensures IsQueuedOrder(o) && exists i :: 0 <= i < |kept| && o == Revived(kept[i], inFlight) {
      assert o in all;
      var i :| 0 <= i < |all| && all[i] == o;
      assert kept[i] in kept;
    }
    forall i | 0 <= i < |kept| ensures Revived(kept[i], inFlight) in q {
      assert all[i] in all;
    }
    SameKeys(kept, q, inFlight);
  }

  lemma KeptAreReadable(store: seq<Order>)
    ensures forall o :: o in Kept(store) <==> o in store && IsQueuedOrder(o)
  {
    FilterMembers(store, Readable());
  }

  lemma SameKeys(kept: seq<Order>, q: seq<Order>, inFlight: set<string>)
    requires forall o :: o in q <==> exists i :: 0 <= i < |kept| && o == Revived(kept[i], inFlight)
    ensures forall key :: Queues(q, key) <==> Queues(kept, key)
  {
    forall key ensures Queues(q, key) <==> Queues(kept, key) {
      if Queues(q, key) {
        var i :| 0 <= i < |q| && q[i].key == key;
        assert q[i] in q;
        var j :| 0 <= j < |kept| && q[i] == Revived(kept[j], inFlight);
        assert kept[j].key == key;
      }
      if Queues(kept, key) {
        var i :| 0 <= i < |kept| && kept[i].key == key;
        assert Revived(kept[i], inFlight) in q;
        var j :| 0 <= j < |q| && q[j] == Revived(kept[i], inFlight);
      }
    }
  }

  /** A queue of readable orders is read back whole. */
  lemma KeptWhole(orders: seq<Order>)
    requires forall o :: o in orders ==> IsQueuedOrder(o)
    ensures Kept(orders) == orders
  {
    FilterAll(orders, Readable());
  }

  lemma {:induction false} FilterMembers(orders: seq<Order>, p: Order -> bool)
    ensures forall o :: o in Filter(orders, p) <==> o in orders && p(o)
  {
    if |orders| > 0 {
      var init, last := orders[..|orders| - 1], orders[|orders| - 1];
      FilterMembers(init, p);
      assert orders == init + [last];
    }
  }

  lemma {:induction false} FilterUnique(orders: seq<Order>, p: Order -> bool)
    requires UniqueKeys(orders)
    ensures UniqueKeys(Filter(orders, p))
  {
    if |orders| > 0 {
      var n := |orders| - 1;
      FilterUnique(orders[..n], p);
      FilterMembers(orders[..n], p);
      var f := Filter(orders[..n], p);
      forall i | 0 <= i < |f| ensures f[i].key != orders[n].key {
        assert f[i] in f && f[i] in orders[..n];
      }
    }
  }

  lemma {:induction false} FilterOldest(orders: seq<Order>, p: Order -> bool)
    requires OldestFirst(orders)
    ensures OldestFirst(Filter(orders, p))
  {
    if |orders| > 0 {
      var n := |orders| - 1;
      FilterOldest(orders[..n], p);
      FilterMembers(orders[..n], p);
      var f := Filter(orders[..n], p);
      forall i | 0 <= i < |f| ensures CreationTime(f[i]) <= CreationTime(orders[n]) {
        assert f[i] in f && f[i] in orders[..n];
      }
    }
  }

  lemma FilterKeeps(orders: seq<Order>, p: Order -> bool)
    ensures forall o :: o in Filter(orders, p) <==> o in orders && p(o)
    ensures UniqueKeys(orders) ==> UniqueKeys(Filter(orders, p))
    ensures OldestFirst(orders) ==> OldestFirst(Filter(orders, p))
  {
    FilterMembers(orders, p);
    if UniqueKeys(orders) {
      FilterUnique(orders, p);
    }
    if OldestFirst(orders) {
      FilterOldest(orders, p);
    }
  }
}

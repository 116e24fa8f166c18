/** Runs of the offline queue that end where a reader would not expect. */
module OfflineExamples {
  import opened Sums
  import opened OfflineQueue
  import opened OfflineDelivery

  const Key: string := "k"
  const One: Number := Finite(1.0)
  const First: Payload := Payload("MTN", Finite(5.0), Finite(24.0))
  const Second: Payload := Payload("MTN", Finite(7.0), Finite(24.0))

  function Ordered(p: Payload, status: Status): Order {
    Order(Key, p, One, One, status, 0, true)
  }

  lemma LoadOne(o: Order, inFlight: set<string>)
    requires IsQueuedOrder(o)
    ensures Load([o], inFlight) == [Revived(o, inFlight)] && Load([], inFlight) == []
  {
    FilterOne(o, Readable());
    SortOne(Revived(o, inFlight));
    assert ReviveAll([o], inFlight) == [Revived(o, inFlight)] && ReviveAll([], inFlight) == [];
  }

  lemma SortOne(o: Order)
    ensures Sort([o]) == [o] && Sort([]) == []
  {
    var all := [o];
    assert all[..0] == [];
    assert Sort(all) == Insert(Sort([]), all[0]) && [] + [all[0]] == [all[0]];
  }

  lemma FilterOne(o: Order, p: Order -> bool)
    ensures Filter([o], p) == (if p(o) then [o] else []) && Filter([], p) == []
  {
    FilterSnoc([], o, p);
    assert [] + [o] == [o];
  }

  const Begin: seq<Action> := [Enqueue(Key, First, One, One), Flush(None), Start(0), Take(0, true)]

  lemma Queued() returns (s: State, t: State)
    ensures Act(Empty, Begin[0]) == s && Act(s, Begin[1]) == t
    ensures t == Empty.(store := [Ordered(First, Pending)], queued := [Request(Key, First)], current := Some(0),
                        runs := [FlushRun(None, None, NotStarted, FlushResult([], [], false))])
  {
    LoadOne(Ordered(First, Pending), {});
    assert Load([], {}) == [];
    hide Load;
    s := Act(Empty, Begin[0]);
    assert s.store == [Ordered(First, Pending)] && s.queued == [Request(Key, First)];
    t := Act(s, Begin[1]);
  }

  lemma Begun(s: State) returns (t: State, u: State)
    requires s == Empty.(store := [Ordered(First, Pending)], queued := [Request(Key, First)], current := Some(0),
                         runs := [FlushRun(None, None, NotStarted, FlushResult([], [], false))])
    ensures Enabled(s, Begin[2]) && Act(s, Begin[2]) == t && Enabled(t, Begin[3]) && Act(t, Begin[3]) == u
    ensures u.store == [Ordered(First, Syncing)] && u.inFlight == {Key} && u.sent == {Request(Key, First)}
    ensures u.runs == [FlushRun(None, None, Active([Ordered(First, Pending)], 0, true), FlushResult([], [], false))]
    ensures u.current == s.current && u.queued == s.queued && u.listings == s.listings && u.discarded == s.discarded
  {
    var o := Ordered(First, Pending);
    LoadOne(o, {});
    LoadOne(o, {Key});
    FilterOne(o, Wanted(None));
    assert Filter([o], Wanted(None)) == [o] && Load([o], {}) == [o] && Load([o], {Key}) == [o];
    hide Load, Filter, Wanted;
    t := Act(s, Begin[2]);
    assert t.runs == [FlushRun(None, None, Active([o], 0, false), FlushResult([], [], false))];
    u := Act(t, Begin[3]);
    assert u.store == [Ordered(First, Syncing)];
  }

  /** One order queued and its request sent. */
  ghost predicate OneSent(s: State) {
    && s.store == [Ordered(First, Syncing)] && s.inFlight == {Key}
    && s.runs == [FlushRun(None, None, Active([Ordered(First, Pending)], 0, true), FlushResult([], [], false))]
    && s.sent == {Request(Key, First)} && s.listings == []
  }

  lemma Sent() returns (r: Run)
    ensures ValidRun(r) && r.actions == Begin && |r.states| == 5 && OneSent(r.states[4])
  {
    var s1, s2 := Queued();
    var s3, s4 := Begun(s2);
    hide Act, ValidRun;
    assert Enabled(Empty, Begin[0]) && Enabled(s1, Begin[1]);
    r := FourSteps(Begin, s1, s2, s3, s4);
  }

  lemma FourSteps(actions: seq<Action>, s1: State, s2: State, s3: State, s4: State) returns (r: Run)
    requires |actions| == 4 && Enabled(Empty, actions[0]) && Act(Empty, actions[0]) == s1
    requires Enabled(s1, actions[1]) && Act(s1, actions[1]) == s2
    requires Enabled(s2, actions[2]) && Act(s2, actions[2]) == s3
    requires Enabled(s3, actions[3]) && Act(s3, actions[3]) == s4
    ensures ValidRun(r) && r.actions == actions && |r.states| == 5 && r.states[4] == s4
  {
    hide Enabled, Act;
    r := Run(actions, [Empty, s1, s2, s3, s4]);
    assert StepsTo(r, 0) && StepsTo(r, 1) && StepsTo(r, 2) && StepsTo(r, 3);
  }

  lemma Append(r: Run, s: State, a: Action, s': State) returns (r': Run)
    requires ValidRun(r) && r.states[|r.actions|] == s && Enabled(s, a) && Act(s, a) == s'
    ensures ValidRun(r') && r'.actions == r.actions + [a] && r'.states == r.states + [s']
  {
    hide Enabled, Act;
    r' := Run(r.actions + [a], r.states + [s']);
    forall k | 0 <= k < |r'.actions| ensures StepsTo(r', k) {
      assert k < |r.actions| ==> StepsTo(r, k);
    }
  }

  lemma FourByFour<T>(xs: seq<T>, ys: seq<T>)
    requires |ys| == 4
    ensures xs + [ys[0]] + [ys[1]] + [ys[2]] + [ys[3]] == xs + ys
  {
  }

  /** A server that turns the order down with status 400 and the body null: the order will be sent again
      by every automatic flush, where with any other body it would wait for the seller. */
  lemma NullBodyIsRetried(nullBody: bool) returns (r: Run)
    ensures ValidRun(r) && r.actions == Begin + [Answer(0, Refused(400, nullBody))] && |r.states| == 6
    ensures SentAutomatically(r.states[5], Key) <==> nullBody
  {
    var r0 := Sent();
    RunKeepsInv(r0, 4);
    var t := TurnedDown(r0.states[4], nullBody);
    hide Enabled, Act, RunFrom, ValidRun, OneSent, Inv, SentAutomatically;
    r := Append(r0, r0.states[4], Answer(0, Refused(400, nullBody)), t);
  }

  lemma TurnedDown(s: State, nullBody: bool) returns (t: State)
    requires Inv(s) && OneSent(s)
    ensures Enabled(s, Answer(0, Refused(400, nullBody))) && Act(s, Answer(0, Refused(400, nullBody))) == t
    ensures SentAutomatically(t, Key) <==> nullBody
  {
    LoadOne(Ordered(First, Syncing), {Key});
    assert Load(s.store, s.inFlight)[0].key == Key && Sending(s, 0).key == Key;
    hide Inv, Load, SentAutomatically;
    RetriedAutomaticallyIff(s, 0, Refused(400, nullBody));
    AnswerActs(s, 0, Refused(400, nullBody));
    t := DoAnswer(s, 0, Refused(400, nullBody));
  }

  lemma AnswerActs(s: State, run: nat, reply: ServerReply)
    requires Enabled(s, Answer(run, reply))
    ensures Act(s, Answer(run, reply)) == DoAnswer(s, run, reply)
  {
  }

  const Swap: seq<Action> := [ServerLists(Request(Key, First)), Discard(Key), Enqueue(Key, Second, One, One), Answer(0, Created(false))]

  /** The first order is listed but discarded, and the second queued under its key, before the answer comes. */
  lemma Swapped(s: State) returns (t: State, u: State, v: State)
    requires OneSent(s)
    ensures Enabled(s, ServerLists(Request(Key, First))) && Act(s, ServerLists(Request(Key, First))) == t
    ensures Enabled(t, Discard(Key)) && Act(t, Discard(Key)) == u
    ensures Enabled(u, Enqueue(Key, Second, One, One)) && Act(u, Enqueue(Key, Second, One, One)) == v
    ensures v.store == [Ordered(Second, Pending)] && SecondQueued(v)
  {
    LoadOne(Ordered(First, Syncing), {Key});
    FilterOne(Ordered(First, Syncing), OtherKey(Key));
    assert Filter(Load([Ordered(First, Syncing)], {Key}), OtherKey(Key)) == [];
    hide Load, Filter, OtherKey;
    t := Act(s, ServerLists(Request(Key, First)));
    assert t.listings == [Request(Key, First)];
    u := Act(t, Discard(Key));
    assert u.store == [];
    v := Act(u, Enqueue(Key, Second, One, One));
    assert v.store == [Ordered(Second, Pending)];
  }

  /** The second order is queued, the first one's request is out, and its listing is there. */
  ghost predicate SecondQueued(s: State) {
    && s.store == [Ordered(Second, Pending)] && s.inFlight == {Key} && s.listings == [Request(Key, First)]
    && s.runs == [FlushRun(None, None, Active([Ordered(First, Pending)], 0, true), FlushResult([], [], false))]
    && s.sent == {Request(Key, First)}
  }

  lemma Answered(s: State) returns (t: State)
    requires SecondQueued(s)
    ensures Enabled(s, Answer(0, Created(false))) && Act(s, Answer(0, Created(false))) == t
    ensures t.store == [] && t.listings == [Request(Key, First)] && Request(Key, Second) !in t.sent
  {
    LoadOne(Ordered(Second, Pending), {Key});
    FilterOne(Ordered(Second, Pending), OtherKey(Key));
    assert Filter(Load([Ordered(Second, Pending)], {Key}), OtherKey(Key)) == [];
    hide Load, Filter, OtherKey;
    assert s.listings[0].key == Key;
    t := Act(s, Answer(0, Created(false)));
  }

  /** A key used for two different orders: the answer to the first one's request takes the second out of
      the queue, although nothing was ever sent or listed for it. */
  lemma ReusedKeyLosesOrder() returns (r: Run)
    ensures ValidRun(r) && r.actions == Begin + Swap && |r.states| == 9
    ensures var before, after := r.states[7], r.states[8];
            && before.store == [Ordered(Second, Pending)] && after.store == []
            && after.listings == [Request(Key, First)] && Request(Key, Second) !in after.sent
  {
    r := Sent();
    var t, u, v := Swapped(r.states[4]);
    var w := Answered(v);
    hide Enabled, Act, RunFrom, ValidRun, OneSent, SecondQueued;
    r := Append(r, r.states[4], Swap[0], t);
    r := Append(r, t, Swap[1], u);
    r := Append(r, u, Swap[2], v);
    r := Append(r, v, Swap[3], w);
    FourByFour(Begin, Swap);
  }

  const Accept: seq<Action> := [ServerLists(Request(Key, First)), Answer(0, Created(true))]

  /** A server that takes the order and answers with the body null: the flush reports the order both as sent
      and as failed. */
  lemma NullBodyContradicts() returns (r: Run)
    ensures ValidRun(r) && r.actions == Begin + Accept && |r.states| == 7
    ensures r.states[6].listings == [Request(Key, First)] && !InQueue(r.states[6], Key)
    ensures |r.states[6].runs| == 1 && Contradicts(r.states[6].runs[0].result)
  {
    r := Sent();
    var t := Accepted(r.states[4]);
    hide Act, Enabled, RunFrom, ValidRun, Inv, ReportsOk, Contradicts, InQueue, OneSent, FirstListed;
    r := Append(r, r.states[4], Accept[0], t);
    RunKeepsInv(r, 5);
    RunKeepsReports(r, 5);
    var u := AnsweredNull(t);
    r := Append(r, t, Accept[1], u);
    TwoByTwo(Begin, Accept);
  }

  lemma TwoByTwo<T>(xs: seq<T>, ys: seq<T>)
    requires |ys| == 2
    ensures xs + [ys[0]] + [ys[1]] == xs + ys
  {
  }

  ghost predicate FirstListed(s: State) {
    && s.listings == [Request(Key, First)]
    && s.runs == [FlushRun(None, None, Active([Ordered(First, Pending)], 0, true), FlushResult([], [], false))]
  }

  lemma Accepted(s: State) returns (t: State)
    requires OneSent(s)
    ensures Enabled(s, Accept[0]) && Act(s, Accept[0]) == t && FirstListed(t)
  {
    t := Act(s, Accept[0]);
    assert t.listings == [Request(Key, First)];
  }

  lemma AnsweredNull(s: State) returns (t: State)
    requires Inv(s) && ReportsOk(s) && FirstListed(s)
    ensures Enabled(s, Accept[1]) && Act(s, Accept[1]) == t
    ensures t.listings == [Request(Key, First)] && !InQueue(t, Key) && |t.runs| == 1 && Contradicts(t.runs[0].result)
  {
    hide Inv, Load, Removed, Updated, ReportsOk, InQueue, Contradicts;
    assert s.listings[0].key == Key && Waiting(s, 0) && Sending(s, 0).key == Key;
    AnswerReports(s, 0, Created(true));
    AnswerActs(s, 0, Created(true));
    GoneAfterCreated(s);
    t := DoAnswer(s, 0, Created(true));
  }

  lemma GoneAfterCreated(s: State)
    requires Inv(s) && Enabled(s, Answer(0, Created(true))) && Sending(s, 0).key == Key
    ensures !InQueue(DoAnswer(s, 0, Created(true)), Key)
  {
    AnswerLeaves(s, 0, Created(true), Key);
    InQueueIff(DoAnswer(s, 0, Created(true)), Key);
  }

  const NoKey: string := ""
  const TwoEnqueues: seq<Action> := [Enqueue(NoKey, First, One, One), Enqueue(Key, Second, One, One)]

  /** An order queued under the empty key is stored, but no reader sees it and the next save drops it: it is
      neither discarded nor sent. */
  lemma EmptyKeyIsLost() returns (r: Run)
    ensures ValidRun(r) && r.actions == TwoEnqueues && |r.states| == 3
    ensures r.states[1].store == [NewOrder(NoKey, First, One, One)] && Load(r.states[1].store, {}) == []
    ensures var s := r.states[2];
            s.store == [Ordered(Second, Pending)] && s.discarded == {} && s.sent == {} && s.listings == []
  {
    var lost := NewOrder(NoKey, First, One, One);
    FilterOne(lost, Readable());
    SortOne(lost);
    assert ReviveAll([], {}) == [] && Load([], {}) == [] && Load([lost], {}) == [];
    hide Load;
    var s := Act(Empty, TwoEnqueues[0]);
    assert s.store == [lost];
    var t := Act(s, TwoEnqueues[1]);
    assert t.store == [Ordered(Second, Pending)];
    r := Run(TwoEnqueues, [Empty, s, t]);
    assert StepsTo(r, 0) && StepsTo(r, 1);
  }
}

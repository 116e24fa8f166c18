/** Theorems about the escrow contract: for every reachable state, and over whole runs. */
module EscrowRuns {
  import opened Sums
  import opened TokenLedger
  import opened EscrowSpec
  import opened EscrowInvariant

  datatype Event = Event(now: Timestamp, call: Call)

  /** A run: the calls made, the reply to each, and the states before, between and after them. */
  datatype Run = Run(events: seq<Event>, replies: seq<Reply>, states: seq<State>)

  ghost predicate StepsTo(r: Run, k: nat)
    requires k < |r.events| == |r.replies| && |r.states| == |r.events| + 1
  {
    Step(r.states[k], r.events[k].now, r.events[k].call) == (r.states[k + 1], r.replies[k])
  }

  /** Calls arrive in ledger-time order; any party may make any legal call. */
  ghost predicate ValidRun(r: Run) {
    && |r.events| == |r.replies| && |r.states| == |r.events| + 1 && r.states[0] == Genesis
    && (forall k :: 0 <= k < |r.events| ==> StepsTo(r, k))
    && (forall k :: 0 <= k < |r.events| ==> Legal(r.events[k].call))
    && (forall j, k :: 0 <= j < k < |r.events| ==> r.events[j].now <= r.events[k].now)
  }

  /** Every ordered list of legal calls has a run. */
  lemma {:induction false} RunExists(events: seq<Event>) returns (r: Run)
    requires forall k :: 0 <= k < |events| ==> Legal(events[k].call)
    requires forall j, k :: 0 <= j < k < |events| ==> events[j].now <= events[k].now
    ensures ValidRun(r) && r.events == events
  {
    hide Step;
    if |events| == 0 {
      r := Run([], [], [Genesis]);
    } else {
      var n := |events| - 1;
      var r0 := RunExists(events[..n]);
      var (s, reply) := Step(r0.states[n], events[n].now, events[n].call);
      r := Run(events, r0.replies + [reply], r0.states + [s]);
      forall k | 0 <= k < |events| ensures StepsTo(r, k) {
        assert k < n ==> StepsTo(r0, k);
      }
    }
  }

  lemma {:induction false} RunKeepsInv(r: Run, k: nat)
    requires ValidRun(r) && k < |r.states|
    ensures Inv(r.states[k])
    ensures r.states[k].clock == if k == 0 then 0 else r.events[k - 1].now
  {
    hide Step;
    if k == 0 {
      GenesisInv();
    } else {
      RunKeepsInv(r, k - 1);
      assert StepsTo(r, k - 1);
      StepKeepsInv(r.states[k - 1], r.events[k - 1].now, r.events[k - 1].call);
      StepClock(r.states[k - 1], r.events[k - 1].now, r.events[k - 1].call);
    }
  }

  // ----- custody -----

  /** Whatever happened, the contract holds its donations plus every active fill, less what
      was withdrawn in an emergency. */
  lemma CustodyConserved(r: Run, k: nat, token: Address)
    requires ValidRun(r) && k < |r.states|
    ensures var s := r.states[k];
            Balance(s.log, token, Custodian)
            == Sum(s.log, Donated(token)) + Sum(s.trades, HeldIn(token)) - Sum(s.log, Withdrawn(token))
  {
    RunKeepsInv(r, k);
    assert CustodyOf(r.states[k], token);
  }

  /** The contract can pay every fill of a trade as long as nothing was withdrawn from that token. */
  lemma Solvent(s: State, id: nat)
    requires Inv(s) && 1 <= id <= |s.trades|
    requires Sum(s.log, Withdrawn(s.trades[id - 1].token)) == 0
    ensures Balance(s.log, s.trades[id - 1].token, Custodian) >= Sum(s.trades[id - 1].fills, HeldAmount())
  {
    var t := s.trades[id - 1];
    assert CustodyOf(s, t.token);
    SumNonNegative(s.log, Donated(t.token));
    forall k | 0 <= k < |s.trades| ensures HeldIn(t.token)(s.trades[k]) >= 0 {
      assert TradeOk(s.trades[k], s.clock);
      RefundBounds(s.trades[k], Custodian, true);
    }
    SumAtLeast(s.trades, HeldIn(t.token), id - 1);
  }

  // ----- no stranded funds -----

  /** Every held fill has been refunded, and no other fill has changed. */
  ghost predicate AllReturned(before: seq<Fill>, after: seq<Fill>) {
    |after| == |before| &&
    forall i :: 0 <= i < |before| ==>
      after[i] == if before[i].state.Held? then before[i].(state := Refunded) else before[i]
  }

  /** Settling a trade that holds funds: an admin's `cancel_and_refund` works exactly when the
      contract still has the trade's money, and it then returns every held fill and nothing else. */
  lemma AdminCancelSettles(s: State, now: Timestamp, admin: Address, id: nat)
    requires Inv(s) && s.clock <= now && !s.paused && s.admin == Some(admin)
    requires 1 <= id <= |s.trades| && !NoneHeld(s.trades[id - 1].fills)
    ensures var t, (s', r) := s.trades[id - 1], DoCancelAndRefund(s, now, admin, id);
            && (r.Done? <==> Balance(s.log, t.token, Custodian) >= Sum(t.fills, HeldAmount()))
            && (Sum(s.log, Withdrawn(t.token)) == 0 ==> r.Done?)
            && (r.Done? ==> s'.trades[id - 1].status.Cancelled? && AllReturned(t.fills, s'.trades[id - 1].fills))
  {
    var t := s.trades[id - 1];
    assert TradeOk(t, s.clock);
    HeldStatus(t, s.clock);
    SumMonotone(t.fills, RefundAmount(admin, true), HeldAmount());
    SumMonotone(t.fills, HeldAmount(), RefundAmount(admin, true));
    if Sum(s.log, Withdrawn(t.token)) == 0 {
      Solvent(s, id);
    }
  }

  /** After expiry a buyer who still holds a fill gets it back by their own call: exactly one
      transfer, of exactly that fill's amount, and no other fill changes. */
  lemma SelfRefundSettlesOneFill(s: State, now: Timestamp, buyer: Address, id: nat) returns (k: nat)
    requires Inv(s) && s.clock <= now && !s.paused && s.admin.Some? && s.admin != Some(buyer)
    requires 1 <= id <= |s.trades| && HoldsActive(s.trades[id - 1].fills, buyer)
    requires s.trades[id - 1].expiresAt <= now
    requires Sum(s.log, Withdrawn(s.trades[id - 1].token)) == 0
    ensures var t, (s', r) := s.trades[id - 1], DoCancelAndRefund(s, now, buyer, id);
            && r.Done?
            && k < |t.fills| && t.fills[k].state.Held? && t.fills[k].buyer == buyer
            && s'.trades[id - 1].fills == t.fills[k := t.fills[k].(state := Refunded)]
            && s'.log == s.log + [RefundMove(t, id, k + 1, t.fills[k])]
  {
    var t := s.trades[id - 1];
    assert TradeOk(t, s.clock);
    hide TradesOk, StoriesOk, CustodyOk, Sum, Balance, OneActivePerBuyer;
    HeldStatus(t, s.clock);
    Solvent(s, id);
    RefundBounds(t, buyer, false);
    k :| 0 <= k < |t.fills| && t.fills[k].state.Held? && t.fills[k].buyer == buyer;
    OnlyRefund(t, id, buyer, k, |t.fills|);
    assert AfterRefund(t.fills, buyer, false) == t.fills[k := t.fills[k].(state := Refunded)];
  }

  lemma {:induction false} OnlyRefund(t: Trade, id: nat, buyer: Address, k: nat, n: nat)
    requires k < |t.fills| && n <= |t.fills| && Refundable(t.fills[k], buyer, false)
    requires OneActivePerBuyer(t.fills)
    ensures RefundMoves(t, id, buyer, false, n) == if k < n then [RefundMove(t, id, k + 1, t.fills[k])] else []
  {
    if n > 0 {
      OnlyRefund(t, id, buyer, k, n - 1);
    }
  }

  /** A release or a refund is never aborted for lack of funds unless an emergency withdrawal was made. */
  lemma PayoutsNeverTrap(s: State, now: Timestamp, c: Call)
    requires Inv(s) && s.clock <= now
    requires c.ReleasePayment? || c.ReleaseByTimelock? || c.CancelAndRefund?
    requires 1 <= c.id <= |s.trades| ==> Sum(s.log, Withdrawn(s.trades[c.id - 1].token)) == 0
    ensures !Step(s, now, c).1.Trapped?
  {
    hide Sum, StoriesOk, CustodyOk;
    if 1 <= c.id <= |s.trades| {
      var t := s.trades[c.id - 1];
      Solvent(s, c.id);
      assert TradeOk(t, s.clock);
      match c {
        case CancelAndRefund(caller, _) => RefundBounds(t, caller, s.admin == Some(caller));
        case ReleasePayment(_, fillId) => FillIsCovered(t, fillId);
        case ReleaseByTimelock(_, _, fillId) => FillIsCovered(t, fillId);
      }
    }
  }

  lemma FillIsCovered(t: Trade, fillId: nat)
    requires FillsOk(t)
    ensures 1 <= fillId <= |t.fills| && t.fills[fillId - 1].state.Held? ==>
              t.fills[fillId - 1].amount <= Sum(t.fills, HeldAmount())
  {
    if 1 <= fillId <= |t.fills| {
      SumAtLeast(t.fills, HeldAmount(), fillId - 1);
    }
  }

  // ----- settlement -----

  /** The transfers out of the contract for one fill. */
  function PaidOut(): Move -> bool {
    (m: Move) => m.from == Some(Custodian)
  }

  /** Each fill is paid out at most once, in full, to the seller or to its buyer and never to both. */
  lemma EachFillPaidOnce(r: Run, k: nat, id: nat, fillId: nat)
    requires ValidRun(r) && k < |r.states|
    requires 1 <= id <= |r.states[k].trades| && 1 <= fillId <= |r.states[k].trades[id - 1].fills|
    ensures var t := r.states[k].trades[id - 1];
            var f := t.fills[fillId - 1];
            Filter(Filter(r.states[k].log, For(id, fillId)), PaidOut()) ==
            match f.state
            case Held => []
            case Released => [Move(t.token, Some(Custodian), t.seller, f.amount, ForFill(id, fillId))]
            case Refunded => [Move(t.token, Some(Custodian), f.buyer, f.amount, ForFill(id, fillId))]
  {
    RunKeepsInv(r, k);
    var t := r.states[k].trades[id - 1];
    var f := t.fills[fillId - 1];
    assert TradeOk(t, r.states[k].clock) && TradeStory(r.states[k].log, id, t);
    var d := DepositMove(t, id, fillId, f);
    FilterSnoc([], d, PaidOut());
    assert [] + [d] == [d];
    FilterSnoc([d], PayMove(t, id, fillId, f), PaidOut());
    FilterSnoc([d], RefundMove(t, id, fillId, f), PaidOut());
    assert forall m: Move :: [d] + [m] == [d, m];
  }

  /** The seller of a completed trade has received exactly its total; before that, exactly what
      is filled and no longer held. */
  lemma SellerReceivesTotal(r: Run, k: nat, id: nat)
    requires ValidRun(r) && k < |r.states| && 1 <= id <= |r.states[k].trades|
    ensures var s, t := r.states[k], r.states[k].trades[id - 1];
            && Sum(s.log, Receipt(id, t.seller)) == t.filled - Sum(t.fills, HeldAmount())
            && Sum(s.log, Receipt(id, t.seller)) <= t.total
            && (t.status.Completed? ==> Sum(s.log, Receipt(id, t.seller)) == t.total)
  {
    RunKeepsInv(r, k);
    var s, t := r.states[k], r.states[k].trades[id - 1];
    assert TradeOk(t, s.clock) && TradeStory(s.log, id, t);
    KeptSplits(t.fills);
    HeldStatus(t, s.clock);
    RefundBounds(t, Custodian, true);
  }

  // ----- what may change, and what may not -----

  /** How a trade may look after one or more further calls. */
  ghost predicate Grows(t: Trade, t': Trade) {
    && t'.seller == t.seller && t'.token == t.token && t'.total == t.total && t'.expiresAt == t.expiresAt
    && t'.assetType == t.assetType && |t.fills| <= |t'.fills|
    && (forall i :: 0 <= i < |t.fills| ==>
          t'.fills[i].buyer == t.fills[i].buyer && t'.fills[i].amount == t.fills[i].amount &&
          (!t.fills[i].state.Held? ==> t'.fills[i].state == t.fills[i].state))
    && (t.status.Completed? || t.status.Cancelled? ==> t'.status == t.status)
    && (t.windowClose.Some? ==> t'.windowClose.Some? && t.windowClose.value <= t'.windowClose.value)
  }

  /** The status changes call c may make. */
  predicate MayFollow(c: Call, admin: Option<Address>, before: TradeStatus, after: TradeStatus) {
    before == after ||
    match c
    case Deposit(_, _, _) => (before.Open? || before.PartiallyFilled?) && (after.PartiallyFilled? || after.Locked?)
    case ReleasePayment(_, _) => before.Locked? && after.Completed?
    case ReleaseByTimelock(_, _, _) => before.Locked? && after.Completed?
    case CancelAndRefund(caller, _) =>
      (before.PartiallyFilled? || before.Locked? || before.Disputed?) &&
      (if admin == Some(caller) then after.Cancelled? else after.Open? || after.PartiallyFilled?)
    case CloseExpired(_) => before.Open? && after.Cancelled?
    case FlagDispute(_, _) => before.Locked? && after.Disputed?
    case _ => false
  }

  /** How trade k compares before and after call c. */
  ghost predicate GrowsBy(c: Call, s: State, s': State, k: nat)
    requires k < |s.trades|
  {
    |s.trades| <= |s'.trades| && Grows(s.trades[k], s'.trades[k]) && MayFollow(c, s.admin, s.trades[k].status, s'.trades[k].status)
  }

  lemma SettleGrows(s: State, now: Timestamp, c: Call, id: nat, t': Trade, moves: seq<Move>, k: nat)
    requires 1 <= id <= |s.trades| && k < |s.trades|
    requires Grows(s.trades[id - 1], t') && MayFollow(c, s.admin, s.trades[id - 1].status, t'.status)
    ensures GrowsBy(c, s, Settle(s, now, id, t', moves).0, k)
  {
  }

  lemma RefundGrows(s: State, now: Timestamp, c: Call, k: nat)
    requires Inv(s) && s.clock <= now && c.CancelAndRefund? && k < |s.trades|
    ensures GrowsBy(c, s, DoCancelAndRefund(s, now, c.caller, c.id).0, k)
  {
    hide Sum, StoriesOk, CustodyOk, OneActivePerBuyer, RefundsAreFinal, RefundMoves;
    if DoCancelAndRefund(s, now, c.caller, c.id).1.Done? {
      var t, isAdmin := s.trades[c.id - 1], s.admin == Some(c.caller);
      assert TradeOk(t, s.clock);
      RefundBounds(t, c.caller, isAdmin);
      SettleGrows(s, now, c, c.id, Returned(t, c.caller, isAdmin), RefundMoves(t, c.id, c.caller, isAdmin, |t.fills|), k);
    }
  }

  lemma PaidGrows(t: Trade, clock: nat, c: Call, admin: Option<Address>, fillId: nat)
    requires TradeOk(t, clock) && 1 <= fillId <= |t.fills| && t.fills[fillId - 1].state.Held?
    requires c.ReleasePayment? || c.ReleaseByTimelock?
    requires t.status.Locked? || t.status.PartiallyFilled?
    ensures Grows(t, Paid(t, fillId)) && MayFollow(c, admin, t.status, Paid(t, fillId).status)
  {
    hide Sum, FillsOk, OneActivePerBuyer, RefundsAreFinal, NoneHeld;
  }

  lemma ReleaseGrows(s: State, now: Timestamp, c: Call, id: nat, fillId: nat, k: nat)
    requires Inv(s) && s.clock <= now && k < |s.trades| && Releasable(s, id)
    requires c.ReleasePayment? || c.ReleaseByTimelock?
    ensures GrowsBy(c, s, DoRelease(s, now, id, fillId).0, k)
  {
    hide Sum, Balance, StoriesOk, CustodyOk, Paid;
    if DoRelease(s, now, id, fillId).1.Done? {
      var t := s.trades[id - 1];
      assert TradeOk(t, s.clock);
      hide TradeOk;
      PaidGrows(t, s.clock, c, s.admin, fillId);
      SettleGrows(s, now, c, id, Paid(t, fillId), [PayMove(t, id, fillId, t.fills[fillId - 1])], k);
    }
  }

  lemma DepositGrows(s: State, now: Timestamp, c: Call, k: nat)
    requires Inv(s) && s.clock <= now && c.Deposit? && k < |s.trades|
    ensures GrowsBy(c, s, DoDeposit(s, now, c.buyer, c.id, c.amount).0, k)
  {
    hide Sum, Balance, StoriesOk, CustodyOk, FillsOk, OneActivePerBuyer, RefundsAreFinal;
    if DoDeposit(s, now, c.buyer, c.id, c.amount).1.Done? {
      assert TradeOk(s.trades[c.id - 1], s.clock);
    }
  }

  lemma StatusGrows(s: State, now: Timestamp, c: Call, k: nat)
    requires k < |s.trades| && (c.CloseExpired? || c.FlagDispute?)
    ensures GrowsBy(c, s, Step(s, now, c).0, k)
  {
    hide Sum;
  }

  /** One call: settled fills stay settled, terms and terminal statuses stay, and a status
      changes only along the contract's graph. */
  lemma StepGrows(s: State, now: Timestamp, c: Call, k: nat)
    requires Inv(s) && s.clock <= now && Legal(c) && k < |s.trades|
    ensures GrowsBy(c, s, Step(s, now, c).0, k)
  {
    hide DoDeposit, DoRelease, DoCancelAndRefund, DoCloseExpired, DoFlagDispute;
    hide Inv, Sum, Balance, Filter;
    match c
    case CloseExpired(_) => StatusGrows(s, now, c, k);
    case FlagDispute(_, _) => StatusGrows(s, now, c, k);
    case Deposit(_, _, _) => DepositGrows(s, now, c, k);
    case CancelAndRefund(_, _) => RefundGrows(s, now, c, k);
    case ReleasePayment(id, fillId) => if Releasable(s, id) { ReleaseGrows(s, now, c, id, fillId, k); }
    case ReleaseByTimelock(_, id, fillId) => if Releasable(s, id) { ReleaseGrows(s, now, c, id, fillId, k); }
    case _ =>
  }

  lemma GrowsFurther(t: Trade, s: State, e: Event, k: nat)
    requires Inv(s) && s.clock <= e.now && Legal(e.call) && k < |s.trades| && Grows(t, s.trades[k])
    ensures k < |Step(s, e.now, e.call).0.trades| && Grows(t, Step(s, e.now, e.call).0.trades[k])
  {
    StepGrows(s, e.now, e.call, k);
  }

  /** Over any stretch of a run. */
  lemma {:induction false} RunGrows(r: Run, i: nat, j: nat, k: nat)
    requires ValidRun(r) && i <= j < |r.states| && k < |r.states[i].trades|
    ensures k < |r.states[j].trades| && Grows(r.states[i].trades[k], r.states[j].trades[k])
    decreases j
  {
    hide Step;
    if i < j {
      RunGrows(r, i, j - 1, k);
      RunKeepsInv(r, j - 1);
      assert StepsTo(r, j - 1);
      GrowsFurther(r.states[i].trades[k], r.states[j - 1], r.events[j - 1], k);
    }
  }

  // ----- capacity -----

  /** All fills ever made on a trade, refunded ones included, fit within its total. */
  lemma CapacityNeverRecycled(r: Run, k: nat, id: nat)
    requires ValidRun(r) && k < |r.states| && 1 <= id <= |r.states[k].trades|
    ensures Sum(r.states[k].trades[id - 1].fills, EveryAmount()) <= r.states[k].trades[id - 1].total
  {
    RunKeepsInv(r, k);
    assert TradeOk(r.states[k].trades[id - 1], r.states[k].clock);
  }

  /** The trade has been cancelled or some fill of it refunded. */
  ghost predicate Closed(t: Trade) {
    t.status.Cancelled? || exists f :: 0 <= f < |t.fills| && t.fills[f].state.Refunded?
  }

  lemma RefundCloses(s: State, now: Timestamp, c: Call)
    requires c.CancelAndRefund? && Step(s, now, c).1.Done?
    ensures 1 <= c.id <= |s.trades| == |Step(s, now, c).0.trades| && Closed(Step(s, now, c).0.trades[c.id - 1])
  {
    hide Sum, RefundMoves;
    var t, s' := s.trades[c.id - 1], Step(s, now, c).0;
    if s.admin != Some(c.caller) {
      var f :| 0 <= f < |t.fills| && t.fills[f].state.Held? && t.fills[f].buyer == c.caller;
      assert s'.trades[c.id - 1].fills[f].state.Refunded?;
    }
  }

  lemma ClosedRefuses(t: Trade, s: State, now: Timestamp, c: Call)
    requires Inv(s) && s.clock <= now && c.Deposit? && 1 <= c.id <= |s.trades|
    requires Closed(t) && Grows(t, s.trades[c.id - 1])
    ensures Step(s, now, c).1.Failed?
  {
    hide Sum, StoriesOk, CustodyOk;
    var t' := s.trades[c.id - 1];
    assert TradeOk(t', s.clock);
    if !t.status.Cancelled? {
      var f :| 0 <= f < |t.fills| && t.fills[f].state.Refunded?;
      assert t'.fills[f].state.Refunded?;
    }
  }

  /** Once a refund on a trade has succeeded, no later deposit on it does. */
  lemma NoDepositAfterRefund(r: Run, i: nat, k: nat)
    requires ValidRun(r) && i < k < |r.events|
    requires r.events[i].call.CancelAndRefund? && r.replies[i].Done?
    requires r.events[k].call.Deposit? && r.events[k].call.id == r.events[i].call.id
    ensures r.replies[k].Failed?
  {
    hide Step;
    var id := r.events[i].call.id;
    RunKeepsInv(r, i);
    RunKeepsInv(r, k);
    assert StepsTo(r, i) && StepsTo(r, k);
    RefundCloses(r.states[i], r.events[i].now, r.events[i].call);
    RunGrows(r, i + 1, k, id - 1);
    ClosedRefuses(r.states[i + 1].trades[id - 1], r.states[k], r.events[k].now, r.events[k].call);
  }

  // ----- timelocks -----

  /** Only a pause pauses, and pausing again does not move the start of the pause. */
  lemma PauseStep(s: State, now: Timestamp, c: Call)
    requires Inv(s)
    ensures var s' := Step(s, now, c).0;
            s'.paused ==> if s.paused then s'.pausedAt == s.pausedAt else c.Pause? && s'.pausedAt == Some(now)
  {
    hide Sum, Filter, Deposited, Paid, Returned, RefundMoves;
  }

  /** A paused contract was paused by one call and has been paused ever since. */
  lemma {:induction false} PausedSince(r: Run, k: nat) returns (p: nat)
    requires ValidRun(r) && k < |r.states| && r.states[k].paused
    ensures p < k && r.events[p].call.Pause? && r.states[k].pausedAt == Some(r.events[p].now)
    ensures !r.states[p].paused && forall q :: p < q <= k ==> r.states[q].paused
  {
    hide Step;
    RunKeepsInv(r, k);
    var n := k - 1;
    RunKeepsInv(r, n);
    assert StepsTo(r, n);
    PauseStep(r.states[n], r.events[n].now, r.events[n].call);
    if r.states[n].paused {
      p := PausedSince(r, n);
    } else {
      p := n;
    }
  }

  lemma PausedRefuses(s: State, now: Timestamp, c: Call)
    requires s.paused && Step(s, now, c).0.paused && (MovesEscrow(c) || c.Unpause?)
    ensures Step(s, now, c).1.Failed?
  {
    hide Sum, DoRelease;
  }

  lemma EmergencyWaits(s: State, now: Timestamp, c: Call)
    requires c.EmergencyWithdraw? && Step(s, now, c).1.Done?
    ensures s.paused && (s.pausedAt.Some? ==> s.pausedAt.value + EMERGENCY_TIMELOCK_SECS <= now)
  {
  }

  /** A successful emergency withdrawal comes at least 72 hours after a pause that has not been
      lifted since; in between no deposit, release, refund or dispute succeeded. */
  lemma EmergencyNeedsLongPause(r: Run, k: nat) returns (p: nat)
    requires ValidRun(r) && k < |r.events| && r.events[k].call.EmergencyWithdraw? && r.replies[k].Done?
    ensures p < k && r.events[p].call.Pause? && r.events[p].now + 72 * 60 * 60 <= r.events[k].now
    ensures !r.states[p].paused && forall q :: p < q <= k ==> r.states[q].paused
    ensures forall q :: p < q < k && (MovesEscrow(r.events[q].call) || r.events[q].call.Unpause?) ==> r.replies[q].Failed?
  {
    hide Step;
    assert StepsTo(r, k);
    EmergencyWaits(r.states[k], r.events[k].now, r.events[k].call);
    p := PausedSince(r, k);
    forall q | p < q < k && (MovesEscrow(r.events[q].call) || r.events[q].call.Unpause?) ensures r.replies[q].Failed? {
      assert StepsTo(r, q);
      PausedRefuses(r.states[q], r.events[q].now, r.events[q].call);
    }
  }

  /** A successful `release_by_timelock` comes at least 24 hours after every deposit on the trade. */
  lemma TimelockCoversEveryDeposit(r: Run, i: nat, k: nat)
    requires ValidRun(r) && i < k < |r.events|
    requires r.events[i].call.Deposit? && r.replies[i].Done?
    requires r.events[k].call.ReleaseByTimelock? && r.events[k].call.id == r.events[i].call.id && r.replies[k].Done?
    ensures r.events[i].now + 24 * 60 * 60 <= r.events[k].now
  {
    assert StepsTo(r, i) && StepsTo(r, k);
    RunGrows(r, i + 1, k, r.events[i].call.id - 1);
  }
}

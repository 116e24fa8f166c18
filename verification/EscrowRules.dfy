/** When each call on a trade succeeds, and what it does to everyone's balances, in terms of the fills alone. */
module EscrowRules {
  import opened Sums
  import opened TokenLedger
  import opened EscrowSpec
  import opened EscrowInvariant

  /** What one address gains from a refund. */
  function RefundTo(caller: Address, isAdmin: bool, who: Address): Fill -> int {
    (f: Fill) => if Refundable(f, caller, isAdmin) && f.buyer == who then f.amount else 0
  }

  /** A deposit is taken exactly when the trade is still offered, the buyer is a third party with no
      active fill of it, and the amount fits in what no fill that was not refunded has taken. */
  lemma DepositAcceptedIff(s: State, now: Timestamp, buyer: Address, id: nat, amount: I128)
    requires Inv(s) && s.clock <= now
    ensures DoDeposit(s, now, buyer, id, amount).1.Done? <==>
              && !s.paused && Stored(s, id).Some?
              && var t := s.trades[id - 1];
                 && !t.status.Cancelled? && now < t.expiresAt
                 && buyer != t.seller && s.admin != Some(buyer)
                 && !HoldsActive(t.fills, buyer)
                 && 0 < amount <= t.total - Sum(t.fills, KeptAmount())
                 && Balance(s.log, t.token, buyer) >= amount
  {
    hide Sum, Balance, StoriesOk, CustodyOk;
    if Stored(s, id).Some? {
      assert TradeOk(s.trades[id - 1], s.clock);
    }
  }

  /** The admin can release a fill exactly when it is held in a trade not under dispute and the money is there. */
  lemma ReleaseAcceptedIff(s: State, now: Timestamp, id: nat, fillId: nat)
    requires Inv(s) && s.clock <= now
    ensures DoReleasePayment(s, now, id, fillId).1.Done? <==>
              && !s.paused && 1 <= id <= |s.trades|
              && var t := s.trades[id - 1];
                 && 1 <= fillId <= |t.fills| && t.fills[fillId - 1].state.Held? && !t.status.Disputed?
                 && Balance(s.log, t.token, Custodian) >= t.fills[fillId - 1].amount
  {
    hide Sum, Balance, StoriesOk, CustodyOk;
    if 1 <= id <= |s.trades| {
      HeldStatus(s.trades[id - 1], s.clock);
    }
  }

  /** The seller, or the admin, can do so without the other once the dispute window has closed, and nobody else can. */
  lemma TimelockAcceptedIff(s: State, now: Timestamp, caller: Address, id: nat, fillId: nat)
    requires Inv(s) && s.clock <= now
    ensures DoReleaseByTimelock(s, now, caller, id, fillId).1.Done? <==>
              && DoReleasePayment(s, now, id, fillId).1.Done?
              && (caller == s.trades[id - 1].seller || s.admin == Some(caller))
              && s.trades[id - 1].windowClose.Some? && s.trades[id - 1].windowClose.value <= now
  {
    hide Sum, Balance, StoriesOk, CustodyOk, DoRelease;
    if 1 <= id <= |s.trades| {
      assert TradeOk(s.trades[id - 1], s.clock);
    }
  }

  /** A buyer's own refund works exactly when they hold a fill, the trade has expired and the money is there. */
  lemma SelfRefundAcceptedIff(s: State, now: Timestamp, caller: Address, id: nat)
    requires Inv(s) && s.clock <= now && s.admin != Some(caller)
    ensures DoCancelAndRefund(s, now, caller, id).1.Done? <==>
              && !s.paused && 1 <= id <= |s.trades|
              && var t := s.trades[id - 1];
                 && HoldsActive(t.fills, caller) && t.expiresAt <= now
                 && Balance(s.log, t.token, Custodian) >= Sum(t.fills, RefundAmount(caller, false))
  {
    hide Sum, Balance, StoriesOk, CustodyOk, RefundMoves;
    if 1 <= id <= |s.trades| {
      HeldStatus(s.trades[id - 1], s.clock);
    }
  }

  /** A dispute can be raised exactly on a fully filled trade with something still held and none raised yet,
      by its seller or by anyone who ever bought into it. */
  lemma DisputeAcceptedIff(s: State, now: Timestamp, caller: Address, id: nat)
    requires Inv(s) && s.clock <= now
    ensures DoFlagDispute(s, now, caller, id).1.Done? <==>
              && !s.paused && 1 <= id <= |s.trades|
              && var t := s.trades[id - 1];
                 && Sum(t.fills, KeptAmount()) == t.total && !NoneHeld(t.fills) && !t.status.Disputed?
                 && (caller == t.seller || exists i :: 0 <= i < |t.fills| && t.fills[i].buyer == caller)
  {
    hide Sum, StoriesOk, CustodyOk;
    if 1 <= id <= |s.trades| {
      HeldStatus(s.trades[id - 1], s.clock);
    }
  }

  predicate AllRefunded(fills: seq<Fill>) {
    forall i :: 0 <= i < |fills| ==> fills[i].state.Refunded?
  }

  /** An expired listing can be closed exactly when none of its fills is active or was released, and closing
      strands nothing. */
  lemma CloseAcceptedIff(s: State, now: Timestamp, id: nat)
    requires Inv(s) && s.clock <= now
    ensures DoCloseExpired(s, now, id).1.Done? <==>
              Stored(s, id).Some? && !s.trades[id - 1].status.Cancelled? && s.trades[id - 1].expiresAt <= now &&
              AllRefunded(s.trades[id - 1].fills)
  {
    hide Sum, StoriesOk, CustodyOk;
    if Stored(s, id).Some? {
      var t := s.trades[id - 1];
      assert TradeOk(t, s.clock);
      if AllRefunded(t.fills) {
        SumZero(t.fills, KeptAmount());
      } else if t.status.Open? {
        var i :| 0 <= i < |t.fills| && !t.fills[i].state.Refunded?;
        SumAtLeast(t.fills, KeptAmount(), i);
      }
    }
  }

  /** A deposit takes its amount from the buyer, gives it to the contract, and touches no other balance. */
  lemma DepositMovesBalances(s: State, now: Timestamp, buyer: Address, id: nat, amount: I128, token: Address, who: Address)
    requires DoDeposit(s, now, buyer, id, amount).1.Done? && buyer != Custodian
    ensures Balance(DoDeposit(s, now, buyer, id, amount).0.log, token, who) == Balance(s.log, token, who) +
              (if token != s.trades[id - 1].token then 0 else if who == Custodian then amount else if who == buyer then -amount else 0)
  {
    hide Sum;
    var m := DepositMove(s.trades[id - 1], id, |s.trades[id - 1].fills| + 1, Fill(buyer, amount, Held));
    SumSnoc(s.log, m, Delta(token, who));
  }

  /** A release takes the fill's amount from the contract, gives it to the seller, and touches no other balance. */
  lemma ReleaseMovesBalances(s: State, now: Timestamp, id: nat, fillId: nat, token: Address, who: Address)
    requires Stored(s, id).Some? && DoRelease(s, now, id, fillId).1.Done? && s.trades[id - 1].seller != Custodian
    ensures var t := s.trades[id - 1];
            var amount := t.fills[fillId - 1].amount;
            Balance(DoRelease(s, now, id, fillId).0.log, token, who) == Balance(s.log, token, who) +
              (if token != t.token then 0 else if who == Custodian then -amount else if who == t.seller then amount else 0)
  {
    hide Sum;
    SumSnoc(s.log, PayMove(s.trades[id - 1], id, fillId, s.trades[id - 1].fills[fillId - 1]), Delta(token, who));
  }

  /** A refund gives every address exactly its own refundable fills back, all of it out of the contract. */
  lemma RefundMovesBalances(s: State, now: Timestamp, caller: Address, id: nat, token: Address, who: Address)
    requires Inv(s) && s.clock <= now && DoCancelAndRefund(s, now, caller, id).1.Done?
    ensures var t, isAdmin := s.trades[id - 1], s.admin == Some(caller);
            Balance(DoCancelAndRefund(s, now, caller, id).0.log, token, who) == Balance(s.log, token, who) +
              (if token != t.token then 0
               else if who == Custodian then -Sum(t.fills, RefundAmount(caller, isAdmin))
               else Sum(t.fills, RefundTo(caller, isAdmin, who)))
  {
    hide Sum, StoriesOk, CustodyOk, RefundMoves;
    var t, isAdmin := s.trades[id - 1], s.admin == Some(caller);
    assert TradeOk(t, s.clock);
    var moves := RefundMoves(t, id, caller, isAdmin, |t.fills|);
    SumConcat(s.log, moves, Delta(token, who));
    assert t.fills[..|t.fills|] == t.fills;
    if token != t.token {
      RefundMovesGenuine(t, id, caller, isAdmin, |t.fills|);
      SumZero(moves, Delta(token, who));
    } else if who == Custodian {
      RefundMovesTotals(t, id, caller, isAdmin, |t.fills|);
    } else {
      RefundMovesTo(t, id, caller, isAdmin, |t.fills|, who);
    }
  }

  lemma {:induction false} RefundMovesTo(t: Trade, id: nat, caller: Address, isAdmin: bool, n: nat, who: Address)
    requires n <= |t.fills| && who != Custodian
    ensures Sum(RefundMoves(t, id, caller, isAdmin, n), Delta(t.token, who)) == Sum(t.fills[..n], RefundTo(caller, isAdmin, who))
  {
    hide Sum;
    if n == 0 {
      SumZero(RefundMoves(t, id, caller, isAdmin, n), Delta(t.token, who));
      SumZero(t.fills[..n], RefundTo(caller, isAdmin, who));
    } else {
      RefundMovesTo(t, id, caller, isAdmin, n - 1, who);
      var f, init := t.fills[n - 1], RefundMoves(t, id, caller, isAdmin, n - 1);
      OneMoreMove(t, id, caller, isAdmin, n);
      hide RefundMoves;
      assert t.fills[..n] == t.fills[..n - 1] + [f];
      SumSnoc(t.fills[..n - 1], f, RefundTo(caller, isAdmin, who));
      SumSnoc(init, RefundMove(t, id, n, f), Delta(t.token, who));
    }
  }

  /** A failed or aborted call changes nothing but the time. */
  lemma FailureChangesNothing(s: State, now: Timestamp, c: Call)
    requires Step(s, now, c).1.Failed? || Step(s, now, c).1.Trapped?
    ensures Step(s, now, c).0 == s.(clock := now)
  {
    hide Sum, RefundMoves, Returned, Deposited, Paid;
  }

  // ----- what a call leaves behind -----

  /** The calls about trade `id`. */
  predicate Concerns(c: Call, id: nat) {
    match c
    case Deposit(_, k, _) => k == id
    case ReleasePayment(k, _) => k == id
    case ReleaseByTimelock(_, k, _) => k == id
    case CancelAndRefund(_, k) => k == id
    case CloseExpired(k) => k == id
    case FlagDispute(_, k) => k == id
    case _ => false
  }

  /** A trade changes only by a successful call about it. */
  lemma OthersUntouched(s: State, now: Timestamp, c: Call, id: nat)
    requires 1 <= id <= |s.trades| && !(Step(s, now, c).1.Done? && Concerns(c, id))
    ensures id <= |Step(s, now, c).0.trades| && Step(s, now, c).0.trades[id - 1] == s.trades[id - 1]
  {
    hide Sum, Balance, Returned, Deposited, Paid, RefundMoves;
  }

  /** A listing is taken exactly when its token and category are allowed, its total is positive, and it ends within
      30 days from now; it is then offered as posted, with nothing filled. */
  lemma CreateAcceptedIff(s: State, now: Timestamp, seller: Address, token: Address, total: I128, assetType: Symbol, expiresAt: nat)
    ensures var (s', r) := DoCreate(s, now, seller, token, total, assetType, expiresAt);
            && (r.Created? <==> !s.paused && token in s.tokens && assetType in s.categories && total > 0 &&
                                now < expiresAt <= now + 2_592_000)
            && (r.Created? ==>
                  && r.id == |s.trades| + 1 == |s'.trades| && s'.log == s.log && Stored(s', r.id).Some?
                  && var t := s'.trades[r.id - 1];
                     && t.seller == seller && t.token == token && t.total == total && t.assetType == assetType
                     && t.expiresAt == expiresAt && t.status.Open? && t.fills == [])
  {
  }

  /** A deposit adds one held fill of the buyer and starts the 24 hours anew; the trade is locked when that fills it. */
  lemma DepositLeaves(s: State, now: Timestamp, buyer: Address, id: nat, amount: I128)
    requires Inv(s) && s.clock <= now && DoDeposit(s, now, buyer, id, amount).1.Done?
    ensures var t, t' := s.trades[id - 1], DoDeposit(s, now, buyer, id, amount).0.trades[id - 1];
            && t'.fills == t.fills + [Fill(buyer, amount, Held)] && t'.windowClose == Some(now + 86_400)
            && t'.status == (if Sum(t.fills, KeptAmount()) + amount == t.total then Locked else PartiallyFilled)
            && t'.assetType == t.assetType && t'.stored
  {
    hide Sum, Balance, StoriesOk, CustodyOk;
    assert TradeOk(s.trades[id - 1], s.clock);
  }

  /** A release marks its one fill released and completes the trade exactly when all of the total has been released. */
  lemma ReleaseLeaves(s: State, now: Timestamp, id: nat, fillId: nat)
    requires Inv(s) && s.clock <= now && Releasable(s, id) && DoRelease(s, now, id, fillId).1.Done?
    ensures 1 <= fillId <= |s.trades[id - 1].fills| && |DoRelease(s, now, id, fillId).0.trades| == |s.trades|
    ensures var t, t' := s.trades[id - 1], DoRelease(s, now, id, fillId).0.trades[id - 1];
            && t'.fills == t.fills[fillId - 1 := t.fills[fillId - 1].(state := FillState.Released)]
            && t'.status == (if Sum(t'.fills, ReleasedAmount()) == t.total then Completed else t.status)
            && t'.windowClose == t.windowClose && t'.assetType == t.assetType && t'.stored == t.stored
  {
    hide Sum, Balance, StoriesOk, CustodyOk;
    assert TradeOk(s.trades[id - 1], s.clock);
    PaidOk(s.trades[id - 1], s.clock, now, fillId);
  }

  /** A refund by anyone but the admin leaves the trade open exactly when nothing of it is kept any more, and part
      filled otherwise; it never cancels it.  The admin's always does. */
  lemma RefundLeaves(s: State, now: Timestamp, caller: Address, id: nat)
    requires Inv(s) && s.clock <= now && DoCancelAndRefund(s, now, caller, id).1.Done?
    ensures var t, t' := s.trades[id - 1], DoCancelAndRefund(s, now, caller, id).0.trades[id - 1];
            && t'.status == (if s.admin == Some(caller) then Cancelled
                             else if Sum(t'.fills, KeptAmount()) == 0 then Open else PartiallyFilled)
            && (Sum(t'.fills, KeptAmount()) == 0 <==> AllRefunded(t'.fills))
            && t'.fills == AfterRefund(t.fills, caller, s.admin == Some(caller))
            && t'.windowClose == t.windowClose && t'.assetType == t.assetType && t'.stored
  {
    hide Sum, Balance, StoriesOk, CustodyOk, RefundMoves;
    var t, isAdmin := s.trades[id - 1], s.admin == Some(caller);
    assert TradeOk(t, s.clock);
    RefundBounds(t, caller, isAdmin);
    AfterRefundSums(t.fills, caller, isAdmin);
    KeptNothingIff(AfterRefund(t.fills, caller, isAdmin));
  }

  lemma KeptNothingIff(fills: seq<Fill>)
    requires forall i :: 0 <= i < |fills| ==> fills[i].amount > 0
    ensures Sum(fills, KeptAmount()) == 0 <==> AllRefunded(fills)
  {
    if AllRefunded(fills) {
      SumZero(fills, KeptAmount());
    } else {
      var i :| 0 <= i < |fills| && !fills[i].state.Refunded?;
      SumAtLeast(fills, KeptAmount(), i);
    }
  }

  /** So once the last kept fill has been refunded to its buyer, anyone can close the listing. */
  lemma CloseAfterLastRefund(s: State, now: Timestamp, buyer: Address, id: nat, later: Timestamp)
    requires Inv(s) && s.clock <= now <= later && s.admin != Some(buyer) && DoCancelAndRefund(s, now, buyer, id).1.Done?
    requires AllRefunded(DoCancelAndRefund(s, now, buyer, id).0.trades[id - 1].fills)
    ensures DoCloseExpired(DoCancelAndRefund(s, now, buyer, id).0, later, id).1.Done?
  {
    hide Inv, Sum, Balance, RefundMoves, AllRefunded;
    RefundLeaves(s, now, buyer, id);
    SelfRefundAcceptedIff(s, now, buyer, id);
  }

  /** The admin can cancel exactly the trades that are stored, have something filled, are not finished, and whose
      held fills the contract can pay back. */
  lemma AdminCancelAcceptedIff(s: State, now: Timestamp, admin: Address, id: nat)
    requires Inv(s) && s.clock <= now && s.admin == Some(admin)
    ensures DoCancelAndRefund(s, now, admin, id).1.Done? <==>
              && !s.paused && 1 <= id <= |s.trades|
              && var t := s.trades[id - 1];
                 && !t.status.Cancelled? && !AllRefunded(t.fills) && Sum(t.fills, ReleasedAmount()) < t.total
                 && Balance(s.log, t.token, Custodian) >= Sum(t.fills, HeldAmount())
  {
    hide Sum, Balance, StoriesOk, CustodyOk, RefundMoves;
    if 1 <= id <= |s.trades| {
      var t := s.trades[id - 1];
      assert TradeOk(t, s.clock);
      HeldStatus(t, s.clock);
      KeptSplits(t.fills);
      KeptNothingIff(t.fills);
      CompletedIff(t, s.clock);
      SumMonotone(t.fills, RefundAmount(admin, true), HeldAmount());
      SumMonotone(t.fills, HeldAmount(), RefundAmount(admin, true));
      SumMonotone(t.fills, ReleasedAmount(), EveryAmount());
    }
  }

  /** A dispute changes the status and nothing else, and while it lasts neither release can get through. */
  lemma DisputeLeaves(s: State, now: Timestamp, caller: Address, id: nat)
    requires DoFlagDispute(s, now, caller, id).1.Done?
    ensures var s' := DoFlagDispute(s, now, caller, id).0;
            && 1 <= id <= |s.trades| == |s'.trades| && s'.trades[id - 1] == s.trades[id - 1].(status := Disputed)
            && s'.log == s.log
  {
  }

  lemma DisputedRefuses(s: State, now: Timestamp, c: Call)
    requires (c.ReleasePayment? || c.ReleaseByTimelock?) && 1 <= c.id <= |s.trades| && s.trades[c.id - 1].status.Disputed?
    ensures Step(s, now, c).1.Failed?
  {
    hide DoRelease;
  }

  /** Closing removes the entry and cancels the trade, and moves nothing. */
  lemma CloseLeaves(s: State, now: Timestamp, id: nat)
    requires DoCloseExpired(s, now, id).1.Done?
    ensures var s' := DoCloseExpired(s, now, id).0;
            && Stored(s', id).None? && |s'.trades| == |s.trades| && s'.log == s.log
            && s'.trades[id - 1] == s.trades[id - 1].(status := Cancelled, stored := false)
  {
  }

  /** A pause can be lifted by the admin once 300 seconds have gone by since it began; an unpaused contract at once. */
  lemma UnpauseAcceptedIff(s: State, now: Timestamp)
    requires Inv(s) && s.clock <= now
    ensures DoUnpause(s, now).1.Done? <==> s.admin.Some? && (s.paused ==> s.pausedAt.value + 300 <= now)
    ensures DoUnpause(s, now).1.Done? ==> !DoUnpause(s, now).0.paused
  {
    hide TradesOk, StoriesOk, CustodyOk;
  }

  /** Money can be withdrawn exactly in a pause of at least 72 hours, up to what the contract holds. */
  lemma EmergencyAcceptedIff(s: State, now: Timestamp, token: Address, recipient: Address, amount: I128)
    requires Inv(s) && s.clock <= now
    ensures DoEmergencyWithdraw(s, now, token, recipient, amount).1.Done? <==>
              s.paused && s.pausedAt.value + 259_200 <= now && 0 < amount <= Balance(s.log, token, Custodian)
  {
    hide TradesOk, StoriesOk, CustodyOk, Balance;
  }

  lemma EmergencyMovesBalances(s: State, now: Timestamp, token: Address, recipient: Address, amount: I128, t: Address, who: Address)
    requires DoEmergencyWithdraw(s, now, token, recipient, amount).1.Done?
    ensures var s' := DoEmergencyWithdraw(s, now, token, recipient, amount).0;
            && s'.trades == s.trades
            && Balance(s'.log, t, who) == Balance(s.log, t, who) +
                 (if t != token || recipient == Custodian then 0
                  else if who == Custodian then -amount else if who == recipient then amount else 0)
  {
    hide Sum;
    SumSnoc(s.log, Move(token, Some(Custodian), recipient, amount, Recovery), Delta(t, who));
  }

  // ----- errors -----

  function Concerned(c: Call): Option<nat> {
    match c
    case Deposit(_, k, _) => Some(k)
    case ReleasePayment(k, _) => Some(k)
    case ReleaseByTimelock(_, k, _) => Some(k)
    case CancelAndRefund(_, k) => Some(k)
    case CloseExpired(k) => Some(k)
    case FlagDispute(_, k) => Some(k)
    case _ => None
  }

  function FillNamed(c: Call): Option<nat> {
    if c.ReleasePayment? || c.ReleaseByTimelock? then Some(c.fillId) else None
  }

  /** The amount a call states. */
  function AmountOf(c: Call): Option<int> {
    if c.CreateListing? then Some(c.total)
    else if c.Deposit? || c.EmergencyWithdraw? then Some(c.amount)
    else None
  }

  /** The caller of c has no business with trade t. */
  predicate NotEntitled(s: State, c: Call, t: Trade) {
    || (c.Deposit? && (c.buyer == t.seller || s.admin == Some(c.buyer)))
    || (c.ReleaseByTimelock? && c.caller != t.seller && s.admin != Some(c.caller))
    || (c.CancelAndRefund? && s.admin != Some(c.caller) && !HoldsActive(t.fills, c.caller))
  }

  predicate StatusForbids(c: Call, status: TradeStatus) {
    match c
    case Deposit(_, _, _) => !status.Open? && !status.PartiallyFilled?
    case ReleasePayment(_, _) => !status.Locked? && !status.PartiallyFilled?
    case ReleaseByTimelock(_, _, _) => !status.Locked? && !status.PartiallyFilled?
    case CancelAndRefund(_, _) => status.Open? || status.Completed? || status.Cancelled?
    case CloseExpired(_) => !status.Open?
    case FlagDispute(_, _) => !status.Locked? && !status.Disputed?
    case _ => false
  }

  predicate TooEarly(s: State, now: Timestamp, c: Call, t: Option<Trade>) {
    || (c.ReleaseByTimelock? && t.Some? && t.value.windowClose.Some? && now < t.value.windowClose.value)
    || (c.CancelAndRefund? && t.Some? && HoldsActive(t.value.fills, c.caller) && now < t.value.expiresAt)
    || (c.EmergencyWithdraw? && s.paused && s.pausedAt.Some? && now < s.pausedAt.value + 259_200)
  }

  /** What an error says of the call it answers. */
  ghost predicate ErrorTrue(s: State, now: Timestamp, c: Call, e: Error) {
    var t := if Concerned(c).Some? then Stored(s, Concerned(c).value) else None;
    match e
    case AlreadyInitialized => c.Initialize? && s.admin.Some?
    case ContractPaused => s.paused && MovesEscrow(c)
    case Unauthorized => s.admin.None? || (t.Some? && NotEntitled(s, c, t.value))
    case TradeNotFound =>
      Concerned(c).Some? && (t.None? || (FillNamed(c).Some? && !(1 <= FillNamed(c).value <= |t.value.fills|)))
    case WrongStatus => (c.EmergencyWithdraw? && !s.paused) || (t.Some? && StatusForbids(c, t.value.status))
    case AlreadyDisputed => t.Some? && t.value.status.Disputed? && (c.ReleaseByTimelock? || c.FlagDispute?)
    case TradeExpired => t.Some? && if c.Deposit? then t.value.expiresAt <= now else c.CloseExpired? && now < t.value.expiresAt
    case InvalidAmount => AmountOf(c).Some? && AmountOf(c).value <= 0
    case InsufficientFunds =>
      || (c.Deposit? && t.Some? && Sum(t.value.fills, KeptAmount()) + c.amount > t.value.total)
      || (c.EmergencyWithdraw? && Balance(s.log, c.token, Custodian) < c.amount)
    case DuplicateFill => c.Deposit? && t.Some? && HoldsActive(t.value.fills, c.buyer)
    case FillAlreadyProcessed =>
      t.Some? && FillNamed(c).Some? && 1 <= FillNamed(c).value <= |t.value.fills| &&
      !t.value.fills[FillNamed(c).value - 1].state.Held?
    case TimelockNotExpired => TooEarly(s, now, c, t)
    case InvalidExpiry => c.CreateListing? && !(now < c.expiresAt <= now + 2_592_000)
    case UnsupportedToken => c.CreateListing? && c.token !in s.tokens
    case InvalidCategory => c.CreateListing? && c.assetType !in s.categories
    case NotAParty =>
      c.FlagDispute? && t.Some? && c.caller != t.value.seller &&
      forall i :: 0 <= i < |t.value.fills| ==> t.value.fills[i].buyer != c.caller
    case PauseCooldownNotExpired => c.Unpause? && s.paused && s.pausedAt.Some? && now < s.pausedAt.value + 300
  }

  /** No call answers with an error that is not so, and a paused contract answers all these calls alike. */
  lemma ErrorsAreTrue(s: State, now: Timestamp, c: Call)
    requires Inv(s) && s.clock <= now
    ensures Step(s, now, c).1.Failed? ==> ErrorTrue(s, now, c, Step(s, now, c).1.error)
    ensures s.paused && MovesEscrow(c) <==> Step(s, now, c).1 == Failed(ContractPaused)
  {
    if c.ReleasePayment? || c.ReleaseByTimelock? {
      ReleaseErrorsAreTrue(s, now, c);
    } else if Concerned(c).Some? {
      TradeErrorsAreTrue(s, now, c);
    } else {
      hide TradesOk, StoriesOk, CustodyOk, Balance;
    }
  }

  lemma ReleaseErrorsAreTrue(s: State, now: Timestamp, c: Call)
    requires Inv(s) && s.clock <= now && (c.ReleasePayment? || c.ReleaseByTimelock?)
    ensures Step(s, now, c).1.Failed? ==> ErrorTrue(s, now, c, Step(s, now, c).1.error)
    ensures s.paused <==> Step(s, now, c).1 == Failed(ContractPaused)
  {
    if Stored(s, c.id).Some? {
      assert TradeOk(s.trades[c.id - 1], s.clock);
      var t := s.trades[c.id - 1];
      if t.status.PartiallyFilled? || t.status.Locked? {
        SomethingFilled(t, s.clock);
      }
    }
    hide Inv, Sum, Balance, Paid, TradeOk;
  }

  lemma SomethingFilled(t: Trade, clock: nat)
    requires TradeOk(t, clock) && (t.status.PartiallyFilled? || t.status.Locked?)
    ensures t.windowClose.Some?
  {
    if |t.fills| == 0 {
      SumZero(t.fills, KeptAmount());
    }
  }

  lemma TradeErrorsAreTrue(s: State, now: Timestamp, c: Call)
    requires Inv(s) && s.clock <= now && Concerned(c).Some? && !c.ReleasePayment? && !c.ReleaseByTimelock?
    ensures Step(s, now, c).1.Failed? ==> ErrorTrue(s, now, c, Step(s, now, c).1.error)
    ensures s.paused && !c.CloseExpired? <==> Step(s, now, c).1 == Failed(ContractPaused)
  {
    if Stored(s, Concerned(c).value).Some? {
      assert TradeOk(s.trades[Concerned(c).value - 1], s.clock);
    }
    hide Inv, Sum, Balance, Returned, Deposited, RefundMoves, FillsOk, OneActivePerBuyer, StatusOk, RefundsAreFinal;
  }

  /** A call is aborted only because its payer cannot cover what it is to pay. */
  lemma TrapsAreTrue(s: State, now: Timestamp, c: Call)
    requires Step(s, now, c).1.Trapped?
    ensures var t := if Concerned(c).Some? then Stored(s, Concerned(c).value) else None;
            || (c.Deposit? && t.Some? && Balance(s.log, t.value.token, c.buyer) < c.amount)
            || (FillNamed(c).Some? && t.Some? && 1 <= FillNamed(c).value <= |t.value.fills| &&
                Balance(s.log, t.value.token, Custodian) < t.value.fills[FillNamed(c).value - 1].amount)
            || (c.CancelAndRefund? && t.Some? &&
                Balance(s.log, t.value.token, Custodian) < Sum(t.value.fills, RefundAmount(c.caller, s.admin == Some(c.caller))))
            || (c.Outside? && c.from.Some? && Balance(s.log, c.token, c.from.value) < c.sent)
  {
    hide Sum, Balance, Returned, Deposited, Paid, RefundMoves;
  }

  /** The settings are the admin's to change, and there is an admin from the first initialisation on. */
  lemma SettingsAcceptedIff(s: State, now: Timestamp, c: Call)
    requires c.Initialize? || c.Pause? || c.AddAllowedToken? || c.RemoveAllowedToken? || c.AddCategory? || c.RemoveCategory? || c.TransferAdmin?
    ensures Step(s, now, c).1.Done? <==> if c.Initialize? then s.admin.None? else s.admin.Some?
    ensures Step(s, now, c).0.trades == s.trades && Step(s, now, c).0.log == s.log
  {
  }
}

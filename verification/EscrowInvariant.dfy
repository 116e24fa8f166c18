/** What every call on the escrow contract keeps. */
module EscrowInvariant {
  import opened Sums
  import opened TokenLedger
  import opened EscrowSpec

  // ----- one trade -----

  ghost predicate FillsOk(t: Trade) {
    forall i :: 0 <= i < |t.fills| ==>
      t.fills[i].amount > 0 && t.fills[i].buyer != Custodian && t.fills[i].buyer != t.seller
  }

  /** At most one active fill per buyer. */
  ghost predicate OneActivePerBuyer(fills: seq<Fill>) {
    forall i, j :: 0 <= i < j < |fills| && fills[i].state.Held? && fills[j].state.Held? ==>
      fills[i].buyer != fills[j].buyer
  }

  /** The status says exactly how much is filled and whether anything is still held. */
  ghost predicate StatusOk(t: Trade) {
    match t.status
    case Open => t.filled == 0
    case PartiallyFilled => 0 < t.filled < t.total
    case Locked => t.filled == t.total && !NoneHeld(t.fills)
    case Disputed => t.filled == t.total && !NoneHeld(t.fills)
    case Completed => t.filled == t.total && NoneHeld(t.fills)
    case Cancelled => NoneHeld(t.fills)
  }

  /** A refund means the trade can take no more deposits. */
  ghost predicate RefundsAreFinal(t: Trade, clock: nat) {
    (exists i :: 0 <= i < |t.fills| && t.fills[i].state.Refunded?) ==> t.status.Cancelled? || t.expiresAt <= clock
  }

  ghost predicate TradeOk(t: Trade, clock: nat) {
    && t.seller != Custodian
    && 0 < t.total <= I128_MAX
    && 0 <= t.filled <= t.total
    && t.filled == Sum(t.fills, KeptAmount())
    && Sum(t.fills, EveryAmount()) <= t.total
    && FillsOk(t)
    && OneActivePerBuyer(t.fills)
    && StatusOk(t)
    && RefundsAreFinal(t, clock)
    && (!t.stored ==> t.status.Cancelled?)
    && (|t.fills| > 0 ==> t.windowClose.Some?)
    && (t.windowClose.Some? ==> t.windowClose.value <= clock + DISPUTE_WINDOW_SECS)
  }

  // ----- the transfer log -----

  /** All the transfers ever made for one fill: the deposit, then at most one payment out. */
  function Story(t: Trade, id: nat, fillId: nat): seq<Move> {
    if !(1 <= fillId <= |t.fills|) then []
    else
      var f := t.fills[fillId - 1];
      match f.state
      case Held => [DepositMove(t, id, fillId, f)]
      case Released => [DepositMove(t, id, fillId, f), PayMove(t, id, fillId, f)]
      case Refunded => [DepositMove(t, id, fillId, f), RefundMove(t, id, fillId, f)]
  }

  ghost predicate TradeStory(log: seq<Move>, id: nat, t: Trade) {
    && (forall fillId: nat :: Filter(log, For(id, fillId)) == Story(t, id, fillId))
    && Sum(log, Receipt(id, t.seller)) == Sum(t.fills, ReleasedAmount())
  }

  /** What trade t holds of `token`. */
  function HeldIn(token: Address): Trade -> int {
    (t: Trade) => if t.token == token then Sum(t.fills, HeldAmount()) else 0
  }

  ghost predicate CustodyOf(s: State, token: Address) {
    && Balance(s.log, token, Custodian) >= 0
    && Balance(s.log, token, Custodian) + Sum(s.log, Withdrawn(token))
       == Sum(s.log, Donated(token)) + Sum(s.trades, HeldIn(token))
  }

  ghost predicate LogInRange(log: seq<Move>, n: nat) {
    forall k :: 0 <= k < |log| && log[k].purpose.ForFill? ==> 1 <= log[k].purpose.trade <= n
  }

  ghost predicate PauseOk(s: State) {
    && (s.paused ==> s.admin.Some? && s.pausedAt.Some? && 1 <= s.pausedAt.value <= s.clock)
    && (!s.paused ==> s.pausedAt == None || s.pausedAt == Some(0))
    && (s.admin.None? ==> s.tokens == {} && s.trades == [])
  }

  ghost predicate TradesOk(trades: seq<Trade>, clock: nat) {
    forall k :: 0 <= k < |trades| ==> TradeOk(trades[k], clock)
  }

  ghost predicate StoriesOk(log: seq<Move>, trades: seq<Trade>) {
    forall k :: 0 <= k < |trades| ==> TradeStory(log, k + 1, trades[k])
  }

  ghost predicate CustodyOk(s: State) {
    forall token :: CustodyOf(s, token)
  }

  ghost predicate Inv(s: State) {
    PauseOk(s) && Genuine(s.log) && LogInRange(s.log, |s.trades|) &&
    TradesOk(s.trades, s.clock) && StoriesOk(s.log, s.trades) && CustodyOk(s)
  }

  // ----- arithmetic of one trade's fills -----

  /** Marking the refundable fills refunded moves exactly their total from held to refunded. */
  lemma {:induction false} AfterRefundSums(fills: seq<Fill>, caller: Address, isAdmin: bool)
    ensures var r := AfterRefund(fills, caller, isAdmin);
            var refund := Sum(fills, RefundAmount(caller, isAdmin));
            && Sum(r, HeldAmount()) == Sum(fills, HeldAmount()) - refund
            && Sum(r, KeptAmount()) == Sum(fills, KeptAmount()) - refund
            && Sum(r, EveryAmount()) == Sum(fills, EveryAmount())
            && Sum(r, ReleasedAmount()) == Sum(fills, ReleasedAmount())
  {
    if |fills| > 0 {
      var n := |fills| - 1;
      AfterRefundSums(fills[..n], caller, isAdmin);
      assert AfterRefund(fills, caller, isAdmin)[..n] == AfterRefund(fills[..n], caller, isAdmin);
    }
  }

  /** Refund bounds: what a refund returns is non-negative and at most what is held, which is at most what is kept. */
  lemma RefundBounds(t: Trade, caller: Address, isAdmin: bool)
    requires FillsOk(t)
    ensures 0 <= Sum(t.fills, RefundAmount(caller, isAdmin)) <= Sum(t.fills, HeldAmount()) <= Sum(t.fills, KeptAmount())
    ensures HoldsActive(t.fills, caller) ==> Sum(t.fills, RefundAmount(caller, isAdmin)) > 0
  {
    SumNonNegative(t.fills, RefundAmount(caller, isAdmin));
    SumMonotone(t.fills, RefundAmount(caller, isAdmin), HeldAmount());
    SumMonotone(t.fills, HeldAmount(), KeptAmount());
    if HoldsActive(t.fills, caller) {
      var i :| 0 <= i < |t.fills| && t.fills[i].state.Held? && t.fills[i].buyer == caller;
      SumAtLeast(t.fills, RefundAmount(caller, isAdmin), i);
    }
  }

  /** What is filled and not refunded is held or has been released. */
  lemma {:induction false} KeptSplits(fills: seq<Fill>)
    ensures Sum(fills, KeptAmount()) == Sum(fills, HeldAmount()) + Sum(fills, ReleasedAmount())
  {
    if |fills| > 0 {
      KeptSplits(fills[..|fills| - 1]);
    }
  }

  /** With no refunded fill, everything ever deposited is still counted as filled. */
  lemma NothingRefunded(fills: seq<Fill>)
    requires forall i :: 0 <= i < |fills| ==> !fills[i].state.Refunded?
    ensures Sum(fills, EveryAmount()) == Sum(fills, KeptAmount())
  {
    SumMonotone(fills, EveryAmount(), KeptAmount());
    SumMonotone(fills, KeptAmount(), EveryAmount());
  }

  /** Only trades that are part filled, locked or disputed can hold funds, and they are all stored. */
  lemma HeldStatus(t: Trade, clock: nat)
    requires TradeOk(t, clock)
    ensures !NoneHeld(t.fills) ==> t.stored && (t.status.PartiallyFilled? || t.status.Locked? || t.status.Disputed?)
    ensures NoneHeld(t.fills) ==> Sum(t.fills, HeldAmount()) == 0
    ensures !NoneHeld(t.fills) ==> 0 < Sum(t.fills, HeldAmount()) <= t.filled
  {
    RefundBounds(t, Custodian, true);
    if NoneHeld(t.fills) {
      SumZero(t.fills, HeldAmount());
    } else {
      var i :| 0 <= i < |t.fills| && t.fills[i].state.Held?;
      SumAtLeast(t.fills, HeldAmount(), i);
    }
  }

  lemma DepositedOk(t: Trade, clock: nat, now: Timestamp, f: Fill)
    requires TradeOk(t, clock) && clock <= now < t.expiresAt
    requires t.status.Open? || t.status.PartiallyFilled?
    requires t.stored
    requires f.state.Held? && f.amount > 0 && f.buyer != Custodian && f.buyer != t.seller
    requires f.amount <= t.total - t.filled && !HoldsActive(t.fills, f.buyer)
    ensures TradeOk(Deposited(t, now, f), now)
    ensures Sum(Deposited(t, now, f).fills, HeldAmount()) == Sum(t.fills, HeldAmount()) + f.amount
    ensures Sum(Deposited(t, now, f).fills, ReleasedAmount()) == Sum(t.fills, ReleasedAmount())
  {
    hide Sum;
    var t' := Deposited(t, now, f);
    NothingRefunded(t.fills);
    SumSnoc(t.fills, f, KeptAmount());
    SumSnoc(t.fills, f, EveryAmount());
    SumSnoc(t.fills, f, HeldAmount());
    SumSnoc(t.fills, f, ReleasedAmount());
    assert t'.fills[|t.fills|] == f;
    assert OneActivePerBuyer(t'.fills);
    assert forall i :: 0 <= i < |t'.fills| ==> !t'.fills[i].state.Refunded?;
  }

  /** A trade is completed exactly when the whole total has been released and it is not cancelled. */
  lemma CompletedIff(t: Trade, clock: nat)
    requires TradeOk(t, clock)
    ensures t.status.Completed? <==> !t.status.Cancelled? && Sum(t.fills, ReleasedAmount()) == t.total
  {
    KeptSplits(t.fills);
    HeldStatus(t, clock);
  }

  /** A release keeps the trade well formed, and completes it exactly when all of the total has been released. */
  lemma PaidOk(t: Trade, clock: nat, now: nat, fillId: nat)
    requires TradeOk(t, clock) && clock <= now
    requires t.status.Locked? || t.status.PartiallyFilled?
    requires 1 <= fillId <= |t.fills| && t.fills[fillId - 1].state.Held?
    ensures TradeOk(Paid(t, fillId), now)
    ensures Sum(Paid(t, fillId).fills, HeldAmount()) == Sum(t.fills, HeldAmount()) - t.fills[fillId - 1].amount
    ensures Sum(Paid(t, fillId).fills, ReleasedAmount()) == Sum(t.fills, ReleasedAmount()) + t.fills[fillId - 1].amount
    ensures Paid(t, fillId).status.Completed? <==> Sum(Paid(t, fillId).fills, ReleasedAmount()) == t.total
  {
    var k, f := fillId - 1, t.fills[fillId - 1].(state := Released);
    SumUpdate(t.fills, k, f, KeptAmount());
    SumUpdate(t.fills, k, f, EveryAmount());
    SumUpdate(t.fills, k, f, HeldAmount());
    SumUpdate(t.fills, k, f, ReleasedAmount());
    var fills := Paid(t, fillId).fills;
    assert forall i :: 0 <= i < |fills| && fills[i].state.Refunded? ==> t.fills[i].state.Refunded?;
    CompletedIff(Paid(t, fillId), now);
  }

  lemma ReturnedOk(t: Trade, clock: nat, now: nat, caller: Address, isAdmin: bool)
    requires TradeOk(t, clock) && clock <= now
    requires t.status.Locked? || t.status.PartiallyFilled? || t.status.Disputed?
    requires t.stored
    requires isAdmin || (t.expiresAt <= now && HoldsActive(t.fills, caller))
    ensures TradeOk(Returned(t, caller, isAdmin), now)
  {
    RefundBounds(t, caller, isAdmin);
    AfterRefundSums(t.fills, caller, isAdmin);
  }

  // ----- keeping the invariant -----

  /** A call that touches one trade keeps the invariant when the trade stays well formed, its
      transfers still tell its story, and custody moves by what the trade now holds more or less. */
  lemma TouchKeepsInv(s: State, s': State, id: nat, t': Trade, moves: seq<Move>)
    requires Inv(s) && 1 <= id <= |s.trades|
    requires s' == s.(clock := s'.clock, trades := s.trades[id - 1 := t'], log := s.log + moves) && s.clock <= s'.clock
    requires TradeOk(t', s'.clock) && t'.token == s.trades[id - 1].token
    requires Genuine(moves) && AllFor(moves, id, t'.token)
    requires TradeStory(s'.log, id, t')
    requires Sum(moves, Delta(t'.token, Custodian)) == Sum(t'.fills, HeldAmount()) - Sum(s.trades[id - 1].fills, HeldAmount())
    requires Balance(s.log, t'.token, Custodian) + Sum(moves, Delta(t'.token, Custodian)) >= 0
    ensures Inv(s')
  {
    TouchTrades(s.trades, s.clock, s'.clock, id, t');
    TouchStories(s.log, s.trades, moves, id, t');
    forall token ensures CustodyOf(s', token) {
      assert CustodyOf(s, token);
      TouchCustody(s, s', id, t', moves, token);
    }
  }

  /** Every move is for some fill of trade `id`, in that trade's token. */
  ghost predicate AllFor(moves: seq<Move>, id: nat, token: Address) {
    forall k :: 0 <= k < |moves| ==>
      moves[k].purpose.ForFill? && moves[k].purpose.trade == id && moves[k].token == token
  }

  lemma TouchTrades(trades: seq<Trade>, clock: nat, clock': nat, id: nat, t': Trade)
    requires TradesOk(trades, clock) && clock <= clock' && 1 <= id <= |trades| && TradeOk(t', clock')
    ensures TradesOk(trades[id - 1 := t'], clock')
  {
    forall k | 0 <= k < |trades| && k != id - 1 ensures TradeOk(trades[k], clock') {
      assert TradeOk(trades[k], clock);
    }
  }

  lemma TouchStories(log: seq<Move>, trades: seq<Trade>, moves: seq<Move>, id: nat, t': Trade)
    requires StoriesOk(log, trades) && 1 <= id <= |trades| && AllFor(moves, id, t'.token)
    requires TradeStory(log + moves, id, t')
    ensures StoriesOk(log + moves, trades[id - 1 := t'])
  {
    hide TradeStory;
    assert forall j :: 0 <= j < |moves| ==> moves[j].purpose.ForFill? && moves[j].purpose.trade == id;
    hide AllFor;
    forall k | 0 <= k < |trades| && k != id - 1 ensures TradeStory(log + moves, k + 1, trades[k]) {
      assert TradeStory(log, k + 1, trades[k]);
      OtherStory(log, moves, k + 1, trades[k]);
    }
  }

  lemma OtherStory(log: seq<Move>, moves: seq<Move>, id: nat, t: Trade)
    requires TradeStory(log, id, t)
    requires forall k :: 0 <= k < |moves| ==> moves[k].purpose.ForFill? ==> moves[k].purpose.trade != id
    ensures TradeStory(log + moves, id, t)
  {
    forall fillId: nat ensures Filter(log + moves, For(id, fillId)) == Story(t, id, fillId) {
      FilterConcat(log, moves, For(id, fillId));
      FilterNone(moves, For(id, fillId));
      assert Filter(log, For(id, fillId)) == Story(t, id, fillId);
    }
    SumConcat(log, moves, Receipt(id, t.seller));
    SumZero(moves, Receipt(id, t.seller));
  }

  lemma TouchCustody(s: State, s': State, id: nat, t': Trade, moves: seq<Move>, token: Address)
    requires CustodyOf(s, token) && 1 <= id <= |s.trades|
    requires s'.trades == s.trades[id - 1 := t'] && s'.log == s.log + moves
    requires t'.token == s.trades[id - 1].token
    requires AllFor(moves, id, t'.token)
    requires Sum(moves, Delta(t'.token, Custodian)) == Sum(t'.fills, HeldAmount()) - Sum(s.trades[id - 1].fills, HeldAmount())
    requires Balance(s.log, t'.token, Custodian) + Sum(moves, Delta(t'.token, Custodian)) >= 0
    ensures CustodyOf(s', token)
  {
    SumConcat(s.log, moves, Delta(token, Custodian));
    SumConcat(s.log, moves, Withdrawn(token));
    SumConcat(s.log, moves, Donated(token));
    SumZero(moves, Withdrawn(token));
    SumZero(moves, Donated(token));
    SumUpdate(s.trades, id - 1, t', HeldIn(token));
    if token != t'.token {
      SumZero(moves, Delta(token, Custodian));
    }
  }

  /** The story and the seller's receipts after one more transfer for fill `fillId`. */
  lemma OneMoveStory(log: seq<Move>, id: nat, t: Trade, t': Trade, fillId: nat, m: Move)
    requires TradeStory(log, id, t) && t'.seller == t.seller
    requires m.purpose == ForFill(id, fillId)
    requires forall i: nat :: i != fillId ==> Story(t', id, i) == Story(t, id, i)
    requires Story(t', id, fillId) == Story(t, id, fillId) + [m]
    requires Sum(t'.fills, ReleasedAmount()) == Sum(t.fills, ReleasedAmount()) + Receipt(id, t.seller)(m)
    ensures TradeStory(log + [m], id, t')
  {
    hide Sum, Filter, Story;
    forall i: nat ensures Filter(log + [m], For(id, i)) == Story(t', id, i) {
      assert Filter(log, For(id, i)) == Story(t, id, i);
      FilterSnoc(log, m, For(id, i));
    }
    SumSnoc(log, m, Receipt(id, t.seller));
  }

  lemma StoryFor(s: State, id: nat)
    requires Inv(s) && 1 <= id <= |s.trades|
    ensures TradeStory(s.log, id, s.trades[id - 1])
  {
    hide TradesOk, CustodyOk, TradeStory;
  }

  /** A deposit or a release: one transfer for one fill. */
  lemma OneMoveKeepsInv(s: State, s': State, id: nat, t': Trade, fillId: nat, m: Move)
    requires Inv(s) && 1 <= id <= |s.trades|
    requires s' == s.(clock := s'.clock, trades := s.trades[id - 1 := t'], log := s.log + [m]) && s.clock <= s'.clock
    requires TradeOk(t', s'.clock) && t'.token == s.trades[id - 1].token == m.token && t'.seller == s.trades[id - 1].seller
    requires m.purpose == ForFill(id, fillId) && m.amount >= 0
    requires forall i: nat :: i != fillId ==> Story(t', id, i) == Story(s.trades[id - 1], id, i)
    requires Story(t', id, fillId) == Story(s.trades[id - 1], id, fillId) + [m]
    requires Sum(t'.fills, ReleasedAmount()) == Sum(s.trades[id - 1].fills, ReleasedAmount()) + Receipt(id, t'.seller)(m)
    requires Balance(s.log, t'.token, Custodian) + Delta(t'.token, Custodian)(m) >= 0
    requires Delta(t'.token, Custodian)(m) == Sum(t'.fills, HeldAmount()) - Sum(s.trades[id - 1].fills, HeldAmount())
    ensures Inv(s')
  {
    StoryFor(s, id);
    hide Inv, Sum, Story, Filter, Balance, TradeOk, TradeStory;
    OneMoveStory(s.log, id, s.trades[id - 1], t', fillId, m);
    SumOne(m, Delta(t'.token, Custodian));
    TouchKeepsInv(s, s', id, t', [m]);
  }

  /** Refund transfers, fill by fill. */
  lemma OneMoreMove(t: Trade, id: nat, caller: Address, isAdmin: bool, n: nat)
    requires 0 < n <= |t.fills|
    ensures var init := RefundMoves(t, id, caller, isAdmin, n - 1);
            RefundMoves(t, id, caller, isAdmin, n) ==
              if Refundable(t.fills[n - 1], caller, isAdmin) then init + [RefundMove(t, id, n, t.fills[n - 1])] else init
  {
  }

  lemma {:induction false} RefundMovesOf(t: Trade, id: nat, caller: Address, isAdmin: bool, n: nat, i: nat)
    requires n <= |t.fills|
    ensures Filter(RefundMoves(t, id, caller, isAdmin, n), For(id, i)) ==
            if 1 <= i <= n && Refundable(t.fills[i - 1], caller, isAdmin) then [RefundMove(t, id, i, t.fills[i - 1])] else []
  {
    hide Filter;
    if n == 0 {
      FilterNone(RefundMoves(t, id, caller, isAdmin, n), For(id, i));
    } else {
      RefundMovesOf(t, id, caller, isAdmin, n - 1, i);
      OneMoreMove(t, id, caller, isAdmin, n);
      hide RefundMoves;
      FilterSnoc(RefundMoves(t, id, caller, isAdmin, n - 1), RefundMove(t, id, n, t.fills[n - 1]), For(id, i));
    }
  }

  lemma {:induction false} RefundMovesGenuine(t: Trade, id: nat, caller: Address, isAdmin: bool, n: nat)
    requires n <= |t.fills| && FillsOk(t)
    ensures Genuine(RefundMoves(t, id, caller, isAdmin, n))
    ensures AllFor(RefundMoves(t, id, caller, isAdmin, n), id, t.token)
  {
    if n > 0 {
      RefundMovesGenuine(t, id, caller, isAdmin, n - 1);
    }
  }

  /** A refund takes its total from the contract and pays the seller nothing. */
  lemma {:induction false} RefundMovesTotals(t: Trade, id: nat, caller: Address, isAdmin: bool, n: nat)
    requires n <= |t.fills| && FillsOk(t)
    ensures var moves := RefundMoves(t, id, caller, isAdmin, n);
            && Sum(moves, Delta(t.token, Custodian)) == -Sum(t.fills[..n], RefundAmount(caller, isAdmin))
            && Sum(moves, Receipt(id, t.seller)) == 0
  {
    if n > 0 {
      RefundMovesTotals(t, id, caller, isAdmin, n - 1);
      var f, init := t.fills[n - 1], RefundMoves(t, id, caller, isAdmin, n - 1);
      assert t.fills[..n] == t.fills[..n - 1] + [f];
      SumSnoc(t.fills[..n - 1], f, RefundAmount(caller, isAdmin));
      SumSnoc(init, RefundMove(t, id, n, f), Delta(t.token, Custodian));
      SumSnoc(init, RefundMove(t, id, n, f), Receipt(id, t.seller));
      assert init + [] == init;
    }
  }

  lemma RefundStory(log: seq<Move>, id: nat, t: Trade, caller: Address, isAdmin: bool)
    requires TradeStory(log, id, t) && FillsOk(t)
    ensures TradeStory(log + RefundMoves(t, id, caller, isAdmin, |t.fills|), id, Returned(t, caller, isAdmin))
  {
    hide Filter, Sum, RefundMoves;
    var moves, t' := RefundMoves(t, id, caller, isAdmin, |t.fills|), Returned(t, caller, isAdmin);
    forall i: nat ensures Filter(log + moves, For(id, i)) == Story(t', id, i) {
      assert Filter(log, For(id, i)) == Story(t, id, i);
      FilterConcat(log, moves, For(id, i));
      RefundMovesOf(t, id, caller, isAdmin, |t.fills|, i);
    }
    SumConcat(log, moves, Receipt(id, t.seller));
    RefundMovesTotals(t, id, caller, isAdmin, |t.fills|);
    AfterRefundSums(t.fills, caller, isAdmin);
  }

  lemma CreateKeepsInv(s: State, now: Timestamp, seller: Address, token: Address, total: I128, assetType: Symbol, expiresAt: nat)
    requires Inv(s) && s.clock <= now && seller != Custodian
    ensures Inv(DoCreate(s, now, seller, token, total, assetType, expiresAt).0)
  {
    var s' := DoCreate(s, now, seller, token, total, assetType, expiresAt).0;
    if s'.trades == s.trades {
      QuietKeepsInv(s, s');
    } else {
      NewTradeKeepsInv(s, s', s'.trades[|s.trades|]);
    }
  }

  lemma NewTradeKeepsInv(s: State, s': State, t: Trade)
    requires Inv(s) && s.clock <= s'.clock && s' == s.(clock := s'.clock, trades := s.trades + [t]) && s.admin.Some?
    requires TradeOk(t, s'.clock) && t.fills == []
    ensures Inv(s')
  {
    TouchTradesNew(s.trades, s.clock, s'.clock, t);
    NewStory(s.log, |s.trades|, t);
    forall token ensures CustodyOf(s', token) {
      assert CustodyOf(s, token);
      SumSnoc(s.trades, t, HeldIn(token));
    }
  }

  lemma TouchTradesNew(trades: seq<Trade>, clock: nat, clock': nat, t: Trade)
    requires TradesOk(trades, clock) && clock <= clock' && TradeOk(t, clock')
    ensures TradesOk(trades + [t], clock')
  {
    forall k | 0 <= k < |trades| ensures TradeOk(trades[k], clock') {
      assert TradeOk(trades[k], clock);
    }
  }

  /** Ids not yet given out have no transfers. */
  lemma NewStory(log: seq<Move>, n: nat, t: Trade)
    requires LogInRange(log, n) && t.fills == []
    ensures TradeStory(log, n + 1, t)
  {
    var id := n + 1;
    forall fillId: nat ensures Filter(log, For(id, fillId)) == Story(t, id, fillId) {
      FilterNone(log, For(id, fillId));
    }
    SumZero(log, Receipt(id, t.seller));
  }

  /** A call that leaves trades and transfers alone. */
  lemma QuietKeepsInv(s: State, s': State)
    requires Inv(s) && s'.trades == s.trades && s'.log == s.log && s.clock <= s'.clock && PauseOk(s')
    ensures Inv(s')
  {
    LaterTrades(s.trades, s.clock, s'.clock);
    forall token ensures CustodyOf(s', token) {
      assert CustodyOf(s, token);
    }
  }

  /** Time passing spoils no trade. */
  lemma LaterTrades(trades: seq<Trade>, clock: nat, clock': nat)
    requires TradesOk(trades, clock) && clock <= clock'
    ensures TradesOk(trades, clock')
  {
    forall k | 0 <= k < |trades| ensures TradeOk(trades[k], clock') {
      assert TradeOk(trades[k], clock);
    }
  }

  lemma DepositKeepsInv(s: State, now: Timestamp, buyer: Address, id: nat, amount: I128)
    requires Inv(s) && s.clock <= now && buyer != Custodian
    ensures Inv(DoDeposit(s, now, buyer, id, amount).0)
  {
    hide Sum, Filter;
    var (s', r) := DoDeposit(s, now, buyer, id, amount);
    if r.Done? {
      var t, f := s.trades[id - 1], Fill(buyer, amount, Held);
      var t', m := Deposited(t, now, f), DepositMove(t, id, |t.fills| + 1, f);
      assert TradeOk(t, s.clock);
      assert CustodyOf(s, t.token);
      DepositedOk(t, s.clock, now, f);
      OneMoveKeepsInv(s, s', id, t', |t.fills| + 1, m);
    } else {
      QuietKeepsInv(s, s');
    }
  }

  ghost predicate Releasable(s: State, id: nat) {
    Stored(s, id).Some? && (s.trades[id - 1].status.Locked? || s.trades[id - 1].status.PartiallyFilled?)
  }

  lemma ReleaseKeepsInv(s: State, now: Timestamp, id: nat, fillId: nat)
    requires Inv(s) && s.clock <= now && Releasable(s, id)
    ensures Inv(DoRelease(s, now, id, fillId).0)
  {
    hide Sum, Filter;
    var (s', r) := DoRelease(s, now, id, fillId);
    if r.Done? {
      var t := s.trades[id - 1];
      var t', m := Paid(t, fillId), PayMove(t, id, fillId, t.fills[fillId - 1]);
      assert TradeOk(t, s.clock);
      PaidOk(t, s.clock, now, fillId);
      OneMoveKeepsInv(s, s', id, t', fillId, m);
    } else {
      QuietKeepsInv(s, s');
    }
  }

  lemma RefundKeepsInv(s: State, now: Timestamp, caller: Address, id: nat)
    requires Inv(s) && s.clock <= now
    ensures Inv(DoCancelAndRefund(s, now, caller, id).0)
  {
    var (s', r) := DoCancelAndRefund(s, now, caller, id);
    if r.Done? {
      var t, isAdmin := s.trades[id - 1], s.admin == Some(caller);
      var t', moves := Returned(t, caller, isAdmin), RefundMoves(t, id, caller, isAdmin, |t.fills|);
      assert TradeOk(t, s.clock);
      ReturnedOk(t, s.clock, now, caller, isAdmin);
      assert TradeStory(s.log, id, t);
      RefundStory(s.log, id, t, caller, isAdmin);
      RefundMovesGenuine(t, id, caller, isAdmin, |t.fills|);
      RefundMovesTotals(t, id, caller, isAdmin, |t.fills|);
      assert t.fills[..|t.fills|] == t.fills;
      AfterRefundSums(t.fills, caller, isAdmin);
      TouchKeepsInv(s, s', id, t', moves);
    } else {
      QuietKeepsInv(s, s');
    }
  }

  /** Closing an expired listing and flagging a dispute change the status only. */
  lemma StatusKeepsInv(s: State, s': State, id: nat, t': Trade)
    requires Inv(s) && 1 <= id <= |s.trades| && s.clock <= s'.clock
    requires s' == s.(clock := s'.clock, trades := s.trades[id - 1 := t'], log := s.log + [])
    requires t' == s.trades[id - 1].(status := t'.status, stored := t'.stored) && TradeOk(t', s'.clock)
    ensures Inv(s')
  {
    var t := s.trades[id - 1];
    assert s.log + [] == s.log;
    assert CustodyOf(s, t.token) && TradeStory(s.log, id, t);
    assert forall i: nat :: Story(t', id, i) == Story(t, id, i);
    TouchKeepsInv(s, s', id, t', []);
  }

  lemma CloseKeepsInv(s: State, now: Timestamp, id: nat)
    requires Inv(s) && s.clock <= now
    ensures Inv(DoCloseExpired(s, now, id).0)
  {
    var (s', r) := DoCloseExpired(s, now, id);
    if r.Done? {
      HeldStatus(s.trades[id - 1], s.clock);
      StatusKeepsInv(s, s', id, s'.trades[id - 1]);
    } else {
      QuietKeepsInv(s, s');
    }
  }

  lemma DisputeKeepsInv(s: State, now: Timestamp, caller: Address, id: nat)
    requires Inv(s) && s.clock <= now
    ensures Inv(DoFlagDispute(s, now, caller, id).0)
  {
    var (s', r) := DoFlagDispute(s, now, caller, id);
    if r.Done? {
      assert TradeOk(s.trades[id - 1], s.clock);
      StatusKeepsInv(s, s', id, s'.trades[id - 1]);
    } else {
      QuietKeepsInv(s, s');
    }
  }

  /** A transfer that is for no fill: an outside one, or a withdrawal. */
  lemma LooseMoveKeepsInv(s: State, s': State, m: Move)
    requires Inv(s) && s' == s.(clock := s'.clock, log := s.log + [m]) && s.clock <= s'.clock
    requires !m.purpose.ForFill? && Genuine([m])
    requires m.from == Some(Custodian) ==> Balance(s.log, m.token, Custodian) >= m.amount
    ensures Inv(s')
  {
    forall k | 0 <= k < |s'.trades| ensures TradeStory(s'.log, k + 1, s'.trades[k]) {
      assert TradeStory(s.log, k + 1, s.trades[k]);
      OtherStory(s.log, [m], k + 1, s.trades[k]);
    }
    forall token ensures CustodyOf(s', token) {
      assert CustodyOf(s, token);
      assert [m][0] == m;
      SumSnoc(s.log, m, Delta(token, Custodian));
      SumSnoc(s.log, m, Withdrawn(token));
      SumSnoc(s.log, m, Donated(token));
    }
    LaterTrades(s.trades, s.clock, s'.clock);
    assert Genuine(s'.log) by { assert [m][0] == m; }
  }

  /** Every call, whatever it replies, keeps the invariant. */
  lemma StepKeepsInv(s: State, now: Timestamp, c: Call)
    requires Inv(s) && s.clock <= now && Legal(c)
    ensures Inv(Step(s, now, c).0)
  {
    hide Sum, Filter, TradeOk, DoDeposit, DoRelease, DoCancelAndRefund, DoCloseExpired, DoFlagDispute, DoCreate;
    var s' := Step(s, now, c).0;
    match c
    case CreateListing(seller, token, total, assetType, expiresAt) =>
      CreateKeepsInv(s, now, seller, token, total, assetType, expiresAt);
    case Deposit(buyer, id, amount) => DepositKeepsInv(s, now, buyer, id, amount);
    case ReleasePayment(id, fillId) => ReleaseCallKeepsInv(s, now, c, id, fillId);
    case ReleaseByTimelock(caller, id, fillId) => ReleaseCallKeepsInv(s, now, c, id, fillId);
    case CancelAndRefund(caller, id) => RefundKeepsInv(s, now, caller, id);
    case CloseExpired(id) => CloseKeepsInv(s, now, id);
    case FlagDispute(caller, id) => DisputeKeepsInv(s, now, caller, id);
    case EmergencyWithdraw(token, recipient, amount) =>
      if s'.log != s.log {
        LooseMoveKeepsInv(s, s', s'.log[|s.log|]);
      } else {
        QuietKeepsInv(s, s');
      }
    case Outside(token, from, to, amount) =>
      if s'.log != s.log {
        LooseMoveKeepsInv(s, s', s'.log[|s.log|]);
      } else {
        QuietKeepsInv(s, s');
      }
    case _ => QuietKeepsInv(s, s');
  }

  lemma ReleaseCallKeepsInv(s: State, now: Timestamp, c: Call, id: nat, fillId: nat)
    requires Inv(s) && s.clock <= now
    requires c == ReleasePayment(id, fillId) || (c.ReleaseByTimelock? && c.id == id && c.fillId == fillId)
    ensures Inv(Step(s, now, c).0)
  {
    var s' := Step(s, now, c).0;
    if Releasable(s, id) && s' == DoRelease(s, now, id, fillId).0 {
      ReleaseKeepsInv(s, now, id, fillId);
    } else {
      QuietKeepsInv(s, s');
    }
  }

  lemma StepClock(s: State, now: Timestamp, c: Call)
    ensures Step(s, now, c).0.clock == now
  {
    hide Sum, Filter, RefundMoves, Deposited, Paid, Returned;
  }

  lemma GenesisInv()
    ensures Inv(Genesis)
  {
    forall token ensures CustodyOf(Genesis, token) {}
  }
}

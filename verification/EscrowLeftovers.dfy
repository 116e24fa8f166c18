/** Trades that stay part filled although they hold nothing any more. */
module EscrowLeftovers {
  import opened Sums
  import opened TokenLedger
  import opened EscrowSpec
  import opened EscrowInvariant
  import opened EscrowRules
  import opened EscrowRuns

  /** Part filled with nothing held: exactly the trades holding nothing that have released some of their
      total but not all of it, and were not cancelled.  Refunds have no part in it. */
  lemma LeftoverIff(t: Trade, clock: nat)
    requires TradeOk(t, clock)
    ensures t.status.PartiallyFilled? && NoneHeld(t.fills) <==>
            NoneHeld(t.fills) && !t.status.Cancelled? && 0 < Sum(t.fills, ReleasedAmount()) < t.total
    ensures t.status.PartiallyFilled? && NoneHeld(t.fills) ==> !AllRefunded(t.fills)
  {
    KeptSplits(t.fills);
    HeldStatus(t, clock);
    if AllRefunded(t.fills) {
      SumZero(t.fills, ReleasedAmount());
    }
  }

  ghost predicate Leftover(t: Trade, now: nat) {
    t.stored && t.status.PartiallyFilled? && NoneHeld(t.fills) && t.expiresAt <= now
  }

  /** Once such a trade has expired the only call that changes it is the admin's cancel, on an unpaused
      contract; that always works, moves no money, and changes nothing but the status.  In particular it can
      be neither closed as expired nor refunded by anyone else. */
  lemma OnlyAdminEndsLeftover(s: State, now: Timestamp, c: Call, id: nat)
    requires Inv(s) && s.clock <= now && 1 <= id <= |s.trades| && Leftover(s.trades[id - 1], now)
    ensures var t, (s', r) := s.trades[id - 1], Step(s, now, c);
            && id <= |s'.trades|
            && (s'.trades[id - 1] != t <==>
                !s.paused && c.CancelAndRefund? && c.id == id && s.admin == Some(c.caller))
            && (s'.trades[id - 1] != t ==>
                r.Done? && s'.trades[id - 1] == t.(status := Cancelled) && s'.log == s.log)
  {
    hide Sum, StoriesOk, CustodyOk, DoRelease, DoCancelAndRefund, Balance, RefundMoves;
    assert TradeOk(s.trades[id - 1], s.clock);
    match c
    case CancelAndRefund(_, _) => CancelOnLeftover(s, now, c, id);
    case ReleasePayment(k, fillId) => ReleaseOnLeftover(s, now, k, fillId, id);
    case ReleaseByTimelock(_, k, fillId) => ReleaseOnLeftover(s, now, k, fillId, id);
    case _ =>
  }

  lemma ReleaseOnLeftover(s: State, now: Timestamp, k: nat, fillId: nat, id: nat)
    requires 1 <= id <= |s.trades| && Leftover(s.trades[id - 1], now)
    ensures Stored(s, k).Some? ==>
              |DoRelease(s, now, k, fillId).0.trades| == |s.trades| &&
              DoRelease(s, now, k, fillId).0.trades[id - 1] == s.trades[id - 1]
  {
    hide Sum, Balance;
  }

  lemma CancelOnLeftover(s: State, now: Timestamp, c: Call, id: nat)
    requires Inv(s) && s.clock <= now && 1 <= id <= |s.trades| && Leftover(s.trades[id - 1], now) && c.CancelAndRefund?
    ensures var t, (s', r) := s.trades[id - 1], DoCancelAndRefund(s, now, c.caller, c.id);
            && |s'.trades| == |s.trades|
            && (s'.trades[id - 1] != t <==> !s.paused && c.id == id && s.admin == Some(c.caller))
            && (s'.trades[id - 1] != t ==>
                r.Done? && s'.trades[id - 1] == t.(status := Cancelled) && s'.log == s.log)
  {
    hide Sum, StoriesOk, Balance, AfterRefund, RefundMoves;
    if c.id == id && s.admin == Some(c.caller) {
      var t := s.trades[id - 1];
      NothingToRefund(t, id, c.caller, |t.fills|);
      assert AfterRefund(t.fills, c.caller, true) == t.fills;
      assert s.log + [] == s.log;
      assert CustodyOf(s, t.token);
    }
  }

  lemma {:induction false} NothingToRefund(t: Trade, id: nat, caller: Address, n: nat)
    requires NoneHeld(t.fills) && n <= |t.fills|
    ensures RefundMoves(t, id, caller, true, n) == [] && Sum(t.fills, RefundAmount(caller, true)) == 0
  {
    SumZero(t.fills, RefundAmount(caller, true));
    if n > 0 {
      NothingToRefund(t, id, caller, n - 1);
    }
  }

  // ----- a run that ends in one -----

  const Admin: Address := Account(0)
  const Shop: Address := Account(1)
  const Customer: Address := Account(2)
  const Coin: Address := Account(3)

  /** A trade of 100 takes a single fill of 60, which is released; then the trade expires. */
  const PartSale: seq<Event> := [
    Event(1, Initialize(Admin, {Coin})), Event(1, CreateListing(Shop, Coin, 100, "DATA", 10)),
    Event(1, Call.Outside(Coin, None, Customer, 60)), Event(1, Deposit(Customer, 1, 60)),
    Event(1, ReleasePayment(1, 1)), Event(10, CloseExpired(1))]

  const Offered: Trade := Trade(Shop, Coin, 100, 0, "DATA", Open, 10, true, None, [])
  const Taken: Trade := Offered.(filled := 60, status := PartiallyFilled, windowClose := Some(1 + DISPUTE_WINDOW_SECS),
                                 fills := [Fill(Customer, 60, Held)])
  const Paid60: Trade := Taken.(fills := [Fill(Customer, 60, Released)])
  const Issue: Move := Move(Coin, None, Customer, 60, Purpose.Outside)
  const PayIn: Move := Move(Coin, Some(Customer), Custodian, 60, ForFill(1, 1))

  lemma Listed() returns (s: State, t: State, u: State)
    ensures Step(Genesis, 1, PartSale[0].call) == (s, Done) && Step(s, 1, PartSale[1].call) == (t, Created(1))
    ensures Step(t, 1, PartSale[2].call) == (u, Done)
    ensures u == s.(trades := [Offered], log := [Issue]) && u.admin == Some(Admin) && !u.paused && u.clock == 1
  {
    s := Step(Genesis, 1, PartSale[0].call).0;
    t := Step(s, 1, PartSale[1].call).0;
    assert t.trades == [Offered];
    u := Step(t, 1, PartSale[2].call).0;
    assert u.log == [Issue];
  }

  lemma ThenSold(s: State) returns (t: State)
    requires s.trades == [Offered] && s.log == [Issue] && s.admin == Some(Admin) && !s.paused && s.clock == 1
    ensures Step(s, 1, PartSale[3].call) == (t, Done)
    ensures t == s.(trades := [Taken], log := [Issue] + [PayIn])
  {
    SumOne(Issue, Delta(Coin, Customer));
    assert Balance([Issue], Coin, Customer) == 60;
    hide Sum, Balance;
    t := Step(s, 1, PartSale[3].call).0;
    assert !HoldsActive(Offered.fills, Customer) && s.trades[0] == Offered;
    assert Step(s, 1, PartSale[3].call) == DoDeposit(s, 1, Customer, 1, 60);
    assert Deposited(Offered, 1, Fill(Customer, 60, Held)) == Taken;
    assert t.trades == [Taken];
  }

  lemma ThenReleased(s: State) returns (t: State, u: State)
    requires s.trades == [Taken] && s.log == [Issue] + [PayIn] && s.admin == Some(Admin) && !s.paused && s.clock == 1
    ensures Step(s, 1, PartSale[4].call) == (t, Done) && Step(t, 10, PartSale[5].call) == (u, Failed(WrongStatus))
    ensures u == t.(clock := 10) && t.trades == [Paid60]
  {
    SumOne(Issue, Delta(Coin, Custodian));
    SumSnoc([Issue], PayIn, Delta(Coin, Custodian));
    assert Balance([Issue] + [PayIn], Coin, Custodian) == 60;
    hide Sum, Balance;
    t := Step(s, 1, PartSale[4].call).0;
    assert Paid(Taken, 1) == Paid60;
    assert t.trades == [Paid60];
    u := Step(t, 10, PartSale[5].call).0;
  }

  /** No refund is needed to end there. */
  lemma PartReleaseStays() returns (r: Run)
    ensures ValidRun(r) && r.events == PartSale
    ensures r.replies == [Done, Created(1), Done, Done, Done, Failed(WrongStatus)]
    ensures r.states[6].trades == [Paid60] && Leftover(Paid60, 10)
  {
    hide Step, Sum;
    var s1, s2, s3 := Listed();
    var s4 := ThenSold(s3);
    var s5, s6 := ThenReleased(s4);
    r := Run(PartSale, [Done, Created(1), Done, Done, Done, Failed(WrongStatus)], [Genesis, s1, s2, s3, s4, s5, s6]);
    assert forall k :: 0 <= k < 6 ==> StepsTo(r, k);
  }
}

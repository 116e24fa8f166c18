/** A run that reaches a sale whose release the host aborts although its price is there. */
module MarketOverflow {
  import opened Sums
  import opened TokenLedger
  import opened MarketSpec
  import opened MarketInvariant
  import opened MarketRuns

  const Admin: Address := Account(0)
  const Shop: Address := Account(1)
  const Customer: Address := Account(2)
  const Coin: Address := Account(3)

  function Offer(price: I128): Call {
    CreateListing(Shop, Coin, price, Airtime, "MTN", 1, 10)
  }

  /** One sale brings the shop's recorded volume to the top of i128; then it sells once more, for 1. */
  const Events: seq<Event> := [
    Event(1, Initialize(Admin)), Event(1, Call.Outside(Coin, None, Customer, I128_MAX)), Event(1, Offer(I128_MAX)),
    Event(1, Deposit(Customer, 1)), Event(1, ReleasePayment(1)), Event(1, Call.Outside(Coin, Some(Shop), Customer, 1)),
    Event(1, Offer(1)), Event(1, Deposit(Customer, 2)), Event(1, ReleasePayment(2)), Event(1, CancelAndRefund(Customer, 2))]

  const Moves: seq<Move> := [
    Move(Coin, None, Customer, I128_MAX, Purpose.Outside), Move(Coin, Some(Customer), Custodian, I128_MAX, ForFill(1, 1)),
    Move(Coin, Some(Custodian), Shop, I128_MAX, ForFill(1, 1)), Move(Coin, Some(Shop), Customer, 1, Purpose.Outside),
    Move(Coin, Some(Customer), Custodian, 1, ForFill(2, 1))]

  /** What each party holds after the first n transfers. */
  function Books(n: nat, who: Address): int {
    if who == Customer then (if n == 1 then I128_MAX else if n == 4 then 1 else 0)
    else if who == Custodian then (if n == 2 then I128_MAX else if n == 5 then 1 else 0)
    else if who == Shop then (if n == 3 then I128_MAX else if n >= 4 then I128_MAX - 1 else 0)
    else 0
  }

  lemma {:induction false} BooksAreRight(n: nat, who: Address)
    requires n <= 5
    ensures Balance(Moves[..n], Coin, who) == Books(n, who)
  {
    if n == 0 {
      SumZero(Moves[..0], Delta(Coin, who));
    } else {
      hide Sum, Balance;
      BooksAreRight(n - 1, who);
      assert Moves[..n] == Moves[..n - 1] + [Moves[n - 1]];
      BalanceConcat(Moves[..n - 1], [Moves[n - 1]], Coin, who);
      SumOne(Moves[n - 1], Delta(Coin, who));
    }
  }

  const Big: Listing := Listing(Shop, Coin, I128_MAX, Airtime, "MTN", 1, Active, 1, 10, None, Unsettled)
  const BigSold: Listing := Big.(status := Sold, buyer := Some(Customer))
  const BigPaid: Listing := BigSold.(status := Released, outcome := SellerPaid)
  const Small: Listing := Big.(price := 1)
  const SmallSold: Listing := Small.(status := Sold, buyer := Some(Customer))

  const Full: Reputation := Reputation(1, 0, I128_MAX)

  lemma FirstSale() returns (s: State, t: State, u: State, v: State)
    ensures Step(Genesis, 1, Events[0].call) == (s, Done) && Step(s, 1, Events[1].call) == (t, Done)
    ensures Step(t, 1, Events[2].call) == (u, Created(1)) && Step(u, 1, Events[3].call) == (v, Done)
    ensures v == Genesis.(admin := Some(Admin), listings := [BigSold], log := Moves[..2], clock := 1)
  {
    BooksAreRight(1, Customer);
    hide Sum, Balance;
    s := Step(Genesis, 1, Events[0].call).0;
    t := Step(s, 1, Events[1].call).0;
    assert t.log == Moves[..1];
    u := Step(t, 1, Events[2].call).0;
    assert u.listings == [Big];
    v := Step(u, 1, Events[3].call).0;
    assert v.listings == [BigSold] && v.log == Moves[..2] && v.activeCounts == map[];
  }

  lemma FirstRelease(s: State) returns (t: State, u: State)
    requires s == Genesis.(admin := Some(Admin), listings := [BigSold], log := Moves[..2], clock := 1)
    ensures Step(s, 1, Events[4].call) == (t, Done) && Step(t, 1, Events[5].call) == (u, Done)
    ensures u == s.(listings := [BigPaid], reputations := map[Shop := Full], log := Moves[..4])
  {
    BooksAreRight(2, Custodian);
    BooksAreRight(3, Shop);
    hide Sum, Balance;
    t := Step(s, 1, Events[4].call).0;
    assert t.listings == [BigPaid] && t.log == Moves[..3] && t.reputations == map[Shop := Full];
    u := Step(t, 1, Events[5].call).0;
    assert u.log == Moves[..4];
  }

  lemma SecondSale(s: State) returns (t: State, u: State)
    requires s == Genesis.(admin := Some(Admin), listings := [BigPaid], reputations := map[Shop := Full], log := Moves[..4], clock := 1)
    ensures Step(s, 1, Events[6].call) == (t, Created(2)) && Step(t, 1, Events[7].call) == (u, Done)
    ensures u == s.(listings := [BigPaid, SmallSold], log := Moves)
  {
    BooksAreRight(4, Customer);
    hide Sum, Balance;
    t := Step(s, 1, Events[6].call).0;
    assert t.listings == [BigPaid, Small];
    u := Step(t, 1, Events[7].call).0;
    assert u.listings == [BigPaid, SmallSold] && u.log == Moves && u.activeCounts == map[];
  }

  lemma SecondRelease(s: State) returns (t: State)
    requires s == Genesis.(admin := Some(Admin), listings := [BigPaid, SmallSold], reputations := map[Shop := Full], log := Moves, clock := 1)
    ensures Step(s, 1, Events[8].call) == (s, Trapped) && Step(s, 1, Events[9].call) == (t, Done)
  {
    BooksAreRight(5, Custodian);
    assert Moves[..5] == Moves;
    hide Sum, Balance;
    assert ReputationOf(s.reputations, Shop) == Full;
    t := Step(s, 1, Events[9].call).0;
  }

  /** The second release traps with the money there; the refund of the same sale goes through. */
  lemma ReleaseCanTrap() returns (r: Run)
    ensures ValidRun(r) && r.events == Events
    ensures r.replies == [Done, Done, Created(1), Done, Done, Done, Created(2), Done, Trapped, Done]
    ensures r.states[8].listings == [BigPaid, SmallSold] && Balance(r.states[8].log, Coin, Custodian) == 1 == SmallSold.price
  {
    BooksAreRight(5, Custodian);
    assert Moves[..5] == Moves;
    hide Step, Sum, Balance, ValidRun;
    var s1, s2, s3, s4 := FirstSale();
    var s5, s6 := FirstRelease(s4);
    var s7, s8 := SecondSale(s6);
    var s10 := SecondRelease(s8);
    r := Run(Events, [Done, Done, Created(1), Done, Done, Done, Created(2), Done, Trapped, Done],
             [Genesis, s1, s2, s3, s4, s5, s6, s7, s8, s8, s10]);
    IsRun(r);
  }

  lemma IsRun(r: Run)
    requires |r.events| == |r.replies| == 10 && |r.states| == 11
    requires StepsTo(r, 0) && StepsTo(r, 1) && StepsTo(r, 2) && StepsTo(r, 3) && StepsTo(r, 4)
    requires StepsTo(r, 5) && StepsTo(r, 6) && StepsTo(r, 7) && StepsTo(r, 8) && StepsTo(r, 9)
    requires r.events == Events && r.states[0] == Genesis
    ensures ValidRun(r)
  {
    hide StepsTo, Legal;
    AllAtOnce();
  }

  lemma AllAtOnce()
    ensures |Events| == 10 && forall k :: 0 <= k < 10 ==> Legal(Events[k].call) && Events[k].now == 1
  {
  }
}

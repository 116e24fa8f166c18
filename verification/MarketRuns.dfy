/** Theorems about the marketplace: for every reachable state, and over whole runs.  They count every
    listing ever made; what is lost when ids are given out twice is in MarketReplaced. */
module MarketRuns {
  import opened Sums
  import opened TokenLedger
  import opened MarketSpec
  import opened MarketInvariant

  datatype Event = Event(now: Timestamp, call: Call)

  /** A run: the calls made, the reply to each, and the states before, between and after them. */
  datatype Run = Run(events: seq<Event>, replies: seq<Reply>, states: seq<State>)

  ghost predicate StepsTo(r: Run, k: nat)
    requires k < |r.events| == |r.replies| && |r.states| == |r.events| + 1
  {
    Step(r.states[k], r.events[k].now, r.events[k].call) == (r.states[k + 1], r.replies[k])
  }

  /** A run that goes on from state s. */
  ghost predicate RunFrom(r: Run, s: State) {
    && |r.events| == |r.replies| && |r.states| == |r.events| + 1 && r.states[0] == s
    && (forall k :: 0 <= k < |r.events| ==> StepsTo(r, k))
    && (forall k :: 0 <= k < |r.events| ==> Legal(r.events[k].call) && s.clock <= r.events[k].now)
    && (forall j, k :: 0 <= j < k < |r.events| ==> r.events[j].now <= r.events[k].now)
  }

  ghost predicate ValidRun(r: Run) {
    RunFrom(r, Genesis)
  }

  lemma {:induction false} RunKeepsInv(r: Run, k: nat)
    requires ValidRun(r) && k < |r.states|
    ensures Inv(r.states[k]) && EarningsOk(r.states[k])
    ensures r.states[k].clock == if k == 0 then 0 else r.events[k - 1].now
  {
    hide Step, Inv, EarningsOk;
    if k == 0 {
      GenesisInv();
      assert EarningsOk(Genesis) by { GenesisEarnings(); }
    } else {
      RunKeepsInv(r, k - 1);
      assert StepsTo(r, k - 1);
      StepKeepsInv(r.states[k - 1], r.events[k - 1].now, r.events[k - 1].call);
      StepClock(r.states[k - 1], r.events[k - 1].now, r.events[k - 1].call);
      StepKeepsEarnings(r.states[k - 1], r.events[k - 1].now, r.events[k - 1].call);
    }
  }

  // ----- earnings -----

  function Sellers(listings: seq<Listing>): (r: seq<Address>)
    ensures |r| == |listings| && forall k :: 0 <= k < |listings| ==> r[k] == listings[k].seller
  {
    seq(|listings|, k requires 0 <= k < |listings| => listings[k].seller)
  }

  /** Paid by the contract to `seller` for one of the seller's own listings. */
  function EarnedBy(sellers: seq<Address>, seller: Address): Move -> int {
    (m: Move) =>
      if m.purpose.ForFill? && 1 <= m.purpose.trade <= |sellers| && sellers[m.purpose.trade - 1] == seller &&
         m.from == Some(Custodian) && m.to == seller
      then m.amount else 0
  }

  ghost predicate EarnedIs(s: State, seller: Address) {
    Sum(s.log, EarnedBy(Sellers(s.listings), seller)) == Sum(s.listings, VolumeOf(seller))
  }

  ghost predicate EarningsOk(s: State) {
    forall seller :: EarnedIs(s, seller)
  }

  lemma GenesisEarnings()
    ensures EarningsOk(Genesis)
  {
    forall seller ensures EarnedIs(Genesis, seller) {}
  }

  lemma SumSame<T>(xs: seq<T>, f: T -> int, g: T -> int)
    requires forall i :: 0 <= i < |xs| ==> f(xs[i]) == g(xs[i])
    ensures Sum(xs, f) == Sum(xs, g)
  {
    SumMonotone(xs, f, g);
    SumMonotone(xs, g, f);
  }

  /** One listing changes and one more transfer is made. */
  lemma EarningsMove(s: State, s': State, n: nat, l': Listing, m: Move, seller: Address)
    requires EarnedIs(s, seller) && Made(s, n) && s'.listings == s.listings[n - 1 := l'] && s'.log == s.log + [m]
    requires l'.seller == s.listings[n - 1].seller
    requires EarnedBy(Sellers(s.listings), seller)(m) == VolumeOf(seller)(l') - VolumeOf(seller)(s.listings[n - 1])
    ensures EarnedIs(s', seller)
  {
    hide Sum;
    assert Sellers(s'.listings) == Sellers(s.listings);
    SumSnoc(s.log, m, EarnedBy(Sellers(s.listings), seller));
    SumUpdate(s.listings, n - 1, l', VolumeOf(seller));
  }

  /** One listing changes in a way that is no settlement. */
  lemma EarningsKeep(s: State, s': State, n: nat, l': Listing, seller: Address)
    requires EarnedIs(s, seller) && Made(s, n) && s'.listings == s.listings[n - 1 := l'] && s'.log == s.log
    requires l'.seller == s.listings[n - 1].seller && l'.outcome == s.listings[n - 1].outcome == Unsettled
    ensures EarnedIs(s', seller)
  {
    hide Sum;
    assert Sellers(s'.listings) == Sellers(s.listings);
    SumUpdate(s.listings, n - 1, l', VolumeOf(seller));
  }

  lemma EarningsNew(s: State, s': State, l: Listing, seller: Address)
    requires EarnedIs(s, seller) && LogInRange(s.log, |s.listings|)
    requires s'.listings == s.listings + [l] && s'.log == s.log && l.outcome.Unsettled?
    ensures EarnedIs(s', seller)
  {
    SumSame(s.log, EarnedBy(Sellers(s.listings), seller), EarnedBy(Sellers(s'.listings), seller));
    SumSnoc(s.listings, l, VolumeOf(seller));
  }

  lemma StepKeepsEarnings(s: State, now: Timestamp, c: Call)
    requires Inv(s) && EarningsOk(s) && s.clock <= now && Legal(c)
    ensures EarningsOk(Step(s, now, c).0)
  {
    hide EarningsOk;
    var s' := Step(s, now, c).0;
    forall seller ensures EarnedIs(s', seller) {
      assert EarnedIs(s, seller) by { EarningsFor(s, seller); }
      StepEarns(s, now, c, seller);
    }
    assert EarningsOk(s') by { EarningsFrom(s'); }
  }

  lemma EarningsFor(s: State, seller: Address)
    requires EarningsOk(s)
    ensures EarnedIs(s, seller)
  {
  }

  lemma EarningsFrom(s: State)
    requires forall seller :: EarnedIs(s, seller)
    ensures EarningsOk(s)
  {
  }

  /** Nothing is listed, settled or paid out for a listing. */
  lemma EarningsQuiet(s: State, s': State, seller: Address)
    requires EarnedIs(s, seller) && s'.listings == s.listings
    requires s'.log == s.log || (exists m: Move :: !m.purpose.ForFill? && s'.log == s.log + [m])
    ensures EarnedIs(s', seller)
  {
    if s'.log != s.log {
      var m: Move :| !m.purpose.ForFill? && s'.log == s.log + [m];
      SumSnoc(s.log, m, EarnedBy(Sellers(s.listings), seller));
    }
  }

  lemma StepEarns(s: State, now: Timestamp, c: Call, seller: Address)
    requires Inv(s) && EarnedIs(s, seller) && s.clock <= now && Legal(c)
    ensures EarnedIs(Step(s, now, c).0, seller)
  {
    hide Sum, Balance, EarnedIs, StoriesOk, CustodyOk, IndexOk, RatingsOk, Genuine, Rated, Incremented, Decremented, Place, InUse, LastId;
    var s' := Step(s, now, c).0;
    if (s'.log == s.log && s'.listings == s.listings) || c.EmergencyWithdraw? || c.Outside? {
      EarningsQuiet(s, s', seller);
    } else if c.CreateListing? {
      EarningsNew(s, s', s'.listings[|s.listings|], seller);
    } else if c.UpdateListing? || c.CancelListing? || c.CloseExpired? {
      var n := Serial(s, c.id);
      assert ListingOk(s.listings[n - 1]);
      assert s.log + [] == s.log;
      EarningsKeep(s, s', n, s'.listings[n - 1], seller);
    } else {
      MovingStepEarns(s, now, c, seller);
    }
  }

  lemma MovingStepEarns(s: State, now: Timestamp, c: Call, seller: Address)
    requires Inv(s) && EarnedIs(s, seller) && Step(s, now, c).1.Done?
    requires c.Deposit? || c.ReleasePayment? || c.CancelAndRefund? || c.ResolveDispute?
    ensures EarnedIs(Step(s, now, c).0, seller)
  {
    hide Inv, Sum, Balance, EarnedIs, PayOut, TakeDown, Place, InUse, ListingOk;
    var n := Serial(s, c.id);
    ListingFor(s, n);
    var l := s.listings[n - 1];
    match c
    case Deposit(buyer, id) => DepositEarns(s, now, n, buyer, seller);
    case ReleasePayment(_) => PayOutEarns(s, now, n, l.seller, Released, false, seller);
    case CancelAndRefund(buyer, _) => PayOutEarns(s, now, n, buyer, Cancelled, true, seller);
    case ResolveDispute(_, recipient) =>
      PayOutEarns(s, now, n, recipient, Cancelled, recipient != l.seller, seller);
  }

  lemma DepositEarns(s: State, now: Timestamp, n: nat, buyer: Address, seller: Address)
    requires EarnedIs(s, seller) && Made(s, n) && ListingOk(s.listings[n - 1]) && s.listings[n - 1].status.Active?
    ensures var l := s.listings[n - 1];
            EarnedIs(TakeDown(s, now, n, l.(status := Sold, buyer := Some(buyer)), [DepositMove(l, n, buyer)]).0, seller)
  {
    hide Sum, EarnedIs, Decremented;
    var l := s.listings[n - 1];
    var l' := l.(status := Sold, buyer := Some(buyer));
    EarningsMove(s, TakeDown(s, now, n, l', [DepositMove(l, n, buyer)]).0, n, l', DepositMove(l, n, buyer), seller);
  }

  lemma PayOutEarns(s: State, now: Timestamp, n: nat, payee: Address, status: ListingStatus, disputed: bool, seller: Address)
    requires EarnedIs(s, seller) && Made(s, n) && ListingOk(s.listings[n - 1]) && s.listings[n - 1].status.Sold?
    requires if disputed then s.listings[n - 1].buyer == Some(payee) else payee == s.listings[n - 1].seller
    requires PayOut(s, now, n, payee, status, disputed).1.Done?
    ensures EarnedIs(PayOut(s, now, n, payee, status, disputed).0, seller)
  {
    hide Sum, Balance, EarnedIs, Rated;
    var s' := PayOut(s, now, n, payee, status, disputed).0;
    EarningsMove(s, s', n, s'.listings[n - 1], PayoutMove(s.listings[n - 1], n, payee), seller);
  }

  // ----- theorems about every reachable state -----

  /** The contract holds its donations plus the price of every listing awaiting payment, less
      what was withdrawn in an emergency. */
  lemma CustodyConserved(r: Run, k: nat, token: Address)
    requires ValidRun(r) && k < |r.states|
    ensures var s := r.states[k];
            Balance(s.log, token, Custodian)
            == Sum(s.log, Donated(token)) + Sum(s.listings, SoldIn(token)) - Sum(s.log, Withdrawn(token))
  {
    RunKeepsInv(r, k);
    assert CustodyOf(r.states[k], token);
  }

  /** The per-seller index is exact and capped, and its arithmetic never saturates. */
  lemma IndexExact(r: Run, k: nat, seller: Address)
    requires ValidRun(r) && k < |r.states|
    ensures var s := r.states[k];
            && ActiveCount(s.activeCounts, seller) == Sum(s.listings, ActiveOf(seller)) <= 10
            && (seller in s.activeCounts <==> exists i :: 0 <= i < |s.listings| && s.listings[i].seller == seller && s.listings[i].status.Active?)
            && ActiveCount(s.activeCounts, seller) < U32_MAX
            && forall i :: 0 <= i < |s.listings| && s.listings[i].status.Active? ==>
                 ActiveCount(s.activeCounts, s.listings[i].seller) >= 1
  {
    RunKeepsInv(r, k);
    var s := r.states[k];
    assert IndexOf(s.activeCounts, s.listings, seller);
    if Sum(s.listings, ActiveOf(seller)) > 0 {
      SomeActive(s.listings, seller);
    }
    forall i | 0 <= i < |s.listings| && s.listings[i].status.Active?
      ensures ActiveCount(s.activeCounts, s.listings[i].seller) >= 1 && Sum(s.listings, ActiveOf(s.listings[i].seller)) >= 1
    {
      assert IndexOf(s.activeCounts, s.listings, s.listings[i].seller);
      SumAtLeast(s.listings, ActiveOf(s.listings[i].seller), i);
    }
  }

  lemma {:induction false} SomeActive(listings: seq<Listing>, seller: Address)
    requires Sum(listings, ActiveOf(seller)) > 0
    ensures exists i :: 0 <= i < |listings| && listings[i].seller == seller && listings[i].status.Active?
  {
    var n := |listings| - 1;
    if listings[n].seller == seller && listings[n].status.Active? {
    } else {
      SomeActive(listings[..n], seller);
      var i :| 0 <= i < n && listings[..n][i].seller == seller && listings[..n][i].status.Active?;
      assert listings[i].seller == seller && listings[i].status.Active?;
    }
  }

  /** A seller's record agrees with the listings and with the money: every listing that found a
      buyer and is no longer awaiting payment counts once, and the volume is exactly what the
      contract has paid the seller for the seller's listings. */
  lemma ReputationAgrees(r: Run, k: nat, seller: Address)
    requires ValidRun(r) && k < |r.states|
    ensures var s := r.states[k];
            var rep := ReputationOf(s.reputations, seller);
            && rep.completed + rep.disputed == Sum(s.listings, SettledOf(seller))
            && rep.completed == Sum(s.listings, CompletedOf(seller)) && rep.disputed == Sum(s.listings, DisputedOf(seller))
            && rep.volume == Sum(s.log, EarnedBy(Sellers(s.listings), seller))
  {
    RunKeepsInv(r, k);
    var s := r.states[k];
    assert RatingOf(s.reputations, s.listings, seller) && EarnedIs(s, seller);
    SettledSplits(s.listings, seller);
  }

  lemma {:induction false} SettledSplits(listings: seq<Listing>, seller: Address)
    requires ListingsOk(listings)
    ensures Sum(listings, SettledOf(seller)) == Sum(listings, CompletedOf(seller)) + Sum(listings, DisputedOf(seller))
  {
    if |listings| > 0 {
      var n := |listings| - 1;
      assert ListingOk(listings[n]);
      SettledSplits(listings[..n], seller);
    }
  }

  /** All the money that ever moved for a listing: the buyer paid in the price the listing has
      now, and it was paid out at most once, to the seller or back to that buyer. */
  lemma ListingPaidOnce(r: Run, k: nat, n: nat)
    requires ValidRun(r) && k < |r.states| && Made(r.states[k], n)
    ensures var l := r.states[k].listings[n - 1];
            var moves := Filter(r.states[k].log, For(n, 1));
            match l.buyer
            case None => moves == []
            case Some(b) =>
              var paid := Move(l.token, Some(b), Custodian, l.price, ForFill(n, 1));
              if l.status.Sold? then moves == [paid]
              else exists payee :: (payee == b || payee == l.seller) &&
                     moves == [paid, Move(l.token, Some(Custodian), payee, l.price, ForFill(n, 1))] &&
                     (payee == l.seller <==> l.outcome.SellerPaid?)
  {
    RunKeepsInv(r, k);
    var s, l := r.states[k], r.states[k].listings[n - 1];
    assert StoryOk(s.log, n, l) && ListingOk(l);
    if l.buyer.Some? && !l.status.Sold? {
      var payee := if l.outcome.SellerPaid? then l.seller else l.buyer.value;
      assert Filter(s.log, For(n, 1)) ==
             [DepositMove(l, n, l.buyer.value), PayoutMove(l, n, payee)];
    }
  }

  /** With nothing withdrawn from its token, the price of every sold listing is there to be paid out. */
  lemma Solvent(s: State, id: nat)
    requires Inv(s) && Known(s, id) && At(s, id).status.Sold?
    requires Sum(s.log, Withdrawn(At(s, id).token)) == 0
    ensures Balance(s.log, At(s, id).token, Custodian) >= At(s, id).price
  {
    hide StoriesOk, IndexOk, RatingsOk;
    var l := At(s, id);
    assert CustodyOf(s, l.token);
    SumNonNegative(s.log, Donated(l.token));
    forall i | 0 <= i < |s.listings| ensures SoldIn(l.token)(s.listings[i]) >= 0 {
      assert ListingOk(s.listings[i]);
    }
    SumAtLeast(s.listings, SoldIn(l.token), Serial(s, id) - 1);
  }

  /** Exactly when a sold listing can be settled.  A refund needs only the money; a payment to the seller
      also needs room in the seller's record, since an overflow there aborts the whole call. */
  lemma SettlementSucceedsIff(s: State, now: Timestamp, id: nat)
    requires Inv(s) && !s.paused && s.admin.Some? && Known(s, id) && At(s, id).status.Sold?
    ensures At(s, id).buyer.Some?
    ensures var l := At(s, id);
            var rep, funded := ReputationOf(s.reputations, l.seller), Balance(s.log, l.token, Custodian) >= l.price;
            var payable := funded && rep.completed < U32_MAX && rep.volume + l.price <= I128_MAX;
            var refundable := funded && rep.disputed < U32_MAX;
            && (DoReleasePayment(s, now, id).1.Done? <==> payable)
            && (DoCancelAndRefund(s, now, l.buyer.value, id).1.Done? <==> refundable)
            && (forall to :: DoResolveDispute(s, now, id, to).1.Done? <==>
                               (to == l.seller && payable) || (to == l.buyer.value && refundable))
            && (Sum(s.log, Withdrawn(l.token)) == 0 ==> funded)
  {
    hide Sum, StoriesOk, CustodyOk, IndexOk, RatingsOk, Balance;
    var l := At(s, id);
    assert ListingOk(l);
    if Sum(s.log, Withdrawn(l.token)) == 0 {
      Solvent(s, id);
    }
  }

  // ----- what may change, and what may not -----

  /** One call leaves a listing's seller and token alone, its price and buyer once sold, and
      everything once it is released or cancelled. */
  ghost predicate Keeps(l: Listing, l': Listing) {
    && l'.seller == l.seller && l'.token == l.token && l'.quantity == l.quantity
    && (l.buyer.Some? ==> l'.buyer == l.buyer && l'.price == l.price)
    && (l.status.Released? || l.status.Cancelled? ==> l' == l)
    && (l.status.Sold? ==> !l'.status.Active?)
  }

  lemma StepKeepsListing(s: State, now: Timestamp, c: Call, k: nat)
    requires Inv(s) && k < |s.listings|
    ensures k < |Step(s, now, c).0.listings| && Keeps(s.listings[k], Step(s, now, c).0.listings[k])
  {
    assert ListingOk(s.listings[k]);
    hide Inv, Sum, Balance, Rated, Incremented, Decremented, Place, InUse, LastId;
    if c.ReleasePayment? || c.CancelAndRefund? || c.ResolveDispute? {
      PayingKeepsListing(s, now, c, k);
    } else if c.Deposit? || c.CancelListing? || c.CloseExpired? || c.UpdateListing? {
      OfferKeepsListing(s, now, c, k);
    }
  }

  lemma PayingKeepsListing(s: State, now: Timestamp, c: Call, k: nat)
    requires k < |s.listings| && ListingOk(s.listings[k])
    requires c.ReleasePayment? || c.CancelAndRefund? || c.ResolveDispute?
    ensures k < |Step(s, now, c).0.listings| && Keeps(s.listings[k], Step(s, now, c).0.listings[k])
  {
    hide Sum, Balance, Rated, Incremented, Decremented, Place, InUse, LastId;
  }

  lemma OfferKeepsListing(s: State, now: Timestamp, c: Call, k: nat)
    requires k < |s.listings| && ListingOk(s.listings[k])
    requires c.Deposit? || c.CancelListing? || c.CloseExpired? || c.UpdateListing?
    ensures k < |Step(s, now, c).0.listings| && Keeps(s.listings[k], Step(s, now, c).0.listings[k])
  {
    hide Sum, Balance, Rated, Incremented, Decremented, Place, InUse, LastId;
  }

  lemma {:induction false} RunKeepsListing(r: Run, i: nat, j: nat, k: nat)
    requires ValidRun(r) && i <= j < |r.states| && k < |r.states[i].listings|
    ensures k < |r.states[j].listings| && Keeps(r.states[i].listings[k], r.states[j].listings[k])
    decreases j
  {
    hide Step, Inv;
    if i < j {
      RunKeepsListing(r, i, j - 1, k);
      RunKeepsInv(r, j - 1);
      assert StepsTo(r, j - 1);
      StepKeepsListing(r.states[j - 1], r.events[j - 1].now, r.events[j - 1].call, k);
    }
  }

  // ----- the emergency timelock -----

  lemma PauseStep(s: State, now: Timestamp, c: Call)
    requires PauseOk(s)
    ensures var s' := Step(s, now, c).0;
            s'.paused ==> if s.paused then s'.pausedAt == s.pausedAt else c.Pause? && s'.pausedAt == Some(now)
  {
    hide Sum, Balance;
  }

  /** A paused marketplace was paused by one call and has been paused ever since. */
  lemma {:induction false} PausedSince(r: Run, k: nat) returns (p: nat)
    requires ValidRun(r) && k < |r.states| && r.states[k].paused
    ensures p < k && r.events[p].call.Pause? && r.states[k].pausedAt == Some(r.events[p].now)
    ensures !r.states[p].paused && forall q :: p < q <= k ==> r.states[q].paused
  {
    hide Step;
    var n := k - 1;
    RunKeepsInv(r, n);
    assert StepsTo(r, n);
    PauseStep(r.states[n], r.events[n].now, r.events[n].call);
    if r.states[n].paused {
      p := PausedSince(r, n);
    } else {
      p := n;
    }
  }

  lemma EmergencyWaits(s: State, now: Timestamp, c: Call)
    requires c.EmergencyWithdraw? && Step(s, now, c).1.Done?
    ensures s.paused && (s.pausedAt.Some? ==> s.pausedAt.value + EMERGENCY_TIMELOCK_SECS <= now)
  {
  }

  /** What gets through while the marketplace stays paused. */
  predicate WorksWhilePaused(c: Call) {
    c.Pause? || c.TransferAdmin? || c.EmergencyWithdraw? || c.Outside?
  }

  lemma PausedRefuses(s: State, now: Timestamp, c: Call)
    requires s.paused && s.admin.Some? && Step(s, now, c).0.paused
    ensures Step(s, now, c).1.Failed? || WorksWhilePaused(c)
  {
    hide Sum, Balance;
  }

  /** A successful emergency withdrawal comes at least 72 hours after a pause that has not been
      lifted since; in between nothing was listed, sold, settled or taken down. */
  lemma EmergencyNeedsLongPause(r: Run, k: nat) returns (p: nat)
    requires ValidRun(r) && k < |r.events| && r.events[k].call.EmergencyWithdraw? && r.replies[k].Done?
    ensures p < k && r.events[p].call.Pause? && r.events[p].now + 72 * 60 * 60 <= r.events[k].now
    ensures !r.states[p].paused && forall q :: p < q <= k ==> r.states[q].paused
    ensures forall q :: p < q < k ==> r.replies[q].Failed? || WorksWhilePaused(r.events[q].call)
  {
    hide Step;
    assert StepsTo(r, k);
    EmergencyWaits(r.states[k], r.events[k].now, r.events[k].call);
    p := PausedSince(r, k);
    forall q | p < q < k ensures r.replies[q].Failed? || WorksWhilePaused(r.events[q].call) {
      assert StepsTo(r, q);
      RunKeepsInv(r, q);
      PausedRefuses(r.states[q], r.events[q].now, r.events[q].call);
    }
  }
}

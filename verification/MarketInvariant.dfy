/** What every call on the marketplace keeps, and what follows for every reachable state. */
module MarketInvariant {
  import opened Sums
  import opened TokenLedger
  import opened MarketSpec

  // ----- measures over the listings -----

  function ActiveOf(seller: Address): Listing -> int {
    (l: Listing) => if l.seller == seller && l.status.Active? then 1 else 0
  }

  function CompletedOf(seller: Address): Listing -> int {
    (l: Listing) => if l.seller == seller && l.outcome.SellerPaid? then 1 else 0
  }

  function DisputedOf(seller: Address): Listing -> int {
    (l: Listing) => if l.seller == seller && l.outcome.BuyerRefunded? then 1 else 0
  }

  function VolumeOf(seller: Address): Listing -> int {
    (l: Listing) => if l.seller == seller && l.outcome.SellerPaid? then l.price else 0
  }

  function SoldIn(token: Address): Listing -> int {
    (l: Listing) => if l.token == token && l.status.Sold? then l.price else 0
  }

  /** A seller's listings that found a buyer and are no longer awaiting payment. */
  function SettledOf(seller: Address): Listing -> int {
    (l: Listing) => if l.seller == seller && l.buyer.Some? && !l.status.Sold? then 1 else 0
  }

  // ----- the invariant -----

  ghost predicate ListingOk(l: Listing) {
    && l.seller != Custodian && 0 < l.price <= I128_MAX && 0 < l.quantity <= I128_MAX
    && (l.buyer.Some? ==> l.buyer.value != l.seller && l.buyer.value != Custodian)
    && match l.status
       case Active => l.buyer.None? && l.outcome.Unsettled?
       case Sold => l.buyer.Some? && l.outcome.Unsettled?
       case Released => l.buyer.Some? && l.outcome.SellerPaid?
       case Cancelled => l.buyer.None? <==> l.outcome.Unsettled?
  }

  /** All the transfers ever made for a listing: its price in, then its price out once. */
  function Story(l: Listing, n: nat): seq<Move> {
    if l.buyer.None? then []
    else match l.outcome
      case Unsettled => [DepositMove(l, n, l.buyer.value)]
      case SellerPaid => [DepositMove(l, n, l.buyer.value), PayoutMove(l, n, l.seller)]
      case BuyerRefunded => [DepositMove(l, n, l.buyer.value), PayoutMove(l, n, l.buyer.value)]
  }

  ghost predicate StoryOk(log: seq<Move>, n: nat, l: Listing) {
    Filter(log, For(n, 1)) == Story(l, n)
  }

  ghost predicate CustodyOf(s: State, token: Address) {
    && Balance(s.log, token, Custodian) >= 0
    && Balance(s.log, token, Custodian) + Sum(s.log, Withdrawn(token))
       == Sum(s.log, Donated(token)) + Sum(s.listings, SoldIn(token))
  }

  /** The stored count is the number of active listings, absent exactly when that is zero. */
  ghost predicate IndexOf(counts: map<Address, nat>, listings: seq<Listing>, seller: Address) {
    && ActiveCount(counts, seller) == Sum(listings, ActiveOf(seller)) <= MAX_ACTIVE_LISTINGS_PER_SELLER
    && (seller in counts <==> Sum(listings, ActiveOf(seller)) > 0)
  }

  ghost predicate RatingOf(reps: map<Address, Reputation>, listings: seq<Listing>, seller: Address) {
    var rep := ReputationOf(reps, seller);
    && rep.completed == Sum(listings, CompletedOf(seller)) <= U32_MAX
    && rep.disputed == Sum(listings, DisputedOf(seller)) <= U32_MAX
    && rep.volume == Sum(listings, VolumeOf(seller)) <= I128_MAX
  }

  ghost predicate LogInRange(log: seq<Move>, n: nat) {
    forall k :: 0 <= k < |log| && log[k].purpose.ForFill? ==>
      1 <= log[k].purpose.trade <= n && log[k].purpose.fill == 1
  }

  ghost predicate ListingsOk(listings: seq<Listing>) {
    forall k :: 0 <= k < |listings| ==> ListingOk(listings[k])
  }

  ghost predicate StoriesOk(log: seq<Move>, listings: seq<Listing>) {
    forall k :: 0 <= k < |listings| ==> StoryOk(log, k + 1, listings[k])
  }

  ghost predicate CustodyOk(s: State) {
    forall token :: CustodyOf(s, token)
  }

  ghost predicate IndexOk(s: State) {
    forall seller :: IndexOf(s.activeCounts, s.listings, seller)
  }

  ghost predicate RatingsOk(s: State) {
    forall seller :: RatingOf(s.reputations, s.listings, seller)
  }

  ghost predicate PauseOk(s: State) {
    && (s.paused ==> s.admin.Some? && s.pausedAt.Some? && 1 <= s.pausedAt.value <= s.clock)
    && (!s.paused ==> s.pausedAt.None?)
  }

  /** Only `initialize` makes listings early ones. */
  ghost predicate EarlyOk(s: State) {
    s.early <= |s.listings| && (s.admin.None? ==> s.early == 0)
  }

  ghost predicate Inv(s: State) {
    PauseOk(s) && EarlyOk(s) && Genuine(s.log) && LogInRange(s.log, |s.listings|) && ListingsOk(s.listings) &&
    StoriesOk(s.log, s.listings) && CustodyOk(s) && IndexOk(s) && RatingsOk(s)
  }

  // ----- changing one listing -----

  lemma ListingFor(s: State, n: nat)
    requires Inv(s) && Made(s, n)
    ensures ListingOk(s.listings[n - 1])
  {
  }

  /** A listing and its transfers change; the index and the ratings are dealt with separately. */
  lemma ListingChanges(s: State, s': State, n: nat, l': Listing, moves: seq<Move>)
    requires Inv(s) && Made(s, n) && s'.listings == s.listings[n - 1 := l'] && s'.log == s.log + moves
    requires ListingOk(l') && l'.token == s.listings[n - 1].token && Genuine(moves)
    requires forall k :: 0 <= k < |moves| ==> moves[k].purpose == ForFill(n, 1) && moves[k].token == l'.token
    requires Story(l', n) == Story(s.listings[n - 1], n) + moves
    requires Sum(moves, Delta(l'.token, Custodian)) == SoldIn(l'.token)(l') - SoldIn(l'.token)(s.listings[n - 1])
    requires Balance(s.log, l'.token, Custodian) + Sum(moves, Delta(l'.token, Custodian)) >= 0
    ensures ListingsOk(s'.listings) && Genuine(s'.log) && LogInRange(s'.log, |s'.listings|)
    ensures StoriesOk(s'.log, s'.listings) && CustodyOk(s')
  {
    hide Sum, Filter, Story, IndexOk, RatingsOk;
    ListingStories(s.log, s.listings, n, l', moves);
    forall token ensures CustodyOf(s', token) {
      assert CustodyOf(s, token);
      ListingCustody(s, s', n, l', moves, token);
    }
  }

  lemma ListingStories(log: seq<Move>, listings: seq<Listing>, n: nat, l': Listing, moves: seq<Move>)
    requires StoriesOk(log, listings) && 1 <= n <= |listings|
    requires forall k :: 0 <= k < |moves| ==> moves[k].purpose == ForFill(n, 1)
    requires Story(l', n) == Story(listings[n - 1], n) + moves
    ensures StoriesOk(log + moves, listings[n - 1 := l'])
  {
    hide Filter, Story;
    assert StoryOk(log + moves, n, l') by {
      assert StoryOk(log, n, listings[n - 1]);
      FilterConcat(log, moves, For(n, 1));
      FilterAll(moves, For(n, 1));
    }
    hide StoryOk;
    forall k | 0 <= k < |listings| && k != n - 1 ensures StoryOk(log + moves, k + 1, listings[k]) {
      assert StoryOk(log, k + 1, listings[k]);
      OtherStory(log, k + 1, listings[k], moves);
    }
  }

  lemma OtherStory(log: seq<Move>, n: nat, l: Listing, moves: seq<Move>)
    requires StoryOk(log, n, l)
    requires forall k :: 0 <= k < |moves| ==> moves[k].purpose != ForFill(n, 1)
    ensures StoryOk(log + moves, n, l)
  {
    hide Story;
    FilterConcat(log, moves, For(n, 1));
    FilterNone(moves, For(n, 1));
  }

  lemma ListingCustody(s: State, s': State, n: nat, l': Listing, moves: seq<Move>, token: Address)
    requires CustodyOf(s, token) && Made(s, n)
    requires s'.listings == s.listings[n - 1 := l'] && s'.log == s.log + moves
    requires l'.token == s.listings[n - 1].token
    requires forall k :: 0 <= k < |moves| ==> moves[k].purpose == ForFill(n, 1) && moves[k].token == l'.token
    requires Sum(moves, Delta(l'.token, Custodian)) == SoldIn(l'.token)(l') - SoldIn(l'.token)(s.listings[n - 1])
    requires Balance(s.log, l'.token, Custodian) + Sum(moves, Delta(l'.token, Custodian)) >= 0
    ensures CustodyOf(s', token)
  {
    hide Sum, Balance, Delta;
    BalanceConcat(s.log, moves, token, Custodian);
    SumConcat(s.log, moves, Withdrawn(token));
    SumConcat(s.log, moves, Donated(token));
    FillMoves(moves, n, l'.token, token);
    SumUpdate(s.listings, n - 1, l', SoldIn(token));
  }

  /** Transfers for a listing are no donations and no withdrawals, and leave other tokens alone. */
  lemma FillMoves(moves: seq<Move>, n: nat, moved: Address, token: Address)
    requires forall k :: 0 <= k < |moves| ==> moves[k].purpose == ForFill(n, 1) && moves[k].token == moved
    ensures Sum(moves, Withdrawn(token)) == Sum(moves, Donated(token)) == 0
    ensures token != moved ==> Sum(moves, Delta(token, Custodian)) == 0
  {
    hide Sum;
    SumZero(moves, Withdrawn(token));
    SumZero(moves, Donated(token));
    if token != moved {
      SumZero(moves, Delta(token, Custodian));
    }
  }

  /** Taking an active listing down frees one place in its seller's index and no other. */
  lemma IndexTakesDown(counts: map<Address, nat>, listings: seq<Listing>, n: nat, l': Listing, seller: Address)
    requires IndexOf(counts, listings, seller) && IndexOf(counts, listings, l'.seller) && 1 <= n <= |listings|
    requires listings[n - 1].status.Active? && !l'.status.Active? && l'.seller == listings[n - 1].seller
    ensures IndexOf(Decremented(counts, l'.seller), listings[n - 1 := l'], seller)
  {
    SumUpdate(listings, n - 1, l', ActiveOf(seller));
    SumAtLeast(listings, ActiveOf(l'.seller), n - 1);
  }

  /** A change that neither adds nor removes an active listing leaves the index right. */
  lemma IndexKeeps(counts: map<Address, nat>, listings: seq<Listing>, n: nat, l': Listing, seller: Address)
    requires IndexOf(counts, listings, seller) && 1 <= n <= |listings|
    requires listings[n - 1].status.Active? == l'.status.Active? && l'.seller == listings[n - 1].seller
    ensures IndexOf(counts, listings[n - 1 := l'], seller)
  {
    SumUpdate(listings, n - 1, l', ActiveOf(seller));
  }

  lemma RatingKeeps(reps: map<Address, Reputation>, listings: seq<Listing>, n: nat, l': Listing, seller: Address)
    requires RatingOf(reps, listings, seller) && 1 <= n <= |listings|
    requires l'.seller == listings[n - 1].seller && l'.outcome == listings[n - 1].outcome == Unsettled
    ensures RatingOf(reps, listings[n - 1 := l'], seller)
  {
    SumUpdate(listings, n - 1, l', CompletedOf(seller));
    SumUpdate(listings, n - 1, l', DisputedOf(seller));
    SumUpdate(listings, n - 1, l', VolumeOf(seller));
  }

  lemma RatingSettles(reps: map<Address, Reputation>, listings: seq<Listing>, n: nat, l': Listing, rep: Reputation, seller: Address)
    requires RatingOf(reps, listings, seller) && 1 <= n <= |listings|
    requires l'.seller == listings[n - 1].seller && listings[n - 1].outcome.Unsettled? && !l'.outcome.Unsettled?
    requires Rated(ReputationOf(reps, l'.seller), l'.price, l'.outcome.BuyerRefunded?) == Some(rep)
    ensures RatingOf(reps[l'.seller := rep], listings[n - 1 := l'], seller)
  {
    SumUpdate(listings, n - 1, l', CompletedOf(seller));
    SumUpdate(listings, n - 1, l', DisputedOf(seller));
    SumUpdate(listings, n - 1, l', VolumeOf(seller));
  }

  // ----- the calls -----

  lemma TakeDownKeepsInv(s: State, now: Timestamp, n: nat, l': Listing, moves: seq<Move>)
    requires Inv(s) && s.clock <= now && Made(s, n) && s.listings[n - 1].status.Active?
    requires l' == s.listings[n - 1].(status := l'.status, buyer := l'.buyer) && ListingOk(l') && !l'.status.Active?
    requires if l'.status.Sold? then moves == [DepositMove(l', n, l'.buyer.value)] else moves == [] && l'.buyer.None?
    ensures Inv(TakeDown(s, now, n, l', moves).0)
  {
    hide Sum, Filter, StoriesOk, Decremented;
    var s' := TakeDown(s, now, n, l', moves).0;
    assert ListingOk(s.listings[n - 1]);
    assert CustodyOf(s, l'.token);
    if l'.status.Sold? {
      SumOne(moves[0], Delta(l'.token, Custodian));
    } else {
      SumZero(moves, Delta(l'.token, Custodian));
    }
    ListingChanges(s, s', n, l', moves);
    forall seller ensures IndexOf(s'.activeCounts, s'.listings, seller) && RatingOf(s'.reputations, s'.listings, seller) {
      assert IndexOf(s.activeCounts, s.listings, seller) && IndexOf(s.activeCounts, s.listings, l'.seller);
      IndexTakesDown(s.activeCounts, s.listings, n, l', seller);
      assert RatingOf(s.reputations, s.listings, seller);
      RatingKeeps(s.reputations, s.listings, n, l', seller);
    }
  }

  lemma PayOutKeepsInv(s: State, now: Timestamp, n: nat, payee: Address, status: ListingStatus, disputed: bool)
    requires Inv(s) && s.clock <= now && Made(s, n) && s.listings[n - 1].status.Sold?
    requires if disputed then s.listings[n - 1].buyer == Some(payee) else payee == s.listings[n - 1].seller
    requires status.Cancelled? || (status.Released? && !disputed)
    ensures Inv(PayOut(s, now, n, payee, status, disputed).0)
  {
    var (s', r) := PayOut(s, now, n, payee, status, disputed);
    if r.Done? {
      var l, l' := s.listings[n - 1], s'.listings[n - 1];
      assert ListingOk(l);
      SumOne(PayoutMove(l, n, payee), Delta(l.token, Custodian));
      ListingChanges(s, s', n, l', [PayoutMove(l, n, payee)]);
      forall seller ensures IndexOf(s'.activeCounts, s'.listings, seller) && RatingOf(s'.reputations, s'.listings, seller) {
        assert IndexOf(s.activeCounts, s.listings, seller);
        IndexKeeps(s.activeCounts, s.listings, n, l', seller);
        assert RatingOf(s.reputations, s.listings, seller);
        RatingSettles(s.reputations, s.listings, n, l', s'.reputations[l'.seller], seller);
      }
    } else {
      QuietKeepsInv(s, s');
    }
  }

  lemma UpdateKeepsInv(s: State, now: Timestamp, seller: Address, id: nat, price: I128, expiresAt: nat)
    requires Inv(s) && s.clock <= now
    ensures Inv(DoUpdate(s, now, seller, id, price, expiresAt).0)
  {
    hide Sum, StoriesOk, CustodyOk, IndexOk, RatingsOk;
    var (s', r) := DoUpdate(s, now, seller, id, price, expiresAt);
    if r.Done? {
      assert ListingOk(At(s, id));
      RepriceKeepsInv(s, s', Serial(s, id), s'.listings[Serial(s, id) - 1]);
    } else {
      QuietKeepsInv(s, s');
    }
  }

  lemma RepriceKeepsInv(s: State, s': State, n: nat, l': Listing)
    requires Inv(s) && s.clock <= s'.clock && Made(s, n) && s' == s.(clock := s'.clock, listings := s.listings[n - 1 := l'])
    requires s.listings[n - 1].status.Active? && ListingOk(s.listings[n - 1]) && ListingOk(l')
    requires l' == s.listings[n - 1].(price := l'.price, expiresAt := l'.expiresAt)
    ensures Inv(s')
  {
    hide Sum, StoriesOk, ListingsOk;
    assert CustodyOf(s, l'.token);
    assert s.log + [] == s.log;
    SumZero([], Delta(l'.token, Custodian));
    ListingChanges(s, s', n, l', []);
    forall a ensures IndexOf(s'.activeCounts, s'.listings, a) && RatingOf(s'.reputations, s'.listings, a) {
      assert IndexOf(s.activeCounts, s.listings, a) && RatingOf(s.reputations, s.listings, a);
      IndexKeeps(s.activeCounts, s.listings, n, l', a);
      RatingKeeps(s.reputations, s.listings, n, l', a);
    }
  }

  /** A new listing: no transfers yet, one more active listing of its seller. */
  lemma CreateKeepsInv(s: State, now: Timestamp, c: Call)
    requires Inv(s) && s.clock <= now && c.CreateListing? && Legal(c)
    ensures Inv(Step(s, now, c).0)
  {
    var s' := DoCreate(s, now, c.seller, c.token, c.price, c.category, c.assetType, c.quantity, c.expiresAt).0;
    if s'.listings != s.listings {
      NewListing(s, s', s'.listings[|s.listings|]);
    } else {
      QuietKeepsInv(s, s');
    }
  }

  lemma NewListing(s: State, s': State, l: Listing)
    requires Inv(s) && ListingOk(l) && l.status.Active? && s.clock <= s'.clock
    requires ActiveCount(s.activeCounts, l.seller) < MAX_ACTIVE_LISTINGS_PER_SELLER
    requires s' == s.(clock := s'.clock, listings := s.listings + [l], activeCounts := Incremented(s.activeCounts, l.seller))
    ensures Inv(s')
  {
    hide Sum, Filter;
    FilterNone(s.log, For(|s.listings| + 1, 1));
    forall k | 0 <= k < |s'.listings| ensures StoryOk(s'.log, k + 1, s'.listings[k]) {
      assert k < |s.listings| ==> StoryOk(s.log, k + 1, s.listings[k]);
    }
    forall token ensures CustodyOf(s', token) {
      assert CustodyOf(s, token);
      SumSnoc(s.listings, l, SoldIn(token));
    }
    forall seller ensures IndexOf(s'.activeCounts, s'.listings, seller) && RatingOf(s'.reputations, s'.listings, seller) {
      assert IndexOf(s.activeCounts, s.listings, seller) && IndexOf(s.activeCounts, s.listings, l.seller);
      assert RatingOf(s.reputations, s.listings, seller);
      AddToIndex(s, l, seller);
    }
  }

  lemma AddToIndex(s: State, l: Listing, seller: Address)
    requires IndexOf(s.activeCounts, s.listings, seller) && IndexOf(s.activeCounts, s.listings, l.seller)
    requires RatingOf(s.reputations, s.listings, seller) && l.status.Active? && l.outcome.Unsettled?
    requires ActiveCount(s.activeCounts, l.seller) < MAX_ACTIVE_LISTINGS_PER_SELLER
    ensures IndexOf(Incremented(s.activeCounts, l.seller), s.listings + [l], seller)
    ensures RatingOf(s.reputations, s.listings + [l], seller)
  {
    SumSnoc(s.listings, l, ActiveOf(seller));
    SumSnoc(s.listings, l, CompletedOf(seller));
    SumSnoc(s.listings, l, DisputedOf(seller));
    SumSnoc(s.listings, l, VolumeOf(seller));
  }

  /** A call that leaves listings, transfers, index and ratings alone. */
  lemma QuietKeepsInv(s: State, s': State)
    requires Inv(s) && s'.listings == s.listings && s'.log == s.log && PauseOk(s') && EarlyOk(s')
    requires s'.activeCounts == s.activeCounts && s'.reputations == s.reputations
    ensures Inv(s')
  {
    forall token ensures CustodyOf(s', token) {
      assert CustodyOf(s, token);
    }
  }

  /** A transfer that is for no listing: an outside one, or a withdrawal. */
  lemma LooseMoveKeepsInv(s: State, s': State, m: Move)
    requires Inv(s) && s' == s.(clock := s'.clock, log := s.log + [m]) && s.clock <= s'.clock
    requires !m.purpose.ForFill? && Genuine([m])
    requires m.from == Some(Custodian) ==> Balance(s.log, m.token, Custodian) >= m.amount
    ensures Inv(s')
  {
    assert [m][0] == m;
    forall k | 0 <= k < |s.listings| ensures StoryOk(s'.log, k + 1, s.listings[k]) {
      assert StoryOk(s.log, k + 1, s.listings[k]);
      FilterSnoc(s.log, m, For(k + 1, 1));
    }
    forall token ensures CustodyOf(s', token) {
      assert CustodyOf(s, token);
      SumSnoc(s.log, m, Delta(token, Custodian));
      SumSnoc(s.log, m, Withdrawn(token));
      SumSnoc(s.log, m, Donated(token));
    }
  }

  lemma LooseCallKeepsInv(s: State, now: Timestamp, c: Call)
    requires Inv(s) && s.clock <= now && Legal(c) && (c.EmergencyWithdraw? || c.Outside?)
    ensures Inv(Step(s, now, c).0)
  {
    hide Sum, StoriesOk, CustodyOk, IndexOk, RatingsOk;
    var s' := Step(s, now, c).0;
    if s'.log != s.log {
      LooseMoveKeepsInv(s, s', s'.log[|s.log|]);
    } else {
      QuietKeepsInv(s, s');
    }
  }

  lemma DepositKeepsInv(s: State, now: Timestamp, buyer: Address, id: nat)
    requires Inv(s) && s.clock <= now && buyer != Custodian
    ensures Inv(DoDeposit(s, now, buyer, id).0)
  {
    hide Sum, StoriesOk, CustodyOk, IndexOk, RatingsOk;
    var (s', r) := DoDeposit(s, now, buyer, id);
    if r.Done? {
      var n := Serial(s, id);
      assert ListingOk(s.listings[n - 1]);
      TakeDownKeepsInv(s, now, n, s'.listings[n - 1], [DepositMove(s.listings[n - 1], n, buyer)]);
    } else {
      QuietKeepsInv(s, s');
    }
  }

  /** Cancelling an unsold listing, by its seller or after expiry. */
  lemma CancelKeepsInv(s: State, now: Timestamp, c: Call)
    requires Inv(s) && s.clock <= now && (c.CancelListing? || c.CloseExpired?)
    ensures Inv(Step(s, now, c).0)
  {
    hide Sum, StoriesOk, CustodyOk, IndexOk, RatingsOk, TakeDown;
    if Known(s, c.id) && At(s, c.id).status.Active? {
      assert ListingOk(At(s, c.id));
      TakeDownKeepsInv(s, now, Serial(s, c.id), At(s, c.id).(status := Cancelled), []);
    }
    QuietKeepsInv(s, s.(clock := now));
  }

  lemma PayingCallKeepsInv(s: State, now: Timestamp, c: Call)
    requires Inv(s) && s.clock <= now && (c.ReleasePayment? || c.CancelAndRefund? || c.ResolveDispute?)
    ensures Inv(Step(s, now, c).0)
  {
    hide Sum, StoriesOk, CustodyOk, IndexOk, RatingsOk, PayOut;
    if Known(s, c.id) && At(s, c.id).status.Sold? {
      var l, n := At(s, c.id), Serial(s, c.id);
      assert ListingOk(l);
      PayOutKeepsInv(s, now, n, l.seller, Released, false);
      PayOutKeepsInv(s, now, n, l.seller, Cancelled, false);
      PayOutKeepsInv(s, now, n, l.buyer.value, Cancelled, true);
    }
    QuietKeepsInv(s, s.(clock := now));
  }

  /** Every call, whatever it replies, keeps the invariant. */
  lemma StepKeepsInv(s: State, now: Timestamp, c: Call)
    requires Inv(s) && s.clock <= now && Legal(c)
    ensures Inv(Step(s, now, c).0)
  {
    hide Sum, StoriesOk, CustodyOk, IndexOk, RatingsOk, TakeDown, PayOut, DoDeposit, DoCreate, DoUpdate;
    match c
    case CreateListing(_, _, _, _, _, _, _) => CreateKeepsInv(s, now, c);
    case Deposit(buyer, id) => DepositKeepsInv(s, now, buyer, id);
    case ReleasePayment(_) => PayingCallKeepsInv(s, now, c);
    case CancelAndRefund(_, _) => PayingCallKeepsInv(s, now, c);
    case ResolveDispute(_, _) => PayingCallKeepsInv(s, now, c);
    case UpdateListing(seller, id, price, expiresAt) => UpdateKeepsInv(s, now, seller, id, price, expiresAt);
    case CancelListing(_, _) => CancelKeepsInv(s, now, c);
    case CloseExpired(_) => CancelKeepsInv(s, now, c);
    case EmergencyWithdraw(_, _, _) => LooseCallKeepsInv(s, now, c);
    case Outside(_, _, _, _) => LooseCallKeepsInv(s, now, c);
    case _ => QuietKeepsInv(s, Step(s, now, c).0);
  }

  lemma StepClock(s: State, now: Timestamp, c: Call)
    ensures Step(s, now, c).0.clock == now
  {
    hide Sum;
  }

  lemma GenesisInv()
    ensures Inv(Genesis)
  {
    forall token ensures CustodyOf(Genesis, token) {}
  }
}

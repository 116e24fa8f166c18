/** When each call on a listing succeeds, and what it leaves behind. */
module MarketRules {
  import opened Sums
  import opened TokenLedger
  import opened MarketSpec
  import opened MarketInvariant

  // ----- which listing a call is about -----

  function Concerned(c: Call): Option<nat> {
    match c
    case Deposit(_, id) => Some(id)
    case ReleasePayment(id) => Some(id)
    case CancelAndRefund(_, id) => Some(id)
    case ResolveDispute(id, _) => Some(id)
    case UpdateListing(_, id, _, _) => Some(id)
    case CancelListing(_, id) => Some(id)
    case CloseExpired(id) => Some(id)
    case _ => None
  }

  /** The call is about the n-th listing made. */
  predicate Targets(s: State, c: Call, n: nat) {
    Concerned(c).Some? && Known(s, Concerned(c).value) && Serial(s, Concerned(c).value) == n
  }

  /** A listing changes only by a successful call about it. */
  lemma OthersUntouched(s: State, now: Timestamp, c: Call, n: nat)
    requires Made(s, n) && !(Step(s, now, c).1.Done? && Targets(s, c, n))
    ensures Made(Step(s, now, c).0, n) && Step(s, now, c).0.listings[n - 1] == s.listings[n - 1]
  {
    hide Sum, Balance, Rated, Incremented, Decremented, Place, InUse, LastId;
  }

  // ----- posting and taking -----

  /** A listing is taken exactly when price and quantity are positive, it ends in the future, and its seller has
      fewer than ten active ones; it is then offered as posted under the next id. */
  lemma CreateAcceptedIff(s: State, now: Timestamp, seller: Address, token: Address, price: I128, category: Category,
                          assetType: Symbol, quantity: I128, expiresAt: nat)
    requires Inv(s)
    ensures var (s', r) := DoCreate(s, now, seller, token, price, category, assetType, quantity, expiresAt);
            && (r.Created? <==> !s.paused && price > 0 && quantity > 0 && now < expiresAt && Sum(s.listings, ActiveOf(seller)) < 10)
            && (r.Created? ==>
                  && r.id == Counter(s) + 1 && Known(s', r.id) && s'.log == s.log && |s'.listings| == |s.listings| + 1
                  && At(s', r.id) == s'.listings[|s.listings|]
                  && var l := At(s', r.id);
                     && l.seller == seller && l.token == token && l.price == price && l.category == category
                     && l.assetType == assetType && l.quantity == quantity && l.expiresAt == expiresAt && l.createdAt == now
                     && l.status.Active? && l.buyer.None?)
  {
    assert IndexOf(s.activeCounts, s.listings, seller);
    hide Sum, ListingsOk, StoriesOk, CustodyOk, RatingsOk, IndexOk, Incremented;
  }

  /** A deposit is taken exactly when the listing is offered and has not expired, the buyer is not its seller, and
      can pay the price.  The listing is then sold to that buyer, for one transfer of the price. */
  lemma DepositAcceptedIff(s: State, now: Timestamp, buyer: Address, id: nat)
    requires Inv(s)
    ensures var (s', r) := DoDeposit(s, now, buyer, id);
            && (r.Done? <==> !s.paused && Known(s, id) && var l := At(s, id);
                  l.status.Active? && now < l.expiresAt && buyer != l.seller && Balance(s.log, l.token, buyer) >= l.price)
            && (r.Done? ==>
                  && Known(s', id) && At(s', id) == At(s, id).(status := Sold, buyer := Some(buyer))
                  && s'.log == s.log + [Move(At(s, id).token, Some(buyer), Custodian, At(s, id).price, ForFill(Serial(s, id), 1))])
  {
    hide Inv, Sum, Balance, Decremented, Place, InUse, LastId;
  }

  lemma DepositMovesBalances(s: State, now: Timestamp, buyer: Address, id: nat, token: Address, who: Address)
    requires DoDeposit(s, now, buyer, id).1.Done? && buyer != Custodian
    ensures var l := At(s, id);
            Balance(DoDeposit(s, now, buyer, id).0.log, token, who) == Balance(s.log, token, who) +
              (if token != l.token then 0 else if who == Custodian then l.price else if who == buyer then -l.price else 0)
  {
    hide Sum, Decremented, Place, InUse, LastId;
    SumSnoc(s.log, DepositMove(At(s, id), Serial(s, id), buyer), Delta(token, who));
  }

  // ----- settling -----

  /** Whether the seller's record has room for one more sale, or for one more dispute. */
  predicate CanRate(s: State, l: Listing, disputed: bool) {
    var rep := ReputationOf(s.reputations, l.seller);
    if disputed then rep.disputed < 0xFFFF_FFFF
    else rep.completed < 0xFFFF_FFFF && rep.volume + l.price <= I128_MAX
  }

  /** What every settlement needs: a sold listing whose money is there, and a contract with an admin that is not paused. */
  predicate CanSettle(s: State, id: nat) {
    !s.paused && s.admin.Some? && Known(s, id) && At(s, id).status.Sold? &&
    Balance(s.log, At(s, id).token, Custodian) >= At(s, id).price
  }

  /** Who gets the money of listing n, what the listing becomes, and what nobody else loses. */
  ghost predicate Settles(s: State, s': State, id: nat, payee: Address, status: ListingStatus)
    requires Known(s, id)
  {
    && Known(s', id) && At(s', id) == At(s, id).(status := status, outcome := At(s', id).outcome)
    && s'.log == s.log + [Move(At(s, id).token, Some(Custodian), payee, At(s, id).price, ForFill(Serial(s, id), 1))]
  }

  lemma ReleaseAcceptedIff(s: State, now: Timestamp, id: nat)
    ensures var (s', r) := DoReleasePayment(s, now, id);
            && (r.Done? <==> CanSettle(s, id) && CanRate(s, At(s, id), false))
            && (r.Done? ==> Settles(s, s', id, At(s, id).seller, Released))
  {
    hide Sum, Balance, Place, InUse, LastId;
  }

  lemma RefundAcceptedIff(s: State, now: Timestamp, buyer: Address, id: nat)
    ensures var (s', r) := DoCancelAndRefund(s, now, buyer, id);
            && (r.Done? <==> CanSettle(s, id) && At(s, id).buyer == Some(buyer) && CanRate(s, At(s, id), true))
            && (r.Done? ==> Settles(s, s', id, buyer, Cancelled))
  {
    hide Sum, Balance, Place, InUse, LastId;
  }

  lemma ResolveAcceptedIff(s: State, now: Timestamp, id: nat, recipient: Address)
    ensures var (s', r) := DoResolveDispute(s, now, id, recipient);
            && (r.Done? <==> CanSettle(s, id) && (recipient == At(s, id).seller || At(s, id).buyer == Some(recipient)) &&
                             CanRate(s, At(s, id), recipient != At(s, id).seller))
            && (r.Done? ==> Settles(s, s', id, recipient, Cancelled))
  {
    hide Sum, Balance, Place, InUse, LastId;
  }

  /** A settlement takes the price from the contract, gives it to the payee, and touches no other balance. */
  lemma SettlementMovesBalances(s: State, s': State, id: nat, payee: Address, status: ListingStatus, token: Address, who: Address)
    requires Known(s, id) && Settles(s, s', id, payee, status) && payee != Custodian
    ensures var l := At(s, id);
            Balance(s'.log, token, who) == Balance(s.log, token, who) +
              (if token != l.token then 0 else if who == Custodian then -l.price else if who == payee then l.price else 0)
  {
    hide Sum;
    SumSnoc(s.log, PayoutMove(At(s, id), Serial(s, id), payee), Delta(token, who));
  }

  // ----- changing and taking down an offer -----

  /** Only the seller can change an offer, and only while it is one; it then has the given price and end. */
  lemma UpdateAcceptedIff(s: State, now: Timestamp, seller: Address, id: nat, price: I128, expiresAt: nat)
    ensures var (s', r) := DoUpdate(s, now, seller, id, price, expiresAt);
            && (r.Done? <==> !s.paused && price > 0 && now < expiresAt && Known(s, id) &&
                             At(s, id).seller == seller && At(s, id).status.Active?)
            && (r.Done? ==> Known(s', id) && At(s', id) == At(s, id).(price := price, expiresAt := expiresAt) && s'.log == s.log)
  {
    hide Sum, Balance, Place, InUse, LastId;
  }

  /** Only the seller can take an offer down before it expires, and anyone afterwards; no money moves. */
  lemma TakeDownAcceptedIff(s: State, now: Timestamp, seller: Address, id: nat)
    ensures var (s', r) := DoCancelListing(s, now, seller, id);
            && (r.Done? <==> !s.paused && Known(s, id) && At(s, id).seller == seller && At(s, id).status.Active?)
            && (r.Done? ==> Known(s', id) && At(s', id) == At(s, id).(status := Cancelled) && s'.log == s.log)
    ensures var (s', r) := DoCloseExpired(s, now, id);
            && (r.Done? <==> !s.paused && Known(s, id) && At(s, id).expiresAt <= now && At(s, id).status.Active?)
            && (r.Done? ==> Known(s', id) && At(s', id) == At(s, id).(status := Cancelled) && s'.log == s.log)
  {
    hide Sum, Balance, Decremented, Place, InUse, LastId;
    assert s.log + [] == s.log;
  }

  // ----- the admin's calls -----

  lemma SettingsAcceptedIff(s: State, now: Timestamp, c: Call)
    requires c.Initialize? || c.Pause? || c.Unpause? || c.TransferAdmin?
    ensures Step(s, now, c).1.Done? <==> if c.Initialize? then s.admin.None? else s.admin.Some?
    ensures Step(s, now, c).0.listings == s.listings && Step(s, now, c).0.log == s.log
  {
  }

  /** Money can be withdrawn exactly in a pause of at least 72 hours, up to what the contract holds. */
  lemma EmergencyAcceptedIff(s: State, now: Timestamp, token: Address, recipient: Address, amount: I128)
    requires Inv(s)
    ensures DoEmergencyWithdraw(s, now, token, recipient, amount).1.Done? <==>
              s.paused && s.pausedAt.value + 259_200 <= now && 0 < amount <= Balance(s.log, token, Custodian)
  {
    hide ListingsOk, StoriesOk, CustodyOk, RatingsOk, IndexOk, Balance;
  }

  lemma EmergencyMovesBalances(s: State, now: Timestamp, token: Address, recipient: Address, amount: I128, t: Address, who: Address)
    requires DoEmergencyWithdraw(s, now, token, recipient, amount).1.Done?
    ensures var s' := DoEmergencyWithdraw(s, now, token, recipient, amount).0;
            && s'.listings == s.listings
            && Balance(s'.log, t, who) == Balance(s.log, t, who) +
                 (if t != token || recipient == Custodian then 0
                  else if who == Custodian then -amount else if who == recipient then amount else 0)
  {
    hide Sum;
    SumSnoc(s.log, Move(token, Some(Custodian), recipient, amount, Recovery), Delta(t, who));
  }

  /** A failed or aborted call changes nothing but the time. */
  lemma FailureChangesNothing(s: State, now: Timestamp, c: Call)
    requires Step(s, now, c).1.Failed? || Step(s, now, c).1.Trapped?
    ensures Step(s, now, c).0 == s.(clock := now)
  {
    hide Sum, Rated, Incremented, Decremented, Place, InUse, LastId;
  }

  // ----- errors -----

  predicate NeedsAdmin(c: Call) {
    c.Pause? || c.Unpause? || c.TransferAdmin? || c.ReleasePayment? || c.CancelAndRefund? || c.ResolveDispute? || c.EmergencyWithdraw?
  }

  /** The caller of c has no business with listing l. */
  predicate NotEntitled(c: Call, l: Listing) {
    match c
    case Deposit(buyer, _) => buyer == l.seller
    case CancelAndRefund(buyer, _) => l.buyer != Some(buyer)
    case UpdateListing(seller, _, _, _) => seller != l.seller
    case CancelListing(seller, _) => seller != l.seller
    case _ => false
  }

  predicate PausedCall(c: Call) {
    c.CreateListing? || Concerned(c).Some?
  }

  /** The call states an amount that is not positive. */
  predicate NoAmount(c: Call) {
    (c.CreateListing? && (c.price <= 0 || c.quantity <= 0)) || (c.UpdateListing? && c.price <= 0) || (c.EmergencyWithdraw? && c.amount <= 0)
  }

  /** What an error says of the call it answers. */
  ghost predicate ErrorTrue(s: State, now: Timestamp, c: Call, e: Error) {
    var l := if Concerned(c).Some? && Known(s, Concerned(c).value) then Some(At(s, Concerned(c).value)) else None;
    match e
    case AlreadyInitialized => c.Initialize? && s.admin.Some?
    case ContractPaused => s.paused && PausedCall(c)
    case Unauthorized => (NeedsAdmin(c) && s.admin.None?) || (l.Some? && NotEntitled(c, l.value))
    case TradeNotFound => Concerned(c).Some? && l.None?
    case WrongStatus =>
      || (c.EmergencyWithdraw? && !s.paused)
      || (l.Some? && if c.ReleasePayment? || c.CancelAndRefund? || c.ResolveDispute? then !l.value.status.Sold? else !l.value.status.Active?)
    case TradeExpired => l.Some? && if c.Deposit? then l.value.expiresAt <= now else c.CloseExpired? && now < l.value.expiresAt
    case InsufficientFunds => c.EmergencyWithdraw? && Balance(s.log, c.token, Custodian) < c.amount
    case InvalidExpiry => (c.CreateListing? || c.UpdateListing?) && c.expiresAt <= now
    case TimelockNotExpired => c.EmergencyWithdraw? && s.paused && s.pausedAt.Some? && now < s.pausedAt.value + 259_200
    case InvalidAmount => NoAmount(c)
    case NotAParty => c.ResolveDispute? && l.Some? && c.recipient != l.value.seller && l.value.buyer != Some(c.recipient)
    case StorageLimitExceeded => c.CreateListing? && Sum(s.listings, ActiveOf(c.seller)) >= 10
  }

  /** No call answers with an error that is not so, and a paused contract answers all calls about listings alike. */
  lemma ErrorsAreTrue(s: State, now: Timestamp, c: Call)
    requires Inv(s)
    ensures Step(s, now, c).1.Failed? ==> ErrorTrue(s, now, c, Step(s, now, c).1.error)
    ensures s.paused && PausedCall(c) <==> Step(s, now, c).1 == Failed(ContractPaused)
  {
    if c.ReleasePayment? || c.CancelAndRefund? || c.ResolveDispute? {
      SettlingErrorsAreTrue(s, now, c);
    } else if Concerned(c).Some? {
      OfferErrorsAreTrue(s, now, c);
    } else {
      OtherErrorsAreTrue(s, now, c);
    }
  }

  lemma SettlingErrorsAreTrue(s: State, now: Timestamp, c: Call)
    requires c.ReleasePayment? || c.CancelAndRefund? || c.ResolveDispute?
    ensures Step(s, now, c).1.Failed? ==> ErrorTrue(s, now, c, Step(s, now, c).1.error)
    ensures s.paused && PausedCall(c) <==> Step(s, now, c).1 == Failed(ContractPaused)
  {
    hide Sum, Balance, PayOut, Place, InUse, LastId;
    PayOutNeverFails(s, now, c);
  }

  lemma PayOutNeverFails(s: State, now: Timestamp, c: Call)
    ensures forall n, payee, status, disputed :: Made(s, n) ==> !PayOut(s, now, n, payee, status, disputed).1.Failed?
  {
    hide Sum, Balance, Rated;
  }

  lemma OfferErrorsAreTrue(s: State, now: Timestamp, c: Call)
    requires Concerned(c).Some? && !c.ReleasePayment? && !c.CancelAndRefund? && !c.ResolveDispute?
    ensures Step(s, now, c).1.Failed? ==> ErrorTrue(s, now, c, Step(s, now, c).1.error)
    ensures s.paused && PausedCall(c) <==> Step(s, now, c).1 == Failed(ContractPaused)
  {
    hide Sum, Balance, Incremented, Decremented, Place, InUse, LastId;
  }

  lemma OtherErrorsAreTrue(s: State, now: Timestamp, c: Call)
    requires Inv(s) && Concerned(c).None?
    ensures Step(s, now, c).1.Failed? ==> ErrorTrue(s, now, c, Step(s, now, c).1.error)
    ensures s.paused && PausedCall(c) <==> Step(s, now, c).1 == Failed(ContractPaused)
  {
    if c.CreateListing? {
      assert IndexOf(s.activeCounts, s.listings, c.seller);
    }
    hide Sum, Balance, ListingsOk, StoriesOk, CustodyOk, RatingsOk, IndexOk, Incremented, Decremented;
  }

  /** A call is aborted only because its payer cannot cover what it is to pay, or the seller's record has no room. */
  lemma TrapsAreTrue(s: State, now: Timestamp, c: Call)
    requires Step(s, now, c).1.Trapped?
    ensures if c.Outside? then c.from.Some? && Balance(s.log, c.token, c.from.value) < c.sent
            else
              && Concerned(c).Some? && Known(s, Concerned(c).value)
              && var l := At(s, Concerned(c).value);
                 if c.Deposit? then Balance(s.log, l.token, c.buyer) < l.price
                 else Balance(s.log, l.token, Custodian) < l.price || !CanRate(s, l, false) || !CanRate(s, l, true)
  {
    hide Sum, Balance, Incremented, Decremented, Place, InUse, LastId;
  }
}

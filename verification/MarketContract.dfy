/**
 The marketplace contract as it is written, over its storage entries.  `model` is the
 state of MarketSpec the entries stand for; every method makes exactly the model's step.
 */
module MarketContract {
  import opened Sums
  import opened TokenLedger
  import opened MarketSpec
  import opened MarketInvariant

  datatype StoredListing = StoredListing(
    id: nat, seller: Address, token: Address, price: I128, category: Category, assetType: Symbol, quantity: I128,
    status: ListingStatus, createdAt: nat, expiresAt: nat, buyer: Option<Address>)

  ghost predicate IsListing(e: StoredListing, id: nat, l: Listing) {
    e.id == id && e.seller == l.seller && e.token == l.token && e.price == l.price && e.category == l.category &&
    e.assetType == l.assetType && e.quantity == l.quantity && e.status == l.status && e.createdAt == l.createdAt &&
    e.expiresAt == l.expiresAt && e.buyer == l.buyer
  }

  /** The entries are the listings not overwritten, each under its id. */
  ghost predicate ListingsStored(entries: map<nat, StoredListing>, listings: seq<Listing>, early: nat) {
    && (forall id :: id in entries <==> InUse(|listings|, early, id))
    && (forall id :: id in entries ==> IsListing(entries[id], id, listings[Place(|listings|, early, id) - 1]))
  }

  lemma PutListing(entries: map<nat, StoredListing>, s: State, id: nat, l': Listing, e: StoredListing)
    requires ListingsStored(entries, s.listings, s.early) && Known(s, id) && IsListing(e, id, l')
    ensures ListingsStored(entries[id := e], s.listings[Serial(s, id) - 1 := l'], s.early)
  {
  }

  /** A new listing's entry takes the next id, over whatever is stored there. */
  lemma AddListing(entries: map<nat, StoredListing>, s: State, l: Listing, e: StoredListing)
    requires ListingsStored(entries, s.listings, s.early) && EarlyOk(s) && IsListing(e, Counter(s) + 1, l)
    ensures ListingsStored(entries[Counter(s) + 1 := e], s.listings + [l], s.early)
  {
  }

  /** Setting the counter back leaves every entry where it is. */
  lemma CounterReset(entries: map<nat, StoredListing>, listings: seq<Listing>)
    requires ListingsStored(entries, listings, 0)
    ensures ListingsStored(entries, listings, |listings|)
  {
  }

  lemma VolumeInRange(s: State, seller: Address)
    requires Inv(s)
    ensures ReputationOf(s.reputations, seller).volume <= I128_MAX
  {
    assert RatingOf(s.reputations, s.listings, seller);
  }

  /** Writing a status back changes nothing else of the entry; who was paid is not in it. */
  lemma StatusEntry(e: StoredListing, id: nat, l: Listing, status: ListingStatus, outcome: Outcome)
    requires IsListing(e, id, l)
    ensures IsListing(e.(status := status), id, l.(status := status, outcome := outcome))
    ensures e.seller == l.seller && e.token == l.token && e.price == l.price
  {
  }

  /** The state after a payment, part by part. */
  lemma PayOutParts(s: State, now: Timestamp, n: nat, payee: Address, status: ListingStatus, disputed: bool)
    requires Made(s, n)
    ensures var (s', r), l := PayOut(s, now, n, payee, status, disputed), s.listings[n - 1];
            var rated := Rated(ReputationOf(s.reputations, l.seller), l.price, disputed);
            if Balance(s.log, l.token, Custodian) >= l.price && rated.Some? then
              && r == Done && |s'.listings| == |s.listings|
              && s'.listings[n - 1] == l.(status := status, outcome := s'.listings[n - 1].outcome)
              && s' == s.(clock := now, listings := s.listings[n - 1 := s'.listings[n - 1]],
                          reputations := s.reputations[l.seller := rated.value],
                          log := s.log + [PayoutMove(l, n, payee)])
            else r == Trapped && s' == s.(clock := now)
  {
    hide Balance, Rated, ReputationOf;
  }

  class Contract {
    var admin: Option<Address>
    var listingCounter: nat
    var listings: map<nat, StoredListing>
    var paused: bool
    var pausedAt: Option<nat>
    var reputations: map<Address, Reputation>
    var activeListingCount: map<Address, nat>
    /** The token contracts' own books: what each address holds of each token. */
    var balances: map<(Address, Address), int>

    ghost var model: State

    ghost predicate Valid()
      reads this
    {
      && Inv(model)
      && admin == model.admin && paused == model.paused && pausedAt == model.pausedAt
      && reputations == model.reputations && activeListingCount == model.activeCounts
      && listingCounter == Counter(model)
      && ListingsStored(listings, model.listings, model.early)
      && BalancesStored(balances, model.log)
    }

    /** No storage entry and no balance has changed. */
    twostate predicate StorageUnchanged()
      reads this
    {
      && admin == old(admin) && listingCounter == old(listingCounter) && listings == old(listings)
      && paused == old(paused) && pausedAt == old(pausedAt) && reputations == old(reputations)
      && activeListingCount == old(activeListingCount) && balances == old(balances)
    }

    /** What is stored under one listing id. */
    lemma Find(id: nat)
      requires Valid()
      ensures id in listings <==> Known(model, id)
      ensures id in listings ==> IsListing(listings[id], id, At(model, id)) && ListingOk(At(model, id))
    {
      hide StoriesOk, CustodyOk, IndexOk, RatingsOk, BalancesStored, IsListing, ListingOk;
    }

    lemma Starts()
      requires Valid()
      ensures EarlyOk(model) && ListingsStored(listings, model.listings, model.early)
    {
    }

    constructor ()
      ensures Valid() && model == Genesis
    {
      admin, listingCounter, listings, paused, pausedAt := None, 0, map[], false, None;
      reputations, activeListingCount, balances := map[], map[], map[];
      model := Genesis;
      new;
      GenesisInv();
    }

    method Transfer(token: Address, from: Address, to: Address, amount: int, ghost m: Move, ghost log: seq<Move>)
      returns (ok: bool)
      requires m == Move(token, Some(from), to, amount, m.purpose) && BalancesStored(balances, log)
      modifies this`balances
      ensures ok <==> Balance(log, token, from) >= amount
      ensures if ok then BalancesStored(balances, log + [m]) else balances == old(balances)
    {
      ok := HeldBy(balances, token, from) >= amount;
      if ok {
        balances := balances[(token, from) := HeldBy(balances, token, from) - amount];
        balances := balances[(token, to) := HeldBy(balances, token, to) + amount];
        BalancesAfter(old(balances), balances, log, m);
      }
    }

    method IncrementActiveListingCount(seller: Address)
      modifies this`activeListingCount
      ensures activeListingCount == Incremented(old(activeListingCount), seller)
    {
      var current := ActiveCount(activeListingCount, seller);
      var next := if current + 1 > U32_MAX then U32_MAX else current + 1;
      activeListingCount := activeListingCount[seller := next];
    }

    method DecrementActiveListingCount(seller: Address)
      modifies this`activeListingCount
      ensures activeListingCount == Decremented(old(activeListingCount), seller)
    {
      var current := ActiveCount(activeListingCount, seller);
      var next := if current == 0 then 0 else current - 1;
      if next == 0 {
        activeListingCount := activeListingCount - {seller};
      } else {
        activeListingCount := activeListingCount[seller := next];
      }
    }

    /** Counts a settled trade; fails where the counter or the volume would overflow. */
    method UpdateReputation(seller: Address, volume: I128, disputed: bool) returns (ok: bool)
      requires ReputationOf(reputations, seller).volume <= I128_MAX
      modifies this`reputations
      ensures ok <==> Rated(ReputationOf(old(reputations), seller), volume, disputed).Some?
      ensures ok ==> reputations == old(reputations)[seller := Rated(ReputationOf(old(reputations), seller), volume, disputed).value]
      ensures !ok ==> reputations == old(reputations)
    {
      var rep := ReputationOf(reputations, seller);
      if disputed {
        if rep.disputed >= U32_MAX {
          return false;
        }
        rep := rep.(disputed := rep.disputed + 1);
      } else {
        if rep.completed >= U32_MAX || rep.volume + volume > I128_MAX {
          return false;
        }
        rep := rep.(completed := rep.completed + 1);
        rep := rep.(volume := rep.volume + volume);
      }
      reputations := reputations[seller := rep];
      return true;
    }

    method Initialize(now: Timestamp, newAdmin: Address) returns (r: Reply)
      requires Valid() && model.clock <= now
      modifies this
      ensures Valid() && (model, r) == Step(old(model), now, Call.Initialize(newAdmin))
      ensures r.Failed? ==> StorageUnchanged()
    {
      hide Inv, ListingsStored, BalancesStored;
      StepKeepsInv(model, now, Call.Initialize(newAdmin));
      Starts();
      ghost var before := model;
      model := Step(model, now, Call.Initialize(newAdmin)).0;
      if admin.Some? {
        return Failed(AlreadyInitialized);
      }
      admin, listingCounter, paused := Some(newAdmin), 0, false;
      CounterReset(listings, before.listings);
      return Done;
    }

    method Pause(now: Timestamp) returns (r: Reply)
      requires Valid() && model.clock <= now
      modifies this
      ensures Valid() && (model, r) == Step(old(model), now, Call.Pause)
      ensures r.Failed? ==> StorageUnchanged()
    {
      hide Inv, ListingsStored, BalancesStored;
      StepKeepsInv(model, now, Call.Pause);
      model := Step(model, now, Call.Pause).0;
      if admin.None? {
        return Failed(Unauthorized);
      }
      if !paused {
        pausedAt := Some(now);
      }
      paused := true;
      return Done;
    }

    method Unpause(now: Timestamp) returns (r: Reply)
      requires Valid() && model.clock <= now
      modifies this
      ensures Valid() && (model, r) == Step(old(model), now, Call.Unpause)
      ensures r.Failed? ==> StorageUnchanged()
    {
      hide Inv, ListingsStored, BalancesStored;
      StepKeepsInv(model, now, Call.Unpause);
      model := Step(model, now, Call.Unpause).0;
      if admin.None? {
        return Failed(Unauthorized);
      }
      paused, pausedAt := false, None;
      return Done;
    }

    method TransferAdmin(now: Timestamp, newAdmin: Address) returns (r: Reply)
      requires Valid() && model.clock <= now
      modifies this
      ensures Valid() && (model, r) == Step(old(model), now, Call.TransferAdmin(newAdmin))
      ensures r.Failed? ==> StorageUnchanged()
    {
      hide Inv, ListingsStored, BalancesStored;
      StepKeepsInv(model, now, Call.TransferAdmin(newAdmin));
      model := Step(model, now, Call.TransferAdmin(newAdmin)).0;
      if admin.None? {
        return Failed(Unauthorized);
      }
      admin := Some(newAdmin);
      return Done;
    }

    method CreateListing(now: Timestamp, seller: Address, token: Address, price: I128, category: Category,
                         assetType: Symbol, quantity: I128, expiresAt: nat) returns (r: Reply)
      requires Valid() && model.clock <= now && seller != Custodian
      modifies this
      ensures Valid() && (model, r) == Step(old(model), now,
                Call.CreateListing(seller, token, price, category, assetType, quantity, expiresAt))
      ensures r.Failed? ==> StorageUnchanged()
    {
      hide Inv, ListingsStored, BalancesStored;
      StepKeepsInv(model, now, Call.CreateListing(seller, token, price, category, assetType, quantity, expiresAt));
      Starts();
      ghost var before := model;
      model := DoCreate(model, now, seller, token, price, category, assetType, quantity, expiresAt).0;
      if paused {
        return Failed(ContractPaused);
      }
      if price <= 0 {
        return Failed(InvalidAmount);
      }
      if quantity <= 0 {
        return Failed(InvalidAmount);
      }
      if expiresAt <= now {
        return Failed(InvalidExpiry);
      }
      var activeCount := ActiveCount(activeListingCount, seller);
      if activeCount >= MAX_ACTIVE_LISTINGS_PER_SELLER {
        return Failed(StorageLimitExceeded);
      }
      var id := listingCounter + 1;
      listingCounter := id;
      listings := listings[id := StoredListing(id, seller, token, price, category, assetType, quantity, Active, now, expiresAt, None)];
      AddListing(old(listings), before, model.listings[|before.listings|], listings[id]);
      IncrementActiveListingCount(seller);
      return Created(id);
    }

    method DepositToEscrow(now: Timestamp, buyer: Address, id: nat) returns (r: Reply)
      requires Valid() && model.clock <= now && buyer != Custodian
      modifies this
      ensures Valid() && (model, r) == Step(old(model), now, Call.Deposit(buyer, id))
      ensures r.Failed? ==> StorageUnchanged()
    {
      hide Inv, Sum, Balance, ListingsStored, BalancesStored;
      DepositKeepsInv(model, now, buyer, id);
      Find(id);
      ghost var before := model;
      model := DoDeposit(before, now, buyer, id).0;
      if paused {
        return Failed(ContractPaused);
      }
      if id !in listings {
        return Failed(TradeNotFound);
      }
      var listing := listings[id];
      if listing.status != Active {
        return Failed(WrongStatus);
      }
      if now >= listing.expiresAt {
        return Failed(TradeExpired);
      }
      if buyer == listing.seller {
        return Failed(Unauthorized);
      }
      var ok := Transfer(listing.token, buyer, Custodian, listing.price, DepositMove(At(before, id), Serial(before, id), buyer), before.log);
      if !ok {
        return Trapped;
      }
      listings := listings[id := listing.(status := Sold, buyer := Some(buyer))];
      PutListing(old(listings), before, id, model.listings[Serial(before, id) - 1], listings[id]);
      DecrementActiveListingCount(listing.seller);
      return Done;
    }

    /** Pays a listing's price out and writes its new status back. */
    method PayOutPrice(id: nat, payee: Address, status: ListingStatus, ghost s: State, ghost outcome: Outcome) returns (ok: bool)
      requires ListingsStored(listings, s.listings, s.early) && BalancesStored(balances, s.log) && Known(s, id)
      modifies this`balances, this`listings
      ensures ok <==> Balance(s.log, At(s, id).token, Custodian) >= At(s, id).price
      ensures if ok
              then BalancesStored(balances, s.log + [PayoutMove(At(s, id), Serial(s, id), payee)]) &&
                   ListingsStored(listings, s.listings[Serial(s, id) - 1 := At(s, id).(status := status, outcome := outcome)], s.early)
              else balances == old(balances) && listings == old(listings)
    {
      hide Balance, Sum, BalancesStored, InUse, Place, LastId;
      var listing := listings[id];
      assert IsListing(listing, id, At(s, id));
      StatusEntry(listing, id, At(s, id), status, outcome);
      hide IsListing, ListingsStored;
      ok := Transfer(listing.token, Custodian, payee, listing.price, PayoutMove(At(s, id), Serial(s, id), payee), s.log);
      if ok {
        listings := listings[id := listing.(status := status)];
        PutListing(old(listings), s, id, At(s, id).(status := status, outcome := outcome), listings[id]);
      }
    }

    /** The part the three settling calls share: transfer, write back, rate the seller. */
    method Settle(now: Timestamp, id: nat, payee: Address, status: ListingStatus, disputed: bool) returns (r: Reply)
      requires Valid() && model.clock <= now && Known(model, id)
      requires At(model, id).status.Sold? && (status.Cancelled? || (status.Released? && !disputed))
      requires if disputed then At(model, id).buyer == Some(payee) else payee == At(model, id).seller
      modifies this
      ensures Valid() && (model, r) == PayOut(old(model), now, Serial(old(model), id), payee, status, disputed)
      ensures !r.Failed?
    {
      hide Inv, Balance, Sum, ListingsStored, BalancesStored, InUse, Place, LastId, Rated, ReputationOf;
      Find(id);
      VolumeInRange(model, At(model, id).seller);
      ghost var before, n := model, Serial(model, id);
      ghost var next := PayOut(before, now, n, payee, status, disputed);
      PayOutParts(before, now, n, payee, status, disputed);
      PayOutKeepsInv(before, now, n, payee, status, disputed);
      hide PayOut;
      model := next.0;
      var seller, price, savedBalances, savedListings := listings[id].seller, listings[id].price, balances, listings;
      var ok := PayOutPrice(id, payee, status, before, next.0.listings[n - 1].outcome);
      if !ok {
        return Trapped;
      }
      ok := UpdateReputation(seller, price, disputed);
      if !ok {
        // the host rolls the aborted call back
        balances, listings := savedBalances, savedListings;
        return Trapped;
      }
      return Done;
    }

    method ReleasePayment(now: Timestamp, id: nat) returns (r: Reply)
      requires Valid() && model.clock <= now
      modifies this
      ensures Valid() && (model, r) == Step(old(model), now, Call.ReleasePayment(id))
      ensures r.Failed? ==> StorageUnchanged()
    {
      hide Inv, ListingsStored, BalancesStored, PayOut;
      PayingCallKeepsInv(model, now, Call.ReleasePayment(id));
      Find(id);
      ghost var next := DoReleasePayment(model, now, id).0;
      if paused {
        model := next;
        return Failed(ContractPaused);
      }
      if admin.None? {
        model := next;
        return Failed(Unauthorized);
      }
      if id !in listings {
        model := next;
        return Failed(TradeNotFound);
      }
      var listing := listings[id];
      if listing.status != Sold {
        model := next;
        return Failed(WrongStatus);
      }
      r := Settle(now, id, listing.seller, Released, false);
    }

    method CancelAndRefund(now: Timestamp, buyer: Address, id: nat) returns (r: Reply)
      requires Valid() && model.clock <= now
      modifies this
      ensures Valid() && (model, r) == Step(old(model), now, Call.CancelAndRefund(buyer, id))
      ensures r.Failed? ==> StorageUnchanged()
    {
      hide Inv, ListingsStored, BalancesStored, PayOut;
      PayingCallKeepsInv(model, now, Call.CancelAndRefund(buyer, id));
      Find(id);
      ghost var next := DoCancelAndRefund(model, now, buyer, id).0;
      if paused {
        model := next;
        return Failed(ContractPaused);
      }
      if admin.None? {
        model := next;
        return Failed(Unauthorized);
      }
      if id !in listings {
        model := next;
        return Failed(TradeNotFound);
      }
      var listing := listings[id];
      if listing.status != Sold {
        model := next;
        return Failed(WrongStatus);
      }
      if listing.buyer != Some(buyer) {
        model := next;
        return Failed(Unauthorized);
      }
      r := Settle(now, id, buyer, Cancelled, true);
    }

    method ResolveDispute(now: Timestamp, id: nat, recipient: Address) returns (r: Reply)
      requires Valid() && model.clock <= now
      modifies this
      ensures Valid() && (model, r) == Step(old(model), now, Call.ResolveDispute(id, recipient))
      ensures r.Failed? ==> StorageUnchanged()
    {
      hide Inv, ListingsStored, BalancesStored, PayOut;
      PayingCallKeepsInv(model, now, Call.ResolveDispute(id, recipient));
      Find(id);
      ghost var next := DoResolveDispute(model, now, id, recipient).0;
      if paused {
        model := next;
        return Failed(ContractPaused);
      }
      if admin.None? {
        model := next;
        return Failed(Unauthorized);
      }
      if id !in listings {
        model := next;
        return Failed(TradeNotFound);
      }
      var listing := listings[id];
      if listing.status != Sold {
        model := next;
        return Failed(WrongStatus);
      }
      var isSeller := recipient == listing.seller;
      var isBuyer := listing.buyer == Some(recipient);
      if !isSeller && !isBuyer {
        model := next;
        return Failed(NotAParty);
      }
      r := Settle(now, id, recipient, Cancelled, !isSeller);
    }

    method UpdateListing(now: Timestamp, seller: Address, id: nat, newPrice: I128, newExpiresAt: nat) returns (r: Reply)
      requires Valid() && model.clock <= now
      modifies this
      ensures Valid() && (model, r) == Step(old(model), now, Call.UpdateListing(seller, id, newPrice, newExpiresAt))
      ensures r.Failed? ==> StorageUnchanged()
    {
      hide Inv, ListingsStored, BalancesStored;
      UpdateKeepsInv(model, now, seller, id, newPrice, newExpiresAt);
      Find(id);
      ghost var before := model;
      model := DoUpdate(before, now, seller, id, newPrice, newExpiresAt).0;
      if paused {
        return Failed(ContractPaused);
      }
      if newPrice <= 0 {
        return Failed(InvalidAmount);
      }
      if newExpiresAt <= now {
        return Failed(InvalidExpiry);
      }
      if id !in listings {
        return Failed(TradeNotFound);
      }
      var listing := listings[id];
      if listing.seller != seller {
        return Failed(Unauthorized);
      }
      if listing.status != Active {
        return Failed(WrongStatus);
      }
      listings := listings[id := listing.(price := newPrice, expiresAt := newExpiresAt)];
      PutListing(old(listings), before, id, model.listings[Serial(before, id) - 1], listings[id]);
      return Done;
    }

    method CancelListing(now: Timestamp, seller: Address, id: nat) returns (r: Reply)
      requires Valid() && model.clock <= now
      modifies this
      ensures Valid() && (model, r) == Step(old(model), now, Call.CancelListing(seller, id))
      ensures r.Failed? ==> StorageUnchanged()
    {
      hide Inv, ListingsStored, BalancesStored;
      CancelKeepsInv(model, now, Call.CancelListing(seller, id));
      Find(id);
      ghost var before := model;
      model := DoCancelListing(before, now, seller, id).0;
      if paused {
        return Failed(ContractPaused);
      }
      if id !in listings {
        return Failed(TradeNotFound);
      }
      var listing := listings[id];
      if listing.seller != seller {
        return Failed(Unauthorized);
      }
      if listing.status != Active {
        return Failed(WrongStatus);
      }
      assert before.log + [] == before.log;
      listings := listings[id := listing.(status := Cancelled)];
      PutListing(old(listings), before, id, model.listings[Serial(before, id) - 1], listings[id]);
      DecrementActiveListingCount(listing.seller);
      return Done;
    }

    method CloseExpiredListing(now: Timestamp, id: nat) returns (r: Reply)
      requires Valid() && model.clock <= now
      modifies this
      ensures Valid() && (model, r) == Step(old(model), now, Call.CloseExpired(id))
      ensures r.Failed? ==> StorageUnchanged()
    {
      hide Inv, ListingsStored, BalancesStored;
      CancelKeepsInv(model, now, Call.CloseExpired(id));
      Find(id);
      ghost var before := model;
      model := DoCloseExpired(before, now, id).0;
      if paused {
        return Failed(ContractPaused);
      }
      if id !in listings {
        return Failed(TradeNotFound);
      }
      var listing := listings[id];
      if listing.status != Active {
        return Failed(WrongStatus);
      }
      if now < listing.expiresAt {
        return Failed(TradeExpired);
      }
      assert before.log + [] == before.log;
      listings := listings[id := listing.(status := Cancelled)];
      PutListing(old(listings), before, id, model.listings[Serial(before, id) - 1], listings[id]);
      DecrementActiveListingCount(listing.seller);
      return Done;
    }

    method EmergencyWithdraw(now: Timestamp, token: Address, recipient: Address, amount: I128) returns (r: Reply)
      requires Valid() && model.clock <= now
      modifies this
      ensures Valid() && (model, r) == Step(old(model), now, Call.EmergencyWithdraw(token, recipient, amount))
      ensures r.Failed? ==> StorageUnchanged()
    {
      hide Inv, Sum, ListingsStored;
      LooseCallKeepsInv(model, now, Call.EmergencyWithdraw(token, recipient, amount));
      ghost var before := model;
      model := DoEmergencyWithdraw(before, now, token, recipient, amount).0;
      if admin.None? {
        return Failed(Unauthorized);
      }
      if !paused {
        return Failed(WrongStatus);
      }
      if amount <= 0 {
        return Failed(InvalidAmount);
      }
      var since := if pausedAt.Some? then pausedAt.value else 0;
      if now < since + EMERGENCY_TIMELOCK_SECS {
        return Failed(TimelockNotExpired);
      }
      var contractBalance := HeldBy(balances, token, Custodian);
      if contractBalance < amount {
        return Failed(InsufficientFunds);
      }
      var ok := Transfer(token, Custodian, recipient, amount, Move(token, Some(Custodian), recipient, amount, Recovery), before.log);
      return Done;
    }

    /** A transfer the contract has no part in: anyone else's, or newly issued tokens. */
    method OutsideTransfer(now: Timestamp, token: Address, from: Option<Address>, to: Address, sent: nat) returns (r: Reply)
      requires Valid() && model.clock <= now && from != Some(Custodian)
      modifies this
      ensures Valid() && (model, r) == Step(old(model), now, Call.Outside(token, from, to, sent))
    {
      hide Sum, Inv, ListingsStored, BalancesStored;
      LooseCallKeepsInv(model, now, Call.Outside(token, from, to, sent));
      ghost var before, m := model, Move(token, from, to, sent, Purpose.Outside);
      model := DoOutside(before, now, token, from, to, sent).0;
      if from.Some? {
        var ok := Transfer(token, from.value, to, sent, m, before.log);
        return if ok then Done else Trapped;
      }
      balances := balances[(token, to) := HeldBy(balances, token, to) + sent];
      Issued(old(balances), before.log, token, to, sent);
      return Done;
    }
  }
}

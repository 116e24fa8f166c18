/** What the marketplace's state says, told from the calls that succeeded before. */
module MarketHistory {
  import opened Sums
  import opened TokenLedger
  import opened MarketSpec
  import opened MarketInvariant
  import opened MarketRules
  import opened MarketRuns

  // ----- the admin and the pause -----

  predicate NamesAdmin(c: Call, reply: Reply) {
    reply.Done? && (c.Initialize? || c.TransferAdmin?)
  }

  function Named(c: Call): Option<Address> {
    match c
    case Initialize(a) => Some(a)
    case TransferAdmin(a) => Some(a)
    case _ => None
  }

  predicate Pauses(c: Call, reply: Reply) {
    reply.Done? && c.Pause?
  }

  predicate Unpauses(c: Call, reply: Reply) {
    reply.Done? && c.Unpause?
  }

  lemma SettingsStep(s: State, now: Timestamp, c: Call, a: Address)
    requires PauseOk(s)
    ensures var (s', r) := Step(s, now, c);
            && (s'.admin == Some(a) <==> (NamesAdmin(c, r) && Named(c) == Some(a)) || (s.admin == Some(a) && !NamesAdmin(c, r)))
            && (s'.paused <==> Pauses(c, r) || (s.paused && !Unpauses(c, r)))
  {
    hide Sum, Balance, Rated, Incremented, Decremented, Place, InUse, LastId;
  }

  lemma PauseFor(s: State)
    requires Inv(s)
    ensures PauseOk(s)
  {
    hide ListingsOk, StoriesOk, CustodyOk, RatingsOk, IndexOk, PauseOk;
  }

  /** The admin is the one the last successful initialisation or transfer named. */
  lemma {:induction false} AdminHistory(r: Run, n: nat, a: Address)
    requires ValidRun(r) && n < |r.states|
    ensures r.states[n].admin == Some(a) <==>
              exists j: nat :: j < n && NamesAdmin(r.events[j].call, r.replies[j]) && Named(r.events[j].call) == Some(a) &&
                forall i: nat :: j < i < n ==> !NamesAdmin(r.events[i].call, r.replies[i])
  {
    hide Step, Inv, NamesAdmin, Named;
    if n > 0 {
      AdminHistory(r, n - 1, a);
      RunKeepsInv(r, n - 1);
      assert StepsTo(r, n - 1);
      PauseFor(r.states[n - 1]);
      SettingsStep(r.states[n - 1], r.events[n - 1].now, r.events[n - 1].call, a);
    }
  }

  /** The contract is paused exactly if the last successful call of the two was a pause. */
  lemma {:induction false} PauseHistory(r: Run, n: nat)
    requires ValidRun(r) && n < |r.states|
    ensures r.states[n].paused <==>
              exists j: nat :: j < n && Pauses(r.events[j].call, r.replies[j]) &&
                forall i: nat :: j < i < n ==> !Unpauses(r.events[i].call, r.replies[i])
  {
    hide Step, Inv;
    if n > 0 {
      PauseHistory(r, n - 1);
      RunKeepsInv(r, n - 1);
      assert StepsTo(r, n - 1);
      PauseFor(r.states[n - 1]);
      SettingsStep(r.states[n - 1], r.events[n - 1].now, r.events[n - 1].call, Custodian);
      hide Pauses, Unpauses;
    }
  }

  // ----- a listing's standing -----

  /** The n-th listing has been made and has this status. */
  predicate HasStatus(s: State, n: nat, status: ListingStatus) {
    Made(s, n) && s.listings[n - 1].status == status
  }

  predicate BoughtBy(s: State, n: nat, buyer: Address) {
    Made(s, n) && s.listings[n - 1].buyer == Some(buyer)
  }

  predicate PaidToSeller(s: State, n: nat) {
    Made(s, n) && s.listings[n - 1].outcome.SellerPaid?
  }

  predicate Buys(s: State, c: Call, reply: Reply, n: nat) {
    reply.Done? && c.Deposit? && Targets(s, c, n)
  }

  predicate BuysFor(s: State, c: Call, reply: Reply, n: nat, buyer: Address) {
    Buys(s, c, reply, n) && c.Deposit? && c.buyer == buyer
  }

  predicate Releases(s: State, c: Call, reply: Reply, n: nat) {
    reply.Done? && c.ReleasePayment? && Targets(s, c, n)
  }

  predicate Resolves(s: State, c: Call, reply: Reply, n: nat) {
    reply.Done? && (c.CancelAndRefund? || c.ResolveDispute?) && Targets(s, c, n)
  }

  predicate TakesDown(s: State, c: Call, reply: Reply, n: nat) {
    reply.Done? && (c.CancelListing? || c.CloseExpired?) && Targets(s, c, n)
  }

  /** A dispute was resolved in the seller's favour. */
  predicate ResolvesForSeller(s: State, c: Call, reply: Reply, n: nat) {
    Resolves(s, c, reply, n) && c.ResolveDispute? && Made(s, n) && c.recipient == s.listings[n - 1].seller
  }

  ghost predicate StatusSteps(s: State, c: Call, s': State, r: Reply, n: nat) {
    && (HasStatus(s', n, Sold) <==> Buys(s, c, r, n) || (HasStatus(s, n, Sold) && !Releases(s, c, r, n) && !Resolves(s, c, r, n)))
    && (HasStatus(s', n, Released) <==> Releases(s, c, r, n) || HasStatus(s, n, Released))
    && (HasStatus(s', n, Cancelled) <==> Resolves(s, c, r, n) || TakesDown(s, c, r, n) || HasStatus(s, n, Cancelled))
    && (PaidToSeller(s', n) <==> Releases(s, c, r, n) || ResolvesForSeller(s, c, r, n) || PaidToSeller(s, n))
    && (forall b :: BoughtBy(s', n, b) <==> BuysFor(s, c, r, n, b) || BoughtBy(s, n, b))
  }

  lemma StatusStep(s: State, now: Timestamp, c: Call, n: nat)
    requires Inv(s)
    ensures StatusSteps(s, c, Step(s, now, c).0, Step(s, now, c).1, n)
  {
    hide StatusSteps, Step, Inv, Targets;
    var (s', r) := Step(s, now, c);
    if !Made(s, n) {
      NewStatusStep(s, now, c, n);
    } else if r.Done? && Targets(s, c, n) {
      ListingFor(s, n);
      OwnStatusStep(s, now, c, n);
    } else {
      OthersUntouched(s, now, c, n);
      KeptStatusStep(s, c, s', r, n);
    }
  }

  lemma KeptStatusStep(s: State, c: Call, s': State, r: Reply, n: nat)
    requires Made(s, n) && Made(s', n) && s'.listings[n - 1] == s.listings[n - 1] && !(r.Done? && Targets(s, c, n))
    ensures StatusSteps(s, c, s', r, n)
  {
    hide Targets;
  }

  lemma NewStatusStep(s: State, now: Timestamp, c: Call, n: nat)
    requires !Made(s, n)
    ensures StatusSteps(s, c, Step(s, now, c).0, Step(s, now, c).1, n)
  {
    NewIsOffered(s, now, c, n);
    hide Step, Targets;
  }

  /** A listing not made before is offered, unbought and unsettled, and no call is about it before it is made. */
  lemma NewIsOffered(s: State, now: Timestamp, c: Call, n: nat)
    requires !Made(s, n)
    ensures var s' := Step(s, now, c).0;
            Made(s', n) ==> s'.listings[n - 1].status.Active? && s'.listings[n - 1].buyer.None? && s'.listings[n - 1].outcome.Unsettled?
    ensures !Targets(s, c, n)
  {
    hide Sum, Balance, Rated, Incremented, Decremented, Place, InUse, LastId;
  }

  lemma OwnStatusStep(s: State, now: Timestamp, c: Call, n: nat)
    requires Made(s, n) && ListingOk(s.listings[n - 1]) && Step(s, now, c).1.Done? && Targets(s, c, n)
    ensures StatusSteps(s, c, Step(s, now, c).0, Step(s, now, c).1, n)
  {
    hide Sum, Balance, Rated, Incremented, Decremented, Place, InUse, LastId;
  }

  /** At every point of every run: a listing is sold exactly if a deposit on it has not been followed by a
      settlement, ... */
  lemma {:induction false} SoldHistory(r: Run, k: nat, n: nat)
    requires ValidRun(r) && k < |r.states|
    ensures HasStatus(r.states[k], n, Sold) <==>
              exists j: nat :: j < k && Buys(r.states[j], r.events[j].call, r.replies[j], n) &&
                forall i: nat :: j < i < k ==> !Releases(r.states[i], r.events[i].call, r.replies[i], n) && !Resolves(r.states[i], r.events[i].call, r.replies[i], n)
  {
    hide Step, Inv;
    if k > 0 {
      SoldHistory(r, k - 1, n);
      RunKeepsInv(r, k - 1);
      assert StepsTo(r, k - 1);
      StatusStep(r.states[k - 1], r.events[k - 1].now, r.events[k - 1].call, n);
      hide Buys, Releases, Resolves, TakesDown, ResolvesForSeller, HasStatus, BoughtBy, PaidToSeller;
    }
  }

  /** ... released exactly if a release of it succeeded, ... */
  lemma {:induction false} ReleasedHistory(r: Run, k: nat, n: nat)
    requires ValidRun(r) && k < |r.states|
    ensures HasStatus(r.states[k], n, Released) <==>
              exists j: nat :: j < k && Releases(r.states[j], r.events[j].call, r.replies[j], n)
  {
    hide Step, Inv;
    if k > 0 {
      ReleasedHistory(r, k - 1, n);
      RunKeepsInv(r, k - 1);
      assert StepsTo(r, k - 1);
      StatusStep(r.states[k - 1], r.events[k - 1].now, r.events[k - 1].call, n);
      hide Buys, Releases, Resolves, TakesDown, ResolvesForSeller, HasStatus, BoughtBy, PaidToSeller;
    }
  }

  /** ... and cancelled exactly if it was refunded, resolved, cancelled or closed. */
  lemma {:induction false} CancelledHistory(r: Run, k: nat, n: nat)
    requires ValidRun(r) && k < |r.states|
    ensures HasStatus(r.states[k], n, Cancelled) <==>
              exists j: nat :: j < k && (Resolves(r.states[j], r.events[j].call, r.replies[j], n) || TakesDown(r.states[j], r.events[j].call, r.replies[j], n))
  {
    hide Step, Inv;
    if k > 0 {
      CancelledHistory(r, k - 1, n);
      RunKeepsInv(r, k - 1);
      assert StepsTo(r, k - 1);
      StatusStep(r.states[k - 1], r.events[k - 1].now, r.events[k - 1].call, n);
      hide Buys, Releases, Resolves, TakesDown, ResolvesForSeller, HasStatus, BoughtBy, PaidToSeller;
    }
  }

  /** Its seller was paid exactly if it was released or a dispute over it resolved in the seller's favour, ... */
  lemma {:induction false} PaidHistory(r: Run, k: nat, n: nat)
    requires ValidRun(r) && k < |r.states|
    ensures PaidToSeller(r.states[k], n) <==>
              exists j: nat :: j < k && (Releases(r.states[j], r.events[j].call, r.replies[j], n) || ResolvesForSeller(r.states[j], r.events[j].call, r.replies[j], n))
  {
    hide Step, Inv;
    if k > 0 {
      PaidHistory(r, k - 1, n);
      RunKeepsInv(r, k - 1);
      assert StepsTo(r, k - 1);
      StatusStep(r.states[k - 1], r.events[k - 1].now, r.events[k - 1].call, n);
      hide Buys, Releases, Resolves, TakesDown, ResolvesForSeller, HasStatus, BoughtBy, PaidToSeller;
    }
  }

  /** ... and its buyer is the one who deposited on it. */
  lemma {:induction false} BuyerHistory(r: Run, k: nat, n: nat, buyer: Address)
    requires ValidRun(r) && k < |r.states|
    ensures BoughtBy(r.states[k], n, buyer) <==>
              exists j: nat :: j < k && BuysFor(r.states[j], r.events[j].call, r.replies[j], n, buyer)
  {
    hide Step, Inv;
    if k > 0 {
      BuyerHistory(r, k - 1, n, buyer);
      RunKeepsInv(r, k - 1);
      assert StepsTo(r, k - 1);
      StatusStep(r.states[k - 1], r.events[k - 1].now, r.events[k - 1].call, n);
      hide Buys, Releases, Resolves, TakesDown, ResolvesForSeller, HasStatus, BoughtBy, PaidToSeller, BuysFor;
    }
  }

  // ----- a listing's terms -----

  predicate Updates(s: State, c: Call, reply: Reply, n: nat) {
    reply.Done? && c.UpdateListing? && Targets(s, c, n)
  }

  /** Every listing was posted by one create, which fixed all but its price and its end. */
  lemma {:induction false} ListingWasPosted(r: Run, k: nat, n: nat) returns (j: nat)
    requires ValidRun(r) && k < |r.states| && Made(r.states[k], n)
    ensures j < k && |r.states[j].listings| == n - 1 && r.replies[j] == Created(Counter(r.states[j]) + 1) && r.events[j].call.CreateListing?
    ensures var c, l := r.events[j].call, r.states[k].listings[n - 1];
            l.seller == c.seller && l.token == c.token && l.category == c.category && l.assetType == c.assetType && l.quantity == c.quantity
  {
    hide Step, Inv;
    RunKeepsInv(r, k - 1);
    assert StepsTo(r, k - 1);
    var s, e := r.states[k - 1], r.events[k - 1];
    TermsStep(s, e.now, e.call, n);
    if Made(s, n) {
      j := ListingWasPosted(r, k - 1, n);
    } else {
      j := k - 1;
    }
  }

  /** Its price and its end are those of the last successful update of it, or else of its create. */
  lemma {:induction false} PriceIsLastSet(r: Run, k: nat, n: nat) returns (j: nat)
    requires ValidRun(r) && k < |r.states| && Made(r.states[k], n)
    ensures j < k && (Updates(r.states[j], r.events[j].call, r.replies[j], n) ||
                      (r.events[j].call.CreateListing? && r.replies[j].Created? && |r.states[j].listings| == n - 1))
    ensures r.states[k].listings[n - 1].price == r.events[j].call.price && r.states[k].listings[n - 1].expiresAt == r.events[j].call.expiresAt
    ensures forall i: nat :: j < i < k ==> !Updates(r.states[i], r.events[i].call, r.replies[i], n)
  {
    hide Step, Inv, Updates;
    RunKeepsInv(r, k - 1);
    assert StepsTo(r, k - 1);
    var s, e := r.states[k - 1], r.events[k - 1];
    TermsStep(s, e.now, e.call, n);
    if Made(s, n) && !Updates(s, e.call, r.replies[k - 1], n) {
      j := PriceIsLastSet(r, k - 1, n);
    } else {
      j := k - 1;
    }
  }

  lemma TermsStep(s: State, now: Timestamp, c: Call, n: nat)
    requires Inv(s) && Made(Step(s, now, c).0, n)
    ensures var (s', r) := Step(s, now, c);
            var l' := s'.listings[n - 1];
            if !Made(s, n) then
              && c.CreateListing? && r == Created(Counter(s) + 1) && |s.listings| == n - 1
              && l'.seller == c.seller && l'.token == c.token && l'.category == c.category && l'.assetType == c.assetType
              && l'.quantity == c.quantity && l'.price == c.price && l'.expiresAt == c.expiresAt
            else
              var l := s.listings[n - 1];
              && l'.seller == l.seller && l'.token == l.token && l'.category == l.category && l'.assetType == l.assetType
              && l'.quantity == l.quantity && l'.createdAt == l.createdAt
              && (if Updates(s, c, r, n) then c.UpdateListing? && l'.price == c.price && l'.expiresAt == c.expiresAt
                  else l'.price == l.price && l'.expiresAt == l.expiresAt)
  {
    hide Inv;
    if !Made(s, n) {
      NewTerms(s, now, c, n);
    } else if Step(s, now, c).1.Done? && Targets(s, c, n) {
      OwnTerms(s, now, c, n);
    } else {
      OthersUntouched(s, now, c, n);
      hide Step, Targets;
    }
  }

  lemma NewTerms(s: State, now: Timestamp, c: Call, n: nat)
    requires !Made(s, n) && Made(Step(s, now, c).0, n)
    ensures var l' := Step(s, now, c).0.listings[n - 1];
            && c.CreateListing? && Step(s, now, c).1 == Created(Counter(s) + 1) && |s.listings| == n - 1
            && l'.seller == c.seller && l'.token == c.token && l'.category == c.category && l'.assetType == c.assetType
            && l'.quantity == c.quantity && l'.price == c.price && l'.expiresAt == c.expiresAt
  {
    hide Sum, Balance, Rated, Incremented, Decremented, Place, InUse, LastId;
  }

  lemma OwnTerms(s: State, now: Timestamp, c: Call, n: nat)
    requires Made(s, n) && Step(s, now, c).1.Done? && Targets(s, c, n)
    ensures Made(Step(s, now, c).0, n)
    ensures var l, l' := s.listings[n - 1], Step(s, now, c).0.listings[n - 1];
            && l'.seller == l.seller && l'.token == l.token && l'.category == l.category && l'.assetType == l.assetType
            && l'.quantity == l.quantity && l'.createdAt == l.createdAt
            && (if c.UpdateListing? then l'.price == c.price && l'.expiresAt == c.expiresAt
                else l'.price == l.price && l'.expiresAt == l.expiresAt)
  {
    hide Sum, Balance, Rated, Incremented, Decremented, Place, InUse, LastId;
  }
}

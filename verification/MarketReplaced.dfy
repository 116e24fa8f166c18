/**
 What becomes of ids that are given out twice.  Nothing stops listings being made before
 `initialize`, which sets the listing counter back to zero; listings made after it then
 overwrite the early ones, whatever state those are in.
 */
module MarketReplaced {
  import opened Sums
  import opened TokenLedger
  import opened MarketSpec
  import opened MarketInvariant
  import opened MarketRuns

  /** The listings whose entries have been overwritten, and the ones still stored. */
  function Lost(s: State): seq<Listing>
    requires EarlyOk(s)
  {
    s.listings[..Overwritten(s)]
  }

  function Stored(s: State): seq<Listing>
    requires EarlyOk(s)
  {
    s.listings[Overwritten(s)..]
  }

  /** The id a listing was given. */
  function IdGiven(s: State, n: nat): nat {
    if n <= s.early then n else n - s.early
  }

  /** Ids stand for exactly the listings not overwritten, one each. */
  lemma IdsNameStored(s: State)
    requires EarlyOk(s)
    ensures forall id :: Known(s, id) ==> Overwritten(s) < Serial(s, id) && IdGiven(s, Serial(s, id)) == id
    ensures forall n :: Made(s, n) ==>
      (Overwritten(s) < n <==> Known(s, IdGiven(s, n)) && Serial(s, IdGiven(s, n)) == n)
  {
  }

  /** A total over all listings ever made is the total over the stored ones exactly when the lost
      ones add nothing. */
  lemma {:induction false} SumSplits(s: State, f: Listing -> int)
    requires EarlyOk(s) && forall l :: f(l) >= 0
    ensures Sum(s.listings, f) == Sum(Lost(s), f) + Sum(Stored(s), f)
    ensures Sum(Lost(s), f) >= 0
    ensures Sum(Lost(s), f) == 0 <==> forall n :: 0 <= n < Overwritten(s) ==> f(s.listings[n]) == 0
  {
    hide Sum;
    assert Lost(s) + Stored(s) == s.listings;
    SumConcat(Lost(s), Stored(s), f);
    SumNonNegative(Lost(s), f);
    if forall n :: 0 <= n < Overwritten(s) ==> f(s.listings[n]) == 0 {
      SumZero(Lost(s), f);
    } else {
      var n :| 0 <= n < Overwritten(s) && f(s.listings[n]) != 0;
      SumAtLeast(Lost(s), f, n);
    }
  }

  /** Price of a sold listing, for totals that need not know a price is positive. */
  function Escrowed(token: Address): Listing -> int {
    (l: Listing) => if l.token == token && l.status.Sold? && l.price > 0 then l.price else 0
  }

  lemma EscrowedIsSold(listings: seq<Listing>, token: Address)
    requires ListingsOk(listings)
    ensures Sum(listings, Escrowed(token)) == Sum(listings, SoldIn(token))
  {
    forall i | 0 <= i < |listings| ensures Escrowed(token)(listings[i]) == SoldIn(token)(listings[i]) {
      assert ListingOk(listings[i]);
    }
    SumSame(listings, Escrowed(token), SoldIn(token));
  }

  // ----- the promises, over what is stored -----

  /** Custody counts the stored listings alone exactly when no lost listing was sold for the token. */
  lemma CustodyOfStoredIff(r: Run, k: nat, token: Address)
    requires ValidRun(r) && k < |r.states|
    ensures EarlyOk(r.states[k])
    ensures var s := r.states[k];
            var owed := Sum(s.log, Donated(token)) + Sum(Stored(s), SoldIn(token)) - Sum(s.log, Withdrawn(token));
            && Balance(s.log, token, Custodian) == owed + Sum(Lost(s), SoldIn(token)) >= owed
            && (Balance(s.log, token, Custodian) == owed <==>
                forall n :: 0 <= n < Overwritten(s) ==> !(s.listings[n].token == token && s.listings[n].status.Sold?))
  {
    hide Sum, Balance;
    CustodyConserved(r, k, token);
    RunKeepsInv(r, k);
    var s := r.states[k];
    forall n | 0 <= n < Overwritten(s) ensures s.listings[n].price > 0 {
      assert ListingOk(s.listings[n]);
    }
    SumSplits(s, Escrowed(token));
    EscrowedIsSold(Lost(s), token);
    EscrowedIsSold(Stored(s), token);
    EscrowedIsSold(s.listings, token);
  }

  /** The per-seller index counts the stored listings alone exactly when no lost listing of the seller
      was active; otherwise the seller's places stay taken. */
  lemma IndexOfStoredIff(r: Run, k: nat, seller: Address)
    requires ValidRun(r) && k < |r.states|
    ensures EarlyOk(r.states[k])
    ensures var s := r.states[k];
            && ActiveCount(s.activeCounts, seller) == Sum(Stored(s), ActiveOf(seller)) + Sum(Lost(s), ActiveOf(seller))
            && (ActiveCount(s.activeCounts, seller) == Sum(Stored(s), ActiveOf(seller)) <==>
                forall n :: 0 <= n < Overwritten(s) ==> !(s.listings[n].seller == seller && s.listings[n].status.Active?))
  {
    RunKeepsInv(r, k);
    var s := r.states[k];
    assert IndexOf(s.activeCounts, s.listings, seller);
    SumSplits(s, ActiveOf(seller));
  }

  /** A seller's record counts the stored listings alone exactly when no lost listing of the seller was
      settled. */
  lemma ReputationOfStoredIff(r: Run, k: nat, seller: Address)
    requires ValidRun(r) && k < |r.states|
    ensures EarlyOk(r.states[k])
    ensures var s := r.states[k];
            var rep := ReputationOf(s.reputations, seller);
            && rep.completed + rep.disputed == Sum(Stored(s), SettledOf(seller)) + Sum(Lost(s), SettledOf(seller))
            && (rep.completed + rep.disputed == Sum(Stored(s), SettledOf(seller)) <==>
                forall n :: 0 <= n < Overwritten(s) ==>
                  !(s.listings[n].seller == seller && s.listings[n].buyer.Some? && !s.listings[n].status.Sold?))
  {
    RunKeepsInv(r, k);
    ReputationAgrees(r, k, seller);
    SumSplits(r.states[k], SettledOf(seller));
  }

  // ----- what an id stands for, over time -----

  /** What a call does to the number of listings and to the counter's start. */
  lemma StepShape(s: State, now: Timestamp, c: Call)
    ensures var (s', r) := Step(s, now, c);
            && |s'.listings| == |s.listings| + (if r.Created? then 1 else 0)
            && (r.Created? ==> r.id == Counter(s) + 1 && s'.early == s.early)
            && (s'.early != s.early ==> s.admin.None? && s'.early == |s.listings|)
            && (s.admin.Some? ==> s'.admin.Some?) && (s.admin.None? && s'.admin.None? ==> s'.early == s.early)
  {
    hide Sum, Balance, Rated, Incremented, Decremented, InUse, Place, LastId;
  }

  lemma StepKeepsPlaces(s: State, now: Timestamp, c: Call)
    requires EarlyOk(s)
    ensures EarlyOk(Step(s, now, c).0) && Overwritten(s) <= Overwritten(Step(s, now, c).0)
    ensures s.admin.Some? ==> Step(s, now, c).0.admin.Some? && Step(s, now, c).0.early == s.early
    ensures forall id :: Known(s, id) ==> PlaceKept(s, Step(s, now, c).0, id)
  {
    hide Step;
    StepShape(s, now, c);
  }

  ghost predicate PlaceKept(s: State, s': State, id: nat)
    requires Known(s, id)
  {
    Known(s', id) && (Serial(s, id) > Overwritten(s') ==> Serial(s', id) == Serial(s, id))
  }

  /** Once overwritten, a listing never changes again: if it was sold, its price is never paid out. */
  lemma StepLeavesLost(s: State, now: Timestamp, c: Call, n: nat)
    requires EarlyOk(s) && n < Overwritten(s)
    ensures Step(s, now, c).0.listings[n] == s.listings[n]
  {
    hide Sum, Balance, Rated, Incremented, Decremented;
    IdsNameStored(s);
  }

  lemma EarlyFor(s: State)
    requires Inv(s)
    ensures EarlyOk(s)
  {
  }

  /** Over any stretch of a run, more and more listings are overwritten, and those that are stay as they were. */
  lemma {:induction false} RunPlaces(r: Run, i: nat, j: nat)
    requires ValidRun(r) && i <= j < |r.states|
    ensures EarlyOk(r.states[i]) && EarlyOk(r.states[j]) && Overwritten(r.states[i]) <= Overwritten(r.states[j])
    ensures r.states[i].admin.Some? ==> r.states[j].admin.Some? && r.states[j].early == r.states[i].early
    ensures forall n :: 0 <= n < Overwritten(r.states[i]) ==> r.states[j].listings[n] == r.states[i].listings[n]
    decreases j
  {
    hide Step, Inv, Known;
    RunKeepsInv(r, i);
    EarlyFor(r.states[i]);
    if i < j {
      RunPlaces(r, i, j - 1);
      assert StepsTo(r, j - 1);
      var s, e := r.states[j - 1], r.events[j - 1];
      StepKeepsPlaces(s, e.now, e.call);
      forall n | 0 <= n < Overwritten(s) ensures r.states[j].listings[n] == s.listings[n] {
        StepLeavesLost(s, e.now, e.call, n);
      }
    }
  }

  /** Over any stretch of a run an id goes on standing for the same listing exactly when that listing
      has not been overwritten. */
  lemma {:induction false} RunKeepsIdIff(r: Run, i: nat, j: nat, id: nat)
    requires ValidRun(r) && i <= j < |r.states| && Known(r.states[i], id)
    ensures Known(r.states[j], id)
    ensures Serial(r.states[j], id) == Serial(r.states[i], id) <==> Serial(r.states[i], id) > Overwritten(r.states[j])
    decreases j
  {
    hide Step, Inv;
    RunPlaces(r, i, j);
    IdsNameStored(r.states[i]);
    IdsNameStored(r.states[j]);
    if i < j {
      RunKeepsIdIff(r, i, j - 1, id);
      RunPlaces(r, j - 1, j);
      assert StepsTo(r, j - 1);
      StepKeepsPlaces(r.states[j - 1], r.events[j - 1].now, r.events[j - 1].call);
      assert PlaceKept(r.states[j - 1], r.states[j], id);
    }
  }

  /** Once a sold listing is overwritten its price is never paid out to anyone. */
  lemma StrandedForGood(r: Run, i: nat, j: nat, n: nat)
    requires ValidRun(r) && i <= j < |r.states| && EarlyOk(r.states[i])
    requires 1 <= n <= Overwritten(r.states[i]) && r.states[i].listings[n - 1].status.Sold?
    ensures r.states[i].listings[n - 1].buyer.Some?
    ensures var l := r.states[i].listings[n - 1];
            Filter(r.states[j].log, For(n, 1)) == [DepositMove(l, n, l.buyer.value)]
  {
    hide Inv, Known, Filter;
    RunPlaces(r, i, j);
    RunKeepsInv(r, i);
    EarlyFor(r.states[i]);
    assert ListingOk(r.states[i].listings[n - 1]) by { ListingFor(r.states[i], n); }
    ListingPaidOnce(r, j, n);
  }

  // ----- when a listing is overwritten -----

  /** A call overwrites a listing exactly when it is a successful create and the id after the listing
      count is still in use. */
  lemma OverwritesIff(s: State, now: Timestamp, c: Call)
    requires Inv(s)
    ensures Overwritten(Step(s, now, c).0) > Overwritten(s)
       <==> Step(s, now, c).1.Created? && Known(s, Counter(s) + 1)
    ensures Step(s, now, c).1.Created? ==> Step(s, now, c).1.id == Counter(s) + 1
  {
    hide Step, StoriesOk, CustodyOk, IndexOk, RatingsOk, ListingsOk;
    StepShape(s, now, c);
  }

  /** Every stored listing stays under its id, and changes only as a listing may. */
  ghost predicate ListingsLast(r: Run)
    requires |r.states| > 0
  {
    forall i, j, id :: 0 <= i <= j < |r.states| && Known(r.states[i], id) ==>
      Known(r.states[j], id) && Keeps(At(r.states[i], id), At(r.states[j], id))
  }

  function FreshAccount(listings: seq<Listing>): (n: nat)
    ensures forall i :: 0 <= i < |listings| ==> listings[i].seller.Custodian? || listings[i].seller.id < n
  {
    if |listings| == 0 then 0
    else
      var n, a := FreshAccount(listings[..|listings| - 1]), listings[|listings| - 1].seller;
      if a.Account? && a.id >= n then a.id + 1 else n
  }

  /** The exact condition on `initialize`, which its caller can read off the listing count: listings last
      in every continuation if and only if none exists yet. */
  lemma InitializeSafeIff(s: State, now: Timestamp, admin: Address)
    requires Inv(s) && s.admin.None? && s.clock <= now
    ensures Counter(s) == 0 <==>
            forall r :: RunFrom(r, DoInitialize(s, now, admin).0) ==> ListingsLast(r)
  {
    hide Inv;
    StepKeepsInv(s, now, Initialize(admin));
    var s1 := DoInitialize(s, now, admin).0;
    EarlyFor(s);
    if Counter(s) == 0 {
      forall r | RunFrom(r, s1) ensures ListingsLast(r) {
        forall i: nat, j: nat, id: nat | i <= j < |r.states| && Known(r.states[i], id)
          ensures Known(r.states[j], id) && Keeps(At(r.states[i], id), At(r.states[j], id))
        {
          SafeRun(r, s1, i);
          LastsFrom(r, s1, i, j, id);
        }
      }
    } else {
      var r := Replacing(s, now, admin);
      assert RunFrom(r, s1) && !ListingsLast(r);
    }
  }

  lemma {:induction false} SafeRun(r: Run, s: State, k: nat)
    requires RunFrom(r, s) && Inv(s) && s.admin.Some? && s.early == 0 && k < |r.states|
    ensures Inv(r.states[k]) && r.states[k].admin.Some? && r.states[k].early == 0
    ensures r.states[k].clock == if k == 0 then s.clock else r.events[k - 1].now
  {
    hide Step, Inv;
    if k > 0 {
      SafeRun(r, s, k - 1);
      assert StepsTo(r, k - 1);
      var t, e := r.states[k - 1], r.events[k - 1];
      StepKeepsInv(t, e.now, e.call);
      StepClock(t, e.now, e.call);
      EarlyFor(t);
      StepKeepsPlaces(t, e.now, e.call);
    }
  }

  lemma {:induction false} LastsFrom(r: Run, s: State, i: nat, j: nat, id: nat)
    requires RunFrom(r, s) && Inv(s) && s.admin.Some? && s.early == 0
    requires i <= j < |r.states| && Known(r.states[i], id) && r.states[i].early == 0
    ensures Known(r.states[j], id) && r.states[j].early == 0 && Keeps(At(r.states[i], id), At(r.states[j], id))
    decreases j
  {
    hide Step, Inv;
    SafeRun(r, s, j);
    if i < j {
      LastsFrom(r, s, i, j - 1, id);
      SafeRun(r, s, j - 1);
      assert StepsTo(r, j - 1);
      StepKeepsListing(r.states[j - 1], r.events[j - 1].now, r.events[j - 1].call, id - 1);
    }
  }

  /** A continuation in which someone who never listed anything is given id 1 again. */
  lemma Replacing(s: State, now: Timestamp, admin: Address) returns (r: Run)
    requires Inv(s) && s.admin.None? && s.clock <= now && Counter(s) > 0
    ensures RunFrom(r, DoInitialize(s, now, admin).0) && !ListingsLast(r)
  {
    hide StoriesOk, CustodyOk, ListingsOk, RatingsOk;
    var s1 := DoInitialize(s, now, admin).0;
    var seller := Account(FreshAccount(s.listings));
    assert IndexOf(s.activeCounts, s.listings, seller);
    SumZero(s.listings, ActiveOf(seller));
    var c := CreateListing(seller, Account(0), 1, Airtime, "", 1, now + 1);
    var (s2, reply) := Step(s1, now, c);
    r := Run([Event(now, c)], [reply], [s1, s2]);
    assert s2.listings == s1.listings + [s2.listings[|s1.listings|]];
    assert Known(r.states[0], 1) && At(r.states[0], 1) == s.listings[0];
    assert At(r.states[1], 1).seller == seller != s.listings[0].seller;
  }

  // ----- over a whole run -----

  /** An `initialize` that came after listings had been made. */
  ghost predicate LateInitialize(r: Run, i: nat)
    requires i < |r.events| == |r.replies| < |r.states|
  {
    r.events[i].call.Initialize? && r.replies[i].Done? && Counter(r.states[i]) > 0
  }

  ghost predicate Creates(r: Run, j: nat)
    requires j < |r.replies|
  {
    r.replies[j].Created?
  }

  lemma {:induction false} EarlyFrom(r: Run, k: nat) returns (i: nat)
    requires ValidRun(r) && k < |r.states| && r.states[k].early > 0
    ensures i < k && LateInitialize(r, i)
  {
    hide Inv, Sum, Balance, Rated, Incremented, Decremented, Known;
    RunPlaces(r, 0, k - 1);
    assert StepsTo(r, k - 1);
    StepShape(r.states[k - 1], r.events[k - 1].now, r.events[k - 1].call);
    if r.states[k - 1].early > 0 {
      i := EarlyFrom(r, k - 1);
    } else {
      i := k - 1;
    }
  }

  /** In every run, a listing has been overwritten exactly when some listing was made before a successful
      `initialize` and another after it. */
  lemma {:induction false} OverwrittenIff(r: Run, k: nat)
    requires ValidRun(r) && k < |r.states|
    ensures Overwritten(r.states[k]) > 0 <==>
            exists i, j :: 0 <= i < j < k && LateInitialize(r, i) && Creates(r, j)
  {
    hide Step, Inv, Known, Serial;
    if Overwritten(r.states[k]) > 0 {
      RunPlaces(r, 0, k - 1);
      RunKeepsInv(r, k - 1);
      assert StepsTo(r, k - 1);
      StepShape(r.states[k - 1], r.events[k - 1].now, r.events[k - 1].call);
      if Overwritten(r.states[k - 1]) > 0 {
        OverwrittenIff(r, k - 1);
      } else {
        var i := EarlyFrom(r, k - 1);
        assert LateInitialize(r, i) && Creates(r, k - 1);
      }
    }
    if i, j :| 0 <= i < j < k && LateInitialize(r, i) && Creates(r, j) {
      LateCreate(r, i, j);
      RunPlaces(r, j + 1, k);
    }
  }

  lemma LateCreate(r: Run, i: nat, j: nat)
    requires ValidRun(r) && i < j < |r.events| && LateInitialize(r, i) && Creates(r, j)
    ensures Overwritten(r.states[j + 1]) > 0
  {
    hide Sum, Balance, Rated, Incremented, Decremented, Inv;
    RunPlaces(r, 0, i);
    assert StepsTo(r, i);
    RunPlaces(r, i + 1, j);
    assert StepsTo(r, j);
    StepShape(r.states[j], r.events[j].now, r.events[j].call);
  }

  /** When no listing precedes `initialize`, ids are places in the list, and custody, index and reputation
      count exactly the stored listings. */
  lemma PromptInitialize(r: Run, k: nat, token: Address, seller: Address)
    requires ValidRun(r) && k < |r.states| && forall i :: 0 <= i < k ==> !LateInitialize(r, i)
    ensures var s := r.states[k];
            && EarlyOk(s) && Stored(s) == s.listings && (forall id :: Known(s, id) ==> Serial(s, id) == id)
            && Balance(s.log, token, Custodian)
               == Sum(s.log, Donated(token)) + Sum(Stored(s), SoldIn(token)) - Sum(s.log, Withdrawn(token))
            && ActiveCount(s.activeCounts, seller) == Sum(Stored(s), ActiveOf(seller))
            && ReputationOf(s.reputations, seller).completed + ReputationOf(s.reputations, seller).disputed
               == Sum(Stored(s), SettledOf(seller))
  {
    hide Sum, Balance, Inv;
    if r.states[k].early > 0 {
      var i := EarlyFrom(r, k);
      assert false;
    }
    CustodyOfStoredIff(r, k, token);
    IndexOfStoredIff(r, k, seller);
    ReputationOfStoredIff(r, k, seller);
  }

  // ----- a run that goes wrong -----

  const Shop: Address := Account(1)
  const Customer: Address := Account(2)
  const Coin: Address := Account(3)

  function Offer(seller: Address): Call {
    CreateListing(seller, Coin, 5, Airtime, "MTN", 100, 10)
  }

  /** Two listings, one of them sold, then `initialize`, then two listings by another seller. */
  const Mishap: seq<Event> := [
    Event(1, Offer(Shop)), Event(1, Offer(Shop)), Event(1, Call.Outside(Coin, None, Customer, 5)),
    Event(1, Deposit(Customer, 1)), Event(1, Initialize(Account(4))),
    Event(2, Offer(Account(5))), Event(2, Offer(Account(5)))]

  const Offered: Listing := Listing(Shop, Coin, 5, Airtime, "MTN", 100, Active, 1, 10, None, Unsettled)
  const Bought: Listing := Offered.(status := Sold, buyer := Some(Customer))
  const Reoffered: Listing := Offered.(seller := Account(5), createdAt := 2)
  const PaidIn: seq<Move> := [Move(Coin, None, Customer, 5, Purpose.Outside), Move(Coin, Some(Customer), Custodian, 5, ForFill(1, 1))]

  lemma PaidInBalances()
    ensures Balance(PaidIn[..1], Coin, Customer) == 5 && Balance(PaidIn, Coin, Custodian) == 5
    ensures Sum(PaidIn, Donated(Coin)) == Sum(PaidIn, Withdrawn(Coin)) == 0
  {
    assert PaidIn[..1] == [PaidIn[0]] && PaidIn == [PaidIn[0]] + [PaidIn[1]];
    SumOne(PaidIn[0], Delta(Coin, Customer));
    SumOne(PaidIn[0], Delta(Coin, Custodian));
    SumSnoc([PaidIn[0]], PaidIn[1], Delta(Coin, Custodian));
    SumZero(PaidIn, Donated(Coin));
    SumZero(PaidIn, Withdrawn(Coin));
  }

  lemma TwoOffers() returns (s: State, t: State)
    ensures Step(Genesis, 1, Offer(Shop)) == (s, Created(1)) && Step(s, 1, Offer(Shop)) == (t, Created(2))
    ensures t == Genesis.(listings := [Offered, Offered], activeCounts := map[Shop := 2], clock := 1)
  {
    s := Step(Genesis, 1, Offer(Shop)).0;
    assert s.listings == [Offered];
    t := Step(s, 1, Offer(Shop)).0;
    assert t.listings == [Offered, Offered];
  }

  lemma OneSale(s: State) returns (t: State, u: State)
    requires s == Genesis.(listings := [Offered, Offered], activeCounts := map[Shop := 2], clock := 1)
    ensures Step(s, 1, Call.Outside(Coin, None, Customer, 5)) == (t, Done) && Step(t, 1, Deposit(Customer, 1)) == (u, Done)
    ensures u == s.(listings := [Bought, Offered], activeCounts := map[Shop := 1], log := PaidIn)
  {
    PaidInBalances();
    hide Sum, Balance;
    t := Step(s, 1, Call.Outside(Coin, None, Customer, 5)).0;
    assert t.log == PaidIn[..1];
    u := Step(t, 1, Deposit(Customer, 1)).0;
    assert u.log == PaidIn && u.listings == [Bought, Offered];
  }

  lemma TwoMoreOffers(s: State) returns (t: State, u: State, v: State)
    requires s == Genesis.(listings := [Bought, Offered], activeCounts := map[Shop := 1], log := PaidIn, clock := 1)
    ensures Step(s, 1, Initialize(Account(4))) == (t, Done)
    ensures Step(t, 2, Offer(Account(5))) == (u, Created(1)) && Step(u, 2, Offer(Account(5))) == (v, Created(2))
    ensures v.listings == [Bought, Offered, Reoffered, Reoffered] && v.early == 2 && v.log == PaidIn
    ensures ActiveCount(v.activeCounts, Shop) == 1
  {
    t := Step(s, 1, Initialize(Account(4))).0;
    u := Step(t, 2, Offer(Account(5))).0;
    assert u.listings == [Bought, Offered, Reoffered];
    v := Step(u, 2, Offer(Account(5))).0;
    assert v.listings == [Bought, Offered, Reoffered, Reoffered];
  }

  /** The same ids are given out twice.  The customer's 5 stay in the contract with no stored listing
      they were paid for, and a place in the shop's index stays taken with no listing in it. */
  lemma LateInitializeStrands() returns (r: Run)
    ensures ValidRun(r) && r.events == Mishap
    ensures r.replies == [Created(1), Created(2), Done, Done, Done, Created(1), Created(2)]
    ensures var s := r.states[7];
            && (forall id :: Known(s, id) ==> At(s, id).seller == Account(5) && At(s, id).status.Active?)
            && Balance(s.log, Coin, Custodian) == 5 && Sum(s.log, Donated(Coin)) == Sum(s.log, Withdrawn(Coin)) == 0
            && ActiveCount(s.activeCounts, Shop) == 1
  {
    hide Step, Sum, Balance;
    PaidInBalances();
    var s1, s2 := TwoOffers();
    var s3, s4 := OneSale(s2);
    var s5, s6, s7 := TwoMoreOffers(s4);
    r := Run(Mishap, [Created(1), Created(2), Done, Done, Done, Created(1), Created(2)],
             [Genesis, s1, s2, s3, s4, s5, s6, s7]);
    assert forall k :: 0 <= k < 7 ==> StepsTo(r, k);
  }
}

/**
 The marketplace contract as a state machine, one function a call.  `listings` keeps
 every listing ever made, oldest first, replaced ones included: listings can be made before
 `initialize`, which sets the listing counter back to zero, and the ids given out after it
 overwrite the `early` listings made before.  `outcome` records who was paid, which the
 contract itself does not store for a cancelled sale.
 */
module MarketSpec {
  import opened Sums
  import opened TokenLedger

  const EMERGENCY_TIMELOCK_SECS: nat := 72 * 60 * 60
  const MAX_ACTIVE_LISTINGS_PER_SELLER: nat := 10
  const U32_MAX: nat := 0xFFFF_FFFF

  datatype Error =
    | AlreadyInitialized | Unauthorized | TradeNotFound | WrongStatus | TradeExpired | InsufficientFunds
    | InvalidExpiry | ContractPaused | TimelockNotExpired | InvalidAmount | NotAParty | StorageLimitExceeded

  /** `Trapped` is a call the host aborts and rolls back: an uncovered transfer, or an overflowing counter. */
  datatype Reply = Done | Created(id: nat) | Failed(error: Error) | Trapped

  datatype Category = Airtime | Data
  datatype ListingStatus = Active | Sold | Released | Cancelled
  datatype Outcome = Unsettled | SellerPaid | BuyerRefunded

  datatype Listing = Listing(
    seller: Address, token: Address, price: int, category: Category, assetType: Symbol, quantity: int,
    status: ListingStatus, createdAt: nat, expiresAt: nat, buyer: Option<Address>, outcome: Outcome)

  datatype Reputation = Reputation(completed: nat, disputed: nat, volume: int)

  datatype State = State(
    admin: Option<Address>, paused: bool, pausedAt: Option<nat>, listings: seq<Listing>, early: nat,
    reputations: map<Address, Reputation>, activeCounts: map<Address, nat>, log: seq<Move>, clock: nat)

  const Genesis: State := State(None, false, None, [], 0, map[], map[], [], 0)

  datatype Call =
    | Initialize(admin: Address)
    | Pause
    | Unpause
    | TransferAdmin(newAdmin: Address)
    | CreateListing(seller: Address, token: Address, price: I128, category: Category, assetType: Symbol,
                    quantity: I128, expiresAt: nat)
    | Deposit(buyer: Address, id: nat)
    | ReleasePayment(id: nat)
    | CancelAndRefund(buyer: Address, id: nat)
    | ResolveDispute(id: nat, recipient: Address)
    | UpdateListing(seller: Address, id: nat, price: I128, expiresAt: nat)
    | CancelListing(seller: Address, id: nat)
    | CloseExpired(id: nat)
    | EmergencyWithdraw(token: Address, recipient: Address, amount: I128)
    | Outside(token: Address, from: Option<Address>, to: Address, sent: nat)

  /** The contract signs no call itself, and no outside transfer is made in its name. */
  predicate Legal(c: Call) {
    match c
    case CreateListing(seller, _, _, _, _, _, _) => seller != Custodian
    case Deposit(buyer, _) => buyer != Custodian
    case Outside(_, from, _, _) => from != Some(Custodian)
    case _ => true
  }

  function Refuse(s: State, now: Timestamp, e: Error): (State, Reply) {
    (s.(clock := now), Failed(e))
  }

  function Abort(s: State, now: Timestamp): (State, Reply) {
    (s.(clock := now), Trapped)
  }

  // ----- the per-seller index -----

  function ActiveCount(counts: map<Address, nat>, seller: Address): nat {
    if seller in counts then counts[seller] else 0
  }

  /** Saturates at the top of u32. */
  function Incremented(counts: map<Address, nat>, seller: Address): map<Address, nat> {
    var n := ActiveCount(counts, seller);
    counts[seller := if n >= U32_MAX then U32_MAX else n + 1]
  }

  /** Saturates at zero, and drops the entry when nothing is left. */
  function Decremented(counts: map<Address, nat>, seller: Address): map<Address, nat> {
    var n := ActiveCount(counts, seller);
    if n <= 1 then counts - {seller} else counts[seller := n - 1]
  }

  // ----- reputation -----

  function ReputationOf(reps: map<Address, Reputation>, seller: Address): Reputation {
    if seller in reps then reps[seller] else Reputation(0, 0, 0)
  }

  /** The record after one more trade; None when a counter or the volume would overflow. */
  function Rated(rep: Reputation, volume: int, disputed: bool): Option<Reputation> {
    if disputed then
      if rep.disputed < U32_MAX then Some(rep.(disputed := rep.disputed + 1)) else None
    else
      if rep.completed < U32_MAX && rep.volume + volume <= I128_MAX
      then Some(rep.(completed := rep.completed + 1, volume := rep.volume + volume)) else None
  }

  // ----- the calls -----

  function DoInitialize(s: State, now: Timestamp, admin: Address): (State, Reply) {
    if s.admin.Some? then Refuse(s, now, AlreadyInitialized)
    else (s.(clock := now, admin := Some(admin), paused := false, early := |s.listings|), Done)
  }

  function DoPause(s: State, now: Timestamp): (State, Reply) {
    if s.admin.None? then Refuse(s, now, Unauthorized)
    else (s.(clock := now, paused := true, pausedAt := if s.paused then s.pausedAt else Some(now)), Done)
  }

  function DoUnpause(s: State, now: Timestamp): (State, Reply) {
    if s.admin.None? then Refuse(s, now, Unauthorized)
    else (s.(clock := now, paused := false, pausedAt := None), Done)
  }

  function DoTransferAdmin(s: State, now: Timestamp, newAdmin: Address): (State, Reply) {
    if s.admin.None? then Refuse(s, now, Unauthorized)
    else (s.(clock := now, admin := Some(newAdmin)), Done)
  }

  function DoCreate(s: State, now: Timestamp, seller: Address, token: Address, price: I128, category: Category,
                    assetType: Symbol, quantity: I128, expiresAt: nat): (State, Reply)
  {
    if s.paused then Refuse(s, now, ContractPaused)
    else if price <= 0 || quantity <= 0 then Refuse(s, now, InvalidAmount)
    else if expiresAt <= now then Refuse(s, now, InvalidExpiry)
    else if ActiveCount(s.activeCounts, seller) >= MAX_ACTIVE_LISTINGS_PER_SELLER then Refuse(s, now, StorageLimitExceeded)
    else
      var l := Listing(seller, token, price, category, assetType, quantity, Active, now, expiresAt, None, Unsettled);
      (s.(clock := now, listings := s.listings + [l], activeCounts := Incremented(s.activeCounts, seller)),
       Created(Counter(s) + 1))
  }

  // ----- which listing an id stands for -----

  /** Of `made` listings, `early` before `initialize`: the last id given out since. */
  function LastId(made: nat, early: nat): nat {
    if early <= made then made - early else 0
  }

  predicate InUse(made: nat, early: nat, id: nat) {
    1 <= id && (id <= LastId(made, early) || id <= early <= made)
  }

  /** The place, in the order they were made, of the listing stored under the id. */
  function Place(made: nat, early: nat, id: nat): (n: nat)
    requires InUse(made, early, id)
    ensures 1 <= n <= made
  {
    if id <= LastId(made, early) then early + id else id
  }

  /** The stored listing counter. */
  function Counter(s: State): nat {
    LastId(|s.listings|, s.early)
  }

  /** There is an entry stored under the id. */
  predicate Known(s: State, id: nat) {
    InUse(|s.listings|, s.early, id)
  }

  function Serial(s: State, id: nat): (n: nat)
    requires Known(s, id)
    ensures Made(s, n)
  {
    Place(|s.listings|, s.early, id)
  }

  predicate Made(s: State, n: nat) {
    1 <= n <= |s.listings|
  }

  function At(s: State, id: nat): Listing
    requires Known(s, id)
  {
    s.listings[Serial(s, id) - 1]
  }

  /** How many listings have been overwritten: the first ones made. */
  function Overwritten(s: State): nat {
    if s.early <= Counter(s) then s.early else Counter(s)
  }

  /** Changes the n-th listing made and takes it off its seller's index. */
  function TakeDown(s: State, now: Timestamp, n: nat, l: Listing, moves: seq<Move>): (State, Reply)
    requires Made(s, n)
  {
    (s.(clock := now, listings := s.listings[n - 1 := l], log := s.log + moves,
        activeCounts := Decremented(s.activeCounts, l.seller)), Done)
  }

  function DepositMove(l: Listing, n: nat, buyer: Address): Move {
    Move(l.token, Some(buyer), Custodian, l.price, ForFill(n, 1))
  }

  function PayoutMove(l: Listing, n: nat, payee: Address): Move {
    Move(l.token, Some(Custodian), payee, l.price, ForFill(n, 1))
  }

  function DoDeposit(s: State, now: Timestamp, buyer: Address, id: nat): (State, Reply) {
    if s.paused then Refuse(s, now, ContractPaused)
    else if !Known(s, id) then Refuse(s, now, TradeNotFound)
    else
      var l := At(s, id);
      if !l.status.Active? then Refuse(s, now, WrongStatus)
      else if now >= l.expiresAt then Refuse(s, now, TradeExpired)
      else if buyer == l.seller then Refuse(s, now, Unauthorized)
      else if Balance(s.log, l.token, buyer) < l.price then Abort(s, now)
      else TakeDown(s, now, Serial(s, id), l.(status := Sold, buyer := Some(buyer)), [DepositMove(l, Serial(s, id), buyer)])
  }

  /** Pays a sold listing out, to its seller or to its buyer, and rates the seller. */
  function PayOut(s: State, now: Timestamp, n: nat, payee: Address, status: ListingStatus, disputed: bool): (State, Reply)
    requires Made(s, n)
  {
    var l := s.listings[n - 1];
    var rated := Rated(ReputationOf(s.reputations, l.seller), l.price, disputed);
    if Balance(s.log, l.token, Custodian) < l.price || rated.None? then Abort(s, now)
    else (s.(clock := now,
             listings := s.listings[n - 1 := l.(status := status, outcome := if disputed then BuyerRefunded else SellerPaid)],
             reputations := s.reputations[l.seller := rated.value],
             log := s.log + [PayoutMove(l, n, payee)]), Done)
  }

  function DoReleasePayment(s: State, now: Timestamp, id: nat): (State, Reply) {
    if s.paused then Refuse(s, now, ContractPaused)
    else if s.admin.None? then Refuse(s, now, Unauthorized)
    else if !Known(s, id) then Refuse(s, now, TradeNotFound)
    else if !At(s, id).status.Sold? then Refuse(s, now, WrongStatus)
    else PayOut(s, now, Serial(s, id), At(s, id).seller, Released, false)
  }

  function DoCancelAndRefund(s: State, now: Timestamp, buyer: Address, id: nat): (State, Reply) {
    if s.paused then Refuse(s, now, ContractPaused)
    else if s.admin.None? then Refuse(s, now, Unauthorized)
    else if !Known(s, id) then Refuse(s, now, TradeNotFound)
    else if !At(s, id).status.Sold? then Refuse(s, now, WrongStatus)
    else if At(s, id).buyer != Some(buyer) then Refuse(s, now, Unauthorized)
    else PayOut(s, now, Serial(s, id), buyer, Cancelled, true)
  }

  function DoResolveDispute(s: State, now: Timestamp, id: nat, recipient: Address): (State, Reply) {
    if s.paused then Refuse(s, now, ContractPaused)
    else if s.admin.None? then Refuse(s, now, Unauthorized)
    else if !Known(s, id) then Refuse(s, now, TradeNotFound)
    else if !At(s, id).status.Sold? then Refuse(s, now, WrongStatus)
    else if recipient != At(s, id).seller && At(s, id).buyer != Some(recipient)
    then Refuse(s, now, NotAParty)
    else PayOut(s, now, Serial(s, id), recipient, Cancelled, recipient != At(s, id).seller)
  }

  function DoUpdate(s: State, now: Timestamp, seller: Address, id: nat, price: I128, expiresAt: nat): (State, Reply) {
    if s.paused then Refuse(s, now, ContractPaused)
    else if price <= 0 then Refuse(s, now, InvalidAmount)
    else if expiresAt <= now then Refuse(s, now, InvalidExpiry)
    else if !Known(s, id) then Refuse(s, now, TradeNotFound)
    else if At(s, id).seller != seller then Refuse(s, now, Unauthorized)
    else if !At(s, id).status.Active? then Refuse(s, now, WrongStatus)
    else (s.(clock := now, listings := s.listings[Serial(s, id) - 1 := At(s, id).(price := price, expiresAt := expiresAt)]), Done)
  }

  function DoCancelListing(s: State, now: Timestamp, seller: Address, id: nat): (State, Reply) {
    if s.paused then Refuse(s, now, ContractPaused)
    else if !Known(s, id) then Refuse(s, now, TradeNotFound)
    else if At(s, id).seller != seller then Refuse(s, now, Unauthorized)
    else if !At(s, id).status.Active? then Refuse(s, now, WrongStatus)
    else TakeDown(s, now, Serial(s, id), At(s, id).(status := Cancelled), [])
  }

  function DoCloseExpired(s: State, now: Timestamp, id: nat): (State, Reply) {
    if s.paused then Refuse(s, now, ContractPaused)
    else if !Known(s, id) then Refuse(s, now, TradeNotFound)
    else if !At(s, id).status.Active? then Refuse(s, now, WrongStatus)
    else if now < At(s, id).expiresAt then Refuse(s, now, TradeExpired)
    else TakeDown(s, now, Serial(s, id), At(s, id).(status := Cancelled), [])
  }

  function DoEmergencyWithdraw(s: State, now: Timestamp, token: Address, recipient: Address, amount: I128): (State, Reply) {
    if s.admin.None? then Refuse(s, now, Unauthorized)
    else if !s.paused then Refuse(s, now, WrongStatus)
    else if amount <= 0 then Refuse(s, now, InvalidAmount)
    else if now < (if s.pausedAt.Some? then s.pausedAt.value else 0) + EMERGENCY_TIMELOCK_SECS
    then Refuse(s, now, TimelockNotExpired)
    else if Balance(s.log, token, Custodian) < amount then Refuse(s, now, InsufficientFunds)
    else (s.(clock := now, log := s.log + [Move(token, Some(Custodian), recipient, amount, Recovery)]), Done)
  }

  function DoOutside(s: State, now: Timestamp, token: Address, from: Option<Address>, to: Address, sent: nat): (State, Reply) {
    if from.Some? && Balance(s.log, token, from.value) < sent then Abort(s, now)
    else (s.(clock := now, log := s.log + [Move(token, from, to, sent, Purpose.Outside)]), Done)
  }

  function Step(s: State, now: Timestamp, c: Call): (State, Reply) {
    match c
    case Initialize(admin) => DoInitialize(s, now, admin)
    case Pause => DoPause(s, now)
    case Unpause => DoUnpause(s, now)
    case TransferAdmin(newAdmin) => DoTransferAdmin(s, now, newAdmin)
    case CreateListing(seller, token, price, category, assetType, quantity, expiresAt) =>
      DoCreate(s, now, seller, token, price, category, assetType, quantity, expiresAt)
    case Deposit(buyer, id) => DoDeposit(s, now, buyer, id)
    case ReleasePayment(id) => DoReleasePayment(s, now, id)
    case CancelAndRefund(buyer, id) => DoCancelAndRefund(s, now, buyer, id)
    case ResolveDispute(id, recipient) => DoResolveDispute(s, now, id, recipient)
    case UpdateListing(seller, id, price, expiresAt) => DoUpdate(s, now, seller, id, price, expiresAt)
    case CancelListing(seller, id) => DoCancelListing(s, now, seller, id)
    case CloseExpired(id) => DoCloseExpired(s, now, id)
    case EmergencyWithdraw(token, recipient, amount) => DoEmergencyWithdraw(s, now, token, recipient, amount)
    case Outside(token, from, to, sent) => DoOutside(s, now, token, from, to, sent)
  }
}

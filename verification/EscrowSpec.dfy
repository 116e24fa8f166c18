/**
 The escrow contract as a state machine: one function a contract call, giving the
 new state and the reply.  A trade keeps its fills in fill-id order, and the
 transfers the contract and the outside world have made are kept in `log`.
 */
module EscrowSpec {
  import opened Sums
  import opened TokenLedger

  const EMERGENCY_TIMELOCK_SECS: nat := 72 * 60 * 60
  const MAX_EXPIRY_SECS: nat := 30 * 24 * 60 * 60
  const DISPUTE_WINDOW_SECS: nat := 24 * 60 * 60
  const PAUSE_COOLDOWN_SECONDS: nat := 300

  datatype Error =
    | AlreadyInitialized | Unauthorized | TradeNotFound | WrongStatus | TradeExpired
    | InsufficientFunds | InvalidExpiry | AlreadyDisputed | ContractPaused | TimelockNotExpired
    | UnsupportedToken | InvalidAmount | FillAlreadyProcessed | NotAParty
    | PauseCooldownNotExpired | InvalidCategory | DuplicateFill

  /** `Failed` is an error the contract returns; `Trapped` is a call the host aborts
      and rolls back, here a token transfer its payer cannot cover. */
  datatype Reply = Done | Created(id: nat) | Failed(error: Error) | Trapped

  datatype TradeStatus = Open | PartiallyFilled | Locked | Completed | Disputed | Cancelled
  datatype FillState = Held | Released | Refunded
  datatype Fill = Fill(buyer: Address, amount: int, state: FillState)

  /** `stored` is false once the trade's storage entry has been reclaimed. */
  datatype Trade = Trade(
    seller: Address, token: Address, total: int, filled: int, assetType: Symbol,
    status: TradeStatus, expiresAt: nat, stored: bool, windowClose: Option<nat>, fills: seq<Fill>)

  datatype State = State(
    admin: Option<Address>, paused: bool, pausedAt: Option<nat>,
    tokens: set<Address>, categories: set<Symbol>,
    trades: seq<Trade>, log: seq<Move>, clock: nat)

  const Genesis: State := State(None, false, None, {}, {}, [], [], 0)

  datatype Call =
    | Initialize(admin: Address, allowed: set<Address>)
    | Pause
    | Unpause
    | CreateListing(seller: Address, token: Address, total: I128, assetType: Symbol, expiresAt: nat)
    | AddAllowedToken(token: Address)
    | RemoveAllowedToken(token: Address)
    | AddCategory(category: Symbol)
    | RemoveCategory(category: Symbol)
    | TransferAdmin(newAdmin: Address)
    | Deposit(buyer: Address, id: nat, amount: I128)
    | ReleasePayment(id: nat, fillId: nat)
    | ReleaseByTimelock(caller: Address, id: nat, fillId: nat)
    | CancelAndRefund(caller: Address, id: nat)
    | CloseExpired(id: nat)
    | FlagDispute(caller: Address, id: nat)
    | EmergencyWithdraw(token: Address, recipient: Address, amount: I128)
    | Outside(token: Address, from: Option<Address>, to: Address, sent: nat)

  /** The contract cannot sign calls to itself, so it is no seller and no buyer,
      and no outside transfer is made in its name. */
  predicate Legal(c: Call) {
    match c
    case CreateListing(seller, _, _, _, _) => seller != Custodian
    case Deposit(buyer, _, _) => buyer != Custodian
    case Outside(_, from, _, _) => from != Some(Custodian)
    case _ => true
  }

  /** The calls that post a listing, move escrowed funds or change a trade's standing: those a pause stops. */
  predicate MovesEscrow(c: Call) {
    c.CreateListing? || c.Deposit? || c.ReleasePayment? || c.ReleaseByTimelock? || c.CancelAndRefund? || c.FlagDispute?
  }

  // ----- reading the state -----

  function Stored(s: State, id: nat): Option<Trade> {
    if 1 <= id <= |s.trades| && s.trades[id - 1].stored then Some(s.trades[id - 1]) else None
  }

  /** Fill amounts, by what has become of the fill. */
  function HeldAmount(): Fill -> int {
    (f: Fill) => if f.state.Held? then f.amount else 0
  }

  function ReleasedAmount(): Fill -> int {
    (f: Fill) => if f.state.Released? then f.amount else 0
  }

  function KeptAmount(): Fill -> int {
    (f: Fill) => if f.state.Refunded? then 0 else f.amount
  }

  function EveryAmount(): Fill -> int {
    (f: Fill) => f.amount
  }

  predicate NoneHeld(fills: seq<Fill>) {
    forall i :: 0 <= i < |fills| ==> !fills[i].state.Held?
  }

  predicate HoldsActive(fills: seq<Fill>, buyer: Address) {
    exists i :: 0 <= i < |fills| && fills[i].state.Held? && fills[i].buyer == buyer
  }

  /** The fills a refund by `caller` settles: all held ones for the admin, else the caller's own. */
  predicate Refundable(f: Fill, caller: Address, isAdmin: bool) {
    f.state.Held? && (isAdmin || f.buyer == caller)
  }

  function RefundAmount(caller: Address, isAdmin: bool): Fill -> int {
    (f: Fill) => if Refundable(f, caller, isAdmin) then f.amount else 0
  }

  function AfterRefund(fills: seq<Fill>, caller: Address, isAdmin: bool): (r: seq<Fill>)
    ensures |r| == |fills|
    ensures forall i :: 0 <= i < |fills| ==>
      r[i] == if Refundable(fills[i], caller, isAdmin) then fills[i].(state := Refunded) else fills[i]
  {
    seq(|fills|, i requires 0 <= i < |fills| =>
      if Refundable(fills[i], caller, isAdmin) then fills[i].(state := Refunded) else fills[i])
  }

  function DepositMove(t: Trade, id: nat, fillId: nat, f: Fill): Move {
    Move(t.token, Some(f.buyer), Custodian, f.amount, ForFill(id, fillId))
  }

  function PayMove(t: Trade, id: nat, fillId: nat, f: Fill): Move {
    Move(t.token, Some(Custodian), t.seller, f.amount, ForFill(id, fillId))
  }

  function RefundMove(t: Trade, id: nat, fillId: nat, f: Fill): Move {
    Move(t.token, Some(Custodian), f.buyer, f.amount, ForFill(id, fillId))
  }

  /** The transfers a refund makes for the first n fills, in fill order. */
  function RefundMoves(t: Trade, id: nat, caller: Address, isAdmin: bool, n: nat): seq<Move>
    requires n <= |t.fills|
  {
    if n == 0 then []
    else RefundMoves(t, id, caller, isAdmin, n - 1)
         + (if Refundable(t.fills[n - 1], caller, isAdmin) then [RefundMove(t, id, n, t.fills[n - 1])] else [])
  }

  // ----- the calls -----

  function SaturatingAdd(a: nat, b: nat): nat {
    if a + b > U64_MAX then U64_MAX else a + b
  }

  function Refuse(s: State, now: Timestamp, e: Error): (State, Reply) {
    (s.(clock := now), Failed(e))
  }

  function Abort(s: State, now: Timestamp): (State, Reply) {
    (s.(clock := now), Trapped)
  }

  /** Replaces trade `id` and records the transfers made. */
  function Settle(s: State, now: Timestamp, id: nat, t: Trade, moves: seq<Move>): (State, Reply)
    requires 1 <= id <= |s.trades|
  {
    (s.(clock := now, trades := s.trades[id - 1 := t], log := s.log + moves), Done)
  }

  function DoInitialize(s: State, now: Timestamp, admin: Address, allowed: set<Address>): (State, Reply) {
    if s.admin.Some? then Refuse(s, now, AlreadyInitialized)
    else (s.(clock := now, admin := Some(admin), paused := false, pausedAt := Some(0),
             tokens := s.tokens + allowed, categories := s.categories + {"AIRTIME", "DATA"}), Done)
  }

  function DoPause(s: State, now: Timestamp): (State, Reply) {
    if s.admin.None? then Refuse(s, now, Unauthorized)
    else (s.(clock := now, paused := true, pausedAt := if s.paused then s.pausedAt else Some(now)), Done)
  }

  function DoUnpause(s: State, now: Timestamp): (State, Reply) {
    if s.admin.None? then Refuse(s, now, Unauthorized)
    else
      var last := if s.pausedAt.Some? then s.pausedAt.value else 0;
      if last > 0 && now < SaturatingAdd(last, PAUSE_COOLDOWN_SECONDS) then Refuse(s, now, PauseCooldownNotExpired)
      else (s.(clock := now, paused := false, pausedAt := None), Done)
  }

  function DoCreate(s: State, now: Timestamp, seller: Address, token: Address, total: I128,
                    assetType: Symbol, expiresAt: nat): (State, Reply)
  {
    if s.paused then Refuse(s, now, ContractPaused)
    else if token !in s.tokens then Refuse(s, now, UnsupportedToken)
    else if assetType !in s.categories then Refuse(s, now, InvalidCategory)
    else if total <= 0 then Refuse(s, now, InvalidAmount)
    else if expiresAt <= now || expiresAt > now + MAX_EXPIRY_SECS then Refuse(s, now, InvalidExpiry)
    else
      var t := Trade(seller, token, total, 0, assetType, Open, expiresAt, true, None, []);
      (s.(clock := now, trades := s.trades + [t]), Created(|s.trades| + 1))
  }

  function DoDeposit(s: State, now: Timestamp, buyer: Address, id: nat, amount: I128): (State, Reply) {
    if s.paused then Refuse(s, now, ContractPaused)
    else match Stored(s, id)
      case None => Refuse(s, now, TradeNotFound)
      case Some(t) =>
        if !t.status.Open? && !t.status.PartiallyFilled? then Refuse(s, now, WrongStatus)
        else if now >= t.expiresAt then Refuse(s, now, TradeExpired)
        else if buyer == t.seller then Refuse(s, now, Unauthorized)
        else if s.admin.None? || s.admin == Some(buyer) then Refuse(s, now, Unauthorized)
        else if amount <= 0 then Refuse(s, now, InvalidAmount)
        else if amount > t.total - t.filled then Refuse(s, now, InsufficientFunds)
        else if HoldsActive(t.fills, buyer) then Refuse(s, now, DuplicateFill)
        else if Balance(s.log, t.token, buyer) < amount then Abort(s, now)
        else Settle(s, now, id, Deposited(t, now, Fill(buyer, amount, Held)),
                    [DepositMove(t, id, |t.fills| + 1, Fill(buyer, amount, Held))])
  }

  function Deposited(t: Trade, now: Timestamp, f: Fill): Trade {
    t.(filled := t.filled + f.amount,
       status := if t.filled + f.amount == t.total then Locked else PartiallyFilled,
       windowClose := Some(SaturatingAdd(now, DISPUTE_WINDOW_SECS)),
       fills := t.fills + [f])
  }

  /** Paying one fill of trade `id` to the seller, common to both release calls. */
  function DoRelease(s: State, now: Timestamp, id: nat, fillId: nat): (State, Reply)
    requires Stored(s, id).Some?
  {
    var t := s.trades[id - 1];
    if !(1 <= fillId <= |t.fills|) then Refuse(s, now, TradeNotFound)
    else if !t.fills[fillId - 1].state.Held? then Refuse(s, now, FillAlreadyProcessed)
    else if Balance(s.log, t.token, Custodian) < t.fills[fillId - 1].amount then Abort(s, now)
    else Settle(s, now, id, Paid(t, fillId), [PayMove(t, id, fillId, t.fills[fillId - 1])])
  }

  function Paid(t: Trade, fillId: nat): Trade
    requires 1 <= fillId <= |t.fills|
  {
    var fills := t.fills[fillId - 1 := t.fills[fillId - 1].(state := Released)];
    t.(fills := fills, status := if t.filled == t.total && NoneHeld(fills) then Completed else t.status)
  }

  function DoReleasePayment(s: State, now: Timestamp, id: nat, fillId: nat): (State, Reply) {
    if s.paused then Refuse(s, now, ContractPaused)
    else if s.admin.None? then Refuse(s, now, Unauthorized)
    else match Stored(s, id)
      case None => Refuse(s, now, TradeNotFound)
      case Some(t) =>
        if !t.status.Locked? && !t.status.PartiallyFilled? then Refuse(s, now, WrongStatus)
        else DoRelease(s, now, id, fillId)
  }

  function DoReleaseByTimelock(s: State, now: Timestamp, caller: Address, id: nat, fillId: nat): (State, Reply) {
    if s.paused then Refuse(s, now, ContractPaused)
    else match Stored(s, id)
      case None => Refuse(s, now, TradeNotFound)
      case Some(t) =>
        if s.admin.None? then Refuse(s, now, Unauthorized)
        else if caller != t.seller && s.admin != Some(caller) then Refuse(s, now, Unauthorized)
        else if t.status.Disputed? then Refuse(s, now, AlreadyDisputed)
        else if !t.status.Locked? && !t.status.PartiallyFilled? then Refuse(s, now, WrongStatus)
        else if t.windowClose.None? then Refuse(s, now, TradeNotFound)
        else if now < t.windowClose.value then Refuse(s, now, TimelockNotExpired)
        else DoRelease(s, now, id, fillId)
  }

  function DoCancelAndRefund(s: State, now: Timestamp, caller: Address, id: nat): (State, Reply) {
    if s.paused then Refuse(s, now, ContractPaused)
    else if s.admin.None? then Refuse(s, now, Unauthorized)
    else match Stored(s, id)
      case None => Refuse(s, now, TradeNotFound)
      case Some(t) =>
        var isAdmin := s.admin == Some(caller);
        if !t.status.Locked? && !t.status.Disputed? && !t.status.PartiallyFilled? then Refuse(s, now, WrongStatus)
        else if !isAdmin && HoldsActive(t.fills, caller) && now < t.expiresAt then Refuse(s, now, TimelockNotExpired)
        else if !isAdmin && !HoldsActive(t.fills, caller) then Refuse(s, now, Unauthorized)
        else if Balance(s.log, t.token, Custodian) < Sum(t.fills, RefundAmount(caller, isAdmin)) then Abort(s, now)
        else Settle(s, now, id, Returned(t, caller, isAdmin), RefundMoves(t, id, caller, isAdmin, |t.fills|))
  }

  function Returned(t: Trade, caller: Address, isAdmin: bool): Trade {
    var left := t.filled - Sum(t.fills, RefundAmount(caller, isAdmin));
    t.(filled := left,
       status := if isAdmin then Cancelled
                 else if left == 0 then Open
                 else if left < t.total then PartiallyFilled
                 else t.status,
       fills := AfterRefund(t.fills, caller, isAdmin))
  }

  function DoCloseExpired(s: State, now: Timestamp, id: nat): (State, Reply) {
    match Stored(s, id)
    case None => Refuse(s, now, TradeNotFound)
    case Some(t) =>
      if !t.status.Open? then Refuse(s, now, WrongStatus)
      else if now < t.expiresAt then Refuse(s, now, TradeExpired)
      else Settle(s, now, id, t.(status := Cancelled, stored := false), [])
  }

  function DoFlagDispute(s: State, now: Timestamp, caller: Address, id: nat): (State, Reply) {
    if s.paused then Refuse(s, now, ContractPaused)
    else match Stored(s, id)
      case None => Refuse(s, now, TradeNotFound)
      case Some(t) =>
        if t.status.Disputed? then Refuse(s, now, AlreadyDisputed)
        else if !t.status.Locked? then Refuse(s, now, WrongStatus)
        else if caller != t.seller && !(exists i :: 0 <= i < |t.fills| && t.fills[i].buyer == caller)
        then Refuse(s, now, NotAParty)
        else Settle(s, now, id, t.(status := Disputed), [])
  }

  function DoEmergencyWithdraw(s: State, now: Timestamp, token: Address, recipient: Address, amount: I128): (State, Reply) {
    if s.admin.None? then Refuse(s, now, Unauthorized)
    else if !s.paused then Refuse(s, now, WrongStatus)
    else if amount <= 0 then Refuse(s, now, InvalidAmount)
    else if now < (if s.pausedAt.Some? then s.pausedAt.value else 0) + EMERGENCY_TIMELOCK_SECS
    then Refuse(s, now, TimelockNotExpired)
    else if Balance(s.log, token, Custodian) < amount then Refuse(s, now, InsufficientFunds)
    else (s.(clock := now, log := s.log + [Move(token, Some(Custodian), recipient, amount, Recovery)]), Done)
  }

  /** A transfer made by anyone else, or newly issued tokens. */
  function DoOutside(s: State, now: Timestamp, token: Address, from: Option<Address>, to: Address, amount: nat): (State, Reply) {
    if from.Some? && Balance(s.log, token, from.value) < amount then Abort(s, now)
    else (s.(clock := now, log := s.log + [Move(token, from, to, amount, Purpose.Outside)]), Done)
  }

  /** A setting only the admin may change. */
  function AdminOnly(s: State, now: Timestamp, changed: State): (State, Reply) {
    if s.admin.None? then Refuse(s, now, Unauthorized) else (changed.(clock := now), Done)
  }

  function Step(s: State, now: Timestamp, c: Call): (State, Reply) {
    match c
    case Initialize(admin, allowed) => DoInitialize(s, now, admin, allowed)
    case Pause => DoPause(s, now)
    case Unpause => DoUnpause(s, now)
    case CreateListing(seller, token, total, assetType, expiresAt) =>
      DoCreate(s, now, seller, token, total, assetType, expiresAt)
    case AddAllowedToken(token) => AdminOnly(s, now, s.(tokens := s.tokens + {token}))
    case RemoveAllowedToken(token) => AdminOnly(s, now, s.(tokens := s.tokens - {token}))
    case AddCategory(category) => AdminOnly(s, now, s.(categories := s.categories + {category}))
    case RemoveCategory(category) => AdminOnly(s, now, s.(categories := s.categories - {category}))
    case TransferAdmin(newAdmin) => AdminOnly(s, now, s.(admin := Some(newAdmin)))
    case Deposit(buyer, id, amount) => DoDeposit(s, now, buyer, id, amount)
    case ReleasePayment(id, fillId) => DoReleasePayment(s, now, id, fillId)
    case ReleaseByTimelock(caller, id, fillId) => DoReleaseByTimelock(s, now, caller, id, fillId)
    case CancelAndRefund(caller, id) => DoCancelAndRefund(s, now, caller, id)
    case CloseExpired(id) => DoCloseExpired(s, now, id)
    case FlagDispute(caller, id) => DoFlagDispute(s, now, caller, id)
    case EmergencyWithdraw(token, recipient, amount) => DoEmergencyWithdraw(s, now, token, recipient, amount)
    case Outside(token, from, to, amount) => DoOutside(s, now, token, from, to, amount)
  }
}

/**
 What the two contracts share: the host's number types, and token movements.  A token contract is modelled by the list of transfers it has
 carried out; every balance is a total over that list.  `Custodian` is the
 address of the contract under study, `Account` any other address.
 */
module TokenLedger {
  import opened Sums

  const I128_MAX: int := 0x7FFF_FFFF_FFFF_FFFF_FFFF_FFFF_FFFF_FFFF
  const U64_MAX: int := 0xFFFF_FFFF_FFFF_FFFF

  type I128 = x: int | -I128_MAX - 1 <= x <= I128_MAX
  /** Ledger time: positive, and far enough from the end of u64 for the contracts' additions. */
  type Timestamp = t: int | 1 <= t <= U64_MAX - 30 * 24 * 60 * 60 witness 1
  type Symbol = string

  datatype Address = Custodian | Account(id: nat)

  /** Why a transfer happened: `Outside` is any transfer the contract did not
      make, `ForFill` one for part `fill` of trade `trade`, `Recovery` an
      emergency withdrawal. */
  datatype Purpose = Outside | ForFill(trade: nat, fill: nat) | Recovery

  /** A transfer; `from` is None when the amount is newly issued. */
  datatype Move = Move(token: Address, from: Option<Address>, to: Address, amount: int, purpose: Purpose)

  /** The change a move makes to what `who` holds of `token`. */
  function Delta(token: Address, who: Address): Move -> int {
    (m: Move) =>
      if m.token != token then 0
      else (if m.to == who then m.amount else 0) - (if m.from == Some(who) then m.amount else 0)
  }

  function Balance(log: seq<Move>, token: Address, who: Address): int {
    Sum(log, Delta(token, who))
  }

  lemma BalanceConcat(log: seq<Move>, moves: seq<Move>, token: Address, who: Address)
    ensures Balance(log + moves, token, who) == Balance(log, token, who) + Sum(moves, Delta(token, who))
  {
    SumConcat(log, moves, Delta(token, who));
  }

  /** Received by the contract from outside its own protocol. */
  function Donated(token: Address): Move -> int {
    (m: Move) => if m.token == token && m.purpose.Outside? && m.to.Custodian? then m.amount else 0
  }

  /** Taken out by emergency withdrawals. */
  function Withdrawn(token: Address): Move -> int {
    (m: Move) => if m.token == token && m.purpose.Recovery? && !m.to.Custodian? then m.amount else 0
  }

  /** Paid by the contract to `payee` for some part of trade `trade`. */
  function Receipt(trade: nat, payee: Address): Move -> int {
    (m: Move) =>
      if m.purpose.ForFill? && m.purpose.trade == trade && m.from == Some(Custodian) && m.to == payee
      then m.amount else 0
  }

  function For(trade: nat, fill: nat): Move -> bool {
    (m: Move) => m.purpose == ForFill(trade, fill)
  }

  /** Every move is of a non-negative amount, and only protocol or recovery
      moves leave the contract. */
  ghost predicate Genuine(log: seq<Move>) {
    forall k :: 0 <= k < |log| ==>
      log[k].amount >= 0 &&
      (log[k].purpose.Outside? ==> log[k].from != Some(Custodian)) &&
      (log[k].purpose.Recovery? ==> log[k].from == Some(Custodian))
  }

  // ----- the token contracts' own books -----

  function HeldBy(balances: map<(Address, Address), int>, token: Address, who: Address): int {
    if (token, who) in balances then balances[(token, who)] else 0
  }

  ghost predicate BalancesStored(balances: map<(Address, Address), int>, log: seq<Move>) {
    forall token, who :: HeldBy(balances, token, who) == Balance(log, token, who)
  }

  lemma BalancesAfter(before: map<(Address, Address), int>, after: map<(Address, Address), int>, log: seq<Move>, m: Move)
    requires BalancesStored(before, log)
    requires forall token, who :: HeldBy(after, token, who) == HeldBy(before, token, who) + Delta(token, who)(m)
    ensures BalancesStored(after, log + [m])
  {
    forall token, who ensures HeldBy(after, token, who) == Balance(log + [m], token, who) {
      SumSnoc(log, m, Delta(token, who));
    }
  }

  lemma Issued(balances: map<(Address, Address), int>, log: seq<Move>, token: Address, to: Address, amount: nat)
    requires BalancesStored(balances, log)
    ensures BalancesStored(balances[(token, to) := HeldBy(balances, token, to) + amount],
                           log + [Move(token, None, to, amount, Purpose.Outside)])
  {
    BalancesAfter(balances, balances[(token, to) := HeldBy(balances, token, to) + amount], log,
                  Move(token, None, to, amount, Purpose.Outside));
  }
}

/**
 The escrow contract as it is written: storage entries read, changed and written
 back, with loops over fill ids.  `model` is the state of EscrowSpec that the
 entries stand for; every method is proved to make exactly the model's step.
 */
module EscrowContract {
  import opened Sums
  import opened TokenLedger
  import opened EscrowSpec
  import opened EscrowInvariant

  datatype TradeOffer = TradeOffer(
    id: nat, seller: Address, token: Address, totalAmount: I128, filledAmount: I128,
    assetType: Symbol, status: TradeStatus, expiresAt: nat)

  datatype SubEscrow = SubEscrow(fillId: nat, buyer: Address, amount: I128, released: bool, refunded: bool)

  // ----- how storage entries stand for the model -----

  ghost predicate IsOffer(o: TradeOffer, id: nat, t: Trade) {
    o.id == id && o.seller == t.seller && o.token == t.token && o.totalAmount == t.total &&
    o.filledAmount == t.filled && o.assetType == t.assetType && o.status == t.status && o.expiresAt == t.expiresAt
  }

  ghost predicate IsFill(e: SubEscrow, fillId: nat, f: Fill) {
    e.fillId == fillId && e.buyer == f.buyer && e.amount == f.amount &&
    e.released == f.state.Released? && e.refunded == f.state.Refunded?
  }

  ghost predicate OffersStored(offers: map<nat, TradeOffer>, trades: seq<Trade>) {
    && (forall id :: id in offers <==> 1 <= id <= |trades| && trades[id - 1].stored)
    && (forall id :: id in offers ==> IsOffer(offers[id], id, trades[id - 1]))
  }

  function Count(counters: map<nat, nat>, id: nat): nat {
    if id in counters then counters[id] else 0
  }

  ghost predicate CountsStored(counters: map<nat, nat>, trades: seq<Trade>) {
    forall id: nat :: Count(counters, id) == if 1 <= id <= |trades| then |trades[id - 1].fills| else 0
  }

  /** Fill ids are dense: exactly 1 to the fill counter are stored. */
  ghost predicate FillsStored(entries: map<(nat, nat), SubEscrow>, trades: seq<Trade>) {
    && (forall id: nat, i: nat :: (id, i) in entries <==> 1 <= id <= |trades| && 1 <= i <= |trades[id - 1].fills|)
    && (forall id: nat, i: nat :: (id, i) in entries ==> IsFill(entries[(id, i)], i, trades[id - 1].fills[i - 1]))
  }

  ghost predicate WindowsStored(windows: map<nat, nat>, trades: seq<Trade>) {
    && (forall id :: id in windows <==> 1 <= id <= |trades| && trades[id - 1].windowClose.Some?)
    && (forall id :: id in windows ==> trades[id - 1].windowClose == Some(windows[id]))
  }

  // ----- changing one trade's entries -----

  /** A new trade has an offer and nothing else. */
  lemma AddTrade(offers: map<nat, TradeOffer>, counters: map<nat, nat>, entries: map<(nat, nat), SubEscrow>,
                 windows: map<nat, nat>, trades: seq<Trade>, t: Trade, o: TradeOffer)
    requires OffersStored(offers, trades) && CountsStored(counters, trades)
    requires FillsStored(entries, trades) && WindowsStored(windows, trades)
    requires t.stored && t.fills == [] && t.windowClose.None? && IsOffer(o, |trades| + 1, t)
    ensures OffersStored(offers[|trades| + 1 := o], trades + [t]) && CountsStored(counters, trades + [t])
    ensures FillsStored(entries, trades + [t]) && WindowsStored(windows, trades + [t])
  {
  }

  lemma PutOffer(offers: map<nat, TradeOffer>, trades: seq<Trade>, id: nat, t': Trade, o: TradeOffer)
    requires OffersStored(offers, trades) && 1 <= id <= |trades| && t'.stored && IsOffer(o, id, t')
    ensures OffersStored(offers[id := o], trades[id - 1 := t'])
  {
  }

  lemma KeepOffer(offers: map<nat, TradeOffer>, trades: seq<Trade>, id: nat, t': Trade)
    requires OffersStored(offers, trades) && id in offers && t'.stored && IsOffer(offers[id], id, t')
    ensures OffersStored(offers, trades[id - 1 := t'])
  {
  }

  lemma DropOffer(offers: map<nat, TradeOffer>, trades: seq<Trade>, id: nat, t': Trade)
    requires OffersStored(offers, trades) && 1 <= id <= |trades| && !t'.stored
    ensures OffersStored(offers - {id}, trades[id - 1 := t'])
  {
    var trades' := trades[id - 1 := t'];
    forall j: nat ensures j in offers - {id} <==> 1 <= j <= |trades'| && trades'[j - 1].stored {
      assert j in offers <==> 1 <= j <= |trades| && trades[j - 1].stored;
    }
  }

  lemma PutCount(counters: map<nat, nat>, trades: seq<Trade>, id: nat, t': Trade)
    requires CountsStored(counters, trades) && 1 <= id <= |trades|
    ensures CountsStored(counters[id := |t'.fills|], trades[id - 1 := t'])
  {
    var counters', trades' := counters[id := |t'.fills|], trades[id - 1 := t'];
    forall j: nat ensures Count(counters', j) == if 1 <= j <= |trades'| then |trades'[j - 1].fills| else 0 {
      assert Count(counters, j) == if 1 <= j <= |trades| then |trades[j - 1].fills| else 0;
    }
  }

  lemma KeepCount(counters: map<nat, nat>, trades: seq<Trade>, id: nat, t': Trade)
    requires CountsStored(counters, trades) && 1 <= id <= |trades| && |t'.fills| == |trades[id - 1].fills|
    ensures CountsStored(counters, trades[id - 1 := t'])
  {
  }

  lemma PutFill(entries: map<(nat, nat), SubEscrow>, trades: seq<Trade>, id: nat, t': Trade, i: nat, e: SubEscrow)
    requires FillsStored(entries, trades) && 1 <= id <= |trades|
    requires 1 <= i <= |t'.fills| && IsFill(e, i, t'.fills[i - 1])
    requires i <= |trades[id - 1].fills| + 1 && |t'.fills| == if i <= |trades[id - 1].fills| then |trades[id - 1].fills| else i
    requires forall j :: 0 <= j < |trades[id - 1].fills| && j != i - 1 ==> t'.fills[j] == trades[id - 1].fills[j]
    ensures FillsStored(entries[(id, i) := e], trades[id - 1 := t'])
  {
  }

  lemma KeepFills(entries: map<(nat, nat), SubEscrow>, trades: seq<Trade>, id: nat, t': Trade)
    requires FillsStored(entries, trades) && 1 <= id <= |trades| && t'.fills == trades[id - 1].fills
    ensures FillsStored(entries, trades[id - 1 := t'])
  {
  }

  lemma PutWindow(windows: map<nat, nat>, trades: seq<Trade>, id: nat, t': Trade, close: nat)
    requires WindowsStored(windows, trades) && 1 <= id <= |trades| && t'.windowClose == Some(close)
    ensures WindowsStored(windows[id := close], trades[id - 1 := t'])
  {
  }

  lemma KeepWindow(windows: map<nat, nat>, trades: seq<Trade>, id: nat, t': Trade)
    requires WindowsStored(windows, trades) && 1 <= id <= |trades| && t'.windowClose == trades[id - 1].windowClose
    ensures WindowsStored(windows, trades[id - 1 := t'])
  {
  }

  // ----- the refund loop -----

  function CheckedSub(a: I128, b: I128): Option<I128> {
    if -I128_MAX - 1 <= a - b <= I128_MAX then Some(a - b) else None
  }

  /** How the refund loop ends. */
  datatype LoopEnd = Finished | TooEarly | Overdrawn

  /** The trade when the refund loop has passed its first k fills. */
  function Midway(t: Trade, caller: Address, isAdmin: bool, k: nat): Trade
    requires k <= |t.fills|
  {
    t.(fills := AfterRefund(t.fills, caller, isAdmin)[..k] + t.fills[k..])
  }

  lemma MidwayEnds(t: Trade, caller: Address, isAdmin: bool)
    ensures Midway(t, caller, isAdmin, 0) == t
    ensures Midway(t, caller, isAdmin, |t.fills|).fills == AfterRefund(t.fills, caller, isAdmin)
  {
  }

  /** One more fill: nothing changes unless it is refundable, and then it alone does. */
  lemma NextMidway(log: seq<Move>, t: Trade, id: nat, caller: Address, isAdmin: bool, k: nat)
    requires k < |t.fills|
    ensures var here, next := Midway(t, caller, isAdmin, k), Midway(t, caller, isAdmin, k + 1);
            && here.fills[k] == t.fills[k] && |here.fills| == |next.fills| == |t.fills|
            && next == here.(fills := here.fills[k := AfterRefund(t.fills, caller, isAdmin)[k]])
            && (!Refundable(t.fills[k], caller, isAdmin) ==> next == here)
    ensures log + RefundMoves(t, id, caller, isAdmin, k + 1) ==
            if Refundable(t.fills[k], caller, isAdmin)
            then log + RefundMoves(t, id, caller, isAdmin, k) + [RefundMove(t, id, k + 1, t.fills[k])]
            else log + RefundMoves(t, id, caller, isAdmin, k)
  {
  }

  lemma FillAt(entries: map<(nat, nat), SubEscrow>, trades: seq<Trade>, id: nat, i: nat)
    requires FillsStored(entries, trades) && 1 <= id <= |trades| && 1 <= i <= |trades[id - 1].fills|
    ensures (id, i) in entries && IsFill(entries[(id, i)], i, trades[id - 1].fills[i - 1])
  {
  }

  lemma PrefixGrows(t: Trade, caller: Address, isAdmin: bool, k: nat)
    requires k < |t.fills| && FillsOk(t)
    ensures Sum(t.fills[..k + 1], RefundAmount(caller, isAdmin))
            == Sum(t.fills[..k], RefundAmount(caller, isAdmin)) + RefundAmount(caller, isAdmin)(t.fills[k])
    ensures Sum(t.fills[..k + 1], RefundAmount(caller, isAdmin)) <= Sum(t.fills, RefundAmount(caller, isAdmin))
  {
    assert t.fills[..k + 1] == t.fills[..k] + [t.fills[k]];
    SumSnoc(t.fills[..k], t.fills[k], RefundAmount(caller, isAdmin));
    SumPrefix(t.fills, RefundAmount(caller, isAdmin), k + 1);
  }

  /** What the contract still holds after the refunds for the first k fills. */
  lemma LeftAfter(log: seq<Move>, t: Trade, id: nat, caller: Address, isAdmin: bool, k: nat)
    requires k <= |t.fills| && FillsOk(t)
    ensures Balance(log + RefundMoves(t, id, caller, isAdmin, k), t.token, Custodian)
            == Balance(log, t.token, Custodian) - Sum(t.fills[..k], RefundAmount(caller, isAdmin))
  {
    SumConcat(log, RefundMoves(t, id, caller, isAdmin, k), Delta(t.token, Custodian));
    RefundMovesTotals(t, id, caller, isAdmin, k);
  }

  /** The loop's invariant on the storage entries it writes. */
  ghost predicate RefundedTo(entries: map<(nat, nat), SubEscrow>, balances: map<(Address, Address), int>,
                             s: State, id: nat, caller: Address, isAdmin: bool, k: nat, refunded: int)
    requires 1 <= id <= |s.trades| && k <= |s.trades[id - 1].fills|
  {
    var t := s.trades[id - 1];
    && FillsStored(entries, s.trades[id - 1 := Midway(t, caller, isAdmin, k)])
    && BalancesStored(balances, s.log + RefundMoves(t, id, caller, isAdmin, k))
    && refunded == Sum(t.fills[..k], RefundAmount(caller, isAdmin)) <= Balance(s.log, t.token, Custodian)
  }

  lemma RefundStarts(entries: map<(nat, nat), SubEscrow>, balances: map<(Address, Address), int>,
                     s: State, id: nat, caller: Address, isAdmin: bool)
    requires Inv(s) && 1 <= id <= |s.trades| && FillsStored(entries, s.trades) && BalancesStored(balances, s.log)
    ensures RefundedTo(entries, balances, s, id, caller, isAdmin, 0, 0)
  {
    hide FillsStored, BalancesStored, TradesOk, StoriesOk;
    var t := s.trades[id - 1];
    MidwayEnds(t, caller, isAdmin);
    assert s.trades[id - 1 := t] == s.trades;
    assert s.log + [] == s.log;
    assert CustodyOf(s, t.token);
  }

  lemma RefundSkips(entries: map<(nat, nat), SubEscrow>, balances: map<(Address, Address), int>,
                    s: State, id: nat, caller: Address, isAdmin: bool, k: nat, refunded: int)
    requires 1 <= id <= |s.trades| && k < |s.trades[id - 1].fills| && FillsOk(s.trades[id - 1])
    requires RefundedTo(entries, balances, s, id, caller, isAdmin, k, refunded)
    requires !Refundable(s.trades[id - 1].fills[k], caller, isAdmin)
    ensures RefundedTo(entries, balances, s, id, caller, isAdmin, k + 1, refunded)
  {
    hide FillsStored, BalancesStored;
    NextMidway(s.log, s.trades[id - 1], id, caller, isAdmin, k);
    PrefixGrows(s.trades[id - 1], caller, isAdmin, k);
  }

  /** The next fill, as the loop finds it, and what is left to pay it from. */
  lemma RefundFinds(entries: map<(nat, nat), SubEscrow>, balances: map<(Address, Address), int>,
                    s: State, id: nat, caller: Address, isAdmin: bool, k: nat, refunded: int)
    requires 1 <= id <= |s.trades| && k < |s.trades[id - 1].fills| && FillsOk(s.trades[id - 1])
    requires RefundedTo(entries, balances, s, id, caller, isAdmin, k, refunded)
    ensures (id, k + 1) in entries && IsFill(entries[(id, k + 1)], k + 1, s.trades[id - 1].fills[k])
    ensures BalancesStored(balances, s.log + RefundMoves(s.trades[id - 1], id, caller, isAdmin, k))
    ensures Balance(s.log + RefundMoves(s.trades[id - 1], id, caller, isAdmin, k), s.trades[id - 1].token, Custodian)
            == Balance(s.log, s.trades[id - 1].token, Custodian) - refunded
    ensures Refundable(s.trades[id - 1].fills[k], caller, isAdmin) ==>
              refunded + s.trades[id - 1].fills[k].amount <= Sum(s.trades[id - 1].fills, RefundAmount(caller, isAdmin))
  {
    hide BalancesStored, RefundMoves;
    var t := s.trades[id - 1];
    NextMidway(s.log, t, id, caller, isAdmin, k);
    FillAt(entries, s.trades[id - 1 := Midway(t, caller, isAdmin, k)], id, k + 1);
    LeftAfter(s.log, t, id, caller, isAdmin, k);
    PrefixGrows(t, caller, isAdmin, k);
  }

  lemma RefundPays(entries: map<(nat, nat), SubEscrow>, balances: map<(Address, Address), int>,
                   balances': map<(Address, Address), int>,
                   s: State, id: nat, caller: Address, isAdmin: bool, k: nat, refunded: int, e: SubEscrow)
    requires 1 <= id <= |s.trades| && k < |s.trades[id - 1].fills| && FillsOk(s.trades[id - 1])
    requires RefundedTo(entries, balances, s, id, caller, isAdmin, k, refunded)
    requires Refundable(s.trades[id - 1].fills[k], caller, isAdmin)
    requires refunded + s.trades[id - 1].fills[k].amount <= Balance(s.log, s.trades[id - 1].token, Custodian)
    requires IsFill(e, k + 1, s.trades[id - 1].fills[k].(state := Refunded))
    requires BalancesStored(balances', s.log + RefundMoves(s.trades[id - 1], id, caller, isAdmin, k)
                                       + [RefundMove(s.trades[id - 1], id, k + 1, s.trades[id - 1].fills[k])])
    ensures RefundedTo(entries[(id, k + 1) := e], balances', s, id, caller, isAdmin, k + 1,
                       refunded + s.trades[id - 1].fills[k].amount)
  {
    hide FillsStored, BalancesStored, RefundMoves;
    var t := s.trades[id - 1];
    var here, next := Midway(t, caller, isAdmin, k), Midway(t, caller, isAdmin, k + 1);
    NextMidway(s.log, t, id, caller, isAdmin, k);
    PrefixGrows(t, caller, isAdmin, k);
    PutFill(entries, s.trades[id - 1 := here], id, next, k + 1, e);
    assert s.trades[id - 1 := here][id - 1 := next] == s.trades[id - 1 := next];
  }

  lemma RefundEnds(entries: map<(nat, nat), SubEscrow>, balances: map<(Address, Address), int>,
                   s: State, id: nat, caller: Address, isAdmin: bool, refunded: int)
    requires 1 <= id <= |s.trades| && FillsOk(s.trades[id - 1])
    requires RefundedTo(entries, balances, s, id, caller, isAdmin, |s.trades[id - 1].fills|, refunded)
    ensures var t := s.trades[id - 1];
            && FillsStored(entries, s.trades[id - 1 := Returned(t, caller, isAdmin)])
            && BalancesStored(balances, s.log + RefundMoves(t, id, caller, isAdmin, |t.fills|))
            && refunded == Sum(t.fills, RefundAmount(caller, isAdmin)) <= Balance(s.log, t.token, Custodian)
  {
    hide FillsStored, BalancesStored, RefundMoves, Sum, Balance, FillsOk, AfterRefund;
    var t := s.trades[id - 1];
    var n := |t.fills|;
    MidwayEnds(t, caller, isAdmin);
    assert t.fills[..n] == t.fills;
    KeepFills(entries, s.trades[id - 1 := Midway(t, caller, isAdmin, n)], id, Returned(t, caller, isAdmin));
    assert s.trades[id - 1 := Midway(t, caller, isAdmin, n)][id - 1 := Returned(t, caller, isAdmin)]
           == s.trades[id - 1 := Returned(t, caller, isAdmin)];
  }

  function Members(tokens: seq<Address>): set<Address> {
    set a | a in tokens
  }

  class Contract {
    var admin: Option<Address>
    var tradeCounter: nat
    var trades: map<nat, TradeOffer>
    var paused: bool
    var pausedAt: Option<nat>
    var allowedTokens: set<Address>
    var allowedCategories: set<Symbol>
    var fillCounter: map<nat, nat>
    var subEscrows: map<(nat, nat), SubEscrow>
    var windowCloseAt: map<nat, nat>
    /** The token contracts' own books: what each address holds of each token. */
    var balances: map<(Address, Address), int>

    ghost var model: State

    ghost predicate TradesStored(ms: seq<Trade>)
      reads this`trades, this`fillCounter, this`subEscrows, this`windowCloseAt
    {
      OffersStored(trades, ms) && CountsStored(fillCounter, ms) && FillsStored(subEscrows, ms) && WindowsStored(windowCloseAt, ms)
    }

    ghost predicate Valid()
      reads this
    {
      && Inv(model)
      && admin == model.admin && paused == model.paused && pausedAt == model.pausedAt
      && allowedTokens == model.tokens && allowedCategories == model.categories
      && tradeCounter == |model.trades|
      && TradesStored(model.trades)
      && BalancesStored(balances, model.log)
    }

    /** What is stored under one trade id. */
    lemma Find(id: nat)
      requires Valid()
      ensures id in trades <==> Stored(model, id).Some?
      ensures id in trades ==> IsOffer(trades[id], id, model.trades[id - 1]) && TradeOk(model.trades[id - 1], model.clock)
      ensures 1 <= id <= |model.trades| ==> HasFills(id, model.trades[id - 1].fills)
      ensures forall i :: (id, i) in subEscrows ==> 1 <= id <= |model.trades| && 1 <= i <= |model.trades[id - 1].fills|
      ensures id in windowCloseAt <==> 1 <= id <= |model.trades| && model.trades[id - 1].windowClose.Some?
      ensures id in windowCloseAt ==> model.trades[id - 1].windowClose == Some(windowCloseAt[id])
    {
    }

    /** No storage entry and no balance has changed. */
    twostate predicate StorageUnchanged()
      reads this
    {
      && admin == old(admin) && tradeCounter == old(tradeCounter) && trades == old(trades)
      && paused == old(paused) && pausedAt == old(pausedAt)
      && allowedTokens == old(allowedTokens) && allowedCategories == old(allowedCategories)
      && fillCounter == old(fillCounter) && subEscrows == old(subEscrows)
      && windowCloseAt == old(windowCloseAt) && balances == old(balances)
    }

    constructor ()
      ensures Valid() && model == Genesis
    {
      admin, tradeCounter, trades := None, 0, map[];
      paused, pausedAt, allowedTokens, allowedCategories := false, None, {}, {};
      fillCounter, subEscrows, windowCloseAt, balances := map[], map[], map[], map[];
      model := Genesis;
      new;
      GenesisInv();
    }

    /** Moves tokens on the token contract's books, which refuses to overdraw `from`. */
    method Transfer(token: Address, from: Address, to: Address, amount: int, ghost m: Move, ghost log: seq<Move>)
      returns (ok: bool)
      requires m == Move(token, Some(from), to, amount, m.purpose) && BalancesStored(balances, log)
      modifies this`balances
      ensures ok <==> Balance(log, token, from) >= amount
      ensures if ok then BalancesStored(balances, log + [m]) else balances == old(balances)
    {
      ok := HeldBy(balances, token, from) >= amount;
      if ok {
        balances := balances[(token, from) := HeldBy(balances, token, from) - amount];
        balances := balances[(token, to) := HeldBy(balances, token, to) + amount];
        BalancesAfter(old(balances), balances, log, m);
      }
    }

    method AllowAll(tokens: seq<Address>)
      modifies this`allowedTokens
      ensures allowedTokens == old(allowedTokens) + Members(tokens)
    {
      for i := 0 to |tokens|
        invariant allowedTokens == old(allowedTokens) + Members(tokens[..i])
      {
        allowedTokens := allowedTokens + {tokens[i]};
      }
      assert tokens[..|tokens|] == tokens;
    }

    /** The first entries. */
    method Seed(newAdmin: Address, tokens: seq<Address>)
      modifies this`admin, this`tradeCounter, this`paused, this`pausedAt, this`allowedTokens, this`allowedCategories
      ensures admin == Some(newAdmin) && tradeCounter == 0 && !paused && pausedAt == Some(0)
      ensures allowedTokens == old(allowedTokens) + Members(tokens)
      ensures allowedCategories == old(allowedCategories) + {"AIRTIME", "DATA"}
    {
      admin, tradeCounter, paused, pausedAt := Some(newAdmin), 0, false, Some(0);
      AllowAll(tokens);
      allowedCategories := allowedCategories + {"AIRTIME", "DATA"};
    }

    /** No token is allowed, and so nothing listed, before there is an admin. */
    lemma NoneBeforeInitialize()
      requires Valid()
      ensures admin.None? ==> tradeCounter == 0
    {
      hide TradesOk, StoriesOk, CustodyOk, TradesStored, BalancesStored;
    }

    method Initialize(now: Timestamp, newAdmin: Address, tokens: seq<Address>) returns (r: Reply)
      requires Valid() && model.clock <= now
      modifies this
      ensures Valid() && (model, r) == Step(old(model), now, Call.Initialize(newAdmin, Members(tokens)))
      ensures r.Failed? ==> StorageUnchanged()
    {
      hide Inv, Sum, TradesStored, BalancesStored;
      hide DoCreate, DoDeposit, DoReleasePayment, DoReleaseByTimelock, DoCancelAndRefund, DoCloseExpired, DoFlagDispute;
      hide DoEmergencyWithdraw, DoOutside, DoPause, DoUnpause, AdminOnly, Balance, Stored, Members;
      StepKeepsInv(model, now, Call.Initialize(newAdmin, Members(tokens)));
      NoneBeforeInitialize();
      model := DoInitialize(model, now, newAdmin, Members(tokens)).0;
      if admin.Some? {
        return Failed(AlreadyInitialized);
      }
      Seed(newAdmin, tokens);
      return Done;
    }

    method Pause(now: Timestamp) returns (r: Reply)
      requires Valid() && model.clock <= now
      modifies this
      ensures Valid() && (model, r) == Step(old(model), now, Call.Pause)
      ensures r.Failed? ==> StorageUnchanged()
    {
      StepKeepsInv(model, now, Call.Pause);
      model := Step(model, now, Call.Pause).0;
      if admin.None? {
        return Failed(Unauthorized);
      }
      if !paused {
        pausedAt := Some(now);
      }
      paused := true;
      return Done;
    }

    method Unpause(now: Timestamp) returns (r: Reply)
      requires Valid() && model.clock <= now
      modifies this
      ensures Valid() && (model, r) == Step(old(model), now, Call.Unpause)
      ensures r.Failed? ==> StorageUnchanged()
    {
      StepKeepsInv(model, now, Call.Unpause);
      model := Step(model, now, Call.Unpause).0;
      if admin.None? {
        return Failed(Unauthorized);
      }
      var lastPauseAt := if pausedAt.Some? then pausedAt.value else 0;
      if lastPauseAt > 0 && now < SaturatingAdd(lastPauseAt, PAUSE_COOLDOWN_SECONDS) {
        return Failed(PauseCooldownNotExpired);
      }
      paused, pausedAt := false, None;
      return Done;
    }

    method CreateListing(now: Timestamp, seller: Address, token: Address, amount: I128, assetType: Symbol, expiresAt: nat)
      returns (r: Reply)
      requires Valid() && model.clock <= now && seller != Custodian
      modifies this
      ensures Valid() && (model, r) == Step(old(model), now, Call.CreateListing(seller, token, amount, assetType, expiresAt))
      ensures r.Failed? ==> StorageUnchanged()
    {
      hide Inv, Sum;
      hide OffersStored, CountsStored, FillsStored, WindowsStored, BalancesStored;
      StepKeepsInv(model, now, Call.CreateListing(seller, token, amount, assetType, expiresAt));
      ghost var before := model.trades;
      model := DoCreate(model, now, seller, token, amount, assetType, expiresAt).0;
      if paused {
        return Failed(ContractPaused);
      }
      if token !in allowedTokens {
        return Failed(UnsupportedToken);
      }
      if assetType !in allowedCategories {
        return Failed(InvalidCategory);
      }
      if amount <= 0 {
        return Failed(InvalidAmount);
      }
      if expiresAt <= now || expiresAt > now + MAX_EXPIRY_SECS {
        return Failed(InvalidExpiry);
      }
      var id := tradeCounter + 1;
      tradeCounter := id;
      trades := trades[id := TradeOffer(id, seller, token, amount, 0, assetType, Open, expiresAt)];
      AddTrade(old(trades), fillCounter, subEscrows, windowCloseAt, before, model.trades[|before|], trades[id]);
      return Created(id);
    }

    method AddAllowedToken(now: Timestamp, token: Address) returns (r: Reply)
      requires Valid() && model.clock <= now
      modifies this
      ensures Valid() && (model, r) == Step(old(model), now, Call.AddAllowedToken(token))
      ensures r.Failed? ==> StorageUnchanged()
    {
      StepKeepsInv(model, now, Call.AddAllowedToken(token));
      model := Step(model, now, Call.AddAllowedToken(token)).0;
      if admin.None? {
        return Failed(Unauthorized);
      }
      allowedTokens := allowedTokens + {token};
      return Done;
    }

    method RemoveAllowedToken(now: Timestamp, token: Address) returns (r: Reply)
      requires Valid() && model.clock <= now
      modifies this
      ensures Valid() && (model, r) == Step(old(model), now, Call.RemoveAllowedToken(token))
      ensures r.Failed? ==> StorageUnchanged()
    {
      StepKeepsInv(model, now, Call.RemoveAllowedToken(token));
      model := Step(model, now, Call.RemoveAllowedToken(token)).0;
      if admin.None? {
        return Failed(Unauthorized);
      }
      allowedTokens := allowedTokens - {token};
      return Done;
    }

    method AddCategory(now: Timestamp, category: Symbol) returns (r: Reply)
      requires Valid() && model.clock <= now
      modifies this
      ensures Valid() && (model, r) == Step(old(model), now, Call.AddCategory(category))
      ensures r.Failed? ==> StorageUnchanged()
    {
      StepKeepsInv(model, now, Call.AddCategory(category));
      model := Step(model, now, Call.AddCategory(category)).0;
      if admin.None? {
        return Failed(Unauthorized);
      }
      allowedCategories := allowedCategories + {category};
      return Done;
    }

    method RemoveCategory(now: Timestamp, category: Symbol) returns (r: Reply)
      requires Valid() && model.clock <= now
      modifies this
      ensures Valid() && (model, r) == Step(old(model), now, Call.RemoveCategory(category))
      ensures r.Failed? ==> StorageUnchanged()
    {
      StepKeepsInv(model, now, Call.RemoveCategory(category));
      model := Step(model, now, Call.RemoveCategory(category)).0;
      if admin.None? {
        return Failed(Unauthorized);
      }
      allowedCategories := allowedCategories - {category};
      return Done;
    }

    method TransferAdmin(now: Timestamp, newAdmin: Address) returns (r: Reply)
      requires Valid() && model.clock <= now
      modifies this
      ensures Valid() && (model, r) == Step(old(model), now, Call.TransferAdmin(newAdmin))
      ensures r.Failed? ==> StorageUnchanged()
    {
      StepKeepsInv(model, now, Call.TransferAdmin(newAdmin));
      model := Step(model, now, Call.TransferAdmin(newAdmin)).0;
      if admin.None? {
        return Failed(Unauthorized);
      }
      admin := Some(newAdmin);
      return Done;
    }

    /** Fill ids 1 to the counter hold exactly these fills. */
    ghost predicate HasFills(id: nat, fills: seq<Fill>)
      reads this`fillCounter, this`subEscrows
    {
      Count(fillCounter, id) == |fills| &&
      forall i :: 1 <= i <= |fills| ==> (id, i) in subEscrows && IsFill(subEscrows[(id, i)], i, fills[i - 1])
    }

    /** Whether the buyer already holds an active fill, by a scan of the trade's fill ids. */
    method HasActiveFill(id: nat, buyer: Address, ghost fills: seq<Fill>) returns (found: bool)
      requires HasFills(id, fills)
      ensures found <==> HoldsActive(fills, buyer)
    {
      var fillCount := Count(fillCounter, id);
      for i := 1 to fillCount + 1
        invariant forall j :: 0 <= j < i - 1 ==> !(fills[j].state.Held? && fills[j].buyer == buyer)
      {
        if (id, i) in subEscrows {
          var sub := subEscrows[(id, i)];
          if sub.buyer == buyer && !sub.released && !sub.refunded {
            assert fills[i - 1].state.Held? && fills[i - 1].buyer == buyer;
            return true;
          }
        }
      }
      return false;
    }

    method DepositToEscrow(now: Timestamp, buyer: Address, id: nat, fillAmount: I128) returns (r: Reply)
      requires Valid() && model.clock <= now && buyer != Custodian
      modifies this
      ensures Valid() && (model, r) == Step(old(model), now, Call.Deposit(buyer, id, fillAmount))
      ensures r.Failed? ==> StorageUnchanged()
    {
      hide Sum, Inv;
      hide OffersStored, CountsStored, FillsStored, WindowsStored, BalancesStored;
      DepositKeepsInv(model, now, buyer, id, fillAmount);
      Find(id);
      ghost var before := model;
      model := DoDeposit(before, now, buyer, id, fillAmount).0;
      if paused {
        return Failed(ContractPaused);
      }
      if id !in trades {
        return Failed(TradeNotFound);
      }
      var trade := trades[id];
      if trade.status != Open && trade.status != PartiallyFilled {
        return Failed(WrongStatus);
      }
      if now >= trade.expiresAt {
        return Failed(TradeExpired);
      }
      if buyer == trade.seller {
        return Failed(Unauthorized);
      }
      if admin.None? || buyer == admin.value {
        return Failed(Unauthorized);
      }
      if fillAmount <= 0 {
        return Failed(InvalidAmount);
      }
      var room: I128 := trade.totalAmount - trade.filledAmount;
      if fillAmount > room {
        return Failed(InsufficientFunds);
      }
      var duplicate := HasActiveFill(id, buyer, before.trades[id - 1].fills);
      if duplicate {
        return Failed(DuplicateFill);
      }
      model := before;
      r := RecordDeposit(now, buyer, id, fillAmount);
    }

    /** The part of a deposit after its checks: move the tokens, then write the trade, the fill and the window. */
    method RecordDeposit(now: Timestamp, buyer: Address, id: nat, fillAmount: I128) returns (r: Reply)
      requires Valid() && model.clock <= now && buyer != Custodian && id in trades && fillAmount > 0
      requires fillAmount <= trades[id].totalAmount - trades[id].filledAmount
      requires var f := Fill(buyer, fillAmount, FillState.Held);
               DoDeposit(model, now, buyer, id, fillAmount) ==
               if Balance(model.log, trades[id].token, buyer) < fillAmount then Abort(model, now)
               else Settle(model, now, id, Deposited(model.trades[id - 1], now, f),
                           [DepositMove(model.trades[id - 1], id, |model.trades[id - 1].fills| + 1, f)])
      modifies this
      ensures Valid() && (model, r) == DoDeposit(old(model), now, buyer, id, fillAmount)
      ensures r.Failed? ==> StorageUnchanged()
    {
      hide Sum, Inv, DoDeposit, TradesStored, FillsOk, OneActivePerBuyer, StatusOk, RefundsAreFinal, Balance;
      hide OffersStored, CountsStored, FillsStored, WindowsStored, BalancesStored;
      DepositKeepsInv(model, now, buyer, id, fillAmount);
      Find(id);
      ghost var before := model;
      model := DoDeposit(before, now, buyer, id, fillAmount).0;
      var trade := trades[id];
      ghost var t, f := before.trades[id - 1], Fill(buyer, fillAmount, FillState.Held);
      ghost var m := DepositMove(t, id, |t.fills| + 1, f);
      var ok := Transfer(trade.token, buyer, Custodian, fillAmount, m, before.log);
      if !ok {
        return Trapped;
      }
      StoreFill(now, id, buyer, fillAmount, before.trades);
      return Done;
    }

    /** Writes the trade, its fill counter, the new fill and the dispute window. */
    method StoreFill(now: Timestamp, id: nat, buyer: Address, fillAmount: I128, ghost ms: seq<Trade>)
      requires TradesStored(ms) && id in trades && 0 <= trades[id].filledAmount
      requires 0 < fillAmount <= trades[id].totalAmount - trades[id].filledAmount
      modifies this`trades, this`fillCounter, this`subEscrows, this`windowCloseAt
      ensures TradesStored(ms[id - 1 := Deposited(ms[id - 1], now, Fill(buyer, fillAmount, FillState.Held))])
    {
      ghost var t' := Deposited(ms[id - 1], now, Fill(buyer, fillAmount, FillState.Held));
      assert IsOffer(trades[id], id, ms[id - 1]);
      var trade := trades[id];
      var filled: I128 := trade.filledAmount + fillAmount;
      trades := trades[id := trade.(filledAmount := filled,
                                    status := if filled == trade.totalAmount then Locked else PartiallyFilled)];
      PutOffer(old(trades), ms, id, t', trades[id]);
      var fillId := Count(fillCounter, id) + 1;
      fillCounter := fillCounter[id := fillId];
      PutCount(old(fillCounter), ms, id, t');
      subEscrows := subEscrows[(id, fillId) := SubEscrow(fillId, buyer, fillAmount, false, false)];
      PutFill(old(subEscrows), ms, id, t', fillId, subEscrows[(id, fillId)]);
      windowCloseAt := windowCloseAt[id := SaturatingAdd(now, DISPUTE_WINDOW_SECS)];
      PutWindow(old(windowCloseAt), ms, id, t', windowCloseAt[id]);
    }

    /** Whether no fill of the trade is still active, by the scan both release calls make. */
    method AllSettled(id: nat, ghost fills: seq<Fill>) returns (settled: bool)
      requires HasFills(id, fills)
      ensures settled <==> NoneHeld(fills)
    {
      var fillCount := Count(fillCounter, id);
      settled := true;
      for i := 1 to fillCount + 1
        invariant settled && forall j :: 0 <= j < i - 1 ==> !fills[j].state.Held?
      {
        if (id, i) in subEscrows {
          var sub := subEscrows[(id, i)];
          if !sub.released && !sub.refunded {
            assert fills[i - 1].state.Held?;
            settled := false;
            break;
          }
        }
      }
    }

    /** The part both release calls share: pay the fill, mark it released, complete the trade if it was the last. */
    method ReleaseFill(now: Timestamp, id: nat, fillId: nat) returns (r: Reply)
      requires Valid() && model.clock <= now && Releasable(model, id)
      modifies this
      ensures Valid() && (model, r) == DoRelease(old(model), now, id, fillId)
      ensures r.Failed? ==> StorageUnchanged()
    {
      hide Sum, Inv, TradesStored, FillsOk, OneActivePerBuyer, StatusOk, RefundsAreFinal, Balance;
      hide OffersStored, CountsStored, FillsStored, WindowsStored, BalancesStored;
      ReleaseKeepsInv(model, now, id, fillId);
      Find(id);
      ghost var before := model;
      model := DoRelease(before, now, id, fillId).0;
      var trade := trades[id];
      if (id, fillId) !in subEscrows {
        return Failed(TradeNotFound);
      }
      var sub := subEscrows[(id, fillId)];
      if sub.released || sub.refunded {
        return Failed(FillAlreadyProcessed);
      }
      ghost var t := before.trades[id - 1];
      ghost var m := PayMove(t, id, fillId, t.fills[fillId - 1]);
      var ok := Transfer(trade.token, Custodian, trade.seller, sub.amount, m, before.log);
      if !ok {
        return Trapped;
      }
      StoreRelease(id, fillId, before.trades);
      return Done;
    }

    /** Marks the fill released and completes the trade if that was the last active one. */
    method StoreRelease(id: nat, fillId: nat, ghost ms: seq<Trade>)
      requires TradesStored(ms) && id in trades && (id, fillId) in subEscrows
      requires ms[id - 1].fills[fillId - 1].state.Held?
      modifies this`trades, this`subEscrows
      ensures TradesStored(ms[id - 1 := Paid(ms[id - 1], fillId)])
    {
      ghost var t' := Paid(ms[id - 1], fillId);
      assert IsOffer(trades[id], id, ms[id - 1]);
      var trade, sub := trades[id], subEscrows[(id, fillId)];
      subEscrows := subEscrows[(id, fillId) := sub.(released := true)];
      PutFill(old(subEscrows), ms, id, t', fillId, subEscrows[(id, fillId)]);
      KeepCount(fillCounter, ms, id, t');
      KeepWindow(windowCloseAt, ms, id, t');
      var settled := false;
      if trade.filledAmount == trade.totalAmount {
        settled := AllSettled(id, t'.fills);
      }
      if settled {
        trades := trades[id := trade.(status := Completed)];
        PutOffer(old(trades), ms, id, t', trades[id]);
      } else {
        KeepOffer(trades, ms, id, t');
      }
    }

    method ReleasePayment(now: Timestamp, id: nat, fillId: nat) returns (r: Reply)
      requires Valid() && model.clock <= now
      modifies this
      ensures Valid() && (model, r) == Step(old(model), now, Call.ReleasePayment(id, fillId))
      ensures r.Failed? ==> StorageUnchanged()
    {
      hide Sum, StoriesOk, CustodyOk, DoRelease;
      ghost var next := DoReleasePayment(model, now, id, fillId).0;
      ReleaseCallKeepsInv(model, now, Call.ReleasePayment(id, fillId), id, fillId);
      if paused {
        model := next;
        return Failed(ContractPaused);
      }
      if admin.None? {
        model := next;
        return Failed(Unauthorized);
      }
      if id !in trades {
        model := next;
        return Failed(TradeNotFound);
      }
      var trade := trades[id];
      if trade.status != Locked && trade.status != PartiallyFilled {
        model := next;
        return Failed(WrongStatus);
      }
      r := ReleaseFill(now, id, fillId);
    }

    method ReleaseByTimelock(now: Timestamp, caller: Address, id: nat, fillId: nat) returns (r: Reply)
      requires Valid() && model.clock <= now
      modifies this
      ensures Valid() && (model, r) == Step(old(model), now, Call.ReleaseByTimelock(caller, id, fillId))
      ensures r.Failed? ==> StorageUnchanged()
    {
      hide Sum, StoriesOk, CustodyOk, DoRelease;
      ghost var next := DoReleaseByTimelock(model, now, caller, id, fillId).0;
      ReleaseCallKeepsInv(model, now, Call.ReleaseByTimelock(caller, id, fillId), id, fillId);
      if paused {
        model := next;
        return Failed(ContractPaused);
      }
      if id !in trades {
        model := next;
        return Failed(TradeNotFound);
      }
      var trade := trades[id];
      if admin.None? || (caller != trade.seller && caller != admin.value) {
        model := next;
        return Failed(Unauthorized);
      }
      if trade.status == Disputed {
        model := next;
        return Failed(AlreadyDisputed);
      }
      if trade.status != Locked && trade.status != PartiallyFilled {
        model := next;
        return Failed(WrongStatus);
      }
      if id !in windowCloseAt {
        model := next;
        return Failed(TradeNotFound);
      }
      if now < windowCloseAt[id] {
        model := next;
        return Failed(TimelockNotExpired);
      }
      r := ReleaseFill(now, id, fillId);
    }

    method CancelAndRefund(now: Timestamp, caller: Address, id: nat) returns (r: Reply)
      requires Valid() && model.clock <= now
      modifies this
      ensures Valid() && (model, r) == Step(old(model), now, Call.CancelAndRefund(caller, id))
      ensures r.Failed? ==> StorageUnchanged()
    {
      hide Sum, Inv, Balance, RefundMoves, Returned;
      hide OffersStored, CountsStored, FillsStored, WindowsStored, BalancesStored;
      RefundKeepsInv(model, now, caller, id);
      Find(id);
      ghost var next := DoCancelAndRefund(model, now, caller, id).0;
      if paused {
        model := next;
        return Failed(ContractPaused);
      }
      if admin.None? {
        model := next;
        return Failed(Unauthorized);
      }
      var isAdmin := caller == admin.value;
      if id !in trades {
        model := next;
        return Failed(TradeNotFound);
      }
      var trade := trades[id];
      if trade.status != Locked && trade.status != Disputed && trade.status != PartiallyFilled {
        model := next;
        return Failed(WrongStatus);
      }
      r := RefundFills(now, caller, id, isAdmin);
    }

    /** What the rest of a refund comes to once the trade has passed the checks before the loop. */
    ghost function RefundOutcome(s: State, now: Timestamp, caller: Address, id: nat, isAdmin: bool): (State, Reply)
      requires 1 <= id <= |s.trades|
    {
      var t := s.trades[id - 1];
      if !isAdmin && HoldsActive(t.fills, caller) && now < t.expiresAt then Refuse(s, now, TimelockNotExpired)
      else if !isAdmin && !HoldsActive(t.fills, caller) then Refuse(s, now, Unauthorized)
      else if Balance(s.log, t.token, Custodian) < Sum(t.fills, RefundAmount(caller, isAdmin)) then Abort(s, now)
      else Settle(s, now, id, Returned(t, caller, isAdmin), RefundMoves(t, id, caller, isAdmin, |t.fills|))
    }

    /** Pays one fill back and marks it refunded. */
    method RefundOne(id: nat, i: nat, caller: Address, isAdmin: bool, token: Address, refundedAmount: I128, ghost s: State)
      returns (ok: bool)
      requires 1 <= id <= |s.trades| && 1 <= i <= |s.trades[id - 1].fills| && TradeOk(s.trades[id - 1], s.clock)
      requires RefundedTo(subEscrows, balances, s, id, caller, isAdmin, i - 1, refundedAmount)
      requires (id, i) in subEscrows && IsFill(subEscrows[(id, i)], i, s.trades[id - 1].fills[i - 1])
      requires Refundable(s.trades[id - 1].fills[i - 1], caller, isAdmin) && token == s.trades[id - 1].token
      modifies this`subEscrows, this`balances
      ensures ok <==> refundedAmount + s.trades[id - 1].fills[i - 1].amount <= Balance(s.log, token, Custodian)
      ensures ok ==> RefundedTo(subEscrows, balances, s, id, caller, isAdmin, i,
                                refundedAmount + s.trades[id - 1].fills[i - 1].amount)
      ensures !ok ==> subEscrows == old(subEscrows) && balances == old(balances)
    {
      hide Sum, OneActivePerBuyer, StatusOk, RefundsAreFinal, Balance, RefundMoves, RefundedTo;
      ghost var t := s.trades[id - 1];
      RefundFinds(subEscrows, balances, s, id, caller, isAdmin, i - 1, refundedAmount);
      var sub := subEscrows[(id, i)];
      ok := Transfer(token, Custodian, sub.buyer, sub.amount, RefundMove(t, id, i, t.fills[i - 1]),
                     s.log + RefundMoves(t, id, caller, isAdmin, i - 1));
      if ok {
        RefundPays(subEscrows, old(balances), balances, s, id, caller, isAdmin, i - 1, refundedAmount, sub.(refunded := true));
        subEscrows := subEscrows[(id, i) := sub.(refunded := true)];
      }
    }

    /** The loop over fill ids.  Nothing is checked in advance: the time lock is tested at each of the caller's fills. */
    method RefundLoop(now: Timestamp, caller: Address, id: nat, isAdmin: bool, token: Address, expiresAt: nat, ghost s: State)
      returns (end: LoopEnd, refundedAmount: I128, callerHasFills: bool)
      requires 1 <= id <= |s.trades| && TradeOk(s.trades[id - 1], s.clock)
      requires RefundedTo(subEscrows, balances, s, id, caller, isAdmin, 0, 0)
      requires Count(fillCounter, id) == |s.trades[id - 1].fills|
      requires token == s.trades[id - 1].token && expiresAt == s.trades[id - 1].expiresAt
      modifies this`subEscrows, this`balances
      ensures var t := s.trades[id - 1];
              match end
              case TooEarly =>
                !isAdmin && HoldsActive(t.fills, caller) && now < expiresAt &&
                subEscrows == old(subEscrows) && balances == old(balances)
              case Overdrawn =>
                Balance(s.log, token, Custodian) < Sum(t.fills, RefundAmount(caller, isAdmin)) &&
                (isAdmin || (HoldsActive(t.fills, caller) && expiresAt <= now))
              case Finished =>
                && RefundedTo(subEscrows, balances, s, id, caller, isAdmin, |t.fills|, refundedAmount)
                && (!isAdmin ==> (callerHasFills <==> HoldsActive(t.fills, caller)))
                && (!isAdmin && callerHasFills ==> expiresAt <= now)
                && (!callerHasFills ==> subEscrows == old(subEscrows) && balances == old(balances))
    {
      hide Sum, OneActivePerBuyer, StatusOk, RefundsAreFinal, Balance, RefundMoves, RefundedTo, BalancesStored;
      ghost var t := s.trades[id - 1];
      end, refundedAmount, callerHasFills := Finished, 0, false;
      var fillCount := Count(fillCounter, id);
      RefundBounds(t, caller, isAdmin);
      for i := 1 to fillCount + 1
        invariant end.Finished? && RefundedTo(subEscrows, balances, s, id, caller, isAdmin, i - 1, refundedAmount)
        invariant callerHasFills <==> exists j :: 0 <= j < i - 1 && Refundable(t.fills[j], caller, isAdmin)
        invariant callerHasFills && !isAdmin ==> expiresAt <= now
        invariant !callerHasFills ==> subEscrows == old(subEscrows) && balances == old(balances)
      {
        RefundFinds(subEscrows, balances, s, id, caller, isAdmin, i - 1, refundedAmount);
        if (id, i) in subEscrows {
          var sub := subEscrows[(id, i)];
          if !sub.released && !sub.refunded && (isAdmin || sub.buyer == caller) {
            if sub.buyer == caller && !isAdmin && now < expiresAt {
              return TooEarly, 0, false;
            }
            callerHasFills := true;
            var ok := RefundOne(id, i, caller, isAdmin, token, refundedAmount, s);
            if !ok {
              return Overdrawn, 0, false;
            }
            refundedAmount := refundedAmount + sub.amount;
          } else {
            RefundSkips(subEscrows, balances, s, id, caller, isAdmin, i - 1, refundedAmount);
          }
        }
      }
    }

    /** The refund loop and what follows it; a caller without fills is refused only after the loop. */
    method RefundFills(now: Timestamp, caller: Address, id: nat, isAdmin: bool) returns (r: Reply)
      requires Valid() && model.clock <= now && id in trades
      requires Inv(RefundOutcome(model, now, caller, id, isAdmin).0)
      modifies this
      ensures Valid() && (model, r) == RefundOutcome(old(model), now, caller, id, isAdmin)
      ensures r.Failed? ==> StorageUnchanged()
    {
      hide Sum, Inv, TradesStored, OneActivePerBuyer, StatusOk, RefundsAreFinal, Balance, RefundMoves, RefundedTo, FillsOk;
      hide OffersStored, CountsStored, WindowsStored, BalancesStored, FillsStored, Returned;
      Find(id);
      ghost var before := model;
      ghost var t := before.trades[id - 1];
      TradesAreStored(before.trades);
      RefundStarts(subEscrows, balances, before, id, caller, isAdmin);
      var trade, savedFills, savedBalances := trades[id], subEscrows, balances;
      var end, refundedAmount, callerHasFills :=
        RefundLoop(now, caller, id, isAdmin, trade.token, trade.expiresAt, before);
      model := RefundOutcome(before, now, caller, id, isAdmin).0;
      if end.TooEarly? {
        return Failed(TimelockNotExpired);
      }
      if end.Overdrawn? {
        // the host rolls the aborted call back
        subEscrows, balances := savedFills, savedBalances;
        return Trapped;
      }
      if !isAdmin && !callerHasFills {
        return Failed(Unauthorized);
      }
      RefundEnds(subEscrows, balances, before, id, caller, isAdmin, refundedAmount);
      RefundBounds(t, caller, isAdmin);
      var left := CheckedSub(trade.filledAmount, refundedAmount);
      if left.None? {
        assert false;
      }
      StoreReturn(id, caller, isAdmin, left.value, before.trades);
      return Done;
    }

    lemma TradesAreStored(ms: seq<Trade>)
      requires TradesStored(ms)
      ensures OffersStored(trades, ms) && CountsStored(fillCounter, ms)
      ensures FillsStored(subEscrows, ms) && WindowsStored(windowCloseAt, ms)
    {
    }

    /** Writes back the trade after its refunds. */
    method StoreReturn(id: nat, caller: Address, isAdmin: bool, left: I128, ghost ms: seq<Trade>)
      requires id in trades && OffersStored(trades, ms) && CountsStored(fillCounter, ms) && WindowsStored(windowCloseAt, ms)
      requires FillsStored(subEscrows, ms[id - 1 := Returned(ms[id - 1], caller, isAdmin)])
      requires left == ms[id - 1].filled - Sum(ms[id - 1].fills, RefundAmount(caller, isAdmin))
      modifies this`trades
      ensures TradesStored(ms[id - 1 := Returned(ms[id - 1], caller, isAdmin)])
    {
      hide Sum;
      ghost var t' := Returned(ms[id - 1], caller, isAdmin);
      assert IsOffer(trades[id], id, ms[id - 1]);
      var trade := trades[id];
      trades := trades[id := trade.(filledAmount := left,
                                    status := if isAdmin then Cancelled
                                              else if left == 0 then Open
                                              else if left < trade.totalAmount then PartiallyFilled
                                              else trade.status)];
      PutOffer(old(trades), ms, id, t', trades[id]);
      KeepCount(fillCounter, ms, id, t');
      KeepWindow(windowCloseAt, ms, id, t');
    }

    method CloseExpiredListing(now: Timestamp, id: nat) returns (r: Reply)
      requires Valid() && model.clock <= now
      modifies this
      ensures Valid() && (model, r) == Step(old(model), now, Call.CloseExpired(id))
      ensures r.Failed? ==> StorageUnchanged()
    {
      hide Sum, Inv;
      hide OffersStored, CountsStored, FillsStored, WindowsStored, BalancesStored;
      StepKeepsInv(model, now, Call.CloseExpired(id));
      Find(id);
      ghost var before := model;
      model := DoCloseExpired(before, now, id).0;
      assert before.log + [] == before.log;
      if id !in trades {
        return Failed(TradeNotFound);
      }
      var trade := trades[id];
      if trade.status != Open {
        return Failed(WrongStatus);
      }
      if now < trade.expiresAt {
        return Failed(TradeExpired);
      }
      trades := trades[id := trade.(status := Cancelled)];
      trades := trades - {id};
      ghost var t' := before.trades[id - 1].(status := Cancelled, stored := false);
      DropOffer(old(trades), before.trades, id, t');
      assert trades == old(trades) - {id};
      KeepCount(fillCounter, before.trades, id, t');
      KeepFills(subEscrows, before.trades, id, t');
      KeepWindow(windowCloseAt, before.trades, id, t');
      return Done;
    }

    method FlagDispute(now: Timestamp, caller: Address, id: nat) returns (r: Reply)
      requires Valid() && model.clock <= now
      modifies this
      ensures Valid() && (model, r) == Step(old(model), now, Call.FlagDispute(caller, id))
      ensures r.Failed? ==> StorageUnchanged()
    {
      hide Sum, Inv, TradeOk;
      hide DoInitialize, DoPause, DoUnpause, DoCreate, DoDeposit, DoReleasePayment, DoReleaseByTimelock;
      hide DoCancelAndRefund, DoCloseExpired, DoEmergencyWithdraw, DoOutside, AdminOnly;
      hide OffersStored, CountsStored, FillsStored, WindowsStored, BalancesStored;
      StepKeepsInv(model, now, Call.FlagDispute(caller, id));
      Find(id);
      ghost var before := model;
      model := DoFlagDispute(before, now, caller, id).0;
      assert before.log + [] == before.log;
      if paused {
        return Failed(ContractPaused);
      }
      if id !in trades {
        return Failed(TradeNotFound);
      }
      var trade := trades[id];
      if trade.status == Disputed {
        return Failed(AlreadyDisputed);
      }
      if trade.status != Locked {
        return Failed(WrongStatus);
      }
      var isParty := caller == trade.seller;
      if !isParty {
        var fillCount := Count(fillCounter, id);
        ghost var fills := before.trades[id - 1].fills;
        for i := 1 to fillCount + 1
          invariant !isParty && forall j :: 0 <= j < i - 1 ==> fills[j].buyer != caller
        {
          if (id, i) in subEscrows {
            if subEscrows[(id, i)].buyer == caller {
              assert fills[i - 1].buyer == caller;
              isParty := true;
              break;
            }
          }
        }
      }
      if !isParty {
        return Failed(NotAParty);
      }
      trades := trades[id := trade.(status := Disputed)];
      ghost var t' := before.trades[id - 1].(status := Disputed);
      PutOffer(old(trades), before.trades, id, t', trades[id]);
      KeepCount(fillCounter, before.trades, id, t');
      KeepFills(subEscrows, before.trades, id, t');
      KeepWindow(windowCloseAt, before.trades, id, t');
      return Done;
    }

    method EmergencyWithdraw(now: Timestamp, token: Address, recipient: Address, amount: I128) returns (r: Reply)
      requires Valid() && model.clock <= now
      modifies this
      ensures Valid() && (model, r) == Step(old(model), now, Call.EmergencyWithdraw(token, recipient, amount))
      ensures r.Failed? ==> StorageUnchanged()
    {
      hide Sum, Inv;
      StepKeepsInv(model, now, Call.EmergencyWithdraw(token, recipient, amount));
      ghost var before := model;
      model := DoEmergencyWithdraw(before, now, token, recipient, amount).0;
      if admin.None? {
        return Failed(Unauthorized);
      }
      if !paused {
        return Failed(WrongStatus);
      }
      if amount <= 0 {
        return Failed(InvalidAmount);
      }
      var since := if pausedAt.Some? then pausedAt.value else 0;
      if now < since + EMERGENCY_TIMELOCK_SECS {
        return Failed(TimelockNotExpired);
      }
      var contractBalance := HeldBy(balances, token, Custodian);
      if contractBalance < amount {
        return Failed(InsufficientFunds);
      }
      ghost var m := Move(token, Some(Custodian), recipient, amount, Recovery);
      var ok := Transfer(token, Custodian, recipient, amount, m, before.log);
      return Done;
    }

    /** A transfer the contract has no part in: anyone else's, or newly issued tokens. */
    method OutsideTransfer(now: Timestamp, token: Address, from: Option<Address>, to: Address, amount: nat) returns (r: Reply)
      requires Valid() && model.clock <= now && from != Some(Custodian)
      modifies this
      ensures Valid() && (model, r) == Step(old(model), now, Call.Outside(token, from, to, amount))
    {
      hide Sum, Inv, TradesStored, BalancesStored;
      StepKeepsInv(model, now, Call.Outside(token, from, to, amount));
      ghost var before, m := model, Move(token, from, to, amount, Purpose.Outside);
      model := DoOutside(before, now, token, from, to, amount).0;
      if from.Some? {
        var ok := Transfer(token, from.value, to, amount, m, before.log);
        return if ok then Done else Trapped;
      }
      balances := balances[(token, to) := HeldBy(balances, token, to) + amount];
      Issued(old(balances), before.log, token, to, amount);
      return Done;
    }
  }
}

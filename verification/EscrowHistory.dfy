/** What the contract's state says, told from the calls that succeeded before. */
module EscrowHistory {
  import opened Sums
  import opened TokenLedger
  import opened EscrowSpec
  import opened EscrowInvariant
  import opened EscrowRules
  import opened EscrowRuns

  // ----- the settings -----

  /** Call k of the run succeeded, and is one that makes token a listed one, or no longer. */
  predicate AllowsToken(c: Call, reply: Reply, token: Address) {
    reply.Done? && ((c.Initialize? && token in c.allowed) || (c.AddAllowedToken? && c.token == token))
  }

  predicate BansToken(c: Call, reply: Reply, token: Address) {
    reply.Done? && c.RemoveAllowedToken? && c.token == token
  }

  predicate AllowsCategory(c: Call, reply: Reply, category: Symbol) {
    reply.Done? && ((c.Initialize? && category in {"AIRTIME", "DATA"}) || (c.AddCategory? && c.category == category))
  }

  predicate BansCategory(c: Call, reply: Reply, category: Symbol) {
    reply.Done? && c.RemoveCategory? && c.category == category
  }

  predicate NamesAdmin(c: Call, reply: Reply) {
    reply.Done? && (c.Initialize? || c.TransferAdmin?)
  }

  function Named(c: Call): Option<Address> {
    match c
    case Initialize(a, _) => Some(a)
    case TransferAdmin(a) => Some(a)
    case _ => None
  }

  predicate Pauses(c: Call, reply: Reply) {
    reply.Done? && c.Pause?
  }

  predicate Unpauses(c: Call, reply: Reply) {
    reply.Done? && c.Unpause?
  }

  /** The calls about trades and the outside transfers leave the settings alone. */
  lemma SettingsKept(s: State, now: Timestamp, c: Call)
    requires MovesEscrow(c) || c.CloseExpired? || c.EmergencyWithdraw? || c.Outside?
    ensures var s' := Step(s, now, c).0;
            s'.tokens == s.tokens && s'.categories == s.categories && s'.admin == s.admin && s'.paused == s.paused
  {
    hide Sum, Balance, Returned, Deposited, Paid, RefundMoves;
  }

  lemma SettingsStep(s: State, now: Timestamp, c: Call, token: Address, category: Symbol, a: Address)
    requires Inv(s)
    ensures var (s', r) := Step(s, now, c);
            && (token in s'.tokens <==> AllowsToken(c, r, token) || (token in s.tokens && !BansToken(c, r, token)))
            && (category in s'.categories <==> AllowsCategory(c, r, category) || (category in s.categories && !BansCategory(c, r, category)))
            && (s'.admin == Some(a) <==> (NamesAdmin(c, r) && Named(c) == Some(a)) || (s.admin == Some(a) && !NamesAdmin(c, r)))
            && (s'.paused <==> Pauses(c, r) || (s.paused && !Unpauses(c, r)))
  {
    if MovesEscrow(c) || c.CloseExpired? || c.EmergencyWithdraw? || c.Outside? {
      SettingsKept(s, now, c);
      hide Step;
    } else {
      hide TradesOk, StoriesOk, CustodyOk;
    }
  }

  /** At every point of every run, a token is allowed exactly if the last successful call about it allowed it. */
  lemma {:induction false} TokenHistory(r: Run, n: nat, token: Address)
    requires ValidRun(r) && n < |r.states|
    ensures token in r.states[n].tokens <==>
              exists j: nat :: j < n && AllowsToken(r.events[j].call, r.replies[j], token) &&
                forall i: nat :: j < i < n ==> !BansToken(r.events[i].call, r.replies[i], token)
  {
    hide Step, Inv, AllowsToken, BansToken;
    if n > 0 {
      TokenHistory(r, n - 1, token);
      RunKeepsInv(r, n - 1);
      assert StepsTo(r, n - 1);
      SettingsStep(r.states[n - 1], r.events[n - 1].now, r.events[n - 1].call, token, "", token);
    }
  }

  /** The same for a category. */
  lemma {:induction false} CategoryHistory(r: Run, n: nat, category: Symbol)
    requires ValidRun(r) && n < |r.states|
    ensures category in r.states[n].categories <==>
              exists j: nat :: j < n && AllowsCategory(r.events[j].call, r.replies[j], category) &&
                forall i: nat :: j < i < n ==> !BansCategory(r.events[i].call, r.replies[i], category)
  {
    hide Step, Inv, AllowsCategory, BansCategory;
    if n > 0 {
      CategoryHistory(r, n - 1, category);
      RunKeepsInv(r, n - 1);
      assert StepsTo(r, n - 1);
      SettingsStep(r.states[n - 1], r.events[n - 1].now, r.events[n - 1].call, Custodian, category, Custodian);
    }
  }

  /** The admin is the one the last successful initialisation or transfer named. */
  lemma {:induction false} AdminHistory(r: Run, n: nat, a: Address)
    requires ValidRun(r) && n < |r.states|
    ensures r.states[n].admin == Some(a) <==>
              exists j: nat :: j < n && NamesAdmin(r.events[j].call, r.replies[j]) && Named(r.events[j].call) == Some(a) &&
                forall i: nat :: j < i < n ==> !NamesAdmin(r.events[i].call, r.replies[i])
  {
    hide Step, Inv, NamesAdmin, Named;
    if n > 0 {
      AdminHistory(r, n - 1, a);
      RunKeepsInv(r, n - 1);
      assert StepsTo(r, n - 1);
      SettingsStep(r.states[n - 1], r.events[n - 1].now, r.events[n - 1].call, a, "", a);
    }
  }

  /** The contract is paused exactly if the last successful call of the two was a pause. */
  lemma {:induction false} PauseHistory(r: Run, n: nat)
    requires ValidRun(r) && n < |r.states|
    ensures r.states[n].paused <==>
              exists j: nat :: j < n && Pauses(r.events[j].call, r.replies[j]) &&
                forall i: nat :: j < i < n ==> !Unpauses(r.events[i].call, r.replies[i])
  {
    hide Step, Inv;
    if n > 0 {
      PauseHistory(r, n - 1);
      RunKeepsInv(r, n - 1);
      assert StepsTo(r, n - 1);
      SettingsStep(r.states[n - 1], r.events[n - 1].now, r.events[n - 1].call, Custodian, "", Custodian);
      hide Pauses, Unpauses;
    }
  }

  /** A pause lasts at least 300 seconds. */
  lemma PauseLasts(r: Run, k: nat) returns (p: nat)
    requires ValidRun(r) && k < |r.events| && r.events[k].call.Unpause? && r.replies[k].Done? && r.states[k].paused
    ensures p < k && r.events[p].call.Pause? && !r.states[p].paused && r.events[p].now + 300 <= r.events[k].now
  {
    hide Inv;
    RunKeepsInv(r, k);
    assert StepsTo(r, k);
    p := PausedSince(r, k);
    UnpauseAcceptedIff(r.states[k], r.events[k].now);
  }

  // ----- a trade's standing -----

  /** The trade exists and has this status. */
  predicate HasStatus(s: State, id: nat, status: TradeStatus) {
    1 <= id <= |s.trades| && s.trades[id - 1].status == status
  }

  predicate Gone(s: State, id: nat) {
    1 <= id <= |s.trades| && !s.trades[id - 1].stored
  }

  predicate ClosesTrade(c: Call, reply: Reply, id: nat) {
    reply.Done? && c.CloseExpired? && c.id == id
  }

  predicate RefundsTrade(c: Call, reply: Reply, id: nat) {
    reply.Done? && c.CancelAndRefund? && c.id == id
  }

  predicate DisputesTrade(c: Call, reply: Reply, id: nat) {
    reply.Done? && c.FlagDispute? && c.id == id
  }

  predicate CancelsTrade(admin: Option<Address>, c: Call, reply: Reply, id: nat) {
    ClosesTrade(c, reply, id) || (RefundsTrade(c, reply, id) && admin == Some(c.caller))
  }

  lemma StatusStep(s: State, now: Timestamp, c: Call, id: nat)
    requires Inv(s) && s.clock <= now
    ensures var (s', r) := Step(s, now, c);
            && (HasStatus(s', id, Cancelled) <==> CancelsTrade(s.admin, c, r, id) || HasStatus(s, id, Cancelled))
            && (HasStatus(s', id, Disputed) <==> DisputesTrade(c, r, id) || (HasStatus(s, id, Disputed) && !RefundsTrade(c, r, id)))
            && (Gone(s', id) <==> ClosesTrade(c, r, id) || Gone(s, id))
  {
    if 1 <= id <= |s.trades| {
      if Step(s, now, c).1.Done? && Concerns(c, id) {
        OwnStatusStep(s, now, c, id);
      } else {
        OthersUntouched(s, now, c, id);
        hide Step;
      }
    } else {
      NewStatusStep(s, now, c, id);
    }
  }

  lemma NewStatusStep(s: State, now: Timestamp, c: Call, id: nat)
    requires !(1 <= id <= |s.trades|)
    ensures var (s', r) := Step(s, now, c);
            && !HasStatus(s', id, Cancelled) && !HasStatus(s', id, Disputed) && !Gone(s', id)
            && !(r.Done? && Concerns(c, id))
  {
    hide Sum, Balance, Returned, Deposited, Paid, RefundMoves;
  }

  lemma OwnStatusStep(s: State, now: Timestamp, c: Call, id: nat)
    requires Inv(s) && s.clock <= now && 1 <= id <= |s.trades| && Step(s, now, c).1.Done? && Concerns(c, id)
    ensures var (s', r) := Step(s, now, c);
            && (HasStatus(s', id, Cancelled) <==> CancelsTrade(s.admin, c, r, id) || HasStatus(s, id, Cancelled))
            && (HasStatus(s', id, Disputed) <==> DisputesTrade(c, r, id) || (HasStatus(s, id, Disputed) && !RefundsTrade(c, r, id)))
            && (Gone(s', id) <==> ClosesTrade(c, r, id) || Gone(s, id))
  {
    TradeIsOk(s, id);
    if c.ReleasePayment? || c.ReleaseByTimelock? {
      ReleaseStatusStep(s, now, c, id);
    } else {
      StandingStep(s, now, c, id);
    }
  }

  lemma TradeIsOk(s: State, id: nat)
    requires Inv(s) && 1 <= id <= |s.trades|
    ensures TradeOk(s.trades[id - 1], s.clock)
  {
    hide StoriesOk, CustodyOk, TradeOk;
  }

  lemma ReleaseStatusStep(s: State, now: Timestamp, c: Call, id: nat)
    requires Inv(s) && s.clock <= now && 1 <= id <= |s.trades| && Step(s, now, c).1.Done? && Concerns(c, id)
    requires c.ReleasePayment? || c.ReleaseByTimelock?
    ensures var (s', r) := Step(s, now, c);
            && (HasStatus(s', id, Cancelled) <==> CancelsTrade(s.admin, c, r, id) || HasStatus(s, id, Cancelled))
            && (HasStatus(s', id, Disputed) <==> DisputesTrade(c, r, id) || (HasStatus(s, id, Disputed) && !RefundsTrade(c, r, id)))
            && (Gone(s', id) <==> ClosesTrade(c, r, id) || Gone(s, id))
  {
    hide Inv, Sum, Balance, DoRelease;
    ReleaseLeaves(s, now, id, c.fillId);
  }

  lemma StandingStep(s: State, now: Timestamp, c: Call, id: nat)
    requires Inv(s) && s.clock <= now && 1 <= id <= |s.trades| && Step(s, now, c).1.Done? && Concerns(c, id)
    requires TradeOk(s.trades[id - 1], s.clock) && !c.ReleasePayment? && !c.ReleaseByTimelock?
    ensures var (s', r) := Step(s, now, c);
            && (HasStatus(s', id, Cancelled) <==> CancelsTrade(s.admin, c, r, id) || HasStatus(s, id, Cancelled))
            && (HasStatus(s', id, Disputed) <==> DisputesTrade(c, r, id) || (HasStatus(s, id, Disputed) && !RefundsTrade(c, r, id)))
            && (Gone(s', id) <==> ClosesTrade(c, r, id) || Gone(s, id))
  {
    hide Inv, Sum, Balance, Returned, Deposited, RefundMoves, TradeOk;
    match c
    case Deposit(buyer, _, amount) => DepositLeaves(s, now, buyer, id, amount);
    case CancelAndRefund(caller, _) => RefundLeaves(s, now, caller, id);
    case CloseExpired(_) => CloseLeaves(s, now, id);
    case FlagDispute(caller, _) => DisputeLeaves(s, now, caller, id);
  }

  /** At every point of every run: a trade is cancelled exactly if it was closed or the admin refunded it, gone
      exactly if it was closed, and disputed exactly if a dispute on it has not been followed by a refund.  Beyond
      that the status is what the fills make it. */
  lemma StatusHistory(r: Run, n: nat, id: nat)
    requires ValidRun(r) && n < |r.states|
    ensures HasStatus(r.states[n], id, Cancelled) <==>
              exists j: nat :: j < n && CancelsTrade(r.states[j].admin, r.events[j].call, r.replies[j], id)
    ensures Gone(r.states[n], id) <==> exists j: nat :: j < n && ClosesTrade(r.events[j].call, r.replies[j], id)
    ensures HasStatus(r.states[n], id, Disputed) <==>
              exists j: nat :: j < n && DisputesTrade(r.events[j].call, r.replies[j], id) &&
                forall i: nat :: j < i < n ==> !RefundsTrade(r.events[i].call, r.replies[i], id)
    ensures 1 <= id <= |r.states[n].trades| ==> StatusFollows(r.states[n].trades[id - 1])
  {
    RunKeepsInv(r, n);
    if 1 <= id <= |r.states[n].trades| {
      assert TradeOk(r.states[n].trades[id - 1], r.states[n].clock);
      StatusFromFills(r.states[n].trades[id - 1], r.states[n].clock);
    }
    hide Step, Inv, StatusFollows, TradeOk, StepsTo;
    CancelledHistory(r, n, id);
    GoneHistory(r, n, id);
    DisputedHistory(r, n, id);
  }

  /** A trade neither cancelled nor disputed is open, part filled, locked or completed as its fills say. */
  ghost predicate StatusFollows(t: Trade) {
    t.status.Cancelled? || t.status.Disputed? ||
    t.status == (if AllRefunded(t.fills) then Open
                 else if Sum(t.fills, KeptAmount()) < t.total then PartiallyFilled
                 else if NoneHeld(t.fills) then Completed else Locked)
  }

  lemma StatusFromFills(t: Trade, clock: nat)
    requires TradeOk(t, clock)
    ensures StatusFollows(t)
  {
    KeptNothingIff(t.fills);
  }

  lemma {:induction false} CancelledHistory(r: Run, n: nat, id: nat)
    requires ValidRun(r) && n < |r.states|
    ensures HasStatus(r.states[n], id, Cancelled) <==>
              exists j: nat :: j < n && CancelsTrade(r.states[j].admin, r.events[j].call, r.replies[j], id)
  {
    hide Step, Inv, CancelsTrade;
    if n > 0 {
      hide HasStatus;
      CancelledHistory(r, n - 1, id);
      RunKeepsInv(r, n - 1);
      assert StepsTo(r, n - 1);
      StatusStep(r.states[n - 1], r.events[n - 1].now, r.events[n - 1].call, id);
    }
  }

  lemma {:induction false} GoneHistory(r: Run, n: nat, id: nat)
    requires ValidRun(r) && n < |r.states|
    ensures Gone(r.states[n], id) <==>
              exists j: nat :: j < n && ClosesTrade(r.events[j].call, r.replies[j], id)
  {
    hide Step, Inv, ClosesTrade;
    if n > 0 {
      hide Gone;
      GoneHistory(r, n - 1, id);
      RunKeepsInv(r, n - 1);
      assert StepsTo(r, n - 1);
      StatusStep(r.states[n - 1], r.events[n - 1].now, r.events[n - 1].call, id);
    }
  }

  lemma {:induction false} DisputedHistory(r: Run, n: nat, id: nat)
    requires ValidRun(r) && n < |r.states|
    ensures HasStatus(r.states[n], id, Disputed) <==>
              exists j: nat :: j < n && DisputesTrade(r.events[j].call, r.replies[j], id) &&
                forall i: nat :: j < i < n ==> !RefundsTrade(r.events[i].call, r.replies[i], id)
  {
    hide Step, Inv, DisputesTrade, RefundsTrade;
    if n > 0 {
      hide HasStatus;
      DisputedHistory(r, n - 1, id);
      RunKeepsInv(r, n - 1);
      assert StepsTo(r, n - 1);
      StatusStep(r.states[n - 1], r.events[n - 1].now, r.events[n - 1].call, id);
    }
  }

  /** From a dispute on, until a refund of the trade succeeds, every release of it fails. */
  lemma DisputeFreezesReleases(r: Run, i: nat, k: nat, id: nat)
    requires ValidRun(r) && i < k < |r.events| && DisputesTrade(r.events[i].call, r.replies[i], id)
    requires forall m: nat :: i < m < k ==> !RefundsTrade(r.events[m].call, r.replies[m], id)
    requires (r.events[k].call.ReleasePayment? || r.events[k].call.ReleaseByTimelock?) && r.events[k].call.id == id
    ensures r.replies[k].Failed?
  {
    hide Step, StatusFollows;
    StatusHistory(r, k, id);
    assert StepsTo(r, k);
    DisputedRefuses(r.states[k], r.events[k].now, r.events[k].call);
  }

  // ----- where trades and fills come from -----

  /** Every trade was posted, with exactly its terms, by the create that was given its id. */
  lemma {:induction false} TradeWasPosted(r: Run, n: nat, id: nat) returns (j: nat)
    requires ValidRun(r) && n < |r.states| && 1 <= id <= |r.states[n].trades|
    ensures j < n && r.replies[j] == Created(id) && r.events[j].call.CreateListing?
    ensures var c, t := r.events[j].call, r.states[n].trades[id - 1];
            && t.seller == c.seller && t.token == c.token && t.total == c.total && t.assetType == c.assetType
            && t.expiresAt == c.expiresAt && r.events[j].now < t.expiresAt <= r.events[j].now + 2_592_000
  {
    hide Step, Inv;
    RunKeepsInv(r, n - 1);
    assert StepsTo(r, n - 1);
    var s, e := r.states[n - 1], r.events[n - 1];
    if id <= |s.trades| {
      j := TradeWasPosted(r, n - 1, id);
      TermsStay(s, e.now, e.call, id);
    } else {
      j := n - 1;
      OnlyCreatesAdd(s, e.now, e.call);
      CreatedNow(s, e.now, e.call);
    }
  }

  lemma TermsStay(s: State, now: Timestamp, c: Call, id: nat)
    requires 1 <= id <= |s.trades|
    ensures var s' := Step(s, now, c).0;
            && id <= |s'.trades|
            && var t, t' := s.trades[id - 1], s'.trades[id - 1];
               t'.seller == t.seller && t'.token == t.token && t'.total == t.total && t'.assetType == t.assetType && t'.expiresAt == t.expiresAt
  {
    hide Sum, Balance, RefundMoves, AfterRefund;
  }

  lemma OnlyCreatesAdd(s: State, now: Timestamp, c: Call)
    ensures |Step(s, now, c).0.trades| != |s.trades| ==> c.CreateListing? && Step(s, now, c).1.Created?
  {
    hide Sum, Balance, RefundMoves, Returned, Deposited, Paid;
  }

  lemma CreatedNow(s: State, now: Timestamp, c: Call)
    requires c.CreateListing? && Step(s, now, c).1.Created?
    ensures var (s', r) := Step(s, now, c);
            && r.id == |s.trades| + 1 == |s'.trades| && now < c.expiresAt <= now + 2_592_000
            && var t := s'.trades[r.id - 1];
               t.seller == c.seller && t.token == c.token && t.total == c.total && t.assetType == c.assetType && t.expiresAt == c.expiresAt
  {
    CreateAcceptedIff(s, now, c.seller, c.token, c.total, c.assetType, c.expiresAt);
    hide DoCreate;
  }

  /** The deposit that made fill i of a trade, if call j was one. */
  predicate MadeFill(r: Run, j: nat, id: nat, i: nat)
    requires j < |r.events| && |r.replies| == |r.events| && |r.states| == |r.events| + 1
  {
    r.replies[j].Done? && r.events[j].call.Deposit? && r.events[j].call.id == id &&
    1 <= id <= |r.states[j].trades| && |r.states[j].trades[id - 1].fills| == i
  }

  /** Every fill was made, with exactly its buyer and its amount, by one deposit; and the dispute window closes 24
      hours after the last of them. */
  lemma {:induction false} FillWasDeposited(r: Run, n: nat, id: nat, i: nat) returns (j: nat)
    requires ValidRun(r) && n < |r.states| && 1 <= id <= |r.states[n].trades| && i < |r.states[n].trades[id - 1].fills|
    ensures j < n && MadeFill(r, j, id, i)
    ensures var c, t := r.events[j].call, r.states[n].trades[id - 1];
            && t.fills[i].buyer == c.buyer && t.fills[i].amount == c.amount
            && (i == |t.fills| - 1 ==> t.windowClose == Some(r.events[j].now + 86_400))
  {
    hide Step, Inv;
    RunKeepsInv(r, n - 1);
    assert StepsTo(r, n - 1);
    var s, e := r.states[n - 1], r.events[n - 1];
    FillsStep(s, e.now, e.call, id);
    if id <= |s.trades| && i < |s.trades[id - 1].fills| {
      j := FillWasDeposited(r, n - 1, id, i);
    } else {
      j := n - 1;
    }
  }

  /** One call: the fills stay, but for their states, and a successful deposit adds its own. */
  lemma FillsStep(s: State, now: Timestamp, c: Call, id: nat)
    requires Inv(s) && s.clock <= now && 1 <= id <= |Step(s, now, c).0.trades|
    ensures var (s', r) := Step(s, now, c);
            var fills' := s'.trades[id - 1].fills;
            if id > |s.trades| then fills' == []
            else
              var fills := s.trades[id - 1].fills;
              && |fills'| == |fills| + (if r.Done? && c.Deposit? && c.id == id then 1 else 0)
              && (forall i :: 0 <= i < |fills| ==> fills'[i].buyer == fills[i].buyer && fills'[i].amount == fills[i].amount)
              && (|fills'| > |fills| ==> fills'[|fills|].buyer == c.buyer && fills'[|fills|].amount == c.amount &&
                                         s'.trades[id - 1].windowClose == Some(now + 86_400))
              && (|fills'| == |fills| ==> s'.trades[id - 1].windowClose == s.trades[id - 1].windowClose)
  {
    if id > |s.trades| {
      NewFills(s, now, c, id);
    } else if !(Step(s, now, c).1.Done? && Concerns(c, id)) {
      OthersUntouched(s, now, c, id);
      hide Step;
    } else if c.ReleasePayment? || c.ReleaseByTimelock? {
      ReleasedFills(s, now, c, id);
      hide Step;
    } else {
      OwnFills(s, now, c, id);
      hide Step;
    }
  }

  /** A call that is no deposit keeps every fill's buyer and amount, and the window. */
  ghost predicate FillsKept(t: Trade, t': Trade) {
    && |t'.fills| == |t.fills| && t'.windowClose == t.windowClose
    && forall i :: 0 <= i < |t.fills| ==> t'.fills[i].buyer == t.fills[i].buyer && t'.fills[i].amount == t.fills[i].amount
  }

  lemma ReleasedFills(s: State, now: Timestamp, c: Call, id: nat)
    requires Inv(s) && s.clock <= now && 1 <= id <= |s.trades| && Step(s, now, c).1.Done? && Concerns(c, id)
    requires c.ReleasePayment? || c.ReleaseByTimelock?
    ensures FillsKept(s.trades[id - 1], Step(s, now, c).0.trades[id - 1])
  {
    hide Inv, Sum, Balance, DoRelease;
    ReleaseLeaves(s, now, id, c.fillId);
  }

  lemma OwnFills(s: State, now: Timestamp, c: Call, id: nat)
    requires Inv(s) && s.clock <= now && 1 <= id <= |s.trades| && Step(s, now, c).1.Done? && Concerns(c, id)
    requires !c.ReleasePayment? && !c.ReleaseByTimelock?
    ensures id <= |Step(s, now, c).0.trades|
    ensures var t, t' := s.trades[id - 1], Step(s, now, c).0.trades[id - 1];
            if c.Deposit? then t'.fills == t.fills + [Fill(c.buyer, c.amount, Held)] && t'.windowClose == Some(now + 86_400)
            else FillsKept(t, t')
  {
    hide Inv, Sum, Balance, Returned, Deposited, RefundMoves;
    match c
    case Deposit(buyer, _, amount) => DepositLeaves(s, now, buyer, id, amount);
    case CancelAndRefund(caller, _) => RefundLeaves(s, now, caller, id);
    case CloseExpired(_) => CloseLeaves(s, now, id);
    case FlagDispute(caller, _) => DisputeLeaves(s, now, caller, id);
  }

  lemma NewFills(s: State, now: Timestamp, c: Call, id: nat)
    requires |s.trades| < id <= |Step(s, now, c).0.trades|
    ensures Step(s, now, c).0.trades[id - 1].fills == [] && !(Step(s, now, c).1.Done? && c.Deposit? && c.id == id)
  {
    hide Sum, Balance, Returned, Deposited, Paid, RefundMoves;
  }
}

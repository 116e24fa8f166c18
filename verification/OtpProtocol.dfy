/**
 Concurrent OTP checks: transactions that take their advisory locks one by one, insert,
 count and commit, with their steps interleaved in any way.  A transaction's timestamp
 is fixed when it begins, so it can come long before the locks, and out of order with them.
 */
module OtpProtocol {
  import opened Sums
  import opened OtpLimiter

  /** How far a transaction has come.  `Counted` holds what its query saw. */
  datatype Phase = Begun | OneLock | BothLocks | Inserted | Counted(phone: Tally, ip: Tally)

  datatype Tx = Tx(phone: string, ip: string, start: int, phase: Phase)

  /** `owners` maps each taken lock to its holder; `table` holds the committed rows in commit order. */
  datatype System = System(clock: int, active: map<nat, Tx>, owners: map<string, nat>, table: seq<Row>)

  datatype Action =
    | Tick
    | Begin(tx: nat, phone: string, ip: string)
    | Lock(tx: nat)
    | Insert(tx: nat)
    | Count(tx: nat)
    | Commit(tx: nat)
    | Rollback(tx: nat)

  const Start: System := System(0, map[], map[], [])

  function NextKey(t: Tx): string {
    if t.phase.Begun? then LockKeys(t.phone, t.ip)[0] else LockKeys(t.phone, t.ip)[1]
  }

  predicate WantsLock(t: Tx) {
    t.phase.Begun? || t.phase.OneLock?
  }

  predicate Enabled(s: System, a: Action) {
    match a
    case Tick => true
    case Begin(tx, _, _) => tx !in s.active
    case Lock(tx) => tx in s.active && WantsLock(s.active[tx]) && NextKey(s.active[tx]) !in s.owners
    case Insert(tx) => tx in s.active && s.active[tx].phase.BothLocks?
    case Count(tx) => tx in s.active && s.active[tx].phase.Inserted?
    case Commit(tx) => tx in s.active && s.active[tx].phase.Counted?
    case Rollback(tx) => tx in s.active
  }

  function Release(owners: map<string, nat>, tx: nat): map<string, nat> {
    map key | key in owners && owners[key] != tx :: owners[key]
  }

  function SetPhase(s: System, tx: nat, p: Phase): map<nat, Tx>
    requires tx in s.active
  {
    s.active[tx := s.active[tx].(phase := p)]
  }

  function RowOf(c: Config, t: Tx): Row {
    Row(t.phone, t.ip, t.start, t.phase.Counted? && Allowed(c, t.phase.phone, t.phase.ip))
  }

  function Act(c: Config, s: System, a: Action): System
    requires Enabled(s, a)
  {
    match a
    case Tick => s.(clock := s.clock + 1)
    case Begin(tx, phone, ip) => s.(active := s.active[tx := Tx(phone, ip, s.clock, Begun)])
    case Lock(tx) =>
      s.(active := SetPhase(s, tx, if s.active[tx].phase.Begun? then OneLock else BothLocks),
         owners := s.owners[NextKey(s.active[tx]) := tx])
    case Insert(tx) => s.(active := SetPhase(s, tx, Inserted))
    case Count(tx) =>
      var t := s.active[tx];
      // the query sees the committed rows and the transaction's own
      var seen := Charged(s.table, t.phone, t.ip, t.start);
      s.(active := SetPhase(s, tx, Counted(TallyOf(seen, Phone(t.phone), t.start - c.window),
                                           TallyOf(seen, Ip(t.ip), t.start - c.window))))
    case Commit(tx) =>
      s.(active := s.active - {tx}, owners := Release(s.owners, tx), table := s.table + [RowOf(c, s.active[tx])])
    case Rollback(tx) => s.(active := s.active - {tx}, owners := Release(s.owners, tx))
  }

  // ----- the invariant -----

  predicate HoldsPhoneLock(t: Tx) {
    !t.phase.Begun?
  }

  predicate HoldsIpLock(t: Tx) {
    !t.phase.Begun? && !t.phase.OneLock?
  }

  /** The lock table is exactly the locks the active transactions have taken. */
  ghost predicate LocksOk(s: System) {
    && (forall tx :: tx in s.active && HoldsPhoneLock(s.active[tx]) ==>
          PhoneKey(s.active[tx].phone) in s.owners && s.owners[PhoneKey(s.active[tx].phone)] == tx)
    && (forall tx :: tx in s.active && HoldsIpLock(s.active[tx]) ==>
          IpKey(s.active[tx].ip) in s.owners && s.owners[IpKey(s.active[tx].ip)] == tx)
    && (forall key :: key in s.owners ==>
          s.owners[key] in s.active &&
          ((key == PhoneKey(s.active[s.owners[key]].phone) && HoldsPhoneLock(s.active[s.owners[key]])) ||
           (key == IpKey(s.active[s.owners[key]].ip) && HoldsIpLock(s.active[s.owners[key]]))))
  }

  /** What a transaction counted is still what it would count. */
  ghost predicate CountsOk(c: Config, s: System) {
    forall tx :: tx in s.active && s.active[tx].phase.Counted? ==> CountIsCurrent(c, s.table, s.active[tx])
  }

  ghost predicate CountIsCurrent(c: Config, table: seq<Row>, t: Tx)
    requires t.phase.Counted?
  {
    && t.phase.phone.attempts == Attempts(table, Phone(t.phone), t.start - c.window) + 1
    && t.phase.ip.attempts == Attempts(table, Ip(t.ip), t.start - c.window) + 1
  }

  /** A row was allowed only if, with it, neither budget had more than `limit` rows newer than its window. */
  ghost predicate RowOk(c: Config, table: seq<Row>, k: nat)
    requires k < |table|
  {
    table[k].allowed ==>
      Attempts(table[..k + 1], Phone(table[k].phone), table[k].at - c.window) <= c.limit &&
      Attempts(table[..k + 1], Ip(table[k].ip), table[k].at - c.window) <= c.limit
  }

  ghost predicate TableOk(c: Config, table: seq<Row>) {
    forall k :: 0 <= k < |table| ==> RowOk(c, table, k)
  }

  ghost predicate Inv(c: Config, s: System) {
    LocksOk(s) && CountsOk(c, s) && TableOk(c, s.table)
  }

  // ----- every step keeps it -----

  lemma LockKeepsLocks(c: Config, s: System, tx: nat)
    requires LocksOk(s) && Enabled(s, Lock(tx))
    ensures LocksOk(Act(c, s, Lock(tx)))
  {
    var t := s.active[tx];
    IdentifierLocksFirst(t.phone, t.ip);
    forall other | other in s.active ensures PhoneKey(s.active[other].phone) != IpKey(t.ip) && PhoneKey(t.phone) != IpKey(s.active[other].ip) {
      KeysDiffer(s.active[other].phone, t.ip);
      KeysDiffer(t.phone, s.active[other].ip);
    }
  }

  lemma DoneKeepsLocks(c: Config, s: System, a: Action)
    requires LocksOk(s) && Enabled(s, a) && (a.Commit? || a.Rollback?)
    ensures LocksOk(Act(c, s, a))
  {
  }

  /** Two transactions that hold the same budget's lock are the same transaction. */
  lemma OneHolder(s: System, a: nat, b: nat)
    requires LocksOk(s) && a in s.active && b in s.active
    requires (HoldsPhoneLock(s.active[a]) && HoldsPhoneLock(s.active[b]) && s.active[a].phone == s.active[b].phone) ||
             (HoldsIpLock(s.active[a]) && HoldsIpLock(s.active[b]) && s.active[a].ip == s.active[b].ip)
    ensures a == b
  {
  }

  /** A commit adds a row to no budget that another transaction has counted. */
  lemma CommitKeepsCounts(c: Config, s: System, tx: nat)
    requires Inv(c, s) && Enabled(s, Commit(tx))
    ensures CountsOk(c, Act(c, s, Commit(tx)))
  {
    var row := RowOf(c, s.active[tx]);
    forall other | other in s.active && other != tx && s.active[other].phase.Counted?
      ensures CountIsCurrent(c, s.table + [row], s.active[other])
    {
      var t := s.active[other];
      assert CountIsCurrent(c, s.table, t);
      SumSnoc(s.table, row, Newer(Phone(t.phone), t.start - c.window));
      SumSnoc(s.table, row, Newer(Ip(t.ip), t.start - c.window));
      if row.phone == t.phone || row.ip == t.ip {
        OneHolder(s, tx, other);
      }
    }
  }

  lemma CommitKeepsTable(c: Config, s: System, tx: nat)
    requires Inv(c, s) && Enabled(s, Commit(tx)) && c.window > 0
    ensures TableOk(c, Act(c, s, Commit(tx)).table)
  {
    var t, row := s.active[tx], RowOf(c, s.active[tx]);
    var table' := s.table + [row];
    assert CountIsCurrent(c, s.table, t);
    OwnRowCounts(s.table, row, t.start - c.window);
    assert table'[..|table'|] == table';
    forall k | 0 <= k < |s.table| ensures RowOk(c, table', k) {
      assert table'[..k + 1] == s.table[..k + 1];
      assert RowOk(c, s.table, k);
    }
  }

  lemma CountKeepsInv(c: Config, s: System, tx: nat)
    requires Inv(c, s) && Enabled(s, Count(tx)) && c.window > 0
    ensures Inv(c, Act(c, s, Count(tx)))
  {
    hide Sum, Attempts, Oldest, TableOk;
    var t := s.active[tx];
    OwnRowCounts(s.table, Row(t.phone, t.ip, t.start, false), t.start - c.window);
    var s' := Act(c, s, Count(tx));
    forall other | other in s'.active && s'.active[other].phase.Counted?
      ensures CountIsCurrent(c, s'.table, s'.active[other])
    {
      assert other != tx ==> s'.active[other] == s.active[other] && CountIsCurrent(c, s.table, s.active[other]);
    }
  }

  lemma ActKeepsInv(c: Config, s: System, a: Action)
    requires Inv(c, s) && Enabled(s, a) && c.window > 0
    ensures Inv(c, Act(c, s, a))
  {
    match a
    case Tick =>
    case Begin(_, _, _) =>
    case Lock(tx) => LockKeepsLocks(c, s, tx);
    case Insert(_) =>
    case Count(tx) => CountKeepsInv(c, s, tx);
    case Commit(tx) => DoneKeepsLocks(c, s, a); CommitKeepsCounts(c, s, tx); CommitKeepsTable(c, s, tx);
    case Rollback(_) => DoneKeepsLocks(c, s, a);
  }

  // ----- every interleaving -----

  /** An interleaving, with the states it passes through. */
  datatype Run = Run(actions: seq<Action>, states: seq<System>)

  ghost predicate StepsTo(c: Config, r: Run, k: nat)
    requires k < |r.actions| && |r.states| == |r.actions| + 1
  {
    Enabled(r.states[k], r.actions[k]) && r.states[k + 1] == Act(c, r.states[k], r.actions[k])
  }

  ghost predicate ValidRun(c: Config, r: Run) {
    && |r.states| == |r.actions| + 1 && r.states[0] == Start
    && forall k :: 0 <= k < |r.actions| ==> StepsTo(c, r, k)
  }

  lemma {:induction false} RunKeepsInv(c: Config, r: Run, k: nat)
    requires ValidRun(c, r) && k < |r.states| && c.window > 0
    ensures Inv(c, r.states[k])
  {
    hide Inv, Act, Enabled;
    if k == 0 {
      assert Inv(c, Start) by { StartOk(c); }
    } else {
      RunKeepsInv(c, r, k - 1);
      assert StepsTo(c, r, k - 1);
      ActKeepsInv(c, r.states[k - 1], r.actions[k - 1]);
    }
  }

  lemma StartOk(c: Config)
    ensures Inv(c, Start)
  {
  }

  /** Allowed rows charged to b with a time in (from, to]. */
  function AllowedBetween(b: Budget, from: int, to: int): Row -> int {
    (r: Row) => if r.allowed && Charges(r, b) && from < r.at <= to then 1 else 0
  }

  lemma {:induction false} TableBound(c: Config, table: seq<Row>, b: Budget, end: int)
    requires TableOk(c, table)
    ensures Sum(table, AllowedBetween(b, end - c.window, end)) <= c.limit
  {
    if |table| > 0 {
      var n := |table| - 1;
      var last := table[n];
      if last.allowed && Charges(last, b) && end - c.window < last.at <= end {
        assert RowOk(c, table, n) && table[..n + 1] == table;
        SumMonotone(table, AllowedBetween(b, end - c.window, end), Newer(b, last.at - c.window));
      } else {
        forall k | 0 <= k < n ensures RowOk(c, table[..n], k) {
          assert RowOk(c, table, k) && table[..n][..k + 1] == table[..k + 1];
        }
        TableBound(c, table[..n], b, end);
      }
    }
  }

  /** The limit holds in every window of the configured length, for every identifier and every
      address, in every interleaving: even though times and commits may be out of order. */
  lemma WindowLimit(c: Config, r: Run, k: nat, b: Budget, end: int)
    requires ValidRun(c, r) && k < |r.states| && c.window > 0
    ensures Sum(r.states[k].table, AllowedBetween(b, end - c.window, end)) <= c.limit
  {
    RunKeepsInv(c, r, k);
    TableBound(c, r.states[k].table, b, end);
  }

  // ----- no deadlock -----

  /** `a` cannot take its next lock because `b` has it. */
  predicate WaitsFor(s: System, a: nat, b: nat) {
    a in s.active && WantsLock(s.active[a]) && NextKey(s.active[a]) in s.owners && s.owners[NextKey(s.active[a])] == b
  }

  /** A transaction that someone waits for, and that waits itself, waits only for one that waits for nobody. */
  lemma WaitChainsAreShort(s: System, a: nat, b: nat, d: nat)
    requires LocksOk(s) && WaitsFor(s, a, b) && WaitsFor(s, b, d)
    ensures d in s.active && HoldsIpLock(s.active[d]) && !WantsLock(s.active[d])
    ensures a != b && b != d && a != d
  {
    IdentifierLocksFirst(s.active[a].phone, s.active[a].ip);
    IdentifierLocksFirst(s.active[b].phone, s.active[b].ip);
    KeysDiffer(s.active[a].phone, s.active[b].ip);
    if d in s.active {
      KeysDiffer(s.active[d].phone, s.active[b].ip);
    }
    if b in s.active {
      KeysDiffer(s.active[b].phone, s.active[b].ip);
    }
  }

  /** A step that takes a transaction forward. */
  predicate Advances(a: Action, tx: nat) {
    a == Lock(tx) || a == Insert(tx) || a == Count(tx) || a == Commit(tx)
  }

  /** While any transaction is unfinished, some transaction can move on, without any rollback. */
  lemma NoDeadlock(c: Config, r: Run, k: nat, tx: nat) returns (a: Action, mover: nat)
    requires ValidRun(c, r) && k < |r.states| && c.window > 0 && tx in r.states[k].active
    ensures Advances(a, mover) && Enabled(r.states[k], a)
  {
    var s := r.states[k];
    RunKeepsInv(c, r, k);
    mover := tx;
    if WantsLock(s.active[mover]) && NextKey(s.active[mover]) in s.owners {
      var first := mover;
      mover := s.owners[NextKey(s.active[first])];
      if WantsLock(s.active[mover]) && NextKey(s.active[mover]) in s.owners {
        WaitChainsAreShort(s, first, mover, s.owners[NextKey(s.active[mover])]);
        mover := s.owners[NextKey(s.active[mover])];
      }
    }
    a := match s.active[mover].phase
      case Begun => Lock(mover)
      case OneLock => Lock(mover)
      case BothLocks => Insert(mover)
      case Inserted => Count(mover)
      case Counted(_, _) => Commit(mover);
  }

  // ----- one transaction alone -----

  /** The steps of one check, in the source's order. */
  function Check(tx: nat, phone: string, ip: string): seq<Action> {
    [Begin(tx, phone, ip), Lock(tx), Lock(tx), Insert(tx), Count(tx), Commit(tx)]
  }

  /** Run without interference a check leaves no locks and adds exactly the row of the serial attempt. */
  lemma CheckAlone(c: Config, s: System, tx: nat, phone: string, ip: string, now: int) returns (states: seq<System>)
    requires s.active == map[] && s.owners == map[] && c.window > 0
    ensures |states| == 7 && states[0] == s
    ensures forall k :: 0 <= k < 6 ==>
              Enabled(states[k], Check(tx, phone, ip)[k]) && states[k + 1] == Act(c, states[k], Check(tx, phone, ip)[k])
    ensures states[6].table == Attempt(c, s.table, phone, ip, s.clock, now).0
    ensures states[6].active == map[] && states[6].owners == map[]
  {
    IdentifierLocksFirst(phone, ip);
    KeysDiffer(phone, ip);
    hide PhoneKey, IpKey, LockKeys, TallyOf;
    var s1 := Act(c, s, Begin(tx, phone, ip));
    var s2 := Act(c, s1, Lock(tx));
    var s3 := Act(c, s2, Lock(tx));
    var s4 := Act(c, s3, Insert(tx));
    var s5 := Act(c, s4, Count(tx));
    var s6 := Act(c, s5, Commit(tx));
    assert s5.active[tx].phase.Counted? && s5.active[tx].start == s.clock;
    assert s6.active == map[] && s6.owners == map[];
    states := [s, s1, s2, s3, s4, s5, s6];
  }
}

/**
 The OTP limiter's decision, over the table of attempts.  Times are in milliseconds;
 `window` is the configured window and `limit` the allowed attempts in it.
 */
module OtpLimiter {
  import opened Sums

  /** One recorded attempt.  `at` is the start of the transaction that made it; `allowed` is what the
      caller was told, which the stored table itself does not keep. */
  datatype Row = Row(phone: string, ip: string, at: int, allowed: bool)

  /** A budget: one identifier's, or one address's. */
  datatype Budget = Phone(phone: string) | Ip(ip: string)

  datatype Config = Config(limit: nat, window: int)

  /** What the counting query returns for one budget. */
  datatype Tally = Tally(attempts: nat, oldest: Option<int>)

  datatype RateState = RateState(allowed: bool, remaining: nat, retryAfterSeconds: int)

  predicate Charges(r: Row, b: Budget) {
    match b
    case Phone(p) => r.phone == p
    case Ip(a) => r.ip == a
  }

  /** Rows charged to b and newer than `since`; there is no upper bound on their time. */
  function Newer(b: Budget, since: int): Row -> int {
    (r: Row) => if Charges(r, b) && r.at > since then 1 else 0
  }

  function Attempts(rows: seq<Row>, b: Budget, since: int): int {
    Sum(rows, Newer(b, since))
  }

  function Oldest(rows: seq<Row>, b: Budget, since: int): (r: Option<int>)
    ensures r.Some? ==> exists i :: 0 <= i < |rows| && Charges(rows[i], b) && rows[i].at == r.value > since
    ensures forall i :: 0 <= i < |rows| && Charges(rows[i], b) && rows[i].at > since ==> r.Some? && r.value <= rows[i].at
  {
    if |rows| == 0 then None
    else
      var last, before := rows[|rows| - 1], Oldest(rows[..|rows| - 1], b, since);
      if !(Charges(last, b) && last.at > since) || (before.Some? && before.value <= last.at) then before
      else Some(last.at)
  }

  function TallyOf(rows: seq<Row>, b: Budget, since: int): Tally {
    CountsAreNatural(rows, b, since);
    Tally(Attempts(rows, b, since), Oldest(rows, b, since))
  }

  lemma CountsAreNatural(rows: seq<Row>, b: Budget, since: int)
    ensures Attempts(rows, b, since) >= 0
  {
    SumNonNegative(rows, Newer(b, since));
  }

  // ----- the answer -----

  /** Seconds until `oldest` leaves the window, rounded up and at least one. */
  function RetryAfterFor(c: Config, oldest: Option<int>, now: int): int {
    if oldest.None? then c.window / 1000
    else
      var seconds := (oldest.value + c.window - now + 999) / 1000;
      if seconds < 1 then 1 else seconds
  }

  function Max(a: int, b: int): int {
    if a < b then b else a
  }

  function Decide(c: Config, phone: Tally, ip: Tally, now: int): RateState {
    var left := if phone.attempts < ip.attempts then c.limit - ip.attempts else c.limit - phone.attempts;
    var retry :=
      if phone.attempts > c.limit && ip.attempts > c.limit
      then Max(RetryAfterFor(c, phone.oldest, now), RetryAfterFor(c, ip.oldest, now))
      else if phone.attempts > c.limit then RetryAfterFor(c, phone.oldest, now)
      else if ip.attempts > c.limit then RetryAfterFor(c, ip.oldest, now)
      else c.window / 1000;
    RateState(phone.attempts <= c.limit && ip.attempts <= c.limit, if left < 0 then 0 else left, retry)
  }

  predicate Allowed(c: Config, phone: Tally, ip: Tally) {
    phone.attempts <= c.limit && ip.attempts <= c.limit
  }

  /** The table an attempt counts: what is there, and its own row, whose answer is not known yet. */
  function Charged(rows: seq<Row>, phone: string, ip: string, start: int): seq<Row> {
    rows + [Row(phone, ip, start, false)]
  }

  /** One attempt, run on its own. */
  function Attempt(c: Config, rows: seq<Row>, phone: string, ip: string, start: int, now: int): (seq<Row>, RateState) {
    var counted := Charged(rows, phone, ip, start);
    var p, i := TallyOf(counted, Phone(phone), start - c.window), TallyOf(counted, Ip(ip), start - c.window);
    (rows + [Row(phone, ip, start, Allowed(c, p, i))], Decide(c, p, i, now))
  }

  // ----- lock keys -----

  /** The order of JavaScript's default sort on strings. */
  predicate Less(a: string, b: string) {
    if |b| == 0 then false
    else if |a| == 0 then true
    else a[0] < b[0] || (a[0] == b[0] && Less(a[1..], b[1..]))
  }

  function PhoneKey(phone: string): string {
    "otp:identifier:" + phone
  }

  function IpKey(ip: string): string {
    "otp:ip:" + ip
  }

  function LockKeys(phone: string, ip: string): seq<string> {
    if Less(IpKey(ip), PhoneKey(phone)) then [IpKey(ip), PhoneKey(phone)] else [PhoneKey(phone), IpKey(ip)]
  }

  lemma {:induction false} CommonPrefix(p: string, a: string, b: string)
    ensures Less(p + a, p + b) == Less(a, b)
  {
    if |p| == 0 {
      assert p + a == a && p + b == b;
    } else {
      assert (p + a)[1..] == p[1..] + a && (p + b)[1..] == p[1..] + b;
      CommonPrefix(p[1..], a, b);
    }
  }

  /** Whatever the identifier and the address, the identifier's lock sorts first. */
  lemma IdentifierLocksFirst(phone: string, ip: string)
    ensures LockKeys(phone, ip) == [PhoneKey(phone), IpKey(ip)]
  {
    assert PhoneKey(phone) == "otp:i" + ("dentifier:" + phone);
    assert IpKey(ip) == "otp:i" + ("p:" + ip);
    CommonPrefix("otp:i", "p:" + ip, "dentifier:" + phone);
  }

  lemma KeysDiffer(phone: string, ip: string)
    ensures PhoneKey(phone) != IpKey(ip)
  {
    assert PhoneKey(phone)[5] == 'd' && IpKey(ip)[5] == 'p';
  }

  // ----- the call, as one transaction -----

  class Database {
    var rows: seq<Row>
    /** Advisory locks, in the order taken. */
    var locks: seq<string>

    constructor ()
      ensures rows == [] && locks == []
    {
      rows, locks := [], [];
    }

    /** `start` is the transaction's NOW(), `now` the caller's clock when the answer is formed. */
    method CheckOtpRateLimit(c: Config, identifier: string, ip: string, start: int, now: int)
      returns (state: RateState, ghost taken: seq<string>)
      requires locks == []
      modifies this
      ensures (rows, state) == Attempt(c, old(rows), identifier, ip, start, now)
      ensures taken == [PhoneKey(identifier), IpKey(ip)] && locks == []
    {
      var lockKeys := LockKeys(identifier, ip);
      for i := 0 to |lockKeys|
        invariant locks == lockKeys[..i] && rows == old(rows)
      {
        locks := locks + [lockKeys[i]];
      }
      taken := locks;
      IdentifierLocksFirst(identifier, ip);
      assert lockKeys[..|lockKeys|] == lockKeys;
      rows := rows + [Row(identifier, ip, start, false)];
      var phone := TallyOf(rows, Phone(identifier), start - c.window);
      var addr := TallyOf(rows, Ip(ip), start - c.window);
      locks := [];
      state := Decide(c, phone, addr, now);
      rows := rows[..|rows| - 1] + [rows[|rows| - 1].(allowed := state.allowed)];
    }
  }

  // ----- what the answer means -----

  /** Rows charged to b, in (from, to]. */
  function Between(b: Budget, from: int, to: int): Row -> int {
    (r: Row) => if Charges(r, b) && from < r.at <= to then 1 else 0
  }

  lemma {:induction false} WindowSplits(rows: seq<Row>, b: Budget, from: int, to: int)
    requires from <= to
    ensures Attempts(rows, b, from) == Sum(rows, Between(b, from, to)) + Attempts(rows, b, to)
  {
    if |rows| > 0 {
      WindowSplits(rows[..|rows| - 1], b, from, to);
    }
  }

  /** Rows counted for a budget with the attempt's own. */
  function Counted(c: Config, rows: seq<Row>, b: Budget, start: int): int {
    Attempts(rows, b, start - c.window) + 1
  }

  /** The seconds a refusing budget asks for: until the oldest row it counted leaves the window. */
  function Asks(c: Config, rows: seq<Row>, phone: string, ip: string, start: int, now: int, b: Budget): int {
    RetryAfterFor(c, Oldest(Charged(rows, phone, ip, start), b, start - c.window), now)
  }

  /** The whole answer.  The attempt is recorded whatever it is, `remaining` is what the fuller budget has left, and
      Retry-After is the largest time a refusing budget asks for, or the window when none refuses. */
  lemma AnswerIs(c: Config, rows: seq<Row>, phone: string, ip: string, start: int, now: int)
    requires c.window > 0
    ensures var (rows', state) := Attempt(c, rows, phone, ip, start, now);
            var p, i := Counted(c, rows, Phone(phone), start), Counted(c, rows, Ip(ip), start);
            var asksP, asksI := Asks(c, rows, phone, ip, start, now, Phone(phone)), Asks(c, rows, phone, ip, start, now, Ip(ip));
            && rows' == rows + [Row(phone, ip, start, state.allowed)]
            && (state.allowed <==> p <= c.limit && i <= c.limit)
            && (state.remaining == 0 <==> p >= c.limit || i >= c.limit)
            && (state.remaining > 0 ==> state.remaining <= c.limit - p && state.remaining <= c.limit - i &&
                                        (state.remaining == c.limit - p || state.remaining == c.limit - i))
            && (state.allowed ==> state.retryAfterSeconds == c.window / 1000)
            && (p > c.limit ==> state.retryAfterSeconds >= asksP) && (i > c.limit ==> state.retryAfterSeconds >= asksI)
            && (!state.allowed ==> (p > c.limit && state.retryAfterSeconds == asksP) || (i > c.limit && state.retryAfterSeconds == asksI))
  {
    hide Sum, Attempts, Oldest, RetryAfterFor;
    OwnRowCounts(rows, Row(phone, ip, start, false), start - c.window);
  }

  /** What a budget asks for is the least whole number of seconds, and at least one, after which its oldest row has left. */
  lemma RetryAfterIsLeast(c: Config, oldest: int, now: int, seconds: int)
    requires seconds >= 1
    ensures RetryAfterFor(c, Some(oldest), now) <= seconds <==> oldest + c.window <= now + seconds * 1000
    ensures RetryAfterFor(c, Some(oldest), now) >= 1
  {
  }

  /** The `remaining` count is right about the same caller's next attempt: with some left it will be allowed
      whenever it is made, and with none left it is refused unless rows have left the window by then. */
  lemma RemainingPredictsNext(c: Config, rows: seq<Row>, phone: string, ip: string, start: int, now: int, start2: int, now2: int)
    requires c.window > 0 && start <= start2
    ensures var (rows', state) := Attempt(c, rows, phone, ip, start, now);
            var next := Attempt(c, rows', phone, ip, start2, now2).1.allowed;
            && (state.remaining > 0 ==> next)
            && (state.remaining == 0 && NoneLeave(rows', phone, ip, start - c.window, start2 - c.window) ==> !next)
  {
    hide Attempt, Attempts;
    var rows' := Attempt(c, rows, phone, ip, start, now).0;
    RemainingCounts(c, rows, phone, ip, start, now);
    AllowedIffNeitherRefuses(c, rows', phone, ip, start2, now2);
    LaterCountsFewer(rows', Phone(phone), start - c.window, start2 - c.window);
    LaterCountsFewer(rows', Ip(ip), start - c.window, start2 - c.window);
  }

  predicate NoneLeave(rows: seq<Row>, phone: string, ip: string, since: int, since2: int) {
    Attempts(rows, Phone(phone), since2) == Attempts(rows, Phone(phone), since) &&
    Attempts(rows, Ip(ip), since2) == Attempts(rows, Ip(ip), since)
  }

  lemma RemainingCounts(c: Config, rows: seq<Row>, phone: string, ip: string, start: int, now: int)
    requires c.window > 0
    ensures var (rows', state) := Attempt(c, rows, phone, ip, start, now);
            state.remaining > 0 <==>
              Attempts(rows', Phone(phone), start - c.window) < c.limit && Attempts(rows', Ip(ip), start - c.window) < c.limit
  {
    hide Sum, Attempts;
    OwnRowCounts(rows, Row(phone, ip, start, false), start - c.window);
    OwnRowCounts(rows, Attempt(c, rows, phone, ip, start, now).0[|rows|], start - c.window);
  }

  lemma LaterCountsFewer(rows: seq<Row>, b: Budget, since: int, since2: int)
    requires since <= since2
    ensures Attempts(rows, b, since2) <= Attempts(rows, b, since)
  {
    SumMonotone(rows, Newer(b, since2), Newer(b, since));
  }

  lemma OwnRowCounts(rows: seq<Row>, row: Row, since: int)
    requires row.at > since
    ensures Attempts(rows + [row], Phone(row.phone), since) == Attempts(rows, Phone(row.phone), since) + 1
    ensures Attempts(rows + [row], Ip(row.ip), since) == Attempts(rows, Ip(row.ip), since) + 1
  {
    SumSnoc(rows, row, Newer(Phone(row.phone), since));
    SumSnoc(rows, row, Newer(Ip(row.ip), since));
  }

  /** Whether the budget of b refuses an attempt charged to it, made at `start` on `rows`. */
  predicate Refuses(c: Config, rows: seq<Row>, b: Budget, start: int) {
    Attempts(rows, b, start - c.window) + 1 > c.limit
  }

  /** An attempt is allowed exactly when neither of its budgets refuses it. */
  lemma AllowedIffNeitherRefuses(c: Config, rows: seq<Row>, phone: string, ip: string, start: int, now: int)
    requires c.window > 0
    ensures Attempt(c, rows, phone, ip, start, now).1.allowed <==>
              !Refuses(c, rows, Phone(phone), start) && !Refuses(c, rows, Ip(ip), start)
  {
    OwnRowCounts(rows, Row(phone, ip, start, false), start - c.window);
  }

  /** Once refused, any later attempt on that budget is refused as long as the oldest row counted
      then is still within its window, whatever else has been recorded since. */
  lemma RefusedUntilOldestLeaves(c: Config, rows: seq<Row>, more: seq<Row>, b: Budget, row: Row, start: int, start2: int)
    requires c.window > 0 && Charges(row, b) && row.at == start && Refuses(c, rows, b, start)
    requires var oldest := Oldest(rows + [row], b, start - c.window); oldest.Some? && start2 < oldest.value + c.window
    ensures Refuses(c, rows + [row] + more, b, start2)
  {
    hide Sum;
    var all, since, since2 := rows + [row], start - c.window, start2 - c.window;
    SumSnoc(rows, row, Newer(b, since));
    assert forall i :: 0 <= i < |all| && Charges(all[i], b) && all[i].at > since ==> all[i].at > since2;
    AllStillCount(all, b, since, since2);
    MoreCounts(all, more, b, since2);
  }

  lemma AllStillCount(rows: seq<Row>, b: Budget, since: int, since2: int)
    requires forall i :: 0 <= i < |rows| && Charges(rows[i], b) && rows[i].at > since ==> rows[i].at > since2
    ensures Attempts(rows, b, since) <= Attempts(rows, b, since2)
  {
    hide Sum;
    SumMonotone(rows, Newer(b, since), Newer(b, since2));
  }

  lemma MoreCounts(rows: seq<Row>, more: seq<Row>, b: Budget, since: int)
    ensures Attempts(rows, b, since) <= Attempts(rows + more, b, since)
  {
    hide Sum;
    SumConcat(rows, more, Newer(b, since));
    SumNonNegative(more, Newer(b, since));
  }

  /** So an attempt before Retry-After has run down, less its last second, is refused. */
  lemma EarlyRetryIsRefused(c: Config, rows: seq<Row>, more: seq<Row>, b: Budget, row: Row, start: int, now: int, start2: int)
    requires c.window > 0 && Charges(row, b) && row.at == start && Refuses(c, rows, b, start)
    requires var retry := RetryAfterFor(c, Oldest(rows + [row], b, start - c.window), now);
             retry >= 2 && start2 <= now + (retry - 1) * 1000
    ensures Refuses(c, rows + [row] + more, b, start2)
  {
    var all := rows + [row];
    assert all[|rows|] == row;
    RefusedUntilOldestLeaves(c, rows, more, b, row, start, start2);
  }

  /** Retrying later with nothing else recorded: the budget refuses again exactly when too few of the
      counted rows have left the window, the refused attempt's own row having been charged as well. */
  lemma RetryRefusedIff(c: Config, rows: seq<Row>, b: Budget, row: Row, start: int, start2: int)
    requires c.window > 0 && Charges(row, b) && row.at == start <= start2 && Refuses(c, rows, b, start)
    ensures var left := Sum(rows + [row], Between(b, start - c.window, start2 - c.window));
            var counted := Attempts(rows + [row], b, start - c.window);
            Refuses(c, rows + [row], b, start2) <==> left <= counted - c.limit
  {
    WindowSplits(rows + [row], b, start - c.window, start2 - c.window);
  }

  /** In particular, waiting exactly until the oldest row leaves is not enough unless several rows
      leave together: a refusal means more than `limit` rows were counted, and one leaving is too few. */
  lemma WaitingForTheOldestIsTooShort(c: Config, rows: seq<Row>, b: Budget, row: Row, start: int, start2: int)
    requires c.window > 0 && Charges(row, b) && row.at == start <= start2 && Refuses(c, rows, b, start)
    requires Oldest(rows + [row], b, start - c.window) == Some(start2 - c.window)
    requires Sum(rows + [row], Between(b, start - c.window, start2 - c.window)) == 1
    ensures Refuses(c, rows + [row], b, start2)
  {
    SumSnoc(rows, row, Newer(b, start - c.window));
    RetryRefusedIff(c, rows, b, row, start, start2);
  }

  lemma CountOf(rows: seq<Row>, b: Budget, since: int)
    requires |rows| <= 3
    ensures Attempts(rows, b, since) ==
              (if |rows| > 0 then Newer(b, since)(rows[0]) else 0) +
              (if |rows| > 1 then Newer(b, since)(rows[1]) else 0) +
              (if |rows| > 2 then Newer(b, since)(rows[2]) else 0)
  {
    if |rows| > 0 {
      var init := rows[..|rows| - 1];
      assert rows == init + [rows[|rows| - 1]];
      SumSnoc(init, rows[|rows| - 1], Newer(b, since));
      CountOf(init, b, since);
    }
  }

  /** A caller who obeys Retry-After to the second and is refused again: a one-minute window that
      allows one attempt, a second attempt after ten seconds, and a third when told to come back. */
  lemma ObeyingRetryAfterFails()
    ensures var c := Config(1, 60000);
            var (rows1, first) := Attempt(c, [], "p", "a", 0, 0);
            var (rows2, second) := Attempt(c, rows1, "p", "a", 10000, 10000);
            first.allowed && !second.allowed && second.retryAfterSeconds == 50 &&
            !Attempt(c, rows2, "p", "a", 60000, 60000).1.allowed
  {
    hide Attempt;
    FirstAttempt();
    SecondAttempt();
    ThirdAttempt();
  }

  lemma FirstAttempt()
    ensures Attempt(Config(1, 60000), [], "p", "a", 0, 0).0 == [Row("p", "a", 0, true)]
    ensures Attempt(Config(1, 60000), [], "p", "a", 0, 0).1.allowed
  {
    hide Sum, Oldest;
    var counted := Charged([], "p", "a", 0);
    CountOf(counted, Phone("p"), -60000);
    CountOf(counted, Ip("a"), -60000);
  }

  lemma SecondAttempt()
    ensures var (rows, state) := Attempt(Config(1, 60000), [Row("p", "a", 0, true)], "p", "a", 10000, 10000);
            rows == [Row("p", "a", 0, true), Row("p", "a", 10000, false)] && !state.allowed && state.retryAfterSeconds == 50
  {
    hide Sum, Oldest;
    var counted := Charged([Row("p", "a", 0, true)], "p", "a", 10000);
    assert counted == [Row("p", "a", 0, true), Row("p", "a", 10000, false)];
    CountOf(counted, Phone("p"), -50000);
    CountOf(counted, Ip("a"), -50000);
    OldestOfTwo(counted[0], counted[1]);
  }

  lemma ThirdAttempt()
    ensures var rows := [Row("p", "a", 0, true), Row("p", "a", 10000, false)];
            !Attempt(Config(1, 60000), rows, "p", "a", 60000, 60000).1.allowed
  {
    hide Sum, Oldest;
    var counted := Charged([Row("p", "a", 0, true), Row("p", "a", 10000, false)], "p", "a", 60000);
    CountOf(counted, Phone("p"), 0);
    CountOf(counted, Ip("a"), 0);
  }

  lemma OldestOfTwo(r1: Row, r2: Row)
    requires r1.at == 0 && r2.at == 10000
    requires r1.phone == r2.phone == "p" && r1.ip == r2.ip == "a"
    ensures Oldest([r1, r2], Phone("p"), -50000) == Oldest([r1, r2], Ip("a"), -50000) == Some(0)
  {
    assert [r1, r2][0] == r1;
  }
}

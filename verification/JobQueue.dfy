/**
 The background job queue in its in-process form, one lane a queue name.  A lane also
 remembers everything that happened in `log`; what a job's life may look like is defined
 apart from the queue, as an automaton over that log.
 */
module JobQueue {
  import opened Sums

  const MAX_ATTEMPTS: nat := 3
  const BASE_DELAY_MS: nat := 2000
  const MAX_DEAD_STORED: nat := 100

  datatype Job = Job(id: nat, data: string, attempts: nat, maxAttempts: nat, nextRunAt: nat, failedReason: string)

  datatype FailureNote = FailureNote(jobId: nat, data: string, failedReason: string)

  datatype Event =
    | Enqueued(id: nat, notBefore: nat)
    | Started(id: nat, at: nat)
    | Succeeded(id: nat)
    | Failed(id: nat, at: nat, retryAt: nat)
    | Died(id: nat, job: Job)

  /** `inHand` is a job the poll loop has taken and not yet dealt with; `running` are the jobs whose
      processors have not settled; `noting` are jobs moved to the dead-letter list whose failure is still to be
      noted, which the source does after an await. */
  datatype Lane = Lane(
    waiting: seq<Job>, inHand: Option<Job>, running: seq<Job>, dead: seq<Job>, noting: seq<Job>, recent: seq<FailureNote>,
    active: int, completed: nat, failed: nat, log: seq<Event>)

  const EmptyLane: Lane := Lane([], None, [], [], [], [], 0, 0, 0, [])

  // ----- back-off -----

  function Pow2(n: nat): nat {
    if n == 0 then 1 else 2 * Pow2(n - 1)
  }

  function CappedDelay(attempt: nat): nat
    requires attempt >= 1
  {
    var base := BASE_DELAY_MS * Pow2(attempt - 1);
    if base < 30000 then base else 30000
  }

  /** Truncated exponential back-off with jitter; `random` is Math.random(), and the result is Math.round. */
  function BackoffDelay(attempt: nat, random: real): int
    requires attempt >= 1
  {
    var capped := CappedDelay(attempt) as real;
    var jitter := capped * 0.2 * (random * 2.0 - 1.0);
    (capped + jitter + 0.5).Floor
  }

  lemma {:induction false} Pow2Positive(n: nat)
    ensures Pow2(n) >= 1
  {
    if n > 0 {
      Pow2Positive(n - 1);
    }
  }

  /** Between 80% and 120% of the capped base, whatever the random number. */
  lemma BackoffRange(attempt: nat, random: real)
    requires attempt >= 1 && 0.0 <= random < 1.0
    ensures BackoffDelay(attempt, random) >= 0
    ensures 4 * CappedDelay(attempt) <= 5 * BackoffDelay(attempt, random) <= 6 * CappedDelay(attempt)
  {
    Pow2Positive(attempt - 1);
    var c := CappedDelay(attempt);
    BaseIsRound(attempt);
    var k := c / 5;
    assert c == 5 * k;
    JitterRange(c as real, random);
    assert (4 * k) as real <= c as real + c as real * 0.2 * (random * 2.0 - 1.0) + 0.5 < (6 * k) as real + 1.0;
  }

  lemma JitterRange(c: real, random: real)
    requires c >= 0.0 && 0.0 <= random < 1.0
    ensures -0.2 * c <= c * 0.2 * (random * 2.0 - 1.0) <= 0.2 * c
  {
    ScaleUnit(c * 0.2, random * 2.0 - 1.0);
  }

  lemma ScaleUnit(w: real, x: real)
    requires w >= 0.0 && -1.0 <= x <= 1.0
    ensures -w <= w * x <= w
  {
    ProductNonNegative(w, x + 1.0);
    ProductNonNegative(w, 1.0 - x);
    assert w * (x + 1.0) == w * x + w;
    assert w * (1.0 - x) == w - w * x;
  }

  lemma ProductNonNegative(a: real, b: real)
    requires a >= 0.0 && b >= 0.0
    ensures a * b >= 0.0
  {
  }

  lemma BaseIsRound(attempt: nat)
    requires attempt >= 1
    ensures CappedDelay(attempt) % 5 == 0
  {
    assert BASE_DELAY_MS * Pow2(attempt - 1) == 5 * (400 * Pow2(attempt - 1));
  }

  // ----- steps of a lane -----

  function Enqueue(l: Lane, id: nat, data: string, delayMs: nat, now: nat): Lane {
    var job := Job(id, data, 0, MAX_ATTEMPTS, if delayMs > 0 then now + delayMs else 0, "");
    l.(waiting := l.waiting + [job], log := l.log + [Enqueued(id, job.nextRunAt)])
  }

  /** The poll loop takes the job at the front, if any. */
  function Dequeue(l: Lane): Lane
    requires l.inHand.None?
  {
    if l.waiting == [] then l else l.(waiting := l.waiting[1..], inHand := Some(l.waiting[0]))
  }

  /** It then puts the job back when it is not yet due, and starts it otherwise. */
  function Handle(l: Lane, now: nat): Lane
    requires l.inHand.Some?
  {
    var job := l.inHand.value;
    if job.nextRunAt > 0 && job.nextRunAt > now then l.(inHand := None, waiting := l.waiting + [job])
    else l.(inHand := None, running := l.running + [job.(attempts := job.attempts + 1)],
            active := l.active + 1, log := l.log + [Started(job.id, now)])
  }

  function Without<T>(xs: seq<T>, i: nat): (r: seq<T>)
    requires i < |xs|
    ensures |r| == |xs| - 1
  {
    xs[..i] + xs[i + 1..]
  }

  /** The i-th running job's processor has finished. */
  function Succeed(l: Lane, i: nat): Lane
    requires i < |l.running|
  {
    l.(running := Without(l.running, i), active := l.active - 1, completed := l.completed + 1,
       log := l.log + [Succeeded(l.running[i].id)])
  }

  /** The newest n of a list kept oldest first. */
  function Newest<T>(xs: seq<T>, n: nat): seq<T> {
    if |xs| <= n then xs else xs[|xs| - n..]
  }

  function Note(job: Job): FailureNote {
    FailureNote(job.id, job.data, job.failedReason)
  }

  /** A failed job with attempts left goes back to the end of the list, with its back-off. */
  function Retry(l: Lane, i: nat, now: nat, retryAt: nat, reason: string): Lane
    requires i < |l.running|
  {
    var job := l.running[i].(failedReason := reason);
    l.(running := Without(l.running, i), active := l.active - 1, failed := l.failed + 1,
       waiting := l.waiting + [job.(nextRunAt := retryAt)], log := l.log + [Failed(job.id, now, retryAt)])
  }

  /** One without goes to the dead-letter list. */
  function Die(l: Lane, i: nat, reason: string): Lane
    requires i < |l.running|
  {
    var job := l.running[i].(failedReason := reason);
    l.(running := Without(l.running, i), active := l.active - 1, failed := l.failed + 1,
       dead := Newest(l.dead + [job], MAX_DEAD_STORED), noting := l.noting + [job], log := l.log + [Died(job.id, job)])
  }

  /** The calls suspended on the dead-letter list resume in the order they got there. */
  function NoteFailure(l: Lane): Lane
    requires |l.noting| > 0
  {
    l.(noting := l.noting[1..], recent := Noted(l.noting[0], l.recent))
  }

  function Noted(job: Job, recent: seq<FailureNote>): seq<FailureNote> {
    var all := [Note(job)] + recent;
    if |all| > MAX_DEAD_STORED then all[..MAX_DEAD_STORED] else all
  }

  /** The i-th running job's processor has thrown. */
  function Fail(l: Lane, i: nat, now: nat, random: real, reason: string): Lane
    requires i < |l.running| && l.running[i].attempts >= 1 && 0.0 <= random < 1.0
  {
    BackoffRange(l.running[i].attempts, random);
    if l.running[i].attempts < l.running[i].maxAttempts
    then Retry(l, i, now, now + BackoffDelay(l.running[i].attempts, random), reason)
    else Die(l, i, reason)
  }

  datatype Action =
    | DoEnqueue(id: nat, data: string, delayMs: nat, now: nat)
    | DoDequeue
    | DoHandle(now: nat)
    | DoSucceed(i: nat)
    | DoFail(i: nat, now: nat, random: real, reason: string)
    | DoNote

  /** Job ids are random and taken to be new; processors settle in any order. */
  predicate Enabled(l: Lane, a: Action) {
    match a
    case DoEnqueue(id, _, _, _) => Filter(l.log, Of(id)) == []
    case DoDequeue => l.inHand.None?
    case DoHandle(_) => l.inHand.Some?
    case DoSucceed(i) => i < |l.running|
    case DoFail(i, _, random, _) => i < |l.running| && l.running[i].attempts >= 1 && 0.0 <= random < 1.0
    case DoNote => |l.noting| > 0
  }

  function Act(l: Lane, a: Action): Lane
    requires Enabled(l, a)
  {
    match a
    case DoEnqueue(id, data, delayMs, now) => Enqueue(l, id, data, delayMs, now)
    case DoDequeue => Dequeue(l)
    case DoHandle(now) => Handle(l, now)
    case DoSucceed(i) => Succeed(l, i)
    case DoFail(i, now, random, reason) => Fail(l, i, now, random, reason)
    case DoNote => NoteFailure(l)
  }

  // ----- what a job's life may be -----

  datatype Life = Absent | Waiting(attempts: nat, notBefore: nat) | Running(attempts: nat) | Completed(attempts: nat) | Dead | Broken

  function Of(id: nat): Event -> bool {
    (e: Event) => e.id == id
  }

  /** One event in a job's life; Broken if it may not happen then. */
  function NextLife(life: Life, e: Event): Life {
    match e
    case Enqueued(_, notBefore) => if life.Absent? then Waiting(0, notBefore) else Broken
    case Started(_, at) =>
      // not before its time, and at most three times
      if life.Waiting? && at >= life.notBefore && life.attempts < MAX_ATTEMPTS then Running(life.attempts + 1) else Broken
    case Succeeded(_) => if life.Running? then Completed(life.attempts) else Broken
    case Failed(_, at, retryAt) =>
      // a retry is put off by at least four fifths of the capped back-off
      if life.Running? && 1 <= life.attempts < MAX_ATTEMPTS && 5 * (retryAt - at) >= 4 * CappedDelay(life.attempts)
      then Waiting(life.attempts, retryAt) else Broken
    case Died(_, _) => if life == Running(MAX_ATTEMPTS) then Dead else Broken
  }

  function LifeOf(events: seq<Event>): Life {
    if |events| == 0 then Absent else NextLife(LifeOf(events[..|events| - 1]), events[|events| - 1])
  }

  function JobLife(l: Lane, id: nat): Life {
    LifeOf(Filter(l.log, Of(id)))
  }

  // ----- the invariant -----

  function HasId(id: nat): Job -> int {
    (j: Job) => if j.id == id then 1 else 0
  }

  function InHand(l: Lane): seq<Job> {
    if l.inHand.Some? then [l.inHand.value] else []
  }

  /** How many copies of a job are waiting (or in hand), and how many are running. */
  function WaitingCopies(l: Lane, id: nat): int {
    Sum(l.waiting, HasId(id)) + Sum(InHand(l), HasId(id))
  }

  function RunningCopies(l: Lane, id: nat): int {
    Sum(l.running, HasId(id))
  }

  /** A job is in exactly the one place its life says, and nowhere after it is completed or dead. */
  ghost predicate InOnePlace(l: Lane, id: nat) {
    match JobLife(l, id)
    case Waiting(_, _) => WaitingCopies(l, id) == 1 && RunningCopies(l, id) == 0
    case Running(_) => WaitingCopies(l, id) == 0 && RunningCopies(l, id) == 1
    case Broken => false
    case _ => WaitingCopies(l, id) == 0 && RunningCopies(l, id) == 0
  }

  ghost predicate WaitingOk(l: Lane, j: Job) {
    JobLife(l, j.id) == Waiting(j.attempts, j.nextRunAt) && j.attempts < j.maxAttempts == MAX_ATTEMPTS
  }

  ghost predicate RunningOk(l: Lane, j: Job) {
    JobLife(l, j.id) == Running(j.attempts) && 1 <= j.attempts <= j.maxAttempts == MAX_ATTEMPTS
  }

  ghost predicate PlacesOk(l: Lane) {
    && (forall id :: InOnePlace(l, id))
    && (forall i :: 0 <= i < |l.waiting| ==> WaitingOk(l, l.waiting[i]))
    && (l.inHand.Some? ==> WaitingOk(l, l.inHand.value))
    && (forall i :: 0 <= i < |l.running| ==> RunningOk(l, l.running[i]))
  }

  function IsStart(): Event -> int {
    (e: Event) => if e.Started? then 1 else 0
  }

  ghost predicate CountersOk(l: Lane) {
    l.active == |l.running| && Sum(l.log, IsStart()) == l.completed + l.failed + l.active
  }

  /** Every job that ever died, oldest first. */
  function Deaths(log: seq<Event>): seq<Job> {
    if |log| == 0 then []
    else Deaths(log[..|log| - 1]) + (if log[|log| - 1].Died? then [log[|log| - 1].job] else [])
  }

  function Notes(jobs: seq<Job>): seq<FailureNote> {
    if |jobs| == 0 then [] else [Note(jobs[|jobs| - 1])] + Notes(jobs[..|jobs| - 1])
  }

  /** The deaths already noted: all but the ones still being noted. */
  function NotedDeaths(l: Lane): seq<Job> {
    var deaths := Deaths(l.log);
    if |l.noting| <= |deaths| then deaths[..|deaths| - |l.noting|] else []
  }

  ghost predicate DeadOk(l: Lane) {
    && l.dead == Newest(Deaths(l.log), MAX_DEAD_STORED)
    && NotedDeaths(l) + l.noting == Deaths(l.log)
    && l.recent == Notes(Newest(NotedDeaths(l), MAX_DEAD_STORED))
  }

  ghost predicate Inv(l: Lane) {
    PlacesOk(l) && CountersOk(l) && DeadOk(l)
  }

  // ----- keeping it -----

  /** The lives after one more event: only that event's job is affected. */
  lemma LifeStep(l: Lane, l': Lane, e: Event)
    requires l'.log == l.log + [e]
    ensures forall id :: JobLife(l', id) == if id == e.id then NextLife(JobLife(l, id), e) else JobLife(l, id)
  {
    forall id ensures JobLife(l', id) == if id == e.id then NextLife(JobLife(l, id), e) else JobLife(l, id) {
      FilterSnoc(l.log, e, Of(id));
      var before := Filter(l.log, Of(id));
      assert before + [] == before;
      assert (before + [e])[..|before|] == before;
    }
  }

  lemma WithoutSum(xs: seq<Job>, i: nat, id: nat)
    requires i < |xs|
    ensures Sum(Without(xs, i), HasId(id)) == Sum(xs, HasId(id)) - HasId(id)(xs[i])
  {
    hide Sum;
    var a, b, f := xs[..i], xs[i + 1..], HasId(id);
    TakeApart(xs, i);
    SumConcat(a, [xs[i]] + b, f);
    SumConcat([xs[i]], b, f);
    SumConcat(a, b, f);
    SumOne(xs[i], f);
  }

  lemma TakeApart(xs: seq<Job>, i: nat)
    requires i < |xs|
    ensures xs == xs[..i] + ([xs[i]] + xs[i + 1..])
  {
  }

  lemma NoneInHand(l: Lane)
    requires l.inHand.None?
    ensures forall id :: Sum(InHand(l), HasId(id)) == 0
  {
  }

  lemma WithoutAt(xs: seq<Job>, i: nat, k: nat)
    requires i < |xs| && k < |Without(xs, i)|
    ensures |Without(xs, i)| == |xs| - 1
    ensures Without(xs, i)[k] == xs[if k < i then k else k + 1]
  {
  }

  lemma HeadSum(xs: seq<Job>, id: nat)
    requires |xs| > 0
    ensures Sum(xs, HasId(id)) == HasId(id)(xs[0]) + Sum(xs[1..], HasId(id))
  {
    assert xs == [xs[0]] + xs[1..];
    SumConcat([xs[0]], xs[1..], HasId(id));
    SumOne(xs[0], HasId(id));
  }

  /** A copy in a list is counted. */
  lemma CopyCounts(xs: seq<Job>, i: nat)
    requires i < |xs|
    ensures Sum(xs, HasId(xs[i].id)) >= 1
  {
    SumAtLeast(xs, HasId(xs[i].id), i);
  }

  lemma NoCopies(xs: seq<Job>, id: nat)
    requires Sum(xs, HasId(id)) == 0
    ensures forall i :: 0 <= i < |xs| ==> xs[i].id != id
  {
    forall i | 0 <= i < |xs| ensures xs[i].id != id {
      if xs[i].id == id {
        CopyCounts(xs, i);
      }
    }
  }

  /** Jobs other than the one an event is about keep their standing. */
  lemma OthersKeep(l: Lane, l': Lane, e: Event, id: nat)
    requires PlacesOk(l) && l'.log == l.log + [e] && id != e.id
    requires WaitingCopies(l', id) == WaitingCopies(l, id) && RunningCopies(l', id) == RunningCopies(l, id)
    ensures InOnePlace(l', id)
  {
    assert InOnePlace(l, id);
    LifeStep(l, l', e);
  }

  lemma FreshIsAbsent(l: Lane, id: nat)
    requires Filter(l.log, Of(id)) == []
    ensures JobLife(l, id) == Absent
  {
  }

  lemma EnqueueKeeps(l: Lane, id: nat, data: string, delayMs: nat, now: nat)
    requires Inv(l) && Filter(l.log, Of(id)) == []
    ensures Inv(Enqueue(l, id, data, delayMs, now))
  {
    hide PlacesOk, Sum, Filter, Deaths;
    EnqueuePlaces(l, id, data, delayMs, now);
    LogKeepsTotals(l, Enqueue(l, id, data, delayMs, now), Enqueue(l, id, data, delayMs, now).log[|l.log|]);
  }

  /** A job never heard of is nowhere. */
  lemma FreshIsNowhere(l: Lane, id: nat)
    requires PlacesOk(l) && Filter(l.log, Of(id)) == []
    ensures JobLife(l, id) == Absent && WaitingCopies(l, id) == RunningCopies(l, id) == 0
    ensures (forall i :: 0 <= i < |l.waiting| ==> l.waiting[i].id != id) && (l.inHand.Some? ==> l.inHand.value.id != id)
    ensures forall i :: 0 <= i < |l.running| ==> l.running[i].id != id
  {
    FreshIsAbsent(l, id);
    hide JobLife, Sum, Filter;
    assert InOnePlace(l, id);
    SumNonNegative(l.waiting, HasId(id));
    SumNonNegative(InHand(l), HasId(id));
    NoCopies(l.waiting, id);
    NoCopies(InHand(l), id);
    NoCopies(l.running, id);
    assert l.inHand.Some? ==> InHand(l)[0] == l.inHand.value;
  }

  lemma EnqueuePlaces(l: Lane, id: nat, data: string, delayMs: nat, now: nat)
    requires PlacesOk(l) && Filter(l.log, Of(id)) == []
    ensures PlacesOk(Enqueue(l, id, data, delayMs, now))
  {
    FreshIsNowhere(l, id);
    hide JobLife, Sum, Filter, InOnePlace, WaitingOk, RunningOk;
    var l' := Enqueue(l, id, data, delayMs, now);
    NewJobWaits(l, id, data, delayMs, now);
    EnqueueEveryPlace(l, id, data, delayMs, now);
    forall i | 0 <= i < |l'.waiting| ensures WaitingOk(l', l'.waiting[i]) {
      if i < |l.waiting| {
        EnqueueLeaves(l, id, data, delayMs, now, l.waiting[i]);
      }
    }
    forall i | 0 <= i < |l'.running| ensures RunningOk(l', l'.running[i]) {
      EnqueueLeaves(l, id, data, delayMs, now, l.running[i]);
    }
    if l.inHand.Some? {
      EnqueueLeaves(l, id, data, delayMs, now, l.inHand.value);
    }
  }

  lemma EnqueueEveryPlace(l: Lane, id: nat, data: string, delayMs: nat, now: nat)
    requires PlacesOk(l) && JobLife(l, id) == Absent && WaitingCopies(l, id) == RunningCopies(l, id) == 0
    ensures forall other :: InOnePlace(Enqueue(l, id, data, delayMs, now), other)
  {
    hide *;
    forall other ensures InOnePlace(Enqueue(l, id, data, delayMs, now), other) {
      EnqueuePlace(l, id, data, delayMs, now, other);
    }
  }

  lemma EnqueuePlace(l: Lane, id: nat, data: string, delayMs: nat, now: nat, other: nat)
    requires PlacesOk(l) && JobLife(l, id) == Absent && WaitingCopies(l, id) == RunningCopies(l, id) == 0
    ensures InOnePlace(Enqueue(l, id, data, delayMs, now), other)
  {
    hide JobLife, Sum, Filter, WaitingOk, RunningOk;
    var l' := Enqueue(l, id, data, delayMs, now);
    LifeStep(l, l', l'.log[|l.log|]);
    SumSnoc(l.waiting, l'.waiting[|l.waiting|], HasId(other));
    assert InOnePlace(l, other);
  }

  lemma EnqueueLeaves(l: Lane, id: nat, data: string, delayMs: nat, now: nat, j: Job)
    requires j.id != id
    ensures JobLife(Enqueue(l, id, data, delayMs, now), j.id) == JobLife(l, j.id)
    ensures WaitingOk(l, j) ==> WaitingOk(Enqueue(l, id, data, delayMs, now), j)
    ensures RunningOk(l, j) ==> RunningOk(Enqueue(l, id, data, delayMs, now), j)
  {
    hide JobLife;
    var l' := Enqueue(l, id, data, delayMs, now);
    LifeStep(l, l', l'.log[|l.log|]);
  }

  lemma NewJobWaits(l: Lane, id: nat, data: string, delayMs: nat, now: nat)
    requires JobLife(l, id) == Absent
    ensures var l' := Enqueue(l, id, data, delayMs, now); WaitingOk(l', l'.waiting[|l.waiting|])
  {
    hide JobLife;
    var l' := Enqueue(l, id, data, delayMs, now);
    LifeStep(l, l', l'.log[|l.log|]);
  }

  /** Counters and dead lists after an event that is neither a start nor a death. */
  lemma LogKeepsTotals(l: Lane, l': Lane, e: Event)
    requires l'.log == l.log + [e]
    ensures Sum(l'.log, IsStart()) == Sum(l.log, IsStart()) + IsStart()(e)
    ensures Deaths(l'.log) == if e.Died? then Deaths(l.log) + [e.job] else Deaths(l.log)
  {
    SumSnoc(l.log, e, IsStart());
    assert (l.log + [e])[..|l.log|] == l.log;
  }

  lemma DequeueKeeps(l: Lane)
    requires Inv(l) && l.inHand.None?
    ensures Inv(Dequeue(l))
  {
    var l' := Dequeue(l);
    if l.waiting != [] {
      forall id ensures InOnePlace(l', id) {
        assert InOnePlace(l, id);
        HeadSum(l.waiting, id);
        SumOne(l.waiting[0], HasId(id));
      }
      forall i | 0 <= i < |l'.waiting| ensures WaitingOk(l', l'.waiting[i]) {
        assert WaitingOk(l, l.waiting[i + 1]);
      }
      assert WaitingOk(l, l.waiting[0]);
    }
  }

  lemma PutBackKeeps(l: Lane, now: nat)
    requires Inv(l) && l.inHand.Some? && l.inHand.value.nextRunAt > now
    ensures Inv(Handle(l, now))
  {
    var l', job := Handle(l, now), l.inHand.value;
    forall id ensures InOnePlace(l', id) {
      assert InOnePlace(l, id);
      SumSnoc(l.waiting, job, HasId(id));
      SumOne(job, HasId(id));
    }
    forall i | 0 <= i < |l'.waiting| ensures WaitingOk(l', l'.waiting[i]) {
      assert i < |l.waiting| ==> WaitingOk(l, l.waiting[i]);
    }
  }

  lemma StartKeeps(l: Lane, now: nat)
    requires Inv(l) && l.inHand.Some? && l.inHand.value.nextRunAt <= now
    ensures Inv(Handle(l, now))
  {
    hide PlacesOk, Sum, Filter, Deaths;
    StartPlaces(l, now);
    LogKeepsTotals(l, Handle(l, now), Started(l.inHand.value.id, now));
  }

  lemma StartPlaces(l: Lane, now: nat)
    requires PlacesOk(l) && l.inHand.Some? && l.inHand.value.nextRunAt <= now
    ensures PlacesOk(Handle(l, now))
  {
    hide JobLife, Sum;
    var l', job := Handle(l, now), l.inHand.value;
    NoneInHand(l');
    var e, started := Started(job.id, now), job.(attempts := job.attempts + 1);
    LifeStep(l, l', e);
    assert WaitingOk(l, job) && InOnePlace(l, job.id);
    SumOne(job, HasId(job.id));
    SumNonNegative(l.waiting, HasId(job.id));
    NoCopies(l.waiting, job.id);
    NoCopies(l.running, job.id);
    forall id ensures InOnePlace(l', id) {
      SumSnoc(l.running, started, HasId(id));
      SumOne(job, HasId(id));
      assert InOnePlace(l, id);
    }
    forall i | 0 <= i < |l'.waiting| ensures WaitingOk(l', l'.waiting[i]) {
      assert WaitingOk(l, l.waiting[i]);
    }
    forall i | 0 <= i < |l'.running| ensures RunningOk(l', l'.running[i]) {
      assert i < |l.running| ==> RunningOk(l, l.running[i]);
    }
  }

  /** Taking a finished job off the running list: the places of all other jobs are kept. */
  lemma SettleKeepsRunning(l: Lane, l': Lane, i: nat, e: Event)
    requires PlacesOk(l) && i < |l.running| && e.id == l.running[i].id
    requires l'.log == l.log + [e] && l'.running == Without(l.running, i) && l'.inHand == l.inHand
    ensures JobLife(l, e.id) == Running(l.running[i].attempts) && JobLife(l', e.id) == NextLife(JobLife(l, e.id), e)
    ensures WaitingCopies(l, e.id) == 0 && RunningCopies(l', e.id) == 0
    ensures forall k :: 0 <= k < |l'.running| ==> RunningOk(l', l'.running[k])
    ensures forall k :: 0 <= k < |l.waiting| ==> WaitingOk(l', l.waiting[k])
    ensures l'.inHand.Some? ==> WaitingOk(l', l'.inHand.value)
    ensures forall id :: id != e.id ==> RunningCopies(l', id) == RunningCopies(l, id)
  {
    hide JobLife, Sum, NextLife, Without;
    LifeStep(l, l', e);
    var job := l.running[i];
    assert RunningOk(l, job) && InOnePlace(l, job.id);
    forall id ensures RunningCopies(l', id) == RunningCopies(l, id) - HasId(id)(job) {
      WithoutSum(l.running, i, id);
    }
    SumNonNegative(l.waiting, HasId(job.id));
    SumNonNegative(InHand(l), HasId(job.id));
    NoCopies(l.waiting, job.id);
    NoCopies(InHand(l), job.id);
    NoCopies(l'.running, job.id);
    assert l.inHand.Some? ==> InHand(l)[0] == l.inHand.value;
    forall k | 0 <= k < |l'.running| ensures RunningOk(l', l'.running[k]) {
      WithoutAt(l.running, i, k);
      assert RunningOk(l, l.running[if k < i then k else k + 1]);
    }
    forall k | 0 <= k < |l.waiting| ensures WaitingOk(l', l.waiting[k]) {
      assert WaitingOk(l, l.waiting[k]);
    }
  }

  lemma SucceedKeeps(l: Lane, i: nat)
    requires Inv(l) && i < |l.running|
    ensures Inv(Succeed(l, i))
  {
    hide PlacesOk, Sum, Filter, Deaths, Without;
    SucceedPlaces(l, i);
    LogKeepsTotals(l, Succeed(l, i), Succeeded(l.running[i].id));
  }

  lemma SucceedPlaces(l: Lane, i: nat)
    requires PlacesOk(l) && i < |l.running|
    ensures PlacesOk(Succeed(l, i))
  {
    hide JobLife, Without, Sum, Filter, LifeOf;
    var l', e := Succeed(l, i), Succeeded(l.running[i].id);
    SettleKeepsRunning(l, l', i, e);
    forall id ensures InOnePlace(l', id) {
      if id != e.id {
        OthersKeep(l, l', e, id);
      }
    }
  }

  lemma RetryKeeps(l: Lane, i: nat, now: nat, retryAt: nat, reason: string)
    requires Inv(l) && i < |l.running| && 1 <= l.running[i].attempts < MAX_ATTEMPTS
    requires 5 * (retryAt - now) >= 4 * CappedDelay(l.running[i].attempts)
    ensures Inv(Retry(l, i, now, retryAt, reason))
  {
    hide PlacesOk, Sum, Filter, Deaths, Without;
    RetryPlaces(l, i, now, retryAt, reason);
    LogKeepsTotals(l, Retry(l, i, now, retryAt, reason), Failed(l.running[i].id, now, retryAt));
  }

  lemma RetryPlaces(l: Lane, i: nat, now: nat, retryAt: nat, reason: string)
    requires PlacesOk(l) && i < |l.running| && 1 <= l.running[i].attempts < MAX_ATTEMPTS
    requires 5 * (retryAt - now) >= 4 * CappedDelay(l.running[i].attempts)
    ensures PlacesOk(Retry(l, i, now, retryAt, reason))
  {
    hide JobLife, Without, Sum, CappedDelay, Filter, LifeOf;
    RunningAttempts(l, i);
    var l' := Retry(l, i, now, retryAt, reason);
    var e, job := l'.log[|l.log|], l'.waiting[|l.waiting|];
    SettleKeepsRunning(l, l', i, e);
    forall id ensures InOnePlace(l', id) {
      SumSnoc(l.waiting, job, HasId(id));
      if id != e.id {
        OthersKeep(l, l', e, id);
      }
    }
    forall k | 0 <= k < |l'.waiting| ensures WaitingOk(l', l'.waiting[k]) {
      assert k < |l.waiting| ==> l'.waiting[k] == l.waiting[k];
    }
  }

  lemma DieKeeps(l: Lane, i: nat, reason: string)
    requires Inv(l) && i < |l.running| && l.running[i].attempts >= MAX_ATTEMPTS
    ensures Inv(Die(l, i, reason))
  {
    hide PlacesOk, Sum, Filter, Deaths, Without, Newest, Notes;
    var l', job := Die(l, i, reason), l.running[i].(failedReason := reason);
    DiePlaces(l, l', i, Died(job.id, job));
    LogKeepsTotals(l, l', Died(job.id, job));
    NewestIsShort(Deaths(l.log));
    NewestAppend(Deaths(l.log), job, MAX_DEAD_STORED);
    assert NotedDeaths(l') == NotedDeaths(l);
    assert Deaths(l'.log) == NotedDeaths(l) + (l.noting + [job]);
  }

  lemma NoteKeeps(l: Lane)
    requires Inv(l) && |l.noting| > 0
    ensures Inv(NoteFailure(l))
  {
    hide PlacesOk, Sum, Deaths, Newest, Notes;
    var l', job, noted := NoteFailure(l), l.noting[0], NotedDeaths(l);
    assert NotedDeaths(l') == noted + [job];
    assert l.noting == [job] + l.noting[1..];
    NewestIsShort(noted);
    NewestAppend(noted, job, MAX_DEAD_STORED);
    NotesAppend(Newest(noted, MAX_DEAD_STORED), job);
    assert PlacesOk(l') by { SamePlaces(l, l'); }
  }

  lemma SamePlaces(l: Lane, l': Lane)
    requires PlacesOk(l) && l'.log == l.log && l'.waiting == l.waiting && l'.inHand == l.inHand && l'.running == l.running
    ensures PlacesOk(l')
  {
    forall id ensures InOnePlace(l', id) {
      assert InOnePlace(l, id);
    }
    forall i | 0 <= i < |l.waiting| ensures WaitingOk(l', l.waiting[i]) {
      assert WaitingOk(l, l.waiting[i]);
    }
    forall i | 0 <= i < |l.running| ensures RunningOk(l', l.running[i]) {
      assert RunningOk(l, l.running[i]);
    }
  }

  lemma DiePlaces(l: Lane, l': Lane, i: nat, e: Event)
    requires PlacesOk(l) && i < |l.running| && l.running[i].attempts >= MAX_ATTEMPTS && e.Died? && e.id == l.running[i].id
    requires l'.log == l.log + [e] && l'.running == Without(l.running, i) && l'.inHand == l.inHand && l'.waiting == l.waiting
    ensures PlacesOk(l')
  {
    assert RunningOk(l, l.running[i]);
    hide JobLife, Without, Sum;
    SettleKeepsRunning(l, l', i, e);
    forall id ensures InOnePlace(l', id) {
      if id != e.id {
        OthersKeep(l, l', e, id);
      }
    }
  }

  lemma NewestIsShort(xs: seq<Job>)
    ensures |Newest(xs, MAX_DEAD_STORED)| <= MAX_DEAD_STORED
  {
  }

  /** Appending and cutting to the newest n can be done on the cut list. */
  lemma NewestAppend<T>(xs: seq<T>, x: T, n: nat)
    ensures Newest(Newest(xs, n) + [x], n) == Newest(xs + [x], n)
  {
  }

  lemma {:induction false} NotesLength(jobs: seq<Job>)
    ensures |Notes(jobs)| == |jobs|
  {
    if |jobs| > 0 {
      NotesLength(jobs[..|jobs| - 1]);
    }
  }

  /** Dropping the oldest of the noted jobs drops the last note. */
  lemma {:induction false} NotesDrop(jobs: seq<Job>)
    requires |jobs| > 0
    ensures |Notes(jobs)| == |jobs| && Notes(jobs[1..]) == Notes(jobs)[..|jobs| - 1]
  {
    NotesLength(jobs);
    if |jobs| > 1 {
      NotesDrop(jobs[..|jobs| - 1]);
      assert jobs[1..][..|jobs| - 2] == jobs[..|jobs| - 1][1..];
      assert jobs[1..][|jobs| - 2] == jobs[|jobs| - 1];
    }
  }

  lemma NotesSnoc(jobs: seq<Job>, job: Job)
    ensures Notes(jobs + [job]) == [Note(job)] + Notes(jobs)
  {
    assert (jobs + [job])[..|jobs|] == jobs;
  }

  lemma NotesAppend(dead: seq<Job>, job: Job)
    requires |dead| <= MAX_DEAD_STORED
    ensures Notes(Newest(dead + [job], MAX_DEAD_STORED)) == Noted(job, Notes(dead))
  {
    hide Notes;
    NotesSnoc(dead, job);
    NotesLength(dead);
    if |dead| == MAX_DEAD_STORED {
      NotesDrop(dead + [job]);
    }
  }

  /** A running job has started, and is within its attempts. */
  lemma RunningAttempts(l: Lane, i: nat)
    requires PlacesOk(l) && i < |l.running|
    ensures 1 <= l.running[i].attempts <= l.running[i].maxAttempts == MAX_ATTEMPTS
  {
    assert RunningOk(l, l.running[i]);
  }

  lemma FailKeeps(l: Lane, i: nat, now: nat, random: real, reason: string)
    requires Inv(l) && Enabled(l, DoFail(i, now, random, reason))
    ensures Inv(Fail(l, i, now, random, reason))
  {
    hide PlacesOk, CountersOk, DeadOk, Retry, Die, CappedDelay, BackoffDelay;
    RunningAttempts(l, i);
    BackoffRange(l.running[i].attempts, random);
    if l.running[i].attempts < MAX_ATTEMPTS {
      RetryKeeps(l, i, now, now + BackoffDelay(l.running[i].attempts, random), reason);
    } else {
      DieKeeps(l, i, reason);
    }
  }

  lemma ActKeepsInv(l: Lane, a: Action)
    requires Inv(l) && Enabled(l, a)
    ensures Inv(Act(l, a))
  {
    match a
    case DoEnqueue(id, data, delayMs, now) => EnqueueKeeps(l, id, data, delayMs, now);
    case DoDequeue => DequeueKeeps(l);
    case DoHandle(now) => if l.inHand.value.nextRunAt > now { PutBackKeeps(l, now); } else { StartKeeps(l, now); }
    case DoSucceed(i) => SucceedKeeps(l, i);
    case DoFail(i, now, random, reason) =>
      FailKeeps(l, i, now, random, reason);
    case DoNote => NoteKeeps(l);
  }

  lemma EmptyOk()
    ensures Inv(EmptyLane)
  {
    forall id ensures InOnePlace(EmptyLane, id) {}
  }

  // ----- every run -----

  datatype Run = Run(actions: seq<Action>, lanes: seq<Lane>)

  ghost predicate StepsTo(r: Run, k: nat)
    requires k < |r.actions| && |r.lanes| == |r.actions| + 1
  {
    Enabled(r.lanes[k], r.actions[k]) && r.lanes[k + 1] == Act(r.lanes[k], r.actions[k])
  }

  ghost predicate ValidRun(r: Run) {
    |r.lanes| == |r.actions| + 1 && r.lanes[0] == EmptyLane && forall k :: 0 <= k < |r.actions| ==> StepsTo(r, k)
  }

  lemma {:induction false} RunKeepsInv(r: Run, k: nat)
    requires ValidRun(r) && k < |r.lanes|
    ensures Inv(r.lanes[k])
  {
    hide Inv, Act, Enabled;
    if k == 0 {
      EmptyOk();
    } else {
      RunKeepsInv(r, k - 1);
      assert StepsTo(r, k - 1);
      ActKeepsInv(r.lanes[k - 1], r.actions[k - 1]);
    }
  }

  function IsStartOf(id: nat): Event -> int {
    (e: Event) => if e.Started? && e.id == id then 1 else 0
  }

  function IsFailureOf(id: nat): Event -> int {
    (e: Event) => if (e.Failed? || e.Died?) && e.id == id then 1 else 0
  }

  /** What a sound life says about the number of runs and failures. */
  ghost predicate Tallies(life: Life, starts: int, failures: int) {
    match life
    case Absent => starts == 0 && failures == 0
    case Waiting(a, _) => starts == failures == a <= MAX_ATTEMPTS
    case Running(a) => starts == a == failures + 1 && a <= MAX_ATTEMPTS
    case Completed(a) => starts == a == failures + 1 && a <= MAX_ATTEMPTS
    case Dead => starts == failures == MAX_ATTEMPTS
    case Broken => true
  }

  lemma NextTallies(life: Life, e: Event, starts: int, failures: int)
    requires Tallies(life, starts, failures)
    ensures Tallies(NextLife(life, e), starts + IsStartOf(e.id)(e), failures + IsFailureOf(e.id)(e))
  {
  }

  lemma {:induction false} LifeTallies(log: seq<Event>, id: nat)
    ensures Tallies(LifeOf(Filter(log, Of(id))), Sum(log, IsStartOf(id)), Sum(log, IsFailureOf(id)))
  {
    if |log| > 0 {
      hide Tallies, NextLife;
      var init, e := log[..|log| - 1], log[|log| - 1];
      LifeTallies(init, id);
      var before := Filter(init, Of(id));
      assert (before + [e])[..|before|] == before;
      assert before + [] == before;
      NextTallies(LifeOf(before), e, Sum(init, IsStartOf(id)), Sum(init, IsFailureOf(id)));
    }
  }

  /** Every job ever enqueued is in exactly one place: waiting or in hand, running, completed, or dead;
      it has run at most three times, and it is dead only after exactly three failures. */
  lemma JobConserved(r: Run, k: nat, id: nat)
    requires ValidRun(r) && k < |r.lanes|
    ensures var l := r.lanes[k];
            var life, starts, failures := JobLife(l, id), Sum(l.log, IsStartOf(id)), Sum(l.log, IsFailureOf(id));
            && WaitingCopies(l, id) == (if life.Waiting? then 1 else 0)
            && RunningCopies(l, id) == (if life.Running? then 1 else 0)
            && !life.Broken?
            && (WasEnqueued(l, id) <==> !life.Absent?)
            && starts <= 3
            && (life.Dead? <==> failures == 3)
            && (life.Completed? ==> failures < starts)
  {
    RunKeepsInv(r, k);
    assert InOnePlace(r.lanes[k], id);
    LifeTallies(r.lanes[k].log, id);
    WaitingTakesFewer(r.lanes[k], id);
    LifeBegins(r.lanes[k].log, id);
  }

  ghost predicate WasEnqueued(l: Lane, id: nat) {
    exists i :: 0 <= i < |l.log| && l.log[i].Enqueued? && l.log[i].id == id
  }

  /** An unbroken life is absent exactly when the job was never enqueued. */
  lemma {:induction false} LifeBegins(log: seq<Event>, id: nat)
    ensures var life := LifeOf(Filter(log, Of(id)));
            life.Broken? || (!life.Absent? <==> exists i :: 0 <= i < |log| && log[i].Enqueued? && log[i].id == id)
  {
    if |log| > 0 {
      var init, e := log[..|log| - 1], log[|log| - 1];
      LifeBegins(init, id);
      var before := Filter(init, Of(id));
      assert before + [] == before && (before + [e])[..|before|] == before;
      if i :| 0 <= i < |init| && init[i].Enqueued? && init[i].id == id {
        assert log[i] == init[i];
      }
    }
  }

  /** A waiting job has attempts left. */
  lemma WaitingTakesFewer(l: Lane, id: nat)
    requires Inv(l)
    ensures JobLife(l, id).Waiting? ==> JobLife(l, id).attempts < MAX_ATTEMPTS
  {
    assert InOnePlace(l, id);
    if JobLife(l, id).Waiting? {
      if Sum(l.waiting, HasId(id)) >= 1 {
        var i := FindCopy(l.waiting, id);
        assert WaitingOk(l, l.waiting[i]);
      } else if l.inHand.Some? {
        SumNonNegative(l.waiting, HasId(id));
        SumOne(l.inHand.value, HasId(id));
      } else {
        SumNonNegative(l.waiting, HasId(id));
      }
    }
  }

  lemma {:induction false} FindCopy(xs: seq<Job>, id: nat) returns (i: nat)
    requires Sum(xs, HasId(id)) >= 1
    ensures i < |xs| && xs[i].id == id
  {
    if xs[|xs| - 1].id == id {
      i := |xs| - 1;
    } else {
      i := FindCopy(xs[..|xs| - 1], id);
    }
  }

  /** Between a failed attempt and the next start of the same job lies at least four fifths of the
      capped back-off for that attempt. */
  lemma RetriesBackOff(events: seq<Event>, i: nat)
    requires i + 1 < |events| && events[i].Failed? && !LifeOf(events[..i + 2]).Broken? && events[i + 1].Started?
    ensures LifeOf(events[..i]).Running? && LifeOf(events[..i]).attempts >= 1
    ensures 5 * (events[i + 1].at - events[i].at) >= 4 * CappedDelay(LifeOf(events[..i]).attempts)
  {
    assert events[..i + 2][..i + 1] == events[..i + 1];
    assert events[..i + 1][..i] == events[..i];
  }

  /** The same, for the events of any job in any run. */
  lemma RetriesBackOffInRuns(r: Run, k: nat, id: nat, i: nat)
    requires ValidRun(r) && k < |r.lanes|
    requires var own := Filter(r.lanes[k].log, Of(id)); i + 1 < |own| && own[i].Failed?
    ensures var own := Filter(r.lanes[k].log, Of(id));
            && own[i + 1].Started? && LifeOf(own[..i]).Running? && LifeOf(own[..i]).attempts >= 1
            && 5 * (own[i + 1].at - own[i].at) >= 4 * CappedDelay(LifeOf(own[..i]).attempts)
  {
    hide Filter, CappedDelay, Sum;
    RunKeepsInv(r, k);
    assert InOnePlace(r.lanes[k], id);
    var own := Filter(r.lanes[k].log, Of(id));
    assert own[..|own|] == own;
    SoundPrefix(own, |own|, i + 2);
    assert own[..i + 2][..i + 1] == own[..i + 1];
    assert own[..i + 1][..i] == own[..i];
    RetriesBackOff(own, i);
  }

  /** A life that is sound was sound at every point. */
  lemma {:induction false} SoundPrefix(events: seq<Event>, n: nat, m: nat)
    requires m <= n <= |events| && !LifeOf(events[..n]).Broken?
    ensures !LifeOf(events[..m]).Broken?
    decreases n
  {
    if m < n {
      assert events[..n][..n - 1] == events[..n - 1];
      SoundPrefix(events, n - 1, m);
    }
  }

  /** Starts are accounted for, the dead list is the newest hundred deaths, and the failure notes
      are of the newest hundred noted deaths, newest first; every death is noted or about to be, in order. */
  lemma LedgersAgree(r: Run, k: nat)
    requires ValidRun(r) && k < |r.lanes|
    ensures var l := r.lanes[k];
            var noted := Newest(NotedDeaths(l), 100);
            && Sum(l.log, IsStart()) == l.completed + l.failed + |l.running| && l.active == |l.running|
            && l.dead == Newest(Deaths(l.log), 100)
            && Deaths(l.log) == NotedDeaths(l) + l.noting
            && |l.recent| == |noted|
            && (forall i :: 0 <= i < |noted| ==>
                  var job := noted[|noted| - 1 - i];
                  l.recent[i] == FailureNote(job.id, job.data, job.failedReason))
            && (l.noting == [] ==> noted == l.dead)
  {
    RunKeepsInv(r, k);
    NotesReversed(Newest(NotedDeaths(r.lanes[k]), MAX_DEAD_STORED));
    assert r.lanes[k].noting == [] ==> NotedDeaths(r.lanes[k]) + [] == NotedDeaths(r.lanes[k]);
  }

  lemma {:induction false} NotesReversed(jobs: seq<Job>)
    ensures |Notes(jobs)| == |jobs|
    ensures forall i :: 0 <= i < |jobs| ==> Notes(jobs)[i] == Note(jobs[|jobs| - 1 - i])
  {
    if |jobs| > 0 {
      NotesReversed(jobs[..|jobs| - 1]);
    }
  }
}

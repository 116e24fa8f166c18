/** Where the jobs in a lane come from, and how each step moves them. */
module JobHistory {
  import opened Sums
  import opened JobQueue

  // ----- what a job carries -----

  /** The job is somewhere in the lane. */
  predicate Holds(l: Lane, j: Job) {
    j in l.waiting || l.inHand == Some(j) || j in l.running || j in l.dead || j in l.noting
  }

  predicate Brings(a: Action, id: nat, data: string) {
    a.DoEnqueue? && a.id == id && a.data == data
  }

  /** One step: a job in the lane was there before, with the same data, or has just been enqueued. */
  lemma OriginStep(l: Lane, a: Action, j: Job)
    requires Enabled(l, a) && Holds(Act(l, a), j)
    ensures Brings(a, j.id, j.data) || exists i: Job :: Holds(l, i) && i.id == j.id && i.data == j.data
  {
    hide BackoffDelay, CappedDelay;
    var l' := Act(l, a);
    match a
    case DoEnqueue(_, _, _, _) =>
    case DoDequeue => if l.waiting != [] { assert l.waiting[0] in l.waiting; }
    case DoHandle(_) => assert Holds(l, l.inHand.value);
    case DoSucceed(i) => assert Holds(l, j);
    case DoFail(i, _, _, _) => assert l.running[i] in l.running; FailOrigin(l, a, j);
    case DoNote => assert Holds(l, j);
  }

  lemma FailOrigin(l: Lane, a: Action, j: Job)
    requires a.DoFail? && Enabled(l, a) && Holds(Act(l, a), j)
    ensures Holds(l, j) || (j.id == l.running[a.i].id && j.data == l.running[a.i].data)
  {
    hide BackoffDelay, CappedDelay;
  }

  /** Every job in the lane, through every put-back, retry and death, carries the data it was enqueued with. */
  lemma {:induction false} JobsCarryData(r: Run, k: nat, j: Job) returns (i: nat)
    requires ValidRun(r) && k < |r.lanes| && Holds(r.lanes[k], j)
    ensures i < k && Brings(r.actions[i], j.id, j.data)
  {
    hide Enabled, Act;
    if k > 0 {
      assert StepsTo(r, k - 1);
      OriginStep(r.lanes[k - 1], r.actions[k - 1], j);
      if Brings(r.actions[k - 1], j.id, j.data) {
        i := k - 1;
      } else {
        var before: Job :| Holds(r.lanes[k - 1], before) && before.id == j.id && before.data == j.data;
        i := JobsCarryData(r, k - 1, before);
      }
    }
  }

  lemma LogGrows(l: Lane, a: Action)
    requires Enabled(l, a)
    ensures |l.log| <= |Act(l, a).log| && Act(l, a).log[..|l.log|] == l.log
    ensures |Act(l, a).log| <= |l.log| + 1
    ensures a.DoEnqueue? ==> Act(l, a).log == l.log + [Enqueued(a.id, if a.delayMs > 0 then a.now + a.delayMs else 0)]
  {
    hide BackoffDelay, CappedDelay;
  }

  lemma OwnGrows(l: Lane, a: Action, id: nat)
    requires Enabled(l, a)
    ensures var own, own' := Filter(l.log, Of(id)), Filter(Act(l, a).log, Of(id));
            |own| <= |own'| && own'[..|own|] == own
  {
    LogGrows(l, a);
    var log' := Act(l, a).log;
    hide Act, Enabled;
    if |log'| > |l.log| {
      assert log' == l.log + [log'[|l.log|]];
      FilterSnoc(l.log, log'[|l.log|], Of(id));
    } else {
      assert log' == l.log;
    }
  }

  /** From its enqueue on, a job's history begins with it and with the time it must wait for, and its first start, if
      it has one, is not before that. */
  lemma {:induction false} EnqueueComesFirst(r: Run, i: nat, k: nat)
    requires ValidRun(r) && i < k < |r.lanes| && r.actions[i].DoEnqueue?
    ensures var a, own := r.actions[i], Filter(r.lanes[k].log, Of(r.actions[i].id));
            var due := if a.delayMs > 0 then a.now + a.delayMs else 0;
            && |own| >= 1 && own[0] == Enqueued(a.id, due)
            && (|own| >= 2 ==> own[1].Started? && own[1].at >= due)
    decreases k
  {
    var a := r.actions[i];
    BeginsWith(r, i, k);
    var own := Filter(r.lanes[k].log, Of(a.id));
    RunKeepsInv(r, k);
    if |own| >= 2 {
      assert InOnePlace(r.lanes[k], a.id);
      assert own[..|own|] == own;
      SoundPrefix(own, |own|, 2);
      hide Filter, InOnePlace, Inv;
      SecondIsStart(own);
    }
  }

  lemma SecondIsStart(own: seq<Event>)
    requires |own| >= 2 && own[0].Enqueued? && !LifeOf(own[..2]).Broken?
    ensures own[1].Started? && own[1].at >= own[0].notBefore
  {
    assert own[..2][..1] == own[..1] && own[..1][..0] == [];
    assert LifeOf(own[..1]) == NextLife(LifeOf([]), own[0]);
  }

  predicate Begins(own: seq<Event>, first: Event) {
    |own| >= 1 && own[0] == first
  }

  function Arrival(a: Action): Event
    requires a.DoEnqueue?
  {
    Enqueued(a.id, if a.delayMs > 0 then a.now + a.delayMs else 0)
  }

  lemma {:induction false} BeginsWith(r: Run, i: nat, k: nat)
    requires ValidRun(r) && i < k < |r.lanes| && r.actions[i].DoEnqueue?
    ensures Begins(Filter(r.lanes[k].log, Of(r.actions[i].id)), Arrival(r.actions[i]))
    decreases k
  {
    hide Act, Enabled, Filter, Begins, Arrival;
    assert StepsTo(r, k - 1);
    if i == k - 1 {
      EnqueueBegins(r.lanes[i], r.actions[i]);
    } else {
      BeginsWith(r, i, k - 1);
      StillBegins(r.lanes[k - 1], r.actions[k - 1], r.actions[i].id, Arrival(r.actions[i]));
    }
  }

  lemma StillBegins(l: Lane, a: Action, id: nat, first: Event)
    requires Enabled(l, a) && Begins(Filter(l.log, Of(id)), first)
    ensures Begins(Filter(Act(l, a).log, Of(id)), first)
  {
    OwnGrows(l, a, id);
    hide Act, Enabled, Filter;
    var own, own' := Filter(l.log, Of(id)), Filter(Act(l, a).log, Of(id));
    assert own'[0] == own'[..|own|][0];
  }

  lemma EnqueueBegins(l: Lane, a: Action)
    requires a.DoEnqueue? && Enabled(l, a)
    ensures Begins(Filter(Act(l, a).log, Of(a.id)), Arrival(a))
  {
    LogGrows(l, a);
    FilterSnoc(l.log, Arrival(a), Of(a.id));
    hide Act, Filter;
  }

  /** An id is enqueued once, so there is only one set of data a job can carry. */
  lemma EnqueuedOnce(r: Run, i: nat, j: nat)
    requires ValidRun(r) && i < j < |r.actions| && r.actions[i].DoEnqueue? && r.actions[j].DoEnqueue?
    ensures r.actions[i].id != r.actions[j].id
  {
    BeginsWith(r, i, j);
    assert StepsTo(r, j);
  }

  // ----- the dead -----

  /** A dead job failed for the last time in one step, which gave it its reason; it had run three times. */
  lemma {:induction false} DeadWasFailed(r: Run, k: nat, j: Job) returns (i: nat)
    requires ValidRun(r) && k < |r.lanes| && (j in r.lanes[k].dead || j in r.lanes[k].noting)
    ensures i < k && r.actions[i].DoFail? && r.actions[i].i < |r.lanes[i].running|
    ensures var ran := r.lanes[i].running[r.actions[i].i];
            j.id == ran.id && j.data == ran.data && j.failedReason == r.actions[i].reason && j.attempts == ran.attempts == 3
  {
    hide Enabled, Act, Inv;
    if k > 0 {
      assert StepsTo(r, k - 1);
      RunKeepsInv(r, k - 1);
      var l, a := r.lanes[k - 1], r.actions[k - 1];
      DeathStep(l, a, j);
      if j in l.dead || j in l.noting {
        i := DeadWasFailed(r, k - 1, j);
      } else {
        i := k - 1;
      }
    }
  }

  lemma DeathStep(l: Lane, a: Action, j: Job)
    requires Inv(l) && Enabled(l, a) && (j in Act(l, a).dead || j in Act(l, a).noting)
    ensures j in l.dead || j in l.noting ||
            (a.DoFail? && a.i < |l.running| && var ran := l.running[a.i];
               j.id == ran.id && j.data == ran.data && j.failedReason == a.reason && j.attempts == ran.attempts == 3)
  {
    if a.DoFail? {
      RunningAttempts(l, a.i);
      DyingAdds(l, a.i, a.now, a.random, a.reason, j);
    } else {
      OthersKillNone(l, a, j);
    }
    hide Inv, Enabled, Act;
  }

  lemma OthersKillNone(l: Lane, a: Action, j: Job)
    requires Enabled(l, a) && !a.DoFail?
    ensures j in Act(l, a).dead ==> j in l.dead
    ensures j in Act(l, a).noting ==> j in l.noting
  {
  }

  lemma DyingAdds(l: Lane, i: nat, now: nat, random: real, reason: string, j: Job)
    requires i < |l.running| && l.running[i].attempts >= 1 && 0.0 <= random < 1.0
    requires var l' := Fail(l, i, now, random, reason); j in l'.dead || j in l'.noting
    ensures j in l.dead || j in l.noting ||
            (l.running[i].attempts >= l.running[i].maxAttempts && j == l.running[i].(failedReason := reason))
  {
    hide BackoffDelay, CappedDelay, Without;
  }

  /** A failure note is about a job that was enqueued with that data, and gives the reason of its last failure. */
  lemma {:induction false} NotesAreOfTheDead(r: Run, k: nat, n: FailureNote) returns (i: nat, j: nat)
    requires ValidRun(r) && k < |r.lanes| && n in r.lanes[k].recent
    ensures i < k && Brings(r.actions[i], n.jobId, n.data)
    ensures j < k && r.actions[j].DoFail? && r.actions[j].reason == n.failedReason
    ensures r.actions[j].i < |r.lanes[j].running| && r.lanes[j].running[r.actions[j].i].id == n.jobId
  {
    hide Enabled, Act, Inv;
    if k > 0 {
      assert StepsTo(r, k - 1);
      var l := r.lanes[k - 1];
      NoteStep(l, r.actions[k - 1], n);
      if n in l.recent {
        i, j := NotesAreOfTheDead(r, k - 1, n);
      } else {
        var dead: Job :| dead in l.noting && dead.id == n.jobId && dead.data == n.data && dead.failedReason == n.failedReason;
        i := JobsCarryData(r, k - 1, dead);
        j := DeadWasFailed(r, k - 1, dead);
      }
    }
  }

  lemma NoteStep(l: Lane, a: Action, n: FailureNote)
    requires Enabled(l, a) && n in Act(l, a).recent
    ensures n in l.recent || exists dead: Job :: dead in l.noting && dead.id == n.jobId && dead.data == n.data && dead.failedReason == n.failedReason
  {
    hide BackoffDelay, CappedDelay;
    if a.DoNote? {
      assert l.noting[0] in l.noting;
    }
  }

  // ----- the counters -----

  function IsSuccess(): Event -> int {
    (e: Event) => if e.Succeeded? then 1 else 0
  }

  function IsFailure(): Event -> int {
    (e: Event) => if e.Failed? || e.Died? then 1 else 0
  }

  /** Completed counts the successes and failed the failures. */
  lemma {:induction false} CountersCount(r: Run, k: nat)
    requires ValidRun(r) && k < |r.lanes|
    ensures r.lanes[k].completed == Sum(r.lanes[k].log, IsSuccess()) && r.lanes[k].failed == Sum(r.lanes[k].log, IsFailure())
  {
    hide Enabled, Act;
    if k > 0 {
      CountersCount(r, k - 1);
      assert StepsTo(r, k - 1);
      CountStep(r.lanes[k - 1], r.actions[k - 1]);
      hide Sum;
    }
  }

  lemma CountStep(l: Lane, a: Action)
    requires Enabled(l, a) && l.completed == Sum(l.log, IsSuccess()) && l.failed == Sum(l.log, IsFailure())
    ensures Act(l, a).completed == Sum(Act(l, a).log, IsSuccess()) && Act(l, a).failed == Sum(Act(l, a).log, IsFailure())
  {
    hide Sum, BackoffDelay, CappedDelay;
    var log' := Act(l, a).log;
    if |log'| > |l.log| {
      SumSnoc(l.log, log'[|l.log|], IsSuccess());
      SumSnoc(l.log, log'[|l.log|], IsFailure());
    }
  }

  // ----- the poll loop -----

  /** Jobs are taken from the front; one that is not due goes to the end as it was, and any other is started. */
  lemma PollTakesFirst(l: Lane)
    requires l.inHand.None?
    ensures var l' := Dequeue(l);
            && InHand(l') + l'.waiting == l.waiting && (l'.inHand.Some? <==> l.waiting != [])
            && l'.running == l.running && l'.log == l.log
  {
    if l.waiting != [] {
      assert l.waiting == [l.waiting[0]] + l.waiting[1..];
    }
  }

  lemma StartedIff(l: Lane, now: nat)
    requires l.inHand.Some?
    ensures var l', job := Handle(l, now), l.inHand.value;
            && l'.inHand.None?
            && (if job.nextRunAt <= now
                then l'.waiting == l.waiting && l'.log == l.log + [Started(job.id, now)] &&
                     l'.running == l.running + [job.(attempts := job.attempts + 1)]
                else l'.waiting == l.waiting + [job] && l'.running == l.running && l'.log == l.log)
  {
  }

  /** A job is enqueued at the end of the list, with its data, never tried, and due after its delay. */
  lemma EnqueuedLast(l: Lane, id: nat, data: string, delayMs: nat, now: nat)
    ensures var l' := Enqueue(l, id, data, delayMs, now);
            && |l'.waiting| == |l.waiting| + 1 && l'.waiting[..|l.waiting|] == l.waiting
            && var j := l'.waiting[|l.waiting|];
               j.id == id && j.data == data && j.attempts == 0 && j.maxAttempts == 3 &&
               j.nextRunAt == if delayMs > 0 then now + delayMs else 0
  {
  }

  // ----- back-off -----

  /** The capped base begins at two seconds, doubles with every attempt, and never passes thirty. */
  lemma CappedDelayDoubles(n: nat)
    requires n >= 1
    ensures CappedDelay(1) == 2000
    ensures CappedDelay(n + 1) == (if 2 * CappedDelay(n) < 30000 then 2 * CappedDelay(n) else 30000)
  {
  }

  /** A failed job with attempts left goes to the end of the list, to be retried after two seconds the first time and
      after four the second, give or take a fifth; one that has run three times dies. */
  lemma FailureRetriesOrKills(l: Lane, i: nat, now: nat, random: real, reason: string)
    requires Inv(l) && i < |l.running| && 0.0 <= random < 1.0
    ensures 1 <= l.running[i].attempts <= 3
    ensures var l', job := Fail(l, i, now, random, reason), l.running[i].(failedReason := reason);
            if job.attempts == 3
            then l'.waiting == l.waiting && l'.noting == l.noting + [job]
            else
              && l'.dead == l.dead && l'.noting == l.noting && |l'.waiting| == |l.waiting| + 1
              && l'.waiting[..|l.waiting|] == l.waiting
              && var again := l'.waiting[|l.waiting|];
                 again == job.(nextRunAt := again.nextRunAt) &&
                 if job.attempts == 1 then now + 1600 <= again.nextRunAt <= now + 2400 else now + 3200 <= again.nextRunAt <= now + 4800
  {
    RunningAttempts(l, i);
    BackoffRange(l.running[i].attempts, random);
    CappedDelayDoubles(1);
    hide Inv, BackoffDelay, CappedDelay;
  }
}

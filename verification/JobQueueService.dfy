/**
 The queue service as it is written, for one queue name: the list, the dead-letter list and the
 counters the service keeps under that name, updated in place.  What the source keeps in suspended
 calls is here in fields: `inHand`, the job the poll loop has dequeued, `inFlight`, the jobs whose
 processors are still running, and `noting`, the dead jobs whose failure is still to be noted.
 */
module JobQueueService {
  import opened Sums
  import opened JobQueue

  class QueueService {
    var memQueue: seq<Job>
    var memDead: seq<Job>
    var recentFailures: seq<FailureNote>
    var active: int
    var completed: nat
    var failed: nat
    var inHand: Option<Job>
    var inFlight: seq<Job>
    var noting: seq<Job>
    ghost var log: seq<Event>

    /** The lane these fields stand for. */
    ghost function Stored(): Lane
      reads this
    {
      Lane(memQueue, inHand, inFlight, memDead, noting, recentFailures, active, completed, failed, log)
    }

    ghost predicate Valid()
      reads this
    {
      Inv(Stored())
    }

    constructor ()
      ensures Valid() && Stored() == EmptyLane
    {
      hide Inv;
      memQueue, memDead, recentFailures, active, completed, failed := [], [], [], 0, 0, 0;
      inHand, inFlight, noting, log := None, [], [], [];
      new;
      EmptyOk();
    }

    /** `id` is a fresh random job id. */
    method EnqueueJob(id: nat, data: string, delayMs: nat, now: nat)
      requires Valid() && Enabled(Stored(), DoEnqueue(id, data, delayMs, now))
      modifies this
      ensures Valid() && Stored() == Enqueue(old(Stored()), id, data, delayMs, now)
    {
      hide Inv;
      ActKeepsInv(Stored(), DoEnqueue(id, data, delayMs, now));
      var job := Job(id, data, 0, MAX_ATTEMPTS, if delayMs > 0 then now + delayMs else 0, "");
      memQueue := memQueue + [job];
      log := log + [Enqueued(id, job.nextRunAt)];
    }

    /** Takes the job at the front; false when there is none. */
    method DequeueJob() returns (found: bool)
      requires Valid() && inHand.None?
      modifies this
      ensures Valid() && Stored() == Dequeue(old(Stored())) && (found <==> inHand.Some?)
    {
      hide Inv;
      ActKeepsInv(Stored(), DoDequeue);
      if |memQueue| == 0 {
        return false;
      }
      memQueue, inHand := memQueue[1..], Some(memQueue[0]);
      return true;
    }

    /** Puts a job that is not due back at the end, and starts any other. */
    method HandleJob(now: nat)
      requires Valid() && inHand.Some?
      modifies this
      ensures Valid() && Stored() == Handle(old(Stored()), now)
    {
      hide Inv;
      ActKeepsInv(Stored(), DoHandle(now));
      var job := inHand.value;
      inHand := None;
      if job.nextRunAt > 0 && job.nextRunAt > now {
        memQueue := memQueue + [job];
      } else {
        active := active + 1;
        inFlight := inFlight + [job.(attempts := job.attempts + 1)];
        log := log + [Started(job.id, now)];
      }
    }

    /** The processor of the i-th running job has finished. */
    method JobSucceeded(i: nat)
      requires Valid() && i < |inFlight|
      modifies this
      ensures Valid() && Stored() == Succeed(old(Stored()), i)
    {
      hide Inv;
      ActKeepsInv(Stored(), DoSucceed(i));
      log := log + [Succeeded(inFlight[i].id)];
      inFlight := Without(inFlight, i);
      active, completed := active - 1, completed + 1;
    }

    /** What Valid says of one running job and of the dead-letter list. */
    lemma RunningJob(i: nat)
      requires Valid() && i < |inFlight|
      ensures 1 <= inFlight[i].attempts && |memDead| <= MAX_DEAD_STORED
    {
      hide JobLife, Deaths;
      assert RunningOk(Stored(), inFlight[i]);
      NewestIsShort(Deaths(log));
    }

    /** The processor of the i-th running job has thrown. */
    method JobFailed(i: nat, now: nat, random: real, reason: string)
      requires Valid() && i < |inFlight| && 0.0 <= random < 1.0
      modifies this
      ensures old(inFlight[i].attempts) >= 1
      ensures Valid() && Stored() == Fail(old(Stored()), i, now, random, reason)
    {
      hide Inv, BackoffDelay;
      RunningJob(i);
      ActKeepsInv(Stored(), DoFail(i, now, random, reason));
      var job := inFlight[i].(failedReason := reason);
      inFlight := Without(inFlight, i);
      active, failed := active - 1, failed + 1;
      if job.attempts < job.maxAttempts {
        BackoffRange(job.attempts, random);
        var delay: nat := BackoffDelay(job.attempts, random);
        memQueue := memQueue + [job.(nextRunAt := now + delay)];
        log := log + [Failed(job.id, now, now + delay)];
      } else {
        MoveToDead(job);
        noting := noting + [job];
        log := log + [Died(job.id, job)];
      }
    }

    /** What follows once a job is on the dead-letter list: note the failure, keeping the newest hundred. */
    method NoteDeadJob()
      requires Valid() && |noting| > 0
      modifies this
      ensures Valid() && Stored() == NoteFailure(old(Stored()))
    {
      hide Inv;
      ActKeepsInv(Stored(), DoNote);
      recentFailures := [Note(noting[0])] + recentFailures;
      if |recentFailures| > MAX_DEAD_STORED {
        recentFailures := recentFailures[..MAX_DEAD_STORED];
      }
      noting := noting[1..];
    }

    method MoveToDead(job: Job)
      requires |memDead| <= MAX_DEAD_STORED
      modifies this`memDead
      ensures memDead == Newest(old(memDead) + [job], MAX_DEAD_STORED)
    {
      memDead := memDead + [job];
      if |memDead| > MAX_DEAD_STORED {
        memDead := memDead[1..];
      }
    }
  }
}

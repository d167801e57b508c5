/** The media manager object: its fields are the worker pool's state (running
    or not, and its queue), the registered cleanup job (stopCronJobs) and the
    sizing fixed at construction. Each method changes them as the corresponding
    step of Lifecycle does, with the collaborators' answers as parameters. */
module MediaManager {
  import opened Wrappers
  import opened PoolSizing
  import opened Lifecycle

  class Manager {
    const numWorkers: nat
    const queueSize: nat
    var poolRunning: bool
    var queue: seq<Job>
    var stopCronJobs: Option<CronJob>

    /** The manager's abstract state. */
    function Abstract(): State
      reads this
    {
      State(numWorkers, queueSize, poolRunning, queue, stopCronJobs)
    }

    ghost predicate Valid()
      reads this
    {
      Inv(Abstract())
    }

    /** The manager value NewManager allocates: a pool created but not started, no cron job. */
    constructor (numWorkers: nat, queueSize: nat)
      requires numWorkers >= 1 && queueSize == 10 * numWorkers
      ensures Valid()
      ensures Abstract() == State(numWorkers, queueSize, false, [], None)
    {
      this.numWorkers := numWorkers;
      this.queueSize := queueSize;
      poolRunning := false;
      queue := [];
      stopCronJobs := None;
    }

    /** The total number of workers available to this manager. */
    function NumWorkers(): (n: nat)
      reads this
      requires Valid()
      ensures n >= 1 && n == Abstract().numWorkers
    {
      numWorkers
    }

    /** The total capacity of the pool's queue: ten slots per worker. */
    function QueueSize(): (q: nat)
      reads this
      requires Valid()
      ensures q == 10 * NumWorkers() && q >= 10
    {
      queueSize
    }

    /** The pool's Enqueue: the job is appended to the queue. */
    method Enqueue(job: Job)
      modifies this
      ensures queue == old(queue) + [job]
      ensures poolRunning == old(poolRunning) && stopCronJobs == old(stopCronJobs)
    {
      queue := queue + [job];
    }

    /** ProcessMedia, where pre is what preProcessMedia answers: the attachment id
        of the handle it made, or its error. */
    method ProcessMedia(pre: Result<string, string>) returns (r: Result<Handle, Error>)
      requires Valid()
      modifies this
      ensures Valid()
      ensures Submission(Abstract(), r) == Submit(old(Abstract()), MediaPath, pre)
    {
      r := Process(MediaPath, pre);
    }

    /** ProcessEmoji, where pre is what preProcessEmoji answers: the emoji id of
        the handle it made, or its error. */
    method ProcessEmoji(pre: Result<string, string>) returns (r: Result<Handle, Error>)
      requires Valid()
      modifies this
      ensures Valid()
      ensures Submission(Abstract(), r) == Submit(old(Abstract()), EmojiPath, pre)
    {
      r := Process(EmojiPath, pre);
    }

    /** RecacheMedia, where pre is what preProcessRecache answers: the attachment
        id of the handle it made, or its error. */
    method RecacheMedia(pre: Result<string, string>) returns (r: Result<Handle, Error>)
      requires Valid()
      modifies this
      ensures Valid()
      ensures Submission(Abstract(), r) == Submit(old(Abstract()), RecachePath, pre)
    {
      r := Process(RecachePath, pre);
    }

    /** The shape the three entry points share: hand back a pre-processing error,
        otherwise enqueue one job capturing the handle and return that handle. */
    method Process(path: Path, pre: Result<string, string>) returns (r: Result<Handle, Error>)
      requires Valid()
      modifies this
      ensures Valid()
      ensures Submission(Abstract(), r) == Submit(old(Abstract()), path, pre)
    {
      if pre.Failure? {
        return Failure(PreProcessError(pre.error));
      }
      var handle := HandleFor(path, pre.value);
      Enqueue(Job(path, handle));
      r := Success(handle);
    }

    /** Stop, where poolStops is what the pool's Stop answers and, when a cron job
        is registered, cronFinishedInTime says which branch its wait takes. */
    method Stop(poolStops: bool, cronFinishedInTime: bool) returns (err: Option<Error>)
      requires Valid()
      modifies this
      ensures Valid()
      ensures Stopped(Abstract(), err) == Lifecycle.Stop(old(Abstract()), poolStops)
    {
      if !poolStops {
        return Some(PoolStopError);
      }
      poolRunning := false;
      if stopCronJobs.Some? {
        err := StopCronJobs(cronFinishedInTime);
        return;
      }
      err := None;
    }

    /** The stopCronJobs closure. Stopping the scheduler returns a context that is
        done once running jobs finish; the closure waits for it or for one minute,
        as cronFinishedInTime says, and in both cases cancels the prune context. */
    method StopCronJobs(cronFinishedInTime: bool) returns (err: Option<Error>)
      requires numWorkers >= 1 && queueSize == 10 * numWorkers
      requires stopCronJobs.Some? && stopCronJobs.value.days != 0
      requires !poolRunning
      modifies this
      ensures Valid()
      ensures stopCronJobs == Some(StopCron(old(stopCronJobs.value)))
      ensures err == None
      ensures poolRunning == old(poolRunning) && queue == old(queue)
    {
      var cron := stopCronJobs.value.(schedulerRunning := false);
      if cronFinishedInTime {
        // the scheduler's running jobs finished and it stopped gracefully
      } else {
        // a prune run may still be going: it stops at the cancellation below
      }
      stopCronJobs := Some(cron.(pruneCancelled := true));
      err := None;
    }
  }

  /** NewManager on a machine with numCPU CPUs and the configured cleanup age
      cacheCleanupDays, where poolStarts is what the pool's Start answers and
      addFunc what cron's AddFunc answers (None for success). The prune context
      the call creates is reported in the ghost result prune. */
  method NewManager(numCPU: nat, cacheCleanupDays: int, poolStarts: bool, addFunc: Option<string>)
    returns (r: Result<Manager, Error>, ghost prune: PruneCtx)
    ensures var c := Construct(numCPU, cacheCleanupDays, poolStarts, addFunc);
      (r.Success? <==> c.result.Success?) && prune == c.prune &&
      (r.Success? ==> fresh(r.value) && r.value.Valid() && r.value.Abstract() == c.result.value) &&
      (r.Failure? ==> r.error == c.result.error)
  {
    var numWorkers := NumWorkersFor(numCPU);
    var queueSize := numWorkers * 10;
    var m := new Manager(numWorkers, queueSize);
    prune := NoPruneCtx;

    // start the worker pool
    m.poolRunning := poolStarts;
    if !poolStarts {
      return Failure(PoolStartError), prune;
    }

    if cacheCleanupDays != 0 {
      prune := PruneCtx(false);
      if addFunc.Some? {
        prune := PruneCtx(true);
        return Failure(CronRegistrationError(addFunc.value)), prune;
      }
      // stopCronJobs is set, then the scheduler is started
      m.stopCronJobs := Some(CronJob(cacheCleanupDays, false, false));
      m.stopCronJobs := Some(m.stopCronJobs.value.(schedulerRunning := true));
    }
    r := Success(m);
  }
}

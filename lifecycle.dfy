/** The media manager's lifecycle as a sequential state machine over an
    abstract state: the worker pool (running or not, and its queue of jobs),
    the remote-cache cleanup cron job with its prune context, and the sizing
    fixed at construction. Every collaborator the manager cannot see (the pool,
    the cron scheduler, the pre-processing and loading of handles) enters as a
    parameter that says how that collaborator answered. */
module Lifecycle {
  import opened Wrappers
  import opened PoolSizing

  /** The entry point through which a job was submitted. */
  datatype Path = MediaPath | EmojiPath | RecachePath

  /** A processing handle, known by the identity pre-processing gave it:
      ProcessMedia and RecacheMedia produce media handles, ProcessEmoji an emoji handle. */
  datatype Handle = ProcessingMedia(attachmentId: string) | ProcessingEmoji(emojiId: string)

  /** The closure enqueued on the pool: the entry point and the handle it captured. */
  datatype Job = Job(path: Path, handle: Handle)

  /** A call of a handle's load operation. */
  datatype Load = LoadAttachment(attachmentId: string) | LoadEmoji(emojiId: string)

  /** The registered cleanup job: the configured age in days it prunes with,
      whether the cron scheduler runs, and whether its prune context is cancelled.
      Its presence in the state is the manager's stopCronJobs being non-nil. */
  datatype CronJob = CronJob(days: int, schedulerRunning: bool, pruneCancelled: bool)

  datatype Error =
    | PoolStartError                      // "could not start worker pool"
    | CronRegistrationError(cause: string) // "error starting media manager remote cache cleanup job: ..."
    | PreProcessError(cause: string)       // the pre-processing error, handed back unchanged
    | PoolStopError                       // "could not stop media manager worker pool"

  datatype State = State(
    numWorkers: nat,
    queueSize: nat,
    poolRunning: bool,
    queue: seq<Job>,
    cron: Option<CronJob>)

  /** What every constructed manager keeps: the sizing rule's shape, a cron job
      only for a non-zero age, and the cron stopped and its prune context
      cancelled exactly when the pool has been stopped. */
  predicate Inv(s: State)
  {
    s.numWorkers >= 1 && s.queueSize == s.numWorkers * 10 &&
    (s.cron.Some? ==>
      s.cron.value.days != 0 &&
      s.cron.value.schedulerRunning == s.poolRunning &&
      s.cron.value.pruneCancelled == !s.poolRunning)
  }

  // ---------------------------------------------------------------- NewManager

  /** The prune context NewManager creates when a cleanup age is configured. */
  datatype PruneCtx = NoPruneCtx | PruneCtx(cancelled: bool)

  /** The outcome of NewManager: the manager's state or the error it returns, and
      what the call leaves behind whichever it returns: whether the pool it
      created is running, and the prune context it created. */
  datatype Construction = Construction(result: Result<State, Error>, poolRunning: bool, prune: PruneCtx)

  /** NewManager on a machine with numCPU CPUs and the configured cleanup age
      cacheCleanupDays, when the pool's Start answers poolStarts and cron's
      AddFunc answers addFunc (None for success, Some(cause) for its error). */
  function Construct(numCPU: nat, cacheCleanupDays: int, poolStarts: bool, addFunc: Option<string>): (c: Construction)
    ensures c.result.Success? <==> poolStarts && (cacheCleanupDays == 0 || addFunc.None?)
    ensures c.result.Success? ==>
      var s := c.result.value;
      Inv(s) && s.poolRunning && s.queue == [] &&
      s.numWorkers == NumWorkersFor(numCPU) && s.queueSize == QueueSizeFor(numCPU) &&
      (s.cron.Some? <==> cacheCleanupDays != 0) &&
      (s.cron.Some? ==> s.cron.value == CronJob(cacheCleanupDays, true, false)) &&
      c.poolRunning && (c.prune == PruneCtx(false) <==> s.cron.Some?)
    ensures !poolStarts ==> c == Construction(Failure(PoolStartError), false, NoPruneCtx)
    ensures poolStarts && cacheCleanupDays != 0 && addFunc.Some? ==>
      c == Construction(Failure(CronRegistrationError(addFunc.value)), true, PruneCtx(true))
    ensures cacheCleanupDays == 0 ==> c.prune == NoPruneCtx
  {
    var numWorkers := NumWorkersFor(numCPU);
    var queueSize := numWorkers * 10;
    if !poolStarts then
      Construction(Failure(PoolStartError), false, NoPruneCtx)
    else if cacheCleanupDays == 0 then
      Construction(Success(State(numWorkers, queueSize, true, [], None)), true, NoPruneCtx)
    else
      match addFunc
      case Some(cause) =>
        Construction(Failure(CronRegistrationError(cause)), true, PruneCtx(true))
      case None =>
        Construction(Success(State(numWorkers, queueSize, true, [], Some(CronJob(cacheCleanupDays, true, false)))),
                     true, PruneCtx(false))
  }

  // ------------------------------------------------------ Process* and the job

  /** The handle each entry point's pre-processing produces for identity id. */
  function HandleFor(path: Path, id: string): (h: Handle)
    ensures h.ProcessingEmoji? <==> path == EmojiPath
    ensures if h.ProcessingEmoji? then h.emojiId == id else h.attachmentId == id
  {
    if path == EmojiPath then ProcessingEmoji(id) else ProcessingMedia(id)
  }

  datatype Submission = Submission(state: State, result: Result<Handle, Error>)

  /** ProcessMedia, ProcessEmoji or RecacheMedia, when pre-processing answers pre:
      the identity of the handle it made, or its error. */
  function Submit(s: State, path: Path, pre: Result<string, string>): (r: Submission)
    ensures r.result.Success? <==> pre.Success?
    ensures pre.Failure? ==> r.state == s && r.result.error == PreProcessError(pre.error)
    ensures pre.Success? ==>
      |r.state.queue| == |s.queue| + 1 && r.state.queue[..|s.queue|] == s.queue &&
      r.state.queue[|s.queue|] == Job(path, r.result.value) &&
      r.result.value == HandleFor(path, pre.value)
    ensures r.state.numWorkers == s.numWorkers && r.state.queueSize == s.queueSize
    ensures r.state.poolRunning == s.poolRunning && r.state.cron == s.cron
    ensures Inv(s) ==> Inv(r.state)
  {
    match pre
    case Failure(e) => Submission(s, Failure(PreProcessError(e)))
    case Success(id) =>
      var handle := HandleFor(path, id);
      Submission(s.(queue := s.queue + [Job(path, handle)]), Success(handle))
  }

  /** The load a job calls on its handle: LoadEmoji for an emoji, LoadAttachment otherwise. */
  function LoadOf(h: Handle): (l: Load)
    ensures l.LoadEmoji? <==> h.ProcessingEmoji?
    ensures if l.LoadEmoji? then l.emojiId == h.emojiId else l.attachmentId == h.attachmentId
  {
    match h
    case ProcessingMedia(id) => LoadAttachment(id)
    case ProcessingEmoji(id) => LoadEmoji(id)
  }

  /** What running jobs does: the loads called and the errors logged. Nothing is returned. */
  datatype JobRun = JobRun(loads: seq<Load>, logged: seq<string>)

  /** The body of an enqueued job, run with a context that is done or not and with
      loadError as the load's answer when it is called. */
  function RunJob(job: Job, ctxDone: bool, loadError: Option<string>): (r: JobRun)
    ensures ctxDone ==> r.loads == [] && r.logged == []
    ensures !ctxDone ==> r.loads == [LoadOf(job.handle)]
    ensures r.logged != [] <==> !ctxDone && loadError.Some?
    ensures r.logged != [] ==> r.logged == [loadError.value]
  {
    if ctxDone then
      JobRun([], [])
    else
      JobRun([LoadOf(job.handle)], if loadError.Some? then [loadError.value] else [])
  }

  /** The loads a sequence of jobs calls when each is run once, in queue order,
      with the same context and with the load answers loadErrors. */
  function RunJobs(jobs: seq<Job>, ctxDone: bool, loadErrors: seq<Option<string>>): (r: JobRun)
    requires |loadErrors| == |jobs|
    ensures ctxDone ==> r.loads == [] && r.logged == []
    ensures !ctxDone ==> |r.loads| == |jobs| && forall i :: 0 <= i < |jobs| ==> r.loads[i] == LoadOf(jobs[i].handle)
    ensures |r.logged| <= |jobs|
  {
    if jobs == [] then
      JobRun([], [])
    else
      var first := RunJob(jobs[0], ctxDone, loadErrors[0]);
      var rest := RunJobs(jobs[1..], ctxDone, loadErrors[1..]);
      JobRun(first.loads + rest.loads, first.logged + rest.logged)
  }

  /** The job a successful submission enqueues, once run with a live context,
      loads exactly the handle the submission returned, with the load that
      fits its entry point. */
  lemma SubmittedJobLoadsReturnedHandle(s: State, path: Path, pre: Result<string, string>, loadError: Option<string>)
    requires pre.Success?
    ensures var r := Submit(s, path, pre);
      var run := RunJob(r.state.queue[|s.queue|], false, loadError);
      run.loads == [LoadOf(r.result.value)] &&
      (run.loads[0].LoadEmoji? <==> path == EmojiPath) &&
      (if path == EmojiPath then run.loads[0].emojiId == pre.value else run.loads[0].attachmentId == pre.value)
  {
  }

  // --------------------------------------------------------------------- Stop

  /** The stopCronJobs closure: stop the scheduler, wait (gracefully or for one
      minute), then cancel the prune context. It always returns nil. */
  function StopCron(c: CronJob): (r: CronJob)
    ensures r.days == c.days
    ensures !r.schedulerRunning && r.pruneCancelled
  {
    c.(schedulerRunning := false).(pruneCancelled := true)
  }

  datatype Stopped = Stopped(state: State, result: Option<Error>)

  /** Stop, when the pool's Stop answers poolStops. */
  function Stop(s: State, poolStops: bool): (r: Stopped)
    ensures r.result.Some? <==> !poolStops
    ensures r.result.Some? ==> r.result.value == PoolStopError
    ensures !poolStops ==> r.state == s
    ensures poolStops ==>
      !r.state.poolRunning && r.state.queue == s.queue &&
      r.state.numWorkers == s.numWorkers && r.state.queueSize == s.queueSize &&
      (s.cron.None? ==> r.state.cron.None?) &&
      (s.cron.Some? ==> r.state.cron == Some(StopCron(s.cron.value)))
    ensures Inv(s) ==> Inv(r.state)
  {
    if !poolStops then
      Stopped(s, Some(PoolStopError))
    else
      var s1 := s.(poolRunning := false);
      match s.cron
      case None => Stopped(s1, None)
      case Some(c) => Stopped(s1.(cron := Some(StopCron(c))), None)
  }

  /** After a successful Stop nothing the manager started is still running, and
      the prune context of a registered cron job is cancelled. */
  lemma StopLeavesNothingRunning(s: State)
    requires Inv(s)
    ensures var t := Stop(s, true).state;
      Inv(t) && !t.poolRunning &&
      (t.cron.Some? ==> !t.cron.value.schedulerRunning && t.cron.value.pruneCancelled)
  {
  }

  // ------------------------------------------------------------------- Traces

  /** One call a client makes on a constructed manager, with the collaborators' answers. */
  datatype Op =
    | SubmitOp(path: Path, pre: Result<string, string>)
    | StopOp(poolStops: bool)

  function Apply(s: State, op: Op): State
  {
    match op
    case SubmitOp(path, pre) => Submit(s, path, pre).state
    case StopOp(poolStops) => Stop(s, poolStops).state
  }

  function Run(s: State, ops: seq<Op>): State
    decreases ops
  {
    if ops == [] then s else Run(Apply(s, ops[0]), ops[1..])
  }

  /** The jobs the accepted submissions among ops enqueue, in order. */
  function Accepted(ops: seq<Op>): seq<Job>
  {
    if ops == [] then []
    else
      var here := match ops[0]
        case SubmitOp(path, pre) => if pre.Success? then [Job(path, HandleFor(path, pre.value))] else []
        case StopOp(_) => [];
      here + Accepted(ops[1..])
  }

  /** No sequence of calls changes the sizing fixed at construction, breaks the
      invariant, or adds or removes the cron job. */
  lemma {:induction false} RunPreservesInv(s: State, ops: seq<Op>)
    requires Inv(s)
    ensures var t := Run(s, ops);
      Inv(t) && t.numWorkers == s.numWorkers && t.queueSize == s.queueSize &&
      (t.cron.Some? <==> s.cron.Some?)
    decreases ops
  {
    if ops != [] {
      RunPreservesInv(Apply(s, ops[0]), ops[1..]);
    }
  }

  /** The queue after a sequence of calls is the queue before it followed by
      exactly one job per accepted submission, in submission order. */
  lemma {:induction false} RunEnqueuesAccepted(s: State, ops: seq<Op>)
    ensures Run(s, ops).queue == s.queue + Accepted(ops)
    decreases ops
  {
    if ops != [] {
      RunEnqueuesAccepted(Apply(s, ops[0]), ops[1..]);
    }
  }

  /** Once the pool has been stopped and the prune context cancelled, no later call
      restarts the pool or the scheduler or revives the prune context. */
  lemma {:induction false} RunKeepsShutdown(s: State, ops: seq<Op>)
    requires !s.poolRunning
    requires s.cron.Some? ==> !s.cron.value.schedulerRunning && s.cron.value.pruneCancelled
    ensures var t := Run(s, ops);
      !t.poolRunning && (t.cron.Some? ==> !t.cron.value.schedulerRunning && t.cron.value.pruneCancelled)
    decreases ops
  {
    if ops != [] {
      RunKeepsShutdown(Apply(s, ops[0]), ops[1..]);
    }
  }

  /** Starting from an empty queue, running every queued job once with a live
      context calls exactly one load per accepted submission, each on the handle
      that submission returned; with a done context no load is called at all. */
  lemma QueuedJobsLoadAcceptedHandles(s: State, ops: seq<Op>, ctxDone: bool, loadErrors: seq<Option<string>>)
    requires s.queue == []
    requires |loadErrors| == |Run(s, ops).queue|
    ensures var run := RunJobs(Run(s, ops).queue, ctxDone, loadErrors);
      (ctxDone ==> run.loads == []) &&
      (!ctxDone ==> |run.loads| == |Accepted(ops)|) &&
      (!ctxDone ==> forall i :: 0 <= i < |run.loads| ==> run.loads[i] == LoadOf(Accepted(ops)[i].handle))
  {
    RunEnqueuesAccepted(s, ops);
  }
}

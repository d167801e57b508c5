# GoToSocial media manager: coordination facade

This project models the coordination layer of GoToSocial's media manager
(`internal/media/manager.go`). It covers:

- how the worker pool is sized from the CPU count;
- how `NewManager` starts the pool and, when a remote-cache age is configured,
  registers the nightly prune job with its own cancellable context;
- how `ProcessMedia`, `ProcessEmoji` and `RecacheMedia` turn a pre-processed
  handle into one job on the pool's queue;
- what that job does when a worker runs it;
- how `Stop` shuts down the pool and then the cron job.

The model has four modules:

- `PoolSizing`: the sizing rule as functions of a natural-number CPU count, and
  lemmas for its bounds, its closed form and the documented examples.
- `Lifecycle`: the manager as a sequential state machine. The state holds the
  sizing, whether the pool runs, its queue of jobs (entry point and handle), and
  the registered cron job (its age in days, whether its scheduler runs, whether
  its prune context is cancelled). Construction, submission, the job body, the
  `stopCronJobs` closure and `Stop` are functions. Lemmas cover arbitrary
  sequences of calls.
- `MediaManager`: the `Manager` class. Its fields are updated by methods whose
  contracts tie the new state to the `Lifecycle` step. The module also holds a
  `NewManager` method that allocates and returns the object.
- `Wrappers`: `Option` and `Result`.

Collaborators the manager cannot see become parameters that say how they answered:

- the CPU count and the configured age in days;
- whether `pool.Start()` and `pool.Stop()` return true;
- whether cron's `AddFunc` fails;
- what `preProcessMedia`, `preProcessEmoji` and `preProcessRecache` return (an id or an error);
- which branch the one-minute wait in `stopCronJobs` takes;
- whether a job's context is done, and what its load returns.

Three behaviours of the code worth noting:

- When the one-minute wait in `stopCronJobs` times out, the code does not force
  the scheduler to stop. It logs and then cancels the prune context, exactly as
  on the graceful branch. Both branches of `Manager.StopCronJobs` therefore end
  in the same state.
- A configured age is tested with `!= 0`, so a negative age also registers the
  cron job. `days` is an `int` in the model for this reason.
- When cron registration fails, `NewManager` returns an error but leaves the
  worker pool it already started running. `Lifecycle.Construct` records this in
  its `poolRunning` component.

## Model

| member | source | states |
|---|---|---|
| PoolSizing.NumWorkersFor | internal/media/manager.go:113-118 | at least one worker; for two or more CPUs the count is half the CPUs rounded down (2n <= cpus <= 2n+1); for fewer than two it is 1 |
| PoolSizing.QueueSizeFor | internal/media/manager.go:119 | the queue capacity is a positive multiple of ten, exactly ten times the worker count |
| PoolSizing.NumWorkersIsMaxOfOneAndHalf | internal/media/manager.go:103-104 | the rule equals the closed form max(1, cpus / 2) |
| PoolSizing.NumWorkersAtMostCPUs | internal/media/manager.go:103-104 | a machine with at least one CPU never gets more workers than CPUs |
| PoolSizing.SizingMonotonic | internal/media/manager.go:115-119 | more CPUs never give fewer workers or a smaller queue |
| PoolSizing.SizingDocExamples | internal/media/manager.go:108-110 | 8 CPUs give 4 workers and 40 slots, 4 give 2 and 20, 1 and 2 give 1 and 10 |
| Lifecycle.Construct | internal/media/manager.go:111-185 | construction succeeds exactly when the pool starts and either no age is configured or cron registration succeeds; a built manager runs its pool, has an empty queue and the rule's sizing, and has a cron job (scheduler running, prune context live) exactly when the age is non-zero; a pool start failure gives the start error with nothing running and no prune context; a registration failure gives the registration error with its cause and leaves the prune context cancelled |
| Lifecycle.Submit | internal/media/manager.go:187-257 | a pre-processing error is returned unchanged and the state is untouched; otherwise exactly one job, carrying the handle that is returned, is appended to the queue; pool, cron and sizing never change; the invariant is kept |
| Lifecycle.HandleFor | internal/media/manager.go:188-236 | the emoji path gives an emoji handle and the other two give an attachment handle, each with the identity pre-processing produced |
| Lifecycle.LoadOf | internal/media/manager.go:201-249 | an emoji handle is loaded with LoadEmoji and an attachment handle with LoadAttachment, on the same identity |
| Lifecycle.RunJob | internal/media/manager.go:194-205 | with its context done the job calls no load and logs nothing; otherwise it calls its handle's load exactly once; a load error is only logged, never returned |
| Lifecycle.RunJobs | internal/media/manager.go:218-229 | running jobs in order with one context: no loads when it is done, otherwise one load per job, on that job's handle, in queue order |
| Lifecycle.SubmittedJobLoadsReturnedHandle | internal/media/manager.go:235-257 | the job a successful submission enqueues loads exactly the handle the submission returned, with the load fitting the entry point and the pre-processed identity |
| Lifecycle.StopCron | internal/media/manager.go:162-177 | the stopCronJobs closure leaves the scheduler stopped and the prune context cancelled, and keeps the configured age |
| Lifecycle.Stop | internal/media/manager.go:275-287 | an error exactly when the pool fails to stop, and then nothing changes (the cron job is not touched); otherwise the pool is stopped, the queue and sizing are kept, a registered cron job goes through stopCronJobs, no cron job means only the pool stops, and the result is nil |
| Lifecycle.StopLeavesNothingRunning | internal/media/manager.go:277-284 | after a successful Stop of a valid manager neither the pool nor the scheduler runs and any prune context is cancelled |
| Lifecycle.RunPreservesInv | internal/media/manager.go:259-265 | no sequence of submissions and stops changes the worker count or queue size fixed at construction, breaks the invariant, or adds or removes the cron job |
| Lifecycle.RunEnqueuesAccepted | internal/media/manager.go:194 | after any sequence of calls the queue is the old queue followed by exactly one job per accepted submission, in order |
| Lifecycle.RunKeepsShutdown | internal/media/manager.go:275-287 | once the pool is stopped and the prune context cancelled, no later call restarts the pool or scheduler or revives the context |
| Lifecycle.QueuedJobsLoadAcceptedHandles | internal/media/manager.go:242-253 | from an empty queue, running every queued job once with a live context calls one load per accepted submission on its returned handle; with a done context, none |
| MediaManager.NewManager | internal/media/manager.go:111-185 | returns a fresh valid manager whose state is the built state of Construct exactly when Construct succeeds, otherwise Construct's error; the prune context it creates is the one Construct describes |
| MediaManager.Manager.constructor | internal/media/manager.go:121-127 | given the rule's sizing shape (at least one worker, ten slots per worker), the allocated manager is valid and carries that sizing, a pool not yet started, an empty queue and no cron job |
| MediaManager.Manager.NumWorkers | internal/media/manager.go:259-261 | the worker count fixed at construction, at least one |
| MediaManager.Manager.QueueSize | internal/media/manager.go:263-265 | the queue capacity fixed at construction, ten times the worker count |
| MediaManager.Manager.Enqueue | internal/media/manager.go:194 | the pool's Enqueue appends the job and changes nothing else |
| MediaManager.Manager.Process | internal/media/manager.go:187-209 | the shared submission shape: the new state and result are those of Lifecycle.Submit |
| MediaManager.Manager.ProcessMedia | internal/media/manager.go:187-209 | new state and result are Lifecycle.Submit on the media path; the invariant is kept |
| MediaManager.Manager.ProcessEmoji | internal/media/manager.go:211-233 | new state and result are Lifecycle.Submit on the emoji path; the invariant is kept |
| MediaManager.Manager.RecacheMedia | internal/media/manager.go:235-257 | new state and result are Lifecycle.Submit on the recache path; the invariant is kept |
| MediaManager.Manager.Stop | internal/media/manager.go:275-287 | new state and result are Lifecycle.Stop, whichever branch the cron wait takes; the invariant is kept |
| MediaManager.Manager.StopCronJobs | internal/media/manager.go:162-177 | called, as in Stop, once the pool has stopped: whichever branch the one-minute wait takes, the cron job becomes StopCron of the old one, the result is nil, pool and queue are untouched and the manager is valid again |

## Left out

- The worker pool's and the scheduler's concurrency: worker goroutines, when a worker takes a job off the queue, and the `@midnight` timing. The queue is only ever appended to. A job's run is modelled by `RunJob` and `RunJobs`, with the context's state as a parameter.
- The bounded queue's backpressure. The queue is an unbounded sequence, and `queueSize` is only recorded. What `Enqueue` does when the queue is full or the pool is stopped belongs to the pool library, which is not part of this model.
- What the pool does with jobs still queued when it stops. `Stop` keeps the queue as it is. A failed `pool.Stop()` is modelled as leaving the state unchanged.
- `time.After(1 * time.Minute)`, `time.Now` and `time.Since`: there is no clock, and the wait is a boolean choice of branch.
- `runtime.NumCPU()` and `viper.GetInt`: both are plain parameters. Go's `int` overflow in `numWorkers * 10` is not modelled, because no CPU count comes near it.
- `preProcessMedia`, `preProcessEmoji`, `preProcessRecache`, `LoadAttachment`, `LoadEmoji` and `PruneRemote` are defined in files that are not part of this model. They are oracles: an id or an error from pre-processing, an error or none from a load. The prune function registered with cron is never run in the model.
- The callers' arguments (data and post-data callbacks, account id, shortcode, uri, additional info) only reach pre-processing, so they are not modelled.
- `JobsQueued` and `ActiveWorkers` report live counts inside the pool, which the model does not track.
- Logging (`logrus` and the `logrusWrapper`). Only the load errors a job would log appear, in `JobRun.logged`.
- The database and storage handles that `NewManager` stores without using them here.

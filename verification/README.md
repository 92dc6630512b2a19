# The TPU queue, modelled and proved

A queue runs training jobs on Cloud TPU queued resources. A scheduler process polls job directories in
object storage and the TPU API and drives every job through PENDING, PROVISIONING, RUNNING and its
final status; on the TPU, the workers of an attempt meet at a setup barrier and report through marker
objects. Three places hold the truth: the scheduler's memory (`jobs` and the index from queued resource
to job), the durable records and markers, and the queued resources that really exist. This project
proves how they stay related over whole runs in which users, workers and the cloud move at any time,
calls fail, and the scheduler is stopped between any two calls and started again with empty memory.

## How it is put together

- `Protocol.dfy` is the system as one state machine. A label is one backend call with the memory update
  around it, so a `Crash` between two labels is a stop at an arbitrary call; `Env` stands for any number
  of moves by everybody else. `Invariant.dfy` proves the inductive invariant, `Runs.dfy` lifts it to runs.
- `Scheduler.dfy` is the scheduler as a class with the fields and methods of the original, over the class
  in `Backend.dfy`. Its methods carry a ghost run of the protocol and are proved to take nothing but its
  steps, so every theorem about runs holds of the code; the contract of `RunOnce` states the main ones.
  `Passes.dfy` holds what the methods say about the stretch between two moments of a pass.
- `History.dfy`, `Attempts.dfy`, `Quota.dfy`, `Safety.dfy` and `Calm.dfy` are the theorems over runs.
  `Lifecycle.dfy` holds the transitions of one record and `Outcomes.dfy` what each of them means, told
  field by field; `Chips.dfy` and `Queue.dfy` are the sums, the order and the greedy pass behind scheduling.
- `Barrier.dfy` is the startup script's protocol between workers, `Script.dfy` the script of one worker
  with its loop and EXIT trap. `Worlds.dfy` runs the scheduler and the scripts of all queued resources in
  one machine, whose histories are runs of the protocol; `EndToEnd.dfy` proves over it what a verdict says
  about the workers and exactly when, `LostCreate.dfy` shows what happens otherwise.
- `Submission.dfy` is the race between the two writes of `tpu submit` and the scheduler.
- `SshKeys.dfy` and `KeySync.dfy` are SSH key lines and the two synchronisation loops, `KeyLine.dfy` says
  what a key line and a key file are by their characters, `Codec.dfy` is the JSON forms, `Timing.dfy`
  heartbeats against the timeout.

## Assumptions

- One scheduler at a time (the original holds a lock file), with an immutable configuration in which every
  resource's quota group exists and chips are positive.
- A queued resource name is never accepted twice, and a create that answers false had no effect.
- A job directory is named after its spec's id and allows at least one attempt; ids are not reused.
- `tpu submit` and `tpu rerun` write `spec.json` and then `status.json`, at any time. That the second write lands before
  the scheduler's first write for the job is what the environment's moves assume; `Submissions.LateWriteIff` proves
  it to be the exact condition, and `Submissions.LateWriteOverspends` shows what happens otherwise.
- Workers act as long as their queued resource exists, and each runs its startup script once.
- A run starts in a state that satisfies the invariant, for example one with submitted jobs and no records.
- A write of `status.json` or of a marker that does not crash the process succeeds; the original does not
  look at the result of the write. A marker upload of a worker that fails wrote nothing.
- `reliable` means that no call fails for reasons of its own, `quiet` that nothing else moves, `Undisturbed` both.

## Model

| member | source | states |
|---|---|---|
| `Schedulers.Scheduler.RunOnce` | src/irom_tpu_tools/queue/scheduler.py:694-743 | One pass, whatever fails inside it: an iteration that does not go through, as after an incomplete scan, changes nothing, so that if nothing else moves the cloud is as it was; otherwise cancelling, polling, completing, retrying and scheduling each did their part in this order, within the scope the focus gives, and memory is what they left less the jobs that expired; each job gains at most one attempt record; a job focus leaves every other job's record alone and its queued resources too, of which only the environment changes or takes any; a user focus changes other users' records, or takes their queued resources, only by cancelling a job whose cancel marker was there; every cancel marker in scope is honoured when reads succeed; with calls that do not fail, chips at the backend stay within the larger of each limit and the starting usage; with calls that do not fail and the orphan check due, no queued resource of ours is left alive but those of active jobs, and if nothing else moves they are exactly those; memory and the cached listing mirror the durable specs and records; create attempts stay spaced by the backoff |
| `Schedulers.RestartAndRecover` | src/irom_tpu_tools/queue/scheduler.py:640-743 | Crash recovery: after a process died inside any call of any history, a new one with empty memory whose first unfocused pass meets no failure leaves no queued resource of ours alive but those of active jobs, exactly those if nothing else moves meanwhile, and attempt lists numbered 1, 2, 3 without gap or repetition; if the orphan sweep can find all there was, nothing is stranded |
| `Schedulers.RecoverAndRun` | src/irom_tpu_tools/queue/scheduler.py:640-751 | The quota after a crash: a process died inside any call of any history; a new one that recovers and then runs for any number of iterations, all with calls that do not fail, has the chips of all queued resources within the larger of each limit and what was claimed when the history began |
| `Schedulers.Scheduler.RunForever` | src/irom_tpu_tools/queue/scheduler.py:745-751 | Over any number of iterations with calls that do not fail, nothing is stranded and every limit holds at the backend |
| `Quota.CloudQuota` | src/irom_tpu_tools/queue/scheduler.py:447-507 | Cloud-level quota over every stretch of a run without crash or failed deletion: chips of all existing queued resources do not grow beyond the start unless within the limit, for every quota group, every user with an entry, by that entry alone, and every user without one, by the default |
| `Quota.StepTidy` | src/irom_tpu_tools/queue/scheduler.py:172-182 | Every step short of a crash or failed deletion keeps each live queued resource accounted for by an active record or by the operation in hand |
| `Quota.CrashTidy` | src/irom_tpu_tools/queue/scheduler.py:509-553 | A crash strands a queued resource exactly if it hits between the create and its record, or between a final record and its deletion, while the resource is alive |
| `Quota.ClaimQuota` | src/irom_tpu_tools/queue/scheduler.py:456-507 | On every run, crashes and failed deletions included, the chips of jobs with a claim do not grow beyond the start unless within the limit of the group, of the user's entry or of the default |
| `Quota.StraysAreTheExcess` | src/irom_tpu_tools/queue/scheduler.py:560-574 | In every reachable state chips at the backend exceed those of the claimants at most by the strays |
| `Quota.CrashOverspends` | src/irom_tpu_tools/queue/scheduler.py:509-553 | A concrete run in which one crash right after a create makes the live usage twice the limit, with two queued resources for one attempt |
| `Quota.LiveWithinMemory` | src/irom_tpu_tools/queue/scheduler.py:456-466 | At rest and without strays the chips at the backend are at most those the tally loop counts |
| `Quota.AdmittedWithin` | src/irom_tpu_tools/queue/scheduler.py:482-491 | A job let through keeps every pot it draws on within its limit |
| `Invariant.StepKeeps` | src/irom_tpu_tools/queue/scheduler.py:62-574 | Every backend call, crash and environment move, submissions with both their writes included, keeps: records well formed and numbered; a current queued resource exactly while active, made for that job and attempt; index entry for every active job in memory; memory equal to the durable record except while one write is pending, and but for the times of a record nobody has worked on |
| `Invariant.StepComplete` | src/irom_tpu_tools/queue/scheduler.py:118-125 | Once every durably active job is in memory, no step but a restart loses one |
| `Runs.RunInv` | src/irom_tpu_tools/queue/scheduler.py:745-751 | The invariant holds at every position of every run |
| `Runs.CrashAnywhere` | src/irom_tpu_tools/queue/scheduler.py:47-57 | Any run may be cut at any position and continued with empty memory |
| `History.TransitionBound` | src/irom_tpu_tools/queue/scheduler.py:163-313 | Whatever is preempted, retried, crashed or cancelled, a job changes status at most 5 * max_attempts + 4 times |
| `History.Bounded` | src/irom_tpu_tools/queue/scheduler.py:409-433 | Between two positions of a run: status changes are paid for by a falling measure, attempt records only grow, and by exactly one per resolving write |
| `History.StepProgress` | src/irom_tpu_tools/queue/scheduler.py:153-158 | One step changes a durable record only along an allowed edge, and adds a record exactly if it resolves an attempt |
| `History.Absorbing` | src/irom_tpu_tools/queue/scheduler.py:274-275 | A job that succeeded or was cancelled keeps that status and its records for good |
| `History.AttemptsOnce` | src/irom_tpu_tools/queue/scheduler.py:245-274 | No two writes record the same attempt number, and the last record written carries the number of records |
| `History.GoneForGood` | src/irom_tpu_tools/queue/scheduler.py:671-679 | A reaped job never comes back |
| `Attempts.CreatesCounted` | src/irom_tpu_tools/queue/scheduler.py:509-553 | Between restarts, successful creates equal the growth of attempts begun, plus one exactly if the job was cancelled with an attempt in progress, and never exceed what max_attempts leaves |
| `Attempts.OneQrPerAttempt` | src/irom_tpu_tools/queue/scheduler.py:509-553 | Between restarts, two creates for one job serve attempts with strictly increasing numbers |
| `Safety.Ownership` | src/irom_tpu_tools/queue/scheduler.py:118-151 | In every reachable state a durable record names a queued resource exactly while active, and no two active jobs share one |
| `Safety.Tracking` | src/irom_tpu_tools/queue/scheduler.py:335-346 | At rest the index holds the current queued resource of every active job in memory, so polling never meets a finished job and the clean-up branch for one is dead |
| `Safety.SweepsAreSafe` | src/irom_tpu_tools/queue/scheduler.py:560-574 | On every run with restarts and failed scans, neither the orphan sweep nor the stale clean-up deletes the queued resource of a durably active job |
| `Safety.LiveJobsKeepTheirQr` | src/irom_tpu_tools/queue/scheduler.py:172-182 | The scheduler deletes a durably active job's queued resource only to honour its cancel marker or after charging that very attempt |
| `Safety.ResultBeforeDeletion` | src/irom_tpu_tools/queue/scheduler.py:280-292 | A finished job's queued resource is deleted only after its final record is durable |
| `Safety.OwnMarkersDecide` | src/irom_tpu_tools/queue/scheduler.py:184-210 | Whatever reads fail, the record is that of the markers read; for an attempt on a queued resource this code created it is that of the attempt's own markers exactly if the reads that matter came through (Faithful), in particular if those of failed and startup_version did |
| `Safety.VerdictIff` | src/irom_tpu_tools/queue/scheduler.py:184-210 | The verdict of the reads that came through is that of the attempt's own markers exactly under the condition Faithful: a failure report that is there was read, or the same text was in the root directory and the stamp was not; without a report, the stamp was read, or no root report was and the attempt did succeed |
| `Safety.NothingDone` | src/irom_tpu_tools/queue/scheduler.py:700-705 | A stretch of steps that act for no job, such as an incomplete scan, changes nothing outside the process: all changes are steps of the environment, and without any the cloud is as it was |
| `Safety.OthersUntouched` | src/irom_tpu_tools/queue/scheduler.py:707-739 | A job that no step of a stretch acts for keeps its record and its queued resources, which only the environment changes or takes, and gets no new one |
| `Safety.SparedOrCanceled` | src/irom_tpu_tools/queue/scheduler.py:172-182 | In a stretch without restart, a job nobody works on keeps its queued resources as far as the scheduler goes, or it is cancelled at the end, its cancel marker having been there |
| `Safety.SparedQuiet` | src/irom_tpu_tools/queue/scheduler.py:707-739 | Resources that only the environment may take are all there, unchanged, if it stands still |
| `Safety.OthersOnlyCanceled` | src/irom_tpu_tools/queue/scheduler.py:722-725 | A job that is at most cancelled in a stretch keeps its record or ends CANCELED with the same attempts, its cancel marker having been there |
| `Safety.AtRestMirrors` | src/irom_tpu_tools/queue/scheduler.py:91-125 | At rest each job in memory is its durable spec and its durable record; while nobody has worked on the job, each may be a new record with times of its own |
| `Safety.IndexDetermined` | src/irom_tpu_tools/queue/scheduler.py:118-125 | At rest, without stale entries, the index is exactly the queued resources of the durably active jobs |
| `Safety.RestartRefines` | src/irom_tpu_tools/queue/scheduler.py:91-125 | Two schedulers at rest over the same cloud, one long-running and one freshly scanned, hold the same index, and the same job once it has been worked on; they hold the same set of jobs exactly if the first knows every directory |
| `Safety.StepKnown` | src/irom_tpu_tools/queue/scheduler.py:671-679 | From a complete scan on, a step of the scheduler leaves a directory unknown exactly if it reaps a job and the deletion fails |
| `Calm.StepTrim` | src/irom_tpu_tools/queue/scheduler.py:315-333 | A successful step other than a scan leaves no stale index entry |
| `Calm.StepCalm` | src/irom_tpu_tools/queue/scheduler.py:315-333 | Nor does it bring a dead one |
| `Lifecycle.ParseFailureReport` | src/irom_tpu_tools/queue/scheduler.py:212-237 | The type and message of the report are kept where they are present and not empty; there is always one of each, so a failure never reads as a success |
| `Lifecycle.PreemptedProgress` | src/irom_tpu_tools/queue/scheduler.py:409-433 | Charging an active attempt keeps the record well formed, adds one numbered record and lowers the measure |
| `Lifecycle.FinishedProgress` | src/irom_tpu_tools/queue/scheduler.py:245-279 | Finishing a running attempt keeps the record well formed, adds one numbered record and lowers the measure |
| `Lifecycle.SmallStepsProgress` | src/irom_tpu_tools/queue/scheduler.py:172-182 | Cancelling, retrying, provisioning and activating keep the record well formed and lower the measure |
| `Outcomes.EveryStep` | src/irom_tpu_tools/queue/scheduler.py:172-433 | On every run a job's record in memory changes from moment to moment in six ways only, each told field by field: charged with the text of its evidence, finished as the markers read rule, cancelled, retried, given a queued resource, activated |
| `Outcomes.PreemptedMeans` | src/irom_tpu_tools/queue/scheduler.py:409-433 | What a charge does to a record, field by field: the number, the queued resource, the text and the type of its new attempt record, and PENDING exactly while attempts are left |
| `Outcomes.FinishedMeans` | src/irom_tpu_tools/queue/scheduler.py:212-279 | What finishing does to a record, field by field: a success without error, or a failure with the report's own type, message, phase, worker and exit code |
| `Outcomes.VerdictIs` | src/irom_tpu_tools/queue/scheduler.py:190-210 | The verdict by precedence: a failure before a success, the attempt's own report before one in the root, root markers only for attempts without startup_version |
| `Outcomes.TimeoutIff` | src/irom_tpu_tools/queue/scheduler.py:376-407 | The two timeouts as conditions on the clock, the activation time, the claim and the heartbeat marker |
| `Outcomes.PolledOn` | src/irom_tpu_tools/queue/scheduler.py:315-334 | Polling one entry after another charges a job at most once, with one record for the queued resource it held at the start |
| `Chips.CountOne` | src/irom_tpu_tools/queue/scheduler.py:454-466 | One iteration of the tally loop turns a count of the jobs seen so far into one that includes the next job |
| `Chips.ActivateAdds` | src/irom_tpu_tools/queue/scheduler.py:493-499 | Making a pending job active adds exactly its chips to a full recount of every pot |
| `Queue.Sort` | src/irom_tpu_tools/queue/scheduler.py:474-474 | Sorting permutes the pending list |
| `Queue.SortSorted` | src/irom_tpu_tools/queue/scheduler.py:474-474 | The pending list comes out in the order of its comparison, which BeforeIff shows to be by priority, submit time and id |
| `Queue.BeforeIff` | src/irom_tpu_tools/queue/scheduler.py:470-474 | A job may be tried before another exactly if its priority number is smaller, or that is equal and its submit time is earlier as text, or both are equal and its id is smaller as text |
| `Queue.StrLeIff` | src/irom_tpu_tools/queue/scheduler.py:474-474 | The text comparison of the sort is lexicographic: a prefix, or the smaller character where the texts first differ |
| `Queue.SortedLineup` | src/irom_tpu_tools/queue/scheduler.py:468-474 | The sorted list holds each pending job in scope exactly once |
| `Queue.ChecksAdmit` | src/irom_tpu_tools/queue/scheduler.py:479-491 | With right tallies the loop's checks let a job through exactly if its resource is known and enabled, its group stays within its total, and its user stays within the entry of their own, where None is no limit, or without an entry within the default |
| `Queue.PassExhausted` | src/irom_tpu_tools/queue/scheduler.py:475-507 | After the pass, every job found unfit does not fit the final usage either |
| `Queue.NoQueueJumping` | src/irom_tpu_tools/queue/scheduler.py:475-507 | If a job was let through, every earlier enabled one of the same group and user that needs no more chips was admitted, refused by the backend or deferred by its backoff, but not found unfit |
| `Queue.GreedyDetermined` | src/irom_tpu_tools/queue/scheduler.py:475-507 | The jobs admitted are determined by the queue, the deferrals and the backend's refusals |
| `Queue.PacedTry` | src/irom_tpu_tools/queue/scheduler.py:476-507 | A create decided on after the backoff check keeps every later try for a job at least max(0, backoff) after a failed one |
| `Passes.PhasesOn` | src/irom_tpu_tools/queue/scheduler.py:729-738 | Across the five phases a job gains at most one record, and a cancellation stands |
| `Passes.NoOrphansNow` | src/irom_tpu_tools/queue/scheduler.py:560-574 | No stale entry and a completed sweep mean that every live queued resource of ours is an active job's |
| `Passes.RecoveredNow` | src/irom_tpu_tools/queue/scheduler.py:560-574 | No dead entry either means that live and active coincide |
| `Passes.PassElsewhere` | src/irom_tpu_tools/queue/scheduler.py:707-739 | Of a job a pass did not act for, the record and the queued resources are as before but for what the environment took; of one it did not work on too, or the job is cancelled, its cancel marker having been there |
| `Passes.StaysFindable` | src/irom_tpu_tools/queue/scheduler.py:555-558 | If every live queued resource carries the prefix and was made in a configured zone, so it is from then on |
| `Passes.TidyNow` | src/irom_tpu_tools/queue/scheduler.py:560-574 | Then no orphan means nothing stranded |
| `Passes.BoundByClaims` | src/irom_tpu_tools/queue/scheduler.py:447-507 | With nothing stranded the chips at the backend are within the larger of each limit and what was claimed when the history began |
| `Passes.PassQuota` | src/irom_tpu_tools/queue/scheduler.py:447-507 | A pass with reliable calls keeps nothing stranded and every limit |
| `Schedulers.Scheduler.constructor` | src/irom_tpu_tools/queue/scheduler.py:48-57 | A start with empty memory is a crash step of the history before it |
| `Schedulers.Scheduler.WriteStatus` | src/irom_tpu_tools/queue/scheduler.py:153-158 | Memory and status.json get the same freshly stamped record |
| `Schedulers.Scheduler.CleanupJobResources` | src/irom_tpu_tools/queue/scheduler.py:434-437 | The index entry goes exactly if the deletion was accepted |
| `Schedulers.Scheduler.AppendCharge` | src/irom_tpu_tools/queue/scheduler.py:409-433 | In memory the attempt has ended: one record more with its number, the queued resource, the given error text, INFRASTRUCTURE_PREEMPTION and retryable; the job is PENDING exactly if that number is below max_attempts, else FAILED; its queued resource and provisioned_at are cleared |
| `Schedulers.Scheduler.HandlePreemption` | src/irom_tpu_tools/queue/scheduler.py:409-437 | Only with evidence for the error text, and only this job changes: one record more with the attempt's number, the queued resource, the text, INFRASTRUCTURE_PREEMPTION, the times and retryable; PENDING exactly if the number is below max_attempts, else FAILED; with reliable calls the queued resource is no longer tracked, and undisturbed no root marker is left to decide the next attempt |
| `Schedulers.Scheduler.AppendOutcome` | src/irom_tpu_tools/queue/scheduler.py:239-279 | In memory the record becomes the finished one that FinishJob describes field by field |
| `Schedulers.Scheduler.FinishJob` | src/irom_tpu_tools/queue/scheduler.py:239-292 | Only on a decided verdict of the markers read for this attempt: a success is SUCCEEDED with a record without error, a failure FAILED with one that carries the report's own type and message, or the defaults for those missing, not retryable; written before the queued resource goes, which with reliable calls is then no longer tracked |
| `Schedulers.Scheduler.CancelJob` | src/irom_tpu_tools/queue/scheduler.py:172-182 | Only with the cancel marker present: the unfinished job becomes CANCELED, keeps its records and loses its queued resource, which with reliable calls is no longer tracked |
| `Schedulers.Scheduler.Activate` | src/irom_tpu_tools/queue/scheduler.py:364-368 | A provisioning job whose queued resource was seen active becomes RUNNING with the time in provisioned_at, keeps its queued resource, and nothing else changes |
| `Schedulers.Scheduler.NoteState` | src/irom_tpu_tools/queue/scheduler.py:330-333 | The state seen is recorded, and nothing else about the job changes |
| `Schedulers.Scheduler.CheckActiveTimeouts` | src/irom_tpu_tools/queue/scheduler.py:376-407 | An attempt without a claim is charged exactly if more than active_no_claim_timeout seconds have passed since its activation; with reliable calls a claimed one exactly if more than heartbeat_timeout seconds have passed since its last beat, or since its activation if it never beat; the charge carries the matching text |
| `Schedulers.Scheduler.HandleQrState` | src/irom_tpu_tools/queue/scheduler.py:341-374 | A suspending, suspended or failed resource, one whose VM state is PREEMPTED, TERMINATED, STOPPED, DELETED or FAILED, and one whose health is TIMEOUT or UNHEALTHY_MAINTENANCE is charged with its own text; otherwise a provisioning job on an active resource runs, a running one is charged exactly if a timeout is up, and the rest is left alone |
| `Schedulers.Scheduler.PollCurrent` | src/irom_tpu_tools/queue/scheduler.py:328-334 | The job is charged for the reason seen, activated or left as it is; with reliable calls a missing queued resource is charged as QR disappeared |
| `Schedulers.Scheduler.PollEntry` | src/irom_tpu_tools/queue/scheduler.py:316-334 | Only the entry's own job changes, and only if the entry is its current one; with reliable calls the entry is gone or in order afterwards; the branch for an unknown resource is dead |
| `Schedulers.Scheduler.PollQueuedResources` | src/irom_tpu_tools/queue/scheduler.py:315-334 | Each job is left alone, activated, or charged with one record for its queued resource and PENDING exactly while attempts are left; with reliable calls every entry left is the current queued resource of an active job, whatever the index held before, and exists if nothing else moves |
| `Schedulers.Scheduler.CheckCanceledJobs` | src/irom_tpu_tools/queue/scheduler.py:163-170 | Jobs are unchanged or cancelled, and with reads that succeed every cancel marker present at the start in scope is honoured |
| `Schedulers.Scheduler.JudgeMarkers` | src/irom_tpu_tools/queue/scheduler.py:190-210 | Of the markers whose reads came through, a failure counts before a success and the attempt's own before those in the root, which count only where startup_version was not read; with reliable calls all are read, and no verdict is without a marker that says so |
| `Schedulers.Scheduler.CheckCompletedJobs` | src/irom_tpu_tools/queue/scheduler.py:184-210 | Each job is left alone or finished as FinishJob does; undisturbed every running job in scope is finished exactly as its markers rule, and none is left with a decided attempt |
| `Schedulers.Scheduler.RetryIfRequested` | src/irom_tpu_tools/queue/scheduler.py:294-313 | A failed job with attempts left and a retry marker becomes pending when the probe succeeds; without marker nothing changes |
| `Schedulers.Scheduler.CheckRetryRequests` | src/irom_tpu_tools/queue/scheduler.py:294-313 | Jobs are unchanged, or were failed and are back or re-stamped, with no record added; with reads that succeed every retry marker present at the start in scope is honoured as far as attempts are left |
| `Schedulers.Scheduler.TallyChips` | src/irom_tpu_tools/queue/scheduler.py:453-466 | The tallies equal a full recount of the active jobs for every group and user |
| `Schedulers.Scheduler.ListPending` | src/irom_tpu_tools/queue/scheduler.py:468-474 | The pending jobs in scope, each once, by smallest priority number, then by earliest submit time and by id as texts |
| `Schedulers.Scheduler.CreateQueuedResource` | src/irom_tpu_tools/queue/scheduler.py:509-553 | Only with room, root markers are cleared, the queued resource created under the prefix, the attempt stamped and the pending job made PROVISIONING on it; a refused create changes nothing in memory |
| `Schedulers.Scheduler.ConsiderJob` | src/irom_tpu_tools/queue/scheduler.py:475-507 | A job is deferred only by an unexpired backoff, and unfit exactly if its resource is unknown or disabled, its group would go over its total, or its user over the entry of their own, None there being no limit, or without an entry over the default; the tallies follow what was admitted |
| `Schedulers.Scheduler.TryCreate` | src/irom_tpu_tools/queue/scheduler.py:492-507 | A create that succeeds makes the job provisioning, a refused one changes no job; the try is logged with its outcome, no other job's backoff changes, and the tries for each job stay spaced by it |
| `Schedulers.Scheduler.SchedulePendingJobs` | src/irom_tpu_tools/queue/scheduler.py:447-507 | A greedy pass over the pending jobs in scope, smallest priority number first, then earliest submit time, then smallest id, in which each job is let through exactly if there was room at its turn; what was found unfit is unfit still; only an unexpired backoff defers; the tries logged are exactly the creates made |
| `Schedulers.Scheduler.ReapTerminalJobs` | src/irom_tpu_tools/queue/scheduler.py:671-679 | Exactly the succeeded, failed and cancelled jobs whose last_updated parses and lies longer than the retention period before now leave memory |
| `Schedulers.Scheduler.SweepZone` | src/irom_tpu_tools/queue/scheduler.py:568-574 | With reliable calls every live queued resource of ours in the zone is tracked afterwards; while nothing else moves, only untracked ones of ours in the zone are gone |
| `Schedulers.Scheduler.ReconcileOrphanedQrs` | src/irom_tpu_tools/queue/scheduler.py:560-574 | With reliable calls every live queued resource of ours in any configured zone is tracked afterwards; while nothing else moves, only untracked ones of ours in configured zones are gone; the index is unchanged |
| `Schedulers.Scheduler.MaybeReconcileOrphans` | src/irom_tpu_tools/queue/scheduler.py:640-648 | The sweep runs exactly if the scan was complete and 300 seconds have passed |
| `Schedulers.Scheduler.MaybeWriteSchedulerState` | src/irom_tpu_tools/queue/scheduler.py:650-669 | The listing becomes memory exactly if forced or due |
| `Schedulers.Scheduler.LoadJob` | src/irom_tpu_tools/queue/scheduler.py:91-125 | A directory that is read comes into memory as it is stored, with a new pending record where there is none, and with its index entry exactly if it is active |
| `Schedulers.Scheduler.ScanBucket` | src/irom_tpu_tools/queue/scheduler.py:69-89 | A successful scan of a bucket leaves no listed directory out of memory |
| `Schedulers.Scheduler.ScanJobs` | src/irom_tpu_tools/queue/scheduler.py:62-67 | A complete scan leaves no durably active job out of memory; the flag says whether it was complete |
| `Schedulers.Scheduler.RefreshJobStates` | src/irom_tpu_tools/queue/scheduler.py:127-151 | With one scheduler a refresh finds every record as memory has it, but for one nobody has worked on, and leaves no index entry for a refreshed job but its current queued resource |
| `Schedulers.Scheduler.ResolveJobId` | src/irom_tpu_tools/queue/scheduler.py:681-692 | A reference resolves exactly if it is the id, the display name or an ending of the id of just one job, and is reported unknown exactly if it is none of any |
| `Schedulers.Scheduler.ClearRootMarks` | src/irom_tpu_tools/queue/scheduler.py:430-431 | Exactly the two root markers of this job are deleted |
| `Schedulers.Scheduler.WriteBack` | src/irom_tpu_tools/queue/scheduler.py:153-158 | The record in memory is stamped and becomes the durable one |
| `Schedulers.Scheduler.DropStale` | src/irom_tpu_tools/queue/scheduler.py:326-328 | Only the stale entry and its queued resource go |
| `Schedulers.Scheduler.CancelIfRequested` | src/irom_tpu_tools/queue/scheduler.py:163-170 | With a successful probe an unfinished job with a cancel marker ends cancelled |
| `Schedulers.Scheduler.FinishIfDecided` | src/irom_tpu_tools/queue/scheduler.py:185-210 | A running job whose attempt is decided is finished, with at most one record more |
| `Schedulers.Scheduler.TakeRetryMark` | src/irom_tpu_tools/queue/scheduler.py:301-303 | The retry marker of this job alone is consumed |
| `Schedulers.Scheduler.RetryRecord` | src/irom_tpu_tools/queue/scheduler.py:306-313 | Below the maximum the failed job is PENDING again without a queued resource, at it the job stays FAILED; attempts and records are as they were |
| `Schedulers.Scheduler.GenerateQrName` | src/irom_tpu_tools/queue/scheduler.py:555-558 | Every generated name carries the prefix the orphan sweep looks for |
| `Schedulers.Scheduler.CallCreate` | src/irom_tpu_tools/queue/scheduler.py:528-543 | Only a pending job with room gets a queued resource, born for its next attempt on its configured resource |
| `Schedulers.Scheduler.StampAttempt` | src/irom_tpu_tools/queue/scheduler.py:544-547 | The attempt that is being created carries startup_version before its record is written |
| `Schedulers.Scheduler.BindRecord` | src/irom_tpu_tools/queue/scheduler.py:548-552 | The pending job becomes PROVISIONING on the queued resource just created, noted as waiting, and the index names it; nothing else of its record changes |
| `Schedulers.Scheduler.ReapJob` | src/irom_tpu_tools/queue/scheduler.py:677-679 | Only a finished job leaves memory, whether or not its directory could be deleted |
| `Schedulers.Scheduler.DropOrphan` | src/irom_tpu_tools/queue/scheduler.py:570-574 | Only an untracked queued resource is deleted, and the index stays as it is |
| `Schedulers.Scheduler.RunHousekeeping` | src/irom_tpu_tools/queue/scheduler.py:740-742 | Exactly the expired jobs leave memory, and a due sweep after a complete scan runs |
| `Schedulers.Scheduler.RunForJob` | src/irom_tpu_tools/queue/scheduler.py:707-709 | Work and cancellations are confined to one job; since the pass began every other job has kept its record and its queued resources, of which only the environment changes or takes any |
| `Schedulers.Scheduler.RunForUser` | src/irom_tpu_tools/queue/scheduler.py:710-725 | Work is confined to one user's jobs while everybody's cancel markers are honoured; since the pass began any other job has kept its record and, as far as the scheduler goes, its queued resources, or is cancelled, its cancel marker having been there |
| `Schedulers.Scheduler.RunScanned` | src/irom_tpu_tools/queue/scheduler.py:705-742 | After a complete scan: the reference is resolved or the pass goes through, confined to its scope |
| `Schedulers.Scheduler.RunForAll` | src/irom_tpu_tools/queue/scheduler.py:726-742 | With reliable calls and the orphan check due, no orphan is left; live and active coincide if nothing else moves |
| `Schedulers.Scheduler.RunPhases` | src/irom_tpu_tools/queue/scheduler.py:729-738 | The five phases in order, each from the state the one before left and within its scope, with the effect of each; every cancel marker in scope present at the start is honoured |
| `Backends.Backend.ListJobs` | src/irom_tpu_tools/queue/backend.py:807-821 | A listing that succeeds names exactly the job directories of the bucket |
| `Backends.Backend.Exists` | src/irom_tpu_tools/queue/backend.py:804-805 | A found object is there; a failed probe answers false |
| `Backends.Backend.DeleteJobDir` | src/irom_tpu_tools/queue/backend.py:823-831 | A deletion that works removes the directory with its record and markers |
| `Backends.Backend.Tick` | src/irom_tpu_tools/queue/backend.py:634-644 | A simulated tick is a move of the environment: resources whose delay is over become active, suspending ones suspended, the others stay |
| `Backends.Backend.Force` | src/irom_tpu_tools/queue/backend.py:711-718 | A forced state is a move of the environment |
| `Backends.Backend.CreateQueuedResource` | src/irom_tpu_tools/queue/backend.py:651-680 | A name is never accepted twice, and a refused create has no effect |
| `Backends.Backend.DeleteQueuedResource` | src/irom_tpu_tools/queue/backend.py:728-731 | An accepted deletion removes exactly that queued resource |
| `Backends.Backend.GetQueuedResourceState` | src/irom_tpu_tools/queue/backend.py:682-688 | An answer is the state of a resource in that project and zone; absence and a failed call look alike |
| `Backends.Backend.ListQueuedResources` | src/irom_tpu_tools/queue/backend.py:736-745 | What is listed exists in that zone; a call that does not fail lists everything with the prefix |
| `Backends.Backend.ReadMarkResult` | src/irom_tpu_tools/queue/backend.py:20-28 | A missing object is a successful read of nothing |
| `Barrier.FollowsSound` | src/irom_tpu_tools/queue/startup_script.py:127-170 | Under every interleaving, failure, termination and loss of workers, failed stats and listings included: the completion marker means all ready markers, markers and exit codes agree |
| `Barrier.EnoughIsAll` | src/irom_tpu_tools/queue/startup_script.py:144-146 | As many ready markers as workers are one from each |
| `Barrier.NobodyStartsEarly` | src/irom_tpu_tools/queue/startup_script.py:240-250 | In every history of one crew from a directory without workers' markers, no worker enters the command phase, and nothing is claimed or released, before every worker has published setup-ready |
| `Barrier.FailureIsForAll` | src/irom_tpu_tools/queue/startup_script.py:136-153 | If worker 0 leaves without releasing the barrier, no worker ever starts the command and the attempt never succeeds |
| `Barrier.MarkersMean` | src/irom_tpu_tools/queue/startup_script.py:179-213 | The success marker is there exactly if worker 0 exited 0, a failure marker exactly if some worker exited with a code other than 0, 42 and 143 |
| `Barrier.CodeIsKept` | src/irom_tpu_tools/queue/startup_script.py:172-213 | Once its command has ended with a code a worker's script ends with that code, and once it is terminated with 143, unless the worker vanishes first |
| `Barrier.ZeroIsTheCommands` | src/irom_tpu_tools/queue/startup_script.py:179-250 | A worker's script exits 0 only if its command did |
| `Script.Attempt.PollAsLeader` | src/irom_tpu_tools/queue/startup_script.py:136-153 | One poll of worker 0, as moves of the protocol: it stops on a failure report, releases everybody once all are ready, and polls again only if somebody is not or the listing failed |
| `Script.Attempt.PollAsFollower` | src/irom_tpu_tools/queue/startup_script.py:154-166 | One poll of another worker, as moves of the protocol |
| `Script.Attempt.WaitForSetupBarrier` | src/irom_tpu_tools/queue/startup_script.py:127-170 | Returning 0 means every worker is ready; any other end is a non-zero exit in the barrier phase; at most ceil(timeout / 10) polls |
| `Script.Attempt.Prepare` | src/irom_tpu_tools/queue/startup_script.py:215-238 | Download and setup lead to the barrier or to a non-zero exit |
| `Script.Attempt.RunCommand` | src/irom_tpu_tools/queue/startup_script.py:243-250 | Worker 0 claims before its command runs |
| `Script.Attempt.Cleanup` | src/irom_tpu_tools/queue/startup_script.py:179-213 | Worker 0's exit 0 is reported as success, and every exit code other than 0, 42 and 143 leaves a failure marker |
| `Script.Attempt.RunScript` | src/irom_tpu_tools/queue/startup_script.py:215-250 | A script that is not terminated ends with the exit code of its command if that ran, and with another than 0 if it did not; the command ran only after every worker's setup; worker 0's exit is 0 exactly if the success marker is there; exit codes other than 0, 42 and 143 leave a failure marker |
| `Worlds.WorkersAreEnvironment` | src/irom_tpu_tools/queue/startup_script.py:127-250 | Every step of every worker of every queued resource is a move the scheduler's environment may make |
| `Worlds.StoryIsRun` | src/irom_tpu_tools/queue/startup_script.py:127-250 | A joint history of the scheduler and all workers is a run of the scheduler's protocol |
| `Worlds.ServedBefore` | src/irom_tpu_tools/queue/scheduler.py:509-553 | A queued resource that has stopped serving its job never serves it again |
| `Worlds.StoryAlone` | src/irom_tpu_tools/queue/scheduler.py:509-553 | Once a crew has its attempt's directory to itself, it keeps it as long as its queued resource serves the job, whatever the scheduler, the environment, other crews and crashes do |
| `EndToEnd.SuccessIsEarned` | src/irom_tpu_tools/queue/scheduler.py:184-210 | In a joint history, a job whose queued resource started clean becomes SUCCEEDED exactly if worker 0's script had exited 0 and no worker had ended with a reportable code, and then each of its own workers had published setup-ready; FAILED exactly if some worker had so ended; all this if the reads that matter came through, and only then is the record what the markers say |
| `EndToEnd.SuccessIsTheCommands` | src/irom_tpu_tools/queue/startup_script.py:179-250 | From a clean start and with markers read as they are, a job succeeds only if worker 0's command ended with 0 on that very queued resource |
| `EndToEnd.ZeroIsTheCommands` | src/irom_tpu_tools/queue/startup_script.py:179-250 | In a joint history a worker's script ends with 0 only if its command ended with 0 since the queued resource was created |
| `EndToEnd.NobodyStartsEarly` | src/irom_tpu_tools/queue/startup_script.py:240-250 | From a clean start no worker enters the command phase, and the attempt is not claimed or released, before each of its own workers has published setup-ready |
| `EndToEnd.FailureIsForAll` | src/irom_tpu_tools/queue/startup_script.py:136-153 | If worker 0 of such a queued resource leaves the barrier without releasing it, none of its workers ever starts the command and the attempt is never claimed or successful |
| `EndToEnd.CleanStartIff` | src/irom_tpu_tools/queue/scheduler.py:509-553 | The exact condition: the directory holds just what the crew of a queued resource uploads, in every continuation in which it serves its job, exactly if at its create the directory held no worker's marker and no other live queued resource of the attempt ran a script that could still upload one |
| `EndToEnd.CleanUnlessLost` | src/irom_tpu_tools/queue/scheduler.py:509-553 | Every create of a job meets that condition, whatever is preempted, retried or restarted, unless the scheduler was stopped between a create for the job and its record |
| `LostCreates.LostCreateDecides` | src/irom_tpu_tools/queue/scheduler.py:509-553 | The run in which it is not met: stopped right after a create and restarted, the scheduler creates a second queued resource for the attempt, and the job on it becomes SUCCEEDED on the marker of the first one's worker while its own are at the first line of their script |
| `Submissions.LateWriteIff` | src/irom_tpu_tools/queue/cli.py:271-272 | The second write of a submission keeps the durable record, is a move of the environment and keeps memory a mirror exactly if it lands before the scheduler's first write for the job, which is while there is no status.json |
| `Submissions.RecordStays` | src/irom_tpu_tools/queue/scheduler.py:153-158 | A durable record stays as long as the job's directory does |
| `Submissions.LateWriteOverspends` | src/irom_tpu_tools/queue/cli.py:271-272 | The run in which it lands too late: memory no longer mirrors the record, and a restart creates a second queued resource for the attempt, at twice the limit, without any crash between a create and its record |
| `Submissions.RereadOverspends` | src/irom_tpu_tools/queue/scheduler.py:127-151 | So does re-reading the record, as under a user focus |
| `SshKeys.SplitUndoesJoin` | src/irom_tpu_tools/queue/scheduler.py:620-625 | Lines joined with line feeds are read back as they were |
| `SshKeys.NodeLinesClean` | src/irom_tpu_tools/queue/scheduler.py:620-620 | Lines as read are trimmed, not blank and unbroken |
| `SshKeys.EntryIdentity` | src/irom_tpu_tools/queue/interactive.py:23-32 | The identity of an accepted entry is its user and its blob |
| `SshKeys.AcceptedShape` | src/irom_tpu_tools/queue/interactive.py:43-73 | Whatever is accepted is one entry for the user asked about, with a known type and a valid blob |
| `KeyLines.IdentityIff` | src/irom_tpu_tools/queue/interactive.py:23-32 | A line is a key of a user exactly if it reads user:kind blob, with any comment or none and white space around each part |
| `KeyLines.NoIdentityIff` | src/irom_tpu_tools/queue/interactive.py:23-32 | A line is nobody's key exactly if it has no colon, only white space before the first one, or fewer than two words after it |
| `KeyLines.AcceptedIff` | src/irom_tpu_tools/queue/interactive.py:43-73 | A key file is accepted exactly if the user name is one the pattern allows and the file has, comments and blank lines aside, one line that reads kind blob, alone or after that user and a colon, with a kind starting ssh- or ecdsa- and a valid blob; the entry is user:kind blob user |
| `KeyLines.StripIff` | src/irom_tpu_tools/queue/interactive.py:25-32 | What stripping leaves is the one trimmed text with nothing but white space around it |
| `KeyLines.FirstTwoIff` | src/irom_tpu_tools/queue/interactive.py:29-32 | The first two words of a split, told by the text around them |
| `SshKeys.NormalizeTwiceIff` | src/irom_tpu_tools/queue/interactive.py:43-73 | Normalising an accepted entry again changes nothing exactly if the user does not end in a line feed; else it is refused |
| `SshKeys.FoundAgainIff` | src/irom_tpu_tools/queue/interactive.py:16-16 | The user pattern accepts a trailing line feed, and an accepted entry has an identity on a node exactly if its user has none |
| `KeySync.Collect` | src/irom_tpu_tools/queue/cli.py:1111-1121 | Every key line of any form, user:kind blob with a comment or without, gives its identity to the node and enters the union once; other lines never do |
| `KeySync.Missing` | src/irom_tpu_tools/queue/cli.py:1141-1145 | The missing entries are exactly those of the union the node does not accept |
| `KeySync.ReadAll` | src/irom_tpu_tools/queue/cli.py:1103-1121 | The union holds each identity of each readable node, with one line for it |
| `KeySync.UpdateNode` | src/irom_tpu_tools/queue/cli.py:1160-1166 | A node that lacks keys accepts exactly the union after a successful write; any other is not written |
| `KeySync.UpdateAll` | src/irom_tpu_tools/queue/cli.py:1158-1166 | Each readable node that lacks a key is brought to the union, or left as it is when its write fails or without --yes |
| `KeySync.AdminSync` | src/irom_tpu_tools/queue/cli.py:1091-1167 | Each readable node is left alone or brought to exactly the union of all readable nodes and the added entries, its old lines first; when no write fails, each then has a key line for a user and blob exactly if some readable node had one or it was added; the exit code is 0 exactly if there are nodes, all were read and no write failed; without --yes nothing is written |
| `KeySync.AdminSyncTwice` | src/irom_tpu_tools/queue/cli.py:1154-1156 | A second run plans nothing if the first has exit code 0, or if no write of the first failed and the second reads no node the first could not, whatever fails in the second |
| `KeySync.ProvideOn` | src/irom_tpu_tools/queue/scheduler.py:611-628 | One request on one node: gained lines come from requests, a node that accepts the key is not written |
| `KeySync.Holds` | src/irom_tpu_tools/queue/scheduler.py:621-621 | Whether some line of the node has the identity |
| `KeySync.Provide` | src/irom_tpu_tools/queue/scheduler.py:607-628 | A request counts as done everywhere only if every node accepts its key |
| `KeySync.HandleRequest` | src/irom_tpu_tools/queue/scheduler.py:597-631 | A readable request is refused and deleted, or provided and deleted once every node accepts it |
| `KeySync.SyncRequests` | src/irom_tpu_tools/queue/scheduler.py:592-631 | Node lines only grow, by entries requests asked for; a .pub request goes only when refused or provided everywhere, so that once an acceptable key file of a plain user is gone every node has that key of that user; without failures none is left; provided requests cause no write |
| `KeySync.GainedForTheirOwnUser` | src/irom_tpu_tools/queue/scheduler.py:596-606 | Every line gained comes from an acceptable file user.pub and is a key of exactly that user, unless the name ends in a line feed: exactly then it is no key |
| `Codec.SpecRoundTrip` | src/irom_tpu_tools/queue/types.py:159-198 | Writing and reading a spec fills in the two defaults and changes nothing else |
| `Codec.SpecRoundTripIff` | src/irom_tpu_tools/queue/types.py:178-198 | A spec comes back as it was exactly if its display name is there, or its id is empty, and its submitter is there |
| `Codec.RecordRoundTrip` | src/irom_tpu_tools/queue/types.py:214-251 | An attempt record always comes back as it was, with each field kept under its own name |
| `Codec.StateRoundTrip` | src/irom_tpu_tools/queue/types.py:276-301 | A record comes back as it was exactly if it is stamped or has no creation time |
| `Codec.ReadOnceStable` | src/irom_tpu_tools/queue/types.py:178-301 | What was read once survives writing and reading from then on |
| `Codec.SpecDefaults` | src/irom_tpu_tools/queue/types.py:178-198 | What a stored spec must have, and what each missing field reads as: 20 attempts, priority 1, all workers, no tags, variables or commands, the id as display name and an unknown submitter; a flag that is there counts by its truth value |
| `Codec.RecordFields` | src/irom_tpu_tools/queue/types.py:276-301 | The names under which a record is kept, and which value is under which |
| `Codec.ListingsAgree` | src/irom_tpu_tools/queue/cli.py:137-164 | For a job with a written record, a slow scan of the stored JSON yields the row of that record, and the cached row is the same unless nobody has worked on the job yet and its submitter wrote the record; directory, spec and record can be read back from the cached row |
| `Timing.ThreeFitIff` | src/irom_tpu_tools/queue/scheduler.py:526-526 | The heartbeat interval is a third of the timeout within 30 and 120 seconds, and three intervals fit into the timeout exactly from 90 seconds on |
| `Timing.HeartbeatLoop` | src/irom_tpu_tools/queue/startup_script.py:108-113 | The marker says when the last upload that got through was made; when no three in a row are lost, it is less than three intervals old until the next upload |
| `Timing.BeatingIsNotLate` | src/irom_tpu_tools/queue/scheduler.py:389-407 | With a timeout of at least 89 seconds such an attempt is never charged for its heartbeat |
| `Timing.TooShortATimeout` | src/irom_tpu_tools/queue/scheduler.py:389-407 | Below 89 seconds there is a moment at which it is |
| `Timing.BeatingNeverCharged` | src/irom_tpu_tools/queue/scheduler.py:376-407 | On every run, with a timeout of at least 89 seconds: an attempt whose heartbeat loop never loses three uploads in a row is not charged for its heartbeat once one has got through, and before that only when the timeout has passed since its activation; if claimed, it is charged for having no claim only through a failed probe |
| `Timing.TimeoutsAreUp` | src/irom_tpu_tools/queue/scheduler.py:376-407 | On every run, an attempt is charged for having no claim only when more than active_no_claim_timeout seconds have passed since its activation, and for its heartbeat only when more than heartbeat_timeout seconds have passed since its last beat or, without one, its activation |

## Left out

- GCPBackend and the gcloud, tmux and scp wrappers: subprocess plumbing; their results are nondeterministic here, with DryRunBackend as the reference for effects.
- `delete_tpu_vm` before each queued resource deletion: it changes nothing the scheduler reads. Deletions take effect when accepted; the asynchronous interval of the real service is not modelled.
- Python objects shared by reference: jobs are values in a map field that the methods reassign, so aliasing of a `Job` object is not captured.
- The order in which maps, sets and listings are walked, except the sorted pending list; also the order of the keys one admin run appends.
- The thread pools of scanning and refreshing: they parallelise reads only, and are modelled one read after another.
- A directory that loses `spec.json` but keeps an active record: the scan treats it as no job, so its queued resource would be swept; specs are immutable here.
- Time text and JSON syntax: parsing a time, decoding a failure report and stripping are parameters of the configuration, base64 validity one of the key functions. Times are whole seconds on one clock.
- Python's conversions of wrongly typed JSON: `str` and `int` of other values are parameters; a list or dictionary of the wrong type and an unknown queued resource state are refused.
- The call of the key synchronisation inside `run_once` and its 300-second interval: it shares no state with the jobs.
- The forced listing write after `--once`, which runs even after an incomplete scan.
- A retry request surviving a crash: the marker is deleted before the record is written, so it can be lost.
- First failure report wins: `stat` and the upload of a failure report are two steps, so a later report may overwrite an earlier one.
- All-or-nothing exit from the barrier: a worker other than 0 can time out after the release.
- A SIGTERM that arrives while the EXIT trap is already running.
- Log uploads, environment and secret lines of the script, shell quoting, the command-line tables, lock file, storage audit and packaging: outside the protocols, or only easy members.
- Schedulers.Scheduler.CheckActiveTimeouts: a failed existence probe counts as an absent claim, as in the original, so past the time for claiming a claimed attempt may be charged through a failed probe; exactness for claimed attempts is promised for calls that succeed.
- KeySync.SyncRequests: a request whose file name carries a line feed before `.pub` is accepted by the pattern but provides no key; FoundAgainIff gives the exact condition, and what is settled is stated for the other names. GCPBackend splits its listing at line feeds and so cannot list such a name, DryRunBackend can.

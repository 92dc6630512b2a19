/** What happens to a job, told field by field from its record before and after. */
module Outcomes {
  import opened Types
  import opened Lifecycle
  import opened Protocol
  import opened Runs

  // ---------- Charges ----------

  /** What every transition leaves alone. */
  ghost predicate SameJobData(a: Job, b: Job) {
    b.spec == a.spec && b.bucket == a.bucket && b.state.createdAt == a.state.createdAt
  }

  /** One record more, numbered with the attempt that has ended. */
  ghost predicate AttemptEnded(a: Job, b: Job) {
    && SameJobData(a, b)
    && b.state.currentAttempt == a.state.currentAttempt + 1
    && |b.state.attempts| == |a.state.attempts| + 1 && a.state.attempts == b.state.attempts[..|a.state.attempts|]
    && b.state.attempts[|a.state.attempts|].attempt == a.state.currentAttempt + 1
    && b.state.currentQrName.None? && b.state.currentQrState.None?
  }

  function TextOrNothing(o: Option<string>): string {
    if o.Some? then o.value else ""
  }

  /**
   The attempt in progress on `q` was charged to the infrastructure: the job is pending again while attempts are left,
   and has failed otherwise.
   */
  ghost predicate ChargedTo(a: Job, b: Job, q: QrName, error: string) {
    && AttemptEnded(a, b)
    && (b.state.status.Pending? <==> a.state.currentAttempt + 1 < a.spec.maxAttempts)
    && (b.state.status.Failed? <==> a.state.currentAttempt + 1 >= a.spec.maxAttempts)
    && b.state.provisionedAt.None?
    && (var record := b.state.attempts[|a.state.attempts|];
        && record.qrName == q && record.error == Some(error)
        && record.failureType == Some("INFRASTRUCTURE_PREEMPTION") && record.retryable == Some(b.state.status.Pending?)
        && record.phase.None? && record.workerId.None? && record.exitCode.None?)
  }

  /** When the attempt that has ended began and ended. */
  ghost predicate AttemptTimes(a: Job, b: Job) {
    && |b.state.attempts| == |a.state.attempts| + 1
    && (var record := b.state.attempts[|a.state.attempts|];
        record.startedAt == TextOrNothing(a.state.provisionedAt) && record.endedAt != "")
  }

  /** The text of a charge is that of its evidence. */
  ghost predicate Tells(why: Observation, error: string) {
    match why
    case QrMissing(_) => error == "QR disappeared"
    case QrSuspension(st) => (st.QrSuspending? && error == "SUSPENDING") || (st.QrSuspended? && error == "SUSPENDED")
    case QrFailure => error == "QR_FAILED"
    case VmState(v) => v in {"PREEMPTED", "TERMINATED", "STOPPED", "DELETED", "FAILED"} && error == "TPU_VM_" + v
    case VmHealth(h) => h in {"TIMEOUT", "UNHEALTHY_MAINTENANCE"} && error == "TPU_VM_HEALTH_" + h
    case NoClaim(_, _) => error == "ACTIVE_NO_CLAIM_TIMEOUT"
    case LateHeartbeat(_) => error == "HEARTBEAT_TIMEOUT"
  }

  lemma PreemptedMeans(job: Job, q: QrName, now: string, error: string, upd: string)
    requires now != ""
    ensures var after := job.(state := Preempted(job.state, q, now, error, job.spec.maxAttempts).(lastUpdated := upd));
            ChargedTo(job, after, q, error) && AttemptTimes(job, after)
  {
  }

  lemma EvidenceTells(cfg: Config, c: Cloud, j: JobId, s: JobState, q: QrName, r: ResourceConfig, why: Observation)
    requires Justified(cfg, c, j, s, q, r, why)
    ensures Tells(why, ErrorText(why))
  {
    hide Timeout, Sighted, ClaimedMark, Found;
  }

  /** The texts a charge may carry. */
  ghost predicate ChargeText(error: string) {
    exists why :: Tells(why, error)
  }

  /** How polling leaves a job: a charge ends its attempt, and nothing else adds or removes a record. */
  ghost predicate PolledJob(a: Job, b: Job) {
    if Active(a.state) && !Active(b.state) then
      && a.state.currentQrName.Some? && (a.state.status.Running? ==> AttemptTimes(a, b))
      && exists error :: ChargeText(error) && ChargedTo(a, b, a.state.currentQrName.value, error)
    else if Active(a.state) then
      && SameJobData(a, b) && b.state.attempts == a.state.attempts && b.state.currentAttempt == a.state.currentAttempt
      && b.state.currentQrName == a.state.currentQrName
      && (|| (b.state.status == a.state.status && b.state.provisionedAt == a.state.provisionedAt)
          || (a.state.status.Provisioning? && b.state.status.Running? && TextOrNothing(b.state.provisionedAt) != ""))
    else b == a
  }

  ghost predicate Polled(a: map<JobId, Job>, b: map<JobId, Job>) {
    b.Keys == a.Keys && forall j <- a :: PolledJob(a[j], b[j])
  }

  lemma PolledOn(a: map<JobId, Job>, b: map<JobId, Job>, c: map<JobId, Job>)
    requires Polled(a, b) && Polled(b, c)
    ensures Polled(a, c)
  {
    forall j | j in a
      ensures PolledJob(a[j], c[j])
    {
      assert PolledJob(a[j], b[j]) && PolledJob(b[j], c[j]);
      PolledJobOn(a[j], b[j], c[j]);
    }
  }

  lemma PolledJobOn(a: Job, b: Job, c: Job)
    requires PolledJob(a, b) && PolledJob(b, c)
    ensures PolledJob(a, c)
  {
    hide ChargeText;
    if Active(a.state) && Active(b.state) && !Active(c.state) {
      var error :| ChargeText(error) && ChargedTo(b, c, b.state.currentQrName.value, error);
      assert ChargedTo(a, c, a.state.currentQrName.value, error);
    }
  }

  lemma PolledNothing(a: map<JobId, Job>)
    ensures Polled(a, a)
  {
  }

  lemma PolledKeys(a: map<JobId, Job>, b: map<JobId, Job>)
    requires Polled(a, b)
    ensures b.Keys == a.Keys
  {
  }

  // ---------- Timeouts ----------

  /** The moment an attempt was activated, as far as its record tells. */
  ghost predicate ActiveSince(cfg: Config, s: JobState, at: int) {
    s.provisionedAt.Some? && s.provisionedAt.value != "" && cfg.parseTime(s.provisionedAt.value) == Some(at)
  }

  /** The last beat, as far as the heartbeat marker tells. */
  ghost predicate LastBeatAt(cfg: Config, marks: map<Mark, string>, m: Mark, at: int) {
    var text := cfg.strip(if m in marks then marks[m] else "");
    text != "" && cfg.parseTime(text) == Some(at)
  }

  /** Activated more than `activeNoClaimTimeout` seconds ago. */
  ghost predicate PastClaiming(cfg: Config, s: JobState, now: int) {
    exists at :: ActiveSince(cfg, s, at) && now - at > cfg.activeNoClaimTimeout
  }

  /** Claimed, and silent for more than `heartbeatTimeout` seconds since its last beat, or since its activation if it never beat. */
  ghost predicate FellSilent(cfg: Config, marks: map<Mark, string>, j: JobId, s: JobState, now: int) {
    var heartbeat := Scoped(j, s.currentAttempt + 1, Heartbeat);
    && Scoped(j, s.currentAttempt + 1, Claimed) in marks
    && (exists at :: ActiveSince(cfg, s, at) &&
         ((exists beat :: LastBeatAt(cfg, marks, heartbeat, beat) && now - beat > cfg.heartbeatTimeout)
          || ((forall beat :: !LastBeatAt(cfg, marks, heartbeat, beat)) && now - at > cfg.heartbeatTimeout)))
  }

  /**
   Whether the timeouts charge a running attempt, and for which. A probe that fails may have a claimed attempt charged for
   its missing claim, but only past the time for it.
   */
  ghost predicate Overdue(cfg: Config, marks: map<Mark, string>, j: JobId, s: JobState, now: int,
                          reliable: bool, late: bool, error: string)
  {
    var claimed := Scoped(j, s.currentAttempt + 1, Claimed) in marks;
    && (!claimed ==> (late <==> PastClaiming(cfg, s, now)))
    && (claimed && reliable ==> (late <==> FellSilent(cfg, marks, j, s, now)))
    && (late ==> error == "ACTIVE_NO_CLAIM_TIMEOUT" || error == "HEARTBEAT_TIMEOUT")
    && (late && error == "ACTIVE_NO_CLAIM_TIMEOUT" ==> PastClaiming(cfg, s, now) && (reliable ==> !claimed))
    && (late && error == "HEARTBEAT_TIMEOUT" ==> FellSilent(cfg, marks, j, s, now))
  }

  lemma TimeoutIff(cfg: Config, c: Cloud, j: JobId, s: JobState, now: int)
    ensures Timeout(cfg, c.marks, j, s, now, false).ClaimLate? <==> PastClaiming(cfg, s, now)
    ensures ClaimedMark(c, j, s) ==> (Timeout(cfg, c.marks, j, s, now, true).BeatLate? <==> FellSilent(cfg, c.marks, j, s, now))
    ensures !Timeout(cfg, c.marks, j, s, now, false).BeatLate? && !Timeout(cfg, c.marks, j, s, now, true).ClaimLate?
  {
    var m := Scoped(j, s.currentAttempt + 1, Heartbeat);
    var text := cfg.strip(if m in c.marks then c.marks[m] else "");
    assert text == cfg.strip(OrElse(MarkText(c.marks, m), ""));
    if text != "" && cfg.parseTime(text).Some? { assert LastBeatAt(cfg, c.marks, m, cfg.parseTime(text).value); }
    if Truthy(s.provisionedAt) && cfg.parseTime(s.provisionedAt.value).Some? {
      assert ActiveSince(cfg, s, cfg.parseTime(s.provisionedAt.value).value);
    }
  }

  // ---------- Completion ----------

  /** Older scripts leave no `startup_version`; only for their attempts do root markers count. */
  ghost predicate FailureTold(marks: map<Mark, string>, j: JobId, attempt: int) {
    Scoped(j, attempt, ScopedFailed) in marks || (Scoped(j, attempt, StartupVersion) !in marks && Root(j, RootFailed) in marks)
  }

  ghost predicate SuccessTold(marks: map<Mark, string>, j: JobId, attempt: int) {
    Scoped(j, attempt, ScopedSucceeded) in marks || (Scoped(j, attempt, StartupVersion) !in marks && Root(j, RootSucceeded) in marks)
  }

  /** What the markers say: a failure counts before a success, and the attempt's own report before one in the root. */
  ghost predicate Ruled(marks: map<Mark, string>, j: JobId, attempt: int, outcome: Outcome) {
    match outcome
    case Lost(text) =>
      && FailureTold(marks, j, attempt)
      && text == marks[if Scoped(j, attempt, ScopedFailed) in marks then Scoped(j, attempt, ScopedFailed) else Root(j, RootFailed)]
    case Won => !FailureTold(marks, j, attempt) && SuccessTold(marks, j, attempt)
    case Undecided => !FailureTold(marks, j, attempt) && !SuccessTold(marks, j, attempt)
  }

  lemma VerdictIs(marks: map<Mark, string>, j: JobId, attempt: int, outcome: Outcome)
    ensures Ruled(marks, j, attempt, outcome) <==> outcome == Verdict(marks, j, attempt)
  {
  }

  /** The attempt in progress was finished as its markers told: with a success, or with what its failure report says. */
  ghost predicate FinishedTo(cfg: Config, a: Job, b: Job, outcome: Outcome) {
    && AttemptEnded(a, b) && a.state.status.Running? && b.state.provisionedAt == a.state.provisionedAt
    && (var record := b.state.attempts[|a.state.attempts|];
        && record.qrName == TextOrNothing(a.state.currentQrName)
        && match outcome
           case Won =>
             && b.state.status.Succeeded?
             && record.error.None? && record.failureType.None? && record.retryable.None?
             && record.phase.None? && record.workerId.None? && record.exitCode.None?
           case Lost(text) =>
             b.state.status.Failed? && record.retryable == Some(false) && Reports(cfg.decodeReport(text), cfg.strip(text), record)
           case Undecided => false)
  }

  /** Type and message are the report's own unless they are missing or empty. */
  ghost predicate Reports(raw: RawReport, stripped: string, record: AttemptRecord) {
    && record.failureType == (if raw.failureType in {None, Some("")} then Some("APPLICATION_ERROR") else raw.failureType)
    && record.error == (if raw.message !in {None, Some("")} then raw.message else if stripped != "" then Some(stripped) else Some("FAILED"))
    && record.phase == raw.phase && record.workerId == raw.workerId && record.exitCode == raw.exitCode
  }

  lemma FinishedMeans(cfg: Config, job: Job, now: string, outcome: Outcome, upd: string)
    requires job.state.status.Running? && !outcome.Undecided? && now != ""
    ensures var after := job.(state := Finished(cfg, job.state, now, outcome).(lastUpdated := upd));
            FinishedTo(cfg, job, after, outcome) && AttemptTimes(job, after)
  {
  }

  /** How the completion check leaves a job. */
  ghost predicate CompletedJob(cfg: Config, a: Job, b: Job) {
    b == a || (AttemptTimes(a, b) && exists outcome :: FinishedTo(cfg, a, b, outcome))
  }

  ghost predicate Completed(cfg: Config, a: map<JobId, Job>, b: map<JobId, Job>) {
    b.Keys == a.Keys && forall j <- a :: CompletedJob(cfg, a[j], b[j])
  }

  lemma CompletedNothing(cfg: Config, a: map<JobId, Job>)
    ensures Completed(cfg, a, a)
  {
  }

  lemma CompletedOn(cfg: Config, a: map<JobId, Job>, b: map<JobId, Job>, c: map<JobId, Job>)
    requires Completed(cfg, a, b) && Completed(cfg, b, c)
    ensures Completed(cfg, a, c)
  {
    hide Reports;
    forall j | j in a
      ensures CompletedJob(cfg, a[j], c[j])
    {
      assert CompletedJob(cfg, a[j], b[j]) && CompletedJob(cfg, b[j], c[j]);
    }
  }

  /** The markers decide: a running job is finished as they rule, and left alone if they do not. */
  ghost predicate Judged(cfg: Config, marks: map<Mark, string>, j: JobId, a: Job, b: Job) {
    a.state.status.Running? ==>
      exists outcome :: Ruled(marks, j, a.state.currentAttempt + 1, outcome) &&
        if outcome.Undecided? then b == a else FinishedTo(cfg, a, b, outcome)
  }

  // ---------- Cancellation, retries, creation, activation ----------

  /** No attempt has ended. */
  ghost predicate SameAttempts(a: Job, b: Job) {
    SameJobData(a, b) && b.state.attempts == a.state.attempts && b.state.currentAttempt == a.state.currentAttempt
  }

  ghost predicate CanceledTo(a: Job, b: Job) {
    && SameAttempts(a, b) && b.state.provisionedAt == a.state.provisionedAt
    && (a.state.status.Pending? || a.state.status.Provisioning? || a.state.status.Running?)
    && b.state.status.Canceled? && b.state.currentQrName.None? && b.state.currentQrState.None?
  }

  /** A failed job is pending again exactly if attempts are left. */
  ghost predicate RetriedTo(a: Job, b: Job) {
    && SameAttempts(a, b) && b.state.provisionedAt == a.state.provisionedAt
    && a.state.status.Failed?
    && (b.state.status.Pending? <==> a.state.currentAttempt < a.spec.maxAttempts)
    && (b.state.status.Failed? <==> a.state.currentAttempt >= a.spec.maxAttempts)
    && (b.state.status.Pending? ==> b.state.currentQrName.None? && b.state.currentQrState.None?)
    && (b.state.status.Failed? ==> b.state.currentQrName == a.state.currentQrName && b.state.currentQrState == a.state.currentQrState)
  }

  /** A pending job has got a queued resource, which is still waiting. */
  ghost predicate GotQr(a: Job, b: Job) {
    && SameAttempts(a, b) && b.state.provisionedAt == a.state.provisionedAt
    && a.state.status.Pending? && b.state.status.Provisioning?
    && b.state.currentQrName.Some? && b.state.currentQrState == Some(QrWaiting)
  }

  /** The queued resource of a provisioning job was seen active. */
  ghost predicate ActivatedTo(a: Job, b: Job) {
    && SameAttempts(a, b) && a.state.status.Provisioning? && b.state.status.Running?
    && b.state.provisionedAt.Some? && b.state.provisionedAt.value != ""
    && b.state.currentQrName == a.state.currentQrName && b.state.currentQrState == a.state.currentQrState
  }

  lemma SmallTransitions(job: Job, q: QrName, now: string, upd: string)
    ensures job.state.status.Pending? ==> GotQr(job, job.(state := Provisioned(job.state, q).(lastUpdated := upd)))
    ensures job.state.status.Provisioning? && now != "" ==> ActivatedTo(job, job.(state := Activated(job.state, now).(lastUpdated := upd)))
    ensures job.state.status.Failed? ==>
              var after := if job.state.currentAttempt >= job.spec.maxAttempts then job.state else Retried(job.state);
              RetriedTo(job, job.(state := after.(lastUpdated := upd)))
    ensures !Terminal(job.state.status) ==> CanceledTo(job, job.(state := CanceledState(job.state).(lastUpdated := upd)))
  {
  }

  /** A job as its directory has it; without a status record it is a new one. */
  ghost predicate Loaded(c: Cloud, j: JobId, job: Job) {
    && j in c.dirs && job.spec == c.dirs[j].spec && job.bucket == c.dirs[j].bucket
    && (j in c.status ==> job.state == c.status[j])
    && (j !in c.status ==>
          && job.state.status.Pending? && job.state.currentAttempt == 0 && job.state.attempts == []
          && job.state.currentQrName.None? && job.state.currentQrState.None? && job.state.provisionedAt.None?
          && job.state.createdAt == job.state.lastUpdated != "")
  }

  // ---------- Over every run ----------

  /** A step that charges, finishes, cancels, retries, binds or activates changes the record of its own job, and just so. */
  ghost predicate Ended(cfg: Config, marks: map<Mark, string>, l: Label, a: Job, b: Job) {
    match l
    case BeginPreempt(j, why, now) =>
      a.state.currentQrName.Some? && exists error :: Tells(why, error) && ChargedTo(a, b, a.state.currentQrName.value, error)
    case BeginFinish(j, now, missed) =>
      exists outcome :: Ruled(marks - missed, j, a.state.currentAttempt + 1, outcome) && FinishedTo(cfg, a, b, outcome)
    case CancelWrite(j, now) => CanceledTo(a, b)
    case RetryWrite(j, now) => RetriedTo(a, b)
    case BindWrite(j, now) => GotQr(a, b)
    case BeginActivate(j, now) => ActivatedTo(a, b)
    case _ => b.spec == a.spec && b.state.status == a.state.status && b.state.attempts == a.state.attempts
  }

  /** Of the jobs in memory, the step changes its own, and just so. */
  ghost predicate Carried(cfg: Config, s: Sys, l: Label, t: Sys)
    requires l.BeginPreempt? || l.BeginFinish? || l.CancelWrite? || l.RetryWrite? || l.BindWrite? || l.BeginActivate?
  {
    && l.job in s.jobs && l.job in t.jobs && t.jobs == s.jobs[l.job := t.jobs[l.job]]
    && Ended(cfg, s.cloud.marks, l, s.jobs[l.job], t.jobs[l.job])
  }

  lemma ChargeStep(cfg: Config, s: Sys, l: Label)
    requires Enabled(cfg, s, l) && l.BeginPreempt?
    ensures Carried(cfg, s, l, Apply(cfg, s, l))
  {
    hide Complete, Justified, Tells;
    var job := s.jobs[l.job];
    EvidenceTells(cfg, s.cloud, l.job, job.state, job.state.currentQrName.value, ResourceOf(cfg, job.spec).value, l.why);
    assert ChargedTo(job, Apply(cfg, s, l).jobs[l.job], job.state.currentQrName.value, ErrorText(l.why));
  }

  lemma FinishBegun(cfg: Config, s: Sys, l: Label)
    requires Enabled(cfg, s, l) && l.BeginFinish?
    ensures Carried(cfg, s, l, Apply(cfg, s, l))
  {
    hide Complete, Verdict, Ruled;
    var job := s.jobs[l.job];
    var outcome := Verdict(s.cloud.marks - l.missed, l.job, job.state.currentAttempt + 1);
    VerdictIs(s.cloud.marks - l.missed, l.job, job.state.currentAttempt + 1, outcome);
    assert FinishedTo(cfg, job, Apply(cfg, s, l).jobs[l.job], outcome);
  }

  lemma SmallSteps(cfg: Config, s: Sys, l: Label)
    requires Inv(cfg, s) && Enabled(cfg, s, l) && (l.CancelWrite? || l.RetryWrite? || l.BindWrite? || l.BeginActivate?)
    ensures Carried(cfg, s, l, Apply(cfg, s, l))
  {
    hide Complete, CloudInv, JobInv, TrackedFor, MadeFor, DirtyInv, Justified, Verdict, Admissible, EnvRel;
  }

  /** On every run, a job's record in memory is carried from moment to moment in these ways only. */
  lemma EveryStep(cfg: Config, r: Run, n: nat, j: JobId)
    requires GoodRun(cfg, r) && n < |r.labels| && j in r.states[n].jobs && j in r.states[n + 1].jobs
    ensures var l := r.labels[n];
            (j in Work(l) + Drop(l) ==> Ended(cfg, r.states[n].cloud.marks, l, r.states[n].jobs[j], r.states[n + 1].jobs[j]))
            && (j !in Work(l) + Drop(l) && !l.Refresh? ==> r.states[n + 1].jobs[j] == r.states[n].jobs[j])
  {
    hide Inv, Enabled, Apply, Ended;
    var s, l := r.states[n], r.labels[n];
    RunInv(cfg, r, n);
    assert Step(cfg, s, l, r.states[n + 1]);
    if l.BeginPreempt? {
      ChargeStep(cfg, s, l);
    } else if l.BeginFinish? {
      FinishBegun(cfg, s, l);
    } else if l.CancelWrite? || l.RetryWrite? || l.BindWrite? || l.BeginActivate? {
      SmallSteps(cfg, s, l);
    } else if WritesOnly(l) {
      WriteSteps(cfg, s, l, j);
    } else {
      OtherSteps(cfg, s, l, j);
    }
  }

  /** Steps that end nothing. */
  predicate Bystander(l: Label) {
    !(l.BeginPreempt? || l.BeginFinish? || l.CancelWrite? || l.RetryWrite? || l.BindWrite? || l.BeginActivate?)
  }

  predicate WritesOnly(l: Label) {
    l.NoteQr? || l.PreemptWrite? || l.ActivateWrite? || l.FinishWrite?
  }

  lemma WriteSteps(cfg: Config, s: Sys, l: Label, j: JobId)
    requires Enabled(cfg, s, l) && j in s.jobs && j in Apply(cfg, s, l).jobs && WritesOnly(l)
    ensures j in Work(l) + Drop(l) ==> Ended(cfg, s.cloud.marks, l, s.jobs[j], Apply(cfg, s, l).jobs[j])
    ensures j !in Work(l) + Drop(l) ==> Apply(cfg, s, l).jobs[j] == s.jobs[j]
  {
    hide Complete;
  }

  lemma OtherSteps(cfg: Config, s: Sys, l: Label, j: JobId)
    requires Enabled(cfg, s, l) && j in s.jobs && j in Apply(cfg, s, l).jobs && Bystander(l) && !WritesOnly(l)
    ensures j in Work(l) + Drop(l) ==> Ended(cfg, s.cloud.marks, l, s.jobs[j], Apply(cfg, s, l).jobs[j])
    ensures j !in Work(l) + Drop(l) && !l.Refresh? ==> Apply(cfg, s, l).jobs[j] == s.jobs[j]
  {
    hide Complete, Justified, Verdict, EnvRel;
  }
}

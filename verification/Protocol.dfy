/**
 The scheduler, the durable store and the TPU backend as one state machine. A label is one backend
 call together with the memory update around it, so a `Crash` between two labels is a scheduler
 stopped at an arbitrary backend call.
 */
module Protocol {
  import opened Types
  import opened Lifecycle

  datatype RootName = CancelMark | RetryMark | RootSucceeded | RootFailed | RunningMark

  datatype ScopedName = Claimed | Heartbeat | StartupVersion | ScopedSucceeded | ScopedFailed | SetupReady(worker: nat) | SetupComplete

  /** Objects in a job directory other than `spec.json` and `status.json`. */
  datatype Mark = Root(job: JobId, name: RootName) | Scoped(job: JobId, attempt: int, kind: ScopedName)

  datatype Dir = Dir(bucket: string, spec: JobSpec)

  datatype Qr = Qr(project: string, zone: string, state: QRState)

  /** History: for whom a queued resource was created. `modern` is false for those made by older code. */
  datatype Birth = Birth(job: JobId, attempt: int, resource: ResourceConfig, user: string, modern: bool)

  /** Everything outside the scheduler process. `ledger`, `sightings` and `seen` are history, read by no code. */
  datatype Cloud = Cloud(
    dirs: map<JobId, Dir>,
    status: map<JobId, JobState>,
    marks: map<Mark, string>,
    qrs: map<QrName, Qr>,
    ledger: map<QrName, Birth>,
    sightings: map<QrName, set<QRState>>,
    seen: set<JobId>)

  /** Which multi-call operation the scheduler is inside of. `was` is the durable record it started from. */
  datatype Pc =
    | Idle
    | Canceling(job: JobId, qr: Option<QrName>)
    | Preempting(job: JobId, qr: Option<QrName>, was: JobState)
    | Activating(job: JobId, was: JobState)
    | Finishing(job: JobId, qr: Option<QrName>, was: JobState)
    | Cleaning(job: JobId, gone: QrName)
    | Retrying(job: JobId)
    | Creating(job: JobId, made: QrName)

  datatype Sys = Sys(jobs: map<JobId, Job>, index: map<QrName, JobId>, cloud: Cloud, pc: Pc)

  /** Why polling charges an attempt to the infrastructure. `answered` is false when the call itself failed. */
  datatype Observation =
    | QrMissing(answered: bool)
    | QrSuspension(state: QRState)
    | QrFailure
    | VmState(vmState: string)
    | VmHealth(health: string)
    | NoClaim(at: int, answered: bool)
    | LateHeartbeat(at: int)

  const TERMINAL_TPU_VM_STATES := {"PREEMPTED", "TERMINATED", "STOPPED", "DELETED", "FAILED"}
  const RETRY_TPU_VM_HEALTH := {"TIMEOUT", "UNHEALTHY_MAINTENANCE"}

  function ErrorText(o: Observation): string {
    match o
    case QrMissing(_) => "QR disappeared"
    case QrSuspension(st) => if st.QrSuspending? then "SUSPENDING" else "SUSPENDED"
    case QrFailure => "QR_FAILED"
    case VmState(v) => "TPU_VM_" + v
    case VmHealth(h) => "TPU_VM_HEALTH_" + h
    case NoClaim(_, _) => "ACTIVE_NO_CLAIM_TIMEOUT"
    case LateHeartbeat(_) => "HEARTBEAT_TIMEOUT"
  }

  datatype Label =
    | Env(to: Cloud)
    | Crash
    | Load(job: JobId, now: string)
    | Refresh(job: JobId)
    | Forget(qr: QrName)
    | ClearRoot(job: JobId, name: RootName)
    | CleanStale(job: JobId, qr: QrName, ok: bool)
    | CleanOrphan(job: JobId, qr: QrName, ok: bool)
    | CleanOwn(job: JobId, qr: QrName, ok: bool)
    | BeginCancel(job: JobId)
    | CancelClean(job: JobId, qr: QrName, ok: bool)
    | CancelWrite(job: JobId, now: string)
    | BeginPreempt(job: JobId, why: Observation, now: string)
    | PreemptWrite(job: JobId, now: string)
    | BeginActivate(job: JobId, now: string)
    | MarkRunning(job: JobId, text: string)
    | ActivateWrite(job: JobId, now: string)
    | NoteQr(job: JobId, state: QRState, now: string)
    | BeginFinish(job: JobId, now: string, missed: set<Mark>)
    | FinishWrite(job: JobId, now: string)
    | BeginRetry(job: JobId)
    | RetryWrite(job: JobId, now: string)
    | CreateFail(job: JobId)
    | CreateOk(job: JobId, qr: QrName)
    | StampVersion(job: JobId)
    | BindWrite(job: JobId, now: string)
    | Reap(job: JobId, ok: bool)

  /** The queued resource has been in this state at some time. */
  predicate Sighted(c: Cloud, q: QrName, st: QRState) {
    q in c.sightings && st in c.sightings[q]
  }

  // ---------- The environment ----------

  /** A submitted spec: its directory is named after its id and it allows at least one attempt. */
  predicate SpecOk(cfg: Config, j: JobId, d: Dir) {
    d.spec.jobId == j && d.spec.maxAttempts >= 1 && d.bucket in cfg.buckets
  }

  /**
   Any number of moves by users, workers and the cloud: new jobs under fresh ids, new or rewritten
   markers, queued resources that change state or vanish. A submitter writes a new `status.json` after
   its `spec.json`; from then on, and from the scheduler's first write on, it is the scheduler's alone.
   */
  predicate EnvRel(cfg: Config, c: Cloud, d: Cloud) {
    && d.ledger == c.ledger
    && (forall j <- c.status :: j in d.status && d.status[j] == c.status[j])
    && (forall j <- d.status :: j in c.status || (j in d.dirs && Blank(d.status[j])))
    && (forall j <- c.dirs :: j in d.dirs && d.dirs[j] == c.dirs[j])
    && (forall j <- d.dirs :: j in c.dirs || (j !in c.seen && j in d.seen && SpecOk(cfg, j, d.dirs[j])))
    && c.seen <= d.seen
    && (forall m <- c.marks :: m in d.marks)
    && (forall m <- d.marks :: m in c.marks || !(m.Scoped? && m.kind.StartupVersion?))
    && (forall q <- d.qrs :: q in c.qrs && d.qrs[q].project == c.qrs[q].project && d.qrs[q].zone == c.qrs[q].zone)
    && (forall q <- c.sightings :: q in d.sightings && c.sightings[q] <= d.sightings[q])
    && (forall q <- d.qrs :: Sighted(d, q, d.qrs[q].state) || d.qrs[q] == c.qrs[q])
  }

  // ---------- What a step reads ----------

  /** Every job whose durable status is active is in memory: what a complete scan establishes. */
  ghost predicate Complete(s: Sys) {
    forall j <- s.cloud.status :: Active(s.cloud.status[j]) ==> j in s.jobs
  }

  function MarkText(marks: map<Mark, string>, m: Mark): Option<string> {
    if m in marks then Some(marks[m]) else None
  }

  /**
   `check_completed_jobs`: attempt-scoped markers first, root markers only for attempts older code started.
   A marker whose read fails counts as absent, so `marks` are those the reads brought back.
   */
  function Verdict(marks: map<Mark, string>, j: JobId, attempt: int): Outcome {
    var succeeded0 := MarkText(marks, Scoped(j, attempt, ScopedSucceeded));
    var failed0 := MarkText(marks, Scoped(j, attempt, ScopedFailed));
    var legacy := Scoped(j, attempt, StartupVersion) !in marks;
    var succeeded := if legacy && succeeded0.None? then MarkText(marks, Root(j, RootSucceeded)) else succeeded0;
    var failed := if legacy && failed0.None? then MarkText(marks, Root(j, RootFailed)) else failed0;
    if failed.Some? then Lost(failed.value) else if succeeded.Some? then Won else Undecided
  }

  predicate Found(c: Cloud, q: QrName, r: ResourceConfig) {
    q in c.qrs && c.qrs[q].project == r.project && c.qrs[q].zone == r.zone
  }

  datatype Lateness = OnTime | ClaimLate | BeatLate

  /** `_check_active_timeouts`: `claimed` is what the existence probe answered. */
  function Timeout(cfg: Config, marks: map<Mark, string>, j: JobId, s: JobState, now: int, claimed: bool): Lateness {
    var started := if Truthy(s.provisionedAt) then cfg.parseTime(s.provisionedAt.value) else None;
    if started.None? then OnTime
    else if !claimed then
      if now - started.value > cfg.activeNoClaimTimeout then ClaimLate else OnTime
    else
      var text := cfg.strip(OrElse(MarkText(marks, Scoped(j, s.currentAttempt + 1, Heartbeat)), ""));
      var beat := if text != "" then cfg.parseTime(text) else None;
      var last := if beat.Some? then beat.value else started.value;
      if now - last > cfg.heartbeatTimeout then BeatLate else OnTime
  }

  predicate ClaimedMark(c: Cloud, j: JobId, s: JobState) {
    Scoped(j, s.currentAttempt + 1, Claimed) in c.marks
  }

  /** The evidence each charge needs. */
  predicate Justified(cfg: Config, c: Cloud, j: JobId, s: JobState, q: QrName, r: ResourceConfig, o: Observation) {
    match o
    case QrMissing(answered) => answered ==> !Found(c, q, r)
    case QrSuspension(st) => Sighted(c, q, st) && (st.QrSuspending? || st.QrSuspended?)
    case QrFailure => Sighted(c, q, QrFailed)
    case VmState(v) => Sighted(c, q, QrActive) && v in TERMINAL_TPU_VM_STATES
    case VmHealth(h) => Sighted(c, q, QrActive) && h in RETRY_TPU_VM_HEALTH
    case NoClaim(now, answered) =>
      && Sighted(c, q, QrActive) && s.status.Running?
      && (answered ==> !ClaimedMark(c, j, s)) && Timeout(cfg, c.marks, j, s, now, false).ClaimLate?
    case LateHeartbeat(now) =>
      && Sighted(c, q, QrActive) && s.status.Running?
      && ClaimedMark(c, j, s) && Timeout(cfg, c.marks, j, s, now, true).BeatLate?
  }

  // ---------- Chips ----------

  /** A limit applies to a quota group or to a user. */
  datatype Pot = Group(group: string) | User(user: string)

  function Weight(r: ResourceConfig, user: string, p: Pot): nat {
    match p
    case Group(g) => if r.quotaGroup == g then r.chips else 0
    case User(u) => if user == u then r.chips else 0
  }

  function SpecWeight(cfg: Config, spec: JobSpec, p: Pot): nat {
    var r := ResourceOf(cfg, spec);
    if r.Some? then Weight(r.value, spec.submittedBy, p) else 0
  }

  ghost function Sum(S: set<JobId>, w: map<JobId, nat>): nat
    requires S <= w.Keys
  {
    if S == {} then 0 else var j :| j in S; w[j] + Sum(S - {j}, w)
  }

  ghost function JobWeights(cfg: Config, jobs: map<JobId, Job>, p: Pot): map<JobId, nat> {
    map j | j in jobs :: SpecWeight(cfg, jobs[j].spec, p)
  }

  ghost function ActiveJobs(jobs: map<JobId, Job>): set<JobId> {
    set j | j in jobs && Active(jobs[j].state)
  }

  /** Chips held by the active jobs in memory. */
  ghost function MemUsage(cfg: Config, jobs: map<JobId, Job>, p: Pot): nat {
    Sum(ActiveJobs(jobs), JobWeights(cfg, jobs, p))
  }

  /** A user's own entry counts alone, and `None` there is no limit; the default is for users without an entry. */
  ghost predicate MayHold(cfg: Config, user: string, chips: int) {
    if user in cfg.userMaxChips then cfg.userMaxChips[user].Some? ==> chips <= cfg.userMaxChips[user].value
    else cfg.defaultMaxChips.Some? ==> chips <= cfg.defaultMaxChips.value
  }

  ghost predicate Within(cfg: Config, p: Pot, chips: int) {
    match p
    case Group(g) => g in cfg.quotaGroups ==> chips <= cfg.quotaGroups[g]
    case User(u) => MayHold(cfg, u, chips)
  }

  // ---------- Effects shared by several steps ----------

  function SetJob(s: Sys, j: JobId, st: JobState): Sys
    requires j in s.jobs
  {
    s.(jobs := s.jobs[j := s.jobs[j].(state := st)])
  }

  /** `_write_status`: memory and `status.json` get the same record. */
  function Commit(s: Sys, j: JobId, st: JobState, pc: Pc): Sys
    requires j in s.jobs
  {
    SetJob(s, j, st).(cloud := s.cloud.(status := s.cloud.status[j := st]), pc := pc)
  }

  /** The write that brings the durable record level with memory. */
  function Flush(s: Sys, j: JobId, now: string, pc: Pc): Sys
    requires j in s.jobs
  {
    Commit(s, j, s.jobs[j].state.(lastUpdated := now), pc)
  }

  /** `_cleanup_job_resources`: the index entry goes only if the delete call succeeded. */
  function Cleanup(s: Sys, q: QrName, ok: bool): Sys {
    if ok then s.(index := s.index - {q}, cloud := s.cloud.(qrs := s.cloud.qrs - {q})) else s
  }

  /** The job record a scan reads. */
  function Stored(c: Cloud, j: JobId, now: string): JobState {
    if j in c.status then c.status[j] else NewState(now)
  }

  function Indexed(index: map<QrName, JobId>, j: JobId, st: JobState): map<QrName, JobId> {
    if Active(st) && Truthy(st.currentQrName) then index[st.currentQrName.value := j] else index
  }

  function WithoutMark(c: Cloud, m: Mark): Cloud {
    c.(marks := c.marks - {m})
  }

  /** Recursive deletion of a job directory. */
  function WithoutDir(c: Cloud, j: JobId): Cloud {
    c.(dirs := c.dirs - {j}, status := c.status - {j},
       marks := map m | m in c.marks && m.job != j :: c.marks[m])
  }

  /** The queued resource an ending operation has to clean up, if there is one and its resource is configured. */
  function ToClean(cfg: Config, job: Job): Option<QrName> {
    if Truthy(job.state.currentQrName) && ResourceOf(cfg, job.spec).Some? then job.state.currentQrName else None
  }

  // ---------- Guards and effects, one pair per step ----------

  ghost predicate Ready(s: Sys, j: JobId) {
    s.pc.Idle? && Complete(s) && j in s.jobs
  }

  ghost predicate CanLoad(s: Sys, j: JobId, now: string) {
    s.pc.Idle? && j in s.cloud.dirs && j !in s.jobs && now != ""
  }

  function DoLoad(s: Sys, j: JobId, now: string): Sys
    requires j in s.cloud.dirs
  {
    var st := Stored(s.cloud, j, now);
    s.(jobs := s.jobs[j := Job(s.cloud.dirs[j].spec, st, s.cloud.dirs[j].bucket)], index := Indexed(s.index, j, st))
  }

  ghost predicate CanRefresh(s: Sys, j: JobId) {
    Ready(s, j) && j in s.cloud.status
  }

  function DoRefresh(s: Sys, j: JobId): Sys
    requires j in s.jobs && j in s.cloud.status
  {
    var st := s.cloud.status[j];
    SetJob(s, j, st).(index := Indexed(map q | q in s.index && s.index[q] != j :: s.index[q], j, st))
  }

  ghost predicate CanForget(s: Sys, q: QrName) {
    s.pc.Idle? && q in s.index && s.index[q] !in s.jobs
  }

  ghost predicate CanClearRoot(s: Sys, j: JobId, name: RootName) {
    (s.pc.Idle? ==> Complete(s)) && j in s.jobs && (name.RootSucceeded? || name.RootFailed?)
  }

  ghost predicate CanCleanStale(s: Sys, j: JobId, q: QrName) {
    Ready(s, j) && q in s.index && s.index[q] == j && s.jobs[j].state.currentQrName != Some(q)
  }

  /** The orphan sweep looks at names the index does not track; nothing here speaks of durable status. */
  ghost predicate CanCleanOrphan(s: Sys, j: JobId, q: QrName) {
    s.pc.Idle? && Complete(s) && q !in s.index && q in s.cloud.ledger && s.cloud.ledger[q].job == j
  }

  ghost predicate CanCleanOwn(s: Sys, j: JobId, q: QrName) {
    || (s.pc.Cleaning? && s.pc.job == j && s.pc.gone == q)
    || (s.pc.Preempting? && s.pc.job == j && s.pc.qr == Some(q))
  }

  function DoCleanOwn(s: Sys, j: JobId, q: QrName, ok: bool): Sys {
    Cleanup(s, q, ok).(pc := if s.pc.Preempting? then Preempting(j, None, s.pc.was) else Idle)
  }

  ghost predicate CanBeginCancel(s: Sys, j: JobId) {
    Ready(s, j) && !Terminal(s.jobs[j].state.status) && Root(j, CancelMark) in s.cloud.marks
  }

  function DoBeginCancel(cfg: Config, s: Sys, j: JobId): Sys
    requires j in s.jobs
  {
    s.(pc := Canceling(j, ToClean(cfg, s.jobs[j])))
  }

  ghost predicate CanCancelWrite(s: Sys, j: JobId, now: string) {
    s.pc == Canceling(j, None) && j in s.jobs && now != ""
  }

  function DoCancelWrite(s: Sys, j: JobId, now: string): Sys
    requires j in s.jobs
  {
    Commit(s, j, CanceledState(s.jobs[j].state).(lastUpdated := now), Idle)
  }

  ghost predicate HasResource(cfg: Config, job: Job) {
    Active(job.state) && job.state.currentQrName.Some? && ResourceOf(cfg, job.spec).Some?
  }

  ghost predicate CanBeginPreempt(cfg: Config, s: Sys, j: JobId, why: Observation) {
    && Ready(s, j) && HasResource(cfg, s.jobs[j])
    && Justified(cfg, s.cloud, j, s.jobs[j].state, s.jobs[j].state.currentQrName.value, ResourceOf(cfg, s.jobs[j].spec).value, why)
  }

  function DoBeginPreempt(s: Sys, j: JobId, why: Observation, now: string): Sys
    requires j in s.jobs && s.jobs[j].state.currentQrName.Some?
  {
    var st := s.jobs[j].state;
    var q := st.currentQrName.value;
    SetJob(s, j, Preempted(st, q, now, ErrorText(why), s.jobs[j].spec.maxAttempts)).(pc := Preempting(j, Some(q), st))
  }

  ghost predicate CanPreemptWrite(s: Sys, j: JobId, now: string) {
    s.pc.Preempting? && s.pc.job == j && s.pc.qr.None? && j in s.jobs && now != ""
  }

  ghost predicate CanBeginActivate(cfg: Config, s: Sys, j: JobId, now: string) {
    && Ready(s, j) && HasResource(cfg, s.jobs[j]) && s.jobs[j].state.status.Provisioning? && now != ""
    && Sighted(s.cloud, s.jobs[j].state.currentQrName.value, QrActive)
  }

  function DoBeginActivate(s: Sys, j: JobId, now: string): Sys
    requires j in s.jobs
  {
    SetJob(s, j, Activated(s.jobs[j].state, now)).(pc := Activating(j, s.jobs[j].state))
  }

  ghost predicate CanMarkRunning(s: Sys, j: JobId) {
    s.pc.Activating? && s.pc.job == j
  }

  function DoMarkRunning(s: Sys, j: JobId, text: string): Sys {
    s.(cloud := s.cloud.(marks := s.cloud.marks[Root(j, RunningMark) := text]))
  }

  ghost predicate CanActivateWrite(s: Sys, j: JobId, now: string) {
    s.pc.Activating? && s.pc.job == j && j in s.jobs && now != ""
  }

  ghost predicate CanNoteQr(s: Sys, j: JobId, now: string) {
    Ready(s, j) && Active(s.jobs[j].state) && now != ""
  }

  function DoNoteQr(s: Sys, j: JobId, st: QRState, now: string): Sys
    requires j in s.jobs
  {
    Commit(s, j, s.jobs[j].state.(currentQrState := Some(st), lastUpdated := now), Idle)
  }

  /** `missed` are the markers whose reads failed. */
  ghost predicate CanBeginFinish(s: Sys, j: JobId, missed: set<Mark>) {
    && Ready(s, j) && s.jobs[j].state.status.Running?
    && !Verdict(s.cloud.marks - missed, j, s.jobs[j].state.currentAttempt + 1).Undecided?
  }

  function DoBeginFinish(cfg: Config, s: Sys, j: JobId, now: string, missed: set<Mark>): Sys
    requires j in s.jobs && !Verdict(s.cloud.marks - missed, j, s.jobs[j].state.currentAttempt + 1).Undecided?
  {
    var st := s.jobs[j].state;
    SetJob(s, j, Finished(cfg, st, now, Verdict(s.cloud.marks - missed, j, st.currentAttempt + 1))).(
      pc := Finishing(j, ToClean(cfg, s.jobs[j]), st))
  }

  ghost predicate CanFinishWrite(s: Sys, j: JobId, now: string) {
    s.pc.Finishing? && s.pc.job == j && j in s.jobs && now != ""
  }

  /** The durable record is terminal before the queued resource is deleted. */
  function DoFinishWrite(s: Sys, j: JobId, now: string): Sys
    requires j in s.jobs && s.pc.Finishing?
  {
    Flush(s, j, now, if s.pc.qr.Some? then Cleaning(j, s.pc.qr.value) else Idle)
  }

  ghost predicate CanBeginRetry(s: Sys, j: JobId) {
    Ready(s, j) && s.jobs[j].state.status.Failed? && Root(j, RetryMark) in s.cloud.marks
  }

  function DoBeginRetry(s: Sys, j: JobId): Sys {
    s.(cloud := WithoutMark(s.cloud, Root(j, RetryMark)), pc := Retrying(j))
  }

  ghost predicate CanRetryWrite(s: Sys, j: JobId, now: string) {
    s.pc == Retrying(j) && j in s.jobs && now != ""
  }

  function DoRetryWrite(s: Sys, j: JobId, now: string): Sys
    requires j in s.jobs
  {
    var st := s.jobs[j].state;
    Commit(s, j, (if st.currentAttempt >= s.jobs[j].spec.maxAttempts then st else Retried(st)).(lastUpdated := now), Idle)
  }

  /** Names carry the prefix by which the orphan sweep knows them. */
  ghost predicate CanCreate(cfg: Config, s: Sys, j: JobId, q: QrName) {
    && Ready(s, j) && s.jobs[j].state.status.Pending? && q !in s.cloud.ledger && q != ""
    && cfg.qrPrefix + "-" <= q && Admissible(cfg, s.jobs, s.jobs[j].spec)
  }

  /** Known, enabled, and within both limits given the chips in use. */
  ghost predicate Room(cfg: Config, spec: JobSpec, inGroup: int, byUser: int) {
    && spec.resources.resourceName in cfg.resources
    && (var r := cfg.resources[spec.resources.resourceName];
        && r.enabled && r.quotaGroup in cfg.quotaGroups
        && inGroup + r.chips <= cfg.quotaGroups[r.quotaGroup]
        && MayHold(cfg, spec.submittedBy, byUser + r.chips))
  }

  /** The pot of the quota group a job draws from. */
  function GroupOf(cfg: Config, spec: JobSpec): Pot {
    Group(if ResourceOf(cfg, spec).Some? then ResourceOf(cfg, spec).value.quotaGroup else "")
  }

  ghost predicate Admissible(cfg: Config, jobs: map<JobId, Job>, spec: JobSpec) {
    Room(cfg, spec, MemUsage(cfg, jobs, GroupOf(cfg, spec)), MemUsage(cfg, jobs, User(spec.submittedBy)))
  }

  function DoCreate(cfg: Config, s: Sys, j: JobId, q: QrName): Sys
    requires j in s.jobs && ResourceOf(cfg, s.jobs[j].spec).Some?
  {
    var r := ResourceOf(cfg, s.jobs[j].spec).value;
    s.(cloud := s.cloud.(
         qrs := s.cloud.qrs[q := Qr(r.project, r.zone, QrWaiting)],
         ledger := s.cloud.ledger[q := Birth(j, s.jobs[j].state.currentAttempt + 1, r, s.jobs[j].spec.submittedBy, true)],
         sightings := s.cloud.sightings[q := {QrWaiting}]),
       pc := Creating(j, q))
  }

  ghost predicate CanStamp(s: Sys, j: JobId) {
    s.pc.Creating? && s.pc.job == j && j in s.jobs
  }

  function DoStamp(s: Sys, j: JobId): Sys
    requires j in s.jobs
  {
    s.(cloud := s.cloud.(marks := s.cloud.marks[Scoped(j, s.jobs[j].state.currentAttempt + 1, StartupVersion) := "3\n"]))
  }

  ghost predicate CanBind(s: Sys, j: JobId, now: string) {
    && CanStamp(s, j) && now != ""
    && Scoped(j, s.jobs[j].state.currentAttempt + 1, StartupVersion) in s.cloud.marks
  }

  function DoBind(s: Sys, j: JobId, now: string): Sys
    requires j in s.jobs && s.pc.Creating?
  {
    Commit(s.(index := s.index[s.pc.made := j]), j, Provisioned(s.jobs[j].state, s.pc.made).(lastUpdated := now), Idle)
  }

  ghost predicate CanReap(s: Sys, j: JobId) {
    Ready(s, j) && Terminal(s.jobs[j].state.status)
  }

  function DoReap(s: Sys, j: JobId, ok: bool): Sys {
    s.(jobs := s.jobs - {j}, cloud := if ok then WithoutDir(s.cloud, j) else s.cloud)
  }

  // ---------- The machine ----------

  ghost predicate Enabled(cfg: Config, s: Sys, l: Label) {
    match l
    case Env(to) => EnvRel(cfg, s.cloud, to)
    case Crash => true
    case Load(j, now) => CanLoad(s, j, now)
    case Refresh(j) => CanRefresh(s, j)
    case Forget(q) => CanForget(s, q)
    case ClearRoot(j, name) => CanClearRoot(s, j, name)
    case CleanStale(j, q, ok) => CanCleanStale(s, j, q)
    case CleanOrphan(j, q, ok) => CanCleanOrphan(s, j, q)
    case CleanOwn(j, q, ok) => CanCleanOwn(s, j, q)
    case BeginCancel(j) => CanBeginCancel(s, j)
    case CancelClean(j, q, ok) => s.pc == Canceling(j, Some(q))
    case CancelWrite(j, now) => CanCancelWrite(s, j, now)
    case BeginPreempt(j, why, now) => CanBeginPreempt(cfg, s, j, why)
    case PreemptWrite(j, now) => CanPreemptWrite(s, j, now)
    case BeginActivate(j, now) => CanBeginActivate(cfg, s, j, now)
    case MarkRunning(j, text) => CanMarkRunning(s, j)
    case ActivateWrite(j, now) => CanActivateWrite(s, j, now)
    case NoteQr(j, st, now) => CanNoteQr(s, j, now)
    case BeginFinish(j, now, missed) => CanBeginFinish(s, j, missed)
    case FinishWrite(j, now) => CanFinishWrite(s, j, now)
    case BeginRetry(j) => CanBeginRetry(s, j)
    case RetryWrite(j, now) => CanRetryWrite(s, j, now)
    case CreateFail(j) => Ready(s, j)
    case CreateOk(j, q) => CanCreate(cfg, s, j, q)
    case StampVersion(j) => CanStamp(s, j)
    case BindWrite(j, now) => CanBind(s, j, now)
    case Reap(j, ok) => CanReap(s, j)
  }

  ghost function Apply(cfg: Config, s: Sys, l: Label): Sys
    requires Enabled(cfg, s, l)
  {
    match l
    case Env(to) => s.(cloud := to)
    case Crash => s.(jobs := map[], index := map[], pc := Idle)
    case Load(j, now) => DoLoad(s, j, now)
    case Refresh(j) => DoRefresh(s, j)
    case Forget(q) => s.(index := s.index - {q})
    case ClearRoot(j, name) => s.(cloud := WithoutMark(s.cloud, Root(j, name)))
    case CleanStale(j, q, ok) => Cleanup(s, q, ok)
    case CleanOrphan(j, q, ok) => Cleanup(s, q, ok)
    case CleanOwn(j, q, ok) => DoCleanOwn(s, j, q, ok)
    case BeginCancel(j) => DoBeginCancel(cfg, s, j)
    case CancelClean(j, q, ok) => Cleanup(s, q, ok).(pc := Canceling(j, None))
    case CancelWrite(j, now) => DoCancelWrite(s, j, now)
    case BeginPreempt(j, why, now) => DoBeginPreempt(s, j, why, now)
    case PreemptWrite(j, now) => Flush(s, j, now, Idle)
    case BeginActivate(j, now) => DoBeginActivate(s, j, now)
    case MarkRunning(j, text) => DoMarkRunning(s, j, text)
    case ActivateWrite(j, now) => Flush(s, j, now, Idle)
    case NoteQr(j, st, now) => DoNoteQr(s, j, st, now)
    case BeginFinish(j, now, missed) => DoBeginFinish(cfg, s, j, now, missed)
    case FinishWrite(j, now) => DoFinishWrite(s, j, now)
    case BeginRetry(j) => DoBeginRetry(s, j)
    case RetryWrite(j, now) => DoRetryWrite(s, j, now)
    case CreateFail(j) => s
    case CreateOk(j, q) => DoCreate(cfg, s, j, q)
    case StampVersion(j) => DoStamp(s, j)
    case BindWrite(j, now) => DoBind(s, j, now)
    case Reap(j, ok) => DoReap(s, j, ok)
  }

  // ---------- The invariant ----------

  predicate Dirty(pc: Pc) {
    pc.Preempting? || pc.Activating? || pc.Finishing?
  }

  /** Durable records: well formed, and every active one owns a queued resource made for that very attempt. */
  ghost predicate Owns(cfg: Config, c: Cloud, j: JobId, spec: JobSpec, st: JobState) {
    && WellFormed(st, spec.maxAttempts)
    && (Active(st) ==>
          && st.currentQrName.value in c.ledger
          && ResourceOf(cfg, spec).Some?
          && (var b := c.ledger[st.currentQrName.value];
              && b.job == j && b.attempt == st.currentAttempt + 1
              && b.resource == ResourceOf(cfg, spec).value && b.user == spec.submittedBy
              && (b.modern ==> Scoped(j, st.currentAttempt + 1, StartupVersion) in c.marks)))
  }

  /** The job this queued resource was made for is durably active on it. */
  predicate Held(c: Cloud, q: QrName) {
    && q in c.ledger && c.ledger[q].job in c.status
    && Active(c.status[c.ledger[q].job]) && c.status[c.ledger[q].job].currentQrName == Some(q)
  }

  ghost predicate CloudInv(cfg: Config, c: Cloud) {
    && c.dirs.Keys <= c.seen && c.status.Keys <= c.dirs.Keys
    && (forall j <- c.dirs :: SpecOk(cfg, j, c.dirs[j]))
    && (forall j <- c.status :: Owns(cfg, c, j, c.dirs[j].spec, c.status[j]))
    && (forall q <- c.qrs :: q in c.ledger && Sighted(c, q, c.qrs[q].state))
    && (forall q <- c.qrs :: c.qrs[q].project == c.ledger[q].resource.project && c.qrs[q].zone == c.ledger[q].resource.zone)
  }

  /** Memory agrees with the durable record; a record nobody has worked on yet may be a new one with other times. */
  ghost predicate Synced(c: Cloud, j: JobId, st: JobState) {
    (j in c.status && c.status[j] == st) || (Blank(st) && (j in c.status ==> Blank(c.status[j])))
  }

  ghost predicate JobInv(cfg: Config, s: Sys, j: JobId)
    requires j in s.jobs
  {
    && j in s.cloud.dirs && s.jobs[j].spec == s.cloud.dirs[j].spec && s.jobs[j].bucket == s.cloud.dirs[j].bucket
    && Owns(cfg, s.cloud, j, s.jobs[j].spec, s.jobs[j].state)
    && ((Dirty(s.pc) && s.pc.job == j) || Synced(s.cloud, j, s.jobs[j].state))
    && (Active(s.jobs[j].state) ==>
          || (s.pc.Canceling? && s.pc.job == j)
          || (s.jobs[j].state.currentQrName.value in s.index && s.index[s.jobs[j].state.currentQrName.value] == j))
  }

  ghost predicate PcInv(cfg: Config, s: Sys) {
    match s.pc
    case Idle => true
    case Canceling(j, q) => j in s.jobs && !Terminal(s.jobs[j].state.status) && Root(j, CancelMark) in s.cloud.marks
                            && (q.Some? ==> s.jobs[j].state.currentQrName == q)
    case Preempting(j, q, was) => DirtyInv(s, j, was) && Active(was) && !Active(s.jobs[j].state) && (q.Some? ==> was.currentQrName == q)
    case Activating(j, was) => DirtyInv(s, j, was) && was.status.Provisioning? && s.jobs[j].state.status.Running? && was.currentQrName == s.jobs[j].state.currentQrName
    case Finishing(j, q, was) => DirtyInv(s, j, was) && was.status.Running? && !Active(s.jobs[j].state) && (q.Some? ==> was.currentQrName == q)
                                 && Terminal(s.jobs[j].state.status) && q.Some?
    case Cleaning(j, q) => j in s.jobs && Terminal(s.jobs[j].state.status) && MadeFor(cfg, s.cloud, q, j, s.jobs[j].spec)
    case Retrying(j) => j in s.jobs && s.jobs[j].state.status.Failed?
    case Creating(j, q) => j in s.jobs && s.jobs[j].state.status.Pending? && q in s.cloud.ledger && q != ""
                           && ResourceOf(cfg, s.jobs[j].spec).Some?
                           && s.cloud.ledger[q] == Birth(j, s.jobs[j].state.currentAttempt + 1, ResourceOf(cfg, s.jobs[j].spec).value, s.jobs[j].spec.submittedBy, true)
  }

  /** The queued resource was created for this job, on its configured resource. */
  predicate MadeFor(cfg: Config, c: Cloud, q: QrName, j: JobId, spec: JobSpec) {
    && q in c.ledger && ResourceOf(cfg, spec).Some?
    && c.ledger[q].job == j && c.ledger[q].resource == ResourceOf(cfg, spec).value && c.ledger[q].user == spec.submittedBy
  }

  /** An index entry: made for a job that has been there, and whose resource is configured. */
  predicate TrackedFor(cfg: Config, c: Cloud, q: QrName, j: JobId) {
    q in c.ledger && c.ledger[q].job == j && j in c.seen && (j in c.dirs ==> ResourceOf(cfg, c.dirs[j].spec).Some?)
  }

  ghost predicate DirtyInv(s: Sys, j: JobId, was: JobState) {
    && j in s.jobs && j in s.cloud.status && s.cloud.status[j] == was && !s.jobs[j].state.status.Canceled?
    && Progress(was, s.jobs[j].state, s.jobs[j].spec.maxAttempts)
  }

  ghost predicate Inv(cfg: Config, s: Sys) {
    && CloudInv(cfg, s.cloud)
    && (forall j <- s.jobs :: JobInv(cfg, s, j))
    && (forall q <- s.index :: TrackedFor(cfg, s.cloud, q, s.index[q]))
    && PcInv(cfg, s)
    && (!s.pc.Idle? ==> Complete(s))
  }
}

/**
 What the methods of the scheduler say about the stretch between two of their moments: which jobs it acted
 for, what it did to memory and to the index, and how the phases of a pass follow each other.
 */
module Passes {
  import opened Types
  import opened Lifecycle
  import opened Protocol
  import opened Outcomes
  import opened Queue
  import opened Runs
  import opened Backends
  import opened Calm
  import opened History
  import opened Quota
  import opened Safety

  /** Only job `j`'s state differs. */
  ghost predicate OnlyState(a: map<JobId, Job>, b: map<JobId, Job>, j: JobId) {
    && b.Keys == a.Keys && j in a && b[j] == a[j].(state := b[j].state)
    && (forall i <- a :: i != j ==> b[i] == a[i])
  }

  lemma OnlyOn(a: map<JobId, Job>, b: map<JobId, Job>, c: map<JobId, Job>, j: JobId)
    requires OnlyState(a, b, j) && OnlyState(b, c, j)
    ensures OnlyState(a, c, j)
  {
  }

  /** A charge rests on its evidence. */
  lemma PreemptFacts(cfg: Config, s: Sys, j: JobId, why: Observation)
    requires CanBeginPreempt(cfg, s, j, why)
    ensures ChargeText(ErrorText(why))
  {
    hide Justified, Complete, Tells;
    var job := s.jobs[j];
    EvidenceTells(cfg, s.cloud, j, job.state, job.state.currentQrName.value, ResourceOf(cfg, job.spec).value, why);
  }

  lemma OnlyJob(a: map<JobId, Job>, b: map<JobId, Job>, j: JobId)
    requires OnlyState(a, b, j)
    ensures j in a && j in b && b[j] == a[j].(state := b[j].state)
  {
  }

  lemma CancelFacts(cfg: Config, r: Run, s: Sys, j: JobId)
    requires Reaches(cfg, r, s) && CanBeginCancel(s, j)
    ensures j in s.jobs && !Terminal(s.jobs[j].state.status) && ToClean(cfg, s.jobs[j]) == s.jobs[j].state.currentQrName
  {
    hide Reaches, Complete;
    CurrentFacts(cfg, r, s, j);
  }

  /** What the invariant says about a tracked job, at rest. */
  lemma CurrentFacts(cfg: Config, r: Run, s: Sys, j: JobId)
    requires Reaches(cfg, r, s) && s.pc.Idle? && j in s.jobs
    ensures WellFormed(s.jobs[j].state, s.jobs[j].spec.maxAttempts)
    ensures s.jobs[j].state.currentQrName.Some? ==>
              var q := s.jobs[j].state.currentQrName.value;
              HasResource(cfg, s.jobs[j]) && q != "" && q in s.index && s.index[q] == j
  {
    ReachedInv(cfg, r, s);
    assert JobInv(cfg, s, j);
  }

  /** An attempt with a verdict is in progress, on a queued resource that there is to clean up. */
  lemma FinishFacts(cfg: Config, r: Run, s: Sys, j: JobId, outcome: Outcome, missed: set<Mark>)
    requires Reaches(cfg, r, s) && CanBeginFinish(s, j, missed)
    requires outcome == Verdict(s.cloud.marks - missed, j, s.jobs[j].state.currentAttempt + 1)
    ensures s.jobs[j].state.status.Running? && !outcome.Undecided?
    ensures ToClean(cfg, s.jobs[j]) == s.jobs[j].state.currentQrName
  {
    hide Reaches, Verdict, Complete;
    CurrentFacts(cfg, r, s, j);
  }

  lemma IndexFacts(cfg: Config, r: Run, s: Sys, q: QrName)
    requires Reaches(cfg, r, s) && (q in s.index || q in s.cloud.qrs)
    ensures q in s.cloud.ledger && (q in s.index ==> s.cloud.ledger[q].job == s.index[q])
  {
    ReachedInv(cfg, r, s);
  }

  /** Only jobs on configured resources are ever tracked. */
  lemma TrackedResource(cfg: Config, r: Run, s: Sys, q: QrName)
    requires Reaches(cfg, r, s) && q in s.index && s.index[q] in s.jobs
    ensures ResourceOf(cfg, s.jobs[s.index[q]].spec).Some?
  {
    hide CloudInv, Owns;
    ReachedInv(cfg, r, s);
    assert JobInv(cfg, s, s.index[q]);
  }

  /** The entry is the current queued resource of an active job, and exists. */
  ghost predicate InOrder(w: Weather, s: Sys, q: QrName) {
    (w.reliable ==> Current(s, q)) && (w.reliable && w.quiet ==> q in s.cloud.qrs)
  }

  /** Polling one entry leaves the others as they are. */
  lemma StillInOrder(w: Weather, a: Sys, b: Sys, q: QrName, p: QrName)
    requires p != q && InOrder(w, a, p) && p in b.index && q in a.index && Calmed(w, a, b)
    requires b.index == a.index || b.index == a.index - {q}
    requires b.jobs.Keys == a.jobs.Keys && (forall i <- a.jobs :: i != a.index[q] ==> b.jobs[i] == a.jobs[i])
    requires a.index[q] in a.jobs && a.jobs[a.index[q]].state.currentQrName != Some(q) ==> b.jobs == a.jobs
    ensures InOrder(w, b, p)
  {
    hide Trim;
    if w.reliable && w.quiet { assert p !in Dead(a); }
  }

  lemma AllInOrder(w: Weather, s: Sys)
    requires s.pc.Idle? && w.reliable && forall q <- s.index :: InOrder(w, s, q)
    ensures Trim(s) && (w.quiet ==> Dead(s) == {})
  {
  }

  lemma CalmedStep(cfg: Config, w: Weather, s: Sys, l: Label)
    requires Inv(cfg, s) && Enabled(cfg, s, l) && !FromScan(l) && (w.reliable ==> Succeeds(l))
    requires w.reliable && w.quiet ==> l.BindWrite? && s.pc.Creating? ==> s.pc.made in s.cloud.qrs
    ensures Calmed(w, s, Apply(cfg, s, l))
  {
    hide Inv, Enabled, Apply, Trim, Dead, Succeeds, FromScan;
    if w.reliable && Trim(s) { StepTrim(cfg, s, l); }
    if w.reliable && w.quiet { StepCalm(cfg, s, l); }
  }

  /** Between two moments of the polling and completion phases: at most one record more per job, and a charged job is no longer active. */
  ghost predicate Charged(a: map<JobId, Job>, b: map<JobId, Job>) {
    b.Keys == a.Keys && forall j <- a :: ChargedJob(a[j], b[j])
  }

  ghost predicate ChargedJob(a: Job, b: Job) {
    && b.spec == a.spec && a.state.attempts <= b.state.attempts
    && |b.state.attempts| <= |a.state.attempts| + (if Active(a.state) && !Active(b.state) then 1 else 0)
    && (!Active(a.state) ==> b == a)
  }

  lemma ChargedOn(a: map<JobId, Job>, b: map<JobId, Job>, c: map<JobId, Job>)
    requires Charged(a, b) && Charged(b, c)
    ensures Charged(a, c)
  {
    forall j | j in a
      ensures ChargedJob(a[j], c[j])
    {
      assert ChargedJob(a[j], b[j]) && ChargedJob(b[j], c[j]);
    }
  }

  lemma CompletedOne(cfg: Config, a: map<JobId, Job>, b: map<JobId, Job>, j: JobId, outcome: Outcome)
    requires OnlyState(a, b, j) && FinishedTo(cfg, a[j], b[j], outcome) && AttemptTimes(a[j], b[j])
    ensures Completed(cfg, a, b)
  {
    hide FinishedTo, AttemptTimes;
  }

  lemma PolledCharged(a: map<JobId, Job>, b: map<JobId, Job>)
    requires Polled(a, b)
    ensures Charged(a, b)
  {
    hide ChargeText;
    forall j | j in a
      ensures ChargedJob(a[j], b[j])
    {
      assert PolledJob(a[j], b[j]);
    }
  }

  lemma CompletedCharged(cfg: Config, a: map<JobId, Job>, b: map<JobId, Job>)
    requires Completed(cfg, a, b)
    ensures Charged(a, b)
  {
    hide Reports;
    forall j | j in a
      ensures ChargedJob(a[j], b[j])
    {
      assert CompletedJob(cfg, a[j], b[j]);
    }
  }

  /** One job was polled: its state was noted, and then it was charged, activated or left as it is. */
  lemma PolledTo(a: map<JobId, Job>, b: map<JobId, Job>, c: map<JobId, Job>, j: JobId, charged: bool, error: string)
    requires OnlyState(a, b, j) && OnlyState(a, c, j) && Active(a[j].state) && a[j].state.currentQrName.Some?
    requires exists st, t :: b[j].state == a[j].state.(currentQrState := st, lastUpdated := t)
    requires charged ==> ChargeText(error) && ChargedTo(b[j], c[j], a[j].state.currentQrName.value, error) && AttemptTimes(b[j], c[j])
    requires !charged ==> c[j] == b[j] || ActivatedTo(b[j], c[j])
    ensures Polled(a, c)
    ensures charged ==> ChargedTo(a[j], c[j], a[j].state.currentQrName.value, error)
  {
    hide ChargeText;
    if charged { assert ChargedTo(a[j], c[j], a[j].state.currentQrName.value, error); }
    assert PolledJob(a[j], c[j]);
  }

  /** A moment of a pass: the labels so far and the state. */
  datatype Point = Point(pass: seq<Label>, sys: Sys)

  /** From `a` to `b`, steps were taken on behalf of these jobs only, and if undisturbed left things no less tidy. */
  ghost predicate Went(w: Weather, a: Point, b: Point, work: set<JobId>, drop: set<JobId>) {
    && Worked(b.pass) <= Worked(a.pass) + work && Dropped(b.pass) <= Dropped(a.pass) + drop
    && (Complete(a.sys) ==> Complete(b.sys))
    && Calmed(w, a.sys, b.sys)
  }

  lemma WentOn(w: Weather, a: Point, b: Point, c: Point, work: set<JobId>, drop: set<JobId>)
    requires Went(w, a, b, work, drop) && Went(w, b, c, work, drop)
    ensures Went(w, a, c, work, drop)
  {
  }

  lemma WentNowhere(w: Weather, a: Point, work: set<JobId>, drop: set<JobId>)
    ensures Went(w, a, a, work, drop)
  {
  }

  lemma WentMore(w: Weather, a: Point, b: Point, j: JobId, work: set<JobId>)
    requires Went(w, a, b, {j}, {}) && j in work
    ensures Went(w, a, b, work, {})
  {
  }

  lemma DropMore(w: Weather, a: Point, b: Point, j: JobId, drop: set<JobId>)
    requires Went(w, a, b, {}, {j}) && j in drop
    ensures Went(w, a, b, {}, drop)
  {
  }

  lemma MarksMove(cfg: Config, c: Cloud, d: Cloud)
    requires EnvRel(cfg, c, d)
    ensures c.marks.Keys <= d.marks.Keys
  {
  }

  /** Markers of other jobs stay. */
  ghost predicate MarksBut(c: Cloud, d: Cloud, j: JobId) {
    forall m <- c.marks :: m.job != j ==> m in d.marks
  }

  lemma MarksButOn(c: Cloud, d: Cloud, e: Cloud, j: JobId)
    requires MarksBut(c, d, j) && (MarksBut(d, e, j) || d.marks.Keys <= e.marks.Keys)
    ensures MarksBut(c, e, j)
  {
  }

  predicate CancelDue(job: Job, j: JobId, c: Cloud) {
    !Terminal(job.state.status) && Root(j, CancelMark) in c.marks
  }

  /** The markers the completion check may read. */
  function DecidingMarks(j: JobId, attempt: int): set<Mark> {
    {Scoped(j, attempt, ScopedSucceeded), Scoped(j, attempt, ScopedFailed), Scoped(j, attempt, StartupVersion),
     Root(j, RootSucceeded), Root(j, RootFailed)}
  }

  /** No verdict is without a marker that says so. */
  lemma VerdictWitness(marks: map<Mark, string>, missed: set<Mark>, j: JobId, attempt: int)
    ensures var v := Verdict(marks - missed, j, attempt);
            && (v.Won? ==> Scoped(j, attempt, ScopedSucceeded) in marks || Root(j, RootSucceeded) in marks)
            && (v.Lost? ==> MarkText(marks, Scoped(j, attempt, ScopedFailed)) == Some(v.text) || MarkText(marks, Root(j, RootFailed)) == Some(v.text))
    ensures missed == {} ==> Verdict(marks - missed, j, attempt) == Verdict(marks, j, attempt)
  {
    assert missed == {} ==> marks - missed == marks;
  }

  predicate OutcomeOpen(job: Job, j: JobId, c: Cloud) {
    job.state.status.Running? ==> Verdict(c.marks, j, job.state.currentAttempt + 1).Undecided?
  }

  lemma OpenFacts(job: Job, j: JobId, c: Cloud, d: Cloud)
    ensures (job.state.status.Running? ==> Verdict(d.marks, j, job.state.currentAttempt + 1).Undecided?) ==> OutcomeOpen(job, j, d)
    ensures c.marks == d.marks ==> forall i, other: Job :: OutcomeOpen(other, i, c) ==> OutcomeOpen(other, i, d)
  {
  }

  /** Jobs are unchanged or canceled. */
  ghost predicate CanceledSome(a: map<JobId, Job>, b: map<JobId, Job>) {
    b.Keys == a.Keys && forall j <- a :: b[j] == a[j] || CanceledTo(a[j], b[j])
  }

  /** Jobs are unchanged, or were failed and have been put back or merely re-stamped; no record is added. */
  ghost predicate RetriedSome(a: map<JobId, Job>, b: map<JobId, Job>) {
    b.Keys == a.Keys && forall j <- a :: RetriedJob(a[j], b[j])
  }

  ghost predicate RetriedJob(a: Job, b: Job) {
    b == a || RetriedTo(a, b)
  }

  lemma WentComplete(w: Weather, a: Point, b: Point, work: set<JobId>, drop: set<JobId>)
    requires Went(w, a, b, work, drop)
    ensures Complete(a.sys) ==> Complete(b.sys)
  {
  }

  predicate RetryDue(job: Job, j: JobId, c: Cloud) {
    job.state.status.Failed? && job.state.currentAttempt < job.spec.maxAttempts && Root(j, RetryMark) in c.marks
  }

  /** The machines behind an active queued resource are gone. */
  predicate VmGone(vm: TpuVmStatus) {
    vm.state.Some? && vm.state.value in {"PREEMPTED", "TERMINATED", "STOPPED", "DELETED", "FAILED"}
  }

  /** They are there, but not fit for use. */
  predicate VmUnhealthy(vm: TpuVmStatus) {
    !VmGone(vm) && vm.health.Some? && vm.health.value in {"TIMEOUT", "UNHEALTHY_MAINTENANCE"}
  }

  lemma MissingEvidence(cfg: Config, c: Cloud, j: JobId, s: JobState, q: QrName, r: ResourceConfig, answered: bool)
    requires answered ==> !Found(c, q, r)
    ensures Justified(cfg, c, j, s, q, r, QrMissing(answered))
  {
  }

  lemma SeenEvidence(cfg: Config, r: Run, s: Sys, q: QrName)
    requires Reaches(cfg, r, s) && q in s.cloud.qrs
    ensures Sighted(s.cloud, q, s.cloud.qrs[q].state)
  {
    ReachedInv(cfg, r, s);
  }

  lemma OnlyNothing(a: map<JobId, Job>, j: JobId)
    requires j in a
    ensures OnlyState(a, a, j)
  {
  }

  lemma LineupDistinct(jobs: map<JobId, Job>, only: Option<set<JobId>>, ids: seq<JobId>)
    requires Lineup(jobs, only, ids)
    ensures forall i, k :: 0 <= i < k < |ids| ==> ids[i] != ids[k]
  {
    hide KeyLe;
  }

  lemma TurnFacts(before: map<JobId, Job>, after: map<JobId, Job>, j: JobId, turn: Turn)
    requires OnlyState(before, after, j) && before[j].state.status.Pending?
    requires turn.Admitted? ==> GotQr(before[j], after[j])
    requires !turn.Admitted? ==> after == before
    ensures TurnTaken(before, after, j, turn)
  {
  }

  lemma ReapStep(cfg: Config, s: Sys, t: Sys, j: JobId, ok: bool)
    requires CanReap(s, j) && t == DoReap(s, j, ok)
    ensures Step(cfg, s, Reap(j, ok), t)
  {
    hide CanReap, DoReap;
  }

  predicate Expired(cfg: Config, st: JobState, cutoff: int) {
    && (st.status.Succeeded? || st.status.Failed? || st.status.Canceled?)
    && cfg.parseTime(st.lastUpdated).Some? && cfg.parseTime(st.lastUpdated).value < cutoff
  }

  predicate InZone(qr: Qr, key: (string, string)) {
    qr.project == key.0 && qr.zone == key.1
  }

  /** Every live queued resource with our prefix in these zones is tracked. */
  ghost predicate Swept(cfg: Config, s: Sys, zones: set<(string, string)>) {
    forall q <- s.cloud.qrs :: cfg.qrPrefix + "-" <= q && (s.cloud.qrs[q].project, s.cloud.qrs[q].zone) in zones ==> q in s.index
  }

  /** What is gone had our prefix, was not tracked, and lay in one of these zones. */
  ghost predicate OnlyOurs(cfg: Config, c: Cloud, d: Cloud, tracked: set<QrName>, zones: set<(string, string)>) {
    forall q <- c.qrs :: q in d.qrs || (cfg.qrPrefix + "-" <= q && q !in tracked && (c.qrs[q].project, c.qrs[q].zone) in zones)
  }

  /** No new queued resource, and none has moved to another zone. */
  ghost predicate SameZones(c: Cloud, d: Cloud) {
    forall q <- d.qrs :: q in c.qrs && d.qrs[q].project == c.qrs[q].project && d.qrs[q].zone == c.qrs[q].zone
  }

  lemma OrphanStep(cfg: Config, s: Sys, t: Sys, q: QrName, ok: bool)
    requires s.pc.Idle? && Complete(s) && q !in s.index && q in s.cloud.ledger && t == Cleanup(s, q, ok)
    ensures Step(cfg, s, CleanOrphan(s.cloud.ledger[q].job, q, ok), t)
  {
    hide Complete, Cleanup;
  }

  lemma LoadStep(cfg: Config, s: Sys, t: Sys, j: JobId, now: string)
    requires CanLoad(s, j, now) && t == DoLoad(s, j, now)
    ensures Step(cfg, s, Load(j, now), t)
  {
    hide CanLoad, DoLoad;
  }

  lemma RefreshStep(cfg: Config, s: Sys, t: Sys, j: JobId)
    requires CanRefresh(s, j) && t == DoRefresh(s, j)
    ensures Step(cfg, s, Refresh(j), t)
  {
    hide CanRefresh, DoRefresh;
  }

  /** The same job; while nobody has worked on it, its record may have been written anew by the submitter. */
  ghost predicate SameJob(a: Job, b: Job) {
    b == a || (b.spec == a.spec && b.bucket == a.bucket && Blank(a.state) && Blank(b.state))
  }

  /** With one scheduler, memory already holds what a refresh reads. */
  lemma RefreshSame(cfg: Config, r: Run, s: Sys, j: JobId)
    requires Reaches(cfg, r, s) && s.pc.Idle? && j in s.jobs && j in s.cloud.status
    ensures SameJob(s.jobs[j], s.jobs[j].(state := s.cloud.status[j]))
    ensures Active(s.cloud.status[j]) ==> s.jobs[j].state == s.cloud.status[j]
  {
    hide CloudInv, Owns;
    ReachedInv(cfg, r, s);
    assert JobInv(cfg, s, j);
  }

  /** A loaded job's index entry is its current one. */
  lemma LoadTrim(s: Sys, j: JobId, now: string)
    requires Trim(s) && CanLoad(s, j, now)
    ensures Trim(DoLoad(s, j, now))
  {
    var t := DoLoad(s, j, now);
    forall q | q in t.index
      ensures Current(t, q)
    {
      if q in s.index { assert Current(s, q); }
    }
  }

  lemma LoadFacts(s: Sys, j: JobId, now: string)
    requires s.pc.Idle? && j in s.cloud.dirs && j !in s.jobs && now != ""
    ensures CanLoad(s, j, now) && Loaded(s.cloud, j, Job(s.cloud.dirs[j].spec, Stored(s.cloud, j, now), s.cloud.dirs[j].bucket))
    ensures Trim(s) ==> Trim(DoLoad(s, j, now))
  {
    if Trim(s) { LoadTrim(s, j, now); }
  }

  lemma DirsGrow(cfg: Config, c: Cloud, d: Cloud)
    requires EnvRel(cfg, c, d)
    ensures forall j <- c.dirs :: j in d.dirs && d.dirs[j] == c.dirs[j]
  {
  }

  /** What a scan has established once every directory listed in a configured bucket is in memory. */
  lemma ScanDone(cfg: Config, past: Run, was: Sys, r: Run, s: Sys)
    requires Reaches(cfg, past, was) && Reaches(cfg, r, s) && EnvRel(cfg, was.cloud, s.cloud)
    requires forall j <- was.cloud.dirs :: was.cloud.dirs[j].bucket in cfg.buckets ==> j in s.jobs
    ensures Complete(s) && was.cloud.dirs.Keys <= s.jobs.Keys
  {
    hide JobInv, Owns;
    ReachedInv(cfg, past, was);
    forall j | j in was.cloud.dirs
      ensures j in s.jobs
    {
      assert SpecOk(cfg, j, was.cloud.dirs[j]);
    }
  }

  /** `b` extends `a`. */
  ghost predicate Extends(a: map<JobId, Job>, b: map<JobId, Job>) {
    forall j <- a :: j in b && b[j] == a[j]
  }

  /** The same, but for records written anew by submitters. */
  ghost predicate Continues(a: map<JobId, Job>, b: map<JobId, Job>) {
    forall j <- a :: j in b && SameJob(a[j], b[j])
  }

  lemma ContinuesOn(a: map<JobId, Job>, b: map<JobId, Job>, c: map<JobId, Job>)
    requires (Extends(a, b) || Continues(a, b)) && Continues(b, c)
    ensures Continues(a, c)
  {
  }

  lemma ContinuesSpecs(a: map<JobId, Job>, b: map<JobId, Job>)
    requires Continues(a, b)
    ensures forall j <- a :: j in b && b[j].spec == a[j].spec
  {
  }

  lemma ContinuesNothing(a: map<JobId, Job>)
    ensures Continues(a, a)
  {
  }

  lemma ContinuesFacts(a: map<JobId, Job>, b: map<JobId, Job>)
    requires Continues(a, b) && b.Keys == a.Keys
    ensures forall j <- a :: b[j].spec == a[j].spec && b[j].state.status == a[j].state.status
  {
  }

  /** `endswith` */
  predicate EndsWith(s: string, end: string) {
    |end| <= |s| && s[|s| - |end|..] == end
  }

  /** A reference names a job by id, display name or the end of the job id. */
  ghost predicate Named(job: Job, j: JobId, ref: string) {
    ref == j || ref == job.spec.jobId || ref == job.spec.displayName || exists before :: job.spec.jobId == before + ref
  }

  lemma NamedIff(job: Job, j: JobId, ref: string)
    ensures Named(job, j, ref) <==> ref in {j, job.spec.jobId, job.spec.displayName} || EndsWith(job.spec.jobId, ref)
  {
    if EndsWith(job.spec.jobId, ref) {
      var n := |job.spec.jobId| - |ref|;
      assert job.spec.jobId == job.spec.jobId[..n] + ref;
    }
  }

  datatype RefError = NoSuchJob | Ambiguous

  // ---------- A whole pass ----------

  /** From `a` to `b`, no job was added, and each gained at most one attempt record. */
  ghost predicate Records(a: map<JobId, Job>, b: map<JobId, Job>) {
    forall j <- b :: j in a && RecordsJob(a[j], b[j])
  }

  ghost predicate RecordsJob(a: Job, b: Job) {
    b.spec == a.spec && a.state.attempts <= b.state.attempts && |b.state.attempts| <= |a.state.attempts| + 1
  }

  /** The five phases in turn: at most one record per job, and a cancellation stands. */
  lemma PhasesOn(cfg: Config, a: map<JobId, Job>, b: map<JobId, Job>, c: map<JobId, Job>, d: map<JobId, Job>, e: map<JobId, Job>,
                 only: Option<set<JobId>>, ids: seq<JobId>, turns: seq<Turn>)
    requires CanceledSome(a, b) && Charged(b, c) && RetriedSome(c, d) && MidPass(cfg, d, e, only, ids, turns) && |turns| == |ids|
    ensures e.Keys == a.Keys && Records(a, e)
    ensures forall j <- a :: b[j].state.status.Canceled? ==> e[j] == b[j]
  {
    hide MidPass;
    ScheduledKeys(cfg, d, e, only, ids, turns);
    forall j | j in a
      ensures j in e && RecordsJob(a[j], e[j]) && (b[j].state.status.Canceled? ==> e[j] == b[j])
    {
      assert ChargedJob(b[j], c[j]) && RetriedJob(c[j], d[j]);
      ScheduledJob(cfg, d, e, only, ids, turns, j);
    }
  }

  lemma PhasesRecords(cfg: Config, a: map<JobId, Job>, b: map<JobId, Job>, c: map<JobId, Job>, d: map<JobId, Job>, e: map<JobId, Job>,
                      f: map<JobId, Job>, only: Option<set<JobId>>, ids: seq<JobId>, turns: seq<Turn>)
    requires CanceledSome(a, b) && Polled(b, c) && Completed(cfg, c, d) && RetriedSome(d, e)
    requires MidPass(cfg, e, f, only, ids, turns) && |turns| == |ids|
    ensures f.Keys == a.Keys && Records(a, f)
    ensures forall j <- a :: b[j].state.status.Canceled? ==> f[j] == b[j]
    ensures forall i :: 0 <= i < |ids| ==> ids[i] in e
  {
    hide CanceledSome, Polled, Completed, RetriedSome, MidPass, Charged, Records;
    PolledCharged(b, c);
    CompletedCharged(cfg, c, d);
    ChargedOn(b, c, d);
    PassIds(cfg, e, f, only, ids, turns);
    PhasesOn(cfg, a, b, d, e, f, only, ids, turns);
  }

  lemma ScheduledKeys(cfg: Config, d: map<JobId, Job>, e: map<JobId, Job>, only: Option<set<JobId>>, ids: seq<JobId>, turns: seq<Turn>)
    requires MidPass(cfg, d, e, only, ids, turns)
    ensures e.Keys == d.Keys
  {
    hide KeyLe, GreedyPass, MemUsage;
  }

  lemma ScheduledJob(cfg: Config, d: map<JobId, Job>, e: map<JobId, Job>, only: Option<set<JobId>>, ids: seq<JobId>, turns: seq<Turn>, j: JobId)
    requires MidPass(cfg, d, e, only, ids, turns) && |turns| == |ids| && j in d
    ensures e.Keys == d.Keys && (e[j] == d[j] || (d[j].state.status.Pending? && e[j].spec == d[j].spec && e[j].state.attempts == d[j].state.attempts))
  {
    hide KeyLe, GreedyPass, MemUsage;
    assert ids[..|turns|] == ids;
    if j in ids {
      var i :| 0 <= i < |ids| && ids[i] == j;
      assert TurnDone(d, e, j, turns[i]);
    }
  }

  /** Every live queued resource of ours is the current one of a durably active job. */
  ghost predicate NoOrphans(cfg: Config, c: Cloud) {
    forall q <- c.qrs :: cfg.qrPrefix + "-" <= q && (c.qrs[q].project, c.qrs[q].zone) in Zones(cfg) ==> Held(c, q)
  }

  /** The live queued resources of ours are exactly those of the durably active jobs. */
  ghost predicate Recovered(cfg: Config, c: Cloud) {
    && NoOrphans(cfg, c)
    && (forall j <- c.status :: Active(c.status[j]) ==> c.status[j].currentQrName.Some? && c.status[j].currentQrName.value in c.qrs)
  }

  function Zones(cfg: Config): set<(string, string)> {
    set n | n in cfg.resources :: (cfg.resources[n].project, cfg.resources[n].zone)
  }

  /** Every live queued resource carries the prefix and was made in a configured zone, so the orphan sweep can find it. */
  ghost predicate Findable(cfg: Config, c: Cloud) {
    forall q <- c.qrs :: cfg.qrPrefix + "-" <= q && q in c.ledger && (c.ledger[q].resource.project, c.ledger[q].resource.zone) in Zones(cfg)
  }

  lemma CreateFindable(cfg: Config, s: Sys, l: Label)
    requires Enabled(cfg, s, l) && l.CreateOk? && Findable(cfg, s.cloud)
    ensures Findable(cfg, Apply(cfg, s, l).cloud)
  {
    hide MemUsage, Within, Complete;
    assert s.jobs[l.job].spec.resources.resourceName in cfg.resources;
  }

  /** The scheduler creates no other, and the environment none at all. */
  lemma {:induction false} StaysFindable(cfg: Config, r: Run, i: nat, k: nat)
    requires GoodRun(cfg, r) && i <= k < |r.states| && Findable(cfg, r.states[i].cloud)
    ensures Findable(cfg, r.states[k].cloud)
    decreases k - i
  {
    hide Inv, Enabled, Apply, Zones;
    if i < k {
      StaysFindable(cfg, r, i, k - 1);
      var s, l := r.states[k - 1], r.labels[k - 1];
      assert Step(cfg, s, l, r.states[k]);
      if l.CreateOk? { CreateFindable(cfg, s, l); } else { StepFewer(cfg, s, l); }
    }
  }

  lemma PassFindable(cfg: Config, start: Run, was: Sys, run: Run, s: Sys, pass: seq<Label>, w: Weather)
    requires Reaches(cfg, start, was) && Reaches(cfg, run, s) && Passed(start, run, pass, w) && Findable(cfg, was.cloud)
    ensures Findable(cfg, s.cloud)
  {
    hide Reaches, Passed, GoodRun, Findable;
    PassStretch(cfg, start, was, run, s, pass, w);
    StaysFindable(cfg, run, |start.labels|, |run.labels|);
  }

  /** At rest, when what can be found is all there is, no orphan means nothing stranded. */
  lemma TidyNow(cfg: Config, s: Sys)
    requires Inv(cfg, s) && s.pc.Idle? && Findable(cfg, s.cloud) && NoOrphans(cfg, s.cloud)
    ensures Tidy(s)
  {
    hide JobInv, Owns, SpecOk;
    forall q | q in s.cloud.qrs
      ensures Kept(s, q)
    {
      assert Held(s.cloud, q);
    }
  }

  lemma NoOrphansNow(cfg: Config, r: Run, s: Sys)
    requires Reaches(cfg, r, s) && s.pc.Idle? && Trim(s) && Swept(cfg, s, Zones(cfg))
    ensures NoOrphans(cfg, s.cloud)
  {
    hide Owns, CloudInv;
    ReachedInv(cfg, r, s);
    forall q | q in s.index
      ensures Held(s.cloud, q)
    {
      assert Current(s, q);
      assert JobInv(cfg, s, s.index[q]);
    }
  }

  lemma RecoveredNow(cfg: Config, r: Run, s: Sys)
    requires Reaches(cfg, r, s) && s.pc.Idle? && Complete(s) && Dead(s) == {} && NoOrphans(cfg, s.cloud)
    ensures Recovered(cfg, s.cloud)
  {
    hide NoOrphans, Reaches;
    forall j | j in s.cloud.status && Active(s.cloud.status[j])
      ensures s.cloud.status[j].currentQrName.Some? && s.cloud.status[j].currentQrName.value in s.cloud.qrs
    {
      CurrentFacts(cfg, r, s, j);
      RefreshSame(cfg, r, s, j);
      var q := s.cloud.status[j].currentQrName.value;
      assert q !in Dead(s);
    }
  }

  predicate InScope(scope: Option<set<JobId>>, j: JobId) {
    scope.None? || j in scope.value
  }

  /** A pass in its phases: the state after each, the scopes it ran with, and the turns of its scheduling. */
  datatype Trail = Trail(scanned: Sys, canceled: Sys, polled: Sys, completed: Sys, retried: Sys, scheduled: Sys,
                         scope: Option<set<JobId>>, cancelScope: Option<set<JobId>>, ids: seq<JobId>, turns: seq<Turn>)

  /** Each phase did its part, in this order. */
  ghost predicate Phased(cfg: Config, w: Weather, t: Trail) {
    && CancelPhase(w, t.scanned, t.canceled, t.cancelScope)
    && PollPhase(w, t.canceled, t.polled, t.scope)
    && CompletePhase(cfg, w, t.polled, t.completed, t.scope)
    && RetryPhase(w, t.completed, t.retried, t.scope)
    && SchedulePhase(cfg, t.retried, t.scheduled, t.scope, t.ids, t.turns)
  }

  ghost predicate CancelPhase(w: Weather, a: Sys, b: Sys, scope: Option<set<JobId>>) {
    && CanceledSome(a.jobs, b.jobs)
    && (w.reliable ==> forall j <- a.jobs :: CancelDue(a.jobs[j], j, a.cloud) && InScope(scope, j) ==> b.jobs[j].state.status.Canceled?)
  }

  ghost predicate PollPhase(w: Weather, a: Sys, b: Sys, scope: Option<set<JobId>>) {
    Polled(a.jobs, b.jobs) && forall q <- b.index :: InScope(scope, b.index[q]) ==> InOrder(w, b, q)
  }

  ghost predicate CompletePhase(cfg: Config, w: Weather, a: Sys, b: Sys, scope: Option<set<JobId>>) {
    && Completed(cfg, a.jobs, b.jobs)
    && (w.reliable && w.quiet ==> forall j <- a.jobs :: InScope(scope, j) ==> Judged(cfg, a.cloud.marks, j, a.jobs[j], b.jobs[j]))
    && (w.reliable && w.quiet ==> forall j <- b.jobs :: InScope(scope, j) ==> OutcomeOpen(b.jobs[j], j, b.cloud))
  }

  ghost predicate RetryPhase(w: Weather, a: Sys, b: Sys, scope: Option<set<JobId>>) {
    && RetriedSome(a.jobs, b.jobs)
    && (w.reliable ==> forall j <- a.jobs :: RetryDue(a.jobs[j], j, a.cloud) && InScope(scope, j) ==> b.jobs[j].state.status.Pending?)
  }

  ghost predicate SchedulePhase(cfg: Config, a: Sys, b: Sys, scope: Option<set<JobId>>, ids: seq<JobId>, turns: seq<Turn>) {
    && MidPass(cfg, a.jobs, b.jobs, scope, ids, turns) && |turns| == |ids| && Ordered(a.jobs, ids)
    && (forall i {:trigger turns[i]} :: 0 <= i < |turns| && turns[i].Unfit? ==> ids[i] in a.jobs && !Admissible(cfg, b.jobs, a.jobs[ids[i]].spec))
  }

  /** The scopes a pass runs with under a focus. */
  ghost predicate ScopesOk(focusJob: Option<string>, focusUser: Option<string>, t: Trail) {
    if Truthy(focusJob) then
      exists j <- t.scanned.jobs :: Named(t.scanned.jobs[j], j, focusJob.value) && t.scope == Some({j}) && t.cancelScope == Some({j})
    else if Truthy(focusUser) then
      && t.scope == Some(set j | j in t.scanned.jobs && t.scanned.jobs[j].spec.submittedBy == focusUser.value)
      && t.cancelScope == Some(t.scope.value + set j | j in t.scanned.jobs && !Terminal(t.scanned.jobs[j].state.status))
    else
      t.scope.None? && t.cancelScope.None?
  }

  lemma PassIds(cfg: Config, a: map<JobId, Job>, b: map<JobId, Job>, scope: Option<set<JobId>>, ids: seq<JobId>, turns: seq<Turn>)
    requires MidPass(cfg, a, b, scope, ids, turns)
    ensures forall i :: 0 <= i < |ids| ==> ids[i] in a
  {
    hide Lineup, Scheduled, GreedyPass, MemUsage;
  }

  /** The jobs of `a` that did not finish before `cutoff`. */
  function Unexpired(cfg: Config, a: map<JobId, Job>, cutoff: int): map<JobId, Job> {
    map j | j in a && !Expired(cfg, a[j].state, cutoff) :: a[j]
  }

  /** What reaping leaves: the jobs that are not finished before some moment a retention period ago. */
  ghost predicate Retained(cfg: Config, a: map<JobId, Job>, b: map<JobId, Job>, from: int, to: int) {
    exists cutoff :: from <= cutoff <= to && b == Unexpired(cfg, a, cutoff)
  }

  lemma RetainedWider(cfg: Config, a: map<JobId, Job>, b: map<JobId, Job>, from: int, earlier: int, to: int)
    requires Retained(cfg, a, b, from, to) && earlier <= from
    ensures Retained(cfg, a, b, earlier, to)
  {
    hide Expired;
  }

  lemma RetainedLonger(cfg: Config, a: map<JobId, Job>, b: map<JobId, Job>, from: int, to: int, later: int)
    requires Retained(cfg, a, b, from, to) && to <= later
    ensures Retained(cfg, a, b, from, later)
  {
    hide Expired;
  }

  lemma NoWork()
    ensures Worked([]) == {} && Dropped([]) == {}
  {
  }

  lemma RetainedRecords(cfg: Config, a: map<JobId, Job>, b: map<JobId, Job>, c: map<JobId, Job>, from: int, to: int)
    requires Records(a, b) && Retained(cfg, b, c, from, to)
    ensures Records(a, c) && forall j <- c :: j in b && c[j] == b[j]
  {
    hide RecordsJob, Expired;
  }

  lemma WentBound(w: Weather, a: Point, b: Point, work: set<JobId>, drop: set<JobId>)
    requires Went(w, a, b, work, drop) && Worked(a.pass) == {} && Dropped(a.pass) == {}
    ensures Worked(b.pass) <= work && Dropped(b.pass) <= drop
  {
  }

  lemma DueLater(cfg: Config, c: Cloud, d: Cloud)
    requires EnvRel(cfg, c, d)
    ensures forall job: Job, j :: CancelDue(job, j, c) ==> CancelDue(job, j, d)
    ensures forall job: Job, j :: CancelDue(job, j, c) ==> !Terminal(job.state.status)
  {
  }

  /** Whatever of `a` was to be cancelled as the markers of `c` had it, is. */
  ghost predicate CancelsHonoured(c: Cloud, a: map<JobId, Job>, b: map<JobId, Job>) {
    forall j <- a :: CancelDue(a[j], j, c) ==> j !in b || b[j].state.status.Canceled?
  }

  /** Markers do not go away by themselves. */
  lemma HonouredEarlier(cfg: Config, c: Cloud, d: Cloud, a: map<JobId, Job>, b: map<JobId, Job>)
    requires EnvRel(cfg, c, d) && CancelsHonoured(d, a, b)
    ensures CancelsHonoured(c, a, b)
  {
    hide EnvRel, CancelDue;
    DueLater(cfg, c, d);
  }

  lemma AfterSweep(cfg: Config, w: Weather, r: Run, a: Sys, s: Sys, swept: bool)
    requires Reaches(cfg, r, s) && s.pc.Idle? && Complete(s) && w.reliable && Trim(a) && (w.quiet ==> Dead(a) == {}) && Calmed(w, a, s)
    requires swept ==> Swept(cfg, s, Zones(cfg))
    ensures Trim(s) && (swept ==> NoOrphans(cfg, s.cloud)) && (swept && w.quiet ==> Recovered(cfg, s.cloud))
  {
    hide Reaches, Passed, Complete, Trim, Swept, NoOrphans, Recovered, Dead;
    CalmTrim(w, a, s);
    if swept {
      NoOrphansNow(cfg, r, s);
      if w.quiet { RecoveredNow(cfg, r, s); }
    }
  }

  datatype RunError = BothFocuses | BadReference(why: RefError)

  lemma WentCalm(w: Weather, a: Point, b: Point, work: set<JobId>, drop: set<JobId>)
    requires Went(w, a, b, work, drop)
    ensures Calmed(w, a.sys, b.sys)
  {
  }

  lemma WentScope(w: Weather, a: Point, b: Point, work: set<JobId>, drop: set<JobId>, moreWork: set<JobId>, moreDrop: set<JobId>)
    requires Went(w, a, b, work, drop) && work <= moreWork && drop <= moreDrop
    ensures Went(w, a, b, moreWork, moreDrop)
  {
  }

  /** Five phases: one that only drops, and four that only work. */
  lemma PhasesWent(w: Weather, a: Point, b: Point, c: Point, d: Point, e: Point, f: Point, work: set<JobId>, drop: set<JobId>)
    requires Went(w, a, b, {}, drop)
    requires Went(w, b, c, work, {}) && Went(w, c, d, work, {}) && Went(w, d, e, work, {}) && Went(w, e, f, work, {})
    ensures Went(w, a, f, work, drop)
  {
    hide Went;
    WentOn(w, b, c, d, work, {});
    WentOn(w, b, d, e, work, {});
    WentOn(w, b, e, f, work, {});
    WentScope(w, b, f, work, {}, work, drop);
    WentScope(w, a, b, {}, drop, work, drop);
    WentOn(w, a, b, f, work, drop);
  }

  /** Undisturbed, none of the five leaves things less tidy. */
  lemma PhasesCalm(w: Weather, a: Point, b: Point, c: Point, d: Point, e: Point, f: Point, scope: Option<set<JobId>>, drop: set<JobId>,
                   c0: set<JobId>, d0: set<JobId>, e0: set<JobId>)
    requires Went(w, a, b, {}, drop) && Calmed(w, b.sys, c.sys)
    requires Went(w, c, d, if scope.Some? then scope.value else c0, {}) && Went(w, d, e, if scope.Some? then scope.value else d0, {})
    requires Went(w, e, f, if scope.Some? then scope.value else e0, {})
    ensures Calmed(w, a.sys, f.sys)
    ensures w.reliable && Trim(c.sys) ==> Trim(f.sys) && (w.quiet && Dead(c.sys) == {} ==> Dead(f.sys) == {})
  {
    hide Trim, Dead, Worked, Dropped, Complete;
    CalmPath(w, a.sys, b.sys, c.sys, d.sys, e.sys, f.sys);
    if w.reliable && Trim(c.sys) { CalmTrim(w, c.sys, f.sys); }
  }

  /** `t` is `s` after the record of `j` was set to `st` in memory and written. */
  ghost predicate Wrote(s: Sys, t: Sys, j: JobId, st: JobState) {
    j in s.jobs && t.jobs == s.jobs[j := s.jobs[j].(state := st)] && t.cloud == s.cloud.(status := s.cloud.status[j := st])
  }

  lemma CancelStep(cfg: Config, s: Sys, t: Sys, j: JobId, now: string)
    requires CanCancelWrite(s, j, now) && Wrote(s, t, j, CanceledState(s.jobs[j].state).(lastUpdated := now))
    requires t.index == s.index && t.pc.Idle?
    ensures Step(cfg, s, CancelWrite(j, now), t)
  {
    hide CanceledState;
  }

  lemma NoteStep(cfg: Config, s: Sys, t: Sys, j: JobId, st: QRState, now: string)
    requires CanNoteQr(s, j, now) && Wrote(s, t, j, s.jobs[j].state.(currentQrState := Some(st), lastUpdated := now))
    requires t.index == s.index && t.pc.Idle?
    ensures Step(cfg, s, NoteQr(j, st, now), t)
  {
  }

  lemma RetryStep(cfg: Config, s: Sys, t: Sys, j: JobId, now: string)
    requires CanRetryWrite(s, j, now)
    requires Wrote(s, t, j, (if s.jobs[j].state.currentAttempt >= s.jobs[j].spec.maxAttempts then s.jobs[j].state else Retried(s.jobs[j].state)).(lastUpdated := now))
    requires t.index == s.index && t.pc.Idle?
    ensures Step(cfg, s, RetryWrite(j, now), t)
  {
    hide Retried;
  }

  lemma BindStep(cfg: Config, s: Sys, t: Sys, j: JobId, now: string)
    requires CanBind(s, j, now) && Wrote(s, t, j, Provisioned(s.jobs[j].state, s.pc.made).(lastUpdated := now))
    requires t.index == s.index[s.pc.made := j] && t.pc.Idle?
    ensures Step(cfg, s, BindWrite(j, now), t)
  {
    hide Provisioned;
  }

  lemma PreemptStep(cfg: Config, s: Sys, t: Sys, j: JobId, why: Observation, now: string)
    requires CanBeginPreempt(cfg, s, j, why)
    requires t == DoBeginPreempt(s, j, why, now)
    ensures Step(cfg, s, BeginPreempt(j, why, now), t)
  {
    hide CanBeginPreempt, DoBeginPreempt;
  }

  lemma ActivateStep(cfg: Config, s: Sys, t: Sys, j: JobId, now: string)
    requires CanBeginActivate(cfg, s, j, now) && t == DoBeginActivate(s, j, now)
    ensures Step(cfg, s, BeginActivate(j, now), t)
  {
    hide CanBeginActivate, DoBeginActivate;
  }

  lemma FlushStep(cfg: Config, s: Sys, t: Sys, j: JobId, now: string)
    requires j in s.jobs && now != "" && Wrote(s, t, j, s.jobs[j].state.(lastUpdated := now)) && t.index == s.index
    requires Dirty(s.pc) && s.pc.job == j && (s.pc.Preempting? ==> s.pc.qr.None?)
    requires t.pc == if s.pc.Finishing? && s.pc.qr.Some? then Cleaning(j, s.pc.qr.value) else Idle
    ensures Step(cfg, s, FlushLabel(s.pc, j, now), t)
  {
  }

  function FlushLabel(pc: Pc, j: JobId, now: string): Label {
    if pc.Preempting? then PreemptWrite(j, now) else if pc.Activating? then ActivateWrite(j, now) else FinishWrite(j, now)
  }

  lemma CreateStep(cfg: Config, s: Sys, t: Sys, j: JobId, q: QrName)
    requires CanCreate(cfg, s, j, q) && ResourceOf(cfg, s.jobs[j].spec).Some? && t == DoCreate(cfg, s, j, q)
    ensures Step(cfg, s, CreateOk(j, q), t)
  {
    hide CanCreate, DoCreate;
  }

  lemma CreateFailStep(cfg: Config, s: Sys, j: JobId)
    requires Ready(s, j)
    ensures Step(cfg, s, CreateFail(j), s)
  {
    hide Ready;
  }

  lemma FinishStep(cfg: Config, s: Sys, t: Sys, j: JobId, now: string, missed: set<Mark>)
    requires CanBeginFinish(s, j, missed)
    requires t == DoBeginFinish(cfg, s, j, now, missed)
    ensures Step(cfg, s, BeginFinish(j, now, missed), t)
  {
    hide CanBeginFinish, DoBeginFinish;
  }

  /**
   Since `start` the run has gained exactly the labels of this pass, none of them a restart. With reliable calls
   none was a failed deletion, and if nothing else moved none was a move of the environment.
   */
  ghost predicate Passed(start: Run, run: Run, pass: seq<Label>, w: Weather) {
    && |start.states| == |start.labels| + 1
    && |run.states| == |start.states| + |pass| && start.states <= run.states && run.labels == start.labels + pass
    && (forall l <- pass :: AsExpected(w, l))
  }

  predicate AsExpected(w: Weather, l: Label) {
    !l.Crash? && (w.reliable ==> Succeeds(l)) && (w.quiet ==> !l.Env?)
  }

  lemma PassedOn(start: Run, run: Run, pass: seq<Label>, w: Weather, l: Label, t: Sys)
    requires Passed(start, run, pass, w) && AsExpected(w, l)
    ensures Passed(start, Extend(run, l, t), pass + [l], w)
  {
    hide AsExpected;
  }

  lemma ScannedSpecs(cfg: Config, run: Run, s: Sys, c: Cloud)
    requires Reaches(cfg, run, s) && s.pc.Idle? && EnvRel(cfg, c, s.cloud)
    ensures forall j <- c.dirs :: j in s.jobs ==> s.jobs[j].spec == c.dirs[j].spec
  {
    hide Inv, Alike;
    ReachedInv(cfg, run, s);
    AtRestMirrors(cfg, s);
  }

  lemma PassBegins(cfg: Config, run: Run, s: Sys, w: Weather)
    requires Reaches(cfg, run, s)
    ensures Passed(run, run, [], w)
  {
    hide Inv, Step;
  }

  lemma PassStretch(cfg: Config, start: Run, was: Sys, run: Run, s: Sys, pass: seq<Label>, w: Weather)
    requires Reaches(cfg, start, was) && Reaches(cfg, run, s) && Passed(start, run, pass, w)
    ensures GoodRun(cfg, run) && |start.labels| <= |run.labels| < |run.states| && run.labels[|start.labels|..|run.labels|] == pass
    ensures run.states[|start.labels|] == was && run.states[|run.labels|] == s
    ensures (forall l <- pass :: !l.Crash?) && (w.quiet ==> forall l <- pass :: !l.Env?) && (w.reliable ==> Undamaged(pass))
  {
    hide Inv, Step;
  }

  /** From the end of `start` to the end of `run`, only the environment changed anything outside the process. */
  ghost predicate LeftToItself(w: Weather, start: Run, run: Run, c: Cloud, d: Cloud) {
    && |start.labels| <= |run.labels| && |run.states| == |run.labels| + 1
    && OnlyEnvMoves(run, |start.labels|, |run.labels|) && (w.quiet ==> d == c)
  }

  /** A pass that acted for nobody changed nothing outside the process. */
  lemma PassIdle(cfg: Config, start: Run, was: Sys, run: Run, s: Sys, pass: seq<Label>, w: Weather)
    requires Reaches(cfg, start, was) && Reaches(cfg, run, s) && Passed(start, run, pass, w)
    requires Worked(pass) == {} && Dropped(pass) == {}
    ensures EnvRel(cfg, was.cloud, s.cloud) && LeftToItself(w, start, run, was.cloud, s.cloud)
  {
    hide Reaches, Passed, GoodRun, EnvRel, Worked, Dropped;
    PassStretch(cfg, start, was, run, s, pass, w);
    RunShape(cfg, run, s);
    NothingDone(cfg, run, |start.labels|, |run.labels|);
  }

  /** From the end of `start` to the end of `run`, only the environment changed or took a queued resource made for the job. */
  ghost predicate OnlyEnvTakes(start: Run, run: Run, j: JobId) {
    |start.labels| <= |run.labels| && |run.states| == |run.labels| + 1 && Spared(run, j, |start.labels|, |run.labels|)
  }

  /** What a pass leaves alone of a job it neither works on nor cancels: its record, and its queued resources as far as the scheduler goes. */
  ghost predicate LeftAlone(w: Weather, start: Run, run: Run, c: Cloud, d: Cloud, j: JobId) {
    && Untouched(c, d, j)
    && OnlyEnvTakes(start, run, j) && (w.quiet ==> SameQrs(c, d, j))
  }

  /** Since `start` the job's cancel marker was there; if nothing else moved, it was there all along. */
  ghost predicate Asked(w: Weather, start: Run, run: Run, c: Cloud, j: JobId) {
    && |start.labels| <= |run.labels| && |run.states| == |run.labels| + 1
    && AskedToCancel(run, j, |start.labels|, |run.labels|) && (w.quiet ==> Root(j, CancelMark) in c.marks)
  }

  lemma AskedSince(cfg: Config, start: Run, was: Sys, run: Run, s: Sys, pass: seq<Label>, w: Weather, j: JobId)
    requires Reaches(cfg, start, was) && Reaches(cfg, run, s) && Passed(start, run, pass, w)
    requires |start.labels| <= |run.labels| < |run.states| && AskedToCancel(run, j, |start.labels|, |run.labels|)
    ensures Asked(w, start, run, was.cloud, j)
  {
    hide Reaches, Passed, GoodRun;
    PassStretch(cfg, start, was, run, s, pass, w);
    RunShape(cfg, run, s);
    var i, k := |start.labels|, |run.labels|;
    if w.quiet {
      var n :| i <= n < k && Root(j, CancelMark) in run.states[n].cloud.marks;
      forall m {:trigger run.labels[m]} | i <= m < n
        ensures !run.labels[m].Env?
      {
        assert run.labels[i..k][m - i] == run.labels[m];
      }
      AskedBefore(cfg, run, j, i, n);
    }
  }

  /** What it leaves alone of a job it may cancel, if that job's marker asks for it. */
  ghost predicate OnlyCanceled(w: Weather, start: Run, run: Run, c: Cloud, d: Cloud, j: JobId) {
    && Unborn(c, d, j)
    && (SameRecord(c, d, j) || (Record(d, j).status.Canceled? && Record(d, j).attempts == Record(c, j).attempts && Asked(w, start, run, c, j)))
    && ((Record(d, j).status.Canceled? && Asked(w, start, run, c, j)) || (OnlyEnvTakes(start, run, j) && (w.quiet ==> SameQrs(c, d, j))))
  }

  /** Jobs a pass did not act for. */
  lemma PassElsewhere(cfg: Config, start: Run, was: Sys, run: Run, s: Sys, pass: seq<Label>, w: Weather)
    requires Reaches(cfg, start, was) && Reaches(cfg, run, s) && s.pc.Idle? && Passed(start, run, pass, w)
    ensures forall j <- was.cloud.dirs :: j !in Worked(pass) && j !in Dropped(pass) ==> LeftAlone(w, start, run, was.cloud, s.cloud, j)
    ensures forall j <- was.cloud.dirs :: j !in Worked(pass) ==> OnlyCanceled(w, start, run, was.cloud, s.cloud, j)
  {
    hide Reaches, Passed, GoodRun, Worked, Dropped, Untouched, Unborn, Spared, SameQrs, SameRecord, Record, AskedToCancel, Asked;
    PassStretch(cfg, start, was, run, s, pass, w);
    var i, k := |start.labels|, |run.labels|;
    assert |run.states| == k + 1 by { RunShape(cfg, run, s); }
    forall j | j in was.cloud.dirs && j !in Worked(pass)
      ensures OnlyCanceled(w, start, run, was.cloud, s.cloud, j)
      ensures j !in Dropped(pass) ==> LeftAlone(w, start, run, was.cloud, s.cloud, j)
    {
      OthersOnlyCanceled(cfg, run, j, i, k);
      SparedOrCanceled(cfg, run, j, i, k);
      if AskedToCancel(run, j, i, k) { AskedSince(cfg, start, was, run, s, pass, w, j); }
      if j !in Dropped(pass) { OthersUntouched(cfg, run, j, i, k); }
      if w.quiet && Spared(run, j, i, k) { SparedQuiet(run, j, i, k); }
    }
  }

  /** What a pass that works for `work` and cancels no more than `drop` leaves of the others, seen from its start. */
  ghost predicate OthersLeft(w: Weather, start: Run, run: Run, d: Cloud, work: set<JobId>, drop: set<JobId>) {
    && |start.states| > 0
    && (forall j <- Last(start).cloud.dirs :: j !in work && j !in drop ==> LeftAlone(w, start, run, Last(start).cloud, d, j))
    && (forall j <- Last(start).cloud.dirs :: j !in work ==> OnlyCanceled(w, start, run, Last(start).cloud, d, j))
  }

  lemma PassOthers(cfg: Config, start: Run, run: Run, s: Sys, pass: seq<Label>, w: Weather, work: set<JobId>, drop: set<JobId>)
    requires Reaches(cfg, run, s) && s.pc.Idle? && Passed(start, run, pass, w) && Worked(pass) <= work && Dropped(pass) <= drop
    ensures OthersLeft(w, start, run, s.cloud, work, drop)
  {
    hide Passed, LeftAlone, OnlyCanceled, Worked, Dropped;
    StartGood(cfg, start, run, s, pass, w);
    PassElsewhere(cfg, start, Last(start), run, s, pass, w);
  }

  lemma StartGood(cfg: Config, start: Run, run: Run, s: Sys, pass: seq<Label>, w: Weather)
    requires Reaches(cfg, run, s) && Passed(start, run, pass, w)
    ensures |start.states| > 0 && Reaches(cfg, start, Last(start))
  {
    hide Inv, Step, AsExpected;
    forall i | 0 <= i < |start.labels|
      ensures Step(cfg, start.states[i], start.labels[i], start.states[i + 1])
    {
      assert run.labels[i] == start.labels[i] && run.states[i] == start.states[i] && run.states[i + 1] == start.states[i + 1];
    }
  }

  lemma RunShape(cfg: Config, run: Run, s: Sys)
    requires Reaches(cfg, run, s)
    ensures |run.states| == |run.labels| + 1
  {
    hide Inv, Step;
  }

  ghost predicate WithinQuota(cfg: Config, c: Cloud, d: Cloud) {
    forall p: Pot :: NoMore(cfg, p, LiveUsage(c, p), LiveUsage(d, p))
  }

  lemma PassQuota(cfg: Config, start: Run, was: Sys, run: Run, s: Sys, pass: seq<Label>, w: Weather)
    requires Reaches(cfg, start, was) && Reaches(cfg, run, s) && Passed(start, run, pass, w) && w.reliable && Tidy(was)
    ensures Tidy(s) && WithinQuota(cfg, was.cloud, s.cloud)
  {
    hide Reaches, Passed, GoodRun, Tidy, LiveUsage, Within;
    PassStretch(cfg, start, was, run, s, pass, w);
    forall p: Pot
      ensures Tidy(s) && NoMore(cfg, p, LiveUsage(was.cloud, p), LiveUsage(s.cloud, p))
    {
      CloudQuota(cfg, run, |start.labels|, |run.labels|, p);
    }
    CloudQuota(cfg, run, |start.labels|, |run.labels|, Group(""));
  }

  /** `run` goes on from `past`. */
  ghost predicate Prolongs(past: Run, run: Run) {
    |past.states| > 0 && past.states <= run.states && past.labels <= run.labels
  }

  lemma ProlongsHere(run: Run)
    ensures |run.states| > 0 ==> Prolongs(run, run)
  {
  }

  lemma ProlongsOn(a: Run, b: Run, c: Run)
    requires Prolongs(a, b) && Prolongs(b, c)
    ensures Prolongs(a, c)
  {
  }

  lemma PassProlongs(start: Run, run: Run, pass: seq<Label>, w: Weather)
    requires Passed(start, run, pass, w)
    ensures Prolongs(start, run)
  {
    hide AsExpected;
  }

  /** The chips at the backend are within the larger of each limit and what was claimed in `s`. */
  ghost predicate ClaimsBound(cfg: Config, s: Sys, c: Cloud) {
    forall p: Pot :: NoMore(cfg, p, ClaimedChips(cfg, s, p), LiveUsage(c, p))
  }

  /** With nothing stranded, the chips at the backend are those of jobs with a claim. */
  lemma BoundByClaims(cfg: Config, past: Run, r: Run, s: Sys)
    requires Reaches(cfg, r, s) && Tidy(s) && Prolongs(past, r)
    ensures |past.states| > 0 && ClaimsBound(cfg, past.states[0], s.cloud)
  {
    hide Inv, Step, LiveUsage, ClaimedChips;
    ReachedInv(cfg, r, s);
    forall p: Pot
      ensures NoMore(cfg, p, ClaimedChips(cfg, past.states[0], p), LiveUsage(s.cloud, p))
    {
      StraysAreTheExcess(cfg, s, p);
      NoStrayChips(s, p);
      ClaimQuota(cfg, r, |r.labels|, p);
    }
  }

  lemma NoStrayChips(s: Sys, p: Pot)
    requires Tidy(s)
    ensures StrayChips(s, p) == 0
  {
    hide Kept;
    assert (set q | q in s.cloud.qrs && !Kept(s, q)) == {};
  }

  lemma QuotaStart(cfg: Config, c: Cloud)
    ensures WithinQuota(cfg, c, c)
  {
    hide LiveUsage, Within;
  }

  lemma QuotaOn(cfg: Config, c: Cloud, d: Cloud, e: Cloud)
    requires WithinQuota(cfg, c, d) && WithinQuota(cfg, d, e)
    ensures WithinQuota(cfg, c, e)
  {
    hide LiveUsage;
    forall p: Pot
      ensures NoMore(cfg, p, LiveUsage(c, p), LiveUsage(e, p))
    {
      assert NoMore(cfg, p, LiveUsage(c, p), LiveUsage(d, p)) && NoMore(cfg, p, LiveUsage(d, p), LiveUsage(e, p));
    }
  }

  lemma Numbered(cfg: Config, r: Run, s: Sys)
    requires Reaches(cfg, r, s)
    ensures forall j <- s.cloud.status, n :: 0 <= n < |s.cloud.status[j].attempts| ==> s.cloud.status[j].attempts[n].attempt == n + 1
  {
    hide JobInv, SpecOk;
    ReachedInv(cfg, r, s);
    forall j | j in s.cloud.status
      ensures WellFormed(s.cloud.status[j], s.cloud.dirs[j].spec.maxAttempts)
    {
      assert Owns(cfg, s.cloud, j, s.cloud.dirs[j].spec, s.cloud.status[j]);
    }
  }
}

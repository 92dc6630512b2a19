/** What happens to one job's durable record over a whole run, crashes included. */
module History {
  import opened Types
  import opened Lifecycle
  import opened Protocol
  import opened Invariant
  import opened Runs

  /** The durable record of a submitted job; before the first write it counts as new. */
  function Record(c: Cloud, j: JobId): JobState {
    if j in c.status then c.status[j] else NewState("")
  }

  /** The labels that write `status.json`. */
  predicate Writes(l: Label) {
    l.CancelWrite? || l.PreemptWrite? || l.ActivateWrite? || l.NoteQr? || l.FinishWrite? || l.RetryWrite? || l.BindWrite?
  }

  /** The labels that write a record with one attempt more. */
  predicate Resolves(l: Label) {
    l.PreemptWrite? || l.FinishWrite?
  }

  /** Records stay as they are; new ones are blank. */
  ghost predicate SameRecords(c: Cloud, d: Cloud) {
    && (forall j <- c.status :: j in d.status && d.status[j] == c.status[j])
    && (forall j <- d.status :: j in c.status || Blank(d.status[j]))
  }

  /** Records and directories are left alone, and a new directory has an id never used before. */
  ghost predicate Quiet(c: Cloud, d: Cloud) {
    && c.seen <= d.seen && SameRecords(c, d)
    && (forall j <- c.dirs :: j in d.dirs && d.dirs[j] == c.dirs[j])
    && (forall j <- d.dirs :: j in c.dirs || j !in c.seen)
  }

  lemma AttemptQuiet(cfg: Config, s: Sys, l: Label)
    requires Enabled(cfg, s, l) && OfAttempt(l) && !Writes(l)
    ensures Quiet(s.cloud, Apply(cfg, s, l).cloud)
  {
    hide CanBeginPreempt, Preempted, CanBeginActivate, Activated, CanBeginFinish, Finished, ToClean, Verdict;
  }

  lemma OtherQuiet(cfg: Config, s: Sys, l: Label)
    requires Enabled(cfg, s, l) && !OfAttempt(l) && !Writes(l) && !l.Reap?
    ensures Quiet(s.cloud, Apply(cfg, s, l).cloud)
  {
    hide CanLoad, CanRefresh, CanForget, CanClearRoot, CanCleanStale, CanCleanOrphan, CanCleanOwn, CanBeginCancel,
      CanBeginRetry, CanCreate, CanStamp, ToClean, Stored, Indexed;
  }

  /** What each write stores. */
  function Written(s: Sys, l: Label): JobState
    requires Writes(l) && l.job in s.jobs
    requires l.BindWrite? ==> s.pc.Creating?
  {
    var st := s.jobs[l.job].state;
    match l
    case CancelWrite(_, now) => CanceledState(st).(lastUpdated := now)
    case NoteQr(_, q, now) => st.(currentQrState := Some(q), lastUpdated := now)
    case RetryWrite(_, now) => (if st.currentAttempt >= s.jobs[l.job].spec.maxAttempts then st else Retried(st)).(lastUpdated := now)
    case BindWrite(_, now) => Provisioned(st, s.pc.made).(lastUpdated := now)
    case _ => st.(lastUpdated := l.now)
  }

  lemma WriteEffect(cfg: Config, s: Sys, l: Label)
    requires Enabled(cfg, s, l) && Writes(l)
    ensures l.job in s.jobs && (l.BindWrite? ==> s.pc.Creating?) && (l.FinishWrite? ==> s.pc.Finishing?)
    ensures Apply(cfg, s, l).cloud == s.cloud.(status := s.cloud.status[l.job := Written(s, l)])
    ensures Apply(cfg, s, l).jobs == s.jobs[l.job := s.jobs[l.job].(state := Written(s, l))]
    ensures Apply(cfg, s, l).pc == if l.FinishWrite? && s.pc.qr.Some? then Cleaning(l.job, s.pc.qr.value) else Idle
  {
    hide CanceledState, Provisioned, Retried, Complete;
  }

  /** The part of a record that decides how it may go on. */
  ghost predicate Alike(a: JobState, b: JobState) {
    a.status == b.status && a.currentAttempt == b.currentAttempt && a.attempts == b.attempts && a.currentQrName == b.currentQrName
  }

  lemma AlikeProgress(a: JobState, b: JobState, c: JobState, maxAttempts: int)
    requires Alike(a, b) && Progress(b, c, maxAttempts)
    ensures Progress(a, c, maxAttempts)
  {
  }

  lemma MemoryAlike(cfg: Config, s: Sys, j: JobId)
    requires Inv(cfg, s) && j in s.jobs && !(Dirty(s.pc) && s.pc.job == j)
    ensures j in s.cloud.dirs && s.jobs[j].spec == s.cloud.dirs[j].spec
    ensures WellFormed(s.jobs[j].state, s.jobs[j].spec.maxAttempts) && Alike(Record(s.cloud, j), s.jobs[j].state)
  {
    hide CloudInv;
    assert JobInv(cfg, s, j);
  }

  lemma CleanWriteProgress(cfg: Config, s: Sys, l: Label)
    requires Inv(cfg, s) && Enabled(cfg, s, l) && (l.CancelWrite? || l.NoteQr? || l.RetryWrite? || l.BindWrite?)
    requires l.job in s.jobs && (l.BindWrite? ==> s.pc.Creating?)
    ensures Progress(Record(s.cloud, l.job), Written(s, l), s.jobs[l.job].spec.maxAttempts)
    ensures l.job in s.cloud.dirs && s.jobs[l.job].spec == s.cloud.dirs[l.job].spec
  {
    hide CloudInv, JobInv, Complete;
    MemoryAlike(cfg, s, l.job);
    AlikeProgress(Record(s.cloud, l.job), s.jobs[l.job].state, Written(s, l), s.jobs[l.job].spec.maxAttempts);
  }

  lemma DirtyFacts(cfg: Config, s: Sys)
    requires Inv(cfg, s) && Dirty(s.pc) && s.pc.job in s.jobs
    ensures var j, st := s.pc.job, s.jobs[s.pc.job].state;
            && j in s.cloud.dirs && s.jobs[j].spec == s.cloud.dirs[j].spec
            && Progress(Record(s.cloud, j), st, s.jobs[j].spec.maxAttempts)
            && (|st.attempts| > |Record(s.cloud, j).attempts| <==> !s.pc.Activating?)
  {
    hide CloudInv, Owns;
    assert JobInv(cfg, s, s.pc.job);
  }

  lemma StampedProgress(a: JobState, b: JobState, now: string, maxAttempts: int)
    requires Progress(a, b, maxAttempts)
    ensures Progress(a, b.(lastUpdated := now), maxAttempts)
  {
  }

  lemma DirtyWriteProgress(cfg: Config, s: Sys, l: Label)
    requires Inv(cfg, s) && Enabled(cfg, s, l) && (l.PreemptWrite? || l.ActivateWrite? || l.FinishWrite?)
    requires l.job in s.jobs
    ensures Progress(Record(s.cloud, l.job), Written(s, l), s.jobs[l.job].spec.maxAttempts)
    ensures |Written(s, l).attempts| > |Record(s.cloud, l.job).attempts| <==> Resolves(l)
    ensures l.job in s.cloud.dirs && s.jobs[l.job].spec == s.cloud.dirs[l.job].spec
  {
    hide Inv, Progress;
    DirtyFacts(cfg, s);
    StampedProgress(Record(s.cloud, l.job), s.jobs[l.job].state, l.now, s.jobs[l.job].spec.maxAttempts);
  }

  lemma NoChange(a: JobState, maxAttempts: int)
    ensures Progress(a, a, maxAttempts)
  {
  }

  lemma WriteProgress(cfg: Config, s: Sys, l: Label)
    requires Inv(cfg, s) && Enabled(cfg, s, l) && Writes(l)
    ensures l.job in s.cloud.dirs
    ensures Progress(Record(s.cloud, l.job), Record(Apply(cfg, s, l).cloud, l.job), s.cloud.dirs[l.job].spec.maxAttempts)
    ensures |Record(Apply(cfg, s, l).cloud, l.job).attempts| == |Record(s.cloud, l.job).attempts| + if Resolves(l) then 1 else 0
  {
    hide Inv, Enabled, Apply, Written;
    WriteEffect(cfg, s, l);
    if l.PreemptWrite? || l.ActivateWrite? || l.FinishWrite? {
      DirtyWriteProgress(cfg, s, l);
    } else {
      CleanWriteProgress(cfg, s, l);
      CleanWriteCharges(cfg, s, l);
    }
  }

  lemma CleanWriteCharges(cfg: Config, s: Sys, l: Label)
    requires Inv(cfg, s) && Enabled(cfg, s, l) && (l.CancelWrite? || l.NoteQr? || l.RetryWrite? || l.BindWrite?)
    requires l.job in s.jobs && (l.BindWrite? ==> s.pc.Creating?)
    ensures l.job in s.cloud.dirs && Written(s, l).attempts == Record(s.cloud, l.job).attempts
  {
    hide CloudInv, JobInv, Complete;
    MemoryAlike(cfg, s, l.job);
  }

  /** One step, seen from one job that is there before and after it. */
  ghost predicate StepsOn(s: Sys, l: Label, t: Sys, j: JobId)
    requires j in s.cloud.dirs
  {
    && j in t.cloud.dirs && t.cloud.dirs[j] == s.cloud.dirs[j]
    && Progress(Record(s.cloud, j), Record(t.cloud, j), s.cloud.dirs[j].spec.maxAttempts)
    && |Record(t.cloud, j).attempts| == |Record(s.cloud, j).attempts| + if Resolves(l) && l.job == j then 1 else 0
  }

  lemma ReapEffect(cfg: Config, s: Sys, l: Label)
    requires Enabled(cfg, s, l) && l.Reap?
    ensures Apply(cfg, s, l).cloud == if l.ok then WithoutDir(s.cloud, l.job) else s.cloud
  {
    hide CanReap, WithoutDir;
  }

  /** Every step but a write: records stay, and directories only come under new ids or go by reaping. */
  lemma QuietStep(cfg: Config, s: Sys, l: Label)
    requires Enabled(cfg, s, l) && !Writes(l) && !l.Reap?
    ensures Quiet(s.cloud, Apply(cfg, s, l).cloud)
  {
    hide Enabled, Apply, Quiet;
    if OfAttempt(l) { AttemptQuiet(cfg, s, l); } else { OtherQuiet(cfg, s, l); }
  }

  lemma QuietProgress(c: Cloud, d: Cloud, j: JobId, maxAttempts: int)
    requires SameRecords(c, d)
    ensures Progress(Record(c, j), Record(d, j), maxAttempts) && Record(d, j).attempts == Record(c, j).attempts
  {
  }

  /** No record appears or changes but by a write of the scheduler or a move of the environment. */
  lemma SameStatus(cfg: Config, s: Sys, l: Label)
    requires Enabled(cfg, s, l) && !Writes(l) && !l.Reap? && !l.Env?
    ensures Apply(cfg, s, l).cloud.status == s.cloud.status
  {
    hide Enabled, Apply;
    if OfAttempt(l) { AttemptStatus(cfg, s, l); } else { OtherStatus(cfg, s, l); }
  }

  lemma AttemptStatus(cfg: Config, s: Sys, l: Label)
    requires Enabled(cfg, s, l) && OfAttempt(l) && !Writes(l)
    ensures Apply(cfg, s, l).cloud.status == s.cloud.status
  {
    hide CanBeginPreempt, Preempted, CanBeginActivate, Activated, CanBeginFinish, Finished, ToClean, Verdict;
  }

  lemma OtherStatus(cfg: Config, s: Sys, l: Label)
    requires Enabled(cfg, s, l) && !OfAttempt(l) && !Writes(l) && !l.Reap? && !l.Env?
    ensures Apply(cfg, s, l).cloud.status == s.cloud.status
  {
    hide CanLoad, CanRefresh, CanForget, CanClearRoot, CanCleanStale, CanCleanOrphan, CanCleanOwn, CanBeginCancel,
      CanBeginRetry, CanCreate, CanStamp, ToClean, Stored, Indexed;
  }

  lemma WriteStepsOn(cfg: Config, s: Sys, l: Label, j: JobId)
    requires Inv(cfg, s) && Enabled(cfg, s, l) && j in s.cloud.dirs && Writes(l)
    ensures StepsOn(s, l, Apply(cfg, s, l), j)
  {
    hide Inv, Enabled, Apply, Progress, Written;
    NoChange(Record(s.cloud, j), s.cloud.dirs[j].spec.maxAttempts);
    WriteEffect(cfg, s, l);
    WriteProgress(cfg, s, l);
  }

  lemma StepProgress(cfg: Config, s: Sys, l: Label, j: JobId)
    requires Inv(cfg, s) && Enabled(cfg, s, l) && j in s.cloud.dirs && !(l == Reap(j, true))
    ensures StepsOn(s, l, Apply(cfg, s, l), j)
  {
    hide Inv, Enabled, Apply, Progress, SameRecords;
    NoChange(Record(s.cloud, j), s.cloud.dirs[j].spec.maxAttempts);
    if Writes(l) {
      WriteStepsOn(cfg, s, l, j);
    } else if l.Reap? {
      ReapEffect(cfg, s, l);
    } else {
      QuietStep(cfg, s, l);
      QuietProgress(s.cloud, Apply(cfg, s, l).cloud, j, s.cloud.dirs[j].spec.maxAttempts);
    }
  }

  lemma StepGone(cfg: Config, s: Sys, l: Label, j: JobId)
    requires Enabled(cfg, s, l) && j in s.cloud.seen && j !in s.cloud.dirs
    ensures j in Apply(cfg, s, l).cloud.seen && j !in Apply(cfg, s, l).cloud.dirs
  {
    hide Enabled, Apply;
    if Writes(l) {
      WriteEffect(cfg, s, l);
    } else if l.Reap? {
      ReapEffect(cfg, s, l);
    } else {
      QuietStep(cfg, s, l);
    }
  }

  // ---------- Over a run ----------

  /** A reaped job never comes back. */
  lemma {:induction false} GoneForGood(cfg: Config, r: Run, j: JobId, i: nat, k: nat)
    requires GoodRun(cfg, r) && i <= k < |r.states|
    requires j in r.states[i].cloud.seen && j !in r.states[i].cloud.dirs
    ensures j in r.states[k].cloud.seen && j !in r.states[k].cloud.dirs
  {
    hide Inv, Enabled, Apply;
    if i < k {
      GoneForGood(cfg, r, j, i, k - 1);
      assert Step(cfg, r.states[k - 1], r.labels[k - 1], r.states[k]);
      StepGone(cfg, r.states[k - 1], r.labels[k - 1], j);
    }
  }

  lemma PresentBetween(cfg: Config, r: Run, j: JobId, i: nat, n: nat, k: nat)
    requires GoodRun(cfg, r) && i <= n <= k < |r.states|
    requires j in r.states[i].cloud.dirs && j in r.states[k].cloud.dirs
    ensures j in r.states[n].cloud.dirs
  {
    hide Enabled, Apply, JobInv, Owns;
    RunInv(cfg, r, i);
    SeenGrows(cfg, r, j, i, n);
    if j !in r.states[n].cloud.dirs { GoneForGood(cfg, r, j, n, k); }
  }

  lemma {:induction false} SeenGrows(cfg: Config, r: Run, j: JobId, i: nat, k: nat)
    requires GoodRun(cfg, r) && i <= k < |r.states| && j in r.states[i].cloud.seen
    ensures j in r.states[k].cloud.seen
  {
    hide Inv, Enabled, Apply;
    if i < k {
      SeenGrows(cfg, r, j, i, k - 1);
      var s, l := r.states[k - 1], r.labels[k - 1];
      assert Step(cfg, s, l, r.states[k]);
      if Writes(l) { WriteEffect(cfg, s, l); } else if l.Reap? { ReapEffect(cfg, s, l); } else { QuietStep(cfg, s, l); }
    }
  }

  lemma RunStepsOn(cfg: Config, r: Run, j: JobId, i: nat)
    requires GoodRun(cfg, r) && i < |r.labels| && j in r.states[i].cloud.dirs && j in r.states[i + 1].cloud.dirs
    ensures StepsOn(r.states[i], r.labels[i], r.states[i + 1], j)
  {
    hide Inv, Enabled, StepsOn, Apply;
    RunInv(cfg, r, i);
    assert Step(cfg, r.states[i], r.labels[i], r.states[i + 1]);
    if r.labels[i] == Reap(j, true) { ReapEffect(cfg, r.states[i], r.labels[i]); }
    StepProgress(cfg, r.states[i], r.labels[i], j);
  }

  /** How often the job's status changes from position `i` to position `k`. */
  ghost function Changes(r: Run, j: JobId, i: nat, k: nat): nat
    requires i <= k < |r.states|
    decreases k - i
  {
    if i == k then 0
    else Changes(r, j, i, k - 1) + if Record(r.states[k - 1].cloud, j).status != Record(r.states[k].cloud, j).status then 1 else 0
  }

  /** How many writes add an attempt record. */
  function Resolved(labels: seq<Label>, j: JobId): nat {
    if labels == [] then 0 else Resolved(labels[..|labels| - 1], j) + if Resolves(labels[|labels| - 1]) && labels[|labels| - 1].job == j then 1 else 0
  }

  lemma StepPays(s: Sys, l: Label, t: Sys, j: JobId)
    requires j in s.cloud.dirs && StepsOn(s, l, t, j)
    ensures j in t.cloud.dirs && t.cloud.dirs[j] == s.cloud.dirs[j]
    ensures var a, b, m := Record(s.cloud, j), Record(t.cloud, j), s.cloud.dirs[j].spec.maxAttempts;
            && (if a.status != b.status then 1 else 0) <= Measure(a, m) - Measure(b, m)
            && a.attempts <= b.attempts && |b.attempts| == |a.attempts| + if Resolves(l) && l.job == j then 1 else 0
  {
    hide Edge, NewState;
  }

  /** The transition bound: status changes are paid for by the measure, and one record is kept per attempt charged. */
  lemma {:induction false} Bounded(cfg: Config, r: Run, j: JobId, i: nat, k: nat)
    requires GoodRun(cfg, r) && i <= k < |r.states|
    requires j in r.states[i].cloud.dirs && j in r.states[k].cloud.dirs
    ensures r.states[k].cloud.dirs[j] == r.states[i].cloud.dirs[j]
    ensures var a, b, m := Record(r.states[i].cloud, j), Record(r.states[k].cloud, j), r.states[i].cloud.dirs[j].spec.maxAttempts;
            && Changes(r, j, i, k) <= Measure(a, m) - Measure(b, m)
            && a.attempts <= b.attempts && |b.attempts| == |a.attempts| + Resolved(r.labels[i..k], j)
    decreases k - i
  {
    hide Inv, Step, Measure, StepsOn, Record;
    if i < k {
      PresentBetween(cfg, r, j, i, k - 1, k);
      Bounded(cfg, r, j, i, k - 1);
      RunStepsOn(cfg, r, j, k - 1);
      StepPays(r.states[k - 1], r.labels[k - 1], r.states[k], j);
      assert r.labels[i..k][..k - 1 - i] == r.labels[i..k - 1];
    } else {
      assert r.labels[i..k] == [];
    }
  }

  lemma RecordFacts(cfg: Config, r: Run, j: JobId, i: nat)
    requires GoodRun(cfg, r) && i < |r.states| && j in r.states[i].cloud.dirs
    ensures var a, m := Record(r.states[i].cloud, j), r.states[i].cloud.dirs[j].spec.maxAttempts;
            && 0 <= a.currentAttempt <= m && |a.attempts| == a.currentAttempt
            && (!Terminal(a.status) ==> a.currentAttempt < m)
            && (forall n :: 0 <= n < |a.attempts| ==> a.attempts[n].attempt == n + 1)
            && 0 <= Measure(a, m) <= 5 * m + 4
  {
    RunInv(cfg, r, i);
    hide JobInv;
    var c := r.states[i].cloud;
    assert SpecOk(cfg, j, c.dirs[j]);
    if j in c.status { assert Owns(cfg, c, j, c.dirs[j].spec, c.status[j]); }
  }

  /** Whatever is preempted, retried, crashed or cancelled: a job changes status at most `5 * max_attempts + 4` times. */
  lemma TransitionBound(cfg: Config, r: Run, j: JobId, i: nat, k: nat)
    requires GoodRun(cfg, r) && i <= k < |r.states|
    requires j in r.states[i].cloud.dirs && j in r.states[k].cloud.dirs
    ensures Changes(r, j, i, k) <= 5 * r.states[i].cloud.dirs[j].spec.maxAttempts + 4
  {
    hide GoodRun, Measure;
    Bounded(cfg, r, j, i, k);
    RecordFacts(cfg, r, j, i);
    RecordFacts(cfg, r, j, k);
  }

  /** A job that succeeded or was cancelled stays so, with the same records. */
  lemma {:induction false} Absorbing(cfg: Config, r: Run, j: JobId, i: nat, k: nat)
    requires GoodRun(cfg, r) && i <= k < |r.states|
    requires j in r.states[i].cloud.dirs && j in r.states[k].cloud.dirs
    requires var st := Record(r.states[i].cloud, j).status; st.Succeeded? || st.Canceled?
    ensures Record(r.states[k].cloud, j).status == Record(r.states[i].cloud, j).status
    ensures Record(r.states[k].cloud, j).attempts == Record(r.states[i].cloud, j).attempts
    decreases k - i
  {
    hide Inv, Step, Measure;
    if i < k {
      PresentBetween(cfg, r, j, i, k - 1, k);
      Absorbing(cfg, r, j, i, k - 1);
      RunStepsOn(cfg, r, j, k - 1);
    }
  }

  /** Attempt records are numbered, kept for good, and never more than allowed; the number written by any two different writes differs. */
  lemma AttemptsOnce(cfg: Config, r: Run, j: JobId, i: nat, k: nat)
    requires GoodRun(cfg, r) && i < k < |r.labels|
    requires j in r.states[i].cloud.dirs && j in r.states[k + 1].cloud.dirs
    requires Resolves(r.labels[i]) && r.labels[i].job == j && Resolves(r.labels[k]) && r.labels[k].job == j
    ensures var a, b, m := Record(r.states[i + 1].cloud, j).attempts, Record(r.states[k + 1].cloud, j).attempts, r.states[i].cloud.dirs[j].spec.maxAttempts;
            && 0 < |a| < |b| <= m && a < b
            && a[|a| - 1].attempt == |a| && b[|b| - 1].attempt == |b|
  {
    hide Inv, Step, Measure, Progress;
    PresentBetween(cfg, r, j, i, i + 1, k + 1);
    PresentBetween(cfg, r, j, i, k, k + 1);
    Bounded(cfg, r, j, i, i + 1);
    RunStepsOn(cfg, r, j, i);
    Bounded(cfg, r, j, i + 1, k);
    RunStepsOn(cfg, r, j, k);
    Bounded(cfg, r, j, k, k + 1);
    RecordFacts(cfg, r, j, i + 1);
    RecordFacts(cfg, r, j, k + 1);
  }

  // ---------- Queued resources ----------

  /** Only creates add queued resources. */
  ghost predicate Fewer(c: Cloud, d: Cloud) {
    d.ledger == c.ledger && d.qrs.Keys <= c.qrs.Keys
  }

  lemma AttemptSameQrs(cfg: Config, s: Sys, l: Label)
    requires Enabled(cfg, s, l) && OfAttempt(l)
    ensures Apply(cfg, s, l).cloud.ledger == s.cloud.ledger && Apply(cfg, s, l).cloud.qrs == s.cloud.qrs
  {
    hide Enabled, Apply;
    if Writes(l) { WriteEffect(cfg, s, l); } else { BeginSameQrs(cfg, s, l); }
  }

  lemma BeginSameQrs(cfg: Config, s: Sys, l: Label)
    requires Enabled(cfg, s, l) && OfAttempt(l) && !Writes(l)
    ensures Apply(cfg, s, l).cloud.ledger == s.cloud.ledger && Apply(cfg, s, l).cloud.qrs == s.cloud.qrs
  {
    hide CanBeginPreempt, CanBeginActivate, CanBeginFinish, Verdict, Preempted, Finished, Activated, ToClean;
  }

  lemma OtherFewer(cfg: Config, s: Sys, l: Label)
    requires Enabled(cfg, s, l) && !OfAttempt(l) && !l.CreateOk?
    ensures Fewer(s.cloud, Apply(cfg, s, l).cloud)
  {
    hide Complete, Retried, Provisioned, CanceledState, ToClean, Stored, Indexed, SpecOk, Sighted;
  }

  lemma StepFewer(cfg: Config, s: Sys, l: Label)
    requires Enabled(cfg, s, l) && !l.CreateOk?
    ensures Fewer(s.cloud, Apply(cfg, s, l).cloud)
  {
    hide Enabled, Apply;
    if OfAttempt(l) { AttemptSameQrs(cfg, s, l); } else { OtherFewer(cfg, s, l); }
  }
}

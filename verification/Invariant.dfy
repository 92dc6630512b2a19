/** Every step of the protocol keeps the invariant. */
module Invariant {
  import opened Types
  import opened Lifecycle
  import opened Protocol

  /** What a cloud change may do without disturbing any record's claim to its queued resource. */
  ghost predicate Frame(c: Cloud, d: Cloud) {
    && d.status == c.status && d.dirs == c.dirs && d.seen == c.seen
    && (forall q <- c.ledger :: q in d.ledger && d.ledger[q] == c.ledger[q])
    && (forall j, n :: Scoped(j, n, StartupVersion) in c.marks ==> Scoped(j, n, StartupVersion) in d.marks)
  }

  lemma OwnsFrame(cfg: Config, c: Cloud, d: Cloud)
    requires forall q <- c.ledger :: q in d.ledger && d.ledger[q] == c.ledger[q]
    requires forall j, n :: Scoped(j, n, StartupVersion) in c.marks ==> Scoped(j, n, StartupVersion) in d.marks
    ensures forall j: JobId, spec: JobSpec, st: JobState :: Owns(cfg, c, j, spec, st) ==> Owns(cfg, d, j, spec, st)
  {
  }

  lemma CloudFrame(cfg: Config, c: Cloud, d: Cloud)
    requires CloudInv(cfg, c) && Frame(c, d)
    requires forall q <- d.qrs :: q in d.ledger && Sighted(d, q, d.qrs[q].state) && d.qrs[q].project == d.ledger[q].resource.project && d.qrs[q].zone == d.ledger[q].resource.zone
    ensures CloudInv(cfg, d)
  {
    OwnsFrame(cfg, c, d);
  }

  ghost predicate SameEntry(a: map<QrName, JobId>, b: map<QrName, JobId>, q: QrName) {
    q in a ==> q in b && b[q] == a[q]
  }

  /** Jobs whose memory record and index entry are untouched. */
  lemma JobsFrame(cfg: Config, s: Sys, t: Sys)
    requires forall j <- s.jobs :: JobInv(cfg, s, j)
    requires Frame(s.cloud, t.cloud) && t.jobs == s.jobs
    requires Dirty(s.pc) ==> Dirty(t.pc) && t.pc.job == s.pc.job
    requires s.pc.Canceling? ==> t.pc.Canceling? && t.pc.job == s.pc.job
    requires forall j <- s.jobs :: Active(s.jobs[j].state) && !(t.pc.Canceling? && t.pc.job == j) && s.jobs[j].state.currentQrName.Some?
               ==> SameEntry(s.index, t.index, s.jobs[j].state.currentQrName.value)
    ensures forall j <- t.jobs :: JobInv(cfg, t, j)
  {
    OwnsFrame(cfg, s.cloud, t.cloud);
    forall j | j in t.jobs
      ensures JobInv(cfg, t, j)
    {
      assert JobInv(cfg, s, j);
    }
  }

  lemma EnvCloud(cfg: Config, c: Cloud, to: Cloud)
    requires CloudInv(cfg, c) && EnvRel(cfg, c, to)
    ensures CloudInv(cfg, to)
  {
    OwnsFrame(cfg, c, to);
    hide Owns;
  }

  lemma EnvJobs(cfg: Config, s: Sys, to: Cloud)
    requires (forall j <- s.jobs :: JobInv(cfg, s, j)) && EnvRel(cfg, s.cloud, to)
    ensures forall j <- s.jobs :: JobInv(cfg, s.(cloud := to), j)
  {
    hide Owns, SpecOk, Sighted;
    OwnsFrame(cfg, s.cloud, to);
    forall j | j in s.jobs
      ensures JobInv(cfg, s.(cloud := to), j)
    {
      assert JobInv(cfg, s, j);
    }
  }

  lemma EnvKeeps(cfg: Config, s: Sys, to: Cloud)
    requires Inv(cfg, s) && EnvRel(cfg, s.cloud, to)
    ensures Inv(cfg, s.(cloud := to))
  {
    hide CloudInv, JobInv, Progress, SpecOk, Sighted;
    EnvCloud(cfg, s.cloud, to);
    EnvJobs(cfg, s, to);
  }

  lemma RecordJobs(cfg: Config, s: Sys, j: JobId, job: Job, index: map<QrName, JobId>)
    requires forall i <- s.jobs :: JobInv(cfg, s, i)
    requires s.pc.Idle? && j in s.cloud.dirs && j in s.cloud.seen && job.spec == s.cloud.dirs[j].spec && job.bucket == s.cloud.dirs[j].bucket
    requires Owns(cfg, s.cloud, j, job.spec, job.state) && Synced(s.cloud, j, job.state)
    requires forall q <- s.index :: (q in index && index[q] == s.index[q]) || s.index[q] == j
    requires forall q <- index :: TrackedFor(cfg, s.cloud, q, index[q])
    ensures var t := s.(jobs := s.jobs[j := job], index := Indexed(index, j, job.state));
            && (forall i <- t.jobs :: JobInv(cfg, t, i))
            && (forall q <- t.index :: TrackedFor(cfg, s.cloud, q, t.index[q]))
  {
    var t := s.(jobs := s.jobs[j := job], index := Indexed(index, j, job.state));
    forall i | i in t.jobs
      ensures JobInv(cfg, t, i)
    {
      assert i != j ==> JobInv(cfg, s, i);
    }
  }

  /** A scanned or refreshed record enters memory. */
  lemma RecordKeeps(cfg: Config, s: Sys, j: JobId, now: string, index: map<QrName, JobId>)
    requires Inv(cfg, s) && s.pc.Idle? && j in s.cloud.dirs && now != ""
    requires forall q <- index :: TrackedFor(cfg, s.cloud, q, index[q])
    requires forall q <- s.index :: (q in index && index[q] == s.index[q]) || s.index[q] == j
    ensures var st := Stored(s.cloud, j, now);
            Inv(cfg, s.(jobs := s.jobs[j := Job(s.cloud.dirs[j].spec, st, s.cloud.dirs[j].bucket)], index := Indexed(index, j, st)))
  {
    var st := Stored(s.cloud, j, now);
    assert SpecOk(cfg, j, s.cloud.dirs[j]);
    assert Owns(cfg, s.cloud, j, s.cloud.dirs[j].spec, st);
    RecordJobs(cfg, s, j, Job(s.cloud.dirs[j].spec, st, s.cloud.dirs[j].bucket), index);
  }

  lemma CleanKeeps(cfg: Config, s: Sys, q: QrName, ok: bool, pc: Pc)
    requires Inv(cfg, s)
    requires Dirty(s.pc) ==> Dirty(pc) && pc.job == s.pc.job
    requires s.pc.Canceling? ==> pc.Canceling? && pc.job == s.pc.job
    requires PcInv(cfg, s.(pc := pc)) && (!pc.Idle? ==> Complete(s))
    requires forall j <- s.jobs :: Active(s.jobs[j].state) && s.jobs[j].state.currentQrName == Some(q) ==> pc.Canceling? && pc.job == j
    ensures Inv(cfg, Cleanup(s, q, ok).(pc := pc))
  {
    hide JobInv, Owns, SpecOk;
    var t := Cleanup(s, q, ok).(pc := pc);
    CloudFrame(cfg, s.cloud, t.cloud);
    JobsFrame(cfg, s, t);
  }

  /** A queued resource made for one job is not the current one of any other. */
  lemma NotOthers(cfg: Config, s: Sys, j: JobId, q: QrName)
    requires forall i <- s.jobs :: JobInv(cfg, s, i)
    requires q in s.cloud.ledger && s.cloud.ledger[q].job == j
    ensures forall i <- s.jobs :: Active(s.jobs[i].state) && s.jobs[i].state.currentQrName == Some(q) ==> i == j
  {
    forall i | i in s.jobs && Active(s.jobs[i].state) && s.jobs[i].state.currentQrName == Some(q)
      ensures i == j
    {
      assert JobInv(cfg, s, i);
    }
  }

  lemma CleanOwnKeeps(cfg: Config, s: Sys, j: JobId, q: QrName, ok: bool)
    requires Inv(cfg, s) && CanCleanOwn(s, j, q)
    ensures Inv(cfg, DoCleanOwn(s, j, q, ok))
  {
    if s.pc.Preempting? { assert Owns(cfg, s.cloud, j, s.cloud.dirs[j].spec, s.cloud.status[j]); }
    NotOthers(cfg, s, j, q);
    CleanKeeps(cfg, s, q, ok, if s.pc.Cleaning? then Idle else Preempting(j, None, s.pc.was));
  }

  lemma CancelCleanKeeps(cfg: Config, s: Sys, j: JobId, q: QrName, ok: bool)
    requires Inv(cfg, s) && s.pc == Canceling(j, Some(q))
    ensures Inv(cfg, Cleanup(s, q, ok).(pc := Canceling(j, None)))
  {
    assert JobInv(cfg, s, j);
    NotOthers(cfg, s, j, q);
    CleanKeeps(cfg, s, q, ok, Canceling(j, None));
  }

  lemma CleanOrphanKeeps(cfg: Config, s: Sys, j: JobId, q: QrName, ok: bool)
    requires Inv(cfg, s) && CanCleanOrphan(s, j, q)
    ensures Inv(cfg, Cleanup(s, q, ok))
  {
    forall i | i in s.jobs
      ensures Active(s.jobs[i].state) ==> s.jobs[i].state.currentQrName != Some(q)
    {
      assert JobInv(cfg, s, i);
    }
    CleanKeeps(cfg, s, q, ok, Idle);
  }

  lemma CleanStaleKeeps(cfg: Config, s: Sys, j: JobId, q: QrName, ok: bool)
    requires Inv(cfg, s) && CanCleanStale(s, j, q)
    ensures Inv(cfg, Cleanup(s, q, ok))
  {
    NotOthers(cfg, s, j, q);
    CleanKeeps(cfg, s, q, ok, Idle);
  }

  /** Marker changes that leave every `startup_version` in place. */
  lemma MarksKeep(cfg: Config, s: Sys, marks: map<Mark, string>, pc: Pc)
    requires Inv(cfg, s)
    requires forall j, n :: Scoped(j, n, StartupVersion) in s.cloud.marks ==> Scoped(j, n, StartupVersion) in marks
    requires pc == s.pc || (s.pc.Idle? && (pc.Canceling? || pc.Retrying?))
    requires PcInv(cfg, s.(cloud := s.cloud.(marks := marks), pc := pc)) && (!pc.Idle? ==> Complete(s))
    ensures Inv(cfg, s.(cloud := s.cloud.(marks := marks), pc := pc))
  {
    hide JobInv, Owns, SpecOk;
    var t := s.(cloud := s.cloud.(marks := marks), pc := pc);
    CloudFrame(cfg, s.cloud, t.cloud);
    JobsFrame(cfg, s, t);
  }

  lemma AheadJobs(cfg: Config, s: Sys, j: JobId, st: JobState, marks: map<Mark, string>, pc: Pc)
    requires forall i <- s.jobs :: JobInv(cfg, s, i)
    requires s.pc.Idle? && j in s.jobs && Dirty(pc) && pc.job == j
    requires Frame(s.cloud, s.cloud.(marks := marks))
    requires Owns(cfg, s.cloud, j, s.jobs[j].spec, st)
    requires Active(st) ==> Active(s.jobs[j].state) && st.currentQrName == s.jobs[j].state.currentQrName
    ensures var t := SetJob(s, j, st).(cloud := s.cloud.(marks := marks), pc := pc);
            forall i <- t.jobs :: JobInv(cfg, t, i)
  {
    var t := SetJob(s, j, st).(cloud := s.cloud.(marks := marks), pc := pc);
    OwnsFrame(cfg, s.cloud, t.cloud);
    forall i | i in t.jobs
      ensures JobInv(cfg, t, i)
    {
      assert JobInv(cfg, s, i);
    }
  }

  /** A job's memory record runs ahead of its durable one until the matching write. */
  lemma AheadKeeps(cfg: Config, s: Sys, j: JobId, st: JobState, marks: map<Mark, string>, pc: Pc)
    requires Inv(cfg, s) && Ready(s, j) && Dirty(pc) && pc.job == j
    requires forall i, n :: Scoped(i, n, StartupVersion) in s.cloud.marks ==> Scoped(i, n, StartupVersion) in marks
    requires Owns(cfg, s.cloud, j, s.jobs[j].spec, st)
    requires Active(st) ==> Active(s.jobs[j].state) && st.currentQrName == s.jobs[j].state.currentQrName
    requires PcInv(cfg, SetJob(s, j, st).(cloud := s.cloud.(marks := marks), pc := pc))
    ensures Inv(cfg, SetJob(s, j, st).(cloud := s.cloud.(marks := marks), pc := pc))
  {
    hide JobInv, Owns, SpecOk, Progress, WellFormed;
    CloudFrame(cfg, s.cloud, s.cloud.(marks := marks));
    AheadJobs(cfg, s, j, st, marks, pc);
  }

  /** Only a record nobody has worked on yet may differ between memory and store. */
  lemma ActiveSynced(c: Cloud, j: JobId, st: JobState)
    requires Synced(c, j, st) && !st.status.Pending?
    ensures j in c.status && c.status[j] == st
  {
  }

  lemma BeginPreemptKeeps(cfg: Config, s: Sys, j: JobId, why: Observation, now: string)
    requires Inv(cfg, s) && CanBeginPreempt(cfg, s, j, why)
    ensures Inv(cfg, DoBeginPreempt(s, j, why, now))
  {
    hide Synced;
    var st, max := s.jobs[j].state, s.jobs[j].spec.maxAttempts;
    var q := st.currentQrName.value;
    assert JobInv(cfg, s, j);
    ActiveSynced(s.cloud, j, st);
    PreemptedProgress(st, q, now, ErrorText(why), max);
    AheadKeeps(cfg, s, j, Preempted(st, q, now, ErrorText(why), max), s.cloud.marks, Preempting(j, Some(q), st));
  }

  lemma BeginActivateKeeps(cfg: Config, s: Sys, j: JobId, now: string)
    requires Inv(cfg, s) && CanBeginActivate(cfg, s, j, now)
    ensures Inv(cfg, DoBeginActivate(s, j, now))
  {
    hide Synced;
    var st := s.jobs[j].state;
    assert JobInv(cfg, s, j);
    ActiveSynced(s.cloud, j, st);
    SmallStepsProgress(st, st.currentQrName.value, now, s.jobs[j].spec.maxAttempts);
    AheadKeeps(cfg, s, j, Activated(st, now), s.cloud.marks, Activating(j, st));
  }

  lemma BeginFinishKeeps(cfg: Config, s: Sys, j: JobId, now: string, missed: set<Mark>)
    requires Inv(cfg, s) && CanBeginFinish(s, j, missed)
    ensures Inv(cfg, DoBeginFinish(cfg, s, j, now, missed))
  {
    hide CloudInv, Progress, Verdict, SpecOk;
    var st := s.jobs[j].state;
    var v := Verdict(s.cloud.marks - missed, j, st.currentAttempt + 1);
    assert JobInv(cfg, s, j);
    FinishedProgress(cfg, st, now, v, s.jobs[j].spec.maxAttempts);
    AheadKeeps(cfg, s, j, Finished(cfg, st, now, v), s.cloud.marks, Finishing(j, st.currentQrName, st));
  }

  lemma CommitCloud(cfg: Config, c: Cloud, j: JobId, st: JobState)
    requires CloudInv(cfg, c) && j in c.dirs && Owns(cfg, c, j, c.dirs[j].spec, st)
    ensures CloudInv(cfg, c.(status := c.status[j := st]))
  {
    var d := c.(status := c.status[j := st]);
    OwnsFrame(cfg, c, d.(status := c.status));
    forall i | i in d.status
      ensures Owns(cfg, d, i, d.dirs[i].spec, d.status[i])
    {
      assert i != j ==> Owns(cfg, c, i, c.dirs[i].spec, c.status[i]);
    }
  }

  lemma CommitJobs(cfg: Config, s: Sys, j: JobId, st: JobState, pc: Pc)
    requires forall i <- s.jobs :: JobInv(cfg, s, i)
    requires j in s.jobs && (s.pc.Idle? || s.pc.job == j) && !Dirty(pc)
    requires Owns(cfg, s.cloud, j, s.jobs[j].spec, st)
    requires Active(st) ==> st.currentQrName.value in s.index && s.index[st.currentQrName.value] == j
    ensures forall i <- Commit(s, j, st, pc).jobs :: JobInv(cfg, Commit(s, j, st, pc), i)
  {
    hide Owns;
    var t := Commit(s, j, st, pc);
    OwnsFrame(cfg, s.cloud, t.cloud);
    forall i | i in t.jobs
      ensures JobInv(cfg, t, i)
    {
      assert JobInv(cfg, s, i);
    }
  }

  /** A write of one job's record. */
  lemma CommitKeeps(cfg: Config, s: Sys, j: JobId, st: JobState, pc: Pc)
    requires Inv(cfg, s) && j in s.jobs && Complete(s)
    requires s.pc.Idle? || s.pc.job == j
    requires Owns(cfg, s.cloud, j, s.jobs[j].spec, st)
    requires Active(st) ==> st.currentQrName.value in s.index && s.index[st.currentQrName.value] == j
    requires pc.Idle? || (pc.Cleaning? && pc.job == j && Terminal(st.status) && MadeFor(cfg, s.cloud, pc.gone, j, s.jobs[j].spec))
    ensures Inv(cfg, Commit(s, j, st, pc))
  {
    assert JobInv(cfg, s, j);
    CommitCloud(cfg, s.cloud, j, st);
    CommitJobs(cfg, s, j, st, pc);
  }

  lemma FinishWriteKeeps(cfg: Config, s: Sys, j: JobId, now: string)
    requires Inv(cfg, s) && CanFinishWrite(s, j, now)
    ensures Inv(cfg, DoFinishWrite(s, j, now))
  {
    var st := s.jobs[j].state;
    assert JobInv(cfg, s, j);
    assert Owns(cfg, s.cloud, j, s.cloud.dirs[j].spec, s.cloud.status[j]);
    StampKeeps(st, now, s.jobs[j].spec.maxAttempts);
    CommitKeeps(cfg, s, j, st.(lastUpdated := now), Cleaning(j, s.pc.qr.value));
  }

  lemma StampWriteKeeps(cfg: Config, s: Sys, j: JobId, now: string)
    requires Inv(cfg, s) && (CanPreemptWrite(s, j, now) || CanActivateWrite(s, j, now))
    ensures Inv(cfg, Flush(s, j, now, Idle))
  {
    var st := s.jobs[j].state;
    assert JobInv(cfg, s, j);
    StampKeeps(st, now, s.jobs[j].spec.maxAttempts);
    CommitKeeps(cfg, s, j, st.(lastUpdated := now), Idle);
  }

  lemma CancelWriteKeeps(cfg: Config, s: Sys, j: JobId, now: string)
    requires Inv(cfg, s) && CanCancelWrite(s, j, now)
    ensures Inv(cfg, DoCancelWrite(s, j, now))
  {
    assert JobInv(cfg, s, j);
    CommitKeeps(cfg, s, j, CanceledState(s.jobs[j].state).(lastUpdated := now), Idle);
  }

  lemma NoteQrKeeps(cfg: Config, s: Sys, j: JobId, st: QRState, now: string)
    requires Inv(cfg, s) && CanNoteQr(s, j, now)
    ensures Inv(cfg, DoNoteQr(s, j, st, now))
  {
    assert JobInv(cfg, s, j);
    CommitKeeps(cfg, s, j, s.jobs[j].state.(currentQrState := Some(st), lastUpdated := now), Idle);
  }

  lemma RetryWriteKeeps(cfg: Config, s: Sys, j: JobId, now: string)
    requires Inv(cfg, s) && CanRetryWrite(s, j, now)
    ensures Inv(cfg, DoRetryWrite(s, j, now))
  {
    var st := s.jobs[j].state;
    assert JobInv(cfg, s, j);
    CommitKeeps(cfg, s, j, (if st.currentAttempt >= s.jobs[j].spec.maxAttempts then st else Retried(st)).(lastUpdated := now), Idle);
  }

  lemma CreateKeeps(cfg: Config, s: Sys, j: JobId, q: QrName)
    requires Inv(cfg, s) && CanCreate(cfg, s, j, q)
    ensures Inv(cfg, DoCreate(cfg, s, j, q))
  {
    hide JobInv, CloudInv, Owns, MemUsage, Within;
    var t := DoCreate(cfg, s, j, q);
    FreshCloud(cfg, s.cloud, q, t.cloud.qrs[q], t.cloud.ledger[q]);
    JobsFrame(cfg, s, t);
  }

  lemma FreshCloud(cfg: Config, c: Cloud, q: QrName, qr: Qr, b: Birth)
    requires CloudInv(cfg, c) && q !in c.ledger && qr == Qr(b.resource.project, b.resource.zone, QrWaiting)
    ensures var d := c.(qrs := c.qrs[q := qr], ledger := c.ledger[q := b], sightings := c.sightings[q := {QrWaiting}]);
            CloudInv(cfg, d) && Frame(c, d)
  {
    hide Owns, SpecOk;
    CloudFrame(cfg, c, c.(qrs := c.qrs[q := qr], ledger := c.ledger[q := b], sightings := c.sightings[q := {QrWaiting}]));
  }

  lemma MadeTracked(cfg: Config, s: Sys)
    requires Inv(cfg, s) && s.pc.Creating?
    ensures TrackedFor(cfg, s.cloud, s.pc.made, s.pc.job)
  {
    hide Owns, SpecOk;
    assert JobInv(cfg, s, s.pc.job);
  }

  /** The new queued resource may enter the index before its record is written. */
  lemma IndexMade(cfg: Config, s: Sys)
    requires Inv(cfg, s) && s.pc.Creating?
    ensures Inv(cfg, s.(index := s.index[s.pc.made := s.pc.job]))
  {
    hide CloudInv, SpecOk, Owns;
    MadeTracked(cfg, s);
    NotOthers(cfg, s, s.pc.job, s.pc.made);
    JobsFrame(cfg, s, s.(index := s.index[s.pc.made := s.pc.job]));
  }

  lemma BindKeeps(cfg: Config, s: Sys, j: JobId, now: string)
    requires Inv(cfg, s) && CanBind(s, j, now)
    ensures Inv(cfg, DoBind(s, j, now))
  {
    hide CloudInv, SpecOk, TrackedFor, Complete;
    var u := s.(index := s.index[s.pc.made := j]);
    IndexMade(cfg, s);
    assert JobInv(cfg, s, j);
    CommitKeeps(cfg, u, j, Provisioned(s.jobs[j].state, s.pc.made).(lastUpdated := now), Idle);
  }

  /** Claims of other jobs do not rest on the directory that is deleted. */
  lemma ReapOwns(cfg: Config, c: Cloud, j: JobId)
    ensures forall i: JobId, spec: JobSpec, st: JobState :: i != j && Owns(cfg, c, i, spec, st) ==> Owns(cfg, WithoutDir(c, j), i, spec, st)
  {
    hide WellFormed;
  }

  lemma ReapCloud(cfg: Config, c: Cloud, j: JobId)
    requires CloudInv(cfg, c)
    ensures CloudInv(cfg, WithoutDir(c, j))
  {
    hide Owns, SpecOk;
    ReapOwns(cfg, c, j);
    var d := WithoutDir(c, j);
    forall i | i in d.status
      ensures Owns(cfg, d, i, d.dirs[i].spec, d.status[i])
    {
      assert Owns(cfg, c, i, c.dirs[i].spec, c.status[i]);
    }
  }

  lemma ReapJobs(cfg: Config, s: Sys, j: JobId, ok: bool)
    requires (forall i <- s.jobs :: JobInv(cfg, s, i)) && CanReap(s, j)
    ensures forall i <- DoReap(s, j, ok).jobs :: JobInv(cfg, DoReap(s, j, ok), i)
  {
    hide Owns, Complete;
    var t := DoReap(s, j, ok);
    ReapOwns(cfg, s.cloud, j);
    forall i | i in t.jobs
      ensures JobInv(cfg, t, i)
    {
      assert JobInv(cfg, s, i);
    }
  }

  lemma ReapKeeps(cfg: Config, s: Sys, j: JobId, ok: bool)
    requires Inv(cfg, s) && CanReap(s, j)
    ensures Inv(cfg, DoReap(s, j, ok))
  {
    hide CloudInv, JobInv, Complete;
    ReapCloud(cfg, s.cloud, j);
    ReapJobs(cfg, s, j, ok);
  }

  lemma CrashKeeps(cfg: Config, s: Sys)
    requires Inv(cfg, s)
    ensures Inv(cfg, s.(jobs := map[], index := map[], pc := Idle))
  {
  }

  lemma ForgetKeeps(cfg: Config, s: Sys, q: QrName)
    requires Inv(cfg, s) && CanForget(s, q)
    ensures Inv(cfg, s.(index := s.index - {q}))
  {
    forall j | j in s.jobs
      ensures Active(s.jobs[j].state) ==> s.jobs[j].state.currentQrName != Some(q)
    {
      assert JobInv(cfg, s, j);
    }
    JobsFrame(cfg, s, s.(index := s.index - {q}));
  }

  lemma LoadKeeps(cfg: Config, s: Sys, j: JobId, now: string)
    requires Inv(cfg, s) && CanLoad(s, j, now)
    ensures Inv(cfg, DoLoad(s, j, now))
  {
    RecordKeeps(cfg, s, j, now, s.index);
  }

  lemma RefreshKeeps(cfg: Config, s: Sys, j: JobId)
    requires Inv(cfg, s) && CanRefresh(s, j)
    ensures Inv(cfg, DoRefresh(s, j))
  {
    assert JobInv(cfg, s, j);
    RecordKeeps(cfg, s, j, "refresh", map q | q in s.index && s.index[q] != j :: s.index[q]);
  }

  lemma BeginCancelKeeps(cfg: Config, s: Sys, j: JobId)
    requires Inv(cfg, s) && CanBeginCancel(s, j)
    ensures Inv(cfg, DoBeginCancel(cfg, s, j))
  {
    MarksKeep(cfg, s, s.cloud.marks, DoBeginCancel(cfg, s, j).pc);
  }

  lemma ClearRootKeeps(cfg: Config, s: Sys, j: JobId, name: RootName)
    requires Inv(cfg, s) && CanClearRoot(s, j, name)
    ensures Inv(cfg, s.(cloud := WithoutMark(s.cloud, Root(j, name))))
  {
    hide CloudInv, JobInv, Progress;
    MarksKeep(cfg, s, s.cloud.marks - {Root(j, name)}, s.pc);
  }

  lemma BeginRetryKeeps(cfg: Config, s: Sys, j: JobId)
    requires Inv(cfg, s) && CanBeginRetry(s, j)
    ensures Inv(cfg, DoBeginRetry(s, j))
  {
    hide CloudInv, JobInv, Progress;
    MarksKeep(cfg, s, s.cloud.marks - {Root(j, RetryMark)}, Retrying(j));
  }

  lemma MarkRunningKeeps(cfg: Config, s: Sys, j: JobId, text: string)
    requires Inv(cfg, s) && CanMarkRunning(s, j)
    ensures Inv(cfg, DoMarkRunning(s, j, text))
  {
    hide CloudInv, JobInv, Progress;
    MarksKeep(cfg, s, s.cloud.marks[Root(j, RunningMark) := text], s.pc);
  }

  lemma StampVersionKeeps(cfg: Config, s: Sys, j: JobId)
    requires Inv(cfg, s) && CanStamp(s, j)
    ensures Inv(cfg, DoStamp(s, j))
  {
    hide CloudInv, JobInv, Progress;
    MarksKeep(cfg, s, DoStamp(s, j).cloud.marks, s.pc);
  }

  /** The labels that activate, charge or finish an attempt. */
  predicate OfAttempt(l: Label) {
    || l.BeginPreempt? || l.PreemptWrite? || l.BeginActivate? || l.MarkRunning? || l.ActivateWrite? || l.NoteQr?
    || l.BeginFinish? || l.FinishWrite?
  }

  lemma AttemptStepKeeps(cfg: Config, s: Sys, l: Label)
    requires Inv(cfg, s) && Enabled(cfg, s, l) && OfAttempt(l)
    ensures Inv(cfg, Apply(cfg, s, l))
  {
    hide Inv, CanBeginPreempt, DoBeginPreempt, CanPreemptWrite, CanBeginActivate, DoBeginActivate, CanMarkRunning,
      DoMarkRunning, CanActivateWrite,
      CanNoteQr, DoNoteQr, CanBeginFinish, DoBeginFinish, CanFinishWrite, DoFinishWrite, Flush;
    match l {
      case BeginPreempt(j, why, now) => BeginPreemptKeeps(cfg, s, j, why, now);
      case PreemptWrite(j, now) => StampWriteKeeps(cfg, s, j, now);
      case BeginActivate(j, now) => BeginActivateKeeps(cfg, s, j, now);
      case MarkRunning(j, text) => MarkRunningKeeps(cfg, s, j, text);
      case ActivateWrite(j, now) => StampWriteKeeps(cfg, s, j, now);
      case NoteQr(j, st, now) => NoteQrKeeps(cfg, s, j, st, now);
      case BeginFinish(j, now, missed) => BeginFinishKeeps(cfg, s, j, now, missed);
      case FinishWrite(j, now) => FinishWriteKeeps(cfg, s, j, now);
    }
  }

  lemma OtherStepKeeps(cfg: Config, s: Sys, l: Label)
    requires Inv(cfg, s) && Enabled(cfg, s, l) && !OfAttempt(l)
    ensures Inv(cfg, Apply(cfg, s, l))
  {
    hide Inv, CanCleanStale, CanCleanOrphan, CanCleanOwn, DoCleanOwn, CanBeginCancel, DoBeginCancel, CanCancelWrite, DoCancelWrite, Cleanup,
      CanLoad, DoLoad, CanRefresh, DoRefresh, CanForget, CanClearRoot, CanBeginRetry, DoBeginRetry, CanRetryWrite, DoRetryWrite,
      CanCreate, DoCreate, CanStamp, DoStamp, CanBind, DoBind, CanReap, DoReap, EnvRel;
    match l {
      case Crash => CrashKeeps(cfg, s);
      case CreateFail(_) =>
      case CleanStale(j, q, ok) => CleanStaleKeeps(cfg, s, j, q, ok);
      case CleanOrphan(j, q, ok) => CleanOrphanKeeps(cfg, s, j, q, ok);
      case CleanOwn(j, q, ok) => CleanOwnKeeps(cfg, s, j, q, ok);
      case BeginCancel(j) => BeginCancelKeeps(cfg, s, j);
      case CancelClean(j, q, ok) => CancelCleanKeeps(cfg, s, j, q, ok);
      case CancelWrite(j, now) => CancelWriteKeeps(cfg, s, j, now);
      case CreateOk(j, q) => CreateKeeps(cfg, s, j, q);
      case BindWrite(j, now) => BindKeeps(cfg, s, j, now);
      case Reap(j, ok) => ReapKeeps(cfg, s, j, ok);
      case RetryWrite(j, now) => RetryWriteKeeps(cfg, s, j, now);
      case Env(to) => EnvKeeps(cfg, s, to);
      case Load(j, now) => LoadKeeps(cfg, s, j, now);
      case Refresh(j) => RefreshKeeps(cfg, s, j);
      case Forget(q) => ForgetKeeps(cfg, s, q);
      case ClearRoot(j, name) => ClearRootKeeps(cfg, s, j, name);
      case BeginRetry(j) => BeginRetryKeeps(cfg, s, j);
      case StampVersion(j) => StampVersionKeeps(cfg, s, j);
    }
  }

  /** Ownership, well-formedness and memory/durable agreement survive every single backend call, crash or environment move. */
  lemma StepKeeps(cfg: Config, s: Sys, l: Label)
    requires Inv(cfg, s) && Enabled(cfg, s, l)
    ensures Inv(cfg, Apply(cfg, s, l))
  {
    hide Inv, Enabled, Apply;
    if OfAttempt(l) { AttemptStepKeeps(cfg, s, l); } else { OtherStepKeeps(cfg, s, l); }
  }

  // ---------- Once complete, always complete ----------

  lemma ReapComplete(cfg: Config, s: Sys, j: JobId, ok: bool)
    requires Inv(cfg, s) && CanReap(s, j)
    ensures Complete(DoReap(s, j, ok))
  {
    assert JobInv(cfg, s, j);
  }

  lemma SameComplete(s: Sys, t: Sys)
    requires Complete(s) && s.jobs.Keys <= t.jobs.Keys
    requires forall j <- t.cloud.status ::
               j in t.jobs || !Active(t.cloud.status[j]) || (j in s.cloud.status && t.cloud.status[j] == s.cloud.status[j])
    ensures Complete(t)
  {
  }

  lemma CommitComplete(s: Sys, j: JobId)
    requires Complete(s) && j in s.jobs
    ensures forall st: JobState, pc: Pc :: Complete(Commit(s, j, st, pc))
  {
  }

  lemma AttemptStepComplete(cfg: Config, s: Sys, l: Label)
    requires Enabled(cfg, s, l) && Complete(s) && OfAttempt(l)
    ensures Complete(Apply(cfg, s, l))
  {
    hide Complete, Commit, Preempted, Finished, Activated, ToClean, Verdict, Justified;
    if l.NoteQr? || l.PreemptWrite? || l.ActivateWrite? || l.FinishWrite? {
      CommitComplete(s, l.job);
    } else {
      SameComplete(s, Apply(cfg, s, l));
    }
  }

  lemma OtherStepComplete(cfg: Config, s: Sys, l: Label)
    requires Inv(cfg, s) && Enabled(cfg, s, l) && Complete(s) && !l.Crash? && !OfAttempt(l)
    ensures Complete(Apply(cfg, s, l))
  {
    hide Complete, Inv, CanLoad, CanRefresh, CanForget, CanClearRoot, CanCleanStale, CanCleanOrphan, CanCleanOwn, CanBeginCancel,
      CanCancelWrite, CanBeginRetry, CanRetryWrite, CanCreate, CanStamp, CanBind, CanReap, CanceledState, Retried, Provisioned, ToClean;
    if l.Reap? {
      ReapComplete(cfg, s, l.job, l.ok);
    } else {
      SameComplete(s, Apply(cfg, s, l));
    }
  }

  /** No step short of a restart makes memory miss an active job. */
  lemma StepComplete(cfg: Config, s: Sys, l: Label)
    requires Inv(cfg, s) && Enabled(cfg, s, l) && Complete(s) && !l.Crash?
    ensures Complete(Apply(cfg, s, l))
  {
    hide Inv, Enabled, Apply, Complete;
    if OfAttempt(l) { AttemptStepComplete(cfg, s, l); } else { OtherStepComplete(cfg, s, l); }
  }
}

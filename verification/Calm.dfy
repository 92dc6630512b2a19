/** What a pass achieves when every call succeeds and the environment stands still. */
module Calm {
  import opened Types
  import opened Lifecycle
  import opened Protocol
  import opened Invariant

  /** The queued resource of an operation that has ended its job but not yet deleted it. */
  ghost predicate Leaving(pc: Pc, q: QrName) {
    || (pc.Preempting? && pc.qr == Some(q))
    || (pc.Finishing? && pc.qr == Some(q))
    || (pc.Cleaning? && pc.gone == q)
  }

  ghost predicate Current(s: Sys, q: QrName) {
    && q in s.index && s.index[q] in s.jobs
    && Active(s.jobs[s.index[q]].state) && s.jobs[s.index[q]].state.currentQrName == Some(q)
  }

  /** Every tracked queued resource is the current one of an active job. */
  ghost predicate Trim(s: Sys) {
    && (forall q <- s.index :: Current(s, q) || Leaving(s.pc, q))
    && (s.pc.Canceling? && s.pc.qr.None? && s.pc.job in s.jobs && Active(s.jobs[s.pc.job].state)
        ==> forall q <- s.index :: s.jobs[s.pc.job].state.currentQrName != Some(q))
  }

  /** Tracked names that no longer exist at the backend. */
  ghost function Dead(s: Sys): set<QrName> {
    set q | q in s.index && q !in s.cloud.qrs
  }

  ghost predicate Calmer(s: Sys, t: Sys) {
    (Trim(s) ==> Trim(t)) && Dead(t) <= Dead(s)
  }

  /** Whether calls fail for reasons of their own, and whether others move meanwhile. */
  datatype Weather = Weather(reliable: bool, quiet: bool)

  /** What a stretch achieves: no stale entry when calls do not fail, and no dead one when nothing else moves either. */
  ghost predicate Calmed(w: Weather, s: Sys, t: Sys) {
    && (w.reliable ==> Trim(s) ==> Trim(t))
    && (w.reliable && w.quiet ==> Dead(t) <= Dead(s))
  }

  lemma CalmedOn(w: Weather, s: Sys, t: Sys, u: Sys)
    requires Calmed(w, s, t) && Calmed(w, t, u)
    ensures Calmed(w, s, u)
  {
  }

  lemma CalmStart(w: Weather, s: Sys)
    ensures Calmed(w, s, s)
  {
  }

  /** Calm steps in a row. */
  lemma CalmPath(w: Weather, a: Sys, b: Sys, c: Sys, d: Sys, e: Sys, f: Sys)
    requires Calmed(w, a, b) && Calmed(w, b, c) && Calmed(w, c, d) && Calmed(w, d, e) && Calmed(w, e, f)
    ensures Calmed(w, a, f) && Calmed(w, c, f)
  {
  }

  lemma CalmTrim(w: Weather, s: Sys, t: Sys)
    requires Calmed(w, s, t) && w.reliable && Trim(s)
    ensures Trim(t) && (w.quiet && Dead(s) == {} ==> Dead(t) == {})
  {
  }

  lemma TrimMoves(s: Sys, mid: Cloud)
    requires Trim(s)
    ensures Trim(s.(cloud := mid))
  {
    forall q | q in s.index
      ensures Current(s.(cloud := mid), q) || Leaving(s.pc, q)
    {
      assert Current(s, q) || Leaving(s.pc, q);
    }
  }

  predicate Succeeds(l: Label) {
    match l
    case CleanStale(_, _, ok) => ok
    case CleanOrphan(_, _, ok) => ok
    case CleanOwn(_, _, ok) => ok
    case CancelClean(_, _, ok) => ok
    case Reap(_, ok) => ok
    case _ => true
  }

  predicate FromScan(l: Label) {
    l.Load? || l.Refresh? || l.Crash? || l.Env?
  }

  lemma CleanCalm(s: Sys, q: QrName, pc: Pc)
    requires pc == s.pc || Leaving(s.pc, q)
    requires !pc.Canceling?
    ensures Calmer(s, Cleanup(s, q, true).(pc := pc))
  {
  }

  lemma CleanOwnCalm(s: Sys, j: JobId, q: QrName)
    requires CanCleanOwn(s, j, q)
    ensures Calmer(s, DoCleanOwn(s, j, q, true))
  {
    CleanCalm(s, q, DoCleanOwn(s, j, q, true).pc);
  }

  lemma CancelCleanInv(cfg: Config, s: Sys, j: JobId, q: QrName)
    requires Inv(cfg, s) && s.pc == Canceling(j, Some(q))
    ensures Calmer(s, Cleanup(s, q, true).(pc := Canceling(j, None)))
  {
  }

  lemma JobCalm(s: Sys, j: JobId, st: JobState, cloud: Cloud, pc: Pc)
    requires j in s.jobs && cloud.qrs == s.cloud.qrs && !pc.Canceling?
    requires forall q :: Leaving(s.pc, q) ==> Leaving(pc, q)
    requires Active(s.jobs[j].state) ==>
               || (Active(st) && st.currentQrName == s.jobs[j].state.currentQrName)
               || s.jobs[j].state.currentQrName.None?
               || (s.pc == Canceling(j, None))
               || Leaving(pc, s.jobs[j].state.currentQrName.value)
    ensures Calmer(s, SetJob(s, j, st).(cloud := cloud, pc := pc))
  {
    var t := SetJob(s, j, st).(cloud := cloud, pc := pc);
    if Trim(s) {
      forall q | q in t.index
        ensures Current(t, q) || Leaving(t.pc, q)
      {
        assert Current(s, q) || Leaving(s.pc, q);
      }
    }
  }

  lemma BeginCancelCalm(cfg: Config, s: Sys, j: JobId)
    requires Inv(cfg, s) && CanBeginCancel(s, j)
    ensures Calmer(s, DoBeginCancel(cfg, s, j))
  {
    assert JobInv(cfg, s, j);
  }

  lemma BeginPreemptCalm(cfg: Config, s: Sys, j: JobId, why: Observation, now: string)
    requires Inv(cfg, s) && CanBeginPreempt(cfg, s, j, why)
    ensures Calmer(s, DoBeginPreempt(s, j, why, now))
  {
    var st := s.jobs[j].state;
    var q := st.currentQrName.value;
    JobCalm(s, j, Preempted(st, q, now, ErrorText(why), s.jobs[j].spec.maxAttempts), s.cloud, Preempting(j, Some(q), st));
  }

  lemma BeginActivateCalm(cfg: Config, s: Sys, j: JobId, now: string)
    requires Inv(cfg, s) && CanBeginActivate(cfg, s, j, now)
    ensures Calmer(s, DoBeginActivate(s, j, now))
  {
    JobCalm(s, j, Activated(s.jobs[j].state, now), s.cloud, Activating(j, s.jobs[j].state));
  }

  lemma BeginFinishCalm(cfg: Config, s: Sys, j: JobId, now: string, missed: set<Mark>)
    requires Inv(cfg, s) && CanBeginFinish(s, j, missed)
    ensures Calmer(s, DoBeginFinish(cfg, s, j, now, missed))
  {
    assert JobInv(cfg, s, j);
    var st := s.jobs[j].state;
    JobCalm(s, j, Finished(cfg, st, now, Verdict(s.cloud.marks - missed, j, st.currentAttempt + 1)), s.cloud, Finishing(j, st.currentQrName, st));
  }

  lemma CommitCalm(s: Sys, j: JobId, st: JobState, pc: Pc)
    requires j in s.jobs && !pc.Canceling?
    requires forall q :: Leaving(s.pc, q) ==> Leaving(pc, q)
    requires Active(s.jobs[j].state) ==> (Active(st) && st.currentQrName == s.jobs[j].state.currentQrName) || s.pc == Canceling(j, None)
    ensures Calmer(s, Commit(s, j, st, pc))
  {
    JobCalm(s, j, st, s.cloud.(status := s.cloud.status[j := st]), pc);
  }

  lemma BoundCalm(s: Sys, j: JobId, q: QrName, st: JobState)
    requires j in s.jobs && !Active(s.jobs[j].state) && q in s.cloud.qrs && s.pc == Creating(j, q)
    requires Active(st) && st.currentQrName == Some(q)
    ensures Calmer(s, Commit(s.(index := s.index[q := j]), j, st, Idle))
  {
    var t := Commit(s.(index := s.index[q := j]), j, st, Idle);
    if Trim(s) {
      forall p | p in t.index
        ensures Current(t, p)
      {
        if p != q { assert Current(s, p); }
      }
    }
  }

  lemma BindCalm(cfg: Config, s: Sys, j: JobId, now: string)
    requires Inv(cfg, s) && CanBind(s, j, now) && s.pc.made in s.cloud.qrs
    ensures Calmer(s, DoBind(s, j, now))
  {
    hide Calmer, CloudInv, JobInv;
    BoundCalm(s, j, s.pc.made, Provisioned(s.jobs[j].state, s.pc.made).(lastUpdated := now));
  }

  lemma ReapCalm(s: Sys, j: JobId, ok: bool)
    requires CanReap(s, j)
    ensures Calmer(s, DoReap(s, j, ok))
  {
    var t := DoReap(s, j, ok);
    if Trim(s) {
      forall q | q in t.index
        ensures Current(t, q)
      {
        assert Current(s, q);
      }
    }
  }

  lemma WriteCalm(cfg: Config, s: Sys, j: JobId, now: string)
    requires Inv(cfg, s)
    ensures CanCancelWrite(s, j, now) ==> Calmer(s, DoCancelWrite(s, j, now))
    ensures CanPreemptWrite(s, j, now) || CanActivateWrite(s, j, now) ==> Calmer(s, Flush(s, j, now, Idle))
    ensures CanFinishWrite(s, j, now) ==> Calmer(s, DoFinishWrite(s, j, now))
  {
    if j in s.jobs {
      if CanCancelWrite(s, j, now) { CommitCalm(s, j, CanceledState(s.jobs[j].state).(lastUpdated := now), Idle); }
      if CanPreemptWrite(s, j, now) || CanActivateWrite(s, j, now) { CommitCalm(s, j, s.jobs[j].state.(lastUpdated := now), Idle); }
      if CanFinishWrite(s, j, now) { CommitCalm(s, j, s.jobs[j].state.(lastUpdated := now), DoFinishWrite(s, j, now).pc); }
    }
  }

  lemma RetryWriteCalm(cfg: Config, s: Sys, j: JobId, now: string)
    requires Inv(cfg, s) && CanRetryWrite(s, j, now)
    ensures Calmer(s, DoRetryWrite(s, j, now))
  {
    CommitCalm(s, j, DoRetryWrite(s, j, now).jobs[j].state, Idle);
  }

  lemma NoteQrCalm(s: Sys, j: JobId, st: QRState, now: string)
    requires CanNoteQr(s, j, now)
    ensures Calmer(s, DoNoteQr(s, j, st, now))
  {
    CommitCalm(s, j, s.jobs[j].state.(currentQrState := Some(st), lastUpdated := now), Idle);
  }

  lemma SameJobsCalm(s: Sys, t: Sys)
    requires t.jobs == s.jobs && s.cloud.qrs.Keys <= t.cloud.qrs.Keys
    requires forall q <- t.index :: q in s.index && t.index[q] == s.index[q]
    requires t.pc == s.pc || (s.pc.Idle? && !t.pc.Canceling?)
    ensures Calmer(s, t)
  {
    if Trim(s) {
      forall q | q in t.index
        ensures Current(t, q) || Leaving(t.pc, q)
      {
        assert Current(s, q) || Leaving(s.pc, q);
      }
    }
  }

  lemma AttemptStepCalm(cfg: Config, s: Sys, l: Label)
    requires Inv(cfg, s) && Enabled(cfg, s, l) && OfAttempt(l)
    ensures Calmer(s, Apply(cfg, s, l))
  {
    hide Calmer, Inv, CanBeginPreempt, DoBeginPreempt, CanPreemptWrite, CanBeginActivate, DoBeginActivate, CanActivateWrite,
      CanNoteQr, DoNoteQr, CanBeginFinish, DoBeginFinish, CanFinishWrite, DoFinishWrite, Flush, Verdict;
    match l {
      case BeginPreempt(j, why, now) => BeginPreemptCalm(cfg, s, j, why, now);
      case PreemptWrite(j, now) => WriteCalm(cfg, s, j, now);
      case BeginActivate(j, now) => BeginActivateCalm(cfg, s, j, now);
      case MarkRunning(j, text) => SameJobsCalm(s, DoMarkRunning(s, j, text));
      case ActivateWrite(j, now) => WriteCalm(cfg, s, j, now);
      case NoteQr(j, st, now) => NoteQrCalm(s, j, st, now);
      case BeginFinish(j, now, missed) => BeginFinishCalm(cfg, s, j, now, missed);
      case FinishWrite(j, now) => WriteCalm(cfg, s, j, now);
    }
  }

  /** A successful step other than a scan leaves no stale index entry and revives no dead one. */
  lemma StepCalm(cfg: Config, s: Sys, l: Label)
    requires Inv(cfg, s) && Enabled(cfg, s, l) && Succeeds(l) && !FromScan(l)
    requires l.BindWrite? && s.pc.Creating? ==> s.pc.made in s.cloud.qrs
    ensures Calmer(s, Apply(cfg, s, l))
  {
    hide Calmer, Inv, DoCleanOwn, CanBeginCancel, DoBeginCancel, CanCancelWrite, DoCancelWrite, CanRetryWrite,
      DoRetryWrite, DoBind, CanReap, DoReap,
      MemUsage, Within;
    if OfAttempt(l) {
      AttemptStepCalm(cfg, s, l);
    } else {
      match l {
        case CleanStale(j, q, ok) => CleanCalm(s, q, s.pc);
        case CleanOrphan(j, q, ok) => CleanCalm(s, q, s.pc);
        case CleanOwn(j, q, ok) => CleanOwnCalm(s, j, q);
        case CancelClean(j, q, ok) => CancelCleanInv(cfg, s, j, q);
        case BeginCancel(j) => BeginCancelCalm(cfg, s, j);
        case CancelWrite(j, now) => WriteCalm(cfg, s, j, now);
        case RetryWrite(j, now) => RetryWriteCalm(cfg, s, j, now);
        case BindWrite(j, now) => BindCalm(cfg, s, j, now);
        case Reap(j, ok) => ReapCalm(s, j, ok);
        case Forget(q) => SameJobsCalm(s, s.(index := s.index - {q}));
        case ClearRoot(j, name) => SameJobsCalm(s, s.(cloud := WithoutMark(s.cloud, Root(j, name))));
        case BeginRetry(j) => SameJobsCalm(s, DoBeginRetry(s, j));
        case CreateFail(j) => SameJobsCalm(s, s);
        case CreateOk(j, q) => SameJobsCalm(s, DoCreate(cfg, s, j, q));
        case StampVersion(j) => SameJobsCalm(s, DoStamp(s, j));
      }
    }
  }

  /** The same, for a create whose queued resource may have vanished before its record is written: its entry is current all the same. */
  lemma StepTrim(cfg: Config, s: Sys, l: Label)
    requires Inv(cfg, s) && Enabled(cfg, s, l) && Succeeds(l) && !FromScan(l) && Trim(s)
    ensures Trim(Apply(cfg, s, l))
  {
    hide Trim, Inv, Enabled, Apply;
    if l.BindWrite? {
      BindTrim(cfg, s, l.job, l.now);
    } else {
      StepCalm(cfg, s, l);
      CalmerTrim(s, Apply(cfg, s, l));
    }
  }

  lemma CalmerTrim(s: Sys, t: Sys)
    requires Calmer(s, t) && Trim(s)
    ensures Trim(t)
  {
    hide Trim;
  }

  lemma BindTrim(cfg: Config, s: Sys, j: JobId, now: string)
    requires Inv(cfg, s) && Enabled(cfg, s, BindWrite(j, now)) && Trim(s)
    ensures Trim(Apply(cfg, s, BindWrite(j, now)))
  {
    hide Trim, CloudInv, JobInv;
    var q := s.pc.made;
    var alive := s.(cloud := s.cloud.(qrs := s.cloud.qrs[q := Qr("", "", QrWaiting)]));
    var st := Provisioned(s.jobs[j].state, q).(lastUpdated := now);
    TrimMoves(s, alive.cloud);
    BoundCalm(alive, j, q, st);
    CalmerTrim(alive, Commit(alive.(index := alive.index[q := j]), j, st, Idle));
    TrimMoves(Commit(alive.(index := alive.index[q := j]), j, st, Idle), Apply(cfg, s, BindWrite(j, now)).cloud);
  }
}

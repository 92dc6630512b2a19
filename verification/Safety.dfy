/** Who may delete what, whose markers decide, and what a focus leaves alone: over every run with crashes and failed calls. */
module Safety {
  import opened Types
  import opened Lifecycle
  import opened Protocol
  import opened Invariant
  import opened Runs
  import opened Calm
  import opened History

  // ---------- Ownership ----------

  /** The durable record of `j` is active on `q`. */
  predicate Claims(c: Cloud, j: JobId, q: QrName) {
    j in c.status && Active(c.status[j]) && c.status[j].currentQrName == Some(q)
  }

  lemma ClaimsHold(cfg: Config, c: Cloud, j: JobId, q: QrName)
    requires CloudInv(cfg, c) && Claims(c, j, q)
    ensures Held(c, q) && c.ledger[q].job == j && c.ledger[q].attempt == c.status[j].currentAttempt + 1
  {
    assert Owns(cfg, c, j, c.dirs[j].spec, c.status[j]);
  }

  /** In every reachable state: a record names a queued resource exactly while it is active, and no two jobs share one. */
  lemma Ownership(cfg: Config, r: Run, i: nat, j: JobId, k: JobId)
    requires GoodRun(cfg, r) && i < |r.states|
    requires j in r.states[i].cloud.status && k in r.states[i].cloud.status
    ensures var a, b := r.states[i].cloud.status[j], r.states[i].cloud.status[k];
            && (Active(a) <==> a.currentQrName.Some?)
            && (j != k && Active(a) && Active(b) ==> a.currentQrName != b.currentQrName)
  {
    RunInv(cfg, r, i);
    hide JobInv, SpecOk;
    var c := r.states[i].cloud;
    assert Owns(cfg, c, j, c.dirs[j].spec, c.status[j]) && Owns(cfg, c, k, c.dirs[k].spec, c.status[k]);
  }

  /** At rest, memory tracks the queued resource of every active job it knows; so polling never meets a finished job. */
  lemma Tracking(cfg: Config, r: Run, i: nat, j: JobId)
    requires GoodRun(cfg, r) && i < |r.states| && r.states[i].pc.Idle? && j in r.states[i].jobs
    ensures var s := r.states[i]; var q := s.jobs[j].state.currentQrName;
            && (Active(s.jobs[j].state) <==> q.Some?)
            && (q.Some? ==> q.value in s.index && s.index[q.value] == j && !Terminal(s.jobs[j].state.status))
  {
    RunInv(cfg, r, i);
    hide CloudInv;
    assert JobInv(cfg, r.states[i], j);
  }

  // ---------- Deletions ----------

  lemma UnclaimedUntracked(cfg: Config, s: Sys, j: JobId, q: QrName)
    requires Inv(cfg, s) && s.pc.Idle? && Complete(s) && Claims(s.cloud, j, q)
    ensures q in s.index && s.index[q] == j && j in s.jobs && s.jobs[j].state.currentQrName == Some(q)
  {
    hide CloudInv;
    assert JobInv(cfg, s, j);
  }

  /** Neither the orphan sweep nor the clean-up of stale entries ever deletes the queued resource of an active job. */
  lemma SweepsAreSafe(cfg: Config, r: Run, i: nat, j: JobId)
    requires GoodRun(cfg, r) && i < |r.labels| && (r.labels[i].CleanOrphan? || r.labels[i].CleanStale?)
    ensures !Claims(r.states[i].cloud, j, r.labels[i].qr)
  {
    hide Inv, Complete, Apply;
    RunInv(cfg, r, i);
    assert Step(cfg, r.states[i], r.labels[i], r.states[i + 1]);
    if Claims(r.states[i].cloud, j, r.labels[i].qr) {
      UnclaimedUntracked(cfg, r.states[i], j, r.labels[i].qr);
    }
  }

  lemma OtherDeletes(cfg: Config, s: Sys, l: Label, q: QrName)
    requires Enabled(cfg, s, l) && !OfAttempt(l) && q in s.cloud.qrs && q !in Apply(cfg, s, l).cloud.qrs
    ensures l.Env? || l.CleanOrphan? || l.CleanStale? || l.CancelClean? || l.CleanOwn?
    ensures !l.Env? ==> l.qr == q
  {
    hide Complete, MemUsage, Within, Retried, Provisioned, CanceledState, ToClean, Stored, Indexed, SpecOk, Sighted;
  }

  /** No step of the scheduler changes a queued resource, short of creating or deleting it. */
  lemma OtherKeeps(cfg: Config, s: Sys, l: Label, q: QrName)
    requires Enabled(cfg, s, l) && !OfAttempt(l) && !l.Env? && q in s.cloud.qrs && q in s.cloud.ledger
    ensures var d := Apply(cfg, s, l).cloud; q in d.qrs ==> d.qrs[q] == s.cloud.qrs[q]
    ensures var d := Apply(cfg, s, l).cloud; q in d.ledger && d.ledger[q] == s.cloud.ledger[q]
  {
    hide Complete, MemUsage, Within, Retried, Provisioned, CanceledState, ToClean, Stored, Indexed;
  }

  /** Whatever is deleted was made for the job the step acts for. */
  lemma DeletesItsOwn(cfg: Config, s: Sys, l: Label)
    requires Inv(cfg, s) && Enabled(cfg, s, l) && (l.CleanOrphan? || l.CleanStale? || l.CancelClean? || l.CleanOwn?)
    ensures l.qr in s.cloud.ledger && s.cloud.ledger[l.qr].job == l.job
    ensures l.CancelClean? ==> Root(l.job, CancelMark) in s.cloud.marks
  {
    hide Complete, Progress, SpecOk, Synced;
    if l.CancelClean? {
      assert JobInv(cfg, s, l.job);
    } else if l.CleanOwn? && s.pc.Preempting? {
      assert Owns(cfg, s.cloud, l.job, s.cloud.dirs[l.job].spec, s.cloud.status[l.job]);
    }
  }

  lemma OwnDeletions(cfg: Config, s: Sys, l: Label, j: JobId)
    requires Inv(cfg, s) && Enabled(cfg, s, l) && (l.CancelClean? || l.CleanOwn?) && Claims(s.cloud, j, l.qr)
    ensures l.job == j && (l.CancelClean? ==> Root(j, CancelMark) in s.cloud.marks)
    ensures l.CleanOwn? ==> s.pc.Preempting? && s.pc.job == j && s.pc.was == s.cloud.status[j]
  {
    hide CloudInv, JobInv, Progress, Complete;
    ClaimsHold(cfg, s.cloud, j, l.qr);
    if s.pc.Preempting? {
      ClaimsHold(cfg, s.cloud, s.pc.job, l.qr);
    } else {
      MemoryAlike(cfg, s, s.pc.job);
      if s.pc.Canceling? { ClaimsHold(cfg, s.cloud, s.pc.job, l.qr); }
    }
  }

  /**
   On every run, the scheduler deletes the queued resource of a durably active job only to honour that
   job's cancel marker, or because it has just charged that very attempt to the infrastructure.
   */
  lemma LiveJobsKeepTheirQr(cfg: Config, r: Run, i: nat, j: JobId, q: QrName)
    requires GoodRun(cfg, r) && i < |r.labels| && Claims(r.states[i].cloud, j, q)
    requires q in r.states[i].cloud.qrs && q !in r.states[i + 1].cloud.qrs && !r.labels[i].Env?
    ensures var s, l := r.states[i], r.labels[i];
            || (l.CancelClean? && l.job == j && Root(j, CancelMark) in s.cloud.marks)
            || (l.CleanOwn? && l.job == j && s.pc.Preempting? && s.pc.was == s.cloud.status[j])
  {
    hide Inv, Enabled, Apply;
    RunInv(cfg, r, i);
    var s, l := r.states[i], r.labels[i];
    assert Step(cfg, s, l, r.states[i + 1]);
    if OfAttempt(l) {
      AttemptSameQrs(cfg, s, l);
    } else {
      OtherDeletes(cfg, s, l, q);
      if l.CleanOrphan? || l.CleanStale? { SweepsAreSafe(cfg, r, i, j); } else { OwnDeletions(cfg, s, l, j); }
    }
  }

  /** A finished job's queued resource goes only after its result is durable. */
  lemma ResultBeforeDeletion(cfg: Config, r: Run, i: nat)
    requires GoodRun(cfg, r) && i < |r.labels| && r.labels[i].CleanOwn? && r.states[i].pc.Cleaning?
    ensures var c, j := r.states[i].cloud, r.labels[i].job; j in c.status && Terminal(c.status[j].status)
  {
    hide CloudInv, JobInv, Apply, Progress;
    RunInv(cfg, r, i);
    assert Step(cfg, r.states[i], r.labels[i], r.states[i + 1]);
    MemoryAlike(cfg, r.states[i], r.labels[i].job);
  }

  // ---------- Whose markers decide ----------

  /** What one attempt's own markers say, root markers disregarded. */
  function ScopedVerdict(marks: map<Mark, string>, j: JobId, attempt: int): Outcome {
    if Scoped(j, attempt, ScopedFailed) in marks then Lost(marks[Scoped(j, attempt, ScopedFailed)])
    else if Scoped(j, attempt, ScopedSucceeded) in marks then Won
    else Undecided
  }

  lemma RunningFacts(cfg: Config, s: Sys, j: JobId)
    requires Inv(cfg, s) && s.pc.Idle? && j in s.jobs && s.jobs[j].state.status.Running?
    ensures j in s.cloud.status && s.cloud.status[j] == s.jobs[j].state && s.jobs[j].state.currentQrName.Some?
    ensures s.jobs[j].state.currentQrName.value in s.cloud.ledger
    ensures s.cloud.ledger[s.jobs[j].state.currentQrName.value].modern ==>
              Scoped(j, s.jobs[j].state.currentAttempt + 1, StartupVersion) in s.cloud.marks
  {
    hide CloudInv;
    assert JobInv(cfg, s, j);
  }

  /**
   Which failed reads leave the verdict right. A failure report that is there must have been read, unless the
   stamp was not and the root directory holds the same text; without one, the stamp must have been read,
   unless no report in the root directory was and the attempt did succeed.
   */
  predicate Faithful(marks: map<Mark, string>, missed: set<Mark>, j: JobId, attempt: int) {
    var failed, rootFailed := Scoped(j, attempt, ScopedFailed), Root(j, RootFailed);
    var unstamped := Scoped(j, attempt, StartupVersion) in missed;
    var misled := rootFailed in marks && rootFailed !in missed;
    if failed in marks then
      failed !in missed || (unstamped && misled && marks[rootFailed] == marks[failed])
    else
      !unstamped || (!misled && Scoped(j, attempt, ScopedSucceeded) in marks)
  }

  /** The verdict of the reads that came through is that of the attempt's own markers exactly then. */
  lemma VerdictIff(marks: map<Mark, string>, missed: set<Mark>, j: JobId, attempt: int)
    requires Scoped(j, attempt, StartupVersion) in marks && !Verdict(marks - missed, j, attempt).Undecided?
    ensures Verdict(marks - missed, j, attempt) == ScopedVerdict(marks, j, attempt) <==> Faithful(marks, missed, j, attempt)
    ensures Scoped(j, attempt, ScopedFailed) !in missed && Scoped(j, attempt, StartupVersion) !in missed ==>
              Faithful(marks, missed, j, attempt)
  {
    var seen := marks - missed;
    assert forall m :: m in seen <==> m in marks && m !in missed;
  }

  lemma FinishEffect(cfg: Config, s: Sys, l: Label)
    requires Enabled(cfg, s, l) && l.BeginFinish?
    ensures s.pc.Idle? && l.job in s.jobs && s.jobs[l.job].state.status.Running?
    ensures var v := Verdict(s.cloud.marks - l.missed, l.job, s.jobs[l.job].state.currentAttempt + 1);
            && !v.Undecided? && l.job in Apply(cfg, s, l).jobs
            && Apply(cfg, s, l).jobs[l.job].state == Finished(cfg, s.jobs[l.job].state, l.now, v)
  {
    hide Complete, Verdict, Finished;
  }

  /**
   An attempt on a queued resource this code created is decided by the markers in that attempt's own
   directory and by nothing else, as long as the reads that matter come through: root markers and markers
   of other attempts have no say. If they do not come through, the record is not what those markers say.
   */
  lemma OwnMarkersDecide(cfg: Config, r: Run, i: nat)
    requires GoodRun(cfg, r) && i < |r.labels| && r.labels[i].BeginFinish?
    ensures var s, t, l := r.states[i], r.states[i + 1], r.labels[i];
            && l.job in s.cloud.status && s.cloud.status[l.job].status.Running? && l.job in t.jobs
            && s.cloud.status[l.job].currentQrName.Some? && s.cloud.status[l.job].currentQrName.value in s.cloud.ledger
            && (s.cloud.ledger[s.cloud.status[l.job].currentQrName.value].modern ==>
                  var st, k := s.cloud.status[l.job], s.cloud.status[l.job].currentAttempt + 1;
                  var v, recorded := ScopedVerdict(s.cloud.marks, l.job, k), Verdict(s.cloud.marks - l.missed, l.job, k);
                  && !recorded.Undecided? && t.jobs[l.job].state == Finished(cfg, st, l.now, recorded)
                  && (recorded == v <==> Faithful(s.cloud.marks, l.missed, l.job, k)))
  {
    hide Inv, Complete, Finished, Verdict, Faithful, ScopedVerdict;
    RunInv(cfg, r, i);
    var s, l := r.states[i], r.labels[i];
    assert Step(cfg, s, l, r.states[i + 1]);
    hide Enabled, Apply;
    FinishEffect(cfg, s, l);
    RunningFacts(cfg, s, l.job);
    if s.cloud.ledger[s.cloud.status[l.job].currentQrName.value].modern {
      VerdictIff(s.cloud.marks, l.missed, l.job, s.cloud.status[l.job].currentAttempt + 1);
    }
  }

  // ---------- What a pass without work leaves alone ----------

  /** Labels that act for nobody change nothing outside the process. */
  lemma IdleLabel(cfg: Config, s: Sys, l: Label)
    requires Enabled(cfg, s, l) && Work(l) == {} && Drop(l) == {} && !l.Env?
    ensures Apply(cfg, s, l).cloud == s.cloud
  {
    hide CanLoad, CanRefresh, CanForget, Stored, Indexed;
  }

  /** In this stretch, no step but those of the environment changed anything outside the process. */
  ghost predicate OnlyEnvMoves(r: Run, i: nat, k: nat)
    requires i <= k < |r.states| == |r.labels| + 1
  {
    forall n {:trigger r.labels[n]} :: i <= n < k && !r.labels[n].Env? ==> r.states[n + 1].cloud == r.states[n].cloud
  }

  lemma IdleStep(cfg: Config, r: Run, n: nat)
    requires GoodRun(cfg, r) && n < |r.labels| && Work(r.labels[n]) == {} && Drop(r.labels[n]) == {}
    ensures EnvRel(cfg, r.states[n].cloud, r.states[n + 1].cloud)
    ensures !r.labels[n].Env? ==> r.states[n + 1].cloud == r.states[n].cloud
  {
    hide Inv, Enabled, Apply, EnvRel;
    var s, l := r.states[n], r.labels[n];
    assert Step(cfg, s, l, r.states[n + 1]);
    EnvReflexive(cfg, s.cloud);
    if l.Env? { EnvLabel(cfg, s, l); } else { IdleLabel(cfg, s, l); }
  }

  /** Steps that act for nobody, such as those of an iteration skipped after an incomplete scan, change nothing outside the process. */
  lemma {:induction false} NothingDone(cfg: Config, r: Run, i: nat, k: nat)
    requires GoodRun(cfg, r) && i <= k < |r.states|
    requires Worked(r.labels[i..k]) == {} && Dropped(r.labels[i..k]) == {}
    ensures EnvRel(cfg, r.states[i].cloud, r.states[k].cloud) && OnlyEnvMoves(r, i, k)
    ensures (forall l <- r.labels[i..k] :: !l.Env?) ==> r.states[k].cloud == r.states[i].cloud
    decreases k - i
  {
    hide Inv, Step, EnvRel, Worked, Dropped;
    EnvReflexive(cfg, r.states[i].cloud);
    if i < k {
      assert r.labels[i..k] == r.labels[i..k - 1] + [r.labels[k - 1]];
      Snoc(r.labels[i..k - 1], r.labels[k - 1]);
      NothingDone(cfg, r, i, k - 1);
      IdleStep(cfg, r, k - 1);
      EnvTransitive(cfg, r.states[i].cloud, r.states[k - 1].cloud, r.states[k].cloud);
      assert r.labels[k - 1] in r.labels[i..k];
    }
  }

  lemma EnvLabel(cfg: Config, s: Sys, l: Label)
    requires Enabled(cfg, s, l) && l.Env?
    ensures EnvRel(cfg, s.cloud, Apply(cfg, s, l).cloud)
  {
    hide EnvRel;
  }

  // ---------- Focus ----------

  /** The job's record is as it was; one that had not been written may have been by the submitter. */
  ghost predicate SameRecord(c: Cloud, d: Cloud, j: JobId) {
    if j in c.status then j in d.status && d.status[j] == c.status[j] else j in d.status ==> Blank(d.status[j])
  }

  /** The job keeps its record, and no queued resource is made for it. */
  ghost predicate Untouched(c: Cloud, d: Cloud, j: JobId) {
    SameRecord(c, d, j) && Unborn(c, d, j)
  }

  /** The queued resources made for the job are as they were. */
  ghost predicate SameQrs(c: Cloud, d: Cloud, j: JobId) {
    forall q <- c.qrs :: q in c.ledger && c.ledger[q].job == j ==>
      q in d.qrs && d.qrs[q] == c.qrs[q] && q in d.ledger && d.ledger[q] == c.ledger[q]
  }

  /** In this stretch, only the environment changed or took a queued resource made for the job. */
  ghost predicate Spared(r: Run, j: JobId, i: nat, k: nat)
    requires i <= k < |r.states| == |r.labels| + 1
  {
    forall n {:trigger r.labels[n]} :: i <= n < k && !r.labels[n].Env? ==> SameQrs(r.states[n].cloud, r.states[n + 1].cloud, j)
  }

  lemma SparedStep(cfg: Config, s: Sys, l: Label, j: JobId)
    requires Inv(cfg, s) && Enabled(cfg, s, l) && !l.Env? && j !in Work(l) && !(l.CancelClean? && l.job == j)
    ensures SameQrs(s.cloud, Apply(cfg, s, l).cloud, j)
  {
    hide Inv, Enabled, Apply;
    if OfAttempt(l) {
      AttemptSameQrs(cfg, s, l);
    } else {
      forall q | q in s.cloud.qrs && q in s.cloud.ledger && s.cloud.ledger[q].job == j
        ensures var d := Apply(cfg, s, l).cloud; q in d.qrs && d.qrs[q] == s.cloud.qrs[q] && q in d.ledger && d.ledger[q] == s.cloud.ledger[q]
      {
        OtherKeeps(cfg, s, l, q);
        if q !in Apply(cfg, s, l).cloud.qrs {
          OtherDeletes(cfg, s, l, q);
          DeletesItsOwn(cfg, s, l);
        }
      }
    }
  }

  lemma SparedHere(cfg: Config, r: Run, j: JobId, n: nat)
    requires GoodRun(cfg, r) && n < |r.labels| && !r.labels[n].Env?
    requires j !in Work(r.labels[n]) && !(r.labels[n].CancelClean? && r.labels[n].job == j)
    ensures SameQrs(r.states[n].cloud, r.states[n + 1].cloud, j)
  {
    hide Inv, Enabled, Apply, SameQrs;
    RunInv(cfg, r, n);
    assert Step(cfg, r.states[n], r.labels[n], r.states[n + 1]);
    SparedStep(cfg, r.states[n], r.labels[n], j);
  }

  lemma {:induction false} WorkWithin(t: seq<Label>, n: nat)
    requires n < |t|
    ensures Work(t[n]) <= Worked(t) && Drop(t[n]) <= Dropped(t)
  {
    hide Work, Drop;
    if n < |t| - 1 {
      assert t[..|t| - 1][n] == t[n];
      WorkWithin(t[..|t| - 1], n);
    }
  }

  /** If nothing but the scheduler moves in the stretch, they are the same at its end. */
  lemma {:induction false} SparedQuiet(r: Run, j: JobId, i: nat, k: nat)
    requires i <= k < |r.states| == |r.labels| + 1 && Spared(r, j, i, k) && forall l <- r.labels[i..k] :: !l.Env?
    ensures SameQrs(r.states[i].cloud, r.states[k].cloud, j)
    decreases k - i
  {
    if i < k {
      assert r.labels[i..k] == r.labels[i..k - 1] + [r.labels[k - 1]];
      assert r.labels[k - 1] in r.labels[i..k];
      SparedQuiet(r, j, i, k - 1);
    }
  }

  /** The ledger gains entries only by creates, for the job they are for. */
  ghost predicate Unborn(c: Cloud, d: Cloud, j: JobId) {
    forall q <- d.ledger :: d.ledger[q].job == j ==> q in c.ledger && c.ledger[q] == d.ledger[q]
  }

  lemma UnbornStep(cfg: Config, s: Sys, l: Label, j: JobId)
    requires Enabled(cfg, s, l) && j !in Work(l)
    ensures Unborn(s.cloud, Apply(cfg, s, l).cloud, j)
  {
    hide Enabled, Apply;
    if l.CreateOk? { CreateEffect(cfg, s, l); } else { StepFewer(cfg, s, l); }
  }

  lemma UntouchedStep(cfg: Config, s: Sys, l: Label, j: JobId)
    requires Enabled(cfg, s, l) && j in s.cloud.dirs && j !in Work(l) && j !in Drop(l)
    ensures j in Apply(cfg, s, l).cloud.dirs && Untouched(s.cloud, Apply(cfg, s, l).cloud, j)
  {
    hide Enabled, Apply, Unborn, Written, Blank;
    UnbornStep(cfg, s, l, j);
    if Writes(l) {
      WriteEffect(cfg, s, l);
    } else if l.Reap? {
      ReapEffect(cfg, s, l);
    } else {
      QuietStep(cfg, s, l);
    }
  }

  lemma CreateEffect(cfg: Config, s: Sys, l: Label)
    requires Enabled(cfg, s, l) && l.CreateOk?
    ensures forall q <- Apply(cfg, s, l).cloud.ledger ::
              (q in s.cloud.ledger && s.cloud.ledger[q] == Apply(cfg, s, l).cloud.ledger[q]) || Apply(cfg, s, l).cloud.ledger[q].job == l.job
  {
    hide MemUsage, Within, Complete;
  }

  /**
   Focus non-interference: a job that no label of a stretch of a run acts for keeps its record and its queued
   resources, which only the environment may change or take, and gets no new one.
   */
  lemma {:induction false} OthersUntouched(cfg: Config, r: Run, j: JobId, i: nat, k: nat)
    requires GoodRun(cfg, r) && i <= k < |r.states| && j in r.states[i].cloud.dirs
    requires j !in Worked(r.labels[i..k]) && j !in Dropped(r.labels[i..k])
    ensures j in r.states[k].cloud.dirs && Untouched(r.states[i].cloud, r.states[k].cloud, j)
    ensures Spared(r, j, i, k)
    decreases k - i
  {
    hide Inv, Enabled, Apply, Untouched, Spared, Worked, Dropped;
    if i < k {
      assert r.labels[i..k] == r.labels[i..k - 1] + [r.labels[k - 1]];
      Snoc(r.labels[i..k - 1], r.labels[k - 1]);
      OthersUntouched(cfg, r, j, i, k - 1);
      assert Step(cfg, r.states[k - 1], r.labels[k - 1], r.states[k]);
      UntouchedStep(cfg, r.states[k - 1], r.labels[k - 1], j);
      UntouchedOn(r.states[i].cloud, r.states[k - 1].cloud, r.states[k].cloud, j);
      if !r.labels[k - 1].Env? { SparedHere(cfg, r, j, k - 1); }
      SparedOn(r, j, i, k);
    } else {
      UntouchedHere(r.states[i].cloud, j);
      SparedNowhere(r, j, i);
    }
  }

  lemma UntouchedOn(c: Cloud, d: Cloud, e: Cloud, j: JobId)
    requires Untouched(c, d, j) && Untouched(d, e, j)
    ensures Untouched(c, e, j)
  {
    hide Blank;
  }

  lemma UntouchedHere(c: Cloud, j: JobId)
    ensures Untouched(c, c, j)
  {
  }

  lemma SparedOn(r: Run, j: JobId, i: nat, k: nat)
    requires i < k < |r.states| == |r.labels| + 1 && Spared(r, j, i, k - 1)
    requires !r.labels[k - 1].Env? ==> SameQrs(r.states[k - 1].cloud, r.states[k].cloud, j)
    ensures Spared(r, j, i, k)
  {
    hide SameQrs;
  }

  lemma SparedNowhere(r: Run, j: JobId, i: nat)
    requires i < |r.states| == |r.labels| + 1
    ensures Spared(r, j, i, i)
  {
    hide SameQrs;
  }

  lemma SameRecordHere(c: Cloud, j: JobId)
    ensures SameRecord(c, c, j)
  {
  }

  lemma SameRecordOn(c: Cloud, d: Cloud, e: Cloud, j: JobId)
    requires SameRecord(c, d, j)
    ensures Record(d, j).attempts == Record(c, j).attempts && Record(d, j).status == Record(c, j).status
    ensures SameRecord(d, e, j) ==> SameRecord(c, e, j)
  {
  }

  /** The job's record is as before, or it was cancelled at its owner's request and has the same attempts. */
  ghost predicate AtMostCanceled(r: Run, j: JobId, i: nat, k: nat)
    requires i <= k < |r.states|
  {
    var a, b := Record(r.states[i].cloud, j), Record(r.states[k].cloud, j);
    || SameRecord(r.states[i].cloud, r.states[k].cloud, j)
    || (b.status.Canceled? && b.attempts == a.attempts && AskedToCancel(r, j, i, k))
  }

  /** The job's cancel marker was there at some moment of the stretch. */
  ghost predicate AskedToCancel(r: Run, j: JobId, i: nat, k: nat)
    requires i <= k < |r.states|
  {
    exists n {:trigger r.states[n]} :: i <= n < k && Root(j, CancelMark) in r.states[n].cloud.marks
  }

  lemma NewMarks(cfg: Config, s: Sys, l: Label, j: JobId)
    requires Enabled(cfg, s, l) && !l.Env? && Root(j, CancelMark) in Apply(cfg, s, l).cloud.marks
    ensures Root(j, CancelMark) in s.cloud.marks
  {
    hide Enabled, Apply;
    if Writes(l) {
      WriteEffect(cfg, s, l);
    } else if l.Reap? {
      ReapEffect(cfg, s, l);
    } else if OfAttempt(l) {
      AttemptRequests(cfg, s, l);
    } else {
      OtherRequests(cfg, s, l);
    }
  }

  lemma AttemptRequests(cfg: Config, s: Sys, l: Label)
    requires Enabled(cfg, s, l) && OfAttempt(l) && !Writes(l)
    ensures forall j :: Root(j, CancelMark) in Apply(cfg, s, l).cloud.marks ==> Root(j, CancelMark) in s.cloud.marks
  {
    hide CanBeginPreempt, Preempted, CanBeginActivate, Activated, CanBeginFinish, Finished, ToClean, Verdict;
  }

  lemma OtherRequests(cfg: Config, s: Sys, l: Label)
    requires Enabled(cfg, s, l) && !OfAttempt(l) && !Writes(l) && !l.Env? && !l.Reap?
    ensures forall j :: Root(j, CancelMark) in Apply(cfg, s, l).cloud.marks ==> Root(j, CancelMark) in s.cloud.marks
  {
    hide CanLoad, CanRefresh, CanForget, CanClearRoot, CanCleanStale, CanCleanOrphan, CanCleanOwn, CanBeginCancel,
      CanBeginRetry, CanCreate, ToClean, Stored, Indexed;
  }

  /** If nothing but the scheduler moves, a cancel marker that was there at some moment was there at the start. */
  lemma {:induction false} AskedBefore(cfg: Config, r: Run, j: JobId, i: nat, n: nat)
    requires GoodRun(cfg, r) && i <= n < |r.states| && Root(j, CancelMark) in r.states[n].cloud.marks
    requires forall m {:trigger r.labels[m]} :: i <= m < n ==> !r.labels[m].Env?
    ensures Root(j, CancelMark) in r.states[i].cloud.marks
    decreases n - i
  {
    hide Inv, Enabled, Apply;
    if i < n {
      assert Step(cfg, r.states[n - 1], r.labels[n - 1], r.states[n]);
      NewMarks(cfg, r.states[n - 1], r.labels[n - 1], j);
      AskedBefore(cfg, r, j, i, n - 1);
    }
  }

  lemma CancelEffect(cfg: Config, s: Sys, l: Label, j: JobId)
    requires Inv(cfg, s) && Enabled(cfg, s, l) && j in s.cloud.dirs && j !in Work(l) && j in Drop(l)
    ensures var t := Apply(cfg, s, l);
            && j in t.cloud.dirs && t.cloud.ledger == s.cloud.ledger
            && (SameRecord(s.cloud, t.cloud, j) ||
                (Record(t.cloud, j).status.Canceled? && Record(t.cloud, j).attempts == Record(s.cloud, j).attempts && Root(j, CancelMark) in s.cloud.marks))
  {
    hide CloudInv, JobInv, Complete, Apply, WellFormed;
    StepFewer(cfg, s, l);
    if l.CancelWrite? {
      WriteEffect(cfg, s, l);
      MemoryAlike(cfg, s, j);
    } else {
      QuietStep(cfg, s, l);
    }
  }

  /** A step that takes a queued resource from a job it does not work on honours that job's cancel marker, and leads to its cancellation. */
  lemma CancelOnward(cfg: Config, s: Sys, l: Label, j: JobId)
    requires Inv(cfg, s) && Enabled(cfg, s, l) && !l.Crash? && j in s.cloud.dirs && j !in Work(l)
    requires (l.CancelClean? && l.job == j) || s.pc == Canceling(j, None) || Record(s.cloud, j).status.Canceled?
    ensures var t := Apply(cfg, s, l); t.pc == Canceling(j, None) || Record(t.cloud, j).status.Canceled?
  {
    hide Inv, Enabled, Apply, Complete, Written;
    if Writes(l) {
      CancelWriteOn(cfg, s, l, j);
    } else if l.Reap? {
      ReapEffect(cfg, s, l);
      ReapIdle(cfg, s, l);
    } else {
      QuietStep(cfg, s, l);
      if !Record(s.cloud, j).status.Canceled? { CancelKept(cfg, s, l, j); }
    }
  }

  lemma ReapIdle(cfg: Config, s: Sys, l: Label)
    requires Enabled(cfg, s, l) && l.Reap?
    ensures s.pc.Idle?
  {
    hide Complete;
  }

  lemma CancelWriteOn(cfg: Config, s: Sys, l: Label, j: JobId)
    requires Enabled(cfg, s, l) && Writes(l) && j !in Work(l) && (s.pc == Canceling(j, None) || Record(s.cloud, j).status.Canceled?)
    ensures Record(Apply(cfg, s, l).cloud, j).status.Canceled?
  {
    hide Apply, Complete, MemUsage, Within, Provisioned, Retried;
    WriteEffect(cfg, s, l);
  }

  lemma CancelKept(cfg: Config, s: Sys, l: Label, j: JobId)
    requires Enabled(cfg, s, l) && !l.Crash? && !Writes(l) && ((l.CancelClean? && l.job == j) || s.pc == Canceling(j, None))
    ensures Apply(cfg, s, l).pc == Canceling(j, None)
  {
    hide Complete, MemUsage, Within, ToClean, Stored, Indexed, EnvRel;
  }

  lemma {:induction false} CancelFollows(cfg: Config, r: Run, j: JobId, n: nat, k: nat)
    requires GoodRun(cfg, r) && n < k < |r.states| && j in r.states[n].cloud.dirs
    requires r.labels[n].CancelClean? && r.labels[n].job == j
    requires j !in Worked(r.labels[n..k]) && forall l <- r.labels[n..k] :: !l.Crash?
    ensures j in r.states[k].cloud.dirs
    ensures r.states[k].pc == Canceling(j, None) || Record(r.states[k].cloud, j).status.Canceled?
    decreases k - n
  {
    hide Inv, Enabled, Apply, Record, Worked;
    assert r.labels[n..k] == r.labels[n..k - 1] + [r.labels[k - 1]];
    Snoc(r.labels[n..k - 1], r.labels[k - 1]);
    if n < k - 1 { CancelFollows(cfg, r, j, n, k - 1); }
    RunInv(cfg, r, k - 1);
    var s, l := r.states[k - 1], r.labels[k - 1];
    assert l in r.labels[n..k] && Step(cfg, s, l, r.states[k]);
    CancelOnward(cfg, s, l, j);
    DirsStay(cfg, s, l, j);
  }

  lemma DirsStay(cfg: Config, s: Sys, l: Label, j: JobId)
    requires Enabled(cfg, s, l) && j in s.cloud.dirs && j !in Work(l)
    ensures j in Apply(cfg, s, l).cloud.dirs
  {
    hide Enabled, Apply, Written;
    if Writes(l) { WriteEffect(cfg, s, l); } else if l.Reap? { ReapEffect(cfg, s, l); } else { QuietStep(cfg, s, l); }
  }

  /** A job whose queued resource is taken in a stretch that does not work on it ends up cancelled, as its marker asked, unless the scheduler stops on the way. */
  lemma SparedOrCanceled(cfg: Config, r: Run, j: JobId, i: nat, k: nat)
    requires GoodRun(cfg, r) && i <= k < |r.states| && j in r.states[i].cloud.dirs
    requires j !in Worked(r.labels[i..k]) && (forall l <- r.labels[i..k] :: !l.Crash?) && r.states[k].pc.Idle?
    ensures Spared(r, j, i, k) || (Record(r.states[k].cloud, j).status.Canceled? && AskedToCancel(r, j, i, k))
  {
    hide Inv, Enabled, Apply, Record, Worked, SameQrs;
    if !(Record(r.states[k].cloud, j).status.Canceled? && AskedToCancel(r, j, i, k)) {
      forall n | i <= n < k && !r.labels[n].Env?
        ensures SameQrs(r.states[n].cloud, r.states[n + 1].cloud, j)
      {
        WorkWithin(r.labels[i..k], n - i);
        assert r.labels[i..k][n - i] == r.labels[n];
        if r.labels[n].CancelClean? && r.labels[n].job == j {
          WorkedLater(r.labels, i, n, k);
          StillThere(cfg, r, j, i, n);
          CancelFollows(cfg, r, j, n, k);
          CleanAsked(cfg, r, n);
        }
        SparedHere(cfg, r, j, n);
      }
    }
  }

  lemma CleanAsked(cfg: Config, r: Run, n: nat)
    requires GoodRun(cfg, r) && n < |r.labels| && r.labels[n].CancelClean?
    ensures Root(r.labels[n].job, CancelMark) in r.states[n].cloud.marks
  {
    hide Inv, Enabled, Apply;
    RunInv(cfg, r, n);
    assert Step(cfg, r.states[n], r.labels[n], r.states[n + 1]);
    DeletesItsOwn(cfg, r.states[n], r.labels[n]);
  }

  lemma WorkedLater(t: seq<Label>, i: nat, n: nat, k: nat)
    requires i <= n <= k <= |t|
    ensures Worked(t[i..k]) == Worked(t[i..n]) + Worked(t[n..k])
  {
    assert t[i..k] == t[i..n] + t[n..k];
    WorkedConcat(t[i..n], t[n..k]);
  }

  lemma {:induction false} WorkedConcat(a: seq<Label>, b: seq<Label>)
    ensures Worked(a + b) == Worked(a) + Worked(b)
  {
    hide Work;
    if b == [] {
      assert a + b == a;
    } else {
      assert (a + b)[..|a + b| - 1] == a + b[..|b| - 1];
      WorkedConcat(a, b[..|b| - 1]);
    }
  }

  lemma StillThere(cfg: Config, r: Run, j: JobId, i: nat, n: nat)
    requires GoodRun(cfg, r) && i <= n < |r.states| && j in r.states[i].cloud.dirs && j !in Worked(r.labels[i..n])
    ensures j in r.states[n].cloud.dirs
  {
    hide GoodRun, Worked, AtMostCanceled, Unborn;
    OthersOnlyCanceled(cfg, r, j, i, n);
  }

  /** A pass focused on one user's jobs changes another's record only by cancelling it, and only if asked to. */
  lemma {:induction false} OthersOnlyCanceled(cfg: Config, r: Run, j: JobId, i: nat, k: nat)
    requires GoodRun(cfg, r) && i <= k < |r.states| && j in r.states[i].cloud.dirs
    requires j !in Worked(r.labels[i..k])
    ensures j in r.states[k].cloud.dirs && AtMostCanceled(r, j, i, k)
    ensures Unborn(r.states[i].cloud, r.states[k].cloud, j)
    decreases k - i
  {
    hide Inv, Enabled, Apply, Record, SameRecord;
    SameRecordHere(r.states[i].cloud, j);
    if i < k {
      assert r.labels[i..k] == r.labels[i..k - 1] + [r.labels[k - 1]];
      Snoc(r.labels[i..k - 1], r.labels[k - 1]);
      OthersOnlyCanceled(cfg, r, j, i, k - 1);
      var s, l := r.states[k - 1], r.labels[k - 1];
      assert Step(cfg, s, l, r.states[k]);
      if SameRecord(r.states[i].cloud, s.cloud, j) { SameRecordOn(r.states[i].cloud, s.cloud, r.states[k].cloud, j); }
      if SameRecord(s.cloud, r.states[k].cloud, j) { SameRecordOn(s.cloud, r.states[k].cloud, r.states[k].cloud, j); }
      if j in Drop(l) {
        RunInv(cfg, r, k - 1);
        CancelEffect(cfg, s, l, j);
      } else {
        UntouchedStep(cfg, s, l, j);
      }
    }
  }

  // ---------- Memory is what a fresh scan would read ----------

  /** Every job in memory is its durable spec and its durable record; while nobody has worked on it, each may be a new record with times of its own. */
  ghost predicate Mirrors(jobs: map<JobId, Job>, c: Cloud) {
    forall j <- jobs :: j in c.dirs && MirrorsJob(jobs[j], c, j)
  }

  ghost predicate MirrorsJob(job: Job, c: Cloud, j: JobId)
    requires j in c.dirs
  {
    && job.spec == c.dirs[j].spec && job.bucket == c.dirs[j].bucket && Alike(Record(c, j), job.state)
    && ((j in c.status && job.state == c.status[j]) || (Blank(job.state) && (j in c.status ==> Blank(c.status[j]))))
  }

  lemma AtRestMirrors(cfg: Config, s: Sys)
    requires Inv(cfg, s) && s.pc.Idle?
    ensures Mirrors(s.jobs, s.cloud)
  {
    hide CloudInv, Owns;
    forall j | j in s.jobs
      ensures j in s.cloud.dirs && MirrorsJob(s.jobs[j], s.cloud, j)
    {
      assert JobInv(cfg, s, j);
      MemoryAlike(cfg, s, j);
    }
  }

  /** The queued resources of the durably active jobs, by name. */
  ghost function ActiveIndex(c: Cloud): map<QrName, JobId> {
    map q | q in c.ledger && Held(c, q) :: c.ledger[q].job
  }

  lemma IndexDetermined(cfg: Config, s: Sys)
    requires Inv(cfg, s) && s.pc.Idle? && Complete(s) && Trim(s)
    ensures s.index == ActiveIndex(s.cloud)
  {
    hide CloudInv, JobInv, Complete;
    AtRestMirrors(cfg, s);
    forall q
      ensures q in s.index <==> q in ActiveIndex(s.cloud)
      ensures q in s.index ==> q in s.cloud.ledger && s.index[q] == s.cloud.ledger[q].job
    {
      if q in s.index {
        assert Current(s, q);
        var j := s.index[q];
        assert Alike(Record(s.cloud, j), s.jobs[j].state);
      }
      if q in s.cloud.ledger && Held(s.cloud, q) { UnclaimedUntracked(cfg, s, s.cloud.ledger[q].job, q); }
    }
  }

  /**
   Restart refinement: two schedulers at rest over the same cloud, such as a long-running one and one
   that has just scanned, hold the same index, and the same job once it has been worked on. A fresh scan
   holds the same jobs exactly if no directory is there that the other does not know.
   */
  lemma RestartRefines(cfg: Config, a: Sys, b: Sys, j: JobId)
    requires Inv(cfg, a) && a.pc.Idle? && Complete(a) && Trim(a)
    requires Inv(cfg, b) && b.pc.Idle? && Complete(b) && Trim(b) && b.cloud == a.cloud
    ensures a.index == b.index
    ensures j in a.jobs && j in b.jobs ==> a.jobs[j].spec == b.jobs[j].spec && Alike(a.jobs[j].state, b.jobs[j].state)
    ensures j in a.jobs && j in b.jobs && !Blank(a.jobs[j].state) ==> a.jobs[j] == b.jobs[j]
    ensures AllKnown(b) ==> (a.jobs.Keys == b.jobs.Keys <==> AllKnown(a))
  {
    hide Inv, Complete, Trim, Alike, Blank;
    IndexDetermined(cfg, a);
    IndexDetermined(cfg, b);
    AtRestMirrors(cfg, a);
    AtRestMirrors(cfg, b);
    SameAlike(Record(a.cloud, j));
  }

  /** Every job directory is in memory: what a complete scan establishes. */
  predicate AllKnown(s: Sys) {
    s.cloud.dirs.Keys <= s.jobs.Keys
  }

  /** From then on a step of the scheduler leaves a directory unknown exactly if it reaps a job and the deletion fails. */
  lemma StepKnown(cfg: Config, s: Sys, l: Label)
    requires Inv(cfg, s) && Enabled(cfg, s, l) && AllKnown(s) && !l.Env? && !l.Crash?
    ensures AllKnown(Apply(cfg, s, l)) <==> !(l.Reap? && !l.ok)
  {
    hide Inv, Enabled, Apply;
    if Writes(l) {
      WriteEffect(cfg, s, l);
    } else if l.Reap? {
      ReapKnown(cfg, s, l);
    } else if OfAttempt(l) {
      AttemptKnown(cfg, s, l);
    } else {
      OtherKnown(cfg, s, l);
    }
  }

  lemma ReapKnown(cfg: Config, s: Sys, l: Label)
    requires Inv(cfg, s) && Enabled(cfg, s, l) && l.Reap? && AllKnown(s)
    ensures AllKnown(Apply(cfg, s, l)) <==> l.ok
  {
    hide CloudInv, Complete;
    assert JobInv(cfg, s, l.job);
  }

  lemma AttemptKnown(cfg: Config, s: Sys, l: Label)
    requires Enabled(cfg, s, l) && OfAttempt(l) && !Writes(l)
    ensures Apply(cfg, s, l).cloud.dirs == s.cloud.dirs && s.jobs.Keys <= Apply(cfg, s, l).jobs.Keys
  {
    hide CanBeginPreempt, CanBeginActivate, CanBeginFinish, Verdict, Preempted, Finished, Activated, ToClean;
  }

  lemma OtherKnown(cfg: Config, s: Sys, l: Label)
    requires Enabled(cfg, s, l) && !OfAttempt(l) && !Writes(l) && !l.Reap? && !l.Env? && !l.Crash?
    ensures Apply(cfg, s, l).cloud.dirs == s.cloud.dirs && s.jobs.Keys <= Apply(cfg, s, l).jobs.Keys
  {
    hide CanLoad, CanRefresh, CanForget, CanClearRoot, CanCleanStale, CanCleanOrphan, CanCleanOwn, CanBeginCancel,
      CanBeginRetry, CanCreate, CanStamp, ToClean, Stored, Indexed;
  }

  lemma SameAlike(r: JobState)
    ensures forall x, y: JobState :: Alike(r, x) && Alike(r, y) ==> Alike(x, y)
  {
  }
}

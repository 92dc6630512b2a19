/** `scheduler.py`: the reconciliation loop, proved to perform nothing but steps of the protocol. */
module Schedulers {
  import opened Types
  import opened Lifecycle
  import opened Protocol
  import opened Invariant
  import opened Chips
  import opened Outcomes
  import opened Queue
  import opened Runs
  import opened Backends
  import opened Calm
  import opened Quota
  import opened Safety
  import opened Passes

  class Scheduler {
    const cfg: Config
    const backend: Backend
    var jobs: map<JobId, Job>
    var queuedResources: map<QrName, JobId>
    var createRetryNotBefore: map<JobId, int>
    /** Every create attempt this process has made. */
    ghost var tries: seq<Try>
    var jobScanSucceeded: bool
    var lastStateWrite: int
    var lastOrphanCheck: int

    /** Everything that ever happened, across restarts. */
    ghost var run: Run
    /** Where that run has led. */
    ghost var sys: Sys
    /** The run when the current pass began, and the labels of the pass so far. */
    ghost var start: Run
    ghost var pass: seq<Label>

    /** A start with empty memory, after whatever happened in `past`: the previous process may have died at any call. */
    constructor (backend: Backend, ghost past: Run, ghost before: Sys)
      requires Reaches(backend.cfg, past, before) && before.cloud == backend.cloud
      ensures Valid() && this.backend == backend && this.cfg == backend.cfg
      ensures jobs == map[] && queuedResources == map[] && pass == [] && Prolongs(past, run)
      ensures KeepsPace()
      ensures lastOrphanCheck == 0 && lastStateWrite == 0
    {
      this.backend, cfg := backend, backend.cfg;
      jobs, queuedResources, createRetryNotBefore, jobScanSucceeded := map[], map[], map[], true;
      lastStateWrite, lastOrphanCheck := 0, 0;
      ghost var blank := before.(jobs := map[], index := map[], pc := Idle);
      run, sys := Extend(past, Crash, blank), blank;
      start, pass, tries := Extend(past, Crash, blank), [], [];
      new;
      ReachStep(cfg, past, before, Crash, sys);
    }

    /** The concrete state is the last state of a run of the protocol, inside operation `pc`. */
    ghost predicate At(pc: Pc)
      reads this, backend
    {
      && backend.cfg == cfg
      && Reaches(cfg, run, sys) && Passed(start, run, pass, Today())
      && sys == Sys(jobs, queuedResources, backend.cloud, pc)
    }

    ghost predicate Valid()
      reads this, backend
    {
      At(Idle)
    }

    /** Create attempts have been spaced out so far and will be from here. */
    ghost predicate KeepsPace()
      reads this, backend
    {
      Paced(Max(0, cfg.createFailureBackoff), createRetryNotBefore, tries, backend.clock)
    }

    /** Every call succeeds and nothing else moves. */
    ghost predicate Undisturbed() {
      backend.reliable && backend.quiet
    }

    ghost function Today(): Weather {
      Weather(backend.reliable, backend.quiet)
    }

    /** Since `before`, only the state of job `j` has changed. */
    ghost predicate Only(before: map<JobId, Job>, j: JobId)
      reads this
    {
      OnlyState(before, jobs, j) && j in before && j in jobs && jobs[j].spec == before[j].spec
    }

    ghost function Here(): Point
      reads this
    {
      Point(pass, sys)
    }

    ghost predicate StepsCalmly(s: Sys, l: Label) {
      && !FromScan(l) && (backend.reliable ==> Succeeds(l))
      && (Undisturbed() ==> l.BindWrite? && s.pc.Creating? ==> s.pc.made in s.cloud.qrs)
    }

    /** One step of the protocol has been taken. */
    ghost method Note(l: Label, pc: Pc)
      requires backend.cfg == cfg && Reaches(cfg, run, sys) && Passed(start, run, pass, Today())
      requires AsExpected(Today(), l)
      requires Step(cfg, sys, l, Sys(jobs, queuedResources, backend.cloud, pc))
      modifies this`run, this`sys, this`pass
      ensures At(pc) && pass == old(pass) + [l]
      ensures Worked(pass) == old(Worked(pass)) + Work(l) && Dropped(pass) == old(Dropped(pass)) + Drop(l)
      ensures old(Complete(sys)) && !l.Crash? ==> Complete(sys)
      ensures StepsCalmly(old(sys), l) ==> Calmed(Today(), old(sys), sys)
    {
      hide Reaches, Passed, Calmed, Inv, Complete, Enabled, Apply, Work, Drop, Worked, Dropped;
      var t := Sys(jobs, queuedResources, backend.cloud, pc);
      ReachedInv(cfg, run, sys);
      if StepsCalmly(sys, l) { CalmedStep(cfg, Today(), sys, l); }
      if Complete(sys) && !l.Crash? {
        StepComplete(cfg, sys, l);
      }
      hide Step;
      ReachStep(cfg, run, sys, l, t);
      PassedOn(start, run, pass, Today(), l, t);
      Snoc(pass, l);
      run, sys := Extend(run, l, t), t;
      pass := pass + [l];
    }

    /** The environment has moved; the concrete state is caught up with by the step that follows. */
    ghost method NoteMove(mid: Cloud)
      requires Reaches(cfg, run, sys) && Passed(start, run, pass, Today()) && EnvRel(cfg, sys.cloud, mid)
      requires backend.quiet ==> mid == sys.cloud
      modifies this`run, this`sys, this`pass
      ensures Reaches(cfg, run, sys) && Passed(start, run, pass, Today()) && sys == old(sys).(cloud := mid)
      ensures Worked(pass) == old(Worked(pass)) && Dropped(pass) == old(Dropped(pass))
      ensures (old(Complete(sys)) ==> Complete(sys)) && (old(Trim(sys)) ==> Trim(sys))
    {
      hide Reaches, Passed, EnvRel, Complete, Step, Trim;
      if mid == sys.cloud { return; }
      if Complete(sys) { MoveKeepsComplete(cfg, sys, mid); }
      if Trim(sys) { TrimMoves(sys, mid); }
      MoveStep(cfg, sys, mid);
      ReachStep(cfg, run, sys, Env(mid), sys.(cloud := mid));
      PassedOn(start, run, pass, Today(), Env(mid), sys.(cloud := mid));
      Snoc(pass, Env(mid));
      run, sys := Extend(run, Env(mid), sys.(cloud := mid)), sys.(cloud := mid);
      pass := pass + [Env(mid)];
    }

    /** A remote call: the environment moved to `mid`, then the step was taken. */
    ghost method NoteCall(mid: Cloud, l: Label, pc: Pc)
      requires backend.cfg == cfg && Reaches(cfg, run, sys) && Passed(start, run, pass, Today()) && EnvRel(cfg, sys.cloud, mid)
      requires backend.quiet ==> mid == sys.cloud
      requires Step(cfg, sys.(cloud := mid), l, Sys(jobs, queuedResources, backend.cloud, pc))
      requires StepsCalmly(sys, l)
      modifies this`run, this`sys, this`pass
      ensures At(pc) && Went(Today(), old(Here()), Here(), Work(l), Drop(l))
    {
      hide Reaches, Passed, EnvRel, Complete, Step, Trim, Dead, Succeeds, Worked, Dropped;
      NoteMove(mid);
      assert backend.quiet ==> sys == old(sys);
      Note(l, pc);
    }

    // ---------- Writes and cleanups ----------

    /** `_write_status` */
    method WriteStatus(j: JobId) returns (now: string, ghost mid: Cloud)
      requires j in jobs
      modifies this`jobs, backend`cloud
      ensures now != "" && EnvRel(backend.cfg, old(backend.cloud), mid) && (backend.quiet ==> mid == old(backend.cloud))
      ensures jobs == old(jobs)[j := old(jobs)[j].(state := old(jobs)[j].state.(lastUpdated := now))]
      ensures backend.cloud == mid.(status := mid.status[j := jobs[j].state])
    {
      now := backend.UtcNow();
      jobs := jobs[j := jobs[j].(state := jobs[j].state.(lastUpdated := now))];
      mid := backend.WriteStatus(j, jobs[j].state);
    }

    /** `_cleanup_job_resources` */
    method CleanupJobResources(q: QrName, r: ResourceConfig) returns (ok: bool, ghost mid: Cloud)
      modifies this`queuedResources, backend`cloud
      ensures EnvRel(backend.cfg, old(backend.cloud), mid) && (backend.quiet ==> mid == old(backend.cloud))
      ensures backend.cloud == if ok then mid.(qrs := mid.qrs - {q}) else mid
      ensures queuedResources == if ok then old(queuedResources) - {q} else old(queuedResources)
      ensures backend.reliable ==> ok
    {
      ok, mid := backend.DeleteQueuedResource(q, r);
      if ok {
        queuedResources := queuedResources - {q};
      }
    }

    method ClearRootMark(j: JobId, name: RootName, ghost pc: Pc)
      requires At(pc) && j in jobs && (pc.Idle? ==> Complete(sys)) && (name.RootSucceeded? || name.RootFailed?)
      modifies this`run, this`sys, this`pass, backend`cloud
      ensures At(pc) && Went(Today(), old(Here()), Here(), {j}, {})
      ensures MarksBut(old(backend.cloud), backend.cloud, j)
      ensures backend.quiet ==> backend.cloud.marks == old(backend.cloud).marks - {Root(j, name)}
      ensures Undisturbed() ==> backend.cloud.qrs == old(backend.cloud).qrs && backend.cloud.ledger == old(backend.cloud).ledger
    {
      hide Reaches, Passed, Calmed;
      ghost var mid := backend.DeleteMark(Root(j, name));
      MarksMove(cfg, sys.cloud, mid);
      if pc.Idle? { MoveKeepsComplete(cfg, sys, mid); }
      hide EnvRel, Complete;
      NoteCall(mid, ClearRoot(j, name), pc);
    }

    method ClearRootMarks(j: JobId, ghost pc: Pc)
      requires At(pc) && j in jobs && (pc.Idle? ==> Complete(sys))
      modifies this`run, this`sys, this`pass, backend`cloud
      ensures At(pc) && Went(Today(), old(Here()), Here(), {j}, {})
      ensures MarksBut(old(backend.cloud), backend.cloud, j)
      ensures backend.quiet ==> backend.cloud.marks == old(backend.cloud).marks - {Root(j, RootFailed), Root(j, RootSucceeded)}
      ensures Undisturbed() ==> backend.cloud.qrs == old(backend.cloud).qrs && backend.cloud.ledger == old(backend.cloud).ledger
    {
      hide Reaches, Passed, Calmed, Complete, MarksBut;
      ghost var a := Here();
      ClearRootMark(j, RootFailed, pc);
      ghost var b := Here();
      ClearRootMark(j, RootSucceeded, pc);
      MarksButOn(a.sys.cloud, b.sys.cloud, backend.cloud, j);
      WentOn(Today(), a, b, Here(), {j}, {});
    }

    /** `_cleanup_job_resources` on the queued resource of the operation in progress. */
    method CleanUpOwn(j: JobId, q: QrName, r: ResourceConfig, ghost pc: Pc)
      requires At(pc) && CanCleanOwn(sys, j, q)
      modifies this`queuedResources, this`run, this`sys, this`pass, backend`cloud
      ensures At(if pc.Preempting? then Preempting(j, None, pc.was) else Idle) && Went(Today(), old(Here()), Here(), {j}, {})
      ensures queuedResources == old(queuedResources) || queuedResources == old(queuedResources) - {q}
      ensures backend.reliable ==> q !in queuedResources
      ensures backend.quiet ==> backend.cloud.marks == old(backend.cloud).marks
    {
      hide Reaches, Passed, Calmed, EnvRel, Complete;
      var ok, mid := CleanupJobResources(q, r);
      NoteCall(mid, CleanOwn(j, q, ok), if pc.Preempting? then Preempting(j, None, pc.was) else Idle);
    }

    /** `_write_status` after a memory update that ran ahead. */
    method WriteBack(j: JobId, ghost pc: Pc) returns (ghost now: string)
      requires At(pc) && j in jobs && Dirty(pc) && pc.job == j && (pc.Preempting? ==> pc.qr.None?)
      modifies this`jobs, this`run, this`sys, this`pass, backend`cloud
      ensures At(if pc.Finishing? && pc.qr.Some? then Cleaning(j, pc.qr.value) else Idle) && Went(Today(), old(Here()), Here(), {j}, {})
      ensures Only(old(jobs), j) && jobs[j].state == old(jobs)[j].state.(lastUpdated := now)
      ensures old(backend.cloud).marks.Keys <= backend.cloud.marks.Keys
      ensures backend.quiet ==> backend.cloud.marks == old(backend.cloud).marks
    {
      hide Reaches, Passed, Calmed, EnvRel, Complete, Step, Worked, Dropped;
      var stamp, mid := WriteStatus(j);
      now := stamp;
      MarksMove(cfg, sys.cloud, mid);
      FlushStep(cfg, sys.(cloud := mid), Sys(jobs, queuedResources, backend.cloud, if pc.Finishing? && pc.qr.Some? then Cleaning(j, pc.qr.value) else Idle), j, now);
      NoteCall(mid, FlushLabel(pc, j, now), if pc.Finishing? && pc.qr.Some? then Cleaning(j, pc.qr.value) else Idle);
    }

    // ---------- Infrastructure failures ----------

    /** The memory update of `_handle_preemption`. */
    method AppendCharge(j: JobId, q: QrName, error: string) returns (now: string)
      requires j in jobs
      modifies this`jobs
      ensures jobs == old(jobs)[j := old(jobs)[j].(state := Preempted(old(jobs)[j].state, q, now, error, old(jobs)[j].spec.maxAttempts))]
      ensures now != "" && ChargedTo(old(jobs)[j], jobs[j], q, error) && AttemptTimes(old(jobs)[j], jobs[j])
    {
      var job := jobs[j];
      var attempt := job.state.currentAttempt + 1;
      var retryable := attempt < job.spec.maxAttempts;
      now := backend.UtcNow();
      var st := job.state.(attempts := job.state.attempts + [
        AttemptRecord(attempt, q, OrElse(job.state.provisionedAt, ""), now, Some(error),
                      Some(INFRASTRUCTURE_PREEMPTION), Some(retryable), None, None, None)]);
      st := st.(currentAttempt := st.currentAttempt + 1);
      st := st.(provisionedAt := None, currentQrName := None, currentQrState := None);
      if st.currentAttempt >= job.spec.maxAttempts {
        st := st.(status := Failed);
      } else {
        st := st.(status := Pending);
      }
      jobs := jobs[j := job.(state := st)];
    }

    /** The first half of `_handle_preemption`: the attempt is charged in memory. */
    method ChargeAttempt(j: JobId, q: QrName, error: string, ghost why: Observation) returns (ghost now: string)
      requires Valid() && j in jobs && CanBeginPreempt(cfg, sys, j, why)
      requires jobs[j].state.currentQrName == Some(q) && error == ErrorText(why)
      modifies this`jobs, this`run, this`sys, this`pass
      ensures At(Preempting(j, Some(q), old(jobs)[j].state)) && Went(Today(), old(Here()), Here(), {j}, {})
      ensures Only(old(jobs), j)
      ensures now != "" && jobs[j].state == Preempted(old(jobs)[j].state, q, now, error, jobs[j].spec.maxAttempts)
    {
      hide Reaches, Passed, Calmed, CanBeginPreempt, Complete, Step, Preempted, ChargedTo, AttemptTimes;
      ghost var was := jobs[j].state;
      var stamp := AppendCharge(j, q, error);
      now := stamp;
      PreemptStep(cfg, sys, Sys(jobs, queuedResources, backend.cloud, Preempting(j, Some(q), was)), j, why, stamp);
      Note(BeginPreempt(j, why, now), Preempting(j, Some(q), was));
    }

    /** `_handle_preemption` */
    method HandlePreemption(j: JobId, q: QrName, r: ResourceConfig, error: string, ghost why: Observation)
        returns (ghost now: string, ghost upd: string)
      requires Valid() && j in jobs && CanBeginPreempt(cfg, sys, j, why)
      requires jobs[j].state.currentQrName == Some(q) && error == ErrorText(why)
      modifies this`jobs, this`queuedResources, this`run, this`sys, this`pass, backend`cloud
      ensures Valid() && Went(Today(), old(Here()), Here(), {j}, {}) && Only(old(jobs), j)
      ensures jobs[j].state == Preempted(old(jobs)[j].state, q, now, error, jobs[j].spec.maxAttempts).(lastUpdated := upd)
      // Pending again exactly while attempts are left, with one record more: this attempt, on this queued resource, for this reason.
      ensures ChargedTo(old(jobs)[j], jobs[j], q, error) && AttemptTimes(old(jobs)[j], jobs[j]) && ChargeText(error)
      ensures queuedResources == old(queuedResources) || queuedResources == old(queuedResources) - {q}
      ensures backend.reliable ==> q !in queuedResources
      // What older scripts left in the root directory cannot decide the next attempt.
      ensures backend.quiet ==> Root(j, RootFailed) !in backend.cloud.marks && Root(j, RootSucceeded) !in backend.cloud.marks
    {
      hide Reaches, Passed, CanBeginPreempt, Complete, Preempted, Went, OnlyState, ChargedTo, AttemptTimes, ChargeText;
      PreemptFacts(cfg, sys, j, why);
      ghost var was, jobs0 := jobs[j].state, jobs;
      ghost var a := Here();
      now := ChargeAttempt(j, q, error, why);
      ghost var b := Here();
      ghost var jobs1 := jobs;
      ClearRootMarks(j, Preempting(j, Some(q), was));
      ghost var c := Here();
      WentOn(Today(), a, b, c, {j}, {});
      CleanUpOwn(j, q, r, Preempting(j, Some(q), was));
      ghost var d := Here();
      WentOn(Today(), a, c, d, {j}, {});
      upd := WriteBack(j, Preempting(j, None, was));
      WentOn(Today(), a, d, Here(), {j}, {});
      OnlyOn(jobs0, jobs1, jobs, j);
      PreemptedMeans(jobs0[j], q, now, error, upd);
      OnlyJob(jobs0, jobs, j);
    }

    // ---------- Endings ----------

    /** The memory update of `_finish_job`. */
    method AppendOutcome(j: JobId, outcome: Outcome) returns (now: string)
      requires j in jobs && !outcome.Undecided?
      modifies this`jobs
      ensures now != "" && jobs == old(jobs)[j := old(jobs)[j].(state := Finished(cfg, old(jobs)[j].state, now, outcome))]
    {
      var job := jobs[j];
      var attempt := job.state.currentAttempt + 1;
      now := backend.UtcNow();
      var record := AttemptRecord(attempt, OrElse(job.state.currentQrName, ""), OrElse(job.state.provisionedAt, ""), now,
                                  None, None, None, None, None, None);
      if outcome.Lost? {
        var report := ParseFailureReport(cfg, outcome.text);
        record := record.(error := Some(report.message), failureType := Some(report.failureType), retryable := Some(false),
                          phase := report.phase, workerId := report.workerId, exitCode := report.exitCode);
      }
      var st := job.state.(attempts := job.state.attempts + [record], currentAttempt := attempt);
      st := st.(status := if record.error.Some? then Failed else Succeeded);
      st := st.(currentQrName := None, currentQrState := None);
      jobs := jobs[j := job.(state := st)];
    }

    /** The first half of `_finish_job`: the outcome is recorded in memory. */
    method RecordOutcome(j: JobId, outcome: Outcome, ghost missed: set<Mark>) returns (ghost now: string)
      requires Valid() && j in jobs && CanBeginFinish(sys, j, missed)
      requires outcome == Verdict(backend.cloud.marks - missed, j, jobs[j].state.currentAttempt + 1)
      modifies this`jobs, this`run, this`sys, this`pass
      ensures At(Finishing(j, ToClean(cfg, old(jobs)[j]), old(jobs)[j].state)) && Went(Today(), old(Here()), Here(), {j}, {})
      ensures Only(old(jobs), j) && now != "" && jobs[j].state == Finished(cfg, old(jobs)[j].state, now, outcome)
    {
      hide Reaches, Passed, Calmed, Complete, Verdict, Step, Finished;
      ghost var was := jobs[j];
      var stamp := AppendOutcome(j, outcome);
      now := stamp;
      FinishStep(cfg, sys, Sys(jobs, queuedResources, backend.cloud, Finishing(j, ToClean(cfg, was), was.state)), j, stamp, missed);
      Note(BeginFinish(j, now, missed), Finishing(j, ToClean(cfg, was), was.state));
    }

    /** `_finish_job`: the durable record is terminal before the queued resource goes. */
    method FinishJob(j: JobId, outcome: Outcome, ghost missed: set<Mark>) returns (ghost now: string, ghost upd: string)
      requires Valid() && j in jobs && CanBeginFinish(sys, j, missed)
      requires outcome == Verdict(backend.cloud.marks - missed, j, jobs[j].state.currentAttempt + 1)
      modifies this`jobs, this`queuedResources, this`run, this`sys, this`pass, backend`cloud
      ensures Valid() && Went(Today(), old(Here()), Here(), {j}, {}) && Only(old(jobs), j)
      ensures jobs[j].state == Finished(cfg, old(jobs)[j].state, now, outcome).(lastUpdated := upd)
      // A success, or a failure told as its report tells it; and with reliable calls the queued resource is no longer tracked.
      ensures FinishedTo(cfg, old(jobs)[j], jobs[j], outcome) && AttemptTimes(old(jobs)[j], jobs[j])
      ensures backend.reliable && old(jobs)[j].state.currentQrName.Some? ==> old(jobs)[j].state.currentQrName.value !in queuedResources
      ensures backend.quiet ==> backend.cloud.marks == old(backend.cloud).marks
    {
      hide Reaches, Passed, CanBeginFinish, Complete, Finished, Verdict, Went, OnlyState, FinishedTo, AttemptTimes;
      FinishFacts(cfg, run, sys, j, outcome, missed);
      var current := ToClean(cfg, jobs[j]);
      var resource := ResourceOf(cfg, jobs[j].spec);
      ghost var was, jobs0 := jobs[j].state, jobs;
      ghost var a := Here();
      now := RecordOutcome(j, outcome, missed);
      ghost var jobs1 := jobs;
      ghost var b := Here();
      upd := WriteBack(j, Finishing(j, current, was));
      ghost var c := Here();
      WentOn(Today(), a, b, c, {j}, {});
      OnlyOn(jobs0, jobs1, jobs, j);
      FinishedMeans(cfg, jobs0[j], now, outcome, upd);
      OnlyJob(jobs0, jobs, j);
      if current.Some? {
        CleanUpOwn(j, current.value, resource.value, Cleaning(j, current.value));
        WentOn(Today(), a, c, Here(), {j}, {});
      }
    }

    /** `_cancel_job` */
    method CancelJob(j: JobId) returns (ghost now: string)
      requires Valid() && CanBeginCancel(sys, j)
      modifies this`jobs, this`queuedResources, this`run, this`sys, this`pass, backend`cloud
      ensures Valid() && Went(Today(), old(Here()), Here(), {}, {j}) && Only(old(jobs), j)
      ensures CanceledTo(old(jobs)[j], jobs[j])
      ensures backend.reliable && old(jobs)[j].state.currentQrName.Some? ==> old(jobs)[j].state.currentQrName.value !in queuedResources
      ensures old(backend.cloud).marks.Keys <= backend.cloud.marks.Keys
    {
      hide Reaches, Passed, CanBeginCancel, Complete, Went, OnlyState;
      CancelFacts(cfg, run, sys, j);
      var current := ToClean(cfg, jobs[j]);
      var resource := ResourceOf(cfg, jobs[j].spec);
      ghost var a := Here();
      EnterCancel(j, current);
      ghost var b := Here();
      if current.Some? {
        CancelCleanup(j, current.value, resource.value);
        WentOn(Today(), a, b, Here(), {}, {j});
      }
      ghost var c := Here();
      now := CancelRecord(j);
      WentOn(Today(), a, c, Here(), {}, {j});
      OnlyJob(old(jobs), jobs, j);
    }

    ghost method EnterCancel(j: JobId, current: Option<QrName>)
      requires Valid() && CanBeginCancel(sys, j) && current == ToClean(cfg, jobs[j])
      modifies this`run, this`sys, this`pass
      ensures At(Canceling(j, current)) && Went(Today(), old(Here()), Here(), {}, {j})
    {
      hide Reaches, Passed, Calmed, Complete;
      Note(BeginCancel(j), Canceling(j, current));
    }

    method CancelCleanup(j: JobId, q: QrName, r: ResourceConfig)
      requires At(Canceling(j, Some(q)))
      modifies this`queuedResources, this`run, this`sys, this`pass, backend`cloud
      ensures At(Canceling(j, None)) && Went(Today(), old(Here()), Here(), {}, {j})
      ensures backend.reliable ==> q !in queuedResources
      ensures old(backend.cloud).marks.Keys <= backend.cloud.marks.Keys
    {
      hide Reaches, Passed, Calmed, EnvRel, Complete;
      var ok, mid := CleanupJobResources(q, r);
      MarksMove(cfg, sys.cloud, mid);
      NoteCall(mid, CancelClean(j, q, ok), Canceling(j, None));
    }

    method CancelRecord(j: JobId) returns (ghost now: string)
      requires At(Canceling(j, None)) && j in jobs
      modifies this`jobs, this`run, this`sys, this`pass, backend`cloud
      ensures Valid() && Went(Today(), old(Here()), Here(), {}, {j}) && Only(old(jobs), j)
      ensures jobs[j].state == CanceledState(old(jobs)[j].state).(lastUpdated := now)
      ensures old(backend.cloud).marks.Keys <= backend.cloud.marks.Keys
    {
      hide Reaches, Passed, Calmed, EnvRel, Complete, Step;
      jobs := jobs[j := jobs[j].(state := jobs[j].state.(status := Canceled, currentQrName := None, currentQrState := None))];
      var stamp, mid := WriteStatus(j);
      now := stamp;
      MarksMove(cfg, sys.cloud, mid);
      CancelStep(cfg, sys.(cloud := mid), Sys(jobs, queuedResources, backend.cloud, Idle), j, now);
      NoteCall(mid, CancelWrite(j, now), Idle);
    }

    // ---------- Polling ----------

    /** The `PROVISIONING` branch of `_handle_qr_state`. */
    method Activate(j: JobId, q: QrName) returns (ghost now: string)
      requires Valid() && Complete(sys) && j in jobs && HasResource(cfg, jobs[j])
      requires jobs[j].state.currentQrName == Some(q) && jobs[j].state.status.Provisioning? && Sighted(backend.cloud, q, QrActive)
      modifies this`jobs, this`run, this`sys, this`pass, backend`cloud
      ensures Valid() && Went(Today(), old(Here()), Here(), {j}, {}) && Only(old(jobs), j)
      ensures ActivatedTo(old(jobs)[j], jobs[j]) && jobs[j].state.provisionedAt == Some(now)
      ensures Active(jobs[j].state) && jobs[j].state.currentQrName == Some(q) && Root(j, RunningMark) in backend.cloud.marks
    {
      hide Reaches, Passed, Complete, Went, OnlyState;
      ghost var was, jobs0, a := jobs[j].state, jobs, Here();
      var stamp := EnterActivation(j);
      now := stamp;
      ghost var jobs1, b := jobs, Here();
      MarkAsRunning(j, stamp, Activating(j, was));
      ghost var c := Here();
      WentOn(Today(), a, b, c, {j}, {});
      var _ := WriteBack(j, Activating(j, was));
      WentOn(Today(), a, c, Here(), {j}, {});
      OnlyOn(jobs0, jobs1, jobs, j);
      OnlyJob(jobs0, jobs, j);
    }

    method EnterActivation(j: JobId) returns (now: string)
      requires Valid() && Complete(sys) && j in jobs && HasResource(cfg, jobs[j])
      requires jobs[j].state.status.Provisioning? && Sighted(backend.cloud, jobs[j].state.currentQrName.value, QrActive)
      modifies this`jobs, this`run, this`sys, this`pass
      ensures At(Activating(j, old(jobs)[j].state)) && Went(Today(), old(Here()), Here(), {j}, {}) && Only(old(jobs), j)
      ensures now != "" && jobs[j].state == Activated(old(jobs)[j].state, now)
    {
      hide Reaches, Passed, Calmed, Complete, Step;
      now := backend.UtcNow();
      var st := jobs[j].state;
      jobs := jobs[j := jobs[j].(state := st.(status := Running, provisionedAt := Some(now)))];
      ActivateStep(cfg, sys, Sys(jobs, queuedResources, backend.cloud, Activating(j, st)), j, now);
      Note(BeginActivate(j, now), Activating(j, st));
    }

    method MarkAsRunning(j: JobId, text: string, ghost pc: Pc)
      requires At(pc) && pc.Activating? && pc.job == j
      modifies this`run, this`sys, this`pass, backend`cloud
      ensures At(pc) && Went(Today(), old(Here()), Here(), {j}, {})
      ensures Root(j, RunningMark) in backend.cloud.marks
    {
      hide Reaches, Passed, Calmed, EnvRel, Complete;
      var mid := backend.WriteMark(Root(j, RunningMark), text);
      NoteCall(mid, MarkRunning(j, text), pc);
    }

    /** `poll_queued_resources` writes the state it saw. */
    method NoteState(j: JobId, st: QRState)
      requires Valid() && Complete(sys) && j in jobs && Active(jobs[j].state)
      modifies this`jobs, this`run, this`sys, this`pass, backend`cloud
      ensures Valid() && Complete(sys) && Went(Today(), old(Here()), Here(), {j}, {}) && Only(old(jobs), j)
      ensures exists t :: jobs[j].state == old(jobs)[j].state.(currentQrState := Some(st), lastUpdated := t)
      ensures forall q, x :: old(Sighted(backend.cloud, q, x)) ==> Sighted(backend.cloud, q, x)
      ensures Undisturbed() ==> backend.cloud.qrs == old(backend.cloud).qrs
    {
      hide Reaches, Passed, Calmed, Complete, Step;
      ghost var was := jobs[j].state;
      jobs := jobs[j := jobs[j].(state := jobs[j].state.(currentQrState := Some(st)))];
      var now, mid := WriteStatus(j);
      MoveKeepsComplete(cfg, sys, mid);
      assert jobs[j].state == was.(currentQrState := Some(st), lastUpdated := now);
      NoteStep(cfg, sys.(cloud := mid), Sys(jobs, queuedResources, backend.cloud, Idle), j, st, now);
      NoteCall(mid, NoteQr(j, st, now), Idle);
    }

    /** `_check_active_timeouts` */
    method CheckActiveTimeouts(j: JobId, q: QrName, r: ResourceConfig) returns (late: bool, ghost error: string)
      requires Valid() && Complete(sys) && j in jobs && HasResource(cfg, jobs[j])
      requires jobs[j].state.currentQrName == Some(q) && jobs[j].state.status.Running? && Sighted(backend.cloud, q, QrActive)
      modifies this`jobs, this`queuedResources, this`run, this`sys, this`pass, backend`cloud, backend`clock
      ensures old(backend.clock) <= backend.clock
      ensures Valid() && Went(Today(), old(Here()), Here(), {j}, {}) && Only(old(jobs), j)
      ensures !late ==> jobs == old(jobs) && backend.cloud == old(backend.cloud) && queuedResources == old(queuedResources)
      ensures late ==> ChargedTo(old(jobs)[j], jobs[j], q, error) && AttemptTimes(old(jobs)[j], jobs[j]) && ChargeText(error)
      ensures queuedResources == old(queuedResources) || queuedResources == old(queuedResources) - {q}
      ensures backend.reliable && late ==> q !in queuedResources
      // An attempt without a claim is late exactly when its time to claim is up, and one that has claimed exactly when it has
      // fallen silent, unless a call fails.
      ensures Overdue(cfg, old(backend.cloud).marks, j, old(jobs)[j].state, backend.clock, backend.reliable, late, error)
    {
      hide Reaches, Passed, Complete, Preempted, ChargedTo, AttemptTimes, ChargeText, PastClaiming, FellSilent;
      late, error := false, "";
      var st := jobs[j].state;
      var started := if Truthy(st.provisionedAt) then cfg.parseTime(st.provisionedAt.value) else None;
      TimeoutIff(cfg, backend.cloud, j, st, backend.clock);
      if started.None? {
        return;
      }
      var now := backend.Now();
      TimeoutIff(cfg, backend.cloud, j, st, now);
      var attempt := st.currentAttempt + 1;
      var claimed, answered := backend.Exists(Scoped(j, attempt, Claimed));
      if !claimed {
        var elapsed := now - started.value;
        if elapsed > cfg.activeNoClaimTimeout {
          var _, _ := HandlePreemption(j, q, r, "ACTIVE_NO_CLAIM_TIMEOUT", NoClaim(now, answered));
          late, error := true, "ACTIVE_NO_CLAIM_TIMEOUT";
        }
        return;
      }
      var beat := backend.ReadMarkResult(Scoped(j, attempt, Heartbeat));
      if !beat.succeeded {
        return;
      }
      var text := cfg.strip(OrElse(beat.content, ""));
      var last := if text != "" then cfg.parseTime(text) else None;
      if last.None? {
        last := started;
      }
      var elapsed := now - last.value;
      if elapsed > cfg.heartbeatTimeout {
        var _, _ := HandlePreemption(j, q, r, "HEARTBEAT_TIMEOUT", LateHeartbeat(now));
        late, error := true, "HEARTBEAT_TIMEOUT";
      }
    }

    /** `_handle_qr_state` for a queued resource that was just seen in state `st`. */
    method HandleQrState(j: JobId, q: QrName, st: QRState, r: ResourceConfig)
        returns (charged: bool, ghost vm: TpuVmStatus, ghost error: string)
      requires Valid() && Complete(sys) && j in jobs && HasResource(cfg, jobs[j])
      requires jobs[j].state.currentQrName == Some(q) && Sighted(backend.cloud, q, st)
      modifies this`jobs, this`queuedResources, this`run, this`sys, this`pass, backend`cloud, backend`clock
      ensures old(backend.clock) <= backend.clock
      ensures Valid() && Went(Today(), old(Here()), Here(), {j}, {}) && Only(old(jobs), j)
      ensures charged ==> ChargedTo(old(jobs)[j], jobs[j], q, error) && AttemptTimes(old(jobs)[j], jobs[j]) && ChargeText(error)
      ensures !charged ==> Active(jobs[j].state) && jobs[j].state.currentQrName == Some(q)
      ensures !charged ==> jobs == old(jobs) || (Root(j, RunningMark) in backend.cloud.marks && ActivatedTo(old(jobs)[j], jobs[j]))
      ensures queuedResources == old(queuedResources) || queuedResources == old(queuedResources) - {q}
      ensures backend.reliable && charged ==> q !in queuedResources
      // Exactly when, and for what reason.
      ensures st.QrSuspending? ==> charged && error == "SUSPENDING"
      ensures st.QrSuspended? ==> charged && error == "SUSPENDED"
      ensures st.QrFailed? ==> charged && error == "QR_FAILED"
      ensures st.QrWaiting? || st.QrProvisioning? ==> !charged && jobs == old(jobs)
      ensures st.QrActive? && VmGone(vm) ==> charged && error == "TPU_VM_" + vm.state.value
      ensures st.QrActive? && VmUnhealthy(vm) ==> charged && error == "TPU_VM_HEALTH_" + vm.health.value
      ensures st.QrActive? && !VmGone(vm) && !VmUnhealthy(vm) && old(jobs)[j].state.status.Provisioning? ==>
                !charged && jobs[j].state.status.Running?
      ensures st.QrActive? && !VmGone(vm) && !VmUnhealthy(vm) && old(jobs)[j].state.status.Running? ==>
                Overdue(cfg, old(backend.cloud).marks, j, old(jobs)[j].state, backend.clock, backend.reliable, charged, error)
    {
      hide Reaches, Passed, Complete, Preempted, Activated, Went, ChargedTo, AttemptTimes, ChargeText, PastClaiming, FellSilent;
      charged, error := false, "";
      vm := TpuVmStatus(None, None);
      if Terminal(jobs[j].state.status) {
        // Unreachable: a job with a current queued resource is active.
        assert false;
      } else if st.QrActive? {
        var status := backend.GetTpuVmStatus(q, r);
        vm := status;
        if status.state.Some? && status.state.value in TERMINAL_TPU_VM_STATES {
          var _, _ := HandlePreemption(j, q, r, "TPU_VM_" + status.state.value, VmState(status.state.value));
          charged, error := true, "TPU_VM_" + status.state.value;
        } else if status.health.Some? && status.health.value in RETRY_TPU_VM_HEALTH {
          var _, _ := HandlePreemption(j, q, r, "TPU_VM_HEALTH_" + status.health.value, VmHealth(status.health.value));
          charged, error := true, "TPU_VM_HEALTH_" + status.health.value;
        } else if jobs[j].state.status.Provisioning? {
          var _ := Activate(j, q);
        } else {
          charged, error := CheckActiveTimeouts(j, q, r);
        }
      } else if st.QrSuspending? || st.QrSuspended? {
        var _, _ := HandlePreemption(j, q, r, if st.QrSuspending? then "SUSPENDING" else "SUSPENDED", QrSuspension(st));
        charged, error := true, if st.QrSuspending? then "SUSPENDING" else "SUSPENDED";
      } else if st.QrFailed? {
        var _, _ := HandlePreemption(j, q, r, "QR_FAILED", QrFailure);
        charged, error := true, "QR_FAILED";
      } else {
        WentNowhere(Today(), Here(), {j}, {});
      }
    }

    /** A tracked name that is not its job's current queued resource is deleted again. */
    method DropStale(q: QrName, j: JobId, r: ResourceConfig)
      requires Valid() && Complete(sys) && j in jobs && q in queuedResources && queuedResources[q] == j
      requires jobs[j].state.currentQrName != Some(q)
      modifies this`queuedResources, this`run, this`sys, this`pass, backend`cloud
      ensures Valid() && Went(Today(), old(Here()), Here(), {j}, {})
      ensures queuedResources == old(queuedResources) || queuedResources == old(queuedResources) - {q}
      ensures backend.reliable ==> q !in queuedResources
    {
      hide Reaches, Passed, Calmed;
      var ok, mid := CleanupJobResources(q, r);
      MoveKeepsComplete(cfg, sys, mid);
      hide Complete, EnvRel;
      NoteCall(mid, CleanStale(j, q, ok), Idle);
    }

    method ForgetEntry(q: QrName)
      requires Valid() && q in queuedResources && queuedResources[q] !in jobs
      modifies this`queuedResources, this`run, this`sys, this`pass
      ensures Valid() && Went(Today(), old(Here()), Here(), {}, {})
      ensures queuedResources == old(queuedResources) - {q}
    {
      hide Reaches, Passed, Calmed, Complete;
      queuedResources := queuedResources - {q};
      Note(Forget(q), Idle);
    }

    /** The poll of the current queued resource of an active job. */
    method PollCurrent(q: QrName, j: JobId, r: ResourceConfig)
      requires Valid() && Complete(sys) && j in jobs && HasResource(cfg, jobs[j])
      requires jobs[j].state.currentQrName == Some(q) && ResourceOf(cfg, jobs[j].spec) == Some(r)
      modifies this`jobs, this`queuedResources, this`run, this`sys, this`pass, backend`cloud, backend`clock
      ensures old(backend.clock) <= backend.clock
      ensures Valid() && Went(Today(), old(Here()), Here(), {j}, {}) && Polled(old(jobs), jobs) && OnlyState(old(jobs), jobs, j)
      ensures queuedResources == old(queuedResources) || queuedResources == old(queuedResources) - {q}
      ensures backend.reliable && q in queuedResources ==>
                q in old(backend.cloud).qrs && Active(jobs[j].state) && jobs[j].state.currentQrName == Some(q)
      ensures backend.reliable && q !in old(backend.cloud).qrs ==> ChargedTo(old(jobs)[j], jobs[j], q, "QR disappeared")
    {
      hide Reaches, Passed, Complete, Went, OnlyState, Justified, Sighted, ChargedTo, AttemptTimes, ChargeText,
        VmGone, VmUnhealthy, Overdue;
      ghost var jobs0, a := jobs, Here();
      var state, answered := backend.GetQueuedResourceState(q, r);
      if state.None? {
        assert Justified(cfg, backend.cloud, j, jobs[j].state, q, r, QrMissing(answered)) by { MissingEvidence(cfg, backend.cloud, j, jobs[j].state, q, r, answered); }
        var _, _ := HandlePreemption(j, q, r, "QR disappeared", QrMissing(answered));
        OnlyNothing(jobs0, j);
        PolledTo(jobs0, jobs0, jobs, j, true, "QR disappeared");
        return;
      }
      SeenEvidence(cfg, run, sys, q);
      if jobs[j].state.currentQrState != Some(state.value) {
        NoteState(j, state.value);
      } else {
        WentNowhere(Today(), Here(), {j}, {});
        OnlyNothing(jobs, j);
      }
      ghost var jobs1, b := jobs, Here();
      var charged, _, error := HandleQrState(j, q, state.value, r);
      WentOn(Today(), a, b, Here(), {j}, {});
      OnlyOn(jobs0, jobs1, jobs, j);
      PolledTo(jobs0, jobs1, jobs, j, charged, error);
    }

    /** One iteration of `poll_queued_resources`. */
    method PollEntry(q: QrName, j: JobId)
      requires Valid() && Complete(sys) && q in queuedResources && queuedResources[q] == j
      modifies this`jobs, this`queuedResources, this`run, this`sys, this`pass, backend`cloud, backend`clock
      ensures old(backend.clock) <= backend.clock
      ensures Valid() && Complete(sys) && Went(Today(), old(Here()), Here(), {j}, {}) && Polled(old(jobs), jobs)
      ensures queuedResources == old(queuedResources) || queuedResources == old(queuedResources) - {q}
      // Only the job of the entry changes, and only if the entry is its current queued resource.
      ensures forall i <- old(jobs) :: i != j ==> jobs[i] == old(jobs)[i]
      ensures j in old(jobs) && old(jobs)[j].state.currentQrName != Some(q) ==> jobs == old(jobs)
      ensures j !in old(jobs) ==> q !in queuedResources
      // With reliable calls the entry is gone or in order afterwards, and a missing queued resource has been charged.
      ensures q in queuedResources ==> InOrder(Today(), sys, q)
      ensures backend.reliable && j in jobs && old(jobs)[j].state.currentQrName == Some(q) && q !in old(backend.cloud).qrs ==>
                ChargedTo(old(jobs)[j], jobs[j], q, "QR disappeared")
    {
      hide Reaches, Passed, Complete, ChargedTo, Polled;
      if j !in jobs {
        ForgetEntry(q);
        PolledNothing(jobs);
        return;
      }
      CurrentFacts(cfg, run, sys, j);
      var r := ResourceOf(cfg, jobs[j].spec);
      if r.None? {
        // Unreachable: only jobs on configured resources are ever tracked.
        TrackedResource(cfg, run, sys, q);
        assert false;
      } else if jobs[j].state.currentQrName != Some(q) {
        DropStale(q, j, r.value);
        PolledNothing(jobs);
      } else {
        ghost var was := sys;
        PollCurrent(q, j, r.value);
        if Undisturbed() && q in queuedResources {
          assert q !in Dead(was) && q in sys.index;
        }
      }
    }

    /** `poll_queued_resources` */
    method PollQueuedResources(ids: Option<set<JobId>>)
      requires Valid() && Complete(sys)
      modifies this`jobs, this`queuedResources, this`run, this`sys, this`pass, backend`cloud, backend`clock
      ensures old(backend.clock) <= backend.clock
      ensures Valid() && Complete(sys) && Polled(old(jobs), jobs)
      ensures ids.Some? ==> Went(Today(), old(Here()), Here(), ids.value, {})
      ensures Calmed(Today(), old(sys), sys)
      // With reliable calls, every entry left in scope is the current queued resource of an active job: the rest was
      // charged or dropped. If nothing else moves they all exist.
      ensures forall q <- queuedResources :: ids.None? || queuedResources[q] in ids.value ==> InOrder(Today(), sys, q)
      ensures backend.reliable && ids.None? ==> Trim(sys) && (backend.quiet ==> Dead(sys) == {})
    {
      hide Reaches, Passed, Trim, Dead, Complete, Polled, InOrder, Calmed, Went;
      ghost var jobs0, a := jobs, Here();
      var items := queuedResources;
      var todo := items.Keys;
      PolledNothing(jobs);
      CalmStart(Today(), sys);
      WentNowhere(Today(), Here(), if ids.Some? then ids.value else {}, {});
      while todo != {}
        invariant Valid() && Complete(sys) && Polled(jobs0, jobs) && todo <= items.Keys
        invariant forall q <- todo :: q in queuedResources && queuedResources[q] == items[q]
        invariant old(backend.clock) <= backend.clock
        invariant queuedResources.Keys <= items.Keys
        invariant ids.Some? ==> Went(Today(), a, Here(), ids.value, {})
        invariant Calmed(Today(), a.sys, sys)
        invariant forall q <- queuedResources :: q in items && queuedResources[q] == items[q]
        invariant forall q <- queuedResources :: q in todo || !(ids.None? || items[q] in ids.value) || InOrder(Today(), sys, q)
      {
        var q :| q in todo;
        todo := todo - {q};
        var j := items[q];
        if ids.None? || j in ids.value {
          ghost var jobs1, b := jobs, Here();
          PollEntry(q, j);
          PolledOn(jobs0, jobs1, jobs);
          PolledKeys(jobs1, jobs);
          WentCalm(Today(), b, Here(), {j}, {});
          CalmedOn(Today(), a.sys, b.sys, sys);
          forall p | p in queuedResources && p !in todo && p != q && (ids.None? || items[p] in ids.value)
            ensures InOrder(Today(), sys, p)
          {
            StillInOrder(Today(), b.sys, sys, q, p);
          }
          if ids.Some? {
            WentMore(Today(), b, Here(), j, ids.value);
            WentOn(Today(), a, b, Here(), ids.value, {});
          }
        }
      }
      if backend.reliable && ids.None? { AllInOrder(Today(), sys); }
    }

    // ---------- Markers ----------

    /** One iteration of `check_canceled_jobs`. */
    method CancelIfRequested(j: JobId)
      requires Valid() && Complete(sys) && j in jobs
      modifies this`jobs, this`queuedResources, this`run, this`sys, this`pass, backend`cloud
      ensures Valid() && Complete(sys) && CanceledSome(old(jobs), jobs) && OnlyState(old(jobs), jobs, j)
      ensures Went(Today(), old(Here()), Here(), {}, {j})
      ensures old(backend.cloud).marks.Keys <= backend.cloud.marks.Keys
      ensures backend.reliable && !Terminal(old(jobs)[j].state.status) && Root(j, CancelMark) in old(backend.cloud).marks ==>
                jobs[j].state.status.Canceled?
    {
      hide Reaches, Passed, Complete, Calmed, Worked, Dropped;
      WentNowhere(Today(), Here(), {}, {j});
      if !Terminal(jobs[j].state.status) {
        var requested, _ := backend.Exists(Root(j, CancelMark));
        if requested {
          var _ := CancelJob(j);
        }
      }
    }

    /** `check_canceled_jobs` */
    method CheckCanceledJobs(ids: Option<set<JobId>>)
      requires Valid() && Complete(sys)
      modifies this`jobs, this`queuedResources, this`run, this`sys, this`pass, backend`cloud
      ensures Valid() && Complete(sys) && CanceledSome(old(jobs), jobs)
      ensures Went(Today(), old(Here()), Here(), {}, if ids.Some? then ids.value else old(jobs).Keys)
      // Every sentinel that was there at the start has been honoured.
      ensures backend.reliable ==> forall j <- old(jobs) ::
                CancelDue(old(jobs)[j], j, old(backend.cloud)) && (ids.None? || j in ids.value) ==> jobs[j].state.status.Canceled?
    {
      hide Reaches, Passed, Complete, Went;
      ghost var jobs0, a := jobs, Here();
      ghost var scope := if ids.Some? then ids.value else jobs.Keys;
      var todo := jobs.Keys;
      WentNowhere(Today(), a, {}, scope);
      while todo != {}
        invariant Valid() && Complete(sys) && todo <= jobs0.Keys
        invariant CanceledSome(jobs0, jobs) && Went(Today(), a, Here(), {}, scope)
        invariant forall j <- todo :: jobs[j] == jobs0[j]
        invariant a.sys.cloud.marks.Keys <= backend.cloud.marks.Keys
        invariant backend.reliable ==> forall j <- jobs0 :: j !in todo && CancelDue(jobs0[j], j, a.sys.cloud) && j in scope ==>
                    jobs[j].state.status.Canceled?
      {
        var j :| j in todo;
        todo := todo - {j};
        if ids.None? || j in ids.value {
          ghost var b := Here();
          CancelIfRequested(j);
          DropMore(Today(), b, Here(), j, scope);
          WentOn(Today(), a, b, Here(), {}, scope);
        }
      }
    }

    /** The marker reads of `check_completed_jobs`; `missed` are those that failed. */
    method ReadMarkers(j: JobId, attempt: int) returns (outcome: Outcome, ghost missed: set<Mark>)
      ensures outcome == Verdict(backend.cloud.marks - missed, j, attempt)
      ensures missed <= DecidingMarks(j, attempt) && (backend.reliable ==> missed == {})
    {
      var succeeded, answered := backend.ReadMark(Scoped(j, attempt, ScopedSucceeded));
      missed := Unread(answered, Scoped(j, attempt, ScopedSucceeded));
      var failed, told := backend.ReadMark(Scoped(j, attempt, ScopedFailed));
      missed := missed + Unread(told, Scoped(j, attempt, ScopedFailed));
      var version, known := backend.ReadMark(Scoped(j, attempt, StartupVersion));
      missed := missed + Unread(known, Scoped(j, attempt, StartupVersion));
      if version.None? {
        if succeeded.None? {
          succeeded, answered := backend.ReadMark(Root(j, RootSucceeded));
          missed := missed + Unread(answered, Root(j, RootSucceeded));
        }
        if failed.None? {
          failed, told := backend.ReadMark(Root(j, RootFailed));
          missed := missed + Unread(told, Root(j, RootFailed));
        }
      }
      outcome := if failed.Some? then Lost(failed.value) else if succeeded.Some? then Won else Undecided;
    }

    /** What the completion check makes of an attempt's markers. */
    method JudgeMarkers(j: JobId, attempt: int) returns (outcome: Outcome, ghost missed: set<Mark>)
      ensures outcome == Verdict(backend.cloud.marks - missed, j, attempt)
      ensures missed <= DecidingMarks(j, attempt) && (backend.reliable ==> missed == {})
      // A failure counts before a success, and the attempt's own report before one in the root.
      ensures Ruled(backend.cloud.marks - missed, j, attempt, outcome)
      ensures backend.reliable ==> Ruled(backend.cloud.marks, j, attempt, outcome)
      // Whatever is missed, nothing is made up.
      ensures outcome.Won? ==> Scoped(j, attempt, ScopedSucceeded) in backend.cloud.marks || Root(j, RootSucceeded) in backend.cloud.marks
      ensures outcome.Lost? ==>
                || MarkText(backend.cloud.marks, Scoped(j, attempt, ScopedFailed)) == Some(outcome.text)
                || MarkText(backend.cloud.marks, Root(j, RootFailed)) == Some(outcome.text)
    {
      hide Verdict, DecidingMarks, MarkText, Ruled;
      outcome, missed := ReadMarkers(j, attempt);
      VerdictIs(backend.cloud.marks - missed, j, attempt, outcome);
      VerdictIs(backend.cloud.marks, j, attempt, outcome);
      VerdictWitness(backend.cloud.marks, missed, j, attempt);
    }

    ghost function Unread(answered: bool, m: Mark): set<Mark> {
      if answered then {} else {m}
    }

    /** One iteration of `check_completed_jobs`. */
    method FinishIfDecided(j: JobId)
      requires Valid() && Complete(sys) && j in jobs
      modifies this`jobs, this`queuedResources, this`run, this`sys, this`pass, backend`cloud
      ensures Valid() && Complete(sys) && Completed(cfg, old(jobs), jobs) && OnlyState(old(jobs), jobs, j)
      ensures Went(Today(), old(Here()), Here(), {j}, {})
      ensures backend.quiet ==> backend.cloud.marks == old(backend.cloud).marks
      ensures backend.reliable ==> Judged(cfg, old(backend.cloud).marks, j, old(jobs)[j], jobs[j])
      ensures Undisturbed() && jobs[j].state.status.Running? ==>
                Verdict(backend.cloud.marks, j, jobs[j].state.currentAttempt + 1).Undecided?
    {
      hide Reaches, Passed, Complete, Calmed, Verdict, Worked, Dropped, Ruled, FinishedTo, AttemptTimes, Completed;
      CompletedNothing(cfg, jobs);
      WentNowhere(Today(), Here(), {j}, {});
      if jobs[j].state.status.Running? {
        var outcome, missed := JudgeMarkers(j, jobs[j].state.currentAttempt + 1);
        assert missed == {} ==> backend.cloud.marks - missed == backend.cloud.marks;
        if !outcome.Undecided? {
          ghost var jobs0 := jobs;
          var _, _ := FinishJob(j, outcome, missed);
          CompletedOne(cfg, jobs0, jobs, j, outcome);
        }
      }
    }

    /** `check_completed_jobs` */
    method CheckCompletedJobs(ids: Option<set<JobId>>)
      requires Valid() && Complete(sys)
      modifies this`jobs, this`queuedResources, this`run, this`sys, this`pass, backend`cloud
      ensures Valid() && Complete(sys) && Completed(cfg, old(jobs), jobs)
      ensures Went(Today(), old(Here()), Here(), if ids.Some? then ids.value else old(jobs).Keys, {})
      ensures backend.quiet ==> backend.cloud.marks == old(backend.cloud).marks
      // Each running job in scope is finished as its markers rule, and no running job is left with a decided attempt.
      ensures Undisturbed() ==> forall j <- old(jobs) :: (ids.None? || j in ids.value) ==>
                Judged(cfg, old(backend.cloud).marks, j, old(jobs)[j], jobs[j])
      ensures Undisturbed() ==> forall j <- jobs :: (ids.None? || j in ids.value) ==> OutcomeOpen(jobs[j], j, backend.cloud)
    {
      hide Reaches, Passed, Complete, Verdict, Went, OutcomeOpen, Completed, Judged;
      ghost var jobs0, a := jobs, Here();
      ghost var scope := if ids.Some? then ids.value else jobs.Keys;
      var todo := jobs.Keys;
      CompletedNothing(cfg, jobs);
      WentNowhere(Today(), a, scope, {});
      while todo != {}
        invariant Valid() && Complete(sys) && jobs.Keys == jobs0.Keys && todo <= jobs.Keys
        invariant Completed(cfg, jobs0, jobs) && Went(Today(), a, Here(), scope, {})
        invariant backend.quiet ==> backend.cloud.marks == a.sys.cloud.marks
        invariant forall j <- todo :: jobs[j] == jobs0[j]
        invariant Undisturbed() ==> forall j <- jobs :: j !in todo && j in scope ==>
                    OutcomeOpen(jobs[j], j, backend.cloud) && Judged(cfg, a.sys.cloud.marks, j, jobs0[j], jobs[j])
      {
        var j :| j in todo;
        todo := todo - {j};
        if ids.None? || j in ids.value {
          ghost var jobs1, b := jobs, Here();
          FinishIfDecided(j);
          OpenFacts(jobs[j], j, b.sys.cloud, backend.cloud);
          WentMore(Today(), b, Here(), j, scope);
          WentOn(Today(), a, b, Here(), scope, {});
          CompletedOn(cfg, jobs0, jobs1, jobs);
        }
      }
    }

    /** The retry marker is consumed. */
    method TakeRetryMark(j: JobId)
      requires Valid() && Complete(sys) && j in jobs && jobs[j].state.status.Failed? && Root(j, RetryMark) in backend.cloud.marks
      modifies this`run, this`sys, this`pass, backend`cloud
      ensures At(Retrying(j)) && Went(Today(), old(Here()), Here(), {j}, {}) && MarksBut(old(backend.cloud), backend.cloud, j)
    {
      hide Reaches, Passed, Calmed;
      ghost var mid := backend.DeleteMark(Root(j, RetryMark));
      MarksMove(cfg, sys.cloud, mid);
      MoveKeepsComplete(cfg, sys, mid);
      hide Complete, EnvRel;
      NoteCall(mid, BeginRetry(j), Retrying(j));
    }

    method RetryRecord(j: JobId)
      requires At(Retrying(j)) && j in jobs && jobs[j].state.status.Failed?
      modifies this`jobs, this`run, this`sys, this`pass, backend`cloud
      ensures Valid() && Went(Today(), old(Here()), Here(), {j}, {}) && Only(old(jobs), j)
      ensures RetriedTo(old(jobs)[j], jobs[j]) && old(backend.cloud).marks.Keys <= backend.cloud.marks.Keys
    {
      hide Reaches, Passed, Calmed, EnvRel, Complete, Step, RetriedTo;
      ghost var job := jobs[j];
      if jobs[j].state.currentAttempt < jobs[j].spec.maxAttempts {
        jobs := jobs[j := jobs[j].(state := jobs[j].state.(status := Pending, currentQrName := None, currentQrState := None))];
      }
      var now, mid := WriteStatus(j);
      SmallTransitions(job, "", now, now);
      MarksMove(cfg, sys.cloud, mid);
      RetryStep(cfg, sys.(cloud := mid), Sys(jobs, queuedResources, backend.cloud, Idle), j, now);
      NoteCall(mid, RetryWrite(j, now), Idle);
    }

    /** One iteration of `check_retry_requests`. */
    method RetryIfRequested(j: JobId)
      requires Valid() && Complete(sys) && j in jobs
      modifies this`jobs, this`run, this`sys, this`pass, backend`cloud
      ensures Valid() && Complete(sys) && RetriedSome(old(jobs), jobs) && OnlyState(old(jobs), jobs, j)
      ensures Went(Today(), old(Here()), Here(), {j}, {})
      ensures backend.reliable && RetryDue(old(jobs)[j], j, old(backend.cloud)) ==> jobs[j].state.status.Pending?
      ensures Root(j, RetryMark) !in old(backend.cloud).marks ==> jobs == old(jobs)
      ensures MarksBut(old(backend.cloud), backend.cloud, j)
    {
      hide Reaches, Passed, Complete, Went;
      ghost var a := Here();
      WentNowhere(Today(), a, {j}, {});
      OnlyNothing(jobs, j);
      if jobs[j].state.status.Failed? {
        var requested, _ := backend.Exists(Root(j, RetryMark));
        if requested {
          TakeRetryMark(j);
          ghost var b := Here();
          ClearRootMarks(j, Retrying(j));
          ghost var c := Here();
          WentOn(Today(), a, b, c, {j}, {});
          RetryRecord(j);
          WentOn(Today(), a, c, Here(), {j}, {});
          WentComplete(Today(), a, Here(), {j}, {});
          MarksButOn(a.sys.cloud, b.sys.cloud, c.sys.cloud, j);
          MarksButOn(a.sys.cloud, c.sys.cloud, backend.cloud, j);
        }
      }
    }

    /** `check_retry_requests` */
    method CheckRetryRequests(ids: Option<set<JobId>>)
      requires Valid() && Complete(sys)
      modifies this`jobs, this`run, this`sys, this`pass, backend`cloud
      ensures Valid() && Complete(sys) && RetriedSome(old(jobs), jobs)
      ensures Went(Today(), old(Here()), Here(), if ids.Some? then ids.value else old(jobs).Keys, {})
      // Every retry marker that was there at the start has been honoured, as far as attempts are left.
      ensures backend.reliable ==> forall j <- old(jobs) ::
                RetryDue(old(jobs)[j], j, old(backend.cloud)) && (ids.None? || j in ids.value) ==> jobs[j].state.status.Pending?
    {
      hide Reaches, Passed, Complete, Went, Terminal, Active, RetriedTo;
      ghost var jobs0, a := jobs, Here();
      ghost var scope := if ids.Some? then ids.value else jobs.Keys;
      var todo := jobs.Keys;
      WentNowhere(Today(), a, scope, {});
      while todo != {}
        invariant Valid() && Complete(sys) && todo <= jobs0.Keys
        invariant RetriedSome(jobs0, jobs) && Went(Today(), a, Here(), scope, {})
        invariant forall j <- todo :: jobs[j] == jobs0[j]
        invariant forall m <- a.sys.cloud.marks :: m.job in todo ==> m in backend.cloud.marks
        invariant backend.reliable ==> forall j <- jobs0 :: j !in todo && RetryDue(jobs0[j], j, a.sys.cloud) && j in scope ==>
                    jobs[j].state.status.Pending?
      {
        var j :| j in todo;
        todo := todo - {j};
        if ids.None? || j in ids.value {
          ghost var b := Here();
          RetryIfRequested(j);
          WentMore(Today(), b, Here(), j, scope);
          WentOn(Today(), a, b, Here(), scope, {});
        }
      }
    }

    // ---------- Scheduling ----------

    /** `_generate_qr_name`: the token stands for the uuid, the resource and the attempt number. */
    method GenerateQrName() returns (q: QrName)
      ensures cfg.qrPrefix + "-" <= q
    {
      var token: string := *;
      q := cfg.qrPrefix + "-" + token;
    }

    /** The create call. */
    method CallCreate(j: JobId, q: QrName, r: ResourceConfig) returns (ok: bool)
      requires Valid() && Complete(sys) && j in jobs && jobs[j].state.status.Pending? && q != "" && cfg.qrPrefix + "-" <= q
      requires ResourceOf(cfg, jobs[j].spec) == Some(r) && Admissible(cfg, jobs, jobs[j].spec)
      modifies this`run, this`sys, this`pass, backend`cloud
      ensures At(if ok then Creating(j, q) else Idle) && Went(Today(), old(Here()), Here(), {j}, {})
      ensures Undisturbed() && ok ==> q in backend.cloud.qrs
      ensures backend.quiet ==> backend.cloud.marks == old(backend.cloud).marks
    {
      hide Reaches, Passed, Calmed, Admissible, Complete, EnvRel, Step;
      ghost var mid;
      ok, mid := backend.CreateQueuedResource(q, Birth(j, jobs[j].state.currentAttempt + 1, r, jobs[j].spec.submittedBy, true));
      MoveKeepsComplete(cfg, sys, mid);
      if ok {
        CreateStep(cfg, sys.(cloud := mid), Sys(jobs, queuedResources, backend.cloud, Creating(j, q)), j, q);
        NoteCall(mid, CreateOk(j, q), Creating(j, q));
      } else {
        CreateFailStep(cfg, sys.(cloud := mid), j);
        NoteCall(mid, CreateFail(j), Idle);
      }
    }

    method StampAttempt(j: JobId, q: QrName)
      requires At(Creating(j, q)) && j in jobs
      modifies this`run, this`sys, this`pass, backend`cloud
      ensures At(Creating(j, q)) && Went(Today(), old(Here()), Here(), {j}, {})
      ensures Scoped(j, jobs[j].state.currentAttempt + 1, StartupVersion) in backend.cloud.marks
      ensures Undisturbed() ==> backend.cloud.qrs == old(backend.cloud).qrs
      ensures backend.quiet ==> forall m <- backend.cloud.marks :: m in old(backend.cloud).marks || m.Scoped?
    {
      hide Reaches, Passed, Calmed, Complete, EnvRel;
      ghost var mid := backend.WriteMark(Scoped(j, jobs[j].state.currentAttempt + 1, StartupVersion), "3\n");
      NoteCall(mid, StampVersion(j), Creating(j, q));
    }

    /** The index and the record name the queued resource, in memory and durably. */
    method RecordQr(j: JobId, q: QrName) returns (now: string, ghost mid: Cloud)
      requires j in jobs
      modifies this`jobs, this`queuedResources, backend`cloud
      ensures now != "" && EnvRel(backend.cfg, old(backend.cloud), mid) && (backend.quiet ==> mid == old(backend.cloud))
      ensures jobs == old(jobs)[j := old(jobs)[j].(state := Provisioned(old(jobs)[j].state, q).(lastUpdated := now))]
      ensures backend.cloud == mid.(status := mid.status[j := jobs[j].state]) && queuedResources == old(queuedResources)[q := j]
    {
      hide EnvRel;
      queuedResources := queuedResources[q := j];
      jobs := jobs[j := jobs[j].(state := jobs[j].state.(status := Provisioning, currentQrName := Some(q), currentQrState := Some(QrWaiting)))];
      now, mid := WriteStatus(j);
    }

    method BindRecord(j: JobId, q: QrName)
      requires At(Creating(j, q)) && j in jobs && Scoped(j, jobs[j].state.currentAttempt + 1, StartupVersion) in backend.cloud.marks
      requires jobs[j].state.status.Pending? && (Undisturbed() ==> q in backend.cloud.qrs)
      modifies this`jobs, this`queuedResources, this`run, this`sys, this`pass, backend`cloud
      ensures Valid() && Went(Today(), old(Here()), Here(), {j}, {}) && Only(old(jobs), j)
      ensures GotQr(old(jobs)[j], jobs[j]) && jobs[j].state.currentQrName == Some(q)
      ensures backend.quiet ==> backend.cloud.marks == old(backend.cloud).marks
    {
      hide Reaches, Passed, Calmed, Complete, EnvRel, Step, GotQr, Went;
      ghost var was := jobs[j];
      var now, mid := RecordQr(j, q);
      MarksMove(cfg, sys.cloud, mid);
      SmallTransitions(was, q, now, now);
      BindStep(cfg, sys.(cloud := mid), Sys(jobs, queuedResources, backend.cloud, Idle), j, now);
      NoteCall(mid, BindWrite(j, now), Idle);
    }

    /** `_create_queued_resource` */
    method CreateQueuedResource(j: JobId, r: ResourceConfig) returns (ok: bool)
      requires Valid() && Complete(sys) && j in jobs && jobs[j].state.status.Pending?
      requires ResourceOf(cfg, jobs[j].spec) == Some(r) && Admissible(cfg, jobs, jobs[j].spec)
      modifies this`jobs, this`queuedResources, this`run, this`sys, this`pass, backend`cloud
      ensures Valid() && Complete(sys) && Went(Today(), old(Here()), Here(), {j}, {}) && Only(old(jobs), j)
      ensures ok ==> GotQr(old(jobs)[j], jobs[j]) && cfg.qrPrefix + "-" <= jobs[j].state.currentQrName.value
      ensures !ok ==> jobs == old(jobs) && queuedResources == old(queuedResources)
      ensures backend.quiet ==> Root(j, RootFailed) !in backend.cloud.marks && Root(j, RootSucceeded) !in backend.cloud.marks
    {
      hide Reaches, Passed, Complete, Admissible, Went;
      ghost var a := Here();
      var q := GenerateQrName();
      ClearRootMarks(j, Idle);
      ghost var b := Here();
      WentComplete(Today(), a, b, {j}, {});
      ok := CallCreate(j, q, r);
      ghost var c := Here();
      WentOn(Today(), a, b, c, {j}, {});
      if ok {
        StampAttempt(j, q);
        ghost var d := Here();
        WentOn(Today(), a, c, d, {j}, {});
        BindRecord(j, q);
        WentOn(Today(), a, d, Here(), {j}, {});
      } else {
        OnlyNothing(jobs, j);
      }
      WentComplete(Today(), a, Here(), {j}, {});
    }

    /** The tally loop of `schedule_pending_jobs`. */
    method TallyChips() returns (byQuota: map<string, int>, byUser: map<string, int>)
      ensures forall p: Pot :: Tally(byQuota, byUser, p) == MemUsage(cfg, jobs, p)
    {
      hide Counted, Sum, MemUsage;
      byQuota, byUser := map[], map[];
      var todo := jobs.Keys;
      CountNone(cfg, jobs);
      assert jobs.Keys - todo == {};
      while todo != {}
        invariant todo <= jobs.Keys && Counted(cfg, jobs, jobs.Keys - todo, byQuota, byUser)
      {
        var j :| j in todo;
        CountOne(cfg, jobs, jobs.Keys - todo, j, byQuota, byUser);
        assert jobs.Keys - (todo - {j}) == jobs.Keys - todo + {j};
        todo := todo - {j};
        if Active(jobs[j].state) {
          var r := ResourceOf(cfg, jobs[j].spec);
          if r.Some? {
            byQuota := Charge(byQuota, r.value.quotaGroup, r.value.chips);
            byUser := Charge(byUser, jobs[j].spec.submittedBy, r.value.chips);
          }
        }
      }
      assert jobs.Keys - todo == jobs.Keys;
      CountAll(cfg, jobs, byQuota, byUser);
    }

    /** The `pending` list of `schedule_pending_jobs`, sorted. */
    method ListPending(only: Option<set<JobId>>) returns (ids: seq<JobId>)
      ensures Lineup(jobs, only, ids)
      // By priority, the smallest first; then by submit time and by id, as texts.
      ensures Ordered(jobs, ids)
    {
      hide Lineup, Sort, Ordered;
      var keys: seq<Key> := [];
      var todo := jobs.Keys;
      while todo != {}
        invariant todo <= jobs.Keys && forall x :: multiset(keys)[x] <= 1
        invariant forall x <- keys :: Awaiting(jobs, only, x.id) && x == KeyOf(jobs, x.id) && x.id !in todo
        invariant forall j <- jobs :: j !in todo && Awaiting(jobs, only, j) ==> KeyOf(jobs, j) in keys
      {
        var j :| j in todo;
        if jobs[j].state.status.Pending? && (only.None? || j in only.value) {
          assert KeyOf(jobs, j) !in multiset(keys);
          keys := keys + [KeyOf(jobs, j)];
        }
        todo := todo - {j};
      }
      SortedLineup(jobs, only, keys);
      ids := Ids(Sort(keys));
      LineupOrdered(jobs, only, ids);
    }

    /** The create, and the backoff it leaves behind. */
    method TryCreate(j: JobId, r: ResourceConfig, now: int) returns (ok: bool)
      requires Valid() && Complete(sys) && KeepsPace() && j in jobs && jobs[j].state.status.Pending? && now == backend.clock
      requires ResourceOf(cfg, jobs[j].spec) == Some(r) && Admissible(cfg, jobs, jobs[j].spec) && NotBefore(createRetryNotBefore, j) <= now
      modifies this`jobs, this`queuedResources, this`createRetryNotBefore, this`tries, this`run, this`sys, this`pass,
               backend`cloud, backend`clock
      ensures Valid() && Complete(sys) && KeepsPace() && old(backend.clock) <= backend.clock
      ensures Went(Today(), old(Here()), Here(), {j}, {}) && Only(old(jobs), j)
      ensures ok ==> GotQr(old(jobs)[j], jobs[j])
      ensures !ok ==> jobs == old(jobs) && queuedResources == old(queuedResources)
      ensures old(tries) <= tries && Log(tries[|old(tries)|..]) == [(j, !ok)]
      // A refused create is not tried again before the delay is over, and a create that succeeds clears the delay.
      ensures createRetryNotBefore == if ok then old(createRetryNotBefore) - {j}
                                      else old(createRetryNotBefore)[j := backend.clock + if cfg.createFailureBackoff > 0 then cfg.createFailureBackoff else 0]
    {
      hide Reaches, Passed, Complete, Went, Admissible, OnlyState, Paced, Log;
      var delay := Max(0, cfg.createFailureBackoff);
      ok := CreateQueuedResource(j, r);
      if ok {
        PacedTry(delay, createRetryNotBefore, tries, j, now, None);
        LogOne(tries, Try(j, now, None));
        createRetryNotBefore := createRetryNotBefore - {j};
        tries := tries + [Try(j, now, None)];
      } else {
        var failed := backend.Now();
        PacedTry(delay, createRetryNotBefore, tries, j, now, Some(failed));
        LogOne(tries, Try(j, now, Some(failed)));
        createRetryNotBefore := createRetryNotBefore[j := failed + delay];
        tries := tries + [Try(j, now, Some(failed))];
      }
    }

    /** One iteration of the loop of `schedule_pending_jobs`. */
    method ConsiderJob(j: JobId, byQuota: map<string, int>, byUser: map<string, int>)
        returns (turn: Turn, quotaNow: map<string, int>, userNow: map<string, int>)
      requires Valid() && Complete(sys) && KeepsPace() && ConfigOk(cfg) && j in jobs && jobs[j].state.status.Pending?
      requires forall p: Pot :: Tally(byQuota, byUser, p) == MemUsage(cfg, jobs, p)
      modifies this`jobs, this`queuedResources, this`createRetryNotBefore, this`tries, this`run, this`sys, this`pass,
               backend`cloud, backend`clock
      ensures Valid() && Complete(sys) && KeepsPace() && old(backend.clock) <= backend.clock
      ensures Went(Today(), old(Here()), Here(), {j}, {}) && Only(old(jobs), j)
      ensures turn.Admitted? ==> GotQr(old(jobs)[j], jobs[j])
      ensures !turn.Admitted? ==> jobs == old(jobs) && queuedResources == old(queuedResources)
      ensures turn.Deferred? ==> NotBefore(old(createRetryNotBefore), j) > old(backend.clock)
      ensures !turn.Deferred? ==> NotBefore(old(createRetryNotBefore), j) <= backend.clock
      ensures forall i :: i != j ==> NotBefore(createRetryNotBefore, i) == NotBefore(old(createRetryNotBefore), i)
      ensures old(tries) <= tries && Log(tries[|old(tries)|..]) == if turn.Admitted? || turn.Refused? then [(j, turn.Refused?)] else []
      // A backoff alone defers, and only what the configuration says makes unfit: an unknown or disabled resource, a group that
      // would go over, or a user who would go over an entry of their own, where `None` is no limit, or without one over the default.
      ensures turn.Deferred? ==> (if j in old(createRetryNotBefore) then old(createRetryNotBefore)[j] else 0) > old(backend.clock)
      ensures !turn.Deferred? ==> (turn.Unfit? <==> !Admissible(cfg, old(jobs), jobs[j].spec))
      ensures !turn.Deferred? ==>
                (turn.Unfit? <==>
                  var spec, user := jobs[j].spec, jobs[j].spec.submittedBy;
                  || spec.resources.resourceName !in cfg.resources
                  || (var r := cfg.resources[spec.resources.resourceName];
                      || !r.enabled
                      || MemUsage(cfg, old(jobs), Group(r.quotaGroup)) + r.chips > cfg.quotaGroups[r.quotaGroup]
                      || (user in cfg.userMaxChips && cfg.userMaxChips[user].Some? &&
                          MemUsage(cfg, old(jobs), User(user)) + r.chips > cfg.userMaxChips[user].value)
                      || (user !in cfg.userMaxChips && cfg.defaultMaxChips.Some? &&
                          MemUsage(cfg, old(jobs), User(user)) + r.chips > cfg.defaultMaxChips.value)))
      ensures forall p: Pot :: Tally(quotaNow, userNow, p) == Tally(byQuota, byUser, p) + if turn.Admitted? then SpecWeight(cfg, jobs[j].spec, p) else 0
    {
      hide Reaches, Passed, Complete, Went, Admissible, MemUsage, OnlyState, Paced, Log, GotQr;
      LogOne(tries, Try(j, 0, None));
      quotaNow, userNow := byQuota, byUser;
      ChecksAdmit(cfg, jobs, jobs[j].spec, byQuota, byUser);
      WentNowhere(Today(), Here(), {j}, {});
      OnlyNothing(jobs, j);
      ghost var clock := backend.clock;
      var now := backend.Now();
      PacedLater(Max(0, cfg.createFailureBackoff), createRetryNotBefore, tries, clock, now);
      if NotBefore(createRetryNotBefore, j) > now {
        turn := Deferred;
        return;
      }
      turn := Unfit;
      var user := jobs[j].spec.submittedBy;
      var r := ResourceOf(cfg, jobs[j].spec);
      if r.None? || !r.value.enabled {
        return;
      }
      if ChipsOf(byQuota, r.value.quotaGroup) + r.value.chips > cfg.quotaGroups[r.value.quotaGroup] {
        return;
      }
      var most := MaxChipsFor(cfg, user);
      if most.Some? && ChipsOf(byUser, user) + r.value.chips > most.value {
        return;
      }
      var ok := TryCreate(j, r.value, now);
      if ok {
        turn := Admitted;
        ChargeAdds(byQuota, byUser, r.value, user);
        quotaNow := Charge(byQuota, r.value.quotaGroup, r.value.chips);
        userNow := Charge(byUser, user, r.value.chips);
      } else {
        turn := Refused;
      }
    }

    /** `schedule_pending_jobs`: a greedy pass over the pending jobs by priority, submit time and id. */
    method SchedulePendingJobs(only: Option<set<JobId>>) returns (ghost ids: seq<JobId>, ghost turns: seq<Turn>)
      requires Valid() && Complete(sys) && KeepsPace() && ConfigOk(cfg)
      modifies this`jobs, this`queuedResources, this`createRetryNotBefore, this`tries, this`run, this`sys, this`pass,
               backend`cloud, backend`clock
      ensures Valid() && Complete(sys) && KeepsPace() && old(backend.clock) <= backend.clock
      ensures Went(Today(), old(Here()), Here(), if only.Some? then only.value else old(jobs).Keys, {})
      ensures MidPass(cfg, old(jobs), jobs, only, ids, turns) && |turns| == |ids|
      // The smallest priority was tried first, then the earliest submit time and the smallest id.
      ensures Ordered(old(jobs), ids)
      // Only an unexpired backoff defers a job.
      ensures DeferredOnly(old(createRetryNotBefore), old(backend.clock), ids, turns)
      // Exactly the jobs let through were tried.
      ensures old(tries) <= tries && Log(tries[|old(tries)|..]) == CreateCalls(ids, turns)
      // Whatever was found not to fit does not fit what is in use now either.
      ensures forall i {:trigger turns[i]} :: 0 <= i < |turns| && turns[i].Unfit? ==> !Admissible(cfg, jobs, old(jobs)[ids[i]].spec)
    {
      hide Reaches, Passed, Complete, Went, Admissible, MemUsage, MidPass, Paced, TurnTaken, KeepsPace, GotQr,
        Ordered, Log, CreateCalls, AheadSame,
        DeferredOnly, NotBefore, OnlyState, Lineup, Calmed;
      ghost var base, a, tries0 := jobs, Here(), tries;
      ghost var scope := if only.Some? then only.value else jobs.Keys;
      var byQuota, byUser := TallyChips();
      var queue := ListPending(only);
      LineupDistinct(jobs, only, queue);
      ids, turns := queue, [];
      PassStarts(cfg, base, only, ids);
      NoTurnsYet(createRetryNotBefore, old(backend.clock), ids, tries);
      WentNowhere(Today(), a, scope, {});
      var i := 0;
      while i < |queue|
        invariant i == |turns| <= |queue| && MidPass(cfg, base, jobs, only, ids, turns)
        invariant tries0 <= tries && Log(tries[|tries0|..]) == CreateCalls(ids, turns)
        invariant AheadSame(old(createRetryNotBefore), createRetryNotBefore, queue, i)
        invariant DeferredOnly(old(createRetryNotBefore), old(backend.clock), queue, turns)
        invariant Valid() && Complete(sys) && KeepsPace() && old(backend.clock) <= backend.clock
        invariant Went(Today(), a, Here(), scope, {})
        invariant forall p: Pot :: Tally(byQuota, byUser, p) == MemUsage(cfg, jobs, p)
      {
        var j := queue[i];
        NextUp(cfg, base, jobs, only, ids, turns);
        ghost var before, b, tries1, waits := jobs, Here(), tries, createRetryNotBefore;
        var turn, quotaNow, userNow := ConsiderJob(j, byQuota, byUser);
        TurnFacts(before, jobs, j, turn);
        PassOn(cfg, base, before, jobs, only, ids, turns, turn);
        LogOn(ids, turns, turn, tries0, tries1, tries);
        AheadOn(old(createRetryNotBefore), waits, createRetryNotBefore, queue, i);
        DeferredOn(old(createRetryNotBefore), old(backend.clock), queue, turns, turn);
        turns := turns + [turn];
        byQuota, byUser := quotaNow, userNow;
        WentMore(Today(), b, Here(), j, scope);
        WentOn(Today(), a, b, Here(), scope, {});
        i := i + 1;
      }
      PassExhausted(cfg, base, jobs, only, ids, turns);
    }

    // ---------- Retention and orphans ----------

    /** The deletion of one job by `reap_terminal_jobs`. */
    method ReapJob(j: JobId)
      requires Valid() && Complete(sys) && j in jobs && Terminal(jobs[j].state.status)
      modifies this`jobs, this`run, this`sys, this`pass, backend`cloud
      ensures Valid() && Complete(sys) && jobs == old(jobs) - {j}
      ensures Went(Today(), old(Here()), Here(), {j}, {})
    {
      hide Reaches, Passed, Calmed, EnvRel, Complete, Step;
      ghost var a := Here();
      var ok, mid := backend.DeleteJobDir(j);
      jobs := jobs - {j};
      MoveKeepsComplete(cfg, sys, mid);
      ReapStep(cfg, sys.(cloud := mid), Sys(jobs, queuedResources, backend.cloud, Idle), j, ok);
      NoteCall(mid, Reap(j, ok), Idle);
      WentComplete(Today(), a, Here(), {j}, {});
    }

    /** `reap_terminal_jobs` */
    method ReapTerminalJobs() returns (ghost cutoff: int)
      requires Valid() && Complete(sys)
      modifies this`jobs, this`run, this`sys, this`pass, backend`cloud, backend`clock
      ensures Valid() && Complete(sys) && old(backend.clock) <= backend.clock && cutoff == backend.clock - cfg.retentionSeconds
      ensures Went(Today(), old(Here()), Here(), old(jobs).Keys, {})
      ensures jobs == Unexpired(cfg, old(jobs), cutoff)
      // That is, exactly the finished jobs last written longer ago than the retention period are gone.
      ensures forall j <- old(jobs) :: j !in jobs <==>
                && (old(jobs)[j].state.status.Succeeded? || old(jobs)[j].state.status.Failed? || old(jobs)[j].state.status.Canceled?)
                && cfg.parseTime(old(jobs)[j].state.lastUpdated).Some?
                && backend.clock - cfg.parseTime(old(jobs)[j].state.lastUpdated).value > cfg.retentionSeconds
    {
      hide Reaches, Passed, Complete, Went;
      ghost var jobs0, a := jobs, Here();
      var now := backend.Now();
      var limit := now - cfg.retentionSeconds;
      cutoff := limit;
      var todo := jobs.Keys;
      WentNowhere(Today(), a, jobs0.Keys, {});
      while todo != {}
        invariant Valid() && Complete(sys) && todo <= jobs.Keys <= jobs0.Keys
        invariant old(backend.clock) <= backend.clock && cutoff == backend.clock - cfg.retentionSeconds
        invariant forall j <- jobs :: jobs[j] == jobs0[j]
        invariant forall j <- jobs0 :: j in jobs <==> j in todo || !Expired(cfg, jobs0[j].state, cutoff)
        invariant Went(Today(), a, Here(), jobs0.Keys, {})
      {
        var j :| j in todo;
        todo := todo - {j};
        if Terminal(jobs[j].state.status) {
          var updated := cfg.parseTime(jobs[j].state.lastUpdated);
          if updated.Some? && updated.value < limit {
            ghost var b := Here();
            ReapJob(j);
            WentMore(Today(), b, Here(), j, jobs0.Keys);
            WentOn(Today(), a, b, Here(), jobs0.Keys, {});
          }
        }
      }
    }

    /** The deletion of one untracked queued resource by `reconcile_orphaned_qrs`. */
    method DropOrphan(q: QrName, r: ResourceConfig)
      requires Valid() && Complete(sys) && q !in queuedResources && q in backend.cloud.ledger
      modifies this`queuedResources, this`run, this`sys, this`pass, backend`cloud
      ensures Valid() && Complete(sys) && queuedResources == old(queuedResources)
      ensures backend.cloud.ledger == old(backend.cloud).ledger && SameZones(old(backend.cloud), backend.cloud)
      ensures backend.reliable ==> q !in backend.cloud.qrs
      ensures backend.quiet ==> old(backend.cloud).qrs.Keys <= backend.cloud.qrs.Keys + {q}
      ensures Calmed(Today(), old(sys), sys)
    {
      hide Reaches, Passed, Calmed, Complete, Step;
      ghost var a, j := Here(), backend.cloud.ledger[q].job;
      var ok, mid := CleanupJobResources(q, r);
      MoveKeepsComplete(cfg, sys, mid);
      OrphanStep(cfg, sys.(cloud := mid), Sys(jobs, queuedResources, backend.cloud, Idle), q, ok);
      NoteCall(mid, CleanOrphan(j, q, ok), Idle);
      WentComplete(Today(), a, Here(), {j}, {});
    }

    /** One zone of `reconcile_orphaned_qrs`. */
    method SweepZone(r: ResourceConfig, tracked: set<QrName>)
      requires Valid() && Complete(sys) && tracked == queuedResources.Keys
      modifies this`queuedResources, this`run, this`sys, this`pass, backend`cloud
      ensures Valid() && Complete(sys) && queuedResources == old(queuedResources)
      ensures Calmed(Today(), old(sys), sys) && SameZones(old(backend.cloud), backend.cloud)
      ensures backend.reliable ==> Swept(cfg, sys, {(r.project, r.zone)})
      ensures backend.quiet ==> OnlyOurs(cfg, old(backend.cloud), backend.cloud, queuedResources.Keys, {(r.project, r.zone)})
    {
      hide Reaches, Passed, Complete, Calmed;
      ghost var was := sys;
      var names := backend.ListQueuedResources(r.project, r.zone, cfg.qrPrefix + "-");
      assert names <= backend.cloud.ledger.Keys by {
        forall q | q in names ensures q in backend.cloud.ledger { IndexFacts(cfg, run, sys, q); }
      }
      CalmStart(Today(), was);
      while names != {}
        invariant Valid() && Complete(sys) && queuedResources == old(queuedResources)
        invariant names <= backend.cloud.ledger.Keys
        invariant forall q <- names :: cfg.qrPrefix + "-" <= q && q in was.cloud.qrs && InZone(was.cloud.qrs[q], (r.project, r.zone))
        invariant backend.quiet ==> OnlyOurs(cfg, was.cloud, backend.cloud, tracked, {(r.project, r.zone)})
        invariant Calmed(Today(), was, sys) && SameZones(was.cloud, backend.cloud)
        invariant backend.reliable ==> forall q <- backend.cloud.qrs ::
                    cfg.qrPrefix + "-" <= q && InZone(backend.cloud.qrs[q], (r.project, r.zone)) ==> q in tracked || q in names
      {
        var q :| q in names;
        names := names - {q};
        if q !in tracked {
          ghost var b := sys;
          DropOrphan(q, r);
          CalmedOn(Today(), was, b, sys);
        }
      }
    }

    /** `reconcile_orphaned_qrs` */
    method ReconcileOrphanedQrs()
      requires Valid() && Complete(sys)
      modifies this`queuedResources, this`run, this`sys, this`pass, backend`cloud
      ensures Valid() && Complete(sys) && queuedResources == old(queuedResources)
      ensures Calmed(Today(), old(sys), sys)
      ensures backend.reliable ==> Swept(cfg, sys, Zones(cfg))
      ensures backend.quiet ==> OnlyOurs(cfg, old(backend.cloud), backend.cloud, queuedResources.Keys, Zones(cfg))
    {
      hide Reaches, Passed, Complete, Calmed;
      ghost var was := sys;
      var tracked := queuedResources.Keys;
      var seen: set<(string, string)> := {};
      var todo := cfg.resources.Keys;
      CalmStart(Today(), was);
      while todo != {}
        invariant Valid() && Complete(sys) && queuedResources == old(queuedResources)
        invariant todo <= cfg.resources.Keys
        invariant forall n <- cfg.resources :: n in todo || (cfg.resources[n].project, cfg.resources[n].zone) in seen
        invariant Calmed(Today(), was, sys)
        invariant backend.reliable ==> Swept(cfg, sys, seen)
        invariant SameZones(was.cloud, backend.cloud) && seen <= Zones(cfg)
        invariant backend.quiet ==> OnlyOurs(cfg, was.cloud, backend.cloud, tracked, Zones(cfg))
      {
        var n :| n in todo;
        todo := todo - {n};
        var r := cfg.resources[n];
        if (r.project, r.zone) !in seen {
          seen := seen + {(r.project, r.zone)};
          ghost var b := sys;
          SweepZone(r, tracked);
          CalmedOn(Today(), was, b, sys);
        }
      }
    }

    /** `_maybe_reconcile_orphans` */
    method MaybeReconcileOrphans() returns (ghost swept: bool)
      requires Valid() && Complete(sys)
      modifies this`queuedResources, this`lastOrphanCheck, this`run, this`sys, this`pass, backend`cloud, backend`clock
      ensures Valid() && Complete(sys) && old(backend.clock) <= backend.clock && queuedResources == old(queuedResources)
      ensures swept <==> jobScanSucceeded && backend.clock - old(lastOrphanCheck) >= 300
      ensures lastOrphanCheck == if swept then backend.clock else old(lastOrphanCheck)
      ensures Calmed(Today(), old(sys), sys)
      ensures backend.reliable && swept ==> Swept(cfg, sys, Zones(cfg))
    {
      hide Reaches, Passed, Complete, Calmed, Swept;
      swept := false;
      CalmStart(Today(), sys);
      if !jobScanSucceeded {
        return;
      }
      var now := backend.Now();
      if now - lastOrphanCheck < 300 {
        return;
      }
      lastOrphanCheck := now;
      swept := true;
      ReconcileOrphanedQrs();
    }

    /** `_maybe_write_scheduler_state` */
    method MaybeWriteSchedulerState(force: bool)
      modifies this`lastStateWrite, backend`clock, backend`listing
      ensures old(backend.clock) <= backend.clock
      ensures var due := force || backend.clock - old(lastStateWrite) >= cfg.statusWriteInterval;
              && backend.listing == (if due then Some(jobs) else old(backend.listing))
              && lastStateWrite == (if due then backend.clock else old(lastStateWrite))
    {
      var now := backend.Now();
      if !force && now - lastStateWrite < cfg.statusWriteInterval {
        return;
      }
      lastStateWrite := now;
      backend.WriteListing(jobs);
    }

    // ---------- Scanning ----------

    /** Others act while the scan is under way. */
    method Wait()
      requires Valid()
      modifies this`run, this`sys, this`pass, backend`cloud
      ensures Valid() && Worked(pass) == old(Worked(pass)) && Dropped(pass) == old(Dropped(pass))
      ensures EnvRel(cfg, old(backend.cloud), backend.cloud) && (backend.quiet ==> backend.cloud == old(backend.cloud))
      ensures (old(Complete(sys)) ==> Complete(sys)) && (old(Trim(sys)) ==> Trim(sys))
    {
      hide Reaches, Passed, Complete, EnvRel, Worked, Dropped, Trim;
      ghost var mid := backend.Stir();
      if Trim(sys) { TrimMoves(sys, mid); }
      NoteMove(mid);
    }

    /** `_load_job` and `_add_job` */
    method LoadJob(j: JobId) returns (ok: bool)
      requires Valid() && j !in jobs
      modifies this`jobs, this`queuedResources, this`run, this`sys, this`pass
      ensures Valid() && Worked(pass) == old(Worked(pass)) && Dropped(pass) == old(Dropped(pass))
      ensures Extends(old(jobs), jobs) && jobs.Keys <= old(jobs).Keys + {j}
      ensures ok && j in backend.cloud.dirs ==> j in jobs
      // What the directory holds is what is loaded; without a record the job is new and pending.
      ensures j in jobs ==> Loaded(backend.cloud, j, jobs[j])
      ensures queuedResources == if j in jobs then Indexed(old(queuedResources), j, jobs[j].state) else old(queuedResources)
      ensures backend.reliable ==> ok
      ensures old(Trim(sys)) ==> Trim(sys)
    {
      hide Reaches, Passed, Complete, Trim, Worked, Dropped, Step, Loaded, CanLoad;
      var spec := backend.ReadSpec(j);
      if !spec.succeeded {
        return false;
      }
      if spec.content.None? {
        return true;
      }
      var status := backend.ReadStatus(j);
      if !status.succeeded {
        return false;
      }
      var now := backend.UtcNow();
      var st := if status.content.Some? then status.content.value else NewState(now);
      ghost var s := sys;
      LoadFacts(s, j, now);
      jobs := jobs[j := Job(spec.content.value, st, backend.cloud.dirs[j].bucket)];
      if Active(st) && Truthy(st.currentQrName) {
        queuedResources := queuedResources[st.currentQrName.value := j];
      }
      LoadStep(cfg, s, Sys(jobs, queuedResources, backend.cloud, Idle), j, now);
      Note(Load(j, now), Idle);
      return true;
    }

    /** `_scan_bucket` */
    method ScanBucket(bucket: string) returns (succeeded: bool)
      requires Valid()
      modifies this`jobs, this`queuedResources, this`run, this`sys, this`pass, backend`cloud
      ensures Valid() && Worked(pass) == old(Worked(pass)) && Dropped(pass) == old(Dropped(pass))
      ensures Extends(old(jobs), jobs)
      ensures EnvRel(cfg, old(backend.cloud), backend.cloud) && (backend.quiet ==> backend.cloud == old(backend.cloud))
      ensures succeeded ==> forall j <- old(backend.cloud).dirs :: old(backend.cloud).dirs[j].bucket == bucket ==> j in jobs
      ensures backend.reliable ==> succeeded
      ensures old(Trim(sys)) ==> Trim(sys)
    {
      hide Reaches, Passed, Complete, Trim, Worked, Dropped;
      ghost var was := sys;
      var listing := backend.ListJobs(bucket);
      Wait();
      if !listing.succeeded {
        return false;
      }
      var todo := listing.content.value - jobs.Keys;
      succeeded := true;
      while todo != {}
        invariant Valid() && Worked(pass) == old(Worked(pass)) && Dropped(pass) == old(Dropped(pass))
        invariant Extends(old(jobs), jobs) && todo !! jobs.Keys
        invariant EnvRel(cfg, was.cloud, backend.cloud) && (backend.quiet ==> backend.cloud == was.cloud)
        invariant succeeded ==> forall j <- listing.content.value :: j in todo || j in jobs
        invariant backend.reliable ==> succeeded
        invariant Trim(was) ==> Trim(sys)
      {
        var j :| j in todo;
        todo := todo - {j};
        DirsGrow(cfg, was.cloud, backend.cloud);
        var ok := LoadJob(j);
        succeeded := ok && succeeded;
      }
    }

    /** `scan_jobs` */
    method ScanJobs()
      requires Valid()
      modifies this`jobs, this`queuedResources, this`jobScanSucceeded, this`run, this`sys, this`pass, backend`cloud
      ensures Valid() && Worked(pass) == old(Worked(pass)) && Dropped(pass) == old(Dropped(pass))
      ensures Extends(old(jobs), jobs)
      ensures EnvRel(cfg, old(backend.cloud), backend.cloud) && (backend.quiet ==> backend.cloud == old(backend.cloud))
      // Every directory that was there is in memory, so no active job is missing.
      ensures jobScanSucceeded ==> Complete(sys) && old(backend.cloud).dirs.Keys <= jobs.Keys
      ensures backend.reliable ==> jobScanSucceeded
      ensures old(Trim(sys)) ==> Trim(sys)
    {
      hide Reaches, Passed, Complete, Trim, Worked, Dropped, EnvRel;
      ghost var was := sys;
      var succeeded := true;
      var i := 0;
      EnvReflexive(cfg, was.cloud);
      while i < |cfg.buckets|
        invariant 0 <= i <= |cfg.buckets|
        invariant Valid() && Worked(pass) == old(Worked(pass)) && Dropped(pass) == old(Dropped(pass))
        invariant Extends(old(jobs), jobs)
        invariant EnvRel(cfg, was.cloud, backend.cloud) && (backend.quiet ==> backend.cloud == was.cloud)
        invariant succeeded ==> forall j <- was.cloud.dirs :: was.cloud.dirs[j].bucket in cfg.buckets[..i] ==> j in jobs
        invariant backend.reliable ==> succeeded
        invariant Trim(was) ==> Trim(sys)
      {
        ghost var c := backend.cloud;
        DirsGrow(cfg, was.cloud, c);
        var ok := ScanBucket(cfg.buckets[i]);
        EnvTransitive(cfg, was.cloud, c, backend.cloud);
        succeeded := ok && succeeded;
        i := i + 1;
      }
      jobScanSucceeded := succeeded;
      if succeeded {
        assert cfg.buckets[..i] == cfg.buckets;
        ScanDone(cfg, old(run), was, run, sys);
      }
    }

    /** One job of `_refresh_job_states`: an unreadable or missing status is skipped. */
    method RefreshJob(j: JobId)
      requires Valid() && Complete(sys) && j in jobs
      modifies this`jobs, this`queuedResources, this`run, this`sys, this`pass
      ensures Valid() && Complete(sys) && Worked(pass) == old(Worked(pass)) && Dropped(pass) == old(Dropped(pass))
      ensures jobs.Keys == old(jobs).Keys && Continues(old(jobs), jobs)
      ensures forall i <- jobs :: i != j ==> jobs[i] == old(jobs)[i]
      ensures forall q <- queuedResources :: queuedResources[q] != j ==>
                q in old(queuedResources) && queuedResources[q] == old(queuedResources)[q]
      ensures backend.reliable && j in backend.cloud.status ==> jobs[j].state == backend.cloud.status[j]
      ensures backend.reliable && j in backend.cloud.status ==>
                forall q <- queuedResources :: queuedResources[q] == j ==> jobs[j].state.currentQrName == Some(q)
    {
      hide Reaches, Passed, Complete, Worked, Dropped, Step, SameJob;
      ContinuesNothing(jobs);
      var status := backend.ReadStatus(j);
      if status.succeeded && status.content.Some? {
        var st := status.content.value;
        ghost var s := sys;
        RefreshSame(cfg, run, sys, j);
        queuedResources := map q | q in queuedResources && queuedResources[q] != j :: queuedResources[q];
        jobs := jobs[j := jobs[j].(state := st)];
        if Active(st) && Truthy(st.currentQrName) {
          queuedResources := queuedResources[st.currentQrName.value := j];
        }
        RefreshStep(cfg, s, Sys(jobs, queuedResources, backend.cloud, Idle), j);
        Note(Refresh(j), Idle);
      }
    }

    /** `_refresh_job_states` */
    method RefreshJobStates(ids: set<JobId>)
      requires Valid() && Complete(sys) && ids <= jobs.Keys
      modifies this`jobs, this`queuedResources, this`run, this`sys, this`pass
      ensures Valid() && Complete(sys) && Worked(pass) == old(Worked(pass)) && Dropped(pass) == old(Dropped(pass))
      // Nobody else writes the record of a job in progress, so what is re-read is what was there; the index is rebuilt from it.
      ensures jobs.Keys == old(jobs).Keys && Continues(old(jobs), jobs)
      ensures backend.reliable ==> forall q <- queuedResources ::
                queuedResources[q] in ids && queuedResources[q] in backend.cloud.status ==> jobs[queuedResources[q]].state.currentQrName == Some(q)
    {
      hide Reaches, Passed, Complete, Worked, Dropped, Step, Continues;
      var todo := ids;
      ContinuesNothing(jobs);
      while todo != {}
        invariant Valid() && Complete(sys) && Worked(pass) == old(Worked(pass)) && Dropped(pass) == old(Dropped(pass))
        invariant jobs.Keys == old(jobs).Keys && Continues(old(jobs), jobs) && todo <= ids
        invariant backend.reliable ==> forall q <- queuedResources ::
                    queuedResources[q] in ids - todo && queuedResources[q] in backend.cloud.status ==> jobs[queuedResources[q]].state.currentQrName == Some(q)
      {
        var j :| j in todo;
        todo := todo - {j};
        ghost var before := jobs;
        RefreshJob(j);
        ContinuesOn(old(jobs), before, jobs);
      }
    }

    /** `_resolve_job_id`: a reference must name exactly one job. */
    method ResolveJobId(ref: string) returns (r: Result<JobId, RefError>)
      ensures r.Ok? <==> exists j <- jobs :: Named(jobs[j], j, ref) && forall i <- jobs :: Named(jobs[i], i, ref) ==> i == j
      ensures r.Ok? ==> r.value in jobs && Named(jobs[r.value], r.value, ref)
      ensures r == Err(NoSuchJob) <==> forall j <- jobs :: !Named(jobs[j], j, ref)
    {
      hide Named;
      var matches: set<JobId> := {};
      var todo := jobs.Keys;
      while todo != {}
        invariant todo <= jobs.Keys && matches <= jobs.Keys
        invariant forall j <- jobs :: j in matches <==> j !in todo && Named(jobs[j], j, ref)
      {
        var j :| j in todo;
        todo := todo - {j};
        NamedIff(jobs[j], j, ref);
        if ref in {j, jobs[j].spec.jobId, jobs[j].spec.displayName} || EndsWith(jobs[j].spec.jobId, ref) {
          matches := matches + {j};
        }
      }
      if matches == {} {
        return Err(NoSuchJob);
      }
      var j :| j in matches;
      if matches != {j} {
        ghost var i :| i in matches && i != j;
        return Err(Ambiguous);
      }
      return Ok(j);
    }

    // ---------- A pass ----------

    /** The phases every kind of pass has in common: cancel, poll, complete, retry, schedule. */
    method RunPhases(ids: Option<set<JobId>>, cancelIds: Option<set<JobId>>) returns (ghost trail: Trail)
      requires Valid() && Complete(sys) && KeepsPace() && ConfigOk(cfg)
      modifies this`jobs, this`queuedResources, this`createRetryNotBefore, this`tries, this`run, this`sys, this`pass,
               backend`cloud, backend`clock
      ensures Valid() && Complete(sys) && KeepsPace() && old(backend.clock) <= backend.clock
      ensures Phased(cfg, Today(), trail) && trail.scanned == old(sys) && trail.scheduled == sys
      ensures trail.scope == ids && trail.cancelScope == cancelIds
      ensures jobs.Keys == old(jobs).Keys && Records(old(jobs), jobs)
      ensures ids.Some? ==> Went(Today(), old(Here()), Here(), ids.value, if cancelIds.Some? then cancelIds.value else old(jobs).Keys)
      ensures Calmed(Today(), old(sys), sys)
      ensures backend.reliable && ids.None? ==> Trim(sys) && (backend.quiet ==> Dead(sys) == {})
      ensures backend.reliable ==> forall j <- old(jobs) ::
                CancelDue(old(jobs)[j], j, old(backend.cloud)) && (cancelIds.None? || j in cancelIds.value) ==> jobs[j].state.status.Canceled?
    {
      hide Reaches, Passed, Complete, Went, Calmed, Trim, Dead, Records, CanceledSome, Polled, Completed, Judged,
        Ordered, RetriedSome, MidPass,
        Paced, OutcomeOpen, Admissible, CancelDue, RetryDue, InOrder, Terminal, Active, Succeeds, EnvRel, Lineup, Worked, Dropped;
      ghost var j0, a, clock := jobs, Here(), backend.clock;
      ghost var scope := if ids.Some? then ids.value else jobs.Keys;
      ghost var drop := if cancelIds.Some? then cancelIds.value else jobs.Keys;
      CheckCanceledJobs(cancelIds);
      ghost var j1, b := jobs, Here();
      PollQueuedResources(ids);
      ghost var j2, c := jobs, Here();
      CheckCompletedJobs(ids);
      ghost var j3, d := jobs, Here();
      CheckRetryRequests(ids);
      ghost var j4, e := jobs, Here();
      PacedLater(Max(0, cfg.createFailureBackoff), createRetryNotBefore, tries, clock, backend.clock);
      ghost var queue, turns := SchedulePendingJobs(ids);
      trail := Trail(a.sys, b.sys, c.sys, d.sys, e.sys, sys, ids, cancelIds, queue, turns);
      PhasesRecords(cfg, j0, j1, j2, j3, j4, jobs, ids, queue, turns);
      if ids.Some? {
        PhasesWent(Today(), a, b, c, d, e, Here(), scope, drop);
      }
      PhasesCalm(Today(), a, b, c, d, e, Here(), ids, drop, j2.Keys, j3.Keys, j4.Keys);
    }

    /** What a pass without focus does after scheduling. */
    method RunHousekeeping() returns (ghost swept: bool)
      requires Valid() && Complete(sys) && KeepsPace()
      modifies this`jobs, this`queuedResources, this`lastOrphanCheck, this`run, this`sys, this`pass, backend`cloud, backend`clock
      ensures Valid() && Complete(sys) && KeepsPace() && old(backend.clock) <= backend.clock
      ensures Retained(cfg, old(jobs), jobs, old(backend.clock) - cfg.retentionSeconds, backend.clock - cfg.retentionSeconds)
      ensures jobScanSucceeded && old(backend.clock) - old(lastOrphanCheck) >= 300 ==> swept
      ensures Calmed(Today(), old(sys), sys)
      ensures backend.reliable && swept ==> Swept(cfg, sys, Zones(cfg))
    {
      hide Reaches, Passed, Complete, Went, Calmed, Paced, Swept, Expired;
      ghost var a, clock, keys := Here(), backend.clock, jobs.Keys;
      ghost var cutoff := ReapTerminalJobs();
      ghost var b := Here();
      swept := MaybeReconcileOrphans();
      PacedLater(Max(0, cfg.createFailureBackoff), createRetryNotBefore, tries, clock, backend.clock);
      WentCalm(Today(), a, b, keys, {});
      CalmedOn(Today(), a.sys, b.sys, sys);
    }

    /** The jobs of one user, and the unfinished jobs of everybody else. */
    method SplitByUser(user: string) returns (own: set<JobId>, others: set<JobId>)
      ensures own == set j | j in jobs && jobs[j].spec.submittedBy == user
      ensures others == set j | j in jobs && j !in own && !Terminal(jobs[j].state.status)
    {
      own := set j | j in jobs && jobs[j].spec.submittedBy == user;
      others := set j | j in jobs && j !in own && !Terminal(jobs[j].state.status);
    }

    /** The rest of a pass under a job focus. */
    method RunForJob(j: JobId) returns (ghost trail: Trail)
      requires Valid() && Complete(sys) && KeepsPace() && ConfigOk(cfg) && Worked(pass) == {} && Dropped(pass) == {}
      modifies this`jobs, this`queuedResources, this`createRetryNotBefore, this`tries, this`run, this`sys, this`pass,
               backend`cloud, backend`clock
      ensures Valid() && Complete(sys) && KeepsPace() && old(backend.clock) <= backend.clock && Records(old(jobs), jobs)
      ensures Phased(cfg, Today(), trail) && trail.scanned == old(sys) && trail.scheduled == sys
      ensures trail.scope == Some({j}) && trail.cancelScope == Some({j})
      ensures Worked(pass) <= {j} && Dropped(pass) <= {j}
      // Since the pass began, the others have kept their records and their queued resources.
      ensures OthersLeft(Today(), start, run, backend.cloud, {j}, {j})
    {
      hide Reaches, Passed, Complete, Went, Calmed, Records, Paced, CancelDue, Worked, Dropped, Phased, OthersLeft;
      ghost var a := Here();
      trail := RunPhases(Some({j}), Some({j}));
      WentBound(Today(), a, Here(), {j}, {j});
      PassOthers(cfg, start, run, sys, pass, Today(), {j}, {j});
    }

    /** The rest of a pass under a user focus: others' records are re-read and their cancellations honoured. */
    method RunForUser(user: string) returns (ghost trail: Trail)
      requires Valid() && Complete(sys) && KeepsPace() && ConfigOk(cfg) && Worked(pass) == {} && Dropped(pass) == {}
      modifies this`jobs, this`queuedResources, this`createRetryNotBefore, this`tries, this`run, this`sys, this`pass,
               backend`cloud, backend`clock
      ensures Valid() && Complete(sys) && KeepsPace() && old(backend.clock) <= backend.clock && Records(trail.scanned.jobs, jobs)
      ensures Phased(cfg, Today(), trail) && Continues(old(jobs), trail.scanned.jobs) && trail.scheduled == sys
      ensures trail.scanned.jobs.Keys == old(jobs).Keys && forall j <- old(jobs) :: trail.scanned.jobs[j].spec == old(jobs)[j].spec
      ensures trail.scope == Some(set j | j in trail.scanned.jobs && trail.scanned.jobs[j].spec.submittedBy == user)
      ensures trail.cancelScope == Some(trail.scope.value + set j | j in trail.scanned.jobs && !Terminal(trail.scanned.jobs[j].state.status))
      ensures Worked(pass) <= trail.scope.value
      ensures OthersLeft(Today(), start, run, backend.cloud, trail.scope.value, trail.cancelScope.value)
      ensures backend.reliable ==> CancelsHonoured(old(backend.cloud), trail.scanned.jobs, jobs)
    {
      hide Reaches, Passed, Complete, Went, Calmed, Records, Paced, CancelDue, EnvRel, Worked, Dropped, Phased, Continues, OthersLeft;
      ghost var jobs0 := jobs;
      var own, others := SplitByUser(user);
      RefreshJobStates(others);
      ghost var a := Here();
      ContinuesFacts(jobs0, jobs);
      EnvReflexive(cfg, backend.cloud);
      DueLater(cfg, backend.cloud, backend.cloud);
      assert own == set j | j in jobs && jobs[j].spec.submittedBy == user;
      assert own + others == own + set j | j in jobs && !Terminal(jobs[j].state.status);
      trail := RunPhases(Some(own), Some(own + others));
      WentBound(Today(), a, Here(), own, own + others);
      PassOthers(cfg, start, run, sys, pass, Today(), own, own + others);
    }

    /** The rest of a pass without focus. */
    method RunForAll() returns (ghost trail: Trail)
      requires Valid() && Complete(sys) && KeepsPace() && ConfigOk(cfg) && jobScanSucceeded
      modifies this`jobs, this`queuedResources, this`createRetryNotBefore, this`tries, this`lastOrphanCheck,
               this`run, this`sys, this`pass, backend`cloud, backend`clock
      ensures Valid() && Complete(sys) && KeepsPace() && old(backend.clock) <= backend.clock && Records(old(jobs), jobs)
      ensures Phased(cfg, Today(), trail) && trail.scanned == old(sys) && trail.scope.None? && trail.cancelScope.None?
      ensures Retained(cfg, trail.scheduled.jobs, jobs, old(backend.clock) - cfg.retentionSeconds, backend.clock - cfg.retentionSeconds)
      ensures backend.reliable ==> CancelsHonoured(old(backend.cloud), trail.scanned.jobs, jobs)
      ensures backend.reliable ==> Trim(sys)
      ensures backend.reliable && old(backend.clock) - old(lastOrphanCheck) >= 300 ==> NoOrphans(cfg, backend.cloud)
      ensures Undisturbed() && old(backend.clock) - old(lastOrphanCheck) >= 300 ==> Recovered(cfg, backend.cloud)
    {
      hide Reaches, Passed, Complete, Calmed, Trim, Dead, Records, Paced, CancelDue, Swept, NoOrphans, Recovered, Phased, Retained;
      ghost var jobs0 := jobs;
      trail := RunPhases(None, None);
      ghost var mid, phased, clock := sys, jobs, backend.clock;
      var swept := RunHousekeeping();
      RetainedWider(cfg, phased, jobs, clock - cfg.retentionSeconds, old(backend.clock) - cfg.retentionSeconds, backend.clock - cfg.retentionSeconds);
      RetainedRecords(cfg, jobs0, phased, jobs, clock - cfg.retentionSeconds, backend.clock - cfg.retentionSeconds);
      if backend.reliable {
        AfterSweep(cfg, Today(), run, mid, sys, swept);
      }
    }

    /** `run_once` after a complete scan, up to the listing. */
    method RunScanned(focusJob: Option<string>, focusUser: Option<string>) returns (r: Result<bool, RunError>, ghost trail: Trail)
      requires Valid() && Complete(sys) && KeepsPace() && ConfigOk(cfg) && Worked(pass) == {} && Dropped(pass) == {}
      requires jobScanSucceeded && !(Truthy(focusJob) && Truthy(focusUser))
      modifies this`jobs, this`queuedResources, this`createRetryNotBefore, this`tries, this`lastOrphanCheck,
               this`run, this`sys, this`pass, backend`cloud, backend`clock
      ensures Valid() && Complete(sys) && KeepsPace() && old(backend.clock) <= backend.clock
      ensures r == Ok(true) || (r.Err? && r.error.BadReference? && Truthy(focusJob))
      ensures r != Ok(true) ==> Worked(pass) == {} && Dropped(pass) == {}
      ensures r == Ok(true) ==> Continues(old(jobs), trail.scanned.jobs) && Records(trail.scanned.jobs, jobs)
      ensures r == Ok(true) ==> Phased(cfg, Today(), trail) && ScopesOk(focusJob, focusUser, trail)
      ensures r == Ok(true) ==> if trail.scope.Some? then jobs == trail.scheduled.jobs else
                Retained(cfg, trail.scheduled.jobs, jobs, old(backend.clock) - cfg.retentionSeconds, backend.clock - cfg.retentionSeconds)
      ensures r == Ok(true) && trail.scope.Some? ==> Worked(pass) <= trail.scope.value
      ensures r == Ok(true) && Truthy(focusJob) ==> Dropped(pass) <= trail.scope.value
      ensures r == Ok(true) && backend.reliable && !Truthy(focusJob) ==> CancelsHonoured(old(backend.cloud), trail.scanned.jobs, jobs)
      ensures r == Ok(true) && backend.reliable && !Truthy(focusJob) && !Truthy(focusUser) ==>
                && Trim(sys)
                && (old(backend.clock) - old(lastOrphanCheck) >= 300 ==> NoOrphans(cfg, backend.cloud))
                && (backend.quiet && old(backend.clock) - old(lastOrphanCheck) >= 300 ==> Recovered(cfg, backend.cloud))
    {
      hide Reaches, Passed, Complete, Trim, Records, Paced, NoOrphans, Recovered, Named, Phased, Retained, Worked, Dropped, Continues,
        OthersLeft, CancelsHonoured;
      trail := Trail(sys, sys, sys, sys, sys, sys, None, None, [], []);
      ContinuesNothing(jobs);
      if Truthy(focusJob) {
        var found := ResolveJobId(focusJob.value);
        if found.Err? {
          r := Err(BadReference(found.error));
          return;
        }
        trail := RunForJob(found.value);
      } else if Truthy(focusUser) {
        trail := RunForUser(focusUser.value);
      } else {
        trail := RunForAll();
      }
      r := Ok(true);
    }

    /** `run_once` up to the listing: memory, and the jobs acted for. */
    method RunPass(focusJob: Option<string>, focusUser: Option<string>) returns (r: Result<bool, RunError>, ghost trail: Trail)
      requires Valid() && KeepsPace() && ConfigOk(cfg)
      modifies this, backend`cloud, backend`clock
      ensures start == old(run) && lastStateWrite == old(lastStateWrite)
      ensures Valid() && KeepsPace() && old(backend.clock) <= backend.clock
      ensures r == Err(BothFocuses) <==> Truthy(focusJob) && Truthy(focusUser)
      ensures r == Ok(false) ==> !jobScanSucceeded
      ensures backend.reliable && !Truthy(focusJob) ==> r == Ok(true) || r == Err(BothFocuses)
      ensures r != Ok(true) ==> Worked(pass) == {} && Dropped(pass) == {}
      ensures r == Ok(true) ==> jobScanSucceeded && Complete(sys) && Continues(old(jobs), trail.scanned.jobs) && Records(trail.scanned.jobs, jobs)
      ensures r == Ok(true) ==> forall j <- old(backend.cloud).dirs ::
                j in trail.scanned.jobs && trail.scanned.jobs[j].spec == old(backend.cloud).dirs[j].spec
      ensures r == Ok(true) ==> Phased(cfg, Today(), trail) && ScopesOk(focusJob, focusUser, trail)
      ensures r == Ok(true) ==> if trail.scope.Some? then jobs == trail.scheduled.jobs else
                Retained(cfg, trail.scheduled.jobs, jobs, old(backend.clock) - cfg.retentionSeconds, backend.clock - cfg.retentionSeconds)
      ensures r == Ok(true) && trail.scope.Some? ==> Worked(pass) <= trail.scope.value
      ensures r == Ok(true) && Truthy(focusJob) ==> Dropped(pass) <= trail.scope.value
      ensures r == Ok(true) && backend.reliable && !Truthy(focusJob) ==> CancelsHonoured(old(backend.cloud), trail.scanned.jobs, jobs)
      ensures r == Ok(true) && backend.reliable && !Truthy(focusJob) && !Truthy(focusUser) ==>
                && Trim(sys)
                && (old(backend.clock) - old(lastOrphanCheck) >= 300 ==> NoOrphans(cfg, backend.cloud))
                && (backend.quiet && old(backend.clock) - old(lastOrphanCheck) >= 300 ==> Recovered(cfg, backend.cloud))
    {
      hide Reaches, Passed, Complete, Went, Calmed, Trim, Dead, Records, Paced, NoOrphans, Recovered, Swept, CancelDue, Named, EnvRel,
        Phased, Retained, ScopesOk, Worked, Dropped, Extends, Continues, CancelsHonoured;
      PassBegins(cfg, run, sys, Today());
      NoWork();
      start, pass := run, [];
      trail := Trail(sys, sys, sys, sys, sys, sys, None, None, [], []);
      if Truthy(focusJob) && Truthy(focusUser) {
        r := Err(BothFocuses);
        return;
      }
      ScanJobs();
      ghost var scanned := backend.cloud;
      ScannedSpecs(cfg, run, sys, old(backend.cloud));
      ghost var found0 := jobs;
      if !jobScanSucceeded {
        r := Ok(false);
        return;
      }
      r, trail := RunScanned(focusJob, focusUser);
      if r == Ok(true) {
        ContinuesOn(old(jobs), found0, trail.scanned.jobs);
        ContinuesSpecs(found0, trail.scanned.jobs);
        if backend.reliable && !Truthy(focusJob) { HonouredEarlier(cfg, old(backend.cloud), scanned, trail.scanned.jobs, jobs); }
      }
    }

    /** `run_once`. `Ok(false)` is an iteration skipped after an incomplete scan; otherwise `trail` is the pass in its phases. */
    method RunOnce(focusJob: Option<string>, focusUser: Option<string>) returns (r: Result<bool, RunError>, ghost trail: Trail)
      requires Valid() && KeepsPace() && ConfigOk(cfg)
      modifies this, backend`cloud, backend`clock, backend`listing
      ensures Valid() && KeepsPace() && old(backend.clock) <= backend.clock && Prolongs(old(run), run)
      ensures r == Err(BothFocuses) <==> focusJob !in {None, Some("")} && focusUser !in {None, Some("")}
      ensures r == Ok(false) ==> !jobScanSucceeded
      ensures backend.reliable && !Truthy(focusJob) ==> r == Ok(true) || r == Err(BothFocuses)
      // An iteration that does not go through, as after an incomplete scan, changes nothing: all changes are the environment's.
      ensures r != Ok(true) ==> LeftToItself(Today(), old(run), run, old(backend.cloud), backend.cloud) && backend.listing == old(backend.listing)
      ensures r != Ok(true) ==> EnvRel(cfg, old(backend.cloud), backend.cloud)
      // Queued resources the orphan sweep can find stay all there are.
      ensures Findable(cfg, old(backend.cloud)) ==> Findable(cfg, backend.cloud)
      // The phases ran in order, each within its scope, and what is left in memory is what they left and reaping kept.
      ensures r == Ok(true) ==> Phased(cfg, Today(), trail) && ScopesOk(focusJob, focusUser, trail)
      ensures r == Ok(true) ==> if trail.scope.Some? then jobs == trail.scheduled.jobs else
                Retained(cfg, trail.scheduled.jobs, jobs, old(backend.clock) - cfg.retentionSeconds, backend.clock - cfg.retentionSeconds)
      // Everything that was there was scanned, and each job gains at most one attempt record.
      ensures r == Ok(true) ==> Continues(old(jobs), trail.scanned.jobs) && old(backend.cloud).dirs.Keys <= trail.scanned.jobs.Keys
      ensures r == Ok(true) ==> Records(trail.scanned.jobs, jobs)
      // A focus confines the pass: to one job, or to one user's jobs and everybody's cancellations. Other jobs keep their
      // records and their queued resources, of which only the environment takes any.
      ensures r == Ok(true) && Truthy(focusJob) ==>
                forall i <- old(backend.cloud).dirs :: i !in trail.scope.value ==>
                  LeftAlone(Today(), old(run), run, old(backend.cloud), backend.cloud, i)
      ensures r == Ok(true) && Truthy(focusUser) ==>
                forall i <- old(backend.cloud).dirs :: old(backend.cloud).dirs[i].spec.submittedBy != focusUser.value ==>
                  OnlyCanceled(Today(), old(run), run, old(backend.cloud), backend.cloud, i)
      ensures r == Ok(true) && backend.reliable && !Truthy(focusJob) ==> CancelsHonoured(old(backend.cloud), trail.scanned.jobs, jobs)
      // With calls that do not fail, every limit holds for what exists at the backend, and nothing is stranded.
      ensures backend.reliable && old(Tidy(sys)) ==> Tidy(sys) && WithinQuota(cfg, old(backend.cloud), backend.cloud)
      // With reliable calls, one unfocused pass with the orphan check due removes whatever an earlier process left behind;
      // if nothing else moves, the live queued resources of ours are then exactly those of the active jobs.
      ensures r == Ok(true) && backend.reliable && !Truthy(focusJob) && !Truthy(focusUser) ==>
                && Trim(sys)
                && (old(backend.clock) - old(lastOrphanCheck) >= 300 ==> NoOrphans(cfg, backend.cloud))
                && (backend.quiet && old(backend.clock) - old(lastOrphanCheck) >= 300 ==> Recovered(cfg, backend.cloud))
                && (Findable(cfg, old(backend.cloud)) && old(backend.clock) - old(lastOrphanCheck) >= 300 ==> Tidy(sys))
      // Memory, and with it the cached listing, is what the durable specs and records say.
      ensures Mirrors(jobs, backend.cloud)
      ensures r == Ok(true) ==> backend.listing == old(backend.listing) || backend.listing == Some(jobs)
    {
      hide Reaches, Passed, Complete, Trim, Records, Paced, NoOrphans, Recovered, CancelDue, Named, EnvRel, Worked, Dropped, Untouched,
        OnlyCanceled, LeftAlone, LeftToItself, Findable, Continues, CancelsHonoured, Tidy, WithinQuota, Mirrors, Inv, Phased, Retained;
      ghost var was, before, begun := sys, run, backend.clock;
      r, trail := RunPass(focusJob, focusUser);
      if r == Ok(true) {
        ghost var clock, phased := backend.clock, trail.scheduled.jobs;
        MaybeWriteSchedulerState(false);
        PacedLater(Max(0, cfg.createFailureBackoff), createRetryNotBefore, tries, clock, backend.clock);
        if trail.scope.None? {
          RetainedLonger(cfg, phased, jobs, begun - cfg.retentionSeconds, clock - cfg.retentionSeconds, backend.clock - cfg.retentionSeconds);
        }
      } else {
        PassIdle(cfg, before, was, run, sys, pass, Today());
      }
      PassProlongs(before, run, pass, Today());
      PassElsewhere(cfg, before, was, run, sys, pass, Today());
      ReachedInv(cfg, run, sys);
      if backend.reliable && Tidy(was) { PassQuota(cfg, before, was, run, sys, pass, Today()); }
      if Findable(cfg, was.cloud) {
        PassFindable(cfg, before, was, run, sys, pass, Today());
        if NoOrphans(cfg, backend.cloud) { TidyNow(cfg, sys); }
      }
      AtRestMirrors(cfg, sys);
    }

    /** `run_forever`, for some iterations. */
    method RunForever(passes: nat)
      requires Valid() && KeepsPace() && ConfigOk(cfg)
      modifies this, backend`cloud, backend`clock, backend`listing
      ensures Valid() && KeepsPace() && Prolongs(old(run), run)
      ensures backend.reliable && old(Tidy(sys)) ==> Tidy(sys) && WithinQuota(cfg, old(backend.cloud), backend.cloud)
    {
      hide Reaches, Passed, Tidy, WithinQuota, Paced, EnvRel, Trim, NoOrphans, Recovered, Untouched, OnlyCanceled,
        Mirrors, Records, CancelDue, Named, Prolongs, Findable;
      var i := 0;
      ghost var c := backend.cloud;
      QuotaStart(cfg, c);
      RunShape(cfg, run, sys);
      ProlongsHere(run);
      while i < passes
        invariant Valid() && KeepsPace() && Prolongs(old(run), run)
        invariant backend.reliable && old(Tidy(sys)) ==> Tidy(sys) && WithinQuota(cfg, c, backend.cloud)
      {
        ghost var d, before := backend.cloud, run;
        var _, _ := RunOnce(None, None);
        ProlongsOn(old(run), before, run);
        if WithinQuota(cfg, c, d) && WithinQuota(cfg, d, backend.cloud) { QuotaOn(cfg, c, d, backend.cloud); }
        i := i + 1;
      }
    }
  }

  /**
   Crash recovery. A process has died inside whatever call `before` stands for, after any history; a new
   one starts with empty memory. When no call of its first unfocused pass fails, no queued resource of
   ours is left alive but those of the active jobs, and every attempt list is numbered without a gap or a
   repetition. If nothing else moves meanwhile, every active job's queued resource is alive too. If every queued
   resource alive at the start can be found by the orphan sweep, nothing is stranded afterwards, so from there on
   every limit holds again.
   */
  method RestartAndRecover(backend: Backend, ghost past: Run, ghost before: Sys) returns (scheduler: Scheduler)
    requires Reaches(backend.cfg, past, before) && before.cloud == backend.cloud && ConfigOk(backend.cfg)
    requires backend.reliable && backend.clock >= 300
    modifies backend`cloud, backend`clock, backend`listing
    ensures NoOrphans(backend.cfg, backend.cloud)
    ensures backend.quiet ==> Recovered(backend.cfg, backend.cloud)
    ensures forall j <- backend.cloud.status, n :: 0 <= n < |backend.cloud.status[j].attempts| ==>
              backend.cloud.status[j].attempts[n].attempt == n + 1
    ensures fresh(scheduler) && scheduler.Valid() && scheduler.KeepsPace() && scheduler.backend == backend && scheduler.cfg == backend.cfg
    ensures Mirrors(scheduler.jobs, backend.cloud) && Prolongs(past, scheduler.run)
    ensures old(Findable(backend.cfg, backend.cloud)) ==> Tidy(scheduler.sys)
  {
    hide Findable, Prolongs, Reaches, Passed, Tidy, WithinQuota, Paced, EnvRel, NoOrphans, Recovered, Trim, Untouched, OnlyCanceled,
      Mirrors, Records, CancelDue, Named;
    scheduler := new Scheduler(backend, past, before);
    ghost var begun := scheduler.run;
    var _, _ := scheduler.RunOnce(None, None);
    ProlongsOn(past, begun, scheduler.run);
    Numbered(backend.cfg, scheduler.run, scheduler.sys);
  }

  /**
   After that the scheduler may run for any number of iterations: as long as calls do not fail, the chips of all
   queued resources that exist stay within the larger of each limit and what was claimed when the whole history
   began, whatever excess the stop had caused.
   */
  method RecoverAndRun(backend: Backend, passes: nat, ghost past: Run, ghost before: Sys) returns (scheduler: Scheduler)
    requires Reaches(backend.cfg, past, before) && before.cloud == backend.cloud && ConfigOk(backend.cfg)
    requires backend.reliable && backend.clock >= 300 && Findable(backend.cfg, backend.cloud)
    modifies backend`cloud, backend`clock, backend`listing
    ensures |past.states| > 0 && ClaimsBound(backend.cfg, past.states[0], backend.cloud)
    ensures fresh(scheduler) && scheduler.Valid() && Tidy(scheduler.sys)
  {
    hide Findable, Prolongs, Reaches, Passed, Tidy, WithinQuota, Paced, NoOrphans, Recovered, Mirrors, ClaimsBound;
    scheduler := RestartAndRecover(backend, past, before);
    ghost var recovered := scheduler.run;
    scheduler.RunForever(passes);
    ProlongsOn(past, recovered, scheduler.run);
    BoundByClaims(backend.cfg, past, scheduler.run, scheduler.sys);
  }
}

/**
 `tpu submit` and `tpu rerun` write `spec.json` and then `status.json`, without looking. The scheduler takes a
 spec without a record as a new job, so it may have worked on the job by the time the second write lands.
 */
module Submissions {
  import opened Types
  import opened Lifecycle
  import opened Protocol
  import opened Invariant
  import opened Runs
  import opened History
  import opened Quota
  import opened Safety

  /** The cloud once the submitter's second write has landed. */
  function LateWrite(c: Cloud, j: JobId, st: JobState): Cloud {
    c.(status := c.status[j := st])
  }

  /** Up to position `i`, no record of the job was there at the start, and nobody but the scheduler has written one. */
  ghost predicate InFlight(r: Run, j: JobId, i: nat)
    requires i < |r.states| == |r.labels| + 1
  {
    && j !in r.states[0].cloud.status
    && forall n {:trigger r.labels[n]} :: 0 <= n < i && r.labels[n].Env? && j in r.states[n + 1].cloud.status ==> j in r.states[n].cloud.status
  }

  /** The scheduler has written the job's record. */
  ghost predicate WrittenBefore(r: Run, j: JobId, i: nat)
    requires i < |r.states| == |r.labels| + 1
  {
    exists n {:trigger r.labels[n]} :: 0 <= n < i && Writes(r.labels[n]) && r.labels[n].job == j
  }

  /** What the scheduler writes first about a job is never that it is pending. */
  lemma FirstWrite(cfg: Config, s: Sys, l: Label)
    requires Inv(cfg, s) && Enabled(cfg, s, l) && Writes(l) && l.job !in s.cloud.status
    requires l.job in s.jobs && (l.BindWrite? ==> s.pc.Creating?)
    ensures !Written(s, l).status.Pending?
  {
    hide Inv, Complete;
    UnwrittenBlank(cfg, s, l.job);
  }

  lemma UnwrittenBlank(cfg: Config, s: Sys, j: JobId)
    requires Inv(cfg, s) && j in s.jobs && j !in s.cloud.status
    ensures Blank(s.jobs[j].state) && !(Dirty(s.pc) && s.pc.job == j) && s.pc != Retrying(j)
  {
    hide CloudInv, Progress, Owns;
    assert JobInv(cfg, s, j);
  }

  lemma BlankMeasure(st: JobState, maxAttempts: int)
    requires st.status.Pending? && st.currentAttempt == 0
    ensures Measure(st, maxAttempts) == 5 * maxAttempts + 3
  {
  }

  lemma ProgressMeasure(a: JobState, b: JobState, maxAttempts: int)
    requires Progress(a, b, maxAttempts)
    ensures Measure(b, maxAttempts) <= Measure(a, maxAttempts)
    ensures a.status != b.status ==> Measure(b, maxAttempts) < Measure(a, maxAttempts)
  {
  }

  lemma StepRecorded(cfg: Config, s: Sys, l: Label, j: JobId)
    requires Inv(cfg, s) && Enabled(cfg, s, l) && j in Apply(cfg, s, l).cloud.dirs && (j in s.cloud.status || !l.Env?)
    ensures var t := Apply(cfg, s, l);
            && (j in t.cloud.status <==> j in s.cloud.status || (Writes(l) && l.job == j))
            && (j in t.cloud.status && j !in s.cloud.status ==> j in s.cloud.dirs && !Record(t.cloud, j).status.Pending?)
  {
    hide Inv, Enabled, Apply, Written;
    if Writes(l) {
      WriteEffect(cfg, s, l);
      if l.job == j && j !in s.cloud.status {
        FirstWrite(cfg, s, l);
        WriteProgress(cfg, s, l);
      }
    } else if l.Reap? {
      ReapEffect(cfg, s, l);
    } else if l.Env? {
      QuietStep(cfg, s, l);
    } else {
      SameStatus(cfg, s, l);
    }
  }

  /** A record the scheduler has written is no longer that of a new job. */
  lemma {:induction false} NotNewAnymore(cfg: Config, r: Run, j: JobId, i: nat)
    requires GoodRun(cfg, r) && i < |r.states| && InFlight(r, j, i) && j in r.states[i].cloud.status
    ensures WrittenBefore(r, j, i) && j in r.states[i].cloud.dirs
    ensures var m := r.states[i].cloud.dirs[j].spec.maxAttempts; Measure(Record(r.states[i].cloud, j), m) < 5 * m + 3
  {
    hide Inv, Enabled, Apply, Measure, Progress;
    StatusDirs(cfg, r, i, j);
    if i > 0 {
      var s, l, t := r.states[i - 1], r.labels[i - 1], r.states[i];
      assert Step(cfg, s, l, t);
      RunInv(cfg, r, i - 1);
      StepRecorded(cfg, s, l, j);
      if j in s.cloud.status {
        NotNewAnymore(cfg, r, j, i - 1);
      } else {
        BlankMeasure(Record(s.cloud, j), s.cloud.dirs[j].spec.maxAttempts);
      }
      RunStepsOn(cfg, r, j, i - 1);
      ProgressMeasure(Record(s.cloud, j), Record(t.cloud, j), s.cloud.dirs[j].spec.maxAttempts);
    }
  }

  lemma StatusDirs(cfg: Config, r: Run, i: nat, j: JobId)
    requires GoodRun(cfg, r) && i < |r.states| && j in r.states[i].cloud.status
    ensures j in r.states[i].cloud.dirs
  {
    hide JobInv, Owns, Step;
    RunInv(cfg, r, i);
  }

  /** A record stays as long as its directory does. */
  lemma {:induction false} RecordStays(cfg: Config, r: Run, j: JobId, n: nat, i: nat)
    requires GoodRun(cfg, r) && n <= i < |r.states| && j in r.states[n].cloud.status && j in r.states[i].cloud.dirs
    ensures j in r.states[i].cloud.status
    decreases i - n
  {
    hide Inv, Enabled, Apply;
    if n < i {
      StatusDirs(cfg, r, n, j);
      PresentBetween(cfg, r, j, n, i - 1, i);
      RecordStays(cfg, r, j, n, i - 1);
      RunInv(cfg, r, i - 1);
      assert Step(cfg, r.states[i - 1], r.labels[i - 1], r.states[i]);
      StepRecorded(cfg, r.states[i - 1], r.labels[i - 1], j);
    }
  }

  lemma WrittenStays(cfg: Config, r: Run, j: JobId, i: nat)
    requires GoodRun(cfg, r) && i < |r.states| && WrittenBefore(r, j, i) && j in r.states[i].cloud.dirs
    ensures j in r.states[i].cloud.status
  {
    hide Inv, Enabled, Apply, Written;
    var n :| 0 <= n < i && Writes(r.labels[n]) && r.labels[n].job == j;
    assert Step(cfg, r.states[n], r.labels[n], r.states[n + 1]);
    WriteEffect(cfg, r.states[n], r.labels[n]);
    RecordStays(cfg, r, j, n + 1, i);
  }

  /**
   The submitter's second write is harmless exactly if it lands before the scheduler's first write for the job.
   Only then is it a move of the environment, so that whatever holds of every run still holds; only then does
   the durable record go on from where it was; and only then does memory still mirror it. The submitter can
   tell: it is so exactly while there is no `status.json`.
   */
  lemma LateWriteIff(cfg: Config, r: Run, i: nat, j: JobId, st: JobState)
    requires GoodRun(cfg, r) && i < |r.states| && InFlight(r, j, i) && j in r.states[i].cloud.dirs && Blank(st)
    ensures var s := r.states[i]; var late := LateWrite(s.cloud, j, st);
            && (j !in s.cloud.status <==> !WrittenBefore(r, j, i))
            && (EnvRel(cfg, s.cloud, late) <==> !WrittenBefore(r, j, i))
            && (Alike(Record(s.cloud, j), Record(late, j)) <==> !WrittenBefore(r, j, i))
            && (s.pc.Idle? && j in s.jobs ==> (Mirrors(s.jobs, late) <==> !WrittenBefore(r, j, i)))
  {
    hide Inv, Step, WrittenBefore, InFlight, EnvRel, Mirrors;
    var s := r.states[i];
    var late := LateWrite(s.cloud, j, st);
    if j in s.cloud.status {
      NotNewAnymore(cfg, r, j, i);
      BlankMeasure(st, s.cloud.dirs[j].spec.maxAttempts);
      TooLate(cfg, s, j, st);
    } else {
      if WrittenBefore(r, j, i) { WrittenStays(cfg, r, j, i); }
      InTime(cfg, s.cloud, j, st);
      if s.pc.Idle? && j in s.jobs {
        RunInv(cfg, r, i);
        EnvKeeps(cfg, s, late);
        AtRestMirrors(cfg, s.(cloud := late));
      }
    }
    if s.pc.Idle? && j in s.jobs && j in s.cloud.status {
      RunInv(cfg, r, i);
      AtRestMirrors(cfg, s);
      MirrorsLost(s, j, st);
    }
  }

  lemma InTime(cfg: Config, c: Cloud, j: JobId, st: JobState)
    requires j in c.dirs && j !in c.status && Blank(st)
    ensures EnvRel(cfg, c, LateWrite(c, j, st)) && Alike(Record(c, j), Record(LateWrite(c, j, st), j))
  {
    hide SpecOk, Sighted;
  }

  lemma TooLate(cfg: Config, s: Sys, j: JobId, st: JobState)
    requires j in s.cloud.status && j in s.cloud.dirs && Blank(st)
    requires var m := s.cloud.dirs[j].spec.maxAttempts; Measure(s.cloud.status[j], m) < Measure(st, m)
    ensures !EnvRel(cfg, s.cloud, LateWrite(s.cloud, j, st)) && !Alike(s.cloud.status[j], st)
  {
    hide SpecOk, Sighted;
    var late := LateWrite(s.cloud, j, st);
    assert late.status[j] != s.cloud.status[j];
  }

  lemma MirrorsLost(s: Sys, j: JobId, st: JobState)
    requires Mirrors(s.jobs, s.cloud) && j in s.jobs && j in s.cloud.status && !Alike(s.cloud.status[j], st)
    ensures !Mirrors(s.jobs, LateWrite(s.cloud, j, st))
  {
    var late := LateWrite(s.cloud, j, st);
    assert MirrorsJob(s.jobs[j], s.cloud, j);
    assert !MirrorsJob(s.jobs[j], late, j);
  }

  // ---------- Too late ----------

  /** A new job, alone in memory, gets a queued resource. */
  lemma Admits(u: Sys, q: QrName)
    requires u.pc.Idle? && u.jobs.Keys == {"job"} && u.jobs["job"] == Job(SmallJob(), NewState("now"), "gs://bucket")
    requires (forall j <- u.cloud.status :: j == "job") && "queue-" <= q && q !in u.cloud.ledger
    ensures Enabled(SmallConfig(), u, CreateOk("job", q))
    ensures var t := Apply(SmallConfig(), u, CreateOk("job", q));
            && t.pc == Creating("job", q) && t.jobs == u.jobs && t.index == u.index
            && t.cloud == u.cloud.(qrs := u.cloud.qrs[q := Qr("project", "zone", QrWaiting)],
                                   ledger := u.cloud.ledger[q := Birth("job", 1, SMALL, "user", true)],
                                   sightings := u.cloud.sightings[q := {QrWaiting}])
  {
    hide Admissible;
    AdmitsFirst(u);
  }

  /** Its record is written. */
  lemma Binds(a: Sys, q: QrName)
    requires a.pc == Creating("job", q) && a.jobs.Keys == {"job"} && a.jobs["job"] == Job(SmallJob(), NewState("now"), "gs://bucket")
    ensures Enabled(SmallConfig(), a, StampVersion("job"))
    ensures var b := Apply(SmallConfig(), a, StampVersion("job"));
            && Enabled(SmallConfig(), b, BindWrite("job", "now"))
            && var c := Apply(SmallConfig(), b, BindWrite("job", "now"));
               && c.pc.Idle? && c.jobs == map["job" := Job(SmallJob(), Provisioned(NewState("now"), q).(lastUpdated := "now"), "gs://bucket")]
               && c.cloud.marks == a.cloud.marks[Scoped("job", 1, StartupVersion) := "3\n"] && c.cloud.sightings == a.cloud.sightings
               && c.cloud.dirs == a.cloud.dirs && c.cloud.qrs == a.cloud.qrs && c.cloud.ledger == a.cloud.ledger
               && c.cloud.status.Keys == a.cloud.status.Keys + {"job"} && c.cloud.status["job"] == c.jobs["job"].state
  {
    hide Complete;
  }

  /** A directory without a record is scanned; or one whose record is that of a new job. */
  lemma Loads(s: Sys)
    requires s.pc.Idle? && s.jobs == map[] && "job" in s.cloud.dirs && s.cloud.dirs["job"] == Dir("gs://bucket", SmallJob())
    requires "job" in s.cloud.status ==> s.cloud.status["job"] == NewState("now")
    ensures Enabled(SmallConfig(), s, Load("job", "now"))
    ensures Apply(SmallConfig(), s, Load("job", "now")) == s.(jobs := map["job" := Job(SmallJob(), NewState("now"), "gs://bucket")])
  {
  }

  /** The scheduler has admitted the job and written its record when its submitter's second write lands. */
  lemma WrittenTooLate() returns (r: Run, late: Cloud)
    ensures GoodRun(SmallConfig(), r) && r.states[0] == SmallStart() && Last(r).pc.Idle?
    ensures r.labels == [Load("job", "now"), CreateOk("job", "queue-1"), StampVersion("job"), BindWrite("job", "now")] && InFlight(r, "job", 4)
    ensures late == LateWrite(Last(r).cloud, "job", NewState("now")) && !Mirrors(Last(r).jobs, late)
    ensures Last(r).jobs.Keys == {"job"} && Last(r).jobs["job"].spec == SmallJob() && Last(r).jobs["job"].bucket == "gs://bucket"
    ensures late.dirs == SmallStart().cloud.dirs && late.status == map["job" := NewState("now")]
    ensures late.ledger == map["queue-1" := Birth("job", 1, SMALL, "user", true)] && late.qrs.Keys == {"queue-1"}
    ensures CloudInv(SmallConfig(), late)
  {
    hide Enabled, Apply, Inv, CloudInv, Mirrors;
    var cfg, s0 := SmallConfig(), SmallStart();
    SmallInv();
    Loads(s0);
    var u := Apply(cfg, s0, Load("job", "now"));
    Admits(u, "queue-1");
    var a := Apply(cfg, u, CreateOk("job", "queue-1"));
    Binds(a, "queue-1");
    var b := Apply(cfg, a, StampVersion("job"));
    var c := Apply(cfg, b, BindWrite("job", "now"));
    r := Run([s0, u, a, b, c], [Load("job", "now"), CreateOk("job", "queue-1"), StampVersion("job"), BindWrite("job", "now")]);
    late := LateWrite(c.cloud, "job", NewState("now"));
    RunInv(cfg, r, 4);
    AtRestMirrors(cfg, c);
    MirrorsLost(c, "job", NewState("now"));
    LateCloud(c, "job");
  }

  lemma LateCloud(s: Sys, j: JobId)
    requires Inv(SmallConfig(), s) && j in s.cloud.dirs
    ensures CloudInv(SmallConfig(), LateWrite(s.cloud, j, NewState("now")))
  {
    hide JobInv, PcInv, Complete;
    assert SpecOk(SmallConfig(), j, s.cloud.dirs[j]);
    CommitCloud(SmallConfig(), s.cloud, j, NewState("now"));
  }

  /**
   Then both the mirror and the quota are lost, without any crash between a create and its record: restarted,
   the scheduler admits the job a second time, for the attempt that already has a queued resource, and the
   chips in use are twice the limit.
   */
  lemma LateWriteOverspends() returns (r: Run, late: Cloud, restarted: Run)
    ensures GoodRun(SmallConfig(), r) && r.states[0] == SmallStart() && |r.labels| == 4 && InFlight(r, "job", 4)
    ensures late == LateWrite(Last(r).cloud, "job", NewState("now")) && !Mirrors(Last(r).jobs, late)
    ensures GoodRun(SmallConfig(), restarted) && restarted.states[0] == Sys(map[], map[], late, Idle)
    ensures restarted.labels == [Load("job", "now"), CreateOk("job", "queue-2")]
    ensures Last(restarted).cloud.ledger == map["queue-1" := Birth("job", 1, SMALL, "user", true), "queue-2" := Birth("job", 1, SMALL, "user", true)]
    ensures SmallConfig().quotaGroups == map["group" := 4] && LiveUsage(Last(restarted).cloud, Group("group")) == 8
  {
    hide Enabled, Apply, Inv, CloudInv, Mirrors, InFlight, LiveUsage;
    var cfg := SmallConfig();
    r, late := WrittenTooLate();
    var s := Sys(map[], map[], late, Idle);
    EmptyInv(cfg, late);
    Loads(s);
    var t := Apply(cfg, s, Load("job", "now"));
    Admits(t, "queue-2");
    var u := Apply(cfg, t, CreateOk("job", "queue-2"));
    restarted := Run([s, t, u], [Load("job", "now"), CreateOk("job", "queue-2")]);
    TwoQrs(u.cloud);
  }

  /** So it does without a restart, when it re-reads the record, as a pass under a user focus does. */
  lemma RereadOverspends() returns (r: Run, s: Sys, t: Sys, u: Sys)
    ensures GoodRun(SmallConfig(), r) && r.states[0] == SmallStart() && |r.labels| == 4 && InFlight(r, "job", 4)
    ensures s == Last(r).(cloud := LateWrite(Last(r).cloud, "job", NewState("now")))
    ensures Step(SmallConfig(), s, Refresh("job"), t) && Step(SmallConfig(), t, CreateOk("job", "queue-2"), u)
    ensures SmallConfig().quotaGroups == map["group" := 4] && LiveUsage(u.cloud, Group("group")) == 8
  {
    hide Enabled, Apply, Inv, CloudInv, Mirrors, InFlight, LiveUsage;
    var late;
    r, late := WrittenTooLate();
    s := Last(r).(cloud := late);
    Rereads(s);
    t := Apply(SmallConfig(), s, Refresh("job"));
    Admits(t, "queue-2");
    u := Apply(SmallConfig(), t, CreateOk("job", "queue-2"));
    TwoQrs(u.cloud);
  }

  lemma EmptyInv(cfg: Config, c: Cloud)
    requires CloudInv(cfg, c)
    ensures Inv(cfg, Sys(map[], map[], c, Idle))
  {
    hide CloudInv;
  }

  lemma Rereads(s: Sys)
    requires s.pc.Idle? && s.jobs.Keys == {"job"} && s.jobs["job"].spec == SmallJob() && s.jobs["job"].bucket == "gs://bucket"
    requires s.cloud.status == map["job" := NewState("now")]
    ensures Enabled(SmallConfig(), s, Refresh("job"))
    ensures var t := Apply(SmallConfig(), s, Refresh("job"));
            t.pc.Idle? && t.cloud == s.cloud && t.jobs.Keys == {"job"} && t.jobs["job"] == Job(SmallJob(), NewState("now"), "gs://bucket")
  {
  }
}

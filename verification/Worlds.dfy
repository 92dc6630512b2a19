/**
 The scheduler's protocol and the startup scripts in one machine. Every queued resource runs a crew, the
 workers of its attempt; they read and write the attempt's directory, whoever else has written there.
 */
module Worlds {
  import opened Types
  import opened Lifecycle
  import opened Protocol
  import opened Invariant
  import opened Runs
  import opened History
  import opened Safety
  import Barrier

  /** `crews[q].marks` is what the workers of `q` have uploaded themselves. */
  datatype World = World(sys: Sys, crews: map<QrName, Barrier.Crew>)

  datatype Act = ByScheduler(l: Label) | ByWorker(q: QrName, m: Barrier.Move)

  /** `EXPECTED_WORKERS` of the script. */
  function ExpectedWorkers(spec: JobSpec): nat {
    Max(1, spec.resources.workers)
  }

  function NewCrew(spec: JobSpec): Barrier.Crew {
    Barrier.Crew(seq(ExpectedWorkers(spec), i => Barrier.Before(Barrier.Bootstrap)), map[])
  }

  /** The markers by which workers synchronise: all but the heartbeat and the stamp of the scheduler. */
  predicate OfWorkers(kind: ScopedName) {
    !kind.Heartbeat? && !kind.StartupVersion?
  }

  predicate WorkerMark(m: Mark) {
    m.Scoped? && OfWorkers(m.kind)
  }

  /** The workers' markers in the directory of one attempt. */
  function Directory(marks: map<Mark, string>, j: JobId, attempt: int): map<ScopedName, string> {
    map m | m in marks && WorkerMark(m) && m.job == j && m.attempt == attempt :: m.kind := marks[m]
  }

  lemma DirectoryHas(marks: map<Mark, string>, j: JobId, attempt: int, kind: ScopedName)
    ensures kind in Directory(marks, j, attempt) <==> OfWorkers(kind) && Scoped(j, attempt, kind) in marks
    ensures kind in Directory(marks, j, attempt) ==> Directory(marks, j, attempt)[kind] == marks[Scoped(j, attempt, kind)]
  {
    if OfWorkers(kind) && Scoped(j, attempt, kind) in marks {
      assert WorkerMark(Scoped(j, attempt, kind));
    }
  }

  /** The marker a step uploads. */
  function Uploads(w: nat, e: Barrier.Event): Option<(ScopedName, string)> {
    match e
    case Publish(text) => Some((SetupReady(w), text))
    case Complete(text) => Some((SetupComplete, text))
    case Claim(text) => Some((Claimed, text))
    case Succeed(text) => Some((ScopedSucceeded, text))
    case Report(text) => Some((ScopedFailed, text))
    case _ => None
  }

  function Uploaded(c: Cloud, j: JobId, attempt: int, up: Option<(ScopedName, string)>): Cloud {
    if up.Some? then c.(marks := c.marks[Scoped(j, attempt, up.value.0) := up.value.1]) else c
  }

  /** What the workers of `q` see: their own places, and everything in the directory of their attempt. */
  function View(w: World, q: QrName): Barrier.Crew
    requires q in w.crews && q in w.sys.cloud.ledger
  {
    var b := w.sys.cloud.ledger[q];
    Barrier.Crew(w.crews[q].places, Directory(w.sys.cloud.marks, b.job, b.attempt))
  }

  /** The directory of the attempt holds what the workers of `q` have uploaded, and nothing else. */
  predicate Agrees(w: World, q: QrName)
    requires q in w.crews && q in w.sys.cloud.ledger
  {
    View(w, q) == w.crews[q]
  }

  /** The workers' markers are left alone. */
  predicate WorkersStill(c: Cloud, d: Cloud) {
    && (forall m <- c.marks :: WorkerMark(m) ==> m in d.marks && d.marks[m] == c.marks[m])
    && (forall m <- d.marks :: WorkerMark(m) ==> m in c.marks)
  }

  predicate CanWork(w: World, q: QrName, m: Barrier.Move) {
    && q in w.crews && q in w.sys.cloud.ledger && q in w.sys.cloud.qrs
    && m.worker < |w.crews[q].places| && Barrier.CanDo(View(w, q), m.worker, m.event)
  }

  /** One step of one worker, as long as its queued resource exists. */
  function DoWork(w: World, q: QrName, m: Barrier.Move): World
    requires CanWork(w, q, m)
  {
    var b, up := w.sys.cloud.ledger[q], Uploads(m.worker, m.event);
    var own := w.crews[q].marks;
    World(w.sys.(cloud := Uploaded(w.sys.cloud, b.job, b.attempt, up)),
          w.crews[q := Barrier.Crew(Barrier.Do(View(w, q), m.worker, m.event).places,
                                    if up.Some? then own[up.value.0 := up.value.1] else own)])
  }

  /** A step of the scheduler or of the rest of the environment; a create brings a crew. */
  ghost predicate SchedulerStep(cfg: Config, w: World, l: Label, v: World) {
    && Step(cfg, w.sys, l, v.sys)
    && (l.Env? ==> WorkersStill(w.sys.cloud, v.sys.cloud))
    && v.crews == if l.CreateOk? && l.job in w.sys.jobs then w.crews[l.qr := NewCrew(w.sys.jobs[l.job].spec)] else w.crews
  }

  ghost predicate Happens(cfg: Config, w: World, a: Act, v: World) {
    match a
    case ByScheduler(l) => SchedulerStep(cfg, w, l, v)
    case ByWorker(q, m) => CanWork(w, q, m) && v == DoWork(w, q, m)
  }

  datatype Story = Story(worlds: seq<World>, acts: seq<Act>)

  ghost predicate GoodStory(cfg: Config, y: Story) {
    && |y.worlds| == |y.acts| + 1
    && Inv(cfg, y.worlds[0].sys)
    && (forall i {:trigger y.acts[i]} :: 0 <= i < |y.acts| ==> Happens(cfg, y.worlds[i], y.acts[i], y.worlds[i + 1]))
  }

  // ---------- A story is a run ----------

  function LabelOf(a: Act, v: World): Label {
    if a.ByScheduler? then a.l else Env(v.sys.cloud)
  }

  ghost function RunOf(y: Story): Run
    requires |y.worlds| == |y.acts| + 1
  {
    Run(seq(|y.worlds|, i requires 0 <= i < |y.worlds| => y.worlds[i].sys),
        seq(|y.acts|, i requires 0 <= i < |y.acts| => LabelOf(y.acts[i], y.worlds[i + 1])))
  }

  /** A worker's step is a move the scheduler's environment may make. */
  lemma WorkersAreEnvironment(cfg: Config, w: World, q: QrName, m: Barrier.Move)
    requires CanWork(w, q, m)
    ensures EnvRel(cfg, w.sys.cloud, DoWork(w, q, m).sys.cloud)
    ensures Step(cfg, w.sys, Env(DoWork(w, q, m).sys.cloud), DoWork(w, q, m).sys)
  {
    hide EnvRel, Step, Uploads, Barrier.CanDo, Barrier.Do;
    var b := w.sys.cloud.ledger[q];
    UploadsForWorkers(m.worker, m.event);
    UploadMoves(cfg, w.sys.cloud, b.job, b.attempt, Uploads(m.worker, m.event));
    MoveStep(cfg, w.sys, DoWork(w, q, m).sys.cloud);
  }

  lemma UploadsForWorkers(w: nat, e: Barrier.Event)
    ensures Uploads(w, e).Some? ==> OfWorkers(Uploads(w, e).value.0)
  {
  }

  lemma UploadMoves(cfg: Config, c: Cloud, j: JobId, attempt: int, up: Option<(ScopedName, string)>)
    requires up.Some? ==> OfWorkers(up.value.0)
    ensures EnvRel(cfg, c, Uploaded(c, j, attempt, up))
  {
    hide SpecOk, Sighted;
  }

  lemma StoryStep(cfg: Config, w: World, a: Act, v: World)
    requires Happens(cfg, w, a, v)
    ensures Step(cfg, w.sys, LabelOf(a, v), v.sys)
  {
    hide Step, CanWork, DoWork;
    if a.ByWorker? { WorkersAreEnvironment(cfg, w, a.q, a.m); }
  }

  lemma StoryIsRun(cfg: Config, y: Story)
    requires GoodStory(cfg, y)
    ensures GoodRun(cfg, RunOf(y))
  {
    hide Inv, Step, Happens;
    var r := RunOf(y);
    forall i | 0 <= i < |r.labels|
      ensures Step(cfg, r.states[i], r.labels[i], r.states[i + 1])
    {
      assert Happens(cfg, y.worlds[i], y.acts[i], y.worlds[i + 1]);
      StoryStep(cfg, y.worlds[i], y.acts[i], y.worlds[i + 1]);
    }
  }

  lemma StoryInv(cfg: Config, y: Story, i: nat)
    requires GoodStory(cfg, y) && i < |y.worlds|
    ensures Inv(cfg, y.worlds[i].sys)
  {
    hide Inv, GoodRun, Happens;
    StoryIsRun(cfg, y);
    RunInv(cfg, RunOf(y), i);
  }

  // ---------- Who serves an attempt ----------

  /** The queued resource in hand for the job, or its current one. */
  predicate Serving(s: Sys, j: JobId, q: QrName) {
    s.pc == Creating(j, q) || Claims(s.cloud, j, q)
  }

  lemma CleanWriteServes(cfg: Config, s: Sys, l: Label, q: QrName)
    requires Inv(cfg, s) && Enabled(cfg, s, l) && (l.CancelWrite? || l.NoteQr? || l.RetryWrite? || l.BindWrite?)
    requires l.job in s.jobs && (l.BindWrite? ==> s.pc.Creating?)
    requires Active(Written(s, l)) && Written(s, l).currentQrName == Some(q)
    ensures Serving(s, l.job, q)
  {
    hide CloudInv, JobInv, Complete, WellFormed;
    MemoryAlike(cfg, s, l.job);
  }

  lemma DirtyWriteServes(cfg: Config, s: Sys, l: Label, q: QrName)
    requires Inv(cfg, s) && Enabled(cfg, s, l) && (l.PreemptWrite? || l.ActivateWrite? || l.FinishWrite?) && l.job in s.jobs
    requires Active(Written(s, l)) && Written(s, l).currentQrName == Some(q)
    ensures Serving(s, l.job, q)
  {
    hide CloudInv, JobInv, Complete, Progress;
  }

  /** What a write of a record makes current is what it was before, or what was in hand. */
  lemma WriteServes(cfg: Config, s: Sys, l: Label, j: JobId, q: QrName)
    requires Inv(cfg, s) && Enabled(cfg, s, l) && Writes(l) && Claims(Apply(cfg, s, l).cloud, j, q)
    ensures Serving(s, j, q)
  {
    hide Inv, Enabled, Apply, Written;
    WriteEffect(cfg, s, l);
    if l.job == j {
      if l.PreemptWrite? || l.ActivateWrite? || l.FinishWrite? { DirtyWriteServes(cfg, s, l, q); } else { CleanWriteServes(cfg, s, l, q); }
    }
  }

  lemma AttemptPc(cfg: Config, s: Sys, l: Label)
    requires Enabled(cfg, s, l) && OfAttempt(l) && !Writes(l)
    ensures !Apply(cfg, s, l).pc.Creating?
  {
    hide Complete, Justified, Verdict, Preempted, Lifecycle.Finished, Activated, ToClean;
  }

  lemma OtherPc(cfg: Config, s: Sys, l: Label, j: JobId, q: QrName)
    requires Enabled(cfg, s, l) && !OfAttempt(l) && !Writes(l) && q in s.cloud.ledger && Apply(cfg, s, l).pc == Creating(j, q)
    ensures s.pc == Creating(j, q)
  {
    hide Complete, MemUsage, Within, ToClean, Stored, Indexed, EnvRel;
  }

  lemma PcServes(cfg: Config, s: Sys, l: Label, j: JobId, q: QrName)
    requires Enabled(cfg, s, l) && q in s.cloud.ledger && Apply(cfg, s, l).pc == Creating(j, q)
    ensures s.pc == Creating(j, q)
  {
    hide Enabled, Apply;
    if Writes(l) {
      WriteEffect(cfg, s, l);
    } else if OfAttempt(l) {
      AttemptPc(cfg, s, l);
    } else {
      OtherPc(cfg, s, l, j, q);
    }
  }

  lemma QuietServes(cfg: Config, s: Sys, l: Label, j: JobId, q: QrName)
    requires Enabled(cfg, s, l) && !Writes(l) && Claims(Apply(cfg, s, l).cloud, j, q)
    ensures Claims(s.cloud, j, q)
  {
    hide Enabled, Apply;
    if l.Reap? { ReapEffect(cfg, s, l); } else { QuietStep(cfg, s, l); }
  }

  /** A queued resource that has stopped serving its job never serves it again. */
  lemma ServedBefore(cfg: Config, s: Sys, l: Label, j: JobId, q: QrName)
    requires Inv(cfg, s) && Enabled(cfg, s, l) && q in s.cloud.ledger && Serving(Apply(cfg, s, l), j, q)
    ensures Serving(s, j, q)
  {
    hide Inv, Enabled, Apply, Claims;
    if Apply(cfg, s, l).pc == Creating(j, q) {
      PcServes(cfg, s, l, j, q);
    } else if Writes(l) {
      WriteServes(cfg, s, l, j, q);
    } else {
      QuietServes(cfg, s, l, j, q);
    }
  }

  // ---------- A clean start ----------

  /** The worker may still leave a marker: its script is under way, or on the way out with something to report. */
  predicate MayUpload(g: Barrier.Crew, x: nat)
    requires x < |g.places|
  {
    var p := g.places[x];
    Barrier.Live(p) || p.Reporting? || (p.Ending? && (Barrier.Fatal(p.rc) || (p.rc == 0 && x == 0)))
  }

  predicate Finished(g: Barrier.Crew) {
    forall x {:trigger g.places[x]} :: 0 <= x < |g.places| ==> !MayUpload(g, x)
  }

  /** A queued resource that exists and was made for the attempt. */
  predicate Rival(c: Cloud, p: QrName, j: JobId, attempt: int) {
    p in c.qrs && p in c.ledger && c.ledger[p].job == j && c.ledger[p].attempt == attempt
  }

  /** No other queued resource of the attempt runs a script that may still upload a marker. */
  predicate Undisputed(w: World, j: JobId, attempt: int, q: QrName) {
    forall p <- w.crews :: p != q && Rival(w.sys.cloud, p, j, attempt) ==> Finished(w.crews[p])
  }

  /** The attempt's directory holds no worker's marker, and nobody is left who may yet put one there. */
  predicate Clean(w: World, j: JobId, attempt: int, q: QrName) {
    Directory(w.sys.cloud.marks, j, attempt) == map[] && Undisputed(w, j, attempt, q)
  }

  /** The crew of `q` has the attempt's directory to itself. */
  ghost predicate Alone(w: World, q: QrName) {
    && q in w.crews && q in w.sys.cloud.ledger
    && Agrees(w, q) && Barrier.Sound(w.crews[q])
    && Undisputed(w, w.sys.cloud.ledger[q].job, w.sys.cloud.ledger[q].attempt, q)
  }

  lemma SameMarks(c: map<Mark, string>, d: map<Mark, string>, j: JobId, attempt: int)
    requires forall m <- c :: WorkerMark(m) && m.job == j ==> m in d && d[m] == c[m]
    requires forall m <- d :: WorkerMark(m) && m.job == j ==> m in c
    ensures Directory(c, j, attempt) == Directory(d, j, attempt)
  {
  }

  /** The scheduler never touches a worker's marker, short of deleting a whole job directory. */
  lemma AttemptMarks(cfg: Config, s: Sys, l: Label)
    requires Enabled(cfg, s, l) && OfAttempt(l) && !Writes(l)
    ensures WorkersStill(s.cloud, Apply(cfg, s, l).cloud)
  {
    hide CanBeginPreempt, Preempted, CanBeginActivate, Activated, CanBeginFinish, Lifecycle.Finished, ToClean, Verdict;
  }

  lemma OtherMarks(cfg: Config, s: Sys, l: Label)
    requires Enabled(cfg, s, l) && !OfAttempt(l) && !Writes(l) && !l.Env? && !l.Reap?
    ensures WorkersStill(s.cloud, Apply(cfg, s, l).cloud)
  {
    hide CanLoad, CanRefresh, CanForget, CanClearRoot, CanCleanStale, CanCleanOrphan, CanCleanOwn, CanBeginCancel,
      CanBeginRetry, CanCreate, ToClean, Stored, Indexed;
  }

  lemma SchedulerMarks(cfg: Config, s: Sys, l: Label, j: JobId, attempt: int)
    requires Enabled(cfg, s, l) && l != Reap(j, true)
    requires l.Env? ==> WorkersStill(s.cloud, Apply(cfg, s, l).cloud)
    ensures Directory(Apply(cfg, s, l).cloud.marks, j, attempt) == Directory(s.cloud.marks, j, attempt)
  {
    hide Enabled, Apply, Directory, OfWorkers;
    if Writes(l) {
      WriteEffect(cfg, s, l);
    } else if l.Reap? {
      ReapEffect(cfg, s, l);
    } else if OfAttempt(l) {
      AttemptMarks(cfg, s, l);
    } else if !l.Env? {
      OtherMarks(cfg, s, l);
    }
    SameMarks(s.cloud.marks, Apply(cfg, s, l).cloud.marks, j, attempt);
  }

  /** While a queued resource serves its job, the job gets no other, and its directory stays. */
  lemma ServedAlone(cfg: Config, s: Sys, l: Label, j: JobId, q: QrName)
    requires Inv(cfg, s) && Enabled(cfg, s, l) && Serving(s, j, q)
    ensures !(l.CreateOk? && l.job == j) && l != Reap(j, true)
  {
    hide CloudInv, JobInv, Apply, Complete, Admissible, WellFormed;
    if (l.CreateOk? || l.Reap?) && l.job == j { MemoryAlike(cfg, s, j); }
  }

  lemma SchedulerLedger(cfg: Config, s: Sys, l: Label)
    requires Enabled(cfg, s, l)
    ensures forall q <- s.cloud.ledger :: q in Apply(cfg, s, l).cloud.ledger && Apply(cfg, s, l).cloud.ledger[q] == s.cloud.ledger[q]
    ensures forall q <- s.cloud.ledger :: q in Apply(cfg, s, l).cloud.qrs ==> q in s.cloud.qrs
    ensures forall q <- Apply(cfg, s, l).cloud.ledger :: q in s.cloud.ledger || (l.CreateOk? && q == l.qr)
    ensures l.CreateOk? ==> l.qr !in s.cloud.ledger && l.job in s.jobs && Apply(cfg, s, l).cloud.ledger[l.qr].job == l.job
  {
    hide Enabled, Apply;
    if l.CreateOk? { CreateLedger(cfg, s, l); } else { StepFewer(cfg, s, l); }
  }

  lemma CreateLedger(cfg: Config, s: Sys, l: Label)
    requires Enabled(cfg, s, l) && l.CreateOk?
    ensures l.qr !in s.cloud.ledger && l.job in s.jobs && ResourceOf(cfg, s.jobs[l.job].spec).Some?
    ensures s.jobs[l.job].state.status.Pending? && s.pc.Idle?
    ensures var d, r := Apply(cfg, s, l).cloud, ResourceOf(cfg, s.jobs[l.job].spec).value;
            && d.ledger == s.cloud.ledger[l.qr := Birth(l.job, s.jobs[l.job].state.currentAttempt + 1, r, s.jobs[l.job].spec.submittedBy, true)]
            && d.qrs.Keys == s.cloud.qrs.Keys + {l.qr} && d.marks == s.cloud.marks
    ensures Apply(cfg, s, l).pc == Creating(l.job, l.qr)
  {
    hide MemUsage, Within, Complete;
  }

  /** A crew that starts clean has the directory to itself. */
  lemma BornAlone(cfg: Config, w: World, l: Label, v: World)
    requires Inv(cfg, w.sys) && SchedulerStep(cfg, w, l, v) && l.CreateOk? && l.job in w.sys.jobs
    requires Clean(w, l.job, w.sys.jobs[l.job].state.currentAttempt + 1, l.qr)
    ensures Alone(v, l.qr) && Serving(v.sys, l.job, l.qr)
  {
    hide Inv, Enabled, Apply, Directory, Finished, Barrier.PlaceOk;
    CreateLedger(cfg, w.sys, l);
    Barrier.StartSound(NewCrew(w.sys.jobs[l.job].spec));
  }

  /** The scheduler and the rest of the environment leave the crew that serves its job alone. */
  lemma SchedulerKeepsAlone(cfg: Config, w: World, l: Label, v: World, q: QrName)
    requires Inv(cfg, w.sys) && SchedulerStep(cfg, w, l, v) && Alone(w, q) && Serving(w.sys, w.sys.cloud.ledger[q].job, q)
    ensures Alone(v, q) && v.crews[q] == w.crews[q]
  {
    hide Inv, Enabled, Apply, Directory, Finished, Barrier.Sound, Serving;
    var b := w.sys.cloud.ledger[q];
    ServedAlone(cfg, w.sys, l, b.job, q);
    SchedulerMarks(cfg, w.sys, l, b.job, b.attempt);
    SchedulerLedger(cfg, w.sys, l);
    forall p | p in v.crews && p != q && Rival(v.sys.cloud, p, b.job, b.attempt)
      ensures Finished(v.crews[p])
    {
      assert p in w.sys.cloud.ledger;
      assert Rival(w.sys.cloud, p, b.job, b.attempt);
    }
  }

  lemma UploadedDirectory(c: Cloud, i: JobId, n: int, up: Option<(ScopedName, string)>, j: JobId, attempt: int)
    requires up.Some? ==> OfWorkers(up.value.0)
    ensures var was, now := Directory(c.marks, j, attempt), Directory(Uploaded(c, i, n, up).marks, j, attempt);
            now == if up.Some? && i == j && n == attempt then was[up.value.0 := up.value.1] else was
  {
    var d := Uploaded(c, i, n, up);
    forall kind
      ensures kind in Directory(d.marks, j, attempt) <==>
                kind in Directory(c.marks, j, attempt) || (up.Some? && i == j && n == attempt && kind == up.value.0)
    {
      DirectoryHas(c.marks, j, attempt, kind);
      DirectoryHas(d.marks, j, attempt, kind);
    }
  }

  lemma DoMarks(g: Barrier.Crew, x: nat, e: Barrier.Event)
    requires x < |g.places| && Barrier.CanDo(g, x, e)
    ensures var h, up := Barrier.Do(g, x, e), Uploads(x, e);
            h.marks == (if up.Some? then g.marks[up.value.0 := up.value.1] else g.marks) && |h.places| == |g.places|
  {
  }

  /** Scripts with nothing left to upload upload nothing. */
  lemma FinishedStays(g: Barrier.Crew, x: nat, e: Barrier.Event)
    requires x < |g.places| && Barrier.CanDo(g, x, e) && Finished(g)
    ensures Uploads(x, e).None? && Finished(Barrier.Do(g, x, e))
  {
    assert !MayUpload(g, x);
    var h := Barrier.Do(g, x, e);
    forall z | 0 <= z < |h.places|
      ensures !MayUpload(h, z)
    {
      if z != x { assert h.places[z] == g.places[z]; }
    }
  }

  /** Nor do the workers of other queued resources, once it is undisputed. */
  lemma OtherKeepsAlone(w: World, p: QrName, m: Barrier.Move, q: QrName)
    requires CanWork(w, p, m) && Alone(w, q) && p != q
    ensures Alone(DoWork(w, p, m), q) && DoWork(w, p, m).crews[q] == w.crews[q]
  {
    hide Directory, Barrier.Sound, Barrier.Do, Barrier.CanDo, Finished;
    var v, b, c := DoWork(w, p, m), w.sys.cloud.ledger[q], w.sys.cloud.ledger[p];
    UploadsForWorkers(m.worker, m.event);
    UploadedDirectory(w.sys.cloud, c.job, c.attempt, Uploads(m.worker, m.event), b.job, b.attempt);
    if c.job == b.job && c.attempt == b.attempt {
      assert Rival(w.sys.cloud, p, b.job, b.attempt);
      FinishedPlaces(w.crews[p], View(w, p));
      FinishedStays(View(w, p), m.worker, m.event);
      FinishedPlaces(Barrier.Do(View(w, p), m.worker, m.event), v.crews[p]);
    }
    forall z | z in v.crews && z != q && Rival(v.sys.cloud, z, b.job, b.attempt)
      ensures Finished(v.crews[z])
    {
      assert Rival(w.sys.cloud, z, b.job, b.attempt);
    }
  }

  lemma FinishedPlaces(g: Barrier.Crew, h: Barrier.Crew)
    requires g.places == h.places
    ensures Finished(g) <==> Finished(h)
  {
    assert forall x {:trigger MayUpload(g, x)} {:trigger MayUpload(h, x)} :: 0 <= x < |g.places| ==> (MayUpload(g, x) <==> MayUpload(h, x));
  }

  /** Its own workers move as the barrier's protocol has it. */
  lemma OwnKeepsAlone(w: World, m: Barrier.Move, q: QrName)
    requires CanWork(w, q, m) && Alone(w, q)
    ensures Alone(DoWork(w, q, m), q) && Barrier.Follows(w.crews[q], m, DoWork(w, q, m).crews[q])
    ensures |DoWork(w, q, m).crews[q].places| == |w.crews[q].places|
    ensures Barrier.Abandoned(w.crews[q]) ==> Barrier.Abandoned(DoWork(w, q, m).crews[q])
  {
    hide Directory, Barrier.Sound, Barrier.Abandoned, Barrier.Do, Barrier.CanDo, Finished;
    var v, b := DoWork(w, q, m), w.sys.cloud.ledger[q];
    UploadsForWorkers(m.worker, m.event);
    UploadedDirectory(w.sys.cloud, b.job, b.attempt, Uploads(m.worker, m.event), b.job, b.attempt);
    DoMarks(w.crews[q], m.worker, m.event);
    assert v.crews[q] == Barrier.Do(w.crews[q], m.worker, m.event);
    Barrier.FollowsSound(w.crews[q], m, v.crews[q]);
    if Barrier.Abandoned(w.crews[q]) { Barrier.FollowsAbandoned(w.crews[q], m, v.crews[q]); }
    forall z | z in v.crews && z != q && Rival(v.sys.cloud, z, b.job, b.attempt)
      ensures Finished(v.crews[z])
    {
      assert Rival(w.sys.cloud, z, b.job, b.attempt);
    }
  }

  lemma WorkLedger(w: World, p: QrName, m: Barrier.Move)
    requires CanWork(w, p, m)
    ensures DoWork(w, p, m).sys.cloud.ledger == w.sys.cloud.ledger
  {
    hide Barrier.CanDo, Barrier.Do, Uploads, Directory;
  }

  lemma AloneStep(cfg: Config, w: World, a: Act, v: World, q: QrName)
    requires Inv(cfg, w.sys) && Happens(cfg, w, a, v) && Alone(w, q) && Serving(w.sys, w.sys.cloud.ledger[q].job, q)
    ensures Alone(v, q) && v.sys.cloud.ledger[q] == w.sys.cloud.ledger[q] && |v.crews[q].places| == |w.crews[q].places|
    ensures Barrier.Abandoned(w.crews[q]) ==> Barrier.Abandoned(v.crews[q])
  {
    hide Inv, SchedulerStep, CanWork, DoWork, Agrees, Undisputed, Barrier.Sound, Barrier.Abandoned, Serving, Step;
    match a {
      case ByScheduler(l) =>
        SchedulerKeepsAlone(cfg, w, l, v, q);
        SchedulerStepLedger(cfg, w, l, v);
      case ByWorker(p, m) =>
        if p == q { OwnKeepsAlone(w, m, q); } else { OtherKeepsAlone(w, p, m, q); }
        WorkLedger(w, p, m);
    }
  }

  lemma SchedulerStepLedger(cfg: Config, w: World, l: Label, v: World)
    requires SchedulerStep(cfg, w, l, v)
    ensures forall q <- w.sys.cloud.ledger :: q in v.sys.cloud.ledger && v.sys.cloud.ledger[q] == w.sys.cloud.ledger[q]
    ensures forall q <- v.sys.cloud.ledger :: q in w.sys.cloud.ledger || (l.CreateOk? && q == l.qr)
  {
    hide Enabled, Apply;
    SchedulerLedger(cfg, w.sys, l);
  }

  lemma ServedStep(cfg: Config, w: World, a: Act, v: World, j: JobId, q: QrName)
    requires Inv(cfg, w.sys) && Happens(cfg, w, a, v) && q in w.sys.cloud.ledger && Serving(v.sys, j, q)
    ensures Serving(w.sys, j, q)
  {
    hide Inv, Enabled, Apply, Happens, Serving;
    StoryStep(cfg, w, a, v);
    ServedBefore(cfg, w.sys, LabelOf(a, v), j, q);
  }

  lemma StepLedger(cfg: Config, w: World, a: Act, v: World)
    requires Happens(cfg, w, a, v)
    ensures forall q <- w.sys.cloud.ledger :: q in v.sys.cloud.ledger && v.sys.cloud.ledger[q] == w.sys.cloud.ledger[q]
  {
    hide SchedulerStep, CanWork, DoWork;
    match a {
      case ByScheduler(l) => SchedulerStepLedger(cfg, w, l, v);
      case ByWorker(p, m) => WorkLedger(w, p, m);
    }
  }

  lemma {:induction false} LedgerStays(cfg: Config, y: Story, b: nat, n: nat, q: QrName)
    requires GoodStory(cfg, y) && b <= n < |y.worlds| && q in y.worlds[b].sys.cloud.ledger
    ensures q in y.worlds[n].sys.cloud.ledger && y.worlds[n].sys.cloud.ledger[q] == y.worlds[b].sys.cloud.ledger[q]
    decreases n - b
  {
    hide Inv, Happens;
    if b < n {
      LedgerStays(cfg, y, b, n - 1, q);
      assert Happens(cfg, y.worlds[n - 1], y.acts[n - 1], y.worlds[n]);
      StepLedger(cfg, y.worlds[n - 1], y.acts[n - 1], y.worlds[n]);
    }
  }

  /** As long as the queued resource serves its job, its crew keeps the directory to itself. */
  lemma {:induction false} StoryAlone(cfg: Config, y: Story, b: nat, n: nat, q: QrName)
    requires GoodStory(cfg, y) && b <= n < |y.worlds| && Alone(y.worlds[b], q)
    requires Serving(y.worlds[n].sys, y.worlds[b].sys.cloud.ledger[q].job, q)
    ensures Alone(y.worlds[n], q) && y.worlds[n].sys.cloud.ledger[q] == y.worlds[b].sys.cloud.ledger[q]
    ensures |y.worlds[n].crews[q].places| == |y.worlds[b].crews[q].places|
    ensures Barrier.Abandoned(y.worlds[b].crews[q]) ==> Barrier.Abandoned(y.worlds[n].crews[q])
    decreases n - b
  {
    hide Inv, Happens, Agrees, Undisputed, Barrier.Sound, Barrier.Abandoned, Serving;
    if b < n {
      StoryInv(cfg, y, n - 1);
      assert Happens(cfg, y.worlds[n - 1], y.acts[n - 1], y.worlds[n]);
      LedgerStays(cfg, y, b, n - 1, q);
      ServedStep(cfg, y.worlds[n - 1], y.acts[n - 1], y.worlds[n], y.worlds[b].sys.cloud.ledger[q].job, q);
      StoryAlone(cfg, y, b, n - 1, q);
      AloneStep(cfg, y.worlds[n - 1], y.acts[n - 1], y.worlds[n], q);
    }
  }
}

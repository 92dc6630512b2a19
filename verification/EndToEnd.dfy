/**
 The scheduler's completion check composed with the workers' barrier: what a recorded success or failure says
 about the workers, and exactly when a queued resource can be trusted to have its attempt to itself.
 */
module EndToEnd {
  import opened Types
  import opened Lifecycle
  import opened Protocol
  import opened Invariant
  import opened Runs
  import opened History
  import opened Safety
  import opened Worlds
  import Barrier

  // ---------- What a verdict says about the workers ----------

  /** At position `c` the queued resource `q` is created for `j`, in a clean directory. */
  ghost predicate StartsClean(y: Story, c: nat, j: JobId, q: QrName) {
    && c < |y.acts| && |y.worlds| == |y.acts| + 1 && y.acts[c] == ByScheduler(CreateOk(j, q)) && j in y.worlds[c].sys.jobs
    && Clean(y.worlds[c], j, y.worlds[c].sys.jobs[j].state.currentAttempt + 1, q)
  }

  /** From a clean start, and as long as it serves its job, the crew has the directory to itself. */
  lemma CleanStartAlone(cfg: Config, y: Story, c: nat, n: nat, j: JobId, q: QrName)
    requires GoodStory(cfg, y) && StartsClean(y, c, j, q) && c < n < |y.worlds| && Serving(y.worlds[n].sys, j, q)
    ensures Alone(y.worlds[n], q) && y.worlds[n].sys.cloud.ledger[q].job == j
    ensures y.worlds[n].sys.cloud.ledger[q].attempt == y.worlds[c].sys.jobs[j].state.currentAttempt + 1
    ensures y.worlds[n].sys.cloud.ledger[q].modern
    ensures |y.worlds[n].crews[q].places| == ExpectedWorkers(y.worlds[c].sys.jobs[j].spec)
  {
    hide Inv, Step, Clean, Alone, Serving;
    StoryInv(cfg, y, c);
    assert Happens(cfg, y.worlds[c], y.acts[c], y.worlds[c + 1]);
    BornAlone(cfg, y.worlds[c], CreateOk(j, q), y.worlds[c + 1]);
    BornFor(cfg, y.worlds[c], CreateOk(j, q), y.worlds[c + 1]);
    AloneShape(y.worlds[c + 1], q);
    StoryAlone(cfg, y, c + 1, n, q);
  }

  lemma AloneShape(w: World, q: QrName)
    requires Alone(w, q)
    ensures q in w.crews && q in w.sys.cloud.ledger
  {
    hide Agrees, Barrier.Sound, Undisputed;
  }

  lemma BornFor(cfg: Config, w: World, l: Label, v: World)
    requires SchedulerStep(cfg, w, l, v) && l.CreateOk? && l.job in w.sys.jobs
    ensures l.qr in v.sys.cloud.ledger && v.sys.cloud.ledger[l.qr].job == l.job && v.sys.cloud.ledger[l.qr].modern
    ensures v.sys.cloud.ledger[l.qr].attempt == w.sys.jobs[l.job].state.currentAttempt + 1
    ensures v.crews == w.crews[l.qr := NewCrew(w.sys.jobs[l.job].spec)]
  {
    hide Enabled, Apply;
    CreateLedger(cfg, w.sys, l);
  }

  /** What the attempt's own markers say, in terms of the crew that has the directory to itself. */
  lemma VerdictOfCrew(w: World, q: QrName)
    requires Alone(w, q)
    ensures var b, g := w.sys.cloud.ledger[q], w.crews[q];
            var v := ScopedVerdict(w.sys.cloud.marks, b.job, b.attempt);
            && (v.Won? <==> g.places[0] == Barrier.Exited(0) && !Barrier.SomeFailure(g))
            && (v.Lost? <==> Barrier.SomeFailure(g))
            && (v.Won? ==> Barrier.AllReady(g))
  {
    hide Barrier.SomeFailure, Undisputed, Directory;
    var b, g := w.sys.cloud.ledger[q], w.crews[q];
    DirectoryHas(w.sys.cloud.marks, b.job, b.attempt, ScopedSucceeded);
    DirectoryHas(w.sys.cloud.marks, b.job, b.attempt, ScopedFailed);
    assert Barrier.PlaceOk(g, 0);
  }

  /**
   What a verdict says about the workers of `q`. If the reads that matter came through, the job succeeded exactly
   if worker 0's script had exited 0 and no worker's script had ended with a reportable code, and then each of
   them had published setup-ready; it failed exactly if some script had so ended. If they did not, the record is
   not what the workers' markers say.
   */
  ghost predicate Earned(cfg: Config, w: World, l: Label, after: JobState, j: JobId, q: QrName)
    requires l.BeginFinish? && q in w.crews && |w.crews[q].places| > 0 && j in w.sys.cloud.status
  {
    var g, st, k := w.crews[q], w.sys.cloud.status[j], w.sys.cloud.status[j].currentAttempt + 1;
    var recorded := Verdict(w.sys.cloud.marks - l.missed, j, k);
    && !recorded.Undecided? && after == Lifecycle.Finished(cfg, st, l.now, recorded)
    && (recorded == ScopedVerdict(w.sys.cloud.marks, j, k) <==> Faithful(w.sys.cloud.marks, l.missed, j, k))
    && (Faithful(w.sys.cloud.marks, l.missed, j, k) ==>
          && (after.status.Succeeded? <==> g.places[0] == Barrier.Exited(0) && !Barrier.SomeFailure(g))
          && (after.status.Failed? <==> Barrier.SomeFailure(g))
          && (after.status.Succeeded? ==> Barrier.AllReady(g)))
  }

  /** A job whose queued resource started clean has earned its final status. */
  lemma SuccessIsEarned(cfg: Config, y: Story, c: nat, i: nat, j: JobId, q: QrName)
    requires GoodStory(cfg, y) && StartsClean(y, c, j, q) && c < i < |y.acts|
    requires y.acts[i].ByScheduler? && y.acts[i].l.BeginFinish? && y.acts[i].l.job == j && Claims(y.worlds[i].sys.cloud, j, q)
    ensures q in y.worlds[i].crews && |y.worlds[i].crews[q].places| > 0
    ensures var workers := y.worlds[c].sys.jobs[j].spec.resources.workers;
            |y.worlds[i].crews[q].places| == if workers >= 1 then workers else 1
    ensures j in y.worlds[i + 1].sys.jobs
    ensures Earned(cfg, y.worlds[i], y.acts[i].l, y.worlds[i + 1].sys.jobs[j].state, j, q)
  {
    hide Inv, Step, Happens, StartsClean, Alone, Barrier.SomeFailure, Barrier.AllReady, Faithful, ScopedVerdict, Verdict;
    var w := y.worlds[i];
    CleanStartAlone(cfg, y, c, i, j, q);
    AloneShape(w, q);
    StoryIsRun(cfg, y);
    OwnMarkersDecide(cfg, RunOf(y), i);
    StoryInv(cfg, y, i);
    CloudOf(cfg, w.sys);
    ClaimsHold(cfg, w.sys.cloud, j, q);
    VerdictOfCrew(w, q);
  }

  /** The command of this worker of `q` ended with 0, between these two moments. */
  ghost predicate CommandSucceeded(y: Story, q: QrName, x: nat, from: nat, to: nat) {
    exists i :: from <= i < to && i < |y.acts| && y.acts[i] == ByWorker(q, Barrier.Move(x, Barrier.Finish(0)))
  }

  /** A worker of a queued resource has a script that ended with 0 only if its command did, since the queued resource was created. */
  lemma {:induction false} ZeroIsTheCommands(cfg: Config, y: Story, c: nat, n: nat, j: JobId, q: QrName, x: nat)
    requires GoodStory(cfg, y) && c < n < |y.worlds| && y.acts[c] == ByScheduler(CreateOk(j, q)) && j in y.worlds[c].sys.jobs
    requires q in y.worlds[n].crews && x < |y.worlds[n].crews[q].places| && Barrier.ZeroAt(y.worlds[n].crews[q].places[x])
    ensures CommandSucceeded(y, q, x, c, n)
    decreases n - c
  {
    hide Inv, Step, Barrier.CanDo, Barrier.Do, Barrier.ZeroAt;
    var w, v, a := y.worlds[n - 1], y.worlds[n], y.acts[n - 1];
    assert Happens(cfg, w, a, v);
    if a.ByScheduler? && a.l.CreateOk? && a.l.job in w.sys.jobs && a.l.qr == q {
      NewIsNotZero(w.sys.jobs[a.l.job].spec, x);
    } else {
      assert n - 1 > c;
      if a.ByWorker? && a.q == q {
        ZeroFromMove(w, q, a.m, x);
      }
      if x < |w.crews[q].places| && Barrier.ZeroAt(w.crews[q].places[x]) {
        ZeroIsTheCommands(cfg, y, c, n - 1, j, q, x);
      } else {
        assert y.acts[n - 1] == ByWorker(q, Barrier.Move(x, Barrier.Finish(0)));
      }
    }
  }

  lemma NewIsNotZero(spec: JobSpec, x: nat)
    requires x < |NewCrew(spec).places|
    ensures !Barrier.ZeroAt(NewCrew(spec).places[x])
  {
  }

  lemma ZeroFromMove(w: World, q: QrName, m: Barrier.Move, x: nat)
    requires CanWork(w, q, m) && q in DoWork(w, q, m).crews && x < |DoWork(w, q, m).crews[q].places|
    requires Barrier.ZeroAt(DoWork(w, q, m).crews[q].places[x])
    ensures x < |w.crews[q].places| && (Barrier.ZeroAt(w.crews[q].places[x]) || m == Barrier.Move(x, Barrier.Finish(0)))
  {
    hide Directory, Barrier.CanDo, Barrier.ZeroAt;
    Barrier.ZeroFrom(View(w, q), m, x);
  }

  /**
   A job whose queued resource started clean, and whose markers were read as they are, has succeeded only if worker
   0's command ended with 0 on that queued resource.
   */
  lemma SuccessIsTheCommands(cfg: Config, y: Story, c: nat, i: nat, j: JobId, q: QrName)
    requires GoodStory(cfg, y) && StartsClean(y, c, j, q) && c < i < |y.acts|
    requires y.acts[i].ByScheduler? && y.acts[i].l.BeginFinish? && y.acts[i].l.job == j && Claims(y.worlds[i].sys.cloud, j, q)
    requires Faithful(y.worlds[i].sys.cloud.marks, y.acts[i].l.missed, j, y.worlds[i].sys.cloud.status[j].currentAttempt + 1)
    ensures j in y.worlds[i + 1].sys.jobs
    ensures y.worlds[i + 1].sys.jobs[j].state.status.Succeeded? ==> CommandSucceeded(y, q, 0, c, i)
  {
    hide Inv, Happens, Clean, Faithful, ScopedVerdict, Verdict, Barrier.SomeFailure, Barrier.AllReady, Step;
    SuccessIsEarned(cfg, y, c, i, j, q);
    if y.worlds[i + 1].sys.jobs[j].state.status.Succeeded? {
      ZeroIsTheCommands(cfg, y, c, i, j, q, 0);
    }
  }

  lemma CloudOf(cfg: Config, s: Sys)
    requires Inv(cfg, s)
    ensures CloudInv(cfg, s.cloud)
  {
  }

  /** No worker of a queued resource that started clean enters the command phase, and its attempt is not claimed, before every one of its own workers has published setup-ready. */
  lemma NobodyStartsEarly(cfg: Config, y: Story, c: nat, n: nat, j: JobId, q: QrName, x: nat)
    requires GoodStory(cfg, y) && StartsClean(y, c, j, q) && c < n < |y.worlds| && Serving(y.worlds[n].sys, j, q)
    requires x < ExpectedWorkers(y.worlds[c].sys.jobs[j].spec)
    ensures q in y.worlds[n].crews && x < |y.worlds[n].crews[q].places|
    ensures var g, k := y.worlds[n].crews[q], y.worlds[c].sys.jobs[j].state.currentAttempt + 1;
            g.places[x].Running? || Scoped(j, k, Claimed) in y.worlds[n].sys.cloud.marks || Scoped(j, k, SetupComplete) in y.worlds[n].sys.cloud.marks ==>
              Barrier.AllReady(g)
  {
    hide Inv, Happens, StartsClean, Undisputed, Directory, Barrier.SomeFailure;
    CleanStartAlone(cfg, y, c, n, j, q);
    var w, b := y.worlds[n], y.worlds[n].sys.cloud.ledger[q];
    DirectoryHas(w.sys.cloud.marks, b.job, b.attempt, Claimed);
    DirectoryHas(w.sys.cloud.marks, b.job, b.attempt, SetupComplete);
    assert Barrier.PlaceOk(w.crews[q], x);
  }

  /** If worker 0 of such a queued resource has left the barrier without releasing it, none of its workers ever starts the command, and the job does not succeed on it. */
  lemma FailureIsForAll(cfg: Config, y: Story, c: nat, b: nat, n: nat, j: JobId, q: QrName, x: nat)
    requires GoodStory(cfg, y) && StartsClean(y, c, j, q) && c < b <= n < |y.worlds| && Serving(y.worlds[n].sys, j, q)
    requires Serving(y.worlds[b].sys, j, q) && q in y.worlds[b].crews && Barrier.Abandoned(y.worlds[b].crews[q])
    requires x < ExpectedWorkers(y.worlds[c].sys.jobs[j].spec)
    ensures q in y.worlds[n].crews && x < |y.worlds[n].crews[q].places|
    ensures var g, k := y.worlds[n].crews[q], y.worlds[c].sys.jobs[j].state.currentAttempt + 1;
            && !g.places[x].Running? && Scoped(j, k, Claimed) !in y.worlds[n].sys.cloud.marks
            && Scoped(j, k, ScopedSucceeded) !in y.worlds[n].sys.cloud.marks
  {
    hide Inv, Happens, StartsClean, Undisputed, Directory, Serving, Barrier.SomeFailure;
    CleanStartAlone(cfg, y, c, b, j, q);
    CleanStartAlone(cfg, y, c, n, j, q);
    StoryAlone(cfg, y, b, n, q);
    var w, d := y.worlds[n], y.worlds[n].sys.cloud.ledger[q];
    DirectoryHas(w.sys.cloud.marks, d.job, d.attempt, Claimed);
    DirectoryHas(w.sys.cloud.marks, d.job, d.attempt, ScopedSucceeded);
    Barrier.AbandonedFacts(w.crews[q]);
    assert Barrier.PlaceOk(w.crews[q], x);
  }

  // ---------- Exactly when ----------

  /** What the worker does next on its way to a marker. */
  function NextEvent(p: Barrier.Place): Barrier.Event {
    match p
    case Reporting(_, _) => Barrier.Report("")
    case Ending(rc, _) => if rc == 0 then Barrier.Succeed("") else Barrier.FindReport(false)
    case Running => Barrier.Finish(1)
    case _ => Barrier.Fail(1)
  }

  function Distance(p: Barrier.Place): nat {
    if Barrier.Live(p) then 2 else if p.Ending? then 1 else 0
  }

  lemma NextWorks(g: Barrier.Crew, x: nat)
    requires x < |g.places| && MayUpload(g, x) && g.marks == map[]
    ensures var e := NextEvent(g.places[x]);
            && Barrier.CanDo(g, x, e)
            && (Uploads(x, e).None? ==> MayUpload(Barrier.Do(g, x, e), x) && Distance(Barrier.Do(g, x, e).places[x]) < Distance(g.places[x]))
            && |Barrier.Do(g, x, e).places| == |g.places|
  {
  }

  ghost function Prepend(w: World, a: Act, y: Story): Story {
    Story([w] + y.worlds, [a] + y.acts)
  }

  lemma PrependGood(cfg: Config, w: World, a: Act, y: Story)
    requires Inv(cfg, w.sys) && GoodStory(cfg, y) && Happens(cfg, w, a, y.worlds[0])
    ensures GoodStory(cfg, Prepend(w, a, y))
  {
    hide Inv, Happens;
    var z := Prepend(w, a, y);
    forall i | 0 <= i < |z.acts|
      ensures Happens(cfg, z.worlds[i], z.acts[i], z.worlds[i + 1])
    {
      if i > 0 { assert y.acts[i - 1] == z.acts[i]; }
    }
  }

  /** Nothing of the crew of `q` is in the directory, but a worker of `p` may yet write there. */
  ghost predicate Threatened(cfg: Config, w: World, j: JobId, q: QrName, p: QrName, x: nat) {
    && Inv(cfg, w.sys) && w.sys.pc == Creating(j, q)
    && q in w.crews && w.crews[q].marks == map[] && q in w.sys.cloud.ledger && p in w.crews && p != q
    && var b := w.sys.cloud.ledger[q];
       && b.job == j && Rival(w.sys.cloud, p, j, b.attempt) && Directory(w.sys.cloud.marks, j, b.attempt) == map[]
       && x < |w.crews[p].places| && MayUpload(w.crews[p], x)
  }

  lemma ThreatMoves(cfg: Config, w: World, j: JobId, q: QrName, p: QrName, x: nat)
    requires Threatened(cfg, w, j, q, p, x)
    ensures var m := Barrier.Move(x, NextEvent(w.crews[p].places[x]));
            && CanWork(w, p, m)
            && var v := DoWork(w, p, m);
               && v.sys.pc == w.sys.pc && q in v.crews && q in v.sys.cloud.ledger && Inv(cfg, v.sys)
               && if Uploads(x, m.event).Some? then !Agrees(v, q)
                  else Threatened(cfg, v, j, q, p, x) && Distance(v.crews[p].places[x]) < Distance(w.crews[p].places[x])
  {
    hide Inv, Directory, Barrier.Do, Barrier.CanDo, NextEvent, Distance, Step, EnvRel, MayUpload, Uploads;
    var b, c := w.sys.cloud.ledger[q], w.sys.cloud.ledger[p];
    var m := Barrier.Move(x, NextEvent(w.crews[p].places[x]));
    var g := View(w, p);
    SamePlaces(w.crews[p], g, x);
    NextWorks(g, x);
    assert CanWork(w, p, m);
    var v := DoWork(w, p, m);
    UploadsForWorkers(x, m.event);
    UploadedDirectory(w.sys.cloud, c.job, c.attempt, Uploads(x, m.event), j, b.attempt);
    WorkLedger(w, p, m);
    WorkersAreEnvironment(cfg, w, p, m);
    EnvKeeps(cfg, w.sys, v.sys.cloud);
    WorkSys(w, p, m);
    if Uploads(x, m.event).Some? { assert Uploads(x, m.event).value.0 in View(v, q).marks; }
    SamePlaces(Barrier.Do(g, x, m.event), v.crews[p], x);
  }

  lemma WorkSys(w: World, p: QrName, m: Barrier.Move)
    requires CanWork(w, p, m)
    ensures DoWork(w, p, m).sys == w.sys.(cloud := DoWork(w, p, m).sys.cloud)
    ensures DoWork(w, p, m).sys.cloud.qrs == w.sys.cloud.qrs
  {
    hide Barrier.CanDo, Barrier.Do, Uploads, Directory;
  }

  lemma SamePlaces(g: Barrier.Crew, h: Barrier.Crew, x: nat)
    requires g.places == h.places && x < |g.places|
    ensures MayUpload(g, x) <==> MayUpload(h, x)
  {
  }

  /** Then there is a way for it to happen. */
  lemma {:induction false} Spoils(cfg: Config, w: World, j: JobId, q: QrName, p: QrName, x: nat) returns (y: Story)
    requires Threatened(cfg, w, j, q, p, x)
    ensures GoodStory(cfg, y) && y.worlds[0] == w
    ensures var v := y.worlds[|y.acts|]; v.sys.pc == Creating(j, q) && q in v.crews && q in v.sys.cloud.ledger && !Agrees(v, q)
    decreases Distance(w.crews[p].places[x])
  {
    hide Inv, CanWork, DoWork, Agrees, Distance, NextEvent, SchedulerStep;
    var m := Barrier.Move(x, NextEvent(w.crews[p].places[x]));
    ThreatMoves(cfg, w, j, q, p, x);
    var v := DoWork(w, p, m);
    if Uploads(x, m.event).Some? {
      y := Story([v], []);
    } else {
      y := Spoils(cfg, v, j, q, p, x);
    }
    PrependGood(cfg, w, ByWorker(p, m), y);
    y := Prepend(w, ByWorker(p, m), y);
  }

  /** Whatever happens from here, as long as `q` serves its job the directory holds what its own workers have uploaded. */
  ghost predicate AlwaysAgrees(cfg: Config, v: World, j: JobId, q: QrName) {
    forall y: Story :: GoodStory(cfg, y) && y.worlds[0] == v && Serving(y.worlds[|y.acts|].sys, j, q) ==> AgreesAtEnd(y, q)
  }

  ghost predicate AgreesAtEnd(y: Story, q: QrName)
    requires |y.worlds| == |y.acts| + 1
  {
    var w := y.worlds[|y.acts|]; q in w.crews && q in w.sys.cloud.ledger && Agrees(w, q)
  }

  /**
   The exact condition: a queued resource can be trusted to have its attempt's directory to itself exactly if,
   when it is created, no worker's marker is there and no other live queued resource of the attempt runs a
   script that may still upload one.
   */
  lemma CleanStartIff(cfg: Config, w: World, l: Label, v: World)
    requires Inv(cfg, w.sys) && SchedulerStep(cfg, w, l, v) && l.CreateOk? && l.job in w.sys.jobs
    ensures AlwaysAgrees(cfg, v, l.job, l.qr) <==> Clean(w, l.job, w.sys.jobs[l.job].state.currentAttempt + 1, l.qr)
  {
    if Clean(w, l.job, w.sys.jobs[l.job].state.currentAttempt + 1, l.qr) {
      TrustedIfClean(cfg, w, l, v);
    } else {
      var y := SpoiledIfNot(cfg, w, l, v);
      assert GoodStory(cfg, y) && !AgreesAtEnd(y, l.qr);
    }
  }

  lemma TrustedIfClean(cfg: Config, w: World, l: Label, v: World)
    requires Inv(cfg, w.sys) && SchedulerStep(cfg, w, l, v) && l.CreateOk? && l.job in w.sys.jobs
    requires Clean(w, l.job, w.sys.jobs[l.job].state.currentAttempt + 1, l.qr)
    ensures AlwaysAgrees(cfg, v, l.job, l.qr)
  {
    hide Inv, Step, Clean, Serving, Barrier.Sound, Undisputed, Happens, SchedulerStep, Agrees;
    BornAlone(cfg, w, l, v);
    BornFor(cfg, w, l, v);
    forall y: Story | GoodStory(cfg, y) && y.worlds[0] == v && Serving(y.worlds[|y.acts|].sys, l.job, l.qr)
      ensures AgreesAtEnd(y, l.qr)
    {
      StoryAlone(cfg, y, 0, |y.acts|, l.qr);
    }
  }

  lemma SpoiledIfNot(cfg: Config, w: World, l: Label, v: World) returns (y: Story)
    requires Inv(cfg, w.sys) && SchedulerStep(cfg, w, l, v) && l.CreateOk? && l.job in w.sys.jobs
    requires !Clean(w, l.job, w.sys.jobs[l.job].state.currentAttempt + 1, l.qr)
    ensures GoodStory(cfg, y) && y.worlds[0] == v && Serving(y.worlds[|y.acts|].sys, l.job, l.qr) && !AgreesAtEnd(y, l.qr)
  {
    hide Inv, Enabled, Apply, Directory, Happens;
    StepKeeps(cfg, w.sys, l);
    CreateLedger(cfg, w.sys, l);
    BornFor(cfg, w, l, v);
    var k := w.sys.jobs[l.job].state.currentAttempt + 1;
    if Directory(w.sys.cloud.marks, l.job, k) != map[] {
      y := Story([v], []);
    } else {
      var p :| p in w.crews && p != l.qr && Rival(w.sys.cloud, p, l.job, k) && !Worlds.Finished(w.crews[p]);
      var x :| 0 <= x < |w.crews[p].places| && MayUpload(w.crews[p], x);
      y := Spoils(cfg, v, l.job, l.qr, p, x);
    }
  }

  // ---------- When a start is clean ----------

  /** Attempts of the job that were ever begun, as the durable record and the operation in hand have it. */
  function BegunDurably(s: Sys, j: JobId): int {
    |Record(s.cloud, j).attempts| + if Active(Record(s.cloud, j)) || (s.pc.Creating? && s.pc.job == j) then 1 else 0
  }

  /** Nothing was ever created or uploaded for an attempt of the job that is yet to come. */
  ghost predicate NothingAhead(w: World, j: JobId) {
    || Record(w.sys.cloud, j).status.Canceled?
    || ((forall p <- w.sys.cloud.ledger :: w.sys.cloud.ledger[p].job == j ==> w.sys.cloud.ledger[p].attempt <= BegunDurably(w.sys, j))
        && (forall m <- w.sys.cloud.marks :: WorkerMark(m) && m.job == j ==> m.attempt <= BegunDurably(w.sys, j)))
  }

  lemma CreatingStays(cfg: Config, s: Sys, l: Label)
    requires Enabled(cfg, s, l) && s.pc.Creating? && !l.BindWrite? && !l.Crash?
    ensures Apply(cfg, s, l).pc == s.pc
  {
    hide Complete, MemUsage, Within, Justified, Verdict, Preempted, Lifecycle.Finished, Activated, ToClean, Stored, Indexed, EnvRel;
  }

  lemma BindFacts(cfg: Config, s: Sys, l: Label)
    requires Enabled(cfg, s, l) && l.BindWrite?
    ensures s.pc.Creating? && s.pc.job == l.job && Active(Record(Apply(cfg, s, l).cloud, l.job))
  {
    hide Apply;
    WriteEffect(cfg, s, l);
  }

  lemma ProgressBegun(a: JobState, b: JobState, maxAttempts: int)
    requires Progress(a, b, maxAttempts)
    ensures b.status.Canceled? || |b.attempts| + (if Active(b) then 1 else 0) >= |a.attempts| + (if Active(a) then 1 else 0)
    ensures a.status.Canceled? ==> b.status.Canceled?
  {
  }

  lemma CreatingFacts(cfg: Config, s: Sys)
    requires Inv(cfg, s) && s.pc.Creating?
    ensures !Active(Record(s.cloud, s.pc.job))
  {
    hide CloudInv, JobInv, WellFormed;
    MemoryAlike(cfg, s, s.pc.job);
  }

  /** Attempts begun are only forgotten by a stop between a create and its record. */
  lemma BegunGrows(cfg: Config, s: Sys, l: Label, j: JobId)
    requires Inv(cfg, s) && Enabled(cfg, s, l) && j in s.cloud.dirs && l != Reap(j, true)
    requires l.Crash? ==> !(s.pc.Creating? && s.pc.job == j)
    ensures var t := Apply(cfg, s, l);
            && (Record(t.cloud, j).status.Canceled? || BegunDurably(t, j) >= BegunDurably(s, j))
            && (Record(s.cloud, j).status.Canceled? ==> Record(t.cloud, j).status.Canceled?)
  {
    hide Inv, Enabled, Apply, Progress, Record;
    StepProgress(cfg, s, l, j);
    var t := Apply(cfg, s, l);
    ProgressBegun(Record(s.cloud, j), Record(t.cloud, j), s.cloud.dirs[j].spec.maxAttempts);
    if s.pc.Creating? && s.pc.job == j {
      CreatingFacts(cfg, s);
      if l.BindWrite? { BindFacts(cfg, s, l); } else { CreatingStays(cfg, s, l); }
    }
  }

  /** A create serves the attempt after those begun. */
  lemma CreateBegins(cfg: Config, s: Sys, l: Label)
    requires Inv(cfg, s) && Enabled(cfg, s, l) && l.CreateOk?
    ensures l.job in s.jobs && s.jobs[l.job].state.currentAttempt == BegunDurably(s, l.job) && !Record(s.cloud, l.job).status.Canceled?
    ensures var t := Apply(cfg, s, l); l.qr in t.cloud.ledger && t.cloud.ledger[l.qr].attempt == BegunDurably(t, l.job) == BegunDurably(s, l.job) + 1
  {
    hide Inv, Enabled, Apply;
    CreateLedger(cfg, s, l);
    MemoryAlike(cfg, s, l.job);
    SameStatus(cfg, s, l);
  }

  lemma SchedulerMarksFewer(cfg: Config, s: Sys, l: Label)
    requires Enabled(cfg, s, l) && (l.Env? ==> WorkersStill(s.cloud, Apply(cfg, s, l).cloud))
    ensures forall m <- Apply(cfg, s, l).cloud.marks :: WorkerMark(m) ==> m in s.cloud.marks
  {
    hide Enabled, Apply, OfWorkers;
    if Writes(l) {
      WriteEffect(cfg, s, l);
    } else if l.Reap? {
      ReapEffect(cfg, s, l);
    } else if OfAttempt(l) {
      AttemptMarks(cfg, s, l);
    } else if !l.Env? {
      OtherMarks(cfg, s, l);
    }
  }

  lemma SchedulerAhead(cfg: Config, w: World, l: Label, v: World, j: JobId)
    requires Inv(cfg, w.sys) && SchedulerStep(cfg, w, l, v) && NothingAhead(w, j) && j in w.sys.cloud.dirs && l != Reap(j, true)
    requires l.Crash? ==> !(w.sys.pc.Creating? && w.sys.pc.job == j)
    ensures NothingAhead(v, j)
  {
    hide Inv, Enabled, Apply, BegunDurably, Record, OfWorkers;
    BegunGrows(cfg, w.sys, l, j);
    SchedulerLedger(cfg, w.sys, l);
    SchedulerMarksFewer(cfg, w.sys, l);
    if l.CreateOk? { CreateBegins(cfg, w.sys, l); }
  }

  lemma WorkerAhead(w: World, p: QrName, m: Barrier.Move, j: JobId)
    requires CanWork(w, p, m) && NothingAhead(w, j)
    ensures NothingAhead(DoWork(w, p, m), j)
  {
    hide Barrier.CanDo, Barrier.Do, Uploads, Directory;
    WorkLedger(w, p, m);
    WorkSys(w, p, m);
  }

  lemma AheadStep(cfg: Config, w: World, a: Act, v: World, j: JobId)
    requires Inv(cfg, w.sys) && Happens(cfg, w, a, v) && NothingAhead(w, j) && j in w.sys.cloud.dirs && j in v.sys.cloud.dirs
    requires a == ByScheduler(Crash) ==> !(w.sys.pc.Creating? && w.sys.pc.job == j)
    ensures NothingAhead(v, j)
  {
    hide Inv, NothingAhead, CanWork, DoWork;
    match a {
      case ByScheduler(l) =>
        if l == Reap(j, true) { ReapGone(cfg, w, l, v); }
        SchedulerAhead(cfg, w, l, v, j);
      case ByWorker(p, m) => WorkerAhead(w, p, m, j);
    }
  }

  lemma ReapGone(cfg: Config, w: World, l: Label, v: World)
    requires SchedulerStep(cfg, w, l, v) && l.Reap? && l.ok
    ensures l.job !in v.sys.cloud.dirs
  {
    hide Enabled, Apply;
    ReapEffect(cfg, w.sys, l);
  }

  lemma {:induction false} NothingAheadStays(cfg: Config, y: Story, b: nat, n: nat, j: JobId)
    requires GoodStory(cfg, y) && b <= n < |y.worlds| && NothingAhead(y.worlds[b], j)
    requires j in y.worlds[b].sys.cloud.dirs && j in y.worlds[n].sys.cloud.dirs
    requires NoLostCreate(y, b, n, j)
    ensures NothingAhead(y.worlds[n], j)
    decreases n - b
  {
    hide Inv, NothingAhead, Happens;
    if b < n {
      StoryIsRun(cfg, y);
      PresentBetween(cfg, RunOf(y), j, b, n - 1, n);
      NothingAheadStays(cfg, y, b, n - 1, j);
      StoryInv(cfg, y, n - 1);
      assert Happens(cfg, y.worlds[n - 1], y.acts[n - 1], y.worlds[n]);
      AheadStep(cfg, y.worlds[n - 1], y.acts[n - 1], y.worlds[n], j);
    }
  }

  /** The scheduler is not stopped between a create for the job and its record. */
  ghost predicate NoLostCreate(y: Story, b: nat, n: nat, j: JobId)
    requires b <= n < |y.worlds| == |y.acts| + 1
  {
    forall i {:trigger y.acts[i]} :: b <= i < n && y.acts[i] == ByScheduler(Crash) ==> !(y.worlds[i].sys.pc.Creating? && y.worlds[i].sys.pc.job == j)
  }

  /**
   Every queued resource of a job starts clean, whatever is preempted, retried or restarted, as long as the
   scheduler is never stopped between a create for that job and its record.
   */
  lemma CleanUnlessLost(cfg: Config, y: Story, b: nat, c: nat, j: JobId, q: QrName)
    requires GoodStory(cfg, y) && b <= c < |y.acts| && y.acts[c] == ByScheduler(CreateOk(j, q))
    requires j in y.worlds[b].sys.cloud.dirs && NothingAhead(y.worlds[b], j) && NoLostCreate(y, b, c, j)
    ensures StartsClean(y, c, j, q)
  {
    hide Inv, NothingAhead, Clean, Step, NoLostCreate;
    StoryInv(cfg, y, c);
    var w := y.worlds[c];
    assert Happens(cfg, w, y.acts[c], y.worlds[c + 1]);
    CreateReady(cfg, w, j, q, y.worlds[c + 1]);
    NothingAheadStays(cfg, y, b, c, j);
    AheadClean(w, j, q);
  }

  lemma CreateReady(cfg: Config, w: World, j: JobId, q: QrName, v: World)
    requires Inv(cfg, w.sys) && SchedulerStep(cfg, w, CreateOk(j, q), v)
    ensures j in w.sys.jobs && j in w.sys.cloud.dirs && w.sys.jobs[j].state.currentAttempt == BegunDurably(w.sys, j)
    ensures !Record(w.sys.cloud, j).status.Canceled?
  {
    hide Inv, Enabled, Apply, BegunDurably, Record;
    CreateBegins(cfg, w.sys, CreateOk(j, q));
    CreateLedger(cfg, w.sys, CreateOk(j, q));
    MemoryAlike(cfg, w.sys, j);
  }

  lemma AheadClean(w: World, j: JobId, q: QrName)
    requires NothingAhead(w, j) && !Record(w.sys.cloud, j).status.Canceled?
    ensures Clean(w, j, BegunDurably(w.sys, j) + 1, q)
  {
    hide BegunDurably, Record, OfWorkers;
  }
}

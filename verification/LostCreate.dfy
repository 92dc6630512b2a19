/**
 What an unclean start leads to: stopped between a create and its record, the scheduler creates a second
 queued resource for the attempt, and the workers of the first decide it.
 */
module LostCreates {
  import opened Types
  import opened Lifecycle
  import opened Protocol
  import opened Invariant
  import opened Quota
  import opened Safety
  import opened Submissions
  import opened Worlds
  import opened EndToEnd
  import Barrier

  // ---------- Stories from pieces ----------

  ghost function Then(y: Story, z: Story): Story
    requires |y.worlds| > 0
  {
    Story(y.worlds[..|y.worlds| - 1] + z.worlds, y.acts + z.acts)
  }

  ghost function End(y: Story): World
    requires |y.worlds| > 0
  {
    y.worlds[|y.worlds| - 1]
  }

  lemma ThenGood(cfg: Config, y: Story, z: Story)
    requires GoodStory(cfg, y) && GoodStory(cfg, z) && End(y) == z.worlds[0]
    ensures GoodStory(cfg, Then(y, z)) && End(Then(y, z)) == End(z)
    ensures forall n :: 0 <= n < |y.worlds| ==> Then(y, z).worlds[n] == y.worlds[n]
    ensures forall n :: 0 <= n < |y.acts| ==> Then(y, z).acts[n] == y.acts[n]
    ensures |Then(y, z).worlds| == |Then(y, z).acts| + 1 == |y.acts| + |z.worlds|
    ensures forall n :: 0 <= n < |z.worlds| ==> Then(y, z).worlds[|y.acts| + n] == z.worlds[n]
    ensures forall n :: 0 <= n < |z.acts| ==> Then(y, z).acts[|y.acts| + n] == z.acts[n]
  {
    hide Inv, Happens;
    var x := Then(y, z);
    forall i | 0 <= i < |x.acts|
      ensures Happens(cfg, x.worlds[i], x.acts[i], x.worlds[i + 1])
    {
      if i < |y.acts| { assert y.acts[i] == x.acts[i]; } else { assert z.acts[i - |y.acts|] == x.acts[i]; }
    }
  }

  lemma One(cfg: Config, w: World, a: Act, v: World)
    requires Inv(cfg, w.sys) && Happens(cfg, w, a, v)
    ensures GoodStory(cfg, Story([w, v], [a])) && Inv(cfg, v.sys)
  {
    hide Inv, Happens, Enabled, Apply;
    StoryStep(cfg, w, a, v);
    StepKeeps(cfg, w.sys, LabelOf(a, v));
  }

  // ---------- The work of a lonely worker ----------

  /** `q` runs, and its workers see `g`. */
  predicate Sees(w: World, q: QrName, g: Barrier.Crew) {
    q in w.crews && q in w.sys.cloud.ledger && q in w.sys.cloud.qrs && View(w, q) == g
  }

  lemma SeesNext(w: World, q: QrName, g: Barrier.Crew, m: Barrier.Move)
    requires Sees(w, q, g) && m.worker < |g.places| && Barrier.CanDo(g, m.worker, m.event)
    ensures CanWork(w, q, m)
    ensures var v := DoWork(w, q, m);
            && Sees(v, q, Barrier.Do(g, m.worker, m.event)) && v.crews.Keys == w.crews.Keys
            && v.sys == w.sys.(cloud := w.sys.cloud.(marks := v.sys.cloud.marks))
  {
    hide Directory, Barrier.Do, Barrier.CanDo;
    var v, b := DoWork(w, q, m), w.sys.cloud.ledger[q];
    UploadsForWorkers(m.worker, m.event);
    UploadedDirectory(w.sys.cloud, b.job, b.attempt, Uploads(m.worker, m.event), b.job, b.attempt);
    DoMarks(g, m.worker, m.event);
  }

  predicate CanPlay(g: Barrier.Crew, es: seq<Barrier.Event>)
    decreases |es|
  {
    es == [] || (|g.places| > 0 && Barrier.CanDo(g, 0, es[0]) && CanPlay(Barrier.Do(g, 0, es[0]), es[1..]))
  }

  function Play(g: Barrier.Crew, es: seq<Barrier.Event>): Barrier.Crew
    requires CanPlay(g, es)
    decreases |es|
  {
    if es == [] then g else Play(Barrier.Do(g, 0, es[0]), es[1..])
  }

  lemma {:induction false} Plays(cfg: Config, w: World, q: QrName, g: Barrier.Crew, es: seq<Barrier.Event>) returns (y: Story)
    requires Inv(cfg, w.sys) && Sees(w, q, g) && CanPlay(g, es)
    ensures GoodStory(cfg, y) && y.worlds[0] == w && Sees(End(y), q, Play(g, es))
    ensures End(y).sys == w.sys.(cloud := w.sys.cloud.(marks := End(y).sys.cloud.marks)) && End(y).crews.Keys == w.crews.Keys
    decreases |es|
  {
    hide Inv, Sees, CanWork, DoWork, Barrier.CanDo, Barrier.Do, SchedulerStep;
    if es == [] {
      y := Story([w], []);
    } else {
      var m := Barrier.Move(0, es[0]);
      SeesNext(w, q, g, m);
      var v := DoWork(w, q, m);
      One(cfg, w, ByWorker(q, m), v);
      var z := Plays(cfg, v, q, Barrier.Do(g, 0, es[0]), es[1..]);
      PrependGood(cfg, w, ByWorker(q, m), z);
      y := Prepend(w, ByWorker(q, m), z);
    }
  }

  /** From the first line of the script to the count of ready markers, and from there to a successful end. */
  const SETUP_PART: seq<Barrier.Event> :=
    [Barrier.Proceed, Barrier.Proceed, Barrier.Proceed, Barrier.Publish("ready"), Barrier.SeeFailed(false), Barrier.CountReady(true)]
  const COMMAND_PART: seq<Barrier.Event> :=
    [Barrier.Complete("complete"), Barrier.Claim("claimed"), Barrier.Begin, Barrier.Finish(0), Barrier.Succeed("0")]

  function OneWorker(p: Barrier.Place, marks: map<ScopedName, string>): Barrier.Crew {
    Barrier.Crew([p], marks)
  }

  lemma Cue(g: Barrier.Crew, e: Barrier.Event, es: seq<Barrier.Event>, h: Barrier.Crew)
    requires |g.places| > 0 && Barrier.CanDo(g, 0, e) && Barrier.Do(g, 0, e) == h && CanPlay(h, es)
    ensures CanPlay(g, [e] + es) && Play(g, [e] + es) == Play(h, es)
  {
    hide Barrier.CanDo, Barrier.Do;
    assert ([e] + es)[1..] == es;
  }

  /** A worker on its own in a clean directory gets ready and finds itself complete. */
  lemma SetupPart()
    ensures CanPlay(OneWorker(Barrier.Before(Barrier.Bootstrap), map[]), SETUP_PART)
    ensures Play(OneWorker(Barrier.Before(Barrier.Bootstrap), map[]), SETUP_PART) == OneWorker(Barrier.Counted, map[SetupReady(0) := "ready"])
  {
    var none: map<ScopedName, string>, ready := map[], map[SetupReady(0) := "ready"];
    assert Barrier.ReadyMarks(ready) == {SetupReady(0)};
    hide CanPlay, Play;
    var end := OneWorker(Barrier.Counted, ready);
    Stop(end);
    Cue(OneWorker(Barrier.Looked, ready), Barrier.CountReady(true), [], end);
    Cue(OneWorker(Barrier.Polling, ready), Barrier.SeeFailed(false), SETUP_PART[5..], OneWorker(Barrier.Looked, ready));
    Cue(OneWorker(Barrier.Publishing, none), Barrier.Publish("ready"), SETUP_PART[4..], OneWorker(Barrier.Polling, ready));
    Cue(OneWorker(Barrier.Before(Barrier.Setup), none), Barrier.Proceed, SETUP_PART[3..], OneWorker(Barrier.Publishing, none));
    Cue(OneWorker(Barrier.Before(Barrier.Download), none), Barrier.Proceed, SETUP_PART[2..], OneWorker(Barrier.Before(Barrier.Setup), none));
    Cue(OneWorker(Barrier.Before(Barrier.Bootstrap), none), Barrier.Proceed, SETUP_PART[1..], OneWorker(Barrier.Before(Barrier.Download), none));
  }

  lemma Stop(g: Barrier.Crew)
    ensures CanPlay(g, []) && Play(g, []) == g
  {
  }

  /** Then it runs its command and reports success. */
  lemma CommandPart(marks: map<ScopedName, string>)
    requires ScopedFailed !in marks
    ensures var g := OneWorker(Barrier.Counted, marks);
            && CanPlay(g, COMMAND_PART)
            && Play(g, COMMAND_PART) == OneWorker(Barrier.Exited(0), marks[SetupComplete := "complete"][Claimed := "claimed"][ScopedSucceeded := "0"])
  {
    hide CanPlay, Play;
    var complete := marks[SetupComplete := "complete"];
    var claimed := complete[Claimed := "claimed"];
    var end := OneWorker(Barrier.Exited(0), claimed[ScopedSucceeded := "0"]);
    Stop(end);
    var t4 := [Barrier.Succeed("0")];
    var t3 := [Barrier.Finish(0)] + t4;
    var t2 := [Barrier.Begin] + t3;
    var t1 := [Barrier.Claim("claimed")] + t2;
    assert t4 + [] == t4 && [Barrier.Complete("complete")] + t1 == COMMAND_PART;
    Cue(OneWorker(Barrier.Ending(0, Barrier.Command), claimed), Barrier.Succeed("0"), [], end);
    Cue(OneWorker(Barrier.Place.Running, claimed), Barrier.Finish(0), t4, OneWorker(Barrier.Ending(0, Barrier.Command), claimed));
    Cue(OneWorker(Barrier.Holding, claimed), Barrier.Begin, t3, OneWorker(Barrier.Place.Running, claimed));
    Cue(OneWorker(Barrier.Through, complete), Barrier.Claim("claimed"), t2, OneWorker(Barrier.Holding, claimed));
    Cue(OneWorker(Barrier.Counted, marks), Barrier.Complete("complete"), t1, OneWorker(Barrier.Through, complete));
  }

  // ---------- The second queued resource ----------

  function SmallCrew(): Barrier.Crew {
    OneWorker(Barrier.Before(Barrier.Bootstrap), map[])
  }

  lemma SmallCrewIsNew()
    ensures NewCrew(SmallJob()) == SmallCrew()
  {
  }

  function Stopped(c: Cloud): Sys {
    Sys(map[], map[], c, Idle)
  }

  /** Started with empty memory, the scheduler admits the job whose record was never written. */
  lemma Restarts(w: World, q: QrName) returns (y: Story)
    requires Inv(SmallConfig(), w.sys) && w.sys == Stopped(w.sys.cloud) && w.sys.cloud.dirs == SmallStart().cloud.dirs
    requires w.sys.cloud.status == map[] && "queue-" <= q && q !in w.sys.cloud.ledger
    ensures GoodStory(SmallConfig(), y) && y.worlds[0] == w && y.acts == [ByScheduler(Load("job", "now")), ByScheduler(CreateOk("job", q))]
    ensures y.worlds[1].sys.jobs.Keys == {"job"} && y.worlds[1].sys.jobs["job"].state.currentAttempt == 0
    ensures y.worlds[1].crews == w.crews && y.worlds[1].sys.cloud == w.sys.cloud
    ensures Created(End(y), w, q) && Inv(SmallConfig(), End(y).sys)
  {
    hide Inv, Enabled, Apply, NewCrew;
    var cfg, s := SmallConfig(), w.sys;
    Loads(s);
    var u := World(Apply(cfg, s, Load("job", "now")), w.crews);
    One(cfg, w, ByScheduler(Load("job", "now")), u);
    Admits(u.sys, q);
    SmallCrewIsNew();
    var v := World(Apply(cfg, u.sys, CreateOk("job", q)), w.crews[q := SmallCrew()]);
    One(cfg, u, ByScheduler(CreateOk("job", q)), v);
    PrependGood(cfg, w, ByScheduler(Load("job", "now")), Story([u, v], [ByScheduler(CreateOk("job", q))]));
    y := Prepend(w, ByScheduler(Load("job", "now")), Story([u, v], [ByScheduler(CreateOk("job", q))]));
  }

  /** The job is being created on `q`, whose crew is new. */
  ghost predicate Created(v: World, w: World, q: QrName) {
    && v.sys.pc == Creating("job", q) && v.sys.jobs == map["job" := Job(SmallJob(), NewState("now"), "gs://bucket")]
    && v.sys.index == map[] && v.crews == w.crews[q := SmallCrew()]
    && v.sys.cloud == w.sys.cloud.(qrs := w.sys.cloud.qrs[q := Qr("project", "zone", QrWaiting)],
                                   ledger := w.sys.cloud.ledger[q := Birth("job", 1, SMALL, "user", true)],
                                   sightings := w.sys.cloud.sightings[q := {QrWaiting}])
  }

  /** The job is provisioning on `q`, at rest. */
  ghost predicate Bound(v: World, w: World, q: QrName) {
    && v.sys.pc.Idle? && v.crews == w.crews
    && v.sys.jobs == map["job" := Job(SmallJob(), Provisioned(NewState("now"), q).(lastUpdated := "now"), "gs://bucket")]
    && v.sys.cloud.qrs == w.sys.cloud.qrs && v.sys.cloud.ledger == w.sys.cloud.ledger && v.sys.cloud.sightings == w.sys.cloud.sightings
    && v.sys.cloud.marks == w.sys.cloud.marks[Scoped("job", 1, StartupVersion) := "3\n"]
    && v.sys.cloud.status.Keys == {"job"} && v.sys.cloud.status["job"] == v.sys.jobs["job"].state
  }

  lemma Records(w: World, q: QrName) returns (y: Story)
    requires Inv(SmallConfig(), w.sys) && w.sys.pc == Creating("job", q) && w.sys.cloud.status == map[]
    requires w.sys.jobs == map["job" := Job(SmallJob(), NewState("now"), "gs://bucket")]
    ensures GoodStory(SmallConfig(), y) && y.worlds[0] == w && |y.acts| == 2 && Inv(SmallConfig(), End(y).sys) && Bound(End(y), w, q)
  {
    hide Inv, Enabled, Apply;
    var cfg := SmallConfig();
    Binds(w.sys, q);
    var u := World(Apply(cfg, w.sys, StampVersion("job")), w.crews);
    One(cfg, w, ByScheduler(StampVersion("job")), u);
    var v := World(Apply(cfg, u.sys, BindWrite("job", "now")), w.crews);
    One(cfg, u, ByScheduler(BindWrite("job", "now")), v);
    PrependGood(cfg, w, ByScheduler(StampVersion("job")), Story([u, v], [ByScheduler(BindWrite("job", "now"))]));
    y := Prepend(w, ByScheduler(StampVersion("job")), Story([u, v], [ByScheduler(BindWrite("job", "now"))]));
  }

  /** The cloud once `q` has been activated. */
  function ActiveCloud(c: Cloud, q: QrName): Cloud
    requires q in c.qrs && q in c.sightings
  {
    c.(qrs := c.qrs[q := c.qrs[q].(state := QrActive)], sightings := c.sightings[q := c.sightings[q] + {QrActive}])
  }

  lemma Activation(cfg: Config, w: World, q: QrName)
    requires q in w.sys.cloud.qrs && q in w.sys.cloud.sightings
    ensures Happens(cfg, w, ByScheduler(Env(ActiveCloud(w.sys.cloud, q))), w.(sys := w.sys.(cloud := ActiveCloud(w.sys.cloud, q))))
  {
    hide SpecOk, SmallConfig, Inv, Blank, Barrier.CanDo, Barrier.Do;
  }

  /** The job is running on `q`, at rest. */
  ghost predicate OnTheRun(v: World, w: World, q: QrName) {
    && v.sys.pc.Idle? && v.crews == w.crews && v.sys.cloud.marks == w.sys.cloud.marks
    && v.sys.jobs.Keys == {"job"} && v.sys.jobs["job"].state.status.Running? && v.sys.jobs["job"].state.currentAttempt == 0
    && v.sys.jobs["job"].state.currentQrName == Some(q)
    && v.sys.cloud.status.Keys == {"job"} && v.sys.cloud.status["job"] == v.sys.jobs["job"].state
  }

  lemma StartsRunning(w: World, q: QrName) returns (y: Story)
    requires Inv(SmallConfig(), w.sys) && Bound(w, w, q) && q in w.sys.cloud.qrs && q in w.sys.cloud.sightings
    ensures GoodStory(SmallConfig(), y) && y.worlds[0] == w && |y.acts| == 3 && Inv(SmallConfig(), End(y).sys) && OnTheRun(End(y), w, q)
  {
    hide Inv, Enabled, Apply;
    var cfg := SmallConfig();
    Activation(cfg, w, q);
    var u := w.(sys := w.sys.(cloud := ActiveCloud(w.sys.cloud, q)));
    One(cfg, w, ByScheduler(Env(u.sys.cloud)), u);
    RunsOn(u.sys, q);
    var v := u.(sys := Apply(cfg, u.sys, BeginActivate("job", "now")));
    One(cfg, u, ByScheduler(BeginActivate("job", "now")), v);
    RunningWritten(v.sys, v.sys.jobs["job"].state);
    var z := v.(sys := Apply(cfg, v.sys, ActivateWrite("job", "now")));
    One(cfg, v, ByScheduler(ActivateWrite("job", "now")), z);
    PrependGood(cfg, u, ByScheduler(BeginActivate("job", "now")), Story([v, z], [ByScheduler(ActivateWrite("job", "now"))]));
    y := Prepend(u, ByScheduler(BeginActivate("job", "now")), Story([v, z], [ByScheduler(ActivateWrite("job", "now"))]));
    PrependGood(cfg, w, ByScheduler(Env(u.sys.cloud)), y);
    y := Prepend(w, ByScheduler(Env(u.sys.cloud)), y);
  }

  lemma RunsOn(s: Sys, q: QrName)
    requires s.pc.Idle? && s.jobs == map["job" := Job(SmallJob(), Provisioned(NewState("now"), q).(lastUpdated := "now"), "gs://bucket")]
    requires s.cloud.status.Keys == {"job"} && Sighted(s.cloud, q, QrActive)
    ensures Enabled(SmallConfig(), s, BeginActivate("job", "now"))
    ensures var st := Activated(s.jobs["job"].state, "now");
            Apply(SmallConfig(), s, BeginActivate("job", "now")) ==
              s.(jobs := map["job" := Job(SmallJob(), st, "gs://bucket")], pc := Activating("job", s.jobs["job"].state))
  {
    hide Activated;
  }

  lemma RunningWritten(s: Sys, st: JobState)
    requires s.pc.Activating? && s.pc.job == "job" && s.jobs == map["job" := Job(SmallJob(), st, "gs://bucket")]
    ensures Enabled(SmallConfig(), s, ActivateWrite("job", "now"))
    ensures var now := st.(lastUpdated := "now");
            Apply(SmallConfig(), s, ActivateWrite("job", "now")) ==
              s.(jobs := map["job" := Job(SmallJob(), now, "gs://bucket")], pc := Idle, cloud := s.cloud.(status := s.cloud.status["job" := now]))
  {
  }

  /** The completion check finds a success marker and no failure report. */
  lemma Succeeds(w: World, v: World, q: QrName) returns (u: World)
    requires OnTheRun(w, v, q) && Inv(SmallConfig(), w.sys)
    requires ScopedSucceeded in Directory(w.sys.cloud.marks, "job", 1) && ScopedFailed !in Directory(w.sys.cloud.marks, "job", 1)
    requires Scoped("job", 1, StartupVersion) in w.sys.cloud.marks
    ensures GoodStory(SmallConfig(), Story([w, u], [ByScheduler(BeginFinish("job", "now", {}))]))
    ensures u.sys.jobs.Keys == {"job"} && u.sys.jobs["job"].state.status.Succeeded? && u.crews == w.crews
  {
    hide Inv, Enabled, Apply, Directory;
    DirectoryHas(w.sys.cloud.marks, "job", 1, ScopedSucceeded);
    DirectoryHas(w.sys.cloud.marks, "job", 1, ScopedFailed);
    Decides(w.sys);
    u := w.(sys := Apply(SmallConfig(), w.sys, BeginFinish("job", "now", {})));
    One(SmallConfig(), w, ByScheduler(BeginFinish("job", "now", {})), u);
  }

  lemma Decides(s: Sys)
    requires s.pc.Idle? && s.jobs.Keys == {"job"} && s.cloud.status.Keys == {"job"}
    requires s.jobs["job"].state.status.Running? && s.jobs["job"].state.currentAttempt == 0
    requires Scoped("job", 1, ScopedSucceeded) in s.cloud.marks && Scoped("job", 1, ScopedFailed) !in s.cloud.marks
    requires Scoped("job", 1, StartupVersion) in s.cloud.marks
    ensures Enabled(SmallConfig(), s, BeginFinish("job", "now", {}))
    ensures var t := Apply(SmallConfig(), s, BeginFinish("job", "now", {})); t.jobs.Keys == {"job"} && t.jobs["job"].state.status.Succeeded?
  {
    assert s.cloud.marks - {} == s.cloud.marks;
  }

  /** The scheduler is stopped with `q1` created for the job, and no record written. */
  ghost predicate Lost(w: World) {
    && Inv(SmallConfig(), w.sys) && w.sys == Stopped(w.sys.cloud) && w.sys.cloud.dirs == SmallStart().cloud.dirs
    && w.sys.cloud.status == map[] && w.sys.cloud.ledger == map["queue-1" := Birth("job", 1, SMALL, "user", true)] && w.crews.Keys == {"queue-1"}
  }

  lemma LostNow(a: World)
    requires Created(a, World(SmallStart(), map[]), "queue-1") && Inv(SmallConfig(), Stopped(a.sys.cloud))
    ensures Lost(World(Stopped(a.sys.cloud), a.crews)) && Sees(World(Stopped(a.sys.cloud), a.crews), "queue-1", SmallCrew())
  {
    hide Inv, SmallConfig, SmallJob, Directory;
    EmptyDirectory(a.sys.cloud.marks);
  }

  lemma CreateLost() returns (y: Story)
    ensures GoodStory(SmallConfig(), y) && y.worlds[0] == World(SmallStart(), map[])
    ensures Lost(End(y)) && Sees(End(y), "queue-1", SmallCrew())
  {
    hide Inv, Enabled, Apply, Created, Lost, Sees;
    var cfg, w := SmallConfig(), World(SmallStart(), map[]);
    SmallInv();
    var y1 := Restarts(w, "queue-1");
    var a := End(y1);
    CrashStops(a.sys);
    var c := World(Stopped(a.sys.cloud), a.crews);
    One(cfg, a, ByScheduler(Crash), c);
    LostNow(a);
    ThenGood(cfg, y1, Story([a, c], [ByScheduler(Crash)]));
    y := Then(y1, Story([a, c], [ByScheduler(Crash)]));
  }

  /** The directory says that the attempt succeeded. */
  predicate SaysWon(marks: map<Mark, string>) {
    ScopedSucceeded in Directory(marks, "job", 1) && ScopedFailed !in Directory(marks, "job", 1)
  }

  lemma ScriptRuns(w: World) returns (y: Story)
    requires Lost(w) && Sees(w, "queue-1", SmallCrew())
    ensures GoodStory(SmallConfig(), y) && y.worlds[0] == w && Lost(End(y)) && SaysWon(End(y).sys.cloud.marks)
  {
    hide Inv, Play, CanPlay, Happens, Directory;
    var cfg := SmallConfig();
    SetupPart();
    var y1 := Plays(cfg, w, "queue-1", SmallCrew(), SETUP_PART);
    StoryInv(cfg, y1, |y1.acts|);
    CommandPart(map[SetupReady(0) := "ready"]);
    var y2 := Plays(cfg, End(y1), "queue-1", OneWorker(Barrier.Counted, map[SetupReady(0) := "ready"]), COMMAND_PART);
    StoryInv(cfg, y2, |y2.acts|);
    ThenGood(cfg, y1, y2);
    y := Then(y1, y2);
  }

  lemma EmptyDirectory(marks: map<Mark, string>)
    requires marks == map[]
    ensures Directory(marks, "job", 1) == map[]
  {
  }

  lemma CrashStops(s: Sys)
    ensures Enabled(SmallConfig(), s, Crash) && Apply(SmallConfig(), s, Crash) == Stopped(s.cloud)
  {
  }

  /** From position `c` on: `q` does not start clean, and the job on it succeeds while its workers have not got past the first line of their script. */
  ghost predicate WonByOthers(y: Story, c: nat, q: QrName) {
    && |y.worlds| == |y.acts| + 1 && c < |y.acts| - 1
    && y.acts[c] == ByScheduler(CreateOk("job", q)) && !StartsClean(y, c, "job", q)
    && var n := |y.acts| - 1;
       && y.acts[n] == ByScheduler(BeginFinish("job", "now", {})) && Claims(y.worlds[n].sys.cloud, "job", q)
       && q in y.worlds[n].crews && y.worlds[n].crews[q] == NewCrew(SmallJob())
       && "job" in y.worlds[n + 1].sys.jobs && y.worlds[n + 1].sys.jobs["job"].state.status.Succeeded?
  }

  /** The job runs on `q2` without the workers of `q2` doing anything. */
  lemma RunsUnstarted(w: World) returns (y: Story)
    requires Inv(SmallConfig(), w.sys) && w.sys.pc == Creating("job", "queue-2") && w.sys.cloud.status == map[]
    requires w.sys.jobs == map["job" := Job(SmallJob(), NewState("now"), "gs://bucket")]
    requires "queue-2" in w.sys.cloud.qrs && "queue-2" in w.sys.cloud.sightings && SaysWon(w.sys.cloud.marks)
    ensures GoodStory(SmallConfig(), y) && y.worlds[0] == w && |y.acts| == 5 && OnTheRun(End(y), End(y), "queue-2") && Inv(SmallConfig(), End(y).sys)
    ensures End(y).crews == w.crews && SaysWon(End(y).sys.cloud.marks) && Scoped("job", 1, StartupVersion) in End(y).sys.cloud.marks
  {
    hide Inv, Happens, Directory;
    var y1 := Records(w, "queue-2");
    var y2 := StartsRunning(End(y1), "queue-2");
    StampKept(w.sys.cloud.marks, End(y1).sys.cloud.marks);
    ThenGood(SmallConfig(), y1, y2);
    y := Then(y1, y2);
  }

  lemma SecondLife(w: World) returns (y: Story)
    requires Lost(w) && SaysWon(w.sys.cloud.marks)
    ensures GoodStory(SmallConfig(), y) && y.worlds[0] == w && WonByOthers(y, 1, "queue-2")
  {
    hide Inv, Happens, Directory, NewCrew, Undisputed, Then, SmallConfig;
    var cfg := SmallConfig();
    var y1 := Restarts(w, "queue-2");
    var y2 := RunsUnstarted(End(y1));
    var u := Succeeds(End(y2), End(y2), "queue-2");
    var y3 := Story([End(y2), u], [ByScheduler(BeginFinish("job", "now", {}))]);
    SmallCrewIsNew();
    ThenGood(cfg, y2, y3);
    ThenGood(cfg, y1, Then(y2, y3));
    y := Then(y1, Then(y2, y3));
    assert y.acts[1] == y1.acts[1] && y.worlds[1] == y1.worlds[1];
    assert Then(y2, y3).acts[5] == y3.acts[0] && Then(y2, y3).worlds[5] == End(y2) && Then(y2, y3).worlds[5 + 1] == u;
    assert y.acts[2 + 5] == Then(y2, y3).acts[5] && y.worlds[2 + 5] == End(y2) && y.worlds[2 + 6] == u;
  }

  /**
   Stopped right after the create of `q1` and started again, the scheduler creates `q2` for the same attempt;
   the job on `q2` becomes SUCCEEDED on the marker of `q1`'s worker, while no worker of `q2` has done anything.
   */
  lemma LostCreateDecides() returns (y: Story, c: nat)
    ensures GoodStory(SmallConfig(), y) && y.worlds[0] == World(SmallStart(), map[])
    ensures WonByOthers(y, c, "queue-2")
  {
    hide Inv, Happens, WonByOthers, Lost, SaysWon, Sees, Then;
    var cfg := SmallConfig();
    var y1 := CreateLost();
    var y2 := ScriptRuns(End(y1));
    var y3 := SecondLife(End(y2));
    ThenGood(cfg, y1, y2);
    ThenGood(cfg, Then(y1, y2), y3);
    y, c := Then(Then(y1, y2), y3), |Then(y1, y2).acts| + 1;
    WonLater(y, y3, |Then(y1, y2).acts|, 1);
  }

  lemma WonLater(x: Story, z: Story, k: nat, c: nat)
    requires WonByOthers(z, c, "queue-2") && |x.worlds| == |x.acts| + 1 == k + |z.worlds|
    requires forall n :: 0 <= n < |z.acts| ==> x.acts[k + n] == z.acts[n]
    requires forall n :: 0 <= n < |z.worlds| ==> x.worlds[k + n] == z.worlds[n]
    ensures WonByOthers(x, k + c, "queue-2")
  {
    hide Clean, Claims, NewCrew;
    var n := |z.acts| - 1;
    assert x.acts[k + c] == z.acts[c] && x.acts[k + n] == z.acts[n];
    assert x.worlds[k + c] == z.worlds[c] && x.worlds[k + n] == z.worlds[n] && x.worlds[k + (n + 1)] == z.worlds[n + 1];
  }

  lemma StampKept(a: map<Mark, string>, b: map<Mark, string>)
    requires b == a[Scoped("job", 1, StartupVersion) := "3\n"]
    ensures Directory(b, "job", 1) == Directory(a, "job", 1)
  {
    SameMarks(a, b, "job", 1);
  }
}

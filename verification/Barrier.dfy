/**
 The setup barrier of the startup script: the workers of one attempt, each running its own copy of the
 script, synchronised only by markers in the attempt's directory. Every upload, `stat` and listing is a
 step of its own, in any interleaving; a worker may fail, be terminated or vanish at any point.
 */
module Barrier {
  import opened Protocol

  /** `JOB_PHASE` */
  datatype Phase = Bootstrap | Download | Setup | SetupBarrier | Command

  /** Where one worker's script is. */
  datatype Place =
    | Before(phase: Phase)
    /** About to upload its setup-ready marker. */
    | Publishing
    /** At the head of its barrier loop. */
    | Polling
    /** Worker 0 found no failure marker; another worker found no completion marker. */
    | Looked
    /** Worker 0 counted enough setup-ready markers. */
    | Counted
    /** `wait_for_setup_barrier` returned 0. */
    | Through
    /** Worker 0 has uploaded `claimed`. */
    | Holding
    | Running
    /** In `cleanup`. */
    | Ending(rc: int, phase: Phase)
    /** `cleanup` found no failure marker and is about to upload one. */
    | Reporting(rc: int, phase: Phase)
    | Exited(rc: int)
    | Vanished

  datatype Crew = Crew(places: seq<Place>, marks: map<ScopedName, string>)

  datatype Event =
    | Proceed
    | Publish(text: string)
    | SeeFailed(found: bool)
    | SeeComplete(found: bool)
    | CountReady(listed: bool)
    | Complete(text: string)
    | TimeOut
    | Claim(text: string)
    | Begin
    | Finish(rc: int)
    | Fail(rc: int)
    | Terminate
    | Vanish
    | Succeed(text: string)
    | FindReport(found: bool)
    | Report(text: string)
    | Leave

  const SIGTERM_EXIT := 143
  const PREEMPTION_EXIT := 42

  /** The setup-ready markers a listing returns. */
  function ReadyMarks(marks: map<ScopedName, string>): set<ScopedName> {
    set m | m in marks && m.SetupReady?
  }

  /** The script has not reached its EXIT trap. */
  predicate Live(p: Place) {
    !p.Ending? && !p.Reporting? && !p.Exited? && !p.Vanished?
  }

  function PhaseOf(p: Place): Phase {
    match p
    case Before(phase) => phase
    case Ending(_, phase) => phase
    case Reporting(_, phase) => phase
    case Running => Command
    case _ => SetupBarrier
  }

  /** What a worker may do next. A `stat` that fails reads as absence, so only what is found is sure. */
  predicate CanDo(g: Crew, w: nat, e: Event)
    requires w < |g.places|
  {
    var p := g.places[w];
    match e
    case Proceed => p.Before?
    case Publish(_) => p.Publishing?
    case SeeFailed(found) => (if w == 0 then p.Polling? else p.Looked?) && (found ==> ScopedFailed in g.marks)
    case SeeComplete(found) => w != 0 && p.Polling? && (found ==> SetupComplete in g.marks)
    case CountReady(_) => w == 0 && p.Looked?
    case Complete(_) => p.Counted?
    case TimeOut => p.Polling?
    case Claim(_) => w == 0 && p.Through?
    case Begin => if w == 0 then p.Holding? else p.Through?
    case Finish(_) => p.Running?
    case Fail(rc) => Live(p) && !p.Running? && rc != 0
    case Terminate => Live(p)
    case Vanish => !p.Exited?
    case Succeed(_) => w == 0 && p.Ending? && p.rc == 0
    case FindReport(found) => p.Ending? && Fatal(p.rc) && (found ==> ScopedFailed in g.marks)
    case Report(_) => p.Reporting?
    case Leave => p.Ending? && ((p.rc == 0 && w != 0) || p.rc == PREEMPTION_EXIT || p.rc == SIGTERM_EXIT)
  }

  /** The exit codes `cleanup` reports as failures. */
  predicate Fatal(rc: int) {
    rc != 0 && rc != PREEMPTION_EXIT && rc != SIGTERM_EXIT
  }

  function Go(g: Crew, w: nat, p: Place): Crew
    requires w < |g.places|
  {
    g.(places := g.places[w := p])
  }

  function Mark(g: Crew, m: ScopedName, text: string): Crew {
    g.(marks := g.marks[m := text])
  }

  function Do(g: Crew, w: nat, e: Event): Crew
    requires w < |g.places| && CanDo(g, w, e)
  {
    var p := g.places[w];
    match e
    case Proceed => Go(g, w, match p.phase case Bootstrap => Before(Download) case Download => Before(Setup) case _ => Publishing)
    case Publish(text) => Mark(Go(g, w, Polling), SetupReady(w), text)
    case SeeFailed(found) => Go(g, w, if found then Ending(1, SetupBarrier) else if w == 0 then Looked else Polling)
    case SeeComplete(found) => Go(g, w, if found then Through else Looked)
    case CountReady(listed) => Go(g, w, if listed && |ReadyMarks(g.marks)| >= |g.places| then Counted else Polling)
    case Complete(text) => Mark(Go(g, w, Through), SetupComplete, text)
    case TimeOut => Go(g, w, Ending(1, SetupBarrier))
    case Claim(text) => Mark(Go(g, w, Holding), Claimed, text)
    case Begin => Go(g, w, Place.Running)
    case Finish(rc) => Go(g, w, Ending(rc, Command))
    case Fail(rc) => Go(g, w, Ending(rc, PhaseOf(p)))
    case Terminate => Go(g, w, Ending(SIGTERM_EXIT, PhaseOf(p)))
    case Vanish => Go(g, w, Vanished)
    case Succeed(text) => Mark(Go(g, w, Exited(0)), ScopedSucceeded, text)
    case FindReport(found) => Go(g, w, if found then Exited(p.rc) else Reporting(p.rc, p.phase))
    case Report(text) => Mark(Go(g, w, Exited(p.rc)), ScopedFailed, text)
    case Leave => Go(g, w, Exited(p.rc))
  }

  predicate Start(g: Crew) {
    && |g.places| > 0 && (forall w :: 0 <= w < |g.places| ==> g.places[w] == Before(Bootstrap))
    && g.marks.Keys <= {StartupVersion}
  }

  datatype Move = Move(worker: nat, event: Event)

  /** A history of the attempt: arbitrary interleaving of the workers' steps. */
  ghost predicate History(gs: seq<Crew>, moves: seq<Move>) {
    && |gs| == |moves| + 1 && Start(gs[0])
    && (forall i {:trigger moves[i]} :: 0 <= i < |moves| ==> Follows(gs[i], moves[i], gs[i + 1]))
  }

  predicate Follows(g: Crew, m: Move, h: Crew) {
    m.worker < |g.places| && CanDo(g, m.worker, m.event) && h == Do(g, m.worker, m.event)
  }

  // ---------- Safety ----------

  predicate AllReady(g: Crew) {
    forall w :: 0 <= w < |g.places| ==> SetupReady(w) in g.marks
  }

  /** Past the barrier, or out of the script from the command phase. */
  predicate Passed(p: Place) {
    p.Through? || p.Holding? || p.Running? || ((p.Ending? || p.Reporting?) && p.phase.Command?) || p == Exited(0)
  }

  predicate PlaceOk(g: Crew, w: nat)
    requires w < |g.places|
  {
    var p := g.places[w];
    && (Passed(p) ==> SetupComplete in g.marks && AllReady(g))
    && (p.Counted? ==> w == 0 && AllReady(g))
    && (w == 0 && (p.Holding? || p.Running?) ==> Claimed in g.marks)
    && (p.Ending? && p.rc == 0 ==> p.phase.Command?)
    && (p.Reporting? ==> Fatal(p.rc))
    && (p.Before? ==> !p.phase.SetupBarrier? && !p.phase.Command?)
    && ((p.Before? || p.Publishing? || p.Polling? || p.Looked? || p.Counted?) && w == 0 ==> SetupComplete !in g.marks && Claimed !in g.marks)
  }

  ghost predicate Sound(g: Crew) {
    && |g.places| > 0
    && (forall w {:trigger PlaceOk(g, w)} :: 0 <= w < |g.places| ==> PlaceOk(g, w))
    && (forall m <- g.marks :: m.SetupReady? ==> m.worker < |g.places|)
    && (SetupComplete in g.marks ==> AllReady(g))
    && (Claimed in g.marks ==> SetupComplete in g.marks)
    && (ScopedSucceeded in g.marks <==> g.places[0] == Exited(0))
    && (ScopedFailed in g.marks <==> SomeFailure(g))
  }

  /** Some worker's script ended with a code that `cleanup` reports: not success, nor what stands for a preemption. */
  predicate SomeFailure(g: Crew) {
    exists w :: 0 <= w < |g.places| && g.places[w].Exited? && g.places[w].rc !in {0, 42, 143}
  }

  function AllMarks(n: nat): set<ScopedName> {
    set w | 0 <= w < n :: SetupReady(w)
  }

  lemma {:induction false} AllMarksSize(n: nat)
    ensures |AllMarks(n)| == n
  {
    if n > 0 {
      AllMarksSize(n - 1);
      assert AllMarks(n) == AllMarks(n - 1) + {SetupReady(n - 1)};
    }
  }

  lemma SubsetSize<T>(a: set<T>, b: set<T>)
    requires a <= b && |a| >= |b|
    ensures a == b
  {
    assert |b - a| == |b| - |a| by { assert b == a + (b - a); }
  }

  /** Pigeonhole: `n` ready markers of workers numbered below `n` are one of each. */
  lemma EnoughIsAll(g: Crew)
    requires forall m <- g.marks :: m.SetupReady? ==> m.worker < |g.places|
    requires |ReadyMarks(g.marks)| >= |g.places|
    ensures AllReady(g)
  {
    var n := |g.places|;
    AllMarksSize(n);
    forall m | m in ReadyMarks(g.marks)
      ensures m in AllMarks(n)
    {
      assert m == SetupReady(m.worker);
    }
    SubsetSize(ReadyMarks(g.marks), AllMarks(n));
    forall w | 0 <= w < n
      ensures SetupReady(w) in g.marks
    {
      assert SetupReady(w) in AllMarks(n);
    }
  }

  /** And one of each are enough. */
  lemma AllIsEnough(g: Crew)
    requires AllReady(g)
    ensures |ReadyMarks(g.marks)| >= |g.places|
  {
    var all, ready := AllMarks(|g.places|), ReadyMarks(g.marks);
    AllMarksSize(|g.places|);
    assert all <= ready;
    assert ready == all + (ready - all);
  }

  lemma StartSound(g: Crew)
    requires Start(g)
    ensures Sound(g)
  {
  }

  lemma FollowsMarks(g: Crew, m: Move, h: Crew)
    requires Sound(g) && Follows(g, m, h)
    ensures g.marks.Keys <= h.marks.Keys && |h.places| == |g.places|
    ensures forall k <- h.marks :: k.SetupReady? ==> k.worker < |h.places|
    ensures SetupComplete in h.marks ==> AllReady(h)
    ensures Claimed in h.marks ==> SetupComplete in h.marks
    ensures ScopedSucceeded in h.marks <==> h.places[0] == Exited(0)
  {
    hide SomeFailure;
    assert PlaceOk(g, m.worker) && PlaceOk(g, 0);
  }

  lemma FollowsPlace(g: Crew, m: Move, h: Crew)
    requires Sound(g) && Follows(g, m, h)
    ensures PlaceOk(h, m.worker)
  {
    hide SomeFailure, ReadyMarks;
    assert PlaceOk(g, m.worker) && PlaceOk(g, 0);
    if m.event.CountReady? { EnoughOrNot(g); }
  }

  lemma EnoughOrNot(g: Crew)
    requires Sound(g)
    ensures |ReadyMarks(g.marks)| >= |g.places| ==> AllReady(g)
  {
    if |ReadyMarks(g.marks)| >= |g.places| { EnoughIsAll(g); }
  }

  lemma FollowsSound(g: Crew, m: Move, h: Crew)
    requires Sound(g) && Follows(g, m, h)
    ensures Sound(h)
  {
    hide SomeFailure;
    FollowsMarks(g, m, h);
    FollowsPlace(g, m, h);
    forall v | 0 <= v < |h.places|
      ensures PlaceOk(h, v)
    {
      if v != m.worker { OthersPlace(g, m, h, v); }
    }
    FollowsFailure(g, m, h);
  }

  lemma OthersPlace(g: Crew, m: Move, h: Crew, v: nat)
    requires Sound(g) && Follows(g, m, h) && v < |g.places| && v != m.worker && |h.places| == |g.places|
    ensures PlaceOk(h, v)
  {
    hide SomeFailure;
    assert PlaceOk(g, v) && PlaceOk(g, m.worker) && PlaceOk(g, 0);
  }

  lemma FollowsFailure(g: Crew, m: Move, h: Crew)
    requires m.worker < |g.places| && PlaceOk(g, m.worker) && Follows(g, m, h) && (ScopedFailed in g.marks <==> SomeFailure(g))
    ensures ScopedFailed in h.marks <==> SomeFailure(h)
  {
    var w := m.worker;
    if SomeFailure(g) {
      var v :| 0 <= v < |g.places| && g.places[v].Exited? && g.places[v].rc !in {0, 42, 143};
      assert h.places[v] == g.places[v];
    }
    assert h.places[w].Exited? && Fatal(h.places[w].rc) ==> ScopedFailed in h.marks;
  }

  // ---------- What the barrier promises ----------

  /** No worker enters the command phase, and the attempt is not claimed, before every worker has finished its setup. */
  lemma NobodyStartsEarly(gs: seq<Crew>, moves: seq<Move>, i: nat, w: nat)
    requires History(gs, moves) && i < |gs| && w < |gs[0].places|
    ensures |gs[i].places| == |gs[0].places|
    ensures gs[i].places[w].Running? || Claimed in gs[i].marks || SetupComplete in gs[i].marks ==> AllReady(gs[i])
  {
    HistorySound(gs, moves, i);
    assert PlaceOk(gs[i], w);
  }

  /** Worker 0 has left the barrier, or never got there, without releasing the others. */
  predicate Abandoned(g: Crew) {
    |g.places| > 0 && SetupComplete !in g.marks && !Live(g.places[0])
  }

  lemma FollowsAbandoned(g: Crew, m: Move, h: Crew)
    requires Sound(g) && Follows(g, m, h) && Abandoned(g)
    ensures Abandoned(h)
  {
    assert PlaceOk(g, m.worker) && PlaceOk(g, 0);
  }

  /** If worker 0 leaves without releasing the barrier, no worker ever starts the command, and nothing is claimed. */
  lemma {:induction false} FailureIsForAll(gs: seq<Crew>, moves: seq<Move>, i: nat, k: nat, w: nat)
    requires History(gs, moves) && i <= k < |gs| && Abandoned(gs[i]) && w < |gs[0].places|
    ensures Abandoned(gs[k]) && |gs[k].places| == |gs[0].places|
    ensures !gs[k].places[w].Running? && !gs[k].places[w].Through? && Claimed !in gs[k].marks && ScopedSucceeded !in gs[k].marks
    decreases k - i
  {
    hide Abandoned, Follows;
    HistorySound(gs, moves, k);
    assert PlaceOk(gs[k], w) && PlaceOk(gs[k], 0);
    if i < k {
      FailureIsForAll(gs, moves, i, k - 1, w);
      HistorySound(gs, moves, k - 1);
      assert Follows(gs[k - 1], moves[k - 1], gs[k]);
      FollowsAbandoned(gs[k - 1], moves[k - 1], gs[k]);
    }
    AbandonedFacts(gs[k]);
  }

  lemma AbandonedFacts(g: Crew)
    requires Sound(g) && Abandoned(g)
    ensures SetupComplete !in g.marks && Claimed !in g.marks && g.places[0] != Exited(0)
  {
    assert PlaceOk(g, 0);
  }

  /** The success marker is there exactly if worker 0's script exited 0, a failure marker exactly if some worker's exited with a reportable code. */
  lemma MarkersMean(gs: seq<Crew>, moves: seq<Move>, i: nat)
    requires History(gs, moves) && i < |gs|
    ensures |gs[i].places| == |gs[0].places| > 0
    ensures ScopedSucceeded in gs[i].marks <==> gs[i].places[0] == Exited(0)
    ensures ScopedFailed in gs[i].marks <==> SomeFailure(gs[i])
    ensures ScopedSucceeded in gs[i].marks ==> AllReady(gs[i])
  {
    HistorySound(gs, moves, i);
    assert PlaceOk(gs[i], 0);
  }

  /** Once its command has ended with a code, a worker's script ends with that code, and once it is terminated with 143, unless it vanishes first. */
  predicate EndedWith(p: Place, rc: int) {
    p.Vanished? || ((p.Ending? || p.Reporting? || p.Exited?) && p.rc == rc)
  }

  lemma {:induction false} CodeIsKept(gs: seq<Crew>, moves: seq<Move>, i: nat, k: nat, w: nat, rc: int)
    requires History(gs, moves) && i < |moves| && i < k < |gs|
    requires moves[i] == Move(w, Finish(rc)) || (moves[i] == Move(w, Terminate) && rc == 143)
    ensures w < |gs[k].places| && EndedWith(gs[k].places[w], rc)
    decreases k - i
  {
    assert Follows(gs[k - 1], moves[k - 1], gs[k]);
    if i + 1 < k {
      CodeIsKept(gs, moves, i, k - 1, w, rc);
    }
  }

  /** The script has ended with 0, or is about to. */
  predicate ZeroAt(p: Place) {
    (p.Ending? || p.Reporting? || p.Exited?) && p.rc == 0
  }

  lemma ZeroFrom(g: Crew, m: Move, w: nat)
    requires m.worker < |g.places| && CanDo(g, m.worker, m.event) && w < |g.places| && ZeroAt(Do(g, m.worker, m.event).places[w])
    ensures ZeroAt(g.places[w]) || m == Move(w, Finish(0))
  {
  }

  /** A worker's script exits 0 only if its command did. */
  lemma {:induction false} ZeroIsTheCommands(gs: seq<Crew>, moves: seq<Move>, k: nat, w: nat)
    requires History(gs, moves) && k < |gs| && w < |gs[k].places| && ZeroAt(gs[k].places[w])
    ensures exists i :: 0 <= i < k && moves[i] == Move(w, Finish(0))
  {
    if k > 0 {
      assert Follows(gs[k - 1], moves[k - 1], gs[k]);
      ZeroFrom(gs[k - 1], moves[k - 1], w);
      if ZeroAt(gs[k - 1].places[w]) {
        ZeroIsTheCommands(gs, moves, k - 1, w);
      } else {
        assert moves[k - 1] == Move(w, Finish(0));
      }
    }
  }

  lemma {:induction false} HistorySound(gs: seq<Crew>, moves: seq<Move>, i: nat)
    requires History(gs, moves) && i < |gs|
    ensures Sound(gs[i]) && |gs[i].places| == |gs[0].places|
  {
    hide Sound;
    if i == 0 {
      StartSound(gs[0]);
    } else {
      HistorySound(gs, moves, i - 1);
      assert Follows(gs[i - 1], moves[i - 1], gs[i]);
      FollowsSound(gs[i - 1], moves[i - 1], gs[i]);
    }
  }
}

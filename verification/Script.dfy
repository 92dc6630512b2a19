/** The startup script as one worker runs it, its loop and its EXIT trap, with all other workers acting in between. */
module Script {
  import opened Protocol
  import opened Barrier

  /** Any number of moves by workers other than `w`. */
  predicate Elsewhere(w: nat, g: Crew, gs: seq<Crew>, moves: seq<Move>) {
    && |gs| == |moves| + 1 && gs[0] == g
    && (forall i {:trigger moves[i]} :: 0 <= i < |moves| ==> moves[i].worker != w && Follows(gs[i], moves[i], gs[i + 1]))
  }

  lemma {:induction false} ElsewhereKeeps(w: nat, g: Crew, gs: seq<Crew>, moves: seq<Move>, i: nat)
    requires Elsewhere(w, g, gs, moves) && i < |gs| && w < |g.places|
    ensures |gs[i].places| == |g.places| && gs[i].places[w] == g.places[w] && g.marks.Keys <= gs[i].marks.Keys
  {
    if i > 0 {
      ElsewhereKeeps(w, g, gs, moves, i - 1);
      assert Follows(gs[i - 1], moves[i - 1], gs[i]);
    }
  }

  /** A history may be continued by moves of the others. */
  lemma HistoryOn(gs: seq<Crew>, moves: seq<Move>, w: nat, more: seq<Crew>, on: seq<Move>)
    requires History(gs, moves) && Elsewhere(w, gs[|gs| - 1], more, on)
    ensures History(gs + more[1..], moves + on)
  {
    hide Follows, Start;
    var all, ms := gs + more[1..], moves + on;
    assert all[0] == gs[0];
    forall i | 0 <= i < |ms|
      ensures Follows(all[i], ms[i], all[i + 1])
    {
      if i < |moves| { assert ms[i] == moves[i]; } else { assert ms[i] == on[i - |moves|] && all[i] == more[i - |moves|]; }
    }
  }

  lemma HistorySnoc(gs: seq<Crew>, moves: seq<Move>, m: Move, h: Crew)
    requires History(gs, moves) && Follows(gs[|gs| - 1], m, h)
    ensures History(gs + [h], moves + [m])
  {
    hide Follows, Start;
    var all, ms := gs + [h], moves + [m];
    forall i | 0 <= i < |ms|
      ensures Follows(all[i], ms[i], all[i + 1])
    {
      if i < |moves| { assert ms[i] == moves[i]; }
    }
  }

  /** How one iteration of the barrier loop ends. */
  datatype Poll = Again | Release | Stop

  /** The attempt's directory and the workers around it. */
  class Attempt {
    var crew: Crew
    /** `SECONDS` */
    var seconds: int
    ghost var gs: seq<Crew>
    ghost var moves: seq<Move>

    constructor (workers: nat)
      requires workers > 0
      ensures Valid() && |crew.places| == workers && Start(crew)
    {
      crew := Crew(seq(workers, i => Before(Bootstrap)), map[]);
      seconds := 0;
      gs, moves := [Crew(seq(workers, i => Before(Bootstrap)), map[])], [];
    }

    ghost predicate Valid()
      reads this
    {
      History(gs, moves) && crew == gs[|gs| - 1]
    }

    /** Nothing of worker `w`'s own has changed, and no marker has gone. */
    twostate predicate Still(w: nat)
      reads this
    {
      && w < |crew.places| == |old(crew).places| && crew.places[w] == old(crew).places[w]
      && old(crew).marks.Keys <= crew.marks.Keys
    }

    /** Time passes and the other workers move. */
    method Others(w: nat, atLeast: nat)
      requires Valid() && w < |crew.places|
      modifies this
      ensures Valid() && Still(w) && seconds >= old(seconds) + atLeast
    {
      hide Follows, History;
      assert Elsewhere(w, crew, [crew], []);
      var more: seq<Crew>, on: seq<Move> :| Elsewhere(w, crew, more, on);
      ElsewhereKeeps(w, crew, more, on, |on|);
      HistoryOn(gs, moves, w, more, on);
      gs, moves := gs + more[1..], moves + on;
      crew := more[|on|];
      var later: int := *;
      seconds := if later > seconds + atLeast then later else seconds + atLeast;
    }

    /** One step of this worker. */
    method Step(w: nat, e: Event)
      requires Valid() && w < |crew.places| && CanDo(crew, w, e)
      modifies this`crew, this`gs, this`moves
      ensures Valid() && crew == Do(old(crew), w, e)
    {
      hide History;
      HistorySnoc(gs, moves, Move(w, e), Do(crew, w, e));
      crew := Do(crew, w, e);
      gs, moves := gs + [crew], moves + [Move(w, e)];
    }

    /** `gsutil -q stat`, which fails on an absent marker and for reasons of its own. */
    method Stat(m: ScopedName) returns (found: bool)
      ensures found ==> m in crew.marks
    {
      var fail: bool := *;
      found := !fail && m in crew.marks;
    }

    /** A command that may fail with some exit code, under `set -e`. */
    method MayFail(w: nat) returns (failed: bool)
      requires Valid() && w < |crew.places| && Live(crew.places[w]) && !crew.places[w].Running?
      modifies this
      ensures Valid() && |crew.places| == |old(crew).places| && seconds >= old(seconds)
      ensures !failed ==> Still(w)
      ensures failed ==> crew.places[w].Ending? && crew.places[w].rc != 0 && crew.places[w].phase == PhaseOf(old(crew).places[w])
    {
      Others(w, 0);
      var rc: int := *;
      failed := rc != 0;
      if failed {
        Step(w, Fail(rc));
      }
    }

    /** One poll of worker 0: stop on a failure report, release everybody once all are ready. */
    method PollAsLeader() returns (next: Poll, ghost told: bool)
      requires Valid() && |crew.places| > 0 && crew.places[0].Polling?
      modifies this
      ensures Valid() && |crew.places| == |old(crew).places| && seconds >= old(seconds) && PollEnds(0, next)
      // It polls again only if somebody is not ready, or the listing failed.
      ensures next.Again? && told ==> !AllReady(crew)
    {
      hide History, ReadyMarks, AllReady;
      told := false;
      Others(0, 0);
      var failed := Stat(ScopedFailed);
      Step(0, SeeFailed(failed));
      next := Stop;
      if failed {
        return;
      }
      Others(0, 0);
      var listed: bool := *;
      told := listed;
      Step(0, CountReady(listed));
      if AllReady(crew) { AllIsEnough(crew); }
      if crew.places[0].Polling? {
        next := Again;
        return;
      }
      var lost := MayFail(0);
      if lost {
        return;
      }
      Step(0, Event.Complete("now"));
      next := Release;
    }

    /** One poll of any other worker: go through once released, stop on a failure report. */
    method PollAsFollower(w: nat) returns (next: Poll)
      requires Valid() && 0 < w < |crew.places| && crew.places[w].Polling?
      modifies this
      ensures Valid() && |crew.places| == |old(crew).places| && seconds >= old(seconds) && PollEnds(w, next)
    {
      hide History;
      Others(w, 0);
      var complete := Stat(SetupComplete);
      Step(w, SeeComplete(complete));
      if complete {
        return Release;
      }
      Others(w, 0);
      var failed := Stat(ScopedFailed);
      Step(w, SeeFailed(failed));
      next := if failed then Stop else Again;
    }

    ghost predicate PollEnds(w: nat, next: Poll)
      reads this
    {
      && w < |crew.places|
      && match next
         case Again => crew.places[w].Polling?
         case Release => crew.places[w].Through?
         case Stop => crew.places[w].Ending? && crew.places[w].phase.SetupBarrier? && crew.places[w].rc != 0
    }

    /** `wait_for_setup_barrier`; `released` is its return value 0. */
    method WaitForSetupBarrier(w: nat, timeout: nat) returns (released: bool, polls: nat)
      requires Valid() && w < |crew.places| && crew.places[w].Publishing?
      modifies this
      ensures Valid() && |crew.places| == |old(crew).places|
      ensures released ==> crew.places[w].Through? && AllReady(crew) && SetupComplete in crew.marks
      ensures !released ==> crew.places[w].Ending? && crew.places[w].phase.SetupBarrier? && crew.places[w].rc != 0
      // It ends within one poll per ten seconds of the timeout, begun or not.
      ensures polls <= (timeout + 9) / 10
    {
      hide History, AllReady;
      released, polls := false, 0;
      var deadline := seconds + timeout;
      ghost var entered := seconds;
      var lost := MayFail(w);
      if lost {
        return;
      }
      Step(w, Publish("now"));
      while seconds < deadline
        invariant Valid() && |crew.places| == |old(crew).places| && crew.places[w].Polling?
        invariant entered + 10 * polls <= seconds && deadline == entered + timeout
        invariant 0 < polls ==> 10 * (polls - 1) < timeout
        decreases deadline - seconds
      {
        polls := polls + 1;
        var next := Again;
        if w == 0 {
          ghost var told;
          next, told := PollAsLeader();
        } else {
          next := PollAsFollower(w);
        }
        if next.Release? {
          released := true;
          ReleasedMeans(w);
          return;
        }
        if next.Stop? {
          return;
        }
        Others(w, 10);
      }
      Step(w, TimeOut);
    }

    lemma ReleasedMeans(w: nat)
      requires Valid() && w < |crew.places| && crew.places[w].Through?
      ensures AllReady(crew) && SetupComplete in crew.marks
    {
      HistorySound(gs, moves, |moves|);
      assert PlaceOk(crew, w);
    }

    /** `cleanup`, for a script that was not terminated meanwhile. */
    method Cleanup(w: nat)
      requires Valid() && w < |crew.places| && crew.places[w].Ending?
      modifies this
      ensures Valid() && |crew.places| == |old(crew).places|
      ensures crew.places[w] == Exited(old(crew).places[w].rc) && old(crew).marks.Keys <= crew.marks.Keys
      // Exactly worker 0's exit 0 is reported as success, and every reportable exit leaves a failure marker.
      ensures w == 0 && old(crew).places[w].rc == 0 ==> ScopedSucceeded in crew.marks
      ensures old(crew).places[w].rc !in {0, 42, 143} ==> ScopedFailed in crew.marks
    {
      hide History;
      var rc := crew.places[w].rc;
      Others(w, 0);
      if rc == 0 {
        if w == 0 {
          Step(w, Succeed("SUCCESS"));
        } else {
          Step(w, Leave);
        }
      } else if rc == PREEMPTION_EXIT || rc == SIGTERM_EXIT {
        Step(w, Leave);
      } else {
        var found := Stat(ScopedFailed);
        Step(w, FindReport(found));
        if !found {
          Others(w, 0);
          Step(w, Event.Report("report"));
        }
      }
    }

    /** Download and setup, each of which may fail. */
    method Prepare(w: nat) returns (failed: bool)
      requires Valid() && w < |crew.places| && crew.places[w] == Before(Bootstrap)
      modifies this
      ensures Valid() && |crew.places| == |old(crew).places|
      ensures !failed ==> crew.places[w].Publishing?
      ensures failed ==> crew.places[w].Ending? && crew.places[w].rc != 0
    {
      hide History;
      var stage := 0;
      failed := false;
      while stage < 3 && !failed
        invariant Valid() && |crew.places| == |old(crew).places| && 0 <= stage <= 3
        invariant !failed ==> crew.places[w] == (match stage case 0 => Before(Bootstrap) case 1 => Before(Download) case 2 => Before(Setup) case _ => Publishing)
        invariant failed ==> crew.places[w].Ending? && crew.places[w].rc != 0
        decreases 3 - stage, !failed
      {
        failed := MayFail(w);
        if !failed {
          Step(w, Proceed);
          stage := stage + 1;
        }
      }
    }

    /** After the barrier: worker 0 claims the attempt, then the command runs. */
    method RunCommand(w: nat) returns (started: bool, code: int)
      requires Valid() && w < |crew.places| && crew.places[w].Through?
      modifies this
      ensures Valid() && |crew.places| == |old(crew).places| && crew.places[w].Ending?
      ensures started ==> old(crew).marks.Keys <= crew.marks.Keys && (w == 0 ==> Claimed in crew.marks)
      ensures !started ==> crew.places[w].rc != 0
      ensures started ==> crew.places[w].rc == code
    {
      hide History;
      started, code := false, 1;
      if w == 0 {
        var failed := MayFail(w);
        if failed {
          return;
        }
        Step(w, Claim("now"));
      }
      Step(w, Begin);
      started := true;
      Others(w, 0);
      code := *;
      Step(w, Finish(code));
    }

    /** The whole script of one worker that is not terminated: `rc` is its exit code, `code` that of its command if it ran. */
    method RunScript(w: nat, timeout: nat) returns (rc: int, ranCommand: bool, code: int)
      requires Valid() && w < |crew.places| && crew.places[w] == Before(Bootstrap)
      modifies this
      ensures Valid() && |crew.places| == |old(crew).places| && crew.places[w] == Exited(rc)
      ensures if ranCommand then rc == code else rc != 0
      // The command ran only after every worker's setup, and worker 0 claimed the attempt first.
      ensures ranCommand ==> AllReady(crew) && SetupComplete in crew.marks && (w == 0 ==> Claimed in crew.marks)
      ensures w == 0 ==> (rc == 0 <==> ScopedSucceeded in crew.marks)
      ensures rc !in {0, 42, 143} ==> ScopedFailed in crew.marks
    {
      hide History, AllReady, CanDo, Do;
      ranCommand, code := false, 1;
      var failed := Prepare(w);
      if !failed {
        var released, _ := WaitForSetupBarrier(w, timeout);
        if released {
          ranCommand, code := RunCommand(w);
        }
      }
      rc := crew.places[w].rc;
      Cleanup(w);
      Meaning(w, rc, ranCommand);
    }

    lemma Meaning(w: nat, rc: int, ranCommand: bool)
      requires Valid() && w < |crew.places| && crew.places[w] == Exited(rc)
      requires (ranCommand ==> SetupComplete in crew.marks)
      ensures w == 0 ==> (rc == 0 <==> ScopedSucceeded in crew.marks)
      ensures ranCommand ==> AllReady(crew)
    {
      HistorySound(gs, moves, |moves|);
    }
  }
}

/** Runs of the protocol: arbitrary interleavings of scheduler steps, crashes and environment moves. */
module Runs {
  import opened Types
  import opened Protocol
  import opened Invariant

  datatype Run = Run(states: seq<Sys>, labels: seq<Label>)

  ghost predicate Step(cfg: Config, s: Sys, l: Label, t: Sys) {
    Enabled(cfg, s, l) && t == Apply(cfg, s, l)
  }

  ghost predicate GoodRun(cfg: Config, r: Run) {
    && |r.states| == |r.labels| + 1
    && Inv(cfg, r.states[0])
    && (forall i {:trigger r.labels[i]} :: 0 <= i < |r.labels| ==> Step(cfg, r.states[i], r.labels[i], r.states[i + 1]))
  }

  function Last(r: Run): Sys
    requires |r.states| > 0
  {
    r.states[|r.states| - 1]
  }

  function Extend(r: Run, l: Label, t: Sys): Run {
    Run(r.states + [t], r.labels + [l])
  }

  lemma ExtendGood(cfg: Config, r: Run, l: Label, t: Sys)
    requires GoodRun(cfg, r) && Step(cfg, Last(r), l, t)
    ensures GoodRun(cfg, Extend(r, l, t)) && Last(Extend(r, l, t)) == t
  {
    hide Step, Inv;
    var e := Extend(r, l, t);
    forall i | 0 <= i < |e.labels|
      ensures Step(cfg, e.states[i], e.labels[i], e.states[i + 1])
    {
      if i < |r.labels| { assert r.labels[i] == e.labels[i]; }
    }
  }

  /** The invariant holds at every point of every run. */
  lemma {:induction false} RunInv(cfg: Config, r: Run, i: nat)
    requires GoodRun(cfg, r) && i < |r.states|
    ensures Inv(cfg, r.states[i])
  {
    if i > 0 {
      RunInv(cfg, r, i - 1);
      assert Step(cfg, r.states[i - 1], r.labels[i - 1], r.states[i]);
      StepKeeps(cfg, r.states[i - 1], r.labels[i - 1]);
    }
  }

  /** A run may be cut anywhere and continued by a crash. */
  lemma CrashAnywhere(cfg: Config, r: Run, i: nat)
    requires GoodRun(cfg, r) && i < |r.states|
    ensures var c := r.states[i].(jobs := map[], index := map[], pc := Idle);
            GoodRun(cfg, Run(r.states[..i + 1] + [c], r.labels[..i] + [Crash]))
  {
    var c := r.states[i].(jobs := map[], index := map[], pc := Idle);
    var cut := Run(r.states[..i + 1], r.labels[..i]);
    forall k | 0 <= k < |cut.labels|
      ensures Step(cfg, cut.states[k], cut.labels[k], cut.states[k + 1])
    {
      assert r.labels[k] == cut.labels[k];
    }
    ExtendGood(cfg, cut, Crash, c);
    assert Extend(cut, Crash, c) == Run(r.states[..i + 1] + [c], r.labels[..i] + [Crash]);
  }

  /** A good run that ends in `s`. */
  ghost predicate Reaches(cfg: Config, r: Run, s: Sys) {
    GoodRun(cfg, r) && Last(r) == s
  }

  lemma ReachedInv(cfg: Config, r: Run, s: Sys)
    requires Reaches(cfg, r, s)
    ensures Inv(cfg, s)
  {
    RunInv(cfg, r, |r.labels|);
  }

  lemma ReachStep(cfg: Config, r: Run, s: Sys, l: Label, t: Sys)
    requires Reaches(cfg, r, s) && Step(cfg, s, l, t)
    ensures Reaches(cfg, Extend(r, l, t), t)
  {
    hide Step;
    ExtendGood(cfg, r, l, t);
  }

  lemma MoveStep(cfg: Config, s: Sys, mid: Cloud)
    requires EnvRel(cfg, s.cloud, mid)
    ensures Step(cfg, s, Env(mid), s.(cloud := mid))
  {
  }

  lemma EnvReflexive(cfg: Config, c: Cloud)
    ensures EnvRel(cfg, c, c)
  {
  }

  lemma EnvTransitive(cfg: Config, c: Cloud, d: Cloud, e: Cloud)
    requires EnvRel(cfg, c, d) && EnvRel(cfg, d, e)
    ensures EnvRel(cfg, c, e)
  {
    hide SpecOk;
  }

  lemma MoveKeepsComplete(cfg: Config, s: Sys, mid: Cloud)
    requires Complete(s) && EnvRel(cfg, s.cloud, mid)
    ensures Complete(s.(cloud := mid))
  {
  }

  /** The job a label does lifecycle work on. */
  function Work(l: Label): set<JobId> {
    match l
    case Env(_) => {}
    case Crash => {}
    case Load(_, _) => {}
    case Refresh(_) => {}
    case Forget(_) => {}
    case BeginCancel(_) => {}
    case CancelClean(_, _, _) => {}
    case CancelWrite(_, _) => {}
    case _ => {l.job}
  }

  /** The job a label cancels. */
  function Drop(l: Label): set<JobId> {
    if l.BeginCancel? || l.CancelClean? || l.CancelWrite? then {l.job} else {}
  }

  function Worked(t: seq<Label>): set<JobId> {
    if t == [] then {} else Worked(t[..|t| - 1]) + Work(t[|t| - 1])
  }

  function Dropped(t: seq<Label>): set<JobId> {
    if t == [] then {} else Dropped(t[..|t| - 1]) + Drop(t[|t| - 1])
  }

  lemma Snoc(t: seq<Label>, l: Label)
    ensures Worked(t + [l]) == Worked(t) + Work(l) && Dropped(t + [l]) == Dropped(t) + Drop(l)
  {
    assert (t + [l])[..|t|] == t;
  }
}

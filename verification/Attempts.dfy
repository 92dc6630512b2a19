/** Every attempt gets one queued resource: counting creates against the record, without crashes. */
module Attempts {
  import opened Types
  import opened Lifecycle
  import opened Protocol
  import opened Invariant
  import opened Runs
  import opened History

  /** Attempts begun: those recorded, and the one in progress. */
  function Begun(s: Sys, j: JobId): int
    requires j in s.jobs
  {
    s.jobs[j].state.currentAttempt + if Active(s.jobs[j].state) || (s.pc.Creating? && s.pc.job == j) then 1 else 0
  }

  /** What a step other than a restart does to the count of attempts begun. */
  ghost predicate Counts(s: Sys, l: Label, t: Sys, j: JobId)
    requires j in s.jobs && j in t.jobs
  {
    var a, b := s.jobs[j].state.status, t.jobs[j].state.status;
    && t.jobs[j].spec == s.jobs[j].spec && (a.Canceled? ==> b.Canceled?) && (Forgoes(s, l, j) ==> !a.Canceled? && b.Canceled?)
    && (l.CreateOk? && l.job == j ==> !b.Canceled?)
    && Begun(t, j) == Begun(s, j) + (if l.CreateOk? && l.job == j then 1 else 0) - (if Forgoes(s, l, j) then 1 else 0)
  }

  /** The write that cancels an attempt in progress: it has its queued resource, and will have no record. */
  predicate Forgoes(s: Sys, l: Label, j: JobId) {
    l.CancelWrite? && l.job == j && j in s.jobs && Active(s.jobs[j].state)
  }

  lemma MemoryFacts(cfg: Config, s: Sys, j: JobId)
    requires Inv(cfg, s) && j in s.jobs
    ensures j in s.cloud.dirs && s.jobs[j].spec == s.cloud.dirs[j].spec
    ensures WellFormed(s.jobs[j].state, s.jobs[j].spec.maxAttempts)
    ensures !Dirty(s.pc) && j in s.cloud.status ==> Alike(s.cloud.status[j], s.jobs[j].state)
    ensures Begun(s, j) <= s.jobs[j].spec.maxAttempts
  {
    hide CloudInv;
    assert JobInv(cfg, s, j);
  }

  lemma BeginCounts(cfg: Config, s: Sys, l: Label, j: JobId)
    requires Enabled(cfg, s, l) && OfAttempt(l) && !Writes(l) && j in s.jobs
    ensures j in Apply(cfg, s, l).jobs && Counts(s, l, Apply(cfg, s, l), j)
  {
    hide Complete, Justified, Verdict, ToClean, ResourceOf;
  }

  lemma CleanWriteCounts(cfg: Config, s: Sys, l: Label, j: JobId)
    requires Inv(cfg, s) && Enabled(cfg, s, l) && (l.CancelWrite? || l.NoteQr? || l.RetryWrite?) && j in s.jobs
    ensures j in Apply(cfg, s, l).jobs && Counts(s, l, Apply(cfg, s, l), j)
  {
    hide CloudInv, JobInv, Complete, Apply, WellFormed;
    WriteEffect(cfg, s, l);
  }

  lemma BindCounts(cfg: Config, s: Sys, l: Label, j: JobId)
    requires Inv(cfg, s) && Enabled(cfg, s, l) && l.BindWrite? && j in s.jobs
    ensures j in Apply(cfg, s, l).jobs && Counts(s, l, Apply(cfg, s, l), j)
  {
    hide CloudInv, JobInv, Complete, Apply, WellFormed;
    WriteEffect(cfg, s, l);
  }

  lemma DirtyWriteCounts(cfg: Config, s: Sys, l: Label, j: JobId)
    requires Enabled(cfg, s, l) && (l.PreemptWrite? || l.ActivateWrite? || l.FinishWrite?) && j in s.jobs
    ensures j in Apply(cfg, s, l).jobs && Counts(s, l, Apply(cfg, s, l), j)
  {
    hide Apply;
    WriteEffect(cfg, s, l);
  }

  lemma OtherCounts(cfg: Config, s: Sys, l: Label, j: JobId)
    requires Inv(cfg, s) && Enabled(cfg, s, l) && !OfAttempt(l) && !Writes(l) && !l.Crash? && j in s.jobs && j in Apply(cfg, s, l).jobs
    ensures Counts(s, l, Apply(cfg, s, l), j)
  {
    hide CloudInv, JobInv, Complete, Admissible, EnvRel, SpecOk;
    MemoryFacts(cfg, s, j);
  }

  lemma StepCounts(cfg: Config, s: Sys, l: Label, j: JobId)
    requires Inv(cfg, s) && Enabled(cfg, s, l) && !l.Crash? && j in s.jobs && j in Apply(cfg, s, l).jobs
    ensures Counts(s, l, Apply(cfg, s, l), j)
  {
    hide Inv, Enabled, Apply, Counts;
    if l.PreemptWrite? || l.ActivateWrite? || l.FinishWrite? {
      DirtyWriteCounts(cfg, s, l, j);
    } else if l.BindWrite? {
      BindCounts(cfg, s, l, j);
    } else if Writes(l) {
      CleanWriteCounts(cfg, s, l, j);
    } else if OfAttempt(l) {
      BeginCounts(cfg, s, l, j);
    } else {
      OtherCounts(cfg, s, l, j);
    }
  }

  function Creates(labels: seq<Label>, j: JobId): nat {
    if labels == [] then 0
    else Creates(labels[..|labels| - 1], j) + if labels[|labels| - 1].CreateOk? && labels[|labels| - 1].job == j then 1 else 0
  }

  /** How many attempts were cancelled in progress. */
  function Forgone(r: Run, j: JobId, i: nat, k: nat): nat
    requires i <= k < |r.states| == |r.labels| + 1
  {
    if i == k then 0 else Forgone(r, j, i, k - 1) + if Forgoes(r.states[k - 1], r.labels[k - 1], j) then 1 else 0
  }

  ghost predicate Remembered(r: Run, j: JobId, i: nat, k: nat)
    requires i <= k < |r.states| == |r.labels| + 1
  {
    && (forall n :: i <= n <= k ==> j in r.states[n].jobs)
    && (forall n :: i <= n < k ==> !r.labels[n].Crash?)
  }

  /** Creates equal the growth of attempts begun, plus one if the job was cancelled with an attempt in progress; they never exceed what is allowed. */
  lemma {:induction false} CreatesCounted(cfg: Config, r: Run, j: JobId, i: nat, k: nat)
    requires GoodRun(cfg, r) && i <= k < |r.states| && Remembered(r, j, i, k)
    ensures Creates(r.labels[i..k], j) == Begun(r.states[k], j) - Begun(r.states[i], j) + Forgone(r, j, i, k)
    ensures Forgone(r, j, i, k) <= 1 && (Forgone(r, j, i, k) == 1 ==> r.states[k].jobs[j].state.status.Canceled?)
    ensures Creates(r.labels[i..k], j) + Begun(r.states[i], j) <= r.states[k].jobs[j].spec.maxAttempts
    decreases k - i
  {
    hide Inv, Enabled, Apply, Begun, Creates, Forgoes;
    RunInv(cfg, r, k);
    MemoryFacts(cfg, r.states[k], j);
    if i < k {
      CreatesCounted(cfg, r, j, i, k - 1);
      var s, l := r.states[k - 1], r.labels[k - 1];
      assert Step(cfg, s, l, r.states[k]);
      RunInv(cfg, r, k - 1);
      MemoryFacts(cfg, s, j);
      StepCounts(cfg, s, l, j);
      assert r.labels[i..k] == r.labels[i..k - 1] + [l];
      CreatesSnoc(r.labels[i..k - 1], l, j);
    } else {
      assert r.labels[i..k] == [];
      CreatesSnoc([], Crash, j);
    }
  }

  lemma CreatesSnoc(labels: seq<Label>, l: Label, j: JobId)
    ensures Creates(labels + [l], j) == Creates(labels, j) + if l.CreateOk? && l.job == j then 1 else 0
    ensures Creates([], j) == 0
  {
    assert (labels + [l])[..|labels|] == labels;
  }

  lemma CreateFacts(cfg: Config, s: Sys, j: JobId, q: QrName)
    requires Enabled(cfg, s, CreateOk(j, q))
    ensures j in s.jobs && s.jobs[j].state.status.Pending? && Begun(s, j) == s.jobs[j].state.currentAttempt
    ensures var t := Apply(cfg, s, CreateOk(j, q));
            q !in s.cloud.ledger && q in t.cloud.ledger && t.cloud.ledger[q].job == j && t.cloud.ledger[q].attempt == Begun(s, j) + 1
  {
    hide MemUsage, Within;
  }

  /** Without a restart in between, no two creates serve the same attempt of a job. */
  lemma OneQrPerAttempt(cfg: Config, r: Run, j: JobId, i: nat, k: nat, q: QrName, p: QrName)
    requires GoodRun(cfg, r) && i < k < |r.labels| && Remembered(r, j, i, k)
    requires r.labels[i] == CreateOk(j, q) && r.labels[k] == CreateOk(j, p)
    ensures q in r.states[i + 1].cloud.ledger && p in r.states[k + 1].cloud.ledger
    ensures r.states[i + 1].cloud.ledger[q].attempt < r.states[k + 1].cloud.ledger[p].attempt
  {
    hide Inv, Enabled, Apply, Begun;
    assert Step(cfg, r.states[i], r.labels[i], r.states[i + 1]);
    assert Step(cfg, r.states[k], r.labels[k], r.states[k + 1]);
    CreateFacts(cfg, r.states[i], j, q);
    CreateFacts(cfg, r.states[k], j, p);
    CreatesCounted(cfg, r, j, i, k);
    CreatesPositive(r.labels[i..k], j);
  }

  lemma {:induction false} CreatesPositive(labels: seq<Label>, j: JobId)
    requires labels != [] && labels[0].CreateOk? && labels[0].job == j
    ensures Creates(labels, j) >= 1
  {
    if |labels| > 1 {
      assert labels[..|labels| - 1][0] == labels[0];
      CreatesPositive(labels[..|labels| - 1], j);
    }
  }
}

/** Chips of the queued resources that exist at the backend, over whole runs. */
module Quota {
  import opened Types
  import opened Lifecycle
  import opened Protocol
  import opened Invariant
  import opened Chips
  import opened Runs
  import opened Calm
  import opened History

  // ---------- No stray queued resources ----------

  /** Accounted for: an active job's, or in the hands of the operation in progress. */
  predicate Kept(s: Sys, q: QrName) {
    Held(s.cloud, q) || (s.pc.Creating? && s.pc.made == q) || (s.pc.Cleaning? && s.pc.gone == q)
  }

  ghost predicate NoStray(s: Sys) {
    forall q <- s.cloud.qrs :: Kept(s, q)
  }

  /** An operation that has deleted its queued resource will not find it alive again. */
  predicate Released(s: Sys) {
    && (s.pc.Canceling? && s.pc.qr.None? && s.pc.job in s.jobs ==> LetGo(s, s.jobs[s.pc.job].state))
    && (s.pc.Preempting? && s.pc.qr.None? ==> LetGo(s, s.pc.was))
  }

  predicate LetGo(s: Sys, st: JobState) {
    st.currentQrName.Some? ==> st.currentQrName.value !in s.cloud.qrs
  }

  ghost predicate Tidy(s: Sys) {
    NoStray(s) && Released(s)
  }

  /** A record written at rest, or by a cancellation that has let go, leaves no stray. */
  lemma CleanWriteTidy(cfg: Config, s: Sys, l: Label)
    requires Inv(cfg, s) && Enabled(cfg, s, l) && (l.CancelWrite? || l.NoteQr? || l.RetryWrite?) && Tidy(s)
    ensures Tidy(Apply(cfg, s, l))
  {
    hide CloudInv, JobInv, Complete, Apply, WellFormed;
    WriteEffect(cfg, s, l);
    MemoryAlike(cfg, s, l.job);
    var t := Apply(cfg, s, l);
    forall q | q in t.cloud.qrs
      ensures Kept(t, q)
    {
      assert Kept(s, q);
    }
  }

  /** The record of a create claims the queued resource in hand. */
  lemma BindTidy(cfg: Config, s: Sys, l: Label)
    requires Inv(cfg, s) && Enabled(cfg, s, l) && l.BindWrite? && Tidy(s)
    ensures Tidy(Apply(cfg, s, l))
  {
    hide CloudInv, JobInv, Complete, Apply, WellFormed;
    WriteEffect(cfg, s, l);
    MemoryAlike(cfg, s, l.job);
    var t := Apply(cfg, s, l);
    forall q | q in t.cloud.qrs
      ensures Kept(t, q)
    {
      assert Kept(s, q);
    }
  }

  /** A record that ran ahead of the durable one leaves no stray when it is written. */
  lemma DirtyWriteTidy(cfg: Config, s: Sys, l: Label)
    requires Inv(cfg, s) && Enabled(cfg, s, l) && (l.PreemptWrite? || l.ActivateWrite?) && Tidy(s)
    ensures Tidy(Apply(cfg, s, l))
  {
    hide CloudInv, JobInv, Complete, Apply, Progress, Blank, TrackedFor, MadeFor, SpecOk;
    WriteEffect(cfg, s, l);
    var t := Apply(cfg, s, l);
    forall q | q in t.cloud.qrs
      ensures Kept(t, q)
    {
      assert Kept(s, q);
    }
  }

  /** Nor does a final record: its queued resource is in hand. */
  lemma FinishWriteTidy(cfg: Config, s: Sys, l: Label)
    requires Inv(cfg, s) && Enabled(cfg, s, l) && l.FinishWrite? && Tidy(s)
    ensures Tidy(Apply(cfg, s, l))
  {
    hide CloudInv, JobInv, Complete, Apply, Progress, Blank, TrackedFor, MadeFor, SpecOk;
    WriteEffect(cfg, s, l);
    var t := Apply(cfg, s, l);
    forall q | q in t.cloud.qrs
      ensures Kept(t, q)
    {
      assert Kept(s, q);
    }
  }

  /** Fewer queued resources, and records and operation as before. */
  lemma ShrinkTidy(s: Sys, t: Sys)
    requires Tidy(s) && t.cloud.qrs.Keys <= s.cloud.qrs.Keys && t.cloud.ledger == s.cloud.ledger
    requires forall j <- s.cloud.status :: j in t.cloud.status && t.cloud.status[j] == s.cloud.status[j]
    requires forall q <- t.cloud.qrs :: (s.pc.Creating? && s.pc.made == q) || (s.pc.Cleaning? && s.pc.gone == q) ==> Kept(t, q)
    requires Released(t)
    ensures Tidy(t)
  {
    forall q | q in t.cloud.qrs
      ensures Kept(t, q)
    {
      assert Kept(s, q);
    }
  }

  lemma AttemptTidy(cfg: Config, s: Sys, l: Label)
    requires Enabled(cfg, s, l) && OfAttempt(l) && !Writes(l) && Tidy(s)
    ensures Tidy(Apply(cfg, s, l))
  {
    hide Tidy, Complete, Justified, Verdict, Preempted, Finished, Activated, ToClean, Held;
    ShrinkTidy(s, Apply(cfg, s, l));
  }

  /** Steps between operations, and deletions that succeed. */
  lemma CleanTidy(cfg: Config, s: Sys, l: Label)
    requires Inv(cfg, s) && Enabled(cfg, s, l) && Succeeds(l) && Tidy(s)
    requires l.CleanStale? || l.CleanOrphan? || l.CleanOwn? || l.CancelClean? || l.BeginCancel? || l.BeginRetry?
    ensures Tidy(Apply(cfg, s, l))
  {
    hide Tidy, Complete, CloudInv, JobInv, Progress, WellFormed, Held;
    if l.BeginCancel? { CancelStart(cfg, s, l.job); }
    ShrinkTidy(s, Apply(cfg, s, l));
  }

  lemma CancelStart(cfg: Config, s: Sys, j: JobId)
    requires Inv(cfg, s) && s.pc.Idle? && j in s.jobs
    ensures ToClean(cfg, s.jobs[j]) == s.jobs[j].state.currentQrName
  {
    hide CloudInv;
    assert JobInv(cfg, s, j);
  }

  lemma IdleTidy(cfg: Config, s: Sys, l: Label)
    requires Enabled(cfg, s, l) && Tidy(s)
    requires l.Env? || l.Load? || l.Refresh? || l.Forget? || l.ClearRoot? || l.CreateFail? || l.StampVersion?
    ensures Tidy(Apply(cfg, s, l))
  {
    hide Complete, Held, Stored, Indexed, SpecOk, Sighted;
    ShrinkTidy(s, Apply(cfg, s, l));
  }

  lemma CreateTidy(cfg: Config, s: Sys, l: Label)
    requires Inv(cfg, s) && Enabled(cfg, s, l) && l.CreateOk? && Tidy(s)
    ensures Tidy(Apply(cfg, s, l))
  {
    hide Complete, JobInv, Owns, MemUsage, Within;
    var t := Apply(cfg, s, l);
    forall q | q in t.cloud.qrs
      ensures Kept(t, q)
    {
      if q != l.qr { assert Kept(s, q); }
    }
  }

  lemma ReapTidy(cfg: Config, s: Sys, l: Label)
    requires Inv(cfg, s) && Enabled(cfg, s, l) && l.Reap? && Tidy(s)
    ensures Tidy(Apply(cfg, s, l))
  {
    hide Inv, Complete;
    MemoryAlike(cfg, s, l.job);
    var t := Apply(cfg, s, l);
    forall q | q in t.cloud.qrs
      ensures Kept(t, q)
    {
      assert Kept(s, q);
    }
  }

  /** Short of a crash or a failed deletion, no step leaves a queued resource nobody accounts for. */
  lemma StepTidy(cfg: Config, s: Sys, l: Label)
    requires Inv(cfg, s) && Enabled(cfg, s, l) && Tidy(s) && !l.Crash? && Succeeds(l)
    ensures Tidy(Apply(cfg, s, l))
  {
    hide Inv, Enabled, Apply, Tidy;
    if Writes(l) {
      if l.FinishWrite? {
        FinishWriteTidy(cfg, s, l);
      } else if l.PreemptWrite? || l.ActivateWrite? {
        DirtyWriteTidy(cfg, s, l);
      } else if l.BindWrite? {
        BindTidy(cfg, s, l);
      } else {
        CleanWriteTidy(cfg, s, l);
      }
    } else if OfAttempt(l) {
      AttemptTidy(cfg, s, l);
    } else if l.CreateOk? {
      CreateTidy(cfg, s, l);
    } else if l.Reap? {
      ReapTidy(cfg, s, l);
    } else if l.CleanStale? || l.CleanOrphan? || l.CleanOwn? || l.CancelClean? || l.BeginCancel? || l.BeginRetry? {
      CleanTidy(cfg, s, l);
    } else {
      IdleTidy(cfg, s, l);
    }
  }

  /** Exactly when a crash strands a queued resource: one just created and not yet recorded, or one whose job has ended but that is not yet deleted. */
  lemma CrashTidy(cfg: Config, s: Sys)
    requires Inv(cfg, s) && Tidy(s)
    ensures Tidy(Apply(cfg, s, Crash)) <==>
              && (s.pc.Creating? ==> s.pc.made !in s.cloud.qrs)
              && (s.pc.Cleaning? ==> s.pc.gone !in s.cloud.qrs)
  {
    hide CloudInv, JobInv, Complete;
    var t := Apply(cfg, s, Crash);
    if s.pc.Creating? {
      MemoryAlike(cfg, s, s.pc.job);
    }
    if s.pc.Cleaning? {
      MemoryAlike(cfg, s, s.pc.job);
    }
    forall q | q in t.cloud.qrs && !(s.pc.Creating? && s.pc.made == q) && !(s.pc.Cleaning? && s.pc.gone == q)
      ensures Kept(t, q)
    {
      assert Kept(s, q);
    }
  }

  // ---------- Chips at the backend ----------

  /** Chips of every queued resource that exists, tracked or not. */
  ghost function LiveUsage(c: Cloud, p: Pot): nat {
    QrSum(c.qrs.Keys * c.ledger.Keys, c.ledger, p)
  }

  lemma HeldFacts(cfg: Config, s: Sys, q: QrName, p: Pot)
    requires Inv(cfg, s) && s.pc.Idle? && Complete(s) && Held(s.cloud, q)
    ensures var j := s.cloud.ledger[q].job;
            && j in ActiveJobs(s.jobs) && s.jobs[j].state.currentQrName == Some(q)
            && SpecWeight(cfg, s.jobs[j].spec, p) == BirthWeight(s.cloud.ledger[q], p)
  {
    hide CloudInv;
    assert JobInv(cfg, s, s.cloud.ledger[q].job);
  }

  /** At rest, with no strays, the chips at the backend are at most those of the active jobs in memory. */
  lemma LiveWithinMemory(cfg: Config, s: Sys, p: Pot)
    requires Inv(cfg, s) && s.pc.Idle? && Complete(s) && NoStray(s)
    ensures LiveUsage(s.cloud, p) <= MemUsage(cfg, s.jobs, p)
  {
    hide Inv, Held, Complete, SpecWeight, BirthWeight;
    var c := s.cloud;
    var Q := c.qrs.Keys * c.ledger.Keys;
    forall q | q in Q
      ensures c.ledger[q].job in ActiveJobs(s.jobs) && s.jobs[c.ledger[q].job].state.currentQrName == Some(q)
      ensures SpecWeight(cfg, s.jobs[c.ledger[q].job].spec, p) == BirthWeight(c.ledger[q], p)
    {
      assert Kept(s, q);
      HeldFacts(cfg, s, q, p);
    }
    InjectionSum(Q, c.ledger, ActiveJobs(s.jobs), JobWeights(cfg, s.jobs, p), p);
  }

  lemma FewerUsage(c: Cloud, d: Cloud, p: Pot)
    requires Fewer(c, d)
    ensures LiveUsage(d, p) <= LiveUsage(c, p)
  {
    QrMonotone(d.qrs.Keys * d.ledger.Keys, c.qrs.Keys * c.ledger.Keys, c.ledger, p);
  }

  lemma CreateUsage(cfg: Config, s: Sys, l: Label, p: Pot)
    requires Inv(cfg, s) && Enabled(cfg, s, l) && l.CreateOk?
    ensures l.job in s.jobs && s.pc.Idle? && Complete(s) && Admissible(cfg, s.jobs, s.jobs[l.job].spec)
    ensures LiveUsage(Apply(cfg, s, l).cloud, p) == LiveUsage(s.cloud, p) + SpecWeight(cfg, s.jobs[l.job].spec, p)
  {
    hide CloudInv, JobInv, Complete, MemUsage, Within;
    var c, d := s.cloud, Apply(cfg, s, l).cloud;
    var Q := c.qrs.Keys * c.ledger.Keys;
    QrCongruence(Q, c.ledger, d.ledger, p);
    QrInsert(Q, l.qr, d.ledger, p);
    assert d.qrs.Keys * d.ledger.Keys == Q + {l.qr};
  }

  /** A create is admitted only if it keeps within the limit of every pot it draws on. */
  lemma AdmittedWithin(cfg: Config, jobs: map<JobId, Job>, spec: JobSpec, p: Pot)
    requires Admissible(cfg, jobs, spec) && SpecWeight(cfg, spec, p) > 0
    ensures Within(cfg, p, MemUsage(cfg, jobs, p) + SpecWeight(cfg, spec, p))
  {
    hide MemUsage;
  }

  /** No more than before, or within the limit. */
  ghost predicate NoMore(cfg: Config, p: Pot, before: int, after: int) {
    after <= before || Within(cfg, p, after)
  }

  lemma StepUsage(cfg: Config, s: Sys, l: Label, p: Pot)
    requires Inv(cfg, s) && Enabled(cfg, s, l) && Tidy(s)
    ensures NoMore(cfg, p, LiveUsage(s.cloud, p), LiveUsage(Apply(cfg, s, l).cloud, p))
  {
    hide Inv, Enabled, Apply, LiveUsage, Admissible, MemUsage, SpecWeight;
    if l.CreateOk? {
      CreateUsage(cfg, s, l, p);
      LiveWithinMemory(cfg, s, p);
      if SpecWeight(cfg, s.jobs[l.job].spec, p) > 0 { AdmittedWithin(cfg, s.jobs, s.jobs[l.job].spec, p); }
    } else {
      StepFewer(cfg, s, l);
      FewerUsage(s.cloud, Apply(cfg, s, l).cloud, p);
    }
  }

  ghost predicate Undamaged(labels: seq<Label>) {
    forall l <- labels :: !l.Crash? && Succeeds(l)
  }

  /**
   Cloud-level quota: on every stretch of a run without a crash or a failed deletion, the chips of all
   queued resources that exist never exceed the larger of the limit and the starting usage, for every
   quota group and every capped user.
   */
  lemma {:induction false} CloudQuota(cfg: Config, r: Run, i: nat, k: nat, p: Pot)
    requires GoodRun(cfg, r) && i <= k < |r.states| && Undamaged(r.labels[i..k]) && Tidy(r.states[i])
    ensures Tidy(r.states[k])
    ensures NoMore(cfg, p, LiveUsage(r.states[i].cloud, p), LiveUsage(r.states[k].cloud, p))
    decreases k - i
  {
    hide Inv, Enabled, Apply, Tidy, LiveUsage;
    if i < k {
      assert r.labels[i..k] == r.labels[i..k - 1] + [r.labels[k - 1]];
      CloudQuota(cfg, r, i, k - 1, p);
      RunInv(cfg, r, k - 1);
      var s, l := r.states[k - 1], r.labels[k - 1];
      assert Step(cfg, s, l, r.states[k]);
      assert l in r.labels[i..k];
      StepTidy(cfg, s, l);
      StepUsage(cfg, s, l, p);
    }
  }

  // ---------- Whatever crashes and whatever fails ----------

  /** Jobs with a claim on chips: the durably active ones, and the one being started or ended. */
  ghost function Claimants(s: Sys): set<JobId> {
    (set j | j in s.cloud.status && Active(s.cloud.status[j])) + if s.pc.Creating? || s.pc.Cleaning? then {s.pc.job} else {}
  }

  ghost function DirWeights(cfg: Config, c: Cloud, p: Pot): map<JobId, nat> {
    map j | j in c.dirs :: SpecWeight(cfg, c.dirs[j].spec, p)
  }

  ghost function ClaimedChips(cfg: Config, s: Sys, p: Pot): nat {
    Sum(Claimants(s) * s.cloud.dirs.Keys, DirWeights(cfg, s.cloud, p))
  }

  lemma CleanWriteClaims(cfg: Config, s: Sys, l: Label)
    requires Inv(cfg, s) && Enabled(cfg, s, l) && (l.CancelWrite? || l.NoteQr? || l.RetryWrite? || l.BindWrite?)
    ensures Claimants(Apply(cfg, s, l)) <= Claimants(s) && Apply(cfg, s, l).cloud.dirs == s.cloud.dirs
  {
    hide CloudInv, JobInv, Complete, Apply, WellFormed;
    WriteEffect(cfg, s, l);
    MemoryAlike(cfg, s, l.job);
  }

  lemma DirtyWriteClaims(cfg: Config, s: Sys, l: Label)
    requires Inv(cfg, s) && Enabled(cfg, s, l) && (l.PreemptWrite? || l.ActivateWrite? || l.FinishWrite?)
    ensures Claimants(Apply(cfg, s, l)) <= Claimants(s) && Apply(cfg, s, l).cloud.dirs == s.cloud.dirs
  {
    hide CloudInv, JobInv, Complete, Apply, Progress;
    WriteEffect(cfg, s, l);
  }

  lemma AttemptClaims(cfg: Config, s: Sys, l: Label)
    requires Enabled(cfg, s, l) && OfAttempt(l) && !Writes(l)
    ensures Claimants(Apply(cfg, s, l)) <= Claimants(s)
  {
    hide Complete, Justified, Verdict, Preempted, Finished, Activated, ToClean;
  }

  lemma OtherClaims(cfg: Config, s: Sys, l: Label)
    requires Enabled(cfg, s, l) && !OfAttempt(l) && !Writes(l) && !l.CreateOk?
    ensures Claimants(Apply(cfg, s, l)) <= Claimants(s)
  {
    hide Complete, ToClean, Stored, Indexed, SpecOk, Sighted;
  }

  /** A claimant that stays one keeps its directory. */
  lemma ClaimsFall(cfg: Config, s: Sys, l: Label, p: Pot)
    requires Inv(cfg, s) && Enabled(cfg, s, l) && !l.CreateOk?
    ensures ClaimedChips(cfg, Apply(cfg, s, l), p) <= ClaimedChips(cfg, s, p)
  {
    hide Inv, Enabled, Apply, Claimants;
    var t := Apply(cfg, s, l);
    if Writes(l) {
      if l.PreemptWrite? || l.ActivateWrite? || l.FinishWrite? { DirtyWriteClaims(cfg, s, l); } else { CleanWriteClaims(cfg, s, l); }
    } else {
      if OfAttempt(l) { AttemptClaims(cfg, s, l); } else { OtherClaims(cfg, s, l); }
      if l.Reap? { ReapEffect(cfg, s, l); } else { QuietStep(cfg, s, l); }
    }
    ClaimantDirs(cfg, s);
    SumWithin(Claimants(t) * t.cloud.dirs.Keys, DirWeights(cfg, t.cloud, p), Claimants(s) * s.cloud.dirs.Keys, DirWeights(cfg, s.cloud, p));
  }

  lemma ClaimantDirs(cfg: Config, s: Sys)
    requires Inv(cfg, s)
    ensures Claimants(s) <= s.cloud.dirs.Keys
  {
    if s.pc.Creating? || s.pc.Cleaning? { MemoryAlike(cfg, s, s.pc.job); }
    hide JobInv, Owns;
  }

  /** At rest the claimants are the active jobs in memory. */
  lemma ClaimsInMemory(cfg: Config, s: Sys, p: Pot)
    requires Inv(cfg, s) && s.pc.Idle? && Complete(s)
    ensures ClaimedChips(cfg, s, p) == MemUsage(cfg, s.jobs, p)
  {
    hide CloudInv, JobInv, SpecWeight;
    forall j
      ensures j in Claimants(s) * s.cloud.dirs.Keys <==> j in ActiveJobs(s.jobs)
      ensures j in s.jobs ==> j in s.cloud.dirs && s.jobs[j].spec == s.cloud.dirs[j].spec
    {
      if j in s.jobs { MemoryAlike(cfg, s, j); }
    }
    assert Claimants(s) * s.cloud.dirs.Keys == ActiveJobs(s.jobs);
    SumCongruence(ActiveJobs(s.jobs), DirWeights(cfg, s.cloud, p), JobWeights(cfg, s.jobs, p));
  }

  lemma CreateClaims(cfg: Config, s: Sys, l: Label, p: Pot)
    requires Inv(cfg, s) && Enabled(cfg, s, l) && l.CreateOk?
    ensures l.job in s.jobs && ClaimedChips(cfg, Apply(cfg, s, l), p) == ClaimedChips(cfg, s, p) + SpecWeight(cfg, s.jobs[l.job].spec, p)
  {
    hide CloudInv, JobInv, MemUsage, Within, SpecWeight;
    MemoryAlike(cfg, s, l.job);
    var t := Apply(cfg, s, l);
    var C := Claimants(s) * s.cloud.dirs.Keys;
    assert Claimants(t) * t.cloud.dirs.Keys == C + {l.job};
    SumInsert(C, l.job, DirWeights(cfg, s.cloud, p));
  }

  lemma StepClaims(cfg: Config, s: Sys, l: Label, p: Pot)
    requires Inv(cfg, s) && Enabled(cfg, s, l)
    ensures NoMore(cfg, p, ClaimedChips(cfg, s, p), ClaimedChips(cfg, Apply(cfg, s, l), p))
  {
    hide Inv, Enabled, Apply, ClaimedChips, Admissible, MemUsage, SpecWeight, LiveUsage;
    if l.CreateOk? {
      CreateUsage(cfg, s, l, p);
      CreateClaims(cfg, s, l, p);
      ClaimsInMemory(cfg, s, p);
      if SpecWeight(cfg, s.jobs[l.job].spec, p) > 0 { AdmittedWithin(cfg, s.jobs, s.jobs[l.job].spec, p); }
    } else {
      ClaimsFall(cfg, s, l, p);
    }
  }

  /** On every run, crashes and failures included, the chips of jobs with a claim stay within the larger of the limit and the start. */
  lemma {:induction false} ClaimQuota(cfg: Config, r: Run, k: nat, p: Pot)
    requires GoodRun(cfg, r) && k < |r.states|
    ensures NoMore(cfg, p, ClaimedChips(cfg, r.states[0], p), ClaimedChips(cfg, r.states[k], p))
  {
    hide Inv, Enabled, Apply, ClaimedChips;
    if k > 0 {
      ClaimQuota(cfg, r, k - 1, p);
      RunInv(cfg, r, k - 1);
      assert Step(cfg, r.states[k - 1], r.labels[k - 1], r.states[k]);
      StepClaims(cfg, r.states[k - 1], r.labels[k - 1], p);
    }
  }

  /** Chips of the queued resources nobody accounts for. */
  ghost function StrayChips(s: Sys, p: Pot): nat {
    QrSum((set q | q in s.cloud.qrs && !Kept(s, q)) * s.cloud.ledger.Keys, s.cloud.ledger, p)
  }

  lemma KeptFacts(cfg: Config, s: Sys, q: QrName, p: Pot)
    requires Inv(cfg, s) && Kept(s, q) && q in s.cloud.ledger
    ensures var j := s.cloud.ledger[q].job;
            j in Claimants(s) && j in s.cloud.dirs && SpecWeight(cfg, s.cloud.dirs[j].spec, p) == BirthWeight(s.cloud.ledger[q], p)
  {
    hide WellFormed;
    if Held(s.cloud, q) {
      assert Owns(cfg, s.cloud, s.cloud.ledger[q].job, s.cloud.dirs[s.cloud.ledger[q].job].spec, s.cloud.status[s.cloud.ledger[q].job]);
    }
    if s.pc.Creating? || s.pc.Cleaning? { MemoryAlike(cfg, s, s.pc.job); }
  }

  lemma KeptDistinct(cfg: Config, s: Sys, q: QrName, p: QrName)
    requires Inv(cfg, s) && Kept(s, q) && Kept(s, p) && q in s.cloud.ledger && p in s.cloud.ledger
    requires s.cloud.ledger[q].job == s.cloud.ledger[p].job
    ensures q == p
  {
    hide CloudInv, JobInv, WellFormed;
    if s.pc.Creating? || s.pc.Cleaning? { MemoryAlike(cfg, s, s.pc.job); }
  }

  /** In any state whatever, the chips at the backend exceed those of the claimants at most by the strays. */
  lemma StraysAreTheExcess(cfg: Config, s: Sys, p: Pot)
    requires Inv(cfg, s)
    ensures LiveUsage(s.cloud, p) <= ClaimedChips(cfg, s, p) + StrayChips(s, p)
  {
    hide Inv, Kept, Claimants, SpecWeight, BirthWeight;
    var c := s.cloud;
    var Q := set q | q in c.qrs && q in c.ledger && Kept(s, q);
    var S := (set q | q in c.qrs && !Kept(s, q)) * c.ledger.Keys;
    forall q | q in Q
      ensures c.ledger[q].job in Claimants(s) * c.dirs.Keys && SpecWeight(cfg, c.dirs[c.ledger[q].job].spec, p) == BirthWeight(c.ledger[q], p)
    {
      KeptFacts(cfg, s, q, p);
    }
    forall q, r | q in Q && r in Q && c.ledger[q].job == c.ledger[r].job
      ensures q == r
    {
      KeptDistinct(cfg, s, q, r);
    }
    InjectionSum(Q, c.ledger, Claimants(s) * c.dirs.Keys, DirWeights(cfg, c, p), p);
    QrUnion(Q, S, c.ledger, p);
    assert Q + S == c.qrs.Keys * c.ledger.Keys;
  }

  // ---------- One crash is enough to exceed a limit ----------

  const SMALL: ResourceConfig := ResourceConfig("v4-8", "zone", "project", 4, 1, true, "group")

  /** One resource of four chips, and four chips to spend. */
  function SmallConfig(): Config {
    Config(map["v4-8" := SMALL], map["group" := 4], None, map[], ["gs://bucket"], "queue", 600, 600, 600, 0, 0,
           text => None, text => RawReport(None, None, None, None, None), text => text)
  }

  function SmallJob(): JobSpec {
    JobSpec("job", "job", "", "", "", "", JobResources("v4-8", "", "", "", 4, 1, ""), 3, "", "user", 0, [], map[], map[], false)
  }

  /** A job is submitted, and nothing else is there; the scheduler has just started. */
  function SmallStart(): Sys {
    Sys(map[], map[], Cloud(map["job" := Dir("gs://bucket", SmallJob())], map[], map[], map[], map[], map[], {"job"}), Idle)
  }

  lemma AdmitsFirst(u: Sys)
    requires u.jobs.Keys == {"job"} && u.jobs["job"].spec == SmallJob() && u.jobs["job"].state.status.Pending?
    ensures Admissible(SmallConfig(), u.jobs, SmallJob())
  {
    assert ActiveJobs(u.jobs) == {};
  }

  lemma CreatesAgain(s: Sys, q: QrName) returns (t: Sys)
    requires s.pc.Idle? && s.jobs == map[] && s.cloud.status == map[] && s.cloud.dirs == SmallStart().cloud.dirs
    requires "queue-" <= q && q !in s.cloud.ledger
    ensures Enabled(SmallConfig(), s, Load("job", "now"))
    ensures var u := Apply(SmallConfig(), s, Load("job", "now")); Enabled(SmallConfig(), u, CreateOk("job", q)) && t == Apply(SmallConfig(), u, CreateOk("job", q))
    ensures t.cloud.dirs == s.cloud.dirs && t.cloud.status == s.cloud.status
    ensures t.cloud.ledger == s.cloud.ledger[q := Birth("job", 1, SMALL, "user", true)] && t.cloud.qrs.Keys == s.cloud.qrs.Keys + {q}
  {
    hide Admissible;
    var cfg := SmallConfig();
    var u := Apply(cfg, s, Load("job", "now"));
    AdmitsFirst(u);
    t := Apply(cfg, u, CreateOk("job", q));
  }

  /** Stopped right after a create and started again, the scheduler creates a second queued resource for the same attempt. */
  lemma CrashOverspends() returns (r: Run)
    ensures GoodRun(SmallConfig(), r) && Tidy(r.states[0])
    ensures r.labels == [Load("job", "now"), CreateOk("job", "queue-1"), Crash, Load("job", "now"), CreateOk("job", "queue-2")]
    ensures LiveUsage(r.states[0].cloud, Group("group")) == 0 && SmallConfig().quotaGroups == map["group" := 4]
    ensures LiveUsage(Last(r).cloud, Group("group")) == 8
  {
    hide CloudInv, JobInv, Admissible, Complete, PcInv;
    var cfg, s0 := SmallConfig(), SmallStart();
    assert Inv(cfg, s0) by { SmallInv(); }
    var a := CreatesAgain(s0, "queue-1");
    var u := Apply(cfg, s0, Load("job", "now"));
    var c := Apply(cfg, a, Crash);
    StepKeeps(cfg, s0, Load("job", "now"));
    StepKeeps(cfg, u, CreateOk("job", "queue-1"));
    StepKeeps(cfg, a, Crash);
    var b := CreatesAgain(c, "queue-2");
    var v := Apply(cfg, c, Load("job", "now"));
    r := Run([s0, u, a, c, v, b], [Load("job", "now"), CreateOk("job", "queue-1"), Crash, Load("job", "now"), CreateOk("job", "queue-2")]);
    TwoQrs(b.cloud);
  }

  lemma SmallInv()
    ensures Inv(SmallConfig(), SmallStart()) && Tidy(SmallStart()) && LiveUsage(SmallStart().cloud, Group("group")) == 0
  {
  }

  lemma TwoQrs(c: Cloud)
    requires c.qrs.Keys == {"queue-1", "queue-2"}
    requires c.ledger == map["queue-1" := Birth("job", 1, SMALL, "user", true), "queue-2" := Birth("job", 1, SMALL, "user", true)]
    ensures LiveUsage(c, Group("group")) == 8
  {
    QrInsert({}, "queue-1", c.ledger, Group("group"));
    QrInsert({"queue-1"}, "queue-2", c.ledger, Group("group"));
    assert c.qrs.Keys * c.ledger.Keys == {"queue-1"} + {"queue-2"};
  }
}

/** Sums of chips over sets of jobs and of queued resources. */
module Chips {
  import opened Types
  import opened Protocol

  lemma {:induction false} SumInsert(S: set<JobId>, j: JobId, w: map<JobId, nat>)
    requires S + {j} <= w.Keys && j !in S
    ensures Sum(S + {j}, w) == Sum(S, w) + w[j]
    decreases |S|
  {
    var T := S + {j};
    var i :| i in T && Sum(T, w) == w[i] + Sum(T - {i}, w);
    if i == j {
      assert T - {i} == S;
    } else {
      assert T - {i} == (S - {i}) + {j};
      SumInsert(S - {i}, j, w);
      SumInsert(S - {i}, i, w);
      assert (S - {i}) + {i} == S;
    }
  }

  lemma {:induction false} SumCongruence(S: set<JobId>, v: map<JobId, nat>, w: map<JobId, nat>)
    requires S <= v.Keys && S <= w.Keys
    requires forall j <- S :: v[j] == w[j]
    ensures Sum(S, v) == Sum(S, w)
    decreases |S|
  {
    if S != {} {
      var i :| i in S;
      SumCongruence(S - {i}, v, w);
      SumInsert(S - {i}, i, v);
      SumInsert(S - {i}, i, w);
      assert (S - {i}) + {i} == S;
    }
  }

  lemma {:induction false} SumMonotone(S: set<JobId>, T: set<JobId>, w: map<JobId, nat>)
    requires S <= T <= w.Keys
    ensures Sum(S, w) <= Sum(T, w)
    decreases |T|
  {
    if S != T {
      var i :| i in T && i !in S;
      SumMonotone(S, T - {i}, w);
      SumInsert(T - {i}, i, w);
      assert (T - {i}) + {i} == T;
    }
  }

  /** A larger set of jobs, weighed the same where they overlap. */
  lemma SumWithin(S: set<JobId>, v: map<JobId, nat>, T: set<JobId>, w: map<JobId, nat>)
    requires S <= T && S <= v.Keys && T <= w.Keys && forall j <- S :: v[j] == w[j]
    ensures Sum(S, v) <= Sum(T, w)
  {
    SumCongruence(S, v, w);
    SumMonotone(S, T, w);
  }

  /** Making a pending job active adds exactly its chips to every pot. */
  lemma ActivateAdds(cfg: Config, jobs: map<JobId, Job>, j: JobId, job: Job, p: Pot)
    requires j in jobs && !Active(jobs[j].state) && Active(job.state) && job.spec == jobs[j].spec
    ensures MemUsage(cfg, jobs[j := job], p) == MemUsage(cfg, jobs, p) + SpecWeight(cfg, job.spec, p)
  {
    var after := jobs[j := job];
    assert ActiveJobs(after) == ActiveJobs(jobs) + {j};
    SumCongruence(ActiveJobs(jobs), JobWeights(cfg, jobs, p), JobWeights(cfg, after, p));
    SumInsert(ActiveJobs(jobs), j, JobWeights(cfg, after, p));
  }

  // ---------- The running tallies ----------

  function ChipsOf(m: map<string, int>, k: string): int {
    if k in m then m[k] else 0
  }

  /** What `chips_by_quota` and `chips_by_user` say about a pot. */
  function Tally(byQuota: map<string, int>, byUser: map<string, int>, p: Pot): int {
    match p
    case Group(g) => ChipsOf(byQuota, g)
    case User(u) => ChipsOf(byUser, u)
  }

  function Charge(m: map<string, int>, k: string, chips: int): map<string, int> {
    m[k := ChipsOf(m, k) + chips]
  }

  lemma ChargeAdds(byQuota: map<string, int>, byUser: map<string, int>, r: ResourceConfig, user: string)
    ensures forall p: Pot :: Tally(Charge(byQuota, r.quotaGroup, r.chips), Charge(byUser, user, r.chips), p) == Tally(byQuota, byUser, p) + Weight(r, user, p)
  {
  }

  /** The tallies count exactly the active jobs among `S`. */
  ghost predicate Counted(cfg: Config, jobs: map<JobId, Job>, S: set<JobId>, byQuota: map<string, int>, byUser: map<string, int>)
    requires S <= jobs.Keys
  {
    forall p: Pot :: Tally(byQuota, byUser, p) == Sum(ActiveJobs(jobs) * S, JobWeights(cfg, jobs, p))
  }

  lemma CountNone(cfg: Config, jobs: map<JobId, Job>)
    ensures Counted(cfg, jobs, {}, map[], map[])
  {
    assert ActiveJobs(jobs) * {} == {};
  }

  lemma CountAll(cfg: Config, jobs: map<JobId, Job>, byQuota: map<string, int>, byUser: map<string, int>)
    requires Counted(cfg, jobs, jobs.Keys, byQuota, byUser)
    ensures forall p: Pot :: Tally(byQuota, byUser, p) == MemUsage(cfg, jobs, p)
  {
    assert ActiveJobs(jobs) * jobs.Keys == ActiveJobs(jobs);
  }

  /** One iteration of the tally loop. */
  lemma CountOne(cfg: Config, jobs: map<JobId, Job>, S: set<JobId>, j: JobId, byQuota: map<string, int>, byUser: map<string, int>)
    requires S <= jobs.Keys && j in jobs && j !in S && Counted(cfg, jobs, S, byQuota, byUser)
    ensures !Active(jobs[j].state) || ResourceOf(cfg, jobs[j].spec).None? ==> Counted(cfg, jobs, S + {j}, byQuota, byUser)
    ensures Active(jobs[j].state) && ResourceOf(cfg, jobs[j].spec).Some? ==>
              var r := ResourceOf(cfg, jobs[j].spec).value;
              Counted(cfg, jobs, S + {j}, Charge(byQuota, r.quotaGroup, r.chips), Charge(byUser, jobs[j].spec.submittedBy, r.chips))
  {
    var A := ActiveJobs(jobs);
    if Active(jobs[j].state) {
      assert A * (S + {j}) == A * S + {j};
      forall p: Pot
        ensures Sum(A * (S + {j}), JobWeights(cfg, jobs, p)) == Sum(A * S, JobWeights(cfg, jobs, p)) + SpecWeight(cfg, jobs[j].spec, p)
      {
        SumInsert(A * S, j, JobWeights(cfg, jobs, p));
      }
      if ResourceOf(cfg, jobs[j].spec).Some? {
        ChargeAdds(byQuota, byUser, ResourceOf(cfg, jobs[j].spec).value, jobs[j].spec.submittedBy);
      }
    } else {
      assert A * (S + {j}) == A * S;
    }
  }

  // ---------- Queued resources ----------

  function BirthWeight(b: Birth, p: Pot): nat {
    Weight(b.resource, b.user, p)
  }

  ghost function QrSum(Q: set<QrName>, ledger: map<QrName, Birth>, p: Pot): nat
    requires Q <= ledger.Keys
  {
    if Q == {} then 0 else var q :| q in Q; BirthWeight(ledger[q], p) + QrSum(Q - {q}, ledger, p)
  }

  lemma {:induction false} QrInsert(Q: set<QrName>, q: QrName, ledger: map<QrName, Birth>, p: Pot)
    requires Q + {q} <= ledger.Keys && q !in Q
    ensures QrSum(Q + {q}, ledger, p) == QrSum(Q, ledger, p) + BirthWeight(ledger[q], p)
    decreases |Q|
  {
    var R := Q + {q};
    var i :| i in R && QrSum(R, ledger, p) == BirthWeight(ledger[i], p) + QrSum(R - {i}, ledger, p);
    if i == q {
      assert R - {i} == Q;
    } else {
      assert R - {i} == (Q - {i}) + {q};
      QrInsert(Q - {i}, q, ledger, p);
      QrInsert(Q - {i}, i, ledger, p);
      assert (Q - {i}) + {i} == Q;
    }
  }

  lemma {:induction false} QrUnion(Q: set<QrName>, R: set<QrName>, ledger: map<QrName, Birth>, p: Pot)
    requires Q + R <= ledger.Keys && Q !! R
    ensures QrSum(Q + R, ledger, p) == QrSum(Q, ledger, p) + QrSum(R, ledger, p)
    decreases |R|
  {
    if R == {} {
      assert Q + R == Q;
    } else {
      var q :| q in R;
      QrUnion(Q, R - {q}, ledger, p);
      QrInsert(Q + (R - {q}), q, ledger, p);
      QrInsert(R - {q}, q, ledger, p);
      assert Q + (R - {q}) + {q} == Q + R;
      assert (R - {q}) + {q} == R;
    }
  }

  lemma {:induction false} QrMonotone(Q: set<QrName>, R: set<QrName>, ledger: map<QrName, Birth>, p: Pot)
    requires Q <= R <= ledger.Keys
    ensures QrSum(Q, ledger, p) <= QrSum(R, ledger, p)
  {
    QrUnion(Q, R - Q, ledger, p);
    assert Q + (R - Q) == R;
  }

  lemma {:induction false} QrCongruence(Q: set<QrName>, a: map<QrName, Birth>, b: map<QrName, Birth>, p: Pot)
    requires Q <= a.Keys && Q <= b.Keys && forall q <- Q :: a[q] == b[q]
    ensures QrSum(Q, a, p) == QrSum(Q, b, p)
    decreases |Q|
  {
    if Q != {} {
      var q :| q in Q;
      QrCongruence(Q - {q}, a, b, p);
      QrInsert(Q - {q}, q, a, p);
      QrInsert(Q - {q}, q, b, p);
      assert (Q - {q}) + {q} == Q;
    }
  }

  /** Queued resources that belong to distinct jobs weigh no more than those jobs. */
  lemma {:induction false} InjectionSum(Q: set<QrName>, ledger: map<QrName, Birth>, J: set<JobId>, w: map<JobId, nat>, p: Pot)
    requires Q <= ledger.Keys && J <= w.Keys
    requires forall q <- Q :: ledger[q].job in J && w[ledger[q].job] == BirthWeight(ledger[q], p)
    requires forall q <- Q, r <- Q :: ledger[q].job == ledger[r].job ==> q == r
    ensures QrSum(Q, ledger, p) <= Sum(J, w)
    decreases |Q|
  {
    if Q != {} {
      var q :| q in Q;
      var j := ledger[q].job;
      forall r | r in Q - {q}
        ensures ledger[r].job in J - {j}
      {
        assert r in Q && ledger[r].job == j ==> r == q;
      }
      InjectionSum(Q - {q}, ledger, J - {j}, w, p);
      QrInsert(Q - {q}, q, ledger, p);
      SumInsert(J - {j}, j, w);
      assert (Q - {q}) + {q} == Q && (J - {j}) + {j} == J;
    }
  }
}

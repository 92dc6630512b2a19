/** The order in which pending jobs are tried, and what a greedy pass over that order guarantees. */
module Queue {
  import opened Types
  import opened Protocol
  import opened Chips
  import opened Outcomes

  // ---------- Order: (priority, submit_time, job_id), as Python compares tuples ----------

  datatype Key = Key(priority: int, submitTime: string, id: JobId)

  predicate StrLe(a: string, b: string) {
    a == "" || (b != "" && (a[0] < b[0] || (a[0] == b[0] && StrLe(a[1..], b[1..]))))
  }

  predicate KeyLe(a: Key, b: Key) {
    || a.priority < b.priority
    || (a.priority == b.priority && a.submitTime != b.submitTime && StrLe(a.submitTime, b.submitTime))
    || (a.priority == b.priority && a.submitTime == b.submitTime && StrLe(a.id, b.id))
  }

  lemma {:induction false} StrTotal(a: string, b: string)
    ensures StrLe(a, b) || StrLe(b, a)
    ensures StrLe(a, b) && StrLe(b, a) ==> a == b
  {
    if a != "" && b != "" && a[0] == b[0] {
      StrTotal(a[1..], b[1..]);
      assert a == [a[0]] + a[1..] && b == [b[0]] + b[1..];
    }
  }

  lemma {:induction false} StrTransitive(a: string, b: string, c: string)
    requires StrLe(a, b) && StrLe(b, c)
    ensures StrLe(a, c)
  {
    if a != "" && a[0] == b[0] == c[0] {
      StrTransitive(a[1..], b[1..], c[1..]);
    }
  }

  lemma KeyTotal(a: Key, b: Key)
    ensures KeyLe(a, b) || KeyLe(b, a)
  {
    StrTotal(a.submitTime, b.submitTime);
    StrTotal(a.id, b.id);
  }

  lemma KeyTransitive(a: Key, b: Key, c: Key)
    requires KeyLe(a, b) && KeyLe(b, c)
    ensures KeyLe(a, c)
  {
    if a.submitTime != b.submitTime && b.submitTime != c.submitTime && a.priority == b.priority == c.priority {
      StrTransitive(a.submitTime, b.submitTime, c.submitTime);
      StrTotal(a.submitTime, b.submitTime);
    }
    if a.submitTime == b.submitTime == c.submitTime && a.priority == b.priority == c.priority {
      StrTransitive(a.id, b.id, c.id);
    }
  }

  predicate Sorted(s: seq<Key>) {
    forall i, k :: 0 <= i < k < |s| ==> KeyLe(s[i], s[k])
  }

  /** `pending.sort()` */
  function Insert(s: seq<Key>, x: Key): (r: seq<Key>)
    ensures multiset(r) == multiset(s) + multiset{x}
  {
    if s == [] || KeyLe(x, s[0]) then [x] + s
    else assert s == [s[0]] + s[1..]; [s[0]] + Insert(s[1..], x)
  }

  function Sort(s: seq<Key>): (r: seq<Key>)
    ensures multiset(r) == multiset(s)
  {
    if s == [] then [] else assert s == [s[0]] + s[1..]; Insert(Sort(s[1..]), s[0])
  }

  lemma {:induction false} InsertSorted(s: seq<Key>, x: Key)
    requires Sorted(s)
    ensures Sorted(Insert(s, x))
  {
    if s != [] {
      KeyTotal(x, s[0]);
      if KeyLe(x, s[0]) {
        forall k | 0 <= k < |s| ensures KeyLe(x, s[k]) { if k > 0 { KeyTransitive(x, s[0], s[k]); } }
      } else {
        InsertSorted(s[1..], x);
        var r := Insert(s[1..], x);
        forall k | 0 <= k < |r| ensures KeyLe(s[0], r[k]) {
          assert r[k] in multiset(r);
          assert r[k] == x || r[k] in s[1..];
        }
      }
    }
  }

  lemma {:induction false} SortSorted(s: seq<Key>)
    ensures Sorted(Sort(s))
  {
    if s != [] {
      SortSorted(s[1..]);
      InsertSorted(Sort(s[1..]), s[0]);
    }
  }

  function KeyOf(jobs: map<JobId, Job>, j: JobId): Key
    requires j in jobs
  {
    Key(jobs[j].spec.priority, jobs[j].spec.submitTime, j)
  }

  predicate Awaiting(jobs: map<JobId, Job>, only: Option<set<JobId>>, j: JobId) {
    j in jobs && jobs[j].state.status.Pending? && (only.Some? ==> j in only.value)
  }

  predicate Before(jobs: map<JobId, Job>, i: JobId, j: JobId) {
    i in jobs && j in jobs && KeyLe(KeyOf(jobs, i), KeyOf(jobs, j))
  }

  /** `ids` lists the pending jobs in scope, each once, in the order in which they are tried. */
  ghost predicate Lineup(jobs: map<JobId, Job>, only: Option<set<JobId>>, ids: seq<JobId>) {
    && (forall j :: j in ids <==> Awaiting(jobs, only, j))
    && (forall i, k :: 0 <= i < k < |ids| ==> ids[i] != ids[k])
    && (forall i, k :: 0 <= i < k < |ids| ==> Before(jobs, ids[i], ids[k]))
  }

  function Ids(s: seq<Key>): seq<JobId> {
    seq(|s|, i requires 0 <= i < |s| => s[i].id)
  }

  lemma Distinct(s: seq<Key>, i: nat, k: nat)
    requires i < k < |s| && forall x :: multiset(s)[x] <= 1
    ensures s[i] != s[k]
  {
    assert s == s[..k] + s[k..];
    assert s[i] in multiset(s[..k]) && s[k] in multiset(s[k..]);
    assert multiset(s)[s[i]] == multiset(s[..k])[s[i]] + multiset(s[k..])[s[i]];
  }

  lemma SortKeeps(s: seq<Key>)
    ensures |Sort(s)| == |s| && (forall x :: x in Sort(s) <==> x in s)
  {
    assert |multiset(Sort(s))| == |multiset(s)|;
    forall x
      ensures x in Sort(s) <==> x in s
    {
      assert x in Sort(s) <==> x in multiset(Sort(s));
      assert x in s <==> x in multiset(s);
    }
  }

  /** Lexicographic order: a prefix, or smaller at the first character that differs. */
  ghost predicate LexLe(a: string, b: string) {
    a <= b || exists n :: 0 <= n < |a| && n < |b| && a[..n] == b[..n] && a[n] < b[n]
  }

  lemma LexTail(a: string, b: string)
    requires a != "" && b != "" && a[0] == b[0]
    ensures LexLe(a, b) <==> LexLe(a[1..], b[1..])
  {
    assert a == [a[0]] + a[1..] && b == [b[0]] + b[1..];
    if n :| 0 <= n < |a| - 1 && n < |b| - 1 && a[1..][..n] == b[1..][..n] && a[1..][n] < b[1..][n] {
      assert a[..n + 1] == [a[0]] + a[1..][..n] && b[..n + 1] == [b[0]] + b[1..][..n];
      assert a[n + 1] < b[n + 1];
    }
    if n :| 0 < n < |a| && n < |b| && a[..n] == b[..n] && a[n] < b[n] {
      assert a[1..][..n - 1] == a[..n][1..] && b[1..][..n - 1] == b[..n][1..];
      assert a[1..][n - 1] < b[1..][n - 1];
    }
  }

  lemma LexHead(a: string, b: string)
    requires a != "" && b != "" && a[0] != b[0]
    ensures LexLe(a, b) <==> a[0] < b[0]
  {
    if a[0] < b[0] { assert a[..0] == b[..0]; }
    if n :| 0 < n < |a| && n < |b| && a[..n] == b[..n] {
      assert a[..n][0] == b[..n][0];
    }
  }

  lemma {:induction false} StrLeIff(a: string, b: string)
    ensures StrLe(a, b) <==> LexLe(a, b)
  {
    if a != "" && b != "" {
      if a[0] == b[0] {
        LexTail(a, b);
        StrLeIff(a[1..], b[1..]);
      } else {
        LexHead(a, b);
      }
    }
  }

  /** The smaller priority goes first; then the earlier submit time, as text; then the smaller id. */
  ghost predicate InTurn(jobs: map<JobId, Job>, i: JobId, j: JobId) {
    && i in jobs && j in jobs
    && jobs[i].spec.priority <= jobs[j].spec.priority
    && (jobs[i].spec.priority == jobs[j].spec.priority ==> LexLe(jobs[i].spec.submitTime, jobs[j].spec.submitTime))
    && (jobs[i].spec.priority == jobs[j].spec.priority && jobs[i].spec.submitTime == jobs[j].spec.submitTime ==> LexLe(i, j))
  }

  ghost predicate Ordered(jobs: map<JobId, Job>, ids: seq<JobId>) {
    forall i, k :: 0 <= i < k < |ids| ==> InTurn(jobs, ids[i], ids[k])
  }

  lemma BeforeIff(jobs: map<JobId, Job>, i: JobId, j: JobId)
    ensures Before(jobs, i, j) <==> InTurn(jobs, i, j)
  {
    hide StrLe, LexLe;
    if i in jobs && j in jobs {
      StrLeIff(jobs[i].spec.submitTime, jobs[j].spec.submitTime);
      StrLeIff(i, j);
      StrTotal(jobs[i].spec.submitTime, jobs[i].spec.submitTime);
    }
  }

  /** What the line-up means for priorities, submit times and ids. */
  lemma LineupOrdered(jobs: map<JobId, Job>, only: Option<set<JobId>>, ids: seq<JobId>)
    requires Lineup(jobs, only, ids)
    ensures Ordered(jobs, ids)
  {
    hide Before, InTurn, Awaiting;
    forall i, k | 0 <= i < k < |ids|
      ensures InTurn(jobs, ids[i], ids[k])
    {
      BeforeIff(jobs, ids[i], ids[k]);
    }
  }

  /** Sorting the keys of the pending jobs yields the line-up. */
  lemma SortedLineup(jobs: map<JobId, Job>, only: Option<set<JobId>>, keys: seq<Key>)
    requires forall x :: multiset(keys)[x] <= 1
    requires forall x <- keys :: Awaiting(jobs, only, x.id) && x == KeyOf(jobs, x.id)
    requires forall j :: Awaiting(jobs, only, j) ==> KeyOf(jobs, j) in keys
    ensures Lineup(jobs, only, Ids(Sort(keys)))
  {
    hide Sort, KeyLe;
    var s := Sort(keys);
    SortSorted(keys);
    SortKeeps(keys);
    var ids := Ids(s);
    forall j | Awaiting(jobs, only, j)
      ensures j in ids
    {
      var i :| 0 <= i < |s| && s[i] == KeyOf(jobs, j);
      assert ids[i] == j;
    }
    forall i, k | 0 <= i < k < |ids|
      ensures ids[i] != ids[k] && Before(jobs, ids[i], ids[k])
    {
      Distinct(s, i, k);
      assert s[i] in keys && s[k] in keys;
    }
  }

  // ---------- The greedy pass ----------

  /** What happened to a job at its turn. */
  datatype Turn = Deferred | Unfit | Refused | Admitted

  /** Chips the turns before the `n`th took out of a pot. */
  ghost function Taken(cfg: Config, specs: map<JobId, JobSpec>, queue: seq<JobId>, turns: seq<Turn>, n: nat, p: Pot): nat
    requires n <= |turns| <= |queue| && forall j <- queue :: j in specs
  {
    if n == 0 then 0
    else Taken(cfg, specs, queue, turns, n - 1, p) + if turns[n - 1].Admitted? then SpecWeight(cfg, specs[queue[n - 1]], p) else 0
  }

  ghost predicate RoomAt(cfg: Config, specs: map<JobId, JobSpec>, base: map<JobId, Job>, queue: seq<JobId>, turns: seq<Turn>, n: nat, spec: JobSpec)
    requires n <= |turns| <= |queue| && forall j <- queue :: j in specs
  {
    var g := GroupOf(cfg, spec);
    var u := User(spec.submittedBy);
    Room(cfg, spec, MemUsage(cfg, base, g) + Taken(cfg, specs, queue, turns, n, g), MemUsage(cfg, base, u) + Taken(cfg, specs, queue, turns, n, u))
  }

  /** Each job is admitted, or refused by the backend, exactly if there was room at its turn. */
  ghost predicate GreedyPass(cfg: Config, specs: map<JobId, JobSpec>, base: map<JobId, Job>, queue: seq<JobId>, turns: seq<Turn>)
    requires forall j <- queue :: j in specs
  {
    |turns| <= |queue| && forall i {:trigger turns[i]} :: 0 <= i < |turns| ==> TurnOk(cfg, specs, base, queue, turns, i)
  }

  ghost predicate TurnOk(cfg: Config, specs: map<JobId, JobSpec>, base: map<JobId, Job>, queue: seq<JobId>, turns: seq<Turn>, i: nat)
    requires i < |turns| <= |queue| && forall j <- queue :: j in specs
  {
    !turns[i].Deferred? ==> (turns[i].Unfit? <==> !RoomAt(cfg, specs, base, queue, turns, i, specs[queue[i]]))
  }

  /** The group and user checks of the loop are `Admissible`, when the tallies are right. */
  lemma ChecksAdmit(cfg: Config, jobs: map<JobId, Job>, spec: JobSpec, byQuota: map<string, int>, byUser: map<string, int>)
    requires forall p: Pot :: Tally(byQuota, byUser, p) == MemUsage(cfg, jobs, p)
    requires ResourceOf(cfg, spec).Some? ==> ResourceOf(cfg, spec).value.quotaGroup in cfg.quotaGroups
    ensures Admissible(cfg, jobs, spec) <==>
              var r := ResourceOf(cfg, spec);
              && r.Some? && r.value.enabled
              && ChipsOf(byQuota, r.value.quotaGroup) + r.value.chips <= cfg.quotaGroups[r.value.quotaGroup]
              && (MaxChipsFor(cfg, spec.submittedBy).Some? ==>
                    ChipsOf(byUser, spec.submittedBy) + r.value.chips <= MaxChipsFor(cfg, spec.submittedBy).value)
  {
    hide MemUsage;
    assert Tally(byQuota, byUser, User(spec.submittedBy)) == ChipsOf(byUser, spec.submittedBy);
    if ResourceOf(cfg, spec).Some? {
      var g := ResourceOf(cfg, spec).value.quotaGroup;
      assert Tally(byQuota, byUser, Group(g)) == ChipsOf(byQuota, g);
    }
  }

  /** Room now is room in the model of the pass so far. */
  lemma RoomNow(cfg: Config, specs: map<JobId, JobSpec>, base: map<JobId, Job>, now: map<JobId, Job>, queue: seq<JobId>, turns: seq<Turn>, spec: JobSpec)
    requires |turns| <= |queue| && forall j <- queue :: j in specs
    requires forall p: Pot :: MemUsage(cfg, now, p) == MemUsage(cfg, base, p) + Taken(cfg, specs, queue, turns, |turns|, p)
    ensures Admissible(cfg, now, spec) <==> RoomAt(cfg, specs, base, queue, turns, |turns|, spec)
  {
  }

  lemma {:induction false} TakenGrows(cfg: Config, specs: map<JobId, JobSpec>, queue: seq<JobId>, turns: seq<Turn>, i: nat, k: nat, p: Pot)
    requires i <= k <= |turns| <= |queue| && forall j <- queue :: j in specs
    ensures Taken(cfg, specs, queue, turns, i, p) <= Taken(cfg, specs, queue, turns, k, p)
  {
    if i < k {
      TakenGrows(cfg, specs, queue, turns, i, k - 1, p);
    }
  }

  lemma {:induction false} TakenPrefix(cfg: Config, specs: map<JobId, JobSpec>, queue: seq<JobId>, turns: seq<Turn>, more: seq<Turn>, n: nat, p: Pot)
    requires n <= |turns| <= |more| <= |queue| && turns <= more && forall j <- queue :: j in specs
    ensures Taken(cfg, specs, queue, turns, n, p) == Taken(cfg, specs, queue, more, n, p)
  {
    if n > 0 {
      TakenPrefix(cfg, specs, queue, turns, more, n - 1, p);
      assert turns[n - 1] == more[n - 1];
    }
  }

  /** What the turn of job `j` did to memory. */
  ghost predicate TurnTaken(before: map<JobId, Job>, after: map<JobId, Job>, j: JobId, t: Turn) {
    if t.Admitted? then
      j in before && !Active(before[j].state) && after.Keys == before.Keys && after == before[j := after[j]]
      && Active(after[j].state) && after[j].spec == before[j].spec
    else after == before
  }

  lemma UsageStep(cfg: Config, specs: map<JobId, JobSpec>, base: map<JobId, Job>, before: map<JobId, Job>, after: map<JobId, Job>,
                  queue: seq<JobId>, turns: seq<Turn>, t: Turn)
    requires |turns| < |queue| && forall j <- queue :: j in specs
    requires TurnTaken(before, after, queue[|turns|], t)
    requires t.Admitted? ==> before[queue[|turns|]].spec == specs[queue[|turns|]]
    requires forall p: Pot :: MemUsage(cfg, before, p) == MemUsage(cfg, base, p) + Taken(cfg, specs, queue, turns, |turns|, p)
    ensures forall p: Pot :: MemUsage(cfg, after, p) == MemUsage(cfg, before, p) + if t.Admitted? then SpecWeight(cfg, specs[queue[|turns|]], p) else 0
    ensures forall p: Pot :: MemUsage(cfg, after, p) == MemUsage(cfg, base, p) + Taken(cfg, specs, queue, turns + [t], |turns| + 1, p)
  {
    hide MemUsage, SpecWeight;
    var j := queue[|turns|];
    forall p: Pot
      ensures MemUsage(cfg, after, p) == MemUsage(cfg, before, p) + if t.Admitted? then SpecWeight(cfg, specs[j], p) else 0
      ensures Taken(cfg, specs, queue, turns + [t], |turns| + 1, p) == Taken(cfg, specs, queue, turns, |turns|, p) + if t.Admitted? then SpecWeight(cfg, specs[j], p) else 0
    {
      TakenPrefix(cfg, specs, queue, turns, turns + [t], |turns|, p);
      if t.Admitted? { ActivateAdds(cfg, before, j, after[j], p); }
    }
  }

  /** One more turn, decided by the room there is now. */
  lemma GreedySnoc(cfg: Config, specs: map<JobId, JobSpec>, base: map<JobId, Job>, queue: seq<JobId>, turns: seq<Turn>, t: Turn)
    requires forall j <- queue :: j in specs
    requires GreedyPass(cfg, specs, base, queue, turns) && |turns| < |queue|
    requires !t.Deferred? ==> (t.Unfit? <==> !RoomAt(cfg, specs, base, queue, turns, |turns|, specs[queue[|turns|]]))
    ensures GreedyPass(cfg, specs, base, queue, turns + [t])
  {
    forall i | 0 <= i < |turns| + 1
      ensures TurnOk(cfg, specs, base, queue, turns + [t], i)
    {
      if i < |turns| { assert TurnOk(cfg, specs, base, queue, turns, i); }
      var spec := specs[queue[i]];
      var g := GroupOf(cfg, spec);
      TakenPrefix(cfg, specs, queue, turns, turns + [t], i, g);
      TakenPrefix(cfg, specs, queue, turns, turns + [t], i, User(spec.submittedBy));
    }
  }

  /** A job found unfit does not fit the final usage either. */
  lemma StillUnfit(cfg: Config, specs: map<JobId, JobSpec>, base: map<JobId, Job>, queue: seq<JobId>, turns: seq<Turn>, i: nat)
    requires forall j <- queue :: j in specs
    requires GreedyPass(cfg, specs, base, queue, turns) && |turns| == |queue| && i < |queue| && turns[i].Unfit?
    ensures !RoomAt(cfg, specs, base, queue, turns, |queue|, specs[queue[i]])
  {
    assert TurnOk(cfg, specs, base, queue, turns, i);
    var spec := specs[queue[i]];
    var g := GroupOf(cfg, spec);
    TakenGrows(cfg, specs, queue, turns, i, |queue|, g);
    TakenGrows(cfg, specs, queue, turns, i, |queue|, User(spec.submittedBy));
  }

  /** If a job was let through, so was every earlier enabled one of the same group and user that needs no more chips, unless a backoff deferred it. */
  lemma NoQueueJumping(cfg: Config, specs: map<JobId, JobSpec>, base: map<JobId, Job>, queue: seq<JobId>, turns: seq<Turn>, a: nat, b: nat)
    requires forall j <- queue :: j in specs
    requires GreedyPass(cfg, specs, base, queue, turns) && a < b < |turns|
    requires turns[b].Admitted? || turns[b].Refused?
    requires ResourceOf(cfg, specs[queue[a]]).Some? && ResourceOf(cfg, specs[queue[a]]).value.enabled
    requires ResourceOf(cfg, specs[queue[b]]).Some?
    requires ResourceOf(cfg, specs[queue[a]]).value.quotaGroup == ResourceOf(cfg, specs[queue[b]]).value.quotaGroup
    requires specs[queue[a]].submittedBy == specs[queue[b]].submittedBy
    requires ResourceOf(cfg, specs[queue[a]]).value.chips <= ResourceOf(cfg, specs[queue[b]]).value.chips
    ensures turns[a].Admitted? || turns[a].Refused? || turns[a].Deferred?
  {
    assert TurnOk(cfg, specs, base, queue, turns, a) && TurnOk(cfg, specs, base, queue, turns, b);
    var spec := specs[queue[a]];
    TakenGrows(cfg, specs, queue, turns, a, b, Group(ResourceOf(cfg, spec).value.quotaGroup));
    TakenGrows(cfg, specs, queue, turns, a, b, User(spec.submittedBy));
  }

  /** Two passes over the same queue that defer the same jobs and are refused the same creates admit the same jobs. */
  lemma {:induction false} GreedyDetermined(cfg: Config, specs: map<JobId, JobSpec>, base: map<JobId, Job>, queue: seq<JobId>,
                                            s: seq<Turn>, t: seq<Turn>, n: nat)
    requires forall j <- queue :: j in specs
    requires GreedyPass(cfg, specs, base, queue, s) && GreedyPass(cfg, specs, base, queue, t) && n <= |s| == |t|
    requires forall i :: 0 <= i < n ==> (s[i].Deferred? <==> t[i].Deferred?)
    requires forall i :: 0 <= i < n && !s[i].Unfit? && !t[i].Unfit? ==> (s[i].Refused? <==> t[i].Refused?)
    ensures s[..n] == t[..n]
  {
    hide RoomAt;
    if n > 0 {
      GreedyDetermined(cfg, specs, base, queue, s, t, n - 1);
      var i := n - 1;
      assert TurnOk(cfg, specs, base, queue, s, i) && TurnOk(cfg, specs, base, queue, t, i);
      SameRoom(cfg, specs, base, queue, s, t, i, specs[queue[i]]);
      assert s[i] == t[i];
      assert s[..n] == s[..i] + [s[i]] && t[..n] == t[..i] + [t[i]];
    }
  }

  lemma SameRoom(cfg: Config, specs: map<JobId, JobSpec>, base: map<JobId, Job>, queue: seq<JobId>, s: seq<Turn>, t: seq<Turn>, n: nat, spec: JobSpec)
    requires n <= |s| && n <= |t| && |s| <= |queue| && |t| <= |queue| && (forall j <- queue :: j in specs) && s[..n] == t[..n]
    ensures RoomAt(cfg, specs, base, queue, s, n, spec) <==> RoomAt(cfg, specs, base, queue, t, n, spec)
  {
    hide Taken, MemUsage, Room;
    SameTaken(cfg, specs, queue, s, t, n, GroupOf(cfg, spec));
    SameTaken(cfg, specs, queue, s, t, n, User(spec.submittedBy));
  }

  lemma {:induction false} SameTaken(cfg: Config, specs: map<JobId, JobSpec>, queue: seq<JobId>, s: seq<Turn>, t: seq<Turn>, n: nat, p: Pot)
    requires n <= |s| && n <= |t| && |s| <= |queue| && |t| <= |queue| && (forall j <- queue :: j in specs) && s[..n] == t[..n]
    ensures Taken(cfg, specs, queue, s, n, p) == Taken(cfg, specs, queue, t, n, p)
  {
    if n > 0 {
      assert s[..n - 1] == s[..n][..n - 1] == t[..n - 1];
      assert s[n - 1] == s[..n][n - 1] == t[n - 1];
      SameTaken(cfg, specs, queue, s, t, n - 1, p);
    }
  }

  function SpecsOf(jobs: map<JobId, Job>): map<JobId, JobSpec> {
    map j | j in jobs :: jobs[j].spec
  }

  /** How memory differs after the first turns of a pass: the admitted jobs got a queued resource, nothing else changed. */
  ghost predicate Scheduled(a: map<JobId, Job>, b: map<JobId, Job>, ids: seq<JobId>, turns: seq<Turn>)
    requires |turns| <= |ids| && forall j <- ids :: j in a
  {
    && b.Keys == a.Keys
    && (forall j <- a :: j !in ids[..|turns|] ==> b[j] == a[j])
    && (forall i {:trigger turns[i]} :: 0 <= i < |turns| ==> TurnDone(a, b, ids[i], turns[i]))
  }

  ghost predicate TurnDone(a: map<JobId, Job>, b: map<JobId, Job>, j: JobId, t: Turn)
    requires j in a && b.Keys == a.Keys
  {
    if t.Admitted? then GotQr(a[j], b[j]) else b[j] == a[j]
  }

  lemma ScheduledOn(a: map<JobId, Job>, b: map<JobId, Job>, c: map<JobId, Job>, only: Option<set<JobId>>, ids: seq<JobId>, turns: seq<Turn>, t: Turn)
    requires Lineup(a, only, ids) && |turns| < |ids| && Scheduled(a, b, ids, turns)
    requires c.Keys == b.Keys && forall j <- b :: j != ids[|turns|] ==> c[j] == b[j]
    requires ids[|turns|] in b && if t.Admitted? then GotQr(b[ids[|turns|]], c[ids[|turns|]]) else c == b
    ensures Scheduled(a, c, ids, turns + [t])
  {
    hide GotQr, KeyLe;
    var more := turns + [t];
    assert ids[..|more|] == ids[..|turns|] + [ids[|turns|]];
    assert ids[|turns|] in ids && ids[|turns|] !in ids[..|turns|];
    forall i | 0 <= i < |more|
      ensures ids[i] in a && TurnDone(a, c, ids[i], more[i])
    {
      assert ids[i] in ids;
      if i < |turns| { assert more[i] == turns[i]; }
    }
  }

  /** The state of a pass after some turns: what the loop of `schedule_pending_jobs` maintains. */
  ghost predicate MidPass(cfg: Config, base: map<JobId, Job>, now: map<JobId, Job>, only: Option<set<JobId>>, ids: seq<JobId>, turns: seq<Turn>) {
    && Lineup(base, only, ids) && |turns| <= |ids| && (forall j <- ids :: j in base)
    && Scheduled(base, now, ids, turns)
    && GreedyPass(cfg, SpecsOf(base), base, ids, turns)
    && (forall p: Pot :: MemUsage(cfg, now, p) == MemUsage(cfg, base, p) + Taken(cfg, SpecsOf(base), ids, turns, |turns|, p))
  }

  lemma PassStarts(cfg: Config, base: map<JobId, Job>, only: Option<set<JobId>>, ids: seq<JobId>)
    requires Lineup(base, only, ids)
    ensures MidPass(cfg, base, base, only, ids, [])
  {
    hide KeyLe, MemUsage;
  }

  /** The job whose turn it is has not been touched yet. */
  lemma NextUp(cfg: Config, base: map<JobId, Job>, now: map<JobId, Job>, only: Option<set<JobId>>, ids: seq<JobId>, turns: seq<Turn>)
    requires MidPass(cfg, base, now, only, ids, turns) && |turns| < |ids|
    ensures var j := ids[|turns|]; Awaiting(base, only, j) && j in now && now[j] == base[j]
  {
    hide KeyLe, MemUsage, GreedyPass;
    assert ids[|turns|] in ids && ids[|turns|] !in ids[..|turns|];
  }

  lemma PassOn(cfg: Config, base: map<JobId, Job>, before: map<JobId, Job>, after: map<JobId, Job>, only: Option<set<JobId>>,
               ids: seq<JobId>, turns: seq<Turn>, t: Turn)
    requires MidPass(cfg, base, before, only, ids, turns) && |turns| < |ids|
    requires TurnTaken(before, after, ids[|turns|], t)
    requires t.Admitted? ==> GotQr(before[ids[|turns|]], after[ids[|turns|]])
    requires ids[|turns|] in before
    requires !t.Deferred? ==> (t.Unfit? <==> !Admissible(cfg, before, before[ids[|turns|]].spec))
    ensures MidPass(cfg, base, after, only, ids, turns + [t])
    ensures forall p: Pot :: MemUsage(cfg, after, p) == MemUsage(cfg, before, p) + if t.Admitted? then SpecWeight(cfg, before[ids[|turns|]].spec, p) else 0
  {
    hide KeyLe, MemUsage, Lineup, GotQr, Scheduled, SpecWeight, GreedyPass, Admissible, RoomAt;
    var j := ids[|turns|];
    var specs := SpecsOf(base);
    NextUp(cfg, base, before, only, ids, turns);
    RoomNow(cfg, specs, base, before, ids, turns, specs[j]);
    GreedySnoc(cfg, specs, base, ids, turns, t);
    UsageStep(cfg, specs, base, before, after, ids, turns, t);
    ScheduledOn(base, before, after, only, ids, turns, t);
  }

  /** Every job found unfit is unfit still: nothing more would have been admitted. */
  lemma PassExhausted(cfg: Config, base: map<JobId, Job>, now: map<JobId, Job>, only: Option<set<JobId>>, ids: seq<JobId>, turns: seq<Turn>)
    requires MidPass(cfg, base, now, only, ids, turns) && |turns| == |ids|
    ensures forall i {:trigger turns[i]} :: 0 <= i < |turns| && turns[i].Unfit? ==> !Admissible(cfg, now, base[ids[i]].spec)
  {
    hide KeyLe, MemUsage, Scheduled, Admissible, RoomAt;
    var specs := SpecsOf(base);
    forall i | 0 <= i < |turns| && turns[i].Unfit?
      ensures !Admissible(cfg, now, base[ids[i]].spec)
    {
      StillUnfit(cfg, specs, base, ids, turns, i);
      RoomNow(cfg, specs, base, now, ids, turns, specs[ids[i]]);
    }
  }

  // ---------- Backoff after a refused create ----------

  /** A create attempt: when it was decided on and, if it failed, when that was known. */
  datatype Try = Try(job: JobId, at: int, failedAt: Option<int>)

  /** After a failed create, the next one for the same job waits out the delay. */
  ghost predicate Spaced(delay: int, tries: seq<Try>) {
    forall a, b :: 0 <= a < b < |tries| && tries[a].job == tries[b].job && tries[a].failedAt.Some? ==>
      tries[b].at >= tries[a].failedAt.value + delay
  }

  function NotBefore(notBefore: map<JobId, int>, j: JobId): int {
    if j in notBefore then notBefore[j] else 0
  }

  /** Only an unexpired backoff has deferred a job. */
  ghost predicate DeferredOnly(notBefore: map<JobId, int>, clock: int, ids: seq<JobId>, turns: seq<Turn>)
    requires |turns| <= |ids|
  {
    forall i {:trigger turns[i]} :: 0 <= i < |turns| && turns[i].Deferred? ==> NotBefore(notBefore, ids[i]) > clock
  }

  lemma NoTurnsYet(notBefore: map<JobId, int>, clock: int, ids: seq<JobId>, tries: seq<Try>)
    ensures DeferredOnly(notBefore, clock, ids, []) && AheadSame(notBefore, notBefore, ids, 0)
    ensures Log(tries[|tries|..]) == CreateCalls(ids, [])
  {
  }

  lemma DeferredOn(notBefore: map<JobId, int>, clock: int, ids: seq<JobId>, turns: seq<Turn>, t: Turn)
    requires |turns| < |ids| && DeferredOnly(notBefore, clock, ids, turns)
    requires t.Deferred? ==> NotBefore(notBefore, ids[|turns|]) > clock
    ensures DeferredOnly(notBefore, clock, ids, turns + [t])
  {
    hide NotBefore;
  }

  /** The backoffs of the jobs still to come are as they were. */
  ghost predicate AheadSame(a: map<JobId, int>, b: map<JobId, int>, ids: seq<JobId>, i: nat) {
    forall k :: i <= k < |ids| ==> NotBefore(b, ids[k]) == NotBefore(a, ids[k])
  }

  lemma AheadOn(a: map<JobId, int>, b: map<JobId, int>, c: map<JobId, int>, ids: seq<JobId>, i: nat)
    requires i < |ids| && AheadSame(a, b, ids, i) && forall k, l :: 0 <= k < l < |ids| ==> ids[k] != ids[l]
    requires forall j :: j != ids[i] ==> NotBefore(c, j) == NotBefore(b, j)
    ensures AheadSame(a, c, ids, i + 1) && NotBefore(b, ids[i]) == NotBefore(a, ids[i])
  {
    hide NotBefore;
  }

  ghost predicate Guarded(delay: int, notBefore: map<JobId, int>, t: Try, clock: int) {
    t.failedAt.Some? ==>
      || (t.job in notBefore && notBefore[t.job] >= t.failedAt.value + delay)
      || clock >= t.failedAt.value + delay
  }

  ghost predicate Paced(delay: int, notBefore: map<JobId, int>, tries: seq<Try>, clock: int) {
    Spaced(delay, tries) && forall t <- tries :: Guarded(delay, notBefore, t, clock)
  }

  /** The log of some tries: who, and whether it failed. */
  function Log(tries: seq<Try>): seq<(JobId, bool)> {
    seq(|tries|, i requires 0 <= i < |tries| => (tries[i].job, tries[i].failedAt.Some?))
  }

  /** The creates a pass made: one for each job that was let through. */
  function CreateCalls(ids: seq<JobId>, turns: seq<Turn>): seq<(JobId, bool)>
    requires |turns| <= |ids|
  {
    if turns == [] then []
    else
      var n := |turns| - 1;
      CreateCalls(ids, turns[..n]) + if turns[n].Admitted? || turns[n].Refused? then [(ids[n], turns[n].Refused?)] else []
  }

  lemma CallsSnoc(ids: seq<JobId>, turns: seq<Turn>, t: Turn)
    requires |turns| < |ids|
    ensures CreateCalls(ids, turns + [t]) == CreateCalls(ids, turns) + if t.Admitted? || t.Refused? then [(ids[|turns|], t.Refused?)] else []
  {
    assert (turns + [t])[..|turns|] == turns;
  }

  lemma LogOn(ids: seq<JobId>, turns: seq<Turn>, t: Turn, a: seq<Try>, b: seq<Try>, c: seq<Try>)
    requires |turns| < |ids| && a <= b <= c && Log(b[|a|..]) == CreateCalls(ids, turns)
    requires Log(c[|b|..]) == if t.Admitted? || t.Refused? then [(ids[|turns|], t.Refused?)] else []
    ensures Log(c[|a|..]) == CreateCalls(ids, turns + [t])
  {
    hide Log, CreateCalls;
    CallsSnoc(ids, turns, t);
    assert c[|a|..] == b[|a|..] + c[|b|..];
    LogConcat(b[|a|..], c[|b|..]);
  }

  lemma LogOne(tries: seq<Try>, t: Try)
    ensures Log((tries + [t])[|tries|..]) == [(t.job, t.failedAt.Some?)] && Log(tries[|tries|..]) == []
  {
  }

  lemma LogConcat(x: seq<Try>, y: seq<Try>)
    ensures Log(x + y) == Log(x) + Log(y)
  {
  }

  lemma PacedLater(delay: int, notBefore: map<JobId, int>, tries: seq<Try>, clock: int, later: int)
    requires Paced(delay, notBefore, tries, clock) && clock <= later
    ensures Paced(delay, notBefore, tries, later)
  {
  }

  lemma PacedTry(delay: int, notBefore: map<JobId, int>, tries: seq<Try>, j: JobId, now: int, failedAt: Option<int>)
    requires Paced(delay, notBefore, tries, now) && NotBefore(notBefore, j) <= now && (failedAt.Some? ==> now <= failedAt.value)
    ensures failedAt.None? ==> Paced(delay, notBefore - {j}, tries + [Try(j, now, None)], now)
    ensures failedAt.Some? ==> Paced(delay, notBefore[j := failedAt.value + delay], tries + [Try(j, now, failedAt)], failedAt.value)
  {
    var after := tries + [Try(j, now, failedAt)];
    forall a, b | 0 <= a < b < |after| && after[a].job == after[b].job && after[a].failedAt.Some?
      ensures after[b].at >= after[a].failedAt.value + delay
    {
      assert after[a] in tries;
    }
    forall t | t in tries
      ensures Guarded(delay, notBefore, t, now)
    {
    }
  }
}

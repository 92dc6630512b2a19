/** Heartbeats against the heartbeat timeout, in whole seconds and with uploads that take no time. */
module Timing {
  import opened Types
  import opened Protocol
  import opened Runs
  import opened Outcomes

  /** The interval the scheduler writes into the startup script. */
  function HeartbeatInterval(timeout: int): int {
    Max(30, Min(timeout / 3, 120))
  }

  /**
   The interval is a third of the timeout, rounded down, but neither under half a minute nor over two minutes; so three
   of them fit into the timeout exactly from 90 seconds on.
   */
  lemma ThreeFitIff(timeout: int)
    ensures var n := HeartbeatInterval(timeout);
            (timeout < 90 ==> n == 30) && (timeout >= 360 ==> n == 120) && (90 <= timeout < 360 ==> 3 * n <= timeout < 3 * n + 3)
    ensures 3 * HeartbeatInterval(timeout) <= timeout <==> timeout >= 90
  {
    assert 3 * (timeout / 3) <= timeout;
    if timeout >= 90 {
      assert timeout / 3 >= 30;
      assert HeartbeatInterval(timeout) <= timeout / 3;
    } else {
      assert HeartbeatInterval(timeout) >= 30;
    }
  }

  /** When the last upload that got through was made, if the uploads of the loop went like this. */
  function LastBeat(start: int, interval: int, ups: seq<bool>): Option<int> {
    if ups == [] then None
    else if ups[|ups| - 1] then Some(start + (|ups| - 1) * interval)
    else LastBeat(start, interval, ups[..|ups| - 1])
  }

  predicate NeverThreeLost(ups: seq<bool>) {
    forall i {:trigger ups[i]} :: 0 <= i && i + 2 < |ups| ==> ups[i] || ups[i + 1] || ups[i + 2]
  }

  /** When no three uploads in a row are lost, the marker is at most three intervals old when the next upload is made. */
  lemma FreshBeat(start: int, interval: int, ups: seq<bool>)
    requires NeverThreeLost(ups)
    ensures LastBeat(start, interval, ups).Some? && interval > 0 ==>
              start + |ups| * interval - LastBeat(start, interval, ups).value <= 3 * interval
    ensures LastBeat(start, interval, ups).None? ==> |ups| <= 2
  {
    var n := |ups|;
    assert n * interval == (n - 1) * interval + interval;
    assert n * interval == (n - 2) * interval + 2 * interval;
    assert n * interval == (n - 3) * interval + 3 * interval;
    if n > 1 && !ups[n - 1] {
      assert LastBeat(start, interval, ups) == LastBeat(start, interval, ups[..n - 1]);
      assert ups[..n - 1][..n - 2] == ups[..n - 2];
      if n > 2 && !ups[n - 2] {
        assert ups[n - 3];
        assert LastBeat(start, interval, ups[..n - 1]) == LastBeat(start, interval, ups[..n - 2]);
        assert LastBeat(start, interval, ups[..n - 2]) == Some(start + (n - 3) * interval);
      }
    }
  }

  /** `heartbeat_loop`: an upload, then a sleep; `ups` says which uploads got through, `last` is what the marker then says. */
  method HeartbeatLoop(start: int, interval: int, ups: seq<bool>) returns (now: int, last: Option<int>)
    requires interval > 0
    ensures now == start + |ups| * interval && last == LastBeat(start, interval, ups)
    // Up to the second before the next upload, the marker is less than three intervals old.
    ensures NeverThreeLost(ups) && last.Some? ==> now - 1 - last.value < 3 * interval
  {
    now, last := start, None;
    var i := 0;
    while i < |ups|
      invariant 0 <= i <= |ups| && now == start + i * interval
      invariant last == LastBeat(start, interval, ups[..i])
    {
      assert ups[..i + 1][..i] == ups[..i];
      if ups[i] {
        last := Some(now);
      }
      assert (i + 1) * interval == i * interval + interval;
      now := now + interval;
      i := i + 1;
    }
    assert ups[..i] == ups;
    if NeverThreeLost(ups) { FreshBeat(start, interval, ups); }
  }

  /** What the heartbeat marker of an attempt says. */
  function Beat(cfg: Config, marks: map<Mark, string>, j: JobId, s: JobState): Option<int> {
    var text := cfg.strip(OrElse(MarkText(marks, Scoped(j, s.currentAttempt + 1, Heartbeat)), ""));
    if text != "" then cfg.parseTime(text) else None
  }

  /** A beat at most two uploads old at `now`, that is, less than three intervals. */
  ghost predicate Beating(cfg: Config, marks: map<Mark, string>, j: JobId, s: JobState, now: int) {
    Beat(cfg, marks, j, s).Some? && now - Beat(cfg, marks, j, s).value < 3 * HeartbeatInterval(cfg.heartbeatTimeout)
  }

  /** With a timeout of at least 89 seconds, a claimed attempt that loses at most two uploads in a row is never charged for its heartbeat. */
  lemma BeatingIsNotLate(cfg: Config, marks: map<Mark, string>, j: JobId, s: JobState, now: int)
    requires cfg.heartbeatTimeout >= 89 && Beating(cfg, marks, j, s, now)
    ensures Timeout(cfg, marks, j, s, now, true).OnTime?
  {
    ThreeFitIff(cfg.heartbeatTimeout);
  }

  /** Below 89 seconds two lost uploads are too many: there is a moment at which such an attempt is charged. */
  lemma TooShortATimeout(cfg: Config, marks: map<Mark, string>, j: JobId, s: JobState) returns (now: int)
    requires cfg.heartbeatTimeout < 89 && Beat(cfg, marks, j, s).Some?
    requires Truthy(s.provisionedAt) && cfg.parseTime(s.provisionedAt.value).Some?
    ensures Beating(cfg, marks, j, s, now) && Timeout(cfg, marks, j, s, now, true).BeatLate?
  {
    now := Beat(cfg, marks, j, s).value + 3 * HeartbeatInterval(cfg.heartbeatTimeout) - 1;
    assert HeartbeatInterval(cfg.heartbeatTimeout) == 30 by { assert cfg.heartbeatTimeout / 3 < 30; }
  }

  /**
   While no upload has got through, the clock runs from the activation instead: a claimed attempt whose
   first uploads are lost is charged exactly if the timeout has passed since the queued resource was seen active.
   */
  lemma NoBeatYet(cfg: Config, marks: map<Mark, string>, j: JobId, s: JobState, now: int)
    requires Beat(cfg, marks, j, s).None? && Truthy(s.provisionedAt) && cfg.parseTime(s.provisionedAt.value).Some?
    ensures Timeout(cfg, marks, j, s, now, true).BeatLate? <==> now - cfg.parseTime(s.provisionedAt.value).value > cfg.heartbeatTimeout
  {
  }

  /** A claimed attempt is charged with ACTIVE_NO_CLAIM_TIMEOUT only through a probe that failed, which the scheduler cannot tell from an absent marker. */
  lemma ClaimedYetCharged(cfg: Config, c: Cloud, j: JobId, s: JobState, q: QrName, r: ResourceConfig, now: int, answered: bool)
    requires ClaimedMark(c, j, s)
    ensures Justified(cfg, c, j, s, q, r, NoClaim(now, answered)) <==>
              !answered && Sighted(c, q, QrActive) && s.status.Running? && Timeout(cfg, c.marks, j, s, now, false).ClaimLate?
  {
  }

  lemma ChargeEvidence(cfg: Config, r: Run, i: nat, j: JobId, why: Observation, text: string)
    requires GoodRun(cfg, r) && i < |r.labels| && r.labels[i] == BeginPreempt(j, why, text)
    ensures var s := r.states[i];
            && j in s.jobs && s.jobs[j].state.currentQrName.Some? && ResourceOf(cfg, s.jobs[j].spec).Some?
            && Justified(cfg, s.cloud, j, s.jobs[j].state, s.jobs[j].state.currentQrName.value, ResourceOf(cfg, s.jobs[j].spec).value, why)
  {
    hide Inv, Complete, Justified;
    assert Step(cfg, r.states[i], r.labels[i], r.states[i + 1]);
  }

  /**
   On every run: an attempt is charged for having no claim only once it has been active for longer than the time it
   has for that, and for its heartbeat only once it has been silent for longer than the heartbeat timeout.
   */
  lemma TimeoutsAreUp(cfg: Config, r: Run, i: nat, j: JobId, at: int, text: string, answered: bool)
    requires GoodRun(cfg, r) && i < |r.labels| && j in r.states[i].jobs
    ensures r.labels[i] == BeginPreempt(j, NoClaim(at, answered), text) ==>
              && PastClaiming(cfg, r.states[i].jobs[j].state, at)
              && (answered ==> Scoped(j, r.states[i].jobs[j].state.currentAttempt + 1, Claimed) !in r.states[i].cloud.marks)
    ensures r.labels[i] == BeginPreempt(j, LateHeartbeat(at), text) ==>
              FellSilent(cfg, r.states[i].cloud.marks, j, r.states[i].jobs[j].state, at)
  {
    hide Inv, Step, Timeout, Sighted, PastClaiming, FellSilent;
    TimeoutIff(cfg, r.states[i].cloud, j, r.states[i].jobs[j].state, at);
    if r.labels[i] == BeginPreempt(j, NoClaim(at, answered), text) { ChargeEvidence(cfg, r, i, j, NoClaim(at, answered), text); }
    if r.labels[i] == BeginPreempt(j, LateHeartbeat(at), text) { ChargeEvidence(cfg, r, i, j, LateHeartbeat(at), text); }
  }

  /**
   On every run: an attempt whose heartbeat loop started at `start` and has made the uploads `ups`, never losing
   three in a row, is not charged for its heartbeat up to its next upload, once one has got through, if the timeout
   is at least 89 seconds; before that it is charged only if the timeout has passed since its activation. And if it
   is claimed, it is charged for having no claim only through a probe that failed.
   */
  lemma BeatingNeverCharged(cfg: Config, r: Run, i: nat, j: JobId, at: int, text: string, start: int, ups: seq<bool>, answered: bool)
    requires GoodRun(cfg, r) && i < |r.labels| && j in r.states[i].jobs && cfg.heartbeatTimeout >= 89
    requires NeverThreeLost(ups) && at < start + |ups| * HeartbeatInterval(cfg.heartbeatTimeout)
    requires Beat(cfg, r.states[i].cloud.marks, j, r.states[i].jobs[j].state) == LastBeat(start, HeartbeatInterval(cfg.heartbeatTimeout), ups)
    ensures LastBeat(start, HeartbeatInterval(cfg.heartbeatTimeout), ups).Some? ==> r.labels[i] != BeginPreempt(j, LateHeartbeat(at), text)
    ensures r.labels[i] == BeginPreempt(j, LateHeartbeat(at), text) ==>
              var st := r.states[i].jobs[j].state;
              && |ups| <= 2 && Truthy(st.provisionedAt) && cfg.parseTime(st.provisionedAt.value).Some?
              && at - cfg.parseTime(st.provisionedAt.value).value > cfg.heartbeatTimeout
    ensures r.labels[i] == BeginPreempt(j, NoClaim(at, answered), text) && ClaimedMark(r.states[i].cloud, j, r.states[i].jobs[j].state) ==> !answered
  {
    hide Inv, Step, LastBeat, NeverThreeLost, HeartbeatInterval, Timeout, Beat, Sighted;
    var s, st := r.states[i], r.states[i].jobs[j].state;
    FreshBeat(start, HeartbeatInterval(cfg.heartbeatTimeout), ups);
    IntervalPositive(cfg.heartbeatTimeout);
    if r.labels[i] == BeginPreempt(j, LateHeartbeat(at), text) {
      ChargeEvidence(cfg, r, i, j, LateHeartbeat(at), text);
      if LastBeat(start, HeartbeatInterval(cfg.heartbeatTimeout), ups).Some? {
        BeatingIsNotLate(cfg, s.cloud.marks, j, st, at);
      } else {
        LateNeedsActivation(cfg, s.cloud.marks, j, st, at);
        NoBeatYet(cfg, s.cloud.marks, j, st, at);
      }
    }
    if r.labels[i] == BeginPreempt(j, NoClaim(at, answered), text) {
      ChargeEvidence(cfg, r, i, j, NoClaim(at, answered), text);
      if ClaimedMark(s.cloud, j, st) {
        ClaimedYetCharged(cfg, s.cloud, j, st, st.currentQrName.value, ResourceOf(cfg, s.jobs[j].spec).value, at, answered);
      }
    }
  }

  lemma IntervalPositive(timeout: int)
    ensures HeartbeatInterval(timeout) > 0
  {
  }

  lemma LateNeedsActivation(cfg: Config, marks: map<Mark, string>, j: JobId, s: JobState, now: int)
    requires Timeout(cfg, marks, j, s, now, true).BeatLate?
    ensures Truthy(s.provisionedAt) && cfg.parseTime(s.provisionedAt.value).Some?
  {
  }
}

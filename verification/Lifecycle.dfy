/** The transitions of one job's state record, and what every one of them keeps. */
module Lifecycle {
  import opened Types

  const INFRASTRUCTURE_PREEMPTION := "INFRASTRUCTURE_PREEMPTION"
  const APPLICATION_ERROR := "APPLICATION_ERROR"

  datatype Report = Report(
    failureType: string, message: string, phase: Option<string>, workerId: Option<int>, exitCode: Option<int>)

  /** `_parse_failure_report`: every missing or empty field falls back, so the message is never empty. */
  function ParseFailureReport(cfg: Config, text: string): (r: Report)
    ensures r.message != "" && r.failureType != ""
    // What the report says is kept; a text that says nothing reads as "FAILED".
    ensures var said := cfg.decodeReport(text).failureType; said.Some? && said.value != "" ==> r.failureType == said.value
    ensures var said := cfg.decodeReport(text).message;
            if said.Some? && said.value != "" then r.message == said.value else cfg.strip(text) == "" ==> r.message == "FAILED"
  {
    var raw := cfg.decodeReport(text);
    var stripped := cfg.strip(text);
    Report(OrElse(raw.failureType, APPLICATION_ERROR),
           OrElse(raw.message, if stripped != "" then stripped else "FAILED"),
           raw.phase, raw.workerId, raw.exitCode)
  }

  /** What the workers' markers say about the attempt in progress. */
  datatype Outcome = Undecided | Won | Lost(text: string)

  /** `_handle_preemption`, without its final write. */
  function Preempted(s: JobState, qr: QrName, now: string, error: string, maxAttempts: int): JobState {
    var attempt := s.currentAttempt + 1;
    s.(attempts := s.attempts + [AttemptRecord(attempt, qr, OrElse(s.provisionedAt, ""), now, Some(error),
                                   Some(INFRASTRUCTURE_PREEMPTION), Some(attempt < maxAttempts), None, None, None)],
       currentAttempt := attempt,
       provisionedAt := None, currentQrName := None, currentQrState := None,
       status := if attempt >= maxAttempts then Failed else Pending)
  }

  /** `_finish_job`, without its final write. */
  function Finished(cfg: Config, s: JobState, now: string, outcome: Outcome): JobState
    requires !outcome.Undecided?
  {
    var attempt := s.currentAttempt + 1;
    var record := if outcome.Won? then
        AttemptRecord(attempt, OrElse(s.currentQrName, ""), OrElse(s.provisionedAt, ""), now,
                      None, None, None, None, None, None)
      else
        var report := ParseFailureReport(cfg, outcome.text);
        AttemptRecord(attempt, OrElse(s.currentQrName, ""), OrElse(s.provisionedAt, ""), now,
                      Some(report.message), Some(report.failureType), Some(false),
                      report.phase, report.workerId, report.exitCode);
    s.(attempts := s.attempts + [record], currentAttempt := attempt,
       status := if outcome.Won? then Succeeded else Failed,
       currentQrName := None, currentQrState := None)
  }

  function CanceledState(s: JobState): JobState {
    s.(status := Canceled, currentQrName := None, currentQrState := None)
  }

  function Retried(s: JobState): JobState {
    s.(status := Pending, currentQrName := None, currentQrState := None)
  }

  function Provisioned(s: JobState, qr: QrName): JobState {
    s.(status := Provisioning, currentQrName := Some(qr), currentQrState := Some(QrWaiting))
  }

  function Activated(s: JobState, now: string): JobState {
    s.(status := Running, provisionedAt := Some(now))
  }

  /** What holds of every status record the scheduler keeps. */
  ghost predicate WellFormed(s: JobState, maxAttempts: int) {
    && 0 <= s.currentAttempt <= maxAttempts
    && (!Terminal(s.status) ==> s.currentAttempt < maxAttempts)
    && |s.attempts| == s.currentAttempt
    && (forall i :: 0 <= i < |s.attempts| ==> s.attempts[i].attempt == i + 1)
    && (Active(s) <==> s.currentQrName.Some?)
    && (s.currentQrName.Some? ==> s.currentQrName.value != "")
    && s.lastUpdated != ""
  }

  function Rank(status: JobStatus): nat {
    match status
    case Canceled => 0
    case Succeeded => 0
    case Running => 1
    case Provisioning => 2
    case Pending => 3
    case Failed => 4
  }

  function Measure(s: JobState, maxAttempts: int): int {
    5 * (maxAttempts - s.currentAttempt) + Rank(s.status)
  }

  /** The status changes a job may make. */
  predicate Edge(a: JobStatus, b: JobStatus) {
    match a
    case Pending => b.Provisioning? || b.Canceled?
    case Provisioning => b.Running? || b.Pending? || b.Failed? || b.Canceled?
    case Running => b.Succeeded? || b.Failed? || b.Pending? || b.Canceled?
    case Failed => b.Pending?
    case Succeeded => false
    case Canceled => false
  }

  /** How a later record of a job may differ from an earlier one after a single transition. */
  ghost predicate Progress(a: JobState, b: JobState, maxAttempts: int) {
    && a.attempts <= b.attempts
    && |b.attempts| <= |a.attempts| + 1
    && (b.status == a.status ==> b.attempts == a.attempts && b.currentAttempt == a.currentAttempt && b.currentQrName == a.currentQrName)
    && (b.status != a.status ==> Edge(a.status, b.status) && Measure(b, maxAttempts) < Measure(a, maxAttempts))
    && (|b.attempts| > |a.attempts| <==> Active(a) && !Active(b) && !b.status.Canceled?)
  }

  lemma PreemptedProgress(s: JobState, qr: QrName, now: string, error: string, maxAttempts: int)
    requires WellFormed(s, maxAttempts) && Active(s)
    ensures WellFormed(Preempted(s, qr, now, error, maxAttempts), maxAttempts)
    ensures Progress(s, Preempted(s, qr, now, error, maxAttempts), maxAttempts)
  {
  }

  lemma FinishedProgress(cfg: Config, s: JobState, now: string, outcome: Outcome, maxAttempts: int)
    requires WellFormed(s, maxAttempts) && s.status.Running? && !outcome.Undecided?
    ensures WellFormed(Finished(cfg, s, now, outcome), maxAttempts)
    ensures Progress(s, Finished(cfg, s, now, outcome), maxAttempts)
  {
  }

  /** The remaining transitions keep a record well formed and lower the measure whenever they change the status. */
  lemma SmallStepsProgress(s: JobState, qr: QrName, now: string, maxAttempts: int)
    requires WellFormed(s, maxAttempts) && now != "" && qr != ""
    ensures !Terminal(s.status) ==>
              WellFormed(CanceledState(s), maxAttempts) && Progress(s, CanceledState(s), maxAttempts)
    ensures s.status.Failed? && s.currentAttempt < maxAttempts ==>
              WellFormed(Retried(s), maxAttempts) && Progress(s, Retried(s), maxAttempts)
    ensures s.status.Pending? ==>
              WellFormed(Provisioned(s, qr), maxAttempts) && Progress(s, Provisioned(s, qr), maxAttempts)
    ensures s.status.Provisioning? ==>
              WellFormed(Activated(s, now), maxAttempts) && Progress(s, Activated(s, now), maxAttempts)
  {
  }

  lemma StampKeeps(s: JobState, now: string, maxAttempts: int)
    requires now != ""
    ensures WellFormed(s, maxAttempts) ==> WellFormed(s.(lastUpdated := now), maxAttempts)
    ensures Progress(s, s.(lastUpdated := now), maxAttempts)
  {
  }
}

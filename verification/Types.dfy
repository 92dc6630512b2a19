/** The records of `types.py` and `config.py`: jobs, attempts, resources and limits. */
module Types {

  datatype Option<+T> = None | Some(value: T)

  datatype Result<+T, +E> = Ok(value: T) | Err(error: E) {
    predicate IsFailure() {
      Err?
    }

    function PropagateFailure<U>(): Result<U, E>
      requires Err?
    {
      Err(error)
    }

    function Extract(): T
      requires Ok?
    {
      value
    }
  }

  type JobId = string
  type QrName = string

  datatype QRState = QrWaiting | QrProvisioning | QrActive | QrSuspending | QrSuspended | QrFailed

  datatype JobStatus = Pending | Provisioning | Running | Succeeded | Failed | Canceled

  predicate Terminal(status: JobStatus) {
    status.Succeeded? || status.Failed? || status.Canceled?
  }

  /** The part of a resource entry that the scheduler reads. */
  datatype ResourceConfig = ResourceConfig(
    name: string, zone: string, project: string,
    chips: nat, workers: int, enabled: bool, quotaGroup: string)

  datatype JobResources = JobResources(
    resourceName: string, acceleratorType: string, zone: string, project: string,
    chips: int, workers: int, runtimeVersion: string)

  datatype JobSpec = JobSpec(
    jobId: JobId, displayName: string, codeTarUrl: string, codeChecksum: string,
    command: string, setupCmd: string, resources: JobResources, maxAttempts: int,
    submitTime: string, submittedBy: string, priority: int,
    tags: seq<string>, envVars: map<string, string>, secretRefs: map<string, string>,
    runOnAllWorkers: bool)

  datatype AttemptRecord = AttemptRecord(
    attempt: int, qrName: QrName, startedAt: string, endedAt: string,
    error: Option<string>, failureType: Option<string>, retryable: Option<bool>,
    phase: Option<string>, workerId: Option<int>, exitCode: Option<int>)

  datatype JobState = JobState(
    status: JobStatus, currentAttempt: int, attempts: seq<AttemptRecord>,
    createdAt: string, lastUpdated: string,
    currentQrName: Option<QrName>, currentQrState: Option<QRState>, provisionedAt: Option<string>)

  datatype Job = Job(spec: JobSpec, state: JobState, bucket: string)

  function NewState(now: string): JobState {
    JobState(Pending, 0, [], now, now, None, None, None)
  }

  /** A record as `JobState.new` makes it. */
  predicate Blank(s: JobState) {
    s.createdAt != "" && s == NewState(s.createdAt)
  }

  predicate Active(s: JobState) {
    s.status.Provisioning? || s.status.Running?
  }

  /** Python's truth test on an optional string. */
  predicate Truthy(o: Option<string>) {
    o.Some? && o.value != ""
  }

  function OrElse(o: Option<string>, default: string): string {
    if Truthy(o) then o.value else default
  }

  function Max(a: int, b: int): int {
    if a >= b then a else b
  }

  function Min(a: int, b: int): int {
    if a <= b then a else b
  }

  /** What decoding a failure marker as JSON yields; every field is absent when the text is not an object. */
  datatype RawReport = RawReport(
    failureType: Option<string>, message: Option<string>, phase: Option<string>,
    workerId: Option<int>, exitCode: Option<int>)

  /**
   Configuration. `parseTime` stands for `_parse_time`, `decodeReport` for `json.loads` on a failure
   report and `strip` for `str.strip`; the model never looks inside them.
   */
  datatype Config = Config(
    resources: map<string, ResourceConfig>,
    quotaGroups: map<string, int>,
    defaultMaxChips: Option<int>, userMaxChips: map<string, Option<int>>,
    buckets: seq<string>,
    qrPrefix: string,
    createFailureBackoff: int, activeNoClaimTimeout: int, heartbeatTimeout: int, retentionSeconds: int,
    statusWriteInterval: int,
    parseTime: string -> Option<int>,
    decodeReport: string -> RawReport,
    strip: string -> string)

  /** `parse_config` rejects a resource whose quota group is unknown. */
  ghost predicate ConfigOk(cfg: Config) {
    && (forall r <- cfg.resources :: cfg.resources[r].quotaGroup in cfg.quotaGroups)
    && (forall r <- cfg.resources :: cfg.resources[r].chips > 0)
  }

  function ResourceOf(cfg: Config, spec: JobSpec): Option<ResourceConfig> {
    var name := spec.resources.resourceName;
    if name in cfg.resources then Some(cfg.resources[name]) else None
  }

  /** `UserLimitConfig.max_chips_for`: a user entry of `None` means unlimited. */
  function MaxChipsFor(cfg: Config, user: string): Option<int> {
    if user in cfg.userMaxChips then cfg.userMaxChips[user] else cfg.defaultMaxChips
  }
}

/** `to_dict` and `from_dict`: the JSON in which specs and records are kept. */
module Codec {
  import opened Types
  import opened Protocol
  import opened Safety

  datatype Json = JNull | JBool(b: bool) | JInt(i: int) | JStr(s: string) | JList(items: seq<Json>) | JObj(fields: map<string, Json>)

  datatype DecodeError = MissingKey(key: string) | BadValue | BadType

  /** Python's `str` and `int` on values that are not already of that type. */
  datatype Coercions = Coercions(text: Json -> string, number: Json -> Option<int>)

  type Dict = map<string, Json>

  // ---------- Reading single values ----------

  function Need(d: Dict, key: string): Result<Json, DecodeError> {
    if key in d then Ok(d[key]) else Err(MissingKey(key))
  }

  /** `data.get(key)` */
  function Get(d: Dict, key: string): Json {
    if key in d then d[key] else JNull
  }

  function Str(co: Coercions, j: Json): string {
    if j.JStr? then j.s else co.text(j)
  }

  function Int(co: Coercions, j: Json): Result<int, DecodeError> {
    if j.JInt? then Ok(j.i)
    else if j.JBool? then Ok(if j.b then 1 else 0)
    else if co.number(j).Some? then Ok(co.number(j).value)
    else Err(BadValue)
  }

  /** The truth value of an object. */
  function Truth(j: Json): bool {
    match j
    case JNull => false
    case JBool(b) => b
    case JInt(i) => i != 0
    case JStr(s) => s != ""
    case JList(items) => items != []
    case JObj(fields) => fields != map[]
  }

  function OrJson(j: Json, default: Json): Json {
    if Truth(j) then j else default
  }

  function OptionalStr(co: Coercions, j: Json): Option<string> {
    if j.JNull? then None else Some(Str(co, j))
  }

  function OptionalInt(co: Coercions, j: Json): Result<Option<int>, DecodeError> {
    if j.JNull? then Ok(None)
    else
      var i :- Int(co, j);
      Ok(Some(i))
  }

  function Strings(co: Coercions, items: seq<Json>): seq<string> {
    seq(|items|, i requires 0 <= i < |items| => Str(co, items[i]))
  }

  function StringMap(co: Coercions, fields: Dict): map<string, string> {
    map k | k in fields :: Str(co, fields[k])
  }

  function AsObj(j: Json): Result<Dict, DecodeError> {
    if j.JObj? then Ok(j.fields) else Err(BadType)
  }

  function AsList(j: Json): Result<seq<Json>, DecodeError> {
    if j.JList? then Ok(j.items) else Err(BadType)
  }

  // ---------- Writing single values ----------

  function OrNull(o: Option<string>): Json {
    if o.Some? then JStr(o.value) else JNull
  }

  function IntOrNull(o: Option<int>): Json {
    if o.Some? then JInt(o.value) else JNull
  }

  function BoolOrNull(o: Option<bool>): Json {
    if o.Some? then JBool(o.value) else JNull
  }

  function FromStrings(s: seq<string>): Json {
    JList(seq(|s|, i requires 0 <= i < |s| => JStr(s[i])))
  }

  function FromMap(m: map<string, string>): Json {
    JObj(map k | k in m :: JStr(m[k]))
  }

  // ---------- JobResources and JobSpec ----------

  function ResourcesToDict(r: JobResources): Dict {
    map["resource_name" := JStr(r.resourceName), "accelerator_type" := JStr(r.acceleratorType), "zone" := JStr(r.zone), "project" := JStr(r.project),
        "chips" := JInt(r.chips), "workers" := JInt(r.workers), "runtime_version" := JStr(r.runtimeVersion)]
  }

  function ResourcesFromDict(co: Coercions, d: Dict): Result<JobResources, DecodeError> {
    var name :- Need(d, "resource_name");
    var accelerator :- Need(d, "accelerator_type");
    var zone :- Need(d, "zone");
    var project :- Need(d, "project");
    var chips0 :- Need(d, "chips");
    var chips :- Int(co, chips0);
    var workers0 :- Need(d, "workers");
    var workers :- Int(co, workers0);
    var runtime :- Need(d, "runtime_version");
    Ok(JobResources(Str(co, name), Str(co, accelerator), Str(co, zone), Str(co, project), chips, workers, Str(co, runtime)))
  }

  function SpecToDict(s: JobSpec): Dict {
    map["job_id" := JStr(s.jobId), "display_name" := JStr(s.displayName), "code_tar_url" := JStr(s.codeTarUrl), "code_checksum" := JStr(s.codeChecksum),
        "command" := JStr(s.command), "setup_cmd" := JStr(s.setupCmd), "resources" := JObj(ResourcesToDict(s.resources)), "max_attempts" := JInt(s.maxAttempts),
        "submit_time" := JStr(s.submitTime), "submitted_by" := JStr(s.submittedBy), "priority" := JInt(s.priority), "tags" := FromStrings(s.tags),
        "env_vars" := FromMap(s.envVars), "secret_refs" := FromMap(s.secretRefs), "run_on_all_workers" := JBool(s.runOnAllWorkers)]
  }

  function SpecFromDict(co: Coercions, d: Dict): Result<JobSpec, DecodeError> {
    var id :- Need(d, "job_id");
    var tar :- Need(d, "code_tar_url");
    var checksum :- Need(d, "code_checksum");
    var resources0 :- Need(d, "resources");
    var resources1 :- AsObj(resources0);
    var resources :- ResourcesFromDict(co, resources1);
    var maxAttempts :- Int(co, if "max_attempts" in d then d["max_attempts"] else JInt(20));
    var submitTime :- Need(d, "submit_time");
    var priority :- Int(co, if "priority" in d then d["priority"] else JInt(1));
    var tags :- AsList(if "tags" in d then d["tags"] else JList([]));
    var env :- AsObj(if "env_vars" in d then d["env_vars"] else JObj(map[]));
    var secrets :- AsObj(if "secret_refs" in d then d["secret_refs"] else JObj(map[]));
    Ok(JobSpec(Str(co, id), Str(co, OrJson(Get(d, "display_name"), id)), Str(co, tar), Str(co, checksum),
               Str(co, OrJson(Get(d, "command"), JStr(""))), Str(co, OrJson(Get(d, "setup_cmd"), JStr(""))),
               resources, maxAttempts, Str(co, submitTime), Str(co, OrJson(Get(d, "submitted_by"), JStr("unknown"))), priority,
               Strings(co, tags), StringMap(co, env), StringMap(co, secrets),
               if "run_on_all_workers" in d then Truth(d["run_on_all_workers"]) else true))
  }

  // ---------- AttemptRecord and JobState ----------

  function RecordToDict(a: AttemptRecord): Dict {
    map["attempt" := JInt(a.attempt), "qr_name" := JStr(a.qrName), "started_at" := JStr(a.startedAt), "ended_at" := JStr(a.endedAt),
        "error" := OrNull(a.error), "failure_type" := OrNull(a.failureType), "retryable" := BoolOrNull(a.retryable), "phase" := OrNull(a.phase),
        "worker_id" := IntOrNull(a.workerId), "exit_code" := IntOrNull(a.exitCode)]
  }

  function RecordFromDict(co: Coercions, d: Dict): Result<AttemptRecord, DecodeError> {
    var attempt0 :- Need(d, "attempt");
    var attempt :- Int(co, attempt0);
    var worker :- OptionalInt(co, Get(d, "worker_id"));
    var exit :- OptionalInt(co, Get(d, "exit_code"));
    Ok(AttemptRecord(attempt, Str(co, OrJson(Get(d, "qr_name"), JStr(""))), Str(co, OrJson(Get(d, "started_at"), JStr(""))),
                     Str(co, OrJson(Get(d, "ended_at"), JStr(""))), OptionalStr(co, Get(d, "error")), OptionalStr(co, Get(d, "failure_type")),
                     if Get(d, "retryable").JNull? then None else Some(Truth(Get(d, "retryable"))),
                     OptionalStr(co, Get(d, "phase")), worker, exit))
  }

  function RecordsToList(a: seq<AttemptRecord>): seq<Json> {
    seq(|a|, i requires 0 <= i < |a| => JObj(RecordToDict(a[i])))
  }

  function RecordsFromList(co: Coercions, items: seq<Json>): Result<seq<AttemptRecord>, DecodeError> {
    if items == [] then Ok([])
    else
      var d :- AsObj(items[0]);
      var first :- RecordFromDict(co, d);
      var rest :- RecordsFromList(co, items[1..]);
      Ok([first] + rest)
  }

  function StatusText(s: JobStatus): string {
    match s
    case Pending => "PENDING"
    case Provisioning => "PROVISIONING"
    case Running => "RUNNING"
    case Succeeded => "SUCCEEDED"
    case Failed => "FAILED"
    case Canceled => "CANCELED"
  }

  function StatusOf(text: string): Result<JobStatus, DecodeError> {
    if text == "PENDING" then Ok(Pending)
    else if text == "PROVISIONING" then Ok(Provisioning)
    else if text == "RUNNING" then Ok(Running)
    else if text == "SUCCEEDED" then Ok(Succeeded)
    else if text == "FAILED" then Ok(Failed)
    else if text == "CANCELED" then Ok(Canceled)
    else Err(BadValue)
  }

  function QrStateText(s: QRState): string {
    match s
    case QrWaiting => "WAITING_FOR_RESOURCES"
    case QrProvisioning => "PROVISIONING"
    case QrActive => "ACTIVE"
    case QrSuspending => "SUSPENDING"
    case QrSuspended => "SUSPENDED"
    case QrFailed => "FAILED"
  }

  function QrStateOf(text: string): Result<QRState, DecodeError> {
    if text == "WAITING_FOR_RESOURCES" then Ok(QrWaiting)
    else if text == "PROVISIONING" then Ok(QrProvisioning)
    else if text == "ACTIVE" then Ok(QrActive)
    else if text == "SUSPENDING" then Ok(QrSuspending)
    else if text == "SUSPENDED" then Ok(QrSuspended)
    else if text == "FAILED" then Ok(QrFailed)
    else Err(BadValue)
  }

  /** `data.get(key)` where a string or nothing is kept. */
  function Plain(j: Json): Result<Option<string>, DecodeError> {
    if j.JNull? then Ok(None) else if j.JStr? then Ok(Some(j.s)) else Err(BadType)
  }

  function StateToDict(s: JobState): Dict {
    map["status" := JStr(StatusText(s.status)), "current_attempt" := JInt(s.currentAttempt), "attempts" := JList(RecordsToList(s.attempts)),
        "created_at" := JStr(s.createdAt), "last_updated" := JStr(s.lastUpdated), "current_qr_name" := OrNull(s.currentQrName),
        "current_qr_state" := if s.currentQrState.Some? then JStr(QrStateText(s.currentQrState.value)) else JNull,
        "provisioned_at" := OrNull(s.provisionedAt)]
  }

  function StateFromDict(co: Coercions, d: Dict): Result<JobState, DecodeError> {
    var status0 :- Need(d, "status");
    var status :- StatusOf(Str(co, status0));
    var current :- Int(co, if "current_attempt" in d then d["current_attempt"] else JInt(0));
    var attempts0 :- AsList(if "attempts" in d then d["attempts"] else JList([]));
    var attempts :- RecordsFromList(co, attempts0);
    var created :- Need(d, "created_at");
    var name :- Plain(Get(d, "current_qr_name"));
    var qrState0 :- Plain(Get(d, "current_qr_state"));
    var qrState :- if qrState0.None? then Ok(None) else QrStateWanted(qrState0.value);
    var provisioned :- Plain(Get(d, "provisioned_at"));
    Ok(JobState(status, current, attempts, Str(co, created), Str(co, OrJson(Get(d, "last_updated"), created)), name, qrState, provisioned))
  }

  function QrStateWanted(text: string): Result<Option<QRState>, DecodeError> {
    var st :- QrStateOf(text);
    Ok(Some(st))
  }

  // ---------- Round trips ----------

  /** What reading fills in for two fields left empty. */
  function Defaulted(s: JobSpec): JobSpec {
    s.(displayName := if s.displayName == "" then s.jobId else s.displayName,
       submittedBy := if s.submittedBy == "" then "unknown" else s.submittedBy)
  }

  lemma ResourcesRoundTrip(co: Coercions, r: JobResources)
    ensures ResourcesFromDict(co, ResourcesToDict(r)) == Ok(r)
    ensures var d := ResourcesToDict(r);
            && d.Keys == {"resource_name", "accelerator_type", "zone", "project", "chips", "workers", "runtime_version"}
            && d["resource_name"] == JStr(r.resourceName) && d["accelerator_type"] == JStr(r.acceleratorType) && d["zone"] == JStr(r.zone)
            && d["project"] == JStr(r.project) && d["chips"] == JInt(r.chips) && d["workers"] == JInt(r.workers)
            && d["runtime_version"] == JStr(r.runtimeVersion)
  {
  }

  lemma CollectionsRoundTrip(co: Coercions, s: seq<string>, m: map<string, string>)
    ensures AsList(FromStrings(s)).Ok? && Strings(co, AsList(FromStrings(s)).value) == s
    ensures AsObj(FromMap(m)).Ok? && StringMap(co, AsObj(FromMap(m)).value) == m
  {
  }

  const SPEC_KEYS: set<string> := {"job_id", "display_name", "code_tar_url", "code_checksum", "command", "setup_cmd", "resources", "max_attempts",
    "submit_time", "submitted_by", "priority", "tags", "env_vars", "secret_refs", "run_on_all_workers"}

  lemma SpecKeys(s: JobSpec)
    ensures SpecToDict(s).Keys == SPEC_KEYS
  {
    hide ResourcesToDict, FromStrings, FromMap;
  }

  lemma SpecTexts(s: JobSpec)
    requires SpecToDict(s).Keys == SPEC_KEYS
    ensures var d := SpecToDict(s);
            && d["job_id"] == JStr(s.jobId) && d["display_name"] == JStr(s.displayName) && d["code_tar_url"] == JStr(s.codeTarUrl)
            && d["code_checksum"] == JStr(s.codeChecksum) && d["command"] == JStr(s.command) && d["setup_cmd"] == JStr(s.setupCmd)
            && d["submit_time"] == JStr(s.submitTime) && d["submitted_by"] == JStr(s.submittedBy)
  {
    hide ResourcesToDict, FromStrings, FromMap;
  }

  lemma SpecOthers(s: JobSpec)
    requires SpecToDict(s).Keys == SPEC_KEYS
    ensures var d := SpecToDict(s);
            && d["resources"] == JObj(ResourcesToDict(s.resources)) && d["max_attempts"] == JInt(s.maxAttempts) && d["priority"] == JInt(s.priority)
            && d["tags"] == FromStrings(s.tags) && d["env_vars"] == FromMap(s.envVars) && d["secret_refs"] == FromMap(s.secretRefs)
            && d["run_on_all_workers"] == JBool(s.runOnAllWorkers)
  {
    hide ResourcesToDict, FromStrings, FromMap;
  }

  /** Writing a spec and reading it back fills in the two defaults and changes nothing else. */
  lemma SpecRoundTrip(co: Coercions, s: JobSpec)
    ensures SpecFromDict(co, SpecToDict(s)) == Ok(Defaulted(s))
  {
    hide SpecToDict, ResourcesFromDict, ResourcesToDict, Strings, StringMap, FromStrings, FromMap;
    SpecKeys(s);
    SpecTexts(s);
    SpecOthers(s);
    ResourcesRoundTrip(co, s.resources);
    CollectionsRoundTrip(co, s.tags, s.envVars);
    CollectionsRoundTrip(co, s.tags, s.secretRefs);
  }

  /** So a spec comes back as it was exactly if it has a display name, or no id, and somebody submitted it. */
  lemma SpecRoundTripIff(co: Coercions, s: JobSpec)
    ensures SpecFromDict(co, SpecToDict(s)) == Ok(s) <==> (s.displayName != "" || s.jobId == "") && s.submittedBy != ""
  {
    hide SpecFromDict, SpecToDict;
    SpecRoundTrip(co, s);
  }

  lemma RecordRoundTrip(co: Coercions, a: AttemptRecord)
    ensures RecordFromDict(co, RecordToDict(a)) == Ok(a)
    // Which field is kept under which name
    ensures var d := RecordToDict(a);
            && d.Keys == {"attempt", "qr_name", "started_at", "ended_at", "error", "failure_type", "retryable", "phase", "worker_id", "exit_code"}
            && d["attempt"] == JInt(a.attempt) && d["qr_name"] == JStr(a.qrName)
            && d["started_at"] == JStr(a.startedAt) && d["ended_at"] == JStr(a.endedAt)
            && (a.error.Some? ==> d["error"] == JStr(a.error.value)) && (a.failureType.Some? ==> d["failure_type"] == JStr(a.failureType.value))
            && (a.retryable.Some? ==> d["retryable"] == JBool(a.retryable.value)) && (a.phase.Some? ==> d["phase"] == JStr(a.phase.value))
            && (a.workerId.Some? ==> d["worker_id"] == JInt(a.workerId.value)) && (a.exitCode.Some? ==> d["exit_code"] == JInt(a.exitCode.value))
  {
  }

  lemma {:induction false} RecordsRoundTrip(co: Coercions, a: seq<AttemptRecord>)
    ensures RecordsFromList(co, RecordsToList(a)) == Ok(a)
  {
    hide RecordFromDict, RecordToDict;
    if a != [] {
      RecordRoundTrip(co, a[0]);
      RecordsRoundTrip(co, a[1..]);
      assert RecordsToList(a)[1..] == RecordsToList(a[1..]);
      assert a == [a[0]] + a[1..];
    }
  }

  lemma StatusRoundTrip(s: JobStatus, q: QRState)
    ensures StatusOf(StatusText(s)) == Ok(s) && QrStateOf(QrStateText(q)) == Ok(q)
    ensures StatusOf("PENDING") == Ok(Pending) && StatusOf("PROVISIONING") == Ok(Provisioning) && StatusOf("RUNNING") == Ok(Running)
    ensures StatusOf("SUCCEEDED") == Ok(Succeeded) && StatusOf("FAILED") == Ok(JobStatus.Failed) && StatusOf("CANCELED") == Ok(Canceled)
    ensures QrStateOf("WAITING_FOR_RESOURCES") == Ok(QrWaiting) && QrStateOf("PROVISIONING") == Ok(QrProvisioning) && QrStateOf("ACTIVE") == Ok(QrActive)
    ensures QrStateOf("SUSPENDING") == Ok(QrSuspending) && QrStateOf("SUSPENDED") == Ok(QrSuspended) && QrStateOf("FAILED") == Ok(QrFailed)
  {
  }

  /** A record comes back as it was exactly if it has been stamped, or was created at no time. */
  lemma StateRoundTrip(co: Coercions, s: JobState)
    ensures StateFromDict(co, StateToDict(s)) == Ok(s.(lastUpdated := if s.lastUpdated == "" then s.createdAt else s.lastUpdated))
    ensures StateFromDict(co, StateToDict(s)) == Ok(s) <==> s.lastUpdated != "" || s.createdAt == ""
  {
    hide RecordsFromList, RecordsToList, StatusOf, StatusText, QrStateOf, QrStateText;
    RecordsRoundTrip(co, s.attempts);
    StatusRoundTrip(s.status, if s.currentQrState.Some? then s.currentQrState.value else QrActive);
  }

  /** Python's `str` of anything but a string is never empty. */
  ghost predicate Talks(co: Coercions) {
    forall j: Json :: !j.JStr? ==> co.text(j) != ""
  }

  /** What has been read once, defaults and all, survives being written and read from then on. */
  lemma ReadOnceStable(co: Coercions, d: Dict, e: Dict)
    requires Talks(co)
    ensures SpecFromDict(co, d).Ok? ==> SpecFromDict(co, SpecToDict(SpecFromDict(co, d).value)) == SpecFromDict(co, d)
    ensures StateFromDict(co, e).Ok? ==> StateFromDict(co, StateToDict(StateFromDict(co, e).value)) == StateFromDict(co, e)
  {
    if SpecFromDict(co, d).Ok? {
      ReadSpecFilled(co, d);
      hide SpecFromDict, SpecToDict;
      SpecRoundTripIff(co, SpecFromDict(co, d).value);
    }
    if StateFromDict(co, e).Ok? {
      ReadStateFilled(co, e);
      hide StateFromDict, StateToDict;
      StateRoundTrip(co, StateFromDict(co, e).value);
    }
  }

  lemma ReadSpecFilled(co: Coercions, d: Dict)
    requires Talks(co) && SpecFromDict(co, d).Ok?
    ensures var s := SpecFromDict(co, d).value; (s.displayName != "" || s.jobId == "") && s.submittedBy != ""
  {
    hide ResourcesFromDict, Strings, StringMap, AsList, AsObj;
  }

  lemma ReadStateFilled(co: Coercions, d: Dict)
    requires Talks(co) && StateFromDict(co, d).Ok?
    ensures var s := StateFromDict(co, d).value; s.lastUpdated != "" || s.createdAt == ""
  {
    hide RecordsFromList, StatusOf, QrStateOf, AsList;
  }

  /** What a missing or empty field of a spec reads as. */
  lemma SpecDefaults(co: Coercions, d: Dict)
    requires SpecFromDict(co, d).Ok?
    ensures {"job_id", "code_tar_url", "code_checksum", "resources", "submit_time"} <= d.Keys
    ensures var s := SpecFromDict(co, d).value;
            && ("max_attempts" !in d ==> s.maxAttempts == 20) && ("priority" !in d ==> s.priority == 1)
            && ("display_name" !in d ==> s.displayName == s.jobId) && ("submitted_by" !in d ==> s.submittedBy == "unknown")
            && ("command" !in d ==> s.command == "") && ("setup_cmd" !in d ==> s.setupCmd == "")
            && ("tags" !in d ==> s.tags == []) && ("env_vars" !in d ==> s.envVars == map[]) && ("secret_refs" !in d ==> s.secretRefs == map[])
            && ("run_on_all_workers" !in d ==> s.runOnAllWorkers)
            // What is there reads by its truth value, and a truth value as a number.
            && ("run_on_all_workers" in d ==>
                  (s.runOnAllWorkers <==> d["run_on_all_workers"] !in {JNull, JBool(false), JInt(0), JStr(""), JList([]), JObj(map[])}))
            && ("priority" in d && d["priority"].JInt? ==> s.priority == d["priority"].i)
            && ("priority" in d && d["priority"].JBool? ==> s.priority == if d["priority"].b then 1 else 0)
  {
    hide ResourcesFromDict;
  }

  /** The fields under which a record is kept. */
  lemma RecordFields(s: JobState)
    ensures var d := StateToDict(s);
            && d.Keys == {"status", "current_attempt", "attempts", "created_at", "last_updated", "current_qr_name", "current_qr_state", "provisioned_at"}
            && d["current_attempt"] == JInt(s.currentAttempt) && d["created_at"] == JStr(s.createdAt) && d["last_updated"] == JStr(s.lastUpdated)
            && (s.currentQrName.Some? ==> d["current_qr_name"] == JStr(s.currentQrName.value))
            && (s.provisionedAt.Some? ==> d["provisioned_at"] == JStr(s.provisionedAt.value))
            && d["status"].JStr? && StatusOf(d["status"].s) == Ok(s.status)
            && (s.currentQrState.Some? ==> d["current_qr_state"].JStr? && QrStateOf(d["current_qr_state"].s) == Ok(s.currentQrState.value))
  {
    hide RecordsToList, QrStateOf, StatusOf, QrStateText, StatusText;
    StatusRoundTrip(s.status, if s.currentQrState.Some? then s.currentQrState.value else QrActive);
  }

  // ---------- The two listings ----------

  /** One row of `scheduler_state.json` and of the slow scan. */
  function Row(j: JobId, bucket: string, spec: JobSpec, state: JobState): Json {
    JObj(map["job_id" := JStr(j), "bucket" := JStr(bucket), "job_dir" := JStr(bucket + "/jobs/" + j),
             "spec" := JObj(SpecToDict(spec)), "state" := JObj(StateToDict(state))])
  }

  /** `_scan_jobs` on one job: the stored JSON is decoded and encoded again. */
  function SlowRow(co: Coercions, j: JobId, bucket: string, spec: Dict, status: Dict): Result<Json, DecodeError> {
    var s :- SpecFromDict(co, spec);
    var st :- StateFromDict(co, status);
    Ok(Row(j, bucket, s, st))
  }

  /**
   For every job whose record has been written, a slow scan of the stored JSON yields the row of that record; and the
   row the scheduler caches is the same, unless nobody has worked on the job yet and its submitter wrote the record.
   */
  lemma ListingsAgree(co: Coercions, cfg: Config, s: Sys, j: JobId, spec: Dict)
    requires Talks(co) && Inv(cfg, s) && s.pc.Idle? && j in s.jobs && j in s.cloud.status
    requires SpecFromDict(co, spec) == Ok(s.cloud.dirs[j].spec)
    ensures SlowRow(co, j, s.cloud.dirs[j].bucket, spec, StateToDict(s.cloud.status[j])) == Ok(Row(j, s.jobs[j].bucket, s.jobs[j].spec, s.cloud.status[j]))
    ensures s.jobs[j].state == s.cloud.status[j] || (Blank(s.jobs[j].state) && Blank(s.cloud.status[j]))
    // From the cached row the job's directory, spec and record can be read back.
    ensures ReadsBack(co, Row(j, s.jobs[j].bucket, s.jobs[j].spec, s.jobs[j].state), j, s.cloud.dirs[j].bucket, s.cloud.dirs[j].spec, s.jobs[j].state)
  {
    hide SpecFromDict, StateFromDict, SpecToDict, StateToDict, JobInv;
    AtRestMirrors(cfg, s);
    assert MirrorsJob(s.jobs[j], s.cloud, j);
    assert Owns(cfg, s.cloud, j, s.cloud.dirs[j].spec, s.cloud.status[j]);
    StateRoundTrip(co, s.cloud.status[j]);
    StateRoundTrip(co, s.jobs[j].state);
    ReadSpecFilled(co, spec);
    SpecRoundTripIff(co, s.cloud.dirs[j].spec);
  }

  ghost predicate ReadsBack(co: Coercions, row: Json, j: JobId, bucket: string, spec: JobSpec, state: JobState) {
    && row.JObj? && row.fields.Keys == {"job_id", "bucket", "job_dir", "spec", "state"}
    && row.fields["job_id"] == JStr(j) && row.fields["bucket"] == JStr(bucket) && row.fields["job_dir"] == JStr(bucket + "/jobs/" + j)
    && row.fields["spec"].JObj? && SpecFromDict(co, row.fields["spec"].fields) == Ok(spec)
    && row.fields["state"].JObj? && StateFromDict(co, row.fields["state"].fields) == Ok(state)
  }
}

/**
 The object store and the TPU API as the scheduler sees them, with the semantics of `DryRunBackend`.
 Every call that changes something first lets the environment move; `mid` is where it left the cloud.
 */
module Backends {
  import opened Types
  import opened Protocol
  import opened Runs

  /** `GCSReadResult`/`GCSListResult`: a missing object is a successful read of nothing. */
  datatype ReadResult<+T> = ReadResult(content: Option<T>, succeeded: bool)

  datatype TpuVmStatus = TpuVmStatus(state: Option<string>, health: Option<string>)

  function TickState(st: QRState, due: bool): QRState {
    if st.QrWaiting? && due then QrActive else if st.QrSuspending? then QrSuspended else st
  }

  class Backend {
    const cfg: Config
    /** No call fails for reasons of its own. */
    const reliable: bool
    /** The environment stands still. */
    const quiet: bool
    var cloud: Cloud
    var clock: int
    /** `scheduler_state.json`, the cached listing. */
    var listing: Option<map<JobId, Job>>

    constructor (cfg: Config, cloud: Cloud, reliable: bool, quiet: bool, clock: int)
      ensures this.cfg == cfg && this.cloud == cloud && this.reliable == reliable && this.quiet == quiet && this.clock == clock
    {
      this.cfg, this.cloud, this.reliable, this.quiet, this.clock, this.listing := cfg, cloud, reliable, quiet, clock, None;
    }

    /** Users, workers and the cloud move. */
    method Stir() returns (ghost mid: Cloud)
      modifies this`cloud
      ensures EnvRel(cfg, old(cloud), mid) && cloud == mid
      ensures quiet ==> mid == old(cloud)
    {
      assert EnvRel(cfg, cloud, cloud);
      if !quiet {
        var next: Cloud :| EnvRel(cfg, cloud, next);
        cloud := next;
      }
      mid := cloud;
    }

    /** `DryRunBackend.force_active` and `force_preempt`: a queued resource changes state. It is a move of the environment. */
    method Force(q: QrName, st: QRState)
      requires q in cloud.qrs && q in cloud.sightings
      modifies this`cloud
      ensures EnvRel(cfg, old(cloud), cloud) && cloud.sightings.Keys == old(cloud).sightings.Keys
      ensures cloud.qrs == old(cloud).qrs[q := old(cloud).qrs[q].(state := st)]
    {
      hide SpecOk;
      cloud := cloud.(qrs := cloud.qrs[q := cloud.qrs[q].(state := st)], sightings := cloud.sightings[q := cloud.sightings[q] + {st}]);
    }

    /** `DryRunBackend.tick`: resources whose delay is over become active, suspending ones suspended. */
    method Tick(due: set<QrName>)
      requires cloud.qrs.Keys <= cloud.sightings.Keys
      modifies this`cloud
      ensures EnvRel(cfg, old(cloud), cloud)
      ensures cloud.qrs.Keys == old(cloud).qrs.Keys
      ensures forall q <- cloud.qrs ::
                var was, now := old(cloud).qrs[q], cloud.qrs[q];
                && now.project == was.project && now.zone == was.zone
                && (was.state.QrWaiting? && q in due ==> now.state.QrActive?)
                && (was.state.QrSuspending? ==> now.state.QrSuspended?)
                && (!(was.state.QrWaiting? && q in due) && !was.state.QrSuspending? ==> now == was)
    {
      hide EnvRel;
      var todo := cloud.qrs.Keys;
      EnvReflexive(cfg, cloud);
      while todo != {}
        invariant todo <= cloud.qrs.Keys == old(cloud).qrs.Keys && cloud.sightings.Keys == old(cloud).sightings.Keys
        invariant EnvRel(cfg, old(cloud), cloud)
        invariant forall q <- cloud.qrs ::
                    cloud.qrs[q] == if q in todo then old(cloud).qrs[q] else old(cloud).qrs[q].(state := TickState(old(cloud).qrs[q].state, q in due))
      {
        var q :| q in todo;
        todo := todo - {q};
        ghost var c := cloud;
        Force(q, TickState(cloud.qrs[q].state, q in due));
        EnvTransitive(cfg, old(cloud), c, cloud);
      }
    }

    /** A non-decreasing clock. */
    method Now() returns (now: int)
      modifies this`clock
      ensures now == clock && old(clock) <= clock
    {
      var later: int := *;
      if later > clock { clock := later; }
      now := clock;
    }

    /** `utc_now`: some non-empty text. */
    method UtcNow() returns (text: string)
      ensures text != ""
    {
      text := *;
      if text == "" { text := "1970-01-01T00:00:00Z"; }
    }

    // ---------- Reads ----------

    method ListJobs(bucket: string) returns (r: ReadResult<set<JobId>>)
      ensures r.succeeded ==> r.content == Some(set j | j in cloud.dirs && cloud.dirs[j].bucket == bucket)
      ensures reliable ==> r.succeeded
    {
      var fail: bool := *;
      r := if fail && !reliable then ReadResult(None, false)
           else ReadResult(Some(set j | j in cloud.dirs && cloud.dirs[j].bucket == bucket), true);
    }

    /** A read or parse failure is one outcome: both make the load fail. */
    method ReadSpec(j: JobId) returns (r: ReadResult<JobSpec>)
      ensures r.succeeded ==> r.content == if j in cloud.dirs then Some(cloud.dirs[j].spec) else None
      ensures reliable ==> r.succeeded
    {
      var fail: bool := *;
      r := if fail && !reliable then ReadResult(None, false)
           else ReadResult(if j in cloud.dirs then Some(cloud.dirs[j].spec) else None, true);
    }

    method ReadStatus(j: JobId) returns (r: ReadResult<JobState>)
      ensures r.succeeded ==> r.content == if j in cloud.status then Some(cloud.status[j]) else None
      ensures reliable ==> r.succeeded
    {
      var fail: bool := *;
      r := if fail && !reliable then ReadResult(None, false)
           else ReadResult(if j in cloud.status then Some(cloud.status[j]) else None, true);
    }

    /** `exists_gcs`: a failed probe answers false. */
    method Exists(m: Mark) returns (found: bool, ghost answered: bool)
      ensures found ==> m in cloud.marks
      ensures answered ==> found == (m in cloud.marks)
      ensures reliable ==> answered
    {
      var fail: bool := *;
      answered := !fail || reliable;
      found := (!fail || reliable) && m in cloud.marks;
    }

    /** `read_gcs`: a failed read answers nothing, like an absent marker. */
    method ReadMark(m: Mark) returns (text: Option<string>, ghost answered: bool)
      ensures text == if answered then MarkText(cloud.marks, m) else None
      ensures text.Some? ==> text == MarkText(cloud.marks, m)
      ensures reliable ==> answered && text == MarkText(cloud.marks, m)
    {
      var fail: bool := *;
      answered := !fail || reliable;
      text := if fail && !reliable then None else MarkText(cloud.marks, m);
    }

    method ReadMarkResult(m: Mark) returns (r: ReadResult<string>)
      ensures r.succeeded ==> r.content == MarkText(cloud.marks, m)
      ensures reliable ==> r.succeeded
    {
      var fail: bool := *;
      r := if fail && !reliable then ReadResult(None, false) else ReadResult(MarkText(cloud.marks, m), true);
    }

    /** A failed describe call reads as a missing queued resource. */
    method GetQueuedResourceState(q: QrName, r: ResourceConfig) returns (st: Option<QRState>, ghost answered: bool)
      ensures st.Some? ==> q in cloud.qrs && cloud.qrs[q].project == r.project && cloud.qrs[q].zone == r.zone && st.value == cloud.qrs[q].state
      ensures st.None? && answered ==> !Found(cloud, q, r)
      ensures reliable ==> answered
    {
      var fail: bool := *;
      answered := !fail || reliable;
      st := if (!fail || reliable) && Found(cloud, q, r) then Some(cloud.qrs[q].state) else None;
    }

    method GetTpuVmStatus(q: QrName, r: ResourceConfig) returns (vm: TpuVmStatus)
    {
      vm := *;
    }

    method ListQueuedResources(project: string, zone: string, prefix: string) returns (names: set<QrName>)
      ensures forall q <- names :: q in cloud.qrs && cloud.qrs[q].project == project && cloud.qrs[q].zone == zone && prefix <= q
      ensures reliable ==> forall q <- cloud.qrs ::
                cloud.qrs[q].project == project && cloud.qrs[q].zone == zone && prefix <= q ==> q in names
    {
      var fail: bool := *;
      names := if fail && !reliable then {}
               else set q | q in cloud.qrs && cloud.qrs[q].project == project && cloud.qrs[q].zone == zone && prefix <= q;
    }

    // ---------- Writes ----------

    method WriteStatus(j: JobId, st: JobState) returns (ghost mid: Cloud)
      modifies this`cloud
      ensures EnvRel(cfg, old(cloud), mid) && (quiet ==> mid == old(cloud))
      ensures cloud == mid.(status := mid.status[j := st])
    {
      mid := Stir();
      cloud := cloud.(status := cloud.status[j := st]);
    }

    method WriteMark(m: Mark, text: string) returns (ghost mid: Cloud)
      modifies this`cloud
      ensures EnvRel(cfg, old(cloud), mid) && (quiet ==> mid == old(cloud))
      ensures cloud == mid.(marks := mid.marks[m := text])
    {
      mid := Stir();
      cloud := cloud.(marks := cloud.marks[m := text]);
    }

    method DeleteMark(m: Mark) returns (ghost mid: Cloud)
      modifies this`cloud
      ensures EnvRel(cfg, old(cloud), mid) && (quiet ==> mid == old(cloud))
      ensures cloud == WithoutMark(mid, m)
    {
      mid := Stir();
      cloud := WithoutMark(cloud, m);
    }

    /** Recursive deletion may fail; the scheduler does not look. */
    method DeleteJobDir(j: JobId) returns (ok: bool, ghost mid: Cloud)
      modifies this`cloud
      ensures EnvRel(cfg, old(cloud), mid) && (quiet ==> mid == old(cloud))
      ensures cloud == if ok then WithoutDir(mid, j) else mid
      ensures reliable ==> ok
    {
      mid := Stir();
      ok := *;
      ok := ok || reliable;
      if ok { cloud := WithoutDir(cloud, j); }
    }

    /** A name is never accepted twice, and a create that answers false had no effect. */
    method CreateQueuedResource(q: QrName, b: Birth) returns (ok: bool, ghost mid: Cloud)
      modifies this`cloud
      ensures EnvRel(cfg, old(cloud), mid) && (quiet ==> mid == old(cloud))
      ensures ok ==> q !in mid.ledger
      ensures cloud == if ok then mid.(qrs := mid.qrs[q := Qr(b.resource.project, b.resource.zone, QrWaiting)],
                                       ledger := mid.ledger[q := b], sightings := mid.sightings[q := {QrWaiting}]) else mid
      ensures reliable && q !in mid.ledger ==> ok
    {
      mid := Stir();
      ok := *;
      ok := (ok || reliable) && q !in cloud.ledger;
      if ok {
        cloud := cloud.(qrs := cloud.qrs[q := Qr(b.resource.project, b.resource.zone, QrWaiting)],
                       ledger := cloud.ledger[q := b], sightings := cloud.sightings[q := {QrWaiting}]);
      }
    }

    method DeleteQueuedResource(q: QrName, r: ResourceConfig) returns (ok: bool, ghost mid: Cloud)
      modifies this`cloud
      ensures EnvRel(cfg, old(cloud), mid) && (quiet ==> mid == old(cloud))
      ensures cloud == if ok then mid.(qrs := mid.qrs - {q}) else mid
      ensures reliable ==> ok
    {
      mid := Stir();
      ok := *;
      ok := ok || reliable;
      if ok { cloud := cloud.(qrs := cloud.qrs - {q}); }
    }

    method WriteListing(jobs: map<JobId, Job>)
      modifies this`listing
      ensures listing == Some(jobs)
    {
      listing := Some(jobs);
    }
  }
}

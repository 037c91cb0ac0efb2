/**
 * The in-memory job store: a map from job id to job record, with creation, lookup,
 * merge-update, the latest job of an owner, and the background-run lifecycle
 * (pending, running, progress reports, then done or failed) as explicit steps.
 * The clock and the random generator that `createJob` consults are parameters.
 */
module Jobs {
  import opened JsText
  import opened JsonValue

  datatype Status = Pending | Running | Done | Failed

  /**
   * A job record. `createdBy` is present only for jobs created with a session id;
   * `progress` and `error` use None for null; `result` is JNull until a result is stored.
   */
  datatype Job = Job(
    jobType: string,
    status: Status,
    createdAt: string,
    createdBy: Option<string>,
    progress: Option<string>,
    result: Json,
    error: Option<string>)

  /**
   * A partial job for `Object.assign`: each component is Some(value) when the update
   * supplies that field. `progress: null` is Some(None).
   */
  datatype JobUpdate = JobUpdate(
    jobType: Option<string>,
    status: Option<Status>,
    createdAt: Option<string>,
    createdBy: Option<string>,
    progress: Option<Option<string>>,
    result: Option<Json>,
    error: Option<Option<string>>)

  /** A job returned by `getLatestJob`: the record together with its id. */
  datatype JobView = JobView(id: string, job: Job)

  const NoUpdate := JobUpdate(None, None, None, None, None, None, None)

  /** `{ progress }`, the update a running work reports. */
  function ProgressUpdate(p: Option<string>): JobUpdate {
    NoUpdate.(progress := Some(p))
  }

  /** `Object.assign(job, update)`: the supplied fields overwrite, the others stay. */
  function Merge(j: Job, u: JobUpdate): Job {
    Job(
      u.jobType.GetOr(j.jobType),
      u.status.GetOr(j.status),
      u.createdAt.GetOr(j.createdAt),
      if u.createdBy.Some? then u.createdBy else j.createdBy,
      u.progress.GetOr(j.progress),
      u.result.GetOr(j.result),
      u.error.GetOr(j.error))
  }

  /**
   * Merging keeps every field the update leaves out and takes every field it supplies;
   * an empty update changes nothing, and applying the same update twice is applying it once.
   */
  lemma MergeFields(j: Job, u: JobUpdate)
    ensures u.status.Some? ==> Merge(j, u).status == u.status.value
    ensures u.status.None? ==> Merge(j, u).status == j.status
    ensures u.progress.Some? ==> Merge(j, u).progress == u.progress.value
    ensures u.progress.None? ==> Merge(j, u).progress == j.progress
    ensures u.result.Some? ==> Merge(j, u).result == u.result.value
    ensures u.result.None? ==> Merge(j, u).result == j.result
    ensures u.error.Some? ==> Merge(j, u).error == u.error.value
    ensures u.error.None? ==> Merge(j, u).error == j.error
    ensures u.jobType.None? && u.createdAt.None? && u.createdBy.None? ==>
      Merge(j, u).jobType == j.jobType && Merge(j, u).createdAt == j.createdAt && Merge(j, u).createdBy == j.createdBy
    ensures Merge(j, NoUpdate) == j
    ensures Merge(Merge(j, u), u) == Merge(j, u)
  {
  }

  /** The id `createJob` allocates from the clock reading and the random suffix. */
  function JobId(nowMs: nat, random: string): (id: string)
    ensures |id| > 4 && id[..4] == "job_"
  {
    "job_" + NatToString(nowMs) + "_" + random
  }

  /** The record `createJob` stores. */
  function NewJob(jobType: string, sessionId: Option<string>, createdAt: string): (j: Job)
    ensures j.jobType == jobType && j.status == Pending && j.createdAt == createdAt
    ensures j.progress == None && j.result == JNull && j.error == None
    ensures j.createdBy.Some? <==> sessionId.Some?
    ensures sessionId.Some? ==> j.createdBy == sessionId
  {
    Job(jobType, Pending, createdAt, sessionId, None, JNull, None)
  }

  /**
   * The order `getLatestJob` sorts by: `a` comes before `b` when its creation time is
   * later, or the times are equal and its id is greater.
   */
  predicate Newer(a: JobView, b: JobView) {
    StrLess(b.job.createdAt, a.job.createdAt)
    || (a.job.createdAt == b.job.createdAt && StrLess(b.id, a.id))
  }

  lemma NewerTransitive(a: JobView, b: JobView, c: JobView)
    requires Newer(a, b) && Newer(b, c)
    ensures Newer(a, c)
  {
    if StrLess(b.job.createdAt, a.job.createdAt) && StrLess(c.job.createdAt, b.job.createdAt) {
      StrLessTransitive(c.job.createdAt, b.job.createdAt, a.job.createdAt);
    } else if a.job.createdAt == b.job.createdAt && b.job.createdAt == c.job.createdAt {
      StrLessTransitive(c.id, b.id, a.id);
    }
  }

  /** Between two entries with different ids, one is newer than the other. */
  lemma NewerTotal(a: JobView, b: JobView)
    requires a.id != b.id
    ensures Newer(a, b) || Newer(b, a)
  {
    if a.job.createdAt != b.job.createdAt {
      StrLessTotal(a.job.createdAt, b.job.createdAt);
    } else {
      StrLessTotal(a.id, b.id);
    }
  }

  /** Newer is a strict order: never both ways. */
  lemma NewerAsymmetric(a: JobView, b: JobView)
    requires Newer(a, b)
    ensures !Newer(b, a)
  {
    if Newer(b, a) {
      NewerTransitive(a, b, a);
      NewerIrreflexive(a);
    }
  }

  lemma NewerIrreflexive(a: JobView)
    ensures !Newer(a, a)
  {
    StrLessIrreflexive(a.job.createdAt);
    StrLessIrreflexive(a.id);
  }

  // ---------------------------------------------------------------------------
  // runInBackground as explicit steps

  /**
   * How the work handed to `runInBackground` ends: the progress updates it reports,
   * in order, and then
   * - Resolved: the value its promise resolves with;
   * - Rejected: a rejection with a value other than null or undefined, carrying that
   *   value's `message` (None when it has none, as for a string or a number);
   * - Stalled: no terminal update ever happens. This is the case when the work
   *   rejects with null or undefined (reading `err.message` throws inside the
   *   `.catch` handler), throws synchronously (`runInBackground` itself throws), or
   *   returns something without `.then`.
   */
  datatype WorkOutcome =
    | Resolved(reports: seq<JobUpdate>, value: Json)
    | Rejected(reports: seq<JobUpdate>, message: Option<string>)
    | Stalled(reports: seq<JobUpdate>)

  const DefaultFailure := "Job failed"

  /** `err.message || "Job failed"`. */
  function FailureMessage(message: Option<string>): (m: string)
    ensures m != ""
    ensures Truthy(message) ==> m == message.value
  {
    if Truthy(message) then message.value else DefaultFailure
  }

  const StartUpdate := NoUpdate.(status := Some(Running))

  function SuccessUpdate(value: Json): JobUpdate {
    NoUpdate.(status := Some(Done), result := Some(value), progress := Some(None))
  }

  function FailureUpdate(message: Option<string>): JobUpdate {
    NoUpdate.(status := Some(Failed), error := Some(Some(FailureMessage(message))), progress := Some(None))
  }

  /** The record after the reported updates, applied in order. */
  function AfterReports(j: Job, reports: seq<JobUpdate>): Job {
    if reports == [] then j
    else Merge(AfterReports(j, reports[..|reports| - 1]), reports[|reports| - 1])
  }

  /** The record once a run with this outcome has taken its last step. */
  function Finished(j: Job, w: WorkOutcome): Job {
    var during := AfterReports(Merge(j, StartUpdate), w.reports);
    match w
    case Resolved(_, value) => Merge(during, SuccessUpdate(value))
    case Rejected(_, message) => Merge(during, FailureUpdate(message))
    case Stalled(_) => during
  }

  /** An update that only reports progress. */
  predicate ProgressOnly(u: JobUpdate) {
    u.jobType.None? && u.status.None? && u.createdAt.None? && u.createdBy.None?
    && u.result.None? && u.error.None?
  }

  /** Progress reports change the progress field and nothing else, whatever their number. */
  lemma {:induction false} ProgressReportsChangeOnlyProgress(j: Job, reports: seq<JobUpdate>)
    requires forall k :: 0 <= k < |reports| ==> ProgressOnly(reports[k])
    ensures AfterReports(j, reports).(progress := j.progress) == j
  {
    if reports != [] {
      var init := reports[..|reports| - 1];
      ProgressReportsChangeOnlyProgress(j, init);
    }
  }

  /**
   * A resolved run ends `done` with the value stored and progress cleared; the error
   * field is whatever it was before the terminal step.
   */
  lemma ResolvedRun(j: Job, reports: seq<JobUpdate>, value: Json)
    ensures var f := Finished(j, Resolved(reports, value));
      f.status == Done && f.result == value && f.progress == None
      && f.error == AfterReports(Merge(j, StartUpdate), reports).error
  {
  }

  /**
   * A rejected run ends `failed` with the error message (or "Job failed") and progress
   * cleared; the result field is whatever it was before the terminal step.
   */
  lemma RejectedRun(j: Job, reports: seq<JobUpdate>, message: Option<string>)
    ensures var f := Finished(j, Rejected(reports, message));
      f.status == Failed && f.error == Some(FailureMessage(message)) && f.progress == None
      && f.result == AfterReports(Merge(j, StartUpdate), reports).result
  {
  }

  /**
   * A stalled run leaves the record as the start and the reports made it: the
   * status the last report set, or `running`, and the progress last reported.
   */
  lemma StalledRun(j: Job, reports: seq<JobUpdate>)
    ensures Finished(j, Stalled(reports)) == AfterReports(Merge(j, StartUpdate), reports)
    ensures reports == [] ==> Finished(j, Stalled(reports)) == j.(status := Running)
  {
  }

  /**
   * The whole lifecycle of a fresh job whose work only reports progress: it is running
   * during every report. It ends done with its result and no error, or failed with its
   * message and no result, or, when the run stalls, stays running with the last
   * progress reported and neither result nor error. Type, creation time and owner
   * never change.
   */
  lemma {:induction false} FreshJobLifecycle(jobType: string, sessionId: Option<string>, createdAt: string, w: WorkOutcome)
    requires forall k :: 0 <= k < |w.reports| ==> ProgressOnly(w.reports[k])
    ensures var j := NewJob(jobType, sessionId, createdAt);
      && (forall n :: 0 <= n <= |w.reports| ==>
            AfterReports(Merge(j, StartUpdate), w.reports[..n]).status == Running)
      && Finished(j, w).jobType == jobType
      && Finished(j, w).createdAt == createdAt
      && Finished(j, w).createdBy == NewJob(jobType, sessionId, createdAt).createdBy
      && (!w.Stalled? ==> Finished(j, w).progress == None)
      && (w.Resolved? ==> Finished(j, w).status == Done && Finished(j, w).result == w.value && Finished(j, w).error == None)
      && (w.Rejected? ==> Finished(j, w).status == Failed && Finished(j, w).result == JNull
                          && Finished(j, w).error == Some(FailureMessage(w.message)))
      && (w.Stalled? ==> Finished(j, w).status == Running && Finished(j, w).result == JNull
                         && Finished(j, w).error == None
                         && Finished(j, w).progress == AfterReports(Merge(j, StartUpdate), w.reports).progress)
  {
    var j := NewJob(jobType, sessionId, createdAt);
    var started := Merge(j, StartUpdate);
    forall n | 0 <= n <= |w.reports|
      ensures AfterReports(started, w.reports[..n]).status == Running
    {
      ProgressReportsChangeOnlyProgress(started, w.reports[..n]);
    }
    assert w.reports[..|w.reports|] == w.reports;
    ProgressReportsChangeOnlyProgress(started, w.reports);
  }

  // ---------------------------------------------------------------------------
  // The store

  class JobStore {
    /** The module-level `jobs` map. */
    var jobs: map<string, Job>

    constructor ()
      ensures jobs == map[]
    {
      jobs := map[];
    }

    /**
     * `createJob(type, sessionId)`: stores a pending record under the id built from
     * the clock reading and the random suffix (an existing entry with that id would
     * be overwritten) and returns the id.
     */
    method CreateJob(jobType: string, sessionId: Option<string>, nowMs: nat, random: string, nowIso: string)
      returns (id: string)
      modifies this
      ensures id == JobId(nowMs, random)
      ensures jobs == old(jobs)[id := NewJob(jobType, sessionId, nowIso)]
    {
      id := JobId(nowMs, random);
      var record := NewJob(jobType, sessionId, nowIso);
      jobs := jobs[id := record];
    }

    /** `getJob(id)`: the stored record, or None for an unknown id. */
    function GetJob(id: string): (r: Option<Job>)
      reads this
      ensures r.Some? <==> id in jobs
      ensures r.Some? ==> r.value == jobs[id]
    {
      if id in jobs then Some(jobs[id]) else None
    }

    /**
     * `getLatestJob(sessionId)`: None when no job is owned by `sessionId`; otherwise
     * an owned job, with its id, that is newer than every other owned job.
     */
    method GetLatestJob(sessionId: Option<string>) returns (r: Option<JobView>)
      ensures r.None? <==> forall k :: k in jobs ==> jobs[k].createdBy != sessionId
      ensures r.Some? ==> r.value.id in jobs && jobs[r.value.id] == r.value.job
      ensures r.Some? ==> r.value.job.createdBy == sessionId
      ensures r.Some? ==> forall k :: k in jobs && k != r.value.id && jobs[k].createdBy == sessionId ==>
        Newer(r.value, JobView(k, jobs[k]))
    {
      var candidates: seq<JobView> := [];
      var rest := jobs.Keys;
      while rest != {}
        invariant rest <= jobs.Keys
        invariant forall v :: v in candidates ==>
          v.id in jobs && v.id !in rest && jobs[v.id] == v.job && v.job.createdBy == sessionId
        invariant forall k :: k in jobs && k !in rest && jobs[k].createdBy == sessionId ==>
          JobView(k, jobs[k]) in candidates
        decreases rest
      {
        var k :| k in rest;
        rest := rest - {k};
        if jobs[k].createdBy == sessionId {
          candidates := candidates + [JobView(k, jobs[k])];
        }
      }
      if candidates == [] {
        return None;
      }
      // The first entry of the sorted candidates: the newest one.
      var best := candidates[0];
      for i := 1 to |candidates|
        invariant best in candidates
        invariant forall m :: 0 <= m < i ==> candidates[m] == best || Newer(best, candidates[m])
      {
        var c := candidates[i];
        if Newer(c, best) {
          forall m | 0 <= m < i && candidates[m] != best
            ensures Newer(c, candidates[m])
          {
            NewerTransitive(c, best, candidates[m]);
          }
          best := c;
        } else if c != best {
          NewerTotal(c, best);
        }
      }
      return Some(best);
    }

    /** `updateJob(id, update)`: merges into a stored record; no change for an unknown id. */
    method UpdateJob(id: string, u: JobUpdate)
      modifies this
      ensures id in old(jobs) ==> jobs == old(jobs)[id := Merge(old(jobs)[id], u)]
      ensures id !in old(jobs) ==> jobs == old(jobs)
    {
      if id in jobs {
        jobs := jobs[id := Merge(jobs[id], u)];
      }
    }

    /** The first step of `runInBackground`: the job becomes running before the work starts. */
    method Start(id: string)
      modifies this
      ensures id in old(jobs) ==> jobs == old(jobs)[id := Merge(old(jobs)[id], StartUpdate)]
      ensures id !in old(jobs) ==> jobs == old(jobs)
    {
      UpdateJob(id, StartUpdate);
    }

    /** The `report` callback the work receives: exactly `updateJob(id, update)`. */
    method Report(id: string, u: JobUpdate)
      modifies this
      ensures id in old(jobs) ==> jobs == old(jobs)[id := Merge(old(jobs)[id], u)]
      ensures id !in old(jobs) ==> jobs == old(jobs)
    {
      UpdateJob(id, u);
    }

    /** The work resolved: done, result stored, progress cleared. */
    method Succeed(id: string, value: Json)
      modifies this
      ensures id in old(jobs) ==> jobs == old(jobs)[id := Merge(old(jobs)[id], SuccessUpdate(value))]
      ensures id !in old(jobs) ==> jobs == old(jobs)
    {
      UpdateJob(id, SuccessUpdate(value));
    }

    /** The work rejected: failed, the error message (or "Job failed") stored, progress cleared. */
    method Fail(id: string, message: Option<string>)
      modifies this
      ensures id in old(jobs) ==> jobs == old(jobs)[id := Merge(old(jobs)[id], FailureUpdate(message))]
      ensures id !in old(jobs) ==> jobs == old(jobs)
    {
      UpdateJob(id, FailureUpdate(message));
    }

    /**
     * `runInBackground(id, fn)` run to its end: start, every report of the work in
     * order, then the terminal step its outcome calls for (none for a stalled run).
     * Only the entry `id` changes.
     */
    method RunInBackground(id: string, w: WorkOutcome)
      modifies this
      ensures id in old(jobs) ==> jobs == old(jobs)[id := Finished(old(jobs)[id], w)]
      ensures id !in old(jobs) ==> jobs == old(jobs)
    {
      Start(id);
      for i := 0 to |w.reports|
        invariant id in old(jobs) ==>
          jobs == old(jobs)[id := AfterReports(Merge(old(jobs)[id], StartUpdate), w.reports[..i])]
        invariant id !in old(jobs) ==> jobs == old(jobs)
      {
        assert w.reports[..i + 1][..i] == w.reports[..i];
        Report(id, w.reports[i]);
      }
      assert w.reports[..|w.reports|] == w.reports;
      match w {
        case Resolved(_, value) => Succeed(id, value);
        case Rejected(_, message) => Fail(id, message);
        case Stalled(_) =>
      }
    }
  }

  /** Two jobs of one owner created at increasing times: the later one is the latest. */
  method LatestOfTwoJobs(owner: string, t1: nat, t2: nat, random1: string, random2: string,
                         iso1: string, iso2: string)
    returns (first: string, second: string, latest: Option<JobView>)
    requires StrLess(iso1, iso2)
    requires JobId(t1, random1) != JobId(t2, random2)
    ensures latest == Some(JobView(second, NewJob("generate", Some(owner), iso2)))
    ensures first != second
  {
    var early := JobView(JobId(t1, random1), NewJob("collect", Some(owner), iso1));
    var late := JobView(JobId(t2, random2), NewJob("generate", Some(owner), iso2));
    NewerAsymmetric(late, early);
    var store := new JobStore();
    first := store.CreateJob("collect", Some(owner), t1, random1, iso1);
    second := store.CreateJob("generate", Some(owner), t2, random2, iso2);
    assert store.jobs == map[first := early.job, second := late.job];
    latest := store.GetLatestJob(Some(owner));
    assert latest.Some? by {
      assert store.jobs[second].createdBy == Some(owner);
    }
  }

  /** An owner without jobs gets None, whatever other owners have created. */
  method NoLatestJobForOtherOwner(owner: string, other: string, t: nat, random: string, iso: string)
    returns (latest: Option<JobView>)
    requires owner != other
    ensures latest == None
  {
    var store := new JobStore();
    var _ := store.CreateJob("collect", Some(other), t, random, iso);
    latest := store.GetLatestJob(Some(owner));
  }
}

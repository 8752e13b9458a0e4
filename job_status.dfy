/**
 * The status route (src/app/api/job-status/route.ts): a read of one job row,
 * projected onto its status and counters. The row lookup is the collection;
 * an error reported by the store client is a parameter.
 */
module JobStatus {
  import opened Wrappers
  import opened EmailJob

  /** The route's answers: 400, 500, 404, or the job's snapshot. */
  datatype StatusResponse =
    | MissingJobId
    | FetchFailed(cause: string)
    | JobNotFound
    | Snapshot(status: string, completedEmails: nat, failedEmails: nat, totalEmails: nat, error: Option<string>)
  {
    function Code(): int {
      match this
      case MissingJobId => 400
      case FetchFailed(_) => 500
      case JobNotFound => 404
      case Snapshot(_, _, _, _, _) => 200
    }

    function Message(): string {
      match this
      case MissingJobId => "Job ID is required"
      case FetchFailed(_) => "Error fetching job status"
      case JobNotFound => "Job not found"
      case Snapshot(_, _, _, _, _) => ""
    }
  }

  /** A query parameter is present when it is given and not empty. */
  predicate Given(jobId: Option<string>) {
    jobId.Some? && jobId.value != ""
  }

  /** The four copied fields, and the error only when it is a non-empty string. */
  function Project(job: Job): StatusResponse {
    Snapshot(StatusName(job.status), job.completedEmails, job.failedEmails, job.totalEmails,
             if job.error.Some? && job.error.value != "" then job.error else None)
  }

  /** `GET /api/job-status?jobId=…` against the collection `db`, where
      `fetchError` is the error the store client reports, if any. */
  function GetStatus(jobId: Option<string>, db: Collection, fetchError: Option<string>): (r: StatusResponse)
    ensures r.Code() == 400 <==> !Given(jobId)
    ensures r.Code() == 500 <==> Given(jobId) && fetchError.Some?
    ensures r.Code() == 404 <==> Given(jobId) && fetchError.None? && jobId.value !in db.jobs
    ensures r.Code() == 200 <==> Given(jobId) && fetchError.None? && jobId.value in db.jobs
    ensures r.FetchFailed? ==> Some(r.cause) == fetchError
    ensures r.Code() == 400 ==> r.Message() == "Job ID is required"
    ensures r.Code() == 500 ==> r.Message() == "Error fetching job status"
    ensures r.Code() == 404 ==> r.Message() == "Job not found"
  {
    if !Given(jobId) then MissingJobId
    else if fetchError.Some? then FetchFailed(fetchError.value)
    else if jobId.value !in db.jobs then JobNotFound
    else Project(db.jobs[jobId.value])
  }

  /** Without a job id the route answers before it reads anything. */
  lemma MissingIdReadsNothing(jobId: Option<string>, db1: Collection, e1: Option<string>, db2: Collection, e2: Option<string>)
    requires !Given(jobId)
    ensures GetStatus(jobId, db1, e1) == GetStatus(jobId, db2, e2) == MissingJobId
  {
  }

  /** A found job's snapshot copies its status (read back by the schema's enum),
      its counters and total unchanged, and carries its error exactly when that
      error is a non-empty string. */
  lemma SnapshotFaithful(id: JobId, db: Collection)
    requires id != "" && id in db.jobs
    ensures var r := GetStatus(Some(id), db, None);
            var job := db.jobs[id];
            && r.Snapshot?
            && ParseStatus(r.status) == Some(job.status)
            && r.completedEmails == job.completedEmails
            && r.failedEmails == job.failedEmails
            && r.totalEmails == job.totalEmails
            && (r.error.Some? <==> job.error.Some? && job.error.value != "")
            && (r.error.Some? ==> r.error == job.error)
  {
    StatusNameRoundTrip(db.jobs[id].status);
  }

  /** The snapshot of a well-formed job never reports more rows than the job
      has, reports every row once the job is completed, and is all zeros while
      the job is pending. */
  lemma SnapshotOfWellFormed(id: JobId, db: Collection)
    requires id != "" && id in db.jobs && WellFormed(db.jobs[id])
    ensures var r := GetStatus(Some(id), db, None);
            && r.Snapshot?
            && r.completedEmails + r.failedEmails <= r.totalEmails
            && (r.status == "completed" ==> r.completedEmails + r.failedEmails == r.totalEmails)
            && (r.status == "pending" ==> r.completedEmails == 0 && r.failedEmails == 0 && r.error.None?)
  {
    var job := db.jobs[id];
    var r := GetStatus(Some(id), db, None);
    StatusNameRoundTrip(job.status);
    if r.status == "completed" {
      assert ParseStatus(r.status) == Some(Completed);
    }
    if r.status == "pending" {
      assert ParseStatus(r.status) == Some(Pending);
    }
  }
}

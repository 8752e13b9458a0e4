/**
 * The email job record: the `IEmailJob` interface and its Mongoose schema
 * (src/models/EmailJob.ts), which the `email_jobs` table of the submission
 * route describes under snake_case names. One `Job` value stands for both.
 */
module EmailJob {
  import opened Wrappers

  /** Jobs are keyed by an opaque identifier (a uuid or an ObjectId). */
  type JobId = string

  datatype Status = Pending | Processing | Completed | Failed

  /** The string stored for each status. */
  function StatusName(s: Status): string {
    match s
    case Pending => "pending"
    case Processing => "processing"
    case Completed => "completed"
    case Failed => "failed"
  }

  /** The schema's enum validator: a stored string is a status exactly when it is
      one of the four names, and then it names that status. */
  function ParseStatus(name: string): (r: Option<Status>)
    ensures r.Some? <==> name in {"pending", "processing", "completed", "failed"}
    ensures r.Some? ==> StatusName(r.value) == name
  {
    if name == "pending" then Some(Pending)
    else if name == "processing" then Some(Processing)
    else if name == "completed" then Some(Completed)
    else if name == "failed" then Some(Failed)
    else None
  }

  lemma {:induction false} StatusNameRoundTrip(s: Status)
    ensures ParseStatus(StatusName(s)) == Some(s)
  {
    match s
    case Pending =>
    case Processing =>
    case Completed =>
    case Failed =>
  }

  datatype SmtpConfig = SmtpConfig(
    username: string,
    password: string,
    server: string,
    port: int,
    senderName: string)

  /** One CSV row: a recipient and the message meant for them. */
  datatype Recipient = Recipient(firstName: string, email: string, subject: string, body: string)

  datatype Job = Job(
    scheduledTime: int,
    emailDelay: int,
    smtpConfig: SmtpConfig,
    csvData: seq<Recipient>,
    status: Status,
    createdAt: int,
    updatedAt: int,
    error: Option<string>,
    completedEmails: nat,
    failedEmails: nat,
    totalEmails: nat)

  /** The document as submitted, with the schema's defaults filled in:
      status `pending`, both counters 0, no error, timestamps `now`. */
  function NewJob(scheduledTime: int, emailDelay: int, smtp: SmtpConfig, rows: seq<Recipient>, now: int): Job {
    Job(scheduledTime, emailDelay, smtp, rows, Pending, now, now, None, 0, 0, |rows|)
  }

  /** A job that has not been started: pending, nothing counted, no error. */
  predicate Unstarted(j: Job) {
    j.status == Pending && j.completedEmails == 0 && j.failedEmails == 0 && j.error.None?
  }

  /** Mongoose's `required` rejects a missing or empty string. */
  predicate RequiredString(s: string) {
    s != ""
  }

  predicate RecipientComplete(r: Recipient) {
    RequiredString(r.firstName) && RequiredString(r.email) && RequiredString(r.subject) && RequiredString(r.body)
  }

  predicate SmtpComplete(c: SmtpConfig) {
    RequiredString(c.username) && RequiredString(c.password) && RequiredString(c.server) && RequiredString(c.senderName)
  }

  /** The schema's field requirements: every SMTP string and every field of every
      row is present and non-empty (numbers and dates are always present here). */
  predicate SchemaValid(j: Job) {
    SmtpComplete(j.smtpConfig) && forall k :: 0 <= k < |j.csvData| ==> RecipientComplete(j.csvData[k])
  }

  /** What every stored job keeps true over its life. */
  predicate WellFormed(j: Job) {
    && j.totalEmails == |j.csvData| >= 1
    && 1 <= j.emailDelay <= 3600
    && j.completedEmails + j.failedEmails <= j.totalEmails
    && (j.status == Pending ==> j.completedEmails == 0 && j.failedEmails == 0 && j.error.None?)
    && (j.status == Completed ==> j.completedEmails + j.failedEmails == j.totalEmails)
    && (j.status == Failed ==> j.error.Some?)
  }

  /** The parts fixed at creation are equal: schedule, pacing, SMTP settings,
      rows, total, and both timestamps (creation and last update). */
  predicate SameDefinition(a: Job, b: Job) {
    && a.scheduledTime == b.scheduledTime
    && a.emailDelay == b.emailDelay
    && a.smtpConfig == b.smtpConfig
    && a.csvData == b.csvData
    && a.totalEmails == b.totalEmails
    && a.createdAt == b.createdAt
    && a.updatedAt == b.updatedAt
  }

  /** A freshly created job is unstarted and counts exactly its rows; it is
      well-formed exactly when it has a row and its pacing is in range. */
  lemma NewJobIsUnstarted(scheduledTime: int, emailDelay: int, smtp: SmtpConfig, rows: seq<Recipient>, now: int)
    ensures var j := NewJob(scheduledTime, emailDelay, smtp, rows, now);
      && Unstarted(j)
      && j.totalEmails == |j.csvData| == |rows|
      && (WellFormed(j) <==> |rows| >= 1 && 1 <= emailDelay <= 3600)
  {
  }

  /** A new job passes the schema exactly when all its strings are non-empty. */
  lemma NewJobSchemaValidIff(scheduledTime: int, emailDelay: int, smtp: SmtpConfig, rows: seq<Recipient>, now: int)
    ensures SchemaValid(NewJob(scheduledTime, emailDelay, smtp, rows, now)) <==>
      SmtpComplete(smtp) && forall k :: 0 <= k < |rows| ==> RecipientComplete(rows[k])
  {
  }

  /** The collection: the jobs by id, and the ids in natural (insertion) order. */
  datatype Collection = Collection(jobs: map<JobId, Job>, order: seq<JobId>)

  predicate Distinct<T(==)>(s: seq<T>) {
    forall i, j :: 0 <= i < j < |s| ==> s[i] != s[j]
  }

  predicate Valid(db: Collection) {
    && Distinct(db.order)
    && (forall id :: id in db.order ==> id in db.jobs)
    && (forall id :: id in db.jobs ==> id in db.order)
  }

  predicate AllWellFormed(db: Collection) {
    forall id :: id in db.jobs ==> WellFormed(db.jobs[id])
  }
}

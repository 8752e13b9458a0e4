# Email job engine — a Dafny model

This project models the job engine of a scheduled bulk-email web application.
A user submits a CSV of recipients, SMTP settings, an optional start time and a
pause between messages. The submission route stores one email job. A cron route
polls for due jobs and sends their messages one at a time, writing progress
after each message. A status route reports a job's progress.

The model has seven modules, one file each:

- `Wrappers` (`wrappers.dfy`): `Option`.
- `Strings` (`strings.dfy`): the two JavaScript string built-ins the submission
  route relies on, `toLowerCase` and `trim`.
- `EmailJob` (`email_job.dfy`): the job record of `src/models/EmailJob.ts`,
  which the `email_jobs` table also describes under snake_case names. It gives
  the status enum, the schema's required fields and defaults, the invariant
  every stored job keeps (`WellFormed`), and the collection of jobs.
- `SendEmails` (`send_emails.dfy`): the submission route. It covers the header
  mapping, the row filter, the guard chain and the job it inserts.
- `Services` (`services.dfy`): what the cron route talks to, as one value
  (`World`) and one object (`Backend`). This is the job collection, the mail
  transport and the sleeps. Store failures, transport failures and the
  transport's verdict on each message are fixed in advance by oracles. The
  messages handed to the transport and the pauses taken are logged.
- `ProcessJobs` (`process_jobs.dfy`): the cron route, `processJob` and `GET`.
  - Each imperative method is proved equal to a function over `World` values:
    - `SendAll` to `Loop`;
    - `ProcessJob` to `Run`;
    - `ClaimSelected` to `ClaimAll`;
    - `Poll` to `PollSpec`.
  - The route's promises are lemmas about those functions.
- `JobStatus` (`job_status.dfy`): the status route, a pure projection of one
  stored job onto a response.

Some behaviours of the code are easy to miss; the model follows the code:

- **Per-item send failures** are counted but never stored in the job's `error`.
- **Creating the transport** happens outside the `try` of `processJob`. Its
  failure escapes to `GET`, which answers 500. The job is left `processing`
  rather than marked `failed`.
- **The claim** is a plain write of `processing`, made after the query has
  read the jobs. It is not a conditional update, and jobs run one after
  another.
- **A stored job's `updatedAt`** is never changed by the cron route.
- **A schedule time in the past** is rejected. It is not replaced by "now".
- **Whitespace-only CSV cells** pass the truthiness test and are stored as
  `""` (`BlankCellsBecomeEmpty`).
- **There is no crash resumption.** A job interrupted mid-run stays
  `processing`.

## Model

| member | source | states |
|---|---|---|
| `EmailJob.ParseStatus` | src/models/EmailJob.ts:43-46 | A stored string is a status exactly when it is one of `pending`, `processing`, `completed`, `failed`, and then it names that status. |
| `EmailJob.StatusNameRoundTrip` | src/models/EmailJob.ts:19 | Every status is stored as a string that the enum validator reads back as the same status. |
| `EmailJob.NewJob` | src/models/EmailJob.ts:46-52 | Definition: the submitted schedule, delay, SMTP settings and rows, with the schema's defaults filled in (`pending`, both counters 0, no error, both timestamps now) and the total set to the number of rows. |
| `EmailJob.WellFormed` | src/models/EmailJob.ts:3-25 | Definition of what every stored job keeps: total equals the number of rows and is at least 1, delay in 1..3600, `completed + failed <= total`, a pending job has zero counts and no error, a completed job has counted every row, and a failed job has an error. |
| `EmailJob.NewJobIsUnstarted` | src/models/EmailJob.ts:46-52 | A new job takes the defaults: `pending`, both counters 0, no error. Its total is its number of rows. It is well-formed exactly when it has a row and its delay is in 1..3600. |
| `EmailJob.NewJobSchemaValidIff` | src/models/EmailJob.ts:30-42 | A new job passes the schema's `required` checks exactly when its SMTP strings and its rows' four fields are all non-empty. |
| `EmailJob.SchemaValid` | src/models/EmailJob.ts:28-42 | Definition of the `required: true` validators: every SMTP string and every field of every row is a non-empty string; `NewJobSchemaValidIff` and `BlankCellsBecomeEmpty` state when submitted data meets it. |
| `Strings.LowerChar` | src/app/api/send-emails/route.ts:41 | Lower-casing one character leaves no ASCII capital and does not change whether it is whitespace. |
| `Strings.Lower` | src/app/api/send-emails/route.ts:41 | `toLowerCase` keeps the length, maps each character by `LowerChar`, and leaves no ASCII capital. |
| `Strings.LowerOfLower` | src/app/api/send-emails/route.ts:41 | Lower-casing a string with no capital changes nothing. |
| `Strings.TrimStart` | src/app/api/send-emails/route.ts:41 | The result is a suffix of the input that does not start with whitespace, and everything cut off is whitespace. |
| `Strings.TrimEnd` | src/app/api/send-emails/route.ts:41 | The result is a prefix of the input that does not end with whitespace, and everything cut off is whitespace. |
| `Strings.Trim` | src/app/api/send-emails/route.ts:52-55 | Definition of `trim`: leading whitespace cut, then trailing whitespace cut, over the ECMA-262 whitespace and line-terminator set; `TrimIsTrimmed`, `TrimOfTrimmed`, `TrimIdempotent` and `TrimEmptyIff` state what it returns. |
| `Strings.TrimIsTrimmed` | src/app/api/send-emails/route.ts:52-55 | Neither end of a `trim` result is whitespace. |
| `Strings.TrimOfTrimmed` | src/app/api/send-emails/route.ts:52-55 | `trim` leaves a string with no whitespace at either end unchanged. |
| `Strings.TrimIdempotent` | src/app/api/send-emails/route.ts:52-55 | Trimming twice is trimming once. |
| `Strings.TrimKeepsNoUpper` | src/app/api/send-emails/route.ts:41 | Trimming a lower-cased header adds no capital. |
| `Strings.TrimEmptyIff` | src/app/api/send-emails/route.ts:50-55 | `trim` returns `""` exactly when every character is whitespace. |
| `SendEmails.Folded` | src/app/api/send-emails/route.ts:41 | A header that has been lower-cased and then trimmed has no capital and no whitespace at either end. |
| `SendEmails.CanonicalName` | src/app/api/send-emails/route.ts:42-46 | Each synonym set maps to its canonical field, both ways: the result is `firstName`, `email`, `subject` or `body` exactly when the header is in that set. Any other header is returned as it is. |
| `SendEmails.FoldedFirstName` | src/app/api/send-emails/route.ts:42 | The canonical name `firstName` folds to its synonym `firstname`. |
| `SendEmails.FoldedLowerCaseName` | src/app/api/send-emails/route.ts:43-45 | The canonical names `email`, `subject` and `body` fold to themselves. |
| `SendEmails.FoldedOfFolded` | src/app/api/send-emails/route.ts:41 | Folding a folded header changes nothing. |
| `SendEmails.NormalizeHeaderIdempotent` | src/app/api/send-emails/route.ts:40-47 | Mapping an already mapped header gives the same name, for every header. |
| `SendEmails.NormalizeHeader` | src/app/api/send-emails/route.ts:40-47 | The callback maps a header to `firstName`, `email`, `subject` or `body` exactly when its lower-cased, trimmed form is one of that field's synonyms, and otherwise returns that lower-cased, trimmed form. |
| `SendEmails.MapHeaders` | src/app/api/send-emails/route.ts:40-47 | The column names keep the header line's length. A column is named after a canonical field exactly when its folded header is one of that field's synonyms, and any other column keeps its folded header. |
| `SendEmails.Fill` | src/app/api/send-emails/route.ts:49 | Definition: the row object built column by column, a later column overwriting an earlier one of the same name; `FillLookup` states what it holds. |
| `SendEmails.Record` | src/app/api/send-emails/route.ts:49 | Definition: the object emitted for one row, covering the columns both the header line and the row reach. |
| `SendEmails.FillLookup` | src/app/api/send-emails/route.ts:49 | A row's object has a key exactly for the column names the row reaches. That key holds the cell of the last column with that name. |
| `SendEmails.ToRecipient` | src/app/api/send-emails/route.ts:51-56 | An accepted record becomes a row whose four fields are trimmed. |
| `SendEmails.Accepts` | src/app/api/send-emails/route.ts:50 | Definition of the row test: each of `firstName`, `email`, `subject` and `body` is present and non-empty before trimming; `KeptRowsSingle` states that a row is kept exactly when it passes. |
| `SendEmails.KeptRows` | src/app/api/send-emails/route.ts:49-57 | No more rows are kept than were read, and every kept row is trimmed. |
| `SendEmails.CollectRows` | src/app/api/send-emails/route.ts:36-59 | The loop that pushes each accepted row builds exactly `ParseCsv(file)`. |
| `SendEmails.ParseCsv` | src/app/api/send-emails/route.ts:34-62 | Definition: the rows `parseCsvBuffer` resolves with, the kept rows of the file under its mapped header; `CollectRows`, `KeptRowsSingle`, `KeptRowsAppend` and `KeptRowsEmptyIff` state what they are. |
| `SendEmails.KeptRowsAppend` | src/app/api/send-emails/route.ts:49-57 | The filter works row by row and keeps file order: filtering a concatenation is concatenating the filtered parts. |
| `SendEmails.KeptRowsSingle` | src/app/api/send-emails/route.ts:50-56 | One row yields itself, trimmed, when all four fields are truthy, and nothing otherwise. |
| `SendEmails.KeptRowsEmptyIff` | src/app/api/send-emails/route.ts:103-107 | No row survives exactly when no row is accepted. |
| `SendEmails.BlankCellsBecomeEmpty` | src/app/api/send-emails/route.ts:50-55 | Truthiness is checked before trimming, so a kept field is `""` exactly when its cell was whitespace only. A kept row passes the schema exactly when no cell was blank. |
| `SendEmails.Check` | src/app/api/send-emails/route.ts:76-107 | Every rejection carries one of the four guard messages. A request that passes has a file, a non-zero port, complete SMTP strings, a delay in 1..3600, a schedule (if any) strictly after now, and at least one kept row. |
| `SendEmails.Submit` | src/app/api/send-emails/route.ts:64-144 | Definition of `POST`: the guards, then the insert, whose store error answers 500; `SubmitRejectsAtFirstFailedGuard`, `SubmitCreatesUnstartedJob` and `SubmitPreservesStore` state its outcome. |
| `SendEmails.CheckIsFirstFailure` | src/app/api/send-emails/route.ts:76-107 | The early returns answer with the message of the first failing guard, taken in order: missing fields, past schedule, delay range, no rows. |
| `SendEmails.SubmitRejectsAtFirstFailedGuard` | src/app/api/send-emails/route.ts:76-107 | The answer is 400 exactly when some guard fails, with the first failing guard's message. A rejected request leaves the store as it was. |
| `SendEmails.SubmitCreatesUnstartedJob` | src/app/api/send-emails/route.ts:110-144 | A job is created exactly when every guard passes and the insert succeeds. It is the only change. It is pending with both counters 0, holds exactly the kept rows with total equal to their number, and keeps the submitted settings. Its start is the given time or now, and it is well-formed. |
| `SendEmails.SubmitPreservesStore` | src/app/api/send-emails/route.ts:110-137 | Submission keeps ids distinct and in step with the order, and keeps every job well-formed. |
| `Services.Backend.Connect` | src/app/api/cron/process-jobs/route.ts:70-76 | Connecting and querying uses the store's next answer and changes nothing else. |
| `Services.Backend.FindByIdAndUpdate` | src/app/api/cron/process-jobs/route.ts:41-44 | A write sets only the given fields of the job. A failed write changes nothing, and a write to a missing id succeeds and changes nothing. |
| `Services.Backend.NewTransport` | src/app/api/cron/process-jobs/route.ts:12-20 | Creating the transport uses the transport's next answer. |
| `Services.Backend.SendMail` | src/app/api/cron/process-jobs/route.ts:28-33 | The message is appended to the outbox, and the verdict for its position decides delivery. |
| `Services.Backend.Pause` | src/app/api/cron/process-jobs/route.ts:47 | A sleep is appended to the log of pauses. |
| `Services.Apply` | src/app/api/cron/process-jobs/route.ts:41-44 | An update object sets each of status, counters and error that it gives to the given value, and leaves the others and the fields fixed at creation as they were. |
| `Services.Update` | src/app/api/cron/process-jobs/route.ts:41-44 | A write uses one store call and touches nothing but the collection; it keeps the order, and a failed write or a write to a missing id leaves the collection as it was. |
| `ProcessJobs.UpdateFrame` | src/app/api/cron/process-jobs/route.ts:41-44 | A write to one job leaves the ids, their order and every other job as they were. |
| `ProcessJobs.UpdateSets` | src/app/api/cron/process-jobs/route.ts:41-44 | A write that goes through to a stored job replaces that job by the patched job, whose given fields take the patch's values (`Apply`). |
| `ProcessJobs.LastIndexOf` | src/app/api/cron/process-jobs/route.ts:29 | The result is the last position of the character, or absent exactly when the character does not occur. |
| `ProcessJobs.ComposeFromRoundTrip` | src/app/api/cron/process-jobs/route.ts:29 | The sender of every message is a name-addr that reads back as the configured sender name and SMTP user, when the user contains no `<`. |
| `ProcessJobs.Compose` | src/app/api/cron/process-jobs/route.ts:28-33 | Definition: the message for one row, from the sender name and SMTP user as a name-addr, to the row's address, with its subject, and the greeting followed by the body; `ComposeFromRoundTrip` reads the sender back. |
| `ProcessJobs.Iterate` | src/app/api/cron/process-jobs/route.ts:27-48 | Definition: one pass of the loop (send, count, write progress, pause unless the write failed or the row is last); `IterateKeepsTally`, `IterateKeepsCalls` and `IterateKeepsWritten` state its effect. |
| `ProcessJobs.Loop` | src/app/api/cron/process-jobs/route.ts:26-49 | Definition: the loop after its first `i` passes, or after the pass whose write threw; `LoopKeepsTally` and `LoopKeepsRecorded` state what holds at every pass. |
| `ProcessJobs.Close` | src/app/api/cron/process-jobs/route.ts:51-65 | Definition: the completed write, or after a failure the failed write with the error, whose own failure escapes; `CloseOutcome` and `CloseStoresCounters` state its effect. |
| `ProcessJobs.Run` | src/app/api/cron/process-jobs/route.ts:11-66 | Definition of `processJob`: create the transport (its failure escapes), run the loop, then close; `RunOutcome`, `RunWithoutFaults`, `RunStoreFailure` and `RunCountsNeverDecrease` state its effect. |
| `ProcessJobs.LoopStaysStopped` | src/app/api/cron/process-jobs/route.ts:57-65 | Once a store write has failed, the loop does nothing more: the error leaves the loop. |
| `ProcessJobs.SendOne` | src/app/api/cron/process-jobs/route.ts:27-48 | One pass sends the row's message, counts it, writes the counts, and pauses unless the write failed or this is the last row. |
| `ProcessJobs.CloseJob` | src/app/api/cron/process-jobs/route.ts:51-65 | After the loop the job is marked completed. If that write or an earlier one failed, it is marked failed with that error, and a failure of this last write escapes. |
| `ProcessJobs.SendAll` | src/app/api/cron/process-jobs/route.ts:22-49 | The counters start at 0, and the loop over the rows ends in the state `Loop` gives for all rows. |
| `ProcessJobs.ProcessJob` | src/app/api/cron/process-jobs/route.ts:11-66 | `processJob` ends in the state `Run` gives. |
| `ProcessJobs.Letters` | src/app/api/cron/process-jobs/route.ts:26-33 | There is one message for each attempted row. |
| `ProcessJobs.LettersInOrder` | src/app/api/cron/process-jobs/route.ts:26-33 | The messages are composed from the rows in row order. |
| `ProcessJobs.RepeatAll` | src/app/api/cron/process-jobs/route.ts:46-48 | The pause log holds exactly the number of pauses, each of `emailDelay * 1000` ms. |
| `ProcessJobs.Delivered` | src/app/api/cron/process-jobs/route.ts:34-37 | At most the attempted messages are counted as delivered. |
| `ProcessJobs.DeliveredAllOrNone` | src/app/api/cron/process-jobs/route.ts:34-38 | All attempted messages count as completed when the transport accepts them all, and none does when it rejects them all. |
| `ProcessJobs.IterateKeepsTally` | src/app/api/cron/process-jobs/route.ts:26-48 | One pass adds exactly one attempted row, counted as completed or failed as the transport said. It adds that row's message to the outbox and a pause unless the write failed or the row was last. |
| `ProcessJobs.LoopKeepsTally` | src/app/api/cron/process-jobs/route.ts:22-48 | After `i` passes, `completed + failed` is `i`, or the number up to the failed write, and never more than the rows. The completed count is the delivered messages. The outbox holds the rows' messages in order, and one pause followed each row except the last and the failed one. |
| `ProcessJobs.IterateKeepsCalls` | src/app/api/cron/process-jobs/route.ts:41-44 | One pass makes exactly one store write. The loop's fault is that write's answer. |
| `ProcessJobs.IterateKeepsWritten` | src/app/api/cron/process-jobs/route.ts:41-44 | One pass changes only the job's counters in the store, and a successful write stores the current counts. |
| `ProcessJobs.LoopStepRecorded` | src/app/api/cron/process-jobs/route.ts:41-44 | The loop's store calls and the stored counts stay as `Recorded` says from one pass to the next. |
| `ProcessJobs.LoopKeepsRecorded` | src/app/api/cron/process-jobs/route.ts:41-44 | After every pass the store holds the counts of the last successful write, and nothing else in the collection has changed. |
| `ProcessJobs.StoredCountsGrow` | src/app/api/cron/process-jobs/route.ts:41-44 | During a run of a job that starts from zero counts, the stored counters never go down from one pass to the next. |
| `ProcessJobs.StoredCountsGrowTo` | src/app/api/cron/process-jobs/route.ts:41-44 | For any two passes `i <= j`, the stored counters after `j` are at least those after `i`. |
| `ProcessJobs.CloseStoresCounters` | src/app/api/cron/process-jobs/route.ts:52-64 | The final status write stores the loop's own counters, or, when every write fails, leaves the store as the loop left it. |
| `ProcessJobs.RunCountsNeverDecrease` | src/app/api/cron/process-jobs/route.ts:41-64 | Up to and including the final status write, the stored counters never go down: what `processJob` leaves stored is at least what was stored after any pass of the loop. |
| `ProcessJobs.CloseOutcome` | src/app/api/cron/process-jobs/route.ts:51-65 | When no error escapes, the job ends completed with every row counted, or failed with an error. When one escapes, the store is as the loop left it. |
| `ProcessJobs.RunOutcome` | src/app/api/cron/process-jobs/route.ts:11-66 | `processJob` changes only its own job, and when nothing escapes the job has ended completed or failed. A transport failure escapes before anything is sent, written or paused. |
| `ProcessJobs.RunWithoutFaults` | src/app/api/cron/process-jobs/route.ts:22-56 | With a working transport and store, every row's message is sent in row order with `n - 1` pauses of `emailDelay * 1000` ms. The job ends completed, with completed + failed = n and the delivered count as completed. A failed send never stops the run. |
| `ProcessJobs.RunStoreFailure` | src/app/api/cron/process-jobs/route.ts:57-65 | When the first store failure is the write after row `k` and the next write succeeds, rows `0..k` were sent with `k` pauses. The job ends failed with that error and counts totalling `k + 1`. |
| `ProcessJobs.Pick` | src/app/api/cron/process-jobs/route.ts:73-76 | At most 5 ids are selected, and every one is pending and due. If fewer than 5 are selected, every due id is selected. Distinct ids stay distinct. |
| `ProcessJobs.Due` | src/app/api/cron/process-jobs/route.ts:73-76 | Definition of the query filter: the job is stored, pending, and scheduled no later than now. |
| `ProcessJobs.SelectDue` | src/app/api/cron/process-jobs/route.ts:73-76 | At most 5 jobs are selected, all due. When fewer than 5 are selected, every due job is. The selected ids are distinct. |
| `ProcessJobs.ClaimJob` | src/app/api/cron/process-jobs/route.ts:80-84 | One pass of `GET` marks the job processing, then runs it unless the mark failed. |
| `ProcessJobs.Claim` | src/app/api/cron/process-jobs/route.ts:80-84 | Definition: mark the job processing, then run it unless the mark failed; `ClaimOutcome` states its effect. |
| `ProcessJobs.ClaimAll` | src/app/api/cron/process-jobs/route.ts:79-85 | Definition: claim the selected jobs one after another, stopping at the first escaping error; `ClaimAllSwept` states its effect. |
| `ProcessJobs.ClaimSelected` | src/app/api/cron/process-jobs/route.ts:79-85 | The selected jobs are claimed and run one after another, stopping at the first escaping error. |
| `ProcessJobs.Poll` | src/app/api/cron/process-jobs/route.ts:68-97 | `GET` ends in the state and answer `PollSpec` gives. |
| `ProcessJobs.PollSpec` | src/app/api/cron/process-jobs/route.ts:68-97 | Definition of `GET`: query, select, claim and run in turn, then 200 with the number selected or 500 with the escaping error; `PollEffect` and `PollKeepsWellFormed` state its effect. |
| `ProcessJobs.ClaimOutcome` | src/app/api/cron/process-jobs/route.ts:80-84 | A claim changes only its job, and unless an error escapes the job has ended. The mark comes first: when it fails, nothing is sent, written or paused. |
| `ProcessJobs.ClaimAllSwept` | src/app/api/cron/process-jobs/route.ts:79-85 | The loop over distinct selected ids changes only those jobs. When no error escapes, each of them has ended. |
| `ProcessJobs.PollEffect` | src/app/api/cron/process-jobs/route.ts:68-96 | Ids and their order are kept, and unselected jobs are unchanged. Every selected job was pending and due. When the answer is 200, it counts the selected jobs and each has ended. A failed query answers 500 and changes nothing. |
| `ProcessJobs.PollKeepsWellFormed` | src/app/api/cron/process-jobs/route.ts:68-90 | `GET` keeps the collection valid and every job well-formed. |
| `ProcessJobs.TouchedKeepsWellFormed` | src/app/api/cron/process-jobs/route.ts:79-85 | Whatever a claim leaves of a well-formed job is well-formed. |
| `JobStatus.GetStatus` | src/app/api/job-status/route.ts:19-43 | The answer is 400 exactly when no job id is given, 500 exactly when the store reports an error (and carries it), and 404 exactly when the job is absent. Otherwise it is 200. Each error answer carries its message text. |
| `JobStatus.Project` | src/app/api/job-status/route.ts:45-54 | Definition: the snapshot of a stored job, its status name, counters and total, and its error only when that is a non-empty string; `SnapshotFaithful` states it is exact. |
| `JobStatus.MissingIdReadsNothing` | src/app/api/job-status/route.ts:19-23 | Without a job id, the answer does not depend on the store. |
| `JobStatus.SnapshotFaithful` | src/app/api/job-status/route.ts:45-54 | A found job's status, counters and total are copied unchanged. The error appears exactly when it is a non-empty string. |
| `JobStatus.SnapshotOfWellFormed` | src/app/api/job-status/route.ts:45-50 | A well-formed job's snapshot reports no more rows than the total, every row once completed, and zeros and no error while pending. |

## Left out

- **CSV tokenising, form decoding and `File` to `Buffer` conversion.** A
  request arrives with its fields extracted and the file split into a header
  line and rows of cells.
- **`parseInt` and `Date` parsing.** Numbers are `Option<int>` (NaN is
  `None`) and times are integers. The invalid-date path that throws at
  `toISOString` is not modelled.
- **The catch blocks that answer 500** for an unexpected exception in each
  route. The modelled error paths (store, insert and transport errors) are
  kept.
- **The two stores.** The Supabase table used by submission and status and
  the Mongoose collection used by the cron route are one collection here.
  Store calls are answered by an oracle of failures.
- **`.single()` and missing rows.** The status route's `.single()` reports a
  missing row as an error, so in the real client the 404 branch is reached
  only if the client returns neither a row nor an error. Here a missing id
  answers 404 when no store error is given.
- **Time.** Real time and `setTimeout` are not modelled: a sleep is logged
  with its length.
- **Logging, and the `maxDuration` and `dynamic` exports.**
  - `console.error` logging is not modelled.
  - The `maxDuration` and `dynamic` exports are not modelled.
- **`src/utils/emailSender.ts`** is not part of this model.
- **Concurrency.** Concurrent pollers and crash resumption are not modelled,
  because the code has neither.
- **Interleaving of logs.** The outbox and the pause log are separate logs.
  The model does not record how writes interleave with sends and pauses.
  Order within each log is stated.
- **`indexOf` in the pacing test.** It is modelled as the loop index. Stored
  rows are distinct subdocuments, so `indexOf` returns the current position.
- **Natural order.** `find` is assumed to return jobs in the collection's
  insertion order.
- **Error messages.** A message stored for a thrown error is modelled as the
  error string itself.
- **`Strings.Lower`**: models `toLowerCase` for ASCII letters only. Other
  letters are left unchanged. No synonym header contains one, so the mapping
  of synonyms is exact.
- **`ProcessJobs.Pick`**: does not state that the selected ids keep the
  collection's order. It states only the bound, that every selected id is
  due, that all due ids are selected when fewer than five are, and
  distinctness.
- **`ProcessJobs.ComposeFromRoundTrip`**: requires an SMTP user without `<`.
  With one, the name-addr form is ambiguous and the sender name cannot be
  read back.
- **`ProcessJobs.RunOutcome`**: when an error escapes `processJob`, it states
  only that status and error are unchanged and the counters stayed or are
  bounded by the rows. The exact counts are stated by `RunStoreFailure` for a
  single store failure.
- **`ProcessJobs.StoredCountsGrow`**: like `StoredCountsGrowTo` and
  `RunCountsNeverDecrease`, it is stated for a job whose stored
  counters are 0 when the run starts. This is the case for every job `GET`
  selects, because a pending well-formed job has zero counts.

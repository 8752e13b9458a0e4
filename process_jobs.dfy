/**
 * The cron route (src/app/api/cron/process-jobs/route.ts): `processJob`, which
 * sends a job's rows one by one, writes progress after each and ends the job
 * `completed` or `failed`, and `GET`, which picks at most five due pending jobs
 * and runs them one after another. Each method is proved equal to a function
 * over `World` values; the properties are lemmas about those functions.
 */
module ProcessJobs {
  import opened Wrappers
  import opened EmailJob
  import opened Services

  /** The message for one row: from the sender name and the SMTP user as a
      name-addr (section 3.4 of RFC 5322), the greeting, then the body. */
  function Compose(smtp: SmtpConfig, item: Recipient): Message {
    Message(smtp.senderName + " <" + smtp.username + ">",
            item.email,
            item.subject,
            "<div><p>Hi " + item.firstName + ",</p>" + item.body + "</p></div>")
  }

  /** The position of the last `c` in `s`. */
  function LastIndexOf(s: string, c: char): (r: Option<nat>)
    ensures r.Some? ==> r.value < |s| && s[r.value] == c && forall k :: r.value < k < |s| ==> s[k] != c
    ensures r.None? ==> forall k :: 0 <= k < |s| ==> s[k] != c
  {
    if |s| == 0 then None
    else if s[|s| - 1] == c then Some(|s| - 1)
    else LastIndexOf(s[..|s| - 1], c)
  }

  /** Reads a name-addr `name <addr>` back into its display name and address. */
  function ParseNameAddr(from: string): Option<(string, string)> {
    if |from| == 0 || from[|from| - 1] != '>' then None
    else match LastIndexOf(from, '<')
      case None => None
      case Some(i) =>
        if i == 0 || from[i - 1] != ' ' then None
        else Some((from[..i - 1], from[i + 1..|from| - 1]))
  }

  /** The sender of every message reads back as the configured sender name and
      SMTP user, provided the user contains no '<'. */
  lemma ComposeFromRoundTrip(smtp: SmtpConfig, item: Recipient)
    requires forall k :: 0 <= k < |smtp.username| ==> smtp.username[k] != '<'
    ensures ParseNameAddr(Compose(smtp, item).from) == Some((smtp.senderName, smtp.username))
  {
    var from := Compose(smtp, item).from;
    var name, user := smtp.senderName, smtp.username;
    var i := |name| + 1;
    assert from == name + [' ', '<'] + user + ['>'];
    assert from[i] == '<' && from[i - 1] == ' ';
    forall k | i < k < |from|
      ensures from[k] != '<'
    {
      if k < |from| - 1 {
        assert from[k] == user[k - i - 1];
      }
    }
    var r := LastIndexOf(from, '<');
    assert r == Some(i);
    assert from[..i - 1] == name;
    assert from[i + 1..|from| - 1] == user;
  }

  /** The state of `processJob`'s loop: the collaborators, the two local counters,
      and the store error that escaped, if one did. */
  datatype Progress = Progress(world: World, completed: nat, failed: nat, fault: Option<string>)

  function ProgressPatch(completed: nat, failed: nat): Patch {
    Patch(None, Some(completed), Some(failed), None)
  }

  /** One pass of the loop body for row `k`: send, count, write progress, and
      pause unless the write failed or this is the last row. */
  function Iterate(p: Progress, id: JobId, job: Job, k: nat): Progress
    requires k < |job.csvData|
  {
    var sent := Send(p.world, Compose(job.smtpConfig, job.csvData[k]));
    var c := if sent.1 then p.completed + 1 else p.completed;
    var f := if sent.1 then p.failed else p.failed + 1;
    var written := Update(sent.0, id, ProgressPatch(c, f));
    if written.1.Some? then Progress(written.0, c, f, written.1)
    else if k < |job.csvData| - 1 then Progress(Sleep(written.0, job.emailDelay * 1000), c, f, None)
    else Progress(written.0, c, f, None)
  }

  /** The loop after its first `i` passes, or after the pass whose write failed. */
  function Loop(w: World, id: JobId, job: Job, i: nat): Progress
    requires i <= |job.csvData|
  {
    if i == 0 then Progress(w, 0, 0, None)
    else
      var p := Loop(w, id, job, i - 1);
      if p.fault.Some? then p else Iterate(p, id, job, i - 1)
  }

  function CompletedPatch(p: Progress): Patch {
    Patch(Some(Completed), Some(p.completed), Some(p.failed), None)
  }

  function FailedPatch(p: Progress, error: string): Patch {
    Patch(Some(Failed), Some(p.completed), Some(p.failed), Some(error))
  }

  /** What follows the loop: mark the job completed, or, once a write has
      failed, record that error with one more write, whose own failure escapes. */
  function Close(p: Progress, id: JobId): (World, Option<string>) {
    var closed := if p.fault.None? then Update(p.world, id, CompletedPatch(p)) else (p.world, p.fault);
    if closed.1.None? then closed
    else Update(closed.0, id, FailedPatch(p, closed.1.value))
  }

  /** `processJob` on the job `job` stored under `id`: the collaborators afterwards,
      and the error that escapes it, if any. The transport is created outside the
      `try`, so its failure escapes before anything is sent or written. */
  function Run(w: World, id: JobId, job: Job): (World, Option<string>) {
    var created := CreateTransport(w);
    if created.1.Some? then created
    else Close(Loop(created.0, id, job, |job.csvData|), id)
  }

  /** Once a write has failed, further passes change nothing. */
  lemma {:induction false} LoopStaysStopped(w: World, id: JobId, job: Job, i: nat, j: nat)
    requires i <= j <= |job.csvData|
    requires Loop(w, id, job, i).fault.Some?
    ensures Loop(w, id, job, j) == Loop(w, id, job, i)
    decreases j - i
  {
    if j > i {
      assert Loop(w, id, job, i + 1) == Loop(w, id, job, i);
      LoopStaysStopped(w, id, job, i + 1, j);
    }
  }

  /** The body of `processJob`'s loop for row `k`. */
  method SendOne(b: Backend, id: JobId, job: Job, k: nat, completed: nat, failed: nat)
    returns (completed': nat, failed': nat, fault: Option<string>)
    requires k < |job.csvData|
    modifies b
    ensures Progress(b.State(), completed', failed', fault)
         == Iterate(Progress(old(b.State()), completed, failed, None), id, job, k)
  {
    var delivered := b.SendMail(Compose(job.smtpConfig, job.csvData[k]));
    if delivered {
      completed', failed' := completed + 1, failed;
    } else {
      completed', failed' := completed, failed + 1;
    }
    fault := b.FindByIdAndUpdate(id, ProgressPatch(completed', failed'));
    if fault.None? && k < |job.csvData| - 1 {
      b.Pause(job.emailDelay * 1000);
    }
  }

  /** The writes after `processJob`'s loop. */
  method CloseJob(b: Backend, id: JobId, completed: nat, failed: nat, fault: Option<string>)
    returns (escaped: Option<string>)
    modifies b
    ensures (b.State(), escaped) == Close(Progress(old(b.State()), completed, failed, fault), id)
  {
    escaped := fault;
    if escaped.None? {
      escaped := b.FindByIdAndUpdate(id, Patch(Some(Completed), Some(completed), Some(failed), None));
    }
    if escaped.Some? {
      escaped := b.FindByIdAndUpdate(id, Patch(Some(Failed), Some(completed), Some(failed), Some(escaped.value)));
    }
  }

  /** `processJob`'s loop over the rows. */
  method SendAll(b: Backend, id: JobId, job: Job) returns (completed: nat, failed: nat, fault: Option<string>)
    modifies b
    ensures Progress(b.State(), completed, failed, fault) == Loop(old(b.State()), id, job, |job.csvData|)
  {
    ghost var start := b.State();
    completed, failed, fault := 0, 0, None;
    var i := 0;
    while i < |job.csvData| && fault.None?
      invariant i <= |job.csvData|
      invariant Loop(start, id, job, i) == Progress(b.State(), completed, failed, fault)
    {
      completed, failed, fault := SendOne(b, id, job, i, completed, failed);
      i := i + 1;
    }
    if fault.Some? {
      LoopStaysStopped(start, id, job, i, |job.csvData|);
    }
  }

  method ProcessJob(b: Backend, id: JobId, job: Job) returns (escaped: Option<string>)
    modifies b
    ensures (b.State(), escaped) == Run(old(b.State()), id, job)
  {
    escaped := b.NewTransport();
    if escaped.Some? {
      return;
    }
    var completed, failed, fault := SendAll(b, id, job);
    escaped := CloseJob(b, id, completed, failed, fault);
  }

  // ---- What the loop and `processJob` do, stated over the logs and the store ----

  /** The messages for the first `a` rows. */
  function Letters(job: Job, a: nat): (r: seq<Message>)
    requires a <= |job.csvData|
    ensures |r| == a
  {
    if a == 0 then [] else Letters(job, a - 1) + [Compose(job.smtpConfig, job.csvData[a - 1])]
  }

  function Repeat(x: int, n: nat): seq<int> {
    if n == 0 then [] else Repeat(x, n - 1) + [x]
  }

  /** `Letters` lists the rows' messages in row order. */
  lemma {:induction false} LettersInOrder(job: Job, a: nat)
    requires a <= |job.csvData|
    ensures forall k :: 0 <= k < a ==> Letters(job, a)[k] == Compose(job.smtpConfig, job.csvData[k])
  {
    if a > 0 {
      LettersInOrder(job, a - 1);
    }
  }

  lemma {:induction false} RepeatAll(x: int, n: nat)
    ensures |Repeat(x, n)| == n
    ensures forall k :: 0 <= k < n ==> Repeat(x, n)[k] == x
  {
    if n > 0 {
      RepeatAll(x, n - 1);
    }
  }

  /** How many of the `a` messages from position `start` on the transport delivers. */
  function Delivered(outcomes: seq<bool>, start: nat, a: nat): (r: nat)
    ensures r <= a
  {
    if a == 0 then 0 else Delivered(outcomes, start, a - 1) + (if Verdict(outcomes, start + a - 1) then 1 else 0)
  }

  /** Every message counts as delivered when the transport accepts them all, and
      none does when it rejects them all. */
  lemma {:induction false} DeliveredAllOrNone(outcomes: seq<bool>, start: nat, a: nat)
    ensures (forall k :: start <= k < start + a ==> Verdict(outcomes, k)) ==> Delivered(outcomes, start, a) == a
    ensures (forall k :: start <= k < start + a ==> !Verdict(outcomes, k)) ==> Delivered(outcomes, start, a) == 0
  {
    if a > 0 {
      DeliveredAllOrNone(outcomes, start, a - 1);
    }
  }

  /** The pauses taken by a loop that attempted `attempted` of `n` rows: one after
      each row but the last, and none after the row whose write failed. */
  function Pauses(n: nat, attempted: nat, stopped: bool): nat {
    if stopped then (if attempted == 0 then 0 else attempted - 1)
    else if attempted < n then attempted
    else if n == 0 then 0
    else n - 1
  }

  /** The number of rows the loop attempted. */
  function Attempted(p: Progress): nat {
    p.completed + p.failed
  }

  /** What holds of the loop's state `p` after `i` passes started from `w`:
      one row attempted per pass, up to and including the one whose write
      failed; the completed count is the number of those the transport
      delivered; the attempted rows' messages were sent in row order; and a
      pause of `emailDelay` seconds followed each row but the last, and none
      followed a failed write. */
  predicate Tally(w: World, job: Job, p: Progress, i: nat) {
    var a := Attempted(p);
    && i <= |job.csvData|
    && a <= i
    && (p.fault.None? ==> a == i)
    && p.world.sendOutcomes == w.sendOutcomes
    && p.completed == Delivered(w.sendOutcomes, |w.outbox|, a)
    && p.world.outbox == w.outbox + Letters(job, a)
    && p.world.naps == w.naps + Repeat(job.emailDelay * 1000, Pauses(|job.csvData|, a, p.fault.Some?))
  }

  /** One pass keeps `Tally`. */
  lemma IterateKeepsTally(w: World, id: JobId, job: Job, p: Progress, i: nat)
    requires i < |job.csvData|
    requires Tally(w, job, p, i) && p.fault.None?
    ensures Tally(w, job, Iterate(p, id, job, i), i + 1)
  {
    var q := Iterate(p, id, job, i);
    var a := Attempted(p);
    var d := job.emailDelay * 1000;
    var n := |job.csvData|;
    assert Attempted(q) == a + 1;
    assert Letters(job, a + 1) == Letters(job, a) + [Compose(job.smtpConfig, job.csvData[a])];
    if q.fault.None? && a < n - 1 {
      assert Repeat(d, a + 1) == Repeat(d, a) + [d];
    } else {
      assert Pauses(n, a + 1, q.fault.Some?) == a;
    }
  }

  /** The loop keeps `Tally` at every pass. */
  lemma {:induction false} LoopKeepsTally(w: World, id: JobId, job: Job, i: nat)
    requires i <= |job.csvData|
    ensures Tally(w, job, Loop(w, id, job, i), i)
  {
    if i == 0 {
      assert w.outbox + [] == w.outbox;
      assert w.naps + [] == w.naps;
    } else {
      LoopKeepsTally(w, id, job, i - 1);
      var p := Loop(w, id, job, i - 1);
      if p.fault.None? {
        IterateKeepsTally(w, id, job, p, i - 1);
      }
    }
  }

  /** The collection `after` differs from `before` at most in the job stored under `id`. */
  predicate Frame(before: Collection, after: Collection, id: JobId) {
    && after.order == before.order
    && after.jobs.Keys == before.jobs.Keys
    && (forall k :: k in before.jobs && k != id ==> after.jobs[k] == before.jobs[k])
  }

  /** `after` is `before` with at most its two counters changed. */
  predicate CountsOnly(before: Job, after: Job) {
    after == before.(completedEmails := after.completedEmails, failedEmails := after.failedEmails)
  }

  predicate SameCounts(a: Job, b: Job) {
    a.completedEmails == b.completedEmails && a.failedEmails == b.failedEmails
  }

  /** Every store call from the cursor on succeeds. */
  predicate StoreHealthy(w: World) {
    forall k :: w.storeCalls <= k < |w.storeFaults| ==> w.storeFaults[k].None?
  }

  /** The store calls the loop's state `p` started from `w` has made: one write
      per attempted row, every one but the last answered with success, and the
      loop's fault, if any, the answer to the last. */
  predicate Calls(w: World, p: Progress) {
    var a := Attempted(p);
    && p.world.storeFaults == w.storeFaults
    && p.world.storeCalls == w.storeCalls + a
    && p.world.transportFaults == w.transportFaults
    && p.world.transportCalls == w.transportCalls
    && (forall j :: w.storeCalls <= j < w.storeCalls + a - 1 ==> FaultAt(w.storeFaults, j).None?)
    && p.fault == (if a == 0 then None else FaultAt(w.storeFaults, w.storeCalls + a - 1))
  }

  /** What the store holds after the loop's state `p` started from `w`: nothing
      changed but the job's counters, which hold the counts as of the last write
      that went through, so the current counts unless that write failed. */
  predicate Written(w: World, id: JobId, p: Progress) {
    && Frame(w.db, p.world.db, id)
    && (id in w.db.jobs ==>
          var before := w.db.jobs[id];
          var after := p.world.db.jobs[id];
          && CountsOnly(before, after)
          && (after == before || (after.completedEmails <= p.completed && after.failedEmails <= p.failed))
          && (p.fault.None? && Attempted(p) > 0 ==>
                after.completedEmails == p.completed && after.failedEmails == p.failed))
  }

  predicate Recorded(w: World, id: JobId, p: Progress) {
    Calls(w, p) && Written(w, id, p)
  }

  /** One pass keeps `Calls`. */
  lemma IterateKeepsCalls(w: World, id: JobId, job: Job, p: Progress, i: nat)
    requires i < |job.csvData|
    requires Calls(w, p) && p.fault.None?
    ensures Calls(w, Iterate(p, id, job, i))
  {
    var a := Attempted(p);
    assert Attempted(Iterate(p, id, job, i)) == a + 1;
    forall j | w.storeCalls <= j < w.storeCalls + a
      ensures FaultAt(w.storeFaults, j).None?
    {
      if j == w.storeCalls + a - 1 {
        assert p.fault == FaultAt(w.storeFaults, j);
      }
    }
  }

  /** One pass keeps `Written`. */
  lemma IterateKeepsWritten(w: World, id: JobId, job: Job, p: Progress, i: nat)
    requires i < |job.csvData|
    requires Written(w, id, p) && p.fault.None?
    ensures Written(w, id, Iterate(p, id, job, i))
  {
    var q := Iterate(p, id, job, i);
    var sent := Send(p.world, Compose(job.smtpConfig, job.csvData[i]));
    var written := Update(sent.0, id, ProgressPatch(q.completed, q.failed));
    assert q.world.db == written.0.db;
    if written.1.None? && id in w.db.jobs {
      var after := Apply(p.world.db.jobs[id], ProgressPatch(q.completed, q.failed));
      assert written.0.db == p.world.db.(jobs := p.world.db.jobs[id := after]);
      assert after.completedEmails == q.completed && after.failedEmails == q.failed;
    }
  }

  /** The loop keeps `Recorded` from one pass to the next. */
  lemma LoopStepRecorded(w: World, id: JobId, job: Job, i: nat)
    requires i < |job.csvData|
    requires Recorded(w, id, Loop(w, id, job, i))
    ensures Recorded(w, id, Loop(w, id, job, i + 1))
  {
    var p := Loop(w, id, job, i);
    if p.fault.None? {
      IterateKeepsCalls(w, id, job, p, i);
      IterateKeepsWritten(w, id, job, p, i);
    }
  }

  /** The loop keeps `Recorded` at every pass. */
  lemma {:induction false} LoopKeepsRecorded(w: World, id: JobId, job: Job, i: nat)
    requires i <= |job.csvData|
    ensures Recorded(w, id, Loop(w, id, job, i))
  {
    if i > 0 {
      LoopKeepsRecorded(w, id, job, i - 1);
      LoopStepRecorded(w, id, job, i - 1);
    }
  }

  /** The stored counters never go down during a run of a job that starts from
      zero counts: each pass leaves them as they were or raises them. */
  lemma StoredCountsGrow(w: World, id: JobId, job: Job, i: nat)
    requires i < |job.csvData|
    requires id in w.db.jobs
    requires w.db.jobs[id].completedEmails == 0 && w.db.jobs[id].failedEmails == 0
    ensures var now := Loop(w, id, job, i).world.db;
            var next := Loop(w, id, job, i + 1).world.db;
            && id in now.jobs && id in next.jobs
            && now.jobs[id].completedEmails <= next.jobs[id].completedEmails
            && now.jobs[id].failedEmails <= next.jobs[id].failedEmails
  {
    LoopKeepsRecorded(w, id, job, i);
    LoopKeepsRecorded(w, id, job, i + 1);
    var p := Loop(w, id, job, i);
    if p.fault.None? {
      var q := Iterate(p, id, job, i);
      var sent := Send(p.world, Compose(job.smtpConfig, job.csvData[i]));
      var written := Update(sent.0, id, ProgressPatch(q.completed, q.failed));
      assert q.world.db == written.0.db;
      if written.1.Some? {
        assert q.world.db == p.world.db;
      } else {
        assert q.world.db.jobs[id].completedEmails == q.completed;
        assert q.world.db.jobs[id].failedEmails == q.failed;
      }
    }
  }



  /** The job `id` is stored in both collections, and `later` counts at least
      as many completed and as many failed messages as `earlier`. */
  predicate CountsNotBelow(earlier: Collection, later: Collection, id: JobId) {
    && id in earlier.jobs && id in later.jobs
    && earlier.jobs[id].completedEmails <= later.jobs[id].completedEmails
    && earlier.jobs[id].failedEmails <= later.jobs[id].failedEmails
  }

  /** The stored counters after pass `i` are no more than after any later pass `j`. */
  lemma {:induction false} StoredCountsGrowTo(w: World, id: JobId, job: Job, i: nat, j: nat)
    requires i <= j <= |job.csvData|
    requires id in w.db.jobs
    requires w.db.jobs[id].completedEmails == 0 && w.db.jobs[id].failedEmails == 0
    ensures CountsNotBelow(Loop(w, id, job, i).world.db, Loop(w, id, job, j).world.db, id)
    decreases j - i
  {
    if i < j {
      StoredCountsGrow(w, id, job, i);
      StoredCountsGrowTo(w, id, job, i + 1, j);
    } else {
      LoopKeepsRecorded(w, id, job, i);
    }
  }

  /** The writes after the loop store the loop's own counters, or leave the
      store as the loop left it. */
  lemma CloseStoresCounters(p: Progress, id: JobId)
    requires id in p.world.db.jobs
    ensures id in Close(p, id).0.db.jobs
    ensures var after := Close(p, id).0.db.jobs[id];
            || Close(p, id).0.db == p.world.db
            || (after.completedEmails == p.completed && after.failedEmails == p.failed)
  {
  }

  /** Up to and including the final status write, the stored counters of a job
      that starts from zero never go down: what `processJob` leaves stored counts
      at least what was stored after any pass of its loop. */
  lemma RunCountsNeverDecrease(w: World, id: JobId, job: Job)
    requires id in w.db.jobs
    requires w.db.jobs[id].completedEmails == 0 && w.db.jobs[id].failedEmails == 0
    requires FaultAt(w.transportFaults, w.transportCalls).None?
    ensures forall i :: 0 <= i <= |job.csvData| ==>
              CountsNotBelow(Loop(CreateTransport(w).0, id, job, i).world.db, Run(w, id, job).0.db, id)
  {
    var start := CreateTransport(w).0;
    var n := |job.csvData|;
    var p := Loop(start, id, job, n);
    LoopKeepsRecorded(start, id, job, n);
    CloseStoresCounters(p, id);
    assert Run(w, id, job) == Close(p, id);
    assert CountsNotBelow(p.world.db, Run(w, id, job).0.db, id);
    forall i | 0 <= i <= n
      ensures CountsNotBelow(Loop(start, id, job, i).world.db, Run(w, id, job).0.db, id)
    {
      StoredCountsGrowTo(start, id, job, i, n);
    }
  }

  lemma FrameTrans(a: Collection, b: Collection, c: Collection, id: JobId)
    requires Frame(a, b, id) && Frame(b, c, id)
    ensures Frame(a, c, id)
  {
    if id in a.jobs {
      assert a.jobs[id := b.jobs[id]][id := c.jobs[id]] == a.jobs[id := c.jobs[id]];
    }
  }

  /** A write to `id` leaves the rest of the collection alone. */
  lemma UpdateFrame(w: World, id: JobId, patch: Patch)
    ensures Frame(w.db, Update(w, id, patch).0.db, id)
  {
  }

  /** A write that goes through to a stored job stores the patched job. */
  lemma UpdateSets(w: World, id: JobId, patch: Patch)
    ensures var r := Update(w, id, patch);
            r.1.None? && id in w.db.jobs ==> r.0.db.jobs == w.db.jobs[id := Apply(w.db.jobs[id], patch)]
  {
  }

  /** The stored job `after` is `before` with at most its status, counters and
      error changed, and it ended as a run that attempted `n` rows may end: either
      completed with every row counted and the error left alone, or failed with
      an error and at most `n` rows counted. */
  predicate Ended(before: Job, after: Job, n: nat) {
    && SameDefinition(after, before)
    && ((after.status == Completed && after.completedEmails + after.failedEmails == n && after.error == before.error)
        || (after.status == Failed && after.error.Some? && after.completedEmails + after.failedEmails <= n))
  }

  /** The writes after the loop: once no error escapes the job ends completed or
      failed; when one escapes, the stored job is left as the loop left it. */
  lemma CloseOutcome(p: Progress, id: JobId, n: nat)
    requires id in p.world.db.jobs
    requires Attempted(p) <= n
    requires p.fault.None? ==> Attempted(p) == n
    ensures var r := Close(p, id);
            && Frame(p.world.db, r.0.db, id)
            && id in r.0.db.jobs
            && (r.1.None? ==> Ended(p.world.db.jobs[id], r.0.db.jobs[id], n))
            && (r.1.Some? ==> r.0.db == p.world.db)
  {
    var closed := if p.fault.None? then Update(p.world, id, CompletedPatch(p)) else (p.world, p.fault);
    UpdateFrame(p.world, id, CompletedPatch(p));
    if closed.1.Some? {
      assert closed.0.db == p.world.db;
      UpdateFrame(closed.0, id, FailedPatch(p, closed.1.value));
    }
  }

  /** `processJob` changes only the job it runs. When no error escapes, that job
      has ended completed or failed; when one escapes, its status and error are
      as before and at most its counters moved, to counts of attempted rows. A
      failure to create the transport escapes before anything is sent or written. */
  lemma RunOutcome(w: World, id: JobId, job: Job)
    requires id in w.db.jobs
    ensures var r := Run(w, id, job);
            var before := w.db.jobs[id];
            && r.0.db.order == w.db.order
            && r.0.db.jobs.Keys == w.db.jobs.Keys
            && (forall k :: k in w.db.jobs && k != id ==> r.0.db.jobs[k] == w.db.jobs[k])
            && (r.1.None? ==> Ended(before, r.0.db.jobs[id], |job.csvData|))
            && (r.1.Some? ==>
                  var after := r.0.db.jobs[id];
                  && CountsOnly(before, after)
                  && (SameCounts(before, after) || after.completedEmails + after.failedEmails <= |job.csvData|))
    ensures Frame(w.db, Run(w, id, job).0.db, id)
    ensures var fault := FaultAt(w.transportFaults, w.transportCalls);
            var r := Run(w, id, job);
            fault.Some? ==> r.1 == fault && r.0.db == w.db && r.0.outbox == w.outbox && r.0.naps == w.naps
  {
    var created := CreateTransport(w);
    var r := Run(w, id, job);
    if created.1.None? {
      var n := |job.csvData|;
      var p := Loop(created.0, id, job, n);
      LoopKeepsRecorded(created.0, id, job, n);
      LoopKeepsTally(created.0, id, job, n);
      CloseOutcome(p, id, n);
      FrameTrans(w.db, p.world.db, r.0.db, id);
    }
  }

  /** With a working transport and a healthy store, `processJob` sends every
      row's message in row order, pauses `emailDelay` seconds between rows, and
      ends the job completed with the delivered messages counted as completed and
      the rest as failed; nothing escapes. A failed send never stops the loop. */
  lemma RunWithoutFaults(w: World, id: JobId, job: Job)
    requires id in w.db.jobs
    requires StoreHealthy(w)
    requires FaultAt(w.transportFaults, w.transportCalls).None?
    ensures id in Run(w, id, job).0.db.jobs
    ensures var r := Run(w, id, job);
            var n := |job.csvData|;
            var after := r.0.db.jobs[id];
            && r.1.None?
            && after.status == Completed
            && after.completedEmails == Delivered(w.sendOutcomes, |w.outbox|, n)
            && after.completedEmails + after.failedEmails == n
            && after.error == w.db.jobs[id].error
            && r.0.outbox == w.outbox + Letters(job, n)
            && r.0.naps == w.naps + Repeat(job.emailDelay * 1000, if n == 0 then 0 else n - 1)
  {
    var n := |job.csvData|;
    var created := CreateTransport(w);
    var p := Loop(created.0, id, job, n);
    LoopKeepsRecorded(created.0, id, job, n);
    LoopKeepsTally(created.0, id, job, n);
    if Attempted(p) > 0 {
      assert FaultAt(w.storeFaults, w.storeCalls + Attempted(p) - 1).None?;
    }
    assert FaultAt(w.storeFaults, p.world.storeCalls).None?;
    assert Pauses(n, n, false) == (if n == 0 then 0 else n - 1);
  }

  /** A loop whose calls are as `Calls` says stops at the first failing write. */
  lemma StopsAtFirstFault(w: World, p: Progress, n: nat, k: nat)
    requires Calls(w, p)
    requires Attempted(p) <= n && (p.fault.None? ==> Attempted(p) == n)
    requires k < n
    requires forall j :: w.storeCalls <= j < w.storeCalls + k ==> FaultAt(w.storeFaults, j).None?
    requires FaultAt(w.storeFaults, w.storeCalls + k).Some?
    ensures p.fault.Some? && Attempted(p) == k + 1
  {
  }

  /** When the transport is created and the store first fails on the write
      after row `k`, `processJob` stops there: rows `0..k` were sent and counted,
      no pause followed row `k`, and, if the next write goes through, the job ends
      failed with that store error and the counts reached. */
  lemma RunStoreFailure(w: World, id: JobId, job: Job, k: nat)
    requires id in w.db.jobs
    requires FaultAt(w.transportFaults, w.transportCalls).None?
    requires k < |job.csvData|
    requires forall j :: w.storeCalls <= j < w.storeCalls + k ==> FaultAt(w.storeFaults, j).None?
    requires FaultAt(w.storeFaults, w.storeCalls + k).Some?
    requires FaultAt(w.storeFaults, w.storeCalls + k + 1).None?
    ensures id in Run(w, id, job).0.db.jobs
    ensures var r := Run(w, id, job);
            var after := r.0.db.jobs[id];
            && r.1.None?
            && after.status == Failed
            && after.error == FaultAt(w.storeFaults, w.storeCalls + k)
            && after.completedEmails == Delivered(w.sendOutcomes, |w.outbox|, k + 1)
            && after.completedEmails + after.failedEmails == k + 1
            && r.0.outbox == w.outbox + Letters(job, k + 1)
            && r.0.naps == w.naps + Repeat(job.emailDelay * 1000, k)
  {
    var n := |job.csvData|;
    var created := CreateTransport(w);
    var p := Loop(created.0, id, job, n);
    LoopKeepsRecorded(created.0, id, job, n);
    LoopKeepsTally(created.0, id, job, n);
    StopsAtFirstFault(created.0, p, n, k);
    var msg := FaultAt(w.storeFaults, w.storeCalls + k).value;
    assert p.fault == Some(msg) && p.world.storeCalls == w.storeCalls + k + 1;
    var closed := Update(p.world, id, FailedPatch(p, msg));
    assert Run(w, id, job) == closed;
    assert closed.1.None?;
    assert p.completed == Delivered(w.sendOutcomes, |w.outbox|, k + 1);
    assert p.world.outbox == w.outbox + Letters(job, k + 1);
    assert Pauses(n, k + 1, true) == k;
    assert p.world.storeCalls == w.storeCalls + k + 1;
  }

  /** At most this many jobs are picked per poll. */
  const BatchLimit: nat := 5

  /** The query of `GET`: pending and scheduled no later than `now`. */
  predicate Due(db: Collection, id: JobId, now: int) {
    id in db.jobs && db.jobs[id].status == Pending && db.jobs[id].scheduledTime <= now
  }

  /** The first `limit` due ids of `ids`, in order. */
  function Pick(db: Collection, now: int, ids: seq<JobId>, limit: nat): (r: seq<JobId>)
    ensures |r| <= limit
    ensures forall k :: k in r ==> k in ids && Due(db, k, now)
    ensures |r| < limit ==> forall k :: k in ids && Due(db, k, now) ==> k in r
    ensures Distinct(ids) ==> Distinct(r)
    decreases |ids|
  {
    if ids == [] || limit == 0 then []
    else if Due(db, ids[0], now) then [ids[0]] + Pick(db, now, ids[1..], limit - 1)
    else Pick(db, now, ids[1..], limit)
  }

  /** `find({status: 'pending', scheduledTime: {$lte: now}}).limit(5)` in natural order. */
  function SelectDue(db: Collection, now: int): (r: seq<JobId>)
    ensures |r| <= BatchLimit
    ensures forall k :: k in r ==> Due(db, k, now)
    ensures |r| < BatchLimit ==> forall k :: k in db.order && Due(db, k, now) ==> k in r
    ensures Distinct(db.order) ==> Distinct(r)
  {
    Pick(db, now, db.order, BatchLimit)
  }

  datatype PollResponse = Polled(jobsProcessed: nat) | PollFailed(error: string) {
    function Code(): int {
      if Polled? then 200 else 500
    }
  }

  function ProcessingPatch(): Patch {
    Patch(Some(Processing), None, None, None)
  }

  /** One pass of `GET`'s loop: mark the job processing, then run it. */
  function Claim(w: World, id: JobId, job: Job): (World, Option<string>) {
    var marked := Update(w, id, ProcessingPatch());
    if marked.1.Some? then marked else Run(marked.0, id, job)
  }

  /** `GET`'s loop over `ids`, using the documents as `find` returned them: claim
      and run each job in turn; an escaping error ends the loop. */
  function ClaimAll(w: World, ids: seq<JobId>, found: map<JobId, Job>): (World, Option<string>)
    requires forall k :: k in ids ==> k in found
    decreases |ids|
  {
    if ids == [] then (w, None)
    else
      var r := Claim(w, ids[0], found[ids[0]]);
      if r.1.Some? then r else ClaimAll(r.0, ids[1..], found)
  }

  /** `GET`: query, then claim and run each selected job in turn; any error that
      escapes answers 500, otherwise the number of jobs selected is reported. */
  function PollSpec(w: World, now: int): (World, PollResponse) {
    var queried := Query(w);
    if queried.1.Some? then (queried.0, PollFailed(queried.1.value))
    else
      var db := queried.0.db;
      var selected := SelectDue(db, now);
      var ran := ClaimAll(queried.0, selected, db.jobs);
      if ran.1.Some? then (ran.0, PollFailed(ran.1.value)) else (ran.0, Polled(|selected|))
  }

  /** One pass of `GET`'s loop. */
  method ClaimJob(b: Backend, id: JobId, job: Job) returns (escaped: Option<string>)
    modifies b
    ensures (b.State(), escaped) == Claim(old(b.State()), id, job)
  {
    escaped := b.FindByIdAndUpdate(id, ProcessingPatch());
    if escaped.None? {
      escaped := ProcessJob(b, id, job);
    }
  }

  /** `GET`'s loop over the selected jobs. */
  method ClaimSelected(b: Backend, selected: seq<JobId>, found: map<JobId, Job>) returns (fault: Option<string>)
    requires forall k :: k in selected ==> k in found
    modifies b
    ensures (b.State(), fault) == ClaimAll(old(b.State()), selected, found)
  {
    ghost var outcome := ClaimAll(b.State(), selected, found);
    fault := None;
    var i := 0;
    while i < |selected| && fault.None?
      invariant i <= |selected|
      invariant fault.None? ==> ClaimAll(b.State(), selected[i..], found) == outcome
      invariant fault.Some? ==> (b.State(), fault) == outcome
    {
      assert selected[i..][1..] == selected[i + 1..];
      fault := ClaimJob(b, selected[i], found[selected[i]]);
      i := i + 1;
    }
  }

  method Poll(b: Backend, now: int) returns (r: PollResponse)
    modifies b
    ensures (b.State(), r) == PollSpec(old(b.State()), now)
  {
    var fault := b.Connect();
    if fault.Some? {
      return PollFailed(fault.value);
    }
    var found := b.db.jobs;
    var selected := SelectDue(b.db, now);
    fault := ClaimSelected(b, selected, found);
    if fault.Some? {
      r := PollFailed(fault.value);
    } else {
      r := Polled(|selected|);
    }
  }

  // ---- What `GET` does to the collection ----

  /** What a claim of a job with `n` rows may leave: the job as it was (the mark
      failed); marked processing with its error kept and its counters kept or at
      most `n` (the run was cut short by an escaping error); or ended. */
  predicate Touched(before: Job, after: Job, n: nat) {
    || after == before
    || (&& SameDefinition(after, before)
        && after.status == Processing
        && after.error == before.error
        && (SameCounts(before, after) || after.completedEmails + after.failedEmails <= n))
    || Ended(before, after, n)
  }

  /** One pass of `GET`'s loop changes only the job it claims; the job ends
      completed or failed unless an error escapes. The mark comes first: when it
      fails, nothing is sent and the job is left as it was. */
  lemma ClaimOutcome(w: World, id: JobId, job: Job)
    requires id in w.db.jobs
    ensures var r := Claim(w, id, job);
            && Frame(w.db, r.0.db, id)
            && id in r.0.db.jobs
            && Touched(w.db.jobs[id], r.0.db.jobs[id], |job.csvData|)
            && (r.1.None? ==> Ended(w.db.jobs[id], r.0.db.jobs[id], |job.csvData|))
    ensures var fault := FaultAt(w.storeFaults, w.storeCalls);
            var r := Claim(w, id, job);
            fault.Some? ==> r.1 == fault && r.0.db == w.db && r.0.outbox == w.outbox && r.0.naps == w.naps
  {
    var marked := Update(w, id, ProcessingPatch());
    UpdateFrame(w, id, ProcessingPatch());
    if marked.1.None? {
      var r := Run(marked.0, id, job);
      RunOutcome(marked.0, id, job);
      FrameTrans(w.db, marked.0.db, r.0.db, id);
    }
  }

  /** What `GET`'s loop over `ids` leaves in the collection: the same ids in the
      same order; every job not in `ids` as it was; every job in `ids` touched;
      and, unless an error escaped, every job in `ids` ended. */
  predicate Swept(before: Collection, after: Collection, ids: seq<JobId>, found: map<JobId, Job>, fault: Option<string>) {
    && after.order == before.order
    && after.jobs.Keys == before.jobs.Keys
    && (forall k :: k in before.jobs && k !in ids ==> after.jobs[k] == before.jobs[k])
    && (forall k :: k in before.jobs && k in ids && k in found ==> Touched(before.jobs[k], after.jobs[k], |found[k].csvData|))
    && (fault.None? ==>
          forall k :: k in before.jobs && k in ids && k in found ==>
            Ended(before.jobs[k], after.jobs[k], |found[k].csvData|))
  }

  /** A claim that ended its job, followed by a sweep of the others. */
  lemma SweptCons(a: Collection, b: Collection, c: Collection, id: JobId, rest: seq<JobId>,
                  found: map<JobId, Job>, fault: Option<string>)
    requires id in a.jobs && id in b.jobs && id !in rest && id in found
    requires Frame(a, b, id)
    requires Ended(a.jobs[id], b.jobs[id], |found[id].csvData|)
    requires Swept(b, c, rest, found, fault)
    ensures Swept(a, c, [id] + rest, found, fault)
  {
  }

  /** A claim from which an error escaped: the loop stops there. */
  lemma SweptStopped(a: Collection, b: Collection, id: JobId, rest: seq<JobId>,
                     found: map<JobId, Job>, fault: Option<string>)
    requires id in a.jobs && id in b.jobs && id in found && fault.Some?
    requires Frame(a, b, id)
    requires Touched(a.jobs[id], b.jobs[id], |found[id].csvData|)
    ensures Swept(a, b, [id] + rest, found, fault)
  {
  }

  /** `GET`'s loop over distinct ids changes only those jobs; each is touched,
      and when no error escapes each has ended completed or failed. */
  lemma {:induction false} ClaimAllSwept(w: World, ids: seq<JobId>, found: map<JobId, Job>)
    requires Distinct(ids)
    requires forall k :: k in ids ==> k in found && k in w.db.jobs
    ensures var r := ClaimAll(w, ids, found); Swept(w.db, r.0.db, ids, found, r.1)
    decreases |ids|
  {
    if ids != [] {
      var id := ids[0];
      var rest := ids[1..];
      assert ids == [id] + rest;
      var r := Claim(w, id, found[id]);
      ClaimOutcome(w, id, found[id]);
      if r.1.Some? {
        SweptStopped(w.db, r.0.db, id, rest, found, r.1);
      } else {
            ClaimAllSwept(r.0, rest, found);
        SweptCons(w.db, r.0.db, ClaimAll(r.0, rest, found).0.db, id, rest, found, ClaimAll(r.0, rest, found).1);
      }
    }
  }

  /** `GET` on a valid collection: the ids and their order are kept; every job it
      did not select is unchanged; every selected job (each due and pending) is
      touched and, when `GET` answers 200, has ended, and the answer counts the
      selected jobs. When the query fails nothing is claimed. */
  lemma PollEffect(w: World, now: int)
    requires Valid(w.db)
    ensures var r := PollSpec(w, now);
            var selected := SelectDue(w.db, now);
            && r.0.db.order == w.db.order
            && r.0.db.jobs.Keys == w.db.jobs.Keys
            && (forall k :: k in w.db.jobs && k !in selected ==> r.0.db.jobs[k] == w.db.jobs[k])
            && (forall k :: k in selected ==>
                  Due(w.db, k, now) && Touched(w.db.jobs[k], r.0.db.jobs[k], |w.db.jobs[k].csvData|))
            && (r.1.Polled? ==>
                  && r.1.jobsProcessed == |selected|
                  && forall k :: k in selected ==> Ended(w.db.jobs[k], r.0.db.jobs[k], |w.db.jobs[k].csvData|))
            && (FaultAt(w.storeFaults, w.storeCalls).Some? ==> r.0.db == w.db && r.1.PollFailed?)
  {
    var queried := Query(w);
    if queried.1.None? {
      var selected := SelectDue(w.db, now);
      ClaimAllSwept(queried.0, selected, w.db.jobs);
    }
  }

  /** `GET` keeps the collection valid and every job well formed. */
  lemma PollKeepsWellFormed(w: World, now: int)
    requires Valid(w.db) && AllWellFormed(w.db)
    ensures Valid(PollSpec(w, now).0.db) && AllWellFormed(PollSpec(w, now).0.db)
  {
    var after := PollSpec(w, now).0.db;
    PollEffect(w, now);
    forall k | k in after.jobs
      ensures WellFormed(after.jobs[k])
    {
      var before := w.db.jobs[k];
      if k in SelectDue(w.db, now) {
        TouchedKeepsWellFormed(before, after.jobs[k]);
      }
    }
  }

  /** A touched job stays well formed. */
  lemma TouchedKeepsWellFormed(before: Job, after: Job)
    requires WellFormed(before) && Touched(before, after, |before.csvData|)
    ensures WellFormed(after)
  {
  }
}

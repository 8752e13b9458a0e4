/**
 * The submission route (src/app/api/send-emails/route.ts): the CSV header
 * mapping, the row filter of `parseCsvBuffer`, the guard chain of `POST` and
 * the job it inserts. The CSV tokenizer, the form decoding and `parseInt` and
 * `Date` parsing are outside: a request arrives with its fields already
 * extracted and the file already split into rows.
 */
module SendEmails {
  import opened Wrappers
  import opened Strings
  import opened EmailJob

  const FirstNameHeaders: set<string> := {"first name", "firstname", "first_name"}
  const EmailHeaders: set<string> := {"email", "email address", "emailaddress"}
  const SubjectHeaders: set<string> := {"subject", "email subject"}
  const BodyHeaders: set<string> := {"body", "email body", "message"}

  /** `h` is one of the spellings that map to a canonical field. */
  predicate IsSynonym(h: string) {
    h in FirstNameHeaders || h in EmailHeaders || h in SubjectHeaders || h in BodyHeaders
  }

  /** The header lower-cased, then trimmed, as `mapHeaders` first does. */
  function Folded(header: string): (h: string)
    ensures NoUpper(h) && Trimmed(h)
  {
    TrimKeepsNoUpper(Lower(header));
    TrimIsTrimmed(Lower(header));
    Trim(Lower(header))
  }

  /** The synonym table applied to a folded header: each synonym goes to its
      canonical field name, anything else is kept as it is. */
  function CanonicalName(h: string): (r: string)
    requires NoUpper(h)
    ensures r == "firstName" <==> h in FirstNameHeaders
    ensures r == "email" <==> h in EmailHeaders
    ensures r == "subject" <==> h in SubjectHeaders
    ensures r == "body" <==> h in BodyHeaders
    ensures !IsSynonym(h) ==> r == h
  {
    assert h == "firstName" ==> IsUpper(h[5]);
    if h in FirstNameHeaders then "firstName"
    else if h in EmailHeaders then "email"
    else if h in SubjectHeaders then "subject"
    else if h in BodyHeaders then "body"
    else h
  }

  /** The `mapHeaders` callback: lower-case and trim the header, then look it up
      in the synonym table. */
  function NormalizeHeader(header: string): (r: string)
    ensures r == "firstName" <==> Folded(header) in FirstNameHeaders
    ensures r == "email" <==> Folded(header) in EmailHeaders
    ensures r == "subject" <==> Folded(header) in SubjectHeaders
    ensures r == "body" <==> Folded(header) in BodyHeaders
    ensures !IsSynonym(Folded(header)) ==> r == Folded(header)
  {
    CanonicalName(Folded(header))
  }

  /** Each canonical name folds to one of its own synonyms. */
  lemma FoldedFirstName()
    ensures Folded("firstName") == "firstname"
  {
    assert Lower("firstName") == "firstname";
    TrimOfTrimmed("firstname");
  }

  lemma FoldedLowerCaseName(name: string)
    requires name in {"email", "subject", "body"}
    ensures Folded(name) == name
  {
    LowerOfLower(name);
    TrimOfTrimmed(name);
  }

  /** A folded header folds to itself. */
  lemma FoldedOfFolded(h: string)
    requires NoUpper(h) && Trimmed(h)
    ensures Folded(h) == h
  {
    LowerOfLower(h);
    TrimOfTrimmed(h);
  }

  /** Mapping a header that is already mapped changes nothing
      ("First Name" -> "firstName" -> "firstName"). */
  lemma {:induction false} NormalizeHeaderIdempotent(header: string)
    ensures NormalizeHeader(NormalizeHeader(header)) == NormalizeHeader(header)
  {
    var h := Folded(header);
    if h in FirstNameHeaders {
      FoldedFirstName();
    } else if IsSynonym(h) {
      FoldedLowerCaseName(NormalizeHeader(header));
    } else {
      FoldedOfFolded(h);
    }
  }

  /** The uploaded file as the CSV parser splits it: the header line and the
      cells of each data row, left to right. */
  datatype CsvFile = CsvFile(header: seq<string>, rows: seq<seq<string>>)

  /** The parser applies `mapHeaders` once, to each header of the first line:
      a column is named after a canonical field exactly when its folded header is
      one of that field's synonyms, and any other column keeps its folded header. */
  function MapHeaders(header: seq<string>): (names: seq<string>)
    ensures |names| == |header|
    ensures forall i :: 0 <= i < |header| ==> names[i] == NormalizeHeader(header[i])
    ensures forall i :: 0 <= i < |header| ==> (names[i] == "firstName" <==> Folded(header[i]) in FirstNameHeaders)
    ensures forall i :: 0 <= i < |header| ==> (names[i] == "email" <==> Folded(header[i]) in EmailHeaders)
    ensures forall i :: 0 <= i < |header| ==> (names[i] == "subject" <==> Folded(header[i]) in SubjectHeaders)
    ensures forall i :: 0 <= i < |header| ==> (names[i] == "body" <==> Folded(header[i]) in BodyHeaders)
    ensures forall i :: 0 <= i < |header| && !IsSynonym(Folded(header[i])) ==> names[i] == Folded(header[i])
  {
    seq(|header|, i requires 0 <= i < |header| => NormalizeHeader(header[i]))
  }

  /** The object emitted for one row: the first `n` cells stored under their
      column names, a later column overwriting an earlier one of the same name. */
  function Fill(names: seq<string>, cells: seq<string>, n: nat): map<string, string>
    requires n <= |names| && n <= |cells|
  {
    if n == 0 then map[] else Fill(names, cells, n - 1)[names[n - 1] := cells[n - 1]]
  }

  /** A row's object: cells beyond the header are keyed by position by the parser
      and never match a field name, so only the named columns are kept here. */
  function Record(names: seq<string>, cells: seq<string>): map<string, string> {
    Fill(names, cells, if |names| < |cells| then |names| else |cells|)
  }

  /** The object has a key exactly for the column names the row reaches,
      and holds the cell of the last column of that name. */
  lemma {:induction false} FillLookup(names: seq<string>, cells: seq<string>, n: nat, key: string)
    requires n <= |names| && n <= |cells|
    ensures key in Fill(names, cells, n) <==> key in names[..n]
    ensures key in Fill(names, cells, n) ==>
      exists i :: 0 <= i < n && names[i] == key && Fill(names, cells, n)[key] == cells[i]
        && forall j :: i < j < n ==> names[j] != key
  {
    if n > 0 {
      FillLookup(names, cells, n - 1, key);
      assert names[..n] == names[..n - 1] + [names[n - 1]];
    }
  }

  /** A JavaScript string is truthy when it is present and not empty. */
  predicate Truthy(rec: map<string, string>, key: string) {
    key in rec && rec[key] != ""
  }

  /** The test of the `data` handler: all four fields are truthy (checked before trimming). */
  predicate Accepts(rec: map<string, string>) {
    Truthy(rec, "firstName") && Truthy(rec, "email") && Truthy(rec, "subject") && Truthy(rec, "body")
  }

  predicate TrimmedRecipient(r: Recipient) {
    Trimmed(r.firstName) && Trimmed(r.email) && Trimmed(r.subject) && Trimmed(r.body)
  }

  /** The row pushed for an accepted record: each field trimmed. */
  function ToRecipient(rec: map<string, string>): (r: Recipient)
    requires Accepts(rec)
    ensures TrimmedRecipient(r)
  {
    TrimIsTrimmed(rec["firstName"]);
    TrimIsTrimmed(rec["email"]);
    TrimIsTrimmed(rec["subject"]);
    TrimIsTrimmed(rec["body"]);
    Recipient(Trim(rec["firstName"]), Trim(rec["email"]), Trim(rec["subject"]), Trim(rec["body"]))
  }

  /** The parser emits an accepted record for this row. */
  predicate Accepted(names: seq<string>, cells: seq<string>) {
    Accepts(Record(names, cells))
  }

  /** What the data handler keeps of the rows: the accepted ones, trimmed, in file order. */
  function KeptRows(names: seq<string>, rows: seq<seq<string>>): (r: seq<Recipient>)
    ensures |r| <= |rows|
    ensures forall k :: 0 <= k < |r| ==> TrimmedRecipient(r[k])
    decreases |rows|
  {
    if rows == [] then []
    else
      var rec := Record(names, rows[|rows| - 1]);
      KeptRows(names, rows[..|rows| - 1]) + (if Accepts(rec) then [ToRecipient(rec)] else [])
  }

  /** What `parseCsvBuffer` resolves with. */
  function ParseCsv(file: CsvFile): seq<Recipient> {
    KeptRows(MapHeaders(file.header), file.rows)
  }

  /** The `data` handler run over the rows: each accepted row is pushed onto `results`. */
  method CollectRows(file: CsvFile) returns (results: seq<Recipient>)
    ensures results == ParseCsv(file)
  {
    var names := MapHeaders(file.header);
    var rows := file.rows;
    results := [];
    for i := 0 to |rows|
      invariant results == KeptRows(names, rows[..i])
    {
      var data := Record(names, rows[i]);
      if Accepts(data) {
        results := results + [ToRecipient(data)];
      }
      assert rows[..i + 1][..i] == rows[..i];
    }
    assert rows[..|rows|] == rows;
  }

  /** The filter is stable and works row by row: filtering a concatenation is
      concatenating the filtered parts. */
  lemma {:induction false} KeptRowsAppend(names: seq<string>, a: seq<seq<string>>, b: seq<seq<string>>)
    ensures KeptRows(names, a + b) == KeptRows(names, a) + KeptRows(names, b)
    decreases |b|
  {
    if b == [] {
      assert a + b == a;
    } else {
      var b' := b[..|b| - 1];
      assert (a + b)[..|a + b| - 1] == a + b';
      KeptRowsAppend(names, a, b');
    }
  }

  /** A single row yields itself, trimmed, when accepted, and nothing otherwise. */
  lemma KeptRowsSingle(names: seq<string>, cells: seq<string>)
    ensures KeptRows(names, [cells]) ==
      if Accepted(names, cells) then [ToRecipient(Record(names, cells))] else []
  {
    assert [cells][..0] == [];
  }

  /** No row survives exactly when no row is accepted. */
  lemma {:induction false} KeptRowsEmptyIff(names: seq<string>, rows: seq<seq<string>>)
    ensures |KeptRows(names, rows)| == 0 <==> forall k :: 0 <= k < |rows| ==> !Accepted(names, rows[k])
    decreases |rows|
  {
    if rows != [] {
      var init, last := rows[..|rows| - 1], rows[|rows| - 1];
      KeptRowsEmptyIff(names, init);
      assert |KeptRows(names, rows)| == |KeptRows(names, init)| + (if Accepted(names, last) then 1 else 0);
      assert forall k :: 0 <= k < |init| ==> init[k] == rows[k];
    }
  }

  /** `s` consists of whitespace only (the empty string included). */
  predicate Blank(s: string) {
    forall i :: 0 <= i < |s| ==> IsSpace(s[i])
  }

  /** The truthiness test runs before trimming, so a cell of whitespace only is
      accepted and stored as "": a kept field is empty exactly when its cell was blank. */
  lemma BlankCellsBecomeEmpty(rec: map<string, string>)
    requires Accepts(rec)
    ensures ToRecipient(rec).firstName == "" <==> Blank(rec["firstName"])
    ensures ToRecipient(rec).email == "" <==> Blank(rec["email"])
    ensures ToRecipient(rec).subject == "" <==> Blank(rec["subject"])
    ensures ToRecipient(rec).body == "" <==> Blank(rec["body"])
    ensures RecipientComplete(ToRecipient(rec)) <==>
      !Blank(rec["firstName"]) && !Blank(rec["email"]) && !Blank(rec["subject"]) && !Blank(rec["body"])
  {
    TrimEmptyIff(rec["firstName"]);
    TrimEmptyIff(rec["email"]);
    TrimEmptyIff(rec["subject"]);
    TrimEmptyIff(rec["body"]);
  }

  /** The fields `POST` reads from the form. `parseInt` gives `None` for NaN;
      an absent or empty schedule is `None`; an absent file is `None`. */
  datatype SubmitRequest = SubmitRequest(
    csvFile: Option<CsvFile>,
    smtpUsername: string,
    smtpPassword: string,
    senderName: string,
    smtpServer: string,
    smtpPort: Option<int>,
    scheduledTime: Option<int>,
    emailDelay: Option<int>)

  /** A parsed number is truthy unless it is NaN or 0. */
  predicate NumberTruthy(n: Option<int>) {
    n.Some? && n.value != 0
  }

  predicate MissingFields(req: SubmitRequest) {
    || req.csvFile.None?
    || req.smtpUsername == ""
    || req.smtpPassword == ""
    || req.senderName == ""
    || req.smtpServer == ""
    || !NumberTruthy(req.smtpPort)
    || !NumberTruthy(req.emailDelay)
  }

  predicate ScheduledInPast(req: SubmitRequest, now: int) {
    req.scheduledTime.Some? && req.scheduledTime.value <= now
  }

  /** NaN compares false both ways, so only a number can be out of range. */
  predicate DelayOutOfRange(req: SubmitRequest) {
    req.emailDelay.Some? && (req.emailDelay.value < 1 || req.emailDelay.value > 3600)
  }

  /** The rows the file yields; no file yields none. */
  function Rows(req: SubmitRequest): seq<Recipient> {
    if req.csvFile.Some? then ParseCsv(req.csvFile.value) else []
  }

  const MissingFieldsMessage := "Missing required fields"
  const PastScheduleMessage := "Scheduled time must be in the future"
  const DelayRangeMessage := "Email delay must be between 1 and 3600 seconds"
  const NoRowsMessage := "No valid email data found in CSV"
  const InsertFailedMessage := "Error creating email job"
  const DuplicateKeyError := "duplicate key value violates unique constraint"

  datatype SubmitResponse =
    | Rejected(message: string)
    | InsertFailed(message: string, error: string)
    | Created(jobId: JobId, totalEmails: nat, scheduledTime: int)
  {
    function Code(): int {
      match this
      case Rejected(_) => 400
      case InsertFailed(_, _) => 500
      case Created(_, _, _) => 200
    }
  }

  /** The early returns of `POST`, in source order: the message of the first
      check that fails, or `None` when the request may be inserted. */
  function Check(req: SubmitRequest, now: int): (r: Option<string>)
    ensures r.Some? ==> r.value in {MissingFieldsMessage, PastScheduleMessage, DelayRangeMessage, NoRowsMessage}
    ensures r.None? ==>
      && req.csvFile.Some? && req.smtpPort.Some? && req.smtpPort.value != 0 && req.emailDelay.Some?
      && SmtpComplete(SmtpConfig(req.smtpUsername, req.smtpPassword, req.smtpServer, req.smtpPort.value, req.senderName))
      && 1 <= req.emailDelay.value <= 3600
      && (req.scheduledTime.Some? ==> req.scheduledTime.value > now)
      && |Rows(req)| >= 1
  {
    if MissingFields(req) then Some(MissingFieldsMessage)
    else if ScheduledInPast(req, now) then Some(PastScheduleMessage)
    else if DelayOutOfRange(req) then Some(DelayRangeMessage)
    else if |Rows(req)| == 0 then Some(NoRowsMessage)
    else None
  }

  /** `POST`: the guards, then the insert. `newId` is the id the store would
      assign and `insertError` the error the store reports, if any; inserting
      an id already present fails like any store error. */
  function Submit(req: SubmitRequest, now: int, newId: JobId, insertError: Option<string>, db: Collection)
    : (SubmitResponse, Collection)
  {
    var failure := Check(req, now);
    if failure.Some? then (Rejected(failure.value), db)
    else if insertError.Some? then (InsertFailed(InsertFailedMessage, insertError.value), db)
    else if newId in db.jobs then (InsertFailed(InsertFailedMessage, DuplicateKeyError), db)
    else
      var rows := Rows(req);
      var smtp := SmtpConfig(req.smtpUsername, req.smtpPassword, req.smtpServer, req.smtpPort.value, req.senderName);
      var job := NewJob(req.scheduledTime.GetOr(now), req.emailDelay.value, smtp, rows, now);
      (Created(newId, |rows|, job.scheduledTime), Collection(db.jobs[newId := job], db.order + [newId]))
  }

  /** The guard chain written as data: each check with the message it answers
      with, in order. */
  function Guards(req: SubmitRequest, now: int): seq<(bool, string)> {
    [ (MissingFields(req), MissingFieldsMessage),
      (ScheduledInPast(req, now), PastScheduleMessage),
      (DelayOutOfRange(req), DelayRangeMessage),
      (|Rows(req)| == 0, NoRowsMessage) ]
  }

  /** The message of the first check that fails, if any. */
  function FirstFailure(guards: seq<(bool, string)>): Option<string> {
    if guards == [] then None
    else if guards[0].0 then Some(guards[0].1)
    else FirstFailure(guards[1..])
  }

  /** The early returns answer with the first failing guard of the list. */
  lemma CheckIsFirstFailure(req: SubmitRequest, now: int)
    ensures Check(req, now) == FirstFailure(Guards(req, now))
  {
    var g := Guards(req, now);
    var g1 := g[1..];
    var g2 := g1[1..];
    var g3 := g2[1..];
    assert g3 == [(|Rows(req)| == 0, NoRowsMessage)];
    assert FirstFailure(g3[1..]) == None;
    if MissingFields(req) {
    } else if ScheduledInPast(req, now) {
      assert FirstFailure(g) == FirstFailure(g1);
    } else if DelayOutOfRange(req) {
      assert FirstFailure(g) == FirstFailure(g1) == FirstFailure(g2);
    } else {
      assert FirstFailure(g) == FirstFailure(g1) == FirstFailure(g2) == FirstFailure(g3);
    }
  }

  /** The request is rejected with 400 exactly when some guard fails, with the
      message of the first one that does, and then nothing is inserted. */
  lemma SubmitRejectsAtFirstFailedGuard(req: SubmitRequest, now: int, newId: JobId, insertError: Option<string>, db: Collection)
    ensures var (resp, db') := Submit(req, now, newId, insertError, db);
      && (resp.Code() == 400 <==> FirstFailure(Guards(req, now)).Some?)
      && (resp.Code() == 400 ==> resp == Rejected(FirstFailure(Guards(req, now)).value))
      && (resp.Code() == 400 ==> db' == db)
  {
    CheckIsFirstFailure(req, now);
  }
  /** A created job is the only change: it is unstarted, holds exactly the kept
      rows and the submitted settings, starts at the given time or now (never in
      the past), and is well-formed. Anything but `Created` leaves the store alone. */
  lemma SubmitCreatesUnstartedJob(req: SubmitRequest, now: int, newId: JobId, insertError: Option<string>, db: Collection)
    ensures var (resp, db') := Submit(req, now, newId, insertError, db);
      && (resp.Created? <==> FirstFailure(Guards(req, now)).None? && insertError.None? && newId !in db.jobs)
      && (!resp.Created? ==> db' == db)
      && (resp.Created? ==>
            && resp.jobId == newId
            && db'.order == db.order + [newId]
            && newId in db'.jobs
            && db'.jobs == db.jobs[newId := db'.jobs[newId]]
            && var j := db'.jobs[newId];
               && Unstarted(j)
               && j.csvData == Rows(req)
               && j.totalEmails == |j.csvData| == resp.totalEmails
               && j.scheduledTime == resp.scheduledTime == req.scheduledTime.GetOr(now)
               && j.scheduledTime >= now
               && j.emailDelay == req.emailDelay.value
               && j.smtpConfig == SmtpConfig(req.smtpUsername, req.smtpPassword, req.smtpServer, req.smtpPort.value, req.senderName)
               && WellFormed(j))
  {
    SubmitRejectsAtFirstFailedGuard(req, now, newId, insertError, db);
  }

  /** Submission keeps the store's invariants: ids stay distinct and in step with
      the order, and every job stays well-formed. */
  lemma SubmitPreservesStore(req: SubmitRequest, now: int, newId: JobId, insertError: Option<string>, db: Collection)
    requires Valid(db) && AllWellFormed(db)
    ensures Valid(Submit(req, now, newId, insertError, db).1)
    ensures AllWellFormed(Submit(req, now, newId, insertError, db).1)
  {
    SubmitCreatesUnstartedJob(req, now, newId, insertError, db);
  }
}

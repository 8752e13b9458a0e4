/**
 * The collaborators the dispatcher talks to, as one value and one object:
 * the job collection, the mail transport and the sleeps. What they answer is
 * fixed in advance by oracles (the store's and the transport's failures, the
 * transport's verdict on each message), and the messages sent and the pauses
 * taken are logged, so that order and pacing can be stated.
 */
module Services {
  import opened Wrappers
  import opened EmailJob

  /** One message handed to `sendMail`. */
  datatype Message = Message(from: string, to: string, subject: string, html: string)

  /** The update object of a `findByIdAndUpdate` call: only the fields given are set. */
  datatype Patch = Patch(
    status: Option<Status>,
    completedEmails: Option<nat>,
    failedEmails: Option<nat>,
    error: Option<string>)

  /** A patch sets only the status, the counters and the error, and only those
      it gives; everything fixed at creation stays as it was. */
  function Apply(j: Job, p: Patch): (r: Job)
    ensures SameDefinition(r, j)
    ensures r == j.(status := r.status, completedEmails := r.completedEmails,
                    failedEmails := r.failedEmails, error := r.error)
    ensures p.status.None? ==> r.status == j.status
    ensures p.completedEmails.None? ==> r.completedEmails == j.completedEmails
    ensures p.failedEmails.None? ==> r.failedEmails == j.failedEmails
    ensures p.error.None? ==> r.error == j.error
    ensures p.status.Some? ==> r.status == p.status.value
    ensures p.completedEmails.Some? ==> r.completedEmails == p.completedEmails.value
    ensures p.failedEmails.Some? ==> r.failedEmails == p.failedEmails.value
    ensures p.error.Some? ==> r.error == p.error
  {
    j.(status := p.status.GetOr(j.status),
       completedEmails := p.completedEmails.GetOr(j.completedEmails),
       failedEmails := p.failedEmails.GetOr(j.failedEmails),
       error := if p.error.Some? then p.error else j.error)
  }

  /** Everything outside the dispatcher: the collection; the oracles, each with
      the number of answers already used (the store's faults, the transport's
      faults, and the transport's verdict on each message); and two logs, of the
      messages handed to the transport and of the pauses taken. An exhausted
      oracle answers success, and an exhausted verdict oracle answers delivered. */
  datatype World = World(
    db: Collection,
    storeFaults: seq<Option<string>>,
    storeCalls: nat,
    transportFaults: seq<Option<string>>,
    transportCalls: nat,
    sendOutcomes: seq<bool>,
    outbox: seq<Message>,
    naps: seq<int>)

  /** The answer at position `k` of a fault oracle. */
  function FaultAt(faults: seq<Option<string>>, k: nat): Option<string> {
    if k < |faults| then faults[k] else None
  }

  /** The transport's verdict on the message at position `k`. */
  predicate Verdict(outcomes: seq<bool>, k: nat) {
    |outcomes| <= k || outcomes[k]
  }

  /** `connectToDatabase` followed by `find`: either may fail with the store's next fault. */
  function Query(w: World): (World, Option<string>) {
    (w.(storeCalls := w.storeCalls + 1), FaultAt(w.storeFaults, w.storeCalls))
  }

  /** `findByIdAndUpdate`: a failed write changes nothing; a write to an id that is
      not there succeeds and changes nothing. */
  function Update(w: World, id: JobId, p: Patch): (r: (World, Option<string>))
    ensures r.0 == w.(db := r.0.db, storeCalls := w.storeCalls + 1)
    ensures r.0.db.order == w.db.order
    ensures r.1.Some? || id !in w.db.jobs ==> r.0.db == w.db
  {
    var fault := FaultAt(w.storeFaults, w.storeCalls);
    var jobs := if fault.None? && id in w.db.jobs then w.db.jobs[id := Apply(w.db.jobs[id], p)] else w.db.jobs;
    (w.(db := w.db.(jobs := jobs), storeCalls := w.storeCalls + 1), fault)
  }

  /** `createTransport`. */
  function CreateTransport(w: World): (World, Option<string>) {
    (w.(transportCalls := w.transportCalls + 1), FaultAt(w.transportFaults, w.transportCalls))
  }

  /** `sendMail`: the message is logged, and delivered or not as the oracle says. */
  function Send(w: World, m: Message): (World, bool) {
    (w.(outbox := w.outbox + [m]), Verdict(w.sendOutcomes, |w.outbox|))
  }

  /** `sleep(ms)`. */
  function Sleep(w: World, ms: int): World {
    w.(naps := w.naps + [ms])
  }

  /** The live collaborators. */
  class Backend {
    var db: Collection
    var storeFaults: seq<Option<string>>
    var storeCalls: nat
    var transportFaults: seq<Option<string>>
    var transportCalls: nat
    var sendOutcomes: seq<bool>
    var outbox: seq<Message>
    var naps: seq<int>

    function State(): World
      reads this
    {
      World(db, storeFaults, storeCalls, transportFaults, transportCalls, sendOutcomes, outbox, naps)
    }

    constructor (w: World)
      ensures State() == w
    {
      db, storeFaults, storeCalls := w.db, w.storeFaults, w.storeCalls;
      transportFaults, transportCalls := w.transportFaults, w.transportCalls;
      sendOutcomes, outbox, naps := w.sendOutcomes, w.outbox, w.naps;
    }

    method Connect() returns (fault: Option<string>)
      modifies this
      ensures (State(), fault) == Query(old(State()))
    {
      fault := FaultAt(storeFaults, storeCalls);
      storeCalls := storeCalls + 1;
    }

    method FindByIdAndUpdate(id: JobId, p: Patch) returns (fault: Option<string>)
      modifies this
      ensures (State(), fault) == Update(old(State()), id, p)
    {
      fault := FaultAt(storeFaults, storeCalls);
      if fault.None? && id in db.jobs {
        db := db.(jobs := db.jobs[id := Apply(db.jobs[id], p)]);
      }
      storeCalls := storeCalls + 1;
    }

    method NewTransport() returns (fault: Option<string>)
      modifies this
      ensures (State(), fault) == CreateTransport(old(State()))
    {
      fault := FaultAt(transportFaults, transportCalls);
      transportCalls := transportCalls + 1;
    }

    method SendMail(m: Message) returns (delivered: bool)
      modifies this
      ensures (State(), delivered) == Send(old(State()), m)
    {
      delivered := Verdict(sendOutcomes, |outbox|);
      outbox := outbox + [m];
    }

    method Pause(ms: int)
      modifies this
      ensures State() == Sleep(old(State()), ms)
    {
      naps := naps + [ms];
    }
  }
}

/** What one write request means, one request at a time and inside a batch. These are the
    functions the imperative writer is proved against. */
module Serving {
  import opened Basics
  import opened Requests
  import opened Store

  /** A queued write: `ticket` names the reply channel, `faults` what will go wrong. */
  datatype Job = Job(ticket: nat, request: WriteRequest, faults: Faults)

  datatype Verdict = Reply(response: WriteResponse) | Proceed(record: Option<(string, string)>)

  datatype Progress = Fine(db: Db, commitSeq: Option<nat>) | Stuck(error: string, residue: Db)

  /** `kept` says that this very request changed the database. */
  datatype Served = Served(db: Db, response: WriteResponse, kept: bool)

  datatype Answer = Answer(ticket: nat, response: WriteResponse, kept: bool)

  datatype Round = Round(db: Db, answers: seq<Answer>)

  function FirstRejection(en: Engine, ops: seq<Operation>): Option<string> {
    if ops == [] then None
    else if en.reject(ops[0]).Some? then en.reject(ops[0])
    else FirstRejection(en, ops[1..])
  }

  function Conflict(key: string): string {
    "idempotency conflict: key '" + key + "' already used with a different request hash"
  }

  /** Everything decided before a transaction or savepoint is opened. */
  function Admit(en: Engine, db: Db, request: WriteRequest, f: Faults): Verdict {
    var rejection := FirstRejection(en, request.operations);
    if rejection.Some? then Reply(FailedReply(request.requestId, rejection.value))
    else if !en.idempotent || request.idempotencyKey.None? then Proceed(None)
    else if f.lookup.Some? then Reply(FailedReply(request.requestId, f.lookup.value))
    else
      var key, hash := request.idempotencyKey.value, en.hash(request.operations);
      if key !in db.requests then Proceed(Some((key, hash)))
      else if db.requests[key].hash != hash then Reply(FailedReply(request.requestId, Conflict(key)))
      else if db.requests[key].response.Some? then Reply(db.requests[key].response.value)
      else Reply(CommittedReply(request.requestId, None))
  }

  function RunOps(en: Engine, user: UserTables, ops: seq<Operation>, f: Faults, i: nat): Outcome
    requires i <= |ops|
    decreases |ops| - i
  {
    if i == |ops| then Done(user)
    else if i in f.ops then Broke(f.ops[i], user)
    else match en.exec(user, ops[i])
      case Broke(e, leftover) => Broke(e, leftover)
      case Done(after) => RunOps(en, after, ops, f, i + 1)
  }

  function Record(en: Engine, db: Db, request: WriteRequest, commitSeq: Option<nat>,
                  record: Option<(string, string)>, f: Faults): Progress
  {
    if record.None? then Fine(db, commitSeq)
    else if f.dedupRow.Some? then Stuck(f.dedupRow.value, db)
    else
      var row := RequestRow(record.value.1, Some(CommittedReply(request.requestId, commitSeq)), commitSeq);
      Fine(InsertOrIgnore(db, record.value.0, row), commitSeq)
  }

  /** Operations, commit row, dedup row: the body shared by transactions and savepoints. */
  function Work(en: Engine, db: Db, request: WriteRequest, record: Option<(string, string)>, f: Faults): Progress {
    match RunOps(en, db.user, request.operations, f, 0)
    case Broke(e, leftover) => Stuck(e, db.(user := leftover))
    case Done(after) =>
      var ran := db.(user := after);
      if !en.track then Record(en, ran, request, None, record, f)
      else if f.commitRow.Some? then Stuck(f.commitRow.value, ran)
      else if ran.counter >= MAX_ROWID then Stuck(FULL, ran)
      else Record(en, AddCommit(ran, request), request, Some(ran.counter + 1), record, f)
  }

  /** One transaction of its own: a failure anywhere drops the transaction. */
  function Transact(en: Engine, db: Db, request: WriteRequest, record: Option<(string, string)>, f: Faults): Served {
    if f.open.Some? then Served(db, FailedReply(request.requestId, f.open.value), false)
    else match Work(en, db, request, record, f)
      case Stuck(e, _) => Served(db, FailedReply(request.requestId, e), false)
      case Fine(after, commitSeq) =>
        if f.close.Some? then Served(db, FailedReply(request.requestId, f.close.value), false)
        else Served(after, CommittedReply(request.requestId, commitSeq), true)
  }

  /** What is left in the outer transaction once the clean-up of a failed savepoint has run. */
  function Remains(before: Db, residue: Db, f: Faults): Db {
    if f.undo.RollbackFails? then residue else before
  }

  /** One savepoint of an outer transaction. */
  function Nest(en: Engine, db: Db, request: WriteRequest, record: Option<(string, string)>, f: Faults): Served {
    if f.open.Some? then Served(db, FailedReply(request.requestId, f.open.value), false)
    else match Work(en, db, request, record, f)
      case Stuck(e, residue) => Served(Remains(db, residue, f), FailedReply(request.requestId, e), false)
      case Fine(after, commitSeq) =>
        if f.close.Some? then Served(Remains(db, after, f), FailedReply(request.requestId, f.close.value), false)
        else Served(after, CommittedReply(request.requestId, commitSeq), true)
  }

  function Serve(en: Engine, db: Db, request: WriteRequest, f: Faults): Served {
    match Admit(en, db, request, f)
    case Reply(response) => Served(db, response, false)
    case Proceed(record) => Transact(en, db, request, record, f)
  }

  function ServeNested(en: Engine, db: Db, request: WriteRequest, f: Faults): Served {
    match Admit(en, db, request, f)
    case Reply(response) => Served(db, response, false)
    case Proceed(record) => Nest(en, db, request, record, f)
  }

  /** The plain way: every job in its own transaction, in order. */
  function ServeAll(en: Engine, db: Db, jobs: seq<Job>): (r: Round)
    ensures |r.answers| == |jobs|
    ensures forall i :: 0 <= i < |jobs| ==> r.answers[i].ticket == jobs[i].ticket
    decreases jobs
  {
    if jobs == [] then Round(db, [])
    else
      var s := Serve(en, db, jobs[0].request, jobs[0].faults);
      var rest := ServeAll(en, s.db, jobs[1..]);
      Round(rest.db, [Answer(jobs[0].ticket, s.response, s.kept)] + rest.answers)
  }

  /** The body of a batch: every job in its own savepoint. */
  function NestAll(en: Engine, db: Db, jobs: seq<Job>): (r: Round)
    decreases jobs
    ensures |r.answers| == |jobs|
    ensures forall i :: 0 <= i < |jobs| ==> r.answers[i].ticket == jobs[i].ticket
  {
    if jobs == [] then Round(db, [])
    else
      var s := ServeNested(en, db, jobs[0].request, jobs[0].faults);
      var rest := NestAll(en, s.db, jobs[1..]);
      Round(rest.db, [Answer(jobs[0].ticket, s.response, s.kept)] + rest.answers)
  }

  function Refused(job: Job, error: string): Answer {
    Answer(job.ticket, FailedReply(job.request.requestId, error), false)
  }

  /** After a failed outer COMMIT only Committed replies are replaced. */
  function Overruled(a: Answer, error: string): Answer {
    if a.response.status == Committed then Answer(a.ticket, FailedReply(a.response.requestId, error), false)
    else Answer(a.ticket, a.response, false)
  }

  /** One outer transaction around all the jobs; the first one carries the outer faults. */
  function ServeGroup(en: Engine, db: Db, jobs: seq<Job>): (r: Round)
    requires jobs != []
    ensures |r.answers| == |jobs|
    ensures forall i :: 0 <= i < |jobs| ==> r.answers[i].ticket == jobs[i].ticket
  {
    var f := jobs[0].faults;
    if f.outerOpen.Some? then
      Round(db, seq(|jobs|, i requires 0 <= i < |jobs| => Refused(jobs[i], f.outerOpen.value)))
    else
      var r := NestAll(en, db, jobs);
      if f.outerClose.Some? then
        Round(db, seq(|jobs|, i requires 0 <= i < |jobs| => Overruled(r.answers[i], f.outerClose.value)))
      else r
  }
}

/** The database the writer thread owns, seen as a value: user tables plus the two internal tables. */
module Store {
  import opened Basics
  import opened Requests

  /** Contents of all user tables. Nothing is known about them. */
  type UserTables(==, !new)

  datatype CommitRow = CommitRow(seqNo: nat, requestId: string, actorId: string, runId: Option<string>)

  /** `response` is None when the stored JSON is NULL or does not parse. */
  datatype RequestRow = RequestRow(hash: string, response: Option<WriteResponse>, commitSeq: Option<nat>)

  /** `counter` is the AUTOINCREMENT high-water mark of the commits table. It is stored in the
      database, so a rollback restores it too. */
  datatype Db = Db(user: UserTables, commits: seq<CommitRow>, counter: nat, requests: map<string, RequestRow>)

  /** Largest rowid SQLite can hand out; AUTOINCREMENT fails beyond it. */
  const MAX_ROWID: nat := 0x7fff_ffff_ffff_ffff
  const FULL: string := "database or disk is full"

  /** A statement that fails may leave partial effects behind (`leftover`). */
  datatype Outcome = Done(after: UserTables) | Broke(error: string, leftover: UserTables)

  /** The gateway's configuration together with the meaning of user SQL, which stays arbitrary:
      `reject` is the SQL constraint check, `exec` binds and runs one statement,
      `hash` serialises an operation list. */
  datatype Engine = Engine(
    reject: Operation -> Option<string>,
    exec: (UserTables, Operation) -> Outcome,
    hash: seq<Operation> -> string,
    track: bool,
    idempotent: bool)

  /** What `ROLLBACK TO sp; RELEASE sp;` does after a failed request; its result is discarded. */
  datatype Undo = Undone | RollbackFails | ReleaseFails

  /** Every way the environment can fail one request, chosen in advance and arbitrarily.
      `open` is BEGIN or SAVEPOINT, `close` is COMMIT or RELEASE; the two `outer` fields and
      `micros` belong to the batch this request leads, if it leads one. */
  datatype Faults = Faults(
    lookup: Option<string>,
    open: Option<string>,
    ops: map<nat, string>,
    commitRow: Option<string>,
    dedupRow: Option<string>,
    close: Option<string>,
    undo: Undo,
    outerOpen: Option<string>,
    outerClose: Option<string>,
    micros: nat)

  function AddCommit(db: Db, request: WriteRequest): Db {
    db.(commits := db.commits + [CommitRow(db.counter + 1, request.requestId, request.actorId, request.runId)],
        counter := db.counter + 1)
  }

  /** INSERT OR IGNORE: an existing row wins. */
  function InsertOrIgnore(db: Db, key: string, row: RequestRow): Db {
    if key in db.requests then db else db.(requests := db.requests[key := row])
  }
}

/** The one SQLite connection: a durable database, an optional open transaction and its
    savepoint stack. Each method is one call on the connection. */
module Connections {
  import opened Basics
  import opened Requests
  import opened Store

  datatype Savepoint = Savepoint(name: nat, snapshot: Db)

  /** Index one past the most recent savepoint called `name`, 0 when there is none. */
  function Locate(stack: seq<Savepoint>, name: nat): (k: nat)
    ensures k <= |stack|
    ensures k > 0 ==> stack[k - 1].name == name
    ensures forall i :: k <= i < |stack| ==> stack[i].name != name
  {
    if stack == [] then 0
    else if stack[|stack| - 1].name == name then |stack|
    else Locate(stack[..|stack| - 1], name)
  }

  const NO_SAVEPOINT: string := "no such savepoint"

  class Connection {
    var durable: Db
    var working: Option<Db>
    var savepoints: seq<Savepoint>
    /** Every durable database that was in place after some call: what a crash could leave. */
    ghost var seen: set<Db>

    constructor (db: Db)
      ensures durable == db && Idle() && seen == {db}
    {
      durable, working, savepoints, seen := db, None, [], {db};
    }

    predicate Idle()
      reads this
    {
      working.None? && savepoints == []
    }

    function View(): Db
      reads this
    {
      if working.Some? then working.value else durable
    }

    method Begin(fault: Option<string>) returns (err: Option<string>)
      requires Idle()
      modifies this
      ensures err == fault && durable == old(durable) && savepoints == []
      ensures working == if fault.None? then Some(durable) else None
      ensures seen == old(seen) + {durable}
    {
      if fault.None? {
        working := Some(durable);
      }
      seen := seen + {durable};
      err := fault;
    }

    /** COMMIT. On failure the transaction is still open. */
    method Commit(fault: Option<string>) returns (err: Option<string>)
      requires working.Some?
      modifies this
      ensures err == fault
      ensures fault.None? ==> durable == old(working.value) && Idle()
      ensures fault.Some? ==> durable == old(durable) && working == old(working) && savepoints == old(savepoints)
      ensures seen == old(seen) + {durable}
    {
      if fault.None? {
        durable := working.value;
        working, savepoints := None, [];
      }
      seen := seen + {durable};
      err := fault;
    }

    /** What dropping an unfinished transaction does. */
    method Rollback()
      modifies this
      ensures durable == old(durable) && Idle() && seen == old(seen) + {durable}
    {
      working, savepoints := None, [];
      seen := seen + {durable};
    }

    method OpenSavepoint(name: nat, fault: Option<string>) returns (err: Option<string>)
      requires working.Some?
      modifies this
      ensures err == fault && durable == old(durable) && working == old(working)
      ensures savepoints == old(savepoints) + if fault.None? then [Savepoint(name, working.value)] else []
      ensures seen == old(seen) + {durable}
    {
      if fault.None? {
        savepoints := savepoints + [Savepoint(name, working.value)];
      }
      seen := seen + {durable};
      err := fault;
    }

    /** ROLLBACK TO restores the snapshot and keeps the savepoint itself. */
    method RollbackTo(name: nat, fault: Option<string>) returns (err: Option<string>)
      requires working.Some?
      modifies this
      ensures durable == old(durable) && seen == old(seen) + {durable}
      ensures var k := Locate(old(savepoints), name);
              if fault.Some? || k == 0
              then err.Some? && working == old(working) && savepoints == old(savepoints)
              else err.None? && working == Some(old(savepoints)[k - 1].snapshot) && savepoints == old(savepoints)[..k]
    {
      var k := Locate(savepoints, name);
      if fault.Some? {
        err := fault;
      } else if k == 0 {
        err := Some(NO_SAVEPOINT);
      } else {
        working := Some(savepoints[k - 1].snapshot);
        savepoints := savepoints[..k];
        err := None;
      }
      seen := seen + {durable};
    }

    /** RELEASE keeps the changes and removes the savepoint and everything above it. */
    method Release(name: nat, fault: Option<string>) returns (err: Option<string>)
      requires working.Some?
      modifies this
      ensures durable == old(durable) && working == old(working) && seen == old(seen) + {durable}
      ensures var k := Locate(old(savepoints), name);
              if fault.Some? then err == fault && savepoints == old(savepoints)
              else if k == 0 then err.Some? && savepoints == old(savepoints)
              else err.None? && savepoints == old(savepoints)[..k - 1]
    {
      var k := Locate(savepoints, name);
      if fault.Some? {
        err := fault;
      } else if k == 0 {
        err := Some(NO_SAVEPOINT);
      } else {
        savepoints := savepoints[..k - 1];
        err := None;
      }
      seen := seen + {durable};
    }

    /** Bind, prepare and run one user statement. */
    method Execute(en: Engine, op: Operation, fault: Option<string>) returns (err: Option<string>)
      requires working.Some?
      modifies this
      ensures durable == old(durable) && savepoints == old(savepoints) && seen == old(seen) + {durable}
      ensures working.Some?
      ensures fault.Some? ==> err == fault && working == old(working)
      ensures fault.None? ==>
                match en.exec(old(working.value.user), op)
                case Done(after) => err.None? && working == Some(old(working.value).(user := after))
                case Broke(e, leftover) => err == Some(e) && working == Some(old(working.value).(user := leftover))
    {
      if fault.Some? {
        err := fault;
      } else {
        match en.exec(working.value.user, op)
        case Done(after) =>
          working := Some(working.value.(user := after));
          err := None;
        case Broke(e, leftover) =>
          working := Some(working.value.(user := leftover));
          err := Some(e);
      }
      seen := seen + {durable};
    }

    method InsertCommit(request: WriteRequest, fault: Option<string>) returns (err: Option<string>, rowid: nat)
      requires working.Some?
      modifies this
      ensures durable == old(durable) && savepoints == old(savepoints) && seen == old(seen) + {durable}
      ensures var w := old(working.value);
              if fault.Some? then err == fault && working == Some(w)
              else if w.counter >= MAX_ROWID then err == Some(FULL) && working == Some(w)
              else
                && err.None? && rowid == w.counter + 1 && working.Some?
                && working.value == w.(commits := working.value.commits, counter := w.counter + 1)
                && working.value.commits ==
                   w.commits + [CommitRow(w.counter + 1, request.requestId, request.actorId, request.runId)]
                && working.value == AddCommit(w, request)
    {
      rowid := 0;
      if fault.Some? {
        err := fault;
      } else if working.value.counter >= MAX_ROWID {
        err := Some(FULL);
      } else {
        rowid := working.value.counter + 1;
        working := Some(AddCommit(working.value, request));
        err := None;
      }
      seen := seen + {durable};
    }

    method InsertRequest(key: string, row: RequestRow, fault: Option<string>) returns (err: Option<string>)
      requires working.Some?
      modifies this
      ensures durable == old(durable) && savepoints == old(savepoints) && seen == old(seen) + {durable}
      ensures err == fault
      ensures working == Some(if fault.Some? then old(working.value) else InsertOrIgnore(old(working.value), key, row))
      ensures var w := old(working.value);
              working == Some(if fault.Some? || key in w.requests then w else w.(requests := w.requests[key := row]))
    {
      if fault.None? {
        working := Some(InsertOrIgnore(working.value, key, row));
      }
      seen := seen + {durable};
      err := fault;
    }

    /** SELECT of a dedup row, inside the open transaction if there is one. */
    method Lookup(key: string) returns (row: Option<RequestRow>)
      ensures row == if key in View().requests then Some(View().requests[key]) else None
    {
      row := if key in View().requests then Some(View().requests[key]) else None;
    }
  }
}

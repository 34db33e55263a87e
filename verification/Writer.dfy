/** The writer thread (src/writer.rs): it owns the connection and serves the command queue. */
module Writers {
  import opened Basics
  import opened Requests
  import opened Store
  import opened Serving
  import opened Scheduling
  import opened Connections
  import opened Latency
  import opened Lines

  /** The receiving end of the command channel. `inbox` is everything that is ever sent on it. */
  class Receiver {
    const inbox: seq<Arrival>
    var pos: nat

    constructor (inbox: seq<Arrival>)
      ensures this.inbox == inbox && pos == 0
    {
      this.inbox := inbox;
      pos := 0;
    }

    predicate Valid()
      reads this
    {
      pos <= |inbox|
    }

    function Pending(): seq<Arrival>
      requires Valid()
      reads this
    {
      inbox[pos..]
    }

    /** None once every sender is gone and the queue is empty. */
    method BlockingRecv() returns (cmd: Option<Command>)
      requires Valid()
      modifies this
      ensures Valid()
      ensures if old(Pending()) == [] then cmd.None? && pos == old(pos)
              else cmd == Some(old(Pending())[0].cmd) && pos == old(pos) + 1
    {
      if pos == |inbox| {
        return None;
      }
      pos := pos + 1;
      return Some(inbox[pos - 1].cmd);
    }

    method TryRecv() returns (cmd: Option<Command>)
      requires Valid()
      modifies this
      ensures Valid()
      ensures if old(Pending()) == [] || !old(Pending())[0].prompt then cmd.None? && pos == old(pos)
              else cmd == Some(old(Pending())[0].cmd) && pos == old(pos) + 1
    {
      if pos == |inbox| || !inbox[pos].prompt {
        return None;
      }
      pos := pos + 1;
      return Some(inbox[pos - 1].cmd);
    }
  }

  /** What a request that used savepoint `name` leaves on the savepoint stack. */
  function Stranded(name: nat, before: Db, kept: bool, f: Faults): seq<Savepoint> {
    if kept || f.open.Some? || f.undo.Undone? then [] else [Savepoint(name, before)]
  }

  /** The same for job number `idx` of a batch. */
  function StrandedBy(en: Engine, db: Db, job: Job, idx: nat): seq<Savepoint> {
    if Admit(en, db, job.request, job.faults).Reply? then []
    else Stranded(idx, db, ServeNested(en, db, job.request, job.faults).kept, job.faults)
  }

  /** The same for all jobs, the first of which has number `idx`. */
  function StrandedAll(en: Engine, db: Db, jobs: seq<Job>, idx: nat): seq<Savepoint>
    decreases jobs
  {
    if jobs == [] then []
    else
      StrandedBy(en, db, jobs[0], idx)
      + StrandedAll(en, ServeNested(en, db, jobs[0].request, jobs[0].faults).db, jobs[1..], idx + 1)
  }

  lemma EachNext(en: Engine, db: Db, batch: seq<Job>, idx: nat)
    requires idx < |batch|
    ensures var s := ServeNested(en, db, batch[idx].request, batch[idx].faults);
            var rest := NestAll(en, s.db, batch[idx + 1..]);
            && NestAll(en, db, batch[idx..]) ==
               Round(rest.db, [Answer(batch[idx].ticket, s.response, s.kept)] + rest.answers)
            && StrandedAll(en, db, batch[idx..], idx) ==
               StrandedBy(en, db, batch[idx], idx) + StrandedAll(en, s.db, batch[idx + 1..], idx + 1)
  {
    hide ServeNested, StrandedBy;
    assert batch[idx..][0] == batch[idx] && batch[idx..][1..] == batch[idx + 1..];
  }

  lemma EachDone(en: Engine, db: Db, batch: seq<Job>, idx: nat)
    requires idx == |batch|
    ensures NestAll(en, db, batch[idx..]) == Round(db, []) && StrandedAll(en, db, batch[idx..], idx) == []
  {
  }

  class Writer {
    const en: Engine
    const maxSize: Option<nat>
    const conn: Connection
    const receiver: Receiver
    const latency: LatencyBuffer
    /** Replies in the order they were sent. */
    var outbox: seq<Sent>
    /** The durable database in place when each of them was sent. */
    ghost var sentOn: seq<Db>

    constructor (en: Engine, maxSize: Option<nat>, conn: Connection, receiver: Receiver, latency: LatencyBuffer)
      requires conn.Idle() && receiver.Valid() && latency.Valid()
      ensures Valid() && outbox == [] && sentOn == []
      ensures this.en == en && this.maxSize == maxSize
      ensures this.conn == conn && this.receiver == receiver && this.latency == latency
    {
      this.en, this.maxSize := en, maxSize;
      this.conn, this.receiver, this.latency := conn, receiver, latency;
      outbox, sentOn := [], [];
    }

    ghost predicate Valid()
      reads this, conn, receiver, latency
    {
      conn.Idle() && receiver.Valid() && latency.Valid() && |sentOn| == |outbox|
    }

    method Reject(ops: seq<Operation>) returns (error: Option<string>)
      ensures error == FirstRejection(en, ops)
    {
      var i := 0;
      while i < |ops|
        invariant i <= |ops|
        invariant FirstRejection(en, ops) == FirstRejection(en, ops[i..])
      {
        error := en.reject(ops[i]);
        if error.Some? {
          return;
        }
        i := i + 1;
      }
      return None;
    }

    /** The operation loop of both paths: stops at the first failing statement. */
    method ExecuteAll(ops: seq<Operation>, f: Faults) returns (error: Option<string>)
      requires conn.working.Some?
      modifies conn
      ensures conn.durable == old(conn.durable) && conn.savepoints == old(conn.savepoints)
      ensures conn.seen <= old(conn.seen) + {conn.durable}
      ensures var w := old(conn.working.value);
              match RunOps(en, w.user, ops, f, 0)
              case Done(after) => error.None? && conn.working == Some(w.(user := after))
              case Broke(e, leftover) => error == Some(e) && conn.working == Some(w.(user := leftover))
    {
      ghost var w := conn.working.value;
      var i := 0;
      while i < |ops|
        invariant i <= |ops|
        invariant conn.durable == old(conn.durable) && conn.savepoints == old(conn.savepoints)
        invariant conn.seen <= old(conn.seen) + {conn.durable}
        invariant conn.working.Some? && conn.working.value == w.(user := conn.working.value.user)
        invariant RunOps(en, w.user, ops, f, 0) == RunOps(en, conn.working.value.user, ops, f, i)
      {
        error := conn.Execute(en, ops[i], if i in f.ops then Some(f.ops[i]) else None);
        if error.Some? {
          return;
        }
        i := i + 1;
      }
      return None;
    }

    /** Lookup of an earlier result for the key of `request`, with the reply it leads to. */
    method CheckKey(request: WriteRequest, f: Faults) returns (verdict: Verdict)
      requires FirstRejection(en, request.operations).None?
      ensures verdict == Admit(en, conn.View(), request, f)
    {
      if !en.idempotent || request.idempotencyKey.None? {
        return Proceed(None);
      }
      var key := request.idempotencyKey.value;
      var hash := en.hash(request.operations);
      if f.lookup.Some? {
        return Reply(FailedReply(request.requestId, f.lookup.value));
      }
      var row := conn.Lookup(key);
      if row.None? {
        return Proceed(Some((key, hash)));
      }
      if row.value.hash == hash {
        if row.value.response.Some? {
          return Reply(row.value.response.value);
        }
        return Reply(CommittedReply(request.requestId, None));
      }
      return Reply(FailedReply(request.requestId, Conflict(key)));
    }

    /** One request as one transaction. */
    method Apply(request: WriteRequest, f: Faults) returns (response: WriteResponse)
      requires Valid()
      modifies conn, latency
      ensures Valid()
      ensures var s := Serve(en, old(conn.durable), request, f);
              conn.durable == s.db && response == s.response &&
              latency.recorded == old(latency.recorded) + if s.kept then [f.micros] else []
      ensures conn.seen <= old(conn.seen) + {old(conn.durable), conn.durable}
    {
      var rejection := Reject(request.operations);
      if rejection.Some? {
        return FailedReply(request.requestId, rejection.value);
      }
      var verdict := CheckKey(request, f);
      match verdict
      case Reply(r) => response := r;
      case Proceed(record) => response := ApplyInner(request, record, f);
    }

    /** Everything between opening and closing a transaction or savepoint: the operations, the
        commit row and the dedup row. Stops at the first failure and leaves the clean-up to its caller. */
    method Fill(request: WriteRequest, record: Option<(string, string)>, f: Faults)
      returns (err: Option<string>, commitSeq: Option<nat>)
      requires conn.working.Some?
      modifies conn
      ensures conn.durable == old(conn.durable) && conn.savepoints == old(conn.savepoints)
      ensures conn.seen <= old(conn.seen) + {conn.durable}
      ensures match Work(en, old(conn.working.value), request, record, f)
              case Fine(after, seqNo) => err.None? && commitSeq == seqNo && conn.working == Some(after)
              case Stuck(e, residue) => err == Some(e) && conn.working == Some(residue)
    {
      commitSeq := None;
      err := ExecuteAll(request.operations, f);
      if err.Some? {
        return;
      }
      if en.track {
        var rowid;
        err, rowid := conn.InsertCommit(request, f.commitRow);
        if err.Some? {
          return;
        }
        commitSeq := Some(rowid);
      }
      if record.Some? {
        var row := RequestRow(record.value.1, Some(CommittedReply(request.requestId, commitSeq)), commitSeq);
        err := conn.InsertRequest(record.value.0, row, f.dedupRow);
      }
    }

    method ApplyInner(request: WriteRequest, record: Option<(string, string)>, f: Faults)
      returns (response: WriteResponse)
      requires Valid()
      modifies conn, latency
      ensures Valid()
      ensures var s := Transact(en, old(conn.durable), request, record, f);
              conn.durable == s.db && response == s.response &&
              latency.recorded == old(latency.recorded) + if s.kept then [f.micros] else []
      ensures conn.seen <= old(conn.seen) + {old(conn.durable), conn.durable}
    {
      var err := conn.Begin(f.open);
      if err.Some? {
        return FailedReply(request.requestId, err.value);
      }
      var commitSeq;
      err, commitSeq := Fill(request, record, f);
      if err.Some? {
        conn.Rollback();
        return FailedReply(request.requestId, err.value);
      }
      err := conn.Commit(f.close);
      if err.Some? {
        conn.Rollback();
        return FailedReply(request.requestId, err.value);
      }
      latency.Push(f.micros);
      return CommittedReply(request.requestId, commitSeq);
    }

    /** `ROLLBACK TO sp; RELEASE sp;` as one call whose result is ignored: the first failure ends it. */
    method Abandon(name: nat, undo: Undo)
      requires conn.working.Some? && conn.savepoints != []
      requires conn.savepoints[|conn.savepoints| - 1].name == name
      modifies conn
      ensures conn.durable == old(conn.durable) && conn.working.Some?
      ensures conn.seen <= old(conn.seen) + {conn.durable}
      ensures var n := |old(conn.savepoints)|;
              && conn.working ==
                   (if undo.RollbackFails? then old(conn.working) else Some(old(conn.savepoints)[n - 1].snapshot))
              && conn.savepoints == old(conn.savepoints)[..if undo.Undone? then n - 1 else n]
    {
      var err := conn.RollbackTo(name, if undo.RollbackFails? then Some("rollback failed") else None);
      if err.None? {
        err := conn.Release(name, if undo.ReleaseFails? then Some("release failed") else None);
      }
    }

    /** One request inside savepoint `name` of the open transaction. */
    method ApplySavepoint(request: WriteRequest, name: nat, record: Option<(string, string)>, f: Faults)
      returns (response: WriteResponse)
      requires conn.working.Some?
      modifies conn
      ensures conn.durable == old(conn.durable) && conn.working.Some?
      ensures var s := Nest(en, old(conn.working.value), request, record, f);
              && conn.working == Some(s.db) && response == s.response
              && conn.savepoints == old(conn.savepoints) + Stranded(name, old(conn.working.value), s.kept, f)
      ensures conn.seen <= old(conn.seen) + {conn.durable}
    {
      var err := conn.OpenSavepoint(name, f.open);
      if err.Some? {
        return FailedReply(request.requestId, err.value);
      }
      var commitSeq;
      err, commitSeq := Fill(request, record, f);
      if err.Some? {
        Abandon(name, f.undo);
        return FailedReply(request.requestId, err.value);
      }
      err := conn.Release(name, f.close);
      if err.Some? {
        Abandon(name, f.undo);
        return FailedReply(request.requestId, err.value);
      }
      return CommittedReply(request.requestId, commitSeq);
    }

    /** One job of a batch inside the open transaction. */
    method ServeInside(job: Job, idx: nat) returns (response: WriteResponse)
      requires conn.working.Some?
      modifies conn
      ensures conn.durable == old(conn.durable)
      ensures var s := ServeNested(en, old(conn.working.value), job.request, job.faults);
              && conn.working == Some(s.db) && response == s.response
              && conn.savepoints == old(conn.savepoints) + StrandedBy(en, old(conn.working.value), job, idx)
      ensures conn.seen <= old(conn.seen) + {conn.durable}
    {
      hide Nest, RunOps;
      var request, f := job.request, job.faults;
      var rejection := Reject(request.operations);
      if rejection.Some? {
        return FailedReply(request.requestId, rejection.value);
      }
      var verdict := CheckKey(request, f);
      match verdict
      case Reply(reply) => response := reply;
      case Proceed(record) => response := ApplySavepoint(request, idx, record, f);
    }

    /** Serve every job of a batch inside the open transaction and hold the replies back. */
    method ApplyEach(batch: seq<Job>) returns (responses: seq<WriteResponse>)
      requires conn.working.Some?
      modifies conn
      ensures conn.durable == old(conn.durable)
      ensures var r := NestAll(en, old(conn.working.value), batch);
              conn.working == Some(r.db) && |responses| == |batch| &&
              forall i :: 0 <= i < |batch| ==> responses[i] == r.answers[i].response
      ensures conn.savepoints == old(conn.savepoints) + StrandedAll(en, old(conn.working.value), batch, 0)
      ensures conn.seen <= old(conn.seen) + {conn.durable}
    {
      hide ServeNested, StrandedBy, NestAll, StrandedAll;
      ghost var r := NestAll(en, conn.working.value, batch);
      ghost var stranded := StrandedAll(en, conn.working.value, batch, 0);
      responses := [];
      var idx := 0;
      assert batch[0..] == batch && r.answers[0..] == r.answers;
      while idx < |batch|
        invariant idx <= |batch| && |responses| == idx
        invariant conn.durable == old(conn.durable) && conn.working.Some?
        invariant forall i :: 0 <= i < idx ==> responses[i] == r.answers[i].response
        invariant NestAll(en, conn.working.value, batch[idx..]) == Round(r.db, r.answers[idx..])
        invariant conn.savepoints + StrandedAll(en, conn.working.value, batch[idx..], idx) ==
                  old(conn.savepoints) + stranded
        invariant conn.seen <= old(conn.seen) + {conn.durable}
      {
        EachNext(en, conn.working.value, batch, idx);
        assert r.answers[idx..][0] == r.answers[idx] && r.answers[idx..][1..] == r.answers[idx + 1..];
        var response := ServeInside(batch[idx], idx);
        responses := responses + [response];
        idx := idx + 1;
      }
      EachDone(en, conn.working.value, batch, idx);
    }

    /** Several single-operation requests in one outer transaction. */
    method ApplyBatch(batch: seq<Job>)
      requires Valid() && batch != []
      modifies this`outbox, this`sentOn, conn, latency
      ensures Valid()
      ensures var r := ServeGroup(en, old(conn.durable), batch);
              && conn.durable == r.db && outbox == old(outbox) + Wire(Report(r.answers))
              && sentOn == old(sentOn) + Same(|batch|, r.db)
      ensures latency.recorded == old(latency.recorded) +
                (if batch[0].faults.outerOpen.None? && batch[0].faults.outerClose.None?
                 then [batch[0].faults.micros] else [])
      ensures conn.seen <= old(conn.seen) + {old(conn.durable), conn.durable}
    {
      hide ServeNested, Serve;
      ghost var r := ServeGroup(en, conn.durable, batch);
      var lead := batch[0].faults;
      var err := conn.Begin(lead.outerOpen);
      var replies: seq<WriteResponse>;
      if err.Some? {
        replies := seq(|batch|, i requires 0 <= i < |batch| => FailedReply(batch[i].request.requestId, err.value));
      } else {
        replies := ApplyEach(batch);
        err := conn.Commit(lead.outerClose);
        if err.Some? {
          conn.Rollback();
          replies := seq(|batch|, i requires 0 <= i < |batch| =>
            if replies[i].status == Committed then FailedReply(replies[i].requestId, err.value) else replies[i]);
        } else {
          latency.Push(lead.micros);
        }
      }
      assert forall i :: 0 <= i < |batch| ==> replies[i] == r.answers[i].response;
      SendAll(batch, replies, r);
    }

    method SendAll(batch: seq<Job>, replies: seq<WriteResponse>, ghost r: Round)
      requires |replies| == |batch| == |r.answers|
      requires forall i :: 0 <= i < |batch| ==>
                 replies[i] == r.answers[i].response && batch[i].ticket == r.answers[i].ticket
      modifies this`outbox, this`sentOn
      ensures outbox == old(outbox) + Wire(Report(r.answers))
      ensures sentOn == old(sentOn) + Same(|batch|, conn.durable)
    {
      var i := 0;
      ghost var all := Wire(Report(r.answers));
      while i < |batch|
        invariant i <= |batch| && outbox == old(outbox) + all[..i] && sentOn == old(sentOn) + Same(i, conn.durable)
      {
        outbox, sentOn := outbox + [Response(batch[i].ticket, replies[i])], sentOn + [conn.durable];
        i := i + 1;
      }
    }

    /** One job through Apply, with its reply sent. */
    method ServeAlone(job: Job)
      requires Valid()
      modifies this`outbox, this`sentOn, conn, latency
      ensures Valid() && conn.seen <= old(conn.seen) + {old(conn.durable), conn.durable}
      ensures var e := Perform(en, old(conn.durable), Single(job));
              && conn.durable == e.db && outbox == old(outbox) + Wire(e.events)
              && sentOn == old(sentOn) + Same(|e.events|, e.db)
              && latency.recorded == old(latency.recorded) + e.latencies
    {
      var response := Apply(job.request, job.faults);
      outbox, sentOn := outbox + [Response(job.ticket, response)], sentOn + [conn.durable];
    }

    /** A command that is not batched; true when it ends the loop. */
    method ServeDirect(cmd: Command) returns (stop: bool)
      requires Valid()
      modifies this`outbox, this`sentOn, conn, latency
      ensures Valid() && stop == cmd.Shutdown?
      ensures conn.seen <= old(conn.seen) + {old(conn.durable), conn.durable}
      ensures !stop ==>
                var e := Perform(en, old(conn.durable), Direct(cmd));
                && conn.durable == e.db && outbox == old(outbox) + Wire(e.events)
                && sentOn == old(sentOn) + Same(|e.events|, e.db)
                && latency.recorded == old(latency.recorded) + e.latencies
      ensures stop ==>
                && conn.durable == old(conn.durable) && latency.recorded == old(latency.recorded)
                && outbox == old(outbox) && sentOn == old(sentOn)
    {
      match cmd
      case Shutdown =>
        return true;
      case Checkpoint(ticket, fault) =>
        outbox, sentOn := outbox + [Result(ticket, fault, conn.durable)], sentOn + [conn.durable];
        return false;
      case Write(job) =>
        ServeAlone(job);
        return false;
    }

    /** Greedily collect more single-operation writes behind `first`. A command that cannot join
        the batch has been taken off the queue by then and is handed back as deferred. */
    method Drain(first: Job, limit: nat, ghost rest: seq<Arrival>)
      returns (batch: seq<Job>, deferred: Option<Command>)
      requires receiver.Valid() && rest != [] && Batchable(rest[0])
      requires rest[0].cmd.job == first && receiver.Pending() == rest[1..]
      modifies receiver
      ensures receiver.Valid()
      ensures var n := Drained(rest, limit, 1);
              && batch == Jobs(rest, n)
              && if deferred.Some?
                 then n < |rest| && rest[n].cmd == deferred.value && !Batchable(rest[n]) &&
                   receiver.Pending() == rest[n + 1..]
                 else receiver.Pending() == rest[n..]
    {
      batch, deferred := [first], None;
      while |batch| < limit
        invariant receiver.Valid() && 1 <= |batch| <= |rest| && deferred.None?
        invariant receiver.Pending() == rest[|batch|..]
        invariant forall i :: 0 <= i < |batch| ==> Batchable(rest[i]) && batch[i] == rest[i].cmd.job
        invariant Drained(rest, limit, 1) == Drained(rest, limit, |batch|)
      {
        ghost var n := |batch|;
        assert rest[n..] != [] ==> rest[n..][0] == rest[n] && rest[n..][1..] == rest[n + 1..];
        var cmd := receiver.TryRecv();
        if cmd.None? {
          break;
        }
        if cmd.value.Write? && |cmd.value.job.request.operations| == 1 {
          batch := batch + [cmd.value.job];
        } else {
          deferred := cmd;
          break;
        }
      }
    }

    /** Serve the batch led by `first`; the deferred command, if any, is left to the caller. */
    method ServeBundle(first: Job, limit: nat, ghost rest: seq<Arrival>) returns (deferred: Option<Command>)
      requires Valid() && rest != [] && Batchable(rest[0])
      requires rest[0].cmd.job == first && receiver.Pending() == rest[1..]
      modifies this`outbox, this`sentOn, conn, receiver, latency
      ensures Valid() && conn.seen <= old(conn.seen) + {old(conn.durable), conn.durable}
      ensures var e := Perform(en, old(conn.durable), Bundle(rest, limit));
              && conn.durable == e.db && outbox == old(outbox) + Wire(e.events)
              && sentOn == old(sentOn) + Same(|e.events|, e.db)
              && latency.recorded == old(latency.recorded) + e.latencies
      ensures var n := Drained(rest, limit, 1);
              if deferred.Some?
              then n < |rest| && rest[n].cmd == deferred.value && !Batchable(rest[n]) &&
                   receiver.Pending() == rest[n + 1..]
              else receiver.Pending() == rest[n..]
    {
      var batch;
      batch, deferred := Drain(first, limit, rest);
      if |batch| == 1 {
        ServeAlone(batch[0]);
      } else {
        ApplyBatch(batch);
      }
    }

    /** What is still to come: everything the loop does from the present state on. */
    ghost function Future(): Effects
      requires receiver.Valid()
      reads receiver, conn
    {
      Execute(en, conn.durable, Plan(receiver.Pending(), maxSize))
    }

    /** The durable databases the loop will pass through from the present state on. */
    ghost function Ahead(): set<Db>
      requires receiver.Valid()
      reads receiver, conn
    {
      Stages(en, conn.durable, Plan(receiver.Pending(), maxSize))
    }

    /** The durable databases on which the replies still to come will leave. */
    ghost function Owed(): seq<Db>
      requires receiver.Valid()
      reads receiver, conn
    {
      Standing(en, conn.durable, Plan(receiver.Pending(), maxSize))
    }

    /** Rest of an iteration once `cmd`, the command at the head of `rest`, has been received and is not batched. */
    method FinishDirect(cmd: Command, ghost rest: seq<Arrival>) returns (stop: bool, ghost done: Effects)
      requires Valid() && rest != [] && rest[0].cmd == cmd && receiver.Pending() == rest[1..]
      requires maxSize.Some? ==> !Batchable(rest[0])
      modifies this`outbox, this`sentOn, conn, latency
      ensures Valid()
      ensures outbox == old(outbox) + Wire(done.events) && latency.recorded == old(latency.recorded) + done.latencies
      ensures Execute(en, old(conn.durable), Plan(rest, maxSize)) ==
              Joined(done.events, done.latencies, if stop then Effects(conn.durable, [], []) else Future())
      ensures var ahead := Stages(en, old(conn.durable), Plan(rest, maxSize));
              conn.seen <= old(conn.seen) + ahead && (!stop ==> Ahead() <= ahead)
      ensures sentOn + (if stop then [] else Owed()) ==
              old(sentOn) + Standing(en, old(conn.durable), Plan(rest, maxSize))
    {
      hide Execute, Perform, Plan, Stages, Standing, Same, Wire, Batchable;
      ghost var db, stood := conn.durable, sentOn;
      PlanDirect(rest, maxSize);
      NoSteps(en, db);
      done := Effects(db, [], []);
      stop := ServeDirect(cmd);
      if stop {
        NothingSent(outbox, latency.recorded, sentOn);
      } else {
        done := Perform(en, db, Direct(cmd));
        ExecuteCons(en, db, Direct(cmd), Plan(rest[1..], maxSize));
        StagesCons(en, db, Direct(cmd), Plan(rest[1..], maxSize));
        StandingCons(en, db, Direct(cmd), Plan(rest[1..], maxSize));
        Associates(stood, Same(|done.events|, done.db), Standing(en, done.db, Plan(rest[1..], maxSize)));
      }
    }

    lemma NothingSent(sent: seq<Sent>, entries: seq<nat>, stood: seq<Db>)
      ensures sent + Wire([]) == sent && entries + [] == entries && stood + [] == stood
    {
    }

    /** An iteration that received the single-operation write at the head of `rest` in batch mode. */
    method FinishBundle(job: Job, limit: nat, ghost rest: seq<Arrival>) returns (stop: bool, ghost done: Effects)
      requires Valid() && rest != [] && Batchable(rest[0]) && rest[0].cmd.job == job && receiver.Pending() == rest[1..]
      requires maxSize == Some(limit)
      modifies this`outbox, this`sentOn, conn, receiver, latency
      ensures Valid() && |receiver.Pending()| < |rest|
      ensures outbox == old(outbox) + Wire(done.events) && latency.recorded == old(latency.recorded) + done.latencies
      ensures Execute(en, old(conn.durable), Plan(rest, maxSize)) ==
              Joined(done.events, done.latencies, if stop then Effects(conn.durable, [], []) else Future())
      ensures var ahead := Stages(en, old(conn.durable), Plan(rest, maxSize));
              conn.seen <= old(conn.seen) + ahead && (!stop ==> Ahead() <= ahead)
      ensures sentOn + (if stop then [] else Owed()) ==
              old(sentOn) + Standing(en, old(conn.durable), Plan(rest, maxSize))
    {
      hide Execute, Perform, Drained, Plan, Bundle, Stages, Standing, Same, Wire, Joined, Batchable;
      PlanBundle(rest, limit);
      ghost var db, was, told, stood := conn.durable, outbox, latency.recorded, sentOn;
      ghost var first, tail := Bundle(rest, limit), rest[Drained(rest, limit, 1)..];
      var deferred := ServeBundle(job, limit, rest);
      done := Perform(en, db, first);
      stop := false;
      ExecuteCons(en, db, first, Plan(tail, maxSize));
      StagesCons(en, db, first, Plan(tail, maxSize));
      StandingCons(en, db, first, Plan(tail, maxSize));
      Associates(stood, Same(|done.events|, done.db), Standing(en, done.db, Plan(tail, maxSize)));
      if deferred.Some? {
        ghost var more;
        stop, more := FinishDirect(deferred.value, tail);
        Associates(was, Wire(done.events), Wire(more.events));
        Associates(told, done.latencies, more.latencies);
        Chain(done, more, if stop then Effects(conn.durable, [], []) else Future());
        done := Effects(more.db, done.events + more.events, done.latencies + more.latencies);
      }
    }

    /** One iteration; `stop` once the queue is exhausted or a Shutdown was reached. */
    method Turn() returns (stop: bool, ghost done: Effects)
      requires Valid()
      modifies this`outbox, this`sentOn, conn, receiver, latency
      ensures Valid() && (!stop ==> |receiver.Pending()| < |old(receiver.Pending())|)
      ensures outbox == old(outbox) + Wire(done.events) && latency.recorded == old(latency.recorded) + done.latencies
      ensures old(Future()) ==
              Joined(done.events, done.latencies, if stop then Effects(conn.durable, [], []) else Future())
      ensures conn.seen <= old(conn.seen) + old(Ahead()) && (!stop ==> Ahead() <= old(Ahead()))
      ensures sentOn + (if stop then [] else Owed()) == old(sentOn) + old(Owed())
    {
      ghost var rest := receiver.Pending();
      var cmd := receiver.BlockingRecv();
      if cmd.None? {
        return true, Effects(conn.durable, [], []);
      }
      assert receiver.Pending() == rest[1..];
      if maxSize.Some? && cmd.value.Write? && |cmd.value.job.request.operations| == 1 {
        stop, done := FinishBundle(cmd.value.job, maxSize.value, rest);
      } else {
        stop, done := FinishDirect(cmd.value, rest);
      }
    }

    /** The writer loop. The final shutdown checkpoint changes nothing modelled here. Whenever the process
        dies, what it leaves on disk is the database behind some number of steps of the plan. */
    method Run()
      requires Valid()
      modifies this`outbox, this`sentOn, conn, receiver, latency
      ensures Valid()
      ensures var e := Execute(en, old(conn.durable), Plan(old(receiver.Pending()), maxSize));
              && conn.durable == e.db && outbox == old(outbox) + Wire(e.events)
              && latency.recorded == old(latency.recorded) + e.latencies
      ensures sentOn == old(sentOn) + Standing(en, old(conn.durable), Plan(old(receiver.Pending()), maxSize))
      ensures var steps := Plan(old(receiver.Pending()), maxSize);
              forall d :: d in conn.seen && d !in old(conn.seen) ==>
                exists i :: 0 <= i <= |steps| && d == Execute(en, old(conn.durable), steps[..i]).db
    {
      hide Execute, Plan, Stages, Standing;
      ghost var whole, ahead, owed := Future(), Ahead(), Owed();
      ghost var told := Effects(conn.durable, [], []);
      var stop := false;
      while !stop
        invariant Valid()
        invariant outbox == old(outbox) + Wire(told.events)
        invariant latency.recorded == old(latency.recorded) + told.latencies
        invariant whole == Joined(told.events, told.latencies, if stop then Effects(conn.durable, [], []) else Future())
        invariant conn.seen <= old(conn.seen) + ahead && (!stop ==> Ahead() <= ahead)
        invariant sentOn + (if stop then [] else Owed()) == old(sentOn) + owed
        decreases !stop, |receiver.Pending()|
      {
        ghost var done;
        stop, done := Turn();
        Chain(told, done, if stop then Effects(conn.durable, [], []) else Future());
        assert outbox == old(outbox) + (Wire(told.events) + Wire(done.events));
        told := Effects(done.db, told.events + done.events, told.latencies + done.latencies);
      }
      forall d | d in ahead
        ensures exists i :: 0 <= i <= |old(Plan(receiver.Pending(), maxSize))| &&
                  d == Execute(en, old(conn.durable), old(Plan(receiver.Pending(), maxSize))[..i]).db
      {
        StagesArePrefixes(en, old(conn.durable), old(Plan(receiver.Pending(), maxSize)), d);
      }
    }

    lemma Chain(first: Effects, second: Effects, later: Effects)
      ensures Wire(first.events + second.events) == Wire(first.events) + Wire(second.events)
      ensures Joined(first.events, first.latencies, Joined(second.events, second.latencies, later)) ==
              Joined(first.events + second.events, first.latencies + second.latencies, later)
    {
      WireConcat(first.events, second.events);
      JoinedTwice(first.events, first.latencies, second.events, second.latencies, later);
    }
  }
}

/** What a caller is told, and what happens to the database, in every case one request can end in. Each case
    is put in terms of the request, the stored rows, the engine and what goes wrong, and of nothing else. */
module Outcomes {
  import opened Basics
  import opened Requests
  import opened Store
  import opened Serving
  import opened Scheduling
  import opened History

  // ---- Validation ----

  lemma {:induction false} FirstRejectionIs(en: Engine, ops: seq<Operation>, i: nat)
    requires i <= |ops| && forall j :: 0 <= j < i ==> en.reject(ops[j]).None?
    ensures i == |ops| ==> FirstRejection(en, ops).None?
    ensures i < |ops| && en.reject(ops[i]).Some? ==> FirstRejection(en, ops) == en.reject(ops[i])
    decreases ops
  {
    if i > 0 {
      assert forall j :: 0 <= j < i - 1 ==> ops[1..][j] == ops[j + 1];
      FirstRejectionIs(en, ops[1..], i - 1);
    }
  }

  lemma {:induction false} NoRejection(en: Engine, ops: seq<Operation>)
    ensures FirstRejection(en, ops).None? <==> forall i :: 0 <= i < |ops| ==> en.reject(ops[i]).None?
  {
    if ops != [] {
      NoRejection(en, ops[1..]);
      assert forall i :: 0 < i < |ops| ==> ops[i] == ops[1..][i - 1];
      assert forall i :: 0 <= i < |ops[1..]| ==> ops[1..][i] == ops[i + 1];
    }
  }

  /** A request with a rejected operation, wherever it stands, is answered with the first rejection, and
      the database is left alone: alone and inside a batch. */
  lemma RejectedOutcome(en: Engine, db: Db, request: WriteRequest, f: Faults, i: nat)
    requires i < |request.operations| && en.reject(request.operations[i]).Some?
    requires forall j :: 0 <= j < i ==> en.reject(request.operations[j]).None?
    ensures var told := WriteResponse(request.requestId, Failed, None, en.reject(request.operations[i]));
            Serve(en, db, request, f) == ServeNested(en, db, request, f) == Served(db, told, false)
  {
    FirstRejectionIs(en, request.operations, i);
  }

  lemma {:induction false} KeptOneIsAllowed(en: Engine, db: Db, jobs: seq<Job>, i: nat)
    requires i < |jobs| && NestAll(en, db, jobs).answers[i].kept
    ensures FirstRejection(en, jobs[i].request.operations).None?
    decreases jobs
  {
    hide FirstRejection, Nest;
    if i > 0 {
      KeptOneIsAllowed(en, ServeNested(en, db, jobs[0].request, jobs[0].faults).db, jobs[1..], i - 1);
    }
  }

  lemma KeptInStepIsAllowed(en: Engine, db: Db, step: Step, i: nat)
    requires i < |StepJobs(step)| && StepRound(en, db, step).answers[i].kept
    ensures FirstRejection(en, StepJobs(step)[i].request.operations).None?
  {
    hide FirstRejection, Transact, ServeNested;
    if step.Group? {
      KeptOneIsAllowed(en, db, step.jobs, i);
    }
  }

  lemma {:induction false} KeptComesFrom(jobs: seq<Job>, answers: seq<Answer>, request: WriteRequest) returns (i: nat)
    requires |jobs| == |answers| && request in Kept(jobs, answers)
    ensures i < |jobs| && answers[i].kept && jobs[i].request == request
    decreases jobs
  {
    if answers[0].kept && jobs[0].request == request {
      i := 0;
    } else {
      i := KeptComesFrom(jobs[1..], answers[1..], request);
      i := i + 1;
    }
  }

  /** Over any run, whatever fails and wherever it crashes, a request with a rejected operation never takes effect. */
  lemma {:induction false} RejectedNeverKept(en: Engine, db: Db, run: seq<Incident>,
                                             request: WriteRequest, op: Operation)
    requires request in HistoryOf(en, db, run) && op in request.operations
    ensures en.reject(op).None?
    decreases run
  {
    hide StepRound, FirstRejection;
    var now := StepRound(en, db, run[0].step);
    if Lasting(run[0]) && request in StepHistory(en, db, run[0].step) {
      var i := KeptComesFrom(StepJobs(run[0].step), now.answers, request);
      KeptInStepIsAllowed(en, db, run[0].step, i);
      NoRejection(en, request.operations);
    } else {
      RejectedNeverKept(en, if Lasting(run[0]) then now.db else db, run[1..], request, op);
    }
  }

  // ---- Idempotency keys ----

  /** A request that passes validation and carries a key that is looked up in vain or known already. */
  lemma KnownKeyOutcome(en: Engine, db: Db, request: WriteRequest, f: Faults, key: string)
    requires forall i :: 0 <= i < |request.operations| ==> en.reject(request.operations[i]).None?
    requires en.idempotent && request.idempotencyKey == Some(key) && (f.lookup.Some? || key in db.requests)
    ensures var told :=
              if f.lookup.Some? then WriteResponse(request.requestId, Failed, None, f.lookup)
              else if db.requests[key].hash != en.hash(request.operations) then
                WriteResponse(request.requestId, Failed, None,
                              Some("idempotency conflict: key '" + key +
                                   "' already used with a different request hash"))
              else if db.requests[key].response.Some? then db.requests[key].response.value
              else WriteResponse(request.requestId, Committed, None, None);
            Serve(en, db, request, f) == ServeNested(en, db, request, f) == Served(db, told, false)
  {
    NoRejection(en, request.operations);
  }

  // ---- Running the operations ----

  /** The user tables before each operation that is reached, and behind the last one that works. */
  lemma {:induction false} OperationsRun(en: Engine, user: UserTables, ops: seq<Operation>, f: Faults, i: nat)
    returns (trace: seq<UserTables>)
    requires i <= |ops|
    ensures 1 <= |trace| <= |ops| - i + 1 && trace[0] == user
    ensures forall j :: i <= j < i + |trace| - 1 ==>
              j !in f.ops && en.exec(trace[j - i], ops[j]) == Done(trace[j - i + 1])
    ensures var n := |trace| - 1;
            if i + n == |ops| then RunOps(en, user, ops, f, i) == Done(trace[n])
            else if i + n in f.ops then RunOps(en, user, ops, f, i) == Broke(f.ops[i + n], trace[n])
            else en.exec(trace[n], ops[i + n]).Broke? && RunOps(en, user, ops, f, i) == en.exec(trace[n], ops[i + n])
    decreases |ops| - i
  {
    trace := [user];
    if i < |ops| && i !in f.ops && en.exec(user, ops[i]).Done? {
      var rest := OperationsRun(en, en.exec(user, ops[i]).after, ops, f, i + 1);
      trace := [user] + rest;
      forall j | i <= j < i + |trace| - 1
        ensures j !in f.ops && en.exec(trace[j - i], ops[j]) == Done(trace[j - i + 1])
      {
        if j > i {
          assert trace[j - i] == rest[j - (i + 1)] && trace[j - i + 1] == rest[j - (i + 1) + 1];
        }
      }
    }
  }

  /** A request that passes validation and whose key, if it counts, is new. Its operations run in order up to
      the first one that fails; then the commit row, the dedup row and the end of the transaction follow.
      The first thing that goes wrong is what the caller is told. If nothing does, the database has every
      effect of the request: alone and inside a batch. */
  lemma NewRequestOutcome(en: Engine, db: Db, request: WriteRequest, f: Faults) returns (trace: seq<UserTables>)
    requires forall i :: 0 <= i < |request.operations| ==> en.reject(request.operations[i]).None?
    requires en.idempotent && request.idempotencyKey.Some? ==>
               f.lookup.None? && request.idempotencyKey.value !in db.requests
    ensures 1 <= |trace| <= |request.operations| + 1 && trace[0] == db.user
    ensures forall k :: 0 <= k < |trace| - 1 ==>
              k !in f.ops && en.exec(trace[k], request.operations[k]) == Done(trace[k + 1])
    ensures var n := |trace| - 1;
            n < |request.operations| ==> n in f.ops || en.exec(trace[n], request.operations[n]).Broke?
    ensures var n, ops, id := |trace| - 1, request.operations, request.requestId;
            var keyed := en.idempotent && request.idempotencyKey.Some?;
            var alone, nested := Serve(en, db, request, f), ServeNested(en, db, request, f);
            var wrong :=
              if f.open.Some? then f.open
              else if n < |ops| then Some(if n in f.ops then f.ops[n] else en.exec(trace[n], ops[n]).error)
              else if en.track && f.commitRow.Some? then f.commitRow
              else if en.track && db.counter >= 0x7fff_ffff_ffff_ffff then Some("database or disk is full")
              else if keyed && f.dedupRow.Some? then f.dedupRow
              else f.close;
            var number := if en.track then Some(db.counter + 1) else None;
            var told := WriteResponse(id, Committed, number, None);
            if wrong.Some? then
              && alone == Served(db, WriteResponse(id, Failed, None, wrong), false)
              && nested == Served(nested.db, WriteResponse(id, Failed, None, wrong), false)
            else
              && alone == nested && alone.response == told && alone.kept
              && alone.db.user == trace[|ops|]
              && alone.db.commits == db.commits +
                   (if en.track then [CommitRow(db.counter + 1, id, request.actorId, request.runId)] else [])
              && alone.db.counter == db.counter + (if en.track then 1 else 0)
              && alone.db.requests ==
                   if keyed then
                     db.requests[request.idempotencyKey.value := RequestRow(en.hash(ops), Some(told), number)]
                   else db.requests
  {
    hide RunOps;
    NoRejection(en, request.operations);
    trace := OperationsRun(en, db.user, request.operations, f, 0);
  }
}

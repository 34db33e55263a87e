/** What the durable database can look like after any run, with arbitrary failures and crashes:
    the result of a legal serial execution of the requests that were kept. */
module History {
  import opened Basics
  import opened Requests
  import opened Store
  import opened Serving
  import opened Scheduling
  import opened Refinement

  predicate Keyed(en: Engine, request: WriteRequest) {
    en.idempotent && request.idempotencyKey.Some?
  }

  /** Running a statement list with nothing going wrong outside the statements. */
  function RunAll(en: Engine, user: UserTables, ops: seq<Operation>): Outcome {
    if ops == [] then Done(user)
    else match en.exec(user, ops[0])
      case Broke(e, leftover) => Broke(e, leftover)
      case Done(after) => RunAll(en, after, ops[1..])
  }

  /** `request` may take effect on `db`: it is allowed, its statements work, its key is new. */
  predicate Legal(en: Engine, db: Db, request: WriteRequest) {
    && FirstRejection(en, request.operations).None?
    && RunAll(en, db.user, request.operations).Done?
    && (en.track ==> db.counter < MAX_ROWID)
    && (Keyed(en, request) ==> request.idempotencyKey.value !in db.requests)
  }

  function SeqAfter(en: Engine, counter: nat): Option<nat> {
    if en.track then Some(counter + 1) else None
  }

  function RowFor(en: Engine, request: WriteRequest, counter: nat): RequestRow {
    var s := SeqAfter(en, counter);
    RequestRow(en.hash(request.operations), Some(CommittedReply(request.requestId, s)), s)
  }

  function CommitFor(request: WriteRequest, counter: nat): CommitRow {
    CommitRow(counter + 1, request.requestId, request.actorId, request.runId)
  }

  /** All the effects of one request at once. */
  function Effect(en: Engine, db: Db, request: WriteRequest): Db
    requires Legal(en, db, request)
  {
    Db(RunAll(en, db.user, request.operations).after,
       db.commits + if en.track then [CommitFor(request, db.counter)] else [],
       db.counter + if en.track then 1 else 0,
       if Keyed(en, request) then db.requests[request.idempotencyKey.value := RowFor(en, request, db.counter)]
       else db.requests)
  }

  predicate LegalAll(en: Engine, db: Db, h: seq<WriteRequest>)
    decreases h
  {
    h == [] || (Legal(en, db, h[0]) && LegalAll(en, Effect(en, db, h[0]), h[1..]))
  }

  function EffectAll(en: Engine, db: Db, h: seq<WriteRequest>): Db
    requires LegalAll(en, db, h)
    decreases h
  {
    if h == [] then db else EffectAll(en, Effect(en, db, h[0]), h[1..])
  }

  // ---- From served jobs to histories ----

  lemma {:induction false} RunOpsIsRunAll(en: Engine, user: UserTables, ops: seq<Operation>, f: Faults, i: nat)
    requires i <= |ops| && RunOps(en, user, ops, f, i).Done?
    ensures RunAll(en, user, ops[i..]) == RunOps(en, user, ops, f, i)
    decreases |ops| - i
  {
    if i < |ops| {
      assert ops[i..][0] == ops[i] && ops[i..][1..] == ops[i + 1..];
      RunOpsIsRunAll(en, en.exec(user, ops[i]).after, ops, f, i + 1);
    }
  }

  /** All or nothing: a kept request has all of its effects, its key being new, so INSERT OR IGNORE
      never ignores; any other reply leaves the database alone. */
  lemma ServeAtomic(en: Engine, db: Db, request: WriteRequest, f: Faults)
    ensures var s := Serve(en, db, request, f);
            if s.kept
            then Legal(en, db, request) && s.db == Effect(en, db, request) &&
                 s.response == CommittedReply(request.requestId, SeqAfter(en, db.counter))
            else s.db == db
  {
    if Serve(en, db, request, f).kept {
      RunOpsIsRunAll(en, db.user, request.operations, f, 0);
      assert request.operations[0..] == request.operations;
    }
  }

  function Kept(jobs: seq<Job>, answers: seq<Answer>): seq<WriteRequest>
    requires |jobs| == |answers|
    decreases jobs
  {
    if jobs == [] then []
    else (if answers[0].kept then [jobs[0].request] else []) + Kept(jobs[1..], answers[1..])
  }

  lemma {:induction false} NoneKept(jobs: seq<Job>, answers: seq<Answer>)
    requires |jobs| == |answers| && forall i :: 0 <= i < |answers| ==> !answers[i].kept
    ensures Kept(jobs, answers) == []
    decreases jobs
  {
    if jobs != [] {
      NoneKept(jobs[1..], answers[1..]);
    }
  }

  lemma {:induction false} ServeAllIsSerial(en: Engine, db: Db, jobs: seq<Job>)
    ensures var r := ServeAll(en, db, jobs);
            var h := Kept(jobs, r.answers);
            LegalAll(en, db, h) && r.db == EffectAll(en, db, h)
    decreases jobs
  {
    hide Serve, Legal, Effect;
    if jobs != [] {
      var s := Serve(en, db, jobs[0].request, jobs[0].faults);
      var rest := ServeAll(en, s.db, jobs[1..]);
      ServeAtomic(en, db, jobs[0].request, jobs[0].faults);
      ServeAllIsSerial(en, s.db, jobs[1..]);
      assert ServeAll(en, db, jobs).answers[1..] == rest.answers;
      var h := Kept(jobs[1..], rest.answers);
      assert [] + h == h && ([jobs[0].request] + h)[1..] == h;
    }
  }

  /** The requests of one step that change the database, in order. */
  function StepHistory(en: Engine, db: Db, step: Step): seq<WriteRequest> {
    Kept(StepJobs(step), StepRound(en, db, step).answers)
  }

  /** No job of a batch that commits leaks. */
  predicate CleanStep(en: Engine, db: Db, step: Step) {
    step.Group? && step.jobs != [] && Carries(step.jobs[0]) ==> NoLeaks(en, db, step.jobs)
  }

  /** Savepoint discipline for a whole step: the database afterwards is the serial execution of
      exactly the kept requests; failing ones, and failing outer transactions, add nothing. */
  lemma StepIsSerial(en: Engine, db: Db, step: Step)
    requires CleanStep(en, db, step)
    ensures var h := StepHistory(en, db, step);
            LegalAll(en, db, h) && StepRound(en, db, step).db == EffectAll(en, db, h)
  {
    hide Serve, Legal, Effect, NoLeaks;
    match step
    case Check(_, _) =>
    case Single(job) =>
      ServeAllIsSerial(en, db, [job]);
      var s := Serve(en, db, job.request, job.faults);
      assert [job][1..] == [] && ServeAll(en, s.db, []) == Round(s.db, []);
      assert ServeAll(en, db, [job]).answers == StepRound(en, db, step).answers;
    case Group(jobs) =>
      if jobs == [] {
      } else if Carries(jobs[0]) {
        BatchRefinesSequential(en, db, jobs);
        ServeAllIsSerial(en, db, jobs);
      } else {
        OuterFailure(en, db, jobs);
        NoneKept(jobs, StepRound(en, db, step).answers);
      }
  }

  /** The state of a batch behind its first `n` jobs is the serial execution of those that succeeded. */
  predicate SerialUpTo(en: Engine, db: Db, jobs: seq<Job>, n: nat)
    requires n <= |jobs|
  {
    var r := NestAll(en, db, jobs[..n]);
    var h := Kept(jobs[..n], r.answers);
    LegalAll(en, db, h) && r.db == EffectAll(en, db, h)
  }

  /** Savepoints keep a batch serial at every point exactly when no job leaks. */
  lemma {:induction false} SerialIff(en: Engine, db: Db, jobs: seq<Job>)
    ensures NoLeaks(en, db, jobs) <==> forall n :: 0 <= n <= |jobs| ==> SerialUpTo(en, db, jobs, n)
    decreases jobs
  {
    hide Serve, ServeNested, Leaks, SerialUpTo, Legal, Effect;
    SerialNone(en, db, jobs);
    if jobs != [] {
      var next := Serve(en, db, jobs[0].request, jobs[0].faults).db;
      LeakIff(en, db, jobs[0]);
      if Leaks(en, db, jobs[0]) {
        SerialOne(en, db, jobs);
      } else {
        SerialIff(en, next, jobs[1..]);
        forall n | 0 < n <= |jobs| ensures SerialUpTo(en, db, jobs, n) <==> SerialUpTo(en, next, jobs[1..], n - 1) {
          SerialNext(en, db, jobs, n);
        }
        forall n | 0 <= n <= |jobs[1..]|
          ensures SerialUpTo(en, next, jobs[1..], n) <==> SerialUpTo(en, db, jobs, n + 1)
        {
        }
      }
    }
  }

  lemma SerialNone(en: Engine, db: Db, jobs: seq<Job>)
    ensures SerialUpTo(en, db, jobs, 0)
  {
  }

  lemma SerialOne(en: Engine, db: Db, jobs: seq<Job>)
    requires jobs != [] && Leaks(en, db, jobs[0])
    ensures !SerialUpTo(en, db, jobs, 1)
  {
    hide Serve, ServeNested, Legal, Effect;
    LeakIff(en, db, jobs[0]);
    ServeAtomic(en, db, jobs[0].request, jobs[0].faults);
    var s := ServeNested(en, db, jobs[0].request, jobs[0].faults);
    var one := jobs[..1];
    assert one[0] == jobs[0] && one[1..] == [] && NestAll(en, s.db, []) == Round(s.db, []);
    var r := NestAll(en, db, one);
    assert r.db == s.db && !r.answers[0].kept;
    NoneKept(one, r.answers);
  }

  lemma SerialNext(en: Engine, db: Db, jobs: seq<Job>, n: nat)
    requires 0 < n <= |jobs| && !Leaks(en, db, jobs[0])
    ensures SerialUpTo(en, db, jobs, n) <==>
            SerialUpTo(en, Serve(en, db, jobs[0].request, jobs[0].faults).db, jobs[1..], n - 1)
  {
    hide Serve, ServeNested, Legal, Effect, Leaks;
    var s := Serve(en, db, jobs[0].request, jobs[0].faults);
    LeakIff(en, db, jobs[0]);
    ServeAtomic(en, db, jobs[0].request, jobs[0].faults);
    assert jobs[..n][0] == jobs[0] && jobs[..n][1..] == jobs[1..][..n - 1];
    var rest := NestAll(en, s.db, jobs[1..][..n - 1]);
    assert NestAll(en, db, jobs[..n]).answers[1..] == rest.answers;
    var h := Kept(jobs[1..][..n - 1], rest.answers);
    assert [] + h == h && ([jobs[0].request] + h)[1..] == h;
  }

  // ---- Runs with crashes ----

  /** A step that completed, or one during which the process died: before its COMMIT took hold, or
      after it but before all replies were out. */
  datatype Incident = Completed(step: Step) | Crashed(step: Step, committed: bool)

  predicate Lasting(i: Incident) {
    i.Completed? || i.committed
  }

  function DurableAfter(en: Engine, db: Db, run: seq<Incident>): Db
    decreases run
  {
    if run == [] then db
    else DurableAfter(en, if Lasting(run[0]) then StepRound(en, db, run[0].step).db else db, run[1..])
  }

  function HistoryOf(en: Engine, db: Db, run: seq<Incident>): seq<WriteRequest>
    decreases run
  {
    if run == [] then []
    else if Lasting(run[0])
    then StepHistory(en, db, run[0].step) + HistoryOf(en, StepRound(en, db, run[0].step).db, run[1..])
    else HistoryOf(en, db, run[1..])
  }

  /** No job of any batch that commits in the run leaks. */
  predicate CleanRun(en: Engine, db: Db, run: seq<Incident>)
    decreases run
  {
    if run == [] then true
    else if Lasting(run[0])
    then CleanStep(en, db, run[0].step) && CleanRun(en, StepRound(en, db, run[0].step).db, run[1..])
    else CleanRun(en, db, run[1..])
  }

  /** A run in which no ROLLBACK TO fails is clean. */
  lemma {:induction false} QuietRunIsClean(en: Engine, db: Db, run: seq<Incident>)
    requires forall i, job :: i in run && job in StepJobs(i.step) ==> !job.faults.undo.RollbackFails?
    ensures CleanRun(en, db, run)
    decreases run
  {
    hide StepRound, NoLeaks;
    if run != [] {
      assert run[0] in run && forall i :: i in run[1..] ==> i in run;
      CleansNeverLeak(en, db, StepJobs(run[0].step));
      QuietRunIsClean(en, if Lasting(run[0]) then StepRound(en, db, run[0].step).db else db, run[1..]);
    }
  }

  lemma {:induction false} EffectConcat(en: Engine, db: Db, a: seq<WriteRequest>, b: seq<WriteRequest>)
    requires LegalAll(en, db, a)
    ensures LegalAll(en, db, a + b) <==> LegalAll(en, EffectAll(en, db, a), b)
    ensures LegalAll(en, db, a + b) ==> EffectAll(en, db, a + b) == EffectAll(en, EffectAll(en, db, a), b)
    decreases a
  {
    hide Legal, Effect;
    if a == [] {
      assert a + b == b;
    } else {
      assert (a + b)[1..] == a[1..] + b;
      EffectConcat(en, Effect(en, db, a[0]), a[1..], b);
    }
  }

  /** After any run, with any failures and any crashes, the durable database is the legal serial
      execution of the kept requests, in the order they were served. */
  lemma {:induction false} DurableIsSerial(en: Engine, db: Db, run: seq<Incident>)
    requires CleanRun(en, db, run)
    ensures LegalAll(en, db, HistoryOf(en, db, run))
    ensures DurableAfter(en, db, run) == EffectAll(en, db, HistoryOf(en, db, run))
    decreases run
  {
    hide StepRound, StepHistory, LegalAll, EffectAll, CleanStep;
    if run == [] {
      EmptyHistory(en, db);
    } else {
      if Lasting(run[0]) {
        var next := StepRound(en, db, run[0].step).db;
        StepIsSerial(en, db, run[0].step);
        DurableIsSerial(en, next, run[1..]);
        EffectConcat(en, db, StepHistory(en, db, run[0].step), HistoryOf(en, next, run[1..]));
      } else {
        DurableIsSerial(en, db, run[1..]);
      }
    }
  }

  lemma EmptyHistory(en: Engine, db: Db)
    ensures LegalAll(en, db, []) && EffectAll(en, db, []) == db
  {
  }

  // ---- What a legal history says about the internal tables ----

  /** The commit rows of a history that starts at `counter`. */
  function CommitRows(h: seq<WriteRequest>, counter: nat): (rows: seq<CommitRow>)
    ensures |rows| == |h|
    ensures forall i :: 0 <= i < |h| ==>
              rows[i] == CommitRow(counter + i + 1, h[i].requestId, h[i].actorId, h[i].runId)
  {
    seq(|h|, i requires 0 <= i < |h| => CommitFor(h[i], counter + i))
  }

  lemma EffectTables(en: Engine, db: Db, request: WriteRequest)
    requires Legal(en, db, request)
    ensures var e := Effect(en, db, request);
            && e.counter == db.counter + (if en.track then 1 else 0)
            && e.commits == db.commits + (if en.track then [CommitFor(request, db.counter)] else [])
            && (forall k :: k in db.requests ==> k in e.requests && e.requests[k] == db.requests[k])
  {
    hide FirstRejection, RunAll;
  }

  /** Tables after a history: one commit row per request, numbered without gaps, and one dedup row per key. */
  lemma {:induction false} TablesOf(en: Engine, db: Db, h: seq<WriteRequest>)
    requires LegalAll(en, db, h)
    ensures var e := EffectAll(en, db, h);
            && e.counter == db.counter + (if en.track then |h| else 0)
            && e.commits == db.commits + (if en.track then CommitRows(h, db.counter) else [])
            && (forall k :: k in db.requests ==> k in e.requests && e.requests[k] == db.requests[k])
    decreases h
  {
    hide Legal, Effect, CommitRows;
    CommitRowsCons(h, db.counter);
    if h != [] {
      var next := Effect(en, db, h[0]);
      EffectTables(en, db, h[0]);
      TablesOf(en, next, h[1..]);
      assert db.commits + [] == db.commits;
      assert db.commits + [CommitFor(h[0], db.counter)] + CommitRows(h[1..], db.counter + 1) ==
             db.commits + ([CommitFor(h[0], db.counter)] + CommitRows(h[1..], db.counter + 1));
    }
  }

  lemma CommitRowsCons(h: seq<WriteRequest>, counter: nat)
    ensures h == [] ==> CommitRows(h, counter) == []
    ensures h != [] ==> CommitRows(h, counter) == [CommitFor(h[0], counter)] + CommitRows(h[1..], counter + 1)
  {
  }

  /** State and legality at position `i` of a history. */
  lemma SplitAt(en: Engine, db: Db, h: seq<WriteRequest>, i: nat)
    requires LegalAll(en, db, h) && i < |h|
    ensures LegalAll(en, db, h[..i])
    ensures var mid := EffectAll(en, db, h[..i]);
            && Legal(en, mid, h[i])
            && LegalAll(en, Effect(en, mid, h[i]), h[i + 1..])
            && EffectAll(en, db, h) == EffectAll(en, Effect(en, mid, h[i]), h[i + 1..])
  {
    PrefixLegal(en, db, h, i);
    assert h == h[..i] + h[i..];
    EffectConcat(en, db, h[..i], h[i..]);
    assert h[i..][0] == h[i] && h[i..][1..] == h[i + 1..];
  }

  lemma {:induction false} PrefixLegal(en: Engine, db: Db, h: seq<WriteRequest>, i: nat)
    requires LegalAll(en, db, h) && i <= |h|
    ensures LegalAll(en, db, h[..i])
    decreases h
  {
    hide Legal, Effect;
    if i > 0 {
      PrefixLegal(en, Effect(en, db, h[0]), h[1..], i - 1);
      assert h[1..][..i - 1] == h[..i][1..];
    }
  }

  /** The row stored for the key of the `i`-th kept request, for the rest of time. */
  lemma KeyRow(en: Engine, db: Db, h: seq<WriteRequest>, i: nat)
    requires LegalAll(en, db, h) && i < |h| && Keyed(en, h[i])
    ensures var k, number := h[i].idempotencyKey.value, if en.track then Some(db.counter + i + 1) else None;
            var reply := WriteResponse(h[i].requestId, Committed, number, None);
            && k !in db.requests
            && k in EffectAll(en, db, h).requests
            && EffectAll(en, db, h).requests[k] == RequestRow(en.hash(h[i].operations), Some(reply), number)
  {
    hide EffectAll, LegalAll, Legal;
    var c := db.counter + if en.track then i else 0;
    StoredRow(en, db, h, i);
    assert SeqAfter(en, c) == if en.track then Some(db.counter + i + 1) else None;
  }

  lemma StoredRow(en: Engine, db: Db, h: seq<WriteRequest>, i: nat)
    requires LegalAll(en, db, h) && i < |h| && Keyed(en, h[i])
    ensures var k, c := h[i].idempotencyKey.value, db.counter + if en.track then i else 0;
            && k !in db.requests
            && k in EffectAll(en, db, h).requests
            && EffectAll(en, db, h).requests[k] == RowFor(en, h[i], c)
  {
    SplitAt(en, db, h, i);
    var mid := EffectAll(en, db, h[..i]);
    TablesOf(en, db, h[..i]);
    TablesOf(en, Effect(en, mid, h[i]), h[i + 1..]);
  }

  /** At most one request carrying a given key ever has durable effects. */
  lemma KeysOnce(en: Engine, db: Db, h: seq<WriteRequest>, i: nat, j: nat)
    requires LegalAll(en, db, h) && i < j < |h| && Keyed(en, h[i]) && Keyed(en, h[j])
    ensures h[i].idempotencyKey != h[j].idempotencyKey
  {
    SplitAt(en, db, h, j);
    KeyRow(en, db, h[..j], i);
  }

  /** Every dedup row that was not there at the start belongs to a kept request. */
  lemma {:induction false} RowsHaveRequests(en: Engine, db: Db, h: seq<WriteRequest>, k: string)
    requires LegalAll(en, db, h) && k in EffectAll(en, db, h).requests && k !in db.requests
    ensures exists i :: 0 <= i < |h| && Keyed(en, h[i]) && h[i].idempotencyKey.value == k
    decreases h
  {
    if k in Effect(en, db, h[0]).requests {
      assert Keyed(en, h[0]) && h[0].idempotencyKey.value == k;
    } else {
      RowsHaveRequests(en, Effect(en, db, h[0]), h[1..], k);
      var i :| 0 <= i < |h[1..]| && Keyed(en, h[1..][i]) && h[1..][i].idempotencyKey.value == k;
      assert h[1..][i] == h[i + 1];
    }
  }
}

/** The batched path against the plain one, for single batches and for whole runs of the loop. */
module Refinement {
  import opened Basics
  import opened Requests
  import opened Store
  import opened Serving
  import opened Scheduling

  /** The outer BEGIN and COMMIT of a batch led by this job would succeed. */
  predicate Carries(job: Job) {
    job.faults.outerOpen.None? && job.faults.outerClose.None?
  }

  // ---- Savepoints whose clean-up fails ----

  /** The request changed something inside its savepoint before it came to an end, well or badly. */
  predicate Landed(en: Engine, db: Db, request: WriteRequest, record: Option<(string, string)>, f: Faults) {
    match RunOps(en, db.user, request.operations, f, 0)
    case Broke(_, leftover) => leftover != db.user
    case Done(after) =>
      || after != db.user
      || (en.track && f.commitRow.None? && db.counter < MAX_ROWID)
      || (!en.track && record.Some? && f.dedupRow.None? && record.value.0 !in db.requests)
  }

  /** A failing savepoint restores the state before it exactly when ROLLBACK TO works or the request
      had changed nothing. */
  lemma FailedSavepoint(en: Engine, db: Db, request: WriteRequest, record: Option<(string, string)>, f: Faults)
    requires f.open.None? && !Nest(en, db, request, record, f).kept
    ensures Nest(en, db, request, record, f).response.status == Failed
    ensures Nest(en, db, request, record, f).db == db <==>
            !f.undo.RollbackFails? || !Landed(en, db, request, record, f)
  {
    hide RunOps;
    match RunOps(en, db.user, request.operations, f, 0)
    case Broke(_, leftover) => assert db.(user := leftover).user == leftover;
    case Done(after) =>
      var ran := db.(user := after);
      assert AddCommit(ran, request).counter != db.counter;
      if record.Some? && record.value.0 !in db.requests {
        assert forall row :: record.value.0 in InsertOrIgnore(ran, record.value.0, row).requests;
      }
  }

  /** The job fails inside its savepoint, has changed something by then, and ROLLBACK TO fails too. */
  predicate Leaks(en: Engine, db: Db, job: Job) {
    && job.faults.undo.RollbackFails? && job.faults.open.None?
    && !Serve(en, db, job.request, job.faults).kept
    && match Admit(en, db, job.request, job.faults)
       case Reply(_) => false
       case Proceed(record) => Landed(en, db, job.request, record, job.faults)
  }

  predicate NoLeaks(en: Engine, db: Db, jobs: seq<Job>)
    decreases jobs
  {
    jobs == [] ||
    (!Leaks(en, db, jobs[0]) && NoLeaks(en, Serve(en, db, jobs[0].request, jobs[0].faults).db, jobs[1..]))
  }

  /** One job in a savepoint against one job in a transaction: the replies never differ, the databases
      exactly when the job leaks. */
  lemma LeakIff(en: Engine, db: Db, job: Job)
    ensures var nested, alone :=
              ServeNested(en, db, job.request, job.faults), Serve(en, db, job.request, job.faults);
            && nested.response == alone.response && nested.kept == alone.kept
            && (nested.db == alone.db <==> !Leaks(en, db, job))
  {
    hide Landed, Work;
    match Admit(en, db, job.request, job.faults)
    case Reply(_) =>
    case Proceed(record) =>
      if job.faults.open.None? && !Serve(en, db, job.request, job.faults).kept {
        FailedSavepoint(en, db, job.request, record, job.faults);
      }
  }

  lemma {:induction false} NestingIsServing(en: Engine, db: Db, jobs: seq<Job>)
    requires NoLeaks(en, db, jobs)
    ensures NestAll(en, db, jobs) == ServeAll(en, db, jobs)
    decreases jobs
  {
    hide Serve, ServeNested, Leaks;
    if jobs != [] {
      LeakIff(en, db, jobs[0]);
      NestingIsServing(en, Serve(en, db, jobs[0].request, jobs[0].faults).db, jobs[1..]);
    }
  }

  /** Both ways of serving leave the same database behind the first `n` jobs. */
  predicate Agree(en: Engine, db: Db, jobs: seq<Job>, n: nat)
    requires n <= |jobs|
  {
    NestAll(en, db, jobs[..n]).db == ServeAll(en, db, jobs[..n]).db
  }

  /** The two ways of serving agree on the database after every prefix of the jobs exactly when no job leaks. */
  lemma {:induction false} AgreeIff(en: Engine, db: Db, jobs: seq<Job>)
    ensures NoLeaks(en, db, jobs) <==> forall n :: 0 <= n <= |jobs| ==> Agree(en, db, jobs, n)
    decreases jobs
  {
    hide Serve, ServeNested, Leaks, Agree;
    if jobs == [] {
      AgreeNone(en, db, jobs);
    } else {
      var next := Serve(en, db, jobs[0].request, jobs[0].faults).db;
      LeakIff(en, db, jobs[0]);
      AgreeNone(en, db, jobs);
      if Leaks(en, db, jobs[0]) {
        AgreeOne(en, db, jobs);
      } else {
        AgreeIff(en, next, jobs[1..]);
        forall n | 0 < n <= |jobs| ensures Agree(en, db, jobs, n) <==> Agree(en, next, jobs[1..], n - 1) {
          AgreeNext(en, db, jobs, n);
        }
        forall n | 0 <= n <= |jobs[1..]| ensures Agree(en, next, jobs[1..], n) <==> Agree(en, db, jobs, n + 1) {
        }
      }
    }
  }

  lemma AgreeNone(en: Engine, db: Db, jobs: seq<Job>)
    ensures Agree(en, db, jobs, 0)
  {
  }

  lemma AgreeOne(en: Engine, db: Db, jobs: seq<Job>)
    requires jobs != []
    ensures Agree(en, db, jobs, 1) <==>
            ServeNested(en, db, jobs[0].request, jobs[0].faults).db == Serve(en, db, jobs[0].request, jobs[0].faults).db
  {
    hide Serve, ServeNested;
    var nested := ServeNested(en, db, jobs[0].request, jobs[0].faults).db;
    var alone := Serve(en, db, jobs[0].request, jobs[0].faults).db;
    assert jobs[..1][0] == jobs[0] && jobs[..1][1..] == [];
    assert NestAll(en, nested, []) == Round(nested, []) && ServeAll(en, alone, []) == Round(alone, []);
    assert NestAll(en, db, jobs[..1]).db == nested && ServeAll(en, db, jobs[..1]).db == alone;
  }

  lemma AgreeNext(en: Engine, db: Db, jobs: seq<Job>, n: nat)
    requires 0 < n <= |jobs|
    requires var f := jobs[0].faults;
             ServeNested(en, db, jobs[0].request, f).db == Serve(en, db, jobs[0].request, f).db
    ensures Agree(en, db, jobs, n) <==>
            Agree(en, Serve(en, db, jobs[0].request, jobs[0].faults).db, jobs[1..], n - 1)
  {
    hide Serve, ServeNested;
    assert jobs[..n][1..] == jobs[1..][..n - 1];
  }

  /** One outer transaction with savepoints has the same replies and the same final database as one
      transaction per request, whatever fails inside each request: SAVEPOINT stands for BEGIN and
      RELEASE for COMMIT. Requests of the batch may share idempotency keys. */
  lemma BatchRefinesSequential(en: Engine, db: Db, jobs: seq<Job>)
    requires jobs != [] && Carries(jobs[0]) && NoLeaks(en, db, jobs)
    ensures ServeGroup(en, db, jobs) == ServeAll(en, db, jobs)
  {
    NestingIsServing(en, db, jobs);
  }

  /** A working ROLLBACK TO is more than enough. */
  lemma {:induction false} CleansNeverLeak(en: Engine, db: Db, jobs: seq<Job>)
    requires forall job :: job in jobs ==> !job.faults.undo.RollbackFails?
    ensures NoLeaks(en, db, jobs)
    decreases jobs
  {
    hide Serve;
    if jobs != [] {
      assert jobs[0] in jobs && forall job :: job in jobs[1..] ==> job in jobs;
      CleansNeverLeak(en, Serve(en, db, jobs[0].request, jobs[0].faults).db, jobs[1..]);
    }
  }

  /** A failed outer BEGIN or COMMIT: the database is unchanged and no reply says Committed. After a failed
      BEGIN every reply carries its error; after a failed COMMIT a reply that had already failed keeps its
      own error and a Committed one, replay or not, carries that of the COMMIT. No condition on the jobs. */
  lemma OuterFailure(en: Engine, db: Db, jobs: seq<Job>)
    requires jobs != [] && !Carries(jobs[0])
    ensures var r := ServeGroup(en, db, jobs);
            && r.db == db
            && (forall i :: 0 <= i < |jobs| ==> r.answers[i].response.status == Failed && !r.answers[i].kept)
            && forall i :: 0 <= i < |jobs| ==>
                 var own := NestAll(en, db, jobs).answers[i].response;
                 r.answers[i].response ==
                 if jobs[0].faults.outerOpen.Some?
                 then FailedReply(jobs[i].request.requestId, jobs[0].faults.outerOpen.value)
                 else if own.status == Failed then own
                 else FailedReply(own.requestId, jobs[0].faults.outerClose.value)
  {
  }

  lemma {:induction false} SameRuns(en: Engine, user: UserTables, ops: seq<Operation>, f: Faults, g: Faults, i: nat)
    requires f.ops == g.ops && i <= |ops|
    ensures RunOps(en, user, ops, f, i) == RunOps(en, user, ops, g, i)
    decreases |ops| - i
  {
    if i < |ops| && i !in f.ops && en.exec(user, ops[i]).Done? {
      SameRuns(en, en.exec(user, ops[i]).after, ops, f, g, i + 1);
    }
  }

  /** The discarded result of `ROLLBACK TO` matters, whatever the engine, the database and the request.
      Take a new key and statements that work twice. The dedup insert of the first attempt fails and its
      rollback fails too: it is answered Failed, yet its commit row becomes durable, and since it left no
      dedup row the retry with the same key takes effect a second time. */
  lemma LostRollback(en: Engine, db: Db, request: WriteRequest, f: Faults, g: Faults)
    requires en.track && en.idempotent && db.counter + 2 <= MAX_ROWID
    requires request.idempotencyKey.Some? && request.idempotencyKey.value !in db.requests
    requires FirstRejection(en, request.operations).None?
    requires var once := RunOps(en, db.user, request.operations, f, 0);
             once.Done? && RunOps(en, once.after, request.operations, f, 0).Done?
    requires f.lookup.None? && f.open.None? && f.commitRow.None? && f.outerOpen.None? && f.outerClose.None?
    requires f.dedupRow.Some? && f.undo.RollbackFails?
    requires g == f.(dedupRow := None, close := None)
    ensures var jobs := [Job(0, request, f), Job(1, request, g)];
            var r := ServeGroup(en, db, jobs);
            && Leaks(en, db, jobs[0])
            && r.answers[0].response == FailedReply(request.requestId, f.dedupRow.value)
            && r.answers[1].response == CommittedReply(request.requestId, Some(db.counter + 2))
            && r.db.commits == AddCommit(AddCommit(db, request), request).commits
  {
    hide RunOps, FirstRejection;
    var jobs := [Job(0, request, f), Job(1, request, g)];
    var once := RunOps(en, db.user, request.operations, f, 0).after;
    SameRuns(en, once, request.operations, f, g, 0);
    var left := AddCommit(db.(user := once), request);
    assert ServeNested(en, db, request, f) == Served(left, FailedReply(request.requestId, f.dedupRow.value), false);
    var s := ServeNested(en, left, request, g);
    assert s.kept && s.response == CommittedReply(request.requestId, Some(db.counter + 2));
    assert s.db.commits == AddCommit(AddCommit(db, request), request).commits;
    NestPair(en, db, jobs);
  }

  lemma NestPair(en: Engine, db: Db, jobs: seq<Job>)
    requires |jobs| == 2
    ensures var s := ServeNested(en, db, jobs[0].request, jobs[0].faults);
            var t := ServeNested(en, s.db, jobs[1].request, jobs[1].faults);
            NestAll(en, db, jobs) ==
            Round(t.db, [Answer(jobs[0].ticket, s.response, s.kept), Answer(jobs[1].ticket, t.response, t.kept)])
  {
    hide ServeNested;
    var s := ServeNested(en, db, jobs[0].request, jobs[0].faults);
    var t := ServeNested(en, s.db, jobs[1].request, jobs[1].faults);
    assert jobs[1..] == [jobs[1]] && jobs[1..][1..] == [];
    assert NestAll(en, t.db, []) == Round(t.db, []);
    assert NestAll(en, s.db, jobs[1..]) == Round(t.db, [Answer(jobs[1].ticket, t.response, t.kept)]);
  }

  /** Every batch among these steps opens and commits, and no job in it leaks. */
  predicate Calm(en: Engine, db: Db, steps: seq<Step>)
    decreases steps
  {
    steps == [] || (CalmStep(en, db, steps[0]) && Calm(en, Perform(en, db, steps[0]).db, steps[1..]))
  }

  predicate CalmStep(en: Engine, db: Db, step: Step) {
    step.Group? && step.jobs != [] ==> Carries(step.jobs[0]) && NoLeaks(en, db, step.jobs)
  }

  lemma CalmCons(en: Engine, db: Db, step: Step, rest: seq<Step>)
    ensures Calm(en, db, [step] + rest) <==> CalmStep(en, db, step) && Calm(en, Perform(en, db, step).db, rest)
  {
    hide CalmStep, Perform;
    assert ([step] + rest)[1..] == rest;
  }

  /** A queue whose writes could all lead a batch and could all be rolled back is calm under every
      arrival schedule and batch size. */
  lemma {:induction false} QuietQueueIsCalm(en: Engine, db: Db, inbox: seq<Arrival>, maxSize: Option<nat>)
    requires forall a :: a in inbox && a.cmd.Write? ==> Carries(a.cmd.job) && !a.cmd.job.faults.undo.RollbackFails?
    ensures Calm(en, db, Plan(inbox, maxSize))
    decreases |inbox|
  {
    hide Perform, Calm, Carries, NoLeaks, Drained;
    if inbox == [] || inbox[0].cmd.Shutdown? {
      CalmNothing(en, db);
    } else if maxSize.Some? && Batchable(inbox[0]) {
      var n, step := Drained(inbox, maxSize.value, 1), Bundle(inbox, maxSize.value);
      assert forall a :: a in inbox[n..] ==> a in inbox;
      if step.Group? {
        forall i | 0 <= i < n
          ensures Carries(step.jobs[i]) && !step.jobs[i].faults.undo.RollbackFails?
        {
          assert inbox[i] in inbox && step.jobs[i] == inbox[i].cmd.job;
        }
        CleansNeverLeak(en, db, step.jobs);
      }
      CalmCons(en, db, step, Plan(inbox[n..], maxSize));
      QuietQueueIsCalm(en, Perform(en, db, step).db, inbox[n..], maxSize);
    } else {
      var step := Direct(inbox[0].cmd);
      assert forall a :: a in inbox[1..] ==> a in inbox;
      CalmCons(en, db, step, Plan(inbox[1..], maxSize));
      QuietQueueIsCalm(en, Perform(en, db, step).db, inbox[1..], maxSize);
    }
  }

  lemma CalmNothing(en: Engine, db: Db)
    ensures Calm(en, db, [])
  {
  }

  lemma ReportCons(a: Answer, rest: seq<Answer>)
    ensures Report([a] + rest) == [Answered(a)] + Report(rest)
  {
  }

  /** The plain loop over a stretch of `n` batchable writes. */
  lemma {:induction false} PlainStretch(en: Engine, db: Db, inbox: seq<Arrival>, n: nat)
    requires n <= |inbox| && forall i {:trigger inbox[i]} :: 0 <= i < n ==> inbox[i].cmd.Write? && Batchable(inbox[i])
    ensures var r := ServeAll(en, db, Jobs(inbox, n));
            var whole, later := Execute(en, db, Plan(inbox, None)), Execute(en, r.db, Plan(inbox[n..], None));
            whole.db == later.db && whole.events == Report(r.answers) + later.events
    decreases n
  {
    hide Serve, Execute;
    if n == 0 {
      assert inbox[0..] == inbox;
    } else {
      var job := inbox[0].cmd.job;
      var s := Serve(en, db, job.request, job.faults);
      var answer := Answer(job.ticket, s.response, s.kept);
      assert inbox[1..][n - 1..] == inbox[n..];
      var rest := Jobs(inbox[1..], n - 1);
      assert Jobs(inbox, n) == [job] + rest && ([job] + rest)[1..] == rest;
      PlainStretch(en, s.db, inbox[1..], n - 1);
      ServeFirst(en, db, job, Plan(inbox[1..], None));
      ReportCons(answer, ServeAll(en, s.db, rest).answers);
    }
  }

  lemma ServeFirst(en: Engine, db: Db, job: Job, rest: seq<Step>)
    ensures var s := Serve(en, db, job.request, job.faults);
            var whole, later := Execute(en, db, [Single(job)] + rest), Execute(en, s.db, rest);
            && whole.db == later.db
            && whole.events == [Answered(Answer(job.ticket, s.response, s.kept))] + later.events
  {
    hide Serve;
    var s := Serve(en, db, job.request, job.faults);
    ExecuteCons(en, db, Single(job), rest);
    assert Report([Answer(job.ticket, s.response, s.kept)]) == [Answered(Answer(job.ticket, s.response, s.kept))];
  }

  lemma BundleIsServing(en: Engine, db: Db, inbox: seq<Arrival>, maxSize: nat)
    requires inbox != [] && Batchable(inbox[0]) && CalmStep(en, db, Bundle(inbox, maxSize))
    ensures var r := ServeAll(en, db, Jobs(inbox, Drained(inbox, maxSize, 1)));
            var e := Perform(en, db, Bundle(inbox, maxSize));
            e.db == r.db && e.events == Report(r.answers)
  {
    hide Drained, Carries, NoLeaks;
    var n := Drained(inbox, maxSize, 1);
    var jobs := Jobs(inbox, n);
    if n == 1 {
      assert jobs == [inbox[0].cmd.job];
    } else {
      BatchRefinesSequential(en, db, jobs);
    }
  }

  /** The batching loop, with its greedy drain and deferred command, sends the same replies in the same
      order, runs each checkpoint on the same database and ends in the same database as the loop that
      takes one command at a time: for every queue, arrival schedule and batch size. */
  lemma {:induction false} RunRefinesPlain(en: Engine, db: Db, inbox: seq<Arrival>, maxSize: Option<nat>)
    requires Calm(en, db, Plan(inbox, maxSize))
    ensures var batched, plain := Execute(en, db, Plan(inbox, maxSize)), Execute(en, db, Plan(inbox, None));
            batched.db == plain.db && batched.events == plain.events
    decreases |inbox|
  {
    hide Perform, Execute, Calm, CalmStep, Drained, Bundle;
    if inbox == [] || inbox[0].cmd.Shutdown? {
    } else if maxSize.Some? && Batchable(inbox[0]) {
      var n, step := Drained(inbox, maxSize.value, 1), Bundle(inbox, maxSize.value);
      CalmCons(en, db, step, Plan(inbox[n..], maxSize));
      BundleIsServing(en, db, inbox, maxSize.value);
      PlainStretch(en, db, inbox, n);
      ExecuteCons(en, db, step, Plan(inbox[n..], maxSize));
      RunRefinesPlain(en, Perform(en, db, step).db, inbox[n..], maxSize);
    } else {
      var step := Direct(inbox[0].cmd);
      CalmCons(en, db, step, Plan(inbox[1..], maxSize));
      ExecuteCons(en, db, step, Plan(inbox[1..], maxSize));
      ExecuteCons(en, db, step, Plan(inbox[1..], None));
      RunRefinesPlain(en, Perform(en, db, step).db, inbox[1..], maxSize);
    }
  }
}

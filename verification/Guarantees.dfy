/** What callers may rely on: exactly-once effects per key, replies that tell the truth about the
    durable database, commit numbers without gaps, and internal tables that stay linked. */
module Guarantees {
  import opened Basics
  import opened Requests
  import opened Store
  import opened Serving
  import opened Scheduling
  import opened Refinement
  import opened History
  import Encoding

  /** Serialised operation lists are equal only for equal lists. */
  ghost predicate InjectiveHash(en: Engine) {
    forall a, b :: en.hash(a) == en.hash(b) ==> a == b
  }

  /** Every engine has a variant that differs in its serialiser only and has this property. */
  lemma InjectiveHashExists(en: Engine) returns (variant: Engine)
    ensures variant == en.(hash := variant.hash) && InjectiveHash(variant)
  {
    variant := en.(hash := (ops: seq<Operation>) => Encoding.OpsCode(ops));
    forall a, b | variant.hash(a) == variant.hash(b) ensures a == b {
      Encoding.OpsSeparate(a, b);
    }
  }

  /** Commit rows are numbered 1, 2, ... up to the counter, and every dedup row stores the reply of the
      one request that created it, with the number of that request's own commit row. */
  ghost predicate Linked(db: Db) {
    && db.counter == |db.commits|
    && (forall i :: 0 <= i < |db.commits| ==> db.commits[i].seqNo == i + 1)
    && (forall k :: k in db.requests ==> RowLinked(db, db.requests[k]))
    && (forall k, l :: k in db.requests && l in db.requests && k != l && db.requests[k].commitSeq.Some? ==>
          db.requests[k].commitSeq != db.requests[l].commitSeq)
  }

  ghost predicate RowLinked(db: Db, row: RequestRow) {
    && row.response.Some?
    && row.response.value == CommittedReply(row.response.value.requestId, row.commitSeq)
    && (row.commitSeq.Some? ==>
          && 1 <= row.commitSeq.value <= |db.commits|
          && db.commits[row.commitSeq.value - 1].requestId == row.response.value.requestId)
  }

  lemma EffectStaysLinked(en: Engine, db: Db, request: WriteRequest)
    requires Legal(en, db, request) && Linked(db)
    ensures Linked(Effect(en, db, request))
  {
    hide FirstRejection, RunAll;
    var e := Effect(en, db, request);
    forall k | k in e.requests ensures RowLinked(e, e.requests[k]) {
      assert k in db.requests ==> RowLinked(db, db.requests[k]);
    }
  }

  lemma {:induction false} HistoryStaysLinked(en: Engine, db: Db, h: seq<WriteRequest>)
    requires LegalAll(en, db, h) && Linked(db)
    ensures Linked(EffectAll(en, db, h))
    decreases h
  {
    hide Legal, Effect, Linked;
    if h != [] {
      EffectStaysLinked(en, db, h[0]);
      HistoryStaysLinked(en, Effect(en, db, h[0]), h[1..]);
    }
  }

  /** The internal tables are linked in every durable state a run with failures and crashes can leave.
      The configuration is arbitrary, so it may differ from one run to the next. */
  lemma LinkedForever(en: Engine, db: Db, run: seq<Incident>)
    requires CleanRun(en, db, run) && Linked(db)
    ensures Linked(DurableAfter(en, db, run))
  {
    DurableIsSerial(en, db, run);
    HistoryStaysLinked(en, db, HistoryOf(en, db, run));
  }

  /** Over any run, no two requests with the same key ever both take effect, and none takes effect
      whose key was already recorded. */
  lemma ExactlyOnce(en: Engine, db: Db, run: seq<Incident>, i: nat, j: nat)
    requires CleanRun(en, db, run)
    requires var h := HistoryOf(en, db, run); i < |h| && j < |h| && Keyed(en, h[i]) && Keyed(en, h[j])
    ensures var h := HistoryOf(en, db, run);
            && (h[i].idempotencyKey == h[j].idempotencyKey ==> i == j)
            && h[i].idempotencyKey.value !in db.requests
  {
    var h := HistoryOf(en, db, run);
    DurableIsSerial(en, db, run);
    KeyRow(en, db, h, i);
    if i < j {
      KeysOnce(en, db, h, i, j);
    } else if j < i {
      KeysOnce(en, db, h, j, i);
    }
  }

  /** However much happens in between, a later request with the key of a kept one changes nothing. If the
      serialised operations are the same, as they are for equal operations, it gets the first reply
      verbatim, first request id and commit number included; if not, as for any other operations under an
      injective serialiser, it fails with a conflict. This holds alone and inside a batch. */
  lemma ReplayVerbatim(en: Engine, db: Db, run: seq<Incident>, i: nat, later: WriteRequest, f: Faults)
    requires CleanRun(en, db, run)
    requires i < |HistoryOf(en, db, run)| && Keyed(en, HistoryOf(en, db, run)[i])
    requires later.idempotencyKey == HistoryOf(en, db, run)[i].idempotencyKey
    requires FirstRejection(en, later.operations).None? && f.lookup.None?
    ensures var first, now := HistoryOf(en, db, run)[i], DurableAfter(en, db, run);
            var replay := CommittedReply(first.requestId, SeqAfter(en, db.counter + if en.track then i else 0));
            var conflict := FailedReply(later.requestId, Conflict(later.idempotencyKey.value));
            var reply := if en.hash(later.operations) == en.hash(first.operations) then replay else conflict;
            && Serve(en, now, later, f) == Served(now, reply, false)
            && ServeNested(en, now, later, f) == Served(now, reply, false)
            && (later.operations == first.operations ==> reply == replay)
            && (InjectiveHash(en) && later.operations != first.operations ==> reply == conflict)
  {
    DurableIsSerial(en, db, run);
    KeyRow(en, db, HistoryOf(en, db, run), i);
  }

  /** The dedup rows that exist are exactly those of kept requests: a key without a row has had no
      durable effects, and a request carrying it is admitted as if it were new. */
  lemma KeysAreHistory(en: Engine, db: Db, run: seq<Incident>, k: string)
    requires CleanRun(en, db, run) && en.idempotent && k !in db.requests
    ensures var h := HistoryOf(en, db, run);
            k in DurableAfter(en, db, run).requests <==>
            exists i :: 0 <= i < |h| && Keyed(en, h[i]) && h[i].idempotencyKey.value == k
  {
    var h := HistoryOf(en, db, run);
    DurableIsSerial(en, db, run);
    if k in DurableAfter(en, db, run).requests {
      RowsHaveRequests(en, db, h, k);
    }
    forall i | 0 <= i < |h| && Keyed(en, h[i]) && h[i].idempotencyKey.value == k
      ensures k in DurableAfter(en, db, run).requests
    {
      KeyRow(en, db, h, i);
    }
  }

  /** Nothing outside the request's own statements goes wrong while it is served. */
  predicate Undisturbed(en: Engine, request: WriteRequest, f: Faults) {
    && (Keyed(en, request) ==> f.lookup.None? && f.dedupRow.None?)
    && f.open.None? && f.close.None?
    && (en.track ==> f.commitRow.None?)
    && forall i :: 0 <= i < |request.operations| ==> i !in f.ops
  }

  /** A request takes effect, and is answered Committed for it, exactly when it is legal and undisturbed:
      a retry whose key left no row runs as if it were new, and every disturbance leaves no trace. */
  lemma CommitsIff(en: Engine, db: Db, request: WriteRequest, f: Faults)
    ensures Serve(en, db, request, f).kept <==> Legal(en, db, request) && Undisturbed(en, request, f)
    ensures !Serve(en, db, request, f).kept ==> Serve(en, db, request, f).db == db
  {
    hide FirstRejection;
    OpsRunIff(en, db.user, request.operations, f, 0);
    assert request.operations[0..] == request.operations;
  }

  lemma {:induction false} OpsRunIff(en: Engine, user: UserTables, ops: seq<Operation>, f: Faults, i: nat)
    requires i <= |ops|
    ensures RunOps(en, user, ops, f, i).Done? <==>
            RunAll(en, user, ops[i..]).Done? && forall k :: i <= k < |ops| ==> k !in f.ops
    decreases |ops| - i
  {
    if i < |ops| {
      assert ops[i..][0] == ops[i] && ops[i..][1..] == ops[i + 1..];
      var out := en.exec(user, ops[i]);
      if out.Done? {
        OpsRunIff(en, out.after, ops, f, i + 1);
      }
    }
  }

  // ---- Replies ----

  /** What a Committed reply promises about the durable database at the moment it is sent. */
  ghost predicate Backed(en: Engine, db: Db, request: WriteRequest, a: Answer) {
    if a.kept then
      && a.response.requestId == request.requestId
      && (en.track ==>
            && a.response.commitSeq.Some? && 1 <= a.response.commitSeq.value <= |db.commits|
            && db.commits[a.response.commitSeq.value - 1] == CommitFor(request, a.response.commitSeq.value - 1))
      && (Keyed(en, request) ==>
            && request.idempotencyKey.value in db.requests
            && db.requests[request.idempotencyKey.value].response == Some(a.response))
    else
      && Keyed(en, request) && request.idempotencyKey.value in db.requests
      && db.requests[request.idempotencyKey.value].hash == en.hash(request.operations)
      && db.requests[request.idempotencyKey.value].response == Some(a.response)
  }

  lemma FirstReply(en: Engine, db: Db, job: Job)
    requires Linked(db)
    ensures var s := Serve(en, db, job.request, job.faults);
            && Linked(s.db)
            && (s.kept ==> s.response.status == Committed)
            && (s.response.status == Committed ==>
                  Backed(en, s.db, job.request, Answer(job.ticket, s.response, s.kept)))
  {
    hide FirstRejection, RunAll, RunOps;
    ServeAtomic(en, db, job.request, job.faults);
    var s := Serve(en, db, job.request, job.faults);
    if s.kept {
      EffectStaysLinked(en, db, job.request);
    } else {
      assert forall k :: k in db.requests ==> RowLinked(db, db.requests[k]);
    }
  }

  lemma BackedForever(en: Engine, db: Db, request: WriteRequest, a: Answer, h: seq<WriteRequest>)
    requires Backed(en, db, request, a) && LegalAll(en, db, h)
    ensures Backed(en, EffectAll(en, db, h), request, a)
  {
    TablesOf(en, db, h);
  }

  lemma {:induction false} RoundTellsTheTruth(en: Engine, db: Db, jobs: seq<Job>, i: nat)
    requires Linked(db) && i < |jobs|
    ensures var r := ServeAll(en, db, jobs);
            && (r.answers[i].kept ==> r.answers[i].response.status == Committed)
            && (r.answers[i].response.status == Committed ==> Backed(en, r.db, jobs[i].request, r.answers[i]))
    decreases jobs
  {
    hide Serve, Backed, Linked;
    var s := Serve(en, db, jobs[0].request, jobs[0].faults);
    var rest := ServeAll(en, s.db, jobs[1..]);
    FirstReply(en, db, jobs[0]);
    if i > 0 {
      RoundTellsTheTruth(en, s.db, jobs[1..], i - 1);
    } else if s.response.status == Committed {
      ServeAllIsSerial(en, s.db, jobs[1..]);
      var answer := Answer(jobs[0].ticket, s.response, s.kept);
      BackedForever(en, s.db, jobs[0].request, answer, Kept(jobs[1..], rest.answers));
    }
  }

  lemma {:induction false} KeptAreListed(jobs: seq<Job>, answers: seq<Answer>, i: nat)
    requires |jobs| == |answers| && i < |jobs| && answers[i].kept
    ensures jobs[i].request in Kept(jobs, answers)
    decreases jobs
  {
    if i > 0 {
      KeptAreListed(jobs[1..], answers[1..], i - 1);
    }
  }

  lemma {:induction false} KeptWithout(jobs: seq<Job>, answers: seq<Answer>, i: nat)
    requires |jobs| == |answers| && i < |jobs| && !answers[i].kept
    ensures Kept(jobs, answers) == Kept(jobs[..i], answers[..i]) + Kept(jobs[i + 1..], answers[i + 1..])
    decreases jobs
  {
    if i == 0 {
      assert [] + Kept(jobs[1..], answers[1..]) == Kept(jobs[1..], answers[1..]);
    } else {
      KeptWithout(jobs[1..], answers[1..], i - 1);
      assert jobs[..i][1..] == jobs[1..][..i - 1] && answers[..i][1..] == answers[1..][..i - 1];
      assert jobs[1..][i..] == jobs[i + 1..] && answers[1..][i..] == answers[i + 1..];
      var first := if answers[0].kept then [jobs[0].request] else [];
      var left, right := Kept(jobs[1..][..i - 1], answers[1..][..i - 1]), Kept(jobs[i + 1..], answers[i + 1..]);
      assert first + (left + right) == first + left + right;
    }
  }

  /** The replies of a step are true of the database behind it, which is the serial execution of the requests
      counted as kept. A Committed reply means that the request's own effects are in it,
      or, for a replay, that the stored reply is. A request answered Failed is not among the kept ones:
      the database is the serial execution of what the jobs before it and behind it did. */
  lemma RepliesTellTheTruth(en: Engine, db: Db, step: Step, i: nat)
    requires CleanStep(en, db, step) && Linked(db) && i < |StepJobs(step)|
    ensures var r, jobs, h := StepRound(en, db, step), StepJobs(step), StepHistory(en, db, step);
            && LegalAll(en, db, h) && r.db == EffectAll(en, db, h)
            && (r.answers[i].kept ==> r.answers[i].response.status == Committed && jobs[i].request in h)
            && (r.answers[i].response.status == Committed ==> Backed(en, r.db, jobs[i].request, r.answers[i]))
            && (r.answers[i].response.status == Failed ==>
                  h == Kept(jobs[..i], r.answers[..i]) + Kept(jobs[i + 1..], r.answers[i + 1..]))
  {
    hide Serve, Backed, Linked, NoLeaks, LegalAll, EffectAll;
    var jobs, r := StepJobs(step), StepRound(en, db, step);
    StepIsSerial(en, db, step);
    if step.Single? {
      RoundTellsTheTruth(en, db, [step.job], 0);
      var s := Serve(en, db, step.job.request, step.job.faults);
      assert [step.job][1..] == [] && ServeAll(en, s.db, []) == Round(s.db, []);
      assert ServeAll(en, db, [step.job]) == r;
    } else if Carries(jobs[0]) {
      BatchRefinesSequential(en, db, jobs);
      RoundTellsTheTruth(en, db, jobs, i);
    } else {
      OuterFailure(en, db, jobs);
    }
    if r.answers[i].kept {
      KeptAreListed(jobs, r.answers, i);
    } else {
      KeptWithout(jobs, r.answers, i);
    }
  }

  /** Behind every replay stands the request whose reply it repeats: a request with the same key and the
      same serialised operations took effect earlier, in the run or in the same step, its effects are in
      the durable database like those of every kept request, and its reply is the one sent. */
  lemma ReplayHasOrigin(en: Engine, db: Db, run: seq<Incident>, step: Step, i: nat)
    requires CleanRun(en, db, run) && CleanStep(en, DurableAfter(en, db, run), step) && Linked(db)
    requires i < |StepJobs(step)|
    requires var a := StepRound(en, DurableAfter(en, db, run), step).answers[i];
             a.response.status == Committed && !a.kept
    requires var key := StepJobs(step)[i].request.idempotencyKey; key.Some? ==> key.value !in db.requests
    ensures var now := DurableAfter(en, db, run);
            var h := HistoryOf(en, db, run) + StepHistory(en, now, step);
            var r, request := StepRound(en, now, step), StepJobs(step)[i].request;
            && LegalAll(en, db, h) && r.db == EffectAll(en, db, h)
            && exists j :: 0 <= j < |h| && Keyed(en, h[j])
                 && h[j].idempotencyKey == request.idempotencyKey
                 && en.hash(h[j].operations) == en.hash(request.operations)
                 && r.answers[i].response ==
                    CommittedReply(h[j].requestId, SeqAfter(en, db.counter + if en.track then j else 0))
  {
    hide StepRound, StepHistory, Linked, CleanStep, CleanRun, LegalAll, EffectAll, HistoryOf, DurableAfter;
    var now := DurableAfter(en, db, run);
    var earlier, latest := HistoryOf(en, db, run), StepHistory(en, now, step);
    var h := earlier + latest;
    DurableIsSerial(en, db, run);
    HistoryStaysLinked(en, db, earlier);
    RepliesTellTheTruth(en, now, step, i);
    EffectConcat(en, db, earlier, latest);
    var k := StepJobs(step)[i].request.idempotencyKey.value;
    RowsHaveRequests(en, db, h, k);
    var j :| 0 <= j < |h| && Keyed(en, h[j]) && h[j].idempotencyKey.value == k;
    KeyRow(en, db, h, j);
  }

  // ---- Commit numbers ----

  /** The replies to requests that took effect, in the order they were sent. */
  function KeptReplies(answers: seq<Answer>): seq<WriteResponse> {
    if answers == [] then []
    else (if answers[0].kept then [answers[0].response] else []) + KeptReplies(answers[1..])
  }

  function Numbered(en: Engine, h: seq<WriteRequest>, counter: nat): seq<WriteResponse> {
    seq(|h|, i requires 0 <= i < |h| => CommittedReply(h[i].requestId, SeqAfter(en, counter + i)))
  }

  lemma {:induction false} RoundNumbers(en: Engine, db: Db, jobs: seq<Job>)
    requires en.track
    ensures var r := ServeAll(en, db, jobs);
            KeptReplies(r.answers) == Numbered(en, Kept(jobs, r.answers), db.counter)
    decreases jobs
  {
    hide Serve, Legal;
    if jobs != [] {
      var s := Serve(en, db, jobs[0].request, jobs[0].faults);
      var rest := ServeAll(en, s.db, jobs[1..]);
      ServeAtomic(en, db, jobs[0].request, jobs[0].faults);
      RoundNumbers(en, s.db, jobs[1..]);
      assert ServeAll(en, db, jobs).answers[1..] == rest.answers;
      if s.kept {
        NumberedCons(en, jobs[0].request, Kept(jobs[1..], rest.answers), db.counter);
      }
    }
  }

  lemma NumberedCons(en: Engine, request: WriteRequest, h: seq<WriteRequest>, counter: nat)
    ensures Numbered(en, [request] + h, counter) ==
            [CommittedReply(request.requestId, SeqAfter(en, counter))] + Numbered(en, h, counter + 1)
  {
  }

  lemma {:induction false} NoKeptReplies(answers: seq<Answer>)
    requires forall i :: 0 <= i < |answers| ==> !answers[i].kept
    ensures KeptReplies(answers) == []
  {
    if answers != [] {
      NoKeptReplies(answers[1..]);
    }
  }

  lemma StepNumbers(en: Engine, db: Db, step: Step)
    requires en.track && CleanStep(en, db, step)
    ensures KeptReplies(StepRound(en, db, step).answers) == Numbered(en, StepHistory(en, db, step), db.counter)
  {
    hide Serve, NoLeaks;
    var jobs, r := StepJobs(step), StepRound(en, db, step);
    match step
    case Check(_, _) =>
    case Single(job) =>
      RoundNumbers(en, db, [job]);
      var s := Serve(en, db, job.request, job.faults);
      assert [job][1..] == [] && ServeAll(en, s.db, []) == Round(s.db, []);
      assert ServeAll(en, db, [job]) == r;
    case Group(_) =>
      if jobs == [] {
      } else if Carries(jobs[0]) {
        BatchRefinesSequential(en, db, jobs);
        RoundNumbers(en, db, jobs);
      } else {
        OuterFailure(en, db, jobs);
        NoneKept(jobs, r.answers);
        NoKeptReplies(r.answers);
      }
  }

  /** The replies to requests that took effect, in the order a run sends them. */
  function Acknowledged(events: seq<Event>): seq<WriteResponse> {
    if events == [] then []
    else (if events[0].Answered? && events[0].answer.kept then [events[0].answer.response] else [])
         + Acknowledged(events[1..])
  }

  lemma {:induction false} ReportAcknowledges(answers: seq<Answer>)
    ensures Acknowledged(Report(answers)) == KeptReplies(answers)
  {
    if answers != [] {
      assert Report(answers)[1..] == Report(answers[1..]);
      ReportAcknowledges(answers[1..]);
    }
  }

  lemma StepAcknowledges(en: Engine, db: Db, step: Step)
    ensures Acknowledged(Perform(en, db, step).events) == KeptReplies(StepRound(en, db, step).answers)
  {
    hide StepRound;
    ReportAcknowledges(StepRound(en, db, step).answers);
    if step.Check? {
      NoCheckAnswers(en, db, step);
      assert Perform(en, db, step).events[1..] == [];
    }
  }

  lemma NoCheckAnswers(en: Engine, db: Db, step: Step)
    requires step.Check?
    ensures StepRound(en, db, step) == Round(db, [])
  {
  }

  lemma {:induction false} AcknowledgedConcat(a: seq<Event>, b: seq<Event>)
    ensures Acknowledged(a + b) == Acknowledged(a) + Acknowledged(b)
  {
    if a == [] {
      assert a + b == b;
    } else {
      assert (a + b)[1..] == a[1..] + b;
      AcknowledgedConcat(a[1..], b);
    }
  }

  function Completions(steps: seq<Step>): seq<Incident> {
    if steps == [] then [] else [Completed(steps[0])] + Completions(steps[1..])
  }

  lemma NumberedConcat(en: Engine, a: seq<WriteRequest>, b: seq<WriteRequest>, counter: nat)
    ensures Numbered(en, a + b, counter) == Numbered(en, a, counter) + Numbered(en, b, counter + |a|)
  {
  }

  lemma CompletionsCons(en: Engine, db: Db, steps: seq<Step>)
    requires steps != []
    ensures var now, rest := StepRound(en, db, steps[0]).db, Completions(steps[1..]);
            && HistoryOf(en, db, Completions(steps)) == StepHistory(en, db, steps[0]) + HistoryOf(en, now, rest)
            && DurableAfter(en, db, Completions(steps)) == DurableAfter(en, now, rest)
            && (CleanRun(en, db, Completions(steps)) <==> CleanStep(en, db, steps[0]) && CleanRun(en, now, rest))
  {
    hide StepRound, StepHistory, CleanStep;
    assert ([Completed(steps[0])] + Completions(steps[1..]))[1..] == Completions(steps[1..]);
  }

  /** Over any run of the loop the replies to requests that took effect carry the numbers
      counter + 1, counter + 2, ... in the order they are sent: failures, rolled-back savepoints and
      rolled-back batches never leave a gap. */
  lemma {:induction false} CommitSequence(en: Engine, db: Db, steps: seq<Step>)
    requires en.track && CleanRun(en, db, Completions(steps))
    ensures Acknowledged(Execute(en, db, steps).events) ==
            Numbered(en, HistoryOf(en, db, Completions(steps)), db.counter)
    decreases steps
  {
    hide StepRound, StepHistory, CleanStep, KeptReplies, Numbered, CleanRun, HistoryOf;
    if steps == [] {
      NoNumbers(en, db);
    } else {
      var r, h := StepRound(en, db, steps[0]), StepHistory(en, db, steps[0]);
      CompletionsCons(en, db, steps);
      StepIsSerial(en, db, steps[0]);
      TablesOf(en, db, h);
      StepNumbers(en, db, steps[0]);
      StepAcknowledges(en, db, steps[0]);
      CommitSequence(en, r.db, steps[1..]);
      AcknowledgedConcat(Perform(en, db, steps[0]).events, Execute(en, r.db, steps[1..]).events);
      NumberedConcat(en, h, HistoryOf(en, r.db, Completions(steps[1..])), db.counter);
    }
  }

  lemma NoNumbers(en: Engine, db: Db)
    ensures Acknowledged([]) == [] && Numbered(en, [], db.counter) == [] && HistoryOf(en, db, Completions([])) == []
  {
  }

  /** The run of the loop is a run in the sense of the guarantees above: its database is the serial
      execution of the requests it kept. */
  lemma {:induction false} LoopIsRun(en: Engine, db: Db, steps: seq<Step>)
    ensures Execute(en, db, steps).db == DurableAfter(en, db, Completions(steps))
    decreases steps
  {
    hide StepRound;
    if steps != [] {
      CompletionsCons(en, db, steps);
      LoopIsRun(en, StepRound(en, db, steps[0]).db, steps[1..]);
    }
  }

  /** If the process dies during step `i` of the loop, before or after that step's COMMIT took hold, what
      is left on disk is what the first `i`, or `i` + 1, steps leave: the legal serial execution of the
      requests they kept, provided no job of theirs leaks. */
  lemma CrashIsRun(en: Engine, db: Db, steps: seq<Step>, i: nat, committed: bool)
    requires i < |steps|
    ensures var n := if committed then i + 1 else i;
            var left := Execute(en, db, steps[..n]).db;
            var h := HistoryOf(en, db, Completions(steps[..n]));
            && DurableAfter(en, db, Completions(steps[..i]) + [Crashed(steps[i], committed)]) == left
            && (CleanRun(en, db, Completions(steps[..n])) ==> LegalAll(en, db, h) && left == EffectAll(en, db, h))
  {
    hide StepRound, HistoryOf, CleanRun, LegalAll, EffectAll, Execute;
    LastCrash(en, db, steps, i, committed);
    PrefixIsSerial(en, db, steps[..if committed then i + 1 else i]);
  }

  /** The database behind a list of steps is that of a run, and serial if no job leaks. */
  lemma PrefixIsSerial(en: Engine, db: Db, steps: seq<Step>)
    ensures var h := HistoryOf(en, db, Completions(steps));
            && Execute(en, db, steps).db == DurableAfter(en, db, Completions(steps))
            && (CleanRun(en, db, Completions(steps)) ==>
                  LegalAll(en, db, h) && Execute(en, db, steps).db == EffectAll(en, db, h))
  {
    LoopIsRun(en, db, steps);
    if CleanRun(en, db, Completions(steps)) {
      DurableIsSerial(en, db, Completions(steps));
    }
  }

  lemma LastCrash(en: Engine, db: Db, steps: seq<Step>, i: nat, committed: bool)
    requires i < |steps|
    ensures DurableAfter(en, db, Completions(steps[..i]) + [Crashed(steps[i], committed)]) ==
            DurableAfter(en, db, Completions(steps[..if committed then i + 1 else i]))
  {
    hide StepRound, Completions;
    var before := Completions(steps[..i]);
    DurableAppend(en, db, before, Crashed(steps[i], committed));
    DurableAppend(en, db, before, Completed(steps[i]));
    CompletionsAppend(steps, i);
  }

  lemma {:induction false} DurableAppend(en: Engine, db: Db, run: seq<Incident>, last: Incident)
    ensures var now := DurableAfter(en, db, run);
            DurableAfter(en, db, run + [last]) == if Lasting(last) then StepRound(en, now, last.step).db else now
    decreases run
  {
    hide StepRound;
    if run == [] {
      assert run + [last] == [last] && [last][1..] == [];
    } else {
      assert (run + [last])[1..] == run[1..] + [last];
      DurableAppend(en, if Lasting(run[0]) then StepRound(en, db, run[0].step).db else db, run[1..], last);
    }
  }

  lemma {:induction false} CompletionsAppend(steps: seq<Step>, i: nat)
    requires i < |steps|
    ensures Completions(steps[..i + 1]) == Completions(steps[..i]) + [Completed(steps[i])]
    decreases i
  {
    if i == 0 {
      assert steps[..1][1..] == [];
    } else {
      CompletionsAppend(steps[1..], i - 1);
      assert steps[..i + 1][1..] == steps[1..][..i] && steps[..i][1..] == steps[1..][..i - 1];
    }
  }

  /** A clean list of steps is clean up to any position, and from there on. */
  lemma {:induction false} CleanSplit(en: Engine, db: Db, steps: seq<Step>, n: nat)
    requires n <= |steps| && CleanRun(en, db, Completions(steps))
    ensures CleanRun(en, db, Completions(steps[..n]))
    ensures CleanRun(en, Execute(en, db, steps[..n]).db, Completions(steps[n..]))
    decreases n
  {
    hide StepRound, CleanStep;
    if n == 0 {
      assert steps[0..] == steps;
    } else {
      CompletionsCons(en, db, steps);
      CleanSplit(en, StepRound(en, db, steps[0]).db, steps[1..], n - 1);
      assert steps[..n][1..] == steps[1..][..n - 1] && steps[1..][n - 1..] == steps[n..];
      CompletionsCons(en, db, steps[..n]);
    }
  }
}

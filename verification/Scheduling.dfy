/** Which commands the writer loop serves together, and what serving them does.
    A plan depends on the queue alone; its execution depends on the database alone. */
module Scheduling {
  import opened Basics
  import opened Requests
  import opened Store
  import opened Serving

  datatype Command = Write(job: Job) | Checkpoint(ticket: nat, fault: Option<string>) | Shutdown

  /** `prompt` says whether a non-blocking receive for this command would find it already there.
      Each position of the queue is polled at most once, so one bit is a whole arrival schedule. */
  datatype Arrival = Arrival(cmd: Command, prompt: bool)

  datatype Step = Single(job: Job) | Group(jobs: seq<Job>) | Check(ticket: nat, fault: Option<string>)

  /** `at` is the durable database a checkpoint ran on. */
  datatype Event = Answered(answer: Answer) | Checked(ticket: nat, fault: Option<string>, at: Db)

  datatype Effects = Effects(db: Db, events: seq<Event>, latencies: seq<nat>)

  /** What is really sent on a reply channel. */
  datatype Sent = Response(ticket: nat, response: WriteResponse) | Result(ticket: nat, fault: Option<string>, at: Db)

  function Strip(e: Event): Sent {
    match e
    case Answered(a) => Response(a.ticket, a.response)
    case Checked(t, fault, at) => Result(t, fault, at)
  }

  function Wire(events: seq<Event>): (sent: seq<Sent>)
    ensures |sent| == |events|
  {
    seq(|events|, i requires 0 <= i < |events| => Strip(events[i]))
  }

  predicate Batchable(a: Arrival) {
    a.cmd.Write? && |a.cmd.job.request.operations| == 1
  }

  /** Size of a batch that has `n` jobs already, once the greedy drain stops. */
  function Drained(inbox: seq<Arrival>, maxSize: nat, n: nat): (m: nat)
    requires n <= |inbox|
    ensures n <= m <= |inbox|
    ensures forall i :: n <= i < m ==> Batchable(inbox[i])
    decreases |inbox| - n
  {
    if n < maxSize && n < |inbox| && inbox[n].prompt && Batchable(inbox[n])
    then Drained(inbox, maxSize, n + 1)
    else n
  }

  /** The first `n` commands of the queue, all of them writes. */
  function Jobs(inbox: seq<Arrival>, n: nat): (jobs: seq<Job>)
    requires n <= |inbox| && forall i {:trigger inbox[i]} :: 0 <= i < n ==> inbox[i].cmd.Write?
    ensures |jobs| == n
  {
    seq(n, i requires 0 <= i < n => inbox[i].cmd.job)
  }

  /** The first step of a plan whose next command is a batchable write. */
  function Bundle(inbox: seq<Arrival>, maxSize: nat): Step
    requires inbox != [] && Batchable(inbox[0])
  {
    var n := Drained(inbox, maxSize, 1);
    if n == 1 then Single(inbox[0].cmd.job) else Group(Jobs(inbox, n))
  }

  function Direct(cmd: Command): Step
    requires !cmd.Shutdown?
  {
    match cmd
    case Write(job) => Single(job)
    case Checkpoint(t, fault) => Check(t, fault)
  }

  /** `maxSize` is None when batching is off. */
  function Plan(inbox: seq<Arrival>, maxSize: Option<nat>): seq<Step>
    decreases |inbox|
  {
    if inbox == [] || inbox[0].cmd.Shutdown? then []
    else if maxSize.Some? && Batchable(inbox[0])
    then [Bundle(inbox, maxSize.value)] + Plan(inbox[Drained(inbox, maxSize.value, 1)..], maxSize)
    else [Direct(inbox[0].cmd)] + Plan(inbox[1..], maxSize)
  }

  function Report(answers: seq<Answer>): seq<Event> {
    seq(|answers|, i requires 0 <= i < |answers| => Answered(answers[i]))
  }

  function StepJobs(step: Step): seq<Job> {
    match step
    case Single(job) => [job]
    case Group(jobs) => jobs
    case Check(_, _) => []
  }

  function StepRound(en: Engine, db: Db, step: Step): (r: Round)
    ensures |r.answers| == |StepJobs(step)|
    ensures forall i :: 0 <= i < |r.answers| ==> r.answers[i].ticket == StepJobs(step)[i].ticket
  {
    match step
    case Single(job) =>
      var s := Serve(en, db, job.request, job.faults);
      Round(s.db, [Answer(job.ticket, s.response, s.kept)])
    case Group(jobs) => if jobs == [] then Round(db, []) else ServeGroup(en, db, jobs)
    case Check(_, _) => Round(db, [])
  }

  /** One entry per transaction that commits; a batch counts once. */
  function StepLatency(en: Engine, db: Db, step: Step): seq<nat> {
    match step
    case Single(job) => if Serve(en, db, job.request, job.faults).kept then [job.faults.micros] else []
    case Group(jobs) =>
      if jobs != [] && jobs[0].faults.outerOpen.None? && jobs[0].faults.outerClose.None?
      then [jobs[0].faults.micros] else []
    case Check(_, _) => []
  }

  function Perform(en: Engine, db: Db, step: Step): Effects {
    var r := StepRound(en, db, step);
    Effects(r.db, if step.Check? then [Checked(step.ticket, step.fault, db)] else Report(r.answers),
            StepLatency(en, db, step))
  }

  function Execute(en: Engine, db: Db, steps: seq<Step>): Effects
    decreases steps
  {
    if steps == [] then Effects(db, [], [])
    else
      var now := Perform(en, db, steps[0]);
      var later := Execute(en, now.db, steps[1..]);
      Effects(later.db, now.events + later.events, now.latencies + later.latencies)
  }

  /** The effects of a run whose first part was `events` and `latencies`. */
  function Joined(events: seq<Event>, latencies: seq<nat>, later: Effects): Effects {
    Effects(later.db, events + later.events, latencies + later.latencies)
  }

  lemma ExecuteCons(en: Engine, db: Db, step: Step, rest: seq<Step>)
    ensures var now := Perform(en, db, step);
            Execute(en, db, [step] + rest) == Joined(now.events, now.latencies, Execute(en, now.db, rest))
  {
    assert ([step] + rest)[1..] == rest;
  }

  lemma JoinedTwice(e1: seq<Event>, l1: seq<nat>, e2: seq<Event>, l2: seq<nat>, later: Effects)
    ensures Joined(e1, l1, Joined(e2, l2, later)) == Joined(e1 + e2, l1 + l2, later)
  {
    assert e1 + (e2 + later.events) == e1 + e2 + later.events;
    assert l1 + (l2 + later.latencies) == l1 + l2 + later.latencies;
  }

  lemma PlanBundle(inbox: seq<Arrival>, maxSize: nat)
    requires inbox != [] && Batchable(inbox[0])
    ensures Plan(inbox, Some(maxSize)) ==
            [Bundle(inbox, maxSize)] + Plan(inbox[Drained(inbox, maxSize, 1)..], Some(maxSize))
  {
  }

  lemma PlanDirect(inbox: seq<Arrival>, maxSize: Option<nat>)
    requires inbox != [] && (maxSize.Some? ==> !Batchable(inbox[0]))
    ensures Plan(inbox, maxSize) ==
            if inbox[0].cmd.Shutdown? then [] else [Direct(inbox[0].cmd)] + Plan(inbox[1..], maxSize)
  {
  }

  lemma PerformCheck(en: Engine, db: Db, ticket: nat, fault: Option<string>)
    ensures Perform(en, db, Check(ticket, fault)) == Effects(db, [Checked(ticket, fault, db)], [])
  {
  }

  lemma WireConcat(a: seq<Event>, b: seq<Event>)
    ensures Wire(a + b) == Wire(a) + Wire(b)
  {
  }

  /** The databases a run passes through, from the first one to the last. */
  ghost function Stages(en: Engine, db: Db, steps: seq<Step>): set<Db>
    decreases steps
  {
    {db} + if steps == [] then {} else Stages(en, Perform(en, db, steps[0]).db, steps[1..])
  }

  lemma StagesCons(en: Engine, db: Db, step: Step, rest: seq<Step>)
    ensures Stages(en, db, [step] + rest) == {db} + Stages(en, Perform(en, db, step).db, rest)
    ensures Perform(en, db, step).db in Stages(en, db, [step] + rest)
  {
    assert ([step] + rest)[1..] == rest;
  }

  lemma {:induction false} StagesArePrefixes(en: Engine, db: Db, steps: seq<Step>, d: Db)
    ensures d in Stages(en, db, steps) <==> exists i :: 0 <= i <= |steps| && d == Execute(en, db, steps[..i]).db
    decreases steps
  {
    hide Perform;
    assert Execute(en, db, steps[..0]).db == db;
    if steps != [] {
      var next := Perform(en, db, steps[0]).db;
      StagesArePrefixes(en, next, steps[1..], d);
      forall i | 0 < i <= |steps|
        ensures Execute(en, db, steps[..i]).db == Execute(en, next, steps[1..][..i - 1]).db
      {
        assert steps[..i][1..] == steps[1..][..i - 1];
      }
      if i :| 0 <= i <= |steps[1..]| && d == Execute(en, next, steps[1..][..i]).db {
        assert d == Execute(en, db, steps[..i + 1]).db;
      }
    }
  }

  function Same(n: nat, db: Db): seq<Db> {
    seq(n, i requires 0 <= i < n => db)
  }

  /** The durable database on which each reply of a run leaves: the one its step ends with. */
  function Standing(en: Engine, db: Db, steps: seq<Step>): seq<Db>
    decreases steps
  {
    if steps == [] then []
    else
      var now := Perform(en, db, steps[0]);
      Same(|now.events|, now.db) + Standing(en, now.db, steps[1..])
  }

  lemma StandingCons(en: Engine, db: Db, step: Step, rest: seq<Step>)
    ensures var now := Perform(en, db, step);
            Standing(en, db, [step] + rest) == Same(|now.events|, now.db) + Standing(en, now.db, rest)
  {
    assert ([step] + rest)[1..] == rest;
  }

  lemma NoSteps(en: Engine, db: Db)
    ensures Execute(en, db, []) == Effects(db, [], []) && Stages(en, db, []) == {db} && Standing(en, db, []) == []
  {
  }
}

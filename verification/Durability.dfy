/** An acknowledged request stays: every reply is sent on a durable database that backs it, and so does
    every durable database from then on, crash or no crash. */
module Durability {
  import opened Basics
  import opened Requests
  import opened Store
  import opened Serving
  import opened Scheduling
  import opened History
  import opened Guarantees
  import opened Connections
  import opened Latency
  import opened Writers
  import Discipline

  /** The job each event of a step answers; None for a checkpoint. */
  function StepAsked(step: Step): seq<Option<Job>> {
    if step.Check? then [None]
    else seq(|StepJobs(step)|, i requires 0 <= i < |StepJobs(step)| => Some(StepJobs(step)[i]))
  }

  function Asked(steps: seq<Step>): seq<Option<Job>> {
    if steps == [] then [] else StepAsked(steps[0]) + Asked(steps[1..])
  }

  lemma StepEvents(en: Engine, db: Db, step: Step)
    ensures |Perform(en, db, step).events| == |StepAsked(step)|
    ensures Perform(en, db, step).db == StepRound(en, db, step).db
    ensures forall j :: 0 <= j < |StepAsked(step)| ==>
              var e := Perform(en, db, step).events[j];
              && (e.Answered? <==> StepAsked(step)[j].Some?)
              && (e.Answered? ==>
                    && j < |StepJobs(step)| && StepAsked(step)[j].value == StepJobs(step)[j]
                    && e.answer == StepRound(en, db, step).answers[j] && e.answer.ticket == StepJobs(step)[j].ticket)
  {
    hide Serve, ServeGroup;
  }

  lemma {:induction false} Lengths(en: Engine, db: Db, steps: seq<Step>)
    ensures |Asked(steps)| == |Standing(en, db, steps)| == |Execute(en, db, steps).events|
    decreases steps
  {
    hide Perform, StepAsked;
    if steps != [] {
      StepEvents(en, db, steps[0]);
      Lengths(en, Perform(en, db, steps[0]).db, steps[1..]);
    }
  }

  /** Event `k` of a run is event `j` of its step `i`. */
  lemma {:induction false} Place(en: Engine, db: Db, steps: seq<Step>, k: nat) returns (i: nat, j: nat)
    requires k < |Execute(en, db, steps).events|
    ensures |Asked(steps)| == |Standing(en, db, steps)| == |Execute(en, db, steps).events|
    ensures i < |steps| && j < |StepAsked(steps[i])| && Asked(steps)[k] == StepAsked(steps[i])[j]
    ensures var now := Perform(en, Execute(en, db, steps[..i]).db, steps[i]);
            && j < |now.events| && Execute(en, db, steps).events[k] == now.events[j]
            && Standing(en, db, steps)[k] == now.db
    decreases steps
  {
    hide Perform, StepAsked;
    Lengths(en, db, steps);
    var now := Perform(en, db, steps[0]);
    StepEvents(en, db, steps[0]);
    if k < |now.events| {
      i, j := 0, k;
      NoSteps(en, db);
      assert Same(|now.events|, now.db)[k] == now.db;
    } else {
      Lengths(en, now.db, steps[1..]);
      i, j := Place(en, now.db, steps[1..], k - |now.events|);
      assert steps[..i + 1][1..] == steps[1..][..i] && steps[..i + 1][0] == steps[0];
      i := i + 1;
    }
  }

  /** The database behind the first `n` steps in terms of that behind the first `i`. */
  lemma ExecuteFrom(en: Engine, db: Db, steps: seq<Step>, i: nat, n: nat)
    requires i <= n <= |steps|
    ensures Execute(en, db, steps[..n]).db == Execute(en, Execute(en, db, steps[..i]).db, steps[i..n]).db
  {
    hide Execute;
    assert steps[..n] == steps[..i] + steps[i..n];
    Discipline.ExecuteConcat(en, db, steps[..i], steps[i..n]);
  }

  lemma ExecuteOne(en: Engine, db: Db, step: Step)
    ensures Execute(en, db, [step]).db == Perform(en, db, step).db
  {
    hide Perform;
    assert [step][1..] == [];
  }

  /** Reply `k` of a run leaves on the database behind one of its steps, the legal serial execution of the
      requests kept up to then. If it acknowledges a request, that database backs it: the request is among
      the kept ones, or its stored reply is the one sent. */
  lemma SentIsDurable(en: Engine, db: Db, steps: seq<Step>, k: nat) returns (i: nat)
    requires Linked(db) && CleanRun(en, db, Completions(steps)) && k < |Execute(en, db, steps).events|
    ensures |Asked(steps)| == |Standing(en, db, steps)| == |Execute(en, db, steps).events|
    ensures i < |steps| && Standing(en, db, steps)[k] == Execute(en, db, steps[..i + 1]).db
    ensures var on, h := Standing(en, db, steps)[k], HistoryOf(en, db, Completions(steps[..i + 1]));
            var e, asked := Execute(en, db, steps).events[k], Asked(steps)[k];
            && LegalAll(en, db, h) && on == EffectAll(en, db, h)
            && (e.Answered? <==> asked.Some?)
            && (e.Answered? ==>
                  && asked.value in StepJobs(steps[i]) && e.answer.ticket == asked.value.ticket
                  && (e.answer.kept ==> e.answer.response.status == Committed && asked.value.request in h)
                  && (e.answer.response.status == Committed ==> Backed(en, on, asked.value.request, e.answer)))
  {
    hide Execute, Perform, Standing, Asked, StepAsked, StepRound, StepHistory, HistoryOf, CleanRun, CleanStep;
    hide Backed, Linked, LegalAll, EffectAll, Completions, DurableAfter;
    var j;
    i, j := Place(en, db, steps, k);
    var mid := Execute(en, db, steps[..i]).db;
    assert steps[i..i + 1] == [steps[i]];
    ExecuteFrom(en, db, steps, i, i + 1);
    ExecuteOne(en, mid, steps[i]);
    CleanSplit(en, db, steps, i);
    CleanSplit(en, db, steps, i + 1);
    PrefixIsSerial(en, db, steps[..i]);
    PrefixIsSerial(en, db, steps[..i + 1]);
    HistoryStaysLinked(en, db, HistoryOf(en, db, Completions(steps[..i])));
    NextStep(en, db, steps, i);
    StepEvents(en, mid, steps[i]);
    if StepAsked(steps[i])[j].Some? {
      RepliesTellTheTruth(en, mid, steps[i], j);
    }
  }

  lemma NextStep(en: Engine, db: Db, steps: seq<Step>, i: nat)
    requires i < |steps| && CleanRun(en, db, Completions(steps))
    ensures var mid := Execute(en, db, steps[..i]).db;
            && CleanStep(en, mid, steps[i])
            && HistoryOf(en, db, Completions(steps[..i + 1])) ==
               HistoryOf(en, db, Completions(steps[..i])) + StepHistory(en, mid, steps[i])
  {
    hide Execute, StepRound, StepHistory, CleanStep, Completions;
    var mid := Execute(en, db, steps[..i]).db;
    CleanSplit(en, db, steps, i);
    CompletionsCons(en, mid, steps[i..]);
    assert steps[i..][0] == steps[i];
    CompletionsAppend(steps, i);
    LoopIsRun(en, db, steps[..i]);
    HistoryAppend(en, db, Completions(steps[..i]), Completed(steps[i]));
  }

  lemma {:induction false} HistoryAppend(en: Engine, db: Db, run: seq<Incident>, last: Incident)
    requires last.Completed?
    ensures HistoryOf(en, db, run + [last]) ==
            HistoryOf(en, db, run) + StepHistory(en, DurableAfter(en, db, run), last.step)
    decreases run
  {
    hide StepRound, StepHistory;
    if run == [] {
      assert run + [last] == [last] && [last][1..] == [];
      assert StepHistory(en, db, last.step) + [] == [] + StepHistory(en, db, last.step);
    } else {
      assert (run + [last])[1..] == run[1..] + [last];
      HistoryAppend(en, if Lasting(run[0]) then StepRound(en, db, run[0].step).db else db, run[1..], last);
    }
  }

  /** Acknowledged is for good: whatever Committed reply has been sent, every durable database the loop
      leaves from then on, and so every one a crash can leave, backs it still. */
  lemma AcknowledgedForever(en: Engine, db: Db, steps: seq<Step>, k: nat) returns (i: nat)
    requires Linked(db) && CleanRun(en, db, Completions(steps)) && k < |Execute(en, db, steps).events|
    ensures |Asked(steps)| == |Standing(en, db, steps)| == |Execute(en, db, steps).events|
    ensures i < |steps| && Standing(en, db, steps)[k] == Execute(en, db, steps[..i + 1]).db
    ensures var e, asked := Execute(en, db, steps).events[k], Asked(steps)[k];
            e.Answered? && e.answer.response.status == Committed ==>
              && asked.Some?
              && forall n :: i < n <= |steps| ==>
                   Backed(en, Execute(en, db, steps[..n]).db, asked.value.request, e.answer)
  {
    hide Execute, Standing, Asked, StepRound, HistoryOf, CleanRun, Backed, Linked, LegalAll, EffectAll, Completions;
    i := SentIsDurable(en, db, steps, k);
    var e, asked := Execute(en, db, steps).events[k], Asked(steps)[k];
    if e.Answered? && e.answer.response.status == Committed {
      var on := Execute(en, db, steps[..i + 1]).db;
      forall n | i < n <= |steps| ensures Backed(en, Execute(en, db, steps[..n]).db, asked.value.request, e.answer) {
        ExecuteFrom(en, db, steps, i + 1, n);
        CleanSplit(en, db, steps, n);
        CleanSplit(en, db, steps[..n], i + 1);
        assert steps[..n][..i + 1] == steps[..i + 1] && steps[..n][i + 1..] == steps[i + 1..n];
        PrefixIsSerial(en, on, steps[i + 1..n]);
        BackedForever(en, on, asked.value.request, e.answer, HistoryOf(en, on, Completions(steps[i + 1..n])));
      }
    }
  }

  predicate Acknowledges(s: Sent) {
    s.Response? && s.response.status == Committed
  }

  /** The writer thread over everything that is ever queued. Message `k` it sends answers command `k` of the
      queue, up to the first Shutdown: a write with the response it was served with, a checkpoint with its
      outcome. Each Committed reply left while the durable database backed it. */
  method RunThread(en: Engine, maxSize: Option<nat>, db: Db, inbox: seq<Arrival>) returns (w: Writer)
    ensures w.Valid() && w.en == en
    ensures var whole := Execute(en, db, Plan(inbox, maxSize));
            && w.conn.durable == whole.db && w.latency.recorded == whole.latencies
            && |w.outbox| == |whole.events| <= |inbox|
            && (|w.outbox| < |inbox| ==> inbox[|w.outbox|].cmd.Shutdown?)
            && forall k :: 0 <= k < |w.outbox| ==>
                 match inbox[k].cmd
                 case Write(job) =>
                   && w.outbox[k].Response? && w.outbox[k].ticket == job.ticket
                   && whole.events[k].Answered? && w.outbox[k].response == whole.events[k].answer.response
                 case Checkpoint(t, fault) =>
                   && w.outbox[k].Result? && w.outbox[k].ticket == t && w.outbox[k].fault == fault
                   && whole.events[k].Checked? && w.outbox[k].at == whole.events[k].at
                 case Shutdown => false
    ensures var steps := Plan(inbox, maxSize);
            && w.sentOn == Standing(en, db, steps) && |Asked(steps)| == |w.outbox| == |w.sentOn|
            && (Linked(db) && CleanRun(en, db, Completions(steps)) ==>
                  forall k :: 0 <= k < |w.outbox| && Acknowledges(w.outbox[k]) ==>
                    && Asked(steps)[k].Some? && w.outbox[k].ticket == Asked(steps)[k].value.ticket
                    && exists a: Answer :: a.response == w.outbox[k].response
                         && Backed(en, w.sentOn[k], Asked(steps)[k].value.request, a))
  {
    hide Plan, Execute, Standing, Asked, Backed, Linked, CleanRun, LegalAll, EffectAll, HistoryOf, Completions;
    var conn := new Connection(db);
    var receiver := new Receiver(inbox);
    var latency := new LatencyBuffer();
    w := new Writer(en, maxSize, conn, receiver, latency);
    assert receiver.Pending() == inbox;
    w.Run();
    ghost var steps := Plan(inbox, maxSize);
    ghost var events := Execute(en, db, steps).events;
    assert [] + Wire(events) == Wire(events) && [] + Standing(en, db, steps) == Standing(en, db, steps);
    Lengths(en, db, steps);
    MessagesAnswer(en, db, inbox, maxSize);
    assert [] + Execute(en, db, steps).latencies == Execute(en, db, steps).latencies;
    if Linked(db) && CleanRun(en, db, Completions(steps)) {
      forall k | 0 <= k < |w.outbox| && Acknowledges(w.outbox[k])
        ensures Asked(steps)[k].Some? && w.outbox[k].ticket == Asked(steps)[k].value.ticket
        ensures exists a: Answer :: a.response == w.outbox[k].response
                  && Backed(en, w.sentOn[k], Asked(steps)[k].value.request, a)
      {
        var i := SentIsDurable(en, db, steps, k);
        assert w.outbox[k] == Strip(events[k]);
        assert Backed(en, w.sentOn[k], Asked(steps)[k].value.request, events[k].answer);
      }
    }
  }

  /** What goes out on the reply channels, command by command. */
  lemma MessagesAnswer(en: Engine, db: Db, inbox: seq<Arrival>, maxSize: Option<nat>)
    ensures var events := Execute(en, db, Plan(inbox, maxSize)).events;
            var sent := Wire(events);
            && |sent| == |events| <= |inbox| && (|sent| < |inbox| ==> inbox[|sent|].cmd.Shutdown?)
            && forall k :: 0 <= k < |sent| ==>
                 match inbox[k].cmd
                 case Write(job) =>
                   && sent[k].Response? && sent[k].ticket == job.ticket
                   && events[k].Answered? && sent[k].response == events[k].answer.response
                 case Checkpoint(t, fault) =>
                   && sent[k].Result? && sent[k].ticket == t && sent[k].fault == fault
                   && events[k].Checked? && sent[k].at == events[k].at
                 case Shutdown => false
  {
    hide Execute, Plan;
    Discipline.ReplyAnswersCommand(en, db, inbox, maxSize);
  }
}

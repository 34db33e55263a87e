/** Who is answered, in which order, and where control commands fall, whatever fails. */
module Discipline {
  import opened Basics
  import opened Store
  import opened Serving
  import opened Scheduling

  /** The queue up to, not including, the first Shutdown. */
  function BeforeShutdown(inbox: seq<Arrival>): seq<Arrival> {
    if inbox == [] || inbox[0].cmd.Shutdown? then [] else [inbox[0]] + BeforeShutdown(inbox[1..])
  }

  /** What one reply answers: a write, or a checkpoint with the fault it runs into, by ticket. */
  datatype Receipt = WriteReceipt(ticket: nat) | CheckReceipt(ticket: nat, fault: Option<string>)

  function CommandReceipts(inbox: seq<Arrival>): seq<Receipt>
    requires forall a :: a in inbox ==> !a.cmd.Shutdown?
  {
    seq(|inbox|, i requires 0 <= i < |inbox| =>
      if inbox[i].cmd.Write? then WriteReceipt(inbox[i].cmd.job.ticket)
      else CheckReceipt(inbox[i].cmd.ticket, inbox[i].cmd.fault))
  }

  function EventReceipts(events: seq<Event>): seq<Receipt> {
    seq(|events|, i requires 0 <= i < |events| =>
      if events[i].Answered? then WriteReceipt(events[i].answer.ticket)
      else CheckReceipt(events[i].ticket, events[i].fault))
  }

  lemma {:induction false} BeforeShutdownIsPrefix(inbox: seq<Arrival>)
    ensures BeforeShutdown(inbox) <= inbox
    ensures forall a :: a in BeforeShutdown(inbox) ==> !a.cmd.Shutdown?
    ensures BeforeShutdown(inbox) == inbox || inbox[|BeforeShutdown(inbox)|].cmd.Shutdown?
  {
    if inbox != [] && !inbox[0].cmd.Shutdown? {
      BeforeShutdownIsPrefix(inbox[1..]);
    }
  }

  lemma {:induction false} BeforeShutdownSkips(inbox: seq<Arrival>, n: nat)
    requires n <= |inbox| && forall i {:trigger inbox[i]} :: 0 <= i < n ==> !inbox[i].cmd.Shutdown?
    ensures BeforeShutdown(inbox) == inbox[..n] + BeforeShutdown(inbox[n..])
    decreases n
  {
    if n == 0 {
      assert inbox[0..] == inbox;
    } else {
      BeforeShutdownSkips(inbox[1..], n - 1);
      assert inbox[1..][n - 1..] == inbox[n..];
      assert inbox[..n] == [inbox[0]] + inbox[1..][..n - 1];
    }
  }

  /** Each step answers exactly the commands it consists of, in order, on success and on failure. */
  lemma StepReceipts(en: Engine, db: Db, step: Step)
    ensures var e := Perform(en, db, step);
            EventReceipts(e.events) ==
            if step.Check? then [CheckReceipt(step.ticket, step.fault)]
            else seq(|StepJobs(step)|, i requires 0 <= i < |StepJobs(step)| => WriteReceipt(StepJobs(step)[i].ticket))
  {
  }

  /** The length of the queue's head that the first step of its plan consists of. */
  function Head(inbox: seq<Arrival>, maxSize: Option<nat>): (n: nat)
    requires inbox != []
    ensures 1 <= n <= |inbox|
  {
    if maxSize.Some? && Batchable(inbox[0]) then Drained(inbox, maxSize.value, 1) else 1
  }

  lemma FirstStepReceipts(en: Engine, db: Db, inbox: seq<Arrival>, maxSize: Option<nat>)
    requires inbox != [] && !inbox[0].cmd.Shutdown?
    ensures forall i {:trigger inbox[i]} :: 0 <= i < Head(inbox, maxSize) ==> !inbox[i].cmd.Shutdown?
    ensures var n, steps := Head(inbox, maxSize), Plan(inbox, maxSize);
            && steps != [] && steps == [steps[0]] + Plan(inbox[n..], maxSize)
            && EventReceipts(Perform(en, db, steps[0]).events) == CommandReceipts(inbox[..n])
  {
    hide Perform;
    StepReceipts(en, db, Plan(inbox, maxSize)[0]);
  }

  lemma ReceiptsConcat(a: seq<Event>, b: seq<Event>)
    ensures EventReceipts(a + b) == EventReceipts(a) + EventReceipts(b)
  {
  }

  /** Every write and checkpoint queued before the first Shutdown gets exactly one reply of its kind, in queue
      order, and nothing queued behind the Shutdown is served: for every failure, arrival schedule and
      batch size. */
  lemma {:induction false} RepliesInQueueOrder(en: Engine, db: Db, inbox: seq<Arrival>, maxSize: Option<nat>)
    ensures BeforeShutdown(inbox) <= inbox && forall a :: a in BeforeShutdown(inbox) ==> !a.cmd.Shutdown?
    ensures EventReceipts(Execute(en, db, Plan(inbox, maxSize)).events) == CommandReceipts(BeforeShutdown(inbox))
    decreases |inbox|
  {
    hide Perform, Plan, Drained, Execute, BeforeShutdown, CommandReceipts, EventReceipts;
    BeforeShutdownIsPrefix(inbox);
    if inbox == [] || inbox[0].cmd.Shutdown? {
      NothingServed(en, db, inbox, maxSize);
    } else {
      FirstStepReceipts(en, db, inbox, maxSize);
      var n, step := Head(inbox, maxSize), Plan(inbox, maxSize)[0];
      var now := Perform(en, db, step);
      ExecuteCons(en, db, step, Plan(inbox[n..], maxSize));
      ReceiptsConcat(now.events, Execute(en, now.db, Plan(inbox[n..], maxSize)).events);
      BeforeShutdownSkips(inbox, n);
      RepliesInQueueOrder(en, now.db, inbox[n..], maxSize);
      CommandsConcat(inbox[..n], BeforeShutdown(inbox[n..]));
    }
  }

  lemma CommandsConcat(a: seq<Arrival>, b: seq<Arrival>)
    requires forall c :: c in a || c in b ==> !c.cmd.Shutdown?
    ensures CommandReceipts(a + b) == CommandReceipts(a) + CommandReceipts(b)
  {
  }

  lemma NothingServed(en: Engine, db: Db, inbox: seq<Arrival>, maxSize: Option<nat>)
    requires inbox == [] || inbox[0].cmd.Shutdown?
    ensures BeforeShutdown(inbox) == []
    ensures EventReceipts(Execute(en, db, Plan(inbox, maxSize)).events) == CommandReceipts([])
  {
  }

  /** Reply `k` answers command `k` of the queue, up to the first Shutdown, which ends the replies. */
  lemma ReplyAnswersCommand(en: Engine, db: Db, inbox: seq<Arrival>, maxSize: Option<nat>)
    ensures var events := Execute(en, db, Plan(inbox, maxSize)).events;
            && |events| <= |inbox| && (|events| < |inbox| ==> inbox[|events|].cmd.Shutdown?)
            && forall k :: 0 <= k < |events| ==>
                 match inbox[k].cmd
                 case Write(job) => events[k].Answered? && events[k].answer.ticket == job.ticket
                 case Checkpoint(t, fault) => events[k].Checked? && events[k].ticket == t && events[k].fault == fault
                 case Shutdown => false
  {
    hide Execute, Plan, BeforeShutdown;
    var events, due := Execute(en, db, Plan(inbox, maxSize)).events, BeforeShutdown(inbox);
    BeforeShutdownIsPrefix(inbox);
    RepliesInQueueOrder(en, db, inbox, maxSize);
    assert |EventReceipts(events)| == |CommandReceipts(due)|;
    forall k | 0 <= k < |events|
      ensures due[k] == inbox[k] && due[k] in due && EventReceipts(events)[k] == CommandReceipts(due)[k]
    {
    }
  }

  // ---- What is served together ----

  /** What one iteration of the loop takes off the queue: a checkpoint or a write that cannot be batched by
      itself, else as many single-operation writes as are there, up to the batch size, served as one batch;
      a batch of one is served like a lone write. */
  lemma PlanTakes(inbox: seq<Arrival>, maxSize: Option<nat>) returns (n: nat, step: Step)
    requires inbox != [] && !inbox[0].cmd.Shutdown?
    ensures 1 <= n <= |inbox| && Plan(inbox, maxSize) == [step] + Plan(inbox[n..], maxSize)
    ensures inbox[0].cmd.Checkpoint? ==> n == 1 && step == Check(inbox[0].cmd.ticket, inbox[0].cmd.fault)
    ensures forall i {:trigger inbox[i]} :: 0 <= i < n && inbox[0].cmd.Write? ==> inbox[i].cmd.Write?
    ensures inbox[0].cmd.Write? && n == 1 ==> step == Single(inbox[0].cmd.job)
    ensures inbox[0].cmd.Write? && n > 1 ==>
              && step.Group? && |step.jobs| == n && (forall i :: 0 <= i < n ==> step.jobs[i] == inbox[i].cmd.job)
              && maxSize.Some? && n <= maxSize.value
              && (forall i :: 0 <= i < n ==> |inbox[i].cmd.job.request.operations| == 1)
              && (forall i :: 1 <= i < n ==> inbox[i].prompt)
    ensures maxSize.Some? && n < maxSize.value && n < |inbox| && inbox[0].cmd.Write?
              && |inbox[0].cmd.job.request.operations| == 1 ==>
              || !inbox[n].prompt || !inbox[n].cmd.Write? || |inbox[n].cmd.job.request.operations| != 1
  {
    hide Drained;
    n, step := Head(inbox, maxSize), Plan(inbox, maxSize)[0];
    if maxSize.Some? && Batchable(inbox[0]) {
      DrainIsGreedy(inbox, maxSize.value, 1);
    }
  }

  lemma {:induction false} DrainStopsAt(inbox: seq<Arrival>, maxSize: nat, n: nat, k: nat)
    requires n <= k < |inbox| && !Batchable(inbox[k])
    ensures Drained(inbox, maxSize, n) == Drained(inbox[..k], maxSize, n)
    decreases k - n
  {
    if n < k && n < maxSize && inbox[n].prompt && Batchable(inbox[n]) {
      DrainStopsAt(inbox, maxSize, n + 1, k);
    }
  }

  /** A checkpoint, a multi-operation write or a Shutdown splits the plan: everything queued before it
      is planned as if the queue ended there, then it runs alone, then the rest is planned afresh. */
  lemma {:induction false} ControlIsBarrier(inbox: seq<Arrival>, maxSize: Option<nat>, k: nat)
    requires k < |inbox| && !Batchable(inbox[k]) && forall i :: 0 <= i < k ==> !inbox[i].cmd.Shutdown?
    ensures Plan(inbox, maxSize) == Plan(inbox[..k], maxSize) + Plan(inbox[k..], maxSize)
    decreases k
  {
    hide Drained, Head, Plan;
    if k == 0 {
      assert inbox[0..] == inbox;
      NothingPlanned(maxSize);
    } else {
      var n, step := HeadOfPrefix(inbox, maxSize, k);
      ControlIsBarrier(inbox[n..], maxSize, k - n);
      assert inbox[n..][..k - n] == inbox[..k][n..] && inbox[n..][k - n..] == inbox[k..];
      assert [step] + (Plan(inbox[..k][n..], maxSize) + Plan(inbox[k..], maxSize)) ==
             [step] + Plan(inbox[..k][n..], maxSize) + Plan(inbox[k..], maxSize);
    }
  }

  lemma NothingPlanned(maxSize: Option<nat>)
    ensures Plan([], maxSize) == []
  {
  }

  /** The first step of a plan does not look past a control command. */
  lemma HeadOfPrefix(inbox: seq<Arrival>, maxSize: Option<nat>, k: nat) returns (n: nat, step: Step)
    requires 0 < k < |inbox| && !Batchable(inbox[k]) && !inbox[0].cmd.Shutdown?
    ensures 0 < n <= k
    ensures Plan(inbox, maxSize) == [step] + Plan(inbox[n..], maxSize)
    ensures Plan(inbox[..k], maxSize) == [step] + Plan(inbox[..k][n..], maxSize)
  {
    n, step := Head(inbox, maxSize), Plan(inbox, maxSize)[0];
    if maxSize.Some? && Batchable(inbox[0]) {
      DrainStopsAt(inbox, maxSize.value, 1, k);
      assert n > 1 ==> Jobs(inbox, n) == Jobs(inbox[..k], n);
    }
  }

  lemma {:induction false} ExecuteConcat(en: Engine, db: Db, a: seq<Step>, b: seq<Step>)
    ensures var first := Execute(en, db, a);
            Execute(en, db, a + b) == Joined(first.events, first.latencies, Execute(en, first.db, b))
    decreases a
  {
    hide Perform;
    if a == [] {
      assert a + b == b;
    } else {
      var now := Perform(en, db, a[0]);
      var later := Execute(en, now.db, a[1..]);
      assert a + b == [a[0]] + (a[1..] + b);
      ExecuteCons(en, db, a[0], a[1..] + b);
      ExecuteConcat(en, now.db, a[1..], b);
      JoinedTwice(now.events, now.latencies, later.events, later.latencies, Execute(en, later.db, b));
    }
  }

  /** A checkpoint runs on the database left by exactly the commands queued before it, and everything
      queued behind it starts from that same database. */
  lemma CheckpointPosition(en: Engine, db: Db, inbox: seq<Arrival>, maxSize: Option<nat>, k: nat)
    requires k < |inbox| && inbox[k].cmd.Checkpoint? && forall i :: 0 <= i < k ==> !inbox[i].cmd.Shutdown?
    ensures var before := Execute(en, db, Plan(inbox[..k], maxSize));
            var after := Execute(en, before.db, Plan(inbox[k + 1..], maxSize));
            var whole := Execute(en, db, Plan(inbox, maxSize));
            && whole.db == after.db
            && whole.events ==
               before.events + [Checked(inbox[k].cmd.ticket, inbox[k].cmd.fault, before.db)] + after.events
  {
    hide Perform;
    var before := Execute(en, db, Plan(inbox[..k], maxSize));
    PerformCheck(en, before.db, inbox[k].cmd.ticket, inbox[k].cmd.fault);
    ControlIsBarrier(inbox, maxSize, k);
    ExecuteConcat(en, db, Plan(inbox[..k], maxSize), Plan(inbox[k..], maxSize));
    assert inbox[k..][0] == inbox[k] && inbox[k..][1..] == inbox[k + 1..];
    ExecuteCons(en, before.db, Direct(inbox[k].cmd), Plan(inbox[k + 1..], maxSize));
  }

  /** Whatever is queued behind the first Shutdown makes no difference at all. */
  lemma NothingAfterShutdown(inbox: seq<Arrival>, maxSize: Option<nat>)
    ensures Plan(inbox, maxSize) == Plan(BeforeShutdown(inbox), maxSize)
  {
    hide BeforeShutdown, Drained;
    var k := |BeforeShutdown(inbox)|;
    BeforeShutdownIsPrefix(inbox);
    assert inbox[..k] == BeforeShutdown(inbox);
    if k < |inbox| {
      forall i | 0 <= i < k ensures !inbox[i].cmd.Shutdown? {
        assert inbox[i] == BeforeShutdown(inbox)[i];
      }
      ControlIsBarrier(inbox, maxSize, k);
      assert inbox[k..][0] == inbox[k] && Plan(inbox[k..], maxSize) == [];
      assert Plan(inbox[..k], maxSize) + [] == Plan(inbox[..k], maxSize);
    } else {
      assert inbox[..k] == inbox;
    }
  }

  /** The drain is greedy and bounded: a batch grows until it is full, nothing is waiting, or the next
      command is not a single-operation write. */
  lemma {:induction false} DrainIsGreedy(inbox: seq<Arrival>, maxSize: nat, n: nat)
    requires n <= |inbox|
    ensures var m := Drained(inbox, maxSize, n);
            && (m <= maxSize || m == n)
            && (m < maxSize && m < |inbox| ==> !inbox[m].prompt || !Batchable(inbox[m]))
            && forall i :: n <= i < m ==> inbox[i].prompt && Batchable(inbox[i])
    decreases |inbox| - n
  {
    if n < maxSize && n < |inbox| && inbox[n].prompt && Batchable(inbox[n]) {
      DrainIsGreedy(inbox, maxSize, n + 1);
    }
  }

  /** Only single-operation writes are ever grouped, at least two and at most `maxSize` of them. */
  lemma {:induction false} GroupsAreBatches(inbox: seq<Arrival>, maxSize: Option<nat>, i: nat)
    requires i < |Plan(inbox, maxSize)| && Plan(inbox, maxSize)[i].Group?
    ensures maxSize.Some? && 2 <= |Plan(inbox, maxSize)[i].jobs| <= maxSize.value
    ensures forall job :: job in Plan(inbox, maxSize)[i].jobs ==> |job.request.operations| == 1
    decreases |inbox|
  {
    hide Drained;
    var n := Head(inbox, maxSize);
    if i > 0 {
      GroupsAreBatches(inbox[n..], maxSize, i - 1);
    } else {
      DrainIsGreedy(inbox, maxSize.value, 1);
    }
  }

  // ---- Latency entries ----

  /** A lone write adds an entry exactly when it took effect, a batch exactly when its BEGIN and COMMIT
      worked, with the time of the job that led it; a checkpoint adds none. */
  lemma StepEntries(en: Engine, db: Db, step: Step)
    ensures Perform(en, db, step).latencies ==
            match step
            case Single(job) => if Serve(en, db, job.request, job.faults).kept then [job.faults.micros] else []
            case Check(_, _) => []
            case Group(jobs) =>
              if jobs != [] && jobs[0].faults.outerOpen.None? && jobs[0].faults.outerClose.None?
              then [jobs[0].faults.micros] else []
  {
    hide Serve, ServeGroup;
  }

  /** Over a run there is one entry for each transaction that committed, in order. */
  lemma OneEntryPerCommit(en: Engine, db: Db, steps: seq<Step>) returns (commits: seq<nat>)
    ensures |Execute(en, db, steps).latencies| == |commits|
    ensures forall k :: 0 <= k < |commits| ==> commits[k] < |steps| && StepJobs(steps[commits[k]]) != []
    ensures forall k :: 0 <= k < |commits| ==>
              Execute(en, db, steps).latencies[k] == StepJobs(steps[commits[k]])[0].faults.micros
    ensures forall j, k :: 0 <= j < k < |commits| ==> commits[j] < commits[k]
    ensures forall i :: 0 <= i < |steps| ==>
              (i in commits <==>
                match steps[i]
                case Single(job) => Serve(en, Execute(en, db, steps[..i]).db, job.request, job.faults).kept
                case Check(_, _) => false
                case Group(jobs) =>
                  jobs != [] && jobs[0].faults.outerOpen.None? && jobs[0].faults.outerClose.None?)
  {
    hide Perform, Serve, Execute;
    commits := EntriesInOrder(en, db, steps);
    forall i | 0 <= i < |steps|
      ensures i in commits <==>
              match steps[i]
              case Single(job) => Serve(en, Execute(en, db, steps[..i]).db, job.request, job.faults).kept
              case Check(_, _) => false
              case Group(jobs) => jobs != [] && jobs[0].faults.outerOpen.None? && jobs[0].faults.outerClose.None?
    {
      StepEntries(en, Execute(en, db, steps[..i]).db, steps[i]);
    }
  }

  lemma {:induction false} EntriesInOrder(en: Engine, db: Db, steps: seq<Step>) returns (commits: seq<nat>)
    ensures |Execute(en, db, steps).latencies| == |commits|
    ensures forall k :: 0 <= k < |commits| ==> commits[k] < |steps| && StepJobs(steps[commits[k]]) != []
    ensures forall k :: 0 <= k < |commits| ==>
              Execute(en, db, steps).latencies[k] == StepJobs(steps[commits[k]])[0].faults.micros
    ensures forall j, k :: 0 <= j < k < |commits| ==> commits[j] < commits[k]
    ensures forall i :: 0 <= i < |steps| ==>
              (i in commits <==> Perform(en, Execute(en, db, steps[..i]).db, steps[i]).latencies != [])
    decreases |steps|
  {
    hide Perform, Execute, StepJobs;
    NoSteps(en, db);
    if steps == [] {
      return [];
    }
    var last := |steps| - 1;
    var before := Execute(en, db, steps[..last]);
    commits := EntriesInOrder(en, db, steps[..last]);
    ExecuteConcat(en, db, steps[..last], [steps[last]]);
    assert steps == steps[..last] + [steps[last]];
    ExecuteLast(en, before.db, steps[last]);
    LeadEntry(en, before.db, steps[last]);
    forall i | 0 <= i < last ensures steps[..last][..i] == steps[..i] && steps[..last][i] == steps[i] {
    }
    if Perform(en, before.db, steps[last]).latencies != [] {
      commits := commits + [last];
    }
  }

  lemma LeadEntry(en: Engine, db: Db, step: Step)
    ensures var entries := Perform(en, db, step).latencies;
            entries == [] || (StepJobs(step) != [] && entries == [StepJobs(step)[0].faults.micros])
  {
    StepEntries(en, db, step);
  }

  lemma ExecuteLast(en: Engine, db: Db, step: Step)
    ensures Execute(en, db, [step]).latencies == Perform(en, db, step).latencies
  {
    hide Perform;
    assert [step][1..] == [];
  }
}

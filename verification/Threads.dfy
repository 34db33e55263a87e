/** The two descriptions of the writer put together: the interleaved steps of `Gateway` hand out replies
    in the order in which the loop of `Writers` answers the queue the callers filled. */
module Threads {
  import opened Basics
  import opened Requests
  import opened Store
  import opened Serving
  import opened Scheduling
  import Discipline
  import Gateway

  /** The loop's inbox holds what the callers enqueued, with the call number as the ticket. */
  predicate Mirrors(log: seq<Gateway.Item>, inbox: seq<Arrival>) {
    |log| == |inbox| && forall i :: 0 <= i < |log| ==> MirrorsItem(log[i], inbox[i].cmd)
  }

  predicate MirrorsItem(item: Gateway.Item, cmd: Command) {
    match item
    case Write(c) => cmd.Write? && cmd.job.ticket == c
    case Control => cmd.Checkpoint?
    case Halt => cmd.Shutdown?
  }

  /** The calls whose replies are among these, in order. */
  function Told(receipts: seq<Discipline.Receipt>): seq<nat> {
    if receipts == [] then []
    else (if receipts[0].WriteReceipt? then [receipts[0].ticket] else []) + Told(receipts[1..])
  }

  lemma {:induction false} MirroredWrites(log: seq<Gateway.Item>, inbox: seq<Arrival>)
    requires Mirrors(log, inbox)
    ensures forall a :: a in Discipline.BeforeShutdown(inbox) ==> !a.cmd.Shutdown?
    ensures Told(Discipline.CommandReceipts(Discipline.BeforeShutdown(inbox))) ==
            Gateway.Writes(Gateway.BeforeHalt(log))
  {
    Discipline.BeforeShutdownIsPrefix(inbox);
    if log != [] && !log[0].Halt? {
      assert MirrorsItem(log[0], inbox[0].cmd);
      var rest, left := Discipline.BeforeShutdown(inbox[1..]), Gateway.BeforeHalt(log[1..]);
      MirroredWrites(log[1..], inbox[1..]);
      Discipline.CommandsConcat([inbox[0]], rest);
      var first := Discipline.CommandReceipts([inbox[0]])[0];
      assert ([first] + Discipline.CommandReceipts(rest))[1..] == Discipline.CommandReceipts(rest);
      assert Discipline.CommandReceipts([inbox[0]]) == [first];
      assert ([log[0]] + left)[1..] == left;
    }
  }

  /** In every interleaving of callers and writer the calls that got a reply are, in order, a prefix of
      those the loop answers on that queue, for every database, failure, arrival schedule and batch size;
      once the writer has left its loop they are exactly those. */
  lemma AnsweredByTheLoop(en: Engine, db: Db, inbox: seq<Arrival>, maxSize: Option<nat>,
                          capacity: nat, policy: Gateway.Policy, events: seq<Gateway.Event>)
    requires Mirrors(Gateway.Run(Gateway.Init(capacity, policy), events).pipe.log, inbox)
    ensures var p := Gateway.Run(Gateway.Init(capacity, policy), events).pipe;
            var told := Told(Discipline.EventReceipts(Execute(en, db, Plan(inbox, maxSize)).events));
            p.answered <= told && (!p.open && !p.panicked ==> p.answered == told)
  {
    hide Execute, Plan, Mirrors, Told;
    Gateway.AnsweredInOrder(capacity, policy, events);
    MirroredWrites(Gateway.Run(Gateway.Init(capacity, policy), events).pipe.log, inbox);
    Discipline.RepliesInQueueOrder(en, db, inbox, maxSize);
  }

  /** The replies to writes among these events, in order. */
  function WriteAnswers(events: seq<Event>): seq<Answer> {
    if events == [] then []
    else (if events[0].Answered? then [events[0].answer] else []) + WriteAnswers(events[1..])
  }

  function Tickets(answers: seq<Answer>): seq<nat> {
    seq(|answers|, i requires 0 <= i < |answers| => answers[i].ticket)
  }

  function Statuses(answers: seq<Answer>): seq<bool> {
    seq(|answers|, i requires 0 <= i < |answers| => answers[i].response.status == Committed)
  }

  lemma {:induction false} ToldAreTickets(events: seq<Event>)
    ensures Told(Discipline.EventReceipts(events)) == Tickets(WriteAnswers(events))
  {
    if events != [] {
      assert Discipline.EventReceipts(events)[1..] == Discipline.EventReceipts(events[1..]);
      ToldAreTickets(events[1..]);
    }
  }

  /** When the statuses the writer sends are those of the loop, one reply after the other, each caller that
      gets a response gets the one the loop answers its own write with, the only one sent for it. */
  lemma ResponsesAreTheLoops(en: Engine, db: Db, inbox: seq<Arrival>, maxSize: Option<nat>,
                             capacity: nat, policy: Gateway.Policy, events: seq<Gateway.Event>, c: nat)
    returns (i: nat)
    requires Mirrors(Gateway.Run(Gateway.Init(capacity, policy), events).pipe.log, inbox)
    requires Gateway.Run(Gateway.Init(capacity, policy), events).pipe.statuses <=
             Statuses(WriteAnswers(Execute(en, db, Plan(inbox, maxSize)).events))
    requires var s := Gateway.Run(Gateway.Init(capacity, policy), events);
             c in s.calls && s.calls[c].Returned? && s.calls[c].verdict.Response?
    ensures var s := Gateway.Run(Gateway.Init(capacity, policy), events);
            var loop := WriteAnswers(Execute(en, db, Plan(inbox, maxSize)).events);
            && i < |s.pipe.answered| <= |loop| && loop[i].ticket == c
            && s.calls[c] == Gateway.Returned(Gateway.Response(loop[i].response.status == Committed))
            && forall j :: 0 <= j < |s.pipe.answered| && loop[j].ticket == c ==> j == i
  {
    hide Execute, Plan, Mirrors, WriteAnswers, Told;
    var s := Gateway.Run(Gateway.Init(capacity, policy), events);
    var loop := WriteAnswers(Execute(en, db, Plan(inbox, maxSize)).events);
    i := Gateway.ResponseIsReply(capacity, policy, events, c);
    AnsweredByTheLoop(en, db, inbox, maxSize, capacity, policy, events);
    ToldAreTickets(Execute(en, db, Plan(inbox, maxSize)).events);
    assert forall j :: 0 <= j < |s.pipe.answered| ==> s.pipe.answered[j] == Tickets(loop)[j] == loop[j].ticket;
    assert s.pipe.statuses[i] == Statuses(loop)[i];
  }
}

/** Callers, the bounded channel and the writer as interleaved steps (src/inprocess.rs, with the
    counters of src/jsonrpc.rs). A call is one `dispatch_execute` past its parameter checks. */
module Gateway {

  datatype Policy = Wait | Reject | WaitTimeout

  datatype Verdict = Response(committed: bool) | Overloaded | Closed

  datatype Phase = Sending | Waiting | Returned(verdict: Verdict) | Abandoned

  /** What occupies a queue slot: a write, a checkpoint or the shutdown command. */
  datatype Item = Write(call: nat) | Control | Halt

  datatype Stats = Stats(accepted: nat, committed: nat, failed: nat, rejected: nat)

  /** The channel and the writer. `held` was taken by the writer and not applied yet; `applied` was
      applied and its reply held back. `log` and `taken` record everything enqueued and everything taken
      off the queue, `sent`, `done` and `answered` the calls enqueued, applied and replied to, in order;
      `statuses` are the statuses of those replies, true for Committed. */
  datatype Pipe = Pipe(
    capacity: nat,
    queue: seq<Item>,
    held: seq<nat>,
    applied: seq<nat>,
    replies: map<nat, bool>,
    open: bool,
    halting: bool,
    panicked: bool,
    log: seq<Item>,
    taken: seq<Item>,
    sent: seq<nat>,
    done: seq<nat>,
    answered: seq<nat>,
    statuses: seq<bool>)

  type Calls = map<nat, Phase>

  datatype State = State(policy: Policy, calls: Calls, stats: Stats, pipe: Pipe)

  datatype Event =
    | Call(c: nat)            // a request is accepted and starts sending
    | Send(c: nat)            // it gets a free slot
    | Refuse(c: nat)          // try_send on a full queue
    | Expire(c: nat)          // the timeout of a waiting sender runs out
    | SendFails(c: nat)       // the channel is closed
    | Receive(c: nat)         // its reply arrives
    | Disconnect(c: nat)      // its reply channel was dropped
    | Abandon(c: nat)         // the caller gives up its future
    | AskControl              // somebody enqueues a checkpoint
    | AskHalt                 // somebody enqueues Shutdown
    | Take                    // the writer takes the head of the queue
    | Apply                   // the writer applies the next write it holds
    | Answer(committed: bool) // the writer sends the oldest reply it holds back
    | Stop                    // the writer leaves its loop after a Shutdown and drops the queue
    | Desert                  // every sender is gone, so the writer leaves its loop
    | Panic                   // the writer thread dies

  function Init(capacity: nat, policy: Policy): State {
    State(policy, map[], Stats(0, 0, 0, 0),
          Pipe(capacity, [], [], [], map[], true, false, false, [], [], [], [], [], []))
  }

  function Writes(queue: seq<Item>): seq<nat> {
    if queue == [] then []
    else (if queue[0].Write? then [queue[0].call] else []) + Writes(queue[1..])
  }

  /** Calls inside the gateway, oldest first. */
  function Inside(p: Pipe): seq<nat> {
    p.applied + p.held + Writes(p.queue)
  }

  predicate Full(p: Pipe) {
    |p.queue| >= p.capacity
  }

  predicate InPhase(s: State, c: nat, phase: Phase) {
    c in s.calls && s.calls[c] == phase
  }

  predicate Enabled(s: State, e: Event) {
    match e
    case Call(c) => c !in s.calls
    case Send(c) => InPhase(s, c, Sending) && s.pipe.open && !Full(s.pipe)
    case Refuse(c) => InPhase(s, c, Sending) && s.pipe.open && s.policy.Reject? && Full(s.pipe)
    case Expire(c) => InPhase(s, c, Sending) && s.policy.WaitTimeout?
    case SendFails(c) => InPhase(s, c, Sending) && !s.pipe.open
    case Receive(c) => InPhase(s, c, Waiting) && c in s.pipe.replies
    case Disconnect(c) => InPhase(s, c, Waiting) && c !in s.pipe.replies && c !in Inside(s.pipe)
    case Abandon(c) => InPhase(s, c, Sending) || InPhase(s, c, Waiting)
    case AskControl => s.pipe.open && !Full(s.pipe)
    case AskHalt => s.pipe.open && !Full(s.pipe)
    case Take => s.pipe.open && !s.pipe.halting && s.pipe.queue != []
    case Apply => s.pipe.open && s.pipe.held != []
    case Answer(_) => s.pipe.open && s.pipe.applied != []
    case Stop => s.pipe.open && s.pipe.halting && s.pipe.held == [] && s.pipe.applied == []
    case Desert =>
      && s.pipe.open && s.pipe.queue == [] && s.pipe.held == [] && s.pipe.applied == []
      && forall c :: c in s.calls ==> !s.calls[c].Sending? && !s.calls[c].Waiting?
    case Panic => s.pipe.open
  }

  function Enqueued(p: Pipe, item: Item): Pipe {
    p.(queue := p.queue + [item], log := p.log + [item])
  }

  /** What an event does to the channel and the writer. */
  function Flowed(p: Pipe, e: Event): Pipe
    requires e.Take? ==> p.queue != []
    requires e.Apply? ==> p.held != []
    requires e.Answer? ==> p.applied != []
  {
    match e
    case Send(c) => Enqueued(p, Write(c)).(sent := p.sent + [c])
    case AskControl => Enqueued(p, Control)
    case AskHalt => Enqueued(p, Halt)
    case Take =>
      var q := p.(queue := p.queue[1..], taken := p.taken + [p.queue[0]]);
      (match p.queue[0]
       case Write(c) => q.(held := p.held + [c])
       case Control => q
       case Halt => q.(halting := true))
    case Apply => p.(held := p.held[1..], applied := p.applied + [p.held[0]], done := p.done + [p.held[0]])
    case Answer(b) =>
      p.(applied := p.applied[1..], replies := p.replies[p.applied[0] := b],
         answered := p.answered + [p.applied[0]], statuses := p.statuses + [b])
    case Stop => p.(open := false, queue := [])
    case Desert => p.(open := false)
    case Panic => p.(open := false, panicked := true, queue := [], held := [], applied := [])
    case _ => p
  }

  /** The new phase of the call an event is about. */
  function NewPhase(s: State, e: Event): Phase
    requires e.Receive? ==> e.c in s.pipe.replies
  {
    match e
    case Call(_) => Sending
    case Send(_) => Waiting
    case Refuse(_) => Returned(Overloaded)
    case Expire(_) => Returned(Overloaded)
    case SendFails(_) => Returned(Closed)
    case Receive(c) => Returned(Response(s.pipe.replies[c]))
    case Disconnect(_) => Returned(Closed)
    case _ => Abandoned
  }

  predicate AboutCall(e: Event) {
    e.Call? || e.Send? || e.Refuse? || e.Expire? || e.SendFails? || e.Receive? || e.Disconnect? || e.Abandon?
  }

  function Bump(stats: Stats, phase: Phase): Stats {
    match phase
    case Sending => stats.(accepted := stats.accepted + 1)
    case Returned(Response(true)) => stats.(committed := stats.committed + 1)
    case Returned(Response(false)) => stats.(failed := stats.failed + 1)
    case Returned(_) => stats.(rejected := stats.rejected + 1)
    case _ => stats
  }

  /** An event that is not possible in a state changes nothing. */
  function Next(s: State, e: Event): State {
    if !Enabled(s, e) then s
    else if AboutCall(e) then
      var phase := NewPhase(s, e);
      State(s.policy, s.calls[e.c := phase], Bump(s.stats, phase), Flowed(s.pipe, e))
    else s.(pipe := Flowed(s.pipe, e))
  }

  function Run(s: State, events: seq<Event>): State
    decreases events
  {
    if events == [] then s else Run(Next(s, events[0]), events[1..])
  }

  // ---- Invariants ----

  ghost predicate Distinct(s: seq<nat>) {
    forall i, j :: 0 <= i < j < |s| ==> s[i] != s[j]
  }

  /** Where every enqueued call is: replied to, inside, or lost when the writer ended. */
  ghost predicate Flow(p: Pipe) {
    && |p.queue| <= p.capacity
    && Distinct(p.sent)
    && p.answered + Inside(p) <= p.sent
    && (p.open ==> p.answered + Inside(p) == p.sent)
    && (!p.open ==> Inside(p) == [])
    && (!p.panicked ==> p.done == p.answered + p.applied)
    && p.answered <= p.done <= p.sent
    && (forall c :: c in p.replies <==> c in p.answered)
    && (p.panicked ==> !p.open)
  }

  ghost predicate Honest(p: Pipe, c: nat, phase: Phase) {
    match phase
    case Sending => c !in p.sent
    case Waiting => c in p.sent
    case Abandoned => true
    case Returned(Response(b)) => c in p.replies && p.replies[c] == b
    case Returned(Overloaded) => c !in p.sent
    case Returned(Closed) => !p.open && c !in p.replies
  }

  function Having(calls: Calls, phase: Phase): set<nat> {
    set c | c in calls && calls[c] == phase
  }

  /** Calls that were accepted and have not come back; an abandoned one never will. */
  function InFlight(calls: Calls): set<nat> {
    set c | c in calls && !calls[c].Returned?
  }

  ghost predicate Counted(calls: Calls, stats: Stats) {
    && stats.accepted == stats.committed + stats.failed + stats.rejected + |InFlight(calls)|
    && stats.accepted == |calls|
    && stats.committed == |Having(calls, Returned(Response(true)))|
    && stats.failed == |Having(calls, Returned(Response(false)))|
    && stats.rejected == |Having(calls, Returned(Overloaded))| + |Having(calls, Returned(Closed))|
  }

  ghost predicate Inv(s: State) {
    && Flow(s.pipe)
    && (forall c :: c in s.calls ==> Honest(s.pipe, c, s.calls[c]))
    && (forall c :: c in s.pipe.sent ==> c in s.calls)
    && Counted(s.calls, s.stats)
  }

  lemma {:induction false} WritesConcat(a: seq<Item>, b: seq<Item>)
    ensures Writes(a + b) == Writes(a) + Writes(b)
  {
    if a == [] {
      assert a + b == b;
    } else {
      var first := if a[0].Write? then [a[0].call] else [];
      assert (a + b)[1..] == a[1..] + b;
      WritesConcat(a[1..], b);
      assert first + (Writes(a[1..]) + Writes(b)) == first + Writes(a[1..]) + Writes(b);
    }
  }

  lemma EnqueueFlows(p: Pipe, e: Event)
    requires Flow(p) && p.open && !Full(p) && (e.Send? || e.AskControl? || e.AskHalt?)
    requires e.Send? ==> e.c !in p.sent
    ensures Flow(Flowed(p, e))
  {
    hide Writes;
    var q := Flowed(p, e);
    var item := q.queue[|p.queue|];
    var more := if e.Send? then [e.c] else [];
    WritesConcat(p.queue, [item]);
    WritesOne(item);
    assert Inside(q) == Inside(p) + more;
    assert q.answered + Inside(q) == p.answered + Inside(p) + more;
    assert q.sent == p.sent + more;
  }

  lemma TakeKeepsInside(p: Pipe)
    requires p.queue != []
    ensures Inside(Flowed(p, Take)) == Inside(p)
  {
    if p.queue[0].Write? {
      HeadMoves(p.applied, p.held, p.queue[0].call, Writes(p.queue[1..]));
    } else {
      assert [] + Writes(p.queue[1..]) == Writes(p.queue[1..]);
    }
  }

  lemma HeadMoves(a: seq<nat>, b: seq<nat>, c: nat, d: seq<nat>)
    ensures a + (b + [c]) + d == a + b + ([c] + d)
  {
  }

  lemma TakeFlows(p: Pipe)
    requires Flow(p) && p.open && p.queue != []
    ensures Flow(Flowed(p, Take))
  {
    hide Inside, Distinct;
    TakeKeepsInside(p);
  }

  lemma ApplyFlows(p: Pipe)
    requires Flow(p) && p.open && p.held != []
    ensures Flow(Flowed(p, Apply))
  {
    hide Distinct, Writes;
    var q := Flowed(p, Apply);
    assert q.applied + q.held == p.applied + p.held;
    assert q.done == q.answered + q.applied;
    assert q.sent == q.answered + (q.applied + q.held + Writes(q.queue));
    assert q.sent == q.done + (q.held + Writes(q.queue));
  }

  lemma AnswerFlows(p: Pipe, b: bool)
    requires Flow(p) && p.open && p.applied != []
    ensures Flow(Flowed(p, Answer(b)))
  {
    var q := Flowed(p, Answer(b));
    assert q.answered + q.applied == p.answered + p.applied;
    assert q.answered + Inside(q) == p.answered + Inside(p);
  }

  lemma StopFlows(p: Pipe, e: Event)
    requires Flow(p) && p.open
    requires e.Panic? || (p.held == [] && p.applied == [] && (e.Stop? || (e.Desert? && p.queue == [])))
    ensures Flow(Flowed(p, e))
  {
    assert p.sent == p.answered + Inside(p);
  }

  lemma FlowKept(s: State, e: Event)
    requires Flow(s.pipe) && Enabled(s, e) && (e.Send? ==> e.c !in s.pipe.sent)
    ensures Flow(Flowed(s.pipe, e))
  {
    hide Flow;
    match e
    case Take => TakeFlows(s.pipe);
    case Apply => ApplyFlows(s.pipe);
    case Answer(b) => AnswerFlows(s.pipe, b);
    case _ =>
      if e.Stop? || e.Desert? || e.Panic? {
        StopFlows(s.pipe, e);
      } else if e.Send? || e.AskControl? || e.AskHalt? {
        EnqueueFlows(s.pipe, e);
      }
  }

  /** The standing of a call survives what happens to others. */
  lemma OthersKeep(s: State, e: Event, c: nat, phase: Phase)
    requires Flow(s.pipe) && Enabled(s, e) && Honest(s.pipe, c, phase)
    requires AboutCall(e) ==> c != e.c
    ensures Honest(Flowed(s.pipe, e), c, phase)
  {
    hide Distinct, Writes;
    if e.Answer? {
      assert s.pipe.applied[0] == (s.pipe.answered + Inside(s.pipe))[|s.pipe.answered|];
      assert phase == Returned(Response(true)) || phase == Returned(Response(false)) ==> c in s.pipe.answered;
      AnsweredOnce(s.pipe);
    }
  }

  lemma AnsweredOnce(p: Pipe)
    requires Flow(p) && p.open && p.applied != []
    ensures p.applied[0] !in p.answered
  {
    assert p.sent[|p.answered|] == p.applied[0];
    assert forall i :: 0 <= i < |p.answered| ==> p.sent[i] == p.answered[i];
  }

  lemma OwnStanding(s: State, e: Event)
    requires Inv(s) && Enabled(s, e) && AboutCall(e)
    ensures Honest(Flowed(s.pipe, e), e.c, NewPhase(s, e))
  {
    var p := s.pipe;
    assert forall i :: 0 <= i < |p.answered| ==> p.answered[i] == p.sent[i];
    if e.Disconnect? {
      assert Honest(s.pipe, e.c, Waiting);
      assert e.c in p.answered + Inside(p) <==> e.c in p.answered || e.c in Inside(p);
    } else if !e.Call? {
      assert Honest(s.pipe, e.c, s.calls[e.c]);
    }
  }

  /** Changing the phase of one call that had not come back moves it into one class and out of none. */
  lemma Joins(calls: Calls, c: nat, phase: Phase, q: Phase)
    requires q.Returned? && (c in calls ==> !calls[c].Returned?)
    ensures |Having(calls[c := phase], q)| == |Having(calls, q)| + if q == phase then 1 else 0
  {
    assert Having(calls[c := phase], q) == Having(calls, q) + if q == phase then {c} else {};
  }

  lemma Flies(calls: Calls, c: nat, phase: Phase)
    requires if phase.Sending? then c !in calls else c in calls && !calls[c].Returned?
    ensures |InFlight(calls[c := phase])| ==
            |InFlight(calls)| + if phase.Sending? then 1 else if phase.Returned? then -1 else 0
  {
    if phase.Returned? {
      assert InFlight(calls) == InFlight(calls[c := phase]) + {c};
    } else if phase.Sending? {
      assert InFlight(calls[c := phase]) == InFlight(calls) + {c};
    } else {
      assert InFlight(calls[c := phase]) == InFlight(calls);
    }
  }

  lemma CountsKept(calls: Calls, stats: Stats, c: nat, phase: Phase)
    requires Counted(calls, stats)
    requires if phase.Sending? then c !in calls else c in calls && !calls[c].Returned?
    ensures Counted(calls[c := phase], Bump(stats, phase))
  {
    hide Having, InFlight;
    Flies(calls, c, phase);
    Joins(calls, c, phase, Returned(Response(true)));
    Joins(calls, c, phase, Returned(Response(false)));
    Joins(calls, c, phase, Returned(Overloaded));
    Joins(calls, c, phase, Returned(Closed));
  }

  lemma SentIsKnown(s: State, e: Event)
    requires Enabled(s, e) && forall c :: c in s.pipe.sent ==> c in s.calls
    ensures forall c :: c in Next(s, e).pipe.sent ==> c in Next(s, e).calls
  {
  }

  lemma InvKept(s: State, e: Event)
    requires Inv(s)
    ensures Inv(Next(s, e))
  {
    hide Flow, Counted, Flowed, Bump;
    if Enabled(s, e) {
      var t := Next(s, e);
      SentIsKnown(s, e);
      assert e.Send? ==> Honest(s.pipe, e.c, Sending);
      FlowKept(s, e);
      if AboutCall(e) {
        CountsKept(s.calls, s.stats, e.c, NewPhase(s, e));
        OwnStanding(s, e);
      }
      forall c | c in t.calls ensures Honest(t.pipe, c, t.calls[c]) {
        if !AboutCall(e) || c != e.c {
          OthersKeep(s, e, c, s.calls[c]);
        }
      }
    }
  }

  lemma {:induction false} Reachable(s: State, events: seq<Event>)
    requires Inv(s)
    ensures Inv(Run(s, events))
    decreases events
  {
    hide Inv, Next;
    if events != [] {
      InvKept(s, events[0]);
      Reachable(Next(s, events[0]), events[1..]);
    }
  }

  lemma Started(capacity: nat, policy: Policy)
    ensures Inv(Init(capacity, policy))
  {
    assert forall phase :: Having(map[], phase) == {};
    assert InFlight(map[]) == {};
  }

  // ---- Main results, over every interleaving ----

  /** `c` occurs in `log` at exactly one position. */
  ghost predicate Once(log: seq<nat>, c: nat) {
    exists i :: 0 <= i < |log| && log[i] == c && forall j :: 0 <= j < |log| && log[j] == c ==> j == i
  }

  lemma PrefixOnce(log: seq<nat>, whole: seq<nat>, c: nat)
    requires log <= whole && Distinct(whole) && c in log
    ensures Once(log, c)
  {
    var i :| 0 <= i < |log| && log[i] == c;
    assert forall j :: 0 <= j < |log| ==> log[j] == whole[j];
  }

  /** The queue never exceeds its capacity; writes are applied in the order they were enqueued, each at
      most once; replies leave in that order too. A call that got a response was applied exactly once; one
      that got Overloaded was never applied, nor one that got Closed unless the writer panicked. */
  lemma Backpressure(capacity: nat, policy: Policy, events: seq<Event>)
    ensures var s := Run(Init(capacity, policy), events);
            var p := s.pipe;
            && |p.queue| <= capacity
            && p.done <= p.sent && p.answered <= p.sent && Distinct(p.sent)
            && forall c :: c in s.calls && s.calls[c].Returned? ==>
                 match s.calls[c].verdict
                 case Response(_) => Once(p.done, c)
                 case Overloaded => c !in p.done && c !in p.sent
                 case Closed => !p.panicked ==> c !in p.done
  {
    Started(capacity, policy);
    Reachable(Init(capacity, policy), events);
    Unchanging(Init(capacity, policy), events);
    var s := Run(Init(capacity, policy), events);
    forall c | c in s.calls && s.calls[c].Returned?
      ensures match s.calls[c].verdict
              case Response(_) => Once(s.pipe.done, c)
              case Overloaded => c !in s.pipe.done && c !in s.pipe.sent
              case Closed => !s.pipe.panicked ==> c !in s.pipe.done
    {
      VerdictMeans(s, c);
    }
  }

  lemma VerdictMeans(s: State, c: nat)
    requires Inv(s) && c in s.calls && s.calls[c].Returned?
    ensures match s.calls[c].verdict
            case Response(_) => Once(s.pipe.done, c)
            case Overloaded => c !in s.pipe.done && c !in s.pipe.sent
            case Closed => !s.pipe.panicked ==> c !in s.pipe.done
  {
    hide Writes, Counted, Distinct;
    var p := s.pipe;
    assert Honest(p, c, s.calls[c]);
    assert c in p.done ==> c in p.sent by {
      assert forall i :: 0 <= i < |p.done| ==> p.done[i] == p.sent[i];
    }
    if s.calls[c].verdict.Response? {
      assert c in p.answered;
      assert forall i :: 0 <= i < |p.answered| ==> p.answered[i] == p.done[i];
      PrefixOnce(p.done, p.sent, c);
    } else if s.calls[c].verdict.Closed? && !p.panicked {
      assert p.applied == [];
    }
  }

  lemma {:induction false} Unchanging(s: State, events: seq<Event>)
    ensures Run(s, events).pipe.capacity == s.pipe.capacity
    decreases events
  {
    if events != [] {
      Unchanging(Next(s, events[0]), events[1..]);
    }
  }

  /** accepted = committed + failed + rejected + in flight in every reachable state, and each outcome
      counter is the number of calls that came back with that outcome. */
  lemma Conservation(capacity: nat, policy: Policy, events: seq<Event>)
    ensures var s := Run(Init(capacity, policy), events);
            && s.stats.accepted == s.stats.committed + s.stats.failed + s.stats.rejected + |InFlight(s.calls)|
            && s.stats.committed == |Having(s.calls, Returned(Response(true)))|
            && s.stats.failed == |Having(s.calls, Returned(Response(false)))|
            && s.stats.rejected == |Having(s.calls, Returned(Overloaded))| + |Having(s.calls, Returned(Closed))|
  {
    Started(capacity, policy);
    Reachable(Init(capacity, policy), events);
  }

  /** Under the waiting policy nobody is ever told Overloaded. */
  lemma {:induction false} WaitNeverRefuses(s: State, events: seq<Event>, c: nat)
    requires s.policy.Wait? && (c in s.calls ==> s.calls[c] != Returned(Overloaded))
    ensures c in Run(s, events).calls ==> Run(s, events).calls[c] != Returned(Overloaded)
    decreases events
  {
    hide Flowed;
    if events != [] {
      WaitNeverRefuses(Next(s, events[0]), events[1..], c);
    }
  }

  /** Under the rejecting policy every Overloaded verdict was given at one event of the run, on an open
      queue filled to its capacity, and that event enqueued nothing. */
  lemma RefusedWhenFull(capacity: nat, events: seq<Event>, c: nat) returns (k: nat)
    requires InPhase(Run(Init(capacity, Reject), events), c, Returned(Overloaded))
    ensures k < |events| && events[k] == Refuse(c)
    ensures var before := Run(Init(capacity, Reject), events[..k]);
            && InPhase(before, c, Sending) && before.pipe.open && |before.pipe.queue| == capacity
            && Run(Init(capacity, Reject), events[..k + 1]).pipe == before.pipe
  {
    hide Flow, Counted, Flowed;
    var s := Init(capacity, Reject);
    k := RefusalEvent(s, events, c);
    var before := Run(s, events[..k]);
    Started(capacity, Reject);
    Reachable(s, events[..k]);
    Unchanging(s, events[..k]);
    QueueBound(before);
    RunAppend(s, events[..k], events[k]);
    assert events[..k + 1] == events[..k] + [events[k]];
    RefuseEnqueuesNothing(before, c);
  }

  lemma QueueBound(s: State)
    requires Inv(s)
    ensures |s.pipe.queue| <= s.pipe.capacity
  {
  }

  lemma RefuseEnqueuesNothing(s: State, c: nat)
    ensures Next(s, Refuse(c)).pipe == s.pipe
  {
  }

  lemma {:induction false} RunAppend(s: State, events: seq<Event>, e: Event)
    ensures Run(s, events + [e]) == Next(Run(s, events), e)
    decreases events
  {
    hide Next;
    if events == [] {
      assert events + [e] == [e] && [e][1..] == [];
    } else {
      assert (events + [e])[1..] == events[1..] + [e];
      RunAppend(Next(s, events[0]), events[1..], e);
    }
  }

  lemma {:induction false} RefusalEvent(s: State, events: seq<Event>, c: nat) returns (k: nat)
    requires s.policy.Reject? && !InPhase(s, c, Returned(Overloaded))
    requires InPhase(Run(s, events), c, Returned(Overloaded))
    ensures k < |events| && events[k] == Refuse(c) && Enabled(Run(s, events[..k]), events[k])
    decreases events
  {
    hide Flowed;
    if InPhase(Next(s, events[0]), c, Returned(Overloaded)) {
      k := 0;
    } else {
      var later := RefusalEvent(Next(s, events[0]), events[1..], c);
      k := later + 1;
      assert events[..k][1..] == events[1..][..later];
    }
  }

  // ---- What the writer took off the queue ----

  /** The queue up to, not including, the first Shutdown. */
  function BeforeHalt(items: seq<Item>): seq<Item> {
    if items == [] || items[0].Halt? then [] else [items[0]] + BeforeHalt(items[1..])
  }

  /** The writer takes items in order and stops taking at the first Shutdown; the replies it has sent are,
      in order, for writes it has taken, and for all of them once it has left its loop. */
  ghost predicate Logged(p: Pipe) {
    && p.taken <= p.log
    && (p.open ==> p.taken + p.queue == p.log)
    && (forall i :: 0 <= i < |p.taken| - 1 ==> !p.taken[i].Halt?)
    && (p.halting <==> p.taken != [] && p.taken[|p.taken| - 1].Halt?)
    && p.answered <= Writes(p.taken)
    && (p.open ==> p.answered + p.applied + p.held == Writes(p.taken))
    && (!p.open && !p.panicked ==> p.answered == Writes(p.taken) && (p.halting || p.taken == p.log))
  }

  lemma TakeLogged(p: Pipe)
    requires Logged(p) && p.open && !p.halting && p.queue != []
    ensures Logged(Flowed(p, Take))
  {
    hide Writes;
    var q, item := Flowed(p, Take), p.queue[0];
    assert p.taken + [item] + p.queue[1..] == p.log;
    WritesConcat(p.taken, [item]);
    WritesOne(item);
    var left := p.answered + p.applied;
    assert left + (p.held + Writes([item])) == left + p.held + Writes([item]);
    assert q.held == p.held + Writes([item]);
  }

  lemma EnqueueLogged(p: Pipe, item: Item)
    requires Logged(p) && p.open
    ensures Logged(Enqueued(p, item))
  {
    hide Writes;
    assert p.taken + (p.queue + [item]) == p.log + [item];
  }

  lemma ServeLogged(p: Pipe, e: Event)
    requires Logged(p) && p.open && (e.Apply? || e.Answer?)
    requires e.Apply? ==> p.held != []
    requires e.Answer? ==> p.applied != []
    ensures Logged(Flowed(p, e))
  {
    hide Writes;
    var q := Flowed(p, e);
    assert q.answered + q.applied + q.held == p.answered + p.applied + p.held;
    assert q.answered + q.applied + q.held == q.answered + (q.applied + q.held);
  }

  lemma EndLogged(p: Pipe, e: Event)
    requires Logged(p) && p.open
    requires e.Panic? ||
             (p.held == [] && p.applied == [] && ((e.Stop? && p.halting) || (e.Desert? && p.queue == [])))
    ensures Logged(Flowed(p, e))
  {
    hide Writes;
    assert p.answered + [] + [] == p.answered && p.taken + [] == p.taken;
  }

  lemma LoggedKept(s: State, e: Event)
    requires Logged(s.pipe) && Enabled(s, e)
    ensures Logged(Flowed(s.pipe, e))
  {
    hide Logged, Writes, Inside;
    var p := s.pipe;
    match e
    case Take => TakeLogged(p);
    case Apply => ServeLogged(p, e);
    case Answer(_) => ServeLogged(p, e);
    case Stop => EndLogged(p, e);
    case Desert => EndLogged(p, e);
    case Panic => EndLogged(p, e);
    case Send(c) =>
      EnqueueLogged(p, Write(c));
      SentAside(Enqueued(p, Write(c)), p.sent + [c]);
    case AskControl => EnqueueLogged(p, Control);
    case AskHalt => EnqueueLogged(p, Halt);
    case _ =>
  }

  lemma SentAside(p: Pipe, sent: seq<nat>)
    ensures Logged(p) <==> Logged(p.(sent := sent))
  {
    hide Writes;
  }

  lemma WritesOne(item: Item)
    ensures Writes([item]) == if item.Write? then [item.call] else []
  {
    assert [item][1..] == [];
  }

  lemma {:induction false} AlwaysLogged(s: State, events: seq<Event>)
    requires Logged(s.pipe)
    ensures Logged(Run(s, events).pipe)
    decreases events
  {
    hide Logged, Flowed, Enabled;
    if events != [] {
      if Enabled(s, events[0]) {
        LoggedKept(s, events[0]);
      }
      AlwaysLogged(Next(s, events[0]), events[1..]);
    }
  }

  lemma {:induction false} HaltEnds(taken: seq<Item>, rest: seq<Item>)
    requires forall i :: 0 <= i < |taken| - 1 ==> !taken[i].Halt?
    ensures Writes(taken) <= Writes(BeforeHalt(taken + rest))
    ensures rest == [] || (taken != [] && taken[|taken| - 1].Halt?) ==>
              Writes(taken) == Writes(BeforeHalt(taken + rest))
    decreases taken
  {
    if taken != [] {
      assert (taken + rest)[1..] == taken[1..] + rest;
      if taken[0].Halt? {
        WritesOne(taken[0]);
        assert taken == [taken[0]];
      } else {
        HaltEnds(taken[1..], rest);
        assert ([taken[0]] + BeforeHalt(taken[1..] + rest))[1..] == BeforeHalt(taken[1..] + rest);
      }
    }
  }

  /** Whatever the interleaving, the replies sent are, in order, a prefix of the writes enqueued before the
      first Shutdown; once the writer has left its loop, by Shutdown or for want of senders, they are all of
      them. */
  lemma AnsweredInOrder(capacity: nat, policy: Policy, events: seq<Event>)
    ensures var p := Run(Init(capacity, policy), events).pipe;
            && p.answered <= Writes(BeforeHalt(p.log))
            && (!p.open && !p.panicked ==> p.answered == Writes(BeforeHalt(p.log)))
  {
    hide Writes, Run;
    var p := Run(Init(capacity, policy), events).pipe;
    assert Logged(Init(capacity, policy).pipe) by {
      NoWrites();
    }
    AlwaysLogged(Init(capacity, policy), events);
    assert p.log == p.taken + p.log[|p.taken|..];
    HaltEnds(p.taken, p.log[|p.taken|..]);
  }

  /** Each reply channel holds the status its reply was sent with. */
  ghost predicate Recorded(p: Pipe) {
    && |p.statuses| == |p.answered|
    && forall i :: 0 <= i < |p.answered| ==> p.answered[i] in p.replies && p.replies[p.answered[i]] == p.statuses[i]
  }

  lemma {:induction false} AlwaysRecorded(s: State, events: seq<Event>)
    requires Inv(s) && Recorded(s.pipe)
    ensures Recorded(Run(s, events).pipe)
    decreases events
  {
    hide Inv, Recorded, Flowed, Enabled;
    if events != [] {
      InvKept(s, events[0]);
      if Enabled(s, events[0]) {
        RecordedKept(s, events[0]);
      }
      AlwaysRecorded(Next(s, events[0]), events[1..]);
    }
  }

  lemma RecordedKept(s: State, e: Event)
    requires Inv(s) && Recorded(s.pipe) && Enabled(s, e)
    ensures Recorded(Flowed(s.pipe, e))
  {
    hide Flow, Counted;
    if e.Answer? {
      AnsweredOnce(s.pipe);
    }
  }

  /** A caller that came back with a response has the status its own reply was sent with. */
  lemma ResponseIsReply(capacity: nat, policy: Policy, events: seq<Event>, c: nat) returns (i: nat)
    requires var s := Run(Init(capacity, policy), events); c in s.calls && s.calls[c].Returned?
    requires Run(Init(capacity, policy), events).calls[c].verdict.Response?
    ensures var s := Run(Init(capacity, policy), events);
            && |s.pipe.statuses| == |s.pipe.answered|
            && i < |s.pipe.answered| && s.pipe.answered[i] == c
            && s.calls[c] == Returned(Response(s.pipe.statuses[i]))
            && forall j :: 0 <= j < |s.pipe.answered| && s.pipe.answered[j] == c ==> j == i
  {
    hide Run, Counted, Writes;
    var s := Run(Init(capacity, policy), events);
    Started(capacity, policy);
    Reachable(Init(capacity, policy), events);
    AlwaysRecorded(Init(capacity, policy), events);
    assert Honest(s.pipe, c, s.calls[c]);
    i :| 0 <= i < |s.pipe.answered| && s.pipe.answered[i] == c;
    assert forall j :: 0 <= j < |s.pipe.answered| ==> s.pipe.answered[j] == s.pipe.sent[j];
  }

  lemma NoWrites()
    ensures Writes([]) == []
  {
  }

  /** A call that has come back stays as it is, so each call moves exactly one outcome counter, once. */
  lemma {:induction false} VerdictsAreFinal(s: State, events: seq<Event>, c: nat)
    requires c in s.calls && s.calls[c].Returned?
    ensures c in Run(s, events).calls && Run(s, events).calls[c] == s.calls[c]
    decreases events
  {
    hide Flowed;
    if events != [] {
      VerdictsAreFinal(Next(s, events[0]), events[1..], c);
    }
  }
}

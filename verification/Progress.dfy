/** What each step of callers and writer does, in terms of the fields of the state, and that the machine
    never gets stuck: who can still get a response, exactly, and that everybody can come back. */
module Progress {
  import opened Gateway

  // ---- What each step does ----

  /** A gateway starts open, empty and idle, with the capacity and the policy it was configured with. */
  lemma Opens(capacity: nat, policy: Policy)
    ensures var s := Init(capacity, policy);
            && s.policy == policy && s.calls == map[] && s.stats == Stats(0, 0, 0, 0)
            && s.pipe.capacity == capacity && s.pipe.queue == [] && s.pipe.open && !s.pipe.halting && !s.pipe.panicked
            && s.pipe.held == [] && s.pipe.applied == [] && s.pipe.sent == [] && s.pipe.answered == []
  {
  }

  /** A request is accepted once; it starts by sending. */
  lemma CallStarts(s: State, c: nat)
    ensures var t := Next(s, Call(c));
            if c in s.calls then t == s
            else t == s.(calls := s.calls[c := Sending], stats := s.stats.(accepted := s.stats.accepted + 1))
  {
  }

  /** A sender gets a slot exactly when the channel is open and has one free, under every policy: its write
      goes to the end of the queue and it waits for the reply. */
  lemma SendTakesSlot(s: State, c: nat)
    ensures var t := Next(s, Send(c));
            if c in s.calls && s.calls[c] == Sending && s.pipe.open && |s.pipe.queue| < s.pipe.capacity then
              && t.policy == s.policy && t.stats == s.stats && t.calls == s.calls[c := Waiting]
              && t.pipe == s.pipe.(queue := s.pipe.queue + [Write(c)], log := s.pipe.log + [Write(c)],
                                   sent := s.pipe.sent + [c])
            else t == s
  {
  }

  /** A sender is turned away exactly when the queue is full and the policy is to reject, when its time has
      run out and the policy is to time out, or when the channel is closed. */
  lemma SenderTurnedAway(s: State, c: nat)
    ensures var sending := c in s.calls && s.calls[c] == Sending;
            var rejected := s.stats.(rejected := s.stats.rejected + 1);
            var over := s.(calls := s.calls[c := Returned(Overloaded)], stats := rejected);
            && Next(s, Refuse(c)) ==
               (if sending && s.pipe.open && s.policy == Reject && |s.pipe.queue| >= s.pipe.capacity then over else s)
            && Next(s, Expire(c)) == (if sending && s.policy == WaitTimeout then over else s)
            && Next(s, SendFails(c)) ==
               (if sending && !s.pipe.open then s.(calls := s.calls[c := Returned(Closed)], stats := rejected) else s)
  {
  }

  /** A waiting caller comes back with its reply exactly when it is there, and empty-handed exactly when it is
      not and its call is neither queued nor with the writer. */
  lemma WaiterComesBack(s: State, c: nat)
    ensures var waiting, p := c in s.calls && s.calls[c] == Waiting, s.pipe;
            && (if waiting && c in p.replies then
                  var counted := if p.replies[c] then s.stats.(committed := s.stats.committed + 1)
                                 else s.stats.(failed := s.stats.failed + 1);
                  Next(s, Receive(c)) == s.(calls := s.calls[c := Returned(Response(p.replies[c]))], stats := counted)
                else Next(s, Receive(c)) == s)
            && (if waiting && c !in p.replies && c !in p.applied && c !in p.held && Item.Write(c) !in p.queue then
                  Next(s, Disconnect(c)) ==
                  s.(calls := s.calls[c := Returned(Closed)], stats := s.stats.(rejected := s.stats.rejected + 1))
                else Next(s, Disconnect(c)) == s)
            && Next(s, Event.Abandon(c)) ==
               if c in s.calls && (s.calls[c] == Sending || s.calls[c] == Waiting)
               then s.(calls := s.calls[c := Abandoned]) else s
  {
    WritesHold(s.pipe.queue, c);
  }

  lemma {:induction false} WritesHold(queue: seq<Item>, c: nat)
    ensures c in Writes(queue) <==> Item.Write(c) in queue
  {
    if queue != [] {
      WritesHold(queue[1..], c);
    }
  }

  /** The writer takes the head of the queue unless it is halting; a Shutdown makes it halt. */
  lemma WriterTakes(s: State)
    ensures var p := s.pipe;
            if p.open && !p.halting && p.queue != [] then
              Next(s, Take) ==
              s.(pipe := p.(queue := p.queue[1..], taken := p.taken + [p.queue[0]], halting := p.queue[0] == Halt,
                            held := p.held + if p.queue[0].Write? then [p.queue[0].call] else []))
            else Next(s, Take) == s
  {
    assert s.pipe.held + [] == s.pipe.held;
  }

  /** It applies what it holds and answers what it has applied, in the order taken. */
  lemma WriterServes(s: State, b: bool)
    ensures var p := s.pipe;
            && Next(s, Apply) ==
               (if p.open && p.held != [] then
                  s.(pipe := p.(held := p.held[1..], applied := p.applied + [p.held[0]], done := p.done + [p.held[0]]))
                else s)
            && Next(s, Answer(b)) ==
               (if p.open && p.applied != [] then
                  s.(pipe := p.(applied := p.applied[1..], replies := p.replies[p.applied[0] := b],
                                answered := p.answered + [p.applied[0]], statuses := p.statuses + [b]))
                else s)
  {
  }

  /** It leaves when it has nothing in hand and is halting, or has an empty queue and no call to wait for. A
      panic ends it at any point and loses everything inside. */
  lemma WriterEnds(s: State)
    ensures var p := s.pipe;
            var idle := p.open && p.held == [] && p.applied == [];
            var alone := forall c :: c in s.calls ==> s.calls[c] != Sending && s.calls[c] != Waiting;
            && Next(s, Stop) == (if idle && p.halting then s.(pipe := p.(open := false, queue := [])) else s)
            && Next(s, Desert) ==
               (if idle && p.queue == [] && alone then s.(pipe := p.(open := false)) else s)
            && Next(s, Panic) ==
               (if p.open then s.(pipe := p.(open := false, panicked := true, queue := [], held := [], applied := []))
                else s)
  {
  }

  /** Commands from elsewhere take a free slot like any other. */
  lemma ControlTakesSlot(s: State)
    ensures var p := s.pipe;
            var free := p.open && |p.queue| < p.capacity;
            && Next(s, AskControl) ==
               (if free then s.(pipe := p.(queue := p.queue + [Control], log := p.log + [Control])) else s)
            && Next(s, AskHalt) ==
               (if free then s.(pipe := p.(queue := p.queue + [Halt], log := p.log + [Halt])) else s)
  {
  }

  // ---- Progress ----

  /** The write of call `c` is queued, with no Shutdown before it. */
  predicate Ahead(queue: seq<Item>, c: nat) {
    exists i :: 0 <= i < |queue| && queue[i] == Item.Write(c) && forall j :: 0 <= j < i ==> !queue[j].Halt?
  }

  /** The writer will get to call `c`: it has it already, or no Shutdown is in the way. */
  predicate WillServe(p: Pipe, c: nat) {
    && p.open
    && (c in p.applied || c in p.held ||
        (!p.halting && Ahead(p.queue, c)))
  }

  /** Call `c` can still come back with a response. */
  predicate Hopeful(s: State, c: nat) {
    && c in s.calls
    && match s.calls[c]
       case Sending => s.pipe.open && !s.pipe.halting && Halt !in s.pipe.queue && s.pipe.capacity > 0
       case Waiting => c in s.pipe.replies || WillServe(s.pipe, c)
       case _ => false
  }

  /** The steps of the writer itself and of one caller who does not give up. */
  predicate Willing(e: Event, c: nat) {
    e.Take? || e.Apply? || e.Answer? || e.Stop? || e == Send(c) || e == Receive(c) || e == SendFails(c) ||
    e == Disconnect(c)
  }

  function Work(p: Pipe): nat {
    |p.applied| + 2 * |p.held| + 3 * |p.queue|
  }

  lemma Continue(s: State, e: Event, rest: seq<Event>)
    ensures Run(s, [e] + rest) == Run(Next(s, e), rest)
  {
    assert ([e] + rest)[1..] == rest;
  }

  /** The next thing the writer does while it still has something to do. */
  function WriterNext(p: Pipe): Event {
    if p.applied != [] then Answer(true) else if p.held != [] then Apply else if p.halting then Stop else Take
  }

  lemma AheadBehindHead(queue: seq<Item>, c: nat)
    requires queue != []
    ensures Ahead(queue, c) <==> queue[0] == Item.Write(c) || (!queue[0].Halt? && Ahead(queue[1..], c))
  {
    if i :| 0 <= i < |queue| && queue[i] == Item.Write(c) && forall j :: 0 <= j < i ==> !queue[j].Halt? {
      if i > 0 {
        assert queue[1..][i - 1] == Item.Write(c) && forall j :: 0 <= j < i - 1 ==> queue[1..][j] == queue[j + 1];
        assert Ahead(queue[1..], c);
      }
    }
    if !queue[0].Halt? && Ahead(queue[1..], c) {
      var i :| 0 <= i < |queue[1..]| && queue[1..][i] == Item.Write(c) &&
               forall j :: 0 <= j < i ==> !queue[1..][j].Halt?;
      assert queue[i + 1] == Item.Write(c) && forall j :: 1 <= j < i + 1 ==> queue[j] == queue[1..][j - 1];
    }
  }

  lemma AheadWithTail(queue: seq<Item>, item: Item, c: nat)
    ensures Ahead(queue + [item], c) <==> Ahead(queue, c) || (item == Item.Write(c) && Halt !in queue)
  {
    var more := queue + [item];
    if i :| 0 <= i < |more| && more[i] == Item.Write(c) && forall j :: 0 <= j < i ==> !more[j].Halt? {
      if i < |queue| {
        assert queue[i] == Item.Write(c) && forall j :: 0 <= j < i ==> queue[j] == more[j];
        assert Ahead(queue, c);
      } else {
        assert forall j :: 0 <= j < |queue| ==> queue[j] == more[j];
      }
    }
    if i :| 0 <= i < |queue| && queue[i] == Item.Write(c) && forall j :: 0 <= j < i ==> !queue[j].Halt? {
      assert more[i] == Item.Write(c) && forall j :: 0 <= j < i ==> queue[j] == more[j];
    }
    if item == Item.Write(c) && Halt !in queue {
      assert more[|queue|] == item && forall j :: 0 <= j < |queue| ==> queue[j] == more[j];
    }
  }

  lemma WriterMoves(s: State, c: nat)
    requires s.pipe.open && (s.pipe.applied != [] || s.pipe.held != [] || (!s.pipe.halting && s.pipe.queue != []))
    ensures var p, q := s.pipe, Next(s, WriterNext(s.pipe)).pipe;
            && Next(s, WriterNext(p)).calls == s.calls && q.open && Work(q) < Work(p)
            && (c in p.replies || WillServe(p, c) ==> c in q.replies || WillServe(q, c))
            && (p.halting || Halt in p.queue ==> q.halting || Halt in q.queue)
  {
    hide Ahead;
    if s.pipe.queue != [] {
      AheadBehindHead(s.pipe.queue, c);
    }
  }

  /** A waiting call the writer will get to comes back with a response. */
  lemma {:induction false} WaiterServed(s: State, c: nat) returns (events: seq<Event>, b: bool)
    requires c in s.calls && s.calls[c] == Waiting && Hopeful(s, c)
    ensures c in Run(s, events).calls && Run(s, events).calls[c] == Returned(Response(b))
    ensures forall e :: e in events ==> Willing(e, c)
    decreases Work(s.pipe)
  {
    hide WillServe, Work, Next;
    if c in s.pipe.replies {
      events, b := [Receive(c)], s.pipe.replies[c];
      WaiterComesBack(s, c);
      assert [Receive(c)] + [] == [Receive(c)];
      Continue(s, Receive(c), []);
    } else {
      HasWork(s.pipe, c);
      WriterMoves(s, c);
      events, b := WaiterServed(Next(s, WriterNext(s.pipe)), c);
      Continue(s, WriterNext(s.pipe), events);
      events := [WriterNext(s.pipe)] + events;
    }
  }

  lemma HasWork(p: Pipe, c: nat)
    requires WillServe(p, c)
    ensures p.open && (p.applied != [] || p.held != [] || (!p.halting && p.queue != []))
  {
  }

  /** A sender the writer can still get to takes a slot, once one is free, and is served. */
  lemma SenderServed(s: State, c: nat) returns (events: seq<Event>, b: bool)
    requires c in s.calls && s.calls[c] == Sending && Hopeful(s, c) && |s.pipe.queue| <= s.pipe.capacity
    ensures c in Run(s, events).calls && Run(s, events).calls[c] == Returned(Response(b))
    ensures forall e :: e in events ==> Willing(e, c)
  {
    hide Next, Ahead;
    SendTakesSlot(s, c);
    AheadWithTail(s.pipe.queue, Item.Write(c), c);
    if |s.pipe.queue| < s.pipe.capacity {
      events, b := WaiterServed(Next(s, Send(c)), c);
      Continue(s, Send(c), events);
      events := [Send(c)] + events;
    } else {
      WriterTakes(s);
      var t := Next(s, Take);
      assert s.pipe.queue[0] in s.pipe.queue && forall x :: x in s.pipe.queue[1..] ==> x in s.pipe.queue;
      SendTakesSlot(t, c);
      AheadWithTail(t.pipe.queue, Item.Write(c), c);
      events, b := WaiterServed(Next(t, Send(c)), c);
      Continue(t, Send(c), events);
      Continue(s, Take, [Send(c)] + events);
      events := [Take] + ([Send(c)] + events);
    }
  }

  /** Call `c` has no response and will never get one. */
  ghost predicate Hopeless(s: State, c: nat) {
    c in s.calls && !Hopeful(s, c) && (s.calls[c].Returned? ==> !s.calls[c].verdict.Response?)
  }

  lemma HopelessWaiter(s: State, e: Event, c: nat)
    requires Inv(s) && c in s.calls && s.calls[c] == Waiting && Hopeless(s, c) && Enabled(s, e)
    requires AboutCall(e) ==> e.c != c
    ensures Hopeless(Next(s, e), c)
  {
    hide Inv, Writes, Ahead;
    var p := s.pipe;
    if p.queue != [] {
      AheadBehindHead(p.queue, c);
    }
    if e.Send? || e.AskControl? || e.AskHalt? {
      var item := Flowed(p, e).queue[|p.queue|];
      AheadWithTail(p.queue, item, c);
    }
  }

  lemma HopelessSender(s: State, e: Event, c: nat)
    requires Inv(s) && c in s.calls && s.calls[c] == Sending && Hopeless(s, c) && Enabled(s, e)
    ensures Hopeless(Next(s, e), c)
  {
    hide Inv, WillServe, Flowed;
    if e == Send(c) {
      HopelessSend(s, c);
    } else {
      RoomStaysGone(s, e);
    }
  }

  predicate Welcoming(p: Pipe) {
    p.open && !p.halting && Halt !in p.queue && p.capacity > 0
  }

  lemma RoomStaysGone(s: State, e: Event)
    requires Enabled(s, e) && !Welcoming(s.pipe)
    ensures !Welcoming(Flowed(s.pipe, e))
  {
    var p := s.pipe;
    if p.queue != [] {
      assert p.queue == [p.queue[0]] + p.queue[1..];
    }
  }

  lemma HopelessSend(s: State, c: nat)
    requires Inv(s) && c in s.calls && s.calls[c] == Sending && Hopeless(s, c) && Enabled(s, Send(c))
    ensures Hopeless(Next(s, Send(c)), c)
  {
    hide Flow, Counted, Ahead;
    assert Honest(s.pipe, c, Sending);
    NotInside(s.pipe, c);
    AheadWithTail(s.pipe.queue, Item.Write(c), c);
  }

  /** A call that was never enqueued is nowhere inside. */
  lemma NotInside(p: Pipe, c: nat)
    requires Flow(p) && c !in p.sent
    ensures c !in p.replies && c !in p.applied && c !in p.held && !Ahead(p.queue, c)
  {
    var all := p.answered + Inside(p);
    assert forall i :: 0 <= i < |all| ==> all[i] == p.sent[i];
    assert c !in all;
    WritesHold(p.queue, c);
  }

  lemma HopelessStays(s: State, e: Event, c: nat)
    requires Inv(s) && Hopeless(s, c)
    ensures Hopeless(Next(s, e), c)
  {
    hide Inv, Flowed, Hopeful;
    if Enabled(s, e) {
      match s.calls[c]
      case Sending => HopelessSender(s, e, c);
      case Waiting =>
        if AboutCall(e) && e.c == c {
          WaiterLeaves(s, e);
        } else {
          HopelessWaiter(s, e, c);
        }
      case _ => OverIsOver(s, e, c);
    }
  }

  lemma WaiterLeaves(s: State, e: Event)
    requires Enabled(s, e) && AboutCall(e) && InPhase(s, e.c, Waiting) && Hopeless(s, e.c)
    ensures Hopeless(Next(s, e), e.c)
  {
    hide WillServe;
  }

  lemma OverIsOver(s: State, e: Event, c: nat)
    requires Enabled(s, e) && Hopeless(s, c) && (s.calls[c].Returned? || s.calls[c].Abandoned?)
    ensures Hopeless(Next(s, e), c)
  {
    hide WillServe, Flowed;
  }

  lemma {:induction false} NeverServed(s: State, events: seq<Event>, c: nat)
    requires Inv(s) && Hopeless(s, c)
    ensures Hopeless(Run(s, events), c)
    decreases events
  {
    hide Inv, Hopeless, Next;
    if events != [] {
      HopelessStays(s, events[0], c);
      InvKept(s, events[0]);
      NeverServed(Next(s, events[0]), events[1..], c);
    }
  }

  predicate Responded(s: State, c: nat) {
    c in s.calls && s.calls[c].Returned? && s.calls[c].verdict.Response?
  }

  /** From any reachable state: a call in progress can still get a response if and only if the reply is there,
      the writer has the call in hand, its write is queued with no Shutdown before it, or it is a sender, the
      channel is open and has room for anything at all, and no Shutdown is queued or taken. */
  lemma ResponseIff(capacity: nat, policy: Policy, before: seq<Event>, c: nat)
    requires var s := Run(Init(capacity, policy), before);
             c in s.calls && (s.calls[c] == Sending || s.calls[c] == Waiting)
    ensures var s := Run(Init(capacity, policy), before);
            Hopeful(s, c) <==> exists events :: Responded(Run(s, events), c)
  {
    hide Inv, Hopeful, Run;
    var s := Run(Init(capacity, policy), before);
    Started(capacity, policy);
    Reachable(Init(capacity, policy), before);
    QueueBound(s);
    if Hopeful(s, c) {
      var events, b;
      if s.calls[c] == Sending {
        events, b := SenderServed(s, c);
      } else {
        events, b := WaiterServed(s, c);
      }
      assert Responded(Run(s, events), c);
    } else {
      forall events ensures !Responded(Run(s, events), c) {
        NeverServed(s, events, c);
      }
    }
  }

  /** With an open channel of any capacity and no Shutdown in sight every call in progress can get a response. */
  lemma OpenIsHopeful(s: State, c: nat)
    requires Inv(s) && c in s.calls && (s.calls[c] == Sending || s.calls[c] == Waiting)
    requires s.pipe.open && !s.pipe.halting && Halt !in s.pipe.queue && s.pipe.capacity > 0
    ensures Hopeful(s, c)
  {
    hide Counted;
    var p := s.pipe;
    assert Honest(p, c, s.calls[c]);
    if s.calls[c] == Waiting {
      assert c in p.answered + Inside(p);
      WritesHold(p.queue, c);
      if c in Writes(p.queue) {
        var i :| 0 <= i < |p.queue| && p.queue[i] == Item.Write(c);
        assert Ahead(p.queue, c);
      }
    }
  }

  /** A writer that is halting, or has a Shutdown in its queue, works off what it has to and stops. */
  lemma {:induction false} Drains(s: State, c: nat) returns (events: seq<Event>)
    requires s.pipe.open && (s.pipe.halting || Halt in s.pipe.queue)
    ensures !Run(s, events).pipe.open && Run(s, events).calls == s.calls
    ensures forall e :: e in events ==> Willing(e, c)
    decreases Work(s.pipe)
  {
    hide WillServe, Work, Next;
    var e := WriterNext(s.pipe);
    if e.Stop? {
      WriterEnds(s);
      assert [e] + [] == [e];
      Continue(s, e, []);
      events := [e];
    } else {
      WriterMoves(s, c);
      events := Drains(Next(s, e), c);
      Continue(s, e, events);
      events := [e] + events;
    }
  }

  lemma {:induction false} RunConcat(s: State, a: seq<Event>, b: seq<Event>)
    ensures Run(s, a + b) == Run(Run(s, a), b)
    decreases a
  {
    hide Next;
    if a == [] {
      assert a + b == b;
    } else {
      assert (a + b)[1..] == a[1..] + b;
      RunConcat(Next(s, a[0]), a[1..], b);
    }
  }

  /** Nobody gets stuck: from every reachable state the writer's own steps and the caller's bring any call in
      progress back, with a response if it can still have one, and with Closed if not. No step of the way is
      a panic, a timeout, a refusal or somebody else's. */
  lemma EverybodyComesBack(capacity: nat, policy: Policy, before: seq<Event>, c: nat) returns (events: seq<Event>)
    requires capacity > 0
    requires var s := Run(Init(capacity, policy), before);
             c in s.calls && (s.calls[c] == Sending || s.calls[c] == Waiting)
    ensures forall e :: e in events ==> Willing(e, c)
    ensures var s := Run(Init(capacity, policy), before);
            var t := Run(s, events);
            && c in t.calls && t.calls[c].Returned?
            && if Hopeful(s, c) then t.calls[c].verdict.Response? else t.calls[c].verdict == Closed
  {
    hide Inv, Hopeful, Run, Next;
    var s := Run(Init(capacity, policy), before);
    Started(capacity, policy);
    Reachable(Init(capacity, policy), before);
    Unchanging(Init(capacity, policy), before);
    QueueBound(s);
    if Hopeful(s, c) {
      var b;
      if s.calls[c] == Sending {
        events, b := SenderServed(s, c);
      } else {
        events, b := WaiterServed(s, c);
      }
    } else {
      var drained := [];
      var t := s;
      RunNothing(s);
      if s.pipe.open {
        Doomed(s, c);
        drained := Drains(s, c);
        t := Run(s, drained);
      }
      Reachable(s, drained);
      NeverServed(s, drained, c) by {
        assert Hopeless(s, c);
      }
      var last := ComesBackClosed(t, c);
      RunConcat(s, drained, [last]);
      events := drained + [last];
    }
  }

  lemma RunNothing(s: State)
    ensures Run(s, []) == s
  {
  }

  lemma Doomed(s: State, c: nat)
    requires Inv(s) && c in s.calls && (s.calls[c] == Sending || s.calls[c] == Waiting)
    requires !Hopeful(s, c) && s.pipe.open && s.pipe.capacity > 0
    ensures s.pipe.halting || Halt in s.pipe.queue
  {
    hide Inv, Hopeful;
    if !s.pipe.halting && Halt !in s.pipe.queue {
      OpenIsHopeful(s, c);
    }
  }

  lemma ComesBackClosed(s: State, c: nat) returns (e: Event)
    requires Inv(s) && !s.pipe.open && Hopeless(s, c) && (s.calls[c] == Sending || s.calls[c] == Waiting)
    ensures Willing(e, c) && c in Run(s, [e]).calls && Run(s, [e]).calls[c] == Returned(Closed)
  {
    hide Next, Counted;
    e := if s.calls[c] == Sending then SendFails(c) else Disconnect(c);
    assert [e] + [] == [e];
    Continue(s, e, []);
    SenderTurnedAway(s, c);
    WaiterComesBack(s, c);
    assert Inside(s.pipe) == [];
    WritesHold(s.pipe.queue, c);
  }
}

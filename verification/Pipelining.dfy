/** A pipelining client and the sidecar on one connection, as interleaved steps on character streams. */
module Pipelining {
  import opened Basics
  import opened Lines
  import opened Rpc
  import opened Clients
  import opened Sidecar

  /** `pending` is the reply the server has computed and not written yet; `oversize` records that the
      client has submitted a line over the cap. The last four fields are a record of the connection:
      everything the client wrote, the lines the server has read and the worlds it dispatched them in, and
      everything the server wrote. */
  datatype Link = Link(
    client: Client,
    counter: nat,
    toServer: string,
    pending: Option<string>,
    toClient: string,
    closed: bool,
    oversize: bool,
    submitted: string,
    read: seq<string>,
    worlds: seq<World>,
    written: string)

  datatype Move =
    | Submit(verb: string, params: Option<Json>) // the client sends one more request
    | Read(world: World)                         // the server reads and dispatches a line
    | Write                                      // the server writes the reply
    | Deliver(n: nat)                            // up to n characters reach the client as one chunk

  function Start(): Link {
    Link(Client("", [], []), 0, "", None, "", false, false, "", [], [], "")
  }

  function Request(id: nat, verb: string, params: Option<Json>): Json {
    var base := map["jsonrpc" := Str("2.0"), "id" := Num(id), "method" := Str(verb)];
    Obj(if params.None? then base else base["params" := params.value])
  }

  predicate Fits(line: string) {
    !TooBig(line + "\n")
  }

  function Step(codec: Codec, l: Link, m: Move): Link {
    match m
    case Submit(verb, params) =>
      var id := l.counter + 1;
      var line := codec.show(Request(id, verb, params));
      l.(client := l.client.(waiters := l.client.waiters + [id]), counter := id,
         toServer := l.toServer + line + ['\n'], submitted := l.submitted + line + ['\n'],
         oversize := l.oversize || !Fits(line))
    case Read(world) =>
      var i := IndexOf(l.toServer, '\n');
      if l.closed || l.pending.Some? || i < 0 then l
      else
        var line := l.toServer[..i];
        l.(toServer := l.toServer[i + 1..], pending := Some(ReplyTo(codec, line + "\n", world)),
           closed := !Fits(line), read := l.read + [line], worlds := l.worlds + [world])
    case Write =>
      if l.pending.None? then l
      else
        l.(toClient := l.toClient + l.pending.value + ['\n'], written := l.written + (l.pending.value + ['\n']),
           pending := None)
    case Deliver(n) =>
      var k := Min(n, |l.toClient|);
      l.(client := Feed(codec, l.client, l.toClient[..k]), toClient := l.toClient[k..])
  }

  function Run(codec: Codec, l: Link, moves: seq<Move>): Link
    decreases moves
  {
    if moves == [] then l else Run(codec, Step(codec, l, moves[0]), moves[1..])
  }

  // ---- The server's side of the connection is one conversation of the sidecar ----

  /** The replies to lines read so far, each dispatched in its own world. */
  function Answers(codec: Codec, lines: seq<string>, worlds: seq<World>): seq<string>
    requires |lines| == |worlds|
  {
    seq(|lines|, i requires 0 <= i < |lines| => ReplyTo(codec, lines[i] + "\n", worlds[i]))
  }

  /** What was read is a prefix of what was submitted, and what was written are the replies to it. */
  ghost predicate Served(codec: Codec, l: Link) {
    && |l.worlds| == |l.read|
    && Frame(l.toServer, '\n').tail == []
    && Frame(l.submitted, '\n') == Framed(l.read + Frame(l.toServer, '\n').lines, [])
    && (forall i :: 0 <= i < |l.read| ==> (Fits(l.read[i]) <==> !(l.closed && i == |l.read| - 1)))
    && (l.closed ==> l.read != [])
    && l.written + (if l.pending.Some? then l.pending.value + ['\n'] else []) ==
       Unframe(Answers(codec, l.read, l.worlds), '\n')
  }

  lemma SubmitServed(codec: Codec, l: Link, verb: string, params: Option<Json>)
    requires OneLineCodec(codec) && Served(codec, l)
    ensures Served(codec, Step(codec, l, Submit(verb, params)))
  {
    hide Frame, Fits, Unframe, Answers;
    var line := codec.show(Request(l.counter + 1, verb, params));
    var lines := Frame(l.toServer, '\n').lines;
    FrameAppend(l.toServer, line, '\n');
    FrameAppend(l.submitted, line, '\n');
    Associates(l.read, lines, [line]);
  }

  lemma ReadServed(codec: Codec, l: Link, w: World)
    requires Served(codec, l)
    ensures Served(codec, Step(codec, l, Read(w)))
  {
    hide Frame, Fits, Unframe, IndexOf, ReplyTo;
    var i := IndexOf(l.toServer, '\n');
    if !l.closed && l.pending.None? && i >= 0 {
      var line, lines := l.toServer[..i], Frame(l.toServer, '\n').lines;
      var reply := ReplyTo(codec, line + "\n", w);
      FrameFirst(l.toServer, '\n');
      assert l.read + lines == l.read + [line] + lines[1..];
      assert Answers(codec, l.read + [line], l.worlds + [w]) == Answers(codec, l.read, l.worlds) + [reply];
      UnframeAppend(Answers(codec, l.read, l.worlds), reply, '\n');
      assert l.written + [] == l.written;
    }
  }

  lemma WriteServed(codec: Codec, l: Link)
    requires Served(codec, l)
    ensures Served(codec, Step(codec, l, Write))
  {
    hide Frame, Fits, Unframe, Answers;
    var t := Step(codec, l, Write);
    assert t.written + [] == t.written;
  }

  lemma DeliverServed(codec: Codec, l: Link, n: nat)
    requires Served(codec, l)
    ensures Served(codec, Step(codec, l, Deliver(n)))
  {
    hide Frame, Fits, Unframe, Answers, Feed;
  }

  lemma StartServed(codec: Codec)
    ensures Served(codec, Start())
  {
    hide Frame;
    FrameNone<char>([], '\n');
    UnframeNil('\n');
  }

  // ---- The client's side: the k-th waiter gets the reply to the k-th line ----

  function IdIn(codec: Codec, line: string): Option<int> {
    var j := codec.parse(line);
    if j.Some? && IdOf(j.value).Num? then Some(IdOf(j.value).n) else None
  }

  function Ids(codec: Codec, lines: seq<string>): seq<Option<int>> {
    seq(|lines|, i requires 0 <= i < |lines| => IdIn(codec, lines[i]))
  }

  function PendingLine(l: Link): seq<string> {
    if l.pending.Some? then [l.pending.value] else []
  }

  /** Ids in everything on its way back to the client, then in dispatch, then on its way to the server. */
  function InTransit(codec: Codec, l: Link): seq<Option<int>> {
    Ids(codec, Frame(l.client.buf + l.toClient, '\n').lines + PendingLine(l) + Frame(l.toServer, '\n').lines)
  }

  /** The ids of the waiters, oldest first. */
  function Awaited(c: Client): seq<Option<int>> {
    seq(|c.waiters|, i requires 0 <= i < |c.waiters| => Some(c.waiters[i] as int))
  }

  /** The client printed this line for request `id`. */
  ghost predicate Printed(codec: Codec, line: string, id: nat) {
    exists verb, params :: line == codec.show(Request(id, verb, params))
  }

  /** The k-th line the client wrote is its k-th request. */
  ghost predicate Submitted(codec: Codec, l: Link) {
    var lines := Frame(l.submitted, '\n').lines;
    && |lines| == l.counter
    && (forall k :: 0 <= k < |lines| ==> Printed(codec, lines[k], k + 1))
    && (!l.oversize ==> forall k :: 0 <= k < |lines| ==> Fits(lines[k]))
  }

  /** Waiters are the ids not settled yet, in order. */
  predicate Queued(c: Client, counter: nat) {
    && |c.settled| + |c.waiters| == counter
    && (forall k :: 0 <= k < |c.waiters| ==> c.waiters[k] == |c.settled| + k + 1)
    && (forall k :: 0 <= k < |c.settled| ==> c.settled[k].id == k + 1)
  }

  /** The replies computed so far are those the client has received, those under way and the pending one. */
  ghost predicate Returned(codec: Codec, l: Link)
    requires |l.read| == |l.worlds|
  {
    var answers, back := Answers(codec, l.read, l.worlds), Frame(l.client.buf + l.toClient, '\n');
    && back.tail == [] && |l.client.settled| <= |answers|
    && answers[|l.client.settled|..] == back.lines + PendingLine(l)
    && forall k :: 0 <= k < |l.client.settled| ==> l.client.settled[k].reply == codec.parse(answers[k])
  }

  ghost predicate Inv(codec: Codec, l: Link) {
    Served(codec, l) && Submitted(codec, l) && Queued(l.client, l.counter) && Returned(codec, l)
  }

  lemma SubmitKeeps(codec: Codec, l: Link, verb: string, params: Option<Json>)
    requires OneLineCodec(codec) && Inv(codec, l)
    ensures Inv(codec, Step(codec, l, Submit(verb, params)))
  {
    hide Frame, TooBig, Answers, Unframe;
    var line := codec.show(Request(l.counter + 1, verb, params));
    SubmitServed(codec, l, verb, params);
    FrameAppend(l.submitted, line, '\n');
    assert Printed(codec, line, l.counter + 1);
  }

  lemma ReadKeeps(codec: Codec, l: Link, w: World)
    requires Inv(codec, l)
    ensures Inv(codec, Step(codec, l, Read(w)))
  {
    hide Frame, TooBig, Unframe, IndexOf, ReplyTo, Submitted, Queued, Served;
    ServedLengths(codec, l);
    ReadServed(codec, l, w);
    var t := Step(codec, l, Read(w));
    assert Submitted(codec, t) == Submitted(codec, l) by {
      SameSubmitted(codec, l, t);
    }
    if t != l {
      var n := |l.client.settled|;
      var reply := t.pending.value;
      var answers, more := Answers(codec, l.read, l.worlds), Answers(codec, t.read, t.worlds);
      assert more == answers + [reply];
      assert more[n..] == answers[n..] + [reply];
    }
  }

  lemma ServedLengths(codec: Codec, l: Link)
    requires Served(codec, l)
    ensures |l.read| == |l.worlds| <= |Frame(l.submitted, '\n').lines|
    ensures l.read <= Frame(l.submitted, '\n').lines
  {
    hide Frame, Fits, Unframe, Answers;
  }

  lemma SameSubmitted(codec: Codec, l: Link, t: Link)
    requires t.submitted == l.submitted && t.counter == l.counter && t.oversize == l.oversize
    ensures Submitted(codec, t) <==> Submitted(codec, l)
  {
    hide Frame, Fits, Printed;
  }

  lemma WriteKeeps(codec: Codec, l: Link)
    requires OneLineCodec(codec) && Inv(codec, l)
    ensures Inv(codec, Step(codec, l, Write))
  {
    hide Frame, TooBig, Unframe, IndexOf, ReplyTo, Submitted, Queued, Served, OneLineCodec;
    ServedLengths(codec, l);
    WriteServed(codec, l);
    var t := Step(codec, l, Write);
    SameSubmitted(codec, l, t);
    if l.pending.Some? {
      var line, back := l.pending.value, l.client.buf + l.toClient;
      var lines, n := Frame(back, '\n').lines, |l.read| - 1;
      assert (lines + [line])[|lines|] == line;
      ReplyOnWire(codec, l.read[n] + "\n", l.worlds[n]);
      FrameAppend(back, line, '\n');
      assert t.client.buf + t.toClient == back + line + ['\n'];
      assert lines + [line] + [] == lines + [line];
    }
  }

  lemma DeliverKeeps(codec: Codec, l: Link, n: nat)
    requires Inv(codec, l)
    ensures Inv(codec, Step(codec, l, Deliver(n)))
  {
    hide Frame, TooBig, Unframe, ReplyTo, Submitted, Served, Hand;
    ServedLengths(codec, l);
    DeliverServed(codec, l, n);
    var t := Step(codec, l, Deliver(n));
    SameSubmitted(codec, l, t);
    EachSubmitted(codec, l);
    assert |Answers(codec, l.read, l.worlds)| == |l.read|;
    var k := Min(n, |l.toClient|);
    var a, b := l.toClient[..k], l.toClient[k..];
    var got := Frame(l.client.buf + a, '\n');
    HandKeepsBuffer(codec, l.client.(buf := got.tail), got.tail, got.lines);
    FrameConcat(l.client.buf + a, b, '\n');
    assert l.client.buf + a + b == l.client.buf + l.toClient;
    var later := Frame(got.tail + b, '\n').lines;
    Associates(got.lines, later, PendingLine(l));
    HandSettles(codec, l.client.(buf := got.tail), l.counter, got.lines, Answers(codec, l.read, l.worlds),
                later + PendingLine(l));
  }

  lemma EachSubmitted(codec: Codec, l: Link)
    requires Submitted(codec, l)
    ensures |Frame(l.submitted, '\n').lines| == l.counter
  {
  }

  /** Lines that continue what was settled go to the waiters whose replies they are. */
  lemma HandSettles(codec: Codec, c: Client, counter: nat, lines: seq<string>, answers: seq<string>, rest: seq<string>)
    requires Queued(c, counter) && |c.settled| <= |answers| <= counter
    requires answers[|c.settled|..] == lines + rest
    requires forall k :: 0 <= k < |c.settled| ==> c.settled[k].reply == codec.parse(answers[k])
    ensures var d := Hand(codec, c, lines);
            && Queued(d, counter) && |d.settled| == |c.settled| + |lines| <= |answers|
            && answers[|d.settled|..] == rest
            && forall k :: 0 <= k < |d.settled| ==> d.settled[k].reply == codec.parse(answers[k])
  {
    var n, d := |c.settled|, Hand(codec, c, lines);
    assert |answers[n..]| == |lines| + |rest|;
    assert answers[n + |lines|..] == answers[n..][|lines|..] == rest;
    forall k | n <= k < n + |lines| ensures d.settled[k].reply == codec.parse(answers[k]) && d.settled[k].id == k + 1 {
      assert answers[n..][k - n] == lines[k - n];
    }
  }

  lemma {:induction false} AlwaysMatched(codec: Codec, l: Link, moves: seq<Move>)
    requires OneLineCodec(codec) && Inv(codec, l)
    ensures Inv(codec, Run(codec, l, moves))
    decreases moves
  {
    hide Inv, Step, OneLineCodec;
    if moves != [] {
      match moves[0] {
        case Submit(verb, params) => SubmitKeeps(codec, l, verb, params);
        case Read(w) => ReadKeeps(codec, l, w);
        case Write => WriteKeeps(codec, l);
        case Deliver(n) => DeliverKeeps(codec, l, n);
      }
      AlwaysMatched(codec, Step(codec, l, moves[0]), moves[1..]);
    }
  }

  lemma StartMatched(codec: Codec)
    ensures Inv(codec, Start())
  {
    FrameNone<char>([], '\n');
    assert Start().client.buf + Start().toClient == [];
    StartServed(codec);
  }

  /** How a waiter was settled: with the reply to its line, which carries its id if the line fits. */
  predicate SettledBy(codec: Codec, s: Settled, id: nat, line: string, w: World) {
    && s.id == id && s.reply == codec.parse(ReplyTo(codec, line + "\n", w))
    && s.reply.Some? && IdOf(s.reply.value) == if Fits(line) then Num(id) else Null
  }

  /** Every waiter settled so far, in order, has the reply to its own line; a line over the cap was the last. */
  predicate Settling(codec: Codec, l: Link) {
    var c, lines := l.client, Frame(l.submitted, '\n').lines;
    && Queued(c, l.counter) && |lines| == l.counter && |c.settled| <= |l.worlds|
    && forall k :: 0 <= k < |c.settled| ==>
         SettledBy(codec, c.settled[k], k + 1, lines[k], l.worlds[k]) && (!Fits(lines[k]) ==> k == |c.settled| - 1)
  }

  lemma ReplyCarriesId(codec: Codec, line: string, id: nat, w: World)
    requires OneLineCodec(codec) && Printed(codec, line, id)
    ensures var reply := codec.parse(ReplyTo(codec, line + "\n", w));
            reply.Some? && IdOf(reply.value) == if Fits(line) then Num(id) else Null
  {
    hide Dispatch, TooBig, ReplyTo, Trimmed, Request, Decode, IdOf;
    var verb, params :| line == codec.show(Request(id, verb, params));
    TrimmedLine(line);
    RequestDecodes(id, verb, params);
    ReplyOnWire(codec, line + "\n", w);
    if !Fits(line) {
      LongReply(codec, line + "\n", w);
    }
  }

  lemma PrintedId(codec: Codec, line: string, id: nat)
    requires OneLineCodec(codec) && Printed(codec, line, id)
    ensures IdIn(codec, line) == Some(id)
  {
  }

  /** The dispatcher reads from a request of the client its id, its method and its parameters. */
  lemma RequestDecodes(id: nat, verb: string, params: Option<Json>)
    ensures IdOf(Request(id, verb, params)) == Num(id)
    ensures Decode(Request(id, verb, params)) ==
            Some(RawRequest(Some("2.0"), Num(id), Some(verb), if params.Some? then params.value else Null))
  {
  }

  lemma LongReply(codec: Codec, raw: string, w: World)
    requires OneLineCodec(codec) && TooBig(raw)
    ensures codec.parse(ReplyTo(codec, raw, w)).Some? && IdOf(codec.parse(ReplyTo(codec, raw, w)).value) == Null
  {
    hide Dispatch, Utf8Size;
  }

  lemma TrimmedLine(line: string)
    ensures Trimmed(line + "\n") == line
  {
  }

  lemma InvSettles(codec: Codec, l: Link)
    requires OneLineCodec(codec) && Inv(codec, l)
    ensures Settling(codec, l)
  {
    hide Frame, TooBig, Unframe, ReplyTo, OneLineCodec, Printed, Queued;
    var lines := Frame(l.submitted, '\n').lines;
    ServedLengths(codec, l);
    forall k | 0 <= k < |l.client.settled|
      ensures SettledBy(codec, l.client.settled[k], k + 1, lines[k], l.worlds[k])
      ensures !Fits(lines[k]) ==> k == |l.client.settled| - 1
    {
      assert lines[k] == l.read[k];
      ReplyCarriesId(codec, lines[k], k + 1, l.worlds[k]);
      QueuedIds(l.client, l.counter, k);
    }
  }

  lemma QueuedIds(c: Client, counter: nat, k: nat)
    requires Queued(c, counter) && k < |c.settled|
    ensures c.settled[k].id == k + 1
  {
  }

  /** While every line fits, the ids in transit are those of the waiters, in order. */
  lemma InvAwaits(codec: Codec, l: Link)
    requires OneLineCodec(codec) && Inv(codec, l) && !l.oversize
    ensures InTransit(codec, l) == Awaited(l.client)
  {
    hide Frame, TooBig, Unframe, ReplyTo, OneLineCodec, Printed;
    var n, answers := |l.client.settled|, Answers(codec, l.read, l.worlds);
    var lines, left := Frame(l.submitted, '\n').lines, Frame(l.toServer, '\n').lines;
    ServedLengths(codec, l);
    var flight := answers[n..] + left;
    forall k | 0 <= k < |flight| ensures IdIn(codec, flight[k]) == Some(n + k + 1) {
      if n + k < |answers| {
        assert flight[k] == answers[n + k] && lines[n + k] == l.read[n + k];
        ReplyCarriesId(codec, lines[n + k], n + k + 1, l.worlds[n + k]);
      } else {
        assert flight[k] == lines[n + k];
        PrintedId(codec, lines[n + k], n + k + 1);
      }
    }
    assert Frame(l.client.buf + l.toClient, '\n').lines + PendingLine(l) + left == flight;
  }

  /** However requests, dispatches, writes and chunks interleave, the k-th waiter is settled with the reply
      to the k-th line, under its own id if that line is within the cap; a longer line gets a null id, and
      no later waiter is ever settled. While no submitted line is over the cap, the ids in received, sent,
      in-dispatch and unread data are the remaining waiters' ids, in order. */
  lemma RepliesMatchWaiters(codec: Codec, moves: seq<Move>)
    requires OneLineCodec(codec)
    ensures var l := Run(codec, Start(), moves);
            Settling(codec, l) && (!l.oversize ==> InTransit(codec, l) == Awaited(l.client))
  {
    hide Inv, Run, Settling, InTransit, OneLineCodec;
    var l := Run(codec, Start(), moves);
    StartMatched(codec);
    AlwaysMatched(codec, Start(), moves);
    InvSettles(codec, l);
    if !l.oversize {
      InvAwaits(codec, l);
    }
  }

  // ---- Progress ----

  /** A step of the server, or one that brings what it wrote to the client. */
  predicate Serving(m: Move) {
    m.Read? || m.Write? || m.Deliver?
  }

  lemma Continue(codec: Codec, l: Link, m: Move, rest: seq<Move>)
    ensures Run(codec, l, [m] + rest) == Run(codec, Step(codec, l, m), rest)
  {
    assert ([m] + rest)[1..] == rest;
  }

  /** The server can always work off what it has been sent: all of it, or up to the first line over the cap. */
  lemma {:induction false} ServerCatchesUp(codec: Codec, l: Link, w: World) returns (moves: seq<Move>)
    requires OneLineCodec(codec) && Inv(codec, l)
    ensures forall m :: m in moves ==> Serving(m)
    ensures var t := Run(codec, l, moves);
            Inv(codec, t) && t.pending.None? && t.counter == l.counter && t.submitted == l.submitted &&
            (t.closed || '\n' !in t.toServer)
    decreases |l.toServer|, l.pending.Some?
  {
    hide Inv, ReplyTo, TooBig, OneLineCodec, Feed, IndexOf;
    var move := if l.pending.Some? then Write else Read(w);
    if l.pending.Some? || (!l.closed && '\n' in l.toServer) {
      if l.pending.Some? {
        WriteKeeps(codec, l);
      } else {
        ReadKeeps(codec, l, w);
      }
      moves := ServerCatchesUp(codec, Step(codec, l, move), w);
      Continue(codec, l, move, moves);
      moves := [move] + moves;
    } else {
      moves := [];
    }
  }

  /** Nobody waits in vain: from every reachable state the steps of the server and of the network settle the
      waiter of every line sent, or of every line up to the first one over the cap. */
  lemma WaitersGetSettled(codec: Codec, before: seq<Move>, w: World) returns (moves: seq<Move>)
    requires OneLineCodec(codec)
    ensures forall m :: m in moves ==> Serving(m)
    ensures var t := Run(codec, Run(codec, Start(), before), moves);
            var lines := Frame(t.submitted, '\n').lines;
            && t.counter == Run(codec, Start(), before).counter == |lines| && Settling(codec, t)
            && (t.client.waiters == [] || (t.client.settled != [] && !Fits(lines[|t.client.settled| - 1])))
  {
    hide Inv, Run, Step, OneLineCodec, Settling;
    var l := Run(codec, Start(), before);
    StartMatched(codec);
    AlwaysMatched(codec, Start(), before);
    moves := ServerCatchesUp(codec, l, w);
    var s := Run(codec, l, moves);
    var last := Deliver(|s.toClient|);
    DeliverKeeps(codec, s, |s.toClient|);
    AppendMove(codec, l, moves, last);
    InvSettles(codec, Step(codec, s, last));
    AllDelivered(codec, s);
    moves := moves + [last];
  }

  lemma {:induction false} AppendMove(codec: Codec, l: Link, moves: seq<Move>, m: Move)
    ensures Run(codec, l, moves + [m]) == Step(codec, Run(codec, l, moves), m)
    decreases moves
  {
    hide Step;
    if moves == [] {
      assert moves + [m] == [m] && [m][1..] == [];
    } else {
      assert (moves + [m])[1..] == moves[1..] + [m];
      AppendMove(codec, Step(codec, l, moves[0]), moves[1..], m);
    }
  }

  /** Once everything written has arrived, everything read has been settled. */
  lemma AllDelivered(codec: Codec, s: Link)
    requires Inv(codec, s) && s.pending.None? && (s.closed || '\n' !in s.toServer)
    requires Inv(codec, Step(codec, s, Deliver(|s.toClient|)))
    ensures var t := Step(codec, s, Deliver(|s.toClient|));
            var lines := Frame(t.submitted, '\n').lines;
            && t.counter == s.counter == |lines|
            && |t.client.settled| <= |lines|
            && (t.client.waiters == [] || (t.client.settled != [] && !Fits(lines[|t.client.settled| - 1])))
  {
    hide Frame, TooBig, Unframe, ReplyTo, Printed, Hand;
    var t := Step(codec, s, Deliver(|s.toClient|));
    ServedLengths(codec, t);
    DeliverClears(codec, s);
    FrameNone(t.client.buf + t.toClient, '\n');
    if '\n' !in s.toServer {
      FrameNone(s.toServer, '\n');
    }
  }

  lemma DeliverClears(codec: Codec, s: Link)
    ensures var t := Step(codec, s, Deliver(|s.toClient|));
            && t.toClient == [] && '\n' !in t.client.buf && '\n' !in t.client.buf + t.toClient
            && t.toServer == s.toServer && t.closed == s.closed && t.pending == s.pending && t.read == s.read
            && t.submitted == s.submitted && t.counter == s.counter
  {
    hide Frame, Hand;
    FeedKeepsTail(codec, s.client, s.toClient);
    assert s.toClient[..|s.toClient|] == s.toClient;
  }

  /** A line over the cap is answered with a null id, so it cannot match any waiter, and nothing is read after it. */
  lemma OversizeAnswer(codec: Codec, l: Link, w: World)
    requires OneLineCodec(codec) && !l.closed && l.pending.None? && '\n' in l.toServer
    requires !Fits(l.toServer[..IndexOf(l.toServer, '\n')])
    ensures var t := Step(codec, l, Read(w));
            && t.pending.Some? && IdIn(codec, t.pending.value).None?
            && forall v :: Step(codec, t, Read(v)) == t
  {
    hide ReplyTo, TooBig, IndexOf, OneLineCodec;
    LongReply(codec, l.toServer[..IndexOf(l.toServer, '\n')] + "\n", w);
  }

  /** The world of the k-th dispatch; nothing was dispatched in `other`. */
  function WorldOf(l: Link, other: World): nat -> World {
    (k: nat) => if k < |l.worlds| then l.worlds[k] else other
  }

  /** However the steps interleave, the server's writes are those of one conversation over the client's
      text: what it has written, with the reply it is about to write, is the output of HandleConnection up
      to some reply, and all of it once every submitted line has been read or the connection is closed. */
  lemma ServerConverses(codec: Codec, moves: seq<Move>, other: World)
    requires OneLineCodec(codec)
    ensures var l := Run(codec, Start(), moves);
            var whole := Replies(codec, RawLines(l.submitted), WorldOf(l, other), 0);
            && |l.read| <= |whole|
            && l.written + (if l.pending.Some? then l.pending.value + ['\n'] else []) ==
               Unframe(whole[..|l.read|], '\n')
            && (l.closed || l.toServer == [] ==> |l.read| == |whole|)
  {
    hide Run, Served, Submitted, Queued, Returned, OneLineCodec, Replies, RawLines, Unframe;
    StartMatched(codec);
    AlwaysMatched(codec, Start(), moves);
    ServedMeans(codec, Run(codec, Start(), moves), other);
  }

  lemma ServedMeans(codec: Codec, l: Link, other: World)
    requires Served(codec, l)
    ensures var whole := Replies(codec, RawLines(l.submitted), WorldOf(l, other), 0);
            && |l.read| <= |whole|
            && l.written + (if l.pending.Some? then l.pending.value + ['\n'] else []) ==
               Unframe(whole[..|l.read|], '\n')
            && (l.closed || l.toServer == [] ==> |l.read| == |whole|)
  {
    hide Frame, TooBig, Unframe, ReplyTo, RawLines, Replies, Trimmed, WorldOf;
    var raws, worlds := RawLines(l.submitted), WorldOf(l, other);
    var whole, lines := Replies(codec, raws, worlds, 0), Frame(l.submitted, '\n').lines;
    RawLinesAreFrames(l.submitted);
    OneReplyPerLine(codec, raws, worlds);
    FrameNone<char>([], '\n');
    forall i | 0 <= i < |l.read| ensures raws[i] == l.read[i] + "\n" && worlds(i) == l.worlds[i] {
      assert lines[i] == l.read[i];
      WorldAt(l, other, i);
    }
    if |whole| < |l.read| {
      assert false;
    }
    assert l.closed ==> TooBig(raws[|l.read| - 1]);
    assert whole[..|l.read|] == Answers(codec, l.read, l.worlds);
  }

  lemma WorldAt(l: Link, other: World, i: nat)
    requires i < |l.worlds|
    ensures WorldOf(l, other)(i) == l.worlds[i]
  {
  }

  // ---- Any number of connections ----

  /** A move on one of the connections, by number. */
  datatype Tagged = Tagged(conn: nat, move: Move)

  function LinkOf(net: map<nat, Link>, conn: nat): Link {
    if conn in net then net[conn] else Start()
  }

  function RunNet(codec: Codec, net: map<nat, Link>, moves: seq<Tagged>): map<nat, Link>
    decreases moves
  {
    if moves == [] then net
    else RunNet(codec, net[moves[0].conn := Step(codec, LinkOf(net, moves[0].conn), moves[0].move)], moves[1..])
  }

  /** The moves on one connection. */
  function Only(conn: nat, moves: seq<Tagged>): seq<Move> {
    if moves == [] then []
    else (if moves[0].conn == conn then [moves[0].move] else []) + Only(conn, moves[1..])
  }

  lemma {:induction false} NetProjects(codec: Codec, net: map<nat, Link>, moves: seq<Tagged>, conn: nat)
    ensures LinkOf(RunNet(codec, net, moves), conn) == Run(codec, LinkOf(net, conn), Only(conn, moves))
    decreases moves
  {
    hide Step;
    if moves != [] {
      var next := net[moves[0].conn := Step(codec, LinkOf(net, moves[0].conn), moves[0].move)];
      NetProjects(codec, next, moves[1..], conn);
      var rest := Only(conn, moves[1..]);
      assert ([moves[0].move] + rest)[1..] == rest && [] + rest == rest;
    }
  }

  /** The same with any number of clients, each on its own connection, interleaved in any way. */
  lemma EveryConnectionMatches(codec: Codec, moves: seq<Tagged>, conn: nat)
    requires OneLineCodec(codec)
    ensures var l := LinkOf(RunNet(codec, map[], moves), conn);
            Settling(codec, l) && (!l.oversize ==> InTransit(codec, l) == Awaited(l.client))
  {
    hide Run, Settling, InTransit, OneLineCodec;
    NetProjects(codec, map[], moves, conn);
    RepliesMatchWaiters(codec, Only(conn, moves));
  }
}

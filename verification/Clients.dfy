/** The pipelining client (clients/node/squeue.mjs): it re-assembles reply lines from arbitrary chunks
    and hands each one to the oldest waiter. */
module Clients {
  import opened Basics
  import opened Lines
  import Encoding

  /** A JSON printer and parser. */
  datatype Codec = Codec(show: Json -> string, parse: string -> Option<Json>)

  /** Printing is invertible and stays on one line. */
  ghost predicate OneLineCodec(codec: Codec) {
    && (forall j :: codec.parse(codec.show(j)) == Some(j))
    && (forall j :: '\n' !in codec.show(j))
  }

  /** There is such a codec. */
  lemma OneLineCodecExists() returns (codec: Codec)
    ensures OneLineCodec(codec)
  {
    hide Encoding.Code, Decoded;
    codec := Codec(j => Encoding.Code(j), line => Decoded(line));
    forall j: Json ensures codec.parse(codec.show(j)) == Some(j) && '\n' !in codec.show(j) {
      Encoding.OneLine(j);
      DecodedInverts(j);
    }
  }

  ghost function Decoded(line: string): Option<Json> {
    if exists j :: Encoding.Code(j) == line then
      var j :| Encoding.Code(j) == line; Some(j)
    else None
  }

  lemma DecodedInverts(j: Json)
    ensures Decoded(Encoding.Code(j)) == Some(j)
  {
    var k := Decoded(Encoding.Code(j)).value;
    assert Encoding.Code(k) + "" == Encoding.Code(j) + "";
    Encoding.Separates(k, "", j, "");
  }

  /** How a waiter was settled: with the parsed reply, or None for a line that is not JSON. */
  datatype Settled = Settled(id: nat, reply: Option<Json>)

  datatype Client = Client(buf: string, waiters: seq<nat>, settled: seq<Settled>)

  function Min(a: nat, b: nat): nat {
    if a < b then a else b
  }

  function Pair(codec: Codec, waiters: seq<nat>, lines: seq<string>): seq<Settled> {
    seq(Min(|waiters|, |lines|), i requires 0 <= i < Min(|waiters|, |lines|) =>
      Settled(waiters[i], codec.parse(lines[i])))
  }

  /** Lines in order to waiters in order; a line without a waiter is dropped. */
  function Hand(codec: Codec, c: Client, lines: seq<string>): Client {
    c.(waiters := c.waiters[Min(|c.waiters|, |lines|)..], settled := c.settled + Pair(codec, c.waiters, lines))
  }

  /** What receiving `chunk` does. */
  function Feed(codec: Codec, c: Client, chunk: string): Client {
    var f := Frame(c.buf + chunk, '\n');
    Hand(codec, c.(buf := f.tail), f.lines)
  }

  function FeedAll(codec: Codec, c: Client, chunks: seq<string>): Client
    decreases chunks
  {
    if chunks == [] then c else FeedAll(codec, Feed(codec, c, chunks[0]), chunks[1..])
  }

  function Concat(chunks: seq<string>): string {
    if chunks == [] then [] else chunks[0] + Concat(chunks[1..])
  }

  lemma PairConcat(codec: Codec, waiters: seq<nat>, a: seq<string>, b: seq<string>)
    ensures var n := Min(|waiters|, |a|);
            Pair(codec, waiters, a + b) == Pair(codec, waiters, a) + Pair(codec, waiters[n..], b)
  {
    var n := Min(|waiters|, |a|);
    var left, right := Pair(codec, waiters, a), Pair(codec, waiters[n..], b);
    var both := Pair(codec, waiters, a + b);
    assert |both| == |left| + |right|;
    forall k | 0 <= k < |both| ensures both[k] == (left + right)[k] {
      if k < n {
        assert both[k] == Settled(waiters[k], codec.parse((a + b)[k]));
      } else {
        assert both[k] == Settled(waiters[k], codec.parse((a + b)[k]));
        assert (a + b)[k] == b[k - n] && waiters[n..][k - n] == waiters[k];
      }
    }
  }

  lemma HandConcat(codec: Codec, c: Client, a: seq<string>, b: seq<string>)
    ensures Hand(codec, Hand(codec, c, a), b) == Hand(codec, c, a + b)
  {
    hide Pair;
    var n := Min(|c.waiters|, |a|);
    var rest := c.waiters[n..];
    assert c.waiters[Min(|c.waiters|, |a + b|)..] == rest[Min(|rest|, |b|)..];
    PairConcat(codec, c.waiters, a, b);
    Associates(c.settled, Pair(codec, c.waiters, a), Pair(codec, rest, b));
  }

  lemma FeedTwice(codec: Codec, c: Client, a: string, b: string)
    ensures Feed(codec, Feed(codec, c, a), b) == Feed(codec, c, a + b)
  {
    hide Frame, Hand;
    var first := Frame(c.buf + a, '\n');
    var second := Frame(first.tail + b, '\n');
    FrameConcat(c.buf + a, b, '\n');
    Associates(c.buf, a, b);
    HandKeepsBuffer(codec, c, first.tail, first.lines);
    HandIgnoresBuffer(codec, c.(buf := first.tail), second.tail, first.lines);
    HandConcat(codec, c.(buf := second.tail), first.lines, second.lines);
  }

  lemma HandKeepsBuffer(codec: Codec, c: Client, buf: string, lines: seq<string>)
    ensures Hand(codec, c.(buf := buf), lines).buf == buf
  {
  }

  lemma HandIgnoresBuffer(codec: Codec, c: Client, buf: string, lines: seq<string>)
    ensures Hand(codec, c, lines).(buf := buf) == Hand(codec, c.(buf := buf), lines)
  {
  }

  /** However the reply stream is cut into chunks, the same lines reach the same waiters and the same
      unterminated rest stays in the buffer as if it had come in one piece. */
  lemma {:induction false} ChunkInvariance(codec: Codec, c: Client, chunks: seq<string>)
    requires '\n' !in c.buf
    ensures FeedAll(codec, c, chunks) == Feed(codec, c, Concat(chunks))
    decreases chunks
  {
    hide Frame, Hand, Feed;
    if chunks == [] {
      FeedNothing(codec, c);
    } else {
      FeedKeepsTail(codec, c, chunks[0]);
      ChunkInvariance(codec, Feed(codec, c, chunks[0]), chunks[1..]);
      FeedTwice(codec, c, chunks[0], Concat(chunks[1..]));
    }
  }

  lemma FeedNothing(codec: Codec, c: Client)
    requires '\n' !in c.buf
    ensures Feed(codec, c, "") == c
  {
    assert c.buf + "" == c.buf;
    assert c.settled + Pair(codec, c.waiters, []) == c.settled;
  }

  lemma FeedKeepsTail(codec: Codec, c: Client, chunk: string)
    ensures '\n' !in Feed(codec, c, chunk).buf
  {
    FrameSeparates(c.buf + chunk, '\n');
  }

  class Squeue {
    const codec: Codec
    var buf: string
    var waiters: seq<nat>
    var counter: nat
    /** Outcomes delivered to callers, in order. */
    var settled: seq<Settled>
    /** Everything written to the socket. */
    var written: string

    constructor (codec: Codec)
      ensures this.codec == codec && View() == Client("", [], []) && counter == 0 && written == ""
    {
      this.codec := codec;
      buf, waiters, counter, settled, written := "", [], 0, [], "";
    }

    function View(): Client
      reads this
    {
      Client(buf, waiters, settled)
    }

    method NextId() returns (id: nat)
      modifies this`counter
      ensures id == counter == old(counter) + 1
    {
      counter := counter + 1;
      return counter;
    }

    /** Queue a waiter for request `id` and write the request as one line. */
    method Roundtrip(id: nat, request: Json)
      modifies this
      ensures View() == old(View()).(waiters := old(waiters) + [id]) && counter == old(counter)
      ensures written == old(written) + codec.show(request) + "\n"
    {
      waiters := waiters + [id];
      written := written + codec.show(request) + "\n";
    }

    /** Settle the oldest waiter, if there is one, with `line`. */
    method Settle(line: string)
      modifies this`waiters, this`settled
      ensures View() == Hand(codec, old(View()), [line])
    {
      HandOne(codec, View(), line);
      if waiters != [] {
        var w := waiters[0];
        waiters := waiters[1..];
        settled := settled + [Settled(w, codec.parse(line))];
      }
    }

    method OnData(chunk: string)
      modifies this`buf, this`waiters, this`settled
      ensures View() == Feed(codec, old(View()), chunk)
    {
      hide Hand, Frame, IndexOf;
      ghost var before := View();
      ghost var all := Frame(buf + chunk, '\n');
      buf := buf + chunk;
      ghost var taken: seq<string> := [];
      HandNothing(codec, View());
      var i := IndexOf(buf, '\n');
      while i >= 0
        invariant i == IndexOf(buf, '\n')
        invariant taken + Frame(buf, '\n').lines == all.lines && Frame(buf, '\n').tail == all.tail
        invariant View() == Hand(codec, before.(buf := buf), taken)
        decreases |buf|
      {
        var line := buf[..i];
        FrameFirst(buf, '\n');
        HandIgnoresBuffer(codec, before.(buf := buf), buf[i + 1..], taken);
        HandConcat(codec, before.(buf := buf[i + 1..]), taken, [line]);
        assert taken + Frame(buf, '\n').lines == taken + [line] + Frame(buf[i + 1..], '\n').lines;
        buf := buf[i + 1..];
        Settle(line);
        taken := taken + [line];
        i := IndexOf(buf, '\n');
      }
      FrameNone(buf, '\n');
      assert taken + [] == taken;
    }
  }

  lemma HandNothing(codec: Codec, c: Client)
    ensures Hand(codec, c, []) == c
  {
    assert c.settled + Pair(codec, c.waiters, []) == c.settled;
  }

  lemma HandOne(codec: Codec, c: Client, line: string)
    ensures Hand(codec, c, [line]) ==
            if c.waiters == [] then c
            else Client(c.buf, c.waiters[1..], c.settled + [Settled(c.waiters[0], codec.parse(line))])
  {
    assert Pair(codec, c.waiters, [line]) == if c.waiters == [] then [] else [Settled(c.waiters[0], codec.parse(line))];
  }
}

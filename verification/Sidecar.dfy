/** One connection of the sidecar (src/sidecar.rs): read a line, dispatch it, write the reply, repeat. */
module Sidecar {
  import opened Basics
  import opened Lines
  import opened Rpc
  import opened Clients

  const MAX_LINE_BYTES: nat := 1024 * 1024

  function Utf8Width(c: char): nat {
    if c as int < 0x80 then 1 else if c as int < 0x800 then 2 else if c as int < 0x1_0000 then 3 else 4
  }

  function Utf8Size(s: string): nat {
    if s == [] then 0 else Utf8Width(s[0]) + Utf8Size(s[1..])
  }

  /** What one `read_line` returns from a non-empty stream: up to and including the next newline, or all of it. */
  function RawLine(input: string): (raw: string)
    requires input != []
    ensures raw != [] && raw <= input
  {
    var i := IndexOf(input, '\n');
    if i < 0 then input else input[..i + 1]
  }

  /** The successive reads until end of file. */
  function RawLines(input: string): seq<string>
    decreases |input|
  {
    if input == [] then [] else [RawLine(input)] + RawLines(input[|RawLine(input)|..])
  }

  function Trimmed(raw: string): string {
    if raw != [] && raw[|raw| - 1] == '\n' then raw[..|raw| - 1] else raw
  }

  function TooLong(size: nat): Json {
    ErrReply(Null, ERR_INVALID_REQUEST,
             "line too long: " + NatText(size) + " bytes exceeds limit (" + NatText(MAX_LINE_BYTES) + " bytes)")
  }

  predicate TooBig(raw: string) {
    Utf8Size(raw) > MAX_LINE_BYTES
  }

  /** The reply to one read. */
  function ReplyTo(codec: Codec, raw: string, w: World): string {
    if TooBig(raw) then codec.show(TooLong(Utf8Size(raw))) else codec.show(Dispatch(codec.parse(Trimmed(raw)), w))
  }

  /** Replies to a list of reads, the k-th one dispatched in the world `worlds(k)`. Nothing is served
      behind a read over the cap. */
  function Replies(codec: Codec, raws: seq<string>, worlds: nat -> World, k: nat): seq<string>
    decreases raws
  {
    if raws == [] then []
    else [ReplyTo(codec, raws[0], worlds(k))] + if TooBig(raws[0]) then [] else Replies(codec, raws[1..], worlds, k + 1)
  }

  /** The whole conversation: the output is exactly one line per line served, in order. */
  method HandleConnection(codec: Codec, input: string, worlds: nat -> World) returns (output: string)
    ensures output == Unframe(Replies(codec, RawLines(input), worlds, 0), '\n')
  {
    hide RawLines, RawLine, Replies, Unframe, Utf8Size, TooLong, Trimmed, Dispatch;
    output := "";
    var stream := input;
    var k := 0;
    ghost var all := Unframe(Replies(codec, RawLines(input), worlds, 0), '\n');
    while stream != []
      invariant all == output + Unframe(Replies(codec, RawLines(stream), worlds, k), '\n')
      decreases |stream|
    {
      var buf := RawLine(stream);
      NextReply(codec, stream, worlds, k);
      if Utf8Size(buf) > MAX_LINE_BYTES {
        output := output + (codec.show(TooLong(Utf8Size(buf))) + "\n");
        return;
      }
      output := output + (codec.show(Dispatch(codec.parse(Trimmed(buf)), worlds(k))) + "\n");
      stream := stream[|buf|..];
      k := k + 1;
    }
    NoReplies(codec, worlds, k);
  }

  lemma NextReply(codec: Codec, stream: string, worlds: nat -> World, k: nat)
    requires stream != []
    ensures var buf := RawLine(stream);
            Unframe(Replies(codec, RawLines(stream), worlds, k), '\n') ==
            ReplyTo(codec, buf, worlds(k)) + "\n" +
            if TooBig(buf) then [] else Unframe(Replies(codec, RawLines(stream[|buf|..]), worlds, k + 1), '\n')
  {
    hide RawLines, RawLine, Unframe, TooBig, ReplyTo;
    var buf := RawLine(stream);
    RawUnfold(stream);
    UnframeNil('\n');
    UnframeCons(ReplyTo(codec, buf, worlds(k)),
                if TooBig(buf) then [] else Replies(codec, RawLines(stream[|buf|..]), worlds, k + 1), '\n');
  }

  lemma NoReplies(codec: Codec, worlds: nat -> World, k: nat)
    ensures Unframe(Replies(codec, RawLines([]), worlds, k), '\n') == []
  {
  }

  /** The reads of a stream are its lines, and its unterminated rest if there is one. */
  lemma {:induction false} RawLinesAreFrames(input: string)
    ensures var f := Frame(input, '\n');
            var raws := RawLines(input);
            && |raws| == |f.lines| + (if f.tail == [] then 0 else 1)
            && (forall i :: 0 <= i < |f.lines| ==> raws[i] == f.lines[i] + "\n" && Trimmed(raws[i]) == f.lines[i])
            && (f.tail != [] ==> raws[|f.lines|] == f.tail && Trimmed(raws[|f.lines|]) == f.tail)
    decreases |input|
  {
    hide Frame, IndexOf, Trimmed, RawLines;
    RawNothing(input);
    var i := IndexOf(input, '\n');
    if i < 0 {
      FrameNone(input, '\n');
    } else {
      var rest := input[i + 1..];
      var lines, raws := Frame(input, '\n').lines, RawLines(input);
      FrameFirst(input, '\n');
      RawLinesAreFrames(rest);
      RawFirst(input);
      forall k | 0 < k < |raws| ensures raws[k] == RawLines(rest)[k - 1] {
      }
      forall k | 0 < k < |lines| ensures lines[k] == Frame(rest, '\n').lines[k - 1] {
      }
    }
  }

  lemma RawFirst(input: string)
    requires '\n' in input
    ensures var i := IndexOf(input, '\n');
            && RawLines(input) == [input[..i] + "\n"] + RawLines(input[i + 1..])
            && Trimmed(input[..i] + "\n") == input[..i]
  {
    hide RawLines, IndexOf;
    var i := IndexOf(input, '\n');
    assert input[..i + 1] == input[..i] + "\n";
    assert RawLine(input) == input[..i] + "\n";
    RawUnfold(input);
  }

  lemma RawNothing(input: string)
    ensures input == [] ==> RawLines(input) == []
    ensures '\n' !in input ==> Trimmed(input) == input
    ensures '\n' !in input && input != [] ==> RawLines(input) == [input]
  {
    if input != [] {
      assert input[|input|..] == [];
    }
  }

  lemma RawUnfold(input: string)
    requires input != []
    ensures RawLines(input) == [RawLine(input)] + RawLines(input[|RawLine(input)|..])
  {
  }

  /** Lines framed again: when no reply contains a newline, a peer that frames the output sees the replies. */
  lemma {:induction false} UnframeInverts(lines: seq<string>)
    requires forall k :: 0 <= k < |lines| ==> '\n' !in lines[k]
    ensures Frame(Unframe(lines, '\n'), '\n') == Framed(lines, [])
    decreases lines
  {
    hide Frame, Unframe;
    if lines == [] {
      UnframeNil('\n');
      FrameNone<char>([], '\n');
    } else {
      var rest := Unframe(lines[1..], '\n');
      assert lines == [lines[0]] + lines[1..];
      UnframeCons(lines[0], lines[1..], '\n');
      UnframeInverts(lines[1..]);
      FrameOne(lines[0], '\n');
      FrameConcat(lines[0] + ['\n'], rest, '\n');
      assert [] + rest == rest;
    }
  }

  lemma {:induction false} ReplyAt(codec: Codec, raws: seq<string>, worlds: nat -> World, k: nat, i: nat)
    requires i < |Replies(codec, raws, worlds, k)|
    ensures i < |raws| && Replies(codec, raws, worlds, k)[i] == ReplyTo(codec, raws[i], worlds(k + i))
    ensures TooBig(raws[i]) ==> i == |Replies(codec, raws, worlds, k)| - 1
    decreases i
  {
    hide TooBig, ReplyTo;
    if i > 0 {
      ReplyAt(codec, raws[1..], worlds, k + 1, i - 1);
    }
  }

  lemma {:induction false} ReplyCount(codec: Codec, raws: seq<string>, worlds: nat -> World, k: nat)
    ensures var n := |Replies(codec, raws, worlds, k)|;
            n <= |raws| && (n < |raws| ==> n > 0 && TooBig(raws[n - 1]))
    decreases raws
  {
    hide TooBig, ReplyTo;
    if raws != [] && !TooBig(raws[0]) {
      ReplyCount(codec, raws[1..], worlds, k + 1);
    }
  }

  /** The k-th reply answers the k-th read. There is one reply for each read unless one is over the cap:
      that one gets the last reply. */
  lemma OneReplyPerLine(codec: Codec, raws: seq<string>, worlds: nat -> World)
    ensures var r := Replies(codec, raws, worlds, 0);
            && |r| <= |raws|
            && (forall i :: 0 <= i < |r| ==> r[i] == ReplyTo(codec, raws[i], worlds(i)))
            && (forall i :: 0 <= i < |r| && TooBig(raws[i]) ==> i == |r| - 1)
            && (|r| < |raws| ==> r != [] && TooBig(raws[|r| - 1]))
  {
    hide TooBig, ReplyTo, Replies;
    var r := Replies(codec, raws, worlds, 0);
    ReplyCount(codec, raws, worlds, 0);
    forall i | 0 <= i < |r|
      ensures r[i] == ReplyTo(codec, raws[i], worlds(i)) && (TooBig(raws[i]) ==> i == |r| - 1)
    {
      ReplyAt(codec, raws, worlds, 0, i);
    }
  }

  /** The k-th line the client sends. The last one may lack its newline. */
  function LineOf(input: string, k: nat): string
    requires k < |RawLines(input)|
  {
    Trimmed(RawLines(input)[k])
  }

  /** End to end on characters: a peer that splits what the server writes at newlines finds nothing behind
      the last newline, and the k-th line, parsed, is the dispatcher's reply to the k-th line sent, with the
      id of that request if it could be decoded. Every line sent has its reply unless one is over the cap. */
  lemma LinesAnswerLines(codec: Codec, input: string, worlds: nat -> World, k: nat)
    requires OneLineCodec(codec)
    ensures var raws, back := RawLines(input), Frame(Unframe(Replies(codec, RawLines(input), worlds, 0), '\n'), '\n');
            && back.tail == [] && |back.lines| <= |raws|
            && (|back.lines| < |raws| ==> back.lines != [] && TooBig(raws[|back.lines| - 1]))
            && (k < |back.lines| && !TooBig(raws[k]) ==>
                  var request := codec.parse(LineOf(input, k));
                  && codec.parse(back.lines[k]) == Some(Dispatch(request, worlds(k)))
                  && IdOf(Dispatch(request, worlds(k))) ==
                     if request.Some? && Decode(request.value).Some? then IdOf(request.value) else Null)
  {
    hide RawLines, Frame, Unframe, TooBig, Trimmed, Dispatch, Replies, ReplyTo, OneLineCodec;
    var raws, replies := RawLines(input), Replies(codec, RawLines(input), worlds, 0);
    OneReplyPerLine(codec, raws, worlds);
    forall i | 0 <= i < |replies| ensures '\n' !in replies[i] {
      ReplyOnWire(codec, raws[i], worlds(i));
    }
    UnframeInverts(replies);
    if k < |replies| {
      ReplyOnWire(codec, raws[k], worlds(k));
    }
  }

  lemma ReplyOnWire(codec: Codec, raw: string, w: World)
    requires OneLineCodec(codec)
    ensures '\n' !in ReplyTo(codec, raw, w)
    ensures var request := codec.parse(Trimmed(raw));
            !TooBig(raw) ==>
              && codec.parse(ReplyTo(codec, raw, w)) == Some(Dispatch(request, w))
              && IdOf(Dispatch(request, w)) ==
                 if request.Some? && Decode(request.value).Some? then IdOf(request.value) else Null
  {
    hide TooBig, Trimmed, Dispatch, IdOf, Decode;
    var request := codec.parse(Trimmed(raw));
    if request.Some? {
      IdEcho(request.value, w);
    } else {
      ParseErrorId(w);
    }
  }

  lemma ParseErrorId(w: World)
    ensures IdOf(Dispatch(None, w)) == Null
  {
  }
}

/** The size the sidecar measures is the length of the UTF-8 text (RFC 3629, section 3). */
module Utf8 {
  import opened Basics
  import opened Rpc
  import opened Clients
  import opened Sidecar

  /** The octets of one character. */
  function Octets(c: char): (o: seq<nat>)
    ensures 1 <= |o| <= 4 && forall i :: 0 <= i < |o| ==> o[i] < 0x100
  {
    var n := c as int;
    if n < 0x80 then [n]
    else if n < 0x800 then [0xC0 + n / 0x40, 0x80 + n % 0x40]
    else if n < 0x1_0000 then [0xE0 + n / 0x1000, 0x80 + n / 0x40 % 0x40, 0x80 + n % 0x40]
    else [0xF0 + n / 0x4_0000, 0x80 + n / 0x1000 % 0x40, 0x80 + n / 0x40 % 0x40, 0x80 + n % 0x40]
  }

  function Encoded(s: string): seq<nat> {
    if s == [] then [] else Octets(s[0]) + Encoded(s[1..])
  }

  predicate Continues(o: nat) {
    0x80 <= o < 0xC0
  }

  /** The number of the character at the head of `t`, and what follows it. */
  function ReadCharacter(t: seq<nat>): Option<(int, seq<nat>)> {
    if |t| >= 1 && t[0] < 0x80 then Some((t[0], t[1..]))
    else if |t| >= 2 && 0xC0 <= t[0] < 0xE0 && Continues(t[1]) then
      Some(((t[0] - 0xC0) * 0x40 + (t[1] - 0x80), t[2..]))
    else if |t| >= 3 && 0xE0 <= t[0] < 0xF0 && Continues(t[1]) && Continues(t[2]) then
      Some(((t[0] - 0xE0) * 0x1000 + (t[1] - 0x80) * 0x40 + (t[2] - 0x80), t[3..]))
    else if |t| >= 4 && 0xF0 <= t[0] < 0xF8 && Continues(t[1]) && Continues(t[2]) && Continues(t[3]) then
      Some(((t[0] - 0xF0) * 0x4_0000 + (t[1] - 0x80) * 0x1000 + (t[2] - 0x80) * 0x40 + (t[3] - 0x80), t[4..]))
    else None
  }

  function ReadAll(t: seq<nat>): Option<seq<int>>
    decreases |t|
  {
    if t == [] then Some([])
    else match ReadCharacter(t)
      case None => None
      case Some((n, rest)) =>
        match ReadAll(rest)
        case None => None
        case Some(ns) => Some([n] + ns)
  }

  lemma Digits64(n: nat)
    ensures n / 0x40 * 0x40 + n % 0x40 == n
    ensures n / 0x1000 * 0x1000 + n / 0x40 % 0x40 * 0x40 + n % 0x40 == n
    ensures n / 0x4_0000 * 0x4_0000 + n / 0x1000 % 0x40 * 0x1000 + n / 0x40 % 0x40 * 0x40 + n % 0x40 == n
  {
    assert n / 0x40 / 0x40 == n / 0x1000 && n / 0x1000 / 0x40 == n / 0x4_0000;
  }

  lemma CharacterReads(c: char, rest: seq<nat>)
    ensures ReadCharacter(Octets(c) + rest) == Some((c as int, rest))
  {
    var n, o := c as int, Octets(c);
    var t := o + rest;
    Digits64(n);
    assert t[|o|..] == rest;
    if n < 0x80 {
      assert t[0] == n;
    } else if n < 0x800 {
      TwoOctets(t, n);
    } else if n < 0x1_0000 {
      ThreeOctets(t, n);
    } else {
      FourOctets(t, n);
    }
  }

  lemma TwoOctets(t: seq<nat>, n: nat)
    requires 0x80 <= n < 0x800 && |t| >= 2 && t[0] == 0xC0 + n / 0x40 && t[1] == 0x80 + n % 0x40
    ensures ReadCharacter(t) == Some((n, t[2..]))
  {
    Digits64(n);
  }

  lemma ThreeOctets(t: seq<nat>, n: nat)
    requires 0x800 <= n < 0x1_0000 && |t| >= 3
    requires t[0] == 0xE0 + n / 0x1000 && t[1] == 0x80 + n / 0x40 % 0x40 && t[2] == 0x80 + n % 0x40
    ensures ReadCharacter(t) == Some((n, t[3..]))
  {
    Digits64(n);
  }

  lemma FourOctets(t: seq<nat>, n: nat)
    requires 0x1_0000 <= n < 0x11_0000 && |t| >= 4
    requires t[0] == 0xF0 + n / 0x4_0000 && t[1] == 0x80 + n / 0x1000 % 0x40
    requires t[2] == 0x80 + n / 0x40 % 0x40 && t[3] == 0x80 + n % 0x40
    ensures ReadCharacter(t) == Some((n, t[4..]))
  {
    Digits64(n);
  }

  function Numbers(s: string): seq<int> {
    seq(|s|, i requires 0 <= i < |s| => s[i] as int)
  }

  /** The encoding loses nothing. */
  lemma {:induction false} EncodedReads(s: string)
    ensures ReadAll(Encoded(s)) == Some(Numbers(s))
  {
    hide ReadCharacter, Octets;
    if s == [] {
      assert Numbers(s) == [];
    } else {
      var rest := Encoded(s[1..]);
      assert Encoded(s) == Octets(s[0]) + rest && |Encoded(s)| > |rest|;
      CharacterReads(s[0], rest);
      EncodedReads(s[1..]);
      assert Numbers(s) == [s[0] as int] + Numbers(s[1..]);
    }
  }

  lemma {:induction false} SizeIsLength(s: string)
    ensures Utf8Size(s) == |Encoded(s)|
  {
    if s != [] {
      SizeIsLength(s[1..]);
    }
  }

  /** A line is answered like any other if its UTF-8 text, newline included, has at most 1 MiB, and with an
      "invalid request" error without an id if it is longer. */
  lemma CapIsOneMiB(codec: Codec, raw: string, w: World)
    ensures ReplyTo(codec, raw, w) ==
            (if |Encoded(raw)| <= 1_048_576 then codec.show(Dispatch(codec.parse(Trimmed(raw)), w))
             else codec.show(TooLong(|Encoded(raw)|)))
    ensures var reply := TooLong(|Encoded(raw)|);
            && IdOf(reply) == Null && CodeOf(reply) == Some(-32600)
            && "error" in reply.fields
            && Get(reply.fields["error"], "message") ==
               Some(Str("line too long: " + NatText(|Encoded(raw)|) + " bytes exceeds limit ("
                        + NatText(1_048_576) + " bytes)"))
  {
    hide Dispatch, Utf8Size, Encoded;
    SizeIsLength(raw);
  }
}

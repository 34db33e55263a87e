/** Newline framing of a stream, for any kind of character. */
module Lines {

  function IndexOf<T(==)>(s: seq<T>, x: T): (i: int)
    ensures -1 <= i < |s|
    ensures i < 0 ==> x !in s
    ensures i >= 0 ==> s[i] == x && x !in s[..i]
  {
    if s == [] then -1
    else if s[0] == x then 0
    else
      var i := IndexOf(s[1..], x);
      assert i >= 0 ==> s[..i + 1] == [s[0]] + s[1..][..i];
      if i < 0 then -1 else i + 1
  }

  /** The complete lines of a stream, without their newlines, and the unterminated rest. */
  datatype Framed<T> = Framed(lines: seq<seq<T>>, tail: seq<T>)

  function Frame<T(==)>(s: seq<T>, nl: T): Framed<T>
    decreases |s|
  {
    var i := IndexOf(s, nl);
    if i < 0 then Framed([], s)
    else var rest := Frame(s[i + 1..], nl); Framed([s[..i]] + rest.lines, rest.tail)
  }

  function Unframe<T>(lines: seq<seq<T>>, nl: T): seq<T> {
    if lines == [] then [] else lines[0] + [nl] + Unframe(lines[1..], nl)
  }

  lemma IndexUnique<T>(s: seq<T>, x: T, i: nat)
    requires i < |s| && s[i] == x && x !in s[..i]
    ensures IndexOf(s, x) == i
  {
    var k := IndexOf(s, x);
    assert x in s;
    assert forall j :: 0 <= j < i ==> s[..i][j] == s[j];
    assert forall j :: 0 <= j < k ==> s[..k][j] == s[j];
  }

  lemma Associates<T>(a: seq<T>, b: seq<T>, c: seq<T>)
    ensures a + b + c == a + (b + c)
  {
  }

  /** Framing loses nothing. */
  lemma {:induction false} FrameInverts<T>(s: seq<T>, nl: T)
    ensures Unframe(Frame(s, nl).lines, nl) + Frame(s, nl).tail == s
    decreases |s|
  {
    hide Unframe, IndexOf;
    var i := IndexOf(s, nl);
    if i < 0 {
      UnframeNil(nl);
    } else {
      var rest := Frame(s[i + 1..], nl);
      FrameInverts(s[i + 1..], nl);
      UnframeCons(s[..i], rest.lines, nl);
      Associates(s[..i] + [nl], Unframe(rest.lines, nl), rest.tail);
      Associates(s[..i], [nl], s[i + 1..]);
      assert s == s[..i] + ([nl] + s[i + 1..]);
    }
  }

  lemma UnframeNil<T>(nl: T)
    ensures Unframe([], nl) == []
  {
  }

  lemma UnframeCons<T>(line: seq<T>, lines: seq<seq<T>>, nl: T)
    ensures Unframe([line] + lines, nl) == line + [nl] + Unframe(lines, nl)
  {
    assert ([line] + lines)[1..] == lines;
  }

  lemma {:induction false} UnframeAppend<T>(lines: seq<seq<T>>, line: seq<T>, nl: T)
    ensures Unframe(lines + [line], nl) == Unframe(lines, nl) + (line + [nl])
  {
    hide Unframe;
    UnframeNil(nl);
    if lines == [] {
      UnframeCons(line, [], nl);
      assert lines + [line] == [line] && line + [nl] + [] == [] + (line + [nl]) == line + [nl];
      assert [line] + [] == [line];
    } else {
      assert lines + [line] == [lines[0]] + (lines[1..] + [line]) && lines == [lines[0]] + lines[1..];
      UnframeCons(lines[0], lines[1..] + [line], nl);
      UnframeCons(lines[0], lines[1..], nl);
      UnframeAppend(lines[1..], line, nl);
      Associates(lines[0] + [nl], Unframe(lines[1..], nl), line + [nl]);
    }
  }

  /** No line, and no rest, contains a newline. */
  lemma {:induction false} FrameSeparates<T>(s: seq<T>, nl: T)
    ensures nl !in Frame(s, nl).tail
    ensures forall k :: 0 <= k < |Frame(s, nl).lines| ==> nl !in Frame(s, nl).lines[k]
    decreases |s|
  {
    hide IndexOf;
    var i := IndexOf(s, nl);
    if i >= 0 {
      var rest := Frame(s[i + 1..], nl);
      FrameSeparates(s[i + 1..], nl);
      forall k | 0 <= k < |Frame(s, nl).lines| ensures nl !in Frame(s, nl).lines[k] {
        assert Frame(s, nl).lines[k] == if k == 0 then s[..i] else rest.lines[k - 1];
      }
    }
  }

  /** Framing in two parts, carrying the unterminated rest of the first over, is framing at once. */
  lemma {:induction false} FrameConcat<T>(a: seq<T>, b: seq<T>, nl: T)
    ensures var first := Frame(a, nl);
            var second := Frame(first.tail + b, nl);
            Frame(a + b, nl) == Framed(first.lines + second.lines, second.tail)
    decreases |a|
  {
    hide IndexOf;
    var i := IndexOf(a, nl);
    if i < 0 {
      assert [] + Frame(a + b, nl).lines == Frame(a + b, nl).lines;
    } else {
      assert (a + b)[..i] == a[..i] && (a + b)[i + 1..] == a[i + 1..] + b;
      IndexUnique(a + b, nl, i);
      FrameConcat(a[i + 1..], b, nl);
      var rest := Frame(a[i + 1..], nl);
      var second := Frame(rest.tail + b, nl);
      assert [a[..i]] + (rest.lines + second.lines) == ([a[..i]] + rest.lines) + second.lines;
    }
  }

  /** Writing one more line behind complete lines. */
  lemma FrameAppend<T>(s: seq<T>, line: seq<T>, nl: T)
    requires Frame(s, nl).tail == [] && nl !in line
    ensures Frame(s + line + [nl], nl) == Framed(Frame(s, nl).lines + [line], [])
  {
    hide Frame;
    FrameConcat(s, line + [nl], nl);
    Associates(s, line, [nl]);
    assert [] + (line + [nl]) == line + [nl];
    FrameOne(line, nl);
  }

  lemma FrameOne<T>(line: seq<T>, nl: T)
    requires nl !in line
    ensures Frame(line + [nl], nl) == Framed([line], [])
  {
    IndexUnique(line + [nl], nl, |line|);
    assert (line + [nl])[..|line|] == line && (line + [nl])[|line| + 1..] == [];
  }

  lemma FrameNone<T>(s: seq<T>, nl: T)
    requires nl !in s
    ensures Frame(s, nl) == Framed([], s)
  {
  }

  /** Taking the first line off a stream. */
  lemma FrameFirst<T>(s: seq<T>, nl: T)
    requires nl in s
    ensures var i, f := IndexOf(s, nl), Frame(s, nl);
            f.lines != [] && f.lines[0] == s[..i] && Frame(s[i + 1..], nl) == Framed(f.lines[1..], f.tail)
  {
    hide IndexOf;
    var i := IndexOf(s, nl);
    var rest := Frame(s[i + 1..], nl);
    assert Frame(s, nl) == Framed([s[..i]] + rest.lines, rest.tail);
    assert ([s[..i]] + rest.lines)[1..] == rest.lines;
  }
}

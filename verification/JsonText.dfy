/** The hand-written JSON encoder of the JVM client (clients/jvm/Squeue.java) on UTF-16 code units,
    against a reader that follows sections 6 and 7 of RFC 8259. */
module JsonText {
  import opened Basics
  import opened Lines

  type CodeUnit = c: nat | c < 0x1_0000

  type Text = seq<CodeUnit>

  const QUOTE: CodeUnit := 34
  const PLUS: CodeUnit := 43
  const COMMA: CodeUnit := 44
  const MINUS: CodeUnit := 45
  const POINT: CodeUnit := 46
  const SLASH: CodeUnit := 47
  const OPEN: CodeUnit := 91
  const BACKSLASH: CodeUnit := 92
  const CLOSE: CodeUnit := 93
  const NEWLINE: CodeUnit := 10
  const RETURN: CodeUnit := 13
  const TAB: CodeUnit := 9

  /** Code units of the client's fixed texts, which are all ASCII. */
  function Ascii(s: string): Text {
    seq(|s|, i requires 0 <= i < |s| => s[i] as int % 0x1_0000)
  }

  // ---- Writing ----

  function HexDigit(d: nat): CodeUnit
    requires d < 16
  {
    if d < 10 then 48 + d else 87 + d
  }

  function Escape(c: CodeUnit): Text {
    if c == QUOTE then [BACKSLASH, QUOTE]
    else if c == BACKSLASH then [BACKSLASH, BACKSLASH]
    else if c == NEWLINE then [BACKSLASH, 110]
    else if c == RETURN then [BACKSLASH, 114]
    else if c == TAB then [BACKSLASH, 116]
    else if c < 0x20 then
      [BACKSLASH, 117, HexDigit(c / 4096), HexDigit(c / 256 % 16), HexDigit(c / 16 % 16), HexDigit(c % 16)]
    else [c]
  }

  function EscapeAll(s: Text): Text {
    if s == [] then [] else Escape(s[0]) + EscapeAll(s[1..])
  }

  function Quoted(s: Text): Text {
    [QUOTE] + EscapeAll(s) + [QUOTE]
  }

  method JsonStr(s: Text) returns (b: Text)
    ensures b == Quoted(s)
  {
    b := [QUOTE];
    var i := 0;
    while i < |s|
      invariant i <= |s| && b + EscapeAll(s[i..]) == [QUOTE] + EscapeAll(s)
    {
      var c := s[i];
      ghost var rest := EscapeAll(s[i + 1..]);
      assert s[i..][0] == c && s[i..][1..] == s[i + 1..];
      Associates(b, Escape(c), rest);
      if c == QUOTE {
        b := b + [BACKSLASH, QUOTE];
      } else if c == BACKSLASH {
        b := b + [BACKSLASH, BACKSLASH];
      } else if c == NEWLINE {
        b := b + [BACKSLASH, 110];
      } else if c == RETURN {
        b := b + [BACKSLASH, 114];
      } else if c == TAB {
        b := b + [BACKSLASH, 116];
      } else if c < 0x20 {
        b := b + [BACKSLASH, 117, HexDigit(c / 4096), HexDigit(c / 256 % 16), HexDigit(c / 16 % 16), HexDigit(c % 16)];
      } else {
        b := b + [c];
      }
      i := i + 1;
    }
    b := b + [QUOTE];
  }

  /** What `toString` of a Java number can be: any text on one line, `NaN` for instance. */
  type NumText = t: Text | NEWLINE !in t

  /** A statement parameter: the scalars the client accepts, and a BLOB as its base64 text. */
  datatype Param =
    | NullParam
    | BoolParam(b: bool)
    | NumParam(text: NumText)
    | StrParam(s: Text)
    | BlobParam(base64: Text)

  function ParamText(p: Param): Text {
    match p
    case NullParam => Ascii("null")
    case BoolParam(b) => if b then Ascii("true") else Ascii("false")
    case NumParam(t) => t
    case StrParam(s) => Quoted(s)
    case BlobParam(t) => Ascii("{\"$blob\":") + Quoted(t) + Ascii("}")
  }

  /** Each parameter with the comma before it. */
  function Trailing(params: seq<Param>): Text {
    if params == [] then [] else [COMMA] + ParamText(params[0]) + Trailing(params[1..])
  }

  function ArrayText(params: seq<Param>): Text {
    if params == [] then [OPEN, CLOSE] else [OPEN] + ParamText(params[0]) + Trailing(params[1..]) + [CLOSE]
  }

  method JsonValue(p: Param) returns (b: Text)
    ensures b == ParamText(p)
  {
    match p
    case NullParam => return Ascii("null");
    case BoolParam(v) => return if v then Ascii("true") else Ascii("false");
    case NumParam(t) => return t;
    case StrParam(s) => b := JsonStr(s);
    case BlobParam(t) =>
      b := JsonStr(t);
      b := Ascii("{\"$blob\":") + b + Ascii("}");
  }

  method JsonArray(params: seq<Param>) returns (b: Text)
    ensures b == ArrayText(params)
  {
    hide ParamText;
    b := [OPEN];
    var i := 0;
    while i < |params|
      invariant i <= |params|
      invariant i == 0 ==> b == [OPEN]
      invariant i > 0 ==> b + Trailing(params[i..]) + [CLOSE] == ArrayText(params)
    {
      ghost var was := b;
      ghost var rest := Trailing(params[i + 1..]);
      assert params[i..][0] == params[i] && params[i..][1..] == params[i + 1..];
      if i > 0 {
        b := b + [COMMA];
      }
      var v := JsonValue(params[i]);
      b := b + v;
      if i > 0 {
        assert was + ([COMMA] + v + rest) == b + rest;
      }
      i := i + 1;
    }
    b := b + [CLOSE];
    if params != [] {
      assert params[|params|..] == [];
    }
  }

  // ---- Reading, after RFC 8259 ----

  function HexValue(c: CodeUnit): (r: Option<nat>)
    ensures r.Some? ==> r.value < 16
  {
    if 48 <= c <= 57 then Some(c - 48)
    else if 97 <= c <= 102 then Some(c - 87)
    else if 65 <= c <= 70 then Some(c - 55)
    else None
  }

  /** The code unit written by one character or escape at the head of `t`, with the length it takes. */
  function ReadUnit(t: Text): (r: Option<(CodeUnit, nat)>)
    requires t != []
    ensures r.Some? ==> 1 <= r.value.1 <= |t|
  {
    if t[0] != BACKSLASH then (if t[0] < 0x20 || t[0] == QUOTE then None else Some((t[0], 1)))
    else if |t| < 2 then None
    else if t[1] == QUOTE || t[1] == BACKSLASH || t[1] == SLASH then Some((t[1], 2))
    else if t[1] == 98 then Some((8, 2))
    else if t[1] == 102 then Some((12, 2))
    else if t[1] == 110 then Some((NEWLINE, 2))
    else if t[1] == 114 then Some((RETURN, 2))
    else if t[1] == 116 then Some((TAB, 2))
    else if t[1] == 117 && |t| >= 6 then
      var a, b, c, d := HexValue(t[2]), HexValue(t[3]), HexValue(t[4]), HexValue(t[5]);
      if a.None? || b.None? || c.None? || d.None? then None
      else Some((a.value * 4096 + b.value * 256 + c.value * 16 + d.value, 6))
    else None
  }

  /** The rest of a string literal behind its opening quote, and what follows the closing quote. */
  function ReadBody(t: Text): (r: Option<(Text, Text)>)
    ensures r.Some? ==> |r.value.1| < |t|
    decreases |t|
  {
    if t == [] then None
    else if t[0] == QUOTE then Some(([], t[1..]))
    else match ReadUnit(t)
      case None => None
      case Some((c, n)) =>
        match ReadBody(t[n..])
        case None => None
        case Some((s, rest)) => Some(([c] + s, rest))
  }

  function ReadString(t: Text): (r: Option<(Text, Text)>)
    ensures r.Some? ==> |r.value.1| < |t|
  {
    if t == [] || t[0] != QUOTE then None else ReadBody(t[1..])
  }

  predicate IsDigit(c: CodeUnit) {
    48 <= c < 58
  }

  /** How many digits a text starts with. */
  function DigitRun(s: Text): (n: nat)
    ensures n <= |s| && forall i :: 0 <= i < n ==> IsDigit(s[i])
    ensures n < |s| ==> !IsDigit(s[n])
  {
    if s == [] || !IsDigit(s[0]) then 0 else 1 + DigitRun(s[1..])
  }

  /** Nothing, or `e`, a sign or none, and digits. */
  predicate IsExponent(s: Text) {
    || s == []
    || (&& (s[0] == 101 || s[0] == 69)
        && var digits := if |s| > 1 && (s[1] == PLUS || s[1] == MINUS) then s[2..] else s[1..];
           digits != [] && DigitRun(digits) == |digits|)
  }

  /** What may follow the integer part of a number. */
  predicate IsFraction(s: Text) {
    if s != [] && s[0] == POINT then DigitRun(s[1..]) > 0 && IsExponent(s[1 + DigitRun(s[1..])..])
    else IsExponent(s)
  }

  /** The grammar of a JSON number. */
  predicate IsNumber(s: Text) {
    var body := if s != [] && s[0] == MINUS then s[1..] else s;
    var n := DigitRun(body);
    n > 0 && (body[0] == 48 ==> n == 1) && IsFraction(body[n..])
  }

  /** The characters a number consists of; behind a number comes none of them. */
  predicate IsNumeric(c: CodeUnit) {
    IsDigit(c) || c == PLUS || c == MINUS || c == POINT || c == 101 || c == 69
  }

  function NumericRun(s: Text): (n: nat)
    ensures n <= |s| && forall i :: 0 <= i < n ==> IsNumeric(s[i])
    ensures n < |s| ==> !IsNumeric(s[n])
  {
    if s == [] || !IsNumeric(s[0]) then 0 else 1 + NumericRun(s[1..])
  }

  // ---- Round trips ----

  lemma EscapeReads(c: CodeUnit, rest: Text)
    ensures Escape(c) != [] && Escape(c)[0] != QUOTE
    ensures ReadUnit(Escape(c) + rest) == Some((c, |Escape(c)|))
  {
    var t := Escape(c) + rest;
    if c < 0x20 && c != NEWLINE && c != RETURN && c != TAB {
      assert HexValue(HexDigit(c / 4096)) == Some(0) && HexValue(HexDigit(c / 256 % 16)) == Some(0);
      assert HexValue(HexDigit(c / 16 % 16)) == Some(c / 16) && HexValue(HexDigit(c % 16)) == Some(c % 16);
      assert t[2] == HexDigit(c / 4096) && t[3] == HexDigit(c / 256 % 16);
      assert t[4] == HexDigit(c / 16 % 16) && t[5] == HexDigit(c % 16);
    }
  }

  lemma {:induction false} BodyRoundTrip(s: Text, rest: Text)
    ensures ReadBody(EscapeAll(s) + [QUOTE] + rest) == Some((s, rest))
    decreases s
  {
    hide ReadUnit, Escape;
    var t := EscapeAll(s) + [QUOTE] + rest;
    if s == [] {
      assert t[1..] == rest;
    } else {
      var e, tail := Escape(s[0]), EscapeAll(s[1..]) + [QUOTE] + rest;
      assert t == e + tail && t[|e|..] == tail;
      EscapeReads(s[0], tail);
      BodyRoundTrip(s[1..], rest);
      assert s == [s[0]] + s[1..];
    }
  }

  /** Every sequence of code units comes back from its JSON string, whatever follows it in the text. */
  lemma StringRoundTrip(s: Text, rest: Text)
    ensures ReadString(Quoted(s) + rest) == Some((s, rest))
  {
    hide ReadBody, EscapeAll;
    assert (Quoted(s) + rest)[1..] == EscapeAll(s) + [QUOTE] + rest;
    BodyRoundTrip(s, rest);
  }

  lemma PrefixDrops(a: Text, b: Text)
    ensures a <= a + b && (a + b)[|a|..] == b
  {
  }

  lemma HeadDiffers(a: Text, t: Text)
    requires a != [] && t != [] && a[0] != t[0]
    ensures !(a <= t)
  {
  }

  /** What follows a value: nothing that could be part of a number. */
  predicate Delimited(rest: Text) {
    rest == [] || !IsNumeric(rest[0])
  }

  lemma ExponentNumeric(s: Text, c: CodeUnit)
    requires IsExponent(s) && c in s
    ensures IsNumeric(c)
  {
  }

  lemma FractionNumeric(s: Text, c: CodeUnit)
    requires IsFraction(s) && c in s
    ensures IsNumeric(c)
  {
    hide IsExponent;
    if s[0] == POINT {
      var n := DigitRun(s[1..]);
      assert s == [POINT] + s[1..][..n] + s[1 + n..];
      if c in s[1 + n..] {
        ExponentNumeric(s[1 + n..], c);
      }
    } else {
      ExponentNumeric(s, c);
    }
  }

  lemma NumberNumeric(s: Text, c: CodeUnit)
    requires IsNumber(s) && c in s
    ensures IsNumeric(c)
  {
    hide IsFraction;
    var body := if s != [] && s[0] == MINUS then s[1..] else s;
    var n := DigitRun(body);
    assert c in body || c == MINUS;
    if c in body {
      assert body == body[..n] + body[n..];
      if c in body[n..] {
        FractionNumeric(body[n..], c);
      }
    }
  }

  lemma {:induction false} NumericRunIs(s: Text, rest: Text)
    requires (forall i :: 0 <= i < |s| ==> IsNumeric(s[i])) && Delimited(rest)
    ensures NumericRun(s + rest) == |s|
  {
    if s == [] {
      assert s + rest == rest;
    } else {
      assert (s + rest)[1..] == s[1..] + rest;
      NumericRunIs(s[1..], rest);
    }
  }

  // ---- One request, one line ----

  lemma {:induction false} EscapedIsOneLine(s: Text)
    ensures NEWLINE !in EscapeAll(s)
  {
    if s != [] {
      EscapedIsOneLine(s[1..]);
      assert NEWLINE !in Escape(s[0]);
    }
  }

  lemma ParamIsOneLine(p: Param)
    ensures NEWLINE !in ParamText(p)
  {
    hide Ascii, Quoted;
    AsciiIsOneLine("null");
    AsciiIsOneLine("true");
    AsciiIsOneLine("false");
    match p
    case NullParam =>
    case BoolParam(_) =>
    case NumParam(_) =>
    case StrParam(s) => QuotedIsOneLine(s);
    case BlobParam(t) =>
      AsciiIsOneLine("{\"$blob\":");
      AsciiIsOneLine("}");
      QuotedIsOneLine(t);
  }

  lemma {:induction false} TrailingIsOneLine(params: seq<Param>)
    ensures NEWLINE !in Trailing(params)
  {
    hide ParamText;
    if params != [] {
      ParamIsOneLine(params[0]);
      TrailingIsOneLine(params[1..]);
    }
  }

  /** Decimal digits of a positive request counter. */
  function Digits(n: nat): Text {
    if n < 10 then [48 + n] else Digits(n / 10) + [48 + n % 10]
  }

  lemma {:induction false} DigitsAreOneLine(n: nat)
    ensures NEWLINE !in Digits(n)
    decreases n
  {
    if n >= 10 {
      DigitsAreOneLine(n / 10);
    }
  }

  function OptionalField(name: string, value: Option<Text>): Text {
    if value.None? then [] else Ascii(name) + Quoted(value.value)
  }

  function OperationsText(sql: Text, params: seq<Param>): Text {
    Ascii("[{\"sql\":") + Quoted(sql) + Ascii(",\"params\":") + ArrayText(params) + Ascii("}]")
  }

  function ExecuteParams(actor: Text, sql: Text, params: seq<Param>, key: Option<Text>, runId: Option<Text>): Text {
    Ascii("{\"actor_id\":") + Quoted(actor) + OptionalField(",\"run_id\":", runId)
    + OptionalField(",\"idempotency_key\":", key)
    + Ascii(",\"operations\":") + OperationsText(sql, params) + Ascii("}")
  }

  /** The request line of `execute`, as the client assembles it. */
  function ExecuteLine(id: nat, actor: Text, sql: Text, params: seq<Param>,
                       key: Option<Text>, runId: Option<Text>): Text
  {
    Ascii("{\"jsonrpc\":\"2.0\",\"id\":") + Digits(id) + Ascii(",\"method\":\"execute\"")
    + Ascii(",\"params\":") + ExecuteParams(actor, sql, params, key, runId) + Ascii("}")
  }

  lemma AsciiIsOneLine(s: string)
    requires forall i :: 0 <= i < |s| ==> s[i] as int % 0x1_0000 != NEWLINE
    ensures NEWLINE !in Ascii(s)
  {
  }

  lemma QuotedIsOneLine(s: Text)
    ensures NEWLINE !in Quoted(s)
  {
    EscapedIsOneLine(s);
  }

  lemma ArrayIsOneLine(params: seq<Param>)
    ensures NEWLINE !in ArrayText(params)
  {
    hide ParamText, Trailing;
    if params != [] {
      ParamIsOneLine(params[0]);
      TrailingIsOneLine(params[1..]);
    }
  }

  lemma OperationsAreOneLine(sql: Text, params: seq<Param>)
    ensures NEWLINE !in OperationsText(sql, params)
  {
    hide Quoted, ArrayText, Ascii;
    QuotedIsOneLine(sql);
    ArrayIsOneLine(params);
    AsciiIsOneLine("[{\"sql\":");
    AsciiIsOneLine(",\"params\":");
    AsciiIsOneLine("}]");
  }

  lemma OptionalIsOneLine(name: string, value: Option<Text>)
    requires NEWLINE !in Ascii(name)
    ensures NEWLINE !in OptionalField(name, value)
  {
    hide Quoted, Ascii;
    if value.Some? {
      QuotedIsOneLine(value.value);
    }
  }

  lemma ExecuteParamsAreOneLine(actor: Text, sql: Text, params: seq<Param>, key: Option<Text>, runId: Option<Text>)
    ensures NEWLINE !in ExecuteParams(actor, sql, params, key, runId)
  {
    hide Quoted, OperationsText, OptionalField, Ascii;
    QuotedIsOneLine(actor);
    OperationsAreOneLine(sql, params);
    AsciiIsOneLine("{\"actor_id\":");
    AsciiIsOneLine(",\"run_id\":");
    AsciiIsOneLine(",\"idempotency_key\":");
    AsciiIsOneLine(",\"operations\":");
    AsciiIsOneLine("}");
    OptionalIsOneLine(",\"run_id\":", runId);
    OptionalIsOneLine(",\"idempotency_key\":", key);
  }

  /** Whatever the texts contain, a request is one line: a peer that splits the stream at newlines gets
      back exactly the requests that were written. */
  lemma ExecuteIsOneLine(id: nat, actor: Text, sql: Text, params: seq<Param>, key: Option<Text>, runId: Option<Text>,
                         rest: Text)
    ensures var line := ExecuteLine(id, actor, sql, params, key, runId);
            && NEWLINE !in line
            && IndexOf(line + [NEWLINE] + rest, NEWLINE) == |line|
  {
    hide ExecuteParams, Digits, IndexOf, Ascii;
    var line := ExecuteLine(id, actor, sql, params, key, runId);
    ExecuteParamsAreOneLine(actor, sql, params, key, runId);
    DigitsAreOneLine(id);
    AsciiIsOneLine("{\"jsonrpc\":\"2.0\",\"id\":");
    AsciiIsOneLine(",\"method\":\"execute\"");
    AsciiIsOneLine(",\"params\":");
    AsciiIsOneLine("}");
    assert (line + [NEWLINE] + rest)[..|line|] == line;
    IndexUnique(line + [NEWLINE] + rest, NEWLINE, |line|);
  }

  /** The read loop of the client: code units up to the next newline. */
  method ReadLine(stream: Text) returns (line: Option<Text>, rest: Text)
    ensures NEWLINE in stream ==> line.Some? && line.value + [NEWLINE] + rest == stream && NEWLINE !in line.value
    ensures NEWLINE !in stream ==> line.None?
  {
    var i := 0;
    var taken: Text := [];
    while i < |stream|
      invariant i <= |stream| && taken == stream[..i] && NEWLINE !in taken
    {
      if stream[i] == NEWLINE {
        assert stream == stream[..i] + [stream[i]] + stream[i + 1..];
        return Some(taken), stream[i + 1..];
      }
      taken := taken + [stream[i]];
      i := i + 1;
    }
    return None, [];
  }
}

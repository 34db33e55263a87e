/** The texts of the JVM client read as JSON: a reader for RFC 8259 without insignificant white space, which
    the client never writes, and what it finds in a parameter list and in a whole request line. */
module JsonTree {
  import opened Basics
  import opened JsonText
  import Rpc

  const COLON: CodeUnit := 58
  const LEFT: CodeUnit := 123
  const RIGHT: CodeUnit := 125

  /** A JSON value with its number texts as written and its object fields in the order written. */
  datatype Tree =
    | NullTree
    | BoolTree(b: bool)
    | NumTree(text: NumText)
    | StrTree(s: Text)
    | ArrTree(items: seq<Tree>)
    | ObjTree(fields: seq<(Text, Tree)>)

  // ---- Writing ----

  function TreeText(t: Tree): Text
    decreases t, 1
  {
    match t
    case NullTree => Ascii("null")
    case BoolTree(b) => if b then Ascii("true") else Ascii("false")
    case NumTree(text) => text
    case StrTree(s) => Quoted(s)
    case ArrTree(items) =>
      if items == [] then [OPEN, CLOSE] else [OPEN] + TreeText(items[0]) + ItemsText(items[1..]) + [CLOSE]
    case ObjTree(fields) =>
      if fields == [] then [LEFT, RIGHT] else [LEFT] + FieldText(fields[0]) + FieldsText(fields[1..]) + [RIGHT]
  }

  /** Each item with the comma before it. */
  function ItemsText(items: seq<Tree>): Text
    decreases items, 0
  {
    if items == [] then [] else [COMMA] + TreeText(items[0]) + ItemsText(items[1..])
  }

  function FieldText(field: (Text, Tree)): Text
    decreases field, 2
  {
    Quoted(field.0) + [COLON] + TreeText(field.1)
  }

  function FieldsText(fields: seq<(Text, Tree)>): Text
    decreases fields, 0
  {
    if fields == [] then [] else [COMMA] + FieldText(fields[0]) + FieldsText(fields[1..])
  }

  // ---- Reading ----

  function ReadNumber(t: Text): (r: Option<(Tree, Text)>)
    ensures r.Some? ==> |r.value.1| < |t| && r.value.0.NumTree? && IsNumber(r.value.0.text)
  {
    var n := NumericRun(t);
    if IsNumber(t[..n]) then Some((NumTree(t[..n]), t[n..])) else None
  }

  /** One value at the head of a text, and what follows it. */
  function ReadValue(t: Text): (r: Option<(Tree, Text)>)
    ensures r.Some? ==> |r.value.1| < |t|
    decreases |t|, 1
  {
    if t == [] then None
    else if Ascii("null") <= t then Some((NullTree, t[4..]))
    else if Ascii("true") <= t then Some((BoolTree(true), t[4..]))
    else if Ascii("false") <= t then Some((BoolTree(false), t[5..]))
    else if IsDigit(t[0]) || t[0] == MINUS then ReadNumber(t)
    else if t[0] == OPEN then ReadArray(t)
    else if t[0] == LEFT then ReadObject(t)
    else match ReadString(t)
      case Some((s, rest)) => Some((StrTree(s), rest))
      case None => None
  }

  function ReadArray(t: Text): (r: Option<(Tree, Text)>)
    requires t != []
    ensures r.Some? ==> |r.value.1| < |t|
    decreases |t|, 0
  {
    if |t| > 1 && t[1] == CLOSE then Some((ArrTree([]), t[2..]))
    else match ReadValue(t[1..])
      case None => None
      case Some((x, rest)) =>
        match ReadItems(rest)
        case None => None
        case Some((xs, end)) => Some((ArrTree([x] + xs), end))
  }

  /** Items behind the first one, up to the closing bracket. */
  function ReadItems(t: Text): (r: Option<(seq<Tree>, Text)>)
    ensures r.Some? ==> |r.value.1| < |t|
    decreases |t|, 0
  {
    if t == [] then None
    else if t[0] == CLOSE then Some(([], t[1..]))
    else if t[0] != COMMA then None
    else match ReadValue(t[1..])
      case None => None
      case Some((x, rest)) =>
        match ReadItems(rest)
        case None => None
        case Some((xs, end)) => Some(([x] + xs, end))
  }

  function ReadObject(t: Text): (r: Option<(Tree, Text)>)
    requires t != []
    ensures r.Some? ==> |r.value.1| < |t|
    decreases |t|, 0
  {
    if |t| > 1 && t[1] == RIGHT then Some((ObjTree([]), t[2..]))
    else match ReadField(t[1..])
      case None => None
      case Some((f, rest)) =>
        match ReadFields(rest)
        case None => None
        case Some((fs, end)) => Some((ObjTree([f] + fs), end))
  }

  function ReadField(t: Text): (r: Option<((Text, Tree), Text)>)
    ensures r.Some? ==> |r.value.1| < |t|
    decreases |t|, 0
  {
    match ReadString(t)
    case None => None
    case Some((name, rest)) =>
      if rest == [] || rest[0] != COLON then None
      else match ReadValue(rest[1..])
        case None => None
        case Some((x, end)) => Some(((name, x), end))
  }

  /** Fields behind the first one, up to the closing brace. */
  function ReadFields(t: Text): (r: Option<(seq<(Text, Tree)>, Text)>)
    ensures r.Some? ==> |r.value.1| < |t|
    decreases |t|, 0
  {
    if t == [] then None
    else if t[0] == RIGHT then Some(([], t[1..]))
    else if t[0] != COMMA then None
    else match ReadField(t[1..])
      case None => None
      case Some((f, rest)) =>
        match ReadFields(rest)
        case None => None
        case Some((fs, end)) => Some(([f] + fs, end))
  }

  /** Every number in it is a JSON number. */
  predicate Sound(t: Tree) {
    match t
    case NumTree(text) => IsNumber(text)
    case ArrTree(items) => forall x :: x in items ==> Sound(x)
    case ObjTree(fields) => forall f :: f in fields ==> Sound(f.1)
    case _ => true
  }

  // ---- Whatever is read is sound ----

  lemma {:induction false} OnlySound(t: Text)
    ensures ReadValue(t).Some? ==> Sound(ReadValue(t).value.0)
    decreases |t|, 1
  {
    hide IsNumber, ReadString, ReadArray, ReadObject;
    if t != [] {
      if t[0] == OPEN {
        SoundArray(t);
      } else if t[0] == LEFT {
        SoundObject(t);
      }
    }
  }

  lemma {:induction false} SoundArray(t: Text)
    requires t != []
    ensures ReadArray(t).Some? ==> Sound(ReadArray(t).value.0)
    decreases |t|, 0
  {
    hide ReadValue, ReadItems;
    if |t| > 1 && ReadValue(t[1..]).Some? {
      OnlySound(t[1..]);
      SoundItems(ReadValue(t[1..]).value.1);
    }
  }

  lemma {:induction false} SoundItems(t: Text)
    ensures ReadItems(t).Some? ==> forall x :: x in ReadItems(t).value.0 ==> Sound(x)
    decreases |t|, 0
  {
    hide ReadValue, Sound;
    if t != [] && t[0] == COMMA && ReadValue(t[1..]).Some? {
      OnlySound(t[1..]);
      SoundItems(ReadValue(t[1..]).value.1);
    }
  }

  lemma {:induction false} SoundObject(t: Text)
    requires t != []
    ensures ReadObject(t).Some? ==> Sound(ReadObject(t).value.0)
    decreases |t|, 0
  {
    hide ReadField, ReadFields;
    if |t| > 1 && ReadField(t[1..]).Some? {
      SoundField(t[1..]);
      SoundFields(ReadField(t[1..]).value.1);
    }
  }

  lemma {:induction false} SoundField(t: Text)
    ensures ReadField(t).Some? ==> Sound(ReadField(t).value.0.1)
    decreases |t|, 0
  {
    hide ReadValue, ReadString, Sound;
    if ReadString(t).Some? {
      var rest := ReadString(t).value.1;
      if rest != [] {
        OnlySound(rest[1..]);
      }
    }
  }

  lemma {:induction false} SoundFields(t: Text)
    ensures ReadFields(t).Some? ==> forall f :: f in ReadFields(t).value.0 ==> Sound(f.1)
    decreases |t|, 0
  {
    hide ReadField, Sound;
    if t != [] && t[0] == COMMA && ReadField(t[1..]).Some? {
      SoundField(t[1..]);
      SoundFields(ReadField(t[1..]).value.1);
    }
  }

  // ---- What was written is read ----

  lemma Bracketed(open: CodeUnit, first: Text, more: Text, close: CodeUnit, rest: Text)
    ensures var t := [open] + first + more + [close] + rest;
            t != [] && t[0] == open && t[1..] == first + (more + [close] + rest)
    ensures first != [] ==> ([open] + first + more + [close] + rest)[1] == first[0]
  {
    assert [open] + first + more + [close] + rest == [open] + (first + (more + [close] + rest));
    PrefixDrops([open], first + (more + [close] + rest));
  }

  /** What the first character of a value's text is, and what it is not. */
  lemma Heads(x: Tree)
    requires Sound(x)
    ensures TreeText(x) != [] && TreeText(x)[0] != CLOSE && TreeText(x)[0] != RIGHT
    ensures x.StrTree? ==> TreeText(x)[0] == QUOTE
    ensures x.ArrTree? ==> TreeText(x)[0] == OPEN
    ensures x.ObjTree? ==> TreeText(x)[0] == LEFT
  {
    hide IsFraction, FieldText, FieldsText, ItemsText, EscapeAll;
    match x
    case NumTree(text) =>
      assert IsDigit(text[0]) || text[0] == MINUS;
    case _ =>
  }

  lemma NotAWord(t: Text)
    requires t != [] && t[0] != 110 && t[0] != 116 && t[0] != 102
    ensures !(Ascii("null") <= t) && !(Ascii("true") <= t) && !(Ascii("false") <= t)
  {
    HeadDiffers(Ascii("null"), t);
    HeadDiffers(Ascii("true"), t);
    HeadDiffers(Ascii("false"), t);
  }

  lemma NumberReads(text: NumText, rest: Text)
    requires IsNumber(text) && Delimited(rest)
    ensures ReadValue(text + rest) == Some((NumTree(text), rest))
  {
    hide IsFraction, ReadString, NumericRun, ReadArray, ReadObject;
    forall i | 0 <= i < |text| ensures IsNumeric(text[i]) {
      NumberNumeric(text, text[i]);
    }
    NumericRunIs(text, rest);
    PrefixDrops(text, rest);
    var t := text + rest;
    assert t[..|text|] == text;
    assert IsDigit(t[0]) || t[0] == MINUS;
    NotAWord(t);
  }

  lemma WordReads(x: Tree, rest: Text)
    requires x.NullTree? || x.BoolTree?
    ensures ReadValue(TreeText(x) + rest) == Some((x, rest))
  {
    hide ReadNumber, ReadString, ReadArray, ReadObject;
    var t := TreeText(x) + rest;
    PrefixDrops(TreeText(x), rest);
    if x.BoolTree? {
      HeadDiffers(Ascii("null"), t);
      if !x.b {
        HeadDiffers(Ascii("true"), t);
      }
    }
  }

  lemma {:induction false} ValueReads(x: Tree, rest: Text)
    requires Sound(x) && (x.NumTree? ==> Delimited(rest))
    ensures ReadValue(TreeText(x) + rest) == Some((x, rest))
    decreases x, 1
  {
    hide IsNumber, ReadNumber, ReadString, ReadArray, ReadObject, Quoted, FieldText, FieldsText, ItemsText;
    var t := TreeText(x) + rest;
    Heads(x);
    match x {
      case NullTree => WordReads(x, rest);
      case BoolTree(_) => WordReads(x, rest);
      case NumTree(text) => NumberReads(text, rest);
      case StrTree(s) =>
        NotAWord(t);
        StringRoundTrip(s, rest);
      case ArrTree(items) =>
        NotAWord(t);
        ArrayReads(x, rest);
      case ObjTree(fields) =>
        NotAWord(t);
        ObjectReads(x, rest);
    }
  }

  lemma {:induction false} ArrayReads(x: Tree, rest: Text)
    requires x.ArrTree? && Sound(x)
    ensures ReadArray(TreeText(x) + rest) == Some((x, rest))
    decreases x, 0
  {
    hide ReadValue, ReadItems, ItemsText, Delimited;
    var t, items := TreeText(x) + rest, x.items;
    if items == [] {
      assert t[2..] == rest;
    } else {
      var first, more := TreeText(items[0]), ItemsText(items[1..]);
      assert items[0] in items && forall y :: y in items[1..] ==> y in items;
      Heads(items[0]);
      Bracketed(OPEN, first, more, CLOSE, rest);
      ItemsDelimit(items[1..], rest);
      ValueReads(items[0], more + [CLOSE] + rest);
      ItemsRead(items[1..], rest);
      assert items == [items[0]] + items[1..];
    }
  }

  lemma ItemsDelimit(items: seq<Tree>, rest: Text)
    ensures Delimited(ItemsText(items) + [CLOSE] + rest)
  {
    hide TreeText;
  }

  lemma {:induction false} ItemsRead(items: seq<Tree>, rest: Text)
    requires forall x :: x in items ==> Sound(x)
    ensures ReadItems(ItemsText(items) + [CLOSE] + rest) == Some((items, rest))
    decreases items, 0
  {
    hide ReadValue, TreeText, Sound, Delimited;
    var t := ItemsText(items) + [CLOSE] + rest;
    if items == [] {
      assert t[1..] == rest;
    } else {
      var first, more := TreeText(items[0]), ItemsText(items[1..]);
      assert items[0] in items && forall y :: y in items[1..] ==> y in items;
      Bracketed(COMMA, first, more, CLOSE, rest);
      ItemsDelimit(items[1..], rest);
      ValueReads(items[0], more + [CLOSE] + rest);
      ItemsRead(items[1..], rest);
      assert items == [items[0]] + items[1..];
    }
  }

  lemma {:induction false} ObjectReads(x: Tree, rest: Text)
    requires x.ObjTree? && Sound(x)
    ensures ReadObject(TreeText(x) + rest) == Some((x, rest))
    decreases x, 0
  {
    hide ReadField, ReadFields, FieldsText, FieldText, Delimited;
    var t, fields := TreeText(x) + rest, x.fields;
    if fields == [] {
      assert t[2..] == rest;
    } else {
      var first, more := FieldText(fields[0]), FieldsText(fields[1..]);
      assert fields[0] in fields && forall f :: f in fields[1..] ==> f in fields;
      FieldHead(fields[0]);
      Bracketed(LEFT, first, more, RIGHT, rest);
      FieldsDelimit(fields[1..], rest);
      FieldReads(fields[0], more + [RIGHT] + rest);
      FieldsRead(fields[1..], rest);
      assert fields == [fields[0]] + fields[1..];
    }
  }

  lemma FieldHead(f: (Text, Tree))
    ensures FieldText(f) != [] && FieldText(f)[0] == QUOTE
  {
    hide EscapeAll, TreeText;
  }

  lemma FieldsDelimit(fields: seq<(Text, Tree)>, rest: Text)
    ensures Delimited(FieldsText(fields) + [RIGHT] + rest)
  {
    hide FieldText;
  }

  lemma {:induction false} FieldReads(f: (Text, Tree), rest: Text)
    requires Sound(f.1) && Delimited(rest)
    ensures ReadField(FieldText(f) + rest) == Some((f, rest))
    decreases f, 2
  {
    hide ReadValue, ReadString, TreeText, Quoted, Sound, Delimited;
    var tail := TreeText(f.1) + rest;
    assert FieldText(f) + rest == Quoted(f.0) + ([COLON] + tail);
    StringRoundTrip(f.0, [COLON] + tail);
    PrefixDrops([COLON], tail);
    ValueReads(f.1, rest);
  }

  lemma {:induction false} FieldsRead(fields: seq<(Text, Tree)>, rest: Text)
    requires forall f :: f in fields ==> Sound(f.1)
    ensures ReadFields(FieldsText(fields) + [RIGHT] + rest) == Some((fields, rest))
    decreases fields, 0
  {
    hide ReadField, FieldText, Sound, Delimited;
    var t := FieldsText(fields) + [RIGHT] + rest;
    if fields == [] {
      assert t[1..] == rest;
    } else {
      var first, more := FieldText(fields[0]), FieldsText(fields[1..]);
      assert fields[0] in fields && forall f :: f in fields[1..] ==> f in fields;
      Bracketed(COMMA, first, more, RIGHT, rest);
      FieldsDelimit(fields[1..], rest);
      FieldReads(fields[0], more + [RIGHT] + rest);
      FieldsRead(fields[1..], rest);
      assert fields == [fields[0]] + fields[1..];
    }
  }

  /** A value comes back from its text exactly when every number in it is a JSON number. */
  lemma ValueRoundTrip(x: Tree, rest: Text)
    requires x.NumTree? ==> Delimited(rest)
    ensures ReadValue(TreeText(x) + rest) == Some((x, rest)) <==> Sound(x)
  {
    hide ReadValue, TreeText, Sound;
    OnlySound(TreeText(x) + rest);
    if Sound(x) {
      ValueReads(x, rest);
    }
  }

  // ---- The client's texts ----

  function ParamTree(p: Param): Tree {
    match p
    case NullParam => NullTree
    case BoolParam(b) => BoolTree(b)
    case NumParam(t) => NumTree(t)
    case StrParam(s) => StrTree(s)
    case BlobParam(t) => ObjTree([(Ascii("$blob"), StrTree(t))])
  }

  function ParamTrees(params: seq<Param>): (trees: seq<Tree>)
    ensures |trees| == |params| && forall i :: 0 <= i < |params| ==> trees[i] == ParamTree(params[i])
  {
    seq(|params|, i requires 0 <= i < |params| => ParamTree(params[i]))
  }

  /** A text of printable ASCII characters that need no escape. */
  predicate Plain(s: string) {
    forall i :: 0 <= i < |s| ==> ' ' <= s[i] <= '~' && s[i] != '"' && s[i] != '\\'
  }

  lemma PlainCharacter(c: char)
    requires ' ' <= c <= '~' && c != '"' && c != '\\'
    ensures Escape(c as int) == [c as int]
  {
  }

  lemma {:induction false} PlainEscapes(s: string)
    requires Plain(s)
    ensures EscapeAll(Ascii(s)) == Ascii(s)
  {
    hide Escape;
    if s != [] {
      PlainCharacter(s[0]);
      AsciiConcat([s[0]], s[1..]);
      assert [s[0]] + s[1..] == s;
      assert Ascii([s[0]]) == [s[0] as int];
      PlainEscapes(s[1..]);
      assert ([s[0] as int] + Ascii(s[1..]))[1..] == Ascii(s[1..]);
    }
  }

  lemma AsciiConcat(a: string, b: string)
    ensures Ascii(a + b) == Ascii(a) + Ascii(b)
  {
  }

  /** A field with a plain name. */
  lemma Named(name: string, x: Tree)
    requires Plain(name)
    ensures FieldText((Ascii(name), x)) == Ascii("\"" + name + "\":") + TreeText(x)
  {
    hide Ascii, EscapeAll, TreeText;
    PlainEscapes(name);
    AsciiConcat("\"" + name, "\":");
    AsciiConcat("\"", name);
    Marks();
    assert [QUOTE] + Ascii(name) + [QUOTE] + [COLON] == Ascii("\"") + Ascii(name) + Ascii("\":");
  }

  lemma Marks()
    ensures Ascii("\"") == [QUOTE] && Ascii("\":") == [QUOTE, COLON] && Ascii(",") == [COMMA]
    ensures Ascii("{") == [LEFT] && Ascii("}") == [RIGHT] && Ascii("[") == [OPEN] && Ascii("]") == [CLOSE]
  {
  }

  /** An object that starts with a field of a plain name. */
  lemma ObjectOf(name: string, x: Tree, more: seq<(Text, Tree)>)
    requires Plain(name)
    ensures TreeText(ObjTree([(Ascii(name), x)] + more)) ==
            Ascii("{\"" + name + "\":") + TreeText(x) + FieldsText(more) + Ascii("}")
  {
    hide Ascii, FieldText, FieldsText;
    Named(name, x);
    Marks();
    AsciiConcat("{", "\"" + name + "\":");
    assert "{" + ("\"" + name + "\":") == "{\"" + name + "\":";
    var f: (Text, Tree) := (Ascii(name), x);
    assert ([f] + more)[0] == f && ([f] + more)[1..] == more;
    var text := TreeText(x);
    assert [LEFT] + (Ascii("\"" + name + "\":") + text) == Ascii("{\"" + name + "\":") + text;
  }

  lemma BlobIsTree(base64: Text)
    ensures ParamText(BlobParam(base64)) == TreeText(ParamTree(BlobParam(base64)))
  {
    hide Ascii, Quoted, FieldText;
    var x, none := StrTree(base64), [];
    ObjectOf("$blob", x, none);
    assert "{\"" + "$blob" + "\":" == "{\"$blob\":";
    assert [(Ascii("$blob"), x)] + none == [(Ascii("$blob"), x)];
    assert Ascii("{\"$blob\":") + Quoted(base64) + [] == Ascii("{\"$blob\":") + Quoted(base64);
  }

  lemma ParamIsTree(p: Param)
    ensures ParamText(p) == TreeText(ParamTree(p))
  {
    hide Quoted, Ascii, FieldText;
    if p.BlobParam? {
      BlobIsTree(p.base64);
    }
  }

  lemma {:induction false} TrailingAreItems(params: seq<Param>)
    ensures Trailing(params) == ItemsText(ParamTrees(params))
  {
    hide ParamText, TreeText, ParamTree;
    if params != [] {
      ParamIsTree(params[0]);
      TrailingAreItems(params[1..]);
      assert ParamTrees(params)[1..] == ParamTrees(params[1..]);
    }
  }

  lemma ArrayIsTree(params: seq<Param>)
    ensures ArrayText(params) == TreeText(ArrTree(ParamTrees(params)))
  {
    hide ParamText, ParamTree;
    if params != [] {
      ParamIsTree(params[0]);
      TrailingAreItems(params[1..]);
      assert ParamTrees(params)[1..] == ParamTrees(params[1..]);
    }
  }

  /** Different parameters are different values. */
  lemma ParamTreeInjective(p: Param, q: Param)
    ensures ParamTree(p) == ParamTree(q) <==> p == q
  {
    if p.BlobParam? && q.BlobParam? && ParamTree(p) == ParamTree(q) {
      assert ParamTree(p).fields[0] == ParamTree(q).fields[0];
    }
  }

  /** A parameter list is read from its JSON array, with nothing added or lost, exactly when the text of every
      number in it is a JSON number: strings, blobs, booleans and nulls always are. */
  lemma ArrayRoundTrip(params: seq<Param>, rest: Text)
    ensures ReadValue(ArrayText(params) + rest) == Some((ArrTree(ParamTrees(params)), rest)) <==>
            forall p :: p in params && p.NumParam? ==> IsNumber(p.text)
  {
    hide ReadValue, TreeText, IsNumber, ArrayText;
    ArrayIsTree(params);
    ValueRoundTrip(ArrTree(ParamTrees(params)), rest);
    ParamsSound(params);
  }

  lemma ParamsSound(params: seq<Param>)
    ensures Sound(ArrTree(ParamTrees(params))) <==> forall p :: p in params && p.NumParam? ==> IsNumber(p.text)
  {
    hide IsNumber;
    var trees := ParamTrees(params);
    forall i | 0 <= i < |params| ensures Sound(trees[i]) <==> (params[i].NumParam? ==> IsNumber(params[i].text)) {
      assert trees[i] == ParamTree(params[i]);
    }
    assert Sound(ArrTree(trees)) <==> forall i :: 0 <= i < |trees| ==> Sound(trees[i]);
  }

  /** A parameter that is not a number in JSON: the request line is no JSON then. */
  lemma NotANumber(rest: Text)
    ensures !IsNumber(Ascii("NaN"))
    ensures ReadValue(ArrayText([NumParam(Ascii("NaN"))]) + rest).None?
  {
    hide ReadItems, ReadObject;
    var nan := Ascii("NaN");
    assert nan[0] == 78 && |nan| == 3;
    var t := ArrayText([NumParam(nan)]) + rest;
    assert t[0] == OPEN && t[1] == 78 && t[1..][0] == 78;
    NotAWord(t);
    ReadsNothing(t[1..]);
  }

  lemma ReadsNothing(t: Text)
    requires t != [] && t[0] == 78
    ensures ReadValue(t).None?
  {
    hide ReadArray, ReadObject, ReadNumber, ReadBody;
    NotAWord(t);
  }

  /** Fields that may be missing. */
  function Optional(name: string, value: Option<Text>): seq<(Text, Tree)> {
    if value.None? then [] else [(Ascii(name), StrTree(value.value))]
  }

  lemma {:induction false} FieldsConcat(a: seq<(Text, Tree)>, b: seq<(Text, Tree)>)
    ensures FieldsText(a + b) == FieldsText(a) + FieldsText(b)
  {
    hide FieldText;
    if a == [] {
      assert a + b == b;
    } else {
      assert (a + b)[1..] == a[1..] + b;
      FieldsConcat(a[1..], b);
      assert [COMMA] + FieldText(a[0]) + (FieldsText(a[1..]) + FieldsText(b)) ==
             [COMMA] + FieldText(a[0]) + FieldsText(a[1..]) + FieldsText(b);
    }
  }

  /** One more field behind others. */
  lemma OneField(name: string, x: Tree)
    requires Plain(name)
    ensures FieldsText([(Ascii(name), x)]) == Ascii(",\"" + name + "\":") + TreeText(x)
  {
    hide Ascii, FieldText, TreeText;
    Named(name, x);
    Marks();
    AsciiConcat(",", "\"" + name + "\":");
    assert "," + ("\"" + name + "\":") == ",\"" + name + "\":";
    var f: (Text, Tree) := (Ascii(name), x);
    assert [f][1..] == [] && [COMMA] + FieldText(f) + [] == [COMMA] + FieldText(f);
  }

  lemma OptionalIsFields(name: string, value: Option<Text>)
    requires Plain(name)
    ensures FieldsText(Optional(name, value)) == OptionalField(",\"" + name + "\":", value)
  {
    hide Ascii, Quoted;
    if value.Some? {
      OneField(name, StrTree(value.value));
    }
  }

  /** The params object of an execute request, field by field. */
  function ParamsTree(actor: Text, sql: Text, params: seq<Param>, key: Option<Text>, runId: Option<Text>): Tree {
    ObjTree([(Ascii("actor_id"), StrTree(actor))]
            + (Optional("run_id", runId) + Optional("idempotency_key", key)
               + [(Ascii("operations"), ArrTree([OperationTree(sql, params)]))]))
  }

  function OperationTree(sql: Text, params: seq<Param>): Tree {
    ObjTree([(Ascii("sql"), StrTree(sql))] + [(Ascii("params"), ArrTree(ParamTrees(params)))])
  }

  function RequestTree(id: nat, params: Tree): Tree {
    ObjTree([(Ascii("jsonrpc"), StrTree(Ascii("2.0")))]
            + ([(Ascii("id"), NumTree(DigitText(id)))] + [(Ascii("method"), StrTree(Ascii("execute")))]
               + [(Ascii("params"), params)]))
  }

  function DigitText(id: nat): NumText {
    DigitsAreOneLine(id);
    Digits(id)
  }

  lemma OperationsAreTree(sql: Text, params: seq<Param>)
    ensures OperationsText(sql, params) == TreeText(ArrTree([OperationTree(sql, params)]))
  {
    hide Ascii, Quoted, ArrayText, FieldText, FieldsText;
    var list := ArrTree(ParamTrees(params));
    ArrayIsTree(params);
    ObjectOf("sql", StrTree(sql), [(Ascii("params"), list)]);
    OneField("params", list);
    Marks();
    AsciiConcat("[", "{\"sql\":");
    AsciiConcat("}", "]");
    assert "[" + "{\"sql\":" == "[{\"sql\":" && "}" + "]" == "}]";
    assert "{\"" + "sql" + "\":" == "{\"sql\":" && ",\"" + "params" + "\":" == ",\"params\":";
    var x := OperationTree(sql, params);
    var xs := [x];
    assert xs[1..] == [];
    assert TreeText(ArrTree(xs)) == [OPEN] + TreeText(x) + ItemsText([]) + [CLOSE];
    Surround(Ascii("["), Ascii("{\"sql\":"), Quoted(sql), Ascii(",\"params\":") + ArrayText(params),
             Ascii("}"), Ascii("]"));
  }

  lemma Surround(a: Text, b: Text, c: Text, d: Text, e: Text, f: Text)
    ensures a + (b + c + d + e) + [] + f == (a + b) + c + d + (e + f)
  {
  }

  lemma ExecuteParamsAreTree(actor: Text, sql: Text, params: seq<Param>, key: Option<Text>, runId: Option<Text>)
    ensures ExecuteParams(actor, sql, params, key, runId) == TreeText(ParamsTree(actor, sql, params, key, runId))
  {
    hide Ascii, Quoted, FieldText, FieldsText, OperationsText, OptionalField, Optional, OperationTree;
    var ops := ArrTree([OperationTree(sql, params)]);
    var run, keyed, last := Optional("run_id", runId), Optional("idempotency_key", key), [(Ascii("operations"), ops)];
    OperationsAreTree(sql, params);
    ObjectOf("actor_id", StrTree(actor), run + keyed + last);
    FieldsConcat(run + keyed, last);
    FieldsConcat(run, keyed);
    OptionalIsFields("run_id", runId);
    OptionalIsFields("idempotency_key", key);
    OneField("operations", ops);
    assert "{\"" + "actor_id" + "\":" == "{\"actor_id\":" && ",\"" + "run_id" + "\":" == ",\"run_id\":";
    assert ",\"" + "idempotency_key" + "\":" == ",\"idempotency_key\":";
    assert ",\"" + "operations" + "\":" == ",\"operations\":";
    Chain(Ascii("{\"actor_id\":"), Quoted(actor), FieldsText(run), FieldsText(keyed),
          Ascii(",\"operations\":"), OperationsText(sql, params), Ascii("}"));
  }

  lemma Chain(a: Text, b: Text, c: Text, d: Text, e: Text, f: Text, g: Text)
    ensures a + b + c + d + e + f + g == a + b + (c + d + (e + f)) + g
  {
  }

  lemma ExecuteLineIsTree(id: nat, actor: Text, sql: Text, params: seq<Param>, key: Option<Text>, runId: Option<Text>)
    ensures ExecuteLine(id, actor, sql, params, key, runId) ==
            TreeText(RequestTree(id, ParamsTree(actor, sql, params, key, runId)))
  {
    hide Ascii, EscapeAll, FieldText, FieldsText, ExecuteParams, ParamsTree, Digits;
    var inner := ParamsTree(actor, sql, params, key, runId);
    var number, verb := NumTree(DigitText(id)), StrTree(Ascii("execute"));
    var a, b, c := [(Ascii("id"), number)], [(Ascii("method"), verb)], [(Ascii("params"), inner)];
    ExecuteParamsAreTree(actor, sql, params, key, runId);
    ObjectOf("jsonrpc", StrTree(Ascii("2.0")), a + b + c);
    FieldsConcat(a + b, c);
    FieldsConcat(a, b);
    OneField("id", number);
    OneField("method", verb);
    OneField("params", inner);
    PlainEscapes("2.0");
    PlainEscapes("execute");
    Literals();
    var version, word := Ascii("\"") + Ascii("2.0") + Ascii("\""), Ascii("\"") + Ascii("execute") + Ascii("\"");
    Marks();
    Weave(Ascii("{\"jsonrpc\":"), version, Ascii(",\"id\":"), Digits(id), Ascii(",\"method\":"), word,
          Ascii(",\"params\":"), ExecuteParams(actor, sql, params, key, runId), Ascii("}"));
  }

  /** The fixed texts of the client, cut at the names and values in them. */
  lemma Literals()
    ensures Ascii("{\"jsonrpc\":\"2.0\",\"id\":") ==
            Ascii("{\"jsonrpc\":") + (Ascii("\"") + Ascii("2.0") + Ascii("\"")) + Ascii(",\"id\":")
    ensures Ascii(",\"method\":\"execute\"") ==
            Ascii(",\"method\":") + (Ascii("\"") + Ascii("execute") + Ascii("\""))
    ensures "{\"" + "jsonrpc" + "\":" == "{\"jsonrpc\":" && ",\"" + "id" + "\":" == ",\"id\":"
    ensures ",\"" + "method" + "\":" == ",\"method\":" && ",\"" + "params" + "\":" == ",\"params\":"
  {
    hide Ascii;
    AsciiConcat("\"", "2.0");
    AsciiConcat("\"2.0", "\"");
    AsciiConcat("{\"jsonrpc\":", "\"2.0\"");
    AsciiConcat("{\"jsonrpc\":\"2.0\"", ",\"id\":");
    AsciiConcat("\"", "execute");
    AsciiConcat("\"execute", "\"");
    AsciiConcat(",\"method\":", "\"execute\"");
    assert "\"" + "2.0" == "\"2.0" && "\"2.0" + "\"" == "\"2.0\"";
    assert "{\"jsonrpc\":" + "\"2.0\"" == "{\"jsonrpc\":\"2.0\"";
    assert "{\"jsonrpc\":\"2.0\"" + ",\"id\":" == "{\"jsonrpc\":\"2.0\",\"id\":";
    assert "\"" + "execute" == "\"execute" && "\"execute" + "\"" == "\"execute\"";
    assert ",\"method\":" + "\"execute\"" == ",\"method\":\"execute\"";
  }

  lemma Weave(a: Text, b: Text, c: Text, d: Text, e: Text, f: Text, g: Text, h: Text, i: Text)
    ensures (a + b + c) + d + (e + f) + g + h + i == a + b + (c + d + (e + f) + (g + h)) + i
  {
  }

  lemma {:induction false} DigitsRun(n: nat)
    ensures Digits(n) != [] && (n > 0 ==> Digits(n)[0] != 48) && (n == 0 ==> Digits(n) == [48])
    ensures forall i :: 0 <= i < |Digits(n)| ==> IsDigit(Digits(n)[i])
    decreases n
  {
    if n >= 10 {
      DigitsRun(n / 10);
    }
  }

  lemma {:induction false} RunOfDigits(s: Text)
    requires forall i :: 0 <= i < |s| ==> IsDigit(s[i])
    ensures DigitRun(s) == |s|
  {
    if s != [] {
      RunOfDigits(s[1..]);
    }
  }

  lemma DigitsAreNumber(n: nat)
    ensures IsNumber(Digits(n))
  {
    hide Digits;
    DigitsRun(n);
    RunOfDigits(Digits(n));
    assert Digits(n)[|Digits(n)|..] == [];
    assert Digits(n)[0] == 48 ==> Digits(n) == [48];
  }

  /** The client prints numbers as the gateway does: in decimal. */
  lemma {:induction false} DigitsAreDecimal(n: nat)
    ensures Digits(n) == Ascii(Rpc.NatText(n))
    decreases n
  {
    var last := "0123456789"[n % 10];
    assert last as int == 48 + n % 10;
    if n >= 10 {
      DigitsAreDecimal(n / 10);
      AsciiConcat(Rpc.NatText(n / 10), [last]);
      assert Ascii([last]) == [48 + n % 10];
    }
  }

  /** Whatever the texts contain, the request line of `execute` is one JSON value and nothing more: the call
      with the client's number, the actor, run id and key if they are given, and the statement with its
      parameters. If some number has no JSON text it is not that value. */
  lemma ExecuteReads(id: nat, actor: Text, sql: Text, params: seq<Param>, key: Option<Text>, runId: Option<Text>)
    ensures var operation := ObjTree([(Ascii("sql"), StrTree(sql)), (Ascii("params"), ArrTree(ParamTrees(params)))]);
            var inner := ObjTree(
              [(Ascii("actor_id"), StrTree(actor))]
              + (if runId.None? then [] else [(Ascii("run_id"), StrTree(runId.value))])
              + (if key.None? then [] else [(Ascii("idempotency_key"), StrTree(key.value))])
              + [(Ascii("operations"), ArrTree([operation]))]);
            var request := ObjTree(
              [(Ascii("jsonrpc"), StrTree(Ascii("2.0"))), (Ascii("id"), NumTree(DigitText(id))),
               (Ascii("method"), StrTree(Ascii("execute"))), (Ascii("params"), inner)]);
            ReadValue(ExecuteLine(id, actor, sql, params, key, runId)) == Some((request, [])) <==>
            forall p :: p in params && p.NumParam? ==> IsNumber(p.text)
  {
    hide ReadValue, TreeText, ExecuteLine, Sound, IsNumber, Ascii, DigitText, ParamTrees;
    var inner := ParamsTree(actor, sql, params, key, runId);
    var tree := RequestTree(id, inner);
    ExecuteLineIsTree(id, actor, sql, params, key, runId);
    RequestSound(id, actor, sql, params, key, runId);
    ValueRoundTrip(tree, []);
    assert TreeText(tree) + [] == TreeText(tree);
    assert inner.fields == [(Ascii("actor_id"), StrTree(actor))] + Optional("run_id", runId)
           + Optional("idempotency_key", key) + [(Ascii("operations"), ArrTree([OperationTree(sql, params)]))];
    assert OperationTree(sql, params).fields ==
           [(Ascii("sql"), StrTree(sql)), (Ascii("params"), ArrTree(ParamTrees(params)))];
    assert tree.fields ==
           [(Ascii("jsonrpc"), StrTree(Ascii("2.0"))), (Ascii("id"), NumTree(DigitText(id))),
            (Ascii("method"), StrTree(Ascii("execute"))), (Ascii("params"), inner)];
  }

  /** An object is as sound as its one value in doubt. */
  lemma SoundBut(fields: seq<(Text, Tree)>, i: nat)
    requires i < |fields| && forall j :: 0 <= j < |fields| && j != i ==> Sound(fields[j].1)
    ensures Sound(ObjTree(fields)) <==> Sound(fields[i].1)
  {
    assert fields[i] in fields;
  }

  lemma SoundOne(x: Tree)
    ensures Sound(ArrTree([x])) <==> Sound(x)
  {
    assert x in [x];
  }

  lemma RequestSound(id: nat, actor: Text, sql: Text, params: seq<Param>, key: Option<Text>, runId: Option<Text>)
    ensures var tree := RequestTree(id, ParamsTree(actor, sql, params, key, runId));
            tree.ObjTree? && (Sound(tree) <==> forall p :: p in params && p.NumParam? ==> IsNumber(p.text))
  {
    hide IsNumber, Ascii, ParamTrees, Sound;
    ParamsSound(params);
    var op, inner := OperationTree(sql, params), ParamsTree(actor, sql, params, key, runId);
    SoundLeaves(StrTree(sql));
    SoundBut(op.fields, 1);
    SoundOne(op);
    forall j | 0 <= j < |inner.fields| - 1 ensures Sound(inner.fields[j].1) {
      SoundLeaves(inner.fields[j].1);
    }
    SoundBut(inner.fields, |inner.fields| - 1);
    DigitsAreNumber(id);
    var fields := RequestTree(id, inner).fields;
    SoundLeaves(fields[0].1);
    SoundLeaves(fields[1].1);
    SoundLeaves(fields[2].1);
    SoundBut(fields, 3);
  }

  lemma SoundLeaves(x: Tree)
    ensures x.StrTree? || (x.NumTree? && IsNumber(x.text)) ==> Sound(x)
  {
  }
}

/** Operation lists and JSON values can be written as text without loss. The text here is not the one
    the gateway writes: it shows that what other modules ask of a serialiser can be met. */
module Encoding {
  import opened Basics
  import opened Requests

  function Repeat(c: char, n: nat): string {
    if n == 0 then "" else [c] + Repeat(c, n - 1)
  }

  function NatCode(n: nat): string {
    Repeat('1', n) + "."
  }

  function StrCode(s: string): string {
    if s == "" then "." else (if s[0] == '\n' then "n" else ['c', s[0]]) + StrCode(s[1..])
  }

  ghost function Pick(keys: set<string>): (k: string)
    requires keys != {}
    ensures k in keys
  {
    var k :| k in keys; k
  }

  ghost function Code(j: Json): string
    decreases j, 1, 0
  {
    match j
    case Null => "z"
    case Bool(b) => if b then "t" else "f"
    case Num(n) => if n < 0 then "-" + NatCode(-n) else "+" + NatCode(n)
    case Frac(bits) => "r" + NatCode(bits)
    case Str(s) => "s" + StrCode(s)
    case Arr(items) => "a" + ItemsCode(items)
    case Obj(fields) => "o" + FieldsCode(j, fields.Keys)
  }

  ghost function ItemsCode(items: seq<Json>): string
    decreases items, 0, 0
  {
    if items == [] then "." else "," + Code(items[0]) + ItemsCode(items[1..])
  }

  ghost function FieldsCode(j: Json, keys: set<string>): string
    requires j.Obj? && keys <= j.fields.Keys
    decreases j, 0, |keys|
  {
    if keys == {} then "."
    else var k := Pick(keys); "," + StrCode(k) + Code(j.fields[k]) + FieldsCode(j, keys - {k})
  }

  ghost function OpsCode(ops: seq<Operation>): string {
    if ops == [] then "." else "," + StrCode(ops[0].sql) + ItemsCode(ops[0].params) + OpsCode(ops[1..])
  }

  // ---- No code is a proper prefix of another, so a code determines its value ----

  lemma Peel(c: char, u: string, d: char, v: string)
    requires [c] + u == [d] + v
    ensures c == d && u == v
  {
    assert ([c] + u)[0] == c && ([d] + v)[0] == d;
    assert ([c] + u)[1..] == u && ([d] + v)[1..] == v;
  }

  lemma Reassociate(c: char, p: string, q: string, r: string, x: string)
    ensures [c] + p + x == [c] + (p + x)
    ensures [c] + p + q + x == [c] + (p + (q + x))
    ensures [c] + p + q + r + x == [c] + (p + (q + (r + x)))
  {
  }

  lemma {:induction false} NatSeparates(a: nat, x: string, b: nat, y: string)
    requires NatCode(a) + x == NatCode(b) + y
    ensures a == b && x == y
  {
    NatUnfold(a, x);
    NatUnfold(b, y);
    assert (NatCode(a) + x)[0] == (NatCode(b) + y)[0];
    if a == 0 || b == 0 {
      Peel('.', x, '.', y);
    } else {
      Peel('1', NatCode(a - 1) + x, '1', NatCode(b - 1) + y);
      NatSeparates(a - 1, x, b - 1, y);
    }
  }

  lemma NatUnfold(n: nat, x: string)
    ensures n == 0 ==> NatCode(n) + x == ['.'] + x
    ensures n > 0 ==> NatCode(n) + x == ['1'] + (NatCode(n - 1) + x)
  {
    if n > 0 {
      assert ['1'] + Repeat('1', n - 1) + "." + x == ['1'] + (Repeat('1', n - 1) + "." + x);
    }
  }

  lemma {:induction false} StrSeparates(a: string, x: string, b: string, y: string)
    requires StrCode(a) + x == StrCode(b) + y
    ensures a == b && x == y
  {
    StrUnfold(a, x);
    StrUnfold(b, y);
    if a == [] || b == [] {
      assert (StrCode(a) + x)[0] == (StrCode(b) + y)[0];
      Peel('.', x, '.', y);
    } else {
      assert (StrCode(a) + x)[0] == (StrCode(b) + y)[0];
      var p, q := StrCode(a[1..]) + x, StrCode(b[1..]) + y;
      if a[0] == '\n' {
        Peel('n', p, 'n', q);
      } else {
        Peel('c', [a[0]] + p, 'c', [b[0]] + q);
        Peel(a[0], p, b[0], q);
      }
      StrSeparates(a[1..], x, b[1..], y);
    }
  }

  lemma StrUnfold(s: string, x: string)
    ensures s == [] ==> StrCode(s) + x == ['.'] + x
    ensures s != [] && s[0] == '\n' ==> StrCode(s) + x == ['n'] + (StrCode(s[1..]) + x)
    ensures s != [] && s[0] != '\n' ==> StrCode(s) + x == ['c'] + ([s[0]] + (StrCode(s[1..]) + x))
  {
    if s != [] {
      Reassociate('n', StrCode(s[1..]), "", "", x);
      assert ['c', s[0]] + StrCode(s[1..]) + x == ['c'] + ([s[0]] + (StrCode(s[1..]) + x));
    }
  }

  /** The letter a value's code starts with. */
  function Tag(j: Json): char {
    match j
    case Null => 'z'
    case Bool(b) => if b then 't' else 'f'
    case Num(n) => if n < 0 then '-' else '+'
    case Frac(_) => 'r'
    case Str(_) => 's'
    case Arr(_) => 'a'
    case Obj(_) => 'o'
  }

  ghost function Body(j: Json): string {
    match j
    case Null => ""
    case Bool(_) => ""
    case Num(n) => if n < 0 then NatCode(-n) else NatCode(n)
    case Frac(bits) => NatCode(bits)
    case Str(s) => StrCode(s)
    case Arr(items) => ItemsCode(items)
    case Obj(fields) => FieldsCode(j, fields.Keys)
  }

  lemma TagAndBody(j: Json, x: string)
    ensures Code(j) + x == [Tag(j)] + (Body(j) + x)
  {
    assert Code(j) == [Tag(j)] + Body(j);
    Reassociate(Tag(j), Body(j), "", "", x);
  }

  /** Behind any continuation the code of a value can be told from that of every other value. */
  lemma {:induction false} Separates(a: Json, x: string, b: Json, y: string)
    requires Code(a) + x == Code(b) + y
    ensures a == b && x == y
    decreases a, 1, 0
  {
    hide NatCode, StrCode, Code, ItemsCode, FieldsCode;
    TagAndBody(a, x);
    TagAndBody(b, y);
    Peel(Tag(a), Body(a) + x, Tag(b), Body(b) + y);
    match a {
      case Null => assert "" + x == x && "" + y == y;
      case Bool(_) => assert "" + x == x && "" + y == y;
      case Num(n) => NatSeparates(if n < 0 then -n else n, x, if b.n < 0 then -b.n else b.n, y);
      case Frac(bits) => NatSeparates(bits, x, b.bits, y);
      case Str(s) => StrSeparates(s, x, b.s, y);
      case Arr(items) => ItemsSeparate(items, x, b.items, y);
      case Obj(fields) =>
        FieldsSeparate(a, fields.Keys, x, b, b.fields.Keys, y);
        assert fields == b.fields;
    }
  }

  lemma {:induction false} ItemsSeparate(a: seq<Json>, x: string, b: seq<Json>, y: string)
    requires ItemsCode(a) + x == ItemsCode(b) + y
    ensures a == b && x == y
    decreases a, 0, 0
  {
    hide Code;
    ItemsUnfold(a, x);
    ItemsUnfold(b, y);
    assert (ItemsCode(a) + x)[0] == (ItemsCode(b) + y)[0];
    if a == [] || b == [] {
      Peel('.', x, '.', y);
    } else {
      var p, q := ItemsCode(a[1..]) + x, ItemsCode(b[1..]) + y;
      Peel(',', Code(a[0]) + p, ',', Code(b[0]) + q);
      Separates(a[0], p, b[0], q);
      ItemsSeparate(a[1..], x, b[1..], y);
      assert a == [a[0]] + a[1..] && b == [b[0]] + b[1..];
    }
  }

  lemma ItemsUnfold(items: seq<Json>, x: string)
    ensures items == [] ==> ItemsCode(items) + x == ['.'] + x
    ensures items != [] ==> ItemsCode(items) + x == [','] + (Code(items[0]) + (ItemsCode(items[1..]) + x))
  {
    if items != [] {
      Reassociate(',', Code(items[0]), ItemsCode(items[1..]), "", x);
    }
  }

  lemma {:induction false} FieldsSeparate(a: Json, ka: set<string>, x: string, b: Json, kb: set<string>, y: string)
    requires a.Obj? && b.Obj? && ka <= a.fields.Keys && kb <= b.fields.Keys
    requires FieldsCode(a, ka) + x == FieldsCode(b, kb) + y
    ensures ka == kb && x == y && forall k :: k in ka ==> a.fields[k] == b.fields[k]
    decreases a, 0, |ka|
  {
    hide Code, StrCode;
    FieldsUnfold(a, ka, x);
    FieldsUnfold(b, kb, y);
    assert (FieldsCode(a, ka) + x)[0] == (FieldsCode(b, kb) + y)[0];
    if ka == {} || kb == {} {
      Peel('.', x, '.', y);
    } else {
      var k, l := Pick(ka), Pick(kb);
      var p, q := FieldsCode(a, ka - {k}) + x, FieldsCode(b, kb - {l}) + y;
      Peel(',', StrCode(k) + (Code(a.fields[k]) + p), ',', StrCode(l) + (Code(b.fields[l]) + q));
      StrSeparates(k, Code(a.fields[k]) + p, l, Code(b.fields[l]) + q);
      Separates(a.fields[k], p, b.fields[l], q);
      FieldsSeparate(a, ka - {k}, x, b, kb - {l}, y);
      assert ka == ka - {k} + {k} && kb == kb - {k} + {k};
    }
  }

  lemma FieldsUnfold(j: Json, keys: set<string>, x: string)
    requires j.Obj? && keys <= j.fields.Keys
    ensures keys == {} ==> FieldsCode(j, keys) + x == ['.'] + x
    ensures keys != {} ==>
              var k := Pick(keys);
              FieldsCode(j, keys) + x == [','] + (StrCode(k) + (Code(j.fields[k]) + (FieldsCode(j, keys - {k}) + x)))
  {
    if keys != {} {
      var k := Pick(keys);
      Reassociate(',', StrCode(k), Code(j.fields[k]), FieldsCode(j, keys - {k}), x);
    }
  }

  lemma {:induction false} OpsSeparate(a: seq<Operation>, b: seq<Operation>)
    requires OpsCode(a) == OpsCode(b)
    ensures a == b
  {
    hide StrCode, ItemsCode;
    OpsUnfold(a);
    OpsUnfold(b);
    assert OpsCode(a)[0] == OpsCode(b)[0];
    if a != [] {
      var p, q := OpsCode(a[1..]), OpsCode(b[1..]);
      Peel(',', StrCode(a[0].sql) + (ItemsCode(a[0].params) + p),
           ',', StrCode(b[0].sql) + (ItemsCode(b[0].params) + q));
      StrSeparates(a[0].sql, ItemsCode(a[0].params) + p, b[0].sql, ItemsCode(b[0].params) + q);
      ItemsSeparate(a[0].params, p, b[0].params, q);
      OpsSeparate(a[1..], b[1..]);
      assert a == [a[0]] + a[1..] && b == [b[0]] + b[1..];
    }
  }

  lemma OpsUnfold(ops: seq<Operation>)
    ensures ops == [] ==> OpsCode(ops) == "."
    ensures ops != [] ==>
              OpsCode(ops) == [','] + (StrCode(ops[0].sql) + (ItemsCode(ops[0].params) + OpsCode(ops[1..])))
  {
    if ops != [] {
      Reassociate(',', StrCode(ops[0].sql), ItemsCode(ops[0].params), "", OpsCode(ops[1..]));
    }
  }

  // ---- A code stays on one line ----

  lemma {:induction false} StrOneLine(s: string)
    ensures '\n' !in StrCode(s)
  {
    if s != [] {
      StrOneLine(s[1..]);
    }
  }

  lemma {:induction false} NatOneLine(n: nat)
    ensures '\n' !in Repeat('1', n) && '\n' !in NatCode(n)
  {
    if n > 0 {
      NatOneLine(n - 1);
    }
  }

  lemma {:induction false} OneLine(j: Json)
    ensures '\n' !in Code(j)
    decreases j, 1, 0
  {
    hide NatCode, StrCode, ItemsCode, FieldsCode;
    match j
    case Null =>
    case Bool(_) =>
    case Num(n) => NatOneLine(if n < 0 then -n else n);
    case Frac(bits) => NatOneLine(bits);
    case Str(s) => StrOneLine(s);
    case Arr(items) => ItemsOneLine(items);
    case Obj(fields) => FieldsOneLine(j, fields.Keys);
  }

  lemma {:induction false} ItemsOneLine(items: seq<Json>)
    ensures '\n' !in ItemsCode(items)
    decreases items, 0, 0
  {
    hide Code;
    if items != [] {
      OneLine(items[0]);
      ItemsOneLine(items[1..]);
    }
  }

  lemma {:induction false} FieldsOneLine(j: Json, keys: set<string>)
    requires j.Obj? && keys <= j.fields.Keys
    ensures '\n' !in FieldsCode(j, keys)
    decreases j, 0, |keys|
  {
    hide Code, StrCode;
    if keys != {} {
      var k := Pick(keys);
      StrOneLine(k);
      OneLine(j.fields[k]);
      FieldsOneLine(j, keys - {k});
    }
  }
}

/** The byte scanner that bounds JSON nesting before a write, against the value tree whose text it scans. */
module JsonDepth {
  import opened Wrappers

  type Byte = x: int | 0 <= x < 256

  const QUOTE: Byte := 34
  const BACKSLASH: Byte := 92
  const COMMA: Byte := 44
  const COLON: Byte := 58
  const OPEN_BRACKET: Byte := 91
  const CLOSE_BRACKET: Byte := 93
  const OPEN_BRACE: Byte := 123
  const CLOSE_BRACE: Byte := 125

  const MAX_JSON_NESTING_DEPTH := 10000

  // ---- Values and their text ----

  /** A string's content: a byte that stands for itself, or a backslash and the byte it escapes. */
  datatype StringItem = Plain(b: Byte) | Escape(b: Byte)

  datatype Member = Member(before: seq<Byte>, key: seq<StringItem>, after: seq<Byte>, value: Json)

  /** A JSON value with its layout: `Padded` is white space around a value. */
  datatype Json =
    | Literal(text: seq<Byte>)
    | Str(items: seq<StringItem>)
    | Arr(elems: seq<Json>)
    | Obj(members: seq<Member>)
    | Padded(left: seq<Byte>, inner: Json, right: seq<Byte>)

  /** A byte of a number, a keyword or white space: none of those the scanner reacts to. */
  predicate Inert(b: Byte) {
    b !in {QUOTE, OPEN_BRACKET, CLOSE_BRACKET, OPEN_BRACE, CLOSE_BRACE}
  }

  predicate AllInert(bs: seq<Byte>) {
    forall i :: 0 <= i < |bs| ==> Inert(bs[i])
  }

  /** Section 7 of RFC 8259: a quotation mark or a backslash inside a string is escaped. */
  predicate StringOk(items: seq<StringItem>) {
    forall i :: 0 <= i < |items| ==> items[i].Plain? ==> items[i].b != QUOTE && items[i].b != BACKSLASH
  }

  predicate WellFormed(v: Json) {
    match v
    case Literal(text) => AllInert(text)
    case Str(items) => StringOk(items)
    case Arr(elems) => forall i :: 0 <= i < |elems| ==> WellFormed(elems[i])
    case Obj(members) =>
      forall i :: 0 <= i < |members| ==>
        AllInert(members[i].before) && StringOk(members[i].key) && AllInert(members[i].after)
          && WellFormed(members[i].value)
    case Padded(left, inner, right) => AllInert(left) && AllInert(right) && WellFormed(inner)
  }

  function Max(a: nat, b: nat): nat { if a >= b then a else b }

  /** How deep containers nest in the value. */
  function Depth(v: Json): nat
    decreases v, 0
  {
    match v
    case Literal(_) => 0
    case Str(_) => 0
    case Arr(elems) => 1 + DeepestOf(v, |elems|)
    case Obj(members) => 1 + DeepestOf(v, |members|)
    case Padded(_, inner, _) => Depth(inner)
  }

  function Arity(v: Json): nat {
    match v
    case Arr(elems) => |elems|
    case Obj(members) => |members|
    case _ => 0
  }

  function Child(v: Json, i: nat): (c: Json)
    requires i < Arity(v)
    ensures c < v
  {
    match v
    case Arr(elems) => elems[i]
    case Obj(members) =>
      assert members[i] < v;
      members[i].value
  }

  function DeepestOf(v: Json, n: nat): nat
    requires n <= Arity(v)
    decreases v, 0, n
  {
    if n == 0 then 0 else Max(DeepestOf(v, n - 1), Depth(Child(v, n - 1)))
  }

  /** `b` is what `a` pads, one of its elements, or the value of one of its members. */
  predicate Inside(a: Json, b: Json) {
    match a
    case Padded(_, inner, _) => b == inner
    case Arr(elems) => b in elems
    case Obj(members) => exists i :: 0 <= i < |members| && members[i].value == b
    case _ => false
  }

  ghost predicate Descent(v: Json, path: seq<Json>) {
    path != [] && path[0] == v && forall i :: 0 <= i < |path| - 1 ==> Inside(path[i], path[i+1])
  }

  /** How many arrays and objects the descent goes through. */
  function Containers(path: seq<Json>): nat {
    if path == [] then 0 else (if path[0].Arr? || path[0].Obj? then 1 else 0) + Containers(path[1..])
  }

  lemma InsideIsChild(a: Json, b: Json)
    requires Inside(a, b) && !a.Padded?
    ensures exists i: nat :: i < Arity(a) && Child(a, i) == b
    ensures a.Arr? || a.Obj?
  {
    if a.Arr? {
      var i :| 0 <= i < |a.elems| && a.elems[i] == b;
      assert Child(a, i) == b;
    } else {
      var i :| 0 <= i < |a.members| && a.members[i].value == b;
      assert Child(a, i) == b;
    }
  }

  lemma {:induction false} DeepestIsMax(v: Json, n: nat)
    requires n <= Arity(v)
    ensures forall i: nat :: i < n ==> Depth(Child(v, i)) <= DeepestOf(v, n)
    ensures n > 0 ==> exists i: nat :: i < n && Depth(Child(v, i)) == DeepestOf(v, n)
    decreases n
  {
    hide Depth, Child;
    if n > 0 {
      DeepestIsMax(v, n - 1);
      if DeepestOf(v, n) == Depth(Child(v, n - 1)) {
        assert n - 1 < n;
      } else {
        var i: nat :| i < n - 1 && Depth(Child(v, i)) == DeepestOf(v, n - 1);
        assert i < n;
      }
    }
  }

  lemma {:induction false} NoDeeperDescent(v: Json, path: seq<Json>)
    requires Descent(v, path)
    ensures Containers(path) <= Depth(v)
    decreases |path|
  {
    if |path| > 1 {
      var rest := path[1..];
      assert Inside(path[0], path[1]);
      assert Descent(path[1], rest) by {
        forall i | 0 <= i < |rest| - 1 ensures Inside(rest[i], rest[i+1]) { assert Inside(path[i+1], path[i+2]); }
      }
      NoDeeperDescent(path[1], rest);
      if !v.Padded? {
        InsideIsChild(v, path[1]);
        DeepestIsMax(v, Arity(v));
      }
    } else {
      assert path[1..] == [];
    }
  }

  lemma {:induction false} DeepestDescent(v: Json) returns (path: seq<Json>)
    ensures Descent(v, path) && Containers(path) == Depth(v)
    decreases v
  {
    if v.Padded? || Arity(v) > 0 {
      var next;
      if v.Padded? {
        next := v.inner;
      } else {
        DeepestIsMax(v, Arity(v));
        var i: nat :| i < Arity(v) && Depth(Child(v, i)) == DeepestOf(v, Arity(v));
        next := Child(v, i);
      }
      var rest := DeepestDescent(next);
      path := [v] + rest;
      assert path[1..] == rest;
      forall i | 0 <= i < |path| - 1 ensures Inside(path[i], path[i+1]) {
        if i > 0 { assert Inside(rest[i-1], rest[i]); }
      }
    } else {
      path := [v];
      assert path[1..] == [];
    }
  }

  /** The depth is the most containers that any descent into the value goes through. */
  lemma DepthIsNesting(v: Json)
    ensures exists path :: Descent(v, path) && Containers(path) == Depth(v)
    ensures forall path :: Descent(v, path) ==> Containers(path) <= Depth(v)
  {
    var path := DeepestDescent(v);
    forall path | Descent(v, path) ensures Containers(path) <= Depth(v) { NoDeeperDescent(v, path); }
  }

  function Quoted(items: seq<StringItem>): seq<Byte> {
    [QUOTE] + Content(items) + [QUOTE]
  }

  function Content(items: seq<StringItem>): seq<Byte> {
    if items == [] then []
    else
      var last := items[|items|-1];
      Content(items[..|items|-1]) + (if last.Plain? then [last.b] else [BACKSLASH, last.b])
  }

  /** The text of a value. */
  function Print(v: Json): seq<Byte>
    decreases v, 0
  {
    match v
    case Literal(text) => text
    case Str(items) => Quoted(items)
    case Arr(elems) => [OPEN_BRACKET] + PrintFirst(v, |elems|) + [CLOSE_BRACKET]
    case Obj(members) => [OPEN_BRACE] + PrintFirst(v, |members|) + [CLOSE_BRACE]
    case Padded(left, inner, right) => left + Print(inner) + right
  }

  /** The first `n` elements or members, separated by commas. */
  function PrintFirst(v: Json, n: nat): seq<Byte>
    requires n <= Arity(v)
    decreases v, 0, n
  {
    if n == 0 then []
    else PrintFirst(v, n - 1) + (if n == 1 then [] else [COMMA]) + Label(v, n - 1) + Print(Child(v, n - 1))
  }

  /** What precedes a child's own text: a member's key and colon. */
  function Label(v: Json, i: nat): seq<Byte>
    requires i < Arity(v)
  {
    match v
    case Arr(_) => []
    case Obj(members) => members[i].before + Quoted(members[i].key) + members[i].after + [COLON]
  }

  // ---- The scanner ----

  datatype Scan = Scan(depth: int, maxDepth: int, inString: bool, escaped: bool)

  function Step(s: Scan, c: Byte): Scan {
    if s.inString then
      if s.escaped then s.(escaped := false)
      else if c == BACKSLASH then s.(escaped := true)
      else if c == QUOTE then s.(inString := false)
      else s
    else if c == QUOTE then s.(inString := true)
    else if c == OPEN_BRACE || c == OPEN_BRACKET then
      s.(depth := s.depth + 1, maxDepth := if s.depth + 1 > s.maxDepth then s.depth + 1 else s.maxDepth)
    else if c == CLOSE_BRACE || c == CLOSE_BRACKET then s.(depth := s.depth - 1)
    else s
  }

  function ScanFrom(s: Scan, b: seq<Byte>): Scan {
    if b == [] then s else Step(ScanFrom(s, b[..|b|-1]), b[|b|-1])
  }

  lemma {:induction false} ScanConcat(s: Scan, a: seq<Byte>, b: seq<Byte>)
    ensures ScanFrom(s, a + b) == ScanFrom(ScanFrom(s, a), b)
    decreases |b|
  {
    if b == [] {
      assert a + b == a;
    } else {
      assert (a + b)[..|a + b|-1] == a + b[..|b|-1];
      ScanConcat(s, a, b[..|b|-1]);
    }
  }

  lemma ScanOne(s: Scan, c: Byte)
    ensures ScanFrom(s, [c]) == Step(s, c)
  {
    assert [c][..0] == [];
    assert ScanFrom(s, []) == s;
  }

  /** Between tokens: outside a string. */
  predicate Outside(s: Scan) { !s.inString && !s.escaped }

  lemma {:induction false} InertKeeps(s: Scan, bs: seq<Byte>)
    requires Outside(s) && AllInert(bs)
    ensures ScanFrom(s, bs) == s
  {
    if bs != [] { InertKeeps(s, bs[..|bs|-1]); }
  }

  lemma {:induction false} ContentKeeps(s: Scan, items: seq<StringItem>)
    requires s.inString && !s.escaped && StringOk(items)
    ensures ScanFrom(s, Content(items)) == s
  {
    if items != [] {
      var last := items[|items|-1];
      var front := items[..|items|-1];
      ContentKeeps(s, front);
      if last.Plain? {
        ScanConcat(s, Content(front), [last.b]);
        ScanOne(s, last.b);
      } else {
        ScanConcat(s, Content(front), [BACKSLASH, last.b]);
        ScanConcat(s, [BACKSLASH], [last.b]);
        ScanOne(s, BACKSLASH);
        ScanOne(s.(escaped := true), last.b);
        assert [BACKSLASH, last.b] == [BACKSLASH] + [last.b];
      }
    }
  }

  /** A string leaves the scanner where it was, whatever quotes, backslashes and brackets it holds. */
  lemma StringKeeps(s: Scan, items: seq<StringItem>)
    requires Outside(s) && StringOk(items)
    ensures ScanFrom(s, Quoted(items)) == s
  {
    ScanConcat(s, [QUOTE] + Content(items), [QUOTE]);
    ScanConcat(s, [QUOTE], Content(items));
    ScanOne(s, QUOTE);
    ContentKeeps(s.(inString := true), items);
    ScanOne(s.(inString := true), QUOTE);
  }

  function Deepened(s: Scan, n: nat): Scan {
    s.(maxDepth := if s.depth + n > s.maxDepth then s.depth + n else s.maxDepth)
  }

  lemma LabelKeeps(s: Scan, v: Json, i: nat)
    requires Outside(s) && WellFormed(v) && i < Arity(v)
    ensures ScanFrom(s, Label(v, i)) == s
  {
    match v
    case Arr(_) => assert ScanFrom(s, []) == s;
    case Obj(members) =>
      var m := members[i];
      var q := Quoted(m.key);
      ScanConcat(s, m.before + q + m.after, [COLON]);
      ScanConcat(s, m.before + q, m.after);
      ScanConcat(s, m.before, q);
      InertKeeps(s, m.before);
      StringKeeps(s, m.key);
      InertKeeps(s, m.after);
      ScanOne(s, COLON);
  }

  lemma ChildIsWellFormed(v: Json, i: nat)
    requires WellFormed(v) && i < Arity(v)
    ensures WellFormed(Child(v, i))
  {
  }

  /** Scanning a value raises the maximum to the value's own depth above where it stands, and comes back level. */
  lemma {:induction false} ScanValue(s: Scan, v: Json)
    requires Outside(s) && WellFormed(v) && s.depth <= s.maxDepth
    ensures ScanFrom(s, Print(v)) == Deepened(s, Depth(v))
    decreases v, 0
  {
    match v
    case Literal(text) => InertKeeps(s, text);
    case Str(items) => StringKeeps(s, items);
    case Padded(left, inner, right) =>
      ScanConcat(s, left + Print(inner), right);
      ScanConcat(s, left, Print(inner));
      InertKeeps(s, left);
      ScanValue(s, inner);
      InertKeeps(Deepened(s, Depth(inner)), right);
    case Arr(elems) => ScanContainer(s, v, OPEN_BRACKET, CLOSE_BRACKET);
    case Obj(members) => ScanContainer(s, v, OPEN_BRACE, CLOSE_BRACE);
  }

  lemma {:induction false} ScanContainer(s: Scan, v: Json, open: Byte, close: Byte)
    requires Outside(s) && WellFormed(v) && s.depth <= s.maxDepth
    requires (v.Arr? && open == OPEN_BRACKET && close == CLOSE_BRACKET)
        || (v.Obj? && open == OPEN_BRACE && close == CLOSE_BRACE)
    ensures ScanFrom(s, [open] + PrintFirst(v, Arity(v)) + [close]) == Deepened(s, 1 + DeepestOf(v, Arity(v)))
    decreases v, 0, Arity(v) + 1
  {
    hide PrintFirst, WellFormed, ScanFrom, DeepestOf;
    var body := PrintFirst(v, Arity(v));
    ScanConcat(s, [open] + body, [close]);
    ScanConcat(s, [open], body);
    ScanOne(s, open);
    var s1 := Step(s, open);
    ScanFirst(s1, v, Arity(v));
    ScanOne(Deepened(s1, DeepestOf(v, Arity(v))), close);
  }

  lemma {:induction false} ScanFirst(s: Scan, v: Json, n: nat)
    requires Outside(s) && WellFormed(v) && s.depth <= s.maxDepth && n <= Arity(v)
    ensures ScanFrom(s, PrintFirst(v, n)) == Deepened(s, DeepestOf(v, n))
    decreases v, 0, n
  {
    hide WellFormed, Label, Print, Child, Depth, ScanFrom, Deepened, AllInert;
    if n == 0 {
      ScanNothing(s);
    } else {
      var front, head, text := PrintFirst(v, n - 1), Label(v, n - 1), Print(Child(v, n - 1));
      var comma: seq<Byte> := if n == 1 then [] else [COMMA];
      ScanConcat(s, front + comma + head, text);
      ScanConcat(s, front + comma, head);
      ScanConcat(s, front, comma);
      ScanFirst(s, v, n - 1);
      var s1 := Deepened(s, DeepestOf(v, n - 1));
      DeepenTwice(s, DeepestOf(v, n - 1), Depth(Child(v, n - 1)));
      CommaIsInert();
      InertKeeps(s1, comma);
      LabelKeeps(s1, v, n - 1);
      ChildIsWellFormed(v, n - 1);
      ScanValue(s1, Child(v, n - 1));
    }
  }

  lemma ScanNothing(s: Scan)
    requires s.depth <= s.maxDepth
    ensures ScanFrom(s, []) == s == Deepened(s, 0)
  {
  }

  lemma DeepenTwice(s: Scan, a: nat, b: nat)
    requires Outside(s) && s.depth <= s.maxDepth
    ensures var s1 := Deepened(s, a);
            Outside(s1) && s1.depth <= s1.maxDepth && Deepened(s1, b) == Deepened(s, Max(a, b))
  {
  }

  lemma CommaIsInert()
    ensures AllInert([COMMA]) && AllInert([])
  {
  }

  const START := Scan(0, 0, false, false)

  /** One pass over the bytes, four variables. */
  method JsonNestingDepth(b: seq<Byte>) returns (maxDepth: int)
    ensures maxDepth == ScanFrom(START, b).maxDepth
    ensures forall v :: WellFormed(v) && Print(v) == b ==> maxDepth == Depth(v)
  {
    hide Print, Depth, WellFormed;
    var depth, inString, escaped := 0, false, false;
    maxDepth := 0;
    for i := 0 to |b|
      invariant ScanFrom(START, b[..i]) == Scan(depth, maxDepth, inString, escaped)
    {
      var c := b[i];
      assert b[..i+1][..i] == b[..i];
      if inString {
        if escaped {
          escaped := false;
        } else if c == BACKSLASH {
          escaped := true;
        } else if c == QUOTE {
          inString := false;
        }
      } else if c == QUOTE {
        inString := true;
      } else if c == OPEN_BRACE || c == OPEN_BRACKET {
        depth := depth + 1;
        if depth > maxDepth {
          maxDepth := depth;
        }
      } else if c == CLOSE_BRACE || c == CLOSE_BRACKET {
        depth := depth - 1;
      }
    }
    assert b[..|b|] == b;
    forall v | WellFormed(v) && Print(v) == b ensures maxDepth == Depth(v) {
      ScanValue(START, v);
    }
  }

  /** A document is refused exactly if the value it encodes nests deeper than the decoder accepts. */
  method CheckJsonDepth(encoded: seq<Byte>) returns (ok: bool)
    ensures forall v :: WellFormed(v) && Print(v) == encoded ==> (ok <==> Depth(v) <= 10000)
  {
    hide Print, Depth, WellFormed;
    var d := JsonNestingDepth(encoded);
    ok := d <= MAX_JSON_NESTING_DEPTH;
  }
}

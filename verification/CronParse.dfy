/** Parsing the fields of a cron spec, with the parser's 64-bit arithmetic. */
module CronParse {
  import opened Wrappers
  import opened Cron
  import opened Arithmetic

  datatype CronField = CronField(min: int, max: int)

  const CRON_FIELDS := [CronField(0, 59), CronField(0, 23), CronField(1, 31), CronField(1, 12), CronField(0, 6)]

  predicate IsField(cf: CronField) {
    0 <= cf.min <= cf.max <= 59
  }

  // ---- Numbers and separators ----

  predicate IsDigit(c: char) { '0' <= c <= '9' }

  predicate AllDigits(s: string) {
    forall i :: 0 <= i < |s| ==> IsDigit(s[i])
  }

  function Decimal(s: string): nat
    requires AllDigits(s)
  {
    if s == "" then 0 else Decimal(s[..|s|-1]) * 10 + (s[|s|-1] as int - '0' as int)
  }

  /** An optional sign, then at least one digit, within 64 bits. */
  function Atoi(s: string): Option<int> {
    var digits := if s != "" && (s[0] == '+' || s[0] == '-') then s[1..] else s;
    if digits == "" || !AllDigits(digits) then None
    else
      var v: int := if s[0] == '-' then -(Decimal(digits) as int) else Decimal(digits);
      if -INT_LIMIT <= v < INT_LIMIT then Some(v) else None
  }

  function Itoa(n: nat): (s: string)
    ensures s != "" && AllDigits(s)
    decreases n
  {
    var digit := [(n % 10 + '0' as int) as char];
    if n < 10 then digit else Itoa(n / 10) + digit
  }

  lemma {:induction false} DecimalOfItoa(n: nat)
    ensures Decimal(Itoa(n)) == n
    decreases n
  {
    var s := Itoa(n);
    if n >= 10 {
      DecimalOfItoa(n / 10);
      assert s[..|s|-1] == Itoa(n / 10);
    } else {
      assert s[..|s|-1] == "";
    }
  }

  lemma AtoiOfItoa(n: nat)
    requires n < INT_LIMIT
    ensures Atoi(Itoa(n)) == Some(n)
  {
    DecimalOfItoa(n);
    assert IsDigit(Itoa(n)[0]);
  }

  /** Nothing but digits after an optional sign is a number. */
  lemma AtoiNeedsDigits(s: string)
    requires Atoi(s).Some?
    ensures s != "" && (forall i :: 0 < i < |s| ==> '0' <= s[i] <= '9')
    ensures '0' <= s[0] <= '9' || ((s[0] == '+' || s[0] == '-') && |s| > 1)
  {
    hide Decimal;
    if !IsDigit(s[0]) {
      forall i | 0 < i < |s| ensures '0' <= s[i] <= '9' { assert IsDigit(s[1..][i-1]); }
    }
  }

  /** Every number within 64 bits is read with its sign, and no other. */
  lemma AtoiSigned(n: nat)
    ensures Atoi(Itoa(n)) == Atoi("+" + Itoa(n)) == if n <= 0x7fff_ffff_ffff_ffff then Some(n) else None
    ensures Atoi("-" + Itoa(n)) == if n <= 0x8000_0000_0000_0000 then Some(-(n as int)) else None
  {
    hide Decimal, Itoa, AllDigits;
    var s := Itoa(n);
    DecimalOfItoa(n);
    BeginsWithDigit(s);
    assert ("+" + s)[1..] == s && ("-" + s)[1..] == s;
  }

  lemma BeginsWithDigit(s: string)
    requires s != "" && AllDigits(s)
    ensures IsDigit(s[0])
  {
  }

  /** The first position of `c`, or -1. */
  function IndexByte(s: string, c: char): (i: int)
    ensures -1 <= i < |s| && (i >= 0 ==> s[i] == c)
    ensures c !in s ==> i == -1
  {
    if s == "" then -1
    else if s[0] == c then 0
    else
      var i := IndexByte(s[1..], c);
      if i < 0 then -1 else i + 1
  }

  lemma {:induction false} IndexOfFirst(p: string, c: char, rest: string)
    requires c !in p
    ensures IndexByte(p + [c] + rest, c) == |p|
  {
    var s := p + [c] + rest;
    if p != "" {
      assert s[1..] == p[1..] + [c] + rest;
      IndexOfFirst(p[1..], c, rest);
    }
  }

  lemma DigitsLack(s: string, c: char)
    requires AllDigits(s) && !IsDigit(c)
    ensures c !in s
  {
  }

  // ---- One term ----

  datatype Span = Span(lo: int, hi: int, step: int, restricted: bool)

  function ParseIntInRange(s: string, cf: CronField): Option<int> {
    var v := Atoi(s);
    if v.Some? && cf.min <= v.value <= cf.max then v else None
  }

  function ParseTerm(term: string, cf: CronField): Option<Span>
  {
    var slash := IndexByte(term, '/');
    var rangePart := if slash >= 0 then term[..slash] else term;
    var step := if slash >= 0 then Atoi(term[slash+1..]) else Some(1);
    if step.None? || step.value <= 0 then None
    else if rangePart == "*" then Some(Span(cf.min, cf.max, step.value, step.value > 1))
    else
      var dash := IndexByte(rangePart, '-');
      if dash >= 0 then
        var lo := ParseIntInRange(rangePart[..dash], cf);
        var hi := ParseIntInRange(rangePart[dash+1..], cf);
        if lo.Some? && hi.Some? && lo.value <= hi.value then Some(Span(lo.value, hi.value, step.value, true)) else None
      else if slash >= 0 then None
      else
        var v := ParseIntInRange(rangePart, cf);
        if v.Some? then Some(Span(v.value, v.value, 1, true)) else None
  }

  lemma AtoiInRange(s: string)
    ensures Atoi(s).Some? ==> -INT_LIMIT <= Atoi(s).value < INT_LIMIT
  {
  }

  /** Whatever parses is a non-empty span inside the field, with a positive 64-bit step. */
  lemma ParsedSpanIsInField(term: string, cf: CronField)
    requires IsField(cf) && ParseTerm(term, cf).Some?
    ensures var r := ParseTerm(term, cf).value; cf.min <= r.lo <= r.hi <= cf.max && 0 < r.step < INT_LIMIT
  {
    hide Atoi, Decimal;
    var slash := IndexByte(term, '/');
    if slash >= 0 { AtoiInRange(term[slash+1..]); }
  }

  /** The grammar: what a user may mean by a term. */
  datatype Term = Any | AnyEvery(step: nat) | Value(a: nat) | Range(a: nat, b: nat)
    | RangeEvery(a: nat, b: nat, step: nat)

  function Print(t: Term): string {
    match t
    case Any => "*"
    case AnyEvery(n) => "*" + "/" + Itoa(n)
    case Value(a) => Itoa(a)
    case Range(a, b) => Itoa(a) + "-" + Itoa(b)
    case RangeEvery(a, b, n) => Itoa(a) + "-" + Itoa(b) + "/" + Itoa(n)
  }

  predicate InGrammar(t: Term, cf: CronField) {
    match t
    case Any => true
    case AnyEvery(n) => 0 < n < INT_LIMIT
    case Value(a) => cf.min <= a <= cf.max
    case Range(a, b) => cf.min <= a <= b <= cf.max
    case RangeEvery(a, b, n) => cf.min <= a <= b <= cf.max && 0 < n < INT_LIMIT
  }

  function Meant(t: Term, cf: CronField): Span {
    match t
    case Any => Span(cf.min, cf.max, 1, false)
    case AnyEvery(n) => Span(cf.min, cf.max, n, n > 1)
    case Value(a) => Span(a, a, 1, true)
    case Range(a, b) => Span(a, b, 1, true)
    case RangeEvery(a, b, n) => Span(a, b, n, true)
  }

  lemma RangeParses(a: nat, b: nat, cf: CronField)
    requires IsField(cf) && cf.min <= a <= b <= cf.max
    ensures var s := Itoa(a) + "-" + Itoa(b);
            && IndexByte(s, '/') == -1 && s != "*" && IndexByte(s, '-') == |Itoa(a)|
            && ParseIntInRange(s[..|Itoa(a)|], cf) == Some(a) && ParseIntInRange(s[|Itoa(a)|+1..], cf) == Some(b)
  {
    hide Itoa, Atoi, Decimal;
    var s := Itoa(a) + "-" + Itoa(b);
    AtoiOfItoa(a);
    AtoiOfItoa(b);
    DigitsLack(Itoa(a), '-');
    DigitsLack(Itoa(a), '/');
    DigitsLack(Itoa(b), '/');
    IndexOfFirst(Itoa(a), '-', Itoa(b));
    assert s[..|Itoa(a)|] == Itoa(a) && s[|Itoa(a)|+1..] == Itoa(b);
    assert IsDigit(s[0]);
  }

  lemma StepParses(p: string, n: nat)
    requires '/' !in p && 0 < n < INT_LIMIT
    ensures var s := p + "/" + Itoa(n);
            IndexByte(s, '/') == |p| && s[..|p|] == p && Atoi(s[|p|+1..]) == Some(n)
  {
    var s := p + "/" + Itoa(n);
    IndexOfFirst(p, '/', Itoa(n));
    AtoiOfItoa(n);
    assert s[..|p|] == p && s[|p|+1..] == Itoa(n);
  }

  /** Every term of the grammar, printed, parses to what it means. */
  lemma PrintedTermParses(t: Term, cf: CronField)
    requires IsField(cf) && InGrammar(t, cf)
    ensures ParseTerm(Print(t), cf) == Some(Meant(t, cf))
  {
    hide Itoa, Atoi, Decimal;
    match t
    case Any =>
    case AnyEvery(n) => StepParses("*", n);
    case Value(a) =>
      AtoiOfItoa(a);
      DigitsLack(Itoa(a), '-');
      DigitsLack(Itoa(a), '/');
      assert IsDigit(Itoa(a)[0]);
    case Range(a, b) => RangeParses(a, b, cf);
    case RangeEvery(a, b, n) => RangeEveryParses(a, b, n, cf);
  }

  lemma RangeEveryParses(a: nat, b: nat, n: nat, cf: CronField)
    requires IsField(cf) && cf.min <= a <= b <= cf.max && 0 < n < INT_LIMIT
    ensures ParseTerm(Itoa(a) + "-" + Itoa(b) + "/" + Itoa(n), cf) == Some(Span(a, b, n, true))
  {
    hide Itoa, Atoi, Decimal, IndexByte, ParseIntInRange, AllDigits;
    RangeParses(a, b, cf);
    DigitsLack(Itoa(a), '/');
    DigitsLack(Itoa(b), '/');
    StepParses(Itoa(a) + "-" + Itoa(b), n);
  }

  /** A step needs a range or `*`: on a bare value it is refused, not read as the value alone. */
  lemma BareStepIsRefused(a: nat, n: nat, cf: CronField)
    requires IsField(cf) && 0 < n < INT_LIMIT
    ensures ParseTerm(Itoa(a) + "/" + Itoa(n), cf) == None
  {
    hide Itoa, Atoi, Decimal;
    DigitsLack(Itoa(a), '/');
    DigitsLack(Itoa(a), '-');
    StepParses(Itoa(a), n);
    assert IsDigit(Itoa(a)[0]);
  }

  // ---- The values of a span ----

  /** The values a span is meant to allow. */
  function Stepped(v: int, hi: int, step: int): set<int>
    requires step > 0
    decreases hi - v
  {
    if v > hi then {} else {v} + Stepped(v + step, hi, step)
  }

  lemma {:induction false} SteppedIsExact(v: int, hi: int, step: int, x: int)
    requires step > 0
    ensures x in Stepped(v, hi, step) <==> v <= x <= hi && (x - v) % step == 0
    decreases hi - v
  {
    if v <= hi {
      SteppedIsExact(v + step, hi, step, x);
      if v < x < v + step {
        QuotientIs(x - v, step, 0, x - v);
      } else {
        var q := (x - v) / step;
        QuotientIs(x - v - step, step, q - 1, (x - v) % step);
      }
    }
  }

  /** The values the loop comes back to after its counter has wrapped. */
  function Wrapped(v: int, k: int): set<int>
    requires k > 0
    decreases v
  {
    if v < 0 then {} else {v} + Wrapped(v - 2 * k, k)
  }

  lemma {:induction false} WrappedBelow(v: int, k: int, x: int)
    requires k > 0 && x in Wrapped(v, k)
    ensures 0 <= x <= v
    decreases v
  {
    if x != v { WrappedBelow(v - 2 * k, k, x); }
  }

  /** The loop that sets the bits, with an unguarded 64-bit counter; a shift outside 0..63 sets nothing. */
  method SetBits(span: Span) returns (bits: set<int>)
    requires 0 <= span.lo <= span.hi <= 59 && 0 < span.step < INT_LIMIT
    ensures bits == Stepped(span.lo, span.hi, span.step) + Wrapped(span.lo, INT_LIMIT - span.step)
  {
    var lo, hi, step := span.lo, span.hi, span.step;
    ghost var k := INT_LIMIT - step;
    ghost var small := step <= INT_LIMIT / 2;
    ghost var all := Stepped(lo, hi, step) + Wrapped(lo, k);
    bits := {};
    var v := lo;
    while v <= hi
      invariant small ==> v >= lo && bits + Stepped(v, hi, step) == Stepped(lo, hi, step)
      invariant !small && -60 <= v <= hi ==> v <= lo && bits + Wrapped(v, k) == Wrapped(lo, k)
      invariant !small && v < -60 ==>
        v >= -INT_LIMIT && -60 <= v + step <= lo && bits + Wrapped(v + step, k) == Wrapped(lo, k)
      invariant !small && v > hi ==> bits == Wrapped(lo, k)
      decreases if v > hi then 0 else if small then hi - v + 1
                else if v < -60 then 2 * (v + step + 3 * k + 200) + 1 else 2 * (v + 2 * k + 200)
    {
      if 0 <= v < 64 {
        bits := bits + {v};
      }
      v := Wrap64(v + step);
    }
  }

  /**
    The loop allows exactly the meant values when the counter cannot wrap back into the field: the step is less than
    half the start short of the 64-bit limit. Otherwise a value below the range's start is allowed as well.
  */
  lemma SetBitsRightIff(span: Span)
    requires 0 <= span.lo <= span.hi <= 59 && 0 < span.step < INT_LIMIT
    ensures Stepped(span.lo, span.hi, span.step) + Wrapped(span.lo, INT_LIMIT - span.step)
         == Stepped(span.lo, span.hi, span.step)
       <==> span.lo < 2 * (INT_LIMIT - span.step)
  {
    var k := INT_LIMIT - span.step;
    var meant := Stepped(span.lo, span.hi, span.step);
    if span.lo >= 2 * k {
      var x := span.lo - 2 * k;
      assert x in Wrapped(x, k) && x in Wrapped(span.lo, k);
      SteppedIsExact(span.lo, span.hi, span.step, x);
    } else {
      assert Wrapped(span.lo, k) == {span.lo};
      SteppedIsExact(span.lo, span.hi, span.step, span.lo);
    }
  }

  /** The minute field 2-59/9223372036854775807 also fires in minute 0. */
  lemma WrapAllowsMinuteZero()
    ensures var span := Meant(RangeEvery(2, 59, INT_LIMIT - 1), CRON_FIELDS[0]);
            && InGrammar(RangeEvery(2, 59, INT_LIMIT - 1), CRON_FIELDS[0])
            && 0 in Wrapped(span.lo, INT_LIMIT - span.step) && 0 !in Stepped(span.lo, span.hi, span.step)
  {
    assert 0 in Wrapped(0, 1);
  }

  // ---- A field and a spec ----

  function Split(s: string, c: char): (r: seq<string>)
    ensures r != []
  {
    var i := IndexByte(s, c);
    if i < 0 then [s] else [s[..i]] + Split(s[i+1..], c)
  }

  function Join(terms: seq<string>, c: char): string {
    if terms == [] then ""
    else if |terms| == 1 then terms[0]
    else terms[0] + [c] + Join(terms[1..], c)
  }

  lemma {:induction false} SplitOfJoin(terms: seq<string>, c: char)
    requires terms != [] && forall t :: t in terms ==> c !in t
    ensures Split(Join(terms, c), c) == terms
  {
    hide Split, IndexByte;
    assert terms[0] in terms;
    if |terms| == 1 {
      SplitLast(terms[0], c);
      assert terms == [terms[0]];
    } else {
      var rest := Join(terms[1..], c);
      SplitFirst(terms[0], c, rest);
      SplitOfJoin(terms[1..], c);
      assert terms == [terms[0]] + terms[1..];
    }
  }

  lemma SplitLast(s: string, c: char)
    requires c !in s
    ensures Split(s, c) == [s]
  {
  }

  lemma SplitFirst(term: string, c: char, rest: string)
    requires c !in term
    ensures Split(term + [c] + rest, c) == [term] + Split(rest, c)
  {
    hide IndexByte;
    var s := term + [c] + rest;
    IndexOfFirst(term, c, rest);
    assert s[..|term|] == term && s[|term|+1..] == rest;
  }

  /** The field after the first terms of a list, or none if one of them is malformed. */
  function FieldOf(terms: seq<string>, cf: CronField): Option<FieldSpec> {
    if terms == [] then Some(FieldSpec({}, false))
    else
      var before := FieldOf(terms[..|terms|-1], cf);
      var span := ParseTerm(terms[|terms|-1], cf);
      if before.None? || span.None? then None else Some(WithSpan(before.value, span.value))
  }

  function WithSpan(f: FieldSpec, span: Span): FieldSpec {
    FieldSpec(f.values + if 0 < span.step < INT_LIMIT then Stepped(span.lo, span.hi, span.step) + Wrapped(span.lo,
        INT_LIMIT - span.step) else {},
              f.restricted || span.restricted)
  }

  lemma {:induction false} MalformedStays(terms: seq<string>, cf: CronField, i: nat)
    requires i <= |terms| && FieldOf(terms[..i], cf) == None
    ensures FieldOf(terms, cf) == None
    decreases |terms|
  {
    if i < |terms| {
      assert terms[..|terms|-1][..i] == terms[..i];
      MalformedStays(terms[..|terms|-1], cf, i);
    } else {
      assert terms[..i] == terms;
    }
  }

  /** One malformed term, an empty one included, refuses the whole list. */
  lemma {:induction false} FieldRefusedIff(terms: seq<string>, cf: CronField)
    ensures FieldOf(terms, cf) == None <==> exists t :: t in terms && ParseTerm(t, cf) == None
    ensures ParseTerm("", cf) == None
    decreases |terms|
  {
    hide ParseTerm;
    if terms != [] {
      var front, last := terms[..|terms|-1], terms[|terms|-1];
      FieldRefusedIff(front, cf);
      assert forall t :: t in terms <==> t in front || t == last;
    } else {
      EmptyTermIsRefused(cf);
    }
  }

  lemma EmptyTermIsRefused(cf: CronField)
    ensures ParseTerm("", cf) == None
  {
  }

  method ParseField(raw: string, cf: CronField) returns (r: Option<FieldSpec>)
    requires IsField(cf)
    ensures r == ParsedField(raw, cf)
  {
    hide ParseTerm, Split, Stepped, Wrapped;
    var values: set<int>, restricted := {}, false;
    var terms := Split(raw, ',');
    for i := 0 to |terms|
      invariant FieldOf(terms[..i], cf) == Some(FieldSpec(values, restricted))
    {
      assert terms[..i+1][..i] == terms[..i];
      var span := ParseTerm(terms[i], cf);
      if span.None? {
        MalformedStays(terms, cf, i + 1);
        return None;
      }
      ParsedSpanIsInField(terms[i], cf);
      var bits := SetBits(span.value);
      values, restricted := values + bits, restricted || span.value.restricted;
    }
    assert terms[..|terms|] == terms;
    return Some(FieldSpec(values, restricted));
  }

  /** The step leaves the counter no way back into the field. */
  predicate Harmless(t: Term, cf: CronField) {
    InGrammar(t, cf) && Meant(t, cf).lo < 2 * (INT_LIMIT - Meant(t, cf).step)
  }

  function Denoted(t: Term, cf: CronField): set<int> {
    var span := Meant(t, cf);
    if span.step > 0 then Stepped(span.lo, span.hi, span.step) else {}
  }

  /** What each form of term allows; only `*`, also in steps of one, leaves the field unrestricted. */
  lemma DenotedIs(t: Term, cf: CronField, x: int)
    requires InGrammar(t, cf)
    ensures x in Denoted(t, cf) <==>
      match t
      case Any => cf.min <= x <= cf.max
      case AnyEvery(n) => cf.min <= x <= cf.max && (x - cf.min) % n == 0
      case Value(a) => x == a
      case Range(a, b) => a <= x <= b
      case RangeEvery(a, b, n) => a <= x <= b && (x - a) % n == 0
    ensures Meant(t, cf).restricted <==> !t.Any? && t != AnyEvery(1)
  {
    var span := Meant(t, cf);
    SteppedIsExact(span.lo, span.hi, span.step, x);
  }

  /** The field allows exactly what some term denotes, and is restricted exactly if some term is. */
  ghost predicate Unites(f: FieldSpec, ts: seq<Term>, cf: CronField) {
    && (forall x :: x in f.values <==> exists t :: t in ts && x in Denoted(t, cf))
    && (f.restricted <==> exists t :: t in ts && Meant(t, cf).restricted)
  }

  function Printed(ts: seq<Term>): seq<string> {
    seq(|ts|, i requires 0 <= i < |ts| => Print(ts[i]))
  }

  lemma PrintLacksComma(t: Term)
    ensures ',' !in Print(t)
  {
    match t
    case Any =>
    case AnyEvery(n) => DigitsLack(Itoa(n), ',');
    case Value(a) => DigitsLack(Itoa(a), ',');
    case Range(a, b) =>
      DigitsLack(Itoa(a), ',');
      DigitsLack(Itoa(b), ',');
    case RangeEvery(a, b, n) =>
      DigitsLack(Itoa(a), ',');
      DigitsLack(Itoa(b), ',');
      DigitsLack(Itoa(n), ',');
  }

  lemma UnitesOneMore(f: FieldSpec, ts: seq<Term>, cf: CronField, t: Term, span: Span)
    requires Unites(f, ts, cf) && span == Meant(t, cf)
    ensures Unites(FieldSpec(f.values + Denoted(t, cf), f.restricted || span.restricted), ts + [t], cf)
  {
    hide Meant, Denoted;
    assert forall u :: u in ts + [t] <==> u == t || u in ts;
  }

  lemma {:induction false} FieldOfPrinted(ts: seq<Term>, cf: CronField) returns (f: FieldSpec)
    requires IsField(cf) && forall t :: t in ts ==> Harmless(t, cf)
    ensures FieldOf(Printed(ts), cf) == Some(f) && Unites(f, ts, cf)
  {
    hide ParseTerm, Print, Stepped, Wrapped, Meant, InGrammar, Harmless;
    if ts == [] {
      f := FieldSpec({}, false);
    } else {
      var last := ts[|ts|-1];
      var front := ts[..|ts|-1];
      assert Printed(ts)[..|ts|-1] == Printed(front);
      var g := FieldOfPrinted(front, cf);
      LastTerm(last, cf);
      UnitesOneMore(g, front, cf, last, Meant(last, cf));
      assert ts == front + [last];
      f := FieldSpec(g.values + Denoted(last, cf), g.restricted || Meant(last, cf).restricted);
    }
  }

  lemma LastTerm(t: Term, cf: CronField)
    requires IsField(cf) && Harmless(t, cf)
    ensures ParseTerm(Print(t), cf) == Some(Meant(t, cf))
    ensures 0 < Meant(t, cf).step < INT_LIMIT
    ensures Denoted(t, cf) + Wrapped(Meant(t, cf).lo, INT_LIMIT - Meant(t, cf).step) == Denoted(t, cf)
  {
    hide ParseTerm, Print, Stepped, Wrapped;
    PrintedTermParses(t, cf);
    SetBitsRightIff(Meant(t, cf));
  }

  /** A comma list of terms of the grammar parses to the union of what they mean, restricted if one of them is. */
  lemma PrintedFieldParses(ts: seq<Term>, cf: CronField) returns (f: FieldSpec)
    requires IsField(cf) && ts != [] && forall t :: t in ts ==> Harmless(t, cf)
    ensures ParsedField(Join(Printed(ts), ','), cf) == Some(f) && Unites(f, ts, cf)
  {
    hide FieldOf, Print, Harmless, Unites;
    forall p | p in Printed(ts) ensures ',' !in p {
      var i :| 0 <= i < |ts| && Printed(ts)[i] == p;
      PrintLacksComma(ts[i]);
    }
    SplitOfJoin(Printed(ts), ',');
    f := FieldOfPrinted(ts, cf);
  }

  function ParsedField(raw: string, cf: CronField): Option<FieldSpec> {
    FieldOf(Split(raw, ','), cf)
  }

  // ---- A whole spec ----

  /** Unicode white space, as the standard library's field splitting has it. */
  predicate IsSpace(c: char) {
    c in {' ', '\t', '\n', '\U{0B}', '\U{0C}', '\r', '\U{85}', '\U{A0}', '\U{1680}', '\U{2028}', '\U{2029}',
          '\U{202F}', '\U{205F}', '\U{3000}'}
    || '\U{2000}' <= c <= '\U{200A}'
  }

  predicate Word(s: string) { s != "" && forall i :: 0 <= i < |s| ==> !IsSpace(s[i]) }

  predicate Blank(s: string) { forall i :: 0 <= i < |s| ==> IsSpace(s[i]) }

  function OneWord(word: string): seq<string> { if word == "" then [] else [word] }

  /** The words of `s`, the first of which goes on from `word`. */
  function FieldsAfter(word: string, s: string): seq<string>
    decreases |s|
  {
    if s == "" then OneWord(word)
    else if IsSpace(s[0]) then OneWord(word) + FieldsAfter("", s[1..])
    else FieldsAfter(word + [s[0]], s[1..])
  }

  /** The maximal runs without white space, in order. */
  function Fields(s: string): seq<string> { FieldsAfter("", s) }

  /** Words with white space before, between and after them. */
  function Spaced(gaps: seq<string>, words: seq<string>): string
    requires |gaps| == |words| + 1
    decreases |words|
  {
    if words == [] then gaps[0] else gaps[0] + words[0] + Spaced(gaps[1..], words[1..])
  }

  ghost predicate Gaps(gaps: seq<string>) {
    && (forall i :: 0 <= i < |gaps| ==> Blank(gaps[i]))
    && forall i :: 0 < i < |gaps| - 1 ==> gaps[i] != ""
  }

  lemma {:induction false} BlankPrefix(gap: string, s: string)
    requires Blank(gap)
    ensures Fields(gap + s) == Fields(s)
    decreases |gap|
  {
    if gap == "" {
      assert gap + s == s;
    } else {
      assert (gap + s)[1..] == gap[1..] + s;
      BlankPrefix(gap[1..], s);
    }
  }

  /** A word ends at white space, or with the text. */
  lemma {:induction false} WordPrefix(begun: string, rest: string, s: string)
    requires (forall i :: 0 <= i < |rest| ==> !IsSpace(rest[i])) && begun + rest != "" && (s == "" || IsSpace(s[0]))
    ensures FieldsAfter(begun, rest + s) == [begun + rest] + Fields(s)
    decreases |rest|
  {
    if rest == "" {
      assert rest + s == s && begun + rest == begun;
      if s != "" { assert Fields(s) == Fields(s[1..]); }
    } else {
      assert (rest + s)[1..] == rest[1..] + s && (begun + [rest[0]]) + rest[1..] == begun + rest;
      WordPrefix(begun + [rest[0]], rest[1..], s);
    }
  }

  lemma GapsFrom(gaps: seq<string>)
    requires Gaps(gaps) && |gaps| > 1
    ensures Gaps(gaps[1..]) && Blank(gaps[0])
  {
  }

  /** Runs of white space collapse: words come back from any spacing. */
  lemma {:induction false} SpacedFields(gaps: seq<string>, words: seq<string>)
    requires |gaps| == |words| + 1 && Gaps(gaps) && forall i :: 0 <= i < |words| ==> Word(words[i])
    ensures Fields(Spaced(gaps, words)) == words
    decreases |words|
  {
    if words == [] {
      assert gaps[0] + "" == gaps[0];
      BlankPrefix(gaps[0], "");
    } else {
      var rest := Spaced(gaps[1..], words[1..]);
      GapsFrom(gaps);
      assert gaps[0] + words[0] + rest == gaps[0] + (words[0] + rest);
      BlankPrefix(gaps[0], words[0] + rest);
      assert rest == "" || IsSpace(rest[0]) by { RestIsSpaced(gaps, words, rest); }
      assert "" + words[0] == words[0];
      WordPrefix("", words[0], rest);
      SpacedFields(gaps[1..], words[1..]);
    }
  }

  lemma RestIsSpaced(gaps: seq<string>, words: seq<string>, rest: string)
    requires |gaps| == |words| + 1 && Gaps(gaps) && words != [] && rest == Spaced(gaps[1..], words[1..])
    ensures rest == "" || IsSpace(rest[0])
  {
    assert Blank(gaps[1]);
    if |words| > 1 {
      assert gaps[1] != "" && rest[0] == gaps[1][0];
    } else {
      assert rest == gaps[1];
    }
  }

  /** The five whitespace-separated fields of a spec. */
  method ParseCron(spec: string) returns (r: Option<Schedule>)
    ensures var fields := Fields(spec);
      r == None <==>
        || |fields| != 5
        || ParsedField(fields[0], CronField(0, 59)) == None || ParsedField(fields[1], CronField(0, 23)) == None
        || ParsedField(fields[2], CronField(1, 31)) == None || ParsedField(fields[3], CronField(1, 12)) == None
        || ParsedField(fields[4], CronField(0, 6)) == None
    ensures var fields := Fields(spec); r.Some? ==>
      && |fields| == 5
      && ParsedField(fields[0], CronField(0, 59)) == Some(r.value.minute)
      && ParsedField(fields[1], CronField(0, 23)) == Some(r.value.hour)
      && ParsedField(fields[2], CronField(1, 31)) == Some(r.value.dom)
      && ParsedField(fields[3], CronField(1, 12)) == Some(r.value.month)
      && ParsedField(fields[4], CronField(0, 6)) == Some(r.value.dow)
  {
    hide FieldOf, Split, FieldsAfter;
    var fields := Fields(spec);
    if |fields| != 5 {
      return None;
    }
    var parsed: seq<FieldSpec> := [];
    for i := 0 to 5
      invariant |parsed| == i
      invariant forall j :: 0 <= j < i ==> ParsedField(fields[j], CRON_FIELDS[j]) == Some(parsed[j])
    {
      var f := ParseField(fields[i], CRON_FIELDS[i]);
      if f.None? {
        return None;
      }
      parsed := parsed + [f.value];
    }
    return Some(Schedule(parsed[0], parsed[1], parsed[2], parsed[3], parsed[4]));
  }
}

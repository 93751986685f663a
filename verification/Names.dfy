/** Node names and the order in which the engine sorts them. */
module Names {
  type Name = string

  /** Go's `<` on strings: lexicographic, a proper prefix first. */
  predicate Less(a: Name, b: Name) {
    if b == "" then false
    else if a == "" then true
    else if a[0] != b[0] then a[0] < b[0]
    else Less(a[1..], b[1..])
  }

  /** At the first difference the smaller character comes first. */
  ghost predicate FirstDiffersBelow(a: Name, b: Name) {
    exists i :: 0 <= i < |a| && i < |b| && a[i] < b[i] && forall j :: 0 <= j < i ==> a[j] == b[j]
  }

  lemma {:induction false} LessIsLexicographic(a: Name, b: Name)
    ensures Less(a, b) <==> FirstDiffersBelow(a, b) || (|a| < |b| && forall j :: 0 <= j < |a| ==> a[j] == b[j])
  {
    if a != "" && b != "" && a[0] == b[0] {
      LessIsLexicographic(a[1..], b[1..]);
      FirstDiffersShifts(a, b);
      if |a| < |b| && forall j :: 0 <= j < |a[1..]| ==> a[1..][j] == b[1..][j] {
        forall j | 0 <= j < |a| ensures a[j] == b[j] { if j > 0 { assert a[1..][j-1] == b[1..][j-1]; } }
      }
    } else if a != "" && b != "" && a[0] < b[0] {
      assert FirstDiffersBelow(a, b);
    }
  }

  lemma FirstDiffersShifts(a: Name, b: Name)
    requires a != "" && b != "" && a[0] == b[0]
    ensures FirstDiffersBelow(a, b) <==> FirstDiffersBelow(a[1..], b[1..])
  {
    var a', b' := a[1..], b[1..];
    if FirstDiffersBelow(a, b) {
      var i :| 0 <= i < |a| && i < |b| && a[i] < b[i] && forall j :: 0 <= j < i ==> a[j] == b[j];
      assert a'[i-1] < b'[i-1];
    }
    if FirstDiffersBelow(a', b') {
      var i :| 0 <= i < |a'| && i < |b'| && a'[i] < b'[i] && forall j :: 0 <= j < i ==> a'[j] == b'[j];
      assert a[i+1] < b[i+1];
      forall j | 0 <= j < i + 1 ensures a[j] == b[j] { if j > 0 { assert a'[j-1] == b'[j-1]; } }
    }
  }

  lemma {:induction false} LessIsTotal(a: Name, b: Name)
    ensures Less(a, b) || a == b || Less(b, a)
  {
    if a != "" && b != "" && a[0] == b[0] {
      LessIsTotal(a[1..], b[1..]);
      assert a[1..] == b[1..] ==> a == [a[0]] + a[1..] == [b[0]] + b[1..] == b;
    }
  }

  lemma {:induction false} LessIsIrreflexive(a: Name)
    ensures !Less(a, a)
  {
    if a != "" {
      LessIsIrreflexive(a[1..]);
    }
  }

  lemma {:induction false} LessIsTransitive(a: Name, b: Name, c: Name)
    requires Less(a, b) && Less(b, c)
    ensures Less(a, c)
  {
    if a != "" && a[0] == b[0] == c[0] {
      LessIsTransitive(a[1..], b[1..], c[1..]);
    }
  }

  /** Strictly increasing: sorted and free of duplicates. */
  ghost predicate Sorted(s: seq<Name>) {
    forall i, j :: 0 <= i < j < |s| ==> Less(s[i], s[j])
  }

  function Insert(x: Name, s: seq<Name>): (r: seq<Name>)
    ensures forall y :: y in r <==> y == x || y in s
  {
    if s == [] then [x]
    else if Less(x, s[0]) then [x] + s
    else
      var r := Insert(x, s[1..]);
      assert forall y :: y in s <==> y == s[0] || y in s[1..];
      [s[0]] + r
  }

  lemma {:induction false} InsertKeepsSorted(x: Name, s: seq<Name>)
    requires Sorted(s) && x !in s
    ensures Sorted(Insert(x, s))
  {
    if s != [] {
      if Less(x, s[0]) {
        forall j | 0 < j < |s| ensures Less(x, s[j]) { LessIsTransitive(x, s[0], s[j]); }
      } else {
        InsertKeepsSorted(x, s[1..]);
        LessIsTotal(x, s[0]);
        var r := Insert(x, s[1..]);
        forall j | 0 <= j < |r| ensures Less(s[0], r[j]) {
          assert r[j] in r;
          if r[j] != x {
            var k :| 0 <= k < |s[1..]| && s[1..][k] == r[j];
            assert Less(s[0], s[k+1]);
          }
        }
      }
    }
  }

  /** The names of `s`, which are distinct, in increasing order. */
  function SortNames(s: seq<Name>): (r: seq<Name>)
    ensures forall y :: y in r <==> y in s
  {
    if s == [] then []
    else
      assert forall y :: y in s <==> y == s[0] || y in s[1..];
      Insert(s[0], SortNames(s[1..]))
  }

  lemma {:induction false} SortNamesSorts(s: seq<Name>)
    requires forall i, j :: 0 <= i < j < |s| ==> s[i] != s[j]
    ensures Sorted(SortNames(s))
  {
    if s != [] {
      SortNamesSorts(s[1..]);
      InsertKeepsSorted(s[0], SortNames(s[1..]));
    }
  }
}

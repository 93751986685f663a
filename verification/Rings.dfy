/** The nodes above a node, ring by ring: the ring at distance `d` holds the starts of the climbs of `d` edges. */
module Rings {
  import opened Names
  import opened Graph
  import opened CycleSearch

  /** What the listed nodes depend on, in the order of the list and of each node's own dependencies. */
  ghost function Above(g: Nodes, s: seq<Name>): (r: seq<Name>)
    requires Closed(g) && AllIn(s, g.Keys)
    ensures AllIn(r, g.Keys)
  {
    if s == [] then [] else g[s[0]].deps + Above(g, s[1..])
  }

  ghost function Ring(g: Nodes, start: Name, d: nat): (r: seq<Name>)
    requires Closed(g) && start in g
    ensures AllIn(r, g.Keys)
  {
    if d == 0 then [start] else Above(g, Ring(g, start, d - 1))
  }

  /** A walk of `d` edges leads from `n` to `start`. */
  ghost predicate Climbs(g: Nodes, n: Name, start: Name, d: nat) {
    exists p :: WalkBetween(g, p, n, start) && |p| == d + 1
  }

  lemma {:induction false} AboveHas(g: Nodes, s: seq<Name>, n: Name)
    requires Closed(g) && AllIn(s, g.Keys)
    ensures n in Above(g, s) <==> exists m :: m in s && n in g[m].deps
    decreases |s|
  {
    if s != [] { AboveHas(g, s[1..], n); }
  }

  /** A climb begins with an edge above the start. */
  lemma ClimbsOneMore(g: Nodes, n: Name, m: Name, start: Name, d: nat)
    requires Climbs(g, m, start, d) && Edge(g, n, m)
    ensures Climbs(g, n, start, d + 1)
  {
    var p :| WalkBetween(g, p, m, start) && |p| == d + 1;
    var q := [n] + p;
    forall i | 0 <= i < |q| - 1 ensures Edge(g, q[i], q[i+1]) {
      if i > 0 { assert Edge(g, p[i-1], p[i]); }
    }
    assert WalkBetween(g, q, n, start);
  }

  lemma ClimbsOneLess(g: Nodes, n: Name, start: Name, d: nat) returns (m: Name)
    requires d > 0 && Climbs(g, n, start, d)
    ensures Edge(g, n, m) && Climbs(g, m, start, d - 1)
  {
    var p :| WalkBetween(g, p, n, start) && |p| == d + 1;
    m := p[1];
    assert Edge(g, p[0], p[1]);
    var q := p[1..];
    forall i | 0 <= i < |q| - 1 ensures Edge(g, q[i], q[i+1]) { assert Edge(g, p[i+1], p[i+2]); }
    assert WalkBetween(g, q, m, start);
  }

  /** The rings hold exactly the climbs of their length. */
  lemma {:induction false} RingIsClimbs(g: Nodes, start: Name, d: nat, n: Name)
    requires Closed(g) && start in g
    ensures n in Ring(g, start, d) <==> Climbs(g, n, start, d)
    decreases d
  {
    hide Climbs;
    if d == 0 {
      NoClimb(g, n, start);
    } else {
      var below := Ring(g, start, d - 1);
      AboveHas(g, below, n);
      if n in Ring(g, start, d) {
        var m :| m in below && n in g[m].deps;
        RingIsClimbs(g, start, d - 1, m);
        ClimbsOneMore(g, n, m, start, d - 1);
      }
      if Climbs(g, n, start, d) {
        var m := ClimbsOneLess(g, n, start, d);
        RingIsClimbs(g, start, d - 1, m);
      }
    }
  }

  lemma NoClimb(g: Nodes, n: Name, start: Name)
    requires start in g
    ensures Climbs(g, n, start, 0) <==> n == start
  {
    assert WalkBetween(g, [start], start, start);
  }

  // ---- Rings without the nodes met before ----

  /** The first occurrences of what is not in `seen`. */
  ghost function Thin(s: seq<Name>, seen: set<Name>): (r: seq<Name>)
    ensures forall n :: n in r <==> n in s && n !in seen
  {
    if s == [] then []
    else if s[0] in seen then Thin(s[1..], seen)
    else [s[0]] + Thin(s[1..], seen + {s[0]})
  }

  lemma {:induction false} ThinOfTwo(s: seq<Name>, t: seq<Name>, seen: set<Name>)
    ensures Thin(s + t, seen) == Thin(s, seen) + Thin(t, seen + Elements(s))
    decreases |s|
  {
    if s == [] {
      assert s + t == t && seen + Elements(s) == seen;
    } else {
      assert (s + t)[1..] == s[1..] + t;
      ThinOfTwo(s[1..], t, seen + {s[0]});
      assert seen + {s[0]} + Elements(s[1..]) == seen + Elements(s);
      if s[0] in seen { assert seen + {s[0]} == seen; }
    }
  }

  lemma {:induction false} ThinOfSeen(s: seq<Name>, seen: set<Name>)
    requires AllIn(s, seen)
    ensures Thin(s, seen) == []
    decreases |s|
  {
    if s != [] { ThinOfSeen(s[1..], seen); }
  }

  /** What hangs on nodes met before was met before, so leaving them out changes nothing above. */
  lemma {:induction false} AboveThin(g: Nodes, s: seq<Name>, seen: set<Name>, above: set<Name>)
    requires Closed(g) && AllIn(s, g.Keys)
    requires forall n :: n in seen ==> n in g && AllIn(g[n].deps, above)
    ensures AllIn(Thin(s, seen), g.Keys)
    ensures Thin(Above(g, Thin(s, seen)), above) == Thin(Above(g, s), above)
    decreases |s|
  {
    if s != [] {
      var n, rest := s[0], s[1..];
      var deps := g[n].deps;
      if n in seen {
        AboveThin(g, rest, seen, above);
        ThinOfTwo(deps, Above(g, rest), above);
        ThinOfSeen(deps, above);
        assert above + Elements(deps) == above;
      } else {
        AboveThin(g, rest, seen + {n}, above + Elements(deps));
        var kept := Thin(rest, seen + {n});
        assert Thin(s, seen) == [n] + kept && ([n] + kept)[1..] == kept;
        ThinOfTwo(deps, Above(g, kept), above);
        ThinOfTwo(deps, Above(g, rest), above);
      }
    }
  }
}

/** Structured branches: every merge joins the branches of one choice, and then depends on it. */
module Reconvergence {
  import opened Names
  import opened Sets
  import opened Wrappers
  import opened Graph
  import opened CycleSearch
  import opened Rings

  /** The choice a node sits under, and the entry of the branch it sits in. */
  datatype Branch = Branch(choice: Name, entry: Name)

  datatype Unstructured =
    | SharedBranch(node: Name)
    | ChoiceAsTail(merge: Name, tail: Name)
    | DanglingTail(merge: Name, tail: Name)
    | CrossChoiceMerge(merge: Name)
    | ImplicitJoin(node: Name)

  predicate IsChoice(g: Nodes, n: Name) {
    n in g && g[n].kind.Choice?
  }

  /** A walk, possibly of no edge, leads from `a` to `b`. */
  ghost predicate Leads(g: Nodes, a: Name, b: Name) {
    exists p :: WalkBetween(g, p, a, b)
  }

  // ---- The nearest branch ----

  function FirstChoice(g: Nodes, deps: seq<Name>): (r: Option<Name>)
    ensures r.Some? ==> r.value in deps && IsChoice(g, r.value)
    ensures r.None? ==> forall d :: d in deps ==> !IsChoice(g, d)
  {
    if deps == [] then None
    else if IsChoice(g, deps[0]) then Some(deps[0])
    else
      assert forall d :: d in deps <==> d == deps[0] || d in deps[1..];
      FirstChoice(g, deps[1..])
  }

  /** What the breadth-first climb from `queue` returns. */
  ghost function Nearest(g: Nodes, queue: seq<Name>, visited: set<Name>): Option<Branch>
    requires Closed(g) && AllIn(queue, g.Keys)
    decreases |g.Keys - visited|, |queue|
  {
    if queue == [] then None
    else
      var n := queue[0];
      if n in visited then Nearest(g, queue[1..], visited)
      else
        match FirstChoice(g, g[n].deps)
        case Some(c) => Some(Branch(c, n))
        case None =>
          FewerUnvisited(g.Keys, visited, visited + {n}, n);
          Nearest(g, queue[1..] + g[n].deps, visited + {n})
  }

  ghost function NearestBranchOf(g: Nodes, n: Name): Option<Branch>
    requires Closed(g) && n in g
  {
    Nearest(g, [n], {})
  }

  /** A branch entry: a node that depends on a choice. */
  ghost predicate IsEntry(g: Nodes, n: Name) {
    n in g && exists c :: c in g[n].deps && IsChoice(g, c)
  }

  /** The choice is the first one among the node's dependencies. */
  ghost predicate FirstAmong(g: Nodes, deps: seq<Name>, c: Name) {
    exists i :: 0 <= i < |deps| && deps[i] == c && IsChoice(g, c) && forall j :: 0 <= j < i ==> !IsChoice(g, deps[j])
  }

  /** The first entry of the list. */
  ghost predicate MetFirst(g: Nodes, s: seq<Name>, e: Name) {
    exists i :: 0 <= i < |s| && s[i] == e && IsEntry(g, e) && forall j :: 0 <= j < i ==> !IsEntry(g, s[j])
  }

  ghost predicate NoEntry(g: Nodes, s: seq<Name>) {
    forall n :: n in s ==> !IsEntry(g, n)
  }

  /**
    No climb to any entry of any choice is shorter than the one to this entry. Among entries as near, it is the first in
    the order of the rings; among the choices of the entry, it is the first dependency.
  */
  ghost predicate IsNearest(g: Nodes, start: Name, b: Branch)
    requires Closed(g) && start in g
  {
    && b.entry in g && FirstAmong(g, g[b.entry].deps, b.choice)
    && exists d: nat ::
         && Climbs(g, b.entry, start, d) && MetFirst(g, Ring(g, start, d), b.entry)
         && forall c, e, d': nat {:trigger Edge(g, c, e), Climbs(g, e, start, d')} ::
              IsChoice(g, c) && Edge(g, c, e) && Climbs(g, e, start, d') ==> d <= d'
  }

  ghost function FirstEntry(g: Nodes, s: seq<Name>): Option<Name> {
    if s == [] then None else if IsEntry(g, s[0]) then Some(s[0]) else FirstEntry(g, s[1..])
  }

  lemma {:induction false} FirstEntryIs(g: Nodes, s: seq<Name>)
    ensures FirstEntry(g, s).Some? ==> MetFirst(g, s, FirstEntry(g, s).value)
    ensures FirstEntry(g, s).None? <==> NoEntry(g, s)
    decreases |s|
  {
    hide IsEntry;
    if s != [] && !IsEntry(g, s[0]) {
      var rest := s[1..];
      FirstEntryIs(g, rest);
      assert forall n :: n in s <==> n == s[0] || n in rest;
      var r := FirstEntry(g, rest);
      if r.Some? {
        var i :| 0 <= i < |rest| && rest[i] == r.value && forall j :: 0 <= j < i ==> !IsEntry(g, rest[j]);
        assert s[i+1] == r.value;
        forall j | 0 <= j < i + 1 ensures !IsEntry(g, s[j]) { if j > 0 { assert s[j] == rest[j-1]; } }
      }
    }
  }

  lemma {:induction false} FirstChoiceIsFirst(g: Nodes, deps: seq<Name>)
    ensures FirstChoice(g, deps).Some? ==> FirstAmong(g, deps, FirstChoice(g, deps).value)
    decreases |deps|
  {
    if deps != [] && !IsChoice(g, deps[0]) {
      FirstChoiceIsFirst(g, deps[1..]);
      var r := FirstChoice(g, deps);
      if r.Some? {
        var rest := deps[1..];
        var i :| 0 <= i < |rest| && rest[i] == r.value && forall j :: 0 <= j < i ==> !IsChoice(g, rest[j]);
        assert deps[i+1] == r.value;
        forall j | 0 <= j < i + 1 ensures !IsChoice(g, deps[j]) { if j > 0 { assert deps[j] == rest[j-1]; } }
      }
    }
  }

  /** Leaving out what was seen leaves the first entry. */
  lemma {:induction false} ThinKeepsFirst(g: Nodes, s: seq<Name>, seen: set<Name>)
    requires forall n :: n in seen ==> !IsEntry(g, n)
    ensures FirstEntry(g, Thin(s, seen)) == FirstEntry(g, s)
    decreases |s|
  {
    hide IsEntry, MetFirst;
    if s != [] {
      if s[0] in seen {
        ThinKeepsFirst(g, s[1..], seen);
      } else if !IsEntry(g, s[0]) {
        ThinKeepsFirst(g, s[1..], seen + {s[0]});
        assert ([s[0]] + Thin(s[1..], seen + {s[0]}))[1..] == Thin(s[1..], seen + {s[0]});
      }
    }
  }

  lemma EntryHasChoice(g: Nodes, n: Name)
    requires n in g
    ensures IsEntry(g, n) <==> FirstChoice(g, g[n].deps).Some?
  {
  }

  /** The queue passes the nodes of one ring, none of which is an entry. */
  lemma {:induction false} PassRing(g: Nodes, ring: seq<Name>, next: seq<Name>, visited: set<Name>)
    requires Closed(g) && AllIn(ring, g.Keys) && AllIn(next, g.Keys) && NoEntry(g, ring)
    ensures AllIn(ring + next, g.Keys) && AllIn(next + Above(g, Thin(ring, visited)), g.Keys)
    ensures Nearest(g, ring + next, visited)
         == Nearest(g, next + Above(g, Thin(ring, visited)), visited + Elements(ring))
    decreases |ring|
  {
    hide IsEntry, FirstChoice;
    if ring == [] {
      assert ring + next == next && next + [] == next && visited + Elements(ring) == visited;
    } else {
      var n, rest := ring[0], ring[1..];
      EntryHasChoice(g, n);
      assert (ring + next)[1..] == rest + next;
      assert visited + {n} + Elements(rest) == visited + Elements(ring);
      if n in visited {
        assert visited + {n} == visited;
        PassRing(g, rest, next, visited);
      } else {
        PassRing(g, rest, next + g[n].deps, visited + {n});
        var kept := Thin(rest, visited + {n});
        assert ([n] + kept)[1..] == kept;
        assert rest + (next + g[n].deps) == (ring + next)[1..] + g[n].deps;
        assert next + g[n].deps + Above(g, kept) == next + (g[n].deps + Above(g, kept));
      }
    }
  }

  /** The queue stops at the first entry of the ring. */
  lemma {:induction false} StopInRing(g: Nodes, ring: seq<Name>, next: seq<Name>, visited: set<Name>)
    requires Closed(g) && AllIn(ring, g.Keys) && AllIn(next, g.Keys)
    requires FirstEntry(g, ring).Some? && forall n :: n in visited ==> !IsEntry(g, n)
    ensures AllIn(ring + next, g.Keys)
    ensures var b, e := Nearest(g, ring + next, visited), FirstEntry(g, ring).value;
            e in g && b.Some? && b.value.entry == e && FirstChoice(g, g[e].deps) == Some(b.value.choice)
    decreases |ring|
  {
    hide IsEntry, MetFirst;
    var n, rest := ring[0], ring[1..];
    EntryHasChoice(g, n);
    assert (ring + next)[1..] == rest + next;
    if !IsEntry(g, n) {
      if n in visited {
        StopInRing(g, rest, next, visited);
      } else {
        StopInRing(g, rest, next + g[n].deps, visited + {n});
        assert rest + (next + g[n].deps) == (ring + next)[1..] + g[n].deps;
      }
    }
  }

  /** The queue holds the ring at distance `d`, but for nodes met before. */
  ghost predicate AtRing(g: Nodes, start: Name, d: nat, queue: seq<Name>, visited: set<Name>)
    requires Closed(g) && start in g
  {
    && AllIn(queue, g.Keys) && Thin(queue, visited) == Thin(Ring(g, start, d), visited)
    && (forall n :: n in visited ==> n in g && !IsEntry(g, n))
    && (forall n :: n in visited ==> AllIn(g[n].deps, visited + Elements(Ring(g, start, d))))
    && forall j: nat :: j < d ==> NoEntry(g, Ring(g, start, j))
  }

  lemma NextRing(g: Nodes, start: Name, d: nat, queue: seq<Name>, visited: set<Name>)
    requires Closed(g) && start in g && AtRing(g, start, d, queue, visited) && NoEntry(g, Ring(g, start, d))
    ensures AllIn(Thin(queue, visited), g.Keys)
    ensures AtRing(g, start, d + 1, Above(g, Thin(queue, visited)), visited + Elements(queue))
  {
    hide IsEntry;
    var ring := Ring(g, start, d);
    var met := visited + Elements(queue);
    assert met == visited + Elements(ring) by {
      forall n ensures n in met <==> n in visited + Elements(ring) {
        assert n in Thin(queue, visited) <==> n in queue && n !in visited;
        assert n in Thin(ring, visited) <==> n in ring && n !in visited;
      }
    }
    AboveThin(g, ring, visited, met);
    forall n | n in met ensures AllIn(g[n].deps, met + Elements(Ring(g, start, d + 1))) {
      forall m | m in g[n].deps ensures m in met + Elements(Ring(g, start, d + 1)) {
        if n !in visited { AboveHas(g, ring, m); }
      }
    }
  }

  /** The climb goes on to the next ring when this one has no entry. */
  lemma GoesOn(g: Nodes, start: Name, d: nat, queue: seq<Name>, visited: set<Name>)
    requires Closed(g) && start in g && AtRing(g, start, d, queue, visited) && NoEntry(g, Ring(g, start, d))
    ensures AllIn(queue, g.Keys) && AllIn(Thin(queue, visited), g.Keys)
    ensures AllIn(Above(g, Thin(queue, visited)), g.Keys)
    ensures Nearest(g, queue, visited) == Nearest(g, Above(g, Thin(queue, visited)), visited + Elements(queue))
    ensures Thin(queue, visited) != [] ==> |g.Keys - (visited + Elements(queue))| < |g.Keys - visited|
  {
    hide IsEntry, Nearest, Ring, Above;
    var kept := Thin(queue, visited);
    QueueHasNone(g, queue, Ring(g, start, d), visited);
    PassRing(g, queue, [], visited);
    assert queue + [] == queue && [] + Above(g, kept) == Above(g, kept);
    if kept != [] { FewerUnvisited(g.Keys, visited, visited + Elements(queue), kept[0]); }
  }

  lemma QueueHasNone(g: Nodes, queue: seq<Name>, ring: seq<Name>, visited: set<Name>)
    requires Thin(queue, visited) == Thin(ring, visited) && NoEntry(g, ring)
    requires forall n :: n in visited ==> !IsEntry(g, n)
    ensures NoEntry(g, queue)
  {
    hide IsEntry;
    forall n | n in queue ensures !IsEntry(g, n) {
      assert n !in visited ==> n in Thin(queue, visited);
    }
  }

  /** The climb stops in this ring. */
  lemma StopsHere(g: Nodes, start: Name, d: nat, queue: seq<Name>, visited: set<Name>)
    requires Closed(g) && start in g && AtRing(g, start, d, queue, visited)
    requires FirstEntry(g, Ring(g, start, d)).Some?
    ensures AllIn(queue, g.Keys)
    ensures var b, e := Nearest(g, queue, visited), FirstEntry(g, Ring(g, start, d)).value;
            e in g && b.Some? && b.value.entry == e && FirstChoice(g, g[e].deps) == Some(b.value.choice)
  {
    hide IsEntry, Nearest, Ring;
    ThinKeepsFirst(g, queue, visited);
    ThinKeepsFirst(g, Ring(g, start, d), visited);
    StopInRing(g, queue, [], visited);
    assert queue + [] == queue;
  }

  lemma {:induction false} NearestInRing(g: Nodes, start: Name, d: nat, queue: seq<Name>, visited: set<Name>)
      returns (d': nat)
    requires Closed(g) && start in g && AllIn(queue, g.Keys) && AtRing(g, start, d, queue, visited)
    requires Nearest(g, queue, visited).Some?
    ensures var b := Nearest(g, queue, visited).value;
      && FirstEntry(g, Ring(g, start, d')) == Some(b.entry)
      && b.entry in g && FirstChoice(g, g[b.entry].deps) == Some(b.choice)
    ensures forall j: nat :: j < d' ==> NoEntry(g, Ring(g, start, j))
    decreases |g.Keys - visited|
  {
    hide IsEntry, MetFirst, NoEntry, Ring, Thin, FirstEntry, Closed;
    d' := d;
    FirstEntryIs(g, Ring(g, start, d));
    if FirstEntry(g, Ring(g, start, d)).Some? {
      StopsHere(g, start, d, queue, visited);
    } else {
      GoesOn(g, start, d, queue, visited);
      NextRing(g, start, d, queue, visited);
      if Thin(queue, visited) != [] {
        d' := NearestInRing(g, start, d + 1, Above(g, Thin(queue, visited)), visited + Elements(queue));
      }
    }
  }

  /** The climb finds the branch whose entry is the fewest edges away. */
  lemma FoundIsNearest(g: Nodes, start: Name)
    requires Closed(g) && start in g
    ensures NearestBranchOf(g, start).Some? ==> IsNearest(g, start, NearestBranchOf(g, start).value)
  {
    hide Climbs, MetFirst;
    if NearestBranchOf(g, start).Some? {
      assert Elements([]) == {};
      var d := NearestInRing(g, start, 0, [start], {});
      FirstEntryIs(g, Ring(g, start, d));
      var b := NearestBranchOf(g, start).value;
      FirstChoiceIsFirst(g, g[b.entry].deps);
      MetIsIn(g, Ring(g, start, d), b.entry);
      RingIsClimbs(g, start, d, b.entry);
      forall c, e, d': nat | IsChoice(g, c) && Edge(g, c, e) && Climbs(g, e, start, d') ensures d <= d' {
        RingIsClimbs(g, start, d', e);
      }
    }
  }

  lemma MetIsIn(g: Nodes, s: seq<Name>, e: Name)
    ensures MetFirst(g, s, e) ==> e in s
  {
  }

  /**
    Walks up from `start`; returns the branch whose entry is the fewest edges away, and none exactly if no branch entry
    leads to the start.
  */
  method NearestBranch(g: Nodes, start: Name) returns (r: Option<Branch>)
    requires Closed(g) && start in g
    ensures r.Some? ==> IsNearest(g, start, r.value)
    ensures r.None? <==> forall c, e :: IsChoice(g, c) && Edge(g, c, e) ==> !Leads(g, e, start)
    ensures r == NearestBranchOf(g, start)
  {
    FoundIsNearest(g, start);
    NearestBranchExists(g, start);
    var visited: set<Name> := {};
    var queue := [start];
    while queue != []
      invariant AllIn(queue, g.Keys)
      invariant Nearest(g, queue, visited) == NearestBranchOf(g, start)
      decreases |g.Keys - visited|, |queue|
    {
      var n := queue[0];
      queue := queue[1..];
      if n in visited {
        continue;
      }
      FewerUnvisited(g.Keys, visited, visited + {n}, n);
      var entry := FirstChoice(g, g[n].deps);
      if entry.Some? {
        return Some(Branch(entry.value, n));
      }
      visited := visited + {n};
      queue := queue + g[n].deps;
    }
    return None;
  }

  lemma PrependLeads(g: Nodes, a: Name, b: Name, c: Name)
    requires Edge(g, a, b) && Leads(g, b, c)
    ensures Leads(g, a, c)
  {
    var q :| WalkBetween(g, q, b, c);
    assert Walk(g, [a, b]);
    WalkConcat(g, [a, b], q);
    assert WalkBetween(g, [a, b] + q[1..], a, c);
  }

  lemma LeadsSelf(g: Nodes, a: Name)
    requires a in g
    ensures Leads(g, a, a)
  {
    assert WalkBetween(g, [a], a, a);
  }

  lemma {:induction false} NearestIsAbove(g: Nodes, queue: seq<Name>, visited: set<Name>, start: Name)
    requires Closed(g) && AllIn(queue, g.Keys) && start in g
    requires forall n :: n in queue ==> Leads(g, n, start)
    requires Nearest(g, queue, visited).Some?
    ensures var b := Nearest(g, queue, visited).value;
            IsChoice(g, b.choice) && Edge(g, b.choice, b.entry) && Leads(g, b.entry, start)
    decreases |g.Keys - visited|, |queue|
  {
    hide Leads;
    var n := queue[0];
    if n in visited {
      NearestIsAbove(g, queue[1..], visited, start);
    } else if FirstChoice(g, g[n].deps).None? {
      FewerUnvisited(g.Keys, visited, visited + {n}, n);
      forall d | d in queue[1..] + g[n].deps ensures Leads(g, d, start) {
        if d in g[n].deps { PrependLeads(g, d, n, start); }
      }
      NearestIsAbove(g, queue[1..] + g[n].deps, visited + {n}, start);
    }
  }

  /** The choice found is a proper ancestor of the node the climb began at. */
  lemma NearestChoiceIsAncestor(g: Nodes, n: Name)
    requires Closed(g) && n in g && NearestBranchOf(g, n).Some?
    ensures var b := NearestBranchOf(g, n).value;
            IsChoice(g, b.choice) && Edge(g, b.choice, b.entry) && Leads(g, b.entry, n) && Reaches(g, b.choice, n)
  {
    LeadsSelf(g, n);
    NearestIsAbove(g, [n], {}, n);
    var b := NearestBranchOf(g, n).value;
    var q :| WalkBetween(g, q, b.entry, n);
    WalkConcat(g, [b.choice, b.entry], q);
    assert WalkBetween(g, [b.choice, b.entry] + q[1..], b.choice, n);
  }

  /** Nothing visited depends on a choice, and what it depends on is visited or queued. */
  ghost predicate Climbed(g: Nodes, queue: seq<Name>, visited: set<Name>) {
    forall n :: n in visited ==>
      n in g && FirstChoice(g, g[n].deps).None? && AllIn(g[n].deps, visited + Elements(queue))
  }

  lemma {:induction false} NothingAbove(g: Nodes, queue: seq<Name>, visited: set<Name>, start: Name)
    returns (all: set<Name>)
    requires Closed(g) && AllIn(queue, g.Keys) && Nearest(g, queue, visited).None?
    requires Climbed(g, queue, visited) && start in visited + Elements(queue)
    ensures Climbed(g, [], all) && start in all
    decreases |g.Keys - visited|, |queue|
  {
    if queue == [] {
      all := visited;
    } else {
      var n := queue[0];
      assert queue == [n] + queue[1..];
      if n in visited {
        all := NothingAbove(g, queue[1..], visited, start);
      } else {
        FewerUnvisited(g.Keys, visited, visited + {n}, n);
        all := NothingAbove(g, queue[1..] + g[n].deps, visited + {n}, start);
      }
    }
  }

  lemma {:induction false} StaysClimbed(g: Nodes, all: set<Name>, p: seq<Name>)
    requires Climbed(g, [], all) && Walk(g, p) && p[|p|-1] in all
    ensures p[0] in all
  {
    if |p| > 1 {
      var d, n := p[|p|-2], p[|p|-1];
      assert Edge(g, d, n);
      assert d in all + Elements([]);
      var q := p[..|p|-1];
      assert Walk(g, q) by {
        forall i | 0 <= i < |q| - 1 ensures Edge(g, q[i], q[i+1]) { assert Edge(g, p[i], p[i+1]); }
      }
      StaysClimbed(g, all, q);
    }
  }

  /** The climb finds a branch exactly when some node leading to the start depends on a choice. */
  lemma NearestBranchExists(g: Nodes, start: Name)
    requires Closed(g) && start in g
    ensures NearestBranchOf(g, start).Some? <==> exists c, e :: IsChoice(g, c) && Edge(g, c, e) && Leads(g, e, start)
  {
    if NearestBranchOf(g, start).Some? {
      NearestChoiceIsAncestor(g, start);
    } else {
      var all := NothingAbove(g, [start], {}, start);
      forall c, e | IsChoice(g, c) && Edge(g, c, e) ensures !Leads(g, e, start) {
        if Leads(g, e, start) {
          var p :| WalkBetween(g, p, e, start);
          StaysClimbed(g, all, p);
        }
      }
    }
  }

  lemma FirstAmongOnce(g: Nodes, deps: seq<Name>, c: Name, d: Name)
    requires FirstAmong(g, deps, c) && FirstAmong(g, deps, d)
    ensures c == d && c in deps && IsChoice(g, c)
  {
  }

  lemma MetFirstOnce(g: Nodes, s: seq<Name>, e: Name, f: Name)
    requires MetFirst(g, s, e) && MetFirst(g, s, f)
    ensures e == f
  {
  }

  lemma SameNearest(g: Nodes, start: Name, b: Branch, b': Branch)
    requires Closed(g) && start in g && IsNearest(g, start, b) && IsNearest(g, start, b')
    ensures b == b'
  {
    hide FirstAmong, MetFirst, Climbs;
    var d: nat :| Climbs(g, b.entry, start, d) && MetFirst(g, Ring(g, start, d), b.entry)
      && forall c, e, d': nat {:trigger Edge(g, c, e), Climbs(g, e, start, d')} ::
           IsChoice(g, c) && Edge(g, c, e) && Climbs(g, e, start, d') ==> d <= d';
    var d2: nat :| Climbs(g, b'.entry, start, d2) && MetFirst(g, Ring(g, start, d2), b'.entry)
      && forall c, e, d': nat {:trigger Edge(g, c, e), Climbs(g, e, start, d')} ::
           IsChoice(g, c) && Edge(g, c, e) && Climbs(g, e, start, d') ==> d2 <= d';
    FirstAmongOnce(g, g[b.entry].deps, b.choice, b.choice);
    FirstAmongOnce(g, g[b'.entry].deps, b'.choice, b'.choice);
    assert Edge(g, b.choice, b.entry) && Edge(g, b'.choice, b'.entry);
    assert d == d2;
    MetFirstOnce(g, Ring(g, start, d), b.entry, b'.entry);
    FirstAmongOnce(g, g[b.entry].deps, b.choice, b'.choice);
  }

  /** There is at most one nearest branch, and the climb finds it. */
  lemma NearestIsOnly(g: Nodes, start: Name, b: Branch)
    requires Closed(g) && start in g
    ensures NearestBranchOf(g, start) == Some(b) <==> IsNearest(g, start, b)
  {
    hide MetFirst, NearestBranchOf, Ring;
    FoundIsNearest(g, start);
    NearestBranchExists(g, start);
    if IsNearest(g, start, b) {
      FirstAmongOnce(g, g[b.entry].deps, b.choice, b.choice);
      assert Edge(g, b.choice, b.entry);
      assert Leads(g, b.entry, start);
      SameNearest(g, start, b, NearestBranchOf(g, start).value);
    }
  }

  // ---- What the builder accepts ----

  /**
    No two choices own the node as an entry; a merge's tails are no choices and all have their nearest branch under one
    choice, not named by an empty name; any other node's dependencies have not their nearest branches in different
    branches of one choice.
  */
  ghost predicate WellShaped(g: Nodes, n: Name)
    requires Closed(g) && n in g
  {
    && (forall c, d :: c in g[n].deps && d in g[n].deps && IsChoice(g, c) && IsChoice(g, d) ==> c == d)
    && (g[n].kind.Merge? ==>
          && (forall d :: d in g[n].deps && d in g[n].kind.tails ==>
                !IsChoice(g, d) && exists b :: IsNearest(g, d, b) && b.choice != "")
          && (forall d, e, b, b' ::
                (d in g[n].deps && d in g[n].kind.tails && e in g[n].deps && e in g[n].kind.tails
                 && IsNearest(g, d, b) && IsNearest(g, e, b')) ==> b.choice == b'.choice))
    && (!g[n].kind.Merge? && !g[n].kind.Choice? ==>
          forall d, e, b, b' ::
            d in g[n].deps && e in g[n].deps && IsNearest(g, d, b) && IsNearest(g, e, b') && b.choice == b'.choice
            ==> b.entry == b'.entry)
  }

  /** The refusal names a shape that the graph really has. */
  ghost predicate Shows(g: Nodes, u: Unstructured)
    requires Closed(g)
  {
    match u
    case SharedBranch(n) =>
      n in g && exists c, d :: c in g[n].deps && d in g[n].deps && IsChoice(g, c) && IsChoice(g, d) && c != d
    case ChoiceAsTail(n, d) => n in g && g[n].kind.Merge? && d in g[n].deps && d in g[n].kind.tails && IsChoice(g, d)
    case DanglingTail(n, d) =>
      && n in g && g[n].kind.Merge? && d in g[n].deps && d in g[n].kind.tails
      && forall b :: IsNearest(g, d, b) ==> b.choice == ""
    case CrossChoiceMerge(n) =>
      && n in g && g[n].kind.Merge?
      && exists d, e, b, b' ::
           && d in g[n].deps && d in g[n].kind.tails && e in g[n].deps && e in g[n].kind.tails
           && IsNearest(g, d, b) && IsNearest(g, e, b') && b.choice != b'.choice
    case ImplicitJoin(n) =>
      && n in g && !g[n].kind.Merge? && !g[n].kind.Choice?
      && exists d, e, b, b' ::
           && d in g[n].deps && e in g[n].deps && IsNearest(g, d, b) && IsNearest(g, e, b')
           && b.choice == b'.choice && b.entry != b'.entry
  }

  /** The owner recorded for a dependency; a dependency under no choice is recorded with empty names. */
  ghost function OwnerOf(g: Nodes, d: Name): Branch
    requires Closed(g) && d in g
  {
    match NearestBranchOf(g, d)
    case Some(b) => b
    case None => Branch("", "")
  }

  ghost predicate SoleOwner(g: Nodes, n: Name)
    requires n in g
  {
    forall c, d :: c in g[n].deps && d in g[n].deps && IsChoice(g, c) && IsChoice(g, d) ==> c == d
  }

  /** The dependency entries of a merge that are `From` tails. */
  predicate IsTail(g: Nodes, n: Name, d: Name)
    requires n in g && g[n].kind.Merge?
  {
    d in g[n].deps && d in g[n].kind.tails
  }

  /** Every tail lies inside a branch, and all of them under one choice. */
  ghost predicate JoinsOneChoice(g: Nodes, n: Name)
    requires Closed(g) && n in g && g[n].kind.Merge?
  {
    && (forall d :: IsTail(g, n, d) ==> !IsChoice(g, d) && OwnerOf(g, d).choice != "")
    && (forall d, e :: IsTail(g, n, d) && IsTail(g, n, e) ==> OwnerOf(g, d).choice == OwnerOf(g, e).choice)
  }

  /** No two dependencies lie in different branches of the same choice. */
  ghost predicate JoinsNothing(g: Nodes, n: Name)
    requires Closed(g) && n in g
  {
    forall d, e ::
      (d in g[n].deps && e in g[n].deps && NearestBranchOf(g, d).Some? && NearestBranchOf(g, e).Some?
       && OwnerOf(g, d).choice == OwnerOf(g, e).choice)
      ==> OwnerOf(g, d).entry == OwnerOf(g, e).entry
  }

  ghost predicate JoinsWell(g: Nodes, n: Name)
    requires Closed(g) && n in g
  {
    match g[n].kind
    case Choice(_, _) => true
    case Merge(_) => JoinsOneChoice(g, n)
    case _ => JoinsNothing(g, n)
  }

  ghost predicate Structured(g: Nodes)
    requires Closed(g)
  {
    (forall n :: n in g ==> SoleOwner(g, n)) && (forall n :: n in g ==> JoinsWell(g, n))
  }

  lemma JoinsOneIs(g: Nodes, n: Name)
    requires Closed(g) && n in g && g[n].kind.Merge?
    ensures JoinsOneChoice(g, n) <==>
      && (forall d :: d in g[n].deps && d in g[n].kind.tails ==>
            !IsChoice(g, d) && exists b :: IsNearest(g, d, b) && b.choice != "")
      && (forall d, e, b, b' ::
            (d in g[n].deps && d in g[n].kind.tails && e in g[n].deps && e in g[n].kind.tails
             && IsNearest(g, d, b) && IsNearest(g, e, b')) ==> b.choice == b'.choice)
  {
    hide NearestBranchOf, IsNearest, IsChoice, Closed;
    OwnersAreNearest(g, n);
  }

  lemma JoinsNothingIs(g: Nodes, n: Name)
    requires Closed(g) && n in g
    ensures JoinsNothing(g, n) <==>
      forall d, e, b, b' ::
        d in g[n].deps && e in g[n].deps && IsNearest(g, d, b) && IsNearest(g, e, b') && b.choice == b'.choice
        ==> b.entry == b'.entry
  {
    hide NearestBranchOf, IsNearest, IsChoice, Closed;
    OwnersAreNearest(g, n);
  }

  /** The owner on record is the nearest branch. */
  lemma OwnersAreNearest(g: Nodes, n: Name)
    requires Closed(g) && n in g
    ensures forall d :: d in g[n].deps ==> d in g
    ensures forall d, b :: d in g[n].deps ==> (IsNearest(g, d, b) <==> NearestBranchOf(g, d) == Some(b))
  {
    hide NearestBranchOf, IsNearest;
    forall d, b | d in g[n].deps ensures IsNearest(g, d, b) <==> NearestBranchOf(g, d) == Some(b) {
      NearestIsOnly(g, d, b);
    }
  }

  /** A graph is accepted exactly if each of its nodes is well shaped, by nearest branches. */
  lemma AcceptedShapes(g: Nodes)
    requires Closed(g)
    ensures Structured(g) <==> forall n :: n in g ==> WellShaped(g, n)
  {
    hide JoinsOneChoice, JoinsNothing, IsNearest, IsChoice, Closed;
    forall n | n in g ensures WellShaped(g, n) <==> SoleOwner(g, n) && JoinsWell(g, n) {
      if g[n].kind.Merge? {
        JoinsOneIs(g, n);
      } else {
        JoinsNothingIs(g, n);
      }
    }
  }

  /** The choice a merge's tails all lie under; none for a merge without tails. */
  ghost predicate SourceChoice(g: Nodes, n: Name, c: Name)
    requires Closed(g) && n in g
  {
    g[n].kind.Merge? && exists d :: IsTail(g, n, d) && OwnerOf(g, d).choice == c
  }

  /** `g'` is `g` where each merge depends on its source choice as well, unless it did already. */
  ghost predicate AddsSourceChoices(g: Nodes, g': Nodes)
    requires Closed(g)
  {
    && g'.Keys == g.Keys
    && (forall n :: n in g ==> g'[n] == g[n] || exists c :: LinkedTo(g, g', n, c))
    && (forall n, c :: n in g && SourceChoice(g, n, c) ==> c in g'[n].deps)
  }

  ghost predicate LinkedTo(g: Nodes, g': Nodes, n: Name, c: Name)
    requires Closed(g) && n in g && n in g'
  {
    SourceChoice(g, n, c) && c !in g[n].deps && g'[n] == g[n].(deps := g[n].deps + [c])
  }

  /**
    A merge's dependency list ends with the choice its tails are nearest to, unless it had that choice already; nothing
    else changes.
  */
  lemma AppendedIs(g: Nodes, g': Nodes, n: Name)
    requires Closed(g) && Structured(g) && AddsSourceChoices(g, g') && n in g
    ensures g'.Keys == g.Keys && g'[n].continueOnError == g[n].continueOnError && g'[n].kind == g[n].kind
    ensures forall d, b ::
      g[n].kind.Merge? && d in g[n].deps && d in g[n].kind.tails && IsNearest(g, d, b) ==>
      g'[n].deps == if b.choice in g[n].deps then g[n].deps else g[n].deps + [b.choice]
    ensures g'[n] == g[n] || (g[n].kind.Merge? && exists d :: d in g[n].deps && d in g[n].kind.tails)
  {
    hide NearestBranchOf, IsNearest, Closed;
    OwnersAreNearest(g, n);
    assert JoinsWell(g, n);
    forall d, b | g[n].kind.Merge? && d in g[n].deps && d in g[n].kind.tails && IsNearest(g, d, b)
      ensures g'[n].deps == if b.choice in g[n].deps then g[n].deps else g[n].deps + [b.choice]
    {
      assert IsTail(g, n, d) && OwnerOf(g, d).choice == b.choice;
      assert SourceChoice(g, n, b.choice);
    }
  }

  /** Checks the three unstructured shapes, then appends the merge-to-choice edges. */
  method ValidateReconvergence(g: Nodes) returns (r: Result<Nodes, Unstructured>)
    requires Closed(g)
    ensures r.Ok? <==> forall n :: n in g ==> WellShaped(g, n)
    ensures r.Err? ==> Shows(g, r.error)
    ensures r.Ok? <==> Structured(g)
    ensures r.Ok? ==> AddsSourceChoices(g, r.value)
  {
    hide *;
    AcceptedShapes(g);
    var todo := g.Keys;
    while todo != {}
      invariant todo <= g.Keys
      invariant forall n :: n in g && n !in todo ==> SoleOwner(g, n)
      decreases todo
    {
      var n :| n in todo;
      todo := todo - {n};
      var sole := HasSoleOwner(g, n);
      if !sole {
        NotStructured(g, n);
        SharedShown(g, n);
        return Err(SharedBranch(n));
      }
    }
    var pending: map<Name, Name> := map[];
    todo := g.Keys;
    while todo != {}
      invariant todo <= g.Keys
      invariant forall n :: n in g && n !in todo ==> JoinsWell(g, n)
      invariant forall n :: n in pending ==>
        n in g && n !in todo && SourceChoice(g, n, pending[n]) && pending[n] !in g[n].deps
      invariant forall n, c :: n in g && n !in todo && SourceChoice(g, n, c) ==>
        c in g[n].deps || (n in pending && pending[n] == c)
      decreases todo
    {
      var n :| n in todo;
      todo := todo - {n};
      NoSourceUnlessMerge(g, n);
      if g[n].kind.Choice? {
        continue;
      }
      var owners := OwnersOf(g, n);
      if g[n].kind.Merge? {
        var join := CheckTails(g, n, owners);
        if join.Err? {
          NotStructured(g, n);
          return Err(join.error);
        }
        if join.value.Some? && join.value.value !in g[n].deps {
          pending := pending[n := join.value.value];
        }
      } else {
        var joins := CheckBranches(g, n, owners);
        if joins {
          NotStructured(g, n);
          JoinShown(g, n);
          return Err(ImplicitJoin(n));
        }
      }
    }
    AllStructured(g);
    var g' := map n | n in g :: if n in pending then g[n].(deps := g[n].deps + [pending[n]]) else g[n];
    PendingAdds(g, g', pending);
    return Ok(g');
  }

  lemma SharedShown(g: Nodes, n: Name)
    requires Closed(g) && n in g && !SoleOwner(g, n)
    ensures Shows(g, SharedBranch(n))
  {
  }

  lemma JoinShown(g: Nodes, n: Name)
    requires Closed(g) && n in g && !g[n].kind.Merge? && !g[n].kind.Choice? && !JoinsNothing(g, n)
    ensures Shows(g, ImplicitJoin(n))
  {
    hide NearestBranchOf, IsNearest, Closed, JoinsNothing;
    JoinsNothingIs(g, n);
  }

  lemma CrossShown(g: Nodes, n: Name, c: Name, c': Name)
    requires Closed(g) && n in g && g[n].kind.Merge? && c != c' && c != "" && c' != ""
    requires SourceChoice(g, n, c) && SourceChoice(g, n, c')
    ensures Shows(g, CrossChoiceMerge(n))
  {
    hide NearestBranchOf, IsNearest, Closed;
    OwnersAreNearest(g, n);
    var d :| IsTail(g, n, d) && OwnerOf(g, d).choice == c;
    var e :| IsTail(g, n, e) && OwnerOf(g, e).choice == c';
    assert IsNearest(g, d, OwnerOf(g, d)) && IsNearest(g, e, OwnerOf(g, e));
  }

  lemma NotStructured(g: Nodes, n: Name)
    requires Closed(g) && n in g && (!SoleOwner(g, n) || !JoinsWell(g, n))
    ensures !Structured(g)
  {
  }

  lemma AllStructured(g: Nodes)
    requires Closed(g)
    requires forall n :: n in g ==> SoleOwner(g, n)
    requires forall n :: n in g ==> JoinsWell(g, n)
    ensures Structured(g)
  {
  }

  /** At most one dependency lies in a branch. */
  lemma JoinsOneBranch(g: Nodes, n: Name, x: Name)
    requires Closed(g) && n in g && forall d :: d in g[n].deps && d != x ==> NearestBranchOf(g, d) == None
    ensures JoinsNothing(g, n)
  {
    hide Nearest;
  }

  lemma OneChoiceOwns(g: Nodes, c: Name)
    requires forall n :: IsChoice(g, n) ==> n == c
    ensures forall n :: n in g ==> SoleOwner(g, n)
  {
  }

  lemma NoSourceUnlessMerge(g: Nodes, n: Name)
    requires Closed(g) && n in g
    ensures !g[n].kind.Merge? ==> forall c :: !SourceChoice(g, n, c)
    ensures g[n].kind.Choice? ==> JoinsWell(g, n)
    ensures g[n].kind.Merge? ==> (JoinsWell(g, n) <==> JoinsOneChoice(g, n))
    ensures !g[n].kind.Choice? && !g[n].kind.Merge? ==> (JoinsWell(g, n) <==> JoinsNothing(g, n))
  {
  }

  lemma PendingAdds(g: Nodes, g': Nodes, pending: map<Name, Name>)
    requires Closed(g) && pending.Keys <= g.Keys
    requires forall n :: n in pending ==> SourceChoice(g, n, pending[n]) && pending[n] !in g[n].deps
    requires forall n, c :: n in g && SourceChoice(g, n, c) ==> c in g[n].deps || (n in pending && pending[n] == c)
    requires g' == map n | n in g :: if n in pending then g[n].(deps := g[n].deps + [pending[n]]) else g[n]
    ensures AddsSourceChoices(g, g')
  {
    forall n | n in g && g'[n] != g[n] ensures exists c :: LinkedTo(g, g', n, c) {
      assert LinkedTo(g, g', n, pending[n]);
    }
  }

  /** Whether the node depends on at most one distinct choice. */
  method HasSoleOwner(g: Nodes, n: Name) returns (sole: bool)
    requires Closed(g) && n in g
    ensures sole <==> SoleOwner(g, n)
  {
    var choices := set d | d in g[n].deps && IsChoice(g, d);
    sole := |choices| <= 1;
    if sole {
      AtMostOneOf(choices);
      forall c, d | c in g[n].deps && d in g[n].deps && IsChoice(g, c) && IsChoice(g, d) ensures c == d {
        assert c in choices && d in choices;
      }
    } else {
      TwoOf(choices);
    }
  }

  /** Whether an ordinary node depends on two different branches of one choice. */
  method CheckBranches(g: Nodes, n: Name, owners: seq<Option<Branch>>) returns (joins: bool)
    requires Closed(g) && n in g
    requires |owners| == |g[n].deps|
    requires forall i :: 0 <= i < |owners| ==> g[n].deps[i] in g && owners[i] == NearestBranchOf(g, g[n].deps[i])
    ensures joins <==> !JoinsNothing(g, n)
  {
    hide NearestBranchOf, Closed;
    var deps := g[n].deps;
    for i := 0 to |owners|
      invariant forall k, m :: 0 <= k < i && 0 <= m < |owners| ==> SameBranch(owners[k], owners[m])
    {
      for j := 0 to |owners|
        invariant forall m :: 0 <= m < j ==> SameBranch(owners[i], owners[m])
      {
        if !SameBranch(owners[i], owners[j]) {
          assert deps[i] in deps && deps[j] in deps;
          return true;
        }
      }
    }
    forall d, e | d in deps && e in deps && NearestBranchOf(g, d).Some? && NearestBranchOf(g, e).Some?
                  && OwnerOf(g, d).choice == OwnerOf(g, e).choice
      ensures OwnerOf(g, d).entry == OwnerOf(g, e).entry
    {
      var i :| 0 <= i < |deps| && deps[i] == d;
      var j :| 0 <= j < |deps| && deps[j] == e;
      assert SameBranch(owners[i], owners[j]);
    }
    return false;
  }

  /** Two dependencies under one choice must share the branch entry. */
  predicate SameBranch(a: Option<Branch>, b: Option<Branch>) {
    a.Some? && b.Some? && a.value.choice == b.value.choice ==> a.value.entry == b.value.entry
  }

  /** The nearest branch of each dependency entry. */
  method OwnersOf(g: Nodes, n: Name) returns (owners: seq<Option<Branch>>)
    requires Closed(g) && n in g
    ensures |owners| == |g[n].deps|
    ensures forall i :: 0 <= i < |owners| ==> g[n].deps[i] in g && owners[i] == NearestBranchOf(g, g[n].deps[i])
  {
    owners := [];
    for i := 0 to |g[n].deps|
      invariant |owners| == i
      invariant forall k :: 0 <= k < i ==> g[n].deps[k] in g && owners[k] == NearestBranchOf(g, g[n].deps[k])
    {
      var o := NearestBranch(g, g[n].deps[i]);
      owners := owners + [o];
    }
  }

  /** The tail-shape checks of one merge; the choice its tails lie under, if it has tails. */
  method CheckTails(g: Nodes, n: Name, owners: seq<Option<Branch>>) returns (r: Result<Option<Name>, Unstructured>)
    requires Closed(g) && n in g && g[n].kind.Merge?
    requires |owners| == |g[n].deps|
    requires forall i :: 0 <= i < |owners| ==> g[n].deps[i] in g && owners[i] == NearestBranchOf(g, g[n].deps[i])
    ensures r.Ok? <==> JoinsOneChoice(g, n)
    ensures r.Ok? ==> forall c :: SourceChoice(g, n, c) <==> r.value == Some(c)
    ensures r.Err? ==> Shows(g, r.error)
  {
    hide NearestBranchOf, IsChoice, IsNearest;
    var deps := g[n].deps;
    var found: Option<Name> := None;
    for i := 0 to |deps|
      invariant forall k :: 0 <= k < i && IsTail(g, n, deps[k]) ==>
                  !IsChoice(g, deps[k]) && OwnerOf(g, deps[k]).choice != "" && found == Some(OwnerOf(g, deps[k]).choice)
      invariant found.Some? ==> found.value != "" && SourceChoice(g, n, found.value)
    {
      var d := deps[i];
      if d !in g[n].kind.tails {
        continue;
      }
      assert IsTail(g, n, d);
      if IsChoice(g, d) {
        return Err(ChoiceAsTail(n, d));
      }
      var choice := if owners[i].Some? then owners[i].value.choice else "";
      if choice == "" {
        OwnersAreNearest(g, n);
        return Err(DanglingTail(n, d));
      }
      if found.Some? && found.value != choice {
        CrossShown(g, n, found.value, choice);
        return Err(CrossChoiceMerge(n));
      }
      found := Some(choice);
    }
    return Ok(found);
  }

  lemma TwoOf(s: set<Name>)
    requires |s| > 1
    ensures exists x, y :: x in s && y in s && x != y
  {
    var x :| x in s;
    var rest := s - {x};
    assert |rest| > 0;
    var y :| y in rest;
    assert y in s && x != y;
  }

  lemma AtMostOneOf(s: set<Name>)
    requires |s| <= 1
    ensures forall x, y :: x in s && y in s ==> x == y
  {
    if exists x, y :: x in s && y in s && x != y {
      var x, y :| x in s && y in s && x != y;
      assert {x, y} <= s && |{x, y}| == 2;
      SubsetSize({x, y}, s);
    }
  }

  // ---- The appended edges change nothing about order ----

  lemma SourceChoiceIsAncestor(g: Nodes, n: Name, c: Name)
    requires Closed(g) && Structured(g) && n in g && SourceChoice(g, n, c)
    ensures c in g && Reaches(g, c, n) && exists d :: d in g[n].deps && Reaches(g, c, d)
  {
    var d :| IsTail(g, n, d) && OwnerOf(g, d).choice == c;
    assert JoinsWell(g, n);
    NearestChoiceIsAncestor(g, d);
    EdgeReaches(g, d, n);
    ReachesTransitive(g, c, d, n);
  }

  lemma NewEdgeRises(g: Nodes, g': Nodes, level: map<Name, nat>, n: Name, d: Name)
    requires Closed(g) && Structured(g) && AddsSourceChoices(g, g') && IsLeveling(g, level)
    requires n in g' && d in g'[n].deps
    ensures d in g' && level[d] < level[n]
  {
    if d !in g[n].deps {
      var c :| LinkedTo(g, g', n, c);
      SourceChoiceIsAncestor(g, n, c);
      AncestorIsLower(g, level, c, n);
    }
  }

  lemma SupportStays(g: Nodes, g': Nodes, level: map<Name, nat>, n: Name)
    requires Closed(g) && AddsSourceChoices(g, g') && IsLeveling(g, level)
    requires n in g && level[n] > 0
    ensures JustAbove(g', level, n, g'.Keys)
  {
    assert JustAbove(g, level, n, g.Keys);
    var d :| d in g[n].deps && level[d] + 1 == level[n];
    assert d in g'[n].deps;
  }

  /** Each node keeps its level. */
  lemma SourceChoicesKeepLevels(g: Nodes, g': Nodes, level: map<Name, nat>)
    requires Closed(g) && Structured(g) && AddsSourceChoices(g, g') && IsLeveling(g, level)
    ensures IsLeveling(g', level)
  {
    hide *;
    SameNodes(g, g', level);
    forall n, d | n in g' && d in g'[n].deps ensures d in g' && level[d] < level[n] {
      NewEdgeRises(g, g', level, n, d);
    }
    forall n | n in g' && level[n] > 0 ensures JustAbove(g', level, n, g'.Keys) {
      SupportStays(g, g', level, n);
    }
    IntroLeveling(g', level);
  }

  lemma SameNodes(g: Nodes, g': Nodes, level: map<Name, nat>)
    requires Closed(g) && AddsSourceChoices(g, g') && IsLeveling(g, level)
    ensures g'.Keys == g.Keys == level.Keys
  {
  }

  lemma IntroLeveling(g: Nodes, level: map<Name, nat>)
    requires level.Keys == g.Keys
    requires forall n, d :: n in g && d in g[n].deps ==> d in g && level[d] < level[n]
    requires forall n {:trigger JustAbove(g, level, n, g.Keys)} :: n in g && level[n] > 0 ==>
      JustAbove(g, level, n, g.Keys)
    ensures IsLeveling(g, level)
  {
  }

  lemma AncestorIsLower(g: Nodes, level: map<Name, nat>, a: Name, n: Name)
    requires IsLeveling(g, level) && Reaches(g, a, n)
    ensures a in g && n in g && level[a] < level[n]
  {
    var p :| WalkBetween(g, p, a, n) && |p| > 1;
    LevelsRiseAlong(g, level, p);
  }

  lemma OldEdgeStays(g: Nodes, g': Nodes, p: seq<Name>)
    requires Closed(g) && AddsSourceChoices(g, g') && Walk(g, p)
    ensures Walk(g', p)
  {
    forall i | 0 <= i < |p| - 1 ensures Edge(g', p[i], p[i+1]) { assert Edge(g, p[i], p[i+1]); }
  }

  lemma {:induction false} NewWalkWasThere(g: Nodes, g': Nodes, p: seq<Name>)
    requires Closed(g) && Structured(g) && AddsSourceChoices(g, g') && Walk(g', p) && |p| > 1
    ensures Reaches(g, p[0], p[|p|-1])
  {
    var a, b := p[|p|-2], p[|p|-1];
    assert Edge(g', a, b);
    assert Reaches(g, a, b) by {
      if a in g[b].deps {
        EdgeReaches(g, a, b);
      } else {
        var c :| LinkedTo(g, g', b, c);
        SourceChoiceIsAncestor(g, b, c);
      }
    }
    if |p| > 2 {
      var q := p[..|p|-1];
      assert Walk(g', q) by {
        forall i | 0 <= i < |q| - 1 ensures Edge(g', q[i], q[i+1]) { assert Edge(g', p[i], p[i+1]); }
      }
      NewWalkWasThere(g, g', q);
      ReachesTransitive(g, p[0], a, b);
    }
  }

  /** The ancestor relation, and with it acyclicity, is the same before and after. */
  lemma SourceChoicesKeepAncestors(g: Nodes, g': Nodes)
    requires Closed(g) && Structured(g) && AddsSourceChoices(g, g')
    ensures forall a, b :: Reaches(g', a, b) <==> Reaches(g, a, b)
    ensures Acyclic(g') <==> Acyclic(g)
    ensures Closed(g')
  {
    forall a, b ensures Reaches(g', a, b) <==> Reaches(g, a, b) {
      if Reaches(g, a, b) {
        var p :| WalkBetween(g, p, a, b) && |p| > 1;
        OldEdgeStays(g, g', p);
        assert WalkBetween(g', p, a, b);
      }
      if Reaches(g', a, b) {
        var p :| WalkBetween(g', p, a, b) && |p| > 1;
        NewWalkWasThere(g, g', p);
      }
    }
    forall n, d | n in g' && d in g'[n].deps ensures d in g' {
      if d !in g[n].deps {
        var c :| LinkedTo(g, g', n, c);
        SourceChoiceIsAncestor(g, n, c);
      }
    }
  }
}

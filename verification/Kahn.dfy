/** What counting unmet dependencies down to zero establishes, for levels and for the flat order. */
module Kahn {
  import opened Names
  import opened Graph
  import opened CycleSearch

  /** Dependency entries, duplicates included, that name a node outside `done`. */
  function Unmet(deps: seq<Name>, done: set<Name>): nat {
    if deps == [] then 0
    else (if deps[0] in done then 0 else 1) + Unmet(deps[1..], done)
  }

  lemma {:induction false} UnmetZero(deps: seq<Name>, done: set<Name>)
    ensures Unmet(deps, done) == 0 <==> forall d :: d in deps ==> d in done
  {
    if deps != [] {
      UnmetZero(deps[1..], done);
      assert forall d :: d in deps <==> d == deps[0] || d in deps[1..];
    }
  }

  lemma {:induction false} UnmetDrops(deps: seq<Name>, done: set<Name>, x: Name)
    requires x !in done
    ensures Unmet(deps, done + {x}) == Unmet(deps, done) - multiset(deps)[x]
  {
    if deps != [] {
      UnmetDrops(deps[1..], done, x);
      assert deps == [deps[0]] + deps[1..];
    }
  }

  function At(m: map<Name, seq<Name>>, n: Name): seq<Name> { if n in m then m[n] else [] }

  /** `dependents` inverts the edges out of `nodes`, one entry per dependency entry. */
  ghost predicate Inverts(g: Nodes, nodes: set<Name>, dependents: map<Name, seq<Name>>) {
    forall x, m :: multiset(At(dependents, x))[m] == if m in nodes && m in g then multiset(g[m].deps)[x] else 0
  }

  /** The counters and the ready queue once the nodes of `done` have been taken. */
  ghost predicate Counted(g: Nodes, done: set<Name>, queue: seq<Name>, inDegree: map<Name, int>) {
    && done <= g.Keys && inDegree.Keys == g.Keys
    && (forall m :: m in g ==> inDegree[m] == Unmet(g[m].deps, done))
    && (forall m :: m in g ==> (inDegree[m] == 0 <==> m in queue || m in done))
    && (forall m :: m in queue ==> m in g && m !in done)
    && (forall i, j :: 0 <= i < j < |queue| ==> queue[i] != queue[j])
  }

  /** Midway through releasing the dependents of `x`: the entries of `released` are counted down. */
  ghost predicate Releasing(g: Nodes, done: set<Name>, x: Name, released: seq<Name>,
                            queue: seq<Name>, inDegree: map<Name, int>)
  {
    && x in g && x !in done && done <= g.Keys && inDegree.Keys == g.Keys
    && (forall m :: m in g ==> inDegree[m] == Unmet(g[m].deps, done) - multiset(released)[m])
    && (forall m :: m in g ==> (inDegree[m] == 0 <==> m in queue || m in done || m == x))
    && (forall m :: m in queue ==> m in g && m !in done && m != x)
    && (forall i, j :: 0 <= i < j < |queue| ==> queue[i] != queue[j])
  }

  lemma ReleaseBegins(g: Nodes, done: set<Name>, x: Name, queue: seq<Name>, k: nat, inDegree: map<Name, int>)
    requires Counted(g, done, queue, inDegree) && k < |queue| && queue[k] == x
    ensures Releasing(g, done, x, [], queue[..k] + queue[k+1..], inDegree)
  {
    var rest := queue[..k] + queue[k+1..];
    forall m | m in queue ensures m == x || m in rest {
      var i :| 0 <= i < |queue| && queue[i] == m;
      if i < k { assert rest[i] == m; } else if i > k { assert rest[i-1] == m; }
    }
    assert forall m :: m in rest ==> m in queue && m != x;
  }

  lemma ReleaseEnds(g: Nodes, done: set<Name>, x: Name, dependents: map<Name, seq<Name>>,
                    queue: seq<Name>, inDegree: map<Name, int>)
    requires Inverts(g, g.Keys, dependents)
    requires Releasing(g, done, x, At(dependents, x), queue, inDegree)
    ensures Counted(g, done + {x}, queue, inDegree)
  {
    forall m | m in g ensures inDegree[m] == Unmet(g[m].deps, done + {x}) {
      UnmetDrops(g[m].deps, done, x);
    }
  }

  lemma InvertsNothing(g: Nodes)
    ensures Inverts(g, g.Keys - g.Keys, map[])
  {
  }

  lemma AddsNothing(before: map<Name, seq<Name>>, name: Name)
    ensures AddsEdges(before, before, name, [])
  {
  }

  /** `after` is `before` with one entry for `name` per element of `deps`. */
  ghost predicate AddsEdges(before: map<Name, seq<Name>>, after: map<Name, seq<Name>>, name: Name, deps: seq<Name>) {
    forall x, m :: multiset(At(after, x))[m] == multiset(At(before, x))[m] + if m == name then multiset(deps)[x] else 0
  }

  lemma AddOneEdge(before: map<Name, seq<Name>>, after: map<Name, seq<Name>>, name: Name, deps: seq<Name>, j: nat)
    requires j < |deps| && AddsEdges(before, after, name, deps[..j])
    ensures AddsEdges(before, after[deps[j] := At(after, deps[j]) + [name]], name, deps[..j+1])
  {
    assert deps[..j+1] == deps[..j] + [deps[j]];
  }

  lemma InvertsOneMore(g: Nodes, nodes: set<Name>, name: Name, before: map<Name, seq<Name>>, after: map<Name,
                       seq<Name>>)
    requires Inverts(g, nodes, before) && name in g && name !in nodes
    requires AddsEdges(before, after, name, g[name].deps)
    ensures Inverts(g, nodes + {name}, after)
  {
  }

  lemma {:induction false} UnmetOfNothing(deps: seq<Name>)
    ensures Unmet(deps, {}) == |deps|
  {
    if deps != [] { UnmetOfNothing(deps[1..]); }
  }

  lemma OneMoreEntry(ds: seq<Name>, j: nat)
    requires j < |ds|
    ensures multiset(ds)[ds[j]] > multiset(ds[..j])[ds[j]]
  {
    assert ds == ds[..j] + [ds[j]] + ds[j+1..];
  }

  lemma InvertedEntry(g: Nodes, dependents: map<Name, seq<Name>>, x: Name, m: Name)
    requires Inverts(g, g.Keys, dependents) && multiset(At(dependents, x))[m] > 0
    ensures m in g && x in g[m].deps && multiset(At(dependents, x))[m] == multiset(g[m].deps)[x]
  {
  }

  lemma StillCounting(g: Nodes, done: set<Name>, x: Name, released: seq<Name>, queue: seq<Name>, inDegree: map<Name,
                      int>, m: Name)
    requires Releasing(g, done, x, released, queue, inDegree) && m in g
    requires multiset(g[m].deps)[x] > multiset(released)[m]
    ensures Edge(g, x, m) && m in inDegree && inDegree[m] > 0 && m !in queue && m !in done && m != x
  {
    UnmetDrops(g[m].deps, done, x);
  }

  /** The next entry of the list being released still counts: its node is not ready yet. */
  lemma StillBlocked(g: Nodes, done: set<Name>, x: Name, dependents: map<Name, seq<Name>>, j: nat,
                     queue: seq<Name>, inDegree: map<Name, int>)
    requires Inverts(g, g.Keys, dependents) && j < |At(dependents, x)|
    requires Releasing(g, done, x, At(dependents, x)[..j], queue, inDegree)
    ensures var m := At(dependents, x)[j];
            m in g && Edge(g, x, m) && m in inDegree && inDegree[m] > 0 && m !in queue && m !in done && m != x
  {
    hide *;
    var ds := At(dependents, x);
    OneMoreEntry(ds, j);
    InvertedEntry(g, dependents, x, ds[j]);
    StillCounting(g, done, x, ds[..j], queue, inDegree, ds[j]);
  }

  lemma ReleaseOne(g: Nodes, done: set<Name>, x: Name, ds: seq<Name>, j: nat,
                   queue: seq<Name>, inDegree: map<Name, int>)
    requires j < |ds| && Releasing(g, done, x, ds[..j], queue, inDegree)
    requires var m := ds[j]; m in g && m in inDegree && inDegree[m] > 0 && m !in queue && m !in done && m != x
    ensures var m := ds[j]; var left := inDegree[m] - 1;
            Releasing(g, done, x, ds[..j+1], if left == 0 then queue + [m] else queue, inDegree[m := left])
  {
    assert ds[..j+1] == ds[..j] + [ds[j]];
  }

  /** Before anything is taken the ready queue holds exactly the roots. */
  lemma CountBegins(g: Nodes, queue: seq<Name>, inDegree: map<Name, int>)
    requires inDegree.Keys == g.Keys && Distinct(queue)
    requires forall m :: m in g ==> inDegree[m] == |g[m].deps|
    requires forall m :: m in queue <==> m in g && g[m].deps == []
    ensures Counted(g, {}, queue, inDegree)
  {
    forall m | m in g ensures inDegree[m] == Unmet(g[m].deps, {}) {
      UnmetOfNothing(g[m].deps);
    }
  }

  // ---- Termination of the count on acyclic graphs ----

  lemma {:induction false} RepeatsWithin(p: seq<Name>, xs: set<Name>)
    requires |p| > |xs| && forall x :: x in p ==> x in xs
    ensures exists i, j :: 0 <= i < j < |p| && p[i] == p[j]
    decreases |p|
  {
    var last := p[|p|-1];
    var q := p[..|p|-1];
    if last in q {
      var i :| 0 <= i < |q| && q[i] == last;
      assert p[i] == p[|p|-1];
    } else {
      RepeatsWithin(q, xs - {last});
      var i, j :| 0 <= i < j < |q| && q[i] == q[j];
      assert p[i] == p[j];
    }
  }

  predicate DependsInto(g: Nodes, n: Name, xs: set<Name>)
    requires n in g
  {
    exists d :: d in g[n].deps && d in xs
  }

  lemma {:induction false} WalkDown(g: Nodes, xs: set<Name>, k: nat) returns (p: seq<Name>)
    requires xs != {} && xs <= g.Keys
    requires forall n :: n in xs ==> DependsInto(g, n, xs)
    ensures DependencyWalk(g, p) && |p| == k + 1 && forall x :: x in p ==> x in xs
  {
    if k == 0 {
      var n :| n in xs;
      p := [n];
    } else {
      var q := WalkDown(g, xs, k - 1);
      assert DependsInto(g, q[|q|-1], xs);
      var d :| d in g[q[|q|-1]].deps && d in xs;
      p := q + [d];
      forall i | 0 <= i < |p| - 1 ensures Edge(g, p[i+1], p[i]) {
        if i < |q| - 1 { assert Edge(g, q[i+1], q[i]); }
      }
    }
  }

  lemma RepeatIsCycle(g: Nodes, p: seq<Name>, i: nat, j: nat)
    requires DependencyWalk(g, p) && i < j < |p| && p[i] == p[j]
    ensures !Acyclic(g)
  {
    var c := p[..j+1];
    assert c[..j][i] == c[j];
    assert forall k :: 0 <= k < |c| - 1 ==> Edge(g, p[k+1], p[k]);
    hide Edge, Acyclic;
    ClosingWalkIsCycle(g, c);
  }

  /** In an acyclic graph some node of any nonempty set depends on nothing in the set. */
  lemma AcyclicHasSource(g: Nodes, xs: set<Name>)
    requires Acyclic(g) && xs != {} && xs <= g.Keys
    ensures exists n :: n in xs && !DependsInto(g, n, xs)
  {
    hide *;
    if forall n :: n in xs ==> DependsInto(g, n, xs) {
      var p := WalkDown(g, xs, |xs|);
      RepeatsWithin(p, xs);
      var i, j :| 0 <= i < j < |p| && p[i] == p[j];
      RepeatIsCycle(g, p, i, j);
    }
  }

  lemma CountReachesAll(g: Nodes, done: set<Name>, inDegree: map<Name, int>)
    requires Closed(g) && Acyclic(g) && Counted(g, done, [], inDegree)
    ensures done == g.Keys
  {
    hide Acyclic, Unmet, DependsInto;
    var rest := g.Keys - done;
    if rest != {} {
      AcyclicHasSource(g, rest);
      var n :| n in rest && !DependsInto(g, n, rest);
      assert inDegree[n] != 0;
      UnmetOutside(g, n, done);
    }
    assert forall x :: x in g.Keys ==> x in done || x in rest;
  }

  lemma UnmetOutside(g: Nodes, n: Name, done: set<Name>)
    requires n in g && Unmet(g[n].deps, done) != 0 && AllIn(g[n].deps, g.Keys)
    ensures DependsInto(g, n, g.Keys - done)
  {
    UnmetZero(g[n].deps, done);
    var d :| d in g[n].deps && d !in done;
    assert d in g.Keys - done;
  }

  // ---- Levels ----

  /** Levels known so far: each is one more than the highest level among the counted dependencies. */
  ghost predicate Leveled(g: Nodes, done: set<Name>, queue: seq<Name>, level: map<Name, nat>) {
    && level.Keys <= g.Keys
    && (forall m :: m in done || m in queue ==> m in level)
    && (forall m, d :: m in g && d in g[m].deps && d in done ==> m in level && d in level && level[d] < level[m])
    && (forall m {:trigger JustAbove(g, level, m, done)} :: m in level && level[m] > 0 ==> JustAbove(g, level, m, done))
  }

  /** Midway through the dependents of `x`: the released ones already sit above `x`. */
  ghost predicate Raising(g: Nodes, done: set<Name>, x: Name, released: seq<Name>, queue: seq<Name>, level: map<Name,
                          nat>) {
    && level.Keys <= g.Keys && x in level
    && (forall m :: m in done || m in queue ==> m in level)
    && (forall m, d :: m in g && d in g[m].deps && d in done ==> m in level && d in level && level[d] < level[m])
    && (forall m :: m in released ==> m in level && level[x] < level[m])
    && (forall m {:trigger JustAbove(g, level, m, done + {x})} ::
          m in level && level[m] > 0 ==> JustAbove(g, level, m, done + {x}))
  }

  lemma RaiseBegins(g: Nodes, done: set<Name>, x: Name, queue: seq<Name>, level: map<Name, nat>)
    requires queue != [] && queue[0] == x && Leveled(g, done, queue, level)
    ensures Raising(g, done, x, [], queue[1..], level)
  {
    hide JustAbove;
    forall m | m in level && level[m] > 0 ensures JustAbove(g, level, m, done + {x}) {
      JustAboveWithin(g, level, m, done, done + {x});
    }
  }

  lemma JustAboveWithin(g: Nodes, level: map<Name, nat>, n: Name, a: set<Name>, b: set<Name>)
    requires n in g && n in level && a <= b && JustAbove(g, level, n, a)
    ensures JustAbove(g, level, n, b)
  {
  }

  /** The loop body's update: a dependent rises to one above `x` unless it is higher already. */
  function Raise(level: map<Name, nat>, x: Name, m: Name): map<Name, nat>
    requires x in level
  {
    if m in level && level[m] >= level[x] + 1 then level else level[m := level[x] + 1]
  }

  lemma RaiseOne(g: Nodes, done: set<Name>, x: Name, released: seq<Name>, m: Name, queue: seq<Name>, level: map<Name,
                 nat>)
    requires Raising(g, done, x, released, queue, level)
    requires Edge(g, x, m) && m !in done && m != x
    ensures Raising(g, done, x, released + [m], queue, Raise(level, x, m))
  {
    var level' := Raise(level, x, m);
    forall k | k in level' && level'[k] > 0 ensures JustAbove(g, level', k, done + {x}) {
      if k == m && level' != level {
        assert level'[x] + 1 == level'[k];
      } else {
        assert JustAbove(g, level, k, done + {x});
        SupportUnraised(g, level, level', k, m, done + {x});
      }
    }
  }

  lemma SupportUnraised(g: Nodes, level: map<Name, nat>, level': map<Name, nat>, n: Name, m: Name, within: set<Name>)
    requires n in g && n in level && n in level' && level'[n] == level[n] && m !in within
    requires forall d :: d in level && d != m ==> d in level' && level'[d] == level[d]
    requires JustAbove(g, level, n, within)
    ensures JustAbove(g, level', n, within)
  {
  }

  lemma RaiseEnds(g: Nodes, done: set<Name>, x: Name, dependents: map<Name, seq<Name>>, queue: seq<Name>,
                  level: map<Name, nat>)
    requires Inverts(g, g.Keys, dependents)
    requires Raising(g, done, x, At(dependents, x), queue, level)
    ensures Leveled(g, done + {x}, queue, level)
  {
    hide JustAbove;
    var ds := At(dependents, x);
    forall m | m in g && x in g[m].deps ensures m in ds {
      assert multiset(ds)[m] == multiset(g[m].deps)[x] > 0;
    }
  }

  /** A node with no counter left joins the queue at the level it has reached. */
  lemma QueueOne(g: Nodes, done: set<Name>, x: Name, released: seq<Name>, m: Name, queue: seq<Name>,
                 level: map<Name, nat>, top: nat)
    requires Raising(g, done, x, released, queue, level) && m in level
    requires HighestIs(done + {x} + Elements(queue), level, top)
    ensures Raising(g, done, x, released, queue + [m], level)
    ensures HighestIs(done + {x} + Elements(queue + [m]), level, if level[m] > top then level[m] else top)
  {
    var ns := done + {x} + Elements(queue);
    assert done + {x} + Elements(queue + [m]) == ns + {m};
    hide Raising, Elements;
    if level[m] <= top && top > 0 {
      var k :| k in ns && k in level && level[k] == top;
      assert k in ns + {m};
    }
  }

  /** Raising a blocked node leaves the levels of counted and queued nodes, and so the highest, as they were. */
  lemma RaiseKeeps(g: Nodes, done: set<Name>, x: Name, released: seq<Name>, m: Name, queue: seq<Name>,
                   level: map<Name, nat>, top: nat)
    requires Raising(g, done, x, released, queue, level) && m !in done && m != x && m !in queue
    requires HighestIs(done + {x} + Elements(queue), level, top)
    ensures x in level && HighestIs(done + {x} + Elements(queue), Raise(level, x, m), top)
  {
  }

  lemma FrontElements(queue: seq<Name>)
    requires queue != []
    ensures Elements(queue) == {queue[0]} + Elements(queue[1..])
  {
    assert queue == [queue[0]] + queue[1..];
  }

  /** Taking the front node off the queue starts a release and a raise. */
  lemma StepFromFront(g: Nodes, done: set<Name>, queue: seq<Name>, inDegree: map<Name, int>, level: map<Name, nat>,
                      top: nat)
    requires queue != [] && Counted(g, done, queue, inDegree) && Leveled(g, done, queue, level)
    requires HighestIs(done + Elements(queue), level, top)
    ensures Releasing(g, done, queue[0], [], queue[1..], inDegree)
    ensures Raising(g, done, queue[0], [], queue[1..], level)
    ensures HighestIs(done + {queue[0]} + Elements(queue[1..]), level, top)
  {
    hide Counted, Leveled, Releasing, Raising, HighestIs;
    ReleaseBegins(g, done, queue[0], queue, 0, inDegree);
    assert queue[..0] + queue[0+1..] == queue[1..];
    RaiseBegins(g, done, queue[0], queue, level);
    FrontElements(queue);
    assert done + {queue[0]} + Elements(queue[1..]) == done + Elements(queue);
  }

  lemma TakingShrinks(g: Nodes, done: set<Name>, queue: seq<Name>, inDegree: map<Name, int>, n: Name)
    requires Counted(g, done, queue, inDegree) && n in queue
    ensures |g.Keys - (done + {n})| < |g.Keys - done|
  {
    FewerUnvisited(g.Keys, done, done + {n}, n);
  }

  ghost predicate Distinct(s: seq<Name>) {
    forall i, j :: 0 <= i < j < |s| ==> s[i] != s[j]
  }

  lemma AppendDistinct(s: seq<Name>, n: Name)
    requires Distinct(s) && n !in s
    ensures Distinct(s + [n])
  {
  }

  ghost predicate HighestIs(ns: set<Name>, level: map<Name, nat>, top: nat) {
    && (forall m :: m in ns ==> m in level && level[m] <= top)
    && (top == 0 || exists m :: m in ns && m in level && level[m] == top)
  }

  lemma {:induction false} NoGap(g: Nodes, level: map<Name, nat>, n: Name, i: nat)
    requires IsLeveling(g, level) && n in g && i <= level[n]
    ensures exists m :: m in g && level[m] == i
    decreases level[n]
  {
    if i < level[n] {
      assert JustAbove(g, level, n, g.Keys);
      var d :| d in g[n].deps && level[d] + 1 == level[n];
      NoGap(g, level, d, i);
    }
  }

  lemma NoEmptyLevel(g: Nodes, level: map<Name, nat>, top: nat, i: nat)
    requires g != map[] && IsLeveling(g, level) && HighestIs(g.Keys, level, top) && i <= top
    ensures exists m :: m in g && level[m] == i
  {
    if top == 0 {
      var n :| n in g;
      assert level[n] == 0;
    } else {
      var n :| n in g.Keys && level[n] == top;
      NoGap(g, level, n, i);
    }
  }

  lemma LevelBegins(g: Nodes, queue: seq<Name>)
    requires forall m :: m in queue ==> m in g
    ensures Leveled(g, {}, queue, map n | n in queue :: 0)
    ensures HighestIs({} + Elements(queue), map n | n in queue :: 0, 0)
  {
  }

  lemma LeveledAllIsLeveling(g: Nodes, level: map<Name, nat>)
    requires Closed(g) && Leveled(g, g.Keys, [], level)
    ensures IsLeveling(g, level)
  {
  }

  /** Group `i` holds exactly the nodes of level `i` outside `todo`. */
  ghost predicate GroupsByLevel(level: map<Name, nat>, todo: set<Name>, levels: seq<seq<Name>>) {
    forall i, n :: 0 <= i < |levels| ==> (n in levels[i] <==> n in level && n !in todo && level[n] == i)
  }

  /** The level lists the executor runs: level `i` holds the nodes at depth `i`, in name order. */
  ghost predicate IsLevels(g: Nodes, level: map<Name, nat>, levels: seq<seq<Name>>) {
    && IsLeveling(g, level)
    && (forall i :: 0 <= i < |levels| ==> levels[i] != [] && Sorted(levels[i]))
    && (forall i, n :: 0 <= i < |levels| ==> (n in levels[i] <==> n in g && level[n] == i))
    && (forall n :: n in g ==> level[n] < |levels|)
  }

  lemma EmptyLevels()
    ensures IsLevels(map[], map[], [])
  {
  }

  // ---- The flat order ----

  /** A dependency-respecting permutation of the nodes. */
  ghost predicate IsTopological(g: Nodes, order: seq<Name>) {
    && (forall n :: n in g <==> n in order)
    && Distinct(order)
    && Ordered(g, order)
  }

  ghost predicate LeastAt(queue: seq<Name>, k: nat) {
    k < |queue| && forall i :: 0 <= i < |queue| ==> i == k || Less(queue[k], queue[i])
  }

  ghost predicate LexicallyBefore(p: seq<Name>, q: seq<Name>) {
    exists i :: 0 <= i < |p| && i < |q| && p[..i] == q[..i] && Less(p[i], q[i])
  }

  /** Each position holds the least name among the nodes whose dependencies are all placed. */
  ghost predicate Greedy(g: Nodes, order: seq<Name>) {
    forall i, m ::
      (0 <= i < |order| && m in g && m !in order[..i] && m != order[i] && AllIn(g[m].deps, Elements(order[..i])))
      ==> Less(order[i], m)
  }

  /** Every placed node has its dependencies placed before it. */
  ghost predicate Ordered(g: Nodes, order: seq<Name>) {
    forall i, d :: 0 <= i < |order| && order[i] in g && d in g[order[i]].deps ==> d in order[..i]
  }

  lemma EmptyOrder(g: Nodes)
    ensures Distinct([]) && Ordered(g, []) && Greedy(g, []) && Elements([]) == {}
  {
  }

  lemma QueueIsDistinct(g: Nodes, done: set<Name>, queue: seq<Name>, inDegree: map<Name, int>)
    requires Counted(g, done, queue, inDegree)
    ensures Distinct(queue)
  {
  }

  lemma SortDistinct(s: seq<Name>)
    requires Distinct(s)
    ensures Sorted(SortNames(s))
  {
    SortNamesSorts(s);
  }

  lemma LevelKeys(g: Nodes, level: map<Name, nat>)
    requires IsLeveling(g, level)
    ensures level.Keys == g.Keys
  {
  }

  lemma AllPlaced(g: Nodes, order: seq<Name>)
    requires Elements(order) == g.Keys && Distinct(order) && Ordered(g, order)
    ensures IsTopological(g, order)
  {
    assert forall n :: n in g.Keys <==> n in Elements(order);
  }

  lemma AppendElement(s: seq<Name>, n: Name)
    ensures Elements(s + [n]) == Elements(s) + {n}
  {
  }

  lemma AppendOrdered(g: Nodes, sorted: seq<Name>, node: Name)
    requires node in g && node !in sorted && Distinct(sorted) && Ordered(g, sorted)
    requires AllIn(g[node].deps, Elements(sorted))
    ensures Distinct(sorted + [node]) && Ordered(g, sorted + [node])
  {
    var order := sorted + [node];
    forall i, d | 0 <= i < |order| && order[i] in g && d in g[order[i]].deps ensures d in order[..i] {
      if i < |sorted| {
        assert order[..i] == sorted[..i];
      } else {
        assert order[..i] == sorted;
        assert d in Elements(sorted);
      }
    }
  }

  lemma AppendGreedy(g: Nodes, sorted: seq<Name>, node: Name)
    requires Greedy(g, sorted)
    requires forall m :: m in g && m !in sorted && m != node && AllIn(g[m].deps, Elements(sorted)) ==> Less(node, m)
    ensures Greedy(g, sorted + [node])
  {
    var order := sorted + [node];
    forall i, m | 0 <= i < |order| && m in g && m !in order[..i] && m != order[i]
        && AllIn(g[m].deps, Elements(order[..i]))
      ensures Less(order[i], m)
    {
      assert order[..i] == if i < |sorted| then sorted[..i] else sorted;
    }
  }

  /** The queue holds exactly the nodes that are ready and not taken yet. */
  lemma QueueIsReady(g: Nodes, done: set<Name>, queue: seq<Name>, inDegree: map<Name, int>, m: Name)
    requires Counted(g, done, queue, inDegree) && m in g && m !in done
    ensures m in queue <==> AllIn(g[m].deps, done)
  {
    UnmetZero(g[m].deps, done);
  }

  /** Placing the least ready node keeps the order greedy and dependency-respecting. */
  lemma TakeLeast(g: Nodes, sorted: seq<Name>, queue: seq<Name>, inDegree: map<Name, int>, k: nat)
    requires Counted(g, Elements(sorted), queue, inDegree) && Distinct(sorted)
    requires Ordered(g, sorted) && Greedy(g, sorted)
    requires LeastAt(queue, k)
    ensures Distinct(sorted + [queue[k]]) && Ordered(g, sorted + [queue[k]]) && Greedy(g, sorted + [queue[k]])
  {
    var node := queue[k];
    assert node in g && node !in Elements(sorted);
    hide Greedy, Ordered, Distinct, Counted, AllIn;
    QueueIsReady(g, Elements(sorted), queue, inDegree, node);
    AppendOrdered(g, sorted, node);
    forall m | m in g && m !in sorted && m != node && AllIn(g[m].deps, Elements(sorted)) ensures Less(node, m) {
      QueueIsReady(g, Elements(sorted), queue, inDegree, m);
    }
    AppendGreedy(g, sorted, node);
  }

  lemma GreedyIsLeast(g: Nodes, order: seq<Name>, other: seq<Name>)
    requires IsTopological(g, order) && Greedy(g, order) && IsTopological(g, other)
    ensures other == order || LexicallyBefore(order, other)
  {
    if other != order {
      SameSize(g, order, other);
      var i := FirstDifference(order, other);
      var m := other[i];
      assert m in other;
      assert m !in other[..i] && order[..i] == other[..i];
      assert AllIn(g[m].deps, Elements(order[..i]));
      assert Less(order[i], other[i]);
    }
  }

  lemma SameSize(g: Nodes, p: seq<Name>, q: seq<Name>)
    requires IsTopological(g, p) && IsTopological(g, q)
    ensures |p| == |q|
  {
    DistinctSize(p);
    DistinctSize(q);
    assert Elements(p) == g.Keys == Elements(q);
  }

  lemma {:induction false} DistinctSize(p: seq<Name>)
    requires forall i, j :: 0 <= i < j < |p| ==> p[i] != p[j]
    ensures |Elements(p)| == |p|
  {
    if p != [] {
      DistinctSize(p[1..]);
      assert Elements(p) == {p[0]} + Elements(p[1..]);
    }
  }

  lemma {:induction false} FirstDifference(p: seq<Name>, q: seq<Name>) returns (i: nat)
    requires |p| == |q| && p != q
    ensures i < |p| && p[..i] == q[..i] && p[i] != q[i]
  {
    if p[0] != q[0] {
      i := 0;
    } else {
      assert p == [p[0]] + p[1..] && q == [q[0]] + q[1..];
      var k := FirstDifference(p[1..], q[1..]);
      i := k + 1;
      assert p[..i] == [p[0]] + p[1..][..k] && q[..i] == [q[0]] + q[1..][..k];
    }
  }
}

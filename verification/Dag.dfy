/** The graph object the builder hands to the engine. */
module Dag {
  import opened Names
  import opened Wrappers
  import opened Graph
  import opened CycleSearch
  import opened Kahn

  class DAG {
    const nodes: Nodes
    var cycleNodes: seq<Name>

    constructor (g: Nodes)
      ensures nodes == g && cycleNodes == []
    {
      nodes := g;
      cycleNodes := [];
    }

    /** Visits `n` and everything it depends on; reports whether an open node was met again. */
    method DetectCycle(n: Name, visited: set<Name>, inProgress: set<Name>, ghost stack: seq<Name>,
                       ghost done: seq<Name>)
      returns (found: bool, visited': set<Name>, inProgress': set<Name>, ghost done': seq<Name>)
      requires Closed(nodes) && n in nodes && n !in visited
      requires Frontier(nodes, visited, inProgress, stack, done)
      requires stack != [] ==> Edge(nodes, n, stack[|stack|-1])
      requires cycleNodes == []
      modifies this`cycleNodes
      ensures found ==> CycleReport(nodes, stack, n, cycleNodes)
      ensures !found ==> cycleNodes == [] && inProgress' == inProgress && n in visited' && visited <= visited'
      ensures !found ==> Frontier(nodes, visited', inProgress, stack, done')
      decreases |nodes.Keys - visited|
    {
      hide *;
      visited' := visited + {n};
      inProgress' := inProgress + {n};
      done' := done;
      OpenIsVisited(nodes, visited, inProgress, stack, done);
      OpenNode(nodes, visited, inProgress, stack, n, done);
      var deps := nodes[n].deps;
      NothingIn(visited' - inProgress');
      for i := 0 to |deps|
        invariant cycleNodes == []
        invariant Frontier(nodes, visited', inProgress', stack + [n], done')
        invariant inProgress' == inProgress + {n}
        invariant visited + {n} <= visited' && inProgress' <= visited'
        invariant AllIn(deps[..i], visited' - inProgress')
      {
        var dep := deps[i];
        DependencyEdge(nodes, n, i);
        ghost var closed := visited' - inProgress';
        if dep !in visited' {
          FewerUnvisited(nodes.Keys, visited, visited', n);
          found, visited', inProgress', done' := DetectCycle(dep, visited', inProgress', stack + [n], done');
          if found {
            ExtendReport(nodes, stack, n, dep, cycleNodes);
            cycleNodes := [n] + cycleNodes;
            return;
          }
        } else if dep in inProgress' {
          FirstReport(nodes, visited', inProgress', stack, done', n, dep);
          cycleNodes := [n, dep] + cycleNodes;
          assert cycleNodes == [n, dep];
          found := true;
          return;
        }
        AllInPrefix(deps, i, closed, visited' - inProgress');
      }
      assert deps[..|deps|] == deps;
      CloseNode(nodes, visited, done, inProgress, stack, n, visited', done');
      inProgress' := inProgress' - {n};
      found := false;
      done' := done' + [n];
    }

    /** An error is reported exactly when the graph has a cycle, and it names one. */
    method Validate() returns (ok: bool)
      requires Closed(nodes)
      modifies this`cycleNodes
      ensures ok <==> Acyclic(nodes)
      ensures !ok ==> ClosesOnItself(nodes, cycleNodes)
    {
      if nodes == map[] {
        return true;
      }
      var visited, inProgress: set<Name> := {}, {};
      ghost var done: seq<Name> := [];
      cycleNodes := [];
      var todo := nodes.Keys;
      while todo != {}
        invariant nodes.Keys - todo <= visited
        invariant inProgress == {}
        invariant cycleNodes == []
        invariant Frontier(nodes, visited, {}, [], done)
        invariant todo <= nodes.Keys
        decreases todo
      {
        var name :| name in todo;
        todo := todo - {name};
        if name !in visited {
          var found;
          found, visited, inProgress, done := DetectCycle(name, visited, inProgress, [], done);
          if found {
            assert [] + cycleNodes[..|cycleNodes|-1] == cycleNodes[..|cycleNodes|-1];
            ClosingWalkIsCycle(nodes, cycleNodes);
            return false;
          }
        }
      }
      assert visited == nodes.Keys;
      FinishOrderIsAcyclic(nodes, done);
      return true;
    }

    /** The reverse adjacency list, the dependency counters and the nodes that are ready at once. */
    method ReverseEdges() returns (dependents: map<Name, seq<Name>>, inDegree: map<Name, int>, queue: seq<Name>)
      requires Closed(nodes)
      ensures Inverts(nodes, nodes.Keys, dependents)
      ensures Counted(nodes, {}, queue, inDegree)
      ensures forall m :: m in queue <==> m in nodes && nodes[m].deps == []
    {
      hide Inverts, AddsEdges, Counted;
      dependents, inDegree, queue := map[], map[], [];
      var todo := nodes.Keys;
      InvertsNothing(nodes);
      while todo != {}
        invariant todo <= nodes.Keys && inDegree.Keys == nodes.Keys - todo
        invariant Inverts(nodes, nodes.Keys - todo, dependents)
        invariant forall m :: m in inDegree ==> inDegree[m] == |nodes[m].deps|
        invariant forall m :: m in queue <==> m in inDegree && nodes[m].deps == []
        invariant Distinct(queue)
        decreases todo
      {
        var name :| name in todo;
        var deps := nodes[name].deps;
        if deps == [] {
          AppendDistinct(queue, name);
          queue := queue + [name];
        }
        inDegree := inDegree[name := |deps|];
        ghost var before := dependents;
        AddsNothing(before, name);
        for j := 0 to |deps|
          invariant AddsEdges(before, dependents, name, deps[..j])
        {
          AddOneEdge(before, dependents, name, deps, j);
          dependents := dependents[deps[j] := At(dependents, deps[j]) + [name]];
        }
        assert deps[..|deps|] == deps;
        InvertsOneMore(nodes, nodes.Keys - todo, name, before, dependents);
        assert nodes.Keys - (todo - {name}) == nodes.Keys - todo + {name};
        todo := todo - {name};
      }
      CountBegins(nodes, queue, inDegree);
    }

    /** Counts `node` off its dependents, lifts each above it, and queues the ones left with none to wait for. */
    method ReleaseDependents(node: Name, dependents: map<Name, seq<Name>>, inDegree0: map<Name, int>,
                             level0: map<Name, nat>, top0: nat, queue0: seq<Name>, ghost done: set<Name>)
      returns (inDegree: map<Name, int>, level: map<Name, nat>, top: nat, queue: seq<Name>)
      requires Inverts(nodes, nodes.Keys, dependents)
      requires Releasing(nodes, done, node, [], queue0, inDegree0)
      requires Raising(nodes, done, node, [], queue0, level0)
      requires HighestIs(done + {node} + Elements(queue0), level0, top0)
      ensures Counted(nodes, done + {node}, queue, inDegree)
      ensures Leveled(nodes, done + {node}, queue, level)
      ensures HighestIs(done + {node} + Elements(queue), level, top)
    {
      hide Releasing, Raising, Inverts, Counted, Leveled, HighestIs;
      inDegree, level, top, queue := inDegree0, level0, top0, queue0;
      var ds := At(dependents, node);
      for j := 0 to |ds|
        invariant Releasing(nodes, done, node, ds[..j], queue, inDegree)
        invariant Raising(nodes, done, node, ds[..j], queue, level)
        invariant HighestIs(done + {node} + Elements(queue), level, top)
      {
        var m := ds[j];
        StillBlocked(nodes, done, node, dependents, j, queue, inDegree);
        ReleaseOne(nodes, done, node, ds, j, queue, inDegree);
        RaiseOne(nodes, done, node, ds[..j], m, queue, level);
        assert ds[..j+1] == ds[..j] + [m];
        RaiseKeeps(nodes, done, node, ds[..j], m, queue, level, top);
        if m !in level || level[node] + 1 > level[m] {
          level := level[m := level[node] + 1];
        }
        var left := inDegree[m] - 1;
        inDegree := inDegree[m := left];
        if left == 0 {
          QueueOne(nodes, done, node, ds[..j+1], m, queue, level, top);
          if level[m] > top {
            top := level[m];
          }
          queue := queue + [m];
        }
      }
      assert ds[..|ds|] == ds;
      ReleaseEnds(nodes, done, node, dependents, queue, inDegree);
      RaiseEnds(nodes, done, node, dependents, queue, level);
    }

    /** Every node appears once, at its longest-path depth, in name order, and no level is empty. */
    method GetLevels() returns (levels: seq<seq<Name>>, ghost level: map<Name, nat>)
      requires Closed(nodes) && Acyclic(nodes)
      ensures IsLevels(nodes, level, levels)
    {
      hide *;
      level := map[];
      if nodes == map[] {
        EmptyLevels();
        return [], level;
      }
      var dependents, inDegree, queue := ReverseEdges();
      var nodeLevels: map<Name, nat> := map n | n in queue :: 0;
      LevelBegins(nodes, queue);
      var maxLevel := 0;
      ghost var done: set<Name> := {};
      while queue != []
        invariant Counted(nodes, done, queue, inDegree)
        invariant Leveled(nodes, done, queue, nodeLevels)
        invariant HighestIs(done + Elements(queue), nodeLevels, maxLevel)
        decreases |nodes.Keys - done|
      {
        var node := queue[0];
        StepFromFront(nodes, done, queue, inDegree, nodeLevels, maxLevel);
        TakingShrinks(nodes, done, queue, inDegree, node);
        queue := queue[1..];
        inDegree, nodeLevels, maxLevel, queue :=
          ReleaseDependents(node, dependents, inDegree, nodeLevels, maxLevel, queue, done);
        done := done + {node};
      }
      CountReachesAll(nodes, done, inDegree);
      LeveledAllIsLeveling(nodes, nodeLevels);
      EmptyOrder(nodes);
      assert done + Elements([]) == nodes.Keys;
      level := nodeLevels;
      levels := CollectLevels(nodeLevels, maxLevel);
    }

    /** Groups the nodes by level and sorts each group by name. */
    method CollectLevels(level: map<Name, nat>, top: nat) returns (levels: seq<seq<Name>>)
      requires nodes != map[] && IsLeveling(nodes, level) && HighestIs(nodes.Keys, level, top)
      ensures IsLevels(nodes, level, levels)
    {
      hide Sorted, IsLeveling, Distinct;
      levels := seq(top + 1, _ => []);
      forall i | 0 <= i < top + 1 ensures Distinct(levels[i]) { EmptyOrder(nodes); }
      LevelKeys(nodes, level);
      var todo := level.Keys;
      while todo != {}
        invariant |levels| == top + 1 && todo <= level.Keys
        invariant GroupsByLevel(level, todo, levels)
        invariant forall i :: 0 <= i < |levels| ==> Distinct(levels[i])
        decreases todo
      {
        var name :| name in todo;
        todo := todo - {name};
        var i := level[name];
        AppendDistinct(levels[i], name);
        levels := levels[i := levels[i] + [name]];
      }
      for i := 0 to |levels|
        invariant |levels| == top + 1
        invariant GroupsByLevel(level, {}, levels)
        invariant forall k :: i <= k < |levels| ==> Distinct(levels[k])
        invariant forall k :: 0 <= k < i ==> Sorted(levels[k]) && levels[k] != []
      {
        SortDistinct(levels[i]);
        NoEmptyLevel(nodes, level, top, i);
        levels := levels[i := SortNames(levels[i])];
      }
    }

    /** The position of the least name in the ready queue. */
    static method LeastIndex(queue: seq<Name>) returns (minIdx: nat)
      requires queue != [] && Distinct(queue)
      ensures minIdx < |queue|
      ensures LeastAt(queue, minIdx)
    {
      minIdx := 0;
      for i := 1 to |queue|
        invariant 0 <= minIdx < i
        invariant forall k :: 0 <= k < i ==> k == minIdx || Less(queue[minIdx], queue[k])
      {
        LessIsTotal(queue[i], queue[minIdx]);
        if Less(queue[i], queue[minIdx]) {
          forall k | 0 <= k < i && k != minIdx ensures Less(queue[i], queue[k]) {
            LessIsTransitive(queue[i], queue[minIdx], queue[k]);
          }
          minIdx := i;
        }
      }
    }

    /** One linear order: the lexicographically least one that respects every dependency. */
    method TopologicalSort() returns (r: Result<seq<Name>, seq<Name>>)
      requires Closed(nodes)
      modifies this`cycleNodes
      ensures r.Ok? <==> Acyclic(nodes)
      ensures r.Err? ==> ClosesOnItself(nodes, r.error)
      ensures r.Ok? ==> IsTopological(nodes, r.value) && Greedy(nodes, r.value)
    {
      hide *;
      var ok := Validate();
      if !ok {
        return Err(cycleNodes);
      }
      EmptyOrder(nodes);
      if nodes == map[] {
        AllPlaced(nodes, []);
        return Ok([]);
      }
      var dependents, inDegree, queue := ReverseEdges();
      var sorted: seq<Name> := [];
      while queue != []
        invariant Counted(nodes, Elements(sorted), queue, inDegree)
        invariant Distinct(sorted)
        invariant Ordered(nodes, sorted) && Greedy(nodes, sorted)
        decreases |nodes.Keys - Elements(sorted)|
      {
        QueueIsDistinct(nodes, Elements(sorted), queue, inDegree);
        var minIdx := LeastIndex(queue);
        var node := queue[minIdx];
        TakeLeast(nodes, sorted, queue, inDegree, minIdx);
        TakingShrinks(nodes, Elements(sorted), queue, inDegree, node);
        ReleaseBegins(nodes, Elements(sorted), node, queue, minIdx, inDegree);
        queue := queue[..minIdx] + queue[minIdx+1..];
        var ds := At(dependents, node);
        for j := 0 to |ds|
          invariant Releasing(nodes, Elements(sorted), node, ds[..j], queue, inDegree)
        {
          StillBlocked(nodes, Elements(sorted), node, dependents, j, queue, inDegree);
          ReleaseOne(nodes, Elements(sorted), node, ds, j, queue, inDegree);
          var m := ds[j];
          inDegree := inDegree[m := inDegree[m] - 1];
          if inDegree[m] == 0 {
            queue := queue + [m];
          }
        }
        assert ds[..|ds|] == ds;
        ReleaseEnds(nodes, Elements(sorted), node, dependents, queue, inDegree);
        AppendElement(sorted, node);
        sorted := sorted + [node];
      }
      CountReachesAll(nodes, Elements(sorted), inDegree);
      AllPlaced(nodes, sorted);
      return Ok(sorted);
    }
  }
}

/** Turning a recorded definition into a validated graph. */
module Builder {
  import opened Names
  import opened Wrappers
  import opened Graph
  import opened CycleSearch
  import opened Kahn
  import opened Boundary
  import opened Reconvergence
  import opened Dag

  datatype NodeDecl = NodeDecl(name: Name, deps: seq<Name>, continueOnError: bool, kind: Kind)

  /** A generated edge: `to` will depend on `from`. */
  datatype GeneratedEdge = GeneratedEdge(from: Name, to: Name)

  /** What the fluent builder recorded. */
  datatype Definition = Definition(
    nodes: seq<NodeDecl>,
    choiceEdges: seq<GeneratedEdge>,
    mergeEdges: seq<GeneratedEdge>,
    boundaries: seq<Declaration>,
    ineligible: set<Name>)

  datatype BuildError =
    | UnknownEndpoint(edge: GeneratedEdge)
    | DuplicateName(name: Name)
    | UnknownDependency(node: Name, dep: Name)
    | CycleDetected(walk: seq<Name>)
    | InvalidReconvergence(shape: Unstructured)
    | BoundaryRefused(refusal: Refusal)

  /** The nodes a choice may route to: its arms, and its fallback when it has one. */
  function Targets(k: Kind): set<Name>
    requires k.Choice?
  {
    (set t | t in k.arms) + (if k.fallback.Some? then {k.fallback.value} else {})
  }

  /** Each routing arm and each merge tail left its edge, as `When`, `Otherwise` and `From` do. */
  ghost predicate Recorded(def: Definition) {
    forall i :: 0 <= i < |def.nodes| ==>
      match def.nodes[i].kind
      case Choice(_, _) => forall t :: t in Targets(def.nodes[i].kind) ==>
        GeneratedEdge(def.nodes[i].name, t) in def.choiceEdges
      case Merge(tails) => forall t :: t in tails ==> GeneratedEdge(t, def.nodes[i].name) in def.mergeEdges
      case _ => true
  }

  ghost predicate Known(def: Definition, n: Name) {
    exists i :: 0 <= i < |def.nodes| && def.nodes[i].name == n
  }

  /** The sources of the edges into `n`, in recorded order. */
  function Into(edges: seq<GeneratedEdge>, n: Name): (r: seq<Name>)
    ensures forall d :: d in r <==> GeneratedEdge(d, n) in edges
  {
    if edges == [] then []
    else
      var front, last := edges[..|edges|-1], edges[|edges|-1];
      assert forall e :: e in edges <==> e in front || e == last;
      if last.to == n then Into(front, n) + [last.from] else Into(front, n)
  }

  /** The sources come in the order in which their edges were recorded, one for each edge. */
  lemma {:induction false} IntoInOrder(edges: seq<GeneratedEdge>, n: Name) returns (at: seq<nat>)
    ensures |at| == |Into(edges, n)|
    ensures forall j :: 0 <= j < |at| ==> at[j] < |edges| && edges[at[j]] == GeneratedEdge(Into(edges, n)[j], n)
    ensures forall j, k :: 0 <= j < k < |at| ==> at[j] < at[k]
    ensures forall i: nat :: i < |edges| && edges[i].to == n ==> i in at
    decreases |edges|
  {
    if edges == [] {
      at := [];
    } else {
      var k := |edges| - 1;
      at := IntoInOrder(edges[..k], n);
      if edges[k].to == n { at := at + [k]; }
    }
  }

  /** A node's declared dependencies followed by its generated ones. */
  function Effective(def: Definition, nb: NodeDecl): seq<Name> {
    nb.deps + Into(def.choiceEdges, nb.name) + Into(def.mergeEdges, nb.name)
  }

  /** Node names are unique, and edges and dependencies name nodes. */
  ghost predicate Resolves(def: Definition) {
    && (forall i, j :: 0 <= i < j < |def.nodes| ==> def.nodes[i].name != def.nodes[j].name)
    && (forall e :: e in def.choiceEdges ==> Known(def, e.to))
    && (forall e :: e in def.mergeEdges ==> Known(def, e.from) && Known(def, e.to))
    && (forall i, d :: 0 <= i < |def.nodes| && d in Effective(def, def.nodes[i]) ==> Known(def, d))
  }

  function NodeFor(def: Definition, nb: NodeDecl): Node {
    Node(Effective(def, nb), nb.continueOnError, nb.kind)
  }

  /** The graph the definition describes, before the source-choice edges. */
  ghost predicate Describes(def: Definition, g: Nodes) {
    && (forall n :: n in g <==> Known(def, n))
    && (forall i :: 0 <= i < |def.nodes| ==>
          def.nodes[i].name in g && g[def.nodes[i].name] == NodeFor(def, def.nodes[i]))
  }

  /** Branch targets depend on their choice and merges on their tails. */
  ghost predicate Wired(g: Nodes) {
    && (forall c, t :: IsChoice(g, c) && t in Targets(g[c].kind) ==> Edge(g, c, t))
    && (forall m, t :: m in g && g[m].kind.Merge? && t in g[m].kind.tails ==> Edge(g, t, m))
  }

  /** What build() certifies of the graph it returns; `base` is the graph before the appended edges. */
  ghost predicate Certified(def: Definition, base: Nodes, g: Nodes) {
    && Resolves(def) && Describes(def, base) && Closed(base) && Acyclic(base) && Structured(base)
    && AddsSourceChoices(base, g)
    && forall d :: d in def.boundaries ==> Holds(g, def.ineligible, d)
  }

  lemma BaseIsWired(def: Definition, g: Nodes)
    requires Recorded(def) && Resolves(def) && Describes(def, g)
    ensures Wired(g)
  {
    forall c, t | IsChoice(g, c) && t in Targets(g[c].kind) ensures Edge(g, c, t) {
      var i :| 0 <= i < |def.nodes| && def.nodes[i].name == c;
      TargetDepends(def, g, i, t);
    }
    forall m, t | m in g && g[m].kind.Merge? && t in g[m].kind.tails ensures Edge(g, t, m) {
      var i :| 0 <= i < |def.nodes| && def.nodes[i].name == m;
      assert GeneratedEdge(t, m) in def.mergeEdges;
      assert t in Into(def.mergeEdges, m) && Known(def, t);
    }
  }

  lemma TargetDepends(def: Definition, g: Nodes, i: nat, t: Name)
    requires Recorded(def) && Resolves(def) && Describes(def, g)
    requires i < |def.nodes| && def.nodes[i].kind.Choice? && t in Targets(def.nodes[i].kind)
    ensures Edge(g, def.nodes[i].name, t)
  {
    var c := def.nodes[i].name;
    assert GeneratedEdge(c, t) in def.choiceEdges;
    assert Known(def, t);
    var j :| 0 <= j < |def.nodes| && def.nodes[j].name == t;
    assert c in Into(def.choiceEdges, t) && c in Effective(def, def.nodes[j]);
    assert g[t] == NodeFor(def, def.nodes[j]);
  }

  lemma WiringStays(base: Nodes, g: Nodes)
    requires Closed(base) && AddsSourceChoices(base, g) && Wired(base)
    ensures Wired(g)
  {
    forall c, t | IsChoice(g, c) && t in Targets(g[c].kind) ensures Edge(g, c, t) {
      assert Edge(base, c, t);
    }
    forall m, t | m in g && g[m].kind.Merge? && t in g[m].kind.tails ensures Edge(g, t, m) {
      assert Edge(base, t, m);
    }
  }

  /** Every later stage may rely on these. */
  lemma CertifiedGraph(def: Definition, base: Nodes, g: Nodes)
    requires Recorded(def) && Certified(def, base, g)
    ensures Closed(g) && Acyclic(g) && Wired(g)
  {
    hide Recorded, Resolves, Describes, Closed, Acyclic, Structured, AddsSourceChoices, Wired, Reaches, Holds;
    SourceChoicesKeepAncestors(base, g);
    BaseIsWired(def, base);
    WiringStays(base, g);
  }

  /**
    Each declared node is in the certified graph as declared: with its own settings, its declared dependencies first,
    then one for each generated edge into it, and last, of a merge, the choice its tails lie under. The graph has no
    other nodes.
  */
  lemma CertifiedNodes(def: Definition, base: Nodes, g: Nodes, i: nat)
    requires Certified(def, base, g) && i < |def.nodes|
    ensures forall n :: n in g <==> exists k :: 0 <= k < |def.nodes| && def.nodes[k].name == n
    ensures var nb := def.nodes[i];
      && nb.name in g && g[nb.name].continueOnError == nb.continueOnError && g[nb.name].kind == nb.kind
      && nb.deps + Into(def.choiceEdges, nb.name) + Into(def.mergeEdges, nb.name) <= g[nb.name].deps
      && |g[nb.name].deps| <= |nb.deps + Into(def.choiceEdges, nb.name) + Into(def.mergeEdges, nb.name)| + 1
      && (forall d :: d in g[nb.name].deps <==>
            || d in nb.deps
            || GeneratedEdge(d, nb.name) in def.choiceEdges || GeneratedEdge(d, nb.name) in def.mergeEdges
            || TailsLieUnder(base, nb, d))
  {
    hide Resolves, Acyclic, Structured, AddsSourceChoices, Holds, IsNearest, Closed;
    var nb := def.nodes[i];
    assert base[nb.name] == NodeFor(def, nb);
    AppendedIs(base, g, nb.name);
    TailsHaveNearest(base, nb.name);
    forall n ensures n in g <==> Known(def, n) { assert n in g <==> n in base; }
  }

  /** Some tail of the merge is nearest to a branch of this choice. */
  ghost predicate TailsLieUnder(base: Nodes, nb: NodeDecl, c: Name)
    requires Closed(base) && nb.name in base
  {
    && nb.kind.Merge?
    && exists d, b :: d in base[nb.name].deps && d in nb.kind.tails && IsNearest(base, d, b) && b.choice == c
  }

  lemma TailsHaveNearest(g: Nodes, n: Name)
    requires Closed(g) && Structured(g) && n in g
    ensures g[n].kind.Merge? ==> forall d :: d in g[n].deps && d in g[n].kind.tails ==> exists b :: IsNearest(g, d, b)
  {
    hide Structured, IsNearest, Closed, Acyclic;
    AcceptedShapes(g);
  }

  // ---- The certified graph is determined by the definition ----

  lemma SameBase(def: Definition, g: Nodes, h: Nodes)
    requires Describes(def, g) && Describes(def, h)
    ensures g == h
  {
    assert g.Keys == h.Keys;
    forall n | n in g ensures g[n] == h[n] {
      assert Known(def, n);
    }
  }

  lemma SameLink(base: Nodes, g: Nodes, n: Name, c: Name)
    requires Closed(base) && n in base && JoinsWell(base, n) && AddsSourceChoices(base, g)
    requires SourceChoice(base, n, c)
    ensures g[n] == if c in base[n].deps then base[n] else base[n].(deps := base[n].deps + [c])
  {
    if g[n] != base[n] {
      var d :| LinkedTo(base, g, n, d);
      assert d == c;
    }
  }

  lemma SameAddition(base: Nodes, g: Nodes, h: Nodes)
    requires Closed(base) && Structured(base) && AddsSourceChoices(base, g) && AddsSourceChoices(base, h)
    ensures g == h
  {
    forall n | n in base ensures g[n] == h[n] {
      assert JoinsWell(base, n);
      if c :| SourceChoice(base, n, c) {
        SameLink(base, g, n, c);
        SameLink(base, h, n, c);
      }
    }
  }

  /** Two certifications of one definition are of the same graph. */
  lemma CertifiedOnce(def: Definition, base: Nodes, g: Nodes, base': Nodes, g': Nodes)
    requires Certified(def, base, g)
    requires Resolves(def) && Describes(def, base') && Closed(base') && Structured(base')
    requires AddsSourceChoices(base', g')
    ensures base == base' && g == g'
  {
    hide Resolves, Describes, Closed, Acyclic, Structured, AddsSourceChoices, Holds;
    SameBase(def, base, base');
    SameAddition(base, g, g');
  }

  // ---- build() ----

  /** The error names something that is really wrong with the definition, or with the graph it describes. */
  ghost predicate Explained(def: Definition, base: Nodes, e: BuildError) {
    match e
    case UnknownEndpoint(edge) =>
      || (edge in def.choiceEdges && !Known(def, edge.to))
      || (edge in def.mergeEdges && (!Known(def, edge.from) || !Known(def, edge.to)))
    case DuplicateName(n) =>
      exists i, j :: 0 <= i < j < |def.nodes| && def.nodes[i].name == def.nodes[j].name == n
    case UnknownDependency(n, d) => !Known(def, d) && exists i :: 0 <= i < |def.nodes| && DependsAs(def, i, n, d)
    case CycleDetected(walk) => Describes(def, base) && ClosesOnItself(base, walk)
    case InvalidReconvergence(shape) => Describes(def, base) && Closed(base) && Shows(base, shape)
    case BoundaryRefused(refusal) =>
      Describes(def, base) && Closed(base) && exists g :: AddsSourceChoices(base, g) && RefusedIn(def, g, refusal)
  }

  ghost predicate DependsAs(def: Definition, i: nat, n: Name, d: Name)
    requires i < |def.nodes|
  {
    && def.nodes[i].name == n
    && (d in def.nodes[i].deps || GeneratedEdge(d, n) in def.choiceEdges || GeneratedEdge(d, n) in def.mergeEdges)
  }

  ghost predicate RefusedIn(def: Definition, g: Nodes, refusal: Refusal) {
    exists d :: d in def.boundaries && Explains(g, def.ineligible, d, refusal)
  }

  ghost predicate DistinctNames(def: Definition) {
    forall i, j :: 0 <= i < j < |def.nodes| ==> def.nodes[i].name != def.nodes[j].name
  }

  /** Node `i` has its declared dependencies and those of the edges folded so far. */
  ghost predicate Folded(def: Definition, choices: nat, merges: nat, deps: map<Name, seq<Name>>)
    requires choices <= |def.choiceEdges| && merges <= |def.mergeEdges|
  {
    && (forall n :: n in deps <==> Known(def, n))
    && (DistinctNames(def) ==> forall i :: 0 <= i < |def.nodes| ==>
          deps[def.nodes[i].name] == def.nodes[i].deps
            + Into(def.choiceEdges[..choices], def.nodes[i].name) + Into(def.mergeEdges[..merges], def.nodes[i].name))
  }

  lemma FoldOne(edges: seq<GeneratedEdge>, k: nat, n: Name)
    requires k < |edges|
    ensures Into(edges[..k+1], n) == if edges[k].to == n then Into(edges[..k],
        n) + [edges[k].from] else Into(edges[..k], n)
  {
    assert edges[..k+1][..k] == edges[..k];
  }

  lemma FoldChoiceEdge(def: Definition, k: nat, deps: map<Name, seq<Name>>)
    requires k < |def.choiceEdges| && Folded(def, k, 0, deps) && def.choiceEdges[k].to in deps
    ensures var e := def.choiceEdges[k];
            Folded(def, k + 1, 0, deps[e.to := deps[e.to] + [e.from]])
  {
    forall n { FoldOne(def.choiceEdges, k, n); }
    assert forall n :: Into(def.mergeEdges[..0], n) == [];
  }

  lemma FoldMergeEdge(def: Definition, k: nat, deps: map<Name, seq<Name>>)
    requires k < |def.mergeEdges| && Folded(def, |def.choiceEdges|, k, deps) && def.mergeEdges[k].to in deps
    ensures var e := def.mergeEdges[k];
            Folded(def, |def.choiceEdges|, k + 1, deps[e.to := deps[e.to] + [e.from]])
  {
    forall n { FoldOne(def.mergeEdges, k, n); }
  }

  /** A copy of each node's declared dependencies; of two nodes with one name the later one's. */
  method DeclaredDeps(def: Definition) returns (deps: map<Name, seq<Name>>)
    ensures Folded(def, 0, 0, deps)
  {
    deps := map[];
    for i := 0 to |def.nodes|
      invariant forall n :: n in deps <==> KnownBefore(def, i, n)
      invariant DistinctNames(def) ==> forall k :: 0 <= k < i ==>
        def.nodes[k].name in deps && deps[def.nodes[k].name] == def.nodes[k].deps
    {
      forall k | 0 <= k < i ensures KnownBefore(def, i, def.nodes[k].name) { }
      deps := deps[def.nodes[i].name := def.nodes[i].deps];
      KnownOneMore(def, i, i + 1);
    }
    assert def.choiceEdges[..0] == [] && def.mergeEdges[..0] == [];
    assert forall n :: KnownBefore(def, |def.nodes|, n) <==> Known(def, n);
  }

  ghost predicate KnownBefore(def: Definition, i: nat, n: Name)
    requires i <= |def.nodes|
  {
    exists k :: 0 <= k < i && def.nodes[k].name == n
  }

  lemma KnownOneMore(def: Definition, i: nat, j: nat)
    requires i < |def.nodes| && j == i + 1
    ensures forall n :: KnownBefore(def, j, n) <==> KnownBefore(def, i, n) || n == def.nodes[i].name
  {
    forall n ensures KnownBefore(def, j, n) <==> KnownBefore(def, i, n) || n == def.nodes[i].name {
      if n == def.nodes[i].name { assert KnownBefore(def, j, n); }
    }
  }

  lemma NoneKnownBefore(def: Definition)
    ensures forall n :: !KnownBefore(def, 0, n)
  {
  }

  /** Adds the generated edges to copies of the declared dependencies; the builder's own lists stay as they are. */
  method FoldEdges(def: Definition) returns (r: Result<map<Name, seq<Name>>, BuildError>)
    ensures r.Ok? ==> Folded(def, |def.choiceEdges|, |def.mergeEdges|, r.value)
    ensures r.Ok? ==> forall e :: e in def.choiceEdges ==> Known(def, e.to)
    ensures r.Ok? ==> forall e :: e in def.mergeEdges ==> Known(def, e.from) && Known(def, e.to)
    ensures r.Err? ==> !Resolves(def) && forall base :: Explained(def, base, r.error)
  {
    hide Folded, DistinctNames, Known;
    var deps := DeclaredDeps(def);
    for i := 0 to |def.choiceEdges|
      invariant Folded(def, i, 0, deps)
      invariant forall k :: 0 <= k < i ==> Known(def, def.choiceEdges[k].to)
    {
      var e := def.choiceEdges[i];
      FoldedKeys(def, i, 0, deps, e.to);
      if e.to !in deps {
        return Err(UnknownEndpoint(e));
      }
      FoldChoiceEdge(def, i, deps);
      deps := deps[e.to := deps[e.to] + [e.from]];
    }
    for i := 0 to |def.mergeEdges|
      invariant Folded(def, |def.choiceEdges|, i, deps)
      invariant forall k :: 0 <= k < i ==> Known(def, def.mergeEdges[k].from) && Known(def, def.mergeEdges[k].to)
    {
      var e := def.mergeEdges[i];
      FoldedKeys(def, |def.choiceEdges|, i, deps, e.to);
      FoldedKeys(def, |def.choiceEdges|, i, deps, e.from);
      if e.to !in deps || e.from !in deps {
        return Err(UnknownEndpoint(e));
      }
      FoldMergeEdge(def, i, deps);
      deps := deps[e.to := deps[e.to] + [e.from]];
    }
    return Ok(deps);
  }

  lemma FoldedKeys(def: Definition, choices: nat, merges: nat, deps: map<Name, seq<Name>>, n: Name)
    requires choices <= |def.choiceEdges| && merges <= |def.mergeEdges| && Folded(def, choices, merges, deps)
    ensures n in deps <==> Known(def, n)
  {
  }

  /** Adds the nodes by name; a name may be added once. */
  method AddNodes(def: Definition) returns (clash: Option<Name>)
    ensures clash.None? <==> DistinctNames(def)
    ensures clash.Some? ==>
      exists i, j :: 0 <= i < j < |def.nodes| && def.nodes[i].name == def.nodes[j].name == clash.value
  {
    var added: map<Name, nat> := map[];
    for i := 0 to |def.nodes|
      invariant forall n :: n in added ==> added[n] < i && def.nodes[added[n]].name == n
      invariant forall k :: 0 <= k < i ==> def.nodes[k].name in added
      invariant forall k, m :: 0 <= k < m < i ==> def.nodes[k].name != def.nodes[m].name
    {
      var name := def.nodes[i].name;
      if name in added {
        assert def.nodes[added[name]].name == def.nodes[i].name;
        return Some(name);
      }
      added := added[name := i];
    }
    return None;
  }

  /** Creates the nodes and gives each its effective dependencies. */
  method WireNodes(def: Definition, deps: map<Name, seq<Name>>) returns (r: Result<Nodes, BuildError>)
    requires Folded(def, |def.choiceEdges|, |def.mergeEdges|, deps)
    requires forall e :: e in def.choiceEdges ==> Known(def, e.to)
    requires forall e :: e in def.mergeEdges ==> Known(def, e.from) && Known(def, e.to)
    ensures r.Ok? ==> Resolves(def) && Describes(def, r.value) && Closed(r.value)
    ensures r.Err? ==> !Resolves(def) && forall base :: Explained(def, base, r.error)
  {
    hide Folded, Known, KnownBefore, Into, Closed, Describes;
    var clash := AddNodes(def);
    if clash.Some? {
      return Err(DuplicateName(clash.value));
    }
    var g: Nodes := map[];
    NoneKnownBefore(def);
    for i := 0 to |def.nodes|
      invariant forall n :: n in g <==> KnownBefore(def, i, n)
      invariant forall k :: 0 <= k < i ==> def.nodes[k].name in g && g[def.nodes[k].name] == NodeFor(def, def.nodes[k])
      invariant forall k, d :: 0 <= k < i && d in Effective(def, def.nodes[k]) ==> Known(def, d)
    {
      var nb := def.nodes[i];
      FoldedAll(def, deps, i);
      var all := deps[nb.name];
      for j := 0 to |all|
        invariant forall m :: 0 <= m < j ==> Known(def, all[m])
      {
        FoldedKeys(def, |def.choiceEdges|, |def.mergeEdges|, deps, all[j]);
        if all[j] !in deps {
          assert all[j] in Effective(def, def.nodes[i]) && DependsAs(def, i, nb.name, all[j]);
          return Err(UnknownDependency(nb.name, all[j]));
        }
      }
      g := g[nb.name := Node(all, nb.continueOnError, nb.kind)];
      KnownOneMore(def, i, i + 1);
    }
    AllDescribed(def, g);
    DescribedIsClosed(def, g);
    return Ok(g);
  }

  lemma FoldedAll(def: Definition, deps: map<Name, seq<Name>>, i: nat)
    requires DistinctNames(def) && Folded(def, |def.choiceEdges|, |def.mergeEdges|, deps) && i < |def.nodes|
    ensures def.nodes[i].name in deps && deps[def.nodes[i].name] == Effective(def, def.nodes[i])
  {
    assert def.choiceEdges[..|def.choiceEdges|] == def.choiceEdges
        && def.mergeEdges[..|def.mergeEdges|] == def.mergeEdges;
    assert Known(def, def.nodes[i].name);
  }

  lemma AllDescribed(def: Definition, g: Nodes)
    requires forall n :: n in g <==> KnownBefore(def, |def.nodes|, n)
    requires forall k :: 0 <= k < |def.nodes| ==>
      def.nodes[k].name in g && g[def.nodes[k].name] == NodeFor(def, def.nodes[k])
    ensures Describes(def, g)
  {
    assert forall n :: KnownBefore(def, |def.nodes|, n) <==> Known(def, n);
  }

  lemma DescribedIsClosed(def: Definition, g: Nodes)
    requires Resolves(def) && Describes(def, g)
    ensures Closed(g)
  {
    forall n, d | n in g && d in g[n].deps ensures d in g {
      assert Known(def, n);
      var i :| 0 <= i < |def.nodes| && def.nodes[i].name == n;
      assert d in Effective(def, def.nodes[i]);
      assert Known(def, d);
    }
  }

  /** Folds the generated edges, wires the nodes, and runs the three validations in the builder's order. */
  method Build(def: Definition) returns (r: Result<Nodes, BuildError>, ghost base: Nodes)
    ensures r.Ok? ==> Certified(def, base, r.value)
    ensures r.Err? ==> Explained(def, base, r.error) && forall b, g :: !Certified(def, b, g)
  {
    hide Resolves, Describes, Closed, Acyclic, Structured, AddsSourceChoices, Holds, Folded, Known, ClosesOnItself;
    hide Explains, Shows, WellShaped, DependsAs;
    base := map[];
    var folded := FoldEdges(def);
    if folded.Err? {
      return Err(folded.error), base;
    }
    var wired := WireNodes(def, folded.value);
    if wired.Err? {
      return Err(wired.error), base;
    }
    base := wired.value;
    forall b, g | Certified(def, b, g) ensures b == base { SameBase(def, b, base); }
    var dag := new DAG(wired.value);
    var acyclic := dag.Validate();
    if !acyclic {
      return Err(CycleDetected(dag.cycleNodes)), base;
    }
    var shaped := ValidateReconvergence(wired.value);
    if shaped.Err? {
      return Err(InvalidReconvergence(shaped.error)), base;
    }
    SourceChoicesKeepAncestors(wired.value, shaped.value);
    var refusal := ValidateBoundaries(shaped.value, def.ineligible, def.boundaries);
    if refusal.Some? {
      forall b, g | Certified(def, b, g) ensures g == shaped.value { CertifiedOnce(def, b, g, base, shaped.value); }
      assert RefusedIn(def, shaped.value, refusal.value);
      return Err(BoundaryRefused(refusal.value)), base;
    }
    return Ok(shaped.value), base;
  }
}

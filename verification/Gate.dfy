/** The cause-aware launch gate: when a node runs, and what it becomes when it cannot. */
module Gate {
  import opened Names
  import opened Wrappers
  import opened Graph
  import opened Reconvergence
  import opened Builder

  datatype NodeStatus =
    | NotSet
    | Pending
    | Running
    | Completed
    | Failed
    | Skipped
    | Bypassed
    | Waiting
    | Compensated
    | CompensationFailed

  type Statuses = map<Name, NodeStatus>

  function Get(st: Statuses, n: Name): NodeStatus {
    if n in st then st[n] else NotSet
  }

  predicate IsTerminal(s: NodeStatus) {
    s in {Completed, Failed, Skipped, Bypassed, Compensated, CompensationFailed}
  }

  datatype Role = AndDependent | MergeDependent

  function RoleOf(node: Node): Role {
    if node.kind.Merge? then MergeDependent else AndDependent
  }

  /** A dependency in this status no longer blocks a dependent of this role. */
  predicate DepResolved(dep: Node, s: NodeStatus, role: Role) {
    s == Completed || (dep.continueOnError && s == Failed) || (role == MergeDependent && s == Bypassed)
  }

  predicate IsSkipCause(s: NodeStatus) {
    s == Failed || s == Skipped
  }

  /** What one dependency contributes to the classification of a blocked node. */
  datatype Cause = Resolved | FailCause | NotTakenCause | Undecided

  function CauseOf(g: Nodes, n: Name, d: Name, st: Statuses): Cause
    requires n in g && d in g
  {
    if DepResolved(g[d], Get(st, d), RoleOf(g[n])) then Resolved
    else if IsSkipCause(Get(st, d)) then FailCause
    else if Get(st, d) == Bypassed then NotTakenCause
    else Undecided
  }

  predicate Sees(g: Nodes, n: Name, st: Statuses, c: Cause)
    requires n in g && DepsKnown(g, n)
  {
    exists d :: d in g[n].deps && CauseOf(g, n, d, st) == c
  }

  predicate DepsKnown(g: Nodes, n: Name)
    requires n in g
  {
    forall d :: d in g[n].deps ==> d in g
  }

  /** The terminal status a blocked node's dependencies imply, over all of them; none when undecided. */
  function BlockedStatus(g: Nodes, n: Name, st: Statuses): Option<NodeStatus>
    requires n in g && DepsKnown(g, n)
  {
    if Sees(g, n, st, FailCause) then Some(Skipped)
    else if Sees(g, n, st, Undecided) then None
    else if Sees(g, n, st, NotTakenCause) then Some(if Sees(g, n, st, Resolved) then Skipped else Bypassed)
    else None
  }

  predicate AllResolved(g: Nodes, n: Name, st: Statuses)
    requires n in g && DepsKnown(g, n)
  {
    forall d :: d in g[n].deps ==> CauseOf(g, n, d, st) == Resolved
  }

  /** Some `From` tail of the merge actually ran. */
  predicate TakenTail(g: Nodes, n: Name, st: Statuses)
    requires n in g && DepsKnown(g, n) && g[n].kind.Merge?
  {
    exists d :: d in g[n].deps && IsTail(g, n, d) && DepResolved(g[d], Get(st, d), AndDependent)
  }

  datatype Verdict = Launch | Assign(status: NodeStatus) | Wait

  /** The launch loop's decision about a node that is not terminal. */
  function Decide(g: Nodes, n: Name, st: Statuses): Verdict
    requires n in g && DepsKnown(g, n)
  {
    if !AllResolved(g, n, st) then
      match BlockedStatus(g, n, st)
      case Some(s) => Assign(s)
      case None => Wait
    else if g[n].kind.Merge? && !TakenTail(g, n, st) then Assign(Bypassed)
    else Launch
  }

  /** What a blocked node's dependencies imply, by their statuses. */
  lemma BlockedByStatus(g: Nodes, n: Name, st: Statuses)
    requires n in g && DepsKnown(g, n)
    ensures BlockedStatus(g, n, st) == Some(Skipped) <==>
      || (exists d :: d in g[n].deps && (Get(st, d) == Skipped || (Get(st, d) == Failed && !g[d].continueOnError)))
      || (&& !g[n].kind.Merge?
          && (exists d :: d in g[n].deps && Get(st, d) == Bypassed)
          && (exists d :: d in g[n].deps && Get(st, d) in {Completed, Failed})
          && forall d :: d in g[n].deps ==> Get(st, d) in {Completed, Failed, Bypassed})
    ensures BlockedStatus(g, n, st) == Some(Bypassed) <==>
      !g[n].kind.Merge? && g[n].deps != [] && forall d :: d in g[n].deps ==> Get(st, d) == Bypassed
    ensures BlockedStatus(g, n, st).Some? ==> BlockedStatus(g, n, st).value in {Skipped, Bypassed}
  {
    forall d | d in g[n].deps
      ensures CauseOf(g, n, d, st) == FailCause <==>
              Get(st, d) == Skipped || (Get(st, d) == Failed && !g[d].continueOnError)
      ensures CauseOf(g, n, d, st) == NotTakenCause <==> !g[n].kind.Merge? && Get(st, d) == Bypassed
      ensures CauseOf(g, n, d, st) == Undecided <==> Get(st, d) !in {Completed, Failed, Skipped, Bypassed}
    {
    }
    if g[n].deps != [] { assert g[n].deps[0] in g[n].deps; }
  }

  /**
    The gate's four verdicts by the dependencies' statuses. A node launches when each dependency ran, or, of a merge,
    was bypassed, and of a merge some recorded tail ran; a dependency ran when it is Completed, or Failed with
    continue-on-error.
  */
  lemma DecideByStatus(g: Nodes, n: Name, st: Statuses)
    requires n in g && DepsKnown(g, n)
    ensures Decide(g, n, st) == Launch <==>
      && (forall d :: d in g[n].deps ==>
            || Get(st, d) == Completed || (Get(st, d) == Failed && g[d].continueOnError)
            || (g[n].kind.Merge? && Get(st, d) == Bypassed))
      && (g[n].kind.Merge? ==>
            exists d :: d in g[n].deps && d in g[n].kind.tails
              && (Get(st, d) == Completed || (Get(st, d) == Failed && g[d].continueOnError)))
    ensures Decide(g, n, st) == Assign(Skipped) <==>
      || (exists d :: d in g[n].deps && (Get(st, d) == Skipped || (Get(st, d) == Failed && !g[d].continueOnError)))
      || (&& !g[n].kind.Merge?
          && (exists d :: d in g[n].deps && Get(st, d) == Bypassed)
          && (exists d :: d in g[n].deps && Get(st, d) in {Completed, Failed})
          && forall d :: d in g[n].deps ==> Get(st, d) in {Completed, Failed, Bypassed})
    ensures Decide(g, n, st) == Assign(Bypassed) <==>
      if g[n].kind.Merge? then
        && (forall d :: d in g[n].deps ==>
              Get(st, d) in {Completed, Bypassed} || (Get(st, d) == Failed && g[d].continueOnError))
        && (forall d :: d in g[n].deps && d in g[n].kind.tails ==> Get(st, d) == Bypassed)
      else g[n].deps != [] && forall d :: d in g[n].deps ==> Get(st, d) == Bypassed
    ensures Decide(g, n, st) == Wait <==>
      && (exists d :: d in g[n].deps && Get(st, d) !in {Completed, Failed, Skipped, Bypassed})
      && (forall d :: d in g[n].deps ==> Get(st, d) != Skipped && (Get(st, d) == Failed ==> g[d].continueOnError))
    ensures Decide(g, n, st).Assign? ==> Decide(g, n, st).status in {Skipped, Bypassed}
  {
    BlockedByStatus(g, n, st);
    forall d | d in g[n].deps
      ensures CauseOf(g, n, d, st) == Resolved <==>
              || Get(st, d) == Completed || (Get(st, d) == Failed && g[d].continueOnError)
              || (g[n].kind.Merge? && Get(st, d) == Bypassed)
      ensures CauseOf(g, n, d, st) == FailCause <==>
              Get(st, d) == Skipped || (Get(st, d) == Failed && !g[d].continueOnError)
      ensures CauseOf(g, n, d, st) == NotTakenCause <==> !g[n].kind.Merge? && Get(st, d) == Bypassed
    {
    }
    if g[n].deps != [] { assert g[n].deps[0] in g[n].deps; }
  }

  // ---- Status writes outside the launch loop ----

  /** Before the first level: everything not terminal and not Waiting starts Pending. */
  function Initialized(g: Nodes, st: Statuses): Statuses {
    InitializedIn(g.Keys, st)
  }

  function InitializedIn(names: set<Name>, st: Statuses): Statuses {
    map n | n in st.Keys + names ::
      if n in names && !IsTerminal(Get(st, n)) && Get(st, n) != Waiting then Pending else st[n]
  }

  lemma InitializedIs(g: Nodes, st: Statuses)
    ensures forall n ::
      Get(Initialized(g, st), n) ==
      if n in g && Get(st, n) in {NotSet, Pending, Running} then Pending else Get(st, n)
  {
  }

  ghost function NamesIn(names: seq<Name>): set<Name> {
    set n | n in names
  }

  lemma OneMoreName(names: seq<Name>, i: nat)
    requires i < |names|
    ensures NamesIn(names[..i+1]) == NamesIn(names[..i]) + {names[i]} && NamesIn(names[..0]) == {}
  {
    assert names[..i+1] == names[..i] + [names[i]];
  }

  lemma InitializeNone(st: Statuses)
    ensures InitializedIn({}, st) == st && NamesIn([]) == {}
  {
  }

  lemma InitializeOne(names: set<Name>, st: Statuses, n: Name)
    ensures var done := InitializedIn(names, st);
            InitializedIn(names + {n}, st) ==
            if !IsTerminal(Get(done, n)) && Get(done, n) != Waiting then done[n := Pending] else done
  {
  }

  /** No node stays Waiting on an exit that did not suspend. */
  function Cleared(st: Statuses): Statuses {
    map n | n in st :: if st[n] == Waiting then Pending else st[n]
  }

  /** One node of the post-failure sweep. */
  function SweptOne(g: Nodes, n: Name, st: Statuses): Statuses
    requires n in g && DepsKnown(g, n)
  {
    if IsTerminal(Get(st, n)) then st
    else
      match BlockedStatus(g, n, st)
      case Some(s) => st[n := s]
      case None => st
  }

  /** The sweep over a list of nodes, each seeing what the ones before it became. */
  function Swept(g: Nodes, names: seq<Name>, st: Statuses): Statuses
    requires forall n :: n in names ==> n in g && DepsKnown(g, n)
  {
    if names == [] then st
    else Swept(g, names[1..], SweptOne(g, names[0], st))
  }

  function Flatten(levels: seq<seq<Name>>): (r: seq<Name>)
    ensures forall n :: n in r <==> exists i :: 0 <= i < |levels| && n in levels[i]
  {
    if levels == [] then []
    else
      var rest := Flatten(levels[1..]);
      assert forall i :: 0 < i < |levels| ==> levels[i] == levels[1..][i-1];
      levels[0] + rest
  }

  // ---- Routing ----

  /** The first arm whose predicate holds. */
  function FirstMatch(arms: seq<Name>, holds: seq<bool>): Option<Name> {
    if arms == [] || holds == [] then None
    else if holds[0] then Some(arms[0])
    else FirstMatch(arms[1..], holds[1..])
  }

  /** The branch a choice takes, given what its predicates evaluate to; none is a routing failure. */
  function Route(k: Kind, holds: seq<bool>): Option<Name>
    requires k.Choice?
  {
    match FirstMatch(k.arms, holds)
    case Some(t) => Some(t)
    case None => k.fallback
  }

  /** The arm is the first whose predicate holds. */
  predicate FirstAt(arms: seq<Name>, holds: seq<bool>, t: Name) {
    exists i :: 0 <= i < |holds| && i < |arms| && holds[i] && arms[i] == t && forall j :: 0 <= j < i ==> !holds[j]
  }

  predicate NoneHolds(arms: seq<Name>, holds: seq<bool>) {
    forall i :: 0 <= i < |holds| && i < |arms| ==> !holds[i]
  }

  lemma {:induction false} FirstMatchIsFirst(arms: seq<Name>, holds: seq<bool>)
    ensures FirstMatch(arms, holds).None? <==> NoneHolds(arms, holds)
    ensures forall t :: FirstMatch(arms, holds) == Some(t) <==> FirstAt(arms, holds, t)
    decreases |arms|
  {
    if arms != [] && holds != [] && !holds[0] {
      FirstMatchIsFirst(arms[1..], holds[1..]);
      forall t ensures FirstAt(arms, holds, t) <==> FirstAt(arms[1..], holds[1..], t) { FirstAtShifts(arms, holds, t); }
      if NoneHolds(arms[1..], holds[1..]) {
        forall i | 0 <= i < |holds| && i < |arms| ensures !holds[i] {
          if i > 0 { assert holds[1..][i-1] == holds[i]; }
        }
      }
    } else if arms != [] && holds != [] {
      assert FirstAt(arms, holds, arms[0]);
    }
  }

  lemma FirstAtShifts(arms: seq<Name>, holds: seq<bool>, t: Name)
    requires arms != [] && holds != [] && !holds[0]
    ensures FirstAt(arms, holds, t) <==> FirstAt(arms[1..], holds[1..], t)
  {
    var arms', holds' := arms[1..], holds[1..];
    if FirstAt(arms, holds, t) {
      var i :| 0 <= i < |holds| && i < |arms| && holds[i] && arms[i] == t && forall j :: 0 <= j < i ==> !holds[j];
      assert holds'[i-1] && arms'[i-1] == t;
    }
    if FirstAt(arms', holds', t) {
      var i :| 0 <= i < |holds'| && i < |arms'| && holds'[i] && arms'[i] == t && forall j :: 0 <= j < i ==> !holds'[j];
      assert holds[i+1] && arms[i+1] == t;
      forall j | 0 <= j < i + 1 ensures !holds[j] { if j > 0 { assert holds'[j-1] == holds[j]; } }
    }
  }

  /** The taken branch is the first arm whose predicate holds, else the fallback; none exactly without either. */
  ghost predicate RoutesTo(k: Kind, holds: seq<bool>, t: Name)
    requires k.Choice?
  {
    FirstAt(k.arms, holds, t) || (NoneHolds(k.arms, holds) && k.fallback == Some(t))
  }

  lemma RouteIsFirst(k: Kind, holds: seq<bool>)
    requires k.Choice?
    ensures Route(k, holds) == None <==> k.fallback == None && NoneHolds(k.arms, holds)
    ensures forall t :: Route(k, holds) == Some(t) <==> RoutesTo(k, holds, t)
  {
    hide FirstAt, NoneHolds, FirstMatch;
    FirstMatchIsFirst(k.arms, holds);
  }

  /** The entries a choice marks once it has taken `taken`; an entry with an empty name is never marked. */
  function NotTaken(k: Kind, taken: Name): set<Name>
    requires k.Choice?
  {
    set t | t in Targets(k) && t != taken && t != ""
  }

  function Marked(st: Statuses, marks: set<Name>): Statuses {
    map n | n in st.Keys + marks :: if n in marks then Bypassed else st[n]
  }

  // ---- The run's data, written in place ----

  /** What an action returned: nil, the park sentinel, or another error. */
  datatype ActionResult = Succeeded | AskedToPark | OtherError

  /** What the executor is told of a node. */
  datatype NodeResult = NoError | Parked | Errored

  class WorkflowData {
    var status: Statuses

    constructor (st: Statuses)
      ensures status == st
    {
      status := st;
    }

    method SetNodeStatus(n: Name, s: NodeStatus)
      modifies this
      ensures status == old(status)[n := s]
    {
      status := status[n := s];
    }

    /** One scan over the whole dependency list, without an early exit. */
    method ClassifyBlockedStatus(g: Nodes, n: Name) returns (r: Option<NodeStatus>)
      requires n in g && DepsKnown(g, n)
      ensures r == BlockedStatus(g, n, status)
    {
      var deps, role := g[n].deps, RoleOf(g[n]);
      var sawFailCause, sawNonTerminal, sawBypassed, sawResolved := false, false, false, false;
      for i := 0 to |deps|
        invariant sawResolved <==> exists k :: 0 <= k < i && CauseOf(g, n, deps[k], status) == Resolved
        invariant sawFailCause <==> exists k :: 0 <= k < i && CauseOf(g, n, deps[k], status) == FailCause
        invariant sawBypassed <==> exists k :: 0 <= k < i && CauseOf(g, n, deps[k], status) == NotTakenCause
        invariant sawNonTerminal <==> exists k :: 0 <= k < i && CauseOf(g, n, deps[k], status) == Undecided
      {
        var dep := deps[i];
        var s := Get(status, dep);
        if DepResolved(g[dep], s, role) {
          sawResolved := true;
        } else if IsSkipCause(s) {
          sawFailCause := true;
        } else if s == Bypassed {
          sawBypassed := true;
        } else {
          sawNonTerminal := true;
        }
        assert CauseOf(g, n, deps[i], status) == CauseOf(g, n, dep, status);
      }
      SeesByIndex(g, n, status);
      if sawFailCause {
        return Some(Skipped);
      } else if sawNonTerminal {
        return None;
      } else if sawBypassed && sawResolved {
        return Some(Skipped);
      } else if sawBypassed {
        return Some(Bypassed);
      }
      return None;
    }

    /** The launch loop's decision: an early exit on the first unresolved dependency, then the OR-join count. */
    method DecideNode(g: Nodes, n: Name) returns (v: Verdict)
      requires n in g && DepsKnown(g, n)
      ensures v == Decide(g, n, status)
    {
      var deps, role := g[n].deps, RoleOf(g[n]);
      var dependenciesComplete := true;
      var i := 0;
      while i < |deps| && dependenciesComplete
        invariant 0 <= i <= |deps|
        invariant dependenciesComplete ==> forall k :: 0 <= k < i ==> CauseOf(g, n, deps[k], status) == Resolved
        invariant !dependenciesComplete ==> !AllResolved(g, n, status)
      {
        var dep := deps[i];
        if !DepResolved(g[dep], Get(status, dep), role) {
          assert dep in g[n].deps && CauseOf(g, n, dep, status) != Resolved;
          dependenciesComplete := false;
        }
        i := i + 1;
      }
      if !dependenciesComplete {
        var blocked := ClassifyBlockedStatus(g, n);
        return if blocked.Some? then Assign(blocked.value) else Wait;
      }
      if g[n].kind.Merge? {
        var takenTails := 0;
        for j := 0 to |deps|
          invariant takenTails >= 0
          invariant takenTails > 0 <==> exists k :: 0 <= k < j && IsTail(g, n, deps[k])
                                          && DepResolved(g[deps[k]], Get(status, deps[k]), AndDependent)
        {
          var dep := deps[j];
          if dep in g[n].kind.tails && DepResolved(g[dep], Get(status, dep), AndDependent) {
            assert IsTail(g, n, deps[j]);
            takenTails := takenTails + 1;
          }
        }
        assert TakenTail(g, n, status) <==> takenTails > 0;
        if takenTails == 0 {
          return Assign(Bypassed);
        }
      }
      return Launch;
    }

    /**
      One node's run. A park is honoured only from a declared suspension; anywhere else it is a failure whose
      sentinel does not escape, and a forged journal write fails the node whatever its action returned.
    */
    method ExecuteNode(node: Node, n: Name, returned: ActionResult, forged: bool) returns (r: NodeResult)
      modifies this
      ensures status.Keys == old(status).Keys + {n}
      ensures forall m :: m in old(status) && m != n ==> status[m] == old(status)[m]
      ensures status[n] in {Completed, Waiting, Failed}
      ensures status[n] == Waiting <==> node.kind.Suspension? && returned == AskedToPark && !forged
      ensures status[n] == Completed <==> returned == Succeeded && !forged
      ensures r == (if status[n] == Completed then NoError else if status[n] == Waiting then Parked else Errored)
    {
      SetNodeStatus(n, Running);
      var err := if forged then OtherError else returned;
      if node.kind.Suspension? {
        match err {
          case Succeeded => SetNodeStatus(n, Completed); return NoError;
          case AskedToPark => SetNodeStatus(n, Waiting); return Parked;
          case OtherError => SetNodeStatus(n, Failed); return Errored;
        }
      }
      if err != Succeeded {
        SetNodeStatus(n, Failed);
        return Errored;
      }
      SetNodeStatus(n, Completed);
      return NoError;
    }

    method InitStatuses(g: Nodes, levels: seq<seq<Name>>)
      requires forall n :: n in Flatten(levels) <==> n in g
      modifies this
      ensures status == Initialized(g, old(status))
      ensures forall n ::
        Get(status, n) ==
        if n in g && Get(old(status), n) in {NotSet, Pending, Running} then Pending else Get(old(status), n)
    {
      InitializedIs(g, status);
      hide InitializedIn, Flatten, IsTerminal;
      var names := Flatten(levels);
      InitializeNone(status);
      for i := 0 to |names|
        invariant status == InitializedIn(NamesIn(names[..i]), old(status))
      {
        OneMoreName(names, i);
        InitializeOne(NamesIn(names[..i]), old(status), names[i]);
        var s := Get(status, names[i]);
        if !IsTerminal(s) && s != Waiting {
          status := status[names[i] := Pending];
        }
      }
      assert NamesIn(names[..|names|]) == g.Keys;
    }

    method ClearWaiting()
      modifies this
      ensures status == Cleared(old(status))
      ensures forall n :: Get(status, n) == if Get(old(status), n) == Waiting then Pending else Get(old(status), n)
    {
      var waiting := set n | n in status && status[n] == Waiting;
      var todo := waiting;
      while todo != {}
        invariant todo <= waiting
        invariant status.Keys == old(status).Keys
        invariant forall n :: n in status ==> status[n] == if n in waiting - todo then Pending else old(status)[n]
        decreases todo
      {
        var n :| n in todo;
        status := status[n := Pending];
        todo := todo - {n};
      }
    }

    method MarkSkippedFrom(g: Nodes, levels: seq<seq<Name>>, startLevel: nat)
      requires startLevel <= |levels|
      requires forall n :: n in Flatten(levels[startLevel..]) ==> n in g && DepsKnown(g, n)
      modifies this
      ensures status == Swept(g, Flatten(levels[startLevel..]), old(status))
    {
      var names := Flatten(levels[startLevel..]);
      for i := 0 to |names|
        invariant Swept(g, names[i..], status) == Swept(g, names, old(status))
      {
        var n := names[i];
        assert names[i..][1..] == names[i+1..];
        if !IsTerminal(Get(status, n)) {
          var blocked := ClassifyBlockedStatus(g, n);
          if blocked.Some? {
            SetNodeStatus(n, blocked.value);
          }
        }
      }
    }

    /** Marks every branch entry but the taken one. */
    method BypassExcept(k: Kind, taken: Name)
      requires k.Choice?
      modifies this
      ensures status == Marked(old(status), NotTaken(k, taken))
      ensures forall n ::
        Get(status, n) ==
        if (n in k.arms || k.fallback == Some(n)) && n != taken && n != "" then Bypassed else Get(old(status), n)
    {
      var seen: set<Name> := {};
      var targets := k.arms + if k.fallback.Some? then [k.fallback.value] else [];
      for i := 0 to |targets|
        invariant seen == set j | 0 <= j < i && targets[j] != taken && targets[j] != "" :: targets[j]
        invariant status == Marked(old(status), seen)
      {
        var t := targets[i];
        if t != "" && t != taken && t !in seen {
          seen := seen + {t};
          status := status[t := Bypassed];
        }
      }
      assert forall t :: t in Targets(k) <==> t in targets;
      assert seen == NotTaken(k, taken);
    }

    /** The routing decision: first match wins, else the fallback, else a failure that marks nothing. */
    method Choose(k: Kind, holds: seq<bool>) returns (ok: bool)
      requires k.Choice? && |holds| == |k.arms|
      modifies this
      ensures ok <==> Route(k, holds).Some?
      ensures status == if ok then Marked(old(status), NotTaken(k, Route(k, holds).value)) else old(status)
      ensures ok <==> k.fallback.Some? || !NoneHolds(k.arms, holds)
      ensures ok ==> exists taken :: RoutesTo(k, holds, taken) && forall n ::
          Get(status, n) ==
          if (n in k.arms || k.fallback == Some(n)) && n != taken && n != "" then Bypassed else Get(old(status), n)
    {
      RouteIsFirst(k, holds);
      for i := 0 to |holds|
        invariant status == old(status)
        invariant FirstMatch(k.arms, holds) == FirstMatch(k.arms[i..], holds[i..])
      {
        if holds[i] {
          BypassExcept(k, k.arms[i]);
          return true;
        }
        assert k.arms[i..][1..] == k.arms[i+1..] && holds[i..][1..] == holds[i+1..];
      }
      if k.fallback.Some? {
        BypassExcept(k, k.fallback.value);
        return true;
      }
      return false;
    }
  }

  lemma SeesByIndex(g: Nodes, n: Name, st: Statuses)
    requires n in g && DepsKnown(g, n)
    ensures forall c :: Sees(g, n, st, c) <==> exists k :: 0 <= k < |g[n].deps| && CauseOf(g, n, g[n].deps[k], st) == c
  {
    forall c | Sees(g, n, st, c)
      ensures exists k :: 0 <= k < |g[n].deps| && CauseOf(g, n, g[n].deps[k], st) == c
    {
      var d :| d in g[n].deps && CauseOf(g, n, d, st) == c;
      var k :| 0 <= k < |g[n].deps| && g[n].deps[k] == d;
    }
  }
}

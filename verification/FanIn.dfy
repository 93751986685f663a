/** The fan-in: from what the branches left to one result, or the error that explains the failure. */
module FanIn {
  import opened Wrappers
  import opened FanOut
  import opened FanOutRuns

  /** The keys a fan-out owns under its result key. */
  datatype Key = Index(i: nat) | Count | FailedList | Other(name: string)

  datatype Datum = Result(value: int) | Number(n: nat) | Indices(list: seq<nat>) | Opaque(tag: int)

  datatype Refusal = CallerCancelled(fault: Fault) | BranchFailed(index: nat, fault: Fault) | Collision(key: Key)

  /** The failing indices below `n`, in discovery order. */
  function Failing(slots: seq<Slot>, n: nat): seq<nat>
    requires n <= |slots|
  {
    if n == 0 then []
    else if slots[n-1].Faulted? then Failing(slots, n - 1) + [n - 1]
    else Failing(slots, n - 1)
  }

  lemma {:induction false} FailingIsExact(slots: seq<Slot>, n: nat)
    requires n <= |slots|
    ensures forall i :: i in Failing(slots, n) <==> 0 <= i < n && slots[i].Faulted?
    ensures forall a, b :: 0 <= a < b < |Failing(slots, n)| ==> Failing(slots, n)[a] < Failing(slots, n)[b]
  {
    if n > 0 {
      FailingIsExact(slots, n - 1);
      var f := Failing(slots, n - 1);
      forall a | 0 <= a < |f| ensures f[a] < n - 1 { assert f[a] in f; }
    }
  }

  /** The first error that is not a cancellation, or with none the first error. */
  ghost predicate IsRootCause(slots: seq<Slot>, i: nat) {
    && i < |slots| && slots[i].Faulted?
    && (if IsCanceled(slots[i].fault)
        then (forall j :: 0 <= j < i ==> slots[j].Value?)
             && (forall j :: 0 <= j < |slots| && slots[j].Faulted? ==> IsCanceled(slots[j].fault))
        else forall j :: 0 <= j < i && slots[j].Faulted? ==> IsCanceled(slots[j].fault))
  }

  function Keyed(slots: seq<Slot>, n: nat, before: map<Key, Datum>): map<Key, Datum>
    requires n <= |slots|
  {
    if n == 0 then before
    else
      var keyed := Keyed(slots, n - 1, before);
      if slots[n-1].Value? then keyed[Index(n - 1) := Result(slots[n-1].result)] else keyed
  }

  /** A success has its result under its own index; nothing else is touched. */
  lemma {:induction false} KeyedIsExact(slots: seq<Slot>, n: nat, before: map<Key, Datum>, k: Key)
    requires n <= |slots|
    ensures var keyed := Keyed(slots, n, before);
            if k.Index? && k.i < n && slots[k.i].Value? then k in keyed && keyed[k] == Result(slots[k.i].result)
            else (k in keyed <==> k in before) && (k in before ==> keyed[k] == before[k])
  {
    if n > 0 {
      KeyedIsExact(slots, n - 1, before, k);
    }
  }

  /** The run's data after a fan-in that completes: a typed result per success, the count, and the failed list. */
  function Written(slots: seq<Slot>, collectPartial: bool, before: map<Key, Datum>): map<Key, Datum> {
    var keyed := Keyed(slots, |slots|, before)[Count := Number(|slots|)];
    if collectPartial then keyed[FailedList := Indices(Failing(slots, |slots|))] else keyed
  }

  /** A key holds a value this fan-in did not write. */
  predicate Foreign(slots: seq<Slot>, collectPartial: bool, data: map<Key, Datum>, k: Key) {
    k in data &&
    match k
    case Index(i) => i < |slots| && slots[i].Value? && data[k] != Result(slots[i].result)
    case FailedList => collectPartial && data[k] != Indices(Failing(slots, |slots|))
    case _ => false
  }

  /** Exactly the indices of the branches that failed, in increasing order. */
  ghost predicate ListsFailures(slots: seq<Slot>, list: seq<nat>) {
    && (forall i: nat :: i in list <==> i < |slots| && slots[i].Faulted?)
    && (forall a, b :: 0 <= a < b < |list| ==> list[a] < list[b])
  }

  /** A success is keyed by its index; the count and, collecting partial results, the failed list come with it. */
  lemma WrittenIs(slots: seq<Slot>, collectPartial: bool, before: map<Key, Datum>)
    ensures var data := Written(slots, collectPartial, before);
      && (forall i: nat :: i < |slots| && slots[i].Value? ==>
            Index(i) in data && data[Index(i)] == Result(slots[i].result))
      && Count in data && data[Count] == Number(|slots|)
      && (collectPartial ==>
            FailedList in data && data[FailedList].Indices? && ListsFailures(slots, data[FailedList].list))
    ensures var data := Written(slots, collectPartial, before);
      forall k: Key :: (k.Other? || (k.FailedList? && !collectPartial)
                   || (k.Index? && (k.i >= |slots| || slots[k.i].Faulted?))) ==>
        (k in data <==> k in before) && (k in before ==> data[k] == before[k])
  {
    hide Keyed, Failing;
    FailingIsExact(slots, |slots|);
    forall k { KeyedIsExact(slots, |slots|, before, k); }
  }

  lemma {:induction false} SameFailures(a: seq<nat>, b: seq<nat>)
    requires forall i: nat :: i in a <==> i in b
    requires forall x, y :: 0 <= x < y < |a| ==> a[x] < a[y]
    requires forall x, y :: 0 <= x < y < |b| ==> b[x] < b[y]
    ensures a == b
    decreases |a|
  {
    assert (a != [] ==> a[0] in a) && (b != [] ==> b[0] in b);
    if a != [] {
      var a', b' := a[..|a|-1], b[..|b|-1];
      var m, n := a[|a|-1], b[|b|-1];
      assert m in a && n in b;
      assert m == n;
      forall i: nat ensures i in a' <==> i in b' {
        assert i in a' <==> i in a && i != m;
        assert i in b' <==> i in b && i != n;
      }
      SameFailures(a', b');
      assert a == a' + [m] && b == b' + [n];
    }
  }

  /** A key is foreign when it holds something other than what the fan-in is about to write there. */
  lemma ForeignIs(slots: seq<Slot>, collectPartial: bool, data: map<Key, Datum>, k: Key)
    ensures Foreign(slots, collectPartial, data, k) <==>
      && k in data
      && ((k.Index? && k.i < |slots| && slots[k.i].Value? && data[k] != Result(slots[k.i].result))
          || (k.FailedList? && collectPartial && !(data[k].Indices? && ListsFailures(slots, data[k].list))))
  {
    hide Failing;
    FailingIsExact(slots, |slots|);
    if k.FailedList? && k in data && data[k].Indices? && ListsFailures(slots, data[k].list) {
      SameFailures(data[k].list, Failing(slots, |slots|));
    }
  }

  class ParentData {
    var values: map<Key, Datum>

    constructor (values: map<Key, Datum>)
      ensures this.values == values
    {
      this.values := values;
    }

    /**
      A cancelled caller comes first and writes nothing; then, failing fast, the root cause; otherwise the results are
      keyed unless some key holds a foreign value.
    */
    method FanIn(slots: seq<Slot>, external: Option<Fault>, collectPartial: bool, keyed: bool)
      returns (err: Option<Refusal>)
      modifies this
      ensures external.Some? ==> err == Some(CallerCancelled(external.value)) && values == old(values)
      ensures external.None? && !collectPartial && (exists i :: 0 <= i < |slots| && slots[i].Faulted?) ==>
        && err.Some? && err.value.BranchFailed? && IsRootCause(slots, err.value.index)
        && err.value.fault == slots[err.value.index].fault && values == old(values)
      ensures external.None? && (collectPartial || forall i :: 0 <= i < |slots| ==> slots[i].Value?) ==>
        if !keyed then err == None && values == old(values)
        else if forall k :: !Foreign(slots, collectPartial, old(values), k)
        then err == None && values == Written(slots, collectPartial, old(values))
        else err.Some? && err.value.Collision? && Foreign(slots, collectPartial, old(values), err.value.key)
    {
      if external.Some? {
        return Some(CallerCancelled(external.value));
      }
      if !collectPartial {
        var cause := FirstCause(slots);
        if cause.Some? {
          return Some(BranchFailed(cause.value, slots[cause.value].fault));
        }
      }
      if keyed {
        err := KeyResults(slots, collectPartial);
      } else {
        err := None;
      }
    }

    method KeyResults(slots: seq<Slot>, collectPartial: bool) returns (err: Option<Refusal>)
      modifies this
      ensures if forall k :: !Foreign(slots, collectPartial, old(values), k)
              then err == None && values == Written(slots, collectPartial, old(values))
              else err.Some? && err.value.Collision? && Foreign(slots, collectPartial, old(values), err.value.key)
    {
      var failed: seq<nat> := [];
      for i := 0 to |slots|
        invariant failed == Failing(slots, i)
        invariant values == Keyed(slots, i, old(values))
        invariant forall j :: 0 <= j < i ==> !Foreign(slots, collectPartial, old(values), Index(j))
      {
        KeyedIsExact(slots, i, old(values), Index(i));
        if slots[i].Faulted? {
          failed := failed + [i];
        } else {
          var key := Index(i);
          if key in values && values[key] != Result(slots[i].result) {
            assert Foreign(slots, collectPartial, old(values), key);
            return Some(Collision(key));
          }
          values := values[key := Result(slots[i].result)];
        }
      }
      KeyedIsExact(slots, |slots|, old(values), FailedList);
      values := values[Count := Number(|slots|)];
      if collectPartial {
        if FailedList in values && values[FailedList] != Indices(failed) {
          assert Foreign(slots, collectPartial, old(values), FailedList);
          return Some(Collision(FailedList));
        }
        values := values[FailedList := Indices(failed)];
      }
      return None;
    }
  }

  /**
    The index whose error the run fails with: the first error that neither is the cancellation sentinel nor matches it,
    and if all do, the first error.
  */
  method FirstCause(slots: seq<Slot>) returns (cause: Option<nat>)
    ensures cause == None <==> forall i :: 0 <= i < |slots| ==> slots[i].Value?
    ensures cause.Some? ==>
      var c := cause.value;
      && c < |slots| && slots[c].Faulted?
      && (if slots[c].fault == Canceled || (slots[c].fault.BranchError? && slots[c].fault.matchesCanceled)
          then (forall j :: 0 <= j < c ==> slots[j].Value?)
               && (forall j :: 0 <= j < |slots| && slots[j].Faulted? ==>
                     slots[j].fault == Canceled || (slots[j].fault.BranchError? && slots[j].fault.matchesCanceled))
          else forall j :: 0 <= j < c && slots[j].Faulted? ==>
                 slots[j].fault == Canceled || (slots[j].fault.BranchError? && slots[j].fault.matchesCanceled))
    ensures cause.Some? ==> IsRootCause(slots, cause.value)
  {
    var firstErrIdx := -1;
    for i := 0 to |slots|
      invariant -1 <= firstErrIdx < i
      invariant forall j :: 0 <= j < i && slots[j].Faulted? ==> IsCanceled(slots[j].fault)
      invariant firstErrIdx == -1 ==> forall j :: 0 <= j < i ==> slots[j].Value?
      invariant firstErrIdx >= 0 ==> slots[firstErrIdx].Faulted? && forall j :: 0 <= j < firstErrIdx ==> slots[j].Value?
    {
      if slots[i].Faulted? {
        if firstErrIdx == -1 {
          firstErrIdx := i;
        }
        if !IsCanceled(slots[i].fault) {
          return Some(i);
        }
      }
    }
    return if firstErrIdx != -1 then Some(firstErrIdx) else None;
  }

  /** Completing twice, as a resume does, finds its own keys and changes nothing. */
  lemma ReapplyingChangesNothing(slots: seq<Slot>, collectPartial: bool, before: map<Key, Datum>)
    ensures var data := Written(slots, collectPartial, before);
            && (forall k :: !Foreign(slots, collectPartial, data, k))
            && Written(slots, collectPartial, data) == data
  {
    hide Keyed;
    var data := Written(slots, collectPartial, before);
    forall k
      ensures !Foreign(slots, collectPartial, data, k)
      ensures k in Written(slots, collectPartial, data) <==> k in data
      ensures k in data ==> Written(slots, collectPartial, data)[k] == data[k]
    {
      KeyedIsExact(slots, |slots|, before, k);
      KeyedIsExact(slots, |slots|, data, k);
    }
  }

  /** The slots of a joined pool, in discovery order. */
  function Collected(s: Pool): (slots: seq<Slot>)
    requires forall i: nat :: i < s.n ==> i in s.slots
    ensures |slots| == s.n && forall i: nat :: i < s.n ==> slots[i] == s.slots[i]
  {
    seq(s.n, i requires 0 <= i < s.n => s.slots[i])
  }

  ghost predicate DrivenFault(s: Pool, slots: seq<Slot>, i: nat, canceled: bool) {
    i < |slots| && i in s.driven && slots[i].Faulted? && IsCanceled(slots[i].fault) == canceled
  }

  /**
    What the fan-in reports of a pool whose caller was not cancelled: failing fast it never masks a failure by a
    cancelled sibling, and a cancellation is reported only if a branch that ran returned one; collecting partial
    results, the failed list is exactly the driven branches that failed.
  */
  lemma FanInIsHonest(c: Config, n: nat, s: Pool, i: nat)
    requires Reachable(c, n, s) && Joined(s) && s.external.None?
    ensures s.n == n && forall j: nat :: j < n ==> j in s.slots
    ensures !c.collectPartial && IsRootCause(Collected(s), i) ==>
      if exists j :: DrivenFault(s, Collected(s), j, false) then DrivenFault(s, Collected(s), i, false)
      else exists j :: DrivenFault(s, Collected(s), j, true)
    ensures c.collectPartial ==>
      (i in Failing(Collected(s), n) <==> i in s.driven && i < n && s.slots[i].Faulted?)
  {
    hide Reachable, Bounded, Workers;
    ReachableInvariant(c, n, s);
    EveryIndexEnds(c, n, s);
    var slots := Collected(s);
    FailingIsExact(slots, n);
    if !c.collectPartial && IsRootCause(slots, i) {
      var j :| j in s.driven && j in s.slots && s.slots[j].Faulted?;
      assert DrivenFault(s, slots, j, IsCanceled(slots[j].fault));
      assert slots[i] == s.slots[i];
    }
  }
}

/** The signal mailbox, and the first-of(signal, timer) node's own code over the run's data. */
module Signals {
  import opened Names
  import opened Wrappers
  import opened Arithmetic

  type Payload = int

  datatype Signal = Signal(id: Name, name: Name, payload: Payload)

  // ---- The mailbox of one workflow ----

  const MAILBOX_CAP := 1048576

  datatype MailError = Validation | CorruptData

  class InMemoryStore {
    var box: map<Name, Signal>

    ghost predicate Valid()
      reads this
    {
      forall id :: id in box ==> box[id].id == id
    }

    constructor ()
      ensures Valid() && box == map[]
    {
      box := map[];
    }

    /** Delivery is idempotent by ID: a second delivery replaces the first and does not grow the mailbox. */
    method DeliverSignal(sig: Signal) returns (err: Option<MailError>)
      requires Valid()
      modifies this
      ensures Valid()
      ensures err == None <==> |old(box)| + (if sig.id in old(box) then 0 else 1) <= 1048576
      ensures err == None ==> |box| <= 1048576
      ensures box == if err == None then old(box)[sig.id := sig] else old(box)
    {
      var after := |box| + 1;
      if sig.id in box {
        after := |box|;
      }
      if after > MAILBOX_CAP {
        return Some(Validation);
      }
      assert sig.id in box ==> box[sig.id := sig].Keys == box.Keys;
      assert sig.id !in box ==> box[sig.id := sig].Keys == box.Keys + {sig.id};
      assert |box.Keys| == |box| && |box[sig.id := sig].Keys| == |box[sig.id := sig]|;
      box := box[sig.id := sig];
      return None;
    }

    /** The buffered signals in ID order; the mailbox is left as it is. */
    method TakeSignals() returns (r: Result<seq<Signal>, MailError>)
      requires Valid()
      ensures r.Ok? <==> |box| <= 1048576
      ensures r.Ok? ==> InOrder(r.value) && forall sig :: sig in r.value <==> sig.id in box && box[sig.id] == sig
    {
      if |box| > MAILBOX_CAP {
        return Err(CorruptData);
      }
      var ids: seq<Name> := [];
      var todo := box.Keys;
      while todo != {}
        invariant todo <= box.Keys
        invariant forall id :: id in ids <==> id in box.Keys - todo
        invariant forall i, j :: 0 <= i < j < |ids| ==> ids[i] != ids[j]
        decreases todo
      {
        var id :| id in todo;
        assert id !in ids;
        ids := ids + [id];
        todo := todo - {id};
      }
      SortNamesSorts(ids);
      var sorted := SortNames(ids);
      var b := box;
      forall i | 0 <= i < |sorted| ensures sorted[i] in b {
        assert sorted[i] in sorted;
      }
      var out := Lookup(b, sorted);
      assert forall i :: 0 <= i < |sorted| ==> out[i].id == sorted[i];
      forall sig ensures sig in out <==> sig.id in box && box[sig.id] == sig {
        if sig.id in box && box[sig.id] == sig {
          assert sig.id in sorted;
          var i :| 0 <= i < |sorted| && sorted[i] == sig.id;
          assert out[i] == sig;
        }
      }
      return Ok(out);
    }

    method AckSignals(ids: seq<Name>)
      requires Valid()
      modifies this
      ensures Valid() && box == old(box) - set id | id in ids
    {
      for i := 0 to |ids|
        invariant box == old(box) - set id | id in ids[..i]
      {
        assert ids[..i+1] == ids[..i] + [ids[i]];
        box := box - {ids[i]};
      }
      assert ids[..|ids|] == ids;
    }
  }

  function Lookup(box: map<Name, Signal>, ids: seq<Name>): (r: seq<Signal>)
    requires forall i :: 0 <= i < |ids| ==> ids[i] in box
    ensures |r| == |ids| && forall i :: 0 <= i < |ids| ==> r[i] == box[ids[i]]
  {
    seq(|ids|, i requires 0 <= i < |ids| => box[ids[i]])
  }

  ghost predicate InOrder(sigs: seq<Signal>) {
    forall i, j :: 0 <= i < j < |sigs| ==> Less(sigs[i].id, sigs[j].id)
  }

  // ---- Arming ----

  function Saturated(x: int): int {
    if x >= INT_LIMIT then INT_LIMIT - 1 else if x < -INT_LIMIT then -INT_LIMIT else x
  }

  /** The armed deadline: a 64-bit sum, with the two clamps of a wrapped one. */
  function FireAt(now: int, duration: int): int {
    var fireAt := Wrap64(now + duration);
    if duration > 0 && fireAt <= now then INT_LIMIT - 1
    else if duration < 0 && fireAt > now then -INT_LIMIT
    else fireAt
  }

  /** The deadline is saturating 64-bit addition. */
  lemma FireAtSaturates(now: int, duration: int)
    requires -0x8000_0000_0000_0000 <= now <= 0x7fff_ffff_ffff_ffff
    requires -0x8000_0000_0000_0000 <= duration <= 0x7fff_ffff_ffff_ffff
    ensures FireAt(now, duration) == Saturated(now + duration)
    ensures FireAt(now, duration) ==
      if now + duration > 0x7fff_ffff_ffff_ffff then 0x7fff_ffff_ffff_ffff
      else if now + duration < -0x8000_0000_0000_0000 then -0x8000_0000_0000_0000
      else now + duration
  {
  }

  // ---- First of signal and timer ----

  datatype Verdict = Done | Suspended

  /** The first signal of that name in the list. */
  function FirstNamed(sigs: seq<Signal>, name: Name): Option<Signal> {
    if sigs == [] then None
    else if sigs[0].name == name then Some(sigs[0])
    else FirstNamed(sigs[1..], name)
  }

  lemma {:induction false} FirstNamedIsLeast(sigs: seq<Signal>, name: Name)
    requires InOrder(sigs)
    ensures var r := FirstNamed(sigs, name);
            if r.Some? then r.value in sigs && r.value.name == name
                            && forall sig :: sig in sigs && sig.name == name && sig != r.value
                                ==> Less(r.value.id, sig.id)
            else forall sig :: sig in sigs ==> sig.name != name
  {
    if sigs != [] && sigs[0].name != name {
      FirstNamedIsLeast(sigs[1..], name);
      assert forall sig :: sig in sigs ==> sig == sigs[0] || sig in sigs[1..];
    } else if sigs != [] {
      forall sig | sig in sigs && sig != sigs[0] ensures Less(sigs[0].id, sig.id) {
        var i :| 0 <= i < |sigs| && sigs[i] == sig;
      }
    }
  }

  class WorkflowData {
    var waits: map<Name, int>
    var payloads: map<Name, Payload>
    var timedOut: set<Name>
    var consumed: seq<Name>

    constructor ()
    {
      waits, payloads, timedOut, consumed := map[], map[], {}, [];
    }

    /**
      One encounter. A buffered signal wins first, armed or not; else the first encounter arms and parks; else a
      passed deadline completes the timeout arm; else the node parks again.
    */
    method WaitForSignalOrTimeout(node: Name, signalName: Name, duration: int, sigs: seq<Signal>, now: int)
      returns (v: Verdict)
      requires IsInt64(now) && IsInt64(duration)
      modifies this
      ensures var sig := FirstNamed(sigs, signalName);
        if sig.Some? then
          && v == Done && payloads == old(payloads)[node := sig.value.payload]
              && consumed == old(consumed) + [sig.value.id]
          && waits == old(waits) - {node} && timedOut == old(timedOut)
        else if node !in old(waits) then
          && v == Suspended && waits == old(waits)[node := Saturated(now + duration)]
          && payloads == old(payloads) && timedOut == old(timedOut) && consumed == old(consumed)
        else if now >= old(waits)[node] then
          && v == Done && timedOut == old(timedOut) + {node} && waits == old(waits) - {node}
          && payloads == old(payloads) && consumed == old(consumed)
        else
          && v == Suspended && waits == old(waits) && payloads == old(payloads) && timedOut == old(timedOut)
          && consumed == old(consumed)
    {
      for i := 0 to |sigs|
        invariant waits == old(waits) && payloads == old(payloads) && timedOut == old(timedOut)
        invariant consumed == old(consumed)
        invariant FirstNamed(sigs, signalName) == FirstNamed(sigs[i..], signalName)
      {
        var sig := sigs[i];
        assert sigs[i..][1..] == sigs[i+1..];
        if sig.name == signalName {
          payloads := payloads[node := sig.payload];
          consumed := consumed + [sig.id];
          waits := waits - {node};
          return Done;
        }
      }
      if node !in waits {
        var fireAt := Wrap64(now + duration);
        if duration > 0 && fireAt <= now {
          fireAt := INT_LIMIT - 1;
        } else if duration < 0 && fireAt > now {
          fireAt := -INT_LIMIT;
        }
        FireAtSaturates(now, duration);
        waits := waits[node := fireAt];
        return Suspended;
      }
      if now >= waits[node] {
        timedOut := timedOut + {node};
        waits := waits - {node};
        return Done;
      }
      return Suspended;
    }
  }
}

/** Batched durability: checkpoints of a run are written only every K-th time, with a forced flush and a full save. */
module GroupCommit {
  import opened Wrappers
  import opened Arithmetic

  type Id = string

  /** The serialized state of a run. */
  type Data = int

  /** The K of the group commit; a store built without one is strict. */
  function Window(batchK: nat): (k: nat)
    ensures k >= 1
  {
    if batchK < 1 then 1 else batchK
  }

  // ---- One run, as the store sees it ----

  /**
    `accepted` is every checkpoint or save that returned nil, in order, and `durable` how many of them the file stands
    for; `clean` says that no write has failed since the counter started.
  */
  datatype Run = Run(accepted: seq<Data>, durable: nat, disk: Option<Data>, pending: Option<Data>, count: nat,
                     clean: bool)

  function AtRisk(r: Run): int { |r.accepted| - r.durable }

  /** The disk holds a complete accepted checkpoint; a pending one is the last accepted and newer than the disk. */
  ghost predicate Sound(r: Run, k: nat)
    requires k >= 1
  {
    && r.durable <= |r.accepted|
    && r.disk == (if r.durable == 0 then None else Some(r.accepted[r.durable - 1]))
    && r.pending == (if r.durable == |r.accepted| then None else Some(r.accepted[|r.accepted| - 1]))
    && (r.clean ==> AtRisk(r) <= r.count % k)
  }

  /** A write that stands for everything accepted, the new state included. */
  function Written(r: Run, accepted: seq<Data>, data: Data): Run {
    r.(accepted := accepted, durable := |accepted|, disk := Some(data), pending := None)
  }

  function Checkpointed(r: Run, data: Data, k: nat, writes: bool): Run
    requires k >= 1
  {
    var counted := r.(count := r.count + 1);
    if counted.count % k != 0 then counted.(accepted := r.accepted + [data], pending := Some(data))
    else if writes then Written(counted, r.accepted + [data], data)
    else counted.(clean := false)
  }

  function Synced(r: Run, writes: bool): Run {
    if r.pending.None? then r
    else if writes then Written(r, r.accepted, r.pending.value)
    else r.(clean := false)
  }

  function Saved(r: Run, data: Data, writes: bool): Run {
    if writes then Written(r, r.accepted + [data], data).(count := 0, clean := true) else r.(clean := false)
  }

  /** What a restarted process finds. */
  function Restarted(r: Run): Run {
    Run(if r.durable <= |r.accepted| then r.accepted[..r.durable] else r.accepted, r.durable, r.disk, None, 0, true)
  }

  lemma CheckpointedIsSound(r: Run, data: Data, k: nat, writes: bool)
    requires k >= 1 && Sound(r, k)
    ensures Sound(Checkpointed(r, data, k, writes), k)
  {
    if (r.count + 1) % k != 0 {
      NextCount(r.count, k);
    }
  }

  lemma SyncedIsSound(r: Run, k: nat, writes: bool)
    requires k >= 1 && Sound(r, k)
    ensures Sound(Synced(r, writes), k)
  {
  }

  lemma SavedIsSound(r: Run, data: Data, k: nat, writes: bool)
    requires k >= 1 && Sound(r, k)
    ensures Sound(Saved(r, data, writes), k)
  {
  }

  lemma RestartedIsSound(r: Run, k: nat)
    requires k >= 1 && Sound(r, k)
    ensures Sound(Restarted(r), k)
  {
  }

  /** Sync returning nil means that the last accepted checkpoint is on disk; a refused flush keeps its state. */
  lemma SyncIsTheFloor(r: Run, k: nat, writes: bool)
    requires k >= 1 && Sound(r, k)
    ensures var s := Synced(r, writes);
            if writes || r.pending.None?
            then AtRisk(s) == 0 && (r.accepted != [] ==> s.disk == Some(r.accepted[|r.accepted| - 1]))
              && s.accepted == r.accepted
            else s.pending == r.pending && s.disk == r.disk && s.accepted == r.accepted && AtRisk(s) == AtRisk(r) > 0
  {
  }

  /** With no failed write a crash keeps all but the last K-1 accepted checkpoints. */
  lemma CrashLosesLessThanK(r: Run, k: nat)
    requires k >= 1 && Sound(r, k) && r.clean
    ensures Restarted(r).accepted <= r.accepted && |r.accepted| - |Restarted(r).accepted| <= k - 1
  {
  }

  lemma NextCount(n: nat, k: nat)
    requires k >= 1 && (n + 1) % k != 0
    ensures (n + 1) % k == n % k + 1
  {
    var q, r := n / k, n % k;
    assert n + 1 == q * k + (r + 1);
    if r + 1 == k {
      assert n + 1 == (q + 1) * k;
      QuotientIs(n + 1, k, q + 1, 0);
    } else {
      QuotientIs(n + 1, k, q, r + 1);
    }
  }

  // ---- The store ----

  function Lookup(m: map<Id, Data>, id: Id): Option<Data> {
    if id in m then Some(m[id]) else None
  }

  /** The maps of the store, and ghost maps of what it accepted. */
  class FlatBuffersStore {
    const batchK: nat
    var ckptCount: map<Id, nat>
    var pending: map<Id, Data>
    var disk: map<Id, Data>
    ghost var accepted: map<Id, seq<Data>>
    ghost var durable: map<Id, nat>
    ghost var failed: set<Id>

    ghost function RunOf(id: Id): Run
      reads this
    {
      Run(if id in accepted then accepted[id] else [], if id in durable then durable[id] else 0,
          Lookup(disk, id), Lookup(pending, id), if id in ckptCount then ckptCount[id] else 0, id !in failed)
    }

    ghost predicate Valid()
      reads this
    {
      forall id :: Sound(RunOf(id), Window(batchK))
    }

    constructor (batchK: nat)
      ensures this.batchK == batchK && Valid()
      ensures forall id :: RunOf(id) == Run([], 0, None, None, 0, true)
    {
      this.batchK := batchK;
      ckptCount, pending, disk := map[], map[], map[];
      accepted, durable, failed := map[], map[], {};
    }

    /** A method that changed one run only, and kept it sound, keeps the store valid. */
    twostate lemma StaysValid(id: Id)
      requires old(Valid()) && Sound(RunOf(id), Window(batchK))
      requires forall other :: other != id ==> RunOf(other) == old(RunOf(other))
      ensures Valid()
    {
      hide Sound;
    }

    /** The atomic write: on success it replaces the file, and clears what was pending. */
    method WriteFullSnapshot(id: Id, data: Data, ghost all: seq<Data>, writes: bool) returns (ok: bool)
      modifies this`disk, this`pending, this`accepted, this`durable, this`failed
      ensures ok == writes
      ensures RunOf(id) == if writes then Written(old(RunOf(id)), all, data) else old(RunOf(id)).(clean := false)
      ensures forall other :: other != id ==> RunOf(other) == old(RunOf(other))
    {
      if !writes {
        failed := failed + {id};
        return false;
      }
      disk := disk[id := data];
      pending := pending - {id};
      accepted := accepted[id := all];
      durable := durable[id := |all|];
      return true;
    }

    method SetPendingCheckpoint(id: Id, data: Data)
      modifies this`pending, this`accepted
      ensures RunOf(id) == old(RunOf(id)).(accepted := old(RunOf(id)).accepted + [data], pending := Some(data))
      ensures forall other :: other != id ==> RunOf(other) == old(RunOf(other))
    {
      pending := pending[id := data];
      accepted := accepted[id := RunOf(id).accepted + [data]];
    }

    method CountUp(id: Id) returns (count: nat)
      modifies this`ckptCount
      ensures count == old(RunOf(id)).count + 1 && RunOf(id) == old(RunOf(id)).(count := count)
      ensures forall other :: other != id ==> RunOf(other) == old(RunOf(other))
    {
      count := (if id in ckptCount then ckptCount[id] else 0) + 1;
      ckptCount := ckptCount[id := count];
    }

    method SaveCheckpoint(id: Id, data: Data, writes: bool) returns (ok: bool)
      requires Valid()
      modifies this
      ensures Valid() && RunOf(id) == Checkpointed(old(RunOf(id)), data, Window(batchK), writes)
      ensures forall other :: other != id ==> RunOf(other) == old(RunOf(other))
      ensures ok <==> RunOf(id).accepted == old(RunOf(id)).accepted + [data]
      ensures RunOf(id).count == old(RunOf(id)).count + 1
      ensures batchK <= 1 || RunOf(id).count % batchK == 0 ==>
        if writes then ok && RunOf(id).disk == Some(data) && RunOf(id).pending == None
        else !ok && RunOf(id).disk == old(RunOf(id)).disk && RunOf(id).pending == old(RunOf(id)).pending
      ensures batchK > 1 && RunOf(id).count % batchK != 0 ==>
        ok && RunOf(id).disk == old(RunOf(id)).disk && RunOf(id).pending == Some(data)
    {
      hide Sound, RunOf;
      var k := Window(batchK);
      ghost var r := RunOf(id);
      CheckpointedIsSound(r, data, k, writes);
      var count := CountUp(id);
      if k == 1 || count % k == 0 {
        ok := WriteFullSnapshot(id, data, r.accepted + [data], writes);
      } else {
        SetPendingCheckpoint(id, data);
        ok := true;
      }
      StaysValid(id);
    }

    method Sync(id: Id, writes: bool) returns (ok: bool)
      requires Valid()
      modifies this`disk, this`pending, this`accepted, this`durable, this`failed
      ensures Valid() && RunOf(id) == Synced(old(RunOf(id)), writes)
      ensures forall other :: other != id ==> RunOf(other) == old(RunOf(other))
      ensures ok <==> writes || old(RunOf(id)).pending.None?
      ensures if ok && old(RunOf(id)).pending.Some?
              then RunOf(id).disk == old(RunOf(id)).pending && RunOf(id).pending == None
              else RunOf(id).disk == old(RunOf(id)).disk && RunOf(id).pending == old(RunOf(id)).pending
    {
      hide Sound;
      ghost var r := RunOf(id);
      SyncedIsSound(r, Window(batchK), writes);
      if id !in pending {
        return true;
      }
      ok := WriteFullSnapshot(id, pending[id], r.accepted, writes);
      StaysValid(id);
    }

    /** A full save supersedes what was pending and ends the batch window. */
    method Save(id: Id, data: Data, writes: bool) returns (ok: bool)
      requires Valid()
      modifies this
      ensures Valid() && RunOf(id) == Saved(old(RunOf(id)), data, writes)
      ensures forall other :: other != id ==> RunOf(other) == old(RunOf(other))
      ensures ok == writes
      ensures if ok then RunOf(id).disk == Some(data) && RunOf(id).pending == None && RunOf(id).count == 0
              else RunOf(id).disk == old(RunOf(id)).disk && RunOf(id).pending == old(RunOf(id)).pending
    {
      hide Sound, RunOf;
      ghost var r := RunOf(id);
      SavedIsSound(r, data, Window(batchK), writes);
      ok := WriteFullSnapshot(id, data, r.accepted + [data], writes);
      if ok {
        ClearCount(id);
      }
      StaysValid(id);
    }

    method ClearCount(id: Id)
      modifies this`ckptCount, this`failed
      ensures RunOf(id) == old(RunOf(id)).(count := 0, clean := true)
      ensures forall other :: other != id ==> RunOf(other) == old(RunOf(other))
    {
      ckptCount := ckptCount - {id};
      failed := failed - {id};
    }

    /** The process dies: counters and pending states are gone, files are not. */
    method Crash()
      requires Valid()
      modifies this
      ensures Valid() && disk == old(disk)
      ensures forall id :: RunOf(id) == Restarted(old(RunOf(id)))
    {
      hide Sound;
      forall id ensures Sound(Restarted(RunOf(id)), Window(batchK)) {
        RestartedIsSound(RunOf(id), Window(batchK));
      }
      ghost var kept := map id | id in accepted :: Restarted(RunOf(id)).accepted;
      ckptCount, pending, failed := map[], map[], {};
      accepted := kept;
      forall id ensures RunOf(id) == Restarted(old(RunOf(id))) { }
    }
  }

  datatype Op =
    | Checkpoint(id: Id, data: Data, writes: bool)
    | Flush(id: Id, writes: bool)
    | FullSave(id: Id, data: Data, writes: bool)
    | Die

  predicate WritesSucceed(op: Op) {
    !op.Die? ==> op.writes
  }

  /**
    Under any sequence of batched saves, flushes, full saves, write failures and crashes every run stays sound; when no
    write fails, a crash right after it would lose at most K-1 accepted checkpoints of each run, and none for K = 0.
  */
  method RunAll(batchK: nat, ops: seq<Op>) returns (store: FlatBuffersStore)
    ensures store.Valid() && store.batchK == batchK
    ensures (forall op :: op in ops ==> WritesSucceed(op)) ==>
      forall id :: |store.RunOf(id).accepted| - store.RunOf(id).durable <= if batchK == 0 then 0 else batchK - 1
  {
    hide Sound;
    store := new FlatBuffersStore(batchK);
    for i := 0 to |ops|
      invariant fresh(store) && store.Valid() && store.batchK == batchK
      invariant (forall op :: op in ops ==> WritesSucceed(op)) ==> forall id :: store.RunOf(id).clean
    {
      assert ops[i] in ops;
      match ops[i] {
        case Checkpoint(id, data, writes) => var _ := store.SaveCheckpoint(id, data, writes);
        case Flush(id, writes) => var _ := store.Sync(id, writes);
        case FullSave(id, data, writes) => var _ := store.Save(id, data, writes);
        case Die => store.Crash();
      }
    }
    forall id | store.RunOf(id).clean ensures AtRisk(store.RunOf(id)) <= Window(batchK) - 1 {
      CleanRisk(store.RunOf(id), Window(batchK));
    }
  }

  lemma CleanRisk(r: Run, k: nat)
    requires k >= 1 && Sound(r, k) && r.clean
    ensures AtRisk(r) <= k - 1
  {
  }
}

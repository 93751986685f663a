/**
  The drive lease: a refcounted registry of one-slot locks, one per workflow ID, and the composite lock that takes a
  durable claim on top of it. Any number of threads interleave at the granularity of the registry mutex and of one
  channel operation.
*/
module Lease {
  import opened Wrappers
  import opened Sets

  type Id = string

  type Thread = nat

  /** `full` says the capacity-1 channel holds its token, that is, the lease is taken. */
  datatype Entry = Entry(refs: int, full: bool)

  /** Entries are told apart by their identity, since an ID may be dropped and later get a new entry. */
  datatype Registry = Registry(locks: map<Id, nat>, entries: map<nat, Entry>)

  /** Where a thread is inside Acquire, its drive, and release. */
  datatype Pc =
    | Idle
    | Reserved(id: Id, e: nat)
    | Waiting(id: Id, e: nat)
    | Acquired(id: Id, e: nat)
    | Driving(id: Id, e: nat)
    | Releasing(id: Id, e: nat)
    | Dropping(id: Id, e: nat)

  datatype State = State(registry: Registry, threads: map<Thread, Pc>)

  function PcOf(s: State, t: Thread): Pc {
    if t in s.threads then s.threads[t] else Idle
  }

  predicate Holds(pc: Pc) { pc.Acquired? || pc.Driving? || pc.Releasing? }

  const INITIAL := State(Registry(map[], map[]), map[])

  datatype Event =
    | Reserve(t: Thread, id: Id, unused: nat)
    | TryLock(t: Thread)
    | Lock(t: Thread)
    | GiveUp(t: Thread)
    | Claim(t: Thread, ok: bool)
    | EndDrive(t: Thread)
    | Unlock(t: Thread)
    | DropRef(t: Thread)

  // ---- The registry's own operations ----

  function Reserving(r: Registry, id: Id, unused: nat): Registry
    requires id in r.locks ==> r.locks[id] in r.entries
  {
    var e := if id in r.locks then r.locks[id] else unused;
    var entry := if id in r.locks then r.entries[e] else Entry(0, false);
    Registry(r.locks[id := e], r.entries[e := entry.(refs := entry.refs + 1)])
  }

  function SettingFull(r: Registry, e: nat, full: bool): Registry
    requires e in r.entries
  {
    r.(entries := r.entries[e := r.entries[e].(full := full)])
  }

  function Released(r: Registry, id: Id, e: nat): Registry
    requires e in r.entries
  {
    var left := r.entries[e].refs - 1;
    Registry(if left == 0 then r.locks - {id} else r.locks, r.entries[e := r.entries[e].(refs := left)])
  }

  /** The registry in place: each method is one critical section, or one channel operation. */
  class InProcessLocker {
    var locks: map<Id, nat>
    var entries: map<nat, Entry>

    constructor ()
      ensures Value() == INITIAL.registry
    {
      locks, entries := map[], map[];
    }

    function Value(): Registry
      reads this
    {
      Registry(locks, entries)
    }

    /** Bumps the reference before the drive lock is tried, creating the entry if the ID has none. */
    method ReserveEntry(id: Id, unused: nat) returns (e: nat)
      requires (id in locks ==> locks[id] in entries) && unused !in entries
      modifies this
      ensures Value() == Reserving(old(Value()), id, unused)
      ensures id in locks && e == locks[id]
    {
      if id !in locks {
        entries := entries[unused := Entry(0, false)];
        locks := locks[id := unused];
      }
      e := locks[id];
      entries := entries[e := entries[e].(refs := entries[e].refs + 1)];
      assert locks == old(locks)[id := e];
      assert entries == Reserving(old(Value()), id, unused).entries;
    }

    /** A send that does not block. */
    method TrySend(e: nat) returns (sent: bool)
      requires e in entries
      modifies this`entries
      ensures sent <==> !old(entries)[e].full
      ensures Value() == if sent then SettingFull(old(Value()), e, true) else old(Value())
    {
      sent := !entries[e].full;
      if sent { entries := entries[e := entries[e].(full := true)]; }
    }

    method Receive(e: nat)
      requires e in entries && entries[e].full
      modifies this`entries
      ensures Value() == SettingFull(old(Value()), e, false)
    {
      entries := entries[e := entries[e].(full := false)];
    }

    method DropReference(id: Id, e: nat)
      requires e in entries
      modifies this
      ensures Value() == Released(old(Value()), id, e)
    {
      entries := entries[e := entries[e].(refs := entries[e].refs - 1)];
      if entries[e].refs == 0 {
        locks := locks - {id};
      }
    }
  }

  // ---- The machine ----

  predicate Enabled(s: State, ev: Event) {
    var pc := PcOf(s, ev.t);
    (!pc.Idle? ==> pc.e in s.registry.entries) &&
    match ev
    case Reserve(_, id, unused) =>
      pc.Idle? && unused !in s.registry.entries && (id in s.registry.locks
        ==> s.registry.locks[id] in s.registry.entries)
    case TryLock(_) => pc.Reserved?
    case Lock(_) => pc.Waiting? && !s.registry.entries[pc.e].full
    case GiveUp(_) => pc.Waiting?
    case Claim(_, _) => pc.Acquired?
    case EndDrive(_) => pc.Driving?
    case Unlock(_) => pc.Releasing? && s.registry.entries[pc.e].full
    case DropRef(_) => pc.Dropping?
  }

  function Apply(s: State, ev: Event): State
    requires Enabled(s, ev)
  {
    var r, pc := s.registry, PcOf(s, ev.t);
    match ev
    case Reserve(t, id, unused) =>
      var r' := Reserving(r, id, unused);
      State(r', s.threads[t := Reserved(id, r'.locks[id])])
    case TryLock(t) =>
      if r.entries[pc.e].full then s.(threads := s.threads[t := Waiting(pc.id, pc.e)])
      else State(SettingFull(r, pc.e, true), s.threads[t := Acquired(pc.id, pc.e)])
    case Lock(t) => State(SettingFull(r, pc.e, true), s.threads[t := Acquired(pc.id, pc.e)])
    case GiveUp(t) => s.(threads := s.threads[t := Dropping(pc.id, pc.e)])
    case Claim(t, ok) => s.(threads := s.threads[t := if ok then Driving(pc.id, pc.e) else Releasing(pc.id, pc.e)])
    case EndDrive(t) => s.(threads := s.threads[t := Releasing(pc.id, pc.e)])
    case Unlock(t) => State(SettingFull(r, pc.e, false), s.threads[t := Dropping(pc.id, pc.e)])
    case DropRef(t) => State(Released(r, pc.id, pc.e), s.threads[t := Idle])
  }

  ghost predicate Legal(s: State, es: seq<Event>)
    decreases |es|
  {
    es == [] || (Enabled(s, es[0]) && Legal(Apply(s, es[0]), es[1..]))
  }

  ghost function After(s: State, es: seq<Event>): State
    requires Legal(s, es)
    decreases |es|
  {
    if es == [] then s else After(Apply(s, es[0]), es[1..])
  }

  ghost predicate Reachable(s: State) {
    exists es :: Legal(INITIAL, es) && After(INITIAL, es) == s
  }

  // ---- What every state keeps ----

  predicate Uses(s: State, t: Thread, e: nat) {
    var pc := PcOf(s, t);
    !pc.Idle? && pc.e == e
  }

  function Users(s: State, e: nat): set<Thread> {
    set t | t in s.threads && Uses(s, t, e)
  }

  /** A thread inside Acquire or its drive refers to the entry its ID is registered under. */
  ghost predicate Registered(s: State) {
    && (forall t :: var pc := PcOf(s, t); !pc.Idle? ==> pc.id in s.registry.locks && s.registry.locks[pc.id] == pc.e)
    && (forall id :: id in s.registry.locks ==> s.registry.locks[id] in s.registry.entries)
    && (forall id, id' ::
          id in s.registry.locks && id' in s.registry.locks && s.registry.locks[id] == s.registry.locks[id']
          ==> id == id')
  }

  /** An entry's count is the number of its holders and waiters; a registered entry has at least one. */
  ghost predicate Counted(s: State) {
    && (forall e :: e in s.registry.entries ==> s.registry.entries[e].refs == |Users(s, e)|)
    && (forall id :: id in s.registry.locks ==> Users(s, s.registry.locks[id]) != {})
  }

  /** An entry is full exactly while one thread, and one only, holds it. */
  ghost predicate Exclusive(s: State) {
    && (forall t :: Holds(PcOf(s, t)) ==> PcOf(s, t).e in s.registry.entries && s.registry.entries[PcOf(s, t).e].full)
    && (forall e :: e in s.registry.entries && s.registry.entries[e].full ==> HasHolder(s, e))
    && (forall t, u :: Holds(PcOf(s, t)) && Holds(PcOf(s, u)) && PcOf(s, t).e == PcOf(s, u).e ==> t == u)
  }

  ghost predicate HasHolder(s: State, e: nat) {
    exists t :: Holds(PcOf(s, t)) && PcOf(s, t).e == e
  }

  ghost predicate Invariant(s: State) {
    Registered(s) && Counted(s) && Exclusive(s)
  }

  lemma UsersOthers(s: State, s': State, t: Thread, e: nat)
    requires forall u :: u != t ==> PcOf(s', u) == PcOf(s, u)
    ensures Users(s', e) == (Users(s, e) - {t}) + if Uses(s', t, e) then {t} else {}
  {
    forall u ensures u in Users(s', e) <==> (u in Users(s, e) && u != t) || (u == t && Uses(s', t, e)) {
      assert PcOf(s', u) != Idle ==> u in s'.threads;
      assert PcOf(s, u) != Idle ==> u in s.threads;
    }
  }

  lemma UserIn(s: State, t: Thread, e: nat)
    ensures t in Users(s, e) <==> Uses(s, t, e)
  {
  }

  lemma OthersKeep(s: State, ev: Event)
    requires Enabled(s, ev)
    ensures forall u :: u != ev.t ==> PcOf(Apply(s, ev), u) == PcOf(s, u)
  {
  }

  lemma DropRegistered(s: State, t: Thread)
    requires Registered(s) && Counted(s) && Enabled(s, DropRef(t))
    ensures Registered(Apply(s, DropRef(t)))
  {
    var s' := Apply(s, DropRef(t));
    var pc := PcOf(s, t);
    OthersKeep(s, DropRef(t));
    forall u | u != t && !PcOf(s', u).Idle? ensures PcOf(s', u).id in s'.registry.locks {
      if PcOf(s', u).id == pc.id {
        TwoUsers(s, t, u, pc.e);
      }
    }
  }

  lemma TwoUsers(s: State, t: Thread, u: Thread, e: nat)
    requires t != u && Uses(s, t, e) && Uses(s, u, e)
    ensures |Users(s, e)| > 1
  {
    SubsetSize({t, u}, Users(s, e));
  }

  lemma RegisteredStep(s: State, ev: Event)
    requires Invariant(s) && Enabled(s, ev)
    ensures Registered(Apply(s, ev))
  {
    hide Exclusive, Counted;
    OthersKeep(s, ev);
    if ev.DropRef? {
      DropRegistered(s, ev.t);
    }
  }

  function Refs(s: State, e: nat): int {
    if e in s.registry.entries then s.registry.entries[e].refs else 0
  }

  function One(b: bool): int { if b then 1 else 0 }

  /** Each step moves an entry's count by what it does to the thread's own use of it. */
  lemma RefsFollow(s: State, ev: Event, e: nat)
    requires Registered(s) && Enabled(s, ev)
    ensures Refs(Apply(s, ev), e) == Refs(s, e) - One(Uses(s, ev.t, e)) + One(Uses(Apply(s, ev), ev.t, e))
  {
  }

  lemma CountedStep(s: State, ev: Event)
    requires Invariant(s) && Enabled(s, ev)
    ensures Counted(Apply(s, ev))
  {
    hide Exclusive, Users, Apply, Enabled, Uses;
    var s' := Apply(s, ev);
    OthersKeep(s, ev);
    forall e | e in s'.registry.entries ensures Refs(s', e) == |Users(s', e)| {
      UsersOthers(s, s', ev.t, e);
      UserIn(s, ev.t, e);
      RefsFollow(s, ev, e);
      if e !in s.registry.entries { NoUsers(s, e); }
    }
    forall id | id in s'.registry.locks ensures Users(s', s'.registry.locks[id]) != {} {
      UsersOthers(s, s', ev.t, s'.registry.locks[id]);
      StillUsed(s, ev, id);
    }
  }

  lemma StillUsed(s: State, ev: Event, id: Id)
    requires Invariant(s) && Enabled(s, ev) && id in Apply(s, ev).registry.locks
    ensures var e := Apply(s, ev).registry.locks[id];
            Uses(Apply(s, ev), ev.t, e) || Users(s, e) - {ev.t} != {}
  {
    hide Exclusive, Users;
    var e := Apply(s, ev).registry.locks[id];
    UserIn(s, ev.t, e);
    if Users(s, e) - {ev.t} == {} && id in s.registry.locks && s.registry.locks[id] == e {
      assert Users(s, e) == {ev.t};
    }
  }

  lemma NoUsers(s: State, e: nat)
    requires Registered(s) && e !in s.registry.entries
    ensures Users(s, e) == {}
  {
  }

  lemma ExclusiveStep(s: State, ev: Event)
    requires Invariant(s) && Enabled(s, ev)
    ensures Exclusive(Apply(s, ev))
  {
    hide Users, Counted;
    var s' := Apply(s, ev);
    OthersKeep(s, ev);
    forall e | e in s'.registry.entries && s'.registry.entries[e].full ensures HasHolder(s', e) {
      if Holds(PcOf(s', ev.t)) && PcOf(s', ev.t).e == e {
      } else {
        assert e in s.registry.entries && s.registry.entries[e].full;
        var t :| Holds(PcOf(s, t)) && PcOf(s, t).e == e;
        assert Holds(PcOf(s', t)) && PcOf(s', t).e == e;
      }
    }
  }

  lemma InvariantStep(s: State, ev: Event)
    requires Invariant(s) && Enabled(s, ev)
    ensures Invariant(Apply(s, ev))
  {
    hide Registered, Counted, Exclusive, Enabled, Apply;
    RegisteredStep(s, ev);
    CountedStep(s, ev);
    ExclusiveStep(s, ev);
  }

  lemma {:induction false} InvariantAfter(s: State, es: seq<Event>)
    requires Invariant(s) && Legal(s, es)
    ensures Invariant(After(s, es))
    decreases |es|
  {
    hide Invariant, Enabled, Apply;
    if es != [] {
      InvariantStep(s, es[0]);
      InvariantAfter(Apply(s, es[0]), es[1..]);
    }
  }

  lemma ReachableInvariant(s: State)
    requires Reachable(s)
    ensures Invariant(s)
  {
    hide Enabled, Apply;
    var es :| Legal(INITIAL, es) && After(INITIAL, es) == s;
    InvariantAfter(INITIAL, es);
  }

  // ---- The lease's guarantees ----

  /** At any time at most one thread holds the lease of a workflow ID. */
  lemma OneHolderPerId(s: State, t: Thread, u: Thread)
    requires Reachable(s) && (PcOf(s, t).Acquired? || PcOf(s, t).Driving? || PcOf(s, t).Releasing?)
    requires (PcOf(s, u).Acquired? || PcOf(s, u).Driving? || PcOf(s, u).Releasing?) && PcOf(s, t).id == PcOf(s, u).id
    ensures t == u
  {
    hide Reachable, Counted;
    ReachableInvariant(s);
  }

  /** The registry holds exactly the IDs some thread holds or waits for, each with the number of those threads. */
  lemma RegistryIsExact(s: State, id: Id)
    requires Reachable(s)
    ensures id in s.registry.locks <==> exists t :: !PcOf(s, t).Idle? && PcOf(s, t).id == id
    ensures id in s.registry.locks ==>
      && s.registry.locks[id] in s.registry.entries
      && s.registry.entries[s.registry.locks[id]].refs == |set t | t in s.threads && !PcOf(s, t).Idle?
          && PcOf(s, t).id == id|
  {
    hide Reachable, Exclusive;
    ReachableInvariant(s);
    if id in s.registry.locks {
      var e := s.registry.locks[id];
      var t :| t in Users(s, e);
      assert Uses(s, t, e) && PcOf(s, t).id == id;
      assert Users(s, e) == set t | t in s.threads && !PcOf(s, t).Idle? && PcOf(s, t).id == id;
    }
  }

  /** A taken lease is never stranded: some thread holds it, and whatever that thread still does ends in dropping it. */
  lemma TakenMeansHeld(s: State, t: Thread)
    requires Reachable(s) && PcOf(s, t).Waiting? && !Enabled(s, Lock(t))
    ensures exists u :: u != t && Holds(PcOf(s, u)) && PcOf(s, u).id == PcOf(s, t).id
  {
    hide Reachable, Counted;
    ReachableInvariant(s);
    assert HasHolder(s, PcOf(s, t).e);
    var u :| Holds(PcOf(s, u)) && PcOf(s, u).e == PcOf(s, t).e;
  }

  /** The first try takes the lease exactly if nobody holds it; otherwise the thread waits, and still may take it. */
  lemma FirstTryTakesIff(s: State, t: Thread)
    requires Reachable(s) && Enabled(s, TryLock(t))
    ensures var next := PcOf(Apply(s, TryLock(t)), t);
      && next.id == PcOf(s, t).id
      && (next.Acquired? <==>
           forall u :: PcOf(s, u).Acquired? || PcOf(s, u).Driving? || PcOf(s, u).Releasing?
             ==> PcOf(s, u).id != PcOf(s, t).id)
      && (!next.Acquired? ==> next.Waiting? && Enabled(Apply(s, TryLock(t)), GiveUp(t)))
  {
    hide Reachable, Counted;
    ReachableInvariant(s);
    var pc := PcOf(s, t);
    if s.registry.entries[pc.e].full {
      assert HasHolder(s, pc.e);
      var u :| Holds(PcOf(s, u)) && PcOf(s, u).e == pc.e;
      assert PcOf(s, u).id == pc.id;
    }
  }

  /** A failed outer claim gives the local lease back: the thread's remaining steps free the slot and its reference. */
  lemma FailedClaimReleases(s: State, t: Thread)
    requires Reachable(s) && Enabled(s, Claim(t, false))
    ensures var es := [Claim(t, false), Unlock(t), DropRef(t)];
            && Legal(s, es) && PcOf(After(s, es), t).Idle?
            && PcOf(s, t).e in After(s, es).registry.entries
            && !After(s, es).registry.entries[PcOf(s, t).e].full
            && After(s, es).registry.entries[PcOf(s, t).e].refs == s.registry.entries[PcOf(s, t).e].refs - 1
  {
    hide Reachable, Counted;
    ReachableInvariant(s);
    var s1 := Apply(s, Claim(t, false));
    InvariantStep(s, Claim(t, false));
    var s2 := Apply(s1, Unlock(t));
    var es := [Claim(t, false), Unlock(t), DropRef(t)];
    assert es[1..] == [Unlock(t), DropRef(t)] && es[1..][1..] == [DropRef(t)] && es[1..][1..][1..] == [];
    assert Legal(s2, [DropRef(t)]) && After(s2, [DropRef(t)]) == Apply(s2, DropRef(t));
    assert Legal(s1, es[1..]) && After(s1, es[1..]) == Apply(s2, DropRef(t));
  }

  /**
    The steps left to a thread that gives its lease back are never blocked, and no other thread's step takes them away:
    freeing the slot, then its reference, after which the ID is unregistered exactly if nobody else uses it.
  */
  lemma ReleaseIsNeverBlocked(s: State, t: Thread, ev: Event)
    requires Reachable(s) && Enabled(s, ev)
    ensures PcOf(s, t).Releasing? ==> Enabled(s, Unlock(t)) && PcOf(Apply(s, Unlock(t)), t).Dropping?
    ensures PcOf(s, t).Dropping? ==> Enabled(s, DropRef(t)) && PcOf(Apply(s, DropRef(t)), t).Idle?
    ensures ev.t != t ==> PcOf(Apply(s, ev), t) == PcOf(s, t)
    ensures ev == DropRef(t) ==>
      (PcOf(s, t).id !in Apply(s, ev).registry.locks <==>
         forall u :: u != t && !PcOf(s, u).Idle? ==> PcOf(s, u).id != PcOf(s, t).id)
  {
    hide Reachable, Users;
    ReachableInvariant(s);
    OthersKeep(s, ev);
    if ev == DropRef(t) {
      InvariantStep(s, ev);
      DroppedIffLast(s, t);
    }
  }

  lemma DroppedIffLast(s: State, t: Thread)
    requires Invariant(s) && Enabled(s, DropRef(t)) && Invariant(Apply(s, DropRef(t)))
    ensures PcOf(s, t).id !in Apply(s, DropRef(t)).registry.locks
       <==> forall u :: u != t && !PcOf(s, u).Idle? ==> PcOf(s, u).id != PcOf(s, t).id
  {
    hide Exclusive;
    var s', pc := Apply(s, DropRef(t)), PcOf(s, t);
    OthersKeep(s, DropRef(t));
    if pc.id in s'.registry.locks {
      var u :| u in Users(s', s'.registry.locks[pc.id]);
      assert u != t && !PcOf(s, u).Idle? && PcOf(s, u).id == pc.id;
    } else {
      forall u | u != t && !PcOf(s, u).Idle? ensures PcOf(s, u).id != pc.id {
        assert PcOf(s', u).id in s'.registry.locks;
      }
    }
  }

  // ---- The code under any interleaving ----

  /** One critical section or channel operation of the code, on behalf of a thread at `pc`. */
  method Perform(l: InProcessLocker, ghost s: State, ev: Event, pc: Pc) returns (next: Pc)
    requires l.Value() == s.registry && Invariant(s) && Enabled(s, ev) && pc == PcOf(s, ev.t)
    modifies l
    ensures l.Value() == Apply(s, ev).registry && next == PcOf(Apply(s, ev), ev.t)
  {
    match ev {
      case Reserve(_, id, unused) =>
        var e := l.ReserveEntry(id, unused);
        next := Reserved(id, e);
      case TryLock(_) =>
        var sent := l.TrySend(pc.e);
        next := if sent then Acquired(pc.id, pc.e) else Waiting(pc.id, pc.e);
      case Lock(_) =>
        var sent := l.TrySend(pc.e);
        next := Acquired(pc.id, pc.e);
      case GiveUp(_) => next := Dropping(pc.id, pc.e);
      case Claim(_, ok) => next := if ok then Driving(pc.id, pc.e) else Releasing(pc.id, pc.e);
      case EndDrive(_) => next := Releasing(pc.id, pc.e);
      case Unlock(_) =>
        l.Receive(pc.e);
        next := Dropping(pc.id, pc.e);
      case DropRef(_) =>
        l.DropReference(pc.id, pc.e);
        next := Idle;
    }
  }

  /**
    Over any interleaving of any number of threads the registry's code is in the machine's state, so what is proved of
    reachable states holds of it.
  */
  method Serve(evs: seq<Event>) returns (l: InProcessLocker, threads: map<Thread, Pc>)
    requires Legal(INITIAL, evs)
    ensures After(INITIAL, evs) == State(l.Value(), threads) && Reachable(State(l.Value(), threads))
  {
    hide Enabled, Apply, Invariant;
    l := new InProcessLocker();
    threads := map[];
    ghost var s := INITIAL;
    NothingYet();
    assert evs[0..] == evs;
    for i := 0 to |evs|
      invariant fresh(l) && s == State(l.Value(), threads) && Invariant(s)
      invariant Legal(s, evs[i..]) && After(INITIAL, evs) == After(s, evs[i..])
    {
      var ev := evs[i];
      assert evs[i..][0] == ev && evs[i..][1..] == evs[i+1..];
      var pc := if ev.t in threads then threads[ev.t] else Idle;
      InvariantStep(s, ev);
      ThreadsFollow(s, ev);
      var next := Perform(l, s, ev, pc);
      s := Apply(s, ev);
      threads := threads[ev.t := next];
    }
  }

  lemma NothingYet()
    ensures Invariant(INITIAL)
  {
  }

  lemma ThreadsFollow(s: State, ev: Event)
    requires Enabled(s, ev)
    ensures Apply(s, ev).threads == s.threads[ev.t := PcOf(Apply(s, ev), ev.t)]
  {
  }

  /** With every thread out of the lock the registry is empty again. */
  lemma IdleMeansEmpty(s: State)
    requires Reachable(s) && forall t :: PcOf(s, t).Idle?
    ensures s.registry.locks == map[]
  {
    hide Reachable;
    ReachableInvariant(s);
    forall id ensures id !in s.registry.locks {
      RegistryIsExact(s, id);
    }
  }
}

/** The schedule table and its fire transaction, raced by any number of pollers; each transaction is one atomic step. */
module Schedules {
  import opened Wrappers
  import opened Arithmetic
  import opened Intervals
  import Calendar
  import Cron
  import CronParse

  type Id = string

  datatype Kind = Oneshot | Interval(period: int) | CronSpec(schedule: Cron.Schedule) | Corrupt

  datatype Row = Row(kind: Kind, target: string, nextFire: int, paused: bool)

  datatype ItemState = Pending | Running | Parked | Finished

  datatype Item = Item(target: string, state: ItemState)

  /** The identity of a fire: the schedule and the slot it fired. */
  datatype RunId = RunId(schedule: Id, slot: int)

  datatype Caps = Caps(perType: map<string, int>, global: int)

  datatype State = State(rows: map<Id, Row>, queue: map<RunId, Item>, inserted: seq<RunId>)

  // ---- Where a row's next fire goes ----

  /** Nanoseconds from day 0 of the calendar to the Unix epoch. */
  const EPOCH_NANOS := Calendar.EPOCH_DAY * Cron.MINUTES_PER_DAY * Cron.NANOS_PER_MINUTE

  /** The new next fire of a due recurring row, or none for a spec that does not advance. */
  function Advance(kind: Kind, nextFire: int, now: int): Option<int> {
    match kind
    case Oneshot => Some(0)
    case Interval(period) => if period <= 0 then None else AdvanceInterval(period, nextFire, now)
    case CronSpec(schedule) =>
      (match Cron.NextFire(schedule, now + EPOCH_NANOS)
       case Some(t) => Some(Wrap64(t - EPOCH_NANOS))
       case None => None)
    case Corrupt => None
  }

  /** An interval slot: a whole number of periods from the old one. */
  ghost predicate IsSlot(nextFire: int, period: int, t: int) {
    exists k: nat :: t == nextFire + k * period
  }

  /**
    The advance of an interval that starts at or after the epoch is its least slot past now, or none if that overflows.
  */
  lemma IntervalAdvanceIsLeastSlot(period: int, nextFire: int, now: int, t: int)
    requires 0 < period < INT_LIMIT && 0 <= nextFire <= now < INT_LIMIT
    ensures var next := Advance(Interval(period), nextFire, now);
            && (next.Some? ==> next.value > now && IsSlot(nextFire, period, next.value))
            && (next.Some? && IsSlot(nextFire, period, t) && t > now ==> next.value <= t)
            && (next == None && IsSlot(nextFire, period, t) && t > now ==> !IsInt64(t))
  {
    hide AdvanceInterval, StepPast;
    ClosedFormIsLoop(period, nextFire, now);
    StepPastIs(nextFire, period, now);
    var q := (now - nextFire) / period;
    QuotientBounds(now - nextFire, period);
    assert StepPast(nextFire, period, now) == nextFire + (q + 1) * period;
    assert IsSlot(nextFire, period, StepPast(nextFire, period, now));
    if IsSlot(nextFire, period, t) && t > now {
      var k: nat :| t == nextFire + k * period;
      LaterSlot(now - nextFire, period, k);
      assert (k - q - 1) * period >= 0;
    }
  }

  lemma LaterSlot(a: int, p: int, k: int)
    requires p > 0 && k * p > a
    ensures k >= a / p + 1 && (k - a / p - 1) * p >= 0
  {
    var q := a / p;
    assert a == q * p + a % p;
    Scales(q - k, p);
    Scales(k - q - 1, p);
  }

  /**
    The advance of a cron row is the least minute past now that matches, wrapped to the 64-bit column; none exactly of a
    spec no minute satisfies.
  */
  lemma CronAdvanceIsLeastMatch(schedule: Cron.Schedule, nextFire: int, now: int) returns (t: int)
    ensures var next := Advance(CronSpec(schedule), nextFire, now);
            && (next == None <==> forall u :: !Cron.Matches(schedule, u))
            && (next.Some? ==>
                  && next.value == Wrap64(t - EPOCH_NANOS) && t - EPOCH_NANOS > now
                  && t % Cron.NANOS_PER_MINUTE == 0 && Cron.Matches(schedule, t / Cron.NANOS_PER_MINUTE)
                  && forall u :: u * Cron.NANOS_PER_MINUTE > now + EPOCH_NANOS && Cron.Matches(schedule, u)
                       ==> u * Cron.NANOS_PER_MINUTE >= t)
  {
    hide Cron.Matches, Wrap64;
    Cron.NextFireIsLeast(schedule, now + EPOCH_NANOS);
    var next := Cron.NextFire(schedule, now + EPOCH_NANOS);
    t := if next.Some? then next.value else 0;
  }

  // ---- Admission ----

  predicate Occupies(i: Item) { i.state == Running || i.state == Pending }

  function Population(queue: map<RunId, Item>, target: string): nat {
    |set r | r in queue && Occupies(queue[r]) && queue[r].target == target|
  }

  function Everyone(queue: map<RunId, Item>): nat {
    |set r | r in queue && Occupies(queue[r])|
  }

  predicate Capped(caps: Caps, target: string) {
    target != "" && target in caps.perType && caps.perType[target] > 0
  }

  predicate Admits(caps: Caps, queue: map<RunId, Item>, target: string) {
    && (Capped(caps, target) ==> Population(queue, target) < caps.perType[target])
    && (caps.global > 0 ==> Everyone(queue) < caps.global)
  }

  /** Admitted means that, counting what runs or is pending, there is room under the target's own cap and the global. */
  lemma AdmitsByCount(caps: Caps, queue: map<RunId, Item>, target: string)
    ensures Admits(caps, queue, target) <==>
      && (target != "" && target in caps.perType && caps.perType[target] > 0 ==>
            |set r | r in queue && queue[r].state in {Running, Pending} && queue[r].target == target|
              < caps.perType[target])
      && (caps.global > 0 ==> |set r | r in queue && queue[r].state in {Running, Pending}| < caps.global)
  {
    assert (set r | r in queue && queue[r].state in {Running, Pending} && queue[r].target == target)
        == (set r | r in queue && Occupies(queue[r]) && queue[r].target == target);
    assert (set r | r in queue && queue[r].state in {Running, Pending}) == (set r | r in queue && Occupies(queue[r]));
  }

  // ---- The fire transaction ----

  datatype FireResult = NotDue | LostClaim | CorruptSpec | Missed | Fired | Duplicate

  function Enqueued(s: State, run: RunId, target: string): State {
    if run in s.queue then s
    else s.(queue := s.queue[run := Item(target, Pending)], inserted := s.inserted + [run])
  }

  predicate Due(s: State, id: Id, now: int) {
    id in s.rows && !s.rows[id].paused && s.rows[id].nextFire <= now
  }

  /** One fire of schedule `id` at time `now`; `wins` says the lease was free or lapsed. */
  function Fire(caps: Caps, s: State, id: Id, now: int, wins: bool): (State, FireResult) {
    if !Due(s, id, now) then (s, NotDue)
    else if !wins then (s, LostClaim)
    else
      var row := s.rows[id];
      var admit := Admits(caps, s.queue, row.target);
      var run := RunId(id, row.nextFire);
      match Advance(row.kind, row.nextFire, now)
      case None => (s.(rows := s.rows[id := row.(paused := true)]), CorruptSpec)
      case Some(next) =>
        var s' := if admit then Enqueued(s, run, row.target) else s;
        var result := if !admit then Missed else if run in s.queue then Duplicate else Fired;
        if row.kind.Oneshot? then
          (if admit then s'.(rows := s.rows - {id}) else s, result)
        else (s'.(rows := s.rows[id := row.(nextFire := next)]), result)
  }

  /** A call that finds nothing due, or loses the claim, changes nothing. */
  lemma IdleFireChangesNothing(caps: Caps, s: State, id: Id, now: int, wins: bool)
    ensures var (s', result) := Fire(caps, s, id, now, wins);
      && (result == NotDue <==> id !in s.rows || s.rows[id].paused || s.rows[id].nextFire > now)
      && (result == LostClaim <==> result != NotDue && !wins)
      && (result == NotDue || result == LostClaim ==> s' == s)
  {
    hide Advance, Admits;
  }

  /**
    A due recurring row whose spec advances is enqueued when admitted: its run, named by the slot it was due for, is in
    the queue afterwards, pending and with its target when it is new, and the call reports a fire exactly then. Admitted
    or not, its next fire is the advance, and no other row changes.
  */
  lemma RecurringFireEnqueues(caps: Caps, s: State, id: Id, now: int)
    requires id in s.rows && !s.rows[id].paused && s.rows[id].nextFire <= now
    requires s.rows[id].kind.Interval? || s.rows[id].kind.CronSpec?
    requires Advance(s.rows[id].kind, s.rows[id].nextFire, now).Some?
    ensures var row := s.rows[id];
            var run := RunId(id, row.nextFire);
            var (s', result) := Fire(caps, s, id, now, true);
      && s'.rows == s.rows[id := row.(nextFire := Advance(row.kind, row.nextFire, now).value)]
      && (if !Admits(caps, s.queue, row.target) then
            result == Missed && s'.queue == s.queue && s'.inserted == s.inserted
          else if run in s.queue then
            result == Duplicate && s'.queue == s.queue && s'.inserted == s.inserted
          else
            result == Fired && s'.queue == s.queue[run := Item(row.target, Pending)]
              && s'.inserted == s.inserted + [run])
  {
    hide Advance, Admits;
  }

  /** The store's tables, changed by one transaction per call. */
  class SQLiteStore {
    const caps: Caps
    var rows: map<Id, Row>
    var queue: map<RunId, Item>
    ghost var inserted: seq<RunId>

    constructor (caps: Caps)
      ensures this.caps == caps && Tables() == State(map[], map[], [])
    {
      this.caps := caps;
      rows, queue, inserted := map[], map[], [];
    }

    ghost function Tables(): State
      reads this
    {
      State(rows, queue, inserted)
    }

    method EnqueueRun(run: RunId, target: string) returns (isNew: bool)
      modifies this`queue, this`inserted
      ensures Tables() == Enqueued(old(Tables()), run, target)
      ensures isNew <==> run !in old(queue)
    {
      isNew := run !in queue;
      if isNew {
        queue := queue[run := Item(target, Pending)];
        inserted := inserted + [run];
      }
    }

    method CapAdmits(target: string) returns (admit: bool)
      ensures admit <==> Admits(caps, queue, target)
      ensures admit <==>
        && (target != "" && target in caps.perType && caps.perType[target] > 0 ==>
              |set r | r in queue && queue[r].state in {Running, Pending} && queue[r].target == target|
                < caps.perType[target])
        && (caps.global > 0 ==> |set r | r in queue && queue[r].state in {Running, Pending}| < caps.global)
    {
      AdmitsByCount(caps, queue, target);
      if caps.perType == map[] && caps.global <= 0 {
        return true;
      }
      if Capped(caps, target) {
        var pop := |set r | r in queue && Occupies(queue[r]) && queue[r].target == target|;
        if pop >= caps.perType[target] {
          return false;
        }
      }
      if caps.global > 0 {
        var pop := |set r | r in queue && Occupies(queue[r])|;
        if pop >= caps.global {
          return false;
        }
      }
      return true;
    }

    method AdvanceSchedule(kind: Kind, nextFire: int, now: int) returns (next: Option<int>)
      ensures next == Advance(kind, nextFire, now)
    {
      hide Cron.NextFire, Cron.Matches, AdvanceInterval, Wrap64;
      match kind {
        case Oneshot => return Some(0);
        case Interval(period) =>
          if period <= 0 {
            return None;
          }
          return AdvanceInterval(period, nextFire, now);
        case CronSpec(schedule) =>
          var t := Cron.Next(schedule, now + EPOCH_NANOS);
          return if t.Some? then Some(Wrap64(t.value - EPOCH_NANOS)) else None;
        case Corrupt => return None;
      }
    }

    method FireDue(id: Id, now: int, wins: bool) returns (result: FireResult)
      modifies this
      ensures (Tables(), result) == Fire(caps, old(Tables()), id, now, wins)
    {
      hide Advance, Admits;
      if id !in rows {
        return NotDue;
      }
      var row := rows[id];
      if row.paused || row.nextFire > now {
        return NotDue;
      }
      if !wins {
        return LostClaim;
      }
      var admit := CapAdmits(row.target);
      var next := AdvanceSchedule(row.kind, row.nextFire, now);
      if next.None? {
        rows := rows[id := row.(paused := true)];
        return CorruptSpec;
      }
      result := Missed;
      if admit {
        var inserted := EnqueueRun(RunId(id, row.nextFire), row.target);
        result := if inserted then Fired else Duplicate;
      }
      if row.kind.Oneshot? {
        if admit {
          rows := rows - {id};
        }
      } else {
        rows := rows[id := row.(nextFire := next.value)];
      }
    }
  }

  // ---- Any number of pollers, callers and workers ----

  datatype Event =
    | Create(id: Id, row: Row)
    | SetPaused(id: Id, paused: bool)
    | Delete(id: Id)
    | Poll(id: Id, now: int, wins: bool)
    | Enqueue(run: RunId, target: string)
    | Work(run: RunId, state: ItemState)

  /** Every transaction applies or, when it fails or its process dies, leaves the tables as they were. */
  function Apply(caps: Caps, s: State, e: Event, commits: bool): State {
    if !commits then s
    else
      match e
      case Create(id, row) => if id in s.rows then s else s.(rows := s.rows[id := row])
      case SetPaused(id, b) => if id in s.rows then s.(rows := s.rows[id := s.rows[id].(paused := b)]) else s
      case Delete(id) => s.(rows := s.rows - {id})
      case Poll(id, now, wins) => Fire(caps, s, id, now, wins).0
      case Enqueue(run, target) => Enqueued(s, run, target)
      case Work(run, state) => if run in s.queue then s.(queue := s.queue[run := s.queue[run].(state := state)]) else s
  }

  function After(caps: Caps, s: State, es: seq<(Event, bool)>): State
    decreases |es|
  {
    if es == [] then s else After(caps, Apply(caps, s, es[0].0, es[0].1), es[1..])
  }

  /** Every inserted run is still a row of the queue, and none was inserted twice. */
  ghost predicate OnceEach(s: State) {
    && (forall i :: 0 <= i < |s.inserted| ==> s.inserted[i] in s.queue)
    && (forall i, j :: 0 <= i < j < |s.inserted| ==> s.inserted[i] != s.inserted[j])
  }

  lemma EnqueuedOnce(s: State, run: RunId, target: string)
    requires OnceEach(s)
    ensures OnceEach(Enqueued(s, run, target))
  {
  }

  lemma OnceEachStep(caps: Caps, s: State, e: Event, commits: bool)
    requires OnceEach(s)
    ensures OnceEach(Apply(caps, s, e, commits))
  {
    hide OnceEach, Advance, Admits, Enqueued;
    match e
    case Poll(id, now, wins) =>
      if id in s.rows {
        var run, target := RunId(id, s.rows[id].nextFire), s.rows[id].target;
        EnqueuedOnce(s, run, target);
        RowsAreApart(s, Fire(caps, s, id, now, wins).0.rows);
        RowsAreApart(Enqueued(s, run, target), Fire(caps, s, id, now, wins).0.rows);
      }
    case Enqueue(run, target) => EnqueuedOnce(s, run, target);
    case Work(run, state) => WorkKeepsKeys(s, run, state);
    case Create(id, row) => RowsAreApart(s, s.rows[id := row]);
    case SetPaused(id, b) => if id in s.rows { RowsAreApart(s, s.rows[id := s.rows[id].(paused := b)]); }
    case Delete(id) => RowsAreApart(s, s.rows - {id});
  }

  lemma RowsAreApart(s: State, rows: map<Id, Row>)
    requires OnceEach(s)
    ensures OnceEach(s.(rows := rows))
  {
  }

  lemma WorkKeepsKeys(s: State, run: RunId, state: ItemState)
    requires OnceEach(s)
    ensures run in s.queue ==> OnceEach(s.(queue := s.queue[run := s.queue[run].(state := state)]))
  {
  }

  /** Over any interleaving of polls, callers, workers, failed transactions and crashes, no slot is enqueued twice. */
  lemma {:induction false} SlotEnqueuedOnce(caps: Caps, s: State, es: seq<(Event, bool)>)
    requires OnceEach(s)
    ensures OnceEach(After(caps, s, es)) && s.inserted <= After(caps, s, es).inserted
    decreases |es|
  {
    hide OnceEach, Apply;
    if es != [] {
      OnceEachStep(caps, s, es[0].0, es[0].1);
      OnlyGrows(caps, s, es[0].0, es[0].1);
      SlotEnqueuedOnce(caps, Apply(caps, s, es[0].0, es[0].1), es[1..]);
    }
  }

  lemma OnlyGrows(caps: Caps, s: State, e: Event, commits: bool)
    ensures s.inserted <= Apply(caps, s, e, commits).inserted
  {
    hide Advance, Admits;
  }

  // ---- What one fire does ----

  predicate Recurring(kind: Kind) {
    kind.Interval? || kind.CronSpec?
  }

  /** The fire advanced a recurring row. */
  predicate Advances(s: State, id: Id, now: int) {
    && Due(s, id, now) && Recurring(s.rows[id].kind) && IsInt64(now) && IsInt64(s.rows[id].nextFire)
    && (s.rows[id].kind.Interval? ==> s.rows[id].kind.period < INT_LIMIT)
    && Advance(s.rows[id].kind, s.rows[id].nextFire, now).Some?
  }

  /** The next cron instant does not fit the 64-bit column. */
  predicate CronOverflows(kind: Kind, now: int) {
    kind.CronSpec? && Cron.NextFire(kind.schedule, now + EPOCH_NANOS).Some?
    && !IsInt64(Cron.NextFire(kind.schedule, now + EPOCH_NANOS).value - EPOCH_NANOS)
  }

  lemma NextFireBounds(s: Cron.Schedule, after: int)
    ensures var r := Cron.NextFire(s, after);
            r.Some? ==> after < r.value <= after + (Cron.MAX_CRON_HORIZON + 1) * Cron.NANOS_PER_MINUTE
  {
    hide Cron.Matches;
    Cron.FirstMatchIsLeast(s, Cron.FirstMinuteAfter(after), Cron.MAX_CRON_HORIZON);
    assert after == after / Cron.NANOS_PER_MINUTE * Cron.NANOS_PER_MINUTE + after % Cron.NANOS_PER_MINUTE;
  }

  /**
    A fire moves a recurring schedule's next fire strictly past `now`, enqueued or not, exactly if the next cron
    instant still fits the 64-bit column.
  */
  lemma NextFirePassesNowIff(caps: Caps, s: State, id: Id, now: int)
    requires Advances(s, id, now)
    ensures var s' := Fire(caps, s, id, now, true).0;
            && id in s'.rows && s'.rows[id].kind == s.rows[id].kind
            && (s'.rows[id].nextFire > now <==> !CronOverflows(s.rows[id].kind, now))
  {
    hide Admits, AdvanceInterval, Cron.NextFire;
    var row := s.rows[id];
    if row.kind.Interval? {
      if row.nextFire >= 0 {
        ClosedFormIsLoop(row.kind.period, row.nextFire, now);
      } else {
        BeforeEpochAlwaysErrs(row.kind.period, row.nextFire, now);
      }
    } else {
      NextFireBounds(row.kind.schedule, now + EPOCH_NANOS);
      hide Enqueued;
    }
  }

  function Range(lo: int, hi: int): (r: set<int>)
    ensures forall v :: v in r <==> lo <= v < hi
    decreases hi - lo
  {
    if lo >= hi then {} else {lo} + Range(lo + 1, hi)
  }

  /** Every minute of every day: all five fields are `*`. */
  function EveryMinute(): Cron.Schedule {
    Cron.Schedule(Cron.FieldSpec(Range(0, 60), false), Cron.FieldSpec(Range(0, 24), false),
                  Cron.FieldSpec(Range(1, 32), false), Cron.FieldSpec(Range(1, 13), false),
                  Cron.FieldSpec(Range(0, 7), false))
  }

  lemma EveryMinuteMatches(t: int)
    ensures Cron.Matches(EveryMinute(), t)
  {
    hide Range;
    var date := Calendar.DateOf(t / Cron.MINUTES_PER_DAY);
    hide Calendar.DateOf;
    var m := t % Cron.MINUTES_PER_DAY;
    assert 0 <= m / 60 < 24;
  }

  lemma EveryMinuteOverflows()
    ensures CronOverflows(CronSpec(EveryMinute()), INT_LIMIT - 1)
  {
    hide Cron.NextFire, Cron.Matches, Range;
    var after := INT_LIMIT - 1 + EPOCH_NANOS;
    Cron.NextFireIsLeast(EveryMinute(), after);
    EveryMinuteMatches(0);
    NextFireBounds(EveryMinute(), after);
  }

  /**
    Whichever 64-bit slot it is due for, an every-minute row that fires at the last 64-bit instant gets a next fire
    behind now: it is due again.
  */
  lemma CronOverflowHappens(caps: Caps, s: State, id: Id)
    requires Due(s, id, INT_LIMIT - 1) && s.rows[id].kind == CronSpec(EveryMinute()) && IsInt64(s.rows[id].nextFire)
    ensures Advances(s, id, INT_LIMIT - 1) && CronOverflows(s.rows[id].kind, INT_LIMIT - 1)
    ensures Due(Fire(caps, s, id, INT_LIMIT - 1, true).0, id, INT_LIMIT - 1)
  {
    hide Admits, Fire, Cron.NextFire, Cron.Matches, Wrap64, EveryMinute;
    EveryMinuteOverflows();
    NextFirePassesNowIff(caps, s, id, INT_LIMIT - 1);
    RowStays(caps, s, id, INT_LIMIT - 1);
  }

  lemma RowStays(caps: Caps, s: State, id: Id, now: int)
    requires Advances(s, id, now)
    ensures id in Fire(caps, s, id, now, true).0.rows && !Fire(caps, s, id, now, true).0.rows[id].paused
  {
    hide Admits, Advance, CronOverflows;
  }

  /**
    A one-shot the caps block is left exactly as it was and stays due; once admitted it is gone, and its run is in the
    queue, new unless that very slot had been enqueued before.
  */
  lemma OneshotIsRetainedThenGone(caps: Caps, s: State, id: Id, now: int)
    requires Due(s, id, now) && s.rows[id].kind == Oneshot
    ensures var (s', result) := Fire(caps, s, id, now, true);
            var run := RunId(id, s.rows[id].nextFire);
            if Admits(caps, s.queue, s.rows[id].target)
            then s'.rows == s.rows - {id}
                 && (run in s.queue ==> result == Duplicate && s'.queue == s.queue && s'.inserted == s.inserted)
                 && (run !in s.queue ==>
                       result == Fired && s'.queue == s.queue[run := Item(s.rows[id].target, Pending)]
                         && s'.inserted == s.inserted + [run])
            else s' == s && result == Missed && Due(s', id, now)
  {
    hide Admits;
  }

  /** A spec that no longer advances pauses its row and enqueues nothing; it is not due again until resumed. */
  lemma CorruptSpecPauses(caps: Caps, s: State, id: Id, now: int, later: int)
    requires Due(s, id, now) && Advance(s.rows[id].kind, s.rows[id].nextFire, now) == None
    ensures var (s', result) := Fire(caps, s, id, now, true);
            && result == CorruptSpec && s'.queue == s.queue && s'.inserted == s.inserted
            && s'.rows == s.rows[id := s.rows[id].(paused := true)] && !Due(s', id, later)
  {
    hide Advance, Admits;
  }

  lemma EveryoneGrows(queue: map<RunId, Item>, run: RunId, target: string)
    requires run !in queue
    ensures Everyone(queue[run := Item(target, Pending)]) == Everyone(queue) + 1
  {
    var before := set r | r in queue && Occupies(queue[r]);
    var queue' := queue[run := Item(target, Pending)];
    assert (set r | r in queue' && Occupies(queue'[r])) == before + {run};
  }

  lemma PopulationGrows(queue: map<RunId, Item>, run: RunId, target: string, t: string)
    requires run !in queue
    ensures Population(queue[run := Item(target, Pending)], t) == Population(queue, t) + if t == target then 1 else 0
  {
    var before := set r | r in queue && Occupies(queue[r]) && queue[r].target == t;
    var queue' := queue[run := Item(target, Pending)];
    var now := set r | r in queue' && Occupies(queue'[r]) && queue'[r].target == t;
    assert now == before + if t == target then {run} else {};
  }

  lemma FireQueues(caps: Caps, s: State, id: Id, now: int, wins: bool)
    ensures var s' := Fire(caps, s, id, now, wins).0;
            || s'.queue == s.queue
            || (id in s.rows && Admits(caps, s.queue, s.rows[id].target) && RunId(id, s.rows[id].nextFire) !in s.queue
                && s'.queue == s.queue[RunId(id, s.rows[id].nextFire) := Item(s.rows[id].target, Pending)])
  {
    hide Advance, Admits;
  }

  /** No fire pushes a running-plus-pending population above a cap it was not above already. */
  lemma CapsHold(caps: Caps, s: State, id: Id, now: int, wins: bool, t: string)
    ensures var s' := Fire(caps, s, id, now, wins).0;
            && (Capped(caps, t) && Population(s.queue, t) <= caps.perType[t]
                ==> Population(s'.queue, t) <= caps.perType[t])
            && (caps.global > 0 && Everyone(s.queue) <= caps.global ==> Everyone(s'.queue) <= caps.global)
  {
    hide Fire, Population, Everyone;
    FireQueues(caps, s, id, now, wins);
    if id in s.rows && RunId(id, s.rows[id].nextFire) !in s.queue {
      EveryoneGrows(s.queue, RunId(id, s.rows[id].nextFire), s.rows[id].target);
      PopulationGrows(s.queue, RunId(id, s.rows[id].nextFire), s.rows[id].target, t);
    }
  }

  // ---- The text of a run ID ----

  function FormatInt(n: int): string {
    if n < 0 then "-" + CronParse.Itoa(-n) else CronParse.Itoa(n)
  }

  function ScheduledRunId(id: Id, slot: int): string {
    "sched:" + id + ":" + FormatInt(slot)
  }

  lemma ColonAt(p: string, a: string)
    requires ':' !in a
    ensures var t := p + ":" + a;
            && t[|p|] == ':' && (forall k :: |p| < k < |t| ==> t[k] != ':')
            && t[..|p|] == p && t[|p|+1..] == a
  {
    var t := p + ":" + a;
    forall k | |p| < k < |t| ensures t[k] != ':' {
      assert t[k] == a[k - |p| - 1] && a[k - |p| - 1] in a;
    }
  }

  lemma LastColon(p: string, a: string, q: string, b: string)
    requires p + ":" + a == q + ":" + b && ':' !in a && ':' !in b
    ensures p == q && a == b
  {
    ColonAt(p, a);
    ColonAt(q, b);
    SamePlace(p + ":" + a, |p|, |q|);
  }

  lemma SamePlace(t: string, i: nat, j: nat)
    requires i < |t| && t[i] == ':' && forall k :: i < k < |t| ==> t[k] != ':'
    requires j < |t| && t[j] == ':' && forall k :: j < k < |t| ==> t[k] != ':'
    ensures i == j
  {
  }

  lemma FormatLacksColon(n: int)
    ensures ':' !in FormatInt(n)
  {
    CronParse.DigitsLack(CronParse.Itoa(if n < 0 then -n else n), ':');
  }

  lemma FormatIsInjective(m: int, n: int)
    requires FormatInt(m) == FormatInt(n)
    ensures m == n
  {
    var x, y := if m < 0 then -m else m, if n < 0 then -n else n;
    CronParse.DecimalOfItoa(x);
    CronParse.DecimalOfItoa(y);
    CronParse.DigitsLack(CronParse.Itoa(x), '-');
    CronParse.DigitsLack(CronParse.Itoa(y), '-');
    if m < 0 { assert FormatInt(m)[1..] == CronParse.Itoa(x); }
    if n < 0 { assert FormatInt(n)[1..] == CronParse.Itoa(y); }
  }

  /** Two slots share a run ID only if they are the same slot of the same schedule, whatever colons the ID contains. */
  lemma RunIdsAreDistinct(id: Id, slot: int, id': Id, slot': int)
    requires ScheduledRunId(id, slot) == ScheduledRunId(id', slot')
    ensures id == id' && slot == slot'
  {
    hide FormatInt;
    FormatLacksColon(slot);
    FormatLacksColon(slot');
    LastColon("sched:" + id, FormatInt(slot), "sched:" + id', FormatInt(slot'));
    assert ("sched:" + id)[6..] == id && ("sched:" + id')[6..] == id';
    FormatIsInjective(slot, slot');
  }
}

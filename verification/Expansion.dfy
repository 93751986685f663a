/**
  The expansions of the fan-outs of one level: each item list is journaled in the run's data, checkpointed, and read
  back by every later attempt and drive, over node retries, crashes and failed or deferred writes. A store either writes
  the whole run data, or what one capture shared by the run has collected since it was last drained.
*/
module Expansion {
  import opened Wrappers
  import opened FanOut
  import opened FanOutSafety
  import Executor

  /** A fan-out of the level; `retries` is the node's retry count, and each retry runs on the same run data. */
  datatype Setting = Setting(pool: Config, retries: nat)

  /**
    The fan-outs of the level in name order, its concurrency bound, the group-commit window of the store, which accepts
    without writing when it is above 1, and whether a checkpoint writes the whole run data.
  */
  datatype Level = Level(fans: seq<Setting>, maxConcurrency: int, batchK: nat, whole: bool)

  function Slots(c: Level): nat { Executor.Limit(c.maxConcurrency) }

  /**
    Not launched, deciding the items, journaled in memory, writing the journals of `batch`, running branches, failed, or
    terminal.
  */
  datatype Stage =
    | Open
    | Resolving
    | Journaled
    | Saving(batch: set<nat>)
    | Running(items: seq<int>, pool: Pool)
    | Errored
    | Ended

  /** `memory` is the journal in the run's data, `attempt` the number of retries already used in this drive. */
  datatype Fan = Fan(memory: Option<seq<int>>, stage: Stage, attempt: nat)

  /**
    `disk` holds the journals of the last snapshot, `capture` the fan-outs whose journals the next incremental write
    will take, `cursor` is the launch loop's place, and `ended` remembers who was terminal, across crashes.
  */
  datatype State = State(disk: seq<Option<seq<int>>>, fans: seq<Fan>, capture: set<nat>, cursor: nat, up: bool,
                         ended: set<nat>)

  function Unlaunched(disk: seq<Option<seq<int>>>): seq<Fan> {
    seq(|disk|, f requires 0 <= f < |disk| => Fan(disk[f], Open, 0))
  }

  function Forgotten(c: Level): seq<Fan> {
    seq(|c.fans|, _ => Fan(None, Open, 0))
  }

  function Fresh(c: Level): State {
    State(seq(|c.fans|, _ => None), Forgotten(c), {}, 0, false, {})
  }

  predicate Live(fan: Fan) { !fan.stage.Open? && !fan.stage.Ended? }

  function LiveFans(fans: seq<Fan>): set<nat> {
    set f: nat | f < |fans| && Live(fans[f])
  }

  /** What the checkpoint made of a write: written, accepted but retained in the store's memory, or refused. */
  datatype Flush = Written | Deferred | Failed

  datatype Step =
    | Load
    | Launch
    | Pass
    | Reread(fan: nat)
    | Expand(fan: nat, items: seq<int>)
    | Drain(fan: nat)
    | Save(fan: nat, flush: Flush)
    | Branch(fan: nat, event: Event)
    | Fail(fan: nat)
    | Retry(fan: nat)
    | End(fan: nat)
    | Checkpoint(final: bool, flush: Flush)
    | Crash

  predicate Fit(c: Level, s: State) { |s.disk| == |s.fans| == |c.fans| }

  predicate Is(c: Level, s: State, f: nat) { s.up && f < |s.fans| && f < |c.fans| && f < |s.disk| }

  predicate Can(c: Level, s: State, e: Step) {
    match e
    case Load => !s.up
    case Launch => Is(c, s, s.cursor) && s.fans[s.cursor].stage.Open? && |LiveFans(s.fans)| < Slots(c)
    case Pass => Is(c, s, s.cursor) && s.fans[s.cursor].stage.Open? && s.cursor in s.ended
    case Reread(f) => Is(c, s, f) && s.fans[f].stage.Resolving? && s.fans[f].memory.Some?
    case Expand(f, _) => Is(c, s, f) && s.fans[f].stage.Resolving? && s.fans[f].memory.None?
    case Drain(f) => Is(c, s, f) && s.fans[f].stage.Journaled?
    case Save(f, flush) =>
      Is(c, s, f) && s.fans[f].stage.Saving? && s.fans[f].memory.Some? && (flush.Deferred? ==> c.batchK > 1)
    case Branch(f, b) =>
      Is(c, s, f) && s.fans[f].stage.Running? && Enabled(c.fans[f].pool, s.fans[f].stage.pool, b)
    case Fail(f) =>
      Is(c, s, f) && (s.fans[f].stage.Resolving? || (s.fans[f].stage.Running? && Joined(s.fans[f].stage.pool)))
    case Retry(f) => Is(c, s, f) && s.fans[f].stage.Errored? && s.fans[f].attempt < c.fans[f].retries
    case End(f) =>
      Is(c, s, f) && (s.fans[f].stage.Errored? || (s.fans[f].stage.Running? && Joined(s.fans[f].stage.pool)))
    case Checkpoint(_, flush) => s.up && LiveFans(s.fans) == {} && (flush.Deferred? ==> c.batchK > 1)
    case Crash => true
  }

  /** A write takes the current journals of its batch. */
  function WithJournals(disk: seq<Option<seq<int>>>, fans: seq<Fan>, batch: set<nat>): (r: seq<Option<seq<int>>>)
    ensures |r| == |disk|
  {
    seq(|disk|, f requires 0 <= f < |disk| => if f in batch && f < |fans| then fans[f].memory else disk[f])
  }

  function Below(n: nat): (r: set<nat>)
    ensures forall f: nat :: f in r <==> f < n
  {
    if n == 0 then {} else Below(n - 1) + {n - 1}
  }

  function All(c: Level): set<nat> { Below(|c.fans|) }

  function To(s: State, f: nat, stage: Stage): State
    requires f < |s.fans|
  {
    s.(fans := s.fans[f := s.fans[f].(stage := stage)])
  }

  /** The items are decided; a width over the cap is refused before any branch. */
  function Begun(c: Config, items: seq<int>): Stage {
    if |items| > Width(c) then Errored else Running(items, NewPool(|items|))
  }

  function Do(c: Level, s: State, e: Step): State
    requires Can(c, s, e)
  {
    match e
    case Load => State(s.disk, Unlaunched(s.disk), {}, 0, true, s.ended)
    case Launch => To(s, s.cursor, Resolving).(cursor := s.cursor + 1)
    case Pass => To(s, s.cursor, Ended).(cursor := s.cursor + 1)
    case Reread(f) => To(s, f, Begun(c.fans[f].pool, s.fans[f].memory.value))
    case Expand(f, items) =>
      s.(fans := s.fans[f := s.fans[f].(memory := Some(items), stage := Journaled)], capture := s.capture + {f})
    case Drain(f) => To(s, f, Saving(if c.whole then All(c) else s.capture)).(capture := {})
    case Save(f, flush) =>
      var s' := To(s, f, if flush.Failed? then Errored else Begun(c.fans[f].pool, s.fans[f].memory.value));
      if flush.Written? then s'.(disk := WithJournals(s.disk, s.fans, s.fans[f].stage.batch)) else s'
    case Branch(f, b) =>
      To(s, f, Running(s.fans[f].stage.items, Apply(c.fans[f].pool, s.fans[f].stage.pool, b)))
    case Fail(f) => To(s, f, Errored)
    case Retry(f) =>
      s.(fans := s.fans[f := s.fans[f].(stage := Resolving, attempt := s.fans[f].attempt + 1)])
    case End(f) => To(s, f, Ended).(ended := s.ended + {f})
    case Checkpoint(final, flush) =>
      if flush.Written?
      then s.(disk := WithJournals(s.disk, s.fans, if final || c.whole then All(c) else s.capture), capture := {})
      else s.(capture := {})
    case Crash => s.(fans := Forgotten(c), capture := {}, up := false)
  }

  ghost predicate Allowed(c: Level, s: State, es: seq<Step>)
    decreases |es|
  {
    es == [] || (Can(c, s, es[0]) && Allowed(c, Do(c, s, es[0]), es[1..]))
  }

  ghost function Then(c: Level, s: State, es: seq<Step>): State
    requires Allowed(c, s, es)
    decreases |es|
  {
    if es == [] then s else Then(c, Do(c, s, es[0]), es[1..])
  }

  ghost predicate Comes(c: Level, s: State) {
    exists es :: Allowed(c, Fresh(c), es) && Then(c, Fresh(c), es) == s
  }

  // ---- One journal for each fan-out ----

  /** Data in memory never contradict the journal on disk. */
  ghost predicate OneJournal(c: Config, disk: Option<seq<int>>, up: bool, fan: Fan) {
    && (disk.Some? && up ==> fan.memory == disk)
    && (!up ==> fan.memory == None && fan.stage.Open?)
    && (fan.stage.Running? ==>
          && fan.memory == Some(fan.stage.items) && fan.stage.pool.n == |fan.stage.items| <= Width(c)
          && Invariant(c, fan.stage.pool))
  }

  ghost predicate OneJournalEach(c: Level, s: State) {
    Fit(c, s) && forall f :: 0 <= f < |c.fans| ==> OneJournal(c.fans[f].pool, s.disk[f], s.up, s.fans[f])
  }

  lemma BegunIsOneJournal(c: Config, disk: Option<seq<int>>, fan: Fan)
    requires fan.memory.Some? && (disk.Some? ==> fan.memory == disk)
    ensures OneJournal(c, disk, true, fan.(stage := Begun(c, fan.memory.value)))
  {
    hide Invariant, Width;
    InitialInvariant(c, |fan.memory.value|);
  }

  lemma BranchIsOneJournal(c: Config, disk: Option<seq<int>>, fan: Fan, b: Event)
    requires OneJournal(c, disk, true, fan) && fan.stage.Running? && Enabled(c, fan.stage.pool, b)
    ensures OneJournal(c, disk, true, fan.(stage := Running(fan.stage.items, Apply(c, fan.stage.pool, b))))
  {
    hide Invariant, Width, Enabled;
    InvariantStep(c, fan.stage.pool, b);
    SameWidth(c, fan.stage.pool, b);
  }

  lemma SameWidth(c: Config, s: Pool, b: Event)
    requires Enabled(c, s, b)
    ensures Apply(c, s, b).n == s.n
  {
  }

  lemma WritesKeep(c: Level, s: State, batch: set<nat>)
    requires OneJournalEach(c, s) && s.up
    ensures var disk := WithJournals(s.disk, s.fans, batch);
      && OneJournalEach(c, s.(disk := disk))
      && forall f :: 0 <= f < |c.fans| && s.disk[f].Some? ==> disk[f] == s.disk[f]
  {
    hide Invariant, Width;
  }

  /** A step of one fan-out alone. */
  lemma OneFanKeeps(c: Level, s: State, s': State, f: nat)
    requires OneJournalEach(c, s) && s.up && f < |c.fans| && s'.up && s'.disk == s.disk
    requires |s'.fans| == |s.fans| && forall g :: 0 <= g < |s.fans| && g != f ==> s'.fans[g] == s.fans[g]
    requires OneJournal(c.fans[f].pool, s.disk[f], true, s'.fans[f])
    ensures OneJournalEach(c, s')
  {
    hide Invariant, OneJournal;
  }

  lemma OneJournalStep(c: Level, s: State, e: Step)
    requires OneJournalEach(c, s) && Can(c, s, e)
    ensures OneJournalEach(c, Do(c, s, e))
    ensures forall f :: 0 <= f < |c.fans| && s.disk[f].Some? ==> Do(c, s, e).disk[f] == s.disk[f]
  {
    hide Invariant, Width, Enabled, Apply, Begun, LiveFans, Joined, WithJournals;
    match e
    case Load =>
    case Launch => OneFanKeeps(c, s, Do(c, s, e), s.cursor);
    case Pass => OneFanKeeps(c, s, Do(c, s, e), s.cursor);
    case Reread(f) =>
      BegunIsOneJournal(c.fans[f].pool, s.disk[f], s.fans[f]);
      OneFanKeeps(c, s, Do(c, s, e), f);
    case Expand(f, _) => OneFanKeeps(c, s, Do(c, s, e), f);
    case Drain(f) => OneFanKeeps(c, s, Do(c, s, e), f);
    case Save(f, flush) => SaveKeeps(c, s, f, flush);
    case Branch(f, b) =>
      BranchIsOneJournal(c.fans[f].pool, s.disk[f], s.fans[f], b);
      OneFanKeeps(c, s, Do(c, s, e), f);
    case Fail(f) => OneFanKeeps(c, s, Do(c, s, e), f);
    case Retry(f) => OneFanKeeps(c, s, Do(c, s, e), f);
    case End(f) => OneFanKeeps(c, s, Do(c, s, e), f);
    case Checkpoint(final, flush) => WritesKeep(c, s, if final || c.whole then All(c) else s.capture);
    case Crash =>
  }

  lemma SaveKeeps(c: Level, s: State, f: nat, flush: Flush)
    requires OneJournalEach(c, s) && Can(c, s, Save(f, flush))
    ensures OneJournalEach(c, Do(c, s, Save(f, flush)))
    ensures forall g :: 0 <= g < |c.fans| && s.disk[g].Some? ==> Do(c, s, Save(f, flush)).disk[g] == s.disk[g]
  {
    hide Invariant, Width, Begun, WithJournals;
    var disk := if flush.Written? then WithJournals(s.disk, s.fans, s.fans[f].stage.batch) else s.disk;
    WritesKeep(c, s, s.fans[f].stage.batch);
    BegunIsOneJournal(c.fans[f].pool, disk[f], s.fans[f]);
    OneFanKeeps(c, s.(disk := disk), Do(c, s, Save(f, flush)), f);
  }

  /**
    An expansion is fixed once it is durable: whatever crashes, retries and checkpoints follow, the journal on disk
    stays the same, and every pool of a later drive runs over exactly its items, within the width cap. A later attempt
    reads it back and runs exactly if it is within the cap, the configured one or else the engine's default.
  */
  lemma {:induction false} ExpandedOnce(c: Level, s: State, es: seq<Step>, f: nat)
    requires OneJournalEach(c, s) && Allowed(c, s, es) && f < |c.fans| && s.disk[f].Some?
    ensures Fit(c, Then(c, s, es))
    ensures var s' := Then(c, s, es);
      && s'.disk[f] == s.disk[f]
      && (s'.fans[f].stage.Running? ==>
            && Some(s'.fans[f].stage.items) == s.disk[f]
            && s'.fans[f].stage.pool.n == |s.disk[f].value|
            && |s.disk[f].value| <= if c.fans[f].pool.maxWidth <= 0 then 1024 else c.fans[f].pool.maxWidth)
    ensures var s' := Then(c, s, es);
      Can(c, s', Reread(f)) ==>
        if |s.disk[f].value| <= if c.fans[f].pool.maxWidth <= 0 then 1024 else c.fans[f].pool.maxWidth
        then Do(c, s', Reread(f)).fans[f].stage == Running(s.disk[f].value, NewPool(|s.disk[f].value|))
        else Do(c, s', Reread(f)).fans[f].stage == Errored
    decreases |es|
  {
    hide OneJournalEach, Can, Do, Width;
    RunsJournal(c, s, f);
    RereadIs(c, s, f);
    if es != [] {
      OneJournalStep(c, s, es[0]);
      ExpandedOnce(c, Do(c, s, es[0]), es[1..], f);
    }
  }

  lemma RereadIs(c: Level, s: State, f: nat)
    requires OneJournalEach(c, s) && f < |c.fans| && s.disk[f].Some?
    ensures Width(c.fans[f].pool) == if c.fans[f].pool.maxWidth <= 0 then 1024 else c.fans[f].pool.maxWidth
    ensures Can(c, s, Reread(f)) ==>
      Do(c, s, Reread(f)).fans[f].stage ==
      if |s.disk[f].value| <= Width(c.fans[f].pool)
      then Running(s.disk[f].value, NewPool(|s.disk[f].value|)) else Errored
  {
    hide Invariant;
    assert OneJournal(c.fans[f].pool, s.disk[f], s.up, s.fans[f]);
  }

  lemma RunsJournal(c: Level, s: State, f: nat)
    requires OneJournalEach(c, s) && f < |c.fans|
    ensures Fit(c, s)
    ensures s.fans[f].stage.Running? ==>
      && s.fans[f].memory == Some(s.fans[f].stage.items)
      && s.fans[f].stage.pool.n == |s.fans[f].stage.items| <= Width(c.fans[f].pool)
      && (s.disk[f].Some? ==> s.fans[f].memory == s.disk[f])
  {
    hide Invariant, Width;
    assert OneJournal(c.fans[f].pool, s.disk[f], s.up, s.fans[f]);
  }

  lemma FreshIsOneJournal(c: Level)
    ensures OneJournalEach(c, Fresh(c))
  {
  }

  // ---- The item list is durable before the branches ----

  /** Two fan-outs of the level never are under way at once. */
  predicate OneByOne(c: Level) { Slots(c) < 2 || |c.fans| < 2 }

  ghost predicate NoRetries(c: Level) { forall f :: 0 <= f < |c.fans| ==> c.fans[f].retries == 0 }

  /** A write that reports success has written the journal of the fan-out that asked for it. */
  ghost predicate Faithful(c: Level) { NoRetries(c) && c.batchK <= 1 && (c.whole || OneByOne(c)) }

  ghost predicate FewLive(c: Level, s: State) {
    OneByOne(c) ==>
      forall f, g :: 0 <= f < |s.fans| && 0 <= g < |s.fans| && Live(s.fans[f]) && Live(s.fans[g]) ==> f == g
  }

  /** Whatever may still be run from is on disk, and what is not is on its way. */
  ghost predicate DurableFirst(c: Level, s: State, f: nat)
    requires Fit(c, s) && f < |c.fans|
  {
    var fan := s.fans[f];
    && (s.up && (fan.stage.Open? || fan.stage.Resolving? || fan.stage.Running?) ==> fan.memory == s.disk[f])
    && (fan.stage.Journaled? ==> fan.memory.Some? && (c.whole || f in s.capture))
    && (fan.stage.Saving? ==> fan.memory.Some? && f in fan.stage.batch)
  }

  ghost predicate DurableFirstEach(c: Level, s: State) {
    Fit(c, s) && FewLive(c, s) && forall f :: 0 <= f < |c.fans| ==> DurableFirst(c, s, f)
  }

  lemma NoneLive(fans: seq<Fan>)
    requires |LiveFans(fans)| == 0
    ensures forall f :: 0 <= f < |fans| ==> !Live(fans[f])
  {
    forall f | 0 <= f < |fans| ensures !Live(fans[f]) { assert f !in LiveFans(fans); }
  }

  lemma LaunchKeeps(c: Level, s: State)
    requires DurableFirstEach(c, s) && Can(c, s, Launch)
    ensures DurableFirstEach(c, Do(c, s, Launch))
  {
    hide LiveFans;
    if OneByOne(c) && |c.fans| >= 2 { NoneLive(s.fans); }
    var s' := Do(c, s, Launch);
    forall g | 0 <= g < |c.fans| ensures DurableFirst(c, s', g) { assert DurableFirst(c, s, g); }
  }

  /** While one fan-out is under way nothing but its own steps drain the capture. */
  lemma DrainKeeps(c: Level, s: State, f: nat)
    requires Faithful(c) && DurableFirstEach(c, s) && Can(c, s, Drain(f))
    ensures DurableFirstEach(c, Do(c, s, Drain(f)))
  {
    hide LiveFans;
    var s' := Do(c, s, Drain(f));
    forall g | 0 <= g < |c.fans| ensures DurableFirst(c, s', g) { assert DurableFirst(c, s, g); }
  }

  lemma SaveIsDurable(c: Level, s: State, f: nat, flush: Flush)
    requires Faithful(c) && DurableFirstEach(c, s) && Can(c, s, Save(f, flush))
    ensures DurableFirstEach(c, Do(c, s, Save(f, flush)))
  {
    hide LiveFans, Width;
    var s' := Do(c, s, Save(f, flush));
    forall g | 0 <= g < |c.fans| ensures DurableFirst(c, s', g) { assert DurableFirst(c, s, g); }
  }

  lemma CheckpointKeeps(c: Level, s: State, final: bool, flush: Flush)
    requires DurableFirstEach(c, s) && Can(c, s, Checkpoint(final, flush))
    ensures DurableFirstEach(c, Do(c, s, Checkpoint(final, flush)))
  {
    hide LiveFans;
    NoneLive(s.fans);
    var s' := Do(c, s, Checkpoint(final, flush));
    forall g | 0 <= g < |c.fans| ensures DurableFirst(c, s', g) { assert DurableFirst(c, s, g); }
  }

  lemma DurableFirstStep(c: Level, s: State, e: Step)
    requires Faithful(c) && DurableFirstEach(c, s) && Can(c, s, e)
    ensures DurableFirstEach(c, Do(c, s, e))
  {
    match e
    case Launch => LaunchKeeps(c, s);
    case Drain(f) => DrainKeeps(c, s, f);
    case Save(f, flush) => SaveIsDurable(c, s, f, flush);
    case Checkpoint(final, flush) => CheckpointKeeps(c, s, final, flush);
    case _ => OwnStepKeeps(c, s, e);
  }

  lemma OwnStepKeeps(c: Level, s: State, e: Step)
    requires !e.Launch? && !e.Drain? && !e.Save? && !e.Checkpoint?
    requires Faithful(c) && DurableFirstEach(c, s) && Can(c, s, e)
    ensures DurableFirstEach(c, Do(c, s, e))
  {
    hide LiveFans, Width, Enabled, Apply, Joined;
    var s' := Do(c, s, e);
    forall g | 0 <= g < |c.fans| ensures DurableFirst(c, s', g) { assert DurableFirst(c, s, g); }
  }

  lemma {:induction false} DurableFirstAfter(c: Level, s: State, es: seq<Step>)
    requires Faithful(c) && DurableFirstEach(c, s) && Allowed(c, s, es)
    ensures DurableFirstEach(c, Then(c, s, es))
    decreases |es|
  {
    hide Can, Do, Faithful, DurableFirstEach;
    if es != [] {
      DurableFirstStep(c, s, es[0]);
      DurableFirstAfter(c, Do(c, s, es[0]), es[1..]);
    }
  }

  /** Some branch has been driven over items that no snapshot holds. */
  predicate RunsAhead(s: State, f: nat) {
    && f < |s.fans| && f < |s.disk| && s.fans[f].stage.Running? && s.fans[f].stage.pool.driven != {}
    && s.disk[f] != Some(s.fans[f].stage.items)
  }

  ghost predicate MayRunAhead(c: Level) {
    exists s, f :: Comes(c, s) && RunsAhead(s, f)
  }

  lemma NeverAhead(c: Level, s: State, f: nat)
    requires Faithful(c) && Comes(c, s)
    ensures !RunsAhead(s, f)
  {
    hide Can, Do, Faithful, Invariant, Width;
    FreshIsOneJournal(c);
    var es :| Allowed(c, Fresh(c), es) && Then(c, Fresh(c), es) == s;
    DurableFirstAfter(c, Fresh(c), es);
    OneJournalAfter(c, Fresh(c), es);
    if f < |c.fans| {
      assert DurableFirst(c, s, f) && OneJournal(c.fans[f].pool, s.disk[f], s.up, s.fans[f]);
    }
  }

  lemma NobodyRuns(c: Level, s: State, f: nat)
    requires c.fans == [] && Comes(c, s)
    ensures !RunsAhead(s, f)
  {
    hide Can, Do;
    FreshIsOneJournal(c);
    var es :| Allowed(c, Fresh(c), es) && Then(c, Fresh(c), es) == s;
    OneJournalAfter(c, Fresh(c), es);
  }

  lemma {:induction false} OneJournalAfter(c: Level, s: State, es: seq<Step>)
    requires OneJournalEach(c, s) && Allowed(c, s, es)
    ensures OneJournalEach(c, Then(c, s, es))
    decreases |es|
  {
    hide Can, Do, OneJournalEach;
    if es != [] {
      OneJournalStep(c, s, es[0]);
      OneJournalAfter(c, Do(c, s, es[0]), es[1..]);
    }
  }

  // ---- Runs that get ahead ----

  lemma Move(c: Level, s: State, e: Step, s': State)
    requires Comes(c, s) && Can(c, s, e) && s' == Do(c, s, e)
    ensures Comes(c, s')
  {
    hide Can, Do;
    var es :| Allowed(c, Fresh(c), es) && Then(c, Fresh(c), es) == s;
    OneMore(c, Fresh(c), es, e);
  }

  lemma {:induction false} OneMore(c: Level, s: State, es: seq<Step>, e: Step)
    requires Allowed(c, s, es) && Can(c, Then(c, s, es), e)
    ensures Allowed(c, s, es + [e]) && Then(c, s, es + [e]) == Do(c, Then(c, s, es), e)
    decreases |es|
  {
    hide Can, Do;
    if es == [] {
      assert es + [e] == [e];
    } else {
      OneMore(c, Do(c, s, es[0]), es[1..], e);
      assert (es + [e])[1..] == es[1..] + [e];
    }
  }

  /** The launch loop has passed the first `k` fan-outs, all of them terminal; the rest has not started. */
  ghost predicate PassedTo(c: Level, s: State, k: nat) {
    && Comes(c, s) && Fit(c, s) && s.up && s.cursor == k <= |c.fans| && s.capture == {} && LiveFans(s.fans) == {}
    && forall f :: k <= f < |c.fans| ==> s.fans[f] == Fan(None, Open, 0) && s.disk[f] == None
  }

  lemma Loads(c: Level) returns (s: State)
    ensures PassedTo(c, s, 0)
  {
    assert Allowed(c, Fresh(c), []) && Then(c, Fresh(c), []) == Fresh(c);
    hide Comes;
    s := Do(c, Fresh(c), Load);
    Move(c, Fresh(c), Load, s);
  }

  lemma OnlyLive(fans: seq<Fan>, f: nat, fan: Fan)
    requires f < |fans| && LiveFans(fans) == {}
    ensures LiveFans(fans[f := fan]) == if Live(fan) then {f} else {}
  {
    forall g: nat | g < |fans| ensures !Live(fans[g]) { assert g !in LiveFans(fans); }
  }

  /** A fan-out is launched, journals its items and is about to write them. */
  lemma StartsSaving(c: Level, s: State, f: nat, items: seq<int>) returns (s': State)
    requires PassedTo(c, s, f) && f < |c.fans|
    ensures Comes(c, s') && f in (if c.whole then All(c) else {f})
    ensures s' == s.(fans := s.fans[f := Fan(Some(items), Saving(if c.whole then All(c) else {f}), 0)],
                     cursor := f + 1)
  {
    hide Comes, LiveFans;
    var s1 := s.(fans := s.fans[f := Fan(None, Resolving, 0)], cursor := f + 1);
    Move(c, s, Launch, s1);
    var s2 := s1.(fans := s.fans[f := Fan(Some(items), Journaled, 0)], capture := {f});
    Move(c, s1, Expand(f, items), s2);
    s' := s.(fans := s.fans[f := Fan(Some(items), Saving(if c.whole then All(c) else {f}), 0)], cursor := f + 1);
    Move(c, s2, Drain(f), s');
  }

  /** A fan-out without items runs to its end at once. */
  lemma PassOne(c: Level, s: State, k: nat) returns (s': State)
    requires PassedTo(c, s, k) && k < |c.fans|
    ensures PassedTo(c, s', k + 1)
  {
    hide Comes, LiveFans, Width;
    var t := StartsSaving(c, s, k, []);
    var disk := WithJournals(t.disk, t.fans, t.fans[k].stage.batch);
    var s1 := t.(fans := t.fans[k := Fan(Some([]), Running([], NewPool(0)), 0)], disk := disk);
    Move(c, t, Save(k, Written), s1);
    var p := NewPool(0).(feeding := false);
    var s2 := s1.(fans := s1.fans[k := Fan(Some([]), Running([], p), 0)]);
    Move(c, s1, Branch(k, FeedEnd), s2);
    s' := s2.(fans := s2.fans[k := Fan(Some([]), Ended, 0)], ended := s2.ended + {k});
    Move(c, s2, End(k), s');
    OnlyLive(s.fans, k, Fan(Some([]), Ended, 0));
    assert s'.fans == s.fans[k := Fan(Some([]), Ended, 0)];
  }

  lemma {:induction false} PassesTo(c: Level, k: nat) returns (s: State)
    requires k <= |c.fans|
    ensures PassedTo(c, s, k)
  {
    hide PassedTo;
    if k == 0 {
      s := Loads(c);
    } else {
      var t := PassesTo(c, k - 1);
      s := PassOne(c, t, k - 1);
    }
  }

  /** The pool over a single item that only memory holds drives its branch. */
  lemma OneBranchRunsAhead(c: Level, s: State, f: nat)
    requires Comes(c, s) && Is(c, s, f) && s.disk[f] == None && s.fans[f].stage == Running([0], NewPool(1))
    ensures MayRunAhead(c)
  {
    var p0 := NewPool(1);
    var p1 := p0.(queue := [0], next := 1);
    var p2 := p1.(queue := [], taken := {0});
    var p3 := p2.(taken := {}, live := {0}, driven := {0});
    assert Apply(c.fans[f].pool, p0, Feed) == p1;
    assert p1.queue[1..] == [] && Apply(c.fans[f].pool, p1, Take) == p2;
    assert Apply(c.fans[f].pool, p2, Event.Drive(0)) == p3;
    hide Apply, Enabled, Comes;
    var s1 := Drives(c, s, f, Feed, p1);
    var s2 := Drives(c, s1, f, Take, p2);
    var s3 := Drives(c, s2, f, Event.Drive(0), p3);
    assert RunsAhead(s3, f);
  }

  lemma Drives(c: Level, s: State, f: nat, e: Event, p: Pool) returns (s': State)
    requires Comes(c, s) && Is(c, s, f) && s.fans[f].stage.Running?
    requires Enabled(c.fans[f].pool, s.fans[f].stage.pool, e) && p == Apply(c.fans[f].pool, s.fans[f].stage.pool, e)
    ensures Comes(c, s') && s' == To(s, f, Running(s.fans[f].stage.items, p))
  {
    hide Comes;
    s' := To(s, f, Running(s.fans[f].stage.items, p));
    Move(c, s, Branch(f, e), s');
  }

  /** A retry after a refused write finds the journal in memory. */
  lemma RetryRunsAhead(c: Level, f: nat)
    requires f < |c.fans| && c.fans[f].retries > 0
    ensures MayRunAhead(c)
  {
    hide Comes;
    var s := PassesTo(c, f);
    var t := StartsSaving(c, s, f, [0]);
    var s1 := t.(fans := t.fans[f := Fan(Some([0]), Errored, 0)]);
    Move(c, t, Save(f, Failed), s1);
    var s2 := t.(fans := t.fans[f := Fan(Some([0]), Resolving, 1)]);
    Move(c, s1, Retry(f), s2);
    var s3 := t.(fans := t.fans[f := Fan(Some([0]), Running([0], NewPool(1)), 1)]);
    Move(c, s2, Reread(f), s3);
    OneBranchRunsAhead(c, s3, f);
  }

  /** A batching store accepts the journal without writing it. */
  lemma DeferralRunsAhead(c: Level)
    requires c.fans != [] && c.batchK > 1
    ensures MayRunAhead(c)
  {
    hide Comes;
    var s := PassesTo(c, 0);
    var t := StartsSaving(c, s, 0, [0]);
    var s1 := t.(fans := t.fans[0 := Fan(Some([0]), Running([0], NewPool(1)), 0)]);
    Move(c, t, Save(0, Deferred), s1);
    OneBranchRunsAhead(c, s1, 0);
  }

  /** Both are launched; neither has journaled. */
  lemma BothResolve(c: Level) returns (s: State)
    requires |c.fans| >= 2 && Slots(c) >= 2
    ensures Comes(c, s) && Fit(c, s) && s.up && s.capture == {} && s.disk[1] == None
    ensures s.fans[0] == s.fans[1] == Fan(None, Resolving, 0)
  {
    hide Comes, Slots;
    var t := PassesTo(c, 0);
    var fan := Fan(None, Resolving, 0);
    var s1 := t.(fans := t.fans[0 := fan], cursor := 1);
    Move(c, t, Launch, s1);
    OnlyLive(t.fans, 0, fan);
    s := s1.(fans := s1.fans[1 := fan], cursor := 2);
    Move(c, s1, Launch, s);
  }

  /**
    The first fan-out drains the journals of both from the shared capture; the second one's write has nothing left to
    write, succeeds at once, and its branches start before the first one's write is done.
  */
  lemma SiblingRunsAhead(c: Level)
    requires |c.fans| >= 2 && Slots(c) >= 2 && !c.whole
    ensures MayRunAhead(c)
  {
    hide Comes, Slots;
    var s := BothResolve(c);
    var fan := Fan(Some([0]), Journaled, 0);
    var s1 := s.(fans := s.fans[0 := fan], capture := {0});
    Move(c, s, Expand(0, [0]), s1);
    var s2 := s1.(fans := s1.fans[1 := fan], capture := {0, 1});
    Move(c, s1, Expand(1, [0]), s2);
    var s3 := s2.(fans := s2.fans[0 := fan.(stage := Saving({0, 1}))], capture := {});
    Move(c, s2, Drain(0), s3);
    SecondIsEmpty(c, s3);
  }

  lemma SecondIsEmpty(c: Level, s: State)
    requires Comes(c, s) && Fit(c, s) && s.up && |c.fans| >= 2 && !c.whole && s.capture == {} && s.disk[1] == None
    requires s.fans[1] == Fan(Some([0]), Journaled, 0)
    ensures MayRunAhead(c)
  {
    hide Comes;
    var s1 := s.(fans := s.fans[1 := Fan(Some([0]), Saving({}), 0)]);
    Move(c, s, Drain(1), s1);
    var s2 := s.(fans := s.fans[1 := Fan(Some([0]), Running([0], NewPool(1)), 0)]);
    assert WithJournals(s.disk, s1.fans, {}) == s.disk;
    Move(c, s1, Save(1, Written), s2);
    OneBranchRunsAhead(c, s2, 1);
  }

  /**
    No branch of a fan-out of the level starts before its item list is durable, exactly when no fan-out of it is
    retried, the store writes every checkpoint, and it writes the whole run data or the fan-outs run one by one.
  */
  lemma DurableBeforeBranchesIff(c: Level)
    ensures !MayRunAhead(c) <==> c.fans == [] || Faithful(c)
  {
    hide Comes, RunsAhead, OneByOne;
    if Faithful(c) {
      forall s, f | Comes(c, s) ensures !RunsAhead(s, f) { NeverAhead(c, s, f); }
    } else if c.fans == [] {
      forall s, f | Comes(c, s) ensures !RunsAhead(s, f) { NobodyRuns(c, s, f); }
    } else if !NoRetries(c) {
      var f :| 0 <= f < |c.fans| && c.fans[f].retries != 0;
      RetryRunsAhead(c, f);
    } else if c.batchK > 1 {
      DeferralRunsAhead(c);
    } else {
      TwoAtOnce(c);
      SiblingRunsAhead(c);
    }
  }

  lemma TwoAtOnce(c: Level)
    ensures !OneByOne(c) ==> |c.fans| >= 2 && Slots(c) >= 2
  {
  }
}

/** When a first-of node keeps to one arm and to its deadline beside the fan-outs of its level. */
module FirstOfSafety {
  import opened Names
  import opened Wrappers
  import opened Arithmetic
  import opened Signals
  import opened FirstOf
  import opened Sets

  /** Nothing of the level runs while the node does. */
  predicate Alone(c: Config) { Limit(c) <= 1 || Fans(c) == 0 }

  /** At most one fan-out can still be open when the node is launched, and none is launched later. */
  predicate OneLeft(c: Config) { c.after == 0 && (c.before <= 1 || Limit(c) <= 2) }

  // ---- The fan-outs ----

  ghost predicate Fit(c: Config, s: State) { |s.mem.fans| == |s.disk.fans| == Fans(c) }

  ghost predicate NoneLive(fans: seq<Fan>) { forall f :: 0 <= f < |fans| ==> !FanLive(fans[f]) }

  ghost predicate AloneKept(s: State) { NodeLive(s.pc) ==> NoneLive(s.mem.fans) }

  /** The node was launched by this drive and has not completed. */
  predicate Entered(s: State) { NodeLive(s.pc) || (s.pc == Settled && s.mem.w.status == Waiting) }

  /** A fan-out past its expansion has its journal in memory. */
  predicate JournalFirst(fan: Fan) { fan.stage == Flushing || fan.stage == Driving ==> fan.journaled }

  /** The launch loop has passed exactly the fan-outs before its cursor. */
  ghost predicate Walked(c: Config, s: State) {
    && (forall f :: 0 <= f < |s.mem.fans| ==> JournalFirst(s.mem.fans[f]))
    && (forall f :: 0 <= f < |s.mem.fans| ==>
          if f < s.cursor then s.mem.fans[f].stage != Open else !FanLive(s.mem.fans[f]))
    && (Entered(s) ==> s.cursor > c.before)
  }

  predicate NeverFlushes(fan: Fan) { fan.stage == Ended || (fan.journaled && fan.stage != Flushing) }

  ghost predicate NoneFlushes(fans: seq<Fan>) { forall f :: 0 <= f < |fans| ==> NeverFlushes(fans[f]) }

  ghost predicate OneOpen(fans: seq<Fan>) {
    forall f, g :: 0 <= f < |fans| && 0 <= g < |fans| && fans[f].stage != Ended && fans[g].stage != Ended ==> f == g
  }

  ghost predicate OneLeftKept(c: Config, s: State) {
    && (Up(s) ==> Walked(c, s))
    && (Up(s) && Entered(s) ==> OneOpen(s.mem.fans))
    && (Up(s) && s.disk.w.wait.Some? ==> NoneFlushes(s.mem.fans))
    && (s.disk.w.wait.Some? ==> NoneFlushes(Restarted(s.disk).fans))
  }

  lemma FitStep(c: Config, s: State, e: Event)
    requires Fit(c, s) && Enabled(c, s, e)
    ensures Fit(c, Apply(c, s, e))
  {
    hide IsFirst, FireAt, LiveFans, Live, ReopenedFan, FanAt, Skips, Drained;
  }

  lemma NoLiveFan(fans: seq<Fan>)
    requires |LiveFans(fans)| == 0
    ensures NoneLive(fans)
  {
    forall f | 0 <= f < |fans| ensures !FanLive(fans[f]) { assert f !in LiveFans(fans); }
  }

  lemma LaunchAlone(c: Config, s: State)
    requires Alone(c) && Fit(c, s) && AloneKept(s) && Enabled(c, s, Launch)
    ensures AloneKept(Launched(c, s))
  {
    hide LiveFans;
    if Fans(c) > 0 && s.cursor == c.before && s.pc == Idle {
      NoLiveFan(s.mem.fans);
    }
  }

  lemma AloneStep(c: Config, s: State, e: Event)
    requires Alone(c) && Fit(c, s) && AloneKept(s) && Enabled(c, s, e)
    ensures AloneKept(Apply(c, s, e))
  {
    hide IsFirst, FireAt, Restarted, Skips, Drained, LiveFans, Empty, Unparked, Launched;
    if e == Launch {
      LaunchAlone(c, s);
    }
  }

  lemma OneLive(fans: seq<Fan>, f: nat, g: nat)
    requires |LiveFans(fans)| <= 1 && f < |fans| && g < |fans| && FanLive(fans[f]) && FanLive(fans[g])
    ensures f == g
  {
    if f != g {
      SubsetSize({f, g}, LiveFans(fans));
    }
  }

  /** At most one fan-out is open when the node launches. */
  lemma LaunchOneOpen(c: Config, s: State)
    requires OneLeft(c) && Fit(c, s) && Walked(c, s) && s.cursor == c.before && Live(s) < Limit(c)
    ensures OneOpen(s.mem.fans)
  {
    hide Limit, LiveFans;
    var fans := s.mem.fans;
    forall f, g | 0 <= f < |fans| && 0 <= g < |fans| && fans[f].stage != Ended && fans[g].stage != Ended
      ensures f == g
    {
      if c.before > 1 { OneLive(fans, f, g); }
    }
  }

  lemma LaunchOneLeft(c: Config, s: State)
    requires OneLeft(c) && Fit(c, s) && OneLeftKept(c, s) && Enabled(c, s, Launch)
    ensures OneLeftKept(c, Launched(c, s))
  {
    hide LiveFans, Restarted, Live, Limit;
    if s.cursor == c.before && s.pc == Idle {
      LaunchOneOpen(c, s);
    }
  }

  lemma FanOneLeft(c: Config, s: State, e: Event)
    requires e.FanExpand? || e.FanReread? || e.FanEnd?
    requires OneLeft(c) && Fit(c, s) && OneLeftKept(c, s) && Enabled(c, s, e)
    ensures OneLeftKept(c, Apply(c, s, e))
  {
    hide LiveFans, Restarted, Live, Limit;
  }

  lemma FlushOneLeft(c: Config, s: State, f: nat, saved: bool)
    requires Invariant(s) && OneLeft(c) && Fit(c, s) && OneLeftKept(c, s) && Enabled(c, s, FanFlush(f, saved))
    ensures s.disk.w.wait == None
    ensures OneLeftKept(c, Apply(c, s, FanFlush(f, saved)))
  {
    hide LiveFans, Live, Limit, Consumes, Acknowledged;
    assert !NeverFlushes(s.mem.fans[f]);
  }

  lemma NodeOneLeft(c: Config, s: State, e: Event)
    requires e.Encounter? || e.Write?
    requires OneLeft(c) && Fit(c, s) && OneLeftKept(c, s) && Enabled(c, s, e)
    ensures OneLeftKept(c, Apply(c, s, e))
  {
    hide IsFirst, FireAt, LiveFans, Live, Limit, Restarted;
  }

  lemma SaveOneLeft(c: Config, s: State, e: Event)
    requires e.EarlyFlush? || e.LaterFlush? || e.Exit? || e.Abort?
    requires Invariant(s) && OneLeft(c) && Fit(c, s) && OneLeftKept(c, s) && Enabled(c, s, e)
    ensures OneLeftKept(c, Apply(c, s, e))
  {
    hide LiveFans, Live, Limit, Consumes, Acknowledged;
    DrainedNoneLive(s);
  }

  lemma DrainedNoneLive(s: State)
    ensures Drained(s) ==> NoneLive(s.mem.fans)
  {
    if Drained(s) { NoLiveFan(s.mem.fans); }
  }

  lemma OneLeftStep(c: Config, s: State, e: Event)
    requires Invariant(s) && OneLeft(c) && Fit(c, s) && OneLeftKept(c, s) && Enabled(c, s, e)
    ensures OneLeftKept(c, Apply(c, s, e))
  {
    hide IsFirst, FireAt, LiveFans, Live, Limit, Invariant, Launched, Encountered, Written, Drained;
    match e
    case Launch => LaunchOneLeft(c, s);
    case Encounter(_, _) => NodeOneLeft(c, s, e);
    case Write => NodeOneLeft(c, s, e);
    case FanExpand(_) => FanOneLeft(c, s, e);
    case FanReread(_) => FanOneLeft(c, s, e);
    case FanEnd(_) => FanOneLeft(c, s, e);
    case FanFlush(f, saved) => FlushOneLeft(c, s, f, saved);
    case EarlyFlush => SaveOneLeft(c, s, e);
    case LaterFlush => SaveOneLeft(c, s, e);
    case Exit(_) => SaveOneLeft(c, s, e);
    case Abort(_) => SaveOneLeft(c, s, e);
    case _ =>
  }

  ghost predicate Calm(c: Config, s: State) {
    Invariant(s) && Fit(c, s) && (Alone(c) ==> AloneKept(s)) && (OneLeft(c) ==> OneLeftKept(c, s))
  }

  lemma CalmStep(c: Config, s: State, e: Event)
    requires Calm(c, s) && Enabled(c, s, e)
    ensures Calm(c, Apply(c, s, e))
  {
    hide Enabled, Apply, Invariant, Fit, Alone, AloneKept, OneLeft, OneLeftKept;
    InvariantStep(c, s, e);
    FitStep(c, s, e);
    if Alone(c) { AloneStep(c, s, e); }
    if OneLeft(c) { OneLeftStep(c, s, e); }
  }

  // ---- The deadline ----

  ghost predicate KeepsDeadline(s: State, s': State) {
    s.disk.w.wait.Some? && s'.disk.w.wait != s.disk.w.wait ==> s'.disk.w.status == Completed
  }

  /** In no run does a durable deadline change short of the node's completion. */
  ghost predicate AlwaysKeepsDeadline(c: Config) {
    forall s, e :: Reachable(c, s) && Enabled(c, s, e) ==> KeepsDeadline(s, Apply(c, s, e))
  }

  lemma StepKeepsDeadline(c: Config, s: State, e: Event)
    requires (Alone(c) || OneLeft(c)) && Calm(c, s) && Enabled(c, s, e)
    ensures KeepsDeadline(s, Apply(c, s, e))
  {
    hide IsFirst, FireAt, LiveFans, Live, Limit, Alone, OneLeft, Restarted, OneLeftKept, Consumes, Acknowledged,
         WithFan,
         FanAt, Skips;
    if e.FanFlush? && OneLeft(c) {
      FlushOneLeft(c, s, e.fan, e.saved);
    }
  }

  // ---- The arms ----

  ghost predicate OneArm(w: Arms) {
    w.status == Completed ==> (w.payload.Some? <==> !w.timedOut)
  }

  ghost predicate Untouched(w: Arms) { w.payload == None && !w.timedOut }

  ghost predicate HasSignal(c: Config, box: map<Name, Signal>) {
    exists id :: id in box && box[id].name == c.signalName
  }

  /** A payload of a node that is not completed has its signal still in the mailbox. */
  ghost predicate Buffered(c: Config, s: State, w: Arms) {
    w.payload.Some? ==> !Alone(c) && !c.reuse && HasSignal(c, s.mailbox)
  }

  ghost predicate CleanDisk(c: Config, s: State) {
    OneArm(s.disk.w) && (s.disk.w.status != Completed ==> !s.disk.w.timedOut && Buffered(c, s, s.disk.w))
  }

  ghost predicate CleanArms(c: Config, s: State) {
    var w := s.mem.w;
    && (s.pc in {Idle, Ready} ==> !w.timedOut && Buffered(c, s, w))
    && (s.pc == Armed ==> Untouched(w))
    && (s.pc in {SignalSet, SignalCleared} ==> w.payload.Some? && !w.timedOut && (c.reuse || HasSignal(c, s.mailbox)))
    && (s.pc in {TimeoutSet, TimeoutCleared} ==> w.payload == None && w.timedOut)
    && (s.pc == TimeoutCleared ==> s.disk.w.wait.Some?)
    && (s.pc == Settled || s.pc == Acking ==> OneArm(w) && (w.status != Completed ==> Untouched(w)))
  }

  /** Nothing checkpoints between the node's writes, or only what the next drive puts right. */
  predicate Guarded(c: Config) { Alone(c) || (OneLeft(c) && !c.reuse) }

  ghost predicate AlwaysOneArm(c: Config) {
    forall s :: Reachable(c, s) ==> OneArm(s.disk.w)
  }

  lemma DeliverClean(c: Config, s: State, sig: Signal)
    requires CleanDisk(c, s) && CleanArms(c, s) && Enabled(c, s, Deliver(sig))
    ensures CleanDisk(c, Apply(c, s, Deliver(sig))) && CleanArms(c, Apply(c, s, Deliver(sig)))
  {
    var s' := Apply(c, s, Deliver(sig));
    if !c.reuse && HasSignal(c, s.mailbox) {
      var id :| id in s.mailbox && s.mailbox[id].name == c.signalName;
      assert id in s'.mailbox && s'.mailbox[id].name == c.signalName;
    }
  }

  lemma FlushClean(c: Config, s: State, f: nat, saved: bool)
    requires Guarded(c) && Calm(c, s) && CleanDisk(c, s) && CleanArms(c, s) && Enabled(c, s, FanFlush(f, saved))
    ensures CleanDisk(c, Apply(c, s, FanFlush(f, saved))) && CleanArms(c, Apply(c, s, FanFlush(f, saved)))
  {
    hide LiveFans, Live, Limit, OneLeftKept, Consumes, Acknowledged, HasSignal, FanAt, Alone, OneLeft;
    if Alone(c) {
      assert FanLive(s.mem.fans[f]);
    } else {
      FlushOneLeft(c, s, f, saved);
    }
  }

  lemma LaunchClean(c: Config, s: State)
    requires Invariant(s) && CleanDisk(c, s) && CleanArms(c, s) && Enabled(c, s, Launch)
    ensures CleanDisk(c, Launched(c, s)) && CleanArms(c, Launched(c, s))
  {
    hide LiveFans, Live, Limit, Consumes, Acknowledged, FanAt, Alone, WithFan, HasSignal;
  }

  lemma EncounterClean(c: Config, s: State, pick: Option<Name>, now: int)
    requires s.pc == Ready && IsFirst(s.mailbox, c.signalName, pick) && CleanDisk(c, s) && CleanArms(c, s)
    ensures CleanDisk(c, Encountered(c, s, pick, now)) && CleanArms(c, Encountered(c, s, pick, now))
  {
    hide Alone, FireAt;
  }

  lemma WriteClean(c: Config, s: State)
    requires s.pc in {SignalSet, SignalCleared, TimeoutSet, TimeoutCleared, Armed}
    requires Invariant(s) && CleanDisk(c, s) && CleanArms(c, s)
    ensures CleanDisk(c, Written(s)) && CleanArms(c, Written(s))
  {
    hide Consumes, Acknowledged, Alone;
  }

  lemma BorderClean(c: Config, s: State, e: Event)
    requires !e.Deliver? && !e.FanFlush? && !e.Launch? && !e.Encounter? && !e.Write?
    requires Invariant(s) && CleanDisk(c, s) && CleanArms(c, s) && Enabled(c, s, e)
    ensures CleanDisk(c, Apply(c, s, e)) && CleanArms(c, Apply(c, s, e))
  {
    hide LiveFans, Live, Limit, Acknowledged, FanAt, Alone, WithFan, Restarted, HasSignal;
  }

  lemma CleanStep(c: Config, s: State, e: Event)
    requires Guarded(c) && Calm(c, s) && CleanDisk(c, s) && CleanArms(c, s) && Enabled(c, s, e)
    ensures CleanDisk(c, Apply(c, s, e)) && CleanArms(c, Apply(c, s, e))
  {
    hide Guarded, Invariant, Fit, CleanDisk, CleanArms, Launched, Encountered, Written, Restarted, Empty, WithFan, Live,
         LiveFans, Skips, IsFirst, FanAt;
    match e
    case Deliver(sig) => DeliverClean(c, s, sig);
    case FanFlush(f, saved) => FlushClean(c, s, f, saved);
    case Launch => LaunchClean(c, s);
    case Encounter(pick, now) => EncounterClean(c, s, pick, now);
    case Write => WriteClean(c, s);
    case _ => BorderClean(c, s, e);
  }

  // ---- Every run ----

  ghost predicate Safe(c: Config, s: State) {
    Calm(c, s) && (Guarded(c) ==> CleanDisk(c, s) && CleanArms(c, s))
  }

  lemma {:induction false} SafeAfter(c: Config, s: State, es: seq<Event>)
    requires Safe(c, s) && Legal(c, s, es)
    ensures Safe(c, After(c, s, es))
    decreases |es|
  {
    hide Enabled, Apply, Calm, Guarded, CleanDisk, CleanArms;
    if es != [] {
      CalmStep(c, s, es[0]);
      if Guarded(c) { CleanStep(c, s, es[0]); }
      SafeAfter(c, Apply(c, s, es[0]), es[1..]);
    }
  }

  lemma ReachableSafe(c: Config, s: State)
    requires Reachable(c, s)
    ensures Safe(c, s)
  {
    hide Enabled, Apply, Safe;
    InitialIsSafe(c);
    var es :| Legal(c, Initial(c), es) && After(c, Initial(c), es) == s;
    SafeAfter(c, Initial(c), es);
  }

  lemma InitialIsSafe(c: Config)
    ensures Safe(c, Initial(c))
  {
  }

  lemma GuardedIsOneArmed(c: Config)
    requires Guarded(c)
    ensures AlwaysOneArm(c)
  {
    hide Guarded, Calm, CleanArms, Reachable;
    forall s | Reachable(c, s) ensures OneArm(s.disk.w) {
      ReachableSafe(c, s);
    }
  }

  lemma CalmKeepsDeadline(c: Config)
    requires Alone(c) || OneLeft(c)
    ensures AlwaysKeepsDeadline(c)
  {
    hide Alone, OneLeft, Calm, CleanArms, CleanDisk, Guarded, Reachable, KeepsDeadline, Enabled, Apply;
    forall s, e | Reachable(c, s) && Enabled(c, s, e) ensures KeepsDeadline(s, Apply(c, s, e)) {
      ReachableSafe(c, s);
      StepKeepsDeadline(c, s, e);
    }
  }

  // ---- What an acknowledgement removes ----

  /** The entry under the consumed ID is still the one that was taken, as far as senders leave it alone. */
  ghost predicate Held(c: Config, s: State) {
    match s.consumed
    case Some(id) =>
      && id in s.taken && id in s.mailbox
      && (!c.resend ==> s.mailbox[id].payload == s.taken[id])
      && (!c.reuse ==> s.mailbox[id].name == c.signalName)
    case None => true
  }

  /** The payload of every entry that an acknowledgement removes is the completed node's, durably. */
  ghost predicate RemovesTakenPayload(c: Config, s: State) {
    s.pc == Acking && s.consumed.Some? ==>
      && s.consumed.value in s.mailbox && s.disk.w.status == Completed
      && s.disk.w.payload == Some(s.mailbox[s.consumed.value].payload)
  }

  ghost predicate NoPayloadLost(c: Config) {
    forall s :: Reachable(c, s) ==> RemovesTakenPayload(c, s)
  }

  /** The removed entry is moreover one of the node's own signal. */
  ghost predicate NoEntryLost(c: Config) {
    forall s :: Reachable(c, s) ==>
      RemovesTakenPayload(c, s)
      && (s.pc == Acking && s.consumed.Some? ==> s.mailbox[s.consumed.value].name == c.signalName)
  }

  lemma HeldStep(c: Config, s: State, e: Event)
    requires Held(c, s) && Enabled(c, s, e)
    ensures Held(c, Apply(c, s, e))
  {
    hide FireAt, LiveFans, Live, Restarted, WithFan, FanAt, Skips, Drained, Empty, Unparked;
  }

  lemma {:induction false} HeldAfter(c: Config, s: State, es: seq<Event>)
    requires Held(c, s) && Legal(c, s, es)
    ensures Held(c, After(c, s, es))
    decreases |es|
  {
    hide Enabled, Apply, Held;
    if es != [] {
      HeldStep(c, s, es[0]);
      HeldAfter(c, Apply(c, s, es[0]), es[1..]);
    }
  }

  lemma ReachableHeld(c: Config, s: State)
    requires Reachable(c, s)
    ensures Held(c, s) && Invariant(s)
  {
    hide Enabled, Apply, Invariant;
    ReachableInvariant(c, s);
    var es :| Legal(c, Initial(c), es) && After(c, Initial(c), es) == s;
    HeldAfter(c, Initial(c), es);
  }

  lemma HeldIsRemoved(c: Config)
    ensures !c.resend ==> NoPayloadLost(c)
    ensures !c.resend && !c.reuse ==> NoEntryLost(c)
  {
    hide Reachable, Deadline, Acknowledged;
    forall s | Reachable(c, s)
      ensures !c.resend ==> RemovesTakenPayload(c, s)
      ensures !c.reuse && s.pc == Acking && s.consumed.Some? && s.consumed.value in s.mailbox
          ==> s.mailbox[s.consumed.value].name == c.signalName
    {
      ReachableHeld(c, s);
    }
  }
}

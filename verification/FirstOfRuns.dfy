/** The runs in which a fan-out's checkpoint catches a first-of node between its writes, and so when none exists. */
module FirstOfRuns {
  import opened Names
  import opened Wrappers
  import opened Arithmetic
  import opened Signals
  import opened FirstOf
  import opened FirstOfSafety

  lemma Move(c: Config, s: State, e: Event, s': State)
    requires Reachable(c, s) && Enabled(c, s, e) && s' == Apply(c, s, e)
    ensures Reachable(c, s')
  {
    hide Enabled, Apply;
    var es :| Legal(c, Initial(c), es) && After(c, Initial(c), es) == s;
    OneMore(c, Initial(c), es, e);
  }

  lemma {:induction false} OneMore(c: Config, s: State, es: seq<Event>, e: Event)
    requires Legal(c, s, es) && Enabled(c, After(c, s, es), e)
    ensures Legal(c, s, es + [e]) && After(c, s, es + [e]) == Apply(c, After(c, s, es), e)
    decreases |es|
  {
    hide Enabled, Apply;
    if es == [] {
      assert es + [e] == [e];
    } else {
      OneMore(c, Apply(c, s, es[0]), es[1..], e);
      assert (es + [e])[1..] == es[1..] + [e];
    }
  }

  lemma Start(c: Config)
    ensures Reachable(c, Initial(c))
  {
    assert Legal(c, Initial(c), []) && After(c, Initial(c), []) == Initial(c);
  }

  // ---- Launching up to the node ----

  lemma Silent(fans: seq<Fan>)
    requires NoneLive(fans)
    ensures LiveFans(fans) == {}
  {
  }

  /** The launch loop passes one fan-out, which runs to its end at once. */
  lemma PassOne(c: Config, s: State) returns (s': State)
    requires Reachable(c, s) && Fit(c, s) && s.pc == Idle && s.cursor < c.before && NoneLive(s.mem.fans)
    ensures Reachable(c, s') && Fit(c, s') && NoneLive(s'.mem.fans)
    ensures s' == s.(cursor := s.cursor + 1, mem := WithFan(s.mem, s.cursor, s.mem.fans[s.cursor].(stage := Ended)))
  {
    hide Reachable, LiveFans;
    var f := s.cursor;
    Silent(s.mem.fans);
    s' := s.(cursor := s.cursor + 1, mem := WithFan(s.mem, f, s.mem.fans[f].(stage := Ended)));
    if s.mem.fans[f].stage == Ended {
      assert s'.mem == s.mem;
      Move(c, s, Launch, s');
    } else {
      var s1 := s.(cursor := s.cursor + 1, mem := WithFan(s.mem, f, s.mem.fans[f].(stage := Expanding)));
      Move(c, s, Launch, s1);
      assert WithFan(s1.mem, f, s1.mem.fans[f].(stage := Ended)) == s'.mem;
      Move(c, s1, FanEnd(f), s');
    }
  }

  ghost predicate PassedTo(s: State, s': State, k: nat) {
    && s' == s.(cursor := k, mem := s'.mem) && s'.mem.w == s.mem.w && |s'.mem.fans| == |s.mem.fans|
    && forall f :: 0 <= f < |s.mem.fans| ==>
         if f < k then s'.mem.fans[f].stage == Ended else s'.mem.fans[f] == s.mem.fans[f]
  }

  lemma {:induction false} Pass(c: Config, s: State, k: nat) returns (s': State)
    requires Reachable(c, s) && Fit(c, s) && s.pc == Idle && s.cursor == 0 && k <= c.before && NoneLive(s.mem.fans)
    ensures Reachable(c, s') && Fit(c, s') && NoneLive(s'.mem.fans) && PassedTo(s, s', k)
  {
    hide Reachable;
    if k == 0 {
      s' := s;
    } else {
      var t := Pass(c, s, k - 1);
      s' := PassOne(c, t);
    }
  }

  /** Same run data outside the level, and nothing pending acknowledgement. */
  ghost predicate SameRun(s: State, s': State) {
    s'.mailbox == s.mailbox && s'.taken == s.taken && s'.acked == s.acked && s'.consumed == None && !s'.cancelled
  }

  /** A new drive up to a place before the node. */
  lemma Redrive(c: Config, s: State, k: nat) returns (s': State)
    requires Reachable(c, s) && Fit(c, s) && s.pc == Down && s.disk.w.status != Completed && k <= c.before
    ensures Reachable(c, s') && Fit(c, s') && s'.pc == Idle && s'.cursor == k && SameRun(s, s') && s'.disk == s.disk
    ensures s'.mem.w == Restarted(s.disk).w && NoneLive(s'.mem.fans)
    ensures forall f :: 0 <= f < Fans(c) ==>
      if f < k then s'.mem.fans[f].stage == Ended else s'.mem.fans[f] == ReopenedFan(s.disk.fans[f])
  {
    hide Reachable;
    var s1 := s.(mem := Restarted(s.disk), pc := Idle, cursor := 0, cancelled := false, consumed := None);
    Move(c, s, Begin, s1);
    s' := Pass(c, s1, k);
  }

  ghost predicate Inside(c: Config, s: State, s': State) {
    && Reachable(c, s') && Fit(c, s') && s'.pc == Ready && SameRun(s, s') && s'.disk == s.disk
    && s'.mem.w == s.disk.w.(status := Running)
  }

  /** A new drive in which the node runs alone, the fan-outs before it being over. */
  lemma EnterNode(c: Config, s: State) returns (s': State)
    requires Reachable(c, s) && Fit(c, s) && s.pc == Down && s.disk.w.status != Completed
    ensures Inside(c, s, s') && s'.cursor == c.before + 1 && NoneLive(s'.mem.fans)
    ensures forall f :: 0 <= f < Fans(c) ==>
      if f < c.before then s'.mem.fans[f].stage == Ended else s'.mem.fans[f] == ReopenedFan(s.disk.fans[f])
  {
    hide Reachable, LiveFans;
    var t := Redrive(c, s, c.before);
    Silent(t.mem.fans);
    s' := t.(cursor := c.before + 1, mem := t.mem.(w := t.mem.w.(status := Running)), pc := Ready);
    Move(c, t, Launch, s');
  }

  /** This fan-out can be live together with the node, and has its item list still to journal. */
  predicate Beside(c: Config, d: Snap, f: nat) {
    && f < |d.fans| && d.fans[f].stage != Ended && !d.fans[f].journaled
    && (f + 1 == c.before || (f == c.before && c.after > 0))
  }

  lemma OnlyLive(fans: seq<Fan>, f: nat, fan: Fan)
    requires f < |fans| && NoneLive(fans) && FanLive(fan)
    ensures LiveFans(fans[f := fan]) == {f}
  {
  }

  /** A new drive in which the node is launched while that fan-out is about to save its journal. */
  lemma EnterBeside(c: Config, s: State, f: nat) returns (s': State)
    requires Reachable(c, s) && Fit(c, s) && s.pc == Down && s.disk.w.status != Completed
    requires Beside(c, s.disk, f) && Limit(c) >= 2
    ensures Inside(c, s, s') && s'.mem.fans[f].stage == Flushing
  {
    hide Reachable, LiveFans, Limit;
    if f == c.before {
      var t := EnterNode(c, s);
      Silent(t.mem.fans);
      var s1 := t.(cursor := t.cursor + 1, mem := WithFan(t.mem, f, t.mem.fans[f].(stage := Expanding)));
      Move(c, t, Launch, s1);
      s' := s1.(mem := WithFan(s1.mem, f, Fan(Flushing, true)));
      Move(c, s1, FanExpand(f), s');
    } else {
      var t := Redrive(c, s, f);
      Silent(t.mem.fans);
      OnlyLive(t.mem.fans, f, Fan(Flushing, true));
      var s1 := t.(cursor := t.cursor + 1, mem := WithFan(t.mem, f, t.mem.fans[f].(stage := Expanding)));
      Move(c, t, Launch, s1);
      var s2 := s1.(mem := WithFan(s1.mem, f, Fan(Flushing, true)));
      Move(c, s1, FanExpand(f), s2);
      assert s2.mem.fans == t.mem.fans[f := Fan(Flushing, true)];
      s' := s2.(cursor := c.before + 1, mem := s2.mem.(w := s2.mem.w.(status := Running)), pc := Ready);
      Move(c, s2, Launch, s');
    }
  }

  // ---- Leaving a drive ----

  /** The fan-out's flush catches the run's data as they are, and the process dies. */
  lemma FlushAndDie(c: Config, s: State, f: nat) returns (s': State)
    requires Reachable(c, s) && Fit(c, s) && FanIs(s, f, Flushing)
    ensures Reachable(c, s') && Fit(c, s') && s'.pc == Down && s'.disk == s.mem
    ensures s'.mailbox == s.mailbox && s'.taken == s.taken && s'.acked == s.acked
  {
    hide Reachable;
    var s1 := s.(disk := s.mem, mem := WithFan(s.mem, f, s.mem.fans[f].(stage := Driving)));
    Move(c, s, FanFlush(f, true), s1);
    s' := s1.(mem := Empty(c), pc := Down, consumed := None);
    Move(c, s1, Crash, s');
  }

  /** The caller cancels once the node has finished or parked; the failed drive saves its data. */
  lemma CancelAndSave(c: Config, s: State) returns (s': State)
    requires Reachable(c, s) && Fit(c, s) && s.pc == Settled && NoneLive(s.mem.fans)
    ensures Reachable(c, s') && Fit(c, s') && s'.pc == Down && s'.disk == Unparked(s.mem)
    ensures s'.mailbox == s.mailbox && s'.taken == s.taken && s'.acked == s.acked
  {
    hide Reachable, LiveFans;
    Silent(s.mem.fans);
    var s1 := s.(cancelled := true);
    Move(c, s, Cancel, s1);
    s' := s1.(disk := Unparked(s1.mem), pc := Down, consumed := None);
    Move(c, s1, Abort(true), s');
  }

  // ---- What one drive can leave behind ----

  ghost predicate NoSignal(c: Config, s: State) {
    forall id :: id in s.mailbox ==> s.mailbox[id].name != c.signalName
  }

  /** The node arms and parks, and the drive is cancelled before it launches what comes after the node. */
  lemma ArmAndSave(c: Config, s: State) returns (s': State)
    requires Reachable(c, s) && Fit(c, s) && s.pc == Down && s.disk.w.status != Completed
    requires s.disk.w.wait == None && NoSignal(c, s)
    ensures Reachable(c, s') && Fit(c, s') && s'.pc == Down && s'.mailbox == s.mailbox
    ensures s'.disk.w == s.disk.w.(status := Pending, wait := Some(FireAt(0, c.duration)))
    ensures forall f :: c.before <= f < Fans(c) ==> s'.disk.fans[f] == ReopenedFan(s.disk.fans[f])
  {
    hide Reachable, FireAt, LiveFans, NoneLive;
    var t := EnterNode(c, s);
    var s1 := t.(mem := t.mem.(w := t.mem.w.(wait := Some(FireAt(0, c.duration)))), pc := Armed);
    Move(c, t, Encounter(None, 0), s1);
    var s2 := s1.(mem := s1.mem.(w := s1.mem.w.(status := Waiting)), pc := Settled);
    Move(c, s1, Write, s2);
    s' := CancelAndSave(c, s2);
  }

  lemma AlwaysDue(c: Config)
    requires IsInt64(c.duration)
    ensures FireAt(0, c.duration) <= INT_LIMIT - 1
  {
    FireAtSaturates(0, c.duration);
  }

  /** The deadline has passed and the node is between its first write and the next, with a flush due. */
  lemma TimingOut(c: Config, s: State, f: nat) returns (s': State)
    requires Reachable(c, s) && Fit(c, s) && s.pc == Down && s.disk.w.status != Completed && NoSignal(c, s)
    requires s.disk.w.wait.Some? && s.disk.w.wait.value < INT_LIMIT && Beside(c, s.disk, f) && Limit(c) >= 2
    ensures Reachable(c, s') && Fit(c, s') && s'.pc == TimeoutSet && FanIs(s', f, Flushing)
    ensures s'.mem.w == s.disk.w.(status := Running, timedOut := true) && s'.mailbox == s.mailbox && s'.disk == s.disk
  {
    hide Reachable;
    var t := EnterBeside(c, s, f);
    s' := t.(mem := t.mem.(w := t.mem.w.(timedOut := true)), pc := TimeoutSet);
    Move(c, t, Encounter(None, INT_LIMIT - 1), s');
  }

  /** A drive in which the deadline has passed completes the timeout arm. */
  lemma TimesOut(c: Config, s: State) returns (s': State)
    requires Reachable(c, s) && Fit(c, s) && s.pc == Down && s.disk.w.status != Completed && NoSignal(c, s)
    requires s.disk.w.wait.Some? && s.disk.w.wait.value < INT_LIMIT
    ensures Reachable(c, s') && s'.disk.w == s.disk.w.(status := Completed, wait := None, timedOut := true)
  {
    hide Reachable, LiveFans, NoneLive;
    var t := EnterNode(c, s);
    var w := t.mem.w.(timedOut := true);
    var s1 := t.(mem := t.mem.(w := w), pc := TimeoutSet);
    Move(c, t, Encounter(None, INT_LIMIT - 1), s1);
    var s2 := s1.(mem := s1.mem.(w := w.(wait := None)), pc := TimeoutCleared);
    Move(c, s1, Write, s2);
    var s3 := s2.(mem := s2.mem.(w := w.(wait := None, status := Completed)), pc := Settled);
    Move(c, s2, Write, s3);
    s' := CancelAndSave(c, s3);
  }

  /** The node takes the one buffered signal. */
  lemma Takes(c: Config, s: State, sig: Signal) returns (s': State)
    requires Reachable(c, s) && s.pc == Ready && sig.name == c.signalName && s.mailbox == map[sig.id := sig]
    ensures Reachable(c, s')
    ensures s' == s.(mem := s.mem.(w := s.mem.w.(payload := Some(sig.payload))), pc := SignalSet,
        consumed := Some(sig.id),
                     taken := s.taken[sig.id := sig.payload])
  {
    hide Reachable;
    s' := s.(mem := s.mem.(w := s.mem.w.(payload := Some(sig.payload))), pc := SignalSet, consumed := Some(sig.id),
             taken := s.taken[sig.id := sig.payload]);
    Move(c, s, Encounter(Some(sig.id), 0), s');
  }

  /** The node that took a signal clears its wait and completes. */
  lemma Completes(c: Config, s: State) returns (s': State)
    requires Reachable(c, s) && s.pc == SignalSet
    ensures Reachable(c, s')
    ensures s' == s.(mem := s.mem.(w := s.mem.w.(wait := None, status := Completed)), pc := Settled)
  {
    hide Reachable;
    var s1 := s.(mem := s.mem.(w := s.mem.w.(wait := None)), pc := SignalCleared);
    Move(c, s, Write, s1);
    s' := s1.(mem := s1.mem.(w := s1.mem.w.(status := Completed)), pc := Settled);
    Move(c, s1, Write, s');
  }

  /** A drive in which a signal is buffered completes the signal arm. */
  lemma SignalWins(c: Config, s: State) returns (s': State)
    requires Reachable(c, s) && Fit(c, s) && s.pc == Down && s.disk.w.status != Completed && s.mailbox == map[]
    ensures Reachable(c, s') && s'.disk.w == s.disk.w.(status := Completed, wait := None, payload := Some(7))
  {
    hide Reachable, LiveFans, NoneLive;
    var sig := Signal("id", c.signalName, 7);
    var s0 := s.(mailbox := map["id" := sig]);
    Move(c, s, Deliver(sig), s0);
    var t := EnterNode(c, s0);
    var s1 := Takes(c, t, sig);
    var s2 := Completes(c, s1);
    s' := CancelAndSave(c, s2);
  }

  // ---- A durable deadline with a fan-out still to flush beside the node ----

  lemma TwoLive(fans: seq<Fan>, f: nat, a: Fan, b: Fan)
    requires f + 1 < |fans| && NoneLive(fans) && FanLive(a) && FanLive(b)
    ensures LiveFans(fans[f := a][f + 1 := b]) == {f, f + 1}
  {
  }

  /** The two fan-outs just before the node are live, the first with its flush due. */
  lemma TwoBeforeNode(c: Config) returns (s: State)
    requires c.before >= 2 && Limit(c) >= 3
    ensures Reachable(c, s) && Fit(c, s) && s.pc == Idle && s.cursor == c.before && !s.cancelled
    ensures s.mailbox == map[] && s.mem.w == UNTOUCHED && |LiveFans(s.mem.fans)| == 2
    ensures s.mem.fans[c.before - 2].stage == Flushing && s.mem.fans[c.before - 1] == Fan(Expanding, false)
  {
    hide Reachable, LiveFans, Limit;
    Start(c);
    var f := c.before - 2;
    var t := Redrive(c, Initial(c), f);
    Silent(t.mem.fans);
    OnlyLive(t.mem.fans, f, Fan(Flushing, true));
    var s1 := t.(cursor := f + 1, mem := WithFan(t.mem, f, Fan(Expanding, false)));
    Move(c, t, Launch, s1);
    var s2 := s1.(mem := WithFan(s1.mem, f, Fan(Flushing, true)));
    Move(c, s1, FanExpand(f), s2);
    assert s2.mem.fans == t.mem.fans[f := Fan(Flushing, true)];
    TwoLive(t.mem.fans, f, Fan(Flushing, true), Fan(Expanding, false));
    s := s2.(cursor := f + 2, mem := WithFan(s2.mem, f + 1, Fan(Expanding, false)));
    Move(c, s2, Launch, s);
  }

  /** The first one's flush makes the deadline durable with the second one still to expand. */
  lemma FlushWhileArmed(c: Config) returns (s': State)
    requires c.before >= 2 && Limit(c) >= 3
    ensures Reachable(c, s') && Fit(c, s') && s'.pc == Down && s'.mailbox == map[]
    ensures s'.disk.w == Arms(Running, Some(FireAt(0, c.duration)), None, false) && Beside(c, s'.disk, c.before - 1)
  {
    hide Reachable, LiveFans, Limit, FireAt;
    var s3 := TwoBeforeNode(c);
    var s4 := s3.(cursor := c.before + 1, mem := s3.mem.(w := Arms(Running, None, None, false)), pc := Ready);
    Move(c, s3, Launch, s4);
    var s5 := s4.(mem := s4.mem.(w := Arms(Running, Some(FireAt(0, c.duration)), None, false)), pc := Armed);
    Move(c, s4, Encounter(None, 0), s5);
    s' := FlushAndDie(c, s5, c.before - 2);
  }

  lemma DurableWait(c: Config) returns (s: State, f: nat)
    requires !Alone(c) && !OneLeft(c)
    ensures Reachable(c, s) && Fit(c, s) && s.pc == Down && s.mailbox == map[] && Beside(c, s.disk, f) && Limit(c) >= 2
    ensures s.disk.w.status != Completed && s.disk.w.wait == Some(FireAt(0, c.duration)) && Untouched(s.disk.w)
  {
    hide Reachable, FireAt, Limit;
    if c.after > 0 {
      f := c.before;
      Start(c);
      s := ArmAndSave(c, Initial(c));
    } else {
      f := c.before - 1;
      s := FlushWhileArmed(c);
    }
  }

  // ---- The exact conditions ----

  /** The clearing write is caught: the durable deadline is gone and the node is not completed. */
  lemma DeadlineMoves(c: Config) returns (s: State, e: Event)
    requires IsInt64(c.duration) && !Alone(c) && !OneLeft(c)
    ensures Reachable(c, s) && Enabled(c, s, e) && !KeepsDeadline(s, Apply(c, s, e))
  {
    hide Reachable, FireAt, Limit, Alone, OneLeft;
    var s0, f := DurableWait(c);
    AlwaysDue(c);
    var t := TimingOut(c, s0, f);
    s := t.(mem := t.mem.(w := t.mem.w.(wait := None)), pc := TimeoutCleared);
    Move(c, t, Write, s);
    e := FanFlush(f, true);
  }

  /**
    A durable deadline never changes short of the node's completion exactly if nothing of the level runs while the
    node does, or at most one fan-out can be open when it is launched and none is launched after it.
  */
  lemma AlwaysKeepsDeadlineIff(c: Config)
    requires IsInt64(c.duration)
    ensures AlwaysKeepsDeadline(c) <==> Alone(c) || OneLeft(c)
  {
    hide Alone, OneLeft, Reachable, KeepsDeadline, Enabled, Apply;
    if Alone(c) || OneLeft(c) {
      CalmKeepsDeadline(c);
    } else {
      var s, e := DeadlineMoves(c);
    }
  }

  /** The timeout disposition is caught alone; after the crash a late signal wins. */
  lemma TimedOutThenSignalled(c: Config) returns (s: State)
    requires IsInt64(c.duration) && !Alone(c) && !OneLeft(c)
    ensures Reachable(c, s) && !OneArm(s.disk.w)
  {
    hide Reachable, FireAt, Limit, Alone, OneLeft;
    var s0, f := DurableWait(c);
    AlwaysDue(c);
    var t := TimingOut(c, s0, f);
    var s1 := FlushAndDie(c, t, f);
    s := SignalWins(c, s1);
  }

  /** The payload is caught alone; its ID is delivered again under another name, so that the node arms and times out. */
  lemma SignalledThenTimedOut(c: Config) returns (s: State)
    requires IsInt64(c.duration) && !Alone(c) && OneLeft(c) && c.reuse
    ensures Reachable(c, s) && !OneArm(s.disk.w)
  {
    hide Reachable, FireAt;
    Start(c);
    var sig, other := Signal("id", c.signalName, 7), Signal("id", c.signalName + "x", 7);
    var s0 := Initial(c).(mailbox := map["id" := sig]);
    Move(c, Initial(c), Deliver(sig), s0);
    var f := c.before - 1;
    var t := EnterBeside(c, s0, f);
    var s1 := Takes(c, t, sig);
    var s2 := FlushAndDie(c, s1, f);
    var s3 := s2.(mailbox := map["id" := other]);
    Move(c, s2, Deliver(other), s3);
    var s4 := ArmAndSave(c, s3);
    AlwaysDue(c);
    s := TimesOut(c, s4);
  }

  /**
    Every completed snapshot of every run shows exactly one arm exactly if nothing of the level runs while the node
    does, or at most one fan-out can be open when it is launched, none is launched after it, and no sender delivers an
    ID again under another name.
  */
  lemma OneArmIff(c: Config)
    requires IsInt64(c.duration)
    ensures AlwaysOneArm(c) <==> Alone(c) || (OneLeft(c) && !c.reuse)
  {
    hide Alone, OneLeft, Reachable, OneArm;
    if Alone(c) || (OneLeft(c) && !c.reuse) {
      GuardedIsOneArmed(c);
    } else if OneLeft(c) {
      var s := SignalledThenTimedOut(c);
    } else {
      var s := TimedOutThenSignalled(c);
    }
  }

  // ---- An entry that is replaced between the take and the acknowledgement ----

  /** The launch loop passes the fan-outs after the node, each of which runs to its end at once. */
  lemma {:induction false} PassLater(c: Config, s: State) returns (s': State)
    requires Reachable(c, s) && Fit(c, s) && s.pc == Settled && c.before < s.cursor <= Fans(c) + 1
    requires NoneLive(s.mem.fans)
    ensures Reachable(c, s') && Fit(c, s') && NoneLive(s'.mem.fans)
    ensures s' == s.(cursor := Fans(c) + 1, mem := s'.mem) && s'.mem.w == s.mem.w
    decreases Fans(c) + 1 - s.cursor
  {
    hide Reachable, LiveFans;
    if s.cursor == Fans(c) + 1 {
      s' := s;
    } else {
      var f := s.cursor - 1;
      Silent(s.mem.fans);
      var t := s.(cursor := s.cursor + 1, mem := WithFan(s.mem, f, s.mem.fans[f].(stage := Ended)));
      if s.mem.fans[f].stage == Ended {
        assert t.mem == s.mem;
        Move(c, s, Launch, t);
      } else {
        var s1 := s.(cursor := s.cursor + 1, mem := WithFan(s.mem, f, s.mem.fans[f].(stage := Expanding)));
        Move(c, s, Launch, s1);
        assert WithFan(s1.mem, f, s1.mem.fans[f].(stage := Ended)) == t.mem;
        Move(c, s1, FanEnd(f), t);
      }
      s' := PassLater(c, t);
    }
  }

  /** The node takes payload 7; the entry is replaced before the completed run is acknowledged. */
  lemma ReplacedWhileTaken(c: Config, name: Name, payload: Payload) returns (s: State)
    requires (c.reuse || name == c.signalName) && (c.resend || payload == 7)
    ensures Reachable(c, s) && s.pc == Acking && s.consumed == Some("id") && Enabled(c, s, Ack(true))
    ensures s.mailbox == map["id" := Signal("id", name, payload)]
    ensures s.disk.w.status == Completed && s.disk.w.payload == Some(7)
  {
    hide Reachable, LiveFans, NoneLive;
    var sig, other := Signal("id", c.signalName, 7), Signal("id", name, payload);
    var s1 := TakesSeven(c, sig);
    var s2 := s1.(mailbox := map["id" := other]);
    Move(c, s1, Deliver(other), s2);
    var s3 := Completes(c, s2);
    s := ExitsToAck(c, s3);
  }

  /** A fresh run delivers the signal, and the node takes it. */
  lemma TakesSeven(c: Config, sig: Signal) returns (s: State)
    requires sig == Signal("id", c.signalName, 7)
    ensures EarlierOver(c, s) && s.pc == SignalSet && s.consumed == Some("id") && s.mailbox == map["id" := sig]
    ensures s.mem.w.payload == Some(7)
  {
    hide Reachable, LiveFans, NoneLive;
    Start(c);
    var s0 := Initial(c).(mailbox := map["id" := sig]);
    Move(c, Initial(c), Deliver(sig), s0);
    var t := EnterNode(c, s0);
    s := Takes(c, t, sig);
  }

  /** The node is launched and nothing runs beside it. */
  ghost predicate EarlierOver(c: Config, s: State) {
    Reachable(c, s) && Fit(c, s) && s.cursor == c.before + 1 && NoneLive(s.mem.fans) && !s.cancelled
  }

  /** The rest of the level runs, and the run's data are saved. */
  lemma ExitsToAck(c: Config, s: State) returns (s': State)
    requires EarlierOver(c, s) && s.pc == Settled
    ensures Reachable(c, s') && s'.pc == Acking && s'.consumed == s.consumed && s'.mailbox == s.mailbox
    ensures s'.disk.w == s.mem.w
  {
    hide Reachable, LiveFans, NoneLive;
    var t := PassLater(c, s);
    Silent(t.mem.fans);
    s' := t.(disk := t.mem, pc := Acking);
    Move(c, t, Exit(true), s');
  }

  /**
    An acknowledgement removes by ID. In every run of a configuration the payload it removes is durable exactly if no
    sender delivers the taken ID again with another payload; and the entry it removes is the one taken exactly if no
    sender reuses an ID under another name either.
  */
  lemma NothingLostIff(c: Config)
    ensures NoPayloadLost(c) <==> !c.resend
    ensures NoEntryLost(c) <==> !c.resend && !c.reuse
  {
    hide Reachable;
    HeldIsRemoved(c);
    if c.resend {
      var s := ReplacedWhileTaken(c, c.signalName, 8);
      assert !RemovesTakenPayload(c, s);
    }
    if c.reuse {
      var s := ReplacedWhileTaken(c, c.signalName + "x", 7);
    }
  }
}

/**
  A run with one first-of(signal, timer) node and the fan-outs of its level, over any deliveries, drives, cancellations,
  crashes, failed saves and clock moves in either direction. The node writes its data one item at a time; a live
  fan-out may checkpoint the whole run between two of those writes, once, when it journals its item list.
*/
module FirstOf {
  import opened Names
  import opened Wrappers
  import opened Arithmetic
  import opened Signals
  import Executor

  datatype ArmStatus = Pending | Running | Waiting | Completed

  /** What the run's data say of the node. */
  datatype Arms = Arms(status: ArmStatus, wait: Option<int>, payload: Option<Payload>, timedOut: bool)

  /** A fan-out of the level: not launched, deciding its items, saving the journal, driving branches, or terminal. */
  datatype Stage = Open | Expanding | Flushing | Driving | Ended

  datatype Fan = Fan(stage: Stage, journaled: bool)

  /** The run's data, or a snapshot of it. */
  datatype Snap = Snap(w: Arms, fans: seq<Fan>)

  /**
    Where the node is: no drive, not launched, launched, between its writes, finished or parked, or being acknowledged.
  */
  datatype Pc = Down | Idle | Ready | SignalSet | SignalCleared | TimeoutSet | TimeoutCleared | Armed | Settled | Acking

  /**
    `before` and `after` count the fan-outs of the level that launch, by their place beside the node in name order.
    `reuse` says that senders may deliver an ID again under another signal name, `resend` that they may deliver the ID
    that the node has taken again with another payload, before it is acknowledged.
  */
  datatype Config = Config(signalName: Name, duration: int, before: nat, after: nat, maxConcurrency: int, reuse: bool,
                           resend: bool)

  function Fans(c: Config): nat { c.before + c.after }

  function Limit(c: Config): nat { Executor.Limit(c.maxConcurrency) }

  /**
    `cursor` is the launch loop's position in the level and `cancelled` says that it stops launching. `consumed` is
    what this drive has to acknowledge; `taken` and `acked` remember what was, across crashes.
  */
  datatype State = State(mailbox: map<Name, Signal>, disk: Snap, mem: Snap, pc: Pc, cursor: nat, cancelled: bool,
                         consumed: Option<Name>, taken: map<Name, Payload>, acked: set<Name>)

  const UNTOUCHED := Arms(Pending, None, None, false)

  function Empty(c: Config): Snap {
    Snap(UNTOUCHED, seq(Fans(c), _ => Fan(Open, false)))
  }

  function Initial(c: Config): State {
    State(map[], Empty(c), Empty(c), Down, 0, false, None, map[], {})
  }

  predicate NodeLive(pc: Pc) { pc in {Ready, SignalSet, SignalCleared, TimeoutSet, TimeoutCleared, Armed} }

  predicate FanLive(fan: Fan) { fan.stage in {Expanding, Flushing, Driving} }

  function LiveFans(fans: seq<Fan>): set<nat> {
    set f: nat | f < |fans| && FanLive(fans[f])
  }

  function Live(s: State): nat {
    |LiveFans(s.mem.fans)| + if NodeLive(s.pc) then 1 else 0
  }

  predicate Up(s: State) { s.pc != Down && s.pc != Acking }

  predicate Drained(s: State) { Up(s) && !NodeLive(s.pc) && LiveFans(s.mem.fans) == {} }

  /** The fan-out at a place of the level other than the node's. */
  function FanAt(c: Config, place: nat): nat
    requires place != c.before
  {
    if place < c.before then place else place - 1
  }

  /** Nothing is launched at this place: it is terminal already. */
  predicate Skips(c: Config, s: State) {
    if s.cursor == c.before then s.pc != Idle
    else FanAt(c, s.cursor) < |s.mem.fans| && s.mem.fans[FanAt(c, s.cursor)].stage == Ended
  }

  /** The signal a take in ID order finds first. */
  ghost predicate IsFirst(box: map<Name, Signal>, name: Name, pick: Option<Name>) {
    match pick
    case Some(id) => id in box && box[id].name == name
                     && forall other :: other in box && box[other].name == name && other != id ==> Less(id, other)
    case None => forall other :: other in box ==> box[other].name != name
  }

  datatype Event =
    | Deliver(sig: Signal)
    | Begin
    | Cancel
    | EarlyFlush
    | Launch
    | Encounter(pick: Option<Name>, now: int)
    | Write
    | FanExpand(fan: nat)
    | FanReread(fan: nat)
    | FanFlush(fan: nat, saved: bool)
    | FanEnd(fan: nat)
    | LaterFlush
    | Exit(saved: bool)
    | Abort(saved: bool)
    | Ack(done: bool)
    | Crash

  predicate FanIs(s: State, f: nat, stage: Stage) {
    Up(s) && f < |s.mem.fans| && s.mem.fans[f].stage == stage
  }

  ghost predicate Enabled(c: Config, s: State, e: Event) {
    match e
    case Deliver(sig) =>
      sig.id in s.mailbox ==>
        && (c.reuse || sig.name == s.mailbox[sig.id].name)
        && (c.resend || s.consumed != Some(sig.id) || sig.payload == s.mailbox[sig.id].payload)
    case Begin => s.pc == Down
    case Cancel => Up(s)
    case EarlyFlush => Drained(s) && s.cursor == 0
    case Launch =>
      && Up(s) && s.cursor <= Fans(c) && (s.cursor == c.before || FanAt(c, s.cursor) < |s.mem.fans|)
      && (Skips(c, s) || Live(s) < Limit(c))
    case Encounter(pick, now) => s.pc == Ready && IsFirst(s.mailbox, c.signalName, pick) && IsInt64(now)
    case Write => s.pc in {SignalSet, SignalCleared, TimeoutSet, TimeoutCleared, Armed}
    case FanExpand(f) => FanIs(s, f, Expanding) && !s.mem.fans[f].journaled
    case FanReread(f) => FanIs(s, f, Expanding) && s.mem.fans[f].journaled
    case FanFlush(f, _) => FanIs(s, f, Flushing)
    case FanEnd(f) => Up(s) && f < |s.mem.fans| && FanLive(s.mem.fans[f])
    case LaterFlush => Drained(s) && s.cursor > Fans(c) && s.mem.w.status == Completed
    case Exit(_) => s.pc == Settled && Drained(s) && s.cursor > Fans(c) && !s.cancelled
    case Abort(_) => Drained(s) && (s.cancelled || s.cursor > Fans(c))
    case Ack(_) => s.pc == Acking
    case Crash => true
  }

  function WithFan(m: Snap, f: nat, fan: Fan): (r: Snap)
    requires f < |m.fans|
    ensures r.w == m.w
  {
    m.(fans := m.fans[f := fan])
  }

  function ReopenedFan(fan: Fan): Fan {
    if fan.stage == Ended then fan else fan.(stage := Open)
  }

  /** A new drive starts everything afresh that is neither terminal nor parked. */
  function Restarted(d: Snap): (r: Snap)
    ensures r.w == if d.w.status == Running then d.w.(status := Pending) else d.w
  {
    Snap(if d.w.status == Running then d.w.(status := Pending) else d.w,
         seq(|d.fans|, i requires 0 <= i < |d.fans| => ReopenedFan(d.fans[i])))
  }

  /** A park that does not suspend the run goes back to Pending. */
  function Unparked(m: Snap): Snap {
    if m.w.status == Waiting then m.(w := m.w.(status := Pending)) else m
  }

  function Launched(c: Config, s: State): (r: State)
    requires Enabled(c, s, Launch)
    ensures r.mailbox == s.mailbox && r.taken == s.taken && r.acked == s.acked
  {
    var s' := s.(cursor := s.cursor + 1);
    if Skips(c, s) then s'
    else if s.cursor == c.before then s'.(mem := s.mem.(w := s.mem.w.(status := Running)), pc := Ready)
    else
      var f := FanAt(c, s.cursor);
      s'.(mem := WithFan(s.mem, f, s.mem.fans[f].(stage := Expanding)))
  }

  /** The node's code up to and including its first write. */
  function Encountered(c: Config, s: State, pick: Option<Name>, now: int): State
    requires pick.Some? ==> pick.value in s.mailbox
  {
    var w := s.mem.w;
    match pick
    case Some(id) =>
      var p := s.mailbox[id].payload;
      s.(mem := s.mem.(w := w.(payload := Some(p))), pc := SignalSet, consumed := Some(id), taken := s.taken[id := p])
    case None =>
      if w.wait.None? then s.(mem := s.mem.(w := w.(wait := Some(FireAt(now, c.duration)))), pc := Armed)
      else if now >= w.wait.value then s.(mem := s.mem.(w := w.(timedOut := true)), pc := TimeoutSet)
      else s.(mem := s.mem.(w := w.(status := Waiting)), pc := Settled)
  }

  /** The node's next write: clearing the wait, then its final status. */
  function Written(s: State): (r: State)
    ensures r.mailbox == s.mailbox && r.taken == s.taken && r.acked == s.acked
  {
    var w := s.mem.w;
    match s.pc
    case SignalSet => s.(mem := s.mem.(w := w.(wait := None)), pc := SignalCleared)
    case TimeoutSet => s.(mem := s.mem.(w := w.(wait := None)), pc := TimeoutCleared)
    case Armed => s.(mem := s.mem.(w := w.(status := Waiting)), pc := Settled)
    case _ => s.(mem := s.mem.(w := w.(status := Completed)), pc := Settled)
  }

  ghost function Apply(c: Config, s: State, e: Event): State
    requires Enabled(c, s, e)
  {
    match e
    case Deliver(sig) => s.(mailbox := s.mailbox[sig.id := sig])
    case Begin =>
      s.(mem := Restarted(s.disk), pc := if s.disk.w.status == Completed then Settled else Idle, cursor := 0,
         cancelled := false, consumed := None)
    case Cancel => s.(cancelled := true)
    case EarlyFlush => s.(disk := s.mem)
    case Launch => Launched(c, s)
    case Encounter(pick, now) => Encountered(c, s, pick, now)
    case Write => Written(s)
    case FanExpand(f) => s.(mem := WithFan(s.mem, f, Fan(Flushing, true)))
    case FanReread(f) => s.(mem := WithFan(s.mem, f, Fan(Driving, true)))
    case FanFlush(f, saved) =>
      s.(disk := if saved then s.mem else s.disk, mem := WithFan(s.mem, f, s.mem.fans[f].(stage := Driving)))
    case FanEnd(f) => s.(mem := WithFan(s.mem, f, s.mem.fans[f].(stage := Ended)))
    case LaterFlush => s.(disk := s.mem)
    case Exit(saved) =>
      if saved then s.(disk := s.mem, pc := Acking) else s.(pc := Down, consumed := None)
    case Abort(saved) => s.(disk := if saved then Unparked(s.mem) else s.disk, pc := Down, consumed := None)
    case Ack(done) =>
      if done && s.consumed.Some? then
        s.(mailbox := s.mailbox - {s.consumed.value}, acked := s.acked + {s.consumed.value}, consumed := None,
            pc := Down)
      else s.(consumed := None, pc := Down)
    case Crash => s.(mem := Empty(c), pc := Down, consumed := None)
  }

  ghost predicate Legal(c: Config, s: State, es: seq<Event>)
    decreases |es|
  {
    es == [] || (Enabled(c, s, es[0]) && Legal(c, Apply(c, s, es[0]), es[1..]))
  }

  ghost function After(c: Config, s: State, es: seq<Event>): State
    requires Legal(c, s, es)
    decreases |es|
  {
    if es == [] then s else After(c, Apply(c, s, es[0]), es[1..])
  }

  ghost predicate Reachable(c: Config, s: State) {
    exists es :: Legal(c, Initial(c), es) && After(c, Initial(c), es) == s
  }

  // ---- What every state keeps, fan-outs or not ----

  /** The consumed signal's payload is in the data, and on disk once it may be acknowledged. */
  ghost predicate Consumes(s: State) {
    match s.consumed
    case Some(id) =>
      && id in s.taken && s.mem.w.payload == Some(s.taken[id]) && s.pc in {SignalSet, SignalCleared, Settled, Acking}
      && (s.pc == Settled || s.pc == Acking ==> s.mem.w.status == Completed)
      && (s.pc == Acking ==> s.disk.w == s.mem.w)
    case None => s.pc != SignalSet && s.pc != SignalCleared
  }

  ghost predicate Acknowledged(s: State) {
    && (forall id :: id in s.acked ==> id in s.taken && s.disk.w.payload == Some(s.taken[id]))
    && (s.acked != {} ==> s.disk.w.status == Completed)
    && (s.disk.w.status == Completed && s.pc != Down ==> (s.pc == Settled || s.pc == Acking) && s.mem.w == s.disk.w)
  }

  /** A durable deadline is the one in memory until the node clears it on its way to completion. */
  ghost predicate Deadline(s: State) {
    var w, d := s.mem.w, s.disk.w;
    && (d.status == Completed ==> d.wait == None)
    && (s.pc in {Idle, Ready, SignalSet, TimeoutSet} ==> w.wait == d.wait)
    && (s.pc in {SignalCleared, TimeoutCleared} ==> w.wait == None)
    && (s.pc == TimeoutSet ==> w.wait.Some?)
    && (s.pc in {Armed, Settled, Acking} ==>
          if w.status == Completed then w.wait == None else w.wait.Some? && (d.wait == None || d.wait == w.wait))
    && (NodeLive(s.pc) ==> w.status == Running)
    && (s.pc == Idle ==> w.status == Pending || w.status == Waiting)
    && (s.pc == Settled || s.pc == Acking ==> w.status == Waiting || w.status == Completed)
  }

  ghost predicate Invariant(s: State) {
    Consumes(s) && Acknowledged(s) && Deadline(s)
  }

  /** Everything that leaves the node where it is: at most a snapshot is taken. */
  predicate Aside(e: Event) {
    e.Deliver? || e.Cancel? || e.EarlyFlush? || e.LaterFlush? || e.FanExpand? || e.FanReread? || e.FanFlush?
      || e.FanEnd?
  }

  ghost predicate OnlySaves(s: State, s': State) {
    && s'.mem.w == s.mem.w && s'.pc == s.pc && s'.consumed == s.consumed && s'.taken == s.taken && s'.acked == s.acked
    && (s'.disk.w == s.disk.w || (Up(s) && s'.disk.w == s.mem.w))
  }

  lemma AsideOnlySaves(c: Config, s: State, e: Event)
    requires Aside(e) && Enabled(c, s, e)
    ensures OnlySaves(s, Apply(c, s, e))
  {
    hide IsFirst, FireAt, LiveFans, Live, Restarted, WithFan, FanAt, Encountered, Written, Launched;
  }

  lemma SavesKeep(s: State, s': State)
    requires Invariant(s) && OnlySaves(s, s')
    ensures Invariant(s')
  {
  }

  lemma LaunchKeeps(c: Config, s: State)
    requires Invariant(s) && Enabled(c, s, Launch)
    ensures Invariant(Launched(c, s))
  {
    hide Live, WithFan, FanAt;
  }

  lemma EncounterKeeps(c: Config, s: State, pick: Option<Name>, now: int)
    requires Invariant(s) && s.pc == Ready && (pick.Some? ==> pick.value in s.mailbox)
    ensures Invariant(Encountered(c, s, pick, now))
  {
    hide FireAt;
  }

  lemma WriteKeeps(s: State)
    requires Invariant(s) && NodeLive(s.pc) && s.pc != Ready
    ensures Invariant(Written(s))
  {
  }

  /** A drive begins, ends or dies. */
  lemma BorderKeeps(c: Config, s: State, e: Event)
    requires e.Begin? || e.Exit? || e.Abort? || e.Ack? || e.Crash?
    requires Invariant(s) && Enabled(c, s, e)
    ensures Invariant(Apply(c, s, e))
  {
    hide LiveFans, Live, Restarted, Empty;
  }

  lemma InvariantStep(c: Config, s: State, e: Event)
    requires Invariant(s) && Enabled(c, s, e)
    ensures Invariant(Apply(c, s, e))
  {
    hide Invariant, Launched, Encountered, Written, Restarted, Empty, WithFan, Live, LiveFans, OnlySaves, FanAt, Skips;
    match e
    case Launch => LaunchKeeps(c, s);
    case Encounter(pick, now) => EncounterKeeps(c, s, pick, now);
    case Write => WriteKeeps(s);
    case _ =>
      if Aside(e) {
        AsideOnlySaves(c, s, e);
        SavesKeep(s, Apply(c, s, e));
      } else {
        BorderKeeps(c, s, e);
      }
  }

  lemma {:induction false} InvariantAfter(c: Config, s: State, es: seq<Event>)
    requires Invariant(s) && Legal(c, s, es)
    ensures Invariant(After(c, s, es))
    decreases |es|
  {
    hide Enabled, Apply, Invariant;
    if es != [] {
      InvariantStep(c, s, es[0]);
      InvariantAfter(c, Apply(c, s, es[0]), es[1..]);
    }
  }

  lemma ReachableInvariant(c: Config, s: State)
    requires Reachable(c, s)
    ensures Invariant(s)
  {
    hide Enabled, Apply;
    var es :| Legal(c, Initial(c), es) && After(c, Initial(c), es) == s;
    InvariantAfter(c, Initial(c), es);
  }

  /**
    A signal leaves the mailbox only by an acknowledgement, and by then a snapshot of the completed node holds the
    payload that the node took under that ID; it holds it for ever after. The entry that the acknowledgement removes may
    be another one by then.
  */
  lemma AcknowledgedIsDurable(c: Config, s: State, e: Event, id: Name)
    requires Reachable(c, s) && Enabled(c, s, e)
    ensures id in s.mailbox && id !in Apply(c, s, e).mailbox ==> e == Ack(true) && id in Apply(c, s, e).acked
    ensures id in s.acked ==> id in s.taken && s.disk.w.status == Completed && s.disk.w.payload == Some(s.taken[id])
    ensures id in s.acked ==> id in Apply(c, s, e).acked && Apply(c, s, e).disk.w.payload == s.disk.w.payload
  {
    hide *;
    ReachableInvariant(c, s);
    InvariantStep(c, s, e);
    OnlyAckRemoves(c, s, e);
    AckedIsDurable(s, id);
    AckedIsDurable(Apply(c, s, e), id);
    OnlyReadyTakes(c, s, e);
    if id in s.acked { NotReadyOnceAcked(s); }
  }

  lemma AckedIsDurable(s: State, id: Name)
    requires Invariant(s)
    ensures id in s.acked ==> id in s.taken && s.disk.w.status == Completed && s.disk.w.payload == Some(s.taken[id])
  {
  }

  lemma OnlyAckRemoves(c: Config, s: State, e: Event)
    requires Enabled(c, s, e)
    ensures var s' := Apply(c, s, e);
            && s.acked <= s'.acked
            && forall id :: id in s.mailbox && id !in s'.mailbox ==> e == Ack(true) && id in s'.acked
  {
    hide IsFirst, FireAt, LiveFans, Live, Restarted, WithFan, FanAt, Skips, Launched, Written, Drained;
  }

  lemma OnlyReadyTakes(c: Config, s: State, e: Event)
    requires Enabled(c, s, e)
    ensures Apply(c, s, e).taken == s.taken || s.pc == Ready
  {
    hide IsFirst, FireAt, LiveFans, Live, Restarted, WithFan, FanAt, Skips, Launched, Written, Drained;
  }

  /** The node is completed on disk before anything is acknowledged, so nothing is taken any more. */
  lemma NotReadyOnceAcked(s: State)
    requires Invariant(s) && s.acked != {}
    ensures s.pc != Ready
  {
  }

  /** The timeout arm is taken only with no such signal buffered, and only once a durable deadline has passed. */
  lemma TimeoutNeverEarly(c: Config, s: State, pick: Option<Name>, now: int)
    requires Reachable(c, s) && Enabled(c, s, Encounter(pick, now))
    ensures Apply(c, s, Encounter(pick, now)).pc == TimeoutSet ==>
      && (forall id :: id in s.mailbox ==> s.mailbox[id].name != c.signalName)
      && s.disk.w.wait.Some? && now >= s.disk.w.wait.value
  {
    hide Reachable, FireAt;
    ReachableInvariant(c, s);
  }
}

/**
  The pool of a fan-out node: a feeder hands branch indices to a bounded number of workers under a cancellable context.
  Every interleaving of feeder, workers and cancellation is a run of the machine below.
*/
module FanOut {
  import opened Wrappers
  import Executor

  /** An error as the fan-in sees it: a branch's own error may itself match the cancellation sentinel. */
  datatype Fault = Canceled | DeadlineExceeded | BranchError(code: nat, matchesCanceled: bool)

  predicate IsCanceled(f: Fault) {
    f.Canceled? || (f.BranchError? && f.matchesCanceled)
  }

  /** What an index ends with: a result and a nil error, or an error. */
  datatype Slot = Value(result: int) | Faulted(fault: Fault)

  /** The pool's bound, whether branch failures are collected, and the width cap. */
  datatype Config = Config(maxConcurrency: int, collectPartial: bool, maxWidth: int)

  const DEFAULT_MAX_WIDTH := 1024

  function Width(c: Config): nat {
    if c.maxWidth <= 0 then DEFAULT_MAX_WIDTH else c.maxWidth
  }

  function Workers(c: Config, n: nat): nat {
    var cap := Executor.Limit(c.maxConcurrency);
    if cap > n then n else cap
  }

  /**
    The pool over `n` indices: `next` is the feeder's index, `queue` the work channel, `taken` and `live` the indices
    held by workers before and during their branch, `slots` the written outcomes, `driven` every index ever driven.
    `ctx` is the error of the branch context once it is done, `external` that of the caller's.
  */
  datatype Pool = Pool(n: nat, next: nat, feeding: bool, queue: seq<nat>, taken: set<nat>, live: set<nat>,
                       slots: map<nat, Slot>, driven: set<nat>, ctx: Option<Fault>, external: Option<Fault>)

  function NewPool(n: nat): Pool {
    Pool(n, 0, true, [], {}, {}, map[], {}, None, None)
  }

  datatype Event =
    | Feed
    | FeedStop
    | FeedEnd
    | Take
    | Skip(index: nat)
    | Drive(index: nat)
    | Finish(index: nat, slot: Slot)
    | CallerDone(fault: Fault)

  /** Every index from `i` on ends with the context's error. */
  function Fill(slots: map<nat, Slot>, i: nat, n: nat, f: Fault): (r: map<nat, Slot>)
    ensures forall j :: j in r <==> j in slots || i <= j < n
    ensures forall j :: j in r ==> r[j] == if i <= j < n then Faulted(f) else slots[j]
    decreases n - i
  {
    if i >= n then slots else Fill(slots[i := Faulted(f)], i + 1, n, f)
  }

  predicate Enabled(c: Config, s: Pool, e: Event) {
    match e
    case Feed => s.feeding && s.next < s.n && |s.queue| < Workers(c, s.n)
    case FeedStop => s.feeding && s.next < s.n && s.ctx.Some?
    case FeedEnd => s.feeding && s.next == s.n
    case Take => s.queue != [] && |s.taken| + |s.live| < Workers(c, s.n)
    case Skip(i) => i in s.taken && s.ctx.Some?
    case Drive(i) => i in s.taken && s.ctx.None?
    case Finish(i, _) => i in s.live
    case CallerDone(f) => s.external.None? && (f.Canceled? || f.DeadlineExceeded?)
  }

  function Apply(c: Config, s: Pool, e: Event): Pool
    requires Enabled(c, s, e)
  {
    match e
    case Feed => s.(queue := s.queue + [s.next], next := s.next + 1)
    case FeedStop => s.(feeding := false, slots := Fill(s.slots, s.next, s.n, s.ctx.value))
    case FeedEnd => s.(feeding := false)
    case Take => s.(queue := s.queue[1..], taken := s.taken + {s.queue[0]})
    case Skip(i) => s.(taken := s.taken - {i}, slots := s.slots[i := Faulted(s.ctx.value)])
    case Drive(i) => s.(taken := s.taken - {i}, live := s.live + {i}, driven := s.driven + {i})
    case Finish(i, r) =>
      s.(live := s.live - {i}, slots := s.slots[i := r],
         ctx := if r.Faulted? && !c.collectPartial && s.ctx.None? then Some(Canceled) else s.ctx)
    case CallerDone(f) => s.(external := Some(f), ctx := if s.ctx.None? then Some(f) else s.ctx)
  }

  ghost predicate Legal(c: Config, s: Pool, es: seq<Event>)
    decreases |es|
  {
    es == [] || (Enabled(c, s, es[0]) && Legal(c, Apply(c, s, es[0]), es[1..]))
  }

  ghost function After(c: Config, s: Pool, es: seq<Event>): Pool
    requires Legal(c, s, es)
    decreases |es|
  {
    if es == [] then s else After(c, Apply(c, s, es[0]), es[1..])
  }

  ghost predicate Reachable(c: Config, n: nat, s: Pool) {
    exists es :: Legal(c, NewPool(n), es) && After(c, NewPool(n), es) == s
  }

  /** The feeder has closed the channel and every worker has drained it. */
  predicate Joined(s: Pool) {
    !s.feeding && s.queue == [] && s.taken == {} && s.live == {}
  }

  // ---- What every state keeps ----

  /** An index is in exactly one place: unfed, queued, held, driving, or written. */
  ghost predicate Located(s: Pool) {
    && s.next <= s.n
    && (forall a, b :: 0 <= a < b < |s.queue| ==> s.queue[a] != s.queue[b])
    && (forall i :: i in s.queue ==> i < s.next && i !in s.taken && i !in s.live && i !in s.slots)
    && (forall i :: i in s.taken ==> i < s.next && i !in s.live && i !in s.slots)
    && (forall i :: i in s.live ==> i < s.next && i !in s.slots)
    && (forall i: nat :: i < s.next ==> i in s.queue || i in s.taken || i in s.live || i in s.slots)
    && (s.feeding ==> forall i :: i in s.slots ==> i < s.next)
    && (!s.feeding ==> forall i: nat :: s.next <= i < s.n ==> i in s.slots)
    && (forall i :: i in s.slots ==> i < s.n)
  }

  /** Only a driven index has a result; an index that never ran carries the context's error. */
  ghost predicate Accounted(s: Pool) {
    && (forall i :: i in s.driven ==> i in s.live || i in s.slots)
    && (forall i :: i in s.live ==> i in s.driven)
    && (forall i :: i in s.driven ==> i !in s.taken && i !in s.queue && i < s.next)
    && (forall i :: i in s.slots && i !in s.driven ==> s.ctx.Some? && s.slots[i] == Faulted(s.ctx.value))
  }

  /** The branch context is done because the caller's is, or, failing fast, because a branch failed. */
  ghost predicate Explained(c: Config, s: Pool) {
    && (s.external.Some? ==> s.ctx.Some?)
    && (s.ctx.Some? && s.external.None? ==>
          && !c.collectPartial && s.ctx.value == Canceled
          && exists i :: i in s.driven && i in s.slots && s.slots[i].Faulted?)
    && (s.ctx.None? && !c.collectPartial ==> forall i :: i in s.slots ==> s.slots[i].Value?)
  }

  ghost predicate Bounded(c: Config, s: Pool) {
    |s.taken| + |s.live| <= Workers(c, s.n)
  }

  ghost predicate Invariant(c: Config, s: Pool) {
    Located(s) && Accounted(s) && Explained(c, s) && Bounded(c, s)
  }
}

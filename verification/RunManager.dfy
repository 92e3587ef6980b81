/**
  The run manager as a state machine: one step per stretch of code between two awaits.
  A run is named by its position in creation order, which stands for object identity.
  `logs` is history: what a ring buffer of unlimited size would hold.
 */
module RunManager {
  import opened Wrappers
  import opened Frames

  type ThreadId = nat

  /** Where a run's pump stands. `Closing` is the await on the stream's return() after a break. */
  datatype Phase = Queued(prior: nat) | Streaming | Closing | Done

  /** The control fields of a run object. */
  datatype Run = Run(
    thread: ThreadId, name: nat, resume: bool,
    aborted: bool, phase: Phase, discarded: bool, timer: bool)

  /** Its ring buffer, and the two flags the pump keeps while filling it. */
  datatype Ring = Ring(buffer: seq<Frame>, dropped: nat, sawTerminal: bool, interrupted: bool)

  datatype Status = Success | Error | Paused | Cancelled

  datatype RunEnd = RunEnd(run: nat, thread: ThreadId, status: Status, resume: bool)

  /** One call of discardThread, from its await to its return. */
  datatype Drain = Drain(thread: ThreadId, current: Option<nat>, waiting: set<nat>, closed: bool)

  datatype Core = Core(
    cap: nat,
    runs: map<ThreadId, nat>,
    recs: seq<Run>,
    rings: seq<Ring>,
    logs: seq<seq<Frame>>,
    active: set<nat>,
    deleting: set<ThreadId>,
    closing: bool,
    counter: nat,
    ends: seq<RunEnd>,
    drains: seq<Drain>)

  function Init(cap: nat): Core {
    Core(cap, map[], [], [], [], {}, {}, false, 0, [], [])
  }

  predicate Parallel(c: Core) {
    |c.recs| == |c.rings| == |c.logs| && forall t <- c.runs :: c.runs[t] < |c.recs|
  }

  // ---------------------------------------------------------------- operations

  datatype Terminal = Terminal(synthesize: Option<LifecycleEvent>, status: Status)

  function DecideTerminal(
    aborted: bool, superseded: bool, sawTerminal: bool, interrupted: bool, failed: bool): Terminal
  {
    if aborted then
      Terminal(if superseded then None else Some(Completed), Cancelled)
    else
      Terminal(if sawTerminal then None else Some(Completed),
               if interrupted then Paused else if failed then Error else Success)
  }

  predicate Superseded(c: Core, r: nat)
    requires r < |c.recs|
  {
    !(c.recs[r].thread in c.runs && c.runs[c.recs[r].thread] == r)
  }

  function Push(ring: Ring, cap: nat, f: Frame): Ring {
    var pushed := ring.buffer + [f];
    var full := |pushed| > cap;
    Ring(if full then pushed[1..] else pushed,
         if full then ring.dropped + 1 else ring.dropped,
         ring.sawTerminal || IsTerminalRoot(f.ev),
         ring.interrupted || (IsTerminalRoot(f.ev) && IsInterrupted(f.ev)))
  }

  /** Stamps an event and appends it to the ring buffer, evicting the oldest frame when full. */
  function Append(c: Core, r: nat, ev: Event): Core
    requires Parallel(c) && r < |c.recs|
  {
    var f := Frame(c.counter, ev);
    c.(rings := c.rings[r := Push(c.rings[r], c.cap, f)],
       logs := c.logs[r := c.logs[r] + [f]],
       counter := c.counter + 1)
  }

  function Finish(c: Core, r: nat, status: Status): Core
    requires r < |c.recs|
  {
    var run := c.recs[r];
    c.(recs := c.recs[r := run.(phase := Done, timer := !run.discarded)],
       active := c.active - {r},
       ends := if run.discarded then c.ends else c.ends + [RunEnd(r, run.thread, status, run.resume)])
  }

  function Decided(c: Core, r: nat, failed: bool): Terminal
    requires Parallel(c) && r < |c.recs|
  {
    var ring := c.rings[r];
    DecideTerminal(c.recs[r].aborted, Superseded(c, r), ring.sawTerminal, ring.interrupted, failed)
  }

  /** The tail of the pump: decide the terminal frame, append it, finish. */
  function Finalize(c: Core, r: nat, failed: bool): Core
    requires Parallel(c) && r < |c.recs|
  {
    var t := Decided(c, r, failed);
    var c1 := if t.synthesize.Some? then Append(c, r, LifecycleFrame(t.synthesize.value)) else c;
    Finish(c1, r, t.status)
  }

  function AbortAll(recs: seq<Run>, rs: set<nat>): (out: seq<Run>)
    ensures |out| == |recs|
    ensures forall i :: 0 <= i < |recs| ==> out[i] == if i in rs then recs[i].(aborted := true) else recs[i]
  {
    seq(|recs|, i requires 0 <= i < |recs| => if i in rs then recs[i].(aborted := true) else recs[i])
  }

  function DiscardAll(recs: seq<Run>, rs: set<nat>): (out: seq<Run>)
    ensures |out| == |recs|
    ensures forall i :: 0 <= i < |recs| ==>
      out[i] == if i in rs then recs[i].(discarded := true, aborted := true) else recs[i]
  {
    seq(|recs|, i requires 0 <= i < |recs| => if i in rs then recs[i].(discarded := true, aborted := true) else recs[i])
  }

  /** clearTimeout on the eviction timer of a thread's installed run. */
  function ClearTimer(recs: seq<Run>, current: Option<nat>): (out: seq<Run>)
    ensures |out| == |recs|
  {
    if current.Some? && current.value < |recs| then recs[current.value := recs[current.value].(timer := false)]
    else recs
  }

  function Current(c: Core, t: ThreadId): Option<nat> {
    if t in c.runs then Some(c.runs[t]) else None
  }

  predicate Unfinished(c: Core, r: nat) {
    r < |c.recs| && !c.recs[r].phase.Done?
  }

  function Start(c: Core, t: ThreadId, name: nat, resume: bool): Core {
    if c.closing || t in c.deleting then c
    else
      var prior := Current(c, t);
      var live := prior.Some? && Unfinished(c, prior.value);
      var recs0 := if live then AbortAll(c.recs, {prior.value}) else c.recs;
      var recs1 := ClearTimer(recs0, prior);
      var run := Run(t, name, resume, false, if live then Queued(prior.value) else Streaming, false, false);
      c.(runs := c.runs[t := |c.recs|],
         recs := recs1 + [run],
         rings := c.rings + [Ring([], 0, false, false)],
         logs := c.logs + [[]],
         active := c.active + {|c.recs|})
  }

  function Cancel(c: Core, t: ThreadId, name: Option<nat>): Core {
    var cur := Current(c, t);
    if cur.Some? && Unfinished(c, cur.value) && (name.Some? ==> c.recs[cur.value].name == name.value)
    then c.(recs := AbortAll(c.recs, {cur.value}))
    else c
  }

  function ActiveOf(c: Core, t: ThreadId): set<nat> {
    set r | r in c.active && r < |c.recs| && c.recs[r].thread == t
  }

  function Discard(c: Core, t: ThreadId): Core {
    var doomed := ActiveOf(c, t);
    c.(recs := ClearTimer(DiscardAll(c.recs, doomed), Current(c, t)),
       drains := c.drains + [Drain(t, Current(c, t), doomed, false)])
  }

  function EndDrain(c: Core, d: nat): Core
    requires d < |c.drains|
  {
    var drain := c.drains[d];
    c.(drains := c.drains[d := drain.(closed := true)],
       runs := if Current(c, drain.thread) == drain.current then c.runs - {drain.thread} else c.runs)
  }

  function Evict(c: Core, r: nat): Core
    requires r < |c.recs|
  {
    c.(recs := c.recs[r := c.recs[r].(timer := false)],
       runs := if Superseded(c, r) then c.runs else c.runs - {c.recs[r].thread})
  }

  // ---------------------------------------------------------------- events

  datatype CoreEvent =
    | StartRun(thread: ThreadId, name: nat, resume: bool)
    | PriorSettled(run: nat)
    | StreamYield(run: nat, ev: Event)
    | StreamEnd(run: nat)
    | StreamThrow(run: nat)
    | StreamClosed(run: nat)
    | CancelRun(thread: ThreadId, only: Option<nat>)
    | Shutdown
    | DiscardThread(thread: ThreadId)
    | BeginDeletion(thread: ThreadId)
    | DrainSettled(drain: nat)
    | LowerFence(thread: ThreadId)
    | EvictTimer(run: nat)

  predicate Enabled(c: Core, e: CoreEvent)
    requires Parallel(c)
  {
    match e
    case PriorSettled(r) =>
      r < |c.recs| && c.recs[r].phase.Queued? && c.recs[r].phase.prior < |c.recs|
      && c.recs[c.recs[r].phase.prior].phase.Done?
    case StreamYield(r, _) => r < |c.recs| && c.recs[r].phase.Streaming?
    case StreamEnd(r) => r < |c.recs| && c.recs[r].phase.Streaming?
    case StreamThrow(r) => r < |c.recs| && c.recs[r].phase.Streaming?
    case StreamClosed(r) => r < |c.recs| && c.recs[r].phase.Closing?
    case DrainSettled(d) =>
      d < |c.drains| && !c.drains[d].closed && forall r <- c.drains[d].waiting :: !Unfinished(c, r)
    case EvictTimer(r) => r < |c.recs| && c.recs[r].timer
    case _ => true
  }

  function Step(c: Core, e: CoreEvent): (c': Core)
    requires Parallel(c)
    requires Enabled(c, e)
    ensures Parallel(c') && c'.cap == c.cap && |c.recs| <= |c'.recs| <= |c.recs| + 1
  {
    match e
    case StartRun(t, name, resume) => Start(c, t, name, resume)
    case PriorSettled(r) =>
      if c.recs[r].aborted then Finish(c, r, Cancelled)
      else c.(recs := c.recs[r := c.recs[r].(phase := Streaming)])
    case StreamYield(r, ev) =>
      if c.recs[r].aborted then c.(recs := c.recs[r := c.recs[r].(phase := Closing)])
      else Append(c, r, ev)
    case StreamEnd(r) => Finalize(c, r, false)
    case StreamThrow(r) =>
      if c.recs[r].aborted then Finalize(c, r, false)
      else Finalize(Append(c, r, LifecycleFrame(Failed)), r, true)
    case StreamClosed(r) => Finalize(c, r, false)
    case CancelRun(t, name) => Cancel(c, t, name)
    case Shutdown => c.(closing := true, recs := AbortAll(c.recs, c.active))
    case DiscardThread(t) => Discard(c, t)
    case BeginDeletion(t) => Discard(c.(deleting := c.deleting + {t}), t)
    case DrainSettled(d) => EndDrain(c, d)
    case LowerFence(t) => c.(deleting := c.deleting - {t})
    case EvictTimer(r) => Evict(c, r)
  }

  // ---------------------------------------------------------------- invariants

  ghost predicate Shape(c: Core) {
    && Parallel(c)
    && c.cap >= 1
    && (forall r :: r in c.active <==> 0 <= r < |c.recs| && !c.recs[r].phase.Done?)
  }

  /** The installed run is the newest of its thread; it stays, and older runs are aborted, while any is unfinished. */
  ghost predicate Installed(runs: map<ThreadId, nat>, recs: seq<Run>) {
    && (forall t <- runs :: runs[t] < |recs| && recs[runs[t]].thread == t)
    && (forall r :: 0 <= r < |recs| && recs[r].thread in runs ==> r <= runs[recs[r].thread])
    && (forall r :: 0 <= r < |recs| && !recs[r].phase.Done? ==>
          recs[r].thread in runs && (runs[recs[r].thread] != r ==> recs[r].aborted))
  }

  /** A queued run waits for the run of its thread just before it. */
  ghost predicate Chained(recs: seq<Run>) {
    forall r :: 0 <= r < |recs| && recs[r].phase.Queued? ==>
      && recs[r].phase.prior < r
      && recs[recs[r].phase.prior].thread == recs[r].thread
      && (forall q :: recs[r].phase.prior < q < r ==> recs[q].thread != recs[r].thread)
  }

  /** Once a run has left the queue, every older run of its thread is finished. */
  ghost predicate Serial(recs: seq<Run>) {
    forall q, r :: 0 <= q < r < |recs| && recs[q].thread == recs[r].thread && !recs[r].phase.Queued?
      ==> recs[q].phase.Done?
  }

  ghost predicate Silent(recs: seq<Run>, logs: seq<seq<Frame>>)
    requires |recs| == |logs|
  {
    forall r :: 0 <= r < |recs| && recs[r].phase.Queued? ==> logs[r] == []
  }

  /** A ring buffer is its log without the first `dropped` frames, and only overflows when full. */
  ghost predicate RingOf(ring: Ring, log: seq<Frame>, cap: nat) {
    && ring.dropped <= |log|
    && ring.buffer == log[ring.dropped..]
    && |ring.buffer| <= cap
    && (ring.dropped > 0 ==> |ring.buffer| == cap)
    && (ring.sawTerminal <==> HasTerminal(log))
    && (ring.interrupted <==> HasInterrupt(log))
  }

  ghost predicate HasTerminal(log: seq<Frame>) {
    exists k :: 0 <= k < |log| && IsTerminalRoot(log[k].ev)
  }

  ghost predicate HasInterrupt(log: seq<Frame>) {
    exists k :: 0 <= k < |log| && IsTerminalRoot(log[k].ev) && IsInterrupted(log[k].ev)
  }

  ghost predicate Rings(rings: seq<Ring>, logs: seq<seq<Frame>>, cap: nat)
    requires |rings| == |logs|
  {
    forall r :: 0 <= r < |rings| ==> RingOf(rings[r], logs[r], cap)
  }

  ghost predicate Ascending(log: seq<Frame>) {
    forall i, j :: 0 <= i < j < |log| ==> log[i].no < log[j].no
  }

  ghost predicate AllBefore(a: seq<Frame>, b: seq<Frame>) {
    forall i, j :: 0 <= i < |a| && 0 <= j < |b| ==> a[i].no < b[j].no
  }

  ghost predicate Below(log: seq<Frame>, n: nat) {
    forall i :: 0 <= i < |log| ==> log[i].no < n
  }

  /** Sequence numbers ascend along a log and from one run of a thread to the next. */
  ghost predicate Stamped(recs: seq<Run>, logs: seq<seq<Frame>>, counter: nat)
    requires |recs| == |logs|
  {
    && (forall r :: 0 <= r < |logs| ==> Ascending(logs[r]) && Below(logs[r], counter))
    && (forall q, r :: 0 <= q < r < |recs| && recs[q].thread == recs[r].thread ==> AllBefore(logs[q], logs[r]))
  }

  /** Exactly one end event for a finished run that was not discarded, none for any other. */
  ghost predicate EndsOnce(recs: seq<Run>, ends: seq<RunEnd>) {
    && (forall i, j :: 0 <= i < j < |ends| ==> ends[i].run != ends[j].run)
    && (forall i :: 0 <= i < |ends| ==> EndOf(recs, ends[i]))
    && (forall r :: 0 <= r < |recs| && recs[r].phase.Done? && !recs[r].discarded ==> HasEnd(ends, r))
  }

  ghost predicate EndOf(recs: seq<Run>, e: RunEnd) {
    && e.run < |recs|
    && recs[e.run].phase.Done? && !recs[e.run].discarded
    && e.thread == recs[e.run].thread
    && (e.status == Cancelled <==> recs[e.run].aborted)
  }

  ghost predicate HasEnd(ends: seq<RunEnd>, r: nat) {
    exists i :: 0 <= i < |ends| && ends[i].run == r
  }

  /** Eviction timers run only for finished runs. */
  ghost predicate Timers(recs: seq<Run>) {
    forall r :: 0 <= r < |recs| && recs[r].timer ==> recs[r].phase.Done?
  }

  /** A drain waits for every run that could still be unfinished when the map entry goes. */
  ghost predicate Draining(recs: seq<Run>, drains: seq<Drain>) {
    forall d :: 0 <= d < |drains| ==> DrainOk(recs, drains[d])
  }

  ghost predicate DrainOk(recs: seq<Run>, drain: Drain) {
    && (forall r <- drain.waiting :: r < |recs| && recs[r].thread == drain.thread)
    && (drain.current.Some? ==>
          && drain.current.value < |recs|
          && recs[drain.current.value].thread == drain.thread
          && (recs[drain.current.value].phase.Done? || drain.current.value in drain.waiting))
  }

  ghost predicate Control(runs: map<ThreadId, nat>, recs: seq<Run>, ends: seq<RunEnd>, drains: seq<Drain>) {
    && Installed(runs, recs) && Chained(recs) && Serial(recs)
    && EndsOnce(recs, ends) && Timers(recs) && Draining(recs, drains)
  }

  ghost predicate Content(cap: nat, recs: seq<Run>, rings: seq<Ring>, logs: seq<seq<Frame>>, counter: nat)
    requires |recs| == |rings| == |logs|
  {
    Silent(recs, logs) && Rings(rings, logs, cap) && Stamped(recs, logs, counter)
  }

  ghost predicate Inv(c: Core) {
    && Shape(c)
    && Control(c.runs, c.recs, c.ends, c.drains)
    && Content(c.cap, c.recs, c.rings, c.logs, c.counter)
  }
}

/**
  The observers of the run manager: each is one `observe` generator, advanced by one await-free stretch at a time.
  `past`, `ords`, `gaps` and `got` are history: under each binding to a run the ordinals read and the ordinals jumped
  because the buffer no longer held them, and everything handed to the consumer.
 */
module Observers {
  import opened Wrappers
  import opened Frames
  import opened RunManager

  /** Where a waiter is parked: in its run's own set, or in a shared set of runWaiters. */
  datatype Place = OnRun | InSet(set_: nat)

  /** `Suspended` is at a yield; `Resumed` is back in observe after waitForRun returned. */
  datatype Stage = Fresh | Suspended | Parked(at: Place) | Woken(at: Place) | Resumed | Over

  datatype Binding = Binding(run: nat, ords: seq<nat>, gaps: seq<nat>)

  datatype Observer = Observer(
    thread: ThreadId, filter: Filter, aborted: bool,
    stage: Stage, bound: Option<nat>, cursor: nat,
    ords: seq<nat>, gaps: seq<nat>, past: seq<Binding>, got: seq<Frame>)

  /** `waiters[r]` is run r's waiter set; `sets` are the shared sets ever made, `runWaiters` the live ones. */
  datatype Sys = Sys(
    core: Core, obs: seq<Observer>, waiters: seq<set<nat>>, sets: seq<set<nat>>, runWaiters: map<ThreadId, nat>)

  function InitSys(cap: nat): Sys {
    Sys(Init(cap), [], [], [], map[])
  }

  /** An observer that has not run yet. */
  function Arrival(t: ThreadId, filter: Filter): Observer {
    Observer(t, filter, false, Fresh, None, 0, [], [], [], [])
  }

  /** Every reference between runs, observers and waiter sets is to something that exists. */
  predicate Linked(s: Sys) {
    && Parallel(s.core)
    && |s.waiters| == |s.core.recs|
    && (forall t <- s.runWaiters :: s.runWaiters[t] < |s.sets|)
    && (forall i :: 0 <= i < |s.obs| ==> ObserverLinked(s.obs[i], |s.waiters|, |s.sets|))
  }

  predicate ObserverLinked(ob: Observer, runs: nat, sets: nat) {
    && (ob.bound.Some? ==> ob.bound.value < runs)
    && ((ob.stage.Parked? || ob.stage.Woken?) ==>
          if ob.stage.at.OnRun? then ob.bound.Some? else ob.stage.at.set_ < sets)
    && (ob.stage.Suspended? ==> ob.bound.Some?)
  }

  // ---------------------------------------------------------------- reading

  /** The first buffer slot from `i` on whose frame is wanted, or the buffer's length. */
  function FirstWanted(buffer: seq<Frame>, i: nat, filter: Filter): (j: nat)
    requires i <= |buffer|
    ensures i <= j <= |buffer|
    ensures forall k :: i <= k < j ==> !Wanted(buffer[k], filter)
    ensures j < |buffer| ==> Wanted(buffer[j], filter)
    decreases |buffer| - i
  {
    if i == |buffer| || Wanted(buffer[i], filter) then i else FirstWanted(buffer, i + 1, filter)
  }

  function Range(lo: nat, hi: nat): (r: seq<nat>)
    requires lo <= hi
    ensures |r| == hi - lo && forall i :: 0 <= i < |r| ==> r[i] == lo + i
  {
    seq(hi - lo, i => lo + i)
  }

  /** Where reading goes on: at the cursor, or at the oldest frame kept if the cursor's is gone. */
  function ReadFrom(ring: Ring, cursor: nat): (start: nat)
    ensures cursor <= start
  {
    if cursor < ring.dropped then ring.dropped else cursor
  }

  datatype BufferRead = BufferRead(ob: Observer, hit: bool)

  /** The inner loop of observe: read on until a frame is wanted or the buffer is exhausted. */
  function ReadBuffer(ring: Ring, ob: Observer): BufferRead
    requires ob.cursor < ring.dropped + |ring.buffer|
  {
    var start := ReadFrom(ring, ob.cursor);
    var j := FirstWanted(ring.buffer, start - ring.dropped, ob.filter);
    var hit := j < |ring.buffer|;
    var next := ring.dropped + j + (if hit then 1 else 0);
    BufferRead(ob.(cursor := next, ords := ob.ords + Range(start, next), gaps := ob.gaps + Range(ob.cursor, start),
                   got := if hit then ob.got + [ring.buffer[j]] else ob.got),
               hit)
  }

  /** The bindings of an observer up to its present one. */
  function Bindings(ob: Observer): seq<Binding> {
    if ob.bound.Some? then ob.past + [Binding(ob.bound.value, ob.ords, ob.gaps)] else ob.past
  }

  function Bind(c: Core, ob: Observer, r: nat): Observer
    requires Parallel(c) && r < |c.recs|
  {
    ob.(bound := Some(r), cursor := c.rings[r].dropped, ords := [], gaps := Range(0, c.rings[r].dropped),
        past := Bindings(ob))
  }

  /** What one stretch of observe ends with. */
  datatype Outcome = Yielded(ob: Observer) | Ended(ob: Observer) | ParksOnRun(ob: Observer) | ParksForRun(ob: Observer)

  predicate Followable(c: Core, ob: Observer) {
    Parallel(c) && (ob.bound.Some? ==> ob.bound.value < |c.recs|)
  }

  predicate Continues(c: Core, ob: Observer, out: Outcome) {
    && out.ob.thread == ob.thread
    && (out.ob.bound.Some? ==> out.ob.bound.value < |c.recs|)
    && (out.Yielded? || out.ParksOnRun? ==> out.ob.bound.Some?)
  }

  predicate Stale(c: Core, ob: Observer) {
    ob.thread in c.runs && ob.bound != Some(c.runs[ob.thread])
  }

  /** From the inner loop on: drain the bound run, then follow a replacement, or park. */
  function ReadOn(c: Core, ob: Observer): (out: Outcome)
    requires Followable(c, ob) && ob.bound.Some?
    ensures Continues(c, ob, out)
    decreases Stale(c, ob), 1
  {
    var ring := c.rings[ob.bound.value];
    if ob.cursor < ring.dropped + |ring.buffer| then
      if ob.aborted then Ended(ob)
      else
        var d := ReadBuffer(ring, ob);
        if d.hit then Yielded(d.ob) else Settle(c, d.ob)
    else Settle(c, ob)
  }

  /** The bound run is exhausted. */
  function Settle(c: Core, ob: Observer): (out: Outcome)
    requires Followable(c, ob) && ob.bound.Some?
    ensures Continues(c, ob, out)
    decreases Stale(c, ob), 0
  {
    if Stale(c, ob) then Loop(c, Bind(c, ob, c.runs[ob.thread]))
    else if !c.recs[ob.bound.value].phase.Done? then ParksOnRun(ob)
    else ParksForRun(ob)
  }

  /** The top of the outer loop. */
  function Loop(c: Core, ob: Observer): (out: Outcome)
    requires Followable(c, ob) && ob.bound.Some?
    ensures Continues(c, ob, out)
    decreases Stale(c, ob), 2
  {
    if ob.aborted || ob.thread in c.deleting then Ended(ob) else ReadOn(c, ob)
  }

  /** The loop that waits for a first run. */
  function Seek(c: Core, ob: Observer): (out: Outcome)
    requires Followable(c, ob) && ob.bound.None?
    ensures Continues(c, ob, out)
  {
    if ob.thread in c.runs then Loop(c, Bind(c, ob, c.runs[ob.thread]))
    else if ob.aborted || ob.thread in c.deleting then Ended(ob)
    else ParksForRun(ob)
  }

  /** Back from waitForRun with a finished run bound. */
  function FollowUp(c: Core, ob: Observer): (out: Outcome)
    requires Followable(c, ob) && ob.bound.Some?
    ensures Continues(c, ob, out)
  {
    if ob.aborted then Ended(ob)
    else if Stale(c, ob) then Loop(c, Bind(c, ob, c.runs[ob.thread]))
    else Loop(c, ob)
  }

  predicate Runnable(ob: Observer) {
    ob.stage.Fresh? || ob.stage.Resumed? || ob.stage.Suspended? || ob.stage == Woken(OnRun)
  }

  function Advance(c: Core, ob: Observer): (out: Outcome)
    requires Followable(c, ob) && Runnable(ob)
    ensures Continues(c, ob, out)
  {
    if ob.bound.None? then Seek(c, ob)
    else if ob.stage.Suspended? then ReadOn(c, ob)
    else if ob.stage.Resumed? then FollowUp(c, ob)
    else Loop(c, ob)
  }

  // ---------------------------------------------------------------- parking and waking

  /** waitOn: an observer whose signal is already aborted is woken at once. */
  function ParkOnRun(s: Sys, o: nat, ob: Observer): (s': Sys)
    requires Linked(s) && o < |s.obs| && ob.bound.Some? && ob.bound.value < |s.waiters|
    ensures Linked(s')
  {
    if ob.aborted then s.(obs := s.obs[o := ob.(stage := Woken(OnRun))])
    else s.(obs := s.obs[o := ob.(stage := Parked(OnRun))],
            waiters := s.waiters[ob.bound.value := s.waiters[ob.bound.value] + {o}])
  }

  /** waitForRun up to its await: share the thread's set, making one if there is none. */
  function ParkForRun(s: Sys, o: nat, ob: Observer): (s': Sys)
    requires Linked(s) && o < |s.obs| && (ob.bound.Some? ==> ob.bound.value < |s.waiters|)
    ensures Linked(s')
  {
    var s1 := if ob.thread in s.runWaiters then s
              else s.(sets := s.sets + [{}], runWaiters := s.runWaiters[ob.thread := |s.sets|]);
    var k := s1.runWaiters[ob.thread];
    if ob.aborted then s1.(obs := s1.obs[o := ob.(stage := Woken(InSet(k)))])
    else s1.(obs := s1.obs[o := ob.(stage := Parked(InSet(k)))], sets := s1.sets[k := s1.sets[k] + {o}])
  }

  function WakeAll(obs: seq<Observer>, os: set<nat>): (out: seq<Observer>)
    ensures |out| == |obs|
    ensures forall i :: 0 <= i < |obs| ==>
      out[i] == if i in os && obs[i].stage.Parked? then obs[i].(stage := Woken(obs[i].stage.at)) else obs[i]
  {
    seq(|obs|, i requires 0 <= i < |obs| =>
      if i in os && obs[i].stage.Parked? then obs[i].(stage := Woken(obs[i].stage.at)) else obs[i])
  }

  /** Wakes and empties the live shared set of a thread. */
  function WakeThread(s: Sys, t: ThreadId): (s': Sys)
    requires Linked(s)
    ensures Linked(s')
  {
    if t in s.runWaiters then
      var k := s.runWaiters[t];
      s.(obs := WakeAll(s.obs, s.sets[k]), sets := s.sets[k := {}])
    else s
  }

  /** The manager's `wake`: the run's own waiters, then the thread's. */
  function WakeRun(s: Sys, r: nat): (s': Sys)
    requires Linked(s) && r < |s.waiters|
    ensures Linked(s')
  {
    WakeThread(s.(obs := WakeAll(s.obs, s.waiters[r]), waiters := s.waiters[r := {}]), s.core.recs[r].thread)
  }

  // ---------------------------------------------------------------- events

  datatype SysEvent =
    | CoreEv(e: CoreEvent)
    | Observe(thread: ThreadId, filter: Filter)
    | Go(o: nat)
    | LeaveSet(o: nat)
    | AbortObserver(o: nat)

  predicate CanHappen(s: Sys, e: SysEvent)
    requires Linked(s)
  {
    match e
    case CoreEv(ce) => Enabled(s.core, ce)
    case Observe(_, _) => true
    case Go(o) => o < |s.obs| && Runnable(s.obs[o])
    case LeaveSet(o) => o < |s.obs| && s.obs[o].stage.Woken? && s.obs[o].stage.at.InSet?
    case AbortObserver(o) => o < |s.obs|
  }

  /** The run whose waiters a step of the manager wakes, if any. */
  function WokenRun(c: Core, e: CoreEvent): (r: Option<nat>)
    requires Parallel(c) && Enabled(c, e)
    ensures r.Some? ==> r.value < |c.recs|
  {
    match e
    case PriorSettled(r) => if c.recs[r].aborted then Some(r) else None
    case StreamYield(r, _) => if c.recs[r].aborted then None else Some(r)
    case StreamEnd(r) => Some(r)
    case StreamThrow(r) => Some(r)
    case StreamClosed(r) => Some(r)
    case _ => None
  }

  /** The thread whose shared set a step wakes without touching a run, if any. */
  function WokenThread(e: CoreEvent): Option<ThreadId> {
    if e.BeginDeletion? then Some(e.thread) else None
  }

  /** Gives a new run its empty waiter set. */
  function Grow(s: Sys, c': Core): (s': Sys)
    requires Linked(s) && Parallel(c') && |s.waiters| <= |c'.recs| <= |s.waiters| + 1
    ensures Linked(s')
  {
    s.(core := c', waiters := if |c'.recs| > |s.waiters| then s.waiters + [{}] else s.waiters)
  }

  function Announce(s: Sys, run: Option<nat>, thread: Option<ThreadId>): (s': Sys)
    requires Linked(s) && (run.Some? ==> run.value < |s.waiters|)
    ensures Linked(s')
  {
    if run.Some? then WakeRun(s, run.value)
    else if thread.Some? then WakeThread(s, thread.value)
    else s
  }

  function OnCore(s: Sys, e: CoreEvent): (s': Sys)
    requires Linked(s) && Enabled(s.core, e)
    ensures Linked(s')
  {
    Announce(Grow(s, Step(s.core, e)), WokenRun(s.core, e), WokenThread(e))
  }

  function OnGo(s: Sys, o: nat): (s': Sys)
    requires Linked(s) && CanHappen(s, Go(o))
    ensures Linked(s')
  {
    match Advance(s.core, s.obs[o])
    case Yielded(ob) => s.(obs := s.obs[o := ob.(stage := Suspended)])
    case Ended(ob) => s.(obs := s.obs[o := ob.(stage := Over)])
    case ParksOnRun(ob) => ParkOnRun(s, o, ob)
    case ParksForRun(ob) => ParkForRun(s, o, ob)
  }

  /** The end of waitForRun: an empty set that is still the live one is forgotten. */
  function OnLeave(s: Sys, o: nat): (s': Sys)
    requires Linked(s) && CanHappen(s, LeaveSet(o))
    ensures Linked(s')
  {
    var ob := s.obs[o];
    var k := ob.stage.at.set_;
    s.(obs := s.obs[o := ob.(stage := Resumed)],
       runWaiters := if s.sets[k] == {} && ob.thread in s.runWaiters && s.runWaiters[ob.thread] == k
                     then s.runWaiters - {ob.thread} else s.runWaiters)
  }

  /** The abort signal fires: a parked waiter removes itself from its set. */
  function OnAbort(s: Sys, o: nat): (s': Sys)
    requires Linked(s) && CanHappen(s, AbortObserver(o))
    ensures Linked(s')
  {
    var ob := s.obs[o].(aborted := true);
    if !ob.stage.Parked? then s.(obs := s.obs[o := ob])
    else
      var s1 := s.(obs := s.obs[o := ob.(stage := Woken(ob.stage.at))]);
      if ob.stage.at.OnRun? then s1.(waiters := s1.waiters[ob.bound.value := s1.waiters[ob.bound.value] - {o}])
      else s1.(sets := s1.sets[ob.stage.at.set_ := s1.sets[ob.stage.at.set_] - {o}])
  }

  function Next(s: Sys, e: SysEvent): (s': Sys)
    requires Linked(s) && CanHappen(s, e)
    ensures Linked(s')
  {
    match e
    case CoreEv(ce) => OnCore(s, ce)
    case Observe(t, filter) => s.(obs := s.obs + [Arrival(t, filter)])
    case Go(o) => OnGo(s, o)
    case LeaveSet(o) => OnLeave(s, o)
    case AbortObserver(o) => OnAbort(s, o)
  }
}

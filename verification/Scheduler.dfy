/**
  The client's run scheduler. A thread's turns are numbered in the order they were sent; a submission is one call of
  controller.submit together with the run it creates, and stands for its run id. Entry objects are named by position, so
  a submission can outlive the entry it was made for. A run that no submission made (one resumed after an interrupt, or
  found by hydration) can only complete. `sent`, `accepted`, `cancelled`, `bounced` and `disposed` are history.
 */
module Scheduler {
  import opened Wrappers

  type ThreadId = nat

  datatype Status = Idle | Streaming | Interrupted | Failed

  datatype Entry = Entry(queued: seq<nat>, run: Option<nat>, steering: bool, hydrating: bool)

  datatype Submission = Submission(
    entry: nat, turn: nat, queued: bool, created: bool, settled: bool, failed: bool, completed: bool)

  /** One steerNow between its cancellation request and its end. */
  datatype Steer = Steer(entry: nat, target: nat, over: bool)

  datatype Thread = Thread(
    entries: seq<Entry>, entry: Option<nat>, status: Status, watched: bool,
    subs: seq<Submission>, steers: seq<Steer>,
    sent: nat, accepted: seq<nat>, cancelled: set<nat>, bounced: set<nat>, disposed: bool)

  datatype Store = Store(
    max: nat, threads: map<ThreadId, Thread>, active: set<ThreadId>, pending: seq<ThreadId>, pendingSet: set<ThreadId>)

  const NEW_THREAD: Thread := Thread([], None, Idle, false, [], [], 0, [], {}, {}, false)

  function Init(max: nat): Store {
    Store(max, map[], {}, [], {})
  }

  function Get(s: Store, t: ThreadId): Thread {
    if t in s.threads then s.threads[t] else NEW_THREAD
  }

  function Put(s: Store, t: ThreadId, th: Thread): Store {
    s.(threads := s.threads[t := th])
  }

  /** References inside a thread are to things that exist. */
  predicate Linked(th: Thread) {
    && (th.entry.Some? ==> th.entry.value < |th.entries|)
    && (forall n :: 0 <= n < |th.entries| && th.entries[n].run.Some? ==> th.entries[n].run.value < |th.subs|)
    && (forall k :: 0 <= k < |th.subs| ==> th.subs[k].entry < |th.entries|)
    && (forall k :: 0 <= k < |th.steers| ==>
          th.steers[k].entry < |th.entries| && th.steers[k].target < |th.subs|)
  }

  predicate AllLinked(s: Store) {
    forall t <- s.threads :: Linked(s.threads[t])
  }

  predicate Live(sub: Submission) {
    !sub.settled || (!sub.failed && !sub.completed)
  }

  function Queue(th: Thread): seq<nat>
    requires Linked(th)
  {
    if th.entry.Some? then th.entries[th.entry.value].queued else []
  }

  // ---------------------------------------------------------------- pieces

  /** entry(threadId): the thread's entry, made on demand. */
  function WithEntry(th: Thread): (th': Thread)
    requires Linked(th)
    ensures Linked(th') && th'.entry.Some?
  {
    if th.entry.Some? then th
    else th.(entries := th.entries + [Entry([], None, false, false)], entry := Some(|th.entries|))
  }

  function SetEntry(th: Thread, e: Entry): (th': Thread)
    requires Linked(th) && th.entry.Some? && (e.run.Some? ==> e.run.value < |th.subs|)
    ensures Linked(th')
  {
    th.(entries := th.entries[th.entry.value := e])
  }

  function Enqueue(th: Thread): (th': Thread)
    requires Linked(th) && th.entry.Some?
    ensures Linked(th')
  {
    var e := th.entries[th.entry.value];
    SetEntry(th.(sent := th.sent + 1), e.(queued := e.queued + [th.sent]))
  }

  function Submit(th: Thread, turn: nat, queued: bool): (th': Thread)
    requires Linked(th) && th.entry.Some?
    ensures Linked(th')
  {
    th.(subs := th.subs + [Submission(th.entry.value, turn, queued, false, false, false, false)])
  }

  /** Submits a new turn at once. */
  function SubmitNew(th: Thread): (th': Thread)
    requires Linked(th) && th.entry.Some?
    ensures Linked(th')
  {
    Submit(th.(sent := th.sent + 1), th.sent, false)
  }

  /** Takes the queue's head and submits it. */
  function SubmitHead(th: Thread): (th': Thread)
    requires Linked(th) && Queue(th) != []
    ensures Linked(th')
  {
    var e := th.entries[th.entry.value];
    Submit(SetEntry(th, e.(queued := e.queued[1..])), e.queued[0], true)
  }

  predicate Busy(th: Thread) {
    th.status.Streaming? || th.status.Interrupted?
  }

  /** Whether pumpRunQueue passes over a thread it has taken from the list. */
  predicate Skips(s: Store, t: ThreadId)
    requires AllLinked(s)
  {
    var th := Get(s, t);
    Queue(th) == [] || t in s.active || th.entries[th.entry.value].steering || Busy(th)
  }

  function Launch(s: Store, t: ThreadId): (s': Store)
    requires AllLinked(s) && !Skips(s, t)
    ensures AllLinked(s')
  {
    Put(s, t, SubmitHead(Get(s, t))).(active := s.active + {t})
  }

  /** The waiting list without its head. */
  function Shifted(s: Store): Store
    requires s.pending != []
  {
    s.(pending := s.pending[1..], pendingSet := s.pendingSet - {s.pending[0]})
  }

  function Pump(s: Store): (s': Store)
    requires AllLinked(s)
    ensures AllLinked(s')
    decreases |s.pending|
  {
    if |s.active| < s.max && s.pending != [] then
      var t := s.pending[0];
      Pump(if Skips(Shifted(s), t) then Shifted(s) else Launch(Shifted(s), t))
    else s
  }

  /** The waiting list with the thread in it, once. */
  function Listed(s: Store, t: ThreadId): Store {
    if t in s.pendingSet then s else s.(pendingSet := s.pendingSet + {t}, pending := s.pending + [t])
  }

  function Drain(s: Store, t: ThreadId): (s': Store)
    requires AllLinked(s)
    ensures AllLinked(s')
  {
    if Skips(s, t) then s else Pump(Listed(s, t))
  }

  /** activeRunThreads.delete: frees the thread's slot, whoever holds it. */
  function Release(s: Store, t: ThreadId): Store {
    s.(active := s.active - {t})
  }

  // ---------------------------------------------------------------- what a callback does to its thread

  /** onCreated: the turn is accepted, and the thread's current entry learns the run id. */
  function CreatedIn(th: Thread, k: nat): (th': Thread)
    requires Linked(th) && k < |th.subs|
    ensures Linked(th')
  {
    var sub := th.subs[k];
    var th1 := th.(subs := th.subs[k := sub.(created := true)], accepted := th.accepted + [sub.turn]);
    if th.entry.Some? then SetEntry(th1, th1.entries[th1.entry.value].(run := Some(k))) else th1
  }

  function Settled(th: Thread, k: nat): (th': Thread)
    requires Linked(th) && k < |th.subs|
    ensures Linked(th')
  {
    th.(subs := th.subs[k := th.subs[k].(settled := true)])
  }

  /** A failed submission: a queued turn goes back to the front of its entry's queue, a direct one is the caller's. */
  function FailedIn(th: Thread, k: nat): (th': Thread)
    requires Linked(th) && k < |th.subs|
    ensures Linked(th')
  {
    var sub := th.subs[k];
    var th1 := th.(subs := th.subs[k := sub.(settled := true, failed := true)]);
    var e := th1.entries[sub.entry];
    if sub.queued then th1.(entries := th1.entries[sub.entry := e.(queued := [sub.turn] + e.queued)])
    else th1.(bounced := th1.bounced + {sub.turn})
  }

  /** The run that ends is a submission's, or none's. */
  function CompletedIn(th: Thread, k: Option<nat>): (th': Thread)
    requires Linked(th) && (k.Some? ==> k.value < |th.subs|)
    ensures Linked(th')
  {
    var th1 := if k.Some? then th.(subs := th.subs[k.value := th.subs[k.value].(completed := true)]) else th;
    if th1.entry.Some? then SetEntry(th1, th1.entries[th1.entry.value].(run := None)) else th1
  }

  function CancelledIn(th: Thread, i: nat): (th': Thread)
    requires Linked(th) && i < |Queue(th)|
    ensures Linked(th')
  {
    var q := Queue(th);
    SetEntry(th.(cancelled := th.cancelled + {q[i]}), th.entries[th.entry.value].(queued := q[..i] + q[i + 1..]))
  }

  function Unsteered(th: Thread, j: nat): (th': Thread)
    requires Linked(th) && j < |th.steers|
    ensures Linked(th')
  {
    var n := th.steers[j].entry;
    th.(steers := th.steers[j := th.steers[j].(over := true)],
        entries := th.entries[n := th.entries[n].(steering := false)])
  }

  // ---------------------------------------------------------------- operations

  predicate MustQueue(s: Store, t: ThreadId)
    requires AllLinked(s)
  {
    Busy(Get(s, t)) || t in s.active || t in s.pendingSet || Queue(Get(s, t)) != [] || |s.active| >= s.max
  }

  function Send(s: Store, t: ThreadId): (s': Store)
    requires AllLinked(s)
    ensures AllLinked(s')
  {
    var th := WithEntry(Get(s, t));
    if MustQueue(s, t) then Drain(Put(s, t, Enqueue(th)), t)
    else Put(s, t, SubmitNew(th)).(active := s.active + {t})
  }

  function Created(s: Store, t: ThreadId, k: nat): (s': Store)
    requires AllLinked(s) && k < |Get(s, t).subs|
    ensures AllLinked(s')
  {
    Put(s, t, CreatedIn(Get(s, t), k))
  }

  /** The finally block after a submission: give the slot back unless a run was created. */
  function GiveBack(s: Store, t: ThreadId, k: nat, drain: bool): (s': Store)
    requires AllLinked(s) && k < |Get(s, t).subs|
    ensures AllLinked(s')
  {
    var th := Get(s, t);
    if th.entries[th.subs[k].entry].run.None? && t in s.active then
      Pump(if drain then Drain(Release(s, t), t) else Release(s, t))
    else s
  }

  function SettleOk(s: Store, t: ThreadId, k: nat): (s': Store)
    requires AllLinked(s) && k < |Get(s, t).subs|
    ensures AllLinked(s')
  {
    GiveBack(Put(s, t, Settled(Get(s, t), k)), t, k, Get(s, t).subs[k].queued)
  }

  function SettleFail(s: Store, t: ThreadId, k: nat): (s': Store)
    requires AllLinked(s) && k < |Get(s, t).subs|
    ensures AllLinked(s')
  {
    GiveBack(Put(s, t, FailedIn(Get(s, t), k)), t, k, false)
  }

  /** Disposing an entry keeps its record for submissions that still refer to it. */
  function DropEntry(th: Thread): (th': Thread)
    requires Linked(th)
    ensures Linked(th')
  {
    th.(entry := None)
  }

  /** What disposeIdleController and evictInactiveControllers both ask before disposing. */
  predicate Evictable(s: Store, t: ThreadId)
    requires AllLinked(s)
  {
    var th := Get(s, t);
    && th.entry.Some?
    && var e := th.entries[th.entry.value];
    && e.run.None? && t !in s.active && !e.hydrating && !e.steering && e.queued == [] && !th.watched && !Busy(th)
  }

  function Evict(s: Store, t: ThreadId): (s': Store)
    requires AllLinked(s)
    ensures AllLinked(s')
  {
    if Evictable(s, t) then Put(s, t, DropEntry(Get(s, t))) else s
  }

  /** onCompleted: clear the run id, free the slot, drain, dispose if idle, pump. */
  function Completed(s: Store, t: ThreadId, k: Option<nat>): (s': Store)
    requires AllLinked(s) && (k.Some? ==> k.value < |Get(s, t).subs|)
    ensures AllLinked(s')
  {
    Pump(Evict(Drain(Release(Put(s, t, CompletedIn(Get(s, t), k)), t), t), t))
  }

  function CancelQueued(s: Store, t: ThreadId, i: nat): (s': Store)
    requires AllLinked(s)
    ensures AllLinked(s')
  {
    if i < |Queue(Get(s, t))| then Put(s, t, CancelledIn(Get(s, t), i)) else s
  }

  /** steerNow on a streaming thread, up to its await: asks to cancel the run the entry knows, or gives up. */
  function Steering(th: Thread): (th': Thread)
    requires Linked(th) && th.entry.Some?
    ensures Linked(th')
  {
    var th1 := Enqueue(th);
    var e := th1.entries[th1.entry.value];
    if e.run.None? then SetEntry(th1, e.(steering := false))
    else SetEntry(th1, e.(steering := true)).(steers := th1.steers + [Steer(th1.entry.value, e.run.value, false)])
  }

  function SteerStart(s: Store, t: ThreadId): (s': Store)
    requires AllLinked(s)
    ensures AllLinked(s')
  {
    var th := WithEntry(Get(s, t));
    match th.status
    case Interrupted => Put(s, t, Enqueue(th))
    case Streaming => Put(s, t, Steering(th))
    case _ => Send(s, t)
  }

  /** The end of steerNow. On success the slot is freed without asking who holds it. */
  function SteerEnd(s: Store, t: ThreadId, j: nat, ok: bool): (s': Store)
    requires AllLinked(s) && j < |Get(s, t).steers|
    ensures AllLinked(s')
  {
    var s1 := Put(s, t, Unsteered(Get(s, t), j));
    if ok then Pump(Drain(Release(s1, t), t)) else s1
  }

  function Forgotten(s: Store, t: ThreadId): (s': Store)
    requires AllLinked(s)
    ensures AllLinked(s')
  {
    var th := DropEntry(Get(s, t)).(status := Idle, watched := false, disposed := true);
    Release(Put(s, t, th), t).(pendingSet := s.pendingSet - {t})
  }

  function DisposeThread(s: Store, t: ThreadId): (s': Store)
    requires AllLinked(s)
    ensures AllLinked(s')
  {
    Pump(Forgotten(s, t))
  }

  function SetHydrating(s: Store, t: ThreadId, on: bool): (s': Store)
    requires AllLinked(s)
    ensures AllLinked(s')
  {
    var th := WithEntry(Get(s, t));
    Put(s, t, SetEntry(th, th.entries[th.entry.value].(hydrating := on)))
  }

  // ---------------------------------------------------------------- events

  datatype Event =
    | SendTurn(t: ThreadId)
    | OnCreated(t: ThreadId, k: nat)
    | OnSettled(t: ThreadId, k: nat, ok: bool)
    | OnCompleted(t: ThreadId, run: Option<nat>)
    | CancelTurn(t: ThreadId, i: nat)
    | SteerNow(t: ThreadId)
    | SteerReturns(t: ThreadId, j: nat, ok: bool)
    | Dispose(t: ThreadId)
    | EvictIdle(t: ThreadId)
    | StatusChange(t: ThreadId, status: Status)
    | Watch(t: ThreadId, on: bool)
    | Hydrate(t: ThreadId, on: bool)

  /** What can happen at all, whatever the SDK does: a promise settles once. */
  predicate Possible(s: Store, e: Event) {
    match e
    case OnCreated(t, k) => k < |Get(s, t).subs|
    case OnSettled(t, k, _) => k < |Get(s, t).subs| && !Get(s, t).subs[k].settled
    case OnCompleted(t, k) => k.Some? ==> k.value < |Get(s, t).subs|
    case SteerReturns(t, j, _) => j < |Get(s, t).steers| && !Get(s, t).steers[j].over
    case _ => true
  }

  function Step(s: Store, e: Event): (s': Store)
    requires AllLinked(s) && Possible(s, e)
    ensures AllLinked(s')
  {
    match e
    case SendTurn(t) => Send(s, t)
    case OnCreated(t, k) => Created(s, t, k)
    case OnSettled(t, k, ok) => if ok then SettleOk(s, t, k) else SettleFail(s, t, k)
    case OnCompleted(t, k) => Completed(s, t, k)
    case CancelTurn(t, i) => CancelQueued(s, t, i)
    case SteerNow(t) => SteerStart(s, t)
    case SteerReturns(t, j, ok) => SteerEnd(s, t, j, ok)
    case Dispose(t) => DisposeThread(s, t)
    case EvictIdle(t) => Evict(s, t)
    case StatusChange(t, status) => Put(s, t, Get(s, t).(status := status))
    case Watch(t, on) => Put(s, t, Get(s, t).(watched := on))
    case Hydrate(t, on) => SetHydrating(s, t, on)
  }
}

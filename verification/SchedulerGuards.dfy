/** What the scheduler's guards guard: turns sent at once, turns taken from a queue, and controllers still needed. */
module SchedulerGuards {
  import opened Wrappers
  import opened Scheduler
  import opened SchedulerInvariant
  import opened SchedulerTheorems

  // ---------------------------------------------------------------- sending

  /** A new submission of the turn, straight from the user or out of the queue. */
  ghost predicate Submits(th: Thread, th': Thread, turn: nat, queued: bool) {
    |th'.subs| == |th.subs| + 1 && th'.subs[|th.subs|].turn == turn && th'.subs[|th.subs|].queued == queued
  }

  /**
    A turn is sent at once exactly if nothing of its thread runs, awaits the user, waits or is listed, and a slot is
    free; else it goes through the queue.
   */
  lemma SentAtOnceExactly(s: Store, t: ThreadId)
    requires AllLinked(s)
    ensures var th, th' := Get(s, t), Get(Send(s, t), t);
      Submits(th, th', th.sent, false) <==>
        && !th.status.Streaming? && !th.status.Interrupted? && t !in s.active && t !in s.pendingSet
        && Queue(th) == [] && |s.active| < s.max
  {
    if MustQueue(s, t) {
      DrainEffect(Put(s, t, Enqueue(WithEntry(Get(s, t)))), t, t);
    }
  }

  /** A thread's turn is taken from its queue only while nothing of it runs, awaits the user or is being steered. */
  lemma TakenOnlyWhenFree(s: Store, e: Event, t: ThreadId)
    requires AllLinked(s) && Possible(s, e) && e.t != t && |Get(Step(s, e), t).subs| != |Get(s, t).subs|
    ensures var th, th' := Get(s, t), Get(Step(s, e), t);
      && !th.status.Streaming? && !th.status.Interrupted? && t !in s.active
      && Queue(th) != [] && !th.entries[th.entry.value].steering
      && Submits(th, th', Queue(th)[0], true) && Queue(th') == Queue(th)[1..]
  {
    OtherEventEffect(s, e, t);
  }

  // ---------------------------------------------------------------- controllers

  /** Somebody looks at the thread, it awaits the user or streams, or something of it waits or is under way. */
  predicate Needed(th: Thread)
    requires Linked(th) && th.entry.Some?
  {
    var e := th.entries[th.entry.value];
    th.watched || th.status.Streaming? || th.status.Interrupted? || e.hydrating || e.steering || e.queued != []
  }

  /** Its run is known or a slot is held for it. */
  predicate Runs(s: Store, t: ThreadId)
    requires AllLinked(s) && Get(s, t).entry.Some?
  {
    Get(s, t).entries[Get(s, t).entry.value].run.Some? || t in s.active
  }

  lemma PumpedKeeps(s: Store, s': Store, t: ThreadId)
    requires AllLinked(s) && AllLinked(s') && Pumped(s, s', t) && Get(s, t).entry.Some?
    ensures Get(s', t).entry == Get(s, t).entry
    ensures Needed(Get(s, t)) || Runs(s, t) ==> Needed(Get(s', t)) || Runs(s', t)
  {
  }

  /** A thread being hydrated keeps its controller until told that hydration is over. */
  lemma HydrationHolds(s: Store, t: ThreadId, on: bool)
    requires AllLinked(s)
    ensures var s' := SetHydrating(s, t, on); var th' := Get(s', t);
      && th'.entry.Some? && th'.entries[th'.entry.value].hydrating == on && Queue(th') == Queue(Get(s, t))
      && (on ==> Evict(s', t) == s')
  {
  }

  /** An idle thread loses its controller exactly if nobody needs it and nothing runs. */
  lemma EvictsExactly(s: Store, t: ThreadId)
    requires AllLinked(s) && Get(s, t).entry.Some?
    ensures Get(Evict(s, t), t).entry.None? <==> !Needed(Get(s, t)) && !Runs(s, t)
    ensures Get(Evict(s, t), t).entry.Some? ==> Evict(s, t) == s
  {
  }

  lemma CompletedController(s: Store, t: ThreadId, run: Option<nat>)
    requires AllLinked(s) && Possible(s, OnCompleted(t, run)) && Get(s, t).entry.Some?
    ensures Needed(Get(s, t)) ==> Get(Completed(s, t, run), t).entry == Get(s, t).entry
    ensures var s' := Completed(s, t, run); Get(s', t).entry.Some? ==> Needed(Get(s', t)) || Runs(s', t)
  {
    var s1 := Release(Put(s, t, CompletedIn(Get(s, t), run)), t);
    var s2 := Drain(s1, t);
    assert Needed(Get(s, t)) ==> Needed(Get(s1, t));
    DrainEffect(s1, t, t);
    PumpedKeeps(s1, s2, t);
    EvictsExactly(s2, t);
    PumpEffect(Evict(s2, t), t);
    if Get(Evict(s2, t), t).entry.Some? {
      PumpedKeeps(Evict(s2, t), Pump(Evict(s2, t)), t);
    }
  }

  lemma SendController(s: Store, t: ThreadId)
    requires AllLinked(s) && Get(s, t).entry.Some?
    ensures Get(Send(s, t), t).entry == Get(s, t).entry && Get(SteerStart(s, t), t).entry == Get(s, t).entry
  {
    DrainEffect(Put(s, t, Enqueue(WithEntry(Get(s, t)))), t, t);
  }

  lemma GiveBackController(s: Store, t: ThreadId, k: nat, drain: bool)
    requires AllLinked(s) && k < |Get(s, t).subs|
    ensures Get(GiveBack(s, t, k, drain), t).entry == Get(s, t).entry
  {
    DrainPumpEffect(Release(s, t), t, t);
    PumpEffect(Release(s, t), t);
  }

  lemma OwnController(s: Store, e: Event)
    requires AllLinked(s) && Possible(s, e) && Get(s, e.t).entry.Some?
    requires !e.Dispose? && !e.OnCompleted? && !e.EvictIdle?
    ensures Get(Step(s, e), e.t).entry == Get(s, e.t).entry
  {
    match e
    case SendTurn(t) => SendController(s, t);
    case SteerNow(t) => SendController(s, t);
    case OnSettled(t, k, ok) =>
      GiveBackController(Put(s, t, if ok then Settled(Get(s, t), k) else FailedIn(Get(s, t), k)), t, k,
                         ok && Get(s, t).subs[k].queued);
    case SteerReturns(t, j, ok) => DrainPumpEffect(Release(Put(s, t, Unsteered(Get(s, t), j)), t), t, t);
    case _ =>
  }

  /**
    A controller that is needed is kept through every event but the disposal of its thread; one whose thread still runs
    is given up by no event but the end of a run.
   */
  lemma NeededIsKept(s: Store, e: Event, t: ThreadId)
    requires AllLinked(s) && Possible(s, e) && Get(s, t).entry.Some? && !(e.Dispose? && e.t == t)
    requires Needed(Get(s, t)) || (Runs(s, t) && !(e.OnCompleted? && e.t == t))
    ensures Get(Step(s, e), t).entry == Get(s, t).entry
  {
    if e.t != t {
      OtherEventEffect(s, e, t);
    } else if e.OnCompleted? {
      CompletedController(s, t, e.run);
    } else if e.EvictIdle? {
      EvictsExactly(s, t);
    } else {
      OwnController(s, e);
    }
  }

  /** After the end of a run its thread has no controller left that nobody needs. */
  lemma CompletedKeepsOnlyNeeded(s: Store, t: ThreadId, run: Option<nat>)
    requires AllLinked(s) && Possible(s, OnCompleted(t, run)) && Get(Completed(s, t, run), t).entry.Some?
    ensures var s' := Completed(s, t, run); Needed(Get(s', t)) || Runs(s', t)
  {
    if Get(s, t).entry.Some? {
      CompletedController(s, t, run);
    } else {
      NoController(s, t, run);
    }
  }

  lemma NoController(s: Store, t: ThreadId, run: Option<nat>)
    requires AllLinked(s) && Possible(s, OnCompleted(t, run)) && Get(s, t).entry.None?
    ensures Get(Completed(s, t, run), t).entry.None?
  {
    var s1 := Release(Put(s, t, CompletedIn(Get(s, t), run)), t);
    DrainEffect(s1, t, t);
    PumpEffect(Evict(Drain(s1, t), t), t);
  }
}

/** What each event does to the line of a thread's turns: accepted, being submitted, waiting. */
module SchedulerEffects {
  import opened Wrappers
  import opened Scheduler
  import opened SchedulerInvariant
  import opened SchedulerTheorems

  // ---------------------------------------------------------------- one thread's moves

  lemma EntryLine(th: Thread)
    requires Linked(th)
    ensures Timeline(WithEntry(th)) == Timeline(th) && WithEntry(th).sent == th.sent
  {
  }

  lemma EnqueuedLine(th: Thread)
    requires Linked(th) && th.entry.Some?
    ensures Timeline(Enqueue(th)) == Timeline(th) + [th.sent]
  {
    assert Queue(Enqueue(th)) == Queue(th) + [th.sent];
  }

  lemma QueuedLine(th: Thread)
    requires Linked(th)
    ensures Timeline(WithEntry(th)) == Timeline(th)
    ensures Timeline(Enqueue(WithEntry(th))) == Timeline(th) + [th.sent]
  {
    EntryLine(th);
    EnqueuedLine(WithEntry(th));
  }

  lemma DirectLine(th: Thread)
    requires Sound(th, false) && Queue(th) == []
    ensures Timeline(SubmitNew(WithEntry(th))) == Timeline(th) + [th.sent]
  {
    QueuedLine(th);
    assert Timeline(SubmitNew(WithEntry(th))) == Timeline(WithEntry(th)) + [th.sent];
  }

  lemma SteeringFlag(th: Thread)
    requires Linked(th) && th.entry.Some?
    ensures Timeline(Steering(th)) == Timeline(Enqueue(th))
  {
    assert Queue(Steering(th)) == Queue(Enqueue(th));
  }

  lemma SteeringLine(th: Thread)
    requires Linked(th)
    ensures Timeline(Steering(WithEntry(th))) == Timeline(th) + [th.sent]
  {
    QueuedLine(th);
    SteeringFlag(WithEntry(th));
  }

  lemma HydratingLine(th: Thread, on: bool)
    requires Linked(th) && th.entry.Some?
    ensures Timeline(SetEntry(th, th.entries[th.entry.value].(hydrating := on))) == Timeline(th)
  {
  }

  lemma CreatedLine(th: Thread, holds: bool, k: nat)
    requires Sound(th, holds) && k < |th.subs| && !th.subs[k].created && !th.subs[k].settled
    ensures Timeline(CreatedIn(th, k)) == Timeline(th)
  {
    assert Live(th.subs[k]);
  }

  lemma SettledLine(th: Thread, holds: bool, k: nat, ok: bool)
    requires Sound(th, holds) && k < |th.subs| && !th.subs[k].settled && th.subs[k].created == ok
    ensures Timeline(if ok then Settled(th, k) else FailedIn(th, k)) ==
      if ok || th.subs[k].queued then Timeline(th) else th.accepted + Queue(th)
  {
    assert Live(th.subs[k]);
    if ok {
      assert Timeline(Settled(th, k)) == Timeline(th);
    } else if th.subs[k].queued {
      RequeuedTimeline(th, holds, k);
    } else {
      BouncedTimeline(th, holds, k);
    }
  }

  lemma CompletedLine(th: Thread, holds: bool, run: Option<nat>)
    requires Sound(th, holds)
    requires if run.Some? then run.value < |th.subs| && th.subs[run.value].settled && !th.subs[run.value].completed
                               && th.subs[run.value].created
             else !holds
    ensures Timeline(CompletedIn(th, run)) == Timeline(th)
  {
    assert run.Some? ==> Live(th.subs[run.value]);
  }

  // ---------------------------------------------------------------- pumps

  lemma PumpedLine(s: Store, s': Store, t: ThreadId)
    requires AllLinked(s) && AllLinked(s') && ThreadSound(s, t) && !Get(s, t).disposed && Pumped(s, s', t)
    ensures Timeline(Get(s', t)) == Timeline(Get(s, t))
  {
    var th := Get(s, t);
    if Get(s', t) != th {
      assert Timeline(SubmitHead(th)) == Timeline(th);
    }
  }

  lemma DrainedLine(s: Store, t: ThreadId)
    requires AllLinked(s) && ThreadSound(s, t) && !Get(s, t).disposed
    ensures Timeline(Get(Drain(s, t), t)) == Timeline(Get(Pump(s), t)) == Timeline(Get(s, t))
    ensures Timeline(Get(Pump(Drain(s, t)), t)) == Timeline(Get(s, t))
  {
    DrainEffect(s, t, t);
    PumpEffect(s, t);
    DrainPumpEffect(s, t, t);
    PumpedLine(s, Drain(s, t), t);
    PumpedLine(s, Pump(s), t);
    PumpedLine(s, Pump(Drain(s, t)), t);
  }

  // ---------------------------------------------------------------- events

  /** The line after an event of the thread. */
  function LineAfter(s: Store, e: Event): seq<nat>
    requires AllLinked(s) && Possible(s, e)
  {
    var th := Get(s, e.t);
    match e
    case SendTurn(_) => Timeline(th) + [th.sent]
    case SteerNow(_) => Timeline(th) + [th.sent]
    case CancelTurn(_, i) =>
      if i < |Queue(th)| then th.accepted + Trying(th) + (Queue(th)[..i] + Queue(th)[i + 1..]) else Timeline(th)
    case OnSettled(_, k, ok) => if ok || th.subs[k].queued then Timeline(th) else th.accepted + Queue(th)
    case _ => Timeline(th)
  }

  lemma QueuedState(s: Store, t: ThreadId, s1: Store)
    requires AllLinked(s) && ThreadSound(s, t) && !Get(s, t).disposed
    requires s1 == Put(s, t, Enqueue(WithEntry(Get(s, t))))
    ensures AllLinked(s1) && ThreadSound(s1, t) && !Get(s1, t).disposed
    ensures Timeline(Get(s1, t)) == Timeline(Get(s, t)) + [Get(s, t).sent]
  {
    QueuedLine(Get(s, t));
    QueuedSound(s, t);
  }

  lemma SendQueuedLine(s: Store, t: ThreadId, s1: Store)
    requires AllLinked(s) && ThreadSound(s, t) && !Get(s, t).disposed && AllLinked(s1)
    requires s1 == Put(s, t, Enqueue(WithEntry(Get(s, t))))
    ensures Timeline(Get(Drain(s1, t), t)) == Timeline(Get(s, t)) + [Get(s, t).sent]
  {
    QueuedState(s, t, s1);
    DrainedLine(s1, t);
  }

  lemma SendLine(s: Store, t: ThreadId)
    requires AllLinked(s) && ThreadSound(s, t) && !Get(s, t).disposed
    ensures Timeline(Get(Send(s, t), t)) == Timeline(Get(s, t)) + [Get(s, t).sent]
  {
    if MustQueue(s, t) {
      SendQueuedLine(s, t, Put(s, t, Enqueue(WithEntry(Get(s, t)))));
    } else {
      DirectLine(Get(s, t));
    }
  }

  lemma SteerLine(s: Store, t: ThreadId)
    requires AllLinked(s) && ThreadSound(s, t) && !Get(s, t).disposed
    ensures Timeline(Get(SteerStart(s, t), t)) == Timeline(Get(s, t)) + [Get(s, t).sent]
  {
    var th := Get(s, t);
    match th.status
    case Interrupted => QueuedLine(th);
    case Streaming => SteeringLine(th);
    case _ => SendLine(s, t);
  }

  lemma GiveBackLine(s: Store, t: ThreadId, k: nat, drain: bool)
    requires AllLinked(s) && k < |Get(s, t).subs| && !Get(s, t).disposed
    requires ThreadSound(if Get(s, t).entries[Get(s, t).subs[k].entry].run.Some? then s else Release(s, t), t)
    ensures Timeline(Get(GiveBack(s, t, k, drain), t)) == Timeline(Get(s, t))
  {
    if Get(s, t).entries[Get(s, t).subs[k].entry].run.None? {
      DrainedLine(Release(s, t), t);
    }
  }

  lemma SettleLine(s: Store, t: ThreadId, k: nat, ok: bool)
    requires AllLinked(s) && ThreadSound(s, t) && !Get(s, t).disposed
    requires Possible(s, OnSettled(t, k, ok)) && Contract(s, OnSettled(t, k, ok))
    ensures Timeline(Get(Step(s, OnSettled(t, k, ok)), t)) == LineAfter(s, OnSettled(t, k, ok))
  {
    var th := Get(s, t);
    SettledLine(th, t in s.active, k, ok);
    if ok {
      SettledSound(th, t in s.active, k);
    } else {
      FailedSound(th, t in s.active, k);
    }
    GiveBackLine(Put(s, t, if ok then Settled(th, k) else FailedIn(th, k)), t, k, ok && th.subs[k].queued);
  }

  lemma EvictLine(s: Store, t: ThreadId)
    requires AllLinked(s) && ThreadSound(s, t) && !Get(s, t).disposed
    ensures Timeline(Get(Evict(s, t), t)) == Timeline(Get(s, t)) && !Get(Evict(s, t), t).disposed
  {
  }

  lemma CompletedKeepsLine(s: Store, t: ThreadId, run: Option<nat>)
    requires AllLinked(s) && ThreadSound(s, t) && !Get(s, t).disposed
    requires Possible(s, OnCompleted(t, run)) && Contract(s, OnCompleted(t, run)) && Calm(s, OnCompleted(t, run))
    ensures Timeline(Get(Completed(s, t, run), t)) == Timeline(Get(s, t))
  {
    var th := Get(s, t);
    CompletedLine(th, t in s.active, run);
    if run.Some? {
      CompletedSound(th, t in s.active, run.value);
    } else {
      ForeignCompletedSound(th);
    }
    var s1 := Release(Put(s, t, CompletedIn(th, run)), t);
    DrainedLine(s1, t);
    DrainSound(s1, t);
    DrainEffect(s1, t, t);
    EvictLine(Drain(s1, t), t);
    EvictSound(Drain(s1, t), t);
    DrainedLine(Evict(Drain(s1, t), t), t);
  }

  lemma SteerEndLine(s: Store, t: ThreadId, j: nat, ok: bool)
    requires AllLinked(s) && ThreadSound(s, t) && !Get(s, t).disposed
    requires Possible(s, SteerReturns(t, j, ok)) && Calm(s, SteerReturns(t, j, ok))
    ensures Timeline(Get(SteerEnd(s, t, j, ok), t)) == Timeline(Get(s, t))
  {
    UnsteeredSound(Get(s, t), t in s.active, j);
    assert Timeline(Unsteered(Get(s, t), j)) == Timeline(Get(s, t));
    if ok {
      DrainedLine(Release(Put(s, t, Unsteered(Get(s, t), j)), t), t);
    }
  }

  lemma CancelLine(s: Store, t: ThreadId, i: nat)
    requires AllLinked(s) && InFlight(Get(s, t), t in s.active)
    ensures Timeline(Get(CancelQueued(s, t, i), t)) == LineAfter(s, CancelTurn(t, i))
  {
    var th := Get(s, t);
    if i < |Queue(th)| {
      CancelledFlight(th, t in s.active, i);
      CancelledThread(s, t, i);
    }
  }

  lemma CancelledThread(s: Store, t: ThreadId, i: nat)
    requires AllLinked(s) && i < |Queue(Get(s, t))|
    ensures Get(CancelQueued(s, t, i), t) == CancelledIn(Get(s, t), i)
  {
  }

  lemma HydrateLine(s: Store, t: ThreadId, on: bool)
    requires AllLinked(s) && ThreadSound(s, t) && !Get(s, t).disposed
    ensures Timeline(Get(SetHydrating(s, t, on), t)) == Timeline(Get(s, t))
  {
    QueuedLine(Get(s, t));
    HydratingLine(WithEntry(Get(s, t)), on);
  }

  lemma FlagLine(s: Store, e: Event)
    requires AllLinked(s) && (e.StatusChange? || e.Watch?)
    ensures Timeline(Get(Step(s, e), e.t)) == Timeline(Get(s, e.t))
  {
  }

  lemma OwnLine(s: Store, e: Event)
    requires AllLinked(s) && Possible(s, e) && Contract(s, e) && Calm(s, e)
    requires ThreadSound(s, e.t) && !Get(s, e.t).disposed && !e.Dispose?
    ensures Timeline(Get(Step(s, e), e.t)) == LineAfter(s, e)
  {
    match e
    case SendTurn(t) => SendLine(s, t);
    case SteerNow(t) => SteerLine(s, t);
    case OnSettled(t, k, ok) => SettleLine(s, t, k, ok);
    case OnCompleted(t, run) => CompletedKeepsLine(s, t, run);
    case SteerReturns(t, j, ok) => SteerEndLine(s, t, j, ok);
    case OnCreated(t, k) => CreatedLine(Get(s, t), t in s.active, k);
    case CancelTurn(t, i) => CancelLine(s, t, i);
    case Hydrate(t, on) => HydrateLine(s, t, on);
    case EvictIdle(t) => EvictLine(s, t);
    case Dispose(t) =>
    case _ => FlagLine(s, e);
  }

  /**
    Every event does to a thread's line exactly what it should: a send or steer puts the new turn at its end, a
    cancelled or refused turn leaves it, and nothing else, on this thread or another, moves it.
   */
  lemma LineExactly(s: Store, e: Event, t: ThreadId)
    requires Reachable(s, t) && AllLinked(s) && Possible(s, e) && !Get(s, t).disposed
    requires e.t == t ==> Contract(s, e) && Calm(s, e) && !e.Dispose?
    ensures Timeline(Get(Step(s, e), t)) == if e.t == t then LineAfter(s, e) else Timeline(Get(s, t))
  {
    ReachableSound(s, t);
    if e.t == t {
      OwnLine(s, e);
    } else {
      OtherEventEffect(s, e, t);
      PumpedLine(s, Step(s, e), t);
    }
  }

  // ---------------------------------------------------------------- controllers

  /** A steer of a streaming thread whose run is known holds the thread, with its turn waiting. */
  lemma SteerTakesHold(s: Store, t: ThreadId)
    requires AllLinked(s) && Get(s, t).status.Streaming?
    ensures var th, th' := WithEntry(Get(s, t)), Get(SteerStart(s, t), t); var run := th.entries[th.entry.value].run;
      && Queue(th') == Queue(Get(s, t)) + [th.sent] && (IsSteering(th') <==> run.Some?)
      && (run.Some? ==> th'.steers == th.steers + [Steer(th.entry.value, run.value, false)])
  {
  }

  /** The end of a steer, however it ends, gives the hold back. */
  lemma SteerEndReleases(s: Store, t: ThreadId, j: nat, ok: bool)
    requires AllLinked(s) && Possible(s, SteerReturns(t, j, ok)) && Get(s, t).entry == Some(Get(s, t).steers[j].entry)
    ensures !IsSteering(Get(SteerEnd(s, t, j, ok), t)) && j < |Get(SteerEnd(s, t, j, ok), t).steers|
    ensures Get(SteerEnd(s, t, j, ok), t).steers[j].over
  {
    DrainPumpEffect(Release(Put(s, t, Unsteered(Get(s, t), j)), t), t, t);
  }

  /** A thread disposed of is idle, unobserved, and has neither controller nor slot. */
  lemma DisposeForgets(s: Store, t: ThreadId)
    requires AllLinked(s)
    ensures var s' := DisposeThread(s, t); var th' := Get(s', t);
      && th'.entry.None? && t !in s'.active && t !in Forgotten(s, t).pendingSet
      && th'.status.Idle? && !th'.watched && th'.subs == Get(s, t).subs && th'.accepted == Get(s, t).accepted
  {
    PumpEffect(Forgotten(s, t), t);
  }
}

/**
  What the client's scheduler guarantees: the parallelism bound in every state, and, for each thread towards which the
  SDK keeps its contract, one submission in flight, acceptance in send order and no lost turn, exactly as long as no
  slot is freed under its holder on that thread's account.
 */
module SchedulerTheorems {
  import opened Wrappers
  import opened Scheduler
  import opened SchedulerInvariant

  // ---------------------------------------------------------------- runs

  predicate CanRun(s: Store, es: seq<Event>)
    requires AllLinked(s)
    decreases |es|
  {
    es == [] || (Possible(s, es[0]) && CanRun(Step(s, es[0]), es[1..]))
  }

  function After(s: Store, es: seq<Event>): (s': Store)
    requires AllLinked(s) && CanRun(s, es)
    ensures AllLinked(s')
    decreases |es|
  {
    if es == [] then s else After(Step(s, es[0]), es[1..])
  }

  // ---------------------------------------------------------------- the parallelism bound

  predicate Within(s: Store, max: nat) {
    s.max == max && |s.active| <= max
  }

  lemma {:induction false} PumpBound(s: Store, max: nat)
    requires AllLinked(s) && Within(s, max)
    ensures Within(Pump(s), max)
    decreases |s.pending|
  {
    if |s.active| < s.max && s.pending != [] {
      var t := s.pending[0];
      PumpBound(if Skips(Shifted(s), t) then Shifted(s) else Launch(Shifted(s), t), max);
    }
  }

  lemma DrainBound(s: Store, t: ThreadId, max: nat)
    requires AllLinked(s) && Within(s, max)
    ensures Within(Drain(s, t), max) && Within(Pump(Drain(s, t)), max)
  {
    if !Skips(s, t) {
      PumpBound(Listed(s, t), max);
    }
    PumpBound(Drain(s, t), max);
  }

  lemma ReleaseBound(s: Store, t: ThreadId)
    ensures |Release(s, t).active| <= |s.active|
  {
    assert Release(s, t).active <= s.active;
  }

  lemma SendBound(s: Store, t: ThreadId, max: nat)
    requires AllLinked(s) && Within(s, max)
    ensures Within(Send(s, t), max)
  {
    if MustQueue(s, t) {
      DrainBound(Put(s, t, Enqueue(WithEntry(Get(s, t)))), t, max);
    }
  }

  lemma GiveBackBound(s: Store, t: ThreadId, k: nat, drain: bool, max: nat)
    requires AllLinked(s) && Within(s, max) && k < |Get(s, t).subs|
    ensures Within(GiveBack(s, t, k, drain), max)
  {
    ReleaseBound(s, t);
    DrainBound(Release(s, t), t, max);
    PumpBound(Release(s, t), max);
  }

  lemma SettleBound(s: Store, t: ThreadId, k: nat, max: nat)
    requires AllLinked(s) && Within(s, max) && k < |Get(s, t).subs|
    ensures Within(SettleOk(s, t, k), max) && Within(SettleFail(s, t, k), max)
  {
    GiveBackBound(Put(s, t, Settled(Get(s, t), k)), t, k, Get(s, t).subs[k].queued, max);
    GiveBackBound(Put(s, t, FailedIn(Get(s, t), k)), t, k, false, max);
  }

  lemma CompletedBound(s: Store, t: ThreadId, k: Option<nat>, max: nat)
    requires AllLinked(s) && Within(s, max) && Possible(s, OnCompleted(t, k))
    ensures Within(Completed(s, t, k), max)
  {
    ReleaseBound(s, t);
    var s1 := Release(Put(s, t, CompletedIn(Get(s, t), k)), t);
    DrainBound(s1, t, max);
    PumpBound(Evict(Drain(s1, t), t), max);
  }

  lemma SteerBound(s: Store, t: ThreadId, j: nat, ok: bool, max: nat)
    requires AllLinked(s) && Within(s, max) && j < |Get(s, t).steers|
    ensures Within(SteerEnd(s, t, j, ok), max)
  {
    ReleaseBound(s, t);
    DrainBound(Release(Put(s, t, Unsteered(Get(s, t), j)), t), t, max);
  }

  lemma DisposeBound(s: Store, t: ThreadId, max: nat)
    requires AllLinked(s) && Within(s, max)
    ensures Within(DisposeThread(s, t), max)
  {
    ReleaseBound(s, t);
    PumpBound(Forgotten(s, t), max);
  }

  /** No event, in or out of contract, takes the store over its limit. */
  lemma StepBound(s: Store, e: Event, max: nat)
    requires AllLinked(s) && Possible(s, e) && Within(s, max)
    ensures Within(Step(s, e), max)
  {
    match e
    case SendTurn(t) => SendBound(s, t, max);
    case OnSettled(t, k, ok) => SettleBound(s, t, k, max);
    case OnCompleted(t, k) => CompletedBound(s, t, k, max);
    case SteerNow(t) => SendBound(s, t, max);
    case SteerReturns(t, j, ok) => SteerBound(s, t, j, ok, max);
    case Dispose(t) => DisposeBound(s, t, max);
    case _ =>
  }

  lemma {:induction false} RunBound(s: Store, es: seq<Event>, max: nat)
    requires AllLinked(s) && CanRun(s, es) && Within(s, max)
    ensures Within(After(s, es), max)
    decreases |es|
  {
    if es != [] {
      StepBound(s, es[0], max);
      RunBound(Step(s, es[0]), es[1..], max);
    }
  }

  /** Whatever the SDK and the user do, at most `max` threads hold a slot. */
  lemma ParallelismBound(max: nat, es: seq<Event>)
    requires CanRun(Init(max), es)
    ensures |After(Init(max), es).active| <= max
  {
    RunBound(Init(max), es, max);
  }

  // ---------------------------------------------------------------- what an event does to another thread

  lemma SendEffect(s: Store, t: ThreadId, u: ThreadId)
    requires AllLinked(s) && t != u
    ensures Pumped(s, Send(s, t), u) && Pumped(s, SteerStart(s, t), u)
  {
    DrainEffect(Put(s, t, Enqueue(WithEntry(Get(s, t)))), t, u);
  }

  lemma GiveBackEffect(s: Store, t: ThreadId, k: nat, drain: bool, u: ThreadId)
    requires AllLinked(s) && t != u && k < |Get(s, t).subs|
    ensures Pumped(s, GiveBack(s, t, k, drain), u)
  {
    DrainPumpEffect(Release(s, t), t, u);
    PumpEffect(Release(s, t), u);
  }

  lemma SettleEffect(s: Store, t: ThreadId, k: nat, ok: bool, u: ThreadId)
    requires AllLinked(s) && t != u && Possible(s, OnSettled(t, k, ok))
    ensures Pumped(s, Step(s, OnSettled(t, k, ok)), u)
  {
    var th := if ok then Settled(Get(s, t), k) else FailedIn(Get(s, t), k);
    GiveBackEffect(Put(s, t, th), t, k, ok && Get(s, t).subs[k].queued, u);
  }

  lemma CompletedEffect(s: Store, t: ThreadId, k: Option<nat>, u: ThreadId)
    requires AllLinked(s) && t != u && Possible(s, OnCompleted(t, k))
    ensures Pumped(s, Completed(s, t, k), u)
  {
    DrainPumpEffect(Release(Put(s, t, CompletedIn(Get(s, t), k)), t), t, u);
  }

  lemma SteerEndEffect(s: Store, t: ThreadId, j: nat, ok: bool, u: ThreadId)
    requires AllLinked(s) && t != u && j < |Get(s, t).steers|
    ensures Pumped(s, SteerEnd(s, t, j, ok), u)
  {
    DrainPumpEffect(Release(Put(s, t, Unsteered(Get(s, t), j)), t), t, u);
  }

  /** In or out of contract, an event of another thread leaves a thread alone or submits the head of its queue. */
  lemma OtherEventEffect(s: Store, e: Event, u: ThreadId)
    requires AllLinked(s) && Possible(s, e) && e.t != u
    ensures Pumped(s, Step(s, e), u)
  {
    match e
    case SendTurn(t) => SendEffect(s, t, u);
    case OnSettled(t, k, ok) => SettleEffect(s, t, k, ok, u);
    case OnCompleted(t, k) => CompletedEffect(s, t, k, u);
    case SteerNow(t) => SendEffect(s, t, u);
    case SteerReturns(t, j, ok) => SteerEndEffect(s, t, j, ok, u);
    case Dispose(t) => PumpEffect(Forgotten(s, t), u);
    case _ =>
  }

  // ---------------------------------------------------------------- the SDK's contract

  /**
    A submission that succeeds was created before it settles and completes after; one that fails does neither; stop
    resolves after the cancelled run has completed.
   */
  predicate Contract(s: Store, e: Event)
    requires AllLinked(s) && Possible(s, e)
  {
    match e
    case OnCreated(t, k) => var sub := Get(s, t).subs[k]; !sub.created && !sub.settled
    case OnSettled(t, k, ok) => Get(s, t).subs[k].created == ok
    case OnCompleted(t, run) =>
      run.Some? ==> var sub := Get(s, t).subs[run.value]; sub.created && sub.settled && !sub.completed
    case SteerReturns(t, j, ok) => ok ==> Get(s, t).subs[Get(s, t).steers[j].target].completed
    case _ => true
  }

  /** The events that free a slot without asking who holds it: a successful steer's end, the end of a foreign run. */
  predicate FreesBlindly(e: Event) {
    (e.SteerReturns? && e.ok) || (e.OnCompleted? && e.run.None?)
  }

  /** A slot freed blindly is nobody's. */
  predicate Calm(s: Store, e: Event)
    requires AllLinked(s)
  {
    FreesBlindly(e) && !Get(s, e.t).disposed ==> e.t !in s.active
  }

  ghost predicate ThreadSound(s: Store, t: ThreadId)
    requires AllLinked(s)
  {
    Get(s, t).disposed || Sound(Get(s, t), t in s.active)
  }

  lemma PumpedSound(s: Store, s': Store, u: ThreadId)
    requires AllLinked(s) && AllLinked(s') && ThreadSound(s, u) && Pumped(s, s', u)
    ensures ThreadSound(s', u)
  {
    var th := Get(s, u);
    if !th.disposed && Get(s', u) != th {
      SubmitHeadSound(th);
    }
  }

  lemma PumpSound(s: Store, t: ThreadId)
    requires AllLinked(s) && ThreadSound(s, t)
    ensures ThreadSound(Pump(s), t)
  {
    PumpEffect(s, t);
    PumpedSound(s, Pump(s), t);
  }

  lemma DrainSound(s: Store, t: ThreadId)
    requires AllLinked(s) && ThreadSound(s, t)
    ensures ThreadSound(Drain(s, t), t) && ThreadSound(Pump(Drain(s, t)), t)
  {
    DrainEffect(s, t, t);
    PumpedSound(s, Drain(s, t), t);
    PumpSound(Drain(s, t), t);
  }

  lemma EvictSound(s: Store, t: ThreadId)
    requires AllLinked(s) && ThreadSound(s, t)
    ensures ThreadSound(Evict(s, t), t)
  {
    if Evictable(s, t) && !Get(s, t).disposed {
      DropSound(Get(s, t));
    }
  }

  lemma QueuedSound(s: Store, t: ThreadId)
    requires AllLinked(s) && ThreadSound(s, t)
    ensures ThreadSound(Put(s, t, Enqueue(WithEntry(Get(s, t)))), t)
  {
    if !Get(s, t).disposed {
      WithEntrySound(Get(s, t), t in s.active);
      EnqueueSound(WithEntry(Get(s, t)), t in s.active);
    }
  }

  lemma SendSound(s: Store, t: ThreadId)
    requires AllLinked(s) && ThreadSound(s, t)
    ensures ThreadSound(Send(s, t), t)
  {
    if MustQueue(s, t) {
      QueuedSound(s, t);
      DrainSound(Put(s, t, Enqueue(WithEntry(Get(s, t)))), t);
    } else if !Get(s, t).disposed {
      WithEntrySound(Get(s, t), t in s.active);
      DirectSound(WithEntry(Get(s, t)));
    }
  }

  lemma GiveBackSound(s: Store, t: ThreadId, k: nat, drain: bool)
    requires AllLinked(s) && k < |Get(s, t).subs|
    requires ThreadSound(if Get(s, t).entries[Get(s, t).subs[k].entry].run.Some? then s else Release(s, t), t)
    ensures ThreadSound(GiveBack(s, t, k, drain), t)
  {
    if Get(s, t).entries[Get(s, t).subs[k].entry].run.None? {
      if t in s.active {
        DrainSound(Release(s, t), t);
        PumpSound(Release(s, t), t);
      } else {
        assert Release(s, t) == s;
      }
    }
  }

  lemma SettleSound(s: Store, t: ThreadId, k: nat, ok: bool)
    requires AllLinked(s) && ThreadSound(s, t)
    requires Possible(s, OnSettled(t, k, ok)) && Contract(s, OnSettled(t, k, ok))
    ensures ThreadSound(Step(s, OnSettled(t, k, ok)), t)
  {
    var th := Get(s, t);
    if !th.disposed {
      if ok {
        SettledSound(th, t in s.active, k);
      } else {
        FailedSound(th, t in s.active, k);
      }
    }
    GiveBackSound(Put(s, t, if ok then Settled(th, k) else FailedIn(th, k)), t, k, ok && th.subs[k].queued);
  }

  lemma CompletedKeeps(s: Store, t: ThreadId, run: Option<nat>)
    requires AllLinked(s) && ThreadSound(s, t)
    requires Possible(s, OnCompleted(t, run)) && Contract(s, OnCompleted(t, run)) && Calm(s, OnCompleted(t, run))
    ensures ThreadSound(Completed(s, t, run), t)
  {
    if !Get(s, t).disposed {
      if run.Some? {
        CompletedSound(Get(s, t), t in s.active, run.value);
      } else {
        ForeignCompletedSound(Get(s, t));
      }
    }
    var s1 := Release(Put(s, t, CompletedIn(Get(s, t), run)), t);
    DrainSound(s1, t);
    EvictSound(Drain(s1, t), t);
    PumpSound(Evict(Drain(s1, t), t), t);
  }

  lemma SteerStartSound(s: Store, t: ThreadId)
    requires AllLinked(s) && ThreadSound(s, t)
    ensures ThreadSound(SteerStart(s, t), t)
  {
    var th := WithEntry(Get(s, t));
    match th.status
    case Interrupted => QueuedSound(s, t);
    case Streaming =>
      if !th.disposed {
        WithEntrySound(Get(s, t), t in s.active);
        SteeringSound(th, t in s.active);
      }
    case _ => SendSound(s, t);
  }

  lemma SteerEndSound(s: Store, t: ThreadId, j: nat, ok: bool)
    requires AllLinked(s) && ThreadSound(s, t)
    requires Possible(s, SteerReturns(t, j, ok)) && Calm(s, SteerReturns(t, j, ok))
    ensures ThreadSound(SteerEnd(s, t, j, ok), t)
  {
    if !Get(s, t).disposed {
      UnsteeredSound(Get(s, t), t in s.active, j);
    }
    if ok {
      DrainSound(Release(Put(s, t, Unsteered(Get(s, t), j)), t), t);
    }
  }

  lemma AcceptedSound(s: Store, t: ThreadId, k: nat)
    requires AllLinked(s) && ThreadSound(s, t)
    requires Possible(s, OnCreated(t, k)) && Contract(s, OnCreated(t, k))
    ensures ThreadSound(Created(s, t, k), t)
  {
    if !Get(s, t).disposed {
      CreatedSound(Get(s, t), t in s.active, k);
    }
  }

  lemma CancelSound(s: Store, t: ThreadId, i: nat)
    requires AllLinked(s) && ThreadSound(s, t)
    ensures ThreadSound(CancelQueued(s, t, i), t)
  {
    if i < |Queue(Get(s, t))| && !Get(s, t).disposed {
      CancelledSound(Get(s, t), t in s.active, i);
    }
  }

  lemma HydrateSound(s: Store, t: ThreadId, on: bool)
    requires AllLinked(s) && ThreadSound(s, t)
    ensures ThreadSound(SetHydrating(s, t, on), t)
  {
    if !Get(s, t).disposed {
      WithEntrySound(Get(s, t), t in s.active);
      HydratingSound(WithEntry(Get(s, t)), on, t in s.active);
    }
  }

  /** The events that only set a flag of a thread. */
  lemma FlagSound(s: Store, e: Event)
    requires AllLinked(s) && ThreadSound(s, e.t) && (e.StatusChange? || e.Watch?)
    ensures ThreadSound(Step(s, e), e.t)
  {
    var th := Get(s, e.t);
    if !th.disposed {
      SameBooks(th, if e.StatusChange? then th.(status := e.status) else th.(watched := e.on), e.t in s.active);
    }
  }

  lemma OwnEventSound(s: Store, e: Event)
    requires AllLinked(s) && Possible(s, e) && Contract(s, e) && Calm(s, e) && ThreadSound(s, e.t)
    ensures ThreadSound(Step(s, e), e.t)
  {
    match e
    case SendTurn(t) => SendSound(s, t);
    case OnSettled(t, k, ok) => SettleSound(s, t, k, ok);
    case OnCompleted(t, run) => CompletedKeeps(s, t, run);
    case SteerNow(t) => SteerStartSound(s, t);
    case SteerReturns(t, j, ok) => SteerEndSound(s, t, j, ok);
    case Dispose(t) => PumpSound(Forgotten(s, t), t);
    case EvictIdle(t) => EvictSound(s, t);
    case OnCreated(t, k) => AcceptedSound(s, t, k);
    case CancelTurn(t, i) => CancelSound(s, t, i);
    case Hydrate(t, on) => HydrateSound(s, t, on);
    case _ => FlagSound(s, e);
  }

  /** A thread's books survive every event of other threads, and those of its own that are in contract and calm. */
  lemma StepKeepsSound(s: Store, e: Event, t: ThreadId)
    requires AllLinked(s) && Possible(s, e) && ThreadSound(s, t)
    requires e.t == t ==> Contract(s, e) && Calm(s, e)
    ensures ThreadSound(Step(s, e), t)
  {
    if e.t == t {
      OwnEventSound(s, e);
    } else {
      OtherEventEffect(s, e, t);
      PumpedSound(s, Step(s, e), t);
    }
  }

  // ---------------------------------------------------------------- a slot freed under its holder

  /** After the slot is gone the live submission is followed by another one, or holds no slot. */
  predicate SlotLost(th: Thread, s: Store, t: ThreadId) {
    var th' := Get(s, t);
    && th'.disposed == th.disposed
    && |th.subs| <= |th'.subs| && (forall k :: 0 <= k < |th.subs| ==> th'.subs[k] == th.subs[k])
    && (|th'.subs| == |th.subs| ==> t !in s.active)
  }

  lemma LostByRelease(s: Store, t: ThreadId)
    requires AllLinked(s) && t !in s.active
    ensures SlotLost(Get(s, t), Pump(Drain(s, t)), t) && SlotLost(Get(s, t), Pump(Evict(Drain(s, t), t)), t)
  {
    DrainEffect(s, t, t);
    PumpEffect(Drain(s, t), t);
    PumpEffect(Evict(Drain(s, t), t), t);
  }

  lemma LostBreaks(th: Thread, s: Store, t: ThreadId)
    requires HasLive(th) && !th.disposed && AllLinked(s) && SlotLost(th, s, t)
    ensures !ThreadSound(s, t)
  {
    assert Get(s, t).subs[|th.subs| - 1] == th.subs[|th.subs| - 1];
  }

  lemma ReleaseBreaks(s: Store, t: ThreadId, th: Thread)
    requires AllLinked(s) && Linked(th) && HasLive(th) && !th.disposed
    ensures var s1 := Release(Put(s, t, th), t);
      !ThreadSound(Pump(Drain(s1, t)), t) && !ThreadSound(Pump(Evict(Drain(s1, t), t)), t)
  {
    var s1 := Release(Put(s, t, th), t);
    LostByRelease(s1, t);
    LostBreaks(th, Pump(Drain(s1, t)), t);
    LostBreaks(th, Pump(Evict(Drain(s1, t), t)), t);
  }

  lemma FreedSlotBreaks(s: Store, e: Event)
    requires AllLinked(s) && Possible(s, e) && ThreadSound(s, e.t) && !Calm(s, e)
    ensures !ThreadSound(Step(s, e), e.t)
  {
    var th := Get(s, e.t);
    if e.OnCompleted? {
      ReleaseBreaks(s, e.t, CompletedIn(th, e.run));
    } else {
      ReleaseBreaks(s, e.t, Unsteered(th, e.j));
    }
  }

  /** Exactly the missing guard: freeing a slot blindly keeps the books if and only if no one holds it. */
  lemma StepExact(s: Store, e: Event)
    requires AllLinked(s) && Possible(s, e) && Contract(s, e) && ThreadSound(s, e.t)
    ensures ThreadSound(Step(s, e), e.t) <==> Calm(s, e)
  {
    if Calm(s, e) {
      OwnEventSound(s, e);
    } else {
      FreedSlotBreaks(s, e);
    }
  }

  // ---------------------------------------------------------------- whole runs

  /** The SDK keeps its contract towards one thread. */
  predicate InContract(s: Store, es: seq<Event>, t: ThreadId)
    requires AllLinked(s) && CanRun(s, es)
    decreases |es|
  {
    es != [] ==> (es[0].t == t ==> Contract(s, es[0])) && InContract(Step(s, es[0]), es[1..], t)
  }

  /** Every slot freed blindly on a thread's account was nobody's. */
  predicate AllCalm(s: Store, es: seq<Event>, t: ThreadId)
    requires AllLinked(s) && CanRun(s, es)
    decreases |es|
  {
    es != [] ==> (es[0].t == t ==> Calm(s, es[0])) && AllCalm(Step(s, es[0]), es[1..], t)
  }

  /** A thread's books hold in every state of a run, until the thread is disposed of. */
  ghost predicate BooksHold(s: Store, es: seq<Event>, t: ThreadId)
    requires AllLinked(s) && CanRun(s, es)
    decreases |es|
  {
    ThreadSound(s, t) && (es != [] ==> BooksHold(Step(s, es[0]), es[1..], t))
  }

  lemma {:induction false} CalmIffSound(s: Store, es: seq<Event>, t: ThreadId)
    requires AllLinked(s) && CanRun(s, es) && InContract(s, es, t) && ThreadSound(s, t)
    ensures BooksHold(s, es, t) <==> AllCalm(s, es, t)
    decreases |es|
  {
    if es != [] {
      var s1 := Step(s, es[0]);
      if es[0].t == t && !Calm(s, es[0]) {
        FreedSlotBreaks(s, es[0]);
        assert !BooksHold(s1, es[1..], t);
      } else {
        StepKeepsSound(s, es[0], t);
        CalmIffSound(s1, es[1..], t);
      }
    }
  }

  lemma InitSound(max: nat, t: ThreadId)
    ensures ThreadSound(Init(max), t)
  {
    assert Timeline(NEW_THREAD) == [];
  }

  /**
    Whatever happens on other threads: in a run that is in contract towards a thread, its books hold throughout if and
    only if each slot freed blindly on its account was nobody's.
   */
  lemma SoundExactlyWhenCalm(max: nat, es: seq<Event>, t: ThreadId)
    requires CanRun(Init(max), es) && InContract(Init(max), es, t)
    ensures BooksHold(Init(max), es, t) <==> AllCalm(Init(max), es, t)
  {
    InitSound(max, t);
    CalmIffSound(Init(max), es, t);
  }

  ghost predicate StoreSound(s: Store)
    requires AllLinked(s)
  {
    forall t :: ThreadSound(s, t)
  }

  predicate RunInContract(s: Store, es: seq<Event>)
    requires AllLinked(s) && CanRun(s, es)
    decreases |es|
  {
    es != [] ==> Contract(s, es[0]) && RunInContract(Step(s, es[0]), es[1..])
  }

  predicate RunCalm(s: Store, es: seq<Event>)
    requires AllLinked(s) && CanRun(s, es)
    decreases |es|
  {
    es != [] ==> Calm(s, es[0]) && RunCalm(Step(s, es[0]), es[1..])
  }

  ghost predicate StoreSoundThroughout(s: Store, es: seq<Event>)
    requires AllLinked(s) && CanRun(s, es)
    decreases |es|
  {
    StoreSound(s) && (es != [] ==> StoreSoundThroughout(Step(s, es[0]), es[1..]))
  }

  lemma {:induction false} RunCalmIffSound(s: Store, es: seq<Event>)
    requires AllLinked(s) && CanRun(s, es) && RunInContract(s, es) && StoreSound(s)
    ensures StoreSoundThroughout(s, es) <==> RunCalm(s, es)
    decreases |es|
  {
    if es != [] {
      var e, s1 := es[0], Step(s, es[0]);
      assert ThreadSound(s, e.t);
      if Calm(s, e) {
        forall t ensures ThreadSound(s1, t) {
          StepKeepsSound(s, e, t);
        }
        RunCalmIffSound(s1, es[1..]);
      } else {
        FreedSlotBreaks(s, e);
        assert !StoreSound(s1);
        assert !StoreSoundThroughout(s1, es[1..]);
      }
    }
  }

  /** Over all threads: a run in contract keeps every thread's books throughout if and only if every event is calm. */
  lemma StoreSoundExactlyWhenCalm(max: nat, es: seq<Event>)
    requires CanRun(Init(max), es) && RunInContract(Init(max), es)
    ensures StoreSoundThroughout(Init(max), es) <==> RunCalm(Init(max), es)
  {
    forall t ensures ThreadSound(Init(max), t) {
      InitSound(max, t);
    }
    RunCalmIffSound(Init(max), es);
  }

  lemma {:induction false} RunKeepsSound(s: Store, es: seq<Event>, t: ThreadId)
    requires AllLinked(s) && CanRun(s, es) && InContract(s, es, t) && AllCalm(s, es, t) && ThreadSound(s, t)
    ensures ThreadSound(After(s, es), t)
    decreases |es|
  {
    if es != [] {
      StepKeepsSound(s, es[0], t);
      RunKeepsSound(Step(s, es[0]), es[1..], t);
    }
  }

  /** A state the store can be in when a thread's own events are in contract and calm. */
  ghost predicate Reachable(s: Store, t: ThreadId) {
    exists max, es ::
      CanRun(Init(max), es) && InContract(Init(max), es, t) && AllCalm(Init(max), es, t) && s == After(Init(max), es)
  }

  lemma ReachableSound(s: Store, t: ThreadId)
    requires Reachable(s, t)
    ensures AllLinked(s) && ThreadSound(s, t)
  {
    var max, es :|
      CanRun(Init(max), es) && InContract(Init(max), es, t) && AllCalm(Init(max), es, t) && s == After(Init(max), es);
    InitSound(max, t);
    RunKeepsSound(Init(max), es, t);
  }

  ghost predicate AtMostOne(th: Thread, holds: bool) {
    && (forall i, j :: 0 <= i < |th.subs| && 0 <= j < |th.subs| ==>
          Live(th.subs[i]) && Live(th.subs[j]) ==> i == j)
    && (forall i :: 0 <= i < |th.subs| && Live(th.subs[i]) ==> th.entry == Some(th.subs[i].entry))
    && (holds <==> exists i :: 0 <= i < |th.subs| && Live(th.subs[i]))
  }

  lemma InFlightIsOne(th: Thread, holds: bool)
    requires InFlight(th, holds)
    ensures AtMostOne(th, holds)
  {
    if holds {
      assert Live(th.subs[|th.subs| - 1]);
    }
  }

  /** A thread has one submission in flight exactly while it holds a slot, and it is its current entry's. */
  lemma OneInFlight(s: Store, t: ThreadId)
    requires Reachable(s, t) && !Get(s, t).disposed
    ensures AtMostOne(Get(s, t), t in s.active)
  {
    ReachableSound(s, t);
    InFlightIsOne(Get(s, t), t in s.active);
  }

  function One(b: bool): nat { if b then 1 else 0 }

  lemma DistinctOnce(a: seq<nat>, b: seq<nat>, c: seq<nat>, n: nat)
    requires forall i, j :: 0 <= i < j < |a + b + c| ==> (a + b + c)[i] < (a + b + c)[j]
    ensures One(n in a) + One(n in b) + One(n in c) == One(n in a + b + c)
  {
    var line := a + b + c;
    if n in a {
      var i :| 0 <= i < |a| && a[i] == n;
      assert line[i] == n;
    }
    if n in b {
      var i :| 0 <= i < |b| && b[i] == n;
      assert line[|a| + i] == n;
    }
    if n in c {
      var i :| 0 <= i < |c| && c[i] == n;
      assert line[|a| + |b| + i] == n;
    }
  }

  /** Turns are accepted in the order sent, and every turn sent is in exactly one place. */
  lemma NoTurnLostOrRepeated(s: Store, t: ThreadId, n: nat)
    requires Reachable(s, t) && !Get(s, t).disposed
    ensures Linked(Get(s, t)) && var th := Get(s, t);
      && (forall i, j :: 0 <= i < j < |Timeline(th)| ==> Timeline(th)[i] < Timeline(th)[j])
      && One(n in th.accepted) + One(n in Trying(th)) + One(n in Queue(th))
         + One(n in th.cancelled) + One(n in th.bounced) == One(n < th.sent)
  {
    ReachableSound(s, t);
    var th := Get(s, t);
    DistinctOnce(th.accepted, Trying(th), Queue(th), n);
  }

  /** A thread whose controller was given up has nothing waiting and nothing in flight. */
  lemma EvictionKeepsWork(s: Store, t: ThreadId)
    requires Reachable(s, t) && !Get(s, t).disposed && Get(s, t).entry.None?
    ensures var th := Get(s, t);
      && t !in s.active
      && (forall k :: 0 <= k < |th.subs| ==> !Live(th.subs[k]))
      && (forall n: nat :: n < th.sent ==> n in th.accepted || n in th.cancelled || n in th.bounced)
  {
    ReachableSound(s, t);
    assert Timeline(Get(s, t)) == Get(s, t).accepted;
  }

  // ---------------------------------------------------------------- steers that do not overlap

  /**
    No second steer of a streaming thread during one, its waiting turns are not all cancelled meanwhile, and no foreign
    run ends while a submission is in flight.
   */
  predicate Polite(s: Store, e: Event)
    requires AllLinked(s)
  {
    var th := Get(s, e.t);
    && (IsSteering(th) ==> !(e.SteerNow? && th.status.Streaming?) && !(e.CancelTurn? && |Queue(th)| == 1 && e.i == 0))
    && (e.OnCompleted? && e.run.None? ==> !HasLive(th))
  }

  ghost predicate ThreadSteered(s: Store, t: ThreadId)
    requires AllLinked(s)
  {
    Get(s, t).disposed || Steered(Get(s, t))
  }

  lemma PumpedSteered(s: Store, s': Store, u: ThreadId)
    requires AllLinked(s) && AllLinked(s') && ThreadSteered(s, u) && Pumped(s, s', u)
    ensures ThreadSteered(s', u)
  {
    if !Get(s, u).disposed && Get(s', u) != Get(s, u) {
      FreeThreadSteered(Get(s, u));
    }
  }

  lemma PumpSteered(s: Store, t: ThreadId)
    requires AllLinked(s) && ThreadSteered(s, t)
    ensures ThreadSteered(Pump(s), t)
  {
    PumpEffect(s, t);
    PumpedSteered(s, Pump(s), t);
  }

  lemma DrainSteered(s: Store, t: ThreadId)
    requires AllLinked(s) && ThreadSteered(s, t)
    ensures ThreadSteered(Drain(s, t), t) && ThreadSteered(Pump(Drain(s, t)), t)
  {
    DrainEffect(s, t, t);
    PumpedSteered(s, Drain(s, t), t);
    PumpSteered(Drain(s, t), t);
  }

  lemma EvictSteered(s: Store, t: ThreadId)
    requires AllLinked(s) && ThreadSteered(s, t)
    ensures ThreadSteered(Evict(s, t), t)
  {
    if Evictable(s, t) && !Get(s, t).disposed {
      FreeThreadSteered(Get(s, t));
    }
  }

  lemma WithEntrySteered(th: Thread)
    requires Linked(th) && Steered(th)
    ensures Steered(WithEntry(th)) && Steered(Enqueue(WithEntry(th)))
  {
    if th.entry.None? {
      FreeThreadSteered(th);
    }
    SameSteers(WithEntry(th), Enqueue(WithEntry(th)));
  }

  lemma SendSteered(s: Store, t: ThreadId)
    requires AllLinked(s) && ThreadSteered(s, t)
    ensures ThreadSteered(Send(s, t), t)
  {
    var th := WithEntry(Get(s, t));
    if !th.disposed {
      WithEntrySteered(Get(s, t));
    }
    if MustQueue(s, t) {
      DrainSteered(Put(s, t, Enqueue(th)), t);
    } else if !th.disposed {
      FreeThreadSteered(th);
    }
  }

  lemma SteerStartSteered(s: Store, t: ThreadId)
    requires AllLinked(s) && ThreadSound(s, t) && ThreadSteered(s, t) && Polite(s, SteerNow(t))
    ensures ThreadSteered(SteerStart(s, t), t)
  {
    var th := WithEntry(Get(s, t));
    if !th.disposed {
      WithEntrySteered(Get(s, t));
    }
    match th.status
    case Interrupted =>
    case Streaming =>
      if !th.disposed {
        WithEntrySound(Get(s, t), t in s.active);
        SteeringSteered(th, t in s.active);
      }
    case _ => SendSteered(s, t);
  }

  lemma GiveBackSteered(s: Store, t: ThreadId, k: nat, drain: bool)
    requires AllLinked(s) && k < |Get(s, t).subs| && ThreadSteered(s, t)
    ensures ThreadSteered(GiveBack(s, t, k, drain), t)
  {
    DrainSteered(Release(s, t), t);
    PumpSteered(Release(s, t), t);
  }

  lemma SettleSteered(s: Store, t: ThreadId, k: nat, ok: bool)
    requires AllLinked(s) && Possible(s, OnSettled(t, k, ok)) && ThreadSound(s, t) && ThreadSteered(s, t)
    ensures ThreadSteered(Step(s, OnSettled(t, k, ok)), t)
  {
    var th := Get(s, t);
    var th' := if ok then Settled(th, k) else FailedIn(th, k);
    if !th.disposed {
      SameSteers(th, th');
    }
    GiveBackSteered(Put(s, t, th'), t, k, ok && th.subs[k].queued);
  }

  lemma CompletedSteered(s: Store, t: ThreadId, run: Option<nat>)
    requires AllLinked(s) && Possible(s, OnCompleted(t, run)) && ThreadSteered(s, t)
    ensures ThreadSteered(Completed(s, t, run), t)
  {
    var th := CompletedIn(Get(s, t), run);
    if !th.disposed {
      SameSteers(Get(s, t), th);
    }
    var s1 := Release(Put(s, t, th), t);
    DrainSteered(s1, t);
    EvictSteered(Drain(s1, t), t);
    PumpSteered(Evict(Drain(s1, t), t), t);
  }

  lemma SteerEndSteered(s: Store, t: ThreadId, j: nat, ok: bool)
    requires AllLinked(s) && Possible(s, SteerReturns(t, j, ok)) && ThreadSteered(s, t)
    ensures ThreadSteered(SteerEnd(s, t, j, ok), t)
  {
    if ok {
      DrainSteered(Release(Put(s, t, Unsteered(Get(s, t), j)), t), t);
    }
  }

  lemma CancelSteered(s: Store, t: ThreadId, i: nat)
    requires AllLinked(s) && Polite(s, CancelTurn(t, i)) && ThreadSteered(s, t)
    ensures ThreadSteered(CancelQueued(s, t, i), t)
  {
    var th := Get(s, t);
    if i < |Queue(th)| && !th.disposed {
      SameSteers(th, CancelledIn(th, i));
    }
  }

  lemma AcceptedSteered(s: Store, t: ThreadId, k: nat)
    requires AllLinked(s) && Possible(s, OnCreated(t, k)) && ThreadSteered(s, t)
    ensures ThreadSteered(Created(s, t, k), t)
  {
    var th := Get(s, t);
    if !th.disposed {
      SameSteers(th, CreatedIn(th, k));
    }
  }

  lemma HydrateSteered(s: Store, t: ThreadId, on: bool)
    requires AllLinked(s) && ThreadSteered(s, t)
    ensures ThreadSteered(SetHydrating(s, t, on), t)
  {
    var th := WithEntry(Get(s, t));
    if !th.disposed {
      WithEntrySteered(Get(s, t));
      SameSteers(th, SetEntry(th, th.entries[th.entry.value].(hydrating := on)));
    }
  }

  lemma FlagSteered(s: Store, e: Event)
    requires AllLinked(s) && ThreadSteered(s, e.t) && (e.StatusChange? || e.Watch?)
    ensures ThreadSteered(Step(s, e), e.t)
  {
    var th := Get(s, e.t);
    if !th.disposed {
      SameSteers(th, if e.StatusChange? then th.(status := e.status) else th.(watched := e.on));
    }
  }

  lemma OwnEventSteered(s: Store, e: Event)
    requires AllLinked(s) && Possible(s, e) && Polite(s, e) && ThreadSound(s, e.t) && ThreadSteered(s, e.t)
    ensures ThreadSteered(Step(s, e), e.t)
  {
    match e
    case SendTurn(t) => SendSteered(s, t);
    case OnSettled(t, k, ok) => SettleSteered(s, t, k, ok);
    case OnCompleted(t, run) => CompletedSteered(s, t, run);
    case SteerNow(t) => SteerStartSteered(s, t);
    case SteerReturns(t, j, ok) => SteerEndSteered(s, t, j, ok);
    case Dispose(t) => PumpSteered(Forgotten(s, t), t);
    case EvictIdle(t) => EvictSteered(s, t);
    case CancelTurn(t, i) => CancelSteered(s, t, i);
    case OnCreated(t, k) => AcceptedSteered(s, t, k);
    case Hydrate(t, on) => HydrateSteered(s, t, on);
    case _ => FlagSteered(s, e);
  }

  lemma StepKeepsSteered(s: Store, e: Event, t: ThreadId)
    requires AllLinked(s) && Possible(s, e) && ThreadSteered(s, t) && ThreadSound(s, t)
    requires e.t == t ==> Polite(s, e)
    ensures ThreadSteered(Step(s, e), t)
  {
    if e.t == t {
      OwnEventSteered(s, e);
    } else {
      OtherEventEffect(s, e, t);
      PumpedSteered(s, Step(s, e), t);
    }
  }

  /** With one steer at a time, the slot a steer frees is nobody's. */
  lemma SteeredIsCalm(s: Store, e: Event)
    requires AllLinked(s) && Possible(s, e) && Contract(s, e) && Polite(s, e)
    requires ThreadSound(s, e.t) && ThreadSteered(s, e.t)
    ensures Calm(s, e)
  {
  }

  predicate AllPolite(s: Store, es: seq<Event>, t: ThreadId)
    requires AllLinked(s) && CanRun(s, es)
    decreases |es|
  {
    es != [] ==> (es[0].t == t ==> Polite(s, es[0])) && AllPolite(Step(s, es[0]), es[1..], t)
  }

  lemma {:induction false} PoliteRunIsCalm(s: Store, es: seq<Event>, t: ThreadId)
    requires AllLinked(s) && CanRun(s, es) && InContract(s, es, t) && AllPolite(s, es, t)
    requires ThreadSound(s, t) && ThreadSteered(s, t)
    ensures AllCalm(s, es, t)
    decreases |es|
  {
    if es != [] {
      if es[0].t == t {
        SteeredIsCalm(s, es[0]);
      }
      StepKeepsSound(s, es[0], t);
      StepKeepsSteered(s, es[0], t);
      PoliteRunIsCalm(Step(s, es[0]), es[1..], t);
    }
  }

  /** A thread whose own steers do not overlap keeps its books, whatever happens on others. */
  lemma PoliteIsSound(max: nat, es: seq<Event>, t: ThreadId)
    requires CanRun(Init(max), es) && InContract(Init(max), es, t) && AllPolite(Init(max), es, t)
    ensures AllCalm(Init(max), es, t) && BooksHold(Init(max), es, t)
  {
    InitSound(max, t);
    PoliteRunIsCalm(Init(max), es, t);
    SoundExactlyWhenCalm(max, es, t);
  }

  // ---------------------------------------------------------------- the steer window

  lemma HeldByPump(s: Store, t: ThreadId)
    requires AllLinked(s) && (IsSteering(Get(s, t)) || Queue(Get(s, t)) == [])
    ensures Get(Pump(s), t) == Get(Drain(s, t), t) == Get(s, t)
  {
    PumpEffect(s, t);
    DrainEffect(s, t, t);
  }

  lemma GiveBackHeld(s: Store, t: ThreadId, k: nat, drain: bool)
    requires AllLinked(s) && k < |Get(s, t).subs| && IsSteering(Get(s, t))
    ensures Get(GiveBack(s, t, k, drain), t) == Get(s, t)
  {
    HeldByPump(Release(s, t), t);
    HeldByPump(Drain(Release(s, t), t), t);
  }

  lemma SettleHeld(s: Store, t: ThreadId, k: nat, ok: bool)
    requires AllLinked(s) && Possible(s, OnSettled(t, k, ok)) && IsSteering(Get(s, t))
    ensures |Get(Step(s, OnSettled(t, k, ok)), t).subs| == |Get(s, t).subs|
  {
    var th := if ok then Settled(Get(s, t), k) else FailedIn(Get(s, t), k);
    GiveBackHeld(Put(s, t, th), t, k, ok && Get(s, t).subs[k].queued);
  }

  lemma CompletedHeld(s: Store, t: ThreadId, run: Option<nat>)
    requires AllLinked(s) && Possible(s, OnCompleted(t, run)) && IsSteering(Get(s, t))
    ensures |Get(Completed(s, t, run), t).subs| == |Get(s, t).subs|
  {
    var s1 := Release(Put(s, t, CompletedIn(Get(s, t), run)), t);
    HeldByPump(s1, t);
    HeldByPump(Evict(Drain(s1, t), t), t);
  }

  lemma OwnEventHeld(s: Store, e: Event)
    requires AllLinked(s) && Possible(s, e)
    requires IsSteering(Get(s, e.t)) && Queue(Get(s, e.t)) != [] && !e.SteerReturns?
    ensures |Get(Step(s, e), e.t).subs| == |Get(s, e.t).subs|
  {
    match e
    case SendTurn(t) => HeldByPump(Put(s, t, Enqueue(WithEntry(Get(s, t)))), t);
    case SteerNow(t) => HeldByPump(Put(s, t, Enqueue(WithEntry(Get(s, t)))), t);
    case OnSettled(t, k, ok) => SettleHeld(s, t, k, ok);
    case OnCompleted(t, run) => CompletedHeld(s, t, run);
    case Dispose(t) => HeldByPump(Forgotten(s, t), t);
    case _ =>
  }

  /** While a steer is pending and its turn waits, only the steer's end starts a submission, in or out of contract. */
  lemma SteerHoldsThread(s: Store, e: Event, u: ThreadId)
    requires AllLinked(s) && Possible(s, e)
    requires IsSteering(Get(s, u)) && Queue(Get(s, u)) != [] && !(e.SteerReturns? && e.t == u)
    ensures |Get(Step(s, e), u).subs| == |Get(s, u).subs|
  {
    if e.t == u {
      OwnEventHeld(s, e);
    } else {
      OtherEventEffect(s, e, u);
    }
  }
}

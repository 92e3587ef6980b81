/** That waiting turns are started: no free slot while a thread is listed, and no idle thread with a turn unlisted. */
module SchedulerProgress {
  import opened Wrappers
  import opened Scheduler
  import opened SchedulerInvariant
  import opened SchedulerTheorems

  /** No slot is free while a thread waits in the list. */
  predicate Filled(s: Store) {
    s.pending == [] || s.max <= |s.active|
  }

  /** A thread marked as listed is in the list. */
  predicate Marked(s: Store) {
    forall t <- s.pendingSet :: t in s.pending
  }

  /** A turn waits on a thread that is free to run, and nobody will start it. */
  predicate Stranded(s: Store, t: ThreadId)
    requires AllLinked(s)
  {
    !Skips(s, t) && t !in s.pending
  }

  // ---------------------------------------------------------------- pumping

  lemma ShiftedMarked(s: Store)
    requires s.pending != [] && Marked(s)
    ensures Marked(Shifted(s))
  {
  }

  /** A pump stops only with the list empty or the house full. */
  lemma {:induction false} PumpFills(s: Store)
    requires AllLinked(s)
    ensures Filled(Pump(s)) && (Marked(s) ==> Marked(Pump(s)))
    decreases |s.pending|
  {
    if |s.active| < s.max && s.pending != [] {
      var t := s.pending[0];
      if Marked(s) {
        ShiftedMarked(s);
      }
      PumpFills(if Skips(Shifted(s), t) then Shifted(s) else Launch(Shifted(s), t));
    }
  }

  lemma {:induction false} PumpStrandsNobody(s: Store, u: ThreadId)
    requires AllLinked(s) && !Stranded(s, u)
    ensures !Stranded(Pump(s), u)
    decreases |s.pending|
  {
    if |s.active| < s.max && s.pending != [] {
      var t := s.pending[0];
      PumpStrandsNobody(if Skips(Shifted(s), t) then Shifted(s) else Launch(Shifted(s), t), u);
    }
  }

  lemma DrainFills(s: Store, t: ThreadId)
    requires AllLinked(s) && Marked(s)
    ensures Marked(Drain(s, t)) && Marked(Pump(Drain(s, t))) && (Filled(s) ==> Filled(Drain(s, t)))
  {
    if !Skips(s, t) {
      PumpFills(Listed(s, t));
    }
    PumpFills(Drain(s, t));
  }

  /** After its drain a thread is not stranded, whatever it was before. */
  lemma DrainServes(s: Store, t: ThreadId)
    requires AllLinked(s) && Marked(s)
    ensures !Stranded(Drain(s, t), t) && !Stranded(Pump(Drain(s, t)), t)
  {
    if !Skips(s, t) {
      PumpStrandsNobody(Listed(s, t), t);
    }
    PumpStrandsNobody(Drain(s, t), t);
  }

  lemma DrainStrandsNobody(s: Store, t: ThreadId, u: ThreadId)
    requires AllLinked(s) && !Stranded(s, u)
    ensures !Stranded(Drain(s, t), u) && !Stranded(Pump(Drain(s, t)), u)
  {
    if !Skips(s, t) {
      PumpStrandsNobody(Listed(s, t), u);
    }
    PumpStrandsNobody(Drain(s, t), u);
  }

  // ---------------------------------------------------------------- the list

  lemma SendList(s: Store, t: ThreadId)
    requires AllLinked(s) && Marked(s) && Filled(s)
    ensures Marked(Send(s, t)) && Filled(Send(s, t))
  {
    if MustQueue(s, t) {
      DrainFills(Put(s, t, Enqueue(WithEntry(Get(s, t)))), t);
    } else {
      assert s.active <= s.active + {t};
    }
  }

  lemma GiveBackList(s: Store, t: ThreadId, k: nat, drain: bool)
    requires AllLinked(s) && Marked(s) && Filled(s) && k < |Get(s, t).subs|
    ensures Marked(GiveBack(s, t, k, drain)) && Filled(GiveBack(s, t, k, drain))
  {
    DrainFills(Release(s, t), t);
    PumpFills(if drain then Drain(Release(s, t), t) else Release(s, t));
  }

  lemma SettleList(s: Store, t: ThreadId, k: nat, ok: bool)
    requires AllLinked(s) && Marked(s) && Filled(s) && Possible(s, OnSettled(t, k, ok))
    ensures Marked(Step(s, OnSettled(t, k, ok))) && Filled(Step(s, OnSettled(t, k, ok)))
  {
    var th := if ok then Settled(Get(s, t), k) else FailedIn(Get(s, t), k);
    GiveBackList(Put(s, t, th), t, k, ok && Get(s, t).subs[k].queued);
  }

  lemma CompletedList(s: Store, t: ThreadId, run: Option<nat>)
    requires AllLinked(s) && Marked(s) && Possible(s, OnCompleted(t, run))
    ensures Marked(Completed(s, t, run)) && Filled(Completed(s, t, run))
  {
    var s1 := Release(Put(s, t, CompletedIn(Get(s, t), run)), t);
    DrainFills(s1, t);
    PumpFills(Evict(Drain(s1, t), t));
  }

  lemma SteerEndList(s: Store, t: ThreadId, j: nat, ok: bool)
    requires AllLinked(s) && Marked(s) && Filled(s) && Possible(s, SteerReturns(t, j, ok))
    ensures Marked(SteerEnd(s, t, j, ok)) && Filled(SteerEnd(s, t, j, ok))
  {
    var s1 := Release(Put(s, t, Unsteered(Get(s, t), j)), t);
    DrainFills(s1, t);
    PumpFills(Drain(s1, t));
  }

  /** No event, in or out of contract, leaves a slot free while a thread is listed. */
  lemma StepFills(s: Store, e: Event)
    requires AllLinked(s) && Possible(s, e) && Marked(s) && Filled(s)
    ensures Marked(Step(s, e)) && Filled(Step(s, e))
  {
    match e
    case SendTurn(t) => SendList(s, t);
    case OnSettled(t, k, ok) => SettleList(s, t, k, ok);
    case OnCompleted(t, run) => CompletedList(s, t, run);
    case SteerNow(t) => SendList(s, t);
    case SteerReturns(t, j, ok) => SteerEndList(s, t, j, ok);
    case Dispose(t) => PumpFills(Forgotten(s, t));
    case _ =>
  }

  lemma {:induction false} RunFills(s: Store, es: seq<Event>)
    requires AllLinked(s) && CanRun(s, es) && Marked(s) && Filled(s)
    ensures Marked(After(s, es)) && Filled(After(s, es))
    decreases |es|
  {
    if es != [] {
      StepFills(s, es[0]);
      RunFills(Step(s, es[0]), es[1..]);
    }
  }

  /** Whatever happens, no slot stays free while a thread is listed. */
  lemma NoIdleSlot(max: nat, es: seq<Event>)
    requires CanRun(Init(max), es)
    ensures var s := After(Init(max), es); s.pending == [] || max <= |s.active|
  {
    RunFills(Init(max), es);
    RunBound(Init(max), es, max);
  }

  // ---------------------------------------------------------------- waiting turns

  /** The submission settled gives its slot back. */
  predicate GivesBack(s: Store, t: ThreadId, k: nat)
    requires AllLinked(s) && k < |Get(s, t).subs|
  {
    Get(s, t).entries[Get(s, t).subs[k].entry].run.None? && t in s.active
  }

  /** The events that see to a thread's waiting turns. */
  predicate Serves(s: Store, e: Event)
    requires AllLinked(s) && Possible(s, e)
  {
    match e
    case SendTurn(_) => true
    case OnSettled(t, k, ok) => ok && Get(s, t).subs[k].queued && GivesBack(s, t, k)
    case OnCompleted(_, _) => true
    case SteerReturns(_, _, ok) => ok
    case _ => false
  }

  lemma SendServes(s: Store, t: ThreadId)
    requires AllLinked(s) && Marked(s)
    ensures !Stranded(Send(s, t), t)
  {
    if MustQueue(s, t) {
      DrainServes(Put(s, t, Enqueue(WithEntry(Get(s, t)))), t);
    }
  }

  lemma CompletedServes(s: Store, t: ThreadId, run: Option<nat>)
    requires AllLinked(s) && Marked(s) && Possible(s, OnCompleted(t, run))
    ensures !Stranded(Completed(s, t, run), t)
  {
    var s1 := Release(Put(s, t, CompletedIn(Get(s, t), run)), t);
    DrainServes(s1, t);
    PumpStrandsNobody(Evict(Drain(s1, t), t), t);
  }

  lemma SettledServes(s: Store, t: ThreadId, k: nat)
    requires AllLinked(s) && Marked(s) && Possible(s, OnSettled(t, k, true)) && Serves(s, OnSettled(t, k, true))
    ensures !Stranded(SettleOk(s, t, k), t)
  {
    DrainServes(Release(Put(s, t, Settled(Get(s, t), k)), t), t);
  }

  /**
    After a send, a completed run, the end of a successful steer, or a queued submission that gives its slot back, a
    thread with a waiting turn that is neither busy nor steering is active, or listed.
   */
  lemma ServedAfter(s: Store, e: Event)
    requires AllLinked(s) && Marked(s) && Possible(s, e) && Serves(s, e)
    ensures !Stranded(Step(s, e), e.t)
  {
    match e
    case SendTurn(t) => SendServes(s, t);
    case OnSettled(t, k, _) => SettledServes(s, t, k);
    case OnCompleted(t, run) => CompletedServes(s, t, run);
    case SteerReturns(t, j, _) => DrainServes(Release(Put(s, t, Unsteered(Get(s, t), j)), t), t);
  }

  /**
    The events after which a thread may be stranded: its projected status turns idle, a submission of its own fails or
    was not queued, or its steer fails.
   */
  predicate MayStrand(s: Store, e: Event)
    requires AllLinked(s) && Possible(s, e)
  {
    match e
    case StatusChange(t, _) => Busy(Get(s, t))
    case OnSettled(t, k, ok) => !ok || !Get(s, t).subs[k].queued
    case SteerReturns(_, _, ok) => !ok
    case _ => false
  }

  lemma OwnSettleStrandsNobody(s: Store, t: ThreadId, k: nat)
    requires AllLinked(s) && Marked(s) && !Stranded(s, t)
    requires Possible(s, OnSettled(t, k, true)) && Get(s, t).subs[k].queued
    ensures !Stranded(SettleOk(s, t, k), t)
  {
    if GivesBack(s, t, k) {
      SettledServes(s, t, k);
    }
  }

  lemma SteerStartStrandsNobody(s: Store, t: ThreadId)
    requires AllLinked(s) && Marked(s) && !Stranded(s, t)
    ensures !Stranded(SteerStart(s, t), t)
  {
    if !Busy(Get(s, t)) {
      SendServes(s, t);
    }
  }

  lemma OwnEventStrandsNobody(s: Store, e: Event)
    requires AllLinked(s) && Marked(s) && Possible(s, e) && !MayStrand(s, e) && !Stranded(s, e.t)
    ensures !Stranded(Step(s, e), e.t)
  {
    match e
    case OnSettled(t, k, ok) => OwnSettleStrandsNobody(s, t, k);
    case SteerNow(t) => SteerStartStrandsNobody(s, t);
    case SendTurn(t) => ServedAfter(s, e);
    case OnCompleted(t, run) => ServedAfter(s, e);
    case SteerReturns(t, j, ok) => ServedAfter(s, e);
    case Dispose(t) => PumpStrandsNobody(Forgotten(s, t), t);
    case _ =>
  }

  lemma SendStrandsNobody(s: Store, t: ThreadId, u: ThreadId)
    requires AllLinked(s) && t != u && !Stranded(s, u)
    ensures !Stranded(Send(s, t), u) && !Stranded(SteerStart(s, t), u)
  {
    DrainStrandsNobody(Put(s, t, Enqueue(WithEntry(Get(s, t)))), t, u);
  }

  lemma GiveBackStrandsNobody(s: Store, t: ThreadId, k: nat, drain: bool, u: ThreadId)
    requires AllLinked(s) && t != u && k < |Get(s, t).subs| && !Stranded(s, u)
    ensures !Stranded(GiveBack(s, t, k, drain), u)
  {
    DrainStrandsNobody(Release(s, t), t, u);
    PumpStrandsNobody(Release(s, t), u);
  }

  lemma SettleStrandsNobody(s: Store, t: ThreadId, k: nat, ok: bool, u: ThreadId)
    requires AllLinked(s) && t != u && Possible(s, OnSettled(t, k, ok)) && !Stranded(s, u)
    ensures !Stranded(Step(s, OnSettled(t, k, ok)), u)
  {
    var th := if ok then Settled(Get(s, t), k) else FailedIn(Get(s, t), k);
    GiveBackStrandsNobody(Put(s, t, th), t, k, ok && Get(s, t).subs[k].queued, u);
  }

  lemma CompletedStrandsNobody(s: Store, t: ThreadId, run: Option<nat>, u: ThreadId)
    requires AllLinked(s) && t != u && Possible(s, OnCompleted(t, run)) && !Stranded(s, u)
    ensures !Stranded(Completed(s, t, run), u)
  {
    var s1 := Release(Put(s, t, CompletedIn(Get(s, t), run)), t);
    DrainStrandsNobody(s1, t, u);
    PumpStrandsNobody(Evict(Drain(s1, t), t), u);
  }

  lemma OtherEventStrandsNobody(s: Store, e: Event, u: ThreadId)
    requires AllLinked(s) && Possible(s, e) && e.t != u && !Stranded(s, u)
    ensures !Stranded(Step(s, e), u)
  {
    match e
    case SendTurn(t) => SendStrandsNobody(s, t, u);
    case OnSettled(t, k, ok) => SettleStrandsNobody(s, t, k, ok, u);
    case OnCompleted(t, run) => CompletedStrandsNobody(s, t, run, u);
    case SteerNow(t) => SendStrandsNobody(s, t, u);
    case SteerReturns(t, j, ok) => DrainStrandsNobody(Release(Put(s, t, Unsteered(Get(s, t), j)), t), t, u);
    case Dispose(t) => PumpStrandsNobody(Forgotten(s, t), u);
    case _ =>
  }

  /** A waiting turn is stranded only by one of those events of its own thread, in or out of contract. */
  lemma StepStrandsNobody(s: Store, e: Event, t: ThreadId)
    requires AllLinked(s) && Marked(s) && Possible(s, e) && !Stranded(s, t)
    requires e.t == t ==> !MayStrand(s, e)
    ensures !Stranded(Step(s, e), t)
  {
    if e.t == t {
      OwnEventStrandsNobody(s, e);
    } else {
      OtherEventStrandsNobody(s, e, t);
    }
  }

  /** Each event of the thread that may have stranded it is followed by one that serves it. */
  predicate Attended(s: Store, es: seq<Event>, t: ThreadId, served: bool)
    requires AllLinked(s) && CanRun(s, es)
    decreases |es|
  {
    if es == [] then served
    else
      var e := es[0];
      var served' := if e.t != t then served else if Serves(s, e) then true else served && !MayStrand(s, e);
      Attended(Step(s, e), es[1..], t, served')
  }

  lemma {:induction false} AttendedIsServed(s: Store, es: seq<Event>, t: ThreadId, served: bool)
    requires AllLinked(s) && Marked(s) && Filled(s) && CanRun(s, es) && Attended(s, es, t, served)
    requires served ==> !Stranded(s, t)
    ensures !Stranded(After(s, es), t)
    decreases |es|
  {
    if es != [] {
      var e := es[0];
      StepFills(s, e);
      if e.t == t && Serves(s, e) {
        ServedAfter(s, e);
        AttendedIsServed(Step(s, e), es[1..], t, true);
      } else {
        var served' := served && !(e.t == t && MayStrand(s, e));
        if served' {
          StepStrandsNobody(s, e, t);
        }
        AttendedIsServed(Step(s, e), es[1..], t, served');
      }
    }
  }

  /**
    Over whole runs: a thread whose last stranding event was followed by a serving one is, with a waiting turn and
    neither busy nor steering nor active, in the list, and then every slot is taken.
   */
  lemma OnlyFullHouseWaits(max: nat, es: seq<Event>, t: ThreadId)
    requires CanRun(Init(max), es) && Attended(Init(max), es, t, true)
    ensures var s := After(Init(max), es);
      !Skips(s, t) ==> t in s.pending && max <= |s.active|
  {
    AttendedIsServed(Init(max), es, t, true);
    NoIdleSlot(max, es);
  }

  // ---------------------------------------------------------------- a turn that nobody starts

  lemma {:induction false} PumpPassesUnlisted(s: Store, u: ThreadId)
    requires AllLinked(s) && u !in s.pending
    ensures var s' := Pump(s); Get(s', u) == Get(s, u) && u !in s'.pending && (u in s'.active <==> u in s.active)
    decreases |s.pending|
  {
    if |s.active| < s.max && s.pending != [] {
      var t := s.pending[0];
      PumpPassesUnlisted(if Skips(Shifted(s), t) then Shifted(s) else Launch(Shifted(s), t), u);
    }
  }

  /** A thread with a turn waiting, that nothing but its slot keeps from running. */
  predicate Eager(th: Thread)
    requires Linked(th)
  {
    Queue(th) != [] && !IsSteering(th) && !Busy(th)
  }

  /** A failed submission strands an unlisted thread exactly when it gives its slot back and a turn waits. */
  lemma FailureStrandsExactly(s: Store, t: ThreadId, k: nat)
    requires AllLinked(s) && Possible(s, OnSettled(t, k, false)) && t in s.active && t !in s.pending
    ensures Stranded(SettleFail(s, t, k), t) <==> GivesBack(s, t, k) && Eager(FailedIn(Get(s, t), k))
  {
    var s1 := Put(s, t, FailedIn(Get(s, t), k));
    PumpPassesUnlisted(Release(s1, t), t);
  }

  /** The state of a thread with one turn being submitted at once and another queued behind it. */
  ghost predicate OneBehindOne(s: Store)
    requires AllLinked(s)
  {
    var th := Get(s, 0);
    && s.active == {0} && s.pending == [] && !Busy(th) && !IsSteering(th) && |Queue(th)| == 1 && !th.disposed
    && |th.subs| == 1 && th.entry == Some(th.subs[0].entry) && th.entries[th.subs[0].entry].run.None?
    && !th.subs[0].settled && !th.subs[0].created && !th.subs[0].queued
  }

  ghost predicate OneSubmitting(s: Store)
    requires AllLinked(s)
  {
    var th := Get(s, 0);
    && s.active == {0} && s.pending == [] && !Busy(th) && !th.disposed
    && th.entry == Some(0) && th.entries == [Entry([], None, false, false)]
    && th.subs == [Submission(0, 0, false, false, false, false, false)]
  }

  lemma FirstSend()
    ensures OneSubmitting(Send(Init(2), 0))
  {
  }

  lemma SecondSend(s: Store)
    requires AllLinked(s) && OneSubmitting(s)
    ensures OneBehindOne(Send(s, 0))
  {
  }

  lemma FirstFails(s: Store)
    requires AllLinked(s) && OneBehindOne(s)
    ensures var e := OnSettled(0, 0, false);
      Possible(s, e) && Contract(s, e) && Calm(s, e) && Stranded(Step(s, e), 0) && Step(s, e).active == {}
  {
    FailureStrandsExactly(s, 0, 0);
  }

  lemma RunFrom(s: Store, e: Event, es: seq<Event>)
    requires AllLinked(s) && Possible(s, e) && Contract(s, e) && Calm(s, e)
    requires CanRun(Step(s, e), es) && RunInContract(Step(s, e), es) && RunCalm(Step(s, e), es)
    ensures var es' := [e] + es;
      CanRun(s, es') && RunInContract(s, es') && RunCalm(s, es') && After(s, es') == After(Step(s, e), es)
  {
    assert ([e] + es)[1..] == es;
  }

  lemma SecondFollows(s: Store)
    requires AllLinked(s) && OneSubmitting(s)
    ensures var es := [SendTurn(0)] + ([OnSettled(0, 0, false)] + []);
      && CanRun(s, es) && RunInContract(s, es) && RunCalm(s, es)
      && Stranded(After(s, es), 0) && After(s, es).active == {}
  {
    var s2 := Step(s, SendTurn(0));
    SecondSend(s);
    FirstFails(s2);
    RunFrom(s2, OnSettled(0, 0, false), []);
    RunFrom(s, SendTurn(0), [OnSettled(0, 0, false)] + []);
  }

  /** Two messages to an idle thread: the first is refused, and the second, queued meanwhile, is started by nobody. */
  lemma FailedSendStrands()
    ensures var es := [SendTurn(0)] + ([SendTurn(0)] + ([OnSettled(0, 0, false)] + []));
      && CanRun(Init(2), es) && RunInContract(Init(2), es) && RunCalm(Init(2), es)
      && Stranded(After(Init(2), es), 0) && After(Init(2), es).active == {}
  {
    FirstSend();
    SecondFollows(Step(Init(2), SendTurn(0)));
    RunFrom(Init(2), SendTurn(0), [SendTurn(0)] + ([OnSettled(0, 0, false)] + []));
  }
}

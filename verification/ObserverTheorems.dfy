/** No lost wakeups, and order and exactness of what every observer hands out, over every interleaving. */
module ObserverTheorems {
  import opened Wrappers
  import opened Frames
  import opened RunManager
  import opened RunInvariant
  import opened RunTheorems
  import opened Observers
  import opened ObserverInvariant

  /** A parked observer misses nothing in a run it is not bound to. */
  ghost predicate Waits(c: Core, ob: Observer)
    requires Parallel(c)
  {
    ob.stage.Parked? && Stale(c, ob) ==> c.logs[c.runs[ob.thread]] == [] && !c.recs[c.runs[ob.thread]].phase.Done?
  }

  ghost predicate Fine(c: Core, ob: Observer)
    requires Parallel(c)
  {
    Good(c, ob) && Rests(c, ob) && Waits(c, ob)
  }

  /** A run's waiter set holds exactly the observers parked on that run. */
  ghost predicate OwnSets(obs: seq<Observer>, waiters: seq<set<nat>>) {
    forall r, o {:trigger o in waiters[r]} :: 0 <= r < |waiters| ==>
      (o in waiters[r] <==> 0 <= o < |obs| && obs[o].stage == Parked(OnRun) && obs[o].bound == Some(r))
  }

  /** A shared set holds exactly the observers parked in it. */
  ghost predicate SharedSets(obs: seq<Observer>, sets: seq<set<nat>>) {
    forall k, o {:trigger o in sets[k]} :: 0 <= k < |sets| ==>
      (o in sets[k] <==> 0 <= o < |obs| && obs[o].stage == Parked(InSet(k)))
  }

  /** The shared set an observer is parked in is the one its thread's wakes will find. */
  ghost predicate LiveSets(obs: seq<Observer>, runWaiters: map<ThreadId, nat>) {
    && (forall t, u :: t in runWaiters && u in runWaiters && runWaiters[t] == runWaiters[u] ==> t == u)
    && forall o :: 0 <= o < |obs| && obs[o].stage.Parked? && obs[o].stage.at.InSet? ==>
      obs[o].thread in runWaiters && runWaiters[obs[o].thread] == obs[o].stage.at.set_
  }

  ghost predicate Placed(s: Sys) {
    Linked(s) && OwnSets(s.obs, s.waiters) && SharedSets(s.obs, s.sets) && LiveSets(s.obs, s.runWaiters)
  }

  ghost predicate SysInv(s: Sys) {
    Placed(s) && Inv(s.core) && forall o :: 0 <= o < |s.obs| ==> Fine(s.core, s.obs[o])
  }

  // ---------------------------------------------------------------- steps of the manager

  /** Whether waking a run, or a thread, reaches a parked observer. */
  ghost predicate Heard(recs: seq<Run>, run: Option<nat>, thread: Option<ThreadId>, ob: Observer)
    requires run.Some? ==> run.value < |recs|
  {
    if ob.stage == Parked(OnRun) then run.Some? && run == ob.bound
    else if run.Some? then recs[run.value].thread == ob.thread
    else thread == Some(ob.thread)
  }

  ghost predicate IsWoken(c: Core, e: CoreEvent, ob: Observer)
    requires Parallel(c) && Enabled(c, e)
  {
    Heard(c.recs, WokenRun(c, e), WokenThread(e), ob)
  }

  lemma DoneStays(c: Core, e: CoreEvent, ob: Observer)
    requires Inv(c) && Enabled(c, e) && Good(c, ob) && Exhausted(c, ob) && c.recs[ob.bound.value].phase.Done?
    ensures Bounded(Step(c, e), ob) && Exhausted(Step(c, e), ob) && Step(c, e).recs[ob.bound.value].phase.Done?
  {
    FrozenStep(c, e, ob.bound.value);
    StepGrows(c, e);
  }

  lemma GoodStays(c: Core, e: CoreEvent, ob: Observer)
    requires Inv(c) && Enabled(c, e) && Good(c, ob)
    ensures Good(Step(c, e), ob)
  {
    StepKeepsOrder(c, e, ob);
    StepKeepsExact(c, e, ob);
  }

  /** While the run an observer is parked on is unfinished, the installed run is still queued behind it. */
  lemma InstalledIsQueued(c: Core, ob: Observer)
    requires Inv(c) && Good(c, ob) && ob.bound.Some? && !c.recs[ob.bound.value].phase.Done? && Stale(c, ob)
    ensures c.recs[c.runs[ob.thread]].phase.Queued? && c.logs[c.runs[ob.thread]] == []
  {
    assert ob.bound.value < c.runs[ob.thread];
  }

  lemma UnwokenWaits(c: Core, e: CoreEvent, ob: Observer)
    requires Inv(c) && Enabled(c, e) && Fine(c, ob) && ob.stage.Parked? && ob.stage.at.InSet? && !IsWoken(c, e, ob)
    ensures Waits(Step(c, e), ob)
  {
    var c' := Step(c, e);
    if Stale(c', ob) {
      InstalledAfter(c, e, ob.thread);
      var n := c'.runs[ob.thread];
      if n < |c.recs| {
        assert c.recs[n].thread == ob.thread;
        UnwokenUnchanged(c, e, n);
      }
    }
  }

  lemma UnwokenOnRun(c: Core, e: CoreEvent, ob: Observer)
    requires Inv(c) && Enabled(c, e) && Fine(c, ob) && ob.stage == Parked(OnRun) && ob.bound.Some? && !IsWoken(c, e, ob)
    requires Inv(Step(c, e)) && Good(Step(c, e), ob)
    ensures Waits(Step(c, e), ob) && Rests(Step(c, e), ob)
  {
    var c' := Step(c, e);
    UnwokenUnchanged(c, e, ob.bound.value);
    if Stale(c', ob) {
      InstalledIsQueued(c', ob);
    }
  }

  lemma UnwokenFine(c: Core, e: CoreEvent, ob: Observer)
    requires Inv(c) && Enabled(c, e) && Fine(c, ob) && (ob.stage.Parked? ==> !IsWoken(c, e, ob))
    requires ob.stage == Parked(OnRun) ==> ob.bound.Some?
    ensures Fine(Step(c, e), ob)
  {
    GoodStays(c, e, ob);
    if ob.stage == Parked(OnRun) {
      StepKeeps(c, e);
      UnwokenOnRun(c, e, ob);
    } else {
      if ob.stage.Parked? {
        UnwokenWaits(c, e, ob);
      }
      if ob.bound.Some? && (ob.stage.Resumed? || ((ob.stage.Parked? || ob.stage.Woken?) && ob.stage.at.InSet?)) {
        DoneStays(c, e, ob);
      }
    }
  }

  lemma GoodIgnoresStage(c: Core, ob: Observer, stage: Stage)
    requires Parallel(c) && Good(c, ob)
    ensures Good(c, ob.(stage := stage))
  {
  }

  lemma WokenRests(c: Core, e: CoreEvent, ob: Observer)
    requires Inv(c) && Enabled(c, e) && Fine(c, ob) && ob.stage.Parked? && Bounded(Step(c, e), ob)
    ensures Rests(Step(c, e), ob.(stage := Woken(ob.stage.at)))
  {
    if ob.bound.Some? && ob.stage.at.InSet? {
      DoneStays(c, e, ob);
    }
  }

  lemma WokenFine(c: Core, e: CoreEvent, ob: Observer)
    requires Inv(c) && Enabled(c, e) && Fine(c, ob) && ob.stage.Parked?
    ensures Fine(Step(c, e), ob.(stage := Woken(ob.stage.at)))
  {
    GoodStays(c, e, ob);
    GoodIgnoresStage(Step(c, e), ob, Woken(ob.stage.at));
    WokenRests(c, e, ob);
  }

  function Roused(ob: Observer, woken: bool): Observer {
    if ob.stage.Parked? && woken then ob.(stage := Woken(ob.stage.at)) else ob
  }

  lemma RouseShared(obs: seq<Observer>, sets: seq<set<nat>>, k: nat)
    requires SharedSets(obs, sets) && k < |sets|
    ensures SharedSets(WakeAll(obs, sets[k]), sets[k := {}])
  {
    var obs' := WakeAll(obs, sets[k]);
    var sets' := sets[k := {}];
    forall j, o | 0 <= j < |sets'|
      ensures o in sets'[j] <==> 0 <= o < |obs'| && obs'[o].stage == Parked(InSet(j))
    {
      if 0 <= o < |obs| && obs[o].stage == Parked(InSet(k)) {
        assert o in sets[k];
      }
      assert o in sets[j] <==> 0 <= o < |obs| && obs[o].stage == Parked(InSet(j));
    }
  }

  lemma RouseOwn(obs: seq<Observer>, waiters: seq<set<nat>>, r: nat)
    requires OwnSets(obs, waiters) && r < |waiters|
    ensures OwnSets(WakeAll(obs, waiters[r]), waiters[r := {}])
  {
    var obs' := WakeAll(obs, waiters[r]);
    var waiters' := waiters[r := {}];
    forall q, o | 0 <= q < |waiters'|
      ensures o in waiters'[q] <==> 0 <= o < |obs'| && obs'[o].stage == Parked(OnRun) && obs'[o].bound == Some(q)
    {
      if 0 <= o < |obs| && obs[o].stage == Parked(OnRun) && obs[o].bound == Some(r) {
        assert o in waiters[r];
      }
      assert o in waiters[q] <==> 0 <= o < |obs| && obs[o].stage == Parked(OnRun) && obs[o].bound == Some(q);
    }
  }

  /** Waking observers of one kind leaves the sets of the other kind alone. */
  lemma RouseOthers(
    obs: seq<Observer>, os: set<nat>, waiters: seq<set<nat>>, sets: seq<set<nat>>, runWaiters: map<ThreadId, nat>)
    ensures LiveSets(obs, runWaiters) ==> LiveSets(WakeAll(obs, os), runWaiters)
    ensures SharedSets(obs, sets) && (forall o :: o in os && o < |obs| ==> obs[o].stage == Parked(OnRun)) ==>
      SharedSets(WakeAll(obs, os), sets)
    ensures OwnSets(obs, waiters) && (forall o :: o in os && o < |obs| ==> obs[o].stage != Parked(OnRun)) ==>
      OwnSets(WakeAll(obs, os), waiters)
  {
  }

  lemma SetOfThread(s: Sys, t: ThreadId, o: nat)
    requires Placed(s) && t in s.runWaiters && o < |s.obs|
    ensures o in s.sets[s.runWaiters[t]] <==> s.obs[o].stage.Parked? && s.obs[o].stage.at.InSet? && s.obs[o].thread == t
    ensures o in s.sets[s.runWaiters[t]] ==> s.obs[o].stage != Parked(OnRun)
  {
  }

  lemma WakeThreadEffect(s: Sys, t: ThreadId)
    requires Placed(s)
    ensures var s' := WakeThread(s, t);
      && Placed(s') && s'.core == s.core && |s'.obs| == |s.obs| && s'.waiters == s.waiters
      && (forall o :: 0 <= o < |s.obs| ==>
            s'.obs[o] == Roused(s.obs[o], s.obs[o].stage.Parked? && s.obs[o].stage.at.InSet? && s.obs[o].thread == t))
  {
    if t in s.runWaiters {
      var k := s.runWaiters[t];
      forall o | 0 <= o < |s.obs|
        ensures o in s.sets[k] <==> s.obs[o].stage.Parked? && s.obs[o].stage.at.InSet? && s.obs[o].thread == t
        ensures o in s.sets[k] ==> s.obs[o].stage != Parked(OnRun)
      {
        SetOfThread(s, t, o);
      }
      RouseShared(s.obs, s.sets, k);
      RouseOthers(s.obs, s.sets[k], s.waiters, s.sets, s.runWaiters);
    }
  }

  lemma WakeOwnEffect(s: Sys, r: nat)
    requires Placed(s) && r < |s.waiters|
    ensures var s' := s.(obs := WakeAll(s.obs, s.waiters[r]), waiters := s.waiters[r := {}]);
      && Placed(s')
      && (forall o :: 0 <= o < |s.obs| ==>
            s'.obs[o] == Roused(s.obs[o], s.obs[o].stage == Parked(OnRun) && s.obs[o].bound == Some(r)))
  {
    RouseOwn(s.obs, s.waiters, r);
    RouseOthers(s.obs, s.waiters[r], s.waiters, s.sets, s.runWaiters);
  }

  lemma WakeRunEffect(s: Sys, r: nat)
    requires Placed(s) && r < |s.waiters|
    ensures var s' := WakeRun(s, r); var t := s.core.recs[r].thread;
      && Placed(s') && s'.core == s.core && |s'.obs| == |s.obs|
      && (forall o :: 0 <= o < |s.obs| ==>
            s'.obs[o] == Roused(s.obs[o],
              if s.obs[o].stage == Parked(OnRun) then s.obs[o].bound == Some(r) else s.obs[o].thread == t))
  {
    WakeOwnEffect(s, r);
    WakeThreadEffect(s.(obs := WakeAll(s.obs, s.waiters[r]), waiters := s.waiters[r := {}]), s.core.recs[r].thread);
  }

  lemma GrowPlaced(s: Sys, c': Core)
    requires Placed(s) && Parallel(c') && |s.waiters| <= |c'.recs| <= |s.waiters| + 1
    ensures Placed(Grow(s, c'))
  {
  }

  lemma AnnounceEffect(s: Sys, run: Option<nat>, thread: Option<ThreadId>)
    requires Placed(s) && (run.Some? ==> run.value < |s.waiters|)
    ensures var s' := Announce(s, run, thread);
      && Placed(s') && s'.core == s.core && |s'.obs| == |s.obs|
      && (forall o :: 0 <= o < |s.obs| ==>
            s'.obs[o] == Roused(s.obs[o], s.obs[o].stage.Parked? && Heard(s.core.recs, run, thread, s.obs[o])))
  {
    if run.Some? {
      WakeRunEffect(s, run.value);
    } else if thread.Some? {
      WakeThreadEffect(s, thread.value);
    }
  }

  /** A step of the manager wakes exactly the observers parked where it calls, and changes no other. */
  lemma OnCoreEffect(s: Sys, e: CoreEvent)
    requires Placed(s) && Enabled(s.core, e)
    ensures var s' := OnCore(s, e);
      && Placed(s') && s'.core == Step(s.core, e) && |s'.obs| == |s.obs|
      && (forall o :: 0 <= o < |s.obs| ==>
            s'.obs[o] == Roused(s.obs[o], s.obs[o].stage.Parked? && IsWoken(s.core, e, s.obs[o])))
  {
    var w := WokenRun(s.core, e);
    if w.Some? {
      ThreadKept(s.core, e, w.value);
    }
    GrowPlaced(s, Step(s.core, e));
    AnnounceEffect(Grow(s, Step(s.core, e)), w, WokenThread(e));
  }

  lemma ThreadKept(c: Core, e: CoreEvent, r: nat)
    requires Parallel(c) && Enabled(c, e) && r < |c.recs|
    ensures Step(c, e).recs[r].thread == c.recs[r].thread
  {
    StepGrows(c, e);
  }

  lemma OnCoreKeeps(s: Sys, e: CoreEvent)
    requires SysInv(s) && Enabled(s.core, e)
    ensures SysInv(OnCore(s, e))
  {
    OnCoreEffect(s, e);
    StepKeeps(s.core, e);
    var s' := OnCore(s, e);
    forall o | 0 <= o < |s'.obs| ensures Fine(s'.core, s'.obs[o]) {
      if s.obs[o].stage.Parked? && IsWoken(s.core, e, s.obs[o]) {
        WokenFine(s.core, e, s.obs[o]);
      } else {
        assert ObserverLinked(s.obs[o], |s.waiters|, |s.sets|);
        UnwokenFine(s.core, e, s.obs[o]);
      }
    }
  }

  // ---------------------------------------------------------------- steps of an observer

  lemma LandingFine(c: Core, out: Outcome, stage: Stage)
    requires Parallel(c) && Lands(c, out)
    requires match out
      case Yielded(_) => stage == Suspended
      case Ended(_) => stage == Over
      case ParksOnRun(_) => stage == Parked(OnRun) || stage == Woken(OnRun)
      case ParksForRun(_) => (stage.Parked? || stage.Woken?) && stage.at.InSet?
    ensures Fine(c, out.ob.(stage := stage))
  {
    GoodIgnoresStage(c, out.ob, stage);
  }

  lemma ReplacePlaced(s: Sys, o: nat, ob: Observer)
    requires Placed(s) && o < |s.obs| && !s.obs[o].stage.Parked? && !ob.stage.Parked?
    requires ObserverLinked(ob, |s.waiters|, |s.sets|)
    ensures Placed(s.(obs := s.obs[o := ob]))
  {
  }

  lemma ParkOnRunPlaced(s: Sys, o: nat, ob: Observer)
    requires Placed(s) && o < |s.obs| && !s.obs[o].stage.Parked? && ob.bound.Some? && ob.bound.value < |s.waiters|
    ensures Placed(ParkOnRun(s, o, ob))
  {
    if ob.aborted {
      ReplacePlaced(s, o, ob.(stage := Woken(OnRun)));
    } else {
    }
  }

  lemma MakeSetPlaced(s: Sys, t: ThreadId)
    requires Placed(s) && t !in s.runWaiters
    ensures Placed(s.(sets := s.sets + [{}], runWaiters := s.runWaiters[t := |s.sets|]))
  {
  }

  lemma JoinSetPlaced(s: Sys, o: nat, ob: Observer)
    requires Placed(s) && o < |s.obs| && !s.obs[o].stage.Parked? && ob.thread in s.runWaiters
    requires ob.bound.Some? ==> ob.bound.value < |s.waiters|
    ensures var k := s.runWaiters[ob.thread];
      Placed(s.(obs := s.obs[o := ob.(stage := Parked(InSet(k)))], sets := s.sets[k := s.sets[k] + {o}]))
  {
  }

  lemma ParkForRunPlaced(s: Sys, o: nat, ob: Observer)
    requires Placed(s) && o < |s.obs| && !s.obs[o].stage.Parked? && (ob.bound.Some? ==> ob.bound.value < |s.waiters|)
    ensures Placed(ParkForRun(s, o, ob))
  {
    var s1 := if ob.thread in s.runWaiters then s
              else s.(sets := s.sets + [{}], runWaiters := s.runWaiters[ob.thread := |s.sets|]);
    if ob.thread !in s.runWaiters {
      MakeSetPlaced(s, ob.thread);
    }
    if ob.aborted {
      ReplacePlaced(s1, o, ob.(stage := Woken(InSet(s1.runWaiters[ob.thread]))));
    } else {
      JoinSetPlaced(s1, o, ob);
    }
  }

  /** Only the observer that moves is changed, and it stays fine. */
  lemma OneMoved(s: Sys, s': Sys, o: nat)
    requires SysInv(s) && o < |s.obs| && Placed(s') && s'.core == s.core
    requires |s'.obs| == |s.obs| && forall i :: 0 <= i < |s.obs| && i != o ==> s'.obs[i] == s.obs[i]
    requires Fine(s'.core, s'.obs[o])
    ensures SysInv(s')
  {
  }

  lemma OnGoKeeps(s: Sys, o: nat)
    requires SysInv(s) && CanHappen(s, Go(o))
    ensures SysInv(OnGo(s, o))
  {
    var ob := s.obs[o];
    assert Fine(s.core, ob) && ObserverLinked(ob, |s.waiters|, |s.sets|);
    AdvanceLands(s.core, ob);
    var out := Advance(s.core, ob);
    var s' := OnGo(s, o);
    OnGoPlaced(s, o);
    LandingFine(s.core, out, s'.obs[o].stage);
    OneMoved(s, s', o);
  }

  lemma OnGoPlaced(s: Sys, o: nat)
    requires Placed(s) && CanHappen(s, Go(o))
    ensures Placed(OnGo(s, o))
  {
    var out := Advance(s.core, s.obs[o]);
    match out
    case Yielded(ob) => ReplacePlaced(s, o, ob.(stage := Suspended));
    case Ended(ob) => ReplacePlaced(s, o, ob.(stage := Over));
    case ParksOnRun(ob) => ParkOnRunPlaced(s, o, ob);
    case ParksForRun(ob) => ParkForRunPlaced(s, o, ob);
  }

  lemma OnLeaveKeeps(s: Sys, o: nat)
    requires SysInv(s) && CanHappen(s, LeaveSet(o))
    ensures SysInv(OnLeave(s, o))
  {
    var ob := s.obs[o];
    var s1 := s.(obs := s.obs[o := ob.(stage := Resumed)]);
    ReplacePlaced(s, o, ob.(stage := Resumed));
    ForgetPlaced(s1, ob.thread, ob.stage.at.set_);
    assert Fine(s.core, ob);
    GoodIgnoresStage(s.core, ob, Resumed);
    OneMoved(s, OnLeave(s, o), o);
  }

  /** Forgetting an empty live set strands nobody. */
  lemma ForgetPlaced(s: Sys, t: ThreadId, k: nat)
    requires Placed(s) && k < |s.sets|
    ensures Placed(s.(runWaiters :=
      if s.sets[k] == {} && t in s.runWaiters && s.runWaiters[t] == k then s.runWaiters - {t} else s.runWaiters))
  {
    forall o | 0 <= o < |s.obs| && s.obs[o].stage == Parked(InSet(k)) ensures s.sets[k] != {} {
      assert o in s.sets[k];
    }
  }

  lemma OnAbortKeeps(s: Sys, o: nat)
    requires SysInv(s) && CanHappen(s, AbortObserver(o))
    ensures SysInv(OnAbort(s, o))
  {
    var ob := s.obs[o];
    assert Fine(s.core, ob) && ObserverLinked(ob, |s.waiters|, |s.sets|);
    OnAbortPlaced(s, o);
    AbortFine(s.core, ob);
    OneMoved(s, OnAbort(s, o), o);
  }

  lemma AbortFine(c: Core, ob: Observer)
    requires Parallel(c) && Fine(c, ob)
    ensures Fine(c, ob.(aborted := true))
    ensures ob.stage.Parked? ==> Fine(c, ob.(aborted := true, stage := Woken(ob.stage.at)))
  {
  }

  lemma LeaveShared(obs: seq<Observer>, sets: seq<set<nat>>, o: nat, k: nat, ob: Observer)
    requires SharedSets(obs, sets) && o < |obs| && k < |sets| && obs[o].stage == Parked(InSet(k)) && !ob.stage.Parked?
    ensures SharedSets(obs[o := ob], sets[k := sets[k] - {o}])
  {
    var sets' := sets[k := sets[k] - {o}];
    forall j, i | 0 <= j < |sets'|
      ensures i in sets'[j] <==> 0 <= i < |obs| && obs[o := ob][i].stage == Parked(InSet(j))
    {
      assert i in sets[j] <==> 0 <= i < |obs| && obs[i].stage == Parked(InSet(j));
    }
  }

  lemma OnAbortPlaced(s: Sys, o: nat)
    requires Placed(s) && CanHappen(s, AbortObserver(o))
    ensures Placed(OnAbort(s, o))
  {
    var ob := s.obs[o];
    if ob.stage.Parked? && ob.stage.at.InSet? {
      LeaveShared(s.obs, s.sets, o, ob.stage.at.set_, ob.(aborted := true, stage := Woken(ob.stage.at)));
    }
  }

  lemma NextKeeps(s: Sys, e: SysEvent)
    requires SysInv(s) && CanHappen(s, e)
    ensures SysInv(Next(s, e))
  {
    match e
    case CoreEv(ce) => OnCoreKeeps(s, ce);
    case Observe(t, filter) => ArrivalKeeps(s, t, filter);
    case Go(o) => OnGoKeeps(s, o);
    case LeaveSet(o) => OnLeaveKeeps(s, o);
    case AbortObserver(o) => OnAbortKeeps(s, o);
  }

  lemma ArrivalPlaced(s: Sys, ob: Observer)
    requires Placed(s) && ob.stage == Fresh && ob.bound == None
    ensures Placed(s.(obs := s.obs + [ob]))
  {
  }

  lemma ArrivalFine(c: Core, t: ThreadId, filter: Filter)
    requires Parallel(c)
    ensures Fine(c, Arrival(t, filter))
  {
  }

  lemma ArrivalKeeps(s: Sys, t: ThreadId, filter: Filter)
    requires SysInv(s)
    ensures SysInv(s.(obs := s.obs + [Arrival(t, filter)]))
  {
    ArrivalFine(s.core, t, filter);
    ArrivalPlaced(s, Arrival(t, filter));
  }

  // ---------------------------------------------------------------- histories

  ghost predicate CanRunSys(s: Sys, es: seq<SysEvent>)
    requires Linked(s)
    decreases |es|
  {
    es == [] || (CanHappen(s, es[0]) && CanRunSys(Next(s, es[0]), es[1..]))
  }

  ghost function AfterSys(s: Sys, es: seq<SysEvent>): (s': Sys)
    requires Linked(s) && CanRunSys(s, es)
    ensures Linked(s')
    decreases |es|
  {
    if es == [] then s else AfterSys(Next(s, es[0]), es[1..])
  }

  lemma {:induction false} HistoryKeeps(s: Sys, es: seq<SysEvent>)
    requires SysInv(s) && CanRunSys(s, es)
    ensures SysInv(AfterSys(s, es))
    decreases |es|
  {
    if es != [] {
      NextKeeps(s, es[0]);
      HistoryKeeps(Next(s, es[0]), es[1..]);
    }
  }

  ghost predicate ReachableSys(cap: nat, es: seq<SysEvent>, s: Sys) {
    cap >= 1 && CanRunSys(InitSys(cap), es) && s == AfterSys(InitSys(cap), es)
  }

  lemma ReachableIsSound(cap: nat, es: seq<SysEvent>, s: Sys)
    requires ReachableSys(cap, es, s)
    ensures SysInv(s)
  {
    HistoryKeeps(InitSys(cap), es);
  }

  /**
    No lost wakeup. Whenever an observer is parked, it has read its bound run to the end, the installed
    run of its thread, if another, is unfinished and has logged nothing, and its waiter is where the
    next wake will look: in its unfinished run's set, or in the live shared set of its thread.
   */
  lemma NoLostWakeup(cap: nat, es: seq<SysEvent>, s: Sys, o: nat)
    requires ReachableSys(cap, es, s) && o < |s.obs| && s.obs[o].stage.Parked?
    ensures MissesNothing(s, o)
  {
    ReachableIsSound(cap, es, s);
    ParkedMissesNothing(s, o);
  }

  ghost predicate MissesNothing(s: Sys, o: nat)
    requires o < |s.obs| && s.obs[o].stage.Parked?
  {
    var ob, c := s.obs[o], s.core;
    && Linked(s) && ObserverLinked(ob, |s.waiters|, |s.sets|)
    && (ob.bound.Some? ==> ob.cursor == |c.logs[ob.bound.value]|)
    && (ob.thread in c.runs && ob.bound != Some(c.runs[ob.thread]) ==>
          c.logs[c.runs[ob.thread]] == [] && !c.recs[c.runs[ob.thread]].phase.Done?)
    && (if ob.stage.at.OnRun? then !c.recs[ob.bound.value].phase.Done? && o in s.waiters[ob.bound.value]
        else ob.thread in s.runWaiters && o in s.sets[s.runWaiters[ob.thread]])
  }

  lemma ParkedMissesNothing(s: Sys, o: nat)
    requires SysInv(s) && o < |s.obs| && s.obs[o].stage.Parked?
    ensures MissesNothing(s, o)
  {
    assert Fine(s.core, s.obs[o]) && ObserverLinked(s.obs[o], |s.waiters|, |s.sets|);
  }

  /** The step logs a frame in the observer's run, or in the installed run of its thread. */
  ghost predicate Feeds(c: Core, c': Core, ob: Observer)
    requires Parallel(c) && Parallel(c') && |c.recs| <= |c'.recs| && (ob.bound.Some? ==> ob.bound.value < |c.recs|)
  {
    || (ob.bound.Some? && c'.logs[ob.bound.value] != c.logs[ob.bound.value])
    || (ob.thread in c.runs && c'.logs[c.runs[ob.thread]] != c.logs[c.runs[ob.thread]])
  }

  /** A step that gives a parked observer's run, or its thread's installed run, another frame wakes the observer. */
  lemma FrameWakes(s: Sys, e: CoreEvent, o: nat)
    requires SysInv(s) && Enabled(s.core, e) && o < |s.obs| && s.obs[o].stage.Parked?
    requires s.obs[o].bound.Some? ==> s.obs[o].bound.value < |s.core.recs|
    requires Feeds(s.core, Step(s.core, e), s.obs[o])
    ensures o < |OnCore(s, e).obs| && OnCore(s, e).obs[o] == s.obs[o].(stage := Woken(s.obs[o].stage.at))
  {
    OnCoreEffect(s, e);
    FedIsWoken(s, e, o);
  }

  lemma FedIsWoken(s: Sys, e: CoreEvent, o: nat)
    requires SysInv(s) && Enabled(s.core, e) && o < |s.obs| && s.obs[o].stage.Parked?
    requires s.obs[o].bound.Some? ==> s.obs[o].bound.value < |s.core.recs|
    requires Feeds(s.core, Step(s.core, e), s.obs[o])
    ensures IsWoken(s.core, e, s.obs[o])
  {
    var ob := s.obs[o];
    var c := s.core;
    assert Fine(c, ob) && ObserverLinked(ob, |s.waiters|, |s.sets|);
    if !IsWoken(c, e, ob) {
      UnwokenFine(c, e, ob);
      StepGrows(c, e);
      StepKeeps(c, e);
      if ob.thread in c.runs && Step(c, e).logs[c.runs[ob.thread]] != c.logs[c.runs[ob.thread]] {
        StillInstalled(c, e, ob.thread);
      }
    }
  }

  lemma StillInstalled(c: Core, e: CoreEvent, t: ThreadId)
    requires Inv(c) && Enabled(c, e) && t in c.runs && Step(c, e).logs[c.runs[t]] != c.logs[c.runs[t]]
    ensures t in Step(c, e).runs && Step(c, e).runs[t] == c.runs[t]
  {
  }

  /** Every observer hands out strictly increasing sequence numbers over its whole life. */
  lemma StrictlyIncreasing(cap: nat, es: seq<SysEvent>, s: Sys, o: nat, i: nat, j: nat)
    requires ReachableSys(cap, es, s) && o < |s.obs| && i < j < |s.obs[o].got|
    ensures s.obs[o].got[i].no < s.obs[o].got[j].no
  {
    ReachableIsSound(cap, es, s);
    assert Fine(s.core, s.obs[o]);
  }

  /**
    What an observer has handed out is, binding by binding and in order, the wanted frames at the ordinals it read. A
    run it has left was read to the end and never grows again. The ordinals below the cursor are exactly those it read
    and those it jumped, none both, and it jumped one only when the buffer no longer held it.
   */
  lemma ExactDelivery(cap: nat, es: seq<SysEvent>, s: Sys, o: nat)
    requires ReachableSys(cap, es, s) && o < |s.obs| && s.obs[o].bound.Some?
    ensures var ob := s.obs[o]; var c := s.core; var r := ob.bound.value;
      && ob.got == SelectPast(c.logs, ob.past, ob.filter) + Select(c.logs[r], ob.ords, ob.filter)
      && (forall i :: 0 <= i < |ob.past| ==> ob.past[i].run < r && LeftWell(c, ob.thread, ob.past[i]))
      && (forall i, j :: 0 <= i < j < |ob.past| ==> ob.past[i].run < ob.past[j].run)
      && Covers(ob.ords, ob.gaps, ob.cursor, c.rings[r].dropped)
  {
    ReachableIsSound(cap, es, s);
    assert Fine(s.core, s.obs[o]);
  }

  /** No step but an observer's own changes what it has jumped. */
  lemma OnlyReadingJumps(s: Sys, e: SysEvent, o: nat)
    requires Placed(s) && CanHappen(s, e) && o < |s.obs| && e != Go(o)
    ensures o < |Next(s, e).obs| && Next(s, e).obs[o].gaps == s.obs[o].gaps
  {
    if e.CoreEv? {
      OnCoreEffect(s, e.e);
    }
  }

  /** And after its own step the jumped ordinals are ones the buffer it read from does not hold. */
  lemma JumpsOnlyEvicted(s: Sys, o: nat)
    requires SysInv(s) && CanHappen(s, Go(o))
    ensures var s' := OnGo(s, o); s'.core == s.core && o < |s'.obs| && JumpedEvicted(s.core, s'.obs[o])
  {
    OnGoKeeps(s, o);
    assert Fine(s.core, OnGo(s, o).obs[o]);
  }

  ghost predicate JumpedEvicted(c: Core, ob: Observer) {
    ob.bound.Some? ==> ob.bound.value < |c.rings| && Climbs(ob.gaps, c.rings[ob.bound.value].dropped)
  }

  lemma ClimbEnds(ords: seq<nat>, limit: nat, k: nat)
    requires Climbs(ords, limit) && k < |ords| && ords[k] == limit - 1
    ensures k == |ords| - 1
  {
    var last := |ords| - 1;
    assert ords[last] < limit;
  }

  lemma {:induction false} ClimbLength(ords: seq<nat>, limit: nat)
    requires Climbs(ords, limit)
    ensures |ords| <= limit
  {
    if ords != [] {
      ClimbLength(ords[..|ords| - 1], ords[|ords| - 1]);
    }
  }

  /** A climbing list of everything below its limit is the whole range. */
  lemma {:induction false} FullClimbIsRange(ords: seq<nat>, limit: nat)
    requires Climbs(ords, limit) && forall k :: 0 <= k < limit ==> k in ords
    ensures ords == Range(0, limit)
    decreases limit
  {
    if limit == 0 {
      ClimbLength(ords, limit);
    } else {
      assert limit - 1 in ords;
      var k :| 0 <= k < |ords| && ords[k] == limit - 1;
      ClimbEnds(ords, limit, k);
      var front := ords[..k];
      forall n | 0 <= n < limit - 1 ensures n in front {
        assert n in ords;
        var i :| 0 <= i < |ords| && ords[i] == n;
        assert front[i] == n;
      }
      FullClimbIsRange(front, limit - 1);
      assert ords == front + [limit - 1];
    }
  }

  lemma NoGaps(ords: seq<nat>, gaps: seq<nat>, limit: nat)
    requires Covers(ords, gaps, limit, 0)
    ensures ords == Range(0, limit)
  {
    ClimbLength(gaps, 0);
    FullClimbIsRange(ords, limit);
  }

  /** With no eviction from the bound run, everything wanted below the cursor has been handed out. */
  lemma NothingMissed(cap: nat, es: seq<SysEvent>, s: Sys, o: nat)
    requires ReachableSys(cap, es, s) && o < |s.obs| && s.obs[o].bound.Some?
    requires s.core.rings[s.obs[o].bound.value].dropped == 0
    requires forall i :: 0 <= i < |s.obs[o].past| ==>
      s.obs[o].past[i].run < |s.core.rings| && s.core.rings[s.obs[o].past[i].run].dropped == 0
    ensures s.obs[o].ords == Range(0, s.obs[o].cursor)
    ensures forall i :: 0 <= i < |s.obs[o].past| ==>
      s.obs[o].past[i].ords == Range(0, |s.core.logs[s.obs[o].past[i].run]|)
  {
    var ob := s.obs[o];
    ExactDelivery(cap, es, s, o);
    NoGaps(ob.ords, ob.gaps, ob.cursor);
    forall i | 0 <= i < |ob.past|
      ensures ob.past[i].ords == Range(0, |s.core.logs[ob.past[i].run]|)
    {
      assert LeftWell(s.core, ob.thread, ob.past[i]);
      NoGaps(ob.past[i].ords, ob.past[i].gaps, |s.core.logs[ob.past[i].run]|);
    }
  }
}

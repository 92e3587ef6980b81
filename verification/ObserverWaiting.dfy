/** Who waits and who is woken: no wake without cause, no aborted observer asleep, no waiter set without a waiter. */
module ObserverWaiting {
  import opened Wrappers
  import opened RunManager
  import opened Observers
  import opened ObserverInvariant
  import opened ObserverTheorems

  // ---------------------------------------------------------------- what wakes

  /** A run's waiters are woken exactly when it has logged a frame or ended. */
  lemma WakesExactly(c: Core, e: CoreEvent, r: nat)
    requires Inv(c) && Enabled(c, e) && r < |c.recs|
    ensures WokenRun(c, e) == Some(r) <==>
      Step(c, e).logs[r] != c.logs[r] || (!c.recs[r].phase.Done? && Step(c, e).recs[r].phase.Done?)
  {
    if WokenRun(c, e) != Some(r) {
      UnwokenUnchanged(c, e, r);
    }
  }

  /** Raising a fence wakes every observer of the thread that waits for a run. */
  lemma FenceWakes(s: Sys, t: ThreadId, o: nat)
    requires Placed(s) && o < |s.obs| && s.obs[o].thread == t && s.obs[o].stage.Parked? && s.obs[o].stage.at.InSet?
    ensures o < |OnCore(s, BeginDeletion(t)).obs|
    ensures OnCore(s, BeginDeletion(t)).obs[o] == s.obs[o].(stage := Woken(s.obs[o].stage.at))
  {
    OnCoreEffect(s, BeginDeletion(t));
  }

  // ---------------------------------------------------------------- who waits

  predicate WaitsIn(ob: Observer, t: ThreadId, k: nat) {
    ob.thread == t && (ob.stage == Parked(InSet(k)) || ob.stage == Woken(InSet(k)))
  }

  ghost predicate Attended(obs: seq<Observer>, t: ThreadId, k: nat) {
    exists o :: 0 <= o < |obs| && WaitsIn(obs[o], t, k)
  }

  ghost predicate NoLeak(obs: seq<Observer>, runWaiters: map<ThreadId, nat>) {
    forall t <- runWaiters :: Attended(obs, t, runWaiters[t])
  }

  predicate Awake(obs: seq<Observer>) {
    forall o :: 0 <= o < |obs| && obs[o].aborted ==> !obs[o].stage.Parked?
  }

  lemma StillAttended(obs: seq<Observer>, obs': seq<Observer>, t: ThreadId, k: nat)
    requires Attended(obs, t, k) && |obs| <= |obs'|
    requires forall o :: 0 <= o < |obs| && WaitsIn(obs[o], t, k) ==> WaitsIn(obs'[o], t, k)
    ensures Attended(obs', t, k)
  {
    var o :| 0 <= o < |obs| && WaitsIn(obs[o], t, k);
    assert WaitsIn(obs'[o], t, k);
  }

  lemma RousingTidy(obs: seq<Observer>, obs': seq<Observer>, runWaiters: map<ThreadId, nat>)
    requires NoLeak(obs, runWaiters) && Awake(obs) && |obs'| == |obs|
    requires forall o :: 0 <= o < |obs| ==> obs'[o] == obs[o] || obs'[o] == Roused(obs[o], true)
    ensures NoLeak(obs', runWaiters) && Awake(obs')
  {
    forall t <- runWaiters ensures Attended(obs', t, runWaiters[t]) {
      StillAttended(obs, obs', t, runWaiters[t]);
    }
  }

  lemma CoreTidy(s: Sys, e: CoreEvent)
    requires Placed(s) && Enabled(s.core, e) && NoLeak(s.obs, s.runWaiters) && Awake(s.obs)
    ensures NoLeak(OnCore(s, e).obs, OnCore(s, e).runWaiters) && Awake(OnCore(s, e).obs)
  {
    OnCoreEffect(s, e);
    RousingTidy(s.obs, OnCore(s, e).obs, s.runWaiters);
    SameSets(s, e);
  }

  lemma SameSets(s: Sys, e: CoreEvent)
    requires Linked(s) && Enabled(s.core, e)
    ensures OnCore(s, e).runWaiters == s.runWaiters
  {
  }

  lemma GoTidy(s: Sys, o: nat)
    requires Placed(s) && CanHappen(s, Go(o)) && NoLeak(s.obs, s.runWaiters) && Awake(s.obs)
    ensures NoLeak(OnGo(s, o).obs, OnGo(s, o).runWaiters) && Awake(OnGo(s, o).obs)
  {
    var s' := OnGo(s, o);
    forall t <- s'.runWaiters ensures Attended(s'.obs, t, s'.runWaiters[t]) {
      if t in s.runWaiters {
        StillAttended(s.obs, s'.obs, t, s.runWaiters[t]);
      } else {
        assert WaitsIn(s'.obs[o], t, s'.runWaiters[t]);
      }
    }
  }

  lemma LeaveTidy(s: Sys, o: nat)
    requires Placed(s) && CanHappen(s, LeaveSet(o)) && NoLeak(s.obs, s.runWaiters) && Awake(s.obs)
    ensures NoLeak(OnLeave(s, o).obs, OnLeave(s, o).runWaiters) && Awake(OnLeave(s, o).obs)
  {
    var s' := OnLeave(s, o);
    forall t <- s'.runWaiters ensures Attended(s'.obs, t, s'.runWaiters[t]) {
      var k := s.runWaiters[t];
      if s.obs[o].stage == Woken(InSet(k)) && s.obs[o].thread == t {
        var i :| i in s.sets[k];
        assert s.obs[i].stage == Parked(InSet(k));
        assert WaitsIn(s'.obs[i], t, k);
      } else {
        StillAttended(s.obs, s'.obs, t, k);
      }
    }
  }

  lemma AbortTidy(s: Sys, o: nat)
    requires Placed(s) && CanHappen(s, AbortObserver(o)) && NoLeak(s.obs, s.runWaiters) && Awake(s.obs)
    ensures NoLeak(OnAbort(s, o).obs, OnAbort(s, o).runWaiters) && Awake(OnAbort(s, o).obs)
  {
    var s' := OnAbort(s, o);
    forall t <- s'.runWaiters ensures Attended(s'.obs, t, s'.runWaiters[t]) {
      StillAttended(s.obs, s'.obs, t, s.runWaiters[t]);
    }
  }

  lemma NextTidy(s: Sys, e: SysEvent)
    requires Placed(s) && CanHappen(s, e) && NoLeak(s.obs, s.runWaiters) && Awake(s.obs)
    ensures NoLeak(Next(s, e).obs, Next(s, e).runWaiters) && Awake(Next(s, e).obs)
  {
    match e
    case CoreEv(ce) => CoreTidy(s, ce);
    case Observe(_, _) =>
      forall t <- s.runWaiters ensures Attended(Next(s, e).obs, t, s.runWaiters[t]) {
        StillAttended(s.obs, Next(s, e).obs, t, s.runWaiters[t]);
      }
    case Go(o) => GoTidy(s, o);
    case LeaveSet(o) => LeaveTidy(s, o);
    case AbortObserver(o) => AbortTidy(s, o);
  }

  lemma {:induction false} HistoryTidy(s: Sys, es: seq<SysEvent>)
    requires SysInv(s) && CanRunSys(s, es) && NoLeak(s.obs, s.runWaiters) && Awake(s.obs)
    ensures NoLeak(AfterSys(s, es).obs, AfterSys(s, es).runWaiters) && Awake(AfterSys(s, es).obs)
    decreases |es|
  {
    if es != [] {
      NextKeeps(s, es[0]);
      NextTidy(s, es[0]);
      HistoryTidy(Next(s, es[0]), es[1..]);
    }
  }

  lemma ReachableTidy(cap: nat, es: seq<SysEvent>, s: Sys)
    requires ReachableSys(cap, es, s)
    ensures Linked(s) && NoLeak(s.obs, s.runWaiters) && Awake(s.obs)
  {
    InitFine(cap);
    HistoryTidy(InitSys(cap), es);
  }

  lemma InitFine(cap: nat)
    requires cap >= 1
    ensures SysInv(InitSys(cap))
  {
  }

  /** A thread keeps a shared waiter set only while someone of that thread waits in it or is on the way out of it. */
  lemma NoSetLeaks(cap: nat, es: seq<SysEvent>, s: Sys, t: ThreadId)
    requires ReachableSys(cap, es, s) && t in s.runWaiters
    ensures exists o :: 0 <= o < |s.obs| && WaitsIn(s.obs[o], t, s.runWaiters[t])
  {
    ReachableTidy(cap, es, s);
    assert Attended(s.obs, t, s.runWaiters[t]);
  }

  lemma AwakeMoves(s: Sys, o: nat)
    requires Linked(s) && Awake(s.obs) && o < |s.obs| && s.obs[o].aborted
    ensures s.obs[o].stage.Over? || CanHappen(s, Go(o)) || CanHappen(s, LeaveSet(o))
  {
  }

  /** An aborted observer is never asleep: it can run, or leave the set it was woken in, until it is over. */
  lemma AbortedMoves(cap: nat, es: seq<SysEvent>, s: Sys, o: nat)
    requires ReachableSys(cap, es, s) && o < |s.obs| && s.obs[o].aborted
    ensures Linked(s) && (s.obs[o].stage.Over? || CanHappen(s, Go(o)) || CanHappen(s, LeaveSet(o)))
  {
    ReachableTidy(cap, es, s);
    AwakeMoves(s, o);
  }
}

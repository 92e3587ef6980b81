/** That no finished run is kept for ever: an eviction timer, or a discard, takes it out of the map. */
module RunForgetting {
  import opened Wrappers
  import opened Frames
  import opened RunManager
  import opened RunInvariant
  import opened RunTheorems
  import opened RunEffects

  /** A discard under way that will take the run out of the map. */
  ghost predicate Leaving(c: Core, r: nat) {
    r < |c.recs| && exists d :: 0 <= d < |c.drains| && LeavesBy(c.drains[d], c.recs[r].thread, r)
  }

  predicate LeavesBy(drain: Drain, t: ThreadId, r: nat) {
    !drain.closed && drain.thread == t && drain.current == Some(r)
  }

  /** Every installed run that is finished is about to be forgotten. */
  ghost predicate Kept(c: Core)
    requires Parallel(c)
  {
    forall t <- c.runs :: KeptRun(c, c.runs[t])
  }

  ghost predicate KeptRun(c: Core, r: nat)
    requires r < |c.recs|
  {
    && (c.recs[r].discarded ==> Leaving(c, r))
    && (c.recs[r].phase.Done? ==> c.recs[r].timer || Leaving(c, r))
  }

  lemma StillLeaving(c: Core, c': Core, r: nat)
    requires Leaving(c, r) && r < |c'.recs| && c'.recs[r].thread == c.recs[r].thread
    requires |c.drains| <= |c'.drains|
    requires forall d :: 0 <= d < |c.drains| && c.drains[d].current == Some(r) ==> c'.drains[d] == c.drains[d]
    ensures Leaving(c', r)
  {
    var d :| 0 <= d < |c.drains| && LeavesBy(c.drains[d], c.recs[r].thread, r);
    assert LeavesBy(c'.drains[d], c.recs[r].thread, r);
  }

  lemma FinishKeepsKept(c: Core, r: nat, status: Status)
    requires Parallel(c) && r < |c.recs| && Kept(c)
    ensures Parallel(Finish(c, r, status)) && Kept(Finish(c, r, status))
  {
    var c' := Finish(c, r, status);
    forall t <- c'.runs ensures KeptRun(c', c'.runs[t]) {
      assert KeptRun(c, c.runs[t]);
      if Leaving(c, c.runs[t]) {
        StillLeaving(c, c', c.runs[t]);
      }
    }
  }

  lemma SameFlagsKept(c: Core, c': Core)
    requires Parallel(c) && Parallel(c') && Kept(c) && c'.runs == c.runs && c'.drains == c.drains
    requires |c'.recs| == |c.recs|
    requires forall r :: 0 <= r < |c.recs| ==>
      && c'.recs[r].thread == c.recs[r].thread && c'.recs[r].discarded == c.recs[r].discarded
      && c'.recs[r].timer == c.recs[r].timer && (c'.recs[r].phase.Done? ==> c.recs[r].phase.Done?)
    ensures Kept(c')
  {
    forall t <- c'.runs ensures KeptRun(c', c'.runs[t]) {
      assert KeptRun(c, c.runs[t]);
      if Leaving(c, c.runs[t]) {
        StillLeaving(c, c', c.runs[t]);
      }
    }
  }

  lemma FinalizeKeepsKept(c: Core, r: nat, failed: bool)
    requires Parallel(c) && r < |c.recs| && Kept(c)
    ensures Parallel(Finalize(c, r, failed)) && Kept(Finalize(c, r, failed))
  {
    var t := Decided(c, r, failed);
    if t.synthesize.Some? {
      SameFlagsKept(c, Append(c, r, LifecycleFrame(t.synthesize.value)));
      FinishKeepsKept(Append(c, r, LifecycleFrame(t.synthesize.value)), r, t.status);
    } else {
      FinishKeepsKept(c, r, t.status);
    }
  }

  lemma StartKeepsKept(c: Core, t: ThreadId, name: nat, resume: bool)
    requires Inv(c) && Kept(c)
    ensures Parallel(Start(c, t, name, resume)) && Kept(Start(c, t, name, resume))
  {
    var c' := Start(c, t, name, resume);
    if !c.closing && t !in c.deleting {
      forall u <- c'.runs ensures KeptRun(c', c'.runs[u]) {
        if u != t {
          assert KeptRun(c, c.runs[u]);
          StartAborts(c, t, name, resume, c.runs[u]);
          if Leaving(c, c.runs[u]) {
            StillLeaving(c, c', c.runs[u]);
          }
        }
      }
    }
  }

  lemma DiscardKeepsKept(c: Core, t: ThreadId)
    requires Inv(c) && Kept(c)
    ensures Parallel(Discard(c, t)) && Kept(Discard(c, t))
  {
    var c' := Discard(c, t);
    forall u <- c'.runs ensures KeptRun(c', c'.runs[u]) {
      var r := c.runs[u];
      assert KeptRun(c, r);
      DiscardExactly(c, t, r);
      if u == t {
        assert LeavesBy(c'.drains[|c.drains|], t, r);
      } else if Leaving(c, r) {
        StillLeaving(c, c', r);
      }
    }
  }

  lemma DrainKeepsKept(c: Core, d: nat)
    requires Inv(c) && Kept(c) && Enabled(c, DrainSettled(d))
    ensures Kept(EndDrain(c, d))
  {
    var c' := EndDrain(c, d);
    assert DrainOk(c.recs, c.drains[d]);
    forall u <- c'.runs ensures KeptRun(c', c'.runs[u]) {
      assert KeptRun(c, c.runs[u]);
      assert c.drains[d].current != Some(c.runs[u]);
      if Leaving(c, c.runs[u]) {
        StillLeaving(c, c', c.runs[u]);
      }
    }
  }

  lemma TimerKeepsKept(c: Core, r: nat)
    requires Inv(c) && Kept(c) && Enabled(c, EvictTimer(r))
    ensures Kept(Evict(c, r))
  {
    var c' := Evict(c, r);
    forall u <- c'.runs ensures KeptRun(c', c'.runs[u]) {
      assert KeptRun(c, c.runs[u]);
      if Leaving(c, c.runs[u]) {
        StillLeaving(c, c', c.runs[u]);
      }
    }
  }

  lemma YieldKeepsKept(c: Core, e: CoreEvent)
    requires Parallel(c) && Kept(c) && Enabled(c, e) && (e.StreamYield? || e.LowerFence?)
    ensures Kept(Step(c, e))
  {
    SameFlagsKept(c, Step(c, e));
  }

  lemma AbortKeepsKept(c: Core, doomed: set<nat>, closing: bool)
    requires Parallel(c) && Kept(c)
    ensures Kept(c.(recs := AbortAll(c.recs, doomed), closing := closing))
  {
    SameFlagsKept(c, c.(recs := AbortAll(c.recs, doomed), closing := closing));
  }

  lemma PumpKeepsKept(c: Core, e: CoreEvent)
    requires Inv(c) && Kept(c) && Enabled(c, e)
    requires e.PriorSettled? || e.StreamEnd? || e.StreamThrow? || e.StreamClosed?
    ensures Kept(Step(c, e))
  {
    match e
    case PriorSettled(r) =>
      if c.recs[r].aborted {
        FinishKeepsKept(c, r, Cancelled);
      } else {
        SameFlagsKept(c, Step(c, e));
      }
    case StreamThrow(r) =>
      if !c.recs[r].aborted {
        SameFlagsKept(c, Append(c, r, LifecycleFrame(Failed)));
        FinalizeKeepsKept(Append(c, r, LifecycleFrame(Failed)), r, true);
      } else {
        FinalizeKeepsKept(c, r, false);
      }
    case StreamEnd(r) => FinalizeKeepsKept(c, r, false);
    case StreamClosed(r) => FinalizeKeepsKept(c, r, false);
  }

  lemma StepKeepsKept(c: Core, e: CoreEvent)
    requires Inv(c) && Kept(c) && Enabled(c, e)
    ensures Kept(Step(c, e))
  {
    match e
    case StartRun(t, name, resume) => StartKeepsKept(c, t, name, resume);
    case DiscardThread(t) => DiscardKeepsKept(c, t);
    case BeginDeletion(t) =>
      FencesKeep(c, c.deleting + {t}, c.closing);
      DiscardKeepsKept(c.(deleting := c.deleting + {t}), t);
    case DrainSettled(d) => DrainKeepsKept(c, d);
    case EvictTimer(r) => TimerKeepsKept(c, r);
    case PriorSettled(_) => PumpKeepsKept(c, e);
    case StreamEnd(_) => PumpKeepsKept(c, e);
    case StreamThrow(_) => PumpKeepsKept(c, e);
    case StreamClosed(_) => PumpKeepsKept(c, e);
    case CancelRun(t, _) =>
      if t in c.runs {
        AbortKeepsKept(c, {c.runs[t]}, c.closing);
      }
    case Shutdown => AbortKeepsKept(c, c.active, true);
    case StreamYield(_, _) => YieldKeepsKept(c, e);
    case LowerFence(_) => YieldKeepsKept(c, e);
  }

  lemma {:induction false} HistoryKeepsKept(c: Core, es: seq<CoreEvent>)
    requires Inv(c) && Kept(c) && CanRun(c, es)
    ensures Kept(After(c, es))
    decreases |es|
  {
    if es != [] {
      StepKeeps(c, es[0]);
      StepKeepsKept(c, es[0]);
      HistoryKeepsKept(Step(c, es[0]), es[1..]);
    }
  }

  /** No finished run is kept for ever: if installed, its eviction timer is armed or a discard is removing it. */
  lemma FinishedIsForgotten(cap: nat, es: seq<CoreEvent>, t: ThreadId)
    requires cap >= 1 && CanRun(Init(cap), es) && t in After(Init(cap), es).runs
    ensures var c := After(Init(cap), es); var r := c.runs[t];
      r < |c.recs| && (c.recs[r].phase.Done? ==> c.recs[r].timer || Leaving(c, r))
  {
    HistoryKeepsKept(Init(cap), es);
    assert KeptRun(After(Init(cap), es), After(Init(cap), es).runs[t]);
  }
}

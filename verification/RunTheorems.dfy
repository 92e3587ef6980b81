/** What the run manager guarantees over every interleaving of its events. */
module RunTheorems {
  import opened Frames
  import opened RunManager
  import opened RunInvariant

  /** Every event of `es`, in order, can happen from `c`. */
  ghost predicate CanRun(c: Core, es: seq<CoreEvent>)
    decreases |es|
  {
    Parallel(c) && (es == [] || (Enabled(c, es[0]) && CanRun(Step(c, es[0]), es[1..])))
  }

  ghost function After(c: Core, es: seq<CoreEvent>): (c': Core)
    requires CanRun(c, es)
    ensures Parallel(c') && c'.cap == c.cap
    decreases |es|
  {
    if es == [] then c else After(Step(c, es[0]), es[1..])
  }

  lemma {:induction false} RunsKeep(c: Core, es: seq<CoreEvent>)
    requires Inv(c) && CanRun(c, es)
    ensures Inv(After(c, es))
    decreases |es|
  {
    if es != [] {
      StepKeeps(c, es[0]);
      RunsKeep(Step(c, es[0]), es[1..]);
    }
  }

  lemma Reachable(cap: nat, es: seq<CoreEvent>)
    requires cap >= 1 && CanRun(Init(cap), es)
    ensures Inv(After(Init(cap), es))
  {
    RunsKeep(Init(cap), es);
  }

  /** A state the run manager can be in. */
  ghost predicate IsReachable(c: Core) {
    exists cap, es :: cap >= 1 && CanRun(Init(cap), es) && c == After(Init(cap), es)
  }

  lemma ReachableInv(c: Core)
    requires IsReachable(c)
    ensures Inv(c)
  {
    var cap, es :| cap >= 1 && CanRun(Init(cap), es) && c == After(Init(cap), es);
    Reachable(cap, es);
  }

  ghost predicate Pumping(c: Core, r: nat) {
    r < |c.recs| && (c.recs[r].phase.Streaming? || c.recs[r].phase.Closing?)
  }

  /** In every reachable state a thread has at most one run inside its streaming loop. */
  lemma OneStreamPerThread(c: Core, q: nat, r: nat)
    requires IsReachable(c) && Pumping(c, q) && Pumping(c, r) && c.recs[q].thread == c.recs[r].thread
    ensures q == r
  {
    ReachableInv(c);
  }

  /** Every run of the thread before r is finished. */
  ghost predicate OlderDone(recs: seq<Run>, r: nat)
    requires r < |recs|
  {
    forall s :: 0 <= s < r && recs[s].thread == recs[r].thread ==> recs[s].phase.Done?
  }

  /**
    In every reachable state the unfinished runs of a thread form a queue: the newest is installed,
    every other is aborted, only the oldest can be pumping, and each of the rest waits for the one before it.
   */
  lemma UnfinishedRunsQueue(c: Core, r: nat)
    requires IsReachable(c) && Unfinished(c, r)
    ensures var t := c.recs[r].thread;
      && t in c.runs && r <= c.runs[t] < |c.recs| && c.recs[c.runs[t]].thread == t
      && (forall s :: c.runs[t] < s < |c.recs| ==> c.recs[s].thread != t)
      && (r != c.runs[t] ==> c.recs[r].aborted)
      && (Pumping(c, r) ==> OlderDone(c.recs, r))
    ensures c.recs[r].phase.Queued? ==>
      var p := c.recs[r].phase.prior;
      && p < r && c.recs[p].thread == c.recs[r].thread
      && (forall s :: p < s < r ==> c.recs[s].thread != c.recs[r].thread)
      && (c.recs[p].phase.Done? ==> OlderDone(c.recs, r))
  {
    ReachableInv(c);
    if c.recs[r].phase.Queued? {
      QueuedBehindOldest(c.recs, r);
    }
  }

  lemma QueuedBehindOldest(recs: seq<Run>, r: nat)
    requires Chained(recs) && Serial(recs) && r < |recs| && recs[r].phase.Queued?
    ensures recs[r].phase.prior < r && (recs[recs[r].phase.prior].phase.Done? ==> OlderDone(recs, r))
  {
    var p := recs[r].phase.prior;
    if recs[p].phase.Done? {
      forall s | 0 <= s < r && recs[s].thread == recs[r].thread ensures recs[s].phase.Done? {
        assert s <= p;
      }
    }
  }

  // ---------------------------------------------------------------- logs

  /** No step shortens or rewrites a log, forgets a run, revives one, or lowers `dropped`. */
  ghost predicate Grows(c: Core, c': Core) {
    && Parallel(c) && Parallel(c')
    && |c.recs| <= |c'.recs|
    && c.counter <= c'.counter
    && (forall r :: 0 <= r < |c.recs| ==>
          && c'.recs[r].thread == c.recs[r].thread
          && (c.recs[r].phase.Done? ==> c'.recs[r].phase.Done?)
          && c.logs[r] <= c'.logs[r]
          && c.rings[r].dropped <= c'.rings[r].dropped)
  }

  lemma AppendGrows(c: Core, r: nat, ev: Event)
    requires Parallel(c) && r < |c.recs|
    ensures Grows(c, Append(c, r, ev))
  {
  }

  lemma FinalizeGrows(c: Core, r: nat, failed: bool)
    requires Parallel(c) && r < |c.recs|
    ensures Grows(c, Finalize(c, r, failed))
  {
    var t := Decided(c, r, failed);
    if t.synthesize.Some? {
      AppendGrows(c, r, LifecycleFrame(t.synthesize.value));
    }
  }

  lemma ThrowGrows(c: Core, r: nat)
    requires Parallel(c) && Enabled(c, StreamThrow(r))
    ensures Grows(c, Step(c, StreamThrow(r)))
  {
    if c.recs[r].aborted {
      FinalizeGrows(c, r, false);
    } else {
      AppendGrows(c, r, LifecycleFrame(Failed));
      FinalizeGrows(Append(c, r, LifecycleFrame(Failed)), r, true);
    }
  }

  lemma PumpGrows(c: Core, e: CoreEvent)
    requires Parallel(c) && Enabled(c, e)
    requires e.PriorSettled? || e.StreamYield? || e.StreamEnd? || e.StreamThrow? || e.StreamClosed?
    ensures Grows(c, Step(c, e))
  {
    match e
    case PriorSettled(r) =>
    case StreamYield(r, ev) => AppendGrows(c, r, ev);
    case StreamEnd(r) => FinalizeGrows(c, r, false);
    case StreamClosed(r) => FinalizeGrows(c, r, false);
    case StreamThrow(r) => ThrowGrows(c, r);
  }

  lemma StepGrows(c: Core, e: CoreEvent)
    requires Parallel(c) && Enabled(c, e)
    ensures Grows(c, Step(c, e))
  {
    if e.PriorSettled? || e.StreamYield? || e.StreamEnd? || e.StreamThrow? || e.StreamClosed? {
      PumpGrows(c, e);
    }
  }

  /** A run that is finished, or that a newer run of its thread has superseded. */
  ghost predicate Frozen(c: Core, r: nat) {
    r < |c.recs| && (c.recs[r].phase.Done? || exists s :: r < s < |c.recs| && c.recs[s].thread == c.recs[r].thread)
  }

  lemma FrozenIsAborted(c: Core, r: nat)
    requires Inv(c) && Frozen(c, r) && !c.recs[r].phase.Done?
    ensures c.recs[r].aborted && Superseded(c, r)
  {
  }

  lemma FrozenFinalize(c: Core, q: nat, failed: bool, r: nat)
    requires Parallel(c) && q < |c.recs| && r < |c.recs| && (q == r ==> c.recs[q].aborted && Superseded(c, q))
    ensures Finalize(c, q, failed).logs[r] == c.logs[r] && Finalize(c, q, failed).rings[r] == c.rings[r]
  {
  }

  lemma FrozenStep(c: Core, e: CoreEvent, r: nat)
    requires Inv(c) && Enabled(c, e) && Frozen(c, r)
    ensures Step(c, e).logs[r] == c.logs[r] && Step(c, e).rings[r] == c.rings[r]
    ensures Frozen(Step(c, e), r)
  {
    StepGrows(c, e);
    if !c.recs[r].phase.Done? {
      FrozenIsAborted(c, r);
    }
    match e
    case StreamEnd(q) => FrozenFinalize(c, q, false, r);
    case StreamClosed(q) => FrozenFinalize(c, q, false, r);
    case StreamThrow(q) =>
      if c.recs[q].aborted {
        FrozenFinalize(c, q, false, r);
      } else {
        FrozenFinalize(Append(c, q, LifecycleFrame(Failed)), q, true, r);
      }
    case _ =>
  }

  /** Once a run is superseded or finished, no later event adds a frame to it or evicts one from it. */
  lemma {:induction false} FrozenForever(c: Core, es: seq<CoreEvent>, r: nat)
    requires Inv(c) && CanRun(c, es) && Frozen(c, r)
    ensures r < |After(c, es).recs|
    ensures After(c, es).logs[r] == c.logs[r] && After(c, es).rings[r] == c.rings[r]
    decreases |es|
  {
    if es != [] {
      FrozenStep(c, es[0], r);
      StepKeeps(c, es[0]);
      FrozenForever(Step(c, es[0]), es[1..], r);
    }
  }

  /**
    The ring buffer refines the unbounded log: it holds the newest min(cap, |log|) frames, at ordinals from `dropped`.
   */
  lemma RingRefinesLog(c: Core, r: nat, k: nat)
    requires IsReachable(c) && r < |c.recs| && r < |c.logs| && k < |c.logs[r]|
    ensures r < |c.rings| && var ring := c.rings[r];
      && ring.dropped + |ring.buffer| == |c.logs[r]|
      && (k >= ring.dropped ==> ring.buffer[k - ring.dropped] == c.logs[r][k])
      && (k < ring.dropped <==> k + c.cap < |c.logs[r]|)
  {
    ReachableInv(c);
    RingAt(c.rings[r], c.logs[r], c.cap, k);
  }

  lemma RingAt(ring: Ring, log: seq<Frame>, cap: nat, k: nat)
    requires RingOf(ring, log, cap) && k < |log|
    ensures ring.dropped + |ring.buffer| == |log|
    ensures k >= ring.dropped ==> ring.buffer[k - ring.dropped] == log[k]
    ensures k < ring.dropped <==> k + cap < |log|
  {
  }

  // ---------------------------------------------------------------- ends

  ghost predicate Ended(c: Core, r: nat) {
    r < |c.recs| && c.recs[r].phase.Done?
  }

  /** How many steps of a history finish run `r`. */
  ghost function Finishes(c: Core, es: seq<CoreEvent>, r: nat): nat
    requires CanRun(c, es)
    decreases |es|
  {
    if es == [] then 0
    else
      var c1 := Step(c, es[0]);
      (if Ended(c1, r) && !Ended(c, r) then 1 else 0) + Finishes(c1, es[1..], r)
  }

  lemma EndedStays(c: Core, e: CoreEvent, r: nat)
    requires Parallel(c) && Enabled(c, e) && Ended(c, r)
    ensures Ended(Step(c, e), r)
  {
    StepGrows(c, e);
  }

  lemma {:induction false} FinishCount(c: Core, es: seq<CoreEvent>, r: nat)
    requires CanRun(c, es)
    ensures Finishes(c, es, r) == if Ended(After(c, es), r) && !Ended(c, r) then 1 else 0
    ensures Ended(c, r) ==> Ended(After(c, es), r)
    decreases |es|
  {
    if es != [] {
      if Ended(c, r) {
        EndedStays(c, es[0], r);
      }
      FinishCount(Step(c, es[0]), es[1..], r);
    }
  }

  /** Every run is finished at most once; it has exactly one end event if finished undiscarded, and none otherwise. */
  lemma FinishedOnce(cap: nat, es: seq<CoreEvent>, r: nat)
    requires cap >= 1 && CanRun(Init(cap), es)
    requires r < |After(Init(cap), es).recs|
    ensures var c := After(Init(cap), es);
      && Finishes(Init(cap), es, r) == (if c.recs[r].phase.Done? then 1 else 0)
      && (HasEnd(c.ends, r) <==> c.recs[r].phase.Done? && !c.recs[r].discarded)
      && (forall i, j :: 0 <= i < |c.ends| && 0 <= j < |c.ends| && c.ends[i].run == r == c.ends[j].run ==> i == j)
  {
    Reachable(cap, es);
    FinishCount(Init(cap), es, r);
    var c := After(Init(cap), es);
    if HasEnd(c.ends, r) {
      var i :| 0 <= i < |c.ends| && c.ends[i].run == r;
      assert EndOf(c.recs, c.ends[i]);
    }
  }
}

/** Every step of the run manager keeps its invariant. */
module RunInvariant {
  import opened Wrappers
  import opened Frames
  import opened RunManager

  lemma PushKeepsRing(ring: Ring, log: seq<Frame>, cap: nat, f: Frame)
    requires cap >= 1 && RingOf(ring, log, cap)
    ensures RingOf(Push(ring, cap, f), log + [f], cap)
  {
    var log' := log + [f];
    assert ring.buffer + [f] == log'[ring.dropped..];
    assert forall k :: 0 <= k < |log| ==> log'[k] == log[k];
    assert log'[|log|] == f;
    assert HasTerminal(log') <==> HasTerminal(log) || IsTerminalRoot(f.ev);
    assert HasInterrupt(log') <==> HasInterrupt(log) || (IsTerminalRoot(f.ev) && IsInterrupted(f.ev));
  }

  lemma PushKeepsStamped(recs: seq<Run>, logs: seq<seq<Frame>>, counter: nat, r: nat, f: Frame)
    requires |recs| == |logs| && Stamped(recs, logs, counter) && r < |recs| && f.no == counter
    requires forall s :: r < s < |recs| && recs[s].thread == recs[r].thread ==> logs[s] == []
    ensures Stamped(recs, logs[r := logs[r] + [f]], counter + 1)
  {
    var logs' := logs[r := logs[r] + [f]];
    forall s | 0 <= s < |logs'|
      ensures Ascending(logs'[s]) && Below(logs'[s], counter + 1)
    {
      assert Below(logs[s], counter);
    }
    forall q, s | 0 <= q < s < |recs| && recs[q].thread == recs[s].thread
      ensures AllBefore(logs'[q], logs'[s])
    {
      assert AllBefore(logs[q], logs[s]) && Below(logs[q], counter);
    }
  }

  lemma NewerRunsAreSilent(recs: seq<Run>, logs: seq<seq<Frame>>, r: nat)
    requires |recs| == |logs| && Serial(recs) && Silent(recs, logs) && r < |recs| && !recs[r].phase.Done?
    ensures forall s :: r < s < |recs| && recs[s].thread == recs[r].thread ==> recs[s].phase.Queued? && logs[s] == []
  {
  }

  lemma AppendKeepsContent(
    cap: nat, recs: seq<Run>, rings: seq<Ring>, logs: seq<seq<Frame>>, counter: nat, r: nat, f: Frame)
    requires |recs| == |rings| == |logs| && Content(cap, recs, rings, logs, counter) && Serial(recs) && cap >= 1
    requires r < |recs| && (recs[r].phase.Streaming? || recs[r].phase.Closing?) && f.no == counter
    ensures Content(cap, recs, rings[r := Push(rings[r], cap, f)], logs[r := logs[r] + [f]], counter + 1)
  {
    PushKeepsRing(rings[r], logs[r], cap, f);
    NewerRunsAreSilent(recs, logs, r);
    PushKeepsStamped(recs, logs, counter, r, f);
  }

  lemma AppendKeeps(c: Core, r: nat, ev: Event)
    requires Inv(c) && r < |c.recs| && (c.recs[r].phase.Streaming? || c.recs[r].phase.Closing?)
    ensures Inv(Append(c, r, ev))
  {
    AppendKeepsContent(c.cap, c.recs, c.rings, c.logs, c.counter, r, Frame(c.counter, ev));
  }

  /** A run leaves its phase only forward, and leaves the queue only when its prior run is finished. */
  ghost predicate PhaseMoves(recs: seq<Run>, r: nat, to: Phase)
    requires r < |recs|
  {
    var from := recs[r].phase;
    || to == from
    || (from.Queued? && from.prior < |recs| && recs[from.prior].phase.Done? && (to.Streaming? || to.Done?))
    || (from.Streaming? && (to.Closing? || to.Done?))
    || (from.Closing? && to.Done?)
  }

  /** An in-place change of control fields that creates, installs and uninstalls nothing. */
  ghost predicate Moves(recs: seq<Run>, recs': seq<Run>) {
    && |recs| == |recs'|
    && (forall r :: 0 <= r < |recs| ==>
          && recs'[r].thread == recs[r].thread
          && (recs[r].aborted ==> recs'[r].aborted)
          && PhaseMoves(recs, r, recs'[r].phase))
  }

  lemma MovesKeepQueue(runs: map<ThreadId, nat>, recs: seq<Run>, recs': seq<Run>)
    requires Installed(runs, recs) && Chained(recs) && Serial(recs) && Moves(recs, recs')
    ensures Installed(runs, recs') && Chained(recs') && Serial(recs')
  {
    forall q, r | 0 <= q < r < |recs'| && recs'[q].thread == recs'[r].thread && !recs'[r].phase.Queued?
      ensures recs'[q].phase.Done?
    {
      if recs[r].phase.Queued? {
        var p := recs[r].phase.prior;
        assert q <= p;
      }
    }
  }

  /** A move that finishes no run: finished runs keep all but their timer. */
  ghost predicate Quiet(recs: seq<Run>, recs': seq<Run>) {
    && Moves(recs, recs')
    && (forall r :: 0 <= r < |recs| ==>
          && (recs'[r].phase.Done? <==> recs[r].phase.Done?)
          && (recs'[r].timer ==> recs[r].timer)
          && (recs[r].phase.Done? ==> recs'[r].aborted == recs[r].aborted && recs'[r].discarded == recs[r].discarded))
  }

  lemma QuietKeepsRest(recs: seq<Run>, recs': seq<Run>, ends: seq<RunEnd>, drains: seq<Drain>)
    requires Quiet(recs, recs') && EndsOnce(recs, ends) && Timers(recs) && Draining(recs, drains)
    ensures EndsOnce(recs', ends) && Timers(recs') && Draining(recs', drains)
  {
    forall i | 0 <= i < |ends| ensures EndOf(recs', ends[i]) {
      assert EndOf(recs, ends[i]);
    }
    forall d | 0 <= d < |drains| ensures DrainOk(recs', drains[d]) {
      assert DrainOk(recs, drains[d]);
    }
  }

  lemma MovesKeepContent(
    cap: nat, recs: seq<Run>, recs': seq<Run>, rings: seq<Ring>, logs: seq<seq<Frame>>, counter: nat)
    requires |recs| == |rings| == |logs| && Content(cap, recs, rings, logs, counter) && Moves(recs, recs')
    ensures Content(cap, recs', rings, logs, counter)
  {
  }

  lemma QuietKeeps(c: Core, recs': seq<Run>)
    requires Inv(c) && Quiet(c.recs, recs')
    ensures Inv(c.(recs := recs'))
  {
    MovesKeepQueue(c.runs, c.recs, recs');
    QuietKeepsRest(c.recs, recs', c.ends, c.drains);
    MovesKeepContent(c.cap, c.recs, recs', c.rings, c.logs, c.counter);
  }

  function Finished(recs: seq<Run>, r: nat): seq<Run>
    requires r < |recs|
  {
    recs[r := recs[r].(phase := Done, timer := !recs[r].discarded)]
  }

  lemma FinishMoves(recs: seq<Run>, r: nat)
    requires r < |recs| && !recs[r].phase.Done?
    requires recs[r].phase.Queued? ==> recs[r].phase.prior < |recs| && recs[recs[r].phase.prior].phase.Done?
    ensures Moves(recs, Finished(recs, r))
  {
  }

  lemma FinishKeeps(c: Core, r: nat, status: Status)
    requires Inv(c) && Unfinished(c, r)
    requires c.recs[r].phase.Queued? ==> c.recs[r].phase.prior < |c.recs| && c.recs[c.recs[r].phase.prior].phase.Done?
    requires status == Cancelled <==> c.recs[r].aborted
    ensures Inv(Finish(c, r, status))
  {
    var recs' := Finished(c.recs, r);
    FinishMoves(c.recs, r);
    MovesKeepQueue(c.runs, c.recs, recs');
    MovesKeepContent(c.cap, c.recs, recs', c.rings, c.logs, c.counter);
    FinishKeepsEnds(c.recs, c.ends, r, status);
    FinishKeepsDrains(c.recs, c.drains, r);
  }

  lemma FinishKeepsEnds(recs: seq<Run>, ends: seq<RunEnd>, r: nat, status: Status)
    requires EndsOnce(recs, ends) && r < |recs| && !recs[r].phase.Done?
    requires status == Cancelled <==> recs[r].aborted
    ensures var run := recs[r];
      EndsOnce(Finished(recs, r), if run.discarded then ends else ends + [RunEnd(r, run.thread, status, run.resume)])
  {
    var run, recs' := recs[r], Finished(recs, r);
    var ends' := if run.discarded then ends else ends + [RunEnd(r, run.thread, status, run.resume)];
    forall i | 0 <= i < |ends| ensures EndOf(recs', ends[i]) && ends[i].run != r {
      assert EndOf(recs, ends[i]);
    }
    forall s | 0 <= s < |recs'| && recs'[s].phase.Done? && !recs'[s].discarded
      ensures HasEnd(ends', s)
    {
      if s == r {
        assert ends'[|ends|].run == r;
      } else {
        var i :| 0 <= i < |ends| && ends[i].run == s;
        assert ends'[i].run == s;
      }
    }
  }

  lemma FinishKeepsDrains(recs: seq<Run>, drains: seq<Drain>, r: nat)
    requires Draining(recs, drains) && Timers(recs) && r < |recs| && !recs[r].phase.Done?
    ensures Draining(Finished(recs, r), drains) && Timers(Finished(recs, r))
  {
    forall d | 0 <= d < |drains| ensures DrainOk(Finished(recs, r), drains[d]) {
      assert DrainOk(recs, drains[d]);
    }
  }

  lemma FinalizeKeeps(c: Core, r: nat, failed: bool)
    requires Inv(c) && r < |c.recs| && (c.recs[r].phase.Streaming? || c.recs[r].phase.Closing?)
    ensures Inv(Finalize(c, r, failed))
  {
    var t := Decided(c, r, failed);
    if t.synthesize.Some? {
      AppendKeeps(c, r, LifecycleFrame(t.synthesize.value));
      FinishKeeps(Append(c, r, LifecycleFrame(t.synthesize.value)), r, t.status);
    } else {
      FinishKeeps(c, r, t.status);
    }
  }

  /** Adds a record for a new run of `t` and installs it. */
  function Enter(c: Core, t: ThreadId, run: Run): Core {
    c.(runs := c.runs[t := |c.recs|], recs := c.recs + [run], rings := c.rings + [Ring([], 0, false, false)],
       logs := c.logs + [[]], active := c.active + {|c.recs|})
  }

  predicate Follows(runs: map<ThreadId, nat>, recs: seq<Run>, t: ThreadId, run: Run)
    requires t in runs ==> runs[t] < |recs|
  {
    && run.thread == t && !run.phase.Done?
    && if t in runs && !recs[runs[t]].phase.Done? then recs[runs[t]].aborted && run.phase == Queued(runs[t])
       else run.phase == Streaming
  }

  lemma EnterInstalled(runs: map<ThreadId, nat>, recs: seq<Run>, t: ThreadId, run: Run)
    requires Installed(runs, recs) && Follows(runs, recs, t, run)
    ensures Installed(runs[t := |recs|], recs + [run])
  {
  }

  lemma EnterChained(runs: map<ThreadId, nat>, recs: seq<Run>, t: ThreadId, run: Run)
    requires Installed(runs, recs) && Chained(recs) && Follows(runs, recs, t, run)
    ensures Chained(recs + [run])
  {
  }

  lemma EnterSerial(runs: map<ThreadId, nat>, recs: seq<Run>, t: ThreadId, run: Run)
    requires Installed(runs, recs) && Serial(recs) && Follows(runs, recs, t, run)
    ensures Serial(recs + [run])
  {
    if run.phase == Streaming {
      forall q | 0 <= q < |recs| && recs[q].thread == t ensures recs[q].phase.Done? {
      }
    }
  }

  lemma EnterKeepsQueue(runs: map<ThreadId, nat>, recs: seq<Run>, t: ThreadId, run: Run)
    requires Installed(runs, recs) && Chained(recs) && Serial(recs) && Follows(runs, recs, t, run)
    ensures Installed(runs[t := |recs|], recs + [run]) && Chained(recs + [run]) && Serial(recs + [run])
  {
    EnterInstalled(runs, recs, t, run);
    EnterChained(runs, recs, t, run);
    EnterSerial(runs, recs, t, run);
  }

  lemma EnterKeepsRest(recs: seq<Run>, run: Run, ends: seq<RunEnd>, drains: seq<Drain>)
    requires EndsOnce(recs, ends) && Timers(recs) && Draining(recs, drains)
    requires !run.phase.Done? && !run.timer
    ensures EndsOnce(recs + [run], ends) && Timers(recs + [run]) && Draining(recs + [run], drains)
  {
    forall i | 0 <= i < |ends| ensures EndOf(recs + [run], ends[i]) {
      assert EndOf(recs, ends[i]);
    }
    forall d | 0 <= d < |drains| ensures DrainOk(recs + [run], drains[d]) {
      assert DrainOk(recs, drains[d]);
    }
  }

  lemma EnterKeepsContent(cap: nat, recs: seq<Run>, run: Run, rings: seq<Ring>, logs: seq<seq<Frame>>, counter: nat)
    requires |recs| == |rings| == |logs| && Content(cap, recs, rings, logs, counter)
    ensures Content(cap, recs + [run], rings + [Ring([], 0, false, false)], logs + [[]], counter)
  {
    assert RingOf(Ring([], 0, false, false), [], cap);
    var logs' := logs + [[]];
    forall q, r | 0 <= q < r < |logs'| && (recs + [run])[q].thread == (recs + [run])[r].thread
      ensures AllBefore(logs'[q], logs'[r])
    {
      if r < |logs| {
        assert AllBefore(logs[q], logs[r]);
      }
    }
  }

  /** What start does to the run it supersedes: abort it if unfinished, clear its eviction timer. */
  function Supersede(c: Core, t: ThreadId): (out: seq<Run>)
    ensures |out| == |c.recs|
  {
    var prior := Current(c, t);
    ClearTimer(if prior.Some? && Unfinished(c, prior.value) then AbortAll(c.recs, {prior.value}) else c.recs, prior)
  }

  lemma SupersedeIsQuiet(c: Core, t: ThreadId)
    requires Inv(c)
    ensures Quiet(c.recs, Supersede(c, t))
    ensures t in c.runs && Unfinished(c, c.runs[t]) ==> Supersede(c, t)[c.runs[t]].aborted
  {
  }

  lemma EnterKeeps(c: Core, t: ThreadId, run: Run)
    requires Inv(c)
    requires run.thread == t && !run.phase.Done? && !run.timer
    requires if t in c.runs && !c.recs[c.runs[t]].phase.Done? then
      c.recs[c.runs[t]].aborted && run.phase == Queued(c.runs[t])
             else run.phase == Streaming
    ensures Inv(Enter(c, t, run))
  {
    EnterKeepsQueue(c.runs, c.recs, t, run);
    EnterKeepsRest(c.recs, run, c.ends, c.drains);
    EnterKeepsContent(c.cap, c.recs, run, c.rings, c.logs, c.counter);
    assert Shape(Enter(c, t, run));
  }

  lemma StartKeeps(c: Core, t: ThreadId, name: nat, resume: bool)
    requires Inv(c)
    ensures Inv(Start(c, t, name, resume))
  {
    if !c.closing && t !in c.deleting {
      SupersedeIsQuiet(c, t);
      QuietKeeps(c, Supersede(c, t));
      var prior := Current(c, t);
      var live := prior.Some? && Unfinished(c, prior.value);
      EnterKeeps(c.(recs := Supersede(c, t)), t,
                 Run(t, name, resume, false, if live then Queued(prior.value) else Streaming, false, false));
    }
  }

  lemma DiscardIsQuiet(recs: seq<Run>, doomed: set<nat>, current: Option<nat>)
    requires forall r :: r in doomed ==> r < |recs| && !recs[r].phase.Done?
    ensures Quiet(recs, ClearTimer(DiscardAll(recs, doomed), current))
  {
  }

  lemma DiscardKeeps(c: Core, t: ThreadId)
    requires Inv(c)
    ensures Inv(Discard(c, t))
  {
    var recs' := ClearTimer(DiscardAll(c.recs, ActiveOf(c, t)), Current(c, t));
    DiscardIsQuiet(c.recs, ActiveOf(c, t), Current(c, t));
    QuietKeeps(c, recs');
    OpenDrainKeeps(c.(recs := recs'), t);
  }

  lemma OpenDrainKeeps(c: Core, t: ThreadId)
    requires Inv(c)
    ensures Inv(c.(drains := c.drains + [Drain(t, Current(c, t), ActiveOf(c, t), false)]))
  {
    assert DrainOk(c.recs, Drain(t, Current(c, t), ActiveOf(c, t), false));
  }

  /** Removing a map entry is safe once every run of the thread is finished. */
  lemma UninstallKeeps(c: Core, t: ThreadId)
    requires Inv(c)
    requires t in c.runs ==> c.recs[c.runs[t]].phase.Done?
    ensures Inv(c.(runs := c.runs - {t}))
  {
    if t in c.runs {
      forall r | 0 <= r < |c.recs| && c.recs[r].thread == t
        ensures c.recs[r].phase.Done?
      {
        assert r <= c.runs[t];
      }
    }
  }

  lemma EndDrainKeeps(c: Core, d: nat)
    requires Inv(c) && Enabled(c, DrainSettled(d))
    ensures Inv(EndDrain(c, d))
  {
    var drain := c.drains[d];
    assert DrainOk(c.recs, drain);
    var c1 := c.(drains := c.drains[d := drain.(closed := true)]);
    assert Inv(c1);
    if Current(c, drain.thread) == drain.current {
      UninstallKeeps(c1, drain.thread);
    }
  }

  lemma EvictKeeps(c: Core, r: nat)
    requires Inv(c) && Enabled(c, EvictTimer(r))
    ensures Inv(Evict(c, r))
  {
    var recs' := c.recs[r := c.recs[r].(timer := false)];
    assert Quiet(c.recs, recs');
    QuietKeeps(c, recs');
    var c1 := c.(recs := recs');
    if !Superseded(c, r) {
      UninstallKeeps(c1, c.recs[r].thread);
    }
  }

  lemma PhaseKeeps(c: Core, r: nat, to: Phase)
    requires Inv(c) && r < |c.recs| && !to.Done? && !c.recs[r].phase.Done? && PhaseMoves(c.recs, r, to)
    ensures Inv(c.(recs := c.recs[r := c.recs[r].(phase := to)]))
  {
    QuietKeeps(c, c.recs[r := c.recs[r].(phase := to)]);
  }

  lemma AbortKeeps(c: Core, rs: set<nat>)
    requires Inv(c) && rs <= c.active
    ensures Inv(c.(recs := AbortAll(c.recs, rs)))
  {
    QuietKeeps(c, AbortAll(c.recs, rs));
  }

  lemma ThrowKeeps(c: Core, r: nat)
    requires Inv(c) && Enabled(c, StreamThrow(r))
    ensures Inv(Step(c, StreamThrow(r)))
  {
    if c.recs[r].aborted {
      FinalizeKeeps(c, r, false);
    } else {
      AppendKeeps(c, r, LifecycleFrame(Failed));
      FinalizeKeeps(Append(c, r, LifecycleFrame(Failed)), r, true);
    }
  }

  lemma CancelKeeps(c: Core, t: ThreadId, name: Option<nat>)
    requires Inv(c)
    ensures Inv(Cancel(c, t, name))
  {
    var cur := Current(c, t);
    if cur.Some? && Unfinished(c, cur.value) {
      AbortKeeps(c, {cur.value});
    }
  }

  lemma FencesKeep(c: Core, deleting: set<ThreadId>, closing: bool)
    requires Inv(c)
    ensures Inv(c.(deleting := deleting, closing := closing))
  {
  }

  lemma PumpStepKeeps(c: Core, e: CoreEvent)
    requires Inv(c) && Enabled(c, e)
    requires e.PriorSettled? || e.StreamYield? || e.StreamEnd? || e.StreamThrow? || e.StreamClosed?
    ensures Inv(Step(c, e))
  {
    match e
    case PriorSettled(r) =>
      if c.recs[r].aborted {
        FinishKeeps(c, r, Cancelled);
      } else {
        PhaseKeeps(c, r, Streaming);
      }
    case StreamYield(r, ev) =>
      if c.recs[r].aborted {
        PhaseKeeps(c, r, Closing);
      } else {
        AppendKeeps(c, r, ev);
      }
    case StreamEnd(r) => FinalizeKeeps(c, r, false);
    case StreamThrow(r) => ThrowKeeps(c, r);
    case StreamClosed(r) => FinalizeKeeps(c, r, false);
  }

  /** The invariant holds after every step from a state where it held. */
  lemma StepKeeps(c: Core, e: CoreEvent)
    requires Inv(c) && Enabled(c, e)
    ensures Inv(Step(c, e))
  {
    match e
    case StartRun(t, name, resume) => StartKeeps(c, t, name, resume);
    case CancelRun(t, name) => CancelKeeps(c, t, name);
    case Shutdown =>
      AbortKeeps(c, c.active);
      FencesKeep(c.(recs := AbortAll(c.recs, c.active)), c.deleting, true);
    case DiscardThread(t) => DiscardKeeps(c, t);
    case BeginDeletion(t) =>
      FencesKeep(c, c.deleting + {t}, c.closing);
      DiscardKeeps(c.(deleting := c.deleting + {t}), t);
    case DrainSettled(d) => EndDrainKeeps(c, d);
    case LowerFence(t) => FencesKeep(c, c.deleting - {t}, c.closing);
    case EvictTimer(r) => EvictKeeps(c, r);
    case _ => PumpStepKeeps(c, e);
  }
}

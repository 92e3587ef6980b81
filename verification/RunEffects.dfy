/**
  What each operation of the run manager does, said of the order of a thread's runs, their flags and their logs rather
  than in the terms of the step that does it.
 */
module RunEffects {
  import opened Wrappers
  import opened Frames
  import opened RunManager
  import opened RunInvariant
  import opened RunTheorems
  import opened Sequences

  /** A newer run of the same thread exists. */
  ghost predicate Replaced(recs: seq<Run>, r: nat) {
    exists s :: r < s < |recs| && r < |recs| && recs[s].thread == recs[r].thread
  }

  /** An unfinished run is out of the map exactly when a newer one has replaced it. */
  lemma ReplacedMeansSuperseded(c: Core, r: nat)
    requires Inv(c) && Unfinished(c, r)
    ensures Superseded(c, r) <==> Replaced(c.recs, r)
  {
    assert c.runs[c.recs[r].thread] != r ==> r < c.runs[c.recs[r].thread];
  }

  // ---------------------------------------------------------------- what a log is made of

  function Events(log: seq<Frame>): (evs: seq<Event>)
    ensures |evs| == |log| && forall k :: 0 <= k < |log| ==> evs[k] == log[k].ev
  {
    seq(|log|, k requires 0 <= k < |log| => log[k].ev)
  }

  /** The frame a run takes leave with: none if it was replaced, or if it ended unasked with a terminal of its own. */
  ghost function Farewell(c: Core, r: nat): seq<Event>
    requires Parallel(c) && r < |c.recs|
  {
    if c.recs[r].aborted then if Replaced(c.recs, r) then [] else [LifecycleFrame(Completed)]
    else if HasTerminal(c.logs[r]) then []
    else [LifecycleFrame(Completed)]
  }

  /** What a run ends with: nothing straight from the queue, a failure if its stream threw unasked, else a farewell. */
  ghost function Parting(c: Core, r: nat, threw: bool): seq<Event>
    requires Parallel(c) && r < |c.recs|
  {
    if c.recs[r].phase.Queued? then []
    else if threw && !c.recs[r].aborted then [LifecycleFrame(Failed)]
    else Farewell(c, r)
  }

  /** What a step says to the observers of run r. */
  ghost function Emitted(c: Core, e: CoreEvent, r: nat): seq<Event>
    requires Parallel(c) && Enabled(c, e)
  {
    match e
    case StreamYield(q, ev) => if q == r && !c.recs[r].aborted then [ev] else []
    case StreamThrow(q) =>
      if q != r then [] else if c.recs[r].aborted then Farewell(c, r) else [LifecycleFrame(Failed)]
    case StreamEnd(q) => if q == r then Farewell(c, r) else []
    case StreamClosed(q) => if q == r then Farewell(c, r) else []
    case _ => []
  }

  /** The log with the events added, numbered from the counter on. */
  ghost predicate Extends(log: seq<Frame>, log': seq<Frame>, evs: seq<Event>, counter: nat) {
    && |log'| == |log| + |evs| && log <= log'
    && forall k :: 0 <= k < |evs| ==> log'[|log| + k] == Frame(counter + k, evs[k])
  }

  lemma FinalizeEmits(c: Core, r: nat, failed: bool)
    requires Inv(c) && Pumping(c, r)
    ensures Extends(c.logs[r], Finalize(c, r, failed).logs[r], Farewell(c, r), c.counter)
  {
    ReplacedMeansSuperseded(c, r);
    assert RingOf(c.rings[r], c.logs[r], c.cap);
  }

  lemma ThrowEmits(c: Core, r: nat)
    requires Inv(c) && Enabled(c, StreamThrow(r))
    ensures Extends(c.logs[r], Step(c, StreamThrow(r)).logs[r], Emitted(c, StreamThrow(r), r), c.counter)
  {
    if c.recs[r].aborted {
      FinalizeEmits(c, r, false);
    } else {
      var c1 := Append(c, r, LifecycleFrame(Failed));
      assert c1.logs[r][|c.logs[r]|] == Frame(c.counter, LifecycleFrame(Failed));
      assert c1.rings[r].sawTerminal;
      assert Finalize(c1, r, true).logs[r] == c1.logs[r];
    }
  }

  lemma OwnStepEmits(c: Core, e: CoreEvent, r: nat)
    requires Inv(c) && Enabled(c, e) && r < |c.recs|
    requires e.StreamEnd? || e.StreamThrow? || e.StreamClosed?
    requires e.run == r
    ensures Extends(c.logs[r], Step(c, e).logs[r], Emitted(c, e, r), c.counter)
  {
    match e
    case StreamEnd(q) => FinalizeEmits(c, r, false);
    case StreamClosed(q) => FinalizeEmits(c, r, false);
    case StreamThrow(q) => ThrowEmits(c, r);
  }

  lemma OtherRunSilent(c: Core, e: CoreEvent, r: nat)
    requires Parallel(c) && Enabled(c, e) && r < |c.recs|
    requires e.StreamEnd? || e.StreamThrow? || e.StreamClosed?
    requires e.run != r
    ensures Step(c, e).logs[r] == c.logs[r]
  {
  }

  lemma YieldEmits(c: Core, e: CoreEvent, r: nat)
    requires Parallel(c) && Enabled(c, e) && r < |Step(c, e).recs|
    requires r < |c.recs| ==> !e.StreamEnd? && !e.StreamThrow? && !e.StreamClosed?
    ensures r < |c.recs| ==> Extends(c.logs[r], Step(c, e).logs[r], Emitted(c, e, r), c.counter)
    ensures r >= |c.recs| ==> Step(c, e).logs[r] == [] && Emitted(c, e, r) == []
  {
  }

  /** Every step adds exactly what it emits to each log, and a new run's log is empty. */
  lemma StepEmits(c: Core, e: CoreEvent, r: nat)
    requires Inv(c) && Enabled(c, e) && r < |Step(c, e).recs|
    ensures r < |c.recs| ==> Extends(c.logs[r], Step(c, e).logs[r], Emitted(c, e, r), c.counter)
    ensures r >= |c.recs| ==> Step(c, e).logs[r] == [] && Emitted(c, e, r) == []
  {
    if r < |c.recs| && (e.StreamEnd? || e.StreamThrow? || e.StreamClosed?) {
      if e.run == r {
        OwnStepEmits(c, e, r);
      } else {
        OtherRunSilent(c, e, r);
      }
    } else {
      YieldEmits(c, e, r);
    }
  }

  /** What the observers of run r were told so far; nothing before it exists. */
  function Told(logs: seq<seq<Frame>>, r: nat): seq<Event> {
    if r < |logs| then Events(logs[r]) else []
  }

  lemma ExtendsTells(log: seq<Frame>, log': seq<Frame>, evs: seq<Event>, counter: nat)
    requires Extends(log, log', evs, counter)
    ensures Events(log') == Events(log) + evs
  {
  }

  lemma StepTells(c: Core, e: CoreEvent, r: nat)
    requires Inv(c) && Enabled(c, e)
    ensures Told(Step(c, e).logs, r) == Told(c.logs, r) + Emitted(c, e, r)
  {
    if r < |Step(c, e).recs| {
      StepEmits(c, e, r);
      if r < |c.recs| {
        ExtendsTells(c.logs[r], Step(c, e).logs[r], Emitted(c, e, r), c.counter);
      }
    } else {
      Unborn(c, e, r);
    }
  }

  lemma Unborn(c: Core, e: CoreEvent, r: nat)
    requires Parallel(c) && Enabled(c, e) && r >= |c.recs|
    ensures Emitted(c, e, r) == []
  {
  }

  /** What a whole history says to the observers of run r. */
  ghost function Transcript(c: Core, es: seq<CoreEvent>, r: nat): seq<Event>
    requires CanRun(c, es)
    decreases |es|
  {
    if es == [] then [] else Emitted(c, es[0], r) + Transcript(Step(c, es[0]), es[1..], r)
  }

  lemma {:induction false} HistoryTells(c: Core, es: seq<CoreEvent>, r: nat)
    requires Inv(c) && CanRun(c, es)
    ensures Told(After(c, es).logs, r) == Told(c.logs, r) + Transcript(c, es, r)
    decreases |es|
  {
    if es == [] {
      EmptyIsUnit(Told(c.logs, r));
    } else {
      var c1 := Step(c, es[0]);
      StepKeeps(c, es[0]);
      StepTells(c, es[0], r);
      HistoryTells(c1, es[1..], r);
      Assoc(Told(c.logs, r), Emitted(c, es[0], r), Transcript(c1, es[1..], r));
    }
  }

  /** Over any run of the manager a log is what was said: what its stream yielded while unaborted, and one farewell. */
  lemma LogIsTranscript(cap: nat, es: seq<CoreEvent>, r: nat)
    requires cap >= 1 && CanRun(Init(cap), es) && r < |After(Init(cap), es).logs|
    ensures Events(After(Init(cap), es).logs[r]) == Transcript(Init(cap), es, r)
  {
    HistoryTells(Init(cap), es, r);
  }

  // ---------------------------------------------------------------- numbers

  predicate Speaks(e: CoreEvent) {
    e.StreamYield? || e.StreamEnd? || e.StreamThrow? || e.StreamClosed?
  }

  lemma FinalizeCounts(c: Core, r: nat, failed: bool)
    requires Inv(c) && Pumping(c, r)
    ensures Finalize(c, r, failed).counter == c.counter + |Farewell(c, r)|
  {
    ReplacedMeansSuperseded(c, r);
    assert RingOf(c.rings[r], c.logs[r], c.cap);
  }

  lemma ThrowCounts(c: Core, r: nat)
    requires Inv(c) && Enabled(c, StreamThrow(r))
    ensures Step(c, StreamThrow(r)).counter == c.counter + |Emitted(c, StreamThrow(r), r)|
  {
    if c.recs[r].aborted {
      FinalizeCounts(c, r, false);
    } else {
      assert Append(c, r, LifecycleFrame(Failed)).rings[r].sawTerminal;
    }
  }

  lemma StepCounts(c: Core, e: CoreEvent)
    requires Inv(c) && Enabled(c, e)
    ensures Step(c, e).counter == c.counter + if Speaks(e) then |Emitted(c, e, e.run)| else 0
  {
    match e
    case StreamEnd(r) => FinalizeCounts(c, r, false);
    case StreamClosed(r) => FinalizeCounts(c, r, false);
    case StreamThrow(r) => ThrowCounts(c, r);
    case _ =>
  }

  /** Some frame was stamped with the number. */
  ghost predicate Used(logs: seq<seq<Frame>>, n: nat) {
    exists r, k :: 0 <= r < |logs| && 0 <= k < |logs[r]| && logs[r][k].no == n
  }

  lemma StillUsed(c: Core, c': Core, n: nat)
    requires Grows(c, c') && Used(c.logs, n)
    ensures Used(c'.logs, n)
  {
    var r, k :| 0 <= r < |c.logs| && 0 <= k < |c.logs[r]| && c.logs[r][k].no == n;
    assert c'.logs[r][k] == c.logs[r][k];
  }

  lemma StepUses(c: Core, e: CoreEvent)
    requires Inv(c) && Enabled(c, e) && forall n :: 0 <= n < c.counter ==> Used(c.logs, n)
    ensures forall n :: 0 <= n < Step(c, e).counter ==> Used(Step(c, e).logs, n)
  {
    StepCounts(c, e);
    StepGrows(c, e);
    forall n | 0 <= n < Step(c, e).counter ensures Used(Step(c, e).logs, n) {
      if n < c.counter {
        StillUsed(c, Step(c, e), n);
      } else {
        StepEmits(c, e, e.run);
        assert Step(c, e).logs[e.run][|c.logs[e.run]| + (n - c.counter)].no == n;
      }
    }
  }

  lemma {:induction false} HistoryUses(c: Core, es: seq<CoreEvent>)
    requires Inv(c) && CanRun(c, es) && forall n :: 0 <= n < c.counter ==> Used(c.logs, n)
    ensures forall n :: 0 <= n < After(c, es).counter ==> Used(After(c, es).logs, n)
    decreases |es|
  {
    if es != [] {
      StepKeeps(c, es[0]);
      StepUses(c, es[0]);
      HistoryUses(Step(c, es[0]), es[1..]);
    }
  }

  /** The numbers stamped over all runs are those below the counter, none skipped. */
  lemma NoNumberSkipped(cap: nat, es: seq<CoreEvent>, n: nat)
    requires cap >= 1 && CanRun(Init(cap), es)
    ensures n < After(Init(cap), es).counter <==> Used(After(Init(cap), es).logs, n)
  {
    HistoryUses(Init(cap), es);
    assert IsReachable(After(Init(cap), es));
    ReachableInv(After(Init(cap), es));
  }

  // ---------------------------------------------------------------- ends

  /**
    How a run may end. Still queued: cancelled, with an empty log. Superseded: without another frame.
    Pumping and still installed: with a root terminal frame. An end event is announced exactly when
    the run was not discarded: as cancelled exactly when it was aborted, otherwise as paused exactly
    when its stream reported an interrupt, otherwise as an error exactly when its stream threw.
   */
  ghost predicate EndsWell(c: Core, c': Core, r: nat, threw: bool)
    requires Parallel(c) && Parallel(c') && r < |c.recs| <= |c'.recs|
  {
    var run := c.recs[r];
    && (run.phase.Queued? ==> run.aborted && c'.logs[r] == [])
    && (Superseded(c, r) ==> c'.logs[r] == c.logs[r])
    && (Pumping(c, r) && !Superseded(c, r) ==> HasTerminal(c'.logs[r]))
    && Announces(c, c'.ends, r, threw)
  }

  ghost predicate Announces(c: Core, ends': seq<RunEnd>, r: nat, threw: bool)
    requires Parallel(c) && r < |c.recs|
  {
    var run := c.recs[r];
    if run.discarded then ends' == c.ends
    else
      && |ends'| == |c.ends| + 1 && ends'[..|c.ends|] == c.ends
      && var end := ends'[|c.ends|];
      && end == RunEnd(r, run.thread, end.status, run.resume)
      && (end.status == Cancelled <==> run.aborted)
      && (!run.aborted ==> (end.status == Paused <==> HasInterrupt(c.logs[r])))
      && (!run.aborted && !HasInterrupt(c.logs[r]) ==> end.status == if threw then Error else Success)
  }

  lemma FinalizeEndsWell(c: Core, r: nat, failed: bool)
    requires Inv(c) && Pumping(c, r)
    ensures EndsWell(c, Finalize(c, r, failed), r, failed)
  {
    var t := Decided(c, r, failed);
    assert RingOf(c.rings[r], c.logs[r], c.cap);
    if t.synthesize.Some? {
      assert Finalize(c, r, failed).logs[r][|c.logs[r]|].ev == LifecycleFrame(Completed);
    }
  }

  lemma ThrowEndsWell(c: Core, r: nat)
    requires Inv(c) && Enabled(c, StreamThrow(r))
    ensures EndsWell(c, Step(c, StreamThrow(r)), r, true)
  {
    if c.recs[r].aborted {
      FinalizeEndsWell(c, r, false);
    } else {
      var c1 := Append(c, r, LifecycleFrame(Failed));
      AppendKeeps(c, r, LifecycleFrame(Failed));
      FinalizeEndsWell(c1, r, true);
      assert c1.logs[r] == c.logs[r] + [Frame(c.counter, LifecycleFrame(Failed))];
      assert HasInterrupt(c1.logs[r]) ==> HasInterrupt(c.logs[r]);
      assert forall k :: 0 <= k < |c.logs[r]| ==> c1.logs[r][k] == c.logs[r][k];
    }
  }

  /** Only the run's own pump, or the settling of the run it waits for, finishes it. */
  lemma OnlyPumpFinishes(c: Core, e: CoreEvent, r: nat)
    requires Parallel(c) && Enabled(c, e)
    requires Unfinished(c, r) && !Unfinished(Step(c, e), r)
    ensures (e.PriorSettled? || e.StreamEnd? || e.StreamThrow? || e.StreamClosed?) && e.run == r
  {
    if e.PriorSettled? || e.StreamEnd? || e.StreamThrow? || e.StreamClosed? {
      OthersUnmoved(c, e, r);
    } else {
      PhasesUnmoved(c, e, r);
    }
  }

  lemma OthersUnmoved(c: Core, e: CoreEvent, r: nat)
    requires Parallel(c) && Enabled(c, e) && r < |c.recs|
    requires e.PriorSettled? || e.StreamEnd? || e.StreamThrow? || e.StreamClosed?
    ensures e.run != r ==> Step(c, e).recs[r] == c.recs[r]
  {
  }

  lemma PhasesUnmoved(c: Core, e: CoreEvent, r: nat)
    requires Parallel(c) && Enabled(c, e) && r < |c.recs|
    requires !e.PriorSettled? && !e.StreamEnd? && !e.StreamThrow? && !e.StreamClosed?
    ensures Step(c, e).recs[r].phase.Done? <==> c.recs[r].phase.Done?
  {
    match e
    case StartRun(t, name, resume) => StartUnmoved(c, t, name, resume, r);
    case DiscardThread(t) => DiscardUnmoved(c, t, r);
    case BeginDeletion(t) => DiscardUnmoved(c.(deleting := c.deleting + {t}), t, r);
    case _ =>
  }

  lemma StartUnmoved(c: Core, t: ThreadId, name: nat, resume: bool, r: nat)
    requires Parallel(c) && r < |c.recs|
    ensures Start(c, t, name, resume).recs[r].phase == c.recs[r].phase
  {
  }

  lemma DiscardUnmoved(c: Core, t: ThreadId, r: nat)
    requires Parallel(c) && r < |c.recs|
    ensures |Discard(c, t).recs| == |c.recs| && Discard(c, t).recs[r].phase == c.recs[r].phase
  {
  }

  /** How a run ends, and exactly which frames it ends with. */
  lemma FinishingStep(c: Core, e: CoreEvent, r: nat)
    requires Inv(c) && Enabled(c, e)
    requires Unfinished(c, r) && !Unfinished(Step(c, e), r)
    ensures EndsWell(c, Step(c, e), r, e.StreamThrow?)
    ensures Extends(c.logs[r], Step(c, e).logs[r], Parting(c, r, e.StreamThrow?), c.counter)
  {
    OnlyPumpFinishes(c, e, r);
    StepEmits(c, e, r);
    match e
    case PriorSettled(q) => CancelledInQueue(c, r);
    case StreamEnd(q) => FinalizeEndsWell(c, r, false);
    case StreamClosed(q) => FinalizeEndsWell(c, r, false);
    case StreamThrow(q) => ThrowEndsWell(c, r);
  }

  lemma CancelledInQueue(c: Core, r: nat)
    requires Inv(c) && r < |c.recs| && c.recs[r].phase.Queued? && c.recs[r].aborted
    ensures EndsWell(c, Finish(c, r, Cancelled), r, false)
  {
  }

  // ---------------------------------------------------------------- runs

  /** A start that is not refused installs a fresh run, which streams at once or waits behind those of its thread. */
  lemma StartInstalls(c: Core, t: ThreadId, name: nat, resume: bool)
    requires Inv(c) && !c.closing && t !in c.deleting
    ensures var c' := Start(c, t, name, resume); var r := |c.recs|;
      && |c'.recs| == |c'.logs| == r + 1 && c'.logs[..r] == c.logs && c'.logs[r] == []
      && c'.recs[r] == Run(t, name, resume, false, c'.recs[r].phase, false, false)
      && (c'.recs[r].phase.Streaming? <==> OlderDone(c'.recs, r))
      && (c'.recs[r].phase.Queued? <==> !OlderDone(c'.recs, r))
      && c'.runs == c.runs[t := r]
  {
    var r := |c.recs|;
    if t in c.runs {
      assert Start(c, t, name, resume).recs[c.runs[t]].phase == c.recs[c.runs[t]].phase;
    }
  }

  /** And of the runs there are it aborts the unfinished ones of its thread, and changes no other but for a timer. */
  lemma StartAborts(c: Core, t: ThreadId, name: nat, resume: bool, q: nat)
    requires Inv(c) && !c.closing && t !in c.deleting && q < |c.recs|
    ensures var run, run' := c.recs[q], Start(c, t, name, resume).recs[q];
      run' == run.(aborted := run.aborted || (run.thread == t && !run.phase.Done?),
                   timer := run.timer && Current(c, t) != Some(q))
  {
  }

  /** A queued run whose turn has come starts its stream, unless it was aborted meanwhile. */
  lemma QueueMoves(c: Core, r: nat)
    requires Parallel(c) && Enabled(c, PriorSettled(r))
    ensures Pumping(Step(c, PriorSettled(r)), r) <==> !c.recs[r].aborted
    ensures Ended(Step(c, PriorSettled(r)), r) <==> c.recs[r].aborted
  {
  }

  /** An unfinished run with none before it, pumping or with its turn come. */
  ghost predicate CanGo(c: Core, q: nat)
    requires Parallel(c)
  {
    Unfinished(c, q) && OlderDone(c.recs, q) && (Pumping(c, q) || Enabled(c, PriorSettled(q)))
  }

  /** A thread with an unfinished run is never stuck: its oldest one is pumping, or its turn has come. */
  lemma {:induction false} NeverStuck(c: Core, r: nat)
    requires IsReachable(c) && Unfinished(c, r)
    ensures Parallel(c) && exists q :: 0 <= q <= r && CanGo(c, q) && c.recs[q].thread == c.recs[r].thread
    decreases r
  {
    ReachableInv(c);
    if OlderDone(c.recs, r) {
      assert CanGo(c, r);
    } else {
      var s :| 0 <= s < r && c.recs[s].thread == c.recs[r].thread && !c.recs[s].phase.Done?;
      NeverStuck(c, s);
    }
  }

  /** An aborted stream is left at its next event; an unaborted one goes on. */
  lemma YieldLeaves(c: Core, r: nat, ev: Event)
    requires Parallel(c) && Enabled(c, StreamYield(r, ev))
    ensures Step(c, StreamYield(r, ev)).recs[r].phase == if c.recs[r].aborted then Closing else Streaming
  {
  }

  // ---------------------------------------------------------------- stopping

  /** A cancel aborts the newest run of the thread if it is unfinished and the one meant, and nothing else. */
  lemma CancelExactly(c: Core, t: ThreadId, only: Option<nat>, q: nat)
    requires Inv(c) && q < |c.recs|
    ensures var run := c.recs[q];
      var newest := run.thread == t && !run.phase.Done? && !Replaced(c.recs, q);
      var meant := newest && (only.Some? ==> run.name == only.value);
      Cancel(c, t, only).recs[q] == run.(aborted := run.aborted || meant)
  {
    if Unfinished(c, q) {
      ReplacedMeansSuperseded(c, q);
    }
  }

  /** A discard marks and aborts exactly the unfinished runs of the thread, and waits for exactly those. */
  lemma DiscardExactly(c: Core, t: ThreadId, q: nat)
    requires Inv(c) && q < |c.recs|
    ensures var c' := Discard(c, t); var run, run' := c.recs[q], c'.recs[q];
      var doomed := run.thread == t && !run.phase.Done?;
      && run' == run.(discarded := run.discarded || doomed, aborted := run.aborted || doomed,
                      timer := run.timer && Current(c, t) != Some(q))
      && |c'.drains| == |c.drains| + 1
      && (q in c'.drains[|c.drains|].waiting <==> doomed)
  {
  }

  /** When the wait is over, which is once, the thread has no installed run, unless one was started meanwhile. */
  lemma DrainRemoves(c: Core, d: nat)
    requires Inv(c) && Enabled(c, DrainSettled(d))
    ensures var c' := Step(c, DrainSettled(d)); var drain := c.drains[d]; var t := drain.thread;
      && !Enabled(c', DrainSettled(d))
      && (t in c'.runs <==> t in c.runs && (drain.current.None? || drain.current.value < c.runs[t]))
      && (forall u :: u != t ==> (u in c'.runs <==> u in c.runs))
      && (forall u <- c'.runs :: c'.runs[u] == c.runs[u])
  {
    assert DrainOk(c.recs, c.drains[d]);
  }

  /** A fired eviction timer is spent, and forgets the run unless another has replaced it. */
  lemma TimerForgets(c: Core, r: nat)
    requires Inv(c) && Enabled(c, EvictTimer(r))
    ensures var c' := Step(c, EvictTimer(r)); var t := c.recs[r].thread;
      && c'.recs == c.recs[r := c.recs[r].(timer := false)]
      && (t in c'.runs <==> t in c.runs && Replaced(c.recs, r))
      && (forall u :: u != t ==> (u in c'.runs <==> u in c.runs))
      && (forall u <- c'.runs :: c'.runs[u] == c.runs[u])
  {
    if c.recs[r].thread in c.runs && c.runs[c.recs[r].thread] != r {
      assert r < c.runs[c.recs[r].thread];
    }
  }

  /** Shutting down aborts every unfinished run. */
  lemma ShutdownAborts(c: Core, q: nat)
    requires Inv(c) && q < |c.recs|
    ensures var run := c.recs[q];
      Step(c, Shutdown).closing && Step(c, Shutdown).recs[q] == run.(aborted := run.aborted || !run.phase.Done?)
  {
  }

  /** And no run is started ever after. */
  lemma {:induction false} ClosedForGood(c: Core, es: seq<CoreEvent>)
    requires CanRun(c, es) && c.closing
    ensures After(c, es).closing && |After(c, es).recs| == |c.recs|
    decreases |es|
  {
    if es != [] {
      ClosedForGood(Step(c, es[0]), es[1..]);
    }
  }
}

/** The run manager as the object it is: each method is one await-free stretch, proved against the state machine. */
module ProtocolRunManagerObject {
  import opened Wrappers
  import opened Frames
  import opened RunManager
  import RunInvariant
  import opened Observers

  /** A second wake of the same run, with no observer running in between, changes nothing more. */
  lemma WakeTwice(s: Sys, r: nat, c: Core)
    requires Linked(s) && r < |s.waiters| && Parallel(c) && |c.recs| == |s.waiters|
    requires c.recs[r].thread == s.core.recs[r].thread
    ensures WakeRun(WakeRun(s, r).(core := c), r) == WakeRun(s.(core := c), r)
  {
    var s1 := WakeRun(s, r);
    var s2 := WakeRun(s1.(core := c), r);
    var t := s.core.recs[r].thread;
    assert s1.waiters[r] == {};
    assert WakeAll(s1.obs, {}) == s1.obs;
    assert s1.waiters[r := {}] == s1.waiters;
    if t in s.runWaiters {
      assert s1.sets[s.runWaiters[t]] == {};
      assert s1.sets[s.runWaiters[t] := {}] == s1.sets;
    }
  }

  /** Waking a thread's shared set does not depend on the runs. */
  lemma WakeThreadFirst(s: Sys, t: ThreadId, c: Core)
    requires Linked(s) && Parallel(c) && |c.recs| == |s.waiters|
    ensures WakeThread(s, t).(core := c) == WakeThread(s.(core := c), t)
  {
  }

  class ProtocolRunManager {
    const cap: nat
    var runs: map<ThreadId, nat>
    var recs: seq<Run>
    var rings: seq<Ring>
    ghost var logs: seq<seq<Frame>>
    var active: set<nat>
    var deleting: set<ThreadId>
    var closing: bool
    var counter: nat
    var ends: seq<RunEnd>
    var drains: seq<Drain>
    var observers: seq<Observer>
    var waiters: seq<set<nat>>
    var sets: seq<set<nat>>
    var runWaiters: map<ThreadId, nat>

    ghost function Manager(): Core
      reads this
    {
      Core(cap, runs, recs, rings, logs, active, deleting, closing, counter, ends, drains)
    }

    ghost function State(): Sys
      reads this
    {
      Sys(Manager(), observers, waiters, sets, runWaiters)
    }

    constructor (bufferCap: nat)
      ensures State() == InitSys(bufferCap)
    {
      cap := bufferCap;
      runs, recs, rings, logs := map[], [], [], [];
      active, deleting, closing, counter, ends, drains := {}, {}, false, 0, [], [];
      observers, waiters, sets, runWaiters := [], [], [], map[];
    }

    /** Calls every waiter of a set: each wakes its observer. */
    method CallAll(set_: set<nat>)
      modifies this`observers
      ensures observers == WakeAll(old(observers), set_)
    {
      var left := set_;
      while left != {}
        invariant left <= set_ && observers == WakeAll(old(observers), set_ - left)
        decreases left
      {
        var o :| o in left;
        if o < |observers| && observers[o].stage.Parked? {
          observers := observers[o := observers[o].(stage := Woken(observers[o].stage.at))];
        }
        left := left - {o};
      }
      assert set_ - {} == set_;
    }

    method WakeParked(t: ThreadId)
      requires Linked(State())
      modifies this`observers, this`sets
      ensures State() == WakeThread(old(State()), t)
    {
      if t in runWaiters {
        CallAll(sets[runWaiters[t]]);
        sets := sets[runWaiters[t] := {}];
      }
    }

    method Wake(r: nat)
      requires Linked(State()) && r < |waiters|
      modifies this`observers, this`waiters, this`sets
      ensures State() == WakeRun(old(State()), r)
    {
      CallAll(waiters[r]);
      waiters := waiters[r := {}];
      WakeParked(recs[r].thread);
    }

    method AppendFrame(r: nat, ev: Event)
      requires Linked(State()) && r < |recs|
      modifies this
      ensures State() == WakeRun(old(State()).(core := Append(old(Manager()), r, ev)), r)
    {
      var f := Frame(counter, ev);
      counter := counter + 1;
      rings := rings[r := Push(rings[r], cap, f)];
      logs := logs[r := logs[r] + [f]];
      Wake(r);
    }

    method FinishRun(r: nat, status: Status)
      requires Linked(State()) && r < |recs|
      modifies this
      ensures State() == WakeRun(old(State()).(core := Finish(old(Manager()), r, status)), r)
    {
      var run := recs[r];
      recs := recs[r := run.(phase := Done, timer := !run.discarded)];
      active := active - {r};
      if !run.discarded {
        ends := ends + [RunEnd(r, run.thread, status, run.resume)];
      }
      Wake(r);
    }

    method EndPump(r: nat, failed: bool)
      requires Linked(State()) && r < |recs|
      modifies this
      ensures State() == WakeRun(old(State()).(core := Finalize(old(Manager()), r, failed)), r)
    {
      var superseded := !(recs[r].thread in runs && runs[recs[r].thread] == r);
      var t := DecideTerminal(recs[r].aborted, superseded, rings[r].sawTerminal, rings[r].interrupted, failed);
      if t.synthesize.Some? {
        AppendFrame(r, LifecycleFrame(t.synthesize.value));
        ghost var before := old(State()).(core := Append(old(Manager()), r, LifecycleFrame(t.synthesize.value)));
        WakeTwice(before, r, Finalize(old(Manager()), r, failed));
      }
      FinishRun(r, t.status);
    }

    /** The prior run has settled: start pumping, or finish at once when already aborted. */
    method OnPriorSettled(r: nat)
      requires Linked(State()) && Enabled(Manager(), PriorSettled(r))
      modifies this
      ensures State() == OnCore(old(State()), PriorSettled(r))
    {
      if recs[r].aborted {
        FinishRun(r, Cancelled);
      } else {
        recs := recs[r := recs[r].(phase := Streaming)];
      }
    }

    method OnStreamYield(r: nat, ev: Event)
      requires Linked(State()) && Enabled(Manager(), StreamYield(r, ev))
      modifies this
      ensures State() == OnCore(old(State()), StreamYield(r, ev))
    {
      if recs[r].aborted {
        recs := recs[r := recs[r].(phase := Closing)];
      } else {
        AppendFrame(r, ev);
      }
    }

    method OnStreamEnd(r: nat)
      requires Linked(State()) && Enabled(Manager(), StreamEnd(r))
      modifies this
      ensures State() == OnCore(old(State()), StreamEnd(r))
    {
      EndPump(r, false);
    }

    method OnStreamThrow(r: nat)
      requires Linked(State()) && Enabled(Manager(), StreamThrow(r))
      modifies this
      ensures State() == OnCore(old(State()), StreamThrow(r))
    {
      if recs[r].aborted {
        EndPump(r, false);
      } else {
        AppendFrame(r, LifecycleFrame(Failed));
        ghost var before := old(State()).(core := Append(old(Manager()), r, LifecycleFrame(Failed)));
        WakeTwice(before, r, Finalize(before.core, r, true));
        EndPump(r, true);
      }
    }

    /** Aborts the thread's installed run if it is unfinished, and clears its eviction timer. */
    method SupersedePrior(t: ThreadId) returns (phase: Phase)
      requires Linked(State())
      modifies this`recs
      ensures recs == RunInvariant.Supersede(old(Manager()), t)
      ensures phase == if t in runs && !old(recs)[runs[t]].phase.Done? then Queued(runs[t]) else Streaming
    {
      phase := Streaming;
      if t in runs {
        var prior := runs[t];
        if !recs[prior].phase.Done? {
          phase := Queued(prior);
          recs := recs[prior := recs[prior].(aborted := true)];
          assert recs == AbortAll(old(recs), {prior});
        }
        recs := recs[prior := recs[prior].(timer := false)];
      }
    }

    /** Refuses while closing or fenced; otherwise supersedes the thread's run. */
    method Start(t: ThreadId, name: nat, resume: bool) returns (started: bool)
      requires Linked(State())
      modifies this
      ensures started <==> !old(closing) && t !in old(deleting)
      ensures State() == OnCore(old(State()), StartRun(t, name, resume))
    {
      if closing || t in deleting {
        return false;
      }
      var phase := SupersedePrior(t);
      runs := runs[t := |recs|];
      active := active + {|recs|};
      recs := recs + [Run(t, name, resume, false, phase, false, false)];
      rings := rings + [Ring([], 0, false, false)];
      logs := logs + [[]];
      waiters := waiters + [{}];
      return true;
    }

    method CancelThread(t: ThreadId, only: Option<nat>) returns (accepted: bool)
      requires Linked(State())
      modifies this`recs
      ensures State() == OnCore(old(State()), CancelRun(t, only))
      ensures accepted <==>
        old(t in runs && !recs[runs[t]].phase.Done? && (only.Some? ==> recs[runs[t]].name == only.value))
      ensures accepted ==> recs[runs[t]].aborted
    {
      if t !in runs || recs[runs[t]].phase.Done? || (only.Some? && recs[runs[t]].name != only.value) {
        return false;
      }
      recs := recs[runs[t] := recs[runs[t]].(aborted := true)];
      assert recs == AbortAll(old(recs), {runs[t]});
      return true;
    }

    method DiscardRuns(doomed: set<nat>)
      modifies this`recs
      ensures recs == DiscardAll(old(recs), doomed)
    {
      var left := doomed;
      while left != {}
        invariant left <= doomed && recs == DiscardAll(old(recs), doomed - left)
        decreases left
      {
        var r :| r in left;
        if r < |recs| {
          recs := recs[r := recs[r].(discarded := true, aborted := true)];
        }
        left := left - {r};
      }
      assert doomed - {} == doomed;
    }

    /** The part of discardThread before its await: mark, abort, and remember which runs to wait for. */
    method BeginDiscard(t: ThreadId)
      requires Linked(State())
      modifies this`recs, this`drains
      ensures Manager() == Discard(old(Manager()), t)
    {
      var doomed := set r | r in active && r < |recs| && recs[r].thread == t;
      var current := if t in runs then Some(runs[t]) else None;
      DiscardRuns(doomed);
      if t in runs {
        recs := recs[runs[t] := recs[runs[t]].(timer := false)];
      }
      drains := drains + [Drain(t, current, doomed, false)];
    }

    method DiscardThread(t: ThreadId)
      requires Linked(State())
      modifies this`recs, this`drains
      ensures State() == OnCore(old(State()), CoreEvent.DiscardThread(t))
    {
      BeginDiscard(t);
    }

    method BeginThreadDeletion(t: ThreadId)
      requires Linked(State())
      modifies this`deleting, this`observers, this`sets, this`recs, this`drains
      ensures State() == OnCore(old(State()), BeginDeletion(t))
    {
      deleting := deleting + {t};
      ghost var fenced := State();
      WakeParked(t);
      BeginDiscard(t);
      assert Manager() == Discard(fenced.core, t) == Step(old(Manager()), BeginDeletion(t));
      WakeThreadFirst(fenced, t, Manager());
    }

    /** The part of discardThread after its await. */
    method EndDiscard(d: nat)
      requires Linked(State()) && Enabled(Manager(), DrainSettled(d))
      modifies this`runs, this`drains
      ensures State() == OnCore(old(State()), DrainSettled(d))
    {
      var drain := drains[d];
      drains := drains[d := drain.(closed := true)];
      if (if drain.thread in runs then Some(runs[drain.thread]) else None) == drain.current {
        runs := runs - {drain.thread};
      }
    }

    /** The inner loop of observe over the bound run's buffer. */
    method ReadAhead(o: nat) returns (hit: bool)
      requires Linked(State()) && o < |observers| && observers[o].bound.Some?
      requires observers[o].cursor < rings[observers[o].bound.value].dropped + |rings[observers[o].bound.value].buffer|
      modifies this`observers
      ensures var d := ReadBuffer(rings[old(observers)[o].bound.value], old(observers)[o]);
        hit == d.hit && observers == old(observers)[o := d.ob]
    {
      var ob := observers[o];
      var ring := rings[ob.bound.value];
      var start := ReadFrom(ring, ob.cursor);
      var cursor := start;
      var ords := ob.ords;
      hit := false;
      var got := ob.got;
      while cursor < ring.dropped + |ring.buffer| && !hit
        invariant start <= cursor <= ring.dropped + |ring.buffer|
        invariant ords == ob.ords + Range(start, cursor)
        invariant !hit ==> (
          && got == ob.got
          && FirstWanted(ring.buffer, start - ring.dropped, ob.filter)
             == FirstWanted(ring.buffer, cursor - ring.dropped, ob.filter))
        invariant hit ==> (
          && start < cursor && got == ob.got + [ring.buffer[cursor - 1 - ring.dropped]]
          && FirstWanted(ring.buffer, start - ring.dropped, ob.filter) == cursor - 1 - ring.dropped)
        decreases ring.dropped + |ring.buffer| - cursor
      {
        var f := ring.buffer[cursor - ring.dropped];
        ords := ords + [cursor];
        cursor := cursor + 1;
        if Wanted(f, ob.filter) {
          got := got + [f];
          hit := true;
        }
      }
      var gaps := ob.gaps + Range(ob.cursor, start);
      observers := observers[o := ob.(cursor := cursor, ords := ords, gaps := gaps, got := got)];
    }
  }
}

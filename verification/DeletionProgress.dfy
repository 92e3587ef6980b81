/** What comes of a deletion: how each attempt settles, what a retry finds, and that maintenance is never stuck. */
module DeletionProgress {
  import opened Wrappers
  import opened Frames
  import opened RunManager
  import opened RunEffects
  import opened ThreadDeletion

  // ---------------------------------------------------------------- how an attempt settles

  /** The task an attempt waits for has failed. */
  predicate WaitFailed(h: Host, task: Option<nat>) {
    task.Some? && task.value < |h.tasks| && h.tasks[task.value].stage == Finished(false)
  }

  /** The ways an attempt can move, and what each of them means. */
  predicate Moved(h: Host, e: HostEvent, o: nat, stage': OpStage)
    requires o < |h.ops|
  {
    match h.ops[o].stage
    case Draining(_) => e == DrainEnds(o) && stage' == Drained
    case Drained => e == KeepFence(o) && stage'.Waiting?
    case Waiting(task) => e == WaitEnds(o) && stage' == if WaitFailed(h, task) then Settled(false) else Cleaning
    case Cleaning => e.CleanupEnds? && e.op == o && stage' == Settled(e.ok)
    case Settled(_) => false
  }

  /**
    How an attempt settles: out of its wait it cleans up, unless the task it waited for has failed; it succeeds exactly
    by a cleanup that does, and fails only by a failed task or a failed cleanup.
   */
  lemma AttemptMoves(h: Host, e: HostEvent, o: nat)
    requires HostInv(h) && Possible(h, e) && o < |h.ops|
    ensures o < |Advance(h, e).ops| && Advance(h, e).ops[o].thread == h.ops[o].thread
    ensures Advance(h, e).ops[o].stage != h.ops[o].stage ==> Moved(h, e, o, Advance(h, e).ops[o].stage)
    ensures e == DrainEnds(o) || e == KeepFence(o) || e == WaitEnds(o) || (e.CleanupEnds? && e.op == o) ==>
      Advance(h, e).ops[o].stage != h.ops[o].stage
  {
  }

  /** The wait of an attempt ends when the task it waits for does, whatever was queued behind it. */
  lemma WaitCanEnd(cap: nat, es: seq<HostEvent>, h: Host, o: nat)
    requires ReachableHost(cap, es, h) && o < |h.ops| && h.ops[o].stage.Waiting?
    ensures Parallel(h.core) && var task := h.ops[o].stage.task;
      && (task.Some? ==> task.value < |h.tasks| && h.tasks[task.value].thread == h.ops[o].thread)
      && (Possible(h, WaitEnds(o)) <==> task.None? || h.tasks[task.value].stage.Finished?)
  {
    ReachableHostIsSound(cap, es, h);
    assert OpOk(h, o);
  }

  /** A completed cleanup opens the thread again: the fence is gone, and unless shutting down a start installs a run. */
  lemma SuccessReopens(cap: nat, es: seq<HostEvent>, h: Host, o: nat, name: nat, resume: bool)
    requires ReachableHost(cap, es, h) && Parallel(h.core) && Possible(h, CleanupEnds(o, true)) && !h.core.closing
    ensures var h' := Advance(h, CleanupEnds(o, true)); var t := h.ops[o].thread; var r := |h.core.recs|;
      && t !in h'.fences && t !in h'.core.deleting
      && var c' := Start(h'.core, t, name, resume);
         t in c'.runs && c'.runs[t] == r < |c'.recs| && c'.recs[r].phase.Streaming?
  {
    ReachableHostIsSound(cap, es, h);
    assert OpOk(h, o);
    var h' := Advance(h, CleanupEnds(o, true));
    CleanupEndsKeeps(h, o, true);
    IdleStarts(h'.core, h.ops[o].thread, name, resume);
  }

  lemma IdleStarts(c: Core, t: ThreadId, name: nat, resume: bool)
    requires Inv(c) && !c.closing && t !in c.deleting && Idle(c, t)
    ensures var c' := Start(c, t, name, resume); var r := |c.recs|;
      t in c'.runs && c'.runs[t] == r < |c'.recs| && c'.recs[r].phase.Streaming?
  {
    StartInstalls(c, t, name, resume);
    forall q | 0 <= q < |c.recs| ensures Start(c, t, name, resume).recs[q].phase == c.recs[q].phase {
      StartAborts(c, t, name, resume, q);
    }
  }

  /** Whenever a settled operation is still there to join, the fence is held exactly if it failed. */
  lemma FenceTellsOutcome(cap: nat, es: seq<HostEvent>, h: Host, t: ThreadId)
    requires ReachableHost(cap, es, h) && t in h.pending
    ensures h.pending[t] < |h.ops| && h.ops[h.pending[t]].thread == t
    ensures h.ops[h.pending[t]].stage.Settled? ==> (t in h.fences <==> !h.ops[h.pending[t]].stage.ok)
  {
    ReachableHostIsSound(cap, es, h);
  }

  /** After a failed attempt is forgotten the next delete starts another, which goes straight to the wait. */
  lemma FailureCanRetry(cap: nat, es: seq<HostEvent>, h: Host, t: ThreadId)
    requires ReachableHost(cap, es, h) && t in h.pending && Parallel(h.core)
    requires h.pending[t] < |h.ops| && h.ops[h.pending[t]].stage == Settled(false)
    ensures Possible(h, Forget(h.pending[t]))
    ensures var h1 := Advance(h, Forget(h.pending[t])); var h2 := StartDelete(h1, t);
      && t !in h1.pending && h1.fences == h.fences
      && |h2.ops| == |h.ops| + 1 && t in h2.pending && h2.pending[t] == |h.ops|
      && h2.ops[|h.ops|] == Op(t, Waiting(Lookup(h.latest, t)), true)
  {
    FenceTellsOutcome(cap, es, h, t);
  }

  /** After a successful one, the next delete of the thread drains it anew. */
  lemma SuccessStartsOver(cap: nat, es: seq<HostEvent>, h: Host, t: ThreadId)
    requires ReachableHost(cap, es, h) && t in h.pending && Parallel(h.core)
    requires h.pending[t] < |h.ops| && h.ops[h.pending[t]].stage == Settled(true)
    ensures Possible(h, Forget(h.pending[t]))
    ensures var h2 := StartDelete(Advance(h, Forget(h.pending[t])), t);
      && |h2.ops| == |h.ops| + 1 && t in h2.pending && h2.pending[t] == |h.ops|
      && h2.ops[|h.ops|].stage.Draining? && t in h2.core.deleting
  {
    FenceTellsOutcome(cap, es, h, t);
  }

  // ---------------------------------------------------------------- maintenance

  function TasksOf(tasks: seq<Task>, t: ThreadId): nat {
    if tasks == [] then 0
    else
      var last := tasks[|tasks| - 1];
      TasksOf(tasks[..|tasks| - 1], t) + (if last.thread == t && !last.outside then 1 else 0)
  }

  function EndsOf(ends: seq<RunEnd>, t: ThreadId): nat {
    if ends == [] then 0
    else EndsOf(ends[..|ends| - 1], t) + (if ends[|ends| - 1].thread == t then 1 else 0)
  }

  lemma TaskAdded(tasks: seq<Task>, task: Task, t: ThreadId)
    ensures TasksOf(tasks + [task], t) == TasksOf(tasks, t) + (if task.thread == t && !task.outside then 1 else 0)
  {
    assert (tasks + [task])[..|tasks|] == tasks;
  }

  lemma EndAdded(ends: seq<RunEnd>, end: RunEnd, t: ThreadId)
    ensures EndsOf(ends + [end], t) == EndsOf(ends, t) + (if end.thread == t then 1 else 0)
  {
    assert (ends + [end])[..|ends|] == ends;
  }

  lemma {:induction false} StageIsNoTask(tasks: seq<Task>, k: nat, stage: TaskStage, t: ThreadId)
    requires k < |tasks|
    ensures TasksOf(Staged(tasks, k, stage), t) == TasksOf(tasks, t)
  {
    var n := |tasks| - 1;
    if k < n {
      assert Staged(tasks, k, stage)[..n] == Staged(tasks[..n], k, stage);
      StageIsNoTask(tasks[..n], k, stage, t);
    } else {
      assert Staged(tasks, k, stage)[..n] == tasks[..n];
    }
  }

  predicate OneMoreAtMost(ends: seq<RunEnd>, ends': seq<RunEnd>) {
    ends' == ends || (|ends'| == |ends| + 1 && ends' == ends + [ends'[|ends|]])
  }

  lemma FinalizeOneEnd(c: Core, r: nat, failed: bool)
    requires Parallel(c) && r < |c.recs|
    ensures OneMoreAtMost(c.ends, Finalize(c, r, failed).ends)
  {
  }

  /** A step of the manager announces at most one end. */
  lemma OneEndAtMost(c: Core, e: CoreEvent)
    requires Parallel(c) && Enabled(c, e)
    ensures OneMoreAtMost(c.ends, Step(c, e).ends)
  {
    match e
    case StreamEnd(r) => FinalizeOneEnd(c, r, false);
    case StreamClosed(r) => FinalizeOneEnd(c, r, false);
    case StreamThrow(r) =>
      FinalizeOneEnd(c, r, false);
      FinalizeOneEnd(Append(c, r, LifecycleFrame(Failed)), r, true);
    case _ =>
  }

  lemma RunEvCounts(h: Host, e: CoreEvent, t: ThreadId)
    requires Parallel(h.core) && Possible(h, RunEv(e)) && TasksOf(h.tasks, t) == EndsOf(h.core.ends, t)
    ensures var h' := Advance(h, RunEv(e)); TasksOf(h'.tasks, t) == EndsOf(h'.core.ends, t)
  {
    OneEndAtMost(h.core, e);
    var ends' := Step(h.core, e).ends;
    if |ends'| > |h.core.ends| {
      var end := ends'[|h.core.ends|];
      EndAdded(h.core.ends, end, t);
      TaskAdded(h.tasks, Task(end.thread, Lookup(h.latest, end.thread), false, Pending), t);
    }
  }

  lemma AdvanceCounts(h: Host, e: HostEvent, t: ThreadId)
    requires Parallel(h.core) && Possible(h, e) && TasksOf(h.tasks, t) == EndsOf(h.core.ends, t)
    ensures var h' := Advance(h, e); TasksOf(h'.tasks, t) == EndsOf(h'.core.ends, t)
  {
    match e
    case RunEv(ce) => RunEvCounts(h, ce, t);
    case Enqueue(u) => TaskAdded(h.tasks, Task(u, Lookup(h.latest, u), true, Pending), t);
    case TaskStart(k) => StageIsNoTask(h.tasks, k, Running, t);
    case TaskEnd(k, ok) => StageIsNoTask(h.tasks, k, Finished(ok), t);
    case _ =>
  }

  lemma {:induction false} HistoryCounts(h: Host, es: seq<HostEvent>, t: ThreadId)
    requires Parallel(h.core) && CanRunHost(h, es) && TasksOf(h.tasks, t) == EndsOf(h.core.ends, t)
    ensures var h' := AfterHost(h, es); TasksOf(h'.tasks, t) == EndsOf(h'.core.ends, t)
    decreases |es|
  {
    if es != [] {
      AdvanceCounts(h, es[0], t);
      HistoryCounts(Advance(h, es[0]), es[1..], t);
    }
  }

  /** Every announced end of a run queues exactly one maintenance task of its thread. */
  lemma EachEndOneTask(cap: nat, es: seq<HostEvent>, h: Host, t: ThreadId)
    requires ReachableHost(cap, es, h)
    ensures TasksOf(h.tasks, t) == EndsOf(h.core.ends, t)
  {
    HistoryCounts(InitHost(cap), es, t);
  }

  predicate TaskCanGo(h: Host, q: nat)
    requires Parallel(h.core)
  {
    q < |h.tasks| && (h.tasks[q].stage == Running || Possible(h, TaskStart(q)))
  }

  lemma {:induction false} OldestCanGo(h: Host, k: nat)
    requires Parallel(h.core) && PriorOk(h.tasks) && k < |h.tasks| && !h.tasks[k].stage.Finished?
    ensures exists q :: 0 <= q <= k && TaskCanGo(h, q) && h.tasks[q].thread == h.tasks[k].thread
    decreases k
  {
    if j :| 0 <= j < k && h.tasks[j].thread == h.tasks[k].thread && !h.tasks[j].stage.Finished? {
      OldestCanGo(h, j);
    } else {
      assert TaskCanGo(h, k);
    }
  }

  /** Maintenance is never stuck: while a task of a thread is unfinished, one of them runs or can start. */
  lemma MaintenanceNeverStuck(cap: nat, es: seq<HostEvent>, h: Host, k: nat)
    requires ReachableHost(cap, es, h) && k < |h.tasks| && !h.tasks[k].stage.Finished?
    ensures Parallel(h.core) && exists q :: 0 <= q <= k && TaskCanGo(h, q) && h.tasks[q].thread == h.tasks[k].thread
  {
    ReachableHostIsSound(cap, es, h);
    OldestCanGo(h, k);
  }

  /** A cleared task is no longer waited for: the thread keeps an entry exactly if a later task was queued. */
  lemma ClearedIsForgotten(cap: nat, es: seq<HostEvent>, h: Host, k: nat)
    requires ReachableHost(cap, es, h) && Parallel(h.core) && Possible(h, TaskClear(k))
    ensures var h' := Advance(h, TaskClear(k)); var t := h.tasks[k].thread;
      && (t in h'.latest <==> t in h.latest && exists j :: k < j < |h.tasks| && h.tasks[j].thread == t)
      && (forall u :: u != t ==> Lookup(h'.latest, u) == Lookup(h.latest, u))
  {
    ReachableHostIsSound(cap, es, h);
    var t := h.tasks[k].thread;
    if t in h.latest && h.latest[t] != k {
      assert k < h.latest[t] && h.tasks[h.latest[t]].thread == t;
    }
  }
}

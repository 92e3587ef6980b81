/**
  Thread deletion and per-thread maintenance in the agent host, over the run manager.
  `outside` in a task marks one not enqueued by a run end, `retry` in an operation one that found the fence of a failed
  attempt; both are history.
 */
module ThreadDeletion {
  import opened Wrappers
  import opened Frames
  import opened RunManager
  import opened RunInvariant
  import opened RunTheorems

  datatype TaskStage = Pending | Running | Finished(ok: bool)

  datatype Task = Task(thread: ThreadId, prior: Option<nat>, outside: bool, stage: TaskStage)

  /** Where one deletion stands: draining runs, drained, waiting for maintenance, cleaning up, settled. */
  datatype OpStage = Draining(drain: nat) | Drained | Waiting(task: Option<nat>) | Cleaning | Settled(ok: bool)

  datatype Op = Op(thread: ThreadId, stage: OpStage, retry: bool)

  datatype Host = Host(
    core: Core,
    fences: set<ThreadId>,
    pending: map<ThreadId, nat>, ops: seq<Op>,
    latest: map<ThreadId, nat>, tasks: seq<Task>)

  datatype HostEvent =
    | RunEv(e: CoreEvent)
    | Enqueue(thread: ThreadId)
    | TaskStart(task: nat)
    | TaskEnd(task: nat, ok: bool)
    | TaskClear(task: nat)
    | Delete(thread: ThreadId)
    | DrainEnds(op: nat)
    | KeepFence(op: nat)
    | WaitEnds(op: nat)
    | CleanupEnds(op: nat, ok: bool)
    | Forget(op: nat)

  function InitHost(cap: nat): Host {
    Host(Init(cap), {}, map[], [], map[], [])
  }

  function Lookup(m: map<ThreadId, nat>, t: ThreadId): Option<nat> {
    if t in m then Some(m[t]) else None
  }

  /** queueThreadMaintenance: the task runs when the thread's latest task has settled. */
  function QueueTask(h: Host, t: ThreadId, outside: bool): Host {
    h.(tasks := h.tasks + [Task(t, Lookup(h.latest, t), outside, Pending)], latest := h.latest[t := |h.tasks|])
  }

  predicate TaskDone(h: Host, k: nat) {
    k < |h.tasks| && h.tasks[k].stage.Finished?
  }

  predicate Possible(h: Host, e: HostEvent)
    requires Parallel(h.core)
  {
    match e
    case RunEv(ce) =>
      Enabled(h.core, ce) && !ce.BeginDeletion? && !ce.LowerFence? && !ce.DrainSettled? && !ce.DiscardThread?
    case Enqueue(_) => true
    case TaskStart(k) =>
      k < |h.tasks| && h.tasks[k].stage == Pending && (h.tasks[k].prior.Some? ==> TaskDone(h, h.tasks[k].prior.value))
    case TaskEnd(k, _) => k < |h.tasks| && h.tasks[k].stage == Running
    case TaskClear(k) => TaskDone(h, k)
    case Delete(_) => true
    case DrainEnds(o) => o < |h.ops| && h.ops[o].stage.Draining? && Enabled(h.core, DrainSettled(h.ops[o].stage.drain))
    case KeepFence(o) => o < |h.ops| && h.ops[o].stage.Drained?
    case WaitEnds(o) =>
      o < |h.ops| && h.ops[o].stage.Waiting?
      && (h.ops[o].stage.task.Some? ==> TaskDone(h, h.ops[o].stage.task.value))
    case CleanupEnds(o, _) => o < |h.ops| && h.ops[o].stage.Cleaning?
    case Forget(o) => o < |h.ops| && h.ops[o].stage.Settled?
  }

  function SetStage(h: Host, o: nat, stage: OpStage): Host
    requires o < |h.ops|
  {
    h.(ops := h.ops[o := h.ops[o].(stage := stage)])
  }

  /** The thread of the end event that a step of the manager announces, if it announces one. */
  function NewEnd(c: Core, c': Core): Option<ThreadId> {
    if |c'.ends| > |c.ends| then Some(c'.ends[|c'.ends| - 1].thread) else None
  }

  /** Concurrent deletes share the pending operation; a retry reuses the fence a failed attempt left. */
  function StartDelete(h: Host, t: ThreadId): (h': Host)
    requires Parallel(h.core)
    ensures Parallel(h'.core)
  {
    if t in h.pending then h
    else
      var h1 := h.(pending := h.pending[t := |h.ops|]);
      if t in h.fences then h1.(ops := h.ops + [Op(t, Waiting(Lookup(h.latest, t)), true)])
      else h1.(core := Step(h.core, BeginDeletion(t)), ops := h.ops + [Op(t, Draining(|h.core.drains|), false)])
  }

  function Advance(h: Host, e: HostEvent): (h': Host)
    requires Parallel(h.core) && Possible(h, e)
    ensures Parallel(h'.core)
  {
    match e
    case RunEv(ce) =>
      var c' := Step(h.core, ce);
      var end := NewEnd(h.core, c');
      var h1 := h.(core := c');
      if end.Some? then QueueTask(h1, end.value, false) else h1
    case Enqueue(t) => QueueTask(h, t, true)
    case TaskStart(k) => h.(tasks := h.tasks[k := h.tasks[k].(stage := Running)])
    case TaskEnd(k, ok) => h.(tasks := h.tasks[k := h.tasks[k].(stage := Finished(ok))])
    case TaskClear(k) =>
      var t := h.tasks[k].thread;
      if Lookup(h.latest, t) == Some(k) then h.(latest := h.latest - {t}) else h
    case Delete(t) => StartDelete(h, t)
    case DrainEnds(o) => SetStage(h.(core := Step(h.core, DrainSettled(h.ops[o].stage.drain))), o, Drained)
    case KeepFence(o) =>
      SetStage(h.(fences := h.fences + {h.ops[o].thread}), o, Waiting(Lookup(h.latest, h.ops[o].thread)))
    case WaitEnds(o) =>
      var k := h.ops[o].stage.task;
      SetStage(h, o, if k.None? || h.tasks[k.value].stage.ok then Cleaning else Settled(false))
    case CleanupEnds(o, ok) =>
      var t := h.ops[o].thread;
      SetStage(if ok then h.(fences := h.fences - {t}, core := Step(h.core, LowerFence(t))) else h, o, Settled(ok))
    case Forget(o) =>
      var t := h.ops[o].thread;
      if Lookup(h.pending, t) == Some(o) then h.(pending := h.pending - {t}) else h
  }

  // ---------------------------------------------------------------- maintenance runs one task at a time

  ghost predicate LatestOk(latest: map<ThreadId, nat>, tasks: seq<Task>) {
    && (forall t <- latest :: latest[t] < |tasks| && tasks[latest[t]].thread == t)
    && (forall k :: 0 <= k < |tasks| && tasks[k].thread in latest ==> k <= latest[tasks[k].thread])
    && (forall k :: 0 <= k < |tasks| && !tasks[k].stage.Finished? ==> tasks[k].thread in latest)
  }

  ghost predicate PriorOk(tasks: seq<Task>) {
    forall k :: 0 <= k < |tasks| && tasks[k].prior.Some? ==>
      && tasks[k].prior.value < k && tasks[tasks[k].prior.value].thread == tasks[k].thread
      && forall j :: tasks[k].prior.value < j < k ==> tasks[j].thread != tasks[k].thread
  }

  /** Whether a task has started, or has nothing to wait for. */
  predicate Free(task: Task) {
    task.stage != Pending || task.prior.None?
  }

  /** A free task has only finished tasks of its thread before it. */
  ghost predicate InTurn(tasks: seq<Task>) {
    forall j, k :: 0 <= j < k < |tasks| && tasks[j].thread == tasks[k].thread && Free(tasks[k])
      ==> tasks[j].stage.Finished?
  }

  ghost predicate Queue(latest: map<ThreadId, nat>, tasks: seq<Task>) {
    LatestOk(latest, tasks) && PriorOk(tasks) && InTurn(tasks)
  }

  lemma NewestFinished(latest: map<ThreadId, nat>, tasks: seq<Task>, k: nat, j: nat)
    requires Queue(latest, tasks) && j <= k < |tasks| && tasks[k].stage.Finished? && tasks[j].thread == tasks[k].thread
    ensures tasks[j].stage.Finished?
  {
  }

  lemma QueueTaskLatest(latest: map<ThreadId, nat>, tasks: seq<Task>, task: Task)
    requires LatestOk(latest, tasks)
    ensures LatestOk(latest[task.thread := |tasks|], tasks + [task])
  {
  }

  lemma QueueTaskPrior(latest: map<ThreadId, nat>, tasks: seq<Task>, t: ThreadId, outside: bool)
    requires LatestOk(latest, tasks) && PriorOk(tasks)
    ensures PriorOk(tasks + [Task(t, Lookup(latest, t), outside, Pending)])
  {
  }

  lemma QueueTaskTurn(latest: map<ThreadId, nat>, tasks: seq<Task>, t: ThreadId, outside: bool)
    requires LatestOk(latest, tasks) && InTurn(tasks)
    ensures InTurn(tasks + [Task(t, Lookup(latest, t), outside, Pending)])
  {
  }

  lemma QueueTaskKeeps(h: Host, t: ThreadId, outside: bool)
    requires Queue(h.latest, h.tasks)
    ensures Queue(QueueTask(h, t, outside).latest, QueueTask(h, t, outside).tasks)
  {
    QueueTaskLatest(h.latest, h.tasks, Task(t, Lookup(h.latest, t), outside, Pending));
    QueueTaskPrior(h.latest, h.tasks, t, outside);
    QueueTaskTurn(h.latest, h.tasks, t, outside);
  }

  function Staged(tasks: seq<Task>, k: nat, stage: TaskStage): seq<Task>
    requires k < |tasks|
  {
    tasks[k := tasks[k].(stage := stage)]
  }

  lemma StageKeepsTurn(tasks: seq<Task>, k: nat, stage: TaskStage)
    requires InTurn(tasks) && PriorOk(tasks) && k < |tasks| && stage != Pending && !tasks[k].stage.Finished?
    requires tasks[k].stage == Pending && tasks[k].prior.Some? ==>
      tasks[k].prior.value < |tasks| && tasks[tasks[k].prior.value].stage.Finished?
    ensures InTurn(Staged(tasks, k, stage))
  {
    var tasks' := Staged(tasks, k, stage);
    forall i, j | 0 <= i < j < |tasks| && tasks'[i].thread == tasks'[j].thread && Free(tasks'[j])
      ensures tasks'[i].stage.Finished?
    {
      if j == k && tasks[k].stage == Pending && tasks[k].prior.Some? {
        assert i <= tasks[k].prior.value;
        assert tasks[i].stage.Finished?;
      }
    }
  }

  lemma StageKeepsLatest(latest: map<ThreadId, nat>, tasks: seq<Task>, k: nat, stage: TaskStage)
    requires LatestOk(latest, tasks) && PriorOk(tasks) && k < |tasks| && !tasks[k].stage.Finished?
    ensures LatestOk(latest, Staged(tasks, k, stage)) && PriorOk(Staged(tasks, k, stage))
  {
  }

  lemma StageKeepsQueue(latest: map<ThreadId, nat>, tasks: seq<Task>, k: nat, stage: TaskStage)
    requires Queue(latest, tasks) && k < |tasks|
    requires !tasks[k].stage.Finished? && stage != Pending
    requires tasks[k].stage == Pending && tasks[k].prior.Some? ==>
      tasks[k].prior.value < |tasks| && tasks[tasks[k].prior.value].stage.Finished?
    ensures Queue(latest, Staged(tasks, k, stage))
  {
    StageKeepsTurn(tasks, k, stage);
    StageKeepsLatest(latest, tasks, k, stage);
  }

  lemma ClearKeepsQueue(latest: map<ThreadId, nat>, tasks: seq<Task>, t: ThreadId)
    requires Queue(latest, tasks) && t in latest && tasks[latest[t]].stage.Finished?
    ensures Queue(latest - {t}, tasks)
  {
  }

  // ---------------------------------------------------------------- what the fence protects

  ghost predicate Idle(c: Core, t: ThreadId) {
    forall r :: 0 <= r < |c.recs| && c.recs[r].thread == t ==> c.recs[r].phase.Done?
  }

  ghost predicate RunEndTasksDone(tasks: seq<Task>, t: ThreadId) {
    forall k :: 0 <= k < |tasks| && tasks[k].thread == t && !tasks[k].outside ==> tasks[k].stage.Finished?
  }

  ghost predicate OpOk(h: Host, o: nat)
    requires o < |h.ops|
  {
    var t := h.ops[o].thread;
    match h.ops[o].stage
    case Draining(d) =>
      && t in h.core.deleting && t !in h.fences && !h.ops[o].retry
      && d < |h.core.drains| && h.core.drains[d].thread == t
      && forall r :: 0 <= r < |h.core.recs| && h.core.recs[r].thread == t && !h.core.recs[r].phase.Done?
           ==> r in h.core.drains[d].waiting
    case Drained => t in h.core.deleting && t !in h.fences && Idle(h.core, t) && !h.ops[o].retry
    case Waiting(task) =>
      && t in h.fences
      && (forall k :: 0 <= k < |h.tasks| && h.tasks[k].thread == t && !h.tasks[k].outside ==>
            (task.Some? ==> k > task.value) ==> h.tasks[k].stage.Finished?)
      && (task.Some? ==> task.value < |h.tasks| && h.tasks[task.value].thread == t)
    case Cleaning => t in h.fences
    case Settled(_) => true
  }

  ghost predicate OpsOk(h: Host) {
    && (forall t <- h.pending :: h.pending[t] < |h.ops| && h.ops[h.pending[t]].thread == t)
    && (forall o :: 0 <= o < |h.ops| && !h.ops[o].stage.Settled? ==>
          h.ops[o].thread in h.pending && h.pending[h.ops[o].thread] == o)
    && (forall o :: 0 <= o < |h.ops| ==> OpOk(h, o))
    && (forall t <- h.pending :: Outcome(h.ops[h.pending[t]], h.fences))
  }

  /** A settled operation that is not forgotten yet has left the fence exactly if it failed. */
  predicate Outcome(op: Op, fences: set<ThreadId>) {
    op.stage.Settled? ==> (op.thread in fences <==> !op.stage.ok)
  }

  ghost predicate Fenced(h: Host) {
    && (forall t <- h.fences :: t in h.core.deleting && Idle(h.core, t))
    && (forall t <- h.core.deleting :: t in h.fences ||
          (t in h.pending && h.pending[t] < |h.ops|
           && (h.ops[h.pending[t]].stage.Draining? || h.ops[h.pending[t]].stage.Drained?)))
  }

  /** The attempt that raised the fence is still waiting for maintenance. */
  predicate FirstWait(pending: map<ThreadId, nat>, ops: seq<Op>, t: ThreadId) {
    t in pending && pending[t] < |ops| && ops[pending[t]].stage.Waiting? && !ops[pending[t]].retry
  }

  /** From the end of that wait on, whatever became of it, the tasks that run ends queued are finished. */
  ghost predicate Quiet(fences: set<ThreadId>, pending: map<ThreadId, nat>, ops: seq<Op>, tasks: seq<Task>) {
    forall t <- fences :: FirstWait(pending, ops, t) || RunEndTasksDone(tasks, t)
  }

  ghost predicate HostInv(h: Host) {
    && Inv(h.core) && Queue(h.latest, h.tasks) && OpsOk(h) && Fenced(h)
    && Quiet(h.fences, h.pending, h.ops, h.tasks)
  }

  /** While a thread is fenced, no run of it comes to life. */
  lemma FencedStaysDown(c: Core, e: CoreEvent, t: ThreadId, r: nat)
    requires Parallel(c) && Enabled(c, e) && t in c.deleting && !e.LowerFence?
    requires var c' := Step(c, e); r < |c'.recs| && c'.recs[r].thread == t && !c'.recs[r].phase.Done?
    ensures r < |c.recs| && c.recs[r].thread == t && !c.recs[r].phase.Done?
  {
    StepGrows(c, e);
  }

  lemma FinalizeKeepsDrains(c: Core, r: nat, failed: bool)
    requires Parallel(c) && r < |c.recs|
    ensures Finalize(c, r, failed).drains == c.drains
  {
  }

  lemma DrainsKept(c: Core, e: CoreEvent, d: nat)
    requires Parallel(c) && Enabled(c, e) && d < |c.drains|
    ensures var c' := Step(c, e);
      d < |c'.drains| && c'.drains[d].thread == c.drains[d].thread && c'.drains[d].waiting == c.drains[d].waiting
  {
    match e
    case StreamEnd(r) => FinalizeKeepsDrains(c, r, false);
    case StreamClosed(r) => FinalizeKeepsDrains(c, r, false);
    case StreamThrow(r) =>
      if c.recs[r].aborted {
        FinalizeKeepsDrains(c, r, false);
      } else {
        FinalizeKeepsDrains(Append(c, r, LifecycleFrame(Failed)), r, true);
      }
    case _ =>
  }

  lemma FinalizeAnnounces(c: Core, r: nat, failed: bool)
    requires Parallel(c) && r < |c.recs|
    ensures var ends := Finalize(c, r, failed).ends;
      ends == c.ends || (|ends| == |c.ends| + 1 && ends[|c.ends|].thread == c.recs[r].thread)
  {
  }

  lemma ThrowAnnounces(c: Core, r: nat)
    requires Parallel(c) && Enabled(c, StreamThrow(r))
    ensures var ends := Step(c, StreamThrow(r)).ends;
      ends == c.ends || (|ends| == |c.ends| + 1 && ends[|c.ends|].thread == c.recs[r].thread)
  {
    if c.recs[r].aborted {
      FinalizeAnnounces(c, r, false);
    } else {
      FinalizeAnnounces(Append(c, r, LifecycleFrame(Failed)), r, true);
    }
  }

  /** Only a thread with an unfinished run announces an end. */
  lemma EndNeedsRun(c: Core, e: CoreEvent)
    requires Parallel(c) && Enabled(c, e) && NewEnd(c, Step(c, e)).Some?
    ensures !Idle(c, NewEnd(c, Step(c, e)).value)
  {
    match e
    case StreamEnd(r) => FinalizeAnnounces(c, r, false);
    case StreamClosed(r) => FinalizeAnnounces(c, r, false);
    case StreamThrow(r) => ThrowAnnounces(c, r);
    case _ =>
  }

  lemma IdleStays(c: Core, e: CoreEvent, t: ThreadId)
    requires Parallel(c) && Enabled(c, e) && t in c.deleting && !e.LowerFence? && Idle(c, t)
    ensures Idle(Step(c, e), t)
  {
    forall r | 0 <= r < |Step(c, e).recs| && Step(c, e).recs[r].thread == t
      ensures Step(c, e).recs[r].phase.Done?
    {
      if !Step(c, e).recs[r].phase.Done? {
        FencedStaysDown(c, e, t, r);
      }
    }
  }

  lemma OpOkStays(h: Host, e: CoreEvent, o: nat)
    requires HostInv(h) && Enabled(h.core, e) && !e.LowerFence? && o < |h.ops|
    requires e.BeginDeletion? ==> e.thread !in h.core.deleting
    ensures OpOk(h.(core := Step(h.core, e)), o)
  {
    assert OpOk(h, o);
    var t := h.ops[o].thread;
    match h.ops[o].stage
    case Draining(d) =>
      DrainsKept(h.core, e, d);
      var recs := Step(h.core, e).recs;
      forall r | 0 <= r < |recs| && recs[r].thread == t && !recs[r].phase.Done?
        ensures r in h.core.drains[d].waiting
      {
        FencedStaysDown(h.core, e, t, r);
      }
      DeletingGrows(h.core, e);
    case Drained =>
      IdleStays(h.core, e, t);
      DeletingGrows(h.core, e);
    case _ =>
  }

  lemma DeletingGrows(c: Core, e: CoreEvent)
    requires Parallel(c) && Enabled(c, e) && !e.LowerFence?
    ensures c.deleting <= Step(c, e).deleting
    ensures Step(c, e).deleting == if e.BeginDeletion? then c.deleting + {e.thread} else c.deleting
  {
  }

  /** A step of the manager, other than the two that move the fence, keeps the host's invariant. */
  lemma CoreKeepsHost(h: Host, e: CoreEvent)
    requires HostInv(h) && Enabled(h.core, e) && !e.LowerFence? && !e.BeginDeletion?
    ensures HostInv(h.(core := Step(h.core, e)))
  {
    StepKeeps(h.core, e);
    DeletingGrows(h.core, e);
    forall o | 0 <= o < |h.ops| ensures OpOk(h.(core := Step(h.core, e)), o) {
      OpOkStays(h, e, o);
    }
    forall t <- h.fences ensures Idle(Step(h.core, e), t) {
      IdleStays(h.core, e, t);
    }
  }

  lemma QueueTaskKeepsHost(h: Host, t: ThreadId, outside: bool)
    requires HostInv(h) && (outside || t !in h.fences)
    ensures HostInv(QueueTask(h, t, outside))
  {
    var h' := QueueTask(h, t, outside);
    QueueTaskKeeps(h, t, outside);
    forall o | 0 <= o < |h'.ops| ensures OpOk(h', o) {
      assert OpOk(h, o);
    }
  }

  lemma RunEvKeeps(h: Host, e: CoreEvent)
    requires HostInv(h) && Possible(h, RunEv(e))
    ensures HostInv(Advance(h, RunEv(e)))
  {
    CoreKeepsHost(h, e);
    var end := NewEnd(h.core, Step(h.core, e));
    if end.Some? {
      EndNeedsRun(h.core, e);
      QueueTaskKeepsHost(h.(core := Step(h.core, e)), end.value, false);
    }
  }

  lemma TasksKeepHost(h: Host, latest: map<ThreadId, nat>, tasks: seq<Task>)
    requires HostInv(h) && Queue(latest, tasks) && |tasks| == |h.tasks|
    requires forall k :: 0 <= k < |tasks| ==>
      && tasks[k].thread == h.tasks[k].thread && tasks[k].outside == h.tasks[k].outside
      && (h.tasks[k].stage.Finished? ==> tasks[k].stage.Finished?)
    ensures HostInv(h.(latest := latest, tasks := tasks))
  {
    forall o | 0 <= o < |h.ops| ensures OpOk(h.(latest := latest, tasks := tasks), o) {
      assert OpOk(h, o);
    }
  }

  lemma LookupCovers(h: Host, t: ThreadId)
    requires HostInv(h)
    ensures var k := Lookup(h.latest, t);
      && (k.Some? ==> k.value < |h.tasks| && h.tasks[k.value].thread == t)
      && (forall j :: 0 <= j < |h.tasks| && h.tasks[j].thread == t && (k.Some? ==> j > k.value)
            ==> h.tasks[j].stage.Finished?)
  {
  }

  lemma OthersOk(h: Host, h': Host, o: nat)
    requires HostInv(h) && o < |h.ops| && |h'.ops| == |h.ops| && !h.ops[o].stage.Settled?
    requires h'.ops == h.ops[o := h.ops[o].(stage := h'.ops[o].stage)]
    requires h'.tasks == h.tasks
    requires h'.core == h.core || h'.core == h.core.(deleting := h.core.deleting - {h.ops[o].thread})
    requires forall t :: t != h.ops[o].thread ==> (t in h'.fences <==> t in h.fences)
    ensures forall i :: 0 <= i < |h.ops| && i != o ==> OpOk(h', i)
  {
    forall i | 0 <= i < |h.ops| && i != o ensures OpOk(h', i) {
      assert OpOk(h, i);
      assert h.ops[i].stage.Settled? || h.ops[i].thread != h.ops[o].thread;
    }
  }

  lemma KeepFenceKeeps(h: Host, o: nat)
    requires HostInv(h) && Possible(h, KeepFence(o))
    ensures HostInv(Advance(h, KeepFence(o)))
  {
    assert OpOk(h, o);
    LookupCovers(h, h.ops[o].thread);
    OthersOk(h, Advance(h, KeepFence(o)), o);
  }

  lemma WaitEndsKeeps(h: Host, o: nat)
    requires HostInv(h) && Possible(h, WaitEnds(o))
    ensures HostInv(Advance(h, WaitEnds(o)))
  {
    assert OpOk(h, o);
    var t := h.ops[o].thread;
    var k := h.ops[o].stage.task;
    forall j | 0 <= j < |h.tasks| && h.tasks[j].thread == t && !h.tasks[j].outside
      ensures h.tasks[j].stage.Finished?
    {
      if k.Some? && j <= k.value {
        NewestFinished(h.latest, h.tasks, k.value, j);
      }
    }
    OthersOk(h, Advance(h, WaitEnds(o)), o);
  }

  lemma SettledQuiet(
    fences: set<ThreadId>, pending: map<ThreadId, nat>, ops: seq<Op>, tasks: seq<Task>, o: nat, ok: bool)
    requires Quiet(fences, pending, ops, tasks) && o < |ops| && ops[o].stage.Cleaning?
    ensures Quiet(fences, pending, ops[o := ops[o].(stage := Settled(ok))], tasks)
  {
  }

  lemma CleanupEndsKeeps(h: Host, o: nat, ok: bool)
    requires HostInv(h) && Possible(h, CleanupEnds(o, ok))
    ensures HostInv(Advance(h, CleanupEnds(o, ok)))
  {
    assert OpOk(h, o);
    var h' := Advance(h, CleanupEnds(o, ok));
    OthersOk(h, h', o);
    FencesKeep(h.core, h.core.deleting - {h.ops[o].thread}, h.core.closing);
    SettledQuiet(h.fences, h.pending, h.ops, h.tasks, o, ok);
    assert Quiet(h'.fences, h'.pending, h'.ops, h'.tasks);
  }

  /** When the drain settles, no run of the thread is left unfinished. */
  lemma DrainLeavesIdle(h: Host, o: nat)
    requires HostInv(h) && Possible(h, DrainEnds(o))
    ensures Idle(Step(h.core, DrainSettled(h.ops[o].stage.drain)), h.ops[o].thread)
  {
    assert OpOk(h, o);
  }

  lemma DrainEndsKeeps(h: Host, o: nat)
    requires HostInv(h) && Possible(h, DrainEnds(o))
    ensures HostInv(Advance(h, DrainEnds(o)))
  {
    var d := h.ops[o].stage.drain;
    CoreKeepsHost(h, DrainSettled(d));
    DrainLeavesIdle(h, o);
    StageMoves(h.(core := Step(h.core, DrainSettled(d))), o, Drained);
  }

  lemma StageMoves(h: Host, o: nat, stage: OpStage)
    requires HostInv(h) && o < |h.ops| && h.ops[o].stage.Draining? && stage.Drained? && Idle(h.core, h.ops[o].thread)
    ensures HostInv(SetStage(h, o, stage))
  {
    assert OpOk(h, o);
    OthersOk(h, SetStage(h, o, stage), o);
  }

  lemma StartDeleteKeeps(h: Host, t: ThreadId)
    requires HostInv(h)
    ensures HostInv(StartDelete(h, t))
  {
    if t !in h.pending {
      if t in h.fences {
        RetryKeeps(h, t);
      } else {
        FirstDeleteKeeps(h, t);
      }
    }
  }

  lemma RetryKeeps(h: Host, t: ThreadId)
    requires HostInv(h) && t !in h.pending && t in h.fences
    ensures HostInv(StartDelete(h, t))
  {
    var h' := StartDelete(h, t);
    LookupCovers(h, t);
    forall o | 0 <= o < |h'.ops| ensures OpOk(h', o) {
      assert o < |h.ops| ==> OpOk(h, o);
    }
  }

  lemma FirstDeleteOps(h: Host, t: ThreadId)
    requires HostInv(h) && t !in h.pending && t !in h.fences
    ensures OpsOk(StartDelete(h, t))
  {
    var h' := StartDelete(h, t);
    assert t !in h.core.deleting;
    forall o | 0 <= o < |h'.ops| ensures OpOk(h', o) {
      if o < |h.ops| {
        OpOkStays(h, BeginDeletion(t), o);
        SameOp(h.(core := h'.core), h', o);
      } else {
        FreshDrainCovers(h.core, t);
      }
    }
  }

  lemma SameOp(h: Host, h': Host, o: nat)
    requires o < |h.ops| && o < |h'.ops| && h'.ops[o] == h.ops[o] && OpOk(h, o)
    requires h'.core == h.core && h'.fences == h.fences && h'.tasks == h.tasks
    ensures OpOk(h', o)
  {
  }

  lemma FirstDeleteFenced(h: Host, t: ThreadId)
    requires HostInv(h) && t !in h.pending && t !in h.fences
    ensures Fenced(StartDelete(h, t))
  {
    var h' := StartDelete(h, t);
    DeletingGrows(h.core, BeginDeletion(t));
    forall u <- h.fences ensures Idle(h'.core, u) {
      IdleStays(h.core, BeginDeletion(t), u);
    }
  }

  lemma FirstDeleteKeeps(h: Host, t: ThreadId)
    requires HostInv(h) && t !in h.pending && t !in h.fences
    ensures HostInv(StartDelete(h, t))
  {
    StepKeeps(h.core, BeginDeletion(t));
    FirstDeleteOps(h, t);
    FirstDeleteFenced(h, t);
  }

  lemma FreshDrainCovers(c: Core, t: ThreadId)
    requires Inv(c)
    ensures var c' := Step(c, BeginDeletion(t)); var d := |c.drains|;
      && d < |c'.drains| && c'.drains[d].thread == t && t in c'.deleting
      && forall r :: 0 <= r < |c'.recs| && c'.recs[r].thread == t && !c'.recs[r].phase.Done?
           ==> r in c'.drains[d].waiting
  {
  }

  lemma TaskMoves(h: Host, k: nat, stage: TaskStage)
    requires HostInv(h) && stage != Pending
    requires Possible(h, TaskStart(k)) || (stage.Finished? && Possible(h, TaskEnd(k, stage.ok)))
    ensures HostInv(h.(tasks := Staged(h.tasks, k, stage)))
  {
    StageKeepsQueue(h.latest, h.tasks, k, stage);
    TasksKeepHost(h, h.latest, Staged(h.tasks, k, stage));
  }

  lemma TaskClears(h: Host, k: nat)
    requires HostInv(h) && Possible(h, TaskClear(k))
    ensures HostInv(Advance(h, TaskClear(k)))
  {
    var t := h.tasks[k].thread;
    if Lookup(h.latest, t) == Some(k) {
      ClearKeepsQueue(h.latest, h.tasks, t);
      TasksKeepHost(h, h.latest - {t}, h.tasks);
    }
  }

  /** The invariant of the host holds after every event from a state where it held. */
  lemma AdvanceKeeps(h: Host, e: HostEvent)
    requires HostInv(h) && Possible(h, e)
    ensures HostInv(Advance(h, e))
  {
    match e
    case RunEv(ce) => RunEvKeeps(h, ce);
    case Enqueue(t) => QueueTaskKeepsHost(h, t, true);
    case TaskStart(k) => TaskMoves(h, k, Running);
    case TaskEnd(k, ok) => TaskMoves(h, k, Finished(ok));
    case TaskClear(k) => TaskClears(h, k);
    case Delete(t) => StartDeleteKeeps(h, t);
    case DrainEnds(o) => DrainEndsKeeps(h, o);
    case KeepFence(o) => KeepFenceKeeps(h, o);
    case WaitEnds(o) => WaitEndsKeeps(h, o);
    case CleanupEnds(o, ok) => CleanupEndsKeeps(h, o, ok);
    case Forget(o) => ForgetKeeps(h, o);
  }

  lemma ForgetKeeps(h: Host, o: nat)
    requires HostInv(h) && Possible(h, Forget(o))
    ensures HostInv(Advance(h, Forget(o)))
  {
    var h' := Advance(h, Forget(o));
    forall i | 0 <= i < |h'.ops| ensures OpOk(h', i) {
      assert OpOk(h, i);
    }
  }

  // ---------------------------------------------------------------- histories

  ghost predicate CanRunHost(h: Host, es: seq<HostEvent>)
    requires Parallel(h.core)
    decreases |es|
  {
    es == [] || (Possible(h, es[0]) && CanRunHost(Advance(h, es[0]), es[1..]))
  }

  ghost function AfterHost(h: Host, es: seq<HostEvent>): (h': Host)
    requires Parallel(h.core) && CanRunHost(h, es)
    ensures Parallel(h'.core)
    decreases |es|
  {
    if es == [] then h else AfterHost(Advance(h, es[0]), es[1..])
  }

  lemma {:induction false} HostHistoryKeeps(h: Host, es: seq<HostEvent>)
    requires HostInv(h) && CanRunHost(h, es)
    ensures HostInv(AfterHost(h, es))
    decreases |es|
  {
    if es != [] {
      AdvanceKeeps(h, es[0]);
      HostHistoryKeeps(Advance(h, es[0]), es[1..]);
    }
  }

  ghost predicate ReachableHost(cap: nat, es: seq<HostEvent>, h: Host) {
    cap >= 1 && CanRunHost(InitHost(cap), es) && h == AfterHost(InitHost(cap), es)
  }

  lemma ReachableHostIsSound(cap: nat, es: seq<HostEvent>, h: Host)
    requires ReachableHost(cap, es, h)
    ensures HostInv(h)
  {
    HostHistoryKeeps(InitHost(cap), es);
  }

  /**
    The deletion fence. Once a deletion of a thread has drained it, and for as long as the fence is held, failed
    attempts included, the thread has no unfinished run and start refuses one; a retry neither drains again nor touches
    the run manager or the fence.
   */
  lemma FenceHolds(cap: nat, es: seq<HostEvent>, h: Host, t: ThreadId, name: nat, resume: bool)
    requires ReachableHost(cap, es, h)
    requires t in h.fences || (t in h.pending && h.pending[t] < |h.ops| && h.ops[h.pending[t]].stage.Drained?)
    ensures forall r :: 0 <= r < |h.core.recs| && h.core.recs[r].thread == t ==> h.core.recs[r].phase.Done?
    ensures Start(h.core, t, name, resume) == h.core
    ensures var h' := StartDelete(h, t); h'.core == h.core && h'.fences == h.fences
  {
    ReachableHostIsSound(cap, es, h);
    if t !in h.fences {
      assert OpOk(h, h.pending[t]);
    }
  }

  /**
    Whenever the fence of a thread is held, between attempts, in a retry and while cleaning up, the maintenance tasks
    that its run ends queued are finished; only the attempt that raised the fence may still wait for one, and then none
    later than that one is left.
   */
  lemma FenceIsQuiet(cap: nat, es: seq<HostEvent>, h: Host, t: ThreadId, k: nat)
    requires ReachableHost(cap, es, h)
    requires t in h.fences && k < |h.tasks| && h.tasks[k].thread == t && !h.tasks[k].outside
    ensures h.tasks[k].stage.Finished? || FirstWait(h.pending, h.ops, t)
    ensures h.tasks[k].stage.Finished? || (var task := h.ops[h.pending[t]].stage.task; task.Some? && k <= task.value)
  {
    ReachableHostIsSound(cap, es, h);
    if FirstWait(h.pending, h.ops, t) {
      assert OpOk(h, h.pending[t]);
    }
  }

  /** While a deletion cleans up, the fence is held and nothing a run end queued is waiting or running. */
  lemma CleanupIsQuiet(cap: nat, es: seq<HostEvent>, h: Host, o: nat, k: nat)
    requires ReachableHost(cap, es, h)
    requires o < |h.ops| && h.ops[o].stage.Cleaning? && k < |h.tasks| && h.tasks[k].thread == h.ops[o].thread
    requires !h.tasks[k].outside
    ensures h.tasks[k].stage.Finished? && h.ops[o].thread in h.fences
  {
    ReachableHostIsSound(cap, es, h);
    assert OpOk(h, o);
  }

  /** Maintenance tasks of one thread run one at a time, in the order they were queued. */
  lemma MaintenanceInOrder(cap: nat, es: seq<HostEvent>, h: Host, j: nat, k: nat)
    requires ReachableHost(cap, es, h)
    requires j < k < |h.tasks| && h.tasks[j].thread == h.tasks[k].thread && h.tasks[k].stage != Pending
    ensures h.tasks[j].stage.Finished?
  {
    ReachableHostIsSound(cap, es, h);
  }

  /** At most one deletion of a thread is under way, and every delete call joins it. */
  lemma DeletesAreShared(cap: nat, es: seq<HostEvent>, h: Host, t: ThreadId, i: nat, j: nat)
    requires ReachableHost(cap, es, h)
    requires i < |h.ops| && j < |h.ops| && h.ops[i].thread == t == h.ops[j].thread
    requires !h.ops[i].stage.Settled? && !h.ops[j].stage.Settled?
    ensures i == j && StartDelete(h, t) == h
  {
    ReachableHostIsSound(cap, es, h);
  }

  /** The fence of a thread falls only in the step in which a deletion of that thread completes. */
  lemma OnlySuccessLowersFence(h: Host, e: HostEvent, t: ThreadId)
    requires HostInv(h) && Possible(h, e) && t in h.fences
    ensures (t in Advance(h, e).fences && t in Advance(h, e).core.deleting)
      || (e.CleanupEnds? && e.ok && h.ops[e.op].thread == t)
  {
    if e.RunEv? {
      DeletingGrows(h.core, e.e);
    }
  }
}

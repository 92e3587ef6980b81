/** The agent host's deletion and maintenance maps, as the object that holds them beside the run manager. */
module AgentHostObject {
  import opened Wrappers
  import opened RunManager
  import opened ThreadDeletion
  import Observers
  import opened ProtocolRunManagerObject

  class AgentHost {
    const runs: ProtocolRunManager
    var deletionFences: set<ThreadId>
    var pendingDeletes: map<ThreadId, nat>
    var deletions: seq<Op>
    var maintenanceByThread: map<ThreadId, nat>
    var tasks: seq<Task>

    ghost function State(): Host
      reads this, runs
    {
      Host(runs.Manager(), deletionFences, pendingDeletes, deletions, maintenanceByThread, tasks)
    }

    ghost predicate Wired()
      reads this, runs
    {
      Observers.Linked(runs.State())
    }

    constructor (runs: ProtocolRunManager)
      ensures this.runs == runs
      ensures State() == Host(runs.Manager(), {}, map[], [], map[], [])
    {
      this.runs := runs;
      deletionFences, pendingDeletes, deletions, maintenanceByThread, tasks := {}, map[], [], map[], [];
    }

    method QueueThreadMaintenance(t: ThreadId, outside: bool) returns (task: nat)
      modifies this`maintenanceByThread, this`tasks
      ensures State() == QueueTask(old(State()), t, outside) && task == |old(tasks)|
    {
      task := |tasks|;
      var prior := if t in maintenanceByThread then Some(maintenanceByThread[t]) else None;
      tasks := tasks + [Task(t, prior, outside, Pending)];
      maintenanceByThread := maintenanceByThread[t := task];
    }

    /** Joins the pending deletion of a thread, or starts one up to its first await. */
    method DeleteThread(t: ThreadId) returns (op: nat)
      requires Wired()
      modifies this`pendingDeletes, this`deletions, runs
      ensures State() == StartDelete(old(State()), t)
      ensures Wired() && t in pendingDeletes && pendingDeletes[t] == op
    {
      if t in pendingDeletes {
        return pendingDeletes[t];
      }
      op := |deletions|;
      if t in deletionFences {
        var wait := if t in maintenanceByThread then Some(maintenanceByThread[t]) else None;
        deletions := deletions + [Op(t, Waiting(wait), true)];
      } else {
        deletions := deletions + [Op(t, Draining(|runs.drains|), false)];
        runs.BeginThreadDeletion(t);
      }
      pendingDeletes := pendingDeletes[t := op];
    }

    /** beginThreadDeletion has resolved: keep the fence and look up the maintenance to wait for. */
    method OnDrained(op: nat)
      requires Wired() && Possible(State(), KeepFence(op))
      modifies this`deletionFences, this`deletions
      ensures State() == Advance(old(State()), KeepFence(op))
    {
      var t := deletions[op].thread;
      deletionFences := deletionFences + {t};
      var wait := if t in maintenanceByThread then Some(maintenanceByThread[t]) else None;
      deletions := deletions[op := deletions[op].(stage := Waiting(wait))];
    }

    /** The maintenance waited for has settled: the cleanup begins, unless it failed and the wait threw. */
    method OnMaintained(op: nat)
      requires Wired() && Possible(State(), WaitEnds(op))
      modifies this`deletions
      ensures State() == Advance(old(State()), WaitEnds(op))
    {
      var task := deletions[op].stage.task;
      if task.Some? && !tasks[task.value].stage.ok {
        deletions := deletions[op := deletions[op].(stage := Settled(false))];
        return;
      }
      deletions := deletions[op := deletions[op].(stage := Cleaning)];
    }

    /** The settled deletion is forgotten if it is still the thread's. */
    method OnDeletionSettled(op: nat)
      requires Wired() && Possible(State(), Forget(op))
      modifies this`pendingDeletes
      ensures State() == Advance(old(State()), Forget(op))
    {
      var t := deletions[op].thread;
      if t in pendingDeletes && pendingDeletes[t] == op {
        pendingDeletes := pendingDeletes - {t};
      }
    }

    /** The end of the cleanup: the fence falls only if every part of it succeeded. */
    method OnCleanedUp(op: nat, completed: bool)
      requires Wired() && Possible(State(), CleanupEnds(op, completed))
      modifies this`deletionFences, this`deletions, runs`deleting
      ensures State() == Advance(old(State()), CleanupEnds(op, completed))
    {
      if completed {
        var t := deletions[op].thread;
        deletionFences := deletionFences - {t};
        runs.deleting := runs.deleting - {t};
      }
      deletions := deletions[op := deletions[op].(stage := Settled(completed))];
    }
  }
}

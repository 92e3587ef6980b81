/** The client's stream store as the object it is: its maps, sets and waiting list change in place. */
module ProtocolStreamStoreObject {
  import opened Wrappers
  import opened Scheduler

  class ProtocolStreamStore {
    const maxParallelRuns: nat
    var threads: map<ThreadId, Thread>
    var activeRunThreads: set<ThreadId>
    var pendingRunThreads: seq<ThreadId>
    var pendingRunThreadSet: set<ThreadId>

    ghost function State(): Store
      reads this
    {
      Store(maxParallelRuns, threads, activeRunThreads, pendingRunThreads, pendingRunThreadSet)
    }

    ghost predicate Valid()
      reads this
    {
      AllLinked(State())
    }

    constructor (maxParallelRuns: nat)
      ensures Valid() && State() == Init(maxParallelRuns)
    {
      this.maxParallelRuns := maxParallelRuns;
      threads, activeRunThreads, pendingRunThreads, pendingRunThreadSet := map[], {}, [], {};
    }

    function Record(t: ThreadId): (th: Thread)
      reads this
      ensures th == Get(State(), t)
    {
      if t in threads then threads[t] else NEW_THREAD
    }

    method SetRecord(t: ThreadId, th: Thread)
      requires Valid() && Linked(th)
      modifies this`threads
      ensures Valid() && State() == Put(old(State()), t, th)
    {
      threads := threads[t := th];
    }

    /** Fills free slots from the waiting list, passing over threads that cannot run now. */
    method PumpRunQueue()
      requires Valid()
      modifies this
      ensures Valid() && State() == Pump(old(State()))
    {
      while |activeRunThreads| < maxParallelRuns && pendingRunThreads != []
        invariant Valid() && Pump(State()) == Pump(old(State()))
        decreases |pendingRunThreads|
      {
        var t := pendingRunThreads[0];
        pendingRunThreads := pendingRunThreads[1..];
        pendingRunThreadSet := pendingRunThreadSet - {t};
        var th := Record(t);
        if th.entry.Some? {
          var e := th.entries[th.entry.value];
          if e.queued != [] && t !in activeRunThreads && !e.steering && !Busy(th) {
            SetRecord(t, SubmitHead(th));
            activeRunThreads := activeRunThreads + {t};
          }
        }
      }
    }

    method DrainQueued(t: ThreadId)
      requires Valid()
      modifies this
      ensures Valid() && State() == Drain(old(State()), t)
    {
      var th := Record(t);
      if th.entry.None? || Busy(th) || t in activeRunThreads {
        return;
      }
      var e := th.entries[th.entry.value];
      if e.queued == [] || e.steering {
        return;
      }
      if t !in pendingRunThreadSet {
        pendingRunThreadSet := pendingRunThreadSet + {t};
        pendingRunThreads := pendingRunThreads + [t];
      }
      PumpRunQueue();
    }

    method Send(t: ThreadId)
      requires Valid()
      modifies this
      ensures Valid() && State() == Scheduler.Send(old(State()), t)
    {
      var before := Record(t);
      var th := WithEntry(before);
      var e := th.entries[th.entry.value];
      if Busy(th) || t in activeRunThreads || t in pendingRunThreadSet || e.queued != []
        || |activeRunThreads| >= maxParallelRuns {
        SetRecord(t, Enqueue(th));
        DrainQueued(t);
      } else {
        SetRecord(t, SubmitNew(th));
        activeRunThreads := activeRunThreads + {t};
      }
    }

    method OnCreated(t: ThreadId, k: nat)
      requires Valid() && k < |Record(t).subs|
      modifies this`threads
      ensures Valid() && State() == Created(old(State()), t, k)
    {
      var th := Record(t);
      SetRecord(t, CreatedIn(th, k));
    }

    /** The finally block after a submission. */
    method AfterSubmit(t: ThreadId, k: nat, drain: bool)
      requires Valid() && k < |Record(t).subs|
      modifies this
      ensures Valid() && State() == GiveBack(old(State()), t, k, drain)
    {
      var th := Record(t);
      if th.entries[th.subs[k].entry].run.None? && t in activeRunThreads {
        activeRunThreads := activeRunThreads - {t};
        if drain {
          DrainQueued(t);
        }
        PumpRunQueue();
      }
    }

    /** What send and submitQueuedTurn do once submit has settled. */
    method OnSettled(t: ThreadId, k: nat, ok: bool)
      requires Valid() && k < |Record(t).subs|
      modifies this
      ensures Valid() && State() == if ok then SettleOk(old(State()), t, k) else SettleFail(old(State()), t, k)
    {
      var th := Record(t);
      if ok {
        SetRecord(t, Settled(th, k));
        AfterSubmit(t, k, th.subs[k].queued);
      } else {
        SetRecord(t, FailedIn(th, k));
        AfterSubmit(t, k, false);
      }
    }

    method DisposeIdleController(t: ThreadId)
      requires Valid()
      modifies this`threads
      ensures Valid() && State() == Evict(old(State()), t)
    {
      var th := Record(t);
      if th.entry.None? {
        return;
      }
      var e := th.entries[th.entry.value];
      if e.run.Some? || t in activeRunThreads || e.hydrating || e.steering || e.queued != [] || th.watched || Busy(th) {
        return;
      }
      SetRecord(t, DropEntry(th));
    }

    method OnCompleted(t: ThreadId, k: Option<nat>)
      requires Valid() && (k.Some? ==> k.value < |Record(t).subs|)
      modifies this
      ensures Valid() && State() == Completed(old(State()), t, k)
    {
      var th := Record(t);
      SetRecord(t, CompletedIn(th, k));
      activeRunThreads := activeRunThreads - {t};
      DrainQueued(t);
      DisposeIdleController(t);
      PumpRunQueue();
    }

    method CancelQueued(t: ThreadId, index: nat)
      requires Valid()
      modifies this`threads
      ensures Valid() && State() == Scheduler.CancelQueued(old(State()), t, index)
    {
      var th := Record(t);
      if th.entry.None? || index >= |th.entries[th.entry.value].queued| {
        return;
      }
      SetRecord(t, CancelledIn(th, index));
    }

    /** steerNow up to its await. */
    method SteerNow(t: ThreadId)
      requires Valid()
      modifies this
      ensures Valid() && State() == SteerStart(old(State()), t)
    {
      var th := WithEntry(Record(t));
      match th.status
      case Interrupted => SetRecord(t, Enqueue(th));
      case Streaming => SetRecord(t, Steering(th));
      case _ => Send(t);
    }

    /** The rest of steerNow, once the cancellation has resolved or failed. */
    method OnSteerReturned(t: ThreadId, j: nat, ok: bool)
      requires Valid() && j < |Record(t).steers|
      modifies this
      ensures Valid() && State() == SteerEnd(old(State()), t, j, ok)
    {
      var th := Record(t);
      SetRecord(t, Unsteered(th, j));
      if ok {
        activeRunThreads := activeRunThreads - {t};
        DrainQueued(t);
        PumpRunQueue();
      }
    }

    method Dispose(t: ThreadId)
      requires Valid()
      modifies this
      ensures Valid() && State() == DisposeThread(old(State()), t)
    {
      var th := Record(t);
      SetRecord(t, DropEntry(th).(status := Idle, watched := false, disposed := true));
      activeRunThreads := activeRunThreads - {t};
      pendingRunThreadSet := pendingRunThreadSet - {t};
      PumpRunQueue();
    }
  }
}

/** The sandbox host as the object it is: its session map, timers, waiters and eval queues change in place. */
module CodeInterpreterMiddlewareObject {
  import opened Wrappers
  import opened SandboxSessions

  class CodeInterpreterMiddleware {
    var sessions: seq<Session>
    var current: map<Key, nat>
    var evals: seq<Eval>
    var timers: seq<Timer>
    var jobs: seq<Job>
    var evalQueues: map<Key, nat>

    ghost function PoolState(): Pool
      reads this`sessions, this`current, this`evals, this`timers
    {
      Pool(sessions, current, evals, timers)
    }

    ghost function State(): State
      reads this
    {
      SandboxSessions.State(PoolState(), jobs, evalQueues)
    }

    ghost predicate Valid()
      reads this`sessions, this`current, this`evals, this`timers
    {
      Linked(PoolState())
    }

    constructor ()
      ensures Valid() && State() == Init()
    {
      sessions, current, evals, timers, jobs, evalQueues := [], map[], [], [], [], map[];
    }

    /** clearTimeout(session.idleTimer) */
    method ClearIdleTimer(n: nat)
      requires Valid() && n < |sessions|
      modifies this`timers
      ensures Valid() && PoolState() == ClearIdle(old(PoolState()), n)
    {
      if sessions[n].idle.Some? {
        var i := sessions[n].idle.value;
        timers := timers[i := timers[i].(armed := false)];
      }
    }

    /** One waiter's settle(), and its promise's outcome. */
    method SettleEval(k: nat)
      requires Valid() && k < |evals|
      modifies this`sessions, this`evals, this`timers
      ensures Valid() && PoolState() == Settle(old(PoolState()), k)
    {
      var e := evals[k];
      evals := evals[k := e.(watchdog := false, listening := false, settles := e.settles + 1)];
      var n := e.session;
      sessions := sessions[n := sessions[n].(pending := Without(sessions[n].pending, k))];
      var key := sessions[n].key;
      if sessions[n].pending == [] && key in current && current[key] == n {
        timers := timers + [Timer(n, true)];
        sessions := sessions[n := sessions[n].(idle := Some(|timers| - 1))];
      }
    }

    method DisposeSession(key: Key)
      requires Valid()
      modifies this`sessions, this`current, this`evals, this`timers
      ensures Valid() && PoolState() == Dispose(old(PoolState()), key)
    {
      if key !in current {
        return;
      }
      var n := current[key];
      current := current - {key};
      ClearIdleTimer(n);
      while sessions[n].pending != []
        invariant Valid() && n < |sessions|
        invariant RejectAll(PoolState(), n) == Dispose(old(PoolState()), key)
        decreases |sessions[n].pending|
      {
        var k := sessions[n].pending[0];
        assert k in sessions[n].pending;
        SettleEval(k);
      }
    }

    method RetireSession(n: nat)
      requires Valid() && n < |sessions|
      modifies this`sessions, this`current, this`evals, this`timers
      ensures Valid() && PoolState() == Retire(old(PoolState()), n)
    {
      var key := sessions[n].key;
      if key in current && current[key] == n {
        DisposeSession(key);
      }
    }

    method OnMessage(n: nat, k: nat, ok: bool)
      requires Valid() && n < |sessions|
      modifies this`sessions, this`current, this`evals, this`timers
      ensures Valid() && PoolState() == OnReply(old(PoolState()), n, k, ok)
    {
      if k in sessions[n].pending {
        SettleEval(k);
        if ok {
          evals := evals[k := evals[k].(resolved := true)];
        }
      }
      if !ok {
        RetireSession(n);
      }
    }

    /** The watchdog's and the abort listener's body. */
    method GiveUpEval(k: nat)
      requires Valid() && k < |evals|
      modifies this`sessions, this`current, this`evals, this`timers
      ensures Valid() && PoolState() == GiveUp(old(PoolState()), k)
    {
      var key := evals[k].key;
      SettleEval(k);
      DisposeSession(key);
    }

    method OnIdleTimer(i: nat)
      requires Valid() && i < |timers|
      modifies this`sessions, this`current, this`evals, this`timers
      ensures Valid() && PoolState() == OnIdle(old(PoolState()), i)
    {
      var key := sessions[timers[i].session].key;
      timers := timers[i := timers[i].(armed := false)];
      DisposeSession(key);
    }

    /** The key's session, started on demand. */
    method SessionFor(key: Key) returns (n: nat)
      requires Valid()
      modifies this`sessions, this`current
      ensures Valid() && PoolState() == WithSession(old(PoolState()), key) && key in current && n == current[key]
    {
      if key !in current {
        sessions := sessions + [Session(key, [], None)];
        current := current[key := |sessions| - 1];
      }
      n := current[key];
      assert PoolState() == WithSession(old(PoolState()), key);
    }

    method StartEval(key: Key, job: nat, signal: bool) returns (k: nat)
      requires Valid()
      modifies this`sessions, this`current, this`evals, this`timers
      ensures Valid() && PoolState() == RunEval(old(PoolState()), key, job, signal) && k == old(|evals|)
    {
      var n := SessionFor(key);
      ClearIdleTimer(n);
      k := |evals|;
      evals := evals + [Eval(key, n, job, true, signal, 0, false)];
      sessions := sessions[n := sessions[n].(pending := sessions[n].pending + [k])];
    }

    /** evalTool: the call waits for the tail of its key's queue and becomes the tail. */
    method CallEval(key: Key)
      requires Valid()
      modifies this`jobs, this`evalQueues
      ensures State() == Step(old(State()), Event.Call(key))
    {
      jobs := jobs + [Job(key, Lookup(evalQueues, key), Waiting)];
      evalQueues := evalQueues[key := |jobs| - 1];
    }

    method StartJob(j: nat, aborted: bool, signal: bool)
      requires Valid() && Possible(State(), Start(j, aborted, signal))
      modifies this
      ensures Valid() && State() == Step(old(State()), Start(j, aborted, signal))
    {
      if aborted {
        jobs := SetStage(jobs, j, Refused);
      } else {
        var k := StartEval(jobs[j].key, j, signal);
        jobs := SetStage(jobs, j, Running(k));
      }
    }

    /** The queue's tail.then: forget the queue if this call is still its tail. */
    method ClearJob(j: nat)
      requires Valid() && Possible(State(), Event.Clear(j))
      modifies this`evalQueues
      ensures State() == Step(old(State()), Event.Clear(j))
    {
      var key := jobs[j].key;
      if key in evalQueues && evalQueues[key] == j {
        evalQueues := evalQueues - {key};
      }
    }
  }
}

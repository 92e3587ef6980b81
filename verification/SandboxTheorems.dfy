/**
  What the sandbox host guarantees, for every interleaving of calls, replies, worker exits, timers and
  aborts: one pending eval per key, each promise settled once, and nothing late touches a replacement.
 */
module SandboxTheorems {
  import opened Wrappers
  import opened SandboxSessions

  // ---------------------------------------------------------------- the pool's invariant

  /** An eval's watchdog runs until its promise settles, once; it is pending in its session exactly until then. */
  ghost predicate Pending(sessions: seq<Session>, evals: seq<Eval>)
    requires forall k :: 0 <= k < |evals| ==> evals[k].session < |sessions|
    requires forall n, k {:trigger k in sessions[n].pending} :: 0 <= n < |sessions| && k in sessions[n].pending ==>
      k < |evals|
  {
    && (forall k :: 0 <= k < |evals| ==>
         && evals[k].settles <= 1
         && (evals[k].watchdog <==> evals[k].settles == 0)
         && (evals[k].listening ==> evals[k].settles == 0)
         && (evals[k].settles == 0 ==> k in sessions[evals[k].session].pending))
    && (forall n, k {:trigger k in sessions[n].pending} :: 0 <= n < |sessions| && k in sessions[n].pending ==>
          evals[k].settles == 0)
  }

  /** A session with pending evals, `except` apart, is its key's current one. */
  ghost predicate Owned(p: Pool, except: int)
    requires Linked(p)
  {
    forall n :: 0 <= n < |p.sessions| && n != except && p.sessions[n].pending != [] ==> IsCurrent(p, n)
  }

  /** An armed idle timer is its session's own handle, and the session is current and idle. */
  ghost predicate IdleOnly(p: Pool)
    requires Linked(p)
  {
    forall i :: 0 <= i < |p.timers| && p.timers[i].armed ==>
      var n := p.timers[i].session; IsCurrent(p, n) && p.sessions[n].idle == Some(i) && p.sessions[n].pending == []
  }

  ghost predicate PoolInv(p: Pool, except: int) {
    Linked(p) && Pending(p.sessions, p.evals) && Owned(p, except) && IdleOnly(p)
  }

  lemma SettlePending(p: Pool, k: nat)
    requires Linked(p) && Pending(p.sessions, p.evals) && k < |p.evals| && p.evals[k].settles == 0
    ensures Pending(Settle(p, k).sessions, Settle(p, k).evals)
  {
    var p' := Settle(p, k);
    forall j | 0 <= j < |p'.evals| && p'.evals[j].settles == 0 ensures j in p'.sessions[p'.evals[j].session].pending {
      assert j in p.sessions[p.evals[j].session].pending;
    }
  }

  lemma SettleKeeps(p: Pool, k: nat, except: int)
    requires PoolInv(p, except) && k < |p.evals| && p.evals[k].settles == 0
    ensures PoolInv(Settle(p, k), except) && Settle(p, k).current == p.current
  {
    SettlePending(p, k);
    assert p.sessions[p.evals[k].session].pending != [];
  }

  lemma {:induction false} RejectAllKeeps(p: Pool, n: nat)
    requires Linked(p) && n < |p.sessions| && PoolInv(p, n) && !IsCurrent(p, n)
    ensures PoolInv(RejectAll(p, n), -1) && RejectAll(p, n).current == p.current
    decreases |p.sessions[n].pending|
  {
    if p.sessions[n].pending != [] {
      var k := p.sessions[n].pending[0];
      assert k in p.sessions[n].pending;
      SettleKeeps(p, k, n);
      RejectAllKeeps(Settle(p, k), n);
    }
  }

  lemma DisposeKeeps(p: Pool, key: Key)
    requires PoolInv(p, -1)
    ensures PoolInv(Dispose(p, key), -1) && Dispose(p, key).current == p.current - {key}
  {
    if key in p.current {
      var n := p.current[key];
      RejectAllKeeps(ClearIdle(p.(current := p.current - {key}), n), n);
    } else {
      assert p.current - {key} == p.current;
    }
  }

  lemma WithSessionKeeps(p: Pool, key: Key)
    requires PoolInv(p, -1)
    ensures PoolInv(WithSession(p, key), -1)
  {
    var p' := WithSession(p, key);
    forall n | 0 <= n < |p'.sessions| && p'.sessions[n].pending != [] ensures IsCurrent(p', n) {
      assert p.sessions[n].pending != [];
    }
  }

  lemma RunEvalKeeps(p: Pool, key: Key, job: nat, signal: bool)
    requires PoolInv(p, -1)
    ensures PoolInv(RunEval(p, key, job, signal), -1)
  {
    WithSessionKeeps(p, key);
    var p1 := WithSession(p, key);
    var p2 := ClearIdle(p1, p1.current[key]);
    assert PoolInv(p2, -1);
    AddEvalKeeps(p2, key, job, signal);
  }

  lemma AddEvalKeeps(p: Pool, key: Key, job: nat, signal: bool)
    requires PoolInv(p, -1) && key in p.current
    requires forall i :: 0 <= i < |p.timers| && p.timers[i].session == p.current[key] ==> !p.timers[i].armed
    ensures var n := p.current[key];
      PoolInv(p.(evals := p.evals + [Eval(key, n, job, true, signal, 0, false)],
                 sessions := p.sessions[n := p.sessions[n].(pending := p.sessions[n].pending + [|p.evals|])]), -1)
  {
    var n := p.current[key];
    var p' := p.(evals := p.evals + [Eval(key, n, job, true, signal, 0, false)],
                 sessions := p.sessions[n := p.sessions[n].(pending := p.sessions[n].pending + [|p.evals|])]);
    forall k | 0 <= k < |p'.evals| && p'.evals[k].settles == 0 ensures k in p'.sessions[p'.evals[k].session].pending {
      if k < |p.evals| {
        assert k in p.sessions[p.evals[k].session].pending;
      }
    }
    forall m | 0 <= m < |p'.sessions| && p'.sessions[m].pending != [] ensures IsCurrent(p', m) {
      if m != n {
        assert IsCurrent(p, m);
      }
    }
  }

  lemma RetireKeeps(p: Pool, n: nat)
    requires PoolInv(p, -1) && n < |p.sessions|
    ensures PoolInv(Retire(p, n), -1)
  {
    if IsCurrent(p, n) {
      DisposeKeeps(p, p.sessions[n].key);
    }
  }

  lemma ResolvedKeeps(p: Pool, k: nat)
    requires PoolInv(p, -1) && k < |p.evals|
    ensures PoolInv(Resolved(p, k), -1)
  {
    var p' := Resolved(p, k);
    forall j | 0 <= j < |p'.evals| && p'.evals[j].settles == 0 ensures j in p'.sessions[p'.evals[j].session].pending {
      assert j in p.sessions[p.evals[j].session].pending;
    }
    forall n | 0 <= n < |p'.sessions| && p'.sessions[n].pending != [] ensures IsCurrent(p', n) {
      assert IsCurrent(p, n);
    }
  }

  lemma ReplyKeeps(p: Pool, n: nat, k: nat, ok: bool)
    requires PoolInv(p, -1) && n < |p.sessions|
    ensures PoolInv(OnReply(p, n, k, ok), -1)
  {
    var p1 := if k in p.sessions[n].pending then Settle(p, k) else p;
    if k in p.sessions[n].pending {
      SettleKeeps(p, k, -1);
      ResolvedKeeps(p1, k);
    }
    if !ok {
      RetireKeeps(p1, n);
    }
  }

  lemma GiveUpKeeps(p: Pool, k: nat)
    requires PoolInv(p, -1) && k < |p.evals| && p.evals[k].settles == 0
    ensures PoolInv(GiveUp(p, k), -1)
  {
    SettleKeeps(p, k, -1);
    DisposeKeeps(Settle(p, k), p.evals[k].key);
  }

  lemma IdleKeeps(p: Pool, i: nat)
    requires PoolInv(p, -1) && i < |p.timers|
    ensures PoolInv(OnIdle(p, i), -1)
  {
    DisposeKeeps(p.(timers := p.timers[i := p.timers[i].(armed := false)]), p.sessions[p.timers[i].session].key);
  }

  lemma PoolStep(s: State, e: Event)
    requires PoolInv(s.pool, -1) && Possible(s, e)
    ensures PoolInv(Step(s, e).pool, -1)
  {
    match e
    case Start(j, aborted, signal) => RunEvalKeeps(s.pool, s.jobs[j].key, j, signal);
    case Reply(n, k, ok) => ReplyKeeps(s.pool, n, k, ok);
    case Exit(n) => RetireKeeps(s.pool, n);
    case Watchdog(k) => GiveUpKeeps(s.pool, k);
    case Abort(k) => GiveUpKeeps(s.pool, k);
    case IdleFires(i) => IdleKeeps(s.pool, i);
    case AfterAgent(key) => DisposeKeeps(s.pool, key);
    case _ =>
  }

  // ---------------------------------------------------------------- evals only ever settle

  ghost predicate Grows(p: Pool, p': Pool) {
    && |p.evals| <= |p'.evals|
    && (forall k :: 0 <= k < |p.evals| ==>
         && p'.evals[k].key == p.evals[k].key && p'.evals[k].session == p.evals[k].session
         && p'.evals[k].job == p.evals[k].job
         && p'.evals[k].settles >= p.evals[k].settles)
  }

  lemma SettleGrows(p: Pool, k: nat)
    requires Linked(p) && k < |p.evals|
    ensures Grows(p, Settle(p, k)) && |Settle(p, k).evals| == |p.evals|
  {
  }

  lemma GrowsOn(a: Pool, b: Pool, c: Pool)
    requires Grows(a, b) && Grows(b, c)
    ensures Grows(a, c)
  {
  }

  lemma {:induction false} RejectAllGrows(p: Pool, n: nat)
    requires Linked(p) && n < |p.sessions|
    ensures Grows(p, RejectAll(p, n)) && |RejectAll(p, n).evals| == |p.evals|
    decreases |p.sessions[n].pending|
  {
    if p.sessions[n].pending != [] {
      var k := p.sessions[n].pending[0];
      assert k in p.sessions[n].pending;
      SettleGrows(p, k);
      RejectAllGrows(Settle(p, k), n);
      GrowsOn(p, Settle(p, k), RejectAll(p, n));
    }
  }

  lemma DisposeGrows(p: Pool, key: Key)
    requires Linked(p)
    ensures Grows(p, Dispose(p, key)) && |Dispose(p, key).evals| == |p.evals|
  {
    if key in p.current {
      var n := p.current[key];
      RejectAllGrows(ClearIdle(p.(current := p.current - {key}), n), n);
    }
  }

  lemma GiveUpGrows(p: Pool, k: nat)
    requires Linked(p) && k < |p.evals|
    ensures Grows(p, GiveUp(p, k)) && |GiveUp(p, k).evals| == |p.evals|
  {
    SettleGrows(p, k);
    DisposeGrows(Settle(p, k), p.evals[k].key);
    GrowsOn(p, Settle(p, k), GiveUp(p, k));
  }

  lemma RetireGrows(p: Pool, n: nat)
    requires Linked(p) && n < |p.sessions|
    ensures Grows(p, Retire(p, n)) && |Retire(p, n).evals| == |p.evals|
  {
    DisposeGrows(p, p.sessions[n].key);
  }

  lemma ReplyGrows(p: Pool, n: nat, k: nat, ok: bool)
    requires Linked(p) && n < |p.sessions|
    ensures Grows(p, OnReply(p, n, k, ok)) && |OnReply(p, n, k, ok).evals| == |p.evals|
  {
    if k in p.sessions[n].pending {
      SettleGrows(p, k);
      RetireGrows(Settle(p, k), n);
      GrowsOn(p, Settle(p, k), Retire(Settle(p, k), n));
      GrowsOn(p, Settle(p, k), Resolved(Settle(p, k), k));
    } else {
      RetireGrows(p, n);
    }
  }

  lemma StepGrows(s: State, e: Event)
    requires Linked(s.pool) && Possible(s, e)
    ensures Grows(s.pool, Step(s, e).pool)
    ensures !(e.Start? && !e.aborted) ==> |Step(s, e).pool.evals| == |s.pool.evals|
  {
    match e
    case Reply(n, k, ok) => ReplyGrows(s.pool, n, k, ok);
    case Exit(n) => RetireGrows(s.pool, n);
    case Watchdog(k) => GiveUpGrows(s.pool, k);
    case Abort(k) => GiveUpGrows(s.pool, k);
    case IdleFires(i) =>
      var timer := s.pool.timers[i];
      DisposeGrows(s.pool.(timers := s.pool.timers[i := timer.(armed := false)]), s.pool.sessions[timer.session].key);
    case AfterAgent(key) => DisposeGrows(s.pool, key);
    case _ =>
  }

  // ---------------------------------------------------------------- the per-key queue

  ghost predicate Serial(jobs: seq<Job>) {
    && (forall j, k :: 0 <= j < k < |jobs| && jobs[j].key == jobs[k].key ==>
          jobs[k].stage.Waiting? || jobs[j].stage.Done?)
    && (forall k :: 0 <= k < |jobs| && jobs[k].prior.Some? ==>
          jobs[k].prior.value < k && jobs[jobs[k].prior.value].key == jobs[k].key)
    && (forall j, k :: 0 <= j < k < |jobs| && jobs[j].key == jobs[k].key ==>
         if jobs[k].prior.Some? then j <= jobs[k].prior.value else jobs[j].stage.Done?)
  }

  ghost predicate Latest(jobs: seq<Job>, latest: map<Key, nat>) {
    && (forall key <- latest :: latest[key] < |jobs| && jobs[latest[key]].key == key)
    && (forall j :: 0 <= j < |jobs| ==> if jobs[j].key in latest then j <= latest[jobs[j].key] else jobs[j].stage.Done?)
  }

  /** A running job and its eval name each other, and an unsettled eval's job is running it. */
  ghost predicate Matched(jobs: seq<Job>, evals: seq<Eval>) {
    && (forall j :: 0 <= j < |jobs| && jobs[j].stage.Running? ==>
         jobs[j].stage.eval < |evals| && evals[jobs[j].stage.eval].job == j
         && evals[jobs[j].stage.eval].key == jobs[j].key)
    && (forall k :: 0 <= k < |evals| && evals[k].settles == 0 ==>
         evals[k].job < |jobs| && jobs[evals[k].job].stage == Running(k) && jobs[evals[k].job].key == evals[k].key)
  }

  ghost predicate Inv(s: State) {
    && PoolInv(s.pool, -1)
    && Serial(s.jobs) && Latest(s.jobs, s.latest) && Matched(s.jobs, s.pool.evals)
  }

  /** A job may start only when every earlier job of its key is done. */
  lemma StartsLast(s: State, e: Event)
    requires Serial(s.jobs) && Possible(s, e) && e.Start?
    ensures forall i :: 0 <= i < e.job && s.jobs[i].key == s.jobs[e.job].key ==> s.jobs[i].stage.Done?
  {
  }

  lemma CallKeepsSerial(jobs: seq<Job>, latest: map<Key, nat>, key: Key)
    requires Serial(jobs) && Latest(jobs, latest)
    ensures Serial(jobs + [Job(key, Lookup(latest, key), Waiting)])
  {
  }

  lemma CallKeepsLatest(jobs: seq<Job>, latest: map<Key, nat>, job: Job)
    requires Latest(jobs, latest)
    ensures Latest(jobs + [job], latest[job.key := |jobs|])
  {
  }

  /** A job moves on: if it starts or ends, every earlier job of its key is done. */
  lemma StageKeepsSerial(jobs: seq<Job>, j: nat, stage: Stage)
    requires Serial(jobs) && j < |jobs| && !stage.Waiting? && !jobs[j].stage.Done?
    requires forall i :: 0 <= i < j && jobs[i].key == jobs[j].key ==> jobs[i].stage.Done?
    ensures Serial(SetStage(jobs, j, stage))
  {
    var jobs' := SetStage(jobs, j, stage);
    assert forall i :: 0 <= i < |jobs| ==>
      jobs'[i].key == jobs[i].key && jobs'[i].prior == jobs[i].prior && (i != j ==> jobs'[i] == jobs[i]);
  }

  lemma StageKeepsLatest(jobs: seq<Job>, latest: map<Key, nat>, j: nat, stage: Stage)
    requires Latest(jobs, latest) && j < |jobs| && !jobs[j].stage.Done?
    ensures Latest(SetStage(jobs, j, stage), latest)
  {
  }

  lemma ClearQueued(jobs: seq<Job>, latest: map<Key, nat>, j: nat)
    requires Serial(jobs) && Latest(jobs, latest) && JobDone(jobs, j) && Lookup(latest, jobs[j].key) == Some(j)
    ensures Latest(jobs, latest - {jobs[j].key})
  {
  }

  lemma QueueStep(s: State, e: Event)
    requires Linked(s.pool) && Possible(s, e) && Serial(s.jobs) && Latest(s.jobs, s.latest)
    ensures Serial(Step(s, e).jobs) && Latest(Step(s, e).jobs, Step(s, e).latest)
  {
    match e
    case Call(key) =>
      CallKeepsSerial(s.jobs, s.latest, key);
      CallKeepsLatest(s.jobs, s.latest, Job(key, Lookup(s.latest, key), Waiting));
    case Start(j, aborted, _) =>
      StartsLast(s, e);
      StageKeepsSerial(s.jobs, j, if aborted then Refused else Running(|s.pool.evals|));
      StageKeepsLatest(s.jobs, s.latest, j, if aborted then Refused else Running(|s.pool.evals|));
    case Finish(j) =>
      StageKeepsSerial(s.jobs, j, Done);
      StageKeepsLatest(s.jobs, s.latest, j, Done);
    case Clear(j) =>
      if Lookup(s.latest, s.jobs[j].key) == Some(j) {
        ClearQueued(s.jobs, s.latest, j);
      }
    case _ =>
  }

  lemma MatchedStart(s: State, j: nat, signal: bool)
    requires Linked(s.pool) && j < |s.jobs| && Matched(s.jobs, s.pool.evals) && s.jobs[j].stage.Waiting?
    ensures Matched(SetStage(s.jobs, j, Running(|s.pool.evals|)), RunEval(s.pool, s.jobs[j].key, j, signal).evals)
  {
  }

  lemma MatchedGrows(jobs: seq<Job>, p: Pool, p': Pool)
    requires Matched(jobs, p.evals) && Grows(p, p') && |p'.evals| == |p.evals|
    ensures Matched(jobs, p'.evals)
  {
  }

  lemma MatchedStep(s: State, e: Event)
    requires Linked(s.pool) && Possible(s, e) && Matched(s.jobs, s.pool.evals)
    ensures Matched(Step(s, e).jobs, Step(s, e).pool.evals)
  {
    if e.Start? && !e.aborted {
      MatchedStart(s, e.job, e.signal);
    } else {
      StepGrows(s, e);
      MatchedGrows(s.jobs, s.pool, Step(s, e).pool);
    }
  }

  lemma StepKeeps(s: State, e: Event)
    requires Inv(s) && Possible(s, e)
    ensures Inv(Step(s, e))
  {
    PoolStep(s, e);
    QueueStep(s, e);
    MatchedStep(s, e);
  }

  // ---------------------------------------------------------------- whole runs

  predicate CanRun(s: State, es: seq<Event>)
    requires Linked(s.pool)
    decreases |es|
  {
    es == [] || (Possible(s, es[0]) && CanRun(Step(s, es[0]), es[1..]))
  }

  function After(s: State, es: seq<Event>): (s': State)
    requires Linked(s.pool) && CanRun(s, es)
    ensures Linked(s'.pool)
    decreases |es|
  {
    if es == [] then s else After(Step(s, es[0]), es[1..])
  }

  lemma {:induction false} RunKeeps(s: State, es: seq<Event>)
    requires Inv(s) && CanRun(s, es)
    ensures Inv(After(s, es))
    decreases |es|
  {
    if es != [] {
      StepKeeps(s, es[0]);
      RunKeeps(Step(s, es[0]), es[1..]);
    }
  }

  ghost predicate Reachable(s: State) {
    exists es :: CanRun(Init(), es) && After(Init(), es) == s
  }

  lemma ReachableInv(s: State)
    requires Reachable(s)
    ensures Inv(s)
  {
    var es :| CanRun(Init(), es) && After(Init(), es) == s;
    RunKeeps(Init(), es);
  }

  /** At most one eval is pending per key. */
  lemma OnePendingPerKey(s: State, a: nat, b: nat)
    requires Reachable(s) && a < |s.pool.evals| && b < |s.pool.evals| && s.pool.evals[a].key == s.pool.evals[b].key
    requires s.pool.evals[a].settles == 0 && s.pool.evals[b].settles == 0
    ensures a == b
  {
    ReachableInv(s);
    PendingRunAlone(s.jobs, s.pool.evals, a, b);
  }

  lemma PendingRunAlone(jobs: seq<Job>, evals: seq<Eval>, a: nat, b: nat)
    requires Serial(jobs) && Matched(jobs, evals) && a < |evals| && b < |evals| && evals[a].key == evals[b].key
    requires evals[a].settles == 0 && evals[b].settles == 0
    ensures a == b
  {
    assert jobs[evals[a].job].stage == Running(a) && jobs[evals[b].job].stage == Running(b);
  }

  /** Calls of one key run in the order made: a job is past waiting only when every earlier one is done. */
  lemma CallsRunInOrder(s: State, j: nat, k: nat)
    requires Reachable(s) && j < k < |s.jobs| && s.jobs[j].key == s.jobs[k].key && !s.jobs[k].stage.Waiting?
    ensures s.jobs[j].stage.Done?
  {
    ReachableInv(s);
  }

  /**
    No promise settles twice; an unsettled one is pending in its key's current session with its watchdog running and no
    idle timer armed.
   */
  lemma SettlesOnce(s: State, k: nat)
    requires Reachable(s) && k < |s.pool.evals| && s.pool.evals[k].settles != 1
    ensures Linked(s.pool) && var p, e := s.pool, s.pool.evals[k];
      && e.settles == 0 && e.watchdog && k in p.sessions[e.session].pending && IsCurrent(p, e.session)
      && forall i :: 0 <= i < |p.timers| && p.timers[i].session == e.session ==> !p.timers[i].armed
  {
    ReachableInv(s);
    assert k in s.pool.sessions[s.pool.evals[k].session].pending;
  }

  /** A session no longer current has no pending eval, all its evals have settled, and it has no armed idle timer. */
  lemma RemovedIsQuiet(s: State, n: nat)
    requires Reachable(s) && Linked(s.pool) && n < |s.pool.sessions| && !IsCurrent(s.pool, n)
    ensures s.pool.sessions[n].pending == []
    ensures forall k :: 0 <= k < |s.pool.evals| && s.pool.evals[k].session == n ==> s.pool.evals[k].settles == 1
    ensures forall i :: 0 <= i < |s.pool.timers| && s.pool.timers[i].session == n ==> !s.pool.timers[i].armed
  {
    ReachableInv(s);
    assert s.pool.sessions[n].pending == [];
  }

  /**
    The session an asynchronous event belongs to, fixed when it was set up; none for calls and the end of an agent run.
   */
  function Subject(s: State, e: Event): Option<nat>
    requires Linked(s.pool) && Possible(s, e)
  {
    match e
    case Reply(n, _, _) => Some(n)
    case Exit(n) => Some(n)
    case Watchdog(k) => Some(s.pool.evals[k].session)
    case Abort(k) => Some(s.pool.evals[k].session)
    case IdleFires(i) => Some(s.pool.timers[i].session)
    case _ => None
  }

  /**
    The map after an event that disposes at most session n: its key loses it if it is current, and nothing else changes.
   */
  ghost predicate DropsAtMost(p: Pool, p': Pool, n: nat)
    requires Linked(p) && n < |p.sessions|
  {
    p'.current == p.current || (IsCurrent(p, n) && p'.current == p.current - {p.sessions[n].key})
  }

  lemma RetireDrops(p: Pool, n: nat)
    requires PoolInv(p, -1) && n < |p.sessions|
    ensures DropsAtMost(p, Retire(p, n), n)
  {
    DisposeKeeps(p, p.sessions[n].key);
  }

  lemma ReplyDrops(p: Pool, n: nat, k: nat, ok: bool)
    requires PoolInv(p, -1) && n < |p.sessions|
    ensures DropsAtMost(p, OnReply(p, n, k, ok), n)
  {
    if k in p.sessions[n].pending {
      SettleKeeps(p, k, -1);
      RetireDrops(Settle(p, k), n);
    } else {
      RetireDrops(p, n);
    }
  }

  lemma GiveUpDrops(p: Pool, k: nat)
    requires PoolInv(p, -1) && k < |p.evals| && p.evals[k].settles == 0
    ensures IsCurrent(p, p.evals[k].session) && GiveUp(p, k).current == p.current - {p.evals[k].key}
  {
    assert k in p.sessions[p.evals[k].session].pending;
    SettleKeeps(p, k, -1);
    DisposeKeeps(Settle(p, k), p.evals[k].key);
  }

  lemma IdleDrops(p: Pool, i: nat)
    requires PoolInv(p, -1) && i < |p.timers| && p.timers[i].armed
    ensures DropsAtMost(p, OnIdle(p, i), p.timers[i].session)
  {
    DisposeKeeps(p.(timers := p.timers[i := p.timers[i].(armed := false)]), p.sessions[p.timers[i].session].key);
  }

  /** A timer, abort, reply or exit takes out no session but its own, however late it comes. */
  lemma OnlyOwnSession(s: State, e: Event)
    requires Reachable(s) && Linked(s.pool) && Possible(s, e) && Subject(s, e).Some?
    ensures DropsAtMost(s.pool, Step(s, e).pool, Subject(s, e).value)
  {
    ReachableInv(s);
    match e
    case Reply(n, k, ok) => ReplyDrops(s.pool, n, k, ok);
    case Exit(n) => RetireDrops(s.pool, n);
    case Watchdog(k) => GiveUpDrops(s.pool, k);
    case Abort(k) => GiveUpDrops(s.pool, k);
    case IdleFires(i) => IdleDrops(s.pool, i);
  }

  lemma GiveUpSettles(p: Pool, k: nat)
    requires PoolInv(p, -1) && k < |p.evals| && p.evals[k].settles == 0
    ensures Grows(p, GiveUp(p, k)) && GiveUp(p, k).evals[k].settles == 1
  {
    GiveUpKeeps(p, k);
    GiveUpGrows(p, k);
    DisposeGrows(Settle(p, k), p.evals[k].key);
  }

  /** A watchdog or an abort settles its eval and leaves its key without a session. */
  lemma GivingUpSettles(s: State, e: Event)
    requires Reachable(s) && Linked(s.pool) && Possible(s, e) && (e.Watchdog? || e.Abort?)
    ensures var p, p' := s.pool, Step(s, e).pool;
      e.eval < |p'.evals| && p'.evals[e.eval].settles == 1 && p.evals[e.eval].key !in p'.current
  {
    ReachableInv(s);
    GiveUpSettles(s.pool, e.eval);
    GiveUpDrops(s.pool, e.eval);
  }
}

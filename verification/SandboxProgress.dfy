/** What each event does to the sandbox's sessions and promises, exactly, and that no session or call is left behind. */
module SandboxProgress {
  import opened Wrappers
  import opened SandboxSessions
  import opened SandboxTheorems

  // ---------------------------------------------------------------- promises

  /** Every promise pending in session n settles once more, unresolved, and no other changes. */
  ghost predicate Rejected(p: Pool, p': Pool, n: nat)
    requires n < |p.sessions|
  {
    && |p'.evals| == |p.evals|
    && forall k :: 0 <= k < |p.evals| ==>
         && p'.evals[k].resolved == p.evals[k].resolved
         && p'.evals[k].settles == p.evals[k].settles + (if k in p.sessions[n].pending then 1 else 0)
  }

  lemma {:induction false} RejectAllExactly(p: Pool, n: nat)
    requires Linked(p) && n < |p.sessions|
    ensures Rejected(p, RejectAll(p, n), n)
    decreases |p.sessions[n].pending|
  {
    if p.sessions[n].pending != [] {
      var k := p.sessions[n].pending[0];
      assert k in p.sessions[n].pending;
      RejectAllExactly(Settle(p, k), n);
    }
  }

  lemma DisposeExactly(p: Pool, key: Key)
    requires Linked(p) && key in p.current
    ensures Rejected(p, Dispose(p, key), p.current[key])
  {
    var n := p.current[key];
    var p1 := ClearIdle(p.(current := p.current - {key}), n);
    assert p1.sessions[n].pending == p.sessions[n].pending && p1.evals == p.evals;
    RejectAllExactly(p1, n);
  }

  /** The session an event takes out of the map, if any. */
  function Dropped(s: State, e: Event): Option<nat>
    requires Linked(s.pool) && Possible(s, e)
  {
    match e
    case Reply(n, _, ok) => if !ok && IsCurrent(s.pool, n) then Some(n) else None
    case Exit(n) => if IsCurrent(s.pool, n) then Some(n) else None
    case Watchdog(k) => Some(s.pool.evals[k].session)
    case Abort(k) => Some(s.pool.evals[k].session)
    case IdleFires(i) => Some(s.pool.timers[i].session)
    case AfterAgent(key) => Lookup(s.pool.current, key)
    case _ => None
  }

  /** The event speaks of this eval: its own worker answers it, or its watchdog or abort fires. */
  predicate Names(e: Event, k: nat, session: nat) {
    (e.Reply? && e.eval == k && e.session == session) || (e.Watchdog? && e.eval == k) || (e.Abort? && e.eval == k)
  }

  /** An eval pends, if at all, in its own session, and until it settles. */
  lemma PendsUntilSettled(p: Pool, k: nat, n: nat)
    requires PoolInv(p, -1) && k < |p.evals| && n < |p.sessions|
    ensures p.evals[k].settles <= 1
    ensures k in p.sessions[n].pending <==> n == p.evals[k].session && p.evals[k].settles == 0
  {
  }

  /** An eval after its promise settled if `settled` says so, with a result if `resolved` does. */
  predicate Became(before: Eval, after: Eval, settled: bool, resolved: bool) {
    && after.settles == before.settles + (if settled && before.settles == 0 then 1 else 0)
    && (after.resolved <==> before.resolved || (resolved && before.settles == 0))
  }

  lemma DisposedEval(p: Pool, n: nat, k: nat)
    requires PoolInv(p, -1) && k < |p.evals| && n < |p.sessions| && IsCurrent(p, n)
    ensures var p' := Dispose(p, p.sessions[n].key);
      k < |p'.evals| && Became(p.evals[k], p'.evals[k], n == p.evals[k].session, false)
  {
    DisposeExactly(p, p.sessions[n].key);
    PendsUntilSettled(p, k, n);
  }

  lemma ReplyEval(p: Pool, n: nat, j: nat, k: nat)
    requires PoolInv(p, -1) && n < |p.sessions| && k < |p.evals|
    ensures var p' := OnReply(p, n, j, true);
      k < |p'.evals| && var named := j == k && n == p.evals[k].session; Became(p.evals[k], p'.evals[k], named, named)
  {
    PendsUntilSettled(p, k, n);
  }

  lemma SettledEval(p: Pool, n: nat, j: nat, k: nat)
    requires PoolInv(p, -1) && n < |p.sessions| && k < |p.evals|
    ensures var p' := if j in p.sessions[n].pending then Settle(p, j) else p;
      && PoolInv(p', -1) && |p'.sessions| == |p.sessions| && p'.sessions[n].key == p.sessions[n].key
      && (IsCurrent(p', n) <==> IsCurrent(p, n))
      && k < |p'.evals| && p'.evals[k].session == p.evals[k].session
      && Became(p.evals[k], p'.evals[k], j == k && n == p.evals[k].session, false)
  {
    PendsUntilSettled(p, k, n);
    if j in p.sessions[n].pending {
      SettleKeeps(p, j, -1);
    }
  }

  lemma FailureEval(p: Pool, n: nat, j: nat, k: nat)
    requires PoolInv(p, -1) && n < |p.sessions| && k < |p.evals|
    ensures var p' := OnReply(p, n, j, false);
      && k < |p'.evals|
      && Became(p.evals[k], p'.evals[k], n == p.evals[k].session && (j == k || IsCurrent(p, n)), false)
  {
    SettledEval(p, n, j, k);
    var p1 := if j in p.sessions[n].pending then Settle(p, j) else p;
    if IsCurrent(p1, n) {
      DisposedEval(p1, n, k);
    }
  }

  lemma GivenUpEval(p: Pool, j: nat, k: nat)
    requires PoolInv(p, -1) && j < |p.evals| && p.evals[j].settles == 0 && k < |p.evals|
    ensures var p' := GiveUp(p, j);
      k < |p'.evals| && Became(p.evals[k], p'.evals[k], p.evals[j].session == p.evals[k].session, false)
  {
    var n := p.evals[j].session;
    PendsUntilSettled(p, j, n);
    SettledEval(p, n, j, k);
    DisposedEval(Settle(p, j), n, k);
  }

  lemma IdledEval(p: Pool, i: nat, k: nat)
    requires PoolInv(p, -1) && i < |p.timers| && p.timers[i].armed && k < |p.evals|
    ensures var p' := OnIdle(p, i);
      k < |p'.evals| && Became(p.evals[k], p'.evals[k], p.timers[i].session == p.evals[k].session, false)
  {
    var n := p.timers[i].session;
    assert IsCurrent(p, n);
    var p1 := p.(timers := p.timers[i := p.timers[i].(armed := false)]);
    assert PoolInv(p1, -1);
    DisposedEval(p1, n, k);
  }

  /** The promises an event settles, said of the event and the map of sessions alone. */
  ghost predicate Settles(s: State, e: Event, k: nat)
    requires Linked(s.pool) && Possible(s, e) && k < |s.pool.evals|
  {
    Names(e, k, s.pool.evals[k].session) || Dropped(s, e) == Some(s.pool.evals[k].session)
  }

  /**
    A promise settles exactly when its own worker answers it, its watchdog or abort fires, or its session is taken out;
    and with a result exactly when its own worker answered with one while it was pending.
   */
  lemma OutcomeExactly(s: State, e: Event, k: nat)
    requires Reachable(s) && Linked(s.pool) && Possible(s, e) && k < |s.pool.evals|
    ensures var p' := Step(s, e).pool;
      && k < |p'.evals|
      && Became(s.pool.evals[k], p'.evals[k], Settles(s, e, k), e == Reply(s.pool.evals[k].session, k, true))
  {
    ReachableInv(s);
    if e.Reply? || e.Exit? {
      WorkerOutcome(s, e, k);
    } else if e.IdleFires? {
      IdleOutcome(s, e, k);
    } else if e.Watchdog? || e.Abort? {
      GiveUpOutcome(s, e, k);
    } else if e.AfterAgent? {
      AgentOutcome(s, e, k);
    } else {
      QueueOutcome(s, e, k);
    }
  }

  ghost predicate Accounted(s: State, e: Event, k: nat, p': Pool)
    requires Linked(s.pool) && Possible(s, e) && k < |s.pool.evals|
  {
    && k < |p'.evals|
    && Became(s.pool.evals[k], p'.evals[k], Settles(s, e, k), e == Reply(s.pool.evals[k].session, k, true))
  }

  lemma WorkerOutcome(s: State, e: Event, k: nat)
    requires PoolInv(s.pool, -1) && Possible(s, e) && k < |s.pool.evals| && (e.Reply? || e.Exit?)
    ensures Accounted(s, e, k, Step(s, e).pool)
  {
    if e.Exit? {
      if IsCurrent(s.pool, e.session) {
        DisposedEval(s.pool, e.session, k);
      }
    } else if e.ok {
      ReplyEval(s.pool, e.session, e.eval, k);
    } else {
      FailureEval(s.pool, e.session, e.eval, k);
    }
  }

  lemma IdleOutcome(s: State, e: Event, k: nat)
    requires PoolInv(s.pool, -1) && Possible(s, e) && k < |s.pool.evals| && e.IdleFires?
    ensures Accounted(s, e, k, Step(s, e).pool)
  {
    IdledEval(s.pool, e.timer, k);
  }

  lemma GiveUpOutcome(s: State, e: Event, k: nat)
    requires PoolInv(s.pool, -1) && Possible(s, e) && k < |s.pool.evals| && (e.Watchdog? || e.Abort?)
    ensures Accounted(s, e, k, Step(s, e).pool)
  {
    GivenUpEval(s.pool, e.eval, k);
  }

  lemma AgentOutcome(s: State, e: Event, k: nat)
    requires PoolInv(s.pool, -1) && Possible(s, e) && k < |s.pool.evals| && e.AfterAgent?
    ensures Accounted(s, e, k, Step(s, e).pool)
  {
    if e.key in s.pool.current {
      DisposedEval(s.pool, s.pool.current[e.key], k);
    }
  }

  lemma QueueOutcome(s: State, e: Event, k: nat)
    requires Linked(s.pool) && Possible(s, e) && k < |s.pool.evals|
    requires e.Call? || e.Start? || e.Finish? || e.Clear?
    ensures Accounted(s, e, k, Step(s, e).pool)
  {
  }

  // ---------------------------------------------------------------- sessions

  lemma ReplySessions(p: Pool, n: nat, k: nat, ok: bool)
    requires PoolInv(p, -1) && n < |p.sessions|
    ensures OnReply(p, n, k, ok).current ==
      if !ok && IsCurrent(p, n) then p.current - {p.sessions[n].key} else p.current
  {
    var p1 := if k in p.sessions[n].pending then Settle(p, k) else p;
    if k in p.sessions[n].pending {
      SettleKeeps(p, k, -1);
    }
    DisposeKeeps(p1, p1.sessions[n].key);
  }

  /**
    The map of sessions after an event: a worker that fails, stops answering, exits or idles loses its key, one that
    answers keeps it, and a call brings a session only to a key that has none.
   */
  lemma SessionsExactly(s: State, e: Event)
    requires Reachable(s) && Linked(s.pool) && Possible(s, e)
    ensures Dropped(s, e).Some? ==> Dropped(s, e).value < |s.pool.sessions| && IsCurrent(s.pool, Dropped(s, e).value)
    ensures Dropped(s, e).Some? ==>
      Step(s, e).pool.current == s.pool.current - {s.pool.sessions[Dropped(s, e).value].key}
    ensures Dropped(s, e).None? ==>
      Step(s, e).pool.current ==
        if e.Start? && !e.aborted && s.jobs[e.job].key !in s.pool.current then
          s.pool.current[s.jobs[e.job].key := |s.pool.sessions|]
        else s.pool.current
  {
    ReachableInv(s);
    if e.Start? && !e.aborted {
      StartSessions(s.pool, s.jobs[e.job].key, e.job, e.signal);
    } else {
      PoolSessions(s, e);
    }
  }

  lemma StartSessions(p: Pool, key: Key, job: nat, signal: bool)
    requires Linked(p)
    ensures RunEval(p, key, job, signal).current ==
      if key in p.current then p.current else p.current[key := |p.sessions|]
  {
  }

  lemma PoolSessions(s: State, e: Event)
    requires PoolInv(s.pool, -1) && Possible(s, e) && !(e.Start? && !e.aborted)
    ensures var p, drop := s.pool, Dropped(s, e);
      && (drop.Some? ==> drop.value < |p.sessions| && IsCurrent(p, drop.value))
      && Step(s, e).pool.current == if drop.Some? then p.current - {p.sessions[drop.value].key} else p.current
  {
    var p := s.pool;
    match e
    case Reply(n, k, ok) => ReplySessions(p, n, k, ok);
    case Exit(n) => DisposeKeeps(p, p.sessions[n].key);
    case Watchdog(k) => GiveUpDrops(p, k);
    case Abort(k) => GiveUpDrops(p, k);
    case IdleFires(i) => IdleSessions(p, i);
    case AfterAgent(key) => DisposeKeeps(p, key);
    case _ =>
  }

  lemma IdleSessions(p: Pool, i: nat)
    requires PoolInv(p, -1) && i < |p.timers| && p.timers[i].armed
    ensures IsCurrent(p, p.timers[i].session)
    ensures OnIdle(p, i).current == p.current - {p.sessions[p.timers[i].session].key}
  {
    DisposeKeeps(p.(timers := p.timers[i := p.timers[i].(armed := false)]), p.sessions[p.timers[i].session].key);
  }

  /** A live call's eval, its watchdog armed, pends in its key's session, a brand-new one if there was none. */
  lemma StartPends(s: State, j: nat, signal: bool)
    requires Linked(s.pool) && Possible(s, Start(j, false, signal))
    ensures var p, p' := s.pool, Step(s, Start(j, false, signal)).pool; var k, key := |p.evals|, s.jobs[j].key;
      && key in p'.current && |p'.evals| == k + 1 && p'.evals[..k] == p.evals
      && p'.evals[k] == Eval(key, p'.current[key], j, true, signal, 0, false)
      && p'.current[key] < |p'.sessions| && k in p'.sessions[p'.current[key]].pending
      && (key !in p.current ==> p'.sessions[p'.current[key]].pending == [k])
      && Step(s, Start(j, false, signal)).jobs[j].stage == Running(k)
  {
    EvalPends(s.pool, s.jobs[j].key, j, signal);
  }

  lemma EvalPends(p: Pool, key: Key, job: nat, signal: bool)
    requires Linked(p)
    ensures var p' := RunEval(p, key, job, signal); var k := |p.evals|;
      && key in p'.current && p'.current[key] < |p'.sessions| && p'.evals == p.evals + [p'.evals[k]]
      && p'.evals[k] == Eval(key, p'.current[key], job, true, signal, 0, false)
      && k in p'.sessions[p'.current[key]].pending
      && (key !in p.current ==> p'.sessions[p'.current[key]].pending == [k])
  {
  }

  // ---------------------------------------------------------------- idle timers

  /** A session's timer handle is its own; but for one key, an idle session in the map has its timer armed. */
  ghost predicate Timed(p: Pool, except: int)
    requires Linked(p)
  {
    && (forall n :: 0 <= n < |p.sessions| && p.sessions[n].idle.Some? ==>
          p.timers[p.sessions[n].idle.value].session == n)
    && (forall key <- p.current :: key != except && p.sessions[p.current[key]].pending == [] ==>
          p.sessions[p.current[key]].idle.Some? && p.timers[p.sessions[p.current[key]].idle.value].armed)
  }

  lemma SettleTimed(p: Pool, k: nat, except: int)
    requires Linked(p) && k < |p.evals| && Timed(p, except)
    ensures Timed(Settle(p, k), except)
  {
  }

  lemma {:induction false} RejectAllTimed(p: Pool, n: nat)
    requires Linked(p) && n < |p.sessions| && Timed(p, -1)
    ensures Timed(RejectAll(p, n), -1)
    decreases |p.sessions[n].pending|
  {
    if p.sessions[n].pending != [] {
      var k := p.sessions[n].pending[0];
      assert k in p.sessions[n].pending;
      SettleTimed(p, k, -1);
      RejectAllTimed(Settle(p, k), n);
    }
  }

  lemma DisposeTimed(p: Pool, key: Key)
    requires Linked(p) && Timed(p, key)
    ensures Timed(Dispose(p, key), -1)
  {
    if key in p.current {
      var n := p.current[key];
      RejectAllTimed(ClearIdle(p.(current := p.current - {key}), n), n);
    }
  }

  lemma WithSessionTimed(p: Pool, key: Key)
    requires Linked(p) && Timed(p, -1)
    ensures Timed(WithSession(p, key), key)
  {
  }

  lemma ClearTimed(p: Pool, n: nat)
    requires Linked(p) && n < |p.sessions| && IsCurrent(p, n) && Timed(p, p.sessions[n].key)
    ensures Timed(ClearIdle(p, n), p.sessions[n].key)
  {
  }

  lemma AddTimed(p: Pool, key: Key, job: nat, signal: bool)
    requires Linked(p) && Timed(p, key) && key in p.current
    ensures var n := p.current[key];
      var p' := p.(evals := p.evals + [Eval(key, n, job, true, signal, 0, false)],
                   sessions := p.sessions[n := p.sessions[n].(pending := p.sessions[n].pending + [|p.evals|])]);
      Linked(p') && Timed(p', -1)
  {
  }

  lemma RunEvalTimed(p: Pool, key: Key, job: nat, signal: bool)
    requires Linked(p) && Timed(p, -1)
    ensures Timed(RunEval(p, key, job, signal), -1)
  {
    WithSessionTimed(p, key);
    var p1 := WithSession(p, key);
    ClearTimed(p1, p1.current[key]);
    AddTimed(ClearIdle(p1, p1.current[key]), key, job, signal);
  }

  lemma ReplyTimed(p: Pool, n: nat, k: nat, ok: bool)
    requires Linked(p) && n < |p.sessions| && Timed(p, -1)
    ensures Timed(OnReply(p, n, k, ok), -1)
  {
    var p1 := if k in p.sessions[n].pending then Settle(p, k) else p;
    if k in p.sessions[n].pending {
      SettleTimed(p, k, -1);
    }
    DisposeTimed(p1, p1.sessions[n].key);
  }

  lemma StepTimed(s: State, e: Event)
    requires PoolInv(s.pool, -1) && Possible(s, e) && Timed(s.pool, -1)
    ensures Timed(Step(s, e).pool, -1)
  {
    var p := s.pool;
    match e
    case Start(j, aborted, signal) => RunEvalTimed(p, s.jobs[j].key, j, signal);
    case Reply(n, k, ok) => ReplyTimed(p, n, k, ok);
    case Exit(n) => DisposeTimed(p, p.sessions[n].key);
    case Watchdog(k) => GiveUpTimed(p, k);
    case Abort(k) => GiveUpTimed(p, k);
    case IdleFires(i) =>
      var p1 := p.(timers := p.timers[i := p.timers[i].(armed := false)]);
      assert Timed(p1, p.sessions[p.timers[i].session].key);
      DisposeTimed(p1, p.sessions[p.timers[i].session].key);
    case AfterAgent(key) => DisposeTimed(p, key);
    case _ =>
  }

  lemma GiveUpTimed(p: Pool, k: nat)
    requires Linked(p) && k < |p.evals| && Timed(p, -1)
    ensures Timed(GiveUp(p, k), -1)
  {
    SettleTimed(p, k, -1);
    DisposeTimed(Settle(p, k), p.evals[k].key);
  }

  lemma {:induction false} RunTimed(s: State, es: seq<Event>)
    requires Inv(s) && CanRun(s, es) && Timed(s.pool, -1)
    ensures Timed(After(s, es).pool, -1)
    decreases |es|
  {
    if es != [] {
      StepKeeps(s, es[0]);
      StepTimed(s, es[0]);
      RunTimed(Step(s, es[0]), es[1..]);
    }
  }

  /** An idle session has one armed timer, its handle's; a busy one has none. */
  ghost predicate IdleTimer(p: Pool, n: nat)
    requires n < |p.sessions|
  {
    if p.sessions[n].pending == [] then
      && p.sessions[n].idle.Some? && p.sessions[n].idle.value < |p.timers|
      && forall i :: 0 <= i < |p.timers| ==> (p.timers[i] == Timer(n, true) <==> i == p.sessions[n].idle.value)
    else forall i :: 0 <= i < |p.timers| ==> p.timers[i] != Timer(n, true)
  }

  lemma TimedExactly(p: Pool, n: nat)
    requires PoolInv(p, -1) && Timed(p, -1) && n < |p.sessions| && IsCurrent(p, n)
    ensures IdleTimer(p, n)
  {
    assert p.sessions[n].key in p.current;
  }

  /** No worker is left running for nothing: a session in the map has an armed idle timer exactly while it idles. */
  lemma IdleExactly(s: State, n: nat)
    requires Reachable(s) && Linked(s.pool) && n < |s.pool.sessions| && IsCurrent(s.pool, n)
    ensures IdleTimer(s.pool, n)
  {
    ReachableInv(s);
    var es :| CanRun(Init(), es) && After(Init(), es) == s;
    RunTimed(Init(), es);
    TimedExactly(s.pool, n);
  }

  // ---------------------------------------------------------------- calls

  /** A call that can move: start, give its answer, or be given up by an armed watchdog. */
  predicate CanGo(s: State, j: nat) {
    && j < |s.jobs|
    && match s.jobs[j].stage
       case Waiting => Possible(s, Start(j, false, false))
       case Running(k) => Possible(s, Finish(j)) || Possible(s, Watchdog(k))
       case Refused => Possible(s, Finish(j))
       case Done => false
  }

  lemma {:induction false} OldestCanGo(s: State, j: nat)
    requires Inv(s) && j < |s.jobs| && !s.jobs[j].stage.Done?
    ensures exists i :: 0 <= i <= j && CanGo(s, i) && s.jobs[i].key == s.jobs[j].key
    decreases j
  {
    if i :| 0 <= i < j && s.jobs[i].key == s.jobs[j].key && !s.jobs[i].stage.Done? {
      OldestCanGo(s, i);
    } else {
      assert CanGo(s, j);
    }
  }

  /** The calls of a key are never stuck: while one is not done, one up to it can start, answer, or be given up. */
  lemma CallsNeverStuck(s: State, j: nat)
    requires Reachable(s) && j < |s.jobs| && !s.jobs[j].stage.Done?
    ensures exists i :: 0 <= i <= j && CanGo(s, i) && s.jobs[i].key == s.jobs[j].key
  {
    ReachableInv(s);
    OldestCanGo(s, j);
  }

  /** A done call is no longer waited for: its key keeps an entry exactly if a later call was queued. */
  lemma ClearedIsForgotten(s: State, j: nat)
    requires Reachable(s) && Linked(s.pool) && Possible(s, Clear(j))
    ensures var s' := Step(s, Clear(j)); var key := s.jobs[j].key;
      && (key in s'.latest <==> key in s.latest && exists i :: j < i < |s.jobs| && s.jobs[i].key == key)
      && (forall k :: k != key ==> Lookup(s'.latest, k) == Lookup(s.latest, k))
  {
    ReachableInv(s);
    var key := s.jobs[j].key;
    if key in s.latest && s.latest[key] != j {
      assert j < s.latest[key] && s.jobs[s.latest[key]].key == key;
    }
  }

  /** A call whose signal is already aborted touches no session. */
  lemma RefusedTouchesNothing(s: State, j: nat, signal: bool)
    requires Linked(s.pool) && Possible(s, Start(j, true, signal))
    ensures var s' := Step(s, Start(j, true, signal));
      s'.pool == s.pool && s'.jobs[j].stage.Refused? && Possible(s', Finish(j))
  {
  }
}

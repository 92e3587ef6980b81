/**
  Sandbox worker sessions. Sessions, evals and idle timers are named by position and never reused; a
  key's current session is the one in the map. An eval's promise settles in the same step as its
  waiter's settle function runs; `resolved` says with a result.
 */
module SandboxSessions {
  import opened Wrappers

  type Key = nat

  /** `pending` is the session's pendingEvals in insertion order; `idle` its latest idle timer handle, live or not. */
  datatype Session = Session(key: Key, pending: seq<nat>, idle: Option<nat>)

  datatype Eval = Eval(
    key: Key, session: nat, job: nat, watchdog: bool, listening: bool, settles: nat, resolved: bool)

  datatype Timer = Timer(session: nat, armed: bool)

  datatype Pool = Pool(sessions: seq<Session>, current: map<Key, nat>, evals: seq<Eval>, timers: seq<Timer>)

  /** A queued eval call: waiting for its predecessor, running an eval, refused because already aborted, done. */
  datatype Stage = Waiting | Running(eval: nat) | Refused | Done

  datatype Job = Job(key: Key, prior: Option<nat>, stage: Stage)

  datatype State = State(pool: Pool, jobs: seq<Job>, latest: map<Key, nat>)

  function Init(): State {
    State(Pool([], map[], [], []), [], map[])
  }

  predicate Linked(p: Pool) {
    && (forall key <- p.current :: p.current[key] < |p.sessions| && p.sessions[p.current[key]].key == key)
    && (forall k :: 0 <= k < |p.evals| ==>
          p.evals[k].session < |p.sessions| && p.sessions[p.evals[k].session].key == p.evals[k].key)
    && (forall i :: 0 <= i < |p.timers| ==> p.timers[i].session < |p.sessions|)
    && (forall n :: 0 <= n < |p.sessions| && p.sessions[n].idle.Some? ==> p.sessions[n].idle.value < |p.timers|)
    && (forall n, k {:trigger k in p.sessions[n].pending} :: 0 <= n < |p.sessions| && k in p.sessions[n].pending ==>
          k < |p.evals| && p.evals[k].session == n)
  }

  predicate IsCurrent(p: Pool, n: nat)
    requires Linked(p) && n < |p.sessions|
  {
    p.sessions[n].key in p.current && p.current[p.sessions[n].key] == n
  }

  function Without(q: seq<nat>, k: nat): (r: seq<nat>)
    ensures forall x :: x in r <==> x in q && x != k
    ensures |r| <= |q| && (k in q ==> |r| < |q|)
  {
    if q == [] then [] else (if q[0] == k then [] else [q[0]]) + Without(q[1..], k)
  }

  // ---------------------------------------------------------------- the pool

  /** clearTimeout on the session's handle, if it has one. */
  function ClearIdle(p: Pool, n: nat): (p': Pool)
    requires Linked(p) && n < |p.sessions|
    ensures Linked(p')
  {
    match p.sessions[n].idle
    case Some(i) => p.(timers := p.timers[i := p.timers[i].(armed := false)])
    case None => p
  }

  /** Arms a fresh idle timer; the old handle is overwritten, not cleared. */
  function ArmIdle(p: Pool, n: nat): (p': Pool)
    requires Linked(p) && n < |p.sessions|
    ensures Linked(p')
  {
    p.(timers := p.timers + [Timer(n, true)], sessions := p.sessions[n := p.sessions[n].(idle := Some(|p.timers|))])
  }

  /** An eval's settle(), with its promise's outcome. */
  function Settle(p: Pool, k: nat): (p': Pool)
    requires Linked(p) && k < |p.evals|
    ensures Linked(p') && |p'.sessions| == |p.sessions|
    ensures p'.sessions[p.evals[k].session].pending == Without(p.sessions[p.evals[k].session].pending, k)
  {
    var e := p.evals[k];
    var left := Without(p.sessions[e.session].pending, k);
    var p1 := p.(
      evals := p.evals[k := e.(watchdog := false, listening := false, settles := e.settles + 1)],
      sessions := p.sessions[e.session := p.sessions[e.session].(pending := left)]);
    if left == [] && IsCurrent(p1, e.session) then ArmIdle(p1, e.session) else p1
  }

  /** Rejects a session's pending evals, first to last. */
  function RejectAll(p: Pool, n: nat): (p': Pool)
    requires Linked(p) && n < |p.sessions|
    ensures Linked(p')
    decreases |p.sessions[n].pending|
  {
    if p.sessions[n].pending == [] then p
    else
      var k := p.sessions[n].pending[0];
      assert k in p.sessions[n].pending;
      RejectAll(Settle(p, k), n)
  }

  function Dispose(p: Pool, key: Key): (p': Pool)
    requires Linked(p)
    ensures Linked(p')
  {
    if key !in p.current then p
    else
      var n := p.current[key];
      RejectAll(ClearIdle(p.(current := p.current - {key}), n), n)
  }

  function Retire(p: Pool, n: nat): (p': Pool)
    requires Linked(p) && n < |p.sessions|
    ensures Linked(p')
  {
    if IsCurrent(p, n) then Dispose(p, p.sessions[n].key) else p
  }

  function WithSession(p: Pool, key: Key): (p': Pool)
    requires Linked(p)
    ensures Linked(p') && key in p'.current
  {
    if key in p.current then p
    else p.(sessions := p.sessions + [Session(key, [], None)], current := p.current[key := |p.sessions|])
  }

  /** runEval for a live signal. */
  function RunEval(p: Pool, key: Key, job: nat, signal: bool): (p': Pool)
    requires Linked(p)
    ensures Linked(p')
  {
    var p1 := WithSession(p, key);
    var n := p1.current[key];
    var p2 := ClearIdle(p1, n);
    p2.(evals := p2.evals + [Eval(key, n, job, true, signal, 0, false)],
        sessions := p2.sessions[n := p2.sessions[n].(pending := p2.sessions[n].pending + [|p2.evals|])])
  }

  // ---------------------------------------------------------------- events

  datatype Event =
    | Call(key: Key)
    | Start(job: nat, aborted: bool, signal: bool)
    | Finish(job: nat)
    | Clear(job: nat)
    | Reply(session: nat, eval: nat, ok: bool)
    | Exit(session: nat)
    | Watchdog(eval: nat)
    | Abort(eval: nat)
    | IdleFires(timer: nat)
    | AfterAgent(key: Key)

  predicate JobDone(jobs: seq<Job>, j: nat) {
    j < |jobs| && jobs[j].stage.Done?
  }

  /** Timers and listeners fire while armed; workers say anything at any time, even once terminated. */
  predicate Possible(s: State, e: Event) {
    match e
    case Start(j, _, _) =>
      j < |s.jobs| && s.jobs[j].stage.Waiting?
      && (s.jobs[j].prior.Some? ==> JobDone(s.jobs, s.jobs[j].prior.value))
    case Finish(j) =>
      && j < |s.jobs|
      && (s.jobs[j].stage.Refused?
          || (s.jobs[j].stage.Running? && s.jobs[j].stage.eval < |s.pool.evals|
              && s.pool.evals[s.jobs[j].stage.eval].settles > 0))
    case Clear(j) => JobDone(s.jobs, j)
    case Reply(n, _, _) => n < |s.pool.sessions|
    case Exit(n) => n < |s.pool.sessions|
    case Watchdog(k) => k < |s.pool.evals| && s.pool.evals[k].watchdog
    case Abort(k) => k < |s.pool.evals| && s.pool.evals[k].listening
    case IdleFires(i) => i < |s.pool.timers| && s.pool.timers[i].armed
    case _ => true
  }

  /** A promise that has settled with a result. */
  function Resolved(p: Pool, k: nat): (p': Pool)
    requires Linked(p) && k < |p.evals|
    ensures Linked(p')
  {
    p.(evals := p.evals[k := p.evals[k].(resolved := true)])
  }

  /** A worker's reply: settle the eval it names, if pending here; a failure retires the session. */
  function OnReply(p: Pool, n: nat, k: nat, ok: bool): (p': Pool)
    requires Linked(p) && n < |p.sessions|
    ensures Linked(p')
  {
    var pending := k in p.sessions[n].pending;
    if ok then if pending then Resolved(Settle(p, k), k) else p
    else Retire(if pending then Settle(p, k) else p, n)
  }

  /** Watchdog and abort alike: settle, then dispose whatever session the key has now. */
  function GiveUp(p: Pool, k: nat): (p': Pool)
    requires Linked(p) && k < |p.evals|
    ensures Linked(p')
  {
    Dispose(Settle(p, k), p.evals[k].key)
  }

  function OnIdle(p: Pool, i: nat): (p': Pool)
    requires Linked(p) && i < |p.timers|
    ensures Linked(p')
  {
    Dispose(p.(timers := p.timers[i := p.timers[i].(armed := false)]), p.sessions[p.timers[i].session].key)
  }

  function Lookup(m: map<Key, nat>, key: Key): Option<nat> {
    if key in m then Some(m[key]) else None
  }

  function SetStage(jobs: seq<Job>, j: nat, stage: Stage): seq<Job>
    requires j < |jobs|
  {
    jobs[j := jobs[j].(stage := stage)]
  }

  function Step(s: State, e: Event): (s': State)
    requires Linked(s.pool) && Possible(s, e)
    ensures Linked(s'.pool)
  {
    match e
    case Call(key) =>
      s.(jobs := s.jobs + [Job(key, Lookup(s.latest, key), Waiting)], latest := s.latest[key := |s.jobs|])
    case Start(j, aborted, signal) =>
      if aborted then s.(jobs := SetStage(s.jobs, j, Refused))
      else s.(pool := RunEval(s.pool, s.jobs[j].key, j, signal), jobs := SetStage(s.jobs, j, Running(|s.pool.evals|)))
    case Finish(j) => s.(jobs := SetStage(s.jobs, j, Done))
    case Clear(j) => if Lookup(s.latest, s.jobs[j].key) == Some(j) then s.(latest := s.latest - {s.jobs[j].key}) else s
    case Reply(n, k, ok) => s.(pool := OnReply(s.pool, n, k, ok))
    case Exit(n) => s.(pool := Retire(s.pool, n))
    case Watchdog(k) => s.(pool := GiveUp(s.pool, k))
    case Abort(k) => s.(pool := GiveUp(s.pool, k))
    case IdleFires(i) => s.(pool := OnIdle(s.pool, i))
    case AfterAgent(key) => s.(pool := Dispose(s.pool, key))
  }
}

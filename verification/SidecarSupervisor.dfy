/**
  The sidecar supervisor's control: health probes, child exits, and the restart loop with its budget and circuit
  breaker. `log` and `seen` are history: what the restart budget is spent on, cleared by and ended by, and the health
  state's past.
 */
module SidecarSupervisor {
  import H = SidecarHealth

  /** The restart loop: not running, in its backoff sleep, awaiting a spawn, or returned but not yet forgotten. */
  datatype Loop = Absent | Sleeping | Spawning | Returning

  datatype Mark = Attempt | Spawn | Clear | Trip

  datatype Supervisor = Supervisor(
    maxRestarts: nat, limits: H.Limits,
    stopped: bool, attempts: nat, loop: Loop,
    childAlive: bool, attached: bool,
    health: H.HealthState, log: seq<Mark>, seen: seq<H.Event>)

  function Boot(maxRestarts: nat, limits: H.Limits, now: int): Supervisor {
    Supervisor(maxRestarts, limits, false, 0, Absent, true, true, H.InitialHealthState(now), [], [H.Spawned(now)])
  }

  /** The head of restartLoop's while: spend an attempt, or trip the breaker. */
  function LoopHead(s: Supervisor): Supervisor {
    if s.stopped then s.(loop := Returning)
    else if s.attempts + 1 > s.maxRestarts then
      s.(attempts := s.attempts + 1, stopped := true, loop := Returning, log := s.log + [Trip])
    else s.(attempts := s.attempts + 1, loop := Sleeping, log := s.log + [Attempt])
  }

  function Restart(s: Supervisor): Supervisor {
    if s.stopped || !s.loop.Absent? then s else LoopHead(s)
  }

  function OnProbe(s: Supervisor, outcome: H.Outcome, now: int): Supervisor {
    if s.stopped then s
    else
      var d := H.ApplyProbe(s.health, outcome, now, s.limits);
      var s1 := s.(health := d.state, seen := s.seen + [H.Probed(outcome, now)]);
      var s2 := if d.clearRestartBudget then s1.(attempts := 0, log := s1.log + [Clear]) else s1;
      if d.kill && !s.childAlive then Restart(s2) else s2
  }

  function OnExit(s: Supervisor): Supervisor {
    var s1 := s.(childAlive := false);
    if s.attached && !s.stopped then Restart(s1) else s1
  }

  function AfterBackoff(s: Supervisor): Supervisor {
    if s.stopped then s.(loop := Returning)
    else s.(attached := false, loop := Spawning, log := s.log + [Spawn])
  }

  function AfterSpawn(s: Supervisor, ok: bool, now: int): Supervisor {
    if !ok then LoopHead(s)
    else if s.stopped then s.(loop := Returning)
    else s.(childAlive := true, attached := true, health := H.InitialHealthState(now), loop := Returning,
            seen := s.seen + [H.Spawned(now)])
  }

  datatype Event =
    | ProbeEnds(outcome: H.Outcome, now: int)
    | ChildExits
    | BackoffEnds
    | SpawnEnds(ok: bool, now: int)
    | LoopForgotten
    | Stop

  predicate Possible(s: Supervisor, e: Event) {
    match e
    case ProbeEnds(_, _) => true
    case ChildExits => s.childAlive
    case BackoffEnds => s.loop.Sleeping?
    case SpawnEnds(_, _) => s.loop.Spawning?
    case LoopForgotten => s.loop.Returning?
    case Stop => true
  }

  function Step(s: Supervisor, e: Event): Supervisor
    requires Possible(s, e)
  {
    match e
    case ProbeEnds(outcome, now) => OnProbe(s, outcome, now)
    case ChildExits => OnExit(s)
    case BackoffEnds => AfterBackoff(s)
    case SpawnEnds(ok, now) => AfterSpawn(s, ok, now)
    case LoopForgotten => s.(loop := Absent)
    case Stop => if s.stopped then s else s.(stopped := true, attached := false)
  }

  predicate CanRun(s: Supervisor, es: seq<Event>)
    decreases |es|
  {
    es == [] || (Possible(s, es[0]) && CanRun(Step(s, es[0]), es[1..]))
  }

  function After(s: Supervisor, es: seq<Event>): Supervisor
    requires CanRun(s, es)
    decreases |es|
  {
    if es == [] then s else After(Step(s, es[0]), es[1..])
  }

  // ---------------------------------------------------------------- the budget, read off the log

  /** Marks of one kind since the last clear. */
  function Since(log: seq<Mark>, kind: Mark): nat {
    if log == [] || log[|log| - 1].Clear? then 0
    else Since(log[..|log| - 1], kind) + if log[|log| - 1] == kind then 1 else 0
  }

  /** Attempts not yet followed by their spawn. */
  function Outstanding(log: seq<Mark>): int {
    if log == [] then 0
    else Outstanding(log[..|log| - 1]) + match log[|log| - 1] case Attempt => 1 case Spawn => -1 case _ => 0
  }

  /** Whether the last clear came between an attempt and its spawn. */
  function Carried(log: seq<Mark>): int {
    if log == [] then 0
    else if log[|log| - 1].Clear? then Outstanding(log)
    else Carried(log[..|log| - 1])
  }

  lemma LogStep(log: seq<Mark>, m: Mark)
    ensures (log + [m])[..|log|] == log
    ensures forall kind ::
      Since(log + [m], kind) == if m.Clear? then 0 else Since(log, kind) + if m == kind then 1 else 0
    ensures Outstanding(log + [m]) == Outstanding(log) + match m case Attempt => 1 case Spawn => -1 case _ => 0
    ensures Carried(log + [m]) == if m.Clear? then Outstanding(log) else Carried(log)
  {
    var next := log + [m];
    assert next[..|log|] == log;
    assert next[|next| - 1] == m;
  }

  ghost predicate Budgeted(s: Supervisor) {
    && s.attempts == Since(s.log, Attempt) + Since(s.log, Trip)
    && Since(s.log, Attempt) <= s.maxRestarts
    && 0 <= Outstanding(s.log) <= 1
    && (s.loop.Sleeping? ==> Outstanding(s.log) == 1)
    && (!s.stopped && !s.loop.Sleeping? ==> Outstanding(s.log) == 0)
    && Since(s.log, Spawn) == Since(s.log, Attempt) + Carried(s.log) - Outstanding(s.log)
    && 0 <= Carried(s.log) <= 1
    && (Trip in s.log ==> s.stopped)
    && (forall i :: 0 <= i < |s.log| && s.log[i].Trip? ==> i == |s.log| - 1)
  }

  lemma LoopHeadBudget(s: Supervisor)
    requires Budgeted(s) && (!s.stopped ==> Outstanding(s.log) == 0) && !s.loop.Sleeping?
    ensures Budgeted(LoopHead(s))
  {
    LogStep(s.log, Trip);
    LogStep(s.log, Attempt);
    NoTripNoCount(s.log);
  }

  lemma {:induction false} NoTripNoCount(log: seq<Mark>)
    ensures Trip !in log ==> Since(log, Trip) == 0
  {
    if log != [] {
      NoTripNoCount(log[..|log| - 1]);
    }
  }

  lemma ProbeBudget(s: Supervisor, outcome: H.Outcome, now: int)
    requires Budgeted(s)
    ensures Budgeted(OnProbe(s, outcome, now))
  {
    if !s.stopped {
      var d := H.ApplyProbe(s.health, outcome, now, s.limits);
      var s1 := s.(health := d.state, seen := s.seen + [H.Probed(outcome, now)]);
      LogStep(s.log, Clear);
      var s2 := if d.clearRestartBudget then s1.(attempts := 0, log := s1.log + [Clear]) else s1;
      if s2.loop.Absent? {
        LoopHeadBudget(s2);
      }
    }
  }

  lemma ExitBudget(s: Supervisor)
    requires Budgeted(s)
    ensures Budgeted(OnExit(s))
  {
    if s.loop.Absent? {
      LoopHeadBudget(s.(childAlive := false));
    }
  }

  lemma SpawnEndBudget(s: Supervisor, ok: bool, now: int)
    requires Budgeted(s) && s.loop.Spawning?
    ensures Budgeted(AfterSpawn(s, ok, now))
  {
    if !ok {
      LoopHeadBudget(s);
    }
  }

  lemma BackoffBudget(s: Supervisor)
    requires Budgeted(s) && s.loop.Sleeping?
    ensures Budgeted(AfterBackoff(s))
  {
    LogStep(s.log, Spawn);
  }

  lemma StepBudget(s: Supervisor, e: Event)
    requires Budgeted(s) && Possible(s, e)
    ensures Budgeted(Step(s, e)) && Step(s, e).maxRestarts == s.maxRestarts && Step(s, e).limits == s.limits
  {
    match e
    case ProbeEnds(outcome, now) => ProbeBudget(s, outcome, now);
    case ChildExits => ExitBudget(s);
    case BackoffEnds => BackoffBudget(s);
    case SpawnEnds(ok, now) => SpawnEndBudget(s, ok, now);
    case _ =>
  }

  lemma {:induction false} RunBudget(s: Supervisor, es: seq<Event>)
    requires Budgeted(s) && CanRun(s, es)
    ensures Budgeted(After(s, es)) && After(s, es).maxRestarts == s.maxRestarts
    decreases |es|
  {
    if es != [] {
      StepBudget(s, es[0]);
      RunBudget(Step(s, es[0]), es[1..]);
    }
  }

  /** Between clears, at most maxRestarts respawns are attempted, and nothing is attempted once the breaker trips. */
  lemma RestartBudget(max: nat, limits: H.Limits, now: int, es: seq<Event>)
    requires CanRun(Boot(max, limits, now), es)
    ensures var s := After(Boot(max, limits, now), es);
      && Since(s.log, Attempt) <= max
      && (forall i :: 0 <= i < |s.log| && s.log[i].Trip? ==> i == |s.log| - 1 && s.stopped)
  {
    RunBudget(Boot(max, limits, now), es);
  }

  /**
    Between clears, at most maxRestarts children are spawned, unless the last clear fell in a backoff: then one more can
    be.
   */
  lemma SpawnBudget(max: nat, limits: H.Limits, now: int, es: seq<Event>)
    requires CanRun(Boot(max, limits, now), es)
    ensures var s := After(Boot(max, limits, now), es);
      && Since(s.log, Spawn) <= max + Carried(s.log)
      && (Since(s.log, Spawn) > max <==> Carried(s.log) == 1 && Since(s.log, Attempt) == max && Outstanding(s.log) == 0)
  {
    RunBudget(Boot(max, limits, now), es);
  }

  lemma Prepend(s: Supervisor, e: Event, es: seq<Event>)
    requires Possible(s, e) && CanRun(Step(s, e), es)
    ensures CanRun(s, [e] + es) && After(s, [e] + es) == After(Step(s, e), es)
  {
    assert ([e] + es)[1..] == es;
  }

  lemma CarriedLog(s: Supervisor)
    requires s.log == [Attempt, Clear, Spawn, Attempt, Spawn]
    ensures Since(s.log, Spawn) == 2
  {
    LogStep([Attempt], Clear);
    LogStep([Attempt, Clear], Spawn);
    LogStep([Attempt, Clear, Spawn], Attempt);
    LogStep([Attempt, Clear, Spawn, Attempt], Spawn);
    assert [Attempt, Clear, Spawn, Attempt] + [Spawn] == s.log;
    assert [Attempt, Clear, Spawn] + [Attempt] == [Attempt, Clear, Spawn, Attempt];
  }

  /** A child exits between two healthy probes a minute apart. */
  lemma ClearedInBackoff(s: Supervisor)
    requires s == Boot(1, H.Limits(3, 120000, 60000), 0)
    ensures var s3 := Step(Step(Step(s, ProbeEnds(H.Healthy, 0)), ChildExits), ProbeEnds(H.Healthy, 60000));
      s3.log == [Attempt, Clear] && s3.loop == Sleeping && s3.attempts == 0 && !s3.stopped && s3.maxRestarts == 1
  {
  }

  /** The default policy with a budget of one: a clear during the backoff, and two children are spawned after it. */
  lemma CarriedAttemptSpawnsOneMore()
    ensures var s := Boot(1, H.Limits(3, 120000, 60000), 0);
      var es := [ProbeEnds(H.Healthy, 0)] + ([ChildExits]
        + ([ProbeEnds(H.Healthy, 60000)] + ([BackoffEnds] + ([SpawnEnds(false, 60000)] + [BackoffEnds]))));
      CanRun(s, es) && Since(After(s, es).log, Spawn) == 2
  {
    var s0 := Boot(1, H.Limits(3, 120000, 60000), 0);
    var s1 := Step(s0, ProbeEnds(H.Healthy, 0));
    var s2 := Step(s1, ChildExits);
    var s3 := Step(s2, ProbeEnds(H.Healthy, 60000));
    ClearedInBackoff(s0);
    var s4 := Step(s3, BackoffEnds);
    var s5 := Step(s4, SpawnEnds(false, 60000));
    var s6 := Step(s5, BackoffEnds);
    CarriedLog(s6);
    var e6 := [BackoffEnds];
    Prepend(s5, BackoffEnds, []);
    assert e6 == [BackoffEnds] + [];
    Prepend(s4, SpawnEnds(false, 60000), e6);
    Prepend(s3, BackoffEnds, [SpawnEnds(false, 60000)] + e6);
    var e4 := [BackoffEnds] + ([SpawnEnds(false, 60000)] + e6);
    Prepend(s2, ProbeEnds(H.Healthy, 60000), e4);
    Prepend(s1, ChildExits, [ProbeEnds(H.Healthy, 60000)] + e4);
    Prepend(s0, ProbeEnds(H.Healthy, 0), [ChildExits] + ([ProbeEnds(H.Healthy, 60000)] + e4));
  }

  // ---------------------------------------------------------------- the health state behind it

  ghost predicate Tracks(s: Supervisor) {
    H.IsHistory(s.seen) && s.health == H.After(s.seen, s.limits)
  }

  lemma StepTracks(s: Supervisor, e: Event)
    requires Tracks(s) && Possible(s, e)
    ensures Tracks(Step(s, e)) && Step(s, e).limits == s.limits
  {
    match e
    case ProbeEnds(outcome, now) => assert (s.seen + [H.Probed(outcome, now)])[..|s.seen|] == s.seen;
    case _ =>
  }

  lemma {:induction false} RunTracks(s: Supervisor, es: seq<Event>)
    requires Tracks(s) && CanRun(s, es)
    ensures Tracks(After(s, es)) && After(s, es).limits == s.limits
    decreases |es|
  {
    if es != [] {
      StepTracks(s, es[0]);
      RunTracks(Step(s, es[0]), es[1..]);
    }
  }

  /**
    A probe refills the budget exactly when the probes since the last spawn end in a healthy stretch as long as the
    stability time.
   */
  lemma RefilledExactly(max: nat, limits: H.Limits, start: int, es: seq<Event>, outcome: H.Outcome, now: int)
    requires CanRun(Boot(max, limits, start), es)
    requires var s := After(Boot(max, limits, start), es); !s.stopped && H.Monotone(s.seen + [H.Probed(outcome, now)])
    ensures var s := After(Boot(max, limits, start), es);
      var h := s.seen + [H.Probed(outcome, now)];
      Clear in OnProbe(s, outcome, now).log[|s.log|..] <==>
        exists m :: 0 < m < |h| && (forall k :: m <= k < |h| ==> H.HealthyAt(h, k))
          && now - H.Time(h[m]) >= limits.stabilityMs
  {
    RunTracks(Boot(max, limits, start), es);
    var s := After(Boot(max, limits, start), es);
    var h := s.seen + [H.Probed(outcome, now)];
    assert h[..|s.seen|] == s.seen;
    H.ClearExactly(h, |s.seen|, limits);
    var d := H.ApplyProbe(s.health, outcome, now, limits);
    assert H.ClearsAt(h, |s.seen|, limits) == d.clearRestartBudget;
    var tail := OnProbe(s, outcome, now).log[|s.log|..];
    if d.clearRestartBudget {
      assert tail == [Clear];
    } else {
      assert tail == [] || tail == [Attempt] || tail == [Trip];
    }
  }

  // ---------------------------------------------------------------- a child is always looked after

  /** A stop, a living child that is watched, or a restart on its way to one. */
  predicate LookedAfter(s: Supervisor) {
    || s.stopped || s.loop.Sleeping? || s.loop.Spawning?
    || (s.childAlive && s.attached)
  }

  /** No child exits in the instant between a restart's end and its promise being forgotten. */
  predicate Punctual(s: Supervisor, es: seq<Event>)
    requires CanRun(s, es)
    decreases |es|
  {
    es != [] ==> !(es[0].ChildExits? && s.loop.Returning?) && Punctual(Step(s, es[0]), es[1..])
  }

  lemma {:induction false} RunLooksAfter(s: Supervisor, es: seq<Event>)
    requires CanRun(s, es) && Punctual(s, es) && LookedAfter(s)
    ensures LookedAfter(After(s, es))
    decreases |es|
  {
    if es != [] {
      RunLooksAfter(Step(s, es[0]), es[1..]);
    }
  }

  /** Until it is stopped or its breaker trips, the supervisor has a living, watched child or is restarting one. */
  lemma NeverAbandoned(max: nat, limits: H.Limits, now: int, es: seq<Event>)
    requires CanRun(Boot(max, limits, now), es) && Punctual(Boot(max, limits, now), es)
    ensures LookedAfter(After(Boot(max, limits, now), es))
  {
    RunLooksAfter(Boot(max, limits, now), es);
  }

  /** An exit in that instant is missed: nobody looks after the supervisor until a probe gives up on the child. */
  lemma EarlyExitIsMissed(s: Supervisor)
    requires Possible(s, ChildExits) && s.loop.Returning? && !s.stopped
    ensures var s' := Step(Step(s, ChildExits), LoopForgotten);
      !LookedAfter(s') && s'.log == s.log && s'.loop.Absent?
  {
  }

  /** The event asks for a restart: a watched child exits, or a probe gives up on a child already gone. */
  predicate AsksRestart(s: Supervisor, e: Event) {
    match e
    case ChildExits => s.attached
    case ProbeEnds(outcome, now) => H.ApplyProbe(s.health, outcome, now, s.limits).kill && !s.childAlive
    case SpawnEnds(ok, _) => !ok
    case _ => false
  }

  /** Attempts already spent when the event asks. */
  function Spent(s: Supervisor, e: Event): nat {
    if e.ProbeEnds? && H.ApplyProbe(s.health, e.outcome, e.now, s.limits).clearRestartBudget then 0 else s.attempts
  }

  /** A restart asked for while none is under way spends an attempt and backs off, or trips the breaker. */
  lemma RestartsExactly(s: Supervisor, e: Event)
    requires Possible(s, e) && AsksRestart(s, e) && !s.stopped && (s.loop.Absent? || e.SpawnEnds?)
    ensures var s' := Step(s, e);
      if Spent(s, e) < s.maxRestarts then
        s'.loop.Sleeping? && !s'.stopped && s'.attempts == Spent(s, e) + 1 && s'.log[|s'.log| - 1..] == [Attempt]
      else s'.stopped && s'.loop.Returning? && s'.log[|s'.log| - 1..] == [Trip]
  {
    var log := Step(s, e).log;
    assert log != [];
  }

  /** After its backoff a restart spawns, and a spawned child is watched with fresh health, unless stopped meanwhile. */
  lemma SpawnsExactly(s: Supervisor, ok: bool, now: int)
    requires !s.stopped
    ensures s.loop.Sleeping? ==>
      var s' := Step(s, BackoffEnds); s'.loop.Spawning? && !s'.attached && s'.log == s.log + [Spawn]
    ensures s.loop.Spawning? ==>
      var s' := Step(s, SpawnEnds(true, now));
      s'.childAlive && s'.attached && s'.health == H.InitialHealthState(now) && s'.loop.Returning?
  {
  }

  /** Nothing restarts after a stop: the child is watched no more, and a child spawned meanwhile is not taken on. */
  lemma StopIsFinal(s: Supervisor, es: seq<Event>)
    requires CanRun(Step(s, Stop), es)
    ensures After(Step(s, Stop), es).stopped && After(Step(s, Stop), es).log == s.log
    ensures !s.stopped ==> !After(Step(s, Stop), es).attached
    ensures After(Step(s, Stop), es).childAlive ==> s.childAlive
  {
    StoppedForGood(Step(s, Stop), es);
  }

  lemma {:induction false} StoppedForGood(s: Supervisor, es: seq<Event>)
    requires CanRun(s, es) && s.stopped
    ensures After(s, es).stopped && After(s, es).log == s.log && After(s, es).attempts == s.attempts
    ensures (After(s, es).attached ==> s.attached) && (After(s, es).childAlive ==> s.childAlive)
    decreases |es|
  {
    if es != [] {
      StoppedForGood(Step(s, es[0]), es[1..]);
    }
  }
}

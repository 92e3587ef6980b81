/**
  The sidecar's health policy, and what it means over a child's history of probes. Times are
  milliseconds; a history is what happened to the supervisor's health state, oldest first.
 */
module SidecarHealth {
  import opened Wrappers

  datatype Outcome = Healthy | Warming | Unhealthy | Unreachable

  datatype Limits = Limits(failureThreshold: nat, startupGraceMs: int, stabilityMs: int)

  datatype HealthState = HealthState(spawnedAt: int, consecutiveFailures: nat, healthySince: Option<int>)

  datatype Decision = Decision(state: HealthState, kill: bool, clearRestartBudget: bool)

  function InitialHealthState(spawnedAt: int): HealthState {
    HealthState(spawnedAt, 0, None)
  }

  predicate Failing(outcome: Outcome) {
    outcome.Unhealthy? || outcome.Unreachable?
  }

  function ApplyProbe(state: HealthState, outcome: Outcome, now: int, limits: Limits): Decision {
    match outcome
    case Healthy =>
      var since := if state.healthySince.Some? then state.healthySince.value else now;
      Decision(state.(consecutiveFailures := 0, healthySince := Some(since)), false, now - since >= limits.stabilityMs)
    case Warming =>
      Decision(state.(consecutiveFailures := 0, healthySince := None), false, false)
    case _ =>
      var failures := state.consecutiveFailures + 1;
      var withinGrace := outcome.Unreachable? && now - state.spawnedAt < limits.startupGraceMs;
      var kill := !withinGrace && failures >= limits.failureThreshold;
      Decision(state.(consecutiveFailures := if kill then 0 else failures, healthySince := None), kill, false)
  }

  // ---------------------------------------------------------------- histories

  datatype Event = Spawned(at: int) | Probed(outcome: Outcome, now: int)

  function Time(e: Event): int {
    match e case Spawned(at) => at case Probed(_, now) => now
  }

  /** A history starts with a spawn. */
  predicate IsHistory(h: seq<Event>) {
    h != [] && h[0].Spawned?
  }

  predicate Monotone(h: seq<Event>) {
    forall i, j :: 0 <= i <= j < |h| ==> Time(h[i]) <= Time(h[j])
  }

  function After(h: seq<Event>, limits: Limits): HealthState
    requires IsHistory(h)
  {
    var last := h[|h| - 1];
    if last.Spawned? then InitialHealthState(last.at)
    else ApplyProbe(After(h[..|h| - 1], limits), last.outcome, last.now, limits).state
  }

  /** The decision taken at the i-th event, a probe. */
  function DecisionAt(h: seq<Event>, i: nat, limits: Limits): Decision
    requires IsHistory(h) && i < |h| && h[i].Probed?
  {
    ApplyProbe(After(h[..i], limits), h[i].outcome, h[i].now, limits)
  }

  predicate KillsAt(h: seq<Event>, i: nat, limits: Limits)
    requires IsHistory(h) && i < |h|
  {
    h[i].Probed? && DecisionAt(h, i, limits).kill
  }

  predicate ClearsAt(h: seq<Event>, i: nat, limits: Limits)
    requires IsHistory(h) && i < |h|
  {
    h[i].Probed? && DecisionAt(h, i, limits).clearRestartBudget
  }

  predicate FailsAt(h: seq<Event>, i: nat)
    requires i < |h|
  {
    h[i].Probed? && Failing(h[i].outcome)
  }

  predicate HealthyAt(h: seq<Event>, i: nat)
    requires i < |h|
  {
    h[i].Probed? && h[i].outcome.Healthy?
  }

  /** The spawn the i-th event belongs to: the last one up to it. */
  function SpawnTime(h: seq<Event>, i: nat): int
    requires IsHistory(h) && i < |h|
  {
    if h[i].Spawned? then h[i].at else SpawnTime(h, i - 1)
  }

  // ---------------------------------------------------------------- what the state means

  /** The counter is the number of trailing failing probes since the last spawn, answer or kill. */
  ghost predicate CountsFailures(h: seq<Event>, n: nat, limits: Limits)
    requires IsHistory(h)
  {
    && n < |h|
    && (forall i :: |h| - n <= i < |h| ==> FailsAt(h, i) && !KillsAt(h, i, limits))
    && (FailsAt(h, |h| - n - 1) ==> KillsAt(h, |h| - n - 1, limits))
  }

  /** The mark is the time of the first of the trailing healthy probes, if the last event is one. */
  ghost predicate MarksHealthy(h: seq<Event>, since: Option<int>)
    requires IsHistory(h)
  {
    if since.None? then !HealthyAt(h, |h| - 1)
    else
      exists m ::
        && 0 < m < |h| && Time(h[m]) == since.value && !HealthyAt(h, m - 1)
        && forall i :: m <= i < |h| ==> HealthyAt(h, i)
  }

  /** Dropping later events changes no earlier decision. */
  lemma PrefixAgrees(h: seq<Event>, n: nat, limits: Limits)
    requires IsHistory(h) && 0 < n <= |h|
    ensures IsHistory(h[..n])
    ensures forall i :: 0 <= i < n ==>
      KillsAt(h[..n], i, limits) == KillsAt(h, i, limits) && ClearsAt(h[..n], i, limits) == ClearsAt(h, i, limits)
    ensures forall i :: 0 <= i < n ==> SpawnTime(h[..n], i) == SpawnTime(h, i)
  {
    forall i | 0 <= i < n
      ensures KillsAt(h[..n], i, limits) == KillsAt(h, i, limits)
      ensures ClearsAt(h[..n], i, limits) == ClearsAt(h, i, limits)
    {
      assert h[..n][..i] == h[..i];
    }
    SpawnPrefix(h, n);
  }

  lemma {:induction false} SpawnPrefix(h: seq<Event>, n: nat)
    requires IsHistory(h) && 0 < n <= |h|
    ensures forall i :: 0 <= i < n ==> SpawnTime(h[..n], i) == SpawnTime(h, i)
  {
    forall i | 0 <= i < n ensures SpawnTime(h[..n], i) == SpawnTime(h, i) {
      SpawnPrefixAt(h, n, i);
    }
  }

  lemma {:induction false} SpawnPrefixAt(h: seq<Event>, n: nat, i: nat)
    requires IsHistory(h) && i < n <= |h|
    ensures SpawnTime(h[..n], i) == SpawnTime(h, i)
  {
    if !h[i].Spawned? {
      SpawnPrefixAt(h, n, i - 1);
    }
  }

  /** The state refines the history: spawn time, failure counter and healthy mark. */
  lemma {:induction false} StateRefinesHistory(h: seq<Event>, limits: Limits)
    requires IsHistory(h)
    ensures var s := After(h, limits);
      && s.spawnedAt == SpawnTime(h, |h| - 1)
      && CountsFailures(h, s.consecutiveFailures, limits)
      && MarksHealthy(h, s.healthySince)
  {
    var n := |h| - 1;
    if h[n].Probed? {
      var before := h[..n];
      StateRefinesHistory(before, limits);
      PrefixAgrees(h, n, limits);
      CounterStep(h, limits);
      MarkStep(h, limits);
    }
  }

  lemma CounterStep(h: seq<Event>, limits: Limits)
    requires IsHistory(h) && h[|h| - 1].Probed?
    requires CountsFailures(h[..|h| - 1], After(h[..|h| - 1], limits).consecutiveFailures, limits)
    ensures CountsFailures(h, After(h, limits).consecutiveFailures, limits)
  {
    var n := |h| - 1;
    var d := DecisionAt(h, n, limits);
    assert After(h, limits) == d.state && KillsAt(h, n, limits) == d.kill;
    if Failing(h[n].outcome) && !d.kill {
      CounterExtends(h, After(h[..n], limits).consecutiveFailures, limits);
    }
  }

  lemma CounterExtends(h: seq<Event>, c: nat, limits: Limits)
    requires IsHistory(h) && |h| > 1 && CountsFailures(h[..|h| - 1], c, limits)
    requires FailsAt(h, |h| - 1) && !KillsAt(h, |h| - 1, limits)
    ensures CountsFailures(h, c + 1, limits)
  {
    var n := |h| - 1;
    PrefixAgrees(h, n, limits);
    forall i | n - c <= i < n ensures FailsAt(h, i) && !KillsAt(h, i, limits) {
      assert FailsAt(h[..n], i);
    }
    assert FailsAt(h[..n], n - c - 1) == FailsAt(h, n - c - 1);
  }

  lemma MarkStep(h: seq<Event>, limits: Limits)
    requires IsHistory(h) && h[|h| - 1].Probed?
    requires MarksHealthy(h[..|h| - 1], After(h[..|h| - 1], limits).healthySince)
    ensures MarksHealthy(h, After(h, limits).healthySince)
  {
    var n := |h| - 1;
    var since := After(h[..n], limits).healthySince;
    if h[n].outcome.Healthy? {
      if since.None? {
        assert !HealthyAt(h[..n], n - 1);
        assert !HealthyAt(h, n - 1) && Time(h[n]) == h[n].now;
      } else {
        var m :| 0 < m < n && Time(h[..n][m]) == since.value && !HealthyAt(h[..n], m - 1)
          && forall i :: m <= i < n ==> HealthyAt(h[..n], i);
        forall i | m <= i < |h| ensures HealthyAt(h, i) {
          assert i < n ==> HealthyAt(h[..n], i);
        }
        assert !HealthyAt(h, m - 1) && Time(h[m]) == since.value;
      }
    }
  }

  // ---------------------------------------------------------------- when it kills

  /**
    Exactly when a probe kills: it fails, outside the grace an unanswered probe enjoys, as the threshold-th failure in a
    row since the last spawn, answer or kill.
   */
  lemma KillExactly(h: seq<Event>, i: nat, limits: Limits)
    requires IsHistory(h) && i < |h|
    ensures KillsAt(h, i, limits) <==>
      && FailsAt(h, i)
      && !(h[i].outcome.Unreachable? && h[i].now - SpawnTime(h, i) < limits.startupGraceMs)
      && limits.failureThreshold <= i
      && (forall m :: i - limits.failureThreshold < m < i ==> FailsAt(h, m) && !KillsAt(h, m, limits))
  {
    if h[i].Probed? {
      StateRefinesHistory(h[..i], limits);
      PrefixAgrees(h, i, limits);
      var c := After(h[..i], limits).consecutiveFailures;
      assert FailsAt(h[..i], i - c - 1) == FailsAt(h, i - c - 1);
      forall m | i - c <= m < i ensures FailsAt(h, m) && !KillsAt(h, m, limits) {
        assert FailsAt(h[..i], m);
      }
    }
  }

  /** Two kills are at least the threshold apart, with only failures between. */
  lemma KillsApart(h: seq<Event>, i: nat, j: nat, limits: Limits)
    requires IsHistory(h) && i < j < |h| && KillsAt(h, i, limits) && KillsAt(h, j, limits)
    ensures j - i >= limits.failureThreshold
    ensures forall m :: j - limits.failureThreshold < m <= j ==> FailsAt(h, m)
  {
    KillExactly(h, j, limits);
  }

  /** An unanswered probe within the grace period never kills. */
  lemma GraceHolds(h: seq<Event>, i: nat, limits: Limits)
    requires IsHistory(h) && i < |h| && h[i].Probed? && h[i].outcome.Unreachable?
    requires h[i].now - SpawnTime(h, i) < limits.startupGraceMs
    ensures !KillsAt(h, i, limits)
  {
    KillExactly(h, i, limits);
  }

  // ---------------------------------------------------------------- when it clears the restart budget

  /** Exactly when a probe clears the budget: it ends a stretch of healthy probes spanning the stability time. */
  lemma ClearExactly(h: seq<Event>, i: nat, limits: Limits)
    requires IsHistory(h) && i < |h| && Monotone(h)
    ensures ClearsAt(h, i, limits) <==>
      exists m :: 0 < m <= i && (forall k :: m <= k <= i ==> HealthyAt(h, k))
        && Time(h[i]) - Time(h[m]) >= limits.stabilityMs
  {
    if HealthyAt(h, i) {
      StateRefinesHistory(h[..i], limits);
      var since := After(h[..i], limits).healthySince;
      if since.None? {
        assert !HealthyAt(h[..i], i - 1);
        assert !HealthyAt(h, i - 1);
      } else {
        var m :| 0 < m < i && Time(h[..i][m]) == since.value && !HealthyAt(h[..i], m - 1)
          && forall k :: m <= k < i ==> HealthyAt(h[..i], k);
        assert !HealthyAt(h, m - 1) && Time(h[m]) == since.value;
        forall k | m <= k <= i ensures HealthyAt(h, k) {
          assert k < i ==> HealthyAt(h[..i], k);
        }
      }
    }
  }
}

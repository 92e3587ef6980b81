/** The sidecar supervisor as the closure it is: its variables change inside a retry loop, timers and exits. */
module SidecarObject {
  import H = SidecarHealth
  import opened SidecarSupervisor

  class Sidecar {
    const maxRestarts: nat
    const healthPolicy: H.Limits
    var stopped: bool
    var restartAttempts: nat
    var loop: Loop
    var childAlive: bool
    var attached: bool
    var health: H.HealthState
    ghost var log: seq<Mark>
    ghost var seen: seq<H.Event>

    ghost function State(): Supervisor
      reads this
    {
      Supervisor(maxRestarts, healthPolicy, stopped, restartAttempts, loop, childAlive, attached, health, log, seen)
    }

    constructor (maxRestarts: nat, healthPolicy: H.Limits, now: int)
      ensures State() == Boot(maxRestarts, healthPolicy, now)
    {
      this.maxRestarts, this.healthPolicy := maxRestarts, healthPolicy;
      stopped, restartAttempts, loop, childAlive, attached := false, 0, Absent, true, true;
      health := H.InitialHealthState(now);
      log, seen := [], [H.Spawned(now)];
    }

    /** One turn of restartLoop up to its backoff. */
    method LoopTurn()
      modifies this`stopped, this`restartAttempts, this`loop, this`log
      ensures State() == LoopHead(old(State()))
    {
      if stopped {
        loop := Returning;
        return;
      }
      restartAttempts := restartAttempts + 1;
      if restartAttempts > maxRestarts {
        stopped := true;
        log := log + [Trip];
        loop := Returning;
      } else {
        log := log + [Attempt];
        loop := Sleeping;
      }
    }

    method RequestRestart()
      modifies this`stopped, this`restartAttempts, this`loop, this`log
      ensures State() == Restart(old(State()))
    {
      if !stopped && loop.Absent? {
        LoopTurn();
      }
    }

    method OnBackoffOver()
      modifies this`attached, this`loop, this`log
      ensures State() == AfterBackoff(old(State()))
    {
      if stopped {
        loop := Returning;
      } else {
        attached := false;
        log := log + [Spawn];
        loop := Spawning;
      }
    }

    method OnSpawned(ok: bool, now: int)
      modifies this
      ensures State() == AfterSpawn(old(State()), ok, now)
    {
      if !ok {
        LoopTurn();
        return;
      }
      if !stopped {
        childAlive, attached := true, true;
        health := H.InitialHealthState(now);
        seen := seen + [H.Spawned(now)];
      }
      loop := Returning;
    }

    method OnChildExit()
      modifies this
      ensures State() == OnExit(old(State()))
    {
      childAlive := false;
      if attached && !stopped {
        RequestRestart();
      }
    }

    method OnProbeEnded(outcome: H.Outcome, now: int)
      modifies this
      ensures State() == OnProbe(old(State()), outcome, now)
    {
      if stopped {
        return;
      }
      var decision := H.ApplyProbe(health, outcome, now, healthPolicy);
      health := decision.state;
      seen := seen + [H.Probed(outcome, now)];
      if decision.clearRestartBudget {
        restartAttempts := 0;
        log := log + [Clear];
      }
      if decision.kill && !childAlive {
        RequestRestart();
      }
    }

    method StopSupervising()
      modifies this`stopped, this`attached
      ensures State() == Step(old(State()), Stop)
    {
      if !stopped {
        stopped, attached := true, false;
      }
    }
  }
}

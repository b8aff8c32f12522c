/** One pooled connection (connection/pooled_connection.go).
    `Conn` is the value protected by the connection lock. The functions are the locked
    sections as value transformers, so that the interleaving model can use them; the
    class is the object whose methods perform them in place. */
module PooledConnections {
  import opened ConnectionStates

  datatype Health = Unknown | Healthy | Degraded | Unhealthy

  datatype HealthConfig = HealthConfig(
    unhealthyThreshold: int, degradedThreshold: int, triggerRebuild: bool, rebuildOnDegraded: bool)

  datatype Conn = Conn(
    state: ConnState, rebuilding: bool, marked: bool, health: Health, failures: nat, using: int)

  const NEW_CONN := Conn(Idle, false, false, Unknown, 0, 0)

  predicate Acquirable(c: Conn) {
    c.using <= 0 && c.state == Idle && c.health != Unhealthy && !c.rebuilding
  }

  function Moved(c: Conn, to: ConnState): Conn {
    if CanTransition(c.state, to) then c.(state := to) else c
  }

  function AfterAcquire(c: Conn): Conn {
    if Acquirable(c) then c.(state := Acquired) else c
  }

  function AfterRelease(c: Conn): Conn {
    if c.state == Acquired then c.(state := Idle) else c
  }

  /** The health a run of consecutive failures stands for. */
  function Graded(cfg: HealthConfig, failures: nat): Health {
    if failures == 0 then Healthy
    else if failures >= cfg.unhealthyThreshold then Unhealthy
    else if failures >= cfg.degradedThreshold then Degraded
    else Healthy
  }

  predicate MarksOn(cfg: HealthConfig, h: Health) {
    (h == Unhealthy && cfg.triggerRebuild) || (h == Degraded && cfg.rebuildOnDegraded)
  }

  function AfterCheck(cfg: HealthConfig, c: Conn, success: bool): Conn {
    var failures := if success then 0 else c.failures + 1;
    var health := if success then Healthy else Graded(cfg, failures);
    c.(failures := failures,
       health := health,
       marked := c.marked || (!success && MarksOn(cfg, health)),
       state := if c.state == Checking then Acquired else c.state)
  }

  predicate CanBeginRebuild(c: Conn) {
    !c.rebuilding && c.state != Closing && c.state != Closed
  }

  function AfterCompleteRebuild(c: Conn, success: bool): Conn {
    if !c.rebuilding then c
    else c.(rebuilding := false, marked := if success then false else c.marked)
  }

  class PooledConnection {
    var state: ConnState
    var rebuilding: bool
    var marked: bool
    var health: Health
    var consecutiveFailures: nat
    var usingCount: int
    const config: HealthConfig

    function View(): Conn
      reads this
    {
      Conn(state, rebuilding, marked, health, consecutiveFailures, usingCount)
    }

    constructor (config: HealthConfig)
      ensures View() == NEW_CONN && this.config == config
      ensures state == Idle && !rebuilding && !marked && health == Unknown && consecutiveFailures == usingCount == 0
    {
      this.config := config;
      state, rebuilding, marked := Idle, false, false;
      health, consecutiveFailures, usingCount := Unknown, 0, 0;
    }

    /** Moves to `target` when the state machine allows it; otherwise changes nothing. */
    method TransitionState(target: ConnState) returns (ok: bool)
      modifies this`state
      ensures ok == CanTransition(old(state), target)
      ensures View() == Moved(old(View()), target)
      ensures state == if ok then target else old(state)
    {
      if !CanTransition(state, target) {
        return false;
      }
      state := target;
      return true;
    }

    method TryAcquireForTask() returns (ok: bool)
      modifies this`state
      ensures ok <==> usingCount <= 0 && old(state) == Idle && health != Unhealthy && !rebuilding
      ensures state == if ok then Acquired else old(state)
      ensures ok == old(Acquirable(View())) && View() == AfterAcquire(old(View()))
    {
      if usingCount > 0 {
        return false;
      }
      if state != Idle {
        return false;
      }
      if health == Unhealthy {
        return false;
      }
      if rebuilding {
        return false;
      }
      ok := TransitionState(Acquired);
    }

    /** Only an Acquired connection goes back to Idle; the fall-back to Closing is never taken. */
    method Release()
      modifies this`state
      ensures state == if old(state) == Acquired then Idle else old(state)
      ensures View() == AfterRelease(old(View()))
    {
      if state != Acquired {
        return;
      }
      var ok := TransitionState(Idle);
      assert ok;
    }

    method MarkForRebuild() returns (won: bool)
      modifies this`marked
      ensures won == !old(marked) && marked
    {
      if !marked {
        marked := true;
        return true;
      }
      return false;
    }

    /** A success forgets the failures. A failure counts; from the unhealthy threshold on the
        connection is Unhealthy, between the thresholds Degraded, and below both it still
        passes for Healthy; Unhealthy and Degraded set the mark where configured. */
    method RecordHealthCheck(success: bool)
      modifies this`state, this`marked, this`health, this`consecutiveFailures
      ensures View() == AfterCheck(config, old(View()), success)
      ensures consecutiveFailures == if success then 0 else old(consecutiveFailures) + 1
      ensures health == Unhealthy <==> !success && consecutiveFailures >= config.unhealthyThreshold
      ensures health == Degraded <==>
        !success && config.degradedThreshold <= consecutiveFailures < config.unhealthyThreshold
      ensures health != Unknown
      ensures marked <==>
        || old(marked)
        || (health == Unhealthy && config.triggerRebuild)
        || (health == Degraded && config.rebuildOnDegraded)
      ensures state == if old(state) == Checking then Acquired else old(state)
    {
      if success {
        consecutiveFailures := 0;
        health := Healthy;
      } else {
        consecutiveFailures := consecutiveFailures + 1;
        if consecutiveFailures >= config.unhealthyThreshold {
          SetHealthMarking(Unhealthy, config.triggerRebuild);
        } else if consecutiveFailures >= config.degradedThreshold {
          SetHealthMarking(Degraded, config.rebuildOnDegraded);
        } else {
          health := Healthy;
        }
      }
      if state == Checking {
        var _ := TransitionState(Acquired);
      }
    }

    method SetHealthMarking(h: Health, mark: bool)
      modifies this`health, this`marked
      ensures health == h && marked == (old(marked) || mark)
    {
      health := h;
      if mark {
        var _ := MarkForRebuild();
      }
    }

    method BeginHealthCheck() returns (ok: bool)
      modifies this`state
      ensures ok == CanTransition(old(state), Checking)
      ensures View() == Moved(old(View()), Checking)
    {
      ok := TransitionState(Checking);
    }

    method BeginRebuild() returns (ok: bool)
      modifies this`rebuilding
      ensures ok <==> !old(rebuilding) && state != Closing && state != Closed
      ensures ok == old(CanBeginRebuild(View())) && rebuilding == (old(rebuilding) || ok)
    {
      if rebuilding {
        return false;
      }
      if state == Closing || state == Closed {
        return false;
      }
      rebuilding := true;
      return true;
    }

    method CompleteRebuild(success: bool)
      modifies this`rebuilding, this`marked
      ensures !rebuilding && marked == (old(marked) && !(old(rebuilding) && success))
      ensures View() == AfterCompleteRebuild(old(View()), success)
    {
      if !rebuilding {
        return;
      }
      rebuilding := false;
      if success {
        marked := false;
      }
    }

    method BeginClose() returns (ok: bool)
      modifies this`state
      ensures ok <==> old(state) != Closing && old(state) != Closed
      ensures state == if ok then Closing else old(state)
      ensures View() == Moved(old(View()), Closing)
    {
      ok := TransitionState(Closing);
    }

    method CompleteClose() returns (ok: bool)
      modifies this`state
      ensures ok == (old(state) == Closing)
      ensures View() == if ok then old(View()).(state := Closed) else old(View())
    {
      if state != Closing {
        return false;
      }
      ok := TransitionState(Closed);
    }
  }
}

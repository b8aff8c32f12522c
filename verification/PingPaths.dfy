/** One ping from start to end when nobody interferes (manager/router_scheduler.go,
    task/async_executor.go): every branch of the code follows the steps of the pipeline. */
module PingPaths {
  import opened TaskPipeline

  class PingRunner {
    const cfg: Config
    var held: nat           // slots in the semaphore
    var leased: nat         // connections taken from the pool and not released
    var taskChan: seq<nat>
    var stopped: bool

    constructor (cfg: Config)
      ensures this.cfg == cfg && held == 0 && leased == 0 && taskChan == [] && !stopped
    {
      this.cfg := cfg;
      held, leased, taskChan, stopped := 0, 0, [], false;
    }

    /** Never waits. With room in the queue and a stopped executor either may win. */
    method Submit(p: nat, preferStop: bool) returns (ok: bool)
      modifies this`taskChan
      ensures ok <==> |old(taskChan)| < 10 * cfg.workers && !(stopped && preferStop)
      ensures taskChan == if ok then old(taskChan) + [p] else old(taskChan)
    {
      ok := |taskChan| < Capacity(cfg) && !(stopped && preferStop);
      if ok {
        taskChan := taskChan + [p];
      }
    }

    /** The ping ends up queued, with its slot and its connection, or finished with neither.
        The flags say whether the done context wins at the semaphore, whether it is seen at
        the second look, whether the pool hands out a connection, and whether the stopped
        executor wins at the submission. Without a free slot and with a live context the
        code waits; such calls are left out. */
    method ExecuteIndividualPing(source: nat, p: nat, giveUp: bool, doneThen: bool, connected: bool, preferStop: bool)
      returns (x: Ping)
      requires held < cfg.slots || (giveUp && held == cfg.slots)
      modifies this`held, this`leased, this`taskChan
      ensures x.phase.Queued? || x.phase.Finished?
      ensures x.connsFreed + ConnHeld(x) == x.connsGot <= 1 && x.slotsFreed + SlotHeld(x) == x.slotsGot <= 1
      ensures held == old(held) + SlotHeld(x) && leased == old(leased) + ConnHeld(x)
      ensures taskChan == if x.phase.Queued? then old(taskChan) + [p] else old(taskChan)
      ensures x.phase.Queued? <==>
        !giveUp && !doneThen && connected && |old(taskChan)| < 10 * cfg.workers && !(stopped && preferStop)
    {
      x := Ping(Wanting, 0, 0, 0, 0, source);
      if giveUp {
        x := Moved(x, GiveUp, true);
        return;
      }
      held, x := held + 1, Moved(x, AcquireSlot, doneThen);
      x := Moved(x, CheckContext, doneThen);
      if doneThen {
        held, x := held - 1, Moved(x, FreeSlot, doneThen);
        return;
      }
      x := Moved(x, Get(connected), doneThen);
      if !connected {
        held, x := held - 1, Moved(x, FreeSlot, doneThen);
        return;
      }
      assert x == Ping(Submitting, 1, 0, 1, 0, source);
      x := SubmitOrGiveBack(source, p, x, preferStop);
    }

    /** The second half: the connection has just been handed out. */
    method SubmitOrGiveBack(source: nat, p: nat, x: Ping, preferStop: bool) returns (y: Ping)
      requires x == Ping(Submitting, 1, 0, 1, 0, source) && held > 0
      modifies this`held, this`leased, this`taskChan
      ensures var ok := |old(taskChan)| < Capacity(cfg) && !(stopped && preferStop);
        && y == (if ok then Ping(Queued, 1, 0, 1, 0, source) else Ping(Finished, 1, 1, 1, 1, source))
        && held == old(held) - (if ok then 0 else 1)
        && leased == old(leased) + (if ok then 1 else 0)
        && taskChan == if ok then old(taskChan) + [p] else old(taskChan)
    {
      leased := leased + 1;
      var ok := Submit(p, preferStop);
      if ok {
        y := Moved(x, Enqueue, false);
      } else {
        y := Moved(x, Refuse, false);
        leased, y := leased - 1, Moved(y, FreeConn, false);
        held, y := held - 1, Moved(y, FreeSlot, false);
      }
    }

    /** Whatever the task answers, and even if handing over the result panics, the callback
        gives back the connection and the slot. */
    method ProcessTask(x: Ping, success: bool, panicked: bool) returns (y: Ping)
      requires x.phase.Running? && ConnsBalanced(x) && SlotsBalanced(x)
      requires leased > 0 && held > 0
      modifies this`held, this`leased
      ensures y.phase.Finished? && y.connsFreed == y.connsGot == 1 && y.slotsFreed == y.slotsGot == 1
      ensures held == old(held) - 1 && leased == old(leased) - 1
    {
      y := Moved(x, Execute(success), false);
      leased, y := leased - 1, Moved(y, FreeConn, false);
      held, y := held - 1, Moved(y, FreeSlot, false);
      y := Moved(y, Report(panicked), false);
    }
  }
}

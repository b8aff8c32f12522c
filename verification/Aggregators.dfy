/** The result aggregator (task/aggregator.go): a bounded event queue, workers that move
    events into a shared buffer, and flushes that swap the buffer and hand the batch to
    every handler in turn. */
module Aggregators {

  datatype Event = Event(id: nat, success: bool)

  datatype Config = Config(workers: nat, bufferSize: nat, handlers: nat)

  datatype Stats = Stats(total: nat, success: nat, failed: nat)

  datatype Core = Core(queue: seq<Event>, buffer: seq<Event>, stats: Stats)

  /** What each handler has been given; the last entry records the batches whose flush has ended. */
  type Logs = seq<seq<Event>>

  datatype Outcome = Accepted | Cancelled | QueueFull

  // ---------------------------------------------------------------- single lock sections

  function Capacity(cfg: Config): nat {
    cfg.workers * 200
  }

  function Submitted(c: Core, e: Event): Core {
    c.(queue := c.queue + [e])
  }

  function Appended(c: Core, e: Event): Core {
    c.(buffer := c.buffer + [e])
  }

  /** Whether the worker that just appended must flush. */
  predicate MustFlush(cfg: Config, c: Core) {
    |c.buffer| >= cfg.bufferSize
  }

  function Counted(c: Core, e: Event): Core {
    c.(stats := Stats(
      c.stats.total + 1,
      c.stats.success + if e.success then 1 else 0,
      c.stats.failed + if e.success then 0 else 1))
  }

  function Swapped(c: Core): Core {
    c.(buffer := [])
  }

  /** Entry h of the logs receives a batch. */
  function Given(logs: Logs, h: nat, batch: seq<Event>): Logs
    requires h < |logs|
  {
    logs[h := logs[h] + batch]
  }

  /** Every entry from h on receives a batch. */
  function GivenFrom(logs: Logs, h: nat, batch: seq<Event>): Logs
    requires h <= |logs|
  {
    seq(|logs|, i requires 0 <= i < |logs| => if i < h then logs[i] else logs[i] + batch)
  }

  class Aggregator {
    const cfg: Config
    var eventChan: seq<Event>
    var buffer: seq<Event>
    var stats: Stats
    var cancelled: bool
    var logs: Logs

    ghost predicate Valid()
      reads this
    {
      |logs| == cfg.handlers + 1 && |eventChan| <= Capacity(cfg)
    }

    ghost function View(): Core
      reads this
    {
      Core(eventChan, buffer, stats)
    }

    constructor (workers: nat, bufferSize: nat, handlers: nat)
      ensures Valid() && View() == Core([], [], Stats(0, 0, 0))
      ensures logs == seq(handlers + 1, _ => []) && !cancelled
    {
      cfg := Config(workers, bufferSize, handlers);
      eventChan, buffer, stats, cancelled := [], [], Stats(0, 0, 0), false;
      logs := seq(handlers + 1, _ => []);
    }

    /** Never waits. With room in the queue and a cancelled context either may win. */
    method Submit(event: Event, preferCancel: bool) returns (r: Outcome)
      requires Valid()
      modifies this`eventChan
      ensures Valid()
      ensures View() == if r == Accepted then Submitted(old(View()), event) else old(View())
      ensures eventChan == old(eventChan) + if r == Accepted then [event] else []
      ensures r == Accepted <==> |old(eventChan)| < 200 * cfg.workers && !(cancelled && preferCancel)
      ensures r == Cancelled ==> cancelled
      ensures r == QueueFull ==> |eventChan| == 200 * cfg.workers && !cancelled
    {
      if |eventChan| < Capacity(cfg) && !(cancelled && preferCancel) {
        eventChan := eventChan + [event];
        return Accepted;
      }
      return if cancelled then Cancelled else QueueFull;
    }

    method UpdateStats(event: Event)
      modifies this`stats
      ensures View() == Counted(old(View()), event)
      ensures stats.total == old(stats.total) + 1
      ensures stats.success == old(stats.success) + if event.success then 1 else 0
      ensures stats.failed == old(stats.failed) + if event.success then 0 else 1
    {
      stats := Stats(
        stats.total + 1,
        if event.success then stats.success + 1 else stats.success,
        if event.success then stats.failed else stats.failed + 1);
    }

    /** With nobody interfering a processed event leaves the buffer below its size. */
    method ProcessEvent(event: Event)
      requires Valid()
      modifies this`buffer, this`stats, this`logs
      ensures Valid()
      ensures var c := Appended(old(View()), event);
        if MustFlush(cfg, c)
        then View() == Swapped(Counted(c, event)) && logs == GivenFrom(old(logs), 0, c.buffer)
        else View() == Counted(c, event) && logs == old(logs)
      ensures var full, batch := |old(buffer)| + 1 >= cfg.bufferSize, old(buffer) + [event];
        && buffer == (if full then [] else batch)
        && forall h :: 0 <= h < |logs| ==> logs[h] == old(logs)[h] + if full then batch else []
      ensures stats.total == old(stats.total) + 1
      ensures stats.success == old(stats.success) + if event.success then 1 else 0
      ensures |buffer| <= if cfg.bufferSize == 0 then 0 else cfg.bufferSize - 1
    {
      buffer := buffer + [event];
      var shouldFlush := |buffer| >= cfg.bufferSize;
      UpdateStats(event);
      if shouldFlush {
        Flush();
      }
    }

    method Flush()
      requires Valid()
      modifies this`buffer, this`logs
      ensures Valid() && View() == Swapped(old(View()))
      ensures logs == GivenFrom(old(logs), 0, old(buffer))
      ensures buffer == [] && forall h :: 0 <= h < |logs| ==> logs[h] == old(logs)[h] + old(buffer)
    {
      if |buffer| == 0 {
        assert forall h :: 0 <= h < |logs| ==> GivenFrom(logs, 0, [])[h] == logs[h];
        return;
      }
      var events := buffer;
      buffer := [];
      HandleEvents(events);
    }

    /** One call for each handler, whatever the earlier ones answered, then the end of the flush. */
    method HandleEvents(events: seq<Event>)
      requires Valid()
      modifies this`logs
      ensures Valid() && logs == GivenFrom(old(logs), 0, events)
      ensures forall h :: 0 <= h < |logs| ==> logs[h] == old(logs)[h] + events
    {
      for h := 0 to cfg.handlers
        invariant Valid()
        invariant GivenFrom(logs, h, events) == GivenFrom(old(logs), 0, events)
      {
        assert GivenFrom(Given(logs, h, events), h + 1, events) == GivenFrom(logs, h, events);
        logs := Given(logs, h, events);
      }
      assert Given(logs, cfg.handlers, events) == GivenFrom(logs, cfg.handlers, events);
      logs := Given(logs, cfg.handlers, events);
    }
  }
}

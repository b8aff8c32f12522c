/** The pings of one router in flight (manager/router_scheduler.go, task/async_executor.go):
    the workers of the interval queues that start them, a semaphore, connections taken from
    the pool, a bounded task queue and its workers. Pings and workers are their index. */
module TaskPipeline {
  import opened Totals
  import opened Options

  datatype Config = Config(slots: nat, workers: nat, queues: nat)

  datatype Phase =
    | Wanting             // before the semaphore
    | HasSlot             // before the look at the router's context
    | Getting             // before the pool answers
    | Returning           // gave up, before giving the slot back
    | Submitting          // has a connection
    | Refused             // the executor refused, before releasing the connection
    | RefusedFreed        // then before giving the slot back
    | Queued
    | Running(w: nat)     // executed by worker w
    | Answered(w: nat)    // callback, before releasing the connection
    | Freed(w: nat)       // callback, before giving the slot back
    | Reporting(w: nat)   // callback, before handing the result to the aggregator
    | Finished

  /** The counters record what the ping has taken and given back so far. */
  datatype Ping = Ping(
    phase: Phase, connsGot: nat, connsFreed: nat, slotsGot: nat, slotsFreed: nat, source: nat)

  datatype Worker = Idle | Busy(p: nat) | Gone

  /** Where the worker of an interval queue stands: it goes through a list, with so many
      lines left and one ping at a time. */
  datatype Place = Listening | Working(left: nat, current: Option<nat>) | Left

  /** The worker of an interval queue, the execution signals waiting for it, and whether the
      queue's ticker still runs. */
  datatype Source = Source(place: Place, signals: nat, ticking: bool)

  const MAX_SIGNALS := 200

  /** `cancelled` is the router's context, `stopping` the scheduler's stop signal; `stopped`,
      `refusing` and `closed` are the executor's stop signal, context and task channel. */
  datatype State = State(
    pings: seq<Ping>, held: nat, queue: seq<nat>, workers: seq<Worker>, sources: seq<Source>,
    cancelled: bool, stopping: bool, stopped: bool, refusing: bool, closed: bool, crashed: bool)

  /** One step of one ping. */
  datatype Op =
    | AcquireSlot
    | GiveUp
    | CheckContext
    | Get(ok: bool)
    | Enqueue
    | Refuse
    | SendOnClosed
    | Execute(success: bool)
    | FreeConn
    | FreeSlot
    | Report(panicked: bool)

  /** What happens at one interval queue and its worker. */
  datatype Duty =
    | Tick
    | Silence                           // the queue has been stopped
    | Notified(lines: nat)
    | New
    | EndList
    | LeaveQueue

  datatype Action =
    | Step(p: nat, op: Op)
    | Serve(k: nat, duty: Duty)
    | CancelRouter
    | SignalStop
    | StopExecutor
    | CancelExecutor
    | CloseQueue
    | TakeTask(w: nat)
    | LeaveWorker(w: nat)

  function Capacity(cfg: Config): nat {
    cfg.workers * 10
  }

  /** The phase from which a ping does this. */
  predicate At(ph: Phase, op: Op) {
    match op
    case AcquireSlot | GiveUp => ph.Wanting?
    case CheckContext => ph.HasSlot?
    case Get(_) => ph.Getting?
    case Enqueue | Refuse | SendOnClosed => ph.Submitting?
    case Execute(_) => ph.Running?
    case FreeConn => ph.Refused? || ph.Answered?
    case FreeSlot => ph.Returning? || ph.RefusedFreed? || ph.Freed?
    case Report(_) => ph.Reporting?
  }

  /** What channels and contexts allow. The receive from the semaphore waits when nothing is
      in it; the submission takes its default branch only when nothing else is ready. */
  predicate Allowed(cfg: Config, s: State, op: Op) {
    match op
    case AcquireSlot => s.held < cfg.slots
    case GiveUp => s.cancelled
    case Enqueue => !s.closed && |s.queue| < Capacity(cfg)
    case Refuse => s.refusing || |s.queue| >= Capacity(cfg)
    case SendOnClosed => s.closed
    case FreeSlot => s.held > 0
    case _ => true
  }

  /** The part of a ping that the queue's worker does itself. */
  predicate Unsubmitted(ph: Phase) {
    match ph
    case Wanting | HasSlot | Getting | Returning | Submitting | Refused | RefusedFreed => true
    case _ => false
  }

  /** The worker goes through a list and has no ping in hand. */
  predicate Between(s: State, k: nat) {
    && k < |s.sources| && s.sources[k].place.Working?
    && var current := s.sources[k].place.current;
       current == None || (current.value < |s.pings| && !Unsubmitted(s.pings[current.value].phase))
  }

  predicate Listens(s: State, k: nat) {
    k < |s.sources| && s.sources[k].place.Listening?
  }

  predicate Serves(s: State, k: nat, duty: Duty)
    requires k < |s.sources|
  {
    match duty
    case Tick => s.sources[k].ticking
    case Silence => true
    case Notified(_) => Listens(s, k) && s.sources[k].signals > 0
    case New => Between(s, k) && s.sources[k].place.left > 0
    case EndList => Between(s, k) && s.sources[k].place.left == 0
    case LeaveQueue => Listens(s, k) && s.stopping
  }

  predicate Enabled(cfg: Config, s: State, a: Action) {
    && !s.crashed
    && match a
       case Step(p, op) =>
         && p < |s.pings| && At(s.pings[p].phase, op) && Allowed(cfg, s, op)
         && (op.Report? ==> s.pings[p].phase.w < |s.workers|)
       case Serve(k, duty) => k < |s.sources| && Serves(s, k, duty)
       case CancelRouter => true
       case SignalStop => true
       case StopExecutor => s.stopping && !s.stopped
       case CancelExecutor => s.stopped
       case CloseQueue => s.refusing && !s.closed && forall w :: 0 <= w < |s.workers| ==> s.workers[w].Gone?
       case TakeTask(w) => w < |s.workers| && s.workers[w].Idle? && s.queue != [] && s.queue[0] < |s.pings|
       case LeaveWorker(w) => w < |s.workers| && s.workers[w].Idle? && s.stopped
  }

  function WithoutConn(ph: Phase): Phase {
    match ph
    case Answered(w) => Freed(w)
    case _ => RefusedFreed
  }

  function WithoutSlot(ph: Phase): Phase {
    match ph
    case Freed(w) => Reporting(w)
    case _ => Finished
  }

  function Moved(x: Ping, op: Op, cancelled: bool): Ping
    requires At(x.phase, op)
  {
    match op
    case AcquireSlot => x.(phase := HasSlot, slotsGot := x.slotsGot + 1)
    case GiveUp => x.(phase := Finished)
    case CheckContext => x.(phase := if cancelled then Returning else Getting)
    case Get(ok) => if ok then x.(phase := Submitting, connsGot := x.connsGot + 1) else x.(phase := Returning)
    case Enqueue => x.(phase := Queued)
    case Refuse => x.(phase := Refused)
    case SendOnClosed => x
    case Execute(_) => x.(phase := Answered(x.phase.w))
    case FreeConn => x.(phase := WithoutConn(x.phase), connsFreed := x.connsFreed + 1)
    case FreeSlot => x.(phase := WithoutSlot(x.phase), slotsFreed := x.slotsFreed + 1)
    case Report(_) => x.(phase := Finished)
  }

  /** What a step of ping p changes outside it. */
  function Shared(s: State, p: nat, op: Op): State
    requires p < |s.pings| && At(s.pings[p].phase, op) && (op.Report? ==> s.pings[p].phase.w < |s.workers|)
    requires op.FreeSlot? ==> s.held > 0
  {
    s.(held := if op.AcquireSlot? then s.held + 1 else if op.FreeSlot? then s.held - 1 else s.held,
       queue := if op.Enqueue? then s.queue + [p] else s.queue,
       workers := if op.Report? then s.workers[s.pings[p].phase.w := Idle] else s.workers,
       crashed := s.crashed || op.SendOnClosed?)
  }

  function Served(s: State, k: nat, duty: Duty): Source
    requires k < |s.sources| && Serves(s, k, duty)
  {
    var x := s.sources[k];
    match duty
    case Tick => x.(signals := if x.signals < MAX_SIGNALS then x.signals + 1 else x.signals)
    case Silence => x.(ticking := false)
    case Notified(lines) => x.(place := Working(lines, None), signals := x.signals - 1)
    case New => x.(place := Working(x.place.left - 1, Some(|s.pings|)))
    case EndList => x.(place := Listening)
    case LeaveQueue => x.(place := Left)
  }

  function Next(cfg: Config, s: State, a: Action): State
    requires Enabled(cfg, s, a)
  {
    match a
    case Step(p, op) => Shared(s, p, op).(pings := s.pings[p := Moved(s.pings[p], op, s.cancelled)])
    case Serve(k, duty) =>
      s.(sources := s.sources[k := Served(s, k, duty)],
         pings := if duty.New? then s.pings + [Ping(Wanting, 0, 0, 0, 0, k)] else s.pings)
    case CancelRouter => s.(cancelled := true)
    case SignalStop => s.(stopping := true)
    case StopExecutor => s.(stopped := true)
    case CancelExecutor => s.(refusing := true)
    case CloseQueue => s.(closed := true)
    case TakeTask(w) =>
      var p := s.queue[0];
      s.(queue := s.queue[1..], workers := s.workers[w := Busy(p)],
         pings := s.pings[p := s.pings[p].(phase := Running(w))])
    case LeaveWorker(w) => s.(workers := s.workers[w := Gone])
  }

  function Initial(cfg: Config): State {
    State([], 0, [], seq(cfg.workers, _ => Idle), seq(cfg.queues, _ => Source(Listening, 0, true)),
          false, false, false, false, false, false)
  }

  predicate Run(cfg: Config, states: seq<State>, acts: seq<Action>) {
    && |states| == |acts| + 1
    && forall i :: 0 <= i < |acts| ==>
      Enabled(cfg, states[i], acts[i]) && states[i + 1] == Next(cfg, states[i], acts[i])
  }

  predicate Behaviour(cfg: Config, states: seq<State>, acts: seq<Action>) {
    Run(cfg, states, acts) && states[0] == Initial(cfg)
  }

  // ---------------------------------------------------------------- what each ping holds

  function SlotHeld(x: Ping): nat {
    match x.phase
    case Wanting | Reporting(_) | Finished => 0
    case _ => 1
  }

  function ConnHeld(x: Ping): nat {
    match x.phase
    case Submitting | Refused | Queued | Running(_) | Answered(_) => 1
    case _ => 0
  }

  predicate WithWorker(ph: Phase) {
    ph.Running? || ph.Answered? || ph.Freed? || ph.Reporting?
  }

  function InQueue(x: Ping): nat {
    if x.phase.Queued? then 1 else 0
  }

  /** Nothing is given back twice or before it was taken, and what was taken and not given
      back is what the phase says. */
  predicate ConnsBalanced(x: Ping) {
    && (if ConnHeld(x) == 1 then x.connsGot == 1 && x.connsFreed == 0 else x.connsGot == x.connsFreed <= 1)
    && (x.phase.Wanting? || x.phase.HasSlot? || x.phase.Getting? ==> x.connsGot == 0)
  }

  predicate SlotsBalanced(x: Ping) {
    && (if SlotHeld(x) == 1 then x.slotsGot == 1 && x.slotsFreed == 0 else x.slotsGot == x.slotsFreed <= 1)
    && (x.phase.Wanting? ==> x.slotsGot == 0)
  }

  ghost predicate AllBalanced(s: State) {
    forall p :: 0 <= p < |s.pings| ==> ConnsBalanced(s.pings[p]) && SlotsBalanced(s.pings[p])
  }

  ghost predicate Counted(cfg: Config, s: State) {
    && s.held == Total(s.pings, SlotHeld) <= cfg.slots
    && |s.queue| == Total(s.pings, InQueue) <= Capacity(cfg)
  }

  /** The queue holds queued pings, each once. */
  ghost predicate QueueOk(s: State) {
    && (forall i :: 0 <= i < |s.queue| ==> s.queue[i] < |s.pings| && s.pings[s.queue[i]].phase.Queued?)
    && (forall i, j :: 0 <= i < j < |s.queue| ==> s.queue[i] != s.queue[j])
  }

  /** A worker is busy with the ping that says so, and conversely. */
  ghost predicate Linked(pings: seq<Ping>, workers: seq<Worker>) {
    && (forall p :: 0 <= p < |pings| && WithWorker(pings[p].phase) ==>
          pings[p].phase.w < |workers| && workers[pings[p].phase.w] == Busy(p))
    && (forall w :: 0 <= w < |workers| && workers[w].Busy? ==>
          workers[w].p < |pings| && WithWorker(pings[workers[w].p].phase) && pings[workers[w].p].phase.w == w)
  }

  ghost predicate WorkersOk(s: State) {
    Linked(s.pings, s.workers)
  }

  ghost predicate StopOk(cfg: Config, s: State) {
    && |s.workers| == cfg.workers
    && (forall w :: 0 <= w < |s.workers| && s.workers[w].Gone? ==> s.stopped)
    && (s.refusing ==> s.stopped)
    && (s.closed ==> s.stopped && forall w :: 0 <= w < |s.workers| ==> s.workers[w].Gone?)
    && (s.crashed ==> s.closed)
  }

  predicate InHand(x: Source, p: nat) {
    x.place.Working? && x.place.current == Some(p)
  }

  /** A ping that is not submitted yet is the one its queue's worker has in hand. */
  ghost predicate SourcesOk(cfg: Config, pings: seq<Ping>, sources: seq<Source>) {
    && |sources| == cfg.queues
    && (forall p :: 0 <= p < |pings| && Unsubmitted(pings[p].phase) ==>
          pings[p].source < |sources| && InHand(sources[pings[p].source], p))
    && (forall k :: 0 <= k < |sources| && sources[k].place.Working? && sources[k].place.current.Some? ==>
          sources[k].place.current.value < |pings|)
  }

  ghost predicate Inv(cfg: Config, s: State) {
    AllBalanced(s) && Counted(cfg, s) && QueueOk(s) && WorkersOk(s) && StopOk(cfg, s)
    && SourcesOk(cfg, s.pings, s.sources)
  }

  lemma MovedConns(x: Ping, op: Op, cancelled: bool)
    requires ConnsBalanced(x) && At(x.phase, op)
    ensures ConnsBalanced(Moved(x, op, cancelled))
  {
  }

  lemma MovedSlots(x: Ping, op: Op, cancelled: bool)
    requires SlotsBalanced(x) && At(x.phase, op)
    ensures SlotsBalanced(Moved(x, op, cancelled))
  {
  }

  lemma BalancedStep(cfg: Config, s: State, a: Action)
    requires AllBalanced(s) && QueueOk(s) && Enabled(cfg, s, a)
    ensures AllBalanced(Next(cfg, s, a))
  {
    if a.Step? {
      MovedConns(s.pings[a.p], a.op, s.cancelled);
      MovedSlots(s.pings[a.p], a.op, s.cancelled);
      hide ConnsBalanced, SlotsBalanced, Moved, At, Allowed, Shared;
    }
  }

  /** How a step changes the number of slots held and of queued pings. */
  function SlotChange(op: Op): int {
    match op
    case AcquireSlot => 1
    case FreeSlot => -1
    case _ => 0
  }

  lemma MovedSlotCount(x: Ping, op: Op, cancelled: bool)
    requires At(x.phase, op)
    ensures SlotHeld(Moved(x, op, cancelled)) == SlotHeld(x) + SlotChange(op)
  {
  }

  lemma MovedQueueCount(x: Ping, op: Op, cancelled: bool)
    requires At(x.phase, op)
    ensures InQueue(Moved(x, op, cancelled)) == InQueue(x) + if op.Enqueue? then 1 else 0
  {
  }

  lemma CountedStep(cfg: Config, s: State, a: Action)
    requires Counted(cfg, s) && QueueOk(s) && Enabled(cfg, s, a)
    ensures Counted(cfg, Next(cfg, s, a))
  {
    hide Total;
    var s' := Next(cfg, s, a);
    if a.Step? {
      MovedSlotCount(s.pings[a.p], a.op, s.cancelled);
      MovedQueueCount(s.pings[a.p], a.op, s.cancelled);
      assert (a.op.AcquireSlot? ==> s.held < cfg.slots) && (a.op.Enqueue? ==> |s.queue| < Capacity(cfg));
      TotalUpdate(s.pings, a.p, s'.pings[a.p], SlotHeld);
      TotalUpdate(s.pings, a.p, s'.pings[a.p], InQueue);
      hide Moved, At, Allowed, Shared, SlotHeld, InQueue;
    } else if a.TakeTask? {
      TotalUpdate(s.pings, s.queue[0], s'.pings[s.queue[0]], SlotHeld);
      TotalUpdate(s.pings, s.queue[0], s'.pings[s.queue[0]], InQueue);
    } else if Arrives(a) {
      TotalNew(s.pings, s'.pings[|s.pings|], SlotHeld);
      TotalNew(s.pings, s'.pings[|s.pings|], InQueue);
    }
  }

  /** Steps that neither queue a ping nor free a worker. */
  lemma MovedQuiet(x: Ping, op: Op, cancelled: bool)
    requires At(x.phase, op) && !op.Enqueue? && !op.Report?
    ensures var y := Moved(x, op, cancelled);
      && y.phase.Queued? == x.phase.Queued? && WithWorker(y.phase) == WithWorker(x.phase)
      && (WithWorker(x.phase) ==> y.phase.w == x.phase.w)
  {
  }

  lemma QueueKept(s: State, p: nat, y: Ping, queue: seq<nat>)
    requires QueueOk(s) && p < |s.pings|
    requires
      || (queue == s.queue && y.phase.Queued? == s.pings[p].phase.Queued?)
      || (queue == s.queue + [p] && y.phase.Queued? && !s.pings[p].phase.Queued?)
    ensures QueueOk(s.(pings := s.pings[p := y], queue := queue))
  {
  }

  lemma PingKeepsQueue(cfg: Config, s: State, p: nat, op: Op)
    requires QueueOk(s) && Enabled(cfg, s, Step(p, op))
    ensures QueueOk(Next(cfg, s, Step(p, op)))
  {
    var s', x, y := Next(cfg, s, Step(p, op)), s.pings[p], Moved(s.pings[p], op, s.cancelled);
    if !op.Enqueue? && !op.Report? { MovedQuiet(x, op, s.cancelled); }
    assert s'.pings == s.pings[p := y];
    assert if op.Enqueue? then s'.queue == s.queue + [p] else s'.queue == s.queue;
    QueueKept(s, p, y, s'.queue);
    assert QueueOk(s.(pings := s.pings[p := y], queue := s'.queue));
    hide Moved, At, Allowed, WithWorker, Next, Shared, Enabled;
  }

  lemma QueueStep(cfg: Config, s: State, a: Action)
    requires QueueOk(s) && Enabled(cfg, s, a)
    ensures QueueOk(Next(cfg, s, a))
  {
    if a.Step? {
      hide QueueOk, Next, Enabled;
      PingKeepsQueue(cfg, s, a.p, a.op);
    }
  }

  lemma LinksKept(pings: seq<Ping>, workers: seq<Worker>, p: nat, y: Ping)
    requires Linked(pings, workers) && p < |pings| && WithWorker(y.phase) == WithWorker(pings[p].phase)
    requires WithWorker(y.phase) ==> y.phase.w == pings[p].phase.w
    ensures Linked(pings[p := y], workers)
  {
    hide WithWorker;
  }

  lemma LinkMade(pings: seq<Ping>, workers: seq<Worker>, p: nat, w: nat, y: Ping)
    requires Linked(pings, workers) && p < |pings| && w < |workers| && workers[w].Idle?
    requires !WithWorker(pings[p].phase) && WithWorker(y.phase) && y.phase.w == w
    ensures Linked(pings[p := y], workers[w := Busy(p)])
  {
  }

  lemma LinkCut(pings: seq<Ping>, workers: seq<Worker>, p: nat, y: Ping)
    requires Linked(pings, workers) && p < |pings| && WithWorker(pings[p].phase) && !WithWorker(y.phase)
    requires pings[p].phase.w < |workers|
    ensures Linked(pings[p := y], workers[pings[p].phase.w := Idle])
  {
  }

  lemma PingKeepsWorkers(cfg: Config, s: State, p: nat, op: Op)
    requires WorkersOk(s) && Enabled(cfg, s, Step(p, op))
    ensures WorkersOk(Next(cfg, s, Step(p, op)))
  {
    var x, y, workers := s.pings[p], Moved(s.pings[p], op, s.cancelled), Shared(s, p, op).workers;
    if op.Report? {
      LinkCut(s.pings, s.workers, p, y);
    } else {
      assert workers == s.workers;
      if op.Enqueue? {
        assert !WithWorker(x.phase) && !WithWorker(y.phase);
      } else {
        MovedQuiet(x, op, s.cancelled);
      }
      hide WithWorker, Moved, At, Allowed, Shared;
      LinksKept(s.pings, s.workers, p, y);
    }
  }

  lemma WorkersStep(cfg: Config, s: State, a: Action)
    requires QueueOk(s) && WorkersOk(s) && Enabled(cfg, s, a)
    ensures WorkersOk(Next(cfg, s, a))
  {
    if a.Step? {
      hide Linked, Next, Enabled;
      PingKeepsWorkers(cfg, s, a.p, a.op);
    } else if a.TakeTask? {
      var p := s.queue[0];
      assert s.pings[p].phase.Queued?;
      hide QueueOk, Serves, Served;
      LinkMade(s.pings, s.workers, p, a.w, s.pings[p].(phase := Running(a.w)));
      hide Linked, WithWorker;
    } else {
      hide WithWorker, QueueOk, Serves, Served;
    }
  }

  lemma StopStep(cfg: Config, s: State, a: Action)
    requires StopOk(cfg, s) && WorkersOk(s) && Enabled(cfg, s, a)
    ensures StopOk(cfg, Next(cfg, s, a))
  {
    if a.Step? {
      if a.op.Report? {
        assert s.workers[s.pings[a.p].phase.w] == Busy(a.p);
      } else {
        assert Shared(s, a.p, a.op).workers == s.workers;
      }
      hide WorkersOk, WithWorker, Moved, At;
    } else {
      hide WorkersOk, Serves, Served;
    }
  }

  lemma MovedOn(x: Ping, op: Op, cancelled: bool)
    requires At(x.phase, op)
    ensures var y := Moved(x, op, cancelled);
      y.source == x.source && (Unsubmitted(y.phase) ==> Unsubmitted(x.phase))
  {
  }

  lemma PingKeepsSources(cfg: Config, pings: seq<Ping>, sources: seq<Source>, p: nat, y: Ping)
    requires SourcesOk(cfg, pings, sources) && p < |pings| && y.source == pings[p].source
    requires Unsubmitted(y.phase) ==> Unsubmitted(pings[p].phase)
    ensures SourcesOk(cfg, pings[p := y], sources)
  {
    hide Unsubmitted;
  }

  /** The worker keeps its ping, or has none that is not submitted. */
  lemma SourceMoves(cfg: Config, s: State, k: nat, x: Source)
    requires SourcesOk(cfg, s.pings, s.sources) && k < |s.sources|
    requires x.place == s.sources[k].place || Between(s, k) || Listens(s, k)
    requires x.place.Working? && x.place.current.Some? ==> x.place == s.sources[k].place
    ensures SourcesOk(cfg, s.pings, s.sources[k := x])
  {
    forall p | 0 <= p < |s.pings| && Unsubmitted(s.pings[p].phase)
      ensures InHand(s.sources[k := x][s.pings[p].source], p)
    {
      assert InHand(s.sources[s.pings[p].source], p);
    }
    hide Unsubmitted;
  }

  lemma NewPingInHand(cfg: Config, s: State, k: nat)
    requires SourcesOk(cfg, s.pings, s.sources) && Enabled(cfg, s, Serve(k, New))
    ensures SourcesOk(cfg, Next(cfg, s, Serve(k, New)).pings, Next(cfg, s, Serve(k, New)).sources)
  {
    forall p | 0 <= p < |s.pings| && Unsubmitted(s.pings[p].phase) ensures s.pings[p].source != k {
      assert InHand(s.sources[s.pings[p].source], p);
    }
    hide Unsubmitted;
  }

  lemma SourcesStep(cfg: Config, s: State, a: Action)
    requires SourcesOk(cfg, s.pings, s.sources) && QueueOk(s) && Enabled(cfg, s, a)
    ensures SourcesOk(cfg, Next(cfg, s, a).pings, Next(cfg, s, a).sources)
  {
    var s' := Next(cfg, s, a);
    match a
    case Step(p, op) =>
      MovedOn(s.pings[p], op, s.cancelled);
      assert Shared(s, p, op).sources == s.sources;
      PingKeepsSources(cfg, s.pings, s.sources, p, s'.pings[p]);
    case TakeTask(_) =>
      assert s.pings[s.queue[0]].phase.Queued?;
      PingKeepsSources(cfg, s.pings, s.sources, s.queue[0], s'.pings[s.queue[0]]);
    case Serve(k, duty) =>
      if duty.New? { NewPingInHand(cfg, s, k); } else { SourceMoves(cfg, s, k, s'.sources[k]); }
    case _ => hide SourcesOk, QueueOk;
  }

  lemma NextKeepsInv(cfg: Config, s: State, a: Action)
    requires Inv(cfg, s) && Enabled(cfg, s, a)
    ensures Inv(cfg, Next(cfg, s, a))
  {
    SourcesStep(cfg, s, a);
    BalancedStep(cfg, s, a);
    CountedStep(cfg, s, a);
    QueueStep(cfg, s, a);
    WorkersStep(cfg, s, a);
    StopStep(cfg, s, a);
    hide AllBalanced, Counted, QueueOk, WorkersOk, StopOk, SourcesOk, Next, Enabled;
  }

  lemma {:induction false} Reachable(cfg: Config, states: seq<State>, acts: seq<Action>, i: nat)
    requires Behaviour(cfg, states, acts) && i < |states|
    ensures Inv(cfg, states[i])
  {
    if i > 0 {
      hide Inv, Next, Enabled;
      Reachable(cfg, states, acts, i - 1);
      NextKeepsInv(cfg, states[i - 1], acts[i - 1]);
    }
  }

  // ---------------------------------------------------------------- guarantees

  lemma FinishedHoldsNothing(x: Ping)
    ensures x.phase.Finished? ==> ConnHeld(x) == 0 && SlotHeld(x) == 0
  {
  }

  lemma BalanceMeans(x: Ping)
    requires ConnsBalanced(x) && SlotsBalanced(x)
    ensures x.connsFreed <= x.connsGot <= 1 && x.slotsFreed <= x.slotsGot <= 1
    ensures x.phase.Finished? ==> x.connsFreed == x.connsGot && x.slotsFreed == x.slotsGot
    ensures ConnHeld(x) == 1 ==> x.connsFreed == 0 && x.connsGot == 1
    ensures SlotHeld(x) == 1 ==> x.slotsFreed == 0 && x.slotsGot == 1
  {
    hide ConnHeld, SlotHeld;
    FinishedHoldsNothing(x);
  }

  /** On every path a ping gives back its connection and its slot at most once, never before
      it took them, and by its end exactly as often as it took them. */
  lemma ReleasedExactlyOnce(cfg: Config, states: seq<State>, acts: seq<Action>, i: nat, p: nat)
    requires Behaviour(cfg, states, acts) && i < |states| && p < |states[i].pings|
    ensures var x := states[i].pings[p];
      && x.connsFreed <= x.connsGot <= 1 && x.slotsFreed <= x.slotsGot <= 1
      && (x.phase.Finished? ==> x.connsFreed == x.connsGot && x.slotsFreed == x.slotsGot)
      && (ConnHeld(x) == 1 ==> x.connsFreed == 0 && x.connsGot == 1)
      && (SlotHeld(x) == 1 ==> x.slotsFreed == 0 && x.slotsGot == 1)
  {
    hide Next, Enabled, Initial, ConnsBalanced, SlotsBalanced, ConnHeld, SlotHeld, WorkersOk, StopOk, QueueOk, Counted;
    Reachable(cfg, states, acts, i);
    BalanceMeans(states[i].pings[p]);
  }

  function Executing(x: Ping): nat {
    match x.phase
    case Running(_) | Answered(_) | Freed(_) => 1
    case _ => 0
  }

  lemma SlotsSuffice(xs: seq<Ping>)
    ensures Total(xs, InQueue) + Total(xs, Executing) <= Total(xs, SlotHeld)
    ensures Total(xs, ConnHeld) <= Total(xs, SlotHeld)
  {
    forall p | 0 <= p < |xs|
      ensures InQueue(xs[p]) + Executing(xs[p]) <= SlotHeld(xs[p]) && ConnHeld(xs[p]) <= SlotHeld(xs[p])
    {
      OneSlotSuffices(xs[p]);
    }
    hide InQueue, Executing, SlotHeld, ConnHeld;
    TotalSum(xs, InQueue, Executing, SlotHeld);
    TotalSum(xs, ConnHeld, (x: Ping) => 0, SlotHeld);
  }

  lemma OneSlotSuffices(x: Ping)
    ensures InQueue(x) + Executing(x) <= SlotHeld(x) && ConnHeld(x) <= SlotHeld(x)
    ensures At(x.phase, FreeSlot) ==> SlotHeld(x) == 1
  {
  }

  /** The slots taken are those of the pings in progress, giving one back never waits, and
      neither connections nor queued and executing tasks ever exceed the slots. */
  lemma SlotsAreExact(cfg: Config, states: seq<State>, acts: seq<Action>, i: nat)
    requires Behaviour(cfg, states, acts) && i < |states|
    ensures var s := states[i];
      && s.held == Total(s.pings, SlotHeld) <= cfg.slots
      && Total(s.pings, ConnHeld) <= s.held
      && |s.queue| + Total(s.pings, Executing) <= s.held
      && forall p :: 0 <= p < |s.pings| && At(s.pings[p].phase, FreeSlot) ==> Allowed(cfg, s, FreeSlot)
  {
    hide Next, Enabled, InQueue, Executing, SlotHeld, ConnHeld, Total, At, Initial;
    hide AllBalanced, QueueOk, WorkersOk, StopOk;
    var s := states[i];
    Reachable(cfg, states, acts, i);
    SlotsSuffice(s.pings);
    forall p | 0 <= p < |s.pings| && At(s.pings[p].phase, FreeSlot) ensures s.held > 0 {
      OneSlotSuffices(s.pings[p]);
      TotalIncludes(s.pings, p, SlotHeld);
    }
  }

  /** A submission finds the queue full. */
  ghost predicate FullForSomeone(cfg: Config, s: State) {
    exists p :: 0 <= p < |s.pings| && s.pings[p].phase.Submitting? && |s.queue| >= Capacity(cfg)
  }

  /** Some run leads from s to s'. */
  ghost predicate Leads(cfg: Config, s: State, s': State) {
    exists states, acts :: Run(cfg, states, acts) && states[0] == s && states[|states| - 1] == s'
  }

  ghost predicate Reaches(cfg: Config, s: State) {
    Leads(cfg, Initial(cfg), s)
  }

  lemma RoomForEveryone(cfg: Config, s: State)
    requires Inv(cfg, s) && FullForSomeone(cfg, s)
    ensures cfg.slots > Capacity(cfg) && cfg.queues > 0
  {
    var p :| 0 <= p < |s.pings| && s.pings[p].phase.Submitting? && |s.queue| >= Capacity(cfg);
    var submitting := (x: Ping) => if x.phase.Submitting? then 1 else 0;
    TotalIncludes(s.pings, p, submitting);
    TotalSum(s.pings, InQueue, submitting, SlotHeld);
    assert Unsubmitted(s.pings[p].phase);
  }

  lemma Stay(cfg: Config, s: State)
    ensures Leads(cfg, s, s)
  {
    assert Run(cfg, [s], []);
  }

  lemma Then(cfg: Config, start: State, s: State, a: Action) returns (s': State)
    requires Leads(cfg, start, s) && Enabled(cfg, s, a)
    ensures s' == Next(cfg, s, a) && Leads(cfg, start, s')
  {
    hide Next, Enabled;
    var states, acts :| Run(cfg, states, acts) && states[0] == start && states[|states| - 1] == s;
    s' := Next(cfg, s, a);
    assert Run(cfg, states + [s'], acts + [a]);
  }

  /** A worker that listens hears a signal and begins a list. */
  lemma Begin(cfg: Config, start: State, s: State, k: nat, lines: nat) returns (s': State)
    requires Leads(cfg, start, s) && !s.crashed && Listens(s, k)
    requires s.sources[k].ticking || s.sources[k].signals > 0
    ensures Leads(cfg, start, s') && |s'.sources| == |s.sources|
    ensures s' == s.(sources := s'.sources) && s'.sources[k].place == Working(lines, None)
  {
    hide Leads;
    s' := s;
    if s.sources[k].signals == 0 { s' := Then(cfg, start, s, Serve(k, Tick)); }
    s' := Then(cfg, start, s', Serve(k, Notified(lines)));
  }

  /** The next ping of the list gets a slot and a connection. */
  lemma Arrive(cfg: Config, start: State, s: State, k: nat) returns (s': State)
    requires Leads(cfg, start, s) && !s.crashed && !s.cancelled && s.held < cfg.slots
    requires Between(s, k) && s.sources[k].place.left > 0
    ensures Leads(cfg, start, s') && s'.pings == s.pings + [Ping(Submitting, 1, 0, 1, 0, k)]
    ensures |s'.sources| == |s.sources| && s' == s.(pings := s'.pings, held := s.held + 1, sources := s'.sources)
    ensures s'.sources[k].place == Working(s.sources[k].place.left - 1, Some(|s.pings|))
  {
    hide Leads, Capacity;
    var p := |s.pings|;
    var s1 := Then(cfg, start, s, Serve(k, New));
    var s2 := Then(cfg, start, s1, Step(p, AcquireSlot));
    var s3 := Then(cfg, start, s2, Step(p, CheckContext));
    s' := Then(cfg, start, s3, Step(p, Get(true)));
    assert s'.pings == s.pings + [Ping(Submitting, 1, 0, 1, 0, k)];
  }

  /** n pings are queued, no worker has moved, and the first list has some lines left. */
  lemma {:induction false} Pile(cfg: Config, n: nat, left: nat) returns (s: State)
    requires n <= cfg.slots && n <= Capacity(cfg) && cfg.queues > 0
    ensures Reaches(cfg, s) && |s.queue| == s.held == |s.pings| == n
    ensures !s.crashed && !s.cancelled && !s.closed
    ensures Between(s, 0) && s.sources[0].place.left == left
  {
    var start := Initial(cfg);
    hide Leads;
    if n == 0 {
      Stay(cfg, start);
      s := Begin(cfg, start, start, 0, left);
    } else {
      var s0 := Pile(cfg, n - 1, left + 1);
      var s1 := Arrive(cfg, start, s0, 0);
      s := Then(cfg, start, s1, Step(n - 1, Enqueue));
    }
  }

  /** Submit reports a full queue in some run if and only if the semaphore is larger than
      the task queue, and there is a queue of lines at all. */
  lemma QueueFullIff(cfg: Config)
    ensures (exists s :: Reaches(cfg, s) && FullForSomeone(cfg, s)) <==> cfg.slots > 10 * cfg.workers && cfg.queues > 0
  {
    if cfg.slots > Capacity(cfg) && cfg.queues > 0 {
      var s0 := Pile(cfg, Capacity(cfg), 1);
      var s := Arrive(cfg, Initial(cfg), s0, 0);
      assert s.pings[|s0.pings|].phase.Submitting?;
      assert FullForSomeone(cfg, s);
    }
    if s :| Reaches(cfg, s) && FullForSomeone(cfg, s) {
      var states, acts :| Run(cfg, states, acts) && states[0] == Initial(cfg) && states[|states| - 1] == s;
      Reachable(cfg, states, acts, |states| - 1);
      RoomForEveryone(cfg, s);
    }
  }

  /** Each queue's worker has at most one ping in hand: one that is not submitted yet. */
  lemma OneAtATime(cfg: Config, states: seq<State>, acts: seq<Action>, i: nat, p: nat, q: nat)
    requires Behaviour(cfg, states, acts) && i < |states| && p < |states[i].pings| && q < |states[i].pings|
    requires Unsubmitted(states[i].pings[p].phase) && Unsubmitted(states[i].pings[q].phase)
    ensures states[i].pings[p].source < cfg.queues
    ensures states[i].pings[p].source == states[i].pings[q].source ==> p == q
  {
    hide Next, Enabled, Initial, AllBalanced, Counted, QueueOk, WorkersOk, StopOk, Unsubmitted;
    Reachable(cfg, states, acts, i);
  }

  lemma {:induction false} SomeHolder(xs: seq<Ping>) returns (p: nat)
    requires Total(xs, SlotHeld) > 0
    ensures p < |xs| && SlotHeld(xs[p]) == 1
  {
    p := |xs| - 1;
    if SlotHeld(xs[p]) == 0 { p := SomeHolder(xs[..p]); }
  }

  /** What a ping in this phase does next. */
  function Moving(cfg: Config, s: State, ph: Phase): Op {
    match ph
    case Wanting => AcquireSlot
    case HasSlot => CheckContext
    case Getting => Get(true)
    case Returning | RefusedFreed | Freed(_) => FreeSlot
    case Submitting => if |s.queue| < Capacity(cfg) then Enqueue else Refuse
    case Refused | Answered(_) => FreeConn
    case Running(_) => Execute(true)
    case _ => Report(false)
  }

  lemma MovingFits(cfg: Config, s: State, ph: Phase)
    requires !ph.Queued? && !ph.Finished? && !s.closed
    requires ph.Wanting? ==> s.held < cfg.slots
    requires At(ph, FreeSlot) ==> s.held > 0
    ensures At(ph, Moving(cfg, s, ph)) && Allowed(cfg, s, Moving(cfg, s, ph))
    ensures Moving(cfg, s, ph).Report? ==> ph.Reporting?
  {
  }

  lemma PingCanMove(cfg: Config, s: State, p: nat)
    requires Counted(cfg, s) && WorkersOk(s) && StopOk(cfg, s) && !s.stopped && p < |s.pings|
    requires var ph := s.pings[p].phase; !ph.Queued? && !ph.Finished? && (ph.Wanting? ==> s.held < cfg.slots)
    ensures Enabled(cfg, s, Step(p, Moving(cfg, s, s.pings[p].phase)))
  {
    TotalIncludes(s.pings, p, SlotHeld);
    assert At(s.pings[p].phase, FreeSlot) ==> s.held > 0;
    MovingFits(cfg, s, s.pings[p].phase);
    hide At, Allowed, Moving, SlotHeld, InQueue;
  }

  /** Either a worker is idle and takes the head of the queue, or a busy one carries on. */
  lemma WorkerCanMove(cfg: Config, s: State, q: nat) returns (a: Action)
    requires Inv(cfg, s) && !s.stopped && cfg.workers > 0
    requires q < |s.pings| && s.pings[q].phase.Queued?
    ensures Enabled(cfg, s, a) && (a.Step? || a.TakeTask?)
  {
    hide AllBalanced, At, Allowed;
    TotalIncludes(s.pings, q, InQueue);
    var w := s.workers[0];
    if w.Idle? {
      a := TakeTask(0);
    } else {
      assert WithWorker(s.pings[w.p].phase);
      PingCanMove(cfg, s, w.p);
      a := Step(w.p, Moving(cfg, s, s.pings[w.p].phase));
    }
  }

  /** Among unfinished pings somebody can move, even when all slots are taken. */
  lemma SomebodyCanMove(cfg: Config, s: State, p: nat) returns (a: Action)
    requires Inv(cfg, s) && cfg.slots > 0 && cfg.workers > 0
    requires !s.stopped && p < |s.pings| && !s.pings[p].phase.Finished?
    ensures Enabled(cfg, s, a) && (a.Step? || a.TakeTask?)
  {
    hide AllBalanced, QueueOk, WorkersOk, StopOk, Enabled, Moving;
    var q := p;
    if s.pings[p].phase.Wanting? && s.held == cfg.slots {
      q := SomeHolder(s.pings);
    }
    assert !s.pings[q].phase.Finished? && (s.pings[q].phase.Wanting? ==> s.held < cfg.slots);
    hide SlotHeld, Counted;
    if s.pings[q].phase.Queued? {
      a := WorkerCanMove(cfg, s, q);
    } else {
      PingCanMove(cfg, s, q);
      a := Step(q, Moving(cfg, s, s.pings[q].phase));
    }
  }

  /** While the executor is not stopped, an unfinished ping means that some ping can move. */
  lemma NeverStuck(cfg: Config, states: seq<State>, acts: seq<Action>, i: nat, p: nat) returns (a: Action)
    requires Behaviour(cfg, states, acts) && i < |states| && cfg.slots > 0 && cfg.workers > 0
    requires !states[i].stopped && p < |states[i].pings| && !states[i].pings[p].phase.Finished?
    ensures Enabled(cfg, states[i], a) && (a.Step? || a.TakeTask?)
  {
    hide Next, Enabled, Initial, Inv;
    Reachable(cfg, states, acts, i);
    a := SomebodyCanMove(cfg, states[i], p);
  }

  function Weight(x: Ping): nat {
    match x.phase
    case Wanting => 12
    case HasSlot => 11
    case Getting => 10
    case Submitting => 9
    case Queued => 8
    case Running(_) => 7
    case Answered(_) => 6
    case Freed(_) => 5
    case Refused => 5
    case Reporting(_) => 4
    case RefusedFreed => 4
    case Returning => 4
    case Finished => 0
  }

  function Moves(acts: seq<Action>): nat {
    if acts == [] then 0
    else Moves(acts[..|acts| - 1]) + if acts[|acts| - 1].Step? || acts[|acts| - 1].TakeTask? then 1 else 0
  }

  /** A new ping begins. */
  predicate Arrives(a: Action) {
    a.Serve? && a.duty.New?
  }

  function Arrivals(acts: seq<Action>): nat {
    if acts == [] then 0 else Arrivals(acts[..|acts| - 1]) + if Arrives(acts[|acts| - 1]) then 1 else 0
  }

  function Work(s: State): nat {
    Total(s.pings, Weight) + if s.crashed then 0 else 1
  }

  lemma MovedWeight(x: Ping, op: Op, cancelled: bool)
    requires At(x.phase, op) && !op.SendOnClosed?
    ensures Weight(Moved(x, op, cancelled)) < Weight(x)
  {
  }

  lemma WorkStep(cfg: Config, s: State, a: Action)
    requires Enabled(cfg, s, a) && QueueOk(s)
    ensures Work(Next(cfg, s, a))
         <= Work(s) + (if Arrives(a) then 12 else 0) - (if a.Step? || a.TakeTask? then 1 else 0)
  {
    hide Total;
    var s' := Next(cfg, s, a);
    if a.Step? {
      if !a.op.SendOnClosed? { MovedWeight(s.pings[a.p], a.op, s.cancelled); }
      TotalUpdate(s.pings, a.p, s'.pings[a.p], Weight);
      hide Moved, Weight, At, Allowed;
    } else if a.TakeTask? {
      TotalUpdate(s.pings, s.queue[0], s'.pings[s.queue[0]], Weight);
    } else if Arrives(a) {
      TotalNew(s.pings, s'.pings[|s.pings|], Weight);
    }
  }

  /** Pings take at most twelve steps each, so together with NeverStuck every ping finishes. */
  lemma {:induction false} WorkIsBounded(cfg: Config, states: seq<State>, acts: seq<Action>)
    requires Behaviour(cfg, states, acts)
    ensures Moves(acts) + Work(states[|acts|]) <= 12 * Arrivals(acts) + 1
  {
    var n := |acts| - 1;
    if acts != [] {
      hide Next, Enabled, Work;
      assert Behaviour(cfg, states[..|acts|], acts[..n]);
      WorkIsBounded(cfg, states[..|acts|], acts[..n]);
      Reachable(cfg, states, acts, n);
      WorkStep(cfg, states[n], acts[n]);
    }
  }

  lemma NobodyWorks(cfg: Config, s: State)
    requires WorkersOk(s) && StopOk(cfg, s) && s.closed
    ensures forall p :: 0 <= p < |s.pings| ==> !WithWorker(s.pings[p].phase)
  {
  }

  lemma QueuedOrFinished(x: Ping)
    requires x.phase.Queued? || x.phase.Finished?
    ensures InQueue(x) == SlotHeld(x) == ConnHeld(x)
  {
  }

  /** After the executor's stop nobody works on a ping any more: those left in the queue keep
      their slot and connection, and no others do once the scheduler's side has finished. */
  lemma OnlyQueuedAreLeft(cfg: Config, states: seq<State>, acts: seq<Action>, i: nat)
    requires Behaviour(cfg, states, acts) && i < |states| && states[i].closed
    ensures forall p :: 0 <= p < |states[i].pings| ==> !WithWorker(states[i].pings[p].phase)
    ensures
      (forall p :: 0 <= p < |states[i].pings| ==>
         states[i].pings[p].phase.Queued? || states[i].pings[p].phase.Finished?)
      ==> states[i].held == |states[i].queue| == Total(states[i].pings, ConnHeld)
  {
    hide Next, Enabled, Initial, WithWorker, InQueue, SlotHeld, ConnHeld, Total;
    hide AllBalanced, QueueOk, WorkersOk, StopOk;
    var s := states[i];
    Reachable(cfg, states, acts, i);
    NobodyWorks(cfg, s);
    if forall p :: 0 <= p < |s.pings| ==> s.pings[p].phase.Queued? || s.pings[p].phase.Finished? {
      forall p | 0 <= p < |s.pings| ensures InQueue(s.pings[p]) == SlotHeld(s.pings[p]) == ConnHeld(s.pings[p]) {
        QueuedOrFinished(s.pings[p]);
      }
      TotalSame(s.pings, InQueue, SlotHeld);
      TotalSame(s.pings, InQueue, ConnHeld);
    }
  }

  lemma TotalSame(xs: seq<Ping>, f: Ping -> nat, g: Ping -> nat)
    requires forall p :: 0 <= p < |xs| ==> f(xs[p]) == g(xs[p])
    ensures Total(xs, f) == Total(xs, g)
  {
    TotalSum(xs, f, (x: Ping) => 0, g);
    TotalSum(xs, g, (x: Ping) => 0, f);
  }
}

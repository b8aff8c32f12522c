/** How lists, signals and the stop of a scheduler end (manager/router_scheduler.go,
    manager/interval_queue.go): every list is gone through in full, no signal is lost, and
    exactly when the stop waits for ever. */
module TaskEnds {
  import opened TaskPipeline
  import opened TaskStops
  import opened Options

  // ---------------------------------------------------------------- lists and signals

  /** Only what happens at a queue changes its worker, its signals and its ticker. */
  lemma SourceStep(cfg: Config, s: State, a: Action, k: nat)
    requires Enabled(cfg, s, a) && k < |s.sources|
    ensures k < |Next(cfg, s, a).sources|
    ensures a.Serve? && a.k == k ==> Serves(s, k, a.duty) && Next(cfg, s, a).sources[k] == Served(s, k, a.duty)
    ensures !(a.Serve? && a.k == k) ==> Next(cfg, s, a).sources[k] == s.sources[k]
  {
    hide Moved, At, Allowed, Served, Serves;
  }

  function NewOnes(acts: seq<Action>, i: nat, j: nat, k: nat): nat
    requires i <= j <= |acts|
  {
    if j == i then 0 else NewOnes(acts, i, j - 1, k) + if acts[j - 1] == Serve(k, New) then 1 else 0
  }

  predicate LeftToDo(s: State, k: nat, left: nat) {
    k < |s.sources| && s.sources[k].place.Working? && s.sources[k].place.left == left
  }

  lemma ListStep(cfg: Config, s: State, a: Action, k: nat, left: nat)
    requires Enabled(cfg, s, a) && LeftToDo(s, k, left) && a != Serve(k, EndList)
    ensures a == Serve(k, New) ==> left > 0
    ensures LeftToDo(Next(cfg, s, a), k, if a == Serve(k, New) then left - 1 else left)
  {
    SourceStep(cfg, s, a, k);
    hide Next, Enabled;
  }

  /** The worker of a queue goes through a list in full: it ends a list of n lines after
      exactly n pings, and until then it has the others still to do. */
  lemma {:induction false} ListsAreDoneInFull(
    cfg: Config, states: seq<State>, acts: seq<Action>, i: nat, j: nat, k: nat, lines: nat)
    requires Behaviour(cfg, states, acts) && i < j < |states| && acts[i] == Serve(k, Notified(lines))
    requires forall m :: i < m < j ==> acts[m] != Serve(k, EndList)
    ensures NewOnes(acts, i + 1, j, k) <= lines && LeftToDo(states[j], k, lines - NewOnes(acts, i + 1, j, k))
    ensures j < |acts| && acts[j] == Serve(k, EndList) ==> NewOnes(acts, i + 1, j, k) == lines
  {
    hide Next, Enabled, LeftToDo;
    if j == i + 1 {
      ListBegins(cfg, states[i], k, lines);
    } else {
      ListsAreDoneInFull(cfg, states, acts, i, j - 1, k, lines);
      ListStep(cfg, states[j - 1], acts[j - 1], k, lines - NewOnes(acts, i + 1, j - 1, k));
    }
    if j < |acts| && acts[j] == Serve(k, EndList) {
      EndMeansNoneLeft(cfg, states[j], k, lines - NewOnes(acts, i + 1, j, k));
    }
  }

  lemma ListBegins(cfg: Config, s: State, k: nat, lines: nat)
    requires Enabled(cfg, s, Serve(k, Notified(lines)))
    ensures LeftToDo(Next(cfg, s, Serve(k, Notified(lines))), k, lines)
  {
  }

  lemma EndMeansNoneLeft(cfg: Config, s: State, k: nat, left: nat)
    requires Enabled(cfg, s, Serve(k, EndList)) && LeftToDo(s, k, left)
    ensures left == 0
  {
  }

  /** The ticker finds room for a signal. */
  predicate Signals(s: State, a: Action, k: nat) {
    a == Serve(k, Tick) && k < |s.sources| && s.sources[k].signals < 200
  }

  function Sent(states: seq<State>, acts: seq<Action>, n: nat, k: nat): nat
    requires n <= |acts| <= |states|
  {
    if n == 0 then 0 else Sent(states, acts, n - 1, k) + if Signals(states[n - 1], acts[n - 1], k) then 1 else 0
  }

  function Heard(acts: seq<Action>, n: nat, k: nat): nat
    requires n <= |acts|
  {
    if n == 0 then 0
    else
      Heard(acts, n - 1, k)
        + if acts[n - 1].Serve? && acts[n - 1].k == k && acts[n - 1].duty.Notified? then 1 else 0
  }

  lemma SignalStep(cfg: Config, s: State, a: Action, k: nat)
    requires Enabled(cfg, s, a) && k < |s.sources| && s.sources[k].signals <= 200
    ensures k < |Next(cfg, s, a).sources| && Next(cfg, s, a).sources[k].signals <= 200
    ensures Next(cfg, s, a).sources[k].signals + (if a.Serve? && a.k == k && a.duty.Notified? then 1 else 0) ==
      s.sources[k].signals + if Signals(s, a, k) then 1 else 0
  {
    SourceStep(cfg, s, a, k);
    hide Next, Enabled;
  }

  /** Each signal is heard once: those sent and not heard yet are waiting, never more than 200. */
  lemma {:induction false} EverySignalIsHeardOnce(cfg: Config, states: seq<State>, acts: seq<Action>, i: nat, k: nat)
    requires Behaviour(cfg, states, acts) && i < |states| && k < cfg.queues
    ensures k < |states[i].sources| && states[i].sources[k].signals <= 200
    ensures Sent(states, acts, i, k) == Heard(acts, i, k) + states[i].sources[k].signals
  {
    if i > 0 {
      hide Next, Enabled;
      EverySignalIsHeardOnce(cfg, states, acts, i - 1, k);
      SignalStep(cfg, states[i - 1], acts[i - 1], k);
    }
  }

  // ---------------------------------------------------------------- the order of the stop

  predicate StopsInOrder(s: State) {
    && (s.closed ==> s.refusing) && (s.refusing ==> s.stopped) && (s.stopped ==> s.stopping)
    && (forall k :: 0 <= k < |s.sources| && s.sources[k].place.Left? ==> s.stopping)
  }

  lemma OrderStep(cfg: Config, s: State, a: Action)
    requires Enabled(cfg, s, a) && StopsInOrder(s)
    ensures StopsInOrder(Next(cfg, s, a))
    ensures Next(cfg, s, a).stopping ==> s.stopping || a == SignalStop
  {
    hide Moved, At, Allowed;
  }

  /** Workers of queues leave only after the scheduler's stop has been called, which comes
      before the executor's, which comes before its context is done and its channel closed. */
  lemma {:induction false} AlwaysInOrder(cfg: Config, states: seq<State>, acts: seq<Action>, i: nat)
    requires Behaviour(cfg, states, acts) && i < |states|
    ensures StopsInOrder(states[i])
    ensures states[i].stopping ==> exists j :: 0 <= j < i && acts[j] == SignalStop
  {
    if i > 0 {
      hide Next, Enabled, StopsInOrder;
      AlwaysInOrder(cfg, states, acts, i - 1);
      OrderStep(cfg, states[i - 1], acts[i - 1]);
    }
  }

  predicate Silent(s: State, k: nat) {
    k < |s.sources| && !s.sources[k].ticking
  }

  lemma SilentStep(cfg: Config, s: State, a: Action, k: nat)
    requires Enabled(cfg, s, a) && (Silent(s, k) || a == Serve(k, Silence))
    ensures Silent(Next(cfg, s, a), k)
    ensures Silent(s, k) ==> a != Serve(k, Tick)
  {
    assert k < |s.sources|;
    SourceStep(cfg, s, a, k);
    hide Next, Enabled;
  }

  /** A queue that has been stopped sends no signal any more. */
  lemma {:induction false} SilentForGood(
    cfg: Config, states: seq<State>, acts: seq<Action>, i: nat, j: nat, k: nat)
    requires Behaviour(cfg, states, acts) && i < j < |states| && acts[i] == Serve(k, Silence)
    ensures Silent(states[j], k) && (j < |acts| ==> acts[j] != Serve(k, Tick))
  {
    hide Next, Enabled, Silent;
    if j > i + 1 { SilentForGood(cfg, states, acts, i, j - 1, k); }
    SilentStep(cfg, states[j - 1], acts[j - 1], k);
    if j < |acts| { SilentStep(cfg, states[j], acts[j], k); }
  }

  // ---------------------------------------------------------------- a stop that returns

  predicate Away(x: Source) {
    x.place.Left? && !x.ticking
  }

  /** The workers of the queues below n have left and their tickers are silent. */
  lemma {:induction false} QueuesLeave(cfg: Config, n: nat) returns (s: State)
    requires n <= cfg.queues
    ensures Reaches(cfg, s) && s == Initial(cfg).(stopping := true, sources := s.sources)
    ensures |s.sources| == cfg.queues
    ensures forall k :: 0 <= k < cfg.queues ==>
      if k < n then Away(s.sources[k]) else s.sources[k] == Source(Listening, 0, true)
  {
    var start := Initial(cfg);
    hide Leads;
    if n == 0 {
      Stay(cfg, start);
      s := Then(cfg, start, start, SignalStop);
    } else {
      s := QueuesLeave(cfg, n - 1);
      s := Then(cfg, start, s, Serve(n - 1, LeaveQueue));
      s := Then(cfg, start, s, Serve(n - 1, Silence));
    }
  }

  lemma {:induction false} CrewLeaves(cfg: Config, s0: State, n: nat) returns (s: State)
    requires Reaches(cfg, s0) && !s0.crashed && s0.stopped && n <= |s0.workers|
    requires forall w :: 0 <= w < |s0.workers| ==> s0.workers[w].Idle?
    ensures Reaches(cfg, s) && s == s0.(workers := s.workers) && |s.workers| == |s0.workers|
    ensures forall w :: 0 <= w < |s.workers| ==> if w < n then s.workers[w].Gone? else s.workers[w].Idle?
  {
    hide Leads;
    if n == 0 {
      s := s0;
    } else {
      s := CrewLeaves(cfg, s0, n - 1);
      s := Then(cfg, Initial(cfg), s, LeaveWorker(n - 1));
    }
  }

  /** Whatever the configuration, a stop can return with everybody gone and nothing that could
      crash. */
  lemma StopCanReturn(cfg: Config) returns (s: State)
    ensures Reaches(cfg, s) && s.closed && !s.crashed && s.pings == [] && !CanCrash(cfg, s)
    ensures forall k :: 0 <= k < |s.sources| ==> Away(s.sources[k])
    ensures forall w :: 0 <= w < |s.workers| ==> s.workers[w].Gone?
  {
    var start := Initial(cfg);
    s := QueuesLeave(cfg, cfg.queues);
    hide Leads;
    s := Then(cfg, start, s, StopExecutor);
    s := Then(cfg, start, s, CancelExecutor);
    s := CrewLeaves(cfg, s, cfg.workers);
    s := Then(cfg, start, s, CloseQueue);
    SafeNow(cfg, s);
  }

  lemma SafeNow(cfg: Config, s: State)
    requires Reaches(cfg, s) && s.closed && !s.crashed && s.pings == []
    requires forall k :: 0 <= k < |s.sources| ==> Away(s.sources[k])
    ensures !CanCrash(cfg, s)
  {
    var states, acts :| Run(cfg, states, acts) && states[0] == Initial(cfg) && states[|states| - 1] == s;
    assert Dry(s) && ClosedSafely(cfg, s);
    hide ClosedSafely, Dry, CanCrash, Run;
    CrashAfterCloseIff(cfg, states, acts, |states| - 1);
  }

  // ---------------------------------------------------------------- a stop that waits for ever

  /** A ping waits at the semaphore. */
  predicate Waits(s: State, p: nat) {
    p < |s.pings| && s.pings[p].phase.Wanting?
  }

  /** As long as the router's context lives it waits for ever. */
  ghost predicate WaitsForEver(cfg: Config, s: State, p: nat) {
    forall s' :: Leads(cfg, s, s') && !s'.cancelled ==> Waits(s', p)
  }

  /** Every slot is held by a ping in the queue of an executor that is gone. */
  predicate Jammed(cfg: Config, s: State) {
    s.closed && |s.queue| == cfg.slots
  }

  lemma JammedStep(cfg: Config, s: State, a: Action, p: nat)
    requires Inv(cfg, s) && Enabled(cfg, s, a) && Jammed(cfg, s) && Waits(s, p)
    requires !s.cancelled && !Next(cfg, s, a).cancelled
    ensures Jammed(cfg, Next(cfg, s, a)) && Waits(Next(cfg, s, a), p)
  {
    SlotsOfOthers(s.pings);
    assert StopOk(cfg, s) && s.held == cfg.slots;
    hide Inv, AllBalanced, Counted, QueueOk, WorkersOk, SourcesOk;
  }

  lemma {:induction false} StaysJammed(cfg: Config, states: seq<State>, acts: seq<Action>, p: nat, i: nat)
    requires Run(cfg, states, acts) && i < |states| && Inv(cfg, states[0])
    requires Jammed(cfg, states[0]) && Waits(states[0], p) && !states[i].cancelled
    ensures Inv(cfg, states[i]) && Jammed(cfg, states[i]) && Waits(states[i], p)
  {
    if i > 0 {
      hide Inv, Next, Enabled, Jammed, Waits;
      assert Enabled(cfg, states[i - 1], acts[i - 1]) && states[i] == Next(cfg, states[i - 1], acts[i - 1]);
      hide Run;
      if states[i - 1].cancelled { NotCancelledBefore(cfg, states[i - 1], acts[i - 1]); }
      StaysJammed(cfg, states, acts, p, i - 1);
      NextKeepsInv(cfg, states[i - 1], acts[i - 1]);
      JammedStep(cfg, states[i - 1], acts[i - 1], p);
    }
  }

  lemma NotCancelledBefore(cfg: Config, s: State, a: Action)
    requires Enabled(cfg, s, a) && s.cancelled
    ensures Next(cfg, s, a).cancelled
  {
    hide Moved, At, Allowed;
  }

  /** With a free slot the ping gets it. */
  lemma GetsFreeSlot(cfg: Config, start: State, s: State, p: nat)
    requires Leads(cfg, start, s) && !s.crashed && !s.cancelled && Waits(s, p) && s.held < cfg.slots
    ensures !WaitsForEver(cfg, start, p)
  {
    hide Leads;
    var s' := Then(cfg, start, s, Step(p, AcquireSlot));
    assert !s'.cancelled && !Waits(s', p);
  }

  /** A ping on its way gives back its slot, without a connection. */
  lemma GivesUp(cfg: Config, start: State, s: State, q: nat) returns (s': State)
    requires Open(cfg, start, s) && q < |s.pings| && (s.pings[q].phase.HasSlot? || s.pings[q].phase.Getting?)
    ensures Open(cfg, start, s') && |s'.pings| == |s.pings| && s'.pings == s.pings[q := s'.pings[q]]
    ensures s'.pings[q].phase.Returning?
  {
    assert !s.crashed && !s.cancelled;
    hide Leads, Inv, Open;
    s' := s;
    if s.pings[q].phase.HasSlot? { s' := OpenStep(cfg, start, s, Step(q, CheckContext)); }
    s' := OpenStep(cfg, start, s', Step(q, Get(false)));
  }

  lemma SlotComesFree(cfg: Config, start: State, s: State, p: nat, q: nat)
    requires Open(cfg, start, s) && Waits(s, p) && q < |s.pings| && NotQueued(s.pings[q]) == 1 && s.refusing
    ensures !WaitsForEver(cfg, start, p)
  {
    NobodyWorks(cfg, s);
    HolderPhases(s.pings[q]);
    var s1 := s;
    hide Leads, Inv, WaitsForEver, NotQueued;
    if s.pings[q].phase.HasSlot? || s.pings[q].phase.Getting? {
      s1 := GivesUp(cfg, start, s, q);
    } else if s.pings[q].phase.Submitting? {
      s1 := OpenStep(cfg, start, s, Step(q, Refuse));
    }
    var s2 := GivesBack(cfg, start, s1, q);
    GetsFreeSlot(cfg, start, s2, p);
  }

  /** After the executor's channel has been closed, and as long as the router's context lives,
      a ping at the semaphore waits for ever, and with it the stop that waits for the queue's
      worker, if and only if every slot is held by a ping left in the queue. */
  lemma WaitsForEverIff(cfg: Config, states: seq<State>, acts: seq<Action>, i: nat, p: nat)
    requires Behaviour(cfg, states, acts) && i < |states|
    requires states[i].closed && !states[i].crashed && !states[i].cancelled && Waits(states[i], p)
    ensures WaitsForEver(cfg, states[i], p) <==> |states[i].queue| == cfg.slots
  {
    var s := states[i];
    Reachable(cfg, states, acts, i);
    AlwaysInOrder(cfg, states, acts, i);
    QueuedHoldSlots(cfg, s);
    Stay(cfg, s);
    if |s.queue| == cfg.slots {
      forall s' | Leads(cfg, s, s') && !s'.cancelled ensures Waits(s', p) {
        var ss, aa :| Run(cfg, ss, aa) && ss[0] == s && ss[|ss| - 1] == s';
        hide Inv;
        StaysJammed(cfg, ss, aa, p, |ss| - 1);
      }
    } else if s.held < cfg.slots {
      GetsFreeSlot(cfg, s, s, p);
    } else {
      SlotsOfOthers(s.pings);
      var q := SomeNotQueued(s.pings);
      hide Inv, Leads, WaitsForEver;
      SlotComesFree(cfg, s, s, p, q);
    }
  }

  /** Once the context is done it can go on at once. */
  lemma CancelFrees(cfg: Config, s: State, p: nat) returns (s': State)
    requires !s.crashed && Waits(s, p)
    ensures Leads(cfg, s, s') && p < |s'.pings| && s'.pings[p].phase.Finished? && s'.cancelled
  {
    Stay(cfg, s);
    hide Leads;
    s' := Then(cfg, s, s, CancelRouter);
    s' := Then(cfg, s, s', Step(p, GiveUp));
  }

  // ---------------------------------------------------------------- which configurations

  /** Some run's stop waits for ever. */
  ghost predicate SomeStopHangs(cfg: Config) {
    exists s, p: nat ::
      Reaches(cfg, s) && s.closed && !s.crashed && !s.cancelled && Waits(s, p) && WaitsForEver(cfg, s, p)
  }

  /** Every slot is held by a queued ping, and one more ping waits, when the stop comes. */
  lemma Jam(cfg: Config) returns (s: State)
    requires cfg.queues > 0 && cfg.slots <= 10 * cfg.workers
    ensures Reaches(cfg, s) && Jammed(cfg, s) && !s.crashed && !s.cancelled && Waits(s, cfg.slots)
  {
    var start := Initial(cfg);
    s := PileUntouched(cfg, cfg.slots, 1);
    hide Leads;
    s := Then(cfg, start, s, Serve(0, New));
    s := Then(cfg, start, s, SignalStop);
    s := Then(cfg, start, s, StopExecutor);
    s := Then(cfg, start, s, CancelExecutor);
    s := CrewLeaves(cfg, s, cfg.workers);
    s := Then(cfg, start, s, CloseQueue);
  }

  /** n pings are queued and every worker of the executor is idle. */
  lemma {:induction false} PileUntouched(cfg: Config, n: nat, left: nat) returns (s: State)
    requires n <= cfg.slots && n <= 10 * cfg.workers && cfg.queues > 0
    ensures Reaches(cfg, s) && |s.queue| == s.held == |s.pings| == n
    ensures s == Initial(cfg).(pings := s.pings, held := s.held, queue := s.queue, sources := s.sources)
    ensures Between(s, 0) && s.sources[0].place.left == left
  {
    var start := Initial(cfg);
    hide Leads;
    if n == 0 {
      Stay(cfg, start);
      s := Begin(cfg, start, start, 0, left);
    } else {
      s := PileUntouched(cfg, n - 1, left + 1);
      s := Arrive(cfg, start, s, 0);
      s := Then(cfg, start, s, Step(n - 1, Enqueue));
    }
  }

  /** The stop of some run waits for ever if and only if there is an interval queue and the
      semaphore has no more slots than the executor's queue has places. */
  lemma SomeStopHangsIff(cfg: Config)
    ensures SomeStopHangs(cfg) <==> cfg.queues > 0 && cfg.slots <= 10 * cfg.workers
  {
    if cfg.queues > 0 && cfg.slots <= 10 * cfg.workers {
      var s := Jam(cfg);
      var states, acts :| Run(cfg, states, acts) && states[0] == Initial(cfg) && states[|states| - 1] == s;
      WaitsForEverIff(cfg, states, acts, |states| - 1, cfg.slots);
    }
    if SomeStopHangs(cfg) {
      var s, p: nat :|
        Reaches(cfg, s) && s.closed && !s.crashed && !s.cancelled && Waits(s, p) && WaitsForEver(cfg, s, p);
      var states, acts :| Run(cfg, states, acts) && states[0] == Initial(cfg) && states[|states| - 1] == s;
      WaitsForEverIff(cfg, states, acts, |states| - 1, p);
      Reachable(cfg, states, acts, |states| - 1);
      assert Unsubmitted(s.pings[p].phase);
    }
  }
}

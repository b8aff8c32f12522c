/** When stopping the executor is safe (task/async_executor.go, manager/router_scheduler.go).
    The scheduler stops the executor before it waits for its own workers, so a ping may
    submit to the task channel after the stop has closed it. */
module TaskStops {
  import opened Totals
  import opened Options
  import opened TaskPipeline

  ghost predicate CanCrash(cfg: Config, s: State) {
    exists s' :: Leads(cfg, s, s') && s'.crashed
  }

  predicate BeforeSubmission(ph: Phase) {
    ph.Getting? || ph.Submitting?
  }

  /** The worker of a queue can still begin a ping: it has lines left, or it has not left and
      there is or may be another signal for it. */
  predicate CanBegin(x: Source) {
    && !x.place.Left?
    && ((x.place.Working? && x.place.left > 0) || x.ticking || x.signals > 0)
  }

  predicate Early(ph: Phase) {
    ph.Wanting? || ph.HasSlot?
  }

  /** No ping is on its way to a connection and no queue's worker can begin one. */
  ghost predicate Dry(s: State) {
    && (forall p :: 0 <= p < |s.pings| ==> !Early(s.pings[p].phase))
    && (forall k :: 0 <= k < |s.sources| ==> !CanBegin(s.sources[k]))
  }

  /** No ping is getting a connection or submitting, and no ping can come that far any more:
      the router's context is done, every slot is held by a queued ping, or there is none. */
  ghost predicate ClosedSafely(cfg: Config, s: State) {
    && (forall p :: 0 <= p < |s.pings| ==> !BeforeSubmission(s.pings[p].phase))
    && (s.cancelled || |s.queue| == cfg.slots || Dry(s))
  }

  // ---------------------------------------------------------------- safe

  /** 1 for a ping that holds a slot and is not queued. */
  function NotQueued(x: Ping): nat {
    match x.phase
    case Wanting | Queued | Reporting(_) | Finished => 0
    case _ => 1
  }

  lemma SlotsOfOthers(xs: seq<Ping>)
    ensures Total(xs, InQueue) + Total(xs, NotQueued) == Total(xs, SlotHeld)
  {
    if xs != [] { SlotsOfOthers(xs[..|xs| - 1]); }
  }

  /** A slot held by a ping that is not queued is missing from the queue. */
  lemma HolderLeavesRoom(cfg: Config, s: State, p: nat)
    requires Counted(cfg, s) && p < |s.pings| && NotQueued(s.pings[p]) == 1
    ensures |s.queue| < s.held <= cfg.slots
  {
    SlotsOfOthers(s.pings);
    TotalIncludes(s.pings, p, NotQueued);
  }

  lemma SafePing(cfg: Config, s: State, p: nat, op: Op)
    requires Counted(cfg, s) && s.closed && ClosedSafely(cfg, s) && Enabled(cfg, s, Step(p, op))
    ensures !op.SendOnClosed? && !op.Enqueue? && !BeforeSubmission(Moved(s.pings[p], op, s.cancelled).phase)
    ensures Dry(s) ==> !Early(Moved(s.pings[p], op, s.cancelled).phase)
  {
    assert !BeforeSubmission(s.pings[p].phase);
    assert Dry(s) ==> !Early(s.pings[p].phase);
    if op.CheckContext? && !s.cancelled { HolderLeavesRoom(cfg, s, p); }
  }

  lemma DrySource(s: State, k: nat, x: Source)
    requires Dry(s) && k < |s.sources| && !CanBegin(x)
    ensures Dry(s.(sources := s.sources[k := x]))
  {
    hide CanBegin, Early;
  }

  lemma SafeSource(cfg: Config, s: State, k: nat, duty: Duty)
    requires ClosedSafely(cfg, s) && Enabled(cfg, s, Serve(k, duty))
    ensures var s' := Next(cfg, s, Serve(k, duty));
      && (forall p :: 0 <= p < |s'.pings| ==> !BeforeSubmission(s'.pings[p].phase))
      && (Dry(s) ==> Dry(s'))
  {
    if Dry(s) {
      assert !CanBegin(s.sources[k]);
      assert !duty.New? && !CanBegin(Served(s, k, duty));
    }
  }

  lemma SafeStep(cfg: Config, s: State, a: Action)
    requires Inv(cfg, s) && s.closed && !s.crashed && ClosedSafely(cfg, s) && Enabled(cfg, s, a)
    ensures var s' := Next(cfg, s, a); s'.closed && !s'.crashed && ClosedSafely(cfg, s')
  {
    if a.Serve? {
      SafeSource(cfg, s, a.k, a.duty);
      hide Dry, BeforeSubmission, Serves, Served;
    } else {
      if a.Step? { SafePing(cfg, s, a.p, a.op); }
      hide Moved, At, AllBalanced, QueueOk, WorkersOk, Counted, SourcesOk, BeforeSubmission, Early, CanBegin;
    }
  }

  lemma {:induction false} StaysSafe(cfg: Config, states: seq<State>, acts: seq<Action>, i: nat, j: nat)
    requires Run(cfg, states, acts) && i <= j < |states| && Inv(cfg, states[i])
    requires states[i].closed && !states[i].crashed && ClosedSafely(cfg, states[i])
    ensures Inv(cfg, states[j]) && states[j].closed && !states[j].crashed && ClosedSafely(cfg, states[j])
  {
    if i < j {
      hide Inv, Next, Enabled, ClosedSafely;
      StaysSafe(cfg, states, acts, i, j - 1);
      NextKeepsInv(cfg, states[j - 1], acts[j - 1]);
      SafeStep(cfg, states[j - 1], acts[j - 1]);
    }
  }

  // ---------------------------------------------------------------- unsafe

  /** Closed, with the router's context live and room for another ping; reached from start. */
  ghost predicate Open(cfg: Config, start: State, s: State) {
    && Leads(cfg, start, s) && Inv(cfg, s) && s.closed && !s.crashed && !s.cancelled && |s.queue| < cfg.slots
  }

  lemma OpenStep(cfg: Config, start: State, s: State, a: Action) returns (s': State)
    requires Open(cfg, start, s) && Enabled(cfg, s, a)
    requires !a.CancelRouter? && (a.Step? ==> !a.op.SendOnClosed?)
    ensures s' == Next(cfg, s, a) && Open(cfg, start, s')
  {
    NextKeepsInv(cfg, s, a);
    hide Leads;
    s' := Then(cfg, start, s, a);
    QueueStays(cfg, s, a);
    hide Next, Enabled, Inv;
  }

  lemma QueueStays(cfg: Config, s: State, a: Action)
    requires StopOk(cfg, s) && s.closed && Enabled(cfg, s, a) && !a.CancelRouter? && (a.Step? ==> !a.op.SendOnClosed?)
    ensures var s' := Next(cfg, s, a);
      s'.closed && s'.crashed == s.crashed && s'.cancelled == s.cancelled && s'.queue == s.queue
  {
  }

  lemma SubmittingCrashes(cfg: Config, start: State, s: State, p: nat)
    requires Leads(cfg, start, s) && s.closed && !s.crashed && p < |s.pings| && s.pings[p].phase.Submitting?
    ensures CanCrash(cfg, start)
  {
    hide Leads;
    var s' := Then(cfg, start, s, Step(p, SendOnClosed));
  }

  lemma GettingCrashes(cfg: Config, start: State, s: State, p: nat)
    requires Leads(cfg, start, s) && s.closed && !s.crashed && p < |s.pings| && s.pings[p].phase.Getting?
    ensures CanCrash(cfg, start)
  {
    hide Leads, CanCrash;
    var s' := Then(cfg, start, s, Step(p, Get(true)));
    SubmittingCrashes(cfg, start, s', p);
  }

  lemma HasSlotCrashes(cfg: Config, start: State, s: State, p: nat)
    requires Open(cfg, start, s) && p < |s.pings| && s.pings[p].phase.HasSlot?
    ensures CanCrash(cfg, start)
  {
    hide Leads, CanCrash, Inv;
    var s' := Then(cfg, start, s, Step(p, CheckContext));
    GettingCrashes(cfg, start, s', p);
  }

  lemma WithSlotCrashes(cfg: Config, start: State, s: State, p: nat)
    requires Open(cfg, start, s) && p < |s.pings| && s.pings[p].phase.Wanting? && s.held < cfg.slots
    ensures CanCrash(cfg, start)
  {
    hide Leads, CanCrash, Inv;
    var s' := OpenStep(cfg, start, s, Step(p, AcquireSlot));
    HasSlotCrashes(cfg, start, s', p);
  }

  /** What a ping that has given up still has to do. */
  predicate GivingBack(ph: Phase) {
    ph.Returning? || ph.Refused? || ph.RefusedFreed?
  }

  lemma HolderIsCounted(cfg: Config, s: State, p: nat)
    requires Counted(cfg, s) && p < |s.pings| && SlotHeld(s.pings[p]) == 1
    ensures 0 < s.held <= cfg.slots
  {
    TotalIncludes(s.pings, p, SlotHeld);
  }

  /** A ping without a connection gives back its slot, finishes and leaves room. */
  lemma GivesSlot(cfg: Config, start: State, s: State, p: nat) returns (s': State)
    requires Open(cfg, start, s) && p < |s.pings| && (s.pings[p].phase.Returning? || s.pings[p].phase.RefusedFreed?)
    ensures Open(cfg, start, s') && s'.held < cfg.slots && s'.sources == s.sources
    ensures |s'.pings| == |s.pings| && s'.pings == s.pings[p := s'.pings[p]] && s'.pings[p].phase.Finished?
  {
    assert SlotHeld(s.pings[p]) == 1;
    HolderIsCounted(cfg, s, p);
    hide Leads, Inv, Open, SlotHeld;
    s' := OpenStep(cfg, start, s, Step(p, FreeSlot));
  }

  lemma GivesBack(cfg: Config, start: State, s: State, p: nat) returns (s': State)
    requires Open(cfg, start, s) && p < |s.pings| && GivingBack(s.pings[p].phase)
    ensures Open(cfg, start, s') && s'.held < cfg.slots && s'.sources == s.sources
    ensures |s'.pings| == |s.pings| && s'.pings == s.pings[p := s'.pings[p]] && s'.pings[p].phase.Finished?
  {
    hide Leads, Inv;
    s' := s;
    if s.pings[p].phase.Refused? {
      s' := OpenStep(cfg, start, s, Step(p, FreeConn));
    }
    hide Open;
    s' := GivesSlot(cfg, start, s', p);
  }

  /** Some ping holds a slot that is not queued: it comes to submit or makes room. */
  lemma WantingCrashes(cfg: Config, start: State, s: State, p: nat)
    requires Open(cfg, start, s) && p < |s.pings| && s.pings[p].phase.Wanting?
    ensures CanCrash(cfg, start)
  {
    if s.held < cfg.slots {
      WithSlotCrashes(cfg, start, s, p);
    } else {
      SlotsOfOthers(s.pings);
      var q := SomeNotQueued(s.pings);
      NobodyWorks(cfg, s);
      HolderPhases(s.pings[q]);
      hide Leads, CanCrash, Inv, Open;
      if GivingBack(s.pings[q].phase) {
        var s' := GivesBack(cfg, start, s, q);
        WithSlotCrashes(cfg, start, s', p);
      } else {
        OnItsWayCrashes(cfg, start, s, q);
      }
    }
  }

  lemma OnItsWayCrashes(cfg: Config, start: State, s: State, p: nat)
    requires Open(cfg, start, s) && p < |s.pings|
    requires s.pings[p].phase.HasSlot? || BeforeSubmission(s.pings[p].phase)
    ensures CanCrash(cfg, start)
  {
    hide CanCrash, Inv, Leads;
    match s.pings[p].phase
    case HasSlot => HasSlotCrashes(cfg, start, s, p);
    case Getting => GettingCrashes(cfg, start, s, p);
    case _ => SubmittingCrashes(cfg, start, s, p);
  }

  /** A queue's worker without a ping in hand begins one. */
  lemma BetweenCrashes(cfg: Config, start: State, s: State, k: nat)
    requires Open(cfg, start, s) && Between(s, k) && s.sources[k].place.left > 0
    ensures CanCrash(cfg, start)
  {
    hide CanCrash, Leads, Inv;
    var s' := OpenStep(cfg, start, s, Serve(k, New));
    assert s'.pings[|s.pings|].phase.Wanting?;
    WantingCrashes(cfg, start, s', |s.pings|);
  }

  lemma ListeningCrashes(cfg: Config, start: State, s: State, k: nat)
    requires Open(cfg, start, s) && Listens(s, k) && (s.sources[k].ticking || s.sources[k].signals > 0)
    ensures CanCrash(cfg, start)
  {
    hide CanCrash, Leads, Inv;
    var s1 := s;
    if s.sources[k].signals == 0 { s1 := OpenStep(cfg, start, s, Serve(k, Tick)); }
    var s2 := OpenStep(cfg, start, s1, Serve(k, Notified(1)));
    BetweenCrashes(cfg, start, s2, k);
  }

  lemma FreeWorkerCrashes(cfg: Config, start: State, s: State, k: nat)
    requires Open(cfg, start, s) && (Between(s, k) || Listens(s, k)) && CanBegin(s.sources[k])
    ensures CanCrash(cfg, start)
  {
    hide CanCrash, Leads, Inv;
    if Listens(s, k) {
      ListeningCrashes(cfg, start, s, k);
    } else if s.sources[k].place.left > 0 {
      BetweenCrashes(cfg, start, s, k);
    } else {
      var s' := OpenStep(cfg, start, s, Serve(k, EndList));
      ListeningCrashes(cfg, start, s', k);
    }
  }

  /** A worker that can begin a ping finishes the one in hand, or that one comes to submit. */
  lemma WorkerCrashes(cfg: Config, start: State, s: State, k: nat)
    requires Open(cfg, start, s) && k < |s.sources| && CanBegin(s.sources[k])
    ensures CanCrash(cfg, start)
  {
    assert SourcesOk(cfg, s.pings, s.sources);
    hide CanCrash, Inv, CanBegin;
    assert !s.sources[k].place.Left? by { HasNotLeft(s.sources[k]); }
    if Between(s, k) || Listens(s, k) {
      FreeWorkerCrashes(cfg, start, s, k);
    } else {
      var p := s.sources[k].place.current.value;
      assert Unsubmitted(s.pings[p].phase);
      if GivingBack(s.pings[p].phase) {
        var s' := GivesBack(cfg, start, s, p);
        FreeWorkerCrashes(cfg, start, s', k);
      } else if s.pings[p].phase.Wanting? {
        WantingCrashes(cfg, start, s, p);
      } else {
        OnItsWayCrashes(cfg, start, s, p);
      }
    }
  }

  lemma HasNotLeft(x: Source)
    requires CanBegin(x)
    ensures !x.place.Left?
  {
  }

  lemma HolderPhases(x: Ping)
    requires NotQueued(x) == 1 && !WithWorker(x.phase)
    ensures x.phase.HasSlot? || x.phase.Getting? || x.phase.Submitting? || x.phase.Refused?
      || x.phase.Returning? || x.phase.RefusedFreed?
  {
  }

  lemma {:induction false} SomeNotQueued(xs: seq<Ping>) returns (p: nat)
    requires Total(xs, NotQueued) > 0
    ensures p < |xs| && NotQueued(xs[p]) == 1
  {
    p := |xs| - 1;
    if NotQueued(xs[p]) == 0 { p := SomeNotQueued(xs[..p]); }
  }

  lemma UnsafeCrashes(cfg: Config, s: State)
    requires Inv(cfg, s) && s.closed && !s.crashed && !ClosedSafely(cfg, s)
    ensures CanCrash(cfg, s)
  {
    Stay(cfg, s);
    if p :| 0 <= p < |s.pings| && BeforeSubmission(s.pings[p].phase) {
      hide Leads, CanCrash, Inv;
      if s.pings[p].phase.Getting? { GettingCrashes(cfg, s, s, p); } else { SubmittingCrashes(cfg, s, s, p); }
    } else {
      QueuedHoldSlots(cfg, s);
      hide Leads, CanCrash, Inv, BeforeSubmission, CanBegin;
      assert Open(cfg, s, s);
      if p :| 0 <= p < |s.pings| && Early(s.pings[p].phase) {
        if s.pings[p].phase.Wanting? { WantingCrashes(cfg, s, s, p); } else { HasSlotCrashes(cfg, s, s, p); }
      } else {
        var k :| 0 <= k < |s.sources| && CanBegin(s.sources[k]);
        WorkerCrashes(cfg, s, s, k);
      }
    }
  }

  lemma QueuedHoldSlots(cfg: Config, s: State)
    requires Counted(cfg, s)
    ensures |s.queue| <= cfg.slots
  {
    SlotsOfOthers(s.pings);
  }

  // ---------------------------------------------------------------- the law

  /** From the moment the stop has closed the task channel, some continuation sends on it if
      and only if a ping is getting a connection or submitting, or, with the router's context
      live and some slot not held by a queued ping, a ping is on its way or a queue's worker
      can still begin one. */
  lemma CrashAfterCloseIff(cfg: Config, states: seq<State>, acts: seq<Action>, i: nat)
    requires Behaviour(cfg, states, acts) && i < |states| && states[i].closed && !states[i].crashed
    ensures CanCrash(cfg, states[i]) <==> !ClosedSafely(cfg, states[i])
  {
    var s := states[i];
    Reachable(cfg, states, acts, i);
    hide Next, Enabled, Inv, ClosedSafely;
    if !ClosedSafely(cfg, s) {
      UnsafeCrashes(cfg, s);
    } else if s' :| Leads(cfg, s, s') && s'.crashed {
      var ss, aa :| Run(cfg, ss, aa) && ss[0] == s && ss[|ss| - 1] == s';
      StaysSafe(cfg, ss, aa, 0, |ss| - 1);
    }
  }

  /** A run whose stop closed the channel safely never crashes afterwards. */
  lemma SafeCloseNeverCrashes(cfg: Config, states: seq<State>, acts: seq<Action>, i: nat, j: nat)
    requires Behaviour(cfg, states, acts) && i <= j < |states|
    requires states[i].closed && !states[i].crashed && ClosedSafely(cfg, states[i])
    ensures !states[j].crashed
  {
    Reachable(cfg, states, acts, i);
    hide Next, Enabled, Inv, ClosedSafely, Initial;
    StaysSafe(cfg, states, acts, i, j);
  }

  /** Executor workers from n on are still idle; the first queue's worker has a line to do. */
  lemma {:induction false} WorkersLeave(cfg: Config, n: nat) returns (s: State)
    requires n <= cfg.workers && cfg.queues > 0
    ensures Reaches(cfg, s) && s.stopped && s.refusing && !s.closed && !s.crashed && !s.cancelled
    ensures s.pings == [] && s.held == 0 && s.queue == [] && |s.workers| == cfg.workers
    ensures Between(s, 0) && s.sources[0].place.left == 1
    ensures forall w :: 0 <= w < cfg.workers ==> s.workers[w] == if w < n then Gone else Idle
  {
    var start := Initial(cfg);
    hide Leads;
    if n == 0 {
      Stay(cfg, start);
      s := Begin(cfg, start, start, 0, 1);
      s := Then(cfg, start, s, SignalStop);
      s := Then(cfg, start, s, StopExecutor);
      s := Then(cfg, start, s, CancelExecutor);
    } else {
      s := WorkersLeave(cfg, n - 1);
      s := Then(cfg, start, s, LeaveWorker(n - 1));
    }
  }

  /** A run that crashes: the channel is closed and then a ping of a list begun before comes
      as far as submitting. */
  lemma StopCanCrash(cfg: Config) returns (s: State)
    requires cfg.slots > 0 && cfg.queues > 0
    ensures Reaches(cfg, s) && s.crashed
  {
    var start := Initial(cfg);
    var s0 := WorkersLeave(cfg, cfg.workers);
    hide Leads;
    var s1 := Then(cfg, start, s0, CloseQueue);
    var s2 := Arrive(cfg, start, s1, 0);
    s := Then(cfg, start, s2, Step(0, SendOnClosed));
  }

  /** Some run of a configuration crashes if and only if it has a slot and a queue. */
  lemma SomeRunCrashesIff(cfg: Config)
    ensures (exists s :: Reaches(cfg, s) && s.crashed) <==> cfg.slots > 0 && cfg.queues > 0
  {
    if cfg.slots > 0 && cfg.queues > 0 { var s := StopCanCrash(cfg); }
    if s :| Reaches(cfg, s) && s.crashed {
      var states, acts :| Run(cfg, states, acts) && states[0] == Initial(cfg) && states[|states| - 1] == s;
      CrashNeedsStop(cfg, states, acts, |acts|);
    }
  }

  /** A ping that submits holds a slot and comes from a queue. */
  lemma CrashingPing(cfg: Config, s: State, a: Action)
    requires Inv(cfg, s) && Enabled(cfg, s, a) && Next(cfg, s, a).crashed
    ensures cfg.slots > 0 && cfg.queues > 0
  {
    hide AllBalanced, QueueOk, WorkersOk, StopOk;
    assert a.Step? && a.op.SendOnClosed? by { hide Serves, Served, Inv; }
    assert Unsubmitted(s.pings[a.p].phase) && SlotHeld(s.pings[a.p]) == 1;
    TotalIncludes(s.pings, a.p, SlotHeld);
    hide Next, Enabled, Total;
  }

  lemma CrashedIsClosed(cfg: Config, s: State)
    requires Inv(cfg, s) && s.crashed
    ensures s.stopped && s.closed
  {
  }

  /** A crash needs a stopped executor, a closed channel, a slot and a queue. */
  lemma {:induction false} CrashNeedsStop(cfg: Config, states: seq<State>, acts: seq<Action>, i: nat)
    requires Behaviour(cfg, states, acts) && i < |states| && states[i].crashed
    ensures states[i].stopped && states[i].closed && cfg.slots > 0 && cfg.queues > 0
  {
    Reachable(cfg, states, acts, i);
    CrashedIsClosed(cfg, states[i]);
    if i > 0 {
      hide Next, Enabled, Inv;
      Reachable(cfg, states, acts, i - 1);
      CrashingPing(cfg, states[i - 1], acts[i - 1]);
    }
  }
}

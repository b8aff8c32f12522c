/** That the aggregator gets done (task/aggregator.go): it is never stuck, its steps are
    bounded, Stop returns, and the timer delivers what does not fill the buffer. */
module AggregatorStops {
  import opened Totals
  import opened Aggregators
  import opened AggregatorRuns

  /** Neither a new event nor the timer nor the call of Stop. */
  predicate Progresses(a: Action) {
    !a.Submit? && !a.Tick? && !a.Stop?
  }

  /** Workers and the timer leave only after Stop; nothing empty is ever handed on. */
  predicate Orderly(cfg: Config, s: State) {
    forall t :: 0 <= t < |s.threads| ==>
      && (s.threads[t].Gone? ==> s.stopped)
      && (s.threads[t].Dispatching? ==> s.threads[t].batch != [])
  }

  lemma OrderlyStep(cfg: Config, s: State, a: Action)
    requires Shaped(cfg, s) && Enabled(cfg, s, a) && StopOk(cfg, s) && Orderly(cfg, s)
    ensures Orderly(cfg, Next(cfg, s, a))
  {
  }

  lemma {:induction false} AlwaysOrderly(cfg: Config, states: seq<State>, acts: seq<Action>, i: nat)
    requires Behaviour(cfg, states, acts) && i < |states|
    ensures Inv(cfg, states[i]) && Orderly(cfg, states[i])
  {
    Reachable(cfg, states, acts, i);
    if i > 0 {
      hide Next, Enabled, Orderly, Conserved, Paced, Roles;
      AlwaysOrderly(cfg, states, acts, i - 1);
      OrderlyStep(cfg, states[i - 1], acts[i - 1]);
    }
  }

  /** No handler is ever called with an empty batch. */
  lemma NoEmptyBatch(cfg: Config, states: seq<State>, acts: seq<Action>, i: nat, t: nat, failed: bool)
    requires Behaviour(cfg, states, acts) && i < |acts| && acts[i] == Handle(t, failed)
    ensures t < |states[i].threads| && states[i].threads[t].Dispatching? && states[i].threads[t].batch != []
  {
    AlwaysOrderly(cfg, states, acts, i);
  }

  // ---------------------------------------------------------------- never stuck

  predicate InFlight(p: Place) {
    p.Hand? || p.Counting? || p.Peeking? || p.Locking? || p.Dispatching?
  }

  function Onward(cfg: Config, t: nat, p: Place): Action
    requires InFlight(p)
  {
    match p
    case Hand(_) => Append(t)
    case Counting(_, _) => Count(t)
    case Peeking(_) => Peek(t)
    case Locking(_) => Swap(t)
    case Dispatching(_, next) => if next < cfg.handlers then Handle(t, false) else EndFlush(t)
  }

  /** Somebody can move whenever there is something to do: Stop has been called and has not
      returned, or events are queued and there is a worker. */
  lemma SomebodyMoves(cfg: Config, s: State) returns (a: Action)
    requires Inv(cfg, s) && Orderly(cfg, s)
    requires if s.stopped then !s.threads[Stopper(cfg)].Gone? else s.core.queue != [] && cfg.workers > 0
    ensures Enabled(cfg, s, a) && Progresses(a)
  {
    hide Conserved, Paced;
    if t: nat :| t < |s.threads| && InFlight(s.threads[t]) {
      a := Onward(cfg, t, s.threads[t]);
    } else if t: nat :| t <= Timer(cfg) && s.threads[t].Idle? && s.stopped {
      a := Leave(t);
    } else {
      forall t | 0 <= t <= Timer(cfg) ensures if s.stopped then s.threads[t].Gone? else s.threads[t].Idle? {
        assert RoleOk(cfg, t, s.threads[t]);
      }
      a := if !s.stopped then Take(0) else if s.threads[Stopper(cfg)].Waiting? then Join else CloseQueue;
    }
  }

  lemma NeverStuck(cfg: Config, states: seq<State>, acts: seq<Action>, i: nat) returns (a: Action)
    requires Behaviour(cfg, states, acts) && i < |states| && Shaped(cfg, states[i])
    requires var s := states[i];
      if s.stopped then !s.threads[Stopper(cfg)].Gone? else s.core.queue != [] && cfg.workers > 0
    ensures Enabled(cfg, states[i], a) && Progresses(a)
  {
    AlwaysOrderly(cfg, states, acts, i);
    a := SomebodyMoves(cfg, states[i]);
  }

  // ---------------------------------------------------------------- bounded work

  /** An upper bound on the steps still before a thread. */
  function Weight(cfg: Config): Place -> nat {
    (p: Place) =>
      match p
      case Gone => 0
      case Idle | Closing => 1
      case Dispatching(_, next) => if next <= cfg.handlers then 2 + cfg.handlers - next else 0
      case Locking(_) => cfg.handlers + 3
      case Peeking(_) => cfg.handlers + 4
      case Counting(_, _) | Waiting => cfg.handlers + 5
      case Hand(_) => cfg.handlers + 6
  }

  function Work(cfg: Config, s: State): nat {
    (cfg.handlers + 6) * |s.core.queue| + Total(s.threads, Weight(cfg))
  }

  lemma OneMore(k: nat, n: nat)
    ensures k * (n + 1) == k * n + k
  {
  }

  lemma WorkStep(cfg: Config, s: State, a: Action)
    requires Shaped(cfg, s) && Enabled(cfg, s, a)
    ensures Work(cfg, Next(cfg, s, a)) <= Work(cfg, s) + if Progresses(a) then 0 else cfg.handlers + 6
    ensures Progresses(a) ==> Work(cfg, Next(cfg, s, a)) < Work(cfg, s)
  {
    var s' := Next(cfg, s, a);
    OneMoves(cfg, s, a, Weight(cfg));
    QueueSize(cfg, s, a);
    WeightStep(cfg, s, a);
    hide Total, Next, Enabled, Weight;
    if a.Submit? { OneMore(cfg.handlers + 6, |s.core.queue|); }
    if a.Take? { OneMore(cfg.handlers + 6, |s'.core.queue|); }
  }

  lemma QueueSize(cfg: Config, s: State, a: Action)
    requires Shaped(cfg, s) && Enabled(cfg, s, a)
    ensures |Next(cfg, s, a).core.queue| + (if a.Take? then 1 else 0) == |s.core.queue| + if a.Submit? then 1 else 0
  {
    QueueStep(cfg, s, a);
  }

  lemma WeightStep(cfg: Config, s: State, a: Action)
    requires Shaped(cfg, s) && Enabled(cfg, s, a)
    ensures var t, s', w := Acting(cfg, a), Next(cfg, s, a), Weight(cfg);
      && t < |s.threads| && t < |s'.threads|
      && (if a.Submit? then w(s'.threads[t]) == w(s.threads[t])
          else if a.Take? then w(s'.threads[t]) == w(s.threads[t]) + cfg.handlers + 5
          else if Progresses(a) then w(s'.threads[t]) < w(s.threads[t])
          else w(s'.threads[t]) <= w(s.threads[t]) + cfg.handlers + 6)
  {
    hide MustFlush, Capacity, Counted;
  }

  /** How many of the first n actions make progress, or do not. */
  function HowMany(acts: seq<Action>, n: nat, progress: bool): nat
    requires n <= |acts|
  {
    if n == 0 then 0 else HowMany(acts, n - 1, progress) + if Progresses(acts[n - 1]) == progress then 1 else 0
  }

  lemma InitialWork(cfg: Config)
    ensures Work(cfg, Initial(cfg)) <= cfg.workers + 2
  {
    TotalAtMost(Initial(cfg).threads, cfg.workers + 2, Weight(cfg));
  }

  /** However the threads interleave, each event, tick and Stop costs a bounded number of
      steps; so everything that has been begun gets done. */
  lemma {:induction false} WorkIsBounded(cfg: Config, states: seq<State>, acts: seq<Action>, i: nat)
    requires Behaviour(cfg, states, acts) && i < |states|
    ensures HowMany(acts, i, true) + Work(cfg, states[i]) <=
      (cfg.handlers + 6) * HowMany(acts, i, false) + cfg.workers + 2
  {
    hide Next, Enabled, Work, Shaped, Initial, Progresses;
    if i == 0 {
      InitialWork(cfg);
    } else {
      WorkIsBounded(cfg, states, acts, i - 1);
      WorkStep(cfg, states[i - 1], acts[i - 1]);
      OneMore(cfg.handlers + 6, HowMany(acts, i - 1, false));
    }
  }

  // ---------------------------------------------------------------- Stop returns

  predicate Run(cfg: Config, states: seq<State>, acts: seq<Action>) {
    && |states| == |acts| + 1
    && forall i :: 0 <= i < |acts| ==>
      && Shaped(cfg, states[i]) && Enabled(cfg, states[i], acts[i])
      && states[i + 1] == Next(cfg, states[i], acts[i])
  }

  lemma RunOn(cfg: Config, s: State, a: Action, states: seq<State>, acts: seq<Action>)
    requires Shaped(cfg, s) && Enabled(cfg, s, a) && Run(cfg, states, acts) && states[0] == Next(cfg, s, a)
    ensures Run(cfg, [s] + states, [a] + acts)
  {
    hide Next, Enabled, Shaped;
  }

  lemma {:induction false} Finishes(cfg: Config, s: State) returns (states: seq<State>, acts: seq<Action>)
    requires Inv(cfg, s) && Orderly(cfg, s) && s.stopped
    ensures Run(cfg, states, acts) && states[0] == s && |acts| <= Work(cfg, s)
    ensures forall i :: 0 <= i < |acts| ==> Progresses(acts[i])
    ensures Shaped(cfg, states[|acts|]) && states[|acts|].threads[Stopper(cfg)].Gone?
    decreases Work(cfg, s)
  {
    assert Shaped(cfg, s) && StopOk(cfg, s);
    if s.threads[Stopper(cfg)].Gone? {
      states, acts := [s], [];
    } else {
      hide Conserved, Paced, Roles, Orderly, Enabled, Next, Work;
      var a := SomebodyMoves(cfg, s);
      NextKeepsInv(cfg, s, a);
      OrderlyStep(cfg, s, a);
      WorkStep(cfg, s, a);
      StaysStopped(cfg, s, a);
      states, acts := Finishes(cfg, Next(cfg, s, a));
      RunOn(cfg, s, a, states, acts);
      states, acts := [s] + states, [a] + acts;
    }
  }

  lemma StaysStopped(cfg: Config, s: State, a: Action)
    requires Shaped(cfg, s) && Enabled(cfg, s, a) && s.stopped
    ensures Next(cfg, s, a).stopped
  {
  }

  /** From every state of every run Stop can be called, if it has not been, and then returns
      within the work that is left, without any further event or tick. */
  lemma StopReturns(cfg: Config, states: seq<State>, acts: seq<Action>, i: nat)
    returns (more: seq<State>, then_: seq<Action>)
    requires Behaviour(cfg, states, acts) && i < |states|
    ensures Run(cfg, more, then_) && more[0] == states[i]
    ensures forall j :: 0 <= j < |then_| ==> Progresses(then_[j]) || (j == 0 && then_[j] == Stop)
    ensures Shaped(cfg, more[|then_|]) && more[|then_|].threads[Stopper(cfg)].Gone?
  {
    AlwaysOrderly(cfg, states, acts, i);
    var s := states[i];
    assert Shaped(cfg, s) && StopOk(cfg, s);
    if s.stopped {
      more, then_ := Finishes(cfg, s);
    } else {
      assert Enabled(cfg, s, Stop) && Next(cfg, s, Stop).stopped;
      hide Conserved, Paced, Roles, Orderly, Enabled, Next, Inv;
      NextKeepsInv(cfg, s, Stop);
      OrderlyStep(cfg, s, Stop);
      more, then_ := Finishes(cfg, Next(cfg, s, Stop));
      RunOn(cfg, s, Stop, more, then_);
      more, then_ := [s] + more, [Stop] + then_;
    }
  }

  // ---------------------------------------------------------------- the timer

  /** Thread t hands a batch to every handler from n on. */
  lemma {:induction false} HandOn(cfg: Config, s0: State, t: nat, batch: seq<Event>, n: nat) returns (s: State)
    requires Reaches(cfg, s0) && Shaped(cfg, s0) && t < |s0.threads| && s0.threads[t] == Dispatching(batch, 0)
    requires n <= cfg.handlers && forall h :: 0 <= h < |s0.logs| ==> s0.logs[h] == []
    ensures Reaches(cfg, s) && Shaped(cfg, s) && t < |s.threads| && s.threads[t] == Dispatching(batch, n)
    ensures s.core == s0.core && s.stopped == s0.stopped
    ensures forall h :: 0 <= h < |s.logs| ==> s.logs[h] == if h < n then batch else []
  {
    hide Reaches;
    if n == 0 {
      s := s0;
    } else {
      s := HandOn(cfg, s0, t, batch, n - 1);
      s := Then(cfg, s, Handle(t, false));
    }
  }

  /** A first event in the buffer, which it does not fill. */
  lemma Buffered(cfg: Config, e: Event) returns (s: State)
    requires cfg.workers > 0 && cfg.bufferSize > 1
    ensures Reaches(cfg, s) && Shaped(cfg, s) && !s.stopped && s.core.buffer == [e]
    ensures s.threads == Initial(cfg).threads && s.logs == Initial(cfg).logs
  {
    var s0 := Initial(cfg);
    assert Behaviour(cfg, [s0], []);
    hide Reaches;
    s := Then(cfg, s0, Submit(e));
    s := Then(cfg, s, Take(0));
    s := Then(cfg, s, Append(0));
    s := Then(cfg, s, Count(0));
    assert s.threads == s0.threads;
  }

  /** An event that does not fill the buffer reaches every handler by the timer alone. */
  lemma TimerDelivers(cfg: Config, e: Event) returns (s: State)
    requires cfg.workers > 0 && cfg.bufferSize > 1
    ensures Reaches(cfg, s) && Shaped(cfg, s) && !s.stopped && s.core.buffer == []
    ensures forall h :: 0 <= h < cfg.handlers ==> s.logs[h] == [e]
  {
    hide Reaches;
    var t := Timer(cfg);
    s := Buffered(cfg, e);
    s := Then(cfg, s, Tick);
    s := Then(cfg, s, Peek(t));
    s := Then(cfg, s, Swap(t));
    s := HandOn(cfg, s, t, [e], cfg.handlers);
    hide Capacity, MustFlush;
    s := Then(cfg, s, EndFlush(t));
  }
}

/** All interleavings of submitters, workers, the flush timer and Stop (task/aggregator.go).
    A thread's place says what it does next; the last two threads are the timer and Stop. */
module AggregatorRuns {
  import opened Totals
  import opened Aggregators

  datatype Place =
    | Idle
    | Hand(e: Event)                            // received, not yet appended
    | Counting(e: Event, owes: bool)            // appended; owes: it saw the buffer full
    | Peeking(owes: bool)                       // flush, before the check without the lock
    | Locking(owes: bool)                       // flush, before the lock
    | Dispatching(batch: seq<Event>, next: nat) // swapped; handlers before next have been called
    | Waiting                                   // Stop, for the others to finish
    | Closing                                   // Stop, before closing the queue
    | Gone

  datatype State = State(core: Core, logs: Logs, threads: seq<Place>, stopped: bool, accepted: multiset<Event>)

  datatype Action =
    | Submit(e: Event)
    | Tick
    | Stop
    | Take(t: nat)
    | Append(t: nat)
    | Count(t: nat)
    | Peek(t: nat)
    | Swap(t: nat)
    | Handle(t: nat, failed: bool)
    | EndFlush(t: nat)
    | Leave(t: nat)
    | Join
    | CloseQueue

  predicate Shaped(cfg: Config, s: State) {
    && |s.threads| == cfg.workers + 2
    && |s.logs| == cfg.handlers + 1
    && (forall t :: 0 <= t < |s.threads| && s.threads[t].Dispatching? ==> s.threads[t].next <= cfg.handlers)
  }

  function Timer(cfg: Config): nat { cfg.workers }

  function Stopper(cfg: Config): nat { cfg.workers + 1 }

  predicate Enabled(cfg: Config, s: State, a: Action)
    requires Shaped(cfg, s)
  {
    match a
    case Submit(_) => !s.threads[Stopper(cfg)].Gone? && |s.core.queue| < Capacity(cfg)
    case Tick => s.threads[Timer(cfg)].Idle?
    case Stop => s.threads[Stopper(cfg)].Idle?
    case Take(t) => t < cfg.workers && s.threads[t].Idle? && s.core.queue != []
    case Append(t) => t < |s.threads| && s.threads[t].Hand?
    case Count(t) => t < |s.threads| && s.threads[t].Counting?
    case Peek(t) => t < |s.threads| && s.threads[t].Peeking?
    case Swap(t) => t < |s.threads| && s.threads[t].Locking?
    case Handle(t, _) => t < |s.threads| && s.threads[t].Dispatching? && s.threads[t].next < cfg.handlers
    case EndFlush(t) => t < |s.threads| && s.threads[t].Dispatching? && s.threads[t].next == cfg.handlers
    case Leave(t) => t <= Timer(cfg) && s.threads[t].Idle? && s.stopped
    case Join => s.threads[Stopper(cfg)].Waiting? && forall t :: 0 <= t <= Timer(cfg) ==> s.threads[t].Gone?
    case CloseQueue => s.threads[Stopper(cfg)].Closing?
  }

  /** Where a thread is after its flush. */
  function Rest(cfg: Config, t: nat): Place {
    if t == Stopper(cfg) then Closing else Idle
  }

  function At(s: State, t: nat, p: Place): State
    requires t < |s.threads|
  {
    s.(threads := s.threads[t := p])
  }

  function Next(cfg: Config, s: State, a: Action): State
    requires Shaped(cfg, s) && Enabled(cfg, s, a)
  {
    match a
    case Submit(e) => s.(core := Submitted(s.core, e), accepted := s.accepted + multiset{e})
    case Tick => At(s, Timer(cfg), Peeking(false))
    case Stop => At(s.(stopped := true), Stopper(cfg), Waiting)
    case Take(t) => At(s.(core := s.core.(queue := s.core.queue[1..])), t, Hand(s.core.queue[0]))
    case Append(t) =>
      var c := Appended(s.core, s.threads[t].e);
      At(s.(core := c), t, Counting(s.threads[t].e, MustFlush(cfg, c)))
    case Count(t) =>
      At(s.(core := Counted(s.core, s.threads[t].e)), t, if s.threads[t].owes then Peeking(true) else Idle)
    case Peek(t) => At(s, t, if s.core.buffer == [] then Rest(cfg, t) else Locking(s.threads[t].owes))
    case Swap(t) =>
      if s.core.buffer == [] then At(s, t, Rest(cfg, t))
      else At(s.(core := Swapped(s.core)), t, Dispatching(s.core.buffer, 0))
    case Handle(t, _) =>
      var p := s.threads[t];
      At(s.(logs := Given(s.logs, p.next, p.batch)), t, Dispatching(p.batch, p.next + 1))
    case EndFlush(t) =>
      At(s.(logs := Given(s.logs, cfg.handlers, s.threads[t].batch)), t, Rest(cfg, t))
    case Leave(t) => At(s, t, Gone)
    case Join => At(s, Stopper(cfg), Peeking(false))
    case CloseQueue => At(s, Stopper(cfg), Gone)
  }

  function Initial(cfg: Config): State {
    State(Core([], [], Stats(0, 0, 0)), seq(cfg.handlers + 1, _ => []), seq(cfg.workers + 2, _ => Idle),
          false, multiset{})
  }

  predicate Behaviour(cfg: Config, states: seq<State>, acts: seq<Action>) {
    && |states| == |acts| + 1
    && states[0] == Initial(cfg)
    && forall i :: 0 <= i < |acts| ==>
      && Shaped(cfg, states[i]) && Enabled(cfg, states[i], acts[i])
      && states[i + 1] == Next(cfg, states[i], acts[i])
  }

  // ---------------------------------------------------------------- where each event is

  /** Copies of e that the thread has in hand and has not yet given to log entry h. */
  function Has(p: Place, h: nat, e: Event): nat {
    match p
    case Hand(x) => if x == e then 1 else 0
    case Dispatching(batch, next) => if next <= h then multiset(batch)[e] else 0
    case _ => 0
  }

  function Holding(h: nat, e: Event): Place -> nat {
    (p: Place) => Has(p, h, e)
  }

  /** Copies of e queued, in hand, buffered, or given to log entry h. */
  function Places(s: State, h: nat, e: Event): nat
    requires h < |s.logs|
  {
    multiset(s.core.queue)[e] + Total(s.threads, Holding(h, e)) + multiset(s.core.buffer)[e] + multiset(s.logs[h])[e]
  }

  /** Every accepted event is, for each handler, in exactly as many places as it was accepted times. */
  ghost predicate Conserved(s: State) {
    forall h: nat, e :: h < |s.logs| ==> Places(s, h, e) == s.accepted[e]
  }

  /** 1 if the thread saw the buffer full and has not flushed since. */
  function Owes(p: Place): nat {
    match p
    case Counting(_, owes) => if owes then 1 else 0
    case Peeking(owes) => if owes then 1 else 0
    case Locking(owes) => if owes then 1 else 0
    case _ => 0
  }

  /** 1 if the thread has appended an event and not yet counted it. */
  function Uncounted(p: Place): nat {
    if p.Hand? || p.Counting? then 1 else 0
  }

  function Bound(cfg: Config): nat {
    if cfg.bufferSize == 0 then 0 else cfg.bufferSize - 1
  }

  ghost predicate Paced(cfg: Config, s: State) {
    && |s.core.queue| <= Capacity(cfg)
    && |s.core.buffer| <= Bound(cfg) + Total(s.threads, Owes)
    && s.core.stats.total == s.core.stats.success + s.core.stats.failed
    && s.core.stats.total + |s.core.queue| + Total(s.threads, Uncounted) == |s.accepted|
  }

  /** Only workers hold events and owe flushes; only Stop waits and closes. */
  predicate RoleOk(cfg: Config, t: nat, p: Place) {
    && Owes(p) <= (if t < cfg.workers then 1 else 0)
    && ((p.Hand? || p.Counting?) ==> t < cfg.workers)
    && ((p.Waiting? || p.Closing?) ==> t == Stopper(cfg))
  }

  ghost predicate Roles(cfg: Config, s: State) {
    forall t :: 0 <= t < |s.threads| ==> RoleOk(cfg, t, s.threads[t])
  }

  /** How far Stop has come. */
  ghost predicate StopOk(cfg: Config, s: State)
    requires Shaped(cfg, s)
  {
    var stop := s.threads[Stopper(cfg)];
    && (s.stopped <==> !stop.Idle?)
    && (!stop.Idle? && !stop.Waiting? ==> forall t :: 0 <= t <= Timer(cfg) ==> s.threads[t].Gone?)
    && (stop.Dispatching? || stop.Closing? || stop.Gone? ==> s.core.buffer == [])
  }

  ghost predicate Inv(cfg: Config, s: State) {
    Shaped(cfg, s) && Roles(cfg, s) && StopOk(cfg, s) && Conserved(s) && Paced(cfg, s)
  }

  function Acting(cfg: Config, a: Action): nat {
    match a
    case Submit(_) => 0
    case Tick => Timer(cfg)
    case Stop => Stopper(cfg)
    case Join => Stopper(cfg)
    case CloseQueue => Stopper(cfg)
    case _ => a.t
  }

  /** A step changes the place of one thread. */
  lemma OneMoves(cfg: Config, s: State, a: Action, f: Place -> nat)
    requires Shaped(cfg, s) && Enabled(cfg, s, a)
    ensures var t, s' := Acting(cfg, a), Next(cfg, s, a);
      && t < |s.threads| && s'.threads == s.threads[t := s'.threads[t]]
      && Total(s'.threads, f) + f(s.threads[t]) == Total(s.threads, f) + f(s'.threads[t])
  {
    hide Total;
    var t, s' := Acting(cfg, a), Next(cfg, s, a);
    assert s'.threads == s.threads[t := s'.threads[t]];
    TotalUpdate(s.threads, t, s'.threads[t], f);
  }

  lemma ShapedStep(cfg: Config, s: State, a: Action)
    requires Shaped(cfg, s) && Enabled(cfg, s, a)
    ensures Shaped(cfg, Next(cfg, s, a))
  {
  }

  function Move(s: State, s': State, t: nat, h: nat, e: Event): int
    requires t < |s.threads| && |s'.threads| == |s.threads| && h < |s.logs| && h < |s'.logs|
  {
    multiset(s'.core.queue)[e] - multiset(s.core.queue)[e]
      + Has(s'.threads[t], h, e) - Has(s.threads[t], h, e)
      + multiset(s'.core.buffer)[e] - multiset(s.core.buffer)[e]
      + multiset(s'.logs[h])[e] - multiset(s.logs[h])[e]
  }

  lemma QueueMove(cfg: Config, s: State, a: Action, h: nat, e: Event)
    requires Shaped(cfg, s) && Enabled(cfg, s, a) && h <= cfg.handlers
    requires a.Submit? || a.Take? || a.Append?
    ensures Next(cfg, s, a).logs == s.logs
    ensures Move(s, Next(cfg, s, a), Acting(cfg, a), h, e) == if a.Submit? && a.e == e then 1 else 0
  {
    hide Capacity, MustFlush, Counted;
    if a.Take? { assert s.core.queue == [s.core.queue[0]] + s.core.queue[1..]; }
  }

  lemma LogMove(cfg: Config, s: State, a: Action, h: nat, e: Event)
    requires Shaped(cfg, s) && Enabled(cfg, s, a) && h <= cfg.handlers
    requires a.Handle? || a.EndFlush?
    ensures |Next(cfg, s, a).logs| == |s.logs| && |Next(cfg, s, a).threads| == |s.threads|
    ensures Move(s, Next(cfg, s, a), Acting(cfg, a), h, e) == 0
  {
  }

  lemma OtherMove(cfg: Config, s: State, a: Action, h: nat, e: Event)
    requires Shaped(cfg, s) && Enabled(cfg, s, a) && h <= cfg.handlers
    requires !a.Submit? && !a.Take? && !a.Append? && !a.Handle? && !a.EndFlush?
    ensures |Next(cfg, s, a).logs| == |s.logs| && |Next(cfg, s, a).threads| == |s.threads|
    ensures Move(s, Next(cfg, s, a), Acting(cfg, a), h, e) == 0
  {
    hide Capacity, MustFlush;
  }

  /** No step but Submit adds a copy of an event anywhere, and none takes one away. */
  lemma PlacesStep(cfg: Config, s: State, a: Action, h: nat, e: Event)
    requires Shaped(cfg, s) && Enabled(cfg, s, a) && h <= cfg.handlers
    ensures |Next(cfg, s, a).logs| == |s.logs|
    ensures Places(Next(cfg, s, a), h, e) == Places(s, h, e) + if a.Submit? && a.e == e then 1 else 0
  {
    OneMoves(cfg, s, a, Holding(h, e));
    if a.Submit? || a.Take? || a.Append? {
      QueueMove(cfg, s, a, h, e);
    } else if a.Handle? || a.EndFlush? {
      LogMove(cfg, s, a, h, e);
    } else {
      OtherMove(cfg, s, a, h, e);
    }
    hide Total, Next, Enabled, Has;
  }

  lemma ConservedStep(cfg: Config, s: State, a: Action)
    requires Shaped(cfg, s) && Conserved(s) && Enabled(cfg, s, a)
    ensures Conserved(Next(cfg, s, a))
  {
    var s' := Next(cfg, s, a);
    ShapedStep(cfg, s, a);
    hide Places;
    forall h: nat, e | h < |s'.logs| ensures Places(s', h, e) == s'.accepted[e] {
      PlacesStep(cfg, s, a, h, e);
    }
  }

  lemma PacedStep(cfg: Config, s: State, a: Action)
    requires Shaped(cfg, s) && Paced(cfg, s) && Enabled(cfg, s, a)
    ensures Paced(cfg, Next(cfg, s, a))
  {
    hide Total;
    OneMoves(cfg, s, a, Owes);
    OneMoves(cfg, s, a, Uncounted);
    TotalIncludes(s.threads, Acting(cfg, a), Owes);
  }

  lemma MovedRole(cfg: Config, s: State, a: Action)
    requires Shaped(cfg, s) && Roles(cfg, s) && Enabled(cfg, s, a)
    ensures Acting(cfg, a) < |s.threads| && |Next(cfg, s, a).threads| == |s.threads|
    ensures RoleOk(cfg, Acting(cfg, a), Next(cfg, s, a).threads[Acting(cfg, a)])
  {
    assert RoleOk(cfg, Acting(cfg, a), s.threads[Acting(cfg, a)]);
    hide Roles;
  }

  lemma RolesStep(cfg: Config, s: State, a: Action)
    requires Shaped(cfg, s) && Roles(cfg, s) && Enabled(cfg, s, a)
    ensures Roles(cfg, Next(cfg, s, a))
  {
    MovedRole(cfg, s, a);
    OneMoves(cfg, s, a, Owes);
    hide RoleOk, Next, Enabled;
  }

  lemma StopStep(cfg: Config, s: State, a: Action)
    requires Shaped(cfg, s) && Roles(cfg, s) && StopOk(cfg, s) && Enabled(cfg, s, a)
    ensures Shaped(cfg, Next(cfg, s, a)) && StopOk(cfg, Next(cfg, s, a))
  {
    ShapedStep(cfg, s, a);
    OneMoves(cfg, s, a, Owes);
  }

  lemma NextKeepsInv(cfg: Config, s: State, a: Action)
    requires Inv(cfg, s) && Enabled(cfg, s, a)
    ensures Inv(cfg, Next(cfg, s, a))
  {
    ShapedStep(cfg, s, a);
    RolesStep(cfg, s, a);
    StopStep(cfg, s, a);
    ConservedStep(cfg, s, a);
    PacedStep(cfg, s, a);
  }

  lemma InitialOk(cfg: Config)
    ensures Inv(cfg, Initial(cfg))
  {
    var s := Initial(cfg);
    TotalZero(s.threads, Owes);
    TotalZero(s.threads, Uncounted);
    forall h: nat, e | h < |s.logs| ensures Places(s, h, e) == 0 { TotalZero(s.threads, Holding(h, e)); }
  }

  lemma {:induction false} Reachable(cfg: Config, states: seq<State>, acts: seq<Action>, i: nat)
    requires Behaviour(cfg, states, acts) && i < |states|
    ensures Inv(cfg, states[i])
  {
    hide Inv, Next, Enabled, Initial;
    if i == 0 {
      InitialOk(cfg);
    } else {
      Reachable(cfg, states, acts, i - 1);
      NextKeepsInv(cfg, states[i - 1], acts[i - 1]);
    }
  }

  // ---------------------------------------------------------------- guarantees

  /** For every handler, each accepted event is queued, in one thread's hands, buffered or
      delivered, as often as it was accepted; the other handlers' errors play no part. */
  lemma ExactlyOnce(cfg: Config, states: seq<State>, acts: seq<Action>, i: nat, h: nat, e: Event)
    requires Behaviour(cfg, states, acts) && i < |states| && h < cfg.handlers
    ensures Shaped(cfg, states[i])
    ensures var s := states[i];
      s.accepted[e] == multiset(s.core.queue)[e] + Total(s.threads, Holding(h, e))
        + multiset(s.core.buffer)[e] + multiset(s.logs[h])[e]
    ensures multiset(states[i].logs[h])[e] <= states[i].accepted[e]
  {
    hide Total;
    Reachable(cfg, states, acts, i);
    assert Places(states[i], h, e) == states[i].accepted[e];
  }

  /** Once Stop has returned, each handler has received every accepted event exactly once,
      except those that nobody took out of the queue. */
  lemma OnlyQueuedAreLost(cfg: Config, states: seq<State>, acts: seq<Action>, i: nat, h: nat)
    requires Behaviour(cfg, states, acts) && i < |states| && h < cfg.handlers
    requires Shaped(cfg, states[i]) && states[i].threads[Stopper(cfg)].Gone?
    ensures states[i].accepted == multiset(states[i].logs[h]) + multiset(states[i].core.queue)
    ensures states[i].core.buffer == []
  {
    var s := states[i];
    Reachable(cfg, states, acts, i);
    forall e ensures s.accepted[e] == multiset(s.logs[h])[e] + multiset(s.core.queue)[e] {
      TotalZero(s.threads, Holding(h, e));
      assert Places(s, h, e) == s.accepted[e];
    }
  }

  /** The queue is closed only when nobody receives from it any more. */
  lemma NobodyReadsAClosedQueue(cfg: Config, states: seq<State>, acts: seq<Action>, i: nat, t: nat)
    requires Behaviour(cfg, states, acts) && i < |states| && t <= Timer(cfg)
    requires Shaped(cfg, states[i]) && states[i].threads[Stopper(cfg)].Gone?
    ensures states[i].threads[t].Gone? && states[i].stopped
  {
    Reachable(cfg, states, acts, i);
  }

  /** The buffer never holds more than its size less one, plus one event for each worker. */
  lemma BufferBounded(cfg: Config, states: seq<State>, acts: seq<Action>, i: nat)
    requires Behaviour(cfg, states, acts) && i < |states|
    ensures |states[i].core.buffer| <= cfg.workers + if cfg.bufferSize == 0 then 0 else cfg.bufferSize - 1
    ensures |states[i].core.queue| <= 200 * cfg.workers
  {
    hide Total;
    Reachable(cfg, states, acts, i);
    TotalAtMost(states[i].threads, cfg.workers, Owes);
  }

  /** The statistics agree with each other and lag behind the accepted events by what is
      queued or being moved. */
  lemma StatisticsAreExact(cfg: Config, states: seq<State>, acts: seq<Action>, i: nat)
    requires Behaviour(cfg, states, acts) && i < |states|
    ensures var s := states[i];
      && s.core.stats.total == s.core.stats.success + s.core.stats.failed
      && s.core.stats.total + |s.core.queue| <= |s.accepted| <= s.core.stats.total + |s.core.queue| + cfg.workers
  {
    hide Total;
    var s := states[i];
    Reachable(cfg, states, acts, i);
    forall t | 0 <= t < |s.threads| ensures Uncounted(s.threads[t]) <= if t < cfg.workers then 1 else 0 {
      assert RoleOk(cfg, t, s.threads[t]);
    }
    TotalAtMost(s.threads, cfg.workers, Uncounted);
  }

  // ---------------------------------------------------------------- order and outcomes

  function Accepts(a: Action): seq<Event> {
    if a.Submit? then [a.e] else []
  }

  /** What the worker that acted has in hand when it has just received it. */
  function Receives(a: Action, after: State): seq<Event> {
    if a.Take? && a.t < |after.threads| && after.threads[a.t].Hand? then [after.threads[a.t].e] else []
  }

  /** The events accepted by the first n actions, in order. */
  function Submissions(acts: seq<Action>, n: nat): seq<Event>
    requires n <= |acts|
  {
    if n == 0 then [] else Submissions(acts, n - 1) + Accepts(acts[n - 1])
  }

  /** The events that workers have received by then, in order. */
  function Received(states: seq<State>, acts: seq<Action>, n: nat): seq<Event>
    requires n <= |acts| && |states| == |acts| + 1
  {
    if n == 0 then [] else Received(states, acts, n - 1) + Receives(acts[n - 1], states[n])
  }

  lemma QueueStep(cfg: Config, s: State, a: Action)
    requires Shaped(cfg, s) && Enabled(cfg, s, a)
    ensures s.core.queue + Accepts(a) == Receives(a, Next(cfg, s, a)) + Next(cfg, s, a).core.queue
  {
    if a.Take? { assert s.core.queue == [s.core.queue[0]] + s.core.queue[1..]; }
  }

  /** Workers receive the events in the order of their submission, and what they have not
      received yet is what the queue holds. */
  lemma {:induction false} ReceivedInOrder(cfg: Config, states: seq<State>, acts: seq<Action>, i: nat)
    requires Behaviour(cfg, states, acts) && i < |states|
    ensures Submissions(acts, i) == Received(states, acts, i) + states[i].core.queue
  {
    if i > 0 {
      hide Next, Enabled, Shaped, Accepts, Receives;
      ReceivedInOrder(cfg, states, acts, i - 1);
      QueueStep(cfg, states[i - 1], acts[i - 1]);
      Regroup(Received(states, acts, i - 1), states[i - 1].core.queue, Accepts(acts[i - 1]),
              Receives(acts[i - 1], states[i]), states[i].core.queue);
    }
  }

  function Alike(es: seq<Event>, success: bool): nat {
    if es == [] then 0 else Alike(es[..|es| - 1], success) + if es[|es| - 1].success == success then 1 else 0
  }

  lemma {:induction false} AlikeSplits(es: seq<Event>, fs: seq<Event>, success: bool)
    ensures Alike(es + fs, success) == Alike(es, success) + Alike(fs, success)
  {
    if fs == [] {
      assert es + fs == es;
    } else {
      assert (es + fs)[..|es + fs| - 1] == es + fs[..|fs| - 1];
      AlikeSplits(es, fs[..|fs| - 1], success);
    }
  }

  function UncountedAlike(success: bool): Place -> nat {
    (p: Place) => if (p.Hand? || p.Counting?) && p.e.success == success then 1 else 0
  }

  /** Events of this outcome that are counted, queued, or received and not yet counted. */
  function Told(s: State, success: bool): nat {
    CountOf(s.core.stats, success) + Alike(s.core.queue, success) + Total(s.threads, UncountedAlike(success))
  }

  function CountOf(m: Stats, success: bool): nat {
    if success then m.success else m.failed
  }

  lemma ToldStep(cfg: Config, s: State, a: Action, success: bool)
    requires Shaped(cfg, s) && Enabled(cfg, s, a)
    ensures Told(Next(cfg, s, a), success) == Told(s, success) + Alike(Accepts(a), success)
  {
    var s' := Next(cfg, s, a);
    OneMoves(cfg, s, a, UncountedAlike(success));
    QueueStep(cfg, s, a);
    AlikeSplits(s.core.queue, Accepts(a), success);
    AlikeSplits(Receives(a, s'), s'.core.queue, success);
    HandMoves(cfg, s, a, success);
    hide Total, Alike, Accepts, Receives, Next, Enabled, UncountedAlike, CountOf;
  }

  /** What a thread comes to have uncounted is what it received, less what it counts. */
  lemma HandMoves(cfg: Config, s: State, a: Action, success: bool)
    requires Shaped(cfg, s) && Enabled(cfg, s, a)
    ensures var s', t, f := Next(cfg, s, a), Acting(cfg, a), UncountedAlike(success);
      && t < |s.threads| && t < |s'.threads|
      && CountOf(s'.core.stats, success) + f(s'.threads[t])
         == CountOf(s.core.stats, success) + f(s.threads[t]) + Alike(Receives(a, s'), success)
  {
    OneAlike(success);
    hide MustFlush, Capacity;
  }

  lemma OneAlike(success: bool)
    ensures forall e: Event :: Alike([e], success) == if e.success == success then 1 else 0
    ensures Alike([], success) == 0
  {
    forall e: Event ensures Alike([e], success) == if e.success == success then 1 else 0 {
      assert [e][..0] == [];
    }
  }

  lemma {:induction false} ToldIsSubmitted(cfg: Config, states: seq<State>, acts: seq<Action>, i: nat, success: bool)
    requires Behaviour(cfg, states, acts) && i < |states|
    ensures Told(states[i], success) == Alike(Submissions(acts, i), success)
  {
    hide Next, Enabled, Shaped, Accepts;
    if i == 0 {
      TotalZero(states[0].threads, UncountedAlike(success));
    } else {
      hide Told, Initial, Alike;
      ToldIsSubmitted(cfg, states, acts, i - 1, success);
      ToldStep(cfg, states[i - 1], acts[i - 1], success);
      AlikeSplits(Submissions(acts, i - 1), Accepts(acts[i - 1]), success);
    }
  }

  /** The counters of successes and of failures each follow the accepted events of that
      outcome, behind by what is queued and by at most one event for each worker. */
  lemma StatisticsByOutcome(cfg: Config, states: seq<State>, acts: seq<Action>, i: nat, success: bool)
    requires Behaviour(cfg, states, acts) && i < |states|
    ensures var s, n := states[i], Alike(Submissions(acts, i), success);
      var counted := (if success then s.core.stats.success else s.core.stats.failed) + Alike(s.core.queue, success);
      counted <= n <= counted + cfg.workers
  {
    hide Total;
    var s := states[i];
    Reachable(cfg, states, acts, i);
    ToldIsSubmitted(cfg, states, acts, i, success);
    forall t | 0 <= t < |s.threads| ensures UncountedAlike(success)(s.threads[t]) <= if t < cfg.workers then 1 else 0 {
      assert RoleOk(cfg, t, s.threads[t]);
    }
    TotalAtMost(s.threads, cfg.workers, UncountedAlike(success));
  }

  // ---------------------------------------------------------------- the bound is reached

  ghost predicate Reaches(cfg: Config, s: State) {
    exists states, acts :: Behaviour(cfg, states, acts) && states[|states| - 1] == s
  }

  lemma Then(cfg: Config, s: State, a: Action) returns (s': State)
    requires Reaches(cfg, s) && Shaped(cfg, s) && Enabled(cfg, s, a)
    ensures s' == Next(cfg, s, a) && Reaches(cfg, s')
  {
    hide Next, Enabled, Shaped;
    var states, acts :| Behaviour(cfg, states, acts) && states[|states| - 1] == s;
    s' := Next(cfg, s, a);
    assert Behaviour(cfg, states + [s'], acts + [a]);
  }

  /** Worker t receives a new event and appends it. */
  lemma Pass(cfg: Config, s: State, t: nat, e: Event) returns (s': State)
    requires Reaches(cfg, s) && Shaped(cfg, s) && t < cfg.workers
    requires s.threads[t].Idle? && s.threads[Stopper(cfg)].Idle? && s.core.queue == []
    ensures Reaches(cfg, s') && Shaped(cfg, s') && s'.core.queue == []
    ensures |s'.core.buffer| == |s.core.buffer| + 1
    ensures s'.threads == s.threads[t := Counting(e, |s.core.buffer| + 1 >= cfg.bufferSize)]
  {
    hide Reaches;
    var s1 := Then(cfg, s, Submit(e));
    var s2 := Then(cfg, s1, Take(t));
    s' := Then(cfg, s2, Append(t));
  }

  /** The buffer filled up to n without any flush. */
  lemma {:induction false} Fill(cfg: Config, n: nat, e: Event) returns (s: State)
    requires n <= Bound(cfg) && cfg.workers > 0
    ensures Reaches(cfg, s) && Shaped(cfg, s)
    ensures |s.core.buffer| == n && s.core.queue == [] && s.threads == Initial(cfg).threads
  {
    if n == 0 {
      s := Initial(cfg);
      assert Behaviour(cfg, [s], []);
    } else {
      var s0 := Fill(cfg, n - 1, e);
      hide Reaches;
      var s1 := Pass(cfg, s0, 0, e);
      s := Then(cfg, s1, Count(0));
      assert s.threads == s0.threads;
    }
  }

  /** Then j workers append before any of them flushes. */
  lemma {:induction false} Crowd(cfg: Config, j: nat, e: Event) returns (s: State)
    requires j <= cfg.workers && cfg.workers > 0
    ensures Reaches(cfg, s) && Shaped(cfg, s)
    ensures |s.core.buffer| == Bound(cfg) + j && s.core.queue == []
    ensures forall t :: j <= t < |s.threads| ==> s.threads[t].Idle?
  {
    if j == 0 {
      s := Fill(cfg, Bound(cfg), e);
    } else {
      var s0 := Crowd(cfg, j - 1, e);
      hide Reaches;
      s := Pass(cfg, s0, j - 1, e);
    }
  }

  /** The bound on the buffer cannot be improved, for any configuration. */
  lemma BoundIsReached(cfg: Config) returns (s: State)
    requires cfg.workers > 0
    ensures Reaches(cfg, s)
    ensures |s.core.buffer| == cfg.workers + if cfg.bufferSize == 0 then 0 else cfg.bufferSize - 1
  {
    s := Crowd(cfg, cfg.workers, Event(0, true));
  }
}

/** Why a ping ends as it does, and in which order the workers execute
    (manager/router_scheduler.go, task/async_executor.go). */
module TaskOrders {
  import opened Totals
  import opened TaskPipeline
  import opened Options

  // ---------------------------------------------------------------- first in, first out

  function Enqueues(a: Action): seq<nat> {
    if a.Step? && a.op.Enqueue? then [a.p] else []
  }

  /** The ping the worker that acted has begun to execute. */
  function Begins(a: Action, after: State): seq<nat> {
    if a.TakeTask? && a.w < |after.workers| && after.workers[a.w].Busy? then [after.workers[a.w].p] else []
  }

  /** The pings submitted by the first n actions, in order. */
  function Submitted(acts: seq<Action>, n: nat): seq<nat>
    requires n <= |acts|
  {
    if n == 0 then [] else Submitted(acts, n - 1) + Enqueues(acts[n - 1])
  }

  /** The pings that workers have begun to execute by then, in order. */
  function Begun(states: seq<State>, acts: seq<Action>, n: nat): seq<nat>
    requires n <= |acts| && |states| == |acts| + 1
  {
    if n == 0 then [] else Begun(states, acts, n - 1) + Begins(acts[n - 1], states[n])
  }

  lemma QueueStep(cfg: Config, s: State, a: Action)
    requires Enabled(cfg, s, a)
    ensures s.queue + Enqueues(a) == Begins(a, Next(cfg, s, a)) + Next(cfg, s, a).queue
  {
    if a.TakeTask? { assert s.queue == [s.queue[0]] + s.queue[1..]; }
    hide Moved, At, Allowed;
  }

  /** Workers begin pings in the order of their submission, and what they have not begun is
      what the task queue holds. */
  lemma {:induction false} BegunInOrder(cfg: Config, states: seq<State>, acts: seq<Action>, i: nat)
    requires Behaviour(cfg, states, acts) && i < |states|
    ensures Submitted(acts, i) == Begun(states, acts, i) + states[i].queue
  {
    if i > 0 {
      hide Next, Enabled, Enqueues, Begins;
      BegunInOrder(cfg, states, acts, i - 1);
      QueueStep(cfg, states[i - 1], acts[i - 1]);
      Regroup(Begun(states, acts, i - 1), states[i - 1].queue, Enqueues(acts[i - 1]),
              Begins(acts[i - 1], states[i]), states[i].queue);
    }
  }

  // ---------------------------------------------------------------- why a ping ends

  /** One of the first n actions was this step of ping p. */
  ghost predicate Did(acts: seq<Action>, n: nat, p: nat, op: Op)
    requires n <= |acts|
  {
    exists j :: 0 <= j < n && acts[j] == Step(p, op)
  }

  ghost predicate Executed(acts: seq<Action>, n: nat, p: nat)
    requires n <= |acts|
  {
    Did(acts, n, p, Execute(true)) || Did(acts, n, p, Execute(false))
  }

  /** Giving up, and going without a connection, have a cause. */
  ghost predicate NoConnection(cancelled: bool, acts: seq<Action>, n: nat, p: nat)
    requires n <= |acts|
  {
    cancelled || Did(acts, n, p, Get(false))
  }

  ghost predicate Explained(cancelled: bool, acts: seq<Action>, n: nat, p: nat, x: Ping)
    requires n <= |acts|
  {
    match x.phase
    case Returning => x.connsGot == 0 && NoConnection(cancelled, acts, n, p)
    case Refused | RefusedFreed => x.connsGot == 1 && Did(acts, n, p, Refuse)
    case Answered(_) | Freed(_) | Reporting(_) => x.connsGot == x.slotsGot == 1 && Executed(acts, n, p)
    case Finished =>
      if x.slotsGot == 0 then cancelled
      else if x.connsGot == 0 then NoConnection(cancelled, acts, n, p)
      else Executed(acts, n, p) || Did(acts, n, p, Refuse)
    case _ => true
  }

  lemma MoreActions(cancelled: bool, cancelled': bool, acts: seq<Action>, n: nat, p: nat, x: Ping)
    requires 0 < n <= |acts| && (cancelled ==> cancelled') && Explained(cancelled, acts, n - 1, p, x)
    ensures Explained(cancelled', acts, n, p, x)
  {
    forall op | Did(acts, n - 1, p, op) ensures Did(acts, n, p, op) {
      var j :| 0 <= j < n - 1 && acts[j] == Step(p, op);
    }
    hide Did;
  }

  lemma StepExplains(cancelled: bool, acts: seq<Action>, n: nat, p: nat, x: Ping, op: Op)
    requires 0 < n <= |acts| && acts[n - 1] == Step(p, op)
    requires At(x.phase, op) && (op.GiveUp? ==> cancelled) && Explained(cancelled, acts, n - 1, p, x)
    requires ConnsBalanced(x) && SlotsBalanced(x)
    ensures Explained(cancelled, acts, n, p, Moved(x, op, cancelled))
  {
    MoreActions(cancelled, cancelled, acts, n, p, x);
    assert Did(acts, n, p, op);
    hide Did;
    if op.Execute? { assert op == Execute(true) || op == Execute(false); }
  }

  /** The executor refuses only when its context is done or its queue is full. */
  lemma RefusalHasCause(cfg: Config, states: seq<State>, acts: seq<Action>, i: nat, p: nat)
    requires Behaviour(cfg, states, acts) && i < |acts| && acts[i] == Step(p, Refuse)
    ensures states[i].refusing || |states[i].queue| >= 10 * cfg.workers
  {
    hide Next;
  }

  /** No ping is dropped without a cause: one that ends without a slot, or without a
      connection, saw the router's context done or was refused by the pool; one that had a
      connection was executed, or refused by the executor. */
  lemma {:induction false} EveryEndIsExplained(cfg: Config, states: seq<State>, acts: seq<Action>, i: nat, p: nat)
    requires Behaviour(cfg, states, acts) && i < |states| && p < |states[i].pings|
    ensures Explained(states[i].cancelled, acts, i, p, states[i].pings[p])
  {
    if i > 0 {
      var s, a, s' := states[i - 1], acts[i - 1], states[i];
      Reachable(cfg, states, acts, i - 1);
      hide Explained;
      PingStep(cfg, s, a, p);
      if p < |s.pings| {
        EveryEndIsExplained(cfg, states, acts, i - 1, p);
        if a.Step? && a.p == p {
          StepExplains(s.cancelled, acts, i, p, s.pings[p], a.op);
        } else if s'.pings[p] == s.pings[p] {
          MoreActions(s.cancelled, s'.cancelled, acts, i, p, s.pings[p]);
        }
      }
      Unexplained(s'.cancelled, acts, i, p, s'.pings[p]);
    }
  }

  lemma Unexplained(cancelled: bool, acts: seq<Action>, n: nat, p: nat, x: Ping)
    requires n <= |acts|
    ensures x.phase.Wanting? || x.phase.Running? ==> Explained(cancelled, acts, n, p, x)
  {
  }

  /** What an action does to ping p. */
  lemma PingStep(cfg: Config, s: State, a: Action, p: nat)
    requires Inv(cfg, s) && Enabled(cfg, s, a) && p < |Next(cfg, s, a).pings|
    ensures s.cancelled ==> Next(cfg, s, a).cancelled
    ensures var s' := Next(cfg, s, a);
      if p >= |s.pings| then s'.pings[p].phase.Wanting?
      else if a.Step? && a.p == p then
        && At(s.pings[p].phase, a.op) && s'.pings[p] == Moved(s.pings[p], a.op, s.cancelled)
        && s'.cancelled == s.cancelled && (a.op.GiveUp? ==> s.cancelled)
      else s'.pings[p] == s.pings[p] || s'.pings[p].phase.Running?
    ensures p < |s.pings| ==> ConnsBalanced(s.pings[p]) && SlotsBalanced(s.pings[p])
  {
    hide Moved, At, ConnsBalanced, SlotsBalanced, Counted, QueueOk, WorkersOk, StopOk, SourcesOk;
  }
}

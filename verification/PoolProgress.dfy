/** That no thread of the pool depends on another to get on (connection/pool_enhanced.go):
    whatever it is in the middle of, its own steps lead it to an end. */
module PoolProgress {
  import opened ConnectionStates
  import opened PooledConnections
  import opened PoolProtocol
  import opened Options

  /** An upper bound on the own steps before a thread that wants to end is free. */
  function Rank(pc: PC): nat {
    match pc
    case Free => 0
    case Room | Candidate(_) | Holding(_) | Checked(_) | Target(_) | Judging(_) | Unmarked(_) => 1
    case Shutting(_) | Removed(_) | Shut(_) | Swapped(_) | Judged(_) | Sweeping(_) => 1
    case CheckSeen(_) | Probing(_) | ExecLeft(_) | Begun(_) | SeenIdle(_, _) => 2
    case Running(_, _) | TargetUnused(_) | Looked(_, _) => 3
    case ExecSeen(_, _) | TargetIdle(_) => 4
    case ExecEntered(_) => 5
    case Abnormal(_) => 0
  }

  /** The step towards the end. */
  function Out(t: ThreadId, pc: PC): Action {
    match pc
    case Room => DropRoom(t)
    case Holding(_) | Checked(_) => Local(t, Release)
    case Probing(_) => Local(t, Outcome(false))
    case Candidate(_) | CheckSeen(_) | Target(_) | Shutting(_) | Removed(_) | Shut(_) => Local(t, GiveUp)
    case Judging(_) | Unmarked(_) | Judged(_) | Sweeping(_) | Swapped(_) => Local(t, GiveUp)
    case _ => Local(t, Go)
  }

  lemma OutLeadsOn(cfg: Config, t: ThreadId, pc: PC, e: Entry, pooled: bool)
    requires HasId(pc) && EntryOk(cfg, e, pooled) && ThreadOk(t, pc, e, pooled)
    ensures Out(t, pc).Local? && LocalEnabled(pc, Out(t, pc).op)
    ensures var to := LocalStep(cfg, t, pc, e, Out(t, pc).op).pc; Rank(to) < Rank(pc) && !to.Abnormal?
  {
    hide TrailingFailures, HealthOf, AfterCheck;
  }

  predicate Run(cfg: Config, s: State, t: ThreadId, states: seq<State>, acts: seq<Action>) {
    && Continuation(cfg, s, states, acts)
    && forall i :: 0 <= i < |acts| ==> (acts[i].Local? || acts[i].DropRoom?) && acts[i].t == t
  }

  lemma RunOn(cfg: Config, s: State, t: ThreadId, a: Action, states: seq<State>, acts: seq<Action>)
    requires Enabled(cfg, s, a) && (a.Local? || a.DropRoom?) && a.t == t
    requires Run(cfg, Next(cfg, s, a), t, states, acts)
    ensures Run(cfg, s, t, [s] + states, [a] + acts)
  {
    hide Next, Enabled;
  }

  lemma OutStep(cfg: Config, s: State, t: ThreadId)
    requires Inv(cfg, s) && !PcOf(s, t).Free?
    ensures var a := Out(t, PcOf(s, t));
      && Enabled(cfg, s, a) && (a.Local? || a.DropRoom?) && a.t == t
      && Rank(PcOf(Next(cfg, s, a), t)) < Rank(PcOf(s, t))
  {
    var pc := PcOf(s, t);
    hide EntryOk, ThreadOk, LocalStep, LocalEnabled, LinksOk, Rank;
    if !pc.Room? {
      OutLeadsOn(cfg, t, pc, s.conns[pc.id], pc.id in s.pool);
    } else {
      assert Rank(Free) < Rank(Room) by { FreeIsLess(); }
    }
  }

  lemma FreeIsLess()
    ensures Rank(Free) < Rank(Room)
  {
  }

  lemma {:induction false} GetsOut(cfg: Config, s: State, t: ThreadId) returns (states: seq<State>, acts: seq<Action>)
    requires Inv(cfg, s)
    ensures Run(cfg, s, t, states, acts) && |acts| <= Rank(PcOf(s, t))
    ensures PcOf(states[|acts|], t) == Free
    decreases Rank(PcOf(s, t))
  {
    if PcOf(s, t).Free? {
      states, acts := [s], [];
    } else {
      hide Inv, Next, Enabled, Rank;
      var a := Out(t, PcOf(s, t));
      OutStep(cfg, s, t);
      NextKeepsInv(cfg, s, a);
      states, acts := GetsOut(cfg, Next(cfg, s, a), t);
      RunOn(cfg, s, t, a, states, acts);
      states, acts := [s] + states, [a] + acts;
    }
  }

  /** From every state of every run each thread can come to its end within five steps of its
      own, with all the others standing still wherever they are. */
  lemma NobodyWaits(cfg: Config, states: seq<State>, acts: seq<Action>, i: nat, t: ThreadId)
    returns (more: seq<State>, own: seq<Action>)
    requires Behaviour(cfg, states, acts) && i < |states|
    ensures Run(cfg, states[i], t, more, own) && |own| <= 5
    ensures PcOf(more[|own|], t) == Free
  {
    hide Inv, Next, Enabled;
    Reachable(cfg, states, acts, i);
    more, own := GetsOut(cfg, states[i], t);
  }
}

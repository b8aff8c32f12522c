/** What a thread has seen of a connection before it acts on it (connection/pool_enhanced.go,
    connection/rebuild_manager.go): the looks are steps of their own, so each holds only of the
    moment it was made. */
module PoolLooks {
  import opened ConnectionStates
  import opened PooledConnections
  import opened PoolProtocol
  import opened Options

  /** Step j is thread t going on from `pc`. */
  predicate Goes(states: seq<State>, acts: seq<Action>, j: nat, t: ThreadId, pc: PC)
    requires |acts| < |states|
  {
    j < |acts| && acts[j].Local? && acts[j].t == t && HasId(pc) && PcOf(states[j], t) == pc && pc.id in states[j].conns
  }

  function Seen(states: seq<State>, j: nat, id: ConnId): Conn
    requires j < |states| && id in states[j].conns
  {
    states[j].conns[id].conn
  }

  // ---------------------------------------------------------------- rebuilders

  predicate FoundIdle(states: seq<State>, acts: seq<Action>, j: nat, t: ThreadId, id: ConnId)
    requires |acts| < |states|
  {
    Goes(states, acts, j, t, Target(id)) && Seen(states, j, id).state == Idle
  }

  predicate FoundUnused(states: seq<State>, acts: seq<Action>, j: nat, t: ThreadId, id: ConnId)
    requires |acts| < |states|
  {
    Goes(states, acts, j, t, TargetIdle(id)) && Seen(states, j, id).using <= 0
  }

  // ---------------------------------------------------------------- evaluators

  predicate FoundUnmarked(states: seq<State>, acts: seq<Action>, j: nat, t: ThreadId, id: ConnId)
    requires |acts| < |states|
  {
    Goes(states, acts, j, t, Judging(id)) && !Seen(states, j, id).marked
  }

  predicate FoundThere(states: seq<State>, acts: seq<Action>, j: nat, t: ThreadId, id: ConnId)
    requires |acts| < |states|
  {
    && Goes(states, acts, j, t, Unmarked(id))
    && Seen(states, j, id).state != Closing && Seen(states, j, id).state != Closed
  }

  predicate FoundStillIdle(states: seq<State>, acts: seq<Action>, j: nat, t: ThreadId, id: ConnId)
    requires |acts| < |states|
  {
    Goes(states, acts, j, t, Looked(id, false)) && Seen(states, j, id).state == Idle
  }

  predicate FoundNotRebuilding(states: seq<State>, acts: seq<Action>, j: nat, t: ThreadId, id: ConnId)
    requires |acts| < |states|
  {
    Goes(states, acts, j, t, SeenIdle(id, false)) && !Seen(states, j, id).rebuilding
  }

  // ---------------------------------------------------------------- owners

  predicate FoundAcquired(states: seq<State>, acts: seq<Action>, j: nat, t: ThreadId, id: ConnId)
    requires |acts| < |states|
  {
    Goes(states, acts, j, t, ExecEntered(id)) && Seen(states, j, id).state == Acquired
  }

  /** What a thread has found before it stands where it stands. */
  ghost predicate Backed(states: seq<State>, acts: seq<Action>, i: nat, t: ThreadId, pc: PC)
    requires i <= |acts| < |states|
  {
    match pc
    case TargetIdle(id) => exists a :: 0 <= a < i && FoundIdle(states, acts, a, t, id)
    case TargetUnused(id) =>
      exists a, b :: 0 <= a < b < i && FoundIdle(states, acts, a, t, id) && FoundUnused(states, acts, b, t, id)
    case Unmarked(id) => exists a :: 0 <= a < i && FoundUnmarked(states, acts, a, t, id)
    case Looked(id, gone) =>
      exists a :: 0 <= a < i && FoundUnmarked(states, acts, a, t, id)
        && (gone || exists b :: a < b < i && FoundThere(states, acts, b, t, id))
    case SeenIdle(id, false) =>
      exists a, b, c :: 0 <= a < b < c < i && FoundUnmarked(states, acts, a, t, id)
        && FoundThere(states, acts, b, t, id) && FoundStillIdle(states, acts, c, t, id)
    case Judged(id) =>
      exists a, b, c, d :: 0 <= a < b < c < d < i && FoundUnmarked(states, acts, a, t, id)
        && FoundThere(states, acts, b, t, id) && FoundStillIdle(states, acts, c, t, id)
        && FoundNotRebuilding(states, acts, d, t, id)
    case ExecSeen(id, true) => exists a :: 0 <= a < i && FoundAcquired(states, acts, a, t, id)
    case Running(id, true) => exists a :: 0 <= a < i && FoundAcquired(states, acts, a, t, id)
    case _ => true
  }

  /** How a thread comes to a place that stands for a look. */
  predicate Looks(pc: PC) {
    pc.TargetIdle? || pc.TargetUnused? || pc.Unmarked? || pc.Looked? || pc.SeenIdle? || pc.Judged?
    || pc.ExecSeen? || pc.Running?
  }

  lemma OwnSteps(cfg: Config, s: State, a: Action, t: ThreadId)
    requires Enabled(cfg, s, a) && PcOf(Next(cfg, s, a), t) != PcOf(s, t) && Looks(PcOf(Next(cfg, s, a), t))
    ensures a.Local? && a.t == t && HasId(PcOf(s, t)) && PcOf(s, t).id in s.conns && LocalEnabled(PcOf(s, t), a.op)
    ensures PcOf(Next(cfg, s, a), t) == LocalStep(cfg, t, PcOf(s, t), s.conns[PcOf(s, t).id], a.op).pc
  {
    hide LocalStep, LocalEnabled;
  }

  /** What the thread must have found to come to the place. */
  lemma LookStep(cfg: Config, t: ThreadId, pc: PC, e: Entry, op: Op)
    requires LocalEnabled(pc, op) && HasId(pc)
    ensures var to, c := LocalStep(cfg, t, pc, e, op).pc, e.conn;
      match to
      case TargetIdle(id) => pc == Target(id) && c.state == Idle
      case TargetUnused(id) => pc == TargetIdle(id) && c.using <= 0
      case Unmarked(id) => pc == Judging(id) && !c.marked
      case Looked(id, gone) => pc == Unmarked(id) && (gone || (c.state != Closing && c.state != Closed))
      case SeenIdle(id, gone) => pc == Looked(id, gone) && c.state == Idle
      case Judged(id) => pc == SeenIdle(id, false) && !c.rebuilding
      case ExecSeen(id, acquired) => pc == ExecEntered(id) && acquired == (c.state == Acquired)
      case Running(id, moved) => pc.ExecSeen? && pc.id == id && (moved ==> pc.acquired)
      case _ => true
  {
  }

  lemma StillBacked(states: seq<State>, acts: seq<Action>, i: nat, t: ThreadId, pc: PC)
    requires 0 < i <= |acts| < |states| && Backed(states, acts, i - 1, t, pc)
    ensures Backed(states, acts, i, t, pc)
  {
    hide FoundIdle, FoundUnused, FoundUnmarked, FoundThere, FoundStillIdle, FoundNotRebuilding, FoundAcquired;
  }

  lemma NewlyBacked(states: seq<State>, acts: seq<Action>, i: nat, t: ThreadId, from: PC, to: PC)
    requires 0 < i <= |acts| < |states| && Backed(states, acts, i - 1, t, from)
    requires Goes(states, acts, i - 1, t, from)
    requires var c := Seen(states, i - 1, from.id);
      match to
      case TargetIdle(id) => from == Target(id) && c.state == Idle
      case TargetUnused(id) => from == TargetIdle(id) && c.using <= 0
      case Unmarked(id) => from == Judging(id) && !c.marked
      case Looked(id, gone) => from == Unmarked(id) && (gone || (c.state != Closing && c.state != Closed))
      case SeenIdle(id, gone) => from == Looked(id, gone) && c.state == Idle
      case Judged(id) => from == SeenIdle(id, false) && !c.rebuilding
      case ExecSeen(id, acquired) => from == ExecEntered(id) && acquired == (c.state == Acquired)
      case Running(id, moved) => from.ExecSeen? && from.id == id && (moved ==> from.acquired)
      case _ => true
    ensures Backed(states, acts, i, t, to)
  {
    match to
    case TargetIdle(id) => assert FoundIdle(states, acts, i - 1, t, id);
    case TargetUnused(id) => assert FoundUnused(states, acts, i - 1, t, id);
    case Unmarked(id) => assert FoundUnmarked(states, acts, i - 1, t, id);
    case Looked(id, gone) => assert !gone ==> FoundThere(states, acts, i - 1, t, id);
    case SeenIdle(id, gone) => assert !gone ==> FoundStillIdle(states, acts, i - 1, t, id);
    case Judged(id) => assert FoundNotRebuilding(states, acts, i - 1, t, id);
    case ExecSeen(id, acquired) => assert acquired ==> FoundAcquired(states, acts, i - 1, t, id);
    case _ =>
    hide FoundIdle, FoundUnused, FoundUnmarked, FoundThere, FoundStillIdle, FoundNotRebuilding, FoundAcquired, Goes;
  }

  /** Nobody acts on what it has not looked at: in every run a rebuilder comes to the gate only
      after it has found the connection Idle and then unused; an evaluator comes to its verdict
      only after it has found it unmarked, there, Idle and not under rebuild, one after the
      other; and an owner moves it to Executing only after it has found it Acquired. */
  lemma {:induction false} EveryLookWasMade(
    cfg: Config, states: seq<State>, acts: seq<Action>, i: nat, t: ThreadId)
    requires Behaviour(cfg, states, acts) && i < |states|
    ensures Backed(states, acts, i, t, PcOf(states[i], t))
  {
    if i > 0 {
      hide Next, Enabled, LocalStep, LocalEnabled, Backed;
      EveryLookWasMade(cfg, states, acts, i - 1, t);
      var s, a, from, to := states[i - 1], acts[i - 1], PcOf(states[i - 1], t), PcOf(states[i], t);
      if from == to {
        StillBacked(states, acts, i, t, to);
      } else if Looks(to) {
        OwnSteps(cfg, s, a, t);
        LookStep(cfg, t, from, s.conns[from.id], a.op);
        NewlyBacked(states, acts, i, t, from, to);
      } else {
        NoLookNeeded(states, acts, i, t, to);
      }
    } else {
      NoLookNeeded(states, acts, 0, t, PcOf(states[0], t));
    }
  }

  lemma NeverToRoom(cfg: Config, t: ThreadId, pc: PC, e: Entry, op: Op)
    requires LocalEnabled(pc, op) && HasId(pc)
    ensures LocalStep(cfg, t, pc, e, op).pc != Room
  {
  }

  lemma RoomStep(cfg: Config, s: State, a: Action, t: ThreadId)
    requires Enabled(cfg, s, a) && PcOf(Next(cfg, s, a), t) == Room
    ensures PcOf(s, t) == Room || (a == SeeRoom(t) && |s.pool| < cfg.maxConnections)
  {
    hide LocalEnabled, LocalStep;
    if a.Local? { NeverToRoom(cfg, a.t, PcOf(s, a.t), s.conns[PcOf(s, a.t).id], a.op); }
  }

  /** A thread sets out to create a connection only after it has found the pool below its limit
      (and it looks once more when it inserts the connection, see MembersChangeIff). */
  lemma {:induction false} RoomWasSeen(cfg: Config, states: seq<State>, acts: seq<Action>, i: nat, t: ThreadId)
    requires Behaviour(cfg, states, acts) && i < |states| && PcOf(states[i], t) == Room
    ensures exists j :: 0 <= j < i && acts[j] == SeeRoom(t) && |states[j].pool| < cfg.maxConnections
  {
    if i > 0 {
      hide Next, Enabled;
      RoomStep(cfg, states[i - 1], acts[i - 1], t);
      if PcOf(states[i - 1], t) == Room { RoomWasSeen(cfg, states, acts, i - 1, t); }
    }
  }

  lemma NoLookNeeded(states: seq<State>, acts: seq<Action>, i: nat, t: ThreadId, pc: PC)
    requires i <= |acts| < |states| && !Looks(pc)
    ensures Backed(states, acts, i, t, pc)
  {
  }
}

/** Behaviours that show where the guarantees of the pool end. */
module PoolWitnesses {
  import opened ConnectionStates
  import opened PooledConnections
  import opened PoolProtocol
  import opened Options
  import opened PoolTheorems

  ghost predicate Reaches(cfg: Config, s: State) {
    exists states, acts :: Behaviour(cfg, states, acts) && states[|states| - 1] == s
  }

  lemma Start(cfg: Config)
    ensures Reaches(cfg, INIT)
  {
    assert Behaviour(cfg, [INIT], []);
  }

  /** One more action. */
  lemma Then(cfg: Config, s: State, a: Action) returns (s': State)
    requires Reaches(cfg, s) && Enabled(cfg, s, a)
    ensures s' == Next(cfg, s, a) && Reaches(cfg, s')
  {
    hide Next, Enabled;
    var states, acts :| Behaviour(cfg, states, acts) && states[|states| - 1] == s;
    s' := Next(cfg, s, a);
    assert Behaviour(cfg, states + [s'], acts + [a]);
  }

  /** One more action of thread t on the connection it stands at. */
  lemma Act(cfg: Config, s: State, t: ThreadId, pc: PC, op: Op) returns (s': State)
    requires Reaches(cfg, s) && PcOf(s, t) == pc && HasId(pc) && pc.id in s.conns && LocalEnabled(pc, op)
    ensures s' == ApplyEffect(s, t, pc.id, LocalStep(cfg, t, pc, s.conns[pc.id], op)) && Reaches(cfg, s')
  {
    hide Reaches, LocalStep, LocalEnabled;
    s' := Then(cfg, s, Local(t, op));
  }

  /** Thread t reads a reference out of the pool. */
  lemma Look(cfg: Config, s: State, t: ThreadId, role: PC) returns (s': State)
    requires Reaches(cfg, s) && PcOf(s, t) == Free
    requires role.Candidate? || role.Target? || role.Judging? || role.Sweeping?
    requires role.id in s.pool && role.id in s.conns
    ensures s' == WithPc(s, t, role) && Reaches(cfg, s')
  {
    hide Reaches;
    s' := Then(cfg, s, Pick(t, role));
  }

  const CFG := Config(1, HealthConfig(1, 1, true, false))

  /** A pool of limit 1 with the idle connection 10. */
  lemma OneIdle() returns (s: State)
    ensures Reaches(CFG, s)
    ensures s.conns == map[10 := FRESH] && s.pool == {10} && s.pcs == map[1 := Free]
    ensures s.warmLeft == s.warmTotal == 0
  {
    Start(CFG);
    s := Then(CFG, INIT, SeeRoom(1));
    s := Then(CFG, s, Publish(1, 10));
    s := Act(CFG, s, 1, Holding(10), Release);
  }

  /** Thread 2 chooses an idle, unused connection for a rebuild and stops before the gate. */
  lemma Aimed(s0: State) returns (s: State)
    requires Reaches(CFG, s0) && PcOf(s0, 2) == Free && 10 in s0.pool && 10 in s0.conns
    requires s0.conns[10].conn.state == Idle && s0.conns[10].conn.using == 0
    ensures Reaches(CFG, s) && s.pcs == s0.pcs[2 := TargetUnused(10)]
    ensures s.conns == s0.conns && s.pool == s0.pool && s.warmTotal == s0.warmTotal
  {
    hide Reaches, Next, Enabled;
    s := Look(CFG, s0, 2, Target(10));
    s := Act(CFG, s, 2, Target(10), Go);
    s := Act(CFG, s, 2, TargetIdle(10), Go);
  }

  /** Through the gate: the connection is Closing. */
  lemma GateTaken(s0: State) returns (s: State)
    requires Reaches(CFG, s0) && PcOf(s0, 2) == TargetUnused(10) && 10 in s0.conns
    requires IsOperational(s0.conns[10].conn.state) && !s0.conns[10].conn.rebuilding
    ensures Reaches(CFG, s) && s.pcs == s0.pcs[2 := Shutting(10)]
    ensures s.warmTotal == s0.warmTotal && s.pool == s0.pool
    ensures var e := s0.conns[10]; s.conns == s0.conns[
      10 := e.(conn := e.conn.(state := Closing, rebuilding := true), rebuilder := Some(2), begun := e.begun + 1)]
  {
    hide Reaches, Next, Enabled;
    s := Act(CFG, s0, 2, TargetUnused(10), Go);
    s := Act(CFG, s, 2, Begun(10), Go);
  }

  /** The Closing connection is removed from the pool and Closed. */
  lemma ClosedDown(s0: State) returns (s: State)
    requires Reaches(CFG, s0) && PcOf(s0, 2) == Shutting(10) && 10 in s0.conns
    requires s0.conns[10].conn.state == Closing
    ensures Reaches(CFG, s) && s.pcs == s0.pcs[2 := Shut(10)] && s.pool == s0.pool - {10}
    ensures s.warmTotal == s0.warmTotal
    ensures s.conns == s0.conns[10 := s0.conns[10].(conn := s0.conns[10].conn.(state := Closed))]
  {
    hide Reaches, Next, Enabled;
    s := Act(CFG, s0, 2, Shutting(10), Go);
    s := Act(CFG, s, 2, Removed(10), Go);
  }

  lemma Swap(s0: State, id: ConnId) returns (s: State)
    requires Reaches(CFG, s0) && PcOf(s0, 2) == Shut(10) && 10 in s0.conns && id !in s0.conns
    ensures Reaches(CFG, s) && s == WithNew(ApplyEffect(s0, 2, 10, SwapEffect(10, s0.conns[10])), id, FRESH)
  {
    hide Reaches;
    s := Then(CFG, s0, AddReplacement(2, id));
  }

  /** The configured maximum alone is no bound: a creation fits into the window between the
      removal of the old connection and the insertion of its replacement. */
  lemma MaximumCanBeExceeded() returns (s: State)
    ensures Reaches(CFG, s) && s.warmTotal == 0 && |s.pool| == 2 && CFG.maxConnections == 1
  {
    hide Reaches, LocalStep, LocalEnabled;
    s := OneIdle();
    s := Aimed(s);
    s := GateTaken(s);
    s := ClosedDown(s);
    assert s.pool == {};
    s := Then(CFG, s, SeeRoom(1));
    s := Then(CFG, s, Publish(1, 11));
    s := Swap(s, 12);
    assert s.pool == {11, 12};
  }

  /** A borrower executes, gives the connection back in order, and another one can have it. */
  lemma BorrowerExecutes() returns (during: State, s: State)
    ensures Reaches(CFG, during) && PcOf(during, 1) == Running(10, true)
    ensures 10 in during.conns && during.conns[10].conn.state == Executing && during.conns[10].conn.using == 1
    ensures Reaches(CFG, s) && PcOf(s, 1) == Free && 10 in s.conns && s.conns[10] == FRESH
    ensures Acquirable(s.conns[10].conn)
  {
    hide Reaches, Next, Enabled;
    s := OneIdle();
    s := Look(CFG, s, 1, Candidate(10));
    s := Act(CFG, s, 1, Candidate(10), Go);
    s := Act(CFG, s, 1, Holding(10), Execute);
    s := Act(CFG, s, 1, ExecEntered(10), Go);
    during := Act(CFG, s, 1, ExecSeen(10, true), Go);
    s := Act(CFG, during, 1, Running(10, true), Go);
    s := Act(CFG, s, 1, ExecLeft(10), Go);
    s := Act(CFG, s, 1, Holding(10), Release);
  }

  /** The idle check is made before the gate, so a rebuild can close a connection that was
      borrowed in between. */
  lemma RebuildCanCloseOwned() returns (s: State)
    ensures Reaches(CFG, s) && OwnedBy(s, 1, 10) && 10 in s.conns && s.conns[10].conn.state == Closing
  {
    hide Reaches, Next, Enabled;
    s := OneIdle();
    s := Aimed(s);
    s := Look(CFG, s, 1, Candidate(10));
    s := Act(CFG, s, 1, Candidate(10), Go);
    s := GateTaken(s);
  }

  /** Thread t has read the mark, which is clear, and seen the connection idle. */
  lemma SawIdle(s0: State, t: ThreadId) returns (s: State)
    requires Reaches(CFG, s0) && PcOf(s0, t) == Free && 10 in s0.pool && 10 in s0.conns
    requires s0.conns[10].conn.state == Idle && !s0.conns[10].conn.marked
    ensures Reaches(CFG, s) && s == WithPc(s0, t, SeenIdle(10, false))
  {
    hide Reaches, Next, Enabled;
    s := Look(CFG, s0, t, Judging(10));
    s := Act(CFG, s, t, Judging(10), Go);
    s := Act(CFG, s, t, Unmarked(10), Go);
    s := Act(CFG, s, t, Looked(10, false), Go);
    assert s.conns == s0.conns;
    assert s.pcs == s0.pcs[t := SeenIdle(10, false)];
  }

  /** Thread t finds the connection fit for a mark and has not set it yet. */
  lemma Judge(s0: State, t: ThreadId) returns (s: State)
    requires Reaches(CFG, s0) && PcOf(s0, t) == Free && 10 in s0.pool && 10 in s0.conns
    requires s0.conns[10].conn.state == Idle && !s0.conns[10].conn.rebuilding && !s0.conns[10].conn.marked
    ensures Reaches(CFG, s) && s == WithPc(s0, t, Judged(10))
  {
    hide Reaches, Next, Enabled;
    s := SawIdle(s0, t);
    s := Act(CFG, s, t, SeenIdle(10, false), Go);
    assert s.conns == s0.conns;
    assert s.pcs == s0.pcs[t := Judged(10)];
  }

  lemma SetMark(s0: State, t: ThreadId) returns (s: State)
    requires Reaches(CFG, s0) && PcOf(s0, t) == Judged(10) && 10 in s0.conns
    ensures Reaches(CFG, s) && s.conns == s0.conns[10 := MarkBy(s0.conns[10], true)]
    ensures s.pool == s0.pool && s.pcs == s0.pcs[t := Free]
  {
    hide Reaches, Next, Enabled;
    s := Act(CFG, s0, t, Judged(10), Go);
  }

  /** The replacement is in: the rebuild completes and clears the mark. */
  lemma Completed(s0: State) returns (s: State)
    requires Reaches(CFG, s0) && PcOf(s0, 2) == Swapped(10) && 10 in s0.conns
    ensures Reaches(CFG, s) && s.conns == s0.conns[10 := Complete(s0.conns[10], true)]
    ensures s.pcs == s0.pcs[2 := Free]
  {
    hide Reaches, Next, Enabled;
    s := Act(CFG, s0, 2, Swapped(10), Go);
  }

  /** Thread 3 judged the connection or was about to; then thread 4 judged it and won the mark. */
  lemma MarkedOnce(early: bool) returns (s: State)
    ensures Reaches(CFG, s) && 10 in s.conns && s.conns[10] == MarkBy(FRESH, true) && 11 !in s.conns
    ensures 10 in s.pool && s.pcs == map[1 := Free, 3 := if early then SeenIdle(10, false) else Judged(10), 4 := Free]
  {
    hide Reaches, Next, Enabled, LocalStep, LocalEnabled;
    s := OneIdle();
    if early { s := SawIdle(s, 3); } else { s := Judge(s, 3); }
    s := Judge(s, 4);
    s := SetMark(s, 4);
  }

  /** The rest of a rebuild, from the closing connection to the cleared mark. */
  lemma Finished(s0: State) returns (s: State)
    requires Reaches(CFG, s0) && PcOf(s0, 2) == Shutting(10) && 10 in s0.conns && 11 !in s0.conns
    requires s0.conns[10].conn.state == Closing
    ensures Reaches(CFG, s) && s.pcs == s0.pcs[2 := Free] && 10 in s.conns
    ensures var e := s0.conns[10];
      s.conns[10] == Complete(e.(conn := e.conn.(state := Closed), replaced := e.replaced + 1), true)
  {
    hide Reaches, Next, Enabled, LocalStep, LocalEnabled;
    var s1 := ClosedDown(s0);
    var s2 := Swap(s1, 11);
    assert s2.pcs == s0.pcs[2 := Swapped(10)];
    s := Completed(s2);
    assert s.pcs == s0.pcs[2 := Free];
  }

  lemma RebuiltAfterMark(early: bool) returns (s: State)
    ensures Reaches(CFG, s) && 10 in s.conns
    ensures s.pcs == map[
      1 := Free, 2 := Free, 3 := if early then SeenIdle(10, false) else Judged(10), 4 := Free]
    ensures s.conns[10].wins == 1 == s.conns[10].clears && !s.conns[10].conn.marked && !s.conns[10].conn.rebuilding
  {
    hide Reaches, Next, Enabled, LocalStep, LocalEnabled;
    var s0 := MarkedOnce(early);
    var s1 := Aimed(s0);
    var s2 := GateTaken(s1);
    s := Finished(s2);
    assert s.pcs == s0.pcs[2 := Free];
  }

  /** An evaluator that judged the connection before its rebuild can win the mark a second
      time afterwards, on a connection that is already Closed and out of the pool. */
  lemma MarkCanBeWonTwice() returns (s: State)
    ensures Reaches(CFG, s) && 10 in s.conns && s.conns[10].wins == 2
  {
    hide Reaches, Next, Enabled, LocalStep, LocalEnabled;
    s := RebuiltAfterMark(false);
    s := SetMark(s, 3);
  }

  /** So can one that had only seen it idle: after the clear it finds no rebuild running. */
  lemma EarlyLookCanMarkAgain() returns (before: State, s: State)
    ensures Reaches(CFG, before) && 10 in before.conns && before.conns[10].clears == 1
    ensures forall t :: PcOf(before, t) != Judged(10) && PcOf(before, t) != Probing(10)
    ensures Reaches(CFG, s) && 10 in s.conns && s.conns[10].wins == 2
  {
    hide Reaches, Next, Enabled;
    before := RebuiltAfterMark(true);
    s := Act(CFG, before, 3, SeenIdle(10, false), Go);
    s := SetMark(s, 3);
  }

  /** Thread 1 borrows the connection for a check and has not got the outcome yet. */
  lemma Examined(s0: State) returns (s: State)
    requires Reaches(CFG, s0) && PcOf(s0, 1) == Free && 10 in s0.pool && 10 in s0.conns
    requires Acquirable(s0.conns[10].conn)
    ensures Reaches(CFG, s) && s.pcs == s0.pcs[1 := Probing(10)] && s.pool == s0.pool
    ensures var e := s0.conns[10];
      s.conns == s0.conns[10 := e.(conn := e.conn.(state := Checking), owner := Some(1))]
  {
    hide Reaches, Next, Enabled;
    s := Look(CFG, s0, 1, Candidate(10));
    s := Act(CFG, s, 1, Candidate(10), Go);
    s := Act(CFG, s, 1, Holding(10), Check);
    s := Act(CFG, s, 1, CheckSeen(10), Go);
  }

  lemma RebuiltDuringCheck() returns (s: State)
    ensures Reaches(CFG, s) && 10 in s.conns && PcOf(s, 1) == Probing(10)
    ensures s.conns[10].wins == 1 && !s.conns[10].conn.marked && s.conns[10].conn.failures == 0
    ensures s.conns[10].conn.state == Closed
  {
    hide Reaches, Next, Enabled, LocalStep, LocalEnabled;
    s := MarkedOnce(false);
    s := Aimed(s);
    s := Examined(s);
    s := GateTaken(s);
    s := Finished(s);
  }

  /** A check that was under way during the rebuild can win the mark a second time, too. */
  lemma CheckCanMarkAgain() returns (s: State)
    ensures Reaches(CFG, s) && 10 in s.conns && s.conns[10].wins == 2
  {
    hide Reaches, Next, Enabled;
    s := RebuiltDuringCheck();
    s := Act(CFG, s, 1, Probing(10), Outcome(false));
  }
}

/** When the rebuild mark of a connection is won, and when it is won a second time. */
module PoolMarks {
  import opened PooledConnections
  import opened PoolProtocol
  import opened PoolTheorems

  /** A failing check would reach a grade that marks. */
  predicate FailureMarks(cfg: Config, e: Entry) {
    var n, h := e.conn.failures + 1, cfg.health;
    || (n >= h.unhealthyThreshold && h.triggerRebuild)
    || (h.degradedThreshold <= n < h.unhealthyThreshold && h.rebuildOnDegraded)
  }

  /** Thread t can still mark the connection once no rebuild is running: it has judged it fit,
      it has seen it idle and has only to ask whether it is being rebuilt, or it is probing it
      and a failure would mark. */
  predicate WouldMark(cfg: Config, s: State, t: ThreadId, id: ConnId) {
    && id in s.conns
    && (|| PcOf(s, t) == Judged(id)
        || PcOf(s, t) == SeenIdle(id, false)
        || (PcOf(s, t) == Probing(id) && FailureMarks(cfg, s.conns[id])))
  }

  ghost predicate LateMarker(cfg: Config, s: State, id: ConnId) {
    exists t :: WouldMark(cfg, s, t, id)
  }

  /** The step sets a mark if it is clear. */
  predicate Marks(cfg: Config, s: State, a: Action, id: ConnId) {
    && a.Local? && id in s.conns
    && (|| (PcOf(s, a.t) == Judged(id) && a.op == Go)
        || (PcOf(s, a.t) == Probing(id) && a.op == Outcome(false) && FailureMarks(cfg, s.conns[id])))
  }

  lemma LocalMarks(cfg: Config, t: ThreadId, pc: PC, e: Entry, op: Op)
    requires LocalEnabled(pc, op) && HasId(pc) && !e.conn.marked
    ensures LocalStep(cfg, t, pc, e, op).e.conn.marked <==>
      || (pc.Judged? && op == Go)
      || (pc.Probing? && op == Outcome(false) && FailureMarks(cfg, e))
  {
  }

  /** A clear mark is won exactly by a judge that goes on, or by a check that fails into a
      marking grade. */
  lemma MarkIsWonExactly(cfg: Config, s: State, a: Action, id: ConnId)
    requires Enabled(cfg, s, a) && id in s.conns && !Marked(s, id)
    ensures Marked(Next(cfg, s, a), id) <==> Marks(cfg, s, a, id)
  {
    hide LocalStep, FailureMarks;
    if OnConn(s, a, id) { LocalMarks(cfg, a.t, PcOf(s, a.t), s.conns[id], a.op); }
  }

  /** A rebuild has completed and cleared the mark. */
  predicate Cleared(s: State, id: ConnId) {
    id in s.conns && s.conns[id].clears == 1
  }

  lemma LocalAfterClear(cfg: Config, t: ThreadId, pc: PC, e: Entry, pooled: bool, op: Op)
    requires LocalEnabled(pc, op) && HasId(pc) && EntryOk(cfg, e, pooled) && e.clears == 1
    ensures var f := LocalStep(cfg, t, pc, e, op);
      && f.e.clears == 1 && !f.pc.SeenIdle? && !f.pc.Probing?
      && (f.pc.Judged? ==> pc.SeenIdle? && !pc.gone)
      && (!pc.Probing? ==> f.e.conn.failures == e.conn.failures)
  {
    hide TrailingFailures, HealthOf;
  }

  /** A thread stands in a check or well into its verdict after a step only if it stood there
      before or made a step on its own connection. */
  lemma StoodThere(cfg: Config, s: State, a: Action, t: ThreadId)
    requires Enabled(cfg, s, a)
    ensures PcOf(Next(cfg, s, a), t) == PcOf(s, t) || (!a.RequestWarmUp? && !a.WarmAdd? && a.t == t)
    ensures !a.Local? && PcOf(Next(cfg, s, a), t) != PcOf(s, t) ==>
      var pc := PcOf(Next(cfg, s, a), t); !pc.Judged? && !pc.SeenIdle? && !pc.Probing?
  {
    hide LocalStep, LocalEnabled;
  }

  lemma LocalKeepsId(cfg: Config, t: ThreadId, pc: PC, e: Entry, op: Op)
    requires LocalEnabled(pc, op) && HasId(pc)
    ensures HasId(LocalStep(cfg, t, pc, e, op).pc) ==> LocalStep(cfg, t, pc, e, op).pc.id == pc.id
  {
  }

  lemma OneProber(cfg: Config, s: State, t1: ThreadId, t2: ThreadId, id: ConnId)
    requires Inv(cfg, s) && PcOf(s, t1) == Probing(id) == PcOf(s, t2)
    ensures t1 == t2
  {
    assert ThreadOk(t1, s.pcs[t1], s.conns[id], id in s.pool) && ThreadOk(t2, s.pcs[t2], s.conns[id], id in s.pool);
    hide EntryOk;
  }

  /** After the clear nobody newly gets to a place from which it could mark. */
  lemma NoNewMarker(cfg: Config, s: State, a: Action, id: ConnId, t: ThreadId)
    requires Inv(cfg, s) && Enabled(cfg, s, a) && Cleared(s, id) && WouldMark(cfg, Next(cfg, s, a), t, id)
    ensures WouldMark(cfg, s, t, id)
  {
    StoodThere(cfg, s, a, t);
    if OnConn(s, a, id) {
      assert EntryOk(cfg, s.conns[id], id in s.pool);
      LocalAfterClear(cfg, a.t, PcOf(s, a.t), s.conns[id], id in s.pool, a.op);
      if PcOf(s, t) == Probing(id) && PcOf(s, a.t) == Probing(id) { OneProber(cfg, s, t, a.t, id); }
    } else {
      OffConn(cfg, s, a, id);
      if a.Local? { LocalKeepsId(cfg, a.t, PcOf(s, a.t), s.conns[PcOf(s, a.t).id], a.op); }
    }
    hide LocalStep, LocalEnabled, EntryOk, Inv, FailureMarks, OwnerOk, RebuilderOk;
  }

  lemma ClearedStays(cfg: Config, s: State, a: Action, id: ConnId)
    requires Inv(cfg, s) && Enabled(cfg, s, a) && Cleared(s, id)
    ensures Cleared(Next(cfg, s, a), id)
  {
    if OnConn(s, a, id) {
      assert EntryOk(cfg, s.conns[id], id in s.pool);
      LocalAfterClear(cfg, a.t, PcOf(s, a.t), s.conns[id], id in s.pool, a.op);
    } else {
      OffConn(cfg, s, a, id);
    }
    hide LocalStep, LocalEnabled, EntryOk, Inv;
  }

  ghost predicate CanBeMarkedAgain(cfg: Config, s: State, id: ConnId) {
    exists states, acts :: Continuation(cfg, s, states, acts) && Marked(states[|states| - 1], id)
  }

  lemma MarkerStoodReady(cfg: Config, s: State, a: Action, id: ConnId)
    ensures Marks(cfg, s, a, id) ==> WouldMark(cfg, s, a.t, id)
  {
  }

  lemma ClearStep(cfg: Config, s: State, a: Action, id: ConnId)
    requires Inv(cfg, s) && Enabled(cfg, s, a) && Cleared(s, id) && !Marked(s, id) && !LateMarker(cfg, s, id)
    ensures var s' := Next(cfg, s, a);
      Inv(cfg, s') && Cleared(s', id) && !Marked(s', id) && !LateMarker(cfg, s', id)
  {
    NextKeepsInv(cfg, s, a);
    ClearedStays(cfg, s, a, id);
    MarkIsWonExactly(cfg, s, a, id);
    assert !Marks(cfg, s, a, id) by { MarkerStoodReady(cfg, s, a, id); }
    hide Inv, Next, Enabled, Cleared, WouldMark, Marks;
    if t :| WouldMark(cfg, Next(cfg, s, a), t, id) {
      NoNewMarker(cfg, s, a, id, t);
    }
  }

  lemma {:induction false} StaysClear(
    cfg: Config, s: State, states: seq<State>, acts: seq<Action>, i: nat, id: ConnId)
    requires Continuation(cfg, s, states, acts) && i < |states|
    requires Inv(cfg, s) && Cleared(s, id) && !Marked(s, id) && !LateMarker(cfg, s, id)
    ensures Inv(cfg, states[i]) && Cleared(states[i], id)
    ensures !Marked(states[i], id) && !LateMarker(cfg, states[i], id)
  {
    hide Inv, Next, Enabled, Cleared, LateMarker, Marked;
    if i > 0 {
      StaysClear(cfg, s, states, acts, i - 1, id);
      ClearStep(cfg, states[i - 1], acts[i - 1], id);
    }
  }

  /** One more step on the way to the mark. */
  lemma OneStepMarks(cfg: Config, s: State, a: Action, id: ConnId)
    requires Enabled(cfg, s, a) && id in s.conns && !Marked(s, id) && Marks(cfg, s, a, id)
    ensures CanBeMarkedAgain(cfg, s, id)
  {
    MarkIsWonExactly(cfg, s, a, id);
    hide Enabled, Next, Marks;
    assert Continuation(cfg, s, [s, Next(cfg, s, a)], [a]);
  }

  lemma TwoStepsMark(cfg: Config, s: State, a: Action, b: Action, id: ConnId)
    requires Enabled(cfg, s, a) && Enabled(cfg, Next(cfg, s, a), b) && Marked(Next(cfg, Next(cfg, s, a), b), id)
    ensures CanBeMarkedAgain(cfg, s, id)
  {
    hide Enabled, Next;
    var s1 := Next(cfg, s, a);
    assert Continuation(cfg, s, [s, s1, Next(cfg, s1, b)], [a, b]);
  }

  /** Asking whether a rebuild is running, and then marking. */
  lemma SeenIdleMarks(cfg: Config, s: State, t: ThreadId, id: ConnId)
    requires id in s.conns && !s.conns[id].conn.rebuilding && !Marked(s, id) && PcOf(s, t) == SeenIdle(id, false)
    ensures CanBeMarkedAgain(cfg, s, id)
  {
    hide CanBeMarkedAgain, FailureMarks;
    var s1 := Next(cfg, s, Local(t, Go));
    assert PcOf(s1, t) == Judged(id) && !Marked(s1, id);
    MarkIsWonExactly(cfg, s1, Local(t, Go), id);
    TwoStepsMark(cfg, s, Local(t, Go), Local(t, Go), id);
  }

  lemma WouldMarkDoes(cfg: Config, s: State, t: ThreadId, id: ConnId)
    requires Inv(cfg, s) && Cleared(s, id) && !Marked(s, id) && WouldMark(cfg, s, t, id)
    ensures CanBeMarkedAgain(cfg, s, id)
  {
    assert EntryOk(cfg, s.conns[id], id in s.pool);
    hide Inv, EntryOk, CanBeMarkedAgain, FailureMarks, Next;
    match PcOf(s, t)
    case Judged(_) => OneStepMarks(cfg, s, Local(t, Go), id);
    case Probing(_) => OneStepMarks(cfg, s, Local(t, Outcome(false)), id);
    case SeenIdle(_, _) =>
      NotRebuilding(cfg, s.conns[id], id in s.pool);
      SeenIdleMarks(cfg, s, t, id);
  }

  lemma NotRebuilding(cfg: Config, e: Entry, pooled: bool)
    requires EntryOk(cfg, e, pooled) && e.clears == 1
    ensures !e.conn.rebuilding
  {
  }

  /** A cleared mark can be won again if and only if some thread already stands where it can
      still mark: at its verdict, between seeing the connection idle and asking whether it is
      being rebuilt, or in a check whose failure would mark. */
  lemma MarkWonAgainIff(cfg: Config, s: State, id: ConnId)
    requires Inv(cfg, s) && Cleared(s, id) && !Marked(s, id)
    ensures CanBeMarkedAgain(cfg, s, id) <==> LateMarker(cfg, s, id)
  {
    if t :| WouldMark(cfg, s, t, id) {
      WouldMarkDoes(cfg, s, t, id);
    }
    hide Inv, Next, Enabled, Cleared, Marked, LateMarker;
    if !LateMarker(cfg, s, id) && CanBeMarkedAgain(cfg, s, id) {
      var states, acts :| Continuation(cfg, s, states, acts) && Marked(states[|states| - 1], id);
      StaysClear(cfg, s, states, acts, |acts|, id);
      assert false;
    }
  }

  lemma LocalClears(cfg: Config, t: ThreadId, pc: PC, e: Entry, op: Op)
    requires LocalEnabled(pc, op) && HasId(pc) && LocalStep(cfg, t, pc, e, op).e.clears != e.clears
    ensures !LocalStep(cfg, t, pc, e, op).e.conn.marked
  {
  }

  lemma ClearingUnmarks(cfg: Config, s: State, a: Action, id: ConnId)
    requires Enabled(cfg, s, a) && Cleared(Next(cfg, s, a), id) && !Cleared(s, id)
    ensures !Marked(Next(cfg, s, a), id)
  {
    hide LocalStep, LocalEnabled;
    if a.Local? && PcOf(s, a.t).id == id && LocalEnabled(PcOf(s, a.t), a.op) {
      if LocalStep(cfg, a.t, PcOf(s, a.t), s.conns[id], a.op).e.clears != s.conns[id].clears {
        LocalClears(cfg, a.t, PcOf(s, a.t), s.conns[id], a.op);
      }
    }
  }

  /** No thread stands where it can still mark at the moment a rebuild clears the mark. */
  ghost predicate ClearsAlone(cfg: Config, states: seq<State>, id: ConnId, n: nat)
    requires n < |states|
  {
    forall i :: 1 <= i <= n && Cleared(states[i], id) && !Cleared(states[i - 1], id) ==> !LateMarker(cfg, states[i], id)
  }

  lemma {:induction false} ClearedAloneStaysClear(
    cfg: Config, states: seq<State>, acts: seq<Action>, id: ConnId, n: nat)
    requires Behaviour(cfg, states, acts) && n <= |acts| && ClearsAlone(cfg, states, id, n)
    ensures Cleared(states[n], id) ==> !Marked(states[n], id) && !LateMarker(cfg, states[n], id)
  {
    if n > 0 {
      hide Inv, Next, Enabled, Cleared, LateMarker, Marked;
      ClearedAloneStaysClear(cfg, states, acts, id, n - 1);
      Reachable(cfg, states, acts, n - 1);
      if Cleared(states[n - 1], id) {
        ClearStep(cfg, states[n - 1], acts[n - 1], id);
      } else if Cleared(states[n], id) {
        ClearingUnmarks(cfg, states[n - 1], acts[n - 1], id);
      }
    }
  }

  /** In a run in which rebuilds clear the mark with no such thread about, it is won at most once. */
  lemma WonOnceIfClearedAlone(cfg: Config, states: seq<State>, acts: seq<Action>, id: ConnId, n: nat)
    requires Behaviour(cfg, states, acts) && n <= |acts| && ClearsAlone(cfg, states, id, n)
    ensures MarkWins(states, acts, id, n) <= 1
  {
    Reachable(cfg, states, acts, n);
    HistoryIsTrue(cfg, states, acts, id, n);
    ClearedAloneStaysClear(cfg, states, acts, id, n);
    hide Next, Enabled, LateMarker, ThreadsOk, LinksOk, ClearsAlone;
    if id in states[n].conns {
      assert EntryOk(cfg, states[n].conns[id], id in states[n].pool);
    }
  }
}

/** What the pool protocol guarantees over whole behaviours. */
module PoolTheorems {
  import opened ConnectionStates
  import opened PooledConnections
  import opened PoolProtocol
  import opened Options

  // ---------------------------------------------------------------- ownership

  predicate OwnedBy(s: State, t: ThreadId, id: ConnId) {
    Owns(PcOf(s, t)) && PcOf(s, t).id == id
  }

  ghost predicate Owned(s: State, id: ConnId) {
    exists t :: OwnedBy(s, t, id)
  }

  lemma AtMostOneOwner(
    cfg: Config, states: seq<State>, acts: seq<Action>, i: nat, id: ConnId, t1: ThreadId, t2: ThreadId)
    requires Behaviour(cfg, states, acts) && i < |states|
    requires OwnedBy(states[i], t1, id) && OwnedBy(states[i], t2, id)
    ensures t1 == t2
  {
    hide EntryOk;
    Reachable(cfg, states, acts, i);
  }

  /** No failed execute and no failed check leaks a connection: what nobody owns is Idle
      and unused, or on its way out; what somebody owns is in use, or on its way out. */
  lemma OwnershipDecidesState(cfg: Config, states: seq<State>, acts: seq<Action>, i: nat, id: ConnId)
    requires Behaviour(cfg, states, acts) && i < |states| && id in states[i].conns
    ensures var c := states[i].conns[id].conn;
      if Owned(states[i], id)
      then c.state in {Acquired, Executing, Checking, Closing, Closed}
      else c.state in {Idle, Closing, Closed} && c.using == 0
  {
    Reachable(cfg, states, acts, i);
    var s := states[i];
    assert EntryOk(cfg, s.conns[id], id in s.pool);
    if s.conns[id].owner.Some? {
      assert OwnedBy(s, s.conns[id].owner.value, id);
    }
  }

  // ---------------------------------------------------------------- states and members

  lemma LocalMoves(cfg: Config, t: ThreadId, pc: PC, e: Entry, op: Op)
    requires LocalEnabled(pc, op) && HasId(pc)
    ensures var f := LocalStep(cfg, t, pc, e, op);
      && (f.e.conn.state == e.conn.state || CanTransition(e.conn.state, f.e.conn.state))
      && (f.removes <==> op == Go && (pc.Shutting? || pc.Sweeping?))
  {
  }

  /** A step moves a connection along the state machine or leaves its state alone. */
  lemma StateStep(cfg: Config, s: State, a: Action, id: ConnId)
    requires Enabled(cfg, s, a) && id in s.conns
    ensures id in Next(cfg, s, a).conns
    ensures var from, to := s.conns[id].conn.state, Next(cfg, s, a).conns[id].conn.state;
      from == to || CanTransition(from, to)
  {
    hide LocalStep, LocalEnabled, CanTransition;
    if a.Local? { LocalMoves(cfg, a.t, PcOf(s, a.t), s.conns[PcOf(s, a.t).id], a.op); }
  }

  /** Whatever all the threads do, what one connection goes through is a walk through the
      state machine: no interleaving of the lock sections makes a forbidden transition. */
  lemma {:induction false} HistoryIsAWalk(
    cfg: Config, states: seq<State>, acts: seq<Action>, i: nat, j: nat, id: ConnId) returns (p: seq<ConnState>)
    requires Behaviour(cfg, states, acts) && i <= j < |states| && id in states[i].conns
    ensures id in states[j].conns && Walk(p)
    ensures p != [] && p[0] == states[i].conns[id].conn.state && p[|p| - 1] == states[j].conns[id].conn.state
    ensures |p| <= j - i + 1
  {
    hide Next, Enabled, CanTransition;
    if i == j {
      p := [states[i].conns[id].conn.state];
    } else {
      p := HistoryIsAWalk(cfg, states, acts, i, j - 1, id);
      StateStep(cfg, states[j - 1], acts[j - 1], id);
      var to := states[j].conns[id].conn.state;
      if to != p[|p| - 1] { p := p + [to]; }
    }
  }

  /** A connection leaves the pool exactly when a rebuilder or a cleaner takes it out, and
      joins it exactly as a new connection under the limit, as a replacement or as warm-up. */
  lemma MembersChangeIff(cfg: Config, s: State, a: Action, id: ConnId)
    requires Inv(cfg, s) && Enabled(cfg, s, a)
    ensures id in s.pool ==>
      (id !in Next(cfg, s, a).pool <==>
         a.Local? && a.op == Go && (PcOf(s, a.t) == Shutting(id) || PcOf(s, a.t) == Sweeping(id)))
    ensures id !in s.pool ==>
      (id in Next(cfg, s, a).pool <==>
         || (a.Publish? && a.id == id && |s.pool| < cfg.maxConnections)
         || (a.AddReplacement? && a.id == id)
         || (a.WarmAdd? && a.id == id))
  {
    assert s.pool <= s.conns.Keys;
    hide LocalStep, LocalEnabled, Inv;
    if a.Local? { LocalMoves(cfg, a.t, PcOf(s, a.t), s.conns[PcOf(s, a.t).id], a.op); }
  }

  // ---------------------------------------------------------------- health

  /** The history ends in exactly n failures. */
  predicate EndsInFailures(checks: seq<bool>, n: nat) {
    && n <= |checks|
    && (forall i :: |checks| - n <= i < |checks| ==> !checks[i])
    && (n < |checks| ==> checks[|checks| - n - 1])
  }

  lemma {:induction false} TrailingEnds(checks: seq<bool>)
    ensures EndsInFailures(checks, TrailingFailures(checks))
  {
    if checks != [] && !checks[|checks| - 1] { TrailingEnds(checks[..|checks| - 1]); }
  }

  /** Status, failure count and rebuild mark always follow the history of checks. */
  lemma HealthFollowsChecks(cfg: Config, states: seq<State>, acts: seq<Action>, i: nat, id: ConnId)
    requires Behaviour(cfg, states, acts) && i < |states| && id in states[i].conns
    ensures var e, h := states[i].conns[id], cfg.health;
      var n, u := e.conn.failures, h.unhealthyThreshold;
      && EndsInFailures(e.checks, n) && n <= (if u >= 1 then u else 1)
      && (e.conn.health == Unknown <==> e.checks == [])
      && (e.conn.health == Unhealthy <==> n > 0 && n >= u)
      && (e.conn.health == Degraded <==> n > 0 && h.degradedThreshold <= n < u)
      && (e.conn.state != Closed && e.conn.health == Unhealthy && h.triggerRebuild ==> e.conn.marked)
      && (e.conn.state != Closed && e.conn.health == Degraded && h.rebuildOnDegraded ==> e.conn.marked)
  {
    Reachable(cfg, states, acts, i);
    var e := states[i].conns[id];
    assert EntryOk(cfg, e, id in states[i].pool);
    TrailingEnds(e.checks);
  }

  lemma UnhealthyStep(cfg: Config, t: ThreadId, pc: PC, e: Entry, pooled: bool, op: Op)
    requires LocalEnabled(pc, op) && HasId(pc) && ThreadOk(t, pc, e, pooled) && e.conn.health == Unhealthy
    ensures LocalStep(cfg, t, pc, e, op).e.conn.health == Unhealthy
    ensures LocalStep(cfg, t, pc, e, op).e.checks == e.checks
  {
    assert !pc.Probing?;
    hide RebuilderOk;
  }

  /** Checks are made by owners only, and only on connections that are not Unhealthy. */
  lemma UnhealthyIsNotTouched(cfg: Config, s: State, a: Action, id: ConnId)
    requires Inv(cfg, s) && Enabled(cfg, s, a) && id in s.conns && s.conns[id].conn.health == Unhealthy
    ensures id in Next(cfg, s, a).conns && Next(cfg, s, a).conns[id].conn.health == Unhealthy
    ensures Next(cfg, s, a).conns[id].checks == s.conns[id].checks
  {
    hide EntryOk, Polite, LocalStep, LocalEnabled, OwnerOk, RebuilderOk, EntriesOk, LinksOk, ThreadOk;
    match a
    case Local(t, op) =>
      var pc := PcOf(s, t);
      assert ThreadOk(t, pc, s.conns[pc.id], pc.id in s.pool);
      if pc.id == id { UnhealthyStep(cfg, t, pc, s.conns[id], id in s.pool, op); }
    case _ =>
  }

  lemma {:induction false} UnhealthyIsForever(
    cfg: Config, states: seq<State>, acts: seq<Action>, i: nat, j: nat, id: ConnId)
    requires Behaviour(cfg, states, acts) && i <= j < |states|
    requires id in states[i].conns && states[i].conns[id].conn.health == Unhealthy
    ensures id in states[j].conns && states[j].conns[id].conn.health == Unhealthy
    ensures states[j].conns[id].checks == states[i].conns[id].checks
  {
    hide Inv, Next, Enabled;
    if i < j {
      UnhealthyIsForever(cfg, states, acts, i, j - 1, id);
      Reachable(cfg, states, acts, j - 1);
      UnhealthyIsNotTouched(cfg, states[j - 1], acts[j - 1], id);
    }
  }

  // ---------------------------------------------------------------- rebuilds

  predicate PassesGate(s: State, a: Action, id: ConnId) {
    a.Local? && PcOf(s, a.t) == TargetUnused(id) && id in s.conns && CanBeginRebuild(s.conns[id].conn)
  }

  predicate Replaces(s: State, a: Action, id: ConnId) {
    a.AddReplacement? && PcOf(s, a.t) == Shut(id)
  }

  predicate Marked(s: State, id: ConnId) {
    id in s.conns && s.conns[id].conn.marked
  }

  /** Rebuilds of `id` that passed beginRebuild among the first n actions. */
  function Gates(states: seq<State>, acts: seq<Action>, id: ConnId, n: nat): nat
    requires n <= |acts| && |states| == |acts| + 1
  {
    if n == 0 then 0
    else Gates(states, acts, id, n - 1) + if PassesGate(states[n - 1], acts[n - 1], id) then 1 else 0
  }

  function Replacements(states: seq<State>, acts: seq<Action>, id: ConnId, n: nat): nat
    requires n <= |acts| && |states| == |acts| + 1
  {
    if n == 0 then 0
    else Replacements(states, acts, id, n - 1) + if Replaces(states[n - 1], acts[n - 1], id) then 1 else 0
  }

  /** How often the mark of `id` was won: it went from clear to set. */
  function MarkWins(states: seq<State>, acts: seq<Action>, id: ConnId, n: nat): nat
    requires n <= |acts| && |states| == |acts| + 1
  {
    if n == 0 then 0
    else MarkWins(states, acts, id, n - 1) + if !Marked(states[n - 1], id) && Marked(states[n], id) then 1 else 0
  }

  function EntryOf(s: State, id: ConnId): Entry {
    if id in s.conns then s.conns[id] else FRESH
  }

  lemma LocalCounts(cfg: Config, t: ThreadId, pc: PC, e: Entry, op: Op)
    requires LocalEnabled(pc, op) && HasId(pc)
    ensures var e' := LocalStep(cfg, t, pc, e, op).e;
      && e'.begun == e.begun + (if pc.TargetUnused? && CanBeginRebuild(e.conn) then 1 else 0)
      && e'.replaced == e.replaced
      && e'.wins == e.wins + (if !e.conn.marked && e'.conn.marked then 1 else 0)
  {
  }

  lemma StepCounts(cfg: Config, s: State, a: Action, id: ConnId)
    requires Enabled(cfg, s, a)
    ensures var e, e' := EntryOf(s, id), EntryOf(Next(cfg, s, a), id);
      && e'.begun == e.begun + (if PassesGate(s, a, id) then 1 else 0)
      && e'.replaced == e.replaced + (if Replaces(s, a, id) then 1 else 0)
      && e'.wins == e.wins + (if !Marked(s, id) && Marked(Next(cfg, s, a), id) then 1 else 0)
  {
    hide LocalStep, LocalEnabled, CanBeginRebuild;
    if a.Local? {
      var pc := PcOf(s, a.t);
      LocalCounts(cfg, a.t, pc, s.conns[pc.id], a.op);
    }
  }

  /** The history fields are the true counts of the behaviour. */
  lemma {:induction false} HistoryIsTrue(cfg: Config, states: seq<State>, acts: seq<Action>, id: ConnId, n: nat)
    requires Behaviour(cfg, states, acts) && n <= |acts|
    ensures EntryOf(states[n], id).begun == Gates(states, acts, id, n)
    ensures EntryOf(states[n], id).replaced == Replacements(states, acts, id, n)
    ensures EntryOf(states[n], id).wins == MarkWins(states, acts, id, n)
  {
    if n > 0 {
      hide Next, Enabled, PassesGate, Replaces;
      HistoryIsTrue(cfg, states, acts, id, n - 1);
      StepCounts(cfg, states[n - 1], acts[n - 1], id);
    }
  }

  /** Over any behaviour at most one rebuild of a connection passes the gate and it gets at
      most one replacement. Its mark is won once for as long as it is not both Closed and
      out of the pool, and never more than twice; it is cleared only once it is replaced. */
  lemma RebuiltAtMostOnce(cfg: Config, states: seq<State>, acts: seq<Action>, id: ConnId, n: nat)
    requires Behaviour(cfg, states, acts) && n <= |acts|
    ensures Replacements(states, acts, id, n) <= Gates(states, acts, id, n) <= 1
    ensures MarkWins(states, acts, id, n) <= 2
    ensures MarkWins(states, acts, id, n) == 2 ==>
      id in states[n].conns && states[n].conns[id].conn.state == Closed && id !in states[n].pool
    ensures MarkWins(states, acts, id, n) == 1 && !Marked(states[n], id) ==>
      id in states[n].conns && states[n].conns[id].conn.state == Closed && id !in states[n].pool
    ensures MarkWins(states, acts, id, n) > (if Marked(states[n], id) then 1 else 0) ==>
      Replacements(states, acts, id, n) == 1
  {
    Reachable(cfg, states, acts, n);
    HistoryIsTrue(cfg, states, acts, id, n);
    if id in states[n].conns {
      assert EntryOk(cfg, states[n].conns[id], id in states[n].pool);
    }
  }

  /** The rebuilder that passed the gate always gets to close: the "abnormal state" exit
      and the "already closing" branches are never taken. */
  lemma RebuilderAlwaysCloses(cfg: Config, states: seq<State>, acts: seq<Action>, i: nat, t: ThreadId)
    requires Behaviour(cfg, states, acts) && i < |states|
    ensures !PcOf(states[i], t).Abnormal?
    ensures PcOf(states[i], t).Begun? ==>
      PcOf(states[i], t).id in states[i].conns
      && CanTransition(states[i].conns[PcOf(states[i], t).id].conn.state, Closing)
  {
    hide EntryOk;
    Reachable(cfg, states, acts, i);
    var s := states[i];
    if t in s.pcs && HasId(s.pcs[t]) {
      assert ThreadOk(t, s.pcs[t], s.conns[s.pcs[t].id], s.pcs[t].id in s.pool);
      if s.pcs[t].Begun? {
        assert EntryOk(cfg, s.conns[s.pcs[t].id], s.pcs[t].id in s.pool);
        NeverConnecting(cfg, s.conns[s.pcs[t].id], s.pcs[t].id in s.pool);
      }
    }
  }

  lemma NeverConnecting(cfg: Config, e: Entry, pooled: bool)
    requires EntryOk(cfg, e, pooled)
    ensures e.conn.state != Connecting
  {
  }

  // ---------------------------------------------------------------- closing under an owner

  /** The step is one of a thread on this connection. */
  predicate OnConn(s: State, a: Action, id: ConnId) {
    a.Local? && HasId(PcOf(s, a.t)) && PcOf(s, a.t).id == id
  }

  /** Any other step leaves the state and the mark of the connection alone. */
  lemma OffConn(cfg: Config, s: State, a: Action, id: ConnId)
    requires Enabled(cfg, s, a) && id in s.conns && !OnConn(s, a, id)
    ensures id in Next(cfg, s, a).conns
    ensures var e := s.conns[id]; Next(cfg, s, a).conns[id] in {e, e.(replaced := e.replaced + 1)}
  {
    hide LocalStep, LocalEnabled;
  }

  /** Step i begins to close the connection `id` for a rebuild. */
  predicate ClosesFor(s: State, a: Action, id: ConnId) {
    a.Local? && PcOf(s, a.t) == Begun(id)
  }

  lemma NotIdleIsOwned(cfg: Config, e: Entry, pooled: bool)
    requires EntryOk(cfg, e, pooled) && !Gone(e.conn)
    ensures e.owner.Some? <==> e.conn.state != Idle
  {
  }

  lemma OwnedIffRecorded(cfg: Config, s: State, id: ConnId)
    requires Inv(cfg, s) && id in s.conns
    ensures Owned(s, id) <==> s.conns[id].owner.Some?
  {
    hide EntryOk, OwnerOk, RebuilderOk;
    if s.conns[id].owner.Some? { assert OwnedBy(s, s.conns[id].owner.value, id); }
  }

  lemma BegunIsNotGone(cfg: Config, s: State, t: ThreadId, id: ConnId)
    requires Inv(cfg, s) && PcOf(s, t) == Begun(id)
    ensures id in s.conns && !Gone(s.conns[id].conn) && EntryOk(cfg, s.conns[id], id in s.pool)
  {
    hide EntryOk;
    assert ThreadOk(t, s.pcs[t], s.conns[id], id in s.pool);
  }

  /** A rebuild closes a connection under its owner if and only if the connection is not Idle
      at that moment: the guard that the code checks before the gate and does not repeat. */
  lemma ClosesOwnedIff(cfg: Config, states: seq<State>, acts: seq<Action>, i: nat, id: ConnId)
    requires Behaviour(cfg, states, acts) && i < |acts| && ClosesFor(states[i], acts[i], id)
    ensures id in states[i].conns && id in states[i + 1].conns && states[i + 1].conns[id].conn.state == Closing
    ensures Owned(states[i + 1], id) <==> states[i].conns[id].conn.state != Idle
  {
    var s := states[i];
    Reachable(cfg, states, acts, i);
    Reachable(cfg, states, acts, i + 1);
    RebuilderAlwaysCloses(cfg, states, acts, i, acts[i].t);
    BegunIsNotGone(cfg, s, acts[i].t, id);
    NotIdleIsOwned(cfg, s.conns[id], id in s.pool);
    OwnedIffRecorded(cfg, states[i + 1], id);
    hide Inv, EntryOk;
  }

  lemma LocalNoNewOwner(cfg: Config, t: ThreadId, pc: PC, e: Entry, pooled: bool, op: Op)
    requires LocalEnabled(pc, op) && HasId(pc) && EntryOk(cfg, e, pooled) && e.begun >= 1 && e.owner.None?
    ensures var e' := LocalStep(cfg, t, pc, e, op).e; e'.begun >= 1 && e'.owner.None?
  {
    hide TrailingFailures, HealthOf;
  }

  /** A connection whose rebuild has passed the gate gets no new owner. */
  lemma NoNewOwner(cfg: Config, s: State, a: Action, id: ConnId)
    requires Inv(cfg, s) && Enabled(cfg, s, a) && id in s.conns
    requires s.conns[id].begun >= 1 && s.conns[id].owner.None?
    ensures id in Next(cfg, s, a).conns
    ensures Next(cfg, s, a).conns[id].begun >= 1 && Next(cfg, s, a).conns[id].owner.None?
  {
    assert EntryOk(cfg, s.conns[id], id in s.pool);
    if OnConn(s, a, id) {
      LocalNoNewOwner(cfg, a.t, PcOf(s, a.t), s.conns[id], id in s.pool, a.op);
    } else {
      OffConn(cfg, s, a, id);
    }
    hide Inv, EntryOk, LocalStep, LocalEnabled;
  }

  lemma {:induction false} NeverOwnedAgain(
    cfg: Config, states: seq<State>, acts: seq<Action>, i: nat, j: nat, id: ConnId)
    requires Behaviour(cfg, states, acts) && i <= j < |states| && id in states[i].conns
    requires states[i].conns[id].begun >= 1 && states[i].conns[id].owner.None?
    ensures id in states[j].conns && states[j].conns[id].begun >= 1 && states[j].conns[id].owner.None?
  {
    if i < j {
      hide Next, Enabled, Inv;
      NeverOwnedAgain(cfg, states, acts, i, j - 1, id);
      Reachable(cfg, states, acts, j - 1);
      NoNewOwner(cfg, states[j - 1], acts[j - 1], id);
    }
  }

  /** A connection that is Idle when a rebuild passes the gate is never owned afterwards; one
      that is not Idle then is owned at that moment. */
  lemma GateDecidesOwnership(
    cfg: Config, states: seq<State>, acts: seq<Action>, i: nat, j: nat, id: ConnId)
    requires Behaviour(cfg, states, acts) && i < j < |states| && PassesGate(states[i], acts[i], id)
    ensures states[i].conns[id].conn.state == Idle ==> !Owned(states[j], id)
    ensures states[i].conns[id].conn.state != Idle ==> Owned(states[i + 1], id)
  {
    var s := states[i];
    Reachable(cfg, states, acts, i);
    Reachable(cfg, states, acts, i + 1);
    Reachable(cfg, states, acts, j);
    assert EntryOk(cfg, s.conns[id], id in s.pool);
    NotIdleIsOwned(cfg, s.conns[id], id in s.pool);
    OwnedIffRecorded(cfg, states[i + 1], id);
    assert states[i + 1].conns[id].begun >= 1 && states[i + 1].conns[id].owner == s.conns[id].owner;
    hide Next, Enabled, EntryOk, Owned;
    if s.conns[id].conn.state == Idle {
      NeverOwnedAgain(cfg, states, acts, i + 1, j, id);
      OwnedIffRecorded(cfg, states[j], id);
    }
  }

  // ---------------------------------------------------------------- pool size

  predicate IsTarget(pc: PC) {
    || pc.Target? || pc.TargetIdle? || pc.TargetUnused?
    || pc.Begun? || pc.Shutting? || pc.Removed? || pc.Shut?
  }

  /** The distinct connections some rebuilder is working on and that have no replacement yet. */
  function UnderRebuild(s: State): set<ConnId> {
    set id | id in s.conns && s.conns[id].replaced == 0
          && exists t :: t in s.pcs && IsTarget(s.pcs[t]) && s.pcs[t].id == id
  }

  /** Pool members and promised replacements together. */
  function Committed(s: State): set<ConnId> {
    s.pool + UnderRebuild(s)
  }

  lemma SizeOfSubset<T>(a: set<T>, b: set<T>)
    requires a <= b
    ensures |a| <= |b|
  {
    if a != {} {
      var x :| x in a;
      SizeOfSubset(a - {x}, b - {x});
    }
  }

  lemma SizeOfUnion<T>(a: set<T>, b: set<T>)
    ensures |a + b| <= |a| + |b|
  {
    assert a + b == a + (b - a);
    SizeOfSubset(b - a, b);
  }

  lemma LocalTargets(cfg: Config, t: ThreadId, pc: PC, e: Entry, op: Op)
    requires LocalEnabled(pc, op) && HasId(pc)
    ensures var f := LocalStep(cfg, t, pc, e, op);
      f.e.replaced == e.replaced && (IsTarget(f.pc) ==> IsTarget(pc) && f.pc.id == pc.id)
  {
  }

  lemma CommittedByLocal(cfg: Config, s: State, t: ThreadId, op: Op)
    requires Enabled(cfg, s, Local(t, op))
    ensures Committed(Next(cfg, s, Local(t, op))) <= Committed(s)
  {
    hide LocalStep, IsTarget;
    var pc := PcOf(s, t);
    LocalTargets(cfg, t, pc, s.conns[pc.id], op);
  }

  lemma CommittedByReplacement(cfg: Config, s: State, t: ThreadId, id: ConnId)
    requires Inv(cfg, s) && Enabled(cfg, s, AddReplacement(t, id))
    ensures var c := Committed(s); var target := PcOf(s, t).id;
      target in c && Committed(Next(cfg, s, AddReplacement(t, id))) <= c - {target} + {id}
  {
    hide EntryOk, OwnerOk, EntriesOk, LinksOk;
    var pc := PcOf(s, t);
    assert ThreadOk(t, pc, s.conns[pc.id], pc.id in s.pool);
    assert pc == s.pcs[t] && IsTarget(s.pcs[t]);
    assert pc.id in UnderRebuild(s);
  }

  lemma CommittedByPublish(cfg: Config, s: State, t: ThreadId, id: ConnId)
    requires Enabled(cfg, s, Publish(t, id))
    ensures var s' := Next(cfg, s, Publish(t, id));
      if |s.pool| < cfg.maxConnections then s'.pool == s.pool + {id} else Committed(s') <= Committed(s)
  {
  }

  lemma CommittedByPc(s: State, t: ThreadId, pc: PC)
    requires IsTarget(pc) ==> pc.id in s.pool
    ensures Committed(WithPc(s, t, pc)) <= Committed(s)
  {
    hide IsTarget;
  }

  lemma CommittedByNew(s: State, id: ConnId)
    requires id !in s.conns
    ensures Committed(WithNew(s, id, FRESH)) <= Committed(s) + {id}
  {
    hide IsTarget;
  }

  predicate WithinBudget(cfg: Config, s: State, k: nat) {
    && s.warmLeft <= s.warmTotal
    && |Committed(s)| <= cfg.maxConnections + k + (s.warmTotal - s.warmLeft)
  }

  lemma StepWithinBudget(cfg: Config, s: State, a: Action, k: nat)
    requires Inv(cfg, s) && Enabled(cfg, s, a) && WithinBudget(cfg, s, k)
    requires |UnderRebuild(Next(cfg, s, a))| <= k
    ensures WithinBudget(cfg, Next(cfg, s, a), k)
  {
    hide Inv, UnderRebuild, LocalStep, LocalEnabled, Committed;
    if a.Publish? || a.WarmAdd? || a.AddReplacement? {
      GrowthWithinBudget(cfg, s, a, k);
    } else {
      match a {
        case Local(t, op) => CommittedByLocal(cfg, s, t, op);
        case RequestWarmUp(n) => WarmIrrelevant(s, s.warmLeft + n, s.warmTotal + n);
        case Pick(t, role) => CommittedByPc(s, t, role);
        case SeeRoom(t) => CommittedByPc(s, t, Room);
        case DropRoom(t) => CommittedByPc(s, t, Free);
      }
      SizeOfSubset(Committed(Next(cfg, s, a)), Committed(s));
    }
  }

  lemma GrowthWithinBudget(cfg: Config, s: State, a: Action, k: nat)
    requires Inv(cfg, s) && Enabled(cfg, s, a) && WithinBudget(cfg, s, k)
    requires a.Publish? || a.WarmAdd? || a.AddReplacement?
    requires |UnderRebuild(Next(cfg, s, a))| <= k
    ensures WithinBudget(cfg, Next(cfg, s, a), k)
  {
    hide Inv, UnderRebuild, LocalStep, LocalEnabled, Committed;
    var s' := Next(cfg, s, a);
    match a
    case AddReplacement(t, id) =>
      CommittedByReplacement(cfg, s, t, id);
      SizeOfSubset(Committed(s'), Committed(s) - {PcOf(s, t).id} + {id});
    case Publish(t, id) =>
      CommittedByPublish(cfg, s, t, id);
      if |s.pool| < cfg.maxConnections {
        PublishedSize(s, s', id);
      } else {
        SizeOfSubset(Committed(s'), Committed(s));
      }
    case WarmAdd(id) =>
      CommittedByNew(s, id);
      WarmIrrelevant(WithNew(s, id, FRESH), s.warmLeft - 1, s.warmTotal);
      SizeOfSubset(Committed(s'), Committed(s) + {id});
  }

  lemma WarmIrrelevant(s: State, left: nat, total: nat)
    ensures Committed(s.(warmLeft := left, warmTotal := total)) == Committed(s)
  {
    hide IsTarget;
  }

  lemma PublishedSize(s: State, s': State, id: ConnId)
    requires s'.pool == s.pool + {id}
    ensures |Committed(s')| <= |s.pool| + 1 + |UnderRebuild(s')|
  {
    SizeOfUnion(s'.pool, UnderRebuild(s'));
  }

  /** Whatever the interleaving, the pool holds at most maxConnections connections, plus one
      for each connection under rebuild at once, plus the connections warm-up added. */
  lemma {:induction false} PoolBounded(cfg: Config, states: seq<State>, acts: seq<Action>, n: nat, k: nat)
    requires Behaviour(cfg, states, acts) && n < |states|
    requires forall i :: 0 <= i <= n ==> |UnderRebuild(states[i])| <= k
    ensures WithinBudget(cfg, states[n], k)
    ensures |states[n].pool| <= cfg.maxConnections + k + states[n].warmTotal
  {
    hide Inv, UnderRebuild, Next, Enabled;
    if n > 0 {
      PoolBounded(cfg, states, acts, n - 1, k);
      Reachable(cfg, states, acts, n - 1);
      assert |UnderRebuild(states[n])| <= k && states[n - 1 + 1] == states[n];
      StepWithinBudget(cfg, states[n - 1], acts[n - 1], k);
    } else {
      NothingUnderRebuild();
    }
    SizeOfSubset(states[n].pool, Committed(states[n]));
  }

  lemma NothingUnderRebuild()
    ensures Committed(INIT) == {}
  {
  }
}

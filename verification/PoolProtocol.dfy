/** The connection pool as an interleaving of threads (connection/pool_enhanced.go).
    One action is one locked section or one atomic operation. Any number of threads
    play any of the roles: borrower, health checker, rebuilder, mark evaluator,
    cleaner, warm-up. Driver outcomes, clocks and contexts are free choices. */
module PoolProtocol {
  import opened ConnectionStates
  import opened PooledConnections
  import opened Options

  type ConnId = nat
  type ThreadId = nat

  datatype Config = Config(maxConnections: nat, health: HealthConfig)

  /** A connection with its history: who holds it, who rebuilds it, how often a rebuild
      passed the gate, how many replacements it got, how often its mark was won and
      cleared, and the outcomes of its health checks. No step reads the history. */
  datatype Entry = Entry(
    conn: Conn, owner: Option<ThreadId>, rebuilder: Option<ThreadId>,
    begun: nat, replaced: nat, wins: nat, clears: nat, checks: seq<bool>)

  const FRESH := Entry(NEW_CONN, None, None, 0, 0, 0, 0, [])

  /** Where a thread stands. `id` is the connection it holds a reference to. */
  datatype PC =
    | Free
    | Candidate(id: ConnId)                          // looked up, not yet acquired
    | Room                                           // saw fewer than maxConnections
    | Holding(id: ConnId)
    | ExecEntered(id: ConnId)                        // use count raised
    | ExecSeen(id: ConnId, acquired: bool)           // read the state
    | Running(id: ConnId, moved: bool)               // in the driver
    | ExecLeft(id: ConnId)                           // state restored
    | CheckSeen(id: ConnId)
    | Probing(id: ConnId)
    | Checked(id: ConnId)                            // may only release
    | Target(id: ConnId)                             // chosen for a rebuild
    | TargetIdle(id: ConnId)
    | TargetUnused(id: ConnId)
    | Begun(id: ConnId)
    | Shutting(id: ConnId)
    | Removed(id: ConnId)
    | Shut(id: ConnId)
    | Swapped(id: ConnId)
    | Abnormal(id: ConnId)                           // the "abnormal state" exit
    | Judging(id: ConnId)
    | Unmarked(id: ConnId)                           // read the mark, which was clear
    | Looked(id: ConnId, gone: bool)                 // read the state
    | SeenIdle(id: ConnId, gone: bool)               // read the state once more: Idle
    | Judged(id: ConnId)
    | Sweeping(id: ConnId)

  datatype Op = Go | Execute | Check | Release | Outcome(success: bool) | GiveUp

  datatype State = State(
    conns: map<ConnId, Entry>, pool: set<ConnId>, pcs: map<ThreadId, PC>,
    warmLeft: nat, warmTotal: nat)

  datatype Action =
    | Pick(t: ThreadId, role: PC)                    // read a reference out of the pool
    | Local(t: ThreadId, op: Op)                     // continue with the connection at hand
    | SeeRoom(t: ThreadId)
    | DropRoom(t: ThreadId)                          // context cancelled or creation failed
    | Publish(t: ThreadId, id: ConnId)               // second check, insert and acquire
    | AddReplacement(t: ThreadId, id: ConnId)
    | RequestWarmUp(n: nat)
    | WarmAdd(id: ConnId)

  predicate HasId(pc: PC) {
    !pc.Free? && !pc.Room?
  }

  function PcOf(s: State, t: ThreadId): PC {
    if t in s.pcs then s.pcs[t] else Free
  }

  predicate LocalEnabled(pc: PC, op: Op) {
    match pc
    case Candidate(_) => op in {Go, GiveUp}
    case Holding(_) => op in {Execute, Check, Release}
    case ExecEntered(_) => op == Go
    case ExecSeen(_, _) => op == Go
    case Running(_, _) => op == Go
    case ExecLeft(_) => op == Go
    case CheckSeen(_) => op in {Go, GiveUp}
    case Probing(_) => op.Outcome?
    case Checked(_) => op == Release
    case Target(_) => op in {Go, GiveUp}
    case TargetIdle(_) => op == Go
    case TargetUnused(_) => op == Go
    case Begun(_) => op == Go
    case Shutting(_) => op in {Go, GiveUp}
    case Removed(_) => op in {Go, GiveUp}
    case Shut(_) => op == GiveUp
    case Swapped(_) => op in {Go, GiveUp}
    case Judging(_) => op in {Go, GiveUp}
    case Unmarked(_) => op in {Go, GiveUp}
    case Looked(_, _) => op == Go
    case SeenIdle(_, _) => op == Go
    case Judged(_) => op in {Go, GiveUp}
    case Sweeping(_) => op in {Go, GiveUp}
    case _ => false
  }

  datatype Effect = Effect(pc: PC, e: Entry, removes: bool)

  function MarkBy(e: Entry, marks: bool): Entry {
    e.(conn := e.conn.(marked := e.conn.marked || marks),
       wins := e.wins + if marks && !e.conn.marked then 1 else 0)
  }

  function Complete(e: Entry, success: bool): Entry {
    e.(conn := AfterCompleteRebuild(e.conn, success),
       rebuilder := None,
       clears := e.clears + if success && e.conn.rebuilding && e.conn.marked then 1 else 0)
  }

  /** On its way out for good. */
  predicate Gone(c: Conn) {
    c.state in {Closing, Closed}
  }

  /** What thread t, standing at pc, does to the connection it refers to. */
  function LocalStep(cfg: Config, t: ThreadId, pc: PC, e: Entry, op: Op): Effect
    requires LocalEnabled(pc, op)
  {
    match pc
    case Candidate(id) =>
      if op == Go && Acquirable(e.conn)
      then Effect(Holding(id), e.(conn := AfterAcquire(e.conn), owner := Some(t)), false)
      else Effect(Free, e, false)
    case Holding(id) =>
      if op == Execute then Effect(ExecEntered(id), e.(conn := e.conn.(using := e.conn.using + 1)), false)
      else if op == Check then Effect(if e.conn.state in {Acquired, Idle} then CheckSeen(id) else Checked(id), e, false)
      else Effect(Free, e.(conn := AfterRelease(e.conn), owner := None), false)
    case ExecEntered(id) => Effect(ExecSeen(id, e.conn.state == Acquired), e, false)
    case ExecSeen(id, acquired) =>
      if acquired
      then Effect(Running(id, CanTransition(e.conn.state, Executing)), e.(conn := Moved(e.conn, Executing)), false)
      else Effect(Running(id, false), e, false)
    case Running(id, moved) =>
      Effect(ExecLeft(id), if moved then e.(conn := Moved(e.conn, Acquired)) else e, false)
    case ExecLeft(id) => Effect(Holding(id), e.(conn := e.conn.(using := e.conn.using - 1)), false)
    case CheckSeen(id) =>
      if op == Go && CanTransition(e.conn.state, Checking)
      then Effect(Probing(id), e.(conn := Moved(e.conn, Checking)), false)
      else Effect(Checked(id), e, false)
    case Probing(id) =>
      var c := AfterCheck(cfg.health, e.conn, op.success);
      Effect(Checked(id),
             e.(conn := c, checks := e.checks + [op.success],
                wins := e.wins + if c.marked && !e.conn.marked then 1 else 0), false)
    case Checked(id) => Effect(Free, e.(conn := AfterRelease(e.conn), owner := None), false)
    case Target(id) => Effect(if op == Go && e.conn.state == Idle then TargetIdle(id) else Free, e, false)
    case TargetIdle(id) => Effect(if e.conn.using <= 0 then TargetUnused(id) else Free, e, false)
    case TargetUnused(id) =>
      if CanBeginRebuild(e.conn)
      then Effect(Begun(id), e.(conn := e.conn.(rebuilding := true), rebuilder := Some(t), begun := e.begun + 1), false)
      else Effect(Free, e, false)
    case Begun(id) =>
      if CanTransition(e.conn.state, Closing) then Effect(Shutting(id), e.(conn := Moved(e.conn, Closing)), false)
      else if e.conn.state in {Closing, Closed} then Effect(Shutting(id), e, false)
      else Effect(Abnormal(id), e, false)
    case Shutting(id) =>
      if op == Go then Effect(Removed(id), e, true) else Effect(Free, Complete(e, false), false)
    case Removed(id) =>
      if op == Go
      then Effect(Shut(id), if e.conn.state == Closing then e.(conn := e.conn.(state := Closed)) else e, false)
      else Effect(Free, Complete(e, false), false)
    case Shut(id) => Effect(Free, Complete(e, false), false)
    case Swapped(id) => Effect(Free, Complete(e, op == Go), false)
    case Judging(id) => Effect(if op == Go && !e.conn.marked then Unmarked(id) else Free, e, false)
    case Unmarked(id) => Effect(if op == Go then Looked(id, Gone(e.conn)) else Free, e, false)
    case Looked(id, gone) => Effect(if e.conn.state == Idle then SeenIdle(id, gone) else Free, e, false)
    case SeenIdle(id, gone) => Effect(if !e.conn.rebuilding && !gone then Judged(id) else Free, e, false)
    case Judged(id) => Effect(Free, MarkBy(e, op == Go), false)
    case Sweeping(id) => Effect(Free, e, op == Go)
    case _ => Effect(pc, e, false)
  }

  function SwapEffect(id: ConnId, e: Entry): Effect {
    Effect(Swapped(id), e.(replaced := e.replaced + 1), false)
  }

  predicate Enabled(cfg: Config, s: State, a: Action) {
    match a
    case Pick(t, role) =>
      && PcOf(s, t) == Free
      && (role.Candidate? || role.Target? || role.Judging? || role.Sweeping?)
      && role.id in s.pool && role.id in s.conns
    case Local(t, op) =>
      var pc := PcOf(s, t);
      HasId(pc) && pc.id in s.conns && LocalEnabled(pc, op)
    case SeeRoom(t) => PcOf(s, t) == Free && |s.pool| < cfg.maxConnections
    case DropRoom(t) => PcOf(s, t) == Room
    case Publish(t, id) => PcOf(s, t) == Room && id !in s.conns
    case AddReplacement(t, id) => PcOf(s, t).Shut? && PcOf(s, t).id in s.conns && id !in s.conns
    case RequestWarmUp(n) => true
    case WarmAdd(id) => s.warmLeft > 0 && id !in s.conns
  }

  function WithPc(s: State, t: ThreadId, pc: PC): State {
    s.(pcs := s.pcs[t := pc])
  }

  function WithNew(s: State, id: ConnId, e: Entry): State {
    s.(conns := s.conns[id := e], pool := s.pool + {id})
  }

  function ApplyEffect(s: State, t: ThreadId, id: ConnId, f: Effect): State {
    s.(conns := s.conns[id := f.e],
       pool := if f.removes then s.pool - {id} else s.pool,
       pcs := s.pcs[t := f.pc])
  }

  function Next(cfg: Config, s: State, a: Action): State
    requires Enabled(cfg, s, a)
  {
    match a
    case Pick(t, role) => WithPc(s, t, role)
    case Local(t, op) =>
      var pc := PcOf(s, t);
      ApplyEffect(s, t, pc.id, LocalStep(cfg, t, pc, s.conns[pc.id], op))
    case SeeRoom(t) => WithPc(s, t, Room)
    case DropRoom(t) => WithPc(s, t, Free)
    case Publish(t, id) =>
      if |s.pool| >= cfg.maxConnections then WithPc(s, t, Free)
      else if Acquirable(NEW_CONN)
      then WithPc(WithNew(s, id, FRESH.(conn := AfterAcquire(NEW_CONN), owner := Some(t))), t, Holding(id))
      else WithPc(WithNew(s, id, FRESH), t, Free)
    case AddReplacement(t, id) =>
      var target := PcOf(s, t).id;
      WithNew(ApplyEffect(s, t, target, SwapEffect(target, s.conns[target])), id, FRESH)
    case RequestWarmUp(n) => s.(warmLeft := s.warmLeft + n, warmTotal := s.warmTotal + n)
    case WarmAdd(id) => WithNew(s, id, FRESH).(warmLeft := s.warmLeft - 1)
  }

  const INIT := State(map[], {}, map[], 0, 0)

  /** A behaviour: the states passed through and the actions between them. */
  predicate Behaviour(cfg: Config, states: seq<State>, acts: seq<Action>) {
    Continuation(cfg, INIT, states, acts)
  }

  /** Steps from s on. */
  predicate Continuation(cfg: Config, s: State, states: seq<State>, acts: seq<Action>) {
    && |states| == |acts| + 1 && states[0] == s
    && forall i :: 0 <= i < |acts| ==>
      Enabled(cfg, states[i], acts[i]) && states[i + 1] == Next(cfg, states[i], acts[i])
  }

  // ---------------------------------------------------------------- the invariant

  /** Length of the run of failures at the end of a check history. */
  function TrailingFailures(checks: seq<bool>): nat {
    if checks == [] || checks[|checks| - 1] then 0
    else 1 + TrailingFailures(checks[..|checks| - 1])
  }

  function HealthOf(cfg: HealthConfig, checks: seq<bool>): Health {
    if checks == [] then Unknown else Graded(cfg, TrailingFailures(checks))
  }

  predicate EntryOk(cfg: Config, e: Entry, pooled: bool) {
    var c := e.conn;
    && (e.owner.None? ==> (c.state == Idle || Gone(c)) && c.using == 0)
    && (e.owner.Some? ==> c.state in {Acquired, Executing, Checking} || Gone(c))
    && c.rebuilding == e.rebuilder.Some?
    && e.begun <= 1
    && (e.begun == 0 ==> !Gone(c) && !c.rebuilding && e.replaced == 0 && e.clears == 0)
    && (e.begun == 1 && !c.rebuilding ==> Gone(c))
    && e.replaced <= 1
    && (e.replaced == 1 ==> c.state == Closed && !pooled)
    && e.clears <= 1
    && (e.clears == 1 ==> c.state == Closed && !pooled && !c.rebuilding && e.replaced == 1)
    && e.wins == e.clears + (if c.marked then 1 else 0)
    && c.failures == TrailingFailures(e.checks)
    && c.health == HealthOf(cfg.health, e.checks)
    && (c.health == Unhealthy || c.failures == 0 || c.failures < cfg.health.unhealthyThreshold)
    && c.failures <= (if cfg.health.unhealthyThreshold >= 1 then cfg.health.unhealthyThreshold else 1)
    && (MarksOn(cfg.health, c.health) && c.state != Closed ==> c.marked)
  }

  predicate Owns(pc: PC) {
    || pc.Holding? || pc.ExecEntered? || pc.ExecSeen? || pc.Running? || pc.ExecLeft?
    || pc.CheckSeen? || pc.Probing? || pc.Checked?
  }

  predicate Rebuilds(pc: PC) {
    pc.Begun? || pc.Shutting? || pc.Removed? || pc.Shut? || pc.Swapped?
  }

  predicate OwnerOk(pc: PC, c: Conn)
    requires Owns(pc)
  {
    && c.using == (if pc.ExecEntered? || pc.ExecSeen? || pc.Running? || pc.ExecLeft? then 1 else 0)
    && (pc.Checked? || c.health != Unhealthy)
    && (Gone(c) || c.state ==
        match pc
        case Running(_, _) => Executing
        case Probing(_) => Checking
        case _ => Acquired)
    && ((pc.Running? && !pc.moved) || (pc.ExecSeen? && !pc.acquired) ==> Gone(c))
  }

  predicate RebuilderOk(pc: PC, e: Entry, pooled: bool)
    requires Rebuilds(pc)
  {
    match pc
    case Begun(_) => !Gone(e.conn) && e.replaced == 0
    case Shutting(_) => e.conn.state == Closing && e.replaced == 0
    case Removed(_) => e.conn.state == Closing && e.replaced == 0 && !pooled
    case Shut(_) => e.conn.state == Closed && e.replaced == 0 && !pooled
    case _ => e.conn.state == Closed && e.replaced == 1 && !pooled
  }

  predicate ThreadOk(t: ThreadId, pc: PC, e: Entry, pooled: bool) {
    && !pc.Abnormal?
    && (Owns(pc) ==> e.owner == Some(t) && OwnerOk(pc, e.conn))
    && (Rebuilds(pc) ==> e.rebuilder == Some(t) && RebuilderOk(pc, e, pooled))
  }

  predicate EntriesOk(cfg: Config, s: State) {
    && s.pool <= s.conns.Keys
    && forall id :: id in s.conns ==> EntryOk(cfg, s.conns[id], id in s.pool)
  }

  predicate ThreadsOk(s: State) {
    forall t :: t in s.pcs && HasId(s.pcs[t]) ==>
      s.pcs[t].id in s.conns && ThreadOk(t, s.pcs[t], s.conns[s.pcs[t].id], s.pcs[t].id in s.pool)
  }

  /** Recorded owners and rebuilders really stand where the record says. */
  predicate LinksOk(s: State) {
    forall id :: id in s.conns ==>
      && (s.conns[id].owner.Some? ==>
            var pc := PcOf(s, s.conns[id].owner.value); Owns(pc) && pc.id == id)
      && (s.conns[id].rebuilder.Some? ==>
            var pc := PcOf(s, s.conns[id].rebuilder.value); Rebuilds(pc) && pc.id == id)
  }

  predicate Inv(cfg: Config, s: State) {
    EntriesOk(cfg, s) && ThreadsOk(s) && LinksOk(s)
  }

  // ---------------------------------------------------------------- preservation

  /** What a step of thread t may do to a connection another thread refers to. */
  predicate Polite(t: ThreadId, e: Entry, e': Entry, pooled: bool, pooled': bool) {
    && (e.owner != Some(t) && e.owner.Some? ==>
          && e'.owner == e.owner && e'.conn.using == e.conn.using && e'.conn.health == e.conn.health
          && (e'.conn.state == e.conn.state || Gone(e'.conn)))
    && (e.rebuilder != Some(t) && e.rebuilder.Some? ==>
          && e'.rebuilder == e.rebuilder && e'.replaced == e.replaced
          && (if Gone(e.conn) then e'.conn.state == e.conn.state else !Gone(e'.conn)))
    && (e'.owner in {e.owner, None, Some(t)})
    && (e'.rebuilder in {e.rebuilder, None, Some(t)})
    && (pooled' ==> pooled)
  }

  lemma OthersUnharmed(t: ThreadId, t2: ThreadId, pc: PC, e: Entry, e': Entry, pooled: bool, pooled': bool)
    requires t != t2 && ThreadOk(t2, pc, e, pooled) && Polite(t, e, e', pooled, pooled')
    ensures ThreadOk(t2, pc, e', pooled')
  {
  }

  predicate StepPre(cfg: Config, t: ThreadId, pc: PC, e: Entry, pooled: bool, op: Op) {
    && HasId(pc) && LocalEnabled(pc, op)
    && EntryOk(cfg, e, pooled) && ThreadOk(t, pc, e, pooled)
    && (e.owner == Some(t) ==> Owns(pc))
    && (e.rebuilder == Some(t) ==> Rebuilds(pc))
  }

  /** A step leaves its connection well formed, its own thread consistent with it, and
      every other thread unharmed. */
  predicate StepPost(cfg: Config, t: ThreadId, pc: PC, e: Entry, pooled: bool, f: Effect) {
    var pooled' := pooled && !f.removes;
    && EntryOk(cfg, f.e, pooled')
    && (HasId(pc) && HasId(f.pc) ==> f.pc.id == pc.id && ThreadOk(t, f.pc, f.e, pooled'))
    && (f.e.owner == Some(t) <==> Owns(f.pc))
    && (f.e.rebuilder == Some(t) <==> Rebuilds(f.pc))
    && Polite(t, e, f.e, pooled, pooled')
  }

  lemma BorrowStepKeeps(cfg: Config, t: ThreadId, pc: PC, e: Entry, pooled: bool, op: Op)
    requires StepPre(cfg, t, pc, e, pooled, op)
    requires pc.Candidate? || pc.Holding? || pc.CheckSeen? || pc.Checked?
    ensures StepPost(cfg, t, pc, e, pooled, LocalStep(cfg, t, pc, e, op))
  {
    hide TrailingFailures, HealthOf;
  }

  lemma ExecuteStepKeeps(cfg: Config, t: ThreadId, pc: PC, e: Entry, pooled: bool, op: Op)
    requires StepPre(cfg, t, pc, e, pooled, op)
    requires pc.ExecEntered? || pc.ExecSeen? || pc.Running? || pc.ExecLeft?
    ensures StepPost(cfg, t, pc, e, pooled, LocalStep(cfg, t, pc, e, op))
  {
    hide TrailingFailures, HealthOf;
  }

  lemma CheckStepKeeps(cfg: Config, t: ThreadId, pc: PC, e: Entry, pooled: bool, op: Op)
    requires StepPre(cfg, t, pc, e, pooled, op) && pc.Probing?
    ensures StepPost(cfg, t, pc, e, pooled, LocalStep(cfg, t, pc, e, op))
  {
    HealthAfterCheck(cfg, e, op.success);
    hide TrailingFailures, HealthOf, MarksOn, AfterCheck, RebuilderOk;
  }

  lemma HealthAfterCheck(cfg: Config, e: Entry, success: bool)
    requires e.conn.failures == TrailingFailures(e.checks)
    ensures var c, checks, h := AfterCheck(cfg.health, e.conn, success), e.checks + [success], cfg.health;
      && c.failures == TrailingFailures(checks) && c.health == HealthOf(h, checks)
      && c.failures == (if success then 0 else e.conn.failures + 1)
      && (c.health == Unhealthy <==> c.failures > 0 && c.failures >= h.unhealthyThreshold)
      && (MarksOn(h, c.health) ==> c.marked) && (e.conn.marked ==> c.marked)
      && c.using == e.conn.using && c.rebuilding == e.conn.rebuilding
      && c.state == if e.conn.state == Checking then Acquired else e.conn.state
  {
    assert (e.checks + [success])[..|e.checks|] == e.checks;
  }

  lemma RebuildStepKeeps(cfg: Config, t: ThreadId, pc: PC, e: Entry, pooled: bool, op: Op)
    requires StepPre(cfg, t, pc, e, pooled, op) && Rebuilds(pc)
    ensures StepPost(cfg, t, pc, e, pooled, LocalStep(cfg, t, pc, e, op))
  {
    hide TrailingFailures, HealthOf;
  }

  lemma BystanderStepKeeps(cfg: Config, t: ThreadId, pc: PC, e: Entry, pooled: bool, op: Op)
    requires StepPre(cfg, t, pc, e, pooled, op) && !Owns(pc) && !Rebuilds(pc) && !pc.Candidate?
    ensures StepPost(cfg, t, pc, e, pooled, LocalStep(cfg, t, pc, e, op))
  {
    hide TrailingFailures, HealthOf;
  }

  lemma LocalStepKeeps(cfg: Config, t: ThreadId, pc: PC, e: Entry, pooled: bool, op: Op)
    requires StepPre(cfg, t, pc, e, pooled, op)
    ensures StepPost(cfg, t, pc, e, pooled, LocalStep(cfg, t, pc, e, op))
  {
    hide LocalStep, StepPost, EntryOk, ThreadOk;
    if pc.Probing? { CheckStepKeeps(cfg, t, pc, e, pooled, op); }
    else if pc.Candidate? || pc.Holding? || pc.CheckSeen? || pc.Checked? { BorrowStepKeeps(cfg, t, pc, e, pooled, op); }
    else if Owns(pc) { ExecuteStepKeeps(cfg, t, pc, e, pooled, op); }
    else if Rebuilds(pc) { RebuildStepKeeps(cfg, t, pc, e, pooled, op); }
    else { BystanderStepKeeps(cfg, t, pc, e, pooled, op); }
  }

  predicate Fits(cfg: Config, s: State, t: ThreadId, f: Effect) {
    && HasId(PcOf(s, t)) && PcOf(s, t).id in s.conns
    && StepPost(cfg, t, PcOf(s, t), s.conns[PcOf(s, t).id], PcOf(s, t).id in s.pool, f)
  }

  lemma EffectKeepsThreads(cfg: Config, s: State, t: ThreadId, f: Effect)
    requires ThreadsOk(s) && Fits(cfg, s, t, f)
    ensures ThreadsOk(ApplyEffect(s, t, PcOf(s, t).id, f))
  {
    hide EntryOk, ThreadOk, Owns, Rebuilds, Polite;
    var id := PcOf(s, t).id;
    var s' := ApplyEffect(s, t, id, f);
    forall t2 | t2 in s'.pcs && HasId(s'.pcs[t2])
      ensures s'.pcs[t2].id in s'.conns && ThreadOk(t2, s'.pcs[t2], s'.conns[s'.pcs[t2].id], s'.pcs[t2].id in s'.pool)
    {
      if t2 != t && s.pcs[t2].id == id {
        OthersUnharmed(t, t2, s.pcs[t2], s.conns[id], f.e, id in s.pool, id in s'.pool);
      }
    }
  }

  lemma EffectKeepsLinks(cfg: Config, s: State, t: ThreadId, f: Effect)
    requires LinksOk(s) && Fits(cfg, s, t, f)
    ensures LinksOk(ApplyEffect(s, t, PcOf(s, t).id, f))
  {
    hide EntryOk, ThreadOk;
  }

  /** One connection and one thread change; everything else is carried over. */
  lemma EffectKeepsInv(cfg: Config, s: State, t: ThreadId, f: Effect)
    requires Inv(cfg, s) && Fits(cfg, s, t, f)
    ensures Inv(cfg, ApplyEffect(s, t, PcOf(s, t).id, f))
  {
    hide EntryOk, ThreadOk, Owns, Rebuilds, Polite, ThreadsOk, LinksOk;
    EffectKeepsThreads(cfg, s, t, f);
    EffectKeepsLinks(cfg, s, t, f);
  }

  /** A brand-new idle connection joins the pool. */
  lemma NewKeepsInv(cfg: Config, s: State, id: ConnId)
    requires Inv(cfg, s) && id !in s.conns
    ensures Inv(cfg, WithNew(s, id, FRESH))
  {
    hide ThreadOk, Owns, Rebuilds, EntryOk;
    assert EntryOk(cfg, FRESH, true) by { FreshOk(cfg); }
  }

  lemma FreshOk(cfg: Config)
    ensures EntryOk(cfg, FRESH, true)
  {
  }

  lemma PcKeepsInv(cfg: Config, s: State, t: ThreadId, pc: PC)
    requires Inv(cfg, s) && (PcOf(s, t).Free? || PcOf(s, t).Room?)
    requires !Owns(pc) && !Rebuilds(pc) && !pc.Abnormal? && (HasId(pc) ==> pc.id in s.conns)
    ensures Inv(cfg, WithPc(s, t, pc))
  {
    hide EntryOk;
  }

  /** Publishing is: insert a fresh connection, refer to it, acquire it. */
  lemma PublishKeepsInv(cfg: Config, s: State, t: ThreadId, id: ConnId)
    requires Inv(cfg, s) && Enabled(cfg, s, Publish(t, id))
    ensures Inv(cfg, Next(cfg, s, Publish(t, id)))
  {
    hide EntriesOk, ThreadsOk, LinksOk, StepPost, EntryOk, ThreadOk;
    if |s.pool| >= cfg.maxConnections {
      PcKeepsInv(cfg, s, t, Free);
    } else {
      NewKeepsInv(cfg, s, id);
      var s1 := WithNew(s, id, FRESH);
      PcKeepsInv(cfg, s1, t, Candidate(id));
      var s2 := WithPc(s1, t, Candidate(id));
      assert StepPre(cfg, t, Candidate(id), FRESH, true, Go) by { FreshPre(cfg, t, id); }
      LocalStepKeeps(cfg, t, Candidate(id), FRESH, true, Go);
      EffectKeepsInv(cfg, s2, t, LocalStep(cfg, t, Candidate(id), FRESH, Go));
      assert Next(cfg, s, Publish(t, id)) == ApplyEffect(s2, t, id, LocalStep(cfg, t, Candidate(id), FRESH, Go));
    }
  }

  lemma FreshPre(cfg: Config, t: ThreadId, id: ConnId)
    ensures StepPre(cfg, t, Candidate(id), FRESH, true, Go)
  {
  }

  lemma ReplacementKeepsInv(cfg: Config, s: State, t: ThreadId, id: ConnId)
    requires Inv(cfg, s) && Enabled(cfg, s, AddReplacement(t, id))
    ensures Inv(cfg, Next(cfg, s, AddReplacement(t, id)))
  {
    hide EntryOk, ThreadOk, StepPost;
    var target := PcOf(s, t).id;
    SwapFits(cfg, t, target, s.conns[target], target in s.pool);
    var f := SwapEffect(target, s.conns[target]);
    EffectKeepsInv(cfg, s, t, f);
    NewKeepsInv(cfg, ApplyEffect(s, t, target, f), id);
  }

  lemma SwapFits(cfg: Config, t: ThreadId, id: ConnId, e: Entry, pooled: bool)
    requires EntryOk(cfg, e, pooled) && ThreadOk(t, Shut(id), e, pooled)
    requires e.owner != Some(t)
    ensures StepPost(cfg, t, Shut(id), e, pooled, SwapEffect(id, e))
  {
  }

  lemma LocalKeepsInv(cfg: Config, s: State, t: ThreadId, op: Op)
    requires Inv(cfg, s) && Enabled(cfg, s, Local(t, op))
    ensures Inv(cfg, Next(cfg, s, Local(t, op)))
  {
    hide EntryOk, ThreadOk, StepPost, LocalStep, Owns, Rebuilds, LocalEnabled;
    var pc := PcOf(s, t);
    assert StepPre(cfg, t, pc, s.conns[pc.id], pc.id in s.pool, op);
    hide Inv, StepPre;
    LocalStepKeeps(cfg, t, pc, s.conns[pc.id], pc.id in s.pool, op);
    EffectKeepsInv(cfg, s, t, LocalStep(cfg, t, pc, s.conns[pc.id], op));
  }

  lemma NextKeepsInv(cfg: Config, s: State, a: Action)
    requires Inv(cfg, s) && Enabled(cfg, s, a)
    ensures Inv(cfg, Next(cfg, s, a))
  {
    hide EntryOk, ThreadOk, StepPost, LocalStep, LocalEnabled, Inv;
    match a
    case Pick(t, role) => PcKeepsInv(cfg, s, t, role);
    case Local(t, op) => LocalKeepsInv(cfg, s, t, op);
    case SeeRoom(t) => PcKeepsInv(cfg, s, t, Room);
    case DropRoom(t) => PcKeepsInv(cfg, s, t, Free);
    case Publish(t, id) => PublishKeepsInv(cfg, s, t, id);
    case AddReplacement(t, id) => ReplacementKeepsInv(cfg, s, t, id);
    case RequestWarmUp(n) => WarmCountsKeepInv(cfg, s, Next(cfg, s, a));
    case WarmAdd(id) =>
      NewKeepsInv(cfg, s, id);
      WarmCountsKeepInv(cfg, WithNew(s, id, FRESH), Next(cfg, s, a));
  }

  lemma WarmCountsKeepInv(cfg: Config, s: State, s': State)
    requires Inv(cfg, s) && s'.conns == s.conns && s'.pool == s.pool && s'.pcs == s.pcs
    ensures Inv(cfg, s')
  {
    hide EntryOk, ThreadOk;
  }

  /** The invariant holds in every state of every behaviour. */
  lemma {:induction false} Reachable(cfg: Config, states: seq<State>, acts: seq<Action>, i: nat)
    requires Behaviour(cfg, states, acts) && i < |states|
    ensures Inv(cfg, states[i])
  {
    if i > 0 {
      Reachable(cfg, states, acts, i - 1);
      NextKeepsInv(cfg, states[i - 1], acts[i - 1]);
    }
  }
}

/** The bound on the size of the pool is reached: rebuilds are lined up one after the other
    just before they insert their replacements, the pool is filled meanwhile, and then the
    replacements arrive. */
module PoolTightness {
  import opened ConnectionStates
  import opened PooledConnections
  import opened PoolProtocol
  import opened PoolTheorems
  import opened Options

  /** A run in which never more than k connections are under rebuild at once. */
  ghost predicate CalmRun(cfg: Config, k: nat, states: seq<State>, acts: seq<Action>) {
    && |states| == |acts| + 1 && Behaviour(cfg, states, acts)
    && forall i :: 0 <= i < |states| ==> |UnderRebuild(states[i])| <= k
  }

  ghost predicate Reaches(cfg: Config, k: nat, s: State) {
    exists states, acts :: CalmRun(cfg, k, states, acts) && states[|states| - 1] == s
  }

  /** All rebuilders work on the connections 0 to k - 1. */
  ghost predicate Calm(s: State, k: nat) {
    forall t :: t in s.pcs && IsTarget(s.pcs[t]) ==> s.pcs[t].id < k
  }

  lemma {:induction false} Below(k: nat) returns (ids: set<ConnId>)
    ensures |ids| == k && forall id: nat :: id in ids <==> id < k
  {
    if k == 0 {
      ids := {};
    } else {
      ids := Below(k - 1);
      ids := ids + {k - 1};
    }
  }

  lemma CalmIsFew(s: State, k: nat)
    requires Calm(s, k)
    ensures |UnderRebuild(s)| <= k
  {
    var ids := Below(k);
    hide IsTarget;
    SizeOfSubset(UnderRebuild(s), ids);
  }

  lemma Then(cfg: Config, k: nat, s: State, a: Action) returns (s': State)
    requires Reaches(cfg, k, s) && Enabled(cfg, s, a) && Calm(Next(cfg, s, a), k)
    ensures s' == Next(cfg, s, a) && Reaches(cfg, k, s')
  {
    hide Next, Enabled, UnderRebuild, Calm;
    var states, acts :| CalmRun(cfg, k, states, acts) && states[|states| - 1] == s;
    s' := Next(cfg, s, a);
    CalmIsFew(s', k);
    assert CalmRun(cfg, k, states + [s'], acts + [a]);
  }

  /** Thread t, the only one to move, works on the connection it stands at. */
  lemma Act(cfg: Config, k: nat, s: State, t: ThreadId, pc: PC, op: Op) returns (s': State)
    requires Reaches(cfg, k, s) && Calm(s, k) && PcOf(s, t) == pc && HasId(pc) && pc.id in s.conns
    requires LocalEnabled(pc, op) && (IsTarget(LocalStep(cfg, t, pc, s.conns[pc.id], op).pc) ==> pc.id < k)
    ensures s' == ApplyEffect(s, t, pc.id, LocalStep(cfg, t, pc, s.conns[pc.id], op))
    ensures Reaches(cfg, k, s') && Calm(s', k)
  {
    LocalTargets(cfg, t, pc, s.conns[pc.id], op);
    hide Reaches, LocalStep, LocalEnabled, IsTarget;
    assert Calm(Next(cfg, s, Local(t, op)), k);
    s' := Then(cfg, k, s, Local(t, op));
  }

  lemma CalmAt(s: State, s': State, k: nat, t: ThreadId)
    requires Calm(s, k) && s'.pcs == s.pcs[t := PcOf(s', t)] && t in s'.pcs
    requires IsTarget(PcOf(s', t)) ==> PcOf(s', t).id < k
    ensures Calm(s', k)
  {
    hide IsTarget;
  }

  /** One more connection, which is pooled. */
  predicate Grown(s: State, s': State, id: ConnId) {
    s'.pool == s.pool + {id} && s'.conns.Keys == s.conns.Keys + {id}
  }

  const TAKEN := FRESH.(conn := NEW_CONN.(state := Acquired), owner := Some(0))

  lemma Entered(cfg: Config, k: nat, s: State) returns (s': State)
    requires Reaches(cfg, k, s) && Calm(s, k) && PcOf(s, 0) == Free && |s.pool| < cfg.maxConnections
    ensures Reaches(cfg, k, s') && Calm(s', k) && s' == WithPc(s, 0, Room)
  {
    hide Reaches, Calm, UnderRebuild;
    CalmAt(s, WithPc(s, 0, Room), k, 0);
    s' := Then(cfg, k, s, SeeRoom(0));
  }

  lemma Published(cfg: Config, k: nat, s: State, id: ConnId) returns (s': State)
    requires Reaches(cfg, k, s) && Calm(s, k) && PcOf(s, 0) == Room
    requires |s.pool| < cfg.maxConnections && id !in s.conns
    ensures Reaches(cfg, k, s') && Calm(s', k) && s' == WithPc(WithNew(s, id, TAKEN), 0, Holding(id))
  {
    hide Reaches, Calm, UnderRebuild, LocalStep, LocalEnabled;
    assert Next(cfg, s, Publish(0, id)) == WithPc(WithNew(s, id, TAKEN), 0, Holding(id));
    CalmAt(s, WithPc(WithNew(s, id, TAKEN), 0, Holding(id)), k, 0);
    s' := Then(cfg, k, s, Publish(0, id));
    hide Next, Enabled;
  }

  lemma Seated(cfg: Config, k: nat, s: State, id: ConnId) returns (s': State)
    requires Reaches(cfg, k, s) && Calm(s, k) && PcOf(s, 0) == Free
    requires |s.pool| < cfg.maxConnections && id !in s.conns
    ensures Reaches(cfg, k, s') && Calm(s', k)
    ensures s' == s.(conns := s.conns[id := FRESH], pool := s.pool + {id}, pcs := s.pcs[0 := Free])
  {
    hide Reaches, Calm, Next, Enabled;
    var s1 := Entered(cfg, k, s);
    var s2 := Published(cfg, k, s1, id);
    assert LocalStep(cfg, 0, Holding(id), TAKEN, Release) == Effect(Free, FRESH, false);
    s' := Act(cfg, k, s2, 0, Holding(id), Release);
    hide LocalStep;
    assert s'.conns == s.conns[id := FRESH];
    assert s'.pcs == s.pcs[0 := Free];
  }

  /** Thread 0 creates a connection and releases it. */
  lemma Seat(cfg: Config, k: nat, s: State, id: ConnId) returns (s': State)
    requires Reaches(cfg, k, s) && Calm(s, k) && PcOf(s, 0) == Free
    requires |s.pool| < cfg.maxConnections && id !in s.conns
    ensures Reaches(cfg, k, s') && Calm(s', k)
    ensures Grown(s, s', id) && s'.conns == s.conns[id := FRESH] && s'.pcs == s.pcs[0 := Free]
    ensures s'.warmLeft == s.warmLeft && s'.warmTotal == s.warmTotal
  {
    hide Reaches, Calm, UnderRebuild, Next, Enabled, LocalStep, LocalEnabled;
    s' := Seated(cfg, k, s, id);
    KeysGrow(s.conns, id, FRESH);
  }

  lemma KeysGrow(conns: map<ConnId, Entry>, id: ConnId, e: Entry)
    ensures conns[id := e].Keys == conns.Keys + {id}
  {
  }

  lemma Choose(cfg: Config, k: nat, s: State, t: ThreadId, id: ConnId) returns (s': State)
    requires Reaches(cfg, k, s) && Calm(s, k) && PcOf(s, t) == Free && id in s.pool && id in s.conns && id < k
    ensures Reaches(cfg, k, s') && Calm(s', k) && s' == WithPc(s, t, Target(id))
  {
    hide Reaches;
    s' := Then(cfg, k, s, Pick(t, Target(id)));
  }

  /** Thread t takes a fresh idle connection up to the gate. */
  lemma Aim(cfg: Config, k: nat, s: State, t: ThreadId, id: ConnId) returns (s': State)
    requires Reaches(cfg, k, s) && Calm(s, k) && PcOf(s, t) == Free && id < k
    requires id in s.pool && id in s.conns && s.conns[id] == FRESH
    ensures Reaches(cfg, k, s') && Calm(s', k) && s' == WithPc(s, t, TargetUnused(id))
  {
    hide Reaches, Calm;
    s' := Choose(cfg, k, s, t, id);
    s' := Act(cfg, k, s', t, Target(id), Go);
    assert s' == WithPc(s, t, TargetIdle(id));
    s' := Act(cfg, k, s', t, TargetIdle(id), Go);
    assert s' == WithPc(s, t, TargetUnused(id));
  }

  const CLOSING := FRESH.(conn := NEW_CONN.(state := Closing, rebuilding := true), begun := 1)

  lemma PassGate(cfg: Config, k: nat, s: State, t: ThreadId, id: ConnId) returns (s': State)
    requires Reaches(cfg, k, s) && Calm(s, k) && PcOf(s, t) == TargetUnused(id) && id < k
    requires id in s.conns && s.conns[id] == FRESH
    ensures Reaches(cfg, k, s') && Calm(s', k)
    ensures s' == s.(conns := s.conns[id := CLOSING.(rebuilder := Some(t))], pcs := s.pcs[t := Shutting(id)])
  {
    hide Reaches, Calm;
    s' := Act(cfg, k, s, t, TargetUnused(id), Go);
    s' := Act(cfg, k, s', t, Begun(id), Go);
    assert s'.conns == s.conns[id := CLOSING.(rebuilder := Some(t))];
    assert s'.pcs == s.pcs[t := Shutting(id)];
  }

  /** Thread t takes a fresh idle connection through the gate and closes it. */
  lemma Dismantle(cfg: Config, k: nat, s: State, t: ThreadId, id: ConnId) returns (s': State)
    requires Reaches(cfg, k, s) && Calm(s, k) && PcOf(s, t) == Free && id < k
    requires id in s.pool && id in s.conns && s.conns[id] == FRESH
    ensures Reaches(cfg, k, s') && Calm(s', k) && s'.pool == s.pool - {id} && s'.conns.Keys == s.conns.Keys
    ensures s'.pcs == s.pcs[t := Shut(id)] && s'.warmLeft == s.warmLeft && s'.warmTotal == s.warmTotal
  {
    hide Reaches, Calm;
    var s1 := Aim(cfg, k, s, t, id);
    var s2 := PassGate(cfg, k, s1, t, id);
    var s3 := Act(cfg, k, s2, t, Shutting(id), Go);
    s' := Act(cfg, k, s3, t, Removed(id), Go);
    assert s'.pcs == s.pcs[t := Shut(id)];
  }

  /** The connections 0 to n - 1 have been closed for a rebuild, each by its own thread, and
      the pool is empty. */
  ghost predicate LinedUp(s: State, n: nat) {
    && s.pool == {} && s.warmLeft == s.warmTotal == 0
    && (forall id: nat :: id in s.conns <==> id < n)
    && PcOf(s, 0) == Free
    && (forall t: nat :: 1 <= t <= n ==> t in s.pcs && s.pcs[t] == Shut(t - 1))
    && (forall t: nat :: t in s.pcs ==> t <= n)
  }

  lemma LinedUpNext(s: State, s': State, n: nat)
    requires LinedUp(s, n) && s'.pool == {} && s'.warmLeft == s'.warmTotal == 0
    requires s'.conns.Keys == s.conns.Keys + {n} && s'.pcs == s.pcs[0 := Free][n + 1 := Shut(n)]
    ensures LinedUp(s', n + 1)
  {
    forall id: nat ensures id in s'.conns <==> id < n + 1 { assert id in s'.conns <==> id in s'.conns.Keys; }
  }

  lemma Start(cfg: Config, k: nat)
    ensures Reaches(cfg, k, INIT) && Calm(INIT, k) && LinedUp(INIT, 0)
  {
    CalmIsFew(INIT, k);
    assert CalmRun(cfg, k, [INIT], []);
  }

  lemma LineUpOne(cfg: Config, k: nat, s: State, n: nat) returns (s': State)
    requires Reaches(cfg, k, s) && Calm(s, k) && LinedUp(s, n) && n < k && cfg.maxConnections >= 1
    ensures Reaches(cfg, k, s') && Calm(s', k) && LinedUp(s', n + 1)
  {
    hide Reaches, Calm;
    assert PcOf(s, n + 1) == Free && n !in s.conns;
    var s1 := Seat(cfg, k, s, n);
    s' := Dismantle(cfg, k, s1, n + 1, n);
    assert s'.pool == {};
    LinedUpNext(s, s', n);
    hide LinedUp;
  }

  lemma {:induction false} LineUp(cfg: Config, k: nat, n: nat) returns (s: State)
    requires cfg.maxConnections >= 1 && n <= k
    ensures Reaches(cfg, k, s) && Calm(s, k) && LinedUp(s, n)
  {
    hide Reaches, Calm, LinedUp;
    if n == 0 {
      s := INIT;
      Start(cfg, k);
    } else {
      s := LineUp(cfg, k, n - 1);
      s := LineUpOne(cfg, k, s, n - 1);
    }
  }

  /** The pool holds `size` connections and the first `used` ids are taken. */
  ghost predicate Seats(s: State, k: nat, size: nat, used: nat) {
    && s.pool <= s.conns.Keys && |s.pool| == size
    && (forall id: nat :: id in s.conns ==> id < used)
    && (forall id: nat :: id < k ==> id in s.conns)
  }

  /** The rebuilds of the connections from `done` to k - 1 are still lined up. */
  ghost predicate Waits(s: State, k: nat, done: nat) {
    && PcOf(s, 0) == Free
    && (forall t: nat :: done < t <= k ==> t in s.pcs && s.pcs[t] == Shut(t - 1))
  }

  ghost predicate Stage(s: State, k: nat, done: nat, size: nat, used: nat) {
    Seats(s, k, size, used) && Waits(s, k, done)
  }

  lemma SeatsGrow(s: State, s': State, k: nat, size: nat, used: nat)
    requires Seats(s, k, size, used) && Grown(s, s', used)
    ensures Seats(s', k, size + 1, used + 1)
  {
    assert used !in s.pool;
    forall id: nat ensures id in s'.conns <==> id in s.conns || id == used {
      assert id in s'.conns <==> id in s'.conns.Keys;
    }
  }

  lemma StageGrows(s: State, s': State, k: nat, done: nat, done': nat, size: nat, used: nat)
    requires Stage(s, k, done, size, used) && PcOf(s', 0) == Free && Grown(s, s', used)
    requires forall t: nat :: done' < t <= k && t in s.pcs ==> t in s'.pcs && s'.pcs[t] == s.pcs[t]
    requires done <= done'
    ensures Stage(s', k, done', size + 1, used + 1)
  {
    hide Seats, Grown;
    SeatsGrow(s, s', k, size, used);
  }

  lemma FillOne(cfg: Config, k: nat, s: State, size: nat, used: nat) returns (s': State)
    requires Reaches(cfg, k, s) && Calm(s, k) && Stage(s, k, 0, size, used) && size < cfg.maxConnections
    ensures Reaches(cfg, k, s') && Calm(s', k) && Stage(s', k, 0, size + 1, used + 1)
    ensures s'.warmLeft == s.warmLeft && s'.warmTotal == s.warmTotal
  {
    hide Reaches, Calm;
    assert used !in s.conns && |s.pool| == size && PcOf(s, 0) == Free;
    hide Stage;
    s' := Seat(cfg, k, s, used);
    hide Grown;
    StageGrows(s, s', k, 0, 0, size, used);
  }

  lemma {:induction false} Fill(cfg: Config, k: nat, n: nat) returns (s: State)
    requires cfg.maxConnections >= 1 && n <= cfg.maxConnections
    ensures Reaches(cfg, k, s) && Calm(s, k) && Stage(s, k, 0, n, k + n) && s.warmLeft == s.warmTotal == 0
  {
    hide Reaches, Calm;
    if n == 0 {
      s := LineUp(cfg, k, k);
    } else {
      hide Stage;
      s := Fill(cfg, k, n - 1);
      s := FillOne(cfg, k, s, n - 1, k + n - 1);
    }
  }

  lemma Warmed(cfg: Config, k: nat, s: State, id: ConnId) returns (s': State)
    requires Reaches(cfg, k, s) && Calm(s, k) && id !in s.conns && s.warmLeft > 0
    ensures Reaches(cfg, k, s') && Calm(s', k) && Grown(s, s', id) && s'.pcs == s.pcs
    ensures s'.warmLeft == s.warmLeft - 1 && s'.warmTotal == s.warmTotal
  {
    hide Reaches, IsTarget, LocalStep, LocalEnabled, UnderRebuild;
    s' := Then(cfg, k, s, WarmAdd(id));
  }

  lemma WarmOne(cfg: Config, k: nat, s: State, size: nat, used: nat) returns (s': State)
    requires Reaches(cfg, k, s) && Calm(s, k) && Stage(s, k, 0, size, used) && s.warmLeft > 0
    ensures Reaches(cfg, k, s') && Calm(s', k) && Stage(s', k, 0, size + 1, used + 1)
    ensures s'.warmLeft == s.warmLeft - 1 && s'.warmTotal == s.warmTotal
  {
    hide Reaches, Calm;
    assert used !in s.conns && PcOf(s, 0) == Free;
    hide Stage;
    s' := Warmed(cfg, k, s, used);
    hide Grown;
    StageGrows(s, s', k, 0, 0, size, used);
  }

  lemma {:induction false} Warm(cfg: Config, k: nat, w: nat, n: nat) returns (s: State)
    requires cfg.maxConnections >= 1 && n <= w
    ensures Reaches(cfg, k, s) && Calm(s, k)
    ensures Stage(s, k, 0, cfg.maxConnections + n, k + cfg.maxConnections + n)
    ensures s.warmLeft == w - n && s.warmTotal == w
  {
    hide Reaches;
    if n == 0 {
      s := Fill(cfg, k, cfg.maxConnections);
      s := Then(cfg, k, s, RequestWarmUp(w));
    } else {
      hide Calm, Stage;
      s := Warm(cfg, k, w, n - 1);
      s := WarmOne(cfg, k, s, cfg.maxConnections + n - 1, k + cfg.maxConnections + n - 1);
    }
  }

  lemma Inserted(cfg: Config, k: nat, s: State, t: ThreadId, target: ConnId, id: ConnId) returns (s': State)
    requires Reaches(cfg, k, s) && Calm(s, k) && PcOf(s, t) == Shut(target) && target in s.conns && id !in s.conns
    ensures Reaches(cfg, k, s') && Calm(s', k)
    ensures s'.pcs == s.pcs[t := Swapped(target)] && s'.warmTotal == s.warmTotal && Grown(s, s', id)
  {
    hide Reaches, LocalStep, LocalEnabled, UnderRebuild;
    s' := Then(cfg, k, s, AddReplacement(t, id));
  }

  lemma InsertOne(cfg: Config, k: nat, s: State, done: nat, size: nat, used: nat) returns (s': State)
    requires Reaches(cfg, k, s) && Calm(s, k) && Stage(s, k, done, size, used) && done < k
    ensures Reaches(cfg, k, s') && Calm(s', k) && Stage(s', k, done + 1, size + 1, used + 1)
    ensures s'.warmTotal == s.warmTotal
  {
    hide Reaches, Calm;
    var t := done + 1;
    assert PcOf(s, 0) == Free && t in s.pcs && s.pcs[t] == Shut(done) && done in s.conns && used !in s.conns;
    hide Stage;
    s' := Inserted(cfg, k, s, t, done, used);
    hide Grown;
    StageGrows(s, s', k, done, done + 1, size, used);
  }

  lemma {:induction false} Insert(cfg: Config, k: nat, w: nat, n: nat) returns (s: State)
    requires cfg.maxConnections >= 1 && n <= k
    ensures Reaches(cfg, k, s) && Calm(s, k) && s.warmTotal == w
    ensures Stage(s, k, n, cfg.maxConnections + w + n, k + cfg.maxConnections + w + n)
  {
    hide Reaches, Calm, Stage;
    if n == 0 {
      s := Warm(cfg, k, w, w);
    } else {
      s := Insert(cfg, k, w, n - 1);
      s := InsertOne(cfg, k, s, n - 1, cfg.maxConnections + w + n - 1, k + cfg.maxConnections + w + n - 1);
    }
  }

  /** For every limit, every number of rebuilds at once and every warm-up, a run reaches the
      bound of PoolBounded. */
  lemma BoundIsReached(cfg: Config, k: nat, w: nat) returns (states: seq<State>, acts: seq<Action>)
    requires cfg.maxConnections >= 1
    ensures CalmRun(cfg, k, states, acts) && states[|acts|].warmTotal == w
    ensures |states[|acts|].pool| == cfg.maxConnections + k + w
  {
    var s := Insert(cfg, k, w, k);
    states, acts :| CalmRun(cfg, k, states, acts) && states[|states| - 1] == s;
  }

  /** In all runs with at most k rebuilds at once and w connections warmed up the pool ends
      within the limit n. */
  ghost predicate AlwaysWithin(cfg: Config, k: nat, w: nat, n: nat) {
    forall states: seq<State>, acts: seq<Action> :: CalmRun(cfg, k, states, acts) && states[|acts|].warmTotal == w ==>
      |states[|acts|].pool| <= n
  }

  /** The exact bound; in particular the configured maximum is one if and only if there are
      neither rebuilds nor a warm-up. */
  lemma BoundIsExact(cfg: Config, k: nat, w: nat, n: nat)
    requires cfg.maxConnections >= 1
    ensures AlwaysWithin(cfg, k, w, n) <==> cfg.maxConnections + k + w <= n
    ensures AlwaysWithin(cfg, k, w, cfg.maxConnections) <==> k == 0 && w == 0
  {
    BoundIsLeast(cfg, k, w, n);
    BoundIsLeast(cfg, k, w, cfg.maxConnections);
  }

  lemma BoundIsLeast(cfg: Config, k: nat, w: nat, n: nat)
    requires cfg.maxConnections >= 1
    ensures AlwaysWithin(cfg, k, w, n) <==> cfg.maxConnections + k + w <= n
  {
    hide Behaviour, UnderRebuild;
    if cfg.maxConnections + k + w <= n {
      forall states: seq<State>, acts: seq<Action> | CalmRun(cfg, k, states, acts) && states[|acts|].warmTotal == w
        ensures |states[|acts|].pool| <= n
      {
        EndBounded(cfg, k, states, acts);
      }
    } else {
      var states, acts := BoundIsReached(cfg, k, w);
    }
  }

  lemma EndBounded(cfg: Config, k: nat, states: seq<State>, acts: seq<Action>)
    requires CalmRun(cfg, k, states, acts)
    ensures |states| == |acts| + 1
    ensures |states[|acts|].pool| <= cfg.maxConnections + k + states[|acts|].warmTotal
  {
    PoolBounded(cfg, states, acts, |acts|, k);
  }
}

/** The batch rebuild of one protocol (connection/pool_enhanced.go): a dispatcher feeds a
    buffered task channel, a fixed crew of workers drains it into a buffered result
    channel, and the context may be cancelled at any moment. Connections are their index
    in the batch; the outcome of each rebuild is a free choice. */
module BatchRebuild {
  import opened Totals

  datatype Worker = Ready | Taken(i: nat) | Rebuilding(i: nat) | Reporting(i: nat, success: bool, last: bool) | Exited

  datatype Result = Result(conn: nat, success: bool)

  datatype State = State(
    total: nat, next: nat, closed: bool, tasks: seq<nat>, workers: seq<Worker>,
    results: seq<Result>, cancelled: bool)

  datatype Action =
    | Cancel
    | Send
    | StopSending                       // the dispatcher sees the cancelled context
    | CloseTasks
    | Take(w: nat)
    | LookAtContext(w: nat)
    | Rebuild(w: nat, success: bool)
    | Report(w: nat)
    | Leave(w: nat)

  /** The dispatcher wants to send and the task channel has no room. */
  predicate SendBlocks(s: State) {
    !s.closed && s.next < s.total && |s.tasks| >= s.total
  }

  /** Worker w wants to report and the result channel has no room. */
  predicate ReportBlocks(s: State, w: nat) {
    w < |s.workers| && s.workers[w].Reporting? && |s.results| >= s.total
  }

  predicate Enabled(s: State, a: Action) {
    match a
    case Cancel => !s.cancelled
    case Send => !s.closed && s.next < s.total && !SendBlocks(s)
    case StopSending => !s.closed && s.next < s.total && s.cancelled
    case CloseTasks => !s.closed && s.next == s.total
    case Take(w) => w < |s.workers| && s.workers[w].Ready? && s.tasks != []
    case LookAtContext(w) => w < |s.workers| && s.workers[w].Taken?
    case Rebuild(w, _) => w < |s.workers| && s.workers[w].Rebuilding?
    case Report(w) => w < |s.workers| && s.workers[w].Reporting? && !ReportBlocks(s, w)
    case Leave(w) => w < |s.workers| && s.workers[w].Ready? && s.tasks == [] && s.closed
  }

  function Next(s: State, a: Action): State
    requires Enabled(s, a)
  {
    match a
    case Cancel => s.(cancelled := true)
    case Send => s.(tasks := s.tasks + [s.next], next := s.next + 1)
    case StopSending => s.(closed := true)
    case CloseTasks => s.(closed := true)
    case Take(w) => s.(tasks := s.tasks[1..], workers := s.workers[w := Taken(s.tasks[0])])
    case LookAtContext(w) =>
      var i := s.workers[w].i;
      s.(workers := s.workers[w := if s.cancelled then Reporting(i, false, true) else Rebuilding(i)])
    case Rebuild(w, success) => s.(workers := s.workers[w := Reporting(s.workers[w].i, success, false)])
    case Report(w) =>
      var r := s.workers[w];
      s.(results := s.results + [Result(r.i, r.success)], workers := s.workers[w := if r.last then Exited else Ready])
    case Leave(w) => s.(workers := s.workers[w := Exited])
  }

  function Crew(concurrency: int, total: nat): nat {
    var wanted := if concurrency <= 0 then 3 else concurrency;
    if wanted > total then total else wanted
  }

  function Initial(concurrency: int, total: nat): State {
    State(total, 0, false, [], seq(Crew(concurrency, total), _ => Ready), [], false)
  }

  predicate Behaviour(concurrency: int, total: nat, states: seq<State>, acts: seq<Action>) {
    && |states| == |acts| + 1
    && states[0] == Initial(concurrency, total)
    && forall i :: 0 <= i < |acts| ==> Enabled(states[i], acts[i]) && states[i + 1] == Next(states[i], acts[i])
  }

  /** Channel closed and every worker gone: the results can be collected. */
  predicate Finished(s: State) {
    s.closed && forall w :: 0 <= w < |s.workers| ==> s.workers[w].Exited?
  }

  // ---------------------------------------------------------------- where each connection is

  /** 1 if worker w has connection k in hand. */
  function Has(w: Worker, k: nat): nat {
    if !w.Ready? && !w.Exited? && w.i == k then 1 else 0
  }

  function Busy(w: Worker): nat {
    if w.Ready? || w.Exited? then 0 else 1
  }

  function Holding(k: nat): Worker -> nat {
    (w: Worker) => Has(w, k)
  }

  /** How many results are about connection k. */
  function Reports(rs: seq<Result>, k: nat): nat {
    if rs == [] then 0 else Reports(rs[..|rs| - 1], k) + if rs[|rs| - 1].conn == k then 1 else 0
  }

  lemma {:induction false} ReportsAtLeast(rs: seq<Result>, i: nat)
    requires i < |rs|
    ensures Reports(rs, rs[i].conn) >= 1
    ensures forall j :: i < j < |rs| && rs[j].conn == rs[i].conn ==> Reports(rs, rs[i].conn) >= 2
  {
    var n := |rs| - 1;
    if i < n { ReportsAtLeast(rs[..n], i); }
  }

  /** In how many places connection k is: queued, in hand or reported. */
  function Places(s: State, k: nat): nat {
    multiset(s.tasks)[k] + Total(s.workers, Holding(k)) + Reports(s.results, k)
  }

  /** Every connection sent so far is in exactly one place. */
  ghost predicate Placed(s: State) {
    && (forall k: nat :: Places(s, k) == if k < s.next then 1 else 0)
    && |s.tasks| + Total(s.workers, Busy) + |s.results| == s.next
  }

  predicate Orderly(s: State) {
    && s.next <= s.total
    && (s.closed && !s.cancelled ==> s.next == s.total)
    && (forall w :: 0 <= w < |s.workers| ==>
          && (s.workers[w].Exited? && !s.cancelled ==> s.tasks == [] && s.closed)
          && (s.workers[w].Reporting? && s.workers[w].last ==> s.cancelled))
  }

  predicate ByWorker(a: Action) {
    a.Take? || a.LookAtContext? || a.Rebuild? || a.Report? || a.Leave?
  }

  /** Copies of k gained outside and inside the hands of the acting worker. */
  function Gained(s: State, a: Action, k: nat): int
    requires Enabled(s, a)
  {
    var s' := Next(s, a);
    multiset(s'.tasks)[k] - multiset(s.tasks)[k] + Reports(s'.results, k) - Reports(s.results, k)
      + if ByWorker(a) then Has(s'.workers[a.w], k) - Has(s.workers[a.w], k) else 0
  }

  lemma GainedBySending(s: State, a: Action, k: nat)
    requires Enabled(s, a)
    ensures Gained(s, a, k) == if a.Send? && k == s.next then 1 else 0
  {
    if a.Take? { assert s.tasks == [s.tasks[0]] + s.tasks[1..]; }
    if a.Report? { assert Next(s, a).results[..|s.results|] == s.results; }
  }

  /** No step but Send puts a connection anywhere, and none loses one. */
  lemma PlacesStep(s: State, a: Action, k: nat)
    requires Enabled(s, a)
    ensures Places(Next(s, a), k) == Places(s, k) + if a.Send? && k == s.next then 1 else 0
  {
    var s' := Next(s, a);
    GainedBySending(s, a, k);
    if ByWorker(a) {
      assert s'.workers == s.workers[a.w := s'.workers[a.w]];
      TotalUpdate(s.workers, a.w, s'.workers[a.w], Holding(k));
    } else {
      assert s'.workers == s.workers;
    }
    hide Total, Has, Reports, Next, Enabled;
  }

  lemma NextKeepsPlaced(s: State, a: Action)
    requires Placed(s) && Enabled(s, a)
    ensures Placed(Next(s, a))
  {
    var s' := Next(s, a);
    hide Places;
    if ByWorker(a) { TotalUpdate(s.workers, a.w, s'.workers[a.w], Busy); }
    forall k: nat ensures Places(s', k) == if k < s'.next then 1 else 0 {
      PlacesStep(s, a, k);
    }
  }

  lemma NextKeepsOrderly(s: State, a: Action)
    requires Orderly(s) && Enabled(s, a)
    ensures Orderly(Next(s, a))
  {
  }

  lemma {:induction false} Reachable(concurrency: int, total: nat, states: seq<State>, acts: seq<Action>, i: nat)
    requires Behaviour(concurrency, total, states, acts) && i < |states|
    ensures Placed(states[i]) && Orderly(states[i])
    ensures states[i].total == total && |states[i].workers| == Crew(concurrency, total)
    ensures |states[i].workers| ==
      if concurrency > total then total else if concurrency >= 1 then concurrency else if total < 3 then total else 3
  {
    hide Placed, Orderly;
    if i == 0 {
      InitialOk(concurrency, total);
    } else {
      Reachable(concurrency, total, states, acts, i - 1);
      NextKeepsPlaced(states[i - 1], acts[i - 1]);
      NextKeepsOrderly(states[i - 1], acts[i - 1]);
    }
  }

  lemma InitialOk(concurrency: int, total: nat)
    ensures Placed(Initial(concurrency, total)) && Orderly(Initial(concurrency, total))
  {
    var s := Initial(concurrency, total);
    TotalZero(s.workers, Busy);
    forall k: nat ensures Places(s, k) == 0 { TotalZero(s.workers, Holding(k)); }
  }

  // ---------------------------------------------------------------- guarantees

  /** Neither channel ever makes a sender wait. */
  lemma NoSendBlocks(concurrency: int, total: nat, states: seq<State>, acts: seq<Action>, i: nat, w: nat)
    requires Behaviour(concurrency, total, states, acts) && i < |states|
    ensures !SendBlocks(states[i]) && !ReportBlocks(states[i], w)
    ensures !states[i].closed && states[i].next < total ==> |states[i].tasks| < total
    ensures w < |states[i].workers| && states[i].workers[w].Reporting? ==> |states[i].results| < total
  {
    Reachable(concurrency, total, states, acts, i);
    if w < |states[i].workers| { TotalIncludes(states[i].workers, w, Busy); }
  }

  /** The results always concern distinct connections of the batch. */
  lemma ResultsDistinct(concurrency: int, total: nat, states: seq<State>, acts: seq<Action>, i: nat)
    requires Behaviour(concurrency, total, states, acts) && i < |states|
    ensures var rs := states[i].results;
      && (forall j :: 0 <= j < |rs| ==> rs[j].conn < total)
      && (forall j, k :: 0 <= j < k < |rs| ==> rs[j].conn != rs[k].conn)
      && |rs| <= total
  {
    var s := states[i];
    Reachable(concurrency, total, states, acts, i);
    forall j | 0 <= j < |s.results|
      ensures s.results[j].conn < total
      ensures forall k :: j < k < |s.results| ==> s.results[j].conn != s.results[k].conn
    {
      ReportsAtLeast(s.results, j);
      assert Places(s, s.results[j].conn) <= 1;
    }
  }

  /** Without a cancellation every connection is handled exactly once. */
  lemma CompleteUnlessCancelled(concurrency: int, total: nat, states: seq<State>, acts: seq<Action>, i: nat)
    requires Behaviour(concurrency, total, states, acts) && i < |states| && total > 0
    requires Finished(states[i]) && !states[i].cancelled
    ensures |states[i].results| == total
    ensures forall k: nat :: k < total ==> Reports(states[i].results, k) == 1
  {
    var s := states[i];
    Reachable(concurrency, total, states, acts, i);
    assert s.workers[0].Exited?;
    TotalZero(s.workers, Busy);
    forall k: nat | k < total ensures Reports(s.results, k) == 1 {
      TotalZero(s.workers, Holding(k));
      assert Places(s, k) == 1;
    }
  }

  /** What the worker that acted has in hand when it has just received it. */
  function Receives(a: Action, after: State): seq<nat> {
    if a.Take? && a.w < |after.workers| && after.workers[a.w].Taken? then [after.workers[a.w].i] else []
  }

  /** The tasks that workers have received from the first n actions, in order. */
  function Received(states: seq<State>, acts: seq<Action>, n: nat): seq<nat>
    requires n <= |acts| && |states| == |acts| + 1
  {
    if n == 0 then [] else Received(states, acts, n - 1) + Receives(acts[n - 1], states[n])
  }

  function UpTo(n: nat): seq<nat> {
    seq(n, k => k)
  }

  lemma TasksStep(s: State, a: Action)
    requires Enabled(s, a)
    ensures var sent := if a.Send? then [s.next] else [];
      && s.tasks + sent == Receives(a, Next(s, a)) + Next(s, a).tasks
      && UpTo(Next(s, a).next) == UpTo(s.next) + sent
  {
    if a.Take? { assert s.tasks == [s.tasks[0]] + s.tasks[1..]; }
  }

  /** Workers receive the connections in the order of the batch, and what they have not
      received of those sent is what the channel holds. */
  lemma {:induction false} ReceivedInOrder(concurrency: int, total: nat, states: seq<State>, acts: seq<Action>, i: nat)
    requires Behaviour(concurrency, total, states, acts) && i < |states|
    ensures Received(states, acts, i) + states[i].tasks == UpTo(states[i].next)
  {
    if i > 0 {
      hide Next, Enabled, UpTo, Receives;
      ReceivedInOrder(concurrency, total, states, acts, i - 1);
      TasksStep(states[i - 1], acts[i - 1]);
      var sent := if acts[i - 1].Send? then [states[i - 1].next] else [];
      Regroup(Received(states, acts, i - 1), states[i - 1].tasks, sent,
              Receives(acts[i - 1], states[i]), states[i].tasks);
    }
  }

  /** One of the first n actions rebuilt connection k with this outcome. */
  ghost predicate Rebuilt(states: seq<State>, acts: seq<Action>, n: nat, k: nat, success: bool)
    requires n <= |acts| && |states| == |acts| + 1
  {
    exists j, w :: 0 <= j < n && acts[j] == Rebuild(w, success) && InHand(states[j], w, Rebuilding(k))
  }

  /** One of them found the context cancelled with connection k in hand. */
  ghost predicate Skipped(states: seq<State>, acts: seq<Action>, n: nat, k: nat)
    requires n <= |acts| && |states| == |acts| + 1
  {
    exists j, w :: 0 <= j < n && acts[j] == LookAtContext(w) && InHand(states[j], w, Taken(k)) && states[j].cancelled
  }

  predicate InHand(s: State, w: nat, x: Worker) {
    w < |s.workers| && s.workers[w] == x
  }

  /** A success was rebuilt successfully; a failure failed to rebuild or was skipped. */
  ghost predicate Truly(states: seq<State>, acts: seq<Action>, n: nat, k: nat, success: bool)
    requires n <= |acts| && |states| == |acts| + 1
  {
    Rebuilt(states, acts, n, k, success) || (!success && Skipped(states, acts, n, k))
  }

  ghost predicate AllTrue(states: seq<State>, acts: seq<Action>, n: nat)
    requires n <= |acts| && |states| == |acts| + 1
  {
    && (forall r :: 0 <= r < |states[n].results| ==>
          Truly(states, acts, n, states[n].results[r].conn, states[n].results[r].success))
    && (forall w :: 0 <= w < |states[n].workers| && states[n].workers[w].Reporting? ==>
          Truly(states, acts, n, states[n].workers[w].i, states[n].workers[w].success))
  }

  lemma StillTrue(states: seq<State>, acts: seq<Action>, n: nat, k: nat, success: bool)
    requires 0 < n <= |acts| && |states| == |acts| + 1 && Truly(states, acts, n - 1, k, success)
    ensures Truly(states, acts, n, k, success)
  {
    if Rebuilt(states, acts, n - 1, k, success) {
      var j, w :| 0 <= j < n - 1 && acts[j] == Rebuild(w, success) && InHand(states[j], w, Rebuilding(k));
      assert Rebuilt(states, acts, n, k, success);
    } else {
      var j, w :|
        0 <= j < n - 1 && acts[j] == LookAtContext(w) && InHand(states[j], w, Taken(k)) && states[j].cancelled;
      assert Skipped(states, acts, n, k);
    }
  }

  lemma NowTrue(states: seq<State>, acts: seq<Action>, n: nat)
    requires 0 < n <= |acts| && |states| == |acts| + 1
    requires Enabled(states[n - 1], acts[n - 1]) && states[n] == Next(states[n - 1], acts[n - 1])
    requires acts[n - 1].Rebuild? || (acts[n - 1].LookAtContext? && states[n - 1].cancelled)
    ensures var x := states[n].workers[acts[n - 1].w]; x.Reporting? && Truly(states, acts, n, x.i, x.success)
  {
    var s, w := states[n - 1], acts[n - 1].w;
    if acts[n - 1].Rebuild? {
      assert InHand(s, w, Rebuilding(s.workers[w].i));
      assert Rebuilt(states, acts, n, s.workers[w].i, acts[n - 1].success);
    } else {
      assert InHand(s, w, Taken(s.workers[w].i));
      assert Skipped(states, acts, n, s.workers[w].i);
    }
  }

  /** What the results say is what happened: a success means that the connection was rebuilt,
      a failure that its rebuild failed or that the cancelled context was seen instead. */
  lemma {:induction false} ResultsAreTrue(concurrency: int, total: nat, states: seq<State>, acts: seq<Action>, i: nat)
    requires Behaviour(concurrency, total, states, acts) && i < |states|
    ensures AllTrue(states, acts, i)
  {
    if i > 0 {
      ResultsAreTrue(concurrency, total, states, acts, i - 1);
      var s, a := states[i - 1], acts[i - 1];
      if a.Rebuild? || (a.LookAtContext? && s.cancelled) { NowTrue(states, acts, i); }
      forall k, success | Truly(states, acts, i - 1, k, success) ensures Truly(states, acts, i, k, success) {
        StillTrue(states, acts, i, k, success);
      }
      hide Truly;
    }
  }

  /** On its way out after it has seen the cancelled context. */
  predicate Leaving(w: Worker) {
    w.Exited? || (w.Reporting? && !w.success && w.last)
  }

  lemma LeavingStep(s: State, a: Action, w: nat)
    requires Enabled(s, a) && w < |s.workers| && Leaving(s.workers[w])
    ensures w < |Next(s, a).workers| && Leaving(Next(s, a).workers[w])
  {
  }

  /** A worker that finds the context cancelled reports that connection as failed, takes no
      other one, and leaves. */
  lemma {:induction false} CancelledWorkerLeaves(
    concurrency: int, total: nat, states: seq<State>, acts: seq<Action>, i: nat, j: nat, w: nat)
    requires Behaviour(concurrency, total, states, acts) && i < j < |states|
    requires acts[i] == LookAtContext(w) && states[i].cancelled
    ensures w < |states[j].workers| && Leaving(states[j].workers[w])
  {
    if j > i + 1 {
      CancelledWorkerLeaves(concurrency, total, states, acts, i, j - 1, w);
      hide Next, Enabled, Leaving;
      LeavingStep(states[j - 1], acts[j - 1], w);
    }
  }

  ghost predicate Reaches(concurrency: int, total: nat, s: State) {
    exists states, acts :: Behaviour(concurrency, total, states, acts) && states[|states| - 1] == s
  }

  lemma Then(concurrency: int, total: nat, s: State, a: Action) returns (s': State)
    requires Reaches(concurrency, total, s) && Enabled(s, a)
    ensures s' == Next(s, a) && Reaches(concurrency, total, s')
  {
    hide Next, Enabled, Initial;
    var states, acts :| Behaviour(concurrency, total, states, acts) && states[|states| - 1] == s;
    s' := Next(s, a);
    assert Behaviour(concurrency, total, states + [s'], acts + [a]);
  }

  /** Workers below n leave one after the other. */
  lemma {:induction false} Empty(concurrency: int, total: nat, s0: State, n: nat) returns (s: State)
    requires Reaches(concurrency, total, s0) && s0.closed && s0.tasks == [] && n <= |s0.workers|
    requires forall w :: 0 <= w < |s0.workers| ==> s0.workers[w].Ready?
    ensures Reaches(concurrency, total, s) && |s.workers| == |s0.workers|
    ensures s == s0.(workers := s.workers)
    ensures forall w :: 0 <= w < |s.workers| ==> if w < n then s.workers[w].Exited? else s.workers[w].Ready?
  {
    hide Reaches;
    if n == 0 {
      s := s0;
    } else {
      s := Empty(concurrency, total, s0, n - 1);
      s := Then(concurrency, total, s, Leave(n - 1));
    }
  }

  /** How much of a batch is lost to a cancellation is not bounded: for every size it can be
      all of it, without a single result. */
  lemma AllCanBeSkipped(concurrency: int, total: nat) returns (s: State)
    requires total > 0
    ensures Reaches(concurrency, total, s) && Finished(s) && s.cancelled && s.results == []
  {
    var s0 := Initial(concurrency, total);
    assert Behaviour(concurrency, total, [s0], []);
    hide Reaches;
    s := Then(concurrency, total, s0, Cancel);
    s := Then(concurrency, total, s, StopSending);
    s := Empty(concurrency, total, s, |s.workers|);
  }

  function Weight(w: Worker): nat {
    match w
    case Exited => 0
    case Ready => 1
    case Reporting(_, _, _) => 3
    case Rebuilding(_) => 4
    case Taken(_) => 5
  }

  lemma {:induction false} ReadyWeights(n: nat)
    ensures Total(seq(n, _ => Ready), Weight) == n
  {
    if n > 0 {
      assert seq(n, _ => Ready)[..n - 1] == seq(n - 1, _ => Ready);
      ReadyWeights(n - 1);
    }
  }

  function Work(s: State): int {
    6 * (s.total - s.next) + 5 * |s.tasks| + Total(s.workers, Weight)
      + (if s.closed then 0 else 1) + (if s.cancelled then 0 else 1)
  }

  lemma StepsConsumeWork(s: State, a: Action)
    requires Enabled(s, a)
    ensures Work(Next(s, a)) < Work(s)
  {
    var s' := Next(s, a);
    if ByWorker(a) {
      TotalUpdate(s.workers, a.w, s'.workers[a.w], Weight);
    }
  }

  lemma {:induction false} WorkLeft(concurrency: int, total: nat, states: seq<State>, acts: seq<Action>, i: nat)
    requires Behaviour(concurrency, total, states, acts) && i < |states|
    ensures Work(states[i]) + i <= 6 * total + Crew(concurrency, total) + 2
  {
    if i == 0 {
      ReadyWeights(Crew(concurrency, total));
    } else {
      WorkLeft(concurrency, total, states, acts, i - 1);
      StepsConsumeWork(states[i - 1], acts[i - 1]);
    }
  }

  /** Every behaviour is finite, whatever the scheduler does. */
  lemma Terminates(concurrency: int, total: nat, states: seq<State>, acts: seq<Action>)
    requires Behaviour(concurrency, total, states, acts)
    ensures |acts| <= 6 * total + Crew(concurrency, total) + 2
  {
    WorkLeft(concurrency, total, states, acts, |acts|);
    Reachable(concurrency, total, states, acts, |acts|);
  }

  /** It only ever stops with all workers gone: as long as they are not, the dispatcher or
      some worker can take a step. */
  lemma NeverStuck(concurrency: int, total: nat, states: seq<State>, acts: seq<Action>, i: nat) returns (a: Action)
    requires Behaviour(concurrency, total, states, acts) && i < |states| && !Finished(states[i])
    ensures Enabled(states[i], a) && a != Cancel
  {
    var s := states[i];
    Reachable(concurrency, total, states, acts, i);
    if !s.closed {
      NoSendBlocks(concurrency, total, states, acts, i, 0);
      a := if s.next < s.total then Send else CloseTasks;
    } else {
      var w: nat :| w < |s.workers| && !s.workers[w].Exited?;
      NoSendBlocks(concurrency, total, states, acts, i, w);
      match s.workers[w] {
        case Ready => a := if s.tasks != [] then Take(w) else Leave(w);
        case Taken(_) => a := LookAtContext(w);
        case Rebuilding(_) => a := Rebuild(w, true);
        case Reporting(_, _, _) => a := Report(w);
      }
    }
  }

  // ---------------------------------------------------------------- dispatch and collection

  /** The batches, whatever their size, hand out the connections in order and each once. */
  method DispatchOrder(total: nat, configured: int) returns (sent: seq<nat>)
    ensures sent == seq(total, i => i)
  {
    var batchSize := if configured <= 0 then 5 else configured;
    sent := [];
    var i := 0;
    while i < total
      invariant 0 <= i && |sent| == if i < total then i else total
      invariant forall k :: 0 <= k < |sent| ==> sent[k] == k
      decreases total - i
    {
      var end := i + batchSize;
      if end > total {
        end := total;
      }
      for j := i to end
        invariant |sent| == j
        invariant forall k :: 0 <= k < |sent| ==> sent[k] == k
      {
        sent := sent + [j];
      }
      i := i + batchSize;
    }
  }

  function Successes(rs: seq<Result>): nat {
    if rs == [] then 0 else Successes(rs[..|rs| - 1]) + if rs[|rs| - 1].success then 1 else 0
  }

  lemma {:induction false} SuccessesCount(rs: seq<Result>)
    ensures Successes(rs) == |set i | 0 <= i < |rs| && rs[i].success|
  {
    if rs != [] {
      var n := |rs| - 1;
      SuccessesCount(rs[..n]);
      var front := set i | 0 <= i < n && rs[..n][i].success;
      assert (set i | 0 <= i < |rs| && rs[i].success) == if rs[n].success then front + {n} else front;
    }
  }

  /** The tallies add up to the number of results; an overall error means nothing succeeded. */
  method Collect(results: seq<Result>) returns (success: nat, failed: nat, error: bool)
    ensures success == Successes(results) && success + failed == |results|
    ensures success == |set i | 0 <= i < |results| && results[i].success|
    ensures error <==> results != [] && forall i :: 0 <= i < |results| ==> !results[i].success
  {
    success, failed := 0, 0;
    for i := 0 to |results|
      invariant success == Successes(results[..i]) && success + failed == i
      invariant success == 0 <==> forall k :: 0 <= k < i ==> !results[k].success
    {
      assert results[..i + 1][..i] == results[..i];
      if results[i].success {
        success := success + 1;
      } else {
        failed := failed + 1;
      }
    }
    assert results[..|results|] == results;
    SuccessesCount(results);
    error := failed > 0 && success == 0;
  }
}

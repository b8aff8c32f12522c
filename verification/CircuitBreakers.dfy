/** The circuit breaker (connection/resilience.go). The clock is a parameter of each call;
    the failure rate is a real number. */
module CircuitBreakers {
  import opened RealProducts

  datatype Mode = Closed | Open | HalfOpen

  datatype Config = Config(
    maxFailures: int, resetTimeout: int, failureThreshold: real, minRequests: int, maxRequests: int)

  datatype Breaker = Breaker(
    mode: Mode, failures: nat, requests: nat, successes: nat, nextRetryTime: int,
    halfOpenRequests: nat, halfOpenFailures: nat)

  const NEW := Breaker(Closed, 0, 0, 0, 0, 0, 0)

  const DEFAULT := Config(20, 30, 0.7, 30, 5)

  predicate ShouldTrip(cfg: Config, b: Breaker) {
    || b.failures >= cfg.maxFailures
    || (b.requests >= cfg.minRequests && b.requests > 0
        && RateReached(b.requests - b.successes, b.requests, cfg.failureThreshold))
  }

  predicate RateReached(failed: int, n: nat, threshold: real)
    requires n > 0
  {
    failed as real / n as real >= threshold
  }

  predicate Admits(cfg: Config, b: Breaker, now: int) {
    match b.mode
    case Closed => true
    case Open => now > b.nextRetryTime
    case HalfOpen => b.halfOpenRequests < cfg.maxRequests
  }

  function AfterAllow(cfg: Config, b: Breaker, now: int): Breaker {
    if b.mode.Open? && now > b.nextRetryTime then b.(mode := HalfOpen, halfOpenRequests := 0, halfOpenFailures := 0)
    else b
  }

  function Tripped(cfg: Config, b: Breaker, now: int): Breaker {
    b.(mode := Open, nextRetryTime := now + cfg.resetTimeout)
  }

  function AfterRecord(cfg: Config, b: Breaker, success: bool, now: int): Breaker {
    match b.mode
    case Open => b
    case Closed =>
      if success then b.(requests := b.requests + 1, successes := b.successes + 1, failures := 0)
      else
        var c := b.(requests := b.requests + 1, failures := b.failures + 1);
        if ShouldTrip(cfg, c) then Tripped(cfg, c, now) else c
    case HalfOpen =>
      var c := b.(halfOpenRequests := b.halfOpenRequests + 1);
      if !success then Tripped(cfg, c.(halfOpenFailures := c.halfOpenFailures + 1), now)
      else if c.halfOpenRequests >= cfg.minRequests
      then c.(mode := Closed, requests := 0, successes := 0, failures := 0)
      else c
  }

  class CircuitBreaker {
    const cfg: Config
    var mode: Mode
    var failures: nat
    var requests: nat
    var successes: nat
    var nextRetryTime: int
    var halfOpenRequests: nat
    var halfOpenFailures: nat

    ghost function View(): Breaker
      reads this
    {
      Breaker(mode, failures, requests, successes, nextRetryTime, halfOpenRequests, halfOpenFailures)
    }

    constructor (cfg: Config)
      ensures this.cfg == cfg && View() == NEW
    {
      this.cfg := cfg;
      mode, failures, requests, successes := Closed, 0, 0, 0;
      nextRetryTime, halfOpenRequests, halfOpenFailures := 0, 0, 0;
    }

    method AllowRequest(now: int) returns (ok: bool)
      modifies this
      ensures ok == Admits(cfg, old(View()), now) && View() == AfterAllow(cfg, old(View()), now)
      ensures ok <==>
        || old(mode) == Closed
        || (old(mode) == Open && now > old(nextRetryTime))
        || (old(mode) == HalfOpen && old(halfOpenRequests) < cfg.maxRequests)
      ensures mode == if old(mode) == Open && ok then HalfOpen else old(mode)
      ensures old(mode) == Open && ok ==> halfOpenRequests == halfOpenFailures == 0
    {
      match mode
      case Closed => return true;
      case Open =>
        if now > nextRetryTime {
          mode := HalfOpen;
          halfOpenRequests := 0;
          halfOpenFailures := 0;
          return true;
        }
        return false;
      case HalfOpen => return halfOpenRequests < cfg.maxRequests;
    }

    method RecordResult(success: bool, now: int)
      modifies this
      ensures View() == AfterRecord(cfg, old(View()), success, now)
      ensures old(mode) == Open ==> View() == old(View())
      ensures old(mode) == Closed ==>
        && requests == old(requests) + 1
        && successes == old(successes) + (if success then 1 else 0)
        && failures == (if success then 0 else old(failures) + 1)
        && (mode == Open <==>
              !success
              && (failures >= cfg.maxFailures
                  || (requests >= cfg.minRequests
                      && (requests - successes) as real >= cfg.failureThreshold * requests as real)))
        && (mode != Open ==> mode == Closed)
      ensures old(mode) == HalfOpen ==>
        && halfOpenRequests == old(halfOpenRequests) + 1
        && halfOpenFailures == old(halfOpenFailures) + (if success then 0 else 1)
        && mode == (if !success then Open else if halfOpenRequests >= cfg.minRequests then Closed else HalfOpen)
        && (mode == Closed ==> requests == successes == failures == 0)
      ensures old(mode) != Open && mode == Open ==> nextRetryTime == now + cfg.resetTimeout
    {
      if mode.Closed? && !success {
        RateMeans(requests + 1 - successes, requests + 1, cfg.failureThreshold);
      }
      match mode
      case Open =>
      case Closed =>
        requests := requests + 1;
        if success {
          successes := successes + 1;
          failures := 0;
        } else {
          failures := failures + 1;
          var counted :=
            Breaker(mode, failures, requests, successes, nextRetryTime, halfOpenRequests, halfOpenFailures);
          if ShouldTrip(cfg, counted) {
            mode := Open;
            nextRetryTime := now + cfg.resetTimeout;
          }
        }
      case HalfOpen =>
        halfOpenRequests := halfOpenRequests + 1;
        if success {
          if halfOpenRequests >= cfg.minRequests {
            mode := Closed;
            requests, successes, failures := 0, 0, 0;
          }
        } else {
          halfOpenFailures := halfOpenFailures + 1;
          mode := Open;
          nextRetryTime := now + cfg.resetTimeout;
        }
    }

    /** The operation runs, with the given outcome, only if the breaker admits it. */
    method Execute(outcome: bool, started: int, ended: int) returns (admitted: bool, ok: bool)
      modifies this
      ensures admitted == Admits(cfg, old(View()), started) && (ok <==> admitted && outcome)
      ensures View() == AfterExecute(cfg, old(View()), outcome, started, ended)
    {
      admitted := AllowRequest(started);
      if !admitted {
        return admitted, false;
      }
      RecordResult(outcome, ended);
      ok := outcome;
    }
  }

  function AfterExecute(cfg: Config, b: Breaker, outcome: bool, started: int, ended: int): Breaker {
    if Admits(cfg, b, started) then AfterRecord(cfg, AfterAllow(cfg, b, started), outcome, ended) else b
  }

  // ---------------------------------------------------------------- what the counters mean

  /** The breaker as a reader thinks of it: the results of the current closed period, or the
      number of straight successes of the current trial. */
  datatype Meaning = Counting(results: seq<bool>) | Refusing(until: int) | Trying(good: nat)

  function Failed(rs: seq<bool>): nat {
    if rs == [] then 0 else Failed(rs[..|rs| - 1]) + if rs[|rs| - 1] then 0 else 1
  }

  /** Length of the run of failures at the end. */
  function Trailing(rs: seq<bool>): nat {
    if rs == [] || rs[|rs| - 1] then 0 else Trailing(rs[..|rs| - 1]) + 1
  }

  predicate TooMany(cfg: Config, rs: seq<bool>) {
    || Trailing(rs) >= cfg.maxFailures
    || (|rs| >= cfg.minRequests && rs != [] && Failed(rs) as real >= cfg.failureThreshold * |rs| as real)
  }

  function MeaningAllow(cfg: Config, m: Meaning, now: int): Meaning {
    if m.Refusing? && now > m.until then Trying(0) else m
  }

  function MeaningRecord(cfg: Config, m: Meaning, success: bool, now: int): Meaning {
    match m
    case Refusing(_) => m
    case Counting(rs) =>
      if !success && TooMany(cfg, rs + [success]) then Refusing(now + cfg.resetTimeout) else Counting(rs + [success])
    case Trying(good) =>
      if !success then Refusing(now + cfg.resetTimeout)
      else if good + 1 >= cfg.minRequests then Counting([]) else Trying(good + 1)
  }

  predicate Means(b: Breaker, m: Meaning) {
    match m
    case Counting(rs) =>
      && b.mode.Closed? && b.requests == |rs| && b.successes == |rs| - Failed(rs) && b.failures == Trailing(rs)
    case Refusing(until) => b.mode.Open? && b.nextRetryTime == until
    case Trying(good) => b.mode.HalfOpen? && b.halfOpenRequests == good && b.halfOpenFailures == 0
  }

  /** One call on the breaker, by any thread. */
  datatype Call = Allow(now: int) | Record(success: bool, now: int)

  function AfterCall(cfg: Config, b: Breaker, c: Call): Breaker {
    match c
    case Allow(now) => AfterAllow(cfg, b, now)
    case Record(success, now) => AfterRecord(cfg, b, success, now)
  }

  function AfterCalls(cfg: Config, b: Breaker, cs: seq<Call>): Breaker {
    if cs == [] then b else AfterCall(cfg, AfterCalls(cfg, b, cs[..|cs| - 1]), cs[|cs| - 1])
  }

  function MeaningCalls(cfg: Config, cs: seq<Call>): Meaning {
    if cs == [] then Counting([])
    else
      var m := MeaningCalls(cfg, cs[..|cs| - 1]);
      match cs[|cs| - 1]
      case Allow(now) => MeaningAllow(cfg, m, now)
      case Record(success, now) => MeaningRecord(cfg, m, success, now)
  }

  lemma RateMeans(failed: int, n: nat, threshold: real)
    requires n > 0
    ensures RateReached(failed, n, threshold) <==> failed as real >= threshold * n as real
  {
    var q, d := failed as real / n as real, n as real;
    assert q * d == failed as real;
    if q >= threshold { ScaleReal(threshold, q, d); } else { ScaleRealStrict(q, threshold, d); }
  }

  lemma TripMeans(cfg: Config, b: Breaker, rs: seq<bool>)
    requires b.requests == |rs| && b.successes == |rs| - Failed(rs) && b.failures == Trailing(rs)
    ensures ShouldTrip(cfg, b) <==> TooMany(cfg, rs)
  {
    hide RateReached, Failed, Trailing;
    if rs != [] {
      assert b.requests - b.successes == Failed(rs);
      RateMeans(b.requests - b.successes, b.requests, cfg.failureThreshold);
    }
  }

  lemma AppendedResult(rs: seq<bool>, success: bool)
    ensures Failed(rs + [success]) == Failed(rs) + if success then 0 else 1
    ensures Trailing(rs + [success]) == if success then 0 else Trailing(rs) + 1
    ensures Failed([]) == 0 && Trailing([]) == 0
  {
    assert (rs + [success])[..|rs|] == rs;
  }

  lemma RecordMeans(cfg: Config, b: Breaker, m: Meaning, success: bool, now: int)
    requires Means(b, m)
    ensures Means(AfterRecord(cfg, b, success, now), MeaningRecord(cfg, m, success, now))
  {
    hide ShouldTrip, TooMany, Failed, Trailing;
    AppendedResult(if m.Counting? then m.results else [], success);
    if m.Counting? {
      if !success {
        TripMeans(cfg, b.(requests := b.requests + 1, failures := b.failures + 1), m.results + [success]);
      }
    }
  }

  /** Whether the next request is admitted. */
  predicate Welcomes(cfg: Config, m: Meaning, now: int) {
    match m
    case Counting(_) => true
    case Refusing(until) => now > until
    case Trying(good) => good < cfg.maxRequests
  }

  /** In any interleaving of admissions and results, the counters are functions of the
      results recorded since the last reset, and the mode is what these results call for. */
  lemma {:induction false} CountersMeanHistory(cfg: Config, cs: seq<Call>)
    ensures Means(AfterCalls(cfg, NEW, cs), MeaningCalls(cfg, cs))
    ensures forall now :: Admits(cfg, AfterCalls(cfg, NEW, cs), now) <==> Welcomes(cfg, MeaningCalls(cfg, cs), now)
  {
    if cs != [] {
      CountersMeanHistory(cfg, cs[..|cs| - 1]);
      var b, m := AfterCalls(cfg, NEW, cs[..|cs| - 1]), MeaningCalls(cfg, cs[..|cs| - 1]);
      match cs[|cs| - 1]
      case Allow(now) =>
      case Record(success, now) => RecordMeans(cfg, b, m, success, now);
    }
  }

  lemma {:induction false} NotTooManyWhileClosed(cfg: Config, cs: seq<Call>)
    ensures var m := MeaningCalls(cfg, cs);
      m.Counting? && m.results != [] && !m.results[|m.results| - 1] ==> !TooMany(cfg, m.results)
    ensures var m := MeaningCalls(cfg, cs); m.Trying? ==> m.good < cfg.minRequests || m.good == 0
  {
    if cs != [] { NotTooManyWhileClosed(cfg, cs[..|cs| - 1]); }
  }

  /** While closed, and with a failure as the last result, neither the run of failures nor
      their share calls for opening. */
  lemma ClosedIsHealthy(cfg: Config, cs: seq<Call>)
    ensures var m := MeaningCalls(cfg, cs);
      m.Counting? && m.results != [] && !m.results[|m.results| - 1] ==>
        && Trailing(m.results) < cfg.maxFailures
        && (|m.results| < cfg.minRequests
            || Failed(m.results) as real < cfg.failureThreshold * |m.results| as real)
    ensures var m := MeaningCalls(cfg, cs); m.Trying? ==> m.good < cfg.minRequests || m.good == 0
  {
    NotTooManyWhileClosed(cfg, cs);
    hide MeaningCalls, Failed, Trailing;
  }

  /** A closed breaker has fewer straight failures than the limit, and none when the limit is
      not positive; an open or half-open one has no failure in its current trial. */
  lemma ClosedBelowLimit(cfg: Config, cs: seq<Call>)
    ensures var b := AfterCalls(cfg, NEW, cs);
      && (b.mode.Closed? ==> b.successes <= b.requests && (b.failures == 0 || b.failures < cfg.maxFailures))
      && (b.mode.HalfOpen? ==> b.halfOpenFailures == 0)
  {
    CountersMeanHistory(cfg, cs);
    ClosedIsHealthy(cfg, cs);
    var m := MeaningCalls(cfg, cs);
    if m.Counting? { FailedAtMost(m.results); }
  }

  lemma {:induction false} FailedAtMost(rs: seq<bool>)
    ensures Failed(rs) <= |rs|
  {
    if rs != [] { FailedAtMost(rs[..|rs| - 1]); }
  }

  // ---------------------------------------------------------------- executions

  /** One execution: the outcome of the operation if it runs, and when it starts and ends. */
  datatype Execution = Execution(outcome: bool, started: int, ended: int)

  function AfterExecutions(cfg: Config, b: Breaker, xs: seq<Execution>): Breaker {
    if xs == [] then b
    else
      var x := xs[|xs| - 1];
      AfterExecute(cfg, AfterExecutions(cfg, b, xs[..|xs| - 1]), x.outcome, x.started, x.ended)
  }

  function MeaningExecutions(cfg: Config, xs: seq<Execution>): Meaning {
    if xs == [] then Counting([])
    else
      var m, x := MeaningExecutions(cfg, xs[..|xs| - 1]), xs[|xs| - 1];
      if Welcomes(cfg, m, x.started) then MeaningRecord(cfg, MeaningAllow(cfg, m, x.started), x.outcome, x.ended)
      else m
  }

  /** An admitted execution counts with its own outcome, and a refused one not at all. */
  lemma ExecutionMeans(cfg: Config, b: Breaker, m: Meaning, x: Execution)
    requires Means(b, m)
    ensures Means(AfterExecute(cfg, b, x.outcome, x.started, x.ended),
      if Welcomes(cfg, m, x.started) then MeaningRecord(cfg, MeaningAllow(cfg, m, x.started), x.outcome, x.ended)
      else m)
  {
    hide MeaningRecord, AfterRecord;
    if Welcomes(cfg, m, x.started) {
      RecordMeans(cfg, AfterAllow(cfg, b, x.started), MeaningAllow(cfg, m, x.started), x.outcome, x.ended);
    }
  }

  /** Whatever the outcomes of executions made one after the other, the breaker is what the
      outcomes of the admitted ones call for. */
  lemma {:induction false} ExecutionsMeanHistory(cfg: Config, xs: seq<Execution>)
    ensures Means(AfterExecutions(cfg, NEW, xs), MeaningExecutions(cfg, xs))
  {
    if xs != [] {
      var front := xs[..|xs| - 1];
      ExecutionsMeanHistory(cfg, front);
      ExecutionMeans(cfg, AfterExecutions(cfg, NEW, front), MeaningExecutions(cfg, front), xs[|xs| - 1]);
    }
  }

  function Outcomes(xs: seq<Execution>): seq<bool> {
    seq(|xs|, i requires 0 <= i < |xs| => xs[i].outcome)
  }

  /** The last result is a failure, and the run of failures it ends or the share of failures
      so far calls for opening. */
  predicate CallsForOpening(cfg: Config, rs: seq<bool>) {
    && rs != [] && !rs[|rs| - 1]
    && (|| Trailing(rs) >= cfg.maxFailures
        || (|rs| >= cfg.minRequests && Failed(rs) as real >= cfg.failureThreshold * |rs| as real))
  }

  predicate ClosedAfter(cfg: Config, xs: seq<Execution>, k: nat)
    requires k <= |xs|
  {
    AfterExecutions(cfg, NEW, xs[..k]).mode.Closed?
  }

  ghost predicate ClosedThroughout(cfg: Config, xs: seq<Execution>) {
    forall k :: 0 <= k <= |xs| ==> ClosedAfter(cfg, xs, k)
  }

  predicate OpensAt(cfg: Config, rs: seq<bool>, k: nat)
    requires k <= |rs|
  {
    CallsForOpening(cfg, rs[..k])
  }

  /** No failure among the results calls for opening. */
  ghost predicate Harmless(cfg: Config, rs: seq<bool>) {
    forall k :: 0 <= k <= |rs| ==> !OpensAt(cfg, rs, k)
  }

  lemma ThroughoutGrows(cfg: Config, xs: seq<Execution>)
    requires xs != []
    ensures ClosedThroughout(cfg, xs) <==>
      ClosedThroughout(cfg, xs[..|xs| - 1]) && AfterExecutions(cfg, NEW, xs).mode.Closed?
  {
    var front := xs[..|xs| - 1];
    assert xs[..|xs|] == xs;
    assert AfterExecutions(cfg, NEW, xs).mode.Closed? == ClosedAfter(cfg, xs, |xs|);
    forall k | 0 <= k < |xs| ensures ClosedAfter(cfg, front, k) == ClosedAfter(cfg, xs, k) {
      assert front[..k] == xs[..k];
    }
    hide ClosedAfter, AfterExecutions;
  }

  lemma HarmlessGrows(cfg: Config, rs: seq<bool>)
    requires rs != []
    ensures Harmless(cfg, rs) <==> Harmless(cfg, rs[..|rs| - 1]) && !CallsForOpening(cfg, rs)
  {
    var front := rs[..|rs| - 1];
    assert rs[..|rs|] == rs;
    assert CallsForOpening(cfg, rs) == OpensAt(cfg, rs, |rs|);
    forall k | 0 <= k < |rs| ensures OpensAt(cfg, front, k) == OpensAt(cfg, rs, k) {
      assert front[..k] == rs[..k];
    }
    hide OpensAt, CallsForOpening;
  }

  /** A new breaker stays closed through a series of executions if and only if no failure
      among them completes a run of MaxFailures failures, or a share of failures at the
      threshold once MinRequests is reached. */
  lemma {:induction false} StaysClosedIff(cfg: Config, xs: seq<Execution>)
    ensures ClosedThroughout(cfg, xs) <==> Harmless(cfg, Outcomes(xs))
    ensures ClosedThroughout(cfg, xs) ==> MeaningExecutions(cfg, xs) == Counting(Outcomes(xs))
  {
    if xs != [] {
      hide ClosedThroughout, Harmless, CallsForOpening, AfterExecutions, MeaningExecutions;
      var n := |xs| - 1;
      StaysClosedIff(cfg, xs[..n]);
      assert Outcomes(xs[..n]) == Outcomes(xs)[..n];
      ThroughoutGrows(cfg, xs);
      HarmlessGrows(cfg, Outcomes(xs));
      if ClosedThroughout(cfg, xs[..n]) { LastOfSeries(cfg, xs); }
    }
  }

  lemma LastOfSeries(cfg: Config, xs: seq<Execution>)
    requires xs != [] && MeaningExecutions(cfg, xs[..|xs| - 1]) == Counting(Outcomes(xs[..|xs| - 1]))
    ensures Means(AfterExecutions(cfg, NEW, xs), MeaningExecutions(cfg, xs))
    ensures AfterExecutions(cfg, NEW, xs).mode.Closed? <==> !CallsForOpening(cfg, Outcomes(xs))
    ensures !CallsForOpening(cfg, Outcomes(xs)) ==> MeaningExecutions(cfg, xs) == Counting(Outcomes(xs))
  {
    hide AfterExecutions, Failed, Trailing;
    ExecutionsMeanHistory(cfg, xs);
    assert Outcomes(xs) == Outcomes(xs[..|xs| - 1]) + [xs[|xs| - 1].outcome];
  }

  // ---------------------------------------------------------------- open

  /** A breaker that opened at time t refuses everything asked up to t plus the timeout,
      whatever late results arrive, and admits the first request asked after it. */
  lemma {:induction false} RefusesUntilTimeout(cfg: Config, b: Breaker, cs: seq<Call>, now: int)
    requires b.mode.Open? && forall i :: 0 <= i < |cs| && cs[i].Allow? ==> cs[i].now <= b.nextRetryTime
    ensures AfterCalls(cfg, b, cs) == b
    ensures Admits(cfg, AfterCalls(cfg, b, cs), now) <==> now > b.nextRetryTime
  {
    if cs != [] {
      var n := |cs| - 1;
      assert cs[n].Allow? ==> cs[n].now <= b.nextRetryTime;
      assert forall i :: 0 <= i < n ==> cs[..n][i] == cs[i];
      RefusesUntilTimeout(cfg, b, cs[..n], now);
    }
  }

  // ---------------------------------------------------------------- half-open

  /** n successful executions one after the other. */
  function Successes(cfg: Config, b: Breaker, n: nat, now: int): Breaker {
    if n == 0 then b else AfterExecute(cfg, Successes(cfg, b, n - 1, now), true, now, now)
  }

  function AtLeastOne(n: int): nat {
    if n < 1 then 1 else n
  }

  /** An open breaker whose timeout has passed. */
  predicate Ripe(b: Breaker, now: int) {
    b.mode.Open? && now > b.nextRetryTime
  }

  lemma {:induction false} TrialSoFar(cfg: Config, b: Breaker, n: nat, now: int)
    requires Ripe(b, now) && 1 <= n < AtLeastOne(cfg.minRequests) && n <= AtLeastOne(cfg.maxRequests)
    ensures Successes(cfg, b, n, now).mode.HalfOpen? && Successes(cfg, b, n, now).halfOpenRequests == n
  {
    if n > 1 { TrialSoFar(cfg, b, n - 1, now); }
    assert Successes(cfg, b, 0, now) == b;
  }

  predicate CanClose(cfg: Config) {
    cfg.minRequests <= 1 || cfg.minRequests <= cfg.maxRequests
  }

  /** The trial closes the breaker after exactly max(1, MinRequests) straight successes, if
      the configuration lets it close at all. */
  lemma ClosesExactly(cfg: Config, b: Breaker, n: nat, now: int)
    requires Ripe(b, now) && CanClose(cfg) && n <= AtLeastOne(cfg.minRequests)
    ensures Successes(cfg, b, n, now).mode.Closed? <==> n == AtLeastOne(cfg.minRequests)
    ensures n < AtLeastOne(cfg.minRequests) ==> Admits(cfg, Successes(cfg, b, n, now), now)
  {
    var k := AtLeastOne(cfg.minRequests);
    assert Successes(cfg, b, 0, now) == b;
    if 1 <= n < k { TrialSoFar(cfg, b, n, now); }
    if n == k && k > 1 { TrialSoFar(cfg, b, k - 1, now); }
  }

  /** A half-open breaker that has used up its requests. */
  predicate Spent(cfg: Config, b: Breaker) {
    b.mode.HalfOpen? && b.halfOpenRequests >= cfg.maxRequests
  }

  /** As long as no result arrives it refuses everything. */
  lemma {:induction false} SpentRefusesMeanwhile(cfg: Config, b: Breaker, cs: seq<Call>, now: int)
    requires Spent(cfg, b) && forall i :: 0 <= i < |cs| ==> cs[i].Allow?
    ensures AfterCalls(cfg, b, cs) == b && !Admits(cfg, b, now)
  {
    if cs != [] { SpentRefusesMeanwhile(cfg, b, cs[..|cs| - 1], now); }
  }

  lemma {:induction false} SpentExecutions(cfg: Config, b: Breaker, n: nat, m: nat, now: int)
    requires Spent(cfg, Successes(cfg, b, n, now)) && n <= m
    ensures Successes(cfg, b, m, now) == Successes(cfg, b, n, now)
  {
    if n < m { SpentExecutions(cfg, b, n, m - 1, now); }
  }

  /** Otherwise no number of successful executions, one after the other, closes it. */
  lemma NeverClosesInSequence(cfg: Config, b: Breaker, n: nat, now: int)
    requires Ripe(b, now) && !CanClose(cfg)
    ensures !Successes(cfg, b, n, now).mode.Closed?
    ensures n >= AtLeastOne(cfg.maxRequests) ==> Spent(cfg, Successes(cfg, b, n, now))
  {
    var k := AtLeastOne(cfg.maxRequests);
    assert Successes(cfg, b, 0, now) == b;
    TrialSoFar(cfg, b, k, now);
    if n >= k { SpentExecutions(cfg, b, k, n, now); } else if n > 0 { TrialSoFar(cfg, b, n, now); }
  }

  /** Enough successful executions, one after the other, close a half-open breaker if and only
      if MinRequests is at most 1 or at most MaxRequests. */
  lemma SequentialRecoversIff(cfg: Config, b: Breaker, now: int)
    requires Ripe(b, now)
    ensures (exists n: nat :: Successes(cfg, b, n, now).mode.Closed?) <==> CanClose(cfg)
  {
    if CanClose(cfg) {
      ClosesExactly(cfg, b, AtLeastOne(cfg.minRequests), now);
    } else {
      forall n: nat ensures !Successes(cfg, b, n, now).mode.Closed? { NeverClosesInSequence(cfg, b, n, now); }
    }
  }

  /** Under the default configuration, after five good trials one after the other nothing is
      in flight and nothing more is admitted. */
  lemma DefaultStaysHalfOpenInSequence(b: Breaker, n: nat, now: int, later: int)
    requires Ripe(b, now) && n >= 5
    ensures !Admits(DEFAULT, Successes(DEFAULT, b, n, now), later)
  {
    NeverClosesInSequence(DEFAULT, b, n, now);
    SpentRefusesMeanwhile(DEFAULT, Successes(DEFAULT, b, n, now), [], later);
  }

  /** While no result arrives, a half-open breaker with MaxRequests of 1 or more goes on
      admitting: the limit does not bound the requests in flight. */
  lemma {:induction false} TrialsInFlightIff(cfg: Config, b: Breaker, n: nat, now: int)
    requires Ripe(b, now)
    ensures var c := AfterCalls(cfg, b, seq(n, _ => Allow(now)));
      && (Admits(cfg, c, now) <==> n == 0 || cfg.maxRequests >= 1)
      && (n > 0 ==> c.mode.HalfOpen? && c.halfOpenRequests == 0)
  {
    if n > 0 {
      assert seq(n, _ => Allow(now))[..n - 1] == seq(n - 1, _ => Allow(now));
      TrialsInFlightIff(cfg, b, n - 1, now);
    }
  }
}

/** The half-open phase under overlapping requests (connection/resilience.go): every result
    answers a request admitted earlier, before the breaker opened or since, all results are
    good, and at most m requests are in flight at a time. */
module BreakerTrials {
  import opened CircuitBreakers

  datatype Trial = Trial(breaker: Breaker, inFlight: nat)

  datatype Move = Ask(now: int) | Answer(now: int)

  /** A caller that would be one too many does not ask for a request that would be admitted. */
  predicate Enabled(cfg: Config, m: nat, s: Trial, a: Move) {
    match a
    case Ask(now) => Admits(cfg, s.breaker, now) ==> s.inFlight < m
    case Answer(_) => s.inFlight > 0
  }

  function Next(cfg: Config, m: nat, s: Trial, a: Move): Trial
    requires Enabled(cfg, m, s, a)
  {
    match a
    case Ask(now) =>
      Trial(AfterAllow(cfg, s.breaker, now), if Admits(cfg, s.breaker, now) then s.inFlight + 1 else s.inFlight)
    case Answer(now) => Trial(AfterRecord(cfg, s.breaker, true, now), s.inFlight - 1)
  }

  predicate Run(cfg: Config, m: nat, states: seq<Trial>, moves: seq<Move>) {
    && |states| == |moves| + 1
    && forall i :: 0 <= i < |moves| ==>
      Enabled(cfg, m, states[i], moves[i]) && states[i + 1] == Next(cfg, m, states[i], moves[i])
  }

  /** Some run leads from s to s'. */
  ghost predicate Leads(cfg: Config, m: nat, s: Trial, s': Trial) {
    exists states, moves :: Run(cfg, m, states, moves) && states[0] == s && states[|states| - 1] == s'
  }

  ghost predicate CanReachClosed(cfg: Config, m: nat, s: Trial) {
    exists s' :: Leads(cfg, m, s, s') && s'.breaker.mode.Closed?
  }

  /** How many results can ever count between the timeout and a reset, when `late` requests
      from before are in flight: the code cannot tell their results from those of the trial. */
  function MostTrials(cfg: Config, m: nat, late: nat): nat {
    if m == 0 then 0
    else if cfg.maxRequests >= 1 then cfg.maxRequests - 1 + m
    else if late < m then late + 1 else m
  }

  // ---------------------------------------------------------------- no more than that

  /** No reset has happened yet, and results counted and in flight are within their number. */
  predicate Bounded(cfg: Config, m: nat, late: nat, s: Trial) {
    match s.breaker.mode
    case Open => s.inFlight <= late
    case HalfOpen => s.inFlight <= m && s.breaker.halfOpenRequests + s.inFlight <= MostTrials(cfg, m, late)
    case Closed => AtLeastOne(cfg.minRequests) <= MostTrials(cfg, m, late)
  }

  lemma BoundedStep(cfg: Config, m: nat, late: nat, s: Trial, a: Move)
    requires Bounded(cfg, m, late, s) && Enabled(cfg, m, s, a)
    ensures Bounded(cfg, m, late, Next(cfg, m, s, a))
  {
  }

  lemma {:induction false} AlwaysBounded(
    cfg: Config, m: nat, late: nat, states: seq<Trial>, moves: seq<Move>, i: nat)
    requires Run(cfg, m, states, moves) && i < |states| && Bounded(cfg, m, late, states[0])
    ensures Bounded(cfg, m, late, states[i])
  {
    if i > 0 {
      AlwaysBounded(cfg, m, late, states, moves, i - 1);
      BoundedStep(cfg, m, late, states[i - 1], moves[i - 1]);
    }
  }

  // ---------------------------------------------------------------- and as many as that

  lemma Stay(cfg: Config, m: nat, s: Trial)
    ensures Leads(cfg, m, s, s)
  {
    assert Run(cfg, m, [s], []);
  }

  lemma Then(cfg: Config, m: nat, s: Trial, s1: Trial, a: Move) returns (s2: Trial)
    requires Leads(cfg, m, s, s1) && Enabled(cfg, m, s1, a)
    ensures s2 == Next(cfg, m, s1, a) && Leads(cfg, m, s, s2)
  {
    hide Next, Enabled;
    var states, moves :| Run(cfg, m, states, moves) && states[0] == s && states[|states| - 1] == s1;
    s2 := Next(cfg, m, s1, a);
    assert Run(cfg, m, states + [s2], moves + [a]);
  }

  /** In the middle of a trial: k answers given, j requests in flight. */
  predicate Midway(s: Trial, k: nat, j: nat) {
    s.breaker.mode.HalfOpen? && s.breaker.halfOpenRequests == k && s.inFlight == j
  }

  /** Late results that arrive while the breaker is open change nothing. */
  lemma {:induction false} Forget(cfg: Config, m: nat, s: Trial, n: nat) returns (s': Trial)
    requires s.breaker.mode.Open? && n <= s.inFlight
    ensures Leads(cfg, m, s, s') && s' == Trial(s.breaker, s.inFlight - n)
  {
    if n == 0 {
      Stay(cfg, m, s);
      s' := s;
    } else {
      var s1 := Forget(cfg, m, s, n - 1);
      s' := Then(cfg, m, s, s1, Answer(0));
    }
  }

  /** k trials one after the other, and one more request. */
  lemma {:induction false} OneAtATime(cfg: Config, m: nat, s: Trial, s0: Trial, now: int, k: nat) returns (s': Trial)
    requires Leads(cfg, m, s, s0) && Ripe(s0.breaker, now) && s0.inFlight == 0 && m >= 1
    requires k < AtLeastOne(cfg.minRequests) && k < AtLeastOne(cfg.maxRequests)
    ensures Leads(cfg, m, s, s') && Midway(s', k, 1)
  {
    if k == 0 {
      s' := Then(cfg, m, s, s0, Ask(now));
    } else {
      var s1 := OneAtATime(cfg, m, s, s0, now, k - 1);
      var s2 := Then(cfg, m, s, s1, Answer(now));
      s' := Then(cfg, m, s, s2, Ask(now));
    }
  }

  /** Further requests while nothing is answered. */
  lemma {:induction false} Overlap(cfg: Config, m: nat, s: Trial, s1: Trial, now: int, k: nat, j: nat)
    returns (s': Trial)
    requires Leads(cfg, m, s, s1) && Midway(s1, k, 1)
    requires 1 <= j <= m && (j > 1 ==> k < cfg.maxRequests)
    ensures Leads(cfg, m, s, s') && Midway(s', k, j)
  {
    if j == 1 {
      s' := s1;
    } else {
      var s2 := Overlap(cfg, m, s, s1, now, k, j - 1);
      s' := Then(cfg, m, s, s2, Ask(now));
    }
  }

  /** Enough good answers are under way: they close the breaker. */
  lemma {:induction false} Settle(cfg: Config, m: nat, s: Trial, s1: Trial, now: int, k: nat, j: nat)
    returns (s': Trial)
    requires Leads(cfg, m, s, s1) && Midway(s1, k, j) && j >= 1 && k + j >= cfg.minRequests
    ensures Leads(cfg, m, s, s') && s'.breaker.mode.Closed?
    decreases j
  {
    s' := Then(cfg, m, s, s1, Answer(now));
    if !s'.breaker.mode.Closed? {
      s' := Settle(cfg, m, s, s', now, k + 1, j - 1);
    }
  }

  /** Where the limit admits trials: late requests are of no use, so let them come in first. */
  lemma TrialsClose(cfg: Config, m: nat, s: Trial, now: int)
    requires Ripe(s.breaker, now) && m >= 1 && cfg.maxRequests >= 1
    requires AtLeastOne(cfg.minRequests) <= MostTrials(cfg, m, s.inFlight)
    ensures CanReachClosed(cfg, m, s)
  {
    var least, most := AtLeastOne(cfg.minRequests), AtLeastOne(cfg.maxRequests);
    var k := if most < least then most - 1 else least - 1;
    var s0 := Forget(cfg, m, s, s.inFlight);
    var s1 := OneAtATime(cfg, m, s, s0, now, k);
    var s2 := Overlap(cfg, m, s, s1, now, k, least - k);
    var s3 := Settle(cfg, m, s, s2, now, k, least - k);
  }

  /** Where it does not, the one admitted request and the late ones have to do. */
  lemma LateResultsClose(cfg: Config, m: nat, s: Trial, now: int)
    requires Ripe(s.breaker, now) && m >= 1 && s.inFlight <= m
    requires AtLeastOne(cfg.minRequests) <= (if s.inFlight < m then s.inFlight + 1 else m)
    ensures CanReachClosed(cfg, m, s)
  {
    var s0 := Forget(cfg, m, s, if s.inFlight < m then 0 else 1);
    var s1 := Then(cfg, m, s, s0, Ask(now));
    var s2 := Settle(cfg, m, s, s1, now, 0, s1.inFlight);
  }

  /** With `late` requests still in flight from before the breaker opened, at most m in flight
      at a time and only good results, some run closes the breaker if and only if MinRequests
      is at most MaxRequests - 1 + m, however many are late; where MaxRequests is not positive,
      if and only if it is at most one more than the late ones, and at most m. */
  lemma OverlappingRecoversIff(cfg: Config, m: nat, late: nat, b: Breaker, now: int)
    requires Ripe(b, now) && m >= 1 && late <= m
    ensures CanReachClosed(cfg, m, Trial(b, late)) <==>
      if cfg.maxRequests >= 1 then cfg.minRequests <= cfg.maxRequests - 1 + m
      else cfg.minRequests <= late + 1 && cfg.minRequests <= m
  {
    var s := Trial(b, late);
    if AtLeastOne(cfg.minRequests) <= MostTrials(cfg, m, late) {
      if cfg.maxRequests >= 1 { TrialsClose(cfg, m, s, now); } else { LateResultsClose(cfg, m, s, now); }
    }
    if s' :| Leads(cfg, m, s, s') && s'.breaker.mode.Closed? {
      var states, moves :| Run(cfg, m, states, moves) && states[0] == s && states[|states| - 1] == s';
      AlwaysBounded(cfg, m, late, states, moves, |states| - 1);
    }
  }

  /** Straight successes one after the other are the case of one request in flight. */
  lemma SequentialIsOneInFlight(cfg: Config, b: Breaker, now: int)
    requires Ripe(b, now)
    ensures CanReachClosed(cfg, 1, Trial(b, 0)) <==> exists n: nat :: Successes(cfg, b, n, now).mode.Closed?
  {
    OverlappingRecoversIff(cfg, 1, 0, b, now);
    SequentialRecoversIff(cfg, b, now);
  }

  /** The default configuration closes again only if 26 requests can be in flight at once. */
  lemma DefaultRecoversIff(m: nat, late: nat, b: Breaker, now: int)
    requires Ripe(b, now) && m >= 1 && late <= m
    ensures CanReachClosed(DEFAULT, m, Trial(b, late)) <==> m >= 26
  {
    OverlappingRecoversIff(DEFAULT, m, late, b, now);
  }

  // ---------------------------------------------------------------- a spent breaker

  /** A half-open breaker that has used up its requests admits nothing, and its answered and
      outstanding trials stay the same together until it closes. */
  predicate Draining(cfg: Config, s: Trial, total: nat) {
    if s.breaker.mode.Closed? then AtLeastOne(cfg.minRequests) <= total
    else Spent(cfg, s.breaker) && s.breaker.halfOpenRequests + s.inFlight == total
  }

  lemma {:induction false} AlwaysDraining(
    cfg: Config, m: nat, states: seq<Trial>, moves: seq<Move>, total: nat, i: nat)
    requires Run(cfg, m, states, moves) && i < |states| && Draining(cfg, states[0], total)
    ensures Draining(cfg, states[i], total)
  {
    if i > 0 { AlwaysDraining(cfg, m, states, moves, total, i - 1); }
  }

  /** Good results close a spent breaker if and only if something is in flight and, with the
      results it has, reaches MinRequests; otherwise it refuses for ever. */
  lemma SpentRecoversIff(cfg: Config, m: nat, s: Trial)
    requires Spent(cfg, s.breaker)
    ensures CanReachClosed(cfg, m, s) <==>
      s.inFlight > 0 && s.breaker.halfOpenRequests + s.inFlight >= cfg.minRequests
  {
    var k, j := s.breaker.halfOpenRequests, s.inFlight;
    if j > 0 && k + j >= cfg.minRequests {
      Stay(cfg, m, s);
      var s' := Settle(cfg, m, s, s, 0, k, j);
    }
    if s' :| Leads(cfg, m, s, s') && s'.breaker.mode.Closed? {
      var states, moves :| Run(cfg, m, states, moves) && states[0] == s && states[|states| - 1] == s';
      if j == 0 {
        AlwaysIdle(cfg, m, states, moves, |states| - 1);
      } else {
        AlwaysDraining(cfg, m, states, moves, k + j, |states| - 1);
      }
    }
  }

  /** With nothing in flight no result can arrive. */
  lemma {:induction false} AlwaysIdle(cfg: Config, m: nat, states: seq<Trial>, moves: seq<Move>, i: nat)
    requires Run(cfg, m, states, moves) && i < |states|
    requires Spent(cfg, states[0].breaker) && states[0].inFlight == 0
    ensures states[i] == states[0]
  {
    if i > 0 { AlwaysIdle(cfg, m, states, moves, i - 1); }
  }
}

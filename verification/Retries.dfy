/** Retry policies and the retrier (connection/resilience.go). Durations are integers,
    the backoff factor and the jitter are reals. */
module Retries {
  import opened Options
  import opened RealProducts

  /** An error is the set of identities found along its chain of causes. */
  type Error = set<int>

  datatype Policy =
    | Exponential(base: int, max: int, factor: real, maxAttempts: int, jitter: bool, retryable: seq<int>)
    | Fixed(interval: int, maxAttempts: int, retryable: seq<int>)

  /** Conversion of a real to an integer, toward zero. */
  function Trunc(x: real): int {
    if x >= 0.0 then x.Floor else -((-x).Floor)
  }

  function Grown(p: Policy, delay: int): int
    requires p.Exponential?
  {
    Trunc(delay as real * p.factor)
  }

  predicate Retryable(p: Policy, err: Error) {
    p.retryable == [] || exists i :: 0 <= i < |p.retryable| && p.retryable[i] in err
  }

  method ShouldRetry(p: Policy, attempt: int, err: Error) returns (again: bool)
    ensures again == (attempt < p.maxAttempts && Retryable(p, err))
    ensures again <==>
      attempt < p.maxAttempts && (p.retryable == [] || exists i :: 0 <= i < |p.retryable| && p.retryable[i] in err)
  {
    if attempt >= p.maxAttempts {
      return false;
    }
    if |p.retryable| > 0 {
      for i := 0 to |p.retryable|
        invariant forall j :: 0 <= j < i ==> p.retryable[j] !in err
      {
        if p.retryable[i] in err {
          return true;
        }
      }
      return false;
    }
    return true;
  }

  // ---------------------------------------------------------------- backoff

  /** The delay before attempt n + 1 if there were no limit. */
  function Unlimited(p: Policy, n: nat): int
    requires p.Exponential? && n >= 1
  {
    if n == 1 then p.base else Grown(p, Unlimited(p, n - 1))
  }

  /** Growing beyond the limit at or before step n. */
  ghost predicate Crossed(p: Policy, n: nat)
    requires p.Exponential?
  {
    exists k :: 2 <= k <= n && Unlimited(p, k) > p.max
  }

  /** Without jitter: the limit from the first step that grows beyond it. */
  ghost function Backoff(p: Policy, n: nat): int
    requires p.Exponential? && n >= 1
  {
    if Crossed(p, n) then p.max else Unlimited(p, n)
  }

  /** `random` is the random number in [0, 1). */
  function Jittered(delay: int, random: real): int {
    delay + Trunc(delay as real * 0.1 * (0.5 - random))
  }

  ghost function DelayOf(p: Policy, attempt: int, random: real): int {
    if attempt <= 0 then 0
    else match p
      case Fixed(interval, _, _) => interval
      case Exponential(_, _, _, _, jitter, _) =>
        if jitter then Jittered(Backoff(p, attempt), random) else Backoff(p, attempt)
  }

  /** The loop with its early exit. */
  method NextDelay(p: Policy, attempt: int, random: real) returns (delay: int)
    ensures delay == DelayOf(p, attempt, random)
    ensures attempt <= 0 ==> delay == 0
    ensures attempt >= 1 && p.Fixed? ==> delay == p.interval
    ensures attempt >= 1 && p.Exponential? && !p.jitter ==> delay == Backoff(p, attempt)
    ensures attempt >= 1 && p.Exponential? && p.jitter ==>
      var b := Backoff(p, attempt);
      delay == Jittered(b, random)
      && (b >= 0 && 0.0 <= random < 1.0 ==> 20 * (delay - b) <= b && 20 * (b - delay) <= b)
  {
    hide Jittered, Grown;
    if attempt <= 0 {
      return 0;
    }
    if p.Fixed? {
      return p.interval;
    }
    delay := p.base;
    for i := 1 to attempt
      invariant delay == Unlimited(p, i) && !Crossed(p, i)
    {
      delay := Grown(p, delay);
      if delay > p.max {
        delay := p.max;
        assert Unlimited(p, i + 1) > p.max;
        break;
      }
    }
    assert delay == Backoff(p, attempt);
    if p.jitter {
      if delay >= 0 && 0.0 <= random < 1.0 { JitterIsSmall(delay, random); }
      delay := Jittered(delay, random);
    }
  }

  /** The step after the nth delay grows beyond the limit. */
  ghost predicate Overshoots(p: Policy, n: nat)
    requires p.Exponential? && n >= 1
  {
    Grown(p, Backoff(p, n)) > p.max
  }

  /** The delays step by step: the base first, then the delay before times the factor (see
      GrowthRounds), and the limit as soon as a step grows beyond it and ever after. */
  lemma BackoffSteps(p: Policy, n: nat)
    requires p.Exponential? && n >= 1
    ensures Backoff(p, 1) == p.base
    ensures Backoff(p, n + 1) ==
      if exists k :: 1 <= k <= n && Overshoots(p, k) then p.max else Grown(p, Backoff(p, n))
  {
    hide Overshoots, Grown;
    if !Crossed(p, n) { NextStep(p, n); }
    if k :| 1 <= k <= n && Overshoots(p, k) && !Crossed(p, n + 1) {
      NextStep(p, k);
      assert false;
    }
    if Crossed(p, n + 1) {
      var k := FirstCrossing(p, n + 1);
      NextStep(p, k - 1);
      assert Overshoots(p, k - 1);
    }
  }

  lemma NextStep(p: Policy, k: nat)
    requires p.Exponential? && k >= 1 && !Crossed(p, k)
    ensures Unlimited(p, k + 1) == Grown(p, Backoff(p, k))
    ensures Overshoots(p, k) <==> Unlimited(p, k + 1) > p.max
  {
    hide Grown;
  }

  /** A step grows the delay by the factor and drops the fraction, toward zero. */
  lemma GrowthRounds(p: Policy, d: int)
    requires p.Exponential?
    ensures var x, g := d as real * p.factor, Grown(p, d) as real;
      if x >= 0.0 then 0.0 <= g <= x < g + 1.0 else g - 1.0 < x <= g <= 0.0
  {
    TruncBounds(d as real * p.factor);
    hide Trunc;
  }

  lemma {:induction false} FirstCrossing(p: Policy, n: nat) returns (k: nat)
    requires p.Exponential? && Crossed(p, n)
    ensures 2 <= k <= n && Unlimited(p, k) > p.max && !Crossed(p, k - 1)
    decreases n
  {
    if n > 2 && Crossed(p, n - 1) { k := FirstCrossing(p, n - 1); } else { k := n; }
  }

  /** Clamping at every step, with no early exit. */
  function Clamped(p: Policy, n: nat): int
    requires p.Exponential? && n >= 1
  {
    if n == 1 then p.base
    else
      var d := Grown(p, Clamped(p, n - 1));
      if d > p.max then p.max else d
  }

  predicate NonNegative(p: Policy) {
    p.Exponential? && p.base >= 0 && p.max >= 0 && p.factor >= 0.0
  }

  /** The limit, once reached, is kept by a further clamped step, or it is never exceeded. */
  predicate ExitIsFaithful(p: Policy)
    requires p.Exponential?
  {
    p.factor >= 1.0 || p.max == 0 || Grown(p, p.base) <= p.max
  }

  lemma GrowsAtLeast(p: Policy, d: int)
    requires NonNegative(p) && p.factor >= 1.0 && d >= 0
    ensures Grown(p, d) >= d
  {
    ScaleReal(1.0, p.factor, d as real);
  }

  lemma ShrinksAtMost(p: Policy, d: int)
    requires NonNegative(p) && p.factor < 1.0 && d >= 0
    ensures 0 <= Grown(p, d) <= d
    ensures d > 0 ==> Grown(p, d) < d
  {
    var r := d as real;
    var x := r * p.factor;
    ScaleReal(p.factor, 1.0, r);
    assert x <= r * 1.0 == r;
    ScaleReal(0.0, p.factor, r);
    assert 0.0 == r * 0.0 <= x;
    TruncBounds(x);
    if d > 0 {
      ScaleRealStrict(p.factor, 1.0, r);
      assert x < r * 1.0 == r;
    }
  }

  lemma {:induction false} NeverNegative(p: Policy, n: nat)
    requires NonNegative(p) && n >= 1
    ensures Unlimited(p, n) >= 0
  {
    if n > 1 {
      NeverNegative(p, n - 1);
      ScaleReal(0.0, p.factor, Unlimited(p, n - 1) as real);
    }
  }

  lemma CrossedLater(p: Policy, n: nat)
    requires p.Exponential? && n >= 1
    ensures Crossed(p, n + 1) <==> Crossed(p, n) || Unlimited(p, n + 1) > p.max
  {
  }

  /** Shrinking delays exceed the limit at the second step or never. */
  lemma {:induction false} ShrinkingStays(p: Policy, n: nat)
    requires NonNegative(p) && p.factor < 1.0 && Grown(p, p.base) <= p.max && n >= 1
    ensures !Crossed(p, n) && (n > 1 ==> Unlimited(p, n) <= p.max)
    ensures Clamped(p, n) == Unlimited(p, n)
  {
    if n > 1 {
      ShrinkingStays(p, n - 1);
      NeverNegative(p, n - 1);
      ShrinksAtMost(p, Unlimited(p, n - 1));
      CrossedLater(p, n - 1);
    }
  }

  /** When the limit is kept, both forms agree step by step. */
  lemma {:induction false} KeptLimitAgrees(p: Policy, n: nat)
    requires NonNegative(p) && n >= 1 && Grown(p, p.max) >= p.max
    ensures Backoff(p, n) == Clamped(p, n)
  {
    if n > 1 {
      KeptLimitAgrees(p, n - 1);
      CrossedLater(p, n - 1);
    }
  }

  lemma LimitKept(p: Policy)
    requires NonNegative(p) && (p.factor >= 1.0 || p.max == 0)
    ensures Grown(p, p.max) >= p.max
  {
    if p.factor >= 1.0 { GrowsAtLeast(p, p.max); }
  }

  /** The early exit gives the same delays as clamping at every step if and only if the
      factor is at least 1, the limit is 0, or the second delay is within the limit. */
  lemma EarlyExitIff(p: Policy)
    requires NonNegative(p)
    ensures (forall n: nat :: n >= 1 ==> Backoff(p, n) == Clamped(p, n)) <==> ExitIsFaithful(p)
  {
    if ExitIsFaithful(p) {
      forall n: nat | n >= 1 ensures Backoff(p, n) == Clamped(p, n) {
        if p.factor >= 1.0 || p.max == 0 {
          LimitKept(p);
          KeptLimitAgrees(p, n);
        } else {
          ShrinkingStays(p, n);
        }
      }
    } else {
      assert Unlimited(p, 2) == Grown(p, p.base) > p.max by { assert Unlimited(p, 1) == p.base; }
      assert Crossed(p, 3);
      assert Clamped(p, 2) == p.max by { assert Clamped(p, 1) == p.base; }
      ShrinksAtMost(p, p.max);
      assert Clamped(p, 3) < p.max == Backoff(p, 3);
    }
  }

  /** From the second delay on the limit always holds; the first delay is the base, whatever
      the limit. */
  lemma WithinLimitIff(p: Policy)
    requires p.Exponential?
    ensures Backoff(p, 1) == p.base && forall n: nat :: n >= 2 ==> Backoff(p, n) <= p.max
    ensures (forall n: nat :: n >= 1 ==> Backoff(p, n) <= p.max) <==> p.base <= p.max
  {
    forall n: nat | n >= 2 ensures Backoff(p, n) <= p.max {
      if !Crossed(p, n) { assert Unlimited(p, n) <= p.max; }
    }
    assert Backoff(p, 1) == p.base;
  }

  /** With a factor of at least 1 the delays never fall, if and only if the base is within
      the limit. */
  lemma MonotoneIff(p: Policy)
    requires NonNegative(p) && p.factor >= 1.0
    ensures (forall n: nat :: n >= 1 ==> Backoff(p, n) <= Backoff(p, n + 1)) <==> p.base <= p.max
  {
    WithinLimitIff(p);
    if p.base <= p.max {
      forall n: nat | n >= 1 ensures Backoff(p, n) <= Backoff(p, n + 1) {
        CrossedLater(p, n);
        NeverNegative(p, n);
        GrowsAtLeast(p, Unlimited(p, n));
        assert Backoff(p, n) <= p.max;
      }
    } else {
      assert Backoff(p, 2) <= p.max < Backoff(p, 1);
    }
  }

  lemma TruncBounds(x: real)
    ensures x >= 0.0 ==> 0 <= Trunc(x) && Trunc(x) as real <= x < Trunc(x) as real + 1.0
    ensures x <= 0.0 ==> Trunc(x) <= 0 && Trunc(x) as real - 1.0 < x <= Trunc(x) as real
  {
  }

  /** The jitter is at most a twentieth of the delay, either way. */
  lemma JitterIsSmall(delay: int, random: real)
    requires delay >= 0 && 0.0 <= random < 1.0
    ensures 20 * (Jittered(delay, random) - delay) <= delay
    ensures 20 * (delay - Jittered(delay, random)) <= delay
  {
    var d, y := delay as real, 0.1 * (0.5 - random);
    var x := d * 0.1 * (0.5 - random);
    assert x == d * y;
    assert -0.05 <= y <= 0.05;
    ScaleReal(y, 0.05, d);
    ScaleReal(-y, 0.05, d);
    assert d * -y == -x;
    hide Jittered, Trunc;
    JitterRounds(delay, random, x);
  }

  lemma JitterRounds(delay: int, random: real, x: real)
    requires x == delay as real * 0.1 * (0.5 - random)
    requires -x <= delay as real * 0.05 && x <= delay as real * 0.05
    ensures 20 * (Jittered(delay, random) - delay) <= delay
    ensures 20 * (delay - Jittered(delay, random)) <= delay
  {
    TruncBounds(x);
    assert -(delay as real * 0.05) <= Trunc(x) as real <= delay as real * 0.05 by {
      if x >= 0.0 { assert Trunc(x) as real <= x; } else { assert Trunc(x) as real >= x; }
    }
  }

  lemma JitterAtMost(delay: int, random: real)
    requires 0 <= delay < 20 && 0.0 <= random < 1.0
    ensures Jittered(delay, random) <= delay
  {
    var d, y := delay as real, 0.1 * (0.5 - random);
    var x := d * 0.1 * (0.5 - random);
    assert x == d * y && y <= 0.05;
    ScaleReal(y, 0.05, d);
    assert x < 1.0;
    TruncBounds(x);
  }

  /** Jitter never lifts a delay above itself if and only if the delay is below 20; so a delay
      at a limit of 20 or more can end up above the limit. */
  lemma JitterKeepsIff(delay: int)
    requires delay >= 0
    ensures (forall random :: 0.0 <= random < 1.0 ==> Jittered(delay, random) <= delay) <==> delay < 20
  {
    if delay < 20 {
      forall random | 0.0 <= random < 1.0 ensures Jittered(delay, random) <= delay { JitterAtMost(delay, random); }
    } else {
      var x := delay as real * 0.1 * (0.5 - 0.0);
      assert x >= 1.0;
      assert Jittered(delay, 0.0) > delay;
    }
  }

  // ---------------------------------------------------------------- the retrier

  /** What the operation, the context and the random source do at each attempt. */
  datatype World = World(
    errors: nat -> Option<Error>, doneBefore: nat -> bool, doneWaiting: nat -> bool, random: nat -> real)

  datatype Outcome = Succeeded | Cancelled | Exhausted

  /** Attempt k fails and the retrier goes on waiting for the next one. */
  ghost predicate TriesAgain(p: Policy, w: World, k: nat) {
    w.errors(k).Some? && k + 1 < p.maxAttempts && Retryable(p, w.errors(k).value)
  }

  ghost predicate CancelledWaiting(p: Policy, w: World, k: nat) {
    DelayOf(p, k + 1, w.random(k)) > 0 && w.doneWaiting(k)
  }

  /** Attempt k calls the operation. */
  ghost predicate Called(p: Policy, w: World, k: nat) {
    && k < p.maxAttempts
    && (forall j: nat :: j <= k ==> !w.doneBefore(j))
    && (forall j: nat :: j < k ==> TriesAgain(p, w, j) && !CancelledWaiting(p, w, j))
  }

  /** The retrier makes `calls` calls and answers so, for a reason found in the world. */
  ghost predicate Answer(p: Policy, w: World, calls: nat, r: Outcome) {
    && (forall k: nat :: Called(p, w, k) <==> k < calls)
    && (r == Succeeded <==> calls > 0 && w.errors(calls - 1).None?)
    && (r == Cancelled <==>
          || (calls > 0 && TriesAgain(p, w, calls - 1) && CancelledWaiting(p, w, calls - 1))
          || (calls < p.maxAttempts && w.doneBefore(calls) && (calls > 0 ==> TriesAgain(p, w, calls - 1))))
  }

  /** Unless attempt n - 1 leads to another one, it is the last. */
  lemma LastCall(p: Policy, w: World, n: nat)
    requires n > 0 && forall k: nat :: k < n ==> Called(p, w, k)
    requires !TriesAgain(p, w, n - 1) || CancelledWaiting(p, w, n - 1)
    ensures forall k: nat :: Called(p, w, k) <==> k < n
  {
    hide TriesAgain, CancelledWaiting;
  }

  method Execute(p: Policy, w: World) returns (r: Outcome, calls: nat)
    ensures Answer(p, w, calls, r)
    ensures calls <= if p.maxAttempts < 0 then 0 else p.maxAttempts
    ensures r == Exhausted ==>
      p.maxAttempts <= 0 || (calls > 0 && w.errors(calls - 1).Some?
        && (calls == p.maxAttempts || !Retryable(p, w.errors(calls - 1).value)))
  {
    hide DelayOf, Retryable;
    calls := 0;
    var attempt := 0;
    while attempt < p.maxAttempts
      invariant calls == attempt && (attempt == 0 || attempt < p.maxAttempts)
      invariant forall k: nat :: k < attempt ==> Called(p, w, k)
      invariant forall k: nat :: k < attempt ==> !w.doneBefore(k) && TriesAgain(p, w, k) && !CancelledWaiting(p, w, k)
    {
      assert attempt > 0 ==> TriesAgain(p, w, attempt - 1);
      if w.doneBefore(attempt) {
        return Cancelled, calls;
      }
      var err := w.errors(attempt);
      calls := calls + 1;
      assert Called(p, w, attempt);
      if err.None? {
        LastCall(p, w, calls);
        return Succeeded, calls;
      }
      var again := ShouldRetry(p, attempt + 1, err.value);
      if !again {
        LastCall(p, w, calls);
        break;
      }
      var delay := NextDelay(p, attempt + 1, w.random(attempt));
      if delay > 0 && w.doneWaiting(attempt) {
        LastCall(p, w, calls);
        return Cancelled, calls;
      }
      attempt := attempt + 1;
    }
    r := Exhausted;
  }

  /** The world decides the answer: at most MaxAttempts calls, none after a success. */
  lemma AnswerIsUnique(p: Policy, w: World, calls: nat, r: Outcome, calls': nat, r': Outcome)
    requires Answer(p, w, calls, r) && Answer(p, w, calls', r')
    ensures calls == calls' && r == r'
    ensures forall k: nat :: k + 1 < calls ==> w.errors(k).Some?
  {
    assert Called(p, w, calls) <==> calls < calls';
    assert Called(p, w, calls') <==> calls' < calls;
    forall k: nat | k + 1 < calls ensures w.errors(k).Some? {
      assert Called(p, w, k + 1);
      assert TriesAgain(p, w, k);
    }
  }
}

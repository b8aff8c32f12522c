/** The lock-free duration statistics of one operation (connection/metrics.go): an atomic
    sum, and compare-and-swap loops for the minimum and the maximum, run by any number of
    threads. A minimum of 0 stands for "no sample yet". */
module OperationMetrics {
  import opened Totals

  /** The atomics; minWins and maxWins count the successful swaps. */
  datatype Shared = Shared(total: int, min: int, max: int, minWins: nat, maxWins: nat)

  /** The next atomic step of a call; `seen` is the number of wins when `current` was loaded. */
  datatype Place =
    | Adding
    | LoadingMin
    | SwappingMin(current: int, seen: nat)
    | LoadingMax
    | SwappingMax(current: int, seen: nat)
    | Done

  datatype Call = Call(sample: int, place: Place, minFails: nat, maxFails: nat)

  datatype State = State(shared: Shared, calls: seq<Call>)

  datatype Action = New(sample: int) | Step(i: nat)

  function SharedStep(m: Shared, c: Call): Shared {
    match c.place
    case Adding => m.(total := m.total + c.sample)
    case SwappingMin(current, _) => if m.min == current then m.(min := c.sample, minWins := m.minWins + 1) else m
    case SwappingMax(current, _) => if m.max == current then m.(max := c.sample, maxWins := m.maxWins + 1) else m
    case _ => m
  }

  function CallStep(m: Shared, c: Call): Call {
    match c.place
    case Adding => c.(place := LoadingMin)
    case LoadingMin =>
      c.(place := if m.min == 0 || c.sample < m.min then SwappingMin(m.min, m.minWins) else LoadingMax)
    case SwappingMin(current, _) =>
      if m.min == current then c.(place := LoadingMax) else c.(place := LoadingMin, minFails := c.minFails + 1)
    case LoadingMax =>
      c.(place := if c.sample > m.max then SwappingMax(m.max, m.maxWins) else Done)
    case SwappingMax(current, _) =>
      if m.max == current then c.(place := Done) else c.(place := LoadingMax, maxFails := c.maxFails + 1)
    case Done => c
  }

  predicate Enabled(s: State, a: Action) {
    match a
    case New(sample) => sample >= 0
    case Step(i) => i < |s.calls| && !s.calls[i].place.Done?
  }

  function Next(s: State, a: Action): State
    requires Enabled(s, a)
  {
    match a
    case New(sample) => s.(calls := s.calls + [Call(sample, Adding, 0, 0)])
    case Step(i) => State(SharedStep(s.shared, s.calls[i]), s.calls[i := CallStep(s.shared, s.calls[i])])
  }

  const INIT := State(Shared(0, 0, 0, 0, 0), [])

  predicate Behaviour(states: seq<State>, acts: seq<Action>) {
    && |states| == |acts| + 1 && states[0] == INIT
    && forall k :: 0 <= k < |acts| ==> Enabled(states[k], acts[k]) && states[k + 1] == Next(states[k], acts[k])
  }

  // ---------------------------------------------------------------- one call among others

  predicate PastMin(c: Call) {
    c.place.LoadingMax? || c.place.SwappingMax? || c.place.Done?
  }

  /** The loop of the minimum counts time in successful swaps: a call fails at most once for
      each, and as long as there was none since its load the value is the loaded one. */
  predicate MinTimed(m: Shared, c: Call) {
    && c.minFails <= m.minWins
    && match c.place
       case SwappingMin(current, seen) =>
         c.minFails <= seen <= m.minWins && (seen == m.minWins ==> m.min == current)
       case _ => true
  }

  /** Among positive samples the minimum only ever falls. */
  predicate MinOk(m: Shared, c: Call) {
    && c.sample > 0 && MinTimed(m, c)
    && (PastMin(c) ==> 0 < m.min <= c.sample)
    && match c.place
       case SwappingMin(current, seen) =>
         (current == 0 || c.sample < current) && (seen < m.minWins ==> Lower(m.min, current))
       case _ => true
  }

  /** A minimum that a later swap put in place of the value `current`. */
  predicate Lower(min: int, current: int) {
    0 < min && (current == 0 || min < current)
  }

  predicate MaxOk(m: Shared, c: Call) {
    && c.sample >= 0 && c.maxFails <= m.maxWins
    && (c.place.Done? ==> c.sample <= m.max)
    && match c.place
       case SwappingMax(current, seen) =>
         && current < c.sample
         && c.maxFails <= seen <= m.maxWins
         && if seen == m.maxWins then m.max == current else m.max > current
       case _ => true
  }

  /** What a step may do to the minimum: change it by one more win. */
  predicate MinAdvances(m: Shared, m': Shared) {
    if m'.minWins == m.minWins then m'.min == m.min else m'.minWins == m.minWins + 1
  }

  predicate MinFalls(m: Shared, m': Shared) {
    if m'.minWins == m.minWins then m'.min == m.min else m'.minWins == m.minWins + 1 && Lower(m'.min, m.min)
  }

  predicate MaxRises(m: Shared, m': Shared) {
    if m'.maxWins == m.maxWins then m'.max == m.max else m'.maxWins == m.maxWins + 1 && m'.max > m.max
  }

  lemma MinTimeGoesOn(m: Shared, c: Call)
    requires MinTimed(m, c)
    ensures MinAdvances(m, SharedStep(m, c)) && MinTimed(SharedStep(m, c), CallStep(m, c))
  {
  }

  lemma OwnMin(m: Shared, c: Call)
    requires MinOk(m, c) && m.min >= 0
    ensures MinFalls(m, SharedStep(m, c)) && MinOk(SharedStep(m, c), CallStep(m, c))
  {
  }

  lemma OwnMax(m: Shared, c: Call)
    requires MaxOk(m, c)
    ensures MaxRises(m, SharedStep(m, c)) && MaxOk(SharedStep(m, c), CallStep(m, c))
  {
  }

  lemma OthersKeep(m: Shared, m': Shared, c: Call)
    ensures MinAdvances(m, m') && MinTimed(m, c) ==> MinTimed(m', c)
    ensures MinFalls(m, m') && MinOk(m, c) ==> MinOk(m', c)
    ensures MaxRises(m, m') && MaxOk(m, c) ==> MaxOk(m', c)
  {
  }

  // ---------------------------------------------------------------- all calls

  function Added(c: Call): int {
    if c.place.Adding? then 0 else c.sample
  }

  function SumAdded(cs: seq<Call>): int {
    if cs == [] then 0 else SumAdded(cs[..|cs| - 1]) + Added(cs[|cs| - 1])
  }

  /** 1 if the call has left the loop of the minimum. */
  function LeftMin(c: Call): nat {
    if PastMin(c) then 1 else 0
  }

  function LeftMax(c: Call): nat {
    if c.place.Done? then 1 else 0
  }

  ghost predicate CallsOk(s: State) {
    forall i :: 0 <= i < |s.calls| ==> MinTimed(s.shared, s.calls[i]) && MaxOk(s.shared, s.calls[i])
  }

  ghost predicate MinsOk(s: State) {
    forall i :: 0 <= i < |s.calls| ==> MinOk(s.shared, s.calls[i])
  }

  ghost predicate AllPositive(cs: seq<Call>) {
    forall i :: 0 <= i < |cs| ==> cs[i].sample > 0
  }

  ghost predicate IsSample(cs: seq<Call>, x: int) {
    exists i :: 0 <= i < |cs| && cs[i].sample == x
  }

  /** A minimum of 0 is a sample once some call has left the loop. */
  ghost predicate ValuesOk(s: State) {
    && s.shared.total == SumAdded(s.calls)
    && s.shared.min >= 0 && s.shared.max >= 0
    && (s.shared.min == 0 || IsSample(s.calls, s.shared.min))
    && (s.shared.max == 0 || IsSample(s.calls, s.shared.max))
    && (forall i :: 0 <= i < |s.calls| && PastMin(s.calls[i]) ==> s.shared.min > 0 || IsSample(s.calls, 0))
  }

  ghost predicate WinsOk(s: State) {
    && s.shared.minWins <= Total(s.calls, LeftMin)
    && s.shared.maxWins <= Total(s.calls, LeftMax)
  }

  ghost predicate Inv(s: State) {
    CallsOk(s) && ValuesOk(s) && WinsOk(s)
  }

  lemma {:induction false} SumUpdate(cs: seq<Call>, i: nat, c: Call)
    requires i < |cs|
    ensures SumAdded(cs[i := c]) == SumAdded(cs) - Added(cs[i]) + Added(c)
  {
    var n := |cs| - 1;
    if i < n {
      assert cs[i := c][..n] == cs[..n][i := c];
      SumUpdate(cs[..n], i, c);
    } else {
      assert cs[i := c][..n] == cs[..n];
    }
  }

  lemma SamplesStay(s: State, a: Action, x: int)
    requires Enabled(s, a) && IsSample(s.calls, x)
    ensures IsSample(Next(s, a).calls, x)
  {
    var i :| 0 <= i < |s.calls| && s.calls[i].sample == x;
    assert Next(s, a).calls[i].sample == x;
  }

  lemma CallsStep(s: State, a: Action)
    requires CallsOk(s) && Enabled(s, a)
    ensures CallsOk(Next(s, a))
  {
    hide MinTimed, MinOk, MaxOk, SharedStep, CallStep, MinAdvances, MinFalls, MaxRises;
    var s' := Next(s, a);
    if a.Step? {
      var m, c := s.shared, s.calls[a.i];
      MinTimeGoesOn(m, c);
      OwnMax(m, c);
      forall k | 0 <= k < |s.calls| && k != a.i
        ensures MinTimed(s'.shared, s'.calls[k]) && MaxOk(s'.shared, s'.calls[k])
      {
        OthersKeep(m, s'.shared, s.calls[k]);
      }
    } else {
      NewOk(s.shared, a.sample);
    }
  }

  lemma MinsStep(s: State, a: Action)
    requires MinsOk(s) && s.shared.min >= 0 && Enabled(s, a) && AllPositive(Next(s, a).calls)
    ensures MinsOk(Next(s, a))
  {
    hide MinOk, SharedStep, CallStep, MinFalls;
    var s' := Next(s, a);
    if a.Step? {
      var m, c := s.shared, s.calls[a.i];
      OwnMin(m, c);
      forall k | 0 <= k < |s.calls| && k != a.i ensures MinOk(s'.shared, s'.calls[k]) {
        OthersKeep(m, s'.shared, s.calls[k]);
      }
    } else {
      assert s'.calls[|s.calls|].sample == a.sample;
      NewOk(s.shared, a.sample);
    }
  }

  lemma NewOk(m: Shared, sample: int)
    requires sample >= 0
    ensures var c := Call(sample, Adding, 0, 0);
      MinTimed(m, c) && MaxOk(m, c) && (sample > 0 ==> MinOk(m, c))
  {
  }

  /** A call that leaves the loop of the minimum leaves a value behind. */
  lemma LeavesValue(m: Shared, c: Call)
    requires m.min >= 0 && c.sample >= 0 && !PastMin(c) && PastMin(CallStep(m, c))
    ensures SharedStep(m, c).min > 0 || SharedStep(m, c).min == c.sample == 0
  {
  }

  lemma ValuesStep(s: State, a: Action)
    requires CallsOk(s) && ValuesOk(s) && Enabled(s, a)
    ensures ValuesOk(Next(s, a))
  {
    var s' := Next(s, a);
    if s.shared.min != 0 { SamplesStay(s, a, s.shared.min); }
    if s.shared.max != 0 { SamplesStay(s, a, s.shared.max); }
    if IsSample(s.calls, 0) { SamplesStay(s, a, 0); }
    if a.Step? {
      var c := s.calls[a.i];
      SumUpdate(s.calls, a.i, s'.calls[a.i]);
      assert s'.calls[a.i].sample == c.sample;
      assert IsSample(s'.calls, c.sample);
      if !PastMin(c) && PastMin(s'.calls[a.i]) { LeavesValue(s.shared, c); }
      hide IsSample;
    } else {
      assert s'.calls[..|s.calls|] == s.calls;
      hide IsSample;
    }
  }

  lemma WinsStep(s: State, a: Action)
    requires WinsOk(s) && Enabled(s, a)
    ensures WinsOk(Next(s, a))
  {
    hide Total;
    var s' := Next(s, a);
    if a.Step? {
      TotalUpdate(s.calls, a.i, s'.calls[a.i], LeftMin);
      TotalUpdate(s.calls, a.i, s'.calls[a.i], LeftMax);
    } else {
      TotalNew(s.calls, s'.calls[|s.calls|], LeftMin);
      TotalNew(s.calls, s'.calls[|s.calls|], LeftMax);
    }
  }

  lemma {:induction false} Reachable(states: seq<State>, acts: seq<Action>, k: nat)
    requires Behaviour(states, acts) && k < |states|
    ensures Inv(states[k])
  {
    if k > 0 {
      hide Next, Enabled, CallsOk, WinsOk;
      Reachable(states, acts, k - 1);
      CallsStep(states[k - 1], acts[k - 1]);
      ValuesStep(states[k - 1], acts[k - 1]);
      WinsStep(states[k - 1], acts[k - 1]);
    }
  }

  lemma PositiveBefore(s: State, a: Action)
    requires Enabled(s, a) && AllPositive(Next(s, a).calls)
    ensures AllPositive(s.calls)
  {
    forall i | 0 <= i < |s.calls| ensures s.calls[i].sample > 0 { assert Next(s, a).calls[i].sample > 0; }
  }

  lemma {:induction false} ReachableMins(states: seq<State>, acts: seq<Action>, k: nat)
    requires Behaviour(states, acts) && k < |states| && AllPositive(states[k].calls)
    ensures MinsOk(states[k])
  {
    if k > 0 {
      hide Next, Enabled, CallsOk, WinsOk;
      PositiveBefore(states[k - 1], acts[k - 1]);
      Reachable(states, acts, k - 1);
      ReachableMins(states, acts, k - 1);
      MinsStep(states[k - 1], acts[k - 1]);
    }
  }

  // ---------------------------------------------------------------- guarantees

  function Samples(cs: seq<Call>): seq<int> {
    seq(|cs|, i requires 0 <= i < |cs| => cs[i].sample)
  }

  function Sum(xs: seq<int>): int {
    if xs == [] then 0 else Sum(xs[..|xs| - 1]) + xs[|xs| - 1]
  }

  predicate IsMinimum(x: int, xs: seq<int>) {
    x in xs && forall i :: 0 <= i < |xs| ==> x <= xs[i]
  }

  predicate IsMaximum(x: int, xs: seq<int>) {
    x in xs && forall i :: 0 <= i < |xs| ==> xs[i] <= x
  }

  predicate Quiescent(s: State) {
    forall i :: 0 <= i < |s.calls| ==> s.calls[i].place.Done?
  }

  lemma {:induction false} SumOfAll(cs: seq<Call>)
    requires forall i :: 0 <= i < |cs| ==> !cs[i].place.Adding?
    ensures SumAdded(cs) == Sum(Samples(cs))
  {
    if cs != [] {
      SumOfAll(cs[..|cs| - 1]);
      assert Samples(cs)[..|cs| - 1] == Samples(cs[..|cs| - 1]);
    }
  }

  /** However the loops interleave, once no call is in progress the values are the sum and
      the maximum of all samples, and the minimum too if all samples are positive. */
  lemma QuiescentValues(states: seq<State>, acts: seq<Action>, k: nat)
    requires Behaviour(states, acts) && k < |states| && Quiescent(states[k])
    ensures states[k].shared.total == Sum(Samples(states[k].calls))
    ensures states[k].calls != [] ==> IsMaximum(states[k].shared.max, Samples(states[k].calls))
    ensures states[k].calls != [] && AllPositive(states[k].calls) ==>
      IsMinimum(states[k].shared.min, Samples(states[k].calls))
  {
    var s := states[k];
    Reachable(states, acts, k);
    SumOfAll(s.calls);
    if s.calls != [] {
      MaxIsSample(s);
      SampleIn(s.calls, s.shared.max);
      if AllPositive(s.calls) {
        ReachableMins(states, acts, k);
        assert MinOk(s.shared, s.calls[0]);
        SampleIn(s.calls, s.shared.min);
      }
    }
  }

  lemma MaxIsSample(s: State)
    requires CallsOk(s) && ValuesOk(s) && Quiescent(s) && s.calls != []
    ensures IsSample(s.calls, s.shared.max)
  {
    assert s.calls[0].place.Done? && MaxOk(s.shared, s.calls[0]);
  }

  lemma SampleIn(cs: seq<Call>, x: int)
    requires IsSample(cs, x)
    ensures x in Samples(cs)
  {
    var i :| 0 <= i < |cs| && cs[i].sample == x;
    assert Samples(cs)[i] == x;
  }

  /** Among positive samples, a swap fails exactly when some other swap succeeded since the
      load, and then the value is strictly better than the one loaded; it can never have come
      back to it. */
  lemma FailureMeansProgress(states: seq<State>, acts: seq<Action>, k: nat, i: nat)
    requires Behaviour(states, acts) && k < |states| && i < |states[k].calls| && AllPositive(states[k].calls)
    ensures var m, c := states[k].shared, states[k].calls[i];
      && (c.place.SwappingMin? ==>
            && (m.min != c.place.current <==> c.place.seen < m.minWins)
            && (m.min != c.place.current ==> Lower(m.min, c.place.current)))
      && (c.place.SwappingMax? ==>
            && (m.max != c.place.current <==> c.place.seen < m.maxWins)
            && (m.max != c.place.current ==> m.max > c.place.current))
  {
    Reachable(states, acts, k);
    ReachableMins(states, acts, k);
    assert MinOk(states[k].shared, states[k].calls[i]) && MaxOk(states[k].shared, states[k].calls[i]);
  }

  /** The swap that call i is about to try fails. */
  predicate FailsMin(s: State, a: Action, i: nat) {
    a == Step(i) && i < |s.calls| && s.calls[i].place.SwappingMin? && s.shared.min != s.calls[i].place.current
  }

  predicate FailsMax(s: State, a: Action, i: nat) {
    a == Step(i) && i < |s.calls| && s.calls[i].place.SwappingMax? && s.shared.max != s.calls[i].place.current
  }

  /** How often call i failed to swap the minimum in the first k steps, and so repeated. */
  function MinRepeats(states: seq<State>, acts: seq<Action>, k: nat, i: nat): nat
    requires k <= |acts| <= |states|
  {
    if k == 0 then 0
    else MinRepeats(states, acts, k - 1, i) + if FailsMin(states[k - 1], acts[k - 1], i) then 1 else 0
  }

  function MaxRepeats(states: seq<State>, acts: seq<Action>, k: nat, i: nat): nat
    requires k <= |acts| <= |states|
  {
    if k == 0 then 0
    else MaxRepeats(states, acts, k - 1, i) + if FailsMax(states[k - 1], acts[k - 1], i) then 1 else 0
  }

  lemma {:induction false} RepeatsAreCounted(states: seq<State>, acts: seq<Action>, k: nat, i: nat)
    requires Behaviour(states, acts) && k < |states|
    ensures MinRepeats(states, acts, k, i) == if i < |states[k].calls| then states[k].calls[i].minFails else 0
    ensures MaxRepeats(states, acts, k, i) == if i < |states[k].calls| then states[k].calls[i].maxFails else 0
  {
    if k > 0 { RepeatsAreCounted(states, acts, k - 1, i); }
  }

  /** No call repeats either loop more often than there are calls. */
  lemma RetriesBounded(states: seq<State>, acts: seq<Action>, k: nat, i: nat)
    requires Behaviour(states, acts) && k < |states| && i < |states[k].calls|
    ensures MinRepeats(states, acts, k, i) <= |states[k].calls|
    ensures MaxRepeats(states, acts, k, i) <= |states[k].calls|
  {
    RepeatsAreCounted(states, acts, k, i);
    Reachable(states, acts, k);
    TotalAtMost(states[k].calls, |states[k].calls|, LeftMin);
    TotalAtMost(states[k].calls, |states[k].calls|, LeftMax);
    assert MinTimed(states[k].shared, states[k].calls[i]) && MaxOk(states[k].shared, states[k].calls[i]);
  }

  // ---------------------------------------------------------------- one thread

  class Metrics {
    var total: int
    var min: int
    var max: int

    constructor ()
      ensures total == 0 && min == 0 && max == 0
    {
      total, min, max := 0, 0, 0;
    }

    /** With one thread a swap never fails. */
    method RecordOperationDuration(nanos: int)
      modifies this
      ensures total == old(total) + nanos
      ensures min == Recorded(old(min), nanos)
      ensures min == if old(min) == 0 || nanos < old(min) then nanos else old(min)
      ensures max == if nanos > old(max) then nanos else old(max)
    {
      total := total + nanos;
      var done := false;
      while !done
        invariant total == old(total) + nanos && max == old(max)
        invariant min == if done then Recorded(old(min), nanos) else old(min)
        decreases !done
      {
        var current := min;
        if current == 0 || nanos < current {
          done := CompareAndSwapMin(current, nanos);
        } else {
          done := true;
        }
      }
      done := false;
      while !done
        invariant total == old(total) + nanos && min == Recorded(old(min), nanos)
        invariant max == if done && nanos > old(max) then nanos else old(max)
        decreases !done
      {
        var current := max;
        if nanos > current {
          done := CompareAndSwapMax(current, nanos);
        } else {
          done := true;
        }
      }
    }

    method CompareAndSwapMin(current: int, value: int) returns (swapped: bool)
      modifies this`min
      ensures swapped <==> old(min) == current
      ensures min == if swapped then value else old(min)
    {
      swapped := min == current;
      if swapped {
        min := value;
      }
    }

    method CompareAndSwapMax(current: int, value: int) returns (swapped: bool)
      modifies this`max
      ensures swapped <==> old(max) == current
      ensures max == if swapped then value else old(max)
    {
      swapped := max == current;
      if swapped {
        max := value;
      }
    }
  }

  function Recorded(min: int, nanos: int): int {
    if min == 0 || nanos < min then nanos else min
  }

  /** The recorded minimum of samples taken one after the other. */
  function RecordedMin(xs: seq<int>): int {
    if xs == [] then 0 else Recorded(RecordedMin(xs[..|xs| - 1]), xs[|xs| - 1])
  }

  lemma {:induction false} RecordedIsMin(xs: seq<int>)
    requires xs != [] && forall i :: 0 <= i < |xs| ==> xs[i] > 0
    ensures IsMinimum(RecordedMin(xs), xs)
  {
    var n := |xs| - 1;
    if n > 0 {
      RecordedIsMin(xs[..n]);
      assert forall i :: 0 <= i < n ==> xs[..n][i] == xs[i];
    } else {
      assert xs[..0] == [];
    }
    assert xs == xs[..n] + [xs[n]];
  }

  lemma {:induction false} RecordedAfterZero(xs: seq<int>)
    requires xs != [] && NonNegative(xs)
    ensures RecordedMin(xs) >= 0
    ensures RecordedMin(xs) == 0 <==> xs[|xs| - 1] == 0
  {
    if |xs| > 1 {
      RecordedAfterZero(xs[..|xs| - 1]);
    } else {
      assert xs[..0] == [];
    }
  }

  /** A sample of 0 is taken for "no sample yet": the recorded value is the minimum if and
      only if all samples are positive or the last one is 0. */
  lemma RecordedMinIff(xs: seq<int>)
    requires xs != [] && NonNegative(xs)
    ensures IsMinimum(RecordedMin(xs), xs) <==> (0 !in xs || xs[|xs| - 1] == 0)
  {
    RecordedAfterZero(xs);
    if 0 !in xs {
      RecordedIsMin(xs);
    } else {
      var i :| 0 <= i < |xs| && xs[i] == 0;
    }
  }

  // ---------------------------------------------------------------- zero samples among threads

  /** Some run over these samples, in whatever order and interleaving, leaves v behind. */
  ghost predicate CanLeave(xs: seq<int>, v: int) {
    exists states, acts :: Behaviour(states, acts) && Leaves(states[|states| - 1], xs, v)
  }

  ghost predicate Leaves(s: State, xs: seq<int>, v: int) {
    Quiescent(s) && multiset(Samples(s.calls)) == multiset(xs) && s.shared.min == v
  }

  ghost predicate Reaches(s: State) {
    exists states, acts :: Behaviour(states, acts) && states[|states| - 1] == s
  }

  lemma Then(s: State, a: Action) returns (s': State)
    requires Reaches(s) && Enabled(s, a)
    ensures s' == Next(s, a) && Reaches(s')
  {
    hide Next, Enabled;
    var states, acts :| Behaviour(states, acts) && states[|states| - 1] == s;
    s' := Next(s, a);
    assert Behaviour(states + [s'], acts + [a]);
  }

  /** One more call from its beginning to its end, alone. */
  lemma RecordOne(s: State, x: int) returns (s': State)
    requires Reaches(s) && Quiescent(s) && x >= 0
    ensures Reaches(s') && Quiescent(s') && Samples(s'.calls) == Samples(s.calls) + [x]
    ensures s'.shared.min == Recorded(s.shared.min, x)
  {
    hide Reaches;
    var i := |s.calls|;
    s' := Then(s, New(x));
    s' := Then(s', Step(i));
    s' := Then(s', Step(i));
    if s'.calls[i].place.SwappingMin? { s' := Then(s', Step(i)); }
    assert s'.calls[i].place == LoadingMax && s'.shared.min == Recorded(s.shared.min, x);
    s' := Then(s', Step(i));
    if s'.calls[i].place.SwappingMax? { s' := Then(s', Step(i)); }
    assert s'.calls == s.calls + [s'.calls[i]] && s'.calls[i].sample == x;
  }

  lemma {:induction false} RecordAll(xs: seq<int>) returns (s: State)
    requires forall i :: 0 <= i < |xs| ==> xs[i] >= 0
    ensures Reaches(s) && Quiescent(s) && Samples(s.calls) == xs && s.shared.min == RecordedMin(xs)
  {
    if xs == [] {
      s := INIT;
      assert Behaviour([s], []);
    } else {
      s := RecordAll(xs[..|xs| - 1]);
      hide Reaches;
      s := RecordOne(s, xs[|xs| - 1]);
    }
  }

  function Minus(xs: seq<int>, v: int): (r: seq<int>)
    requires v in xs
    ensures multiset(r) == multiset(xs) - multiset{v}
    ensures forall i :: 0 <= i < |r| ==> r[i] in xs
  {
    assert xs == [xs[0]] + xs[1..];
    if xs[0] == v then xs[1..] else [xs[0]] + Minus(xs[1..], v)
  }

  lemma ZeroAtEnd(zs: seq<int>)
    requires NonNegative(zs)
    ensures RecordedMin(zs + [0]) == 0
  {
    RecordedAfterZero(zs + [0]);
  }

  lemma AfterZero(ys: seq<int>, v: int)
    requires RecordedMin(ys) == 0
    ensures RecordedMin(ys + [v]) == v
  {
    assert (ys + [v])[..|ys|] == ys;
  }

  predicate NonNegative(xs: seq<int>) {
    forall i :: 0 <= i < |xs| ==> xs[i] >= 0
  }

  lemma LastAgain(xs: seq<int>, v: int)
    requires v in xs && NonNegative(xs)
    ensures multiset(Minus(xs, v) + [v]) == multiset(xs) && NonNegative(Minus(xs, v))
    ensures forall x :: x in xs && x != v ==> x in Minus(xs, v)
  {
    forall x | x in xs && x != v ensures x in Minus(xs, v) { assert x in multiset(Minus(xs, v)); }
  }

  lemma ThreeParts(zs: seq<int>, a: int, b: int, rest: seq<int>)
    requires multiset(zs + [a]) == multiset(rest)
    ensures multiset(zs + [a] + [b]) == multiset(rest + [b])
  {
  }

  /** An order that ends with a zero and then v, or just with the zero. */
  lemma OrderFor(xs: seq<int>, v: int) returns (ys: seq<int>)
    requires 0 in xs && v in xs && NonNegative(xs)
    ensures multiset(ys) == multiset(xs) && RecordedMin(ys) == v && NonNegative(ys)
  {
    hide RecordedMin, Minus;
    var rest := Minus(xs, v);
    LastAgain(xs, v);
    if v == 0 {
      ys := rest + [0];
      ZeroAtEnd(rest);
    } else {
      var zs := Minus(rest, 0);
      LastAgain(rest, 0);
      ys := zs + [0] + [v];
      ThreeParts(zs, 0, v, rest);
      ZeroAtEnd(zs);
      AfterZero(zs + [0], v);
    }
  }

  lemma LeftIsSample(states: seq<State>, acts: seq<Action>)
    requires Behaviour(states, acts) && Quiescent(states[|acts|]) && states[|acts|].calls != []
    ensures states[|acts|].shared.min in Samples(states[|acts|].calls)
  {
    var s := states[|acts|];
    Reachable(states, acts, |acts|);
    assert s.calls[0].place.Done? && PastMin(s.calls[0]);
    SampleIn(s.calls, s.shared.min);
  }

  lemma MinimumOfSame(xs: seq<int>, ys: seq<int>, v: int)
    requires multiset(xs) == multiset(ys)
    ensures IsMinimum(v, xs) ==> IsMinimum(v, ys)
  {
    if IsMinimum(v, xs) {
      assert v in multiset(ys);
      forall i | 0 <= i < |ys| ensures v <= ys[i] { assert ys[i] in multiset(xs); }
    }
  }

  lemma CanLeaveThis(xs: seq<int>, ys: seq<int>)
    requires multiset(xs) == multiset(ys) && forall i :: 0 <= i < |ys| ==> ys[i] >= 0
    ensures CanLeave(xs, RecordedMin(ys))
  {
    var s := RecordAll(ys);
    var states, acts :| Behaviour(states, acts) && states[|states| - 1] == s;
    assert Leaves(states[|states| - 1], xs, RecordedMin(ys));
  }

  lemma LeftIsMinimum(states: seq<State>, acts: seq<Action>, xs: seq<int>, v: int)
    requires xs != [] && NonNegative(xs)
    requires Behaviour(states, acts) && Leaves(states[|states| - 1], xs, v)
    ensures v in xs && (0 !in xs ==> IsMinimum(v, xs))
  {
    var s := states[|acts|];
    assert |Samples(s.calls)| == |multiset(xs)| == |xs|;
    LeftIsSample(states, acts);
    assert v in multiset(xs);
    if 0 !in xs {
      forall i | 0 <= i < |s.calls| ensures s.calls[i].sample > 0 {
        assert Samples(s.calls)[i] in multiset(xs);
      }
      QuiescentValues(states, acts, |acts|);
      MinimumOfSame(Samples(s.calls), xs, v);
    }
  }

  /** The values that concurrent calls can leave behind as the minimum: the true minimum if all
      samples are positive, and any of the samples if one of them is zero. */
  lemma CanLeaveIff(xs: seq<int>, v: int)
    requires xs != [] && NonNegative(xs)
    ensures CanLeave(xs, v) <==> if 0 in xs then v in xs else IsMinimum(v, xs)
  {
    if 0 in xs {
      if v in xs {
        var ys := OrderFor(xs, v);
        CanLeaveThis(xs, ys);
      }
    } else if IsMinimum(v, xs) {
      RecordedIsMin(xs);
      CanLeaveThis(xs, xs);
    }
    if CanLeave(xs, v) {
      var states, acts :| Behaviour(states, acts) && Leaves(states[|states| - 1], xs, v);
      LeftIsMinimum(states, acts, xs, v);
    }
  }
}

/** That notifications get done and tell the truth (syncer/syncer.go): they are never stuck,
    they end, their log is what was sent, and Close and Stop happen once and for all. */
module NotificationRuns {
  import opened Subscribers

  // ---------------------------------------------------------------- never stuck

  /** The step is one of notification n. */
  predicate Concerns(a: Action, n: nat) {
    a == Send(n) || a == FindFull(n) || a == GiveUp(n) || a == NextEvent(n) || a == Finish(n)
  }

  predicate Running(s: State, n: nat) {
    n < |s.notifications| && s.notifications[n].running
  }

  /** A notification under way can always move, whatever the subscribers do. */
  lemma NeverStuck(states: seq<State>, acts: seq<Action>, i: nat, n: nat) returns (a: Action)
    requires Behaviour(states, acts) && i < |states| && Running(states[i], n)
    ensures Enabled(states[i], a) && Concerns(a, n)
  {
    hide NoReader, PairsOk;
    Reachable(states, acts, i);
    var s, x := states[i], states[i].notifications[n];
    assert x.e <= x.events && x.k <= |s.subscribers|;
    if x.e == x.events {
      a := Finish(n);
    } else if x.k == |s.subscribers| {
      a := NextEvent(n);
    } else if Target(s, n).pending < CAPACITY {
      a := Send(n);
    } else {
      a := if x.waiting then GiveUp(n) else FindFull(n);
    }
  }

  // ---------------------------------------------------------------- bounded

  /** How many steps of the notification are still ahead, with m subscribers listed. */
  function Ahead(x: Notification, m: nat): int {
    if !x.running then 0
    else (2 * m + 1) * (x.events - x.e) + 2 * (m - x.k) + if x.waiting then 1 else 2
  }

  function Left(s: State, n: nat): int {
    if n < |s.notifications| then Ahead(s.notifications[n], |s.subscribers|) else 0
  }

  lemma OneLess(k: int, n: int)
    ensures k * (n - 1) == k * n - k
  {
  }

  /** A step of the notification brings its end nearer, and no other step puts it off. */
  lemma LeftStep(s: State, a: Action, n: nat)
    requires PlacesOk(s) && ListOk(s) && Enabled(s, a) && n < |s.notifications|
    requires s.notifications[n].waiting ==> Parked(s, n)
    ensures Left(Next(s, a), n) <= Left(s, n) - if Concerns(a, n) then 1 else 0
  {
    var x := s.notifications[n];
    hide Removed, ShutAll;
    OneLess(2 * |s.subscribers| + 1, x.events - x.e);
    if x.running && !Concerns(a, n) { assert !NoReader(s); }
    hide NoReader, ListOk, PlacesOk;
  }

  lemma LeftIsNatural(s: State, n: nat)
    requires PlacesOk(s)
    ensures Left(s, n) >= 0
  {
    if Running(s, n) {
      var m, x := |s.subscribers|, s.notifications[n];
      Product(2 * m + 1, x.events - x.e);
    }
  }

  lemma Product(k: int, n: int)
    requires k >= 0 && n >= 0
    ensures k * n >= 0
  {
  }

  function Steps(acts: seq<Action>, i: nat, j: nat, n: nat): nat
    requires i <= j <= |acts|
  {
    if j == i then 0 else Steps(acts, i, j - 1, n) + if Concerns(acts[j - 1], n) then 1 else 0
  }

  /** From any moment on, a notification of E events with m subscribers takes at most
      (2m + 1) E + 2m + 2 further steps, however long the run goes on. */
  lemma {:induction false} NotificationEnds(states: seq<State>, acts: seq<Action>, i: nat, j: nat, n: nat)
    requires Behaviour(states, acts) && i <= j < |states| && n < |states[i].notifications|
    ensures n < |states[j].notifications|
    ensures Steps(acts, i, j, n) + Left(states[j], n) <= Left(states[i], n)
    ensures Steps(acts, i, j, n) <= Left(states[i], n)
  {
    hide Next, Enabled, Left, Parked, ListOk, PlacesOk, PairsOk;
    Reachable(states, acts, j);
    LeftIsNatural(states[j], n);
    if i < j {
      NotificationEnds(states, acts, i, j - 1, n);
      Reachable(states, acts, j - 1);
      WaitingHasCause(states, acts, j - 1, n);
      LeftStep(states[j - 1], acts[j - 1], n);
      NotificationsStay(states[j - 1], acts[j - 1]);
    }
  }

  lemma NotificationsStay(s: State, a: Action)
    requires Enabled(s, a)
    ensures |Next(s, a).notifications| >= |s.notifications|
  {
    hide NoReader, Removed, ShutAll;
  }

  // ---------------------------------------------------------------- the log is true

  /** The channel that the step sends to, or passes over. */
  predicate Reaches(s: State, a: Action, c: nat) {
    (a.Send? || a.GiveUp?) && AtChannel(s, a.n) && s.subscribers[s.notifications[a.n].k] == c
  }

  /** The attempts on channel c among the first i steps: which event of which notification,
      and whether it was sent or given up. */
  function Attempts(states: seq<State>, acts: seq<Action>, i: nat, c: nat): seq<Attempt>
    requires i <= |acts| <= |states|
  {
    if i == 0 then []
    else
      var s, a := states[i - 1], acts[i - 1];
      Attempts(states, acts, i - 1, c)
        + if Reaches(s, a, c) then [Attempt(a.n, s.notifications[a.n].e, a.Send?)] else []
  }

  lemma LogStep(s: State, a: Action, c: nat)
    requires ListOk(s) && Enabled(s, a) && c < |Next(s, a).channels|
    ensures var before := if c < |s.channels| then s.channels[c].log else [];
      Next(s, a).channels[c].log ==
        before + if Reaches(s, a, c) then [Attempt(a.n, s.notifications[a.n].e, a.Send?)] else []
  {
    if a.Stop? { ShutAllOnce(s.channels, s.subscribers); }
    hide NoReader, Removed, ShutAll;
  }

  lemma NoAttemptsBefore(s: State, a: Action, c: nat)
    requires Enabled(s, a) && Reaches(s, a, c)
    ensures c < |s.channels|
  {
    hide NoReader;
  }

  /** The log of a channel is exactly the sequence of sends and drops on it. */
  lemma {:induction false} LogIsTrue(states: seq<State>, acts: seq<Action>, i: nat, c: nat)
    requires Behaviour(states, acts) && i < |states|
    ensures Attempts(states, acts, i, c) == if c < |states[i].channels| then states[i].channels[c].log else []
  {
    if i > 0 {
      hide Next, Enabled, ListOk, PairsOk, PlacesOk, Reaches;
      LogIsTrue(states, acts, i - 1, c);
      Reachable(states, acts, i - 1);
      if c < |states[i].channels| { LogStep(states[i - 1], acts[i - 1], c); }
      if Reaches(states[i - 1], acts[i - 1], c) { NoAttemptsBefore(states[i - 1], acts[i - 1], c); }
      ChannelsStay(states[i - 1], acts[i - 1]);
    }
  }

  // ---------------------------------------------------------------- once and for all

  predicate Unlisted(s: State, c: nat) {
    c < |s.channels| && s.channels[c].closes == 1 && c !in s.subscribers
  }

  lemma UnlistedStep(s: State, a: Action, c: nat)
    requires ListOk(s) && Enabled(s, a) && Unlisted(s, c)
    ensures Unlisted(Next(s, a), c)
    ensures s.channels[c].cancelled ==> Next(s, a).channels[c].cancelled && a != Close(c)
  {
    if a.Stop? { ShutAllOnce(s.channels, s.subscribers); }
    if a.Close? { RemovedKeeps(s.subscribers, a.c); }
    hide NoReader, Removed, ShutAll;
  }

  lemma CloseUnlists(s: State, c: nat)
    requires ListOk(s) && Enabled(s, Close(c))
    ensures Unlisted(Next(s, Close(c)), c) && Next(s, Close(c)).channels[c].cancelled
  {
    RemovedKeeps(s.subscribers, c);
    hide NoReader;
  }

  /** A subscription that has been closed is closed once and for all: its channel stays closed
      and unlisted, and it is not closed again. */
  lemma {:induction false} ClosedForGood(states: seq<State>, acts: seq<Action>, i: nat, j: nat, c: nat)
    requires Behaviour(states, acts) && i < j < |states| && acts[i] == Close(c)
    ensures Unlisted(states[j], c) && states[j].channels[c].cancelled
    ensures j < |acts| ==> acts[j] != Close(c)
  {
    hide Next, Enabled, ListOk, PairsOk, PlacesOk, Unlisted;
    Reachable(states, acts, j - 1);
    if j == i + 1 {
      CloseUnlists(states[i], c);
    } else {
      ClosedForGood(states, acts, i, j - 1, c);
      UnlistedStep(states[j - 1], acts[j - 1], c);
    }
    if j < |acts| {
      Reachable(states, acts, j);
      UnlistedStep(states[j], acts[j], c);
    }
  }

  lemma StopStaysOne(s: State, a: Action)
    requires Enabled(s, a) && s.stopped
    ensures Next(s, a).stopped && a != Stop
  {
    hide NoReader, Removed, ShutAll;
  }

  /** Stop closes every channel there is and unlists all; it happens once, and no channel that
      was there is ever listed again. */
  lemma {:induction false} StoppedForGood(states: seq<State>, acts: seq<Action>, i: nat, j: nat)
    requires Behaviour(states, acts) && i < j < |states| && acts[i] == Stop
    ensures states[j].stopped && (j < |acts| ==> acts[j] != Stop)
    ensures forall c :: 0 <= c < |states[i].channels| ==> Unlisted(states[j], c)
    ensures j == i + 1 ==> states[j].subscribers == []
  {
    hide Next, Enabled, ListOk, PairsOk, PlacesOk;
    Reachable(states, acts, j - 1);
    Reachable(states, acts, i);
    if j == i + 1 {
      StopUnlists(states[i]);
    } else {
      StoppedForGood(states, acts, i, j - 1);
      StopStaysOne(states[j - 1], acts[j - 1]);
      forall c | 0 <= c < |states[i].channels| ensures Unlisted(states[j], c) {
        UnlistedStep(states[j - 1], acts[j - 1], c);
      }
    }
    if j < |acts| { StopStaysOne(states[j], acts[j]); }
  }

  lemma StopUnlists(s: State)
    requires ListOk(s) && Enabled(s, Stop)
    ensures var s' := Next(s, Stop);
      && s'.stopped && s'.subscribers == [] && forall c :: 0 <= c < |s.channels| ==> Unlisted(s', c)
  {
    ShutAllOnce(s.channels, s.subscribers);
    hide NoReader;
  }

  // ---------------------------------------------------------------- one run

  ghost predicate Runs(s: State) {
    exists states, acts :: Behaviour(states, acts) && states[|states| - 1] == s
  }

  lemma Then(s: State, a: Action) returns (s': State)
    requires Runs(s) && Enabled(s, a)
    ensures s' == Next(s, a) && Runs(s')
  {
    hide Next, Enabled;
    var states, acts :| Behaviour(states, acts) && states[|states| - 1] == s;
    s' := Next(s, a);
    assert Behaviour(states + [s'], acts + [a]);
  }

  const OUT := Channel(1, [], 0, true)

  lemma SecondLeft() returns (s: State)
    ensures Runs(s) && s == State([OUT, Channel(0, [], 0, false)], [1], [], false, false)
  {
    assert Behaviour([INIT], []);
    hide Runs;
    s := Then(INIT, Subscribe);
    s := Then(s, Subscribe);
    assert s.subscribers == [0, 1];
    s := Then(s, Close(0));
    assert s.channels == [OUT, Channel(0, [], 0, false)];
  }

  lemma SecondServed() returns (s: State)
    ensures Runs(s)
    ensures s == State([OUT, Channel(0, [Attempt(0, 0, true)], 1, false)], [1], [Notification(1, 1, 0, false, true)],
                       false, false)
  {
    hide Runs, NoReader, Removed, ShutAll;
    s := SecondLeft();
    s := Then(s, Begin(1));
    assert s.notifications == [Notification(1, 0, 0, false, true)];
    assert Target(s, 0) == Channel(0, [], 0, false);
    s := Then(s, Send(0));
    assert [] + [Attempt(0, 0, true)] == [Attempt(0, 0, true)];
    assert s.channels == [OUT, Channel(0, [Attempt(0, 0, true)], 1, false)];
    assert s.notifications == [Notification(1, 0, 1, false, true)];
    s := Then(s, NextEvent(0));
    assert s.notifications == [Notification(1, 1, 0, false, true)];
  }

  /** A subscriber that has received the one event of a finished notification, and been closed
      by Stop; another that was closed before and got nothing. */
  lemma OneOfTwoServed() returns (s: State)
    ensures Runs(s)
    ensures s == State([OUT, Channel(1, [Attempt(0, 0, true)], 0, false)], [], [Notification(1, 1, 0, false, false)],
                       true, false)
  {
    hide Runs, Removed;
    s := SecondServed();
    s := Then(s, Finish(0));
    s := Then(s, Receive(1));
    assert [1][..0] == [];
    assert ShutAll(s.channels, [1]) == s.channels[1 := Shut(s.channels[1])];
    s := Then(s, Stop);
  }
}

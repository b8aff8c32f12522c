/** Subscriptions and notifications of the configuration syncer (syncer/syncer.go) under its
    read-write lock: notifications read the subscriber list side by side, while Subscribe,
    Close and Stop change it alone. Channels and notifications are their index. */
module Subscribers {

  const CAPACITY := 1000

  /** One attempt of a notification to send its event e, and whether it was delivered. */
  datatype Attempt = Attempt(n: nat, e: nat, delivered: bool)

  /** `pending` is the number of delivered events not yet received. */
  datatype Channel = Channel(closes: nat, log: seq<Attempt>, pending: nat, cancelled: bool)

  /** A notification stands at event e and at position k of the subscriber list; `waiting`
      says that it found the channel full and tries once more. */
  datatype Notification = Notification(events: nat, e: nat, k: nat, waiting: bool, running: bool)

  datatype State = State(
    channels: seq<Channel>, subscribers: seq<nat>, notifications: seq<Notification>, stopped: bool, panicked: bool)

  datatype Action =
    | Subscribe
    | Close(c: nat)
    | Stop
    | Begin(events: nat)
    | Send(n: nat)
    | FindFull(n: nat)
    | GiveUp(n: nat)
    | NextEvent(n: nat)
    | Finish(n: nat)
    | Receive(c: nat)

  ghost predicate NoReader(s: State) {
    forall n :: 0 <= n < |s.notifications| ==> !s.notifications[n].running
  }

  predicate AtChannel(s: State, n: nat) {
    && n < |s.notifications|
    && var x := s.notifications[n];
       x.running && x.e < x.events && x.k < |s.subscribers| && s.subscribers[x.k] < |s.channels|
  }

  function Target(s: State, n: nat): Channel
    requires AtChannel(s, n)
  {
    s.channels[s.subscribers[s.notifications[n].k]]
  }

  ghost predicate Enabled(s: State, a: Action) {
    && !s.panicked
    && match a
       case Subscribe => NoReader(s)
       case Close(c) => NoReader(s) && c < |s.channels| && !s.channels[c].cancelled
       case Stop => NoReader(s) && !s.stopped
       case Begin(_) => true
       case Send(n) => AtChannel(s, n) && (Target(s, n).closes > 0 || Target(s, n).pending < CAPACITY)
       case FindFull(n) =>
         AtChannel(s, n) && Target(s, n).closes == 0 && Target(s, n).pending >= CAPACITY && !s.notifications[n].waiting
       case GiveUp(n) => AtChannel(s, n) && s.notifications[n].waiting
       case NextEvent(n) =>
         && n < |s.notifications| && s.notifications[n].running
         && s.notifications[n].e < s.notifications[n].events && s.notifications[n].k == |s.subscribers|
       case Finish(n) =>
         n < |s.notifications| && s.notifications[n].running && s.notifications[n].e == s.notifications[n].events
       case Receive(c) => c < |s.channels| && s.channels[c].pending > 0
  }

  /** The list without the first occurrence of c. */
  function Removed<T(==)>(list: seq<T>, c: T): seq<T> {
    if list == [] then [] else if list[0] == c then list[1..] else [list[0]] + Removed(list[1..], c)
  }

  function Shut(ch: Channel): Channel {
    ch.(closes := ch.closes + 1)
  }

  /** Every channel is closed once for each time it is listed. */
  function ShutAll(channels: seq<Channel>, list: seq<nat>): seq<Channel> {
    if list == [] then channels
    else
      var rest := ShutAll(channels, list[..|list| - 1]);
      var c := list[|list| - 1];
      if c < |rest| then rest[c := Shut(rest[c])] else rest
  }

  function Attempted(s: State, n: nat, delivered: bool): State
    requires AtChannel(s, n)
  {
    var x := s.notifications[n];
    var c := s.subscribers[x.k];
    var ch := s.channels[c];
    s.(channels := s.channels[c := ch.(
         log := ch.log + [Attempt(n, x.e, delivered)], pending := ch.pending + if delivered then 1 else 0)],
       notifications := s.notifications[n := x.(k := x.k + 1, waiting := false)])
  }

  ghost function Next(s: State, a: Action): State
    requires Enabled(s, a)
  {
    match a
    case Subscribe =>
      s.(channels := s.channels + [Channel(0, [], 0, false)], subscribers := s.subscribers + [|s.channels|])
    case Close(c) =>
      var ch := s.channels[c].(cancelled := true);
      if c in s.subscribers
      then s.(channels := s.channels[c := Shut(ch)], subscribers := Removed(s.subscribers, c))
      else s.(channels := s.channels[c := ch])
    case Stop => s.(channels := ShutAll(s.channels, s.subscribers), subscribers := [], stopped := true)
    case Begin(events) => s.(notifications := s.notifications + [Notification(events, 0, 0, false, true)])
    case Send(n) => if Target(s, n).closes > 0 then s.(panicked := true) else Attempted(s, n, true)
    case FindFull(n) => s.(notifications := s.notifications[n := s.notifications[n].(waiting := true)])
    case GiveUp(n) => Attempted(s, n, false)
    case NextEvent(n) =>
      var x := s.notifications[n];
      s.(notifications := s.notifications[n := x.(e := x.e + 1, k := 0)])
    case Finish(n) => s.(notifications := s.notifications[n := s.notifications[n].(running := false)])
    case Receive(c) => s.(channels := s.channels[c := s.channels[c].(pending := s.channels[c].pending - 1)])
  }

  const INIT := State([], [], [], false, false)

  ghost predicate Behaviour(states: seq<State>, acts: seq<Action>) {
    && |states| == |acts| + 1 && states[0] == INIT
    && forall i :: 0 <= i < |acts| ==> Enabled(states[i], acts[i]) && states[i + 1] == Next(states[i], acts[i])
  }

  // ---------------------------------------------------------------- the list and the channels

  /** The subscriber list is exactly the open channels, each once; no channel is closed twice. */
  ghost predicate ListOk(s: State) {
    && (forall k :: 0 <= k < |s.subscribers| ==> s.subscribers[k] < |s.channels|)
    && Distinct(s.subscribers)
    && (forall c :: 0 <= c < |s.channels| ==> s.channels[c].closes == if c in s.subscribers then 0 else 1)
    && !s.panicked
  }

  ghost predicate Distinct(list: seq<nat>) {
    forall j, k :: 0 <= j < k < |list| ==> list[j] != list[k]
  }

  lemma {:induction false} RemovedKeeps(list: seq<nat>, c: nat)
    requires Distinct(list)
    ensures forall d :: d in Removed(list, c) <==> d in list && d != c
    ensures Distinct(Removed(list, c))
  {
    if list != [] {
      assert list == [list[0]] + list[1..];
      if list[0] != c {
        RemovedKeeps(list[1..], c);
        var r := Removed(list[1..], c);
        forall j, k | 0 <= j < k < |r| + 1 ensures ([list[0]] + r)[j] != ([list[0]] + r)[k] {
          assert r[k - 1] in r;
        }
      }
    }
  }

  lemma {:induction false} ShutAllOnce(channels: seq<Channel>, list: seq<nat>)
    requires Distinct(list)
    ensures |ShutAll(channels, list)| == |channels|
    ensures forall c :: 0 <= c < |channels| ==>
      ShutAll(channels, list)[c] == if c in list then Shut(channels[c]) else channels[c]
  {
    if list != [] {
      var front, last := list[..|list| - 1], list[|list| - 1];
      assert list == front + [last];
      ShutAllOnce(channels, front);
      assert last !in front;
    }
  }

  lemma CloseStep(s: State, c: nat)
    requires ListOk(s) && Enabled(s, Close(c))
    ensures ListOk(Next(s, Close(c)))
  {
    RemovedKeeps(s.subscribers, c);
    var r := Removed(s.subscribers, c);
    assert forall k :: 0 <= k < |r| ==> r[k] in r;
    hide Distinct, NoReader;
  }

  lemma StopStep(s: State)
    requires ListOk(s) && Enabled(s, Stop)
    ensures ListOk(Next(s, Stop))
  {
    ShutAllOnce(s.channels, s.subscribers);
    hide NoReader;
  }

  lemma ListStep(s: State, a: Action)
    requires ListOk(s) && Enabled(s, a)
    ensures ListOk(Next(s, a))
  {
    if a.Close? {
      CloseStep(s, a.c);
    } else if a.Stop? {
      StopStep(s);
    } else {
      hide NoReader, Removed, ShutAll;
    }
  }

  // ---------------------------------------------------------------- what a notification sends

  /** The events that notification n attempted on this channel, in order. */
  function Of(log: seq<Attempt>, n: nat): seq<nat> {
    if log == [] then []
    else Of(log[..|log| - 1], n) + if log[|log| - 1].n == n then [log[|log| - 1].e] else []
  }

  /** 0, 1, …, m - 1 */
  function UpTo(m: nat): seq<nat> {
    seq(m, i => i)
  }

  /** How many events the notification is past, seen from position p of the list. */
  function Handled(x: Notification, p: nat): nat {
    if p < x.k then x.e + 1 else x.e
  }

  ghost predicate PlacesOk(s: State) {
    forall n :: 0 <= n < |s.notifications| && s.notifications[n].running ==>
      && s.notifications[n].e <= s.notifications[n].events && s.notifications[n].k <= |s.subscribers|
      && (s.notifications[n].e == s.notifications[n].events ==> s.notifications[n].k == 0)
  }

  /** What notification n has attempted on channel c: while it runs, a prefix of its events
      if the channel is listed and nothing otherwise; afterwards all of them or nothing. */
  ghost predicate PairOk(s: State, n: nat, c: nat)
    requires c < |s.channels|
  {
    var sent := Of(s.channels[c].log, n);
    if n >= |s.notifications| then sent == []
    else if !s.notifications[n].running then sent == [] || sent == UpTo(s.notifications[n].events)
    else if c !in s.subscribers then sent == []
    else forall p :: 0 <= p < |s.subscribers| && s.subscribers[p] == c ==> sent == UpTo(Handled(s.notifications[n], p))
  }

  ghost predicate PairsOk(s: State) {
    forall n: nat, c: nat :: c < |s.channels| ==> PairOk(s, n, c)
  }

  lemma PlacesStep(s: State, a: Action)
    requires ListOk(s) && PlacesOk(s) && Enabled(s, a)
    ensures PlacesOk(Next(s, a))
  {
    hide Removed, ShutAll, ListOk, Distinct;
  }

  /** Steps under the write lock: no notification is running. */
  lemma AloneStep(s: State, a: Action, n: nat, c: nat)
    requires ListOk(s) && PairsOk(s) && Enabled(s, a) && (a.Subscribe? || a.Close? || a.Stop?)
    ensures Next(s, a).notifications == s.notifications
    ensures c < |Next(s, a).channels| ==> PairOk(Next(s, a), n, c)
  {
    var s' := Next(s, a);
    if a.Stop? { ShutAllOnce(s.channels, s.subscribers); }
    if c < |s.channels| {
      assert s'.channels[c].log == s.channels[c].log;
      assert PairOk(s, n, c);
    }
    hide Removed, ShutAll, Of, UpTo, PairsOk;
  }

  /** An attempt of notification m. */
  lemma AttemptStep(s: State, m: nat, delivered: bool, n: nat, c: nat)
    requires ListOk(s) && AtChannel(s, m) && c < |s.channels| && PairOk(s, n, c)
    ensures PairOk(Attempted(s, m, delivered), n, c)
  {
    var s', x := Attempted(s, m, delivered), s.notifications[m];
    var log, log' := s.channels[c].log, s'.channels[c].log;
    if c == s.subscribers[x.k] {
      assert log'[..|log'| - 1] == log;
      assert Of(log', n) == Of(log, n) + if n == m then [x.e] else [];
    }
    assert UpTo(x.e + 1) == UpTo(x.e) + [x.e];
    hide Of, UpTo;
  }

  lemma MoveStep(s: State, a: Action, n: nat, c: nat)
    requires PlacesOk(s) && Enabled(s, a) && c < |s.channels| && PairOk(s, n, c)
    requires a.Begin? || a.FindFull? || a.NextEvent? || a.Finish? || a.Receive?
    ensures |Next(s, a).channels| == |s.channels| && PairOk(Next(s, a), n, c)
  {
    assert UpTo(0) == [];
    hide Of, UpTo, NoReader;
  }

  lemma PairsStep(s: State, a: Action)
    requires ListOk(s) && PlacesOk(s) && PairsOk(s) && Enabled(s, a)
    ensures PairsOk(Next(s, a))
  {
    var s' := Next(s, a);
    forall n: nat, c: nat | c < |s'.channels| ensures PairOk(s', n, c) {
      hide PairOk, NoReader, Removed, ShutAll;
      if a.Subscribe? || a.Close? || a.Stop? {
        AloneStep(s, a, n, c);
      } else if a.Send? || a.GiveUp? {
        AttemptStep(s, a.n, a.Send?, n, c);
      } else {
        MoveStep(s, a, n, c);
      }
    }
  }

  ghost predicate Inv(s: State) {
    ListOk(s) && PlacesOk(s) && PairsOk(s)
  }

  lemma {:induction false} Reachable(states: seq<State>, acts: seq<Action>, i: nat)
    requires Behaviour(states, acts) && i < |states|
    ensures Inv(states[i])
  {
    hide Next, Enabled, ListOk, PlacesOk, PairsOk;
    if i > 0 {
      Reachable(states, acts, i - 1);
      ListStep(states[i - 1], acts[i - 1]);
      PlacesStep(states[i - 1], acts[i - 1]);
      PairsStep(states[i - 1], acts[i - 1]);
    } else {
      InitialOk();
    }
  }

  lemma InitialOk()
    ensures Inv(INIT)
  {
  }

  // ---------------------------------------------------------------- guarantees

  /** Whatever happens at the same time, the list is exactly the open channels, each channel
      is closed at most once, and nobody stands before a send to a closed channel. */
  lemma ListIsTheOpenChannels(states: seq<State>, acts: seq<Action>, i: nat)
    requires Behaviour(states, acts) && i < |states|
    ensures var s := states[i];
      && !s.panicked
      && (forall c :: 0 <= c < |s.channels| ==>
            (s.channels[c].closes == 0 <==> c in s.subscribers) && s.channels[c].closes <= 1)
      && (forall n: nat :: AtChannel(s, n) ==> Target(s, n).closes == 0)
  {
    hide Next, Enabled, PairsOk, PlacesOk;
    Reachable(states, acts, i);
  }

  /** A notification that has ended attempted, on each channel, all its events once and in
      their order, or none at all. */
  lemma AllOrNothing(states: seq<State>, acts: seq<Action>, i: nat, n: nat, c: nat)
    requires Behaviour(states, acts) && i < |states|
    requires n < |states[i].notifications| && !states[i].notifications[n].running && c < |states[i].channels|
    ensures var sent := Of(states[i].channels[c].log, n);
      sent == [] || sent == UpTo(states[i].notifications[n].events)
  {
    hide Next, Enabled, ListOk, PlacesOk;
    Reachable(states, acts, i);
    assert PairOk(states[i], n, c);
  }

  /** When a notification has gone through its events, every subscriber has had them all. */
  lemma AllSubscribersServed(states: seq<State>, acts: seq<Action>, i: nat, n: nat, p: nat)
    requires Behaviour(states, acts) && i < |states| && n < |states[i].notifications|
    requires states[i].notifications[n].running && states[i].notifications[n].e == states[i].notifications[n].events
    requires p < |states[i].subscribers|
    ensures states[i].subscribers[p] < |states[i].channels|
    ensures Of(states[i].channels[states[i].subscribers[p]].log, n) == UpTo(states[i].notifications[n].events)
  {
    hide Next, Enabled;
    Reachable(states, acts, i);
    assert PairOk(states[i], n, states[i].subscribers[p]);
  }

  lemma {:induction false} PrefixIncreases(log: seq<Attempt>, n: nat, m: nat)
    requires Of(log, n) == UpTo(m)
    ensures forall i :: 0 <= i < |log| && log[i].n == n ==> log[i].e < m
    ensures forall i, j :: 0 <= i < j < |log| && log[i].n == n && log[j].n == n ==> log[i].e < log[j].e
  {
    if log != [] {
      var last := |log| - 1;
      if log[last].n == n {
        assert |UpTo(m)| == m > 0 && UpTo(m)[m - 1] == m - 1;
        assert Of(log[..last], n) == UpTo(m)[..m - 1];
        assert UpTo(m)[..m - 1] == UpTo(m - 1);
        PrefixIncreases(log[..last], n, m - 1);
      } else {
        PrefixIncreases(log[..last], n, m);
      }
    }
  }

  /** What a channel gets from one notification is at any moment an in-order subsequence of
      its events: later deliveries carry later events, and none comes twice. */
  lemma DeliveredInOrder(states: seq<State>, acts: seq<Action>, i: nat, n: nat, c: nat)
    requires Behaviour(states, acts) && i < |states| && c < |states[i].channels|
    ensures var log := states[i].channels[c].log;
      forall a, b :: 0 <= a < b < |log| && log[a].n == n && log[b].n == n ==> log[a].e < log[b].e
    ensures forall a :: 0 <= a < |states[i].channels[c].log| && states[i].channels[c].log[a].n == n ==>
      n < |states[i].notifications| && states[i].channels[c].log[a].e < states[i].notifications[n].events
  {
    hide Next, Enabled;
    Reachable(states, acts, i);
    var m := PrefixLength(states[i], n, c);
    PrefixIncreases(states[i].channels[c].log, n, m);
  }

  lemma PrefixLength(s: State, n: nat, c: nat) returns (m: nat)
    requires Inv(s) && c < |s.channels|
    ensures Of(s.channels[c].log, n) == UpTo(m)
    ensures m == 0 || (n < |s.notifications| && m <= s.notifications[n].events)
  {
    assert PairOk(s, n, c);
    assert UpTo(0) == [];
    hide Of, UpTo, PairsOk;
    m := 0;
    if Of(s.channels[c].log, n) != [] {
      if s.notifications[n].running {
        var p :| 0 <= p < |s.subscribers| && s.subscribers[p] == c;
        m := Handled(s.notifications[n], p);
      } else {
        m := s.notifications[n].events;
      }
    }
  }

  // ---------------------------------------------------------------- drops and receipts

  /** Among the first i actions, notification n found the channel at its place full. */
  ghost predicate SawFull(states: seq<State>, acts: seq<Action>, i: nat, n: nat, e: nat, k: nat)
    requires i <= |acts| < |states|
  {
    exists j :: 0 <= j < i && acts[j] == FindFull(n) && FullAt(states[j], n, e, k)
  }

  /** Notification n stands at this place, and 1000 events wait in the channel there. */
  predicate FullAt(s: State, n: nat, e: nat, k: nat) {
    AtChannel(s, n) && s.notifications[n].e == e && s.notifications[n].k == k && Target(s, n).pending >= 1000
  }

  ghost predicate WaitsForCause(states: seq<State>, acts: seq<Action>, i: nat, n: nat)
    requires i <= |acts| < |states|
  {
    Waits(states[i], n) ==>
      Parked(states[i], n)
      && SawFull(states, acts, i, n, states[i].notifications[n].e, states[i].notifications[n].k)
  }

  predicate Waits(s: State, n: nat) {
    n < |s.notifications| && s.notifications[n].waiting
  }

  /** Under way, at some place of the list. */
  predicate Parked(s: State, n: nat) {
    n < |s.notifications| && s.notifications[n].running
    && s.notifications[n].e < s.notifications[n].events && s.notifications[n].k < |s.subscribers|
  }

  lemma WaitingStep(s: State, a: Action, n: nat)
    requires Enabled(s, a) && Waits(Next(s, a), n) && (Waits(s, n) ==> Parked(s, n))
    ensures Parked(Next(s, a), n)
    ensures var x := Next(s, a).notifications[n];
      if a == FindFull(n)
      then FullAt(s, n, x.e, x.k)
      else Waits(s, n) && s.notifications[n].e == x.e && s.notifications[n].k == x.k
  {
    assert Waits(s, n) ==> s.notifications[n].running && !NoReader(s);
    hide NoReader, Removed, ShutAll;
  }

  lemma {:induction false} WaitingHasCause(states: seq<State>, acts: seq<Action>, i: nat, n: nat)
    requires Behaviour(states, acts) && i < |states|
    ensures WaitsForCause(states, acts, i, n)
  {
    if i > 0 && Waits(states[i], n) {
      hide Next, Enabled, FullAt;
      WaitingHasCause(states, acts, i - 1, n);
      WaitingStep(states[i - 1], acts[i - 1], n);
      var x := states[i].notifications[n];
      if acts[i - 1] != FindFull(n) {
        var j :| 0 <= j < i - 1 && acts[j] == FindFull(n) && FullAt(states[j], n, x.e, x.k);
      }
    }
  }

  /** An event is dropped for a subscriber only after that notification has found the channel
      at this very place full. */
  lemma DropsOnlyAtFullChannel(states: seq<State>, acts: seq<Action>, i: nat, n: nat)
    requires Behaviour(states, acts) && i < |acts| && acts[i] == GiveUp(n)
    ensures n < |states[i].notifications|
    ensures SawFull(states, acts, i, n, states[i].notifications[n].e, states[i].notifications[n].k)
  {
    WaitingHasCause(states, acts, i, n);
    hide Next, NoReader;
  }

  /** How many of the attempts delivered their event. */
  function Deliveries(log: seq<Attempt>): nat {
    if log == [] then 0 else Deliveries(log[..|log| - 1]) + if log[|log| - 1].delivered then 1 else 0
  }

  /** How many events the subscriber has received from channel c. */
  function Receipts(acts: seq<Action>, n: nat, c: nat): nat
    requires n <= |acts|
  {
    if n == 0 then 0 else Receipts(acts, n - 1, c) + if acts[n - 1] == Receive(c) then 1 else 0
  }

  predicate Balanced(ch: Channel, received: nat) {
    Deliveries(ch.log) == ch.pending + received && ch.pending <= 1000
  }

  lemma DeliveriesGrow(log: seq<Attempt>, x: Attempt)
    ensures Deliveries(log + [x]) == Deliveries(log) + if x.delivered then 1 else 0
  {
    assert (log + [x])[..|log|] == log;
  }

  lemma ChannelStep(s: State, a: Action, c: nat, received: nat)
    requires ListOk(s) && Enabled(s, a) && c < |Next(s, a).channels|
    requires if c < |s.channels| then Balanced(s.channels[c], received) else received == 0 && a != Receive(c)
    ensures Balanced(Next(s, a).channels[c], received + if a == Receive(c) then 1 else 0)
  {
    if a.Stop? { ShutAllOnce(s.channels, s.subscribers); }
    if a.Send? || a.GiveUp? {
      DeliveriesGrow(Target(s, a.n).log, Attempt(a.n, s.notifications[a.n].e, a.Send?));
    }
    hide Deliveries, NoReader, Removed, ShutAll, ListOk;
  }

  lemma NoReceiptsBefore(states: seq<State>, acts: seq<Action>, i: nat, c: nat)
    requires Behaviour(states, acts) && i < |states| && c >= |states[i].channels|
    ensures Receipts(acts, i, c) == 0
  {
    if i > 0 {
      ChannelsStay(states[i - 1], acts[i - 1]);
      hide Next;
      NoReceiptsBefore(states, acts, i - 1, c);
    }
  }

  lemma ChannelsStay(s: State, a: Action)
    requires Enabled(s, a)
    ensures |Next(s, a).channels| >= |s.channels|
  {
    if a.Stop? { ShutAllSize(s.channels, s.subscribers); }
    hide NoReader, Removed, ShutAll;
  }

  lemma {:induction false} ShutAllSize(channels: seq<Channel>, list: seq<nat>)
    ensures |ShutAll(channels, list)| == |channels|
  {
    if list != [] { ShutAllSize(channels, list[..|list| - 1]); }
  }

  /** Nothing is lost or invented on the way: what was delivered to a channel has been received
      or is waiting in it, and never more than 1000 events wait. */
  lemma {:induction false} DeliveredIsReceived(states: seq<State>, acts: seq<Action>, i: nat, c: nat)
    requires Behaviour(states, acts) && i < |states| && c < |states[i].channels|
    ensures Deliveries(states[i].channels[c].log) == states[i].channels[c].pending + Receipts(acts, i, c)
    ensures states[i].channels[c].pending <= 1000
  {
    if i > 0 {
      Reachable(states, acts, i - 1);
      if c < |states[i - 1].channels| {
        DeliveredIsReceived(states, acts, i - 1, c);
      } else {
        NoReceiptsBefore(states, acts, i - 1, c);
      }
      ChannelStep(states[i - 1], acts[i - 1], c, Receipts(acts, i - 1, c));
      hide Next, PairsOk, PlacesOk, Deliveries;
    }
  }

  // ---------------------------------------------------------------- one call at a time

  class EventChannel<E> {
    var closed: bool
    var received: seq<E>

    constructor ()
      ensures !closed && received == []
    {
      closed, received := false, [];
    }
  }

  /** The events that are not dropped for the subscriber at position k. */
  function Kept<E>(events: seq<E>, k: nat, drops: (nat, nat) -> bool): seq<E> {
    if events == [] then []
    else Kept(events[..|events| - 1], k, drops) + if drops(|events| - 1, k) then [] else [events[|events| - 1]]
  }

  /** The positions, in increasing order, of the n events that are not dropped for k. */
  ghost predicate Positions(picks: seq<nat>, n: nat, k: nat, drops: (nat, nat) -> bool) {
    && (forall a, b :: 0 <= a < b < |picks| ==> picks[a] < picks[b])
    && (forall e: nat :: e in picks <==> e < n && !drops(e, k))
  }

  /** Every event that is not dropped for k is there, once and in the order of the events, and
      nothing else. */
  ghost predicate Delivers<E>(events: seq<E>, k: nat, drops: (nat, nat) -> bool, got: seq<E>) {
    exists picks :: Positions(picks, |events|, k, drops) && Picked(events, picks, got)
  }

  predicate Picked<E(==)>(events: seq<E>, picks: seq<nat>, got: seq<E>) {
    |got| == |picks| && forall a :: 0 <= a < |got| ==> picks[a] < |events| && got[a] == events[picks[a]]
  }

  lemma PositionsGrow(picks: seq<nat>, n: nat, k: nat, drops: (nat, nat) -> bool)
    requires Positions(picks, n, k, drops)
    ensures Positions(if drops(n, k) then picks else picks + [n], n + 1, k, drops)
  {
    forall a | 0 <= a < |picks| ensures picks[a] < n { assert picks[a] in picks; }
    if !drops(n, k) {
      var more := picks + [n];
      forall e: nat ensures e in more <==> e in picks || e == n {
        if e == n { assert more[|picks|] == n; }
      }
    }
  }

  lemma PickedGrows<E>(events: seq<E>, picks: seq<nat>, got: seq<E>, e: E)
    requires Picked(events, picks, got)
    ensures Picked(events + [e], picks, got)
    ensures Picked(events + [e], picks + [|events|], got + [e])
  {
  }

  lemma NothingToPick<E>(none: seq<E>, k: nat, drops: (nat, nat) -> bool)
    requires none == []
    ensures Positions([], 0, k, drops) && Picked(none, [], Kept(none, k, drops))
  {
  }

  lemma {:induction false} KeptPositions<E>(events: seq<E>, k: nat, drops: (nat, nat) -> bool)
    returns (picks: seq<nat>)
    ensures Positions(picks, |events|, k, drops) && Picked(events, picks, Kept(events, k, drops))
  {
    hide Positions, Picked;
    if events == [] {
      picks := [];
      NothingToPick(events, k, drops);
    } else {
      var n := |events| - 1;
      var front := KeptPositions(events[..n], k, drops);
      PositionsGrow(front, n, k, drops);
      PickedGrows(events[..n], front, Kept(events[..n], k, drops), events[n]);
      assert events == events[..n] + [events[n]];
      picks := if drops(n, k) then front else front + [n];
      var kept := Kept(events[..n], k, drops);
      assert Kept(events, k, drops) == if drops(n, k) then kept else kept + [events[n]];
    }
  }

  lemma KeptDelivers<E>(events: seq<E>, k: nat, drops: (nat, nat) -> bool)
    ensures Delivers(events, k, drops, Kept(events, k, drops))
  {
    var picks := KeptPositions(events, k, drops);
  }

  /** Where nothing is dropped, everything is delivered. */
  lemma {:induction false} NothingDropped<E>(events: seq<E>, k: nat, drops: (nat, nat) -> bool)
    requires forall e: nat :: e < |events| ==> !drops(e, k)
    ensures Kept(events, k, drops) == events
  {
    if events != [] { NothingDropped(events[..|events| - 1], k, drops); }
  }

  class Hub<E> {
    var subscribers: seq<EventChannel<E>>
    var stopped: bool

    /** The listed channels are open and listed once. */
    ghost predicate Valid()
      reads this, subscribers
    {
      && (forall k :: 0 <= k < |subscribers| ==> !subscribers[k].closed)
      && (forall j, k :: 0 <= j < k < |subscribers| ==> subscribers[j] != subscribers[k])
    }

    constructor ()
      ensures Valid() && subscribers == [] && !stopped
    {
      subscribers, stopped := [], false;
    }

    method Subscribe() returns (ch: EventChannel<E>)
      requires Valid()
      modifies this`subscribers
      ensures Valid() && fresh(ch) && subscribers == old(subscribers) + [ch] && ch.received == []
    {
      ch := new EventChannel();
      subscribers := subscribers + [ch];
    }

    /** Closes the channel if it is listed and does nothing otherwise, so a second call, or
        one after Stop, never closes it again. */
    method Close(ch: EventChannel<E>)
      requires Valid()
      modifies this`subscribers, ch`closed
      ensures Valid() && ch !in subscribers
      ensures ch.closed == (old(ch.closed) || ch in old(subscribers))
      ensures ch in old(subscribers) ==>
        exists i :: (0 <= i < |old(subscribers)| && old(subscribers)[i] == ch
                     && subscribers == old(subscribers)[..i] + old(subscribers)[i + 1..])
      ensures ch !in old(subscribers) ==> subscribers == old(subscribers)
    {
      for i := 0 to |subscribers|
        invariant subscribers == old(subscribers) && ch.closed == old(ch.closed)
        invariant forall j :: 0 <= j < i ==> subscribers[j] != ch
      {
        if subscribers[i] == ch {
          subscribers := subscribers[..i] + subscribers[i + 1..];
          ch.closed := true;
          return;
        }
      }
    }

    method Stop()
      requires Valid()
      modifies this, subscribers
      ensures Valid() && subscribers == [] && stopped
      ensures forall ch :: ch in old(subscribers) ==> ch.closed && ch.received == old(ch.received)
    {
      for i := 0 to |subscribers|
        invariant subscribers == old(subscribers)
        invariant forall j :: 0 <= j < |subscribers| ==>
          subscribers[j].closed == (j < i) && subscribers[j].received == old(subscribers[j].received)
        invariant forall j, k :: 0 <= j < k < |subscribers| ==> subscribers[j] != subscribers[k]
      {
        subscribers[i].closed := true;
      }
      subscribers := [];
      stopped := true;
    }

    /** One event to every subscriber, except where it is dropped. */
    method Notify(event: E, drop: nat -> bool)
      requires Valid()
      modifies subscribers
      ensures Valid()
      ensures forall k :: 0 <= k < |subscribers| ==>
        subscribers[k].received == old(subscribers[k].received) + if drop(k) then [] else [event]
    {
      for i := 0 to |subscribers|
        invariant Valid()
        invariant forall k :: 0 <= k < |subscribers| ==>
          subscribers[k].received == old(subscribers[k].received) + if k >= i || drop(k) then [] else [event]
      {
        if !drop(i) {
          subscribers[i].received := subscribers[i].received + [event];
        }
      }
    }

    /** Every subscriber receives, in order, the events that are not dropped for it. */
    method NotifyAll(events: seq<E>, drops: (nat, nat) -> bool)
      requires Valid()
      modifies subscribers
      ensures Valid()
      ensures forall k :: 0 <= k < |subscribers| ==>
        subscribers[k].received == old(subscribers[k].received) + Kept(events, k, drops)
      ensures forall k :: 0 <= k < |subscribers| ==>
        && |old(subscribers[k].received)| <= |subscribers[k].received|
        && subscribers[k].received[..|old(subscribers[k].received)|] == old(subscribers[k].received)
        && Delivers(events, k, drops, subscribers[k].received[|old(subscribers[k].received)|..])
    {
      assert events[..0] == [];
      for e := 0 to |events|
        invariant Valid()
        invariant forall k :: 0 <= k < |subscribers| ==>
          subscribers[k].received == old(subscribers[k].received) + Kept(events[..e], k, drops)
      {
        assert events[..e + 1][..e] == events[..e];
        Notify(events[e], (k: nat) => drops(e, k));
      }
      assert events[..|events|] == events;
      forall k | 0 <= k < |subscribers|
        ensures Delivers(events, k, drops, subscribers[k].received[|old(subscribers[k].received)|..])
      {
        KeptDelivers(events, k, drops);
        assert subscribers[k].received[|old(subscribers[k].received)|..] == Kept(events, k, drops);
      }
    }
  }
}

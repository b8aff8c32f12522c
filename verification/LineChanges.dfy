/** From one configuration to the next: the syncer's diff (syncer/syncer.go) and the
    manager that applies it event by event (manager/manager.go). */
module LineChanges {
  import opened Lines

  datatype Kind = Create | Update | Delete

  datatype Event = Event(kind: Kind, line: Line, version: int)

  datatype Change = NoChange | Changed(kind: Kind, line: Line)

  /** What happened to one IP. */
  function ChangeOf(old_: LineMap, new_: LineMap, ip: string): Change {
    if ip in old_ && ip !in new_ then Changed(Delete, old_[ip])
    else if ip in old_ && old_[ip].hash != new_[ip].hash then Changed(Update, new_[ip])
    else if ip !in old_ && ip in new_ then Changed(Create, new_[ip])
    else NoChange
  }

  /** One event for each changed IP and none for the others, in whatever order. */
  ghost predicate IsDiff(old_: LineMap, new_: LineMap, events: seq<Event>) {
    && (forall i :: 0 <= i < |events| ==>
          ChangeOf(old_, new_, events[i].line.ip) == Changed(events[i].kind, events[i].line))
    && (forall i, j :: 0 <= i < j < |events| ==> events[i].line.ip != events[j].line.ip)
    && (forall ip :: ChangeOf(old_, new_, ip) != NoChange ==> Mentions(events, ip))
  }

  predicate Mentions(events: seq<Event>, ip: string) {
    exists i :: 0 <= i < |events| && events[i].line.ip == ip
  }

  /** The event tells of a real change at its IP, and with the right line. */
  predicate Rightly(e: Event, old_: LineMap, new_: LineMap) {
    var ip := e.line.ip;
    match e.kind
    case Create => ip !in old_ && ip in new_ && e.line == new_[ip]
    case Update => ip in old_ && ip in new_ && old_[ip].hash != new_[ip].hash && e.line == new_[ip]
    case Delete => ip in old_ && ip !in new_ && e.line == old_[ip]
  }

  /** A diff has one event for each IP that came, went or changed its digest, each of the right
      kind and with the right line, and no other events. */
  lemma DiffIsRight(old_: LineMap, new_: LineMap, events: seq<Event>)
    ensures IsDiff(old_, new_, events) <==>
      && (forall i :: 0 <= i < |events| ==> Rightly(events[i], old_, new_))
      && (forall i, j :: 0 <= i < j < |events| ==> events[i].line.ip != events[j].line.ip)
      && (forall ip :: (ip in old_) != (ip in new_) ==> Mentions(events, ip))
      && (forall ip :: ip in old_ && ip in new_ && old_[ip].hash != new_[ip].hash ==> Mentions(events, ip))
  {
    forall i | 0 <= i < |events|
      ensures Rightly(events[i], old_, new_) <==>
        ChangeOf(old_, new_, events[i].line.ip) == Changed(events[i].kind, events[i].line)
    {
    }
    hide Mentions;
  }

  class ConfigSyncer {
    var lines: LineMap
    var version: int

    constructor ()
      ensures lines == map[] && version == 0
    {
      lines, version := map[], 0;
    }

    /** One right event for each IP that came, went or changed its digest, and no others (see
        DiffIsRight). */
    method DetectChanges(newLines: LineMap) returns (events: seq<Event>)
      requires WellKeyed(lines) && WellKeyed(newLines)
      ensures IsDiff(lines, newLines, events)
    {
      events := [];
      var left := lines.Keys;
      while left != {}
        invariant left <= lines.Keys
        invariant forall i :: 0 <= i < |events| ==>
          && events[i].line.ip in lines && events[i].line.ip !in left
          && ChangeOf(lines, newLines, events[i].line.ip) == Changed(events[i].kind, events[i].line)
        invariant forall i, j :: 0 <= i < j < |events| ==> events[i].line.ip != events[j].line.ip
        invariant forall ip ::
          ip in lines && ip !in left && ChangeOf(lines, newLines, ip) != NoChange ==> Mentions(events, ip)
        decreases left
      {
        var ip :| ip in left;
        left := left - {ip};
        ghost var before := events;
        if ip !in newLines {
          events := events + [Event(Delete, lines[ip], 0)];
          MentionsGrow(before, events[|before|]);
        } else if lines[ip].hash != newLines[ip].hash {
          events := events + [Event(Update, newLines[ip], 0)];
          MentionsGrow(before, events[|before|]);
        }
      }
      left := newLines.Keys;
      while left != {}
        invariant left <= newLines.Keys
        invariant forall i :: 0 <= i < |events| ==>
          && (events[i].line.ip in lines || events[i].line.ip !in left)
          && ChangeOf(lines, newLines, events[i].line.ip) == Changed(events[i].kind, events[i].line)
        invariant forall i, j :: 0 <= i < j < |events| ==> events[i].line.ip != events[j].line.ip
        invariant forall ip :: ip !in left && ChangeOf(lines, newLines, ip) != NoChange ==> Mentions(events, ip)
        invariant forall ip :: ip in lines && ChangeOf(lines, newLines, ip) != NoChange ==> Mentions(events, ip)
        decreases left
      {
        var ip :| ip in left;
        left := left - {ip};
        ghost var before := events;
        if ip !in lines {
          events := events + [Event(Create, newLines[ip], 0)];
          MentionsGrow(before, events[|before|]);
        }
      }
    }

    /** One synchronisation with freshly fetched lines: what is sent to the subscribers.
        Creations are filtered out whenever the current configuration is empty, and then
        nothing else can be left. */
    method Sync(newLines: LineMap) returns (events: seq<Event>)
      requires WellKeyed(lines) && WellKeyed(newLines)
      modifies this
      ensures lines == newLines && version == old(version) + 1
      ensures if old(lines) == map[] then events == [] else IsDiff(old(lines), newLines, events)
      ensures forall i :: 0 <= i < |events| ==> events[i].version == version
    {
      events := DetectChanges(newLines);
      if |lines| == 0 {
        OnlyCreations(events);
        events := DropCreations(events);
      }
      lines := newLines;
      version := version + 1;
      ghost var diff := events;
      for k := 0 to |events|
        invariant |events| == |diff|
        invariant forall i :: 0 <= i < |diff| ==>
          events[i].kind == diff[i].kind && events[i].line == diff[i].line && (i < k ==> events[i].version == version)
      {
        events := events[k := events[k].(version := version)];
      }
      if old(lines) != map[] {
        forall ip | Mentions(diff, ip) ensures Mentions(events, ip) {
          var i :| 0 <= i < |diff| && diff[i].line.ip == ip;
          assert events[i].line.ip == ip;
        }
      }
    }
  }

  function NonCreations(events: seq<Event>): seq<Event> {
    if events == [] then []
    else
      var last := events[|events| - 1];
      NonCreations(events[..|events| - 1]) + if last.kind == Create then [] else [last]
  }

  method DropCreations(events: seq<Event>) returns (kept: seq<Event>)
    ensures kept == NonCreations(events)
    ensures forall e :: e in kept <==> e in events && e.kind != Create
  {
    kept := [];
    for k := 0 to |events|
      invariant kept == NonCreations(events[..k])
      invariant forall e :: e in kept <==> e in events[..k] && e.kind != Create
    {
      assert events[..k + 1][..k] == events[..k];
      assert events[..k + 1] == events[..k] + [events[k]];
      if events[k].kind != Create {
        kept := kept + [events[k]];
      }
    }
    assert events[..|events|] == events;
  }

  lemma {:induction false} OnlyCreations(events: seq<Event>)
    requires forall i :: 0 <= i < |events| ==> events[i].kind == Create
    ensures NonCreations(events) == []
  {
    if events != [] { OnlyCreations(events[..|events| - 1]); }
  }

  lemma MentionsGrow(events: seq<Event>, e: Event)
    ensures forall ip :: Mentions(events + [e], ip) <==> Mentions(events, ip) || ip == e.line.ip
  {
    forall ip ensures Mentions(events + [e], ip) <==> Mentions(events, ip) || ip == e.line.ip {
      if Mentions(events, ip) {
        var i :| 0 <= i < |events| && events[i].line.ip == ip;
        assert (events + [e])[i].line.ip == ip;
      }
      assert (events + [e])[|events|] == e;
    }
  }

  // ---------------------------------------------------------------- the manager

  type RouterLines = map<string, seq<Line>>

  function LinesOf(rl: RouterLines, router: string): seq<Line> {
    if router in rl then rl[router] else []
  }

  /** The effect of one event on the lists of lines per router. */
  function Applied(rl: RouterLines, e: Event): RouterLines {
    var r, ls := e.line.router.ip, LinesOf(rl, e.line.router.ip);
    match e.kind
    case Create => rl[r := if HasIp(ls, e.line.ip) then ls else ls + [e.line]]
    case Update => if r in rl then rl[r := Replaced(ls, e.line)] else rl
    case Delete => if r in rl then rl[r := Without(ls, e.line.ip)] else rl
  }

  class Manager {
    var routerLines: RouterLines

    constructor ()
      ensures routerLines == map[]
    {
      routerLines := map[];
    }

    method ProcessLineEvent(e: Event)
      modifies this
      ensures routerLines == Applied(old(routerLines), e)
      ensures routerLines.Keys == old(routerLines).Keys + if e.kind == Create then {e.line.router.ip} else {}
      ensures forall r :: r != e.line.router.ip ==> LinesOf(routerLines, r) == LinesOf(old(routerLines), r)
      ensures var ls, ls' := LinesOf(old(routerLines), e.line.router.ip), LinesOf(routerLines, e.line.router.ip);
        if HasIp(ls, e.line.ip) then
          match e.kind
          case Create => ls' == ls
          case Update => exists k :: FirstWith(ls, k, e.line.ip) && ls' == ls[k := e.line]
          case Delete => exists k :: FirstWith(ls, k, e.line.ip) && ls' == ls[..k] + ls[k + 1..]
        else
          ls' == if e.kind == Create then ls + [e.line] else ls
    {
      var r := e.line.router.ip;
      ghost var at := IndexOf(LinesOf(routerLines, r), e.line.ip);
      assert at < |LinesOf(routerLines, r)| ==> FirstWith(LinesOf(routerLines, r), at, e.line.ip);
      match e.kind {
        case Create =>
          if r !in routerLines {
            routerLines := routerLines[r := []];
          }
          var k := Find(routerLines[r], e.line.ip);
          if k < |routerLines[r]| {
            return;
          }
          routerLines := routerLines[r := routerLines[r] + [e.line]];
        case Update =>
          if r in routerLines {
            var k := Find(routerLines[r], e.line.ip);
            if k < |routerLines[r]| {
              routerLines := routerLines[r := routerLines[r][k := e.line]];
            }
          }
        case Delete =>
          if r in routerLines {
            var ls := routerLines[r];
            var k := Find(ls, e.line.ip);
            if k < |ls| {
              routerLines := routerLines[r := ls[..k] + ls[k + 1..]];
            }
          }
      }
    }

    static method Find(ls: seq<Line>, ip: string) returns (k: nat)
      ensures k == IndexOf(ls, ip)
    {
      k := 0;
      while k < |ls| && ls[k].ip != ip
        invariant k <= |ls|
        invariant forall i :: 0 <= i < k ==> ls[i].ip != ip
      {
        k := k + 1;
      }
    }

    /** The delayed removal of a router that still has no lines. */
    method ExpireRouter(router: string)
      modifies this
      ensures routerLines ==
        if LinesOf(old(routerLines), router) == [] then old(routerLines) - {router} else old(routerLines)
      ensures forall r :: LinesOf(routerLines, r) == LinesOf(old(routerLines), r)
    {
      if router !in routerLines || |routerLines[router]| == 0 {
        routerLines := routerLines - {router};
      }
    }

    /** A full synchronisation. `answers` are the configurations that the syncer returns at
        the first look and at each later check. An empty one is not taken over: when the look
        fails, or all checks find nothing, the lists stay as they were. */
    method FullSync(failed: bool, answers: nat -> LineMap)
      requires forall i :: WellKeyed(answers(i))
      modifies this
      ensures failed || (forall i :: 0 <= i <= 150 ==> answers(i) == map[]) ==> routerLines == old(routerLines)
      ensures !failed ==>
        forall i :: 0 <= i <= 150 && FirstFilled(answers, i) ==> Agrees(routerLines, answers(i))
    {
      if failed {
        return;
      }
      var lines := answers(0);
      var i := 0;
      while lines == map[] && i < MAX_CHECKS
        invariant 0 <= i <= MAX_CHECKS && lines == answers(i)
        invariant forall j :: 0 <= j < i ==> answers(j) == map[]
      {
        i := i + 1;
        lines := answers(i);
      }
      if lines == map[] {
        return;
      }
      routerLines := GroupByRouter(lines);
      assert FirstFilled(answers, i);
    }

    /** The lines grouped by router. */
    static method GroupByRouter(lines: LineMap) returns (grouped: RouterLines)
      requires WellKeyed(lines)
      ensures Agrees(grouped, lines)
    {
      grouped := map[];
      var left := lines.Keys;
      ghost var done: LineMap := map[];
      while left != {}
        invariant left <= lines.Keys
        invariant done == map ip | ip in lines && ip !in left :: lines[ip]
        invariant Agrees(grouped, done)
        decreases left
      {
        var ip :| ip in left;
        var r := lines[ip].router.ip;
        ghost var e := Event(Create, lines[ip], 0);
        AppliedAgrees(grouped, done, e);
        FoundIffSameRouter(grouped, done, lines[ip]);
        ghost var next := Applied(grouped, e);
        if r !in grouped {
          grouped := grouped[r := []];
        }
        grouped := grouped[r := grouped[r] + [lines[ip]]];
        assert grouped == next;
        left, done := left - {ip}, done[ip := lines[ip]];
      }
      assert done == lines;
    }
  }

  const MAX_CHECKS := 150

  /** The first configuration that is not empty. */
  predicate FirstFilled(answers: nat -> LineMap, i: nat) {
    answers(i) != map[] && forall j :: 0 <= j < i ==> answers(j) == map[]
  }

  predicate SameAt(a: LineMap, b: LineMap, ip: string) {
    (ip in a <==> ip in b) && (ip in a && ip in b ==> a[ip] == b[ip])
  }

  /** The list of one router: its lines of the configuration, each once. */
  ghost predicate Holds(ls: seq<Line>, router: string, m: LineMap) {
    && DistinctIps(ls)
    && (forall i :: 0 <= i < |ls| ==> ls[i].router.ip == router && ls[i].ip in m && m[ls[i].ip] == ls[i])
    && (forall ip :: ip in m && m[ip].router.ip == router ==> m[ip] in ls)
  }

  /** The lists hold exactly the lines of the configuration, each once under its router. */
  ghost predicate Agrees(rl: RouterLines, m: LineMap) {
    forall r :: Holds(LinesOf(rl, r), r, m)
  }

  predicate SameRouter(m: LineMap, l: Line) {
    l.ip in m && m[l.ip].router.ip == l.router.ip
  }

  /** The event on the configuration the lists stand for. An update or deletion is looked
      up under the router it names, so it is lost when the line is under another one. */
  function Patched(m: LineMap, e: Event): LineMap {
    match e.kind
    case Create => m[e.line.ip := e.line]
    case Update => if SameRouter(m, e.line) then m[e.line.ip := e.line] else m
    case Delete => if SameRouter(m, e.line) then m - {e.line.ip} else m
  }

  lemma FoundIffSameRouter(rl: RouterLines, m: LineMap, l: Line)
    requires Agrees(rl, m) && WellKeyed(m)
    ensures IndexOf(LinesOf(rl, l.router.ip), l.ip) < |LinesOf(rl, l.router.ip)| <==> SameRouter(m, l)
  {
    assert Holds(LinesOf(rl, l.router.ip), l.router.ip, m);
    if SameRouter(m, l) {
      var ls := LinesOf(rl, l.router.ip);
      var k :| 0 <= k < |ls| && ls[k] == m[l.ip];
    }
  }

  lemma HoldsElsewhere(ls: seq<Line>, r: string, m: LineMap, m': LineMap, ip0: string)
    requires Holds(ls, r, m)
    requires forall ip :: ip != ip0 ==> SameAt(m, m', ip)
    requires (ip0 in m ==> m[ip0].router.ip != r) && (ip0 in m' ==> m'[ip0].router.ip != r)
    ensures Holds(ls, r, m')
  {
    forall i | 0 <= i < |ls| ensures ls[i].ip in m' && m'[ls[i].ip] == ls[i] {
      assert SameAt(m, m', ls[i].ip);
    }
    forall ip | ip in m' && m'[ip].router.ip == r ensures m'[ip] in ls {
      assert SameAt(m, m', ip);
    }
  }

  lemma HoldsAppended(ls: seq<Line>, m: LineMap, l: Line)
    requires Holds(ls, l.router.ip, m) && l.ip !in m
    ensures Holds(ls + [l], l.router.ip, m[l.ip := l]) && !HasIp(ls, l.ip)
  {
    var m' := m[l.ip := l];
    forall ip | ip in m' && m'[ip].router.ip == l.router.ip ensures m'[ip] in ls + [l] {
      if ip != l.ip { assert m[ip] in ls; }
    }
  }

  lemma HoldsReplaced(ls: seq<Line>, m: LineMap, l: Line, k: nat)
    requires Holds(ls, l.router.ip, m) && WellKeyed(m) && k < |ls| && ls[k].ip == l.ip
    ensures Holds(ls[k := l], l.router.ip, m[l.ip := l])
  {
    var ls', m' := ls[k := l], m[l.ip := l];
    forall ip | ip in m' && m'[ip].router.ip == l.router.ip ensures m'[ip] in ls' {
      if ip != l.ip {
        var j :| 0 <= j < |ls| && ls[j] == m[ip];
        assert ls'[j] == m[ip];
      } else {
        assert ls'[k] == l;
      }
    }
  }

  lemma HoldsRemoved(ls: seq<Line>, r: string, m: LineMap, k: nat)
    requires Holds(ls, r, m) && WellKeyed(m) && k < |ls|
    ensures Holds(ls[..k] + ls[k + 1..], r, m - {ls[k].ip})
  {
    var ls', m' := ls[..k] + ls[k + 1..], m - {ls[k].ip};
    forall i | 0 <= i < |ls'|
      ensures ls'[i] == ls[if i < k then i else i + 1] && ls'[i].ip != ls[k].ip
    {
    }
    hide WellKeyed;
    forall ip | ip in m' && m'[ip].router.ip == r ensures m'[ip] in ls' {
      var j :| 0 <= j < |ls| && ls[j] == m[ip];
      assert ls'[if j < k then j else j - 1] == m[ip];
    }
  }

  lemma AppliedHere(rl: RouterLines, m: LineMap, e: Event)
    requires Agrees(rl, m) && WellKeyed(m) && (e.kind == Create ==> e.line.ip !in m)
    ensures var r := e.line.router.ip; Holds(LinesOf(Applied(rl, e), r), r, Patched(m, e))
  {
    var l, r := e.line, e.line.router.ip;
    var ls := LinesOf(rl, r);
    FoundIffSameRouter(rl, m, l);
    assert Holds(ls, r, m);
    hide Holds, Agrees;
    if e.kind == Create {
      HoldsAppended(ls, m, l);
    } else if SameRouter(m, l) {
      var k := IndexOf(ls, l.ip);
      if e.kind == Update { HoldsReplaced(ls, m, l, k); } else { HoldsRemoved(ls, r, m, k); }
    }
  }

  /** One event keeps the lists in step with the configuration they stand for. */
  lemma AppliedAgrees(rl: RouterLines, m: LineMap, e: Event)
    requires Agrees(rl, m) && WellKeyed(m) && (e.kind == Create ==> e.line.ip !in m)
    ensures Agrees(Applied(rl, e), Patched(m, e)) && WellKeyed(Patched(m, e))
  {
    var l, r, rl', m' := e.line, e.line.router.ip, Applied(rl, e), Patched(m, e);
    AppliedHere(rl, m, e);
    forall x ensures Holds(LinesOf(rl', x), x, m') {
      assert Holds(LinesOf(rl, x), x, m);
      hide Holds, Without, Replaced;
      if x != r {
        assert LinesOf(rl', x) == LinesOf(rl, x);
        if e.kind == Create || SameRouter(m, l) { HoldsElsewhere(LinesOf(rl, x), x, m, m', l.ip); }
      }
    }
  }

  /** The lists determine the configuration. */
  lemma AgreesIsFunctional(rl: RouterLines, m1: LineMap, m2: LineMap)
    requires Agrees(rl, m1) && Agrees(rl, m2) && WellKeyed(m1) && WellKeyed(m2)
    ensures m1 == m2
  {
    forall ip | ip in m1 ensures ip in m2 && m2[ip] == m1[ip] {
      var ls := LinesOf(rl, m1[ip].router.ip);
      assert Holds(ls, m1[ip].router.ip, m1) && Holds(ls, m1[ip].router.ip, m2);
      var k :| 0 <= k < |ls| && ls[k] == m1[ip];
    }
    forall ip | ip in m2 ensures ip in m1 {
      var ls := LinesOf(rl, m2[ip].router.ip);
      assert Holds(ls, m2[ip].router.ip, m1) && Holds(ls, m2[ip].router.ip, m2);
      var k :| 0 <= k < |ls| && ls[k] == m2[ip];
    }
  }

  // ---------------------------------------------------------------- diff, then patch

  function AppliedAll(rl: RouterLines, events: seq<Event>): RouterLines {
    if events == [] then rl else Applied(AppliedAll(rl, events[..|events| - 1]), events[|events| - 1])
  }

  function PatchedAll(m: LineMap, events: seq<Event>): LineMap {
    if events == [] then m else Patched(PatchedAll(m, events[..|events| - 1]), events[|events| - 1])
  }

  /** What the manager ends up with: a line keeps its old value when its digest did not
      change or when the update moved it to another router. */
  function Carried(old_: LineMap, new_: LineMap): LineMap {
    map ip | ip in new_ ::
      if ip in old_ && (old_[ip].hash == new_[ip].hash || old_[ip].router.ip != new_[ip].router.ip)
      then old_[ip] else new_[ip]
  }

  lemma {:induction false} PatchedPrefix(old_: LineMap, new_: LineMap, events: seq<Event>, k: nat)
    requires WellKeyed(old_) && WellKeyed(new_) && IsDiff(old_, new_, events) && k <= |events|
    ensures forall ip ::
      SameAt(PatchedAll(old_, events[..k]), if Mentions(events[..k], ip) then Carried(old_, new_) else old_, ip)
    ensures WellKeyed(PatchedAll(old_, events[..k]))
  {
    if k > 0 {
      PatchedPrefix(old_, new_, events, k - 1);
      assert events[..k][..k - 1] == events[..k - 1];
      assert events[..k] == events[..k - 1] + [events[k - 1]];
      MentionsGrow(events[..k - 1], events[k - 1]);
      assert !Mentions(events[..k - 1], events[k - 1].line.ip);
      assert SameAt(PatchedAll(old_, events[..k - 1]), old_, events[k - 1].line.ip);
    }
  }

  lemma PatchedIsCarried(old_: LineMap, new_: LineMap, events: seq<Event>)
    requires WellKeyed(old_) && WellKeyed(new_) && IsDiff(old_, new_, events)
    ensures PatchedAll(old_, events) == Carried(old_, new_)
  {
    PatchedPrefix(old_, new_, events, |events|);
    assert events[..|events|] == events;
    var p, c := PatchedAll(old_, events), Carried(old_, new_);
    forall ip ensures SameAt(p, c, ip) {
      assert SameAt(p, if Mentions(events, ip) then c else old_, ip);
      if !Mentions(events, ip) { assert ChangeOf(old_, new_, ip) == NoChange; }
    }
    assert p.Keys <= c.Keys && c.Keys <= p.Keys by {
      forall ip | ip in p.Keys + c.Keys ensures ip in p && ip in c { assert SameAt(p, c, ip); }
    }
    forall ip | ip in p ensures p[ip] == c[ip] { assert SameAt(p, c, ip); }
  }

  lemma {:induction false} AppliedPrefixAgrees(
    old_: LineMap, new_: LineMap, events: seq<Event>, rl: RouterLines, k: nat)
    requires WellKeyed(old_) && WellKeyed(new_) && IsDiff(old_, new_, events) && k <= |events| && Agrees(rl, old_)
    ensures Agrees(AppliedAll(rl, events[..k]), PatchedAll(old_, events[..k]))
  {
    hide Agrees, Applied, Patched;
    if k > 0 {
      AppliedPrefixAgrees(old_, new_, events, rl, k - 1);
      PatchedPrefix(old_, new_, events, k - 1);
      assert events[..k][..k - 1] == events[..k - 1];
      assert !Mentions(events[..k - 1], events[k - 1].line.ip);
      assert SameAt(PatchedAll(old_, events[..k - 1]), old_, events[k - 1].line.ip);
      AppliedAgrees(AppliedAll(rl, events[..k - 1]), PatchedAll(old_, events[..k - 1]), events[k - 1]);
    }
  }

  /** Each line that is in both configurations is either the same, or its digest differs
      and it stays with its router. */
  predicate Transferable(old_: LineMap, new_: LineMap) {
    forall ip :: ip in old_ && ip in new_ ==>
      old_[ip] == new_[ip] || (old_[ip].hash != new_[ip].hash && old_[ip].router.ip == new_[ip].router.ip)
  }

  /** Applying the events of a diff, in any order, takes lists that agree with the old
      configuration to lists that agree with the new one, if and only if equal digests mean
      equal lines and no updated line changes its router. */
  lemma DiffThenPatch(old_: LineMap, new_: LineMap, events: seq<Event>, rl: RouterLines)
    requires WellKeyed(old_) && WellKeyed(new_) && IsDiff(old_, new_, events) && Agrees(rl, old_)
    ensures Agrees(AppliedAll(rl, events), Carried(old_, new_))
    ensures Agrees(AppliedAll(rl, events), new_) <==> Transferable(old_, new_)
  {
    hide Agrees, AppliedAll, PatchedAll;
    AppliedPrefixAgrees(old_, new_, events, rl, |events|);
    assert events[..|events|] == events;
    PatchedIsCarried(old_, new_, events);
    var c := Carried(old_, new_);
    if Agrees(AppliedAll(rl, events), new_) {
      AgreesIsFunctional(AppliedAll(rl, events), c, new_);
      forall ip | ip in old_ && ip in new_ && old_[ip] != new_[ip]
        ensures old_[ip].hash != new_[ip].hash && old_[ip].router.ip == new_[ip].router.ip
      {
        assert c[ip] == new_[ip];
      }
    }
    if Transferable(old_, new_) {
      assert c == new_;
    }
  }

  /** A reordered diff is a diff, so the order of delivery does not matter. */
  lemma DiffInAnyOrder(old_: LineMap, new_: LineMap, events: seq<Event>, shuffled: seq<Event>)
    requires IsDiff(old_, new_, events) && multiset(shuffled) == multiset(events)
    ensures IsDiff(old_, new_, shuffled)
  {
    forall i | 0 <= i < |shuffled| ensures shuffled[i] in events {
      assert shuffled[i] in multiset(events);
    }
    forall i, j | 0 <= i < j < |shuffled| ensures shuffled[i].line.ip != shuffled[j].line.ip {
      if shuffled[i].line.ip == shuffled[j].line.ip {
        var a :| 0 <= a < |events| && events[a] == shuffled[i];
        var b :| 0 <= b < |events| && events[b] == shuffled[j];
        assert a == b;
        AtLeastTwo(shuffled, i, j);
        AtMostOnce(events, a);
        assert false;
      }
    }
    forall ip | Mentions(events, ip) ensures Mentions(shuffled, ip) {
      var a :| 0 <= a < |events| && events[a].line.ip == ip;
      assert events[a] in multiset(shuffled);
      var b :| 0 <= b < |shuffled| && shuffled[b] == events[a];
    }
  }

  lemma AtLeastTwo(s: seq<Event>, i: nat, j: nat)
    requires i < j < |s| && s[i] == s[j]
    ensures multiset(s)[s[i]] >= 2
  {
    assert s == s[..j] + [s[j]] + s[j + 1..];
    assert s[i] in s[..j];
  }

  lemma AtMostOnce(s: seq<Event>, a: nat)
    requires a < |s| && forall i, j :: 0 <= i < j < |s| ==> s[i].line.ip != s[j].line.ip
    ensures multiset(s)[s[a]] == 1
  {
    assert s == s[..a] + [s[a]] + s[a + 1..];
    assert s[a] !in s[..a] && s[a] !in s[a + 1..];
  }

  /** The events that one synchronisation sends: a diff, and none from an empty configuration,
      where they could only be creations. */
  ghost predicate IsSent(old_: LineMap, new_: LineMap, sent: seq<Event>) {
    if old_ == map[] then sent == [] else IsDiff(old_, new_, sent)
  }

  /** What one synchronisation sends brings a manager in step with the new configuration if
      and only if, besides, the old configuration was not empty or nothing was added: the
      filter meant for the first synchronisation also drops the creations that follow an
      empty configuration later on. */
  lemma SyncCarriesManager(old_: LineMap, new_: LineMap, sent: seq<Event>, rl: RouterLines)
    requires WellKeyed(old_) && WellKeyed(new_) && Agrees(rl, old_)
    requires IsSent(old_, new_, sent)
    ensures Agrees(AppliedAll(rl, sent), new_) <==> (old_ != map[] || new_ == map[]) && Transferable(old_, new_)
  {
    if old_ == map[] {
      assert AppliedAll(rl, sent) == rl;
      if Agrees(rl, new_) { AgreesIsFunctional(rl, old_, new_); }
    } else {
      DiffThenPatch(old_, new_, sent, rl);
    }
  }

  /** A line created after the configuration ran empty never reaches the manager. */
  lemma LateCreationIsLost(l: Line, rl: RouterLines)
    requires Agrees(rl, map[])
    ensures !Agrees(AppliedAll(rl, []), map[l.ip := l])
  {
    SyncCarriesManager(map[], map[l.ip := l], [], rl);
    assert l.ip in map[l.ip := l];
  }

  /** A line moved to another router stays where it was. */
  lemma MovedLineIsLost(l: Line, moved: Line, rl: RouterLines)
    requires moved.ip == l.ip && moved.hash != l.hash && moved.router.ip != l.router.ip
    requires Agrees(rl, map[l.ip := l])
    ensures IsDiff(map[l.ip := l], map[l.ip := moved], [Event(Update, moved, 0)])
    ensures Agrees(AppliedAll(rl, [Event(Update, moved, 0)]), map[l.ip := l])
    ensures !Agrees(AppliedAll(rl, [Event(Update, moved, 0)]), map[l.ip := moved])
  {
    var m, m' := map[l.ip := l], map[l.ip := moved];
    var events := [Event(Update, moved, 0)];
    assert IsDiff(m, m', events) by {
      assert events[0].line.ip == l.ip;
      assert Mentions(events, l.ip);
    }
    DiffThenPatch(m, m', events, rl);
    assert Carried(m, m') == m;
    assert l.ip in m && l.ip in m';
  }
}

/** Two synchronisations in a row (syncer/syncer.go, manager/manager.go). Each sends its
    events on its own, so the events of the two can reach the manager interleaved or the
    later ones first, and the manager does not look at versions. */
module DiffMerges {
  import opened Lines
  import opened Options
  import opened LineChanges

  // ---------------------------------------------------------------- the lists, cell by cell

  function LineIn(ls: seq<Line>, ip: string): Option<Line> {
    var k := IndexOf(ls, ip);
    if k < |ls| then Some(ls[k]) else None
  }

  /** The line with this IP in the list of this router. */
  function Cell(rl: RouterLines, router: string, ip: string): Option<Line> {
    LineIn(LinesOf(rl, router), ip)
  }

  /** What a configuration wants there. */
  function Wanted(m: LineMap, router: string, ip: string): Option<Line> {
    if ip in m && m[ip].router.ip == router then Some(m[ip]) else None
  }

  /** Every list has the lines of its router, each IP once. */
  ghost predicate Tidy(rl: RouterLines) {
    forall r :: TidyList(LinesOf(rl, r), r)
  }

  predicate TidyList(ls: seq<Line>, router: string) {
    DistinctIps(ls) && forall i :: 0 <= i < |ls| ==> ls[i].router.ip == router
  }

  function Hit(v: Option<Line>, kind: Kind, line: Line): Option<Line> {
    match kind
    case Create => if v == None then Some(line) else v
    case Update => if v == None then v else Some(line)
    case Delete => None
  }

  lemma FoundAt(ls: seq<Line>, i: nat)
    requires DistinctIps(ls) && i < |ls|
    ensures IndexOf(ls, ls[i].ip) == i
  {
  }

  lemma HoldsIsCells(ls: seq<Line>, r: string, rl: RouterLines, m: LineMap)
    requires WellKeyed(m) && ls == LinesOf(rl, r)
    ensures Holds(ls, r, m) <==> TidyList(ls, r) && forall ip :: Cell(rl, r, ip) == Wanted(m, r, ip)
  {
    if Holds(ls, r, m) {
      forall ip ensures Cell(rl, r, ip) == Wanted(m, r, ip) {
        if Wanted(m, r, ip) != None {
          var i :| 0 <= i < |ls| && ls[i] == m[ip];
          FoundAt(ls, i);
        }
      }
    }
    if TidyList(ls, r) && forall ip :: Cell(rl, r, ip) == Wanted(m, r, ip) {
      forall i | 0 <= i < |ls| ensures ls[i].ip in m && m[ls[i].ip] == ls[i] {
        FoundAt(ls, i);
        assert Cell(rl, r, ls[i].ip) == Wanted(m, r, ls[i].ip);
      }
      forall ip | ip in m && m[ip].router.ip == r ensures m[ip] in ls {
        assert Cell(rl, r, ip) == Wanted(m, r, ip);
      }
    }
  }

  ghost predicate CellsAgree(rl: RouterLines, m: LineMap) {
    forall r, ip :: Cell(rl, r, ip) == Wanted(m, r, ip)
  }

  lemma AgreesIsCells(rl: RouterLines, m: LineMap)
    requires WellKeyed(m)
    ensures Agrees(rl, m) <==> Tidy(rl) && CellsAgree(rl, m)
  {
    forall r ensures Holds(LinesOf(rl, r), r, m) <==>
      TidyList(LinesOf(rl, r), r) && forall ip :: Cell(rl, r, ip) == Wanted(m, r, ip)
    {
      HoldsIsCells(LinesOf(rl, r), r, rl, m);
    }
    hide Holds, Cell, Wanted, TidyList;
    if Agrees(rl, m) {
      forall r ensures TidyList(LinesOf(rl, r), r) && forall ip :: Cell(rl, r, ip) == Wanted(m, r, ip) {
        assert Holds(LinesOf(rl, r), r, m);
      }
    }
    if Tidy(rl) && CellsAgree(rl, m) {
      forall r ensures Holds(LinesOf(rl, r), r, m) { assert TidyList(LinesOf(rl, r), r); }
    }
  }

  lemma FoundOnce(ls: seq<Line>, i: nat, ip: string)
    requires i < |ls| && ls[i].ip == ip && forall j :: 0 <= j < i ==> ls[j].ip != ip
    ensures LineIn(ls, ip) == Some(ls[i])
  {
    assert IndexOf(ls, ip) == i;
  }

  lemma NotFound(ls: seq<Line>, ip: string)
    ensures LineIn(ls, ip) == None <==> forall j :: 0 <= j < |ls| ==> ls[j].ip != ip
  {
  }

  lemma AfterAppend(ls: seq<Line>, r: string, l: Line, ip: string)
    requires TidyList(ls, r) && l.router.ip == r && LineIn(ls, l.ip) == None
    ensures TidyList(ls + [l], r)
    ensures LineIn(ls + [l], ip) == if l.ip == ip then Some(l) else LineIn(ls, ip)
  {
    var ls' := ls + [l];
    NotFound(ls, l.ip);
    if l.ip == ip {
      FoundOnce(ls', |ls|, ip);
    } else if LineIn(ls, ip) == None {
      NotFound(ls, ip);
      NotFound(ls', ip);
    } else {
      FoundOnce(ls', IndexOf(ls, ip), ip);
    }
  }

  lemma AfterReplace(ls: seq<Line>, r: string, l: Line, ip: string)
    requires TidyList(ls, r) && l.router.ip == r && LineIn(ls, l.ip) != None
    ensures TidyList(Replaced(ls, l), r)
    ensures LineIn(Replaced(ls, l), ip) == if l.ip == ip then Some(l) else LineIn(ls, ip)
  {
    var k, ls' := IndexOf(ls, l.ip), Replaced(ls, l);
    if l.ip == ip {
      FoundOnce(ls', k, ip);
    } else if LineIn(ls, ip) == None {
      NotFound(ls, ip);
      NotFound(ls', ip);
    } else {
      FoundOnce(ls', IndexOf(ls, ip), ip);
    }
  }

  lemma AfterRemove(ls: seq<Line>, r: string, ip0: string, ip: string)
    requires TidyList(ls, r) && LineIn(ls, ip0) != None
    ensures TidyList(Without(ls, ip0), r)
    ensures LineIn(Without(ls, ip0), ip) == if ip0 == ip then None else LineIn(ls, ip)
  {
    var k, ls' := IndexOf(ls, ip0), Without(ls, ip0);
    assert forall i :: 0 <= i < |ls'| ==> ls'[i] == ls[if i < k then i else i + 1];
    if ip0 == ip {
      NotFound(ls', ip);
    } else if LineIn(ls, ip) == None {
      NotFound(ls, ip);
      NotFound(ls', ip);
    } else {
      var i := IndexOf(ls, ip);
      FoundOnce(ls', if i < k then i else i - 1, ip);
    }
  }

  /** An event changes one cell and nothing else. */
  lemma AppliedCell(rl: RouterLines, e: Event, r: string, ip: string)
    requires Tidy(rl)
    ensures TidyList(LinesOf(Applied(rl, e), r), r)
    ensures Cell(Applied(rl, e), r, ip) ==
      if e.line.router.ip == r && e.line.ip == ip then Hit(Cell(rl, r, ip), e.kind, e.line) else Cell(rl, r, ip)
  {
    var ls, l := LinesOf(rl, r), e.line;
    assert TidyList(ls, r);
    if l.router.ip == r {
      KnownIsIn(ls, l.ip);
      match e.kind
      case Create => if LineIn(ls, l.ip) == None { AfterAppend(ls, r, l, ip); }
      case Update => if LineIn(ls, l.ip) != None { AfterReplace(ls, r, l, ip); }
      case Delete => if LineIn(ls, l.ip) != None { AfterRemove(ls, r, l.ip, ip); }
    }
    hide TidyList, Tidy;
  }

  lemma KnownIsIn(ls: seq<Line>, ip: string)
    ensures LineIn(ls, ip) != None <==> HasIp(ls, ip)
  {
    NotFound(ls, ip);
  }

  /** What a series of events does to one cell. */
  function CellAfter(v: Option<Line>, es: seq<Event>, r: string, ip: string): Option<Line> {
    if es == [] then v
    else
      var u, e := CellAfter(v, es[..|es| - 1], r, ip), es[|es| - 1];
      if e.line.router.ip == r && e.line.ip == ip then Hit(u, e.kind, e.line) else u
  }

  lemma {:induction false} AppliedAllCells(rl: RouterLines, es: seq<Event>)
    requires Tidy(rl)
    ensures Tidy(AppliedAll(rl, es))
    ensures forall r, ip :: Cell(AppliedAll(rl, es), r, ip) == CellAfter(Cell(rl, r, ip), es, r, ip)
  {
    hide Applied, TidyList, Cell, Hit;
    if es != [] {
      var n := |es| - 1;
      AppliedAllCells(rl, es[..n]);
      assert AppliedAll(rl, es) == Applied(AppliedAll(rl, es[..n]), es[n]);
      forall r ensures TidyList(LinesOf(AppliedAll(rl, es), r), r) {
        AppliedCell(AppliedAll(rl, es[..n]), es[n], r, es[n].line.ip);
      }
      forall r, ip ensures Cell(AppliedAll(rl, es), r, ip) == CellAfter(Cell(rl, r, ip), es, r, ip) {
        AppliedCell(AppliedAll(rl, es[..n]), es[n], r, ip);
      }
    }
  }

  // ---------------------------------------------------------------- the events of one IP

  function AtIp(es: seq<Event>, ip: string): seq<Event> {
    if es == [] then []
    else AtIp(es[..|es| - 1], ip) + if es[|es| - 1].line.ip == ip then [es[|es| - 1]] else []
  }

  lemma {:induction false} OnlyAtIpMatters(v: Option<Line>, es: seq<Event>, r: string, ip: string)
    ensures CellAfter(v, es, r, ip) == CellAfter(v, AtIp(es, ip), r, ip)
  {
    if es != [] {
      var n := |es| - 1;
      OnlyAtIpMatters(v, es[..n], r, ip);
      var front := AtIp(es[..n], ip);
      if es[n].line.ip == ip {
        assert AtIp(es, ip) == front + [es[n]] && (front + [es[n]])[..|front|] == front;
        assert CellAfter(v, front + [es[n]], r, ip) == if es[n].line.router.ip == r
          then Hit(CellAfter(v, front, r, ip), es[n].kind, es[n].line) else CellAfter(v, front, r, ip);
      } else {
        assert AtIp(es, ip) == front;
      }
    }
  }

  lemma {:induction false} AtIpSplits(xs: seq<Event>, ys: seq<Event>, ip: string)
    ensures AtIp(xs + ys, ip) == AtIp(xs, ip) + AtIp(ys, ip)
  {
    if ys == [] {
      assert xs + ys == xs;
    } else {
      var n := |ys| - 1;
      assert (xs + ys)[..|xs + ys| - 1] == xs + ys[..n];
      AtIpSplits(xs, ys[..n], ip);
    }
  }

  /** m goes through x and y, each in its order. */
  predicate Interleaves(m: seq<Event>, x: seq<Event>, y: seq<Event>) {
    if m == [] then x == [] && y == []
    else
      || (x != [] && m[0] == x[0] && Interleaves(m[1..], x[1..], y))
      || (y != [] && m[0] == y[0] && Interleaves(m[1..], x, y[1..]))
  }

  lemma {:induction false} OneSide(y: seq<Event>)
    ensures Interleaves(y, [], y)
  {
    if y != [] { OneSide(y[1..]); }
  }

  lemma {:induction false} FirstThenSecond(x: seq<Event>, y: seq<Event>)
    ensures Interleaves(x + y, x, y)
  {
    if x == [] {
      OneSide(y);
      assert x + y == y;
    } else {
      FirstThenSecond(x[1..], y);
      assert (x + y)[1..] == x[1..] + y;
    }
  }

  lemma {:induction false} SecondThenFirst(x: seq<Event>, y: seq<Event>)
    ensures Interleaves(y + x, x, y)
  {
    if y == [] {
      OtherSide(x);
      assert y + x == x;
    } else {
      SecondThenFirst(x, y[1..]);
      assert (y + x)[1..] == y[1..] + x;
    }
  }

  lemma {:induction false} OtherSide(x: seq<Event>)
    ensures Interleaves(x, x, [])
  {
    if x != [] { OtherSide(x[1..]); }
  }

  /** Of one IP too, the events of both series come in their order. */
  lemma {:induction false} InterleavesAtIp(m: seq<Event>, x: seq<Event>, y: seq<Event>, ip: string)
    requires Interleaves(m, x, y)
    ensures Interleaves(AtIp(m, ip), AtIp(x, ip), AtIp(y, ip))
  {
    if m != [] {
      AtIpHead(m, ip);
      var rest := AtIp(m[1..], ip);
      assert m[0].line.ip == ip ==> AtIp(m, ip)[1..] == rest;
      assert m[0].line.ip != ip ==> AtIp(m, ip) == rest;
      if x != [] && m[0] == x[0] && Interleaves(m[1..], x[1..], y) {
        AtIpHead(x, ip);
        assert m[0].line.ip == ip ==> AtIp(x, ip)[1..] == AtIp(x[1..], ip);
        assert m[0].line.ip != ip ==> AtIp(x, ip) == AtIp(x[1..], ip);
        InterleavesAtIp(m[1..], x[1..], y, ip);
      } else {
        AtIpHead(y, ip);
        assert m[0].line.ip == ip ==> AtIp(y, ip)[1..] == AtIp(y[1..], ip);
        assert m[0].line.ip != ip ==> AtIp(y, ip) == AtIp(y[1..], ip);
        InterleavesAtIp(m[1..], x, y[1..], ip);
      }
    }
  }

  lemma AtIpHead(es: seq<Event>, ip: string)
    requires es != []
    ensures AtIp(es, ip) == (if es[0].line.ip == ip then [es[0]] else []) + AtIp(es[1..], ip)
  {
    assert es == [es[0]] + es[1..];
    AtIpSplits([es[0]], es[1..], ip);
    assert [es[0]][..0] == [];
  }

  // ---------------------------------------------------------------- one synchronisation at one IP

  lemma {:induction false} MembersAtIp(es: seq<Event>, ip: string, e: Event)
    ensures e in AtIp(es, ip) <==> e in es && e.line.ip == ip
  {
    if es != [] {
      MembersAtIp(es[..|es| - 1], ip, e);
      assert es == es[..|es| - 1] + [es[|es| - 1]];
    }
  }

  lemma {:induction false} AtMostOneAtIp(es: seq<Event>, ip: string)
    requires forall i, j :: 0 <= i < j < |es| ==> es[i].line.ip != es[j].line.ip
    ensures |AtIp(es, ip)| <= 1
  {
    if es != [] {
      var n := |es| - 1;
      AtMostOneAtIp(es[..n], ip);
      if es[n].line.ip == ip && AtIp(es[..n], ip) != [] {
        var e := AtIp(es[..n], ip)[0];
        MembersAtIp(es[..n], ip, e);
        assert false;
      }
    }
  }

  /** The change at an IP that a synchronisation reports. */
  function SentChange(a: LineMap, b: LineMap, ip: string): Change {
    if a == map[] then NoChange else ChangeOf(a, b, ip)
  }

  /** A synchronisation sends exactly the event of that change. */
  lemma SentAtIp(a: LineMap, b: LineMap, es: seq<Event>, ip: string)
    requires IsSent(a, b, es)
    ensures match SentChange(a, b, ip)
      case NoChange => AtIp(es, ip) == []
      case Changed(kind, line) =>
        var x := AtIp(es, ip); |x| == 1 && x[0].kind == kind && x[0].line == line && line.ip == ip
  {
    AtMostOneAtIp(es, ip);
    var x := AtIp(es, ip);
    if |x| == 1 {
      MembersAtIp(es, ip, x[0]);
    } else if SentChange(a, b, ip) != NoChange {
      var i :| 0 <= i < |es| && es[i].line.ip == ip;
      MembersAtIp(es, ip, es[i]);
    }
  }

  // ---------------------------------------------------------------- two synchronisations at one IP

  /** When both orders of the two changes at an IP lead to the last configuration: nothing
      is sent and nothing changed; or one change that finds its line; or an update and then a
      deletion without a move, a deletion and then a creation elsewhere, or an update away
      and one back. */
  predicate MergeSafe(a: LineMap, b: LineMap, c: LineMap, ip: string) {
    match SentChange(a, b, ip)
    case NoChange => (
      match SentChange(b, c, ip)
      case NoChange => SameAt(a, c, ip)
      case Changed(Create, _) => true
      case Changed(Update, _) => ip in a && a[ip].router.ip == c[ip].router.ip
      case Changed(Delete, _) => ip in a ==> a[ip].router.ip == b[ip].router.ip)
    case Changed(Create, _) => SentChange(b, c, ip) == NoChange && SameAt(b, c, ip)
    case Changed(Update, _) => (
      match SentChange(b, c, ip)
      case NoChange => SameAt(b, c, ip) && a[ip].router.ip == b[ip].router.ip
      case Changed(Delete, _) => a[ip].router.ip == b[ip].router.ip
      case Changed(_, _) => a[ip].router.ip == c[ip].router.ip != b[ip].router.ip)
    case Changed(Delete, _) => (
      match SentChange(b, c, ip)
      case NoChange => ip !in c
      case Changed(_, _) => a[ip].router.ip != c[ip].router.ip)
  }

  /** In both orders the cells of the IP end as the last configuration wants them. */
  ghost predicate BothOrders(a: LineMap, c: LineMap, ip: string, x: seq<Event>, y: seq<Event>) {
    forall r :: CellAfter(Wanted(a, r, ip), x + y, r, ip) == Wanted(c, r, ip)
         == CellAfter(Wanted(a, r, ip), y + x, r, ip)
  }

  function HitAt(v: Option<Line>, e: Event, r: string): Option<Line> {
    if e.line.router.ip == r then Hit(v, e.kind, e.line) else v
  }

  lemma ShortSeries(v: Option<Line>, es: seq<Event>, r: string, ip: string)
    requires |es| <= 2 && forall i :: 0 <= i < |es| ==> es[i].line.ip == ip
    ensures CellAfter(v, es, r, ip) ==
      if es == [] then v else if |es| == 1 then HitAt(v, es[0], r) else HitAt(HitAt(v, es[0], r), es[1], r)
  {
    if |es| == 2 { assert es[..1] == [es[0]] && [es[0]][..0] == []; }
    if |es| == 1 { assert es[..0] == []; }
  }

  /** What one or two events in the order x, y leave in a cell. */
  function AfterBoth(v: Option<Line>, x: seq<Event>, y: seq<Event>, r: string): Option<Line>
    requires |x| <= 1 && |y| <= 1
  {
    var u := if x == [] then v else HitAt(v, x[0], r);
    if y == [] then u else HitAt(u, y[0], r)
  }

  predicate RightAt(a: LineMap, c: LineMap, ip: string, x: seq<Event>, y: seq<Event>, r: string)
    requires |x| <= 1 && |y| <= 1
  {
    AfterBoth(Wanted(a, r, ip), x, y, r) == Wanted(c, r, ip) == AfterBoth(Wanted(a, r, ip), y, x, r)
  }

  ghost predicate RightEverywhere(a: LineMap, c: LineMap, ip: string, x: seq<Event>, y: seq<Event>)
    requires |x| <= 1 && |y| <= 1
  {
    forall r :: RightAt(a, c, ip, x, y, r)
  }

  lemma OneOrder(v: Option<Line>, x: seq<Event>, y: seq<Event>, r: string, ip: string)
    requires |x| <= 1 && |y| <= 1
    requires (x != [] ==> x[0].line.ip == ip) && (y != [] ==> y[0].line.ip == ip)
    ensures CellAfter(v, x + y, r, ip) == AfterBoth(v, x, y, r)
  {
    ShortSeries(v, x + y, r, ip);
    hide CellAfter, HitAt;
  }

  lemma AtOneRouter(a: LineMap, c: LineMap, ip: string, x: seq<Event>, y: seq<Event>, r: string)
    requires |x| <= 1 && |y| <= 1
    requires (x != [] ==> x[0].line.ip == ip) && (y != [] ==> y[0].line.ip == ip)
    ensures RightAt(a, c, ip, x, y, r) <==>
      CellAfter(Wanted(a, r, ip), x + y, r, ip) == Wanted(c, r, ip) == CellAfter(Wanted(a, r, ip), y + x, r, ip)
  {
    hide CellAfter, AfterBoth, Wanted;
    OneOrder(Wanted(a, r, ip), x, y, r, ip);
    OneOrder(Wanted(a, r, ip), y, x, r, ip);
  }

  lemma BothOrdersUnfolded(a: LineMap, c: LineMap, ip: string, x: seq<Event>, y: seq<Event>)
    requires |x| <= 1 && |y| <= 1
    requires (x != [] ==> x[0].line.ip == ip) && (y != [] ==> y[0].line.ip == ip)
    ensures BothOrders(a, c, ip, x, y) <==> RightEverywhere(a, c, ip, x, y)
  {
    hide CellAfter, Wanted, RightAt;
    forall r
      ensures RightAt(a, c, ip, x, y, r) <==>
        CellAfter(Wanted(a, r, ip), x + y, r, ip) == Wanted(c, r, ip) == CellAfter(Wanted(a, r, ip), y + x, r, ip)
    {
      AtOneRouter(a, c, ip, x, y, r);
    }
  }

  /** The events that the change stands for. */
  predicate StandsFor(x: seq<Event>, change: Change, ip: string) {
    match change
    case NoChange => x == []
    case Changed(kind, line) => |x| == 1 && x[0].kind == kind && x[0].line == line && line.ip == ip
  }

  function RouterAt(m: LineMap, ip: string): string {
    if ip in m then m[ip].router.ip else ""
  }

  lemma SafeSuffices(a: LineMap, b: LineMap, c: LineMap, ip: string, x: seq<Event>, y: seq<Event>, r: string)
    requires StandsFor(x, SentChange(a, b, ip), ip) && StandsFor(y, SentChange(b, c, ip), ip)
    requires MergeSafe(a, b, c, ip)
    ensures RightAt(a, c, ip, x, y, r)
  {
  }

  lemma SafeIsNeeded(a: LineMap, b: LineMap, c: LineMap, ip: string, x: seq<Event>, y: seq<Event>)
    requires StandsFor(x, SentChange(a, b, ip), ip) && StandsFor(y, SentChange(b, c, ip), ip)
    requires RightAt(a, c, ip, x, y, RouterAt(a, ip)) && RightAt(a, c, ip, x, y, RouterAt(b, ip))
    requires RightAt(a, c, ip, x, y, RouterAt(c, ip))
    ensures MergeSafe(a, b, c, ip)
  {
  }

  lemma SafeIff(a: LineMap, b: LineMap, c: LineMap, ip: string, x: seq<Event>, y: seq<Event>)
    requires StandsFor(x, SentChange(a, b, ip), ip) && StandsFor(y, SentChange(b, c, ip), ip)
    ensures BothOrders(a, c, ip, x, y) <==> MergeSafe(a, b, c, ip)
  {
    BothOrdersUnfolded(a, c, ip, x, y);
    hide BothOrders, MergeSafe, RightAt;
    if MergeSafe(a, b, c, ip) {
      forall r ensures RightAt(a, c, ip, x, y, r) { SafeSuffices(a, b, c, ip, x, y, r); }
    }
    if RightEverywhere(a, c, ip, x, y) {
      SafeIsNeeded(a, b, c, ip, x, y);
    }
  }

  // ---------------------------------------------------------------- every interleaving

  /** Of at most one event each, an interleaving is one order or the other. */
  lemma InterleavesOfTwo(m: seq<Event>, x: seq<Event>, y: seq<Event>)
    requires Interleaves(m, x, y) && |x| <= 1 && |y| <= 1
    ensures m == x + y || m == y + x
  {
    if m != [] {
      var rest := m[1..];
      if x != [] && m[0] == x[0] && Interleaves(rest, x[1..], y) {
        OnlySecondLeft(rest, y);
        assert x[1..] == [] && m == [x[0]] + y;
      } else {
        OnlyFirstLeft(rest, x);
        assert y[1..] == [] && m == [y[0]] + x;
      }
    }
  }

  lemma {:induction false} OnlySecondLeft(m: seq<Event>, y: seq<Event>)
    requires Interleaves(m, [], y)
    ensures m == y
  {
    if m != [] { OnlySecondLeft(m[1..], y[1..]); }
  }

  lemma {:induction false} OnlyFirstLeft(m: seq<Event>, x: seq<Event>)
    requires Interleaves(m, x, [])
    ensures m == x
  {
    if m != [] { OnlyFirstLeft(m[1..], x[1..]); }
  }

  ghost predicate EveryMergeAgrees(rl: RouterLines, c: LineMap, x: seq<Event>, y: seq<Event>) {
    forall m :: Interleaves(m, x, y) ==> Agrees(AppliedAll(rl, m), c)
  }

  lemma AgreesAfterAll(rl: RouterLines, a: LineMap, m: seq<Event>, c: LineMap)
    requires WellKeyed(a) && WellKeyed(c) && Agrees(rl, a)
    ensures Agrees(AppliedAll(rl, m), c) <==>
      forall r, ip :: CellAfter(Wanted(a, r, ip), AtIp(m, ip), r, ip) == Wanted(c, r, ip)
  {
    AgreesIsCells(rl, a);
    AppliedAllCells(rl, m);
    AgreesIsCells(AppliedAll(rl, m), c);
    forall r, ip
      ensures Cell(AppliedAll(rl, m), r, ip) == CellAfter(Wanted(a, r, ip), AtIp(m, ip), r, ip)
    {
      OnlyAtIpMatters(Wanted(a, r, ip), m, r, ip);
      assert Cell(rl, r, ip) == Wanted(a, r, ip);
    }
    hide Agrees, Tidy, Cell, CellAfter, Wanted, AtIp;
    if CellsAgree(AppliedAll(rl, m), c) {
      forall r, ip ensures CellAfter(Wanted(a, r, ip), AtIp(m, ip), r, ip) == Wanted(c, r, ip) {
        assert Cell(AppliedAll(rl, m), r, ip) == Wanted(c, r, ip);
      }
    }
    if forall r, ip :: CellAfter(Wanted(a, r, ip), AtIp(m, ip), r, ip) == Wanted(c, r, ip) {
      forall r, ip ensures Cell(AppliedAll(rl, m), r, ip) == Wanted(c, r, ip) {
        assert CellAfter(Wanted(a, r, ip), AtIp(m, ip), r, ip) == Wanted(c, r, ip);
      }
    }
  }

  lemma ChangesStand(
    a: LineMap, b: LineMap, c: LineMap, x: seq<Event>, y: seq<Event>, ip: string)
    requires IsSent(a, b, x) && IsSent(b, c, y)
    ensures |AtIp(x, ip)| <= 1 && |AtIp(y, ip)| <= 1
    ensures BothOrders(a, c, ip, AtIp(x, ip), AtIp(y, ip)) <==> MergeSafe(a, b, c, ip)
  {
    SentAtIp(a, b, x, ip);
    SentAtIp(b, c, y, ip);
    hide BothOrders, MergeSafe, IsSent, SentChange, AtIp;
    SafeIff(a, b, c, ip, AtIp(x, ip), AtIp(y, ip));
  }

  lemma SafeMergeAgrees(
    rl: RouterLines, a: LineMap, b: LineMap, c: LineMap, x: seq<Event>, y: seq<Event>, m: seq<Event>)
    requires WellKeyed(a) && WellKeyed(c) && Agrees(rl, a)
    requires IsSent(a, b, x) && IsSent(b, c, y) && Interleaves(m, x, y)
    requires forall ip :: MergeSafe(a, b, c, ip)
    ensures Agrees(AppliedAll(rl, m), c)
  {
    hide MergeSafe, Agrees, IsSent, CellAfter, Wanted, AtIp, Interleaves, WellKeyed, AppliedAll;
    forall r, ip ensures CellAfter(Wanted(a, r, ip), AtIp(m, ip), r, ip) == Wanted(c, r, ip) {
      ChangesStand(a, b, c, x, y, ip);
      InterleavesAtIp(m, x, y, ip);
      InterleavesOfTwo(AtIp(m, ip), AtIp(x, ip), AtIp(y, ip));
      assert MergeSafe(a, b, c, ip);
    }
    AgreesAfterAll(rl, a, m, c);
  }

  lemma AgreeingMergesAreSafe(
    rl: RouterLines, a: LineMap, b: LineMap, c: LineMap, x: seq<Event>, y: seq<Event>, ip: string)
    requires WellKeyed(a) && WellKeyed(c) && Agrees(rl, a)
    requires IsSent(a, b, x) && IsSent(b, c, y)
    requires Agrees(AppliedAll(rl, x + y), c) && Agrees(AppliedAll(rl, y + x), c)
    ensures MergeSafe(a, b, c, ip)
  {
    hide MergeSafe, Agrees, IsSent, CellAfter, Wanted, AtIp, WellKeyed, AppliedAll;
    AgreesAfterAll(rl, a, x + y, c);
    AgreesAfterAll(rl, a, y + x, c);
    AtIpSplits(x, y, ip);
    AtIpSplits(y, x, ip);
    forall r
      ensures CellAfter(Wanted(a, r, ip), AtIp(x, ip) + AtIp(y, ip), r, ip) == Wanted(c, r, ip)
      ensures CellAfter(Wanted(a, r, ip), AtIp(y, ip) + AtIp(x, ip), r, ip) == Wanted(c, r, ip)
    {
      assert CellAfter(Wanted(a, r, ip), AtIp(x + y, ip), r, ip) == Wanted(c, r, ip);
      assert CellAfter(Wanted(a, r, ip), AtIp(y + x, ip), r, ip) == Wanted(c, r, ip);
    }
    ChangesStand(a, b, c, x, y, ip);
  }

  /** What two synchronisations in a row send takes the lists from the first configuration to
      the last, however the events interleave on their way, if and only if both orders are safe
      at every IP. */
  lemma EveryMergeAgreesIff(
    rl: RouterLines, a: LineMap, b: LineMap, c: LineMap, x: seq<Event>, y: seq<Event>)
    requires WellKeyed(a) && WellKeyed(b) && WellKeyed(c) && Agrees(rl, a)
    requires IsSent(a, b, x) && IsSent(b, c, y)
    ensures EveryMergeAgrees(rl, c, x, y) <==> forall ip :: MergeSafe(a, b, c, ip)
  {
    hide MergeSafe, Agrees, IsSent, Interleaves, WellKeyed, AppliedAll;
    if forall ip :: MergeSafe(a, b, c, ip) {
      forall m | Interleaves(m, x, y) ensures Agrees(AppliedAll(rl, m), c) {
        SafeMergeAgrees(rl, a, b, c, x, y, m);
      }
    }
    if EveryMergeAgrees(rl, c, x, y) {
      FirstThenSecond(x, y);
      SecondThenFirst(x, y);
      forall ip ensures MergeSafe(a, b, c, ip) { AgreeingMergesAreSafe(rl, a, b, c, x, y, ip); }
    }
  }
}

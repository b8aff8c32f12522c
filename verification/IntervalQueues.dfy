/** The interval queues of one router scheduler (manager/interval_queue.go,
    manager/router_scheduler.go). Tickers and notification channels are left out. */
module IntervalQueues {
  import opened Lines

  type Queues = map<int, seq<Line>>

  /** The known lines and the queue of each interval. */
  datatype Schedule = Schedule(lines: seq<Line>, queues: Queues)

  function QueueOf(qs: Queues, d: int): seq<Line> {
    if d in qs then qs[d] else []
  }

  function Enqueued(qs: Queues, l: Line): Queues {
    qs[l.interval := QueueOf(qs, l.interval) + [l]]
  }

  function EnqueuedAll(qs: Queues, ls: seq<Line>): Queues {
    if ls == [] then qs else Enqueued(EnqueuedAll(qs, ls[..|ls| - 1]), ls[|ls| - 1])
  }

  function AfterCreate(s: Schedule, l: Line): Schedule {
    if HasIp(s.lines, l.ip) then s else Schedule(s.lines + [l], Enqueued(s.queues, l))
  }

  function AfterUpdate(s: Schedule, o: Line, n: Line): Schedule {
    var k := IndexOf(s.lines, o.ip);
    Schedule(
      if k < |s.lines| then s.lines[k := n] else s.lines,
      if o.interval != n.interval then Enqueued(Taken(s.queues, o), n)
      else if o.interval in s.queues then s.queues[o.interval := Replaced(s.queues[o.interval], n)]
      else s.queues)
  }

  function Taken(qs: Queues, o: Line): Queues {
    if o.interval in qs then qs[o.interval := Without(qs[o.interval], o.ip)] else qs
  }

  /** The list of known lines is not shrunk. */
  function AfterDelete(s: Schedule, l: Line): Schedule {
    s.(queues := Taken(s.queues, l))
  }

  function AfterReset(ls: seq<Line>): Schedule {
    Schedule(ls, EnqueuedAll(map[], ls))
  }

  function AfterExpiry(s: Schedule, d: int): Schedule {
    if d in s.queues && s.queues[d] == [] then s.(queues := s.queues - {d}) else s
  }

  /** An update, list by list. */
  lemma UpdateInFull(s: Schedule, o: Line, n: Line)
    ensures var ls, ls' := s.lines, AfterUpdate(s, o, n).lines;
      if HasIp(ls, o.ip) then exists k :: FirstWith(ls, k, o.ip) && ls' == ls[k := n] else ls' == ls
    ensures forall d :: var q, q' := QueueOf(s.queues, d), QueueOf(AfterUpdate(s, o, n).queues, d);
      q' ==
        if o.interval == n.interval then if d == n.interval then Replaced(q, n) else q
        else if d == n.interval then q + [n]
        else if d == o.interval then Without(q, o.ip) else q
  {
    var k := IndexOf(s.lines, o.ip);
    assert k < |s.lines| ==> FirstWith(s.lines, k, o.ip);
    assert Without([], o.ip) == [] == Replaced([], n);
    hide Without, Replaced;
  }

  class IntervalTaskQueue {
    const interval: int
    var lines: seq<Line>

    constructor (interval: int)
      ensures lines == []
      ensures this.interval == if interval <= 0 then 1 else interval
    {
      this.interval := if interval <= 0 then 1 else interval;
      lines := [];
    }

    method Add(line: Line)
      modifies this
      ensures lines == old(lines) + [line]
    {
      lines := lines + [line];
    }

    method Remove(lineIp: string)
      modifies this
      ensures lines == Without(old(lines), lineIp)
      ensures if HasIp(old(lines), lineIp)
        then exists k :: FirstWith(old(lines), k, lineIp) && lines == old(lines)[..k] + old(lines)[k + 1..]
        else lines == old(lines)
    {
      for i := 0 to |lines|
        invariant lines == old(lines) && forall j :: 0 <= j < i ==> lines[j].ip != lineIp
      {
        if lines[i].ip == lineIp {
          assert FirstWith(lines, i, lineIp);
          lines := lines[..i] + lines[i + 1..];
          return;
        }
      }
    }

    method Contains(lineIp: string) returns (found: bool)
      ensures found <==> HasIp(lines, lineIp)
    {
      for i := 0 to |lines|
        invariant forall j :: 0 <= j < i ==> lines[j].ip != lineIp
      {
        if lines[i].ip == lineIp {
          return true;
        }
      }
      return false;
    }

    method UpdateTask(line: Line)
      modifies this
      ensures lines == Replaced(old(lines), line)
      ensures if HasIp(old(lines), line.ip)
        then exists k :: FirstWith(old(lines), k, line.ip) && lines == old(lines)[k := line]
        else lines == old(lines)
    {
      for i := 0 to |lines|
        invariant lines == old(lines) && forall j :: 0 <= j < i ==> lines[j].ip != line.ip
      {
        if lines[i].ip == line.ip {
          assert FirstWith(lines, i, line.ip);
          lines := lines[i := line];
          return;
        }
      }
    }

    method ReplaceAll(newLines: seq<Line>)
      modifies this
      ensures lines == newLines
    {
      lines := newLines;
    }
  }

  class RouterScheduler {
    var lines: seq<Line>
    var queues: map<int, IntervalTaskQueue>
    ghost var model: Schedule

    /** The fields hold what the model says, and different intervals have different queues. */
    ghost predicate Valid()
      reads this, queues.Values
    {
      && model.lines == lines
      && model.queues.Keys == queues.Keys
      && (forall d :: d in queues ==> queues[d].lines == model.queues[d])
      && (forall d, e :: d in queues && e in queues && d != e ==> queues[d] != queues[e])
    }

    constructor (initialLines: seq<Line>)
      ensures Valid() && model == Schedule(initialLines, map[]) && queues == map[]
    {
      lines, queues := initialLines, map[];
      model := Schedule(initialLines, map[]);
    }

    /** Queues a line, creating the queue of its interval when there is none. */
    method Enqueue(line: Line)
      requires Valid()
      modifies this`queues, this`model, queues.Values
      ensures Valid() && fresh(queues.Values - old(queues.Values))
      ensures model == old(model).(queues := Enqueued(old(model).queues, line))
    {
      if line.interval !in queues {
        var q := new IntervalTaskQueue(line.interval);
        queues := queues[line.interval := q];
      }
      queues[line.interval].Add(line);
      model := model.(queues := Enqueued(model.queues, line));
    }

    method OnLineCreated(line: Line)
      requires Valid()
      modifies this, queues.Values
      ensures Valid() && fresh(queues.Values - old(queues.Values))
      ensures model == AfterCreate(old(model), line)
      ensures lines == if HasIp(old(lines), line.ip) then old(lines) else old(lines) + [line]
      ensures forall d :: var q := QueueOf(old(model).queues, d);
        QueueOf(model.queues, d) == if d == line.interval && !HasIp(old(lines), line.ip) then q + [line] else q
    {
      for i := 0 to |lines|
        invariant forall j :: 0 <= j < i ==> lines[j].ip != line.ip
      {
        if lines[i].ip == line.ip {
          return;
        }
      }
      Enqueue(line);
      lines := lines + [line];
      model := model.(lines := lines);
    }

    method OnLineUpdated(oldLine: Line, newLine: Line)
      requires Valid()
      modifies this, queues.Values
      ensures Valid() && fresh(queues.Values - old(queues.Values))
      ensures model == AfterUpdate(old(model), oldLine, newLine)
      ensures if HasIp(old(lines), oldLine.ip)
        then exists k :: FirstWith(old(lines), k, oldLine.ip) && lines == old(lines)[k := newLine]
        else lines == old(lines)
      ensures forall d :: var q := QueueOf(old(model).queues, d);
        QueueOf(model.queues, d) ==
          if oldLine.interval == newLine.interval then if d == newLine.interval then Replaced(q, newLine) else q
          else if d == newLine.interval then q + [newLine]
          else if d == oldLine.interval then Without(q, oldLine.ip) else q
    {
      UpdateInFull(model, oldLine, newLine);
      if oldLine.interval != newLine.interval {
        if oldLine.interval in queues {
          queues[oldLine.interval].Remove(oldLine.ip);
          model := model.(queues := Taken(model.queues, oldLine));
        }
        Enqueue(newLine);
      } else if oldLine.interval in queues {
        queues[oldLine.interval].UpdateTask(newLine);
        model := model.(queues := model.queues[oldLine.interval := Replaced(model.queues[oldLine.interval], newLine)]);
      }
      UpdateKnown(oldLine, newLine);
    }

    method UpdateKnown(oldLine: Line, newLine: Line)
      requires Valid()
      modifies this`lines, this`model
      ensures Valid() && model.queues == old(model).queues
      ensures var k := IndexOf(old(lines), oldLine.ip);
        model.lines == if k < |old(lines)| then old(lines)[k := newLine] else old(lines)
    {
      for i := 0 to |lines|
        invariant lines == old(lines) && model == old(model)
        invariant forall j :: 0 <= j < i ==> lines[j].ip != oldLine.ip
      {
        if lines[i].ip == oldLine.ip {
          lines := lines[i := newLine];
          model := model.(lines := lines);
          return;
        }
      }
    }

    method OnLineDeleted(line: Line)
      requires Valid()
      modifies this`model, queues.Values
      ensures Valid()
      ensures model == AfterDelete(old(model), line) && lines == old(lines)
      ensures forall d :: var q := QueueOf(old(model).queues, d);
        QueueOf(model.queues, d) == if d == line.interval then Without(q, line.ip) else q
    {
      if line.interval in queues {
        var queue := queues[line.interval];
        var found := queue.Contains(line.ip);
        if !found {
          assert Without(queue.lines, line.ip) == queue.lines;
          model := AfterDelete(model, line);
          return;
        }
        queue.Remove(line.ip);
      }
      model := AfterDelete(model, line);
    }

    /** The delayed destruction of a queue that is still empty. */
    method ExpireQueue(interval: int)
      requires Valid()
      modifies this`queues, this`model
      ensures Valid() && queues.Values <= old(queues.Values)
      ensures model == AfterExpiry(old(model), interval) && lines == old(lines)
      ensures forall d :: QueueOf(model.queues, d) == QueueOf(old(model).queues, d)
      ensures forall d :: d in queues <==>
        d in old(queues) && !(d == interval && |old(queues[interval].lines)| == 0)
    {
      if interval in queues && |queues[interval].lines| == 0 {
        queues := queues - {interval};
        model := AfterExpiry(model, interval);
      }
    }

    method OnLineReset(newLines: seq<Line>)
      modifies this
      ensures Valid() && fresh(queues.Values)
      ensures model == AfterReset(newLines) && lines == newLines
    {
      queues := map[];
      lines := [];
      model := Schedule([], map[]);
      for i := 0 to |newLines|
        invariant Valid() && fresh(queues.Values)
        invariant model == AfterReset(newLines[..i])
      {
        assert newLines[..i + 1][..i] == newLines[..i];
        assert newLines[..i + 1] == newLines[..i] + [newLines[i]];
        Enqueue(newLines[i]);
        lines := lines + [newLines[i]];
        model := model.(lines := lines);
      }
      assert newLines[..|newLines|] == newLines;
    }

    /** Distributes the initial lines. */
    method Distribute()
      requires Valid() && queues == map[]
      modifies this`queues, this`model
      ensures Valid() && fresh(queues.Values) && model == AfterReset(lines)
    {
      assert model.queues == map[];
      for i := 0 to |lines|
        invariant Valid() && fresh(queues.Values)
        invariant model == Schedule(lines, EnqueuedAll(map[], lines[..i]))
      {
        assert lines[..i + 1][..i] == lines[..i];
        Enqueue(lines[i]);
      }
      assert lines[..|lines|] == lines;
    }

    /** Adds up the queue sizes. */
    method CountQueued() returns (total: nat)
      requires Valid() && model == AfterReset(lines)
      ensures total == |lines|
    {
      total := 0;
      var left := queues.Keys;
      assert queues.Keys - left == {};
      CountEvery(lines);
      while left != {}
        invariant left <= queues.Keys
        invariant total == CountIn(lines, queues.Keys - left)
        decreases left
      {
        HasMember(left);
        var d :| d in left;
        DistributionIsByInterval(lines, d);
        CountOneMore(lines, queues.Keys - left, d);
        assert queues.Keys - (left - {d}) == queues.Keys - left + {d};
        total := total + |queues[d].lines|;
        left := left - {d};
      }
      assert queues.Keys - left == queues.Keys;
    }

    /** Distributes the initial lines and compares the sum of the queue sizes with their
        number: the mismatch that the source would report never happens. */
    method InitializeQueues() returns (balanced: bool)
      requires Valid() && queues == map[]
      modifies this`queues, this`model
      ensures Valid() && fresh(queues.Values)
      ensures model == AfterReset(lines) && balanced
    {
      Distribute();
      var total := CountQueued();
      balanced := total == |lines|;
    }
  }

  // ---------------------------------------------------------------- sizes

  function ByInterval(ls: seq<Line>, d: int): seq<Line> {
    if ls == [] then []
    else ByInterval(ls[..|ls| - 1], d) + if ls[|ls| - 1].interval == d then [ls[|ls| - 1]] else []
  }

  /** Each queue holds exactly the lines of its interval, in their order. */
  lemma {:induction false} DistributionIsByInterval(ls: seq<Line>, d: int)
    ensures QueueOf(EnqueuedAll(map[], ls), d) == ByInterval(ls, d)
    ensures d in EnqueuedAll(map[], ls) <==> ByInterval(ls, d) != []
  {
    if ls != [] { DistributionIsByInterval(ls[..|ls| - 1], d); }
  }

  lemma HasMember(keys: set<int>)
    requires keys != {}
    ensures exists d :: d in keys
  {
    assert (forall d :: d !in keys) ==> keys == {};
  }

  /** Number of lines whose interval is one of `keys`. */
  function CountIn(ls: seq<Line>, keys: set<int>): nat {
    if ls == [] then 0 else CountIn(ls[..|ls| - 1], keys) + if ls[|ls| - 1].interval in keys then 1 else 0
  }

  lemma {:induction false} CountOneMore(ls: seq<Line>, keys: set<int>, d: int)
    requires d !in keys
    ensures CountIn(ls, keys + {d}) == CountIn(ls, keys) + |ByInterval(ls, d)|
  {
    if ls != [] { CountOneMore(ls[..|ls| - 1], keys, d); }
  }

  lemma {:induction false} CountAll(ls: seq<Line>, keys: set<int>)
    requires forall i :: 0 <= i < |ls| ==> ls[i].interval in keys
    ensures CountIn(ls, keys) == |ls|
  {
    if ls != [] { CountAll(ls[..|ls| - 1], keys); }
  }

  lemma {:induction false} IntervalsAreKeys(ls: seq<Line>, i: nat)
    requires i < |ls|
    ensures ls[i].interval in EnqueuedAll(map[], ls)
  {
    if i < |ls| - 1 {
      IntervalsAreKeys(ls[..|ls| - 1], i);
      assert ls[..|ls| - 1][i] == ls[i];
    }
  }

  /** The queues together hold every line once. */
  lemma CountEvery(ls: seq<Line>)
    ensures CountIn(ls, EnqueuedAll(map[], ls).Keys) == |ls|
    ensures CountIn(ls, {}) == 0
  {
    forall i | 0 <= i < |ls| ensures ls[i].interval in EnqueuedAll(map[], ls).Keys { IntervalsAreKeys(ls, i); }
    CountAll(ls, EnqueuedAll(map[], ls).Keys);
    CountNone(ls);
  }

  lemma {:induction false} CountNone(ls: seq<Line>)
    ensures CountIn(ls, {}) == 0
  {
    if ls != [] { CountNone(ls[..|ls| - 1]); }
  }

  // ---------------------------------------------------------------- the partition

  /** Every queued line is in the queue of its own interval, no IP is queued twice, and
      every queued IP is known. */
  ghost predicate Partition(s: Schedule) {
    && (forall d, i :: d in s.queues && 0 <= i < |s.queues[d]| ==>
          s.queues[d][i].interval == d && HasIp(s.lines, s.queues[d][i].ip))
    && (forall d :: d in s.queues ==> DistinctIps(s.queues[d]))
    && (forall d, e, ip ::
          d in s.queues && e in s.queues && HasIp(s.queues[d], ip) && HasIp(s.queues[e], ip) ==> d == e)
  }

  lemma HasIpAppended(ls: seq<Line>, l: Line, ip: string)
    ensures HasIp(ls + [l], ip) <==> HasIp(ls, ip) || ip == l.ip
  {
    if HasIp(ls, ip) {
      var i :| 0 <= i < |ls| && ls[i].ip == ip;
      assert (ls + [l])[i].ip == ip;
    }
    assert (ls + [l])[|ls|] == l;
  }

  lemma WithoutAt(ls: seq<Line>, x: string, i: nat)
    requires IndexOf(ls, x) < |ls| && i < |ls| - 1
    ensures |Without(ls, x)| == |ls| - 1
    ensures Without(ls, x)[i] == ls[if i < IndexOf(ls, x) then i else i + 1]
  {
  }

  lemma WithoutDistinct(ls: seq<Line>, x: string)
    requires DistinctIps(ls)
    ensures DistinctIps(Without(ls, x))
    ensures forall i :: 0 <= i < |Without(ls, x)| ==> Without(ls, x)[i] in ls && Without(ls, x)[i].ip != x
  {
    if IndexOf(ls, x) < |ls| {
      forall i | 0 <= i < |ls| - 1
        ensures Without(ls, x)[i] == ls[if i < IndexOf(ls, x) then i else i + 1]
      {
        WithoutAt(ls, x, i);
      }
    }
  }

  lemma HasIpWithout(ls: seq<Line>, x: string, ip: string)
    requires DistinctIps(ls)
    ensures HasIp(Without(ls, x), ip) <==> HasIp(ls, ip) && ip != x
  {
    var k, r := IndexOf(ls, x), Without(ls, x);
    WithoutDistinct(ls, x);
    if HasIp(r, ip) {
      var i :| 0 <= i < |r| && r[i].ip == ip;
      assert r[i] in ls;
    }
    if k < |ls| && HasIp(ls, ip) && ip != x {
      var i :| 0 <= i < |ls| && ls[i].ip == ip;
      WithoutAt(ls, x, if i < k then i else i - 1);
      assert r[if i < k then i else i - 1].ip == ip;
    }
  }

  lemma HasIpReplaced(ls: seq<Line>, k: nat, l: Line, ip: string)
    requires k < |ls| && ls[k].ip == l.ip
    ensures HasIp(ls[k := l], ip) <==> HasIp(ls, ip)
  {
    if HasIp(ls, ip) {
      var i :| 0 <= i < |ls| && ls[i].ip == ip;
      assert ls[k := l][i].ip == ip;
    }
    if HasIp(ls[k := l], ip) {
      var i :| 0 <= i < |ls| && ls[k := l][i].ip == ip;
      assert ls[i].ip == ip;
    }
  }

  /** Queuing a line whose IP is known and queued nowhere. */
  lemma EnqueueKeeps(s: Schedule, l: Line)
    requires Partition(s) && HasIp(s.lines, l.ip)
    requires forall d :: d in s.queues ==> !HasIp(s.queues[d], l.ip)
    ensures Partition(s.(queues := Enqueued(s.queues, l)))
  {
    var q, qs' := QueueOf(s.queues, l.interval), Enqueued(s.queues, l);
    forall d, ip | d in qs'
      ensures HasIp(qs'[d], ip) <==> HasIp(QueueOf(s.queues, d), ip) || (d == l.interval && ip == l.ip)
    {
      if d == l.interval { HasIpAppended(q, l, ip); }
    }
    if l.interval in s.queues {
      forall i | 0 <= i < |q| ensures q[i].ip != l.ip { assert !HasIp(q, l.ip); }
    }
  }

  lemma MoreLinesKeep(s: Schedule, lines: seq<Line>)
    requires Partition(s) && forall ip :: HasIp(s.lines, ip) ==> HasIp(lines, ip)
    ensures Partition(s.(lines := lines))
  {
  }

  lemma TakeKeeps(s: Schedule, o: Line)
    requires Partition(s)
    ensures Partition(s.(queues := Taken(s.queues, o)))
    ensures forall d :: d in s.queues && d != o.interval ==> Taken(s.queues, o)[d] == s.queues[d]
    ensures o.interval in s.queues ==> !HasIp(Taken(s.queues, o)[o.interval], o.ip)
  {
    if o.interval in s.queues {
      forall ip
        ensures HasIp(Without(s.queues[o.interval], o.ip), ip) <==> HasIp(s.queues[o.interval], ip) && ip != o.ip
      {
        HasIpWithout(s.queues[o.interval], o.ip, ip);
      }
      WithoutDistinct(s.queues[o.interval], o.ip);
    }
  }

  lemma QueuedIsKnown(s: Schedule, d: int, ip: string)
    requires Partition(s) && d in s.queues
    ensures HasIp(s.queues[d], ip) ==> HasIp(s.lines, ip)
  {
  }

  lemma LastIsNew(q: seq<Line>, l: Line)
    requires DistinctIps(q + [l])
    ensures !HasIp(q, l.ip)
  {
    forall i | 0 <= i < |q| ensures q[i].ip != l.ip {
      assert (q + [l])[i] == q[i] && (q + [l])[|q|] == l;
    }
  }

  lemma CreateKeeps(s: Schedule, l: Line)
    requires Partition(s)
    ensures Partition(AfterCreate(s, l))
  {
    if !HasIp(s.lines, l.ip) {
      forall ip ensures HasIp(s.lines + [l], ip) <==> HasIp(s.lines, ip) || ip == l.ip {
        HasIpAppended(s.lines, l, ip);
      }
      MoreLinesKeep(s, s.lines + [l]);
      forall d | d in s.queues ensures !HasIp(s.queues[d], l.ip) {
        QueuedIsKnown(s, d, l.ip);
      }
      EnqueueKeeps(s.(lines := s.lines + [l]), l);
    }
  }

  /** The updated line is known, and queued nowhere but in the queue the old value names. */
  ghost predicate UpdateFits(s: Schedule, o: Line) {
    HasIp(s.lines, o.ip) && forall d :: d in s.queues && d != o.interval ==> !HasIp(s.queues[d], o.ip)
  }

  lemma KnownAfterUpdate(s: Schedule, o: Line, n: Line)
    requires n.ip == o.ip
    ensures forall ip :: HasIp(AfterUpdate(s, o, n).lines, ip) <==> HasIp(s.lines, ip)
  {
    var k := IndexOf(s.lines, o.ip);
    if k < |s.lines| {
      forall ip ensures HasIp(s.lines[k := n], ip) <==> HasIp(s.lines, ip) { HasIpReplaced(s.lines, k, n, ip); }
    }
  }

  lemma InPlaceUpdateKeeps(s: Schedule, o: Line, n: Line)
    requires Partition(s) && n.ip == o.ip && n.interval == o.interval
    ensures Partition(AfterUpdate(s, o, n))
  {
    KnownAfterUpdate(s, o, n);
    MoreLinesKeep(s, AfterUpdate(s, o, n).lines);
    if o.interval in s.queues {
      var q := s.queues[o.interval];
      var k := IndexOf(q, n.ip);
      if k < |q| {
        forall ip ensures HasIp(q[k := n], ip) <==> HasIp(q, ip) { HasIpReplaced(q, k, n, ip); }
      }
    }
  }

  /** An update that changes the interval keeps the partition if and only if the line is
      known and not queued under a third interval. */
  lemma MovingUpdateKeepsIff(s: Schedule, o: Line, n: Line)
    requires Partition(s) && n.ip == o.ip && n.interval != o.interval
    ensures Partition(AfterUpdate(s, o, n)) <==> UpdateFits(s, o)
  {
    KnownAfterUpdate(s, o, n);
    TakeKeeps(s, o);
    var s1 := Schedule(AfterUpdate(s, o, n).lines, Taken(s.queues, o));
    var s' := AfterUpdate(s, o, n);
    MoreLinesKeep(s.(queues := Taken(s.queues, o)), s1.lines);
    if UpdateFits(s, o) {
      EnqueueKeeps(s1, n);
    }
    if Partition(s') {
      MovedOnlyFrom(s, o, n);
    }
  }

  lemma MovedOnlyFrom(s: Schedule, o: Line, n: Line)
    requires n.ip == o.ip && n.interval != o.interval && Partition(AfterUpdate(s, o, n))
    ensures UpdateFits(s, o)
  {
    var qs, q := Enqueued(Taken(s.queues, o), n), QueueOf(Taken(s.queues, o), n.interval);
    KnownAfterUpdate(s, o, n);
    assert qs[n.interval][|q|] == n;
    assert HasIp(qs[n.interval], n.ip);
    forall d | d in s.queues && d != o.interval ensures !HasIp(s.queues[d], o.ip) {
      if d == n.interval {
        assert q == s.queues[d];
        assert qs[d] == q + [n];
        LastIsNew(q, n);
      } else {
        assert qs[d] == s.queues[d];
      }
    }
  }

  /** Queuing the first k of some distinct lines: a partition that holds only these. */
  lemma {:induction false} PrefixQueued(ls: seq<Line>, k: nat)
    requires k <= |ls| && DistinctIps(ls)
    ensures Partition(Schedule(ls[..k], EnqueuedAll(map[], ls[..k])))
  {
    if k > 0 {
      PrefixQueued(ls, k - 1);
      var l, known, qs := ls[k - 1], ls[..k - 1], EnqueuedAll(map[], ls[..k - 1]);
      assert ls[..k][..k - 1] == known && ls[..k] == known + [l];
      var s := Schedule(known, qs);
      forall ip ensures HasIp(known + [l], ip) <==> HasIp(known, ip) || ip == l.ip { HasIpAppended(known, l, ip); }
      MoreLinesKeep(s, known + [l]);
      assert !HasIp(known, l.ip);
      forall d | d in qs ensures !HasIp(qs[d], l.ip) { QueuedIsKnown(s, d, l.ip); }
      EnqueueKeeps(Schedule(known + [l], qs), l);
    }
  }

  lemma ResetKeeps(ls: seq<Line>)
    requires DistinctIps(ls)
    ensures Partition(AfterReset(ls))
  {
    PrefixQueued(ls, |ls|);
    assert ls[..|ls|] == ls;
  }

  // ---------------------------------------------------------------- any sequence of calls

  datatype Call =
    | OnCreate(l: Line)
    | OnUpdate(o: Line, n: Line)
    | OnDelete(l: Line)
    | OnReset(ls: seq<Line>)
    | Expire(d: int)

  function After(s: Schedule, c: Call): Schedule {
    match c
    case OnCreate(l) => AfterCreate(s, l)
    case OnUpdate(o, n) => AfterUpdate(s, o, n)
    case OnDelete(l) => AfterDelete(s, l)
    case OnReset(ls) => AfterReset(ls)
    case Expire(d) => AfterExpiry(s, d)
  }

  /** What the callers keep to: updates keep the IP and pass the value under which the line
      is queued, if it is; resets list each IP once. */
  ghost predicate Proper(s: Schedule, c: Call) {
    match c
    case OnUpdate(o, n) => n.ip == o.ip && (n.interval != o.interval ==> UpdateFits(s, o))
    case OnReset(ls) => DistinctIps(ls)
    case _ => true
  }

  lemma CallKeeps(s: Schedule, c: Call)
    requires Partition(s) && Proper(s, c)
    ensures Partition(After(s, c))
  {
    match c
    case OnCreate(l) => CreateKeeps(s, l);
    case OnUpdate(o, n) =>
      if o.interval == n.interval { InPlaceUpdateKeeps(s, o, n); } else { MovingUpdateKeepsIff(s, o, n); }
    case OnDelete(l) => TakeKeeps(s, l);
    case OnReset(ls) => ResetKeeps(ls);
    case Expire(d) =>
  }

  ghost predicate Run(start: seq<Line>, states: seq<Schedule>, calls: seq<Call>) {
    && |states| == |calls| + 1 && DistinctIps(start) && states[0] == AfterReset(start)
    && forall i :: 0 <= i < |calls| ==> Proper(states[i], calls[i]) && states[i + 1] == After(states[i], calls[i])
  }

  /** Whatever sequence of calls the scheduler receives, its queues stay a partition. */
  lemma {:induction false} AlwaysPartition(start: seq<Line>, states: seq<Schedule>, calls: seq<Call>, i: nat)
    requires Run(start, states, calls) && i < |states|
    ensures Partition(states[i])
  {
    hide Partition, Proper, After;
    if i == 0 {
      ResetKeeps(start);
    } else {
      AlwaysPartition(start, states, calls, i - 1);
      CallKeeps(states[i - 1], calls[i - 1]);
    }
  }

  /** A deleted IP stays known, so creating it again is ignored and it is queued nowhere. */
  lemma DeletedIpIsNotRequeued(s: Schedule, l: Line, again: Line, d: int)
    requires Partition(s) && l.interval in s.queues && HasIp(s.queues[l.interval], l.ip) && again.ip == l.ip
    ensures AfterCreate(AfterDelete(s, l), again) == AfterDelete(s, l)
    ensures !HasIp(QueueOf(AfterDelete(s, l).queues, d), l.ip)
  {
    TakeKeeps(s, l);
    var i :| 0 <= i < |s.queues[l.interval]| && s.queues[l.interval][i].ip == l.ip;
  }

  // ---------------------------------------------------------------- what is queued

  predicate IsQueued(s: Schedule, l: Line) {
    l in QueueOf(s.queues, l.interval)
  }

  lemma QueuedAfterCreate(s: Schedule, l: Line, x: Line)
    ensures IsQueued(AfterCreate(s, l), x) <==> IsQueued(s, x) || (x == l && !HasIp(s.lines, l.ip))
  {
  }

  /** An expiry takes nothing out: only a queue without lines goes. */
  lemma QueuedAfterExpiry(s: Schedule, d: int, x: Line)
    ensures IsQueued(AfterExpiry(s, d), x) <==> IsQueued(s, x)
    ensures AfterExpiry(s, d).lines == s.lines
    ensures d in AfterExpiry(s, d).queues <==> d in s.queues && s.queues[d] != []
  {
  }

  lemma InWithout(ls: seq<Line>, ip: string, x: Line)
    requires DistinctIps(ls)
    ensures x in Without(ls, ip) <==> x in ls && x.ip != ip
  {
    WithoutDistinct(ls, ip);
    if x in ls && x.ip != ip {
      var k := IndexOf(ls, ip);
      var i :| 0 <= i < |ls| && ls[i] == x;
      if k < |ls| {
        WithoutAt(ls, ip, if i < k then i else i - 1);
        assert Without(ls, ip)[if i < k then i else i - 1] == x;
      }
    }
  }

  lemma InReplaced(ls: seq<Line>, n: Line, x: Line)
    requires DistinctIps(ls)
    ensures x in Replaced(ls, n) <==> (x == n && HasIp(ls, n.ip)) || (x in ls && x.ip != n.ip)
  {
    var k := IndexOf(ls, n.ip);
    if k < |ls| {
      assert Replaced(ls, n)[k] == n;
      if x in ls && x.ip != n.ip {
        var i :| 0 <= i < |ls| && ls[i] == x;
        assert Replaced(ls, n)[i] == x;
      }
    }
  }

  /** A deletion takes out the queued line with its IP and interval and nothing else. */
  lemma QueuedAfterDelete(s: Schedule, l: Line, x: Line)
    requires Partition(s)
    ensures IsQueued(AfterDelete(s, l), x) <==> IsQueued(s, x) && !(x.ip == l.ip && x.interval == l.interval)
  {
    if l.interval in s.queues { InWithout(s.queues[l.interval], l.ip, x); }
  }

  lemma NotQueuedElsewhere(s: Schedule, o: Line, x: Line)
    requires Partition(s) && UpdateFits(s, o) && IsQueued(s, x) && x.ip == o.ip
    ensures x.interval == o.interval
  {
    var i :| 0 <= i < |s.queues[x.interval]| && s.queues[x.interval][i] == x;
    assert HasIp(s.queues[x.interval], x.ip);
  }

  /** An update puts the new value in place of the old one, under its own interval: no queue
      keeps the old value, and every other line stays queued as it was. A line that is not
      queued is queued by an update that changes its interval, and by no other. */
  lemma QueuedAfterUpdate(s: Schedule, o: Line, n: Line, x: Line)
    requires Partition(s) && UpdateFits(s, o) && n.ip == o.ip
    ensures IsQueued(AfterUpdate(s, o, n), x) <==>
      || (x == n && (n.interval != o.interval || HasIp(QueueOf(s.queues, o.interval), o.ip)))
      || (IsQueued(s, x) && x.ip != o.ip)
  {
    if IsQueued(s, x) && x.ip == o.ip { NotQueuedElsewhere(s, o, x); }
    if o.interval in s.queues {
      InWithout(s.queues[o.interval], o.ip, x);
      InReplaced(s.queues[o.interval], n, x);
    }
    hide Partition, UpdateFits, Without, Replaced;
  }

  lemma {:induction false} InByInterval(ls: seq<Line>, d: int, x: Line)
    ensures x in ByInterval(ls, d) <==> x in ls && x.interval == d
  {
    if ls != [] {
      InByInterval(ls[..|ls| - 1], d, x);
      assert ls == ls[..|ls| - 1] + [ls[|ls| - 1]];
    }
  }

  /** A reset queues exactly the given lines. */
  lemma QueuedAfterReset(ls: seq<Line>, x: Line)
    ensures IsQueued(AfterReset(ls), x) <==> x in ls
  {
    DistributionIsByInterval(ls, x.interval);
    InByInterval(ls, x.interval, x);
  }
}

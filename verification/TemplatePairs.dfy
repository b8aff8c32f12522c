/** Which depths some order of the lists records for two templates at once (syncer/syncer.go,
    buildTemplateChain). A search that goes along one path to its end still finds the other
    path open if and only if it has not reached the end of that one on the way. */
module TemplatePairs {
  import opened TemplateChains
  import opened TemplateOrders

  /** A chain of parent links from one template to another that keeps off a set. */
  ghost predicate Detour(store: Store, avoid: set<TemplateId>, r: seq<TemplateId>, from: TemplateId, to: TemplateId) {
    && r != [] && r[0] == from && r[|r| - 1] == to
    && (forall i :: 0 <= i < |r| ==> r[i] !in avoid)
    && (forall i :: 0 <= i < |r| - 1 ==> Fetchable(store, r[i]) && r[i + 1] in store[r[i]].parents)
  }

  ghost predicate Beyond(store: Store, avoid: set<TemplateId>, from: TemplateId, to: TemplateId) {
    exists r :: Detour(store, avoid, r, from, to)
  }

  function Members(p: seq<TemplateId>): (m: set<TemplateId>)
    ensures forall x :: x in m <==> x in p
  {
    set x | x in p
  }

  /** The paths agree on their first k templates, and then one of them ends, or they part and
      the end of q cannot be reached from where p goes on without going back. */
  ghost predicate PartAt(store: Store, p: seq<TemplateId>, q: seq<TemplateId>, k: nat) {
    && k <= |p| && k <= |q| && q != [] && p[..k] == q[..k]
    && (k == |p| || k == |q| || (p[k] != q[k] && !Beyond(store, Members(p[..k]), p[k], q[|q| - 1])))
  }

  /** The search can go along p first and along q afterwards. */
  ghost predicate Earlier(store: Store, p: seq<TemplateId>, q: seq<TemplateId>) {
    exists k: nat :: PartAt(store, p, q, k)
  }

  ghost predicate Compatible(store: Store, p: seq<TemplateId>, q: seq<TemplateId>) {
    Earlier(store, p, q) || Earlier(store, q, p)
  }

  lemma HereItself(store: Store, avoid: set<TemplateId>, id: TemplateId)
    requires id !in avoid
    ensures Beyond(store, avoid, id, id)
  {
    assert Detour(store, avoid, [id], id, id);
  }

  lemma OneFurther(store: Store, avoid: set<TemplateId>, from: TemplateId, id: TemplateId, parent: TemplateId)
    requires Beyond(store, avoid, from, id) && Fetchable(store, id) && parent in store[id].parents && parent !in avoid
    ensures Beyond(store, avoid, from, parent)
  {
    var r :| Detour(store, avoid, r, from, id);
    assert Detour(store, avoid, r + [parent], from, parent);
  }

  // ---------------------------------------------------------------- what the search leaves behind

  /** Everything the stack's finished parts can reach is processed. */
  lemma {:induction false} ClosedUnder(
    store: Store, roots: seq<TemplateId>, s: Search, stack: set<TemplateId>, r: seq<TemplateId>,
    from: TemplateId, to: TemplateId)
    requires Good(store, roots, s, stack) && Detour(store, stack, r, from, to) && from in s.processed
    ensures to in s.processed
  {
    if |r| > 1 {
      var last := r[|r| - 2];
      assert Detour(store, stack, r[..|r| - 1], from, last);
      ClosedUnder(store, roots, s, stack, r[..|r| - 1], from, last);
      assert Fetchable(store, r[|r| - 2]) && r[|r| - 2 + 1] in store[r[|r| - 2]].parents;
    }
  }

  /** All that can be reached from a template without going back over `avoid`. */
  ghost predicate Exhausted(store: Store, avoid: set<TemplateId>, from: TemplateId, processed: set<TemplateId>) {
    forall to :: Beyond(store, avoid, from, to) ==> to in processed
  }

  lemma FinishedIsExhausted(store: Store, roots: seq<TemplateId>, s: Search, stack: set<TemplateId>, from: TemplateId)
    requires Good(store, roots, s, stack) && from in s.processed
    ensures Exhausted(store, stack, from, s.processed)
  {
    forall to | Beyond(store, stack, from, to) ensures to in s.processed {
      var r :| Detour(store, stack, r, from, to);
      ClosedUnder(store, roots, s, stack, r, from, to);
    }
  }

  /** p leads up to the current trail, or it left the trail after k templates and all that it
      could reach from there is done. */
  ghost predicate LeftAt(store: Store, p: seq<TemplateId>, trail: seq<TemplateId>, processed: set<TemplateId>, k: nat) {
    && k <= |trail| && k <= |p| && p[..k] == trail[..k]
    && (k == |p| ||
         ((k == |trail| || p[k] != trail[k]) && Exhausted(store, Members(trail[..k]), p[k], processed)))
  }

  ghost predicate Left(store: Store, p: seq<TemplateId>, trail: seq<TemplateId>, processed: set<TemplateId>) {
    exists k: nat :: LeftAt(store, p, trail, processed, k)
  }

  /** A path for each entry of the chain, in the order of the search. */
  ghost predicate Trails(
    store: Store, roots: seq<TemplateId>, s: Search, trail: seq<TemplateId>, paths: seq<seq<TemplateId>>) {
    && |paths| == |s.chain|
    && (forall i :: 0 <= i < |paths| ==>
         SimplePath(store, roots, paths[i], s.chain[i].id) && |paths[i]| == s.chain[i].depth
         && Left(store, paths[i], trail, s.processed))
    && (forall i, j :: 0 <= i < j < |paths| ==> Earlier(store, paths[i], paths[j]))
  }

  lemma LeftIsEarlier(
    store: Store, roots: seq<TemplateId>, p: seq<TemplateId>, trail: seq<TemplateId>,
    processed: set<TemplateId>, id: TemplateId)
    requires Left(store, p, trail, processed) && id !in processed && Distinct(p)
    ensures Earlier(store, p, trail + [id])
    ensures Left(store, p, trail + [id], processed + {id})
  {
    var k: nat :| LeftAt(store, p, trail, processed, k);
    var q := trail + [id];
    assert q[..k] == trail[..k];
    if k < |p| {
      HereItself(store, Members(trail[..k]), p[k]);
      assert p[k] != id;
    }
    assert PartAt(store, p, q, k);
    assert LeftAt(store, p, q, processed + {id}, k);
  }

  /** Back on the trail after the search below its last link has finished. */
  lemma LeftAgain(
    store: Store, roots: seq<TemplateId>, p: seq<TemplateId>, trail: seq<TemplateId>, id: TemplateId, s: Search)
    requires Left(store, p, trail + [id], s.processed) && Good(store, roots, s, Members(trail)) && id in s.processed
    ensures Left(store, p, trail, s.processed)
  {
    var q := trail + [id];
    var k: nat :| LeftAt(store, p, q, s.processed, k);
    if k <= |trail| {
      assert q[..k] == trail[..k];
      assert LeftAt(store, p, trail, s.processed, k);
    } else {
      assert p[..k][..|trail|] == trail && p[..k][|trail|] == id;
      FinishedIsExhausted(store, roots, s, Members(trail), id);
      assert trail[..|trail|] == trail;
      assert LeftAt(store, p, trail, s.processed, |trail|);
    }
  }

  lemma AppendTrail(
    store: Store, roots: seq<TemplateId>, s: Search, trail: seq<TemplateId>, paths: seq<seq<TemplateId>>,
    id: TemplateId)
    requires Trails(store, roots, s, trail, paths) && SimplePath(store, roots, trail + [id], id)
    requires id !in s.processed && Fetchable(store, id)
    ensures var s1 := Search(s.processed + {id}, s.chain + [NodeOf(store, id, |trail| + 1)], NoError);
      Trails(store, roots, s1, trail + [id], paths + [trail + [id]])
  {
    var q := trail + [id];
    var processed := s.processed + {id};
    forall i | 0 <= i < |paths| ensures Earlier(store, paths[i], q) && Left(store, paths[i], q, processed) {
      LeftIsEarlier(store, roots, paths[i], trail, s.processed, id);
    }
    assert LeftAt(store, q, q, processed, |q|);
    hide Left, Earlier, SimplePath;
  }

  lemma ExtendsDepth(store: Store, roots: seq<TemplateId>, trail: seq<TemplateId>, id: TemplateId)
    requires Extends(store, roots, trail, id)
    ensures AtDepth(store, roots, id, |trail| + 1)
  {
    if trail == [] {
      RootsAtDepthOne(store, roots, id);
    } else {
      assert AtDepth(store, roots, trail[|trail| - 1], |trail|);
      ParentDepth(store, roots, trail[|trail| - 1], |trail|, id);
    }
  }

  lemma TrailsAgain(
    store: Store, roots: seq<TemplateId>, s: Search, trail: seq<TemplateId>, id: TemplateId,
    paths: seq<seq<TemplateId>>)
    requires Trails(store, roots, s, trail + [id], paths)
    requires Good(store, roots, s, Members(trail)) && id in s.processed
    ensures Trails(store, roots, s, trail, paths)
  {
    forall i | 0 <= i < |paths| ensures Left(store, paths[i], trail, s.processed) {
      LeftAgain(store, roots, paths[i], trail, id, s);
    }
    hide Left, Earlier, SimplePath, Good;
  }

  lemma {:induction false} VisitTrails(
    store: Store, roots: seq<TemplateId>, todo: seq<TemplateId>, trail: seq<TemplateId>, s: Search,
    paths: seq<seq<TemplateId>>) returns (paths': seq<seq<TemplateId>>)
    requires s.error == NoError && Good(store, roots, s, Members(trail)) && Trails(store, roots, s, trail, paths)
    requires forall x :: x in trail ==> x in s.processed
    requires forall id :: id in todo ==> Extends(store, roots, trail, id)
    ensures var r := Visit(store, todo, |trail| + 1, s);
      r.error == NoError ==> Trails(store, roots, r, trail, paths') && Good(store, roots, r, Members(trail))
    decreases store.Keys - s.processed, |todo|
  {
    hide Good, Trails, Extends;
    paths' := paths;
    if todo != [] {
      var s1 := Enter(store, todo[0], |trail| + 1, s);
      paths' := EnterTrails(store, roots, todo[0], trail, s, paths);
      if s1.error == NoError {
        paths' := VisitTrails(store, roots, todo[1..], trail, s1, paths');
      }
    }
  }

  lemma {:induction false} EnterTrails(
    store: Store, roots: seq<TemplateId>, id: TemplateId, trail: seq<TemplateId>, s: Search,
    paths: seq<seq<TemplateId>>) returns (paths': seq<seq<TemplateId>>)
    requires s.error == NoError && Good(store, roots, s, Members(trail)) && Trails(store, roots, s, trail, paths)
    requires forall x :: x in trail ==> x in s.processed
    requires Extends(store, roots, trail, id)
    ensures var r := Enter(store, id, |trail| + 1, s);
      r.error == NoError ==> Trails(store, roots, r, trail, paths') && Good(store, roots, r, Members(trail))
    decreases store.Keys - s.processed, 0
  {
    paths' := paths;
    if id !in s.processed && Fetchable(store, id) {
      var trail1, stack := trail + [id], Members(trail);
      var s1 := Search(s.processed + {id}, s.chain + [NodeOf(store, id, |trail| + 1)], NoError);
      ExtendsDepth(store, roots, trail, id);
      Append(store, roots, id, |trail| + 1, s, stack);
      EnterGood(store, roots, id, |trail| + 1, s, stack);
      assert Members(trail1) == stack + {id};
      ExtendSimple(store, roots, trail, id);
      AppendTrail(store, roots, s, trail, paths, id);
      forall parent | parent in store[id].parents ensures Extends(store, roots, trail1, parent) {
        LinkExtends(store, roots, trail1, id, parent);
      }
      hide Good, Trails, Extends, SimplePath, AtDepth;
      paths' := VisitTrails(store, roots, store[id].parents, trail1, s1, paths + [trail1]);
      var r := Enter(store, id, |trail| + 1, s);
      if r.error == NoError { TrailsAgain(store, roots, r, trail, id, paths'); }
    }
  }

  ghost predicate CompatiblePaths(
    store: Store, roots: seq<TemplateId>, x: TemplateId, n: nat, y: TemplateId, m: nat,
    p: seq<TemplateId>, q: seq<TemplateId>) {
    && SimplePath(store, roots, p, x) && |p| == n && SimplePath(store, roots, q, y) && |q| == m
    && Compatible(store, p, q)
  }

  /** Two recorded depths are the lengths of compatible paths. */
  lemma TogetherIsCompatible(store: Store, roots: seq<TemplateId>, x: TemplateId, n: nat, y: TemplateId, m: nat)
    requires Visit(store, roots, 1, Search({}, [], NoError)).error == NoError && x != y
    requires RecordedAt(ChainOf(store, roots), x, n) && RecordedAt(ChainOf(store, roots), y, m)
    ensures exists p, q :: CompatiblePaths(store, roots, x, n, y, m, p, q)
  {
    var s0 := Search({}, [], NoError);
    var paths := VisitTrails(store, roots, roots, [], s0, []);
    var chain := ChainOf(store, roots);
    var i :| 0 <= i < |chain| && chain[i].id == x && chain[i].depth == n;
    var j :| 0 <= j < |chain| && chain[j].id == y && chain[j].depth == m;
    assert Earlier(store, paths[i], paths[j]) || Earlier(store, paths[j], paths[i]);
    hide Left, Earlier, SimplePath;
    assert CompatiblePaths(store, roots, x, n, y, m, paths[i], paths[j]);
  }

  // ---------------------------------------------------------------- an order for compatible paths

  ghost predicate AllBeyond(
    store: Store, avoid: set<TemplateId>, from: TemplateId, a: set<TemplateId>, b: set<TemplateId>) {
    forall z :: z in b && z !in a ==> Beyond(store, avoid, from, z)
  }

  /** What a visit newly processes can be reached without going back over `avoid`. */
  lemma {:induction false} VisitReaches(
    store: Store, todo: seq<TemplateId>, depth: nat, s: Search, avoid: set<TemplateId>, from: TemplateId)
    requires s.error == NoError && avoid <= s.processed
    requires forall id :: id in todo && id !in avoid ==> Beyond(store, avoid, from, id)
    ensures AllBeyond(store, avoid, from, s.processed, Visit(store, todo, depth, s).processed)
    decreases store.Keys - s.processed, |todo|
  {
    hide Beyond;
    if todo != [] {
      EnterReaches(store, todo[0], depth, s, avoid, from);
      var s1 := Enter(store, todo[0], depth, s);
      if s1.error == NoError { VisitReaches(store, todo[1..], depth, s1, avoid, from); }
    }
  }

  lemma {:induction false} EnterReaches(
    store: Store, id: TemplateId, depth: nat, s: Search, avoid: set<TemplateId>, from: TemplateId)
    requires s.error == NoError && avoid <= s.processed
    requires id !in avoid ==> Beyond(store, avoid, from, id)
    ensures AllBeyond(store, avoid, from, s.processed, Enter(store, id, depth, s).processed)
    decreases store.Keys - s.processed, 0
  {
    hide Beyond;
    if id !in s.processed && Fetchable(store, id) {
      var s1 := Search(s.processed + {id}, s.chain + [NodeOf(store, id, depth)], NoError);
      forall parent | parent in store[id].parents && parent !in avoid ensures Beyond(store, avoid, from, parent) {
        OneFurther(store, avoid, from, id, parent);
      }
      VisitReaches(store, store[id].parents, depth + 1, s1, avoid, from);
    }
  }

  lemma {:induction false} VisitSucceeds(
    store: Store, roots: seq<TemplateId>, todo: seq<TemplateId>, depth: nat, s: Search)
    requires Resolvable(store, roots) && s.error == NoError
    requires forall id :: id in todo ==> Reachable(store, roots, id)
    ensures Visit(store, todo, depth, s).error == NoError
    decreases store.Keys - s.processed, |todo|
  {
    hide Reachable;
    if todo != [] {
      EnterSucceeds(store, roots, todo[0], depth, s);
      VisitSucceeds(store, roots, todo[1..], depth, Enter(store, todo[0], depth, s));
    }
  }

  lemma {:induction false} EnterSucceeds(store: Store, roots: seq<TemplateId>, id: TemplateId, depth: nat, s: Search)
    requires Resolvable(store, roots) && s.error == NoError && Reachable(store, roots, id)
    ensures Enter(store, id, depth, s).error == NoError
    decreases store.Keys - s.processed, 0
  {
    assert Fetchable(store, id);
    if id !in s.processed {
      forall parent | parent in store[id].parents ensures Reachable(store, roots, parent) {
        var d: nat :| AtDepth(store, roots, id, d);
        ParentDepth(store, roots, id, d, parent);
      }
      hide Reachable;
      VisitSucceeds(store, roots, store[id].parents, depth + 1,
                    Search(s.processed + {id}, s.chain + [NodeOf(store, id, depth)], NoError));
    }
  }

  /** From place k on, each template of the path is a parent of the one before. */
  ghost predicate Linked(store: Store, p: seq<TemplateId>, k: nat) {
    forall i :: k <= i < |p| - 1 ==> Fetchable(store, p[i]) && p[i + 1] in store[p[i]].parents
  }

  /** The paths share their first k templates and part there, and the end of q cannot be
      reached from where p goes on without going back. */
  ghost predicate Parting(store: Store, p: seq<TemplateId>, q: seq<TemplateId>, k: nat) {
    && k < |p| && k < |q| && Distinct(p) && Distinct(q) && p[..k] == q[..k] && p[k] != q[k]
    && Linked(store, p, 0) && Linked(store, q, 0)
    && !Beyond(store, Members(p[..k]), p[k], q[|q| - 1])
  }

  /** Besides, the lists lead along p, and beyond the fork along q. */
  ghost predicate Fork(store: Store, p: seq<TemplateId>, q: seq<TemplateId>, k: nat) {
    && Parting(store, p, q, k) && Led(store, p, 0) && Led(store, q, k)
    && Fetchable(store, p[|p| - 1]) && Fetchable(store, q[|q| - 1])
  }

  /** Then no template of q beyond the fork can be reached from p's side. */
  lemma {:induction false} RestStaysOff(store: Store, p: seq<TemplateId>, q: seq<TemplateId>, k: nat, j: nat)
    requires Parting(store, p, q, k) && k <= j < |q|
    ensures !Beyond(store, Members(p[..k]), p[k], q[j])
    decreases |q| - j
  {
    if j < |q| - 1 {
      RestStaysOff(store, p, q, k, j + 1);
      if Beyond(store, Members(p[..k]), p[k], q[j]) {
        NotBefore(p, q, k, j + 1);
        OneFurther(store, Members(p[..k]), p[k], q[j], q[j + 1]);
      }
    }
  }

  lemma NotBefore(p: seq<TemplateId>, q: seq<TemplateId>, k: nat, j: nat)
    requires k <= j < |q| && k <= |p| && Distinct(q) && p[..k] == q[..k]
    ensures q[j] !in Members(p[..k])
  {
  }

  lemma VisitOpens(store: Store, todo: seq<TemplateId>, depth: nat, s: Search)
    requires todo != [] && s.error == NoError
    ensures var s1 := Enter(store, todo[0], depth, s);
      && Visit(store, todo, depth, s) == Visit(store, todo[1..], depth, s1)
      && s1.chain <= Visit(store, todo, depth, s).chain
  {
    VisitKeepsChain(store, todo[1..], depth, Enter(store, todo[0], depth, s));
  }

  /** After all of p the rest of q is still open. */
  lemma FirstSide(
    store: Store, roots: seq<TemplateId>, p: seq<TemplateId>, q: seq<TemplateId>, k: nat, s: Search)
    requires Fork(store, p, q, k) && Resolvable(store, roots) && Reachable(store, roots, p[k]) && s.error == NoError
    requires forall x :: x in s.processed <==> x in p[..k]
    ensures var s1 := Enter(store, p[k], k + 1, s);
      && s1.error == NoError && RecordedFrom(p, k, s1.chain)
      && forall j :: k <= j < |q| ==> q[j] !in s1.processed
  {
    var avoid := Members(p[..k]);
    Follows(store, p, k, s);
    EnterSucceeds(store, roots, p[k], k + 1, s);
    assert p[k] !in avoid;
    HereItself(store, avoid, p[k]);
    EnterReaches(store, p[k], k + 1, s, avoid, p[k]);
    var s1 := Enter(store, p[k], k + 1, s);
    forall j | k <= j < |q| ensures q[j] !in s1.processed {
      RestStaysOff(store, p, q, k, j);
      NotBefore(p, q, k, j);
      hide Beyond, Fork, Enter, Reachable, Resolvable, RecordedFrom;
    }
  }

  /** At the fork: first all along p, then along the rest of q. */
  lemma ForkIsRecorded(
    store: Store, roots: seq<TemplateId>, todo: seq<TemplateId>, p: seq<TemplateId>, q: seq<TemplateId>, k: nat,
    s: Search)
    requires Fork(store, p, q, k) && Resolvable(store, roots) && Reachable(store, roots, p[k]) && s.error == NoError
    requires |todo| >= 2 && todo[0] == p[k] && todo[1] == q[k]
    requires forall x :: x in s.processed <==> x in p[..k]
    ensures RecordedFrom(p, k, Visit(store, todo, k + 1, s).chain)
    ensures RecordedFrom(q, k, Visit(store, todo, k + 1, s).chain)
  {
    hide Visit, Enter, RecordedFrom, Resolvable, Reachable, Beyond;
    FirstSide(store, roots, p, q, k, s);
    var s1 := Enter(store, p[k], k + 1, s);
    var rest, r := todo[1..], Visit(store, todo, k + 1, s);
    VisitOpens(store, todo, k + 1, s);
    Follows(store, q, k, s1);
    VisitOpens(store, rest, k + 1, s1);
    AllStay(p, k, s1.chain, r.chain);
    AllStay(q, k, Enter(store, q[k], k + 1, s1).chain, r.chain);
  }

  /** The list in which the search looks for the template at position i of the path. */
  function ListAt(store: Store, roots: seq<TemplateId>, p: seq<TemplateId>, i: nat): seq<TemplateId>
    requires i < |p| && (i > 0 ==> Fetchable(store, p[i - 1]))
  {
    if i == 0 then roots else store[p[i - 1]].parents
  }

  lemma PlaceOnPath(store: Store, roots: seq<TemplateId>, p: seq<TemplateId>, i: nat)
    requires Path(store, roots, p) && i < |p|
    ensures Reachable(store, roots, p[i])
  {
    assert Path(store, roots, p[..i + 1]);
    assert AtDepth(store, roots, p[i], i + 1);
  }

  lemma EnterOpens(store: Store, p: seq<TemplateId>, i: nat, s: Search)
    requires i < |p| && Fetchable(store, p[i]) && p[i] !in s.processed && s.error == NoError
    ensures Enter(store, p[i], i + 1, s) == Visit(store, store[p[i]].parents, i + 2,
      Search(s.processed + {p[i]}, s.chain + [NodeOf(store, p[i], i + 1)], NoError))
  {
  }

  /** Along the shared part, and then both ways. */
  lemma {:induction false} SharedIsRecorded(
    store: Store, roots: seq<TemplateId>, p: seq<TemplateId>, q: seq<TemplateId>, k: nat, i: nat, s: Search)
    requires Fork(store, p, q, k) && Path(store, roots, p) && Resolvable(store, roots) && s.error == NoError && i <= k
    requires var ls := ListAt(store, roots, p, k); |ls| >= 2 && ls[0] == p[k] && ls[1] == q[k]
    requires roots != [] && roots[0] == p[0]
    requires forall x :: x in s.processed <==> x in p[..i]
    ensures var r := Visit(store, ListAt(store, roots, p, i), i + 1, s);
      RecordedFrom(p, k, r.chain) && RecordedFrom(q, k, r.chain)
    decreases k - i
  {
    hide Visit, Enter, RecordedFrom, Resolvable, Reachable, Beyond;
    var ls := ListAt(store, roots, p, i);
    PlaceOnPath(store, roots, p, i);
    if i == k {
      ForkIsRecorded(store, roots, ls, p, q, k, s);
    } else {
      assert ls != [] && ls[0] == p[i] && p[i] !in s.processed && Fetchable(store, p[i]);
      var s1 := Search(s.processed + {p[i]}, s.chain + [NodeOf(store, p[i], i + 1)], NoError);
      assert p[..i + 1] == p[..i] + [p[i]];
      hide Fork, Path;
      EnterOpens(store, p, i, s);
      VisitOpens(store, ls, i + 1, s);
      SharedIsRecorded(store, roots, p, q, k, i + 1, s1);
      var r := Visit(store, ls, i + 1, s);
      AllStay(p, k, Enter(store, p[i], i + 1, s).chain, r.chain);
      AllStay(q, k, Enter(store, p[i], i + 1, s).chain, r.chain);
    }
  }

  // ---------------------------------------------------------------- building that order

  lemma LeadTwice(ps: seq<TemplateId>, a: TemplateId, b: TemplateId)
    requires a in ps && b in ps && a != b
    ensures var r := Lead(Lead(ps, b), a); |r| >= 2 && r[0] == a && r[1] == b
  {
    LeadReorders(ps, b);
    SameMembers(ps, Lead(ps, b), a);
  }

  lemma {:induction false} OnOwnPath(store: Store, p: seq<TemplateId>, k: nat, l: nat)
    requires Distinct(p) && Linked(store, p, 0) && k <= l < |p|
    ensures Beyond(store, Members(p[..k]), p[k], p[l])
  {
    if k == l {
      HereItself(store, Members(p[..k]), p[k]);
    } else {
      OnOwnPath(store, p, k, l - 1);
      assert Fetchable(store, p[l - 1]) && p[l - 1 + 1] in store[p[l - 1]].parents;
      OneFurther(store, Members(p[..k]), p[k], p[l - 1], p[l]);
    }
  }

  /** Beyond the fork q has no template of p. */
  lemma SidesAreDisjoint(store: Store, p: seq<TemplateId>, q: seq<TemplateId>, k: nat, j: nat)
    requires Parting(store, p, q, k) && k <= j < |q|
    ensures q[j] !in p
  {
    RestStaysOff(store, p, q, k, j);
    NotBefore(p, q, k, j);
    forall l | 0 <= l < |p| ensures p[l] != q[j] {
      if l < k { assert p[l] in p[..k]; } else { OnOwnPath(store, p, k, l); }
    }
  }

  lemma {:induction false} SameBeyond(
    store: Store, roots: seq<TemplateId>, store': Store, roots': seq<TemplateId>,
    avoid: set<TemplateId>, from: TemplateId, to: TemplateId)
    requires Reordered(store, roots, store', roots')
    ensures Beyond(store, avoid, from, to) <==> Beyond(store', avoid, from, to)
  {
    forall r ensures Detour(store, avoid, r, from, to) <==> Detour(store', avoid, r, from, to) {
      forall i | 0 <= i < |r| - 1
        ensures Fetchable(store, r[i]) && r[i + 1] in store[r[i]].parents
          <==> Fetchable(store', r[i]) && r[i + 1] in store'[r[i]].parents
      {
        SameLinks(store, roots, store', roots', r[i], r[i + 1]);
      }
    }
  }

  lemma SameLinks(
    store: Store, roots: seq<TemplateId>, store': Store, roots': seq<TemplateId>, id: TemplateId, parent: TemplateId)
    requires Reordered(store, roots, store', roots')
    ensures Fetchable(store, id) <==> Fetchable(store', id)
    ensures Fetchable(store, id) ==> (parent in store[id].parents <==> parent in store'[id].parents)
  {
    assert id in store <==> id in store'.Keys;
    if Fetchable(store, id) { SameMembers(store[id].parents, store'[id].parents, parent); }
  }

  lemma ReorderedTwice(
    a: Store, ra: seq<TemplateId>, b: Store, rb: seq<TemplateId>, c: Store, rc: seq<TemplateId>)
    requires Reordered(a, ra, b, rb) && Reordered(b, rb, c, rc)
    ensures Reordered(a, ra, c, rc)
  {
    forall id | id in a ensures SameAnswer(a[id], c[id]) {
      assert id in b.Keys && SameAnswer(a[id], b[id]) && SameAnswer(b[id], c[id]);
    }
  }

  lemma PartingKept(
    store: Store, roots: seq<TemplateId>, store': Store, roots': seq<TemplateId>,
    p: seq<TemplateId>, q: seq<TemplateId>, k: nat)
    requires Reordered(store, roots, store', roots') && Parting(store, p, q, k)
    ensures Parting(store', p, q, k)
  {
    SameBeyond(store, roots, store', roots', Members(p[..k]), p[k], q[|q| - 1]);
    forall i | 0 <= i < |p| - 1 ensures Fetchable(store', p[i]) && p[i + 1] in store'[p[i]].parents {
      SameLinks(store, roots, store', roots', p[i], p[i + 1]);
    }
    forall i | 0 <= i < |q| - 1 ensures Fetchable(store', q[i]) && q[i + 1] in store'[q[i]].parents {
      SameLinks(store, roots, store', roots', q[i], q[i + 1]);
    }
    hide Beyond, Reordered;
  }

  /** Leading along q and then along p still leads along q beyond the fork. */
  lemma LedBeyondFork(store: Store, p: seq<TemplateId>, q: seq<TemplateId>, k: nat)
    requires Parting(store, p, q, k)
    ensures Led(Along(Along(store, q), p), q, k)
  {
    forall j | k <= j < |q| - 1
      ensures Fetchable(Along(Along(store, q), p), q[j])
      ensures var ps := Along(Along(store, q), p)[q[j]].parents; ps != [] && ps[0] == q[j + 1]
    {
      SidesAreDisjoint(store, p, q, k, j);
      IndexInDistinct(q, j);
    }
  }

  /** At the fork p's side comes first and q's side second. */
  lemma ListAtFork(store: Store, roots: seq<TemplateId>, p: seq<TemplateId>, q: seq<TemplateId>, k: nat)
    requires Parting(store, p, q, k) && p[0] in roots && q[0] in roots
    ensures var st, rt := Along(Along(store, q), p), Lead(Lead(roots, q[0]), p[0]);
      && (k > 0 ==> Fetchable(st, p[k - 1]))
      && var ls := ListAt(st, rt, p, k); |ls| >= 2 && ls[0] == p[k] && ls[1] == q[k]
  {
    if k == 0 {
      LeadTwice(roots, p[0], q[0]);
    } else {
      assert p[k - 1] == p[..k][k - 1] == q[..k][k - 1] == q[k - 1];
      IndexInDistinct(p, k - 1);
      IndexInDistinct(q, k - 1);
      assert Fetchable(store, p[k - 1]) && p[k - 1 + 1] in store[p[k - 1]].parents;
      assert q[k - 1 + 1] in store[q[k - 1]].parents;
      LeadTwice(store[p[k - 1]].parents, p[k], q[k]);
    }
  }

  ghost predicate RecordedTogether(
    store: Store, roots: seq<TemplateId>, x: TemplateId, n: nat, y: TemplateId, m: nat) {
    RecordedAt(ChainOf(store, roots), x, n) && RecordedAt(ChainOf(store, roots), y, m)
  }

  lemma ForkReorders(store: Store, roots: seq<TemplateId>, p: seq<TemplateId>, q: seq<TemplateId>)
    requires p != [] && q != [] && p[0] in roots
    ensures var st, rt := Along(Along(store, q), p), Lead(Lead(roots, q[0]), p[0]);
      Reordered(store, roots, st, rt) && rt != [] && rt[0] == p[0]
  {
    var s1, r1 := Along(store, q), Lead(roots, q[0]);
    AlongReorders(store, roots, q);
    AlongReorders(s1, r1, p);
    SameMembers(roots, r1, p[0]);
    assert Lead(r1, p[0]) != [] && Lead(r1, p[0])[0] == p[0];
    hide Along, Lead;
    ReorderedTwice(store, roots, s1, r1, Along(s1, p), Lead(r1, p[0]));
  }

  lemma LedOnFork(store: Store, roots: seq<TemplateId>, p: seq<TemplateId>, q: seq<TemplateId>)
    requires Path(store, roots, p) && Distinct(p) && q != []
    ensures Led(Along(Along(store, q), p), p, 0)
  {
    AlongReorders(store, roots, q);
    SamePaths(store, roots, Along(store, q), Lead(roots, q[0]), p);
    hide Along, Lead, Path;
    AlongLeads(Along(store, q), Lead(roots, q[0]), p);
  }

  lemma EndFetchable(store: Store, roots: seq<TemplateId>, p: seq<TemplateId>)
    requires Resolvable(store, roots) && Path(store, roots, p)
    ensures Fetchable(store, p[|p| - 1])
  {
    PlaceOnPath(store, roots, p, |p| - 1);
  }

  lemma ForkBuilt(store: Store, roots: seq<TemplateId>, p: seq<TemplateId>, q: seq<TemplateId>, k: nat)
    requires Resolvable(store, roots) && Path(store, roots, p) && Path(store, roots, q) && Parting(store, p, q, k)
    ensures var st, rt := Along(Along(store, q), p), Lead(Lead(roots, q[0]), p[0]);
      && Reordered(store, roots, st, rt) && rt != [] && rt[0] == p[0]
      && Fork(st, p, q, k) && Path(st, rt, p) && Resolvable(st, rt)
  {
    var st, rt := Along(Along(store, q), p), Lead(Lead(roots, q[0]), p[0]);
    ForkReorders(store, roots, p, q);
    LedOnFork(store, roots, p, q);
    LedBeyondFork(store, p, q, k);
    hide Along, Lead;
    SamePaths(store, roots, st, rt, p);
    SamePaths(store, roots, st, rt, q);
    PartingKept(store, roots, st, rt, p, q, k);
    SameResolvable(store, roots, st, rt);
    hide Reordered, Path, Resolvable, Parting, Led;
    EndFetchable(st, rt, p);
    EndFetchable(st, rt, q);
  }

  lemma ForkOrderRecords(store: Store, roots: seq<TemplateId>, p: seq<TemplateId>, q: seq<TemplateId>, k: nat)
    requires Fork(store, p, q, k) && Path(store, roots, p) && Resolvable(store, roots)
    requires var ls := ListAt(store, roots, p, k); |ls| >= 2 && ls[0] == p[k] && ls[1] == q[k]
    requires roots != [] && roots[0] == p[0]
    ensures RecordedTogether(store, roots, p[|p| - 1], |p|, q[|q| - 1], |q|)
  {
    hide Visit, Enter, Resolvable, Path, RecordedAt;
    SharedIsRecorded(store, roots, p, q, k, 0, Search({}, [], NoError));
    hide Fork;
  }

  lemma PartingIsRecorded(store: Store, roots: seq<TemplateId>, p: seq<TemplateId>, q: seq<TemplateId>, k: nat)
    requires Resolvable(store, roots) && Path(store, roots, p) && Path(store, roots, q) && Parting(store, p, q, k)
    ensures RecordableTogether(store, roots, p[|p| - 1], |p|, q[|q| - 1], |q|)
  {
    var st, rt := Along(Along(store, q), p), Lead(Lead(roots, q[0]), p[0]);
    assert p[0] in roots && q[0] in roots;
    hide Along, Lead, Reordered, Fork, Parting, Path, Resolvable, RecordedTogether, ListAt;
    ForkBuilt(store, roots, p, q, k);
    ListAtFork(store, roots, p, q, k);
    ForkOrderRecords(st, rt, p, q, k);
  }

  ghost predicate RecordableTogether(
    store: Store, roots: seq<TemplateId>, x: TemplateId, n: nat, y: TemplateId, m: nat) {
    exists store', roots' :: Reordered(store, roots, store', roots') && RecordedTogether(store', roots', x, n, y, m)
  }

  /** A path and one of its beginnings. */
  lemma PrefixIsRecorded(store: Store, roots: seq<TemplateId>, p: seq<TemplateId>, k: nat)
    requires Resolvable(store, roots) && Path(store, roots, p) && Distinct(p) && 1 <= k <= |p|
    ensures RecordableTogether(store, roots, p[|p| - 1], |p|, p[k - 1], k)
    ensures RecordableTogether(store, roots, p[k - 1], k, p[|p| - 1], |p|)
  {
    EndFetchable(store, roots, p);
    SimplePathIsRecorded(store, roots, p);
    var st, rt := Along(store, p), Lead(roots, p[0]);
    hide Along, Lead, Reordered, Path, Resolvable, RecordedAt, Visit, Enter;
    assert RecordedTogether(st, rt, p[|p| - 1], |p|, p[k - 1], k);
    assert RecordedTogether(st, rt, p[k - 1], k, p[|p| - 1], |p|);
  }

  lemma TogetherSymmetric(store: Store, roots: seq<TemplateId>, x: TemplateId, n: nat, y: TemplateId, m: nat)
    requires RecordableTogether(store, roots, x, n, y, m)
    ensures RecordableTogether(store, roots, y, m, x, n)
  {
    var st, rt :| Reordered(store, roots, st, rt) && RecordedTogether(st, rt, x, n, y, m);
    assert RecordedTogether(st, rt, y, m, x, n);
  }

  lemma EarlierIsRecorded(
    store: Store, roots: seq<TemplateId>, p: seq<TemplateId>, x: TemplateId, q: seq<TemplateId>, y: TemplateId)
    requires Resolvable(store, roots) && SimplePath(store, roots, p, x) && SimplePath(store, roots, q, y)
    requires Earlier(store, p, q)
    ensures RecordableTogether(store, roots, x, |p|, y, |q|)
  {
    var k: nat :| PartAt(store, p, q, k);
    if k == |p| {
      assert q[..k] == p;
      PrefixIsRecorded(store, roots, q, k);
    } else if k == |q| {
      assert p[..k] == q;
      PrefixIsRecorded(store, roots, p, k);
    } else {
      PathIsLinked(store, roots, p);
      PathIsLinked(store, roots, q);
      PartingIsRecorded(store, roots, p, q, k);
    }
  }

  lemma PathIsLinked(store: Store, roots: seq<TemplateId>, p: seq<TemplateId>)
    requires Path(store, roots, p)
    ensures Linked(store, p, 0)
  {
  }

  lemma SameParting(
    store: Store, roots: seq<TemplateId>, store': Store, roots': seq<TemplateId>,
    p: seq<TemplateId>, q: seq<TemplateId>)
    requires Reordered(store, roots, store', roots') && Earlier(store', p, q)
    ensures Earlier(store, p, q)
  {
    var k: nat :| PartAt(store', p, q, k);
    if k < |p| && k < |q| {
      SameBeyond(store, roots, store', roots', Members(p[..k]), p[k], q[|q| - 1]);
    }
    hide Beyond, Reordered;
    assert PartAt(store, p, q, k);
  }

  lemma PairOfOneOrder(
    store: Store, roots: seq<TemplateId>, store': Store, roots': seq<TemplateId>,
    x: TemplateId, n: nat, y: TemplateId, m: nat)
    requires Resolvable(store, roots) && x != y
    requires Reordered(store, roots, store', roots') && RecordedTogether(store', roots', x, n, y, m)
    ensures exists p, q :: CompatiblePaths(store, roots, x, n, y, m, p, q)
  {
    SameResolvable(store, roots, store', roots');
    forall id | id in roots' ensures Reachable(store', roots', id) {
      RootsAtDepthOne(store', roots', id);
    }
    VisitSucceeds(store', roots', roots', 1, Search({}, [], NoError));
    hide Reordered, Resolvable, Visit, Enter, Reachable;
    TogetherIsCompatible(store', roots', x, n, y, m);
    var p, q :| CompatiblePaths(store', roots', x, n, y, m, p, q);
    SamePaths(store, roots, store', roots', p);
    SamePaths(store, roots, store', roots', q);
    if Earlier(store', p, q) {
      SameParting(store, roots, store', roots', p, q);
    } else {
      SameParting(store, roots, store', roots', q, p);
    }
    hide Earlier, Path;
    assert CompatiblePaths(store, roots, x, n, y, m, p, q);
  }

  /** Some order of the lists records two templates at depths n and m in one search if and
      only if there are parent paths of these lengths without repetition of which, where they
      part, one does not lead to the end of the other. */
  lemma RecordableTogetherIff(store: Store, roots: seq<TemplateId>, x: TemplateId, n: nat, y: TemplateId, m: nat)
    requires Resolvable(store, roots) && x != y
    ensures RecordableTogether(store, roots, x, n, y, m)
      <==> exists p, q :: CompatiblePaths(store, roots, x, n, y, m, p, q)
  {
    hide Reordered, Resolvable, RecordedTogether, SimplePath, Earlier;
    if RecordableTogether(store, roots, x, n, y, m) {
      var st, rt :| Reordered(store, roots, st, rt) && RecordedTogether(st, rt, x, n, y, m);
      PairOfOneOrder(store, roots, st, rt, x, n, y, m);
    }
    if p, q :| CompatiblePaths(store, roots, x, n, y, m, p, q) {
      if Earlier(store, p, q) {
        EarlierIsRecorded(store, roots, p, x, q, y);
      } else {
        EarlierIsRecorded(store, roots, q, y, p, x);
        TogetherSymmetric(store, roots, y, m, x, n);
      }
    }
  }
}

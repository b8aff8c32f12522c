/** Recorded depths when the server may list parents in any order (syncer/syncer.go,
    buildTemplateChain): which depths some order records, and when every order records the
    distances. */
module TemplateOrders {
  import opened TemplateChains

  /** The same hierarchy with its lists in another order. */
  predicate Reordered(store: Store, roots: seq<TemplateId>, store': Store, roots': seq<TemplateId>) {
    && multiset(roots') == multiset(roots) && store'.Keys == store.Keys
    && (forall id :: id in store ==> SameAnswer(store[id], store'[id]))
  }

  predicate SameAnswer(a: Answer, b: Answer) {
    if a.Fault? then b.Fault?
    else b.Found? && b.macros == a.macros && multiset(b.parents) == multiset(a.parents)
  }

  function ChainOf(store: Store, roots: seq<TemplateId>): seq<TemplateNode> {
    Visit(store, roots, 1, Search({}, [], NoError)).chain
  }

  /** The search succeeds, in whatever order: every reachable template can be fetched. */
  ghost predicate Resolvable(store: Store, roots: seq<TemplateId>) {
    forall id :: Reachable(store, roots, id) ==> Fetchable(store, id)
  }

  ghost predicate Distinct(p: seq<TemplateId>) {
    forall i, j :: 0 <= i < j < |p| ==> p[i] != p[j]
  }

  /** A parent path without repetition that ends at `id`. */
  ghost predicate SimplePath(store: Store, roots: seq<TemplateId>, p: seq<TemplateId>, id: TemplateId) {
    Path(store, roots, p) && Distinct(p) && p[|p| - 1] == id
  }

  predicate RecordedAt(chain: seq<TemplateNode>, id: TemplateId, n: nat) {
    exists i :: 0 <= i < |chain| && chain[i].id == id && chain[i].depth == n
  }

  // ---------------------------------------------------------------- reordering

  lemma SameMembers(a: seq<TemplateId>, b: seq<TemplateId>, x: TemplateId)
    requires multiset(a) == multiset(b)
    ensures x in a <==> x in b
  {
    assert x in a <==> x in multiset(a);
  }

  lemma SamePaths(
    store: Store, roots: seq<TemplateId>, store': Store, roots': seq<TemplateId>, p: seq<TemplateId>)
    requires Reordered(store, roots, store', roots')
    ensures Path(store, roots, p) <==> Path(store', roots', p)
  {
    if p != [] { SameMembers(roots, roots', p[0]); }
    forall i | 0 <= i < |p| - 1
      ensures Fetchable(store, p[i]) && p[i + 1] in store[p[i]].parents
        <==> Fetchable(store', p[i]) && p[i + 1] in store'[p[i]].parents
    {
      assert p[i] in store <==> p[i] in store'.Keys;
      if Fetchable(store, p[i]) { SameMembers(store[p[i]].parents, store'[p[i]].parents, p[i + 1]); }
    }
  }

  lemma SameDepths(
    store: Store, roots: seq<TemplateId>, store': Store, roots': seq<TemplateId>, id: TemplateId, d: nat)
    requires Reordered(store, roots, store', roots')
    ensures AtDepth(store, roots, id, d) <==> AtDepth(store', roots', id, d)
    ensures Distance(store, roots, id, d) <==> Distance(store', roots', id, d)
  {
    forall e: nat ensures AtDepth(store, roots, id, e) <==> AtDepth(store', roots', id, e) {
      forall p ensures Path(store, roots, p) <==> Path(store', roots', p) {
        SamePaths(store, roots, store', roots', p);
      }
    }
  }

  lemma SameResolvable(store: Store, roots: seq<TemplateId>, store': Store, roots': seq<TemplateId>)
    requires Reordered(store, roots, store', roots') && Resolvable(store, roots)
    ensures Resolvable(store', roots')
  {
    forall id | Reachable(store', roots', id) ensures Fetchable(store', id) {
      var d: nat :| AtDepth(store', roots', id, d);
      SameDepths(store, roots, store', roots', id, d);
      assert Reachable(store, roots, id) && id in store'.Keys;
    }
  }

  // ---------------------------------------------------------------- only simple paths are recorded

  ghost predicate OnSimplePaths(store: Store, roots: seq<TemplateId>, chain: seq<TemplateNode>) {
    forall i :: 0 <= i < |chain| ==> exists p :: SimplePath(store, roots, p, chain[i].id) && |p| == chain[i].depth
  }

  /** `id` is linked to the end of the trail, or to the host when there is none yet. */
  ghost predicate Extends(store: Store, roots: seq<TemplateId>, trail: seq<TemplateId>, id: TemplateId) {
    if trail == [] then id in roots
    else
      var last := trail[|trail| - 1];
      SimplePath(store, roots, trail, last) && Fetchable(store, last) && id in store[last].parents
  }

  lemma ExtendSimple(store: Store, roots: seq<TemplateId>, trail: seq<TemplateId>, id: TemplateId)
    requires Extends(store, roots, trail, id) && id !in trail
    ensures SimplePath(store, roots, trail + [id], id)
  {
  }

  lemma {:induction false} VisitOnSimple(
    store: Store, roots: seq<TemplateId>, todo: seq<TemplateId>, trail: seq<TemplateId>, s: Search)
    requires s.error == NoError && OnSimplePaths(store, roots, s.chain)
    requires forall x :: x in trail ==> x in s.processed
    requires forall id :: id in todo ==> Extends(store, roots, trail, id)
    ensures OnSimplePaths(store, roots, Visit(store, todo, |trail| + 1, s).chain)
    decreases store.Keys - s.processed, |todo|
  {
    hide OnSimplePaths, Extends;
    if todo != [] {
      EnterOnSimple(store, roots, todo[0], trail, s);
      var s1 := Enter(store, todo[0], |trail| + 1, s);
      if s1.error == NoError { VisitOnSimple(store, roots, todo[1..], trail, s1); }
    }
  }

  lemma {:induction false} EnterOnSimple(
    store: Store, roots: seq<TemplateId>, id: TemplateId, trail: seq<TemplateId>, s: Search)
    requires s.error == NoError && OnSimplePaths(store, roots, s.chain)
    requires forall x :: x in trail ==> x in s.processed
    requires Extends(store, roots, trail, id)
    ensures OnSimplePaths(store, roots, Enter(store, id, |trail| + 1, s).chain)
    decreases store.Keys - s.processed, 0
  {
    if id !in s.processed && Fetchable(store, id) {
      var trail', s1 := trail + [id], Search(s.processed + {id}, s.chain + [NodeOf(store, id, |trail| + 1)], NoError);
      ExtendSimple(store, roots, trail, id);
      hide Extends, SimplePath, Visit, Enter;
      assert OnSimplePaths(store, roots, s1.chain);
      forall parent | parent in store[id].parents ensures Extends(store, roots, trail', parent) {
        LinkExtends(store, roots, trail', id, parent);
      }
      VisitOnSimple(store, roots, store[id].parents, trail', s1);
    }
  }

  lemma LinkExtends(store: Store, roots: seq<TemplateId>, trail: seq<TemplateId>, id: TemplateId, parent: TemplateId)
    requires SimplePath(store, roots, trail, id) && Fetchable(store, id) && parent in store[id].parents
    ensures Extends(store, roots, trail, parent)
  {
  }

  // ---------------------------------------------------------------- and each of them by some order

  function Without(ps: seq<TemplateId>, x: TemplateId): seq<TemplateId> {
    if ps == [] then [] else if ps[0] == x then ps[1..] else [ps[0]] + Without(ps[1..], x)
  }

  /** The list with x moved to its front. */
  function Lead(ps: seq<TemplateId>, x: TemplateId): seq<TemplateId> {
    if x in ps then [x] + Without(ps, x) else ps
  }

  lemma {:induction false} LeadReorders(ps: seq<TemplateId>, x: TemplateId)
    ensures multiset(Lead(ps, x)) == multiset(ps)
  {
    if x in ps {
      assert ps == [ps[0]] + ps[1..];
      if ps[0] != x {
        LeadReorders(ps[1..], x);
        assert multiset(Lead(ps[1..], x)) == multiset{x} + multiset(Without(ps[1..], x));
      }
    }
  }

  function IndexIn(p: seq<TemplateId>, id: TemplateId): (i: nat)
    requires id in p
    ensures i < |p| && p[i] == id
  {
    if p[0] == id then 0 else 1 + IndexIn(p[1..], id)
  }

  /** Every list led by the next template of the path. */
  function Along(store: Store, p: seq<TemplateId>): Store {
    map id | id in store ::
      if store[id].Found? && id in p && IndexIn(p, id) < |p| - 1
      then Found(store[id].macros, Lead(store[id].parents, p[IndexIn(p, id) + 1]))
      else store[id]
  }

  lemma AlongReorders(store: Store, roots: seq<TemplateId>, p: seq<TemplateId>)
    requires p != []
    ensures Reordered(store, roots, Along(store, p), Lead(roots, p[0]))
  {
    LeadReorders(roots, p[0]);
    forall id | id in store && store[id].Found? && id in p && IndexIn(p, id) < |p| - 1
      ensures multiset(Along(store, p)[id].parents) == multiset(store[id].parents)
    {
      LeadReorders(store[id].parents, p[IndexIn(p, id) + 1]);
    }
  }

  lemma {:induction false} VisitKeepsChain(store: Store, todo: seq<TemplateId>, depth: nat, s: Search)
    ensures s.chain <= Visit(store, todo, depth, s).chain
    decreases store.Keys - s.processed, |todo|
  {
    if todo != [] && s.error == NoError {
      EnterKeepsChain(store, todo[0], depth, s);
      VisitKeepsChain(store, todo[1..], depth, Enter(store, todo[0], depth, s));
    }
  }

  lemma {:induction false} EnterKeepsChain(store: Store, id: TemplateId, depth: nat, s: Search)
    requires s.error == NoError
    ensures s.chain <= Enter(store, id, depth, s).chain
    decreases store.Keys - s.processed, 0
  {
    if id !in s.processed && Fetchable(store, id) {
      var s1 := Search(s.processed + {id}, s.chain + [NodeOf(store, id, depth)], NoError);
      VisitKeepsChain(store, store[id].parents, depth + 1, s1);
    }
  }

  /** From there on each template of the path leads the list in which the search looks for it. */
  ghost predicate Led(store: Store, p: seq<TemplateId>, from: nat) {
    forall i :: from <= i < |p| - 1 ==>
      Fetchable(store, p[i]) && store[p[i]].parents != [] && store[p[i]].parents[0] == p[i + 1]
  }

  /** The rest of the path is recorded, each template at its place. */
  predicate RecordedFrom(p: seq<TemplateId>, i: nat, chain: seq<TemplateNode>) {
    forall j :: i <= j < |p| ==> RecordedAt(chain, p[j], j + 1)
  }

  lemma RecordedStays(chain: seq<TemplateNode>, chain': seq<TemplateNode>, id: TemplateId, n: nat)
    requires RecordedAt(chain, id, n) && chain <= chain'
    ensures RecordedAt(chain', id, n)
  {
    var i :| 0 <= i < |chain| && chain[i].id == id && chain[i].depth == n;
    assert chain'[i] == chain[i];
  }

  lemma AllStay(p: seq<TemplateId>, i: nat, chain: seq<TemplateNode>, chain': seq<TemplateNode>)
    requires RecordedFrom(p, i, chain) && chain <= chain'
    ensures RecordedFrom(p, i, chain')
  {
    forall j | i <= j < |p| ensures RecordedAt(chain', p[j], j + 1) { RecordedStays(chain, chain', p[j], j + 1); }
  }

  /** The search goes along the path where nothing of it has been met yet. */
  lemma {:induction false} Follows(store: Store, p: seq<TemplateId>, i: nat, s: Search)
    requires i < |p| && Distinct(p) && Led(store, p, i) && Fetchable(store, p[|p| - 1]) && s.error == NoError
    requires forall j :: i <= j < |p| ==> p[j] !in s.processed
    ensures RecordedFrom(p, i, Enter(store, p[i], i + 1, s).chain)
    decreases |p| - i
  {
    var s1 := Search(s.processed + {p[i]}, s.chain + [NodeOf(store, p[i], i + 1)], NoError);
    var ps := store[p[i]].parents;
    assert Enter(store, p[i], i + 1, s) == Visit(store, ps, i + 2, s1);
    VisitKeepsChain(store, ps, i + 2, s1);
    assert s1.chain[|s.chain|] == NodeOf(store, p[i], i + 1);
    RecordedStays(s1.chain, Visit(store, ps, i + 2, s1).chain, p[i], i + 1);
    if i < |p| - 1 {
      Follows(store, p, i + 1, s1);
      var s2 := Enter(store, p[i + 1], i + 2, s1);
      assert Visit(store, ps, i + 2, s1) == Visit(store, ps[1..], i + 2, s2);
      VisitKeepsChain(store, ps[1..], i + 2, s2);
      AllStay(p, i + 1, s2.chain, Visit(store, ps, i + 2, s1).chain);
    }
  }

  lemma {:induction false} IndexInDistinct(p: seq<TemplateId>, i: nat)
    requires Distinct(p) && i < |p|
    ensures IndexIn(p, p[i]) == i
  {
    if i > 0 { IndexInDistinct(p[1..], i - 1); }
  }

  lemma AlongLeads(store: Store, roots: seq<TemplateId>, p: seq<TemplateId>)
    requires Path(store, roots, p) && Distinct(p)
    ensures Led(Along(store, p), p, 0)
  {
    forall i | 0 <= i < |p| - 1
      ensures Fetchable(Along(store, p), p[i])
      ensures var ps := Along(store, p)[p[i]].parents; ps != [] && ps[0] == p[i + 1]
    {
      IndexInDistinct(p, i);
    }
  }

  lemma LedIsRecorded(store: Store, roots: seq<TemplateId>, p: seq<TemplateId>)
    requires p != [] && Distinct(p) && Led(store, p, 0) && Fetchable(store, p[|p| - 1])
    requires roots != [] && roots[0] == p[0]
    ensures RecordedFrom(p, 0, ChainOf(store, roots))
  {
    var s0 := Search({}, [], NoError);
    Follows(store, p, 0, s0);
    VisitKeepsChain(store, roots[1..], 1, Enter(store, p[0], 1, s0));
    AllStay(p, 0, Enter(store, p[0], 1, s0).chain, ChainOf(store, roots));
  }

  /** In the order that leads along a simple path each of its templates is recorded at its place. */
  lemma SimplePathIsRecorded(store: Store, roots: seq<TemplateId>, p: seq<TemplateId>)
    requires Path(store, roots, p) && Distinct(p) && Fetchable(store, p[|p| - 1])
    ensures var store', roots' := Along(store, p), Lead(roots, p[0]);
      && Reordered(store, roots, store', roots') && Fetchable(store', p[|p| - 1])
      && RecordedFrom(p, 0, ChainOf(store', roots'))
  {
    var store', roots' := Along(store, p), Lead(roots, p[0]);
    AlongReorders(store, roots, p);
    AlongLeads(store, roots, p);
    assert p[|p| - 1] in store' && roots' != [] && roots'[0] == p[0];
    assert Fetchable(store', p[|p| - 1]);
    hide Along, Lead, Reordered, Path;
    LedIsRecorded(store', roots', p);
  }

  // ---------------------------------------------------------------- the law

  ghost predicate Recordable(store: Store, roots: seq<TemplateId>, id: TemplateId, n: nat) {
    exists store', roots' :: Reordered(store, roots, store', roots') && RecordedAt(ChainOf(store', roots'), id, n)
  }

  lemma RecordedIsSimple(store: Store, roots: seq<TemplateId>, id: TemplateId, n: nat)
    requires RecordedAt(ChainOf(store, roots), id, n)
    ensures exists p :: SimplePath(store, roots, p, id) && |p| == n
  {
    VisitOnSimple(store, roots, roots, [], Search({}, [], NoError));
  }

  /** Some order of the lists records a template at depth n if and only if some parent path
      of length n without repetition leads to it. */
  lemma RecordableIff(store: Store, roots: seq<TemplateId>, id: TemplateId, n: nat)
    requires Resolvable(store, roots)
    ensures Recordable(store, roots, id, n) <==> exists p :: SimplePath(store, roots, p, id) && |p| == n
  {
    if Recordable(store, roots, id, n) {
      var store', roots' :| Reordered(store, roots, store', roots') && RecordedAt(ChainOf(store', roots'), id, n);
      RecordedIsSimple(store', roots', id, n);
      var p :| SimplePath(store', roots', p, id) && |p| == n;
      SamePaths(store, roots, store', roots', p);
      assert SimplePath(store, roots, p, id);
    }
    if p :| SimplePath(store, roots, p, id) && |p| == n {
      assert AtDepth(store, roots, id, n);
      SimplePathIsRecorded(store, roots, p);
      var store', roots' := Along(store, p), Lead(roots, p[0]);
      assert RecordedAt(ChainOf(store', roots'), id, n);
    }
  }

  /** All recorded depths are distances. */
  ghost predicate Exact(store: Store, roots: seq<TemplateId>) {
    forall id, n: nat :: RecordedAt(ChainOf(store, roots), id, n) ==> Distance(store, roots, id, n)
  }

  ghost predicate AlwaysExact(store: Store, roots: seq<TemplateId>) {
    forall store', roots' :: Reordered(store, roots, store', roots') ==> Exact(store', roots')
  }

  ghost predicate SimpleIsShortest(store: Store, roots: seq<TemplateId>) {
    forall p, id :: SimplePath(store, roots, p, id) ==> Distance(store, roots, id, |p|)
  }

  /** Whatever the order of the lists, the search records the documented depths, if and only
      if every parent path without repetition is a shortest one. */
  lemma AlwaysExactIff(store: Store, roots: seq<TemplateId>)
    requires Resolvable(store, roots)
    ensures AlwaysExact(store, roots) <==> SimpleIsShortest(store, roots)
  {
    hide Distance, Reordered, RecordedAt, SimplePath, Resolvable;
    if SimpleIsShortest(store, roots) {
      forall store', roots' | Reordered(store, roots, store', roots') ensures Exact(store', roots') {
        forall id, n: nat | RecordedAt(ChainOf(store', roots'), id, n) ensures Distance(store', roots', id, n) {
          RecordableIff(store, roots, id, n);
          assert Recordable(store, roots, id, n);
          SameDepths(store, roots, store', roots', id, n);
        }
      }
    }
    if AlwaysExact(store, roots) {
      forall p, id | SimplePath(store, roots, p, id) ensures Distance(store, roots, id, |p|) {
        RecordableIff(store, roots, id, |p|);
        var store', roots' :|
          Reordered(store, roots, store', roots') && RecordedAt(ChainOf(store', roots'), id, |p|);
        assert Exact(store', roots');
        SameDepths(store, roots, store', roots', id, |p|);
      }
    }
  }
}

/** Resolving the template hierarchy of a host (syncer/syncer.go, buildTemplateChain).
    The template store is finite but may be cyclic and may fail. */
module TemplateChains {

  type TemplateId = string

  datatype Macro = Macro(name: string, value: string)

  /** What the API answers for one template; an id missing from the store is "not found". */
  datatype Answer = Fault | Found(macros: seq<Macro>, parents: seq<TemplateId>)

  type Store = map<TemplateId, Answer>

  datatype TemplateNode = TemplateNode(
    id: TemplateId, depth: nat, macros: map<string, string>, parentIds: seq<TemplateId>)

  datatype BuildError = NoError | FetchFailed(id: TemplateId) | NotFound(id: TemplateId)

  datatype Search = Search(processed: set<TemplateId>, chain: seq<TemplateNode>, error: BuildError)

  /** The macros of one object; of two with the same name the later one stays. */
  function MacroMap(ms: seq<Macro>): map<string, string> {
    if ms == [] then map[] else MacroMap(ms[..|ms| - 1])[ms[|ms| - 1].name := ms[|ms| - 1].value]
  }

  predicate Names(ms: seq<Macro>, name: string) {
    exists i :: 0 <= i < |ms| && ms[i].name == name
  }

  /** Entry i is the last one with this name. */
  predicate LastNamed(ms: seq<Macro>, i: nat, name: string) {
    i < |ms| && ms[i].name == name && forall j :: i < j < |ms| ==> ms[j].name != name
  }

  /** The object gives the macro this value: the one of the last entry with the name. */
  predicate Gives(ms: seq<Macro>, name: string, value: string) {
    exists i :: 0 <= i < |ms| && LastNamed(ms, i, name) && ms[i].value == value
  }

  /** The map has exactly the names of the list, each with the value the list gives it. */
  ghost predicate Carries(m: map<string, string>, ms: seq<Macro>) {
    forall name :: (name in m <==> Names(ms, name)) && (name in m ==> Gives(ms, name, m[name]))
  }

  lemma {:induction false} MacroMapCarries(ms: seq<Macro>)
    ensures Carries(MacroMap(ms), ms)
  {
    if ms != [] {
      var n, m := |ms| - 1, MacroMap(ms);
      MacroMapCarries(ms[..n]);
      forall name ensures (name in m <==> Names(ms, name)) && (name in m ==> Gives(ms, name, m[name])) {
        if name == ms[n].name {
          assert LastNamed(ms, n, name);
        } else {
          EarlierNames(ms, name);
          if name in m { EarlierGives(ms, name, m[name]); }
        }
      }
    }
  }

  lemma EarlierNames(ms: seq<Macro>, name: string)
    requires ms != [] && ms[|ms| - 1].name != name
    ensures Names(ms, name) <==> Names(ms[..|ms| - 1], name)
  {
    var front := ms[..|ms| - 1];
    if Names(front, name) {
      var i :| 0 <= i < |front| && front[i].name == name;
      assert ms[i].name == name;
    }
    if Names(ms, name) {
      var i :| 0 <= i < |ms| && ms[i].name == name;
      assert front[i].name == name;
    }
  }

  lemma EarlierGives(ms: seq<Macro>, name: string, value: string)
    requires ms != [] && ms[|ms| - 1].name != name && Gives(ms[..|ms| - 1], name, value)
    ensures Gives(ms, name, value)
  {
    var i :| 0 <= i < |ms| - 1 && LastNamed(ms[..|ms| - 1], i, name) && ms[..|ms| - 1][i].value == value;
    forall j | i < j < |ms| ensures ms[j].name != name {
      if j < |ms| - 1 { assert ms[..|ms| - 1][j] == ms[j]; }
    }
    assert LastNamed(ms, i, name);
  }

  lemma OnlyOneGiven(ms: seq<Macro>, name: string, v: string, w: string)
    requires Gives(ms, name, v) && Gives(ms, name, w)
    ensures v == w
  {
    var i :| 0 <= i < |ms| && LastNamed(ms, i, name) && ms[i].value == v;
    var j :| 0 <= j < |ms| && LastNamed(ms, j, name) && ms[j].value == w;
    assert i == j;
  }

  predicate Fetchable(store: Store, id: TemplateId) {
    id in store && store[id].Found?
  }

  function NodeOf(store: Store, id: TemplateId, depth: nat): TemplateNode
    requires Fetchable(store, id)
  {
    TemplateNode(id, depth, MacroMap(store[id].macros), store[id].parents)
  }

  /** Depth-first visit of `todo`, all at the same depth: the reference for ChainBuilder. */
  function Visit(store: Store, todo: seq<TemplateId>, depth: nat, s: Search): (r: Search)
    ensures s.processed <= r.processed
    ensures s.error != NoError ==> r == s
    decreases store.Keys - s.processed, |todo|
  {
    if todo == [] || s.error != NoError then s
    else Visit(store, todo[1..], depth, Enter(store, todo[0], depth, s))
  }

  function Enter(store: Store, id: TemplateId, depth: nat, s: Search): (r: Search)
    requires s.error == NoError
    ensures s.processed <= r.processed
    decreases store.Keys - s.processed, 0
  {
    if id in s.processed then s
    else if id !in store then s.(processed := s.processed + {id}, error := NotFound(id))
    else if store[id].Fault? then s.(processed := s.processed + {id}, error := FetchFailed(id))
    else Visit(store, store[id].parents, depth + 1,
               Search(s.processed + {id}, s.chain + [NodeOf(store, id, depth)], NoError))
  }

  class ChainBuilder {
    const store: Store
    var processed: set<TemplateId>
    var chain: seq<TemplateNode>

    constructor (store: Store)
      ensures this.store == store && processed == {} && chain == []
    {
      this.store := store;
      processed, chain := {}, [];
    }

    function View(error: BuildError): Search
      reads this
    {
      Search(processed, chain, error)
    }

    method Build(id: TemplateId, depth: nat) returns (error: BuildError)
      modifies this
      ensures View(error) == Enter(store, id, depth, old(View(NoError)))
      decreases store.Keys - processed
    {
      if id in processed {
        return NoError;
      }
      processed := processed + {id};
      if id !in store {
        return NotFound(id);
      }
      if store[id].Fault? {
        return FetchFailed(id);
      }
      var macros: map<string, string> := map[];
      var ms := store[id].macros;
      for k := 0 to |ms|
        invariant macros == MacroMap(ms[..k])
      {
        assert ms[..k + 1][..k] == ms[..k];
        macros := macros[ms[k].name := ms[k].value];
      }
      assert ms[..|ms|] == ms;
      var parentIds := store[id].parents;
      chain := chain + [TemplateNode(id, depth, macros, parentIds)];
      ghost var entered := View(NoError);
      for k := 0 to |parentIds|
        invariant entered.processed <= processed
        invariant Visit(store, parentIds, depth + 1, entered) == Visit(store, parentIds[k..], depth + 1, View(NoError))
      {
        assert parentIds[k..][1..] == parentIds[k + 1..];
        error := Build(parentIds[k], depth + 1);
        if error != NoError {
          return;
        }
      }
      return NoError;
    }
  }

  method BuildTemplateChain(store: Store, roots: seq<TemplateId>) returns (chain: seq<TemplateNode>, error: BuildError)
    ensures var r := Visit(store, roots, 1, Search({}, [], NoError));
      error == r.error && chain == if r.error == NoError then r.chain else []
    ensures forall k :: 0 <= k < |chain| ==>
      && Fetchable(store, chain[k].id) && chain[k].parentIds == store[chain[k].id].parents
      && Carries(chain[k].macros, store[chain[k].id].macros)
  {
    var b := new ChainBuilder(store);
    for k := 0 to |roots|
      invariant fresh(b) && b.store == store
      invariant Visit(store, roots, 1, Search({}, [], NoError)) == Visit(store, roots[k..], 1, b.View(NoError))
    {
      assert roots[k..][1..] == roots[k + 1..];
      var e := b.Build(roots[k], 1);
      if e != NoError {
        return [], e;
      }
    }
    ChainIsReachableSet(store, roots);
    forall k | 0 <= k < |b.chain| ensures Carries(b.chain[k].macros, store[b.chain[k].id].macros) {
      MacroMapCarries(store[b.chain[k].id].macros);
    }
    return b.chain, NoError;
  }

  // ---------------------------------------------------------------- what it computes

  /** A chain of parent links starting at a template linked to the host. */
  predicate Path(store: Store, roots: seq<TemplateId>, p: seq<TemplateId>) {
    && p != [] && p[0] in roots
    && forall i :: 0 <= i < |p| - 1 ==> Fetchable(store, p[i]) && p[i + 1] in store[p[i]].parents
  }

  ghost predicate AtDepth(store: Store, roots: seq<TemplateId>, id: TemplateId, d: nat) {
    exists p :: Path(store, roots, p) && |p| == d && p[d - 1] == id
  }

  ghost predicate Reachable(store: Store, roots: seq<TemplateId>, id: TemplateId) {
    exists d: nat :: AtDepth(store, roots, id, d)
  }

  predicate InChain(chain: seq<TemplateNode>, id: TemplateId) {
    exists i :: 0 <= i < |chain| && chain[i].id == id
  }

  /** Each node is the template itself, at the length of a real parent path. */
  ghost predicate NodesOk(store: Store, roots: seq<TemplateId>, chain: seq<TemplateNode>) {
    && (forall i :: 0 <= i < |chain| ==>
          && Fetchable(store, chain[i].id) && chain[i] == NodeOf(store, chain[i].id, chain[i].depth)
          && AtDepth(store, roots, chain[i].id, chain[i].depth))
    && (forall i, j :: 0 <= i < j < |chain| ==> chain[i].id != chain[j].id)
  }

  ghost predicate ErrorOk(store: Store, roots: seq<TemplateId>, e: BuildError) {
    match e
    case NoError => true
    case FetchFailed(id) => Reachable(store, roots, id) && id in store && store[id].Fault?
    case NotFound(id) => Reachable(store, roots, id) && id !in store
  }

  /** Invariant of the search: outside the stack, parents of processed templates are processed. */
  ghost predicate Good(store: Store, roots: seq<TemplateId>, s: Search, stack: set<TemplateId>) {
    && NodesOk(store, roots, s.chain)
    && (forall id :: id in s.processed <==> InChain(s.chain, id))
    && (forall id, p ::
          id in s.processed && id !in stack && Fetchable(store, id) && p in store[id].parents ==> p in s.processed)
  }

  lemma ParentDepth(store: Store, roots: seq<TemplateId>, id: TemplateId, d: nat, parent: TemplateId)
    requires AtDepth(store, roots, id, d) && Fetchable(store, id) && parent in store[id].parents
    ensures AtDepth(store, roots, parent, d + 1)
  {
    var p :| Path(store, roots, p) && |p| == d && p[d - 1] == id;
    assert Path(store, roots, p + [parent]);
  }

  lemma Append(store: Store, roots: seq<TemplateId>, id: TemplateId, d: nat, s: Search, stack: set<TemplateId>)
    requires Good(store, roots, s, stack) && AtDepth(store, roots, id, d) && id !in s.processed && Fetchable(store, id)
    ensures Good(store, roots, Search(s.processed + {id}, s.chain + [NodeOf(store, id, d)], NoError), stack + {id})
  {
    var s' := Search(s.processed + {id}, s.chain + [NodeOf(store, id, d)], NoError);
    assert forall i :: 0 <= i < |s.chain| ==> s'.chain[i] == s.chain[i];
    assert s'.chain[|s.chain|].id == id;
    forall x ensures x in s'.processed <==> InChain(s'.chain, x) {
      if InChain(s.chain, x) {
        var i :| 0 <= i < |s.chain| && s.chain[i].id == x;
        assert s'.chain[i].id == x;
      }
    }
    forall i | 0 <= i < |s.chain| ensures s'.chain[i].id != id {
      assert InChain(s.chain, s.chain[i].id);
    }
  }

  lemma {:induction false} VisitGood(
    store: Store, roots: seq<TemplateId>, todo: seq<TemplateId>, d: nat, s: Search, stack: set<TemplateId>)
    requires Good(store, roots, s, stack) && s.error == NoError
    requires forall id :: id in todo ==> AtDepth(store, roots, id, d)
    ensures var r := Visit(store, todo, d, s);
      && ErrorOk(store, roots, r.error)
      && (r.error == NoError ==> Good(store, roots, r, stack) && forall id :: id in todo ==> id in r.processed)
    decreases store.Keys - s.processed, |todo|
  {
    hide AtDepth, Good;
    if todo != [] {
      EnterGood(store, roots, todo[0], d, s, stack);
      var s1 := Enter(store, todo[0], d, s);
      if s1.error == NoError {
        VisitGood(store, roots, todo[1..], d, s1, stack);
      }
    }
  }

  lemma {:induction false} EnterGood(
    store: Store, roots: seq<TemplateId>, id: TemplateId, d: nat, s: Search, stack: set<TemplateId>)
    requires Good(store, roots, s, stack) && s.error == NoError && AtDepth(store, roots, id, d)
    ensures var r := Enter(store, id, d, s);
      && ErrorOk(store, roots, r.error)
      && (r.error == NoError ==> Good(store, roots, r, stack) && id in r.processed)
    decreases store.Keys - s.processed, 0
  {
    hide AtDepth, NodesOk;
    if id !in s.processed && Fetchable(store, id) {
      var s1 := Search(s.processed + {id}, s.chain + [NodeOf(store, id, d)], NoError);
      Append(store, roots, id, d, s, stack);
      forall p | p in store[id].parents ensures AtDepth(store, roots, p, d + 1) {
        ParentDepth(store, roots, id, d, p);
      }
      VisitGood(store, roots, store[id].parents, d + 1, s1, stack + {id});
    }
  }

  lemma {:induction false} PathProcessed(store: Store, roots: seq<TemplateId>, s: Search, p: seq<TemplateId>)
    requires Good(store, roots, s, {}) && Path(store, roots, p)
    requires forall id :: id in roots ==> id in s.processed
    ensures p[|p| - 1] in s.processed
  {
    var n := |p| - 1;
    if n > 0 {
      assert Path(store, roots, p[..n]);
      PathProcessed(store, roots, s, p[..n]);
      assert Fetchable(store, p[n - 1]) && p[n - 1 + 1] in store[p[n - 1]].parents;
    }
  }

  lemma RootsAtDepthOne(store: Store, roots: seq<TemplateId>, id: TemplateId)
    requires id in roots
    ensures AtDepth(store, roots, id, 1)
  {
    assert Path(store, roots, [id]);
  }

  /** A completed search has processed what can be reached and nothing else. */
  lemma ProcessedIsReachable(store: Store, roots: seq<TemplateId>, s: Search, id: TemplateId)
    requires Good(store, roots, s, {}) && forall x :: x in roots ==> x in s.processed
    ensures id in s.processed <==> Reachable(store, roots, id)
  {
    if id in s.processed {
      var i :| 0 <= i < |s.chain| && s.chain[i].id == id;
      assert AtDepth(store, roots, id, s.chain[i].depth);
    }
    if Reachable(store, roots, id) {
      var d: nat :| AtDepth(store, roots, id, d);
      var p :| Path(store, roots, p) && |p| == d && p[d - 1] == id;
      PathProcessed(store, roots, s, p);
    }
  }

  /** On any graph, cycles included: success means the chain holds exactly the reachable
      templates, each once and at the depth of a real path; failure means some reachable
      template could not be fetched. */
  lemma ChainIsReachableSet(store: Store, roots: seq<TemplateId>)
    ensures var r := Visit(store, roots, 1, Search({}, [], NoError));
      && ErrorOk(store, roots, r.error)
      && (r.error == NoError ==>
            && NodesOk(store, roots, r.chain)
            && forall id :: InChain(r.chain, id) <==> Reachable(store, roots, id))
      && (r.error == NoError <==> forall id :: Reachable(store, roots, id) ==> Fetchable(store, id))
  {
    hide Visit, AtDepth, Reachable;
    var s0 := Search({}, [], NoError);
    forall id | id in roots ensures AtDepth(store, roots, id, 1) {
      RootsAtDepthOne(store, roots, id);
    }
    VisitGood(store, roots, roots, 1, s0, {});
    var r := Visit(store, roots, 1, s0);
    if r.error == NoError {
      forall id ensures InChain(r.chain, id) <==> Reachable(store, roots, id) {
        ProcessedIsReachable(store, roots, r, id);
      }
    }
  }

  // ---------------------------------------------------------------- depth and distance

  /** The documented depth: the length of the shortest parent path. */
  ghost predicate Distance(store: Store, roots: seq<TemplateId>, id: TemplateId, d: nat) {
    AtDepth(store, roots, id, d) && forall e: nat :: AtDepth(store, roots, id, e) ==> d <= e
  }

  /** No link of the chain reaches a node two or more levels deeper than its child, and
      every template linked to the host is at depth 1. */
  predicate NoShortcut(roots: seq<TemplateId>, chain: seq<TemplateNode>) {
    && (forall i :: 0 <= i < |chain| && chain[i].id in roots ==> chain[i].depth == 1)
    && (forall i, j :: 0 <= i < |chain| && 0 <= j < |chain| && chain[j].id in chain[i].parentIds ==>
          chain[j].depth <= chain[i].depth + 1)
  }

  lemma {:induction false} DepthAtMostPath(
    store: Store, roots: seq<TemplateId>, chain: seq<TemplateNode>, p: seq<TemplateId>, k: nat)
    requires NodesOk(store, roots, chain) && NoShortcut(roots, chain)
    requires forall id :: Reachable(store, roots, id) ==> InChain(chain, id)
    requires Path(store, roots, p) && k < |chain| && chain[k].id == p[|p| - 1]
    ensures chain[k].depth <= |p|
  {
    var n := |p| - 1;
    if n > 0 {
      assert Path(store, roots, p[..n]) && p[..n][n - 1] == p[n - 1];
      assert AtDepth(store, roots, p[n - 1], n);
      assert InChain(chain, p[n - 1]);
      var i :| 0 <= i < |chain| && chain[i].id == p[n - 1];
      DepthAtMostPath(store, roots, chain, p[..n], i);
      assert p[n - 1 + 1] in store[p[n - 1]].parents;
    }
  }

  lemma DistanceStep(store: Store, roots: seq<TemplateId>, chain: seq<TemplateNode>, i: nat, j: nat)
    requires NodesOk(store, roots, chain) && i < |chain| && j < |chain| && chain[j].id in chain[i].parentIds
    requires Distance(store, roots, chain[j].id, chain[j].depth)
    ensures chain[j].depth <= chain[i].depth + 1
  {
    ParentDepth(store, roots, chain[i].id, chain[i].depth, chain[j].id);
  }

  /** A recorded depth is never below the distance, and all recorded depths are the
      distances if and only if the chain has no shortcut. */
  lemma DepthsAreDistances(store: Store, roots: seq<TemplateId>)
    requires Visit(store, roots, 1, Search({}, [], NoError)).error == NoError
    ensures var chain := Visit(store, roots, 1, Search({}, [], NoError)).chain;
      && (forall k, d: nat :: 0 <= k < |chain| && Distance(store, roots, chain[k].id, d) ==> d <= chain[k].depth)
      && ((forall k :: 0 <= k < |chain| ==> Distance(store, roots, chain[k].id, chain[k].depth))
          <==> NoShortcut(roots, chain))
  {
    ChainIsReachableSet(store, roots);
    var chain := Visit(store, roots, 1, Search({}, [], NoError)).chain;
    if NoShortcut(roots, chain) {
      forall k | 0 <= k < |chain| ensures Distance(store, roots, chain[k].id, chain[k].depth) {
        forall e: nat | AtDepth(store, roots, chain[k].id, e) ensures chain[k].depth <= e {
          var p :| Path(store, roots, p) && |p| == e && p[e - 1] == chain[k].id;
          DepthAtMostPath(store, roots, chain, p, k);
        }
      }
    }
    if forall k :: 0 <= k < |chain| ==> Distance(store, roots, chain[k].id, chain[k].depth) {
      forall i | 0 <= i < |chain| && chain[i].id in roots ensures chain[i].depth == 1 {
        assert Path(store, roots, [chain[i].id]);
        assert AtDepth(store, roots, chain[i].id, 1);
      }
      forall i, j | 0 <= i < |chain| && 0 <= j < |chain| && chain[j].id in chain[i].parentIds
        ensures chain[j].depth <= chain[i].depth + 1
      {
        DistanceStep(store, roots, chain, i, j);
      }
    }
  }

  /** Where every template has a single path, recorded depths are distances. */
  lemma UniquePathsGiveDistances(store: Store, roots: seq<TemplateId>)
    requires Visit(store, roots, 1, Search({}, [], NoError)).error == NoError
    requires forall p, q :: Path(store, roots, p) && Path(store, roots, q) && p[|p| - 1] == q[|q| - 1] ==> p == q
    ensures NoShortcut(roots, Visit(store, roots, 1, Search({}, [], NoError)).chain)
  {
    ChainIsReachableSet(store, roots);
    var chain := Visit(store, roots, 1, Search({}, [], NoError)).chain;
    forall k | 0 <= k < |chain| ensures Distance(store, roots, chain[k].id, chain[k].depth) {
      var p :| Path(store, roots, p) && |p| == chain[k].depth && p[|p| - 1] == chain[k].id;
      forall e: nat | AtDepth(store, roots, chain[k].id, e) ensures chain[k].depth <= e {
        var q :| Path(store, roots, q) && |q| == e && q[e - 1] == chain[k].id;
        assert p == q;
      }
    }
    DepthsAreDistances(store, roots);
  }
}

/** Which macro value a host ends up with (syncer/syncer.go, mergeMacros). */
module MacroMerges {
  import opened Options
  import opened TemplateChains

  /** Merging a host without templates indexes the first node of an empty chain. */
  datatype Outcome = Merged(macros: map<string, string>) | Panicked

  predicate Descending(chain: seq<TemplateNode>) {
    forall i, j :: 0 <= i < j < |chain| ==> chain[i].depth >= chain[j].depth
  }

  predicate Defined(chain: seq<TemplateNode>, name: string) {
    exists i :: 0 <= i < |chain| && name in chain[i].macros
  }

  /** Node i defines the macro, and no node defining it is at a smaller depth. */
  predicate LeastDepth(chain: seq<TemplateNode>, i: int, name: string) {
    && 0 <= i < |chain| && name in chain[i].macros
    && forall j :: 0 <= j < |chain| && name in chain[j].macros ==> chain[i].depth <= chain[j].depth
  }

  function Lookup(m: map<string, string>, name: string): Option<string> {
    if name in m then Some(m[name]) else None
  }

  /** The precedence: host, then a least-depth template, then global. The sort is not
      stable, so among templates at the same depth any may win. */
  ghost predicate Effective(
    globals: seq<Macro>, chain: seq<TemplateNode>, host: seq<Macro>, name: string, v: Option<string>) {
    if Names(host, name) then v.Some? && Gives(host, name, v.value)
    else if Defined(chain, name) then exists i :: LeastDepth(chain, i, name) && v == Some(chain[i].macros[name])
    else if Names(globals, name) then v.Some? && Gives(globals, name, v.value)
    else v == None
  }

  /** Puts a node after the last one that is at least as deep. */
  method Insert(sorted: seq<TemplateNode>, node: TemplateNode) returns (r: seq<TemplateNode>)
    requires Descending(sorted)
    ensures multiset(r) == multiset(sorted) + multiset{node} && Descending(r)
  {
    var p := 0;
    while p < |sorted| && sorted[p].depth >= node.depth
      invariant 0 <= p <= |sorted|
      invariant forall i :: 0 <= i < p ==> sorted[i].depth >= node.depth
    {
      p := p + 1;
    }
    r := sorted[..p] + [node] + sorted[p..];
    SplitMultiset(sorted, p, node);
    forall i, j | 0 <= i < j < |r| ensures r[i].depth >= r[j].depth {
      assert r[i] == if i < p then sorted[i] else if i == p then node else sorted[i - 1];
      assert r[j] == if j < p then sorted[j] else if j == p then node else sorted[j - 1];
      assert p < |sorted| ==> node.depth >= sorted[p].depth;
    }
  }

  lemma SplitMultiset(s: seq<TemplateNode>, p: nat, node: TemplateNode)
    requires p <= |s|
    ensures multiset(s[..p] + [node] + s[p..]) == multiset(s) + multiset{node}
  {
    assert s == s[..p] + s[p..];
  }

  /** Stands for the library sort: callers may rely on its contract only. */
  method SortByDepthDescending(chain: seq<TemplateNode>) returns (sorted: seq<TemplateNode>)
    ensures multiset(sorted) == multiset(chain) && Descending(sorted)
  {
    sorted := [];
    for k := 0 to |chain|
      invariant multiset(sorted) == multiset(chain[..k]) && Descending(sorted)
    {
      assert chain[..k + 1] == chain[..k] + [chain[k]];
      sorted := Insert(sorted, chain[k]);
    }
    assert chain[..|chain|] == chain;
  }

  method WriteAll(base: map<string, string>, ms: seq<Macro>) returns (r: map<string, string>)
    ensures r == base + MacroMap(ms)
  {
    r := base;
    for k := 0 to |ms|
      invariant r == base + MacroMap(ms[..k])
    {
      assert ms[..k + 1][..k] == ms[..k];
      r := r[ms[k].name := ms[k].value];
    }
    assert ms[..|ms|] == ms;
  }

  /** One template written over what is there, name by name in any order. */
  method WriteNode(base: map<string, string>, macros: map<string, string>) returns (r: map<string, string>)
    ensures r == base + macros
  {
    r := base;
    var left := macros.Keys;
    while left != {}
      invariant left <= macros.Keys
      invariant r.Keys == base.Keys + (macros.Keys - left)
      invariant forall x :: x in r ==> r[x] == if x in macros && x !in left then macros[x] else base[x]
      decreases left
    {
      var x :| x in left;
      r, left := r[x := macros[x]], left - {x};
    }
  }

  function Overlay(base: map<string, string>, chain: seq<TemplateNode>): map<string, string> {
    if chain == [] then base else Overlay(base, chain[..|chain| - 1]) + chain[|chain| - 1].macros
  }

  predicate LastDefinition(chain: seq<TemplateNode>, i: int, name: string) {
    && 0 <= i < |chain| && name in chain[i].macros
    && forall j :: i < j < |chain| ==> name !in chain[j].macros
  }

  /** Writing the templates over the base leaves, for every name, the last definition. */
  lemma {:induction false} OverlayLookup(base: map<string, string>, chain: seq<TemplateNode>, name: string)
    returns (i: int)
    ensures if LastDefinition(chain, i, name)
      then Lookup(Overlay(base, chain), name) == Some(chain[i].macros[name])
      else !Defined(chain, name) && Lookup(Overlay(base, chain), name) == Lookup(base, name)
  {
    i := -1;
    if chain != [] {
      var n := |chain| - 1;
      if name in chain[n].macros {
        i := n;
      } else {
        i := OverlayLookup(base, chain[..n], name);
        if !LastDefinition(chain[..n], i, name) {
          forall k | 0 <= k < n ensures name !in chain[k].macros { assert chain[..n][k] == chain[k]; }
        }
      }
    }
  }

  lemma SameMembers(a: seq<TemplateNode>, b: seq<TemplateNode>, i: nat) returns (k: nat)
    requires multiset(a) == multiset(b) && i < |a|
    ensures k < |b| && b[k] == a[i]
  {
    assert a[i] in multiset(b);
    k :| k < |b| && b[k] == a[i];
  }

  lemma SortedOverlayEffective(
    globals: seq<Macro>, chain: seq<TemplateNode>, sorted: seq<TemplateNode>, host: seq<Macro>, name: string)
    requires multiset(sorted) == multiset(chain) && Descending(sorted)
    ensures Effective(globals, chain, host, name, Lookup(Overlay(MacroMap(globals), sorted) + MacroMap(host), name))
  {
    hide Overlay, MacroMap, Names, Gives;
    MacroMapCarries(globals);
    MacroMapCarries(host);
    var i := OverlayLookup(MacroMap(globals), sorted, name);
    forall j | 0 <= j < |chain| && name in chain[j].macros
      ensures LastDefinition(sorted, i, name) && sorted[i].depth <= chain[j].depth
    {
      var l := SameMembers(chain, sorted, j);
    }
    if LastDefinition(sorted, i, name) {
      var k := SameMembers(sorted, chain, i);
      assert LeastDepth(chain, k, name);
    }
  }

  method MergeMacros(globals: seq<Macro>, chain: seq<TemplateNode>, host: seq<Macro>) returns (r: Outcome)
    ensures r.Panicked? <==> chain == []
    ensures r.Merged? ==> forall name :: Effective(globals, chain, host, name, Lookup(r.macros, name))
  {
    var final := WriteAll(map[], globals);
    assert final == MacroMap(globals);
    var sorted := SortByDepthDescending(chain);
    for k := 0 to |sorted|
      invariant final == Overlay(MacroMap(globals), sorted[..k])
    {
      assert sorted[..k + 1][..k] == sorted[..k];
      final := WriteNode(final, sorted[k].macros);
    }
    assert sorted[..|sorted|] == sorted;
    if |sorted| == 0 {
      assert |multiset(chain)| == 0;
      return Panicked;
    }
    final := WriteAll(final, host);
    forall name ensures Effective(globals, chain, host, name, Lookup(final, name)) {
      SortedOverlayEffective(globals, chain, sorted, host, name);
    }
    assert multiset(chain) != multiset{};
    return Merged(final);
  }

  /** Template i of the chain names the macro in the store, and none that does is less deep. */
  predicate LeastDepthIn(store: Store, chain: seq<TemplateNode>, i: int, name: string) {
    && 0 <= i < |chain| && NamedIn(store, chain, i, name)
    && forall j :: 0 <= j < |chain| && NamedIn(store, chain, j, name) ==> chain[i].depth <= chain[j].depth
  }

  predicate NamedIn(store: Store, chain: seq<TemplateNode>, i: int, name: string) {
    0 <= i < |chain| && Fetchable(store, chain[i].id) && Names(store[chain[i].id].macros, name)
  }

  /** The precedence on the lists of macros that the server returned. */
  ghost predicate EffectiveIn(
    store: Store, globals: seq<Macro>, chain: seq<TemplateNode>, host: seq<Macro>, name: string, v: Option<string>) {
    if Names(host, name) then v.Some? && Gives(host, name, v.value)
    else if exists i :: NamedIn(store, chain, i, name) then
      exists i :: LeastDepthIn(store, chain, i, name) && v.Some? && Gives(store[chain[i].id].macros, name, v.value)
    else if Names(globals, name) then v.Some? && Gives(globals, name, v.value)
    else v == None
  }

  lemma NamedIffDefined(store: Store, chain: seq<TemplateNode>, i: nat, name: string)
    requires i < |chain| && Fetchable(store, chain[i].id) && Carries(chain[i].macros, store[chain[i].id].macros)
    ensures NamedIn(store, chain, i, name) <==> name in chain[i].macros
    ensures name in chain[i].macros ==>
      forall v :: Gives(store[chain[i].id].macros, name, v) <==> v == chain[i].macros[name]
  {
    if name in chain[i].macros {
      forall v | Gives(store[chain[i].id].macros, name, v) ensures v == chain[i].macros[name] {
        OnlyOneGiven(store[chain[i].id].macros, name, v, chain[i].macros[name]);
      }
    }
  }

  /** On a chain that the search has built, the merge decides by the lists of macros of the
      host, of the templates and of the globals themselves: of several entries of one list
      with the same name the last one counts, and no other entry is lost. */
  lemma MergeDecidesByLists(
    store: Store, globals: seq<Macro>, chain: seq<TemplateNode>, host: seq<Macro>, name: string, v: Option<string>)
    requires forall k :: 0 <= k < |chain| ==>
      Fetchable(store, chain[k].id) && Carries(chain[k].macros, store[chain[k].id].macros)
    ensures Effective(globals, chain, host, name, v) <==> EffectiveIn(store, globals, chain, host, name, v)
  {
    forall i | 0 <= i < |chain|
      ensures NamedIn(store, chain, i, name) <==> name in chain[i].macros
      ensures name in chain[i].macros ==>
        forall w :: Gives(store[chain[i].id].macros, name, w) <==> w == chain[i].macros[name]
    {
      NamedIffDefined(store, chain, i, name);
    }
    hide Names, Gives, NamedIn, Carries;
    assert Defined(chain, name) <==> exists i :: NamedIn(store, chain, i, name) by {
      if Defined(chain, name) {
        var i :| 0 <= i < |chain| && name in chain[i].macros;
        assert NamedIn(store, chain, i, name);
      }
      if i :| NamedIn(store, chain, i, name) { NamedInChain(store, chain, i, name); }
    }
    forall i ensures LeastDepth(chain, i, name) <==> LeastDepthIn(store, chain, i, name) {
    }
  }

  lemma NamedInChain(store: Store, chain: seq<TemplateNode>, i: int, name: string)
    requires NamedIn(store, chain, i, name)
    ensures 0 <= i < |chain|
  {
  }

  // ---------------------------------------------------------------- does the nearest win?

  /** On a chain without shortcuts the winning template is a nearest one: no reachable
      template that defines the macro is linked more closely to the host. */
  lemma NearestWins(store: Store, roots: seq<TemplateId>, i: nat, name: string, other: TemplateId, d: nat)
    requires var r := Visit(store, roots, 1, Search({}, [], NoError));
      r.error == NoError && NoShortcut(roots, r.chain) && LeastDepth(r.chain, i, name)
    requires Fetchable(store, other) && Names(store[other].macros, name) && Distance(store, roots, other, d)
    ensures var n := Visit(store, roots, 1, Search({}, [], NoError)).chain[i];
      Distance(store, roots, n.id, n.depth) && n.depth <= d
  {
    ChainIsReachableSet(store, roots);
    DepthsAreDistances(store, roots);
    var chain := Visit(store, roots, 1, Search({}, [], NoError)).chain;
    assert Reachable(store, roots, other);
    var j :| 0 <= j < |chain| && chain[j].id == other;
    assert chain[j] == NodeOf(store, other, chain[j].depth);
    MacroMapCarries(store[other].macros);
  }

  /** The chain with other macros on its nodes. */
  function Placed(chain: seq<TemplateNode>, ms: seq<map<string, string>>): seq<TemplateNode>
    requires |ms| == |chain|
  {
    seq(|chain|, i requires 0 <= i < |chain| => chain[i].(macros := ms[i]))
  }

  /** v comes from a template of least distance. */
  predicate FromNearest(ms: seq<map<string, string>>, dist: seq<nat>, name: string, v: string)
    requires |ms| == |dist|
  {
    exists i :: 0 <= i < |ms| && name in ms[i] && ms[i][name] == v
      && forall j :: 0 <= j < |ms| && name in ms[j] ==> dist[i] <= dist[j]
  }

  ghost predicate NearestAlwaysWins(chain: seq<TemplateNode>, dist: seq<nat>)
    requires |chain| == |dist|
  {
    forall ms: seq<map<string, string>>, name, v |
      |ms| == |chain| && Effective([], Placed(chain, ms), [], name, Some(v)) :: FromNearest(ms, dist, name, v)
  }

  /** A template nearer to the host was recorded at a strictly smaller depth. */
  predicate DepthsRespect(chain: seq<TemplateNode>, dist: seq<nat>)
    requires |chain| == |dist|
  {
    forall i, j :: 0 <= i < |chain| && 0 <= j < |chain| && dist[i] < dist[j] ==> chain[i].depth < chain[j].depth
  }

  lemma RespectSuffices(chain: seq<TemplateNode>, dist: seq<nat>, ms: seq<map<string, string>>, name: string, v: string)
    requires |chain| == |dist| == |ms| && DepthsRespect(chain, dist)
    requires Effective([], Placed(chain, ms), [], name, Some(v))
    ensures FromNearest(ms, dist, name, v)
  {
    var placed := Placed(chain, ms);
    assert Defined(placed, name);
    var i :| LeastDepth(placed, i, name) && Some(v) == Some(placed[i].macros[name]);
    forall j | 0 <= j < |ms| && name in ms[j] ensures dist[i] <= dist[j] {
      assert placed[j].depth == chain[j].depth && placed[j].macros == ms[j];
    }
    assert name in ms[i] && ms[i][name] == v;
  }

  /** Whatever macros the templates carry, the nearest definition wins if and only if the
      recorded depths respect the distances. */
  lemma NearestAlwaysWinsIff(chain: seq<TemplateNode>, dist: seq<nat>)
    requires |chain| == |dist|
    ensures NearestAlwaysWins(chain, dist) <==> DepthsRespect(chain, dist)
  {
    if DepthsRespect(chain, dist) {
      forall ms: seq<map<string, string>>, name, v |
        |ms| == |chain| && Effective([], Placed(chain, ms), [], name, Some(v))
        ensures FromNearest(ms, dist, name, v)
      {
        RespectSuffices(chain, dist, ms, name, v);
      }
    }
    if NearestAlwaysWins(chain, dist) {
      forall i, j | 0 <= i < |chain| && 0 <= j < |chain| && dist[i] < dist[j]
        ensures chain[i].depth < chain[j].depth
      {
        if chain[j].depth <= chain[i].depth {
          var ms := FarPlacement(chain, dist, i, j);
          assert false;
        }
      }
    }
  }

  /** Macros that make the farther template j win over the nearer template i. */
  lemma FarPlacement(chain: seq<TemplateNode>, dist: seq<nat>, i: nat, j: nat) returns (ms: seq<map<string, string>>)
    requires |chain| == |dist| && i < |chain| && j < |chain| && dist[i] < dist[j] && chain[j].depth <= chain[i].depth
    ensures |ms| == |chain| && Effective([], Placed(chain, ms), [], "m", Some("far"))
    ensures !FromNearest(ms, dist, "m", "far")
  {
    ms := seq(|chain|, k => if k == i then map["m" := "near"] else if k == j then map["m" := "far"] else map[]);
    var placed := Placed(chain, ms);
    assert LeastDepth(placed, j, "m") && placed[j].macros["m"] == "far";
    assert "near" != "far" by { assert "near"[0] != "far"[0]; }
    assert "m" in ms[i];
  }

  const SHORTCUT: Store := map[
    "a" := Found([], ["d"]),
    "d" := Found([Macro("m", "far")], ["b"]),
    "b" := Found([Macro("m", "near")], [])]

  /** Visiting the shortcut graph: "b" is met below "d" before it is met at the host. */
  lemma ShortcutChain()
    ensures var r := Visit(SHORTCUT, ["a", "b"], 1, Search({}, [], NoError));
      r.error == NoError
      && r.chain == [NodeOf(SHORTCUT, "a", 1), NodeOf(SHORTCUT, "d", 2), NodeOf(SHORTCUT, "b", 3)]
  {
    hide MacroMap;
    var a, d, b := "a", "d", "b";
    assert a[0] != d[0] && d[0] != b[0] && a[0] != b[0];
    var na, nd, nb := NodeOf(SHORTCUT, a, 1), NodeOf(SHORTCUT, d, 2), NodeOf(SHORTCUT, b, 3);
    var s3 := Search({a, d, b}, [na, nd, nb], NoError);
    assert Enter(SHORTCUT, b, 3, Search({a, d}, [na, nd], NoError)) == s3 by {
      assert {a, d} + {b} == {a, d, b} && [na, nd] + [nb] == [na, nd, nb];
    }
    assert Visit(SHORTCUT, [b], 3, Search({a, d}, [na, nd], NoError)) == s3;
    assert Enter(SHORTCUT, d, 2, Search({a}, [na], NoError)) == s3 by {
      assert {a} + {d} == {a, d} && [na] + [nd] == [na, nd];
    }
    assert Visit(SHORTCUT, [d], 2, Search({a}, [na], NoError)) == s3;
    assert Enter(SHORTCUT, a, 1, Search({}, [], NoError)) == s3 by {
      assert {} + {a} == {a} && [] + [na] == [na];
    }
    assert [a, b][1..] == [b];
    assert Visit(SHORTCUT, [b], 1, s3) == s3;
  }

  lemma SingleMacro(m: Macro)
    ensures MacroMap([m]) == map[m.name := m.value] && MacroMap([]) == map[]
  {
    assert [m][..0] == [];
  }

  /** The documented priority fails where a template is linked twice: "b" is linked to the
      host directly, yet it is recorded at depth 3 and loses to "d" two levels up. */
  lemma FarDefinitionCanWin(v: Option<string>)
    ensures var r := Visit(SHORTCUT, ["a", "b"], 1, Search({}, [], NoError));
      && r.error == NoError && |r.chain| == 3
      && r.chain[2].id == "b" && r.chain[2].depth == 3 && Distance(SHORTCUT, ["a", "b"], "b", 1)
      && (Effective([], r.chain, [], "m", v) <==> v == Some("far"))
  {
    hide Visit, Enter, MacroMap;
    ShortcutChain();
    SingleMacro(Macro("m", "far"));
    SingleMacro(Macro("m", "near"));
    var a, d, b := "a", "d", "b";
    assert a[0] != d[0] && d[0] != b[0] && a[0] != b[0];
    var chain := [NodeOf(SHORTCUT, "a", 1), NodeOf(SHORTCUT, "d", 2), NodeOf(SHORTCUT, "b", 3)];
    assert chain[0].macros == map[] && chain[1].macros == map["m" := "far"] && chain[2].macros == map["m" := "near"];
    assert LeastDepth(chain, 1, "m") && !LeastDepth(chain, 2, "m");
    RootsAtDepthOne(SHORTCUT, ["a", "b"], "b");
  }
}

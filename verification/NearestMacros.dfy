/** When the nearest definition of a macro wins (syncer/syncer.go, buildTemplateChain and
    mergeMacros together), as a property of the hierarchy itself. */
module NearestMacros {
  import opened TemplateChains
  import opened TemplateOrders
  import opened TemplatePairs
  import opened MacroMerges

  /** The true distances of the recorded templates. */
  ghost predicate DistancesOf(store: Store, roots: seq<TemplateId>, dist: seq<nat>) {
    var chain := ChainOf(store, roots);
    |dist| == |chain| && forall i :: 0 <= i < |chain| ==> Distance(store, roots, chain[i].id, dist[i])
  }

  /** Whatever macros the templates carry, the winning definition is at the least distance. */
  ghost predicate NearestWins(store: Store, roots: seq<TemplateId>) {
    forall dist :: DistancesOf(store, roots, dist) ==> NearestAlwaysWins(ChainOf(store, roots), dist)
  }

  lemma {:induction false} DistanceExists(store: Store, roots: seq<TemplateId>, id: TemplateId, d: nat) returns (e: nat)
    requires AtDepth(store, roots, id, d)
    ensures Distance(store, roots, id, e)
  {
    if f: nat :| f < d && AtDepth(store, roots, id, f) {
      e := DistanceExists(store, roots, id, f);
    } else {
      e := d;
    }
  }

  lemma {:induction false} DistancesUpTo(store: Store, roots: seq<TemplateId>, chain: seq<TemplateNode>)
    returns (dist: seq<nat>)
    requires forall i :: 0 <= i < |chain| ==> AtDepth(store, roots, chain[i].id, chain[i].depth)
    ensures |dist| == |chain| && forall i :: 0 <= i < |chain| ==> Distance(store, roots, chain[i].id, dist[i])
  {
    hide AtDepth, Distance;
    dist := [];
    if chain != [] {
      var n := |chain| - 1;
      dist := DistancesUpTo(store, roots, chain[..n]);
      var e := DistanceExists(store, roots, chain[n].id, chain[n].depth);
      dist := dist + [e];
    }
  }

  lemma AllDistances(store: Store, roots: seq<TemplateId>) returns (dist: seq<nat>)
    requires Resolvable(store, roots)
    ensures DistancesOf(store, roots, dist)
  {
    ChainIsReachableSet(store, roots);
    dist := DistancesUpTo(store, roots, ChainOf(store, roots));
  }

  /** y is farther from the host than x. */
  ghost predicate Farther(store: Store, roots: seq<TemplateId>, x: TemplateId, dx: nat, y: TemplateId, dy: nat) {
    Distance(store, roots, x, dx) && Distance(store, roots, y, dy) && dx < dy
  }

  /** In this order of the lists every nearer template is recorded at a smaller depth. */
  ghost predicate NearerIsShallower(store: Store, roots: seq<TemplateId>) {
    forall x, n: nat, y, m: nat, dx: nat, dy: nat ::
      RecordedTogether(store, roots, x, n, y, m) && Farther(store, roots, x, dx, y, dy) ==> n < m
  }

  lemma RespectIsShallower(store: Store, roots: seq<TemplateId>, dist: seq<nat>)
    requires DistancesOf(store, roots, dist)
    ensures DepthsRespect(ChainOf(store, roots), dist) <==> NearerIsShallower(store, roots)
  {
    var chain := ChainOf(store, roots);
    if NearerIsShallower(store, roots) {
      forall i, j | 0 <= i < |chain| && 0 <= j < |chain| && dist[i] < dist[j]
        ensures chain[i].depth < chain[j].depth
      {
        assert Farther(store, roots, chain[i].id, dist[i], chain[j].id, dist[j]);
        assert RecordedTogether(store, roots, chain[i].id, chain[i].depth, chain[j].id, chain[j].depth);
      }
    }
    if DepthsRespect(chain, dist) {
      forall x, n: nat, y, m: nat, dx: nat, dy: nat |
        RecordedTogether(store, roots, x, n, y, m) && Farther(store, roots, x, dx, y, dy)
        ensures n < m
      {
        var i :| 0 <= i < |chain| && chain[i].id == x && chain[i].depth == n;
        var j :| 0 <= j < |chain| && chain[j].id == y && chain[j].depth == m;
        assert dist[i] == dx && dist[j] == dy;
      }
    }
  }

  lemma NearestWinsIff(store: Store, roots: seq<TemplateId>)
    requires Resolvable(store, roots)
    ensures NearestWins(store, roots) <==> NearerIsShallower(store, roots)
  {
    hide NearestAlwaysWins, DepthsRespect, NearerIsShallower, Distance, Resolvable, Visit;
    var dist := AllDistances(store, roots);
    forall ds | DistancesOf(store, roots, ds)
      ensures NearestAlwaysWins(ChainOf(store, roots), ds) <==> NearerIsShallower(store, roots)
    {
      RespectIsShallower(store, roots, ds);
      NearestAlwaysWinsIff(ChainOf(store, roots), ds);
    }
  }

  ghost predicate NearestWinsInEveryOrder(store: Store, roots: seq<TemplateId>) {
    forall store', roots' :: Reordered(store, roots, store', roots') ==> NearestWins(store', roots')
  }

  /** Of two paths without repetition that one search can follow, the one to the nearer
      template is shorter. */
  ghost predicate NearerIsShorter(store: Store, roots: seq<TemplateId>) {
    forall x, n: nat, y, m: nat, dx: nat, dy: nat, p, q ::
      CompatiblePaths(store, roots, x, n, y, m, p, q) && Farther(store, roots, x, dx, y, dy) ==> n < m
  }

  lemma EveryOrderIsShallower(store: Store, roots: seq<TemplateId>, store': Store, roots': seq<TemplateId>)
    requires Resolvable(store, roots) && NearerIsShorter(store, roots) && Reordered(store, roots, store', roots')
    ensures NearerIsShallower(store', roots')
  {
    hide Reordered, Resolvable, Distance, RecordedTogether, CompatiblePaths;
    forall x, n: nat, y, m: nat, dx: nat, dy: nat |
      RecordedTogether(store', roots', x, n, y, m) && Farther(store', roots', x, dx, y, dy)
      ensures n < m
    {
      SameDepths(store, roots, store', roots', x, dx);
      SameDepths(store, roots, store', roots', y, dy);
      assert Farther(store, roots, x, dx, y, dy);
      FartherIsOther(store, roots, x, dx, y, dy);
      RecordableTogetherIff(store, roots, x, n, y, m);
      assert RecordableTogether(store, roots, x, n, y, m);
    }
  }

  lemma FartherIsOther(store: Store, roots: seq<TemplateId>, x: TemplateId, dx: nat, y: TemplateId, dy: nat)
    requires Farther(store, roots, x, dx, y, dy)
    ensures x != y
  {
  }

  /** Whatever macros the templates carry and however the server orders its lists, the nearest
      definition of every macro wins, as documented, if and only if, of two compatible paths
      without repetition, the one to the nearer template is always the shorter one. */
  lemma NearestWinsInEveryOrderIff(store: Store, roots: seq<TemplateId>)
    requires Resolvable(store, roots)
    ensures NearestWinsInEveryOrder(store, roots) <==> NearerIsShorter(store, roots)
  {
    hide Reordered, Resolvable, Distance, RecordedTogether, CompatiblePaths, NearestWins;
    if NearerIsShorter(store, roots) {
      forall store', roots' | Reordered(store, roots, store', roots') ensures NearestWins(store', roots') {
        EveryOrderIsShallower(store, roots, store', roots');
        SameResolvable(store, roots, store', roots');
        NearestWinsIff(store', roots');
      }
    }
    if NearestWinsInEveryOrder(store, roots) {
      forall x, n: nat, y, m: nat, dx: nat, dy: nat, p, q |
        CompatiblePaths(store, roots, x, n, y, m, p, q) && Farther(store, roots, x, dx, y, dy)
        ensures n < m
      {
        FartherIsOther(store, roots, x, dx, y, dy);
        RecordableTogetherIff(store, roots, x, n, y, m);
        var store', roots' :|
          Reordered(store, roots, store', roots') && RecordedTogether(store', roots', x, n, y, m);
        SameResolvable(store, roots, store', roots');
        NearestWinsIff(store', roots');
        SameDepths(store, roots, store', roots', x, dx);
        SameDepths(store, roots, store', roots', y, dy);
        assert Farther(store', roots', x, dx, y, dy);
      }
    }
  }

  /** In particular where every path without repetition is a shortest one. */
  lemma ShortestPathsSuffice(store: Store, roots: seq<TemplateId>)
    requires Resolvable(store, roots) && SimpleIsShortest(store, roots)
    ensures NearestWinsInEveryOrder(store, roots)
  {
    NearestWinsInEveryOrderIff(store, roots);
    hide NearestWinsInEveryOrder, Compatible;
  }
}

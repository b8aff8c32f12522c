/** Sums over the members of a crew, one term for each. */
module Totals {

  function Total<T>(ws: seq<T>, f: T -> nat): nat {
    if ws == [] then 0 else Total(ws[..|ws| - 1], f) + f(ws[|ws| - 1])
  }

  lemma {:induction false} TotalUpdate<T>(ws: seq<T>, w: nat, x: T, f: T -> nat)
    requires w < |ws|
    ensures Total(ws[w := x], f) + f(ws[w]) == Total(ws, f) + f(x)
  {
    var n := |ws| - 1;
    if w < n {
      assert ws[w := x][..n] == ws[..n][w := x];
      TotalUpdate(ws[..n], w, x, f);
    } else {
      assert ws[w := x][..n] == ws[..n];
    }
  }

  lemma {:induction false} TotalIncludes<T>(ws: seq<T>, w: nat, f: T -> nat)
    requires w < |ws|
    ensures f(ws[w]) <= Total(ws, f)
  {
    if w < |ws| - 1 { TotalIncludes(ws[..|ws| - 1], w, f); }
  }

  lemma {:induction false} TotalZero<T>(ws: seq<T>, f: T -> nat)
    requires forall w :: 0 <= w < |ws| ==> f(ws[w]) == 0
    ensures Total(ws, f) == 0
  {
    if ws != [] { TotalZero(ws[..|ws| - 1], f); }
  }

  /** Members from n on contribute nothing and the others at most one each. */
  lemma {:induction false} TotalAtMost<T>(ws: seq<T>, n: nat, f: T -> nat)
    requires forall w :: 0 <= w < |ws| ==> f(ws[w]) <= if w < n then 1 else 0
    ensures Total(ws, f) <= n
    ensures Total(ws, f) <= |ws|
  {
    if ws != [] {
      if |ws| <= n { TotalAtMost(ws[..|ws| - 1], |ws| - 1, f); } else { TotalAtMost(ws[..|ws| - 1], n, f); }
    }
  }

  lemma TotalNew<T>(ws: seq<T>, x: T, f: T -> nat)
    ensures Total(ws + [x], f) == Total(ws, f) + f(x)
  {
    assert (ws + [x])[..|ws|] == ws;
  }

  /** A queue that takes in x and gives out y, behind what it has given out before. */
  lemma Regroup<T>(before: seq<T>, q: seq<T>, x: seq<T>, y: seq<T>, q': seq<T>)
    requires q + x == y + q'
    ensures (before + q) + x == (before + y) + q'
  {
    assert (before + q) + x == before + (q + x);
    assert (before + y) + q' == before + (y + q');
  }

  lemma {:induction false} TotalSum<T>(ws: seq<T>, f: T -> nat, g: T -> nat, h: T -> nat)
    requires forall w :: 0 <= w < |ws| ==> f(ws[w]) + g(ws[w]) <= h(ws[w])
    ensures Total(ws, f) + Total(ws, g) <= Total(ws, h)
  {
    if ws != [] { TotalSum(ws[..|ws| - 1], f, g, h); }
  }
}

/** Filling in an order: every place in turn goes from its base to its full value, as long as
    something is left; what a raise uses up is taken from what is left, what a cut frees is
    added. `FUPolicy` fills its surplus and its deficit this way. */
module Greedy {
  import opened Sums

  datatype Fill = Fill(cur: seq<real>, left: real)

  ghost predicate Permutes(order: seq<nat>, n: nat) {
    && |order| == n
    && (forall i :: 0 <= i < n ==> order[i] < n)
    && (forall i, k :: 0 <= i < k < n ==> order[i] != order[k])
    && (forall k :: 0 <= k < n ==> k in order)
  }

  /** Once a place is cut, no place after it is raised. */
  ghost predicate NoRaiseAfterCut(order: seq<nat>, base: seq<real>, full: seq<real>)
    requires |base| == |full| && Permutes(order, |base|)
  {
    forall i, k :: 0 <= i < k < |order| && full[order[i]] < base[order[i]] ==> full[order[k]] <= base[order[k]]
  }

  function Stepped(f: Fill, k: nat, full: seq<real>): (r: Fill)
    requires k < |full| == |f.cur|
    ensures |r.cur| == |full|
  {
    var v := full[k] - f.cur[k];
    if f.left <= 0.0 then f
    else Fill(f.cur[k := if f.left > v then full[k] else f.cur[k] + f.left], f.left - v)
  }

  /** After the first n places. */
  function Filled(order: seq<nat>, base: seq<real>, full: seq<real>, left: real, n: nat): (r: Fill)
    requires |base| == |full| && Permutes(order, |base|) && n <= |order|
    ensures |r.cur| == |full|
  {
    if n == 0 then Fill(base, left) else Stepped(Filled(order, base, full, left, n - 1), order[n - 1], full)
  }

  function Higher(base: seq<real>, full: seq<real>): (r: seq<real>)
    requires |base| == |full|
    ensures |r| == |base|
  {
    seq(|base|, k requires 0 <= k < |base| => if full[k] > base[k] then full[k] else base[k])
  }

  /** Something is left: the places so far are full, the others as they were. */
  ghost predicate Going(order: seq<nat>, base: seq<real>, full: seq<real>, total: real, n: nat, f: Fill)
    requires |base| == |full| == |f.cur| && Permutes(order, |base|)
  {
    && f.left > 0.0 && f.left == total - Sum(f.cur)
    && (forall i :: 0 <= i < n <= |order| ==> f.cur[order[i]] == full[order[i]])
    && (forall i :: n <= i < |order| ==> f.cur[order[i]] == base[order[i]])
  }

  /** The total is reached at place m: those before are full, those after as they were. */
  ghost predicate ReachedAt(order: seq<nat>, base: seq<real>, full: seq<real>, total: real, m: nat, f: Fill)
    requires |base| == |full| == |f.cur| && Permutes(order, |base|)
  {
    && f.left <= 0.0 && Sum(f.cur) == total && m < |order|
    && (forall i :: 0 <= i < m ==> f.cur[order[i]] == full[order[i]] >= base[order[i]])
    && base[order[m]] <= f.cur[order[m]] <= full[order[m]]
    && (forall i :: m < i < |order| ==> f.cur[order[i]] == base[order[i]])
  }

  ghost predicate Reached(order: seq<nat>, base: seq<real>, full: seq<real>, total: real, f: Fill)
    requires |base| == |full| == |f.cur| && Permutes(order, |base|)
  {
    exists m: nat :: ReachedAt(order, base, full, total, m, f)
  }

  /** One place more. */
  lemma StepFills(order: seq<nat>, base: seq<real>, full: seq<real>, total: real, n: nat, f: Fill)
    requires |base| == |full| == |f.cur| && Permutes(order, |base|) && NoRaiseAfterCut(order, base, full)
    requires n < |order| && Going(order, base, full, total, n, f)
    ensures var g := Stepped(f, order[n], full);
            Going(order, base, full, total, n + 1, g) || ReachedAt(order, base, full, total, n, g)
  {
    hide Sum;
    var k := order[n];
    var g := Stepped(f, k, full);
    SumUpdate(f.cur, k, g.cur[k]);
  }

  lemma {:induction false} FilledIs(order: seq<nat>, base: seq<real>, full: seq<real>, left: real, n: nat)
    requires |base| == |full| && Permutes(order, |base|) && NoRaiseAfterCut(order, base, full) && left > 0.0
    requires n <= |order|
    ensures var f := Filled(order, base, full, left, n); var total := Sum(base) + left;
            Going(order, base, full, total, n, f) || Reached(order, base, full, total, f)
  {
    hide Going, ReachedAt, NoRaiseAfterCut, Permutes, Sum;
    if n == 0 {
      GoingFirst(order, base, full, left);
    } else {
      var total := Sum(base) + left;
      var f := Filled(order, base, full, left, n - 1);
      FilledIs(order, base, full, left, n - 1);
      InOrder(order, |base|, n - 1);
      if Going(order, base, full, total, n - 1, f) {
        StepFills(order, base, full, total, n - 1, f);
      } else {
        ReachedStays(order, base, full, total, f, order[n - 1]);
      }
    }
  }

  lemma GoingFirst(order: seq<nat>, base: seq<real>, full: seq<real>, left: real)
    requires |base| == |full| && Permutes(order, |base|) && left > 0.0
    ensures Going(order, base, full, Sum(base) + left, 0, Fill(base, left))
  {
  }

  lemma InOrder(order: seq<nat>, n: nat, i: nat)
    requires Permutes(order, n) && i < |order|
    ensures |order| == n && order[i] < n
  {
  }

  lemma ReachedStays(order: seq<nat>, base: seq<real>, full: seq<real>, total: real, f: Fill, k: nat)
    requires |base| == |full| == |f.cur| && Permutes(order, |base|) && Reached(order, base, full, total, f)
    requires k < |full|
    ensures Stepped(f, k, full) == f
  {
  }

  /** While it is going, it was going before. */
  lemma {:induction false} LeftBefore(order: seq<nat>, base: seq<real>, full: seq<real>, left: real, n: nat, m: nat)
    requires |base| == |full| && Permutes(order, |base|) && m <= n <= |order|
    requires Filled(order, base, full, left, n).left > 0.0
    ensures Filled(order, base, full, left, m).left > 0.0
    decreases n
  {
    if m < n {
      LeftBefore(order, base, full, left, n - 1, m);
    }
  }

  /** The first place that is cut. */
  lemma FirstCut(order: seq<nat>, base: seq<real>, full: seq<real>) returns (m: nat)
    requires |base| == |full| && Permutes(order, |base|) && NoRaiseAfterCut(order, base, full)
    ensures m <= |order|
    ensures forall i :: 0 <= i < m ==> full[order[i]] >= base[order[i]]
    ensures forall i :: m <= i < |order| ==> full[order[i]] <= base[order[i]]
  {
    m := 0;
    while m < |order| && full[order[m]] >= base[order[m]]
      invariant m <= |order| && forall i :: 0 <= i < m ==> full[order[i]] >= base[order[i]]
    {
      m := m + 1;
    }
  }

  /** When everything is raised that can be, and nothing cut yet, the values are the higher ones. */
  lemma AllRaised(order: seq<nat>, base: seq<real>, full: seq<real>, total: real, m: nat, f: Fill)
    requires |base| == |full| == |f.cur| && Permutes(order, |base|) && Going(order, base, full, total, m, f)
    requires m <= |order|
    requires forall i :: 0 <= i < m ==> full[order[i]] >= base[order[i]]
    requires forall i :: m <= i < |order| ==> full[order[i]] <= base[order[i]]
    ensures f.cur == Higher(base, full)
  {
    forall k | 0 <= k < |base|
      ensures f.cur[k] == Higher(base, full)[k]
    {
      assert k in order;
      var i :| 0 <= i < |order| && order[i] == k;
    }
  }

  lemma AllFull(order: seq<nat>, base: seq<real>, full: seq<real>, total: real, f: Fill)
    requires |base| == |full| == |f.cur| && Permutes(order, |base|) && Going(order, base, full, total, |order|, f)
    ensures f.cur == full
  {
    forall k | 0 <= k < |base|
      ensures f.cur[k] == full[k]
    {
      assert k in order;
      var i :| 0 <= i < |order| && order[i] == k;
    }
  }

  /** Every value lies between the base and the higher of the two. */
  lemma ReachedWithin(order: seq<nat>, base: seq<real>, full: seq<real>, total: real, f: Fill)
    requires |base| == |full| == |f.cur| && Permutes(order, |base|) && Reached(order, base, full, total, f)
    ensures forall k :: 0 <= k < |base| ==> base[k] <= f.cur[k] <= Higher(base, full)[k]
  {
    var m: nat :| ReachedAt(order, base, full, total, m, f);
    forall k | 0 <= k < |base|
      ensures base[k] <= f.cur[k] <= Higher(base, full)[k]
    {
      assert k in order;
      var i :| 0 <= i < |order| && order[i] == k;
    }
  }

  /** The end of the filling. If the places, each raised as far as it goes and none cut, could
      use up the total, then the values come to exactly that, and only the last of those raised
      may be short of full; else every place ends at its full value, below the total. */
  lemma FillEnds(order: seq<nat>, base: seq<real>, full: seq<real>, left: real)
    requires |base| == |full| && Permutes(order, |base|) && NoRaiseAfterCut(order, base, full) && left > 0.0
    ensures var f := Filled(order, base, full, left, |order|); var total := Sum(base) + left;
            if Sum(Higher(base, full)) >= total
            then Reached(order, base, full, total, f) && forall k ::
              0 <= k < |base| ==> base[k] <= f.cur[k] <= Higher(base, full)[k]
            else f.cur == full && Sum(full) < total
  {
    hide Filled, Sum, Going, Reached, Higher, NoRaiseAfterCut;
    var n, total := |order|, Sum(base) + left;
    var f := Filled(order, base, full, left, n);
    FilledIs(order, base, full, left, n);
    if Going(order, base, full, total, n, f) {
      AllFull(order, base, full, total, f);
      var m := FirstCut(order, base, full);
      GoingIsLeft(order, base, full, total, n, f);
      LeftBefore(order, base, full, left, n, m);
      FilledIs(order, base, full, left, m);
      var g := Filled(order, base, full, left, m);
      StillGoing(order, base, full, total, m, g);
      AllRaised(order, base, full, total, m, g);
    } else {
      ReachedWithin(order, base, full, total, f);
      ReachedSum(order, base, full, total, f);
      SumLe(f.cur, Higher(base, full));
    }
  }

  lemma GoingIsLeft(order: seq<nat>, base: seq<real>, full: seq<real>, total: real, n: nat, f: Fill)
    requires |base| == |full| == |f.cur| && Permutes(order, |base|) && Going(order, base, full, total, n, f)
    ensures f.left > 0.0 && f.left == total - Sum(f.cur)
  {
  }

  lemma StillGoing(order: seq<nat>, base: seq<real>, full: seq<real>, total: real, m: nat, g: Fill)
    requires |base| == |full| == |g.cur| && Permutes(order, |base|) && g.left > 0.0
    requires Going(order, base, full, total, m, g) || Reached(order, base, full, total, g)
    ensures Going(order, base, full, total, m, g) && Sum(g.cur) < total
  {
  }

  lemma ReachedSum(order: seq<nat>, base: seq<real>, full: seq<real>, total: real, f: Fill)
    requires |base| == |full| == |f.cur| && Permutes(order, |base|) && Reached(order, base, full, total, f)
    ensures Sum(f.cur) == total
  {
  }

  /** As long as a place is not full, those after it are not touched. */
  lemma InTurn(order: seq<nat>, base: seq<real>, full: seq<real>, total: real, f: Fill, a: nat, b: nat)
    requires |base| == |full| == |f.cur| && Permutes(order, |base|) && Reached(order, base, full, total, f)
    requires a < b < |order| && f.cur[order[a]] < Higher(base, full)[order[a]]
    ensures f.cur[order[b]] == base[order[b]]
  {
  }

  /** When nothing is left, nothing changes any more. */
  lemma {:induction false} FilledStops(order: seq<nat>, base: seq<real>, full: seq<real>, left: real, n: nat, m: nat)
    requires |base| == |full| && Permutes(order, |base|) && n <= m <= |order|
    requires Filled(order, base, full, left, n).left <= 0.0
    ensures Filled(order, base, full, left, m) == Filled(order, base, full, left, n)
  {
    if n < m {
      FilledStops(order, base, full, left, n, m - 1);
    }
  }

  /** The places to come are as they were. */
  lemma {:induction false} NotYet(order: seq<nat>, base: seq<real>, full: seq<real>, left: real, n: nat, i: nat)
    requires |base| == |full| && Permutes(order, |base|) && n <= i < |order|
    ensures Filled(order, base, full, left, n).cur[order[i]] == base[order[i]]
  {
    if n > 0 {
      NotYet(order, base, full, left, n - 1, i);
    }
  }

  lemma FilledFirst(order: seq<nat>, base: seq<real>, full: seq<real>, left: real)
    requires |base| == |full| && Permutes(order, |base|)
    ensures Filled(order, base, full, left, 0) == Fill(base, left)
  {
  }

  /** The next place: its base, and the step. */
  lemma FilledNext(order: seq<nat>, base: seq<real>, full: seq<real>, left: real, n: nat, k: nat)
    requires |base| == |full| && Permutes(order, |base|) && n < |order| && order[n] == k
    ensures k < |base| && Filled(order, base, full, left, n).cur[k] == base[k]
    ensures Filled(order, base, full, left, n + 1) == Stepped(Filled(order, base, full, left, n), k, full)
  {
    NotYet(order, base, full, left, n, n);
  }
}

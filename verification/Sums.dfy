/** Sums of sequences of reals. */
module Sums {
  import opened Products

  function Sum(s: seq<real>): real {
    if s == [] then 0.0 else Sum(s[..|s| - 1]) + s[|s| - 1]
  }

  lemma SumSnoc(s: seq<real>)
    requires s != []
    ensures Sum(s) == Sum(s[..|s| - 1]) + s[|s| - 1]
  {
  }

  lemma {:induction false} SumUpdate(s: seq<real>, k: nat, x: real)
    requires k < |s|
    ensures Sum(s[k := x]) == Sum(s) - s[k] + x
  {
    var init := s[..|s| - 1];
    if k == |s| - 1 {
      assert s[k := x][..k] == init;
    } else {
      SumUpdate(init, k, x);
      assert s[k := x][..|s| - 1] == init[k := x];
    }
  }

  lemma {:induction false} SumLe(s: seq<real>, t: seq<real>)
    requires |s| == |t| && forall k :: 0 <= k < |s| ==> s[k] <= t[k]
    ensures Sum(s) <= Sum(t)
    ensures (exists k :: 0 <= k < |s| && s[k] < t[k]) ==> Sum(s) < Sum(t)
  {
    if s != [] {
      SumLe(s[..|s| - 1], t[..|t| - 1]);
    }
  }

  lemma {:induction false} SumNegated(s: seq<real>, t: seq<real>)
    requires |s| == |t| && forall k :: 0 <= k < |s| ==> t[k] == -s[k]
    ensures Sum(t) == -Sum(s)
  {
    if s != [] {
      SumNegated(s[..|s| - 1], t[..|t| - 1]);
    }
  }

  lemma {:induction false} SumConstant(s: seq<real>, x: real)
    requires forall k :: 0 <= k < |s| ==> s[k] == x
    ensures Sum(s) == |s| as real * x
  {
    if s != [] {
      SumConstant(s[..|s| - 1], x);
      Distribute(x, |s| as real - 1.0, 1.0);
    }
  }

  lemma Distribute(a: real, x: real, y: real)
    ensures a * (x + y) == a * x + a * y
  {
  }

  /** Terms of one sign. */
  lemma {:induction false} SumIsPositive(s: seq<real>)
    requires forall k :: 0 <= k < |s| ==> s[k] >= 0.0
    ensures Sum(s) >= 0.0 && forall k :: 0 <= k < |s| ==> s[k] <= Sum(s)
  {
    if s != [] {
      SumIsPositive(s[..|s| - 1]);
      assert forall k :: 0 <= k < |s| - 1 ==> s[..|s| - 1][k] == s[k];
    }
  }

  lemma {:induction false} SumIsNegative(s: seq<real>)
    requires forall k :: 0 <= k < |s| ==> s[k] <= 0.0
    ensures Sum(s) <= 0.0 && forall k :: 0 <= k < |s| ==> s[k] >= Sum(s)
  {
    if s != [] {
      SumIsNegative(s[..|s| - 1]);
      assert forall k :: 0 <= k < |s| - 1 ==> s[..|s| - 1][k] == s[k];
    }
  }

  function Squares(s: seq<real>): seq<real> {
    seq(|s|, k requires 0 <= k < |s| => Square(s[k]))
  }

  function SumSquares(s: seq<real>): real {
    Sum(Squares(s))
  }

  lemma SumSquaresSnoc(s: seq<real>)
    requires s != []
    ensures SumSquares(s) == SumSquares(s[..|s| - 1]) + Square(s[|s| - 1])
  {
    assert Squares(s)[..|s| - 1] == Squares(s[..|s| - 1]);
  }

  lemma SumSquaresUpdate(s: seq<real>, k: nat, x: real)
    requires k < |s|
    ensures SumSquares(s[k := x]) == SumSquares(s) - Square(s[k]) + Square(x)
  {
    assert Squares(s[k := x]) == Squares(s)[k := Square(x)];
    SumUpdate(Squares(s), k, Square(x));
  }
}

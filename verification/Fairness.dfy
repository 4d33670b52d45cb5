/** Jain's fairness index of the VMs' rates, and the gradient by which `GradientPolicy` decides
    who gives memory and who takes it. */
module Fairness {
  import opened Sums
  import opened Products

  ghost predicate NonNegative(r: seq<real>) {
    forall k :: 0 <= k < |r| ==> r[k] >= 0.0
  }

  ghost predicate AllEqual(r: seq<real>) {
    forall i, k :: 0 <= i < |r| && 0 <= k < |r| ==> r[i] == r[k]
  }

  /** The fairness the policies compute. */
  function Jain(r: seq<real>): real
    requires SumSquares(r) > 0.0 && r != []
  {
    Index(Sum(r), |r| as real, SumSquares(r))
  }

  /** ... from the sum, the number and the sum of squares. */
  function Index(s: real, n: real, q: real): real
    requires n > 0.0 && q > 0.0
  {
    Positive(n, q);
    Square(s) / (n * q)
  }

  lemma NoSums()
    ensures Sum([]) == 0.0 && SumSquares([]) == 0.0
  {
  }

  // ---------------------------------------------------------------- the range of the index

  /** The squared distances between all pairs. */
  function Spread(r: seq<real>): real {
    if r == [] then 0.0 else Spread(r[..|r| - 1]) + Distances(r[..|r| - 1], r[|r| - 1])
  }

  function Distances(r: seq<real>, x: real): real {
    if r == [] then 0.0 else Distances(r[..|r| - 1], x) + Square(r[|r| - 1] - x)
  }

  /** The squared distances of n numbers to x, from their sum s and the sum q of their squares. */
  function Expanded(q: real, s: real, n: real, x: real): real {
    q - 2.0 * x * s + n * Square(x)
  }

  lemma ExpandedNone(x: real)
    ensures Expanded(0.0, 0.0, 0.0, x) == 0.0
  {
  }

  lemma {:induction false} DistancesAre(r: seq<real>, x: real)
    ensures Distances(r, x) == Expanded(SumSquares(r), Sum(r), |r| as real, x)
  {
    hide Sum, SumSquares, Square, Expanded;
    if r == [] {
      NoSums();
      ExpandedNone(x);
    } else {
      var init, y := r[..|r| - 1], r[|r| - 1];
      DistancesAre(init, x);
      SumSnoc(r);
      SumSquaresSnoc(r);
      Expand(SumSquares(init), Sum(init), |init| as real, x, y, SumSquares(r), Sum(r), |r| as real);
    }
  }

  lemma Expand(q: real, s: real, n: real, x: real, y: real, q': real, s': real, n': real)
    requires q' == q + Square(y) && s' == s + y && n' == n + 1.0
    ensures Expanded(q, s, n, x) + Square(y - x) == Expanded(q', s', n', x)
  {
  }

  lemma {:induction false} SpreadIs(r: seq<real>)
    ensures Spread(r) == |r| as real * SumSquares(r) - Square(Sum(r))
  {
    hide Sum, SumSquares, Distances, Square, Expanded;
    if r == [] {
      NoSums();
      SquareVanishes(0.0);
    } else {
      var init, x := r[..|r| - 1], r[|r| - 1];
      SpreadIs(init);
      SumSnoc(r);
      DistancesAre(init, x);
      SumSquaresSnoc(r);
      Collect(SumSquares(init), Sum(init), |init| as real, x, SumSquares(r), Sum(r), |r| as real);
    }
  }

  lemma Collect(q: real, s: real, n: real, x: real, q': real, s': real, n': real)
    requires q' == q + Square(x) && s' == s + x && n' == n + 1.0
    ensures (n * q - Square(s)) + Expanded(q, s, n, x) == n' * q' - Square(s')
  {
  }

  lemma {:induction false} DistancesVanish(r: seq<real>, x: real)
    ensures Distances(r, x) >= 0.0
    ensures Distances(r, x) == 0.0 <==> forall k :: 0 <= k < |r| ==> r[k] == x
  {
    hide Square;
    if r != [] {
      DistancesVanish(r[..|r| - 1], x);
      SquareVanishes(r[|r| - 1] - x);
    }
  }

  lemma {:induction false} SpreadVanishes(r: seq<real>)
    ensures Spread(r) >= 0.0 && (Spread(r) == 0.0 <==> AllEqual(r))
  {
    hide Distances;
    if r != [] {
      var init, x := r[..|r| - 1], r[|r| - 1];
      SpreadVanishes(init);
      DistancesVanish(init, x);
      if AllEqual(init) && Distances(init, x) == 0.0 {
        assert forall k :: 0 <= k < |r| ==> r[k] == x;
      }
      if AllEqual(r) {
        assert forall k :: 0 <= k < |init| ==> init[k] == r[k];
        assert forall k :: 0 <= k < |init| ==> init[k] == x;
      }
    }
  }

  /** Of numbers that are not negative, the square of the sum is no less than the sum of squares. */
  lemma {:induction false} SumSquaresBelow(r: seq<real>)
    requires NonNegative(r)
    ensures 0.0 <= Sum(r) && 0.0 <= SumSquares(r) <= Square(Sum(r))
  {
    hide Sum, SumSquares, Square;
    SquareVanishes(0.0);
    if r == [] {
      NoSums();
    } else {
      var init, x := r[..|r| - 1], r[|r| - 1];
      SumSquaresBelow(init);
      SumSnoc(r);
      SumSquaresSnoc(r);
      SquareOfSum(Sum(init), x);
    }
  }

  lemma SquareOfSum(s: real, x: real)
    requires s >= 0.0 && x >= 0.0
    ensures Square(s + x) >= Square(s) + Square(x) && Square(x) >= 0.0
  {
    NonNegativeProduct(s, x);
    NonNegativeProduct(x, x);
    assert Square(s + x) == Square(s) + Square(x) + 2.0 * (s * x);
  }

  /** Fairness lies between 1/n and 1, and is 1 exactly if all rates are equal. */
  lemma JainRange(r: seq<real>)
    requires NonNegative(r) && r != [] && SumSquares(r) > 0.0
    ensures 1.0 / |r| as real <= Jain(r) <= 1.0
    ensures Jain(r) == 1.0 <==> AllEqual(r)
  {
    hide Sum, SumSquares, Spread, NonNegative, AllEqual, Index, Square;
    SumSquaresBelow(r);
    SpreadIs(r);
    SpreadVanishes(r);
    IndexRange(Sum(r), |r| as real, SumSquares(r));
  }

  /** What fairness lacks of 1 is the spread of the rates, for their number and the sum of squares. */
  lemma JainIs(r: seq<real>)
    requires r != [] && SumSquares(r) > 0.0
    ensures (1.0 - Jain(r)) * (|r| as real * SumSquares(r)) == Spread(r)
  {
    hide Sum, SumSquares, Spread, Square;
    SpreadIs(r);
    IndexIs(Sum(r), |r| as real, SumSquares(r));
  }

  lemma IndexIs(s: real, n: real, q: real)
    requires n > 0.0 && q > 0.0
    ensures (1.0 - Index(s, n, q)) * (n * q) == n * q - Square(s)
  {
    hide Square;
    Positive(n, q);
    var p := n * q;
    Quotient(Square(s), p, Index(s, n, q));
    Distribute(p, 1.0, -Index(s, n, q));
  }

  lemma IndexRange(s: real, n: real, q: real)
    requires n > 0.0 && q > 0.0 && q <= Square(s) <= n * q
    ensures 1.0 / n <= Index(s, n, q) <= 1.0
    ensures Index(s, n, q) == 1.0 <==> n * q - Square(s) == 0.0
  {
    hide Square;
    Positive(n, q);
    Quotient(Square(s), n * q, 1.0);
    Quotient(Square(s), n * q, 1.0 / n);
    Cancel(n, q);
  }

  lemma Cancel(n: real, q: real)
    requires n != 0.0
    ensures (1.0 / n) * (n * q) == q
  {
    assert (1.0 / n) * n == 1.0;
    assert (1.0 / n) * (n * q) == ((1.0 / n) * n) * q;
  }

  // ---------------------------------------------------------------- the gradient

  /** The other VMs' rates: the sum of their squares and their sum. */
  function OtherSquares(r: seq<real>, i: nat): real
    requires i < |r|
  {
    SumSquares(r) - Square(r[i])
  }

  function Others(r: seq<real>, i: nat): real
    requires i < |r|
  {
    Sum(r) - r[i]
  }

  /** `partial_derivative` */
  function PartialDerivative(a: real, b: real, rate: real, w: real): real
    requires w > 0.0
  {
    (a - b * rate) / w
  }

  /** The gradient of VM i, of weight w, from the sums over the other VMs. */
  function Gradient(r: seq<real>, i: nat, w: real): real
    requires i < |r| && w > 0.0
  {
    PartialDerivative(OtherSquares(r, i), Others(r, i), r[i], w)
  }

  lemma GradientIs(r: seq<real>, i: nat, w: real)
    requires i < |r| && w > 0.0
    ensures Gradient(r, i, w) == (SumSquares(r) - r[i] * Sum(r)) / w
    ensures Gradient(r, i, w) > 0.0 <==> r[i] * Sum(r) < SumSquares(r)
    ensures Gradient(r, i, w) < 0.0 <==> r[i] * Sum(r) > SumSquares(r)
  {
    hide Sum, SumSquares, Square;
    Regroup(SumSquares(r), Sum(r), r[i]);
    Sign(SumSquares(r), r[i] * Sum(r), w);
  }

  lemma Regroup(q: real, s: real, x: real)
    ensures (q - Square(x)) - (s - x) * x == q - x * s
  {
  }

  lemma Sign(q: real, p: real, w: real)
    requires w > 0.0
    ensures ((q - p) / w > 0.0 <==> p < q) && ((q - p) / w < 0.0 <==> p > q)
  {
    Quotient(q - p, w, 0.0);
  }

  lemma GradientSign(r: seq<real>, i: nat, w: real)
    requires i < |r| && w > 0.0
    ensures Gradient(r, i, w) > 0.0 <==> Others(r, i) * r[i] < OtherSquares(r, i)
    ensures Gradient(r, i, w) < 0.0 <==> Others(r, i) * r[i] > OtherSquares(r, i)
  {
    hide Others, OtherSquares;
    Sign(OtherSquares(r, i), Others(r, i) * r[i], w);
  }

  lemma OthersArePositive(r: seq<real>, i: nat)
    requires NonNegative(r) && i < |r| && Others(r, i) > 0.0
    ensures OtherSquares(r, i) > 0.0
  {
    hide Sum, SumSquares, Square, Spread;
    var zero := r[i := 0.0];
    SumUpdate(r, i, 0.0);
    SumSquaresUpdate(r, i, 0.0);
    SquareVanishes(0.0);
    SumSquaresBelow(zero);
    SpreadIs(zero);
    SpreadVanishes(zero);
    SquareVanishes(Sum(zero));
    PositiveFactor(|zero| as real, SumSquares(zero));
  }

  /** The index when VM i has rate x, and the others theirs. */
  lemma JainAt(r: seq<real>, i: nat, x: real)
    requires NonNegative(r) && i < |r| && Others(r, i) > 0.0 && x >= 0.0
    ensures SumSquares(r[i := x]) > 0.0 && OtherSquares(r, i) + Square(x) > 0.0
    ensures Jain(r[i := x]) == Index(Others(r, i) + x, |r| as real, OtherSquares(r, i) + Square(x))
  {
    hide Sum, SumSquares, NonNegative, Index, Square;
    OthersArePositive(r, i);
    SumUpdate(r, i, x);
    SumSquaresUpdate(r, i, x);
    SquareVanishes(x);
  }

  /** Whether the index is greater at y than at x, when a and b are the sum of the squares and
      the sum of the others. */
  ghost predicate Fairer(a: real, b: real, y: real, x: real) {
    Square(b + y) * (a + Square(x)) > Square(b + x) * (a + Square(y))
  }

  lemma Difference(a: real, b: real, x: real, y: real, d: real, p: real, u: real, q: real, v: real)
    requires d == y - x && p == b + y && u == a - b * x && q == b + x && v == a - b * y
    ensures Square(b + y) * (a + Square(x)) - Square(b + x) * (a + Square(y)) == d * (p * u + q * v)
  {
  }

  /** Raising x to y as long as y is no more than a/b, and lowering it to y as long as y is no less. */
  lemma TowardsHelps(a: real, b: real, x: real, y: real)
    requires b > 0.0 && x >= 0.0 && y >= 0.0
    requires (x < y && b * y <= a) || (x > y && b * y >= a)
    ensures Fairer(a, b, y, x) && !Fairer(a, b, x, y)
  {
    var d, p, u, q, v := y - x, b + y, a - b * x, b + x, a - b * y;
    Difference(a, b, x, y, d, p, u, q, v);
    Directions(a, b, x, y);
    Signs(d, p, u, q, v);
  }

  lemma Directions(a: real, b: real, x: real, y: real)
    requires b > 0.0
    ensures x < y && b * y <= a ==> a - b * x > 0.0
    ensures x > y && b * y >= a ==> a - b * x < 0.0
  {
    Scale(b, x, y);
  }

  /** Which way the index changes when the rate of VM i becomes y. */
  lemma JainChanges(r: seq<real>, i: nat, y: real)
    requires NonNegative(r) && i < |r| && Others(r, i) > 0.0 && y >= 0.0
    ensures SumSquares(r) > 0.0 && SumSquares(r[i := y]) > 0.0
    ensures Jain(r) < Jain(r[i := y]) <==> Fairer(OtherSquares(r, i), Others(r, i), y, r[i])
    ensures Jain(r) > Jain(r[i := y]) <==> Fairer(OtherSquares(r, i), Others(r, i), r[i], y)
  {
    hide Sum, SumSquares, Jain, Others, OtherSquares, Index, Square, Fairer;
    assert r[i := r[i]] == r;
    JainAt(r, i, r[i]);
    JainAt(r, i, y);
    CompareIndex(|r| as real, OtherSquares(r, i), Others(r, i), r[i], y);
  }

  lemma CompareIndex(n: real, a: real, b: real, x: real, y: real)
    requires n > 0.0 && a + Square(x) > 0.0 && a + Square(y) > 0.0
    ensures Index(b + x, n, a + Square(x)) < Index(b + y, n, a + Square(y)) <==> Fairer(a, b, y, x)
    ensures Index(b + x, n, a + Square(x)) > Index(b + y, n, a + Square(y)) <==> Fairer(a, b, x, y)
  {
    hide Square;
    var d, e, p, q := a + Square(x), a + Square(y), Square(b + x), Square(b + y);
    Compare(n, d, e, p, q);
  }

  lemma Compare(n: real, d: real, e: real, p: real, q: real)
    requires n > 0.0 && d > 0.0 && e > 0.0
    ensures n * d > 0.0 && n * e > 0.0
    ensures p / (n * d) < q / (n * e) <==> p * e < q * d
    ensures p / (n * d) > q / (n * e) <==> p * e > q * d
  {
    Positive(n, d);
    Positive(n, e);
    CompareQuotients(p, n * d, q, n * e);
    CompareQuotients(q, n * e, p, n * d);
    Scale(n, p * e, q * d);
    assert p * (n * e) == n * (p * e) && q * (n * d) == n * (q * d);
  }

  lemma CompareQuotients(p: real, d: real, q: real, e: real)
    requires d > 0.0 && e > 0.0
    ensures p / d < q / e <==> p * e < q * d
  {
    Quotient(p, d, q / e);
    assert (q / e) * d == (q * d) / e by {
      assert q == (q / e) * e;
      assert q * d == ((q / e) * d) * e;
      Quotient(q * d, e, (q / e) * d);
    }
    Quotient(q * d, e, p);
  }

  ghost predicate Improves(r: seq<real>, i: nat, y: real)
    requires i < |r|
  {
    SumSquares(r) > 0.0 && SumSquares(r[i := y]) > 0.0 && Jain(r) < Jain(r[i := y])
  }

  ghost predicate Worsens(r: seq<real>, i: nat, y: real)
    requires i < |r|
  {
    SumSquares(r) > 0.0 && SumSquares(r[i := y]) > 0.0 && Jain(r) > Jain(r[i := y])
  }

  /** A change towards a/b improves the index; one away from it worsens it. */
  lemma ChangeJudged(r: seq<real>, i: nat, y: real)
    requires NonNegative(r) && i < |r| && Others(r, i) > 0.0 && y >= 0.0
    ensures var a, b, x := OtherSquares(r, i), Others(r, i), r[i];
            && ((x < y && b * y <= a) || (x > y && b * y >= a) ==> Improves(r, i, y))
            && ((x < y && b * x >= a) || (x > y && b * x <= a) ==> Worsens(r, i, y) && !Improves(r, i, y))
  {
    hide Sum, SumSquares, Jain, Others, OtherSquares, Fairer;
    var a, b, x := OtherSquares(r, i), Others(r, i), r[i];
    JainChanges(r, i, y);
    if (x < y && b * y <= a) || (x > y && b * y >= a) {
      TowardsHelps(a, b, x, y);
    }
    if (x < y && b * x >= a) || (x > y && b * x <= a) {
      TowardsHelps(a, b, y, x);
    }
  }

  lemma Ratio(a: real, b: real, x: real)
    requires b > 0.0
    ensures b * (a / b) == a
    ensures (b * x < a ==> x < a / b) && (b * x > a ==> x > a / b) && (a >= 0.0 ==> a / b >= 0.0)
  {
    Quotient(a, b, x);
    Quotient(a, b, 0.0);
  }

  /** The gradient tells which way to go. When some other VM has a positive rate, the gradient
      of VM i is positive exactly if some raise of its rate improves the index, and then every
      raise up to a/b does; if it is not positive, every raise worsens it. */
  lemma PositiveGradient(r: seq<real>, i: nat, w: real)
    requires NonNegative(r) && i < |r| && w > 0.0 && Others(r, i) > 0.0
    ensures Gradient(r, i, w) > 0.0 <==> Others(r, i) * r[i] < OtherSquares(r, i)
    ensures Gradient(r, i, w) > 0.0 ==>
              forall y :: r[i] < y && Others(r, i) * y <= OtherSquares(r, i) ==> Improves(r, i, y)
    ensures Gradient(r, i, w) <= 0.0 ==> forall y :: r[i] < y ==> Worsens(r, i, y)
    ensures Gradient(r, i, w) > 0.0 <==> exists y :: r[i] < y && Improves(r, i, y)
  {
    hide Others, OtherSquares, Gradient, Improves, Worsens;
    var a, b, x := OtherSquares(r, i), Others(r, i), r[i];
    GradientSign(r, i, w);
    forall y | x < y
      ensures b * y <= a ==> Improves(r, i, y)
      ensures b * x >= a ==> Worsens(r, i, y) && !Improves(r, i, y)
    {
      ChangeJudged(r, i, y);
    }
    if b * x < a {
      Ratio(a, b, x);
      assert Improves(r, i, a / b);
    }
  }

  /** ... negative exactly if some lowering does, and then every one down to a/b. */
  lemma NegativeGradient(r: seq<real>, i: nat, w: real)
    requires NonNegative(r) && i < |r| && w > 0.0 && Others(r, i) > 0.0
    ensures Gradient(r, i, w) < 0.0 <==> Others(r, i) * r[i] > OtherSquares(r, i)
    ensures Gradient(r, i, w) < 0.0 ==>
              forall y :: 0.0 <= y < r[i] && Others(r, i) * y >= OtherSquares(r, i) ==> Improves(r, i, y)
    ensures Gradient(r, i, w) >= 0.0 ==> forall y :: 0.0 <= y < r[i] ==> Worsens(r, i, y)
    ensures Gradient(r, i, w) < 0.0 <==> exists y :: 0.0 <= y < r[i] && Improves(r, i, y)
  {
    hide Others, OtherSquares, Gradient, Improves, Worsens;
    var a, b, x := OtherSquares(r, i), Others(r, i), r[i];
    GradientSign(r, i, w);
    forall y | 0.0 <= y < x
      ensures b * y >= a ==> Improves(r, i, y)
      ensures b * x <= a ==> Worsens(r, i, y) && !Improves(r, i, y)
    {
      ChangeJudged(r, i, y);
    }
    if b * x > a {
      OthersArePositive(r, i);
      Ratio(a, b, x);
      assert Improves(r, i, a / b);
    }
  }

  // ---------------------------------------------------------------- who gives and who takes

  /** r_k (m - r_k) for every VM. */
  function Gaps(r: seq<real>, m: real): seq<real> {
    seq(|r|, k requires 0 <= k < |r| => Times(r[k], m - r[k]))
  }

  lemma {:induction false} GapsAre(r: seq<real>, m: real)
    ensures Sum(Gaps(r, m)) == m * Sum(r) - SumSquares(r)
  {
    hide Sum, SumSquares, Times, Square;
    if r == [] {
      NoSums();
    } else {
      var init, x := r[..|r| - 1], r[|r| - 1];
      GapsAre(init, m);
      SumSnoc(r);
      SumSquaresSnoc(r);
      assert Gaps(r, m)[..|r| - 1] == Gaps(init, m);
      SumSnoc(Gaps(r, m));
      AddGap(m, Sum(init), SumSquares(init), x, Sum(r), SumSquares(r));
    }
  }

  lemma AddGap(m: real, s: real, q: real, x: real, s': real, q': real)
    requires s' == s + x && q' == q + Square(x)
    ensures m * s - q + Times(x, m - x) == m * s' - q'
  {
  }

  lemma GapSign(x: real, m: real)
    requires x > 0.0
    ensures (x < m ==> Times(x, m - x) > 0.0) && (x > m ==> Times(x, m - x) < 0.0)
    ensures (x == m ==> Times(x, m - x) == 0.0)
  {
    if x < m {
      Positive(x, m - x);
    } else if x > m {
      Positive(x, x - m);
    }
  }

  ghost predicate AllPositive(r: seq<real>) {
    forall k :: 0 <= k < |r| ==> r[k] > 0.0
  }

  ghost predicate Weights(w: seq<real>) {
    forall k :: 0 <= k < |w| ==> w[k] > 0.0
  }

  /** The mean of the rates weighted by themselves is below the greatest, if some rate is. */
  lemma GreatestIsAbove(r: seq<real>, m: real, i: nat)
    requires AllPositive(r) && i < |r| && r[i] < m && forall k :: 0 <= k < |r| ==> r[k] <= m
    ensures SumSquares(r) < m * Sum(r)
  {
    hide Sum, SumSquares, Times;
    GapsAre(r, m);
    forall k | 0 <= k < |r|
      ensures r[k] < m ==> Gaps(r, m)[k] > 0.0
      ensures Gaps(r, m)[k] >= 0.0
    {
      GapSign(r[k], m);
    }
    SumIsPositive(Gaps(r, m));
  }

  lemma LeastIsBelow(r: seq<real>, m: real, i: nat)
    requires AllPositive(r) && i < |r| && r[i] > m && forall k :: 0 <= k < |r| ==> r[k] >= m
    ensures SumSquares(r) > m * Sum(r)
  {
    hide Sum, SumSquares, Times;
    GapsAre(r, m);
    forall k | 0 <= k < |r|
      ensures r[k] > m ==> Gaps(r, m)[k] < 0.0
      ensures Gaps(r, m)[k] <= 0.0
    {
      GapSign(r[k], m);
    }
    SumIsNegative(Gaps(r, m));
  }

  lemma EqualIsMean(r: seq<real>, m: real)
    requires AllPositive(r) && forall k :: 0 <= k < |r| ==> r[k] == m
    ensures SumSquares(r) == m * Sum(r)
  {
    hide Sum, SumSquares, Times;
    GapsAre(r, m);
    forall k | 0 <= k < |r|
      ensures Gaps(r, m)[k] == 0.0
    {
      GapSign(r[k], m);
    }
    SumIsPositive(Gaps(r, m));
    SumIsNegative(Gaps(r, m));
  }

  /** With positive rates that are not all equal, some VM has a positive gradient and some VM a
      negative one; with equal rates all gradients are zero. */
  lemma SignsOfGradients(r: seq<real>, w: seq<real>) returns (low: nat, high: nat)
    requires r != [] && |w| == |r| && Weights(w) && AllPositive(r)
    ensures low < |r| && high < |r|
    ensures !AllEqual(r) ==> Gradient(r, low, w[low]) > 0.0 && Gradient(r, high, w[high]) < 0.0
    ensures AllEqual(r) ==> forall k :: 0 <= k < |r| ==> Gradient(r, k, w[k]) == 0.0
  {
    hide Sum, SumSquares, Gradient;
    low := Least(r);
    high := Greatest(r);
    if AllEqual(r) {
      EqualIsMean(r, r[low]);
      forall k | 0 <= k < |r|
        ensures Gradient(r, k, w[k]) == 0.0
      {
        GradientIs(r, k, w[k]);
      }
    } else {
      var i, k :| 0 <= i < |r| && 0 <= k < |r| && r[i] != r[k];
      LeastIsBelow(r, r[low], high);
      GreatestIsAbove(r, r[high], low);
      GradientIs(r, low, w[low]);
      GradientIs(r, high, w[high]);
    }
  }

  lemma {:induction false} Least(r: seq<real>) returns (m: nat)
    requires r != []
    ensures m < |r| && forall k :: 0 <= k < |r| ==> r[m] <= r[k]
  {
    m := 0;
    if |r| > 1 {
      m := Least(r[..|r| - 1]);
      if r[|r| - 1] < r[m] {
        m := |r| - 1;
      }
    }
  }

  lemma {:induction false} Greatest(r: seq<real>) returns (m: nat)
    requires r != []
    ensures m < |r| && forall k :: 0 <= k < |r| ==> r[k] <= r[m]
  {
    m := 0;
    if |r| > 1 {
      m := Greatest(r[..|r| - 1]);
      if r[|r| - 1] > r[m] {
        m := |r| - 1;
      }
    }
  }

  /** A VM with a positive gradient has a smaller rate than one with a negative gradient. */
  lemma TakerIsBehind(r: seq<real>, i: nat, wi: real, k: nat, wk: real)
    requires NonNegative(r) && i < |r| && k < |r| && wi > 0.0 && wk > 0.0
    requires Gradient(r, i, wi) > 0.0 && Gradient(r, k, wk) < 0.0
    ensures r[i] < r[k]
  {
    hide Sum, SumSquares, Gradient;
    GradientIs(r, i, wi);
    GradientIs(r, k, wk);
    SumSquaresBelow(r);
    if r[i] >= r[k] {
      Monotone(r[i], r[k], Sum(r));
    }
  }
}

/** The scheduler that fills working sets (`WFMPolicy`): every VM gets a minimum, and then, those
    that used least for their weight first, what their working set needs. */
module WorksetFilling {
  import opened Sums
  import opened Numbers
  import opened Products
  import opened Ranking
  import opened Greedy
  import Combination

  const MIN_LOC := 900000.0

  /** What a monitor says of a guest. */
  datatype Guest = Guest(name: string, balloonCur: Number, memUnused: Number, swapUsage: Number, weight: Number)

  function UsedBy(g: Guest): Number {
    Plus(Minus(g.balloonCur, g.memUnused), Whole(150000))
  }

  function Worksize(g: Guest): real {
    Val(Plus(UsedBy(g), g.swapUsage))
  }

  ghost predicate ValidGuests(guests: seq<Guest>) {
    && (forall k :: 0 <= k < |guests| ==> Val(guests[k].weight) > 0.0)
    && (forall i, k :: 0 <= i < k < |guests| ==> guests[i].name != guests[k].name)
  }

  function Worksizes(guests: seq<Guest>): (d: seq<real>)
    ensures |d| == |guests|
  {
    seq(|guests|, k requires 0 <= k < |guests| => Worksize(guests[k]))
  }

  /** The memory a guest has used over all rounds, this one included. */
  function UsedSoFar(totalUsed: map<string, Number>, g: Guest): Number {
    Plus(if g.name in totalUsed then totalUsed[g.name] else Whole(0), Minus(UsedBy(g), Whole(150000)))
  }

  function WeightedUse(totalUsed: map<string, Number>, guests: seq<Guest>): (w: seq<real>)
    requires ValidGuests(guests)
    ensures |w| == |guests|
  {
    seq(|guests|, k requires 0 <= k < |guests| => Val(DividedBy(UsedSoFar(totalUsed, guests[k]), guests[k].weight)))
  }

  /** The working set is what is neither free nor out in the swap, and some more; what is added to the
      memory used is what is not free. */
  lemma WorksizesAre(totalUsed: map<string, Number>, guests: seq<Guest>, k: nat)
    requires k < |guests|
    ensures var g := guests[k];
            && Worksizes(guests)[k] == Val(g.balloonCur) - Val(g.memUnused) + Val(g.swapUsage) + 150000.0
            && Val(UsedSoFar(totalUsed, g)) ==
               Val(g.balloonCur) - Val(g.memUnused) + if g.name in totalUsed then Val(totalUsed[g.name]) else 0.0
  {
  }

  /** The memory used, for the weight: of whole numbers, the quotient is rounded down. */
  lemma WeightedUseIs(totalUsed: map<string, Number>, guests: seq<Guest>, k: nat)
    requires ValidGuests(guests) && k < |guests|
    ensures var q, u, w := WeightedUse(totalUsed, guests)[k], UsedSoFar(totalUsed, guests[k]), guests[k].weight;
            if u.Whole? && w.Whole? then
              q == q.Floor as real && Times(q, Val(w)) <= Val(u) < Times(q + 1.0, Val(w))
            else Times(q, Val(w)) == Val(u)
  {
    var u, w := UsedSoFar(totalUsed, guests[k]), guests[k].weight;
    hide UsedSoFar, ValidGuests;
    assert Val(w) > 0.0;
    QuotientIs(u, w);
  }

  lemma QuotientIs(u: Number, w: Number)
    requires Val(w) > 0.0
    ensures var q := Val(DividedBy(u, w));
            if u.Whole? && w.Whole? then
              q == q.Floor as real && Times(q, Val(w)) <= Val(u) < Times(q + 1.0, Val(w))
            else Times(q, Val(w)) == Val(u)
  {
    if u.Whole? && w.Whole? {
      var q := u.i / w.i;
      assert u.i == w.i * q + u.i % w.i;
      RealProduct(q, w.i);
      RealProduct(q + 1, w.i);
    }
  }

  // ---------------------------------------------------------------- the filling

  function Minimums(n: nat): (r: seq<real>)
    ensures |r| == n
  {
    seq(n, k => MIN_LOC)
  }

  /** The working sets, or the minimum where that is more. */
  function Wanted(demands: seq<real>): (r: seq<real>)
    ensures |r| == |demands|
  {
    seq(|demands|, k requires 0 <= k < |demands| => if demands[k] > MIN_LOC then demands[k] else MIN_LOC)
  }

  lemma WantedIsEnough(demands: seq<real>, k: nat, b: real)
    requires k < |demands|
    ensures b >= Wanted(demands)[k] <==> b >= demands[k] && b >= 900000.0
  {
  }

  /** The allocations when the VMs are filled in this order. */
  function Shares(order: seq<nat>, demands: seq<real>, totalMem: real): (r: seq<real>)
    requires Permutes(order, |demands|)
    ensures |r| == |demands|
  {
    Filled(order, Minimums(|demands|), Wanted(demands), totalMem - |demands| as real * MIN_LOC, |order|).cur
  }

  lemma NothingIsCut(order: seq<nat>, demands: seq<real>)
    requires Permutes(order, |demands|)
    ensures NoRaiseAfterCut(order, Minimums(|demands|), Wanted(demands))
    ensures Higher(Minimums(|demands|), Wanted(demands)) == Wanted(demands)
  {
  }

  lemma MinimumsSum(n: nat)
    ensures Sum(Minimums(n)) == n as real * MIN_LOC
  {
    SumConstant(Minimums(n), MIN_LOC);
  }

  /** When there is not even the minimum for all, they get just that. */
  lemma OnlyMinimums(order: seq<nat>, demands: seq<real>, totalMem: real)
    requires Permutes(order, |demands|) && totalMem <= |demands| as real * MIN_LOC
    ensures Shares(order, demands, totalMem) == Minimums(|demands|)
  {
    FilledStops(order, Minimums(|demands|), Wanted(demands), totalMem - |demands| as real * MIN_LOC, 0, |order|);
  }

  /** Every VM gets at least the minimum, and no more than it wants; together they get what they
      want, if there is that much, else what there is; and a VM left short leaves those after
      it at the minimum. */
  lemma SharesAre(order: seq<nat>, demands: seq<real>, totalMem: real)
    requires Permutes(order, |demands|) && totalMem >= |demands| as real * MIN_LOC
    ensures var r := Shares(order, demands, totalMem); var wanted := Wanted(demands);
            && (forall k :: 0 <= k < |demands| ==> MIN_LOC <= r[k] <= wanted[k])
            && Sum(r) == (if Sum(wanted) <= totalMem then Sum(wanted) else totalMem)
            && (forall a, b :: 0 <= a < b < |order| && r[order[a]] < wanted[order[a]] ==> r[order[b]] == MIN_LOC)
  {
    hide Filled, Sum, Higher, NoRaiseAfterCut, Permutes;
    var base, wanted := Minimums(|demands|), Wanted(demands);
    var left := totalMem - |demands| as real * MIN_LOC;
    MinimumsSum(|demands|);
    NothingIsCut(order, demands);
    SumLe(base, wanted);
    OrderFits(order, |demands|);
    if left == 0.0 {
      OnlyMinimums(order, demands, totalMem);
      EqualIfNoMore(base, wanted);
    } else {
      FillEnds(order, base, wanted, left);
      var f := Filled(order, base, wanted, left, |order|);
      if Sum(wanted) >= totalMem {
        ReachedSum(order, base, wanted, totalMem, f);
        forall a, b | 0 <= a < b < |order| && f.cur[order[a]] < wanted[order[a]]
          ensures f.cur[order[b]] == MIN_LOC
        {
          InTurn(order, base, wanted, totalMem, f, a, b);
        }
      }
    }
  }

  lemma OrderFits(order: seq<nat>, n: nat)
    requires Permutes(order, n)
    ensures |order| == n && forall i :: 0 <= i < n ==> order[i] < n
  {
  }

  lemma EqualIfNoMore(base: seq<real>, wanted: seq<real>)
    requires |base| == |wanted| && forall k :: 0 <= k < |base| ==> base[k] <= wanted[k]
    ensures Sum(base) <= Sum(wanted) && (Sum(wanted) <= Sum(base) ==> wanted == base)
  {
    SumLe(base, wanted);
  }

  /** Another way to give every VM at least the minimum and no more than it wants. */
  ghost predicate Feasible(demands: seq<real>, totalMem: real, b: seq<real>) {
    && |b| == |demands| && Sum(b) <= totalMem
    && forall k :: 0 <= k < |b| ==> MIN_LOC <= b[k] <= Wanted(demands)[k]
  }

  /** No other way gives the VMs more, where the ones earlier in the order count first: at the
      first VM at which it differs, it gives less. */
  lemma SharesAreGreatest(order: seq<nat>, demands: seq<real>, totalMem: real, b: seq<real>, k: nat)
    requires Permutes(order, |demands|) && totalMem >= |demands| as real * MIN_LOC && Feasible(demands, totalMem, b)
    requires k < |order|
    requires forall i :: 0 <= i < k ==> b[order[i]] == Shares(order, demands, totalMem)[order[i]]
    ensures b[order[k]] <= Shares(order, demands, totalMem)[order[k]]
  {
    hide Sum, Shares;
    SharesAre(order, demands, totalMem);
    var r := Shares(order, demands, totalMem);
    if r[order[k]] < b[order[k]] {
      forall j | 0 <= j < |demands|
        ensures r[j] <= b[j]
      {
        assert j in order;
        var i :| 0 <= i < |order| && order[i] == j;
      }
      SumLe(r, b);
      SumLe(b, Wanted(demands));
    }
  }

  // ---------------------------------------------------------------- the object

  class WFMPolicy {
    var totalUsed: map<string, Number>

    constructor ()
      ensures totalUsed == map[]
    {
      totalUsed := map[];
    }

    /** One round: adds to what the guests used, and allocates by the order of that, weighted. */
    method Evaluate(totalMem: real, guests: seq<Guest>) returns (allocation: array<real>)
      requires ValidGuests(guests)
      modifies this
      ensures fresh(allocation) && allocation.Length == |guests|
      ensures forall k :: 0 <= k < |guests| ==>
                guests[k].name in totalUsed && totalUsed[guests[k].name] == UsedSoFar(old(totalUsed), guests[k])
      ensures forall x :: x in old(totalUsed) && (forall k :: 0 <= k < |guests| ==> guests[k].name != x) ==>
                x in totalUsed && totalUsed[x] == old(totalUsed[x])
      ensures Permutes(Order(WeightedUse(old(totalUsed), guests)), |guests|)
      ensures allocation[..] == Shares(Order(WeightedUse(old(totalUsed), guests)), Worksizes(guests), totalMem)
    {
      hide Order, Filled, Permutes, Plus, Minus, DividedBy;
      ghost var before := totalUsed;
      var left := totalMem;
      allocation := new real[|guests|];
      var weighted: seq<real> := [];
      for n := 0 to |guests|
        invariant forall k :: 0 <= k < n ==> allocation[k] == MIN_LOC
        invariant left == totalMem - n as real * MIN_LOC
        invariant forall k :: 0 <= k < n ==>
                    guests[k].name in totalUsed && totalUsed[guests[k].name] == UsedSoFar(before, guests[k])
        invariant forall x :: x in before && (forall k :: 0 <= k < n ==> guests[k].name != x) ==>
                    x in totalUsed && totalUsed[x] == before[x]
        invariant forall k :: n <= k < |guests| ==> (guests[k].name in totalUsed <==> guests[k].name in before)
        invariant weighted == WeightedUse(before, guests)[..n]
      {
        var name := guests[n].name;
        if name !in totalUsed {
          totalUsed := totalUsed[name := Whole(0)];
        }
        allocation[n] := MIN_LOC;
        left := left - MIN_LOC;
        totalUsed := totalUsed[name := Plus(totalUsed[name], Minus(UsedBy(guests[n]), Whole(150000)))];
        weighted := weighted + [Val(DividedBy(totalUsed[name], guests[n].weight))];
      }
      assert weighted == WeightedUse(before, guests);
      Combination.OrderIsPermutation(weighted);
      assert allocation[..] == Minimums(|guests|);
      FillUp(allocation, Order(weighted), Worksizes(guests), left);
    }

    /** Gives in order what is left to those that want more than the minimum. */
    method FillUp(allocation: array<real>, rank: seq<nat>, demands: seq<real>, total: real)
      requires allocation.Length == |demands| && Permutes(rank, |demands|) && allocation[..] == Minimums(|demands|)
      modifies allocation
      ensures allocation[..] == Filled(rank, Minimums(|demands|), Wanted(demands), total, |rank|).cur
    {
      hide Filled, Permutes;
      ghost var base, wanted := allocation[..], Wanted(demands);
      FilledFirst(rank, base, wanted, total);
      var left, index := total, 0;
      while left > 0.0 && index < |rank|
        invariant index <= |rank| && Filled(rank, base, wanted, total, index).cur == allocation[..]
        invariant left > 0.0 ==> Filled(rank, base, wanted, total, index).left == left
        invariant left <= 0.0 ==> Filled(rank, base, wanted, total, index).left <= 0.0
        decreases |rank| - index
      {
        var k := rank[index];
        FilledNext(rank, base, wanted, total, index, k);
        ghost var cur := allocation[..];
        var demand := demands[k];
        index := index + 1;
        if demand > MIN_LOC {
          demand := demand - MIN_LOC;
          if demand > left {
            allocation[k] := allocation[k] + left;
            left := 0.0;
          } else {
            left := left - demand;
            allocation[k] := allocation[k] + demand;
          }
        }
        assert allocation[..] == cur[k := allocation[k]];
      }
      if index < |rank| {
        FilledStops(rank, base, wanted, total, index, |rank|);
      }
    }
  }
}

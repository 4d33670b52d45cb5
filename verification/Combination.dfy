/** How `FUPolicy` combines the VMs' fair shares with their demands (`Algorithm`): a surplus goes
    to those furthest below their fair share, a deficit is taken from those furthest above. */
module Combination {
  import opened Sums
  import opened Products
  import opened Ranking
  import opened Greedy

  const HEADROOM := 150000.0

  // ---------------------------------------------------------------- fair shares and demands

  /** Each VM's part of all memory so far, by weight, less what it had. */
  function FairShares(had: seq<real>, weights: seq<real>, totalMem: real): (f: seq<real>)
    requires |had| == |weights|
    ensures |f| == |had|
  {
    seq(|had|, k requires 0 <= k < |had| => Times(totalMem, weights[k]) - had[k])
  }

  /** When the weights are normalized, the fair shares come to what was not allocated yet. */
  lemma {:induction false} FairSharesSum(had: seq<real>, weights: seq<real>, totalMem: real)
    requires |had| == |weights|
    ensures Sum(FairShares(had, weights, totalMem)) == totalMem * Sum(weights) - Sum(had)
  {
    hide Times;
    if had == [] {
      SumOfNone(totalMem);
    } else {
      var n := |had| - 1;
      FairSharesSum(had[..n], weights[..n], totalMem);
      assert FairShares(had, weights, totalMem)[..n] == FairShares(had[..n], weights[..n], totalMem);
      OneMoreWeight(totalMem, Sum(weights[..n]), weights[n], Sum(weights));
    }
  }

  lemma SumOfNone(t: real)
    ensures t * Sum([]) == 0.0
  {
  }

  lemma OneMoreWeight(t: real, w: real, x: real, w': real)
    requires w' == w + x
    ensures t * w' == t * w + Times(t, x)
  {
  }

  /** The weighted amounts f leaves the VMs with stand to each other as their weights do. */
  ghost predicate Proportional(f: seq<real>, had: seq<real>, weights: seq<real>)
    requires |f| == |had| == |weights|
  {
    forall i, k :: 0 <= i < |f| && 0 <= k < |f| ==>
      Times(f[i] + had[i], weights[k]) == Times(f[k] + had[k], weights[i])
  }

  lemma FairSharesAreProportional(had: seq<real>, weights: seq<real>, totalMem: real)
    requires |had| == |weights|
    ensures Proportional(FairShares(had, weights, totalMem), had, weights)
  {
    forall i, k | 0 <= i < |had| && 0 <= k < |had|
      ensures Times(Times(totalMem, weights[i]), weights[k]) == Times(Times(totalMem, weights[k]), weights[i])
    {
      TimesSwaps(totalMem, weights[i], weights[k]);
    }
  }

  lemma TimesSwaps(t: real, x: real, y: real)
    ensures Times(Times(t, x), y) == Times(Times(t, y), x)
  {
  }

  /** For normalized weights they are the only ones that are, of those that come to what was not
      allocated yet. */
  lemma FairSharesAreUnique(had: seq<real>, weights: seq<real>, totalMem: real, f: seq<real>)
    requires |had| == |weights| == |f| && Sum(weights) == 1.0
    requires Proportional(f, had, weights) && Sum(f) == totalMem - Sum(had)
    ensures f == FairShares(had, weights, totalMem)
  {
    hide Sum, Times, Proportional;
    forall i | 0 <= i < |f|
      ensures f[i] == Times(totalMem, weights[i]) - had[i]
    {
      ProportionalSums(f, had, weights, i, |f|);
      assert f[..|f|] == f && had[..|f|] == had && weights[..|f|] == weights;
      TimesOne(f[i] + had[i]);
    }
  }

  lemma TimesOne(x: real)
    ensures Times(x, 1.0) == x
  {
  }

  lemma {:induction false} ProportionalSums(f: seq<real>, had: seq<real>, weights: seq<real>, i: nat, n: nat)
    requires |had| == |weights| == |f| && i < |f| && n <= |f| && Proportional(f, had, weights)
    ensures Times(f[i] + had[i], Sum(weights[..n])) == Times(Sum(f[..n]) + Sum(had[..n]), weights[i])
  {
    hide Times;
    if n == 0 {
      TimesNothing(f[i] + had[i], weights[i]);
    } else {
      ProportionalSums(f, had, weights, i, n - 1);
      assert f[..n][..n - 1] == f[..n - 1] && had[..n][..n - 1] == had[..n - 1];
      assert weights[..n][..n - 1] == weights[..n - 1];
      TimesAdds(f[i] + had[i], Sum(weights[..n - 1]), weights[n - 1]);
      TimesAddsLeft(Sum(f[..n - 1]) + Sum(had[..n - 1]), f[n - 1] + had[n - 1], weights[i]);
    }
  }

  lemma TimesNothing(x: real, y: real)
    ensures Times(x, 0.0) == 0.0 == Times(0.0, y)
  {
  }

  lemma TimesAdds(x: real, y: real, z: real)
    ensures Times(x, y + z) == Times(x, y) + Times(x, z)
  {
  }

  lemma TimesAddsLeft(x: real, y: real, z: real)
    ensures Times(x + y, z) == Times(x, z) + Times(y, z)
  {
  }

  method Fairness(had: seq<real>, weights: seq<real>, totalMem: real) returns (f: seq<real>)
    requires |had| == |weights|
    ensures f == FairShares(had, weights, totalMem)
  {
    hide Times;
    f := [];
    for n := 0 to |had|
      invariant f == FairShares(had[..n], weights[..n], totalMem)
    {
      f := f + [Times(totalMem, weights[n]) - had[n]];
    }
    assert had[..|had|] == had && weights[..|weights|] == weights;
  }

  /** What each VM is expected to need, with some headroom, but no more than it may have. */
  method Utilization(predictors: seq<real>, config: seq<real>) returns (u: array<real>)
    requires |predictors| == |config|
    ensures fresh(u) && u.Length == |config| && Within(u[..], config)
    ensures forall k :: 0 <= k < |config| ==>
              u[k] <= config[k] && u[k] <= predictors[k] + HEADROOM &&
              (u[k] == config[k] || u[k] == predictors[k] + HEADROOM)
  {
    u := new real[|config|];
    for n := 0 to |config|
      invariant forall k :: 0 <= k < n ==>
                u[k] <= config[k] && u[k] <= predictors[k] + HEADROOM &&
                (u[k] == config[k] || u[k] == predictors[k] + HEADROOM)
    {
      var mem := predictors[n] + HEADROOM;
      u[n] := if config[n] < mem then config[n] else mem;
    }
  }

  // ---------------------------------------------------------------- the combination

  function Exceeds(u: seq<real>, f: seq<real>): (e: seq<real>)
    requires |u| == |f|
    ensures |e| == |u|
  {
    seq(|u|, k requires 0 <= k < |u| => u[k] - f[k])
  }

  /** No demand is more than the VM may have, as `Utilization` sees to. */
  ghost predicate Within(u: seq<real>, config: seq<real>)
    requires |u| == |config|
  {
    forall k :: 0 <= k < |u| ==> u[k] <= config[k]
  }

  function Lower(a: seq<real>, b: seq<real>): (r: seq<real>)
    requires |a| == |b|
    ensures |r| == |a|
  {
    seq(|a|, k requires 0 <= k < |a| => if b[k] < a[k] then b[k] else a[k])
  }

  function Negation(a: seq<real>): (r: seq<real>)
    ensures |r| == |a|
  {
    seq(|a|, k requires 0 <= k < |a| => -a[k])
  }

  function Reversed(s: seq<nat>): (r: seq<nat>)
    ensures |r| == |s|
  {
    seq(|s|, k requires 0 <= k < |s| => s[|s| - 1 - k])
  }

  lemma OrderIsPermutation(keys: seq<real>)
    ensures Permutes(Order(keys), |keys|) && Permutes(Reversed(Order(keys)), |keys|) && InRange(Order(keys), |keys|)
    ensures forall i, k :: 0 <= i < k < |keys| ==> keys[Order(keys)[i]] <= keys[Order(keys)[k]]
  {
    hide Order, Reversed, Permutes;
    OrderPermutes(keys);
    Ascends(Order(keys), keys);
    IsPermutation(Order(keys), |keys|);
    ReversedPermutes(Order(keys), |keys|);
  }

  lemma Ascends(order: seq<nat>, keys: seq<real>)
    requires InRange(order, |keys|) && Ordered(order, keys)
    ensures forall i, k :: 0 <= i < k < |order| ==> keys[order[i]] <= keys[order[k]]
  {
    forall i, k | 0 <= i < k < |order|
      ensures keys[order[i]] <= keys[order[k]]
    {
      assert Precedes(keys, order[i], order[k]);
    }
  }

  lemma IsPermutation(order: seq<nat>, n: nat)
    requires |order| == n && InRange(order, n) && (forall k :: 0 <= k < n ==> k in order)
    requires forall i, k :: 0 <= i < k < n ==> order[i] != order[k]
    ensures Permutes(order, n)
  {
  }

  lemma ReversedPermutes(order: seq<nat>, n: nat)
    requires Permutes(order, n)
    ensures Permutes(Reversed(order), n)
  {
    var r := Reversed(order);
    forall k | 0 <= k < n
      ensures k in r
    {
      assert k in order;
      var i :| 0 <= i < n && order[i] == k;
      assert r[n - 1 - i] == k;
    }
  }

  lemma SurplusOrder(u: seq<real>, f: seq<real>, config: seq<real>)
    requires |u| == |f| == |config| && Within(u, config)
    ensures Permutes(Order(Exceeds(u, f)), |u|) && NoRaiseAfterCut(Order(Exceeds(u, f)), u, Lower(f, config))
  {
    hide Order;
    OrderIsPermutation(Exceeds(u, f));
    var order := Order(Exceeds(u, f));
    forall i, k | 0 <= i < k < |order| && Lower(f, config)[order[i]] < u[order[i]]
      ensures Lower(f, config)[order[k]] <= u[order[k]]
    {
      assert Exceeds(u, f)[order[i]] <= Exceeds(u, f)[order[k]];
    }
  }

  lemma DeficitOrder(u: seq<real>, f: seq<real>)
    requires |u| == |f|
    ensures Permutes(Reversed(Order(Exceeds(u, f))), |u|)
    ensures NoRaiseAfterCut(Reversed(Order(Exceeds(u, f))), Negation(u), Negation(f))
  {
    hide Order;
    OrderIsPermutation(Exceeds(u, f));
    var order := Order(Exceeds(u, f));
    var r := Reversed(order);
    forall i, k | 0 <= i < k < |r| && Negation(f)[r[i]] < Negation(u)[r[i]]
      ensures Negation(f)[r[k]] <= Negation(u)[r[k]]
    {
      assert Exceeds(u, f)[r[k]] <= Exceeds(u, f)[r[i]];
    }
  }

  lemma NegationSum(a: seq<real>)
    ensures Sum(Negation(a)) == -Sum(a)
  {
    SumNegated(a, Negation(a));
  }

  /** What the allocations are after a surplus. If the VMs, each raised to its fair share as far
      as it may have that much, could use it up, they get exactly that, those furthest below
      their share first; else every VM gets its fair share, or what it may have. */
  ghost predicate SurplusShared(u: seq<real>, f: seq<real>, config: seq<real>, total: real, r: seq<real>)
    requires |u| == |f| == |config| == |r|
  {
    var cap := Lower(f, config);
    if Sum(Higher(u, cap)) >= total then
      && Sum(r) == total
      && (forall k :: 0 <= k < |u| ==> u[k] <= r[k] <= Higher(u, cap)[k])
      && (forall i, k :: 0 <= i < |u| && 0 <= k < |u| && Exceeds(u, f)[i] < Exceeds(u, f)[k] ==>
         r[i] < Higher(u, cap)[i] ==> r[k] == u[k])
    else
      r == cap && Sum(r) < total
  }

  /** ... and after a deficit. If cutting every VM to its fair share is enough, they get exactly
      the memory there is, those furthest above their share cut first; else every VM is set to
      its fair share, and they get more than there is. */
  ghost predicate DeficitShared(u: seq<real>, f: seq<real>, total: real, r: seq<real>)
    requires |u| == |f| == |r|
  {
    var low := Lower(u, f);
    if Sum(low) <= total then
      && Sum(r) == total
      && (forall k :: 0 <= k < |u| ==> low[k] <= r[k] <= u[k])
      && (forall i, k :: 0 <= i < |u| && 0 <= k < |u| && Exceeds(u, f)[i] > Exceeds(u, f)[k] && r[i] > low[i] ==>
         r[k] == u[k])
    else
      r == f && Sum(r) > total
  }

  lemma SmallerFirst(keys: seq<real>, order: seq<nat>, a: nat, b: nat)
    requires InRange(order, |keys|) && a < |order| && b < |order| && keys[order[a]] < keys[order[b]]
    requires forall i, k :: 0 <= i < k < |order| ==> keys[order[i]] <= keys[order[k]]
    ensures a < b
  {
  }

  /** Smaller keys come first in the order. */
  lemma PlacesInOrder(keys: seq<real>, i: nat, k: nat) returns (a: nat, b: nat)
    requires i < |keys| && k < |keys| && keys[i] < keys[k]
    ensures a < b < |keys| == |Order(keys)| && Order(keys)[a] == i && Order(keys)[b] == k
  {
    hide Order;
    OrderIsPermutation(keys);
    var order := Order(keys);
    assert i in order && k in order;
    a :| 0 <= a < |order| && order[a] == i;
    b :| 0 <= b < |order| && order[b] == k;
    SmallerFirst(keys, order, a, b);
  }

  lemma SurplusEnds(u: seq<real>, f: seq<real>, config: seq<real>, total: real)
    requires |u| == |f| == |config| && Within(u, config) && Sum(u) < total
    ensures Permutes(Order(Exceeds(u, f)), |u|)
    ensures var order := Order(Exceeds(u, f)); SurplusShared(u, f, config, total,
            Filled(order, u, Lower(f, config), total - Sum(u), |order|).cur)
  {
    hide Order, Filled, Sum, Higher, Lower, NoRaiseAfterCut, Permutes, Exceeds;
    SurplusOrder(u, f, config);
    var order, cap := Order(Exceeds(u, f)), Lower(f, config);
    FillEnds(order, u, cap, total - Sum(u));
    var r := Filled(order, u, cap, total - Sum(u), |order|);
    if Sum(Higher(u, cap)) >= total {
      ReachedSum(order, u, cap, total, r);
      forall i, k | 0 <= i < |u| && 0 <= k < |u| && Exceeds(u, f)[i] < Exceeds(u, f)[k] && r.cur[i] < Higher(u, cap)[i]
        ensures r.cur[k] == u[k]
      {
        var a, b := PlacesInOrder(Exceeds(u, f), i, k);
        InTurn(order, u, cap, total, r, a, b);
      }
    }
  }

  lemma DeficitEnds(u: seq<real>, f: seq<real>, total: real)
    requires |u| == |f| && Sum(u) > total
    ensures Permutes(Reversed(Order(Exceeds(u, f))), |u|)
    ensures var order := Reversed(Order(Exceeds(u, f))); DeficitShared(u, f, total,
            Negation(Filled(order, Negation(u), Negation(f), Sum(u) - total, |order|).cur))
  {
    hide Order, Filled, Sum, NoRaiseAfterCut, Permutes, Exceeds;
    var order, u', f', low := Reversed(Order(Exceeds(u, f))), Negation(u), Negation(f), Lower(u, f);
    DeficitOrder(u, f);
    NegationSum(u);
    NegationSum(f);
    NegationSum(low);
    assert Higher(u', f') == Negation(low);
    FillEnds(order, u', f', Sum(u) - total);
    var r := Filled(order, u', f', Sum(u) - total, |order|);
    NegationSum(r.cur);
    if Sum(Higher(u', f')) >= -total {
      ReachedSum(order, u', f', -total, r);
      forall i, k | 0 <= i < |u| && 0 <= k < |u| && Exceeds(u, f)[i] > Exceeds(u, f)[k] && Negation(r.cur)[i] > low[i]
        ensures Negation(r.cur)[k] == u[k]
      {
        var a, b := PlacesInOrder(Exceeds(u, f), k, i);
        InTurn(order, u', f', -total, r, |u| - 1 - b, |u| - 1 - a);
      }
    } else {
      assert Negation(r.cur) == f;
    }
  }

  /** A deficit of nothing is no deficit. */
  lemma NoDeficit(u: seq<real>, f: seq<real>)
    requires |u| == |f|
    ensures DeficitShared(u, f, Sum(u), u)
  {
    SumLe(Lower(u, f), u);
  }

  /** The filling of a surplus in this order, or of a deficit the other way round. */
  function Combined(u: seq<real>, f: seq<real>, config: seq<real>, total: real, order: seq<nat>): (r: seq<real>)
    requires |u| == |f| == |config| && Permutes(order, |u|) && Permutes(Reversed(order), |u|)
    ensures |r| == |u|
  {
    if Sum(u) < total then Filled(order, u, Lower(f, config), total - Sum(u), |order|).cur
    else if Sum(u) > total then Negation(Filled(Reversed(order), Negation(u), Negation(f), Sum(u) - total, |order|).cur)
    else u
  }

  /** The VMs' allocations, in place of their demands. */
  method Combine(f: seq<real>, u: array<real>, total: real, config: seq<real>)
    requires |f| == |config| == u.Length
    modifies u
    ensures old(Sum(u[..])) < total && Within(old(u[..]), config) ==> SurplusShared(old(u[..]), f, config, total, u[..])
    ensures old(Sum(u[..])) >= total ==> DeficitShared(old(u[..]), f, total, u[..])
    ensures var order := Order(Exceeds(old(u[..]), f));
            && Permutes(order, u.Length) && Permutes(Reversed(order), u.Length)
            && u[..] == Combined(old(u[..]), f, config, total, order)
  {
    hide Order, Filled, Sum, NoRaiseAfterCut, Permutes, Reversed, SurplusShared, DeficitShared;
    ghost var u0 := u[..];
    var exceed := Exceeds(u[..], f);
    var order := Order(exceed);
    var demands := 0.0;
    NoSum();
    for n := 0 to u.Length
      invariant demands == Sum(u[..n]) && u[..] == u0
    {
      assert u[..n + 1][..n] == u[..n];
      SumSnoc(u[..n + 1]);
      demands := demands + u[n];
    }
    assert u[..u.Length] == u0;
    OrderIsPermutation(exceed);
    if demands < total {
      if Within(u0, config) {
        SurplusEnds(u0, f, config, total);
      }
      ShareSurplus(f, u, total - demands, config, exceed, order);
    } else {
      CutDeficit(f, u, demands - total, exceed, order);
      if demands > total {
        DeficitEnds(u0, f, total);
      } else {
        NoDeficit(u0, f);
      }
    }
  }

  /** Raises the VMs in order to their fair share, as far as they may have that much. */
  method ShareSurplus(f: seq<real>, u: array<real>, free: real, config: seq<real>, exceed: seq<real>, order: seq<nat>)
    requires |f| == |config| == u.Length && Permutes(order, u.Length) && exceed == Exceeds(u[..], f)
    modifies u
    ensures u[..] == Filled(order, old(u[..]), Lower(f, config), free, |order|).cur
  {
    ghost var u0, cap := u[..], Lower(f, config);
    var leftFree, n := free, 0;
    while leftFree > 0.0 && n < |order|
      invariant n <= |order| && Filled(order, u0, cap, free, n) == Fill(u[..], leftFree)
      decreases |order| - n
    {
      var key := order[n];
      NotYet(order, u0, cap, free, n, n);
      var value := -exceed[key];
      var upperBound := config[key] - u[key];
      if upperBound < value {
        value := upperBound;
      }
      if leftFree > value {
        u[key] := u[key] + value;
      } else {
        u[key] := u[key] + leftFree;
      }
      leftFree := leftFree - value;
      n := n + 1;
      assert u[..] == Stepped(Filled(order, u0, cap, free, n - 1), key, cap).cur;
    }
    if n < |order| {
      FilledStops(order, u0, cap, free, n, |order|);
    }
  }

  /** Cuts the VMs, from the end of the order, to their fair share. */
  method CutDeficit(f: seq<real>, u: array<real>, demand: real, exceed: seq<real>, order: seq<nat>)
    requires |f| == u.Length && Permutes(order, u.Length) && Permutes(Reversed(order), u.Length)
    requires exceed == Exceeds(u[..], f)
    modifies u
    ensures u[..] == (if demand > 0.0 then Negation(Filled(Reversed(order), Negation(old(u[..])), Negation(f), demand,
            |order|).cur) else old(u[..]))
  {
    hide Filled, Stepped, Permutes;
    ghost var before, u0, r, f0 := u[..], Negation(u[..]), Reversed(order), Negation(f);
    FilledFirst(r, u0, f0, demand);
    var leftDemand, n := demand, |order| - 1;
    while leftDemand > 0.0 && n >= 0
      invariant -1 <= n < |order| && Filled(r, u0, f0, demand, |order| - 1 - n) == Fill(Negation(u[..]), leftDemand)
      invariant demand <= 0.0 ==> leftDemand == demand && u[..] == before
      decreases n
    {
      var key := order[n];
      InOrder(order, u.Length, n);
      ghost var us := u[..];
      FilledNext(r, u0, f0, demand, |order| - 1 - n, key);
      var value := exceed[key];
      assert value == us[key] - f[key];
      CutStep(us, f, key, leftDemand);
      if leftDemand > value {
        u[key] := u[key] - value;
      } else {
        u[key] := u[key] - leftDemand;
      }
      leftDemand := leftDemand - value;
      n := n - 1;
      assert u[..] == us[key := u[key]];
    }
    if n >= 0 {
      FilledStops(r, u0, f0, demand, |order| - 1 - n, |order|);
    }
    assert Negation(Negation(u[..])) == u[..];
  }

  /** Cutting is raising, of what is the other way round. */
  lemma CutStep(us: seq<real>, f: seq<real>, key: nat, left: real)
    requires |us| == |f| && key < |us| && left > 0.0
    ensures var value := us[key] - f[key];
            Stepped(Fill(Negation(us), left), key, Negation(f))
            == Fill(Negation(us[key := if left > value then us[key] - value else us[key] - left]), left - value)
  {
    var value := us[key] - f[key];
    assert Negation(us)[key := if left > value then Negation(f)[key] else Negation(us)[key] + left]
        == Negation(us[key := if left > value then us[key] - value else us[key] - left]);
  }

  lemma NoSum()
    ensures Sum([]) == 0.0
  {
  }

  // ---------------------------------------------------------------- what this means

  /** Under a surplus the VMs get no more than there is, and none more than it may have. */
  lemma SurplusFits(u: seq<real>, f: seq<real>, config: seq<real>, total: real, r: seq<real>)
    requires |u| == |f| == |config| == |r| && SurplusShared(u, f, config, total, r) && Within(u, config)
    ensures Sum(r) <= total && forall k :: 0 <= k < |u| ==> r[k] <= config[k] && (r[k] >= u[k] || r[k] >= f[k])
    ensures Sum(r) == total <==> Sum(Higher(u, Lower(f, config))) >= total
  {
    hide Sum, Exceeds;
  }

  /** Under a deficit the memory is met exactly if the VMs' demands, each cut to its fair share,
      fit into it; so it is when the fair shares fit. */
  lemma DeficitMet(u: seq<real>, f: seq<real>, total: real, r: seq<real>)
    requires |u| == |f| == |r| && DeficitShared(u, f, total, r)
    ensures Sum(r) == total <==> Sum(Lower(u, f)) <= total
    ensures Sum(f) <= total ==> Sum(r) == total
    ensures Sum(r) >= total
  {
    hide Sum, Exceeds;
    SumLe(Lower(u, f), f);
  }

  /** The demand is over the memory, but within the fair share: the VM gets it all. */
  lemma OverAllocation(r: seq<real>)
    requires |r| == 1 && DeficitShared([10.0], [10.0], 5.0, r)
    ensures Sum(r) == 10.0
  {
    assert Lower([10.0], [10.0]) == [10.0];
    assert Sum([10.0]) == 10.0 by {
      assert [10.0][..0] == [];
    }
  }
}

/** The order in which Python's `sorted` puts things by a key: ascending, equal keys as they were. */
module Ranking {
  /** The places of the keys, in order of the keys. */
  function Order(keys: seq<real>): seq<nat> {
    if keys == [] then [] else Insert(Order(keys[..|keys| - 1]), keys, |keys| - 1)
  }

  /** Puts place i behind the places whose keys are no greater. */
  function Insert(order: seq<nat>, keys: seq<real>, i: nat): seq<nat>
    requires i < |keys|
  {
    if order == [] || order[|order| - 1] >= |keys| || keys[order[|order| - 1]] <= keys[i] then order + [i]
    else Insert(order[..|order| - 1], keys, i) + [order[|order| - 1]]
  }

  /** Before in the order: a smaller key, or an equal one at an earlier place. */
  predicate Precedes(keys: seq<real>, i: nat, k: nat)
    requires i < |keys| && k < |keys|
  {
    keys[i] < keys[k] || (keys[i] == keys[k] && i < k)
  }

  ghost predicate InRange(order: seq<nat>, n: nat) {
    forall k :: 0 <= k < |order| ==> order[k] < n
  }

  ghost predicate Ordered(order: seq<nat>, keys: seq<real>)
    requires InRange(order, |keys|)
  {
    forall i, k :: 0 <= i < k < |order| ==> Precedes(keys, order[i], order[k])
  }

  lemma OrderedSnoc(order: seq<nat>, keys: seq<real>, x: nat)
    requires InRange(order, |keys|) && Ordered(order, keys) && x < |keys|
    requires forall k :: 0 <= k < |order| ==> Precedes(keys, order[k], x)
    ensures InRange(order + [x], |keys|) && Ordered(order + [x], keys)
  {
  }

  lemma {:induction false} InsertHas(order: seq<nat>, keys: seq<real>, i: nat)
    requires i < |keys|
    ensures multiset(Insert(order, keys, i)) == multiset(order) + multiset{i}
    ensures forall k :: 0 <= k < |Insert(order, keys, i)| ==>
              Insert(order, keys, i)[k] == i || Insert(order, keys, i)[k] in order
  {
    if order != [] && order[|order| - 1] < |keys| && keys[order[|order| - 1]] > keys[i] {
      var init, last := order[..|order| - 1], order[|order| - 1];
      InsertHas(init, keys, i);
      assert order == init + [last];
    }
  }

  lemma {:induction false} InsertKeepsOrder(order: seq<nat>, keys: seq<real>, i: nat)
    requires i < |keys| && InRange(order, i) && Ordered(order, keys)
    ensures InRange(Insert(order, keys, i), i + 1) && Ordered(Insert(order, keys, i), keys)
  {
    InsertHas(order, keys, i);
    if order != [] && keys[order[|order| - 1]] > keys[i] {
      var init, last := order[..|order| - 1], order[|order| - 1];
      InsertKeepsOrder(init, keys, i);
      InsertHas(init, keys, i);
      hide Insert;
      var r := Insert(init, keys, i);
      forall k | 0 <= k < |r|
        ensures Precedes(keys, r[k], last)
      {
        if r[k] != i {
          var j :| 0 <= j < |init| && init[j] == r[k];
          assert order[j] == init[j];
        }
      }
      OrderedSnoc(r, keys, last);
    } else {
      OrderedSnoc(order, keys, i);
    }
  }

  function Places(n: nat): multiset<nat> {
    if n == 0 then multiset{} else Places(n - 1) + multiset{n - 1}
  }

  lemma {:induction false} OrderedByMore(order: seq<nat>, keys: seq<real>, more: seq<real>)
    requires keys <= more && InRange(order, |keys|) && Ordered(order, keys)
    ensures InRange(order, |more|) && Ordered(order, more)
  {
    forall i, k | 0 <= i < k < |order|
      ensures Precedes(more, order[i], order[k])
    {
      assert Precedes(keys, order[i], order[k]);
    }
  }

  lemma NothingIsOrdered(keys: seq<real>)
    ensures Ordered([], keys)
  {
  }

  /** Every place comes once, in order. */
  lemma {:induction false} OrderIs(keys: seq<real>)
    ensures InRange(Order(keys), |keys|) && Ordered(Order(keys), keys) && multiset(Order(keys)) == Places(|keys|)
  {
    hide Insert, Ordered, Precedes;
    if keys == [] {
      NothingIsOrdered(keys);
    } else {
      var init := keys[..|keys| - 1];
      OrderIs(init);
      OrderedByMore(Order(init), init, keys);
      InsertKeepsOrder(Order(init), keys, |keys| - 1);
      InsertHas(Order(init), keys, |keys| - 1);
    }
  }

  lemma {:induction false} PlacesAre(n: nat)
    ensures |Places(n)| == n && forall k: nat :: Places(n)[k] == if k < n then 1 else 0
  {
    if n > 0 {
      PlacesAre(n - 1);
    }
  }

  /** As a list of places: it has each of them at one position. */
  lemma OrderPermutes(keys: seq<real>)
    ensures |Order(keys)| == |keys| && InRange(Order(keys), |keys|) && Ordered(Order(keys), keys)
    ensures forall k :: 0 <= k < |keys| ==> k in Order(keys)
    ensures forall i, k :: 0 <= i < k < |keys| ==> Order(keys)[i] != Order(keys)[k]
  {
    var order := Order(keys);
    OrderIs(keys);
    PlacesAre(|keys|);
    assert |multiset(order)| == |order|;
    forall k | 0 <= k < |keys|
      ensures k in order
    {
      assert k in multiset(order);
    }
    forall i, k | 0 <= i < k < |keys|
      ensures order[i] != order[k]
    {
      assert Precedes(keys, order[i], order[k]);
    }
  }
}

/** How the speed of a VM is estimated (`Fitting`): the progress samples against a standard
    that a regression gives. */
module Fitting {
  import opened Options
  import opened Sums
  import opened Products

  /** A sample's share of the standard, which is at least the sample. */
  function SpeedOf(user: real, standard: real): real {
    if StandardOf(user, standard) == 0.0 then 1.0 else user / StandardOf(user, standard)
  }

  function StandardOf(user: real, standard: real): real {
    if standard < user then user else standard
  }

  lemma SpeedIsShare(user: real, standard: real)
    requires user >= 0.0
    ensures 0.0 <= SpeedOf(user, standard) <= 1.0
    ensures SpeedOf(user, standard) == 1.0 <==> standard <= user
  {
    var s := StandardOf(user, standard);
    if s != 0.0 {
      Quotient(user, s, 0.0);
      Quotient(user, s, 1.0);
    }
  }

  /** Times the standard, the greater of the two, it is the sample; where that is nothing, it is 1. */
  lemma SpeedIs(user: real, standard: real)
    ensures var s, v := StandardOf(user, standard), SpeedOf(user, standard);
            && s >= user && s >= standard && (s == user || s == standard)
            && (if s == 0.0 then v == 1.0 else v * s == user)
  {
  }

  function SpeedsOf(users: seq<real>, standard: real): seq<real> {
    seq(|users|, k requires 0 <= k < |users| => SpeedOf(users[k], standard))
  }

  ghost predicate NoneNegative(users: seq<real>) {
    forall k :: 0 <= k < |users| ==> users[k] >= 0.0
  }

  ghost predicate Shares(s: seq<real>) {
    forall k :: 0 <= k < |s| ==> 0.0 <= s[k] <= 1.0
  }

  function Mean(s: seq<real>): real
    requires s != []
  {
    Sum(s) / |s| as real
  }

  function Deviations(s: seq<real>, x: real): (r: seq<real>)
    ensures |r| == |s|
  {
    seq(|s|, k requires 0 <= k < |s| => s[k] - x)
  }

  lemma {:induction false} SumOfDeviations(s: seq<real>, x: real)
    ensures Sum(Deviations(s, x)) == Sum(s) - Times(|s| as real, x)
  {
    if s != [] {
      var init := s[..|s| - 1];
      SumOfDeviations(init, x);
      assert Deviations(s, x)[..|s| - 1] == Deviations(init, x);
      assert Times(|s| as real, x) == Times(|init| as real, x) + x;
    }
  }

  /** The mean is where what is above it and what is below cancel. */
  lemma MeanCancels(s: seq<real>, x: real)
    requires s != []
    ensures Mean(s) == x <==> Sum(Deviations(s, x)) == 0.0
  {
    hide Sum;
    SumOfDeviations(s, x);
    Quotient(Sum(s), |s| as real, x);
  }

  lemma {:induction false} SumOfShares(s: seq<real>)
    requires Shares(s)
    ensures 0.0 <= Sum(s) <= |s| as real
  {
    if s != [] {
      SumOfShares(s[..|s| - 1]);
    }
  }

  lemma MeanOfShares(s: seq<real>)
    requires Shares(s) && s != []
    ensures 0.0 <= Mean(s) <= 1.0
  {
    SumOfShares(s);
    Quotient(Sum(s), |s| as real, 0.0);
    Quotient(Sum(s), |s| as real, 1.0);
  }

  /** The samples a fit has to be based on before there is a speed: a window of averages over as
      many samples. */
  function Needed(window: nat): int {
    window + window - 1
  }

  class Fitting {
    // The scheduler's AVE_LEN and WINDOW, which are equal.
    const window: nat
    var users: seq<real>
    var aveUsers: seq<real>
    var pfs: seq<real>
    var avePfs: seq<real>
    var time: seq<real>
    var standardUsers: seq<real>
    var insSpeed: seq<real>
    var fitted: bool

    /** No entry of `insSpeed` is there before the first fit; if no sample was negative, every one
        is a share. */
    ghost predicate Valid()
      reads this
    {
      && window > 0 && (NoneNegative(users) ==> Shares(insSpeed))
      && |users| == |pfs| == |time| && |aveUsers| == |avePfs| == (if |users| < window then 0 else |users| - window + 1)
      && |insSpeed| == |standardUsers|
      && (fitted <==> insSpeed != [])
      && (fitted ==> |users| >= Needed(window))
    }

    constructor (window: nat)
      requires window > 0
      ensures Valid() && this.window == window && users == [] && !fitted
    {
      this.window := window;
      users, aveUsers, pfs, avePfs, time, standardUsers, insSpeed, fitted := [], [], [], [], [], [], [], false;
    }

    /** The mean of the `window` values before the last, or of those there are. */
    function MeanValue(s: seq<real>): Option<real>
      requires window > 0
    {
      if |s| < window then None
      else Some(Sum(s[if |s| < window + 1 then 0 else |s| - 1 - window..|s| - 1]) / window as real)
    }

    function ListOf(x: Option<real>): seq<real> {
      match x case Some(v) => [v] case None => []
    }

    method Update(growUser: real, growPf: real, total: real)
      requires Valid()
      modifies this
      ensures Valid() && users == old(users) + [growUser]
      ensures NoneNegative(users) <==> NoneNegative(old(users)) && growUser >= 0.0
      ensures pfs == old(pfs) + [growPf] && time == old(time) + [total / 100.0]
      ensures aveUsers == old(aveUsers) + ListOf(MeanValue(users)) && avePfs == old(avePfs) + ListOf(MeanValue(pfs))
      ensures insSpeed == old(insSpeed) && standardUsers == old(standardUsers) && fitted == old(fitted)
    {
      assert forall k :: 0 <= k < |users| ==> (users + [growUser])[k] == users[k];
      assert (users + [growUser])[|users|] == growUser;
      users := users + [growUser];
      var mean := MeanValue(users);
      if mean.Some? {
        aveUsers := aveUsers + [mean.value];
      }
      pfs := pfs + [growPf];
      mean := MeanValue(pfs);
      if mean.Some? {
        avePfs := avePfs + [mean.value];
      }
      time := time + [total / 100.0];
    }

    /** Appends the standard for sample `index`, and its speed by the standard at that index.
        The index is that of the entry just appended: the next one, or -1 for the last. */
    method AppendStandard(standard: real, index: int)
      requires |insSpeed| == |standardUsers| && users != []
      requires index == -1 || (0 <= index < |users| && index == |standardUsers|)
      modifies this`standardUsers, this`insSpeed
      ensures var user := users[if index == -1 then |users| - 1 else index];
              && standardUsers == old(standardUsers) + [StandardOf(user, standard)]
              && insSpeed == old(insSpeed) + [SpeedOf(user, standard)]
    {
      var user := users[if index == -1 then |users| - 1 else index];
      var s := if standard < user then user else standard;
      standardUsers := standardUsers + [s];
      var speed := 1.0;
      var at := standardUsers[if index == -1 then |standardUsers| - 1 else index];
      if at != 0.0 {
        speed := user / at;
      }
      insSpeed := insSpeed + [speed];
    }

    /** The speed by a regression's intercept, once there are samples enough: the mean of every
        entry so far. The first fit adds one for each sample, each fit one for the last. */
    method GetSpeed(intercept: real) returns (speed: Option<real>)
      requires Valid()
      modifies this`standardUsers, this`insSpeed, this`fitted
      ensures Valid()
      ensures speed.Some? <==> |users| >= Needed(window)
      ensures speed.None? ==> insSpeed == old(insSpeed) && fitted == old(fitted)
      ensures speed.Some? ==>
                fitted && speed.value == Mean(insSpeed) && (NoneNegative(users) ==> 0.0 <= speed.value <= 1.0)
      ensures speed.Some? ==>
                insSpeed == old(insSpeed) + (if old(fitted) then [] else SpeedsOf(users, intercept)) +
                [SpeedOf(users[|users| - 1], intercept)]
    {
      hide Mean, Sum, SpeedOf, MeanValue;
      if |aveUsers| < window {
        return None;
      }
      ghost var before := insSpeed;
      if !fitted {
        for i := 0 to |users|
          invariant |standardUsers| == i && insSpeed == SpeedsOf(users[..i], intercept)
        {
          AppendStandard(intercept, i);
          assert SpeedsOf(users[..i + 1], intercept) ==
                 SpeedsOf(users[..i], intercept) + [SpeedOf(users[i], intercept)];
        }
        assert users[..|users|] == users;
        fitted := true;
      }
      AppendStandard(intercept, -1);
      if NoneNegative(users) {
        SpeedsAreShares(users, intercept);
        SpeedIsShare(users[|users| - 1], intercept);
        MeanOfShares(insSpeed);
      }
      speed := Some(Mean(insSpeed));
    }
  }

  lemma SpeedsAreShares(users: seq<real>, standard: real)
    requires NoneNegative(users)
    ensures Shares(SpeedsOf(users, standard))
  {
    forall k | 0 <= k < |users|
      ensures 0.0 <= SpeedOf(users[k], standard) <= 1.0
    {
      SpeedIsShare(users[k], standard);
    }
  }
}

/** The gradient scheduler (`GradientPolicy`): how it chooses who gives memory to whom, and what
    it keeps over its rounds. */
module Gradient {
  import opened Options
  import opened Sums
  import opened Products
  import opened Numbers
  import opened Fairness
  import opened Machines

  const WARMUP_COUNT := 4
  const AVE_LEN := 4

  /** The direction and the maximal step after a round that found this gradient: a change of
      sign halves the step. */
  function Stepped(direction: Direction, maxStep: Number, gradient: real): (Direction, Number) {
    (if gradient < 0.0 then Down else if gradient > 0.0 then Up else direction,
     if (direction == Down && gradient > 0.0) || (direction == Up && gradient < 0.0) then Over(maxStep, 2) else maxStep)
  }

  // ---------------------------------------------------------------- who gives to whom

  ghost predicate GradientsSet(infos: seq<VMInfo>)
    reads infos`rate, infos`gradient
  {
    forall k :: 0 <= k < |infos| ==>
      infos[k].weight > 0.0 && infos[k].gradient == Gradient(Rates(infos), k, infos[k].weight)
  }

  /** The giver has the most negative gradient, the taker the greatest of those that are not
      at full speed; without one, there is none. */
  ghost predicate Selected(infos: seq<VMInfo>, giver: VMInfo?, taker: VMInfo?)
    reads infos`gradient, infos`speed
    ensures Selected(infos, giver, taker) ==> (giver != null ==> giver in infos) && (taker != null ==> taker in infos)
  {
    && (giver == null ==> forall k :: 0 <= k < |infos| ==> infos[k].gradient >= 0.0)
    && (taker == null ==> forall k :: 0 <= k < |infos| ==> infos[k].gradient <= 0.0 || infos[k].speed >= 1.0)
    && (giver != null ==> giver in infos && giver.gradient < 0.0 && forall k ::
       0 <= k < |infos| ==> giver.gradient <= infos[k].gradient)
    && (taker != null ==> taker in infos && taker.gradient > 0.0 && taker.speed < 1.0
                          && forall k :: 0 <= k < |infos| ==>
                             infos[k].gradient <= taker.gradient || infos[k].speed >= 1.0)
  }

  function WeightsOf(infos: seq<VMInfo>): seq<real> {
    seq(|infos|, k requires 0 <= k < |infos| => infos[k].weight)
  }

  /** When all rates are positive and differ, there is a giver, and a taker if no VM is at full
      speed; when they are equal there is neither. */
  lemma SelectionFinds(infos: seq<VMInfo>, giver: VMInfo?, taker: VMInfo?)
    requires GradientsSet(infos) && Selected(infos, giver, taker) && infos != [] && AllPositive(Rates(infos))
    ensures !AllEqual(Rates(infos)) ==>
              giver != null && ((forall k :: 0 <= k < |infos| ==> infos[k].speed < 1.0) ==> taker != null)
    ensures AllEqual(Rates(infos)) ==> giver == null && taker == null
  {
    hide Gradient, AllEqual, AllPositive, Rates;
    var low, high := SignsOfGradients(Rates(infos), WeightsOf(infos));
    assert infos[low].gradient == Gradient(Rates(infos), low, WeightsOf(infos)[low]);
    assert infos[high].gradient == Gradient(Rates(infos), high, WeightsOf(infos)[high]);
    if AllEqual(Rates(infos)) {
      forall k | 0 <= k < |infos|
        ensures infos[k].gradient == 0.0
      {
        assert infos[k].gradient == Gradient(Rates(infos), k, WeightsOf(infos)[k]);
      }
    }
  }

  /** The taker is behind the giver. */
  lemma TakerBehindGiver(infos: seq<VMInfo>, giver: VMInfo, taker: VMInfo)
    requires GradientsSet(infos) && Selected(infos, giver, taker) && NonNegative(Rates(infos))
    ensures taker.rate < giver.rate
  {
    hide Gradient, NonNegative, Rates;
    var i :| 0 <= i < |infos| && infos[i] == taker;
    var k :| 0 <= k < |infos| && infos[k] == giver;
    TakerIsBehind(Rates(infos), i, infos[i].weight, k, infos[k].weight);
  }

  /** The block that moves. */
  function BlockOf(giver: VMInfo, taker: VMInfo): Number
    reads giver`maxStep, giver`limit1, taker`maxStep
  {
    MinOf(MinOf(MinOf(giver.maxStep, taker.maxStep), taker.limit2), giver.limit1)
  }

  /** It is the least of the four limits. */
  lemma BlockIsLeast(giver: VMInfo, taker: VMInfo, b: real)
    ensures b <= Val(BlockOf(giver, taker)) <==>
              b <= Val(giver.maxStep) && b <= Val(taker.maxStep) && b <= Val(taker.limit2) && b <= Val(giver.limit1)
  {
  }

  /** A step is halved when the gradient has the other sign than the one noted last, a whole number
      rounded down; what is noted is the sign, unless it is none. */
  lemma SteppedIs(direction: Direction, maxStep: Number, gradient: real)
    ensures var (d, m) := Stepped(direction, maxStep, gradient);
            && (d == Up <==> gradient > 0.0 || (gradient == 0.0 && direction == Up))
            && (d == Down <==> gradient < 0.0 || (gradient == 0.0 && direction == Down))
            && (if direction != Unknown && d != direction then Val(m) <= Val(maxStep) / 2.0 < Val(m) + 1.0
                else m == maxStep)
            && (m.Part? && m != maxStep ==> Val(m) == Val(maxStep) / 2.0)
  {
  }

  /** Just this block is to move from the one to the other, if there are both. */
  ghost predicate BlockMoves(infos: seq<VMInfo>, giver: VMInfo?, taker: VMInfo?, givers: map<VMInfo, Number>,
                             takers: map<VMInfo, Number>)
    reads infos`maxStep, infos`limit1
  {
    if giver == null || taker == null then givers == map[] && takers == map[]
    else
      && giver in infos && taker in infos && giver != taker
      && givers == map[giver := Negated(BlockOf(giver, taker))] && takers == map[taker := BlockOf(giver, taker)]
  }

  lemma SelectedAreThere(infos: seq<VMInfo>, giver: VMInfo, taker: VMInfo)
    requires Selected(infos, giver, taker)
    ensures giver in infos && taker in infos
  {
  }

  // ---------------------------------------------------------------- what a round leaves

  ghost predicate Restepped(infos: seq<VMInfo>, steps: seq<(Direction, Number)>)
    reads infos`gradient, infos`direction, infos`maxStep
  {
    && |steps| == |infos|
    && forall k :: 0 <= k < |infos| ==>
         (infos[k].direction, infos[k].maxStep) == Stepped(steps[k].0, steps[k].1, infos[k].gradient)
  }

  /** Unless a rate is negative or none is positive, every VM has its fairness, gradient and step, and
      the giver and the taker are chosen. */
  ghost predicate Decided(infos: seq<VMInfo>, giver: VMInfo?, taker: VMInfo?, steps: seq<(Direction, Number)>)
    reads infos`rate, infos`speed, infos`fairness, infos`gradient, infos`direction, infos`maxStep
  {
    if NonNegative(Rates(infos)) && SumSquares(Rates(infos)) > 0.0 then
      Scored(infos) && GradientsSet(infos) && Restepped(infos, steps) && Selected(infos, giver, taker)
    else giver == null && taker == null && Steps(infos) == steps
  }

  /** The giver loses the block to the taker, if there are both. */
  ghost predicate FairlyMoved(infos: seq<VMInfo>, giver: VMInfo?, taker: VMInfo?, before: seq<Number>,
                              told: seq<Option<Number>>)
    reads infos`allocation, infos`target, infos`maxStep, infos`limit1
  {
    if giver == null || taker == null then Unmoved(infos, before, told)
    else giver in infos && taker in infos && BlockMoved(infos, giver, taker, Val(BlockOf(giver, taker)), before, told)
  }

  /** What a round after the first ones leaves of each VM: a block moved if every VM is busy, nothing
      if none is, and the free memory evened out if some are. */
  ghost predicate Rebalanced(infos: seq<VMInfo>, giver: VMInfo?, taker: VMInfo?, steps: seq<(Direction, Number)>,
                             before: seq<Number>, told: seq<Option<Number>>)
    reads infos
  {
    if AllBusy(infos) then Decided(infos, giver, taker, steps) && FairlyMoved(infos, giver, taker, before, told)
    else
      && Steps(infos) == steps
      && if AllIdle(infos) then Unmoved(infos, before, told) else EvenedOut(infos, before, told)
  }

  /** The moves of such a round, before they are carried out. */
  ghost predicate Chosen(infos: seq<VMInfo>, giver: VMInfo?, taker: VMInfo?, steps: seq<(Direction, Number)>,
                         givers: map<VMInfo, Number>, takers: map<VMInfo, Number>, before: seq<Number>)
    requires |before| == |infos| > 0
    reads infos`rate, infos`speed, infos`fairness, infos`gradient, infos`direction, infos`maxStep, infos`limit1
    reads infos`used, infos`free
  {
    if AllBusy(infos) then Decided(infos, giver, taker, steps) && BlockMoves(infos, giver, taker, givers, takers)
    else
      && Steps(infos) == steps
      && if AllIdle(infos) then givers == map[] && takers == map[]
         else BalancedWith(infos, before, Over(FreeTotal(infos, before), |infos|), givers, takers)
  }

  /** What any round leaves: equal shares in the first ones. */
  ghost predicate RoundLeaves(infos: seq<VMInfo>, giver: VMInfo?, taker: VMInfo?, warm: bool, totalMem: real,
                              steps: seq<(Direction, Number)>, before: seq<Number>, told: seq<Option<Number>>)
    reads infos
  {
    if warm then Steps(infos) == steps && SharedEqually(infos, totalMem, told)
    else Rebalanced(infos, giver, taker, steps, before, told)
  }

  lemma SomeAreFirst()
    ensures 0 < WARMUP_COUNT
  {
  }

  lemma RoundIs(infos: seq<VMInfo>, giver: VMInfo?, taker: VMInfo?, warm: bool, totalMem: real,
                steps: seq<(Direction, Number)>, before: seq<Number>, told: seq<Option<Number>>)
    ensures RoundLeaves(infos, giver, taker, warm, totalMem, steps, before, told) <==>
              if warm then Steps(infos) == steps && SharedEqually(infos, totalMem, told)
              else Rebalanced(infos, giver, taker, steps, before, told)
  {
  }

  lemma FairChosen(infos: seq<VMInfo>, giver: VMInfo?, taker: VMInfo?, steps: seq<(Direction, Number)>,
                   givers: map<VMInfo, Number>, takers: map<VMInfo, Number>)
    requires infos != [] && AllBusy(infos) && Decided(infos, giver, taker, steps)
    requires BlockMoves(infos, giver, taker, givers, takers)
    ensures Chosen(infos, giver, taker, steps, givers, takers, Allocations(infos))
  {
  }

  lemma IdleChosen(infos: seq<VMInfo>)
    requires infos != [] && !AllBusy(infos) && AllIdle(infos)
    ensures Chosen(infos, null, null, Steps(infos), map[], map[], Allocations(infos))
  {
  }

  lemma MeanChosen(infos: seq<VMInfo>, givers: map<VMInfo, Number>, takers: map<VMInfo, Number>)
    requires infos != [] && !AllBusy(infos) && !AllIdle(infos)
    requires BalancedWith(infos, Allocations(infos), Over(FreeTotal(infos, Allocations(infos)), |infos|), givers,
                          takers)
    ensures Chosen(infos, null, null, Steps(infos), givers, takers, Allocations(infos))
  {
    hide BalancedWith, FreeTotal, Over, Allocations, Steps;
  }

  lemma Leaves(infos: seq<VMInfo>, giver: VMInfo?, taker: VMInfo?, steps: seq<(Direction, Number)>,
               givers: map<VMInfo, Number>, takers: map<VMInfo, Number>, before: seq<Number>,
               told: seq<Option<Number>>)
    requires |before| == |infos| > 0 && Chosen(infos, giver, taker, steps, givers, takers, before)
    requires Carried(infos, givers, takers, before, told)
    ensures Rebalanced(infos, giver, taker, steps, before, told)
  {
    hide Decided, BlockMoves, Carried, BalancedWith, Unmoved, EvenedOut, FairlyMoved, Steps, AllBusy, AllIdle,
      FreeTotal, Over;
    if AllBusy(infos) {
      CarriedFairly(infos, giver, taker, givers, takers, before, told);
    } else if AllIdle(infos) {
      CarriedNothing(infos, before, told);
    } else {
      CarriedEvenly(infos, givers, takers, before, told);
    }
  }

  /** What carrying out such moves leaves. */
  lemma CarriedFairly(infos: seq<VMInfo>, giver: VMInfo?, taker: VMInfo?, givers: map<VMInfo, Number>,
                      takers: map<VMInfo, Number>, before: seq<Number>, told: seq<Option<Number>>)
    requires BlockMoves(infos, giver, taker, givers, takers) && Carried(infos, givers, takers, before, told)
    ensures FairlyMoved(infos, giver, taker, before, told)
  {
    hide Carried, BlockOf, Negated;
    if giver == null || taker == null {
      CarriedNothing(infos, before, told);
    } else {
      CarriedBlock(infos, giver, taker, BlockOf(giver, taker), before, told);
    }
  }

  lemma DecidedIs(infos: seq<VMInfo>, giver: VMInfo?, taker: VMInfo?, steps: seq<(Direction, Number)>)
    requires infos != [] && |steps| == |infos|
    ensures var ok := NonNegative(Rates(infos)) && SumSquares(Rates(infos)) > 0.0;
            Decided(infos, giver, taker, steps) <==>
              if ok then Scored(infos) && GradientsSet(infos) && Restepped(infos, steps) &&
                         Selected(infos, giver, taker)
              else giver == null && taker == null && Steps(infos) == steps
  {
  }

  lemma PairIs(infos: seq<VMInfo>, giver: VMInfo, taker: VMInfo, steps: seq<(Direction, Number)>)
    requires Decided(infos, giver, taker, steps)
    ensures giver in infos && taker in infos && taker.rate < giver.rate
  {
    hide GradientsSet, Restepped, Rates, NonNegative, SumSquares, Scored, Steps;
    SelectedAreThere(infos, giver, taker);
    TakerBehindGiver(infos, giver, taker);
  }

  // ---------------------------------------------------------------- the scheduler

  class GradientPolicy {
    const step: Number
    var infos: seq<VMInfo>
    var count: nat
    var givers: map<VMInfo, Number>
    var takers: map<VMInfo, Number>
    /** All reports so far. */
    ghost var history: seq<Report>

    ghost predicate Valid()
      reads this`infos, this`history, infos`speed, infos`rate, infos`balloon, infos`free, infos`used, infos`user,
            infos`limit1
      reads set v | v in infos :: v.fitting
    {
      Known(infos, history)
    }

    constructor (step: Number)
      ensures Valid() && infos == [] && count == 0 && history == []
    {
      this.step, infos, count, givers, takers, history := step, [], 0, map[], map[], [];
    }

    /** The memory allocated to the VMs together. */
    function Spent(): real
      reads this`infos, infos`allocation
    {
      Total(Allocations(infos))
    }

    /** The fairness and every VM's gradient; false if a rate is negative or none is positive. */
    method UpdateGradient() returns (ok: bool)
      requires infos != [] && forall k :: 0 <= k < |infos| ==> infos[k].weight > 0.0
      modifies infos`fairness, infos`gradient
      ensures ok <==> NonNegative(Rates(infos)) && SumSquares(Rates(infos)) > 0.0
      ensures ok ==> GradientsSet(infos) && Scored(infos)
      ensures !ok ==> forall k :: 0 <= k < |infos| ==>
                infos[k].fairness == old(infos[k].fairness) && infos[k].gradient == old(infos[k].gradient)
    {
      hide Sum, SumSquares, Square, PartialDerivative, Index, Rates;
      ghost var r := Rates(infos);
      var sumA, sumB := 0.0, 0.0;
      NoSums();
      for n := 0 to |infos|
        invariant Rates(infos) == r && forall k :: 0 <= k < |infos| ==>
                    infos[k].fairness == old(infos[k].fairness) && infos[k].gradient == old(infos[k].gradient)
        invariant NonNegative(r[..n]) && sumA == SumSquares(r[..n]) && sumB == Sum(r[..n])
      {
        var rate := infos[n].rate;
        if rate < 0.0 {
          assert r[n] < 0.0;
          return false;
        }
        assert r[..n + 1][..n] == r[..n];
        SumSnoc(r[..n + 1]);
        SumSquaresSnoc(r[..n + 1]);
        sumA := sumA + Square(rate);
        sumB := sumB + rate;
      }
      assert r[..|r|] == r;
      SumSquaresBelow(r);
      if sumA == 0.0 {
        return false;
      }
      var fairness := Index(sumB, |infos| as real, sumA);
      for n := 0 to |infos|
        invariant Rates(infos) == r
        invariant forall k :: 0 <= k < n ==>
                    infos[k].fairness == Jain(r) && infos[k].gradient == Gradient(r, k, infos[k].weight)
      {
        var info := infos[n];
        info.fairness := fairness;
        info.gradient := PartialDerivative(sumA - Square(info.rate), sumB - info.rate, info.rate, info.weight);
      }
      ok := true;
    }

    method UpdateStep()
      requires Distinct(infos)
      modifies infos`maxStep, infos`direction
      ensures forall k :: 0 <= k < |infos| ==>
                (infos[k].direction, infos[k].maxStep) ==
                  Stepped(old(infos[k].direction), old(infos[k].maxStep), infos[k].gradient)
      ensures Restepped(infos, old(Steps(infos)))
    {
      hide Steps;
      for n := 0 to |infos|
        invariant forall k :: 0 <= k < n ==>
                    (infos[k].direction, infos[k].maxStep) ==
                      Stepped(old(infos[k].direction), old(infos[k].maxStep), infos[k].gradient)
        invariant forall k :: n <= k < |infos| ==>
                    infos[k].direction == old(infos[k].direction) && infos[k].maxStep == old(infos[k].maxStep)
      {
        var info := infos[n];
        if info.direction == Down && info.gradient > 0.0 {
          info.maxStep := Over(info.maxStep, 2);
        } else if info.direction == Up && info.gradient < 0.0 {
          info.maxStep := Over(info.maxStep, 2);
        }
        if info.gradient < 0.0 {
          info.direction := Down;
        } else if info.gradient > 0.0 {
          info.direction := Up;
        }
      }
    }

    method Select() returns (giver: VMInfo?, taker: VMInfo?)
      ensures Selected(infos, giver, taker)
    {
      var takerGrad, giverGrad := 0.0, 0.0;
      giver, taker := null, null;
      for n := 0 to |infos|
        invariant Selected(infos[..n], giver, taker)
        invariant giverGrad == (if giver == null then 0.0 else giver.gradient)
        invariant takerGrad == (if taker == null then 0.0 else taker.gradient)
      {
        var info := infos[n];
        var grad := info.gradient;
        if grad > takerGrad && info.speed < 1.0 {
          taker, takerGrad := info, grad;
        }
        if grad < giverGrad {
          giver, giverGrad := info, grad;
        }
        assert infos[..n + 1] == infos[..n] + [info];
      }
      assert infos[..|infos|] == infos;
    }

    /** Brings gradients and steps up to date, and chooses a giver and a taker. */
    method ChoosePair() returns (giver: VMInfo?, taker: VMInfo?)
      requires infos != [] && Distinct(infos) && forall k :: 0 <= k < |infos| ==> infos[k].weight > 0.0
      modifies infos`fairness, infos`gradient, infos`maxStep, infos`direction
      ensures Decided(infos, giver, taker, old(Steps(infos)))
    {
      hide *;
      ghost var steps := Steps(infos);
      giver, taker := null, null;
      var ok := UpdateGradient();
      if ok {
        UpdateStep();
        giver, taker := Select();
      } else {
        assert Steps(infos) == steps;
      }
      DecidedIs(infos, giver, taker, steps);
    }

    /** The taker is behind the giver. */
    method FindPair() returns (giver: VMInfo?, taker: VMInfo?)
      requires Valid() && infos != []
      modifies infos`fairness, infos`gradient, infos`maxStep, infos`direction
      ensures Valid() && Decided(infos, giver, taker, old(Steps(infos)))
      ensures giver != null && taker != null ==> giver in infos && taker in infos && taker.rate < giver.rate
    {
      hide *;
      Apart();
      WeightsArePositive();
      ghost var steps := Steps(infos);
      giver, taker := ChoosePair();
      if giver != null && taker != null {
        PairIs(infos, giver, taker, steps);
      }
    }

    /** Chooses a giver and a taker, if there are both, and the block that is to move. */
    method PerfFair() returns (giver: VMInfo?, taker: VMInfo?)
      requires Valid() && infos != [] && givers == map[] && takers == map[]
      modifies this`givers, this`takers, infos`fairness, infos`gradient, infos`maxStep, infos`direction
      ensures Valid() && Decided(infos, giver, taker, old(Steps(infos)))
      ensures BlockMoves(infos, giver, taker, givers, takers)
      ensures giver != null && taker != null ==> giver in infos && taker in infos && taker.rate < giver.rate
    {
      hide *;
      giver, taker := FindPair();
      if giver != null && taker != null {
        MoveBlock(giver, taker);
      } else {
        NoBlock(giver, taker);
      }
    }

    /** Notes what is to move. */
    method MoveBlock(giver: VMInfo, taker: VMInfo)
      requires givers == map[] && takers == map[] && giver in infos && taker in infos && giver != taker
      modifies this`givers, this`takers
      ensures BlockMoves(infos, giver, taker, givers, takers)
    {
      var blk := MinOf(MinOf(MinOf(giver.maxStep, taker.maxStep), taker.limit2), giver.limit1);
      givers := givers[giver := Negated(blk)];
      takers := takers[taker := blk];
    }

    lemma NoBlock(giver: VMInfo?, taker: VMInfo?)
      requires giver == null || taker == null
      ensures BlockMoves(infos, giver, taker, map[], map[])
    {
    }

    lemma Apart()
      requires Valid()
      ensures Distinct(infos)
    {
    }

    lemma WeightsArePositive()
      requires Valid()
      ensures forall k :: 0 <= k < |infos| ==> infos[k].weight > 0.0
    {
      forall k | 0 <= k < |infos|
        ensures infos[k].weight > 0.0
      {
        assert infos[k].Valid();
      }
    }

    /** The first rounds share the memory equally. */
    method WarmUp(totalMem: real) returns (warm: bool)
      requires infos != [] && Valid()
      modifies this`count, infos`allocation, infos`target
      ensures Valid() && (warm <==> old(count) < WARMUP_COUNT)
      ensures count == if warm then old(count) + 1 else old(count)
      ensures forall k :: 0 <= k < |infos| ==>
                infos[k].allocation == if warm then Over(Part(totalMem), |infos|) else old(infos[k].allocation)
      ensures forall k :: 0 <= k < |infos| ==>
                infos[k].target == if warm && Issues(infos[k].allocation, infos[k].configured)
                                   then Some(infos[k].allocation) else old(infos[k].target)
      ensures !warm ==> Allocations(infos) == old(Allocations(infos)) && Targets(infos) == old(Targets(infos))
      ensures warm ==> Spent() == totalMem && SharedEqually(infos, totalMem, old(Targets(infos)))
    {
      hide Over, Issues, Total, Allocations, Targets, AllValid, AllHeard, SharedEqually;
      if count >= WARMUP_COUNT {
        return false;
      }
      count := count + 1;
      ShareEqually(infos, totalMem);
      return true;
    }

    /** Performance fairness as moves that add up to nothing. */
    method FairMoves() returns (ghost giver: VMInfo?, ghost taker: VMInfo?)
      requires Valid() && infos != [] && givers == map[] && takers == map[]
      modifies this`givers, this`takers, infos`fairness, infos`gradient, infos`maxStep, infos`direction
      ensures Valid() && Decided(infos, giver, taker, old(Steps(infos)))
      ensures BlockMoves(infos, giver, taker, givers, takers)
      ensures AllBusy(infos) ==> Ready(giver, taker, old(Steps(infos)))
      ensures Allowed(givers, takers) && Added(infos, givers) + Added(infos, takers) == 0.0
    {
      hide *;
      ghost var steps := Steps(infos);
      Apart();
      giver, taker := PerfFair();
      BlockAddsUp(giver, taker);
      if AllBusy(infos) {
        FairChosen(infos, giver, taker, steps, givers, takers);
        ReadyIs(giver, taker, steps);
      }
    }

    lemma BlockAddsUp(giver: VMInfo?, taker: VMInfo?)
      requires Distinct(infos) && BlockMoves(infos, giver, taker, givers, takers)
      ensures Allowed(givers, takers) && Added(infos, givers) + Added(infos, takers) == 0.0
    {
      hide Added, BlockOf, Distinct;
      NothingAdded(infos);
      if giver != null && taker != null {
        MovedTotal(infos, giver, taker, BlockOf(giver, taker));
      }
    }

    /** Moves that can be carried out. */
    ghost predicate Allowed(givers: map<VMInfo, Number>, takers: map<VMInfo, Number>)
      reads this`infos
    {
      givers.Keys + takers.Keys <= (set v | v in infos) && givers.Keys !! takers.Keys
    }

    /** The moves of a round can be carried out, and add up to what it loses. */
    ghost predicate Ready(giver: VMInfo?, taker: VMInfo?, steps: seq<(Direction, Number)>)
      reads this`infos, this`givers, this`takers, infos
    {
      && infos != [] && Chosen(infos, giver, taker, steps, givers, takers, Allocations(infos))
      && Allowed(givers, takers) && Added(infos, givers) + Added(infos, takers) == -Lost(infos)
    }

    lemma ReadyIs(giver: VMInfo?, taker: VMInfo?, steps: seq<(Direction, Number)>)
      requires infos != []
      ensures Ready(giver, taker, steps) <==>
                && Chosen(infos, giver, taker, steps, givers, takers, Allocations(infos))
                && Allowed(givers, takers) && Added(infos, givers) + Added(infos, takers) == -Lost(infos)
    {
    }

    lemma IdleReady()
      requires infos != [] && !AllBusy(infos) && AllIdle(infos) && givers == map[] && takers == map[]
      ensures Ready(null, null, Steps(infos))
    {
      hide *;
      NothingAdded(infos);
      NothingAllowed();
      IdleChosen(infos);
      ReadyIs(null, null, Steps(infos));
    }

    lemma MeanReady()
      requires infos != [] && Mixed(infos) && Allowed(givers, takers)
      requires BalancedWith(infos, Allocations(infos), Over(FreeTotal(infos, Allocations(infos)), |infos|), givers,
                            takers)
      requires Added(infos, givers) + Added(infos, takers) == -(Remainder(TotalFree(infos), |infos|) as real)
      ensures Ready(null, null, Steps(infos))
    {
      hide *;
      MixedIs(infos);
      LostIs(infos);
      MeanChosen(infos, givers, takers);
      ReadyIs(null, null, Steps(infos));
    }

    /** The free memory evened out. */
    method Utilization()
      requires Valid() && infos != []
      modifies this`givers, this`takers
      ensures Allowed(givers, takers)
      ensures BalancedWith(infos, Allocations(infos), Over(FreeTotal(infos, Allocations(infos)), |infos|), givers,
                           takers)
      ensures Mixed(infos) ==> Ready(null, null, Steps(infos))
      ensures Added(infos, givers) + Added(infos, takers) == -(Remainder(TotalFree(infos), |infos|) as real)
    {
      hide Added, Known, Balanced, BalancedWith, TotalFree, FreeTotal, Allocations, Over, Remainder, Distinct, Ready,
        Mixed, Steps;
      AreDistinct(infos, history);
      givers, takers := MeanByFree(infos);
      BalancedTotal(infos, givers, takers);
      BalancedIs(infos, givers, takers);
      BalancedApart(infos, Over(TotalFree(infos), |infos|), givers, takers);
      if Mixed(infos) {
        MeanReady();
      }
    }

    /** Decides the moves of this round: performance fairness if every VM is busy, an equal share
        of the free memory if only some are. */
    method ChooseMoves() returns (ghost giver: VMInfo?, ghost taker: VMInfo?)
      requires Valid() && infos != []
      modifies this`givers, this`takers, infos`fairness, infos`gradient, infos`maxStep, infos`direction
      ensures Valid() && Ready(giver, taker, old(Steps(infos)))
    {
      hide *;
      var busy, idle := DivideGroup(infos);
      MixedIs(infos);
      takers, givers, giver, taker := map[], map[], null, null;
      if idle == [] {
        giver, taker := FairMoves();
      } else if busy != [] {
        Utilization();
      } else {
        IdleReady();
      }
    }

    lemma NothingAllowed()
      ensures Allowed(map[], map[])
    {
    }

    /** Decides them and carries them out. A round that moves free memory loses what the division
        leaves over, and no other loses anything. */
    method Rebalance() returns (ghost giver: VMInfo?, ghost taker: VMInfo?)
      requires Valid() && infos != []
      modifies this`givers, this`takers, infos`fairness, infos`gradient, infos`maxStep, infos`direction,
               infos`allocation, infos`target
      ensures Valid()
      ensures Rebalanced(infos, giver, taker, old(Steps(infos)), old(Allocations(infos)), old(Targets(infos)))
      ensures Spent() == old(Spent()) - old(Lost(infos))
    {
      hide *;
      ghost var steps, before, told := Steps(infos), Allocations(infos), Targets(infos);
      ghost var lost := Lost(infos);
      SpentIs();
      giver, taker := ChooseMoves();
      ReadyIs(giver, taker, steps);
      AllowedIs();
      assert Lost(infos) == lost && Allocations(infos) == before;
      ghost var added, taken := Added(infos, givers), Added(infos, takers);
      CarryOut(infos, givers, takers);
      SpentIs();
      assert Spent() == Total(before) + added + taken;
      Leaves(infos, giver, taker, steps, givers, takers, before, told);
    }

    lemma SpentIs()
      ensures Spent() == Total(Allocations(infos))
    {
    }

    lemma AllowedIs()
      ensures Allowed(givers, takers) <==>
                (forall v :: v in givers || v in takers ==> v in infos) && (forall v :: v in givers ==> v !in takers)
    {
    }

    /** Takes in the reports; VMs that join have nothing yet. */
    method TakeIn(reports: seq<Report>)
      requires Valid() && (infos != [] || reports != []) && Weighted(reports)
      modifies this`infos, this`history, infos`user, infos`pagefault, infos`free, infos`balloon, infos`used,
               infos`limit1, infos`speed, infos`rate, set v | v in infos :: v.fitting
      ensures Valid() && old(infos) <= infos && infos != [] && history == old(history) + reports
      ensures forall k :: |old(infos)| <= k < |infos| ==> fresh(infos[k]) && fresh(infos[k].fitting)
      ensures Spent() == old(Spent()) && Steps(infos) == Padded(old(Steps(infos)), |infos|, (Unknown, step))
      ensures Allocations(infos) == Padded(old(Allocations(infos)), |infos|, Whole(0))
      ensures Targets(infos) == Padded(old(Targets(infos)), |infos|, None)
    {
      hide Known, Total, Allocations, Targets, Steps, Padded;
      ghost var before := Allocations(infos);
      infos := UpdateInfos(infos, reports, step, AVE_LEN, history);
      history := history + reports;
      TotalWithJoiners(before, Allocations(infos));
    }

    lemma CounterRates()
      requires Valid() && Growing(history)
      ensures NonNegative(Rates(infos))
    {
      RatesAreNonNegative(infos, history);
    }

    /** What happens in a round after the reports. */
    method Round(totalMem: real) returns (ghost giver: VMInfo?, ghost taker: VMInfo?)
      requires Valid() && infos != []
      modifies this`count, this`givers, this`takers, infos`fairness, infos`gradient, infos`maxStep, infos`direction,
               infos`allocation, infos`target
      ensures Valid() && count == if old(count) < WARMUP_COUNT then old(count) + 1 else old(count)
      ensures RoundLeaves(infos, giver, taker, old(count) < WARMUP_COUNT, totalMem, old(Steps(infos)),
                          old(Allocations(infos)), old(Targets(infos)))
      ensures old(count) < WARMUP_COUNT ==> Spent() == totalMem
      ensures old(count) >= WARMUP_COUNT && (AllBusy(infos) || AllIdle(infos)) ==> Spent() == old(Spent())
      ensures old(count) >= WARMUP_COUNT ==> old(Spent()) - |infos| as real < Spent() <= old(Spent())
    {
      hide *;
      ghost var steps, before, told := Steps(infos), Allocations(infos), Targets(infos);
      var warm := WarmUp(totalMem);
      giver, taker := null, null;
      if !warm {
        giver, taker := Rebalance();
      }
      RoundIs(infos, giver, taker, warm, totalMem, steps, before, told);
    }

    /** One round: reports in, then the first rounds share the memory equally, and later ones
        move some of it. */
    method Evaluate(totalMem: real, reports: seq<Report>) returns (ghost giver: VMInfo?, ghost taker: VMInfo?)
      requires Valid() && (infos != [] || reports != []) && Weighted(reports)
      modifies this`infos, this`history, this`count, this`givers, this`takers, infos, set v | v in infos :: v.fitting
      ensures Valid() && old(infos) <= infos && infos != [] && history == old(history) + reports
      ensures forall k :: |old(infos)| <= k < |infos| ==> fresh(infos[k]) && fresh(infos[k].fitting)
      ensures Growing(history) ==> NonNegative(Rates(infos))
      ensures count == if old(count) < WARMUP_COUNT then old(count) + 1 else old(count)
      ensures old(count) < WARMUP_COUNT ==> Spent() == totalMem
      ensures old(count) >= WARMUP_COUNT && (AllBusy(infos) || AllIdle(infos)) ==>
                Spent() == old(Spent())
      ensures old(count) >= WARMUP_COUNT ==>
                old(Spent()) - |infos| as real < Spent() <= old(Spent())
      ensures RoundLeaves(infos, giver, taker, old(count) < WARMUP_COUNT, totalMem,
                          Padded(old(Steps(infos)), |infos|, (Unknown, step)),
                          Padded(old(Allocations(infos)), |infos|, Whole(0)),
                          Padded(old(Targets(infos)), |infos|, None))
    {
      hide *;
      TakeIn(reports);
      giver, taker := Round(totalMem);
      if Growing(history) {
        CounterRates();
      }
    }

    /** A run of the scheduler from its start, with a fixed amount of memory. What it allocates
        is that amount after each of the first rounds, and never more later; it falls short by
        less than the number of VMs a round. Unless a progress counter runs backwards, no rate
        ever becomes negative. */
    method Run(totalMem: real, rounds: seq<seq<Report>>)
      requires Valid() && infos == [] && history == [] && count == 0
      requires rounds != [] && rounds[0] != [] && forall n :: 0 <= n < |rounds| ==> Weighted(rounds[n])
      modifies this`infos, this`history, this`count, this`givers, this`takers
      ensures Valid() && infos != [] && history == Flat(rounds)
      ensures Growing(Flat(rounds)) ==> NonNegative(Rates(infos))
      ensures |rounds| <= WARMUP_COUNT ==> Spent() == totalMem
      ensures Spent() <= totalMem
      ensures Spent() >= totalMem - Times(|rounds| as real, |infos| as real)
    {
      hide *;
      NothingFlat(rounds);
      SomeAreFirst();
      for n := 0 to |rounds|
        invariant Valid() && (n > 0 ==> infos != []) && history == Flat(rounds[..n])
        invariant fresh(set v | v in infos) && fresh(set v | v in infos :: v.fitting)
        invariant n > 0 && Growing(history) ==> NonNegative(Rates(infos))
        invariant count == (if n < WARMUP_COUNT then n else WARMUP_COUNT)
        invariant 0 < n <= WARMUP_COUNT ==> Spent() == totalMem
        invariant n > 0 ==> totalMem - Times(n as real, |infos| as real) <= Spent() <= totalMem
      {
        ghost var m, spent := |infos|, Spent();
        var _, _ := Evaluate(totalMem, rounds[n]);
        FlatGrows(rounds, n);
        StillWithin(totalMem, spent, Spent(), n as real, m as real, |infos| as real);
      }
    }
  }
}

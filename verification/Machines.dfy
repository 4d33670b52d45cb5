/** The virtual machines as the schedulers see them (`VM_Info`, the same in `GradientPolicy` and in
    `RPPolicy`), and what both do with all of them: taking in reports, sharing the memory equally,
    evening out free memory, and carrying out the moves of a round. */
module Machines {
  import opened Options
  import opened Sums
  import opened Products
  import opened Numbers
  import opened Fairness
  import opened Fitting

  const MAX_FREE := Whole(200000)
  const MINIMUM := Whole(1100000)
  const LIMIT2 := Whole(10000)

  datatype Direction = Unknown | Up | Down

  /** What a monitor says of a guest, and the intercept the regression would give now. */
  datatype Report = Report(name: string, weight: real, balloonMax: Number, memUnused: Number, balloonCur: Number,
    user: real, majorFault: real, total: real, intercept: real)

  // ---------------------------------------------------------------- a VM

  /** Whether `setBalloon` issues a target. */
  predicate Issues(allocation: Number, configured: Number) {
    Val(MINIMUM) <= Val(allocation) <= Val(configured)
  }

  /** What a VM uses: its balloon less what is free in it, and some more. */
  function UsedOf(balloon: Number, free: Number): Number {
    Plus(Minus(balloon, free), Whole(150000))
  }

  class VMInfo {
    const name: string
    const weight: real
    const configured: Number
    const startUser: real
    const fitting: Fitting
    var user: real
    var pagefault: real
    var free: Number
    var balloon: Number
    var used: Number
    var allocation: Number
    var speed: real
    var rate: real
    var fairness: real
    var gradient: real
    var maxStep: Number
    var limit1: Number
    const limit2: Number
    var direction: Direction
    var target: Option<Number>

    ghost predicate Valid()
      reads this`speed, this`rate, this`balloon, this`free, this`used, fitting
    {
      && weight > 0.0 && fitting.Valid() && (NoneNegative(fitting.users) ==> 0.0 <= speed <= 1.0)
      && rate == speed / weight && limit2 == LIMIT2
      && used == UsedOf(balloon, free)
    }

    /** A VM that joins: nothing is allocated to it yet. */
    constructor (guest: Report, step: Number, window: nat)
      requires guest.weight > 0.0 && window > 0
      ensures Valid() && fresh(fitting) && name == guest.name && weight == guest.weight && user == guest.user
      ensures configured == guest.balloonMax && free == guest.memUnused && balloon == guest.balloonCur
      ensures allocation == Whole(0) && target == None && speed == 0.0 && maxStep == step && direction == Unknown
      ensures fitting.window == window && fitting.users == [] && Joining(this, guest)
    {
      name, weight, configured := guest.name, guest.weight, guest.balloonMax;
      allocation, speed, rate, fairness, gradient := Whole(0), 0.0, 0.0 / guest.weight, 0.0, 0.0;
      startUser, user, pagefault := guest.user, guest.user, guest.majorFault;
      limit1, limit2, maxStep, direction, target := Whole(0), LIMIT2, step, Unknown, None;
      free, balloon, used := guest.memUnused, guest.balloonCur, UsedOf(guest.balloonCur, guest.memUnused);
      var f := new Fitting(window);
      fitting := f;
      new;
      Update(guest);
    }

    /** What a new report changes. */
    method Update(guest: Report)
      requires Valid()
      modifies this`user, this`pagefault, this`free, this`balloon, this`used, this`limit1, this`speed, this`rate,
               fitting
      ensures Valid() && user == guest.user && pagefault == guest.majorFault
      ensures free == guest.memUnused && balloon == guest.balloonCur
      ensures limit1 == Minus(guest.balloonCur, MINIMUM)
      ensures fitting.users == old(fitting.users) + (if guest.user == startUser then [] else [guest.user - old(user)])
      ensures old(NoneNegative(fitting.users)) && guest.user >= old(user) ==> NoneNegative(fitting.users)
      ensures |fitting.users| < Needed(fitting.window) ==> speed == old(speed)
      ensures |fitting.users| >= Needed(fitting.window) ==> fitting.insSpeed != [] && speed == Mean(fitting.insSpeed)
    {
      hide Sum, Mean, SpeedOf, SpeedsOf, Shares, Fitting.Valid, Fitting.MeanValue, Fitting.ListOf, NoneNegative, UsedOf;
      free, balloon := guest.memUnused, guest.balloonCur;
      var growUser, growPf := guest.user - user, guest.majorFault - pagefault;
      user, pagefault := guest.user, guest.majorFault;
      limit1 := Minus(balloon, MINIMUM);
      if guest.user != startUser {
        fitting.Update(growUser, growPf, guest.total);
      }
      used := UsedOf(balloon, free);
      var s := fitting.GetSpeed(guest.intercept);
      if s.Some? {
        speed, rate := s.value, s.value / weight;
      }
    }

    method SetBalloon()
      modifies this`target
      ensures target == if Issues(allocation, configured) then Some(allocation) else old(target)
    {
      if Val(allocation) <= Val(configured) && Val(allocation) >= Val(MINIMUM) {
        target := Some(allocation);
      }
    }
  }

  /** All that is known of a VM is this report. */
  ghost predicate Joining(info: VMInfo, guest: Report)
    reads info`user, info`free, info`balloon, info`limit1, info.fitting`users
  {
    && info.name == guest.name && info.weight == guest.weight && info.configured == guest.balloonMax
    && info.startUser == info.user == guest.user && info.fitting.users == []
    && info.free == guest.memUnused && info.balloon == guest.balloonCur
    && info.limit1 == Minus(guest.balloonCur, MINIMUM)
  }

  lemma RateIsNonNegative(speed: real, weight: real)
    requires weight > 0.0 && speed >= 0.0
    ensures speed / weight >= 0.0 && (speed / weight > 0.0 <==> speed > 0.0)
  {
    Quotient(speed, weight, 0.0);
  }

  // ---------------------------------------------------------------- the VMs together

  ghost predicate Distinct(infos: seq<VMInfo>) {
    && (forall i, k :: 0 <= i < k < |infos| ==> infos[i] != infos[k])
    && (forall i, k :: 0 <= i < k < |infos| ==> infos[i].fitting != infos[k].fitting)
    && (forall i, k :: 0 <= i < k < |infos| ==> infos[i].name != infos[k].name)
  }

  function Rates(infos: seq<VMInfo>): (r: seq<real>)
    reads infos`rate
    ensures |r| == |infos| && forall k :: 0 <= k < |r| ==> r[k] == infos[k].rate
  {
    if infos == [] then [] else Rates(infos[..|infos| - 1]) + [infos[|infos| - 1].rate]
  }

  function Allocations(infos: seq<VMInfo>): (r: seq<Number>)
    reads infos`allocation
    ensures |r| == |infos| && forall k :: 0 <= k < |r| ==> r[k] == infos[k].allocation
  {
    if infos == [] then [] else Allocations(infos[..|infos| - 1]) + [infos[|infos| - 1].allocation]
  }

  /** The memory allocated to the VMs together. */
  function Total(allocations: seq<Number>): real {
    if allocations == [] then 0.0 else Total(allocations[..|allocations| - 1]) + Val(allocations[|allocations| - 1])
  }

  /** An allocation after a block is added to it, if there is one for the VM. */
  function Raised(n: Number, maps: map<VMInfo, Number>, info: VMInfo): Number {
    if info in maps then Plus(n, maps[info]) else n
  }

  /** What a round adds to the VMs together. */
  function Added(infos: seq<VMInfo>, maps: map<VMInfo, Number>): real {
    if infos == [] then 0.0 else
      var last := infos[|infos| - 1];
      Added(infos[..|infos| - 1], maps) + if last in maps then Val(maps[last]) else 0.0
  }

  /** `free`, or what an allocation has above the minimum if the VM uses less than that. */
  function FreeWith(info: VMInfo, allocation: Number): Number
    reads info`used, info`free
  {
    if Val(info.used) < Val(MINIMUM) then Minus(allocation, MINIMUM) else info.free
  }

  function FreeOf(info: VMInfo): Number
    reads info`used, info`free, info`allocation
  {
    FreeWith(info, info.allocation)
  }

  function TotalFree(infos: seq<VMInfo>): Number
    reads infos`used, infos`free, infos`allocation
  {
    if infos == [] then Whole(0) else Plus(TotalFree(infos[..|infos| - 1]), FreeOf(infos[|infos| - 1]))
  }

  /** ... with these allocations. */
  function FreeTotal(infos: seq<VMInfo>, allocations: seq<Number>): Number
    requires |allocations| == |infos|
    reads infos`used, infos`free
  {
    var n := |infos| - 1;
    if infos == [] then Whole(0)
    else Plus(FreeTotal(infos[..n], allocations[..n]), FreeWith(infos[n], allocations[n]))
  }

  lemma {:induction false} FreeTotalIs(infos: seq<VMInfo>)
    ensures TotalFree(infos) == FreeTotal(infos, Allocations(infos))
  {
    hide FreeWith, Plus;
    if infos != [] {
      FreeTotalIs(infos[..|infos| - 1]);
      assert Allocations(infos)[..|infos| - 1] == Allocations(infos[..|infos| - 1]);
    }
  }

  lemma {:induction false} TotalRaised(before: seq<Number>, after: seq<Number>, infos: seq<VMInfo>, maps: map<VMInfo,
                                       Number>)
    requires |before| == |after| == |infos| && forall k :: 0 <= k < |infos| ==>
               after[k] == Raised(before[k], maps, infos[k])
    ensures Total(after) == Total(before) + Added(infos, maps)
  {
    var n := |infos| - 1;
    if infos != [] {
      TotalRaised(before[..n], after[..n], infos[..n], maps);
    }
  }

  lemma {:induction false} NothingAdded(infos: seq<VMInfo>)
    ensures Added(infos, map[]) == 0.0
  {
    if infos != [] {
      NothingAdded(infos[..|infos| - 1]);
    }
  }

  lemma {:induction false} OneAdded(infos: seq<VMInfo>, info: VMInfo, blk: Number)
    requires forall i, k :: 0 <= i < k < |infos| ==> infos[i] != infos[k]
    ensures Added(infos, map[info := blk]) == if info in infos then Val(blk) else 0.0
  {
    if infos != [] {
      OneAdded(infos[..|infos| - 1], info, blk);
    }
  }

  lemma {:induction false} TotalOfEqual(allocations: seq<Number>, share: real)
    requires forall k :: 0 <= k < |allocations| ==> Val(allocations[k]) == share
    ensures Total(allocations) == |allocations| as real * share
  {
    if allocations != [] {
      TotalOfEqual(allocations[..|allocations| - 1], share);
      Distribute(share, |allocations| as real - 1.0, 1.0);
    }
  }

  /** Equal shares of what is there. */
  lemma TotalShared(allocations: seq<Number>, totalMem: real)
    requires allocations != [] && forall k :: 0 <= k < |allocations| ==>
               allocations[k] == Over(Part(totalMem), |allocations|)
    ensures Total(allocations) == totalMem
  {
    SharesMakeUp(Part(totalMem), |allocations|);
    TotalOfEqual(allocations, Val(Over(Part(totalMem), |allocations|)));
  }

  /** VMs that join with nothing allocated leave the total as it was. */
  lemma {:induction false} TotalWithJoiners(before: seq<Number>, after: seq<Number>)
    requires before <= after && forall k :: |before| <= k < |after| ==> Val(after[k]) == 0.0
    ensures Total(after) == Total(before)
  {
    if |after| == |before| {
      assert after == before;
    } else {
      TotalWithJoiners(before, after[..|after| - 1]);
    }
  }

  /** Adds the blocks to the allocations, in some order, and sets the balloons. */
  method TriggerBalloon(maps: map<VMInfo, Number>)
    modifies maps.Keys`allocation, maps.Keys`target
    ensures forall v :: v in maps ==> v.allocation == Plus(old(v.allocation), maps[v])
    ensures forall v :: v in maps ==>
              v.target == if Issues(v.allocation, v.configured) then Some(v.allocation) else old(v.target)
  {
    var left := maps.Keys;
    while left != {}
      invariant left <= maps.Keys
      invariant forall v :: v in left ==> v.allocation == old(v.allocation) && v.target == old(v.target)
      invariant forall v :: v in maps && v !in left ==> v.allocation == Plus(old(v.allocation), maps[v])
      invariant forall v :: v in maps && v !in left ==>
                  v.target == if Issues(v.allocation, v.configured) then Some(v.allocation) else old(v.target)
      decreases |left|
    {
      var info :| info in left;
      info.allocation := Plus(info.allocation, maps[info]);
      info.SetBalloon();
      left := left - {info};
    }
  }

  // ---------------------------------------------------------------- what a round leaves

  function Targets(infos: seq<VMInfo>): (r: seq<Option<Number>>)
    reads infos`target
    ensures |r| == |infos| && forall k :: 0 <= k < |r| ==> r[k] == infos[k].target
  {
    if infos == [] then [] else Targets(infos[..|infos| - 1]) + [infos[|infos| - 1].target]
  }

  /** The VM's target after `setBalloon`, when it was `target` before. */
  ghost predicate Told(info: VMInfo, target: Option<Number>)
    reads info`allocation, info`target
  {
    info.target == if Issues(info.allocation, info.configured) then Some(info.allocation) else target
  }

  /** What the moves make of an allocation. */
  function Allotted(allocation: Number, info: VMInfo, givers: map<VMInfo, Number>, takers: map<VMInfo,
                    Number>): Number {
    Raised(Raised(allocation, givers, info), takers, info)
  }

  /** Each VM has an equal share and is told. Here and below, `told` is what it was told before. */
  ghost predicate SharedEqually(infos: seq<VMInfo>, totalMem: real, told: seq<Option<Number>>)
    reads infos`allocation, infos`target
  {
    && infos != [] && |told| == |infos|
    && forall k :: 0 <= k < |infos| ==>
         infos[k].allocation == Over(Part(totalMem), |infos|) && Told(infos[k], told[k])
  }

  /** Nothing is moved, and no VM is told anything. */
  ghost predicate Unmoved(infos: seq<VMInfo>, before: seq<Number>, told: seq<Option<Number>>)
    reads infos`allocation, infos`target
  {
    && |before| == |told| == |infos|
    && forall k :: 0 <= k < |infos| ==> infos[k].allocation == before[k] && infos[k].target == told[k]
  }

  /** This much is moved from the one to the other, and the two are told. */
  ghost predicate BlockMoved(infos: seq<VMInfo>, giver: VMInfo, taker: VMInfo, blk: real, before: seq<Number>,
                             told: seq<Option<Number>>)
    reads infos`allocation, infos`target
  {
    && giver in infos && taker in infos && giver != taker && |before| == |told| == |infos|
    && forall k :: 0 <= k < |infos| ==>
         if infos[k] == giver then Val(infos[k].allocation) == Val(before[k]) - blk && Told(infos[k], told[k])
         else if infos[k] == taker then Val(infos[k].allocation) == Val(before[k]) + blk && Told(infos[k], told[k])
         else infos[k].allocation == before[k] && infos[k].target == told[k]
  }

  /** Each VM is moved to the mean of what was free, and is told. */
  ghost predicate EvenedOut(infos: seq<VMInfo>, before: seq<Number>, told: seq<Option<Number>>)
    reads infos`used, infos`free, infos`allocation, infos`target
  {
    && infos != [] && |before| == |told| == |infos|
    && var mean := Over(FreeTotal(infos, before), |infos|);
       forall k :: 0 <= k < |infos| ==>
         && Val(infos[k].allocation) == Val(before[k]) + Val(mean) - Val(FreeWith(infos[k], before[k]))
         && Told(infos[k], told[k])
  }

  /** The moves are carried out. */
  ghost predicate Carried(infos: seq<VMInfo>, givers: map<VMInfo, Number>, takers: map<VMInfo, Number>,
                          before: seq<Number>, told: seq<Option<Number>>)
    reads infos`allocation, infos`target
  {
    && |before| == |told| == |infos|
    && forall k :: 0 <= k < |infos| ==>
         && infos[k].allocation == Allotted(before[k], infos[k], givers, takers)
         && if infos[k] in givers || infos[k] in takers then Told(infos[k], told[k]) else infos[k].target == told[k]
  }

  lemma CarriedNothing(infos: seq<VMInfo>, before: seq<Number>, told: seq<Option<Number>>)
    requires Carried(infos, map[], map[], before, told)
    ensures Unmoved(infos, before, told)
  {
    hide Told;
  }

  lemma CarriedBlock(infos: seq<VMInfo>, giver: VMInfo, taker: VMInfo, blk: Number, before: seq<Number>,
                     told: seq<Option<Number>>)
    requires Carried(infos, map[giver := Negated(blk)], map[taker := blk], before, told)
    requires giver in infos && taker in infos && giver != taker
    ensures BlockMoved(infos, giver, taker, Val(blk), before, told)
  {
    hide Told, Plus, Negated;
  }

  lemma CarriedEvenly(infos: seq<VMInfo>, givers: map<VMInfo, Number>, takers: map<VMInfo, Number>, before: seq<Number>,
                      told: seq<Option<Number>>)
    requires infos != [] && Carried(infos, givers, takers, before, told)
    requires BalancedWith(infos, before, Over(FreeTotal(infos, before), |infos|), givers, takers)
    ensures EvenedOut(infos, before, told)
  {
    hide Told, FreeWith, FreeTotal, Over, Plus, Minus;
  }

  /** Which way each VM's gradient pointed, and its maximal step. */
  function Steps(infos: seq<VMInfo>): (r: seq<(Direction, Number)>)
    reads infos`direction, infos`maxStep
    ensures |r| == |infos| && forall k :: 0 <= k < |r| ==> r[k] == (infos[k].direction, infos[k].maxStep)
  {
    var n := |infos| - 1;
    if infos == [] then [] else Steps(infos[..n]) + [(infos[n].direction, infos[n].maxStep)]
  }

  /** Every VM has the fairness of the rates. */
  ghost predicate Scored(infos: seq<VMInfo>)
    reads infos`rate, infos`fairness
  {
    && infos != [] && SumSquares(Rates(infos)) > 0.0
    && forall k :: 0 <= k < |infos| ==> infos[k].fairness == Jain(Rates(infos))
  }

  /** Before guests join: those that join have this. */
  function Padded<T>(xs: seq<T>, n: nat, x: T): (r: seq<T>)
    ensures |xs| <= n ==> |r| == n
    ensures forall k :: 0 <= k < |r| ==> r[k] == if k < |xs| then xs[k] else x
  {
    if n <= |xs| then xs else Padded(xs, n - 1, x) + [x]
  }

  lemma {:induction false} TotalPadded(before: seq<Number>, n: nat)
    requires |before| <= n
    ensures Total(Padded(before, n, Whole(0))) == Total(before)
  {
    TotalWithJoiners(before, Padded(before, n, Whole(0)));
  }

  // ---------------------------------------------------------------- evening out what is free

  ghost predicate AllBusy(infos: seq<VMInfo>)
    reads infos`free
  {
    forall k :: 0 <= k < |infos| ==> Val(infos[k].free) < Val(MAX_FREE)
  }

  ghost predicate AllIdle(infos: seq<VMInfo>)
    reads infos`free
  {
    forall k :: 0 <= k < |infos| ==> Val(infos[k].free) >= Val(MAX_FREE)
  }

  /** Some VMs are busy, and some are idle. */
  ghost predicate Mixed(infos: seq<VMInfo>)
    reads infos`free
  {
    !AllBusy(infos) && !AllIdle(infos)
  }

  /** What a round loses: what the division of the free memory leaves over, if that is evened out. */
  ghost function Lost(infos: seq<VMInfo>): (r: real)
    requires infos != []
    reads infos`used, infos`free, infos`allocation
    ensures 0.0 <= r < |infos| as real && (AllBusy(infos) || AllIdle(infos) ==> r == 0.0)
  {
    if AllBusy(infos) || AllIdle(infos) then 0.0 else Remainder(TotalFree(infos), |infos|) as real
  }

  lemma LostIs(infos: seq<VMInfo>)
    requires infos != []
    ensures Lost(infos) == if AllBusy(infos) || AllIdle(infos) then 0.0
                           else Remainder(TotalFree(infos), |infos|) as real
  {
  }

  lemma MixedIs(infos: seq<VMInfo>)
    ensures Mixed(infos) <==> !AllBusy(infos) && !AllIdle(infos)
  {
  }

  /** A VM gives what it has above the target, or takes what it lacks. */
  ghost predicate MovedBy(info: VMInfo, free: Number, target: Number, givers: map<VMInfo, Number>, takers: map<VMInfo,
                          Number>) {
    var blk := Minus(target, free);
    if Val(blk) < 0.0 then info in givers && givers[info] == blk && info !in takers
    else info in takers && takers[info] == blk && info !in givers
  }

  ghost predicate Moved(info: VMInfo, target: Number, givers: map<VMInfo, Number>, takers: map<VMInfo, Number>)
    reads info`used, info`free, info`allocation
  {
    MovedBy(info, FreeOf(info), target, givers, takers)
  }

  ghost predicate Balanced(infos: seq<VMInfo>, target: Number, givers: map<VMInfo, Number>, takers: map<VMInfo, Number>)
    reads infos`used, infos`free, infos`allocation
  {
    forall k :: 0 <= k < |infos| ==> Moved(infos[k], target, givers, takers)
  }

  /** ... with these allocations. */
  ghost predicate BalancedWith(infos: seq<VMInfo>, before: seq<Number>, target: Number, givers: map<VMInfo, Number>,
                               takers: map<VMInfo, Number>)
    requires |before| == |infos|
    reads infos`used, infos`free
  {
    forall k :: 0 <= k < |infos| ==> MovedBy(infos[k], FreeWith(infos[k], before[k]), target, givers, takers)
  }

  lemma BalancedIs(infos: seq<VMInfo>, givers: map<VMInfo, Number>, takers: map<VMInfo, Number>)
    requires infos != [] && Balanced(infos, Over(TotalFree(infos), |infos|), givers, takers)
    ensures BalancedWith(infos, Allocations(infos), Over(FreeTotal(infos, Allocations(infos)), |infos|), givers, takers)
  {
    hide FreeWith, MovedBy, Over, TotalFree, FreeTotal;
    FreeTotalIs(infos);
    forall k | 0 <= k < |infos|
      ensures MovedBy(infos[k], FreeWith(infos[k], Allocations(infos)[k]), Over(TotalFree(infos), |infos|), givers,
                      takers)
    {
      assert Moved(infos[k], Over(TotalFree(infos), |infos|), givers, takers);
    }
  }

  lemma NoneBalanced(target: Number, givers: map<VMInfo, Number>, takers: map<VMInfo, Number>)
    ensures Balanced([], target, givers, takers)
  {
  }

  lemma BalancedSnoc(init: seq<VMInfo>, info: VMInfo, target: Number, givers: map<VMInfo, Number>, takers: map<VMInfo,
                     Number>)
    requires Balanced(init, target, givers, takers) && info !in init && info !in givers && info !in takers
    ensures var blk := Minus(target, FreeOf(info));
            if Val(blk) < 0.0 then Balanced(init + [info], target, givers[info := blk], takers)
            else Balanced(init + [info], target, givers, takers[info := blk])
  {
    hide Val, Minus, FreeOf;
  }

  /** The blocks of a round that balances add up to what the division leaves out. */
  lemma {:induction false} BalanceAdds(infos: seq<VMInfo>, target: Number, givers: map<VMInfo, Number>,
                                       takers: map<VMInfo, Number>)
    requires Balanced(infos, target, givers, takers)
    ensures Added(infos, givers) + Added(infos, takers) == Times(|infos| as real, Val(target)) - Val(TotalFree(infos))
  {
    hide Val, Plus, Minus, FreeOf, Times;
    assert forall k :: 0 <= k < |infos| - 1 ==> infos[..|infos| - 1][k] == infos[k];
    if infos == [] {
      NoShares(target);
    } else {
      var init := infos[..|infos| - 1];
      BalanceAdds(init, target, givers, takers);
      OneMoreShare(|init| as real, |infos| as real, Val(target));
    }
  }

  /** No VM both gives and takes. */
  lemma BalancedApart(infos: seq<VMInfo>, target: Number, givers: map<VMInfo, Number>, takers: map<VMInfo, Number>)
    requires Balanced(infos, target, givers, takers) && forall v :: v in givers || v in takers ==> v in infos
    ensures forall v :: v in givers ==> v !in takers
  {
    forall v | v in givers
      ensures v !in takers
    {
      var k :| 0 <= k < |infos| && infos[k] == v;
      assert Moved(infos[k], target, givers, takers);
    }
  }

  lemma NoShares(target: Number)
    ensures Times(0.0, Val(target)) == 0.0 && Val(Whole(0)) == 0.0
  {
  }

  lemma OneMoreShare(n: real, m: real, x: real)
    requires m == n + 1.0
    ensures Times(m, x) == Times(n, x) + x
  {
  }

  /** The moves of such a round add up to minus what the division leaves over: to nothing exactly
      if the free memory is no whole number or a multiple of the number of VMs. */
  lemma BalancedTotal(infos: seq<VMInfo>, givers: map<VMInfo, Number>, takers: map<VMInfo, Number>)
    requires infos != [] && Balanced(infos, Over(TotalFree(infos), |infos|), givers, takers)
    ensures Added(infos, givers) + Added(infos, takers) == -(Remainder(TotalFree(infos), |infos|) as real)
    ensures Added(infos, givers) + Added(infos, takers) == 0.0 <==>
              TotalFree(infos).Part? || TotalFree(infos).i % |infos| == 0
    ensures -(|infos| as real) < Added(infos, givers) + Added(infos, takers) <= 0.0
  {
    hide Added, Balanced, TotalFree, Over;
    BalanceAdds(infos, Over(TotalFree(infos), |infos|), givers, takers);
    SharesMakeUp(TotalFree(infos), |infos|);
  }

  /** ... after a round that moves one block. */
  lemma MovedTotal(infos: seq<VMInfo>, giver: VMInfo, taker: VMInfo, blk: Number)
    requires Distinct(infos) && giver in infos && taker in infos
    ensures Added(infos, map[giver := Negated(blk)]) + Added(infos, map[taker := blk]) == 0.0
  {
    OneAdded(infos, giver, Negated(blk));
    OneAdded(infos, taker, blk);
  }

  // ---------------------------------------------------------------- reports

  ghost predicate AllValid(infos: seq<VMInfo>)
    reads infos`speed, infos`rate, infos`balloon, infos`free, infos`used, set v | v in infos :: v.fitting
  {
    forall k :: 0 <= k < |infos| ==> infos[k].Valid()
  }

  lemma SameName(infos: seq<VMInfo>, n: nat)
    requires Distinct(infos) && n < |infos|
    ensures forall v :: v in infos && v.name == infos[n].name ==> v == infos[n]
  {
  }

  lemma SameNameIsSame(infos: seq<VMInfo>, u: VMInfo, v: VMInfo)
    requires Distinct(infos) && u in infos && v in infos && u.name == v.name
    ensures u == v
  {
  }

  lemma DistinctSnoc(infos: seq<VMInfo>, info: VMInfo)
    requires Distinct(infos) && forall v :: v in infos ==> v != info && v.fitting != info.fitting && v.name != info.name
    ensures Distinct(infos + [info])
  {
    var all := infos + [info];
    forall i, k | 0 <= i < k < |all|
      ensures all[i] != all[k] && all[i].fitting != all[k].fitting && all[i].name != all[k].name
    {
      assert all[i] == infos[i] && infos[i] in infos;
      assert k < |infos| ==> all[k] == infos[k];
    }
  }

  lemma AllValidSnoc(infos: seq<VMInfo>, info: VMInfo)
    requires AllValid(infos) && info.Valid()
    ensures AllValid(infos + [info])
  {
  }

  ghost predicate AllReportBusy(reports: seq<Report>) {
    forall k :: 0 <= k < |reports| ==> Val(reports[k].memUnused) < Val(MAX_FREE)
  }

  ghost predicate Weighted(reports: seq<Report>) {
    forall k :: 0 <= k < |reports| ==> reports[k].weight > 0.0
  }

  ghost predicate Named(infos: seq<VMInfo>, name: string) {
    exists v :: v in infos && v.name == name
  }

  lemma NamedStays(before: seq<VMInfo>, after: seq<VMInfo>, name: string)
    requires before <= after && Named(before, name)
    ensures Named(after, name)
  {
  }

  // ---------------------------------------------------------------- the progress counters

  /** The reports of all rounds, in order. */
  function Flat(rounds: seq<seq<Report>>): seq<Report> {
    if rounds == [] then [] else Flat(rounds[..|rounds| - 1]) + rounds[|rounds| - 1]
  }

  lemma FlatGrows(rounds: seq<seq<Report>>, n: nat)
    requires n < |rounds|
    ensures Flat(rounds[..n + 1]) == Flat(rounds[..n]) + rounds[n]
  {
    assert rounds[..n + 1][..n] == rounds[..n];
  }

  lemma NothingFlat(rounds: seq<seq<Report>>)
    ensures Flat(rounds[..0]) == [] && Flat(rounds[..|rounds|]) == Flat(rounds)
  {
    assert rounds[..|rounds|] == rounds;
  }

  /** The counter of every guest never decreases from one of its reports to a later one. */
  ghost predicate Growing(history: seq<Report>) {
    forall i, k :: 0 <= i < k < |history| && history[i].name == history[k].name ==> history[i].user <= history[k].user
  }

  /** The last report of this guest. */
  function Latest(history: seq<Report>, name: string): Option<Report> {
    var n := |history| - 1;
    if history == [] then None
    else if history[n].name == name then Some(history[n])
    else Latest(history[..n], name)
  }

  /** The first. */
  function First(history: seq<Report>, name: string): Option<Report> {
    var n := |history| - 1;
    if history == [] then None
    else if First(history[..n], name).Some? then First(history[..n], name)
    else if history[n].name == name then Some(history[n])
    else None
  }

  /** How far its counter went from each of its reports to the next, except to where it started. */
  function Samples(history: seq<Report>, name: string): seq<real> {
    if history == [] then [] else
      var init, last := history[..|history| - 1], history[|history| - 1];
      Samples(init, name) +
        match (First(init, name), Latest(init, name))
        case (Some(first), Some(before)) =>
          if last.name == name && last.user != first.user then [last.user - before.user] else []
        case _ => []
  }

  lemma LatestIs(history: seq<Report>, guest: Report, name: string)
    ensures Latest(history + [guest], name) == if guest.name == name then Some(guest) else Latest(history, name)
  {
    assert (history + [guest])[..|history|] == history;
  }

  lemma FirstIs(history: seq<Report>, guest: Report, name: string)
    ensures First(history + [guest], name) ==
            if First(history, name).None? && guest.name == name then Some(guest) else First(history, name)
  {
    assert (history + [guest])[..|history|] == history;
  }

  lemma SamplesAre(history: seq<Report>, guest: Report, name: string)
    ensures Samples(history + [guest], name) == Samples(history, name) +
              match (First(history, name), Latest(history, name))
              case (Some(first), Some(before)) =>
                if guest.name == name && guest.user != first.user then [guest.user - before.user] else []
              case _ => []
  {
    hide First, Latest;
    assert (history + [guest])[..|history|] == history;
  }

  /** What one more report changes. */
  lemma OneMoreReport(history: seq<Report>, guest: Report, name: string)
    ensures Latest(history + [guest], name) == if guest.name == name then Some(guest) else Latest(history, name)
    ensures First(history + [guest], name) ==
            if First(history, name).None? && guest.name == name then Some(guest) else First(history, name)
    ensures Samples(history + [guest], name) == Samples(history, name) +
              match (First(history, name), Latest(history, name))
              case (Some(first), Some(before)) =>
                if guest.name == name && guest.user != first.user then [guest.user - before.user] else []
              case _ => []
  {
    hide *;
    LatestIs(history, guest, name);
    FirstIs(history, guest, name);
    SamplesAre(history, guest, name);
  }

  lemma {:induction false} LatestIsThere(history: seq<Report>, name: string)
    ensures Latest(history, name).Some? <==> First(history, name).Some?
    ensures Latest(history, name).Some? ==> Latest(history, name).value in history
    ensures First(history, name).Some? ==> First(history, name).value in history
    ensures Latest(history, name).Some? ==> Latest(history, name).value.name == name
    ensures First(history, name).Some? ==> First(history, name).value.name == name
  {
    if history != [] {
      LatestIsThere(history[..|history| - 1], name);
    }
  }

  lemma {:induction false} SamplesGrow(history: seq<Report>, name: string)
    requires Growing(history)
    ensures NoneNegative(Samples(history, name))
  {
    if history != [] {
      var init, last := history[..|history| - 1], history[|history| - 1];
      GrowingBefore(init, last);
      SamplesGrow(init, name);
      LatestIsThere(init, name);
      SamplesAre(init, last, name);
      assert init + [last] == history;
    }
  }

  lemma GrowingBefore(history: seq<Report>, guest: Report)
    requires Growing(history + [guest])
    ensures Growing(history) && forall r :: r in history && r.name == guest.name ==> r.user <= guest.user
  {
    var all := history + [guest];
    assert forall i :: 0 <= i < |history| ==> all[i] == history[i];
    assert all[|history|] == guest;
  }

  /** What is known of a VM is what its first report and its last say, and the progress between them. */
  ghost predicate Heard(info: VMInfo, history: seq<Report>)
    reads info`user, info`free, info`balloon, info`limit1, info.fitting`users
  {
    match (First(history, info.name), Latest(history, info.name))
    case (Some(first), Some(last)) =>
      && info.weight == first.weight && info.configured == first.balloonMax && info.startUser == first.user
      && info.user == last.user && info.free == last.memUnused && info.balloon == last.balloonCur
      && info.limit1 == Minus(last.balloonCur, MINIMUM)
      && info.fitting.users == Samples(history, info.name)
    case _ => false
  }

  /** Every guest that has reported is a VM. */
  ghost predicate AllJoined(infos: seq<VMInfo>, history: seq<Report>) {
    forall k :: 0 <= k < |history| ==> Named(infos, history[k].name)
  }

  lemma JoinedMore(infos: seq<VMInfo>, all: seq<VMInfo>, history: seq<Report>, guest: Report)
    requires AllJoined(infos, history) && infos <= all && Named(all, guest.name)
    ensures AllJoined(all, history + [guest])
  {
    hide Named;
    forall k | 0 <= k < |history|
      ensures Named(all, history[k].name)
    {
      NamedStays(infos, all, history[k].name);
    }
  }

  ghost predicate AllHeard(infos: seq<VMInfo>, history: seq<Report>)
    reads infos`user, infos`free, infos`balloon, infos`limit1, set v | v in infos :: v.fitting
  {
    forall k :: 0 <= k < |infos| ==> Heard(infos[k], history)
  }

  lemma HeardStill(info: VMInfo, history: seq<Report>, guest: Report)
    requires Heard(info, history) && info.name != guest.name
    ensures Heard(info, history + [guest])
  {
    hide First, Latest, Samples;
    OneMoreReport(history, guest, info.name);
  }

  /** The VMs of a scheduler after these reports. */
  ghost predicate Known(infos: seq<VMInfo>, history: seq<Report>)
    reads infos`speed, infos`rate, infos`balloon, infos`free, infos`used, infos`user, infos`limit1
    reads set v | v in infos :: v.fitting
  {
    Distinct(infos) && AllValid(infos) && AllHeard(infos, history) && AllJoined(infos, history)
  }

  lemma AreDistinct(infos: seq<VMInfo>, history: seq<Report>)
    requires Known(infos, history)
    ensures Distinct(infos)
  {
  }

  /** As long as no counter ran backwards, no rate is negative. */
  lemma RatesAreNonNegative(infos: seq<VMInfo>, history: seq<Report>)
    requires Known(infos, history) && Growing(history)
    ensures NonNegative(Rates(infos))
  {
    hide Growing, NoneNegative, Distinct, First, Latest, Samples, AllJoined;
    forall k | 0 <= k < |infos|
      ensures infos[k].rate >= 0.0
    {
      assert infos[k].Valid() && Heard(infos[k], history);
      SamplesGrow(history, infos[k].name);
      RateIsNonNegative(infos[k].speed, infos[k].weight);
    }
  }

  // ---------------------------------------------------------------- what a round does with all VMs

  /** The place of the VM of this name. */
  method Find(infos: seq<VMInfo>, name: string) returns (n: nat)
    ensures n <= |infos| && (n < |infos| ==> infos[n].name == name)
    ensures n == |infos| ==> forall v :: v in infos ==> v.name != name
  {
    n := 0;
    while n < |infos| && infos[n].name != name
      invariant n <= |infos| && forall k :: 0 <= k < n ==> infos[k].name != name
    {
      n := n + 1;
    }
  }

  method UpdateKnown(infos: seq<VMInfo>, info: VMInfo, guest: Report, ghost history: seq<Report>)
    requires info in infos && Known(infos, history) && info.name == guest.name
    modifies info`user, info`pagefault, info`free, info`balloon, info`used, info`limit1, info`speed, info`rate,
             info.fitting
    ensures Known(infos, history + [guest])
    ensures info.user == guest.user && info.free == guest.memUnused && info.balloon == guest.balloonCur
  {
    hide Growing, NoneNegative, Needed, Mean, First, Latest, Samples, AllJoined, Named;
    info.Update(guest);
    OneMoreReport(history, guest, guest.name);
    SameNameIs(infos, info);
    JoinedMore(infos, infos, history, guest);
    forall k | 0 <= k < |infos|
      ensures infos[k].Valid() && Heard(infos[k], history + [guest])
    {
      assert old(infos[k].Valid()) && old(Heard(infos[k], history));
      if infos[k] != info {
        HeardStill(infos[k], history, guest);
      }
    }
  }

  lemma SameNameIs(infos: seq<VMInfo>, info: VMInfo)
    requires Distinct(infos) && info in infos
    ensures Named(infos, info.name) && forall k :: 0 <= k < |infos| && infos[k] != info ==> infos[k].name != info.name
    ensures forall k :: 0 <= k < |infos| && infos[k] != info ==> infos[k].fitting != info.fitting
  {
  }

  lemma NamedOneOf(infos: seq<VMInfo>, info: VMInfo)
    requires info in infos
    ensures Named(infos, info.name)
  {
  }

  /** A guest that joins has not reported yet. */
  lemma NotYet(infos: seq<VMInfo>, info: VMInfo, history: seq<Report>)
    requires Distinct(infos + [info]) && AllJoined(infos, history)
    ensures First(history, info.name).None? && Latest(history, info.name).None? && Samples(history, info.name) == []
    ensures forall k :: 0 <= k < |infos| ==> infos[k].name != info.name
  {
    hide First, Latest;
    LatestIsThere(history, info.name);
    var all := infos + [info];
    forall k | 0 <= k < |infos|
      ensures infos[k].name != info.name
    {
      assert all[k].name != all[|infos|].name;
    }
    NoSamples(history, info.name);
  }

  lemma {:induction false} NoSamples(history: seq<Report>, name: string)
    requires First(history, name).None?
    ensures Samples(history, name) == []
  {
    if history != [] {
      NoSamples(history[..|history| - 1], name);
    }
  }

  lemma KnownSnoc(infos: seq<VMInfo>, info: VMInfo, history: seq<Report>, guest: Report)
    requires Known(infos, history) && Distinct(infos + [info])
    requires info.Valid() && Joining(info, guest)
    ensures Known(infos + [info], history + [guest])
  {
    hide VMInfo.Valid, Distinct, First, Latest, Samples, AllJoined, Named;
    AllValidSnoc(infos, info);
    NotYet(infos, info, history);
    OneMoreReport(history, guest, guest.name);
    NamedOneOf(infos + [info], info);
    JoinedMore(infos, infos + [info], history, guest);
    var all := infos + [info];
    forall k | 0 <= k < |all|
      ensures Heard(all[k], history + [guest])
    {
      if k < |infos| {
        assert all[k] == infos[k] && Heard(infos[k], history);
        HeardStill(infos[k], history, guest);
      }
    }
  }

  /** What one guest reports: a VM joins, or what is known of it is brought up to date. */
  method UpdateInfo(infos: seq<VMInfo>, guest: Report, step: Number, window: nat, ghost history: seq<Report>)
    returns (all: seq<VMInfo>)
    requires Known(infos, history) && guest.weight > 0.0 && window > 0
    modifies infos`user, infos`pagefault, infos`free, infos`balloon, infos`used, infos`limit1,
             infos`speed, infos`rate, set v | v in infos :: v.fitting
    ensures Known(all, history + [guest]) && infos <= all && Named(all, guest.name)
    ensures forall k :: |infos| <= k < |all| ==> fresh(all[k]) && fresh(all[k].fitting)
    ensures forall k :: |infos| <= k < |all| ==> all[k].allocation == Whole(0) && all[k].target == None
    ensures forall k :: |infos| <= k < |all| ==> all[k].direction == Unknown && all[k].maxStep == step
    ensures forall v :: v in all && v.name == guest.name ==> v.free == guest.memUnused && v.balloon == guest.balloonCur
    ensures forall v :: v in all && v.name != guest.name ==>
              v in infos && v.free == old(v.free) && v.balloon == old(v.balloon)
  {
    hide AllValid, AllHeard, AllJoined, Distinct, VMInfo.Valid, Heard;
    var n := Find(infos, guest.name);
    if n < |infos| {
      assert infos[n] in infos;
      assert Distinct(infos);
      SameName(infos, n);
      UpdateKnown(infos, infos[n], guest, history);
      all := infos;
    } else {
      var info := new VMInfo(guest, step, window);
      DistinctSnoc(infos, info);
      KnownSnoc(infos, info, history, guest);
      all := infos + [info];
      assert info in all;
    }
  }

  /** ... and every guest that reports. */
  method UpdateInfos(infos: seq<VMInfo>, reports: seq<Report>, step: Number, window: nat, ghost history: seq<Report>)
    returns (all: seq<VMInfo>)
    requires Known(infos, history) && Weighted(reports) && window > 0
    modifies infos`user, infos`pagefault, infos`free, infos`balloon, infos`used, infos`limit1,
             infos`speed, infos`rate, set v | v in infos :: v.fitting
    ensures Known(all, history + reports) && infos <= all && (reports != [] ==> all != [])
    ensures forall k :: 0 <= k < |reports| ==> Named(all, reports[k].name)
    ensures forall k :: |infos| <= k < |all| ==> fresh(all[k]) && fresh(all[k].fitting)
    ensures forall k :: |infos| <= k < |all| ==> all[k].allocation == Whole(0) && all[k].target == None
    ensures forall k :: |infos| <= k < |all| ==> all[k].direction == Unknown && all[k].maxStep == step
    ensures old(AllBusy(infos)) && AllReportBusy(reports) ==> AllBusy(all)
    ensures Steps(all) == Padded(old(Steps(infos)), |all|, (Unknown, step))
    ensures Allocations(all) == Padded(old(Allocations(infos)), |all|, Whole(0))
    ensures Targets(all) == Padded(old(Targets(infos)), |all|, None)
  {
    hide Known, Val, Named, Steps, Padded, Allocations, Targets;
    all := infos;
    assert history + reports[..0] == history;
    for n := 0 to |reports|
      invariant Known(all, history + reports[..n]) && infos <= all && (n > 0 ==> all != [])
      invariant forall k :: |infos| <= k < |all| ==> fresh(all[k]) && fresh(all[k].fitting)
      invariant forall k :: |infos| <= k < |all| ==> all[k].allocation == Whole(0) && all[k].target == None
      invariant forall k :: |infos| <= k < |all| ==> all[k].direction == Unknown && all[k].maxStep == step
      invariant old(AllBusy(infos)) && AllReportBusy(reports) ==> AllBusy(all)
    {
      ghost var before := all;
      label Before:
      all := UpdateInfo(all, reports[n], step, window, history + reports[..n]);
      assert history + reports[..n] + [reports[n]] == history + reports[..n + 1];
      NamedOne(all, reports[n].name);
      if old(AllBusy(infos)) && AllReportBusy(reports) {
        forall k | 0 <= k < |all|
          ensures Val(all[k].free) < Val(MAX_FREE)
        {
          assert all[k] in all;
          if all[k].name != reports[n].name {
            assert all[k] in before && old@Before(Val(all[k].free)) < Val(MAX_FREE);
          }
        }
      }
    }
    assert reports[..|reports|] == reports;
    AllReportAreNamed(all, history, reports);
  }

  lemma AllReportAreNamed(infos: seq<VMInfo>, history: seq<Report>, reports: seq<Report>)
    requires Known(infos, history + reports)
    ensures forall k :: 0 <= k < |reports| ==> Named(infos, reports[k].name)
  {
    forall k | 0 <= k < |reports|
      ensures Named(infos, reports[k].name)
    {
      assert (history + reports)[|history| + k] == reports[k];
    }
  }

  lemma NamedOne(infos: seq<VMInfo>, name: string)
    requires Named(infos, name)
    ensures infos != []
  {
  }

  /** An equal share of the memory for every VM. */
  method ShareEqually(infos: seq<VMInfo>, totalMem: real)
    requires infos != [] && Distinct(infos)
    modifies infos`allocation, infos`target
    ensures forall k :: 0 <= k < |infos| ==> infos[k].allocation == Over(Part(totalMem), |infos|)
    ensures forall k :: 0 <= k < |infos| ==>
              infos[k].target == if Issues(infos[k].allocation, infos[k].configured) then Some(infos[k].allocation)
                                 else old(infos[k].target)
    ensures Total(Allocations(infos)) == totalMem && SharedEqually(infos, totalMem, old(Targets(infos)))
  {
    hide Over, Issues, Total, Allocations, Targets;
    var share := Over(Part(totalMem), |infos|);
    for n := 0 to |infos|
      invariant forall k :: 0 <= k < n ==> infos[k].allocation == share
      invariant forall k :: 0 <= k < n ==>
                  infos[k].target == if Issues(share, infos[k].configured) then Some(share) else old(infos[k].target)
      invariant forall k :: n <= k < |infos| ==> infos[k].target == old(infos[k].target)
    {
      infos[n].allocation := share;
      infos[n].SetBalloon();
    }
    TotalShared(Allocations(infos), totalMem);
  }

  /** The VMs with little free memory, and the others. */
  method DivideGroup(infos: seq<VMInfo>) returns (busy: seq<VMInfo>, idle: seq<VMInfo>)
    ensures idle == [] <==> AllBusy(infos)
    ensures busy == [] <==> AllIdle(infos)
  {
    busy, idle := [], [];
    for n := 0 to |infos|
      invariant forall v :: v in busy <==> v in infos[..n] && Val(v.free) < Val(MAX_FREE)
      invariant forall v :: v in idle <==> v in infos[..n] && Val(v.free) >= Val(MAX_FREE)
    {
      if Val(infos[n].free) < Val(MAX_FREE) {
        busy := busy + [infos[n]];
      } else {
        idle := idle + [infos[n]];
      }
      assert infos[..n + 1] == infos[..n] + [infos[n]];
    }
    assert infos[..|infos|] == infos;
    assert forall k :: 0 <= k < |infos| ==> infos[k] in busy || infos[k] in idle;
    assert idle != [] ==> idle[0] in infos;
    assert busy != [] ==> busy[0] in infos;
  }

  /** The moves that bring every VM to the mean of the free memory. */
  method MeanByFree(infos: seq<VMInfo>) returns (givers: map<VMInfo, Number>, takers: map<VMInfo, Number>)
    requires infos != [] && Distinct(infos)
    ensures Balanced(infos, Over(TotalFree(infos), |infos|), givers, takers)
    ensures forall v :: v in givers || v in takers ==> v in infos
  {
    hide Val, Plus, Minus, Over, Balanced;
    var totalFree := Whole(0);
    var frees: map<VMInfo, Number> := map[];
    for n := 0 to |infos|
      invariant totalFree == TotalFree(infos[..n])
      invariant forall k :: 0 <= k < n ==> infos[k] in frees && frees[infos[k]] == FreeOf(infos[k])
    {
      var info := infos[n];
      frees := frees[info := if Val(info.used) < Val(MINIMUM) then Minus(info.allocation, MINIMUM) else info.free];
      assert infos[..n + 1][..n] == infos[..n];
      totalFree := Plus(totalFree, frees[info]);
    }
    assert infos[..|infos|] == infos;
    var target := Over(totalFree, |infos|);
    givers, takers := map[], map[];
    NoneBalanced(target, givers, takers);
    for n := 0 to |infos|
      invariant Balanced(infos[..n], target, givers, takers)
      invariant forall v :: v in givers || v in takers ==> v in infos[..n]
    {
      var info := infos[n];
      assert info !in infos[..n];
      var blk := Minus(target, frees[info]);
      BalancedSnoc(infos[..n], info, target, givers, takers);
      if Val(blk) < 0.0 {
        givers := givers[info := blk];
      } else {
        takers := takers[info := blk];
      }
      assert infos[..n + 1] == infos[..n] + [info];
    }
  }

  /** A guest with this much free memory, well above the minimum. */
  function Guest(name: string, free: int): Report {
    Report(name, 1.0, Whole(4000000), Whole(free), Whole(2000000), 0.0, 0.0, 0.0, 0.0)
  }

  lemma TwoFree(a: VMInfo, b: VMInfo)
    ensures TotalFree([a, b]) == Plus(Plus(Whole(0), FreeOf(a)), FreeOf(b))
  {
    hide Plus, FreeOf;
    var none, one, two: seq<VMInfo> := [], [a], [a, b];
    assert two[..1] == one && one[..0] == none;
    assert TotalFree(none) == Whole(0) && TotalFree(one) == Plus(Whole(0), FreeOf(a));
  }

  /** Two VMs, one idle, whose free memory is an odd number: the moves lose the odd one. */
  method LossExample() returns (infos: seq<VMInfo>, givers: map<VMInfo, Number>, takers: map<VMInfo, Number>)
    ensures |infos| == 2 && !AllBusy(infos) && !AllIdle(infos)
    ensures Balanced(infos, Over(TotalFree(infos), 2), givers, takers)
    ensures Added(infos, givers) + Added(infos, takers) == -1.0
  {
    hide Balanced, Added, TotalFree, VMInfo.Valid;
    var a := new VMInfo(Guest("a", 200000), Whole(0), 4);
    var b := new VMInfo(Guest("b", 1), Whole(0), 4);
    infos := [a, b];
    assert a.name[0] == 'a' && b.name[0] == 'b';
    givers, takers := MeanByFree(infos);
    GuestUses(a, 200000);
    GuestUses(b, 1);
    TwoFree(a, b);
    assert infos[0] == a && infos[1] == b;
    BalancedTotal(infos, givers, takers);
  }

  lemma GuestUses(info: VMInfo, free: int)
    requires info.Valid() && info.free == Whole(free) && info.balloon == Whole(2000000) && free <= 1000000
    ensures FreeOf(info) == Whole(free)
  {
    hide Fitting.Valid, NoneNegative;
  }

  /** Carries out the moves of a round, those that give first. */
  method CarryOut(infos: seq<VMInfo>, givers: map<VMInfo, Number>, takers: map<VMInfo, Number>)
    requires forall v :: v in givers || v in takers ==> v in infos
    requires forall v :: v in givers ==> v !in takers
    modifies infos`allocation, infos`target
    ensures Total(Allocations(infos)) == old(Total(Allocations(infos))) + Added(infos, givers) + Added(infos, takers)
    ensures Carried(infos, givers, takers, old(Allocations(infos)), old(Targets(infos)))
  {
    hide Added, Total, Allocations, Targets, Issues, Plus;
    ghost var before := Allocations(infos);
    TriggerBalloon(givers);
    ghost var between := Allocations(infos);
    TotalRaised(before, between, infos, givers);
    TriggerBalloon(takers);
    TotalRaised(between, Allocations(infos), infos, takers);
  }

  /** What a run has spent of the total, after one more round and maybe with more VMs. */
  lemma StillWithin(total: real, spent: real, spent': real, n: real, m: real, m': real)
    requires n >= 0.0 && 0.0 <= m <= m'
    ensures spent' == total ==> total - Times(n + 1.0, m') <= spent'
    ensures total - Times(n, m) <= spent <= total && spent - m' < spent' <= spent ==>
              total - Times(n + 1.0, m') <= spent' <= total
  {
    NonNegativeProduct(n, m' - m);
    NonNegativeProduct(n + 1.0, m');
    assert Times(n + 1.0, m') == Times(n, m) + n * (m' - m) + m';
  }
}

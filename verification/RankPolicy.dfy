/** The ranking scheduler (`RPPolicy`): when every VM is busy, memory moves from the VM with the
    highest rate that has any to spare to the one with the lowest; when only some are, free memory
    is evened out. */
module RankPolicy {
  import opened Options
  import opened Sums
  import opened Products
  import opened Numbers
  import opened Fairness
  import opened Fitting
  import opened Ranking
  import opened Machines

  const AVE_LEN := 40
  const MIN_SHARE := Whole(40000)

  /** What a VM can give. */
  function DistToLow(info: VMInfo): Number
    reads info`allocation
  {
    Minus(info.allocation, MINIMUM)
  }

  /** What it can take: never less than nothing. */
  function DistToHigh(info: VMInfo): (ratio: Number)
    reads info`free
    ensures Val(ratio) >= 0.0
  {
    Lacking(info.free)
  }

  function Lacking(free: Number): (ratio: Number)
    ensures Val(ratio) >= 0.0
  {
    var ratio := Minus(MAX_FREE, free);
    if Val(ratio) < 0.0 then Whole(0) else ratio
  }

  /** The least of what an allocation has above the minimum, what is lacking of enough free memory, and
      the greatest share. */
  function BlockFor(allocation: Number, free: Number): Number {
    MinOf(MinOf(Minus(allocation, MINIMUM), Lacking(free)), MIN_SHARE)
  }

  lemma BlockIsLeast(allocation: Number, free: Number, b: real)
    ensures b <= Val(BlockFor(allocation, free)) <==>
              b <= Val(allocation) - 1100000.0 && (b <= 0.0 || b <= 200000.0 - Val(free)) && b <= 40000.0
  {
  }

  /** A target last issued was at least the minimum, and at most what is now allocated and what
      the VM is configured for. */
  ghost predicate KeptValues(allocation: Number, target: Option<Number>, configured: Number) {
    && Val(allocation) >= 0.0
    && (target.Some? ==> Val(MINIMUM) <= Val(target.value) <= Val(allocation) && Val(target.value) <= Val(configured))
  }

  ghost predicate Kept(info: VMInfo)
    reads info`allocation, info`target
  {
    KeptValues(info.allocation, info.target, info.configured)
  }

  /** What an allocation must not fall below for this to stay so. */
  function Floor(target: Option<Number>): real {
    if target.Some? then Val(MINIMUM) else 0.0
  }

  /** `setBalloon` keeps this, also where it refuses, exactly if the allocation does not fall below
      the minimum, or below nothing when there was no target yet. */
  lemma KeptAfter(before: Number, target: Option<Number>, configured: Number, after: Number)
    requires KeptValues(before, target, configured)
    ensures KeptValues(after, if Issues(after, configured) then Some(after) else target, configured) <==>
              Val(after) >= Floor(target)
  {
  }

  ghost predicate AllKept(infos: seq<VMInfo>)
    reads infos`allocation, infos`target
  {
    forall k :: 0 <= k < |infos| ==> Kept(infos[k])
  }

  function Issued(target: Option<Number>): real {
    match target case None => 0.0 case Some(n) => Val(n)
  }

  /** The targets last issued, together. */
  function TotalIssued(infos: seq<VMInfo>): real
    reads infos`target
  {
    if infos == [] then 0.0 else TotalIssued(infos[..|infos| - 1]) + Issued(infos[|infos| - 1].target)
  }

  /** What the VMs were told is together no more than what is allocated. */
  lemma {:induction false} IssuedIsCovered(infos: seq<VMInfo>)
    requires AllKept(infos)
    ensures TotalIssued(infos) <= Total(Allocations(infos))
  {
    if infos != [] {
      assert Kept(infos[|infos| - 1]);
      IssuedIsCovered(infos[..|infos| - 1]);
      assert Allocations(infos)[..|infos| - 1] == Allocations(infos[..|infos| - 1]);
    }
  }

  /** The VM at place g gives, the last in the order that has something to spare, and the first
      takes; if only the first has, nobody does. */
  ghost predicate PairAt(infos: seq<VMInfo>, before: seq<Number>, order: seq<nat>, g: nat, giver: VMInfo?,
                         taker: VMInfo?) {
    && g < |order| && InRange(order, |infos|) && |before| == |infos|
    && (forall k :: g < k < |order| ==> Val(before[order[k]]) <= Val(MINIMUM))
    && (if g == 0 then giver == null && taker == null
        else giver == infos[order[g]] && taker == infos[order[0]] && Val(before[order[g]]) > Val(MINIMUM))
  }

  lemma AreDifferent(infos: seq<VMInfo>, i: nat, k: nat)
    requires Distinct(infos) && i < |infos| && k < |infos| && i != k
    ensures infos[i] != infos[k]
  {
  }

  lemma FirstPrecedes(order: seq<nat>, keys: seq<real>, g: nat)
    requires InRange(order, |keys|) && Ordered(order, keys) && 0 < g < |order|
    ensures order[0] != order[g] && keys[order[0]] <= keys[order[g]]
  {
    assert Precedes(keys, order[0], order[g]);
  }

  ghost predicate NoMoves(givers: map<VMInfo, Number>, takers: map<VMInfo, Number>) {
    givers == map[] && takers == map[]
  }

  lemma NothingMoves()
    ensures NoMoves(map[], map[])
  {
  }

  function Block(giver: VMInfo, taker: VMInfo): Number
    reads giver`allocation, taker`free
  {
    BlockFor(giver.allocation, taker.free)
  }

  ghost predicate Transfer(giver: VMInfo, taker: VMInfo, givers: map<VMInfo, Number>, takers: map<VMInfo, Number>)
    reads giver`allocation, taker`free
  {
    && giver != taker && Val(giver.allocation) > Val(MINIMUM)
    && givers == map[giver := Negated(Block(giver, taker))] && takers == map[taker := Block(giver, taker)]
  }

  /** The giver keeps the minimum, the taker loses nothing. */
  lemma BlockFits(giver: VMInfo, taker: VMInfo)
    requires Val(giver.allocation) > Val(MINIMUM)
    ensures Val(Block(giver, taker)) >= 0.0 && Val(giver.allocation) - Val(Block(giver, taker)) >= Val(MINIMUM)
  {
  }

  // ---------------------------------------------------------------- what a round leaves

  /** With these moves, the giver and the taker at the ends of this part of the order. */
  ghost predicate ChosenAt(infos: seq<VMInfo>, order: seq<nat>, g: nat, givers: map<VMInfo, Number>,
                           takers: map<VMInfo, Number>, before: seq<Number>)
    reads infos`free
  {
    if g == 0 then PairAt(infos, before, order, g, null, null) && NoMoves(givers, takers)
    else
      && g < |order| && InRange(order, |infos|) && PairAt(infos, before, order, g, infos[order[g]], infos[order[0]])
      && infos[order[g]] != infos[order[0]]
      && var blk := BlockFor(before[order[g]], infos[order[0]].free);
         givers == map[infos[order[g]] := Negated(blk)] && takers == map[infos[order[0]] := blk]
  }

  ghost predicate Chosen(infos: seq<VMInfo>, givers: map<VMInfo, Number>, takers: map<VMInfo, Number>,
                         before: seq<Number>)
    reads infos`rate, infos`free
  {
    if AllPositive(Rates(infos)) && |infos| >= 2 then
      exists g: nat :: ChosenAt(infos, Order(Rates(infos)), g, givers, takers, before)
    else NoMoves(givers, takers)
  }

  /** The VM at place g of the order, the last that has anything above the minimum, loses a block to
      the first; if the first is the last such, nothing moves. */
  ghost predicate MovedAt(infos: seq<VMInfo>, order: seq<nat>, g: nat, before: seq<Number>, told: seq<Option<Number>>)
    reads infos`free, infos`allocation, infos`target
  {
    if g == 0 then PairAt(infos, before, order, g, null, null) && Unmoved(infos, before, told)
    else
      && g < |order| && InRange(order, |infos|) && PairAt(infos, before, order, g, infos[order[g]], infos[order[0]])
      && BlockMoved(infos, infos[order[g]], infos[order[0]],
                    Val(BlockFor(before[order[g]], infos[order[0]].free)), before, told)
  }

  ghost predicate MovedInOrder(infos: seq<VMInfo>, order: seq<nat>, before: seq<Number>, told: seq<Option<Number>>)
    reads infos`free, infos`allocation, infos`target
  {
    exists g: nat :: MovedAt(infos, order, g, before, told)
  }

  /** What a round in which every VM is busy leaves of each: nothing moves unless all rates are
      positive. */
  ghost predicate FairlyMoved(infos: seq<VMInfo>, before: seq<Number>, told: seq<Option<Number>>)
    reads infos`rate, infos`fairness, infos`free, infos`allocation, infos`target
  {
    && (AllPositive(Rates(infos)) ==> Scored(infos))
    && if AllPositive(Rates(infos)) && |infos| >= 2 then
         MovedInOrder(infos, Order(Rates(infos)), before, told)
       else Unmoved(infos, before, told)
  }

  /** ... a round after the first ones, ... */
  ghost predicate Rebalanced(infos: seq<VMInfo>, before: seq<Number>, told: seq<Option<Number>>)
    reads infos
  {
    if AllBusy(infos) then FairlyMoved(infos, before, told)
    else if AllIdle(infos) then Unmoved(infos, before, told)
    else EvenedOut(infos, before, told)
  }

  /** ... and any round. */
  ghost predicate RoundLeaves(infos: seq<VMInfo>, start: bool, totalMem: real, before: seq<Number>,
                              told: seq<Option<Number>>)
    reads infos
  {
    if start then SharedEqually(infos, totalMem, told) else Rebalanced(infos, before, told)
  }

  lemma BusyLeaves(infos: seq<VMInfo>, before: seq<Number>, told: seq<Option<Number>>)
    ensures AllBusy(infos) && FairlyMoved(infos, before, told) ==> Rebalanced(infos, before, told)
    ensures infos != [] && AllIdle(infos) && Unmoved(infos, before, told) ==> Rebalanced(infos, before, told)
    ensures Mixed(infos) && EvenedOut(infos, before, told) ==> Rebalanced(infos, before, told)
  {
  }

  lemma NothingMoved(infos: seq<VMInfo>)
    ensures Unmoved(infos, Allocations(infos), Targets(infos))
  {
  }

  lemma RoundIs(infos: seq<VMInfo>, start: bool, totalMem: real, before: seq<Number>, told: seq<Option<Number>>)
    ensures RoundLeaves(infos, start, totalMem, before, told) <==>
              if start then SharedEqually(infos, totalMem, told) else Rebalanced(infos, before, told)
  {
  }

  lemma PairIsChosen(infos: seq<VMInfo>, order: seq<nat>, g: nat, giver: VMInfo?, taker: VMInfo?,
                     givers: map<VMInfo, Number>, takers: map<VMInfo, Number>)
    requires PairAt(infos, Allocations(infos), order, g, giver, taker)
    requires if giver == null || taker == null then NoMoves(givers, takers) else Transfer(giver, taker, givers, takers)
    ensures ChosenAt(infos, order, g, givers, takers, Allocations(infos))
  {
    hide Allocations, BlockFor;
  }

  /** What carrying out such moves leaves. */
  lemma CarriedFairly(infos: seq<VMInfo>, givers: map<VMInfo, Number>, takers: map<VMInfo, Number>, before: seq<Number>,
                      told: seq<Option<Number>>)
    requires Chosen(infos, givers, takers, before) && Carried(infos, givers, takers, before, told)
    requires AllPositive(Rates(infos)) ==> Scored(infos)
    ensures FairlyMoved(infos, before, told)
  {
    hide AllPositive, Rates, Scored, Order, Carried, BlockFor, Unmoved, BlockMoved;
    if AllPositive(Rates(infos)) && |infos| >= 2 {
      var order := Order(Rates(infos));
      var g: nat :| ChosenAt(infos, order, g, givers, takers, before);
      CarriedAt(infos, order, g, givers, takers, before, told);
    } else {
      CarriedNothing(infos, before, told);
    }
  }

  lemma CarriedAt(infos: seq<VMInfo>, order: seq<nat>, g: nat, givers: map<VMInfo, Number>,
                  takers: map<VMInfo, Number>, before: seq<Number>, told: seq<Option<Number>>)
    requires ChosenAt(infos, order, g, givers, takers, before) && Carried(infos, givers, takers, before, told)
    ensures MovedAt(infos, order, g, before, told)
  {
    hide Carried, BlockFor, Unmoved, BlockMoved;
    if g == 0 {
      CarriedNothing(infos, before, told);
    } else {
      CarriedBlock(infos, infos[order[g]], infos[order[0]], BlockFor(before[order[g]], infos[order[0]].free), before,
                   told);
    }
  }

  ghost predicate AllSpared(infos: seq<VMInfo>, givers: map<VMInfo, Number>, takers: map<VMInfo, Number>,
                            before: seq<Number>) {
    |before| == |infos| && forall k :: 0 <= k < |infos| ==> Spared(before[k], infos[k], givers, takers)
  }

  ghost predicate Pair(infos: seq<VMInfo>, giver: VMInfo?, taker: VMInfo?, givers: map<VMInfo, Number>,
                       takers: map<VMInfo, Number>)
    reads infos`allocation, infos`free
  {
    if giver == null || taker == null then NoMoves(givers, takers)
    else giver in infos && taker in infos && Transfer(giver, taker, givers, takers)
  }

  /** Such moves can be carried out, add up to nothing, and leave every VM the minimum. */
  lemma PairFits(infos: seq<VMInfo>, giver: VMInfo?, taker: VMInfo?, givers: map<VMInfo, Number>,
                 takers: map<VMInfo, Number>)
    requires Distinct(infos) && Pair(infos, giver, taker, givers, takers)
    ensures (forall v :: v in givers || v in takers ==> v in infos) && (forall v :: v in givers ==> v !in takers)
    ensures Added(infos, givers) + Added(infos, takers) == 0.0
    ensures AllSpared(infos, givers, takers, Allocations(infos))
  {
    hide Added, Block, Spared, Allocations, Distinct;
    if giver == null || taker == null {
      NothingAdded(infos);
      forall k | 0 <= k < |infos|
        ensures Spared(Allocations(infos)[k], infos[k], givers, takers)
      {
        NoMoveSpares(infos[k].allocation, infos[k]);
      }
    } else {
      MovedTotal(infos, giver, taker, Block(giver, taker));
      forall k | 0 <= k < |infos|
        ensures Spared(Allocations(infos)[k], infos[k], givers, takers)
      {
        TransferSpares(infos[k].allocation, infos[k], giver, taker, givers, takers);
      }
    }
  }

  /** The VMs that had the minimum. */
  ghost function Having(infos: seq<VMInfo>, before: seq<Number>): set<VMInfo>
    requires |before| == |infos|
  {
    set k | 0 <= k < |infos| && Val(before[k]) >= Val(MINIMUM) :: infos[k]
  }

  lemma HavingIs(infos: seq<VMInfo>)
    ensures WithMinimum(infos) == Having(infos, Allocations(infos))
  {
    hide Allocations, Val;
    forall v | v in WithMinimum(infos)
      ensures v in Having(infos, Allocations(infos))
    {
      var k :| 0 <= k < |infos| && infos[k] == v;
      assert Allocations(infos)[k] == v.allocation;
    }
  }

  lemma MinimumStays(infos: seq<VMInfo>, givers: map<VMInfo, Number>, takers: map<VMInfo, Number>, before: seq<Number>,
                     told: seq<Option<Number>>)
    requires Carried(infos, givers, takers, before, told) && AllSpared(infos, givers, takers, before)
    ensures Having(infos, before) <= WithMinimum(infos)
  {
    hide Allotted, Told, Val;
    forall k | 0 <= k < |infos| && Val(before[k]) >= Val(MINIMUM)
      ensures HasMinimum(infos[k])
    {
      assert Spared(before[k], infos[k], givers, takers);
    }
  }

  /** The minimums are still there when guests join. */
  lemma MinimumWithJoiners(infos: seq<VMInfo>, all: seq<VMInfo>, before: seq<Number>)
    requires infos <= all && |before| == |infos| && Allocations(all) == Padded(before, |all|, Whole(0))
    ensures Having(infos, before) <= WithMinimum(all)
  {
    hide Allocations, Padded, Val;
    forall k | 0 <= k < |infos| && Val(before[k]) >= Val(MINIMUM)
      ensures infos[k] in all && HasMinimum(infos[k])
    {
      assert infos[k] == all[k] && Allocations(all)[k] == before[k];
    }
  }

  lemma KeptWithJoiners(infos: seq<VMInfo>, all: seq<VMInfo>, before: seq<Number>, told: seq<Option<Number>>)
    requires infos <= all && |before| == |told| == |infos|
    requires Allocations(all) == Padded(before, |all|, Whole(0)) && Targets(all) == Padded(told, |all|, None)
    requires forall k :: 0 <= k < |infos| ==> KeptValues(before[k], told[k], infos[k].configured)
    ensures AllKept(all)
  {
    hide Allocations, Targets, Padded, KeptValues;
    NothingIsKept();
    forall k | 0 <= k < |all|
      ensures Kept(all[k])
    {
      assert Allocations(all)[k] == all[k].allocation && Targets(all)[k] == all[k].target;
    }
  }

  lemma AllKeptStill(infos: seq<VMInfo>, givers: map<VMInfo, Number>, takers: map<VMInfo, Number>, before: seq<Number>,
                     told: seq<Option<Number>>)
    requires Carried(infos, givers, takers, before, told) && AllSpared(infos, givers, takers, before)
    requires forall k :: 0 <= k < |infos| ==> KeptValues(before[k], told[k], infos[k].configured)
    ensures AllKept(infos)
  {
    hide Allotted, Told, KeptValues, Spared;
    forall k | 0 <= k < |infos|
      ensures Kept(infos[k])
    {
      KeptIfSpared(before[k], infos[k], givers, takers, told[k]);
    }
  }

  lemma ShareIsEnough(totalMem: real, n: nat)
    requires n > 0
    ensures totalMem >= Times(n as real, Val(MINIMUM)) ==> Val(Over(Part(totalMem), n)) >= Val(MINIMUM)
  {
    Quotient(totalMem, n as real, Val(MINIMUM));
  }

  /** A VM is left the minimum, or what it had, which it has if nothing moves. */
  ghost predicate Spared(before: Number, info: VMInfo, givers: map<VMInfo, Number>, takers: map<VMInfo, Number>) {
    var after := Allotted(before, info, givers, takers);
    && (Val(after) >= Val(MINIMUM) || Val(after) >= Val(before))
    && (info !in givers && info !in takers ==> after == before)
  }

  lemma NoMoveSpares(before: Number, info: VMInfo)
    ensures Spared(before, info, map[], map[])
  {
  }

  lemma TransferSpares(before: Number, info: VMInfo, giver: VMInfo, taker: VMInfo,
                       givers: map<VMInfo, Number>, takers: map<VMInfo, Number>)
    requires Transfer(giver, taker, givers, takers) && before == info.allocation
    ensures Spared(before, info, givers, takers)
  {
    BlockFits(giver, taker);
    hide Block;
  }

  lemma KeptIfSpared(before: Number, info: VMInfo, givers: map<VMInfo, Number>, takers: map<VMInfo, Number>,
                     target: Option<Number>)
    requires KeptValues(before, target, info.configured) && Spared(before, info, givers, takers)
    requires info.allocation == Allotted(before, info, givers, takers)
    requires if info in givers || info in takers then Told(info, target) else info.target == target
    ensures Kept(info)
  {
    hide Raised;
    KeptAfter(before, target, info.configured, info.allocation);
  }

  // ---------------------------------------------------------------- rounds with an idle VM

  function MeanFree(infos: seq<VMInfo>): Number
    requires infos != []
    reads infos`used, infos`free, infos`allocation
  {
    Over(TotalFree(infos), |infos|)
  }

  /** What a VM has after such a round. */
  function Evened(info: VMInfo, mean: Number): real
    reads info`used, info`free, info`allocation
  {
    Val(info.allocation) + Val(mean) - Val(FreeOf(info))
  }

  function AllEvened(infos: seq<VMInfo>, mean: Number): (r: seq<real>)
    reads infos`used, infos`free, infos`allocation
    ensures |r| == |infos| && forall k :: 0 <= k < |r| ==> r[k] == Evened(infos[k], mean)
  {
    if infos == [] then [] else AllEvened(infos[..|infos| - 1], mean) + [Evened(infos[|infos| - 1], mean)]
  }

  lemma MovedEvenly(infos: seq<VMInfo>, mean: Number, givers: map<VMInfo, Number>, takers: map<VMInfo, Number>)
    requires Balanced(infos, mean, givers, takers)
    ensures forall k :: 0 <= k < |infos| ==> infos[k] in givers || infos[k] in takers
    ensures forall k :: 0 <= k < |infos| ==>
              Val(Allotted(Allocations(infos)[k], infos[k], givers, takers)) == AllEvened(infos, mean)[k]
  {
    hide FreeOf, Plus, Allocations, AllEvened;
    forall k | 0 <= k < |infos|
      ensures infos[k] in givers || infos[k] in takers
      ensures Val(Allotted(infos[k].allocation, infos[k], givers, takers)) == Evened(infos[k], mean)
    {
      assert Moved(infos[k], mean, givers, takers);
    }
  }

  lemma MeanIs(infos: seq<VMInfo>)
    requires infos != []
    ensures MeanFree(infos) == Over(TotalFree(infos), |infos|)
    ensures NoneTooLow(infos) == AboveFloors(AllEvened(infos, MeanFree(infos)), Targets(infos))
  {
  }

  lemma EachKept(infos: seq<VMInfo>)
    requires AllKept(infos)
    ensures forall k :: 0 <= k < |infos| ==> KeptValues(Allocations(infos)[k], Targets(infos)[k], infos[k].configured)
  {
    assert forall k :: 0 <= k < |infos| ==> Kept(infos[k]);
  }

  lemma CarriedIs(infos: seq<VMInfo>, givers: map<VMInfo, Number>, takers: map<VMInfo, Number>, before: seq<Number>,
                  told: seq<Option<Number>>)
    requires Carried(infos, givers, takers, before, told)
    ensures forall k :: 0 <= k < |infos| ==> infos[k].allocation == Allotted(before[k], infos[k], givers, takers)
    ensures forall k :: 0 <= k < |infos| && (infos[k] in givers || infos[k] in takers) ==> Told(infos[k], told[k])
  {
  }

  /** A VM with nothing, and no target yet. */
  lemma NothingIsKept()
    ensures forall configured :: KeptValues(Whole(0), None, configured)
  {
  }

  ghost predicate AboveFloors(amounts: seq<real>, targets: seq<Option<Number>>)
    requires |amounts| == |targets|
  {
    forall k :: 0 <= k < |amounts| ==> amounts[k] >= Floor(targets[k])
  }

  lemma KeptExactly(infos: seq<VMInfo>, before: seq<Number>, targets: seq<Option<Number>>, after: seq<real>)
    requires |infos| == |before| == |targets| == |after|
    requires forall k :: 0 <= k < |infos| ==> KeptValues(before[k], targets[k], infos[k].configured)
    requires forall k :: 0 <= k < |infos| ==> Val(infos[k].allocation) == after[k]
    requires forall k :: 0 <= k < |infos| ==> Told(infos[k], targets[k])
    ensures AllKept(infos) <==> AboveFloors(after, targets)
  {
    hide KeptValues, Issues, Floor;
    forall k | 0 <= k < |infos|
      ensures Kept(infos[k]) <==> after[k] >= Floor(targets[k])
    {
      KeptAfter(before[k], targets[k], infos[k].configured, infos[k].allocation);
    }
  }

  /** No VM would fall below what it must keep. */
  ghost predicate NoneTooLow(infos: seq<VMInfo>)
    requires infos != []
    reads infos`used, infos`free, infos`allocation, infos`target
  {
    AboveFloors(AllEvened(infos, MeanFree(infos)), Targets(infos))
  }

  ghost predicate HasMinimum(info: VMInfo)
    reads info`allocation
  {
    Val(info.allocation) >= Val(MINIMUM)
  }

  /** The VMs that have the minimum. */
  ghost function WithMinimum(infos: seq<VMInfo>): set<VMInfo>
    reads infos`allocation
  {
    set v | v in infos && HasMinimum(v)
  }

  /** No report shows an idle VM. */
  ghost predicate BusyRounds(rounds: seq<seq<Report>>) {
    forall n :: 0 <= n < |rounds| ==> AllReportBusy(rounds[n])
  }

  lemma NextRound(rounds: seq<seq<Report>>, n: nat)
    requires n < |rounds|
    ensures Flat(rounds[..n + 1]) == Flat(rounds[..n]) + rounds[n]
    ensures BusyRounds(rounds) ==> AllReportBusy(rounds[n])
  {
    FlatGrows(rounds, n);
  }

  lemma FewerNeedLess(m: real, n: real)
    requires m <= n
    ensures Times(m, Val(MINIMUM)) <= Times(n, Val(MINIMUM))
  {
  }

  /** The first rounds. */
  function Early(rounds: seq<seq<Report>>): seq<seq<Report>> {
    if |rounds| <= AVE_LEN then rounds else rounds[..AVE_LEN]
  }

  /** Every VM with the name of a guest that reported is in this set. */
  ghost predicate AllIn(infos: seq<VMInfo>, rounds: seq<seq<Report>>, vms: set<VMInfo>) {
    forall n, k, v :: 0 <= n < |rounds| && 0 <= k < |rounds[n]| && v in infos && v.name == rounds[n][k].name ==>
      v in vms
  }

  ghost predicate AllNamed(infos: seq<VMInfo>, rounds: seq<seq<Report>>) {
    forall n, k :: 0 <= n < |rounds| && 0 <= k < |rounds[n]| ==> Named(infos, rounds[n][k].name)
  }

  lemma NothingRun(rounds: seq<seq<Report>>, vms: set<VMInfo>)
    ensures Flat(rounds[..0]) == [] && AllNamed([], rounds[..0]) && AllIn([], Early(rounds[..0]), vms)
  {
  }

  /** One more round: the VMs named before are there still, under the same names. */
  lemma StillIn(before: seq<VMInfo>, after: seq<VMInfo>, rounds: seq<seq<Report>>, n: nat, had: set<VMInfo>,
                have: set<VMInfo>)
    requires n < |rounds| && before <= after && Distinct(after) && AllNamed(before, rounds[..n])
    requires forall k :: 0 <= k < |rounds[n]| ==> Named(after, rounds[n][k].name)
    ensures AllNamed(after, rounds[..n + 1])
    ensures n >= AVE_LEN && AllIn(before, Early(rounds[..n]), had) && had <= have ==>
              AllIn(after, Early(rounds[..n + 1]), have)
    ensures n < AVE_LEN && have == (set v | v in after) ==> AllIn(after, Early(rounds[..n + 1]), have)
  {
    hide AllIn, Named;
    var seen: seq<seq<Report>>, now: seq<seq<Report>> := rounds[..n], rounds[..n + 1];
    forall i, k | 0 <= i < |now| && 0 <= k < |now[i]|
      ensures Named(after, now[i][k].name)
    {
      if i < n {
        assert now[i] == seen[i] && Named(before, seen[i][k].name);
        NamedStays(before, after, now[i][k].name);
      }
    }
    if n >= AVE_LEN {
      EarlyNamed(before, seen);
      EarlyStays(rounds, n);
      if AllIn(before, Early(seen), had) && had <= have {
        InStays(before, after, Early(seen), had, have);
      }
    } else if have == set v | v in after {
      AllAreIn(after, Early(now));
    }
  }

  lemma EarlyStays(rounds: seq<seq<Report>>, n: nat)
    requires AVE_LEN <= n < |rounds|
    ensures Early(rounds[..n + 1]) == Early(rounds[..n])
  {
    assert rounds[..n + 1][..AVE_LEN] == rounds[..AVE_LEN] == rounds[..n][..AVE_LEN];
  }

  lemma EarlyNamed(infos: seq<VMInfo>, rounds: seq<seq<Report>>)
    requires AllNamed(infos, rounds)
    ensures AllNamed(infos, Early(rounds))
  {
  }

  lemma AllAreIn(infos: seq<VMInfo>, rounds: seq<seq<Report>>)
    ensures AllIn(infos, rounds, set v | v in infos)
  {
  }

  lemma InStays(before: seq<VMInfo>, after: seq<VMInfo>, rounds: seq<seq<Report>>, had: set<VMInfo>, have: set<VMInfo>)
    requires before <= after && Distinct(after) && AllNamed(before, rounds)
    requires AllIn(before, rounds, had) && had <= have
    ensures AllIn(after, rounds, have)
  {
    forall n, k, v | 0 <= n < |rounds| && 0 <= k < |rounds[n]| && v in after && v.name == rounds[n][k].name
      ensures v in have
    {
      assert Named(before, rounds[n][k].name);
      var u :| u in before && u.name == rounds[n][k].name;
      assert u in after;
      SameNameIsSame(after, u, v);
    }
  }

  class RPPolicy {
    var start: bool
    var count: nat
    var infos: seq<VMInfo>
    var givers: map<VMInfo, Number>
    var takers: map<VMInfo, Number>
    /** All reports so far. */
    ghost var history: seq<Report>

    ghost predicate Valid()
      reads this`start, this`count, this`infos, this`history
      reads infos`speed, infos`rate, infos`balloon, infos`free, infos`used, infos`user, infos`limit1
      reads set v | v in infos :: v.fitting
    {
      Known(infos, history) && count <= AVE_LEN && (start <==> count < AVE_LEN)
    }

    constructor ()
      ensures Valid() && start && count == 0 && infos == [] && history == [] && NoMoves(givers, takers)
    {
      start, count, infos, givers, takers, history := true, 0, [], map[], map[], [];
    }

    /** The memory allocated to the VMs together. */
    function Spent(): real
      reads this`infos, infos`allocation
    {
      Total(Allocations(infos))
    }

    lemma SpentIs()
      ensures Spent() == Total(Allocations(infos))
    {
    }

    /** An equal share for every VM. */
    method FirstTime(totalMem: real)
      requires infos != [] && Distinct(infos)
      modifies infos`allocation, infos`target
      ensures Spent() == totalMem
      ensures forall k :: 0 <= k < |infos| ==> infos[k].allocation == Over(Part(totalMem), |infos|)
      ensures forall k :: 0 <= k < |infos| ==>
                infos[k].target == if Issues(infos[k].allocation, infos[k].configured) then Some(infos[k].allocation)
                                   else old(infos[k].target)
      ensures SharedEqually(infos, totalMem, old(Targets(infos)))
      ensures totalMem >= Times(|infos| as real, Val(MINIMUM)) && old(AllKept(infos)) ==>
                AllKept(infos) && WithMinimum(infos) == set v | v in infos
    {
      hide Over, Total, Allocations, Times, SharedEqually, Targets;
      ShareEqually(infos, totalMem);
      ShareIsEnough(totalMem, |infos|);
      if totalMem >= Times(|infos| as real, Val(MINIMUM)) && old(AllKept(infos)) {
        forall k | 0 <= k < |infos|
          ensures Kept(infos[k])
        {
          assert old(Kept(infos[k]));
          KeptAfter(old(infos[k].allocation), old(infos[k].target), infos[k].configured, infos[k].allocation);
        }
      }
    }

    /** Gives every VM the fairness of the rates, all of which are positive; false if one is not. */
    method UpdateFairness() returns (ok: bool)
      requires infos != []
      modifies infos`fairness
      ensures ok <==> AllPositive(Rates(infos))
      ensures ok ==> Scored(infos)
      ensures !ok ==> forall k :: 0 <= k < |infos| ==> infos[k].fairness == old(infos[k].fairness)
    {
      hide Sum, SumSquares, Square, Index, Rates;
      ghost var r := Rates(infos);
      var index1, index2 := 0.0, 0.0;
      NoSums();
      for n := 0 to |infos|
        invariant AllPositive(r[..n]) && index1 == Sum(r[..n]) && index2 == SumSquares(r[..n])
        invariant (n > 0 ==> index2 > 0.0)
        invariant forall k :: 0 <= k < |infos| ==> infos[k].fairness == old(infos[k].fairness)
      {
        var rate := infos[n].rate;
        if rate <= 0.0 {
          assert r[n] <= 0.0;
          return false;
        }
        assert r[..n + 1][..n] == r[..n];
        SumSnoc(r[..n + 1]);
        SumSquaresSnoc(r[..n + 1]);
        SquareVanishes(rate);
        index1 := index1 + rate;
        index2 := index2 + Square(rate);
      }
      assert r[..|r|] == r;
      var fairness := Index(index1, |infos| as real, index2);
      for n := 0 to |infos|
        invariant forall k :: 0 <= k < n ==> infos[k].fairness == fairness
      {
        infos[n].fairness := fairness;
      }
      ok := true;
    }

    /** Walks down the order to a VM that has something to spare, or to the first. */
    method FindGiver(order: seq<nat>) returns (g: nat)
      requires order != [] && InRange(order, |infos|)
      ensures g < |order| && (g > 0 ==> Val(infos[order[g]].allocation) > Val(MINIMUM))
      ensures forall k :: g < k < |order| ==> Val(infos[order[k]].allocation) <= Val(MINIMUM)
    {
      g := |order| - 1;
      while Val(DistToLow(infos[order[g]])) <= 0.0 && g > 0
        invariant g < |order|
        invariant forall k :: g < k < |order| ==> Val(infos[order[k]].allocation) <= Val(MINIMUM)
        decreases g
      {
        g := g - 1;
      }
    }

    /** Notes what is to move: no more than the giver can spare and the taker can take. */
    method Choose(giver: VMInfo, taker: VMInfo)
      requires NoMoves(givers, takers) && giver != taker && Val(giver.allocation) > Val(MINIMUM)
      modifies this`givers, this`takers
      ensures Transfer(giver, taker, givers, takers)
    {
      var blk := MinOf(MinOf(DistToLow(giver), DistToHigh(taker)), MIN_SHARE);
      givers := givers[giver := Negated(blk)];
      takers := takers[taker := blk];
    }

    /** Chooses who gives and who takes, and how much. */
    method DynamicAllocate() returns (giver: VMInfo?, taker: VMInfo?)
      requires infos != [] && Distinct(infos) && NoMoves(givers, takers)
      modifies this`givers, this`takers, infos`fairness
      ensures Pair(infos, giver, taker, givers, takers) && (AllPositive(Rates(infos)) ==> Scored(infos))
      ensures giver != null && taker != null ==> giver.rate >= taker.rate
      ensures !AllPositive(Rates(infos)) || |infos| < 2 ==> giver == null && taker == null
      ensures AllPositive(Rates(infos)) && |infos| >= 2 ==>
                exists g: nat :: PairAt(infos, Allocations(infos), Order(Rates(infos)), g, giver, taker)
      ensures Chosen(infos, givers, takers, Allocations(infos))
    {
      hide Order, AllPositive, Jain, SumSquares, Val, Transfer, Distinct, Ordered, Allocations, ChosenAt, Scored;
      giver, taker := null, null;
      ghost var r := Rates(infos);
      OrderPermutes(r);
      var ok := UpdateFairness();
      if !ok || |infos| < 2 {
        return;
      }
      var order := Order(Rates(infos));
      assert Rates(infos) == r;
      var g := FindGiver(order);
      if g > 0 {
        giver, taker := infos[order[g]], infos[order[0]];
        FirstPrecedes(order, r, g);
        AreDifferent(infos, order[0], order[g]);
        Choose(giver, taker);
      }
      assert PairAt(infos, Allocations(infos), order, g, giver, taker);
      PairIsChosen(infos, order, g, giver, taker, givers, takers);
    }

    /** One of the first rounds. */
    method ShareRound(totalMem: real)
      requires infos != [] && Valid() && start
      modifies this`start, this`count, infos`allocation, infos`target
      ensures Valid() && (start <==> count < AVE_LEN) && count == old(count) + 1
      ensures Spent() == totalMem && SharedEqually(infos, totalMem, old(Targets(infos)))
      ensures totalMem >= Times(|infos| as real, Val(MINIMUM)) && old(AllKept(infos)) ==>
                AllKept(infos) && WithMinimum(infos) == set v | v in infos
    {
      hide AllValid, AllHeard, Distinct, Total, Allocations, Times, SharedEqually, Targets;
      count := count + 1;
      FirstTime(totalMem);
      if count >= AVE_LEN {
        start := false;
      }
    }

    /** A round in which every VM is busy. */
    method FairRound()
      requires infos != [] && Distinct(infos) && NoMoves(givers, takers)
      modifies this`givers, this`takers, infos`fairness, infos`allocation, infos`target
      ensures Spent() == old(Spent())
      ensures old(AllKept(infos)) ==> AllKept(infos)
      ensures old(WithMinimum(infos)) <= WithMinimum(infos)
      ensures FairlyMoved(infos, old(Allocations(infos)), old(Targets(infos)))
    {
      hide *;
      ghost var before, told := Allocations(infos), Targets(infos);
      SpentIs();
      HavingIs(infos);
      if AllKept(infos) {
        EachKept(infos);
      }
      var giver, taker := DynamicAllocate();
      PairFits(infos, giver, taker, givers, takers);
      CarryOut(infos, givers, takers);
      SpentIs();
      CarriedFairly(infos, givers, takers, before, told);
      MinimumStays(infos, givers, takers, before, told);
      if old(AllKept(infos)) {
        AllKeptStill(infos, givers, takers, before, told);
      }
    }

    /** Decides what evens out the free memory. */
    method EvenOut()
      requires infos != [] && Distinct(infos)
      modifies this`givers, this`takers
      ensures forall v :: v in infos <==> v in givers || v in takers
      ensures forall v :: v in givers ==> v !in takers
      ensures Added(infos, givers) + Added(infos, takers) == -(Remainder(TotalFree(infos), |infos|) as real)
      ensures forall k :: 0 <= k < |infos| ==>
                Val(Allotted(Allocations(infos)[k], infos[k], givers, takers)) == AllEvened(infos, MeanFree(infos))[k]
      ensures BalancedWith(infos, Allocations(infos), Over(FreeTotal(infos, Allocations(infos)), |infos|), givers,
                           takers)
    {
      hide *;
      MeanIs(infos);
      givers, takers := MeanByFree(infos);
      BalancedTotal(infos, givers, takers);
      BalancedApart(infos, MeanFree(infos), givers, takers);
      BalancedIs(infos, givers, takers);
      MovedEvenly(infos, MeanFree(infos), givers, takers);
    }

    /** Decides and carries it out. */
    method EvenOutAll()
      requires infos != [] && Distinct(infos)
      modifies this`givers, this`takers, infos`allocation, infos`target
      ensures Spent() == old(Spent()) - old(Remainder(TotalFree(infos), |infos|)) as real
      ensures forall k :: 0 <= k < |infos| ==> Val(infos[k].allocation) == old(AllEvened(infos, MeanFree(infos)))[k]
      ensures forall k :: 0 <= k < |infos| ==> Told(infos[k], old(Targets(infos))[k])
      ensures EvenedOut(infos, old(Allocations(infos)), old(Targets(infos)))
    {
      hide *;
      ghost var before, told := Allocations(infos), Targets(infos);
      SpentIs();
      EvenOut();
      CarryOut(infos, givers, takers);
      CarriedIs(infos, givers, takers, before, told);
      CarriedEvenly(infos, givers, takers, before, told);
      SpentIs();
    }

    /** A round in which some VMs are idle: where it leaves every VM, and exactly when the targets
        last issued remain covered. */
    method MeanRound()
      requires infos != [] && Distinct(infos)
      modifies this`givers, this`takers, infos`allocation, infos`target
      ensures Spent() == old(Spent()) - old(Remainder(TotalFree(infos), |infos|)) as real
      ensures forall k :: 0 <= k < |infos| ==> Val(infos[k].allocation) == old(AllEvened(infos, MeanFree(infos)))[k]
      ensures forall k :: 0 <= k < |infos| ==> Told(infos[k], old(Targets(infos))[k])
      ensures EvenedOut(infos, old(Allocations(infos)), old(Targets(infos)))
      ensures old(AllKept(infos)) ==> (AllKept(infos) <==> old(NoneTooLow(infos)))
    {
      hide *;
      ghost var before, targets, evened := Allocations(infos), Targets(infos), AllEvened(infos, MeanFree(infos));
      MeanIs(infos);
      if AllKept(infos) {
        EachKept(infos);
      }
      EvenOutAll();
      if old(AllKept(infos)) {
        KeptExactly(infos, before, targets, evened);
      }
    }

    /** Decides and carries out the moves of a round: as the rates have it if every VM is busy, the
        free memory evened out if only some are, none if none is. */
    method Rebalance()
      requires Valid() && infos != [] && NoMoves(givers, takers)
      modifies this`givers, this`takers, infos`fairness, infos`allocation, infos`target
      ensures Valid() && Rebalanced(infos, old(Allocations(infos)), old(Targets(infos)))
      ensures !Mixed(infos) ==>
                Spent() == old(Spent()) && (old(AllKept(infos)) ==> AllKept(infos)) &&
                  old(WithMinimum(infos)) <= WithMinimum(infos)
      ensures Mixed(infos) ==> Spent() == old(Spent()) - old(Remainder(TotalFree(infos), |infos|)) as real
      ensures Mixed(infos) && old(AllKept(infos)) ==> (AllKept(infos) <==> old(NoneTooLow(infos)))
    {
      hide *;
      Apart();
      ghost var mixed, before, told := Mixed(infos), Allocations(infos), Targets(infos);
      var busy, idle := DivideGroup(infos);
      MixedIs(infos);
      if idle == [] {
        FairRound();
      } else if busy != [] {
        MeanRound();
      } else {
        NothingMoved(infos);
      }
      assert Mixed(infos) == mixed;
      BusyLeaves(infos, before, told);
    }

    lemma Apart()
      requires Valid()
      ensures Distinct(infos) && count <= AVE_LEN && (start <==> count < AVE_LEN)
    {
    }

    lemma ValidIs()
      ensures Valid() <==> Known(infos, history) && count <= AVE_LEN && (start <==> count < AVE_LEN)
      ensures AVE_LEN > 0
    {
    }

    /** Takes in the reports; VMs that join have nothing yet. */
    method TakeIn(reports: seq<Report>)
      requires Valid() && Weighted(reports)
      modifies this`infos, this`history, infos`user, infos`pagefault, infos`free, infos`balloon, infos`used,
               infos`limit1,
               infos`speed, infos`rate, set v | v in infos :: v.fitting
      ensures Valid() && old(infos) <= infos && (reports != [] ==> infos != []) && history == old(history) + reports
      ensures forall k :: |old(infos)| <= k < |infos| ==> fresh(infos[k]) && fresh(infos[k].fitting)
      ensures forall k :: 0 <= k < |reports| ==> Named(infos, reports[k].name)
      ensures old(AllBusy(infos)) && AllReportBusy(reports) ==> AllBusy(infos)
      ensures Spent() == old(Spent()) && (old(AllKept(infos)) ==> AllKept(infos))
      ensures old(WithMinimum(infos)) <= WithMinimum(infos)
      ensures Allocations(infos) == Padded(old(Allocations(infos)), |infos|, Whole(0))
      ensures Targets(infos) == Padded(old(Targets(infos)), |infos|, None)
    {
      hide *;
      ghost var infos', before, told := infos, Allocations(infos), Targets(infos);
      SpentIs();
      HavingIs(infos);
      if AllKept(infos) {
        EachKept(infos);
      }
      ValidIs();
      infos := UpdateInfos(infos, reports, Whole(0), AVE_LEN, history);
      history := history + reports;
      ValidIs();
      SpentIs();
      TotalPadded(before, |infos|);
      MinimumWithJoiners(infos', infos, before);
      if old(AllKept(infos)) {
        KeptWithJoiners(infos', infos, before, told);
      }
    }

    lemma NoneIdle()
      requires infos == []
      ensures AllBusy(infos) && AllKept(infos) && 0 < AVE_LEN
    {
    }

    /** What happens in a round after the reports. */
    method Round(totalMem: real)
      requires Valid() && infos != [] && NoMoves(givers, takers)
      modifies this`start, this`count, this`givers, this`takers, infos`fairness, infos`allocation, infos`target
      ensures Valid() && (start <==> count < AVE_LEN) && count == if old(start) then old(count) + 1 else old(count)
      ensures RoundLeaves(infos, old(start), totalMem, old(Allocations(infos)), old(Targets(infos)))
      ensures old(start) ==> Spent() == totalMem
      ensures old(start) && old(AllKept(infos)) && totalMem >= Times(|infos| as real, Val(MINIMUM)) ==>
                AllKept(infos) && WithMinimum(infos) == set v | v in infos
      ensures !old(start) ==> Spent() == old(Spent()) - old(Lost(infos))
      ensures !old(start) && !Mixed(infos) ==>
                (old(AllKept(infos)) ==> AllKept(infos)) && old(WithMinimum(infos)) <= WithMinimum(infos)
    {
      hide *;
      ghost var before, told := Allocations(infos), Targets(infos);
      Apart();
      LostIs(infos);
      MixedIs(infos);
      if start {
        ShareRound(totalMem);
      } else {
        Rebalance();
        Apart();
      }
      RoundIs(infos, old(start), totalMem, before, told);
    }

    /** One round. */
    method Evaluate(totalMem: real, reports: seq<Report>)
      requires Valid() && (infos != [] || reports != []) && Weighted(reports)
      modifies this`start, this`count, this`infos, this`history, this`givers, this`takers, infos,
               set v | v in infos :: v.fitting
      ensures Valid() && old(infos) <= infos && infos != [] && history == old(history) + reports
      ensures forall k :: |old(infos)| <= k < |infos| ==> fresh(infos[k]) && fresh(infos[k].fitting)
      ensures forall k :: 0 <= k < |reports| ==> Named(infos, reports[k].name)
      ensures (start <==> count < AVE_LEN) && count == if old(start) then old(count) + 1 else old(count)
      ensures old(AllBusy(infos)) && AllReportBusy(reports) ==> AllBusy(infos)
      ensures old(start) ==> Spent() == totalMem
      ensures old(start) && old(AllKept(infos)) && totalMem >= Times(|infos| as real, Val(MINIMUM)) ==>
                AllKept(infos) && WithMinimum(infos) == set v | v in infos
      ensures !old(start) ==> old(Spent()) - |infos| as real < Spent() <= old(Spent())
      ensures !old(start) && !Mixed(infos) ==>
                && Spent() == old(Spent()) && (old(AllKept(infos)) ==> AllKept(infos))
                && old(WithMinimum(infos)) <= WithMinimum(infos)
      ensures RoundLeaves(infos, old(start), totalMem, Padded(old(Allocations(infos)), |infos|, Whole(0)),
                          Padded(old(Targets(infos)), |infos|, None))
    {
      hide *;
      ghost var first, spent, kept, had := start, Spent(), AllKept(infos), WithMinimum(infos);
      givers, takers := map[], map[];
      NothingMoves();
      TakeIn(reports);
      assert Spent() == spent && (kept ==> AllKept(infos)) && had <= WithMinimum(infos) && start == first;
      ghost var lost := Lost(infos);
      LostIs(infos);
      MixedIs(infos);
      Round(totalMem);
      assert !first ==> Spent() == spent - lost;
    }

    /** A run from the start, with a fixed amount of memory. What is allocated is never more than
        that, and falls short by less than the number of VMs a round. If the reports never show a
        VM idle, it is exactly that; and if it is enough for the minimums, every VM that reported in
        the first rounds has the minimum, and what the VMs were last told is together no more. */
    method Run(totalMem: real, rounds: seq<seq<Report>>)
      requires Valid() && infos == [] && history == [] && start && count == 0
      requires rounds != [] && rounds[0] != [] && forall n :: 0 <= n < |rounds| ==> Weighted(rounds[n])
      modifies this`start, this`count, this`infos, this`history, this`givers, this`takers
      ensures Valid() && infos != [] && history == Flat(rounds)
      ensures totalMem - Times(|rounds| as real, |infos| as real) <= Spent() <= totalMem
      ensures |rounds| <= AVE_LEN || BusyRounds(rounds) ==> Spent() == totalMem
      ensures BusyRounds(rounds) && totalMem >= Times(|infos| as real, Val(MINIMUM)) ==>
                && AllKept(infos) && TotalIssued(infos) <= totalMem
                && AllIn(infos, Early(rounds), WithMinimum(infos))
    {
      hide *;
      NoneIdle();
      NothingRun(rounds, WithMinimum(infos));
      for n := 0 to |rounds|
        invariant Valid() && (n > 0 ==> infos != []) && history == Flat(rounds[..n])
        invariant fresh(set v | v in infos) && fresh(set v | v in infos :: v.fitting)
        invariant (start <==> n < AVE_LEN) && count == (if n < AVE_LEN then n else AVE_LEN)
        invariant (BusyRounds(rounds) ==> AllBusy(infos))
        invariant n > 0 ==> totalMem - Times(n as real, |infos| as real) <= Spent() <= totalMem
        invariant n > 0 && (n <= AVE_LEN || BusyRounds(rounds)) ==> Spent() == totalMem
        invariant AllNamed(infos, rounds[..n])
        invariant BusyRounds(rounds) && totalMem >= Times(|infos| as real, Val(MINIMUM)) ==>
                    AllKept(infos) && AllIn(infos, Early(rounds[..n]), WithMinimum(infos))
      {
        ghost var before, had, spent := infos, WithMinimum(infos), Spent();
        Evaluate(totalMem, rounds[n]);
        NextRound(rounds, n);
        StillWithin(totalMem, spent, Spent(), n as real, |before| as real, |infos| as real);
        FewerNeedLess(|before| as real, |infos| as real);
        Apart();
        MixedIs(infos);
        StillIn(before, infos, rounds, n, had, WithMinimum(infos));
      }
      assert rounds[..|rounds|] == rounds;
      SpentIs();
      if AllKept(infos) {
        IssuedIsCovered(infos);
      }
    }
  }

  // ---------------------------------------------------------------- a round that breaks the above

  /** A guest of 4000000 with the balloon at 1150000. */
  function Ballooned(name: string, free: int): Report {
    Report(name, 1.0, Whole(4000000), Whole(free), Whole(1150000), 0.0, 0.0, 0.0, 0.0)
  }

  lemma IssuedToTwo(a: VMInfo, b: VMInfo)
    ensures TotalIssued([a, b]) == Issued(a.target) + Issued(b.target)
  {
    var none, one, two: seq<VMInfo> := [], [a], [a, b];
    assert two[..1] == one && one[..0] == none;
    hide Issued;
    assert TotalIssued(none) == 0.0 && TotalIssued(one) == Issued(a.target);
  }

  /** A VM of that example, with an allocation it was told. */
  ghost predicate Given(info: VMInfo, share: real, free: int)
    reads info`allocation, info`target, info`free, info`used
  {
    && info.configured == Whole(4000000) && info.free == Whole(free) && Val(info.used) >= Val(MINIMUM)
    && Val(info.allocation) == share && info.target.Some? && Val(info.target.value) == share
  }

  method Join(name: string, free: int) returns (info: VMInfo)
    requires free <= 200000
    ensures fresh(info) && fresh(info.fitting) && info.Valid() && Joining(info, Ballooned(name, free))
    ensures info.configured == Whole(4000000) && info.free == Whole(free)
    ensures Val(info.used) >= Val(MINIMUM) && info.allocation == Whole(0) && info.target == None
  {
    hide Fitting.Valid, NoneNegative;
    info := new VMInfo(Ballooned(name, free), Whole(0), AVE_LEN);
  }

  lemma KnownOne(a: VMInfo, ra: Report)
    requires a.Valid() && Joining(a, ra)
    ensures Known([a], [ra])
  {
    hide VMInfo.Valid;
    assert [] + [a] == [a] && [] + [ra] == [ra];
    KnownSnoc([], a, [], ra);
  }

  lemma KnownTwo(a: VMInfo, b: VMInfo, ra: Report, rb: Report)
    requires a.Valid() && b.Valid() && a != b && a.fitting != b.fitting && a.name != b.name
    requires Joining(a, ra) && Joining(b, rb)
    ensures Known([a, b], [ra, rb])
  {
    hide *;
    assert [a] + [b] == [a, b] && [ra] + [rb] == [ra, rb];
    KnownOne(a, ra);
    AreDistinct([a], [ra]);
    DistinctSnoc([a], b);
    KnownSnoc([a], b, [ra], rb);
  }

  lemma ShareOfTwo()
    ensures Val(Over(Part(2300000.0), 2)) == 1150000.0 && Issues(Over(Part(2300000.0), 2), Whole(4000000))
    ensures 2300000.0 >= Times(2 as real, Val(MINIMUM))
  {
  }

  ghost predicate Joined(info: VMInfo, free: int)
    reads info`allocation, info`target, info`free, info`used
  {
    && info.configured == Whole(4000000) && info.free == Whole(free) && Val(info.used) >= Val(MINIMUM)
    && info.allocation == Whole(0) && info.target == None
  }

  method JoinTwo() returns (policy: RPPolicy, a: VMInfo, b: VMInfo)
    ensures fresh(policy) && fresh(a) && fresh(b) && policy.Valid() && policy.infos == [a, b]
    ensures Joined(a, 200000) && Joined(b, 0)
  {
    hide VMInfo.Valid, Known, Distinct;
    a := Join("a", 200000);
    b := Join("b", 0);
    assert a.name[0] == 'a' && b.name[0] == 'b';
    KnownTwo(a, b, Ballooned("a", 200000), Ballooned("b", 0));
    policy := new RPPolicy();
    policy.infos, policy.history := [a, b], [Ballooned("a", 200000), Ballooned("b", 0)];
  }

  /** They share 2300000 equally, and are told so. */
  method ShareTwo() returns (policy: RPPolicy, a: VMInfo, b: VMInfo)
    ensures fresh(policy) && fresh(a) && fresh(b) && policy.Valid() && policy.infos == [a, b]
    ensures policy.Spent() == 2300000.0 && AllKept(policy.infos) && Given(a, 1150000.0, 200000)
    ensures Given(b, 1150000.0, 0)
  {
    hide VMInfo.Valid, Known, Distinct, Allocations, Total, Over, Times, Issues, AllKept, RPPolicy.Spent;
    policy, a, b := JoinTwo();
    BothKept(a, b);
    policy.Apart();
    ShareOfTwo();
    assert policy.infos[0] == a && policy.infos[1] == b;
    policy.FirstTime(2300000.0);
  }

  lemma BothKept(a: VMInfo, b: VMInfo)
    requires a.allocation == b.allocation == Whole(0) && a.target == b.target == None
    ensures AllKept([a, b])
  {
  }

  lemma EvenedTwo(a: VMInfo, b: VMInfo)
    requires Given(a, 1150000.0, 200000) && Given(b, 1150000.0, 0)
    ensures TotalFree([a, b]) == Whole(200000) && MeanFree([a, b]) == Whole(100000)
    ensures AllEvened([a, b], Whole(100000)) == [1050000.0, 1250000.0]
    ensures Targets([a, b]) == [a.target, b.target] && Remainder(TotalFree([a, b]), 2) == 0
    ensures Mixed([a, b]) && a.configured == b.configured == Whole(4000000)
    ensures a.target.Some? && Val(a.target.value) == 1150000.0
  {
    TwoFree(a, b);
    var two := [a, b];
    assert two[..1] == [a] && [a][..0] == [];
    assert two[0] == a && two[1] == b;
  }

  /** What the VMs are left with, and what they were last told. */
  lemma LeftTwo(a: VMInfo, b: VMInfo, ta: Option<Number>, tb: Option<Number>)
    requires a.configured == b.configured == Whole(4000000) && Val(a.allocation) == 1050000.0
    requires Val(b.allocation) == 1250000.0
    requires Told(a, ta) && Told(b, tb) && ta.Some? && Val(ta.value) == 1150000.0
    ensures TotalIssued([a, b]) == 2400000.0 && !AllKept([a, b]) && !HasMinimum(a)
  {
    IssuedToTwo(a, b);
    assert !Kept([a, b][0]);
  }

  /** Two VMs share 2300000 equally and are told so. Then the first is idle: it loses 100000 to the
      second, falls below the minimum, and is not told, while the second is. The targets last
      issued come to 2400000. */
  method MeanRoundExample() returns (policy: RPPolicy)
    ensures fresh(policy) && policy.Valid() && |policy.infos| == 2 && Mixed(policy.infos)
    ensures policy.Spent() == 2300000.0 && TotalIssued(policy.infos) == 2400000.0
    ensures !AllKept(policy.infos) && !HasMinimum(policy.infos[0])
  {
    hide *;
    var a, b;
    policy, a, b := ShareTwo();
    ghost var ta, tb := a.target, b.target;
    EvenedTwo(a, b);
    policy.Apart();
    policy.MeanRound();
    assert policy.infos[0] == a && policy.infos[1] == b;
    LeftTwo(a, b, ta, tb);
  }
}

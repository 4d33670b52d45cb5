/** Fairness between users over all rounds (`Old_RPPolicy`, `Algorithm`): memory is filled up to
    one level for all users, which counts what they had in the past, by weight. */
module UserFairness {
  import opened Options
  import opened Products

  type Amounts = map<string, real>

  // ---------------------------------------------------------------- sums over users

  function Amount(m: Amounts, x: string): real {
    if x in m then m[x] else 0.0
  }

  function SumBy(names: seq<string>, m: Amounts): real {
    if names == [] then 0.0 else SumBy(names[..|names| - 1], m) + Amount(m, names[|names| - 1])
  }

  ghost predicate Distinct(names: seq<string>) {
    forall x :: multiset(names)[x] <= 1
  }

  lemma {:induction false} SumBySame(names: seq<string>, m: Amounts, m': Amounts)
    requires forall x :: x in names ==> Amount(m, x) == Amount(m', x)
    ensures SumBy(names, m) == SumBy(names, m')
  {
    if names != [] {
      SumBySame(names[..|names| - 1], m, m');
    }
  }

  lemma {:induction false} SumByWithout(names: seq<string>, m: Amounts, x: string)
    requires Distinct(names) && x in names && x in m
    ensures SumBy(names, m) == SumBy(names, m - {x}) + m[x]
  {
    var init, last := names[..|names| - 1], names[|names| - 1];
    assert names == init + [last];
    assert multiset(init)[last] == 0 && forall y :: multiset(init)[y] <= multiset(names)[y];
    if last == x {
      SumBySame(init, m, m - {x});
    } else {
      SumByWithout(init, m, x);
    }
  }

  lemma {:induction false} SumByNothing(names: seq<string>, m: Amounts)
    requires forall x :: x in names ==> x !in m
    ensures SumBy(names, m) == 0.0
  {
    if names != [] {
      SumByNothing(names[..|names| - 1], m);
    }
  }

  /** The sum over any names among which are all that have an amount. */
  lemma {:induction false} SumByAny(a: seq<string>, b: seq<string>, m: Amounts)
    requires Distinct(a) && Distinct(b) && forall x :: x in m ==> x in a && x in b
    ensures SumBy(a, m) == SumBy(b, m)
    decreases |m|
  {
    if m == map[] {
      SumByNothing(a, m);
      SumByNothing(b, m);
    } else {
      var x :| x in m;
      SumByWithout(a, m, x);
      SumByWithout(b, m, x);
      assert |(m - {x}).Keys| < |m.Keys| by {
        assert (m - {x}).Keys == m.Keys - {x};
      }
      SumByAny(a, b, m - {x});
    }
  }

  // ---------------------------------------------------------------- one pass

  /** What the passes work on: who has none yet, what is left, and what those had in the past. */
  datatype State = State(users: seq<string>, memory: real, past: real, allocates: Amounts)

  /** The fixed inputs. */
  datatype Inputs = Inputs(predicts: Amounts, weights: Amounts, low: Amounts, config: Amounts, history: Amounts)

  ghost predicate ValidInputs(inp: Inputs, names: seq<string>) {
    forall x :: x in names ==>
      x in inp.predicts && x in inp.weights && inp.weights[x] > 0.0 && x in inp.low && x in inp.config
  }

  /** The level: memory, past and to come, for each unit of weight. */
  function Level(inp: Inputs, st: State): real
    requires SumBy(st.users, inp.weights) > 0.0
  {
    (st.memory + st.past) / SumBy(st.users, inp.weights)
  }

  function Deserved(inp: Inputs, level: real, x: string): real {
    Times(Amount(inp.weights, x), level) - Amount(inp.history, x)
  }

  /** What a user that asks for no more than it deserves is given. */
  function Granted(inp: Inputs, x: string): real {
    if Amount(inp.predicts, x) > Amount(inp.config, x) then Amount(inp.config, x) else Amount(inp.predicts, x)
  }

  function Clamped(inp: Inputs, level: real, x: string): real {
    var d := Deserved(inp, level, x);
    if d < Amount(inp.low, x) then Amount(inp.low, x) else if d > Amount(inp.config, x) then Amount(inp.config, x)
      else d
  }

  /** Settles one user with an amount. */
  function Settle(inp: Inputs, st: State, x: string, amount: real): State {
    State(st.users, st.memory - amount, st.past - Amount(inp.history, x), st.allocates[x := amount])
  }

  lemma {:induction false} WeightsArePositive(inp: Inputs, users: seq<string>)
    requires ValidInputs(inp, users) && users != []
    ensures SumBy(users, inp.weights) > 0.0
  {
    if |users| > 1 {
      WeightsArePositive(inp, users[..|users| - 1]);
    }
  }

  /** The books: what is left and what is settled, of the memory and of the past. `gone` is the
      part of the past that belongs to none of the names. */
  ghost predicate Booked(inp: Inputs, names: seq<string>, settled: seq<string>, total: real, gone: real, st: State) {
    && Distinct(settled + st.users)
    && (forall x :: x in names <==> x in settled || x in st.users)
    && (forall x :: x in st.allocates <==> x in settled)
    && st.memory == total - SumBy(settled, st.allocates)
    && st.past == SumBy(st.users, inp.history) + gone
  }

  lemma {:induction false} SumByConcat(a: seq<string>, b: seq<string>, m: Amounts)
    ensures SumBy(a + b, m) == SumBy(a, m) + SumBy(b, m)
  {
    if b == [] {
      assert a + b == a;
    } else {
      SumByConcat(a, b[..|b| - 1], m);
      assert (a + b)[..|a + b| - 1] == a + b[..|b| - 1];
    }
  }

  lemma SumByOne(x: string, m: Amounts)
    ensures SumBy([x], m) == Amount(m, x)
  {
    assert [x][..0] == [];
  }

  lemma SumByInsert(a: seq<string>, x: string, b: seq<string>, m: Amounts)
    ensures SumBy(a + [x] + b, m) == SumBy(a + b, m) + Amount(m, x)
  {
    SumByConcat(a + [x], b, m);
    SumByConcat(a, [x], m);
    SumByOne(x, m);
    SumByConcat(a, b, m);
  }

  /** Settling one user keeps the books. */
  lemma SettleBooks(inp: Inputs, names: seq<string>, settled: seq<string>, total: real, gone: real, st: State,
                    a: seq<string>, x: string, b: seq<string>, amount: real)
    requires Booked(inp, names, settled, total, gone, st) && st.users == a + [x] + b
    ensures Booked(inp, names, settled + [x], total, gone, Settle(inp, st, x, amount).(users := a + b))
    ensures x !in settled && x !in a && x !in b
    ensures SumBy(st.users, inp.weights) == SumBy(a + b, inp.weights) + Amount(inp.weights, x)
  {
    hide SumBy, Distinct;
    SumByInsert(a, x, b, inp.history);
    SumByInsert(a, x, b, inp.weights);
    StillDistinct(settled, a, x, b);
    var st' := Settle(inp, st, x, amount).(users := a + b);
    SumBySame(settled, st.allocates, st'.allocates);
    SumByConcat(settled, [x], st'.allocates);
    SumByOne(x, st'.allocates);
  }

  lemma BookedUsers(inp: Inputs, names: seq<string>, settled: seq<string>, total: real, gone: real, st: State)
    requires Booked(inp, names, settled, total, gone, st)
    ensures forall x :: x in st.users ==> x in names && x !in settled
    ensures forall x :: x in settled ==> x in names && x in st.allocates
  {
    forall x | x in st.users
      ensures x !in settled
    {
      assert multiset(settled + st.users) == multiset(settled) + multiset(st.users);
      assert multiset(settled + st.users)[x] == multiset(settled)[x] + multiset(st.users)[x];
    }
  }

  lemma InputsHave(inp: Inputs, names: seq<string>)
    requires ValidInputs(inp, names)
    ensures forall x :: x in names ==>
              x in inp.predicts && x in inp.config && x in inp.low &&
              Amount(inp.weights, x) > 0.0 && inp.predicts[x] == Amount(inp.predicts, x)
  {
  }

  lemma StillDistinct(settled: seq<string>, a: seq<string>, x: string, b: seq<string>)
    requires Distinct(settled + (a + [x] + b))
    ensures Distinct(settled + [x] + (a + b)) && x !in settled && x !in a && x !in b
    ensures forall y :: y in settled + (a + [x] + b) <==> y in settled || y == x || y in a + b
  {
    assert multiset(settled + (a + [x] + b)) == multiset(settled) + multiset(a) + multiset{x} + multiset(b);
    assert multiset(settled + [x] + (a + b)) == multiset(settled) + multiset(a) + multiset{x} + multiset(b);
    assert (multiset(settled) + multiset(a) + multiset{x} + multiset(b))[x] ==
           multiset(settled)[x] + multiset(a)[x] + 1 + multiset(b)[x];
  }

  // ---------------------------------------------------------------- what users get

  /** A user that asks for no more than the least it may have gets that. */
  ghost predicate IsLow(inp: Inputs, x: string) {
    Amount(inp.predicts, x) <= Amount(inp.low, x)
  }

  /** A user is given what it asks for, and stays below the level. */
  ghost predicate Satisfied(inp: Inputs, level: real, x: string, amount: real) {
    amount == Granted(inp, x) && Amount(inp.predicts, x) < Deserved(inp, level, x)
  }

  lemma IsSatisfied(inp: Inputs, level: real, x: string, amount: real)
    requires x in inp.predicts && x in inp.config && inp.predicts[x] < Deserved(inp, level, x)
    requires amount == if inp.predicts[x] > inp.config[x] then inp.config[x] else inp.predicts[x]
    ensures Satisfied(inp, level, x, amount)
  {
  }

  lemma SatisfiedIsBelow(inp: Inputs, level: real, x: string, amount: real)
    requires Satisfied(inp, level, x, amount)
    ensures amount + Amount(inp.history, x) < Times(Amount(inp.weights, x), level)
  {
  }

  /** A settled user has the least it may have, or is satisfied, or is brought to the level. */
  ghost predicate Settled(inp: Inputs, level: real, x: string, amount: real) {
    if IsLow(inp, x) then amount == Amount(inp.low, x)
    else Satisfied(inp, level, x, amount) || amount == Clamped(inp, level, x)
  }

  /** No user gets less than the least it may have, or more than it is configured for. */
  lemma SettledWithin(inp: Inputs, level: real, x: string, amount: real)
    requires Settled(inp, level, x, amount) && Amount(inp.low, x) <= Amount(inp.config, x)
    ensures Amount(inp.low, x) <= amount <= Amount(inp.config, x)
  {
  }

  /** A user whose amount is not clamped comes to the level, its past included. */
  lemma UnclampedIsLevel(inp: Inputs, level: real, x: string)
    requires Amount(inp.weights, x) > 0.0 && Clamped(inp, level, x) == Deserved(inp, level, x)
    ensures (Amount(inp.history, x) + Clamped(inp, level, x)) / Amount(inp.weights, x) == level
  {
    Quotient(Amount(inp.history, x) + Clamped(inp, level, x), Amount(inp.weights, x), level);
  }

  /** What the users deserve together is what is left, and what is past of nobody's. */
  lemma {:induction false} DeservedSum(inp: Inputs, level: real, users: seq<string>, deserved: Amounts)
    requires forall x :: x in users ==> Amount(deserved, x) == Deserved(inp, level, x)
    ensures SumBy(users, deserved) == Times(SumBy(users, inp.weights), level) - SumBy(users, inp.history)
  {
    hide Times, Amount;
    if users == [] {
      TimesZero(level);
    } else {
      var init, last := users[..|users| - 1], users[|users| - 1];
      DeservedSum(inp, level, init, deserved);
      TimesSum(SumBy(init, inp.weights), Amount(inp.weights, last), level, SumBy(users, inp.weights));
    }
  }

  lemma TimesZero(y: real)
    ensures Times(0.0, y) == 0.0
  {
  }

  lemma TimesSum(a: real, b: real, y: real, c: real)
    requires c == a + b
    ensures Times(c, y) == Times(a, y) + Times(b, y)
  {
  }

  lemma LevelTimes(inp: Inputs, st: State)
    requires SumBy(st.users, inp.weights) > 0.0
    ensures Times(SumBy(st.users, inp.weights), Level(inp, st)) == st.memory + st.past
  {
  }

  /** The level does not fall. */
  lemma LevelRises(inp: Inputs, st: State, level: real)
    requires SumBy(st.users, inp.weights) > 0.0 && st.memory + st.past >= Times(SumBy(st.users, inp.weights), level)
    ensures Level(inp, st) >= level
  {
    Quotient(st.memory + st.past, SumBy(st.users, inp.weights), level);
  }

  // ---------------------------------------------------------------- the climb of the level

  /** A user that is satisfied at a level, if there has been one yet. */
  ghost predicate Below(inp: Inputs, prior: Option<real>, x: string) {
    !IsLow(inp, x) && prior.Some? && Amount(inp.predicts, x) < Deserved(inp, prior.value, x)
  }

  ghost predicate Rests(inp: Inputs, prior: Option<real>, x: string) {
    !IsLow(inp, x) && !Below(inp, prior, x)
  }

  /** What a user has, its past included, when those satisfied before are left as they are and
      all others are brought to `level`. */
  ghost function Held(inp: Inputs, prior: Option<real>, level: real, x: string): real {
    if IsLow(inp, x) then Amount(inp.low, x) + Amount(inp.history, x)
    else if Below(inp, prior, x) then Granted(inp, x) + Amount(inp.history, x)
    else Times(Amount(inp.weights, x), level)
  }

  ghost function HeldBy(inp: Inputs, prior: Option<real>, level: real, xs: seq<string>): real {
    if xs == [] then 0.0 else
      HeldBy(inp, prior, level, xs[..|xs| - 1]) + Held(inp, prior, level, xs[|xs| - 1])
  }

  /** What the low and the satisfied users are given. */
  ghost function Given(inp: Inputs, prior: Option<real>, x: string): real {
    if IsLow(inp, x) then Amount(inp.low, x) else if Below(inp, prior, x) then Granted(inp, x) else 0.0
  }

  ghost function GivenBy(inp: Inputs, prior: Option<real>, xs: seq<string>): real {
    if xs == [] then 0.0 else GivenBy(inp, prior, xs[..|xs| - 1]) + Given(inp, prior, xs[|xs| - 1])
  }

  /** A pass: there is memory left, and someone to share it, and the level is the one up to which
      they, past and new, use up all there is and was. */
  ghost predicate StepsTo(inp: Inputs, names: seq<string>, total: real, all: real, prior: Option<real>, level: real) {
    && HeldBy(inp, prior, level, names) == total + all && GivenBy(inp, prior, names) < total
    && exists x :: x in names && Rests(inp, prior, x)
  }

  /** The level satisfies nobody that was not before. */
  ghost predicate Steady(inp: Inputs, names: seq<string>, prior: Option<real>, level: real) {
    forall x :: x in names && Below(inp, Some(level), x) ==> Below(inp, prior, x)
  }

  function Prior(levels: seq<real>, k: nat): Option<real>
    requires k <= |levels|
  {
    if k == 0 then None else Some(levels[k - 1])
  }

  /** The levels of the passes, one after another. */
  ghost predicate Climbs(inp: Inputs, names: seq<string>, total: real, all: real, levels: seq<real>) {
    forall k :: 0 <= k < |levels| ==> StepsTo(inp, names, total, all, Prior(levels, k), levels[k])
  }

  ghost predicate Moving(inp: Inputs, names: seq<string>, levels: seq<real>, n: nat)
    requires n <= |levels|
  {
    forall k :: 0 <= k < n ==> !Steady(inp, names, Prior(levels, k), levels[k])
  }

  ghost predicate SteadyAtLast(inp: Inputs, names: seq<string>, levels: seq<real>) {
    levels != [] && Steady(inp, names, Prior(levels, |levels| - 1), levels[|levels| - 1])
  }

  /** Every pass but the last satisfies someone. The last does not, or satisfies all that were left,
      or those it satisfies use up the memory; or there is no pass, for one of these reasons. */
  ghost predicate Ended(inp: Inputs, names: seq<string>, total: real, levels: seq<real>) {
    && (levels != [] ==> Moving(inp, names, levels, |levels| - 1))
    && (SteadyAtLast(inp, names, levels) || (forall x :: x in names ==> !Rests(inp, Prior(levels, |levels|), x))
        || GivenBy(inp, Prior(levels, |levels|), names) >= total)
  }

  /** What a user gets in the end, None if it goes without. */
  ghost function ShareOf(inp: Inputs, names: seq<string>, levels: seq<real>, x: string): Option<real> {
    if !Rests(inp, Prior(levels, |levels|), x) then Some(Given(inp, Prior(levels, |levels|), x))
    else if SteadyAtLast(inp, names, levels) then Some(Clamped(inp, levels[|levels| - 1], x))
    else None
  }

  /** The outcome: the level climbs to where it ends, and every user gets its share. */
  ghost predicate Outcome(inp: Inputs, names: seq<string>, total: real, all: real, levels: seq<real>,
                          allocates: Amounts) {
    && Climbs(inp, names, total, all, levels) && Ended(inp, names, total, levels)
    && (forall x :: x in allocates ==> x in names)
    && (forall x :: x in names ==> SharedOut(inp, names, levels, allocates, x))
  }

  ghost predicate SharedOut(inp: Inputs, names: seq<string>, levels: seq<real>, allocates: Amounts, x: string) {
    ShareOf(inp, names, levels, x) == if x in allocates then Some(allocates[x]) else None
  }

  // what the amounts held depend on

  lemma {:induction false} HeldConcat(inp: Inputs, prior: Option<real>, level: real, a: seq<string>, b: seq<string>)
    ensures HeldBy(inp, prior, level, a + b) == HeldBy(inp, prior, level, a) + HeldBy(inp, prior, level, b)
    ensures GivenBy(inp, prior, a + b) == GivenBy(inp, prior, a) + GivenBy(inp, prior, b)
  {
    hide Held, Given;
    if b == [] {
      assert a + b == a;
    } else {
      HeldConcat(inp, prior, level, a, b[..|b| - 1]);
      assert (a + b)[..|a + b| - 1] == a + b[..|b| - 1];
    }
  }

  lemma HeldOne(inp: Inputs, prior: Option<real>, level: real, x: string)
    ensures HeldBy(inp, prior, level, [x]) == Held(inp, prior, level, x)
    ensures GivenBy(inp, prior, [x]) == Given(inp, prior, x)
  {
    hide Held, Given;
    assert [x][..0] == [];
  }

  lemma HeldInsert(inp: Inputs, prior: Option<real>, level: real, a: seq<string>, x: string, b: seq<string>)
    ensures HeldBy(inp, prior, level, a + [x] + b) == HeldBy(inp, prior, level, a + b) + Held(inp, prior, level, x)
    ensures GivenBy(inp, prior, a + [x] + b) == GivenBy(inp, prior, a + b) + Given(inp, prior, x)
  {
    hide *;
    HeldConcat(inp, prior, level, a + [x], b);
    HeldConcat(inp, prior, level, a, [x]);
    HeldConcat(inp, prior, level, a, b);
    HeldOne(inp, prior, level, x);
  }

  lemma TakeOut(a: seq<string>, x: string, b: seq<string>) returns (front: seq<string>, back: seq<string>)
    requires multiset(a + [x]) == multiset(b)
    ensures b == front + [x] + back && multiset(front + back) == multiset(a)
  {
    assert x in multiset(b) by {
      assert multiset(a + [x])[x] == multiset(a)[x] + 1;
    }
    var k :| 0 <= k < |b| && b[k] == x;
    front, back := b[..k], b[k + 1..];
    assert b == front + [x] + back;
    assert multiset(front + back) == multiset(b) - multiset{x};
    assert multiset(a) == multiset(a + [x]) - multiset{x};
  }

  /** ... not on the order of the users. */
  lemma {:induction false} HeldInAnyOrder(inp: Inputs, prior: Option<real>, level: real, a: seq<string>, b: seq<string>)
    requires multiset(a) == multiset(b)
    ensures HeldBy(inp, prior, level, a) == HeldBy(inp, prior, level, b)
    ensures GivenBy(inp, prior, a) == GivenBy(inp, prior, b)
    decreases |a|
  {
    hide *;
    if a == [] {
      assert |b| == |multiset(b)| == 0;
    } else {
      var init, x := a[..|a| - 1], a[|a| - 1];
      assert a == init + [x] && init + [] == init && a + [] == a;
      var front, back := TakeOut(init, x, b);
      HeldInAnyOrder(inp, prior, level, init, front + back);
      assert init + [x] + [] == a;
      HeldInsert(inp, prior, level, init, x, []);
      HeldInsert(inp, prior, level, front, x, back);
    }
  }

  /** The low and the satisfied users hold their past and what they are given. */
  lemma {:induction false} HeldBySettled(inp: Inputs, prior: Option<real>, level: real, xs: seq<string>, a: Amounts)
    requires forall x :: x in xs ==> !Rests(inp, prior, x) && Amount(a, x) == Given(inp, prior, x)
    ensures HeldBy(inp, prior, level, xs) == SumBy(xs, a) + SumBy(xs, inp.history)
    ensures GivenBy(inp, prior, xs) == SumBy(xs, a)
  {
    hide Below, IsLow, Granted;
    if xs != [] {
      HeldBySettled(inp, prior, level, xs[..|xs| - 1], a);
      assert xs[|xs| - 1] in xs;
    }
  }

  /** The others hold the level by their weights. */
  lemma {:induction false} HeldByResting(inp: Inputs, prior: Option<real>, level: real, xs: seq<string>)
    requires forall x :: x in xs ==> Rests(inp, prior, x)
    ensures HeldBy(inp, prior, level, xs) == Times(SumBy(xs, inp.weights), level)
    ensures GivenBy(inp, prior, xs) == 0.0
  {
    hide Below, IsLow, Granted, Times, Amount;
    if xs == [] {
      TimesZero(level);
    } else {
      var init, last := xs[..|xs| - 1], xs[|xs| - 1];
      HeldByResting(inp, prior, level, init);
      assert last in xs;
      TimesSum(SumBy(init, inp.weights), Amount(inp.weights, last), level, SumBy(xs, inp.weights));
    }
  }

  // ---------------------------------------------------------------- what the outcome means

  /** Fewer hold no more. */
  lemma {:induction false} HeldLe(inp: Inputs, prior: Option<real>, level: real, prior': Option<real>, level': real,
                                  xs: seq<string>)
    requires forall x :: x in xs ==> Held(inp, prior, level, x) <= Held(inp, prior', level', x)
    ensures HeldBy(inp, prior, level, xs) <= HeldBy(inp, prior', level', xs)
    ensures (exists x :: x in xs && Held(inp, prior, level, x) < Held(inp, prior', level', x)) ==>
              HeldBy(inp, prior, level, xs) < HeldBy(inp, prior', level', xs)
  {
    hide Held;
    if xs != [] {
      var init, last := xs[..|xs| - 1], xs[|xs| - 1];
      assert last in xs && forall x :: x in init ==> x in xs;
      HeldLe(inp, prior, level, prior', level', init);
      assert forall x :: x in xs ==> x in init || x == last;
    }
  }

  lemma {:induction false} HeldGe(inp: Inputs, prior: Option<real>, level: real, xs: seq<string>, a: Amounts)
    requires forall x :: x in xs ==> Amount(a, x) + Amount(inp.history, x) <= Held(inp, prior, level, x)
    ensures SumBy(xs, a) + SumBy(xs, inp.history) <= HeldBy(inp, prior, level, xs)
    ensures (forall x :: x in xs ==> Amount(a, x) + Amount(inp.history, x) == Held(inp, prior, level, x)) ==>
              SumBy(xs, a) + SumBy(xs, inp.history) == HeldBy(inp, prior, level, xs)
  {
    hide Held, Amount;
    if xs != [] {
      var init, last := xs[..|xs| - 1], xs[|xs| - 1];
      assert last in xs && forall x :: x in init ==> x in xs;
      HeldGe(inp, prior, level, init, a);
    }
  }

  lemma {:induction false} GivenIs(inp: Inputs, prior: Option<real>, xs: seq<string>, a: Amounts)
    requires forall x :: x in xs ==> Amount(a, x) == Given(inp, prior, x)
    ensures SumBy(xs, a) == GivenBy(inp, prior, xs)
  {
    hide Given, Amount;
    if xs != [] {
      assert xs[|xs| - 1] in xs;
      GivenIs(inp, prior, xs[..|xs| - 1], a);
    }
  }

  /** A satisfied user stays so. */
  lemma BelowStays(inp: Inputs, prior: Option<real>, level: real, x: string)
    requires Below(inp, prior, x) && (prior.Some? ==> prior.value <= level) && Amount(inp.weights, x) > 0.0
    ensures Below(inp, Some(level), x)
  {
    Monotone(level, prior.value, Amount(inp.weights, x));
  }

  /** What is left of one user by its own level and by another. */
  lemma HeldAgainst(inp: Inputs, prior: Option<real>, level: real, low: real, x: string)
    requires Amount(inp.weights, x) > 0.0 && (prior.Some? ==> prior.value <= low)
    ensures low <= level ==> Held(inp, Some(low), low, x) <= Held(inp, prior, level, x)
    ensures low < level && Rests(inp, prior, x) ==> Held(inp, Some(low), low, x) < Held(inp, prior, level, x)
    ensures level < low ==> Held(inp, Some(low), level, x) <= Held(inp, prior, low, x)
    ensures level < low && Rests(inp, Some(low), x) ==> Held(inp, Some(low), level, x) < Held(inp, prior, low, x)
  {
    hide Granted;
    if Below(inp, prior, x) {
      BelowStays(inp, prior, low, x);
    }
    HigherTakesMore(Amount(inp.weights, x), low, level);
    HigherTakesMore(Amount(inp.weights, x), level, low);
    if Below(inp, Some(low), x) {
      SatisfiedHolds(inp, low, x);
    }
  }

  lemma HigherTakesMore(w: real, low: real, high: real)
    requires w > 0.0
    ensures low <= high ==> Times(w, low) <= Times(w, high)
    ensures low < high ==> Times(w, low) < Times(w, high)
  {
    if low < high {
      Positive(w, high - low);
      assert w * (high - low) == w * high - w * low;
    }
  }

  lemma SatisfiedHolds(inp: Inputs, level: real, x: string)
    requires Below(inp, Some(level), x)
    ensures Granted(inp, x) + Amount(inp.history, x) < Times(Amount(inp.weights, x), level)
  {
  }

  ghost predicate Weighted(inp: Inputs, names: seq<string>) {
    forall x :: x in names ==> Amount(inp.weights, x) > 0.0
  }

  /** The level does not fall from pass to pass. */
  lemma {:induction false} LevelsRise(inp: Inputs, names: seq<string>, total: real, all: real, levels: seq<real>,
                                      k: nat)
    requires Weighted(inp, names) && Climbs(inp, names, total, all, levels) && k < |levels|
    ensures Prior(levels, k).Some? ==> Prior(levels, k).value <= levels[k]
  {
    hide Held, Rests, HeldBy, GivenBy;
    if k > 0 {
      LevelsRise(inp, names, total, all, levels, k - 1);
      var prior, low, level := Prior(levels, k - 1), levels[k - 1], levels[k];
      assert StepsTo(inp, names, total, all, prior, low) && StepsTo(inp, names, total, all, Some(low), level);
      if level < low {
        forall x | x in names
          ensures Held(inp, Some(low), level, x) <= Held(inp, prior, low, x)
          ensures Rests(inp, Some(low), x) ==> Held(inp, Some(low), level, x) < Held(inp, prior, low, x)
        {
          HeldAgainst(inp, prior, level, low, x);
        }
        HeldLe(inp, Some(low), level, prior, low, names);
        assert false;
      }
    }
  }

  /** The level fills, if all that was and is there is used up, past and new, when the satisfied
      users have what they ask for and all others are brought to it. */
  ghost predicate Fills(inp: Inputs, names: seq<string>, total: real, all: real, level: real) {
    HeldBy(inp, Some(level), level, names) == total + all
  }

  /** No level of the climb is above one that fills. */
  lemma {:induction false} LevelIsLeast(inp: Inputs, names: seq<string>, total: real, all: real, levels: seq<real>,
                                        k: nat, level: real)
    requires Weighted(inp, names) && Climbs(inp, names, total, all, levels) && k < |levels|
    requires Fills(inp, names, total, all, level)
    ensures levels[k] <= level
  {
    hide Held, Rests, HeldBy, GivenBy;
    if k > 0 {
      LevelIsLeast(inp, names, total, all, levels, k - 1, level);
    }
    var prior := Prior(levels, k);
    assert StepsTo(inp, names, total, all, prior, levels[k]);
    if level < levels[k] {
      forall x | x in names
        ensures Held(inp, Some(level), level, x) <= Held(inp, prior, levels[k], x)
        ensures Rests(inp, prior, x) ==> Held(inp, Some(level), level, x) < Held(inp, prior, levels[k], x)
      {
        HeldAgainst(inp, prior, levels[k], level, x);
      }
      HeldLe(inp, Some(level), level, prior, levels[k], names);
      assert false;
    }
  }

  /** A level at which the climb is steady fills. */
  lemma SteadyFills(inp: Inputs, names: seq<string>, total: real, all: real, levels: seq<real>)
    requires Weighted(inp, names) && Climbs(inp, names, total, all, levels) && SteadyAtLast(inp, names, levels)
    ensures Fills(inp, names, total, all, levels[|levels| - 1])
  {
    hide HeldBy, GivenBy, Granted, Deserved;
    var n := |levels| - 1;
    var prior, level := Prior(levels, n), levels[n];
    assert StepsTo(inp, names, total, all, prior, level);
    LevelsRise(inp, names, total, all, levels, n);
    forall x | x in names
      ensures Held(inp, Some(level), level, x) == Held(inp, prior, level, x)
    {
      if Below(inp, prior, x) {
        BelowStays(inp, prior, level, x);
      }
    }
    HeldLe(inp, Some(level), level, prior, level, names);
    HeldLe(inp, prior, level, Some(level), level, names);
  }

  lemma SteadyIsThere(inp: Inputs, names: seq<string>, levels: seq<real>)
    requires SteadyAtLast(inp, names, levels)
    ensures levels != []
  {
  }

  /** ... and is the least that does. */
  lemma SteadyIsLeast(inp: Inputs, names: seq<string>, total: real, all: real, levels: seq<real>)
    requires Weighted(inp, names) && Climbs(inp, names, total, all, levels)
    requires levels != [] && SteadyAtLast(inp, names, levels)
    ensures var level := levels[|levels| - 1];
            Fills(inp, names, total, all, level) &&
            forall other :: Fills(inp, names, total, all, other) ==> level <= other
  {
    hide *;
    SteadyIsThere(inp, names, levels);
    SteadyFills(inp, names, total, all, levels);
    forall other | Fills(inp, names, total, all, other)
      ensures levels[|levels| - 1] <= other
    {
      LevelIsLeast(inp, names, total, all, levels, |levels| - 1, other);
    }
  }

  /** A user goes without only if all the memory is given. */
  lemma WithoutOnlyIfSpent(inp: Inputs, names: seq<string>, total: real, all: real, levels: seq<real>, a: Amounts)
    requires Outcome(inp, names, total, all, levels, a)
    ensures (exists x :: x in names && x !in a) ==> SumBy(names, a) >= total
  {
    hide SumBy, GivenBy, HeldBy, IsLow, Below, Granted, Clamped, Climbs, Moving, SteadyAtLast;
    if x :| x in names && x !in a {
      assert SharedOut(inp, names, levels, a, x);
      var prior := Prior(levels, |levels|);
      forall y | y in names
        ensures Amount(a, y) == Given(inp, prior, y)
      {
        assert SharedOut(inp, names, levels, a, y);
        RestingGetNothing(inp, prior, y);
      }
      GivenIs(inp, prior, names, a);
    }
  }

  lemma RestingGetNothing(inp: Inputs, prior: Option<real>, x: string)
    ensures Rests(inp, prior, x) ==> Given(inp, prior, x) == 0.0
  {
  }

  /** No user that is brought to the level is raised to the least it may have. */
  ghost predicate NoneRaised(inp: Inputs, names: seq<string>, levels: seq<real>) {
    SteadyAtLast(inp, names, levels) ==>
      forall x :: x in names && Rests(inp, Prior(levels, |levels|), x) ==>
        Clamped(inp, levels[|levels| - 1], x) <= Deserved(inp, levels[|levels| - 1], x)
  }

  ghost predicate AllLow(inp: Inputs, names: seq<string>) {
    forall x :: x in names ==> IsLow(inp, x)
  }

  /** What is handed out, past and new, is then no more than there is and was; and if all are low, each
      has just the least it may have. */
  lemma NoMoreThanThereIs(inp: Inputs, names: seq<string>, total: real, all: real, levels: seq<real>, a: Amounts)
    requires Weighted(inp, names) && Outcome(inp, names, total, all, levels, a)
    requires (forall x :: x in names ==> x in a) && NoneRaised(inp, names, levels) && !AllLow(inp, names)
    ensures SumBy(names, a) <= total + all - SumBy(names, inp.history)
  {
    hide SumBy, GivenBy, HeldBy, Granted, Clamped, Moving, Deserved;
    OnceClimbed(inp, names, total, all, levels, a);
    var n := |levels| - 1;
    var prior, level := Prior(levels, n), levels[n];
    assert StepsTo(inp, names, total, all, prior, level);
    LevelsRise(inp, names, total, all, levels, n);
    forall x | x in names
      ensures Amount(a, x) + Amount(inp.history, x) <= Held(inp, prior, level, x)
    {
      assert SharedOut(inp, names, levels, a, x);
      ShareIsHeld(inp, names, levels, a, x);
    }
    HeldGe(inp, prior, level, names, a);
  }

  /** If everyone gets something, and someone is not low, there has been a pass. */
  lemma OnceClimbed(inp: Inputs, names: seq<string>, total: real, all: real, levels: seq<real>, a: Amounts)
    requires Outcome(inp, names, total, all, levels, a) && (forall x :: x in names ==> x in a) && !AllLow(inp, names)
    ensures levels != []
  {
    hide SumBy, GivenBy, HeldBy, Granted, Clamped, Moving, Deserved;
    var x :| x in names && !IsLow(inp, x);
    assert SharedOut(inp, names, levels, a, x);
  }

  lemma ShareIsHeld(inp: Inputs, names: seq<string>, levels: seq<real>, a: Amounts, x: string)
    requires levels != [] && x in names && x in a && SharedOut(inp, names, levels, a, x)
    requires Amount(inp.weights, x) > 0.0 && NoneRaised(inp, names, levels)
    requires var n := |levels| - 1; Prior(levels, n).Some? ==> Prior(levels, n).value <= levels[n]
    ensures var n := |levels| - 1;
            Amount(a, x) + Amount(inp.history, x) <= Held(inp, Prior(levels, n), levels[n], x)
    ensures var n := |levels| - 1;
            (Rests(inp, Some(levels[n]), x) ==> Clamped(inp, levels[n], x) == Deserved(inp, levels[n], x)) &&
            SteadyAtLast(inp, names, levels) ==>
              Amount(a, x) + Amount(inp.history, x) == Held(inp, Prior(levels, n), levels[n], x)
  {
    hide Granted, Clamped;
    var n := |levels| - 1;
    var prior, level := Prior(levels, n), levels[n];
    if Below(inp, prior, x) {
      BelowStays(inp, prior, level, x);
    } else if Below(inp, Some(level), x) {
      SatisfiedHolds(inp, level, x);
    }
  }

  /** If nobody that is brought to the level is clamped, all there is is handed out. */
  lemma UnclampedUseAll(inp: Inputs, names: seq<string>, total: real, all: real, levels: seq<real>, a: Amounts)
    requires Weighted(inp, names) && Outcome(inp, names, total, all, levels, a) && SteadyAtLast(inp, names, levels)
    requires forall x :: x in names && Rests(inp, Prior(levels, |levels|), x) ==>
               Clamped(inp, levels[|levels| - 1], x) == Deserved(inp, levels[|levels| - 1], x)
    ensures SumBy(names, a) == total + all - SumBy(names, inp.history)
  {
    hide SumBy, GivenBy, HeldBy, Granted, Clamped, Moving, Deserved;
    var n := |levels| - 1;
    var prior, level := Prior(levels, n), levels[n];
    assert StepsTo(inp, names, total, all, prior, level);
    LevelsRise(inp, names, total, all, levels, n);
    forall x | x in names
      ensures Amount(a, x) + Amount(inp.history, x) == Held(inp, prior, level, x)
    {
      assert SharedOut(inp, names, levels, a, x);
      ShareIsHeld(inp, names, levels, a, x);
    }
    HeldGe(inp, prior, level, names, a);
  }

  /** The inputs have one outcome. */
  lemma OutcomeIsUnique(inp: Inputs, names: seq<string>, total: real, all: real, levels: seq<real>, a: Amounts,
                        levels': seq<real>, a': Amounts)
    requires Weighted(inp, names)
    requires Outcome(inp, names, total, all, levels, a) && Outcome(inp, names, total, all, levels', a')
    ensures levels == levels' && a == a'
  {
    hide HeldBy, GivenBy, Rests, Clamped, Given, Moving, SteadyAtLast, Weighted, SharedOut, StepsTo;
    LevelsAreUnique(inp, names, total, all, levels, levels');
    SameShares(inp, names, levels, a, a');
  }

  lemma LevelsAreUnique(inp: Inputs, names: seq<string>, total: real, all: real, levels: seq<real>, levels': seq<real>)
    requires Weighted(inp, names)
    requires Climbs(inp, names, total, all, levels) && Climbs(inp, names, total, all, levels')
    requires Ended(inp, names, total, levels) && Ended(inp, names, total, levels')
    ensures levels == levels'
  {
    hide *;
    if |levels| <= |levels'| {
      SameLevels(inp, names, total, all, levels, levels', |levels|);
      assert levels[..|levels|] == levels;
      NoneAfter(inp, names, total, all, levels, levels');
    } else {
      SameLevels(inp, names, total, all, levels', levels, |levels'|);
      assert levels'[..|levels'|] == levels';
      NoneAfter(inp, names, total, all, levels', levels);
    }
  }

  lemma SameShares(inp: Inputs, names: seq<string>, levels: seq<real>, a: Amounts, a': Amounts)
    requires forall x :: x in a || x in a' ==> x in names
    requires forall x :: x in names ==> SharedOut(inp, names, levels, a, x) && SharedOut(inp, names, levels, a', x)
    ensures a == a'
  {
    hide ShareOf;
    assert a.Keys == a'.Keys;
  }

  lemma {:induction false} SameLevels(inp: Inputs, names: seq<string>, total: real, all: real, levels: seq<real>,
                                      levels': seq<real>, n: nat)
    requires Weighted(inp, names) && Climbs(inp, names, total, all, levels) && Climbs(inp, names, total, all, levels')
    requires n <= |levels| && n <= |levels'|
    ensures levels[..n] == levels'[..n]
  {
    hide HeldBy, GivenBy, Rests, Weighted;
    if n > 0 {
      SameLevels(inp, names, total, all, levels, levels', n - 1);
      var prior := Prior(levels, n - 1);
      assert n - 1 > 0 ==> levels[..n - 1][n - 2] == levels'[..n - 1][n - 2];
      assert StepsTo(inp, names, total, all, prior, levels[n - 1]);
      assert StepsTo(inp, names, total, all, prior, levels'[n - 1]);
      OneLevel(inp, names, total, all, prior, levels[n - 1], levels'[n - 1]);
      assert levels[..n] == levels[..n - 1] + [levels[n - 1]];
    }
  }

  /** A pass can come to one level only. */
  lemma OneLevel(inp: Inputs, names: seq<string>, total: real, all: real, prior: Option<real>, level: real,
                 level': real)
    requires Weighted(inp, names)
    requires StepsTo(inp, names, total, all, prior, level) && StepsTo(inp, names, total, all, prior, level')
    ensures level == level'
  {
    hide HeldBy, GivenBy, Granted, IsLow, Below;
    forall x | x in names
      ensures level < level' ==> Held(inp, prior, level, x) <= Held(inp, prior, level', x)
      ensures level' < level ==> Held(inp, prior, level', x) <= Held(inp, prior, level, x)
      ensures level < level' && Rests(inp, prior, x) ==> Held(inp, prior, level, x) < Held(inp, prior, level', x)
      ensures level' < level && Rests(inp, prior, x) ==> Held(inp, prior, level', x) < Held(inp, prior, level, x)
    {
      HigherTakesMore(Amount(inp.weights, x), level, level');
      HigherTakesMore(Amount(inp.weights, x), level', level);
    }
    if level < level' {
      HeldLe(inp, prior, level, prior, level', names);
    } else if level' < level {
      HeldLe(inp, prior, level', prior, level, names);
    }
  }

  /** A climb does not end before its end. */
  lemma GoesOn(inp: Inputs, names: seq<string>, total: real, all: real, levels: seq<real>, n: nat)
    requires Ended(inp, names, total, levels) && Climbs(inp, names, total, all, levels) && n < |levels|
    ensures !Ended(inp, names, total, levels[..n])
  {
    hide HeldBy, GivenBy, Rests, Steady;
    var less := levels[..n];
    assert Prior(less, n) == Prior(levels, n) && StepsTo(inp, names, total, all, Prior(levels, n), levels[n]);
    if n > 0 {
      assert Prior(less, n - 1) == Prior(levels, n - 1) && !Steady(inp, names, Prior(levels, n - 1), levels[n - 1]);
    }
  }

  /** Where one climb ends no other goes on. */
  lemma NoneAfter(inp: Inputs, names: seq<string>, total: real, all: real, levels: seq<real>, levels': seq<real>)
    requires Ended(inp, names, total, levels) && Ended(inp, names, total, levels')
    requires Climbs(inp, names, total, all, levels') && levels <= levels'
    ensures levels == levels'
  {
    hide *;
    assert levels'[..|levels|] == levels;
    if |levels| < |levels'| {
      GoesOn(inp, names, total, all, levels', |levels|);
    }
  }

  // ---------------------------------------------------------------- the passes

  /** Users that ask for little are given the least they may have, before the others. */
  method SettleLow(inp: Inputs, names: seq<string>, total: real, past: real)
    returns (st: State, ghost settled: seq<string>)
    requires Distinct(names) && ValidInputs(inp, names)
    ensures Booked(inp, names, settled, total, past - SumBy(names, inp.history), st)
    ensures forall x :: x in settled ==> IsLow(inp, x) && Amount(st.allocates, x) == Amount(inp.low, x)
    ensures forall x :: x in st.users ==> !IsLow(inp, x)
  {
    hide SumBy, Distinct, Booked;
    ghost var gone := past - SumBy(names, inp.history);
    settled := [];
    var kept: seq<string> := [];
    st := State(names, total, past, map[]);
    assert [] + names == names && kept + names[0..] == names;
    NoneBooked(inp, names, total, gone, st);
    for n := 0 to |names|
      invariant Booked(inp, names, settled, total, gone, st) && st.users == kept + names[n..]
      invariant forall x :: x in settled ==> IsLow(inp, x) && Amount(st.allocates, x) == Amount(inp.low, x)
      invariant forall x :: x in kept ==> !IsLow(inp, x)
    {
      var name, rest := names[n], names[n + 1..];
      assert names[n..] == [name] + rest;
      if inp.predicts[name] <= inp.low[name] {
        SettleBooks(inp, names, settled, total, gone, st, kept, name, rest, inp.low[name]);
        st := Settle(inp, st, name, inp.low[name]).(users := kept + rest);
        settled := settled + [name];
      } else {
        kept := kept + [name];
      }
    }
  }

  lemma NoneBooked(inp: Inputs, names: seq<string>, total: real, gone: real, st: State)
    requires Distinct([] + names) && st.users == names && st.memory == total && st.allocates == map[]
    requires st.past == SumBy(names, inp.history) + gone
    ensures Booked(inp, names, [], total, gone, st)
  {
  }

  ghost predicate Agree(xs: seq<string>, a: Amounts, b: Amounts) {
    forall x :: x in xs ==> Amount(a, x) == Amount(b, x)
  }

  ghost predicate AllSatisfied(inp: Inputs, level: real, xs: seq<string>, a: Amounts) {
    forall x :: x in xs ==> !IsLow(inp, x) && Satisfied(inp, level, x, Amount(a, x))
  }

  ghost predicate AllClamped(inp: Inputs, level: real, xs: seq<string>, a: Amounts) {
    forall x :: x in xs ==> Amount(a, x) == Clamped(inp, level, x)
  }

  /** One more amount changes nothing for the others. */
  lemma AgreeStill(xs: seq<string>, a: Amounts, b: Amounts, x: string, amount: real)
    requires Agree(xs, a, b) && x !in xs
    ensures Agree(xs, a, b[x := amount])
  {
  }

  lemma SatisfiedSnoc(inp: Inputs, level: real, xs: seq<string>, a: Amounts, x: string, amount: real)
    requires AllSatisfied(inp, level, xs, a) && x !in xs && !IsLow(inp, x) && Satisfied(inp, level, x, amount)
    ensures AllSatisfied(inp, level, xs + [x], a[x := amount])
  {
    hide IsLow, Satisfied;
  }

  lemma ClampedSnoc(inp: Inputs, level: real, xs: seq<string>, a: Amounts, x: string, amount: real)
    requires AllClamped(inp, level, xs, a) && x !in xs && amount == Clamped(inp, level, x)
    ensures AllClamped(inp, level, xs + [x], a[x := amount])
  {
    hide Clamped;
  }

  lemma NotIn(a: seq<string>, b: seq<string>, x: string)
    requires x !in a + b
    ensures x !in a && x !in b
  {
  }

  /** These are among the users, and ask for no less than they deserve. */
  ghost predicate Remain(inp: Inputs, level: real, xs: seq<string>, users: seq<string>) {
    forall x :: x in xs ==> x in users && Amount(inp.predicts, x) >= Deserved(inp, level, x)
  }

  lemma RemainsSnoc(inp: Inputs, level: real, xs: seq<string>, users: seq<string>, x: string)
    requires Remain(inp, level, xs, users) && x in users && Amount(inp.predicts, x) >= Deserved(inp, level, x)
    ensures Remain(inp, level, xs + [x], users)
  {
    hide Deserved;
  }

  /** Within a pass: these are settled, these kept, and the rest is still to come. */
  ghost predicate InPass(inp: Inputs, names: seq<string>, settled0: seq<string>, done: seq<string>, total: real,
                         gone: real,
                         level: real, st0: State, st: State, kept: seq<string>, rest: seq<string>) {
    && Booked(inp, names, settled0 + done, total, gone, st) && st.users == kept + rest
    && Agree(settled0, st0.allocates, st.allocates) && AllSatisfied(inp, level, done, st.allocates)
    && Remain(inp, level, kept, st0.users)
    && st.memory + st.past >= Times(SumBy(st.users, inp.weights), level)
  }

  lemma PassBegins(inp: Inputs, names: seq<string>, settled0: seq<string>, total: real, gone: real, level: real,
                   st0: State)
    requires Booked(inp, names, settled0, total, gone, st0)
    requires st0.memory + st0.past >= Times(SumBy(st0.users, inp.weights), level)
    ensures InPass(inp, names, settled0, [], total, gone, level, st0, st0, [], st0.users)
  {
    hide SumBy, Times, Booked, Remain, Agree, AllSatisfied;
    NoneYet(inp, level, settled0, st0.allocates);
    assert settled0 + [] == settled0 && [] + st0.users == st0.users;
  }

  lemma PassEnds(inp: Inputs, names: seq<string>, settled0: seq<string>, done: seq<string>, total: real, gone: real,
                 level: real, st0: State, st: State, kept: seq<string>)
    requires InPass(inp, names, settled0, done, total, gone, level, st0, st, kept, [])
    ensures Booked(inp, names, settled0 + done, total, gone, st) && st.users == kept
    ensures Agree(settled0, st0.allocates, st.allocates) && AllSatisfied(inp, level, done, st.allocates)
    ensures Remain(inp, level, st.users, st0.users)
    ensures st.memory + st.past >= Times(SumBy(st.users, inp.weights), level)
  {
    hide SumBy, Times, Booked, Remain, Agree, AllSatisfied;
    assert kept + [] == kept;
  }

  /** Keeping one more of the users. */
  lemma KeepOne(inp: Inputs, names: seq<string>, settled0: seq<string>, done: seq<string>, total: real, gone: real,
                level: real, st0: State, st: State, kept: seq<string>, x: string, rest: seq<string>)
    requires InPass(inp, names, settled0, done, total, gone, level, st0, st, kept, [x] + rest)
    requires x in st0.users && Amount(inp.predicts, x) >= Deserved(inp, level, x)
    ensures InPass(inp, names, settled0, done, total, gone, level, st0, st, kept + [x], rest)
  {
    hide SumBy, Times, Booked, Remain, Agree, AllSatisfied, Deserved, Amount;
    RemainsSnoc(inp, level, kept, st0.users, x);
    assert kept + ([x] + rest) == kept + [x] + rest;
  }

  /** Settling one more of them. */
  lemma SettleOne(inp: Inputs, names: seq<string>, settled0: seq<string>, done: seq<string>, total: real, gone: real,
                  level: real, st0: State, st: State, kept: seq<string>, x: string, rest: seq<string>, amount: real)
    requires InPass(inp, names, settled0, done, total, gone, level, st0, st, kept, [x] + rest)
    requires !IsLow(inp, x) && Satisfied(inp, level, x, amount)
    ensures InPass(inp, names, settled0, done + [x], total, gone, level, st0,
                   Settle(inp, st, x, amount).(users := kept + rest), kept, rest)
  {
    hide SumBy, Distinct, Times, Deserved, Booked, IsLow, Satisfied, AllSatisfied, Agree, Amount, Remain;
    assert kept + ([x] + rest) == kept + [x] + rest;
    SettleBooks(inp, names, settled0 + done, total, gone, st, kept, x, rest, amount);
    NotIn(settled0, done, x);
    SatisfiedIsBelow(inp, level, x, amount);
    TimesSum(SumBy(kept + rest, inp.weights), Amount(inp.weights, x), level, SumBy(st.users, inp.weights));
    AgreeStill(settled0, st0.allocates, st.allocates, x, amount);
    SatisfiedSnoc(inp, level, done, st.allocates, x, amount);
    assert settled0 + done + [x] == settled0 + (done + [x]);
  }

  /** Settles every user that asks for less than it deserves; `done` are those. */
  method SettlePass(inp: Inputs, names: seq<string>, deserved: Amounts, st0: State, total: real, ghost gone: real,
                    ghost level: real, ghost settled0: seq<string>)
    returns (st: State, flag: bool, ghost done: seq<string>)
    requires ValidInputs(inp, names) && Booked(inp, names, settled0, total, gone, st0)
    requires forall x :: x in st0.users ==> x in deserved && deserved[x] == Deserved(inp, level, x) && !IsLow(inp, x)
    requires st0.memory + st0.past >= Times(SumBy(st0.users, inp.weights), level)
    ensures Booked(inp, names, settled0 + done, total, gone, st) && |st.users| <= |st0.users|
    ensures flag <==> |st.users| < |st0.users|
    ensures !flag ==> st == st0
    ensures flag <==> done != []
    ensures Agree(settled0, st0.allocates, st.allocates) && AllSatisfied(inp, level, done, st.allocates)
    ensures Remain(inp, level, st.users, st0.users)
    ensures st.memory + st.past >= Times(SumBy(st.users, inp.weights), level)
  {
    hide *;
    InputsHave(inp, names);
    BookedUsers(inp, names, settled0, total, gone, st0);
    PassBegins(inp, names, settled0, total, gone, level, st0);
    done, flag, st := [], false, st0;
    var temp := st0.users;
    var kept: seq<string> := [];
    assert temp[0..] == temp;
    for n := 0 to |temp|
      invariant InPass(inp, names, settled0, done, total, gone, level, st0, st, kept, temp[n..])
      invariant |kept| <= n && (flag <==> |kept| < n) && (!flag ==> st == st0) && (flag <==> done != [])
    {
      var name, rest := temp[n], temp[n + 1..];
      assert temp[n..] == [name] + rest;
      if inp.predicts[name] < deserved[name] {
        flag := true;
        var allocation := inp.predicts[name];
        if allocation > inp.config[name] {
          allocation := inp.config[name];
        }
        IsSatisfied(inp, level, name, allocation);
        SettleOne(inp, names, settled0, done, total, gone, level, st0, st, kept, name, rest, allocation);
        st := Settle(inp, st, name, allocation).(users := kept + rest);
        done := done + [name];
      } else {
        KeepOne(inp, names, settled0, done, total, gone, level, st0, st, kept, name, rest);
        kept := kept + [name];
      }
    }
    assert temp[|temp|..] == [];
    PassEnds(inp, names, settled0, done, total, gone, level, st0, st, kept);
  }

  lemma NoneYet(inp: Inputs, level: real, settled: seq<string>, a: Amounts)
    ensures forall users :: Remain(inp, level, [], users)
    ensures Agree(settled, a, a) && AllSatisfied(inp, level, [], a) && AllClamped(inp, level, [], a)
  {
  }

  /** Within such a pass: the first n users are brought to the level. */
  ghost predicate InShare(inp: Inputs, names: seq<string>, settled0: seq<string>, total: real, gone: real, level: real,
                          st0: State, deserved: Amounts, st: State, n: nat) {
    && n <= |st0.users| && st.users == st0.users[n..]
    && Booked(inp, names, settled0 + st0.users[..n], total, gone, st)
    && Agree(settled0, st0.allocates, st.allocates) && AllClamped(inp, level, st0.users[..n], st.allocates)
    && (NoneClamped(inp, level, st0.users) ==> st.memory == st0.memory - SumBy(st0.users[..n], deserved))
  }

  ghost predicate NoneClamped(inp: Inputs, level: real, users: seq<string>) {
    forall x :: x in users ==> Clamped(inp, level, x) == Deserved(inp, level, x)
  }

  lemma ShareBegins(inp: Inputs, names: seq<string>, settled0: seq<string>, total: real, gone: real, level: real,
                    st0: State, deserved: Amounts)
    requires Booked(inp, names, settled0, total, gone, st0)
    ensures InShare(inp, names, settled0, total, gone, level, st0, deserved, st0, 0)
  {
    hide SumBy, Booked, Agree, AllClamped, NoneClamped;
    NoneYet(inp, level, settled0, st0.allocates);
    NothingSpent(deserved);
    assert st0.users[0..] == st0.users && st0.users[..0] == [] && settled0 + [] == settled0;
  }

  lemma ShareOne(inp: Inputs, names: seq<string>, settled0: seq<string>, total: real, gone: real, level: real,
                 st0: State, deserved: Amounts, st: State, n: nat, amount: real)
    requires InShare(inp, names, settled0, total, gone, level, st0, deserved, st, n) && n < |st0.users|
    requires amount == Clamped(inp, level, st0.users[n])
    requires Amount(deserved, st0.users[n]) == Deserved(inp, level, st0.users[n])
    ensures InShare(inp, names, settled0, total, gone, level, st0, deserved,
                    Settle(inp, st, st0.users[n], amount).(users := st0.users[n + 1..]), n + 1)
  {
    hide SumBy, Booked, Agree, AllClamped, Distinct, Deserved, Clamped, Amount;
    var x, before, after, rest := st0.users[n], st0.users[..n], st0.users[..n + 1], st0.users[n + 1..];
    assert st0.users[n..] == [] + [x] + rest && [] + rest == rest && after == before + [x];
    assert settled0 + before + [x] == settled0 + after;
    SettleBooks(inp, names, settled0 + before, total, gone, st, [], x, rest, amount);
    NotIn(settled0, before, x);
    SumByConcat(before, [x], deserved);
    SumByOne(x, deserved);
    AgreeStill(settled0, st0.allocates, st.allocates, x, amount);
    ClampedSnoc(inp, level, before, st.allocates, x, amount);
    assert x in st0.users;
  }

  lemma ShareEnds(inp: Inputs, names: seq<string>, settled0: seq<string>, total: real, gone: real, level: real,
                  st0: State, deserved: Amounts, st: State)
    requires InShare(inp, names, settled0, total, gone, level, st0, deserved, st, |st0.users|)
    ensures Booked(inp, names, settled0 + st0.users, total, gone, st) && st.users == []
    ensures Agree(settled0, st0.allocates, st.allocates) && AllClamped(inp, level, st0.users, st.allocates)
    ensures (forall x :: x in st0.users ==> Clamped(inp, level, x) == Deserved(inp, level, x)) ==>
              st.memory == st0.memory - SumBy(st0.users, deserved)
  {
    hide SumBy, Booked, Agree, AllClamped, Deserved, Clamped;
    assert st0.users[..|st0.users|] == st0.users;
  }

  lemma ClampedIs(inp: Inputs, level: real, x: string)
    requires x in inp.low && x in inp.config
    ensures var d := Deserved(inp, level, x);
            Clamped(inp, level, x) ==
              if d < inp.low[x] then inp.low[x] else if d > inp.config[x] then inp.config[x] else d
  {
  }

  /** Brings every user to the level, as far as its bounds allow. */
  method SharePass(inp: Inputs, names: seq<string>, deserved: Amounts, st0: State, total: real, ghost gone: real,
                   ghost level: real, ghost settled0: seq<string>)
    returns (st: State)
    requires ValidInputs(inp, names) && Booked(inp, names, settled0, total, gone, st0)
    requires forall x :: x in st0.users ==> x in deserved && deserved[x] == Deserved(inp, level, x)
    ensures Booked(inp, names, settled0 + st0.users, total, gone, st) && st.users == []
    ensures Agree(settled0, st0.allocates, st.allocates) && AllClamped(inp, level, st0.users, st.allocates)
    ensures (forall x :: x in st0.users ==> Clamped(inp, level, x) == Deserved(inp, level, x)) ==>
              st.memory == st0.memory - SumBy(st0.users, deserved)
  {
    hide *;
    InputsHave(inp, names);
    BookedUsers(inp, names, settled0, total, gone, st0);
    ShareBegins(inp, names, settled0, total, gone, level, st0, deserved);
    st := st0;
    for n := 0 to |st0.users|
      invariant InShare(inp, names, settled0, total, gone, level, st0, deserved, st, n)
    {
      var name, rest := st0.users[n], st0.users[n + 1..];
      var allocation := deserved[name];
      if allocation < inp.low[name] {
        allocation := inp.low[name];
      } else if allocation > inp.config[name] {
        allocation := inp.config[name];
      }
      ClampedIs(inp, level, name);
      AmountIs(deserved, name);
      ShareOne(inp, names, settled0, total, gone, level, st0, deserved, st, n, allocation);
      st := Settle(inp, st, name, allocation).(users := rest);
    }
    ShareEnds(inp, names, settled0, total, gone, level, st0, deserved, st);
  }

  lemma AmountIs(m: Amounts, x: string)
    requires x in m
    ensures Amount(m, x) == m[x]
  {
  }

  lemma NothingSpent(deserved: Amounts)
    ensures SumBy([], deserved) == 0.0
  {
  }

  // ---------------------------------------------------------------- the passes climb

  /** Between passes: the levels so far, who is settled by them, and with what. */
  ghost predicate Climbed(inp: Inputs, names: seq<string>, total: real, all: real, levels: seq<real>,
                          settled: seq<string>, st: State) {
    var prior := Prior(levels, |levels|);
    && Climbs(inp, names, total, all, levels) && Moving(inp, names, levels, |levels|)
    && (forall x :: x in st.users ==> x in names && Rests(inp, prior, x))
    && (forall x :: x in settled ==> SettledAt(inp, prior, x, st.allocates))
    && (st.users != [] && prior.Some? ==> st.memory + st.past >= Times(SumBy(st.users, inp.weights), prior.value))
  }

  ghost predicate SettledAt(inp: Inputs, prior: Option<real>, x: string, a: Amounts) {
    !Rests(inp, prior, x) && Amount(a, x) == Given(inp, prior, x)
  }

  lemma ClimbBegins(inp: Inputs, names: seq<string>, total: real, all: real, settled: seq<string>, st: State)
    requires forall x :: x in settled ==> IsLow(inp, x) && Amount(st.allocates, x) == Amount(inp.low, x)
    requires forall x :: x in st.users ==> x in names && !IsLow(inp, x)
    ensures Climbed(inp, names, total, all, [], settled, st)
  {
  }

  lemma {:induction false} SumInAnyOrder(a: seq<string>, b: seq<string>, m: Amounts)
    requires multiset(a) == multiset(b)
    ensures SumBy(a, m) == SumBy(b, m)
    decreases |a|
  {
    hide *;
    if a == [] {
      assert |b| == |multiset(b)| == 0;
    } else {
      var init, x := a[..|a| - 1], a[|a| - 1];
      assert a == init + [x] && init + [] == init && init + [x] + [] == a;
      var front, back := TakeOut(init, x, b);
      SumInAnyOrder(init, front + back, m);
      SumByInsert(init, x, [], m);
      SumByInsert(front, x, back, m);
    }
  }

  /** Names without repetition, and the settled and the others: the same in another order. */
  lemma BookedOrder(inp: Inputs, names: seq<string>, settled: seq<string>, total: real, gone: real, st: State)
    requires Booked(inp, names, settled, total, gone, st) && Distinct(names)
    ensures multiset(names) == multiset(settled + st.users)
  {
    var both := settled + st.users;
    forall x
      ensures multiset(names)[x] == multiset(both)[x]
    {
      assert x in names <==> x in both;
      assert (multiset(names)[x] > 0 <==> x in names) && (multiset(both)[x] > 0 <==> x in both);
    }
  }

  /** The books in terms of the climb: what is held at any level, and what has been given. */
  lemma BookedHeld(inp: Inputs, names: seq<string>, total: real, all: real, levels: seq<real>, settled: seq<string>,
                   st: State, level: real)
    requires Distinct(names) && Booked(inp, names, settled, total, all - SumBy(names, inp.history), st)
    requires Climbed(inp, names, total, all, levels, settled, st)
    ensures HeldBy(inp, Prior(levels, |levels|), level, names) ==
              total + all - (st.memory + st.past) + Times(SumBy(st.users, inp.weights), level)
    ensures GivenBy(inp, Prior(levels, |levels|), names) == total - st.memory
  {
    var prior, gone := Prior(levels, |levels|), all - SumBy(names, inp.history);
    hide SumBy, HeldBy, GivenBy, Rests, Given, Distinct, Times, Amount, Climbs, Moving;
    BookedOrder(inp, names, settled, total, gone, st);
    HeldInAnyOrder(inp, prior, level, names, settled + st.users);
    SumInAnyOrder(names, settled + st.users, inp.history);
    HeldConcat(inp, prior, level, settled, st.users);
    SumByConcat(settled, st.users, inp.history);
    assert forall x :: x in settled ==> SettledAt(inp, prior, x, st.allocates);
    HeldBySettled(inp, prior, level, settled, st.allocates);
    HeldByResting(inp, prior, level, st.users);
  }

  /** The level of the next pass. */
  lemma NextLevel(inp: Inputs, names: seq<string>, total: real, all: real, levels: seq<real>, settled: seq<string>,
                  st: State)
    requires Distinct(names) && Booked(inp, names, settled, total, all - SumBy(names, inp.history), st)
    requires Climbed(inp, names, total, all, levels, settled, st)
    requires st.memory > 0.0 && st.users != [] && SumBy(st.users, inp.weights) > 0.0
    ensures StepsTo(inp, names, total, all, Prior(levels, |levels|), Level(inp, st))
    ensures levels != [] ==> levels[|levels| - 1] <= Level(inp, st)
  {
    hide SumBy, HeldBy, GivenBy, Rests, Given, Distinct, Times, Amount, Climbs, Moving, Level, Booked;
    BookedHeld(inp, names, total, all, levels, settled, st, Level(inp, st));
    LevelTimes(inp, st);
    assert st.users[0] in st.users;
    if levels != [] {
      LevelRises(inp, st, levels[|levels| - 1]);
    }
  }

  lemma ClimbsSnoc(inp: Inputs, names: seq<string>, total: real, all: real, levels: seq<real>, level: real)
    requires Climbs(inp, names, total, all, levels)
    requires StepsTo(inp, names, total, all, Prior(levels, |levels|), level)
    ensures Climbs(inp, names, total, all, levels + [level]) && Prior(levels + [level], |levels| + 1) == Some(level)
  {
    hide StepsTo;
    var more := levels + [level];
    forall k | 0 <= k < |more|
      ensures StepsTo(inp, names, total, all, Prior(more, k), more[k])
    {
      assert k < |levels| ==> StepsTo(inp, names, total, all, Prior(levels, k), levels[k]);
      assert Prior(more, k) == Prior(levels, k);
    }
  }

  lemma MovingSnoc(inp: Inputs, names: seq<string>, levels: seq<real>, level: real)
    requires Moving(inp, names, levels, |levels|)
    ensures Moving(inp, names, levels + [level], |levels|)
    ensures !Steady(inp, names, Prior(levels, |levels|), level) ==> Moving(inp, names, levels + [level], |levels| + 1)
    ensures Steady(inp, names, Prior(levels, |levels|), level) ==> SteadyAtLast(inp, names, levels + [level])
  {
    hide Steady;
    var more := levels + [level];
    forall k | 0 <= k < |levels|
      ensures !Steady(inp, names, Prior(more, k), more[k])
    {
      assert Prior(more, k) == Prior(levels, k) && !Steady(inp, names, Prior(levels, k), levels[k]);
    }
    assert Prior(more, |levels|) == Prior(levels, |levels|);
  }

  /** Who is settled stays settled, with the same. */
  lemma SettledStays(inp: Inputs, prior: Option<real>, level: real, x: string, a: Amounts, a': Amounts)
    requires SettledAt(inp, prior, x, a) && Amount(a, x) == Amount(a', x) && Amount(inp.weights, x) > 0.0
    requires prior.Some? ==> prior.value <= level
    ensures SettledAt(inp, Some(level), x, a')
  {
    if Below(inp, prior, x) {
      BelowStays(inp, prior, level, x);
    }
  }

  lemma RestsAt(inp: Inputs, level: real, x: string)
    requires !IsLow(inp, x)
    ensures Rests(inp, Some(level), x) <==> Amount(inp.predicts, x) >= Deserved(inp, level, x)
  {
  }

  lemma SatisfiedAt(inp: Inputs, level: real, x: string, a: Amounts)
    requires !IsLow(inp, x) && Satisfied(inp, level, x, Amount(a, x))
    ensures SettledAt(inp, Some(level), x, a) && Below(inp, Some(level), x)
  {
  }

  /** A pass that satisfies someone. */
  lemma PassClimbs(inp: Inputs, names: seq<string>, total: real, all: real, levels: seq<real>, settled: seq<string>,
                   st: State, level: real, done: seq<string>, st': State)
    requires Weighted(inp, names) && Climbed(inp, names, total, all, levels, settled, st)
    requires StepsTo(inp, names, total, all, Prior(levels, |levels|), level)
    requires levels != [] ==> levels[|levels| - 1] <= level
    requires done != [] && Agree(settled, st.allocates, st'.allocates)
    requires AllSatisfied(inp, level, done, st'.allocates) && Remain(inp, level, st'.users, st.users)
    requires st'.memory + st'.past >= Times(SumBy(st'.users, inp.weights), level)
    requires (forall x :: x in done ==> x in st.users) && (forall x :: x in settled ==> x in names)
    ensures Climbed(inp, names, total, all, levels + [level], settled + done, st')
  {
    var prior := Prior(levels, |levels|);
    hide SumBy, HeldBy, GivenBy, Rests, SettledAt, Times, Amount, Climbs, Moving, StepsTo, IsLow, Satisfied, Deserved;
    ClimbsSnoc(inp, names, total, all, levels, level);
    forall x | x in settled + done
      ensures SettledAt(inp, Some(level), x, st'.allocates)
    {
      if x in settled {
        SettledStays(inp, prior, level, x, st.allocates, st'.allocates);
      } else {
        SatisfiedAt(inp, level, x, st'.allocates);
      }
    }
    forall x | x in st'.users
      ensures x in names && Rests(inp, Some(level), x)
    {
      NotLow(inp, prior, x);
      RestsAt(inp, level, x);
    }
    var x := done[0];
    SatisfiedAt(inp, level, x, st'.allocates);
    NewlyBelow(inp, names, prior, level, x);
    MovingSnoc(inp, names, levels, level);
  }

  lemma NotLow(inp: Inputs, prior: Option<real>, x: string)
    requires Rests(inp, prior, x)
    ensures !IsLow(inp, x)
  {
  }

  lemma NewlyBelow(inp: Inputs, names: seq<string>, prior: Option<real>, level: real, x: string)
    requires x in names && Rests(inp, prior, x) && Below(inp, Some(level), x)
    ensures !Steady(inp, names, prior, level)
  {
  }

  /** The climb is over when the memory is, or when nobody rests. */
  lemma ClimbEnds(inp: Inputs, names: seq<string>, total: real, all: real, levels: seq<real>, settled: seq<string>,
                  st: State)
    requires Distinct(names) && Booked(inp, names, settled, total, all - SumBy(names, inp.history), st)
    requires Climbed(inp, names, total, all, levels, settled, st) && (st.memory <= 0.0 || st.users == [])
    ensures Outcome(inp, names, total, all, levels, st.allocates) && !SteadyAtLast(inp, names, levels)
  {
    var prior := Prior(levels, |levels|);
    hide SumBy, HeldBy, GivenBy, Distinct, Times, Climbs, Rests, Given, Clamped, Steady;
    BookedHeld(inp, names, total, all, levels, settled, st, 0.0);
    BookedUsers(inp, names, settled, total, all - SumBy(names, inp.history), st);
    forall x | x in names
      ensures SharedOut(inp, names, levels, st.allocates, x)
    {
      if x in settled {
        assert SettledAt(inp, prior, x, st.allocates);
      }
    }
  }

  /** A pass that satisfies nobody brings all that rest to the level. */
  lemma SharingEnds(inp: Inputs, names: seq<string>, total: real, all: real, levels: seq<real>, settled: seq<string>,
                    st: State, level: real, st': State)
    requires Weighted(inp, names) && Climbed(inp, names, total, all, levels, settled, st)
    requires StepsTo(inp, names, total, all, Prior(levels, |levels|), level)
    requires levels != [] ==> levels[|levels| - 1] <= level
    requires Remain(inp, level, st.users, st.users) && Agree(settled, st.allocates, st'.allocates)
    requires AllClamped(inp, level, st.users, st'.allocates)
    requires forall x :: x in names <==> x in settled || x in st.users
    requires forall x :: x in st'.allocates <==> x in names
    ensures Outcome(inp, names, total, all, levels + [level], st'.allocates)
    ensures SteadyAtLast(inp, names, levels + [level])
    ensures forall x :: x in st.users <==> x in names && Rests(inp, Some(level), x)
  {
    var prior, more := Prior(levels, |levels|), levels + [level];
    hide SumBy, HeldBy, GivenBy, Times, Amount, Climbs, StepsTo, IsLow, Deserved, Rests, SettledAt, Moving, Clamped,
      Steady, SharedOut;
    ClimbsSnoc(inp, names, total, all, levels, level);
    forall x | x in names
      ensures x in st.users ==> Rests(inp, Some(level), x)
      ensures x in settled ==> SettledAt(inp, Some(level), x, st'.allocates)
    {
      if x in st.users {
        NotLow(inp, prior, x);
        RestsAt(inp, level, x);
      }
      if x in settled {
        SettledStays(inp, prior, level, x, st.allocates, st'.allocates);
      }
    }
    NothingNew(inp, names, prior, level, settled, st);
    MovingSnoc(inp, names, levels, level);
    forall x | x in names
      ensures SharedOut(inp, names, more, st'.allocates, x)
      ensures x in st.users <==> Rests(inp, Some(level), x)
    {
      SharedAtLast(inp, names, more, st'.allocates, x);
    }
  }

  lemma NothingNew(inp: Inputs, names: seq<string>, prior: Option<real>, level: real, settled: seq<string>, st: State)
    requires forall x :: x in names <==> x in settled || x in st.users
    requires forall x :: x in settled ==> SettledAt(inp, prior, x, st.allocates)
    requires forall x :: x in st.users ==> Rests(inp, Some(level), x)
    ensures Steady(inp, names, prior, level)
  {
    hide Deserved;
    forall x | x in names && Below(inp, Some(level), x)
      ensures Below(inp, prior, x)
    {
      assert x in settled;
      assert SettledAt(inp, prior, x, st.allocates);
    }
  }

  lemma SharedAtLast(inp: Inputs, names: seq<string>, levels: seq<real>, a: Amounts, x: string)
    requires SteadyAtLast(inp, names, levels) && x in a
    requires var level := levels[|levels| - 1];
             (Rests(inp, Some(level), x) && Amount(a, x) == Clamped(inp, level, x)) || SettledAt(inp, Some(level), x, a)
    ensures SharedOut(inp, names, levels, a, x)
    ensures SettledAt(inp, Some(levels[|levels| - 1]), x, a) ==> !Rests(inp, Some(levels[|levels| - 1]), x)
  {
    hide Rests, Given, Clamped, Steady;
  }

  lemma AllWeighted(inp: Inputs, names: seq<string>)
    requires ValidInputs(inp, names)
    ensures Weighted(inp, names)
  {
  }

  lemma RestingUsers(inp: Inputs, names: seq<string>, total: real, all: real, levels: seq<real>, settled: seq<string>,
                     st: State)
    requires Climbed(inp, names, total, all, levels, settled, st)
    ensures forall x :: x in st.users ==> x in names && !IsLow(inp, x)
  {
  }

  lemma BookedAre(inp: Inputs, names: seq<string>, settled: seq<string>, total: real, gone: real, st: State)
    requires Booked(inp, names, settled, total, gone, st)
    ensures forall x :: x in names <==> x in settled || x in st.users
    ensures forall x :: x in st.allocates <==> x in settled
  {
  }

  lemma DoneAreNew(inp: Inputs, names: seq<string>, settled: seq<string>, done: seq<string>, total: real, gone: real,
                   before: State, st: State)
    requires Booked(inp, names, settled, total, gone, before) && Booked(inp, names, settled + done, total, gone, st)
    ensures forall x :: x in done ==> x in before.users
  {
    hide SumBy;
    forall x | x in done
      ensures x in before.users
    {
      assert multiset(settled + done + st.users) == multiset(settled) + multiset(done) + multiset(st.users);
      assert multiset(settled + done + st.users)[x] == multiset(settled)[x] + multiset(done)[x] + multiset(st.users)[x];
      assert x in settled + done;
    }
  }

  /** Who is brought to the last level, if there is such a pass. */
  ghost predicate Brought(inp: Inputs, names: seq<string>, levels: seq<real>, level: real, shared: seq<string>) {
    if shared == [] then !SteadyAtLast(inp, names, levels)
    else
      && SteadyAtLast(inp, names, levels) && level == levels[|levels| - 1]
      && forall x :: x in shared <==> x in names && Rests(inp, Some(level), x)
  }

  lemma BroughtIs(inp: Inputs, names: seq<string>, levels: seq<real>, level: real, shared: seq<string>)
    requires shared == [] ==> !SteadyAtLast(inp, names, levels)
    requires shared != [] ==> levels != [] && SteadyAtLast(inp, names, levels) && level == levels[|levels| - 1]
    requires shared != [] ==> forall x :: x in shared <==> x in names && Rests(inp, Some(level), x)
    ensures Brought(inp, names, levels, level, shared)
  {
  }

  lemma OutcomeNames(inp: Inputs, names: seq<string>, total: real, all: real, levels: seq<real>, a: Amounts)
    requires Outcome(inp, names, total, all, levels, a)
    ensures forall x :: x in a ==> x in names
  {
  }

  /** What each user gets, in terms of the last level. */
  lemma OutcomeSettles(inp: Inputs, names: seq<string>, total: real, all: real, levels: seq<real>, a: Amounts,
                       level: real, shared: seq<string>)
    requires Outcome(inp, names, total, all, levels, a) && Brought(inp, names, levels, level, shared)
    requires levels != [] ==> level == levels[|levels| - 1]
    ensures forall x :: x in a ==> Settled(inp, level, x, a[x])
    ensures forall x :: x in shared ==>
              x in a && a[x] == Clamped(inp, level, x) && Amount(inp.predicts, x) >= Deserved(inp, level, x)
    ensures forall x :: x in a && x !in shared ==> IsLow(inp, x) || Satisfied(inp, level, x, a[x])
  {
    hide HeldBy, GivenBy, Climbs, Moving, Steady, Clamped, Granted, Deserved;
    forall x | x in names
      ensures x in a ==> Settled(inp, level, x, a[x])
      ensures x in shared ==> x in a && a[x] == Clamped(inp, level, x)
      ensures x in shared ==> Amount(inp.predicts, x) >= Deserved(inp, level, x)
      ensures x in a && x !in shared ==> IsLow(inp, x) || Satisfied(inp, level, x, a[x])
    {
      assert SharedOut(inp, names, levels, a, x);
    }
  }

  /** ... and all of them together. */
  lemma OutcomeAddsUp(inp: Inputs, names: seq<string>, total: real, all: real, levels: seq<real>, a: Amounts,
                      level: real, shared: seq<string>)
    requires Weighted(inp, names) && Outcome(inp, names, total, all, levels, a)
    requires Brought(inp, names, levels, level, shared)
    ensures (exists x :: x in names && x !in a) ==> SumBy(names, a) >= total
    ensures shared != [] ==> Fills(inp, names, total, all, level)
    ensures shared != [] ==> forall other :: Fills(inp, names, total, all, other) ==> level <= other
    ensures shared != [] && (forall x :: x in shared ==> Clamped(inp, level, x) == Deserved(inp, level, x)) ==>
              SumBy(names, a) == total + (all - SumBy(names, inp.history))
    ensures (forall x :: x in names ==> x in a) && !AllLow(inp, names) &&
            (forall x :: x in shared ==> Clamped(inp, level, x) <= Deserved(inp, level, x)) ==>
              SumBy(names, a) <= total + (all - SumBy(names, inp.history))
  {
    hide HeldBy, GivenBy, Moving, Steady, Clamped, Deserved, Rests, SharedOut, StepsTo, SumBy, Fills, IsLow, Weighted;
    WithoutOnlyIfSpent(inp, names, total, all, levels, a);
    if shared != [] {
      SteadyIsLeast(inp, names, total, all, levels);
      if forall x :: x in shared ==> Clamped(inp, level, x) == Deserved(inp, level, x) {
        UnclampedUseAll(inp, names, total, all, levels, a);
      }
    }
    if (forall x :: x in names ==> x in a) && !AllLow(inp, names) &&
       (forall x :: x in shared ==> Clamped(inp, level, x) <= Deserved(inp, level, x)) {
      NoMoreThanThereIs(inp, names, total, all, levels, a);
    }
  }

  // ---------------------------------------------------------------- the object

  class Algorithm {
    var allocatedMems: Amounts
    var allocatedMemsUser: Amounts
    var totalMemAlltime: real
    ghost var seen: seq<string>

    /** The total is that of all users. */
    ghost predicate Valid()
      reads this
    {
      && Distinct(seen) && (forall x :: x in allocatedMemsUser <==> x in seen)
      && totalMemAlltime == SumBy(seen, allocatedMemsUser)
    }

    constructor ()
      ensures Valid() && totalMemAlltime == 0.0 && allocatedMemsUser == map[]
    {
      allocatedMems, allocatedMemsUser, totalMemAlltime, seen := map[], map[], 0.0, [];
    }

    /** The deserved amounts of the users that have none yet. */
    method DeservedAmounts(inp: Inputs, st: State) returns (deserved: Amounts, ghost level: real)
      requires ValidInputs(inp, st.users) && st.users != []
      ensures SumBy(st.users, inp.weights) > 0.0 && level == Level(inp, st)
      ensures forall x :: x in st.users ==> x in deserved && deserved[x] == Deserved(inp, level, x)
    {
      hide SumBy, Times, Level, Deserved;
      WeightsArePositive(inp, st.users);
      level := Level(inp, st);
      NothingSpent(inp.weights);
      var totalWeights := 0.0;
      for n := 0 to |st.users|
        invariant totalWeights == SumBy(st.users[..n], inp.weights)
      {
        assert st.users[..n + 1] == st.users[..n] + [st.users[n]];
        SumByConcat(st.users[..n], [st.users[n]], inp.weights);
        SumByOne(st.users[n], inp.weights);
        totalWeights := totalWeights + inp.weights[st.users[n]];
      }
      assert st.users[..|st.users|] == st.users;
      deserved := map[];
      for n := 0 to |st.users|
        invariant forall x :: x in st.users[..n] ==> x in deserved && deserved[x] == Deserved(inp, level, x)
      {
        var name := st.users[n];
        var preAllocation := if name in inp.history then inp.history[name] else 0.0;
        assert st.users[..n + 1] == st.users[..n] + [name];
        DeservedIs(inp, st, name);
        deserved := deserved[name := Share(inp.weights[name], st.memory + st.past, totalWeights) - preAllocation];
      }
    }

    /** The users' amounts. Users that ask for little get the least they may have. Then the level
        rises from pass to pass: those that ask for less than they deserve are satisfied, until
        all others deserve no more than they ask for and are brought to the level, or nothing is
        left. `level` is where it ends, `levels` are those of all passes, `shared` the users brought
        to the last. */
    method UserFairness(names: seq<string>, predicts: Amounts, weights: Amounts, low: Amounts, config: Amounts,
                        totalMem: real)
      returns (allocates: Amounts, ghost level: real, ghost shared: seq<string>, ghost levels: seq<real>)
      requires Distinct(names) && ValidInputs(Inputs(predicts, weights, low, config, allocatedMemsUser), names)
      ensures forall x :: x in allocates ==> x in names
      ensures var inp := Inputs(predicts, weights, low, config, allocatedMemsUser);
              forall x :: x in allocates ==> Settled(inp, level, x, allocates[x])
      ensures (exists x :: x in names && x !in allocates) ==> SumBy(names, allocates) >= totalMem
      ensures var inp := Inputs(predicts, weights, low, config, allocatedMemsUser);
              && (forall x :: x in shared ==>
                        x in allocates && allocates[x] == Clamped(inp, level, x) &&
                        Amount(predicts, x) >= Deserved(inp, level, x))
              && (forall x :: x in allocates && x !in shared ==>
                 IsLow(inp, x) || Satisfied(inp, level, x, allocates[x]))
              && (shared != [] && (forall x :: x in shared ==> Clamped(inp, level, x) == Deserved(inp, level, x))
                  ==> SumBy(names, allocates) == totalMem + (totalMemAlltime - SumBy(names, allocatedMemsUser)))
      ensures var inp := Inputs(predicts, weights, low, config, allocatedMemsUser);
              && Outcome(inp, names, totalMem, totalMemAlltime, levels, allocates)
              && (shared != [] ==>
                 && Fills(inp, names, totalMem, totalMemAlltime, level)
                 && forall other :: Fills(inp, names, totalMem, totalMemAlltime, other) ==> level <= other)
              && ((forall x :: x in names ==> x in allocates) && !AllLow(inp, names) &&
                  (forall x :: x in shared ==> Clamped(inp, level, x) <= Deserved(inp, level, x)) ==>
                    SumBy(names, allocates) <= totalMem + (totalMemAlltime - SumBy(names, allocatedMemsUser)))
    {
      hide *;
      var inp := Inputs(predicts, weights, low, config, allocatedMemsUser);
      ghost var gone := totalMemAlltime - SumBy(names, allocatedMemsUser);
      var st;
      ghost var settled;
      st, settled := SettleLow(inp, names, totalMem, totalMemAlltime);
      BookedUsers(inp, names, settled, totalMem, gone, st);
      AllWeighted(inp, names);
      level, shared, levels := 0.0, [], [];
      ClimbBegins(inp, names, totalMem, totalMemAlltime, settled, st);
      while st.memory > 0.0 && |st.users| > 0
        invariant Booked(inp, names, settled, totalMem, gone, st)
        invariant levels != [] ==> level == levels[|levels| - 1]
        invariant shared == [] ==> Climbed(inp, names, totalMem, totalMemAlltime, levels, settled, st)
        invariant shared != [] ==> st.users == [] && levels != [] && SteadyAtLast(inp, names, levels)
        invariant shared != [] ==> Outcome(inp, names, totalMem, totalMemAlltime, levels, st.allocates)
        invariant shared != [] ==> forall x :: x in shared <==> x in names && Rests(inp, Some(level), x)
        decreases |st.users|
      {
        RestingUsers(inp, names, totalMem, totalMemAlltime, levels, settled, st);
        UsersValid(inp, names, st.users);
        var deserved;
        deserved, level := DeservedAmounts(inp, st);
        NextLevel(inp, names, totalMem, totalMemAlltime, levels, settled, st);
        LevelTimes(inp, st);
        BookedUsers(inp, names, settled, totalMem, gone, st);
        ghost var before := st;
        var flag;
        ghost var done;
        st, flag, done := SettlePass(inp, names, deserved, st, totalMem, gone, level, settled);
        BookedUsers(inp, names, settled + done, totalMem, gone, st);
        if !flag {
          shared := st.users;
          assert settled + done == settled;
          st := SharePass(inp, names, deserved, st, totalMem, gone, level, settled);
          BookedUsers(inp, names, settled + shared, totalMem, gone, st);
          BookedAre(inp, names, settled, totalMem, gone, before);
          BookedAre(inp, names, settled + shared, totalMem, gone, st);
          SharingEnds(inp, names, totalMem, totalMemAlltime, levels, settled, before, level, st);
          settled := settled + shared;
        } else {
          BookedAre(inp, names, settled, totalMem, gone, before);
          DoneAreNew(inp, names, settled, done, totalMem, gone, before, st);
          PassClimbs(inp, names, totalMem, totalMemAlltime, levels, settled, before, level, done, st);
          settled := settled + done;
        }
        levels := levels + [level];
      }
      allocates := st.allocates;
      if shared == [] {
        ClimbEnds(inp, names, totalMem, totalMemAlltime, levels, settled, st);
      }
      BroughtIs(inp, names, levels, level, shared);
      OutcomeNames(inp, names, totalMem, totalMemAlltime, levels, allocates);
      OutcomeSettles(inp, names, totalMem, totalMemAlltime, levels, allocates, level, shared);
      OutcomeAddsUp(inp, names, totalMem, totalMemAlltime, levels, allocates, level, shared);
    }

    /** What a round allocated is added to what the VMs and their users had. */
    method Update(finalAllocate: seq<(string, real)>, vmUser: map<string, string>)
      requires Valid() && forall k :: 0 <= k < |finalAllocate| ==> finalAllocate[k].0 in vmUser
      modifies this
      ensures Valid()
      ensures totalMemAlltime == old(totalMemAlltime) + AllocatedTo(finalAllocate, vmUser, None)
      ensures forall u ::
               Amount(allocatedMemsUser, u) ==
               Amount(old(allocatedMemsUser), u) + AllocatedTo(finalAllocate, vmUser, Some(u))
    {
      hide SumBy, Distinct;
      for n := 0 to |finalAllocate|
        invariant Valid()
        invariant totalMemAlltime == old(totalMemAlltime) + AllocatedTo(finalAllocate[..n], vmUser, None)
        invariant forall u ::
                   Amount(allocatedMemsUser, u) ==
                   Amount(old(allocatedMemsUser), u) + AllocatedTo(finalAllocate[..n], vmUser, Some(u))
      {
        var (name, allocation) := finalAllocate[n];
        assert finalAllocate[..n + 1][..n] == finalAllocate[..n];
        if name !in allocatedMems {
          allocatedMems := allocatedMems[name := allocation];
        } else {
          allocatedMems := allocatedMems[name := allocatedMems[name] + allocation];
        }
        var user := vmUser[name];
        Deposit(seen, allocatedMemsUser, user, allocation);
        if user !in allocatedMemsUser {
          allocatedMemsUser := allocatedMemsUser[user := allocation];
          seen := seen + [user];
        } else {
          allocatedMemsUser := allocatedMemsUser[user := allocatedMemsUser[user] + allocation];
        }
        totalMemAlltime := totalMemAlltime + allocation;
      }
      assert finalAllocate[..|finalAllocate|] == finalAllocate;
    }

    /** If every user with a past is among the names, nothing is past of nobody's. */
    lemma NothingGone(names: seq<string>)
      requires Valid() && Distinct(names) && forall x :: x in allocatedMemsUser ==> x in names
      ensures totalMemAlltime == SumBy(names, allocatedMemsUser)
    {
      SumByAny(names, seen, allocatedMemsUser);
    }
  }

  /** What a round allocates to a user's VMs, or to all. */
  function AllocatedTo(allocates: seq<(string, real)>, vmUser: map<string, string>, user: Option<string>): real
    requires forall k :: 0 <= k < |allocates| ==> allocates[k].0 in vmUser
  {
    if allocates == [] then 0.0 else
      var (name, allocation) := allocates[|allocates| - 1];
      AllocatedTo(allocates[..|allocates| - 1], vmUser, user) + if user == None ||
        user == Some(vmUser[name]) then allocation else 0.0
  }

  /** An amount more for one user. */
  lemma Deposit(seen: seq<string>, m: Amounts, x: string, amount: real)
    requires Distinct(seen) && forall y :: y in m <==> y in seen
    ensures x in m ==> SumBy(seen, m[x := m[x] + amount]) == SumBy(seen, m) + amount
    ensures x !in m ==> Distinct(seen + [x]) && SumBy(seen + [x], m[x := amount]) == SumBy(seen, m) + amount
  {
    if x in m {
      var m' := m[x := m[x] + amount];
      SumByWithout(seen, m, x);
      SumByWithout(seen, m', x);
      assert m' - {x} == m - {x};
    } else {
      var m' := m[x := amount];
      SumBySame(seen, m, m');
      SumByConcat(seen, [x], m');
      SumByOne(x, m');
      assert multiset(seen + [x]) == multiset(seen) + multiset{x};
    }
  }

  lemma UsersValid(inp: Inputs, names: seq<string>, users: seq<string>)
    requires ValidInputs(inp, names) && forall x :: x in users ==> x in names
    ensures ValidInputs(inp, users)
  {
  }

  /** `weight * sum / total` */
  function Share(weight: real, sum: real, total: real): real
    requires total > 0.0
  {
    weight * sum / total
  }

  lemma DeservedIs(inp: Inputs, st: State, x: string)
    requires SumBy(st.users, inp.weights) > 0.0
    ensures Deserved(inp, Level(inp, st), x) ==
            Share(Amount(inp.weights, x), st.memory + st.past, SumBy(st.users, inp.weights)) - Amount(inp.history, x)
  {
    hide SumBy, Amount;
    ShareIsTimes(Amount(inp.weights, x), st.memory + st.past, SumBy(st.users, inp.weights));
  }

  lemma ShareIsTimes(w: real, s: real, t: real)
    requires t > 0.0
    ensures Times(w, s / t) == Share(w, s, t)
  {
    Quotient(w * s, t, w * (s / t));
    assert s == (s / t) * t;
    assert w * (s / t) * t == w * ((s / t) * t);
  }
}

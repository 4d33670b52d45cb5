/** Python 2 numbers as the schedulers use them: whole numbers stay whole under sums, and their
    division rounds down. */
module Numbers {
  import opened Products

  datatype Number = Whole(i: int) | Part(r: real)

  function Val(n: Number): real {
    match n case Whole(i) => i as real case Part(r) => r
  }

  function Plus(x: Number, y: Number): (z: Number)
    ensures Val(z) == Val(x) + Val(y)
  {
    if x.Whole? && y.Whole? then Whole(x.i + y.i) else Part(Val(x) + Val(y))
  }

  function Minus(x: Number, y: Number): (z: Number)
    ensures Val(z) == Val(x) - Val(y)
  {
    if x.Whole? && y.Whole? then Whole(x.i - y.i) else Part(Val(x) - Val(y))
  }

  function Negated(x: Number): (z: Number)
    ensures Val(z) == -Val(x)
  {
    match x case Whole(i) => Whole(-i) case Part(r) => Part(-r)
  }

  /** `x / n` for a positive whole number n. */
  function Over(x: Number, n: nat): Number
    requires n > 0
  {
    match x case Whole(i) => Whole(i / n) case Part(r) => Part(r / n as real)
  }

  /** `x / y` for a positive number y. */
  function DividedBy(x: Number, y: Number): Number
    requires Val(y) > 0.0
  {
    if x.Whole? && y.Whole? then Whole(x.i / y.i) else Part(Val(x) / Val(y))
  }

  /** What the division of whole numbers leaves over. */
  function Remainder(x: Number, n: nat): (r: int)
    requires n > 0
    ensures 0 <= r < n
  {
    match x case Whole(i) => i % n case Part(_) => 0
  }

  /** n shares make up x, but for the remainder. */
  lemma SharesMakeUp(x: Number, n: nat)
    requires n > 0
    ensures Val(x) - n as real * Val(Over(x, n)) == Remainder(x, n) as real
  {
    match x
    case Whole(i) =>
      assert i == n * (i / n) + i % n;
      RealProduct(n, i / n);
    case Part(r) =>
      assert n as real * (r / n as real) == r;
  }

  /** Python's `min`: the first of the smallest. */
  function MinOf(x: Number, y: Number): (z: Number)
    ensures z == x || z == y
    ensures Val(z) <= Val(x) && Val(z) <= Val(y)
  {
    if Val(y) < Val(x) then y else x
  }
}

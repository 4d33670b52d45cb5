/** What the built-in functions that only compute give, by what they are for: the first of the
    arguments that decides, the first of the extremes, a quotient rounded down, bits moved. */
module Builtins {
  import opened Options
  import opened PolicyValues
  import opened Interp

  function Given(vs: seq<Value>): (args: seq<Arg>)
    ensures |args| == |vs| && AllVals(args) && ValsOf(args) == vs
  {
    seq(|vs|, k requires 0 <= k < |vs| => AVal(vs[k]))
  }

  /** What a built-in makes of these values: none if it raises an exception. */
  function Gives(w: World, b: Builtin, vs: seq<Value>, env: Env): Option<Value> {
    match Compute(w, b, Given(vs), env) case Ret(v, _) => Some(v) case _ => None
  }

  // ---------------------------------------------------------------- truth

  /** The argument at k decides: those before do not have this truth, and it has, or it is the last. */
  ghost predicate DecidedAt(vs: seq<Value>, truth: bool, k: nat, v: Value) {
    && k < |vs| && v == vs[k] && (Truthy(vs[k]) == truth || k == |vs| - 1)
    && forall i :: 0 <= i < k ==> Truthy(vs[i]) != truth
  }

  ghost predicate FirstWith(vs: seq<Value>, truth: bool, v: Value) {
    exists k: nat :: DecidedAt(vs, truth, k, v)
  }

  lemma {:induction false} AndIsFirst(vs: seq<Value>)
    requires vs != []
    ensures FirstWith(vs, false, AndOf(vs))
  {
    if |vs| == 1 || !Truthy(vs[0]) {
      assert DecidedAt(vs, false, 0, AndOf(vs));
    } else {
      AndIsFirst(vs[1..]);
      var k: nat :| DecidedAt(vs[1..], false, k, AndOf(vs[1..]));
      assert DecidedAt(vs, false, k + 1, AndOf(vs));
    }
  }

  lemma {:induction false} OrIsFirst(vs: seq<Value>)
    requires vs != []
    ensures FirstWith(vs, true, OrOf(vs))
  {
    if |vs| == 1 || Truthy(vs[0]) {
      assert DecidedAt(vs, true, 0, OrOf(vs));
    } else {
      OrIsFirst(vs[1..]);
      var k: nat :| DecidedAt(vs[1..], true, k, OrOf(vs[1..]));
      assert DecidedAt(vs, true, k + 1, OrOf(vs));
    }
  }

  /** `and` gives the first false argument, or the last, and `or` the first true one, or the last;
      without arguments there is none. */
  lemma AndOrGive(w: World, vs: seq<Value>, env: Env)
    ensures match Gives(w, And, vs, env) case Some(v) => FirstWith(vs, false, v) case None => vs == []
    ensures match Gives(w, Or, vs, env) case Some(v) => FirstWith(vs, true, v) case None => vs == []
  {
    hide FirstWith;
    if vs != [] {
      AndIsFirst(vs);
      OrIsFirst(vs);
    }
  }

  /** So `and` is true if all are, `or` if any is, and `not` if its argument is not. */
  lemma Truths(w: World, vs: seq<Value>, env: Env)
    requires vs != []
    ensures var v := Gives(w, And, vs, env);
            v.Some? && (Truthy(v.value) <==> forall k :: 0 <= k < |vs| ==> Truthy(vs[k]))
    ensures var v := Gives(w, Or, vs, env);
            v.Some? && (Truthy(v.value) <==> exists k :: 0 <= k < |vs| && Truthy(vs[k]))
    ensures var v := Gives(w, Not, vs, env);
            if |vs| == 1 then v.Some? && v.value.VBool? && (Truthy(v.value) <==> !Truthy(vs[0])) else v.None?
  {
    AndOrGive(w, vs, env);
    hide AndOf, OrOf;
    var k: nat :| DecidedAt(vs, false, k, Gives(w, And, vs, env).value);
    var i: nat :| DecidedAt(vs, true, i, Gives(w, Or, vs, env).value);
  }

  /** `null` is true if each argument is None or has no items, `valid` if none is None. */
  lemma NullAndValid(w: World, vs: seq<Value>, env: Env)
    ensures Gives(w, Null, vs, env) ==
            Some(VBool(forall v :: v in vs ==> v == VNone || Iterate(v) == Some([])))
    ensures Gives(w, Valid, vs, env) == Some(VBool(VNone !in vs))
  {
    forall v
      ensures Empty(v) <==> v == VNone || Iterate(v) == Some([])
    {
      if v.VStr? {
        assert |Iterate(v).value| == |v.s|;
      }
    }
    assert forall v :: v in vs <==> exists k :: 0 <= k < |vs| && vs[k] == v;
  }

  // ---------------------------------------------------------------- extremes

  ghost predicate AllNumbers(vs: seq<Value>) {
    forall k :: 0 <= k < |vs| ==> Number(vs[k])
  }

  /** Scaled by this sign, the value at k is the greatest, and the first such. */
  ghost predicate ExtremeAt(vs: seq<Value>, sign: real, k: nat, v: Value) {
    && k < |vs| && AllNumbers(vs) && v == vs[k]
    && (forall i :: 0 <= i < |vs| ==> sign * Num(vs[i]) <= sign * Num(v))
    && (forall i :: 0 <= i < k ==> sign * Num(vs[i]) < sign * Num(v))
  }

  lemma {:induction false} MaxIsExtreme(w: World, vs: seq<Value>)
    requires vs != [] && AllNumbers(vs)
    ensures exists k: nat :: ExtremeAt(vs, 1.0, k, MaxOf(w, vs))
  {
    var n := |vs| - 1;
    if n == 0 {
      assert ExtremeAt(vs, 1.0, 0, MaxOf(w, vs));
    } else {
      MaxIsExtreme(w, vs[..n]);
      var k: nat :| ExtremeAt(vs[..n], 1.0, k, MaxOf(w, vs[..n]));
      hide Num;
      assert ExtremeAt(vs, 1.0, if Num(vs[n]) > Num(vs[k]) then n else k, MaxOf(w, vs));
    }
  }

  lemma {:induction false} MinIsExtreme(w: World, vs: seq<Value>)
    requires vs != [] && AllNumbers(vs)
    ensures exists k: nat :: ExtremeAt(vs, -1.0, k, MinOf(w, vs))
  {
    var n := |vs| - 1;
    if n == 0 {
      assert ExtremeAt(vs, -1.0, 0, MinOf(w, vs));
    } else {
      MinIsExtreme(w, vs[..n]);
      var k: nat :| ExtremeAt(vs[..n], -1.0, k, MinOf(w, vs[..n]));
      hide Num;
      assert ExtremeAt(vs, -1.0, if Num(vs[n]) < Num(vs[k]) then n else k, MinOf(w, vs));
    }
  }

  /** Of numbers, `max` gives the first of the greatest, and `min` the first of the least. */
  lemma Extremes(w: World, vs: seq<Value>, env: Env)
    requires vs != [] && AllNumbers(vs)
    ensures var v := Gives(w, Max, vs, env); v.Some? && exists k: nat :: ExtremeAt(vs, 1.0, k, v.value)
    ensures var v := Gives(w, Min, vs, env); v.Some? && exists k: nat :: ExtremeAt(vs, -1.0, k, v.value)
  {
    hide ExtremeAt, AllNumbers;
    MaxIsExtreme(w, vs);
    MinIsExtreme(w, vs);
  }

  // ---------------------------------------------------------------- arithmetic

  lemma ProductGrows(b: int, d: int)
    requires b > 0
    ensures (d >= 1 ==> b * d >= b) && (d <= -1 ==> b * d <= -b)
  {
  }

  lemma Multiple(b: int, q: int, a: int)
    requires b > 0 && b * q <= a < b * q + b
    ensures a / b == q
  {
    var d := a / b - q;
    assert b * d < b && -b < b * d;
    ProductGrows(b, d);
  }

  /** The quotient of whole numbers is the one that leaves a remainder between nothing and the
      divisor, of the divisor's sign. */
  lemma FloorDivIs(a: int, b: int, q: int)
    requires b != 0
    ensures FloorDiv(a, b) == q <==> if b > 0 then 0 <= a - b * q < b else b < a - b * q <= 0
  {
    if b > 0 {
      if 0 <= a - b * q < b {
        Multiple(b, q, a);
      }
      assert a == b * (a / b) + a % b;
    } else {
      assert (-b) * q == -(b * q);
      if b < a - b * q <= 0 {
        Multiple(-b, q, -a);
      }
      assert -a == (-b) * ((-a) / (-b)) + (-a) % (-b);
    }
  }

  /** So does the quotient of any numbers multiply back, if one is no whole number. */
  lemma DivGives(w: World, x: Value, y: Value, env: Env)
    requires Number(x) && Number(y)
    ensures match Gives(w, Binary(Div), [x, y], env)
            case None => Num(y) == 0.0
            case Some(q) =>
              if Integral(x) && Integral(y) then
                && q.VInt? && AsInt(y) != 0
                && var (a, b) := (AsInt(x), AsInt(y));
                   if b > 0 then 0 <= a - b * q.i < b else b < a - b * q.i <= 0
              else q.VFloat? && Num(y) != 0.0 && q.r * Num(y) == Num(x)
  {
    if Integral(x) && Integral(y) && AsInt(y) != 0 {
      FloorDivIs(AsInt(x), AsInt(y), FloorDiv(AsInt(x), AsInt(y)));
    }
  }

  /** Shifting to the left by nothing leaves a number, and by one more doubles it. */
  lemma ShlGives(w: World, a: int, n: int, env: Env)
    ensures Gives(w, Binary(Shl), [VInt(a), VInt(n)], env).Some? <==> n >= 0
    ensures Gives(w, Binary(Shl), [VInt(a), VInt(0)], env) == Some(VInt(a))
    ensures n >= 0 ==> match Gives(w, Binary(Shl), [VInt(a), VInt(n)], env)
                       case Some(v) => Gives(w, Binary(Shl), [VInt(a), VInt(n + 1)], env) ==
                                       Gives(w, Binary(Add), [v, v], env)
                       case None => false
  {
    if n >= 0 {
      assert a * Pow2(n + 1) == a * Pow2(n) + a * Pow2(n);
    }
  }

  /** Shifting to the right gives the greatest number that, shifted back, is no more: so it undoes a
      shift to the left. */
  lemma ShrGives(w: World, a: int, n: int, env: Env)
    ensures Gives(w, Binary(Shr), [VInt(a), VInt(n)], env).Some? <==> n >= 0
    ensures n >= 0 ==> match Gives(w, Binary(Shr), [VInt(a), VInt(n)], env)
                       case Some(VInt(q)) => q * Pow2(n) <= a < (q + 1) * Pow2(n)
                       case _ => false
    ensures n >= 0 ==> match Gives(w, Binary(Shl), [VInt(a), VInt(n)], env)
                       case Some(v) => Gives(w, Binary(Shr), [v, VInt(n)], env) == Some(VInt(a))
                       case None => false
  {
    if n >= 0 {
      var p := Pow2(n);
      Pow2Positive(n);
      FloorDivIs(a, p, FloorDiv(a, p));
      FloorDivIs(a * p, p, a);
      assert (FloorDiv(a, p) + 1) * p == p * FloorDiv(a, p) + p;
      assert a * p - p * a == 0;
    }
  }
}

/** The values policies compute with, and the operations on them. Numbers follow Python 2:
    integers divide with floor, mixed operations are done in floats, a bool counts as 0 or 1.
    What Python does with other values is a parameter, the `World`. */
module PolicyValues {
  import opened Options

  datatype Value =
    | VNone | VBool(b: bool) | VInt(i: int) | VFloat(r: real) | VStr(s: string) | VList(vs: seq<Value>)
    | VEntity(id: nat) | VMethod(id: nat, name: string) | VExtern(fn: string) | VOther(n: nat)

  /** The outside: attributes of objects, foreign calls (None where they raise), and Python's
      operations on values other than numbers. */
  datatype World = World(
    attr: (Value, string) -> Option<Value>,
    call: (Value, seq<Value>) -> Option<Value>,
    arith: (Arith, Value, Value) -> Option<Value>,
    compare: (Compare, Value, Value) -> bool)

  datatype Arith = Add | Sub | Mul | Div | Shl | Shr
  datatype Compare = Lt | Gt | Lte | Gte | Eq | Neq

  predicate Number(v: Value) {
    v.VBool? || v.VInt? || v.VFloat?
  }

  predicate Integral(v: Value) {
    v.VBool? || v.VInt?
  }

  function AsInt(v: Value): int
    requires Integral(v)
  {
    if v.VInt? then v.i else if v.b then 1 else 0
  }

  /** The number a value is. */
  function Num(v: Value): real
    requires Number(v)
  {
    if v.VFloat? then v.r else AsInt(v) as real
  }

  function FloorDiv(a: int, b: int): int
    requires b != 0
  {
    if b > 0 then a / b else (-a) / (-b)
  }

  function Pow2(n: nat): nat {
    if n == 0 then 1 else 2 * Pow2(n - 1)
  }

  lemma {:induction false} Pow2Positive(n: nat)
    ensures Pow2(n) > 0
  {
    if n > 0 {
      Pow2Positive(n - 1);
    }
  }

  function Calculate(w: World, op: Arith, x: Value, y: Value): Option<Value> {
    if Integral(x) && Integral(y) then
      var a, b := AsInt(x), AsInt(y);
      match op
      case Add => Some(VInt(a + b))
      case Sub => Some(VInt(a - b))
      case Mul => Some(VInt(a * b))
      case Div => if b == 0 then None else Some(VInt(FloorDiv(a, b)))
      case Shl => if b < 0 then None else Some(VInt(a * Pow2(b)))
      case Shr => if b < 0 then None else
          Pow2Positive(b);
          Some(VInt(FloorDiv(a, Pow2(b))))
    else if Number(x) && Number(y) then
      var a, b := Num(x), Num(y);
      match op
      case Add => Some(VFloat(a + b))
      case Sub => Some(VFloat(a - b))
      case Mul => Some(VFloat(a * b))
      case Div => if b == 0.0 then None else Some(VFloat(a / b))
      case Shl => None
      case Shr => None
    else
      w.arith(op, x, y)
  }

  predicate Holds(w: World, op: Compare, x: Value, y: Value) {
    if Number(x) && Number(y) then
      var a, b := Num(x), Num(y);
      match op
      case Lt => a < b
      case Gt => a > b
      case Lte => a <= b
      case Gte => a >= b
      case Eq => a == b
      case Neq => a != b
    else
      w.compare(op, x, y)
  }

  predicate Truthy(v: Value) {
    match v
    case VNone => false
    case VBool(b) => b
    case VInt(i) => i != 0
    case VFloat(r) => r != 0.0
    case VStr(s) => s != ""
    case VList(vs) => vs != []
    case _ => true
  }

  /** `c_and`: the first false value, or the last. */
  function AndOf(vs: seq<Value>): Value
    requires vs != []
  {
    if |vs| == 1 || !Truthy(vs[0]) then vs[0] else AndOf(vs[1..])
  }

  /** `c_or`: the first true value, or the last. */
  function OrOf(vs: seq<Value>): Value
    requires vs != []
  {
    if |vs| == 1 || Truthy(vs[0]) then vs[0] else OrOf(vs[1..])
  }

  /** Python's `max` and `min`: the first of the extreme values. */
  function MaxOf(w: World, vs: seq<Value>): Value
    requires vs != []
  {
    if |vs| == 1 then vs[0] else
      var m, last := MaxOf(w, vs[..|vs| - 1]), vs[|vs| - 1];
      if Holds(w, Gt, last, m) then last else m
  }

  function MinOf(w: World, vs: seq<Value>): Value
    requires vs != []
  {
    if |vs| == 1 then vs[0] else
      var m, last := MinOf(w, vs[..|vs| - 1]), vs[|vs| - 1];
      if Holds(w, Lt, last, m) then last else m
  }

  predicate Empty(v: Value) {
    v.VNone? || v == VStr("") || v == VList([])
  }

  /** `for item in v`, or None if v is not iterable. */
  function Iterate(v: Value): Option<seq<Value>> {
    match v
    case VList(vs) => Some(vs)
    case VStr(s) => Some(seq(|s|, k requires 0 <= k < |s| => VStr([s[k]])))
    case _ => None
  }
}

/** The policy program `doc/balloon.rules`, run by the evaluator: what targets it sets for the
    guests, for any host and guest data. */
module BalloonRules {
  import opened Grammar
  import opened Options
  import opened PolicyGrammar
  import opened PolicyValues
  import opened Interp
  import opened EvalRules
  import opened Products

  // ---------------------------------------------------------------- the program

  function Invoke(f: Code, args: seq<Code>): Code {
    List([f] + args)
  }

  function Two(f: Code, a: Code, b: Code): Code {
    List([f, a, b])
  }

  function Block(items: seq<Code>): Code {
    List([EVAL] + items)
  }

  function DefVarOf(x: string, e: Code): Code {
    List([Sym("defvar"), Sym(x), e])
  }

  function SetOf(x: string, e: Code): Code {
    List([Sym("set"), Sym(x), e])
  }

  function IfOf(c: Code, yes: Code, no: Code): Code {
    List([Sym("if"), c, yes, no])
  }

  function DefOf(name: string, params: seq<Code>, body: Code): Code {
    List([Sym("def"), Sym(name), List(params), body])
  }

  const G: Code := Sym("guest")
  const CUR: Code := Sym("guest.balloon_cur")
  const SIZE: Code := Sym("balloon_size")

  const CHANGE_BODY: Code := Block([
    IfOf(Two(Op(">"), Invoke(Sym("abs"), [Two(Op("-"), Sym("new_val"), CUR)]),
                      Two(Op("*"), Sym("min_balloon_change_percent"), CUR)),
         Int(1), Int(0))])

  const CHANGED: Code := Two(Sym("change_big_enough"), G, SIZE)

  const CONTROL: Code := Invoke(Sym("guest.Control"), [Quoted("balloon_target"), SIZE])

  const USED: Code := Two(Op("-"), Invoke(Sym("guest.StatAvg"), [Quoted("balloon_cur")]),
                                   Invoke(Sym("guest.StatAvg"), [Quoted("mem_unused")]))

  function MinWith(percent: string): Code {
    Two(Sym("max"), Sym("guest.balloon_min"), Two(Op("+"), Sym("guest_used_mem"), Two(Op("*"), Sym(percent), CUR)))
  }

  const FREE_PERCENT: Code :=
    IfOf(Two(Op("<="), Sym("host_free_percent"), Sym("pressure_critical")),
         DefVarOf("guest_free_percent", Two(Op("+"), Float(-0.05), Sym("host_free_percent"))),
         DefVarOf("guest_free_percent", Two(Op("*"), Sym("min_guest_free_percent"),
                                                     Two(Op("/"), Sym("host_free_percent"),
                                                       Sym("pressure_threshold")))))

  const RAISE_TO_MIN: Code :=
    IfOf(Two(Op("<"), SIZE, Sym("balloon_min")), SetOf("balloon_size", Sym("balloon_min")), Int(0))

  const CUT_TO_MAX: Code :=
    IfOf(Two(Op(">"), SIZE, Sym("guest.balloon_max")), SetOf("balloon_size", Sym("guest.balloon_max")), Int(0))

  const SHRINK_BODY: Code := Block([
    FREE_PERCENT,
    DefVarOf("guest_used_mem", USED),
    DefVarOf("balloon_min", MinWith("guest_free_percent")),
    DefVarOf("balloon_size", Two(Op("*"), CUR, Two(Op("-"), Int(1), Sym("max_balloon_change_percent")))),
    RAISE_TO_MIN,
    IfOf(Two(Sym("and"), Two(Op("<="), SIZE, CUR), CHANGED), CONTROL, Int(0))])

  const GROW_STEPS: Code := Block([
    DefVarOf("guest_used_mem", USED),
    DefVarOf("balloon_min", MinWith("min_guest_free_percent")),
    DefVarOf("balloon_size", Two(Op("*"), CUR, Two(Op("+"), Int(1), Sym("max_balloon_change_percent")))),
    RAISE_TO_MIN,
    CUT_TO_MAX,
    IfOf(CHANGED, CONTROL, Int(0))])

  const GROW_BODY: Code := Block([IfOf(Two(Op("<"), CUR, Sym("guest.balloon_max")), GROW_STEPS, Int(0))])

  const CONSTANTS: seq<(string, real)> := [
    ("pressure_threshold", 0.20), ("pressure_critical", 0.05), ("min_guest_free_percent", 0.20),
    ("max_balloon_change_percent", 0.05), ("min_balloon_change_percent", 0.0025)]

  function WithGuests(f: string): Code {
    List([Sym("with"), Sym("Guests"), G, List([Sym(f), G])])
  }

  function Constants(cs: seq<(string, real)>): seq<Code> {
    if cs == [] then [] else Constants(cs[..|cs| - 1]) + [DefVarOf(cs[|cs| - 1].0, Float(cs[|cs| - 1].1))]
  }

  const FUNCTIONS: seq<Code> := [
    DefOf("change_big_enough", [G, Sym("new_val")], CHANGE_BODY),
    DefOf("shrink_guest", [G], SHRINK_BODY),
    DefOf("grow_guest", [G], GROW_BODY)]

  const HOST_SHARE: Code :=
    DefVarOf("host_free_percent",
      Two(Op("/"), Invoke(Sym("Host.StatAvg"), [Quoted("mem_free")]), Sym("Host.mem_available")))

  const SCRIPT: Code :=
    IfOf(Two(Op("<"), Sym("host_free_percent"), Sym("pressure_threshold")), WithGuests("shrink_guest"),
      WithGuests("grow_guest"))

  const PROGRAM: seq<Code> := Constants(CONSTANTS) + FUNCTIONS + [HOST_SHARE, SCRIPT]

  // ---------------------------------------------------------------- names

  lemma {:induction false} NoDot(s: string)
    requires forall k :: 0 <= k < |s| ==> s[k] != '.'
    ensures BeforeDot(s) == s && AfterDot(s) == None
  {
    if s != [] {
      NoDot(s[1..]);
    }
  }

  lemma {:induction false} AtDot(s: string, t: string)
    requires (forall k :: 0 <= k < |s| ==> s[k] != '.') && (forall k :: 0 <= k < |t| ==> t[k] != '.')
    ensures BeforeDot(s + "." + t) == s && AfterDot(s + "." + t) == Some(t)
  {
    if s != [] {
      assert (s + "." + t)[1..] == s[1..] + "." + t;
      AtDot(s[1..], t);
    } else {
      assert (s + "." + t)[1..] == t;
      NoDot(t);
    }
  }

  /** What tells the program's local variables, its global ones, and the functions it calls
      apart: length and first letters. */
  predicate LocalKey(x: string) {
    (|x| == 5 && x[0] == 'g') || (|x| == 7 && x[0] == 'n') || (|x| == 18 && x[0] == 'g') || (|x| == 14 && x[0] == 'g')
      || (|x| == 11 && x[0] == 'b') || (|x| == 12 && x[0] == 'b')
  }

  predicate GlobalKey(x: string) {
    (|x| == 3 && x[0] == 'a' && x[1] == 'b') || (|x| == 5 && x[0] == 'd') || (|x| == 4 && x[0] == 'H') ||
      (|x| == 6 && x[0] == 'G')
      || (|x| == 18 && x[0] == 'p') || (|x| == 17 && x[0] == 'p') || (|x| == 22 && x[0] == 'm') ||
        (|x| == 26 && x[0] == 'm')
      || (|x| == 17 && x[0] == 'h')
  }

  ghost predicate DotFree(s: string) {
    forall k :: 0 <= k < |s| ==> s[k] != '.'
  }

  /** A stack of local scopes over the global one. */
  ghost predicate Scoped(stack: seq<Frame>) {
    && stack != []
    && (forall j, x :: 0 <= j < |stack| - 1 && x in stack[j] ==> LocalKey(x))
    && (forall x :: x in stack[|stack| - 1] ==> GlobalKey(x))
  }

  lemma {:induction false} GetLocal(w: World, stack: seq<Frame>, x: string)
    requires stack != [] && x in stack[0] && DotFree(x)
    ensures Get(w, stack, x) == Some(stack[0][x])
  {
    NoDot(x);
  }

  lemma {:induction false} GetGlobal(w: World, stack: seq<Frame>, x: string)
    requires Scoped(stack) && GlobalKey(x) && DotFree(x) && x in stack[|stack| - 1]
    ensures Get(w, stack, x) == Some(stack[|stack| - 1][x])
  {
    NoDot(x);
    if |stack| > 1 {
      assert !LocalKey(x);
      assert x !in stack[0];
      assert forall j :: 0 <= j < |stack| - 1 ==> stack[1..][j] == stack[j + 1];
      GetGlobal(w, stack[1..], x);
    }
  }

  lemma {:induction false} GetCalled(w: World, stack: seq<Frame>, n: string)
    requires Scoped(stack) && !GlobalKey(n) && !LocalKey(n) && DotFree(n)
    ensures Get(w, stack, n) == None
  {
    NoDot(n);
    assert n !in stack[0];
    if |stack| > 1 {
      assert forall j :: 0 <= j < |stack| - 1 ==> stack[1..][j] == stack[j + 1];
      GetCalled(w, stack[1..], n);
    }
  }

  /** An attribute of the object a local variable holds. */
  lemma GetAttribute(w: World, stack: seq<Frame>, obj: string, part: string)
    requires stack != [] && obj in stack[0] && DotFree(obj) && DotFree(part) && w.attr(stack[0][obj], part).Some?
    ensures Get(w, stack, obj + "." + part) == w.attr(stack[0][obj], part)
  {
    AtDot(obj, part);
  }

  // ---------------------------------------------------------------- the setting of a guest function

  /** What the global scope holds once the main script has come to its last expression. */
  ghost predicate GlobalsSet(g: Frame, h: Value) {
    && "abs" in g && g["abs"] == VExtern("abs")
    && "pressure_threshold" in g && g["pressure_threshold"] == VFloat(0.20)
    && "pressure_critical" in g && g["pressure_critical"] == VFloat(0.05)
    && "min_guest_free_percent" in g && g["min_guest_free_percent"] == VFloat(0.20)
    && "max_balloon_change_percent" in g && g["max_balloon_change_percent"] == VFloat(0.05)
    && "min_balloon_change_percent" in g && g["min_balloon_change_percent"] == VFloat(0.0025)
    && "host_free_percent" in g && g["host_free_percent"] == h && Number(h)
  }

  ghost predicate FunctionsSet(funcs: map<string, (Code, Code)>) {
    && "change_big_enough" in funcs && funcs["change_big_enough"] == (List([G, Sym("new_val")]), CHANGE_BODY)
    && "shrink_guest" in funcs && funcs["shrink_guest"] == (List([G]), SHRINK_BODY)
    && "grow_guest" in funcs && funcs["grow_guest"] == (List([G]), GROW_BODY)
  }

  /** A guest: its memory sizes are numbers, it can be controlled, and an average of its
      statistics is a number unless asking for it raises. */
  ghost predicate IsGuest(w: World, id: nat) {
    && w.attr(VEntity(id), "balloon_cur").Some? && Number(w.attr(VEntity(id), "balloon_cur").value)
    && w.attr(VEntity(id), "balloon_min").Some? && Number(w.attr(VEntity(id), "balloon_min").value)
    && w.attr(VEntity(id), "balloon_max").Some? && Number(w.attr(VEntity(id), "balloon_max").value)
    && w.attr(VEntity(id), "StatAvg") == Some(VMethod(id, "StatAvg"))
    && w.attr(VEntity(id), "Control") == Some(VMethod(id, "Control"))
    && (forall s :: Stat(w, id, s).Some? ==> Number(Stat(w, id, s).value))
  }

  function Stat(w: World, id: nat, s: string): Option<Value> {
    w.call(VMethod(id, "StatAvg"), [VStr(s)])
  }

  function Cur(w: World, id: nat): real
    requires IsGuest(w, id)
  {
    Num(w.attr(VEntity(id), "balloon_cur").value)
  }

  function Least(w: World, id: nat): real
    requires IsGuest(w, id)
  {
    Num(w.attr(VEntity(id), "balloon_min").value)
  }

  function Most(w: World, id: nat): real
    requires IsGuest(w, id)
  {
    Num(w.attr(VEntity(id), "balloon_max").value)
  }

  ghost predicate Setting(w: World, env: Env, id: nat, h: Value) {
    && Scoped(env.stack) && |env.stack| >= 2
    && "guest" in env.stack[0] && env.stack[0]["guest"] == VEntity(id)
    && GlobalsSet(env.stack[|env.stack| - 1], h)
    && FunctionsSet(env.funcs)
    && IsGuest(w, id)
  }

  /** A local variable more. */
  lemma DefineSetting(w: World, env: Env, id: nat, h: Value, x: string, v: Value)
    requires Setting(w, env, id, h) && LocalKey(x) && x !in env.stack[0]
    ensures Setting(w, Define(env, x, v), id, h)
    ensures Define(env, x, v) == env.(stack := [env.stack[0][x := v]] + env.stack[1..])
    ensures Defined(env, x, Some(v)) == Some((v, Define(env, x, v)))
  {
  }

  // ---------------------------------------------------------------- the expressions

  /** `node` calls the built-in `b`, and no variable of the program hides it. */
  ghost predicate Calls(node: Code, name: string, b: Builtin) {
    Head(node) == Some(name) && BuiltinOf(name) == Some(b) && DotFree(name) && !LocalKey(name) && !GlobalKey(name)
  }

  lemma CallsAdd()
    ensures Calls(Op("+"), "add", Binary(Add))
  {
  }

  lemma CallsSub()
    ensures Calls(Op("-"), "sub", Binary(Sub))
  {
  }

  lemma CallsMul()
    ensures Calls(Op("*"), "mul", Binary(Mul))
  {
  }

  lemma CallsDiv()
    ensures Calls(Op("/"), "div", Binary(Div))
  {
  }

  lemma CallsLt()
    ensures Calls(Op("<"), "lt", Test(Lt))
  {
  }

  lemma CallsGt()
    ensures Calls(Op(">"), "gt", Test(Gt))
  {
  }

  lemma CallsLte()
    ensures Calls(Op("<="), "lte", Test(Lte))
  {
  }

  lemma CallsMax()
    ensures Calls(Sym("max"), "max", Max)
  {
  }

  lemma CallsAnd()
    ensures Calls(Sym("and"), "and", And)
  {
  }

  lemma CallsIf()
    ensures Calls(Sym("if"), "if", If)
  {
  }

  lemma CallsSet()
    ensures Calls(Sym("set"), "set", SetVar)
  {
  }

  lemma CallsDefVar()
    ensures Calls(Sym("defvar"), "defvar", DefVar)
  {
  }

  function Arithmetic(op: Arith, x: real, y: real): real
    requires op.Add? || op.Sub? || op.Mul?
  {
    match op case Add => x + y case Sub => x - y case Mul => x * y
  }

  lemma MeansArith(w: World, env: Env, node: Code, name: string, op: Arith, a: Code, b: Code, x: Value, y: Value)
    returns (v: Value)
    requires Scoped(env.stack) && Calls(node, name, Binary(op)) && (op.Add? || op.Sub? || op.Mul?)
    requires Means(w, a, env, Some((x, env))) && Means(w, b, env, Some((y, env))) && Number(x) && Number(y)
    ensures Means(w, Two(node, a, b), env, Some((v, env))) && Number(v) && Num(v) == Arithmetic(op, Num(x), Num(y))
  {
    v := CalculatesNumber(w, op, x, y);
    GetCalled(w, env.stack, name);
    hide Means, Get, Calculate, Scoped;
    MeansTwo(w, node, name, Binary(op), a, b, env, Some(x), Some(y));
  }

  lemma CalculatesNumber(w: World, op: Arith, x: Value, y: Value) returns (v: Value)
    requires (op.Add? || op.Sub? || op.Mul?) && Number(x) && Number(y)
    ensures Calculate(w, op, x, y) == Some(v) && Number(v) && Num(v) == Arithmetic(op, Num(x), Num(y))
  {
    hide Calculate;
    match op
    case Add => v := CalculatesSum(w, x, y);
    case Sub => v := CalculatesDifference(w, x, y);
    case Mul => v := CalculatesProduct(w, x, y);
  }

  lemma CalculatesSum(w: World, x: Value, y: Value) returns (v: Value)
    requires Number(x) && Number(y)
    ensures Calculate(w, Add, x, y) == Some(v) && Number(v) && Num(v) == Num(x) + Num(y)
  {
    hide FloorDiv, Pow2;
    v := if Integral(x) && Integral(y) then VInt(AsInt(x) + AsInt(y)) else VFloat(Num(x) + Num(y));
  }

  lemma CalculatesDifference(w: World, x: Value, y: Value) returns (v: Value)
    requires Number(x) && Number(y)
    ensures Calculate(w, Sub, x, y) == Some(v) && Number(v) && Num(v) == Num(x) - Num(y)
  {
    hide FloorDiv, Pow2;
    v := if Integral(x) && Integral(y) then VInt(AsInt(x) - AsInt(y)) else VFloat(Num(x) - Num(y));
  }

  lemma CalculatesProduct(w: World, x: Value, y: Value) returns (v: Value)
    requires Number(x) && Number(y)
    ensures Calculate(w, Mul, x, y) == Some(v) && Number(v) && Num(v) == Num(x) * Num(y)
  {
    hide FloorDiv, Pow2;
    if Integral(x) && Integral(y) {
      RealProduct(AsInt(x), AsInt(y));
      v := VInt(AsInt(x) * AsInt(y));
    } else {
      v := VFloat(Num(x) * Num(y));
    }
  }

  lemma MeansTest(w: World, env: Env, node: Code, name: string, cmp: Compare, a: Code, b: Code, x: Value, y: Value)
    requires Scoped(env.stack) && Calls(node, name, Test(cmp))
    requires Means(w, a, env, Some((x, env))) && Means(w, b, env, Some((y, env)))
    ensures Means(w, Two(node, a, b), env, Some((VBool(Holds(w, cmp, x, y)), env)))
  {
    GetCalled(w, env.stack, name);
    MeansTwo(w, node, name, Test(cmp), a, b, env, Some(x), Some(y));
  }

  /** `guest.part`, where `whole` is that text. */
  lemma MeansAttribute(w: World, env: Env, id: nat, h: Value, part: string, whole: string)
    requires Setting(w, env, id, h) && DotFree(part) && w.attr(VEntity(id), part).Some? && whole == "guest" + "." + part
    requires whole != "nil"
    ensures Get(w, env.stack, whole) == w.attr(VEntity(id), part)
    ensures Means(w, Sym(whole), env, Some((w.attr(VEntity(id), part).value, env)))
  {
    GetAttribute(w, env.stack, "guest", part);
    MeansSymbol(w, whole, env);
  }

  lemma MeansCur(w: World, env: Env, id: nat, h: Value)
    requires Setting(w, env, id, h)
    ensures Means(w, CUR, env, Some((w.attr(VEntity(id), "balloon_cur").value, env)))
  {
    hide FunctionsSet, GlobalsSet;
    MeansAttribute(w, env, id, h, "balloon_cur", "guest.balloon_cur");
  }

  lemma MeansLeast(w: World, env: Env, id: nat, h: Value)
    requires Setting(w, env, id, h)
    ensures Means(w, Sym("guest.balloon_min"), env, Some((w.attr(VEntity(id), "balloon_min").value, env)))
  {
    hide FunctionsSet, GlobalsSet;
    MeansAttribute(w, env, id, h, "balloon_min", "guest.balloon_min");
  }

  lemma MeansMost(w: World, env: Env, id: nat, h: Value)
    requires Setting(w, env, id, h)
    ensures Means(w, Sym("guest.balloon_max"), env, Some((w.attr(VEntity(id), "balloon_max").value, env)))
  {
    hide FunctionsSet, GlobalsSet;
    MeansAttribute(w, env, id, h, "balloon_max", "guest.balloon_max");
  }

  lemma GetStatAvg(w: World, env: Env, id: nat, h: Value)
    requires Setting(w, env, id, h)
    ensures Get(w, env.stack, "guest.StatAvg") == Some(VMethod(id, "StatAvg"))
  {
    hide FunctionsSet, GlobalsSet;
    MeansAttribute(w, env, id, h, "StatAvg", "guest.StatAvg");
  }

  lemma GetControl(w: World, env: Env, id: nat, h: Value)
    requires Setting(w, env, id, h)
    ensures Get(w, env.stack, "guest.Control") == Some(VMethod(id, "Control"))
  {
    hide FunctionsSet, GlobalsSet;
    MeansAttribute(w, env, id, h, "Control", "guest.Control");
  }

  lemma MeansLocal(w: World, env: Env, x: string)
    requires env.stack != [] && x in env.stack[0] && DotFree(x) && x != "nil"
    ensures Means(w, Sym(x), env, Some((env.stack[0][x], env)))
  {
    GetLocal(w, env.stack, x);
    MeansSymbol(w, x, env);
  }

  lemma MeansGlobal(w: World, env: Env, x: string)
    requires Scoped(env.stack) && GlobalKey(x) && x in env.stack[|env.stack| - 1] && DotFree(x) && x != "nil"
    ensures Means(w, Sym(x), env, Some((env.stack[|env.stack| - 1][x], env)))
  {
    GetGlobal(w, env.stack, x);
    MeansSymbol(w, x, env);
  }

  lemma Plain()
    ensures DotFree("guest") && DotFree("new_val") && DotFree("guest_used_mem") && DotFree("balloon_min")
    ensures DotFree("balloon_size") && DotFree("guest_free_percent")
  {
  }

  // ---------------------------------------------------------------- what the steps compute

  function Larger(x: real, y: real): real {
    if y > x then y else x
  }

  function Absolutely(x: real): real {
    if x < 0.0 then -x else x
  }

  /** A global constant of the setting, as an expression. */
  lemma MeansConstant(w: World, env: Env, id: nat, h: Value, x: string, v: Value)
    requires Setting(w, env, id, h) && GlobalKey(x) && DotFree(x) && x != "nil"
    requires x in env.stack[|env.stack| - 1] && env.stack[|env.stack| - 1][x] == v
    ensures Means(w, Sym(x), env, Some((v, env))) && Get(w, env.stack, x) == Some(v)
  {
    hide FunctionsSet, GlobalsSet, IsGuest;
    GetGlobal(w, env.stack, x);
    MeansSymbol(w, x, env);
  }

  /** The globals the guest functions read, as expressions. */
  lemma MeansHostFree(w: World, env: Env, id: nat, h: Value)
    requires Setting(w, env, id, h)
    ensures Means(w, Sym("host_free_percent"), env, Some((h, env))) && Number(h)
  {
    hide FunctionsSet;
    MeansConstant(w, env, id, h, "host_free_percent", h);
  }

  lemma MeansCritical(w: World, env: Env, id: nat, h: Value)
    requires Setting(w, env, id, h)
    ensures Means(w, Sym("pressure_critical"), env, Some((VFloat(0.05), env)))
  {
    hide FunctionsSet;
    MeansConstant(w, env, id, h, "pressure_critical", VFloat(0.05));
  }

  lemma MeansThreshold(w: World, env: Env, id: nat, h: Value)
    requires Setting(w, env, id, h)
    ensures Means(w, Sym("pressure_threshold"), env, Some((VFloat(0.20), env)))
  {
    hide FunctionsSet;
    MeansConstant(w, env, id, h, "pressure_threshold", VFloat(0.20));
  }

  lemma MeansMinFree(w: World, env: Env, id: nat, h: Value)
    requires Setting(w, env, id, h)
    ensures Means(w, Sym("min_guest_free_percent"), env, Some((VFloat(0.20), env)))
  {
    hide FunctionsSet;
    MeansConstant(w, env, id, h, "min_guest_free_percent", VFloat(0.20));
  }

  lemma MeansMaxChange(w: World, env: Env, id: nat, h: Value)
    requires Setting(w, env, id, h)
    ensures Means(w, Sym("max_balloon_change_percent"), env, Some((VFloat(0.05), env)))
  {
    hide FunctionsSet;
    MeansConstant(w, env, id, h, "max_balloon_change_percent", VFloat(0.05));
  }

  lemma MeansMinChange(w: World, env: Env, id: nat, h: Value)
    requires Setting(w, env, id, h)
    ensures Means(w, Sym("min_balloon_change_percent"), env, Some((VFloat(0.0025), env)))
  {
    hide FunctionsSet;
    MeansConstant(w, env, id, h, "min_balloon_change_percent", VFloat(0.0025));
  }

  lemma SettingIsScoped(w: World, env: Env, id: nat, h: Value)
    requires Setting(w, env, id, h)
    ensures Scoped(env.stack) && |env.stack| >= 2 && IsGuest(w, id) && Number(h) && "guest" in env.stack[0]
  {
  }

  /** `(if c yes no)` where the condition is a value. */
  lemma MeansIfOf(w: World, env: Env, c: Code, yes: Code, no: Code, v: Value, m: Meaning)
    requires Scoped(env.stack) && Means(w, c, env, Some((v, env))) && Means(w, if Truthy(v) then yes else no, env, m)
    ensures Means(w, IfOf(c, yes, no), env, m)
  {
    CallsIf();
    GetCalled(w, env.stack, "if");
    hide Get, Means, Scoped, Calls;
    MeansIf(w, Sym("if"), c, yes, no, env, Some(v), m);
  }

  /** `(defvar x e)` of a local variable that is not there yet. */
  lemma MeansDefVarOf(w: World, env: Env, id: nat, h: Value, x: string, e: Code, v: Option<Value>)
    requires Setting(w, env, id, h) && LocalKey(x) && x !in env.stack[0] && Means(w, e, env, Just(v, env))
    ensures Means(w, DefVarOf(x, e), env, if v.Some? then Some((v.value, Define(env, x, v.value))) else None)
    ensures v.Some? ==>
              Setting(w, Define(env, x, v.value), id, h) &&
              Define(env, x, v.value) == env.(stack := [env.stack[0][x := v.value]] + env.stack[1..])
  {
    SettingIsScoped(w, env, id, h);
    CallsDefVar();
    GetCalled(w, env.stack, "defvar");
    if v.Some? {
      DefineSetting(w, env, id, h, x, v.value);
    }
    hide Get, Means, Scoped, Calls, Setting;
    MeansDefVar(w, Sym("defvar"), Token("symbol", Text(x)), e, env, v);
  }

  /** The guest's share of free memory under pressure. */
  function FreePercent(h: real): real {
    if h <= 0.05 then h - 0.05 else 0.20 * (h / 0.20)
  }

  lemma MeansFreePercent(w: World, env: Env, id: nat, h: Value) returns (p: Value)
    requires Setting(w, env, id, h) && "guest_free_percent" !in env.stack[0]
    ensures Means(w, FREE_PERCENT, env, Some((p, Define(env, "guest_free_percent", p))))
    ensures Number(p) && Num(p) == FreePercent(Num(h))
    ensures Setting(w, Define(env, "guest_free_percent", p), id, h)
    ensures Define(env, "guest_free_percent", p) ==
            env.(stack := [env.stack[0]["guest_free_percent" := p]] + env.stack[1..])
  {
    hide Means, Get, Scoped, Setting, Calls, Define;
    SettingIsScoped(w, env, id, h);
    MeansHostFree(w, env, id, h);
    MeansCritical(w, env, id, h);
    MeansThreshold(w, env, id, h);
    MeansMinFree(w, env, id, h);
    MeansLiteral(w, env);
    CallsLte(); CallsAdd(); CallsMul();
    MeansTest(w, env, Op("<="), "lte", Lte, Sym("host_free_percent"), Sym("pressure_critical"), h, VFloat(0.05));
    var critical := Two(Op("+"), Float(-0.05), Sym("host_free_percent"));
    var scaled := Two(Op("/"), Sym("host_free_percent"), Sym("pressure_threshold"));
    var normal := Two(Op("*"), Sym("min_guest_free_percent"), scaled);
    var c := MeansArith(w, env, Op("+"), "add", Add, Float(-0.05), Sym("host_free_percent"), VFloat(-0.05), h);
    MeansDivFloat(w, env, Sym("host_free_percent"), Sym("pressure_threshold"), h, 0.20);
    var n := MeansArith(w, env, Op("*"), "mul", Mul, Sym("min_guest_free_percent"), scaled, VFloat(0.20),
        VFloat(Num(h) / 0.20));
    var low := VBool(Holds(w, Lte, h, VFloat(0.05)));
    p := if Truthy(low) then c else n;
    MeansDefVarOf(w, env, id, h, "guest_free_percent", critical, Some(c));
    MeansDefVarOf(w, env, id, h, "guest_free_percent", normal, Some(n));
    MeansIfOf(w, env, Two(Op("<="), Sym("host_free_percent"), Sym("pressure_critical")),
      DefVarOf("guest_free_percent", critical), DefVarOf("guest_free_percent", normal), low,
      Some((p, Define(env, "guest_free_percent", p))));
  }

  /** Division by a non-zero float. */
  lemma MeansDivFloat(w: World, env: Env, a: Code, b: Code, x: Value, r: real)
    requires Scoped(env.stack) && Means(w, a, env, Some((x, env))) && Means(w, b, env, Some((VFloat(r), env)))
    requires Number(x) && r != 0.0
    ensures Means(w, Two(Op("/"), a, b), env, Some((VFloat(Num(x) / r), env)))
  {
    CallsDiv();
    GetCalled(w, env.stack, "div");
    hide Get, Means, Scoped, Calls;
    MeansTwo(w, Op("/"), "div", Binary(Div), a, b, env, Some(x), Some(VFloat(r)));
  }

  /** The memory in use: the difference of two averages, or nothing if one cannot be had. */
  function Used(w: World, id: nat): Option<real>
    requires IsGuest(w, id)
  {
    if Stat(w, id, "balloon_cur").Some? && Stat(w, id, "mem_unused").Some? then
      Some(Num(Stat(w, id, "balloon_cur").value) - Num(Stat(w, id, "mem_unused").value))
    else None
  }

  lemma MeansStat(w: World, env: Env, id: nat, h: Value, s: string)
    requires Setting(w, env, id, h)
    ensures Means(w, Invoke(Sym("guest.StatAvg"), [Quoted(s)]), env, Just(Stat(w, id, s), env))
  {
    GetStatAvg(w, env, id, h);
    MeansQuoted(w, s, env);
    MeansNone(w, env);
    MeansSnoc(w, [], Quoted(s), env, [], env, Some((VStr(s), env)));
    assert [] + [Quoted(s)] == [Quoted(s)] && [] + [VStr(s)] == [VStr(s)];
    StatApplies(w, id, s, env);
    hide Get, Means, MeansAll, Setting;
    MeansMethod(w, Sym("guest.StatAvg"), "guest.StatAvg", [Quoted(s)], env, VMethod(id, "StatAvg"), Some([VStr(s)]));
  }

  lemma StatApplies(w: World, id: nat, s: string, env: Env)
    ensures Applied(w, VMethod(id, "StatAvg"), [VStr(s)], env) == Just(Stat(w, id, s), env)
  {
    assert "StatAvg" != "Control";
  }

  lemma MeansUsed(w: World, env: Env, id: nat, h: Value) returns (u: Option<Value>)
    requires Setting(w, env, id, h) && IsGuest(w, id)
    ensures Means(w, USED, env, Just(u, env))
    ensures u.Some? <==> Used(w, id).Some?
    ensures u.Some? ==> Number(u.value) && Num(u.value) == Used(w, id).value
  {
    hide Means, Setting, Scoped, IsGuest;
    SettingIsScoped(w, env, id, h);
    MeansStat(w, env, id, h, "balloon_cur");
    MeansStat(w, env, id, h, "mem_unused");
    StatIsNumber(w, id, "balloon_cur");
    StatIsNumber(w, id, "mem_unused");
    u := MeansDifference(w, env, Invoke(Sym("guest.StatAvg"), [Quoted("balloon_cur")]),
      Invoke(Sym("guest.StatAvg"), [Quoted("mem_unused")]), Stat(w, id, "balloon_cur"), Stat(w, id, "mem_unused"));
  }

  lemma StatIsNumber(w: World, id: nat, s: string)
    requires IsGuest(w, id)
    ensures Stat(w, id, s).Some? ==> Number(Stat(w, id, s).value)
  {
  }

  lemma MeansDifference(w: World, env: Env, a: Code, b: Code, x: Option<Value>, y: Option<Value>)
    returns (v: Option<Value>)
    requires Scoped(env.stack) && Means(w, a, env, Just(x, env)) && Means(w, b, env, Just(y, env))
    requires (x.Some? ==> Number(x.value)) && (y.Some? ==> Number(y.value))
    ensures Means(w, Two(Op("-"), a, b), env, Just(v, env))
    ensures v.Some? <==> x.Some? && y.Some?
    ensures v.Some? ==> Number(v.value) && Num(v.value) == Num(x.value) - Num(y.value)
  {
    hide Get, Means, Scoped, Calls;
    CallsSub();
    GetCalled(w, env.stack, "sub");
    MeansTwo(w, Op("-"), "sub", Binary(Sub), a, b, env, x, y);
    v := None;
    if x.Some? && y.Some? {
      var d := CalculatesNumber(w, Sub, x.value, y.value);
      v := Some(d);
    }
  }

  /** The larger of two numbers; the first of equals. */
  lemma MeansMax(w: World, env: Env, a: Code, b: Code, x: Value, y: Value) returns (v: Value)
    requires Scoped(env.stack) && Means(w, a, env, Some((x, env))) && Means(w, b, env, Some((y, env))) && Number(x)
    requires Number(y)
    ensures Means(w, Two(Sym("max"), a, b), env, Some((v, env)))
    ensures Number(v) && Num(v) == Larger(Num(x), Num(y))
  {
    CallsMax();
    GetCalled(w, env.stack, "max");
    hide Get, Means, Scoped, Calls;
    MeansTwo(w, Sym("max"), "max", Max, a, b, env, Some(x), Some(y));
    v := if Holds(w, Gt, y, x) then y else x;
  }

  function WantedCode(percent: string): Code {
    Two(Op("+"), Sym("guest_used_mem"), Two(Op("*"), Sym(percent), CUR))
  }

  /** `(+ guest_used_mem (* percent guest.balloon_cur))` */
  lemma MeansWanted(w: World, env: Env, id: nat, h: Value, percent: string, p: Value, u: Value) returns (sum: Value)
    requires Setting(w, env, id, h) && IsGuest(w, id)
    requires Means(w, Sym(percent), env, Some((p, env))) && Number(p)
    requires "guest_used_mem" in env.stack[0] && env.stack[0]["guest_used_mem"] == u && Number(u)
    ensures Means(w, WantedCode(percent), env, Some((sum, env)))
    ensures Number(sum) && Num(sum) == Num(u) + Num(p) * Cur(w, id)
  {
    hide Get, Means, Setting, Scoped, DotFree;
    SettingIsScoped(w, env, id, h);
    Plain();
    MeansLocal(w, env, "guest_used_mem");
    MeansCur(w, env, id, h);
    sum := MeansWeighted(w, env, Sym("guest_used_mem"), Sym(percent), CUR, u, p,
      w.attr(VEntity(id), "balloon_cur").value);
  }

  lemma MeansWeighted(w: World, env: Env, a: Code, b: Code, c: Code, x: Value, y: Value, z: Value) returns (sum: Value)
    requires Scoped(env.stack) && Number(x) && Number(y) && Number(z)
    requires Means(w, a, env, Some((x, env))) && Means(w, b, env, Some((y, env))) && Means(w, c, env, Some((z, env)))
    ensures Means(w, Two(Op("+"), a, Two(Op("*"), b, c)), env, Some((sum, env)))
    ensures Number(sum) && Num(sum) == Num(x) + Num(y) * Num(z)
  {
    CallsMul(); CallsAdd();
    hide Means, Scoped, Calls, Num;
    var product := MeansArith(w, env, Op("*"), "mul", Mul, b, c, y, z);
    sum := MeansArith(w, env, Op("+"), "add", Add, a, Two(Op("*"), b, c), x, product);
  }

  /** `(max guest.balloon_min (+ guest_used_mem (* percent guest.balloon_cur)))` */
  lemma MeansMinWith(w: World, env: Env, id: nat, h: Value, percent: string, p: Value, u: Value) returns (b: Value)
    requires Setting(w, env, id, h) && IsGuest(w, id)
    requires Means(w, Sym(percent), env, Some((p, env))) && Number(p)
    requires "guest_used_mem" in env.stack[0] && env.stack[0]["guest_used_mem"] == u && Number(u)
    ensures Means(w, MinWith(percent), env, Some((b, env)))
    ensures Number(b) && Num(b) == Larger(Least(w, id), Num(u) + Num(p) * Cur(w, id))
  {
    SettingIsScoped(w, env, id, h);
    MeansLeast(w, env, id, h);
    hide Get, Means, Setting, Scoped;
    var sum := MeansWanted(w, env, id, h, percent, p, u);
    b := MeansMax(w, env, Sym("guest.balloon_min"), WantedCode(percent), w.attr(VEntity(id), "balloon_min").value, sum);
  }

  /** `(op 1 max_balloon_change_percent)` */
  lemma MeansFactor(w: World, env: Env, id: nat, h: Value, grow: bool) returns (f: Value)
    requires Setting(w, env, id, h)
    ensures Means(w, Two(if grow then Op("+") else Op("-"), Int(1), Sym("max_balloon_change_percent")), env,
            Some((f, env)))
    ensures Number(f) && Num(f) == if grow then 1.05 else 0.95
  {
    SettingIsScoped(w, env, id, h);
    MeansMaxChange(w, env, id, h);
    MeansLiteral(w, env);
    hide Get, Means, Setting, Scoped, Calls;
    if grow {
      CallsAdd();
      f := MeansArith(w, env, Op("+"), "add", Add, Int(1), Sym("max_balloon_change_percent"), VInt(1), VFloat(0.05));
    } else {
      CallsSub();
      f := MeansArith(w, env, Op("-"), "sub", Sub, Int(1), Sym("max_balloon_change_percent"), VInt(1), VFloat(0.05));
    }
  }

  function SizeCode(grow: bool): Code {
    Two(Op("*"), CUR, Two(if grow then Op("+") else Op("-"), Int(1), Sym("max_balloon_change_percent")))
  }

  /** `(* guest.balloon_cur (op 1 max_balloon_change_percent))` */
  lemma MeansSize(w: World, env: Env, id: nat, h: Value, grow: bool) returns (z: Value)
    requires Setting(w, env, id, h) && IsGuest(w, id)
    ensures Means(w, SizeCode(grow), env, Some((z, env)))
    ensures Number(z) && Num(z) == Cur(w, id) * (if grow then 1.05 else 0.95)
  {
    SettingIsScoped(w, env, id, h);
    MeansCur(w, env, id, h);
    CallsMul();
    hide Get, Means, Setting, Scoped, Calls;
    var f := MeansFactor(w, env, id, h, grow);
    z := MeansArith(w, env, Op("*"), "mul", Mul, CUR,
      Two(if grow then Op("+") else Op("-"), Int(1), Sym("max_balloon_change_percent")),
      w.attr(VEntity(id), "balloon_cur").value, f);
  }

  /** The state with another balloon size in the innermost scope. */
  function Resized(env: Env, z: Value): Env
    requires env.stack != []
  {
    env.(stack := [env.stack[0]["balloon_size" := z]] + env.stack[1..])
  }

  lemma ResizedSetting(w: World, env: Env, id: nat, h: Value, z: Value)
    requires Setting(w, env, id, h) && "balloon_size" in env.stack[0]
    ensures Setting(w, Resized(env, z), id, h) && Resized(env, z).stack[0]["balloon_size"] == z
    ensures Assign(env.stack, "balloon_size", z) == Some(Resized(env, z).stack)
    ensures Resized(env, env.stack[0]["balloon_size"]) == env
  {
    assert env.stack[0]["balloon_size" := env.stack[0]["balloon_size"]] == env.stack[0];
    assert [env.stack[0]] + env.stack[1..] == env.stack;
  }

  /** `(if (op balloon_size e) (set balloon_size e) 0)`: moves the size to the bound it passes. */
  lemma MeansBoundSize(w: World, env: Env, id: nat, h: Value, node: Code, name: string, cmp: Compare, e: Code, b: Value)
    returns (v: Value, z: Value)
    requires Setting(w, env, id, h) && Calls(node, name, Test(cmp)) && Means(w, e, env, Some((b, env)))
    requires "balloon_size" in env.stack[0] && Number(env.stack[0]["balloon_size"]) && Number(b)
    ensures z == (if Holds(w, cmp, env.stack[0]["balloon_size"], b) then b else env.stack[0]["balloon_size"])
    ensures Means(w, IfOf(Two(node, SIZE, e), SetOf("balloon_size", e), Int(0)), env, Some((v, Resized(env, z))))
    ensures Setting(w, Resized(env, z), id, h) && Resized(env, z).stack[0]["balloon_size"] == z
  {
    var size := env.stack[0]["balloon_size"];
    SettingIsScoped(w, env, id, h);
    Plain();
    hide Get, Means, Setting, Scoped, Calls, Assign, Resized, DotFree, BuiltinOf;
    MeansLocal(w, env, "balloon_size");
    MeansLiteral(w, env);
    ResizedSetting(w, env, id, h, b);
    ResizedSetting(w, env, id, h, size);
    MeansTest(w, env, node, name, cmp, SIZE, e, size, b);
    MeansSetSize(w, env, id, h, e, b);
    var holds := VBool(Holds(w, cmp, size, b));
    hide Holds;
    z := if holds.b then b else size;
    v := if holds.b then b else VInt(0);
    MeansIfOf(w, env, Two(node, SIZE, e), SetOf("balloon_size", e), Int(0), holds, Some((v, Resized(env, z))));
  }

  lemma MeansSetSize(w: World, env: Env, id: nat, h: Value, e: Code, b: Value)
    requires Setting(w, env, id, h) && Means(w, e, env, Some((b, env))) && "balloon_size" in env.stack[0]
    ensures Means(w, SetOf("balloon_size", e), env, Some((b, Resized(env, b))))
  {
    SettingIsScoped(w, env, id, h);
    ResizedSetting(w, env, id, h, b);
    CallsSet();
    GetCalled(w, env.stack, "set");
    hide Get, Means, Setting, Scoped, Calls, Assign;
    MeansSet(w, Sym("set"), Token("symbol", Text("balloon_size")), e, env, Some(b));
  }
}

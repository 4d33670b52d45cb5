/** What `shrink_guest` and `grow_guest` do to a guest, and what a run of the whole program
    writes, for any host and guest data. */
module BalloonTargets {
  import opened Grammar
  import opened Options
  import opened PolicyGrammar
  import opened PolicyValues
  import opened Interp
  import opened EvalRules
  import opened BalloonRules

  // ---------------------------------------------------------------- the targets

  predicate BigEnough(size: real, cur: real) {
    Absolutely(size - cur) > 0.0025 * cur
  }

  /** The target `shrink_guest` sets, if it sets one, when `h` is the host's free share. */
  function ShrinkTarget(w: World, id: nat, h: real): Option<real>
    requires IsGuest(w, id)
  {
    if Used(w, id).None? then None else
      var size := Proposed(w, id, false, FreePercent(h));
      if size <= Cur(w, id) && BigEnough(size, Cur(w, id)) then Some(size) else None
  }

  function CutTo(x: real, most: real): real {
    if x > most then most else x
  }

  /** ... `grow_guest` */
  function GrowTarget(w: World, id: nat): Option<real>
    requires IsGuest(w, id)
  {
    if Used(w, id).None? || Cur(w, id) >= Most(w, id) then None else
      var size := CutTo(Proposed(w, id, true, 0.20), Most(w, id));
      if BigEnough(size, Cur(w, id)) then Some(size) else None
  }

  lemma ShrinkBounds(w: World, id: nat, h: real)
    requires IsGuest(w, id) && ShrinkTarget(w, id, h).Some?
    ensures var t := ShrinkTarget(w, id, h).value;
            && Larger(Least(w, id), 0.95 * Cur(w, id)) <= t <= Cur(w, id)
            && Cur(w, id) - t > 0.0025 * Cur(w, id)
  {
    hide IsGuest, Used, FreePercent;
  }

  lemma GrowBounds(w: World, id: nat)
    requires IsGuest(w, id) && GrowTarget(w, id).Some? && Cur(w, id) >= 0.0
    ensures var t := GrowTarget(w, id).value;
            Cur(w, id) < t <= Most(w, id) && t - Cur(w, id) > 0.0025 * Cur(w, id)
  {
    hide IsGuest, Used;
  }

  // ---------------------------------------------------------------- change_big_enough

  /** A name that a scope does not have is looked up further out. */
  lemma GetPast(w: World, frame: Frame, stack: seq<Frame>, x: string)
    requires DotFree(x) && x !in frame
    ensures Get(w, [frame] + stack, x) == Get(w, stack, x)
  {
    NoDot(x);
    assert ([frame] + stack)[1..] == stack;
  }

  function Called(env: Env, id: nat, z: Value): Env {
    env.(stack := [map["guest" := VEntity(id), "new_val" := z]] + env.stack)
  }

  lemma CalledIs(env: Env, id: nat, z: Value)
    ensures Define(Enter(env), "guest", VEntity(id)) == env.(stack := [map["guest" := VEntity(id)]] + env.stack)
    ensures Define(Define(Enter(env), "guest", VEntity(id)), "new_val", z) == Called(env, id, z)
    ensures Leave(Called(env, id, z)) == env
  {
    var e1 := Define(Enter(env), "guest", VEntity(id));
    var none: Frame := map[];
    assert none["guest" := VEntity(id)] == map["guest" := VEntity(id)];
    assert Enter(env).stack[1..] == env.stack;
    assert "new_val" != "guest";
    assert e1.stack[0]["new_val" := z] == map["guest" := VEntity(id), "new_val" := z];
    assert e1.stack[1..] == env.stack;
  }

  lemma CalledSetting(w: World, env: Env, id: nat, h: Value, z: Value)
    requires Setting(w, env, id, h)
    ensures Setting(w, Called(env, id, z), id, h)
    ensures Called(env, id, z).stack[0]["new_val"] == z && "new_val" in Called(env, id, z).stack[0]
  {
    hide GlobalsSet, FunctionsSet, IsGuest;
    var e := Called(env, id, z);
    assert forall j :: 1 <= j < |e.stack| ==> e.stack[j] == env.stack[j - 1];
  }

  lemma MeansAbs(w: World, env: Env, id: nat, h: Value, a: Code, x: Value) returns (v: Value)
    requires Setting(w, env, id, h) && Means(w, a, env, Some((x, env))) && Number(x)
    ensures Means(w, Invoke(Sym("abs"), [a]), env, Some((v, env)))
    ensures Number(v) && Num(v) == Absolutely(Num(x))
  {
    AbsIsBound(w, env, id, h);
    MeansNone(w, env);
    MeansSnoc(w, [], a, env, [], env, Some((x, env)));
    assert [] + [a] == [a] && [] + [x] == [x];
    v := Absolute(x);
    hide Means, MeansAll, Setting, Get;
    MeansMethod(w, Sym("abs"), "abs", [a], env, VExtern("abs"), Some([x]));
  }

  lemma AbsIsBound(w: World, env: Env, id: nat, h: Value)
    requires Setting(w, env, id, h)
    ensures Get(w, env.stack, "abs") == Some(VExtern("abs"))
  {
    hide FunctionsSet;
    MeansConstant(w, env, id, h, "abs", VExtern("abs"));
  }

  const CHANGE_TEST: Code :=
    Two(Op(">"), Invoke(Sym("abs"), [Two(Op("-"), Sym("new_val"), CUR)]),
      Two(Op("*"), Sym("min_balloon_change_percent"), CUR))

  lemma MeansChangeTest(w: World, env: Env, id: nat, h: Value, z: Value)
    requires Setting(w, env, id, h) && IsGuest(w, id)
    requires "new_val" in env.stack[0] && env.stack[0]["new_val"] == z && Number(z)
    ensures Means(w, CHANGE_TEST, env, Some((VBool(BigEnough(Num(z), Cur(w, id))), env)))
  {
    SettingIsScoped(w, env, id, h);
    Plain();
    hide Get, Means, Setting, Scoped, DotFree, Calls, BuiltinOf;
    MeansLocal(w, env, "new_val");
    MeansCur(w, env, id, h);
    MeansMinChange(w, env, id, h);
    CallsSub(); CallsMul(); CallsGt();
    var cur := w.attr(VEntity(id), "balloon_cur").value;
    var d := MeansArith(w, env, Op("-"), "sub", Sub, Sym("new_val"), CUR, z, cur);
    var a := MeansAbs(w, env, id, h, Two(Op("-"), Sym("new_val"), CUR), d);
    var m := MeansArith(w, env, Op("*"), "mul", Mul, Sym("min_balloon_change_percent"), CUR, VFloat(0.0025), cur);
    MeansTest(w, env, Op(">"), "gt", Gt, Invoke(Sym("abs"), [Two(Op("-"), Sym("new_val"), CUR)]),
      Two(Op("*"), Sym("min_balloon_change_percent"), CUR), a, m);
  }

  /** One expression in a block. */
  lemma MeansOnly(w: World, env: Env, c: Code, v: Value, after: Env)
    requires Scoped(env.stack) && Means(w, c, env, Some((v, after)))
    ensures Means(w, Block([c]), env, Some((v, after)))
  {
    GetCalled(w, env.stack, "eval");
    MeansNone(w, env);
    MeansSnoc(w, [], c, env, [], env, Some((v, after)));
    assert [] + [c] == [c] && [] + [v] == [v];
    hide Means, MeansAll, Scoped, Get;
    MeansBlock(w, [c], env, Some(([v], after)));
  }

  function Flag(b: bool): Value {
    VInt(if b then 1 else 0)
  }

  lemma MeansChangeBody(w: World, env: Env, id: nat, h: Value, z: Value)
    requires Setting(w, env, id, h) && IsGuest(w, id)
    requires "new_val" in env.stack[0] && env.stack[0]["new_val"] == z && Number(z)
    ensures Means(w, CHANGE_BODY, env, Some((Flag(BigEnough(Num(z), Cur(w, id))), env)))
  {
    SettingIsScoped(w, env, id, h);
    MeansLiteral(w, env);
    hide Get, Means, Setting, Scoped, BigEnough;
    MeansChangeTest(w, env, id, h, z);
    var big := BigEnough(Num(z), Cur(w, id));
    MeansIfOf(w, env, CHANGE_TEST, Int(1), Int(0), VBool(big), Some((Flag(big), env)));
    MeansOnly(w, env, IfOf(CHANGE_TEST, Int(1), Int(0)), Flag(big), env);
  }

  /** `(change_big_enough guest balloon_size)` */
  lemma MeansChanged(w: World, env: Env, id: nat, h: Value, z: Value)
    requires Setting(w, env, id, h) && IsGuest(w, id)
    requires "balloon_size" in env.stack[0] && env.stack[0]["balloon_size"] == z && Number(z)
    ensures Means(w, CHANGED, env, Some((Flag(BigEnough(Num(z), Cur(w, id))), env)))
  {
    CalledIs(env, id, z);
    CalledSetting(w, env, id, h, z);
    ChangedArguments(w, env, id, h, z);
    ChangeIsDefined(w, env, id, h);
    hide Get, Means, Setting, Called, BigEnough, Define, Enter, Leave;
    MeansChangeBody(w, Called(env, id, z), id, h, z);
    MeansCall2(w, Sym("change_big_enough"), "change_big_enough", Token("symbol", Text("guest")), G,
      Token("symbol", Text("new_val")), SIZE, CHANGE_BODY, env, VEntity(id), z,
      Some((Flag(BigEnough(Num(z), Cur(w, id))), Called(env, id, z))));
  }

  lemma ChangeIsDefined(w: World, env: Env, id: nat, h: Value)
    requires Setting(w, env, id, h)
    ensures Visible(w, env, "change_big_enough") && Visible(w, env, "let") && BuiltinOf("change_big_enough") == None
    ensures "change_big_enough" in env.funcs
    ensures env.funcs["change_big_enough"] == (List([G, Sym("new_val")]), CHANGE_BODY)
  {
    SettingIsScoped(w, env, id, h);
    assert FunctionsSet(env.funcs);
    NotBuiltin("change_big_enough");
    hide Setting, Get, Scoped, BuiltinOf;
    LetIsVisible(w, env);
    ChangeIsVisible(w, env);
  }

  lemma LetIsVisible(w: World, env: Env)
    requires Scoped(env.stack)
    ensures Visible(w, env, "let")
  {
    GetCalled(w, env.stack, "let");
  }

  lemma ChangeIsVisible(w: World, env: Env)
    requires Scoped(env.stack)
    ensures Visible(w, env, "change_big_enough")
  {
    hide Get, Scoped;
    GetCalled(w, env.stack, "change_big_enough");
  }

  /** No built-in has so long a name. */
  lemma NotBuiltin(x: string)
    requires |x| > 6
    ensures BuiltinOf(x) == None
  {
  }

  lemma ChangedArguments(w: World, env: Env, id: nat, h: Value, z: Value)
    requires Setting(w, env, id, h) && "balloon_size" in env.stack[0] && env.stack[0]["balloon_size"] == z
    ensures Means(w, G, Enter(env), Some((VEntity(id), Enter(env))))
    ensures var e := Define(Enter(env), "guest", VEntity(id)); Means(w, SIZE, e, Some((z, e)))
  {
    CalledIs(env, id, z);
    SettingIsScoped(w, env, id, h);
    assert env.stack[0]["guest"] == VEntity(id);
    Plain();
    var e := Define(Enter(env), "guest", VEntity(id));
    assert "balloon_size" != "guest";
    hide Get, Setting, Scoped, DotFree, Define;
    GetLocal(w, env.stack, "guest");
    GetLocal(w, env.stack, "balloon_size");
    GetPast(w, map[], env.stack, "guest");
    GetPast(w, map["guest" := VEntity(id)], env.stack, "balloon_size");
    MeansSymbol(w, "guest", Enter(env));
    MeansSymbol(w, "balloon_size", e);
  }

  // ---------------------------------------------------------------- setting the target

  function Written(env: Env, id: nat, z: Value): Env {
    env.(log := env.log + [Write(id, VStr("balloon_target"), z)])
  }

  /** `(guest.Control "balloon_target" balloon_size)` */
  lemma MeansControl(w: World, env: Env, id: nat, h: Value, z: Value)
    requires Setting(w, env, id, h)
    requires "balloon_size" in env.stack[0] && env.stack[0]["balloon_size"] == z
    ensures Means(w, CONTROL, env, Some((VNone, Written(env, id, z))))
  {
    GetControl(w, env, id, h);
    SettingIsScoped(w, env, id, h);
    ControlApplies(w, env, id, z);
    hide Get, Setting, Scoped, Means, MeansAll;
    ControlArguments(w, env, z);
    MeansMethod(w, Sym("guest.Control"), "guest.Control", [Quoted("balloon_target"), SIZE], env, VMethod(id, "Control"),
      Some([VStr("balloon_target"), z]));
  }

  lemma ControlArguments(w: World, env: Env, z: Value)
    requires env.stack != [] && "balloon_size" in env.stack[0] && env.stack[0]["balloon_size"] == z
    ensures MeansAll(w, [Quoted("balloon_target"), SIZE], env, Some(([VStr("balloon_target"), z], env)))
  {
    Plain();
    hide Get, Scoped, DotFree;
    MeansLocal(w, env, "balloon_size");
    MeansQuoted(w, "balloon_target", env);
    hide Means, MeansAll;
    MeansPair(w, env, Quoted("balloon_target"), SIZE, VStr("balloon_target"), z);
  }

  lemma MeansPair(w: World, env: Env, a: Code, b: Code, x: Value, y: Value)
    requires Means(w, a, env, Some((x, env))) && Means(w, b, env, Some((y, env)))
    ensures MeansAll(w, [a, b], env, Some(([x, y], env)))
  {
    MeansNone(w, env);
    hide Means, MeansAll;
    MeansSnoc(w, [], a, env, [], env, Some((x, env)));
    assert [] + [a] == [a] && [] + [x] == [x];
    MeansSnoc(w, [a], b, env, [x], env, Some((y, env)));
    assert [a] + [b] == [a, b] && [x] + [y] == [x, y];
  }

  lemma ControlApplies(w: World, env: Env, id: nat, z: Value)
    ensures Applied(w, VMethod(id, "Control"), [VStr("balloon_target"), z], env) == Some((VNone, Written(env, id, z)))
  {
  }

  // ---------------------------------------------------------------- the proposed size

  function Percent(grow: bool): string {
    if grow then "min_guest_free_percent" else "guest_free_percent"
  }

  /** The steps both functions have in common. */
  function Common(grow: bool): seq<Code> {
    [DefVarOf("guest_used_mem", USED), DefVarOf("balloon_min", MinWith(Percent(grow))),
     DefVarOf("balloon_size", SizeCode(grow)), RAISE_TO_MIN]
  }

  ghost predicate OnlyLocals(env: Env, after: Env) {
    |after.stack| == |env.stack| >= 1 && after.stack[1..] == env.stack[1..] && after.funcs == env.funcs &&
      after.log == env.log
  }

  /** The share of free memory the guest is to have is known. */
  ghost predicate PercentIs(env: Env, grow: bool, p: Value) {
    if grow then p == VFloat(0.20) else
      env.stack != [] && "guest_free_percent" in env.stack[0] && env.stack[0]["guest_free_percent"] == p && Number(p)
  }

  lemma MeansPercent(w: World, env: Env, id: nat, h: Value, grow: bool, p: Value)
    requires Setting(w, env, id, h) && PercentIs(env, grow, p)
    ensures Means(w, Sym(Percent(grow)), env, Some((p, env)))
  {
    if grow {
      MeansMinFree(w, env, id, h);
    } else {
      Plain();
      hide DotFree;
      MeansLocal(w, env, "guest_free_percent");
    }
  }

  /** One variable more; the others keep their values. */
  ghost predicate Added(env: Env, x: string, v: Value, after: Env) {
    env.stack != [] && after == env.(stack := [env.stack[0][x := v]] + env.stack[1..])
  }

  lemma StepUsed(w: World, env: Env, id: nat, h: Value) returns (u: Option<Value>, after: Env)
    requires Setting(w, env, id, h) && IsGuest(w, id) && "guest_used_mem" !in env.stack[0]
    ensures u.Some? <==> Used(w, id).Some?
    ensures u.None? ==> Means(w, DefVarOf("guest_used_mem", USED), env, None)
    ensures u.Some? ==> Means(w, DefVarOf("guest_used_mem", USED), env, Some((u.value, after)))
    ensures u.Some? ==> Number(u.value) && Num(u.value) == Used(w, id).value
    ensures u.Some? ==> Setting(w, after, id, h) && Added(env, "guest_used_mem", u.value, after)
  {
    hide Means, Used, IsGuest;
    u := MeansUsed(w, env, id, h);
    MeansDefVarOf(w, env, id, h, "guest_used_mem", USED, u);
    hide Setting;
    after := if u.Some? then Define(env, "guest_used_mem", u.value) else env;
  }

  lemma StepMin(w: World, env: Env, id: nat, h: Value, grow: bool, p: Value, u: Value) returns (b: Value, after: Env)
    requires Setting(w, env, id, h) && IsGuest(w, id) && "balloon_min" !in env.stack[0]
    requires PercentIs(env, grow, p) && "guest_used_mem" in env.stack[0] && env.stack[0]["guest_used_mem"] == u
    requires Number(u)
    ensures Means(w, DefVarOf("balloon_min", MinWith(Percent(grow))), env, Some((b, after)))
    ensures Number(b) && Number(p) && Num(b) == Larger(Least(w, id), Num(u) + Num(p) * Cur(w, id))
    ensures Setting(w, after, id, h) && Added(env, "balloon_min", b, after)
  {
    MeansPercent(w, env, id, h, grow, p);
    hide Means, IsGuest, Percent;
    b := MeansMinWith(w, env, id, h, Percent(grow), p, u);
    MeansDefVarOf(w, env, id, h, "balloon_min", MinWith(Percent(grow)), Some(b));
    hide Setting;
    after := Define(env, "balloon_min", b);
  }

  lemma StepSize(w: World, env: Env, id: nat, h: Value, grow: bool) returns (z: Value, after: Env)
    requires Setting(w, env, id, h) && IsGuest(w, id) && "balloon_size" !in env.stack[0]
    ensures Means(w, DefVarOf("balloon_size", SizeCode(grow)), env, Some((z, after)))
    ensures Number(z) && Num(z) == Cur(w, id) * (if grow then 1.05 else 0.95)
    ensures Setting(w, after, id, h) && Added(env, "balloon_size", z, after)
  {
    hide Means, IsGuest, SizeCode;
    z := MeansSize(w, env, id, h, grow);
    MeansDefVarOf(w, env, id, h, "balloon_size", SizeCode(grow), Some(z));
    hide Setting;
    after := Define(env, "balloon_size", z);
  }

  /** The size is raised to the minimum if it is below. */
  lemma StepRaise(w: World, env: Env, id: nat, h: Value, z: Value, b: Value) returns (v: Value, y: Value)
    requires Setting(w, env, id, h) && Number(z) && Number(b)
    requires "balloon_size" in env.stack[0] && env.stack[0]["balloon_size"] == z
    requires "balloon_min" in env.stack[0] && env.stack[0]["balloon_min"] == b
    ensures Means(w, RAISE_TO_MIN, env, Some((v, Resized(env, y)))) && Number(y) && Num(y) == Larger(Num(z), Num(b))
    ensures Setting(w, Resized(env, y), id, h) && Resized(env, y).stack[0]["balloon_size"] == y
  {
    SettingIsScoped(w, env, id, h);
    Plain();
    CallsLt();
    hide DotFree, Means, Setting, Calls;
    MeansLocal(w, env, "balloon_min");
    v, y := MeansBoundSize(w, env, id, h, Op("<"), "lt", Lt, Sym("balloon_min"), b);
  }

  /** What the common steps compute. */
  function Proposed(w: World, id: nat, grow: bool, p: real): real
    requires IsGuest(w, id) && Used(w, id).Some?
  {
    Larger(Cur(w, id) * (if grow then 1.05 else 0.95), Larger(Least(w, id), Used(w, id).value + p * Cur(w, id)))
  }

  lemma ProposedIs(w: World, id: nat, grow: bool, p: Value, u: Value, b: Value, z: Value, y: Value)
    requires IsGuest(w, id) && Used(w, id).Some? && Number(p) && Number(u) && Number(b) && Number(z) && Number(y)
    requires Num(u) == Used(w, id).value && Num(b) == Larger(Least(w, id), Num(u) + Num(p) * Cur(w, id))
    requires Num(z) == Cur(w, id) * (if grow then 1.05 else 0.95) && Num(y) == Larger(Num(z), Num(b))
    ensures Num(y) == Proposed(w, id, grow, Num(p))
  {
    hide Num, Number, IsGuest, Used, Least, Cur;
  }

  lemma Names()
    ensures "guest_used_mem" != "balloon_min" && "guest_used_mem" != "balloon_size" && "balloon_min" != "balloon_size"
    ensures "guest_free_percent" != "guest_used_mem" && "guest_free_percent" != "balloon_min"
    ensures "guest_free_percent" != "balloon_size"
    ensures "guest" != "guest_used_mem" && "guest" != "balloon_min" && "guest" != "balloon_size"
    ensures "guest" != "guest_free_percent"
  {
  }

  ghost predicate NoLocalsYet(env: Env) {
    env.stack != [] && "guest_used_mem" !in env.stack[0] && "balloon_min" !in env.stack[0] &&
      "balloon_size" !in env.stack[0]
  }

  lemma MeansCommon(w: World, env: Env, id: nat, h: Value, grow: bool, p: Value) returns (vs: seq<Value>, after: Env)
    requires Setting(w, env, id, h) && IsGuest(w, id) && NoLocalsYet(env) && PercentIs(env, grow, p)
    requires Used(w, id).Some?
    ensures MeansAll(w, Common(grow), env, Some((vs, after)))
    ensures Setting(w, after, id, h) && OnlyLocals(env, after) && "balloon_size" in after.stack[0]
    ensures Number(after.stack[0]["balloon_size"]) && Number(p)
    ensures Num(after.stack[0]["balloon_size"]) == Proposed(w, id, grow, Num(p))
  {
    Names();
    MeansNone(w, env);
    hide Means, MeansAll, Setting, IsGuest, Used, Least, Cur, Percent, SizeCode, Num, Number, Larger;
    var u, e1 := StepUsed(w, env, id, h);
    var b, e2 := StepMin(w, e1, id, h, grow, p, u.value);
    var z, e3 := StepSize(w, e2, id, h, grow);
    var v, y := StepRaise(w, e3, id, h, z, b);
    after := Resized(e3, y);
    ProposedIs(w, id, grow, p, u.value, b, z, y);
    vs := FourSteps(w, env, Common(grow), u.value, e1, b, e2, z, e3, v, after);
  }

  lemma FourSteps(w: World, env: Env, codes: seq<Code>, v1: Value, e1: Env, v2: Value, e2: Env, v3: Value, e3: Env,
                  v4: Value, e4: Env)
    returns (vs: seq<Value>)
    requires |codes| == 4 && Means(w, codes[0], env, Some((v1, e1))) && Means(w, codes[1], e1, Some((v2, e2)))
    requires Means(w, codes[2], e2, Some((v3, e3))) && Means(w, codes[3], e3, Some((v4, e4)))
    requires e1.log == e2.log == e3.log == env.log
    ensures MeansAll(w, codes, env, Some((vs, e4)))
  {
    MeansNone(w, env);
    hide Means, MeansAll;
    MeansSnoc(w, [], codes[0], env, [], env, Some((v1, e1)));
    MeansSnoc(w, [] + [codes[0]], codes[1], env, [] + [v1], e1, Some((v2, e2)));
    MeansSnoc(w, [] + [codes[0]] + [codes[1]], codes[2], env, [] + [v1] + [v2], e2, Some((v3, e3)));
    MeansSnoc(w, [] + [codes[0]] + [codes[1]] + [codes[2]], codes[3], env, [] + [v1] + [v2] + [v3], e3, Some((v4, e4)));
    assert [] + [codes[0]] + [codes[1]] + [codes[2]] + [codes[3]] == codes;
    vs := [] + [v1] + [v2] + [v3] + [v4];
  }

  // ---------------------------------------------------------------- the two functions

  /** What a guest function leaves behind: its caller's scopes and the functions as they
      were, and at most one write, of the target. */
  ghost predicate Targeted(env: Env, after: Env, id: nat, target: Option<real>) {
    && |after.stack| == |env.stack| >= 1 && after.stack[1..] == env.stack[1..] && after.funcs == env.funcs
    && (if target.None? then after.log == env.log
        else exists v :: IsTarget(v, target.value) && after.log == env.log + [Write(id, VStr("balloon_target"), v)])
  }

  ghost predicate IsTarget(v: Value, t: real) {
    Number(v) && Num(v) == t
  }

  /** `(if c (guest.Control "balloon_target" balloon_size) 0)` */
  lemma MeansFinish(w: World, env: Env, id: nat, h: Value, c: Code, v: Value, z: Value) returns (r: Value, after: Env)
    requires Setting(w, env, id, h) && Means(w, c, env, Some((v, env)))
    requires "balloon_size" in env.stack[0] && env.stack[0]["balloon_size"] == z
    ensures Means(w, IfOf(c, CONTROL, Int(0)), env, Some((r, after)))
    ensures after == if Truthy(v) then Written(env, id, z) else env
  {
    SettingIsScoped(w, env, id, h);
    MeansLiteral(w, env);
    hide Means, Setting, Scoped;
    MeansControl(w, env, id, h, z);
    r := if Truthy(v) then VNone else VInt(0);
    after := if Truthy(v) then Written(env, id, z) else env;
    MeansIfOf(w, env, c, CONTROL, Int(0), v, Some((r, after)));
  }

  const SHRINK_TEST: Code := Two(Sym("and"), Two(Op("<="), SIZE, CUR), CHANGED)

  lemma MeansShrinkTest(w: World, env: Env, id: nat, h: Value, z: Value) returns (v: Value)
    requires Setting(w, env, id, h) && IsGuest(w, id)
    requires "balloon_size" in env.stack[0] && env.stack[0]["balloon_size"] == z && Number(z)
    ensures Means(w, SHRINK_TEST, env, Some((v, env)))
    ensures Truthy(v) <==> Num(z) <= Cur(w, id) && BigEnough(Num(z), Cur(w, id))
  {
    SettingIsScoped(w, env, id, h);
    Plain();
    CallsLte();
    hide Means, Setting, Scoped, Get, DotFree, Calls, BigEnough;
    MeansLocal(w, env, "balloon_size");
    MeansCur(w, env, id, h);
    MeansChanged(w, env, id, h, z);
    var cur := w.attr(VEntity(id), "balloon_cur").value;
    var low, big := VBool(Holds(w, Lte, z, cur)), Flag(BigEnough(Num(z), Cur(w, id)));
    MeansTest(w, env, Op("<="), "lte", Lte, SIZE, CUR, z, cur);
    MeansAnd(w, env, Two(Op("<="), SIZE, CUR), CHANGED, low, big);
    v := if Truthy(low) then big else low;
  }

  lemma MeansAnd(w: World, env: Env, a: Code, b: Code, x: Value, y: Value)
    requires Scoped(env.stack) && Means(w, a, env, Some((x, env))) && Means(w, b, env, Some((y, env)))
    ensures Means(w, Two(Sym("and"), a, b), env, Some((if Truthy(x) then y else x, env)))
  {
    CallsAnd();
    GetCalled(w, env.stack, "and");
    hide Means, Scoped, Get, Calls;
    MeansTwo(w, Sym("and"), "and", And, a, b, env, Some(x), Some(y));
  }

  /** The end of `shrink_guest`. */
  lemma ShrinkEnd(w: World, env: Env, id: nat, h: Value, z: Value) returns (r: Value, after: Env)
    requires Setting(w, env, id, h) && IsGuest(w, id)
    requires "balloon_size" in env.stack[0] && env.stack[0]["balloon_size"] == z && Number(z)
    ensures Means(w, IfOf(SHRINK_TEST, CONTROL, Int(0)), env, Some((r, after)))
    ensures after == if Num(z) <= Cur(w, id) && BigEnough(Num(z), Cur(w, id)) then Written(env, id, z) else env
  {
    hide Means, Setting, BigEnough;
    var v := MeansShrinkTest(w, env, id, h, z);
    r, after := MeansFinish(w, env, id, h, SHRINK_TEST, v, z);
  }

  /** The end of `grow_guest`: the size is cut to the maximum, then set if it is a change. */
  lemma GrowEnd(w: World, env: Env, id: nat, h: Value, z: Value) returns (vs: seq<Value>, y: Value, after: Env)
    requires Setting(w, env, id, h) && IsGuest(w, id)
    requires "balloon_size" in env.stack[0] && env.stack[0]["balloon_size"] == z && Number(z)
    ensures MeansAll(w, [CUT_TO_MAX, IfOf(CHANGED, CONTROL, Int(0))], env, Some((vs, after))) && vs != []
    ensures Number(y) && Num(y) == CutTo(Num(z), Most(w, id))
    ensures after == if BigEnough(Num(y), Cur(w, id)) then Written(Resized(env, y), id, y) else Resized(env, y)
  {
    CallsGt();
    MeansMost(w, env, id, h);
    MeansNone(w, env);
    hide Means, MeansAll, Setting, BigEnough, Calls;
    var most := w.attr(VEntity(id), "balloon_max").value;
    var v;
    v, y := MeansBoundSize(w, env, id, h, Op(">"), "gt", Gt, Sym("guest.balloon_max"), most);
    var cut := Resized(env, y);
    MeansChanged(w, cut, id, h, y);
    var r;
    r, after := MeansFinish(w, cut, id, h, CHANGED, Flag(BigEnough(Num(y), Cur(w, id))), y);
    vs := TwoSteps(w, env, CUT_TO_MAX, IfOf(CHANGED, CONTROL, Int(0)), v, cut, r, after);
  }

  lemma TwoSteps(w: World, env: Env, a: Code, b: Code, x: Value, mid: Env, y: Value, after: Env)
    returns (vs: seq<Value>)
    requires Means(w, a, env, Some((x, mid))) && mid.log == env.log && Means(w, b, mid, Some((y, after)))
    ensures MeansAll(w, [a, b], env, Some((vs, after))) && vs != []
  {
    MeansNone(w, env);
    hide Means, MeansAll;
    MeansSnoc(w, [], a, env, [], env, Some((x, mid)));
    MeansSnoc(w, [] + [a], b, env, [] + [x], mid, Some((y, after)));
    assert [] + [a] + [b] == [a, b];
    vs := [] + [x] + [y];
  }

  lemma MeansBlockOf(w: World, items: seq<Code>, env: Env, m: Option<(seq<Value>, Env)>) returns (r: Meaning)
    requires Scoped(env.stack) && items != [] && MeansAll(w, items, env, m)
    ensures Means(w, Block(items), env, r)
    ensures r.Some? ==> m.Some? && r.value.1 == m.value.1
    ensures m.Some? && m.value.0 != [] ==> r.Some?
  {
    GetCalled(w, env.stack, "eval");
    hide Means, MeansAll, Scoped, Get;
    MeansBlock(w, items, env, m);
    r := match m case None => None case Some((vs, after)) => if vs == [] then None else Some((vs[|vs| - 1], after));
  }

  /** If an average cannot be had, the common steps stop at the first. */
  lemma CommonStops(w: World, env: Env, id: nat, h: Value, grow: bool)
    requires Setting(w, env, id, h) && IsGuest(w, id) && NoLocalsYet(env) && Used(w, id).None?
    ensures MeansAll(w, Common(grow), env, None)
  {
    MeansNone(w, env);
    hide Means, MeansAll, Setting, IsGuest, Used;
    var u, e1 := StepUsed(w, env, id, h);
    var first := DefVarOf("guest_used_mem", USED);
    MeansSnoc(w, [], first, env, [], env, None);
    assert [] + [first] == [first] && [first] + Common(grow)[1..] == Common(grow);
    MeansStuck(w, [first], Common(grow)[1..], env);
  }

  lemma StepFree(w: World, env: Env, id: nat, h: Value) returns (p: Value, after: Env)
    requires Setting(w, env, id, h) && NoLocalsYet(env) && "guest_free_percent" !in env.stack[0]
    ensures Means(w, FREE_PERCENT, env, Some((p, after))) && Number(p) && Num(p) == FreePercent(Num(h))
    ensures Setting(w, after, id, h) && OnlyLocals(env, after) && NoLocalsYet(after) && PercentIs(after, false, p)
  {
    Names();
    SettingIsScoped(w, env, id, h);
    hide Means, Setting, Scoped, FreePercent;
    p := MeansFreePercent(w, env, id, h);
    after := Define(env, "guest_free_percent", p);
  }

  const SHRINK_END: Code := IfOf(SHRINK_TEST, CONTROL, Int(0))

  /** Shrinking without the first step. */
  lemma ShrinkRest(w: World, env: Env, id: nat, h: Value, p: Value) returns (m: Option<(seq<Value>, Env)>)
    requires Setting(w, env, id, h) && IsGuest(w, id) && NoLocalsYet(env) && PercentIs(env, false, p)
    requires Num(p) == FreePercent(Num(h))
    ensures MeansAll(w, Common(false) + [SHRINK_END], env, m)
    ensures m.Some? <==> Used(w, id).Some?
    ensures m.Some? ==> m.value.0 != [] && Targeted(env, m.value.1, id, ShrinkTarget(w, id, Num(h)))
  {
    SettingIsScoped(w, env, id, h);
    hide Means, MeansAll, Setting, IsGuest, Scoped, Used, BigEnough, Proposed, FreePercent, Common;
    if Used(w, id).None? {
      CommonStops(w, env, id, h, false);
      MeansStuck(w, Common(false), [SHRINK_END], env);
      m := None;
    } else {
      var vs, mid := MeansCommon(w, env, id, h, false, p);
      var z := mid.stack[0]["balloon_size"];
      var r, after := ShrinkEnd(w, mid, id, h, z);
      MeansSnoc(w, Common(false), SHRINK_END, env, vs, mid, Some((r, after)));
      m := Some((vs + [r], after));
      ShrinkIsTargeted(w, env, mid, after, id, Num(h), z);
    }
  }

  lemma ShrinkIsTargeted(w: World, env: Env, mid: Env, after: Env, id: nat, h: real, z: Value)
    requires IsGuest(w, id) && Used(w, id).Some? && OnlyLocals(env, mid) && Number(z)
    requires Num(z) == Proposed(w, id, false, FreePercent(h))
    requires after == if Num(z) <= Cur(w, id) && BigEnough(Num(z), Cur(w, id)) then Written(mid, id, z) else mid
    ensures Targeted(env, after, id, ShrinkTarget(w, id, h))
  {
    hide IsGuest, Used, BigEnough, Proposed, FreePercent, Cur;
    if ShrinkTarget(w, id, h).Some? {
      assert IsTarget(z, ShrinkTarget(w, id, h).value);
    }
  }

  /** The body of `shrink_guest`, called for a guest. */
  lemma ShrinkMeans(w: World, env: Env, id: nat, h: Value) returns (m: Meaning)
    requires Setting(w, env, id, h) && IsGuest(w, id) && NoLocalsYet(env) && "guest_free_percent" !in env.stack[0]
    ensures Means(w, SHRINK_BODY, env, m)
    ensures m.Some? <==> Used(w, id).Some?
    ensures m.Some? ==> Targeted(env, m.value.1, id, ShrinkTarget(w, id, Num(h)))
  {
    SettingIsScoped(w, env, id, h);
    MeansNone(w, env);
    hide Means, MeansAll, Setting, IsGuest, Scoped, Used, ShrinkTarget, FreePercent;
    var p, mid := StepFree(w, env, id, h);
    MeansSnoc(w, [], FREE_PERCENT, env, [], env, Some((p, mid)));
    assert [] + [FREE_PERCENT] == [FREE_PERCENT];
    var n := ShrinkRest(w, mid, id, h, p);
    MeansAppend(w, [FREE_PERCENT], Common(false) + [SHRINK_END], env, [] + [p], mid, n);
    ShrinkSteps();
    m := MeansBlockOf(w, [FREE_PERCENT] + (Common(false) + [SHRINK_END]), env,
      if n.Some? then Some(([] + [p] + n.value.0, n.value.1)) else None);
  }

  lemma ShrinkSteps()
    ensures SHRINK_BODY == Block([FREE_PERCENT] + (Common(false) + [SHRINK_END]))
  {
  }

  const GROW_END: seq<Code> := [CUT_TO_MAX, IfOf(CHANGED, CONTROL, Int(0))]

  lemma GrowIsTargeted(w: World, env: Env, mid: Env, after: Env, id: nat, z: Value, y: Value)
    requires IsGuest(w, id) && Used(w, id).Some? && OnlyLocals(env, mid) && Cur(w, id) < Most(w, id)
    requires Number(z) && Num(z) == Proposed(w, id, true, 0.20) && Number(y) && Num(y) == CutTo(Num(z), Most(w, id))
    requires after == if BigEnough(Num(y), Cur(w, id)) then Written(Resized(mid, y), id, y) else Resized(mid, y)
    ensures Targeted(env, after, id, GrowTarget(w, id))
  {
    hide IsGuest, Used, BigEnough, Proposed, Cur, Most, CutTo;
    if GrowTarget(w, id).Some? {
      assert IsTarget(y, GrowTarget(w, id).value);
    }
  }

  lemma GrowRest(w: World, env: Env, id: nat, h: Value) returns (m: Option<(seq<Value>, Env)>)
    requires Setting(w, env, id, h) && IsGuest(w, id) && NoLocalsYet(env) && Cur(w, id) < Most(w, id)
    ensures MeansAll(w, Common(true) + GROW_END, env, m)
    ensures m.Some? <==> Used(w, id).Some?
    ensures m.Some? ==> m.value.0 != [] && Targeted(env, m.value.1, id, GrowTarget(w, id))
  {
    hide Means, MeansAll, Setting, IsGuest, Used, BigEnough, Proposed, Common, Cur, Most, CutTo;
    if Used(w, id).None? {
      CommonStops(w, env, id, h, true);
      MeansStuck(w, Common(true), GROW_END, env);
      m := None;
    } else {
      var vs, mid := MeansCommon(w, env, id, h, true, VFloat(0.20));
      var z := mid.stack[0]["balloon_size"];
      var us, y, after := GrowEnd(w, mid, id, h, z);
      MeansAppend(w, Common(true), GROW_END, env, vs, mid, Some((us, after)));
      m := Some((vs + us, after));
      GrowIsTargeted(w, env, mid, after, id, z, y);
    }
  }

  /** The steps of `grow_guest` for a guest that is ballooned. */
  lemma GrowSteps(w: World, env: Env, id: nat, h: Value) returns (m: Meaning)
    requires Setting(w, env, id, h) && IsGuest(w, id) && NoLocalsYet(env) && Cur(w, id) < Most(w, id)
    ensures Means(w, GROW_STEPS, env, m)
    ensures m.Some? <==> Used(w, id).Some?
    ensures m.Some? ==> Targeted(env, m.value.1, id, GrowTarget(w, id))
  {
    SettingIsScoped(w, env, id, h);
    assert GROW_STEPS == Block(Common(true) + GROW_END);
    hide Means, MeansAll, Setting, IsGuest, Scoped, Used, Common, Cur, Most, GrowTarget, Targeted;
    var n := GrowRest(w, env, id, h);
    m := MeansBlockOf(w, Common(true) + GROW_END, env, n);
  }

  /** Whether the function returns: it does unless it needs an average that cannot be had. */
  predicate Answers(w: World, id: nat, shrink: bool)
    requires IsGuest(w, id)
  {
    Used(w, id).Some? || (!shrink && Cur(w, id) >= Most(w, id))
  }

  lemma GrowMeans(w: World, env: Env, id: nat, h: Value) returns (m: Meaning)
    requires Setting(w, env, id, h) && IsGuest(w, id) && NoLocalsYet(env)
    ensures Means(w, GROW_BODY, env, m)
    ensures m.Some? <==> Answers(w, id, false)
    ensures m.Some? ==> Targeted(env, m.value.1, id, GrowTarget(w, id))
  {
    SettingIsScoped(w, env, id, h);
    MeansLiteral(w, env);
    CallsLt();
    MeansNone(w, env);
    hide Means, MeansAll, Setting, IsGuest, Scoped, Used, Calls;
    MeansCur(w, env, id, h);
    MeansMost(w, env, id, h);
    var cur, most := w.attr(VEntity(id), "balloon_cur").value, w.attr(VEntity(id), "balloon_max").value;
    var room := Two(Op("<"), CUR, Sym("guest.balloon_max"));
    MeansTest(w, env, Op("<"), "lt", Lt, CUR, Sym("guest.balloon_max"), cur, most);
    var n: Meaning;
    if Cur(w, id) < Most(w, id) {
      n := GrowSteps(w, env, id, h);
    } else {
      n := Some((VInt(0), env));
    }
    MeansIfOf(w, env, room, GROW_STEPS, Int(0), VBool(Holds(w, Lt, cur, most)), n);
    var step := IfOf(room, GROW_STEPS, Int(0));
    MeansSnoc(w, [], step, env, [], env, n);
    assert [] + [step] == [step];
    m := MeansBlockOf(w, [step], env, if n.Some? then Some(([] + [n.value.0], n.value.1)) else None);
  }
}

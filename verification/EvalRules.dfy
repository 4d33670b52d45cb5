/** Rules for reasoning about programs run by the evaluator: what an expression means in a
    state, given fuel enough. */
module EvalRules {
  import opened Grammar
  import opened Options
  import opened PolicyGrammar
  import opened PolicyValues
  import opened Interp

  /** The value an expression returns and the state after it, or None: it raises an exception
      before anything is written. */
  type Meaning = Option<(Value, Env)>

  ghost predicate Fits(o: Outcome, env: Env, m: Meaning) {
    match o
    case Ret(v, env') => m == Some((v, env'))
    case Raise(env') => m == None && env'.log == env.log
    case Timeout => false
  }

  /** From this fuel on, evaluating `c` in `env` ends, and as the meaning says. */
  ghost predicate MeansFrom(w: World, n: nat, c: Code, env: Env, m: Meaning) {
    forall fuel: nat :: fuel >= n ==> Fits(Eval(w, fuel, c, env), env, m)
  }

  ghost predicate Means(w: World, c: Code, env: Env, m: Meaning) {
    exists n: nat :: MeansFrom(w, n, c, env, m)
  }

  /** The same for expressions evaluated one after another. */
  ghost predicate FitsAll(r: Outcomes, env: Env, m: Option<(seq<Value>, Env)>) {
    match r
    case Rets(vs, env') => m == Some((vs, env'))
    case NoRets(o) => m == None && o.Raise? && o.env.log == env.log
  }

  ghost predicate MeansAllFrom(w: World, n: nat, codes: seq<Code>, env: Env, m: Option<(seq<Value>, Env)>) {
    forall fuel: nat :: fuel >= n ==> FitsAll(EvalAll(w, fuel, codes, env), env, m)
  }

  ghost predicate MeansAll(w: World, codes: seq<Code>, env: Env, m: Option<(seq<Value>, Env)>) {
    exists n: nat :: MeansAllFrom(w, n, codes, env, m)
  }

  /** A fuel from which the meaning holds. */
  lemma FuelFor(w: World, c: Code, env: Env, m: Meaning) returns (n: nat)
    requires Means(w, c, env, m)
    ensures MeansFrom(w, n, c, env, m)
  {
    n :| MeansFrom(w, n, c, env, m);
  }

  lemma FuelForAll(w: World, codes: seq<Code>, env: Env, m: Option<(seq<Value>, Env)>) returns (n: nat)
    requires MeansAll(w, codes, env, m)
    ensures MeansAllFrom(w, n, codes, env, m)
  {
    n :| MeansAllFrom(w, n, codes, env, m);
  }

  lemma MeansFits(w: World, n: nat, c: Code, env: Env, m: Meaning, fuel: nat)
    requires MeansFrom(w, n, c, env, m) && fuel >= n
    ensures Fits(Eval(w, fuel, c, env), env, m)
  {
  }

  lemma MeansAllFits(w: World, n: nat, codes: seq<Code>, env: Env, m: Option<(seq<Value>, Env)>, fuel: nat)
    requires MeansAllFrom(w, n, codes, env, m) && fuel >= n
    ensures FitsAll(EvalAll(w, fuel, codes, env), env, m)
  {
  }

  lemma EndsFrom(w: World, n: nat, c: Code, env: Env, m: Meaning)
    requires forall fuel: nat :: fuel >= n ==> Fits(Eval(w, fuel, c, env), env, m)
    ensures Means(w, c, env, m)
  {
    assert MeansFrom(w, n, c, env, m);
  }

  lemma EndsAllFrom(w: World, n: nat, codes: seq<Code>, env: Env, m: Option<(seq<Value>, Env)>)
    requires forall fuel: nat :: fuel >= n ==> FitsAll(EvalAll(w, fuel, codes, env), env, m)
    ensures MeansAll(w, codes, env, m)
  {
    assert MeansAllFrom(w, n, codes, env, m);
  }

  /** An expression has one meaning. */
  lemma MeaningIsUnique(w: World, c: Code, env: Env, m: Meaning, m': Meaning)
    requires Means(w, c, env, m) && Means(w, c, env, m')
    ensures m == m'
  {
    hide Eval, MeansFrom;
    var i := FuelFor(w, c, env, m);
    var k := FuelFor(w, c, env, m');
    MeansFits(w, i, c, env, m, MoreFuel(i, k));
    MeansFits(w, k, c, env, m', MoreFuel(i, k));
  }

  function MoreFuel(m: nat, n: nat): (r: nat)
    ensures r >= m && r >= n
  {
    if m > n then m else n
  }

  /** An expression that only has a value. */
  function Just(v: Option<Value>, env: Env): Meaning {
    match v case None => None case Some(x) => Some((x, env))
  }

  /** No variable hides the built-in or function of this name. */
  ghost predicate Visible(w: World, env: Env, name: string) {
    Get(w, env.stack, name) == None
  }

  // ---------------------------------------------------------------- atoms

  function Sym(s: string): Code {
    Tok(Token("symbol", Text(s)))
  }

  function Op(s: string): Code {
    Tok(Token("operator", Text(s)))
  }

  function Int(i: int): Code {
    Tok(Token("number", IntLit(i)))
  }

  function Float(r: real): Code {
    Tok(Token("number", FloatLit(r)))
  }

  function Quoted(s: string): Code {
    Tok(Token("string", Text(['"'] + s + ['"'])))
  }

  lemma MeansLiteral(w: World, env: Env)
    ensures forall i :: Means(w, Int(i), env, Some((VInt(i), env)))
    ensures forall r :: Means(w, Float(r), env, Some((VFloat(r), env)))
  {
    forall i
      ensures Means(w, Int(i), env, Some((VInt(i), env)))
    {
      assert MeansFrom(w, 1, Int(i), env, Some((VInt(i), env)));
    }
    forall r
      ensures Means(w, Float(r), env, Some((VFloat(r), env)))
    {
      assert MeansFrom(w, 1, Float(r), env, Some((VFloat(r), env)));
    }
  }

  lemma MeansQuoted(w: World, s: string, env: Env)
    ensures Means(w, Quoted(s), env, Some((VStr(s), env)))
  {
    assert (['"'] + s + ['"'])[1..|s| + 1] == s;
    assert MeansFrom(w, 1, Quoted(s), env, Some((VStr(s), env)));
  }

  lemma MeansSymbol(w: World, s: string, env: Env)
    requires s != "nil"
    ensures Means(w, Sym(s), env, Just(Get(w, env.stack, s), env))
  {
    assert MeansFrom(w, 1, Sym(s), env, Just(Get(w, env.stack, s), env));
  }

  // ---------------------------------------------------------------- argument lists

  lemma Args1(w: World, fuel: nat, types: seq<ArgType>, a: Code, env: Env)
    requires types != []
    ensures EvalArgs(w, fuel, types, [], env) == GotArgs([], env)
    ensures EvalArgs(w, fuel, types, [a], env) == ArgNext(w, fuel, types, [], a, env)
  {
    assert [a][..0] == [];
  }

  lemma Args2(w: World, fuel: nat, types: seq<ArgType>, a: Code, b: Code, env: Env)
    requires types != []
    ensures EvalArgs(w, fuel, types, [a, b], env) ==
              match ArgNext(w, fuel, types, [], a, env)
              case GotArgs(args, env') => ArgNext(w, fuel, types, args, b, env')
              case NoArgs(o) => NoArgs(o)
  {
    Args1(w, fuel, types, a, env);
    assert [a, b][..1] == [a];
  }

  lemma Args3(w: World, fuel: nat, types: seq<ArgType>, a: Code, b: Code, c: Code, env: Env)
    requires types != []
    ensures EvalArgs(w, fuel, types, [a, b, c], env) ==
              match EvalArgs(w, fuel, types, [a, b], env)
              case GotArgs(args, env') => ArgNext(w, fuel, types, args, c, env')
              case NoArgs(o) => NoArgs(o)
    ensures EvalArgs(w, fuel, types, [a, b], env).GotArgs? ==> |EvalArgs(w, fuel, types, [a, b], env).args| == 2
  {
    Args2(w, fuel, types, a, b, env);
    assert [a, b, c][..2] == [a, b];
  }

  function ArgNext(w: World, fuel: nat, types: seq<ArgType>, args: seq<Arg>, c: Code, env: Env): Args
    requires types != []
  {
    match TypeOf(types, |args|)
    case TCode => GotArgs(args + [ACode(c)], env)
    case TSymbol =>
      if c.Tok? && c.token.kind == "symbol" then GotArgs(args + [ASym(TextOf(c.token))], env) else NoArgs(Raise(env))
    case _ =>
      match Eval(w, fuel, c, env)
      case Ret(v, env') => GotArgs(args + [AVal(v)], env')
      case Raise(env') => NoArgs(Raise(env'))
      case Timeout => NoArgs(Timeout)
  }

  /** A call of a visible built-in. */
  lemma BuiltinCall(w: World, fuel: nat, node: Code, name: string, b: Builtin, args: seq<Code>, env: Env)
    requires fuel > 0 && Head(node) == Some(name) && BuiltinOf(name) == Some(b) && Visible(w, env, name)
    requires ArityOk(Doc(b), |args|)
    ensures Eval(w, fuel, List([node] + args), env) ==
              match EvalArgs(w, fuel - 1, Doc(b), args, env)
              case GotArgs(got, env') => RunBuiltin(w, fuel - 1, b, got, env')
              case NoArgs(o) => o
  {
    assert ([node] + args)[1..] == args;
  }

  // ---------------------------------------------------------------- computing built-ins

  ghost predicate TwoArguments(b: Builtin) {
    b.Binary? || b.Test? || b == Max || b == And
  }

  function ComputeTwo(w: World, b: Builtin, x: Value, y: Value): Option<Value>
    requires TwoArguments(b)
  {
    match b
    case Binary(op) => Calculate(w, op, x, y)
    case Test(cmp) => Some(VBool(Holds(w, cmp, x, y)))
    case Max => Some(if Holds(w, Gt, y, x) then y else x)
    case And => Some(if Truthy(x) then y else x)
  }

  function AsRun(v: Option<Value>, env: Env): Outcome {
    match v case Some(x) => Ret(x, env) case None => Raise(env)
  }

  lemma TwoValues(b: Builtin)
    requires TwoArguments(b)
    ensures Doc(b) != [] && TypeOf(Doc(b), 0) == TValue && TypeOf(Doc(b), 1) == TValue && ArityOk(Doc(b), 2)
  {
  }

  lemma PairOf(x: Value, y: Value)
    ensures [x, y][..1] == [x] && [x, y][1..] == [y]
    ensures AllVals([AVal(x), AVal(y)]) && ValsOf([AVal(x), AVal(y)]) == [x, y]
  {
  }

  lemma ComputesTwo(w: World, fuel: nat, b: Builtin, x: Value, y: Value, env: Env)
    requires TwoArguments(b)
    ensures RunBuiltin(w, fuel, b, [AVal(x), AVal(y)], env) == AsRun(ComputeTwo(w, b, x, y), env)
  {
    PairOf(x, y);
    hide ValsOf;
    assert RunBuiltin(w, fuel, b, [AVal(x), AVal(y)], env) == Compute(w, b, [AVal(x), AVal(y)], env);
    match b
    case And => assert AndOf([x, y]) == if Truthy(x) then AndOf([y]) else x;
    case Max => assert MaxOf(w, [x, y]) == if Holds(w, Gt, y, MaxOf(w, [x])) then y else MaxOf(w, [x]);
    case _ =>
  }

  /** Two arguments of type value, the outcomes of evaluating them given. */
  lemma TwoArgs(w: World, fuel: nat, types: seq<ArgType>, a: Code, c: Code, env: Env)
    requires types != [] && TypeOf(types, 0) == TValue && TypeOf(types, 1) == TValue
    ensures EvalArgs(w, fuel, types, [a, c], env) ==
              var o := Eval(w, fuel, a, env);
              if !o.Ret? then NoArgs(o) else
                var p := Eval(w, fuel, c, o.env);
                if !p.Ret? then NoArgs(p) else GotArgs([AVal(o.v), AVal(p.v)], p.env)
  {
    hide Eval, EvalArgs;
    Args2(w, fuel, types, a, c, env);
    assert forall x :: [] + [AVal(x)] == [AVal(x)];
    assert forall x, y :: [AVal(x)] + [AVal(y)] == [AVal(x), AVal(y)];
  }

  /** Both arguments are evaluated, in order, then combined. */
  lemma MeansTwo(w: World, node: Code, name: string, b: Builtin, a: Code, c: Code, env: Env, x: Option<Value>,
                 y: Option<Value>)
    requires Head(node) == Some(name) && BuiltinOf(name) == Some(b) && Visible(w, env, name) && TwoArguments(b)
    requires Means(w, a, env, Just(x, env)) && Means(w, c, env, Just(y, env))
    ensures Means(w, List([node, a, c]), env, if x.Some? && y.Some? then Just(ComputeTwo(w, b, x.value, y.value), env)
            else None)
  {
    hide BuiltinOf, Get, Head, ComputeTwo, Eval, MeansFrom;
    var m := if x.Some? && y.Some? then Just(ComputeTwo(w, b, x.value, y.value), env) else None;
    var i := FuelFor(w, a, env, Just(x, env));
    var k := FuelFor(w, c, env, Just(y, env));
    var n := MoreFuel(i, k) + 1;
    forall fuel: nat | fuel >= n
      ensures Fits(Eval(w, fuel, List([node, a, c]), env), env, m)
    {
      TwoOutcome(w, fuel, node, name, b, a, c, env);
      MeansFits(w, i, a, env, Just(x, env), fuel - 1);
      MeansFits(w, k, c, env, Just(y, env), fuel - 1);
    }
    EndsFrom(w, n, List([node, a, c]), env, m);
  }

  lemma TwoOutcome(w: World, fuel: nat, node: Code, name: string, b: Builtin, a: Code, c: Code, env: Env)
    requires fuel > 0 && Head(node) == Some(name) && BuiltinOf(name) == Some(b) && Visible(w, env, name)
    requires TwoArguments(b)
    ensures Eval(w, fuel, List([node, a, c]), env) ==
              var o := Eval(w, fuel - 1, a, env);
              if !o.Ret? then o else
                var p := Eval(w, fuel - 1, c, o.env);
                if !p.Ret? then p else AsRun(ComputeTwo(w, b, o.v, p.v), p.env)
  {
    hide *;
    TwoValues(b);
    TwoCall(w, fuel, node, name, b, a, c, env);
    TwoArgs(w, fuel - 1, Doc(b), a, c, env);
    var o := Eval(w, fuel - 1, a, env);
    if o.Ret? {
      var p := Eval(w, fuel - 1, c, o.env);
      if p.Ret? {
        ComputesTwo(w, fuel - 1, b, o.v, p.v, p.env);
      }
    }
  }

  lemma TwoCall(w: World, fuel: nat, node: Code, name: string, b: Builtin, a: Code, c: Code, env: Env)
    requires fuel > 0 && Head(node) == Some(name) && BuiltinOf(name) == Some(b) && Visible(w, env, name)
    requires TwoArguments(b)
    ensures Eval(w, fuel, List([node, a, c]), env) ==
              match EvalArgs(w, fuel - 1, Doc(b), [a, c], env)
              case GotArgs(got, env') => RunBuiltin(w, fuel - 1, b, got, env')
              case NoArgs(o) => o
  {
    hide *;
    TwoValues(b);
    assert |[a, c]| == 2;
    assert [node] + [a, c] == [node, a, c];
    BuiltinCall(w, fuel, node, name, b, [a, c], env);
  }

  // ---------------------------------------------------------------- variables and branches

  /** A symbol and a value, the outcome of evaluating it given. */
  lemma SymbolArg(w: World, fuel: nat, types: seq<ArgType>, x: Token, e: Code, env: Env)
    requires types == [TSymbol, TValue] && x.kind == "symbol"
    ensures EvalArgs(w, fuel, types, [Tok(x), e], env) ==
              var o := Eval(w, fuel, e, env);
              if o.Ret? then GotArgs([ASym(TextOf(x)), AVal(o.v)], o.env) else NoArgs(o)
  {
    hide Eval, EvalArgs;
    Args2(w, fuel, types, Tok(x), e, env);
    assert [] + [ASym(TextOf(x))] == [ASym(TextOf(x))];
    assert forall y :: [ASym(TextOf(x))] + [AVal(y)] == [ASym(TextOf(x)), AVal(y)];
  }

  lemma MeansDefVar(w: World, node: Code, x: Token, e: Code, env: Env, v: Option<Value>)
    requires Head(node) == Some("defvar") && Visible(w, env, "defvar") && env.stack != [] && x.kind == "symbol"
    requires Means(w, e, env, Just(v, env))
    ensures Means(w, List([node, Tok(x), e]), env, Defined(env, TextOf(x), v))
  {
    hide Get, Head, Eval, Define, MeansFrom;
    var n := FuelFor(w, e, env, Just(v, env));
    forall fuel: nat | fuel >= n + 1
      ensures Fits(Eval(w, fuel, List([node, Tok(x), e]), env), env, Defined(env, TextOf(x), v))
    {
      DefVarOutcome(w, fuel, node, x, e, env);
      MeansFits(w, n, e, env, Just(v, env), fuel - 1);
    }
    EndsFrom(w, n + 1, List([node, Tok(x), e]), env, Defined(env, TextOf(x), v));
  }

  lemma DefVarOutcome(w: World, fuel: nat, node: Code, x: Token, e: Code, env: Env)
    requires fuel > 0 && Head(node) == Some("defvar") && Visible(w, env, "defvar") && x.kind == "symbol"
    ensures Eval(w, fuel, List([node, Tok(x), e]), env) ==
              var o := Eval(w, fuel - 1, e, env);
              if !o.Ret? then o else if o.env.stack == [] then Raise(o.env) else
                var d := Defined(o.env, TextOf(x), Some(o.v)).value;
                Ret(d.0, d.1)
  {
    hide EvalArgs, Get, Head, TypeOf, Eval, Define;
    assert BuiltinOf("defvar") == Some(DefVar);
    assert [node, Tok(x), e] == [node] + [Tok(x), e];
    BuiltinCall(w, fuel, node, "defvar", DefVar, [Tok(x), e], env);
    SymbolArg(w, fuel - 1, Doc(DefVar), x, e, env);
  }

  /** A variable defined in the innermost scope, unless it is there. */
  function Defined(env: Env, x: string, v: Option<Value>): Meaning
    requires env.stack != []
  {
    if v.None? then None else
      var after := Define(env, x, v.value);
      Some((after.stack[0][x], after))
  }

  lemma MeansSet(w: World, node: Code, x: Token, e: Code, env: Env, v: Option<Value>)
    requires Head(node) == Some("set") && Visible(w, env, "set") && x.kind == "symbol"
    requires Means(w, e, env, Just(v, env)) && (v.Some? ==> Assign(env.stack, TextOf(x), v.value).Some?)
    ensures Means(w, List([node, Tok(x), e]), env,
                  if v.Some? then Some((v.value, env.(stack := Assign(env.stack, TextOf(x), v.value).value))) else None)
  {
    hide Get, Head, Eval, Assign, MeansFrom;
    var m := if v.Some? then Some((v.value, env.(stack := Assign(env.stack, TextOf(x), v.value).value))) else None;
    var n := FuelFor(w, e, env, Just(v, env));
    forall fuel: nat | fuel >= n + 1
      ensures Fits(Eval(w, fuel, List([node, Tok(x), e]), env), env, m)
    {
      SetOutcome(w, fuel, node, x, e, env);
      MeansFits(w, n, e, env, Just(v, env), fuel - 1);
    }
    EndsFrom(w, n + 1, List([node, Tok(x), e]), env, m);
  }

  lemma SetOutcome(w: World, fuel: nat, node: Code, x: Token, e: Code, env: Env)
    requires fuel > 0 && Head(node) == Some("set") && Visible(w, env, "set") && x.kind == "symbol"
    ensures Eval(w, fuel, List([node, Tok(x), e]), env) ==
              var o := Eval(w, fuel - 1, e, env);
              if !o.Ret? then o else match Assign(o.env.stack, TextOf(x), o.v)
                case Some(stack) => Ret(o.v, o.env.(stack := stack))
                case None => Raise(o.env)
  {
    hide EvalArgs, Get, Head, TypeOf, Eval, Assign;
    assert BuiltinOf("set") == Some(SetVar);
    assert [node, Tok(x), e] == [node] + [Tok(x), e];
    BuiltinCall(w, fuel, node, "set", SetVar, [Tok(x), e], env);
    SymbolArg(w, fuel - 1, Doc(SetVar), x, e, env);
  }

  lemma MeansIf(w: World, node: Code, c: Code, yes: Code, no: Code, env: Env, v: Option<Value>, m: Meaning)
    requires Head(node) == Some("if") && Visible(w, env, "if")
    requires Means(w, c, env, Just(v, env))
    requires v.Some? ==> Means(w, if Truthy(v.value) then yes else no, env, m)
    ensures Means(w, List([node, c, yes, no]), env, if v.Some? then m else None)
  {
    hide Get, Head, Eval, MeansFrom;
    var r := if v.Some? then m else None;
    var i := FuelFor(w, c, env, Just(v, env));
    var k := 0;
    if v.Some? {
      k := FuelFor(w, if Truthy(v.value) then yes else no, env, m);
    }
    var n := MoreFuel(i, k) + 1;
    forall fuel: nat | fuel >= n
      ensures Fits(Eval(w, fuel, List([node, c, yes, no]), env), env, r)
    {
      IfOutcome(w, fuel, node, c, yes, no, env);
      MeansFits(w, i, c, env, Just(v, env), fuel - 1);
      if v.Some? {
        MeansFits(w, k, if Truthy(v.value) then yes else no, env, m, fuel - 1);
      }
    }
    EndsFrom(w, n, List([node, c, yes, no]), env, r);
  }

  lemma IfOutcome(w: World, fuel: nat, node: Code, c: Code, yes: Code, no: Code, env: Env)
    requires fuel > 0 && Head(node) == Some("if") && Visible(w, env, "if")
    ensures Eval(w, fuel, List([node, c, yes, no]), env) ==
              var o := Eval(w, fuel - 1, c, env);
              if o.Ret? then Eval(w, fuel - 1, if Truthy(o.v) then yes else no, o.env) else o
  {
    hide EvalArgs, Get, Head, TypeOf, Eval;
    assert BuiltinOf("if") == Some(If);
    assert [node, c, yes, no] == [node] + [c, yes, no];
    BuiltinCall(w, fuel, node, "if", If, [c, yes, no], env);
    IfArgs(w, fuel - 1, c, yes, no, env);
  }

  lemma IfArgs(w: World, fuel: nat, c: Code, yes: Code, no: Code, env: Env)
    ensures EvalArgs(w, fuel, Doc(If), [c, yes, no], env) ==
              var o := Eval(w, fuel, c, env);
              if o.Ret? then GotArgs([AVal(o.v), ACode(yes), ACode(no)], o.env) else NoArgs(o)
  {
    hide Eval, EvalArgs;
    Args3(w, fuel, Doc(If), c, yes, no, env);
    Args2(w, fuel, Doc(If), c, yes, env);
    assert forall x :: [] + [AVal(x)] == [AVal(x)];
    assert forall x :: [AVal(x)] + [ACode(yes)] + [ACode(no)] == [AVal(x), ACode(yes), ACode(no)];
  }

  /** `(def name params body)` */
  lemma MeansDef(w: World, node: Code, x: Token, params: Code, body: Code, env: Env)
    requires Head(node) == Some("def") && Visible(w, env, "def") && x.kind == "symbol"
    ensures Means(w, List([node, Tok(x), params, body]), env,
                  Some((VStr(TextOf(x)), env.(funcs := env.funcs[TextOf(x) := (params, body)]))))
  {
    hide Get, Head, Eval, EvalArgs;
    var m := Some((VStr(TextOf(x)), env.(funcs := env.funcs[TextOf(x) := (params, body)])));
    assert BuiltinOf("def") == Some(Def);
    forall fuel: nat | fuel >= 1
      ensures Fits(Eval(w, fuel, List([node, Tok(x), params, body]), env), env, m)
    {
      assert [node, Tok(x), params, body] == [node] + [Tok(x), params, body];
      BuiltinCall(w, fuel, node, "def", Def, [Tok(x), params, body], env);
      DefArgs(w, fuel - 1, x, params, body, env);
    }
    EndsFrom(w, 1, List([node, Tok(x), params, body]), env, m);
  }

  lemma DefArgs(w: World, fuel: nat, x: Token, params: Code, body: Code, env: Env)
    requires x.kind == "symbol"
    ensures EvalArgs(w, fuel, Doc(Def), [Tok(x), params, body], env) ==
            GotArgs([ASym(TextOf(x)), ACode(params), ACode(body)], env)
  {
    hide Eval, EvalArgs;
    Args3(w, fuel, Doc(Def), Tok(x), params, body, env);
    Args2(w, fuel, Doc(Def), Tok(x), params, env);
    assert [] + [ASym(TextOf(x))] + [ACode(params)] + [ACode(body)] == [ASym(TextOf(x)), ACode(params), ACode(body)];
  }

  /** `(with list item body)` */
  lemma WithOutcome(w: World, fuel: nat, node: Code, x: Token, y: Token, body: Code, env: Env, items: seq<Value>)
    requires fuel > 0 && Head(node) == Some("with") && Visible(w, env, "with") && x.kind == "symbol"
    requires y.kind == "symbol"
    requires Get(w, env.stack, TextOf(x)) == Some(VList(items))
    ensures Eval(w, fuel, List([node, Tok(x), Tok(y), body]), env) ==
              match Each(w, fuel - 1, items, TextOf(y), body, env)
              case Rets(vs, env') => Ret(VList(vs), env')
              case NoRets(o) => o
  {
    hide *;
    WithIsBuiltin();
    WithRuns(w, fuel - 1, x, y, body, env, items);
    assert |[Tok(x), Tok(y), body]| == 3;
    assert [node] + [Tok(x), Tok(y), body] == [node, Tok(x), Tok(y), body];
    BuiltinCall(w, fuel, node, "with", With, [Tok(x), Tok(y), body], env);
    WithArgs(w, fuel - 1, x, y, body, env);
  }

  lemma WithIsBuiltin()
    ensures BuiltinOf("with") == Some(With) && Doc(With) != [] && ArityOk(Doc(With), 3)
  {
  }

  lemma WithRuns(w: World, fuel: nat, x: Token, y: Token, body: Code, env: Env, items: seq<Value>)
    requires Get(w, env.stack, TextOf(x)) == Some(VList(items))
    ensures RunBuiltin(w, fuel, With, [ASym(TextOf(x)), ASym(TextOf(y)), ACode(body)], env) ==
              match Each(w, fuel, items, TextOf(y), body, env)
              case Rets(vs, env') => Ret(VList(vs), env')
              case NoRets(o) => o
  {
    hide Get, Eval, Each;
  }

  lemma EachNone(w: World, fuel: nat, name: string, c: Code, env: Env)
    ensures Each(w, fuel, [], name, c, env) == Rets([], env)
  {
  }

  lemma EachLast(w: World, fuel: nat, items: seq<Value>, name: string, c: Code, env: Env)
    requires items != []
    ensures Each(w, fuel, items, name, c, env) ==
              var r := Each(w, fuel, items[..|items| - 1], name, c, env);
              if r.NoRets? then r else
                var o := Eval(w, fuel, c, Define(Enter(r.envs), name, items[|items| - 1]));
                if o.Ret? then Rets(r.vs + [o.v], Leave(o.env)) else NoRets(o)
  {
    hide Eval, Define, Enter, Leave;
  }

  /** A `with` over one item more. */
  lemma EachSnoc(w: World, fuel: nat, items: seq<Value>, item: Value, name: string, c: Code, env: Env)
    ensures Each(w, fuel, items + [item], name, c, env) ==
              var r := Each(w, fuel, items, name, c, env);
              if r.NoRets? then r else
                var o := Eval(w, fuel, c, Define(Enter(r.envs), name, item));
                if o.Ret? then Rets(r.vs + [o.v], Leave(o.env)) else NoRets(o)
  {
    hide *;
    assert (items + [item])[..|items|] == items;
    EachLast(w, fuel, items + [item], name, c, env);
  }

  lemma WithArgs(w: World, fuel: nat, x: Token, y: Token, body: Code, env: Env)
    requires x.kind == "symbol" && y.kind == "symbol"
    ensures EvalArgs(w, fuel, Doc(With), [Tok(x), Tok(y), body], env) ==
            GotArgs([ASym(TextOf(x)), ASym(TextOf(y)), ACode(body)], env)
  {
    hide Eval, EvalArgs;
    Args3(w, fuel, Doc(With), Tok(x), Tok(y), body, env);
    Args2(w, fuel, Doc(With), Tok(x), Tok(y), env);
    assert [] + [ASym(TextOf(x))] + [ASym(TextOf(y))] + [ACode(body)] ==
           [ASym(TextOf(x)), ASym(TextOf(y)), ACode(body)];
  }

  // ---------------------------------------------------------------- sequences

  lemma MeansNone(w: World, env: Env)
    ensures MeansAll(w, [], env, Some(([], env)))
  {
    assert MeansAllFrom(w, 0, [], env, Some(([], env)));
  }

  lemma EvalAllSnoc(w: World, fuel: nat, codes: seq<Code>, c: Code, env: Env)
    ensures EvalAll(w, fuel, codes + [c], env) ==
              var r := EvalAll(w, fuel, codes, env);
              if r.NoRets? then r else
                var o := Eval(w, fuel, c, r.envs);
                if o.Ret? then Rets(r.vs + [o.v], o.env) else NoRets(o)
  {
    hide Eval;
    assert (codes + [c])[..|codes|] == codes;
  }

  lemma MeansSnoc(w: World, codes: seq<Code>, c: Code, env: Env, vs: seq<Value>, mid: Env, m: Meaning)
    requires MeansAll(w, codes, env, Some((vs, mid))) && mid.log == env.log && Means(w, c, mid, m)
    ensures MeansAll(w, codes + [c], env, match m case None => None case Some((v, after)) => Some((vs + [v], after)))
  {
    hide Eval, MeansFrom, MeansAllFrom;
    var r := match m case None => None case Some((v, after)) => Some((vs + [v], after));
    var i := FuelForAll(w, codes, env, Some((vs, mid)));
    var k := FuelFor(w, c, mid, m);
    var n := MoreFuel(i, k);
    forall fuel: nat | fuel >= n
      ensures FitsAll(EvalAll(w, fuel, codes + [c], env), env, r)
    {
      EvalAllSnoc(w, fuel, codes, c, env);
      MeansAllFits(w, i, codes, env, Some((vs, mid)), fuel);
      MeansFits(w, k, c, mid, m, fuel);
    }
    EndsAllFrom(w, n, codes + [c], env, r);
  }

  lemma {:induction false} EvalAllConcat(w: World, fuel: nat, a: seq<Code>, b: seq<Code>, env: Env)
    ensures EvalAll(w, fuel, a + b, env) ==
              var r := EvalAll(w, fuel, a, env);
              if r.NoRets? then r else
                var q := EvalAll(w, fuel, b, r.envs);
                if q.NoRets? then q else Rets(r.vs + q.vs, q.envs)
  {
    if b == [] {
      assert a + b == a;
      assert forall vs: seq<Value> :: vs + [] == vs;
    } else {
      var init, last := b[..|b| - 1], b[|b| - 1];
      EvalAllConcat(w, fuel, a, init, env);
      assert (a + b)[..|a + b| - 1] == a + init && (a + b)[|a + b| - 1] == last;
      assert forall vs: seq<Value>, us: seq<Value>, v :: vs + (us + [v]) == (vs + us) + [v];
      hide Eval;
    }
  }

  /** What cannot get past a prefix cannot get past the whole. */
  lemma MeansStuck(w: World, codes: seq<Code>, rest: seq<Code>, env: Env)
    requires MeansAll(w, codes, env, None)
    ensures MeansAll(w, codes + rest, env, None)
  {
    hide EvalAll, MeansAllFrom;
    var n := FuelForAll(w, codes, env, None);
    forall fuel: nat | fuel >= n
      ensures FitsAll(EvalAll(w, fuel, codes + rest, env), env, None)
    {
      EvalAllConcat(w, fuel, codes, rest, env);
      MeansAllFits(w, n, codes, env, None, fuel);
    }
    EndsAllFrom(w, n, codes + rest, env, None);
  }

  lemma MeansAppend(w: World, a: seq<Code>, b: seq<Code>, env: Env, vs: seq<Value>, mid: Env,
                    m: Option<(seq<Value>, Env)>)
    requires MeansAll(w, a, env, Some((vs, mid))) && mid.log == env.log && MeansAll(w, b, mid, m)
    ensures MeansAll(w, a + b, env, if m.Some? then Some((vs + m.value.0, m.value.1)) else None)
  {
    hide EvalAll, MeansAllFrom;
    var r := if m.Some? then Some((vs + m.value.0, m.value.1)) else None;
    var i := FuelForAll(w, a, env, Some((vs, mid)));
    var k := FuelForAll(w, b, mid, m);
    var n := MoreFuel(i, k);
    forall fuel: nat | fuel >= n
      ensures FitsAll(EvalAll(w, fuel, a + b, env), env, r)
    {
      EvalAllConcat(w, fuel, a, b, env);
      MeansAllFits(w, i, a, env, Some((vs, mid)), fuel);
      MeansAllFits(w, k, b, mid, m, fuel);
    }
    EndsAllFrom(w, n, a + b, env, r);
  }

  /** `{ ... }`: the value of the last expression. */
  lemma MeansBlock(w: World, items: seq<Code>, env: Env, m: Option<(seq<Value>, Env)>)
    requires Visible(w, env, "eval") && items != [] && MeansAll(w, items, env, m)
    ensures Means(w, List([EVAL] + items), env, match m case None => None case Some((vs, after)) => if vs ==
            [] then None else Some((vs[|vs| - 1], after)))
  {
    hide EvalAll, Get, Eval, MeansAllFrom;
    var r := match m case None => None case Some((vs, after)) => if vs == [] then None else Some((vs[|vs| - 1], after));
    var n := FuelForAll(w, items, env, m);
    forall fuel: nat | fuel >= n + 1
      ensures Fits(Eval(w, fuel, List([EVAL] + items), env), env, r)
    {
      BlockOutcome(w, fuel, items, env);
      MeansAllFits(w, n, items, env, m, fuel - 1);
    }
    EndsFrom(w, n + 1, List([EVAL] + items), env, r);
  }

  lemma BlockOutcome(w: World, fuel: nat, items: seq<Code>, env: Env)
    requires fuel > 0 && Visible(w, env, "eval")
    ensures Eval(w, fuel, List([EVAL] + items), env) ==
              match EvalAll(w, fuel - 1, items, env)
              case Rets(vs, env') => if vs == [] then Raise(env') else Ret(vs[|vs| - 1], env')
              case NoRets(o) => o
  {
    assert Head(EVAL) == Some("eval") && BuiltinOf("eval") == None;
    assert ([EVAL] + items)[0] == EVAL && ([EVAL] + items)[1..] == items;
    hide EvalAll, BuiltinOf, Get, Head;
    assert Eval(w, fuel, List([EVAL] + items), env) == Call(w, fuel - 1, "eval", items, env);
    assert Call(w, fuel - 1, "eval", items, env) == Default(w, fuel - 1, "eval", items, env);
  }

  // ---------------------------------------------------------------- calls

  /** A call of a method of an object. */
  lemma MeansMethod(w: World, node: Code, name: string, args: seq<Code>, env: Env, f: Value, vs: Option<seq<Value>>)
    requires Head(node) == Some(name) && Get(w, env.stack, name) == Some(f) && f != VNone
    requires MeansAll(w, args, env, match vs case None => None case Some(xs) => Some((xs, env)))
    ensures Means(w, List([node] + args), env, match vs case None => None case Some(xs) => Applied(w, f, xs, env))
  {
    hide EvalAll, BuiltinOf, Get, Absolute, Apply, Head, MeansAllFrom;
    var m := match vs case None => None case Some(xs) => Some((xs, env));
    var r := match vs case None => None case Some(xs) => Applied(w, f, xs, env);
    var n := FuelForAll(w, args, env, m);
    forall fuel: nat | fuel >= n + 1
      ensures Fits(Eval(w, fuel, List([node] + args), env), env, r)
    {
      MethodOutcome(w, fuel, node, name, args, env, f);
      MeansAllFits(w, n, args, env, m, fuel - 1);
      if vs.Some? {
        AppliedFits(w, f, vs.value, env);
      }
    }
    EndsFrom(w, n + 1, List([node] + args), env, r);
  }

  lemma MethodOutcome(w: World, fuel: nat, node: Code, name: string, args: seq<Code>, env: Env, f: Value)
    requires fuel > 0 && Head(node) == Some(name) && Get(w, env.stack, name) == Some(f) && f != VNone
    ensures Eval(w, fuel, List([node] + args), env) ==
              var r := EvalAll(w, fuel - 1, args, env);
              if r.Rets? then Apply(w, f, r.vs, r.envs) else r.o
  {
    hide EvalAll, BuiltinOf, Get, Apply, Head;
    assert ([node] + args)[0] == node && ([node] + args)[1..] == args;
    assert Eval(w, fuel, List([node] + args), env) == Call(w, fuel - 1, name, args, env);
  }

  lemma AppliedFits(w: World, f: Value, vs: seq<Value>, env: Env)
    ensures Fits(Apply(w, f, vs, env), env, Applied(w, f, vs, env))
  {
  }

  function Applied(w: World, f: Value, vs: seq<Value>, env: Env): Meaning {
    match Apply(w, f, vs, env)
    case Ret(v, env') => Some((v, env'))
    case _ => None
  }

  /** A call of a function of one parameter: its body in a scope that binds the argument. */
  lemma MeansCall1(w: World, node: Code, name: string, p: Token, a: Code, body: Code, env: Env, x: Value, m: Meaning)
    requires Head(node) == Some(name) && Visible(w, env, name) && Visible(w, env, "let") && BuiltinOf(name) == None
    requires name != "eval"
    requires name in env.funcs && env.funcs[name] == (List([Tok(p)]), body) && p.kind == "symbol"
    requires Means(w, a, Enter(env), Some((x, Enter(env))))
    requires Means(w, body, Define(Enter(env), TextOf(p), x), m)
    ensures Means(w, List([node, a]), env, match m case None => None case Some((v, after)) => Some((v, Leave(after))))
  {
    hide BuiltinOf, Get, Bind, Head, Eval, Define, MeansFrom;
    var r := match m case None => None case Some((v, after)) => Some((v, Leave(after)));
    var e1 := Define(Enter(env), TextOf(p), x);
    DefineKeepsLog(Enter(env), TextOf(p), x);
    var i := FuelFor(w, a, Enter(env), Some((x, Enter(env))));
    var k := FuelFor(w, body, e1, m);
    var n := MoreFuel(i, k) + 2;
    forall fuel: nat | fuel >= n
      ensures Fits(Eval(w, fuel, List([node, a]), env), env, r)
    {
      assert [node, a] == [node] + [a];
      DefinedCall(w, fuel, node, name, [a], env);
      var bindings := [List([Tok(p), a])];
      assert Bindings([Tok(p)], [a]) == List(bindings);
      LetOutcome(w, fuel - 1, bindings, body, env);
      MeansFits(w, i, a, Enter(env), Some((x, Enter(env))), fuel - 2);
      MeansFits(w, k, body, e1, m, fuel - 2);
      BindOne(w, fuel - 2, p, a, Enter(env));
    }
    EndsFrom(w, n, List([node, a]), env, r);
  }

  lemma DefineKeepsLog(env: Env, x: string, v: Value)
    requires env.stack != []
    ensures Define(env, x, v).log == env.log && Define(env, x, v).stack != []
  {
  }

  /** A call of a function the policy defined is a `let` around its body. */
  lemma DefinedCall(w: World, fuel: nat, node: Code, name: string, args: seq<Code>, env: Env)
    requires fuel > 0 && Head(node) == Some(name) && Visible(w, env, name) && BuiltinOf(name) == None && name != "eval"
    requires name in env.funcs && env.funcs[name].0.List? && |env.funcs[name].0.items| == |args|
    ensures Eval(w, fuel, List([node] + args), env) ==
              Eval(w, fuel - 1, List([LetCode(), Bindings(env.funcs[name].0.items, args), env.funcs[name].1]), env)
  {
    hide BuiltinOf, Get, Head;
    assert ([node] + args)[0] == node && ([node] + args)[1..] == args;
    assert Eval(w, fuel, List([node] + args), env) == Call(w, fuel - 1, name, args, env);
    assert Call(w, fuel - 1, name, args, env) == Default(w, fuel - 1, name, args, env);
  }

  lemma LetOutcome(w: World, fuel: nat, bindings: seq<Code>, body: Code, env: Env)
    requires fuel > 0 && Visible(w, env, "let")
    ensures Eval(w, fuel, List([LetCode(), List(bindings), body]), env) ==
              var o := Bind(w, fuel - 1, bindings, Enter(env));
              if !o.Ret? then o else
                var p := Eval(w, fuel - 1, body, o.env);
                if p.Ret? then Ret(p.v, Leave(p.env)) else p
  {
    hide *;
    var args := [List(bindings), body];
    assert [LetCode(), List(bindings), body] == [LetCode()] + args && |args| == 2;
    LetIsBuiltin();
    BuiltinCall(w, fuel, LetCode(), "let", Let, args, env);
    LetArgs(w, fuel - 1, bindings, body, env);
    LetRuns(w, fuel - 1, bindings, body, env);
  }

  lemma LetIsBuiltin()
    ensures BuiltinOf("let") == Some(Let) && Head(LetCode()) == Some("let") && Doc(Let) != [] && ArityOk(Doc(Let), 2)
  {
  }

  lemma LetArgs(w: World, fuel: nat, bindings: seq<Code>, body: Code, env: Env)
    ensures EvalArgs(w, fuel, Doc(Let), [List(bindings), body], env) ==
            GotArgs([ACode(List(bindings)), ACode(body)], env)
  {
    hide Eval, EvalArgs;
    Args2(w, fuel, Doc(Let), List(bindings), body, env);
    assert [] + [ACode(List(bindings))] == [ACode(List(bindings))];
    assert [ACode(List(bindings))] + [ACode(body)] == [ACode(List(bindings)), ACode(body)];
  }

  lemma LetRuns(w: World, fuel: nat, bindings: seq<Code>, body: Code, env: Env)
    ensures RunBuiltin(w, fuel, Let, [ACode(List(bindings)), ACode(body)], env) ==
              var o := Bind(w, fuel, bindings, Enter(env));
              if !o.Ret? then o else
                var p := Eval(w, fuel, body, o.env);
                if p.Ret? then Ret(p.v, Leave(p.env)) else p
  {
    hide Eval, EvalAll, Bind, Enter, Leave, CodesOf;
    OneCode(w, fuel, [ACode(List(bindings)), ACode(body)], body);
  }

  lemma OneCode(w: World, fuel: nat, got: seq<Arg>, body: Code)
    requires |got| == 2 && got[1] == ACode(body)
    ensures CodesOf(got[1..]) == [body]
    ensures forall env :: EvalAll(w, fuel, [body], env) ==
              var p := Eval(w, fuel, body, env); if p.Ret? then Rets([p.v], p.env) else NoRets(p)
  {
    assert [body][..0] == [];
    assert forall v: Value :: [] + [v] == [v];
  }

  /** One more binding after those that gave `o`. */
  function BindNext(w: World, fuel: nat, o: Outcome, p: Token, a: Code): Outcome {
    if !o.Ret? then o else
      var r := Eval(w, fuel, a, o.env);
      if !r.Ret? then r else if r.env.stack == [] then Raise(r.env) else Ret(VNone, Define(r.env, TextOf(p), r.v))
  }

  lemma BindOne(w: World, fuel: nat, p: Token, a: Code, env: Env)
    requires p.kind == "symbol"
    ensures Bind(w, fuel, [List([Tok(p), a])], env) == BindNext(w, fuel, Ret(VNone, env), p, a)
  {
    assert [List([Tok(p), a])][..0] == [];
  }

  lemma BindTwo(w: World, fuel: nat, p: Token, a: Code, q: Token, b: Code, env: Env)
    requires p.kind == "symbol" && q.kind == "symbol"
    ensures Bind(w, fuel, [List([Tok(p), a]), List([Tok(q), b])], env) ==
            BindNext(w, fuel, Bind(w, fuel, [List([Tok(p), a])], env), q, b)
  {
    assert [List([Tok(p), a]), List([Tok(q), b])][..1] == [List([Tok(p), a])];
  }

  /** ... of two parameters: the second argument is evaluated with the first parameter bound. */
  lemma MeansCall2(w: World, node: Code, name: string, p: Token, a: Code, q: Token, b: Code, body: Code, env: Env,
                   x: Value, y: Value, m: Meaning)
    requires Head(node) == Some(name) && Visible(w, env, name) && Visible(w, env, "let") && BuiltinOf(name) == None
    requires name != "eval"
    requires name in env.funcs && env.funcs[name] == (List([Tok(p), Tok(q)]), body) && p.kind == "symbol"
    requires q.kind == "symbol"
    requires Means(w, a, Enter(env), Some((x, Enter(env))))
    requires var e1 := Define(Enter(env), TextOf(p), x); Means(w, b, e1, Some((y, e1)))
    requires Means(w, body, Define(Define(Enter(env), TextOf(p), x), TextOf(q), y), m)
    ensures Means(w, List([node, a, b]), env,
            match m case None => None case Some((v, after)) => Some((v, Leave(after))))
  {
    hide BuiltinOf, Get, Bind, Head, Eval, Define, MeansFrom;
    var r := match m case None => None case Some((v, after)) => Some((v, Leave(after)));
    var e1 := Define(Enter(env), TextOf(p), x);
    DefineKeepsLog(Enter(env), TextOf(p), x);
    var e2 := Define(e1, TextOf(q), y);
    DefineKeepsLog(e1, TextOf(q), y);
    var i := FuelFor(w, a, Enter(env), Some((x, Enter(env))));
    var j := FuelFor(w, b, e1, Some((y, e1)));
    var k := FuelFor(w, body, e2, m);
    var n := MoreFuel(MoreFuel(i, j), k) + 2;
    forall fuel: nat | fuel >= n
      ensures Fits(Eval(w, fuel, List([node, a, b]), env), env, r)
    {
      assert [node, a, b] == [node] + [a, b];
      DefinedCall(w, fuel, node, name, [a, b], env);
      var bindings := [List([Tok(p), a]), List([Tok(q), b])];
      assert Bindings([Tok(p), Tok(q)], [a, b]) == List(bindings);
      LetOutcome(w, fuel - 1, bindings, body, env);
      MeansFits(w, i, a, Enter(env), Some((x, Enter(env))), fuel - 2);
      MeansFits(w, j, b, e1, Some((y, e1)), fuel - 2);
      MeansFits(w, k, body, e2, m, fuel - 2);
      BindOne(w, fuel - 2, p, a, Enter(env));
      BindTwo(w, fuel - 2, p, a, q, b, Enter(env));
    }
    EndsFrom(w, n, List([node, a, b]), env, r);
  }

  /** It makes a difference: `(f 1 x)` of `(def f (x y) y)` is 1, whatever x is for the caller. */
  lemma SecondSeesFirst(w: World, env: Env)
    requires Visible(w, env, "f") && Visible(w, env, "let")
    requires "f" in env.funcs && env.funcs["f"] == (List([Sym("x"), Sym("y")]), Sym("y"))
    ensures Means(w, List([Sym("f"), Int(1), Sym("x")]), env, Some((VInt(1), env)))
  {
    var e1 := Define(Enter(env), "x", VInt(1));
    var e2 := Define(e1, "y", VInt(1));
    ShortNames();
    MeansLiteral(w, Enter(env));
    MeansSymbol(w, "x", e1);
    MeansSymbol(w, "y", e2);
    assert e1.stack == [map["x" := VInt(1)]] + env.stack;
    assert e2.stack[1..] == env.stack;
    hide Means, Get;
    MeansCall2(w, Sym("f"), "f", Token("symbol", Text("x")), Int(1), Token("symbol", Text("y")), Sym("x"), Sym("y"),
      env,
      VInt(1), VInt(1), Some((VInt(1), e2)));
  }

  lemma ShortNames()
    ensures BeforeDot("x") == "x" && AfterDot("x") == None && BeforeDot("y") == "y" && AfterDot("y") == None
    ensures BuiltinOf("f") == None
  {
    assert "x"[1..] == [] && "y"[1..] == [];
  }

  /** A variable as second argument is the caller's, whatever the first argument is, exactly if
      it has not the first parameter's name. */
  lemma SecondIsCallers(w: World, env: Env, p: string, s: string)
    requires BeforeDot(s) == s && AfterDot(s) == None
    ensures (forall x :: Get(w, Define(Enter(env), p, x).stack, s) == Get(w, env.stack, s)) <==> s != p
  {
    assert forall x :: Define(Enter(env), p, x).stack[1..] == env.stack;
    if s == p {
      assert Get(w, Define(Enter(env), p, VInt(0)).stack, s) == Some(VInt(0));
      assert Get(w, Define(Enter(env), p, VInt(1)).stack, s) == Some(VInt(1));
    }
  }
}

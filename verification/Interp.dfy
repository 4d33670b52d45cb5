/** The evaluator of the policy language (`Parser.py`, `Evaluator`), as a function of the code
    and the evaluator's state. User functions may recurse without end, so evaluation is given
    `fuel`; the results that count are those of evaluations that do not run out of it. */
module Interp {
  import opened Grammar
  import opened PolicyGrammar
  import opened Options
  import opened PolicyValues

  type Frame = map<string, Value>

  /** A call `Control(name, val)` on an object. */
  datatype Write = Write(id: nat, name: Value, val: Value)

  /** The variable stack, innermost scope first, the functions, and the writes made so far. */
  datatype Env = Env(stack: seq<Frame>, funcs: map<string, (Code, Code)>, log: seq<Write>)

  /** An evaluation returns, raises an exception, or runs out of fuel. */
  datatype Outcome = Ret(v: Value, env: Env) | Raise(env: Env) | Timeout

  /** The same for several evaluations, and for the arguments of a built-in function. */
  datatype Outcomes = Rets(vs: seq<Value>, envs: Env) | NoRets(o: Outcome)
  datatype Arg = AVal(v: Value) | ACode(c: Code) | ASym(name: string)
  datatype Args = GotArgs(args: seq<Arg>, enva: Env) | NoArgs(o: Outcome)

  // ---------------------------------------------------------------- the variable stack

  /** The part of `s` before its first dot, and the part between that and the next, if any:
      the first two of `s.split('.')`. */
  function BeforeDot(s: string): string {
    if s == [] || s[0] == '.' then [] else [s[0]] + BeforeDot(s[1..])
  }

  function AfterDot(s: string): Option<string> {
    if s == [] then None else if s[0] == '.' then Some(BeforeDot(s[1..])) else AfterDot(s[1..])
  }

  /** `VariableStack.get`, None where the name is undefined. A frame that has the object but
      not the attribute is passed over. */
  function Get(w: World, stack: seq<Frame>, name: string): Option<Value> {
    if stack == [] then
      None
    else if BeforeDot(name) in stack[0] &&
      (AfterDot(name).Some? ==> w.attr(stack[0][BeforeDot(name)], AfterDot(name).value).Some?) then
      if AfterDot(name).Some? then w.attr(stack[0][BeforeDot(name)], AfterDot(name).value)
        else Some(stack[0][BeforeDot(name)])
    else
      Get(w, stack[1..], name)
  }

  /** `set` without alloc: the innermost scope that has the name. */
  function Assign(stack: seq<Frame>, name: string, v: Value): Option<seq<Frame>> {
    if stack == [] then None
    else if name in stack[0] then Some([stack[0][name := v]] + stack[1..])
    else match Assign(stack[1..], name, v)
      case None => None
      case Some(rest) => Some([stack[0]] + rest)
  }

  /** `set` with alloc: the innermost scope, which keeps a value it has. */
  function Alloc(stack: seq<Frame>, name: string, v: Value): seq<Frame>
    requires stack != []
  {
    if name in stack[0] then stack else [stack[0][name := v]] + stack[1..]
  }

  function Enter(env: Env): Env {
    env.(stack := [map[]] + env.stack)
  }

  function Leave(env: Env): Env {
    env.(stack := if env.stack == [] then [] else env.stack[1..])
  }

  function Define(env: Env, name: string, v: Value): Env
    requires env.stack != []
  {
    env.(stack := Alloc(env.stack, name, v))
  }

  /** A new evaluator: one scope, which holds the external functions. */
  function Fresh(): Env {
    Env([map["abs" := VExtern("abs"), "debug" := VExtern("debug")]], map[], [])
  }

  /** The state a run of the policy starts in. */
  function Start(host: Value, guests: Value): Env {
    Define(Define(Fresh(), "Host", host), "Guests", guests)
  }

  // ---------------------------------------------------------------- names of functions

  datatype Builtin =
    | Def | SetVar | DefVar | Let | With | If
    | Binary(op: Arith) | Test(cmp: Compare)
    | And | Or | Not | Min | Max | Null | Valid

  /** The `c_` methods of the evaluator. */
  function BuiltinOf(name: string): Option<Builtin> {
    if name == "def" || name == "defun" then Some(Def)
    else if name == "set" || name == "setq" then Some(SetVar)
    else if name == "defvar" then Some(DefVar)
    else if name == "let" then Some(Let)
    else if name == "with" then Some(With)
    else if name == "if" then Some(If)
    else if name == "add" then Some(Binary(Add))
    else if name == "sub" then Some(Binary(Sub))
    else if name == "mul" then Some(Binary(Mul))
    else if name == "div" then Some(Binary(Div))
    else if name == "shl" then Some(Binary(Shl))
    else if name == "shr" then Some(Binary(Shr))
    else if name == "lt" then Some(Test(Lt))
    else if name == "gt" then Some(Test(Gt))
    else if name == "lte" then Some(Test(Lte))
    else if name == "gte" then Some(Test(Gte))
    else if name == "eq" then Some(Test(Eq))
    else if name == "neq" then Some(Test(Neq))
    else if name == "and" then Some(And)
    else if name == "or" then Some(Or)
    else if name == "not" then Some(Not)
    else if name == "min" then Some(Min)
    else if name == "max" then Some(Max)
    else if name == "null" then Some(Null)
    else if name == "valid" then Some(Valid)
    else None
  }

  /** `operator_map` */
  function OperatorName(op: string): Option<string> {
    if op == "+" then Some("add")
    else if op == "-" then Some("sub")
    else if op == "*" then Some("mul")
    else if op == "/" then Some("div")
    else if op == "<" then Some("lt")
    else if op == ">" then Some("gt")
    else if op == "<=" then Some("lte")
    else if op == ">=" then Some("gte")
    else if op == "<<" then Some("shl")
    else if op == ">>" then Some("shr")
    else if op == "==" then Some("eq")
    else if op == "!=" then Some("neq")
    else if op == "and" then Some("and")
    else if op == "or" then Some("or")
    else if op == "not" then Some("not")
    else if op == "min" then Some("min")
    else if op == "max" then Some("max")
    else if op == "null" then Some("null")
    else if op == "valid" then Some("valid")
    else None
  }

  /** What a built-in's doc string asks of an argument; `More` is the trailing "...". */
  datatype ArgType = TValue | TCode | TSymbol | More

  function Doc(b: Builtin): seq<ArgType> {
    match b
    case Def => [TSymbol, TCode, TCode]
    case SetVar => [TSymbol, TValue]
    case DefVar => [TSymbol, TValue]
    case Let => [TCode, TCode, More]
    case With => [TSymbol, TSymbol, TCode]
    case If => [TValue, TCode, TCode]
    case Binary(_) => [TValue, TValue]
    case Test(_) => [TValue, TValue]
    case Not => [TValue]
    case And => [TValue, More]
    case Or => [TValue, More]
    case Min => [TValue, More]
    case Max => [TValue, More]
    case Null => [More]
    case Valid => [More]
  }

  predicate ArityOk(types: seq<ArgType>, n: nat)
    requires types != []
  {
    if types[|types| - 1] == More then |types| <= n + 1 else |types| == n
  }

  /** The type of argument i: "..." repeats the last type, and alone it means a value. */
  function TypeOf(types: seq<ArgType>, i: nat): ArgType
    requires types != []
  {
    if i < |types| && types[i] != More then types[i]
    else if |types| >= 2 && types[|types| - 1] == More then types[|types| - 2]
    else TValue
  }

  // ---------------------------------------------------------------- evaluation

  function TextOf(tok: Token): string {
    if tok.lexeme.Text? then tok.lexeme.text else ""
  }

  function Inner(s: string): string {
    if |s| < 2 then "" else s[1..|s| - 1]
  }

  function EvalToken(w: World, tok: Token, env: Env): Outcome {
    if tok.kind == "number" then
      match tok.lexeme
      case IntLit(i) => Ret(VInt(i), env)
      case FloatLit(r) => Ret(VFloat(r), env)
      case Text(_) => Raise(env)
    else if tok.kind == "string" then
      Ret(VStr(Inner(TextOf(tok))), env)
    else if tok.kind == "symbol" then
      if TextOf(tok) == "nil" then Ret(VNone, env)
      else match Get(w, env.stack, TextOf(tok))
        case Some(v) => Ret(v, env)
        case None => Raise(env)
    else
      Raise(env)
  }

  /** The name of the function a call asks for. */
  function Head(node: Code): Option<string> {
    if node.List? then None
    else if node.token.kind == "symbol" then Some(TextOf(node.token))
    else if node.token.kind == "operator" then OperatorName(TextOf(node.token))
    else None
  }

  function Eval(w: World, fuel: nat, c: Code, env: Env): Outcome
    decreases fuel, 0, 0
  {
    if fuel == 0 then
      Timeout
    else match c
      case Tok(tok) => EvalToken(w, tok, env)
      case List(items) =>
        if items == [] || Head(items[0]).None? then
          Raise(env)
        else
          Call(w, fuel - 1, Head(items[0]).value, items[1..], env)
  }

  /** A call: of the value a variable of that name holds, else of a built-in, else of a
      function the policy defined. */
  function Call(w: World, fuel: nat, name: string, args: seq<Code>, env: Env): Outcome
    decreases fuel, 3, 0
  {
    var f := Get(w, env.stack, name);
    if f.Some? && f.value != VNone then
      match EvalAll(w, fuel, args, env)
      case Rets(vs, env') => Apply(w, f.value, vs, env')
      case NoRets(o) => o
    else if BuiltinOf(name).Some? then
      var types := Doc(BuiltinOf(name).value);
      if !ArityOk(types, |args|) then Raise(env)
      else match EvalArgs(w, fuel, types, args, env)
        case GotArgs(got, env') => RunBuiltin(w, fuel, BuiltinOf(name).value, got, env')
        case NoArgs(o) => o
    else
      Default(w, fuel, name, args, env)
  }

  /** Calling an object of the host program. */
  function Apply(w: World, f: Value, vs: seq<Value>, env: Env): Outcome {
    if f.VMethod? && f.name == "Control" && |vs| == 2 then
      Ret(VNone, env.(log := env.log + [Write(f.id, vs[0], vs[1])]))
    else if f == VExtern("abs") && |vs| == 1 && Number(vs[0]) then
      Ret(Absolute(vs[0]), env)
    else if f == VExtern("debug") then
      if vs == [] then Raise(env) else Ret(vs[|vs| - 1], env)
    else match w.call(f, vs)
      case Some(v) => Ret(v, env)
      case None => Raise(env)
  }

  function Absolute(v: Value): Value
    requires Number(v)
  {
    if v.VFloat? then VFloat(if v.r < 0.0 then -v.r else v.r)
    else VInt(if AsInt(v) < 0 then -AsInt(v) else AsInt(v))
  }

  /** Evaluates the codes in order. */
  function EvalAll(w: World, fuel: nat, codes: seq<Code>, env: Env): (r: Outcomes)
    ensures r.Rets? ==> |r.vs| == |codes|
    decreases fuel, 1, |codes|
  {
    if codes == [] then Rets([], env)
    else match EvalAll(w, fuel, codes[..|codes| - 1], env)
      case NoRets(o) => NoRets(o)
      case Rets(vs, env') =>
        match Eval(w, fuel, codes[|codes| - 1], env')
        case Ret(v, env'') => Rets(vs + [v], env'')
        case Raise(env'') => NoRets(Raise(env''))
        case Timeout => NoRets(Timeout)
  }

  /** `_dispatch`: treats each argument as the doc string asks. */
  function EvalArgs(w: World, fuel: nat, types: seq<ArgType>, codes: seq<Code>, env: Env): Args
    requires types != []
    decreases fuel, 1, |codes|
  {
    if codes == [] then GotArgs([], env)
    else match EvalArgs(w, fuel, types, codes[..|codes| - 1], env)
      case NoArgs(o) => NoArgs(o)
      case GotArgs(args, env') =>
        var c := codes[|codes| - 1];
        match TypeOf(types, |codes| - 1)
        case TCode => GotArgs(args + [ACode(c)], env')
        case TSymbol =>
          if c.Tok? && c.token.kind == "symbol" then GotArgs(args + [ASym(TextOf(c.token))], env')
            else NoArgs(Raise(env'))
        case _ =>
          match Eval(w, fuel, c, env')
          case Ret(v, env'') => GotArgs(args + [AVal(v)], env'')
          case Raise(env'') => NoArgs(Raise(env''))
          case Timeout => NoArgs(Timeout)
  }

  function LetCode(): Code {
    Tok(Token("symbol", Text("let")))
  }

  /** A function of the policy: `eval`, or one it defined, called as a `let` that binds the
      parameters to the unevaluated arguments around the body. */
  function Default(w: World, fuel: nat, name: string, args: seq<Code>, env: Env): Outcome
    decreases fuel, 2, 0
  {
    if name == "eval" then
      match EvalAll(w, fuel, args, env)
      case Rets(vs, env') => if vs == [] then Raise(env') else Ret(vs[|vs| - 1], env')
      case NoRets(o) => o
    else if name !in env.funcs || env.funcs[name].0.Tok? || |env.funcs[name].0.items| != |args| then
      Raise(env)
    else
      Eval(w, fuel, List([LetCode(), Bindings(env.funcs[name].0.items, args), env.funcs[name].1]), env)
  }

  function Bindings(params: seq<Code>, args: seq<Code>): Code
    requires |params| == |args|
  {
    List(seq(|params|, k requires 0 <= k < |params| => List([params[k], args[k]])))
  }

  /** The `c_` methods on their treated arguments. */
  function RunBuiltin(w: World, fuel: nat, b: Builtin, args: seq<Arg>, env: Env): Outcome
    decreases fuel, 2, 0
  {
    match b
    case Def =>
      if |args| == 3 && args[0].ASym? && args[1].ACode? && args[2].ACode? then
        Ret(VStr(args[0].name), env.(funcs := env.funcs[args[0].name := (args[1].c, args[2].c)]))
      else Raise(env)
    case SetVar =>
      if |args| == 2 && args[0].ASym? && args[1].AVal? then
        match Assign(env.stack, args[0].name, args[1].v)
        case Some(stack) => Ret(args[1].v, env.(stack := stack))
        case None => Raise(env)
      else Raise(env)
    case DefVar =>
      if |args| == 2 && args[0].ASym? && args[1].AVal? && env.stack != [] then
        Ret(Define(env, args[0].name, args[1].v).stack[0][args[0].name], Define(env, args[0].name, args[1].v))
      else Raise(env)
    case Let =>
      if |args| >= 2 && args[0].ACode? && args[0].c.List? && (forall k :: 1 <= k < |args| ==> args[k].ACode?) then
        match Bind(w, fuel, args[0].c.items, Enter(env))
        case Ret(_, env') =>
          (match EvalAll(w, fuel, CodesOf(args[1..]), env')
          case Rets(vs, env'') => Ret(vs[|vs| - 1], Leave(env''))
          case NoRets(o) => o)
        case o => o
      else Raise(env)
    case With =>
      if |args| == 3 && args[0].ASym? && args[1].ASym? && args[2].ACode? && Get(w, env.stack, args[0].name).Some? then
        match Iterate(Get(w, env.stack, args[0].name).value)
        case None => Raise(env)
        case Some(items) =>
          match Each(w, fuel, items, args[1].name, args[2].c, env)
          case Rets(vs, env') => Ret(VList(vs), env')
          case NoRets(o) => o
      else Raise(env)
    case If =>
      if |args| == 3 && args[0].AVal? && args[1].ACode? && args[2].ACode? then
        Eval(w, fuel, if Truthy(args[0].v) then args[1].c else args[2].c, env)
      else Raise(env)
    case _ => Compute(w, b, args, env)
  }

  function CodesOf(args: seq<Arg>): seq<Code>
    requires forall k :: 0 <= k < |args| ==> args[k].ACode?
  {
    seq(|args|, k requires 0 <= k < |args| => args[k].c)
  }

  /** The bindings of a `let`, each evaluated in the scope where those before it are bound. */
  function Bind(w: World, fuel: nat, syms: seq<Code>, env: Env): Outcome
    decreases fuel, 1, |syms|
  {
    if syms == [] then Ret(VNone, env)
    else match Bind(w, fuel, syms[..|syms| - 1], env)
      case Ret(_, env') =>
        var sym := syms[|syms| - 1];
        if sym.Tok? || |sym.items| != 2 || sym.items[0].List? || sym.items[0].token.kind != "symbol" then Raise(env')
        else (match Eval(w, fuel, sym.items[1], env')
          case Ret(v, env'') =>
            if env''.stack == [] then Raise(env'') else Ret(VNone, Define(env'', TextOf(sym.items[0].token), v))
          case o => o)
      case o => o
  }

  /** The body of a `with` once for every item, in a scope of its own that binds the item. */
  function Each(w: World, fuel: nat, items: seq<Value>, iterator_: string, c: Code, env: Env): Outcomes
    decreases fuel, 1, |items|
  {
    if items == [] then Rets([], env)
    else match Each(w, fuel, items[..|items| - 1], iterator_, c, env)
      case NoRets(o) => NoRets(o)
      case Rets(vs, env') =>
        match Eval(w, fuel, c, Define(Enter(env'), iterator_, items[|items| - 1]))
        case Ret(v, env'') => Rets(vs + [v], Leave(env''))
        case Raise(env'') => NoRets(Raise(env''))
        case Timeout => NoRets(Timeout)
  }

  predicate AllVals(args: seq<Arg>) {
    forall k :: 0 <= k < |args| ==> args[k].AVal?
  }

  function ValsOf(args: seq<Arg>): seq<Value>
    requires AllVals(args)
  {
    seq(|args|, k requires 0 <= k < |args| => args[k].v)
  }

  /** The built-ins that only compute. */
  function Compute(w: World, b: Builtin, args: seq<Arg>, env: Env): Outcome {
    if !AllVals(args) then Raise(env) else
      var vs := ValsOf(args);
      match b
      case Binary(op) =>
        if |vs| != 2 then Raise(env) else
          (match Calculate(w, op, vs[0], vs[1]) case Some(v) => Ret(v, env) case None => Raise(env))
      case Test(cmp) => if |vs| != 2 then Raise(env) else Ret(VBool(Holds(w, cmp, vs[0], vs[1])), env)
      case Not => if |vs| != 1 then Raise(env) else Ret(VBool(!Truthy(vs[0])), env)
      case And => if vs == [] then Raise(env) else Ret(AndOf(vs), env)
      case Or => if vs == [] then Raise(env) else Ret(OrOf(vs), env)
      case Min => if vs == [] then Raise(env) else Ret(MinOf(w, vs), env)
      case Max => if vs == [] then Raise(env) else Ret(MaxOf(w, vs), env)
      case Null => Ret(VBool(forall k :: 0 <= k < |vs| ==> Empty(vs[k])), env)
      case Valid => Ret(VBool(forall k :: 0 <= k < |vs| ==> vs[k] != VNone), env)
      case _ => Raise(env)
  }
}

/** The evaluator as the object it is: a variable stack changed in place, the functions, and
    methods that call one another. Each method is proved to do what the functions of `Interp`
    say, so what is proved about those holds of the object. */
module EvaluatorObject {
  import opened Grammar
  import opened Options
  import opened PolicyGrammar
  import opened PolicyValues
  import opened Interp

  class VariableStack {
    var stack: seq<Frame>

    constructor ()
      ensures stack == []
    {
      stack := [];
    }

    method EnterScope()
      modifies this
      ensures stack == [map[]] + old(stack)
    {
      stack := [map[]] + stack;
    }

    method LeaveScope()
      modifies this
      ensures stack == if old(stack) == [] then [] else old(stack)[1..]
    {
      stack := if stack == [] then [] else stack[1..];
    }

    /** The value of a name, looked for from the innermost scope outwards. */
    method Lookup(w: World, name: string) returns (r: Option<Value>)
      ensures r == Get(w, stack, name)
    {
      var obj, part := BeforeDot(name), AfterDot(name);
      var n := 0;
      while n < |stack|
        invariant n <= |stack| && Get(w, stack, name) == Get(w, stack[n..], name)
      {
        var scope := stack[n];
        assert stack[n..][0] == scope && stack[n..][1..] == stack[n + 1..];
        if obj in scope {
          if part.Some? {
            if w.attr(scope[obj], part.value).Some? {
              return w.attr(scope[obj], part.value);
            }
          } else {
            return Some(scope[obj]);
          }
        }
        n := n + 1;
      }
      return None;
    }

    /** `set(..., alloc=True)` */
    method Allocate(name: string, value: Value) returns (v: Value)
      requires stack != []
      modifies this
      ensures stack == Alloc(old(stack), name, value) && name in stack[0] && v == stack[0][name]
      ensures name in old(stack)[0] ==> stack == old(stack) && v == old(stack)[0][name]
      ensures name !in old(stack)[0] ==>
                && v == value && |stack| == |old(stack)| && stack[1..] == old(stack)[1..]
                && stack[0].Keys == old(stack)[0].Keys + {name}
                && forall y :: y in old(stack)[0] ==> stack[0][y] == old(stack)[0][y]
    {
      if name !in stack[0] {
        stack := stack[0 := stack[0][name := value]];
      }
      v := stack[0][name];
    }

    /** `set`: false where it raises. */
    method SetInnermost(name: string, value: Value) returns (ok: bool)
      modifies this
      ensures ok == Assign(old(stack), name, value).Some?
      ensures stack == if ok then Assign(old(stack), name, value).value else old(stack)
    {
      for n := 0 to |stack|
        invariant stack == old(stack) && forall k :: 0 <= k < n ==> name !in stack[k]
      {
        var scope := stack[n];
        AssignSkips(stack, n, name, value);
        if name in scope {
          stack := stack[n := scope[name := value]];
          assert old(stack)[..n] + ([scope[name := value]] + old(stack)[n + 1..]) == stack;
          return true;
        }
      }
      AssignSkips(stack, |stack|, name, value);
      return false;
    }
  }

  lemma {:induction false} AssignSkips(stack: seq<Frame>, n: nat, name: string, value: Value)
    requires n <= |stack| && forall k :: 0 <= k < n ==> name !in stack[k]
    ensures match Assign(stack[n..], name, value)
            case None => Assign(stack, name, value) == None
            case Some(rest) => Assign(stack, name, value) == Some(stack[..n] + rest)
    ensures n < |stack| ==> stack[n..][0] == stack[n] && stack[n..][1..] == stack[n + 1..]
  {
    if n == 0 {
      assert stack[0..] == stack;
      if Assign(stack, name, value).Some? {
        var all := Assign(stack, name, value).value;
        hide Assign;
        assert stack[..0] + all == all;
      }
    } else {
      AssignSkips(stack[1..], n - 1, name, value);
      assert stack[1..][n - 1..] == stack[n..];
      var rest := Assign(stack[n..], name, value);
      if rest.Some? {
        FrontAgain(stack, n, rest.value);
      }
    }
  }

  lemma FrontAgain<T>(s: seq<T>, n: nat, rest: seq<T>)
    requires 0 < n <= |s|
    ensures [s[0]] + (s[1..][..n - 1] + rest) == s[..n] + rest
  {
  }

  datatype Result = Returned(v: Value) | Raised | OutOfFuel

  function AsOutcome(r: Result, env: Env): Outcome {
    match r
    case Returned(v) => Ret(v, env)
    case Raised => Raise(env)
    case OutOfFuel => Timeout
  }

  // ---------------------------------------------------------------- the first failure decides

  lemma {:induction false} AllStops(w: World, fuel: nat, codes: seq<Code>, n: nat, env: Env)
    requires n <= |codes| && EvalAll(w, fuel, codes[..n], env).NoRets?
    ensures EvalAll(w, fuel, codes, env) == EvalAll(w, fuel, codes[..n], env)
    decreases |codes|
  {
    if n == |codes| {
      assert codes[..n] == codes;
    } else {
      assert codes[..|codes| - 1][..n] == codes[..n];
      AllStops(w, fuel, codes[..|codes| - 1], n, env);
    }
  }

  lemma {:induction false} ArgsStop(w: World, fuel: nat, types: seq<ArgType>, codes: seq<Code>, n: nat, env: Env)
    requires types != [] && n <= |codes| && EvalArgs(w, fuel, types, codes[..n], env).NoArgs?
    ensures EvalArgs(w, fuel, types, codes, env) == EvalArgs(w, fuel, types, codes[..n], env)
    decreases |codes|
  {
    if n == |codes| {
      assert codes[..n] == codes;
    } else {
      assert codes[..|codes| - 1][..n] == codes[..n];
      ArgsStop(w, fuel, types, codes[..|codes| - 1], n, env);
    }
  }

  lemma {:induction false} BindStops(w: World, fuel: nat, syms: seq<Code>, n: nat, env: Env)
    requires n <= |syms| && !Bind(w, fuel, syms[..n], env).Ret?
    ensures Bind(w, fuel, syms, env) == Bind(w, fuel, syms[..n], env)
    decreases |syms|
  {
    if n == |syms| {
      assert syms[..n] == syms;
    } else {
      assert syms[..|syms| - 1][..n] == syms[..n];
      BindStops(w, fuel, syms[..|syms| - 1], n, env);
    }
  }

  lemma {:induction false} EachStops(w: World, fuel: nat, items: seq<Value>, x: string, c: Code, n: nat, env: Env)
    requires n <= |items| && Each(w, fuel, items[..n], x, c, env).NoRets?
    ensures Each(w, fuel, items, x, c, env) == Each(w, fuel, items[..n], x, c, env)
    decreases |items|
  {
    if n == |items| {
      assert items[..n] == items;
    } else {
      assert items[..|items| - 1][..n] == items[..n];
      EachStops(w, fuel, items[..|items| - 1], x, c, n, env);
    }
  }

  // ---------------------------------------------------------------- the object

  class Evaluator {
    const w: World
    const vars: VariableStack
    var funcs: map<string, (Code, Code)>
    var log: seq<Write>

    /** The state the functions of `Interp` speak of. */
    ghost function State(): Env
      reads this, vars
    {
      Env(vars.stack, funcs, log)
    }

    /** One scope, which holds the external functions. */
    constructor (w: World)
      ensures this.w == w && fresh(vars)
      ensures State() == Fresh()
    {
      this.w := w;
      var vs := new VariableStack();
      vs.EnterScope();
      var _ := vs.Allocate("abs", VExtern("abs"));
      var _ := vs.Allocate("debug", VExtern("debug"));
      vars, funcs, log := vs, map[], [];
    }

    method Eval(fuel: nat, code: Code) returns (r: Result)
      modifies this, vars
      ensures AsOutcome(r, State()) == Interp.Eval(w, fuel, code, old(State()))
      decreases fuel, 0, 0
    {
      hide EvalToken, EvalAll, EvalArgs, RunBuiltin, Default, Apply, BuiltinOf, OperatorName, Doc, Head, ArityOk, Get;
      if fuel == 0 {
        return OutOfFuel;
      }
      match code
      case Tok(tok) =>
        r := EvalTok(tok);
      case List(items) =>
        if items == [] || Head(items[0]).None? {
          return Raised;
        }
        var name, args := Head(items[0]).value, items[1..];
        var func := vars.Lookup(w, name);
        if func.Some? && func.value != VNone {
          var r', vs := EvalEach(fuel - 1, args);
          if !r'.Returned? {
            return r';
          }
          r := ApplyTo(func.value, vs);
        } else if BuiltinOf(name).Some? {
          r := Dispatch(fuel - 1, BuiltinOf(name).value, args);
        } else {
          r := DefaultCall(fuel - 1, name, args);
        }
    }

    method EvalTok(tok: Token) returns (r: Result)
      ensures AsOutcome(r, State()) == EvalToken(w, tok, State())
    {
      if tok.kind == "number" {
        match tok.lexeme
        case IntLit(i) => return Returned(VInt(i));
        case FloatLit(x) => return Returned(VFloat(x));
        case Text(_) => return Raised;
      } else if tok.kind == "string" {
        return Returned(VStr(Inner(TextOf(tok))));
      } else if tok.kind == "symbol" {
        if TextOf(tok) == "nil" {
          return Returned(VNone);
        }
        var v := vars.Lookup(w, TextOf(tok));
        return if v.Some? then Returned(v.value) else Raised;
      } else {
        return Raised;
      }
    }

    method ApplyTo(f: Value, vs: seq<Value>) returns (r: Result)
      modifies this
      ensures AsOutcome(r, State()) == Apply(w, f, vs, old(State()))
    {
      if f.VMethod? && f.name == "Control" && |vs| == 2 {
        log := log + [Write(f.id, vs[0], vs[1])];
        return Returned(VNone);
      } else if f == VExtern("abs") && |vs| == 1 && Number(vs[0]) {
        return Returned(Absolute(vs[0]));
      } else if f == VExtern("debug") {
        return if vs == [] then Raised else Returned(vs[|vs| - 1]);
      } else {
        var v := w.call(f, vs);
        return if v.Some? then Returned(v.value) else Raised;
      }
    }

    /** `map(self.eval, codes)` */
    method EvalEach(fuel: nat, codes: seq<Code>) returns (r: Result, vs: seq<Value>)
      modifies this, vars
      ensures var o := EvalAll(w, fuel, codes, old(State()));
              if r.Returned? then o == Rets(vs, State()) else o == NoRets(AsOutcome(r, State()))
      decreases fuel, 1, |codes|
    {
      vs := [];
      ghost var env := State();
      for n := 0 to |codes|
        invariant EvalAll(w, fuel, codes[..n], env) == Rets(vs, State())
      {
        assert codes[..n + 1][..n] == codes[..n];
        r := Eval(fuel, codes[n]);
        if !r.Returned? {
          AllStops(w, fuel, codes, n + 1, env);
          return r, vs;
        }
        vs := vs + [r.v];
      }
      assert codes[..|codes|] == codes;
      r := Returned(VNone);
    }

    /** `_dispatch`: checks the number of arguments, treats them as the doc string asks, and
        calls the function. */
    method Dispatch(fuel: nat, fn: Builtin, codes: seq<Code>) returns (r: Result)
      modifies this, vars
      ensures AsOutcome(r, State()) ==
                if !ArityOk(Doc(fn), |codes|) then Raise(old(State()))
                else match EvalArgs(w, fuel, Doc(fn), codes, old(State()))
                  case GotArgs(got, env) => RunBuiltin(w, fuel, fn, got, env)
                  case NoArgs(o) => o
      decreases fuel, 2, 1
    {
      hide RunBuiltin, Interp.Eval, EvalArgs;
      var types := Doc(fn);
      if types[|types| - 1] != More && |types| != |codes| {
        return Raised;
      } else if types[|types| - 1] == More && |types| > |codes| + 1 {
        return Raised;
      }
      DocEllipsis(fn);
      var r', args := TreatArgs(fuel, types, codes);
      if !r'.Returned? {
        return r';
      }
      r := CallBuiltin(fuel, fn, args);
    }

    /** The loop of `_dispatch` over the arguments, which it overwrites one by one. */
    method TreatArgs(fuel: nat, doc: seq<ArgType>, codes: seq<Code>) returns (r: Result, got: seq<Arg>)
      requires EllipsisLast(doc) && ArityOk(doc, |codes|)
      modifies this, vars
      ensures var o := EvalArgs(w, fuel, doc, codes, old(State()));
              if r.Returned? then o == GotArgs(got, State()) else o == NoArgs(AsOutcome(r, State()))
      decreases fuel, 1, |codes|
    {
      hide Interp.Eval, EvalArgs, ArityOk, EllipsisLast, LastType, Remaining, TypeOf;
      ghost var env := State();
      var types := doc;
      var args := new Arg[|codes|](k requires 0 <= k < |codes| => ACode(codes[k]));
      got := [];
      var i, type_ := 0, TValue;
      RemainingStarts(doc);
      NoArgsYet(w, fuel, doc, codes, env);
      while types != [] && i < args.Length
        invariant i <= args.Length && types == Remaining(doc, i)
        invariant i > 0 ==> type_ == LastType(doc, i - 1)
        invariant EvalArgs(w, fuel, doc, codes[..i], env) == GotArgs(args[..i], State())
        invariant forall k :: i <= k < args.Length ==> args[k] == ACode(codes[k])
      {
        RemainingGoesOn(doc, i, |codes|);
        if types[0] != More {
          type_, types := types[0], types[1..];
        } else if i == 0 {
          type_ := types[0];
        }
        ArgsStep(w, fuel, doc, codes, i, env);
        if type_ == TCode {
        } else if type_ == TSymbol {
          if !(codes[i].Tok? && codes[i].token.kind == "symbol") {
            ArgsStop(w, fuel, doc, codes, i + 1, env);
            return Raised, got;
          }
          args[i] := ASym(TextOf(codes[i].token));
        } else {
          r := Eval(fuel, codes[i]);
          if !r.Returned? {
            ArgsStop(w, fuel, doc, codes, i + 1, env);
            return r, got;
          }
          args[i] := AVal(r.v);
        }
        i := i + 1;
        assert args[..i] == args[..i - 1] + [args[i - 1]];
      }
      RemainingEnds(doc, i, |codes|);
      assert codes[..|codes|] == codes && args[..|codes|] == args[..];
      r, got := Returned(VNone), args[..];
    }

    method CallBuiltin(fuel: nat, fn: Builtin, args: seq<Arg>) returns (r: Result)
      modifies this, vars
      ensures AsOutcome(r, State()) == RunBuiltin(w, fuel, fn, args, old(State()))
      decreases fuel, 2, 0
    {
      match fn
      case Def =>
        if |args| == 3 && args[0].ASym? && args[1].ACode? && args[2].ACode? {
          funcs := funcs[args[0].name := (args[1].c, args[2].c)];
          return Returned(VStr(args[0].name));
        }
        return Raised;
      case SetVar =>
        if |args| == 2 && args[0].ASym? && args[1].AVal? {
          var ok := vars.SetInnermost(args[0].name, args[1].v);
          return if ok then Returned(args[1].v) else Raised;
        }
        return Raised;
      case DefVar =>
        if |args| == 2 && args[0].ASym? && args[1].AVal? && vars.stack != [] {
          var v := vars.Allocate(args[0].name, args[1].v);
          return Returned(v);
        }
        return Raised;
      case Let =>
        if |args| >= 2 && args[0].ACode? && args[0].c.List? && (forall k :: 1 <= k < |args| ==> args[k].ACode?) {
          r := CLet(fuel, args[0].c.items, CodesOf(args[1..]));
          return;
        }
        return Raised;
      case With =>
        if |args| == 3 && args[0].ASym? && args[1].ASym? && args[2].ACode? {
          r := CWith(fuel, args[0].name, args[1].name, args[2].c);
          return;
        }
        return Raised;
      case If =>
        if |args| == 3 && args[0].AVal? && args[1].ACode? && args[2].ACode? {
          if Truthy(args[0].v) {
            r := Eval(fuel, args[1].c);
          } else {
            r := Eval(fuel, args[2].c);
          }
          return;
        }
        return Raised;
      case _ =>
        var o := Compute(w, fn, args, Env([], map[], []));
        ComputeIsPure(w, fn, args, State());
        return if o.Ret? then Returned(o.v) else Raised;
    }

    method CLet(fuel: nat, syms: seq<Code>, code: seq<Code>) returns (r: Result)
      requires code != []
      modifies this, vars
      ensures AsOutcome(r, State()) ==
                match Bind(w, fuel, syms, Enter(old(State())))
                case Ret(_, env') =>
                  (match EvalAll(w, fuel, code, env')
                  case Rets(vs, env'') => Ret(vs[|vs| - 1], Leave(env''))
                  case NoRets(o) => o)
                case o => o
      decreases fuel, 1, |syms| + |code| + 1
    {
      hide Interp.Eval, EvalAll;
      vars.EnterScope();
      ghost var env := State();
      for n := 0 to |syms|
        invariant Bind(w, fuel, syms[..n], env) == Ret(VNone, State())
      {
        assert syms[..n + 1][..n] == syms[..n];
        var sym := syms[n];
        if sym.Tok? || |sym.items| != 2 || sym.items[0].List? || sym.items[0].token.kind != "symbol" {
          BindStops(w, fuel, syms, n + 1, env);
          return Raised;
        }
        r := Eval(fuel, sym.items[1]);
        if !r.Returned? || vars.stack == [] {
          BindStops(w, fuel, syms, n + 1, env);
          return if r.Returned? then Raised else r;
        }
        var _ := vars.Allocate(TextOf(sym.items[0].token), r.v);
      }
      assert syms[..|syms|] == syms;
      var vs;
      r, vs := EvalEach(fuel, code);
      if r.Returned? {
        vars.LeaveScope();
        r := Returned(vs[|vs| - 1]);
      }
    }

    method CWith(fuel: nat, iterable: string, iterator_: string, code: Code) returns (r: Result)
      modifies this, vars
      ensures AsOutcome(r, State()) ==
                RunBuiltin(w, fuel, With, [ASym(iterable), ASym(iterator_), ACode(code)], old(State()))
      decreases fuel, 1, 0
    {
      hide Interp.Eval, Iterate, Compute, Bind, EvalAll, Get;
      var list := vars.Lookup(w, iterable);
      if list.None? || Iterate(list.value).None? {
        return Raised;
      }
      var items, result := Iterate(list.value).value, [];
      ghost var env := State();
      for n := 0 to |items|
        invariant Each(w, fuel, items[..n], iterator_, code, env) == Rets(result, State())
      {
        assert items[..n + 1][..n] == items[..n];
        vars.EnterScope();
        var _ := vars.Allocate(iterator_, items[n]);
        r := Eval(fuel, code);
        if !r.Returned? {
          EachStops(w, fuel, items, iterator_, code, n + 1, env);
          return r;
        }
        result := result + [r.v];
        vars.LeaveScope();
      }
      assert items[..|items|] == items;
      r := Returned(VList(result));
    }

    method DefaultCall(fuel: nat, name: string, args: seq<Code>) returns (r: Result)
      modifies this, vars
      ensures AsOutcome(r, State()) == Default(w, fuel, name, args, old(State()))
      decreases fuel, 2, 0
    {
      if name == "eval" {
        var vs;
        r, vs := EvalEach(fuel, args);
        if r.Returned? {
          r := if vs == [] then Raised else Returned(vs[|vs| - 1]);
        }
        return;
      }
      if name !in funcs || funcs[name].0.Tok? || |funcs[name].0.items| != |args| {
        return Raised;
      }
      var params, code := funcs[name].0.items, funcs[name].1;
      var scope := [];
      for i := 0 to |params|
        invariant scope == seq(i, k requires 0 <= k < i => List([params[k], args[k]]))
      {
        scope := scope + [List([params[i], args[i]])];
      }
      assert List(scope) == Bindings(params, args);
      r := Eval(fuel, List([LetCode(), List(scope), code]));
    }
  }

  /** What is left of the types before argument i. */
  function Remaining(types: seq<ArgType>, i: nat): seq<ArgType> {
    if types != [] && types[|types| - 1] == More && i >= |types| then [More] else if i <= |types| then types[i..]
      else []
  }

  /** The type the loop last took: as `TypeOf`, but a lone "..." stands for itself. */
  function LastType(types: seq<ArgType>, i: nat): ArgType
    requires types != []
  {
    if types == [More] then More else TypeOf(types, i)
  }

  ghost predicate EllipsisLast(types: seq<ArgType>) {
    types != [] && (forall k :: 0 <= k < |types| - 1 ==> types[k] != More)
  }

  lemma RemainingStarts(types: seq<ArgType>)
    ensures Remaining(types, 0) == types && (EllipsisLast(types) ==> types != [])
  {
  }

  lemma RemainingGoesOn(types: seq<ArgType>, i: nat, n: nat)
    requires EllipsisLast(types) && ArityOk(types, n) && i < n
    ensures Remaining(types, i) != []
    ensures Remaining(types, i)[0] != More ==>
              LastType(types, i) == Remaining(types, i)[0] && Remaining(types, i + 1) == Remaining(types, i)[1..]
    ensures Remaining(types, i)[0] == More ==>
              LastType(types, i) ==
              (if i == 0 then More else LastType(types, i - 1)) && Remaining(types, i + 1) == Remaining(types, i)
    ensures LastType(types, i) == TCode <==> TypeOf(types, i) == TCode
    ensures LastType(types, i) == TSymbol <==> TypeOf(types, i) == TSymbol
  {
  }

  lemma RemainingEnds(types: seq<ArgType>, i: nat, n: nat)
    requires types != [] && ArityOk(types, n) && i <= n && (Remaining(types, i) == [] || i == n)
    ensures i == n
  {
  }

  lemma DocEllipsis(b: Builtin)
    ensures EllipsisLast(Doc(b))
  {
  }

  lemma NoArgsYet(w: World, fuel: nat, types: seq<ArgType>, codes: seq<Code>, env: Env)
    requires types != []
    ensures EvalArgs(w, fuel, types, codes[..0], env) == GotArgs([], env)
  {
  }

  lemma ArgsStep(w: World, fuel: nat, types: seq<ArgType>, codes: seq<Code>, i: nat, env: Env)
    requires types != [] && i < |codes| && EvalArgs(w, fuel, types, codes[..i], env).GotArgs?
    ensures var GotArgs(args, env') := EvalArgs(w, fuel, types, codes[..i], env);
            EvalArgs(w, fuel, types, codes[..i + 1], env) ==
              match TypeOf(types, i)
              case TCode => GotArgs(args + [ACode(codes[i])], env')
              case TSymbol =>
                if codes[i].Tok? && codes[i].token.kind ==
                  "symbol" then GotArgs(args + [ASym(TextOf(codes[i].token))], env') else NoArgs(Raise(env'))
              case _ =>
                match Interp.Eval(w, fuel, codes[i], env')
                case Ret(v, env'') => GotArgs(args + [AVal(v)], env'')
                case Raise(env'') => NoArgs(Raise(env''))
                case Timeout => NoArgs(Timeout)
  {
    assert codes[..i + 1][..i] == codes[..i];
  }

  lemma ComputeIsPure(w: World, b: Builtin, args: seq<Arg>, env: Env)
    ensures match Compute(w, b, args, Env([], map[], []))
            case Ret(v, _) => Compute(w, b, args, env) == Ret(v, env)
            case _ => Compute(w, b, args, env) == Raise(env)
  {
  }
}

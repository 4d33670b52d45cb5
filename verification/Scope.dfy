/** What evaluation may do to the scopes around it: frames come and go in step, names stay,
    and a name bound in some scope shields all further-out variables of that name. */
module Scope {
  import opened PolicyGrammar
  import opened PolicyValues
  import opened Interp

  /** From `s` to `t` no frame was added or dropped and no name was lost; only the innermost
      frame got new names; and where a name was bound in frame i, every frame further out
      says about that name what it said before. */
  ghost predicate Keeps(s: seq<Frame>, t: seq<Frame>) {
    && |s| == |t|
    && (forall j :: 0 <= j < |s| ==> s[j].Keys <= t[j].Keys)
    && (forall j :: 1 <= j < |s| ==> s[j].Keys == t[j].Keys)
    && (forall i, j, x :: 0 <= i < j < |s| && x in s[i] && x in s[j] ==> t[j][x] == s[j][x])
  }

  /** An exception leaves the scopes it was raised in on top. */
  ghost predicate KeepsBelow(s: seq<Frame>, t: seq<Frame>) {
    |s| <= |t| && Keeps(s, t[|t| - |s|..])
  }

  ghost predicate Grows(e: Env, e': Env) {
    e.log <= e'.log && e.funcs.Keys <= e'.funcs.Keys
  }

  ghost predicate Orderly(env: Env, o: Outcome) {
    match o
    case Ret(_, env') => Keeps(env.stack, env'.stack) && Grows(env, env')
    case Raise(env') => KeepsBelow(env.stack, env'.stack) && Grows(env, env')
    case Timeout => true
  }

  lemma KeepsRefl(s: seq<Frame>)
    ensures Keeps(s, s) && KeepsBelow(s, s)
  {
    assert s[|s| - |s|..] == s;
  }

  lemma KeepsTrans(s: seq<Frame>, t: seq<Frame>, u: seq<Frame>)
    requires Keeps(s, t) && Keeps(t, u)
    ensures Keeps(s, u)
  {
    forall i, j, x | 0 <= i < j < |s| && x in s[i] && x in s[j]
      ensures u[j][x] == s[j][x]
    {
      assert x in t[i].Keys && x in t[j].Keys;
    }
  }

  lemma KeepsBelowTrans(s: seq<Frame>, t: seq<Frame>, u: seq<Frame>)
    requires Keeps(s, t) && KeepsBelow(t, u)
    ensures KeepsBelow(s, u)
  {
    KeepsTrans(s, t, u[|u| - |t|..]);
  }

  /** Whatever happens in an inner scope, the outer ones are kept. */
  lemma KeepsOuter(f: Frame, s: seq<Frame>, u: seq<Frame>)
    ensures Keeps([f] + s, u) ==> u != [] && Keeps(s, u[1..])
    ensures KeepsBelow([f] + s, u) ==> KeepsBelow(s, u)
  {
    if Keeps([f] + s, u) {
      KeepsTail(f, s, u);
    }
    if KeepsBelow([f] + s, u) {
      var t := u[|u| - |s| - 1..];
      KeepsTail(f, s, t);
      assert t[1..] == u[|u| - |s|..];
    }
  }

  lemma KeepsTail(f: Frame, s: seq<Frame>, u: seq<Frame>)
    requires Keeps([f] + s, u)
    ensures Keeps(s, u[1..])
  {
    var whole := [f] + s;
    assert forall j :: 0 <= j < |s| ==> s[j] == whole[j + 1] && u[1..][j] == u[j + 1];
    forall i, j, x | 0 <= i < j < |s| && x in s[i] && x in s[j]
      ensures u[1..][j][x] == s[j][x]
    {
      assert x in whole[i + 1] && x in whole[j + 1];
    }
  }

  /** Frame k, the innermost that has x, and no other frame changed. */
  ghost predicate AssignsAt(s: seq<Frame>, t: seq<Frame>, x: string, v: Value, k: nat) {
    k < |s| && x in s[k] && (forall i :: 0 <= i < k ==> x !in s[i]) && t == s[k := s[k][x := v]]
  }

  /** `set` changes the innermost frame that has the name, and fails if none has. */
  lemma {:induction false} AssignHitsInnermost(stack: seq<Frame>, x: string, v: Value)
    ensures Assign(stack, x, v).None? <==> forall k :: 0 <= k < |stack| ==> x !in stack[k]
    ensures Assign(stack, x, v).Some? ==> exists k: nat :: AssignsAt(stack, Assign(stack, x, v).value, x, v, k)
  {
    if stack != [] {
      AssignHitsInnermost(stack[1..], x, v);
      if x in stack[0] {
        assert AssignsAt(stack, Assign(stack, x, v).value, x, v, 0);
      } else if Assign(stack[1..], x, v).Some? {
        var rest := Assign(stack[1..], x, v).value;
        var k: nat :| AssignsAt(stack[1..], rest, x, v, k);
        assert AssignsAt(stack, [stack[0]] + rest, x, v, k + 1);
      } else {
        assert forall k :: 0 <= k < |stack| - 1 ==> stack[1..][k] == stack[k + 1];
      }
    }
  }

  lemma AssignKeeps(stack: seq<Frame>, x: string, v: Value)
    requires Assign(stack, x, v).Some?
    ensures Keeps(stack, Assign(stack, x, v).value)
  {
    AssignHitsInnermost(stack, x, v);
  }

  lemma DefineKeeps(env: Env, x: string, v: Value)
    requires env.stack != []
    ensures Keeps(env.stack, Define(env, x, v).stack) && Grows(env, Define(env, x, v))
    ensures x in Define(env, x, v).stack[0]
  {
    hide BuiltinOf;
    var t := Define(env, x, v).stack;
    assert forall j :: 1 <= j < |t| ==> t[j] == env.stack[j];
  }

  /** One evaluation after another. */
  lemma ThenOrderly(env: Env, env': Env, o: Outcome)
    requires Keeps(env.stack, env'.stack) && Grows(env, env') && Orderly(env', o)
    ensures Orderly(env, o)
  {
    match o
    case Ret(_, env'') => KeepsTrans(env.stack, env'.stack, env''.stack);
    case Raise(env'') => KeepsBelowTrans(env.stack, env'.stack, env''.stack);
    case Timeout =>
  }

  lemma StayOrderly(env: Env)
    ensures Orderly(env, Raise(env))
    ensures forall v :: Orderly(env, Ret(v, env))
    ensures Keeps(env.stack, env.stack) && Grows(env, env)
  {
    KeepsRefl(env.stack);
  }

  // ---------------------------------------------------------------- every evaluation is orderly

  /** Every evaluation, at any fuel, of any code in any state. */
  lemma {:induction false} EvalIsOrderly(w: World, fuel: nat, c: Code, env: Env)
    ensures Orderly(env, Eval(w, fuel, c, env))
    decreases fuel, 0, 0
  {
    StayOrderly(env);
    if fuel > 0 && c.List? && c.items != [] && Head(c.items[0]).Some? {
      CallIsOrderly(w, fuel - 1, Head(c.items[0]).value, c.items[1..], env);
    }
  }

  lemma {:induction false} CallIsOrderly(w: World, fuel: nat, name: string, args: seq<Code>, env: Env)
    ensures Orderly(env, Call(w, fuel, name, args, env))
    decreases fuel, 3, 0
  {
    StayOrderly(env);
    hide Keeps, KeepsBelow, Grows, BuiltinOf, Get;
    var f := Get(w, env.stack, name);
    if f.Some? && f.value != VNone {
      AllAreOrderly(w, fuel, args, env);
      var r := EvalAll(w, fuel, args, env);
      if r.Rets? {
        ApplyIsOrderly(w, f.value, r.vs, r.envs);
        ThenOrderly(env, r.envs, Apply(w, f.value, r.vs, r.envs));
      }
    } else if BuiltinOf(name).Some? {
      var types := Doc(BuiltinOf(name).value);
      if ArityOk(types, |args|) {
        ArgsAreOrderly(w, fuel, types, args, env);
        var r := EvalArgs(w, fuel, types, args, env);
        if r.GotArgs? {
          RunIsOrderly(w, fuel, BuiltinOf(name).value, r.args, r.enva);
          ThenOrderly(env, r.enva, RunBuiltin(w, fuel, BuiltinOf(name).value, r.args, r.enva));
        }
      }
    } else {
      DefaultIsOrderly(w, fuel, name, args, env);
    }
  }

  lemma ApplyIsOrderly(w: World, f: Value, vs: seq<Value>, env: Env)
    ensures Orderly(env, Apply(w, f, vs, env))
  {
    StayOrderly(env);
  }

  ghost predicate AllOrderly(env: Env, r: Outcomes) {
    match r
    case Rets(_, env') => Keeps(env.stack, env'.stack) && Grows(env, env')
    case NoRets(o) => !o.Ret? && Orderly(env, o)
  }

  lemma {:induction false} AllAreOrderly(w: World, fuel: nat, codes: seq<Code>, env: Env)
    ensures AllOrderly(env, EvalAll(w, fuel, codes, env))
    decreases fuel, 1, |codes|
  {
    StayOrderly(env);
    hide Keeps, KeepsBelow, Grows;
    if codes != [] {
      var init, last := codes[..|codes| - 1], codes[|codes| - 1];
      AllAreOrderly(w, fuel, init, env);
      var r := EvalAll(w, fuel, init, env);
      if r.Rets? {
        EvalIsOrderly(w, fuel, last, r.envs);
        ThenOrderly(env, r.envs, Eval(w, fuel, last, r.envs));
      }
    }
  }

  ghost predicate ArgsOrderly(env: Env, r: Args) {
    match r
    case GotArgs(_, env') => Keeps(env.stack, env'.stack) && Grows(env, env')
    case NoArgs(o) => !o.Ret? && Orderly(env, o)
  }

  lemma {:induction false} ArgsAreOrderly(w: World, fuel: nat, types: seq<ArgType>, codes: seq<Code>, env: Env)
    requires types != []
    ensures ArgsOrderly(env, EvalArgs(w, fuel, types, codes, env))
    decreases fuel, 1, |codes|
  {
    StayOrderly(env);
    hide Keeps, KeepsBelow, Grows;
    if codes != [] {
      var init, last := codes[..|codes| - 1], codes[|codes| - 1];
      ArgsAreOrderly(w, fuel, types, init, env);
      var r := EvalArgs(w, fuel, types, init, env);
      if r.GotArgs? {
        StayOrderly(r.enva);
        ThenOrderly(env, r.enva, Raise(r.enva));
        if TypeOf(types, |codes| - 1) != TCode && TypeOf(types, |codes| - 1) != TSymbol {
          EvalIsOrderly(w, fuel, last, r.enva);
          ThenOrderly(env, r.enva, Eval(w, fuel, last, r.enva));
        }
      }
    }
  }

  lemma {:induction false} DefaultIsOrderly(w: World, fuel: nat, name: string, args: seq<Code>, env: Env)
    ensures Orderly(env, Default(w, fuel, name, args, env))
    decreases fuel, 2, 0
  {
    StayOrderly(env);
    hide Keeps, KeepsBelow, Grows;
    if name == "eval" {
      AllAreOrderly(w, fuel, args, env);
      var r := EvalAll(w, fuel, args, env);
      if r.Rets? {
        StayOrderly(r.envs);
        ThenOrderly(env, r.envs, Raise(r.envs));
      }
    } else if name in env.funcs && env.funcs[name].0.List? && |env.funcs[name].0.items| == |args| {
      EvalIsOrderly(w, fuel, List([LetCode(), Bindings(env.funcs[name].0.items, args), env.funcs[name].1]), env);
    }
  }

  lemma {:induction false} RunIsOrderly(w: World, fuel: nat, b: Builtin, args: seq<Arg>, env: Env)
    ensures Orderly(env, RunBuiltin(w, fuel, b, args, env))
    decreases fuel, 2, 0
  {
    StayOrderly(env);
    match b
    case SetVar =>
      if |args| == 2 && args[0].ASym? && args[1].AVal? && Assign(env.stack, args[0].name, args[1].v).Some? {
        AssignKeeps(env.stack, args[0].name, args[1].v);
      }
    case DefVar =>
      if |args| == 2 && args[0].ASym? && args[1].AVal? && env.stack != [] {
        DefineKeeps(env, args[0].name, args[1].v);
      }
    case Let =>
      if |args| >= 2 && args[0].ACode? && args[0].c.List? && (forall k :: 1 <= k < |args| ==> args[k].ACode?) {
        LetIsOrderly(w, fuel, args[0].c.items, CodesOf(args[1..]), env);
      }
    case With =>
      if |args| == 3 && args[0].ASym? && args[1].ASym? && args[2].ACode? && Get(w, env.stack, args[0].name).Some? {
        var items := Iterate(Get(w, env.stack, args[0].name).value);
        if items.Some? {
          EachIsOrderly(w, fuel, items.value, args[1].name, args[2].c, env);
        }
      }
    case If =>
      if |args| == 3 && args[0].AVal? && args[1].ACode? && args[2].ACode? {
        EvalIsOrderly(w, fuel, if Truthy(args[0].v) then args[1].c else args[2].c, env);
      }
    case _ =>
  }

  /** The body of a `let`, after its bindings, and then the scope is left. */
  ghost predicate LetOrderly(w: World, fuel: nat, body: seq<Code>, env: Env, bound: Outcome) {
    if bound.Ret? then
      var r := EvalAll(w, fuel, body, bound.env);
      if r.Rets? then Keeps(env.stack, Leave(r.envs).stack) && Grows(env, r.envs) else !r.o.Ret? && Orderly(env, r.o)
    else
      Orderly(env, bound)
  }

  lemma {:induction false} LetIsOrderly(w: World, fuel: nat, syms: seq<Code>, body: seq<Code>, env: Env)
    ensures LetOrderly(w, fuel, body, env, Bind(w, fuel, syms, Enter(env)))
    decreases fuel, 1, |syms| + |body| + 1
  {
    BindIsOrderly(w, fuel, syms, Enter(env));
    var o := Bind(w, fuel, syms, Enter(env));
    match o
    case Ret(_, env') =>
      AllAreOrderly(w, fuel, body, env');
      match EvalAll(w, fuel, body, env') {
        case Rets(_, env'') =>
          KeepsTrans(Enter(env).stack, env'.stack, env''.stack);
          KeepsOuter(map[], env.stack, env''.stack);
        case NoRets(p) =>
          ThenOrderly(Enter(env), env', p);
          RaiseFromInner(env, map[], p);
      }
    case _ => RaiseFromInner(env, map[], o);
  }

  lemma KeepsNonempty(env: Env)
    requires env.stack != []
    ensures forall t :: Keeps(env.stack, t) ==> t != []
  {
  }

  lemma RaiseFromInner(env: Env, f: Frame, o: Outcome)
    requires Orderly(env.(stack := [f] + env.stack), o) && !o.Ret?
    ensures Orderly(env, o)
  {
    if o.Raise? {
      KeepsOuter(f, env.stack, o.env.stack);
    }
  }

  lemma {:induction false} BindIsOrderly(w: World, fuel: nat, syms: seq<Code>, env: Env)
    requires env.stack != []
    ensures Orderly(env, Bind(w, fuel, syms, env))
    decreases fuel, 1, |syms|
  {
    StayOrderly(env);
    KeepsNonempty(env);
    hide Keeps, KeepsBelow, Grows;
    if syms != [] {
      BindIsOrderly(w, fuel, syms[..|syms| - 1], env);
      var o := Bind(w, fuel, syms[..|syms| - 1], env);
      if o.Ret? {
        var sym, env' := syms[|syms| - 1], o.env;
        StayOrderly(env');
        if sym.Tok? || |sym.items| != 2 || sym.items[0].List? || sym.items[0].token.kind != "symbol" {
          ThenOrderly(env, env', Raise(env'));
        } else {
          EvalIsOrderly(w, fuel, sym.items[1], env');
          var p := Eval(w, fuel, sym.items[1], env');
          ThenOrderly(env, env', p);
          if p.Ret? {
            DefineKeeps(p.env, TextOf(sym.items[0].token), p.v);
            ThenOrderly(env, p.env, Ret(VNone, Define(p.env, TextOf(sym.items[0].token), p.v)));
          }
        }
      }
    }
  }

  lemma {:induction false} EachIsOrderly(w: World, fuel: nat, items: seq<Value>, x: string, c: Code, env: Env)
    ensures AllOrderly(env, Each(w, fuel, items, x, c, env))
    decreases fuel, 1, |items|
  {
    StayOrderly(env);
    if items != [] {
      EachIsOrderly(w, fuel, items[..|items| - 1], x, c, env);
      var r := Each(w, fuel, items[..|items| - 1], x, c, env);
      if r.Rets? {
        var inner := Define(Enter(r.envs), x, items[|items| - 1]);
        var f := inner.stack[0];
        assert inner == r.envs.(stack := [f] + r.envs.stack);
        EvalIsOrderly(w, fuel, c, inner);
        var o := Eval(w, fuel, c, inner);
        if o.Ret? {
          KeepsOuter(f, r.envs.stack, o.env.stack);
          KeepsTrans(env.stack, r.envs.stack, Leave(o.env).stack);
        } else {
          RaiseFromInner(r.envs, f, o);
          ThenOrderly(env, r.envs, o);
        }
      }
    }
  }

  // ---------------------------------------------------------------- what it means

  /** An evaluation that returns leaves as many scopes as it found, with all their names; only
      the innermost can have new ones. */
  lemma ReturnsRestoreScopes(w: World, fuel: nat, c: Code, env: Env)
    requires Eval(w, fuel, c, env).Ret?
    ensures var after := Eval(w, fuel, c, env).env.stack;
            && |after| == |env.stack|
            && (forall j, x :: 0 <= j < |after| && x in env.stack[j] ==> x in after[j])
            && (forall j, x :: 1 <= j < |after| && x in after[j] ==> x in env.stack[j])
  {
    EvalIsOrderly(w, fuel, c, env);
    var after := Eval(w, fuel, c, env).env.stack;
    forall j, x | 0 <= j < |after| && x in env.stack[j]
      ensures x in after[j]
    {
      assert env.stack[j].Keys <= after[j].Keys && x in env.stack[j].Keys;
    }
    forall j, x | 1 <= j < |after| && x in after[j]
      ensures x in env.stack[j]
    {
      assert env.stack[j].Keys == after[j].Keys && x in after[j].Keys;
    }
  }

  /** Shielding: while a parameter, `let` or `with` variable is bound in the innermost scope,
      no evaluated code changes what its name, or an attribute reached through it, means to
      the scopes around. */
  lemma BoundNameShields(w: World, fuel: nat, c: Code, env: Env, name: string)
    requires env.stack != [] && BeforeDot(name) in env.stack[0]
    requires Eval(w, fuel, c, env).Ret?
    ensures Get(w, Leave(Eval(w, fuel, c, env).env).stack, name) == Get(w, Leave(env).stack, name)
  {
    EvalIsOrderly(w, fuel, c, env);
    var s, t := env.stack, Eval(w, fuel, c, env).env.stack;
    var x := BeforeDot(name);
    forall j | 0 <= j < |s| - 1
      ensures (x in s[1..][j] <==> x in t[1..][j]) && (x in s[1..][j] ==> s[1..][j][x] == t[1..][j][x])
    {
      assert s[j + 1].Keys == t[j + 1].Keys && x in s[0];
      assert x in s[j + 1].Keys <==> x in t[j + 1].Keys;
    }
    SameLookup(w, s[1..], t[1..], name);
  }

  lemma {:induction false} SameLookup(w: World, s: seq<Frame>, t: seq<Frame>, name: string)
    requires |s| == |t|
    requires var x := BeforeDot(name); forall j :: 0 <= j < |s| ==>
               (x in s[j] <==> x in t[j]) && (x in s[j] ==> s[j][x] == t[j][x])
    ensures Get(w, s, name) == Get(w, t, name)
  {
    if s != [] {
      assert forall j :: 0 <= j < |s| - 1 ==> s[1..][j] == s[j + 1] && t[1..][j] == t[j + 1];
      SameLookup(w, s[1..], t[1..], name);
    }
  }

  /** More fuel changes no result: fuel only decides whether there is one. */
  lemma {:induction false} FuelIsEnough(w: World, fuel: nat, more: nat, c: Code, env: Env)
    requires fuel <= more && !Eval(w, fuel, c, env).Timeout?
    ensures Eval(w, more, c, env) == Eval(w, fuel, c, env)
    decreases fuel, 0, 0
  {
    if c.List? && c.items != [] && Head(c.items[0]).Some? {
      CallFuel(w, fuel - 1, more - 1, Head(c.items[0]).value, c.items[1..], env);
    }
  }

  lemma {:induction false} CallFuel(w: World, fuel: nat, more: nat, name: string, args: seq<Code>, env: Env)
    requires fuel <= more && !Call(w, fuel, name, args, env).Timeout?
    ensures Call(w, more, name, args, env) == Call(w, fuel, name, args, env)
    decreases fuel, 3, 0
  {
    var f := Get(w, env.stack, name);
    if f.Some? && f.value != VNone {
      AllFuel(w, fuel, more, args, env);
    } else if BuiltinOf(name).Some? {
      var types := Doc(BuiltinOf(name).value);
      if ArityOk(types, |args|) {
        ArgsFuel(w, fuel, more, types, args, env);
        var r := EvalArgs(w, fuel, types, args, env);
        if r.GotArgs? {
          RunFuel(w, fuel, more, BuiltinOf(name).value, r.args, r.enva);
        }
      }
    } else {
      DefaultFuel(w, fuel, more, name, args, env);
    }
  }

  lemma {:induction false} AllFuel(w: World, fuel: nat, more: nat, codes: seq<Code>, env: Env)
    requires fuel <= more && EvalAll(w, fuel, codes, env) != NoRets(Timeout)
    ensures EvalAll(w, more, codes, env) == EvalAll(w, fuel, codes, env)
    decreases fuel, 1, |codes|
  {
    if codes != [] {
      var init, last := codes[..|codes| - 1], codes[|codes| - 1];
      AllFuel(w, fuel, more, init, env);
      var r := EvalAll(w, fuel, init, env);
      if r.Rets? {
        FuelIsEnough(w, fuel, more, last, r.envs);
      }
    }
  }

  lemma {:induction false} ArgsFuel(w: World, fuel: nat, more: nat, types: seq<ArgType>, codes: seq<Code>, env: Env)
    requires types != [] && fuel <= more && EvalArgs(w, fuel, types, codes, env) != NoArgs(Timeout)
    ensures EvalArgs(w, more, types, codes, env) == EvalArgs(w, fuel, types, codes, env)
    decreases fuel, 1, |codes|
  {
    if codes != [] {
      var init, last := codes[..|codes| - 1], codes[|codes| - 1];
      ArgsFuel(w, fuel, more, types, init, env);
      var r := EvalArgs(w, fuel, types, init, env);
      if r.GotArgs? && TypeOf(types, |codes| - 1) != TCode && TypeOf(types, |codes| - 1) != TSymbol {
        FuelIsEnough(w, fuel, more, last, r.enva);
      }
    }
  }

  lemma {:induction false} DefaultFuel(w: World, fuel: nat, more: nat, name: string, args: seq<Code>, env: Env)
    requires fuel <= more && !Default(w, fuel, name, args, env).Timeout?
    ensures Default(w, more, name, args, env) == Default(w, fuel, name, args, env)
    decreases fuel, 2, 0
  {
    if name == "eval" {
      AllFuel(w, fuel, more, args, env);
    } else if name in env.funcs && env.funcs[name].0.List? && |env.funcs[name].0.items| == |args| {
      FuelIsEnough(w, fuel, more, List([LetCode(), Bindings(env.funcs[name].0.items, args), env.funcs[name].1]), env);
    }
  }

  lemma {:induction false} RunFuel(w: World, fuel: nat, more: nat, b: Builtin, args: seq<Arg>, env: Env)
    requires fuel <= more && !RunBuiltin(w, fuel, b, args, env).Timeout?
    ensures RunBuiltin(w, more, b, args, env) == RunBuiltin(w, fuel, b, args, env)
    decreases fuel, 2, 0
  {
    match b
    case Let =>
      if |args| >= 2 && args[0].ACode? && args[0].c.List? && (forall k :: 1 <= k < |args| ==> args[k].ACode?) {
        BindFuel(w, fuel, more, args[0].c.items, Enter(env));
        var o := Bind(w, fuel, args[0].c.items, Enter(env));
        if o.Ret? {
          AllFuel(w, fuel, more, CodesOf(args[1..]), o.env);
        }
      }
    case With =>
      if |args| == 3 && args[0].ASym? && args[1].ASym? && args[2].ACode? && Get(w, env.stack, args[0].name).Some? {
        var items := Iterate(Get(w, env.stack, args[0].name).value);
        if items.Some? {
          EachFuel(w, fuel, more, items.value, args[1].name, args[2].c, env);
        }
      }
    case If =>
      if |args| == 3 && args[0].AVal? && args[1].ACode? && args[2].ACode? {
        FuelIsEnough(w, fuel, more, if Truthy(args[0].v) then args[1].c else args[2].c, env);
      }
    case _ =>
  }

  lemma {:induction false} BindFuel(w: World, fuel: nat, more: nat, syms: seq<Code>, env: Env)
    requires fuel <= more && !Bind(w, fuel, syms, env).Timeout?
    ensures Bind(w, more, syms, env) == Bind(w, fuel, syms, env)
    decreases fuel, 1, |syms|
  {
    if syms != [] {
      BindFuel(w, fuel, more, syms[..|syms| - 1], env);
      var o, sym := Bind(w, fuel, syms[..|syms| - 1], env), syms[|syms| - 1];
      if o.Ret? && sym.List? && |sym.items| == 2 && sym.items[0].Tok? && sym.items[0].token.kind == "symbol" {
        FuelIsEnough(w, fuel, more, sym.items[1], o.env);
      }
    }
  }

  lemma {:induction false} EachFuel(w: World, fuel: nat, more: nat, items: seq<Value>, x: string, c: Code, env: Env)
    requires fuel <= more && Each(w, fuel, items, x, c, env) != NoRets(Timeout)
    ensures Each(w, more, items, x, c, env) == Each(w, fuel, items, x, c, env)
    decreases fuel, 1, |items|
  {
    if items != [] {
      EachFuel(w, fuel, more, items[..|items| - 1], x, c, env);
      var r := Each(w, fuel, items[..|items| - 1], x, c, env);
      if r.Rets? {
        FuelIsEnough(w, fuel, more, c, Define(Enter(r.envs), x, items[|items| - 1]));
      }
    }
  }
}

/** What `defvar` and the bindings of a `let` do with a name that is bound already. */
module Definitions {
  import opened Grammar
  import opened Options
  import opened PolicyGrammar
  import opened PolicyValues
  import opened Interp
  import opened EvalRules
  import Scope

  /** The stack after a name is defined in the innermost scope: that scope gains the name with the
      value, and nothing else changes; or nothing does, if the name is there. */
  ghost predicate DefinedIn(s: seq<Frame>, t: seq<Frame>, x: string, v: Value)
    requires s != []
  {
    if x in s[0] then t == s
    else
      && |t| == |s| && t[1..] == s[1..]
      && t[0].Keys == s[0].Keys + {x} && t[0][x] == v && forall y :: y in s[0] ==> t[0][y] == s[0][y]
  }

  lemma DefineIs(env: Env, x: string, v: Value)
    requires env.stack != []
    ensures DefinedIn(env.stack, Define(env, x, v).stack, x, v)
    ensures Define(env, x, v).funcs == env.funcs && Define(env, x, v).log == env.log
  {
  }

  /** `(defvar x e)` returns what `x` is in the innermost scope after e: the value it had there, and
      then nothing changes, or else the value of e, and then that scope gains just this name. */
  lemma DefVarKeepsFirst(w: World, fuel: nat, node: Code, x: Token, e: Code, env: Env)
    requires fuel > 0 && Head(node) == Some("defvar") && Visible(w, env, "defvar") && x.kind == "symbol"
    requires env.stack != []
    ensures var o, r := Eval(w, fuel - 1, e, env), Eval(w, fuel, List([node, Tok(x), e]), env);
            if !o.Ret? then r == o
            else
              && o.env.stack != [] && r.Ret? && r.env.funcs == o.env.funcs && r.env.log == o.env.log
              && DefinedIn(o.env.stack, r.env.stack, TextOf(x), o.v)
              && r.v == if TextOf(x) in o.env.stack[0] then o.env.stack[0][TextOf(x)] else o.v
  {
    hide Eval, Get, Head, Define;
    DefVarOutcome(w, fuel, node, x, e, env);
    var o := Eval(w, fuel - 1, e, env);
    if o.Ret? {
      Scope.EvalIsOrderly(w, fuel - 1, e, env);
      DefineIs(o.env, TextOf(x), o.v);
    }
  }

  // ---------------------------------------------------------------- bindings

  /** In `(let ((x a) (x b)) body)` the second binding is evaluated but does not bind: the body is
      evaluated in what b leaves. */
  lemma SecondBindingIsIgnored(w: World, fuel: nat, x: Token, a: Code, b: Code, body: Code, env: Env, mid: Env)
    requires fuel > 0 && Visible(w, env, "let") && x.kind == "symbol"
    requires var o := Eval(w, fuel - 1, a, Enter(env));
             && o.Ret? && o.env.stack != [] && DefinedIn(o.env.stack, mid.stack, TextOf(x), o.v)
             && mid.funcs == o.env.funcs && mid.log == o.env.log
    requires Eval(w, fuel - 1, b, mid).Ret?
    ensures var after := Eval(w, fuel - 1, b, mid).env;
            && after.stack != [] && TextOf(x) in after.stack[0]
            && Eval(w, fuel, List([LetCode(), List([List([Tok(x), a]), List([Tok(x), b])]), body]), env) ==
                 var p := Eval(w, fuel - 1, body, after);
                 if p.Ret? then Ret(p.v, Leave(p.env)) else p
  {
    hide Eval, Bind, Get, Enter, Leave, Define, LetCode;
    var pairs := [List([Tok(x), a]), List([Tok(x), b])];
    var o := Eval(w, fuel - 1, a, Enter(env));
    LetOutcome(w, fuel, pairs, body, env);
    BindOne(w, fuel - 1, x, a, Enter(env));
    BindTwo(w, fuel - 1, x, a, x, b, Enter(env));
    DefineIs(o.env, TextOf(x), o.v);
    SameStack(o.env.stack, Define(o.env, TextOf(x), o.v).stack, mid.stack, TextOf(x), o.v);
    assert Define(o.env, TextOf(x), o.v) == mid;
    var p := Eval(w, fuel - 1, b, mid);
    Scope.EvalIsOrderly(w, fuel - 1, b, mid);
    assert TextOf(x) in mid.stack[0].Keys;
    DefineIs(p.env, TextOf(x), p.v);
    assert Define(p.env, TextOf(x), p.v) == p.env;
  }

  lemma SameStack(s: seq<Frame>, t: seq<Frame>, u: seq<Frame>, x: string, v: Value)
    requires s != [] && DefinedIn(s, t, x, v) && DefinedIn(s, u, x, v)
    ensures t == u && t != [] && x in t[0]
  {
    if x !in s[0] {
      assert t[0] == u[0];
      assert t == [t[0]] + t[1..] && u == [u[0]] + u[1..];
    }
  }

  // ---------------------------------------------------------------- looking up

  /** A frame in which the name, or the attribute it asks for, is found. */
  predicate FoundIn(w: World, f: Frame, name: string) {
    BeforeDot(name) in f && (AfterDot(name).Some? ==> w.attr(f[BeforeDot(name)], AfterDot(name).value).Some?)
  }

  /** A name means what the innermost frame in which it is found says, and nothing if there is none. */
  lemma {:induction false} InnermostIsFound(w: World, stack: seq<Frame>, name: string)
    ensures Get(w, stack, name).None? <==> forall k :: 0 <= k < |stack| ==> !FoundIn(w, stack[k], name)
    ensures forall k :: 0 <= k < |stack| && FoundIn(w, stack[k], name) &&
                        (forall i :: 0 <= i < k ==> !FoundIn(w, stack[i], name)) ==>
              Get(w, stack, name) ==
                if AfterDot(name).Some? then w.attr(stack[k][BeforeDot(name)], AfterDot(name).value)
                else Some(stack[k][BeforeDot(name)])
  {
    hide BeforeDot, AfterDot;
    if stack != [] {
      InnermostIsFound(w, stack[1..], name);
      assert forall k :: 1 <= k < |stack| ==> stack[k] == stack[1..][k - 1];
    }
  }

  // ---------------------------------------------------------------- an example

  /** A name that stands for itself. */
  predicate Plain(x: string) {
    BeforeDot(x) == x && AfterDot(x) == None && x != "nil" && x != "defvar"
  }

  function DefVarCode(x: string, i: int): Code {
    List([Sym("defvar"), Sym(x), Int(i)])
  }

  lemma DefVarRuns(w: World, fuel: nat, x: string, i: int, env: Env)
    requires fuel >= 2 && Plain(x) && env.stack != [] && Visible(w, env, "defvar")
    ensures var r := Eval(w, fuel, DefVarCode(x, i), env);
            && r.Ret? && r.env.funcs == env.funcs && r.env.log == env.log
            && DefinedIn(env.stack, r.env.stack, x, VInt(i))
            && r.v == if x in env.stack[0] then env.stack[0][x] else VInt(i)
  {
    DefVarKeepsFirst(w, fuel, Sym("defvar"), Token("symbol", Text(x)), Int(i), env);
  }

  lemma SymbolRuns(w: World, fuel: nat, x: string, env: Env)
    requires fuel > 0 && Plain(x) && env.stack != [] && x in env.stack[0]
    ensures Eval(w, fuel, Sym(x), env) == Ret(env.stack[0][x], env)
  {
  }

  lemma StillVisible(w: World, x: string, v: Value, env: Env, after: Env)
    requires Plain(x) && env.stack != [] && Visible(w, env, "defvar") && DefinedIn(env.stack, after.stack, x, v)
    ensures Visible(w, after, "defvar")
  {
    DefVarIsPlain();
    if x !in env.stack[0] {
      assert "defvar" !in after.stack[0].Keys;
    }
  }

  lemma DefVarIsPlain()
    ensures BeforeDot("defvar") == "defvar" && AfterDot("defvar") == None
  {
    var s := "defvar";
    assert s[1..] == "efvar" && s[1..][1..] == "fvar" && s[1..][1..][1..] == "var";
    assert s[1..][1..][1..][1..] == "ar" && s[1..][1..][1..][1..][1..] == "r" && s[1..][1..][1..][1..][1..][1..] == "";
  }

  /** After k of these expressions: the first value in the innermost scope, and k times as result. */
  ghost predicate KeptFirst(w: World, x: string, i: int, r: Outcomes, k: nat) {
    && r.Rets? && r.vs == seq(k, n => VInt(i)) && r.envs.stack != [] && Visible(w, r.envs, "defvar")
    && x in r.envs.stack[0] && r.envs.stack[0][x] == VInt(i)
  }

  /** One more `defvar` of the name, or the name itself. */
  lemma OneMoreKeeps(w: World, fuel: nat, x: string, i: int, c: Code, n: int, codes: seq<Code>, env: Env)
    requires fuel >= 2 && Plain(x) && (c == DefVarCode(x, n) || c == Sym(x))
    requires KeptFirst(w, x, i, EvalAll(w, fuel, codes, env), |codes|)
    ensures KeptFirst(w, x, i, EvalAll(w, fuel, codes + [c], env), |codes| + 1)
  {
    hide Eval, Get;
    var r := EvalAll(w, fuel, codes, env);
    assert (codes + [c])[..|codes|] == codes;
    if c == DefVarCode(x, n) {
      DefVarRuns(w, fuel, x, n, r.envs);
    } else {
      SymbolRuns(w, fuel, x, r.envs);
    }
    var o := Eval(w, fuel, c, r.envs);
    assert r.vs + [VInt(i)] == seq(|codes| + 1, k => VInt(i));
  }

  /** A name defined again and again in one scope keeps its first value. */
  lemma MultipleDefvars(w: World, fuel: nat, x: string, i: int, j: int, k: int, env: Env)
    requires fuel >= 2 && Plain(x) && env.stack != [] && Visible(w, env, "defvar") && x !in env.stack[0]
    ensures var r := EvalAll(w, fuel, [DefVarCode(x, i), DefVarCode(x, j), Sym(x), DefVarCode(x, k), Sym(x)], env);
            r.Rets? && r.vs == [VInt(i), VInt(i), VInt(i), VInt(i), VInt(i)]
  {
    hide EvalAll, DefVarCode, Plain, Sym;
    FirstDefVar(w, fuel, x, i, env);
    var c := [DefVarCode(x, i), DefVarCode(x, j), Sym(x), DefVarCode(x, k), Sym(x)];
    assert c[..1] == [c[0]];
    OneMoreKeeps(w, fuel, x, i, c[1], j, c[..1], env);
    assert c[..1] + [c[1]] == c[..2] && c[..2] + [c[2]] == c[..3] && c[..3] + [c[3]] == c[..4] && c[..4] + [c[4]] == c;
    OneMoreKeeps(w, fuel, x, i, c[2], j, c[..2], env);
    OneMoreKeeps(w, fuel, x, i, c[3], k, c[..3], env);
    OneMoreKeeps(w, fuel, x, i, c[4], k, c[..4], env);
  }

  lemma FirstDefVar(w: World, fuel: nat, x: string, i: int, env: Env)
    requires fuel >= 2 && Plain(x) && env.stack != [] && Visible(w, env, "defvar") && x !in env.stack[0]
    ensures KeptFirst(w, x, i, EvalAll(w, fuel, [DefVarCode(x, i)], env), 1)
  {
    hide Eval, Get;
    assert [DefVarCode(x, i)][..0] == [];
    DefVarRuns(w, fuel, x, i, env);
    var r := Eval(w, fuel, DefVarCode(x, i), env);
    StillVisible(w, x, VInt(i), env, r.env);
    assert [] + [r.v] == seq(1, n => VInt(i));
  }
}

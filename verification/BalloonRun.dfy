/** A run of the whole program `doc/balloon.rules`: the targets it sets, one guest after
    another, for any host, guests and fuel. */
module BalloonRun {
  import opened Grammar
  import opened Options
  import opened PolicyGrammar
  import opened PolicyValues
  import opened Interp
  import opened EvalRules
  import Scope
  import opened BalloonRules
  import opened BalloonTargets

  function FunctionName(shrink: bool): string {
    if shrink then "shrink_guest" else "grow_guest"
  }

  function Target(w: World, id: nat, h: real, shrink: bool): Option<real>
    requires IsGuest(w, id)
  {
    if shrink then ShrinkTarget(w, id, h) else GrowTarget(w, id)
  }

  /** The state between two guests. */
  ghost predicate Between(env: Env, h: Value) {
    |env.stack| == 1 && Scoped(env.stack) && GlobalsSet(env.stack[0], h) && FunctionsSet(env.funcs)
  }

  function GuestScope(env: Env, id: nat): Env {
    env.(stack := [map["guest" := VEntity(id)]] + env.stack)
  }

  lemma GuestScopeIs(env: Env, id: nat)
    ensures Define(Enter(env), "guest", VEntity(id)) == GuestScope(env, id)
    ensures Leave(GuestScope(env, id)) == env
  {
    var none: Frame := map[];
    assert none["guest" := VEntity(id)] == map["guest" := VEntity(id)];
    assert Enter(env).stack[1..] == env.stack;
    assert GuestScope(env, id).stack[1..] == env.stack;
  }

  /** Inside the function: the scope of the `with`, then that of the call. */
  lemma CalledFor(w: World, env: Env, id: nat, h: Value)
    requires Between(env, h) && IsGuest(w, id)
    ensures var e := GuestScope(env, id);
            Scoped(e.stack) && Setting(w, GuestScope(e, id), id, h) &&
            NoLocalsYet(GuestScope(e, id))
    ensures "guest_free_percent" !in GuestScope(GuestScope(env, id), id).stack[0]
  {
    Names();
    hide GlobalsSet, FunctionsSet, IsGuest;
    var e := GuestScope(env, id);
    assert e.stack[1..] == env.stack;
    assert forall x :: x in e.stack[0] ==> LocalKey(x);
  }

  lemma CallIsDefined(w: World, env: Env, h: Value, shrink: bool)
    requires Scoped(env.stack) && FunctionsSet(env.funcs)
    ensures var f := FunctionName(shrink);
            Visible(w, env, f) && Visible(w, env, "let") && BuiltinOf(f) == None &&
            f != "eval" && Head(Sym(f)) == Some(f)
    ensures var f := FunctionName(shrink);
            f in env.funcs &&
            env.funcs[f] == (List([G]), if shrink then SHRINK_BODY else GROW_BODY)
  {
    NotBuiltin(FunctionName(shrink));
    LetIsVisible(w, env);
    hide BuiltinOf, Scoped, Get;
    if shrink {
      ShrinkIsVisible(w, env);
    } else {
      GrowIsVisible(w, env);
    }
  }

  lemma ShrinkIsVisible(w: World, env: Env)
    requires Scoped(env.stack)
    ensures Visible(w, env, "shrink_guest")
  {
    hide Get, Scoped;
    GetCalled(w, env.stack, "shrink_guest");
  }

  lemma GrowIsVisible(w: World, env: Env)
    requires Scoped(env.stack)
    ensures Visible(w, env, "grow_guest")
  {
    hide Get, Scoped;
    GetCalled(w, env.stack, "grow_guest");
  }

  lemma GuestArgument(w: World, env: Env, id: nat)
    ensures var e := Enter(GuestScope(env, id)); Means(w, G, e, Some((VEntity(id), e)))
  {
    Plain();
    hide Get, DotFree;
    var e := GuestScope(env, id);
    GetLocal(w, e.stack, "guest");
    GetPast(w, map[], e.stack, "guest");
    MeansSymbol(w, "guest", Enter(e));
  }

  lemma BodyMeans(w: World, env: Env, id: nat, h: Value, shrink: bool) returns (m: Meaning)
    requires Setting(w, env, id, h) && IsGuest(w, id) && NoLocalsYet(env) && "guest_free_percent" !in env.stack[0]
    ensures Means(w, if shrink then SHRINK_BODY else GROW_BODY, env, m)
    ensures m.Some? <==> Answers(w, id, shrink)
    ensures Number(h) && (m.Some? ==> Targeted(env, m.value.1, id, Target(w, id, Num(h), shrink)))
  {
    SettingIsScoped(w, env, id, h);
    hide Means, Setting, NoLocalsYet, Targeted, IsGuest, Scoped;
    if shrink {
      m := ShrinkMeans(w, env, id, h);
    } else {
      m := GrowMeans(w, env, id, h);
    }
  }

  /** `(shrink_guest guest)`, `(grow_guest guest)` */
  lemma CallMeans(w: World, env: Env, id: nat, h: Value, shrink: bool) returns (m: Meaning)
    requires Between(env, h) && IsGuest(w, id) && Number(h)
    ensures Means(w, List([Sym(FunctionName(shrink)), G]), GuestScope(env, id), m)
    ensures m.Some? <==> Answers(w, id, shrink)
    ensures m.Some? ==> Targeted(GuestScope(env, id), m.value.1, id, Target(w, id, Num(h), shrink))
  {
    var e := GuestScope(env, id);
    CalledFor(w, env, id, h);
    GuestScopeIs(e, id);
    CallIsDefined(w, e, h, shrink);
    hide Means, Setting, NoLocalsYet, Scoped, FunctionName, BuiltinOf, Get, Targeted, IsGuest;
    GuestArgument(w, env, id);
    var n := BodyMeans(w, GuestScope(e, id), id, h, shrink);
    MeansCall1(w, Sym(FunctionName(shrink)), FunctionName(shrink), Token("symbol", Text("guest")), G,
      if shrink then SHRINK_BODY else GROW_BODY, e, VEntity(id), n);
    m := if n.Some? then Some((n.value.0, Leave(n.value.1))) else None;
    if n.Some? {
      LeavesTargeted(e, n.value.1, id, Target(w, id, Num(h), shrink));
    }
  }

  lemma LeavesTargeted(e: Env, after: Env, id: nat, target: Option<real>)
    requires Targeted(GuestScope(e, id), after, id, target) && e.stack != []
    ensures Targeted(e, Leave(after), id, target)
  {
    assert GuestScope(e, id).stack[1..] == e.stack;
  }

  // ---------------------------------------------------------------- all guests

  ghost predicate AllGuests(w: World, ids: seq<nat>) {
    forall k :: 0 <= k < |ids| ==> IsGuest(w, ids[k])
  }

  /** The targets for these guests, in order. */
  function Targets(w: World, ids: seq<nat>, h: real, shrink: bool): seq<(nat, real)>
    requires AllGuests(w, ids)
  {
    if ids == [] then [] else
      var last := ids[|ids| - 1];
      var t := Target(w, last, h, shrink);
      Targets(w, ids[..|ids| - 1], h, shrink) + (if t.Some? then [(last, t.value)] else [])
  }

  ghost predicate Sets(e: Write, t: (nat, real)) {
    e.id == t.0 && e.name == VStr("balloon_target") && IsTarget(e.val, t.1)
  }

  /** The writes after `before` set these targets. */
  ghost predicate Issued(before: seq<Write>, after: seq<Write>, targets: seq<(nat, real)>) {
    |after| == |before| + |targets| && after[..|before|] == before
    && forall k :: 0 <= k < |targets| ==> Sets(after[|before| + k], targets[k])
  }

  lemma IssuedNext(before: seq<Write>, mid: seq<Write>, after: seq<Write>, targets: seq<(nat, real)>, id: nat,
                   t: Option<real>)
    requires Issued(before, mid, targets)
    requires if t.None? then after == mid else exists v ::
               IsTarget(v, t.value) && after == mid + [Write(id, VStr("balloon_target"), v)]
    ensures Issued(before, after, targets + (if t.Some? then [(id, t.value)] else []))
  {
    hide IsTarget;
    if t.None? {
      assert targets + [] == targets;
    }
  }

  function EntitiesOf(ids: seq<nat>): seq<Value> {
    seq(|ids|, k requires 0 <= k < |ids| => VEntity(ids[k]))
  }

  /** The guests before the first one that does not answer. */
  function Served(w: World, ids: seq<nat>, shrink: bool): (k: nat)
    requires AllGuests(w, ids)
    ensures k <= |ids| && (k < |ids| ==> !Answers(w, ids[k], shrink))
    ensures forall i :: 0 <= i < k ==> Answers(w, ids[i], shrink)
  {
    if ids == [] then 0 else
      var k := Served(w, ids[..|ids| - 1], shrink);
      if k == |ids| - 1 && Answers(w, ids[k], shrink) then |ids| else k
  }

  function GuestCall(shrink: bool): Code {
    List([Sym(FunctionName(shrink)), G])
  }

  /** The `with` serves every guest if all answer; else the first that does not raises an
      exception, and the writes are those for the guests before it. */
  ghost predicate WentThrough(w: World, ids: seq<nat>, h: real, shrink: bool, env: Env, r: Outcomes)
    requires AllGuests(w, ids)
  {
    var k := Served(w, ids, shrink);
    if k == |ids| then
      r.Rets? && r.envs.stack == env.stack && r.envs.funcs == env.funcs &&
        Issued(env.log, r.envs.log, Targets(w, ids, h, shrink))
    else
      r.NoRets? && r.o.Raise? && Issued(env.log, r.o.env.log, Targets(w, ids[..k], h, shrink))
  }

  ghost predicate GoesThrough(w: World, n: nat, ids: seq<nat>, env: Env, h: real, shrink: bool)
    requires AllGuests(w, ids)
  {
    forall fuel: nat :: fuel >= n ==>
      WentThrough(w, ids, h, shrink, env, Each(w, fuel, EntitiesOf(ids), "guest", GuestCall(shrink), env))
  }

  lemma {:induction false} EachGuest(w: World, ids: seq<nat>, env: Env, h: Value, shrink: bool) returns (n: nat)
    requires Between(env, h) && AllGuests(w, ids) && Number(h)
    ensures GoesThrough(w, n, ids, env, Num(h), shrink)
  {
    hide Each, Eval, GuestCall, WentThrough, Between, EntitiesOf, IsGuest;
    n := 0;
    EntitiesSnoc(ids);
    if ids == [] {
      forall fuel: nat
        ensures WentThrough(w, ids, Num(h), shrink, env,
                Each(w, fuel, EntitiesOf(ids), "guest", GuestCall(shrink), env))
      {
        EachNone(w, fuel, "guest", GuestCall(shrink), env);
        NoGuests(w, Num(h), shrink, env);
      }
    } else {
      var init, last := ids[..|ids| - 1], ids[|ids| - 1];
      var m := EachGuest(w, init, env, h, shrink);
      var r := Each(w, m, EntitiesOf(init), "guest", GuestCall(shrink), env);
      var k := LastGuest(w, ids, env, h, shrink, r);
      n := MoreFuel(m, k);
      forall fuel: nat | fuel >= n
        ensures WentThrough(w, ids, Num(h), shrink, env,
                Each(w, fuel, EntitiesOf(ids), "guest", GuestCall(shrink), env))
      {
        EachEnded(w, init, Num(h), shrink, env, r);
        Scope.EachFuel(w, m, fuel, EntitiesOf(init), "guest", GuestCall(shrink), env);
        EachSnoc(w, fuel, EntitiesOf(init), VEntity(last), "guest", GuestCall(shrink), env);
        assert WentThrough(w, ids, Num(h), shrink, env, OneMore(w, fuel, last, shrink, r));
      }
    }
  }

  lemma NoGuests(w: World, h: real, shrink: bool, env: Env)
    ensures WentThrough(w, [], h, shrink, env, Rets([], env))
  {
  }

  lemma EachEnded(w: World, ids: seq<nat>, h: real, shrink: bool, env: Env, r: Outcomes)
    requires AllGuests(w, ids) && WentThrough(w, ids, h, shrink, env, r)
    ensures r != NoRets(Timeout)
  {
  }

  lemma EntitiesSnoc(ids: seq<nat>)
    ensures ids == [] ==> EntitiesOf(ids) == []
    ensures ids != [] ==> EntitiesOf(ids) == EntitiesOf(ids[..|ids| - 1]) + [VEntity(ids[|ids| - 1])]
  {
  }

  /** The `with` with one guest more. */
  function OneMore(w: World, fuel: nat, id: nat, shrink: bool, r: Outcomes): Outcomes {
    if r.NoRets? then r else
      var o := Eval(w, fuel, GuestCall(shrink), Define(Enter(r.envs), "guest", VEntity(id)));
      if o.Ret? then Rets(r.vs + [o.v], Leave(o.env)) else NoRets(o)
  }

  ghost predicate ServesLastFrom(w: World, n: nat, ids: seq<nat>, env: Env, h: real, shrink: bool, r: Outcomes)
    requires AllGuests(w, ids) && ids != []
  {
    var last := ids[|ids| - 1];
    forall fuel: nat :: fuel >= n ==> WentThrough(w, ids, h, shrink, env, OneMore(w, fuel, last, shrink, r))
  }

  lemma LastGuest(w: World, ids: seq<nat>, env: Env, h: Value, shrink: bool, r: Outcomes) returns (n: nat)
    requires Between(env, h) && AllGuests(w, ids) && Number(h) && ids != []
    requires WentThrough(w, ids[..|ids| - 1], Num(h), shrink, env, r)
    ensures ServesLastFrom(w, n, ids, env, Num(h), shrink, r)
  {
    hide Eval, FunctionName, Means, MeansFrom, FunctionsSet, GlobalsSet, Scoped, IsGuest, Issued, Target, Targeted,
      Answers, Define, Targets;
    var init, last := ids[..|ids| - 1], ids[|ids| - 1];
    n := 0;
    if r.Rets? {
      var m := CallMeans(w, r.envs, last, h, shrink);
      n := FuelFor(w, GuestCall(shrink), GuestScope(r.envs, last), m);
      GuestScopeIs(r.envs, last);
      assert ids[..|ids| - 1] == init;
      forall fuel: nat | fuel >= n
        ensures WentThrough(w, ids, Num(h), shrink, env, OneMore(w, fuel, last, shrink, r))
      {
        MeansFits(w, n, GuestCall(shrink), GuestScope(r.envs, last), m, fuel);
        ServesLast(w, env, r.envs, ids, h, shrink, Eval(w, fuel, GuestCall(shrink), GuestScope(r.envs, last)), m);
      }
    } else {
      var k := Served(w, init, shrink);
      assert init[..k] == ids[..k];
    }
  }

  lemma ServesLast(w: World, env: Env, mid: Env, ids: seq<nat>, h: Value, shrink: bool, o: Outcome, m: Meaning)
    requires ids != [] && AllGuests(w, ids) && Number(h) && mid.stack == env.stack
    requires Issued(env.log, mid.log, Targets(w, ids[..|ids| - 1], Num(h), shrink))
    requires Fits(o, GuestScope(mid, ids[|ids| - 1]), m)
    requires m.Some? ==> Targeted(GuestScope(mid, ids[|ids| - 1]), m.value.1, ids[|ids| - 1],
                                  Target(w, ids[|ids| - 1], Num(h), shrink))
    ensures m.Some? <==> o.Ret?
    ensures o.Ret? ==> Leave(o.env).stack == env.stack && o.env.funcs == mid.funcs
                       && Issued(env.log, Leave(o.env).log, Targets(w, ids, Num(h), shrink))
    ensures !o.Ret? ==> o.Raise? && Issued(env.log, o.env.log, Targets(w, ids[..|ids| - 1], Num(h), shrink))
  {
    hide IsGuest, Target, Issued, IsTarget;
    var last := ids[|ids| - 1];
    assert GuestScope(mid, last).stack[1..] == mid.stack;
    if o.Ret? {
      IssuedNext(env.log, mid.log, o.env.log, Targets(w, ids[..|ids| - 1], Num(h), shrink), last,
        Target(w, last, Num(h), shrink));
    }
  }

  // ---------------------------------------------------------------- the definitions

  /** The scope with these constants defined after what it has. */
  function FrameOf(g: Frame, cs: seq<(string, real)>): Frame {
    if cs == [] then g else FrameOf(g, cs[..|cs| - 1])[cs[|cs| - 1].0 := VFloat(cs[|cs| - 1].1)]
  }

  ghost predicate NewNames(g: Frame, cs: seq<(string, real)>) {
    && (forall k :: 0 <= k < |cs| ==> GlobalKey(cs[k].0) && cs[k].0 !in g)
    && (forall i, k :: 0 <= i < k < |cs| ==> cs[i].0 != cs[k].0)
  }

  ghost predicate GlobalFrame(g: Frame) {
    forall x :: x in g ==> GlobalKey(x)
  }

  lemma {:induction false} FrameHas(g: Frame, cs: seq<(string, real)>)
    requires NewNames(g, cs) && GlobalFrame(g)
    ensures GlobalFrame(FrameOf(g, cs))
    ensures forall x :: x in g ==> x in FrameOf(g, cs) && FrameOf(g, cs)[x] == g[x]
    ensures forall k :: 0 <= k < |cs| ==> cs[k].0 in FrameOf(g, cs) && FrameOf(g, cs)[cs[k].0] == VFloat(cs[k].1)
  {
    hide GlobalKey;
    if cs != [] {
      var init := cs[..|cs| - 1];
      FrameHas(g, init);
      assert forall k :: 0 <= k < |init| ==> init[k] == cs[k];
    }
  }

  lemma {:induction false} FrameLacks(g: Frame, cs: seq<(string, real)>, x: string)
    requires x !in g && forall k :: 0 <= k < |cs| ==> cs[k].0 != x
    ensures x !in FrameOf(g, cs)
  {
    if cs != [] {
      FrameLacks(g, cs[..|cs| - 1], x);
    }
  }

  lemma SingleScope(g: Frame)
    requires GlobalFrame(g)
    ensures Scoped([g])
  {
  }

  lemma MeansGlobalDef(w: World, env: Env, x: string, e: Code, v: Option<Value>)
    requires |env.stack| == 1 && Scoped(env.stack) && x !in env.stack[0] && Means(w, e, env, Just(v, env))
    ensures Means(w, DefVarOf(x, e), env, if v.Some? then Some((v.value, env.(stack := [env.stack[0][x := v.value]])))
            else None)
  {
    hide Means, Get, Calls, Scoped;
    CallsDefVar();
    GetCalled(w, env.stack, "defvar");
    MeansDefVar(w, Sym("defvar"), Token("symbol", Text(x)), e, env, v);
    if v.Some? {
      var f := env.stack[0][x := v.value];
      assert [f] + env.stack[1..] == [f];
    }
  }

  lemma {:induction false} MeansConstants(w: World, env: Env, g: Frame, cs: seq<(string, real)>)
    returns (vs: seq<Value>)
    requires env.stack == [g] && NewNames(g, cs) && GlobalFrame(g)
    ensures MeansAll(w, Constants(cs), env, Some((vs, env.(stack := [FrameOf(g, cs)]))))
  {
    hide Means, MeansAll, GlobalKey;
    vs := [];
    if cs == [] {
      MeansNone(w, env);
      assert env.(stack := [g]) == env;
    } else {
      var init, last := cs[..|cs| - 1], cs[|cs| - 1];
      assert forall k :: 0 <= k < |init| ==> init[k] == cs[k];
      FrameHas(g, init);
      FrameLacks(g, init, last.0);
      SingleScope(FrameOf(g, init));
      vs := MeansConstants(w, env, g, init);
      var mid := env.(stack := [FrameOf(g, init)]);
      MeansLiteral(w, mid);
      MeansGlobalDef(w, mid, last.0, Float(last.1), Some(VFloat(last.1)));
      MeansSnoc(w, Constants(init), DefVarOf(last.0, Float(last.1)), env, vs, mid,
        Some((VFloat(last.1), env.(stack := [FrameOf(g, cs)]))));
      vs := vs + [VFloat(last.1)];
    }
  }

  function Functions(f: map<string, (Code, Code)>): map<string, (Code, Code)> {
    f["change_big_enough" := (List([G, Sym("new_val")]), CHANGE_BODY)]
     ["shrink_guest" := (List([G]), SHRINK_BODY)]["grow_guest" := (List([G]), GROW_BODY)]
  }

  lemma FunctionsAreSet(f: map<string, (Code, Code)>)
    ensures FunctionsSet(Functions(f))
  {
    assert "change_big_enough" != "shrink_guest" && "change_big_enough" != "grow_guest" &&
             "shrink_guest" != "grow_guest";
  }

  lemma MeansDefOf(w: World, env: Env, name: string, params: seq<Code>, body: Code)
    requires Scoped(env.stack)
    ensures Means(w, DefOf(name, params, body), env,
            Some((VStr(name), env.(funcs := env.funcs[name := (List(params), body)]))))
  {
    hide Means, Get, Scoped, BuiltinOf;
    GetCalled(w, env.stack, "def");
    MeansDef(w, Sym("def"), Token("symbol", Text(name)), List(params), body, env);
  }

  lemma MeansFunctions(w: World, env: Env) returns (vs: seq<Value>)
    requires Scoped(env.stack)
    ensures MeansAll(w, FUNCTIONS, env, Some((vs, env.(funcs := Functions(env.funcs)))))
  {
    hide Means, MeansAll, Scoped;
    var e1 := env.(funcs := env.funcs["change_big_enough" := (List([G, Sym("new_val")]), CHANGE_BODY)]);
    var e2 := e1.(funcs := e1.funcs["shrink_guest" := (List([G]), SHRINK_BODY)]);
    var e3 := e2.(funcs := e2.funcs["grow_guest" := (List([G]), GROW_BODY)]);
    MeansDefOf(w, env, "change_big_enough", [G, Sym("new_val")], CHANGE_BODY);
    MeansDefOf(w, e1, "shrink_guest", [G], SHRINK_BODY);
    MeansDefOf(w, e2, "grow_guest", [G], GROW_BODY);
    vs := ThreeSteps(w, env, FUNCTIONS, VStr("change_big_enough"), e1, VStr("shrink_guest"), e2, VStr("grow_guest"),
      e3);
  }

  lemma ThreeSteps(w: World, env: Env, codes: seq<Code>, v1: Value, e1: Env, v2: Value, e2: Env, v3: Value, e3: Env)
    returns (vs: seq<Value>)
    requires |codes| == 3 && Means(w, codes[0], env, Some((v1, e1))) && Means(w, codes[1], e1, Some((v2, e2)))
    requires Means(w, codes[2], e2, Some((v3, e3))) && e1.log == e2.log == env.log
    ensures MeansAll(w, codes, env, Some((vs, e3)))
  {
    hide Means, MeansAll;
    MeansNone(w, env);
    MeansSnoc(w, [], codes[0], env, [], env, Some((v1, e1)));
    MeansSnoc(w, [] + [codes[0]], codes[1], env, [] + [v1], e1, Some((v2, e2)));
    MeansSnoc(w, [] + [codes[0]] + [codes[1]], codes[2], env, [] + [v1] + [v2], e2, Some((v3, e3)));
    assert [] + [codes[0]] + [codes[1]] + [codes[2]] == codes;
    vs := [] + [v1] + [v2] + [v3];
  }

  // ---------------------------------------------------------------- the run

  ghost predicate IsHost(w: World, hid: nat) {
    && w.attr(VEntity(hid), "StatAvg") == Some(VMethod(hid, "StatAvg"))
    && w.attr(VEntity(hid), "mem_available").Some? && Number(w.attr(VEntity(hid), "mem_available").value)
    && (Stat(w, hid, "mem_free").Some? ==> Number(Stat(w, hid, "mem_free").value))
  }

  /** The host's free share of memory, if it can be had. */
  function HostShare(w: World, hid: nat): Option<Value>
    requires IsHost(w, hid)
  {
    if Stat(w, hid, "mem_free").None? then None
    else Calculate(w, Div, Stat(w, hid, "mem_free").value, w.attr(VEntity(hid), "mem_available").value)
  }

  lemma ShareIsNumber(w: World, hid: nat)
    requires IsHost(w, hid) && HostShare(w, hid).Some?
    ensures Number(HostShare(w, hid).value)
  {
  }

  lemma HostNames()
    ensures DotFree("Host") && DotFree("StatAvg") && DotFree("mem_available")
  {
  }

  lemma HostGets(w: World, env: Env, hid: nat)
    requires |env.stack| == 1 && "Host" in env.stack[0] && env.stack[0]["Host"] == VEntity(hid) && IsHost(w, hid)
    ensures Get(w, env.stack, "Host.StatAvg") == Some(VMethod(hid, "StatAvg"))
    ensures Get(w, env.stack, "Host.mem_available") == w.attr(VEntity(hid), "mem_available")
  {
    hide Get, DotFree;
    HostNames();
    GetAttribute(w, env.stack, "Host", "StatAvg");
    GetAttribute(w, env.stack, "Host", "mem_available");
    assert "Host" + "." + "StatAvg" == "Host.StatAvg";
    assert "Host" + "." + "mem_available" == "Host.mem_available";
  }

  lemma MeansHostStat(w: World, env: Env, hid: nat)
    requires Get(w, env.stack, "Host.StatAvg") == Some(VMethod(hid, "StatAvg"))
    ensures Means(w, Invoke(Sym("Host.StatAvg"), [Quoted("mem_free")]), env, Just(Stat(w, hid, "mem_free"), env))
  {
    hide Get, Means, MeansAll, Applied;
    MeansQuoted(w, "mem_free", env);
    MeansNone(w, env);
    MeansSnoc(w, [], Quoted("mem_free"), env, [], env, Some((VStr("mem_free"), env)));
    assert [] + [Quoted("mem_free")] == [Quoted("mem_free")] && [] + [VStr("mem_free")] == [VStr("mem_free")];
    StatApplies(w, hid, "mem_free", env);
    MeansMethod(w, Sym("Host.StatAvg"), "Host.StatAvg", [Quoted("mem_free")], env, VMethod(hid, "StatAvg"),
      Some([VStr("mem_free")]));
  }

  const SHARE_CODE: Code := Two(Op("/"), Invoke(Sym("Host.StatAvg"), [Quoted("mem_free")]), Sym("Host.mem_available"))

  lemma MeansShare(w: World, env: Env, hid: nat)
    requires |env.stack| == 1 && Scoped(env.stack) && "Host" in env.stack[0] && env.stack[0]["Host"] == VEntity(hid)
    requires IsHost(w, hid)
    ensures Means(w, SHARE_CODE, env, Just(HostShare(w, hid), env))
  {
    hide Get, Means, Scoped, Calls, Calculate;
    HostGets(w, env, hid);
    MeansHostStat(w, env, hid);
    MeansSymbol(w, "Host.mem_available", env);
    CallsDiv();
    GetCalled(w, env.stack, "div");
    MeansTwo(w, Op("/"), "div", Binary(Div), Invoke(Sym("Host.StatAvg"), [Quoted("mem_free")]),
      Sym("Host.mem_available"), env,
      Stat(w, hid, "mem_free"), w.attr(VEntity(hid), "mem_available"));
  }

  /** The scope a run starts with. */
  function FirstFrame(host: Value, guests: Value): Frame {
    map["abs" := VExtern("abs"), "debug" := VExtern("debug"), "Host" := host, "Guests" := guests]
  }

  lemma StartIs(host: Value, guests: Value)
    ensures Start(host, guests) == Env([FirstFrame(host, guests)], map[], [])
    ensures GlobalFrame(FirstFrame(host, guests))
  {
    var g := map["abs" := VExtern("abs"), "debug" := VExtern("debug")];
    assert "Host" !in g && "Guests" !in g["Host" := host];
    assert g["Host" := host]["Guests" := guests] == FirstFrame(host, guests);
    assert forall f: Frame :: [f][1..] == [] && [f] + [] == [f];
  }

  lemma NamesAreNew(host: Value, guests: Value)
    ensures NewNames(FirstFrame(host, guests), CONSTANTS)
  {
    assert |"pressure_threshold"| == 18 && |"pressure_critical"| == 17 && |"min_guest_free_percent"| == 22;
    assert "max_balloon_change_percent"[1] == 'a' && "min_balloon_change_percent"[1] == 'i';
  }

  /** The scope when the script decides what to do. */
  function LastFrame(host: Value, guests: Value, h: Value): Frame {
    ConstantsFrame(host, guests)["host_free_percent" := h]
  }

  lemma ConstantNames()
    ensures |CONSTANTS| == 5
    ensures CONSTANTS[0] == ("pressure_threshold", 0.20) && CONSTANTS[1] == ("pressure_critical", 0.05)
    ensures CONSTANTS[2] == ("min_guest_free_percent", 0.20) && CONSTANTS[3] == ("max_balloon_change_percent", 0.05)
    ensures CONSTANTS[4] == ("min_balloon_change_percent", 0.0025)
    ensures forall k :: 0 <= k < 5 ==> CONSTANTS[k].0 != "host_free_percent"
  {
  }

  /** The scope after the constants. */
  function ConstantsFrame(host: Value, guests: Value): Frame {
    FrameOf(FirstFrame(host, guests), CONSTANTS)
  }

  lemma FirstHas(host: Value, guests: Value)
    ensures var g := FirstFrame(host, guests);
            "abs" in g && g["abs"] == VExtern("abs") && "Host" in g && g["Host"] == host && "Guests" in g &&
              g["Guests"] == guests
    ensures "host_free_percent" !in FirstFrame(host, guests)
  {
  }

  lemma ConstantsHold(host: Value, guests: Value)
    ensures GlobalFrame(ConstantsFrame(host, guests)) && "host_free_percent" !in ConstantsFrame(host, guests)
    ensures forall x :: x in FirstFrame(host, guests) ==>
              x in ConstantsFrame(host, guests) && ConstantsFrame(host, guests)[x] == FirstFrame(host, guests)[x]
    ensures forall k :: 0 <= k < |CONSTANTS| ==>
              CONSTANTS[k].0 in ConstantsFrame(host, guests) &&
              ConstantsFrame(host, guests)[CONSTANTS[k].0] == VFloat(CONSTANTS[k].1)
  {
    hide FrameOf, NewNames, GlobalFrame, FirstFrame;
    StartIs(host, guests);
    NamesAreNew(host, guests);
    FrameHas(FirstFrame(host, guests), CONSTANTS);
    FirstHas(host, guests);
    ConstantNames();
    FrameLacks(FirstFrame(host, guests), CONSTANTS, "host_free_percent");
  }

  lemma LastFrameIsSet(host: Value, guests: Value, h: Value)
    requires Number(h)
    ensures GlobalFrame(LastFrame(host, guests, h)) && GlobalsSet(LastFrame(host, guests, h), h)
    ensures "Guests" in LastFrame(host, guests, h) && LastFrame(host, guests, h)["Guests"] == guests
  {
    hide ConstantsFrame, FirstFrame;
    ConstantsHold(host, guests);
    FirstHas(host, guests);
    ConstantNames();
    FiveConstants(CONSTANTS, ConstantsFrame(host, guests));
    assert |"abs"| == 3 && |"Guests"| == 6;
  }

  lemma FiveConstants(cs: seq<(string, real)>, f: Frame)
    requires cs == CONSTANTS && forall k :: 0 <= k < |cs| ==> cs[k].0 in f && f[cs[k].0] == VFloat(cs[k].1)
    ensures "pressure_threshold" in f && f["pressure_threshold"] == VFloat(0.20)
    ensures "pressure_critical" in f && f["pressure_critical"] == VFloat(0.05)
    ensures "min_guest_free_percent" in f && f["min_guest_free_percent"] == VFloat(0.20)
    ensures "max_balloon_change_percent" in f && f["max_balloon_change_percent"] == VFloat(0.05)
    ensures "min_balloon_change_percent" in f && f["min_balloon_change_percent"] == VFloat(0.0025)
  {
    assert cs[0].0 in f && cs[1].0 in f && cs[2].0 in f && cs[3].0 in f && cs[4].0 in f;
  }

  /** The state when the script decides what to do. */
  function Decided(hid: nat, guests: Value, h: Value): Env {
    Env([LastFrame(VEntity(hid), guests, h)], Functions(map[]), [])
  }

  lemma DecidedIsBetween(hid: nat, guests: Value, h: Value)
    requires Number(h)
    ensures Between(Decided(hid, guests, h), h)
  {
    hide LastFrame, GlobalsSet, FunctionsSet, Functions, Scoped;
    LastFrameIsSet(VEntity(hid), guests, h);
    SingleScope(LastFrame(VEntity(hid), guests, h));
    FunctionsAreSet(map[]);
  }

  const PREFIX: seq<Code> := Constants(CONSTANTS) + FUNCTIONS + [HOST_SHARE]

  /** The program up to its last expression. */
  lemma PrefixMeans(w: World, hid: nat, guests: Value) returns (m: Option<(seq<Value>, Env)>)
    requires IsHost(w, hid)
    ensures MeansAll(w, PREFIX, Start(VEntity(hid), guests), m)
    ensures m.Some? <==> HostShare(w, hid).Some?
    ensures m.Some? ==> m.value.1 == Decided(hid, guests, HostShare(w, hid).value)
  {
    hide Means, MeansAll, ConstantsFrame, FirstFrame, Functions, Scoped, HostShare, Constants, IsHost, Start, NewNames,
      GlobalFrame;
    var host := VEntity(hid);
    StartIs(host, guests);
    NamesAreNew(host, guests);
    ConstantsHold(host, guests);
    FirstHas(host, guests);
    var e0, g := Start(host, guests), ConstantsFrame(host, guests);
    var vs := MeansConstants(w, e0, FirstFrame(host, guests), CONSTANTS);
    ConstantsFrameIs(host, guests);
    var e1 := e0.(stack := [g]);
    SingleScope(g);
    var us := MeansFunctions(w, e1);
    MeansAppend(w, Constants(CONSTANTS), FUNCTIONS, e0, vs, e1, Some((us, e1.(funcs := Functions(e1.funcs)))));
    var e2 := e1.(funcs := Functions(e1.funcs));
    MeansShare(w, e2, hid);
    MeansGlobalDef(w, e2, "host_free_percent", SHARE_CODE, HostShare(w, hid));
    m := if HostShare(w, hid).Some? then Some((vs + us + [HostShare(w, hid).value],
      Decided(hid, guests, HostShare(w, hid).value))) else None;
    MeansSnoc(w, Constants(CONSTANTS) + FUNCTIONS, HOST_SHARE, e0, vs + us, e2,
      if m.Some? then Some((HostShare(w, hid).value, m.value.1)) else None);
  }

  lemma ConstantsFrameIs(host: Value, guests: Value)
    ensures ConstantsFrame(host, guests) == FrameOf(FirstFrame(host, guests), CONSTANTS)
  {
  }

  const PRESSURE: Code := Two(Op("<"), Sym("host_free_percent"), Sym("pressure_threshold"))

  lemma PressureNames()
    ensures DotFree("host_free_percent") && DotFree("pressure_threshold") && DotFree("Guests")
    ensures GlobalKey("host_free_percent") && GlobalKey("pressure_threshold") && GlobalKey("Guests")
  {
  }

  lemma PressureMeans(w: World, env: Env, h: Value)
    requires Between(env, h) && Number(h)
    ensures Means(w, PRESSURE, env, Some((VBool(Num(h) < 0.20), env)))
  {
    hide Means, Get, Scoped, FunctionsSet, DotFree, Calls, GlobalKey;
    PressureNames();
    CallsLt();
    MeansGlobal(w, env, "host_free_percent");
    MeansGlobal(w, env, "pressure_threshold");
    MeansTest(w, env, Op("<"), "lt", Lt, Sym("host_free_percent"), Sym("pressure_threshold"), h, VFloat(0.20));
  }

  lemma GuestsAreBound(w: World, env: Env, h: Value, guests: Value)
    requires Between(env, h) && "Guests" in env.stack[0] && env.stack[0]["Guests"] == guests
    ensures Get(w, env.stack, "Guests") == Some(guests)
  {
    hide Get, Scoped, DotFree, GlobalKey;
    PressureNames();
    GetGlobal(w, env.stack, "Guests");
  }

  /** `(with Guests guest (... guest))` */
  lemma WithOutcomes(w: World, fuel: nat, env: Env, h: Value, ids: seq<nat>, shrink: bool)
    requires fuel > 0 && Between(env, h) && Number(h) && AllGuests(w, ids)
    requires Get(w, env.stack, "Guests") == Some(VList(EntitiesOf(ids)))
    ensures Eval(w, fuel, WithGuests(FunctionName(shrink)), env) ==
              match Each(w, fuel - 1, EntitiesOf(ids), "guest", GuestCall(shrink), env)
              case Rets(vs, env') => Ret(VList(vs), env')
              case NoRets(o) => o
  {
    hide Get, Scoped, BuiltinOf, Eval, Each, FunctionName, EntitiesOf;
    GetCalled(w, env.stack, "with");
    WithOutcome(w, fuel, Sym("with"), Token("symbol", Text("Guests")), Token("symbol", Text("guest")),
      GuestCall(shrink), env, EntitiesOf(ids));
  }

  ghost predicate RanFrom(w: World, n: nat, ids: seq<nat>, h: real, env: Env)
    requires AllGuests(w, ids)
  {
    forall fuel: nat :: fuel >= n ==> Ran(w, ids, h, env, Eval(w, fuel, SCRIPT, env))
  }

  /** The last expression of the program. */
  lemma ScriptOutcome(w: World, env: Env, h: Value, ids: seq<nat>) returns (n: nat)
    requires Between(env, h) && Number(h) && AllGuests(w, ids)
    requires Get(w, env.stack, "Guests") == Some(VList(EntitiesOf(ids)))
    ensures RanFrom(w, n, ids, Num(h), env)
  {
    hide Eval, Each, Means, MeansFrom, Get, FunctionsSet, GlobalsSet, Scoped, FunctionName, EntitiesOf, AllGuests,
      WentThrough;
    var shrink := Num(h) < 0.20;
    var yes, no := WithGuests(FunctionName(true)), WithGuests(FunctionName(false));
    IfIsVisible(w, env);
    ScriptIs();
    PressureMeans(w, env, h);
    var i := FuelFor(w, PRESSURE, env, Some((VBool(shrink), env)));
    var k := EachGuest(w, ids, env, h, shrink);
    n := MoreFuel(i, k) + 2;
    forall fuel: nat | fuel >= n
      ensures Ran(w, ids, Num(h), env, Eval(w, fuel, SCRIPT, env))
    {
      IfOutcome(w, fuel, Sym("if"), PRESSURE, yes, no, env);
      MeansFits(w, i, PRESSURE, env, Some((VBool(shrink), env)), fuel - 1);
      WithOutcomes(w, fuel - 1, env, h, ids, shrink);
      WithRan(w, ids, Num(h), shrink, env, Each(w, fuel - 2, EntitiesOf(ids), "guest", GuestCall(shrink), env));
    }
  }

  lemma IfIsVisible(w: World, env: Env)
    requires Scoped(env.stack)
    ensures Visible(w, env, "if")
  {
    hide Get, Scoped;
    GetCalled(w, env.stack, "if");
  }

  lemma ScriptIs()
    ensures SCRIPT == List([Sym("if"), PRESSURE, WithGuests(FunctionName(true)), WithGuests(FunctionName(false))])
  {
  }

  /** What the last expression leads to: every guest is served, or the first that does not
      answer ends it. */
  ghost predicate Ran(w: World, ids: seq<nat>, h: real, env: Env, o: Outcome)
    requires AllGuests(w, ids)
  {
    var k := Served(w, ids, h < 0.20);
    if k == |ids| then o.Ret? && Issued(env.log, o.env.log, Targets(w, ids, h, h < 0.20))
    else o.Raise? && Issued(env.log, o.env.log, Targets(w, ids[..k], h, h < 0.20))
  }

  lemma WithRan(w: World, ids: seq<nat>, h: real, shrink: bool, env: Env, r: Outcomes)
    requires AllGuests(w, ids) && shrink == (h < 0.20) && WentThrough(w, ids, h, shrink, env, r)
    ensures Ran(w, ids, h, env, match r case Rets(vs, env') => Ret(VList(vs), env') case NoRets(o) => o)
  {
    hide Issued, Targets, Answers;
  }

  /** What a run of the program comes to. `h` is the host's free share of memory: guests are
      shrunk when it is below 0.20, else grown. If every guest answers, the run returns, and has
      set exactly their targets, in order; else the first that does not answer ends it, with the
      targets of those before it. Without the host's share it ends before anything is set. */
  ghost predicate RunOk(w: World, hid: nat, ids: seq<nat>, r: Outcomes)
    requires IsHost(w, hid) && AllGuests(w, ids)
  {
    if HostShare(w, hid).None? then
      r.NoRets? && r.o.Raise? && r.o.env.log == []
    else
      ShareIsNumber(w, hid);
      var h := Num(HostShare(w, hid).value);
      var k := Served(w, ids, h < 0.20);
      if k == |ids| then r.Rets? && Issued([], r.envs.log, Targets(w, ids, h, h < 0.20))
      else r.NoRets? && r.o.Raise? && Issued([], r.o.env.log, Targets(w, ids[..k], h, h < 0.20))
  }

  function Result(w: World, fuel: nat, hid: nat, ids: seq<nat>): Outcomes {
    EvalAll(w, fuel, PROGRAM, Start(VEntity(hid), VList(EntitiesOf(ids))))
  }

  /** Given fuel enough, the run ends, and so. */
  lemma RunSetsTargets(w: World, hid: nat, ids: seq<nat>)
    requires IsHost(w, hid) && AllGuests(w, ids)
    ensures exists n: nat :: RunsFrom(w, n, hid, ids)
  {
    hide Eval, EvalAll, MeansAll, MeansAllFrom, IsHost, AllGuests, HostShare, Issued, Targets, Answers, Decided, PREFIX,
      EntitiesOf, Start, Ran, RunOk, Between;
    var guests := VList(EntitiesOf(ids));
    var e0 := Start(VEntity(hid), guests);
    var m := PrefixMeans(w, hid, guests);
    ProgramIs();
    StartIs(VEntity(hid), guests);
    var i := FuelForAll(w, PREFIX, e0, m);
    var k := 0;
    if m.Some? {
      ShareIsNumber(w, hid);
      DecidedIsBetween(hid, guests, HostShare(w, hid).value);
      DecidedGuests(w, hid, guests, HostShare(w, hid).value);
      k := ScriptOutcome(w, m.value.1, HostShare(w, hid).value, ids);
    }
    var n := MoreFuel(i, k);
    forall fuel: nat | fuel >= n
      ensures RunOk(w, hid, ids, Result(w, fuel, hid, ids))
    {
      EvalAllConcat(w, fuel, PREFIX, [SCRIPT], e0);
      MeansAllFits(w, i, PREFIX, e0, m, fuel);
      if EvalAll(w, fuel, PREFIX, e0).Rets? {
        EvalOne(w, fuel, SCRIPT, EvalAll(w, fuel, PREFIX, e0));
      }
      RunEnds(w, fuel, hid, ids, EvalAll(w, fuel, PREFIX, e0), m);
    }
    assert RunsFrom(w, n, hid, ids);
  }

  ghost predicate RunsFrom(w: World, n: nat, hid: nat, ids: seq<nat>)
    requires IsHost(w, hid) && AllGuests(w, ids)
  {
    forall fuel: nat :: fuel >= n ==> RunOk(w, hid, ids, Result(w, fuel, hid, ids))
  }

  /** With whatever fuel, a run that ends ends so. */
  lemma EveryRunThatEnds(w: World, fuel: nat, hid: nat, ids: seq<nat>)
    requires IsHost(w, hid) && AllGuests(w, ids) && Result(w, fuel, hid, ids) != NoRets(Timeout)
    ensures RunOk(w, hid, ids, Result(w, fuel, hid, ids))
  {
    hide EvalAll, IsHost, AllGuests, RunOk, Start, EntitiesOf, PROGRAM;
    RunSetsTargets(w, hid, ids);
    var n: nat :| RunsFrom(w, n, hid, ids);
    Scope.AllFuel(w, fuel, MoreFuel(fuel, n), PROGRAM, Start(VEntity(hid), VList(EntitiesOf(ids))));
    assert RunOk(w, hid, ids, Result(w, MoreFuel(fuel, n), hid, ids));
  }

  lemma ProgramIs()
    ensures PROGRAM == PREFIX + [SCRIPT]
  {
    assert [HOST_SHARE] + [SCRIPT] == [HOST_SHARE, SCRIPT];
  }

  lemma EvalOne(w: World, fuel: nat, c: Code, r: Outcomes)
    requires r.Rets?
    ensures EvalAll(w, fuel, [c], r.envs) ==
              var o := Eval(w, fuel, c, r.envs); if o.Ret? then Rets([o.v], o.env) else NoRets(o)
  {
    assert [c][..0] == [];
    assert forall v: Value :: [] + [v] == [v];
  }

  lemma DecidedGuests(w: World, hid: nat, guests: Value, h: Value)
    requires Number(h)
    ensures Get(w, Decided(hid, guests, h).stack, "Guests") == Some(guests)
    ensures Decided(hid, guests, h).log == []
  {
    hide Get, LastFrame, Between, Functions;
    LastFrameIsSet(VEntity(hid), guests, h);
    DecidedIsBetween(hid, guests, h);
    GuestsAreBound(w, Decided(hid, guests, h), h, guests);
  }

  lemma RunEnds(w: World, fuel: nat, hid: nat, ids: seq<nat>, r: Outcomes, m: Option<(seq<Value>, Env)>)
    requires IsHost(w, hid) && AllGuests(w, ids) && (m.Some? <==> HostShare(w, hid).Some?)
    requires FitsAll(r, Env([], map[], []), m) && (m.Some? ==> m.value.1.log == [])
    requires HostShare(w, hid).Some? ==>
              Number(HostShare(w, hid).value) &&
              Ran(w, ids, Num(HostShare(w, hid).value), m.value.1, Eval(w, fuel, SCRIPT, m.value.1))
    ensures RunOk(w, hid, ids,
              if r.NoRets? then r else
                var o := Eval(w, fuel, SCRIPT, r.envs);
                var q := if o.Ret? then Rets([o.v], o.env) else NoRets(o);
                if q.NoRets? then q else Rets(r.vs + q.vs, q.envs))
  {
    hide Eval, IsHost, AllGuests, HostShare, Issued, Targets, Answers;
  }

  // ---------------------------------------------------------------- safety

  /** A target is set for one of the guests and is within its bounds. */
  ghost predicate Safe(w: World, ids: seq<nat>, shrink: bool, e: Write) {
    && e.id in ids && e.name == VStr("balloon_target") && Number(e.val) && IsGuest(w, e.id)
    && (var cur, t := Cur(w, e.id), Num(e.val);
        if shrink then Larger(Least(w, e.id), 0.95 * cur) <= t <= cur && cur - t > 0.0025 * cur
        else cur >= 0.0 ==> cur < t <= Most(w, e.id) && t - cur > 0.0025 * cur)
  }

  lemma {:induction false} TargetsAre(w: World, ids: seq<nat>, h: real, shrink: bool)
    requires AllGuests(w, ids)
    ensures forall k :: 0 <= k < |Targets(w, ids, h, shrink)| ==>
              var t := Targets(w, ids, h, shrink)[k];
              t.0 in ids && IsGuest(w, t.0) &&
              Target(w, t.0, h, shrink) == Some(t.1)
  {
    hide IsGuest, Target;
    if ids != [] {
      TargetsAre(w, ids[..|ids| - 1], h, shrink);
    }
  }

  lemma SetsSafely(w: World, ids: seq<nat>, h: real, shrink: bool, e: Write, t: (nat, real))
    requires t.0 in ids && IsGuest(w, t.0) && Target(w, t.0, h, shrink) == Some(t.1) && Sets(e, t)
    ensures Safe(w, ids, shrink, e)
  {
    hide IsGuest, ShrinkTarget, GrowTarget, Cur, Least, Most, Larger;
    if shrink {
      ShrinkBounds(w, t.0, h);
    } else if Cur(w, t.0) >= 0.0 {
      GrowBounds(w, t.0);
    }
  }

  lemma IssuedSafely(w: World, ids: seq<nat>, n: nat, h: real, shrink: bool, log: seq<Write>)
    requires n <= |ids| && AllGuests(w, ids) && Issued([], log, Targets(w, ids[..n], h, shrink))
    ensures forall e :: e in log ==> Safe(w, ids, shrink, e)
  {
    hide IsGuest, Target, Safe, Sets, Targets;
    var targets := Targets(w, ids[..n], h, shrink);
    TargetsAre(w, ids[..n], h, shrink);
    forall e | e in log
      ensures Safe(w, ids, shrink, e)
    {
      var k :| 0 <= k < |log| && log[k] == e;
      assert Sets(log[0 + k], targets[k]);
      SetsSafely(w, ids, h, shrink, e, targets[k]);
    }
  }

  /** What a run has written when it ends. */
  function Writes(r: Outcomes): seq<Write> {
    match r
    case Rets(_, env) => env.log
    case NoRets(Raise(env)) => env.log
    case NoRets(_) => []
  }

  /** Whatever the host and the guests say, and however the run ends, every target set by then
      is within its bounds. */
  lemma RunIsSafe(w: World, fuel: nat, hid: nat, ids: seq<nat>)
    requires IsHost(w, hid) && AllGuests(w, ids)
    ensures var log := Writes(Result(w, fuel, hid, ids));
            log == [] || (HostShare(w, hid).Some? && Number(HostShare(w, hid).value)
                          && forall e :: e in log ==> Safe(w, ids, Num(HostShare(w, hid).value) < 0.20, e))
  {
    hide IsHost, IsGuest, Result, Safe, Issued, Targets, HostShare;
    var r := Result(w, fuel, hid, ids);
    if r != NoRets(Timeout) {
      EveryRunThatEnds(w, fuel, hid, ids);
      if HostShare(w, hid).Some? {
        ShareIsNumber(w, hid);
        var h := Num(HostShare(w, hid).value);
        assert ids[..|ids|] == ids;
        IssuedSafely(w, ids, Served(w, ids, h < 0.20), h, h < 0.20, Writes(r));
      }
    }
  }
}

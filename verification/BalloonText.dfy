/** The program as `doc/balloon.rules` writes it, in its own brackets, and what the parser makes
    of its tokens. */
module BalloonText {
  import opened Grammar
  import opened PolicyGrammar
  import opened Reader
  import opened RoundTrip
  import opened PolicyValues
  import opened Interp
  import opened EvalRules
  import opened BalloonRules
  import opened BalloonRun

  // ---------------------------------------------------------------- tokens and groups

  function S(s: string): Syntax {
    Atom(Sym(s).token)
  }

  function O(s: string): Syntax {
    Atom(Op(s).token)
  }

  function Q(s: string): Syntax {
    Atom(Quoted(s).token)
  }

  function I(i: int): Syntax {
    Atom(Int(i).token)
  }

  function F(r: real): Syntax {
    Atom(Float(r).token)
  }

  /** `( ... )`, with one to four parts */
  function P1(a: Syntax): Syntax {
    Group(Round, [a])
  }

  function P2(a: Syntax, b: Syntax): Syntax {
    Group(Round, [a, b])
  }

  function P3(a: Syntax, b: Syntax, c: Syntax): Syntax {
    Group(Round, [a, b, c])
  }

  function P4(a: Syntax, b: Syntax, c: Syntax, d: Syntax): Syntax {
    Group(Round, [a, b, c, d])
  }

  /** `{ ... }` */
  function C(parts: seq<Syntax>): Syntax {
    Group(Curly, parts)
  }

  // ---------------------------------------------------------------- the text, from top to bottom

  const CONSTANTS_TEXT: seq<Syntax> := [
    P3(S("defvar"), S("pressure_threshold"), F(0.20)),
    P3(S("defvar"), S("pressure_critical"), F(0.05)),
    P3(S("defvar"), S("min_guest_free_percent"), F(0.20)),
    P3(S("defvar"), S("max_balloon_change_percent"), F(0.05)),
    P3(S("defvar"), S("min_balloon_change_percent"), F(0.0025))]

  const CHANGE_TEST: Syntax :=
    P3(O(">"), P2(S("abs"), P3(O("-"), S("new_val"), S("guest.balloon_cur"))),
               P3(O("*"), S("min_balloon_change_percent"), S("guest.balloon_cur")))

  const CHANGE_IF: Syntax := P4(S("if"), CHANGE_TEST, I(1), I(0))

  const CHANGE_TEXT: Syntax :=
    P4(S("def"), S("change_big_enough"), P2(S("guest"), S("new_val")),
      C([CHANGE_IF]))

  const USED_DIFFERENCE: Syntax :=
    P3(O("-"), P2(S("guest.StatAvg"), Q("balloon_cur")), P2(S("guest.StatAvg"), Q("mem_unused")))

  const USED_TEXT: Syntax := P3(S("defvar"), S("guest_used_mem"), USED_DIFFERENCE)

  function MinValueText(percent: string): Syntax {
    P3(S("max"), S("guest.balloon_min"),
      P3(O("+"), S("guest_used_mem"), P3(O("*"), S(percent), S("guest.balloon_cur"))))
  }

  function MinText(percent: string): Syntax {
    P3(S("defvar"), S("balloon_min"), MinValueText(percent))
  }

  function SizeText(op: string): Syntax {
    P3(S("defvar"), S("balloon_size"), P3(O("*"), S("guest.balloon_cur"),
        P3(O(op), I(1), S("max_balloon_change_percent"))))
  }

  const FREE_LOW: Syntax := P3(O("+"), F(-0.05), S("host_free_percent"))

  const FREE_SCALED: Syntax :=
    P3(O("*"), S("min_guest_free_percent"), P3(O("/"), S("host_free_percent"), S("pressure_threshold")))

  const FREE_TEXT: Syntax :=
    P4(S("if"), P3(O("<="), S("host_free_percent"), S("pressure_critical")),
        P3(S("defvar"), S("guest_free_percent"), FREE_LOW), P3(S("defvar"), S("guest_free_percent"), FREE_SCALED))

  function LimitText(op: string, bound: string): Syntax {
    P4(S("if"), P3(O(op), S("balloon_size"), S(bound)), P3(S("set"), S("balloon_size"), S(bound)), I(0))
  }

  const RAISE_TEXT: Syntax := LimitText("<", "balloon_min")

  const CUT_TEXT: Syntax := LimitText(">", "guest.balloon_max")

  const CHANGED_TEXT: Syntax := P3(S("change_big_enough"), S("guest"), S("balloon_size"))

  const CONTROL_TEXT: Syntax := P3(S("guest.Control"), Q("balloon_target"), S("balloon_size"))

  const SHRINK_IF: Syntax :=
    P4(S("if"), P3(S("and"), P3(O("<="), S("balloon_size"), S("guest.balloon_cur")), CHANGED_TEXT), CONTROL_TEXT, I(0))

  const SHRINK_TEXT: Syntax :=
    P4(S("def"), S("shrink_guest"), P1(S("guest")),
      C([FREE_TEXT, USED_TEXT, MinText("guest_free_percent"), SizeText("-"), RAISE_TEXT, SHRINK_IF]))

  const GROW_IF: Syntax := P4(S("if"), CHANGED_TEXT, CONTROL_TEXT, I(0))

  const GROW_STEPS_TEXT: Syntax :=
    C([USED_TEXT, MinText("min_guest_free_percent"), SizeText("+"), RAISE_TEXT, CUT_TEXT, GROW_IF])

  const GROW_WHEN: Syntax :=
    P4(S("if"), P3(O("<"), S("guest.balloon_cur"), S("guest.balloon_max")), GROW_STEPS_TEXT, I(0))

  const GROW_TEXT: Syntax := P4(S("def"), S("grow_guest"), P1(S("guest")), C([GROW_WHEN]))

  const SHARE_TEXT: Syntax :=
    P3(S("defvar"), S("host_free_percent"), P3(O("/"), P2(S("Host.StatAvg"), Q("mem_free")), S("Host.mem_available")))

  function WithText(f: string): Syntax {
    P4(S("with"), S("Guests"), S("guest"), P2(S(f), S("guest")))
  }

  const SCRIPT_TEXT: Syntax :=
    P4(S("if"), P3(O("<"), S("host_free_percent"), S("pressure_threshold")), WithText("shrink_guest"),
      WithText("grow_guest"))

  const TEXT: seq<Syntax> := CONSTANTS_TEXT + [CHANGE_TEXT, SHRINK_TEXT, GROW_TEXT, SHARE_TEXT, SCRIPT_TEXT]

  /** The tokens of the program, in the order of the text. */
  const TOKENS: seq<Token> := TokensAll(TEXT)

  // ---------------------------------------------------------------- groups of each length

  lemma Items<T>(a: T, b: T, c: T, d: T, e: T, f: T)
    ensures [a][..0] == [] && [a, b][..1] == [a] && [a, b, c][..2] == [a, b] && [a, b, c, d][..3] == [a, b, c]
    ensures [a, b, c, d, e][..4] == [a, b, c, d] && [a, b, c, d, e, f][..5] == [a, b, c, d, e]
  {
  }

  lemma One(a: Syntax)
    ensures CodeForAll([a]) == [CodeFor(a)]
  {
    hide CodeFor;
    Items(a, a, a, a, a, a);
  }

  lemma More(a: Syntax, b: Syntax, c: Syntax, d: Syntax)
    ensures CodeForAll([a, b]) == [CodeFor(a), CodeFor(b)]
    ensures CodeForAll([a, b, c]) == [CodeFor(a), CodeFor(b), CodeFor(c)]
    ensures CodeForAll([a, b, c, d]) == [CodeFor(a), CodeFor(b), CodeFor(c), CodeFor(d)]
  {
    hide CodeFor;
    Items(a, b, c, d, d, d);
    One(a);
  }

  lemma Six(a: Syntax, b: Syntax, c: Syntax, d: Syntax, e: Syntax, f: Syntax)
    ensures CodeForAll([a, b, c, d, e]) == [CodeFor(a), CodeFor(b), CodeFor(c), CodeFor(d), CodeFor(e)]
    ensures CodeForAll([a, b, c, d, e, f]) == [CodeFor(a), CodeFor(b), CodeFor(c), CodeFor(d), CodeFor(e), CodeFor(f)]
  {
    hide CodeFor;
    Items(a, b, c, d, e, f);
    More(a, b, c, d);
  }

  lemma OneRead(a: Syntax)
    ensures CodeFor(P1(a)) == List([CodeFor(a)])
  {
    hide CodeFor;
    One(a);
    GroupReads([a]);
  }

  lemma TwoRead(f: Syntax, a: Syntax)
    ensures CodeFor(P2(f, a)) == List([CodeFor(f), CodeFor(a)]) == Invoke(CodeFor(f), [CodeFor(a)])
  {
    hide CodeFor, CodeForAll;
    More(f, a, a, a);
    GroupReads([f, a]);
    assert [CodeFor(f)] + [CodeFor(a)] == [CodeFor(f), CodeFor(a)];
  }

  lemma ThreeRead(f: Syntax, a: Syntax, b: Syntax)
    ensures CodeFor(P3(f, a, b)) == Two(CodeFor(f), CodeFor(a), CodeFor(b)) ==
            Invoke(CodeFor(f), [CodeFor(a), CodeFor(b)])
  {
    hide CodeFor, CodeForAll;
    More(f, a, b, b);
    GroupReads([f, a, b]);
    assert [CodeFor(f)] + [CodeFor(a), CodeFor(b)] == [CodeFor(f), CodeFor(a), CodeFor(b)];
  }

  lemma FourRead(f: Syntax, a: Syntax, b: Syntax, c: Syntax)
    ensures CodeFor(P4(f, a, b, c)) == List([CodeFor(f), CodeFor(a), CodeFor(b), CodeFor(c)])
  {
    hide CodeFor, CodeForAll;
    More(f, a, b, c);
    GroupReads([f, a, b, c]);
  }

  lemma GroupReads(parts: seq<Syntax>)
    ensures CodeFor(Group(Round, parts)) == List(CodeForAll(parts)) && CodeFor(C(parts)) == Block(CodeForAll(parts))
  {
    assert [] + CodeForAll(parts) == CodeForAll(parts);
  }

  lemma AtomsRead()
    ensures forall s :: CodeFor(S(s)) == Sym(s) && CodeFor(O(s)) == Op(s) && CodeFor(Q(s)) == Quoted(s)
    ensures (forall i :: CodeFor(I(i)) == Int(i)) && (forall r :: CodeFor(F(r)) == Float(r))
  {
  }

  lemma GroupsRead()
    ensures forall f, a {:trigger P2(f, a)} :: CodeFor(P2(f, a)) == Invoke(CodeFor(f), [CodeFor(a)])
    ensures forall f, a, b {:trigger P3(f, a, b)} :: CodeFor(P3(f, a, b)) == Two(CodeFor(f), CodeFor(a), CodeFor(b))
  {
    hide *;
    forall f, a {:trigger P2(f, a)} ensures CodeFor(P2(f, a)) == Invoke(CodeFor(f), [CodeFor(a)]) { TwoRead(f, a); }
    forall f, a, b {:trigger P3(f, a, b)}
      ensures CodeFor(P3(f, a, b)) == Two(CodeFor(f), CodeFor(a), CodeFor(b))
    {
      ThreeRead(f, a, b);
    }
  }

  // ---------------------------------------------------------------- the forms

  lemma DefVarReads(x: string, e: Syntax)
    ensures CodeFor(P3(S("defvar"), S(x), e)) == DefVarOf(x, CodeFor(e))
    ensures CodeFor(P3(S("set"), S(x), e)) == SetOf(x, CodeFor(e))
  {
    hide CodeFor, CodeForAll, S, P3, Sym, Invoke;
    AtomsRead();
    ThreeRead(S("defvar"), S(x), e);
    ThreeRead(S("set"), S(x), e);
  }

  lemma IfReads(c: Syntax, yes: Syntax, no: Syntax)
    ensures CodeFor(P4(S("if"), c, yes, no)) == IfOf(CodeFor(c), CodeFor(yes), CodeFor(no))
  {
    hide CodeFor, CodeForAll, S, P4, Sym;
    AtomsRead();
    FourRead(S("if"), c, yes, no);
  }

  lemma DefReads(name: string, params: Syntax, body: seq<Syntax>)
    ensures CodeFor(params).List? ==>
              CodeFor(P4(S("def"), S(name), params, C(body))) ==
                DefOf(name, CodeFor(params).items, Block(CodeForAll(body)))
  {
    hide CodeFor, CodeForAll, S, P4, Sym, C, Block;
    AtomsRead();
    GroupReads(body);
    FourRead(S("def"), S(name), params, C(body));
  }

  lemma WithReads(f: string)
    ensures CodeFor(WithText(f)) == WithGuests(f)
  {
    hide CodeFor, CodeForAll, S, P2, P4, Sym, Invoke;
    AtomsRead();
    TwoRead(S(f), S("guest"));
    FourRead(S("with"), S("Guests"), S("guest"), P2(S(f), S("guest")));
  }

  // ---------------------------------------------------------------- the program, piece by piece

  lemma TestReads()
    ensures CodeFor(CHANGE_TEST) == Two(Op(">"), Invoke(Sym("abs"), [Two(Op("-"), Sym("new_val"), CUR)]),
                                                  Two(Op("*"), Sym("min_balloon_change_percent"), CUR))
  {
    hide CodeFor, CodeForAll, S, O, Q, I, F, P1, P2, P3, P4, C, Sym, Op, Quoted, Int, Float, Invoke, Two, IfOf,
      DefVarOf, SetOf,
      DefOf, Block;
    AtomsRead();
    GroupsRead();
  }

  lemma ChangeReads()
    ensures CodeFor(CHANGE_TEXT) == DefOf("change_big_enough", [G, Sym("new_val")], CHANGE_BODY)
  {
    hide CodeFor, CodeForAll, S, O, Q, I, F, P1, P2, P3, P4, C, Sym, Op, Quoted, Int, Float, Invoke, Two, IfOf,
      DefVarOf, SetOf,
      DefOf, Block;
    AtomsRead();
    TestReads();
    IfReads(CHANGE_TEST, I(1), I(0));
    One(CHANGE_IF);
    TwoRead(S("guest"), S("new_val"));
    DefReads("change_big_enough", P2(S("guest"), S("new_val")), [CHANGE_IF]);
  }

  lemma CallsRead()
    ensures CodeFor(CHANGED_TEXT) == CHANGED && CodeFor(CONTROL_TEXT) == CONTROL
  {
    hide CodeFor, CodeForAll, S, O, Q, I, F, P1, P2, P3, P4, C, Sym, Op, Quoted, Int, Float, Invoke, Two, IfOf,
      DefVarOf, SetOf,
      DefOf, Block;
    AtomsRead();
    ThreeRead(S("change_big_enough"), S("guest"), S("balloon_size"));
    ThreeRead(S("guest.Control"), Q("balloon_target"), S("balloon_size"));
  }

  lemma UsedReads()
    ensures CodeFor(USED_TEXT) == DefVarOf("guest_used_mem", USED)
  {
    hide CodeFor, CodeForAll, S, O, Q, I, F, P1, P2, P3, P4, C, Sym, Op, Quoted, Int, Float, Invoke, Two, IfOf,
      DefVarOf, SetOf,
      DefOf, Block;
    AtomsRead();
    GroupsRead();
    DefVarReads("guest_used_mem", USED_DIFFERENCE);
  }

  lemma MinReads(percent: string)
    ensures CodeFor(MinText(percent)) == DefVarOf("balloon_min", MinWith(percent))
  {
    hide CodeFor, CodeForAll, S, O, Q, I, F, P1, P2, P3, P4, C, Sym, Op, Quoted, Int, Float, Invoke, Two, IfOf,
      DefVarOf, SetOf,
      DefOf, Block;
    AtomsRead();
    GroupsRead();
    DefVarReads("balloon_min", MinValueText(percent));
  }

  lemma SizeReads(op: string)
    ensures CodeFor(SizeText(op)) ==
            DefVarOf("balloon_size", Two(Op("*"), CUR, Two(Op(op), Int(1), Sym("max_balloon_change_percent"))))
  {
    hide CodeFor, CodeForAll, S, O, Q, I, F, P1, P2, P3, P4, C, Sym, Op, Quoted, Int, Float, Invoke, Two, IfOf,
      DefVarOf, SetOf,
      DefOf, Block;
    AtomsRead();
    GroupsRead();
    DefVarReads("balloon_size", P3(O("*"), S("guest.balloon_cur"), P3(O(op), I(1), S("max_balloon_change_percent"))));
  }

  lemma LimitReads(op: string, bound: string)
    ensures CodeFor(LimitText(op, bound)) ==
            IfOf(Two(Op(op), SIZE, Sym(bound)), SetOf("balloon_size", Sym(bound)), Int(0))
  {
    hide CodeFor, CodeForAll, S, O, Q, I, F, P1, P2, P3, P4, C, Sym, Op, Quoted, Int, Float, Invoke, Two, IfOf,
      DefVarOf, SetOf,
      DefOf, Block;
    AtomsRead();
    ThreeRead(O(op), S("balloon_size"), S(bound));
    DefVarReads("balloon_size", S(bound));
    IfReads(P3(O(op), S("balloon_size"), S(bound)), P3(S("set"), S("balloon_size"), S(bound)), I(0));
  }

  lemma FreeReads()
    ensures CodeFor(FREE_TEXT) == FREE_PERCENT
  {
    hide CodeFor, CodeForAll, S, O, Q, I, F, P1, P2, P3, P4, C, Sym, Op, Quoted, Int, Float, Invoke, Two, IfOf,
      DefVarOf, SetOf,
      DefOf, Block;
    AtomsRead();
    GroupsRead();
    DefVarReads("guest_free_percent", FREE_LOW);
    DefVarReads("guest_free_percent", FREE_SCALED);
    IfReads(P3(O("<="), S("host_free_percent"), S("pressure_critical")),
      P3(S("defvar"), S("guest_free_percent"), FREE_LOW), P3(S("defvar"), S("guest_free_percent"), FREE_SCALED));
  }

  lemma ShrinkIfReads()
    ensures CodeFor(SHRINK_IF) == IfOf(Two(Sym("and"), Two(Op("<="), SIZE, CUR), CHANGED), CONTROL, Int(0))
  {
    hide CodeFor, CodeForAll, S, O, Q, I, F, P1, P2, P3, P4, C, Sym, Op, Quoted, Int, Float, Invoke, Two, IfOf,
      DefVarOf, SetOf,
      DefOf, Block;
    AtomsRead();
    GroupsRead();
    CallsRead();
    IfReads(P3(S("and"), P3(O("<="), S("balloon_size"), S("guest.balloon_cur")), CHANGED_TEXT), CONTROL_TEXT, I(0));
  }

  lemma ShrinkReads()
    ensures CodeFor(SHRINK_TEXT) == DefOf("shrink_guest", [G], SHRINK_BODY)
  {
    hide CodeFor, CodeForAll, S, O, Q, I, F, P1, P2, P3, P4, C, Sym, Op, Quoted, Int, Float, Invoke, Two, IfOf,
      DefVarOf, SetOf,
      DefOf, Block, MinText, SizeText, LimitText, MinWith;
    AtomsRead();
    FreeReads();
    UsedReads();
    MinReads("guest_free_percent");
    SizeReads("-");
    LimitReads("<", "balloon_min");
    ShrinkIfReads();
    Six(FREE_TEXT, USED_TEXT, MinText("guest_free_percent"), SizeText("-"), RAISE_TEXT, SHRINK_IF);
    OneRead(S("guest"));
    DefReads("shrink_guest", P1(S("guest")),
      [FREE_TEXT, USED_TEXT, MinText("guest_free_percent"), SizeText("-"), RAISE_TEXT, SHRINK_IF]);
  }

  lemma GrowStepsRead()
    ensures CodeFor(GROW_STEPS_TEXT) == GROW_STEPS
  {
    hide CodeFor, CodeForAll, S, O, Q, I, F, P1, P2, P3, P4, C, Sym, Op, Quoted, Int, Float, Invoke, Two, IfOf,
      DefVarOf, SetOf,
      DefOf, Block, MinText, SizeText, LimitText, MinWith;
    AtomsRead();
    UsedReads();
    MinReads("min_guest_free_percent");
    SizeReads("+");
    LimitReads("<", "balloon_min");
    LimitReads(">", "guest.balloon_max");
    CallsRead();
    IfReads(CHANGED_TEXT, CONTROL_TEXT, I(0));
    Six(USED_TEXT, MinText("min_guest_free_percent"), SizeText("+"), RAISE_TEXT, CUT_TEXT, GROW_IF);
    GroupReads([USED_TEXT, MinText("min_guest_free_percent"), SizeText("+"), RAISE_TEXT, CUT_TEXT, GROW_IF]);
  }

  lemma GrowReads()
    ensures CodeFor(GROW_TEXT) == DefOf("grow_guest", [G], GROW_BODY)
  {
    hide CodeFor, CodeForAll, S, O, Q, I, F, P1, P2, P3, P4, C, Sym, Op, Quoted, Int, Float, Invoke, Two, IfOf,
      DefVarOf, SetOf,
      DefOf, Block, MinText, SizeText, MinWith;
    AtomsRead();
    GrowStepsRead();
    ThreeRead(O("<"), S("guest.balloon_cur"), S("guest.balloon_max"));
    IfReads(P3(O("<"), S("guest.balloon_cur"), S("guest.balloon_max")), GROW_STEPS_TEXT, I(0));
    One(GROW_WHEN);
    OneRead(S("guest"));
    DefReads("grow_guest", P1(S("guest")), [GROW_WHEN]);
  }

  lemma ShareReads()
    ensures CodeFor(SHARE_TEXT) == HOST_SHARE
  {
    hide CodeFor, CodeForAll, S, O, Q, I, F, P1, P2, P3, P4, C, Sym, Op, Quoted, Int, Float, Invoke, Two, IfOf,
      DefVarOf, SetOf,
      DefOf, Block;
    AtomsRead();
    GroupsRead();
    DefVarReads("host_free_percent", P3(O("/"), P2(S("Host.StatAvg"), Q("mem_free")), S("Host.mem_available")));
  }

  lemma ScriptReads()
    ensures CodeFor(SCRIPT_TEXT) == SCRIPT
  {
    hide CodeFor, CodeForAll, S, O, Q, I, F, P1, P2, P3, P4, C, Sym, Op, Quoted, Int, Float, Invoke, Two, IfOf,
      DefVarOf, SetOf,
      DefOf, Block, WithText, WithGuests;
    AtomsRead();
    ThreeRead(O("<"), S("host_free_percent"), S("pressure_threshold"));
    WithReads("shrink_guest");
    WithReads("grow_guest");
    IfReads(P3(O("<"), S("host_free_percent"), S("pressure_threshold")), WithText("shrink_guest"),
      WithText("grow_guest"));
  }

  lemma {:induction false} ConstantTextsRead(cs: seq<(string, real)>, ss: seq<Syntax>)
    requires |ss| == |cs| && (forall k :: 0 <= k < |cs| ==> ss[k] == P3(S("defvar"), S(cs[k].0), F(cs[k].1)))
    ensures CodeForAll(ss) == Constants(cs)
  {
    hide Invoke, S, F, P3, CodeFor, DefVarOf, Float;
    if cs != [] {
      var (x, r) := cs[|cs| - 1];
      ConstantTextsRead(cs[..|cs| - 1], ss[..|ss| - 1]);
      AtomsRead();
      DefVarReads(x, F(r));
    }
  }

  lemma ConstantsRead()
    ensures CodeForAll(CONSTANTS_TEXT) == Constants(CONSTANTS)
  {
    hide CodeForAll, Constants, S, F, P3;
    ConstantTextsRead(CONSTANTS, CONSTANTS_TEXT);
  }

  lemma {:induction false} CodeForConcat(a: seq<Syntax>, b: seq<Syntax>)
    ensures CodeForAll(a + b) == CodeForAll(a) + CodeForAll(b)
  {
    if b == [] {
      assert a + b == a;
    } else {
      var c := a + b;
      assert c[..|c| - 1] == a + b[..|b| - 1];
      CodeForConcat(a, b[..|b| - 1]);
    }
  }

  /** The text is that of the program whose runs the theorems are about. */
  lemma TextIsProgram()
    ensures CodeForAll(TEXT) == PROGRAM
  {
    hide CodeForAll, CodeFor, Constants;
    ConstantsRead();
    ChangeReads();
    ShrinkReads();
    GrowReads();
    ShareReads();
    ScriptReads();
    CodeForConcat(CONSTANTS_TEXT, [CHANGE_TEXT, SHRINK_TEXT, GROW_TEXT, SHARE_TEXT, SCRIPT_TEXT]);
    Six(CHANGE_TEXT, SHRINK_TEXT, GROW_TEXT, SHARE_TEXT, SCRIPT_TEXT, SCRIPT_TEXT);
  }

  /** The parser, given the tokens of the program's text, returns the code the theorems about
      its runs speak of. */
  lemma ProgramParses()
    ensures CodeOf(TOKENS) == Loaded(PROGRAM)
  {
    hide CodeOf, CodeForAll, TokensAll;
    ParseText(TEXT);
    TextIsProgram();
  }

  ghost predicate RunsSo(w: World, n: nat, code: seq<Code>, hid: nat, ids: seq<nat>)
    requires IsHost(w, hid) && AllGuests(w, ids)
  {
    forall fuel: nat :: fuel >= n ==>
      RunOk(w, hid, ids, EvalAll(w, fuel, code, Interp.Start(VEntity(hid), VList(EntitiesOf(ids)))))
  }

  /** From the tokens to the targets: what the parser makes of the text, run for any host and any
      guests, ends, and as `RunOk` says. */
  lemma TextRuns(w: World, hid: nat, ids: seq<nat>)
    requires IsHost(w, hid) && AllGuests(w, ids)
    ensures CodeOf(TOKENS).Loaded? && exists n: nat :: RunsSo(w, n, CodeOf(TOKENS).code, hid, ids)
  {
    hide CodeOf, RunOk, EvalAll, IsHost, AllGuests, Interp.Start, EntitiesOf, TOKENS, PROGRAM;
    ProgramParses();
    RunSetsTargets(w, hid, ids);
    var n: nat :| RunsFrom(w, n, hid, ids);
    forall fuel: nat | fuel >= n
      ensures RunOk(w, hid, ids, EvalAll(w, fuel, PROGRAM, Interp.Start(VEntity(hid), VList(EntitiesOf(ids)))))
    {
      assert RunOk(w, hid, ids, Result(w, fuel, hid, ids));
    }
    assert RunsSo(w, n, PROGRAM, hid, ids);
  }
}

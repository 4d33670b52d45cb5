/** A bracket reader for the policy language: one pass over the tokens with a stack of open
    brackets. It says what the grammar means without grammar or chart; `get_code` is proved to
    compute it, and what the language promises is proved about it. */
module Reader {
  import opened Grammar
  import opened Earley
  import opened Options
  import opened PolicyGrammar

  /** The open brackets, outermost first, each with the values read before it, and the values
      read since the last of them; or the tokens read so far cannot begin a policy. */
  datatype State = Reading(open: seq<(Bracket, seq<Code>)>, items: seq<Code>) | Stuck

  function OpenedBy(k: Symbol): Option<Bracket> {
    if k == "(" then Some(Round) else if k == "[" then Some(Square) else if k == "{" then Some(Curly) else None
  }

  function ClosedBy(k: Symbol): Option<Bracket> {
    if k == ")" then Some(Round) else if k == "]" then Some(Square) else if k == "}" then Some(Curly) else None
  }

  function Step(st: State, tok: Token): State {
    if st.Stuck? then
      Stuck
    else if tok.kind in ATOM_KINDS then
      Reading(st.open, st.items + [Tok(tok)])
    else if OpenedBy(tok.kind).Some? then
      Reading(st.open + [(OpenedBy(tok.kind).value, st.items)], [])
    else if ClosedBy(tok.kind).Some? && st.open != [] && st.open[|st.open| - 1].0 == ClosedBy(tok.kind).value then
      var (b, before) := st.open[|st.open| - 1];
      Reading(st.open[..|st.open| - 1], before + [Wrap(b, st.items)])
    else
      Stuck
  }

  function Run(st: State, w: seq<Token>): State {
    if w == [] then st else Step(Run(st, w[..|w| - 1]), w[|w| - 1])
  }

  const Start: State := Reading([], [])

  /** A possibly empty run of complete expressions. */
  predicate Complete(w: seq<Token>) {
    Run(Start, w).Reading? && Run(Start, w).open == []
  }

  function Values(w: seq<Token>): seq<Code>
    requires Complete(w)
  {
    Run(Start, w).items
  }

  /** The policies with these tokens: their values, or None if there is a syntax error. */
  function Read(w: seq<Token>): Option<seq<Code>> {
    if Complete(w) && Values(w) != [] then Some(Values(w)) else None
  }

  // ---------------------------------------------------------------- running in pieces

  lemma {:induction false} RunConcat(st: State, u: seq<Token>, v: seq<Token>)
    ensures Run(st, u + v) == Run(Run(st, u), v)
  {
    if v == [] {
      assert u + v == u;
    } else {
      var w := u + v;
      assert w[..|w| - 1] == u + v[..|v| - 1];
      RunConcat(st, u, v[..|v| - 1]);
    }
  }

  lemma EmptyIsComplete()
    ensures Complete([]) && Values([]) == []
  {
  }

  lemma RunToken(st: State, tok: Token)
    ensures Run(st, [tok]) == Step(st, tok)
  {
    assert [tok][..0] == [];
  }

  /** The state `st`, reached inside the brackets `open` after the values `items`. */
  function Within(open: seq<(Bracket, seq<Code>)>, items: seq<Code>, st: State): State {
    match st
    case Stuck => Stuck
    case Reading(o, its) =>
      if o == [] then Reading(open, items + its)
      else Reading(open + [(o[0].0, items + o[0].1)] + o[1..], its)
  }

  lemma StepWithin(open: seq<(Bracket, seq<Code>)>, items: seq<Code>, st: State, tok: Token)
    requires Step(st, tok).Reading? || open == []
    ensures Step(Within(open, items, st), tok) == Within(open, items, Step(st, tok))
  {
    if st.Reading? {
      var o, its := st.open, st.items;
      var whole := Within(open, items, st);
      if tok.kind in ATOM_KINDS {
        assert items + (its + [Tok(tok)]) == (items + its) + [Tok(tok)];
      } else if OpenedBy(tok.kind).Some? {
        var frame := (OpenedBy(tok.kind).value, its);
        if o == [] {
          assert [frame][1..] == [];
        } else {
          assert (o + [frame])[1..] == o[1..] + [frame];
          assert open + [(o[0].0, items + o[0].1)] + (o[1..] + [frame]) ==
                 (open + [(o[0].0, items + o[0].1)] + o[1..]) + [frame];
        }
      } else if ClosedBy(tok.kind).Some? && o != [] {
        if |o| == 1 {
          assert whole.open[..|whole.open| - 1] == open;
          assert items + (o[0].1 + [Wrap(o[0].0, its)]) == (items + o[0].1) + [Wrap(o[0].0, its)];
        } else {
          assert whole.open[|whole.open| - 1] == o[|o| - 1];
          assert o[..|o| - 1][1..] == o[1..][..|o| - 2];
          assert whole.open[..|whole.open| - 1] == open + [(o[0].0, items + o[0].1)] + o[1..][..|o| - 2];
        }
      }
    }
  }

  /** What a run does from the start it does anywhere, as long as it does not get stuck. */
  lemma {:induction false} RunWithin(open: seq<(Bracket, seq<Code>)>, items: seq<Code>, w: seq<Token>)
    requires Run(Start, w).Reading? || open == []
    ensures Run(Reading(open, items), w) == Within(open, items, Run(Start, w))
  {
    if w == [] {
      assert items + [] == items;
    } else {
      RunWithin(open, items, w[..|w| - 1]);
      StepWithin(open, items, Run(Start, w[..|w| - 1]), w[|w| - 1]);
    }
  }

  /** A complete run appends its values, wherever it stands. */
  lemma CompleteAppends(open: seq<(Bracket, seq<Code>)>, items: seq<Code>, w: seq<Token>)
    requires Complete(w)
    ensures Run(Reading(open, items), w) == Reading(open, items + Values(w))
  {
    RunWithin(open, items, w);
  }

  lemma CompleteConcat(u: seq<Token>, v: seq<Token>)
    requires Complete(u) && Complete(v)
    ensures Complete(u + v) && Values(u + v) == Values(u) + Values(v)
  {
    RunConcat(Start, u, v);
    CompleteAppends([], Values(u), v);
  }

  /** Complete text around it leaves a piece no choice: if the whole is complete, so is it. */
  lemma CompleteBetween(u: seq<Token>, s: seq<Token>, v: seq<Token>)
    requires Complete(u) && Complete(v) && Complete(u + s + v)
    ensures Complete(s)
  {
    RunConcat(Start, u + s, v);
    RunConcat(Start, u, s);
    RunWithin([], Values(u), s);
    var mid := Run(Start, u + s);
    StuckStays(mid, v);
    CompleteAppends(mid.open, mid.items, v);
  }

  lemma {:induction false} StuckStays(st: State, w: seq<Token>)
    ensures st.Stuck? ==> Run(st, w).Stuck?
  {
    if w != [] {
      StuckStays(st, w[..|w| - 1]);
    }
  }

  /** A group of complete values is one value. */
  lemma GroupIsValue(st: State, b: Bracket, w: seq<Token>, o: Token, c: Token)
    requires Complete(w) && o.kind == Opening(b) && c.kind == Closing(b) && st.Reading?
    ensures Run(st, [o] + w + [c]) == Reading(st.open, st.items + [Wrap(b, Values(w))])
    ensures st == Start ==> Complete([o] + w + [c]) && Values([o] + w + [c]) == [Wrap(b, Values(w))]
  {
    RunConcat(st, [o] + w, [c]);
    RunConcat(st, [o], w);
    RunToken(st, o);
    BracketKinds(b);
    var inside := st.open + [(b, st.items)];
    CompleteAppends(inside, [], w);
    assert [] + Values(w) == Values(w);
    RunToken(Reading(inside, Values(w)), c);
    assert inside[..|inside| - 1] == st.open;
  }

  lemma BracketKinds(b: Bracket)
    ensures Opening(b) !in ATOM_KINDS && OpenedBy(Opening(b)) == Some(b)
    ensures Closing(b) !in ATOM_KINDS && OpenedBy(Closing(b)) == None && ClosedBy(Closing(b)) == Some(b)
    ensures Bracketing(Opening(b)) && Bracketing(Closing(b))
  {
  }

  // ---------------------------------------------------------------- the reader is the grammar

  lemma SmallForests<V>(a: Tree, b: Tree, c: Tree, leaf: Token -> V, act: (Rule, seq<V>) -> V)
    ensures YieldAll([a]) == Yield(a) && FoldAll([a], leaf, act) == [Fold(a, leaf, act)]
    ensures YieldAll([a, b]) == Yield(a) + Yield(b)
    ensures FoldAll([a, b], leaf, act) == [Fold(a, leaf, act), Fold(b, leaf, act)]
    ensures YieldAll([a, b, c]) == Yield(a) + Yield(b) + Yield(c)
    ensures FoldAll([a, b, c], leaf, act) == [Fold(a, leaf, act), Fold(b, leaf, act), Fold(c, leaf, act)]
  {
    assert [a][..0] == [] && [a, b][..1] == [a] && [a, b, c][..2] == [a, b];
  }

  function ValueOf(t: Tree): Code {
    Fold(t, TokenCode, Action)
  }

  ghost predicate PolicyTree(t: Tree, X: Symbol) {
    ValidTree(RULES, t) && Root(t) == X
  }

  lemma TerminalIsLeaf(t: Tree, k: Symbol)
    requires PolicyTree(t, k) && (k in ATOM_KINDS || Bracketing(k))
    ensures t.Leaf? && t.token.kind == k && Yield(t) == [t.token] && ValueOf(t) == Tok(t.token)
  {
    TerminalsAreNot(k);
    RulesAre();
  }

  lemma NodeRule(t: Tree, X: Symbol)
    requires PolicyTree(t, X) && Nonterminal(X) && X != START
    ensures t.Node? && t.rule in PRODUCTIONS && t.rule.lhs == X && |t.children| == |t.rule.rhs|
    ensures forall k :: 0 <= k < |t.children| ==> PolicyTree(t.children[k], t.rule.rhs[k])
    ensures Yield(t) == YieldAll(t.children) && ValueOf(t) == Action(t.rule, FoldAll(t.children, TokenCode, Action))
  {
    SymbolsDiffer();
    RulesAre();
  }

  lemma NoOtherRule(r: Rule)
    requires r in PRODUCTIONS
    ensures r.lhs == VALUE_LIST ==> r in LIST_RULES
    ensures r.lhs == VALUE ==> r in VALUE_RULES
    ensures forall b :: r.lhs == GroupSymbol(b) ==> r in GroupRules(b)
  {
    SymbolsDiffer();
    ProductionCases(r);
    if r in VALUE_RULES {
      ValueRuleCases(r);
    } else if r in LIST_RULES {
      assert r.lhs == VALUE_LIST;
    }
  }

  /** The grammar means no more than the reader: what a derivation tree yields is complete, and
      its values are the tree's value. */
  lemma {:induction false} ListTreeReads(t: Tree)
    requires PolicyTree(t, VALUE_LIST)
    ensures Complete(Yield(t)) && ValueOf(t) == List(Values(Yield(t))) && Values(Yield(t)) != []
    decreases t
  {
    NodeRule(t, VALUE_LIST);
    NoOtherRule(t.rule);
    var c := t.children;
    if t.rule == LIST_RULES[0] {
      assert c == [c[0]];
      SmallForests(c[0], c[0], c[0], TokenCode, Action);
      ValueTreeReads(c[0]);
    } else {
      assert c == [c[0], c[1]];
      SmallForests(c[0], c[1], c[1], TokenCode, Action);
      ListTreeReads(c[0]);
      ValueTreeReads(c[1]);
      CompleteConcat(Yield(c[0]), Yield(c[1]));
    }
  }

  lemma {:induction false} ValueTreeReads(t: Tree)
    requires PolicyTree(t, VALUE)
    ensures Complete(Yield(t)) && Values(Yield(t)) == [ValueOf(t)]
    decreases t
  {
    SymbolsDiffer();
    NodeRule(t, VALUE);
    NoOtherRule(t.rule);
    ValueRuleCases(t.rule);
    var c := t.children[0];
    assert t.children == [c];
    SmallForests(c, c, c, TokenCode, Action);
    if t.rule.rhs[0] in ATOM_KINDS {
      TerminalIsLeaf(c, t.rule.rhs[0]);
      RunToken(Start, c.token);
      assert [] + [Tok(c.token)] == [Tok(c.token)];
    } else {
      var b :| t.rule.rhs[0] == GroupSymbol(b);
      GroupTreeReads(c, b);
    }
  }

  lemma GroupIsNonterminal(b: Bracket)
    ensures Nonterminal(GroupSymbol(b)) && GroupSymbol(b) != START
  {
    SymbolsDiffer();
  }

  lemma GroupValues(b: Bracket)
    ensures forall x, y :: Action(GroupRules(b)[0], [x, y]) == Wrap(b, [])
    ensures forall x, y, v :: Action(GroupRules(b)[1], [x, List(v), y]) == Wrap(b, v)
  {
    SymbolsDiffer();
  }

  lemma {:induction false} GroupTreeReads(t: Tree, b: Bracket)
    requires PolicyTree(t, GroupSymbol(b))
    ensures Complete(Yield(t)) && Values(Yield(t)) == [ValueOf(t)]
    decreases t
  {
    GroupIsNonterminal(b);
    NodeRule(t, GroupSymbol(b));
    NoOtherRule(t.rule);
    var c := t.children;
    if t.rule == GroupRules(b)[1] {
      ListTreeReads(c[1]);
    }
    GroupReads(t, b);
  }

  lemma GroupReads(t: Tree, b: Bracket)
    requires t.Node? && t.rule in GroupRules(b) && |t.children| == |t.rule.rhs|
    requires forall k :: 0 <= k < |t.children| ==> PolicyTree(t.children[k], t.rule.rhs[k])
    requires |t.rule.rhs| == 3 ==>
               Complete(Yield(t.children[1])) && ValueOf(t.children[1]) == List(Values(Yield(t.children[1])))
    requires Yield(t) == YieldAll(t.children) && ValueOf(t) == Action(t.rule, FoldAll(t.children, TokenCode, Action))
    ensures Complete(Yield(t)) && Values(Yield(t)) == [ValueOf(t)]
  {
    hide Run, Step, Yield, YieldAll, Fold, FoldAll, ValidTree, PolicyTree, Opening, Closing, Bracketing, Wrap, Action;
    GroupValues(b);
    BracketKinds(b);
    var c := t.children;
    var o, last := c[0], c[|c| - 1];
    TerminalIsLeaf(o, Opening(b));
    TerminalIsLeaf(last, Closing(b));
    if t.rule == GroupRules(b)[0] {
      assert c == [o, last];
      SmallForests(o, last, last, TokenCode, Action);
      EmptyIsComplete();
      GroupIsValue(Start, b, [], o.token, last.token);
      assert [o.token] + [] + [last.token] == [o.token] + [last.token];
    } else {
      assert c == [o, c[1], last];
      SmallForests(o, c[1], last, TokenCode, Action);
      GroupIsValue(Start, b, Yield(c[1]), o.token, last.token);
    }
  }

  /** The tokens `w` are nothing, or derived by value_list with these values. */
  ghost predicate Listed(items: seq<Code>, w: seq<Token>) {
    (items == [] && w == []) ||
    (exists t :: PolicyTree(t, VALUE_LIST) && Yield(t) == w && ValueOf(t) == List(items))
  }

  /** The tokens `w` open these brackets and no others, and derive what is between them. */
  ghost predicate Described(open: seq<(Bracket, seq<Code>)>, items: seq<Code>, w: seq<Token>) {
    if open == [] then
      Listed(items, w)
    else
      var (b, before) := open[|open| - 1];
      exists i :: 0 <= i < |w| && OpensAt(w, i, b) && Described(open[..|open| - 1], before, w[..i]) &&
        Listed(items, w[i + 1..])
  }

  predicate OpensAt(w: seq<Token>, i: nat, b: Bracket)
    requires i < |w|
  {
    w[i].kind == Opening(b)
  }

  lemma NodeTree(rule: Rule, children: seq<Tree>) returns (t: Tree)
    requires rule in PRODUCTIONS && ValidForest(RULES, children, rule.rhs)
    ensures PolicyTree(t, rule.lhs) && Yield(t) == YieldAll(children)
    ensures ValueOf(t) == Action(rule, FoldAll(children, TokenCode, Action))
  {
    RulesAre();
    t := Node(rule, children);
  }

  lemma LeafTree(tok: Token) returns (t: Tree)
    requires tok.kind in ATOM_KINDS || Bracketing(tok.kind)
    ensures PolicyTree(t, tok.kind) && Yield(t) == [tok] && ValueOf(t) == Tok(tok)
  {
    RulesAre();
    TerminalsAreNot(tok.kind);
    t := Leaf(tok);
  }

  lemma ListedSnoc(items: seq<Code>, w: seq<Token>, v: Tree)
    requires Listed(items, w) && PolicyTree(v, VALUE)
    ensures Listed(items + [ValueOf(v)], w + Yield(v))
  {
    hide ValidTree, ValidForest, Fold, FoldAll, Yield, YieldAll;
    ListRulesThere();
    if items == [] && w == [] {
      SmallForests(v, v, v, TokenCode, Action);
      ForestOfTwo(v, v, VALUE, VALUE);
      var t := NodeTree(LIST_RULES[0], [v]);
      assert w + Yield(v) == Yield(v) && items + [ValueOf(v)] == [ValueOf(v)];
    } else {
      var l :| PolicyTree(l, VALUE_LIST) && Yield(l) == w && ValueOf(l) == List(items);
      SmallForests(l, v, v, TokenCode, Action);
      ForestOfTwo(l, v, VALUE_LIST, VALUE);
      var t := NodeTree(LIST_RULES[1], [l, v]);
    }
  }

  lemma ListRulesThere()
    ensures LIST_RULES[0] in PRODUCTIONS && LIST_RULES[1] in PRODUCTIONS
  {
    assert LIST_RULES[0] in LIST_RULES && LIST_RULES[1] in LIST_RULES;
  }

  lemma ForestOfTwo(l: Tree, v: Tree, X: Symbol, Y: Symbol)
    requires PolicyTree(l, X) && PolicyTree(v, Y)
    ensures ValidForest(RULES, [v], [Y]) && ValidForest(RULES, [l, v], [X, Y])
  {
  }

  lemma DescribedSnoc(open: seq<(Bracket, seq<Code>)>, items: seq<Code>, w: seq<Token>, v: Tree)
    requires Described(open, items, w) && PolicyTree(v, VALUE)
    ensures Described(open, items + [ValueOf(v)], w + Yield(v))
  {
    hide Listed, PolicyTree, ValueOf, Yield;
    if open == [] {
      ListedSnoc(items, w, v);
    } else {
      var b, before := open[|open| - 1].0, open[|open| - 1].1;
      var i :| 0 <= i < |w| && OpensAt(w, i, b) && Described(open[..|open| - 1], before, w[..i]) &&
          Listed(items, w[i + 1..]);
      ListedSnoc(items, w[i + 1..], v);
      var w' := w + Yield(v);
      assert w'[..i] == w[..i] && w'[i + 1..] == w[i + 1..] + Yield(v) && OpensAt(w', i, b);
    }
  }

  lemma ValueTree(X: Symbol, c: Tree) returns (t: Tree)
    requires PolicyTree(c, X) && Rule(VALUE, [X]) in PRODUCTIONS
    ensures PolicyTree(t, VALUE) && Yield(t) == Yield(c) && ValueOf(t) == ValueOf(c)
  {
    SymbolsDiffer();
    SmallForests(c, c, c, TokenCode, Action);
    t := NodeTree(Rule(VALUE, [X]), [c]);
  }

  lemma ValueRulesThere(X: Symbol)
    requires X in ATOM_KINDS || exists b :: X == GroupSymbol(b)
    ensures Rule(VALUE, [X]) in PRODUCTIONS
  {
    assert Rule(VALUE, [X]) in VALUE_RULES by {
      assert Rule(VALUE, [X]) in [VALUE_RULES[0], VALUE_RULES[1], VALUE_RULES[3], VALUE_RULES[4], VALUE_RULES[5],
             VALUE_RULES[6], VALUE_RULES[7], VALUE_RULES[8]];
    }
  }

  lemma GroupTree(b: Bracket, items: seq<Code>, w: seq<Token>, o: Token, c: Token) returns (t: Tree)
    requires Listed(items, w) && o.kind == Opening(b) && c.kind == Closing(b)
    ensures PolicyTree(t, GroupSymbol(b)) && Yield(t) == [o] + w + [c] && ValueOf(t) == Wrap(b, items)
  {
    SymbolsDiffer();
    hide Yield, YieldAll, Fold, FoldAll, ValidTree;
    assert Bracketing(o.kind) && Bracketing(c.kind);
    var l := LeafTree(o);
    var r := LeafTree(c);
    assert GroupRules(b)[0] in PRODUCTIONS && GroupRules(b)[1] in PRODUCTIONS;
    if items == [] && w == [] {
      SmallForests(l, r, r, TokenCode, Action);
      t := NodeTree(GroupRules(b)[0], [l, r]);
      assert [o] + w + [c] == [o] + [c];
    } else {
      var m :| PolicyTree(m, VALUE_LIST) && Yield(m) == w && ValueOf(m) == List(items);
      SmallForests(l, m, r, TokenCode, Action);
      t := NodeTree(GroupRules(b)[1], [l, m, r]);
    }
  }

  /** The reader accepts no more than the grammar derives. */
  lemma {:induction false} ReadingDescribes(w: seq<Token>)
    requires Run(Start, w).Reading?
    ensures Described(Run(Start, w).open, Run(Start, w).items, w)
  {
    if w != [] {
      var u, tok := w[..|w| - 1], w[|w| - 1];
      assert w == u + [tok];
      ReadingDescribes(u);
      StepDescribes(Run(Start, u).open, Run(Start, u).items, u, tok);
    }
  }

  lemma StepDescribes(open: seq<(Bracket, seq<Code>)>, items: seq<Code>, u: seq<Token>, tok: Token)
    requires Described(open, items, u) && Step(Reading(open, items), tok).Reading?
    ensures var st := Step(Reading(open, items), tok); Described(st.open, st.items, u + [tok])
  {
    hide Yield, YieldAll, Fold, FoldAll, ValidTree, PolicyTree, Described;
    CloserCloses(tok.kind);
    if tok.kind in ATOM_KINDS {
      var leaf := LeafTree(tok);
      ValueRulesThere(tok.kind);
      var v := ValueTree(tok.kind, leaf);
      DescribedSnoc(open, items, u, v);
    } else if OpenedBy(tok.kind).Some? {
      OpenDescribes(open, items, u, tok);
    } else {
      CloseDescribes(open, items, u, tok);
    }
  }

  lemma CloserCloses(k: Symbol)
    ensures forall b :: ClosedBy(k) == Some(b) ==> k == Closing(b)
  {
  }

  lemma OpenDescribes(open: seq<(Bracket, seq<Code>)>, items: seq<Code>, u: seq<Token>, tok: Token)
    requires Described(open, items, u) && OpenedBy(tok.kind).Some?
    ensures Described(open + [(OpenedBy(tok.kind).value, items)], [], u + [tok])
  {
    var b := OpenedBy(tok.kind).value;
    var open', w := open + [(b, items)], u + [tok];
    assert open'[..|open'| - 1] == open && w[..|u|] == u && w[|u| + 1..] == [] && OpensAt(w, |u|, b);
    assert Listed([], []);
  }

  lemma CloseDescribes(open: seq<(Bracket, seq<Code>)>, items: seq<Code>, u: seq<Token>, tok: Token)
    requires Described(open, items, u) && open != [] && tok.kind == Closing(open[|open| - 1].0)
    ensures Described(open[..|open| - 1], open[|open| - 1].1 + [Wrap(open[|open| - 1].0, items)], u + [tok])
  {
    var b, before := open[|open| - 1].0, open[|open| - 1].1;
    var i :| 0 <= i < |u| && OpensAt(u, i, b) && Described(open[..|open| - 1], before, u[..i]) &&
        Listed(items, u[i + 1..]);
    GroupDescribes(open[..|open| - 1], b, before, items, u[..i], u[i], u[i + 1..], tok);
    Rejoin(u, i, tok);
  }

  lemma Rejoin<T>(u: seq<T>, i: nat, x: T)
    requires i < |u|
    ensures u[..i] + ([u[i]] + u[i + 1..] + [x]) == u + [x]
  {
  }

  lemma GroupDescribes(outer: seq<(Bracket, seq<Code>)>, b: Bracket, before: seq<Code>, items: seq<Code>, u: seq<Token>,
                       o: Token, v: seq<Token>, c: Token)
    requires Described(outer, before, u) && Listed(items, v) && o.kind == Opening(b) && c.kind == Closing(b)
    ensures Described(outer, before + [Wrap(b, items)], u + ([o] + v + [c]))
  {
    hide Yield, YieldAll, Fold, FoldAll, ValidTree, Listed, Described, Opening, Closing, GroupSymbol, Wrap;
    var g := GroupTree(b, items, v, o, c);
    ValueRulesThere(GroupSymbol(b));
    var t := ValueTree(GroupSymbol(b), g);
    DescribedSnoc(outer, before, u, t);
  }

  /** The grammar and the reader agree: the same token sequences are policies, and the value
      of every derivation, however found, is what the reader reads. */
  lemma GrammarIsReader(w: seq<Token>)
    ensures Derives(RULES, [VALUE_LIST], w) <==> Read(w).Some?
    ensures forall t :: PolicyTree(t, VALUE_LIST) && Yield(t) == w ==>
              Read(w).Some? && ValueOf(t) == List(Read(w).value)
  {
    hide Yield, YieldAll, Fold, FoldAll, ValidTree, Run;
    forall t | PolicyTree(t, VALUE_LIST) && Yield(t) == w
      ensures Read(w).Some? && ValueOf(t) == List(Read(w).value)
    {
      ListTreeReads(t);
    }
    if Derives(RULES, [VALUE_LIST], w) {
      var f: seq<Tree> :| ValidForest(RULES, f, [VALUE_LIST]) && YieldAll(f) == w;
      assert f == [f[0]];
      SmallForests(f[0], f[0], f[0], TokenCode, Action);
      assert PolicyTree(f[0], VALUE_LIST);
    }
    if Read(w).Some? {
      ReadingDescribes(w);
      var t :| PolicyTree(t, VALUE_LIST) && Yield(t) == w && ValueOf(t) == List(Values(w));
      SmallForests(t, t, t, TokenCode, Action);
      assert ValidForest(RULES, [t], [VALUE_LIST]) && YieldAll([t]) == w;
    }
  }

  /** What `get_code` makes of the tokens: the values, a syntax error, or, when there are no
      tokens at all, an IndexError from the search for a token to blame. */
  datatype CodeResult = Loaded(code: seq<Code>) | ParseError | NoTokens

  function CodeOf(w: seq<Token>): CodeResult {
    if w == [] then NoTokens else if Read(w).Some? then Loaded(Read(w).value) else ParseError
  }

  // ---------------------------------------------------------------- the token to blame

  /** The first token at which the reader is stuck, or the last one if it never is. */
  function Blamed(w: seq<Token>): (m: nat)
    requires w != []
    ensures m < |w|
  {
    if |w| > 1 && Run(Start, w[..|w| - 1]).Stuck? then Blamed(w[..|w| - 1]) else |w| - 1
  }

  lemma {:induction false} BlamedIs(w: seq<Token>, m: nat)
    requires m < |w| && Run(Start, w[..m]).Reading? && (m == |w| - 1 || Run(Start, w[..m + 1]).Stuck?)
    ensures Blamed(w) == m
  {
    var init := w[..|w| - 1];
    if m < |w| - 1 {
      assert init[..m] == w[..m] && init[..m + 1] == w[..m + 1];
      assert init == init[..m + 1] + init[m + 1..];
      RunConcat(Start, init[..m + 1], init[m + 1..]);
      StuckStays(Run(Start, init[..m + 1]), init[m + 1..]);
      BlamedIs(init, m);
    } else {
      assert init == w[..m];
    }
  }

  /** What closes the open brackets, after one more value. */
  function Closers(open: seq<(Bracket, seq<Code>)>): seq<Token> {
    if open == [] then [] else
      [Token(Closing(open[|open| - 1].0), Text(Closing(open[|open| - 1].0)))] + Closers(open[..|open| - 1])
  }

  lemma {:induction false} ClosersClose(open: seq<(Bracket, seq<Code>)>, items: seq<Code>)
    requires items != []
    ensures var st := Run(Reading(open, items), Closers(open)); st.Reading? && st.open == [] && st.items != []
  {
    if open != [] {
      var (b, before) := open[|open| - 1];
      var tok := Token(Closing(b), Text(Closing(b)));
      var rest := Closers(open[..|open| - 1]);
      BracketKinds(b);
      RunToken(Reading(open, items), tok);
      RunConcat(Reading(open, items), [tok], rest);
      ClosersClose(open[..|open| - 1], before + [Wrap(b, items)]);
    }
  }

  /** Where the reader is not stuck, a policy can still come of it. */
  lemma CanGoOn(w: seq<Token>)
    requires Run(Start, w).Reading?
    ensures exists v :: Derives(RULES, [VALUE_LIST], w + v)
  {
    var st, tok := Run(Start, w), Token("symbol", Text("a"));
    var v := [tok] + Closers(st.open);
    RunToken(st, tok);
    RunConcat(st, [tok], Closers(st.open));
    RunConcat(Start, w, v);
    ClosersClose(st.open, st.items + [Tok(tok)]);
    GrammarIsReader(w + v);
  }

  ghost predicate NoEOF(w: seq<Token>) {
    forall t :: t in w ==> t.kind != EOF
  }

  lemma OneTree(X: Symbol, w: seq<Token>) returns (t: Tree)
    requires Derives(RULES, [X], w)
    ensures PolicyTree(t, X) && Yield(t) == w
  {
    var f: seq<Tree> :| ValidForest(RULES, f, [X]) && YieldAll(f) == w;
    t := f[0];
    assert f == [t];
    SmallForests(t, t, t, TokenCode, Action);
  }

  /** What a whole rule derives is complete. */
  lemma WholeReads(r: Rule, w: seq<Token>)
    requires r in PRODUCTIONS && Derives(RULES, r.rhs, w)
    ensures Complete(w)
  {
    hide Yield, YieldAll, Fold, FoldAll, ValidTree, Complete, Values;
    var f: seq<Tree> :| ValidForest(RULES, f, r.rhs) && YieldAll(f) == w;
    var t := NodeTree(r, f);
    NoOtherRule(r);
    ProductionCases(r);
    LeftSides(r);
    if r.lhs == VALUE_LIST {
      ListTreeReads(t);
    } else if r.lhs == VALUE {
      ValueTreeReads(t);
    } else {
      var b :| r.lhs == GroupSymbol(b);
      GroupTreeReads(t, b);
    }
  }

  lemma LeftSides(r: Rule)
    requires r in PRODUCTIONS
    ensures r.lhs == VALUE_LIST || r.lhs == VALUE || exists b :: r.lhs == GroupSymbol(b)
  {
    ProductionCases(r);
    if b :| r in GroupRules(b) {
      assert r.lhs == GroupSymbol(b);
    }
  }

  lemma TwoTrees(X: Symbol, Y: Symbol, w: seq<Token>) returns (t: Tree, u: Tree)
    requires Derives(RULES, [X, Y], w)
    ensures PolicyTree(t, X) && PolicyTree(u, Y) && Yield(t) + Yield(u) == w
  {
    var f: seq<Tree> :| ValidForest(RULES, f, [X, Y]) && YieldAll(f) == w;
    t, u := f[0], f[1];
    assert f == [t, u];
    SmallForests(t, u, u, TokenCode, Action);
  }

  lemma EndsInEOF(w: seq<Token>)
    requires Derives(RULES, [VALUE_LIST, EOF], w)
    ensures !NoEOF(w)
  {
    var t, u := TwoTrees(VALUE_LIST, EOF, w);
    RulesAre();
    SymbolsDiffer();
    assert u.Leaf? && u.token in Yield(u);
  }

  lemma ListReadsOn(w: seq<Token>, st: State)
    requires Derives(RULES, [VALUE_LIST], w) && st.Reading?
    ensures Run(st, w).Reading?
  {
    var t := OneTree(VALUE_LIST, w);
    ListTreeReads(t);
    CompleteAppends(st.open, st.items, w);
  }

  lemma OpeningReadsOn(b: Bracket, w: seq<Token>, st: State)
    requires st.Reading? && (Derives(RULES, [Opening(b)], w) || Derives(RULES, [Opening(b), VALUE_LIST], w))
    ensures Run(st, w).Reading?
  {
    hide Yield, YieldAll, Fold, FoldAll, ValidTree, Complete, Run, PolicyTree, Derives;
    BracketKinds(b);
    if Derives(RULES, [Opening(b)], w) {
      var t := OneTree(Opening(b), w);
      TerminalIsLeaf(t, Opening(b));
      RunToken(st, t.token);
    } else {
      var t, u := TwoTrees(Opening(b), VALUE_LIST, w);
      TerminalIsLeaf(t, Opening(b));
      RunToken(st, t.token);
      ListTreeReads(u);
      RunConcat(st, [t.token], Yield(u));
      CompleteAppends(Step(st, t.token).open, Step(st, t.token).items, Yield(u));
    }
  }

  /** The parts of a rule, short of the whole, that are not nothing. */
  lemma Parts(r: Rule, pos: nat)
    requires IsRule(RULES, r) && 0 < pos <= |r.rhs|
    ensures r in PRODUCTIONS || r == StartRule(VALUE_LIST)
    ensures r == StartRule(VALUE_LIST) ==> r.rhs[..pos] == [VALUE_LIST] || r.rhs[..pos] == [VALUE_LIST, EOF]
    ensures r in PRODUCTIONS && pos < |r.rhs| ==>
              r.rhs[..pos] == [VALUE_LIST] || exists b ::
                r.rhs[..pos] == [Opening(b)] || r.rhs[..pos] == [Opening(b), VALUE_LIST]
  {
    RulesAre();
    if r in PRODUCTIONS {
      ProductionCases(r);
      if b :| r in GroupRules(b) {
        assert pos == 1 ==> r.rhs[..pos] == [Opening(b)];
        assert pos == 2 && |r.rhs| == 3 ==> r.rhs[..pos] == [Opening(b), VALUE_LIST];
      } else if r in VALUE_RULES {
        ValueRuleCases(r);
      }
    }
  }

  /** ... and what a part of one derives can be read anywhere. */
  lemma PartReads(r: Rule, pos: nat, w: seq<Token>, st: State)
    requires IsRule(RULES, r) && 0 < pos <= |r.rhs| && Derives(RULES, r.rhs[..pos], w) && NoEOF(w) && st.Reading?
    ensures Run(st, w).Reading?
  {
    hide Run, Complete, Derives, NoEOF, Opening, IsRule;
    Parts(r, pos);
    if r.rhs[..pos] == [VALUE_LIST] {
      ListReadsOn(w, st);
    } else if r.rhs[..pos] == [VALUE_LIST, EOF] {
      EndsInEOF(w);
    } else if pos == |r.rhs| {
      assert r.rhs[..pos] == r.rhs;
      WholeReads(r, w);
      CompleteAppends(st.open, st.items, w);
    } else {
      var b :| r.rhs[..pos] == [Opening(b)] || r.rhs[..pos] == [Opening(b), VALUE_LIST];
      OpeningReadsOn(b, w, st);
    }
  }

  /** Tokens reached by rules are no trouble to the reader. */
  lemma {:induction false} ReachedReads(w: seq<Token>, n: nat)
    requires n <= |w| && Reached(RULES, w, n) && NoEOF(w)
    ensures Run(Start, w[..n]).Reading?
    decreases n
  {
    hide Run, Derives, IsRule, NoEOF;
    if n == 0 {
      NothingRead();
    } else {
      var r, pos: nat, p: nat :| ReadsFrom(RULES, w, n, r, pos, p) && Reached(RULES, w, p);
      ReachedReads(w, p);
      NoEOFWithin(w, p, n);
      PartReads(r, pos, w[p..n], Run(Start, w[..p]));
      RunConcat(Start, w[..p], w[p..n]);
      assert w[..p] + w[p..n] == w[..n];
    }
  }

  lemma NoEOFWithin(w: seq<Token>, p: nat, n: nat)
    requires p <= n <= |w| && NoEOF(w)
    ensures NoEOF(w[p..n])
  {
  }

  lemma NothingRead()
    ensures Run(Start, []).Reading?
  {
  }

  lemma ParsedIs(w: seq<Token>, value: Code)
    requires exists t :: DerivationOf(RULES, VALUE_LIST, w, t) && value == Fold(t, TokenCode, Action)
    ensures Read(w).Some? && value == List(Read(w).value)
  {
    GrammarIsReader(w);
    var t :| DerivationOf(RULES, VALUE_LIST, w, t) && value == Fold(t, TokenCode, Action);
    assert PolicyTree(t, VALUE_LIST) && ValueOf(t) == value;
  }

  /** The parser blames the token the reader would. */
  lemma BlameIsReaders(w: seq<Token>, m: nat)
    requires BlamedToken(RULES, VALUE_LIST, w, m) && NoEOF(w)
    ensures Blamed(w) == m
  {
    hide Run, Reached, Derives;
    ReachedReads(w, m);
    if NoSentenceBeginsWith(RULES, VALUE_LIST, w[..m + 1]) {
      if Run(Start, w[..m + 1]).Reading? {
        CanGoOn(w[..m + 1]);
        assert false;
      }
    }
    BlamedIs(w, m);
  }

  lemma BlameIs(w: seq<Token>, token: Token)
    requires exists m: nat :: BlamedToken(RULES, VALUE_LIST, w, m) && token == w[m]
    ensures w != [] && (NoEOF(w) ==> token == w[Blamed(w)])
  {
    hide NoSentenceBeginsWith, Reached, Blamed;
    var m: nat :| BlamedToken(RULES, VALUE_LIST, w, m) && token == w[m];
    if NoEOF(w) {
      BlameIsReaders(w, m);
    }
  }

  /** `get_code`: a fresh parser for value_list, its result, and the token of which it prints that
      there is a syntax error near it. */
  method GetCode(tokens: seq<Token>) returns (r: CodeResult, near: Option<Token>)
    ensures r == CodeOf(tokens)
    ensures near.Some? <==> r.ParseError?
    ensures r.ParseError? && NoEOF(tokens) ==> near == Some(tokens[Blamed(tokens)])
  {
    hide BlamedToken, DerivationOf, Derives, Read, Filed, WellFormed, EpsilonFree, UnitRanked, NoEOF, Blamed, Fold,
      Action;
    GrammarIsParsable();
    GrammarIsReader(tokens);
    var parser := new GenericParser<Code>(VALUE_LIST, PRODUCTIONS, TokenCode, Action, NameOf);
    assert parser.rules == RULES;
    var result := parser.Parse(tokens, RANK);
    near := None;
    match result {
      case Parsed(value) =>
        ParsedIs(tokens, value);
        r := Loaded(value.items);
      case SyntaxError(token) =>
        r, near := ParseError, Some(token);
        BlameIs(tokens, token);
      case NoTokenToBlame =>
        r := NoTokens;
    }
  }
}

/** Why completeness is proved for grammars without empty right sides only: a sentence that the
    parser rejects, because a rule whose right side is not empty derives nothing. */
module EmptySides {
  import opened Grammar
  import opened EarleyChart
  import opened Earley

  const S: Symbol := "S"
  const A: Symbol := "A"
  const B: Symbol := "B"
  const C: Symbol := "c"

  const WHOLE := Rule(S, [A, A, C])
  const PAIR := Rule(A, [B, B])
  const EMPTY := Rule(B, [])

  const PRODUCTIONS: seq<Rule> := [WHOLE, PAIR, EMPTY]

  const RULES: Rules := Filed(PRODUCTIONS)[START := [StartRule(S)]]

  const TOKEN: Token := Token(C, Text("c"))

  lemma SymbolsDiffer()
    ensures S != A && S != B && A != B && C != S && C != A && C != B
    ensures START !in [S, A, B, C] && EOF !in [S, A, B, C]
    ensures START != EOF
  {
    assert S[0] == 'S' && A[0] == 'A' && B[0] == 'B' && C[0] == 'c' && |START| == 5 && |EOF| == 3;
  }

  lemma RulesAre()
    ensures WellFormed(RULES, S) && C !in RULES
    ensures forall r :: IsRule(RULES, r) <==> r == StartRule(S) || r == WHOLE || r == PAIR || r == EMPTY
  {
    SymbolsDiffer();
    FiledAre(PRODUCTIONS);
    AugmentedIsWellFormed(PRODUCTIONS, S);
    assert PRODUCTIONS[0] == WHOLE && PRODUCTIONS[1] == PAIR && PRODUCTIONS[2] == EMPTY;
  }

  lemma YieldSnoc(init: seq<Tree>, t: Tree)
    ensures YieldAll(init + [t]) == YieldAll(init) + Yield(t)
  {
    assert (init + [t])[..|init|] == init;
  }

  lemma Over(rule: Rule, children: seq<Tree>) returns (t: Tree)
    requires IsRule(RULES, rule) && ValidForest(RULES, children, rule.rhs)
    ensures ValidTree(RULES, t) && Root(t) == rule.lhs && Yield(t) == YieldAll(children)
  {
    t := Node(rule, children);
  }

  lemma EmptyTree() returns (b: Tree)
    ensures ValidTree(RULES, b) && Root(b) == B && Yield(b) == []
  {
    RulesAre();
    b := Over(EMPTY, []);
  }

  lemma PairTree() returns (a: Tree)
    ensures ValidTree(RULES, a) && Root(a) == A && Yield(a) == []
  {
    hide ValidTree, Yield, YieldAll, Root, IsRule;
    RulesAre();
    var b := EmptyTree();
    NothingYields();
    YieldSnoc([], b);
    YieldSnoc([b], b);
    assert [] + [b] == [b] && [b] + [b] == [b, b];
    a := Over(PAIR, [b, b]);
  }

  lemma NothingYields()
    ensures YieldAll([]) == []
  {
  }

  lemma TokenTree() returns (c: Tree)
    ensures ValidTree(RULES, c) && Root(c) == C && Yield(c) == [TOKEN]
  {
    RulesAre();
    c := Leaf(TOKEN);
  }

  /** The token c alone is a sentence: both As derive nothing. */
  lemma IsSentence()
    ensures Derives(RULES, [S], [TOKEN])
  {
    hide ValidTree, Yield, YieldAll, Root, IsRule;
    RulesAre();
    var a := PairTree();
    var c := TokenTree();
    NothingYields();
    YieldSnoc([], a);
    YieldSnoc([a], a);
    YieldSnoc([a, a], c);
    assert [] + [a] == [a] && [a] + [a] == [a, a] && [a, a] + [c] == [a, a, c];
    var s := Over(WHOLE, [a, a, c]);
    YieldSnoc([], s);
    assert [] + [s] == [s] && ValidForest(RULES, [s], [S]);
  }

  /** Items of the grammar's rules, all of which begin at the start of the tokens. */
  ghost predicate OfTheseRules(state: seq<Item>) {
    forall it :: it in state ==>
      it.parent == 0 && it.pos <= |it.rule.rhs| &&
        (it.rule == StartRule(S) || it.rule == WHOLE || it.rule == PAIR || it.rule == EMPTY)
  }

  lemma CauseOf(state: seq<Item>, k: nat) returns (c: nat)
    requires Orderly(state, 0, 1) && 1 <= k < |state| && state[k].pos > 0
    ensures c < k && CompletesAt(state, 0, c, state[k])
  {
    hide CompletesAt;
    c :| 0 <= c < k && CompletesAt(state, 0, c, state[k]);
  }

  /** An item with the dot behind the first or the second A comes after a completed one for A,
      and that after the item before the move. */
  lemma Second(state: seq<Item>, k: nat) returns (c: nat, j: nat)
    requires OfTheseRules(state) && Orderly(state, 0, 1) && 1 <= k < |state|
    requires state[k].rule == WHOLE && 0 < state[k].pos <= 2
    ensures j < c < k && state[c] == Item(PAIR, 2, 0) && state[j] == Item(WHOLE, state[k].pos - 1, 0)
  {
    hide Orderly;
    SymbolsDiffer();
    var it := state[k];
    c := CauseOf(state, k);
    assert state[c] in state && it in state;
    assert it.Retreat() == Item(WHOLE, it.pos - 1, 0);
    j :| 0 <= j < c && state[j] == it.Retreat();
  }

  lemma OnlyOnce(state: seq<Item>, p: nat, q: nat)
    requires Orderly(state, 0, 1) && p < q < |state| && state[q].pos > 0
    ensures state[p] != state[q]
  {
  }

  /** ... so the second A is never passed: its completed item would have to stand both above and
      below the item behind the first A. */
  lemma NeverPassed(state: seq<Item>)
    requires OfTheseRules(state) && Orderly(state, 0, 1) && state != [] && state[0] == Item(StartRule(S), 0, 0)
    ensures Item(WHOLE, 2, 0) !in state
  {
    hide OfTheseRules, Orderly;
    if Item(WHOLE, 2, 0) in state {
      var k :| 0 <= k < |state| && state[k] == Item(WHOLE, 2, 0);
      var c, j := Second(state, k);
      var d, _ := Second(state, j);
      OnlyOnce(state, d, c);
    }
  }

  /** The parser rejects it. */
  method EmptySidesExample() returns (parser: GenericParser<int>, accepted: bool)
    ensures parser.rules == RULES && parser.start == S
    ensures Derives(RULES, [S], [TOKEN]) && !accepted
  {
    hide Orderly, ScansAt, ChartOk, WellFormed, Derives, EpsilonFree, Filed, OfTheseRules;
    RulesAre();
    IsSentence();
    parser := new GenericParser<int>(S, PRODUCTIONS, t => 0, (r, args) => 0, (r: Rule) => r.lhs);
    var _, ok := parser.BuildChart([TOKEN]);
    accepted := ok;
    ItemsAre([TOKEN] + [EOFToken], parser.states, parser.tree);
    NeverPassed(parser.states[0]);
    NoneScans(parser.states);
  }

  lemma ItemsAre(toks: seq<Token>, states: States, tree: Links)
    requires ChartOk(RULES, toks, states, tree) && states != []
    ensures OfTheseRules(states[0])
  {
    RulesAre();
    forall it | it in states[0]
      ensures IsRule(RULES, it.rule) && it.parent == 0 && it.pos <= |it.rule.rhs|
    {
      ItemFacts(RULES, toks, states, tree, 0, it);
    }
  }

  lemma NoneScans(states: States)
    requires |states| > 1 && OfTheseRules(states[0]) && Item(WHOLE, 2, 0) !in states[0]
    ensures !ScansAt([TOKEN], states, 0)
  {
    SymbolsDiffer();
  }
}

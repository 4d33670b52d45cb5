/** Context-free grammars as `spark.py` stores them, and derivation trees over them.

    `rules` maps a nonterminal to the list of its productions; a symbol that is no key of
    `rules` is a terminal and matches a token by the token's `kind`. */
module Grammar {

  type Symbol = string

  /** What a token carries besides its kind: the text the scanner matched, or, for the
      kind "number", the number that text denotes. */
  datatype Lexeme = Text(text: string) | IntLit(i: int) | FloatLit(r: real)

  datatype Token = Token(kind: Symbol, lexeme: Lexeme)

  datatype Rule = Rule(lhs: Symbol, rhs: seq<Symbol>)

  type Rules = map<Symbol, seq<Rule>>

  const START: Symbol := "START"
  const EOF: Symbol := "EOF"

  function StartRule(start: Symbol): Rule {
    Rule(START, [start, EOF])
  }

  /** What `collectRules` and `augment` establish: productions are filed under their left
      side, the start rule is the only one of START, and users mention neither START nor EOF. */
  ghost predicate WellFormed(rules: Rules, start: Symbol) {
    && START in rules && rules[START] == [StartRule(start)]
    && start != START && start != EOF && EOF !in rules
    && (forall A, r :: A in rules && r in rules[A] ==> r.lhs == A)
    && (forall A, r :: A in rules && A != START && r in rules[A] ==> START !in r.rhs && EOF !in r.rhs)
  }

  ghost predicate IsRule(rules: Rules, r: Rule) {
    r.lhs in rules && r in rules[r.lhs]
  }

  ghost predicate EpsilonFree(rules: Rules) {
    forall r :: IsRule(rules, r) ==> r.rhs != []
  }

  /** A ranking of the nonterminals that every unit rule A ::= B lowers: there is one exactly
      when no nonterminal derives itself through unit rules alone. */
  ghost predicate UnitRanked(rules: Rules, rank: map<Symbol, nat>) {
    && rules.Keys <= rank.Keys
    && (forall r :: IsRule(rules, r) && |r.rhs| == 1 && r.rhs[0] in rules ==> rank[r.rhs[0]] < rank[r.lhs])
  }

  // ---------------------------------------------------------------- derivation trees

  datatype Tree = Leaf(token: Token) | Node(rule: Rule, children: seq<Tree>)

  function Root(t: Tree): Symbol {
    match t
    case Leaf(token) => token.kind
    case Node(rule, _) => rule.lhs
  }

  ghost predicate ValidTree(rules: Rules, t: Tree) {
    match t
    case Leaf(token) => token.kind !in rules
    case Node(rule, children) =>
      && IsRule(rules, rule)
      && |children| == |rule.rhs|
      && (forall k :: 0 <= k < |children| ==> Root(children[k]) == rule.rhs[k])
      && (forall c :: c in children ==> ValidTree(rules, c))
  }

  /** The trees `f` derive the symbols `syms`, one each. */
  ghost predicate ValidForest(rules: Rules, f: seq<Tree>, syms: seq<Symbol>) {
    && |f| == |syms|
    && (forall k :: 0 <= k < |f| ==> Root(f[k]) == syms[k])
    && (forall c :: c in f ==> ValidTree(rules, c))
  }

  function Yield(t: Tree): seq<Token>
    decreases t, 1
  {
    match t
    case Leaf(token) => [token]
    case Node(_, children) => YieldAll(children)
  }

  function YieldAll(f: seq<Tree>): seq<Token>
    decreases f, 0
  {
    if f == [] then [] else YieldAll(f[..|f| - 1]) + Yield(f[|f| - 1])
  }

  /** The sentential form `syms` derives the tokens `w`. */
  ghost predicate Derives(rules: Rules, syms: seq<Symbol>, w: seq<Token>) {
    exists f :: ValidForest(rules, f, syms) && YieldAll(f) == w
  }

  /** Bottom-up evaluation of a derivation tree: tokens are values, and each rule combines
      the values of its right side. */
  function Fold<V>(t: Tree, leaf: Token -> V, act: (Rule, seq<V>) -> V): V
    decreases t, 1
  {
    match t
    case Leaf(token) => leaf(token)
    case Node(rule, children) => act(rule, FoldAll(children, leaf, act))
  }

  function FoldAll<V>(f: seq<Tree>, leaf: Token -> V, act: (Rule, seq<V>) -> V): (vs: seq<V>)
    ensures |vs| == |f|
    decreases f, 0
  {
    if f == [] then [] else FoldAll(f[..|f| - 1], leaf, act) + [Fold(f[|f| - 1], leaf, act)]
  }

  // ---------------------------------------------------------------- building derivations

  lemma DerivesNothing(rules: Rules)
    ensures Derives(rules, [], [])
  {
    assert ValidForest(rules, [], []) && YieldAll([]) == [];
  }

  lemma SnocTree(rules: Rules, f: seq<Tree>, syms: seq<Symbol>, t: Tree)
    requires ValidForest(rules, f, syms) && ValidTree(rules, t)
    ensures ValidForest(rules, f + [t], syms + [Root(t)])
    ensures YieldAll(f + [t]) == YieldAll(f) + Yield(t)
  {
    var g := f + [t];
    assert g[..|g| - 1] == f;
  }

  lemma DerivesToken(rules: Rules, syms: seq<Symbol>, w: seq<Token>, tok: Token)
    requires Derives(rules, syms, w) && tok.kind !in rules
    ensures Derives(rules, syms + [tok.kind], w + [tok])
  {
    var f :| ValidForest(rules, f, syms) && YieldAll(f) == w;
    SnocTree(rules, f, syms, Leaf(tok));
  }

  lemma DerivesRule(rules: Rules, syms: seq<Symbol>, w: seq<Token>, r: Rule, v: seq<Token>)
    requires Derives(rules, syms, w) && IsRule(rules, r) && Derives(rules, r.rhs, v)
    ensures Derives(rules, syms + [r.lhs], w + v)
  {
    var f :| ValidForest(rules, f, syms) && YieldAll(f) == w;
    var g :| ValidForest(rules, g, r.rhs) && YieldAll(g) == v;
    SnocTree(rules, f, syms, Node(r, g));
  }

  lemma {:induction false} YieldAllConcat(f: seq<Tree>, g: seq<Tree>)
    ensures YieldAll(f + g) == YieldAll(f) + YieldAll(g)
  {
    if g == [] {
      assert f + g == f;
    } else {
      var h := f + g;
      assert h[..|h| - 1] == f + g[..|g| - 1];
      YieldAllConcat(f, g[..|g| - 1]);
    }
  }

  lemma {:induction false} FoldAllConcat<V>(f: seq<Tree>, g: seq<Tree>, leaf: Token -> V, act: (Rule, seq<V>) -> V)
    ensures FoldAll(f + g, leaf, act) == FoldAll(f, leaf, act) + FoldAll(g, leaf, act)
  {
    if g == [] {
      assert f + g == f;
    } else {
      var h := f + g;
      assert h[..|h| - 1] == f + g[..|g| - 1];
      FoldAllConcat(f, g[..|g| - 1], leaf, act);
    }
  }

  /** Without empty right sides every tree has a token, so a forest has at least as many
      tokens as trees. */
  lemma {:induction false} TreeHasToken(rules: Rules, t: Tree)
    requires EpsilonFree(rules) && ValidTree(rules, t)
    ensures |Yield(t)| >= 1
    decreases t, 1
  {
    match t
    case Leaf(_) =>
    case Node(rule, children) => ForestHasTokens(rules, children);
  }

  lemma {:induction false} ForestHasTokens(rules: Rules, f: seq<Tree>)
    requires EpsilonFree(rules) && (forall c :: c in f ==> ValidTree(rules, c))
    ensures |YieldAll(f)| >= |f|
    decreases f, 0
  {
    if f != [] {
      ForestHasTokens(rules, f[..|f| - 1]);
      TreeHasToken(rules, f[|f| - 1]);
    }
  }
}

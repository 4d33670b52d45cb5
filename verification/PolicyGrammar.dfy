/** The grammar of the policy language (`Parser.py`): its productions and their actions, and
    `get_code` on a token sequence. */
module PolicyGrammar {
  import opened Grammar
  import opened Earley

  /** Parsed code: a token, or a list. */
  datatype Code = Tok(token: Token) | List(items: seq<Code>)

  const VALUE_LIST: Symbol := "value_list"
  const VALUE: Symbol := "value"
  const LIST: Symbol := "list"
  const BRACKET_LIST: Symbol := "bracket_list"
  const CURLY_LIST: Symbol := "curly_list"

  const ATOM_KINDS: seq<Symbol> := ["operator", "number", "symbol", "string", "single_quote_string"]

  datatype Bracket = Round | Square | Curly

  function Opening(b: Bracket): Symbol {
    match b case Round => "(" case Square => "[" case Curly => "{"
  }

  function Closing(b: Bracket): Symbol {
    match b case Round => ")" case Square => "]" case Curly => "}"
  }

  function GroupSymbol(b: Bracket): Symbol {
    match b case Round => LIST case Square => BRACKET_LIST case Curly => CURLY_LIST
  }

  function GroupRules(b: Bracket): seq<Rule> {
    [Rule(GroupSymbol(b), [Opening(b), Closing(b)]), Rule(GroupSymbol(b), [Opening(b), VALUE_LIST, Closing(b)])]
  }

  const VALUE_RULES: seq<Rule> := [
    Rule(VALUE, ["operator"]), Rule(VALUE, ["number"]), Rule(VALUE, ["operator"]), Rule(VALUE, ["symbol"]),
    Rule(VALUE, ["string"]), Rule(VALUE, ["single_quote_string"]),
    Rule(VALUE, [LIST]), Rule(VALUE, [CURLY_LIST]), Rule(VALUE, [BRACKET_LIST])]

  const LIST_RULES: seq<Rule> := [Rule(VALUE_LIST, [VALUE]), Rule(VALUE_LIST, [VALUE_LIST, VALUE])]

  /** The productions in the order `collectRules` meets the methods that hold them. */
  const PRODUCTIONS: seq<Rule> := GroupRules(Square) + GroupRules(Curly) + GroupRules(Round) + VALUE_RULES + LIST_RULES

  const RULES: Rules := Filed(PRODUCTIONS)[START := [StartRule(VALUE_LIST)]]

  const RANK: map<Symbol, nat> :=
    map[START := 3, VALUE_LIST := 2, VALUE := 1, LIST := 0, BRACKET_LIST := 0, CURLY_LIST := 0]

  // ---------------------------------------------------------------- actions

  const EVAL := Tok(Token("symbol", Text("eval")))

  function ItemsOf(c: Code): seq<Code> {
    if c.List? then c.items else []
  }

  function MkList(args: seq<Code>): seq<Code> {
    if |args| < 3 then [] else ItemsOf(args[1])
  }

  /** What a group of values between brackets stands for: itself, or a call of `eval`. */
  function Wrap(b: Bracket, items: seq<Code>): Code {
    List((if b == Curly then [EVAL] else []) + items)
  }

  function Action(rule: Rule, args: seq<Code>): Code {
    if rule.lhs == VALUE_LIST then
      if |args| == 1 then List([args[0]]) else if |args| == 2 then List(ItemsOf(args[0]) + [args[1]]) else List([])
    else if rule.lhs == LIST then Wrap(Round, MkList(args))
    else if rule.lhs == BRACKET_LIST then Wrap(Square, MkList(args))
    else if rule.lhs == CURLY_LIST then Wrap(Curly, MkList(args))
    else if args != [] then args[0] else List([])
  }

  function TokenCode(token: Token): Code {
    Tok(token)
  }

  function NameOf(rule: Rule): string {
    rule.lhs
  }

  // ---------------------------------------------------------------- what the rules are

  lemma SymbolsDiffer()
    ensures START != EOF && START != VALUE_LIST && START != VALUE && START != LIST && START != BRACKET_LIST
    ensures START != CURLY_LIST
    ensures EOF != VALUE_LIST && EOF != VALUE && EOF != LIST && EOF != BRACKET_LIST && EOF != CURLY_LIST
    ensures VALUE_LIST != VALUE && VALUE_LIST != LIST && VALUE_LIST != BRACKET_LIST && VALUE_LIST != CURLY_LIST
    ensures VALUE != LIST && VALUE != BRACKET_LIST && VALUE != CURLY_LIST
    ensures LIST != BRACKET_LIST && LIST != CURLY_LIST && BRACKET_LIST != CURLY_LIST
  {
    assert START[0] == 'S' && VALUE[0] == 'v';
    assert BRACKET_LIST[0] == 'b' && CURLY_LIST[0] == 'c';
  }

  predicate Nonterminal(A: Symbol) {
    A == START || A == VALUE_LIST || A == VALUE || A == LIST || A == BRACKET_LIST || A == CURLY_LIST
  }

  predicate Bracketing(k: Symbol) {
    k == "(" || k == ")" || k == "[" || k == "]" || k == "{" || k == "}"
  }

  lemma TerminalsAreNot(k: Symbol)
    requires k in ATOM_KINDS || Bracketing(k)
    ensures !Nonterminal(k) && k != EOF
  {
    assert START[0] == 'S' && VALUE[0] == 'v' && VALUE_LIST[0] == 'v' && LIST[0] == 'l' && BRACKET_LIST[0] == 'b' &&
             CURLY_LIST[0] == 'c' && EOF[0] == 'E';
  }

  lemma ProductionCases(r: Rule)
    requires r in PRODUCTIONS
    ensures r in LIST_RULES || r in VALUE_RULES || exists b :: r in GroupRules(b)
  {
    assert r in GroupRules(Square) || r in GroupRules(Curly) || r in GroupRules(Round) || r in VALUE_RULES ||
           r in LIST_RULES;
  }

  lemma ValueRuleCases(r: Rule)
    requires r in VALUE_RULES
    ensures r.lhs == VALUE && |r.rhs| == 1
    ensures r.rhs[0] in ATOM_KINDS || exists b :: r.rhs[0] == GroupSymbol(b)
  {
    assert LIST == GroupSymbol(Round) && CURLY_LIST == GroupSymbol(Curly) && BRACKET_LIST == GroupSymbol(Square);
  }

  lemma HasProduction(A: Symbol)
    requires Nonterminal(A) && A != START
    ensures exists r :: r in PRODUCTIONS && r.lhs == A
  {
    assert GroupRules(Round)[0] in PRODUCTIONS && GroupRules(Square)[0] in PRODUCTIONS &&
             GroupRules(Curly)[0] in PRODUCTIONS;
    assert VALUE_RULES[0] in PRODUCTIONS && LIST_RULES[0] in PRODUCTIONS;
    assert VALUE_RULES[0].lhs == VALUE && LIST_RULES[0].lhs == VALUE_LIST;
    assert GroupRules(Round)[0].lhs == LIST && GroupRules(Square)[0].lhs == BRACKET_LIST &&
             GroupRules(Curly)[0].lhs == CURLY_LIST;
  }

  lemma LhsIsNonterminal(r: Rule)
    requires r in PRODUCTIONS
    ensures Nonterminal(r.lhs) && r.lhs != START && r.lhs != EOF
  {
    SymbolsDiffer();
    ProductionCases(r);
    if r in VALUE_RULES {
      ValueRuleCases(r);
    }
  }

  /** The parser's rule dictionary, without the dictionary. */
  lemma RulesAre()
    ensures forall A :: A in RULES <==> Nonterminal(A)
    ensures forall r :: IsRule(RULES, r) <==> r in PRODUCTIONS || r == StartRule(VALUE_LIST)
  {
    FiledAre(PRODUCTIONS);
    forall A
      ensures A in RULES <==> Nonterminal(A)
    {
      if Nonterminal(A) && A != START {
        HasProduction(A);
      }
      forall r | r in PRODUCTIONS
        ensures Nonterminal(r.lhs) && r.lhs != START
      {
        LhsIsNonterminal(r);
      }
    }
    forall r
      ensures IsRule(RULES, r) <==> r in PRODUCTIONS || r == StartRule(VALUE_LIST)
    {
      if r in PRODUCTIONS {
        LhsIsNonterminal(r);
      }
    }
  }

  lemma RhsNamesNoReserved(r: Rule)
    requires r in PRODUCTIONS
    ensures r.rhs != [] && START !in r.rhs && EOF !in r.rhs
  {
    SymbolsDiffer();
    ProductionCases(r);
    assert Bracketing("(") && Bracketing(")") && Bracketing("[") && Bracketing("]") && Bracketing("{") &&
             Bracketing("}");
    forall X | X in r.rhs
      ensures X != START && X != EOF
    {
      if r in VALUE_RULES {
        ValueRuleCases(r);
      }
      if X in ATOM_KINDS || Bracketing(X) {
        TerminalsAreNot(X);
      }
    }
  }

  lemma UnitRuleGoesDown(r: Rule)
    requires r in PRODUCTIONS && |r.rhs| == 1 && Nonterminal(r.rhs[0])
    ensures r.rhs[0] in RANK && r.lhs in RANK && RANK[r.rhs[0]] < RANK[r.lhs]
  {
    SymbolsDiffer();
    ProductionCases(r);
    if r in VALUE_RULES {
      ValueRuleCases(r);
      if r.rhs[0] in ATOM_KINDS {
        TerminalsAreNot(r.rhs[0]);
      }
    }
  }

  /** The policy grammar meets what the parser needs: reserved symbols unused, no empty right
      side, no cycle of unit rules. */
  lemma GrammarIsParsable()
    ensures WellFormed(RULES, VALUE_LIST) && EpsilonFree(RULES) && UnitRanked(RULES, RANK)
  {
    SymbolsDiffer();
    RulesAre();
    forall r | r in PRODUCTIONS
      ensures r.lhs != START && r.lhs != EOF && START !in r.rhs && EOF !in r.rhs && r.rhs != []
    {
      LhsIsNonterminal(r);
      RhsNamesNoReserved(r);
    }
    AugmentedIsWellFormed(PRODUCTIONS, VALUE_LIST);
    forall r | IsRule(RULES, r) && |r.rhs| == 1 && r.rhs[0] in RULES
      ensures r.rhs[0] in RANK && r.lhs in RANK && RANK[r.rhs[0]] < RANK[r.lhs]
    {
      UnitRuleGoesDown(r);
    }
    assert RULES.Keys <= RANK.Keys;
  }
}

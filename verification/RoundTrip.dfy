/** Printing and reading policies: the fully parenthesised print of code reads back as that
    code, and the print of what was read is the text itself with its brackets made round. */
module RoundTrip {
  import opened Grammar
  import opened Options
  import opened PolicyGrammar
  import opened Reader

  function Bare(k: Symbol): Token {
    Token(k, Text(k))
  }

  function Print(c: Code): seq<Token>
    decreases c, 1
  {
    match c
    case Tok(token) => [token]
    case List(items) => [Bare("(")] + PrintAll(items) + [Bare(")")]
  }

  function PrintAll(cs: seq<Code>): seq<Token>
    decreases cs, 0
  {
    if cs == [] then [] else PrintAll(cs[..|cs| - 1]) + Print(cs[|cs| - 1])
  }

  /** Code whose tokens are of the kinds a value can be. */
  predicate Printable(c: Code) {
    match c
    case Tok(token) => token.kind in ATOM_KINDS
    case List(items) => forall x :: x in items ==> Printable(x)
  }

  // ---------------------------------------------------------------- read after print

  lemma {:induction false} PrintReads(c: Code)
    requires Printable(c)
    ensures Complete(Print(c)) && Values(Print(c)) == [c]
    decreases c, 1
  {
    match c
    case Tok(token) =>
      RunToken(Start, token);
      assert [] + [c] == [c];
    case List(items) =>
      PrintAllReads(items);
      GroupIsValue(Start, Round, PrintAll(items), Bare("("), Bare(")"));
      assert [] + items == items;
  }

  /** Reading the print of any list of expressions gives that list back. */
  lemma {:induction false} PrintAllReads(cs: seq<Code>)
    requires forall c :: c in cs ==> Printable(c)
    ensures Complete(PrintAll(cs)) && Values(PrintAll(cs)) == cs
    decreases cs, 0
  {
    EmptyIsComplete();
    hide Run, Complete, Values, Print, Printable;
    if cs != [] {
      var init, last := cs[..|cs| - 1], cs[|cs| - 1];
      PrintAllReads(init);
      PrintReads(last);
      CompleteConcat(PrintAll(init), Print(last));
      assert init + [last] == cs;
    }
  }

  /** `get_code` of the print of a non-empty list of expressions is that list. */
  lemma ParsePrint(cs: seq<Code>)
    requires cs != [] && (forall c :: c in cs ==> Printable(c))
    ensures CodeOf(PrintAll(cs)) == Loaded(cs)
  {
    PrintAllReads(cs);
  }

  // ---------------------------------------------------------------- any brackets

  type AtomToken = t: Token | t.kind in ATOM_KINDS witness Token("symbol", Text("a"))

  /** A policy as a text writes it: tokens, and groups in any of the three brackets. */
  datatype Syntax = Atom(token: AtomToken) | Group(b: Bracket, parts: seq<Syntax>)

  function TokensOf(s: Syntax): seq<Token>
    decreases s, 1
  {
    match s
    case Atom(token) => [token]
    case Group(b, parts) => [Bare(Opening(b))] + TokensAll(parts) + [Bare(Closing(b))]
  }

  function TokensAll(ss: seq<Syntax>): seq<Token>
    decreases ss, 0
  {
    if ss == [] then [] else TokensAll(ss[..|ss| - 1]) + TokensOf(ss[|ss| - 1])
  }

  /** The code a text stands for: a group is a list, one in curly brackets a call of `eval`. */
  function CodeFor(s: Syntax): Code
    decreases s, 1
  {
    match s
    case Atom(token) => Tok(token)
    case Group(b, parts) => Wrap(b, CodeForAll(parts))
  }

  function CodeForAll(ss: seq<Syntax>): seq<Code>
    decreases ss, 0
  {
    if ss == [] then [] else CodeForAll(ss[..|ss| - 1]) + [CodeFor(ss[|ss| - 1])]
  }

  lemma {:induction false} TextReads(s: Syntax)
    ensures Complete(TokensOf(s)) && Values(TokensOf(s)) == [CodeFor(s)]
    decreases s, 1
  {
    match s
    case Atom(token) =>
      RunToken(Start, token);
      assert [] + [Tok(token)] == [Tok(token)];
    case Group(b, parts) =>
      TextsRead(parts);
      GroupIsValue(Start, b, TokensAll(parts), Bare(Opening(b)), Bare(Closing(b)));
  }

  lemma {:induction false} TextsRead(ss: seq<Syntax>)
    ensures Complete(TokensAll(ss)) && Values(TokensAll(ss)) == CodeForAll(ss)
    decreases ss, 0
  {
    EmptyIsComplete();
    hide Run, Complete, Values, TokensOf, CodeFor;
    if ss != [] {
      var init, last := ss[..|ss| - 1], ss[|ss| - 1];
      TextsRead(init);
      TextReads(last);
      CompleteConcat(TokensAll(init), TokensOf(last));
    }
  }

  /** `get_code` of a text with balanced brackets of any kinds is the code it stands for. */
  lemma ParseText(ss: seq<Syntax>)
    requires ss != []
    ensures CodeOf(TokensAll(ss)) == Loaded(CodeForAll(ss))
  {
    TextsRead(ss);
    EmptyIsComplete();
  }

  // ---------------------------------------------------------------- print after read

  /** A token with its bracket made round; a curly bracket opens a call of `eval`. */
  function Rounded(tok: Token): seq<Token> {
    if OpenedBy(tok.kind) == Some(Curly) then [Bare("("), EVAL.token]
    else if OpenedBy(tok.kind).Some? then [Bare("(")]
    else if ClosedBy(tok.kind).Some? then [Bare(")")]
    else [tok]
  }

  function RoundedAll(w: seq<Token>): seq<Token> {
    if w == [] then [] else RoundedAll(w[..|w| - 1]) + Rounded(w[|w| - 1])
  }

  function Inside(b: Bracket): seq<Code> {
    if b == Curly then [EVAL] else []
  }

  /** The print of the values before each open bracket, and of that bracket. */
  function PrintOpen(open: seq<(Bracket, seq<Code>)>): seq<Token> {
    if open == [] then [] else
      PrintOpen(open[..|open| - 1]) + PrintAll(open[|open| - 1].1) + [Bare("(")] + PrintAll(Inside(open[|open| - 1].0))
  }

  lemma {:induction false} PrintAllConcat(a: seq<Code>, b: seq<Code>)
    ensures PrintAll(a + b) == PrintAll(a) + PrintAll(b)
  {
    if b == [] {
      assert a + b == a;
    } else {
      var c := a + b;
      assert c[..|c| - 1] == a + b[..|b| - 1];
      PrintAllConcat(a, b[..|b| - 1]);
    }
  }

  lemma PrintSnoc(cs: seq<Code>, c: Code)
    ensures PrintAll(cs + [c]) == PrintAll(cs) + Print(c)
  {
    assert (cs + [c])[..|cs|] == cs;
  }

  lemma RoundedKinds(tok: Token)
    ensures tok.kind in ATOM_KINDS ==> Rounded(tok) == [tok]
    ensures OpenedBy(tok.kind).Some? ==> Rounded(tok) == [Bare("(")] + PrintAll(Inside(OpenedBy(tok.kind).value))
    ensures OpenedBy(tok.kind).None? && ClosedBy(tok.kind).Some? ==> Rounded(tok) == [Bare(")")]
  {
    PrintSnoc([], EVAL);
    assert [] + [EVAL] == [EVAL];
  }

  lemma StepPrints(open: seq<(Bracket, seq<Code>)>, items: seq<Code>, tok: Token)
    requires Step(Reading(open, items), tok).Reading?
    ensures var st := Step(Reading(open, items), tok);
            PrintOpen(st.open) + PrintAll(st.items) == PrintOpen(open) + PrintAll(items) + Rounded(tok)
  {
    RoundedKinds(tok);
    hide Rounded, Inside, Wrap, PrintAll, PrintOpen;
    if tok.kind in ATOM_KINDS {
      PrintSnoc(items, Tok(tok));
      assert PrintOpen(open) + (PrintAll(items) + [tok]) == PrintOpen(open) + PrintAll(items) + [tok];
    } else if OpenedBy(tok.kind).Some? {
      OpenPrints(open, items, OpenedBy(tok.kind).value);
    } else {
      ClosePrints(open, items);
    }
  }

  lemma OpenPrints(open: seq<(Bracket, seq<Code>)>, items: seq<Code>, b: Bracket)
    ensures PrintOpen(open + [(b, items)]) + PrintAll([]) ==
            PrintOpen(open) + PrintAll(items) + ([Bare("(")] + PrintAll(Inside(b)))
  {
    var inner := open + [(b, items)];
    assert inner[..|inner| - 1] == open && inner[|inner| - 1] == (b, items);
    var inside := PrintAll(Inside(b));
    hide Inside, Print;
    assert PrintOpen(inner) == PrintOpen(open) + PrintAll(items) + [Bare("(")] + inside;
  }

  lemma ClosePrints(open: seq<(Bracket, seq<Code>)>, items: seq<Code>)
    requires open != []
    ensures var (b, before) := open[|open| - 1];
            PrintOpen(open[..|open| - 1]) + PrintAll(before + [Wrap(b, items)]) ==
              PrintOpen(open) + PrintAll(items) + [Bare(")")]
  {
    var (b, before) := open[|open| - 1];
    var outer := PrintOpen(open[..|open| - 1]);
    PrintSnoc(before, Wrap(b, items));
    PrintAllConcat(Inside(b), items);
    hide PrintAll, Inside;
    Regroup(outer, PrintAll(before), [Bare("(")], PrintAll(Inside(b)), PrintAll(items), [Bare(")")]);
  }

  lemma Regroup<T>(a: seq<T>, b: seq<T>, c: seq<T>, d: seq<T>, e: seq<T>, f: seq<T>)
    ensures a + (b + (c + (d + e) + f)) == (a + b + c + d) + e + f
  {
  }

  lemma {:induction false} RunPrints(w: seq<Token>)
    requires Run(Start, w).Reading?
    ensures PrintOpen(Run(Start, w).open) + PrintAll(Run(Start, w).items) == RoundedAll(w)
  {
    if w != [] {
      RunPrints(w[..|w| - 1]);
      var st := Run(Start, w[..|w| - 1]);
      StepPrints(st.open, st.items, w[|w| - 1]);
    }
  }

  predicate AllPrintable(st: State) {
    && st.Reading?
    && (forall c :: c in st.items ==> Printable(c))
    && (forall f :: f in st.open ==> forall c :: c in f.1 ==> Printable(c))
  }

  lemma {:induction false} RunIsPrintable(w: seq<Token>)
    requires Run(Start, w).Reading?
    ensures AllPrintable(Run(Start, w))
  {
    if w != [] {
      RunIsPrintable(w[..|w| - 1]);
      var st, tok := Run(Start, w[..|w| - 1]), w[|w| - 1];
      if tok.kind !in ATOM_KINDS && OpenedBy(tok.kind).None? {
        var f := st.open[|st.open| - 1];
        assert f in st.open;
        var g := Wrap(f.0, st.items);
        assert Printable(EVAL) && Printable(g);
      }
    }
  }

  /** Nothing is lost in reading: the print of what `get_code` returns is the token sequence
      with its brackets made round, and parses to the same code again. */
  lemma PrintParse(w: seq<Token>)
    requires CodeOf(w).Loaded?
    ensures PrintAll(CodeOf(w).code) == RoundedAll(w)
    ensures CodeOf(RoundedAll(w)) == CodeOf(w)
  {
    RunPrints(w);
    RunIsPrintable(w);
    assert PrintOpen([]) == [];
    ParsePrint(CodeOf(w).code);
  }

  // ---------------------------------------------------------------- the three brackets

  /** Anywhere in a policy, `{ ... }` reads as `(eval ...)` does. */
  lemma CurlyIsEvalCall(st: State, w: seq<Token>)
    requires Complete(w) && st.Reading?
    ensures Run(st, [Bare("{")] + w + [Bare("}")]) == Run(st, [Bare("(")] + ([EVAL.token] + w) + [Bare(")")])
    ensures Run(st, [Bare("{")] + w + [Bare("}")]) == Reading(st.open, st.items + [List([EVAL] + Values(w))])
  {
    RunToken(Start, EVAL.token);
    assert [] + [EVAL] == [EVAL] && Complete([EVAL.token]);
    CompleteConcat([EVAL.token], w);
    GroupIsValue(st, Curly, w, Bare("{"), Bare("}"));
    GroupIsValue(st, Round, [EVAL.token] + w, Bare("("), Bare(")"));
    assert [] + ([EVAL] + Values(w)) == [EVAL] + Values(w);
  }

  /** ... and square brackets read as round ones. */
  lemma SquareIsRound(st: State, w: seq<Token>)
    requires Complete(w) && st.Reading?
    ensures Run(st, [Bare("[")] + w + [Bare("]")]) == Run(st, [Bare("(")] + w + [Bare(")")])
  {
    GroupIsValue(st, Square, w, Bare("["), Bare("]"));
    GroupIsValue(st, Round, w, Bare("("), Bare(")"));
  }
}

/** `GenericParser` of `spark.py`: the Earley recogniser over a chart it grows in place, and
    the walk over tree pointers that evaluates the rules' actions on one shared stack. */
module Earley {
  import opened Grammar
  import opened EarleyChart
  import opened Lexicographic

  /** What `parse` does: return the value of the start symbol, call `error` on a token, or
      index the empty token list to find the token it would blame. */
  datatype ParseResult<+V> = Parsed(value: V) | SyntaxError(token: Token) | NoTokenToBlame

  const EOFToken := Token(EOF, Text(EOF))

  // ---------------------------------------------------------------- the whole run

  /** Closed charts miss no sentence. */
  lemma SentenceIsFound(rules: Rules, start: Symbol, toks: seq<Token>, states: States)
    requires WellFormed(rules, start) && EpsilonFree(rules)
    requires toks != [] && toks[|toks| - 1].kind == EOF && |states| == |toks| + 1
    requires AllClosed(rules, toks, states) && Item(StartRule(start), 0, 0) in states[0]
    requires Derives(rules, [start], toks[..|toks| - 1])
    ensures Item(StartRule(start), 1, 0) in states[|toks| - 1]
    ensures Item(StartRule(start), 2, 0) in states[|toks|]
  {
    var n := |toks| - 1;
    var f: seq<Tree> :| ValidForest(rules, f, [start]) && YieldAll(f) == toks[..n];
    assert f == [f[0]] && f[..0] == [];
    assert toks[0..n] == toks[..n] == YieldAll(f[..0]) + Yield(f[0]) == Yield(f[0]);
    MovesOverTree(rules, toks, states, Item(StartRule(start), 0, 0), 0, n, f[0]);
    var scanned := Item(StartRule(start), 1, 0);
    assert StateClosed(rules, toks, states, n) && ItemClosed(rules, toks, states, scanned, n);
  }

  /** If state i came out empty, no sentence begins with the first i tokens. */
  lemma DeadPrefix(rules: Rules, start: Symbol, toks: seq<Token>, states: States, i: nat, w: seq<Token>)
    requires WellFormed(rules, start) && EpsilonFree(rules)
    requires 0 < i < |toks| && |states| == i + 1 && states[i] == []
    requires AllClosed(rules, toks, states) && Item(StartRule(start), 0, 0) in states[0]
    ensures !Derives(rules, [start], toks[..i] + w)
  {
    if Derives(rules, [start], toks[..i] + w) {
      var toks' := toks[..i] + w + [EOFToken];
      var states' := states + seq(|w| + 1, _ => []);
      assert toks'[..|toks'| - 1] == toks[..i] + w;
      forall j | 0 <= j < |states'| - 1
        ensures StateClosed(rules, toks', states', j)
      {
        if j < i {
          assert StateClosed(rules, toks, states, j);
          forall it | it in states'[j]
            ensures ItemClosed(rules, toks', states', it, j)
          {
            assert ItemClosed(rules, toks, states, it, j);
          }
        }
      }
      SentenceIsFound(rules, start, toks', states');
      assert false;
    }
  }

  /** A completed start item is a derivation of the tokens before EOF. */
  lemma FoundIsSentence(rules: Rules, start: Symbol, toks: seq<Token>)
    requires WellFormed(rules, start) && toks != []
    requires Sound(rules, toks, Item(StartRule(start), 2, 0), |toks|)
    ensures Derives(rules, [start], toks[..|toks| - 1])
  {
    var n := |toks| - 1;
    assert StartRule(start).rhs[..2] == [start, EOF] && toks[0..|toks|] == toks;
    var f: seq<Tree> :| ValidForest(rules, f, [start, EOF]) && YieldAll(f) == toks;
    assert Root(f[1]) == EOF && ValidTree(rules, f[1]);
    assert f[1].Leaf?;
    assert f[..1] == [f[0]] && ValidForest(rules, f[..1], [start]);
    assert YieldAll(f) == YieldAll(f[..1]) + Yield(f[1]);
  }

  lemma RejectedEarly(rules: Rules, start: Symbol, tokens: seq<Token>, states: States, i: nat)
    requires WellFormed(rules, start) && 0 < i <= |tokens| && |states| == i + 1 && states[i] == []
    requires AllClosed(rules, tokens + [EOFToken], states) && Item(StartRule(start), 0, 0) in states[0]
    ensures EpsilonFree(rules) ==> NoSentenceBeginsWith(rules, start, tokens[..i])
    ensures EpsilonFree(rules) ==> !Derives(rules, [start], tokens)
  {
    if EpsilonFree(rules) {
      var toks := tokens + [EOFToken];
      assert toks[..i] == tokens[..i];
      forall w
        ensures !Derives(rules, [start], tokens[..i] + w)
      {
        DeadPrefix(rules, start, toks, states, i, w);
      }
      assert tokens[..i] + tokens[i..] == tokens;
    }
  }

  lemma ClosedFurther(rules: Rules, toks: seq<Token>, before: States, after: States, i: nat)
    requires i < |toks| && |before| == i + 1 && |after| == i + 2
    requires AllClosed(rules, toks, before) && StateClosed(rules, toks, after, i)
    requires before[i] <= after[i] && (forall j :: 0 <= j < i ==> after[j] == before[j])
    ensures AllClosed(rules, toks, after)
  {
    forall j | 0 <= j < i
      ensures StateClosed(rules, toks, after, j)
    {
      assert StateClosed(rules, toks, before, j);
      forall it | it in after[j]
        ensures ItemClosed(rules, toks, after, it, j)
      {
        assert ItemClosed(rules, toks, before, it, j);
      }
    }
  }

  /** Token j was scanned from an item of state j. */
  ghost predicate ScansAt(toks: seq<Token>, states: States, j: nat)
    requires j < |toks| && j + 1 < |states|
  {
    exists it :: it in states[j] && it.Expects(toks[j].kind) && it.Advance() in states[j + 1]
  }

  lemma PassedOver(toks: seq<Token>, states: States, i: nat)
    requires 0 < i < |states| && i <= |toks| && ScannedFrom(toks, states, i - 1) && states[i] != []
    ensures ScansAt(toks, states, i - 1)
  {
    var it := states[i][0];
    assert it in states[i] && it.Retreat().Expects(toks[i - 1].kind) && it.Retreat().Advance() == it;
  }

  lemma ScansStill(toks: seq<Token>, before: States, after: States, i: nat)
    requires i <= |toks| && i < |before| && i < |after|
    requires (forall j :: 0 <= j < i ==> after[j] == before[j]) && before[i] <= after[i]
    requires forall j :: 0 <= j < i ==> ScansAt(toks, before, j)
    ensures forall j :: 0 <= j < i ==> ScansAt(toks, after, j)
  {
    forall j | 0 <= j < i
      ensures ScansAt(toks, after, j)
    {
      assert ScansAt(toks, before, j);
      var it :| it in before[j] && it.Expects(toks[j].kind) && it.Advance() in before[j + 1];
      assert it in after[j] && it.Advance() in after[j + 1];
    }
  }

  lemma ScansTokens(tokens: seq<Token>, toks: seq<Token>, states: States, n: nat)
    requires tokens <= toks && n <= |tokens| && n < |states| && forall j :: 0 <= j < n ==> ScansAt(toks, states, j)
    ensures forall j :: 0 <= j < n ==> ScansAt(tokens, states, j)
  {
    forall j | 0 <= j < n
      ensures ScansAt(tokens, states, j)
    {
      assert ScansAt(toks, states, j);
      var it :| it in states[j] && it.Expects(toks[j].kind) && it.Advance() in states[j + 1];
      assert tokens[j] == toks[j];
    }
  }

  /** The first n tokens are read by rules, each up to some place in its right side, one after
      the other. */
  ghost predicate Reached(rules: Rules, toks: seq<Token>, n: nat)
    requires n <= |toks|
    decreases n
  {
    n == 0 || exists r, pos, p :: ReadsFrom(rules, toks, n, r, pos, p) && Reached(rules, toks, p)
  }

  ghost predicate ReadsFrom(rules: Rules, toks: seq<Token>, n: nat, r: Rule, pos: nat, p: nat)
    requires n <= |toks|
  {
    IsRule(rules, r) && 0 < pos <= |r.rhs| && p < n && Derives(rules, r.rhs[..pos], toks[p..n])
  }

  /** Where a scan leads can be reached: the moved item began earlier. */
  lemma {:induction false} ScansReach(rules: Rules, toks: seq<Token>, tokens: seq<Token>, states: States, tree: Links,
                                      n: nat)
    requires tokens <= toks && ChartOk(rules, toks, states, tree) && EpsilonFree(rules)
    requires n <= |tokens| && n < |states| && forall j :: 0 <= j < n ==> ScansAt(tokens, states, j)
    ensures Reached(rules, tokens, n)
    decreases n
  {
    hide ChartOk, EpsilonFree, Sound;
    if n > 0 {
      assert ScansAt(tokens, states, n - 1);
      var it :| it in states[n - 1] && it.Expects(tokens[n - 1].kind) && it.Advance() in states[n];
      ItemFacts(rules, toks, states, tree, n, it.Advance());
      assert toks[it.parent..n] == tokens[it.parent..n];
      MovedBegan(rules, tokens, it.Advance(), n);
      ScansReach(rules, toks, tokens, states, tree, it.parent);
      assert ReadsFrom(rules, tokens, n, it.rule, it.pos + 1, it.parent);
    }
  }

  lemma MovedBegan(rules: Rules, toks: seq<Token>, it: Item, n: nat)
    requires n <= |toks| && it.pos > 0 && EpsilonFree(rules) && Sound(rules, toks, it, n)
    ensures it.parent < n && Derives(rules, it.rule.rhs[..it.pos], toks[it.parent..n])
  {
    var f: seq<Tree> :| ValidForest(rules, f, it.rule.rhs[..it.pos]) && YieldAll(f) == toks[it.parent..n];
    ForestHasTokens(rules, f);
  }

  lemma StartIsOrderly(it: Item)
    ensures Orderly([it], 0, 1)
  {
  }

  lemma DecidedAtEOF(rules: Rules, start: Symbol, tokens: seq<Token>, states: States, tree: Links)
    requires WellFormed(rules, start) && |states| == |tokens| + 2
    requires var toks := tokens + [EOFToken];
             ChartOk(rules, toks, states, tree) && AllClosed(rules, toks, states) && ScannedFrom(toks, states, |tokens|)
    requires Item(StartRule(start), 0, 0) in states[0]
    ensures var found := [Item(StartRule(start), 2, 0)];
            && (states[|tokens| + 1] == found ==> Derives(rules, [start], tokens))
            && (EpsilonFree(rules) && Derives(rules, [start], tokens) ==> states[|tokens| + 1] == found)
  {
    var toks := tokens + [EOFToken];
    var found := Item(StartRule(start), 2, 0);
    hide Sound, Grounded, WellFormed, ItemClosed, Derives, EpsilonFree;
    assert toks[..|toks| - 1] == tokens;
    assert states[|toks|] == [] || states[|toks|] == [found] by {
      NothingElseAfterEOF(rules, start, toks, states, |tokens|);
    }
    if states[|toks|] == [found] {
      ItemFacts(rules, toks, states, tree, |toks|, found);
      FoundIsSentence(rules, start, toks);
    }
    if EpsilonFree(rules) && Derives(rules, [start], tokens) {
      SentenceIsFound(rules, start, toks, states);
    }
  }

  lemma FirstTwoDiffer(state: seq<Item>)
    requires StartOnce(state)
    ensures |state| > 1 ==> state[0] != state[1] || state[0].rule.lhs != START
  {
  }

  /** After EOF only the completed start item can be in the chart, and only once. */
  lemma NothingElseAfterEOF(rules: Rules, start: Symbol, toks: seq<Token>, states: States, n: nat)
    requires WellFormed(rules, start) && n < |toks| && n + 1 < |states| <= |toks| + 1 && toks[n].kind == EOF
    requires forall it :: it in states[n] ==> Sound(rules, toks, it, n)
    requires ScannedFrom(toks, states, n) && StartOnce(states[n + 1])
    ensures states[n + 1] == [] || states[n + 1] == [Item(StartRule(start), 2, 0)]
  {
    var last := states[n + 1];
    FirstTwoDiffer(last);
    forall it | it in last
      ensures it == Item(StartRule(start), 2, 0)
    {
      assert Sound(rules, toks, it.Retreat(), n);
      if it.rule.lhs == START {
        assert it.rule in rules[START];
      }
    }
    assert forall p :: 0 <= p < |last| ==> last[p] in last;
  }

  /** Every item of state i + 1 was scanned from state i. */
  ghost predicate ScannedFrom(toks: seq<Token>, states: States, i: nat)
    requires i < |toks| && i + 1 < |states|
  {
    forall it :: it in states[i + 1] ==>
      && 0 < it.pos <= |it.rule.rhs| && it.rule.rhs[it.pos - 1] == toks[i].kind && it.Retreat() in states[i]
  }

  /** In state i, the completed item at place c moves `it` over its left side: it began earlier,
      or is of an empty rule, or the item before the move stands further up. */
  ghost predicate CompletesAt(state: seq<Item>, i: nat, c: nat, it: Item)
    requires c < |state|
  {
    && state[c].Complete() && 0 < it.pos <= |it.rule.rhs| && it.rule.rhs[it.pos - 1] == state[c].rule.lhs
    && (state[c].parent < i || state[c].rule.rhs == [] || it.Retreat() in state[..c])
  }

  /** From place n on, a moved item occurs once, below an item that completes it. */
  ghost predicate Orderly(state: seq<Item>, i: nat, n: nat) {
    && (forall p, q :: 0 <= p < q < |state| && n <= q && state[q].pos > 0 ==> state[p] != state[q])
    && (forall k :: n <= k < |state| && state[k].pos > 0 ==> exists c ::
       0 <= c < k && CompletesAt(state, i, c, state[k]))
  }

  ghost predicate KeepsOrder(before: seq<Item>, after: seq<Item>, i: nat) {
    forall n: nat :: Orderly(before, i, n) ==> Orderly(after, i, n)
  }

  lemma OrderlySnoc(state: seq<Item>, i: nat, it: Item)
    requires it.pos > 0 ==> it !in state && exists c :: 0 <= c < |state| && CompletesAt(state, i, c, it)
    ensures KeepsOrder(state, state + [it], i)
  {
    var more := state + [it];
    forall n: nat | Orderly(state, i, n)
      ensures Orderly(more, i, n)
    {
      forall k | n <= k < |more| && more[k].pos > 0
        ensures exists c :: 0 <= c < k && CompletesAt(more, i, c, more[k])
      {
        var c :| 0 <= c < k && CompletesAt(state, i, c, more[k]);
        assert more[..c] == state[..c] && CompletesAt(more, i, c, more[k]);
      }
    }
  }

  /** All items there can be in state i; the chart of state i grows inside this set. */
  ghost function Universe(rules: Rules, i: nat): set<Item> {
    var all := set A, r | A in rules && r in rules[A] :: r;
    set r, p: nat, q: nat | r in all && 0 <= p <= |r.rhs| && 0 <= q <= i :: Item(r, p, q)
  }

  ghost function ItemSet(state: seq<Item>): set<Item> {
    set it | it in state
  }

  lemma GrowthIsBounded(rules: Rules, toks: seq<Token>, before: seq<Item>, states: States, tree: Links, i: nat)
    requires ChartOk(rules, toks, states, tree) && i < |states| && Grown(before, states[i])
    ensures states[i] == before || Universe(rules, i) - ItemSet(states[i]) < Universe(rules, i) - ItemSet(before)
  {
    if states[i] != before {
      var it :| it in states[i] && it !in before;
      assert Sound(rules, toks, it, i);
      assert it in Universe(rules, i) - ItemSet(before);
      assert it !in Universe(rules, i) - ItemSet(states[i]);
      assert ItemSet(before) <= ItemSet(states[i]);
    }
  }

  // ---------------------------------------------------------------- the loop over one state

  /** What has been done for an item the loop is past: as `ItemClosed`, but for prediction it
      is only noted that the nonterminal has had its turn. */
  ghost predicate Handled(rules: Rules, toks: seq<Token>, states: States, predicted: set<Symbol>, it: Item, i: nat)
    requires i < |toks| && i + 1 < |states|
  {
    if it.pos < |it.rule.rhs| && it.rule.rhs[it.pos] in rules then
      it.rule.rhs[it.pos] in predicted
    else
      ItemClosed(rules, toks, states, it, i)
  }

  ghost predicate PredictedAll(rules: Rules, toks: seq<Token>, states: States, predicted: set<Symbol>, i: nat)
    requires i < |toks| && i + 1 < |states|
  {
    forall X, r :: X in predicted && X in rules && r in rules[X] && MayStart(rules, r, toks[i]) ==>
      Item(r, 0, i) in states[i]
  }

  ghost predicate HandledUpTo(rules: Rules, toks: seq<Token>, states: States, predicted: set<Symbol>, k: nat, i: nat)
    requires i < |toks| && i + 1 < |states|
  {
    && k <= |states[i]|
    && (forall q :: 0 <= q < k ==> Handled(rules, toks, states, predicted, states[i][q], i))
    && PredictedAll(rules, toks, states, predicted, i)
    && (forall it :: it in states[i + 1] ==> ScannedBefore(toks, states, it, k, i))
  }

  /** The item of state i + 1 was scanned from one of the first k items of state i. */
  ghost predicate ScannedBefore(toks: seq<Token>, states: States, it: Item, k: nat, i: nat)
    requires i < |toks| && i < |states| && k <= |states[i]|
  {
    exists q :: 0 <= q < k && states[i][q].Expects(toks[i].kind) && states[i][q].Advance() == it
  }

  /** Items recorded as empty completions: they are in state i, complete, and began there. */
  ghost predicate EmptyCompletions(states: States, needsCompletion: map<Symbol, Item>, i: nat)
    requires i < |states|
  {
    forall A :: A in needsCompletion ==>
      && needsCompletion[A] in states[i] && needsCompletion[A].Complete() && needsCompletion[A].rule.lhs == A
      && needsCompletion[A].parent == i && needsCompletion[A].rule.rhs == []
  }

  lemma NothingHandled(rules: Rules, toks: seq<Token>, states: States, i: nat)
    requires i < |toks| && |states| == i + 2 && states[i + 1] == []
    ensures HandledUpTo(rules, toks, states, {}, 0, i)
  {
  }

  /** The loop's facts survive whatever is added to state i, and one more item joins them
      once it has been handled and its scan, if any, made. */
  lemma HandledOneMore(rules: Rules, toks: seq<Token>, before: States, after: States, predicted: set<Symbol>,
                       predicted': set<Symbol>, k: nat, i: nat)
    requires i < |toks| && |before| == |after| == i + 2 && k < |before[i]| && before[i] <= after[i]
    requires forall j :: 0 <= j < i ==> before[j] == after[j]
    requires HandledUpTo(rules, toks, before, predicted, k, i)
    requires predicted <= predicted' && PredictedAll(rules, toks, after, predicted', i)
    requires Handled(rules, toks, after, predicted', before[i][k], i)
    requires after[i + 1] == before[i + 1] ||
             (after[i + 1] == before[i + 1] + [before[i][k].Advance()] && before[i][k].Expects(toks[i].kind))
    ensures HandledUpTo(rules, toks, after, predicted', k + 1, i)
  {
    forall q | 0 <= q < k
      ensures Handled(rules, toks, after, predicted', after[i][q], i)
    {
      assert Handled(rules, toks, before, predicted, before[i][q], i);
    }
    var scanned := after[i + 1];
    forall it | it in scanned
      ensures ScannedBefore(toks, after, it, k + 1, i)
    {
      if it in before[i + 1] {
        assert ScannedBefore(toks, before, it, k, i);
        var q :| 0 <= q < k && before[i][q].Expects(toks[i].kind) && before[i][q].Advance() == it;
        assert after[i][q].Expects(toks[i].kind) && after[i][q].Advance() == it;
      } else {
        assert after[i][k].Expects(toks[i].kind) && after[i][k].Advance() == it;
      }
    }
  }

  lemma AfterCompleter(rules: Rules, toks: seq<Token>, before: States, after: States, predicted: set<Symbol>, k: nat,
                       i: nat)
    requires i < |toks| && |before| == i + 2 && Extends(before, after, i)
    requires HandledUpTo(rules, toks, before, predicted, k, i) && k < |before[i]|
    requires before[i][k].Complete()
    requires var done := before[i][k]; done.parent < i ==>
               forall p :: p in after[done.parent] && p.Expects(done.rule.lhs) ==> p.Advance() in after[i]
    ensures HandledUpTo(rules, toks, after, predicted, k + 1, i)
  {
    HandledOneMore(rules, toks, before, after, predicted, predicted, k, i);
  }

  lemma AfterPredictor(rules: Rules, toks: seq<Token>, before: States, after: States, predicted: set<Symbol>,
                       predicted': set<Symbol>, k: nat, i: nat)
    requires i < |toks| && |before| == i + 2 && Extends(before, after, i)
    requires HandledUpTo(rules, toks, before, predicted, k, i) && k < |before[i]|
    requires before[i][k].pos < |before[i][k].rule.rhs|
    requires var X := before[i][k].rule.rhs[before[i][k].pos];
             X in rules && predicted' == predicted + {X} &&
             (X in predicted || forall r :: r in rules[X] && MayStart(rules, r, toks[i]) ==> Item(r, 0, i) in after[i])
    ensures HandledUpTo(rules, toks, after, predicted', k + 1, i)
  {
    HandledOneMore(rules, toks, before, after, predicted, predicted', k, i);
  }

  lemma AfterScanner(rules: Rules, toks: seq<Token>, before: States, after: States, predicted: set<Symbol>, k: nat,
                     i: nat)
    requires i < |toks| && |before| == i + 2
    requires HandledUpTo(rules, toks, before, predicted, k, i) && k < |before[i]|
    requires before[i][k].pos < |before[i][k].rule.rhs| && before[i][k].rule.rhs[before[i][k].pos] !in rules
    requires after == if before[i][k].Expects(toks[i].kind) then AddTo(before, i + 1, before[i][k].Advance())
             else before
    ensures HandledUpTo(rules, toks, after, predicted, k + 1, i)
  {
    HandledOneMore(rules, toks, before, after, predicted, predicted, k, i);
  }

  /** The scanner does not repeat an item of the start rule. */
  lemma StartScannedOnce(rules: Rules, toks: seq<Token>, states: States, tree: Links, predicted: set<Symbol>, k: nat,
                         i: nat)
    requires i < |toks| && |states| == i + 2 && ChartOk(rules, toks, states, tree)
    requires HandledUpTo(rules, toks, states, predicted, k, i) && k < |states[i]|
    requires states[i][k].rule.lhs == START
    ensures states[i][k].Advance() !in states[i + 1]
  {
    assert StartOnce(states[i]);
    assert states[i][k].Advance() in states[i + 1] ==> ScannedBefore(toks, states, states[i][k].Advance(), k, i);
  }

  /** When the loop is through, the state is closed. */
  lemma AllHandledIsClosed(rules: Rules, toks: seq<Token>, states: States, predicted: set<Symbol>, i: nat)
    requires i < |toks| && |states| == i + 2
    requires HandledUpTo(rules, toks, states, predicted, |states[i]|, i)
    ensures StateClosed(rules, toks, states, i) && ScannedFrom(toks, states, i)
  {
    forall it | it in states[i]
      ensures ItemClosed(rules, toks, states, it, i)
    {
      var q :| 0 <= q < |states[i]| && states[i][q] == it;
      assert Handled(rules, toks, states, predicted, it, i);
    }
    forall it | it in states[i + 1]
      ensures 0 < it.pos <= |it.rule.rhs| && it.rule.rhs[it.pos - 1] == toks[i].kind && it.Retreat() in states[i]
    {
      assert ScannedBefore(toks, states, it, |states[i]|, i);
      var q :| 0 <= q < |states[i]| && states[i][q].Expects(toks[i].kind) && states[i][q].Advance() == it;
      assert it.Retreat() == states[i][q];
    }
  }

  /** The production lists `addRule` files under each left side. */
  function Filed(productions: seq<Rule>): Rules {
    if productions == [] then map[] else
      var rules := Filed(productions[..|productions| - 1]);
      var r := productions[|productions| - 1];
      rules[r.lhs := (if r.lhs in rules then rules[r.lhs] else []) + [r]]
  }

  lemma StartIsNotExpected(rules: Rules, start: Symbol, it: Item)
    requires WellFormed(rules, start) && IsRule(rules, it.rule)
    ensures it.pos < |it.rule.rhs| ==> it.rule.rhs[it.pos] != START
  {
    if it.rule.lhs != START {
      assert it.rule in rules[it.rule.lhs];
    }
  }

  lemma FiledUnderLeftSide(rules: Rules, start: Symbol, A: Symbol, r: Rule)
    requires WellFormed(rules, start) && A in rules && r in rules[A]
    ensures IsRule(rules, r) && r.lhs == A
  {
  }

  lemma FiledSnoc(productions: seq<Rule>, n: nat)
    requires n < |productions|
    ensures var rules, r := Filed(productions[..n]), productions[n];
            Filed(productions[..n + 1]) == rules[r.lhs := (if r.lhs in rules then rules[r.lhs] else []) + [r]]
  {
    var next := productions[..n + 1];
    assert next[..|next| - 1] == productions[..n];
  }

  /** ... hold exactly the given productions, each under its own left side. */
  lemma {:induction false} FiledAre(productions: seq<Rule>)
    ensures forall A, r :: A in Filed(productions) && r in Filed(productions)[A] <==> r in productions && r.lhs == A
    ensures forall A :: A in Filed(productions) <==> exists r :: r in productions && r.lhs == A
  {
    if productions != [] {
      var init := productions[..|productions| - 1];
      FiledAre(init);
      var r := productions[|productions| - 1];
      assert productions == init + [r];
      var before, after := Filed(init), Filed(productions);
      forall A
        ensures A in after <==> exists q :: q in productions && q.lhs == A
      {
        if A in after && A != r.lhs {
          assert A in before;
        }
        if A == r.lhs {
          assert r in productions;
        }
      }
    }
  }

  /** `collectRules` followed by `augment` gives a well-formed grammar when the productions
      name neither START nor EOF. */
  lemma AugmentedIsWellFormed(productions: seq<Rule>, start: Symbol)
    requires start != START && start != EOF
    requires forall r :: r in productions ==> r.lhs != START && r.lhs != EOF && START !in r.rhs && EOF !in r.rhs
    ensures WellFormed(Filed(productions)[START := [StartRule(start)]], start)
  {
    FiledAre(productions);
  }

  // ---------------------------------------------------------------- the parser object

  class GenericParser<V> {
    const start: Symbol
    const leaf: Token -> V
    const rule2func: (Rule, seq<V>) -> V
    const rule2name: Rule -> string
    var rules: Rules
    var startRule: Rule
    var states: States
    var tree: Links
    var stack: seq<V>

    constructor (start: Symbol, productions: seq<Rule>, leaf: Token -> V, rule2func: (Rule, seq<V>) -> V,
                 rule2name: Rule -> string)
      ensures this.start == start && this.leaf == leaf && this.rule2func == rule2func && this.rule2name == rule2name
      ensures rules == Filed(productions)[START := [StartRule(start)]] && startRule == StartRule(start)
    {
      this.start, this.leaf, this.rule2func, this.rule2name := start, leaf, rule2func, rule2name;
      states, tree, stack := [], map[], [];
      rules, startRule := map[], StartRule(start);
      new;
      for n := 0 to |productions|
        invariant rules == Filed(productions[..n]) && startRule == StartRule(start)
      {
        var r := productions[n];
        FiledSnoc(productions, n);
        assert [] + [r] == [r];
        if r.lhs in rules {
          rules := rules[r.lhs := rules[r.lhs] + [r]];
        } else {
          rules := rules[r.lhs := [r]];
        }
      }
      assert productions[..|productions|] == productions;
      rules := rules[START := [startRule]];
    }

    ghost predicate Ready()
      reads `rules, `startRule
    {
      WellFormed(rules, start) && startRule == StartRule(start)
    }

    /** The action of a rule; the start rule's is to return its first argument. */
    function Action(): (Rule, seq<V>) -> V
      reads `startRule
    {
      var s, f := startRule, rule2func;
      (r: Rule, args: seq<V>) => if r == s && args != [] then args[0] else f(r, args)
    }

    lemma ActionIsRuleFunc()
      ensures forall r, args ::
                Action()(r, args) == if r == startRule && args != [] then args[0] else rule2func(r, args)
    {
    }

    /** Adds `it`, moved over the left side of `done`, to state i unless it is there, and
        records `done` as a way to reach it. */
    method AddCompleted(toks: seq<Token>, i: nat, it: Item, done: Item, ghost c: nat)
      requires i < |states| && ChartOk(rules, toks, states, tree)
      requires done.parent <= i && it in states[done.parent] && it.Expects(done.rule.lhs)
      requires c < |states[i]| && done == states[i][c] && done.Complete()
      requires done.parent < i || done.rule.rhs == [] || it in states[i][..c]
      modifies this`states, this`tree
      ensures ChartOk(rules, toks, states, tree)
      ensures Extends(old(states), states, i) && Grown(old(states[i]), states[i]) && it.Advance() in states[i]
      ensures KeepsOrder(old(states[i]), states[i], i)
    {
      var new_ := it.Advance();
      assert new_.Retreat() == it && CompletesAt(states[i], i, c, new_);
      if new_ !in states[i] {
        CompleteStep(rules, toks, states, tree, i, it, done);
        OrderlySnoc(states[i], i, new_);
        states := AddTo(states, i, new_);
        tree := tree[(new_, i) := [(done, i)]];
      } else {
        AnotherLinkStep(rules, toks, states, tree, i, it, done);
        tree := tree[(new_, i) := tree[(new_, i)] + [(done, i)]];
      }
    }

    /** The completer: moves every item that waited for `done` over its left side. The walk
        over a state list that is still growing stops at `done` itself. */
    method Completer(toks: seq<Token>, i: nat, k: nat)
      requires i < |states| && ChartOk(rules, toks, states, tree)
      requires k < |states[i]| && states[i][k].Complete()
      modifies this`states, this`tree
      ensures ChartOk(rules, toks, states, tree)
      ensures Extends(old(states), states, i) && Grown(old(states[i]), states[i])
      ensures var done := old(states)[i][k]; done.parent < i ==>
                forall p :: p in states[done.parent] && p.Expects(done.rule.lhs) ==> p.Advance() in states[i]
      ensures KeepsOrder(old(states[i]), states[i], i)
    {
      hide ChartOk, Orderly;
      var done := states[i][k];
      ItemFacts(rules, toks, states, tree, i, done);
      ghost var before := states;
      var p := 0;
      while p < |states[done.parent]|
        invariant ChartOk(rules, toks, states, tree)
        invariant Extends(before, states, i) && Grown(before[i], states[i]) && KeepsOrder(before[i], states[i], i)
        invariant p <= |states[done.parent]| && (done.parent == i ==> p <= k)
        invariant done.parent < i ==> forall q :: 0 <= q < p ==>
                    states[done.parent][q].Expects(done.rule.lhs) ==> states[done.parent][q].Advance() in states[i]
        decreases (if done.parent == i then k else |states[done.parent]|) - p
      {
        if done.parent == i && p == k {
          break;
        }
        var pitem := states[done.parent][p];
        if pitem.pos < |pitem.rule.rhs| && pitem.rule.rhs[pitem.pos] == done.rule.lhs {
          ghost var last := states;
          AddCompleted(toks, i, pitem, done, k);
          ExtendsTransitive(before, last, states, i);
        }
        p := p + 1;
      }
    }

    /** The predictor: completes over an empty rule already seen, then adds, once per
        nonterminal, those of its rules that pass the one-token filter. */
    method Predictor(toks: seq<Token>, i: nat, it: Item, needsCompletion: map<Symbol, Item>, predicted: set<Symbol>)
      returns (predicted': set<Symbol>)
      requires Ready() && i < |toks| && i + 1 < |states| && ChartOk(rules, toks, states, tree)
      requires it in states[i] && it.pos < |it.rule.rhs| && it.rule.rhs[it.pos] in rules
      requires EmptyCompletions(states, needsCompletion, i) && predicted <= rules.Keys
      modifies this`states, this`tree
      ensures ChartOk(rules, toks, states, tree) && Extends(old(states), states, i)
      ensures predicted' == predicted + {it.rule.rhs[it.pos]}
      ensures it.rule.rhs[it.pos] in predicted ==> Grown(old(states[i]), states[i])
      ensures it.rule.rhs[it.pos] !in predicted ==>
                forall r :: r in rules[it.rule.rhs[it.pos]] && MayStart(rules, r, toks[i]) ==>
                  Item(r, 0, i) in states[i]
      ensures KeepsOrder(old(states[i]), states[i], i)
    {
      hide ChartOk, Sound, Grounded, WellFormed, Orderly;
      var nextSym := it.rule.rhs[it.pos];
      ghost var before := states;
      ItemFacts(rules, toks, states, tree, i, it);
      StartIsNotExpected(rules, start, it);
      if nextSym in needsCompletion {
        ghost var c :| 0 <= c < |states[i]| && states[i][c] == needsCompletion[nextSym];
        AddCompleted(toks, i, it, needsCompletion[nextSym], c);
      }
      predicted' := predicted + {nextSym};
      if nextSym in predicted {
        return;
      }
      for n := 0 to |rules[nextSym]|
        invariant ChartOk(rules, toks, states, tree) && Extends(before, states, i)
        invariant KeepsOrder(before[i], states[i], i)
        invariant forall m :: 0 <= m < n && MayStart(rules, rules[nextSym][m], toks[i]) ==>
                    Item(rules[nextSym][m], 0, i) in states[i]
      {
        var prule := rules[nextSym][n];
        if |prule.rhs| > 0 && prule.rhs[0] !in rules && toks[i].kind != prule.rhs[0] {
          continue;
        }
        FiledUnderLeftSide(rules, start, nextSym, prule);
        PredictStep(rules, toks, states, tree, i, prule);
        OrderlySnoc(states[i], i, Item(prule, 0, i));
        states := AddTo(states, i, Item(prule, 0, i));
      }
    }

    /** Everything state i calls for is added to it and to state i + 1, while the loop walks
        the growing list. */
    method BuildState(toks: seq<Token>, i: nat)
      requires Ready() && i < |toks| && |states| == i + 2 && states[i + 1] == [] && ChartOk(rules, toks, states, tree)
      modifies this`states, this`tree
      ensures ChartOk(rules, toks, states, tree)
      ensures |states| == i + 2 && old(states[i]) <= states[i]
      ensures forall j :: 0 <= j < i ==> states[j] == old(states[j])
      ensures StateClosed(rules, toks, states, i) && ScannedFrom(toks, states, i)
      ensures KeepsOrder(old(states[i]), states[i], i)
    {
      hide ChartOk, Handled, HandledUpTo, PredictedAll, Grown, Universe, ItemSet;
      hide Sound, Grounded, StateClosed, ScannedFrom, WellFormed, Orderly;
      NothingHandled(rules, toks, states, i);
      var needsCompletion: map<Symbol, Item> := map[];
      var predicted: set<Symbol> := {};
      var k := 0;
      while k < |states[i]|
        invariant Ready() && ChartOk(rules, toks, states, tree)
        invariant |states| == i + 2 && old(states[i]) <= states[i] && k <= |states[i]|
        invariant forall j :: 0 <= j < i ==> states[j] == old(states[j])
        invariant HandledUpTo(rules, toks, states, predicted, k, i)
        invariant EmptyCompletions(states, needsCompletion, i) && KeepsOrder(old(states[i]), states[i], i)
        invariant predicted <= rules.Keys
        decreases rules.Keys - predicted, Universe(rules, i) - ItemSet(states[i]), |states[i]| - k
      {
        var it := states[i][k];
        ghost var before, predictedBefore := states, predicted;
        ItemFacts(rules, toks, states, tree, i, it);
        if it.pos == |it.rule.rhs| {
          if |it.rule.rhs| == 0 {
            needsCompletion := needsCompletion[it.rule.lhs := it];
          }
          Completer(toks, i, k);
          AfterCompleter(rules, toks, before, states, predicted, k, i);
          GrowthIsBounded(rules, toks, before[i], states, tree, i);
        } else {
          var nextSym := it.rule.rhs[it.pos];
          if nextSym in rules {
            predicted := Predictor(toks, i, it, needsCompletion, predicted);
            AfterPredictor(rules, toks, before, states, predictedBefore, predicted, k, i);
            if nextSym in predictedBefore {
              GrowthIsBounded(rules, toks, before[i], states, tree, i);
            }
          } else {
            if toks[i].kind == nextSym {
              if it.rule.lhs == START {
                StartScannedOnce(rules, toks, states, tree, predicted, k, i);
              }
              ScanStep(rules, toks, states, tree, i, it);
              states := AddTo(states, i + 1, it.Advance());
            }
            AfterScanner(rules, toks, before, states, predicted, k, i);
          }
        }
        k := k + 1;
      }
      AllHandledIsClosed(rules, toks, states, predicted, i);
    }

    /** The outcome the chart decides: the last state reached, and whether the walk got to
        the end of the tokens with nothing but the completed start item. */
    method BuildChart(tokens: seq<Token>) returns (i: nat, accepted: bool)
      requires Ready()
      modifies this`states, this`tree
      ensures var toks := tokens + [EOFToken]; i < |toks| && |states| == i + 2 && ChartOk(rules, toks, states, tree)
      ensures accepted ==> i == |tokens| && states[i + 1] == [Item(startRule, 2, 0)]
      ensures accepted ==> Derives(rules, [start], tokens)
      ensures EpsilonFree(rules) && Derives(rules, [start], tokens) ==> accepted
      ensures states[0] != [] && states[0][0] == Item(startRule, 0, 0) && Orderly(states[0], 0, 1)
      ensures forall j :: 0 <= j < i - 1 ==> ScansAt(tokens, states, j)
      ensures i == 0 || ScansAt(tokens, states, i - 1)
                || (!accepted && (EpsilonFree(rules) ==> NoSentenceBeginsWith(rules, start, tokens[..i])))
      ensures !accepted && i == 0 ==> tokens == []
      ensures EpsilonFree(rules) && !accepted && i < |tokens| ==> NoSentenceBeginsWith(rules, start, tokens[..i])
    {
      hide ChartOk, WellFormed, Orderly, ScansAt, ScannedFrom;
      var toks := tokens + [EOFToken];
      StartIsOrderly(Item(startRule, 0, 0));
      states, tree := [[Item(startRule, 0, 0)]], map[];
      i := 0;
      StartOfChart(rules, start, toks);
      while true
        invariant Ready() && i < |toks| && |states| == i + 1
        invariant ChartOk(rules, toks, states, tree) && AllClosed(rules, toks, states)
        invariant states[0] != [] && states[0][0] == Item(startRule, 0, 0) && Orderly(states[0], 0, 1)
        invariant i > 0 ==> ScannedFrom(toks, states, i - 1)
        invariant forall j :: 0 <= j < i - 1 ==> ScansAt(toks, states, j)
        decreases |toks| - i
      {
        ghost var before := states;
        assert states[0][0] in states[0];
        OpenState(rules, toks, states, tree);
        states := states + [[]];
        if states[i] == [] {
          RejectedEarly(rules, start, tokens, before, i);
          ScansStill(toks, before, states, i - 1);
          ScansTokens(tokens, toks, states, i - 1);
          break;
        }
        if i > 0 {
          PassedOver(toks, before, i);
        }
        BuildState(toks, i);
        ScansStill(toks, before, states, i);
        ClosedFurther(rules, toks, before, states, i);
        if i + 1 == |toks| {
          DecidedAtEOF(rules, start, tokens, states, tree);
          ScansTokens(tokens, toks, states, i);
          break;
        }
        i := i + 1;
      }
      accepted := !(i < |toks| - 1 || states[i + 1] != [Item(startRule, 2, 0)]);
    }

    // -------------------------------------------------------------- the walk over the pointers

    function Key(l: Link): (nat, string) {
      (|l.0.rule.rhs|, rule2name(l.0.rule))
    }

    /** Among several pointers the walk takes one whose rule has the name of a shortest rule
        (the least such name), the last one of that name. */
    ghost predicate Preferred(children: seq<Link>, child: Link) {
      exists m, k ::
        && 0 <= m < |children| && 0 <= k < |children| && child == children[k]
        && (forall j :: 0 <= j < |children| ==> !KeyBefore(Key(children[j]), Key(children[m])))
        && Key(children[k]).1 == Key(children[m]).1
        && (forall j :: k < j < |children| ==> Key(children[j]).1 != Key(children[m]).1)
    }

    ghost predicate LeastUpTo(children: seq<Link>, best: nat, i: nat)
      requires i <= |children|
    {
      && best < |children| && best <= i
      && (forall j :: 0 <= j < i ==> !KeyBefore(Key(children[j]), Key(children[best])))
    }

    lemma LeastStep(children: seq<Link>, best: nat, i: nat)
      requires i < |children| && LeastUpTo(children, best, i)
      ensures LeastUpTo(children, if KeyBefore(Key(children[i]), Key(children[best])) then i else best, i + 1)
    {
      hide KeyBefore;
      KeyOrder(Key(children[i]), Key(children[i]));
      forall j | 0 <= j < i
        ensures KeyBefore(Key(children[i]), Key(children[best])) ==> !KeyBefore(Key(children[j]), Key(children[i]))
      {
        if KeyBefore(Key(children[i]), Key(children[best])) && KeyBefore(Key(children[j]), Key(children[i])) {
          KeyTransitive(Key(children[j]), Key(children[i]), Key(children[best]));
        }
      }
    }

    /** For every name among the first i, the last place of it. */
    ghost predicate LastOfNames(children: seq<Link>, places: map<string, nat>, i: nat)
      requires i <= |children|
    {
      && (forall j :: 0 <= j < i ==> Key(children[j]).1 in places)
      && (forall name :: name in places ==>
           && places[name] < i && Key(children[places[name]]).1 == name
           && (forall j :: places[name] < j < i ==> Key(children[j]).1 != name))
    }

    lemma LastStep(children: seq<Link>, places: map<string, nat>, i: nat)
      requires i < |children| && LastOfNames(children, places, i)
      ensures LastOfNames(children, places[Key(children[i]).1 := i], i + 1)
    {
      hide Key;
    }

    lemma ChosenIsPreferred(children: seq<Link>, best: nat, places: map<string, nat>)
      requires LeastUpTo(children, best, |children|) && LastOfNames(children, places, |children|)
      ensures Key(children[best]).1 in places && places[Key(children[best]).1] < |children|
      ensures Preferred(children, children[places[Key(children[best]).1]])
    {
      hide Key, KeyBefore;
    }

    method Ambiguity(children: seq<Link>) returns (child: Link)
      requires children != []
      ensures child in children && Preferred(children, child)
    {
      hide Key, KeyBefore, LeastUpTo, LastOfNames, Preferred;
      var best := 0;
      var name2index: map<string, nat> := map[];
      NoneSeen(children);
      for i := 0 to |children|
        invariant best < |children| && LeastUpTo(children, best, i) && LastOfNames(children, name2index, i)
      {
        LeastStep(children, best, i);
        LastStep(children, name2index, i);
        if KeyBefore(Key(children[i]), Key(children[best])) {
          best := i;
        }
        name2index := name2index[Key(children[i]).1 := i];
      }
      ChosenIsPreferred(children, best, name2index);
      child := children[name2index[Key(children[best]).1]];
    }

    lemma NoneSeen(children: seq<Link>)
      requires children != []
      ensures LeastUpTo(children, 0, 0) && LastOfNames(children, map[], 0)
    {
    }

    /** Walks down from a completed item, from the right end of its span to the left, and
        replaces what its right side left on the stack by the value of its rule. `tokpos`
        counts from the end of the tokens, as Python's negative indices do. */
    method BuildTreeR(toks: seq<Token>, tokpos: int, root: Link, ghost rank: map<Symbol, nat>)
      returns (tokpos': int, ghost t: Tree)
      requires ChartOk(rules, toks, states, tree) && EpsilonFree(rules) && UnitRanked(rules, rank)
      requires root.1 < |states| && root.0 in states[root.1] && root.0.Complete() && root.0.parent <= root.1
      requires root.0.rule.lhs in rank && |toks| + tokpos == root.1 - 1
      modifies this`stack
      ensures ValidTree(rules, t) && Root(t) == root.0.rule.lhs && Yield(t) == toks[root.0.parent..root.1]
      ensures stack == [Fold(t, leaf, Action())] + old(stack)
      ensures t.Node? && t.rule == root.0.rule
      ensures |toks| + tokpos' == root.0.parent - 1
      decreases root.1 - root.0.parent, rank[root.0.rule.lhs]
    {
      hide ChartOk, EpsilonFree, UnitRanked, Sound, Grounded, Action, ValidTree, Fold, Yield, Walked, LinkOk, Preferred;
      var rule, parent := root.0.rule, root.0.parent;
      var pos: nat, state: nat := root.0.pos, root.1;
      tokpos' := tokpos;
      ghost var f: seq<Tree> := [];
      ghost var values: seq<V> := [];
      WalkStarts(rules, toks, states, tree, root, leaf, Action());
      while pos > 0
        invariant state < |states|
        invariant Walked(rules, toks, states, Item(rule, pos, parent), state, root.1, f, values, leaf, Action())
        invariant stack == values + old(stack) && |toks| + tokpos' == state - 1
      {
        var want: Link := (Item(rule, pos, parent), state);
        if want !in tree {
          f := WalkOverToken(rules, toks, states, tree, want.0, state, root.1, f, values, leaf, Action());
          PushFront(leaf(toks[state - 1]), values, old(stack));
          values := [leaf(toks[state - 1])] + values;
          pos, state := pos - 1, state - 1;
          stack := [leaf(toks[|toks| + tokpos'])] + stack;
          tokpos' := tokpos' - 1;
        } else {
          var children := tree[want];
          LinkFacts(rules, toks, states, tree, want);
          var child;
          if |children| > 1 {
            child := Ambiguity(children);
          } else {
            child := children[0];
          }
          WalkGoesDown(rules, toks, states, tree, rank, root, want, f, values, leaf, Action(), child);
          ghost var sub;
          tokpos', sub := BuildTreeR(toks, tokpos', child, rank);
          f := WalkOverTree(rules, toks, states, want.0, state, root.1, f, values, leaf, Action(), child, sub);
          PushFront(Fold(sub, leaf, Action()), values, old(stack));
          values := [Fold(sub, leaf, Action())] + values;
          pos := pos - 1;
          state := child.0.parent;
        }
      }
      t := WalkEnds(rules, toks, states, tree, rule, parent, state, root.1, f, values, leaf, Action());
      var args := stack[..|rule.rhs|];
      assert args == values;
      stack := [Action()(rule, args)] + stack[|rule.rhs|..];
    }

    /** `parse`: the value of a derivation tree of the tokens if they have one, and otherwise
        an error that blames the last token, or a token no sentence can reach. */
    method Parse(tokens: seq<Token>, ghost rank: map<Symbol, nat>) returns (r: ParseResult<V>)
      requires Ready() && EpsilonFree(rules) && UnitRanked(rules, rank)
      modifies this`states, this`tree, this`stack
      ensures r.Parsed? <==> Derives(rules, [start], tokens)
      ensures r.Parsed? ==> exists t :: DerivationOf(rules, start, tokens, t) && r.value == Fold(t, leaf, rule2func)
      ensures r.NoTokenToBlame? <==> tokens == []
      ensures r.SyntaxError? ==> exists m: nat :: BlamedToken(rules, start, tokens, m) && r.token == tokens[m]
    {
      hide ChartOk, WellFormed, EpsilonFree, UnitRanked, Derives, Action, NoSentenceBeginsWith, DerivationOf, Orderly,
        ScansAt, Reached;
      var i, accepted := BuildChart(tokens);
      NoEmptySentence(rules, start);
      if !accepted {
        if i == 0 {
          return NoTokenToBlame;
        }
        BlameIsRight(rules, start, tokens, tokens + [EOFToken], states, tree, i);
        return SyntaxError(tokens[i - 1]);
      }
      var toks := tokens + [EOFToken];
      stack := [];
      ghost var whole;
      StartIsRule(rules, start, rank);
      var _, t := BuildTreeR(toks, -1, (Item(startRule, 2, 0), i + 1), rank);
      whole := t;
      r := Parsed(stack[0]);
      ActionIsRuleFunc();
      StartValue(rules, start, tokens, whole, leaf, rule2func, Action());
    }
  }

  lemma NoEmptySentence(rules: Rules, start: Symbol)
    requires EpsilonFree(rules)
    ensures !Derives(rules, [start], [])
  {
    forall f | ValidForest(rules, f, [start])
      ensures YieldAll(f) != []
    {
      ForestHasTokens(rules, f);
    }
  }

  lemma StartIsRule(rules: Rules, start: Symbol, rank: map<Symbol, nat>)
    requires WellFormed(rules, start) && UnitRanked(rules, rank)
    ensures START in rank && IsRule(rules, StartRule(start))
  {
  }

  /** The value of the whole tree is that of its first child, and the start rule's action is
      used nowhere below. */
  lemma StartValue<V>(rules: Rules, start: Symbol, tokens: seq<Token>, whole: Tree, leaf: Token -> V,
                      f: (Rule, seq<V>) -> V, act: (Rule, seq<V>) -> V)
    requires WellFormed(rules, start)
    requires ValidTree(rules, whole) && whole.Node? && whole.rule == StartRule(start)
    requires Yield(whole) == tokens + [EOFToken]
    requires forall r, args :: act(r, args) == if r == StartRule(start) && args != [] then args[0] else f(r, args)
    ensures exists t :: DerivationOf(rules, start, tokens, t) && Fold(whole, leaf, act) == Fold(t, leaf, f)
  {
    var c := whole.children;
    assert c == [c[0], c[1]] && c[..1] == [c[0]] && c[..1][..0] == [];
    assert Root(c[1]) == EOF && ValidTree(rules, c[1]);
    assert c[1].Leaf? && Yield(c[1]) == [c[1].token];
    assert Yield(whole) == YieldAll(c[..1]) + Yield(c[1]);
    assert YieldAll(c[..1]) == YieldAll([]) + Yield(c[0]);
    assert Yield(c[0]) == Yield(whole)[..|tokens|] == tokens;
    assert FoldAll(c[..1], leaf, act) == [Fold(c[0], leaf, act)];
    var values := FoldAll(c, leaf, act);
    assert values[0] == Fold(c[0], leaf, act) && Fold(whole, leaf, act) == act(whole.rule, values);
    FoldBelowStart(rules, start, c[0], leaf, f, act);
    assert DerivationOf(rules, start, tokens, c[0]);
  }

  lemma {:induction false} FoldBelowStart<V>(rules: Rules, start: Symbol, t: Tree, leaf: Token -> V,
                                             f: (Rule, seq<V>) -> V, act: (Rule, seq<V>) -> V)
    requires WellFormed(rules, start) && ValidTree(rules, t) && Root(t) != START
    requires forall r, args :: act(r, args) == if r == StartRule(start) && args != [] then args[0] else f(r, args)
    ensures Fold(t, leaf, act) == Fold(t, leaf, f)
    decreases t, 1
  {
    match t
    case Leaf(_) =>
    case Node(rule, children) =>
      FoldAllBelowStart(rules, start, children, leaf, f, act);
  }

  lemma {:induction false} FoldAllBelowStart<V>(rules: Rules, start: Symbol, ts: seq<Tree>, leaf: Token -> V,
                                                f: (Rule, seq<V>) -> V, act: (Rule, seq<V>) -> V)
    requires WellFormed(rules, start) && (forall c :: c in ts ==> ValidTree(rules, c) && Root(c) != START)
    requires forall r, args :: act(r, args) == if r == StartRule(start) && args != [] then args[0] else f(r, args)
    ensures FoldAll(ts, leaf, act) == FoldAll(ts, leaf, f)
    decreases ts, 0
  {
    if ts != [] {
      FoldAllBelowStart(rules, start, ts[..|ts| - 1], leaf, f, act);
      FoldBelowStart(rules, start, ts[|ts| - 1], leaf, f, act);
    }
  }

  /** `t` derives the tokens from the start symbol. */
  ghost predicate DerivationOf(rules: Rules, start: Symbol, tokens: seq<Token>, t: Tree) {
    ValidTree(rules, t) && Root(t) == start && Yield(t) == tokens
  }

  /** The tokens before it can be reached one by one, and either no sentence begins with those up
      to and with it, or it is the last token, and can be reached itself. */
  ghost predicate BlamedToken(rules: Rules, start: Symbol, tokens: seq<Token>, m: nat) {
    && m < |tokens|
    && (forall j :: 0 <= j <= m ==> Reached(rules, tokens, j))
    && (NoSentenceBeginsWith(rules, start, tokens[..m + 1]) || (m == |tokens| - 1 && Reached(rules, tokens, |tokens|)))
  }

  lemma BlameIsRight(rules: Rules, start: Symbol, tokens: seq<Token>, toks: seq<Token>, states: States, tree: Links,
                     i: nat)
    requires EpsilonFree(rules) && tokens <= toks && 0 < i <= |tokens| && |states| == i + 2
    requires ChartOk(rules, toks, states, tree)
    requires forall j :: 0 <= j < i - 1 ==> ScansAt(tokens, states, j)
    requires ScansAt(tokens, states, i - 1) || NoSentenceBeginsWith(rules, start, tokens[..i])
    requires i < |tokens| ==> NoSentenceBeginsWith(rules, start, tokens[..i])
    ensures BlamedToken(rules, start, tokens, i - 1)
  {
    hide ScansAt, Reached, NoSentenceBeginsWith, ChartOk, EpsilonFree;
    forall j | 0 <= j <= i - 1
      ensures Reached(rules, tokens, j)
    {
      ScansReach(rules, toks, tokens, states, tree, j);
    }
    if !NoSentenceBeginsWith(rules, start, tokens[..i]) {
      ScansReach(rules, toks, tokens, states, tree, i);
    }
  }

  ghost predicate NoSentenceBeginsWith(rules: Rules, start: Symbol, prefix: seq<Token>) {
    forall w :: !Derives(rules, [start], prefix + w)
  }

  predicate KeyBefore(a: (nat, string), b: (nat, string)) {
    a.0 < b.0 || (a.0 == b.0 && Before(a.1, b.1))
  }

  lemma KeyOrder(a: (nat, string), b: (nat, string))
    ensures !KeyBefore(a, a)
    ensures a == b || KeyBefore(a, b) || KeyBefore(b, a)
  {
    Irreflexive(a.1);
    Total(a.1, b.1);
  }

  lemma KeyTransitive(a: (nat, string), b: (nat, string), c: (nat, string))
    requires KeyBefore(a, b) && KeyBefore(b, c)
    ensures KeyBefore(a, c)
  {
    if a.0 == b.0 == c.0 {
      Transitive(a.1, b.1, c.1);
    }
  }

  /** The walk has come down from state `end` to `state`, back over the symbols right of the
      dot of `it`, and holds a forest for them and its values. */
  ghost predicate Walked<V>(rules: Rules, toks: seq<Token>, states: States, it: Item, state: nat, end: nat,
                            f: seq<Tree>, values: seq<V>, leaf: Token -> V, act: (Rule, seq<V>) -> V)
    requires state < |states|
  {
    && it in states[state] && it.pos <= |it.rule.rhs| && it.parent <= state <= end <= |toks|
    && ValidForest(rules, f, it.rule.rhs[it.pos..])
    && YieldAll(f) == toks[state..end]
    && values == FoldAll(f, leaf, act)
  }

  lemma WalkStarts<V>(rules: Rules, toks: seq<Token>, states: States, tree: Links, root: Link, leaf: Token -> V,
                      act: (Rule, seq<V>) -> V)
    requires ChartOk(rules, toks, states, tree) && root.1 < |states| && root.0 in states[root.1] && root.0.Complete()
    ensures Walked(rules, toks, states, Item(root.0.rule, root.0.pos, root.0.parent), root.1, root.1, [], [], leaf, act)
  {
    ItemFacts(rules, toks, states, tree, root.1, root.0);
    assert root.0 == Item(root.0.rule, root.0.pos, root.0.parent) && toks[root.1..root.1] == [];
  }

  lemma ScannedLink(rules: Rules, toks: seq<Token>, states: States, tree: Links, it: Item, j: nat)
    requires ChartOk(rules, toks, states, tree) && j < |states| && it in states[j] && it.pos > 0 && (it, j) !in tree
    ensures 0 < j <= |toks| && it.parent <= j - 1 && Item(it.rule, it.pos - 1, it.parent) in states[j - 1]
    ensures it.pos <= |it.rule.rhs| && toks[j - 1].kind == it.rule.rhs[it.pos - 1] && toks[j - 1].kind !in rules
  {
    hide ChartOk, Derives;
    ItemFacts(rules, toks, states, tree, j, it);
    ItemFacts(rules, toks, states, tree, j - 1, it.Retreat());
    assert it.Retreat() == Item(it.rule, it.pos - 1, it.parent);
  }

  lemma WalkOverToken<V>(rules: Rules, toks: seq<Token>, states: States, tree: Links, it: Item, state: nat, end: nat,
                         f: seq<Tree>, values: seq<V>, leaf: Token -> V, act: (Rule, seq<V>) -> V)
    returns (g: seq<Tree>)
    requires ChartOk(rules, toks, states, tree) && state < |states| && it.pos > 0 && (it, state) !in tree
    requires Walked(rules, toks, states, it, state, end, f, values, leaf, act)
    ensures 0 < state && state - 1 < |toks|
    ensures Walked(rules, toks, states, Item(it.rule, it.pos - 1, it.parent), state - 1, end, g,
            [leaf(toks[state - 1])] + values, leaf, act)
  {
    hide ChartOk, ValidTree, Yield, YieldAll, Fold, FoldAll, ValidForest, Root;
    ScannedLink(rules, toks, states, tree, it, state);
    var t := TokenTree(rules, toks, state - 1, leaf, act);
    g := PrependTree(rules, toks, f, it.rule.rhs[it.pos..], t, state - 1, state, end, leaf, act);
    assert it.rule.rhs[it.pos - 1..] == [it.rule.rhs[it.pos - 1]] + it.rule.rhs[it.pos..];
  }

  lemma TokenTree<V>(rules: Rules, toks: seq<Token>, i: nat, leaf: Token -> V, act: (Rule, seq<V>) -> V)
    returns (t: Tree)
    requires i < |toks| && toks[i].kind !in rules
    ensures ValidTree(rules, t) && Yield(t) == toks[i..i + 1] && Root(t) == toks[i].kind
    ensures Fold(t, leaf, act) == leaf(toks[i])
  {
    t := Leaf(toks[i]);
  }

  lemma WalkOverTree<V>(rules: Rules, toks: seq<Token>, states: States, it: Item, state: nat, end: nat, f: seq<Tree>,
                        values: seq<V>, leaf: Token -> V, act: (Rule, seq<V>) -> V, child: Link, sub: Tree)
    returns (g: seq<Tree>)
    requires state < |states| && it.pos > 0 && Walked(rules, toks, states, it, state, end, f, values, leaf, act)
    requires LinkOk(states, (it, state), child) && it.parent <= child.0.parent
    requires ValidTree(rules, sub) && Root(sub) == child.0.rule.lhs && Yield(sub) == toks[child.0.parent..child.1]
    ensures child.0.parent < |states|
    ensures Walked(rules, toks, states, Item(it.rule, it.pos - 1, it.parent), child.0.parent, end, g,
            [Fold(sub, leaf, act)] + values, leaf, act)
  {
    g := PrependTree(rules, toks, f, it.rule.rhs[it.pos..], sub, child.0.parent, state, end, leaf, act);
    assert it.rule.rhs[it.pos - 1..] == [it.rule.rhs[it.pos - 1]] + it.rule.rhs[it.pos..];
    assert it.Retreat() == Item(it.rule, it.pos - 1, it.parent);
  }

  lemma WalkEnds<V>(rules: Rules, toks: seq<Token>, states: States, tree: Links, rule: Rule, parent: nat, state: nat,
                    end: nat, f: seq<Tree>, values: seq<V>, leaf: Token -> V, act: (Rule, seq<V>) -> V)
    returns (t: Tree)
    requires ChartOk(rules, toks, states, tree) && state < |states|
    requires Walked(rules, toks, states, Item(rule, 0, parent), state, end, f, values, leaf, act)
    ensures state == parent <= end <= |toks| && |values| == |rule.rhs|
    ensures ValidTree(rules, t) && t == Node(rule, f) && Yield(t) == toks[parent..end]
    ensures Fold(t, leaf, act) == act(rule, values)
  {
    ItemFacts(rules, toks, states, tree, state, Item(rule, 0, parent));
    assert rule.rhs[0..] == rule.rhs;
    t := Node(rule, f);
  }

  /** One more tree at the left end of a forest. */
  lemma PrependTree<V>(rules: Rules, toks: seq<Token>, f: seq<Tree>, syms: seq<Symbol>, t: Tree, i: nat, j: nat, k: nat,
                       leaf: Token -> V, act: (Rule, seq<V>) -> V)
    returns (g: seq<Tree>)
    requires ValidForest(rules, f, syms)
    requires i <= j <= k <= |toks| && YieldAll(f) == toks[j..k]
    requires ValidTree(rules, t) && Yield(t) == toks[i..j]
    ensures g == [t] + f && ValidForest(rules, g, [Root(t)] + syms) && YieldAll(g) == toks[i..k]
    ensures FoldAll(g, leaf, act) == [Fold(t, leaf, act)] + FoldAll(f, leaf, act)
  {
    g := [t] + f;
    YieldAllConcat([t], f);
    FoldAllConcat([t], f, leaf, act);
    assert [t][..0] == [] && YieldAll([t]) == YieldAll([]) + Yield(t);
    assert FoldAll([t], leaf, act) == FoldAll([], leaf, act) + [Fold(t, leaf, act)];
    JoinSlices(toks, i, j, k);
  }

  lemma JoinSlices<T>(s: seq<T>, i: nat, j: nat, k: nat)
    requires i <= j <= k <= |s|
    ensures s[i..j] + s[j..k] == s[i..k]
  {
  }

  lemma PushFront<V>(v: V, values: seq<V>, below: seq<V>)
    ensures [v] + (values + below) == ([v] + values) + below
  {
  }

  /** The walk goes down: the child's span is shorter than the root's, or the same, but then
      the root's rule is a unit rule and the child's left side ranks lower. */
  lemma WalkGoesDown<V>(rules: Rules, toks: seq<Token>, states: States, tree: Links, rank: map<Symbol, nat>, root: Link,
                        l: Link, f: seq<Tree>, values: seq<V>, leaf: Token -> V, act: (Rule, seq<V>) -> V, child: Link)
    requires ChartOk(rules, toks, states, tree) && EpsilonFree(rules) && UnitRanked(rules, rank)
    requires root.1 < |states| && l.0.rule == root.0.rule && l.0.parent == root.0.parent && l.0.pos > 0
    requires l.0.rule.lhs in rank
    requires l.1 < |states| && Walked(rules, toks, states, l.0, l.1, root.1, f, values, leaf, act)
    requires LinkOk(states, l, child)
    ensures child.1 == l.1 && child.0 in states[child.1] && child.0.Complete()
    ensures child.0.rule.lhs in rank && l.0.parent <= child.0.parent <= child.1
    ensures child.1 - child.0.parent <= root.1 - root.0.parent
    ensures child.1 - child.0.parent == root.1 - root.0.parent ==> rank[child.0.rule.lhs] < rank[root.0.rule.lhs]
  {
    hide ChartOk;
    var rule, before := l.0.rule, l.0.Retreat();
    ItemFacts(rules, toks, states, tree, child.0.parent, before);
    ItemFacts(rules, toks, states, tree, child.1, child.0);
    ForestHasTokens(rules, f);
    var g: seq<Tree> :| ValidForest(rules, g, rule.rhs[..before.pos]) &&
        YieldAll(g) == toks[before.parent..child.0.parent];
    ForestHasTokens(rules, g);
    assert child.1 - child.0.parent == root.1 - root.0.parent ==> |rule.rhs| == 1;
  }
}

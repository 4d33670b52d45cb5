/** The chart of the Earley parser as a value: what an item in a state set means, what a tree
    pointer means, what it is for a state set to be closed, and why closed state sets miss
    no derivation. */
module EarleyChart {
  import opened Grammar

  /** (rule, pos, parent): the part of `rule` left of `pos` has been matched since state
      `parent`. */
  datatype Item = Item(rule: Rule, pos: nat, parent: nat) {
    predicate Complete() {
      pos == |rule.rhs|
    }

    predicate Expects(X: Symbol) {
      pos < |rule.rhs| && rule.rhs[pos] == X
    }

    function Advance(): Item {
      Item(rule, pos + 1, parent)
    }

    function Retreat(): Item
      requires pos > 0
    {
      Item(rule, pos - 1, parent)
    }
  }

  type States = seq<seq<Item>>
  type Link = (Item, nat)
  type Links = map<Link, seq<Link>>

  // ---------------------------------------------------------------- what the chart means

  ghost predicate Sound(rules: Rules, toks: seq<Token>, it: Item, j: nat) {
    && IsRule(rules, it.rule)
    && it.pos <= |it.rule.rhs|
    && it.parent <= j <= |toks|
    && (it.rule.lhs == START ==> it.parent == 0)
    && Derives(rules, it.rule.rhs[..it.pos], toks[it.parent..j])
  }

  /** How the item came into state j: predicted there, scanned from state j - 1, or completed,
      in which case it has a tree pointer. */
  ghost predicate Grounded(rules: Rules, toks: seq<Token>, states: States, tree: Links, it: Item, j: nat)
    requires j < |states| && j <= |toks| && it.pos <= |it.rule.rhs|
  {
    if it.pos == 0 then
      it.parent == j
    else if it.rule.rhs[it.pos - 1] in rules then
      (it, j) in tree
    else
      j > 0 && toks[j - 1].kind == it.rule.rhs[it.pos - 1] && it.Retreat() in states[j - 1]
  }

  /** A tree pointer from an item leads to a completed item for the symbol left of its dot,
      and the item without that symbol is in the state where the completed one began. */
  ghost predicate LinkOk(states: States, l: Link, c: Link) {
    && l.1 < |states| && c.1 == l.1
    && 0 < l.0.pos <= |l.0.rule.rhs|
    && c.0 in states[l.1] && c.0.Complete() && c.0.rule.lhs == l.0.rule.rhs[l.0.pos - 1]
    && c.0.parent <= l.1 && l.0.Retreat() in states[c.0.parent]
  }

  ghost predicate ItemsOk(rules: Rules, toks: seq<Token>, states: States, tree: Links)
    requires |states| <= |toks| + 1
  {
    forall j, it :: 0 <= j < |states| && it in states[j] ==>
      Sound(rules, toks, it, j) && Grounded(rules, toks, states, tree, it, j)
  }

  ghost predicate LinksOk(rules: Rules, states: States, tree: Links) {
    forall l :: l in tree ==>
      && l.1 < |states| && l.0 in states[l.1]
      && tree[l] != []
      && 0 < l.0.pos <= |l.0.rule.rhs| && l.0.rule.rhs[l.0.pos - 1] in rules
      && (forall c :: c in tree[l] ==> LinkOk(states, l, c))
  }

  /** Items of the start rule occur once each in a state list; other items may repeat. */
  ghost predicate StartOnce(state: seq<Item>) {
    forall p, q :: 0 <= p < q < |state| && state[p] == state[q] ==> state[p].rule.lhs != START
  }

  ghost predicate ChartOk(rules: Rules, toks: seq<Token>, states: States, tree: Links) {
    && |states| <= |toks| + 1
    && ItemsOk(rules, toks, states, tree)
    && LinksOk(rules, states, tree)
    && (forall j :: 0 <= j < |states| ==> StartOnce(states[j]))
  }

  // ---------------------------------------------------------------- growing the chart

  function AddTo(states: States, j: nat, it: Item): States
    requires j < |states|
  {
    states[j := states[j] + [it]]
  }

  /** Only the state set j may differ, and only by items added at its end. */
  ghost predicate Extends(before: States, after: States, j: nat) {
    && j < |before| == |after|
    && before[j] <= after[j]
    && (forall k :: 0 <= k < |before| && k != j ==> after[k] == before[k])
  }

  /** A duplicate-free addition, if any: what the parser's "not in state" test ensures. */
  ghost predicate Grown(before: seq<Item>, after: seq<Item>) {
    after == before || (before <= after && exists it :: it in after && it !in before)
  }

  lemma GroundedStays(rules: Rules, toks: seq<Token>, states: States, after: States, tree: Links, tree': Links,
                      it: Item, j: nat)
    requires j < |states| == |after| <= |toks| + 1 && it.pos <= |it.rule.rhs|
    requires (forall k :: 0 <= k < |states| ==> states[k] <= after[k]) && tree.Keys <= tree'.Keys
    requires Grounded(rules, toks, states, tree, it, j)
    ensures Grounded(rules, toks, after, tree', it, j)
  {
    if it.pos > 0 && it.rule.rhs[it.pos - 1] in rules {
      assert (it, j) in tree.Keys;
    }
  }

  lemma ItemsStay(rules: Rules, toks: seq<Token>, states: States, tree: Links, tree': Links)
    requires |states| <= |toks| + 1 && ItemsOk(rules, toks, states, tree) && tree.Keys <= tree'.Keys
    ensures ItemsOk(rules, toks, states, tree')
  {
    hide Derives;
    forall j, x | 0 <= j < |states| && x in states[j]
      ensures Sound(rules, toks, x, j) && x.pos <= |x.rule.rhs| && Grounded(rules, toks, states, tree', x, j)
    {
      assert Sound(rules, toks, x, j) && Grounded(rules, toks, states, tree, x, j);
      GroundedStays(rules, toks, states, states, tree, tree', x, j);
    }
  }

  lemma AddItemKeepsChart(rules: Rules, toks: seq<Token>, states: States, tree: Links, tree': Links, j: nat, it: Item)
    requires |states| <= |toks| + 1 && j < |states|
    requires ItemsOk(rules, toks, states, tree) && tree.Keys <= tree'.Keys
    requires Sound(rules, toks, it, j) && Grounded(rules, toks, states, tree', it, j)
    ensures ItemsOk(rules, toks, AddTo(states, j, it), tree')
  {
    var after := AddTo(states, j, it);
    forall k, x | 0 <= k < |after| && x in after[k]
      ensures Sound(rules, toks, x, k) && Grounded(rules, toks, after, tree', x, k)
    {
      if x in states[k] {
        GroundedStays(rules, toks, states, after, tree, tree', x, k);
      } else {
        assert k == j && x == it;
        GroundedStays(rules, toks, states, after, tree', tree', x, k);
      }
    }
  }

  lemma AddItemKeepsLinks(rules: Rules, states: States, tree: Links, j: nat, it: Item)
    requires j < |states| && LinksOk(rules, states, tree)
    ensures LinksOk(rules, AddTo(states, j, it), tree)
  {
    var after := AddTo(states, j, it);
    forall l | l in tree
      ensures l.1 < |after| && l.0 in after[l.1]
      ensures forall c :: c in tree[l] ==> LinkOk(after, l, c)
    {
      forall c | c in tree[l]
        ensures LinkOk(after, l, c)
      {
        assert LinkOk(states, l, c);
      }
    }
  }

  lemma AddItemKeepsStartOnce(states: States, j: nat, it: Item)
    requires j < |states| && (forall k :: 0 <= k < |states| ==> StartOnce(states[k]))
    requires it.rule.lhs == START ==> it !in states[j]
    ensures forall k :: 0 <= k < |states| ==> StartOnce(AddTo(states, j, it)[k])
  {
  }

  // ---------------------------------------------------------------- soundness of the steps

  lemma PredictedIsSound(rules: Rules, toks: seq<Token>, r: Rule, j: nat)
    requires IsRule(rules, r) && r.lhs != START && j <= |toks|
    ensures Sound(rules, toks, Item(r, 0, j), j)
  {
    DerivesNothing(rules);
    assert r.rhs[..0] == [] && toks[j..j] == [];
  }

  lemma ScannedIsSound(rules: Rules, toks: seq<Token>, it: Item, j: nat)
    requires Sound(rules, toks, it, j) && j < |toks| && it.Expects(toks[j].kind) && toks[j].kind !in rules
    ensures Sound(rules, toks, it.Advance(), j + 1)
  {
    DerivesToken(rules, it.rule.rhs[..it.pos], toks[it.parent..j], toks[j]);
    assert it.rule.rhs[..it.pos] + [toks[j].kind] == it.rule.rhs[..it.pos + 1];
    assert toks[it.parent..j] + [toks[j]] == toks[it.parent..j + 1];
  }

  lemma CompletedIsSound(rules: Rules, toks: seq<Token>, it: Item, done: Item, j: nat)
    requires Sound(rules, toks, done, j) && done.Complete()
    requires Sound(rules, toks, it, done.parent) && it.Expects(done.rule.lhs)
    ensures Sound(rules, toks, it.Advance(), j)
  {
    assert done.rule.rhs[..done.pos] == done.rule.rhs;
    DerivesRule(rules, it.rule.rhs[..it.pos], toks[it.parent..done.parent], done.rule, toks[done.parent..j]);
    assert it.rule.rhs[..it.pos] + [done.rule.lhs] == it.rule.rhs[..it.pos + 1];
    assert toks[it.parent..done.parent] + toks[done.parent..j] == toks[it.parent..j];
  }

  // ---------------------------------------------------------------- one addition to the chart

  lemma StartOfChart(rules: Rules, start: Symbol, toks: seq<Token>)
    requires WellFormed(rules, start)
    ensures ChartOk(rules, toks, [[Item(StartRule(start), 0, 0)]], map[])
  {
    DerivesNothing(rules);
    assert StartRule(start).rhs[..0] == [] && toks[0..0] == [];
  }

  lemma OpenState(rules: Rules, toks: seq<Token>, states: States, tree: Links)
    requires ChartOk(rules, toks, states, tree) && |states| <= |toks|
    ensures ChartOk(rules, toks, states + [[]], tree)
  {
    var after := states + [[]];
    forall j, it | 0 <= j < |after| && it in after[j]
      ensures Sound(rules, toks, it, j) && Grounded(rules, toks, after, tree, it, j)
    {
      assert it in states[j];
    }
    forall l, c | l in tree && c in tree[l]
      ensures LinkOk(after, l, c)
    {
      assert LinkOk(states, l, c);
    }
  }

  lemma ItemFacts(rules: Rules, toks: seq<Token>, states: States, tree: Links, j: nat, it: Item)
    requires ChartOk(rules, toks, states, tree) && j < |states| && it in states[j]
    ensures IsRule(rules, it.rule) && it.pos <= |it.rule.rhs| && it.parent <= j
    ensures Sound(rules, toks, it, j) && Grounded(rules, toks, states, tree, it, j)
  {
  }

  lemma ExtendsTransitive(s0: States, s1: States, s2: States, j: nat)
    requires Extends(s0, s1, j) && Extends(s1, s2, j)
    ensures Extends(s0, s2, j)
    ensures Grown(s0[j], s1[j]) && Grown(s1[j], s2[j]) ==> Grown(s0[j], s2[j])
  {
    if s1[j] != s0[j] && Grown(s0[j], s1[j]) {
      var it :| it in s1[j] && it !in s0[j];
      assert it in s2[j];
    } else if s2[j] != s1[j] && Grown(s1[j], s2[j]) && s1[j] == s0[j] {
    }
  }

  /** Adding a predicted item keeps the chart. */
  lemma PredictStep(rules: Rules, toks: seq<Token>, states: States, tree: Links, i: nat, r: Rule)
    requires ChartOk(rules, toks, states, tree) && i < |states|
    requires IsRule(rules, r) && r.lhs != START
    ensures ChartOk(rules, toks, AddTo(states, i, Item(r, 0, i)), tree)
  {
    var it := Item(r, 0, i);
    PredictedIsSound(rules, toks, r, i);
    AddItemKeepsLinks(rules, states, tree, i, it);
    AddItemKeepsChart(rules, toks, states, tree, tree, i, it);
    AddItemKeepsStartOnce(states, i, it);
  }

  lemma ScannedItem(rules: Rules, toks: seq<Token>, states: States, tree: Links, i: nat, it: Item)
    requires ChartOk(rules, toks, states, tree) && i < |states| && i < |toks|
    requires it in states[i] && it.Expects(toks[i].kind) && toks[i].kind !in rules
    ensures Sound(rules, toks, it.Advance(), i + 1)
    ensures i + 1 < |states| ==> Grounded(rules, toks, states, tree, it.Advance(), i + 1)
  {
    hide ChartOk, Derives;
    ItemFacts(rules, toks, states, tree, i, it);
    ScannedIsSound(rules, toks, it, i);
    assert it.Advance().Retreat() == it;
  }

  /** Adding a scanned item keeps the chart, unless it repeats an item of the start rule. */
  lemma ScanStep(rules: Rules, toks: seq<Token>, states: States, tree: Links, i: nat, it: Item)
    requires ChartOk(rules, toks, states, tree) && i + 1 < |states| && i < |toks|
    requires it in states[i] && it.Expects(toks[i].kind) && toks[i].kind !in rules
    requires it.rule.lhs == START ==> it.Advance() !in states[i + 1]
    ensures ChartOk(rules, toks, AddTo(states, i + 1, it.Advance()), tree)
  {
    hide Sound, Grounded, ItemsOk, LinksOk, StartOnce;
    var new_ := it.Advance();
    ScannedItem(rules, toks, states, tree, i, it);
    AddItemKeepsLinks(rules, states, tree, i + 1, new_);
    AddItemKeepsChart(rules, toks, states, tree, tree, i + 1, new_);
    AddItemKeepsStartOnce(states, i + 1, new_);
  }

  lemma LinkFacts(rules: Rules, toks: seq<Token>, states: States, tree: Links, l: Link)
    requires ChartOk(rules, toks, states, tree) && l in tree
    ensures tree[l] != []
    ensures forall c :: c in tree[l] ==> LinkOk(states, l, c)
  {
  }

  lemma AddLinkKeepsLinks(rules: Rules, states: States, tree: Links, l: Link, children: seq<Link>)
    requires LinksOk(rules, states, tree)
    requires l.1 < |states| && l.0 in states[l.1] && 0 < l.0.pos <= |l.0.rule.rhs| && l.0.rule.rhs[l.0.pos - 1] in rules
    requires children != [] && (forall c :: c in children ==> LinkOk(states, l, c))
    ensures LinksOk(rules, states, tree[l := children])
  {
    hide LinkOk;
  }

  lemma CompletedLink(rules: Rules, toks: seq<Token>, states: States, tree: Links, i: nat, it: Item, done: Item)
    requires ChartOk(rules, toks, states, tree) && i < |states| && done.parent <= i
    requires done in states[i] && done.Complete() && it in states[done.parent] && it.Expects(done.rule.lhs)
    ensures LinkOk(states, (it.Advance(), i), (done, i)) && done.rule.lhs in rules
    ensures Sound(rules, toks, it.Advance(), i)
    ensures it.rule.lhs == START ==> it.Advance().rule.lhs == START
  {
    ItemFacts(rules, toks, states, tree, done.parent, it);
    ItemFacts(rules, toks, states, tree, i, done);
    hide ChartOk, Derives, Grounded;
    CompletedIsSound(rules, toks, it, done, i);
    assert it.Advance().Retreat() == it;
  }

  /** Adding a completed item with its first tree pointer keeps the chart. */
  lemma CompleteStep(rules: Rules, toks: seq<Token>, states: States, tree: Links, i: nat, it: Item, done: Item)
    requires ChartOk(rules, toks, states, tree) && i < |states| && done.parent <= i
    requires done in states[i] && done.Complete() && it in states[done.parent] && it.Expects(done.rule.lhs)
    requires it.Advance() !in states[i]
    ensures ChartOk(rules, toks, AddTo(states, i, it.Advance()), tree[(it.Advance(), i) := [(done, i)]])
  {
    var new_ := it.Advance();
    var l, c := (new_, i), (done, i);
    var tree' := tree[l := [c]];
    var after := AddTo(states, i, new_);
    CompletedLink(rules, toks, states, tree, i, it, done);
    assert LinkOk(after, l, c);
    hide Sound, ItemsOk, LinksOk, StartOnce, LinkOk;
    AddItemKeepsChart(rules, toks, states, tree, tree', i, new_);
    AddItemKeepsStartOnce(states, i, new_);
    AddItemKeepsLinks(rules, states, tree, i, new_);
    AddLinkKeepsLinks(rules, after, tree, l, [c]);
  }

  /** So does a further pointer for an item that is there already. */
  lemma AnotherLinkStep(rules: Rules, toks: seq<Token>, states: States, tree: Links, i: nat, it: Item, done: Item)
    requires ChartOk(rules, toks, states, tree) && i < |states| && done.parent <= i
    requires done in states[i] && done.Complete() && it in states[done.parent] && it.Expects(done.rule.lhs)
    requires it.Advance() in states[i]
    ensures (it.Advance(), i) in tree
    ensures ChartOk(rules, toks, states, tree[(it.Advance(), i) := tree[(it.Advance(), i)] + [(done, i)]])
  {
    var l, c := (it.Advance(), i), (done, i);
    CompletedLink(rules, toks, states, tree, i, it, done);
    ItemFacts(rules, toks, states, tree, i, it.Advance());
    hide Sound, ItemsOk, StartOnce, LinkOk;
    var tree' := tree[l := tree[l] + [c]];
    assert tree.Keys <= tree'.Keys;
    LinkFacts(rules, toks, states, tree, l);
    hide LinksOk;
    AddLinkKeepsLinks(rules, states, tree, l, tree[l] + [c]);
    ItemsStay(rules, toks, states, tree, tree');
  }

  // ---------------------------------------------------------------- closed state sets

  /** The predictor's one-token filter: a rule that begins with a terminal is predicted only
      if that terminal is the current token. */
  predicate MayStart(rules: Rules, r: Rule, tok: Token) {
    |r.rhs| == 0 || r.rhs[0] in rules || tok.kind == r.rhs[0]
  }

  /** Everything the item calls for in state i has been added. */
  ghost predicate ItemClosed(rules: Rules, toks: seq<Token>, states: States, it: Item, i: nat)
    requires i < |toks| && i + 1 < |states|
  {
    if it.pos >= |it.rule.rhs| then
      it.parent < i ==> forall p :: p in states[it.parent] && p.Expects(it.rule.lhs) ==> p.Advance() in states[i]
    else if it.rule.rhs[it.pos] in rules then
      forall r :: r in rules[it.rule.rhs[it.pos]] && MayStart(rules, r, toks[i]) ==> Item(r, 0, i) in states[i]
    else
      toks[i].kind == it.rule.rhs[it.pos] ==> it.Advance() in states[i + 1]
  }

  ghost predicate StateClosed(rules: Rules, toks: seq<Token>, states: States, i: nat)
    requires i < |toks| && i + 1 < |states|
  {
    forall it :: it in states[i] ==> ItemClosed(rules, toks, states, it, i)
  }

  ghost predicate AllClosed(rules: Rules, toks: seq<Token>, states: States)
    requires |states| <= |toks| + 1
  {
    forall i :: 0 <= i < |states| - 1 ==> StateClosed(rules, toks, states, i)
  }

  /** The completeness step: if an item expects the root of a derivation tree whose tokens
      come next, closed state sets hold the item moved over that root. */
  lemma {:induction false} MovesOverTree(rules: Rules, toks: seq<Token>, states: States, it: Item, i: nat, k: nat,
                                         t: Tree)
    requires EpsilonFree(rules) && |states| <= |toks| + 1 && AllClosed(rules, toks, states)
    requires i <= k < |toks| && k + 1 < |states|
    requires it in states[i] && ValidTree(rules, t) && it.Expects(Root(t)) && Yield(t) == toks[i..k]
    ensures it.Advance() in states[k]
    decreases t, 1
  {
    TreeHasToken(rules, t);
    assert i < k && StateClosed(rules, toks, states, i) && ItemClosed(rules, toks, states, it, i);
    match t
    case Leaf(token) =>
      assert toks[i..k][0] == token && k == i + 1;
    case Node(rule, children) =>
      StartsWithToken(rules, rule, children, toks[i]) by {
        assert toks[i..k][0] == toks[i];
      }
      var predicted := Item(rule, 0, i);
      assert predicted in states[i];
      MovesOverForest(rules, toks, states, predicted, i, k, children);
      var done := Item(rule, |rule.rhs|, i);
      assert done in states[k];
      assert StateClosed(rules, toks, states, k) && ItemClosed(rules, toks, states, done, k);
  }

  /** ... and moved over a whole right side, tree by tree. */
  lemma {:induction false} MovesOverForest(rules: Rules, toks: seq<Token>, states: States, it: Item, i: nat, k: nat,
                                           f: seq<Tree>)
    requires EpsilonFree(rules) && |states| <= |toks| + 1 && AllClosed(rules, toks, states)
    requires i <= k < |toks| && k + 1 < |states|
    requires it in states[i] && it.pos == 0 && |f| <= |it.rule.rhs|
    requires ValidForest(rules, f, it.rule.rhs[..|f|]) && YieldAll(f) == toks[i..k]
    ensures Item(it.rule, |f|, it.parent) in states[k]
    decreases f, 0
  {
    if f == [] {
      assert i == k;
    } else {
      var init, last := f[..|f| - 1], f[|f| - 1];
      var m := i + |YieldAll(init)|;
      assert toks[i..m] == toks[i..k][..m - i] == YieldAll(init);
      assert toks[m..k] == toks[i..k][m - i..] == Yield(last);
      assert ValidForest(rules, init, it.rule.rhs[..|init|]);
      MovesOverForest(rules, toks, states, it, i, m, init);
      MovesOverTree(rules, toks, states, Item(it.rule, |init|, it.parent), m, k, last);
    }
  }

  /** The filter loses nothing: a rule that derives something beginning with `tok` passes it. */
  lemma StartsWithToken(rules: Rules, rule: Rule, children: seq<Tree>, tok: Token)
    requires EpsilonFree(rules) && ValidTree(rules, Node(rule, children))
    requires YieldAll(children) != [] && YieldAll(children)[0] == tok
    ensures MayStart(rules, rule, tok)
  {
    if rule.rhs != [] && rule.rhs[0] !in rules {
      var first := children[0];
      assert Root(first) == rule.rhs[0] && ValidTree(rules, first);
      assert first.Leaf?;
      assert children == [first] + children[1..];
      YieldAllConcat([first], children[1..]);
      assert [first][..0] == [] && YieldAll([first]) == YieldAll([]) + Yield(first);
    }
  }
}

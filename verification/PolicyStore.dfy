/** The store of named policies (`Policy.py`): texts by name, the code compiled from their
    concatenation, and the rollback when it does not parse. */
module PolicyStore {
  import opened Grammar
  import opened Options
  import opened PolicyGrammar
  import opened Reader
  import opened Lexicographic
  import PolicyValues
  import I = Interp
  import E = EvaluatorObject

  const DEFAULT_POLICY_NAME := "50_main_"

  // ---------------------------------------------------------------- sorted names

  predicate IsLeast(m: string, names: set<string>) {
    m in names && forall n :: n in names ==> n == m || Before(m, n)
  }

  lemma LeastExists(names: set<string>) returns (m: string)
    requires names != {}
    ensures IsLeast(m, names)
  {
    m :| m in names;
    if names != {m} {
      var rest := names - {m};
      var r := LeastExists(rest);
      Total(m, r);
      if Before(r, m) {
        m := r;
      } else {
        forall n | n in names && n != m
          ensures Before(m, n)
        {
          if n != r {
            Transitive(m, r, n);
          }
        }
      }
    }
  }

  lemma LeastIsUnique(names: set<string>)
    requires names != {}
    ensures exists m :: IsLeast(m, names)
    ensures forall m, n :: IsLeast(m, names) && IsLeast(n, names) ==> m == n
  {
    var _ := LeastExists(names);
    forall m, n | IsLeast(m, names) && IsLeast(n, names)
      ensures m == n
    {
      if m != n {
        Transitive(m, n, m);
        Irreflexive(m);
      }
    }
  }

  /** `sorted(names)` */
  function Sorted(names: set<string>): (s: seq<string>)
    ensures |s| == |names|
    ensures forall n :: n in s <==> n in names
    ensures forall i, j :: 0 <= i < j < |s| ==> Before(s[i], s[j])
  {
    if names == {} then [] else
      LeastIsUnique(names);
      var m :| IsLeast(m, names);
      [m] + Sorted(names - {m})
  }

  // ---------------------------------------------------------------- the text of all policies

  type Strings = map<string, string>

  function Texts(strings: Strings, names: seq<string>): seq<string>
    requires forall n :: n in names ==> n in strings
  {
    seq(|names|, i requires 0 <= i < |names| => strings[names[i]])
  }

  function Join(texts: seq<string>): string {
    if texts == [] then "" else if |texts| == 1 then texts[0] else texts[0] + "\n" + Join(texts[1..])
  }

  /** `_cat_policies`: the texts in the order of their names, joined by newlines; "0" if that
      is empty. */
  function Cat(strings: Strings): string {
    var text := Join(Texts(strings, Sorted(strings.Keys)));
    if text == "" then "0" else text
  }

  /** Where text k begins in the join: after the texts before it, each with its newline. */
  function Offset(texts: seq<string>, k: nat): nat
    requires k <= |texts|
  {
    if k == 0 then 0 else |texts[0]| + 1 + Offset(texts[1..], k - 1)
  }

  /** Text k stands at its place, and after a newline unless it is the first. */
  ghost predicate StandsAt(s: string, texts: seq<string>, k: nat)
    requires k < |texts|
  {
    && Offset(texts, k) + |texts[k]| <= |s|
    && s[Offset(texts, k)..Offset(texts, k) + |texts[k]|] == texts[k]
    && (k > 0 ==> s[Offset(texts, k) - 1] == '\n')
  }

  lemma {:induction false} OffsetGrows(texts: seq<string>, k: nat)
    requires k < |texts|
    ensures Offset(texts, k + 1) == Offset(texts, k) + |texts[k]| + 1
  {
    if k > 0 {
      OffsetGrows(texts[1..], k - 1);
    }
  }

  /** The join holds every text, in order, with one newline between two of them, and nothing else. */
  lemma {:induction false} JoinHolds(texts: seq<string>)
    requires texts != []
    ensures |Join(texts)| + 1 == Offset(texts, |texts|)
    ensures forall k :: 0 <= k < |texts| ==> StandsAt(Join(texts), texts, k)
  {
    if |texts| > 1 {
      var rest, s := texts[1..], Join(texts);
      JoinHolds(rest);
      assert s[|texts[0]| + 1..] == Join(rest);
      forall k | 0 <= k < |texts|
        ensures StandsAt(s, texts, k)
      {
        if k > 0 {
          assert StandsAt(Join(rest), rest, k - 1);
          HoldsFurther(s, texts, k);
        }
      }
    }
  }

  lemma HoldsFurther(s: string, texts: seq<string>, k: nat)
    requires 0 < k < |texts| && |texts[0]| < |s| && s[|texts[0]|] == '\n'
    requires StandsAt(s[|texts[0]| + 1..], texts[1..], k - 1)
    ensures StandsAt(s, texts, k)
  {
    var at, rest := |texts[0]| + 1, texts[1..];
    var o := Offset(rest, k - 1);
    assert Offset(texts, k) == at + o && rest[k - 1] == texts[k];
    assert s[at + o..at + o + |texts[k]|] == s[at..][o..o + |texts[k]|];
    if k == 1 {
      assert Offset(rest, 0) == 0;
    } else {
      assert s[at..][o - 1] == s[at + o - 1];
    }
  }

  /** What `_cat_policies` returns: "0" if there is no text, or a single empty one; otherwise all
      the texts in order of their names, with one newline between two of them. */
  lemma CatIs(strings: Strings)
    ensures var texts := Texts(strings, Sorted(strings.Keys));
            if texts == [] || texts == [""] then Cat(strings) == "0"
            else |Cat(strings)| + 1 == Offset(texts, |texts|) && forall k ::
              0 <= k < |texts| ==> StandsAt(Cat(strings), texts, k)
  {
    var texts := Texts(strings, Sorted(strings.Keys));
    hide Sorted;
    if texts != [] {
      JoinHolds(texts);
      if |texts| > 1 {
        OffsetGrows(texts, |texts| - 1);
      }
    }
  }

  // ---------------------------------------------------------------- the store as a value

  datatype Store = Store(strings: Strings, code: seq<Code>)

  /** `set_policy` returns True or False, or lets an exception through. */
  datatype Outcome = Accepted | Refused | IndexError | KeyError

  function Named(name: Option<string>): string {
    if name.Some? then name.value else DEFAULT_POLICY_NAME
  }

  function Updated(strings: Strings, name: string, text: Option<string>): Strings {
    if text.Some? then strings[name := text.value] else strings - {name}
  }

  type Scan = string -> seq<Token>

  function Set(scan: Scan, st: Store, name: Option<string>, text: Option<string>): (Outcome, Store) {
    var n := Named(name);
    var strings := Updated(st.strings, n, text);
    match CodeOf(scan(Cat(strings)))
    case Loaded(code) => (Accepted, Store(strings, code))
    case NoTokens => (IndexError, st.(strings := strings))
    case ParseError =>
      if n in st.strings then (Refused, st.(strings := strings[n := st.strings[n]]))
      else if n in strings then (Refused, st.(strings := strings - {n}))
      else (KeyError, st)
  }

  const Cleared: Store := Store(map[], [])

  // ---------------------------------------------------------------- the object

  class Policy {
    const scan: Scan
    var policyStrings: Strings
    var code: seq<Code>

    function Contents(): Store
      reads this
    {
      Store(policyStrings, code)
    }

    constructor (scan: Scan)
      ensures this.scan == scan && Contents() == Cleared
    {
      this.scan := scan;
      policyStrings, code := map[], [];
    }

    method ClearPolicy()
      modifies this
      ensures Contents() == Cleared
    {
      policyStrings, code := map[], [];
    }

    method GetString() returns (s: string)
      ensures s == Cat(policyStrings)
    {
      s := Cat(policyStrings);
    }

    method SetPolicy(name: Option<string>, policyStr: Option<string>) returns (out: Outcome)
      modifies this
      ensures (out, Contents()) == Set(scan, old(Contents()), name, policyStr)
      ensures var n := if name.Some? then name.value else DEFAULT_POLICY_NAME;
              var next := if policyStr.Some? then old(policyStrings)[n := policyStr.value]
                          else old(policyStrings) - {n};
              && (out == Accepted <==> CodeOf(scan(Cat(next))).Loaded?)
              && (out == Accepted ==> policyStrings == next && Loaded(code) == CodeOf(scan(Cat(next))))
              && (out == Refused || out == KeyError ==> policyStrings == old(policyStrings) && code == old(code))
    {
      hide CodeOf, Cat;
      AcceptedIffItParses(scan, Contents(), name, policyStr);
      var n := if name.None? then DEFAULT_POLICY_NAME else name.value;
      var oldStr := if n in policyStrings then Some(policyStrings[n]) else None;
      ghost var before := policyStrings;
      if policyStr.None? {
        if n in policyStrings {
          policyStrings := policyStrings - {n};
        } else {
          assert policyStrings - {n} == policyStrings;
        }
      } else {
        policyStrings := policyStrings[n := policyStr.value];
      }
      var r, _ := GetCode(scan(Cat(policyStrings)));
      match r {
        case Loaded(c) =>
          code := c;
          return Accepted;
        case NoTokens =>
          return IndexError;
        case ParseError =>
          if oldStr.None? {
            if n !in policyStrings {
              return KeyError;
            }
            policyStrings := policyStrings - {n};
          } else {
            policyStrings := policyStrings[n := oldStr.value];
          }
          return Refused;
      }
    }

    method FreshEvaluator(w: PolicyValues.World, host: PolicyValues.Value, guests: PolicyValues.Value)
      returns (evaluator: E.Evaluator)
      ensures fresh(evaluator) && fresh(evaluator.vars)
      ensures evaluator.w == w && evaluator.State() == I.Start(host, guests)
    {
      evaluator := new E.Evaluator(w);
      var _ := evaluator.vars.Allocate("Host", host);
      var _ := evaluator.vars.Allocate("Guests", guests);
    }

    /** One run of the policy, by an evaluator of its own: whether it came to the end (None if
        it does not end), and what it wrote. An exception ends it. */
    method Evaluate(w: PolicyValues.World, fuel: nat, host: PolicyValues.Value, guests: PolicyValues.Value)
      returns (ok: Option<bool>, log: seq<I.Write>)
      ensures match I.EvalAll(w, fuel, code, I.Start(host, guests))
              case Rets(_, env) => ok == Some(true) && log == env.log
              case NoRets(o) => ok == (if o.Raise? then Some(false) else None) && (o.Raise? ==> log == o.env.log)
    {
      hide I.Eval, I.Start;
      var evaluator := FreshEvaluator(w, host, guests);
      ghost var env := evaluator.State();
      var results := [];
      for n := 0 to |code|
        invariant I.EvalAll(w, fuel, code[..n], env) == I.Rets(results, evaluator.State())
        invariant fresh(evaluator) && fresh(evaluator.vars)
      {
        assert code[..n + 1][..n] == code[..n];
        var r := evaluator.Eval(fuel, code[n]);
        if !r.Returned? {
          E.AllStops(w, fuel, code, n + 1, env);
          return if r.Raised? then Some(false) else None, evaluator.log;
        }
        results := results + [r.v];
      }
      assert code[..|code|] == code;
      return Some(true), evaluator.log;
    }
  }

  // ---------------------------------------------------------------- one call

  /** What one call does, whatever the store: success replaces the text and the code together,
      refusal changes nothing at all. */
  lemma SetIsTransactional(scan: Scan, st: Store, name: Option<string>, text: Option<string>)
    ensures var (out, st') := Set(scan, st, name, text);
            && (out == Accepted ==>
                      st'.strings == Updated(st.strings, Named(name), text) &&
                      CodeOf(scan(Cat(st'.strings))) == Loaded(st'.code))
            && (out == Refused ==> st' == st)
            && (out == KeyError ==> st' == st)
  {
    hide CodeOf, Cat;
    var n := Named(name);
    RollbackRestores(st.strings, n, text);
  }

  lemma RollbackRestores(strings: Strings, n: string, text: Option<string>)
    ensures n in strings ==> Updated(strings, n, text)[n := strings[n]] == strings
    ensures n !in strings ==> Updated(strings, n, text) - {n} == strings
  {
  }

  /** When a call is accepted, and what it leaves: the outcome is that of parsing all texts with the
      new one in the old one's place, or without it. */
  lemma AcceptedIffItParses(scan: Scan, st: Store, name: Option<string>, text: Option<string>)
    ensures var n := if name.Some? then name.value else DEFAULT_POLICY_NAME;
            var next := if text.Some? then st.strings[n := text.value] else st.strings - {n};
            var (out, st') := Set(scan, st, name, text);
            && (out == Accepted <==> CodeOf(scan(Cat(next))).Loaded?)
            && (out == IndexError <==> CodeOf(scan(Cat(next))).NoTokens?)
            && (out == Refused <==> CodeOf(scan(Cat(next))).ParseError? && (n in st.strings || text.Some?))
            && (out == KeyError <==> CodeOf(scan(Cat(next))).ParseError? && n !in st.strings && text.None?)
            && (out == Accepted ==> st'.strings == next && Loaded(st'.code) == CodeOf(scan(Cat(next))))
            && (out == IndexError ==> st'.strings == next && st'.code == st.code)
            && (out == Refused || out == KeyError ==> st' == st)
  {
    hide CodeOf, Cat;
    RollbackRestores(st.strings, Named(name), text);
  }

  /** The exception to the rule, and exactly when it strikes: if what is left of the joined
      texts holds no token, `parse` indexes an empty list, and the new text stays although
      the code is not replaced. */
  lemma BlankTextEscapes(scan: Scan, st: Store, name: Option<string>, text: Option<string>)
    ensures Set(scan, st, name, text).0 == IndexError <==> scan(Cat(Updated(st.strings, Named(name), text))) == []
    ensures Set(scan, st, name, text).0 == IndexError ==>
              Set(scan, st, name, text).1 == Store(Updated(st.strings, Named(name), text), st.code)
  {
  }

  /** For instance a first policy that is a blank. */
  lemma BlankTextExample(scan: Scan)
    requires scan(" ") == []
    ensures Set(scan, Cleared, Some("a"), Some(" ")) == (IndexError, Store(map["a" := " "], []))
    ensures CodeOf(scan(Cat(map["a" := " "]))) == NoTokens
  {
    var strings: Strings := map["a" := " "];
    assert strings.Keys == {"a"};
    assert Sorted({"a"}) == ["a"] by {
      assert "a" in Sorted({"a"});
    }
    assert Texts(strings, ["a"]) == [" "];
    assert Updated(map[], "a", Some(" ")) == strings;
  }

  // ---------------------------------------------------------------- runs

  datatype Call = SetPolicy(name: Option<string>, text: Option<string>) | ClearPolicy

  function Apply(scan: Scan, st: Store, c: Call): Store {
    match c
    case SetPolicy(name, text) => Set(scan, st, name, text).1
    case ClearPolicy => Cleared
  }

  /** The store after these calls, exceptions caught by the caller. */
  function After(scan: Scan, calls: seq<Call>): Store {
    if calls == [] then Cleared else Apply(scan, After(scan, calls[..|calls| - 1]), calls[|calls| - 1])
  }

  /** The scanner reads "0" as a number: what the empty store is compiled as. */
  ghost predicate ReadsZero(scan: Scan) {
    scan("0") == [Token("number", IntLit(0))]
  }

  lemma ZeroParses(scan: Scan)
    requires ReadsZero(scan)
    ensures Cat(map[]) == "0" && CodeOf(scan("0")) == Loaded([Tok(scan("0")[0])])
  {
    assert Sorted({}) == [] && Texts(map[], []) == [];
    RunToken(Start, scan("0")[0]);
    assert [] + [Tok(scan("0")[0])] == [Tok(scan("0")[0])];
  }

  /** A run continued: a set whose texts parse leaves exactly these texts and their code; and it is
      refused exactly if they have a syntax error. */
  lemma RunsContinue(scan: Scan, calls: seq<Call>, name: Option<string>, text: Option<string>)
    requires ReadsZero(scan)
    ensures var n := if name.Some? then name.value else DEFAULT_POLICY_NAME;
            var st, st' := After(scan, calls), After(scan, calls + [SetPolicy(name, text)]);
            var next := if text.Some? then st.strings[n := text.value] else st.strings - {n};
            && (CodeOf(scan(Cat(next))).Loaded? ==> st'.strings == next && Loaded(st'.code) == CodeOf(scan(Cat(next))))
            && (Set(scan, st, name, text).0 == Refused <==> CodeOf(scan(Cat(next))).ParseError?)
            && (CodeOf(scan(Cat(next))).ParseError? ==> st' == st)
  {
    hide CodeOf, Cat, Set;
    var st := After(scan, calls);
    assert (calls + [SetPolicy(name, text)])[..|calls|] == calls;
    AcceptedIffItParses(scan, st, name, text);
    RunsAreNeverBroken(scan, calls);
    SetKeepsUnbroken(scan, st, name, text);
  }

  /** The stored texts never fail to parse for a syntax error. */
  ghost predicate NeverBroken(scan: Scan, st: Store) {
    CodeOf(scan(Cat(st.strings))) != ParseError
  }

  lemma SetKeepsUnbroken(scan: Scan, st: Store, name: Option<string>, text: Option<string>)
    requires NeverBroken(scan, st)
    ensures NeverBroken(scan, Set(scan, st, name, text).1)
    ensures Set(scan, st, name, text).0 != KeyError
  {
    hide CodeOf, Cat;
    var n := Named(name);
    RollbackRestores(st.strings, n, text);
    assert text.None? && n !in st.strings ==> Updated(st.strings, n, text) == st.strings;
  }

  lemma {:induction false} RunsAreNeverBroken(scan: Scan, calls: seq<Call>)
    requires ReadsZero(scan)
    ensures NeverBroken(scan, After(scan, calls))
  {
    ZeroParses(scan);
    hide CodeOf, Cat, Set;
    if calls != [] {
      var before := calls[..|calls| - 1];
      RunsAreNeverBroken(scan, before);
      match calls[|calls| - 1] {
        case SetPolicy(name, text) => SetKeepsUnbroken(scan, After(scan, before), name, text);
        case ClearPolicy =>
      }
    }
  }

  /** The rollback never deletes a name that is not there: no run raises KeyError. */
  lemma NoKeyError(scan: Scan, calls: seq<Call>, name: Option<string>, text: Option<string>)
    requires ReadsZero(scan)
    ensures Set(scan, After(scan, calls), name, text).0 != KeyError
  {
    RunsAreNeverBroken(scan, calls);
    hide After, NeverBroken, Set;
    SetKeepsUnbroken(scan, After(scan, calls), name, text);
  }

  /** If no call of the run raised, the code is that of the stored texts, or the store has
      just been cleared. */
  lemma {:induction false} CodeIsCurrent(scan: Scan, calls: seq<Call>)
    requires ReadsZero(scan)
    requires forall k :: 0 <= k < |calls| && calls[k].SetPolicy? ==>
               Set(scan, After(scan, calls[..k]), calls[k].name, calls[k].text).0 != IndexError
    ensures After(scan, calls) == Cleared ||
            CodeOf(scan(Cat(After(scan, calls).strings))) == Loaded(After(scan, calls).code)
  {
    hide CodeOf, Cat, Set;
    if calls != [] {
      var before := calls[..|calls| - 1];
      forall k | 0 <= k < |before| && before[k].SetPolicy?
        ensures Set(scan, After(scan, before[..k]), before[k].name, before[k].text).0 != IndexError
      {
        assert before[..k] == calls[..k];
      }
      CodeIsCurrent(scan, before);
      match calls[|calls| - 1] {
        case SetPolicy(name, text) =>
          NoKeyError(scan, before, name, text);
          SetIsTransactional(scan, After(scan, before), name, text);
        case ClearPolicy =>
      }
    }
  }

  // ---------------------------------------------------------------- policies are isolated

  function ScanAll(scan: Scan, texts: seq<string>): seq<Token> {
    if texts == [] then [] else scan(texts[0]) + ScanAll(scan, texts[1..])
  }

  /** No string or comment of these texts runs across the newline of a join: the scanner reads
      a join as it reads the texts one by one. */
  ghost predicate JoinsCleanly(scan: Scan, texts: iset<string>) {
    && scan("") == []
    && (forall ts: seq<string> :: (forall t :: t in ts ==> t in texts) ==> scan(Join(ts)) == ScanAll(scan, ts))
  }

  ghost predicate TextsIn(strings: Strings, texts: iset<string>) {
    forall n :: n in strings ==> strings[n] in texts
  }

  /** Every stored policy is by itself a possibly empty run of complete expressions. */
  ghost predicate Isolated(scan: Scan, strings: Strings) {
    forall n :: n in strings ==> Complete(scan(strings[n]))
  }

  /** The code of the policies, one after the other in the order of their names. */
  function CodesOf(scan: Scan, strings: Strings, names: seq<string>): seq<Code>
    requires forall n :: n in names ==> n in strings && Complete(scan(strings[n]))
  {
    if names == [] then [] else Values(scan(strings[names[0]])) + CodesOf(scan, strings, names[1..])
  }

  lemma {:induction false} ScanAllComplete(scan: Scan, strings: Strings, names: seq<string>)
    requires forall n :: n in names ==> n in strings && Complete(scan(strings[n]))
    ensures Complete(ScanAll(scan, Texts(strings, names)))
    ensures Values(ScanAll(scan, Texts(strings, names))) == CodesOf(scan, strings, names)
  {
    if names == [] {
      EmptyIsComplete();
    } else {
      ScanAllComplete(scan, strings, names[1..]);
      assert Texts(strings, names)[1..] == Texts(strings, names[1..]);
      CompleteConcat(scan(strings[names[0]]), ScanAll(scan, Texts(strings, names[1..])));
    }
  }

  lemma {:induction false} ScanAllConcat(scan: Scan, a: seq<string>, b: seq<string>)
    ensures ScanAll(scan, a + b) == ScanAll(scan, a) + ScanAll(scan, b)
  {
    if a == [] {
      assert a + b == b;
    } else {
      ScanAllConcat(scan, a[1..], b);
      TailOfConcat(a, b);
      Associates(scan(a[0]), ScanAll(scan, a[1..]), ScanAll(scan, b));
    }
  }

  lemma TailOfConcat<T>(a: seq<T>, b: seq<T>)
    requires a != []
    ensures (a + b)[0] == a[0] && (a + b)[1..] == a[1..] + b
  {
  }

  lemma Associates<T>(x: seq<T>, y: seq<T>, z: seq<T>)
    ensures x + (y + z) == x + y + z
  {
  }

  /** The tokens the store is compiled from, unless it falls back to "0". */
  function AllTokens(scan: Scan, strings: Strings): seq<Token> {
    ScanAll(scan, Texts(strings, Sorted(strings.Keys)))
  }

  /** The joined text is not empty. */
  predicate HasText(strings: Strings) {
    Join(Texts(strings, Sorted(strings.Keys))) != ""
  }

  lemma CatScans(scan: Scan, strings: Strings, texts: iset<string>)
    requires JoinsCleanly(scan, texts) && TextsIn(strings, texts)
    ensures scan(Join(Texts(strings, Sorted(strings.Keys)))) == AllTokens(scan, strings)
    ensures HasText(strings) ==> scan(Cat(strings)) == AllTokens(scan, strings)
  {
    var ts := Texts(strings, Sorted(strings.Keys));
    forall t | t in ts
      ensures t in texts
    {
    }
  }

  /** One text among others that are complete: if all together are complete, so is it. */
  lemma OneAmongComplete(scan: Scan, strings: Strings, n: string)
    requires n in strings && Complete(AllTokens(scan, strings))
    requires forall m :: m in strings && m != n ==> Complete(scan(strings[m]))
    ensures Complete(scan(strings[n]))
  {
    var names := Sorted(strings.Keys);
    var i :| 0 <= i < |names| && names[i] == n;
    var u, v := names[..i], names[i + 1..];
    forall m | m in u || m in v
      ensures m in strings && m != n
    {
      Irreflexive(n);
    }
    ScanAllComplete(scan, strings, u);
    ScanAllComplete(scan, strings, v);
    hide Complete, Run, Sorted;
    SplitAround(scan, strings, names, i);
    CompleteBetween(ScanAll(scan, Texts(strings, u)), scan(strings[n]), ScanAll(scan, Texts(strings, v)));
  }

  lemma SplitAround(scan: Scan, strings: Strings, names: seq<string>, i: nat)
    requires i < |names| && forall n :: n in names ==> n in strings
    ensures ScanAll(scan, Texts(strings, names)) ==
              ScanAll(scan, Texts(strings, names[..i])) + scan(strings[names[i]]) +
                ScanAll(scan, Texts(strings, names[i + 1..]))
  {
    var tu, tv, t := Texts(strings, names[..i]), Texts(strings, names[i + 1..]), strings[names[i]];
    assert Texts(strings, names) == tu + ([t] + tv);
    ScanAllConcat(scan, tu, [t] + tv);
    assert ([t] + tv)[1..] == tv;
  }

  /** The new text is the only one not known to be complete. */
  lemma SetKeepsIsolated(scan: Scan, st: Store, name: Option<string>, text: Option<string>, texts: iset<string>)
    requires JoinsCleanly(scan, texts) && TextsIn(st.strings, texts) && (text.Some? ==> text.value in texts)
    requires Isolated(scan, st.strings)
    ensures var (out, st') := Set(scan, st, name, text);
            && TextsIn(st'.strings, texts) && Isolated(scan, st'.strings)
            && (out == Accepted && HasText(st'.strings) ==>
               st'.code == CodesOf(scan, st'.strings, Sorted(st'.strings.Keys)))
  {
    hide CodeOf, Cat, Complete, Values, CodesOf, JoinsCleanly, AllTokens, HasText, Sorted;
    var n := Named(name);
    var strings := Updated(st.strings, n, text);
    CatScans(scan, strings, texts);
    LoadedIsValues(scan(Cat(strings)));
    RollbackRestores(st.strings, n, text);
    ScansNothing(scan, texts);
    if CodeOf(scan(Cat(strings))) != ParseError {
      LoadedIsIsolated(scan, st.strings, n, text);
      IsolatedCode(scan, strings);
    }
  }

  lemma IsolatedCode(scan: Scan, strings: Strings)
    requires Isolated(scan, strings)
    ensures Complete(AllTokens(scan, strings))
    ensures Values(AllTokens(scan, strings)) == CodesOf(scan, strings, Sorted(strings.Keys))
  {
    hide Complete, CodesOf;
    ScanAllComplete(scan, strings, Sorted(strings.Keys));
  }

  lemma LoadedIsValues(w: seq<Token>)
    ensures CodeOf(w).Loaded? ==> Complete(w) && CodeOf(w).code == Values(w)
  {
  }

  lemma ScansNothing(scan: Scan, texts: iset<string>)
    requires JoinsCleanly(scan, texts)
    ensures scan("") == []
  {
  }

  lemma LoadedIsIsolated(scan: Scan, strings: Strings, n: string, text: Option<string>)
    requires Isolated(scan, strings)
    requires var s := Updated(strings, n, text);
      CodeOf(scan(Cat(s))) != ParseError && (HasText(s) ==> scan(Cat(s)) == AllTokens(scan, s))
    requires scan("") == []
    ensures Isolated(scan, Updated(strings, n, text))
  {
    var s := Updated(strings, n, text);
    if n in s {
      if HasText(s) {
        OneAmongComplete(scan, s, n);
      } else {
        JoinEmpty(Texts(s, Sorted(s.Keys)));
        EmptyIsComplete();
      }
    }
  }

  lemma {:induction false} JoinEmpty(texts: seq<string>)
    requires Join(texts) == ""
    ensures forall t :: t in texts ==> t == ""
  {
  }

  /** Over every run: each stored policy is by itself a run of complete expressions, so
      removing one cannot break another; and the code a call compiles from a non-empty text is
      the codes of the single policies, in the order of their names. */
  lemma {:induction false} RunsAreIsolated(scan: Scan, calls: seq<Call>, texts: iset<string>)
    requires JoinsCleanly(scan, texts)
    requires forall k :: 0 <= k < |calls| && calls[k].SetPolicy? && calls[k].text.Some? ==> calls[k].text.value in texts
    ensures var st := After(scan, calls); TextsIn(st.strings, texts) && Isolated(scan, st.strings)
    ensures calls != [] && calls[|calls| - 1].SetPolicy? ==>
              var c, before, st := calls[|calls| - 1], After(scan, calls[..|calls| - 1]), After(scan, calls);
              Set(scan, before, c.name, c.text).0 == Accepted && HasText(st.strings) ==>
                st.code == CodesOf(scan, st.strings, Sorted(st.strings.Keys))
  {
    hide Set, HasText, CodesOf;
    if calls != [] {
      var before := calls[..|calls| - 1];
      RunsAreIsolated(scan, before, texts);
      match calls[|calls| - 1] {
        case SetPolicy(name, text) => SetKeepsIsolated(scan, After(scan, before), name, text, texts);
        case ClearPolicy =>
      }
    }
  }

  /** So a policy can always be withdrawn: removing a name is never refused. It succeeds, or
      raises if nothing but blanks and comments is left. */
  lemma RemovalIsNotRefused(scan: Scan, calls: seq<Call>, texts: iset<string>, name: Option<string>)
    requires JoinsCleanly(scan, texts) && ReadsZero(scan)
    requires forall k :: 0 <= k < |calls| && calls[k].SetPolicy? && calls[k].text.Some? ==> calls[k].text.value in texts
    ensures Set(scan, After(scan, calls), name, None).0 != Refused
  {
    hide JoinsCleanly, TextsIn, After, CodeOf, Complete, Values, Sorted, CodesOf, AllTokens;
    RunsAreIsolated(scan, calls, texts);
    var st := After(scan, calls);
    var strings := Updated(st.strings, Named(name), None);
    TextsStay(st.strings, Named(name), texts);
    CatScans(scan, strings, texts);
    IsolatedCode(scan, strings);
    if HasText(strings) {
      CompleteHasValues(AllTokens(scan, strings));
    } else {
      ZeroParses(scan);
    }
  }

  lemma TextsStay(strings: Strings, n: string, texts: iset<string>)
    requires TextsIn(strings, texts)
    ensures TextsIn(Updated(strings, n, None), texts)
  {
  }

  lemma CompleteHasValues(w: seq<Token>)
    requires Complete(w)
    ensures CodeOf(w) != ParseError
  {
  }
}

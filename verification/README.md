# The policies of the Memory Overcommitment Manager, verified

This project models two parts of the Memory Overcommitment Manager and proves what they promise.

**The policy language.** Policies are small Lisp-like programs. Their tokens go through a general
Earley parser (`Grammar`, `EarleyChart`, `Earley`) that is given the grammar of the policy language
(`PolicyGrammar`). `Reader` is an independent definition of what that grammar means: a reader with a
stack of open brackets, to which the parser is proved equal on every sequence of tokens, and of the
token it blames. `EmptySides` is a grammar on which the parser rejects a sentence. `RoundTrip`
prints expressions and reads them back. The evaluator is defined twice: as functions of the code and
the evaluator's state (`PolicyValues`, `Interp`), about which the scope rules are proved (`Scope`,
and `Definitions` for a name that is bound again), and as the objects it really is
(`EvaluatorObject`), whose methods are proved to do what the functions say. `Builtins` says what the
functions that only compute are for. `PolicyStore` is the store of named policies with its rollback,
and runs a policy. `EvalRules` are rules for reasoning about programs; with them the shipped program
`doc/balloon.rules` is verified from its tokens to the targets it sets (`BalloonRules`,
`BalloonTargets`, `BalloonRun`, `BalloonText`), for any host and any guests.

**The memory schedulers.** `Fairness` proves what Jain's index and its gradient mean. `Machines` is
what the two schedulers built on it know of the VMs and do alike, with the estimation of speed in
`Fitting`; `Gradient` is the scheduler that climbs the gradient, `RankPolicy` the one that ranks the VMs.
`Greedy` is filling in an order, used by `Combination` (surplus and deficit against fair shares)
and `WorksetFilling` (working sets over a minimum); `UserFairness` is progressive filling between
users over all rounds. `Numbers`, `Products`, `Sums` and `Ranking` are their arithmetic and order.

How things are stated:

- Parser, evaluator, store and schedulers are classes whose fields change as the program's do.
  Each method is proved against a function of the state before it, or against a property that
  determines the result; lemmas then state what that means over whole runs.
- User functions of a policy may recurse without end, so evaluation takes `fuel` and may time out.
  `Scope.FuelIsEnough` shows that the fuel makes no difference to an evaluation that ends.
- What a policy asks of the host program (attributes, foreign calls, Python's operations on values
  that are not numbers) is a parameter, the `World`; calls of `Control` are recorded as writes.
- Floats are exact reals. Whole numbers stay whole, and their quotients round down, as in Python 2.
- Weights are positive, as the schedulers assume when they divide by them.
- The order in which a Python dictionary is walked is the order of a sequence, any sequence.

Where the code does something its own documentation or design does not say:

- A policy text without any token (blank, or only comments) is not a syntax error. The parser
  indexes an empty list, and the store keeps the text although the code was not replaced.
  `PolicyStore.BlankTextEscapes` says exactly when; `PolicyStore.BlankTextExample` is such a text.
- The parser can miss a sentence when a rule whose right side is not empty derives nothing:
  `EmptySides.EmptySidesExample`. Without empty right sides it misses none
  (`Earley.GenericParser.BuildChart`, `Earley.GenericParser.Parse`).
- The second argument of a call is evaluated where the first parameter is already bound:
  `EvalRules.SecondSeesFirst` is a call on which that matters, and a variable as second argument
  is the caller's, whatever the first is, exactly if it is not named as the first parameter
  (`EvalRules.SecondIsCallers`).
- A round that evens out free memory loses what the division of whole numbers leaves over, and loses
  nothing exactly if the free memory is no whole number or a multiple of the number of VMs:
  `Machines.BalancedTotal`, with `Machines.LossExample`.
- `RPPolicy.setBalloon` may refuse what was just allocated, and the allocation stays. As long as no VM
  is idle the targets issued remain covered by the allocations all the same
  (`RankPolicy.RPPolicy.Run`). When only some VMs are idle, a round keeps every VM's
  last target within its allocation exactly if it leaves no VM that has a target below the minimum,
  and no other below nothing (`RankPolicy.RPPolicy.MeanRound`); in `RankPolicy.MeanRoundExample` the
  targets come to more than all memory.
- Under a deficit, `FUPolicy` hands out more memory than there is exactly if the demands, each cut
  to its fair share, do not fit: `Combination.DeficitMet`, with `Combination.OverAllocation`.

## Model

| member | source | states |
|---|---|---|
| Earley.GenericParser.constructor | mom/Policy/spark.py:106-147 | the rule table files every production, in order, under its left side, and START has the start rule alone |
| Earley.FiledAre | mom/Policy/spark.py:106-128 | the table holds exactly the given productions, each under its own left side |
| Earley.AugmentedIsWellFormed | mom/Policy/spark.py:137-147 | if no production names START or EOF, collecting and augmenting gives a well-formed grammar |
| EarleyChart.MovesOverTree | mom/Policy/spark.py:214-328 | completeness: in closed state sets, an item before a symbol that derives tokens i..k is found moved over that symbol in state k |
| EarleyChart.MovesOverForest | mom/Policy/spark.py:214-328 | the same over a whole right side, tree by tree |
| EarleyChart.StartsWithToken | mom/Policy/spark.py:310-321 | the one-token filter of the predictor discards no rule that derives something beginning with the current token |
| EarleyChart.CompletedIsSound | mom/Policy/spark.py:226-246 | soundness of the completer: if an item has derived tokens up to where a completed one began, the item moved on has derived all tokens up to here |
| Earley.GenericParser.BuildState | mom/Policy/spark.py:214-328 | the worklist ends; it keeps every item sound and every tree pointer right, and closes the state: everything predictor, completer and scanner call for is there; and an item moved within the state occurs once, below the completed item that moved it |
| Earley.GenericParser.BuildChart | mom/Policy/spark.py:190-209 | acceptance means the start symbol derives the tokens; without empty right sides also the converse, and a state that came out empty means no sentence begins with the tokens before it; up to there every token was scanned |
| Earley.SentenceIsFound | mom/Policy/spark.py:198-207 | closed charts end with the completed start item if the tokens before EOF are a sentence |
| Earley.DeadPrefix | mom/Policy/spark.py:201-209 | if state i is empty, no continuation of the first i tokens is a sentence |
| Earley.FoundIsSentence | mom/Policy/spark.py:207 | a sound completed start item is a derivation of the tokens before EOF |
| Earley.NothingElseAfterEOF | mom/Policy/spark.py:207 | after EOF the state list is empty or holds the completed start item once, although state lists may hold duplicates |
| Earley.WalkGoesDown | mom/Policy/spark.py:361-372 | the walk terminates: a child's span is shorter, or as long and its left side ranks lower among the unit rules |
| Earley.GenericParser.Ambiguity | mom/Policy/spark.py:379-413 | among several pointers, the last one whose rule has the least name among the shortest rules |
| Earley.GenericParser.BuildTreeR | mom/Policy/spark.py:335-377 | the walk replaces its span on the stack by the fold of the actions over a valid derivation tree that yields exactly the tokens of the span |
| Earley.GenericParser.Parse | mom/Policy/spark.py:190-212 | returns exactly if the start symbol derives the tokens, with the fold of the actions over a genuine derivation tree; otherwise blames a token before which every token can be reached, and with which no sentence begins or the tokens end, or none if there are no tokens |
| EmptySides.NeverPassed | mom/Policy/spark.py:226-262 | with the rules S → A A c, A → B B and B → (nothing), no item of the first state gets behind the second A |
| EmptySides.EmptySidesExample | mom/Policy/spark.py:190-209 | so the parser rejects the token c, although S derives it: without the condition on right sides completeness is false |
| PolicyGrammar.GrammarIsParsable | mom/Policy/Parser.py:123-165 | the policy grammar is well formed, has no empty right sides, and its unit rules are acyclic |
| PolicyGrammar.RulesAre | mom/Policy/Parser.py:123-165 | its rule table has exactly these productions and nonterminals |
| Reader.GrammarIsReader | mom/Policy/Parser.py:118-165 | the grammar derives a token sequence exactly if the bracket reader reads it, unbalanced input included, and every derivation tree has the reader's value |
| Reader.ListTreeReads | mom/Policy/Parser.py:123-130 | the value of any derivation of value_list is the list of values the reader reads |
| Reader.GetCode | mom/Policy/Parser.py:531-538 | the Earley parser run on the policy grammar returns what the bracket reader reads, an error exactly if it reads nothing, and none to blame on empty input; the token the error is near is the first at which the reader is stuck, or the last if brackets stay open, unless a token is of the reserved kind EOF |
| Reader.BlameIsReaders | mom/Policy/spark.py:201-209 | whatever token of a policy the parser may blame, it is that one, for any tokens not of the reserved kind EOF |
| Reader.CanGoOn | mom/Policy/Parser.py:123-165 | tokens at which the reader is not stuck are the beginning of a policy |
| Reader.CompleteBetween | mom/Policy/Parser.py:123-165 | what stands between complete runs of expressions in a complete run is complete itself |
| RoundTrip.ParsePrint | mom/Policy/Parser.py:118-165 | parsing the print of any non-empty list of expressions gives them back |
| RoundTrip.ParseText | mom/Policy/Parser.py:118-165 | the parser reads any text of tokens and balanced brackets of the three kinds as the code it stands for |
| RoundTrip.PrintParse | mom/Policy/Parser.py:132-151 | printing what was parsed gives the tokens with every bracket made round and braces as calls of eval, which parse to the same |
| RoundTrip.CurlyIsEvalCall | mom/Policy/Parser.py:146-151 | anywhere in the input, `{ ... }` reads as `(eval ...)` does |
| RoundTrip.SquareIsRound | mom/Policy/Parser.py:139-144 | anywhere in the input, `[ ... ]` reads as `( ... )` does |
| PolicyStore.Policy.SetPolicy | mom/Policy/Policy.py:50-74 | accepted exactly if the join of the texts, this one replaced or removed, parses, and then these are the texts and that parse the code; refused, it leaves both as they were |
| PolicyStore.AcceptedIffItParses | mom/Policy/Policy.py:50-74 | accepted exactly if the new join parses, refused exactly if it has a syntax error, and the exception escapes exactly if it holds no token; with the state each leaves |
| PolicyStore.Policy.ClearPolicy | mom/Policy/Policy.py:76-79 | empties the store |
| PolicyStore.CatIs | mom/Policy/Policy.py:42-48 | "0" if there is no text or a single empty one, else every text stands in the join in order of the names, with one newline between two of them and nothing else |
| PolicyStore.Policy.Evaluate | mom/Policy/Policy.py:81-99 | runs the code in a fresh evaluator with Host and Guests bound; true if every expression returned, false at the first exception, with what was written by then |
| PolicyStore.Sorted | mom/Policy/Policy.py:47 | every name once, each before the next |
| Lexicographic.BeforeIs | mom/Policy/Policy.py:47 | the order of names: a proper prefix first, else by the first character that differs |
| PolicyStore.SetIsTransactional | mom/Policy/Policy.py:50-74 | acceptance replaces text and code together and the code is the parse of the join; refusal leaves the store exactly as it was |
| PolicyStore.BlankTextEscapes | mom/Policy/Policy.py:63-71 | the exception escapes exactly if the joined texts hold no token, and then the text stays and the code is not replaced |
| PolicyStore.BlankTextExample | mom/Policy/Policy.py:63-71 | a blank text set on an empty store is kept, with a join that does not parse |
| PolicyStore.RunsAreNeverBroken | mom/Policy/Policy.py:50-79 | after any run of set and clear, the join of the stored texts parses or holds no token |
| PolicyStore.CodeIsCurrent | mom/Policy/Policy.py:50-79 | after any run in which no joined text was without tokens, the code is the parse of the join, or the store was just cleared |
| PolicyStore.RunsContinue | mom/Policy/Policy.py:50-74 | after any run, a set whose new join parses leaves exactly these texts and that code, and one whose join does not is refused and changes nothing |
| PolicyStore.NoKeyError | mom/Policy/Policy.py:67-68 | the rollback never deletes a name that is not there |
| PolicyStore.RunsAreIsolated | mom/Policy/Policy.py:42-74 | if texts scan as their concatenation does, then after any run every stored policy is by itself a run of complete expressions, and the code an accepted set leaves is the concatenation of the policies' codes in order of their names |
| PolicyStore.RemovalIsNotRefused | mom/Policy/Policy.py:56-61 | so removing a policy is never refused |
| Scope.EvalIsOrderly | mom/Policy/Parser.py:215-296 | every evaluation that returns keeps the frames and all their names, adds names only to the innermost, and changes no variable that is bound in a frame further in; an exception leaves further frames on top |
| Scope.ReturnsRestoreScopes | mom/Policy/Parser.py:298-333 | after an evaluation that returns, the stack has the same frames, no name is lost, and none is added to an outer frame |
| Scope.BoundNameShields | mom/Policy/Parser.py:404-432 | when a name is bound in the innermost scope, no code evaluated there changes what the name means outside |
| Scope.AssignHitsInnermost | mom/Policy/Parser.py:323-333 | `set` changes the innermost frame that has the name and nothing else, and fails exactly if none has it |
| Scope.FuelIsEnough | mom/Policy/Parser.py:258-296 | an evaluation that ends gives the same result with more fuel |
| EvaluatorObject.VariableStack.Lookup | mom/Policy/Parser.py:308-321 | the search through the scopes finds what Get defines, attributes included |
| EvaluatorObject.VariableStack.SetInnermost | mom/Policy/Parser.py:323-333 | the loop assigns where Assign says, and fails where it does |
| EvaluatorObject.VariableStack.Allocate | mom/Policy/Parser.py:323-326 | a name that is in the innermost scope keeps its value, which is returned, and the stack stays as it was; else that scope gains just this name with the new value, and no other scope changes |
| Definitions.DefVarKeepsFirst | mom/Policy/Parser.py:400-402 | `(defvar x e)` returns the value x has in the innermost scope after e, if it is there, and leaves the stack as e did; else it returns the value of e, and that scope gains just x with it |
| Definitions.SecondBindingIsIgnored | mom/Policy/Parser.py:404-420 | in a `let` that binds one name twice, the second expression is evaluated but does not bind, and the body is evaluated in what it leaves |
| Definitions.InnermostIsFound | mom/Policy/Parser.py:308-321 | a name means what the innermost scope says in which it is found, attributes included, and nothing exactly if none has it |
| Definitions.MultipleDefvars | tests/ParserTests.py:322-330 | three `defvar`s of one name with any values, and uses between them, all return the first value |
| EvaluatorObject.Evaluator.Eval | mom/Policy/Parser.py:258-296 | the object's evaluation has the result and leaves the state that the function Eval gives |
| EvaluatorObject.Evaluator.TreatArgs | mom/Policy/Parser.py:215-256 | treating the arguments in place, in order, as the doc string asks |
| EvaluatorObject.Evaluator.CLet | mom/Policy/Parser.py:404-420 | bindings one after another in a new scope, then the body, then the scope is left, unless an exception skips that |
| EvaluatorObject.Evaluator.CWith | mom/Policy/Parser.py:422-432 | the body once for every item, each in a scope of its own |
| EvaluatorObject.Evaluator.DefaultCall | mom/Policy/Parser.py:370-383 | `eval`, or a defined function as a `let` of its parameters around its body |
| EvalRules.MeansCall2 | mom/Policy/Parser.py:370-383 | a call of a two-parameter function: arguments evaluated inside the new scope one after another, then the body, then the scope is left; given fuel enough it returns exactly if the body does |
| EvalRules.MeansTwo | mom/Policy/Parser.py:215-256 | given fuel enough, a built-in of two values returns exactly if both arguments and the operation do, with its result, and otherwise raises an exception |
| EvalRules.MeaningIsUnique | mom/Policy/Parser.py:258-296 | an expression has one meaning in a state: with fuel enough it either returns one value and state, or raises an exception |
| EvalRules.SecondSeesFirst | mom/Policy/Parser.py:370-383 | with (def f (x y) y), the call (f 1 x) returns 1, whatever the caller's x is |
| EvalRules.SecondIsCallers | mom/Policy/Parser.py:404-420 | a variable as second argument means what it does for the caller, for every first argument, exactly if it is not named as the first parameter |
| EvalRules.EvalAllConcat | mom/Policy/Policy.py:89-92 | evaluating two lists of expressions one after the other, an exception in the first ending both |
| Builtins.AndOrGive | mom/Policy/Parser.py:490-502 | `and` gives the first false argument or the last, `or` the first true one or the last, and without arguments they raise an exception |
| Builtins.Truths | mom/Policy/Parser.py:490-506 | `and` is true exactly if all arguments are, `or` if any is, and `not` if its only one is not |
| Builtins.NullAndValid | mom/Policy/Parser.py:516-529 | `null` is true exactly if every argument is None or an empty string or list, `valid` if none is None |
| Builtins.Extremes | mom/Policy/Parser.py:508-514 | of numbers, `max` gives the first of the greatest, `min` the first of the least |
| Builtins.DivGives | mom/Policy/Parser.py:454-456 | a quotient of whole numbers leaves a remainder between nothing and the divisor, of its sign; any other multiplies back; only division by nothing raises an exception |
| Builtins.ShlGives | mom/Policy/Parser.py:482-484 | shifting by nothing leaves a number, and by one more doubles it; by less than nothing raises an exception |
| Builtins.ShrGives | mom/Policy/Parser.py:486-488 | shifting right gives the greatest number that, shifted back, is no more, and so undoes a shift left |
| BalloonTargets.MeansChanged | doc/balloon.rules:27-32 | `change_big_enough` run on a guest returns: 1 exactly if the proposed size differs from the current by more than 0.0025 of it, else 0 |
| BalloonTargets.ShrinkMeans | doc/balloon.rules:34-63 | the body of `shrink_guest`, run for any guest and host, returns exactly if both averages can be had, and otherwise raises an exception with nothing written; it leaves the caller's scopes as they were, and writes the one target ShrinkTarget gives, if it gives one |
| BalloonTargets.GrowMeans | doc/balloon.rules:65-87 | the same of `grow_guest` and GrowTarget; a guest that is not ballooned is left alone |
| BalloonTargets.ShrinkBounds | doc/balloon.rules:53-63 | a shrink target is at least the minimum and 0.95 of the current size, at most the current size, and further from it than 0.0025 of it |
| BalloonTargets.GrowBounds | doc/balloon.rules:67-85 | a grow target is above the current size, at most the maximum, and a big enough change |
| BalloonRun.EachGuest | doc/balloon.rules:99-101 | from some fuel on, the `with` over any list of guests issues exactly their targets in order if all can answer, and otherwise stops with an exception at the first that cannot, with exactly the targets of the guests before it |
| BalloonRun.RunSetsTargets | doc/balloon.rules:1-101 | from some fuel on, a run of the whole program from a fresh evaluator ends: with exactly the targets of the guests, shrunk or grown, in order, if the host's share can be had and all guests can answer; else with an exception, nothing written if there is no share, and exactly the targets of the guests before the first that cannot answer if there is |
| BalloonRun.EveryRunThatEnds | doc/balloon.rules:1-101 | a run with any fuel that does not time out ends so |
| BalloonRun.RunIsSafe | doc/balloon.rules:34-101 | however the run ends, every target written by then is for one of the guests and within its bounds |
| BalloonText.TextIsProgram | doc/balloon.rules:1-101 | the program's text, in its own brackets, stands for the code these theorems are about |
| BalloonText.ProgramParses | doc/balloon.rules:1-101 | the parser, given the program's tokens in order of the text, braces included, returns that code |
| BalloonText.TextRuns | doc/balloon.rules:1-101 | so what the parser makes of the text, run for any host and guests, ends as above |
| Fairness.JainRange | mom/Policy/GradientPolicy.py:221-239 | for any number of rates that are not negative and not all zero, fairness lies in [1/n, 1] and is 1 exactly if all rates are equal |
| Fairness.SpreadIs | mom/Policy/GradientPolicy.py:239 | n times the sum of squares exceeds the square of the sum by the squared distances of all pairs |
| Fairness.JainIs | mom/Policy/GradientPolicy.py:236 | what fairness lacks of 1, times the number of rates and the sum of their squares, is their spread |
| Fairness.GradientIs | mom/Policy/GradientPolicy.py:216-248 | the gradient computed from the sums over the other VMs is (Σr² − r·Σr)/w, and its sign |
| Fairness.PositiveGradient | mom/Policy/GradientPolicy.py:216-248 | when some other rate is positive, the gradient is positive exactly if some raise of the rate raises fairness, then every raise up to a/b does, and otherwise every raise lowers it |
| Fairness.NegativeGradient | mom/Policy/GradientPolicy.py:216-248 | negative exactly if some lowering raises fairness, then every one down to a/b does, and otherwise every lowering lowers it |
| Fairness.SignsOfGradients | mom/Policy/GradientPolicy.py:221-248 | positive rates that differ give some VM a positive and some VM a negative gradient; equal rates give none |
| Fairness.TakerIsBehind | mom/Policy/GradientPolicy.py:97-109 | a VM with a positive gradient has a smaller rate than one with a negative gradient |
| Fitting.SpeedIsShare | mom/Policy/GradientPolicy.py:542-555 | a speed entry of a sample that is not negative lies in [0,1] for any regression output, and is 1 exactly if the sample reaches the standard |
| Fitting.SpeedIs | mom/Policy/GradientPolicy.py:542-555 | times the greater of sample and standard a speed entry is the sample; where that is nothing it is 1 |
| Fitting.MeanOfShares | mom/Policy/GradientPolicy.py:513-514 | the mean of such entries lies in [0,1] |
| Fitting.MeanCancels | mom/Policy/GradientPolicy.py:513-514 | the mean is the one value from which the deviations cancel |
| Fitting.Fitting.AppendStandard | mom/Policy/GradientPolicy.py:542-555 | the entry appended is computed from the standard value appended just before, also through the index -1 |
| Fitting.Fitting.GetSpeed | mom/Policy/GradientPolicy.py:494-514 | a speed exactly once there are samples for a window of averages, in `GradientPolicy` from the seventh on; which entries it appends, the first fit one for every sample; the result is their mean, and lies in [0,1] if no sample was negative, for any regression output |
| Fitting.Fitting.Update | mom/Policy/GradientPolicy.py:480-491 | records the samples, and the averages once there are as many as they are over; every entry remains a share if no sample was negative |
| Machines.VMInfo.constructor | mom/Policy/GradientPolicy.py:294-315 | a VM joins with nothing allocated, speed 0 and no target |
| Machines.VMInfo.Update | mom/Policy/GradientPolicy.py:378-400 | what a report changes; speed stays in [0,1] as long as the progress counter does not run backwards, and the rate is speed over weight |
| Machines.VMInfo.SetBalloon | mom/Policy/GradientPolicy.py:415-420 | issues the allocation exactly if it lies between the minimum and what is configured |
| Machines.RatesAreNonNegative | mom/Policy/GradientPolicy.py:224-228 | unless the counter of a guest decreased from one of its reports to a later one, no rate is negative |
| Gradient.GradientPolicy.UpdateGradient | mom/Policy/GradientPolicy.py:221-251 | sets Jain's index and every VM's gradient, or nothing exactly if a rate is negative or none is positive |
| Gradient.GradientPolicy.UpdateStep | mom/Policy/GradientPolicy.py:271-282 | halves a VM's step exactly if its gradient changed sign since its last direction, and notes the new direction |
| Gradient.SteppedIs | mom/Policy/GradientPolicy.py:271-282 | a step is halved, a whole number rounded down, exactly if the gradient has the other sign than the one noted; the sign is noted unless it is none |
| Gradient.GradientPolicy.Select | mom/Policy/GradientPolicy.py:96-109 | the giver has the least of the negative gradients, the taker the greatest of the positive ones below full speed; none exactly if there is none such |
| Gradient.SelectionFinds | mom/Policy/GradientPolicy.py:96-112 | rates positive and different: a giver is found, and a taker if no VM is at full speed; rates equal: neither |
| Gradient.TakerBehindGiver | mom/Policy/GradientPolicy.py:96-112 | the taker's rate is strictly smaller than the giver's |
| Gradient.GradientPolicy.PerfFair | mom/Policy/GradientPolicy.py:85-114 | if both are found they differ, and exactly one block, the least of the four limits, is to move from one to the other |
| Gradient.BlockIsLeast | mom/Policy/GradientPolicy.py:112 | the block is the greatest amount within all four limits |
| Machines.MeanByFree | mom/Policy/GradientPolicy.py:117-135 | every VM is to give or take the difference of its free memory to the mean, rounded down if all are whole numbers |
| Machines.UpdateInfos | mom/Policy/GradientPolicy.py:156-163 | after all reports the VMs are just the guests that ever reported, under one name each; each has the weight, configuration and starting counter of its first report, the memory and counter of its last, and the progress samples between them; joiners have nothing, no target and the given step, and allocations, targets and steps of the others stay |
| Machines.SamplesGrow | mom/Policy/GradientPolicy.py:378-400 | the samples of a guest whose counter never decreases are not negative |
| Machines.BalancedTotal | mom/Policy/GradientPolicy.py:117-135 | those moves add up to minus the remainder of the division: to nothing exactly if the free memory is no whole number or a multiple of the number of VMs |
| Machines.LossExample | mom/Policy/GradientPolicy.py:117-135 | two VMs, one idle, whose moves lose a unit |
| Machines.MovedTotal | mom/Policy/GradientPolicy.py:111-114 | the moves of a fairness round add up to nothing |
| Machines.TriggerBalloon | mom/Policy/GradientPolicy.py:149-152 | adds each VM's block to its allocation and sets its balloon, in whatever order |
| Machines.TotalRaised | mom/Policy/GradientPolicy.py:149-152 | the total changes by the sum of the blocks |
| Gradient.GradientPolicy.WarmUp | mom/Policy/GradientPolicy.py:166-175 | the first four rounds, and only these, give every VM an equal share of all the memory |
| Machines.TotalShared | mom/Policy/GradientPolicy.py:166-175 | which together is exactly the memory there is |
| Machines.TotalWithJoiners | mom/Policy/GradientPolicy.py:156-163 | VMs that join leave the total as it was |
| Machines.CarryOut | mom/Policy/GradientPolicy.py:206-207 | the total changes by the sum of the moves; every VM of them gets its block and its balloon is set, and no other VM changes |
| Machines.CarriedBlock | mom/Policy/GradientPolicy.py:206-207 | one block moved: the giver has that much less, the taker that much more, both are told, the others stay |
| Machines.CarriedEvenly | mom/Policy/GradientPolicy.py:206-207 | free memory evened out: every VM has its allocation and the mean less what it had free, and is told |
| Gradient.GradientPolicy.FairMoves | mom/Policy/GradientPolicy.py:85-114 | what is decided when every VM is busy: fairness, gradients and steps of every VM, who gives, who takes and the block between them, and moves that add up to nothing |
| Gradient.GradientPolicy.Rebalance | mom/Policy/GradientPolicy.py:189-207 | where every VM ends up. All busy: the giver and the taker that Selected describes, if there are both, have the least of the four limits less and more, and are told, and nothing else moves. Some busy: every VM has its allocation and the mean less what it had free, and is told. All idle: nothing changes. The total falls by what the division leaves over, or stays |
| Gradient.GradientPolicy.Evaluate | mom/Policy/GradientPolicy.py:178-212 | one round, VM by VM: in the first four every VM has an equal share and is told, later they end up as in Rebalance, joiners starting from nothing; the total is the memory at first, stays in fairness and idle rounds, and else falls by less than the number of VMs; and no rate is negative as long as no counter ran backwards over all reports so far |
| Gradient.GradientPolicy.Run | mom/Policy/GradientPolicy.py:178-212 | over any run with fixed memory, any reports and positive weights the total allocated never exceeds the memory, and falls short by less than the number of VMs a round; if no counter decreases over the reports, no rate is negative, so that error branch of the gradient is not taken |
| Ranking.OrderIs | mom/Policy/RPPolicy.py:119 | sorting by key is a permutation, ascending, and stable |
| RankPolicy.RPPolicy.UpdateFairness | mom/Policy/RPPolicy.py:92-114 | Jain's index of the rates, for every VM, exactly if all rates are positive |
| RankPolicy.RPPolicy.DynamicAllocate | mom/Policy/RPPolicy.py:92-140 | the giver is the highest in rank that has memory to spare, the taker the lowest and another VM, no ahead of the giver; nothing moves if a rate is not positive, there is one VM, or only the lowest has any to spare |
| RankPolicy.BlockIsLeast | mom/Policy/RPPolicy.py:330-338 | the block is the greatest amount within what the giver has above the minimum, what the taker lacks of 200000 free, if it lacks any, and 40000 |
| RankPolicy.BlockFits | mom/Policy/RPPolicy.py:130-140 | the block is not negative and leaves the giver its minimum |
| RankPolicy.KeptAfter | mom/Policy/RPPolicy.py:342-347 | setting the balloon keeps the last target within what is allocated and configured, also when it is refused, exactly if the allocation is at least the minimum, or not negative when there was no target yet |
| RankPolicy.IssuedIsCovered | mom/Policy/RPPolicy.py:342-347 | so the targets last issued together are covered by the allocations |
| RankPolicy.RPPolicy.FairRound | mom/Policy/RPPolicy.py:92-140 | when every VM is busy and all rates are positive, the last in the order of rates with anything above the minimum loses the block to the first, both are told, and all others stay; else, or if that is the first itself, no allocation and no target changes. The total stays, no VM falls below its minimum, and the last targets stay within the allocations |
| RankPolicy.RPPolicy.MeanRound | mom/Policy/RPPolicy.py:143-161 | when only some are: what every VM is left with and told, what the total loses, and that the last targets stay within the allocations exactly if no VM falls below what it must keep |
| RankPolicy.MeanRoundExample | mom/Policy/RPPolicy.py:143-161 | two VMs on 2300000, of which one falls below the minimum and is not told: the targets last issued come to 2400000 |
| RankPolicy.RPPolicy.Rebalance | mom/Policy/RPPolicy.py:212-226 | where every VM ends up when all are busy, when some are, and when none is, in which case nothing changes |
| RankPolicy.RPPolicy.FirstTime | mom/Policy/RPPolicy.py:71-76 | equal shares that add up to the memory; if they reach the minimum, every VM has it and the last targets are within the allocations |
| RankPolicy.RPPolicy.Evaluate | mom/Policy/RPPolicy.py:188-226 | one round, VM by VM: in the first forty every VM has an equal share and is told, later they end up as in Rebalance, joiners starting from nothing; the total is the memory at first, later it falls by less than the number of VMs if some VMs are busy and some idle, and otherwise stays, as do the minimums and the cover of the targets |
| RankPolicy.RPPolicy.Run | mom/Policy/RPPolicy.py:188-224 | over any run the total allocated is at most the memory, and short of it by less than the number of VMs a round; if no report shows an idle VM it is the memory, and if that is enough for the minimums, every VM that reported in the first forty rounds has its minimum, and the targets issued are together at most the memory |
| Greedy.FillEnds | mom/Policy/FUPolicy.py:195-227 | filling in order comes to exactly the total if the raises alone could use it up, else every place ends at its full value |
| Greedy.InTurn | mom/Policy/FUPolicy.py:195-227 | as long as a place is not full, the places after it are untouched |
| Combination.FairSharesSum | mom/Policy/FUPolicy.py:128-135 | the fair shares add up to the weights' part of all memory, less all that was allocated |
| Combination.FairSharesAreProportional | mom/Policy/FUPolicy.py:128-135 | past and new, what the VMs get stands to each other as their weights do |
| Combination.FairSharesAreUnique | mom/Policy/FUPolicy.py:128-135 | and for normalized weights only these amounts do so and come to what was not allocated yet |
| Combination.Utilization | mom/Policy/FUPolicy.py:171-180 | the lesser of what is expected with its headroom and what is configured |
| Combination.Combine | mom/Policy/FUPolicy.py:182-230 | the loops end in what SurplusShared or DeficitShared say: exactly the memory when that is possible, each VM between its demand and its fair share as configured, those furthest from their fair share first, and otherwise every VM at its fair share; among equals, as the stable order has them |
| Combination.SurplusEnds | mom/Policy/FUPolicy.py:195-213 | the surplus case for all inputs, from the filling |
| Combination.DeficitEnds | mom/Policy/FUPolicy.py:216-227 | the deficit case for all inputs, from the filling the other way round |
| Combination.SurplusFits | mom/Policy/FUPolicy.py:195-213 | under a surplus the sum never exceeds the memory, no VM exceeds what is configured, none falls below both its demand and its fair share, and the memory is used up exactly if the raises to the fair shares could use it up |
| Combination.DeficitMet | mom/Policy/FUPolicy.py:216-227 | under a deficit the sum is the memory exactly if the demands cut to the fair shares fit, as they do when the fair shares fit; it is never less |
| Combination.OverAllocation | mom/Policy/FUPolicy.py:216-227 | an input on which more memory is handed out than there is |
| WorksetFilling.WFMPolicy.Evaluate | mom/Policy/WFMPolicy.py:67-115 | adds what every guest used to its account, and fills the guests in order of that account by weight |
| WorksetFilling.WorksizesAre | mom/Policy/WFMPolicy.py:67-93 | a demand is what a guest has and does not leave free, what it has in the swap, and 150000; its account grows by what it does not leave free |
| WorksetFilling.WeightedUseIs | mom/Policy/WFMPolicy.py:92 | the key of the order: the account for the weight, rounded down if both are whole numbers |
| WorksetFilling.WFMPolicy.FillUp | mom/Policy/WFMPolicy.py:97-110 | the loop gives what filling in that order gives |
| WorksetFilling.SharesAre | mom/Policy/WFMPolicy.py:87-110 | with enough for the minimums: each allocation lies between the minimum and the demand, the sum is the lesser of the memory and the demands, and a VM left short leaves all later ones at the minimum |
| WorksetFilling.SharesAreGreatest | mom/Policy/WFMPolicy.py:95-110 | no feasible allocation gives the VMs more, in the order of rank |
| WorksetFilling.OnlyMinimums | mom/Policy/WFMPolicy.py:99 | with less, every VM has just the minimum |
| UserFairness.Algorithm.UserFairness | mom/Policy/Old_RPPolicy.py:221-274 | it terminates with the one outcome of its inputs: a climb of the level from pass to pass, where users that ask for less than they deserve get that, and the rest are brought to the last level within their bounds. That level is the least that shares out exactly what is there. A user goes without only if the memory is used up; if nobody does, and nobody is raised to a low limit at the end, no more is given than there is, and exactly that if nobody is clamped, but for the past of users that are gone; and if all are low, each has just its low limit |
| UserFairness.OutcomeIsUnique | mom/Policy/Old_RPPolicy.py:221-274 | the same inputs have one climb of levels and one allocation |
| UserFairness.SteadyIsLeast | mom/Policy/Old_RPPolicy.py:234-272 | the last level is the least at which past and new of the satisfied users, and the level by the weights of the others, come to all there is and was |
| UserFairness.NoMoreThanThereIs | mom/Policy/Old_RPPolicy.py:221-274 | if nobody goes without and nobody is raised to a low limit, no more is handed out than there is |
| UserFairness.SettlePass | mom/Policy/Old_RPPolicy.py:247-259 | a pass settles exactly the users that ask for less than they deserve, keeps the books of memory and past, and the level of the others does not fall |
| UserFairness.SharePass | mom/Policy/Old_RPPolicy.py:260-272 | a pass that satisfies nobody brings every remaining user to the level within its bounds, and spends what they deserve together if nobody is clamped |
| UserFairness.SettleBooks | mom/Policy/Old_RPPolicy.py:247-259 | settling a user keeps the memory left equal to the total less what is given, and the past kept equal to that of the users that remain |
| UserFairness.DeservedSum | mom/Policy/Old_RPPolicy.py:235-246 | what the remaining users deserve together is the level by their weights, less their past |
| UserFairness.UnclampedIsLevel | mom/Policy/Old_RPPolicy.py:260-272 | a user that is not clamped has, past and new by weight, exactly the level |
| UserFairness.SettledWithin | mom/Policy/Old_RPPolicy.py:221-274 | every amount lies between the low limit and what is configured, if the one is no more than the other |
| UserFairness.LevelRises | mom/Policy/Old_RPPolicy.py:234-259 | so the level of a later pass is no lower |
| UserFairness.Algorithm.Update | mom/Policy/Old_RPPolicy.py:345-358 | every user's account, and the total, grow by what a round allocates to its VMs; the total remains that of all users |
| UserFairness.Algorithm.NothingGone | mom/Policy/Old_RPPolicy.py:221-233 | for a fixed set of users nothing is past of nobody's, so the memory is spent exactly |

## Left out

- The scanner: regular expressions are Python's; a policy is its sequence of tokens, and `PolicyStore` takes any scanner as a parameter. Line numbers of tokens and the wording of error messages are not modelled.
- Grammars with empty right sides: the chart is proved sound for them and an input on which it is not complete is given, but not which sentences of such a grammar the parser misses; the policy language has none. FIRST sets are computed by the program but read only in a branch that never runs.
- Grammars with cyclic unit rules: the walk over the tree pointers is proved to end where unit rules are acyclic, as in the policy language.
- The AST builder, the tree traversal and the matcher of `spark.py`: not used by the policy language.
- Python's behaviour on values that are not numbers, and of objects of the host program: a parameter, so the theorems hold for any.
- Floating-point rounding: floats are exact reals.
- BalloonRun.RunSetsTargets: the sizes of the host and of the guests are taken to be numbers, and an average is a number unless asking for it raises an exception; a guest list of other objects is not covered.
- BalloonText.ProgramParses: the tokens are those of the text of `doc/balloon.rules` without its comments, as the scanner cuts it up; `and`, `max` and `abs` are symbols there, where the scanner may also give operators, which call the same functions.
- Linear regression: its intercept is any number. The averages handed to it are exact, not rounded.
- Monitors, hypervisor interfaces, controllers, plotting, logging, semaphores and the RPC server: reports of guests are any inputs, and balloon targets are recorded.
- The regression weights of `RPPolicy.py`, in which it differs from `GradientPolicy.py`: the intercept is any number in both. Its `VM_Info` has no gradient and no step; the model's VMs have, and `RankPolicy` does not use them.
- RankPolicy.RPPolicy.Run: for runs with idle VMs only the total is bounded; what each such round does to the targets is exact in MeanRound.
- The fairness of VMs within a user, the prediction of working sets and the performance-based shares in `Old_RPPolicy.py`, and `update_limit2`, whose call is commented out.
- The step size is given as a number, although `PolicyEngine.py` passes a string.
- BlankPolicy.py, Old_Policy2.py, Old_RPPolicy1.py, RPPolicy_1.0.0.py and Real_Policy_1.0.0.py: they allocate nothing, or are near-copies of the schedulers modelled.

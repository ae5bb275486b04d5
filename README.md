# CU static program analysis: a Dafny model

This project models the analyses and detectors of the CU static-program-analysis
assignments. They are Misti detectors over the Tact smart-contract AST:

- two gen/kill data-flow analyses over a control-flow graph:
  - **live variables** (`LiveVariables`), a backward analysis;
  - **downward-exposed uses** (`DownwardExposedUses`), a forward analysis over `(name, statement id)` records;
- three AST detectors:
  - **readonly fields** (`ReadonlyFieldIdentifier`);
  - **missing `else`** (`MissingElseDetector`);
  - **unreachable `while`** (`UnreachableWhileStatements`);
- the loop helper **`forEachExpressionInLoop`** from `assignments/utils/loops.ts`.

The Dafny modules follow the source files:

| file | module | what it holds |
|---|---|---|
| `ast.dfy` | `Ast` | The part of the Tact AST the code reads: statements with their node id and source text, expressions, and `if` chains. It also has the traversals that stand in for the library walks: `Identifiers` for the identifier fold, `ExpressionsIn` for `forEachExpression`, `StatementsIn` for `forEachStatement`. |
| `text.dfy` | `Text` | The string operations the assignment-name heuristics use: `startsWith`, first-occurrence `replace`, `split("=")[0]`, the regex split on `[+-/*//%]=`, and `trimEnd`. It proves what they return on assignment texts. |
| `sets.dfy` | `SetUtil` | `setsAreEqual`, the set-size facts the termination proofs use, and `SumOver`, the sum of a per-entry cost over a map that both solvers use as their potential. |
| `cfg.dfy` | `Graph` | The CFG: basic blocks, each with its index and statement, and an edge list. `getSuccessors` and `getPredecessors` are read off the same edges. |
| `warnings.dfy` | `Warnings` | A warning: its message and the AST node it is reported at. |
| `live_variables.dfy` | `LiveVariables` | gen/kill sets; a pass over the blocks in reverse order that updates the map in place; the `while (!stable)` loop; the sample contract of the test. |
| `downward_exposed_uses.dfy` | `DownwardExposedUses` | lastdef/defkill sets, the forward pass and the loop, name extraction on concrete statements, and the sample contract of the test. |
| `readonly_fields.dfy` | `ReadonlyFields` | The detector class with its `warnings` field, the assignment collection and the set of unmodified field names. |
| `else_missing.dfy` | `ElseMissing` | The detector class and the recursive check down an `else if` chain. |
| `unreachable_while.dfy` | `UnreachableWhile` | The detector class and the `while (false) { ... }` test. |
| `loops.dfy` | `Loops` | `isLoop`, the seen-id walk of `forEachExpressionInLoop` and its reference definition: the expressions of every outermost loop. |

Each solver is a method over a `map` from block index to block info. The map is
updated in place, block by block, so a block sees the values of blocks visited
earlier in the same pass. Each solver is proved to:

- terminate, by a potential that every changing pass lowers;
- return a solution of the transfer equations;
- return the least such solution, so the result is unique;
- mention only variables some block generates.

Each solver also counts its passes. It stops after its first pass exactly when
the all-empty start map already solves the equations. For live variables that
means no block reads a name; for downward-exposed uses, no block defines one.
Otherwise it takes at least two passes, one that fills the sets and at least one
that confirms them. This holds even for straight-line code such as `return a;`.
So a single straight-line statement converges in one pass only when it reads
nothing (for live variables) or defines nothing (for downward-exposed uses).

The model does not state whether the source's objects are shared or copied; the
info records are reachable only through the map, so this changes nothing.

The detectors keep `this.warnings` as a `seq<Warning>` field. Each detector
method states the new field value as the old one followed by the warnings of a
specification function, and lemmas say which inputs those functions warn about.

## Model

| member | source | states |
|---|---|---|
| `LiveVariables.InitialMap` | assignments/2-gen-kill-analyses/liveVariables/liveVariables.ts:95-103 | Step 1 gives every block exactly one entry, holding its statement's gen and kill sets, with empty in and out sets. |
| `LiveVariables.PerformLiveVariableAnalysis` | assignments/2-gen-kill-analyses/liveVariables/liveVariables.ts:88-146 | The loop terminates. The result has one entry per block, with the block's gen and kill sets, and is the least map satisfying out[B] = ∪ in[succ] and in[B] = gen ∪ (out − kill). Every live variable is in some block's gen set. The loop runs at least one pass, and exactly one when no block reads a name. |
| `LiveVariables.EmptyStartSolvesIffNoGen` | assignments/2-gen-kill-analyses/liveVariables/liveVariables.ts:95-143 | The start map has empty in/out sets. It solves the equations exactly when every gen set is empty, and that is exactly when the first pass changes nothing and leaves `stable` true. |
| `LiveVariables.LivePass` | assignments/2-gen-kill-analyses/liveVariables/liveVariables.ts:106-143 | One reverse-order pass keeps the map sound, bounded and below every solution. The map only grows. `stable` holds iff nothing changed, and then the map solves the equations. A solution is left unchanged. A changing pass strictly lowers the potential. |
| `LiveVariables.UpdateEntry` | assignments/2-gen-kill-analyses/liveVariables/liveVariables.ts:113-141 | The new entry is the block's recomputed out/in. The entry changes iff the block violated one of its two equations. |
| `LiveVariables.AllGenExact` | assignments/2-gen-kill-analyses/liveVariables/liveVariables.ts:125-141 | A name is in `AllGen` exactly when some block's gen set holds it. `AllGen` is the bound every in- and out-set of the solver stays within, so the bound is the union of the gen sets the updates start from and no more. |
| `LiveVariables.CollectSuccessorIns` | assignments/2-gen-kill-analyses/liveVariables/liveVariables.ts:115-123 | The accumulated set holds exactly the variables live at the entry of some successor. |
| `LiveVariables.FixedIffEquations` | assignments/2-gen-kill-analyses/liveVariables/liveVariables.ts:125-141 | Recomputing a block leaves it unchanged iff both of its transfer equations hold. |
| `LiveVariables.LeastSolutionUnique` | assignments/2-gen-kill-analyses/liveVariables/liveVariables.ts:106-143 | Two least solutions are equal, so the fixed point the loop reaches does not depend on the route. |
| `LiveVariables.ExitBlockOutEmpty` | assignments/2-gen-kill-analyses/liveVariables/liveVariables.ts:115-123 | At a solution, a block without successors has an empty out set. |
| `LiveVariables.UsedVariablesAreReadIds` | assignments/2-gen-kill-analyses/liveVariables/liveVariables.ts:153-194 | gen holds a name iff an `id` node with that name occurs in an expression the statement reads. The target of an assignment is not read. |
| `LiveVariables.CollectUsedVariables` | assignments/2-gen-kill-analyses/liveVariables/liveVariables.ts:153-194 | gen is the union of the identifiers of the expressions the statement reads: its own expressions, without the target path of an assignment. |
| `LiveVariables.CollectDefinedVariables` | assignments/2-gen-kill-analyses/liveVariables/liveVariables.ts:201-217 | Computes kill. Its by-kind table is stated by `LiveVariables.DefinedVariablesByKind`. |
| `LiveVariables.CollectDefinedVariablesFromExpression` | assignments/2-gen-kill-analyses/liveVariables/liveVariables.ts:222-235 | Gives the name of a bare-identifier target and nothing for any other target, field accesses included. Stated through `LiveVariables.DefinedVariablesByKind`. |
| `LiveVariables.DefinedVariablesByKind` | assignments/2-gen-kill-analyses/liveVariables/liveVariables.ts:201-235 | kill by statement kind:<br>• `let`: its name;<br>• `foreach`: its key and value names;<br>• an assignment or augmented assignment whose target is a bare identifier: that name;<br>• an assignment to any other target, and every other statement: nothing.<br>So kill never holds more than two names. |
| `LiveVariables.SampleAnalysisResult` | assignments/2-gen-kill-analyses/liveVariables/liveVariables.spec.ts:26-54 | On the five-block sample (`let a`, `while`, `let b`, `a = b`, `return a`), the gen/kill/in/out table of the test is the least solution, and every least solution equals it. |
| `SetUtil.SetsAreEqual` | assignments/2-gen-kill-analyses/liveVariables/liveVariables.ts:32-33 | Equal size plus inclusion holds iff the two sets are equal. |
| `DownwardExposedUses.InitialMap` | assignments/2-gen-kill-analyses/downwardExposedUses/downwardExposedUses.ts:86-95 | Step 1 gives every block exactly one entry, holding its statement's lastdef and defkill sets, with empty in and out sets. |
| `DownwardExposedUses.PerformDownwardExposedUsesAnalysis` | assignments/2-gen-kill-analyses/downwardExposedUses/downwardExposedUses.ts:80-138 | The loop terminates. The result has one entry per block, with its lastdef/defkill sets, and is the least map satisfying in[B] = ∪ out[pred] and out[B] = lastdef ∪ {v ∈ in : v.name ∉ defkill}. Every record is some block's definition. The loop runs at least one pass, and exactly one when no block defines a name. |
| `DownwardExposedUses.EmptyStartSolvesIffNoLastDefs` | assignments/2-gen-kill-analyses/downwardExposedUses/downwardExposedUses.ts:86-135 | The start map has empty in/out sets. It solves the equations exactly when every lastdef set is empty, and that is exactly when the first pass changes nothing and leaves `stable` true. |
| `DownwardExposedUses.DefsPass` | assignments/2-gen-kill-analyses/downwardExposedUses/downwardExposedUses.ts:98-134 | One forward pass keeps the map sound, bounded and below every solution. The map only grows. `stable` holds iff nothing changed, and then the map is a solution. A solution is left unchanged. A changing pass lowers the potential. |
| `DownwardExposedUses.UpdateEntry` | assignments/2-gen-kill-analyses/downwardExposedUses/downwardExposedUses.ts:105-133 | The new entry is the block's recomputed in/out. It changes iff one of the block's equations failed. |
| `DownwardExposedUses.AllLastDefsExact` | assignments/2-gen-kill-analyses/downwardExposedUses/downwardExposedUses.ts:117-122 | A record is in `AllLastDefs` exactly when some block's lastdef set holds it. `AllLastDefs` is the bound every in- and out-set of the solver stays within, so the bound is the union of the lastdef sets and no more. |
| `DownwardExposedUses.CollectPredecessorOuts` | assignments/2-gen-kill-analyses/downwardExposedUses/downwardExposedUses.ts:107-115 | The accumulated set holds exactly the records in the out set of some predecessor. |
| `DownwardExposedUses.FixedIffEquations` | assignments/2-gen-kill-analyses/downwardExposedUses/downwardExposedUses.ts:117-133 | Recomputing a block leaves it unchanged iff both of its equations hold. |
| `DownwardExposedUses.LeastSolutionUnique` | assignments/2-gen-kill-analyses/downwardExposedUses/downwardExposedUses.ts:98-135 | Two least solutions are equal. |
| `DownwardExposedUses.EntryBlockInEmpty` | assignments/2-gen-kill-analyses/downwardExposedUses/downwardExposedUses.ts:107-115 | At a solution, a block without predecessors has an empty in set. |
| `DownwardExposedUses.ReachesExit` | assignments/2-gen-kill-analyses/downwardExposedUses/downwardExposedUses.ts:117-122 | At a solution, a record leaves a block iff the block makes it, or it reaches the block and its name is not killed there. |
| `DownwardExposedUses.SurvivorsByName` | assignments/2-gen-kill-analyses/downwardExposedUses/downwardExposedUses.ts:119-121 | Killing goes by name: a definition from any statement is dropped iff its name is killed. |
| `DownwardExposedUses.LocalSets` | assignments/2-gen-kill-analyses/downwardExposedUses/downwardExposedUses.ts:145-186 | lastdef and defkill by statement kind:<br>• `let`: one record and no kill;<br>• `foreach`: key and value records and no kill;<br>• an assignment: the extracted name, both defined and killed;<br>• anything else: nothing.<br>Every record carries its statement's id. |
| `DownwardExposedUses.CollectKilledVariables` | assignments/2-gen-kill-analyses/downwardExposedUses/downwardExposedUses.ts:145-158 | Computes defkill. `DownwardExposedUses.LocalSets` states it by statement kind: an assignment or augmented assignment kills exactly its extracted name, even an empty one, and every other kind kills nothing. |
| `DownwardExposedUses.CollectLastDefVariables` | assignments/2-gen-kill-analyses/downwardExposedUses/downwardExposedUses.ts:165-186 | Computes lastdef. `DownwardExposedUses.LocalSets` states it by statement kind: a `let` gives one record, a `foreach` two, an assignment one with the extracted name, and any other kind none. Every record carries the statement's own node id. |
| `DownwardExposedUses.TryExtractAssignedVarName` | assignments/2-gen-kill-analyses/downwardExposedUses/downwardExposedUses.ts:188-206 | The `self.` heuristic, computed by `Text.AssignedName`. `Text.PlainTarget` and `Text.CompoundTarget` characterise the name it cuts; the `DownwardExposedUses.ExtractedName…` lemmas give it on concrete statements. |
| `DownwardExposedUses.AssignmentKillsWhatItDefines` | assignments/2-gen-kill-analyses/downwardExposedUses/downwardExposedUses.ts:145-186 | For an assignment, defkill is exactly the set of names in lastdef. |
| `DownwardExposedUses.PlainAssignmentDefines` | assignments/2-gen-kill-analyses/downwardExposedUses/downwardExposedUses.ts:192-197 | Take an assignment whose text is `lhs ws = rest`, where `lhs` has no `=`, does not start with `s` and does not end in whitespace, and `ws` is whitespace. Its extracted name is `lhs`, it kills exactly `{lhs}`, and its only definition is `(lhs, its id)`. |
| `DownwardExposedUses.ExtractedNameOfAssign` | assignments/2-gen-kill-analyses/downwardExposedUses/downwardExposedUses.ts:188-197 | `a = b;` defines and kills `a`, with its own id. |
| `DownwardExposedUses.ExtractedNameOfAssignSum` | assignments/2-gen-kill-analyses/downwardExposedUses/downwardExposedUses.ts:188-197 | `a = 14 + 15;` defines and kills `a`. |
| `DownwardExposedUses.ExtractedNameOfFieldAssign` | assignments/2-gen-kill-analyses/downwardExposedUses/downwardExposedUses.ts:191-197 | `self.count = 0;` defines `count`: the `self.` prefix is stripped. |
| `DownwardExposedUses.ExtractedNameOfAugmentedAssign` | assignments/2-gen-kill-analyses/downwardExposedUses/downwardExposedUses.ts:198-203 | `total += x;` defines `total`. |
| `DownwardExposedUses.ExtractedNameWithoutCompoundOperator` | assignments/2-gen-kill-analyses/downwardExposedUses/downwardExposedUses.ts:198-203 | An augmented assignment whose only `=` follows a character outside the regex class (for example `flags \|= 1;`) has no match, so its whole text is the name it defines and kills. |
| `DownwardExposedUses.ExtractedNameOfNonAssignment` | assignments/2-gen-kill-analyses/downwardExposedUses/downwardExposedUses.ts:204-205 | Every statement that is neither an assignment nor an augmented assignment yields the empty name and kills nothing. |
| `DownwardExposedUses.SampleAnalysisResult` | assignments/2-gen-kill-analyses/downwardExposedUses/downwardExposedUses.spec.ts:26-62 | On the six-block sample, the lastdef/defkill/in/out table of the test is the least solution, and every least solution equals it. The definition `b@1664` reaches `return a`. |
| `Text.StripReceiver` | assignments/2-gen-kill-analyses/downwardExposedUses/downwardExposedUses.ts:193-195 | With the receiver prefix the result is the rest of the text; without it, the text itself. |
| `Text.PlainTarget` | assignments/2-gen-kill-analyses/downwardExposedUses/downwardExposedUses.ts:196 | The name is a prefix of the text that contains no `=` and does not end in whitespace. Only whitespace lies between the name and the first `=` (or the end of the text). |
| `Text.CompoundTarget` | assignments/2-gen-kill-analyses/downwardExposedUses/downwardExposedUses.ts:202 | The name is a prefix of the text with no compound operator in it, and it does not end in whitespace. Only whitespace lies between the name and the first operator (or the end of the text). |
| `Text.PlainTargetOfAssignment` | assignments/2-gen-kill-analyses/downwardExposedUses/downwardExposedUses.ts:196 | For `lhs ws = rest`, where `lhs` has no `=` and no trailing whitespace, the extracted name is `lhs`. |
| `Text.CompoundTargetOfAssignment` | assignments/2-gen-kill-analyses/downwardExposedUses/downwardExposedUses.ts:202 | For `lhs ws op= rest`, where `op` is in the regex class, the extracted name is `lhs`. |
| `Text.AssignedNameOfPlain` | assignments/1-ast-detectors/readonlyFieldIdentifier/readonlyFieldIdentifier.ts:102-107 | A plain assignment whose text is the receiver followed by `lhs ws = rest` yields `lhs`. |
| `Text.AssignedNameOfPlainWithoutReceiver` | assignments/1-ast-detectors/readonlyFieldIdentifier/readonlyFieldIdentifier.ts:102-107 | A plain assignment `lhs ws = rest` that does not start with the receiver yields `lhs`. |
| `Text.AssignedNameOfCompound` | assignments/1-ast-detectors/readonlyFieldIdentifier/readonlyFieldIdentifier.ts:108-113 | An augmented assignment, receiver followed by `lhs ws op= rest`, yields `lhs`. |
| `Text.AssignedNameOfCompoundWithoutReceiver` | assignments/1-ast-detectors/readonlyFieldIdentifier/readonlyFieldIdentifier.ts:108-113 | An augmented assignment `lhs ws op= rest` that does not start with the receiver yields `lhs`. |
| `Text.NoCompoundOpAroundSingleEquals` | assignments/1-ast-detectors/readonlyFieldIdentifier/readonlyFieldIdentifier.ts:112 | A text with a single `=`, not preceded by a character of the class, contains no match of the regex. |
| `Text.CompoundTargetWithoutOperator` | assignments/1-ast-detectors/readonlyFieldIdentifier/readonlyFieldIdentifier.ts:112 | When the regex does not match and the text does not end in whitespace, the split keeps the whole text. |
| `Ast.IdentifiersAreIdNodes` | assignments/2-gen-kill-analyses/liveVariables/liveVariables.ts:155-159 | The identifier fold collects a name iff an `id` node with that name occurs in the expression. |
| `ReadonlyFields.ReadonlyFieldIdentifier.Check` | assignments/1-ast-detectors/readonlyFieldIdentifier/readonlyFieldIdentifier.ts:40-43 | Appends the unit's warnings to `warnings` and returns the field. |
| `ReadonlyFields.ReadonlyFieldIdentifier.CheckFields` | assignments/1-ast-detectors/readonlyFieldIdentifier/readonlyFieldIdentifier.ts:48-98 | Appends the warnings of every contract in order. |
| `ReadonlyFields.CheckContract` | assignments/1-ast-detectors/readonlyFieldIdentifier/readonlyFieldIdentifier.ts:59-97 | Returns one warning per field, in declaration order, whose name no assignment of the contract's methods targets. |
| `ReadonlyFields.CollectAssignments` | assignments/1-ast-detectors/readonlyFieldIdentifier/readonlyFieldIdentifier.ts:60-72 | Returns the assignment and augmented-assignment statements at the top level of the methods' bodies, in order. |
| `ReadonlyFields.AssignmentsAreDirect` | assignments/1-ast-detectors/readonlyFieldIdentifier/readonlyFieldIdentifier.ts:61-72 | A statement is collected iff it is an assignment directly in some method body. Nested assignments are missed. |
| `ReadonlyFields.UnmodifiedFieldNames` | assignments/1-ast-detectors/readonlyFieldIdentifier/readonlyFieldIdentifier.ts:74-83 | The result is the field names minus the names extracted from the assignments. |
| `ReadonlyFields.WarnedIffUnmodified` | assignments/1-ast-detectors/readonlyFieldIdentifier/readonlyFieldIdentifier.ts:85-96 | A field of the contract is warned about iff no collected assignment's extracted name equals its name. |
| `ReadonlyFields.ContractWarningsSound` | assignments/1-ast-detectors/readonlyFieldIdentifier/readonlyFieldIdentifier.ts:85-96 | Every warning is the field warning of some unassigned field. |
| `ReadonlyFields.ContractWarningsCount` | assignments/1-ast-detectors/readonlyFieldIdentifier/readonlyFieldIdentifier.ts:85-96 | There are at most as many warnings as fields, and none when every field name is assigned. |
| `ReadonlyFields.FieldWarningInjective` | assignments/1-ast-detectors/readonlyFieldIdentifier/readonlyFieldIdentifier.ts:89-94 | Different fields get different warnings. |
| `ReadonlyFields.OneFieldOneAssignment` | assignments/1-ast-detectors/readonlyFieldIdentifier/readonlyFieldIdentifier.ts:74-96 | With one field and one assignment, there is no warning iff the extracted name is the field's name, and otherwise exactly that field's warning. |
| `ReadonlyFields.TryExtractNameFromAssignment` | assignments/1-ast-detectors/readonlyFieldIdentifier/readonlyFieldIdentifier.ts:100-117 | The `this.` heuristic, computed by `Text.AssignedName`. The `Text` lemmas characterise the name it cuts; `ReadonlyFields.ThisAssignmentName` and `ReadonlyFields.SelfAssignmentName` give it on the test's statements. |
| `ReadonlyFields.ThisAssignmentName` | assignments/1-ast-detectors/readonlyFieldIdentifier/readonlyFieldIdentifier.ts:103-106 | `this.count = 1;` yields `count`. |
| `ReadonlyFields.SelfAssignmentName` | assignments/1-ast-detectors/readonlyFieldIdentifier/readonlyFieldIdentifier.ts:103-106 | `self.count = 1;` yields `self.count`: only `this.` is stripped. |
| `ReadonlyFields.ThisAssignmentIsRecognised` | assignments/1-ast-detectors/readonlyFieldIdentifier/readonlyFieldIdentifier.ts:100-107 | A field `count` assigned by `this.count = 1;` draws no warning. |
| `ReadonlyFields.SelfAssignmentIsNotRecognised` | assignments/1-ast-detectors/readonlyFieldIdentifier/readonlyFieldIdentifier.ts:100-107 | A field `count` assigned by `self.count = 1;` is still warned about. |
| `ElseMissing.MissingElseDetector.Check` | assignments/1-ast-detectors/elseMissingDetector/elseMissingDetector.ts:33-36 | Appends the warnings of the program entries and returns the field. |
| `ElseMissing.MissingElseDetector.CheckConditionStatements` | assignments/1-ast-detectors/elseMissingDetector/elseMissingDetector.ts:41-49 | Appends, for every visited condition statement in visit order, the warnings of its chain. |
| `ElseMissing.MissingElseDetector.CheckConditionStatement` | assignments/1-ast-detectors/elseMissingDetector/elseMissingDetector.ts:54-69 | Appends the warnings of the chain that starts at this link. |
| `ElseMissing.ChainWarningsExact` | assignments/1-ast-detectors/elseMissingDetector/elseMissingDetector.ts:55-68 | A warning is issued iff it sits at a link of the chain whose `else if` link has no `else`. |
| `ElseMissing.ChainWarningsCount` | assignments/1-ast-detectors/elseMissingDetector/elseMissingDetector.ts:55-68 | A chain issues fewer warnings than it has links. |
| `ElseMissing.NoElseIfNoWarning` | assignments/1-ast-detectors/elseMissingDetector/elseMissingDetector.ts:55-68 | A plain `if` (no `else if`) issues nothing and is a one-link chain. |
| `ElseMissing.ElseEverywhereNoWarning` | assignments/1-ast-detectors/elseMissingDetector/elseMissingDetector.ts:55-68 | If every link after the first has an `else`, the chain issues nothing. |
| `ElseMissing.LinksAreShorter` | assignments/1-ast-detectors/elseMissingDetector/elseMissingDetector.ts:66-68 | Every later link is structurally smaller, so the recursion terminates. |
| `ElseMissing.VisitedWarningsExact` | assignments/1-ast-detectors/elseMissingDetector/elseMissingDetector.ts:41-49 | A warning is issued iff it belongs to the chain of some visited condition statement. |
| `ElseMissing.OnlyConditionsAreChecked` | assignments/1-ast-detectors/elseMissingDetector/elseMissingDetector.ts:44-46 | Visiting a statement that is not a condition adds no warning. |
| `ElseMissing.TwoLinkChainWithoutElse` | assignments/1-ast-detectors/elseMissingDetector/elseMissingDetector.ts:55-63 | `if … else if …` with no final `else` warns once, at the first link. |
| `ElseMissing.ThreeLinkChainWithElse` | assignments/1-ast-detectors/elseMissingDetector/elseMissingDetector.ts:55-63 | `if … else if … else if … else …` still warns once, at the first link, because the middle link's own `falseStatements` is empty. |
| `ElseMissing.ThreeLinkChainWithoutElseVisited` | assignments/1-ast-detectors/elseMissingDetector/elseMissingDetector.ts:41-69 | `if a {} else if b {} else if d {}` draws three warnings: at `a`, then twice at `b`. The walk visits `b` as a conditional statement of its own, so its chain is checked twice, although only two links lack an `else`. |
| `UnreachableWhile.UnreachableWhileUsage` | assignments/1-ast-detectors/unreachableWhileStatements/unreachableWhileStatements.ts:62-66 | A `while` is unreachable when its condition is the boolean literal `false` and its body is not empty. The cases are stated by `UnreachableWhile.WhichWhilesAreUnreachable`. |
| `UnreachableWhile.WhichWhilesAreUnreachable` | assignments/1-ast-detectors/unreachableWhileStatements/unreachableWhileStatements.ts:62-66 | A `while` is flagged only when its condition is the literal `false` and its body is not empty. A non-literal condition, `true`, or an empty body is never flagged. |
| `UnreachableWhile.WhileWarningsExact` | assignments/1-ast-detectors/unreachableWhileStatements/unreachableWhileStatements.ts:40-55 | A warning is issued iff it sits at a visited `while` that is flagged. |
| `UnreachableWhile.WhileWarningsCount` | assignments/1-ast-detectors/unreachableWhileStatements/unreachableWhileStatements.ts:40-55 | There is at most one warning per visited statement, and none when nothing visited is a `while`. |
| `UnreachableWhile.UnreachableWhileStatements.Check` | assignments/1-ast-detectors/unreachableWhileStatements/unreachableWhileStatements.ts:39-57 | Appends the warnings of the visited statements, in visit order, and returns the field. |
| `Loops.IsLoop` | assignments/utils/loops.ts:30-37 | Holds for `while`, `until`, `repeat` and `foreach` statements and no others. Only these are marked and reported by the walk (`Loops.CallsAreLoopExpressions`). |
| `Loops.ForEachExpressionInLoop` | assignments/utils/loops.ts:45-65 | Returns the callback calls the seen-id walk makes. When loop ids are unique, these are exactly the expressions of each outermost loop, paired with that loop, in visit order. |
| `Loops.MarkLoops` | assignments/utils/loops.ts:56-60 | Adds the ids of every loop inside the statement to the seen set. |
| `Loops.WalkReportsOutermostLoops` | assignments/utils/loops.ts:52-63 | With unique loop ids, the walk's calls are the outermost loops' expressions. |
| `Loops.NestedLoopIsSkipped` | assignments/utils/loops.ts:53-60 | Once an unseen loop is processed, every loop nested in it is marked seen and later contributes nothing. |
| `Loops.MarkedLoopsAreSkipped` | assignments/utils/loops.ts:54 | Statements whose loops are all seen leave the walk unchanged. |
| `Loops.SeenOnlyGrows` | assignments/utils/loops.ts:50-60 | The seen set and the list of calls only grow. |
| `Loops.RunConcat` | assignments/utils/loops.ts:52-64 | Walking `a + b` is walking `a`, then `b`. |
| `Loops.CallsAreLoopExpressions` | assignments/utils/loops.ts:62 | Every call pairs a loop statement of the node with an expression inside that loop. |
| `Loops.LoopCalls` | assignments/utils/loops.ts:62 | The callback is applied once per expression of the loop, in order, each time with that loop. |

## Left out

- I/O: the `check` entry points of the two analyses, writing `result.txt`, and `prettyPrint` (liveVariables.ts:50-82, downwardExposedUses.ts:42-74). The model returns the info map and does not render it.
- Building the CFG, and the library's `getSuccessors`/`getPredecessors`. The CFG is an input: a list of blocks with distinct indices plus an edge list.
- The Misti library traversals `foldExpressions`, `forEachStatement` and `forEachExpression` are not part of this model. They are replaced by `Identifiers`, `StatementsIn` and `ExpressionsIn`. The visit order is an assumption of the model: pre-order, parent first, and each `else if` link visited as a condition statement of its own.
- `Severity`, `makeWarning` and source locations: a warning records its message and the node id it is reported at.
- `async`/`Promise` plumbing: `check` is a plain method.
- The `loc` ranges of statements: only the statement text (`loc.contents`) is modelled.
- DownwardExposedUses.LocalSets: the JS `Set` holds tuple objects by identity, so a `foreach` whose key and value names coincide yields two records there but one here.
- Loops.WalkReportsOutermostLoops: assumes every loop statement has a distinct id, as compiler-assigned ids are. Without that, `ForEachExpressionInLoop` is still described exactly by the walk (`Run`).
- LiveVariables.SampleAnalysisResult and DownwardExposedUses.SampleAnalysisResult: the `while` and `return` blocks of the samples define nothing, so their node ids do not appear in the test tables. The model gives them ids of its own.
- The readonly detector's grouping `Map<AstContract, AstFieldDecl[]>` is folded into iteration over the contracts. A contract without fields has no entry there and yields no warnings here either.
- ReadonlyFields.CheckContract emits the message the code builds ("should have a more meaningful name"). The detector's test expects "is not modified".
- The other detectors of the repository (external receiver, native random, send in loop, single-letter identifier, untyped let, unused loop variable, var) are not part of this model.

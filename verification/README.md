# kanpic, verified

A Dafny model of the hard parts of kanpic, a collaborative spreadsheet with a
formula language, scheduled automations and an AI agent that edits workbooks
after approval.  Each module follows one component; `dafny verify dfyconfig.toml`
checks all of them.

| module | component |
|---|---|
| `CellAddress`, `FormulaSyntax`, `Division` | A1 addresses; tokens, trees, values; remainders |
| `Grammar`, `FormulaParser`, `Scoping` | the formula parser as a function, as the cursor-moving program, and what its trees bind |
| `Grouping`, `Areas`, `ArrayLiterals`, `Binders` | how operators group, which cells references name, where the items of an array stand and what names bind, said of the text |
| `Printer`, `Parentheses` | its inverse, and why the outermost parentheses it writes cannot go |
| `Evaluator`, `Meaning`, `Rules`, `FrameMachine` | what a tree evaluates to, the rules that pin it down, one for every construct, and the evaluator that overwrites and restores frames |
| `Extents`, `Dependencies`, `Escapes` | how far a sheet reaches, what a value can depend on, and what escapes that |
| `Recalculation`, `CycleMarks`, `Recalculator` | what a change affects and the walk that recalculates it, as a function, with the cells it marks circular, and in place |
| `ExcelNames`, `ExcelWriting` | function names inside an xlsx file, and what becomes of each piece of a formula |
| `Calendar`, `Schedule` | cron fields and the search for the next minute, in UTC |
| `Automation`, `AutomationService` | automation runs, schedules and the hourly limit as guarded steps; the service's methods as paths of those steps |
| `AiAction` | the life of an AI action |
| `Saga`, `SagaLeak`, `SagaRetry` | a plan of tools with compensation, what an error after a commit leaves behind, and the plan run again after an interruption |
| `SagaEffect`, `SagaLockstep`, `SagaAgain`, `SagaApart` | workbooks that look alike, one plan run on two of them, and the plan run again after compensated attempts |
| `SagaResult` | what a plan that went through leaves |
| `SagaAgent`, `SagaApprovals` | the agent that stores and approves a plan, and several approvals in turn |
| `AnswerCache`, `AnswerLaws` | the bounded cache of answers fetched from outside; hosts in writing and asking twice |
| `Rounding`, `Annuity` | exact rounding, level payments |
| `GroupBy`, `TableLayout` | GROUPBY and PIVOTBY, and what stands where in their tables |

Where a function of the model and the program's loop share a definition, a law says
what that definition means without naming it: `Grouping.ChainGroups` for precedence,
the rules of `Meaning` and `Rules` for evaluation, `TableLayout` for sorted tables,
`SagaResult` for plans, and so on.

Two styles recur.  Code that moves a cursor, overwrites fields or fills maps in
loops is a method or a class here, proved equal to a function or against a
predicate.  Protocols over database rows are state machines: `Enabled` and
`After` give one guarded statement each, `Path` strings any of them together in
any order, and the theorems quantify over all paths, so over every interleaving
of callers, recoverers and crashes.  The service classes keep a ghost history
that says their rows were reached by such a path.

What turned out not to hold as one might expect is stated together with the
condition under which it does, exact unless said otherwise:

- A run that failed on a terminal error other than a version conflict can still
  land (`Automation.RefusedRunCanLand`); a run in some caller's hands can land if
  and only if the workbook is still at the version it was prepared for
  (`Automation.CanStillLand`).
- Every plan the planner admits is compensated completely on its first approval
  (`Saga.CompensationRestores`), unless an error is reported after a commit.  Then
  a creation, an update or a report stays if and only if the store accepted it
  (`SagaLeak.ThingLeaks`), and a cell operation is restored if and only if it was
  refused or every text it wrote is one its cell had held earlier in the run
  (`SagaLeak.CellsLeak`).
- Completed calls are stored only together, after the last one, so a plan of tools
  alone whose process stopped halfway runs again from its first call: compensating
  that run brings objects and sheets back if and only if every earlier call it did
  not get to repeat was a cell operation (`SagaRetry.InterruptedRetry`).  A plan
  that starts with `update_chart` leaves the chart changed
  (`SagaRetry.UpdateCannotBeRepeated`).
- An approval that reports a plan done should leave what one whole run leaves, up to
  identifiers and counters.  After compensated attempts it need not: a report is made
  again and is blank (`SagaApprovals.ReportAgain`), an update is refused
  (`SagaApprovals.UpdateAgain`), a sort is answered and not made
  (`SagaApprovals.SortAgain`).  However many attempts there were, the next run has the
  plan's effect if and only if they got to no update and leaving out the texts of the
  calls they got to makes no difference (`SagaAgain.EffectiveIff`); for cell
  operations on areas apart, if and only if each call they got to, a report that broke
  after its text included, creates an object or would change no cell
  (`SagaApart.ApprovedAgain`).  Where areas overlap that second condition is not
  necessary (`SagaApart.OverlapHides`).
- A list stored as completed whose last statement then fails is undone but stays
  stored as completed, and the next approval reports it done without looking.
  `SagaApprovals.ApproveUntilDone` follows every way to a plan of tools reported as
  done: after such a failure it has the plan's effect if and only if the plan has
  none, and otherwise exactly under the conditions above.
- A formula without dynamic references depends only on the cells the parser lists,
  as long as the sheets named by its open references (`A:A`, `2:5`) reach equally
  far (`Dependencies.DependenciesSuffice`); a value appearing below `A:A` changes
  its result (`Escapes.OpenReferenceGrows`), and so does one that `OFFSET` reaches
  (`Escapes.DynamicReferenceEscapes`).
- After recalculating, every formula that is not marked circular holds on the final
  values, and every cycle has a marked cell; but a cell on a cycle can go unmarked
  (`Recalculator.UnmarkedOnCycle`).  A cell is marked if and only if, when the walk
  enters it, a chain of affected cells not yet visited leads from it back to itself
  or to a cell on the stack (`CycleMarks.MarkedIfMeets`, `CycleMarks.MarkedExactly`).
  Where no two cycles share a cell, exactly the cells on cycles are marked
  (`Recalculation.ApartIsMarked`).
- `FromExcel(ForExcel(f)) == f` if and only if no called name in `f` carries a
  prefix (`ExcelNames.RoundTrip`); reading from a file leaves everything but
  called names alone if and only if no plain name stands before a bare prefix
  (`ExcelNames.FromExcelKeepsRest`).
- With the clock read up to `delay` seconds before the insertion, the hourly
  limit holds for windows of an hour less the delay and no longer ones
  (`Automation.DelayedLimitHolds`, `Automation.DelayedLimitIsTight`).
- Eight years of looking ahead find a minute if and only if the fields let some
  date through, provided that day and weekday are alternatives, or every weekday is
  allowed, or the allowed days fall on all weekdays (`Schedule.LookaheadSuffices`).
  In the remaining case, a restricted day together with a weekday field such as
  `*/7`, which counts as open, the search can fail with and without a leap day
  (`Schedule.SteppedWeekdayCanFail`, `Schedule.NewYearSundayCanFail`).  Whatever the
  fields, it finds a minute from every start if and only if it does so from every
  start in one span of 400 years (`Schedule.FoundFromEveryStart`).
- An AI action marked failed can have landed its cells
  (`AiAction.FailedCanHaveLanded`).

## Model

| member | source | states |
|---|---|---|
| `CellAddress.ColumnLetters` | pkg/cellrange/range.go:91-102 | column letters are non-empty A-Z text that reads back as the column |
| `CellAddress.AddressRoundTrip` | pkg/cellrange/range.go:60-102 | every position of a sheet, written as an address, is recognised as exactly that position |
| `CellAddress.AddressInjective` | pkg/cellrange/range.go:91-102 | two positions never share an address, so a cell key names one cell |
| `CellAddress.Address` | pkg/cellrange/range.go:91-102 | the digit loop produces that address, and nothing for positions off the sheet |
| `CellAddress.IsReference` | internal/formula/evaluator.go:1327-1339 | the scan accepts exactly the identifiers that name a cell within the sheet's limits |
| `CellAddress.ParseColumn` | internal/formula/evaluator.go:1297-1309 | a bare column is in bounds and is never at the same time a cell reference |
| `Areas.ColumnsInTurn` | pkg/cellrange/range.go:91-102 | columns are written A to Z, AA, AB and so on, each from the one before it |
| `Areas.RowsInTurn` | pkg/cellrange/range.go:91-102 | rows are written in decimal, each from the one before it |
| `FormulaSyntax.RectCellsExact` | internal/formula/evaluator.go:1196-1213 | the listed cells of a rectangle are its cells, every one and no other, as many as rows times columns |
| `FormulaSyntax.RectCellAt` | internal/formula/evaluator.go:1202-1208 | and they stand row by row, each row from left to right |
| `FormulaSyntax.FlattenRefs` | internal/formula/evaluator.go:1265-1273 | flattening the rows of an array literal loses and adds no reference |
| `Grammar.BuildRangeAt` | internal/formula/evaluator.go:1196-1215 | a range moves only the dependency set, and its cells are all in it |
| `Grammar.RangeRect` | internal/formula/evaluator.go:1084-1145 | A1:B2, A:B and A2:B give a rectangle with its corners in order, or nothing |
| `Grammar.ReferenceFunction` | internal/formula/functions_reference.go:15-83 | OFFSET, INDIRECT, ROW and COLUMN settle to a range, a number or a dynamic reference whose named cells are all dependencies |
| `Grammar.OffsetRect` | internal/formula/functions_reference.go:46-62 | OFFSET names a rectangle with ordered corners, not above or left of the first cell, or is refused |
| `Grammar.LookupInnermost` | internal/formula/binding.go:162-172 | a name in scope resolves to its last binding, and to nothing only if it has none |
| `Grammar.Source.Expression` | internal/formula/evaluator.go:877-900 | on every token list ending in the end token: progress, no reading past the end, names in scope as before, every reference of the tree among the dependencies |
| `Grammar.Source.Primary` | internal/formula/evaluator.go:910-1052 | the same for every kind of primary, with its one-token lookaheads |
| `Grammar.Source.LetSteps` | internal/formula/binding.go:174-213 | LET's names and values in turn; dependencies cover the tree, the cursor stays inside |
| `Grammar.Source.LambdaParts` | internal/formula/binding.go:215-238 | LAMBDA's parameters and body likewise |
| `Grammar.Source.Callable` | internal/formula/binding.go:259-291 | a target and the one call that may follow it keep the same |
| `Grammar.Source.ArrayRows` | internal/formula/evaluator.go:1217-1263 | array literals keep the same and come out with one item for every place of a rectangle, or not at all |
| `Grammar.Source.Formula` | internal/formula/evaluator.go:867-876 | the whole formula parses soundly from the empty state |
| `Grouping.ChainGroups` | internal/formula/evaluator.go:877-909 | a chain of any operands splits at its loosest operator (comparisons, then &, then + and -, then * and /, then ^), the last of them or for ^ the first, and so on in both halves |
| `Grouping.GroupsOneWay` | internal/formula/evaluator.go:1311-1325 | only one tree groups a chain that way |
| `Grouping.ThreeOperands` | internal/formula/evaluator.go:877-900 | `a p b q c` is a p (b q c) if q binds tighter or both are ^, and otherwise (a p b) q c |
| `Areas.CellReads` | internal/formula/evaluator.go:1084-1145 | an address by itself is a reference to that cell of the formula's sheet, which is its only dependency |
| `Areas.ColonReads` | internal/formula/evaluator.go:1084-1145 | A2:B9, A:C, A2:C and A:C9 name exactly the cells between their ends, rows open to the sheet's reach, in reading order; reversed corners are refused |
| `Areas.QualifiedReads` | internal/formula/evaluator.go:1084-1186 | the same on the sheet named before ! |
| `Areas.RowsRead` | internal/formula/evaluator.go:1147-1162 | 2:5 names whole rows as far as the sheet reaches, in either order |
| `Areas.BuildReads` | internal/formula/evaluator.go:1196-1215 | an area becomes a reference when it is one cell, a range of its shape otherwise, and is refused above 100000 cells |
| `Areas.OffsetReads` | internal/formula/functions_reference.go:39-70 | OFFSET over numbers names the area so far down and right, of the size given or else the reference's own, and is refused off the sheet |
| `Areas.WhereReads` | internal/formula/functions_reference.go:15-38 | ROW and COLUMN of a reference, or of the formula's own cell |
| `Areas.IndirectReads` | internal/formula/functions_reference.go:71-83 | INDIRECT of a text names the area the text names |
| `Areas.NamedReads` | internal/formula/evaluator.go:1054-1082 | a named range names its area |
| `ArrayLiterals.ArrayIsRead` | internal/formula/evaluator.go:1217-1271 | a comma separates the items of a row and a semicolon the rows: with a semicolon behind every w-th item the items stand in order in rows of w |
| `Binders.ArgumentsAreRead` | internal/formula/evaluator.go:984-1014 | the arguments of a call come in order, an empty slot as an omission |
| `Binders.FunctionIsRead` | internal/formula/evaluator.go:984-1021 | name(…) is a call of that function on them |
| `Binders.EmptyCallIsRead` | internal/formula/evaluator.go:984-1021 | name() is a call on nothing |
| `Binders.CallIsRead` | internal/formula/binding.go:259-284 | a call on the spot has its arguments in order |
| `Binders.LetIsRead` | internal/formula/binding.go:174-213 | LET holds its values in order, name k under index k, and its calculation last |
| `Binders.LetByName` | internal/formula/binding.go:174-213 | in a frame of its own, with the names in scope afterwards as before |
| `Binders.LambdaIsRead` | internal/formula/binding.go:215-238 | LAMBDA takes as many arguments as it has parameters, parameter k under index k |
| `Binders.LambdaByName` | internal/formula/binding.go:215-238 | in a frame of its own, with the names in scope afterwards as before |
| `FormulaParser.Parser.ParseFormula` | internal/formula/evaluator.go:867-876 | the program's parser stops on every token list that ends in the end token, stays inside it, leaves no name in scope, lists every cell the tree refers to, and returns the grammar's tree |
| `FormulaParser.Parser.Expression` | internal/formula/evaluator.go:877-900 | the operator loop gives the grammar's tree and state |
| `FormulaParser.Parser.Prefix` | internal/formula/evaluator.go:901-909 | signs bind tighter than any operator, as in the grammar |
| `FormulaParser.Parser.Primary` | internal/formula/evaluator.go:910-1052 | tree and state of the grammar |
| `FormulaParser.Parser.BuildRangeAt` | internal/formula/evaluator.go:1196-1215 | the two nested loops add exactly the rectangle's cells |
| `FormulaParser.Parser.CellReference` | internal/formula/evaluator.go:1084-1145 | tree and state of the grammar |
| `FormulaParser.Parser.RowBand` | internal/formula/evaluator.go:1147-1162 | tree and state of the grammar |
| `FormulaParser.Parser.LookupBinding` | internal/formula/binding.go:162-172 | the backwards search finds what the grammar's lookup finds |
| `FormulaParser.Parser.ReferenceFunction` | internal/formula/functions_reference.go:15-83 | tree and state of the grammar |
| `FormulaParser.Parser.Callable` | internal/formula/binding.go:259-291 | tree and state of the grammar |
| `FormulaParser.Parser.ParseLet` | internal/formula/binding.go:174-213 | tree of the grammar; the names pushed are gone on every way out |
| `FormulaParser.Parser.ParseLambda` | internal/formula/binding.go:215-238 | tree of the grammar; the parameters pushed are gone on every way out |
| `FormulaParser.Parser.ArrayLiteral` | internal/formula/evaluator.go:1217-1263 | the row-collecting loop gives the grammar's tree and state |
| `Scoping.ParsedIsScoped` | internal/formula/binding.go:146-291 | in every formula that parses, each bound name lies inside its own LET or LAMBDA and behind the values that could not see it, and no two of them share a frame |
| `Scoping.WellLetSteps` | internal/formula/binding.go:174-213 | LET keeps that, its k-th value seeing the k names before it |
| `Scoping.WellLambdaParts` | internal/formula/binding.go:215-238 | and so does LAMBDA with its parameters |
| `Printer.ParseInvertsPrint` | internal/formula/evaluator.go:877-936 | every tree of literals, references, ranges, signs, operators and calls, parenthesised only where an operand is looser than its place, parses back to itself with exactly its cells as dependencies |
| `Printer.PrintInjective` | internal/formula/evaluator.go:877-936 | so no two such trees are written alike |
| `Printer.BinaryBack` | internal/formula/evaluator.go:1311-1325 | operator by operator: `^` to the right, the others to the left, signs tighter than `^` |
| `Parentheses.LeftPairNeeded` | internal/formula/evaluator.go:877-900 | with the parentheses around the left operand of a formula left out, another tree is read |
| `Parentheses.RightPairNeeded` | internal/formula/evaluator.go:877-900 | the same for the right operand |
| `Parentheses.SignPairNeeded` | internal/formula/evaluator.go:901-909 | the same for the operand of a sign |
| `Evaluator.FuelIsEnough` | internal/formula/evaluator.go:349-440 | any two bounds under which evaluation finishes give the same outcome, so the bound changes no result |
| `Evaluator.SelfApplicationDiverges` | internal/formula/binding.go:42-112 | `LET(f,LAMBDA(g,g(g)),f(f))` finishes under no bound |
| `Meaning.MeansOne` | internal/formula/evaluator.go:349-440 | whatever the bound, a formula has at most one outcome |
| `Meaning.IfMeans` | internal/formula/evaluator.go:433-452 | IF with any arguments: what the branch chosen by its condition means, FALSE for a missing one, if and only if; the other branch may fail or never finish |
| `Meaning.IfErrorMeans` | internal/formula/evaluator.go:454-463 | IFERROR means its first argument unless that is an error, and then its second, if and only if |
| `Meaning.BinaryMeans` | internal/formula/evaluator.go:416-426 | an operator means its values combined; the left error wins over the right one, if and only if |
| `Meaning.LetMeans` | internal/formula/binding.go:42-56 | LET with any number of names means its calculation with each name bound to what its value means behind the names before it, or the error of the first value that means one, if and only if |
| `Meaning.CallMeans` | internal/formula/binding.go:91-144 | a call of any target with any arguments: the target first, then the arguments in turn, the first error winning, then the body with its parameters bound and those not given omitted, if and only if |
| `Rules.LeafMeans` | internal/formula/evaluator.go:354-376 | literals, errors, LAMBDAs, references and bound names: what each means, if and only if |
| `Rules.UnaryMeans` | internal/formula/evaluator.go:403-415 | a sign means the sign of its operand's value, or its error |
| `Rules.RangeMeans` | internal/formula/evaluator.go:378-402 | a range means its cells' values in order, the first failing cell's error, or an error when it is too large |
| `Rules.ArrayMeans` | internal/formula/evaluator.go:1280-1296 | an array literal means its items in place, each a single value, or the first error |
| `Rules.FunctionMeans` | internal/formula/evaluator.go:433-560 | an ordinary function of its arguments in turn, the first error winning; a tolerant one gets failures as values and ranges cell by cell |
| `Rules.IsErrorMeans` | internal/formula/evaluator.go:762-800 | ISERROR answers cell by cell for a range, and for anything else whether it is an error or looks like one |
| `Rules.ReduceMeans` | internal/formula/binding.go:388-408 | REDUCE carries its first argument through the items in order, the function called on the carried value and the item, to the last value or the first error |
| `Rules.MapMeans` | internal/formula/binding.go:326-352 | MAP calls its function on the i-th items of all arrays and keeps their shape, or gives the first error |
| `Rules.OffsetMeans` | internal/formula/functions_reference.go:129-210 | OFFSET at run time evaluates its numbers and reads exactly the area they lead to |
| `Rules.IndirectMeans` | internal/formula/functions_reference.go:129-210 | INDIRECT at run time reads the area its text names |
| `FrameMachine.Interpreter.Eval` | internal/formula/evaluator.go:349-440 | the evaluator over shared frames returns what the environment-passing one returns and leaves every frame as it found it, on success, failure and divergence |
| `FrameMachine.Interpreter.EvalLet` | internal/formula/binding.go:42-56 | LET saves, overwrites and restores its frame around any evaluation inside it |
| `FrameMachine.Interpreter.Invoke` | internal/formula/binding.go:73-112 | a LAMBDA call does the same, also when it is entered again inside itself |
| `FrameMachine.Interpreter.EvalCall` | internal/formula/evaluator.go:433-800 | lazy IF and IFERROR, error-tolerant functions and strict ones give the reference outcome and restore all frames |
| `FrameMachine.Interpreter.EvalItem` | internal/formula/evaluator.go:1907-1926 | an error-tolerant range argument keeps its failures in place, other arguments turn theirs into values |
| `FrameMachine.Interpreter.EvalHelper` | internal/formula/binding.go:293-411 | MAP and REDUCE call their LAMBDA item by item and restore all frames |
| `Dependencies.DependenciesSuffice` | internal/formula/evaluator.go:77-129 | each sheet measured and the formula read against it: two sheets that agree on the dependencies of the first reading, and reach equally far where open references ask, give the same tree and the same value or error, for every formula without a dynamic reference |
| `Dependencies.ClosedReadsAlike` | internal/formula/evaluator.go:1084-1162 | without an open reference every pair of sheets meets that condition |
| `Extents.MeasureExtent` | internal/formula/evaluator.go:822-845 | the loop finds the least row and column counts that hold all cells of each sheet |
| `Extents.SameFormula` | internal/formula/evaluator.go:867-1263 | readers that agree on the extents the open references ask for read the same tree with the same dependencies |
| `Escapes.OpenReferenceGrows` | internal/formula/evaluator.go:98-129 | `A:A` read against A1 depends on A1 alone, and a value appearing in A2 changes its result |
| `Dependencies.SameEval` | internal/formula/evaluator.go:349-440 | the same for every tree and environment within a set of cells, through LET, LAMBDA, lazy IF and error-tolerant ranges, and no function handed on reaches outside the set |
| `Escapes.DynamicReferenceEscapes` | internal/formula/functions_reference.go:129-166 | `OFFSET(A1,A1,0)` parses with A1 as its only dependency and reads A3 when A1 holds 2 |
| `Recalculation.FindAffected` | internal/formula/graph.go:116-149 | the search over the queue finds the least set that holds every changed formula and every formula depending on a changed cell or on one of the set |
| `Recalculation.CalcKeeps` | internal/formula/graph.go:164-231 | visiting one formula keeps finished formulas equal to their value on the values there are, marks only whole cycles, and finishes the formula or marks the one on top of the stack |
| `Recalculation.WalkRecalculates` | internal/formula/graph.go:164-240 | afterwards every affected formula not marked equals its value on the final values, marked ones hold #CIRC! on a cycle marked throughout, every cycle has a marked cell, nothing else changed; without cycles no other values fit, whatever the order of the visits |
| `Recalculation.SheetHoldsAgain` | internal/formula/graph.go:33-250 | if every formula the change does not reach held before, every formula holds afterwards but for the cells marked circular |
| `Recalculation.ApartIsMarked` | internal/formula/graph.go:171-187 | where no two cycles share a cell, exactly the cells on cycles are marked |
| `CycleMarks.MarkedIfMeets` | internal/formula/graph.go:164-231 | a cell not seen before is marked during its visit if and only if a chain of unseen affected cells leads from it to a cell on the stack or back to it |
| `CycleMarks.MarkedExactly` | internal/formula/graph.go:164-240 | in a whole recalculation every affected cell is entered, and is marked in the end if and only if such a chain exists at that moment |
| `CycleMarks.CyclesMarkedIff` | internal/formula/graph.go:164-240 | every cell on a cycle is marked if and only if such a chain leads back from each of them when it is entered |
| `CycleMarks.CalcSameShape` | internal/formula/graph.go:164-231 | what is visited and marked depends on the dependencies and their order alone, not on values |
| `Recalculator.UnmarkedOnCycle` | internal/formula/graph.go:164-231 | with A1 depending on B1 and C1, B1 on A1, C1 on B1, C1 lies on a cycle and is evaluated on an error instead of marked |
| `Recalculator.Calculator.Calculate` | internal/formula/graph.go:163-231 | the recursion over states, stack, values and marks leaves exactly what the walk gives |
| `Recalculator.Calculator.MarkCycle` | internal/formula/graph.go:171-187 | exactly the stack from the formula met again on is marked |
| `Recalculator.Recalculate` | internal/formula/graph.go:36-250 | the whole recalculation meets all of this for every sheet, change and order |
| `Recalculator.FormulasAreLocal` | internal/formula/graph.go:70-111 | formulas as the parser leaves them depend on their dependencies alone, so the above applies to them |
| `Recalculator.ParsedIsCovered` | internal/formula/graph.go:85-110 | a formula the parser accepts refers to nothing outside the dependencies its graph entry lists |
| `ExcelNames.RewriteNames` | internal/formula/excel_names.go:110-164 | the cursor loop with its quote rules computes the piece-by-piece rewriting |
| `ExcelNames.RewriteTwice` | internal/formula/excel_names.go:99-164 | scanning a rewritten formula finds the same pieces and the same calls, so two renamings in turn are one |
| `ExcelNames.CallAfter` | internal/formula/excel_names.go:145-158 | a rewriting makes a call of what was none exactly when a called name right behind it vanishes |
| `ExcelNames.RoundTrip` | internal/formula/excel_names.go:60-198 | reading back what was written gives the formula again if and only if no called name carried a prefix |
| `ExcelNames.ForExcelIdempotent` | internal/formula/excel_names.go:60-198 | writing twice is writing once, for every formula |
| `ExcelNames.MarkOfExcelName` | internal/formula/excel_names.go:176-198 | the prefix put in front of a name is exactly the prefix recognised in front of it |
| `ExcelNames.ForExcelKeepsRest` | internal/formula/excel_names.go:90-164 | quoted text, sheet names, plain names and operators are the same character for character |
| `ExcelNames.FromExcelKeepsRest` | internal/formula/excel_names.go:110-184 | reading keeps the same if and only if no plain name stands before a called bare prefix |
| `ExcelNames.BarePrefixExposes` | internal/formula/excel_names.go:169-184 | `a _xlfn.(1)` is such a formula |
| `ExcelWriting.CalledNameIsWritten` | internal/formula/excel_names.go:186-198 | a called name without prefix is written with `_xlfn.` if it is in the list of newer functions, with `_xlfn._xlws.` if it is FILTER or SORT, and otherwise as it is; the rest follows |
| `ExcelWriting.XlookupIsWritten` | internal/formula/excel_names.go:186-198 | XLOOKUP( is written _xlfn.XLOOKUP( |
| `ExcelWriting.CalledNameIsRead` | internal/formula/excel_names.go:176-184 | a called name is read without its prefix, in whatever case the prefix is written |
| `ExcelWriting.UpperAt` | internal/formula/excel_names.go:176-198 | case is ignored letter by letter |
| `ExcelWriting.OtherNameStays` | internal/formula/excel_names.go:145-158 | a name that is not called stays, in both directions |
| `ExcelWriting.QuotedTextStays` | internal/formula/excel_names.go:110-144 | quoted text stays, doubled quotes included |
| `ExcelWriting.SheetNameStays` | internal/formula/excel_names.go:110-144 | a quoted sheet name stays |
| `ExcelWriting.OtherCharStays` | internal/formula/excel_names.go:159-164 | so does every other character |
| `Calendar.DayNumberOrders` | internal/automation/schedule.go:106-134 | the day count orders dates as the calendar does |
| `Calendar.NextDayFollows` | internal/automation/schedule.go:106-134 | the next date is a date and one day later, over month and year ends |
| `Calendar.DaysBeforeYearClosed` | internal/automation/schedule.go:106-134 | the day count agrees with the closed leap-year formula |
| `Calendar.MonthLengths` | internal/automation/schedule.go:106-134 | the months have their 31, 30, 28 or 29 days |
| `Calendar.LeapYears` | internal/automation/schedule.go:106-134 | every fourth year is a leap year, but of the century years only every fourth |
| `Calendar.ThursdayIn1970` | internal/automation/schedule.go:106-134 | 1 January 1970 is a Thursday |
| `Calendar.CalendarRepeats` | internal/automation/schedule.go:106-134 | 400 years are 146097 days and a whole number of weeks |
| `Schedule.FillSegment` | internal/automation/schedule.go:155-215 | one item of a field switches on exactly the values it names, Sunday 7 as 0 |
| `Schedule.ParseField` | internal/automation/schedule.go:148-217 | a field is refused if an item is out of bounds or nothing is selected, and otherwise allows exactly the values its items name |
| `Schedule.SelectsMeans` | internal/automation/schedule.go:155-215 | what `*`, `a`, `a-b`, `*/s`, `a/s` and `a-b/s` name, value by value |
| `Schedule.SundayIsBoth` | internal/automation/schedule.go:201-207 | in the weekday field 0 and 7 both mean Sunday and every other value itself |
| `Schedule.OthersAreThemselves` | internal/automation/schedule.go:201-207 | in every other field a value means itself |
| `Schedule.GoodMeans` | internal/automation/schedule.go:155-215 | an item is refused exactly for a value or step out of range or a range that runs backwards |
| `Schedule.DayMatches` | internal/automation/schedule.go:136-146 | day and weekday are alternatives when both restrict, and both needed otherwise |
| `Schedule.MatchesMeans` | internal/automation/schedule.go:106-134 | month, hour and minute always count |
| `Schedule.FirstOn` | internal/automation/schedule.go:106-134 | the first matching minute of a day from the start on, or none exactly when there is none |
| `Schedule.Next` | internal/automation/schedule.go:106-134 | the least matching minute strictly after the given instant; fails if and only if none lies on a date before the limit |
| `Schedule.ReachMeans` | internal/automation/schedule.go:106-134 | a date is searched exactly while its midnight is before the moment eight years after the start |
| `Schedule.LimitMeans` | internal/automation/schedule.go:106-134 | which is the same date eight years on, or 1 March where there is no 29 February |
| `Schedule.LookaheadSuffices` | internal/automation/schedule.go:11-146 | with the either-or rule, with every weekday allowed, or with days that fall on every weekday: a minute is found from every start if and only if the fields let some date through |
| `Schedule.FoundIsSatisfiable` | internal/automation/schedule.go:106-146 | for every schedule a minute found means the fields let some date through |
| `Schedule.FoundFromEveryStart` | internal/automation/schedule.go:106-146 | for every schedule a minute is found from every start if and only if one is found from every start in any one span of 400 years |
| `Schedule.FoundRepeats` | internal/automation/schedule.go:106-146 | a start and the same start 400 years later find a minute alike |
| `Schedule.LeapDayServes` | internal/automation/schedule.go:106-134 | a schedule that accepts every 29 February always finds one, also across a century year without a leap day |
| `Schedule.SteppedWeekdayCanFail` | internal/automation/schedule.go:136-146 | 29 February with weekday `*/7` finds none from 1 March 1896 |
| `Schedule.NewYearSundayCanFail` | internal/automation/schedule.go:136-146 | 1 January with weekday `*/7` finds none from 2 January 1995 |
| `Automation.OneRowEver` | internal/automation/service.go:272-471 | once a run is written, any run there ever is for its key, its trigger operation or its due slot is that very run, whatever happens in between |
| `Automation.LandsAtMostOnce` | internal/automation/service.go:765-803 | each run's mutation, and its undo, is in all workbooks together at most once, however often retried |
| `Automation.StatusMeans` | internal/automation/service.go:502-556 | succeeded, undoing and undone runs have landed; skipped runs and conflicts have not; undone ones have landed their undo |
| `Automation.ConflictNeverLands` | internal/automation/service.go:969-1006 | a run failed on a version conflict never lands, whatever happens afterwards |
| `Automation.CanStillLand` | internal/automation/service.go:765-803 | a run in somebody's hands can still land if and only if the workbook is at the version it was prepared for |
| `Automation.RefusedRunCanLand` | internal/automation/service.go:969-1006 | a run failed on another terminal error can land afterwards through a second caller that picked it up before |
| `Automation.AdvanceIsSafe` | internal/automation/service.go:748-763 | a schedule leaves a due time only if a run row for exactly that time exists, moves past due time and clock, and does so once per revision |
| `Automation.DueSlotIsKept` | internal/automation/service.go:597-660 | along any continuation without an edit a due slot is still due or has its row |
| `Automation.HourlyLimitHolds` | internal/automation/service.go:410-471 | no hour of a workbook holds more counted runs than the limit, though failure records and replays bypass the count |
| `Automation.DelayedLimitHolds` | internal/automation/service.go:410-471 | with the clock read earlier, the same for an hour less the delay |
| `Automation.DelayedLimitIsTight` | internal/automation/service.go:410-471 | and a second longer can overflow it |
| `Automation.StepKeepsSound` | internal/automation/service.go:272-1006 | every guarded statement keeps unique rows, the store log, statuses, schedules and the rate bound together |
| `AutomationService.Service.InsertRun` | internal/automation/service.go:410-471 | the row goes in exactly when automation, hour and unique keys allow it, and nothing changes otherwise |
| `AutomationService.Service.ExecuteRun` | internal/automation/service.go:765-803 | lands at the prepared version or replays; the row succeeds, fails or stays running with the store's answer, success is reported only for a row that has succeeded, and no other row changes |
| `AutomationService.Service.Undo` | internal/automation/service.go:502-556 | a succeeded run is claimed, or one claimed under this key taken up again; it ends undone with the undo in the workbook, or succeeded again when the store fails; anything else is refused |
| `AutomationService.Service.MayStart` | internal/automation/service.go:410-460 | a scheduled row goes in exactly when the automation is enabled and unchanged, its slot has no row and fewer runs than the limit started in the last hour |
| `AutomationService.Service.MarkRunFailed` | internal/automation/service.go:969-1000 | only a running row becomes failed |
| `AutomationService.Service.StartSlot` | internal/automation/service.go:358-408 | a runnable automation gets a skipped row, or a row that succeeds with its cells in the workbook, fails or stays running as the store answers; any other gets none |
| `AutomationService.Service.ResumeSlot` | internal/automation/service.go:369-402 | a row found running is executed with the same outcomes, any other left alone |
| `AutomationService.Service.RunSlot` | internal/automation/service.go:272-408 | resumes or replays the slot's row or writes one, with exactly those outcomes; success implies the row is there |
| `AutomationService.Service.RecordFailure` | internal/automation/service.go:727-746 | the slot has a row afterwards unless writing it failed, a new one being failed and uncounted; an existing one is left alone |
| `AutomationService.Service.AdvanceSchedule` | internal/automation/service.go:748-763 | exactly the definition still waiting at that revision moves, to exactly the next time |
| `AutomationService.Service.ServeSlot` | internal/automation/service.go:627-658 | one due automation is run, and a failure written down only where it could not be: its slot has a row, or writing one failed and the definition is unchanged; it moves on to the next time unless its run is running or a statement failed |
| `AutomationService.Service.RunDueSchedules` | internal/automation/service.go:597-660 | the same for every due slot in turn, whatever fails at any of them, its rows untouched by the others; no other automation changes |
| `AiAction.LifeGoesForward` | internal/ai/service.go:321-498 | the revision never falls, planned is never returned to, recorded approval and undo keys never change |
| `AiAction.CellsLandOnce` | internal/ai/service.go:321-384 | cells land at most once and only under the recorded approval key; the undo at most once and only after applied |
| `AiAction.CancelledNeverLands` | internal/ai/agent_service.go:1296-1323 | a cancelled action stays cancelled and lands nothing |
| `AiAction.UndoneWasApplied` | internal/ai/service.go:386-484 | undoing and undone are reached only after applied |
| `AiAction.LostClaimStaysLost` | internal/ai/service.go:353-359 | a claim lost once can never be won later |
| `AiAction.NamedRevision` | internal/ai/service.go:342-413 | a claim, cancellation, undo or rollback finds the row at the revision it names and leaves it one further |
| `AiAction.NamedIsOpen` | internal/ai/service.go:342-413 | and is open exactly to a planned or applied row at that revision |
| `AiAction.RevisionNamedOnce` | internal/ai/service.go:342-413 | over every run a revision is named with success at most once |
| `AiAction.FailedCanHaveLanded` | internal/ai/service.go:486-498 | failed does not mean not landed |
| `AiAction.StepKeepsStatus` | internal/ai/agent_service.go:272-295 | every guarded update, superseding, tool-only rollback and the undo claim of a tool-only action included, keeps status, keys and store in agreement |
| `AiAction.ActionRow.Approve` | internal/ai/service.go:321-384 | with other callers acting in between: success means landed under this key, and a lost claim leads to at most one further call; undisturbed, a planned row at another revision is refused unchanged, and otherwise the outcome is decided by the row and the workbook version it found |
| `AiAction.ActionRow.Execute` | internal/ai/service.go:365-384 | the store's answer decides status, outcome and whether the cells are in the store |
| `AiAction.ActionRow.Undo` | internal/ai/service.go:386-434 | the same for undoing; an applied action without cells is claimed too, and then fails |
| `AiAction.ActionRow.ExecuteUndo` | internal/ai/service.go:417-434 | the same for undoing's answer |
| `Saga.CompensationRestores` | internal/ai/agent_service.go:798-1146 | for every plan the planner admits, on a store where its calls were not made or are undone, and every failure that did not commit: undoing the completed calls in reverse goes through and restores cells, objects and sheets |
| `Saga.UndoOne` | internal/ai/agent_service.go:1352-1451 | undoing one call on a store that later calls have left again restores it |
| `SagaResult.RunLeaves` | internal/ai/agent_service.go:817-1146 | a plan that went through has left each created object with its kind, content and sheet, each updated chart with its new content, each report's sheet with its name, text and chart |
| `SagaResult.CellsWritten` | internal/ai/agent_service.go:817-1090 | each cell operation has written in its area what it computes from what the area held at its turn, to be found in the end where no later call wrote |
| `SagaResult.OthersStay` | internal/ai/agent_service.go:817-1146 | all other objects, sheets and cells are as they were |
| `SagaResult.AcceptedIff` | internal/ai/agent_service.go:817-1146 | exactly when the store accepts a call that was not made before |
| `SagaLeak.ThingLeaks` | internal/ai/agent_service.go:1092-1146 | a creation, update or report whose error was reported after the commit is left behind, wherever in the plan it happens: the workbook is restored if and only if the store had refused the call |
| `SagaLeak.CellsLeak` | internal/ai/agent_service.go:1352-1451 | for a cell operation: restored if and only if the store had refused it or each text it wrote is one its cell had held earlier in the run |
| `SagaLeak.CellGoesBack` | internal/ai/agent_service.go:1352-1451 | undoing a run on a store where a cell holds another text takes the cell back exactly when it held that text on the way |
| `SagaRetry.AskedAgain` | internal/workbook/postgres_chart.go:21-70 | a call repeated on the store it left is answered under its key with what it made, or refused |
| `SagaRetry.RetryStops` | internal/ai/agent_service.go:817-1090 | a plan run again after an interruption gets as far as the first call it cannot repeat, changes nothing, and notes exactly the calls before it |
| `SagaRetry.InterruptedRetry` | internal/ai/agent_service.go:817-1146 | compensating that run goes through; it restores the workbook when all calls were repeated, and objects and sheets if and only if the others were all cell operations; a run that succeeds equals one whole run |
| `SagaRetry.UpdateCannotBeRepeated` | internal/ai/agent_service.go:817-1146 | a plan that starts by updating a chart fails at once when run again, and the chart stays changed |
| `SagaEffect.EffectTransitive` | internal/ai/agent_service.go:817-1090 | having the same effect up to new identifiers and counters is transitive |
| `SagaEffect.EffectSymmetric` | internal/ai/agent_service.go:817-1090 | and symmetric |
| `SagaLockstep.RunMatched` | internal/workbook/postgres_repository.go:1517-1570 | on two workbooks that look alike, where the second answers some texts under known keys that would change nothing, a plan goes through on both or on neither and leaves them alike |
| `SagaAgain.Compensated` | migrations/001_initial.sql:61-74 | after any number of compensated attempts the workbook is as it was and ready for the plan, and exactly the texts of the calls got to are known under their keys, those of deleted reports included |
| `SagaAgain.UpdateIsRefused` | internal/ai/agent_service.go:1352-1451 | a compensated update moved its chart's revision on, so every later run is refused |
| `SagaAgain.NextRun` | internal/ai/agent_service.go:817-1090 | without updates the next run goes through, and leaves the same, as a run on the workbook as it was with the texts got to left out |
| `SagaAgain.EffectiveIff` | internal/ai/agent_service.go:798-1146 | for every admitted plan after any number of compensated attempts: the next run has the plan's effect if and only if no update was got to and leaving out the texts got to makes no difference |
| `SagaAgain.HarmlessIsEffective` | internal/ai/agent_service.go:798-1146 | it has it whenever every call got to creates an object or at its turn changes no cell |
| `SagaApart.ApprovedAgain` | internal/ai/agent_service.go:798-1146 | for cell operations on areas apart: the next run has the plan's effect if and only if a whole run goes through and every call got to creates an object or would change no cell |
| `SagaApart.ChangeIsLost` | internal/workbook/postgres_repository.go:1517-1570 | a sort or a report that changed cells and was compensated leaves the next run without the plan's effect |
| `SagaApart.ReportIsBlank` | internal/ai/agent_service.go:1092-1146 | in a run that knows the key of a report's text, the sheet by the report's name is blank in the end |
| `SagaApart.OverlapHides` | internal/workbook/postgres_repository.go:1517-1570 | two operations on one cell: the first changed it, was undone and is not made again, yet the next run has the plan's effect |
| `SagaApprovals.ReportAgain` | internal/ai/agent_service.go:1092-1146 | a report whose bookkeeping failed is made again under its name and is blank |
| `SagaApprovals.UpdateAgain` | internal/ai/agent_service.go:817-1090 | an update whose bookkeeping failed is refused when made again |
| `SagaApprovals.SortAgain` | internal/workbook/postgres_repository.go:1517-1570 | a sort whose bookkeeping failed is answered when made again and leaves the workbook as it was |
| `SagaApprovals.ApproveInVain` | internal/ai/agent_service.go:699-815 | approvals that fail, in a call or at the last statement, leave exactly what the compensated attempts leave and the stored list as it was |
| `SagaApprovals.ApproveUntilDone` | internal/ai/agent_service.go:699-815 | every way to a plan reported done: approvals in vain, one that goes through, and further ones until it is finished; what the last one leaves has the plan's effect exactly under the conditions above, or, when a completed list was undone, exactly when the plan has no effect |
| `SagaApprovals.LeavesNothing` | internal/ai/agent_service.go:817-1090 | a whole run has the effect of none if and only if the plan only rewrites cells and leaves each with its text |
| `SagaAgent.Agent.RunTools` | internal/ai/agent_service.go:817-1090 | the loop over the calls, completed ones skipped, reaches the store and results of the plan; the stored list changes only after the last call, as a whole |
| `SagaAgent.Agent.UndoCompleted` | internal/ai/agent_service.go:1352-1451 | the backwards loop undoes exactly the completed calls, last first, up to the first refusal |
| `SagaAgent.Agent.ExecuteTools` | internal/ai/agent_service.go:798-815 | on failure the completed calls are undone and marked cancelled, or kept when undoing is refused |
| `SagaAgent.Agent.Approve` | internal/ai/agent_service.go:699-772 | an applied action is left alone, and one that failed or was undone is refused; otherwise cells, then calls; a failed first approval of an admitted plan is never stuck and leaves the workbook as it was up to counters |
| `SagaAgent.StoredRetryRestores` | internal/ai/agent_service.go:1087-1146 | a list stored as completed that fails afterwards is undone as a whole |
| `AnswerCache.HostAllowed` | internal/external/fetcher.go:264-289 | a host passes if and only if an entry names it or names a domain it lies below |
| `AnswerCache.NamesBelow` | internal/external/fetcher.go:264-289 | `*.x` matches the hosts below x and never x itself |
| `AnswerCache.CheckURL` | internal/external/fetcher.go:246-262 | only https addresses without user and with a listed host pass |
| `AnswerCache.KeyNamesAll` | internal/external/fetcher.go:198-208 | two requests share a key text if and only if size limit, timeout, function and address agree |
| `AnswerCache.KeepFor` | internal/external/fetcher.go:166-185 | never longer than the policy's time, at most 30 seconds for a failure of the far side |
| `AnswerLaws.KeptFor` | internal/external/fetcher.go:166-185 | exactly the policy's time, or 30 seconds for a longer kept failure of the far side |
| `AnswerLaws.AskTwice` | internal/external/fetcher.go:150-187 | a repeated request is answered from the cache exactly within that time, and fetched again afterwards |
| `AnswerLaws.CleanHostIs` | internal/external/fetcher.go:264-289 | a host is compared without case, surrounding space and one final dot |
| `AnswerLaws.LowerAt` | internal/external/fetcher.go:264-289 | case is ignored letter by letter |
| `AnswerCache.StoredFits` | internal/external/fetcher.go:210-235 | storing never exceeds 512 entries, keeps the new one and changes no other |
| `AnswerCache.EvictionIsFair` | internal/external/fetcher.go:210-235 | a live entry is lost only from a cache full of live entries, and none of them expires sooner |
| `AnswerCache.HitIsRecent` | internal/external/fetcher.go:150-235 | over every interleaving: an answer from the cache is what asking under this size limit and timeout gave, and is younger than what was in force when it was kept |
| `AnswerCache.CachedAgreesWithFetched` | internal/external/fetcher.go:150-187 | it equals an uncached fetch as long as the far side has not changed since |
| `AnswerCache.StepKeepsSound` | internal/external/fetcher.go:150-235 | every step of every caller keeps the bound and every entry's origin |
| `AnswerCache.Fetcher.Store` | internal/external/fetcher.go:210-235 | expired entries go, then one that expires soonest, only when there is no room |
| `AnswerCache.Fetcher.One` | internal/external/fetcher.go:150-187 | refused if and only if the current allow-list refuses, hit or not; otherwise the live entry or a fetched answer, kept for its time |
| `Rounding.RoundRatIsRounded` | internal/formula/evaluator.go:1655-1676 | truncating quotient and remainder give the rounded fraction in all three modes |
| `Rounding.RoundIsNear` | internal/formula/evaluator.go:1582-1610 | ROUND moves a number by at most half a unit of the place, no mode by a whole one |
| `Rounding.RoundIsUnits` | internal/formula/evaluator.go:1582-1610 | the result is a whole number of units of 10 to the minus digits: the nearest for ROUND with ties away from zero, the next away from zero or towards it for the others |
| `Rounding.PowerInWriting` | internal/formula/evaluator.go:1582-1610 | the power of ten is a one and so many zeros |
| `Rounding.RoundIsOdd` | internal/formula/evaluator.go:1582-1610 | rounding is odd |
| `Rounding.RoundIsIdempotent` | internal/formula/evaluator.go:1582-1610 | a result is a whole number of units and no mode changes it again |
| `Rounding.RoundIsMonotone` | internal/formula/evaluator.go:1582-1610 | rounding never reverses an order |
| `Rounding.ClampingChangesNothing` | internal/formula/evaluator.go:1546-1610 | clamping the digits to 400 either way changes no result in any mode, the conversion to a floating-point number included |
| `Rounding.WrittenDigits` | internal/formula/evaluator.go:1570-1580 | ROUND and TRUNC with any digits argument compute at the place it names |
| `Rounding.CeilingAndFloor` | internal/formula/functions_math.go:33-63 | CEILING takes the quotient up and FLOOR down for every accepted pair of signs, and only a positive number with a negative factor is refused |
| `Rounding.NearestMultiple` | internal/formula/functions_math.go:33-63 | MROUND gives the nearest multiple, a tie away from zero, and refuses exactly different signs |
| `Annuity.FvInvertsPmt` | internal/formula/functions_finance.go:306-380 | FV of a payment is the future value if and only if PMT for it is that payment, both due modes, zero rate included |
| `Annuity.PvInvertsPmt` | internal/formula/functions_finance.go:306-380 | the same for PV |
| `Annuity.FutureValueIsAccount` | internal/formula/functions_finance.go:306-380 | FV is minus what stands on an account that bears interest and takes the payment every period |
| `Annuity.OrdinaryRates` | internal/formula/functions_finance.go:370-380 | every rate above -100 per cent and at least one period has a payment |
| `Annuity.PeriodSplit` | internal/formula/functions_finance.go:384-400 | the loop gives the period's interest and principal, which add up to the instalment |
| `Annuity.BalanceIsFutureValue` | internal/formula/functions_finance.go:384-400 | walking the schedule reaches what FV computes at once |
| `Annuity.Cumulative` | internal/formula/functions_finance.go:137-163 | the cumulative loop adds up exactly the periods asked for, and refuses exactly ranges outside the schedule |
| `Annuity.SumsAddUp` | internal/formula/functions_finance.go:137-163 | over any stretch interest and principal add up to the instalments, principal to the change of the balance |
| `Annuity.ScheduleClears` | internal/formula/functions_finance.go:137-163 | over the whole schedule principal sums to minus the present value when nothing is to be left, and CUMIPMT plus CUMPRINC is n payments |
| `GroupBy.GatherGroups` | internal/formula/functions_groupby.go:118-139 | the groups are the keys that occur, each with all its rows in order, named by its first row, in order of first appearance |
| `GroupBy.OneBucketEach` | internal/formula/functions_groupby.go:353-361 | every data row is in exactly one crossing, once |
| `GroupBy.FillBuckets` | internal/formula/functions_groupby.go:351-361 | the map of maps holds exactly the rows of each crossing |
| `GroupBy.GroupsConserve` | internal/formula/functions_groupby.go:124-160 | totals of groups that cover the rows add up to the rows, in any order of the groups |
| `GroupBy.LessGroupLabels` | internal/formula/functions_groupby.go:167-180 | the label loop decides by the first label that differs |
| `GroupBy.LabelsChain` | internal/formula/functions_groupby.go:144-214 | the order of labels is antisymmetric and transitive with its ties, so a sort can rely on it both ways round |
| `GroupBy.OrderGroups` | internal/formula/functions_groupby.go:144-161 | the positions come out once each and in order of their labels, up or down, ties by first appearance |
| `GroupBy.ArrangedOnce` | internal/formula/functions_groupby.go:144-161 | only one order does, so every stable sort gives it |
| `TableLayout.GroupsStand` | internal/formula/functions_groupby.go:144-214 | upwards numbers come first and by size, then texts in character order, of several labels the first that differs deciding; downwards the other way round; ties as they appeared |
| `TableLayout.LinesAscend` | internal/formula/functions_groupby.go:144-214 | so no line of a table comes before one above it |
| `TableLayout.PivotCell` | internal/formula/functions_groupby.go:346-448 | a cell is the function of the values of exactly the rows with its two labels from top to bottom, and empty where there are none |
| `TableLayout.PivotTotal` | internal/formula/functions_groupby.go:401-448 | a line's total is the function of all rows of its label |
| `TableLayout.GroupCell` | internal/formula/functions_groupby.go:224-304 | a cell of GROUPBY is the function of its column's values in the group's rows |
| `GroupBy.Emit` | internal/formula/functions_groupby.go:401-427 | a line is its labels, one cell per column group with empty crossings left empty, and its total |
| `GroupBy.MatrixToArray` | internal/formula/functions_groupby.go:453-465 | the result is a full rectangle, short lines filled with empty cells |
| `GroupBy.PivotBy` | internal/formula/functions_groupby.go:306-449 | the table has its header lines, one line per row group and the bottom line, all of one width, lines and columns in sort order, each cell the function of exactly its crossing's rows, each label, field name and total heading in its place; with SUM over numbers the margins add up |
| `GroupBy.PivotConserves` | internal/formula/functions_groupby.go:346-448 | with SUM every line adds up to its total, every column to the bottom line, and both margins to the raw column, whatever the sort order |
| `GroupBy.PivotCovers` | internal/formula/functions_groupby.go:346-350 | what PIVOTBY gathers covers its rows however the groups are sorted |
| `GroupBy.GroupByRows` | internal/formula/functions_groupby.go:224-304 | one line per group in sort order and the total line, each cell the function of exactly the group's rows; with SUM over numbers every column adds up |
| `GroupBy.GroupByConserves` | internal/formula/functions_groupby.go:224-304 | with SUM the groups of every column add up to the total line and to the raw column |

## Left out

- The lexer: the model starts from tokens, whose names are upper-cased with `$` removed; number tokens are exact.
- Error messages; only the error code is kept where a result carries one.
- Named functions, tables, IMPORTRANGE, WEBSERVICE inside formulas, AND/OR/IFS/SWITCH/IFNA, BYROW, BYCOL and SCAN; they would add cases of the kinds already there.
- Library functions and operators on finished values are parameters (`Ops`); every result holds for any of them.
- Named ranges and sheet names come from `Scope` and stay fixed while a formula is parsed.
- Evaluator.FuelIsEnough: evaluation is bounded by fuel; a formula that never finishes is the outcome `Diverges` under every bound, where the program would exhaust its stack.
- Dependencies.DependenciesSuffice: assumes that a library function hands back no function value it was not given and that cells hold data, not functions; clock and random functions are not steady. The condition on extents is sufficient, not necessary: a formula may ignore the part in which they differ.
- ArrayLiterals.ArrayIsRead: speaks of literals without a separator before the closing brace; there a comma drops the unfinished row and a semicolon changes nothing, as in the source.
- Recalculator.Recalculate: the limits on formulas and edges, address normalisation and the list of results are left out; formulas come parsed, with their dependencies in visiting order.
- Recalculation.ApartIsMarked: a sufficient condition that does not depend on the order of the visits; the exact one, which does, is `CycleMarks.MarkedExactly`.
- Parentheses.LeftPairNeeded: speaks of the operands of the formula's outermost operator or sign.
- CellAddress.IsReference: does not model 64-bit wrap-around of the column number for identifiers of fourteen letters and more.
- Printer.ParseInvertsPrint: trees with LET, LAMBDA, array literals or dynamic references are not printed.
- ExcelNames.RewriteNames: upper-casing is ASCII; the alphabet beyond ASCII is a parameter, and offsets are characters, not bytes.
- ExcelNames.RoundTrip: names with characters whose upper case is an ASCII letter are not considered equal to that letter.
- Schedule.ParseField: starts from segments; splitting the cron text, names of months and days, and aliases are not modelled.
- Schedule.FoundIsSatisfiable: one direction; the other holds in the cases of `LookaheadSuffices`, and `FoundFromEveryStart` is exact for every schedule.
- Schedule.Next: UTC only; other time zones leave open which of two ambiguous instants is meant.
- SQL text, audit rows, JSON, logging and notifications of the services; database errors other than the guards' own outcomes appear as steps that simply do not happen.
- Triggering by cell changes and its failure records appear as steps of `Automation` only.
- AutomationService.Service.RunDueSchedules: each automation is served once per call, as the query delivers it.
- `agent_runs.state` and plan mirrors, which are written without guards.
- SagaAgent.Agent.Approve: nobody else changes the workbook meanwhile; an error while only reading marks the call failed although the program leaves its status as it was.
- Saga.CompensationRestores: excludes an error reported after a commit, whose exact consequences are in `SagaLeak`; a report that broke midway and then cannot delete its own sheet is not modelled.
- SagaAgain.EffectiveIff: nobody else changes the workbook between the attempts, and none of them broke after a commit.
- SagaRetry.InterruptedRetry: speaks of plans of tools alone; a plan with cell changes answers from its applied row without running any tool again.
- The workbook store itself: kinds of objects carry their content as text, an undone operation restores the cells that still hold what it wrote.
- AnswerCache.Fetcher.One: dialling, redirects, sizes and CSV parsing are inside the far side's answer; reading an address text is a parameter.
- AnswerCache.HostAllowed: lower-casing and trimming are ASCII.
- Rounding: numbers are exact reals; of the conversion to binary floating point only the collapse of large magnitudes is modelled.
- Annuity: whole numbers of periods; NPER, RATE and depreciation are left out.
- GroupBy.PivotBy: how a label reads as a number and as text, and its key text, are parameters; option arguments are taken as already read.
- Bond coupons, statistical distributions, number formats, prompts, the HTTP gateway, sign-in, WebSocket transport and the front end.

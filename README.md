# usetesting, modelled in Dafny

`usetesting` is a Go static analyzer (a `golang.org/x/tools/go/analysis`
pass). Inside test functions it reports calls that have a replacement on the
test handle:

- `os.MkdirTemp` and `os.TempDir` → `t.TempDir`;
- `os.Setenv` → `t.Setenv`;
- `os.Chdir` → `t.Chdir`;
- `context.Background` and `context.TODO` → `t.Context`;
- `os.CreateTemp("", …)` → `os.CreateTemp(t.TempDir(), …)`.

A function is a test function when its first parameter has type `*testing.T`,
`*testing.B`, `*testing.F` or `testing.TB`. The Chdir and context rules only
fire for packages declaring Go 1.24 or later.

This project models the analyzer's core and proves properties of it:

- which functions are scanned;
- the Go version gate;
- the walk over statements and expressions;
- the rule switch that decides whether a node is reported, and with which message;
- the per-function dispatch of `run`.

## Structure

| file | module | contents |
|---|---|---|
| `wrappers.dfy` | `Wrappers` | `Option` and `ToSeq` |
| `ast.dfy` | `Ast` | the fragment of `go/ast` the walk reads; `IsExported` |
| `settings.dfy` | `Settings` | name constants, the flag record `Config`, `FuncInfo`, the `Resolver` standing for `go/types`, `Message`, `Diagnostic` |
| `gotext.dfy` | `GoText` | `strings.TrimPrefix`, `strings.Split`, `strings.Join`, `strconv.Atoi`, and lemmas about them |
| `report.dfy` | `Report` | the matcher of `report.go`: the rule switch as a table of six rules, `reportSelector`, `reportIdent`, `reportCallExpr` |
| `usetesting.dfy` | `UseTesting` | from `usetesting.go`: eligibility, version gate, the walk as functions (`ExprDiags`, `StmtDiags`…), and the class `Analyzer` that carries out the walk step by step |
| `traversal_facts.dfy` | `TraversalFacts` | properties of the whole walk |
| `earlier_revision.dfy` | `EarlierRevision` | the matcher as `usetesting.go` itself writes it, proved equal to `Report` under that revision's settings |
| `scenarios.dfy` | `Scenarios` | functions from the repository's test data, with the diagnostics they are expected to produce |

### How the walk is specified

The walk itself (`checkStmt`, `checkExpr`, `checkStmts`, `checkExprs`,
`checkFunc`, `run`) changes state: each `pass.Reportf` appends a diagnostic.
It is modelled by the class `UseTesting.Analyzer`, whose field `diagnostics`
holds what has been reported so far. Each method is proved to append exactly
what a specification function gives for its node. For example, `CheckStmt`
ensures `diagnostics == old(diagnostics) + StmtDiags(scan, s)`.

The properties of the analyzer are then proved as lemmas about those
specification functions:

- soundness: every message is a sanctioned one for the scanned function;
- flags and the version gate: what each silences;
- how literals are walked: a nested literal is reported twice;
- the repository's test cases.

### Two revisions in one core

`usetesting.go` and `report.go` come from different revisions of the
analyzer.

`usetesting.go`, the earlier revision, has:

- four flags;
- a `report` with four cases;
- an identifier check against a fixed list of four names;
- messages that name the package `testing` where the handle goes.

`report.go`, the later revision, has:

- seven flags and a `fieldNames` list;
- a `FuncInfo` record holding the function name and the handle name;
- a `report` with six cases;
- the CreateTemp rule `reportCallExpr`;
- messages that name the handle.

The model uses the walk, eligibility, version gate and early exit of
`usetesting.go`, together with the matcher of `report.go`, because the
matcher is a superset of the earlier one.

`EarlierRevision` restates the earlier matcher exactly as `usetesting.go`
writes it. It proves that, case by case, the earlier matcher equals the
`report.go` matcher under these settings:

- no TempDir, Setenv or CreateTemp rule;
- the four names as `fieldNames`;
- `testing` as the handle.

The test data also comes from several revisions. The expected handle in a
message appears as `testing`, `<t/b/tb>`, `<t/b/f>` or the parameter's own
name. The scenarios use the `report.go` form: the parameter's name, or
`<t/b/f>` when the parameter is unnamed or `_`.

### Modelling choices in the walk

- **Calls.** `usetesting.go` walks a call's arguments, then its callee, and
  never calls `reportCallExpr`. The model calls it between the two, because
  `report.go` returns a fired flag for a caller to act on:
  1. walk the arguments;
  2. try `reportCallExpr`;
  3. walk the callee only if `reportCallExpr` did not fire.

  `TraversalFacts.CallVisitsArgsThenCallee` proves this is the same as always
  walking the callee. The reason is that when `reportCallExpr` fires, the
  callee (`os.CreateTemp` or `CreateTemp`) reports nothing
  (`TraversalFacts.CalleeSilentAfterCreateTemp`).
- **If and labeled statements.** The code visits only an `if` statement's
  init, never its body or `else` branch, and skips a labeled statement's inner
  statement. The model does the same (`Scenarios.IfBodyNotVisited`).
- **Declarations without a body.** A function declared in Go and implemented
  in assembly has a nil body. For an eligible one, `checkFunc` reads
  `block.List` of that nil block (usetesting.go:100) and panics. The model
  skips such a declaration, and `UseTesting.RootDiagsAsWritten` records the
  panic (see "## Findings").
- **Turning a setting off.** Turning off one rule's flag, the Go 1.24 gate or
  the CreateTemp flag removes exactly the diagnostics of that rule (or of the
  three gated rules, or the rewrites), and keeps every other diagnostic in its
  place (`TraversalFacts.RootsDisabled`).
- **Early exit.** `run` exits early when the four flags of `usetesting.go`
  are off, even if TempDir, Setenv or CreateTemp is on.
  `TraversalFacts.EarlyExitIgnoresOtherFlags` and
  `Scenarios.SetenvAloneIsSkippedByRun` state this.

## Model

| member | source | states |
|---|---|---|
| UseTesting.CheckSelectorName | usetesting.go:294-300 | true exactly when the selector's qualifier is an identifier spelled as the package name and its name is one of the listed names |
| UseTesting.IsTestFunction | usetesting.go:280-292 | true exactly for `*P.T`, `*P.B`, `*P.F` and `P.TB`, with P the given package name |
| UseTesting.ArgName | testdata/src/oscreatetemp/nottestfiles/nottestfiles_test.go:10-16 | the handle is the first parameter's name, or `<t/b/f>` when it is unnamed or `_` |
| UseTesting.IsGoSupported | usetesting.go:302-328 | skipping detection passes; a toolchain without go1.22 fails; the empty (development) version passes; otherwise the first two dot parts, joined, must read as an integer of at least 124, with 116 standing in for a non-integer |
| UseTesting.VersionNumber | usetesting.go:320-325 | the number compared with 124: the first two parts joined and read by Atoi, or 116 when they do not parse; it always lies in the int64 range |
| UseTesting.GoOneParts | usetesting.go:320 | `go1.<d>` splits into the parts `1` and d once `go` is trimmed |
| UseTesting.GoOneNumber | usetesting.go:320-325 | the number read from `go1.<d>` is 1 followed by the digits of d |
| UseTesting.MinorVersionGate | usetesting.go:302-328 | for every minor version m below 10^9, `go1.<m>` passes the gate exactly when m ≥ 24 |
| UseTesting.HugeMinorRefused | usetesting.go:320-327 | a minor of nineteen or more digits makes `1` followed by it overflow the int that Atoi reads, so the version falls back to 116 and is refused |
| UseTesting.NonNumericVersionFallsBack | usetesting.go:322-325 | `go1.24rc1` does not parse, so it falls back to 116 and is refused |
| UseTesting.DeclValues | usetesting.go:131-142 | a declaration's values are walked exactly when it is a GenDecl whose first spec is a ValueSpec; when the code as written does not panic, it agrees with that code |
| UseTesting.EmptyVarGroupPanics | usetesting.go:137 | `var ()` makes the lookup as written index an empty spec list; the corrected lookup skips it |
| UseTesting.DeclValuesAsWritten | usetesting.go:131-140 | the lookup exactly as written: out of range exactly for a GenDecl with no specs; values found only for a GenDecl whose first spec is a ValueSpec |
| UseTesting.SanctionedConcat | usetesting.go:268-278 | appending two runs of sanctioned diagnostics gives sanctioned diagnostics |
| UseTesting.ExprDiags | usetesting.go:176-209 | the specification of checkExpr: the diagnostics of an expression in emission order (binary operands left to right; selector and identifier through the matcher; a literal's body; an assertion's operand; a call's arguments, then the CreateTemp diagnostic or the callee); `Analyzer.CheckExpr` is proved to append exactly this |
| UseTesting.StmtDiags | usetesting.go:104-174 | the specification of checkStmt: for each statement kind, the diagnostics of exactly the children the code visits, in its order; `Analyzer.CheckStmt` is proved to append exactly this |
| UseTesting.ExprSanctioned | usetesting.go:176-209 | every diagnostic an expression produces names the scanned function and its handle, and comes from a rule that was enabled and allowed by the version gate, or from the enabled CreateTemp rule |
| UseTesting.ExprsSanctioned | usetesting.go:274-278 | the same for a list of expressions |
| UseTesting.StmtSanctioned | usetesting.go:104-174 | the same for a statement |
| UseTesting.StmtsSanctioned | usetesting.go:268-272 | the same for a list of statements |
| UseTesting.StmtsDiagsAppend | usetesting.go:268-272 | walking a + b gives a's diagnostics followed by b's |
| UseTesting.ExprsDiagsAppend | usetesting.go:274-278 | walking a + b gives a's diagnostics followed by b's |
| UseTesting.StmtsPrefixStep | usetesting.go:268-272 | after one more loop step, the diagnostics cover one more statement of the list |
| UseTesting.ExprsPrefixStep | usetesting.go:274-278 | after one more loop step, the diagnostics cover one more expression of the list |
| UseTesting.RootsDiagsAppend | usetesting.go:78-86 | the dispatch over a + b reports a's nodes, then b's |
| UseTesting.RootsDiagsSnoc | usetesting.go:78-86 | the dispatch over a + [r] reports a's nodes, then r |
| UseTesting.RootsPrefixStep | usetesting.go:78-86 | after one more dispatch step, the diagnostics cover one more node |
| UseTesting.FuncDiags | usetesting.go:91-101 | the specification of checkFunc: an eligible function's body walked with its name and handle, nothing otherwise; `Analyzer.CheckFunc` is proved to append exactly this |
| UseTesting.RootDiags | usetesting.go:78-101 | a declaration without a body reports nothing; wherever the code as written does not panic, the result agrees with it |
| UseTesting.RootDiagsAsWritten | usetesting.go:91-101 | checkFunc exactly as written: a non-eligible node reports nothing, an eligible declaration without a body dereferences nil |
| UseTesting.BodilessTestFunctionPanics | usetesting.go:100 | `func BenchmarkX(b *testing.B)` without a body makes the code as written dereference nil; the corrected dispatch reports nothing |
| UseTesting.RootsDiags | usetesting.go:78-86 | the specification of the Preorder dispatch: each function node's diagnostics, in node order; `Analyzer.CheckRoots` is proved to append exactly this |
| UseTesting.RunDiags | usetesting.go:64-89 | the specification of run: nothing when the four flags are off, otherwise the dispatch under the gate computed once; `Analyzer.Run` is proved to append exactly this |
| UseTesting.Analyzer.constructor | usetesting.go:47 | a new analyzer has the given flags, the gate off and nothing reported |
| UseTesting.Analyzer.Run | usetesting.go:64-89 | appends nothing when the four flags are off; otherwise computes the gate once, records it, and appends the dispatch over every function node |
| UseTesting.Analyzer.CheckRoots | usetesting.go:78-86 | appends the diagnostics of every function node, in order |
| UseTesting.Analyzer.CheckRoot | usetesting.go:79-85 | a declared function is checked under its name, a literal under `anonymous function` |
| UseTesting.Analyzer.CheckFunc | usetesting.go:91-101 | appends the body's diagnostics when the first parameter has a test handle type, and nothing otherwise |
| UseTesting.Analyzer.CheckStmt | usetesting.go:104-174 | appends exactly the diagnostics of the parts of the statement the walk visits, in order |
| UseTesting.Analyzer.CheckExpr | usetesting.go:176-209 | appends exactly the diagnostics of the expression: a call's arguments, then either the CreateTemp diagnostic or the callee's diagnostics |
| UseTesting.Analyzer.CheckStmts | usetesting.go:268-272 | appends each statement's diagnostics in order |
| UseTesting.Analyzer.CheckExprs | usetesting.go:274-278 | appends each expression's diagnostics in order |
| Report.FirstRule | report.go:91-111 | the rule found applies and is in the list; none is found exactly when no rule of the list applies |
| Report.TableRuleInOrder | report.go:91-111 | the rule that fires is the first of the six cases, in their source order, whose condition holds |
| Report.FirstRuleStep | report.go:91-111 | searching from case k gives case k if it holds, otherwise the search from case k + 1 |
| Report.AppliesByCase | report.go:93-108 | each table rule holds under exactly the condition written in its case: the flag, the Go 1.24 gate where the case has it, the package and the name |
| Report.Emit | report.go:113-118 | the diagnostic is at the given position, and its message uses the function's handle and name |
| Report.Report | report.go:91-111 | emits exactly when a table rule fires, with that rule's replacement, the handle and the function name |
| Report.PkgNameOf | report.go:130-138 | the resolved package name, or "" when the identifier does not resolve to a package |
| Report.ReportSelector | report.go:63-74 | fires exactly when X is an identifier, Sel is exported and the rule for (X's text, Sel) fires; the message names the pair and the rule's replacement |
| Report.ReportIdent | report.go:76-88 | fires exactly when the name is exported, listed in fieldNames and its resolved package's rule fires; an unresolved identifier never fires |
| Report.ReportCallExpr | report.go:14-61 | fires exactly when the CreateTemp flag is on, the call has two arguments, the callee is `os.CreateTemp` (written with the `os` qualifier, or a bare identifier resolved to `os`) and the first argument is `""` |
| Report.IsFirstArgEmptyString | report.go:121-128 | true exactly when the first argument is a string literal whose source text is `""` |
| Report.EmptyStringArgument | report.go:121-128 | `""` is recognised; `"xx"`, a call such as `t.TempDir()` and the empty raw literal (two back-quotes) are not, because the literal's source text is compared |
| Report.CalleeIsOsCreateTemp | report.go:23-57 | a recognised callee is named CreateTemp, either as a selector or as an identifier the type checker resolves |
| Report.RuleOf | report.go:91-111 | each flag has its rule in the table |
| Report.AtMostOneRuleApplies | report.go:91-111 | no two cases can hold at once, so the order of the cases never matters |
| Report.TableRuleIsRuleOf | report.go:91-111 | the rule that fires is the one for that pair, with its flag on and its version gate met |
| Report.WithFlag | report.go:93-108 | changing one flag leaves every other setting unchanged |
| Report.FlagOffSilencesOnlyItsRule | report.go:91-111 | turning one flag off silences its own pair and leaves every other pair's result unchanged |
| Report.AppliesWithFlagOff | report.go:91-111 | with flag f off, a rule holds exactly when it is not f's rule and it held before |
| Report.VersionGateOnRules | report.go:102-109 | below Go 1.24 Chdir, Background and TODO never fire; from 1.24 on they fire exactly when their flags are on; the other rules ignore the gate |
| Report.OnlyTrackedPairsFire | report.go:91-111 | only the six tracked pairs can fire; CreateTemp never fires through the switch, and neither does an unresolved package "" |
| GoText.TrimPrefix | usetesting.go:320 | with the prefix present, s is the prefix followed by the result; otherwise s is returned unchanged |
| GoText.Split | usetesting.go:320 | the result has at least one part, and no part contains the separator |
| GoText.Join | usetesting.go:322 | a non-empty join starts with its first part |
| GoText.JoinPair | usetesting.go:322 | joining two parts puts the separator between them |
| GoText.JoinSplit | usetesting.go:320-322 | joining the parts of a split with its separator gives back the original string |
| GoText.SplitWithoutSep | usetesting.go:320 | a string without the separator splits into itself |
| GoText.SplitAtFirst | usetesting.go:320 | splitting a + sep + b, where a has no separator, gives a followed by the parts of b |
| GoText.Atoi | usetesting.go:322 | a parsed value lies in the int64 range and comes from text starting with a digit or a sign |
| GoText.AtoiRejectsNonDigit | usetesting.go:322-325 | a non-digit past the first character makes parsing fail |
| GoText.AtoiDigits | usetesting.go:322 | a digit string whose value fits int64 parses to its value |
| GoText.AtoiDecimal | usetesting.go:322 | parsing the decimal spelling of n gives n back |
| GoText.DecimalValue | usetesting.go:322 | the value of the decimal spelling of n is n |
| GoText.DigitsValueAppend | usetesting.go:322 | the value of a + b is a's value shifted by b's length, plus b's value |
| GoText.LeadingOneValue | usetesting.go:322 | `1` followed by at most nine digits d parses to 10^|d| + d |
| GoText.LeadingOneOverflows | usetesting.go:322 | `1` followed by nineteen or more digits does not fit in an int, so Atoi fails |
| GoText.DigitsBelow | usetesting.go:322 | a k-digit string's value is below 10^k |
| TraversalFacts.CalleeSilentAfterCreateTemp | report.go:14-61 | when the CreateTemp rule fires, walking the callee reports nothing |
| TraversalFacts.CreateTempCalleeSilent | report.go:23-57 | a callee naming os.CreateTemp reports nothing itself under any settings, since no case of the switch names CreateTemp |
| TraversalFacts.CallVisitsArgsThenCallee | usetesting.go:193-198 | a call reports its arguments, then its callee, in the order usetesting.go walks them; the CreateTemp diagnostic, if any, sits between the two by the model's choice |
| TraversalFacts.RelabelAll | report.go:113-118 | relabelling keeps every diagnostic's position and call, and replaces its handle and function name |
| TraversalFacts.RelabelAllConcat | report.go:113-118 | relabelling distributes over concatenation |
| TraversalFacts.ExprRelabel | usetesting.go:176-209 | walking an expression for another function gives the same diagnostics with that function's handle and name |
| TraversalFacts.ExprsRelabel | usetesting.go:274-278 | the same for a list of expressions |
| TraversalFacts.StmtRelabel | usetesting.go:104-174 | the same for a statement |
| TraversalFacts.SwitchPartRelabel | usetesting.go:147-157 | the same for case clauses, switch statements and type switch statements |
| TraversalFacts.StmtsRelabel | usetesting.go:268-272 | the same for a list of statements |
| TraversalFacts.NonTestFunctionSilent | usetesting.go:91-98 | a function whose first parameter is not a test handle, or that has no parameter, reports nothing |
| TraversalFacts.TestFunctionScanned | usetesting.go:91-101 | an eligible function reports its body's diagnostics under its name and handle |
| TraversalFacts.NestedLiteralReportedTwice | usetesting.go:78-86 | a test literal inside a test function is walked inside the function and again as a node of its own; the second copy names `anonymous function` and the literal's handle |
| TraversalFacts.ExprSilent | usetesting.go:176-209 | with no rule able to fire, an expression reports nothing |
| TraversalFacts.ExprsSilent | usetesting.go:274-278 | the same for a list of expressions |
| TraversalFacts.StmtSilent | usetesting.go:104-174 | the same for a statement |
| TraversalFacts.StmtsSilent | usetesting.go:268-272 | the same for a list of statements |
| TraversalFacts.NoRuleEnabledNoDiagnostic | report.go:14-17 | with every flag off, a body reports nothing |
| TraversalFacts.FlagOffSilencedInBody | report.go:91-111 | with a flag off, no diagnostic of a body is about that flag's pair |
| TraversalFacts.BeforeGo124NoGatedRule | report.go:102-109 | below Go 1.24, no diagnostic of a body is about Chdir, Background or TODO |
| TraversalFacts.CreateTempOffNoRewrite | report.go:15-17 | with CreateTemp off, every diagnostic is a plain replacement |
| TraversalFacts.MessagesNameScannedFunction | report.go:113-118 | every message names the scanned function and its handle |
| TraversalFacts.EarlyExitIgnoresOtherFlags | usetesting.go:65-67 | with the four checked flags off, run reports nothing, even with TempDir, Setenv and CreateTemp on |
| TraversalFacts.SurvivingMembers | report.go:91-111 | what survives turning a setting off is exactly the diagnostics that setting does not silence |
| TraversalFacts.SurvivingConcat | usetesting.go:268-278 | removing silenced diagnostics distributes over concatenation |
| TraversalFacts.TableRuleDisabled | report.go:91-111 | with one setting off, the pairs it governs stop firing through the switch and every other pair fires as before |
| TraversalFacts.GateOffTableRule | report.go:102-109 | below Go 1.24 the gated names stop firing and every other pair fires as with the gate on |
| TraversalFacts.FirstRuleSameFlags | report.go:91-111 | the switch reads the settings only through the six rule flags, so the CreateTemp flag does not change it |
| TraversalFacts.SelectorDisabled | report.go:63-74 | a selector with one setting off reports what it reported, less what that setting silences |
| TraversalFacts.IdentDisabled | report.go:76-88 | an identifier with one setting off reports what it reported, less what that setting silences |
| TraversalFacts.ExprDisabled | usetesting.go:176-209 | an expression with one setting off reports what it reported, less exactly what that setting silences, in the same order |
| TraversalFacts.CallDisabled | usetesting.go:193-198 | the same for a call: with CreateTemp off the rewrite disappears and the callee then walked reports nothing |
| TraversalFacts.ExprsDisabled | usetesting.go:274-278 | the same for a list of expressions |
| TraversalFacts.StmtDisabled | usetesting.go:104-174 | the same for a statement |
| TraversalFacts.SwitchPartDisabled | usetesting.go:147-157 | the same for case clauses, switch statements and type switch statements |
| TraversalFacts.StmtsDisabled | usetesting.go:268-272 | the same for a list of statements |
| TraversalFacts.FuncDisabled | usetesting.go:91-101 | the same for one checked function |
| TraversalFacts.RootDisabled | usetesting.go:79-85 | the same for one dispatched node |
| TraversalFacts.RootsDisabled | usetesting.go:78-86 | over the whole dispatch, turning one setting off removes exactly what it silences and keeps every other diagnostic in order |
| TraversalFacts.FlagOffRemovesOnlyItsRule | report.go:91-111 | turning one rule's flag off removes exactly that rule's diagnostics from the package and leaves every other rule's diagnostics unchanged, in order |
| TraversalFacts.GateOffRemovesOnlyGatedRules | report.go:102-109 | below Go 1.24 exactly the Chdir, Background and TODO diagnostics go and every other diagnostic stays, in order |
| TraversalFacts.CreateTempOffRemovesOnlyRewrites | report.go:14-17 | turning CreateTemp off removes exactly the first-argument rewrites and keeps every other diagnostic, in order |
| EarlierRevision.EarlierSettings | usetesting.go:34-41 | the settings of the earlier revision: no TempDir, Setenv or CreateTemp rule, and the four listed names |
| EarlierRevision.ReportFourCases | usetesting.go:244-258 | the four-case switch equals the six-case matcher under the earlier settings, with `testing` as the handle |
| EarlierRevision.ReportSelectorEarlier | usetesting.go:211-222 | the earlier reportSelector equals the later one under the earlier settings |
| EarlierRevision.ReportIdentEarlier | usetesting.go:224-242 | the earlier reportIdent (four listed names, exported, resolved to a package) equals the later one under the earlier settings |
| EarlierRevision.EarlierCallOrder | usetesting.go:193-198 | under the earlier settings, a call reports its arguments, then its callee |
| Scenarios.CreateTempFirstArgument | testdata/src/oscreatetemp/nottestfiles/nottestfiles_test.go:22-27 | `os.CreateTemp("", …)` is reported twice; `os.CreateTemp(os.TempDir(), …)` and `os.CreateTemp(t.TempDir(), …)` are not |
| Scenarios.NonTestFunctionNotScanned | testdata/src/oscreatetemp/nottestfiles/nottestfiles_test.go:146-148 | `foobar()` reports nothing |
| Scenarios.UnnamedHandleMessage | testdata/src/oscreatetemp/nottestfiles/nottestfiles_test.go:10-12 | `_ *testing.T` is reported with the `<t/b/f>` handle |
| Scenarios.DotImportedCreateTemp | testdata/src/oscreatetemp/dot/dot_test.go:10-15 | a dot-imported `CreateTemp("", "")` that resolves to os is reported; `CreateTemp(TempDir(), "xx")` is not |
| Scenarios.UnresolvedCreateTempSilent | report.go:43-57 | a bare `CreateTemp` that does not resolve to os is not reported |
| Scenarios.SubtestCall | usetesting.go:193-198 | `t.Run(test.desc, f)` reports what f reports |
| Scenarios.UnexportedSelectorSilent | report.go:64-66 | a selector with an unexported name is never reported |
| Scenarios.UnexportedIdentSilent | report.go:77-79 | an unexported identifier is never reported |
| Scenarios.RangeOverSubtests | usetesting.go:125-126 | a range loop over `t.Run` subtests reports what the literal's body reports |
| Scenarios.NestedLiteralTwice | testdata/src/oscreatetemp/nottestfiles/nottestfiles_test.go:75-87 | the CreateTemp call inside the `t.Run` literal is reported twice: in the function and in the anonymous function |
| Scenarios.IfBodyNotVisited | testdata/src/oscreatetemp/nottestfiles/nottestfiles_test.go:39-43 | the call in the `if` init is reported; a call in the `if` body is not |
| Scenarios.TodoNeedsGo124 | testdata/src/contexttodo/basic/basic_test.go:12-14 | `context.TODO()` is reported from Go 1.24 on and not below |
| Scenarios.TodoDeepInArguments | testdata/src/contexttodo/basic/basic_test.go:51-66 | `context.TODO()` several calls deep inside arguments is reported once |
| Scenarios.TypeSwitchOn | usetesting.go:155-157 | a type switch reports what the asserted expression reports |
| Scenarios.TagSwitchOn | usetesting.go:151-153 | an expression switch reports what its tag reports |
| Scenarios.SetenvInSwitches | testdata/src/ossetenv/nottestfiles/nottestfiles_test.go:169-180 | `os.Setenv` under a type switch's assertion, and as a switch tag, is reported once each |
| Scenarios.SetenvAloneIsSkippedByRun | usetesting.go:65-67 | with only Setenv enabled, run reports nothing, although a scan of the same function would report it |
| Scenarios.Go124Passes | usetesting.go:320-327 | `go1.24` is readable and passes the gate |
| Scenarios.Go123Refused | usetesting.go:320-327 | `go1.23` is readable and is refused |
| Scenarios.VersionExamples | usetesting.go:302-328 | go1.24 passes; go1.23 does not; the development version passes; skip and an old toolchain decide before the version is read |

## Left out

- `NewAnalyzer`, flag registration, flag defaults and `os.LookupEnv("USETESTING_SKIP_GO_VERSION_CHECK")` are not modelled. The settings are a `Config` parameter of the analyzer.
- The `inspector.Preorder` traversal is not modelled. `Run` takes the package's `FuncDecl` and `FuncLit` nodes as a sequence, in preorder.
- `go/types` (`TypesInfo.ObjectOf(…).Pkg().Name()`) is a `Resolver` map from identifier positions to package names. An absent position stands for a nil object or a nil package.
- `build.Default.ReleaseTags` and `pass.Pkg.GoVersion()` are fields of the `Pass` parameter.
- `pass.Reportf` string formatting is not modelled. A message is the `Message` datatype holding the format's arguments.
- `Ast.IsExported` recognises only ASCII capitals; Go asks `unicode.IsUpper`.
- The `Sel == nil` guards of `report.go` are not modelled: a parsed selector always has a name, so `Sel` is a plain string.
- Nil statement bodies (`For.Body`, `Range.Body`, `Switch.Body` and the like) are not modelled: the parser always fills them. Nil optional children (`If.Init`, `Switch.Tag`) are `None`. A function declaration without a body is modelled; the source panics on an eligible one, which the model skips (see "## Findings").
- UseTesting.StmtDiags: an assignment with an empty right-hand side reports nothing. Go indexes `Rhs[0]`, but the parser never produces such an assignment.
- UseTesting.MinorVersionGate: states the gate only for minors below 10^9. Minors of ten to eighteen digits are not covered. From nineteen digits on, `HugeMinorRefused` shows that Atoi overflows and the gate refuses.
- UseTesting.IsGoSupported: requires a version with at least two dot-separated parts (or the empty version), because `vParts[:2]` panics on fewer parts.
- UseTesting.ArgName: neither usetesting.go nor report.go derives the handle name. The model takes it from the test data: the first parameter's name, or `<t/b/f>` when the parameter is unnamed or `_`.
- GoText.Atoi: accepts an optional sign and decimal digits within the int64 range, as `strconv.Atoi` does on 64-bit platforms. Like `strconv.Atoi` with base 10, it accepts no `_` separators and no base prefixes; the error value is not modelled beyond failure.
- UseTesting.Analyzer.Run: models one pass at a time, so the model assumes the passes run one after another. In the source, `run` stores the per-package gate in the field `geGo124` (usetesting.go:69) of the single analyzer that `NewAnalyzer` binds once for every package (usetesting.go:47-53). A driver that analyzes packages in parallel shares that field, so one package's walk can read another package's gate. The model does not capture that interleaving.
- The analysis framework's fact passing is not used by the core, so it is not modelled.

## Findings

| source | as written | input that shows it | evidently intended | confidence | as-written member | corrected member |
|---|---|---|---|---|---|---|
| usetesting.go:100 | `checkFunc` reads `block.List` without checking that the function has a body | `func BenchmarkX(b *testing.B)` declared without a body (implemented in assembly) | skip a declaration without a body | not executed | UseTesting.BodilessTestFunctionPanics | UseTesting.RootDiags |
| usetesting.go:137 | The DeclStmt case takes `genDecl.Specs[0]` without checking that the spec list is non-empty | `var ()` inside a test function: a GenDecl with no specs | skip an empty declaration group, as other declarations without values are skipped | not executed | UseTesting.EmptyVarGroupPanics | UseTesting.DeclValues |

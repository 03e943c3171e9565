/**
 * Concrete programs from the repository's testdata, written as trees, with the
 * diagnostics the model produces for them.  Positions are arbitrary distinct
 * numbers standing for the source positions of the nodes.
 */
module Scenarios {
  import opened Wrappers
  import opened Ast
  import opened Settings
  import opened Report
  import opened GoText
  import opened UseTesting

  // ---------------------------------------------------------------------------
  // Building blocks

  /** `pkg.Name` at position p. */
  function Qualified(p: Pos, pkg: string, name: string): Expr {
    Selector(p, Ident(p, pkg), name)
  }

  /** The raw text of the empty string literal. */
  const EmptyLit := "\"\""

  function StringLit(p: Pos, raw: string): Expr {
    BasicLit(p, STRING, raw)
  }

  /** The parameter list `(<name> *testing.T)`. */
  function TestParams(name: string): FuncType {
    FuncType([Field([name], Star(Qualified(0, TestingPkgName, "T")))])
  }

  /** Settings with the CreateTemp, MkdirTemp and Chdir rules on and the others off. */
  const CreateTempCfg := Config(
    contextBackground := false, contextTodo := false, osChdir := true, osMkdirTemp := true,
    osTempDir := false, osSetenv := false, osCreateTemp := true,
    skipGoVersionDetection := false,
    fieldNames := {ChdirName, MkdirTempName, TempDirName, SetenvName, BackgroundName, TodoName})

  /** Settings with only the TODO rule on among the four run checks, plus Setenv. */
  const TodoSetenvCfg := Config(
    contextBackground := false, contextTodo := true, osChdir := false, osMkdirTemp := false,
    osTempDir := false, osSetenv := true, osCreateTemp := false,
    skipGoVersionDetection := false,
    fieldNames := {ChdirName, MkdirTempName, TempDirName, SetenvName, BackgroundName, TodoName})

  function CreateTempMsg(handle: string, fnName: string): Message {
    ReplaceFirstArg(OsPkgName, CreateTempName, handle, TempDirName, fnName)
  }

  // ---------------------------------------------------------------------------
  // Evaluation steps

  lemma Stmts1(sc: Scan, a: Stmt)
    ensures StmtsDiags(sc, [a]) == StmtDiags(sc, a)
  {
    assert [a][1..] == [];
  }

  lemma Stmts2(sc: Scan, a: Stmt, b: Stmt)
    ensures StmtsDiags(sc, [a, b]) == StmtDiags(sc, a) + StmtDiags(sc, b)
  {
    assert [a, b][1..] == [b];
    Stmts1(sc, b);
  }

  lemma Exprs1(sc: Scan, a: Expr)
    ensures ExprsDiags(sc, [a]) == ExprDiags(sc, a)
  {
    assert [a][1..] == [];
  }

  lemma Exprs2(sc: Scan, a: Expr, b: Expr)
    ensures ExprsDiags(sc, [a, b]) == ExprDiags(sc, a) + ExprDiags(sc, b)
  {
    assert [a, b][1..] == [b];
    Exprs1(sc, b);
  }

  /** A selector `pkg.Name` whose pair no rule tracks under the settings emits nothing. */
  lemma QualifiedSilent(sc: Scan, p: Pos, pkg: string, name: string)
    requires TableRule(sc.cfg, sc.geGo124, pkg, name) == None
    ensures ExprDiags(sc, Qualified(p, pkg, name)) == []
  {
  }

  /** A selector `pkg.Name` whose rule fires emits its replacement. */
  lemma QualifiedFires(sc: Scan, p: Pos, pkg: string, name: string, r: Rule)
    requires IsExported(name) && TableRule(sc.cfg, sc.geGo124, pkg, name) == Some(r)
    ensures ExprDiags(sc, Qualified(p, pkg, name)) == [Diagnostic(p, Replace(pkg, name, sc.fn.argName, r.replacement, sc.fn.name))]
  {
  }

  /** A two-argument call whose callee and arguments emit nothing and which is no CreateTemp rewrite emits nothing. */
  lemma QuietCall2(sc: Scan, p: Pos, fun: Expr, a: Expr, b: Expr)
    requires ReportCallExpr(sc.cfg, sc.resolver, sc.fn, p, fun, [a, b]).None?
    requires ExprDiags(sc, fun) == [] && ExprDiags(sc, a) == [] && ExprDiags(sc, b) == []
    ensures ExprDiags(sc, Call(p, fun, [a, b])) == []
  {
    Exprs2(sc, a, b);
  }

  /** `os.CreateTemp("", x)` with a literal second argument, under the CreateTemp rule. */
  lemma EmptyCreateTemp(sc: Scan, p: Pos, q: Pos, r: Pos, raw: string)
    requires sc.cfg.osCreateTemp
    ensures ExprDiags(sc, Call(p, Qualified(p, OsPkgName, CreateTempName), [StringLit(q, EmptyLit), StringLit(r, raw)]))
      == [Diagnostic(p, CreateTempMsg(sc.fn.argName, sc.fn.name))]
  {
    var args := [StringLit(q, EmptyLit), StringLit(r, raw)];
    Exprs2(sc, args[0], args[1]);
    assert ExprsDiags(sc, args) == [];
    assert IsFirstArgEmptyString(args);
  }

  lemma Stmts4(sc: Scan, a: Stmt, b: Stmt, c: Stmt, d: Stmt)
    ensures StmtsDiags(sc, [a, b, c, d]) == StmtDiags(sc, a) + StmtDiags(sc, b) + StmtDiags(sc, c) + StmtDiags(sc, d)
  {
    Stmts2(sc, a, b);
    Stmts2(sc, c, d);
    StmtsDiagsAppend(sc, [a, b], [c, d]);
    assert [a, b, c, d] == [a, b] + [c, d];
  }

  /** The scan of a function `(<h> *testing.T)` is the walk of its body; `_` becomes the placeholder. */
  lemma ScanOfTest(cfg: Config, geGo124: bool, res: Resolver, h: string, body: seq<Stmt>, fnName: string)
    ensures FuncDiags(cfg, geGo124, res, TestParams(h), body, fnName)
      == StmtsDiags(Scan(cfg, geGo124, res, FuncInfo(fnName, if h == "_" then UnnamedHandle else h)), body)
  {
    assert IsTestFunction(TestParams(h).params[0].typ, TestingPkgName);
  }

  /** `os.CreateTemp(<pkg>.TempDir(), "xx")`: the first argument is no literal, and the inner call is silent when its pair has no rule. */
  lemma CreateTempOfCall(sc: Scan, p: Pos, q: Pos, r: Pos, pkg: string)
    requires TableRule(sc.cfg, sc.geGo124, pkg, TempDirName) == None
    ensures ExprDiags(sc, Call(p, Qualified(p, OsPkgName, CreateTempName), [Call(q, Qualified(q, pkg, TempDirName), []), StringLit(r, "\"xx\"")])) == []
  {
    var inner := Call(q, Qualified(q, pkg, TempDirName), []);
    QualifiedSilent(sc, q, pkg, TempDirName);
    assert ExprDiags(sc, inner) == [];
    OnlyTrackedPairsFire(sc.cfg, sc.geGo124, OsPkgName, CreateTempName);
    QualifiedSilent(sc, p, OsPkgName, CreateTempName);
    QuietCall2(sc, p, Qualified(p, OsPkgName, CreateTempName), inner, StringLit(r, "\"xx\""));
  }

  lemma Exprs3(sc: Scan, a: Expr, b: Expr, c: Expr)
    ensures ExprsDiags(sc, [a, b, c]) == ExprDiags(sc, a) + ExprDiags(sc, b) + ExprDiags(sc, c)
  {
    assert [a, b, c][1..] == [b, c];
    Exprs2(sc, b, c);
  }

  /** With the CreateTemp rule off, a call emits what its arguments emit, then what its callee emits. */
  lemma PlainCall(sc: Scan, p: Pos, fun: Expr, args: seq<Expr>)
    requires !sc.cfg.osCreateTemp
    ensures ExprDiags(sc, Call(p, fun, args)) == ExprsDiags(sc, args) + ExprDiags(sc, fun)
  {
  }

  /** A call of `pkg.Name` whose pair no rule tracks, on arguments that emit nothing, emits nothing. */
  lemma QuietCall(sc: Scan, p: Pos, pkg: string, name: string, args: seq<Expr>)
    requires !sc.cfg.osCreateTemp
    requires pkg != OsPkgName && pkg != ContextPkgName
    requires ExprsDiags(sc, args) == []
    ensures ExprDiags(sc, Call(p, Qualified(p, pkg, name), args)) == []
  {
    PlainCall(sc, p, Qualified(p, pkg, name), args);
    OnlyTrackedPairsFire(sc.cfg, sc.geGo124, pkg, name);
    QualifiedSilent(sc, p, pkg, name);
  }

  /** With `import . "os"`: `CreateTemp("", x)` resolved to os. */
  lemma DotEmptyCreateTemp(sc: Scan, p: Pos, q: Pos, r: Pos, raw: string)
    requires sc.cfg.osCreateTemp && p in sc.resolver && sc.resolver[p] == OsPkgName
    ensures ExprDiags(sc, Call(p, Ident(p, CreateTempName), [StringLit(q, EmptyLit), StringLit(r, raw)]))
      == [Diagnostic(p, CreateTempMsg(sc.fn.argName, sc.fn.name))]
  {
    var args := [StringLit(q, EmptyLit), StringLit(r, raw)];
    Exprs2(sc, args[0], args[1]);
    assert ExprsDiags(sc, args) == [];
    assert IsFirstArgEmptyString(args);
    assert CalleeIsOsCreateTemp(sc.resolver, Ident(p, CreateTempName));
  }

  /** With `import . "os"`: `CreateTemp(TempDir(), "xx")`, with TempDir's rule off. */
  lemma DotCreateTempOfCall(sc: Scan, p: Pos, q: Pos, r: Pos)
    requires TableRule(sc.cfg, sc.geGo124, PkgNameOf(sc.resolver, q), TempDirName) == None
    ensures ExprDiags(sc, Call(p, Ident(p, CreateTempName), [Call(q, Ident(q, TempDirName), []), StringLit(r, "\"xx\"")])) == []
  {
    var inner := Call(q, Ident(q, TempDirName), []);
    assert ExprDiags(sc, Ident(q, TempDirName)) == [];
    assert ExprDiags(sc, inner) == [];
    OnlyTrackedPairsFire(sc.cfg, sc.geGo124, PkgNameOf(sc.resolver, p), CreateTempName);
    assert ExprDiags(sc, Ident(p, CreateTempName)) == [];
    QuietCall2(sc, p, Ident(p, CreateTempName), inner, StringLit(r, "\"xx\""));
  }

  /** `os.Setenv("", "")` at position p. */
  function SetenvCall(p: Pos): Expr {
    Call(p, Qualified(p, OsPkgName, SetenvName), [StringLit(p + 1, EmptyLit), StringLit(p + 2, EmptyLit)])
  }

  lemma SetenvReported(sc: Scan, p: Pos)
    requires sc.cfg == TodoSetenvCfg
    ensures ExprDiags(sc, SetenvCall(p)) == [Diagnostic(p, Replace(OsPkgName, SetenvName, sc.fn.argName, SetenvName, sc.fn.name))]
  {
    PlainCall(sc, p, Qualified(p, OsPkgName, SetenvName), [StringLit(p + 1, EmptyLit), StringLit(p + 2, EmptyLit)]);
    Exprs2(sc, StringLit(p + 1, EmptyLit), StringLit(p + 2, EmptyLit));
    TableRuleInOrder(sc.cfg, sc.geGo124, OsPkgName, SetenvName);
    QualifiedFires(sc, p, OsPkgName, SetenvName, RuleTable[2]);
  }

  // ---------------------------------------------------------------------------
  // os.CreateTemp

  /**
   * FunctionExprStmt: the first argument decides.  `os.CreateTemp("", "")` and
   * `os.CreateTemp("", "xx")` are reported; `os.CreateTemp(os.TempDir(), "xx")`
   * and `os.CreateTemp(t.TempDir(), "xx")` are not, and with the TempDir rule
   * off neither is the inner os.TempDir().
   */
  lemma CreateTempFirstArgument()
    ensures
      var body := [
        ExprStmt(Call(1, Qualified(1, OsPkgName, CreateTempName), [StringLit(2, EmptyLit), StringLit(3, EmptyLit)])),
        ExprStmt(Call(4, Qualified(4, OsPkgName, CreateTempName), [StringLit(5, EmptyLit), StringLit(6, "\"xx\"")])),
        ExprStmt(Call(7, Qualified(7, OsPkgName, CreateTempName), [Call(8, Qualified(8, OsPkgName, TempDirName), []), StringLit(9, "\"xx\"")])),
        ExprStmt(Call(10, Qualified(10, OsPkgName, CreateTempName), [Call(11, Qualified(11, "t", TempDirName), []), StringLit(12, "\"xx\"")]))
      ];
      FuncDiags(CreateTempCfg, true, map[], TestParams("t"), body, "FunctionExprStmt")
        == [Diagnostic(1, CreateTempMsg("t", "FunctionExprStmt")), Diagnostic(4, CreateTempMsg("t", "FunctionExprStmt"))]
  {
    var sc := Scan(CreateTempCfg, true, map[], FuncInfo("FunctionExprStmt", "t"));
    var c1 := Call(1, Qualified(1, OsPkgName, CreateTempName), [StringLit(2, EmptyLit), StringLit(3, EmptyLit)]);
    var c2 := Call(4, Qualified(4, OsPkgName, CreateTempName), [StringLit(5, EmptyLit), StringLit(6, "\"xx\"")]);
    var c3 := Call(7, Qualified(7, OsPkgName, CreateTempName), [Call(8, Qualified(8, OsPkgName, TempDirName), []), StringLit(9, "\"xx\"")]);
    var c4 := Call(10, Qualified(10, OsPkgName, CreateTempName), [Call(11, Qualified(11, "t", TempDirName), []), StringLit(12, "\"xx\"")]);
    ScanOfTest(CreateTempCfg, true, map[], "t", [ExprStmt(c1), ExprStmt(c2), ExprStmt(c3), ExprStmt(c4)], "FunctionExprStmt");
    Stmts4(sc, ExprStmt(c1), ExprStmt(c2), ExprStmt(c3), ExprStmt(c4));
    EmptyCreateTemp(sc, 1, 2, 3, EmptyLit);
    EmptyCreateTemp(sc, 4, 5, 6, "\"xx\"");
    TableRuleInOrder(sc.cfg, true, OsPkgName, TempDirName);
    CreateTempOfCall(sc, 7, 8, 9, OsPkgName);
    TableRuleInOrder(sc.cfg, true, "t", TempDirName);
    CreateTempOfCall(sc, 10, 11, 12, "t");
  }

  /** foobar(): no parameter, so nothing in it is reported. */
  lemma NonTestFunctionNotScanned()
    ensures
      var body := [ExprStmt(Call(1, Qualified(1, OsPkgName, CreateTempName), [StringLit(2, EmptyLit), StringLit(3, EmptyLit)]))];
      FuncDiags(CreateTempCfg, true, map[], FuncType([]), body, "foobar") == []
  {
  }

  /** An unnamed handle `_ *testing.T` is reported with the placeholder. */
  lemma UnnamedHandleMessage()
    ensures
      var body := [ExprStmt(Call(1, Qualified(1, OsPkgName, CreateTempName), [StringLit(2, EmptyLit), StringLit(3, EmptyLit)]))];
      FuncDiags(CreateTempCfg, true, map[], TestParams("_"), body, "FunctionNoName")
        == [Diagnostic(1, CreateTempMsg(UnnamedHandle, "FunctionNoName"))]
  {
    var c := Call(1, Qualified(1, OsPkgName, CreateTempName), [StringLit(2, EmptyLit), StringLit(3, EmptyLit)]);
    var sc := Scan(CreateTempCfg, true, map[], FuncInfo("FunctionNoName", UnnamedHandle));
    ScanOfTest(CreateTempCfg, true, map[], "_", [ExprStmt(c)], "FunctionNoName");
    Stmts1(sc, ExprStmt(c));
    EmptyCreateTemp(sc, 1, 2, 3, EmptyLit);
  }

  /**
   * With `import . "os"` the callee is a bare CreateTemp that the type checker
   * resolves to os: `CreateTemp("", "")` is reported,
   * `CreateTemp(TempDir(), "xx")` is not.
   */
  lemma DotImportedCreateTemp()
    ensures
      var res := map[1 := OsPkgName, 7 := OsPkgName, 8 := OsPkgName];
      var body := [
        ExprStmt(Call(1, Ident(1, CreateTempName), [StringLit(2, EmptyLit), StringLit(3, EmptyLit)])),
        ExprStmt(Call(7, Ident(7, CreateTempName), [Call(8, Ident(8, TempDirName), []), StringLit(9, "\"xx\"")]))
      ];
      FuncDiags(CreateTempCfg, true, res, TestParams("t"), body, "Test_ExprStmt")
        == [Diagnostic(1, CreateTempMsg("t", "Test_ExprStmt"))]
  {
    var res := map[1 := OsPkgName, 7 := OsPkgName, 8 := OsPkgName];
    var c1 := Call(1, Ident(1, CreateTempName), [StringLit(2, EmptyLit), StringLit(3, EmptyLit)]);
    var c2 := Call(7, Ident(7, CreateTempName), [Call(8, Ident(8, TempDirName), []), StringLit(9, "\"xx\"")]);
    var sc := Scan(CreateTempCfg, true, res, FuncInfo("Test_ExprStmt", "t"));
    ScanOfTest(CreateTempCfg, true, res, "t", [ExprStmt(c1), ExprStmt(c2)], "Test_ExprStmt");
    Stmts2(sc, ExprStmt(c1), ExprStmt(c2));
    DotEmptyCreateTemp(sc, 1, 2, 3, EmptyLit);
    TableRuleInOrder(sc.cfg, true, OsPkgName, TempDirName);
    DotCreateTempOfCall(sc, 7, 8, 9);
  }

  /** A bare CreateTemp the type checker does not resolve to os is not reported. */
  lemma UnresolvedCreateTempSilent()
    ensures
      var body := [ExprStmt(Call(1, Ident(1, CreateTempName), [StringLit(2, EmptyLit), StringLit(3, EmptyLit)]))];
      FuncDiags(CreateTempCfg, true, map[], TestParams("t"), body, "Test_ExprStmt") == []
  {
    var c := Call(1, Ident(1, CreateTempName), [StringLit(2, EmptyLit), StringLit(3, EmptyLit)]);
    var sc := Scan(CreateTempCfg, true, map[], FuncInfo("Test_ExprStmt", "t"));
    ScanOfTest(CreateTempCfg, true, map[], "t", [ExprStmt(c)], "Test_ExprStmt");
    Stmts1(sc, ExprStmt(c));
    OnlyTrackedPairsFire(sc.cfg, true, "", CreateTempName);
    assert ExprDiags(sc, Ident(1, CreateTempName)) == [];
    QuietCall2(sc, 1, Ident(1, CreateTempName), StringLit(2, EmptyLit), StringLit(3, EmptyLit));
  }

  /** `t.Run(test.desc, f)` reports what f reports. */
  lemma SubtestCall(sc: Scan, p: Pos, f: Expr)
    ensures ExprDiags(sc, Call(p, Qualified(p, "t", "Run"), [Qualified(p + 1, "test", "desc"), f])) == ExprDiags(sc, f)
  {
    UnexportedSelectorSilent(sc, p + 1, "test", "desc");
    Exprs2(sc, Qualified(p + 1, "test", "desc"), f);
    OnlyTrackedPairsFire(sc.cfg, sc.geGo124, "t", "Run");
    QualifiedSilent(sc, p, "t", "Run");
    assert ReportCallExpr(sc.cfg, sc.resolver, sc.fn, p, Qualified(p, "t", "Run"), [Qualified(p + 1, "test", "desc"), f]) == None;
  }

  /** A selector whose name is not exported is never reported. */
  lemma UnexportedSelectorSilent(sc: Scan, p: Pos, pkg: string, name: string)
    requires !IsExported(name)
    ensures ExprDiags(sc, Qualified(p, pkg, name)) == []
  {
  }

  /**
   * `for _, test := range testCases { t.Run(test.desc, func...) }`: the loop
   * reports what the literal's body reports, and nothing else.
   */
  lemma RangeOverSubtests(sc: Scan, p: Pos, ft: FuncType, body: seq<Stmt>)
    ensures
      var run := Call(p + 14, Qualified(p + 14, "t", "Run"), [Qualified(p + 15, "test", "desc"), FuncLit(ft, body)]);
      StmtDiags(sc, Range(Some(Ident(p, "_")), Some(Ident(p + 1, "test")), Ident(p + 2, "testCases"), Block([ExprStmt(run)])))
        == StmtsDiags(sc, body)
  {
    var run := Call(p + 14, Qualified(p + 14, "t", "Run"), [Qualified(p + 15, "test", "desc"), FuncLit(ft, body)]);
    var block := Block([ExprStmt(run)]);
    SubtestCall(sc, p + 14, FuncLit(ft, body));
    assert ExprDiags(sc, FuncLit(ft, body)) == StmtsDiags(sc, body);
    Stmts1(sc, ExprStmt(run));
    assert StmtDiags(sc, block) == StmtsDiags(sc, body);
  }

  /**
   * FunctionFuncLit_ExprStmt: `os.CreateTemp("", "")` inside
   * `t.Run(test.desc, func(t *testing.T) { ... })` in a range loop.  The
   * literal is walked inside the function and again as a root of its own, so
   * its call is reported twice, the second time in the anonymous function.
   */
  lemma NestedLiteralTwice()
    ensures
      var createTemp := Call(20, Qualified(20, OsPkgName, CreateTempName), [StringLit(21, EmptyLit), StringLit(22, EmptyLit)]);
      var lit := FuncLit(TestParams("t"), [ExprStmt(createTemp)]);
      var run := Call(30, Qualified(30, "t", "Run"), [Qualified(31, "test", "desc"), lit]);
      var body := [
        Assign([Ident(15, "testCases")], [Composite(None, [])]),
        Range(Some(Ident(16, "_")), Some(Ident(17, "test")), Ident(18, "testCases"), Block([ExprStmt(run)]))
      ];
      var roots := [FuncDecl("FunctionFuncLit_ExprStmt", TestParams("t"), Some(body)), FuncLitNode(TestParams("t"), [ExprStmt(createTemp)])];
      RootsDiags(CreateTempCfg, true, map[], roots) == [
        Diagnostic(20, CreateTempMsg("t", "FunctionFuncLit_ExprStmt")),
        Diagnostic(20, CreateTempMsg("t", AnonymousFunction))
      ]
  {
    var createTemp := Call(20, Qualified(20, OsPkgName, CreateTempName), [StringLit(21, EmptyLit), StringLit(22, EmptyLit)]);
    var lit := FuncLit(TestParams("t"), [ExprStmt(createTemp)]);
    var run := Call(30, Qualified(30, "t", "Run"), [Qualified(31, "test", "desc"), lit]);
    var first := Assign([Ident(15, "testCases")], [Composite(None, [])]);
    var loop := Range(Some(Ident(16, "_")), Some(Ident(17, "test")), Ident(18, "testCases"), Block([ExprStmt(run)]));
    var body := [first, loop];
    var outer := Scan(CreateTempCfg, true, map[], FuncInfo("FunctionFuncLit_ExprStmt", "t"));
    var anon := Scan(CreateTempCfg, true, map[], FuncInfo(AnonymousFunction, "t"));

    ScanOfTest(CreateTempCfg, true, map[], "t", body, "FunctionFuncLit_ExprStmt");
    Stmts2(outer, first, loop);
    assert StmtDiags(outer, first) == [];
    Stmts1(outer, ExprStmt(createTemp));
    EmptyCreateTemp(outer, 20, 21, 22, EmptyLit);
    RangeOverSubtests(outer, 16, TestParams("t"), [ExprStmt(createTemp)]);

    var roots := [FuncDecl("FunctionFuncLit_ExprStmt", TestParams("t"), Some(body)), FuncLitNode(TestParams("t"), [ExprStmt(createTemp)])];
    ScanOfTest(CreateTempCfg, true, map[], "t", [ExprStmt(createTemp)], AnonymousFunction);
    Stmts1(anon, ExprStmt(createTemp));
    EmptyCreateTemp(anon, 20, 21, 22, EmptyLit);
    assert roots[1..][1..] == [];
    assert RootsDiags(CreateTempCfg, true, map[], roots[1..]) == RootDiags(CreateTempCfg, true, map[], roots[1]);
  }

  /** FunctionIfStmt, with a call added to the if body: only the init statement is visited. */
  lemma IfBodyNotVisited()
    ensures
      var call := Call(1, Qualified(1, OsPkgName, CreateTempName), [StringLit(2, EmptyLit), StringLit(3, EmptyLit)]);
      var initCall := Call(4, Qualified(4, OsPkgName, CreateTempName), [StringLit(5, EmptyLit), StringLit(6, EmptyLit)]);
      var body := [If(Some(Assign([Ident(7, "_"), Ident(8, "err")], [initCall])), Ident(9, "err"), Block([ExprStmt(call)]), None)];
      FuncDiags(CreateTempCfg, true, map[], TestParams("t"), body, "FunctionIfStmt")
        == [Diagnostic(4, CreateTempMsg("t", "FunctionIfStmt"))]
  {
    var call := Call(1, Qualified(1, OsPkgName, CreateTempName), [StringLit(2, EmptyLit), StringLit(3, EmptyLit)]);
    var initCall := Call(4, Qualified(4, OsPkgName, CreateTempName), [StringLit(5, EmptyLit), StringLit(6, EmptyLit)]);
    var ifStmt := If(Some(Assign([Ident(7, "_"), Ident(8, "err")], [initCall])), Ident(9, "err"), Block([ExprStmt(call)]), None);
    var sc := Scan(CreateTempCfg, true, map[], FuncInfo("FunctionIfStmt", "t"));
    ScanOfTest(CreateTempCfg, true, map[], "t", [ifStmt], "FunctionIfStmt");
    Stmts1(sc, ifStmt);
    EmptyCreateTemp(sc, 4, 5, 6, EmptyLit);
    var init := Assign([Ident(7, "_"), Ident(8, "err")], [initCall]);
    assert StmtDiags(sc, init) == ExprDiags(sc, initCall);
    assert StmtDiags(sc, ifStmt) == OptStmtDiags(sc, Some(init));
  }

  // ---------------------------------------------------------------------------
  // context.TODO and os.Setenv

  /** context.TODO() is reported from Go 1.24 on, and not below. */
  lemma TodoNeedsGo124()
    ensures
      var body := [ExprStmt(Call(1, Qualified(1, ContextPkgName, TodoName), []))];
      && FuncDiags(TodoSetenvCfg, true, map[], TestParams("t"), body, "Test_ExprStmt")
           == [Diagnostic(1, Replace(ContextPkgName, TodoName, "t", ContextName, "Test_ExprStmt"))]
      && FuncDiags(TodoSetenvCfg, false, map[], TestParams("t"), body, "Test_ExprStmt") == []
  {
    var c := Call(1, Qualified(1, ContextPkgName, TodoName), []);
    var info := FuncInfo("Test_ExprStmt", "t");
    var sc, pre := Scan(TodoSetenvCfg, true, map[], info), Scan(TodoSetenvCfg, false, map[], info);
    ScanOfTest(TodoSetenvCfg, true, map[], "t", [ExprStmt(c)], "Test_ExprStmt");
    ScanOfTest(TodoSetenvCfg, false, map[], "t", [ExprStmt(c)], "Test_ExprStmt");
    Stmts1(sc, ExprStmt(c));
    Stmts1(pre, ExprStmt(c));
    PlainCall(sc, 1, Qualified(1, ContextPkgName, TodoName), []);
    PlainCall(pre, 1, Qualified(1, ContextPkgName, TodoName), []);
    TableRuleInOrder(TodoSetenvCfg, true, ContextPkgName, TodoName);
    QualifiedFires(sc, 1, ContextPkgName, TodoName, RuleTable[5]);
    VersionGateOnRules(TodoSetenvCfg, ContextPkgName, TodoName);
    QualifiedSilent(pre, 1, ContextPkgName, TodoName);
  }

  /** Test_CallExpr_deep: context.TODO() four calls deep inside t.Log(...) is still found. */
  lemma TodoDeepInArguments()
    ensures
      var todo := Call(5, Qualified(5, ContextPkgName, TodoName), []);
      var inner := Call(4, Qualified(4, "fmt", "Sprintf"), [StringLit(40, "\"%s\""), todo]);
      var trimPrefix := Call(3, Qualified(3, "strings", "TrimPrefix"), [inner, StringLit(30, "\"a\"")]);
      var trimSuffix := Call(2, Qualified(2, "strings", "TrimSuffix"), [trimPrefix, StringLit(20, "\"b\"")]);
      var sprintf := Call(1, Qualified(1, "fmt", "Sprintf"), [StringLit(10, "\"here: %s, %s\""), trimSuffix, StringLit(11, "\"c\"")]);
      var body := [ExprStmt(Call(0, Qualified(0, "t", "Log"), [sprintf]))];
      FuncDiags(TodoSetenvCfg, true, map[], TestParams("t"), body, "Test_CallExpr_deep")
        == [Diagnostic(5, Replace(ContextPkgName, TodoName, "t", ContextName, "Test_CallExpr_deep"))]
  {
    var todo := Call(5, Qualified(5, ContextPkgName, TodoName), []);
    var inner := Call(4, Qualified(4, "fmt", "Sprintf"), [StringLit(40, "\"%s\""), todo]);
    var trimPrefix := Call(3, Qualified(3, "strings", "TrimPrefix"), [inner, StringLit(30, "\"a\"")]);
    var trimSuffix := Call(2, Qualified(2, "strings", "TrimSuffix"), [trimPrefix, StringLit(20, "\"b\"")]);
    var sprintf := Call(1, Qualified(1, "fmt", "Sprintf"), [StringLit(10, "\"here: %s, %s\""), trimSuffix, StringLit(11, "\"c\"")]);
    var log := Call(0, Qualified(0, "t", "Log"), [sprintf]);
    var sc := Scan(TodoSetenvCfg, true, map[], FuncInfo("Test_CallExpr_deep", "t"));
    var d := [Diagnostic(5, Replace(ContextPkgName, TodoName, "t", ContextName, "Test_CallExpr_deep"))];
    ScanOfTest(TodoSetenvCfg, true, map[], "t", [ExprStmt(log)], "Test_CallExpr_deep");
    Stmts1(sc, ExprStmt(log));

    PlainCall(sc, 5, Qualified(5, ContextPkgName, TodoName), []);
    TableRuleInOrder(TodoSetenvCfg, true, ContextPkgName, TodoName);
    QualifiedFires(sc, 5, ContextPkgName, TodoName, RuleTable[5]);
    assert ExprDiags(sc, todo) == d;

    PlainCall(sc, 4, Qualified(4, "fmt", "Sprintf"), [StringLit(40, "\"%s\""), todo]);
    Exprs2(sc, StringLit(40, "\"%s\""), todo);
    OnlyTrackedPairsFire(sc.cfg, true, "fmt", "Sprintf");
    QualifiedSilent(sc, 4, "fmt", "Sprintf");
    assert ExprDiags(sc, inner) == d;

    PlainCall(sc, 3, Qualified(3, "strings", "TrimPrefix"), [inner, StringLit(30, "\"a\"")]);
    Exprs2(sc, inner, StringLit(30, "\"a\""));
    OnlyTrackedPairsFire(sc.cfg, true, "strings", "TrimPrefix");
    QualifiedSilent(sc, 3, "strings", "TrimPrefix");
    assert ExprDiags(sc, trimPrefix) == d;

    PlainCall(sc, 2, Qualified(2, "strings", "TrimSuffix"), [trimPrefix, StringLit(20, "\"b\"")]);
    Exprs2(sc, trimPrefix, StringLit(20, "\"b\""));
    OnlyTrackedPairsFire(sc.cfg, true, "strings", "TrimSuffix");
    QualifiedSilent(sc, 2, "strings", "TrimSuffix");
    assert ExprDiags(sc, trimSuffix) == d;

    PlainCall(sc, 1, Qualified(1, "fmt", "Sprintf"), [StringLit(10, "\"here: %s, %s\""), trimSuffix, StringLit(11, "\"c\"")]);
    Exprs3(sc, StringLit(10, "\"here: %s, %s\""), trimSuffix, StringLit(11, "\"c\""));
    QualifiedSilent(sc, 1, "fmt", "Sprintf");
    assert ExprDiags(sc, sprintf) == d;

    PlainCall(sc, 0, Qualified(0, "t", "Log"), [sprintf]);
    Exprs1(sc, sprintf);
    OnlyTrackedPairsFire(sc.cfg, true, "t", "Log");
    QualifiedSilent(sc, 0, "t", "Log");
  }

  /** An identifier that is not exported is never reported. */
  lemma UnexportedIdentSilent(sc: Scan, p: Pos, name: string)
    requires !IsExported(name)
    ensures ExprDiags(sc, Ident(p, name)) == []
  {
  }

  /** A type switch on `v := e.(type)` with one quiet case reports what e reports. */
  lemma TypeSwitchOn(sc: Scan, p: Pos, e: Expr)
    ensures
      var clause := CaseClause([Ident(p + 10, "error")], [Assign([Ident(p + 11, "_")], [Ident(p + 12, "v")])]);
      StmtDiags(sc, TypeSwitch(None, Assign([Ident(p - 1, "v")], [TypeAssert(e, None)]), Block([clause])))
        == ExprDiags(sc, e)
  {
    var assign := Assign([Ident(p + 11, "_")], [Ident(p + 12, "v")]);
    var clause := CaseClause([Ident(p + 10, "error")], [assign]);
    UnexportedIdentSilent(sc, p + 10, "error");
    UnexportedIdentSilent(sc, p + 12, "v");
    Exprs1(sc, Ident(p + 10, "error"));
    Stmts1(sc, assign);
    assert StmtDiags(sc, clause) == [];
    Stmts1(sc, clause);
    assert StmtDiags(sc, Block([clause])) == [];
    assert ExprDiags(sc, TypeAssert(e, None)) == ExprDiags(sc, e);
    assert StmtDiags(sc, Assign([Ident(p - 1, "v")], [TypeAssert(e, None)])) == ExprDiags(sc, e);
  }

  /** An expression switch on tag e with one quiet case reports what e reports. */
  lemma TagSwitchOn(sc: Scan, p: Pos, e: Expr)
    ensures StmtDiags(sc, Switch(None, Some(e), Block([CaseClause([Ident(p + 10, "nil")], [])]))) == ExprDiags(sc, e)
  {
    var clause := CaseClause([Ident(p + 10, "nil")], []);
    UnexportedIdentSilent(sc, p + 10, "nil");
    Exprs1(sc, Ident(p + 10, "nil"));
    assert StmtDiags(sc, clause) == [];
    Stmts1(sc, clause);
  }

  /**
   * FunctionTypeSwitchStmt_AssignStmt and FunctionSwitchStmt_Tag: os.Setenv
   * under a type assertion in a type switch, and as a switch tag, is reported.
   */
  lemma SetenvInSwitches()
    ensures
      var typeSwitch := TypeSwitch(None, Assign([Ident(9, "v")], [TypeAssert(SetenvCall(10), None)]),
                                   Block([CaseClause([Ident(20, "error")], [Assign([Ident(21, "_")], [Ident(22, "v")])])]));
      FuncDiags(TodoSetenvCfg, true, map[], TestParams("t"), [typeSwitch], "FunctionTypeSwitchStmt_AssignStmt")
        == [Diagnostic(10, Replace(OsPkgName, SetenvName, "t", SetenvName, "FunctionTypeSwitchStmt_AssignStmt"))]
    ensures
      var tagSwitch := Switch(None, Some(SetenvCall(30)), Block([CaseClause([Ident(40, "nil")], [])]));
      FuncDiags(TodoSetenvCfg, true, map[], TestParams("t"), [tagSwitch], "FunctionSwitchStmt_Tag")
        == [Diagnostic(30, Replace(OsPkgName, SetenvName, "t", SetenvName, "FunctionSwitchStmt_Tag"))]
  {
    var typeSwitch := TypeSwitch(None, Assign([Ident(9, "v")], [TypeAssert(SetenvCall(10), None)]),
                                 Block([CaseClause([Ident(20, "error")], [Assign([Ident(21, "_")], [Ident(22, "v")])])]));
    var tagSwitch := Switch(None, Some(SetenvCall(30)), Block([CaseClause([Ident(40, "nil")], [])]));
    var sc1 := Scan(TodoSetenvCfg, true, map[], FuncInfo("FunctionTypeSwitchStmt_AssignStmt", "t"));
    var sc2 := Scan(TodoSetenvCfg, true, map[], FuncInfo("FunctionSwitchStmt_Tag", "t"));
    ScanOfTest(TodoSetenvCfg, true, map[], "t", [typeSwitch], "FunctionTypeSwitchStmt_AssignStmt");
    ScanOfTest(TodoSetenvCfg, true, map[], "t", [tagSwitch], "FunctionSwitchStmt_Tag");
    Stmts1(sc1, typeSwitch);
    Stmts1(sc2, tagSwitch);
    TypeSwitchOn(sc1, 10, SetenvCall(10));
    TagSwitchOn(sc2, 30, SetenvCall(30));
    SetenvReported(sc1, 10);
    SetenvReported(sc2, 30);
  }

  /**
   * run looks only at four flags before walking: with TODO off as well, the
   * Setenv rule alone never gets to fire, although a scan would report it.
   */
  lemma SetenvAloneIsSkippedByRun()
    ensures
      var cfg := TodoSetenvCfg.(contextTodo := false);
      var roots := [FuncDecl("Test_ExprStmt", TestParams("t"), Some([ExprStmt(SetenvCall(1))]))];
      && RunDiags(cfg, Pass(map[], "go1.24", true), roots) == []
      && RootsDiags(cfg, true, map[], roots) == [Diagnostic(1, Replace(OsPkgName, SetenvName, "t", SetenvName, "Test_ExprStmt"))]
  {
    var cfg := TodoSetenvCfg.(contextTodo := false);
    var sc := Scan(cfg, true, map[], FuncInfo("Test_ExprStmt", "t"));
    var roots := [FuncDecl("Test_ExprStmt", TestParams("t"), Some([ExprStmt(SetenvCall(1))]))];
    ScanOfTest(cfg, true, map[], "t", [ExprStmt(SetenvCall(1))], "Test_ExprStmt");
    Stmts1(sc, ExprStmt(SetenvCall(1)));
    PlainCall(sc, 1, Qualified(1, OsPkgName, SetenvName), [StringLit(2, EmptyLit), StringLit(3, EmptyLit)]);
    Exprs2(sc, StringLit(2, EmptyLit), StringLit(3, EmptyLit));
    TableRuleInOrder(cfg, true, OsPkgName, SetenvName);
    QualifiedFires(sc, 1, OsPkgName, SetenvName, RuleTable[2]);
    assert roots[1..] == [];
  }

  // ---------------------------------------------------------------------------
  // The version gate

  /** go1.24 reads as 124 and passes the gate. */
  lemma Go124Passes()
    ensures VersionReadable("go1.24") && IsGoSupported(false, true, "go1.24")
  {
    assert "go1.24" == "go1." + "24";
    assert AllDigits("24");
    GoOneNumber("24");
    assert DigitsValue("24") == 24 by { assert "24"[..1] == "2"; assert "2"[..0] == []; }
  }

  /** go1.23 reads as 123 and is refused. */
  lemma Go123Refused()
    ensures VersionReadable("go1.23") && !IsGoSupported(false, true, "go1.23")
  {
    assert "go1.23" == "go1." + "23";
    assert AllDigits("23");
    GoOneNumber("23");
    assert DigitsValue("23") == 23 by { assert "23"[..1] == "2"; assert "2"[..0] == []; }
  }

  /** go1.24 passes, go1.23 does not, the development version "" passes, and the two switches decide first. */
  lemma VersionExamples()
    ensures IsGoSupported(false, true, "go1.24")
    ensures !IsGoSupported(false, true, "go1.23")
    ensures IsGoSupported(false, true, "")
    ensures IsGoSupported(true, false, "go1.2")
    ensures !IsGoSupported(false, false, "go1.24")
  {
    Go124Passes();
    Go123Refused();
  }
}

/**
 * The matcher as usetesting.go itself writes it: a four-case switch (MkdirTemp,
 * Chdir, Background, TODO), a bare identifier considered only for those four
 * names and only when it resolves to a package, and messages that name the
 * package `testing` instead of the handle.  Each entry point is proved to agree
 * with the report.go matcher of module Report under the settings that revision
 * has: no TempDir, Setenv or CreateTemp rule and the four names as fieldNames.
 */
module EarlierRevision {
  import opened Wrappers
  import opened Ast
  import opened Settings
  import opened Report
  import opened UseTesting
  import TraversalFacts

  /** The names the earlier reportIdent considers. */
  const ListedNames: seq<string> := [ChdirName, MkdirTempName, BackgroundName, TodoName]

  /** The report.go settings that behave as the earlier revision does. */
  function EarlierSettings(cfg: Config): (c: Config)
    ensures !c.osTempDir && !c.osSetenv && !c.osCreateTemp
    ensures c.fieldNames == {ChdirName, MkdirTempName, BackgroundName, TodoName}
    ensures c.osMkdirTemp == cfg.osMkdirTemp && c.osChdir == cfg.osChdir
    ensures c.contextBackground == cfg.contextBackground && c.contextTodo == cfg.contextTodo
  {
    cfg.(osTempDir := false, osSetenv := false, osCreateTemp := false,
         fieldNames := {ChdirName, MkdirTempName, BackgroundName, TodoName})
  }

  /** The record the earlier messages are built from: the function's name, and `testing` where the handle goes. */
  function EarlierInfo(fnName: string): FuncInfo {
    FuncInfo(fnName, TestingPkgName)
  }

  /** The earlier `report`: four cases, the first that holds emits. */
  function ReportFourCases(cfg: Config, geGo124: bool, pos: Pos, origPkgName: string, origName: string, fnName: string): (d: Option<Diagnostic>)
    ensures d == Report.Report(EarlierSettings(cfg), geGo124, pos, origPkgName, origName, EarlierInfo(fnName))
  {
    TableRuleInOrder(EarlierSettings(cfg), geGo124, origPkgName, origName);
    if cfg.osMkdirTemp && origPkgName == OsPkgName && origName == MkdirTempName then
      Some(Emit(pos, origPkgName, origName, TempDirName, EarlierInfo(fnName)))
    else if geGo124 && cfg.osChdir && origPkgName == OsPkgName && origName == ChdirName then
      Some(Emit(pos, origPkgName, origName, ChdirName, EarlierInfo(fnName)))
    else if geGo124 && cfg.contextBackground && origPkgName == ContextPkgName && origName == BackgroundName then
      Some(Emit(pos, origPkgName, origName, ContextName, EarlierInfo(fnName)))
    else if geGo124 && cfg.contextTodo && origPkgName == ContextPkgName && origName == TodoName then
      Some(Emit(pos, origPkgName, origName, ContextName, EarlierInfo(fnName)))
    else
      None
  }

  /** The earlier reportSelector: X must be an identifier, then Sel must be exported. */
  function ReportSelectorEarlier(cfg: Config, geGo124: bool, pos: Pos, x: Expr, sel: string, fnName: string): (d: Option<Diagnostic>)
    ensures d == ReportSelector(EarlierSettings(cfg), geGo124, pos, x, sel, EarlierInfo(fnName))
  {
    match x
    case Ident(_, name) =>
      if !IsExported(sel) then None else ReportFourCases(cfg, geGo124, pos, name, sel, fnName)
    case _ => None
  }

  /** The earlier reportIdent: one of the four names, exported, and resolved to some package. */
  function ReportIdentEarlier(cfg: Config, geGo124: bool, res: Resolver, pos: Pos, name: string, fnName: string): (d: Option<Diagnostic>)
    ensures d == ReportIdent(EarlierSettings(cfg), geGo124, res, pos, name, EarlierInfo(fnName))
  {
    if name !in ListedNames then None
    else if !IsExported(name) then None
    else if pos !in res then
      OnlyTrackedPairsFire(EarlierSettings(cfg), geGo124, "", name);
      None
    else ReportFourCases(cfg, geGo124, pos, res[pos], name, fnName)
  }

  /** Under the earlier settings a call never fires the CreateTemp rule: the walk visits the arguments, then the callee. */
  lemma EarlierCallOrder(cfg: Config, geGo124: bool, res: Resolver, fnName: string, pos: Pos, fun: Expr, args: seq<Expr>)
    ensures
      var sc := Scan(EarlierSettings(cfg), geGo124, res, EarlierInfo(fnName));
      ExprDiags(sc, Call(pos, fun, args)) == ExprsDiags(sc, args) + ExprDiags(sc, fun)
  {
    var sc := Scan(EarlierSettings(cfg), geGo124, res, EarlierInfo(fnName));
    TraversalFacts.CallVisitsArgsThenCallee(sc, pos, fun, args);
    assert ToSeq(ReportCallExpr(sc.cfg, sc.resolver, sc.fn, pos, fun, args)) == [];
  }
}

/**
 * The matcher of report.go: the rule switch that decides whether one diagnostic
 * fires for a (package, name) pair and with which replacement, its three entry
 * points (selector, bare identifier, CreateTemp call) and the helpers they use.
 * Each entry point yields at most one diagnostic; the walk appends it.
 */
module Report {
  import opened Wrappers
  import opened Ast
  import opened Settings

  /** os.CreateTemp takes two arguments. */
  const NbArgCreateTemp := 2

  // ---------------------------------------------------------------------------
  // The rule table as data: the six cases of `report`, in their order.

  datatype Flag = MkdirTempFlag | TempDirFlag | SetenvFlag | ChdirFlag | BackgroundFlag | TodoFlag

  function Enabled(cfg: Config, f: Flag): bool {
    match f
    case MkdirTempFlag => cfg.osMkdirTemp
    case TempDirFlag => cfg.osTempDir
    case SetenvFlag => cfg.osSetenv
    case ChdirFlag => cfg.osChdir
    case BackgroundFlag => cfg.contextBackground
    case TodoFlag => cfg.contextTodo
  }

  datatype Rule = Rule(flag: Flag, needsGo124: bool, pkg: string, name: string, replacement: string)

  const RuleTable: seq<Rule> := [
    Rule(MkdirTempFlag, false, OsPkgName, MkdirTempName, TempDirName),
    Rule(TempDirFlag, false, OsPkgName, TempDirName, TempDirName),
    Rule(SetenvFlag, false, OsPkgName, SetenvName, SetenvName),
    Rule(ChdirFlag, true, OsPkgName, ChdirName, ChdirName),
    Rule(BackgroundFlag, true, ContextPkgName, BackgroundName, ContextName),
    Rule(TodoFlag, true, ContextPkgName, TodoName, ContextName)
  ]

  /** A rule applies when its flag is on, its version gate (if any) holds and the pair is its own. */
  predicate Applies(r: Rule, cfg: Config, geGo124: bool, pkg: string, name: string) {
    Enabled(cfg, r.flag) && (r.needsGo124 ==> geGo124) && r.pkg == pkg && r.name == name
  }

  /** The first rule of the list that applies. */
  function FirstRule(rules: seq<Rule>, cfg: Config, geGo124: bool, pkg: string, name: string): (r: Option<Rule>)
    ensures r.Some? ==> r.value in rules && Applies(r.value, cfg, geGo124, pkg, name)
    ensures r.None? <==> forall i :: 0 <= i < |rules| ==> !Applies(rules[i], cfg, geGo124, pkg, name)
  {
    if rules == [] then None
    else if Applies(rules[0], cfg, geGo124, pkg, name) then Some(rules[0])
    else FirstRule(rules[1..], cfg, geGo124, pkg, name)
  }

  /** The rule of the table, if any, that fires for a (package, name) pair. */
  function TableRule(cfg: Config, geGo124: bool, pkg: string, name: string): Option<Rule> {
    FirstRule(RuleTable, cfg, geGo124, pkg, name)
  }

  /** The table read rule by rule: the first rule whose conditions hold. */
  lemma TableRuleInOrder(cfg: Config, geGo124: bool, pkg: string, name: string)
    ensures TableRule(cfg, geGo124, pkg, name) ==
      if Applies(RuleTable[0], cfg, geGo124, pkg, name) then Some(RuleTable[0])
      else if Applies(RuleTable[1], cfg, geGo124, pkg, name) then Some(RuleTable[1])
      else if Applies(RuleTable[2], cfg, geGo124, pkg, name) then Some(RuleTable[2])
      else if Applies(RuleTable[3], cfg, geGo124, pkg, name) then Some(RuleTable[3])
      else if Applies(RuleTable[4], cfg, geGo124, pkg, name) then Some(RuleTable[4])
      else if Applies(RuleTable[5], cfg, geGo124, pkg, name) then Some(RuleTable[5])
      else None
  {
    var t := RuleTable;
    assert t[0..] == t;
    FirstRuleStep(t, 0, cfg, geGo124, pkg, name);
    FirstRuleStep(t, 1, cfg, geGo124, pkg, name);
    FirstRuleStep(t, 2, cfg, geGo124, pkg, name);
    FirstRuleStep(t, 3, cfg, geGo124, pkg, name);
    FirstRuleStep(t, 4, cfg, geGo124, pkg, name);
    FirstRuleStep(t, 5, cfg, geGo124, pkg, name);
    assert t[6..] == [];
  }

  /** The search past the first k rules: rule k if it applies, otherwise the rules after it. */
  lemma FirstRuleStep(rules: seq<Rule>, k: nat, cfg: Config, geGo124: bool, pkg: string, name: string)
    requires k < |rules|
    ensures FirstRule(rules[k..], cfg, geGo124, pkg, name) ==
      if Applies(rules[k], cfg, geGo124, pkg, name) then Some(rules[k]) else FirstRule(rules[k + 1..], cfg, geGo124, pkg, name)
  {
    assert rules[k..][0] == rules[k];
    assert rules[k..][1..] == rules[k + 1..];
  }

  /** Each rule of the table applies under the condition its case of the switch writes out. */
  lemma AppliesByCase(cfg: Config, geGo124: bool, pkg: string, name: string)
    ensures Applies(RuleTable[0], cfg, geGo124, pkg, name) <==> cfg.osMkdirTemp && pkg == OsPkgName && name == MkdirTempName
    ensures Applies(RuleTable[1], cfg, geGo124, pkg, name) <==> cfg.osTempDir && pkg == OsPkgName && name == TempDirName
    ensures Applies(RuleTable[2], cfg, geGo124, pkg, name) <==> cfg.osSetenv && pkg == OsPkgName && name == SetenvName
    ensures Applies(RuleTable[3], cfg, geGo124, pkg, name) <==> geGo124 && cfg.osChdir && pkg == OsPkgName && name == ChdirName
    ensures Applies(RuleTable[4], cfg, geGo124, pkg, name) <==> geGo124 && cfg.contextBackground && pkg == ContextPkgName && name == BackgroundName
    ensures Applies(RuleTable[5], cfg, geGo124, pkg, name) <==> geGo124 && cfg.contextTodo && pkg == ContextPkgName && name == TodoName
  {
  }

  // ---------------------------------------------------------------------------
  // report.go

  /** The free function `report`: the diagnostic for a matched pair. */
  function Emit(pos: Pos, origPkgName: string, origName: string, expectName: string, fn: FuncInfo): (d: Diagnostic)
    ensures d.pos == pos
    ensures d.message == Replace(origPkgName, origName, fn.argName, expectName, fn.name)
  {
    Diagnostic(pos, Replace(origPkgName, origName, fn.argName, expectName, fn.name))
  }

  /**
   * The method `report`: the first case of the switch that holds emits; none
   * holding emits nothing.  It agrees with the rule table in both directions.
   */
  function Report(cfg: Config, geGo124: bool, pos: Pos, origPkgName: string, origName: string, fn: FuncInfo): (d: Option<Diagnostic>)
    ensures d.Some? <==> TableRule(cfg, geGo124, origPkgName, origName).Some?
    ensures d.Some? ==> d.value == Diagnostic(pos, Replace(origPkgName, origName, fn.argName,
                                      TableRule(cfg, geGo124, origPkgName, origName).value.replacement, fn.name))
  {
    TableRuleInOrder(cfg, geGo124, origPkgName, origName);
    AppliesByCase(cfg, geGo124, origPkgName, origName);
    if cfg.osMkdirTemp && origPkgName == OsPkgName && origName == MkdirTempName then
      Some(Emit(pos, origPkgName, origName, TempDirName, fn))
    else if cfg.osTempDir && origPkgName == OsPkgName && origName == TempDirName then
      Some(Emit(pos, origPkgName, origName, TempDirName, fn))
    else if cfg.osSetenv && origPkgName == OsPkgName && origName == SetenvName then
      Some(Emit(pos, origPkgName, origName, SetenvName, fn))
    else if geGo124 && cfg.osChdir && origPkgName == OsPkgName && origName == ChdirName then
      Some(Emit(pos, origPkgName, origName, ChdirName, fn))
    else if geGo124 && cfg.contextBackground && origPkgName == ContextPkgName && origName == BackgroundName then
      Some(Emit(pos, origPkgName, origName, ContextName, fn))
    else if geGo124 && cfg.contextTodo && origPkgName == ContextPkgName && origName == TodoName then
      Some(Emit(pos, origPkgName, origName, ContextName, fn))
    else
      None
  }

  /** getPkgNameFromType: the resolved package name, "" when unresolved. */
  function PkgNameOf(res: Resolver, pos: Pos): (pkg: string)
    ensures pos !in res ==> pkg == ""
    ensures pos in res ==> pkg == res[pos]
  {
    if pos in res then res[pos] else ""
  }

  /**
   * reportSelector: only `X.Sel` with X an identifier and Sel exported goes to
   * the rule switch, with X's literal text as the package name.
   */
  function ReportSelector(cfg: Config, geGo124: bool, pos: Pos, x: Expr, sel: string, fn: FuncInfo): (d: Option<Diagnostic>)
    ensures d.Some? <==> x.Ident? && IsExported(sel) && TableRule(cfg, geGo124, x.name, sel).Some?
    ensures d.Some? ==> d.value == Diagnostic(pos, Replace(x.name, sel, fn.argName,
                                      TableRule(cfg, geGo124, x.name, sel).value.replacement, fn.name))
  {
    if !IsExported(sel) then None
    else match x
      case Ident(_, name) => Report(cfg, geGo124, pos, name, sel, fn)
      case _ => None
  }

  /**
   * reportIdent: an exported identifier listed in fieldNames goes to the rule
   * switch with its resolved package name; an unresolved one never fires.
   */
  function ReportIdent(cfg: Config, geGo124: bool, res: Resolver, pos: Pos, name: string, fn: FuncInfo): (d: Option<Diagnostic>)
    ensures d.Some? <==> IsExported(name) && name in cfg.fieldNames && TableRule(cfg, geGo124, PkgNameOf(res, pos), name).Some?
    ensures d.Some? ==> pos in res
    ensures d.Some? ==> d.value == Diagnostic(pos, Replace(res[pos], name, fn.argName,
                                      TableRule(cfg, geGo124, res[pos], name).value.replacement, fn.name))
  {
    if !IsExported(name) then None
    else if name !in cfg.fieldNames then None
    else Report(cfg, geGo124, pos, PkgNameOf(res, pos), name, fn)
  }

  /**
   * isFirstArgEmptyString: the first argument is the literal `""`, compared by
   * its source text, so the empty raw literal (two back-quotes) is not recognised.
   */
  function IsFirstArgEmptyString(args: seq<Expr>): (ok: bool)
    requires |args| > 0
    ensures ok <==> args[0].BasicLit? && args[0].kind == STRING && args[0].value == "\"\""
  {
    match args[0]
    case BasicLit(_, kind, value) => kind == STRING && value == "\"\""
    case _ => false
  }

  /** Only the quoted empty literal counts as the empty first argument; another string, the empty raw literal or a call does not. */
  lemma EmptyStringArgument(p: Pos, rest: seq<Expr>)
    ensures IsFirstArgEmptyString([BasicLit(p, STRING, "\"\"")] + rest)
    ensures !IsFirstArgEmptyString([BasicLit(p, STRING, "``")] + rest)
    ensures !IsFirstArgEmptyString([BasicLit(p, STRING, "\"xx\"")] + rest)
    ensures !IsFirstArgEmptyString([Call(p, Selector(p, Ident(p, "t"), TempDirName), [])] + rest)
  {
  }

  /** The callee names os.CreateTemp: by the literal qualifier `os`, or as a bare identifier resolved to package os. */
  function CalleeIsOsCreateTemp(res: Resolver, fun: Expr): (ok: bool)
    ensures ok ==> (fun.Selector? && fun.sel == CreateTempName) || (fun.Ident? && fun.name == CreateTempName)
    ensures ok && fun.Ident? ==> fun.pos in res
  {
    (fun.Selector? && fun.sel == CreateTempName && fun.x.Ident? && fun.x.name == OsPkgName)
    || (fun.Ident? && fun.name == CreateTempName && PkgNameOf(res, fun.pos) == OsPkgName)
  }

  /**
   * reportCallExpr: the argument-gated CreateTemp rule.  It fires (Some) exactly
   * when the flag is on, the call has two arguments, the callee is os.CreateTemp
   * and the first argument is `""`.
   */
  function ReportCallExpr(cfg: Config, res: Resolver, fn: FuncInfo, pos: Pos, fun: Expr, args: seq<Expr>): (d: Option<Diagnostic>)
    ensures d.Some? <==> cfg.osCreateTemp && |args| == NbArgCreateTemp
                         && CalleeIsOsCreateTemp(res, fun) && IsFirstArgEmptyString(args)
    ensures d.Some? ==> d.value == Diagnostic(pos, ReplaceFirstArg(OsPkgName, CreateTempName, fn.argName, TempDirName, fn.name))
  {
    if !cfg.osCreateTemp then None
    else if |args| != NbArgCreateTemp then None
    else match fun
      case Selector(_, x, sel) =>
        if sel != CreateTempName then None
        else if !x.Ident? then None
        else if x.name == OsPkgName && IsFirstArgEmptyString(args) then
          Some(Diagnostic(pos, ReplaceFirstArg(OsPkgName, CreateTempName, fn.argName, TempDirName, fn.name)))
        else None
      case Ident(identPos, name) =>
        if name != CreateTempName then None
        else if PkgNameOf(res, identPos) == OsPkgName && IsFirstArgEmptyString(args) then
          Some(Diagnostic(pos, ReplaceFirstArg(OsPkgName, CreateTempName, fn.argName, TempDirName, fn.name)))
        else None
      case _ => None
  }

  // ---------------------------------------------------------------------------
  // Facts about the rule table.

  /** The rule of one flag. */
  function RuleOf(f: Flag): (r: Rule)
    ensures r in RuleTable && r.flag == f
  {
    match f
    case MkdirTempFlag => RuleTable[0]
    case TempDirFlag => RuleTable[1]
    case SetenvFlag => RuleTable[2]
    case ChdirFlag => RuleTable[3]
    case BackgroundFlag => RuleTable[4]
    case TodoFlag => RuleTable[5]
  }

  /**
   * No two rules track the same pair, so at most one rule can apply to a node
   * and the order of the switch decides nothing.
   */
  lemma AtMostOneRuleApplies(cfg: Config, geGo124: bool, pkg: string, name: string, i: nat, j: nat)
    requires i < j < |RuleTable|
    ensures !(Applies(RuleTable[i], cfg, geGo124, pkg, name) && Applies(RuleTable[j], cfg, geGo124, pkg, name))
  {
  }

  /** The rule that fires for a pair is the rule of that pair, with its flag on. */
  lemma {:induction false} TableRuleIsRuleOf(cfg: Config, geGo124: bool, pkg: string, name: string)
    ensures TableRule(cfg, geGo124, pkg, name).Some? ==>
      var r := TableRule(cfg, geGo124, pkg, name).value;
      r == RuleOf(r.flag) && r.pkg == pkg && r.name == name && Enabled(cfg, r.flag) && (r.needsGo124 ==> geGo124)
  {
    TableRuleInOrder(cfg, geGo124, pkg, name);
  }

  /** A configuration with one flag set to b and every other setting kept. */
  function WithFlag(cfg: Config, f: Flag, b: bool): (c: Config)
    ensures Enabled(c, f) == b
    ensures forall g :: g != f ==> Enabled(c, g) == Enabled(cfg, g)
    ensures c.osCreateTemp == cfg.osCreateTemp && c.skipGoVersionDetection == cfg.skipGoVersionDetection
    ensures c.fieldNames == cfg.fieldNames
  {
    match f
    case MkdirTempFlag => cfg.(osMkdirTemp := b)
    case TempDirFlag => cfg.(osTempDir := b)
    case SetenvFlag => cfg.(osSetenv := b)
    case ChdirFlag => cfg.(osChdir := b)
    case BackgroundFlag => cfg.(contextBackground := b)
    case TodoFlag => cfg.(contextTodo := b)
  }

  /**
   * Turning one flag off silences exactly its own rule: that pair no longer
   * fires, and every other pair fires as before.
   */
  lemma FlagOffSilencesOnlyItsRule(cfg: Config, geGo124: bool, f: Flag, pkg: string, name: string)
    ensures (pkg, name) == (RuleOf(f).pkg, RuleOf(f).name) ==> TableRule(WithFlag(cfg, f, false), geGo124, pkg, name) == None
    ensures (pkg, name) != (RuleOf(f).pkg, RuleOf(f).name) ==>
      TableRule(WithFlag(cfg, f, false), geGo124, pkg, name) == TableRule(cfg, geGo124, pkg, name)
  {
    var off := WithFlag(cfg, f, false);
    TableRuleInOrder(cfg, geGo124, pkg, name);
    TableRuleInOrder(off, geGo124, pkg, name);
    AppliesWithFlagOff(cfg, geGo124, f, pkg, name, 0);
    AppliesWithFlagOff(cfg, geGo124, f, pkg, name, 1);
    AppliesWithFlagOff(cfg, geGo124, f, pkg, name, 2);
    AppliesWithFlagOff(cfg, geGo124, f, pkg, name, 3);
    AppliesWithFlagOff(cfg, geGo124, f, pkg, name, 4);
    AppliesWithFlagOff(cfg, geGo124, f, pkg, name, 5);
  }

  /** With flag f off, a rule applies exactly when it is not f's rule and it applied before. */
  lemma AppliesWithFlagOff(cfg: Config, geGo124: bool, f: Flag, pkg: string, name: string, k: nat)
    requires k < |RuleTable|
    ensures Applies(RuleTable[k], WithFlag(cfg, f, false), geGo124, pkg, name)
      <==> RuleTable[k].flag != f && Applies(RuleTable[k], cfg, geGo124, pkg, name)
  {
    var g := RuleTable[k].flag;
    assert Enabled(WithFlag(cfg, f, false), g) == (g != f && Enabled(cfg, g));
  }

  /**
   * The version gate: below Go 1.24 Chdir, Background and TODO never fire,
   * while MkdirTemp, TempDir and Setenv do not depend on it.
   */
  lemma VersionGateOnRules(cfg: Config, pkg: string, name: string)
    ensures name in {ChdirName, BackgroundName, TodoName} ==> TableRule(cfg, false, pkg, name) == None
    ensures name in {ChdirName, BackgroundName, TodoName} ==>
      (TableRule(cfg, true, pkg, name).Some? <==>
        (pkg == OsPkgName && name == ChdirName && cfg.osChdir)
        || (pkg == ContextPkgName && name == BackgroundName && cfg.contextBackground)
        || (pkg == ContextPkgName && name == TodoName && cfg.contextTodo))
    ensures name !in {ChdirName, BackgroundName, TodoName} ==> TableRule(cfg, false, pkg, name) == TableRule(cfg, true, pkg, name)
  {
    TableRuleInOrder(cfg, false, pkg, name);
    TableRuleInOrder(cfg, true, pkg, name);
  }

  /** Only the six tracked pairs can fire; CreateTemp and unresolved names ("") never do through the switch. */
  lemma OnlyTrackedPairsFire(cfg: Config, geGo124: bool, pkg: string, name: string)
    ensures TableRule(cfg, geGo124, pkg, name).Some? ==>
      (pkg == OsPkgName && name in {MkdirTempName, TempDirName, SetenvName, ChdirName})
      || (pkg == ContextPkgName && name in {BackgroundName, TodoName})
    ensures TableRule(cfg, geGo124, pkg, CreateTempName) == None
    ensures TableRule(cfg, geGo124, "", name) == None
  {
    TableRuleInOrder(cfg, geGo124, pkg, name);
    TableRuleInOrder(cfg, geGo124, pkg, CreateTempName);
    TableRuleInOrder(cfg, geGo124, "", name);
  }

  /**
   * What any diagnostic of the matcher looks like: it names the scanned function
   * and its handle, and it is the replacement of a rule that was allowed to fire.
   */
  predicate Sanctioned(cfg: Config, geGo124: bool, fn: FuncInfo, d: Diagnostic) {
    match d.message
    case Replace(p, n, h, repl, f) =>
      h == fn.argName && f == fn.name
      && TableRule(cfg, geGo124, p, n).Some? && TableRule(cfg, geGo124, p, n).value.replacement == repl
    case ReplaceFirstArg(p, n, h, helper, f) =>
      h == fn.argName && f == fn.name && cfg.osCreateTemp
      && p == OsPkgName && n == CreateTempName && helper == TempDirName
  }
}

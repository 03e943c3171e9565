/**
 * Properties of the walk over whole trees: the order a call is visited in, that
 * the scanned function only fills in the names of each message, the double
 * report of a nested test literal, and how the flags and the version gate
 * silence rules everywhere in a body.
 */
module TraversalFacts {
  import opened Wrappers
  import opened Ast
  import opened Settings
  import opened Report
  import opened UseTesting

  // ---------------------------------------------------------------------------
  // Calls

  /** When the CreateTemp rule fires on a call, its callee (os.CreateTemp or a dot-imported CreateTemp) is silent. */
  lemma CalleeSilentAfterCreateTemp(sc: Scan, pos: Pos, fun: Expr, args: seq<Expr>)
    requires ReportCallExpr(sc.cfg, sc.resolver, sc.fn, pos, fun, args).Some?
    ensures ExprDiags(sc, fun) == []
  {
    CreateTempCalleeSilent(sc, fun);
  }

  /** A callee naming os.CreateTemp reports nothing itself, under any settings: CreateTemp is no rule of the switch. */
  lemma CreateTempCalleeSilent(sc: Scan, fun: Expr)
    requires CalleeIsOsCreateTemp(sc.resolver, fun)
    ensures ExprDiags(sc, fun) == []
  {
    OnlyTrackedPairsFire(sc.cfg, sc.geGo124, OsPkgName, CreateTempName);
    OnlyTrackedPairsFire(sc.cfg, sc.geGo124, PkgNameOf(sc.resolver, fun.pos), CreateTempName);
  }

  /**
   * A call emits, in order, what its arguments emit, then the CreateTemp
   * diagnostic if that rule fires, then what its callee emits: the arguments
   * are visited first and the callee last, whether or not the rule fired.
   */
  lemma CallVisitsArgsThenCallee(sc: Scan, pos: Pos, fun: Expr, args: seq<Expr>)
    ensures ExprDiags(sc, Call(pos, fun, args)) ==
      ExprsDiags(sc, args) + ToSeq(ReportCallExpr(sc.cfg, sc.resolver, sc.fn, pos, fun, args)) + ExprDiags(sc, fun)
  {
    var fired := ReportCallExpr(sc.cfg, sc.resolver, sc.fn, pos, fun, args);
    if fired.Some? {
      CalleeSilentAfterCreateTemp(sc, pos, fun, args);
      assert ToSeq(fired) == [fired.value];
    } else {
      assert ToSeq(fired) == [];
    }
  }

  // ---------------------------------------------------------------------------
  // The function record only names the messages

  /** A message with its handle and function name taken from fn. */
  function Relabel(m: Message, fn: FuncInfo): (r: Message)
    ensures r.Replace? <==> m.Replace?
    ensures r.origPkg == m.origPkg && r.origName == m.origName
    ensures r.handle == fn.argName && r.fnName == fn.name
  {
    match m
    case Replace(p, n, _, repl, _) => Replace(p, n, fn.argName, repl, fn.name)
    case ReplaceFirstArg(p, n, _, helper, _) => ReplaceFirstArg(p, n, fn.argName, helper, fn.name)
  }

  /** Every diagnostic relabelled for fn, positions and order kept. */
  function RelabelAll(ds: seq<Diagnostic>, fn: FuncInfo): (rs: seq<Diagnostic>)
    ensures |rs| == |ds|
    ensures forall i :: 0 <= i < |ds| ==> rs[i] == Diagnostic(ds[i].pos, Relabel(ds[i].message, fn))
  {
    if ds == [] then [] else [Diagnostic(ds[0].pos, Relabel(ds[0].message, fn))] + RelabelAll(ds[1..], fn)
  }

  lemma RelabelAllConcat(a: seq<Diagnostic>, b: seq<Diagnostic>, fn: FuncInfo)
    ensures RelabelAll(a + b, fn) == RelabelAll(a, fn) + RelabelAll(b, fn)
  {
  }

  /** Relabelling what the walk emits for one function gives what it emits for another: the same nodes fire. */
  lemma {:induction false} ExprRelabel(sc: Scan, fn: FuncInfo, e: Expr)
    ensures ExprDiags(sc.(fn := fn), e) == RelabelAll(ExprDiags(sc, e), fn)
    decreases e, 1
  {
    var sc2 := sc.(fn := fn);
    match e
    case Binary(x, _, y) =>
      ExprRelabel(sc, fn, x);
      ExprRelabel(sc, fn, y);
      RelabelAllConcat(ExprDiags(sc, x), ExprDiags(sc, y), fn);
    case Selector(pos, x, sel) =>
    case FuncLit(_, body) => StmtsRelabel(sc, fn, body);
    case TypeAssert(x, _) => ExprRelabel(sc, fn, x);
    case Call(pos, fun, args) =>
      ExprsRelabel(sc, fn, args);
      ExprRelabel(sc, fn, fun);
      var fired := ReportCallExpr(sc.cfg, sc.resolver, sc.fn, pos, fun, args);
      var fired2 := ReportCallExpr(sc.cfg, sc.resolver, fn, pos, fun, args);
      var tail := if fired.Some? then [fired.value] else ExprDiags(sc, fun);
      var tail2 := if fired2.Some? then [fired2.value] else ExprDiags(sc2, fun);
      assert tail2 == RelabelAll(tail, fn);
      RelabelAllConcat(ExprsDiags(sc, args), tail, fn);
    case Ident(pos, name) =>
    case _ =>
  }

  lemma {:induction false} ExprsRelabel(sc: Scan, fn: FuncInfo, es: seq<Expr>)
    ensures ExprsDiags(sc.(fn := fn), es) == RelabelAll(ExprsDiags(sc, es), fn)
    decreases es
  {
    if es != [] {
      ExprRelabel(sc, fn, es[0]);
      ExprsRelabel(sc, fn, es[1..]);
      RelabelAllConcat(ExprDiags(sc, es[0]), ExprsDiags(sc, es[1..]), fn);
    }
  }

  lemma {:induction false} StmtRelabel(sc: Scan, fn: FuncInfo, s: Stmt)
    ensures StmtDiags(sc.(fn := fn), s) == RelabelAll(StmtDiags(sc, s), fn)
    decreases s, 1
  {
    match s
    case ExprStmt(x) => ExprRelabel(sc, fn, x);
    case If(init, _, _, _) => if init.Some? { StmtRelabel(sc, fn, init.value); }
    case Assign(_, rhs) => if |rhs| > 0 { ExprRelabel(sc, fn, rhs[0]); }
    case For(_, _, _, body) => StmtRelabel(sc, fn, body);
    case Defer(call) => ExprRelabel(sc, fn, call);
    case Range(_, _, _, body) => StmtRelabel(sc, fn, body);
    case Return(results) => ExprsRelabel(sc, fn, results);
    case DeclStmt(decl) =>
      if DeclValues(decl).Some? {
        assert decl.specs[0] in decl.specs;
        ExprsRelabel(sc, fn, decl.specs[0].values);
      }
    case Go(call) => ExprRelabel(sc, fn, call);
    case CaseClause(_, _) => SwitchPartRelabel(sc, fn, s);
    case Switch(_, _, _) => SwitchPartRelabel(sc, fn, s);
    case TypeSwitch(_, _, _) => SwitchPartRelabel(sc, fn, s);
    case CommClause(_, stmts) => StmtsRelabel(sc, fn, stmts);
    case Select(body) => StmtRelabel(sc, fn, body);
    case Block(stmts) => StmtsRelabel(sc, fn, stmts);
    case _ =>
  }

  /** The switch statements and their clauses, whose walks have two parts. */
  lemma {:induction false} SwitchPartRelabel(sc: Scan, fn: FuncInfo, s: Stmt)
    requires s.CaseClause? || s.Switch? || s.TypeSwitch?
    ensures StmtDiags(sc.(fn := fn), s) == RelabelAll(StmtDiags(sc, s), fn)
    decreases s, 0
  {
    match s
    case CaseClause(exprs, stmts) =>
      ExprsRelabel(sc, fn, exprs);
      StmtsRelabel(sc, fn, stmts);
      RelabelAllConcat(ExprsDiags(sc, exprs), StmtsDiags(sc, stmts), fn);
    case Switch(_, tag, body) =>
      if tag.Some? { ExprRelabel(sc, fn, tag.value); }
      StmtRelabel(sc, fn, body);
      RelabelAllConcat(OptExprDiags(sc, tag), StmtDiags(sc, body), fn);
    case TypeSwitch(_, assign, body) =>
      StmtRelabel(sc, fn, assign);
      StmtRelabel(sc, fn, body);
      RelabelAllConcat(StmtDiags(sc, assign), StmtDiags(sc, body), fn);
  }

  lemma {:induction false} StmtsRelabel(sc: Scan, fn: FuncInfo, ss: seq<Stmt>)
    ensures StmtsDiags(sc.(fn := fn), ss) == RelabelAll(StmtsDiags(sc, ss), fn)
    decreases ss
  {
    if ss != [] {
      StmtRelabel(sc, fn, ss[0]);
      StmtsRelabel(sc, fn, ss[1..]);
      RelabelAllConcat(StmtDiags(sc, ss[0]), StmtsDiags(sc, ss[1..]), fn);
    }
  }

  // ---------------------------------------------------------------------------
  // Roots

  /** A function that is not a test function produces nothing from its own scan, whatever its body holds. */
  lemma NonTestFunctionSilent(cfg: Config, geGo124: bool, res: Resolver, ft: FuncType, body: seq<Stmt>, fnName: string)
    requires !Eligible(ft)
    ensures FuncDiags(cfg, geGo124, res, ft, body, fnName) == []
  {
  }

  /** An eligible function's scan is the walk of its body, named after it and its first parameter. */
  lemma TestFunctionScanned(cfg: Config, geGo124: bool, res: Resolver, ft: FuncType, body: seq<Stmt>, fnName: string)
    requires Eligible(ft)
    ensures FuncDiags(cfg, geGo124, res, ft, body, fnName) == StmtsDiags(Scan(cfg, geGo124, res, FuncInfo(fnName, ArgName(ft.params[0]))), body)
  {
  }

  /**
   * A test literal nested in a test function is walked twice: once inside the
   * outer function, under the outer function's names, and once as a root of
   * its own, as the anonymous function; every finding in it appears twice.
   */
  lemma NestedLiteralReportedTwice(cfg: Config, geGo124: bool, res: Resolver, name: string, ft: FuncType, lit: FuncType, inner: seq<Stmt>)
    requires Eligible(ft) && Eligible(lit)
    ensures
      var outer := Scan(cfg, geGo124, res, FuncInfo(name, ArgName(ft.params[0])));
      var litInfo := FuncInfo(AnonymousFunction, ArgName(lit.params[0]));
      var roots := [FuncDecl(name, ft, Some([ExprStmt(FuncLit(lit, inner))])), FuncLitNode(lit, inner)];
      RootsDiags(cfg, geGo124, res, roots) == StmtsDiags(outer, inner) + RelabelAll(StmtsDiags(outer, inner), litInfo)
  {
    var outer := Scan(cfg, geGo124, res, FuncInfo(name, ArgName(ft.params[0])));
    var litInfo := FuncInfo(AnonymousFunction, ArgName(lit.params[0]));
    var roots := [FuncDecl(name, ft, Some([ExprStmt(FuncLit(lit, inner))])), FuncLitNode(lit, inner)];
    assert roots[1..][1..] == [];
    var body := [ExprStmt(FuncLit(lit, inner))];
    assert body[1..] == [];
    assert StmtDiags(outer, body[0]) == StmtsDiags(outer, inner);
    assert StmtsDiags(outer, body) == StmtsDiags(outer, inner);
    assert RootDiags(cfg, geGo124, res, roots[0]) == StmtsDiags(outer, inner);
    assert RootDiags(cfg, geGo124, res, roots[1]) == StmtsDiags(Scan(cfg, geGo124, res, litInfo), inner);
    StmtsRelabel(outer, litInfo, inner);
    assert outer.(fn := litInfo) == Scan(cfg, geGo124, res, litInfo);
    assert RootsDiags(cfg, geGo124, res, roots[1..]) == RootDiags(cfg, geGo124, res, roots[1]);
  }

  // ---------------------------------------------------------------------------
  // Flags and the version gate over a whole body

  /** No (package, name) pair fires through the switch and the CreateTemp rule is off. */
  ghost predicate MatcherOff(sc: Scan) {
    (forall pkg, name :: TableRule(sc.cfg, sc.geGo124, pkg, name) == None) && !sc.cfg.osCreateTemp
  }

  /** With the matcher off, the walk of any expression emits nothing. */
  lemma {:induction false} ExprSilent(sc: Scan, e: Expr)
    requires MatcherOff(sc)
    ensures ExprDiags(sc, e) == []
    decreases e, 1
  {
    match e
    case Binary(x, _, y) => ExprSilent(sc, x); ExprSilent(sc, y);
    case Selector(pos, x, sel) =>
    case FuncLit(_, body) => StmtsSilent(sc, body);
    case TypeAssert(x, _) => ExprSilent(sc, x);
    case Call(pos, fun, args) => ExprsSilent(sc, args); ExprSilent(sc, fun);
    case Ident(pos, name) =>
    case _ =>
  }

  lemma {:induction false} ExprsSilent(sc: Scan, es: seq<Expr>)
    requires MatcherOff(sc)
    ensures ExprsDiags(sc, es) == []
    decreases es
  {
    if es != [] {
      ExprSilent(sc, es[0]);
      ExprsSilent(sc, es[1..]);
    }
  }

  lemma {:induction false} StmtSilent(sc: Scan, s: Stmt)
    requires MatcherOff(sc)
    ensures StmtDiags(sc, s) == []
    decreases s, 1
  {
    match s
    case ExprStmt(x) => ExprSilent(sc, x);
    case If(init, _, _, _) => if init.Some? { StmtSilent(sc, init.value); }
    case Assign(_, rhs) => if |rhs| > 0 { ExprSilent(sc, rhs[0]); }
    case For(_, _, _, body) => StmtSilent(sc, body);
    case Defer(call) => ExprSilent(sc, call);
    case Range(_, _, _, body) => StmtSilent(sc, body);
    case Return(results) => ExprsSilent(sc, results);
    case DeclStmt(decl) =>
      if DeclValues(decl).Some? {
        assert decl.specs[0] in decl.specs;
        ExprsSilent(sc, decl.specs[0].values);
      }
    case Go(call) => ExprSilent(sc, call);
    case CaseClause(exprs, stmts) => ExprsSilent(sc, exprs); StmtsSilent(sc, stmts);
    case Switch(_, tag, body) =>
      if tag.Some? { ExprSilent(sc, tag.value); }
      StmtSilent(sc, body);
    case TypeSwitch(_, assign, body) => StmtSilent(sc, assign); StmtSilent(sc, body);
    case CommClause(_, stmts) => StmtsSilent(sc, stmts);
    case Select(body) => StmtSilent(sc, body);
    case Block(stmts) => StmtsSilent(sc, stmts);
    case _ =>
  }

  lemma {:induction false} StmtsSilent(sc: Scan, ss: seq<Stmt>)
    requires MatcherOff(sc)
    ensures StmtsDiags(sc, ss) == []
    decreases ss
  {
    if ss != [] {
      StmtSilent(sc, ss[0]);
      StmtsSilent(sc, ss[1..]);
    }
  }

  /** With every rule flag and the CreateTemp flag off, a body produces no diagnostic at all. */
  lemma NoRuleEnabledNoDiagnostic(sc: Scan, body: seq<Stmt>)
    requires forall f: Flag :: !Enabled(sc.cfg, f)
    requires !sc.cfg.osCreateTemp
    ensures StmtsDiags(sc, body) == []
  {
    forall pkg, name ensures TableRule(sc.cfg, sc.geGo124, pkg, name) == None {
      TableRuleIsRuleOf(sc.cfg, sc.geGo124, pkg, name);
    }
    StmtsSilent(sc, body);
  }

  /** With one rule's flag off, no diagnostic anywhere in a body offers that rule's replacement for its pair. */
  lemma FlagOffSilencedInBody(sc: Scan, body: seq<Stmt>, f: Flag)
    requires !Enabled(sc.cfg, f)
    ensures forall d :: d in StmtsDiags(sc, body) ==>
      !(d.message.Replace? && d.message.origPkg == RuleOf(f).pkg && d.message.origName == RuleOf(f).name)
  {
    StmtsSanctioned(sc, body);
    forall d | d in StmtsDiags(sc, body)
      ensures !(d.message.Replace? && d.message.origPkg == RuleOf(f).pkg && d.message.origName == RuleOf(f).name)
    {
      FlagOffSilencesOnlyItsRule(sc.cfg, sc.geGo124, f, d.message.origPkg, d.message.origName);
      assert WithFlag(sc.cfg, f, false) == sc.cfg;
    }
  }

  /** Below Go 1.24 no diagnostic anywhere in a body is about Chdir, Background or TODO. */
  lemma BeforeGo124NoGatedRule(sc: Scan, body: seq<Stmt>)
    requires !sc.geGo124
    ensures forall d :: d in StmtsDiags(sc, body) ==> d.message.origName !in {ChdirName, BackgroundName, TodoName}
  {
    StmtsSanctioned(sc, body);
    forall d | d in StmtsDiags(sc, body) ensures d.message.origName !in {ChdirName, BackgroundName, TodoName} {
      VersionGateOnRules(sc.cfg, d.message.origPkg, d.message.origName);
    }
  }

  /** With the CreateTemp flag off, no diagnostic in a body is a first-argument rewrite. */
  lemma CreateTempOffNoRewrite(sc: Scan, body: seq<Stmt>)
    requires !sc.cfg.osCreateTemp
    ensures forall d :: d in StmtsDiags(sc, body) ==> d.message.Replace?
  {
    StmtsSanctioned(sc, body);
  }

  /** Every message of a body's scan names the scanned function and its handle. */
  lemma MessagesNameScannedFunction(sc: Scan, body: seq<Stmt>)
    ensures forall d :: d in StmtsDiags(sc, body) ==> d.message.handle == sc.fn.argName && d.message.fnName == sc.fn.name
  {
    StmtsSanctioned(sc, body);
  }

  // ---------------------------------------------------------------------------
  // Turning one setting off removes exactly its own diagnostics

  /** One setting turned off: a rule's flag, the Go 1.24 gate, or the CreateTemp flag. */
  datatype Disabling = FlagOff(flag: Flag) | GateOff | CreateTempOff

  /** The settings with x turned off and everything else kept. */
  function DisabledCfg(cfg: Config, x: Disabling): (c: Config)
    ensures x.FlagOff? ==> c == WithFlag(cfg, x.flag, false)
    ensures x.GateOff? ==> c == cfg
    ensures x.CreateTempOff? ==> !c.osCreateTemp && c.(osCreateTemp := cfg.osCreateTemp) == cfg
  {
    match x
    case FlagOff(f) => WithFlag(cfg, f, false)
    case GateOff => cfg
    case CreateTempOff => cfg.(osCreateTemp := false)
  }

  /** The version gate with x turned off. */
  function DisabledGate(geGo124: bool, x: Disabling): (g: bool)
    ensures g == (geGo124 && !x.GateOff?)
  {
    if x.GateOff? then false else geGo124
  }

  function Disabled(sc: Scan, x: Disabling): Scan {
    sc.(cfg := DisabledCfg(sc.cfg, x), geGo124 := DisabledGate(sc.geGo124, x))
  }

  /** The diagnostics x silences: its rule's replacements, those of the three gated rules, or the first-argument rewrites. */
  predicate Silences(x: Disabling, d: Diagnostic) {
    match x
    case FlagOff(f) => d.message.Replace? && d.message.origPkg == RuleOf(f).pkg && d.message.origName == RuleOf(f).name
    case GateOff => d.message.Replace? && d.message.origName in {ChdirName, BackgroundName, TodoName}
    case CreateTempOff => d.message.ReplaceFirstArg?
  }

  /** The diagnostics of ds that x does not silence, in their order. */
  function Surviving(ds: seq<Diagnostic>, x: Disabling): (rs: seq<Diagnostic>)
    ensures |rs| <= |ds|
  {
    if ds == [] then []
    else (if Silences(x, ds[0]) then [] else [ds[0]]) + Surviving(ds[1..], x)
  }

  /** What survives is exactly the diagnostics x does not silence. */
  lemma {:induction false} SurvivingMembers(ds: seq<Diagnostic>, x: Disabling)
    ensures forall d :: d in Surviving(ds, x) <==> d in ds && !Silences(x, d)
    decreases |ds|
  {
    if ds != [] {
      SurvivingMembers(ds[1..], x);
      assert forall d :: d in ds <==> d == ds[0] || d in ds[1..];
    }
  }

  lemma {:induction false} SurvivingConcat(a: seq<Diagnostic>, b: seq<Diagnostic>, x: Disabling)
    ensures Surviving(a + b, x) == Surviving(a, x) + Surviving(b, x)
    decreases |a|
  {
    if a == [] {
      assert a + b == b;
    } else {
      assert (a + b)[0] == a[0];
      assert (a + b)[1..] == a[1..] + b;
      SurvivingConcat(a[1..], b, x);
    }
  }

  lemma SurvivingOne(d: Diagnostic, x: Disabling)
    ensures Surviving([d], x) == if Silences(x, d) then [] else [d]
  {
    assert [d][1..] == [];
  }

  /** The rule switch with x turned off: the pairs x governs stop firing and every other pair fires as before. */
  lemma TableRuleDisabled(cfg: Config, geGo124: bool, x: Disabling, pkg: string, name: string)
    ensures TableRule(DisabledCfg(cfg, x), DisabledGate(geGo124, x), pkg, name) ==
      if (x.FlagOff? && pkg == RuleOf(x.flag).pkg && name == RuleOf(x.flag).name)
         || (x.GateOff? && name in {ChdirName, BackgroundName, TodoName})
      then None else TableRule(cfg, geGo124, pkg, name)
  {
    match x
    case FlagOff(f) => FlagOffSilencesOnlyItsRule(cfg, geGo124, f, pkg, name);
    case GateOff => GateOffTableRule(cfg, geGo124, pkg, name);
    case CreateTempOff => FirstRuleSameFlags(RuleTable, cfg, cfg.(osCreateTemp := false), geGo124, pkg, name);
  }

  lemma GateOffTableRule(cfg: Config, geGo124: bool, pkg: string, name: string)
    ensures TableRule(cfg, false, pkg, name) ==
      if name in {ChdirName, BackgroundName, TodoName} then None else TableRule(cfg, geGo124, pkg, name)
  {
    VersionGateOnRules(cfg, pkg, name);
  }

  /** The search over the rules reads the settings only through their flags. */
  lemma {:induction false} FirstRuleSameFlags(rules: seq<Rule>, c1: Config, c2: Config, geGo124: bool, pkg: string, name: string)
    requires forall f :: Enabled(c1, f) == Enabled(c2, f)
    ensures FirstRule(rules, c1, geGo124, pkg, name) == FirstRule(rules, c2, geGo124, pkg, name)
    decreases |rules|
  {
    if rules != [] {
      assert Enabled(c1, rules[0].flag) == Enabled(c2, rules[0].flag);
      FirstRuleSameFlags(rules[1..], c1, c2, geGo124, pkg, name);
    }
  }

  /** A selector with x turned off reports what it reported, less what x silences. */
  lemma SelectorDisabled(sc: Scan, x: Disabling, pos: Pos, q: Expr, sel: string)
    ensures ExprDiags(Disabled(sc, x), Selector(pos, q, sel)) == Surviving(ExprDiags(sc, Selector(pos, q, sel)), x)
  {
    var d := ReportSelector(sc.cfg, sc.geGo124, pos, q, sel, sc.fn);
    if q.Ident? {
      TableRuleDisabled(sc.cfg, sc.geGo124, x, q.name, sel);
    }
    if d.Some? {
      SurvivingOne(d.value, x);
    }
  }

  /** An identifier with x turned off reports what it reported, less what x silences. */
  lemma IdentDisabled(sc: Scan, x: Disabling, pos: Pos, name: string)
    ensures ExprDiags(Disabled(sc, x), Ident(pos, name)) == Surviving(ExprDiags(sc, Ident(pos, name)), x)
  {
    var d := ReportIdent(sc.cfg, sc.geGo124, sc.resolver, pos, name, sc.fn);
    TableRuleDisabled(sc.cfg, sc.geGo124, x, PkgNameOf(sc.resolver, pos), name);
    if d.Some? {
      SurvivingOne(d.value, x);
    }
  }

  /**
   * Turning x off removes exactly the diagnostics x silences from an
   * expression's walk; every other diagnostic stays, in its place.
   */
  lemma {:induction false} ExprDisabled(sc: Scan, x: Disabling, e: Expr)
    ensures ExprDiags(Disabled(sc, x), e) == Surviving(ExprDiags(sc, e), x)
    decreases e, 1
  {
    match e
    case Binary(l, _, r) =>
      ExprDisabled(sc, x, l);
      ExprDisabled(sc, x, r);
      SurvivingConcat(ExprDiags(sc, l), ExprDiags(sc, r), x);
    case Selector(pos, q, sel) => SelectorDisabled(sc, x, pos, q, sel);
    case FuncLit(_, body) => StmtsDisabled(sc, x, body);
    case TypeAssert(y, _) => ExprDisabled(sc, x, y);
    case Call(_, _, _) => CallDisabled(sc, x, e);
    case Ident(pos, name) => IdentDisabled(sc, x, pos, name);
    case _ =>
  }

  /**
   * A call: the CreateTemp diagnostic stays unless x is CreateTempOff; then
   * the callee is walked instead, and it reports nothing.
   */
  lemma {:induction false} CallDisabled(sc: Scan, x: Disabling, e: Expr)
    requires e.Call?
    ensures ExprDiags(Disabled(sc, x), e) == Surviving(ExprDiags(sc, e), x)
    decreases e, 0
  {
    var sc2 := Disabled(sc, x);
    var fired := ReportCallExpr(sc.cfg, sc.resolver, sc.fn, e.pos, e.fun, e.args);
    var fired2 := ReportCallExpr(sc2.cfg, sc2.resolver, sc2.fn, e.pos, e.fun, e.args);
    var tail := if fired.Some? then [fired.value] else ExprDiags(sc, e.fun);
    var tail2 := if fired2.Some? then [fired2.value] else ExprDiags(sc2, e.fun);
    ExprsDisabled(sc, x, e.args);
    if x.CreateTempOff? {
      assert fired2 == None;
      if fired.Some? {
        CreateTempCalleeSilent(sc2, e.fun);
        SurvivingOne(fired.value, x);
      } else {
        ExprDisabled(sc, x, e.fun);
      }
    } else {
      assert fired2 == fired;
      if fired.Some? {
        SurvivingOne(fired.value, x);
      } else {
        ExprDisabled(sc, x, e.fun);
      }
    }
    assert tail2 == Surviving(tail, x);
    SurvivingConcat(ExprsDiags(sc, e.args), tail, x);
  }

  lemma {:induction false} ExprsDisabled(sc: Scan, x: Disabling, es: seq<Expr>)
    ensures ExprsDiags(Disabled(sc, x), es) == Surviving(ExprsDiags(sc, es), x)
    decreases es
  {
    if es != [] {
      ExprDisabled(sc, x, es[0]);
      ExprsDisabled(sc, x, es[1..]);
      SurvivingConcat(ExprDiags(sc, es[0]), ExprsDiags(sc, es[1..]), x);
    }
  }

  lemma {:induction false} StmtDisabled(sc: Scan, x: Disabling, s: Stmt)
    ensures StmtDiags(Disabled(sc, x), s) == Surviving(StmtDiags(sc, s), x)
    decreases s, 1
  {
    match s
    case ExprStmt(e) => ExprDisabled(sc, x, e);
    case If(init, _, _, _) => if init.Some? { StmtDisabled(sc, x, init.value); }
    case Assign(_, rhs) => if |rhs| > 0 { ExprDisabled(sc, x, rhs[0]); }
    case For(_, _, _, body) => StmtDisabled(sc, x, body);
    case Defer(call) => ExprDisabled(sc, x, call);
    case Range(_, _, _, body) => StmtDisabled(sc, x, body);
    case Return(results) => ExprsDisabled(sc, x, results);
    case DeclStmt(decl) =>
      if DeclValues(decl).Some? {
        assert decl.specs[0] in decl.specs;
        ExprsDisabled(sc, x, decl.specs[0].values);
      }
    case Go(call) => ExprDisabled(sc, x, call);
    case CaseClause(_, _) => SwitchPartDisabled(sc, x, s);
    case Switch(_, _, _) => SwitchPartDisabled(sc, x, s);
    case TypeSwitch(_, _, _) => SwitchPartDisabled(sc, x, s);
    case CommClause(_, stmts) => StmtsDisabled(sc, x, stmts);
    case Select(body) => StmtDisabled(sc, x, body);
    case Block(stmts) => StmtsDisabled(sc, x, stmts);
    case _ =>
  }

  lemma {:induction false} SwitchPartDisabled(sc: Scan, x: Disabling, s: Stmt)
    requires s.CaseClause? || s.Switch? || s.TypeSwitch?
    ensures StmtDiags(Disabled(sc, x), s) == Surviving(StmtDiags(sc, s), x)
    decreases s, 0
  {
    match s
    case CaseClause(exprs, stmts) =>
      ExprsDisabled(sc, x, exprs);
      StmtsDisabled(sc, x, stmts);
      SurvivingConcat(ExprsDiags(sc, exprs), StmtsDiags(sc, stmts), x);
    case Switch(_, tag, body) =>
      if tag.Some? { ExprDisabled(sc, x, tag.value); }
      StmtDisabled(sc, x, body);
      SurvivingConcat(OptExprDiags(sc, tag), StmtDiags(sc, body), x);
    case TypeSwitch(_, assign, body) =>
      StmtDisabled(sc, x, assign);
      StmtDisabled(sc, x, body);
      SurvivingConcat(StmtDiags(sc, assign), StmtDiags(sc, body), x);
  }

  lemma {:induction false} StmtsDisabled(sc: Scan, x: Disabling, ss: seq<Stmt>)
    ensures StmtsDiags(Disabled(sc, x), ss) == Surviving(StmtsDiags(sc, ss), x)
    decreases ss
  {
    if ss != [] {
      StmtDisabled(sc, x, ss[0]);
      StmtsDisabled(sc, x, ss[1..]);
      SurvivingConcat(StmtDiags(sc, ss[0]), StmtsDiags(sc, ss[1..]), x);
    }
  }

  /** Over the whole dispatch: turning x off removes exactly what x silences, from every function, in order. */
  lemma {:induction false} RootsDisabled(cfg: Config, geGo124: bool, res: Resolver, roots: seq<FuncNode>, x: Disabling)
    ensures RootsDiags(DisabledCfg(cfg, x), DisabledGate(geGo124, x), res, roots) == Surviving(RootsDiags(cfg, geGo124, res, roots), x)
    decreases |roots|
  {
    if roots != [] {
      RootDisabled(cfg, geGo124, res, roots[0], x);
      RootsDisabled(cfg, geGo124, res, roots[1..], x);
      SurvivingConcat(RootDiags(cfg, geGo124, res, roots[0]), RootsDiags(cfg, geGo124, res, roots[1..]), x);
    }
  }

  lemma RootDisabled(cfg: Config, geGo124: bool, res: Resolver, root: FuncNode, x: Disabling)
    ensures RootDiags(DisabledCfg(cfg, x), DisabledGate(geGo124, x), res, root) == Surviving(RootDiags(cfg, geGo124, res, root), x)
  {
    match root
    case FuncDecl(name, ft, declBody) =>
      if declBody.Some? { FuncDisabled(cfg, geGo124, res, ft, declBody.value, name, x); }
    case FuncLitNode(ft, body) => FuncDisabled(cfg, geGo124, res, ft, body, AnonymousFunction, x);
  }

  lemma FuncDisabled(cfg: Config, geGo124: bool, res: Resolver, ft: FuncType, body: seq<Stmt>, fnName: string, x: Disabling)
    ensures FuncDiags(DisabledCfg(cfg, x), DisabledGate(geGo124, x), res, ft, body, fnName) == Surviving(FuncDiags(cfg, geGo124, res, ft, body, fnName), x)
  {
    if Eligible(ft) {
      var sc := Scan(cfg, geGo124, res, FuncInfoOf(ft, fnName));
      StmtsDisabled(sc, x, body);
      assert Disabled(sc, x) == Scan(DisabledCfg(cfg, x), DisabledGate(geGo124, x), res, FuncInfoOf(ft, fnName));
    }
  }

  /**
   * Turning one rule's flag off removes exactly that rule's diagnostics from
   * the package's scan; every other diagnostic stays, in order.
   */
  lemma FlagOffRemovesOnlyItsRule(cfg: Config, geGo124: bool, res: Resolver, roots: seq<FuncNode>, f: Flag)
    ensures RootsDiags(WithFlag(cfg, f, false), geGo124, res, roots) == Surviving(RootsDiags(cfg, geGo124, res, roots), FlagOff(f))
  {
    RootsDisabled(cfg, geGo124, res, roots, FlagOff(f));
  }

  /** Below Go 1.24 exactly the Chdir, Background and TODO diagnostics go; every other one stays, in order. */
  lemma GateOffRemovesOnlyGatedRules(cfg: Config, res: Resolver, roots: seq<FuncNode>)
    ensures RootsDiags(cfg, false, res, roots) == Surviving(RootsDiags(cfg, true, res, roots), GateOff)
  {
    RootsDisabled(cfg, true, res, roots, GateOff);
  }

  /** Turning CreateTemp off removes exactly the first-argument rewrites; every other diagnostic stays, in order. */
  lemma CreateTempOffRemovesOnlyRewrites(cfg: Config, geGo124: bool, res: Resolver, roots: seq<FuncNode>)
    ensures RootsDiags(cfg.(osCreateTemp := false), geGo124, res, roots) == Surviving(RootsDiags(cfg, geGo124, res, roots), CreateTempOff)
  {
    RootsDisabled(cfg, geGo124, res, roots, CreateTempOff);
  }

  /** run checks only four flags before walking: settings with those four off produce nothing, whatever else is on. */
  lemma EarlyExitIgnoresOtherFlags(cfg: Config, pass: Pass, roots: seq<FuncNode>)
    requires AllFlagsOff(cfg)
    ensures RunDiags(cfg, pass, roots) == []
    ensures RunDiags(cfg.(osTempDir := true, osSetenv := true, osCreateTemp := true), pass, roots) == []
  {
  }
}

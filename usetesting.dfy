/**
 * The analyzer of usetesting.go: which functions are scanned (checkFunc,
 * isTestFunction, checkSelectorName), the Go version gate (isGoSupported), the
 * walk over statements and expressions (checkStmt, checkExpr, checkStmts,
 * checkExprs) and the per-function dispatch of run.
 *
 * The walk is specified by functions that give the diagnostics a node produces,
 * in order; the Analyzer class carries out the same walk step by step, appending
 * to its diagnostics as pass.Reportf does, and is proved against them.
 */
module UseTesting {
  import opened Wrappers
  import opened Ast
  import opened GoText
  import opened Settings
  import opened Report

  // ---------------------------------------------------------------------------
  // Eligibility

  /** checkSelectorName: the selector is `<pkgName>.<one of selectorNames>`, comparing the qualifier's text. */
  function CheckSelectorName(se: Expr, pkgName: string, selectorNames: seq<string>): (ok: bool)
    requires se.Selector?
    ensures ok <==> (se.x.Ident? && se.x.name == pkgName && se.sel in selectorNames)
  {
    match se.x
    case Ident(_, name) => pkgName == name && se.sel in selectorNames
    case _ => false
  }

  /** The parameter types that make a function a test function: *P.T, *P.B, *P.F or P.TB for the package name P. */
  predicate IsTestHandleType(t: Expr, pkgName: string) {
    || (t.Star? && t.x.Selector? && t.x.x.Ident? && t.x.x.name == pkgName && t.x.sel in {"T", "B", "F"})
    || (t.Selector? && t.x.Ident? && t.x.name == pkgName && t.sel == "TB")
  }

  /** isTestFunction: the first parameter's type is one of the test handle types. */
  function IsTestFunction(argType: Expr, pkgName: string): (ok: bool)
    ensures ok <==> IsTestHandleType(argType, pkgName)
  {
    match argType
    case Star(x) => if x.Selector? then CheckSelectorName(x, pkgName, ["T", "B", "F"]) else false
    case Selector(_, _, _) => CheckSelectorName(argType, pkgName, ["TB"])
    case _ => false
  }

  /** A function is scanned when it has a first parameter of a test handle type of package `testing`. */
  predicate Eligible(ft: FuncType) {
    |ft.params| >= 1 && IsTestFunction(ft.params[0].typ, TestingPkgName)
  }

  /** The handle name a message suggests: the first parameter's name, or a placeholder for an unnamed or `_` one. */
  function ArgName(param: Field): (name: string)
    ensures |param.names| > 0 && param.names[0] != "_" ==> name == param.names[0]
    ensures (|param.names| == 0 || param.names[0] == "_") ==> name == UnnamedHandle
  {
    if |param.names| == 0 || param.names[0] == "_" then UnnamedHandle else param.names[0]
  }

  // ---------------------------------------------------------------------------
  // Version gate

  /**
   * The version string isGoSupported can read: empty, or with at least two
   * dot-separated parts once "go" is trimmed (fewer makes vParts[:2] panic).
   */
  predicate VersionReadable(version: string) {
    version == "" || |Split(TrimPrefix(version, "go"), '.')| >= 2
  }

  /** The number isGoSupported compares with 124: the first two parts joined, or 116 when that is no integer. */
  function VersionNumber(version: string): (n: int)
    requires |Split(TrimPrefix(version, "go"), '.')| >= 2
    ensures MinInt64 <= n <= MaxInt64
  {
    var vParts := Split(TrimPrefix(version, "go"), '.');
    match Atoi(Join(vParts[..2], ""))
    case Some(v) => v
    case None => 116
  }

  /**
   * isGoSupported: true when detection is skipped; false on a toolchain older
   * than go1.22; true for the empty (development) version; otherwise whether
   * the first two parts, joined, read as a number of at least 124.
   */
  function IsGoSupported(skipGoVersionDetection: bool, toolchainHasGo122: bool, version: string): (ok: bool)
    requires skipGoVersionDetection || !toolchainHasGo122 || VersionReadable(version)
    ensures skipGoVersionDetection ==> ok
    ensures !skipGoVersionDetection && !toolchainHasGo122 ==> !ok
    ensures !skipGoVersionDetection && toolchainHasGo122 && version == "" ==> ok
    ensures !skipGoVersionDetection && toolchainHasGo122 && version != "" ==> ok == (VersionNumber(version) >= 124)
  {
    if skipGoVersionDetection then true
    else if !toolchainHasGo122 then false
    else if version == "" then true
    else
      var vParts := Split(TrimPrefix(version, "go"), '.');
      var v := match Atoi(Join(vParts[..2], "")) case Some(n) => n case None => 116;
      v >= 124
  }

  /** "go1.<d>" splits into the major part "1" and the minor part d. */
  lemma GoOneParts(d: string)
    requires '.' !in d
    ensures Split(TrimPrefix("go1." + d, "go"), '.') == ["1", d]
  {
    var version := "go1." + d;
    assert version == "go" + ("1" + ['.'] + d);
    assert "go" <= version;
    assert TrimPrefix(version, "go") == "1" + ['.'] + d;
    SplitWithoutSep(d, '.');
    SplitAtFirst("1", d, '.');
  }

  /** The number read from "go1.<d>" for a digit string d of at most nine digits: 1 followed by d. */
  lemma GoOneNumber(d: string)
    requires AllDigits(d) && '.' !in d && |d| <= 9
    ensures |Split(TrimPrefix("go1." + d, "go"), '.')| >= 2
    ensures VersionNumber("go1." + d) == Pow10(|d|) + DigitsValue(d)
  {
    var vParts := Split(TrimPrefix("go1." + d, "go"), '.');
    GoOneParts(d);
    assert vParts[..2] == ["1", d];
    assert Join(vParts[..2], "") == "1" + d;
    LeadingOneValue(d);
  }

  /** For every minor version below 10^9, go1.<minor> passes the gate exactly from 1.24 on (HugeMinorRefused covers nineteen digits and more). */
  lemma MinorVersionGate(minor: nat)
    requires minor < 1_000_000_000
    ensures VersionReadable("go1." + Decimal(minor))
    ensures IsGoSupported(false, true, "go1." + Decimal(minor)) == (minor >= 24)
  {
    var d := Decimal(minor);
    SmallSpelling(minor);
    GoOneNumber(d);
    DecimalValue(minor);
    assert VersionNumber("go1." + d) == Pow10(|d|) + minor;
    if minor < 10 {
      assert |d| == 1 && Pow10(|d|) == 10;
    } else if minor < 100 {
      assert |d| == 2 && Pow10(|d|) == 100;
    } else {
      Pow10Monotone(3, |d|);
      assert Pow10(3) == 1000;
    }
  }

  /**
   * A minor version of nineteen or more digits overflows the int that Atoi
   * reads "1" followed by it into, so it falls back to 116 and is refused.
   */
  lemma HugeMinorRefused(d: string)
    requires AllDigits(d) && |d| >= 19
    ensures VersionReadable("go1." + d) && VersionNumber("go1." + d) == 116
    ensures !IsGoSupported(false, true, "go1." + d)
  {
    assert forall i :: 0 <= i < |d| ==> d[i] != '.';
    GoOneParts(d);
    var parts := ["1", d];
    assert parts[..2] == parts;
    JoinPair("1", d, "");
    assert Join(parts, "") == "1" + d;
    LeadingOneOverflows(d);
    assert Atoi(Join(parts[..2], "")) == None;
  }

  /** Release candidates and other non-numeric minors fall back to 116, below the gate. */
  lemma NonNumericVersionFallsBack()
    ensures VersionReadable("go1.24rc1") && VersionNumber("go1.24rc1") == 116
    ensures !IsGoSupported(false, true, "go1.24rc1")
  {
    var minor := "24rc1";
    assert "go1.24rc1" == "go1." + minor;
    GoOneParts(minor);
    var parts := ["1", minor];
    assert parts[..2] == parts;
    JoinPair("1", minor, "");
    var joined := Join(parts, "");
    assert joined[3] == 'r';
    AtoiRejectsNonDigit(joined, 3);
  }

  // ---------------------------------------------------------------------------
  // The statement and expression walk, as functions

  /** Everything the walk of one function body reads: the settings, the gate, the resolver and the function's record. */
  datatype Scan = Scan(cfg: Config, geGo124: bool, resolver: Resolver, fn: FuncInfo)

  /** Every diagnostic in ds is one the matcher may emit while scanning sc.fn. */
  predicate AllSanctioned(sc: Scan, ds: seq<Diagnostic>) {
    forall i :: 0 <= i < |ds| ==> Sanctioned(sc.cfg, sc.geGo124, sc.fn, ds[i])
  }

  lemma SanctionedConcat(sc: Scan, a: seq<Diagnostic>, b: seq<Diagnostic>)
    requires AllSanctioned(sc, a) && AllSanctioned(sc, b)
    ensures AllSanctioned(sc, a + b)
  {
    forall i | 0 <= i < |a + b| ensures Sanctioned(sc.cfg, sc.geGo124, sc.fn, (a + b)[i]) {
      if i < |a| { assert (a + b)[i] == a[i]; } else { assert (a + b)[i] == b[i - |a|]; }
    }
  }

  /** checkExpr: the diagnostics an expression produces, in the order the walk emits them. */
  function ExprDiags(sc: Scan, e: Expr): seq<Diagnostic>
    decreases e
  {
    match e
    case Binary(x, _, y) =>
      ExprDiags(sc, x) + ExprDiags(sc, y)
    case Selector(pos, x, sel) => ToSeq(ReportSelector(sc.cfg, sc.geGo124, pos, x, sel, sc.fn))
    case FuncLit(_, body) => StmtsDiags(sc, body)
    case TypeAssert(x, _) => ExprDiags(sc, x)
    case Call(pos, fun, args) =>
      var fired := ReportCallExpr(sc.cfg, sc.resolver, sc.fn, pos, fun, args);
      ExprsDiags(sc, args) + (if fired.Some? then [fired.value] else ExprDiags(sc, fun))
    case Ident(pos, name) => ToSeq(ReportIdent(sc.cfg, sc.geGo124, sc.resolver, pos, name, sc.fn))
    case _ => []
  }

  /** checkExprs: each expression in turn. */
  function ExprsDiags(sc: Scan, es: seq<Expr>): seq<Diagnostic>
    decreases es
  {
    if es == [] then []
    else
      ExprDiags(sc, es[0]) + ExprsDiags(sc, es[1..])
  }

  /** checkExpr on a field that may be nil: nil falls to the default case. */
  function OptExprDiags(sc: Scan, e: Option<Expr>): seq<Diagnostic>
    decreases e
  {
    match e
    case None => []
    case Some(x) => ExprDiags(sc, x)
  }

  /**
   * The DeclStmt case: the values of the declaration's first spec, when the
   * declaration is a GenDecl whose first spec is a ValueSpec; None skips the node.
   * An empty group (`var ()`) is skipped as well; the code as written indexes it
   * (see DeclValuesAsWritten).
   */
  function DeclValues(d: Decl): (vals: Option<seq<Expr>>)
    ensures vals.Some? <==> d.GenDecl? && |d.specs| > 0 && d.specs[0].ValueSpec?
    ensures vals.Some? ==> vals.value == d.specs[0].values
    ensures DeclValuesAsWritten(d) != IndexOutOfRange ==>
      (vals.Some? <==> DeclValuesAsWritten(d).Found?) && (vals.Some? ==> vals.value == DeclValuesAsWritten(d).values)
  {
    match d
    case BadDecl => None
    case GenDecl(specs) =>
      if |specs| == 0 then None
      else match specs[0]
        case ValueSpec(_, _, values) => Some(values)
        case _ => None
  }

  /** The outcome of `genDecl.Specs[0].(*ast.ValueSpec)` exactly as written: indexing an empty list panics. */
  datatype SpecLookup = Found(values: seq<Expr>) | Skipped | IndexOutOfRange

  function DeclValuesAsWritten(d: Decl): (r: SpecLookup)
    ensures r == IndexOutOfRange <==> d.GenDecl? && |d.specs| == 0
    ensures r.Found? ==> d.GenDecl? && d.specs[0].ValueSpec? && r.values == d.specs[0].values
  {
    match d
    case BadDecl => Skipped
    case GenDecl(specs) =>
      if |specs| == 0 then IndexOutOfRange
      else match specs[0]
        case ValueSpec(_, _, values) => Found(values)
        case _ => Skipped
  }

  /** `var ()` in a test body: the lookup as written runs off the empty spec list. */
  lemma EmptyVarGroupPanics()
    ensures DeclValuesAsWritten(GenDecl([])) == IndexOutOfRange
    ensures DeclValues(GenDecl([])) == None
  {
  }

  /** checkStmt: the diagnostics a statement produces; only the sub-parts listed per case are visited. */
  function StmtDiags(sc: Scan, s: Stmt): seq<Diagnostic>
    decreases s
  {
    match s
    case ExprStmt(x) => ExprDiags(sc, x)
    case If(init, _, _, _) => OptStmtDiags(sc, init)
    case Assign(_, rhs) => if |rhs| > 0 then ExprDiags(sc, rhs[0]) else []
    case For(_, _, _, body) => StmtDiags(sc, body)
    case Defer(call) => ExprDiags(sc, call)
    case Range(_, _, _, body) => StmtDiags(sc, body)
    case Return(results) => ExprsDiags(sc, results)
    case DeclStmt(decl) =>
      (match DeclValues(decl)
       case None => []
       case Some(values) => ExprsDiags(sc, values))
    case Go(call) => ExprDiags(sc, call)
    case CaseClause(exprs, stmts) =>
      ExprsDiags(sc, exprs) + StmtsDiags(sc, stmts)
    case Switch(_, tag, body) =>
      OptExprDiags(sc, tag) + StmtDiags(sc, body)
    case TypeSwitch(_, assign, body) =>
      StmtDiags(sc, assign) + StmtDiags(sc, body)
    case CommClause(_, stmts) => StmtsDiags(sc, stmts)
    case Select(body) => StmtDiags(sc, body)
    case Block(stmts) => StmtsDiags(sc, stmts)
    case Branch(_) => []
    case Send(_, _) => []
    case IncDec(_) => []
    case Labeled(_, _) => []
    case OtherStmt => []
  }

  /** checkStmt on a field that may be nil: nil returns at once. */
  function OptStmtDiags(sc: Scan, s: Option<Stmt>): seq<Diagnostic>
    decreases s
  {
    match s
    case None => []
    case Some(x) => StmtDiags(sc, x)
  }

  /** checkStmts: each statement in turn. */
  function StmtsDiags(sc: Scan, ss: seq<Stmt>): seq<Diagnostic>
    decreases ss
  {
    if ss == [] then []
    else
      StmtDiags(sc, ss[0]) + StmtsDiags(sc, ss[1..])
  }

  /**
   * Soundness of the walk: every diagnostic it emits while scanning a function
   * is one of the matcher's sanctioned forms for that function, so a message
   * always names the scanned function and its handle, and only an enabled,
   * version-allowed rule or the enabled CreateTemp rule produces one.
   */
  lemma {:induction false} ExprSanctioned(sc: Scan, e: Expr)
    ensures AllSanctioned(sc, ExprDiags(sc, e))
    decreases e, 1
  {
    match e
    case Binary(x, _, y) =>
      ExprSanctioned(sc, x);
      ExprSanctioned(sc, y);
      SanctionedConcat(sc, ExprDiags(sc, x), ExprDiags(sc, y));
    case Selector(pos, x, sel) =>
    case FuncLit(_, body) => StmtsSanctioned(sc, body);
    case TypeAssert(x, _) => ExprSanctioned(sc, x);
    case Call(pos, fun, args) =>
      ExprsSanctioned(sc, args);
      var fired := ReportCallExpr(sc.cfg, sc.resolver, sc.fn, pos, fun, args);
      if fired.None? { ExprSanctioned(sc, fun); }
      SanctionedConcat(sc, ExprsDiags(sc, args), if fired.Some? then [fired.value] else ExprDiags(sc, fun));
    case Ident(pos, name) =>
    case _ =>
  }

  lemma {:induction false} ExprsSanctioned(sc: Scan, es: seq<Expr>)
    ensures AllSanctioned(sc, ExprsDiags(sc, es))
    decreases es
  {
    if es != [] {
      ExprSanctioned(sc, es[0]);
      ExprsSanctioned(sc, es[1..]);
      SanctionedConcat(sc, ExprDiags(sc, es[0]), ExprsDiags(sc, es[1..]));
    }
  }

  lemma {:induction false} StmtSanctioned(sc: Scan, s: Stmt)
    ensures AllSanctioned(sc, StmtDiags(sc, s))
    decreases s, 1
  {
    match s
    case ExprStmt(x) => ExprSanctioned(sc, x);
    case If(init, _, _, _) => if init.Some? { StmtSanctioned(sc, init.value); }
    case Assign(_, rhs) => if |rhs| > 0 { ExprSanctioned(sc, rhs[0]); }
    case For(_, _, _, body) => StmtSanctioned(sc, body);
    case Defer(call) => ExprSanctioned(sc, call);
    case Range(_, _, _, body) => StmtSanctioned(sc, body);
    case Return(results) => ExprsSanctioned(sc, results);
    case DeclStmt(decl) =>
      if DeclValues(decl).Some? {
        assert decl.specs[0] in decl.specs;
        ExprsSanctioned(sc, decl.specs[0].values);
      }
    case Go(call) => ExprSanctioned(sc, call);
    case CaseClause(exprs, stmts) =>
      ExprsSanctioned(sc, exprs);
      StmtsSanctioned(sc, stmts);
      SanctionedConcat(sc, ExprsDiags(sc, exprs), StmtsDiags(sc, stmts));
    case Switch(_, tag, body) =>
      if tag.Some? { ExprSanctioned(sc, tag.value); }
      StmtSanctioned(sc, body);
      SanctionedConcat(sc, OptExprDiags(sc, tag), StmtDiags(sc, body));
    case TypeSwitch(_, assign, body) =>
      StmtSanctioned(sc, assign);
      StmtSanctioned(sc, body);
      SanctionedConcat(sc, StmtDiags(sc, assign), StmtDiags(sc, body));
    case CommClause(_, stmts) => StmtsSanctioned(sc, stmts);
    case Select(body) => StmtSanctioned(sc, body);
    case Block(stmts) => StmtsSanctioned(sc, stmts);
    case _ =>
  }

  lemma {:induction false} StmtsSanctioned(sc: Scan, ss: seq<Stmt>)
    ensures AllSanctioned(sc, StmtsDiags(sc, ss))
    decreases ss
  {
    if ss != [] {
      StmtSanctioned(sc, ss[0]);
      StmtsSanctioned(sc, ss[1..]);
      SanctionedConcat(sc, StmtDiags(sc, ss[0]), StmtsDiags(sc, ss[1..]));
    }
  }

  lemma {:induction false} StmtsDiagsAppend(sc: Scan, a: seq<Stmt>, b: seq<Stmt>)
    ensures StmtsDiags(sc, a + b) == StmtsDiags(sc, a) + StmtsDiags(sc, b)
    decreases |a|
  {
    if a == [] {
      assert a + b == b;
    } else {
      assert (a + b)[1..] == a[1..] + b;
      StmtsDiagsAppend(sc, a[1..], b);
    }
  }

  lemma {:induction false} ExprsDiagsAppend(sc: Scan, a: seq<Expr>, b: seq<Expr>)
    ensures ExprsDiags(sc, a + b) == ExprsDiags(sc, a) + ExprsDiags(sc, b)
    decreases |a|
  {
    if a == [] {
      assert a + b == b;
    } else {
      assert (a + b)[1..] == a[1..] + b;
      ExprsDiagsAppend(sc, a[1..], b);
    }
  }

  /** One more statement walked: the diagnostics so far cover one more prefix of the list. */
  lemma StmtsPrefixStep(sc: Scan, ss: seq<Stmt>, i: nat, start: seq<Diagnostic>, before: seq<Diagnostic>, after: seq<Diagnostic>)
    requires i < |ss|
    requires before == start + StmtsDiags(sc, ss[..i])
    requires after == before + StmtDiags(sc, ss[i])
    ensures after == start + StmtsDiags(sc, ss[..i + 1])
  {
    var done, s := ss[..i], ss[i];
    assert ss[..i + 1] == done + [s];
    StmtsDiagsAppend(sc, done, [s]);
    assert [s][1..] == [];
    AppendStep(start, before, after, StmtsDiags(sc, done), StmtDiags(sc, s));
  }

  /** One more expression walked: the diagnostics so far cover one more prefix of the list. */
  lemma ExprsPrefixStep(sc: Scan, es: seq<Expr>, i: nat, start: seq<Diagnostic>, before: seq<Diagnostic>, after: seq<Diagnostic>)
    requires i < |es|
    requires before == start + ExprsDiags(sc, es[..i])
    requires after == before + ExprDiags(sc, es[i])
    ensures after == start + ExprsDiags(sc, es[..i + 1])
  {
    var done, e := es[..i], es[i];
    assert es[..i + 1] == done + [e];
    ExprsDiagsAppend(sc, done, [e]);
    assert [e][1..] == [];
    AppendStep(start, before, after, ExprsDiags(sc, done), ExprDiags(sc, e));
  }

  /** Appending a and then b to a start appends a + b. */
  lemma AppendStep<T>(start: seq<T>, before: seq<T>, after: seq<T>, a: seq<T>, b: seq<T>)
    requires before == start + a && after == before + b
    ensures after == start + (a + b)
  {
  }

  // ---------------------------------------------------------------------------
  // checkFunc and run, as functions

  /** The record a scanned function's messages are built from. */
  function FuncInfoOf(ft: FuncType, fnName: string): FuncInfo
    requires |ft.params| >= 1
  {
    FuncInfo(fnName, ArgName(ft.params[0]))
  }

  /** checkFunc: an eligible function's body statements are walked; any other function produces nothing. */
  function FuncDiags(cfg: Config, geGo124: bool, res: Resolver, ft: FuncType, body: seq<Stmt>, fnName: string): seq<Diagnostic>
  {
    if |ft.params| < 1 then []
    else if !IsTestFunction(ft.params[0].typ, TestingPkgName) then []
    else StmtsDiags(Scan(cfg, geGo124, res, FuncInfoOf(ft, fnName)), body)
  }

  /**
   * One dispatched node: its walk under the name it is reported under.  A
   * declaration without a body is skipped; the code as written dereferences
   * the missing body once the function is eligible (see RootDiagsAsWritten).
   */
  function RootDiags(cfg: Config, geGo124: bool, res: Resolver, root: FuncNode): (d: seq<Diagnostic>)
    ensures root.FuncDecl? && root.declBody.None? ==> d == []
    ensures RootDiagsAsWritten(cfg, geGo124, res, root) != NilBodyPanic ==>
      RootDiagsAsWritten(cfg, geGo124, res, root) == Reported(d)
  {
    match root
    case FuncDecl(name, ft, declBody) =>
      if declBody.None? then [] else FuncDiags(cfg, geGo124, res, ft, declBody.value, name)
    case FuncLitNode(ft, body) => FuncDiags(cfg, geGo124, res, ft, body, AnonymousFunction)
  }

  /** The outcome of checkFunc exactly as written: `block.List` on a missing body is a nil dereference. */
  datatype FuncOutcome = Reported(diags: seq<Diagnostic>) | NilBodyPanic

  function RootDiagsAsWritten(cfg: Config, geGo124: bool, res: Resolver, root: FuncNode): FuncOutcome {
    if !Eligible(root.ftype) then Reported([])
    else match root
      case FuncDecl(name, ft, declBody) =>
        if declBody.None? then NilBodyPanic else Reported(FuncDiags(cfg, geGo124, res, ft, declBody.value, name))
      case FuncLitNode(ft, body) => Reported(FuncDiags(cfg, geGo124, res, ft, body, AnonymousFunction))
  }

  /** `func BenchmarkX(b *testing.B)` without a body: the code as written dereferences nil; the model reports nothing. */
  lemma BodilessTestFunctionPanics(cfg: Config, geGo124: bool, res: Resolver)
    ensures
      var root := FuncDecl("BenchmarkX", FuncType([Field(["b"], Star(Selector(0, Ident(0, TestingPkgName), "B")))]), None);
      RootDiagsAsWritten(cfg, geGo124, res, root) == NilBodyPanic && RootDiags(cfg, geGo124, res, root) == []
  {
  }

  /** The dispatch in order over the FuncDecl and FuncLit nodes of the package. */
  function RootsDiags(cfg: Config, geGo124: bool, res: Resolver, roots: seq<FuncNode>): seq<Diagnostic>
  {
    if roots == [] then [] else RootDiags(cfg, geGo124, res, roots[0]) + RootsDiags(cfg, geGo124, res, roots[1..])
  }

  lemma {:induction false} RootsDiagsAppend(cfg: Config, geGo124: bool, res: Resolver, a: seq<FuncNode>, b: seq<FuncNode>)
    ensures RootsDiags(cfg, geGo124, res, a + b) == RootsDiags(cfg, geGo124, res, a) + RootsDiags(cfg, geGo124, res, b)
    decreases |a|
  {
    if a == [] {
      assert a + b == b;
    } else {
      assert (a + b)[1..] == a[1..] + b;
      RootsDiagsAppend(cfg, geGo124, res, a[1..], b);
    }
  }

  lemma RootsDiagsSnoc(cfg: Config, geGo124: bool, res: Resolver, a: seq<FuncNode>, r: FuncNode)
    ensures RootsDiags(cfg, geGo124, res, a + [r]) == RootsDiags(cfg, geGo124, res, a) + RootDiags(cfg, geGo124, res, r)
  {
    RootsDiagsAppend(cfg, geGo124, res, a, [r]);
    assert [r][1..] == [];
  }

  /** One more node dispatched: the diagnostics so far cover one more prefix of the nodes. */
  lemma RootsPrefixStep(cfg: Config, geGo124: bool, res: Resolver, roots: seq<FuncNode>, i: nat,
                        start: seq<Diagnostic>, before: seq<Diagnostic>, after: seq<Diagnostic>)
    requires i < |roots|
    requires before == start + RootsDiags(cfg, geGo124, res, roots[..i])
    requires after == before + RootDiags(cfg, geGo124, res, roots[i])
    ensures after == start + RootsDiags(cfg, geGo124, res, roots[..i + 1])
  {
    var done, r := roots[..i], roots[i];
    assert roots[..i + 1] == done + [r];
    RootsDiagsSnoc(cfg, geGo124, res, done, r);
    AppendStep(start, before, after, RootsDiags(cfg, geGo124, res, done), RootDiags(cfg, geGo124, res, r));
  }

  /** What the analysis pass provides: the type checker's answers, the package's Go version and the toolchain's release tags. */
  datatype Pass = Pass(resolver: Resolver, goVersion: string, toolchainHasGo122: bool)

  /** run exits at once when the four flags it checks are all off. */
  predicate AllFlagsOff(cfg: Config) {
    !cfg.osChdir && !cfg.contextBackground && !cfg.contextTodo && !cfg.osMkdirTemp
  }

  /** The version gate can be computed for this pass. */
  predicate GateComputable(cfg: Config, pass: Pass) {
    cfg.skipGoVersionDetection || !pass.toolchainHasGo122 || VersionReadable(pass.goVersion)
  }

  /** run: nothing when the four flags are off; otherwise the gate is computed once and every node is dispatched. */
  function RunDiags(cfg: Config, pass: Pass, roots: seq<FuncNode>): seq<Diagnostic>
    requires AllFlagsOff(cfg) || GateComputable(cfg, pass)
  {
    if AllFlagsOff(cfg) then []
    else RootsDiags(cfg, IsGoSupported(cfg.skipGoVersionDetection, pass.toolchainHasGo122, pass.goVersion), pass.resolver, roots)
  }

  // ---------------------------------------------------------------------------
  // The analyzer

  /**
   * The analyzer: its flags, the gate flag run sets before walking, and the
   * diagnostics reported so far (what pass.Reportf has received).
   */
  class Analyzer {
    const cfg: Config
    var geGo124: bool
    var diagnostics: seq<Diagnostic>

    constructor (cfg: Config)
      ensures this.cfg == cfg && !geGo124 && diagnostics == []
    {
      this.cfg := cfg;
      geGo124 := false;
      diagnostics := [];
    }

    method Run(pass: Pass, roots: seq<FuncNode>)
      requires AllFlagsOff(cfg) || GateComputable(cfg, pass)
      modifies this
      ensures diagnostics == old(diagnostics) + RunDiags(cfg, pass, roots)
      ensures geGo124 == if AllFlagsOff(cfg) then old(geGo124)
                         else IsGoSupported(cfg.skipGoVersionDetection, pass.toolchainHasGo122, pass.goVersion)
    {
      if !cfg.osChdir && !cfg.contextBackground && !cfg.contextTodo && !cfg.osMkdirTemp {
        return;
      }
      geGo124 := IsGoSupported(cfg.skipGoVersionDetection, pass.toolchainHasGo122, pass.goVersion);
      CheckRoots(pass, roots);
    }

    /** The Preorder dispatch: every function node in turn. */
    method CheckRoots(pass: Pass, roots: seq<FuncNode>)
      modifies this`diagnostics
      ensures diagnostics == old(diagnostics) + RootsDiags(cfg, geGo124, pass.resolver, roots)
    {
      var i := 0;
      while i < |roots|
        invariant 0 <= i <= |roots|
        invariant diagnostics == old(diagnostics) + RootsDiags(cfg, geGo124, pass.resolver, roots[..i])
      {
        ghost var before := diagnostics;
        CheckRoot(pass, roots[i]);
        RootsPrefixStep(cfg, geGo124, pass.resolver, roots, i, old(diagnostics), before, diagnostics);
        i := i + 1;
      }
      assert roots[..i] == roots;
    }

    /** One node of the Preorder dispatch: a declared function under its name, a literal as the anonymous function. */
    method CheckRoot(pass: Pass, root: FuncNode)
      modifies this`diagnostics
      ensures diagnostics == old(diagnostics) + RootDiags(cfg, geGo124, pass.resolver, root)
    {
      match root {
        case FuncDecl(name, ft, declBody) =>
          if declBody.Some? { CheckFunc(pass, ft, declBody.value, name); }
        case FuncLitNode(ft, body) => CheckFunc(pass, ft, body, AnonymousFunction);
      }
    }

    method CheckFunc(pass: Pass, ft: FuncType, body: seq<Stmt>, fnName: string)
      modifies this`diagnostics
      ensures diagnostics == old(diagnostics) + FuncDiags(cfg, geGo124, pass.resolver, ft, body, fnName)
    {
      if |ft.params| < 1 {
        return;
      }
      if !IsTestFunction(ft.params[0].typ, TestingPkgName) {
        return;
      }
      CheckStmts(pass, FuncInfoOf(ft, fnName), body);
    }

    method CheckStmt(pass: Pass, fn: FuncInfo, s: Stmt)
      modifies this`diagnostics
      ensures diagnostics == old(diagnostics) + StmtDiags(Scan(cfg, geGo124, pass.resolver, fn), s)
      decreases s
    {
      ghost var sc := Scan(cfg, geGo124, pass.resolver, fn);
      ghost var start := diagnostics;
      match s
      case ExprStmt(x) => CheckExpr(pass, fn, x);
      case If(init, _, _, _) =>
        if init.Some? { CheckStmt(pass, fn, init.value); }
      case Assign(_, rhs) =>
        if |rhs| > 0 { CheckExpr(pass, fn, rhs[0]); }
      case For(_, _, _, body) => CheckStmt(pass, fn, body);
      case Defer(call) => CheckExpr(pass, fn, call);
      case Range(_, _, _, body) => CheckStmt(pass, fn, body);
      case Return(results) => CheckExprs(pass, fn, results);
      case DeclStmt(decl) =>
        var values := DeclValues(decl);
        if values.Some? { CheckExprs(pass, fn, values.value); }
      case Go(call) => CheckExpr(pass, fn, call);
      case CaseClause(exprs, stmts) =>
        CheckExprs(pass, fn, exprs);
        ghost var mid := diagnostics;
        CheckStmts(pass, fn, stmts);
        AppendStep(start, mid, diagnostics, ExprsDiags(sc, exprs), StmtsDiags(sc, stmts));
      case Switch(_, tag, body) =>
        if tag.Some? { CheckExpr(pass, fn, tag.value); }
        ghost var mid := diagnostics;
        CheckStmt(pass, fn, body);
        AppendStep(start, mid, diagnostics, OptExprDiags(sc, tag), StmtDiags(sc, body));
      case TypeSwitch(_, assign, body) =>
        CheckStmt(pass, fn, assign);
        ghost var mid := diagnostics;
        CheckStmt(pass, fn, body);
        AppendStep(start, mid, diagnostics, StmtDiags(sc, assign), StmtDiags(sc, body));
      case CommClause(_, stmts) => CheckStmts(pass, fn, stmts);
      case Select(body) => CheckStmt(pass, fn, body);
      case Block(stmts) => CheckStmts(pass, fn, stmts);
      case Branch(_) =>
      case Send(_, _) =>
      case IncDec(_) =>
      case Labeled(_, _) =>
      case OtherStmt =>
    }

    method CheckExpr(pass: Pass, fn: FuncInfo, e: Expr)
      modifies this`diagnostics
      ensures diagnostics == old(diagnostics) + ExprDiags(Scan(cfg, geGo124, pass.resolver, fn), e)
      decreases e
    {
      ghost var sc := Scan(cfg, geGo124, pass.resolver, fn);
      ghost var start := diagnostics;
      match e
      case Binary(x, _, y) =>
        CheckExpr(pass, fn, x);
        ghost var mid := diagnostics;
        CheckExpr(pass, fn, y);
        AppendStep(start, mid, diagnostics, ExprDiags(sc, x), ExprDiags(sc, y));
      case Selector(pos, x, sel) =>
        var d := ReportSelector(cfg, geGo124, pos, x, sel, fn);
        if d.Some? { diagnostics := diagnostics + [d.value]; }
      case FuncLit(_, body) => CheckStmts(pass, fn, body);
      case TypeAssert(x, _) => CheckExpr(pass, fn, x);
      case Call(pos, fun, args) =>
        CheckExprs(pass, fn, args);
        ghost var mid := diagnostics;
        var fired := ReportCallExpr(cfg, pass.resolver, fn, pos, fun, args);
        if fired.Some? {
          diagnostics := diagnostics + [fired.value];
          AppendStep(start, mid, diagnostics, ExprsDiags(sc, args), [fired.value]);
          return;
        }
        CheckExpr(pass, fn, fun);
        AppendStep(start, mid, diagnostics, ExprsDiags(sc, args), ExprDiags(sc, fun));
      case Ident(pos, name) =>
        var d := ReportIdent(cfg, geGo124, pass.resolver, pos, name, fn);
        if d.Some? { diagnostics := diagnostics + [d.value]; }
      case BasicLit(_, _, _) =>
      case _ =>
    }

    method CheckStmts(pass: Pass, fn: FuncInfo, ss: seq<Stmt>)
      modifies this`diagnostics
      ensures diagnostics == old(diagnostics) + StmtsDiags(Scan(cfg, geGo124, pass.resolver, fn), ss)
      decreases ss
    {
      ghost var sc := Scan(cfg, geGo124, pass.resolver, fn);
      var i := 0;
      while i < |ss|
        invariant 0 <= i <= |ss|
        invariant diagnostics == old(diagnostics) + StmtsDiags(sc, ss[..i])
      {
        assert ss[i] in ss;
        ghost var before := diagnostics;
        CheckStmt(pass, fn, ss[i]);
        StmtsPrefixStep(sc, ss, i, old(diagnostics), before, diagnostics);
        i := i + 1;
      }
      assert ss[..i] == ss;
    }

    method CheckExprs(pass: Pass, fn: FuncInfo, es: seq<Expr>)
      modifies this`diagnostics
      ensures diagnostics == old(diagnostics) + ExprsDiags(Scan(cfg, geGo124, pass.resolver, fn), es)
      decreases es
    {
      ghost var sc := Scan(cfg, geGo124, pass.resolver, fn);
      var i := 0;
      while i < |es|
        invariant 0 <= i <= |es|
        invariant diagnostics == old(diagnostics) + ExprsDiags(sc, es[..i])
      {
        assert es[i] in es;
        ghost var before := diagnostics;
        CheckExpr(pass, fn, es[i]);
        ExprsPrefixStep(sc, es, i, old(diagnostics), before, diagnostics);
        i := i + 1;
      }
      assert es[..i] == es;
    }
  }
}

/**
 * The fragment of Go's syntax tree (package go/ast) that the analyzer looks at.
 * Each node keeps the fields the walk reads, and, where it helps to state what the
 * walk does NOT look at, the fields it skips as well.  A nil child is `None`.
 */
module Ast {
  import opened Wrappers

  /** token.Pos: an opaque source position. */
  type Pos = int

  /** token.Token values a basic literal can carry. */
  datatype LitKind = INT | FLOAT | IMAG | CHAR | STRING

  datatype Expr =
    | Ident(pos: Pos, name: string)
    | Selector(pos: Pos, x: Expr, sel: string)                 // x.sel; pos is x's position
    | BasicLit(pos: Pos, kind: LitKind, value: string)          // value is the raw source text, quotes included
    | Binary(x: Expr, op: string, y: Expr)
    | FuncLit(ftype: FuncType, body: seq<Stmt>)
    | TypeAssert(x: Expr, typ: Option<Expr>)                    // typ is None for x.(type)
    | Call(pos: Pos, fun: Expr, args: seq<Expr>)
    | Star(x: Expr)
    | Paren(x: Expr)
    | Unary(op: string, x: Expr)
    | Index(x: Expr, index: Expr)
    | KeyValue(key: Expr, val: Expr)
    | Composite(typ: Option<Expr>, elts: seq<Expr>)
    | OtherExpr                                                 // every remaining expression shape

  /** One entry of a parameter list: `a, b *testing.T` has names ["a", "b"]; an unnamed parameter has none. */
  datatype Field = Field(names: seq<string>, typ: Expr)

  datatype FuncType = FuncType(params: seq<Field>)

  datatype Stmt =
    | ExprStmt(x: Expr)
    | If(init: Option<Stmt>, cond: Expr, body: Stmt, els: Option<Stmt>)
    | Assign(lhs: seq<Expr>, rhs: seq<Expr>)
    | For(init: Option<Stmt>, test: Option<Expr>, post: Option<Stmt>, body: Stmt)
    | Defer(call: Expr)
    | Range(key: Option<Expr>, value: Option<Expr>, x: Expr, body: Stmt)
    | Return(results: seq<Expr>)
    | DeclStmt(decl: Decl)
    | Go(call: Expr)
    | CaseClause(exprs: seq<Expr>, stmts: seq<Stmt>)
    | Switch(init: Option<Stmt>, tag: Option<Expr>, body: Stmt)
    | TypeSwitch(init: Option<Stmt>, assign: Stmt, body: Stmt)
    | CommClause(comm: Option<Stmt>, stmts: seq<Stmt>)
    | Select(body: Stmt)
    | Block(stmts: seq<Stmt>)
    | Branch(target: Option<string>)
    | Send(chan: Expr, sent: Expr)
    | IncDec(x: Expr)
    | Labeled(name: string, stmt: Stmt)
    | OtherStmt                                                 // EmptyStmt, BadStmt and the like

  /** A declaration inside a function body: a GenDecl (var, const, type) or a BadDecl. */
  datatype Decl = GenDecl(specs: seq<Spec>) | BadDecl

  datatype Spec =
    | ValueSpec(names: seq<string>, typ: Option<Expr>, values: seq<Expr>)
    | TypeSpec(name: string, definition: Expr)
    | ImportSpec(path: string)

  /**
   * A node the per-function dispatch hands to checkFunc: a declared function or
   * a function literal.  A declaration implemented outside Go (in assembly) has
   * no body: declBody is None.
   */
  datatype FuncNode =
    | FuncDecl(name: string, ftype: FuncType, declBody: Option<seq<Stmt>>)
    | FuncLitNode(ftype: FuncType, body: seq<Stmt>)

  /**
   * ast.IsExported: the name starts with an upper-case letter.  Go asks
   * unicode.IsUpper of the first rune; the model recognises the ASCII capitals.
   */
  predicate IsExported(name: string) {
    |name| > 0 && 'A' <= name[0] <= 'Z'
  }
}

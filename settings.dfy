/**
 * What the analyzer is configured with and what it emits: the enable flags and
 * the fixed names of usetesting.go and report.go, the per-function record the
 * messages are built from, the resolver standing for go/types, and diagnostics.
 */
module Settings {
  import opened Ast

  // Tracked and replacement names.
  const ChdirName := "Chdir"
  const MkdirTempName := "MkdirTemp"
  const TempDirName := "TempDir"
  const BackgroundName := "Background"
  const TodoName := "TODO"
  const ContextName := "Context"
  const SetenvName := "Setenv"
  const CreateTempName := "CreateTemp"

  // Package names.
  const OsPkgName := "os"
  const ContextPkgName := "context"
  const TestingPkgName := "testing"

  /** The name a function literal is reported under. */
  const AnonymousFunction := "anonymous function"

  /** The handle name used when the test parameter is unnamed or `_`. */
  const UnnamedHandle := "<t/b/f>"

  /**
   * The analyzer's settings, fixed once its flags are parsed: one enable flag per
   * rule family, the switch that bypasses Go version detection, and the names a
   * bare identifier must have to be considered at all (fieldNames).
   */
  datatype Config = Config(
    contextBackground: bool,
    contextTodo: bool,
    osChdir: bool,
    osMkdirTemp: bool,
    osTempDir: bool,
    osSetenv: bool,
    osCreateTemp: bool,
    skipGoVersionDetection: bool,
    fieldNames: set<string>)

  /** FuncInfo: the scanned function's name and the name of its test handle. */
  datatype FuncInfo = FuncInfo(name: string, argName: string)

  /**
   * The type checker's answer for an identifier, keyed by its position: the name
   * of the package its object belongs to.  A position that is absent stands for
   * ObjectOf returning nil or an object without a package.
   */
  type Resolver = map<Pos, string>

  /**
   * The arguments of a diagnostic's format string, in order.
   * Replace:          "<origPkg>.<origName>() could be replaced by <handle>.<replacement>() in <fnName>"
   * ReplaceFirstArg:  "<origPkg>.<origName>("", ...) could be replaced by
   *                    <origPkg>.<origName>(<handle>.<helper>(), ...) in <fnName>"
   */
  datatype Message =
    | Replace(origPkg: string, origName: string, handle: string, replacement: string, fnName: string)
    | ReplaceFirstArg(origPkg: string, origName: string, handle: string, helper: string, fnName: string)

  datatype Diagnostic = Diagnostic(pos: Pos, message: Message)
}

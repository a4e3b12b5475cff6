// The slice of Python's `ast` module that the inliner's passes look at, and the
// runtime objects that its scope dictionaries bind names to.

module PyAst {
  import opened Util

  /** The context of a `Name` node: read (`Load`) or bound (`Store`). */
  datatype Ctx = Load | Store

  datatype Expr =
    | Name(id: string, ctx: Ctx)
    | Attribute(value: Expr, attr: string)
    | Call(func: Expr, args: seq<Expr>, keywords: seq<Keyword>)
    | Constant(literal: string)

  /** `arg=value` in a call; `arg` is absent for `**value`. */
  datatype Keyword = Keyword(arg: Option<string>, value: Expr)

  /** One `name [as asname]` of an import statement. */
  datatype Alias = Alias(name: string, asname: Option<string>)
  {
    /** `alias.asname or alias.name`: the name the import binds. */
    function Bound(): string
    {
      if asname.Some? then asname.value else name
    }
  }

  /** Statements. `FunctionDef.defaults` holds the default expressions of the
      signature in the order the node visitor meets them; `args` the positional
      parameters and `kwonlyargs` the keyword-only ones. `ImportFrom.moduleName`
      is absent for a relative `from . import x`. */
  datatype Stmt =
    | Import(names: seq<Alias>)
    | ImportFrom(moduleName: Option<string>, names: seq<Alias>)
    | FunctionDef(name: string, args: seq<string>, kwonlyargs: seq<string>, defaults: seq<Expr>, body: seq<Stmt>)
    | ClassDef(name: string, bases: seq<Expr>, body: seq<Stmt>)
    | Assign(targets: seq<Expr>, value: Expr)
    | ExprStmt(value: Expr)
    | Return(value: Expr)
    | Pass

  predicate IsImport(s: Stmt)
  {
    s.Import? || s.ImportFrom?
  }

  /** The names an import statement binds, in order. */
  function BoundNames(aliases: seq<Alias>): (r: seq<string>)
    ensures |r| == |aliases|
    ensures forall i | 0 <= i < |aliases| :: r[i] == aliases[i].Bound()
  {
    if aliases == [] then [] else BoundNames(aliases[..|aliases| - 1]) + [aliases[|aliases| - 1].Bound()]
  }

  /** A Python object, by identity (what a scope dictionary maps a name to). */
  datatype Obj = Obj(id: nat)

  /** The expression `root.path[0].path[1]...` */
  function Dotted(root: string, path: seq<string>): Expr
  {
    if path == [] then Name(root, Load) else Attribute(Dotted(root, path[..|path| - 1]), path[|path| - 1])
  }
}

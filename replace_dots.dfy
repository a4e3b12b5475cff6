// Rewriting `x.f(...)` into `f(...)` when `f` is bound in the caller's scope to
// local (non-library) code (uc_functions/visitors.py: ReplaceDotsTransformer).
// The transformer's `visit_Call` returns without visiting the call's children,
// so a call nested in another call's target, arguments or keywords is never
// rewritten. The only failure is an exception from `is_from_libraries`, which
// names the attribute being looked at.

module ReplaceDots {
  import opened Util
  import opened PyAst
  import opened Runtime

  /** `visit_Call` */
  function VisitCall(w: World, g: Globals, e: Expr): (r: Result<Expr, string>)
    requires e.Call?
    ensures r.Err? <==>
      e.func.Attribute? && e.func.attr in g && IsFromLibraries(w, g, e.func.attr).None?
    ensures r.Ok? && r.value != e <==>
      e.func.Attribute? && e.func.attr in g && IsFromLibraries(w, g, e.func.attr) == Some(false)
    ensures r.Ok? && r.value != e ==> r.value == Call(Name(e.func.attr, Load), e.args, e.keywords)
  {
    if e.func.Attribute? && e.func.attr in g then
      match IsFromLibraries(w, g, e.func.attr)
      case None => Err(e.func.attr)
      case Some(fromLibrary) =>
        if fromLibrary then Ok(e) else Ok(Call(Name(e.func.attr, Load), e.args, e.keywords))
    else Ok(e)
  }

  function TransformExpr(w: World, g: Globals, e: Expr): Result<Expr, string>
    decreases e
  {
    match e
    case Call(_, _, _) => VisitCall(w, g, e)
    case Attribute(v, a) =>
      (match TransformExpr(w, g, v)
       case Err(n) => Err(n)
       case Ok(v') => Ok(Attribute(v', a)))
    case _ => Ok(e)
  }

  /** The expressions in order; the first failure stops the walk. */
  function TransformExprs(w: World, g: Globals, es: seq<Expr>): Result<seq<Expr>, string>
    decreases es
  {
    if es == [] then Ok([])
    else
      match TransformExprs(w, g, es[..|es| - 1])
      case Err(n) => Err(n)
      case Ok(prefix) =>
        match TransformExpr(w, g, es[|es| - 1])
        case Err(n) => Err(n)
        case Ok(x) => Ok(prefix + [x])
  }

  function TransformStmt(w: World, g: Globals, s: Stmt): Result<Stmt, string>
    decreases s
  {
    match s
    case FunctionDef(name, args, kwonly, defaults, body) =>
      (match TransformExprs(w, g, defaults)
       case Err(n) => Err(n)
       case Ok(d) =>
         match TransformStmts(w, g, body)
         case Err(n) => Err(n)
         case Ok(b) => Ok(FunctionDef(name, args, kwonly, d, b)))
    case ClassDef(name, bases, body) =>
      (match TransformExprs(w, g, bases)
       case Err(n) => Err(n)
       case Ok(bs) =>
         match TransformStmts(w, g, body)
         case Err(n) => Err(n)
         case Ok(b) => Ok(ClassDef(name, bs, b)))
    case Assign(targets, value) =>
      (match TransformExprs(w, g, targets)
       case Err(n) => Err(n)
       case Ok(ts) =>
         match TransformExpr(w, g, value)
         case Err(n) => Err(n)
         case Ok(v) => Ok(Assign(ts, v)))
    case ExprStmt(value) =>
      (match TransformExpr(w, g, value)
       case Err(n) => Err(n)
       case Ok(v) => Ok(ExprStmt(v)))
    case Return(value) =>
      (match TransformExpr(w, g, value)
       case Err(n) => Err(n)
       case Ok(v) => Ok(Return(v)))
    case _ => Ok(s)
  }

  /** `ReplaceDotsTransformer(globals).visit(module)` on the module's body. */
  function TransformStmts(w: World, g: Globals, ss: seq<Stmt>): Result<seq<Stmt>, string>
    decreases ss
  {
    if ss == [] then Ok([])
    else
      match TransformStmts(w, g, ss[..|ss| - 1])
      case Err(n) => Err(n)
      case Ok(prefix) =>
        match TransformStmt(w, g, ss[|ss| - 1])
        case Err(n) => Err(n)
        case Ok(x) => Ok(prefix + [x])
  }

  // ---------------------------------------------------------------------------
  // Idempotence: a second pass over a rewritten tree changes nothing. A
  // rewritten call's target is a plain name, and a call left alone meets the
  // same test again with the same outcome.

  lemma {:induction false} TransformExprIdempotent(w: World, g: Globals, e: Expr)
    requires TransformExpr(w, g, e).Ok?
    ensures TransformExpr(w, g, TransformExpr(w, g, e).value) == TransformExpr(w, g, e)
    decreases e
  {
    match e {
      case Call(_, _, _) =>
      case Attribute(v, a) =>
        TransformExprIdempotent(w, g, v);
      case _ =>
    }
  }

  lemma {:induction false} TransformExprsIdempotent(w: World, g: Globals, es: seq<Expr>)
    requires TransformExprs(w, g, es).Ok?
    ensures TransformExprs(w, g, TransformExprs(w, g, es).value) == TransformExprs(w, g, es)
    decreases es
  {
    if es != [] {
      var prefix := es[..|es| - 1];
      TransformExprsIdempotent(w, g, prefix);
      TransformExprIdempotent(w, g, es[|es| - 1]);
      var p := TransformExprs(w, g, prefix).value;
      var x := TransformExpr(w, g, es[|es| - 1]).value;
      assert (p + [x])[..|p + [x]| - 1] == p;
    }
  }

  lemma {:induction false} TransformStmtIdempotent(w: World, g: Globals, s: Stmt)
    requires TransformStmt(w, g, s).Ok?
    ensures TransformStmt(w, g, TransformStmt(w, g, s).value) == TransformStmt(w, g, s)
    decreases s
  {
    match s {
      case FunctionDef(_, _, _, defaults, body) =>
        TransformExprsIdempotent(w, g, defaults);
        TransformStmtsIdempotent(w, g, body);
      case ClassDef(_, bases, body) =>
        TransformExprsIdempotent(w, g, bases);
        TransformStmtsIdempotent(w, g, body);
      case Assign(targets, value) =>
        TransformExprsIdempotent(w, g, targets);
        TransformExprIdempotent(w, g, value);
      case ExprStmt(value) =>
        TransformExprIdempotent(w, g, value);
      case Return(value) =>
        TransformExprIdempotent(w, g, value);
      case _ =>
    }
  }

  lemma {:induction false} TransformStmtsIdempotent(w: World, g: Globals, ss: seq<Stmt>)
    requires TransformStmts(w, g, ss).Ok?
    ensures TransformStmts(w, g, TransformStmts(w, g, ss).value) == TransformStmts(w, g, ss)
    decreases ss
  {
    if ss != [] {
      var prefix := ss[..|ss| - 1];
      TransformStmtsIdempotent(w, g, prefix);
      TransformStmtIdempotent(w, g, ss[|ss| - 1]);
      var p := TransformStmts(w, g, prefix).value;
      var x := TransformStmt(w, g, ss[|ss| - 1]).value;
      assert (p + [x])[..|p + [x]| - 1] == p;
    }
  }

  /** The transformer keeps the statement list's shape: one statement out for
      every statement in, and imports untouched. */
  lemma {:induction false} TransformKeepsImports(w: World, g: Globals, ss: seq<Stmt>)
    requires TransformStmts(w, g, ss).Ok?
    ensures |TransformStmts(w, g, ss).value| == |ss|
    ensures forall i | 0 <= i < |ss| && IsImport(ss[i]) :: TransformStmts(w, g, ss).value[i] == ss[i]
  {
    if ss != [] {
      TransformKeepsImports(w, g, ss[..|ss| - 1]);
    }
  }

  /** `mock_lib.some_function()` and `mock_lib.another_function()` become
      `some_function()` and `another_function()` when both names are bound to
      project code. */
  lemma DotsReplacedForLocalFunctions(w: World, g: Globals)
    requires "some_function" in g && "another_function" in g
    requires w.getFile(g["some_function"]) == Some("/home/user/projects/some_module.py")
    requires w.getFile(g["another_function"]) == Some("/home/user/projects/some_module.py")
    requires w.dunderFile(g["some_function"]).None? && w.dunderFile(g["another_function"]).None?
    ensures TransformStmts(w, g, [ExprStmt(Call(Dotted("mock_lib", ["some_function"]), [], [])),
                                  ExprStmt(Call(Dotted("mock_lib", ["another_function"]), [], []))])
         == Ok([ExprStmt(Call(Name("some_function", Load), [], [])),
                ExprStmt(Call(Name("another_function", Load), [], []))])
  {
    LibraryPath.ProjectFilesAreLocal();
    var ss := [ExprStmt(Call(Dotted("mock_lib", ["some_function"]), [], [])),
               ExprStmt(Call(Dotted("mock_lib", ["another_function"]), [], []))];
    assert ["some_function"][..0] == [] && ["another_function"][..0] == [];
    assert ss[..1][..0] == [] && ss[..|ss| - 1] == ss[..1];
    assert IsFromLibraries(w, g, "some_function") == Some(false);
    assert IsFromLibraries(w, g, "another_function") == Some(false);
    assert Dotted("mock_lib", ["some_function"]) == Attribute(Name("mock_lib", Load), "some_function");
    assert Dotted("mock_lib", ["another_function"]) == Attribute(Name("mock_lib", Load), "another_function");
    var r0 := ExprStmt(Call(Name("some_function", Load), [], []));
    var r1 := ExprStmt(Call(Name("another_function", Load), [], []));
    assert TransformStmt(w, g, ss[0]) == Ok(r0);
    assert TransformStmt(w, g, ss[1]) == Ok(r1);
    assert ss[..1] == [ss[0]] && [ss[0]][..0] == [];
    var empty: seq<Stmt> := [];
    assert TransformStmts(w, g, empty) == Ok([]);
    assert empty + [r0] == [r0];
    assert TransformStmts(w, g, [ss[0]]) == Ok([r0]);
    assert [r0] + [r1] == [r0, r1];
  }

  /** A call in another call's arguments is not rewritten: the transformer does
      not descend into a call it has handled. */
  lemma NestedCallNotRewritten(w: World, g: Globals, outer: string, inner: Expr)
    requires inner.Call?
    ensures TransformExpr(w, g, Call(Name(outer, Load), [inner], [])) == Ok(Call(Name(outer, Load), [inner], []))
  {
  }
}

// Finding the names a module reads but never defines
// (uc_functions/visitors.py: UnresolvedNamesFinder; uc_functions/inline.py:
// find_undefined_names). Definitions are collected from the whole module, so a
// name defined anywhere counts as defined everywhere; reads are `Name` nodes in
// load context that are not built-in names. The finder's set of reads is kept
// here in the order the names are first met.
//
// As written, `visit_FunctionDef` defines the function's positional parameters
// only; `bindsKeywordOnly` switches on the evidently intended treatment that
// also defines the keyword-only ones.

module UndefinedNames {
  import opened Util
  import opened PyAst

  // ---------------------------------------------------------------------------
  // Reads, in visiting order, and stores.

  function UsesOfExpr(e: Expr, builtins: set<string>): seq<string>
    decreases e
  {
    match e
    case Name(id, ctx) => if ctx == Load && id !in builtins then [id] else []
    case Attribute(v, _) => UsesOfExpr(v, builtins)
    case Call(f, args, kws) => UsesOfExpr(f, builtins) + UsesOfExprs(args, builtins) + UsesOfKeywords(kws, builtins)
    case Constant(_) => []
  }

  function UsesOfExprs(es: seq<Expr>, builtins: set<string>): seq<string>
    decreases es
  {
    if es == [] then [] else UsesOfExprs(es[..|es| - 1], builtins) + UsesOfExpr(es[|es| - 1], builtins)
  }

  function UsesOfKeyword(k: Keyword, builtins: set<string>): seq<string>
    decreases k
  {
    UsesOfExpr(k.value, builtins)
  }

  function UsesOfKeywords(ks: seq<Keyword>, builtins: set<string>): seq<string>
    decreases ks
  {
    if ks == [] then [] else UsesOfKeywords(ks[..|ks| - 1], builtins) + UsesOfKeyword(ks[|ks| - 1], builtins)
  }

  function StoresOfExpr(e: Expr): set<string>
    decreases e
  {
    match e
    case Name(id, ctx) => if ctx == Store then {id} else {}
    case Attribute(v, _) => StoresOfExpr(v)
    case Call(f, args, kws) => StoresOfExpr(f) + StoresOfExprs(args) + StoresOfKeywords(kws)
    case Constant(_) => {}
  }

  function StoresOfExprs(es: seq<Expr>): set<string>
    decreases es
  {
    if es == [] then {} else StoresOfExprs(es[..|es| - 1]) + StoresOfExpr(es[|es| - 1])
  }

  function StoresOfKeyword(k: Keyword): set<string>
    decreases k
  {
    StoresOfExpr(k.value)
  }

  function StoresOfKeywords(ks: seq<Keyword>): set<string>
    decreases ks
  {
    if ks == [] then {} else StoresOfKeywords(ks[..|ks| - 1]) + StoresOfKeyword(ks[|ks| - 1])
  }

  /** `import a.b as c` defines both `c` and `a.b`. */
  function ImportDefs(names: seq<Alias>): set<string>
  {
    if names == [] then {}
    else
      var a := names[|names| - 1];
      ImportDefs(names[..|names| - 1]) + (if a.asname.Some? then {a.asname.value} else {}) + {a.name}
  }

  /** `from m import a as c` defines `c`; `from m import a` defines `a`. */
  function FromImportDefs(names: seq<Alias>): set<string>
  {
    if names == [] then {} else FromImportDefs(names[..|names| - 1]) + {names[|names| - 1].Bound()}
  }

  /** The direct `Name` targets of an assignment. */
  function NameTargets(targets: seq<Expr>): set<string>
  {
    if targets == [] then {}
    else
      var t := targets[|targets| - 1];
      NameTargets(targets[..|targets| - 1]) + (if t.Name? then {t.id} else {})
  }

  function ParamDefs(args: seq<string>, kwonly: seq<string>, bindsKeywordOnly: bool): set<string>
  {
    (set a | a in args) + (if bindsKeywordOnly then set a | a in kwonly else {})
  }

  // ---------------------------------------------------------------------------
  // What each statement contributes.

  function DefsOfStmt(s: Stmt, bindsKeywordOnly: bool): set<string>
    decreases s
  {
    match s
    case Import(names) => ImportDefs(names)
    case ImportFrom(_, names) => FromImportDefs(names)
    case FunctionDef(name, args, kwonly, defaults, body) =>
      {name} + ParamDefs(args, kwonly, bindsKeywordOnly) + StoresOfExprs(defaults) + DefsOfStmts(body, bindsKeywordOnly)
    case ClassDef(name, bases, body) => {name} + StoresOfExprs(bases) + DefsOfStmts(body, bindsKeywordOnly)
    case Assign(targets, value) => NameTargets(targets) + StoresOfExprs(targets) + StoresOfExpr(value)
    case ExprStmt(value) => StoresOfExpr(value)
    case Return(value) => StoresOfExpr(value)
    case Pass => {}
  }

  function DefsOfStmts(ss: seq<Stmt>, bindsKeywordOnly: bool): set<string>
    decreases ss
  {
    if ss == [] then {} else DefsOfStmts(ss[..|ss| - 1], bindsKeywordOnly) + DefsOfStmt(ss[|ss| - 1], bindsKeywordOnly)
  }

  function UsesOfStmt(s: Stmt, builtins: set<string>): seq<string>
    decreases s
  {
    match s
    case Import(_) => []
    case ImportFrom(_, _) => []
    case FunctionDef(_, _, _, defaults, body) => UsesOfExprs(defaults, builtins) + UsesOfStmts(body, builtins)
    case ClassDef(_, bases, body) => UsesOfExprs(bases, builtins) + UsesOfStmts(body, builtins)
    case Assign(targets, value) => UsesOfExprs(targets, builtins) + UsesOfExpr(value, builtins)
    case ExprStmt(value) => UsesOfExpr(value, builtins)
    case Return(value) => UsesOfExpr(value, builtins)
    case Pass => []
  }

  function UsesOfStmts(ss: seq<Stmt>, builtins: set<string>): seq<string>
    decreases ss
  {
    if ss == [] then [] else UsesOfStmts(ss[..|ss| - 1], builtins) + UsesOfStmt(ss[|ss| - 1], builtins)
  }

  /** `find_undefined_names(source, skip)` on the parsed module: the names read,
      first reads first, less the skipped and the defined ones. */
  function Undefined(tree: seq<Stmt>, skip: seq<string>, builtins: set<string>, bindsKeywordOnly: bool): seq<string>
  {
    Without(AddAll([], UsesOfStmts(tree, builtins)), (set n | n in skip) + DefsOfStmts(tree, bindsKeywordOnly))
  }

  // ---------------------------------------------------------------------------
  // The visitor.

  class UnresolvedNamesFinder {
    const builtins: set<string>
    const bindsKeywordOnly: bool
    var definedNames: set<string>
    var usedNames: seq<string>

    /** `UnresolvedNamesFinder(defined_names)` */
    constructor(definedNames: seq<string>, builtins: set<string>, bindsKeywordOnly: bool)
      ensures this.definedNames == set n | n in definedNames
      ensures usedNames == []
      ensures this.builtins == builtins && this.bindsKeywordOnly == bindsKeywordOnly
    {
      this.definedNames := set n | n in definedNames;
      usedNames := [];
      this.builtins := builtins;
      this.bindsKeywordOnly := bindsKeywordOnly;
    }

    /** `visit_Name` and the generic walk of an expression. */
    method VisitExpr(e: Expr)
      modifies this
      ensures definedNames == old(definedNames) + StoresOfExpr(e)
      ensures usedNames == AddAll(old(usedNames), UsesOfExpr(e, builtins))
      decreases e, 1
    {
      match e {
        case Name(id, ctx) =>
          if ctx == Load && id !in builtins {
            usedNames := AddUnique(usedNames, id);
            assert [id][..0] == [];
          } else if ctx == Store {
            definedNames := definedNames + {id};
          }
        case Attribute(v, _) =>
          VisitExpr(v);
        case Call(f, args, kws) =>
          ghost var u0 := usedNames;
          VisitExpr(f);
          VisitExprs(args);
          AddAllAppend(u0, UsesOfExpr(f, builtins), UsesOfExprs(args, builtins));
          VisitKeywords(kws);
          AddAllAppend(u0, UsesOfExpr(f, builtins) + UsesOfExprs(args, builtins), UsesOfKeywords(kws, builtins));
        case Constant(_) =>
      }
    }

    method VisitExprs(es: seq<Expr>)
      modifies this
      ensures definedNames == old(definedNames) + StoresOfExprs(es)
      ensures usedNames == AddAll(old(usedNames), UsesOfExprs(es, builtins))
      decreases es, 2
    {
      ghost var d0 := definedNames;
      ghost var u0 := usedNames;
      for i := 0 to |es|
        invariant definedNames == d0 + StoresOfExprs(es[..i])
        invariant usedNames == AddAll(u0, UsesOfExprs(es[..i], builtins))
      {
        assert es[..i + 1][..i] == es[..i];
        VisitExpr(es[i]);
        AddAllAppend(u0, UsesOfExprs(es[..i], builtins), UsesOfExpr(es[i], builtins));
      }
      assert es[..|es|] == es;
    }

    method VisitKeyword(k: Keyword)
      modifies this
      ensures definedNames == old(definedNames) + StoresOfKeyword(k)
      ensures usedNames == AddAll(old(usedNames), UsesOfKeyword(k, builtins))
      decreases k, 1
    {
      VisitExpr(k.value);
    }

    method VisitKeywords(ks: seq<Keyword>)
      modifies this
      ensures definedNames == old(definedNames) + StoresOfKeywords(ks)
      ensures usedNames == AddAll(old(usedNames), UsesOfKeywords(ks, builtins))
      decreases ks, 2
    {
      ghost var d0 := definedNames;
      ghost var u0 := usedNames;
      for i := 0 to |ks|
        invariant definedNames == d0 + StoresOfKeywords(ks[..i])
        invariant usedNames == AddAll(u0, UsesOfKeywords(ks[..i], builtins))
      {
        assert ks[..i + 1][..i] == ks[..i];
        VisitKeyword(ks[i]);
        AddAllAppend(u0, UsesOfKeywords(ks[..i], builtins), UsesOfKeyword(ks[i], builtins));
      }
      assert ks[..|ks|] == ks;
    }

    /** `visit_Import`: every alias and every imported name is defined. */
    method VisitImport(names: seq<Alias>)
      modifies this
      ensures definedNames == old(definedNames) + ImportDefs(names)
      ensures usedNames == old(usedNames)
    {
      for i := 0 to |names|
        invariant definedNames == old(definedNames) + ImportDefs(names[..i])
        invariant usedNames == old(usedNames)
      {
        assert names[..i + 1][..i] == names[..i];
        if names[i].asname.Some? {
          definedNames := definedNames + {names[i].asname.value};
        }
        definedNames := definedNames + {names[i].name};
      }
      assert names[..|names|] == names;
    }

    /** `visit_ImportFrom`: every alias, else the imported name, is defined. */
    method VisitImportFrom(names: seq<Alias>)
      modifies this
      ensures definedNames == old(definedNames) + FromImportDefs(names)
      ensures usedNames == old(usedNames)
    {
      for i := 0 to |names|
        invariant definedNames == old(definedNames) + FromImportDefs(names[..i])
        invariant usedNames == old(usedNames)
      {
        assert names[..i + 1][..i] == names[..i];
        if names[i].asname.Some? {
          definedNames := definedNames + {names[i].asname.value};
        }
        definedNames := definedNames + {if names[i].asname.Some? then names[i].asname.value else names[i].name};
      }
      assert names[..|names|] == names;
    }

    /** `visit_Import`, `visit_ImportFrom`, `visit_FunctionDef`, `visit_ClassDef`,
        `visit_Assign` and the generic walk of the other statements. */
    method VisitStmt(s: Stmt)
      modifies this
      ensures definedNames == old(definedNames) + DefsOfStmt(s, bindsKeywordOnly)
      ensures usedNames == AddAll(old(usedNames), UsesOfStmt(s, builtins))
      decreases s, 1
    {
      ghost var u0 := usedNames;
      match s {
        case Import(names) =>
          VisitImport(names);
        case ImportFrom(_, names) =>
          VisitImportFrom(names);
        case FunctionDef(name, args, kwonly, defaults, body) =>
          definedNames := definedNames + {name};
          definedNames := definedNames + ParamDefs(args, kwonly, bindsKeywordOnly);
          VisitExprs(defaults);
          VisitStmts(body);
          AddAllAppend(u0, UsesOfExprs(defaults, builtins), UsesOfStmts(body, builtins));
        case ClassDef(name, bases, body) =>
          definedNames := definedNames + {name};
          VisitExprs(bases);
          VisitStmts(body);
          AddAllAppend(u0, UsesOfExprs(bases, builtins), UsesOfStmts(body, builtins));
        case Assign(targets, value) =>
          definedNames := definedNames + NameTargets(targets);
          VisitExprs(targets);
          VisitExpr(value);
          AddAllAppend(u0, UsesOfExprs(targets, builtins), UsesOfExpr(value, builtins));
        case ExprStmt(value) =>
          VisitExpr(value);
        case Return(value) =>
          VisitExpr(value);
        case Pass =>
          assert usedNames == AddAll(u0, []);
      }
    }

    method VisitStmts(ss: seq<Stmt>)
      modifies this
      ensures definedNames == old(definedNames) + DefsOfStmts(ss, bindsKeywordOnly)
      ensures usedNames == AddAll(old(usedNames), UsesOfStmts(ss, builtins))
      decreases ss, 2
    {
      ghost var d0 := definedNames;
      ghost var u0 := usedNames;
      for i := 0 to |ss|
        invariant definedNames == d0 + DefsOfStmts(ss[..i], bindsKeywordOnly)
        invariant usedNames == AddAll(u0, UsesOfStmts(ss[..i], builtins))
      {
        assert ss[..i + 1][..i] == ss[..i];
        VisitStmt(ss[i]);
        AddAllAppend(u0, UsesOfStmts(ss[..i], builtins), UsesOfStmt(ss[i], builtins));
      }
      assert ss[..|ss|] == ss;
    }

    /** `get_undefined_names` */
    function GetUndefinedNames(): seq<string>
      reads this
    {
      Without(usedNames, definedNames)
    }
  }

  /** `find_undefined_names(source_code, skip_these_names)` on the parsed module. */
  method FindUndefinedNames(tree: seq<Stmt>, skip: seq<string>, builtins: set<string>, bindsKeywordOnly: bool)
    returns (r: seq<string>)
    ensures r == Undefined(tree, skip, builtins, bindsKeywordOnly)
  {
    var finder := new UnresolvedNamesFinder(skip, builtins, bindsKeywordOnly);
    finder.VisitStmts(tree);
    r := finder.GetUndefinedNames();
  }

  // ---------------------------------------------------------------------------
  // Properties.

  /** A name is reported exactly when the module reads it and neither the skip
      list nor any definition in the module covers it; each is reported once. */
  lemma UndefinedIff(tree: seq<Stmt>, skip: seq<string>, builtins: set<string>, bindsKeywordOnly: bool)
    ensures forall x :: x in Undefined(tree, skip, builtins, bindsKeywordOnly) <==>
      x in UsesOfStmts(tree, builtins) && x !in skip && x !in DefsOfStmts(tree, bindsKeywordOnly)
    ensures Distinct(Undefined(tree, skip, builtins, bindsKeywordOnly))
  {
    var empty: seq<string> := [];
    AddAllFacts(empty, UsesOfStmts(tree, builtins));
  }

  lemma {:induction false} BuiltinNotReadExpr(e: Expr, builtins: set<string>, x: string)
    requires x in builtins
    ensures x !in UsesOfExpr(e, builtins)
    decreases e, 1
  {
    match e {
      case Name(_, _) =>
      case Attribute(v, _) => BuiltinNotReadExpr(v, builtins, x);
      case Call(f, args, kws) =>
        BuiltinNotReadExpr(f, builtins, x);
        BuiltinNotReadExprs(args, builtins, x);
        BuiltinNotReadKeywords(kws, builtins, x);
      case Constant(_) =>
    }
  }

  lemma {:induction false} BuiltinNotReadExprs(es: seq<Expr>, builtins: set<string>, x: string)
    requires x in builtins
    ensures x !in UsesOfExprs(es, builtins)
    decreases es, 2
  {
    if es != [] {
      BuiltinNotReadExprs(es[..|es| - 1], builtins, x);
      BuiltinNotReadExpr(es[|es| - 1], builtins, x);
    }
  }

  lemma {:induction false} BuiltinNotReadKeywords(ks: seq<Keyword>, builtins: set<string>, x: string)
    requires x in builtins
    ensures x !in UsesOfKeywords(ks, builtins)
    decreases ks, 2
  {
    if ks != [] {
      BuiltinNotReadKeywords(ks[..|ks| - 1], builtins, x);
      BuiltinNotReadKeyword(ks[|ks| - 1], builtins, x);
    }
  }

  lemma {:induction false} BuiltinNotReadKeyword(k: Keyword, builtins: set<string>, x: string)
    requires x in builtins
    ensures x !in UsesOfKeyword(k, builtins)
    decreases k, 1
  {
    BuiltinNotReadExpr(k.value, builtins, x);
  }

  lemma {:induction false} BuiltinNotReadStmt(s: Stmt, builtins: set<string>, x: string)
    requires x in builtins
    ensures x !in UsesOfStmt(s, builtins)
    decreases s, 1
  {
    match s {
      case FunctionDef(_, _, _, defaults, body) =>
        BuiltinNotReadExprs(defaults, builtins, x);
        BuiltinNotReadStmts(body, builtins, x);
      case ClassDef(_, bases, body) =>
        BuiltinNotReadExprs(bases, builtins, x);
        BuiltinNotReadStmts(body, builtins, x);
      case Assign(targets, value) =>
        BuiltinNotReadExprs(targets, builtins, x);
        BuiltinNotReadExpr(value, builtins, x);
      case ExprStmt(value) => BuiltinNotReadExpr(value, builtins, x);
      case Return(value) => BuiltinNotReadExpr(value, builtins, x);
      case _ =>
    }
  }

  lemma {:induction false} BuiltinNotReadStmts(ss: seq<Stmt>, builtins: set<string>, x: string)
    requires x in builtins
    ensures x !in UsesOfStmts(ss, builtins)
    decreases ss, 2
  {
    if ss != [] {
      BuiltinNotReadStmts(ss[..|ss| - 1], builtins, x);
      BuiltinNotReadStmt(ss[|ss| - 1], builtins, x);
    }
  }

  /** A built-in name is never reported. */
  lemma BuiltinsNeverUndefined(tree: seq<Stmt>, skip: seq<string>, builtins: set<string>, bindsKeywordOnly: bool, x: string)
    requires x in builtins
    ensures x !in Undefined(tree, skip, builtins, bindsKeywordOnly)
  {
    BuiltinNotReadStmts(tree, builtins, x);
    UndefinedIff(tree, skip, builtins, bindsKeywordOnly);
  }

  lemma {:induction false} KeywordOnlyDefsStmt(s: Stmt)
    ensures DefsOfStmt(s, false) <= DefsOfStmt(s, true)
    ensures s.FunctionDef? ==> forall k | k in s.kwonlyargs :: k in DefsOfStmt(s, true)
    decreases s, 1
  {
    match s {
      case FunctionDef(_, _, _, _, body) => KeywordOnlyDefsStmts(body);
      case ClassDef(_, _, body) => KeywordOnlyDefsStmts(body);
      case _ =>
    }
  }

  lemma {:induction false} KeywordOnlyDefsStmts(ss: seq<Stmt>)
    ensures DefsOfStmts(ss, false) <= DefsOfStmts(ss, true)
    decreases ss, 2
  {
    if ss != [] {
      KeywordOnlyDefsStmts(ss[..|ss| - 1]);
      KeywordOnlyDefsStmt(ss[|ss| - 1]);
    }
  }

  /** Defining keyword-only parameters only ever removes names from the report,
      and removes every keyword-only parameter of a top-level function. */
  lemma CorrectedReportsFewer(tree: seq<Stmt>, skip: seq<string>, builtins: set<string>)
    ensures forall x | x in Undefined(tree, skip, builtins, true) :: x in Undefined(tree, skip, builtins, false)
    ensures forall i, k | 0 <= i < |tree| && tree[i].FunctionDef? && k in tree[i].kwonlyargs ::
      k !in Undefined(tree, skip, builtins, true)
  {
    UndefinedIff(tree, skip, builtins, true);
    UndefinedIff(tree, skip, builtins, false);
    KeywordOnlyDefsStmts(tree);
    forall i, k | 0 <= i < |tree| && tree[i].FunctionDef? && k in tree[i].kwonlyargs
      ensures k in DefsOfStmts(tree, true)
    {
      KeywordOnlyDefsStmt(tree[i]);
      DefsOfStmtsHas(tree, i, true);
    }
  }

  lemma {:induction false} DefsOfStmtsHas(ss: seq<Stmt>, i: nat, bindsKeywordOnly: bool)
    requires i < |ss|
    ensures DefsOfStmt(ss[i], bindsKeywordOnly) <= DefsOfStmts(ss, bindsKeywordOnly)
  {
    if i < |ss| - 1 {
      DefsOfStmtsHas(ss[..|ss| - 1], i, bindsKeywordOnly);
    }
  }

  lemma OneRead(x: string, out: set<string>)
    ensures Without(AddAll([], [x]), out) == if x in out then [] else [x]
  {
    var empty: seq<string> := [];
    assert [x][..0] == empty;
    assert AddAll(empty, [x]) == [x];
    assert [x][..0] == empty;
  }

  lemma KeywordOnlyUses(f: string, k: string, builtins: set<string>)
    requires k !in builtins
    ensures UsesOfStmts([FunctionDef(f, [], [k], [], [Return(Name(k, Load))])], builtins) == [k]
  {
    var body := [Return(Name(k, Load))];
    var def := FunctionDef(f, [], [k], [], body);
    var noStmts: seq<Stmt> := [];
    assert body[..0] == noStmts && [def][..0] == noStmts;
    assert UsesOfStmts(body, builtins) == [k];
    assert UsesOfStmt(def, builtins) == [k];
  }

  lemma KeywordOnlyDefs(f: string, k: string, bindsKeywordOnly: bool)
    ensures DefsOfStmts([FunctionDef(f, [], [k], [], [Return(Name(k, Load))])], bindsKeywordOnly)
         == if bindsKeywordOnly then {f, k} else {f}
  {
    var body := [Return(Name(k, Load))];
    var def := FunctionDef(f, [], [k], [], body);
    var noStmts: seq<Stmt> := [];
    var noExprs: seq<Expr> := [];
    assert body[..0] == noStmts && [def][..0] == noStmts;
    assert DefsOfStmts(body, bindsKeywordOnly) == {};
    assert StoresOfExprs(noExprs) == {};
    assert ParamDefs([], [k], bindsKeywordOnly) == if bindsKeywordOnly then {k} else {};
    assert DefsOfStmt(def, bindsKeywordOnly) == if bindsKeywordOnly then {f, k} else {f};
  }

  /** `def f(*, k): return k`: as written the finder reports `k`, which the
      function binds; with keyword-only parameters defined nothing is reported. */
  lemma KeywordOnlyParameterReported(f: string, k: string, builtins: set<string>)
    requires k != f && k !in builtins
    ensures Undefined([FunctionDef(f, [], [k], [], [Return(Name(k, Load))])], [], builtins, false) == [k]
    ensures Undefined([FunctionDef(f, [], [k], [], [Return(Name(k, Load))])], [], builtins, true) == []
  {
    var noNames: seq<string> := [];
    assert (set n | n in noNames) == {};
    KeywordOnlyUses(f, k, builtins);
    KeywordOnlyDefs(f, k, false);
    KeywordOnlyDefs(f, k, true);
    OneRead(k, {} + {f});
    OneRead(k, {} + {f, k});
  }

  /** `x = 1` then `print(y)`: only `y` is reported. */
  lemma AssignedNameNotReported(builtins: set<string>)
    requires "print" in builtins && "y" !in builtins
    ensures Undefined([Assign([Name("x", Store)], Constant("1")),
                       ExprStmt(Call(Name("print", Load), [Name("y", Load)], []))], [], builtins, false) == ["y"]
  {
    var s0 := Assign([Name("x", Store)], Constant("1"));
    var call := Call(Name("print", Load), [Name("y", Load)], []);
    var s1 := ExprStmt(call);
    var tree := [s0, s1];
    var noNames: seq<string> := [];
    assert tree[..1] == [s0] && [s0][..0] == [];
    assert [Name("x", Store)][..0] == [] && [Name("y", Load)][..0] == [];
    assert UsesOfStmt(s0, builtins) == [];
    assert UsesOfExprs([Name("y", Load)], builtins) == ["y"];
    assert UsesOfExpr(call, builtins) == ["y"];
    assert UsesOfStmts([s0], builtins) == [];
    assert UsesOfStmt(s1, builtins) == ["y"];
    assert UsesOfStmts(tree, builtins) == UsesOfStmts([s0], builtins) + UsesOfStmt(s1, builtins);
    assert UsesOfStmts(tree, builtins) == ["y"];
    assert NameTargets([Name("x", Store)]) == {"x"};
    assert StoresOfExprs([Name("x", Store)]) == {"x"};
    assert DefsOfStmt(s0, false) == {"x"};
    assert StoresOfExprs([Name("y", Load)]) == {};
    assert DefsOfStmt(s1, false) == {};
    assert DefsOfStmts([s0], false) == {"x"};
    assert DefsOfStmts(tree, false) == {"x"};
    assert (set n | n in noNames) == {};
    OneRead("y", {"x"});
  }

  /** `def foo(arg1, arg2): pass` defines the function and both parameters. */
  lemma FunctionAndParametersDefined()
    ensures {"foo", "arg1", "arg2"} <= DefsOfStmts([FunctionDef("foo", ["arg1", "arg2"], [], [], [Pass])], false)
  {
    var tree := [FunctionDef("foo", ["arg1", "arg2"], [], [], [Pass])];
    assert tree[..0] == [];
    assert "arg1" in ["arg1", "arg2"] && "arg2" in ["arg1", "arg2"];
  }
}

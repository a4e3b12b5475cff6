// Collecting the library imports of a source file (uc_functions/visitors.py:
// ImportObj, ImportVisitor; uc_functions/inline.py: get_imports_from_func_file).
// The visitor's `imports` set of one-line import statements is kept in insertion
// order; each line is represented by the statement it parses to, and
// `ImportText` gives its text.

module Imports {
  import opened Util
  import opened PyAst

  /** What one imported name refers to: `(module_path, obj_name, alias)`. */
  datatype ImportObj = ImportObj(modulePath: Option<string>, objName: string, alias: Option<string>)

  function AliasText(a: Alias): string
  {
    if a.asname.Some? then a.name + " as " + a.asname.value else a.name
  }

  function AliasTexts(names: seq<Alias>): (r: seq<string>)
    ensures |r| == |names|
    ensures forall i | 0 <= i < |names| :: r[i] == AliasText(names[i])
  {
    if names == [] then [] else AliasTexts(names[..|names| - 1]) + [AliasText(names[|names| - 1])]
  }

  /** The source text of an import statement on one line. */
  function ImportText(s: Stmt): string
    requires IsImport(s)
  {
    match s
    case Import(names) => "import " + Join(AliasTexts(names), ", ")
    case ImportFrom(m, names) =>
      "from " + (if m.Some? then m.value else ".") + " import " + Join(AliasTexts(names), ", ")
  }

  /** The aliases with their `as` parts removed. */
  function StripAliases(names: seq<Alias>): (r: seq<Alias>)
    ensures |r| == |names|
    ensures forall i | 0 <= i < |names| :: r[i] == Alias(names[i].name, None)
  {
    if names == [] then [] else StripAliases(names[..|names| - 1]) + [Alias(names[|names| - 1].name, None)]
  }

  // What the visitor adds for one statement. `import a, b as c` adds one line per
  // library module; `from m import x as y, z` adds one line, without the `as`
  // parts, when `m` is given and is a library module. Every alias of a
  // from-import is recorded as an ImportObj, library or not; only library
  // aliases of a plain import are.

  function PlainImportLines(names: seq<Alias>, isLibrary: string -> bool): seq<Stmt>
  {
    if names == [] then []
    else
      var a := names[|names| - 1];
      PlainImportLines(names[..|names| - 1], isLibrary) + (if isLibrary(a.name) then [Import([a])] else [])
  }

  function PlainImportObjs(names: seq<Alias>, isLibrary: string -> bool): seq<ImportObj>
  {
    if names == [] then []
    else
      var a := names[|names| - 1];
      PlainImportObjs(names[..|names| - 1], isLibrary)
        + (if isLibrary(a.name) then [ImportObj(None, a.name, a.asname)] else [])
  }

  function FromImportObjs(m: Option<string>, names: seq<Alias>): (r: seq<ImportObj>)
    ensures |r| == |names|
    ensures forall i | 0 <= i < |names| :: r[i] == ImportObj(m, names[i].name, names[i].asname)
  {
    if names == [] then [] else FromImportObjs(m, names[..|names| - 1]) + [ImportObj(m, names[|names| - 1].name, names[|names| - 1].asname)]
  }

  function FromImportLines(m: Option<string>, names: seq<Alias>, isLibrary: string -> bool): seq<Stmt>
  {
    if m.Some? && isLibrary(m.value) then [ImportFrom(m, StripAliases(names))] else []
  }

  lemma PlainImportStep(names: seq<Alias>, i: int, isLibrary: string -> bool)
    requires 0 <= i < |names|
    ensures var a := names[i];
      isLibrary(a.name) ==>
        && PlainImportLines(names[..i + 1], isLibrary) == PlainImportLines(names[..i], isLibrary) + [Import([a])]
        && PlainImportObjs(names[..i + 1], isLibrary) == PlainImportObjs(names[..i], isLibrary) + [ImportObj(None, a.name, a.asname)]
    ensures var a := names[i];
      !isLibrary(a.name) ==>
        && PlainImportLines(names[..i + 1], isLibrary) == PlainImportLines(names[..i], isLibrary)
        && PlainImportObjs(names[..i + 1], isLibrary) == PlainImportObjs(names[..i], isLibrary)
  {
    assert names[..i + 1][..i] == names[..i];
  }

  /** The lines a statement and the statements nested in it contribute, in
      visiting order (duplicates included). */
  function LinesOfStmt(s: Stmt, isLibrary: string -> bool): seq<Stmt>
    decreases s
  {
    match s
    case Import(names) => PlainImportLines(names, isLibrary)
    case ImportFrom(m, names) => FromImportLines(m, names, isLibrary)
    case FunctionDef(_, _, _, _, body) => LinesOf(body, isLibrary)
    case ClassDef(_, _, body) => LinesOf(body, isLibrary)
    case _ => []
  }

  function LinesOf(ss: seq<Stmt>, isLibrary: string -> bool): seq<Stmt>
    decreases ss
  {
    if ss == [] then [] else LinesOf(ss[..|ss| - 1], isLibrary) + LinesOfStmt(ss[|ss| - 1], isLibrary)
  }

  function ObjsOfStmt(s: Stmt, isLibrary: string -> bool): seq<ImportObj>
    decreases s
  {
    match s
    case Import(names) => PlainImportObjs(names, isLibrary)
    case ImportFrom(m, names) => FromImportObjs(m, names)
    case FunctionDef(_, _, _, _, body) => ObjsOf(body, isLibrary)
    case ClassDef(_, _, body) => ObjsOf(body, isLibrary)
    case _ => []
  }

  function ObjsOf(ss: seq<Stmt>, isLibrary: string -> bool): seq<ImportObj>
    decreases ss
  {
    if ss == [] then [] else ObjsOf(ss[..|ss| - 1], isLibrary) + ObjsOfStmt(ss[|ss| - 1], isLibrary)
  }

  /** One more statement of a list adds its own lines and objects. */
  lemma PrefixStep(ss: seq<Stmt>, i: nat, isLibrary: string -> bool)
    requires i < |ss|
    ensures LinesOf(ss[..i + 1], isLibrary) == LinesOf(ss[..i], isLibrary) + LinesOfStmt(ss[i], isLibrary)
    ensures ObjsOf(ss[..i + 1], isLibrary) == ObjsOf(ss[..i], isLibrary) + ObjsOfStmt(ss[i], isLibrary)
  {
    assert ss[..i + 1][..i] == ss[..i];
  }

  class ImportVisitor {
    /** `is_library_module`, decided by where each module is found
        (`LibraryPath.IsLibraryModule`). */
    const isLibrary: string -> bool
    var imports: seq<Stmt>
    var importObjs: seq<ImportObj>

    constructor(isLibrary: string -> bool)
      ensures this.isLibrary == isLibrary && imports == [] && importObjs == []
    {
      this.isLibrary := isLibrary;
      imports := [];
      importObjs := [];
    }

    /** `visit_Import` */
    method VisitImport(names: seq<Alias>)
      modifies this
      ensures imports == AddAll(old(imports), PlainImportLines(names, isLibrary))
      ensures importObjs == old(importObjs) + PlainImportObjs(names, isLibrary)
    {
      ghost var imports0 := imports;
      ghost var objs0 := importObjs;
      for i := 0 to |names|
        invariant imports == AddAll(imports0, PlainImportLines(names[..i], isLibrary))
        invariant importObjs == objs0 + PlainImportObjs(names[..i], isLibrary)
      {
        var alias := names[i];
        PlainImportStep(names, i, isLibrary);
        if isLibrary(alias.name) {
          AddAllSnoc(imports0, PlainImportLines(names[..i], isLibrary), Import([alias]));
          imports := AddUnique(imports, Import([alias]));
          importObjs := importObjs + [ImportObj(None, alias.name, alias.asname)];
          assert importObjs == objs0 + PlainImportObjs(names[..i + 1], isLibrary);
        }
      }
      assert names[..|names|] == names;
    }

    /** `visit_ImportFrom` */
    method VisitImportFrom(m: Option<string>, names: seq<Alias>)
      modifies this
      ensures imports == AddAll(old(imports), FromImportLines(m, names, isLibrary))
      ensures importObjs == old(importObjs) + FromImportObjs(m, names)
    {
      ghost var objs0 := importObjs;
      for i := 0 to |names|
        invariant imports == old(imports)
        invariant importObjs == objs0 + FromImportObjs(m, names[..i])
      {
        assert names[..i + 1][..i] == names[..i];
        importObjs := importObjs + [ImportObj(m, names[i].name, names[i].asname)];
      }
      assert names[..|names|] == names;
      if m.Some? && isLibrary(m.value) {
        assert [ImportFrom(m, StripAliases(names))][..0] == [];
        imports := AddUnique(imports, ImportFrom(m, StripAliases(names)));
      }
    }

    method VisitStmt(s: Stmt)
      modifies this
      ensures imports == AddAll(old(imports), LinesOfStmt(s, isLibrary))
      ensures importObjs == old(importObjs) + ObjsOfStmt(s, isLibrary)
      decreases s, 1
    {
      match s {
        case Import(names) => VisitImport(names);
        case ImportFrom(m, names) => VisitImportFrom(m, names);
        case FunctionDef(_, _, _, _, body) => VisitStmts(body);
        case ClassDef(_, _, body) => VisitStmts(body);
        case _ =>
      }
    }

    method VisitStmts(ss: seq<Stmt>)
      modifies this
      ensures imports == AddAll(old(imports), LinesOf(ss, isLibrary))
      ensures importObjs == old(importObjs) + ObjsOf(ss, isLibrary)
      decreases ss, 0
    {
      ghost var imports0 := imports;
      ghost var objs0 := importObjs;
      for i := 0 to |ss|
        invariant imports == AddAll(imports0, LinesOf(ss[..i], isLibrary))
        invariant importObjs == objs0 + ObjsOf(ss[..i], isLibrary)
      {
        PrefixStep(ss, i, isLibrary);
        VisitStmt(ss[i]);
        AddAllAppend(imports0, LinesOf(ss[..i], isLibrary), LinesOfStmt(ss[i], isLibrary));
      }
      assert ss[..|ss|] == ss;
    }
  }

  /** The distinct library import lines of a parsed file, in first-seen order. */
  function FileImports(tree: seq<Stmt>, isLibrary: string -> bool): seq<Stmt>
  {
    AddAll([], LinesOf(tree, isLibrary))
  }

  /** `get_imports_from_func_file`: runs a fresh visitor over the parsed file. */
  method ImportsFromFile(tree: seq<Stmt>, isLibrary: string -> bool) returns (lines: seq<Stmt>)
    ensures lines == FileImports(tree, isLibrary)
  {
    var visitor := new ImportVisitor(isLibrary);
    visitor.VisitStmts(tree);
    lines := visitor.imports;
  }

  // ---------------------------------------------------------------------------
  // Properties.

  /** The shape of every collected line: `import n [as a]` for a library module
      `n`, or `from m import x, y` (no `as`) for a library module `m`. */
  predicate IsLibraryLine(l: Stmt, isLibrary: string -> bool)
  {
    || (l.Import? && |l.names| == 1 && isLibrary(l.names[0].name))
    || (l.ImportFrom? && l.moduleName.Some? && isLibrary(l.moduleName.value)
        && forall i | 0 <= i < |l.names| :: l.names[i].asname.None?)
  }

  lemma {:induction false} PlainLinesAreLibraryLines(names: seq<Alias>, isLibrary: string -> bool)
    ensures forall l | l in PlainImportLines(names, isLibrary) :: IsLibraryLine(l, isLibrary)
  {
    if names != [] {
      PlainLinesAreLibraryLines(names[..|names| - 1], isLibrary);
    }
  }

  lemma {:induction false} LinesAreLibraryLines(s: Stmt, isLibrary: string -> bool)
    ensures forall l | l in LinesOfStmt(s, isLibrary) :: IsLibraryLine(l, isLibrary)
    decreases s
  {
    match s {
      case Import(names) => PlainLinesAreLibraryLines(names, isLibrary);
      case ImportFrom(m, names) =>
      case FunctionDef(_, _, _, _, body) => AllLinesAreLibraryLines(body, isLibrary);
      case ClassDef(_, _, body) => AllLinesAreLibraryLines(body, isLibrary);
      case _ =>
    }
  }

  lemma {:induction false} AllLinesAreLibraryLines(ss: seq<Stmt>, isLibrary: string -> bool)
    ensures forall l | l in LinesOf(ss, isLibrary) :: IsLibraryLine(l, isLibrary)
    decreases ss
  {
    if ss != [] {
      AllLinesAreLibraryLines(ss[..|ss| - 1], isLibrary);
      LinesAreLibraryLines(ss[|ss| - 1], isLibrary);
    }
  }

  /** Every line collected from a file imports a library module, and no line
      repeats. */
  lemma FileImportsAreDistinctLibraryLines(tree: seq<Stmt>, isLibrary: string -> bool)
    ensures Distinct(FileImports(tree, isLibrary))
    ensures forall l | l in FileImports(tree, isLibrary) :: IsLibraryLine(l, isLibrary)
  {
    AllLinesAreLibraryLines(tree, isLibrary);
    AddAllFacts([], LinesOf(tree, isLibrary));
  }

  /** Completeness for plain imports: every alias of a library module yields its
      own line, `as` part included. */
  lemma {:induction false} PlainLibraryAliasKept(names: seq<Alias>, isLibrary: string -> bool, i: int)
    requires 0 <= i < |names| && isLibrary(names[i].name)
    ensures Import([names[i]]) in PlainImportLines(names, isLibrary)
  {
    if i < |names| - 1 {
      PlainLibraryAliasKept(names[..|names| - 1], isLibrary, i);
    }
  }

  /** Soundness for plain imports: a line names one of the statement's aliases,
      and that alias is a library module. */
  lemma {:induction false} PlainLineHasAlias(names: seq<Alias>, isLibrary: string -> bool, l: Stmt)
    requires l in PlainImportLines(names, isLibrary)
    ensures l.Import? && |l.names| == 1 && l.names[0] in names && isLibrary(l.names[0].name)
  {
    var prefix := names[..|names| - 1];
    if l in PlainImportLines(prefix, isLibrary) {
      PlainLineHasAlias(prefix, isLibrary, l);
    }
  }

  /** A from-import yields its line exactly when its module is given and is a
      library; its ImportObjs are recorded either way. */
  lemma FromImportLineIff(m: Option<string>, names: seq<Alias>, isLibrary: string -> bool)
    ensures |FromImportLines(m, names, isLibrary)| == 1 <==> m.Some? && isLibrary(m.value)
    ensures |LinesOfStmt(ImportFrom(m, names), isLibrary)| <= 1
    ensures |ObjsOfStmt(ImportFrom(m, names), isLibrary)| == |names|
  {
  }

  /** `from os import path as p` is collected as the line `from os import path`:
      the alias is dropped, so the line binds `path` and not `p`. */
  lemma FromAliasDropped(isLibrary: string -> bool)
    requires isLibrary("os")
    ensures var lines := LinesOfStmt(ImportFrom(Some("os"), [Alias("path", Some("p"))]), isLibrary);
      && lines == [ImportFrom(Some("os"), [Alias("path", None)])]
      && ImportText(lines[0]) == "from os import path"
      && BoundNames(lines[0].names) == ["path"]
  {
    var names := [Alias("path", Some("p"))];
    assert StripAliases(names) == [Alias("path", None)];
    assert BoundNames([Alias("path", None)]) == ["path"];
  }

  /** `import n as alias` of a library module keeps its alias (the test uses
      `import os as operating_system`). */
  lemma PlainAliasKept(n: string, alias: string, isLibrary: string -> bool)
    requires isLibrary(n)
    ensures var lines := LinesOfStmt(Import([Alias(n, Some(alias))]), isLibrary);
      && lines == [Import([Alias(n, Some(alias))])]
      && ImportText(lines[0]) == "import " + n + " as " + alias
  {
    var a := Alias(n, Some(alias));
    assert [a][..0] == [];
    assert PlainImportLines([a], isLibrary) == [Import([a])];
    AliasImportText(n, alias);
  }

  /** The text of `import n as alias`. */
  lemma AliasImportText(n: string, alias: string)
    ensures ImportText(Import([Alias(n, Some(alias))])) == "import " + n + " as " + alias
  {
    var a := Alias(n, Some(alias));
    assert AliasTexts([a]) == [n + " as " + alias];
    assert "import " + (n + " as " + alias) == "import " + n + " as " + alias;
  }

  /** A plain import of a module that is not a library (local code) yields
      neither a line nor an ImportObj. */
  lemma LocalPlainImportIgnored(n: string, asname: Option<string>, isLibrary: string -> bool)
    requires !isLibrary(n)
    ensures LinesOfStmt(Import([Alias(n, asname)]), isLibrary) == []
    ensures ObjsOfStmt(Import([Alias(n, asname)]), isLibrary) == []
  {
    assert [Alias(n, asname)][..0] == [];
    assert PlainImportLines([Alias(n, asname)], isLibrary) == PlainImportLines([], isLibrary) + [];
    assert PlainImportObjs([Alias(n, asname)], isLibrary) == PlainImportObjs([], isLibrary) + [];
  }
}

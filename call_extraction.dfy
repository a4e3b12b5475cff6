// Call-reference extraction (uc_functions/visitors.py: FunctionMetadata and
// ExtractFunctionCallsVisitor): every call site of a source unit becomes a
// (module, name, attrs) record, de-duplicated by a key, first occurrence first.

module CallExtraction {
  import opened Util
  import opened PyAst

  /** One call target: the root identifier (absent when the chain does not start
      at a plain name), the called name and the chain of names before it. */
  datatype FunctionMetadata = FunctionMetadata(moduleName: Option<string>, name: string, attrs: seq<string>)

  /** `FunctionMetadata.unique_name`: the attribute chain joined by "_". */
  function UniqueName(m: FunctionMetadata): string
  {
    Join(m.attrs, "_")
  }

  /** The attribute names of a chain `x.a.b`, outermost first (the order in which
      the extractor's loop meets them), and the expression the chain starts from. */
  function Unwind(e: Expr): (r: (seq<string>, Expr))
    ensures !r.1.Attribute?
    ensures e.Attribute? <==> |r.0| > 0
  {
    match e
    case Attribute(v, a) => var u := Unwind(v); ([a] + u.0, u.1)
    case _ => ([], e)
  }

  /** The record `_handle_attr_based_function_call` builds for an attribute call
      target. When the chain starts at a name the list of parts is reversed and
      the name is its root; otherwise the list stays outermost-first, so the
      "called name" is the innermost attribute and there is no module. */
  function ChainMetadata(func: Expr): FunctionMetadata
    requires func.Attribute?
  {
    var u := Unwind(func);
    if u.1.Name? then
      var parts := Reverse(u.0 + [u.1.id]);
      ReverseLength(u.0 + [u.1.id]);
      FunctionMetadata(Some(u.1.id), parts[|parts| - 1], parts[..|parts| - 1])
    else
      FunctionMetadata(None, u.0[|u.0| - 1], u.0[..|u.0| - 1])
  }

  /** `ExtractFunctionCallsVisitor._handle_attr_based_function_call`: walks the
      attribute chain of the call's target with a loop. */
  method HandleAttrBasedFunctionCall(call: Expr) returns (m: FunctionMetadata)
    requires call.Call? && call.func.Attribute?
    ensures m == ChainMetadata(call.func)
  {
    var attributes: seq<string> := [];
    var current := call.func;
    assert attributes + Unwind(current).0 == Unwind(current).0;
    while current.Attribute?
      invariant Unwind(call.func) == (attributes + Unwind(current).0, Unwind(current).1)
      decreases current
    {
      assert attributes + Unwind(current).0 == (attributes + [current.attr]) + Unwind(current.value).0;
      attributes := attributes + [current.attr];
      current := current.value;
    }
    assert attributes == Unwind(call.func).0;
    var topLevelName: Option<string> := None;
    if current.Name? {
      attributes := attributes + [current.id];
      ReverseLength(attributes);
      attributes := Reverse(attributes);
      topLevelName := Some(current.id);
    }
    m := FunctionMetadata(topLevelName, attributes[|attributes| - 1], attributes[..|attributes| - 1]);
  }

  /** The de-duplication key and the record a call target contributes, if any:
      an attribute call is keyed by its `unique_name`, a bare call `f(...)` by `f`;
      any other target (a call of a call, a subscript, ...) contributes nothing. */
  function CallRecord(func: Expr): Option<(string, FunctionMetadata)>
  {
    if func.Attribute? then
      var m := ChainMetadata(func);
      Some((UniqueName(m), m))
    else if func.Name? then
      Some((func.id, FunctionMetadata(Some(func.id), func.id, [])))
    else None
  }

  /** The key under which a record was admitted: a bare call's name, otherwise the
      record's `unique_name`. */
  function RecordKey(m: FunctionMetadata): string
  {
    if m.attrs == [] && m.moduleName.Some? then m.name else UniqueName(m)
  }

  lemma RecordKeyMatches(func: Expr)
    requires CallRecord(func).Some?
    ensures RecordKey(CallRecord(func).value.1) == CallRecord(func).value.0
  {
    if func.Attribute? {
      var u := Unwind(func);
      if u.1.Name? {
        ReverseLength(u.0 + [u.1.id]);
      }
    }
  }

  // The call targets a node visitor meets, in visiting order: a call node is
  // handled before its children (func, args, keywords).

  function TargetsExpr(e: Expr): seq<Expr>
    decreases e
  {
    match e
    case Call(f, args, kws) => [f] + TargetsExpr(f) + TargetsExprs(args) + TargetsKeywords(kws)
    case Attribute(v, _) => TargetsExpr(v)
    case _ => []
  }

  function TargetsExprs(es: seq<Expr>): seq<Expr>
    decreases es
  {
    if es == [] then [] else TargetsExprs(es[..|es| - 1]) + TargetsExpr(es[|es| - 1])
  }

  function TargetsKeywords(ks: seq<Keyword>): seq<Expr>
    decreases ks
  {
    if ks == [] then [] else TargetsKeywords(ks[..|ks| - 1]) + TargetsKeyword(ks[|ks| - 1])
  }

  function TargetsKeyword(k: Keyword): seq<Expr>
    decreases k
  {
    TargetsExpr(k.value)
  }

  function TargetsStmt(s: Stmt): seq<Expr>
    decreases s
  {
    match s
    case FunctionDef(_, _, _, defaults, body) => TargetsExprs(defaults) + TargetsStmts(body)
    case ClassDef(_, bases, body) => TargetsExprs(bases) + TargetsStmts(body)
    case Assign(targets, value) => TargetsExprs(targets) + TargetsExpr(value)
    case ExprStmt(value) => TargetsExpr(value)
    case Return(value) => TargetsExpr(value)
    case _ => []
  }

  function TargetsStmts(ss: seq<Stmt>): seq<Expr>
    decreases ss
  {
    if ss == [] then [] else TargetsStmts(ss[..|ss| - 1]) + TargetsStmt(ss[|ss| - 1])
  }

  /** The visitor's state: `_function_metadata_list` and `_visited_functions`. */
  datatype Extraction = Extraction(records: seq<FunctionMetadata>, visited: set<string>)

  /** What `visit_Call` does with one call target. */
  function Step(st: Extraction, func: Expr): Extraction
  {
    match CallRecord(func)
    case None => st
    case Some((key, m)) =>
      if key in st.visited then st else Extraction(st.records + [m], st.visited + {key})
  }

  function Collect(st: Extraction, funcs: seq<Expr>): Extraction
  {
    if funcs == [] then st else Step(Collect(st, funcs[..|funcs| - 1]), funcs[|funcs| - 1])
  }

  lemma {:induction false} CollectAppend(st: Extraction, a: seq<Expr>, b: seq<Expr>)
    ensures Collect(st, a + b) == Collect(Collect(st, a), b)
  {
    if b == [] {
      assert a + b == a;
    } else {
      assert (a + b)[..|a + b| - 1] == a + b[..|b| - 1];
      CollectAppend(st, a, b[..|b| - 1]);
    }
  }

  /** The records the extractor yields for a parsed source unit. */
  function ExtractCalls(ss: seq<Stmt>): seq<FunctionMetadata>
  {
    Collect(Extraction([], {}), TargetsStmts(ss)).records
  }

  class ExtractFunctionCallsVisitor {
    var functionMetadataList: seq<FunctionMetadata>
    var visitedFunctions: set<string>

    function State(): Extraction
      reads this
    {
      Extraction(functionMetadataList, visitedFunctions)
    }

    constructor()
      ensures State() == Extraction([], {})
    {
      functionMetadataList := [];
      visitedFunctions := {};
    }

    /** `visit_Call`: records the target, then visits the children. */
    method VisitCall(call: Expr)
      requires call.Call?
      modifies this
      ensures State() == Collect(old(State()), TargetsExpr(call))
      decreases call, 0
    {
      ghost var st0 := State();
      if call.func.Attribute? {
        var metadata := HandleAttrBasedFunctionCall(call);
        var key := UniqueName(metadata);
        if key !in visitedFunctions {
          visitedFunctions := visitedFunctions + {key};
          functionMetadataList := functionMetadataList + [metadata];
        }
      } else if call.func.Name? {
        if call.func.id !in visitedFunctions {
          visitedFunctions := visitedFunctions + {call.func.id};
          functionMetadataList := functionMetadataList + [FunctionMetadata(Some(call.func.id), call.func.id, [])];
        }
      }
      assert State() == Collect(st0, [call.func]);
      VisitExpr(call.func);
      CollectAppend(st0, [call.func], TargetsExpr(call.func));
      VisitExprs(call.args);
      CollectAppend(st0, [call.func] + TargetsExpr(call.func), TargetsExprs(call.args));
      VisitKeywords(call.keywords);
      CollectAppend(st0, [call.func] + TargetsExpr(call.func) + TargetsExprs(call.args), TargetsKeywords(call.keywords));
    }

    method VisitExpr(e: Expr)
      modifies this
      ensures State() == Collect(old(State()), TargetsExpr(e))
      decreases e, 1
    {
      match e {
        case Call(_, _, _) => VisitCall(e);
        case Attribute(v, _) => VisitExpr(v);
        case _ =>
      }
    }

    method VisitExprs(es: seq<Expr>)
      modifies this
      ensures State() == Collect(old(State()), TargetsExprs(es))
      decreases es, 2
    {
      ghost var st0 := State();
      for i := 0 to |es|
        invariant State() == Collect(st0, TargetsExprs(es[..i]))
      {
        assert es[..i + 1][..i] == es[..i];
        VisitExpr(es[i]);
        CollectAppend(st0, TargetsExprs(es[..i]), TargetsExpr(es[i]));
      }
      assert es[..|es|] == es;
    }

    method VisitKeywords(ks: seq<Keyword>)
      modifies this
      ensures State() == Collect(old(State()), TargetsKeywords(ks))
      decreases ks, 2
    {
      ghost var st0 := State();
      for i := 0 to |ks|
        invariant State() == Collect(st0, TargetsKeywords(ks[..i]))
      {
        assert ks[..i + 1][..i] == ks[..i];
        VisitKeyword(ks[i]);
        CollectAppend(st0, TargetsKeywords(ks[..i]), TargetsKeyword(ks[i]));
      }
      assert ks[..|ks|] == ks;
    }

    method VisitKeyword(k: Keyword)
      modifies this
      ensures State() == Collect(old(State()), TargetsKeyword(k))
      decreases k, 1
    {
      VisitExpr(k.value);
    }

    method VisitStmt(s: Stmt)
      modifies this
      ensures State() == Collect(old(State()), TargetsStmt(s))
      decreases s, 1
    {
      ghost var st0 := State();
      match s {
        case FunctionDef(_, _, _, defaults, body) =>
          VisitExprs(defaults);
          VisitStmts(body);
          CollectAppend(st0, TargetsExprs(defaults), TargetsStmts(body));
        case ClassDef(_, bases, body) =>
          VisitExprs(bases);
          VisitStmts(body);
          CollectAppend(st0, TargetsExprs(bases), TargetsStmts(body));
        case Assign(targets, value) =>
          VisitExprs(targets);
          VisitExpr(value);
          CollectAppend(st0, TargetsExprs(targets), TargetsExpr(value));
        case ExprStmt(value) =>
          VisitExpr(value);
        case Return(value) =>
          VisitExpr(value);
        case _ =>
      }
    }

    /** `visit(tree)` on a module: visits every top-level statement in order. */
    method VisitStmts(ss: seq<Stmt>)
      modifies this
      ensures State() == Collect(old(State()), TargetsStmts(ss))
      decreases ss, 2
    {
      ghost var st0 := State();
      for i := 0 to |ss|
        invariant State() == Collect(st0, TargetsStmts(ss[..i]))
      {
        assert ss[..i + 1][..i] == ss[..i];
        VisitStmt(ss[i]);
        CollectAppend(st0, TargetsStmts(ss[..i]), TargetsStmt(ss[i]));
      }
      assert ss[..|ss|] == ss;
    }
  }

  /** What a fresh visitor holds after visiting a source unit: the records of
      `ExtractCalls`. */
  method ExtractFunctionCalls(ss: seq<Stmt>) returns (r: seq<FunctionMetadata>)
    ensures r == ExtractCalls(ss)
  {
    var visitor := new ExtractFunctionCallsVisitor();
    visitor.VisitStmts(ss);
    r := visitor.functionMetadataList;
  }

  // ---------------------------------------------------------------------------
  // Properties of the extraction.

  /** The key call target `j` would be recorded under, if any. */
  function KeyAt(funcs: seq<Expr>, j: int): Option<string>
    requires 0 <= j < |funcs|
  {
    match CallRecord(funcs[j])
    case None => None
    case Some((k, _)) => Some(k)
  }

  /** Call target `j` yields a record and no earlier target has the same key. */
  predicate IsFirstWithKey(funcs: seq<Expr>, j: int)
  {
    0 <= j < |funcs| && KeyAt(funcs, j).Some?
    && forall i | 0 <= i < j :: KeyAt(funcs, i) != KeyAt(funcs, j)
  }

  function Keys(records: seq<FunctionMetadata>): seq<string>
  {
    if records == [] then [] else Keys(records[..|records| - 1]) + [RecordKey(records[|records| - 1])]
  }

  lemma {:induction false} KeysFacts(records: seq<FunctionMetadata>)
    ensures |Keys(records)| == |records|
    ensures forall i | 0 <= i < |records| :: Keys(records)[i] == RecordKey(records[i])
  {
    if records != [] {
      KeysFacts(records[..|records| - 1]);
    }
  }

  /** The extractor keeps exactly the first occurrence of every key, in source
      order: `pos` lists, increasingly, the positions of the kept call targets,
      each kept record is the record of its target, every first occurrence of a key
      is kept, and the visited set is the set of all keys met. */
  lemma {:induction false} ExtractionKeepsFirstOccurrences(funcs: seq<Expr>) returns (pos: seq<nat>)
    ensures var r := Collect(Extraction([], {}), funcs);
      && |pos| == |r.records|
      && (forall i, j | 0 <= i < j < |pos| :: pos[i] < pos[j])
      && (forall i | 0 <= i < |pos| :: IsFirstWithKey(funcs, pos[i]) && CallRecord(funcs[pos[i]]).value.1 == r.records[i])
      && (forall j | IsFirstWithKey(funcs, j) :: j in pos)
      && r.visited == set j | 0 <= j < |funcs| && KeyAt(funcs, j).Some? :: KeyAt(funcs, j).value
  {
    if funcs == [] {
      pos := [];
    } else {
      var n := |funcs| - 1;
      var prefix := funcs[..n];
      var pos0 := ExtractionKeepsFirstOccurrences(prefix);
      var r0 := Collect(Extraction([], {}), prefix);
      PrefixKeys(funcs);
      KeysMetSnoc(funcs);
      var f := funcs[n];
      match CallRecord(f) {
        case None =>
          pos := pos0;
        case Some((k, m)) =>
          assert KeyAt(funcs, n) == Some(k);
          if k in r0.visited {
            pos := pos0;
            var w :| 0 <= w < n && KeyAt(prefix, w).Some? && KeyAt(prefix, w).value == k;
            assert KeyAt(funcs, w) == KeyAt(funcs, n);
          } else {
            pos := pos0 + [n];
            assert IsFirstWithKey(funcs, n);
          }
      }
    }
  }

  /** Dropping the last target changes no earlier key and no earlier first
      occurrence. */
  lemma PrefixKeys(funcs: seq<Expr>)
    requires funcs != []
    ensures forall j | 0 <= j < |funcs| - 1 :: KeyAt(funcs, j) == KeyAt(funcs[..|funcs| - 1], j)
    ensures forall j | 0 <= j < |funcs| - 1 :: IsFirstWithKey(funcs, j) == IsFirstWithKey(funcs[..|funcs| - 1], j)
  {
    var prefix := funcs[..|funcs| - 1];
    assert forall j | 0 <= j < |prefix| :: KeyAt(funcs, j) == KeyAt(prefix, j);
    forall j | 0 <= j < |prefix|
      ensures IsFirstWithKey(funcs, j) == IsFirstWithKey(prefix, j)
    {
      assert forall i | 0 <= i < j :: KeyAt(funcs, i) == KeyAt(prefix, i);
    }
  }

  /** The keys met in a list of targets: those of the earlier targets and the
      last one's, if it has one. */
  lemma KeysMetSnoc(funcs: seq<Expr>)
    requires funcs != []
    ensures var n := |funcs| - 1;
      (set j | 0 <= j < |funcs| && KeyAt(funcs, j).Some? :: KeyAt(funcs, j).value)
      == (set j | 0 <= j < n && KeyAt(funcs[..n], j).Some? :: KeyAt(funcs[..n], j).value)
         + (if KeyAt(funcs, n).Some? then {KeyAt(funcs, n).value} else {})
  {
    var n := |funcs| - 1;
    PrefixKeys(funcs);
    var all := set j | 0 <= j < |funcs| && KeyAt(funcs, j).Some? :: KeyAt(funcs, j).value;
    var front := set j | 0 <= j < n && KeyAt(funcs[..n], j).Some? :: KeyAt(funcs[..n], j).value;
    var last: set<string> := if KeyAt(funcs, n).Some? then {KeyAt(funcs, n).value} else {};
    forall x | x in all
      ensures x in front + last
    {
      var j :| 0 <= j < |funcs| && KeyAt(funcs, j).Some? && KeyAt(funcs, j).value == x;
      if j < n {
        assert KeyAt(funcs[..n], j).Some? && KeyAt(funcs[..n], j).value == x;
      }
    }
    forall x | x in front + last
      ensures x in all
    {
      if x in front {
        var j :| 0 <= j < n && KeyAt(funcs[..n], j).Some? && KeyAt(funcs[..n], j).value == x;
        assert KeyAt(funcs, j).Some? && KeyAt(funcs, j).value == x;
      }
    }
  }

  /** The records of one source unit have pairwise distinct keys. */
  lemma ExtractedKeysDistinct(ss: seq<Stmt>)
    ensures Distinct(Keys(ExtractCalls(ss)))
  {
    var funcs := TargetsStmts(ss);
    var r := Collect(Extraction([], {}), funcs);
    var pos := ExtractionKeepsFirstOccurrences(funcs);
    KeysFacts(r.records);
    forall i, j | 0 <= i < j < |r.records|
      ensures Keys(r.records)[i] != Keys(r.records)[j]
    {
      RecordKeyMatches(funcs[pos[i]]);
      RecordKeyMatches(funcs[pos[j]]);
      assert KeyAt(funcs, pos[i]) != KeyAt(funcs, pos[j]);
    }
  }

  /** A dotted call `root.p1...pk(...)` is recorded with module `root`, name `pk`
      and attrs `[root, p1, ..., p(k-1)]`. */
  lemma {:induction false} DottedCallShape(root: string, path: seq<string>)
    requires |path| >= 1
    ensures ChainMetadata(Dotted(root, path))
         == FunctionMetadata(Some(root), path[|path| - 1], [root] + path[..|path| - 1])
  {
    UnwindDotted(root, path);
    var parts := [root] + path;
    assert Reverse(path) + [root] == Reverse(parts) by {
      ReverseOfCons(root, path);
    }
    ReverseReverse(parts);
    ReverseLength(Reverse(path) + [root]);
    assert parts[|parts| - 1] == path[|path| - 1];
    assert parts[..|parts| - 1] == [root] + path[..|path| - 1];
  }

  lemma {:induction false} UnwindDotted(root: string, path: seq<string>)
    ensures Unwind(Dotted(root, path)) == (Reverse(path), Name(root, Load))
  {
    if path != [] {
      var n := |path| - 1;
      UnwindDotted(root, path[..n]);
      ReverseOfSnoc(path[..n], path[n]);
      assert path[..n] + [path[n]] == path;
    }
  }

  lemma {:induction false} ReverseOfSnoc<T>(s: seq<T>, x: T)
    ensures Reverse(s + [x]) == [x] + Reverse(s)
  {
    ReverseSnoc(s, x);
  }

  lemma {:induction false} ReverseOfCons<T>(x: T, s: seq<T>)
    ensures Reverse([x] + s) == Reverse(s) + [x]
  {
    assert ([x] + s)[1..] == s;
  }

  lemma {:induction false} ReverseReverse<T>(s: seq<T>)
    ensures Reverse(Reverse(s)) == s
  {
    if s != [] {
      ReverseReverse(s[1..]);
      ReverseSnoc(Reverse(s[1..]), s[0]);
      assert [s[0]] + s[1..] == s;
    }
  }

  lemma {:induction false} DottedHasNoCalls(root: string, path: seq<string>)
    ensures TargetsExpr(Dotted(root, path)) == []
  {
    if path != [] {
      DottedHasNoCalls(root, path[..|path| - 1]);
    }
  }

  /** The statement `root.p1...pk()` meets exactly one call target. */
  lemma DottedCallTargets(root: string, path: seq<string>, args: seq<Expr>)
    requires forall i | 0 <= i < |args| :: args[i].Constant?
    ensures TargetsStmt(ExprStmt(Call(Dotted(root, path), args, []))) == [Dotted(root, path)]
  {
    var d := Dotted(root, path);
    DottedHasNoCalls(root, path);
    ConstantsHaveNoCalls(args);
    assert TargetsExpr(Call(d, args, [])) == [d] + TargetsExpr(d) + TargetsExprs(args) + TargetsKeywords([]);
    assert [d] + [] + [] + [] == [d];
  }

  lemma {:induction false} ConstantsHaveNoCalls(args: seq<Expr>)
    requires forall i | 0 <= i < |args| :: args[i].Constant?
    ensures TargetsExprs(args) == []
  {
    if args != [] {
      ConstantsHaveNoCalls(args[..|args| - 1]);
    }
  }

  /** Two calls on the same object, `a.f()` and `a.g()`, share the key "a": the
      key leaves out the called name, so only the first is recorded. */
  lemma SameReceiverCollapses(a: string, f: string, g: string)
    ensures ExtractCalls([ExprStmt(Call(Dotted(a, [f]), [], [])), ExprStmt(Call(Dotted(a, [g]), [], []))])
         == [FunctionMetadata(Some(a), f, [a])]
  {
    DottedCallShape(a, [f]);
    DottedCallShape(a, [g]);
    DottedCallTargets(a, [f], []);
    DottedCallTargets(a, [g], []);
    var ss := [ExprStmt(Call(Dotted(a, [f]), [], [])), ExprStmt(Call(Dotted(a, [g]), [], []))];
    assert ss[..1] == [ss[0]];
    assert [ss[0]][..0] == [];
    var funcs := [Dotted(a, [f]), Dotted(a, [g])];
    assert TargetsStmts([ss[0]]) == TargetsStmts([]) + TargetsStmt(ss[0]);
    assert TargetsStmts([ss[0]]) == [Dotted(a, [f])];
    assert TargetsStmts(ss) == TargetsStmts([ss[0]]) + TargetsStmt(ss[1]);
    assert TargetsStmts(ss) == funcs;
    assert funcs[..1] == [Dotted(a, [f])];
    assert [Dotted(a, [f])][..0] == [];
    var e0 := Extraction([], {});
    var e1 := Step(e0, Dotted(a, [f]));
    assert [f][..0] == [] && [g][..0] == [];
    assert Dotted(a, [f]).Attribute? && Dotted(a, [g]).Attribute?;
    assert ChainMetadata(Dotted(a, [f])) == FunctionMetadata(Some(a), f, [a]);
    assert ChainMetadata(Dotted(a, [g])) == FunctionMetadata(Some(a), g, [a]);
    assert CallRecord(Dotted(a, [f])) == Some((a, FunctionMetadata(Some(a), f, [a])));
    assert CallRecord(Dotted(a, [g])) == Some((a, FunctionMetadata(Some(a), g, [a])));
    assert e1 == Extraction([FunctionMetadata(Some(a), f, [a])], {a});
    assert Collect(e0, [Dotted(a, [f])]) == e1;
    assert Collect(e0, funcs) == Step(e1, Dotted(a, [g]));
  }

  /** `os.path.abs('foobar')` yields one record: module "os", name "abs",
      attrs ["os", "path"]. */
  lemma OsPathAbsExample()
    ensures ExtractCalls([ExprStmt(Call(Dotted("os", ["path", "abs"]), [Constant("'foobar'")], []))])
         == [FunctionMetadata(Some("os"), "abs", ["os", "path"])]
  {
    DottedCallShape("os", ["path", "abs"]);
    DottedCallTargets("os", ["path", "abs"], [Constant("'foobar'")]);
    var ss := [ExprStmt(Call(Dotted("os", ["path", "abs"]), [Constant("'foobar'")], []))];
    assert ss[..0] == [];
    var funcs := [Dotted("os", ["path", "abs"])];
    assert TargetsStmts(ss) == TargetsStmts([]) + TargetsStmt(ss[0]);
    assert TargetsStmts(ss) == funcs;
    assert funcs[..0] == [];
    assert ["path", "abs"][..1] == ["path"] && ["path", "abs"][..1][..0] == [];
    assert ["os"] + ["path"] == ["os", "path"];
    assert funcs[0].Attribute?;
    assert ChainMetadata(funcs[0]) == FunctionMetadata(Some("os"), "abs", ["os", "path"]);
    assert ["os", "path"][1..] == ["path"];
    assert Join(["os", "path"], "_") == "os" + "_" + "path" == "os_path";
    assert CallRecord(funcs[0]) == Some(("os_path", FunctionMetadata(Some("os"), "abs", ["os", "path"])));
    assert Join(["os", "path"], "_") == "os_path";
  }
}

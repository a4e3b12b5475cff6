// Removing duplicate and unused imports from the stitched module
// (uc_functions/visitors.py: ImportOptimizer). The first pass is a node
// transformer over the whole tree: it drops an import whose key it has seen
// before, records which import node binds each name, and collects every name
// that occurs. The second pass removes, for each recorded name that never
// occurs, the node recorded for it from the module's top-level body; a node
// that is nested, or already removed, is not found there and the failure is
// ignored.
//
// Node identity (what `list.remove` compares by) is a number carried by every
// top-level node; nested import nodes can never be found in the top-level body.

module ImportOptimization {
  import opened Util
  import opened PyAst

  /** A top-level statement of the module being optimized, with its identity. */
  datatype Node = Node(id: nat, stmt: Stmt)

  /** The node an imported name was recorded with. */
  datatype NodeRef = TopLevel(id: nat) | Nested

  /** The de-duplication key: the sorted tuple of bound names of `import a, b as c`,
      or the module and the sorted tuple of imported names (not the `as` parts) of
      `from m import x as y`. Two sorted tuples are equal exactly when the
      multisets of their elements are. */
  datatype ImportKey = PlainKey(bound: multiset<string>) | FromKey(moduleName: Option<string>, names: multiset<string>)

  function AliasNames(names: seq<Alias>): (r: seq<string>)
    ensures |r| == |names|
    ensures forall i | 0 <= i < |names| :: r[i] == names[i].name
  {
    if names == [] then [] else AliasNames(names[..|names| - 1]) + [names[|names| - 1].name]
  }

  function KeyOf(s: Stmt): ImportKey
    requires IsImport(s)
  {
    match s
    case Import(names) => PlainKey(multiset(BoundNames(names)))
    case ImportFrom(m, names) => FromKey(m, multiset(AliasNames(names)))
  }

  /** The optimizer's fields: `used_names`, `imported_names` (a dictionary kept in
      insertion order: `keys` in order, `nodes` the values) and `seen_imports`. */
  datatype OptState = OptState(used: set<string>, keys: seq<string>, nodes: map<string, NodeRef>, seen: set<ImportKey>)
  {
    ghost predicate Valid()
    {
      Distinct(keys) && (forall k :: k in nodes <==> k in keys)
    }
  }

  const Initial := OptState({}, [], map[], {})

  // Every name that occurs in an expression (`visit_Name` records any context).

  function NamesOfExpr(e: Expr): set<string>
    decreases e
  {
    match e
    case Name(id, _) => {id}
    case Attribute(v, _) => NamesOfExpr(v)
    case Call(f, args, kws) => NamesOfExpr(f) + NamesOfExprs(args) + NamesOfKeywords(kws)
    case Constant(_) => {}
  }

  function NamesOfExprs(es: seq<Expr>): set<string>
    decreases es
  {
    if es == [] then {} else NamesOfExprs(es[..|es| - 1]) + NamesOfExpr(es[|es| - 1])
  }

  function NamesOfKeyword(k: Keyword): set<string>
    decreases k
  {
    NamesOfExpr(k.value)
  }

  function NamesOfKeywords(ks: seq<Keyword>): set<string>
    decreases ks
  {
    if ks == [] then {} else NamesOfKeywords(ks[..|ks| - 1]) + NamesOfKeyword(ks[|ks| - 1])
  }

  /** `imported_names[alias.asname or alias.name] = node` for each alias. */
  function Register(st: OptState, names: seq<string>, ref: NodeRef): OptState
  {
    if names == [] then st
    else
      var prev := Register(st, names[..|names| - 1], ref);
      var n := names[|names| - 1];
      prev.(keys := AddUnique(prev.keys, n), nodes := prev.nodes[n := ref])
  }

  /** `visit_Import` / `visit_ImportFrom`: the new state and whether the node is
      kept (false: it repeats a key seen before and is dropped). */
  function VisitImport(st: OptState, s: Stmt, ref: NodeRef): (OptState, bool)
    requires IsImport(s)
  {
    var k := KeyOf(s);
    if k in st.seen then (st, false)
    else (Register(st.(seen := st.seen + {k}), BoundNames(s.names), ref), true)
  }

  /** The first pass over one statement: imports are checked against the keys
      seen so far, other statements have their names recorded and their nested
      bodies visited. `ref` identifies the statement when it is an import. */
  function VisitStmt(st: OptState, s: Stmt, ref: NodeRef): (r: (OptState, Option<Stmt>))
    decreases s, 1
  {
    match s
    case Import(_) =>
      var (st', keep) := VisitImport(st, s, ref);
      (st', if keep then Some(s) else None)
    case ImportFrom(_, _) =>
      var (st', keep) := VisitImport(st, s, ref);
      (st', if keep then Some(s) else None)
    case FunctionDef(name, args, kwonly, defaults, body) =>
      var (st', body') := VisitBody(st.(used := st.used + NamesOfExprs(defaults)), body);
      (st', Some(FunctionDef(name, args, kwonly, defaults, body')))
    case ClassDef(name, bases, body) =>
      var (st', body') := VisitBody(st.(used := st.used + NamesOfExprs(bases)), body);
      (st', Some(ClassDef(name, bases, body')))
    case Assign(targets, value) =>
      (st.(used := st.used + NamesOfExprs(targets) + NamesOfExpr(value)), Some(s))
    case ExprStmt(value) =>
      (st.(used := st.used + NamesOfExpr(value)), Some(s))
    case Return(value) =>
      (st.(used := st.used + NamesOfExpr(value)), Some(s))
    case Pass =>
      (st, Some(s))
  }

  /** A nested body, in order, keeping the statements not dropped. */
  function VisitBody(st: OptState, ss: seq<Stmt>): (OptState, seq<Stmt>)
    decreases ss, 0
  {
    if ss == [] then (st, [])
    else
      var (st1, prefix) := VisitBody(st, ss[..|ss| - 1]);
      var (st2, r) := VisitStmt(st1, ss[|ss| - 1], Nested);
      (st2, prefix + (if r.Some? then [r.value] else []))
  }

  /** The module's top-level body, in order. */
  function VisitTop(st: OptState, nodes: seq<Node>): (OptState, seq<Node>)
  {
    if nodes == [] then (st, [])
    else
      var (st1, prefix) := VisitTop(st, nodes[..|nodes| - 1]);
      var n := nodes[|nodes| - 1];
      var (st2, r) := VisitStmt(st1, n.stmt, TopLevel(n.id));
      (st2, prefix + (if r.Some? then [Node(n.id, r.value)] else []))
  }

  /** `body.remove(node)`: drops the first node with that identity; a nested
      node, or one no longer present, leaves the body as it is. */
  function RemoveRef(body: seq<Node>, ref: NodeRef): seq<Node>
  {
    if ref.Nested? || body == [] then body
    else if body[0].id == ref.id then body[1..]
    else [body[0]] + RemoveRef(body[1..], ref)
  }

  /** The second pass of `optimize_imports`, over the recorded names in order. */
  function RemoveUnused(body: seq<Node>, st: OptState, keys: seq<string>): seq<Node>
    requires forall k | k in keys :: k in st.nodes
  {
    if keys == [] then body
    else
      var prev := RemoveUnused(body, st, keys[..|keys| - 1]);
      var k := keys[|keys| - 1];
      if k in st.used then prev else RemoveRef(prev, st.nodes[k])
  }

  /** `optimize_imports` as written. */
  function OptimizeAsWritten(nodes: seq<Node>): seq<Node>
  {
    var (st, body) := VisitTop(Initial, nodes);
    RegisterValid(Initial, nodes);
    RemoveUnused(body, st, st.keys)
  }

  /** The part of a dotted module name before its first dot: the name that
      `import a.b.c` binds. */
  function TopName(name: string): (r: string)
    ensures r <= name
    ensures '.' !in r
    ensures '.' !in name ==> r == name
  {
    if name == [] || name[0] == '.' then [] else [name[0]] + TopName(name[1..])
  }

  /** The name an alias of import statement `s` actually binds in Python:
      `asname`, else for `import a.b` the top-level package `a`, else the name. */
  function Binding(s: Stmt, a: Alias): string
  {
    if a.asname.Some? then a.asname.value
    else if s.Import? then TopName(a.name)
    else a.name
  }

  /** The evidently intended removal: an import is unused when none of the
      names it binds occurs. */
  predicate UnusedImport(s: Stmt, used: set<string>)
  {
    IsImport(s) && forall i | 0 <= i < |s.names| :: Binding(s, s.names[i]) !in used
  }

  function KeepUsed(body: seq<Node>, used: set<string>): seq<Node>
  {
    if body == [] then []
    else
      var prev := KeepUsed(body[..|body| - 1], used);
      var n := body[|body| - 1];
      prev + (if UnusedImport(n.stmt, used) then [] else [n])
  }

  /** Exactly the unused imports are left out. */
  lemma {:induction false} KeepUsedFacts(body: seq<Node>, used: set<string>)
    ensures forall n | n in KeepUsed(body, used) :: n in body && !UnusedImport(n.stmt, used)
    ensures forall n | n in body && !UnusedImport(n.stmt, used) :: n in KeepUsed(body, used)
  {
    if body != [] {
      KeepUsedFacts(body[..|body| - 1], used);
      assert forall m | m in body :: m in body[..|body| - 1] || m == body[|body| - 1];
    }
  }

  /** `optimize_imports` with the evidently intended removal rule. */
  function OptimizeCorrected(nodes: seq<Node>): seq<Node>
  {
    var (st, body) := VisitTop(Initial, nodes);
    KeepUsed(body, st.used)
  }

  // ---------------------------------------------------------------------------
  // The recorded names and their nodes stay consistent.

  lemma {:induction false} RegisterNamesValid(st: OptState, names: seq<string>, ref: NodeRef)
    requires st.Valid()
    ensures Register(st, names, ref).Valid()
    ensures Register(st, names, ref).used == st.used
    ensures Register(st, names, ref).seen == st.seen
  {
    if names != [] {
      RegisterNamesValid(st, names[..|names| - 1], ref);
    }
  }

  lemma VisitImportValid(st: OptState, s: Stmt, ref: NodeRef)
    requires st.Valid() && IsImport(s)
    ensures VisitImport(st, s, ref).0.Valid()
    ensures st.seen <= VisitImport(st, s, ref).0.seen
  {
    if KeyOf(s) !in st.seen {
      RegisterNamesValid(st.(seen := st.seen + {KeyOf(s)}), BoundNames(s.names), ref);
    }
  }

  lemma {:induction false} VisitStmtValid(st: OptState, s: Stmt, ref: NodeRef)
    requires st.Valid()
    ensures VisitStmt(st, s, ref).0.Valid()
    ensures st.seen <= VisitStmt(st, s, ref).0.seen
    decreases s, 1
  {
    match s {
      case Import(_) => VisitImportValid(st, s, ref);
      case ImportFrom(_, _) => VisitImportValid(st, s, ref);
      case FunctionDef(_, _, _, defaults, body) => VisitBodyValid(st.(used := st.used + NamesOfExprs(defaults)), body);
      case ClassDef(_, bases, body) => VisitBodyValid(st.(used := st.used + NamesOfExprs(bases)), body);
      case _ =>
    }
  }

  lemma {:induction false} VisitBodyValid(st: OptState, ss: seq<Stmt>)
    requires st.Valid()
    ensures VisitBody(st, ss).0.Valid()
    ensures st.seen <= VisitBody(st, ss).0.seen
    decreases ss, 0
  {
    if ss != [] {
      VisitBodyValid(st, ss[..|ss| - 1]);
      VisitStmtValid(VisitBody(st, ss[..|ss| - 1]).0, ss[|ss| - 1], Nested);
    }
  }

  lemma {:induction false} RegisterValid(st: OptState, nodes: seq<Node>)
    requires st.Valid()
    ensures VisitTop(st, nodes).0.Valid()
  {
    if nodes != [] {
      var n := nodes[|nodes| - 1];
      RegisterValid(st, nodes[..|nodes| - 1]);
      VisitStmtValid(VisitTop(st, nodes[..|nodes| - 1]).0, n.stmt, TopLevel(n.id));
    }
  }

  // ---------------------------------------------------------------------------
  // What the two passes do, for every module.

  ghost predicate DistinctIds(body: seq<Node>)
  {
    forall i, j | 0 <= i < j < |body| :: body[i].id != body[j].id
  }

  ghost predicate DistinctImportKeys(body: seq<Node>)
  {
    forall i, j | 0 <= i < j < |body| && IsImport(body[i].stmt) && IsImport(body[j].stmt) ::
      KeyOf(body[i].stmt) != KeyOf(body[j].stmt)
  }

  /** The key of every import the first pass keeps is among the keys seen. */
  lemma {:induction false} VisitTopSeen(st: OptState, nodes: seq<Node>)
    requires st.Valid()
    ensures VisitTop(st, nodes).0.Valid()
    ensures forall m | m in VisitTop(st, nodes).1 && IsImport(m.stmt) :: KeyOf(m.stmt) in VisitTop(st, nodes).0.seen
  {
    if nodes != [] {
      var init := nodes[..|nodes| - 1];
      var n := nodes[|nodes| - 1];
      assert nodes == init + [n];
      VisitTopSeen(st, init);
      VisitTopSnoc(st, init, n);
      var st1 := VisitTop(st, init).0;
      VisitStmtValid(st1, n.stmt, TopLevel(n.id));
      if IsImport(n.stmt) && KeyOf(n.stmt) !in st1.seen {
        RegisterNamesValid(st1.(seen := st1.seen + {KeyOf(n.stmt)}), BoundNames(n.stmt.names), TopLevel(n.id));
      }
    }
  }

  lemma AppendNewKey(prefix: seq<Node>, x: Node, seen: set<ImportKey>)
    requires DistinctImportKeys(prefix)
    requires forall m | m in prefix && IsImport(m.stmt) :: KeyOf(m.stmt) in seen
    requires IsImport(x.stmt) ==> KeyOf(x.stmt) !in seen
    ensures DistinctImportKeys(prefix + [x])
  {
    var body := prefix + [x];
    forall i, j | 0 <= i < j < |body| && IsImport(body[i].stmt) && IsImport(body[j].stmt)
      ensures KeyOf(body[i].stmt) != KeyOf(body[j].stmt)
    {
      assert body[i] == prefix[i] && prefix[i] in prefix;
      if j < |prefix| {
        assert body[j] == prefix[j];
      }
    }
  }

  /** Every import left at the top level after the first pass has a key no
      other one left there has: the duplicates are gone. */
  lemma {:induction false} VisitTopDedups(st: OptState, nodes: seq<Node>)
    requires st.Valid()
    ensures DistinctImportKeys(VisitTop(st, nodes).1)
  {
    if nodes != [] {
      var init := nodes[..|nodes| - 1];
      var n := nodes[|nodes| - 1];
      assert nodes == init + [n];
      VisitTopDedups(st, init);
      VisitTopSeen(st, init);
      VisitTopSnoc(st, init, n);
      var (st1, prefix) := VisitTop(st, init);
      var r := VisitStmt(st1, n.stmt, TopLevel(n.id)).1;
      if r.Some? {
        assert IsImport(r.value) ==> r.value == n.stmt && KeyOf(n.stmt) !in st1.seen;
        AppendNewKey(prefix, Node(n.id, r.value), st1.seen);
      }
    }
  }

  // ---------------------------------------------------------------------------
  // The first pass against a reference: every statement that is not an
  // import, and the first import of each key, in input order.

  /** The keys of the imports a statement holds, nested ones included. */
  function KeysIn(s: Stmt): set<ImportKey>
    decreases s, 1
  {
    match s
    case Import(_) => {KeyOf(s)}
    case ImportFrom(_, _) => {KeyOf(s)}
    case FunctionDef(_, _, _, _, body) => KeysInBody(body)
    case ClassDef(_, _, body) => KeysInBody(body)
    case _ => {}
  }

  function KeysInBody(ss: seq<Stmt>): set<ImportKey>
    decreases ss, 0
  {
    if ss == [] then {} else KeysInBody(ss[..|ss| - 1]) + KeysIn(ss[|ss| - 1])
  }

  function KeysInNodes(nodes: seq<Node>): set<ImportKey>
  {
    if nodes == [] then {} else KeysInNodes(nodes[..|nodes| - 1]) + KeysIn(nodes[|nodes| - 1].stmt)
  }

  /** A top-level node the first pass keeps after the nodes `before`: it is
      not an import, or no import before it (nested ones included) has its key. */
  predicate FirstOfKey(before: seq<Node>, n: Node)
  {
    !IsImport(n.stmt) || KeyOf(n.stmt) !in KeysInNodes(before)
  }

  /** The reference for the first pass: the nodes it keeps, in order. */
  function FirstCopies(nodes: seq<Node>): seq<Node>
  {
    if nodes == [] then []
    else
      var init := nodes[..|nodes| - 1];
      var n := nodes[|nodes| - 1];
      FirstCopies(init) + (if FirstOfKey(init, n) then [n] else [])
  }

  /** A statement with the body of a def or class left out: the part the
      first pass does not rewrite. */
  function Header(s: Stmt): Stmt
  {
    match s
    case FunctionDef(name, args, kwonly, defaults, _) => FunctionDef(name, args, kwonly, defaults, [])
    case ClassDef(name, bases, _) => ClassDef(name, bases, [])
    case _ => s
  }

  /** The same nodes, in the same order, up to the bodies of defs and classes. */
  predicate SameHeaders(a: seq<Node>, b: seq<Node>)
  {
    |a| == |b| && forall j | 0 <= j < |a| :: a[j].id == b[j].id && Header(a[j].stmt) == Header(b[j].stmt)
  }

  /** Recording names leaves the keys seen and the names used alone, and maps
      each name to `ref` or to what it was mapped to before. */
  lemma {:induction false} RegisterKeeps(st: OptState, names: seq<string>, ref: NodeRef)
    ensures Register(st, names, ref).seen == st.seen && Register(st, names, ref).used == st.used
    ensures forall k | k in Register(st, names, ref).nodes ::
      Register(st, names, ref).nodes[k] == ref || (k in st.nodes && Register(st, names, ref).nodes[k] == st.nodes[k])
  {
    if names != [] {
      RegisterKeeps(st, names[..|names| - 1], ref);
    }
  }

  /** One statement adds the keys of the imports it holds to those seen; it
      is dropped exactly when it is an import whose key was seen, and
      otherwise kept with its header. A top-level reference is recorded only
      for an import. */
  lemma {:induction false} VisitStmtKeys(st: OptState, s: Stmt, ref: NodeRef)
    ensures VisitStmt(st, s, ref).0.seen == st.seen + KeysIn(s)
    ensures var r := VisitStmt(st, s, ref).1;
      && (r.None? <==> IsImport(s) && KeyOf(s) in st.seen)
      && (r.Some? ==> Header(r.value) == Header(s))
    ensures var nodes := VisitStmt(st, s, ref).0.nodes;
      forall k | k in nodes :: nodes[k] == Nested || (k in st.nodes && nodes[k] == st.nodes[k]) || (IsImport(s) && nodes[k] == ref)
    decreases s, 1
  {
    match s {
      case Import(_) =>
        if KeyOf(s) !in st.seen {
          RegisterKeeps(st.(seen := st.seen + {KeyOf(s)}), BoundNames(s.names), ref);
        }
      case ImportFrom(_, _) =>
        if KeyOf(s) !in st.seen {
          RegisterKeeps(st.(seen := st.seen + {KeyOf(s)}), BoundNames(s.names), ref);
        }
      case FunctionDef(_, _, _, defaults, body) => VisitBodyKeys(st.(used := st.used + NamesOfExprs(defaults)), body);
      case ClassDef(_, bases, body) => VisitBodyKeys(st.(used := st.used + NamesOfExprs(bases)), body);
      case _ =>
    }
  }

  lemma {:induction false} VisitBodyKeys(st: OptState, ss: seq<Stmt>)
    ensures VisitBody(st, ss).0.seen == st.seen + KeysInBody(ss)
    ensures var nodes := VisitBody(st, ss).0.nodes;
      forall k | k in nodes :: nodes[k] == Nested || (k in st.nodes && nodes[k] == st.nodes[k])
    decreases ss, 0
  {
    if ss != [] {
      VisitBodyKeys(st, ss[..|ss| - 1]);
      VisitStmtKeys(VisitBody(st, ss[..|ss| - 1]).0, ss[|ss| - 1], Nested);
    }
  }

  lemma SameHeadersSnoc(a: seq<Node>, b: seq<Node>, x: Node, y: Node)
    requires SameHeaders(a, b) && x.id == y.id && Header(x.stmt) == Header(y.stmt)
    ensures SameHeaders(a + [x], b + [y])
  {
  }

  /** The first pass keeps, in input order, every node that is not an import
      and the first import of each key, and rewrites nothing but the bodies
      of defs and classes. */
  lemma {:induction false} FirstPassKeepsFirstCopies(nodes: seq<Node>)
    ensures VisitTop(Initial, nodes).0.seen == KeysInNodes(nodes)
    ensures SameHeaders(VisitTop(Initial, nodes).1, FirstCopies(nodes))
  {
    if nodes != [] {
      var init := nodes[..|nodes| - 1];
      var n := nodes[|nodes| - 1];
      FirstPassKeepsFirstCopies(init);
      var (st1, prefix) := VisitTop(Initial, init);
      VisitStmtKeys(st1, n.stmt, TopLevel(n.id));
      var r := VisitStmt(st1, n.stmt, TopLevel(n.id)).1;
      if r.Some? {
        SameHeadersSnoc(prefix, FirstCopies(init), Node(n.id, r.value), n);
      }
    }
  }

  /** The reference picks, out of the input, exactly the nodes that are not
      imports and the imports whose key no earlier import has. */
  lemma {:induction false} FirstCopiesIff(nodes: seq<Node>)
    requires DistinctIds(nodes)
    ensures forall m | m in FirstCopies(nodes) :: m in nodes
    ensures forall i | 0 <= i < |nodes| :: nodes[i] in FirstCopies(nodes) <==> FirstOfKey(nodes[..i], nodes[i])
  {
    if nodes != [] {
      var init := nodes[..|nodes| - 1];
      var last := |nodes| - 1;
      FirstCopiesIff(init);
      forall i | 0 <= i < |nodes|
        ensures nodes[i] in FirstCopies(nodes) <==> FirstOfKey(nodes[..i], nodes[i])
      {
        if i < last {
          assert nodes[..i] == init[..i] && nodes[i] == init[i];
          assert nodes[i] != nodes[last];
        } else {
          assert nodes[..i] == init;
          LastNotBefore(nodes);
        }
      }
    }
  }

  lemma LastNotBefore(nodes: seq<Node>)
    requires nodes != [] && DistinctIds(nodes)
    ensures nodes[|nodes| - 1] !in nodes[..|nodes| - 1]
  {
    var init := nodes[..|nodes| - 1];
    forall m | m in init
      ensures m != nodes[|nodes| - 1]
    {
      var j :| 0 <= j < |init| && init[j] == m;
      assert nodes[j] == m;
    }
  }

  /** Every top-level reference the first pass records points at an import. */
  ghost predicate RefsToImports(st: OptState, nodes: seq<Node>)
  {
    forall k | k in st.nodes && st.nodes[k].TopLevel? ::
      exists i | 0 <= i < |nodes| :: nodes[i].id == st.nodes[k].id && IsImport(nodes[i].stmt)
  }

  lemma {:induction false} VisitTopRefs(nodes: seq<Node>)
    ensures RefsToImports(VisitTop(Initial, nodes).0, nodes)
  {
    if nodes != [] {
      var init := nodes[..|nodes| - 1];
      var n := nodes[|nodes| - 1];
      VisitTopRefs(init);
      var st1 := VisitTop(Initial, init).0;
      VisitStmtKeys(st1, n.stmt, TopLevel(n.id));
      var st2 := VisitTop(Initial, nodes).0;
      forall k | k in st2.nodes && st2.nodes[k].TopLevel?
        ensures exists i | 0 <= i < |nodes| :: nodes[i].id == st2.nodes[k].id && IsImport(nodes[i].stmt)
      {
        if k in st1.nodes && st2.nodes[k] == st1.nodes[k] {
          var i :| 0 <= i < |init| && init[i].id == st1.nodes[k].id && IsImport(init[i].stmt);
          assert nodes[i] == init[i];
        } else {
          assert nodes[|nodes| - 1] == n;
        }
      }
    }
  }

  /** Only imports are removed: every input statement that is not an import
      is left by both optimizers, with its identity and its header. */
  lemma NonImportsSurvive(nodes: seq<Node>)
    requires DistinctIds(nodes)
    ensures forall i | 0 <= i < |nodes| && !IsImport(nodes[i].stmt) ::
      exists m | m in OptimizeAsWritten(nodes) :: m.id == nodes[i].id && Header(m.stmt) == Header(nodes[i].stmt)
    ensures forall i | 0 <= i < |nodes| && !IsImport(nodes[i].stmt) ::
      exists m | m in OptimizeCorrected(nodes) :: m.id == nodes[i].id && Header(m.stmt) == Header(nodes[i].stmt)
  {
    forall i | 0 <= i < |nodes| && !IsImport(nodes[i].stmt)
      ensures exists m | m in OptimizeAsWritten(nodes) :: m.id == nodes[i].id && Header(m.stmt) == Header(nodes[i].stmt)
      ensures exists m | m in OptimizeCorrected(nodes) :: m.id == nodes[i].id && Header(m.stmt) == Header(nodes[i].stmt)
    {
      var m := NonImportSurvivesAt(nodes, i);
    }
  }

  lemma NonImportSurvivesAt(nodes: seq<Node>, i: nat) returns (m: Node)
    requires DistinctIds(nodes) && i < |nodes| && !IsImport(nodes[i].stmt)
    ensures m.id == nodes[i].id && Header(m.stmt) == Header(nodes[i].stmt)
    ensures m in OptimizeAsWritten(nodes) && m in OptimizeCorrected(nodes)
  {
    var (st, body) := VisitTop(Initial, nodes);
    var ref := FirstCopies(nodes);
    FirstPassKeepsFirstCopies(nodes);
    FirstCopiesIff(nodes);
    assert nodes[i] in ref;
    var p :| 0 <= p < |ref| && ref[p] == nodes[i];
    m := body[p];
    assert m.id == nodes[i].id && Header(m.stmt) == Header(nodes[i].stmt);
    VisitTopRefs(nodes);
    NotRemoved(st, nodes, i);
    AsWrittenRemoval(nodes);
    KeepUsedFacts(body, st.used);
  }

  /** A node whose identity is that of a statement that is not an import is
      never the recorded node of a name. */
  lemma NotRemoved(st: OptState, nodes: seq<Node>, i: nat)
    requires DistinctIds(nodes) && i < |nodes| && !IsImport(nodes[i].stmt)
    requires RefsToImports(st, nodes)
    ensures !RemovedBy(st, st.keys, nodes[i].id)
  {
    forall k | k in st.keys && k in st.nodes && k !in st.used
      ensures st.nodes[k] != TopLevel(nodes[i].id)
    {
      if st.nodes[k] == TopLevel(nodes[i].id) {
        assert false;
      }
    }
  }


  ghost function Ids(nodes: seq<Node>): set<nat>
  {
    set m | m in nodes :: m.id
  }

  lemma IdsSnoc(init: seq<Node>, n: Node)
    ensures Ids(init + [n]) == Ids(init) + {n.id}
  {
    assert forall m | m in init + [n] :: m in init || m == n;
  }

  /** The last node's identity is none of the earlier ones'. */
  lemma LastIdFresh(nodes: seq<Node>)
    requires nodes != [] && DistinctIds(nodes)
    ensures nodes[|nodes| - 1].id !in Ids(nodes[..|nodes| - 1])
  {
    var init := nodes[..|nodes| - 1];
    forall m | m in init
      ensures m.id != nodes[|nodes| - 1].id
    {
      var j :| 0 <= j < |init| && init[j] == m;
      assert nodes[j] == m;
    }
  }

  /** The first pass keeps the order and identities of the top-level nodes it
      keeps, so identities stay distinct. */
  lemma {:induction false} VisitTopIds(st: OptState, nodes: seq<Node>)
    requires DistinctIds(nodes)
    ensures DistinctIds(VisitTop(st, nodes).1)
    ensures forall m | m in VisitTop(st, nodes).1 :: m.id in Ids(nodes)
  {
    if nodes != [] {
      var init := nodes[..|nodes| - 1];
      var n := nodes[|nodes| - 1];
      assert nodes == init + [n];
      assert DistinctIds(init);
      VisitTopIds(st, init);
      VisitTopSnoc(st, init, n);
      var (st1, prefix) := VisitTop(st, init);
      var r := VisitStmt(st1, n.stmt, TopLevel(n.id)).1;
      IdsSnoc(init, n);
      LastIdFresh(nodes);
      AppendFreshId(prefix, if r.Some? then [Node(n.id, r.value)] else [], Ids(init), n.id);
    }
  }

  lemma AppendFreshId(prefix: seq<Node>, tail: seq<Node>, ids: set<nat>, id: nat)
    requires DistinctIds(prefix) && forall m | m in prefix :: m.id in ids
    requires id !in ids && |tail| <= 1 && forall m | m in tail :: m.id == id
    ensures DistinctIds(prefix + tail)
    ensures forall m | m in prefix + tail :: m.id in ids + {id}
  {
    var body := prefix + tail;
    forall i, j | 0 <= i < j < |body|
      ensures body[i].id != body[j].id
    {
      assert body[i] == prefix[i] && prefix[i] in prefix;
      if j < |prefix| {
        assert body[j] == prefix[j];
      } else {
        assert body[j] == tail[j - |prefix|] && tail[j - |prefix|] in tail;
      }
    }
  }

  lemma {:induction false} RemoveRefFacts(body: seq<Node>, ref: NodeRef)
    requires DistinctIds(body)
    ensures DistinctIds(RemoveRef(body, ref))
    ensures forall n :: n in RemoveRef(body, ref) <==> n in body && !(ref.TopLevel? && n.id == ref.id)
  {
    if ref.TopLevel? && body != [] {
      var rest := body[1..];
      DistinctTail(body);
      if body[0].id != ref.id {
        RemoveRefFacts(rest, ref);
        assert RemoveRef(body, ref) == [body[0]] + RemoveRef(rest, ref);
        DistinctCons(body[0], RemoveRef(rest, ref));
      }
    }
  }

  /** Past a node of another identity, `RemoveRef` keeps that node. */
  lemma RemoveRefSkip(body: seq<Node>, ref: NodeRef, i: nat)
    requires ref.TopLevel? && i < |body| && body[i].id != ref.id
    ensures body[..i] + RemoveRef(body[i..], ref) == body[..i + 1] + RemoveRef(body[i + 1..], ref)
  {
    assert body[i..][1..] == body[i + 1..];
    assert body[..i + 1] == body[..i] + [body[i]];
  }

  /** At the first node of that identity, `RemoveRef` drops just that node. */
  lemma RemoveRefHit(body: seq<Node>, ref: NodeRef, i: nat)
    requires ref.TopLevel? && i < |body| && body[i].id == ref.id
    ensures RemoveRef(body[i..], ref) == body[i + 1..]
  {
    assert body[i..][1..] == body[i + 1..];
  }

  /** The tail of a body with distinct identities has them too, and none of
      them is the head's. */
  lemma DistinctTail(body: seq<Node>)
    requires body != [] && DistinctIds(body)
    ensures DistinctIds(body[1..])
    ensures forall m | m in body[1..] :: m.id != body[0].id
    ensures forall m | m in body :: m == body[0] || m in body[1..]
  {
    forall m | m in body[1..]
      ensures m.id != body[0].id
    {
      var j :| 0 <= j < |body[1..]| && body[1..][j] == m;
      assert body[j + 1] == m;
    }
  }

  /** Prepending a node whose identity is new keeps the identities distinct. */
  lemma DistinctCons(x: Node, r: seq<Node>)
    requires DistinctIds(r)
    requires forall m | m in r :: m.id != x.id
    ensures DistinctIds([x] + r)
  {
    var s := [x] + r;
    forall i, j | 0 <= i < j < |s|
      ensures s[i].id != s[j].id
    {
      if i == 0 {
        assert s[j] == r[j - 1] && r[j - 1] in r;
      } else {
        assert s[i] == r[i - 1] && s[j] == r[j - 1];
      }
    }
  }

  /** The names whose recorded node the second pass removes: recorded, never
      occurring, and (last writer) pointing at this node. */
  ghost predicate RemovedBy(st: OptState, keys: seq<string>, id: nat)
  {
    exists k | k in keys && k in st.nodes :: k !in st.used && st.nodes[k] == TopLevel(id)
  }

  lemma {:induction false} RemoveUnusedFacts(body: seq<Node>, st: OptState, keys: seq<string>)
    requires forall k | k in keys :: k in st.nodes
    requires DistinctIds(body)
    ensures DistinctIds(RemoveUnused(body, st, keys))
    ensures forall n :: n in RemoveUnused(body, st, keys) <==> n in body && !RemovedBy(st, keys, n.id)
  {
    if keys != [] {
      var init := keys[..|keys| - 1];
      var k := keys[|keys| - 1];
      assert forall x | x in keys :: x in init || x == k;
      assert forall x | x in init :: x in keys;
      RemoveUnusedFacts(body, st, init);
      var prev := RemoveUnused(body, st, init);
      if k !in st.used {
        RemoveRefFacts(prev, st.nodes[k]);
        forall n | n in body && RemovedBy(st, keys, n.id) && !RemovedBy(st, init, n.id)
          ensures st.nodes[k] == TopLevel(n.id)
        {
        }
      }
    }
  }

  /** `optimize_imports` as written: a top-level node is left exactly when the
      first pass kept it and no recorded name that never occurs has it as its
      (last) recorded node. */
  lemma AsWrittenRemoval(nodes: seq<Node>)
    requires DistinctIds(nodes)
    ensures var (st, body) := VisitTop(Initial, nodes);
      forall n :: n in OptimizeAsWritten(nodes) <==> n in body && !RemovedBy(st, st.keys, n.id)
  {
    var (st, body) := VisitTop(Initial, nodes);
    RegisterValid(Initial, nodes);
    VisitTopIds(Initial, nodes);
    RemoveUnusedFacts(body, st, st.keys);
  }

  /** `optimize_imports` corrected: a top-level node the first pass kept is left
      exactly when it is not an import or some name it binds occurs, so no name
      in use loses its import. */
  lemma CorrectedKeepsUsedImports(nodes: seq<Node>)
    ensures var (st, body) := VisitTop(Initial, nodes);
      && (forall n | n in OptimizeCorrected(nodes) :: n in body)
      && (forall n | n in body ::
            n in OptimizeCorrected(nodes) <==>
              (!IsImport(n.stmt) || exists i | 0 <= i < |n.stmt.names| :: Binding(n.stmt, n.stmt.names[i]) in st.used))
  {
    var (st, body) := VisitTop(Initial, nodes);
    KeepUsedFacts(body, st.used);
  }

  // ---------------------------------------------------------------------------
  // Small modules.

  lemma VisitTopStep(st: OptState, init: seq<Node>, n: Node, st1: OptState, prefix: seq<Node>, st2: OptState, r: Option<Stmt>)
    requires VisitTop(st, init) == (st1, prefix)
    requires VisitStmt(st1, n.stmt, TopLevel(n.id)) == (st2, r)
    ensures VisitTop(st, init + [n]) == (st2, prefix + if r.Some? then [Node(n.id, r.value)] else [])
  {
    VisitTopSnoc(st, init, n);
  }

  lemma VisitBodyStep(st: OptState, init: seq<Stmt>, x: Stmt, st1: OptState, prefix: seq<Stmt>, st2: OptState, r: Option<Stmt>)
    requires VisitBody(st, init) == (st1, prefix)
    requires VisitStmt(st1, x, Nested) == (st2, r)
    ensures VisitBody(st, init + [x]) == (st2, prefix + if r.Some? then [r.value] else [])
  {
    VisitBodySnoc(st, init, x);
  }

  lemma RegisterOne(st: OptState, name: string, ref: NodeRef)
    ensures Register(st, [name], ref) == st.(keys := AddUnique(st.keys, name), nodes := st.nodes[name := ref])
  {
    assert [name][..0] == [];
  }

  lemma RemoveUnusedStep(body: seq<Node>, st: OptState, keys: seq<string>, k: string)
    requires forall x | x in keys + [k] :: x in st.nodes
    ensures RemoveUnused(body, st, keys + [k]) ==
      var prev := RemoveUnused(body, st, keys); if k in st.used then prev else RemoveRef(prev, st.nodes[k])
  {
    assert (keys + [k])[..|keys + [k]| - 1] == keys;
  }

  /** The first pass over a new `import name` at the top level. */
  lemma PlainImportStep(st: OptState, name: string, id: nat)
    requires PlainKey(multiset{name}) !in st.seen && name !in st.keys
    ensures VisitStmt(st, Import([Alias(name, None)]), TopLevel(id)) ==
      (st.(keys := st.keys + [name], nodes := st.nodes[name := TopLevel(id)], seen := st.seen + {PlainKey(multiset{name})}),
       Some(Import([Alias(name, None)])))
  {
    var imp := Import([Alias(name, None)]);
    assert BoundNames(imp.names) == [name];
    assert multiset([name]) == multiset{name};
    RegisterOne(st.(seen := st.seen + {PlainKey(multiset{name})}), name, TopLevel(id));
  }

  /** The first pass over a statement that is not an import leaves the rest of
      the state alone. */
  lemma OtherStmtStep(st: OptState, s: Stmt, id: nat, used: set<string>)
    requires s.Assign? || s.ExprStmt?
    requires used == if s.Assign? then NamesOfExprs(s.targets) + NamesOfExpr(s.value) else NamesOfExpr(s.value)
    ensures VisitStmt(st, s, TopLevel(id)) == (st.(used := st.used + used), Some(s))
  {
    if s.Assign? {
      assert st.used + used == st.used + NamesOfExprs(s.targets) + NamesOfExpr(s.value);
    }
  }

  /** The first pass over one top-level statement that it keeps. */
  lemma VisitTopOneKept(n0: Node, st1: OptState)
    requires VisitStmt(Initial, n0.stmt, TopLevel(n0.id)) == (st1, Some(n0.stmt))
    ensures VisitTop(Initial, [n0]) == (st1, [n0])
  {
    var empty: seq<Node> := [];
    VisitTopSnoc(Initial, empty, n0);
    assert empty + [n0] == [n0];
  }

  /** The first pass over two top-level statements that it both keeps. */
  lemma VisitTopTwoKept(n0: Node, n1: Node, st1: OptState, st2: OptState)
    requires VisitStmt(Initial, n0.stmt, TopLevel(n0.id)) == (st1, Some(n0.stmt))
    requires VisitStmt(st1, n1.stmt, TopLevel(n1.id)) == (st2, Some(n1.stmt))
    ensures VisitTop(Initial, [n0, n1]) == (st2, [n0, n1])
  {
    VisitTopOneKept(n0, st1);
    VisitTopSnoc(Initial, [n0], n1);
    assert [n0] + [n1] == [n0, n1];
  }

  /** The corrected second pass keeps two statements that are not unused imports. */
  lemma KeepTwo(n0: Node, n1: Node, used: set<string>)
    requires !UnusedImport(n0.stmt, used) && !UnusedImport(n1.stmt, used)
    ensures KeepUsed([n0, n1], used) == [n0, n1]
  {
    var empty: seq<Node> := [];
    KeepUsedSnoc(empty, n0, used);
    assert empty + [n0] == [n0];
    KeepUsedSnoc([n0], n1, used);
    assert [n0] + [n1] == [n0, n1];
  }

  /** The first pass over a new `import name` as the first statement. */
  lemma FirstPlainImport(name: string, id: nat)
    ensures VisitStmt(Initial, Import([Alias(name, None)]), TopLevel(id)) ==
      (OptState({}, [name], map[name := TopLevel(id)], {PlainKey(multiset{name})}), Some(Import([Alias(name, None)])))
  {
    PlainImportStep(Initial, name, id);
    var noKeys: seq<string> := [];
    assert noKeys + [name] == [name];
    assert Initial.seen + {PlainKey(multiset{name})} == {PlainKey(multiset{name})};
  }

  /** `[Name(x, Store)]` holds the one name `x`. */
  lemma OneTargetNames(x: string)
    ensures NamesOfExprs([Name(x, Store)]) == {x}
  {
    assert [Name(x, Store)][..0] == [];
  }

  /** The first pass over `import b` after `import a`. */
  lemma SecondPlainImport(a: string, b: string)
    requires a != b
    ensures VisitStmt(OptState({}, [a], map[a := TopLevel(0)], {PlainKey(multiset{a})}), Import([Alias(b, None)]), TopLevel(1)) ==
      (OptState({}, [a, b], map[a := TopLevel(0), b := TopLevel(1)], {PlainKey(multiset{a}), PlainKey(multiset{b})}),
       Some(Import([Alias(b, None)])))
  {
    var st1 := OptState({}, [a], map[a := TopLevel(0)], {PlainKey(multiset{a})});
    var st2 := OptState({}, [a, b], map[a := TopLevel(0), b := TopLevel(1)], {PlainKey(multiset{a}), PlainKey(multiset{b})});
    assert multiset{a} != multiset{b} by { assert a in multiset{a}; }
    PlainImportStep(st1, b, 1);
    assert st1.keys + [b] == st2.keys;
    assert st1.seen + {PlainKey(multiset{b})} == st2.seen;
    assert st1.nodes[b := TopLevel(1)] == st2.nodes;
  }

  /** The first pass over `import a`, `import b`: both are kept and recorded. */
  lemma TwoImportsVisit(a: string, b: string)
    requires a != b
    ensures VisitTop(Initial, [Node(0, Import([Alias(a, None)])), Node(1, Import([Alias(b, None)]))]) ==
      (OptState({}, [a, b], map[a := TopLevel(0), b := TopLevel(1)], {PlainKey(multiset{a}), PlainKey(multiset{b})}),
       [Node(0, Import([Alias(a, None)])), Node(1, Import([Alias(b, None)]))])
  {
    FirstPlainImport(a, 0);
    SecondPlainImport(a, b);
    VisitTopTwoKept(Node(0, Import([Alias(a, None)])), Node(1, Import([Alias(b, None)])),
      OptState({}, [a], map[a := TopLevel(0)], {PlainKey(multiset{a})}),
      OptState({}, [a, b], map[a := TopLevel(0), b := TopLevel(1)], {PlainKey(multiset{a}), PlainKey(multiset{b})}));
  }

  /** The first pass over `import a`, `import b`, `x = 1`: every statement is
      kept, both imports are recorded and `x` occurs. */
  lemma UnusedImportsVisit(a: string, b: string, x: string, st3: OptState)
    requires a != b
    requires st3 == OptState({x}, [a, b], map[a := TopLevel(0), b := TopLevel(1)], {PlainKey(multiset{a}), PlainKey(multiset{b})})
    ensures var nodes := [Node(0, Import([Alias(a, None)])), Node(1, Import([Alias(b, None)])), Node(2, Assign([Name(x, Store)], Constant("1")))];
      VisitTop(Initial, nodes) == (st3, nodes)
  {
    var first := [Node(0, Import([Alias(a, None)])), Node(1, Import([Alias(b, None)]))];
    var n2 := Node(2, Assign([Name(x, Store)], Constant("1")));
    var st2 := st3.(used := {});
    TwoImportsVisit(a, b);
    OneTargetNames(x);
    OtherStmtStep(st2, n2.stmt, 2, {x});
    assert st2.(used := st2.used + {x}) == st3;
    VisitTopStep(Initial, first, n2, st2, first, st3, Some(n2.stmt));
    assert first + [n2] == [Node(0, Import([Alias(a, None)])), Node(1, Import([Alias(b, None)])), n2];
  }

  /** `import a`, `import b`, `x = 1` with three different names (the test
      uses `os`, `sys` and `x`): both imports go, the assignment stays. */
  lemma UnusedImportsRemoved(a: string, b: string, x: string)
    requires a != b && x != a && x != b
    ensures OptimizeAsWritten([Node(0, Import([Alias(a, None)])), Node(1, Import([Alias(b, None)])), Node(2, Assign([Name(x, Store)], Constant("1")))])
         == [Node(2, Assign([Name(x, Store)], Constant("1")))]
  {
    var nodes := [Node(0, Import([Alias(a, None)])), Node(1, Import([Alias(b, None)])), Node(2, Assign([Name(x, Store)], Constant("1")))];
    var st3 := OptState({x}, [a, b], map[a := TopLevel(0), b := TopLevel(1)], {PlainKey(multiset{a}), PlainKey(multiset{b})});
    UnusedImportsVisit(a, b, x, st3);
    RemoveFirstTwo(nodes, st3, a, b);
    assert nodes[2..] == [Node(2, Assign([Name(x, Store)], Constant("1")))];
  }

  /** Two unused names recorded with the first two nodes of three remove both. */
  lemma RemoveFirstTwo(nodes: seq<Node>, st: OptState, a: string, b: string)
    requires |nodes| == 3 && nodes[0].id == 0 && nodes[1].id == 1
    requires a in st.nodes && b in st.nodes && st.nodes[a] == TopLevel(0) && st.nodes[b] == TopLevel(1)
    requires a !in st.used && b !in st.used
    ensures RemoveUnused(nodes, st, [a, b]) == nodes[2..]
  {
    var noKeys: seq<string> := [];
    RemoveUnusedStep(nodes, st, noKeys, a);
    assert noKeys + [a] == [a];
    assert RemoveRef(nodes, TopLevel(0)) == nodes[1..];
    RemoveUnusedStep(nodes, st, [a], b);
    assert [a] + [b] == [a, b];
    assert RemoveRef(nodes[1..], TopLevel(1)) == nodes[2..];
  }

  /** `import a` twice (the test uses `os`): one key is seen and the second
      import is dropped. */
  lemma DuplicateImportDropped(a: string)
    ensures var (st, body) := VisitTop(Initial, [Node(0, Import([Alias(a, None)])), Node(1, Import([Alias(a, None)]))]);
      |st.seen| == 1 && body == [Node(0, Import([Alias(a, None)]))]
  {
    var i0 := Import([Alias(a, None)]);
    var n0 := Node(0, i0);
    var n1 := Node(1, i0);
    var st1 := OptState({}, [a], map[a := TopLevel(0)], {PlainKey(multiset{a})});
    FirstPlainImport(a, 0);
    assert VisitStmt(st1, i0, TopLevel(1)) == (st1, None) by {
      assert BoundNames(i0.names) == [a];
    }
    VisitTopKeptDropped(n0, n1, st1);
  }

  /** The first pass over two top-level statements, keeping the first and
      dropping the second. */
  lemma VisitTopKeptDropped(n0: Node, n1: Node, st1: OptState)
    requires VisitStmt(Initial, n0.stmt, TopLevel(n0.id)) == (st1, Some(n0.stmt))
    requires VisitStmt(st1, n1.stmt, TopLevel(n1.id)) == (st1, None)
    ensures VisitTop(Initial, [n0, n1]) == (st1, [n0])
  {
    VisitTopOneKept(n0, st1);
    VisitTopStep(Initial, [n0], n1, st1, [n0], st1, None);
    assert [n0] + [n1] == [n0, n1];
    assert [n0] + [] == [n0];
  }

  // ---------------------------------------------------------------------------
  // The removal rule as written drops imports that are in use.

  /** The names and the key of `from m import a, b`. */
  lemma TwoAliasKey(m: Option<string>, a: string, b: string)
    ensures BoundNames([Alias(a, None), Alias(b, None)]) == [a, b]
    ensures KeyOf(ImportFrom(m, [Alias(a, None), Alias(b, None)])) == FromKey(m, multiset{a, b})
  {
    assert AliasNames([Alias(a, None), Alias(b, None)]) == [a, b];
    assert multiset([a, b]) == multiset{a, b};
  }

  lemma RegisterSnoc(st: OptState, names: seq<string>, name: string, ref: NodeRef)
    ensures Register(st, names + [name], ref) ==
      var prev := Register(st, names, ref); prev.(keys := AddUnique(prev.keys, name), nodes := prev.nodes[name := ref])
  {
    assert (names + [name])[..|names|] == names;
  }

  /** The first pass over a new `from m import a, b` at the top level. */
  lemma TwoNameImportStep(st: OptState, m: Option<string>, a: string, b: string, id: nat)
    requires a != b && a !in st.keys && b !in st.keys
    requires FromKey(m, multiset{a, b}) !in st.seen
    ensures VisitStmt(st, ImportFrom(m, [Alias(a, None), Alias(b, None)]), TopLevel(id)) ==
      (st.(keys := st.keys + [a, b], nodes := st.nodes[a := TopLevel(id)][b := TopLevel(id)], seen := st.seen + {FromKey(m, multiset{a, b})}),
       Some(ImportFrom(m, [Alias(a, None), Alias(b, None)])))
  {
    TwoAliasKey(m, a, b);
    RegisterTwo(st.(seen := st.seen + {FromKey(m, multiset{a, b})}), a, b, TopLevel(id));
  }

  /** Recording one more name of a list. */
  lemma RegisterPrefixStep(st: OptState, names: seq<string>, i: nat, ref: NodeRef)
    requires i < |names|
    ensures Register(st, names[..i + 1], ref) ==
      var prev := Register(st, names[..i], ref); prev.(keys := AddUnique(prev.keys, names[i]), nodes := prev.nodes[names[i] := ref])
  {
    RegisterSnoc(st, names[..i], names[i], ref);
    assert names[..i + 1] == names[..i] + [names[i]];
  }

  /** Recording two new names. */
  lemma RegisterTwo(st: OptState, a: string, b: string, ref: NodeRef)
    requires a != b && a !in st.keys && b !in st.keys
    ensures Register(st, [a, b], ref) == st.(keys := st.keys + [a, b], nodes := st.nodes[a := ref][b := ref])
  {
    RegisterOne(st, a, ref);
    RegisterSnoc(st, [a], b, ref);
    assert [a] + [b] == [a, b];
    assert st.keys + [a] + [b] == st.keys + [a, b];
  }

  /** The first pass over `from m import a, b` followed by `a('{}')`. */
  lemma SiblingFirstPass(m: Option<string>, a: string, b: string)
    requires a != b
    ensures var nodes := [Node(0, ImportFrom(m, [Alias(a, None), Alias(b, None)])),
                          Node(1, ExprStmt(Call(Name(a, Load), [Constant("'{}'")], [])))];
      VisitTop(Initial, nodes) == (OptState({a}, [a, b], map[a := TopLevel(0), b := TopLevel(0)], {FromKey(m, multiset{a, b})}), nodes)
  {
    var imp := ImportFrom(m, [Alias(a, None), Alias(b, None)]);
    var use := ExprStmt(Call(Name(a, Load), [Constant("'{}'")], []));
    var noKeys: seq<string> := [];
    var st1 := OptState({}, [a, b], map[a := TopLevel(0), b := TopLevel(0)], {FromKey(m, multiset{a, b})});
    TwoNameImportStep(Initial, m, a, b, 0);
    assert noKeys + [a, b] == [a, b];
    assert Initial.seen + {FromKey(m, multiset{a, b})} == st1.seen;
    assert Initial.nodes[a := TopLevel(0)][b := TopLevel(0)] == st1.nodes;
    assert NamesOfExpr(use.value) == {a} by {
      assert [Constant("'{}'")][..0] == [];
      assert NamesOfExprs([Constant("'{}'")]) == {};
    }
    OtherStmtStep(st1, use, 1, {a});
    assert st1.used + {a} == {a};
    VisitTopTwoKept(Node(0, imp), Node(1, use), st1, st1.(used := {a}));
  }

  /** `from m import a, b` followed by `a('{}')`: `b` never occurs, so the whole
      statement goes and `a`, which is in use, is left unbound. */
  lemma SiblingNameUnusedRemovesImport(m: Option<string>, a: string, b: string)
    requires a != b
    ensures var nodes := [Node(0, ImportFrom(m, [Alias(a, None), Alias(b, None)])),
                          Node(1, ExprStmt(Call(Name(a, Load), [Constant("'{}'")], [])))];
      && OptimizeAsWritten(nodes) == [nodes[1]]
      && a in VisitTop(Initial, nodes).0.used
      && OptimizeCorrected(nodes) == nodes
  {
    var imp := ImportFrom(m, [Alias(a, None), Alias(b, None)]);
    var n0 := Node(0, imp);
    var n1 := Node(1, ExprStmt(Call(Name(a, Load), [Constant("'{}'")], [])));
    var nodes := [n0, n1];
    var st2 := OptState({a}, [a, b], map[a := TopLevel(0), b := TopLevel(0)], {FromKey(m, multiset{a, b})});
    SiblingFirstPass(m, a, b);
    SiblingAsWritten(nodes, st2, a, b);
    assert Binding(imp, imp.names[0]) == a;
    assert !UnusedImport(imp, {a});
    KeepTwo(n0, n1, {a});
  }

  /** The second pass as written over the sibling example: `a` is in use, `b`
      is not, and `b`'s node is the import. */
  lemma SiblingAsWritten(nodes: seq<Node>, st2: OptState, a: string, b: string)
    requires |nodes| == 2 && nodes[0].id == 0 && nodes[1].id == 1
    requires a != b && st2.keys == [a, b] && st2.used == {a}
    requires a in st2.nodes && b in st2.nodes && st2.nodes[b] == TopLevel(0)
    ensures RemoveUnused(nodes, st2, st2.keys) == [nodes[1]]
  {
    var noKeys: seq<string> := [];
    RemoveUnusedStep(nodes, st2, noKeys, a);
    assert noKeys + [a] == [a];
    RemoveUnusedStep(nodes, st2, [a], b);
    assert [a] + [b] == st2.keys;
    assert RemoveRef(nodes, TopLevel(0)) == [nodes[1]];
  }

  lemma TopNameOfDotted(p: string, q: string)
    requires '.' !in p
    ensures TopName(p + "." + q) == p
  {
    if p != [] {
      assert (p + "." + q)[1..] == p[1..] + "." + q;
      TopNameOfDotted(p[1..], q);
    } else {
      assert (p + "." + q)[0] == '.';
    }
  }

  /** `NamesOfExpr` of `p.q.join('a')` is `{p}`. */
  lemma DottedCallNames(p: string, q: string)
    ensures NamesOfExpr(Call(Attribute(Attribute(Name(p, Load), q), "join"), [Constant("'a'")], [])) == {p}
  {
    assert [Constant("'a'")][..0] == [];
    assert NamesOfExprs([Constant("'a'")]) == {};
    assert NamesOfExpr(Attribute(Name(p, Load), q)) == {p};
    assert NamesOfKeywords([]) == {};
  }

  /** The first pass over `import p.q` followed by `p.q.join('a')`. */
  lemma DottedFirstPass(p: string, q: string)
    ensures var nodes := [Node(0, Import([Alias(p + "." + q, None)])),
                          Node(1, ExprStmt(Call(Attribute(Attribute(Name(p, Load), q), "join"), [Constant("'a'")], [])))];
      VisitTop(Initial, nodes) == (OptState({p}, [p + "." + q], map[p + "." + q := TopLevel(0)], {PlainKey(multiset{p + "." + q})}), nodes)
  {
    var full := p + "." + q;
    var use := ExprStmt(Call(Attribute(Attribute(Name(p, Load), q), "join"), [Constant("'a'")], []));
    var st1 := OptState({}, [full], map[full := TopLevel(0)], {PlainKey(multiset{full})});
    FirstPlainImport(full, 0);
    DottedCallNames(p, q);
    OtherStmtStep(st1, use, 1, {p});
    assert st1.used + {p} == {p};
    VisitTopTwoKept(Node(0, Import([Alias(full, None)])), Node(1, use), st1, st1.(used := {p}));
  }

  /** `import p.q` followed by `p.q.join('a')`: the name recorded is "p.q", which
      never occurs as a name (the name in use is `p`), so the import goes and
      `p` is left unbound. */
  lemma DottedImportRemoved(p: string, q: string)
    requires '.' !in p
    ensures var nodes := [Node(0, Import([Alias(p + "." + q, None)])),
                          Node(1, ExprStmt(Call(Attribute(Attribute(Name(p, Load), q), "join"), [Constant("'a'")], [])))];
      && OptimizeAsWritten(nodes) == [nodes[1]]
      && p in VisitTop(Initial, nodes).0.used
      && OptimizeCorrected(nodes) == nodes
  {
    var full := p + "." + q;
    var imp := Import([Alias(full, None)]);
    var n0 := Node(0, imp);
    var n1 := Node(1, ExprStmt(Call(Attribute(Attribute(Name(p, Load), q), "join"), [Constant("'a'")], [])));
    var nodes := [n0, n1];
    var st2 := OptState({p}, [full], map[full := TopLevel(0)], {PlainKey(multiset{full})});
    DottedFirstPass(p, q);
    assert |full| > |p|;
    var noKeys: seq<string> := [];
    RemoveUnusedStep(nodes, st2, noKeys, full);
    assert noKeys + [full] == st2.keys;
    assert RemoveRef(nodes, TopLevel(0)) == [n1];
    TopNameOfDotted(p, q);
    assert !UnusedImport(imp, {p});
    KeepTwo(n0, n1, {p});
  }

  lemma VisitBodySnoc(st: OptState, ss: seq<Stmt>, x: Stmt)
    ensures VisitBody(st, ss + [x]) ==
      (VisitStmt(VisitBody(st, ss).0, x, Nested).0,
       VisitBody(st, ss).1 + (var r := VisitStmt(VisitBody(st, ss).0, x, Nested).1; if r.Some? then [r.value] else []))
  {
    assert (ss + [x])[..|ss + [x]| - 1] == ss;
  }

  lemma VisitTopSnoc(st: OptState, nodes: seq<Node>, n: Node)
    ensures VisitTop(st, nodes + [n]) ==
      (VisitStmt(VisitTop(st, nodes).0, n.stmt, TopLevel(n.id)).0,
       VisitTop(st, nodes).1 + (var r := VisitStmt(VisitTop(st, nodes).0, n.stmt, TopLevel(n.id)).1; if r.Some? then [Node(n.id, r.value)] else []))
  {
    assert (nodes + [n])[..|nodes + [n]| - 1] == nodes;
  }

  lemma KeepUsedSnoc(body: seq<Node>, n: Node, used: set<string>)
    ensures KeepUsed(body + [n], used) == KeepUsed(body, used) + (if UnusedImport(n.stmt, used) then [] else [n])
  {
    assert (body + [n])[..|body + [n]| - 1] == body;
  }

  /** The filtering loop of the corrected second pass. */
  method KeepUsedNodes(body: seq<Node>, used: set<string>) returns (kept: seq<Node>)
    ensures kept == KeepUsed(body, used)
  {
    kept := [];
    for i := 0 to |body|
      invariant kept == KeepUsed(body[..i], used)
    {
      assert body[..i + 1] == body[..i] + [body[i]];
      KeepUsedSnoc(body[..i], body[i], used);
      var unused := IsUnusedImport(body[i].stmt, used);
      if !unused {
        kept := kept + [body[i]];
      }
    }
    assert body[..|body|] == body;
  }

  // ---------------------------------------------------------------------------
  // The in-place form: the module's body is a list that both passes change.

  class ModuleTree {
    var body: seq<Node>

    constructor(body: seq<Node>)
      ensures this.body == body
    {
      this.body := body;
    }

    /** `body.remove(node)`; `found` is false where Python raises ValueError. */
    method Remove(ref: NodeRef) returns (found: bool)
      modifies this
      ensures body == RemoveRef(old(body), ref)
      ensures found <==> ref.TopLevel? && exists i | 0 <= i < |old(body)| :: old(body)[i].id == ref.id
    {
      if ref.Nested? {
        return false;
      }
      var i := 0;
      while i < |body| && body[i].id != ref.id
        invariant body == old(body)
        invariant 0 <= i <= |body|
        invariant forall j | 0 <= j < i :: body[j].id != ref.id
        invariant RemoveRef(body, ref) == body[..i] + RemoveRef(body[i..], ref)
      {
        RemoveRefSkip(body, ref, i);
        i := i + 1;
      }
      if i == |body| {
        assert body[i..] == [];
        assert body[..i] == body;
        return false;
      }
      assert body[i].id == ref.id;
      RemoveRefHit(body, ref, i);
      body := body[..i] + body[i + 1..];
      return true;
    }
  }

  class ImportOptimizer {
    var usedNames: set<string>
    var importedKeys: seq<string>
    var importedNodes: map<string, NodeRef>
    var seenImports: set<ImportKey>

    function State(): OptState
      reads this
    {
      OptState(usedNames, importedKeys, importedNodes, seenImports)
    }

    constructor()
      ensures State() == Initial
    {
      usedNames := {};
      importedKeys := [];
      importedNodes := map[];
      seenImports := {};
    }

    /** `visit_Import` and `visit_ImportFrom`. */
    method VisitImportNode(s: Stmt, ref: NodeRef) returns (keep: bool)
      requires IsImport(s)
      modifies this
      ensures (State(), keep) == VisitImport(old(State()), s, ref)
    {
      var key := KeyOf(s);
      if key in seenImports {
        return false;
      }
      seenImports := seenImports + {key};
      ghost var st0 := State();
      var bound := BoundNames(s.names);
      for i := 0 to |bound|
        invariant State() == Register(st0, bound[..i], ref)
      {
        importedKeys := AddUnique(importedKeys, bound[i]);
        importedNodes := importedNodes[bound[i] := ref];
        RegisterPrefixStep(st0, bound, i, ref);
      }
      assert bound[..|bound|] == bound;
      return true;
    }

    /** The generic visit of one statement; `None` when it is dropped. */
    method Visit(s: Stmt, ref: NodeRef) returns (r: Option<Stmt>)
      modifies this
      ensures (State(), r) == VisitStmt(old(State()), s, ref)
      decreases s, 1
    {
      match s {
        case Import(_) =>
          var keep := VisitImportNode(s, ref);
          r := if keep then Some(s) else None;
        case ImportFrom(_, _) =>
          var keep := VisitImportNode(s, ref);
          r := if keep then Some(s) else None;
        case FunctionDef(name, args, kwonly, defaults, body) =>
          usedNames := usedNames + NamesOfExprs(defaults);
          var body' := VisitStmts(body);
          r := Some(FunctionDef(name, args, kwonly, defaults, body'));
        case ClassDef(name, bases, body) =>
          usedNames := usedNames + NamesOfExprs(bases);
          var body' := VisitStmts(body);
          r := Some(ClassDef(name, bases, body'));
        case Assign(targets, value) =>
          usedNames := usedNames + NamesOfExprs(targets) + NamesOfExpr(value);
          r := Some(s);
        case ExprStmt(value) =>
          usedNames := usedNames + NamesOfExpr(value);
          r := Some(s);
        case Return(value) =>
          usedNames := usedNames + NamesOfExpr(value);
          r := Some(s);
        case Pass =>
          r := Some(s);
      }
    }

    /** A nested body: the statements kept, in order. */
    method VisitStmts(ss: seq<Stmt>) returns (kept: seq<Stmt>)
      modifies this
      ensures (State(), kept) == VisitBody(old(State()), ss)
      decreases ss, 0
    {
      ghost var st0 := State();
      kept := [];
      for i := 0 to |ss|
        invariant (State(), kept) == VisitBody(st0, ss[..i])
      {
        ghost var before := State();
        ghost var prev := kept;
        var r := Visit(ss[i], Nested);
        if r.Some? {
          kept := kept + [r.value];
        } else {
          assert kept == prev + [];
        }
        VisitBodyStep(st0, ss[..i], ss[i], before, prev, State(), r);
        assert ss[..i + 1] == ss[..i] + [ss[i]];
      }
      assert ss[..|ss|] == ss;
    }

    /** `self.visit(tree)` on the module: its body is replaced by the kept nodes. */
    method VisitModule(tree: ModuleTree)
      modifies this, tree
      ensures (State(), tree.body) == VisitTop(old(State()), old(tree.body))
    {
      ghost var st0 := State();
      var nodes := tree.body;
      var kept: seq<Node> := [];
      for i := 0 to |nodes|
        invariant (State(), kept) == VisitTop(st0, nodes[..i])
      {
        kept := VisitTopNode(st0, nodes[..i], nodes[i], kept);
        assert nodes[..i + 1] == nodes[..i] + [nodes[i]];
      }
      assert nodes[..|nodes|] == nodes;
      tree.body := kept;
    }

    /** One top-level node of the module: visited, and kept unless dropped. */
    method VisitTopNode(ghost st0: OptState, ghost init: seq<Node>, n: Node, kept: seq<Node>) returns (kept': seq<Node>)
      requires (State(), kept) == VisitTop(st0, init)
      modifies this
      ensures (State(), kept') == VisitTop(st0, init + [n])
    {
      ghost var before := State();
      var r := Visit(n.stmt, TopLevel(n.id));
      if r.Some? {
        kept' := kept + [Node(n.id, r.value)];
      } else {
        kept' := kept;
        assert kept' == kept + [];
      }
      VisitTopStep(st0, init, n, before, kept, State(), r);
    }

    /** `optimize_imports(tree)` as written. */
    method OptimizeImports(tree: ModuleTree)
      requires State() == Initial
      modifies this, tree
      ensures tree.body == OptimizeAsWritten(old(tree.body))
    {
      ghost var nodes := tree.body;
      VisitModule(tree);
      RegisterValid(Initial, nodes);
      var names := importedKeys;
      for i := 0 to |names|
        invariant State() == VisitTop(Initial, nodes).0
        invariant tree.body == RemoveUnused(VisitTop(Initial, nodes).1, State(), names[..i])
      {
        assert names[..i + 1][..i] == names[..i];
        var name := names[i];
        if name !in usedNames {
          var found := tree.Remove(importedNodes[name]);
        }
      }
      assert names[..|names|] == names;
    }

    /** `optimize_imports(tree)` with the intended removal rule: a top-level
        import goes only when none of the names it binds occurs. */
    method OptimizeImportsCorrected(tree: ModuleTree)
      requires State() == Initial
      modifies this, tree
      ensures tree.body == OptimizeCorrected(old(tree.body))
    {
      ghost var nodes := tree.body;
      VisitModule(tree);
      var kept := KeepUsedNodes(tree.body, usedNames);
      tree.body := kept;
    }
  }

  method IsUnusedImport(s: Stmt, used: set<string>) returns (b: bool)
    ensures b <==> UnusedImport(s, used)
  {
    if !IsImport(s) {
      return false;
    }
    for i := 0 to |s.names|
      invariant forall j | 0 <= j < i :: Binding(s, s.names[j]) !in used
    {
      if Binding(s, s.names[i]) in used {
        return false;
      }
    }
    return true;
  }
}

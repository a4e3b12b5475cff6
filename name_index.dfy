// The index from top-level and nested definition names to their AST nodes
// (uc_functions/visitors.py: ASTNameNodeMappingExtractor; uc_functions/inline.py:
// generate_ast_dict). The directory walk is given as data: each directory's
// path and its files, each file with its name and its parsed contents (absent
// when the file does not parse).

module NameIndex {
  import opened Util
  import opened PyAst

  /** The (name, node) pairs a statement records, in visiting order: a function
      or class records itself before anything nested in it; an assignment records
      itself only when it has exactly one target and that target is a name. */
  function DefsOfStmt(s: Stmt): seq<(string, Stmt)>
    decreases s
  {
    match s
    case FunctionDef(name, _, _, _, body) => [(name, s)] + DefsOf(body)
    case ClassDef(name, _, body) => [(name, s)] + DefsOf(body)
    case Assign(targets, _) =>
      if |targets| == 1 && targets[0].Name? then [(targets[0].id, s)] else []
    case _ => []
  }

  function DefsOf(ss: seq<Stmt>): seq<(string, Stmt)>
    decreases ss
  {
    if ss == [] then [] else DefsOf(ss[..|ss| - 1]) + DefsOfStmt(ss[|ss| - 1])
  }

  /** Storing the pairs one after the other into a dictionary. */
  function Record(m: map<string, Stmt>, ds: seq<(string, Stmt)>): map<string, Stmt>
  {
    if ds == [] then m else Record(m, ds[..|ds| - 1])[ds[|ds| - 1].0 := ds[|ds| - 1].1]
  }

  lemma {:induction false} RecordAppend(m: map<string, Stmt>, a: seq<(string, Stmt)>, b: seq<(string, Stmt)>)
    ensures Record(m, a + b) == Record(Record(m, a), b)
  {
    if b == [] {
      assert a + b == a;
    } else {
      assert (a + b)[..|a + b| - 1] == a + b[..|b| - 1];
      RecordAppend(m, a, b[..|b| - 1]);
    }
  }

  class ASTNameNodeMappingExtractor {
    var nameDict: map<string, Stmt>

    constructor()
      ensures nameDict == map[]
    {
      nameDict := map[];
    }

    method VisitStmt(s: Stmt)
      modifies this
      ensures nameDict == Record(old(nameDict), DefsOfStmt(s))
      decreases s, 1
    {
      ghost var d0 := nameDict;
      match s {
        case FunctionDef(name, _, _, _, body) =>
          nameDict := nameDict[name := s];
          VisitStmts(body);
          assert [(name, s)][..0] == [];
          RecordAppend(d0, [(name, s)], DefsOf(body));
        case ClassDef(name, _, body) =>
          nameDict := nameDict[name := s];
          VisitStmts(body);
          assert [(name, s)][..0] == [];
          RecordAppend(d0, [(name, s)], DefsOf(body));
        case Assign(targets, _) =>
          if |targets| == 1 && targets[0].Name? {
            nameDict := nameDict[targets[0].id := s];
            assert [(targets[0].id, s)][..0] == [];
          }
        case _ =>
      }
    }

    /** `visit(tree)`: every statement in order. */
    method VisitStmts(ss: seq<Stmt>)
      modifies this
      ensures nameDict == Record(old(nameDict), DefsOf(ss))
      decreases ss, 0
    {
      ghost var d0 := nameDict;
      for i := 0 to |ss|
        invariant nameDict == Record(d0, DefsOf(ss[..i]))
      {
        assert ss[..i + 1][..i] == ss[..i];
        VisitStmt(ss[i]);
        RecordAppend(d0, DefsOf(ss[..i]), DefsOfStmt(ss[i]));
      }
      assert ss[..|ss|] == ss;
    }
  }

  /** The dictionary a fresh extractor builds for one parsed file. */
  function NameDictOf(tree: seq<Stmt>): map<string, Stmt>
  {
    Record(map[], DefsOf(tree))
  }

  // ---------------------------------------------------------------------------
  // Properties of the extractor.

  /** The position of the last pair that names `n`, if any. */
  function LastIndexOf(ds: seq<(string, Stmt)>, n: string): (r: Option<nat>)
    ensures r.Some? ==> r.value < |ds| && ds[r.value].0 == n
    ensures r.Some? ==> forall j | r.value < j < |ds| :: ds[j].0 != n
    ensures r.None? ==> forall j | 0 <= j < |ds| :: ds[j].0 != n
  {
    if ds == [] then None
    else if ds[|ds| - 1].0 == n then Some(|ds| - 1)
    else LastIndexOf(ds[..|ds| - 1], n)
  }

  /** The last writer wins: a name maps to the node of its last pair, and keeps
      its old entry when no pair names it. */
  lemma {:induction false} RecordLastWriterWins(m: map<string, Stmt>, ds: seq<(string, Stmt)>, n: string)
    ensures match LastIndexOf(ds, n)
      case Some(i) => n in Record(m, ds) && Record(m, ds)[n] == ds[i].1
      case None => (n in Record(m, ds) <==> n in m) && (n in m ==> Record(m, ds)[n] == m[n])
  {
    if ds != [] && ds[|ds| - 1].0 != n {
      RecordLastWriterWins(m, ds[..|ds| - 1], n);
    }
  }

  /** The dictionary's keys are the old keys and the recorded names. */
  lemma {:induction false} RecordKeys(m: map<string, Stmt>, ds: seq<(string, Stmt)>)
    ensures Record(m, ds).Keys == m.Keys + set i | 0 <= i < |ds| :: ds[i].0
  {
    if ds != [] {
      var prefix := ds[..|ds| - 1];
      RecordKeys(m, prefix);
      assert (set i | 0 <= i < |ds| :: ds[i].0) == (set i | 0 <= i < |prefix| :: prefix[i].0) + {ds[|ds| - 1].0};
    }
  }

  /** Every recorded node is a definition of its name. */
  predicate Defines(s: Stmt, n: string)
  {
    || (s.FunctionDef? && s.name == n)
    || (s.ClassDef? && s.name == n)
    || (s.Assign? && |s.targets| == 1 && s.targets[0].Name? && s.targets[0].id == n)
  }

  lemma {:induction false} DefsDefine(s: Stmt)
    ensures forall i | 0 <= i < |DefsOfStmt(s)| :: Defines(DefsOfStmt(s)[i].1, DefsOfStmt(s)[i].0)
    decreases s
  {
    match s {
      case FunctionDef(_, _, _, _, body) =>
        AllDefsDefine(body);
        assert forall i | 1 <= i < |DefsOfStmt(s)| :: DefsOfStmt(s)[i] == DefsOf(body)[i - 1];
      case ClassDef(_, _, body) =>
        AllDefsDefine(body);
        assert forall i | 1 <= i < |DefsOfStmt(s)| :: DefsOfStmt(s)[i] == DefsOf(body)[i - 1];
      case _ =>
    }
  }

  lemma {:induction false} AllDefsDefine(ss: seq<Stmt>)
    ensures forall i | 0 <= i < |DefsOf(ss)| :: Defines(DefsOf(ss)[i].1, DefsOf(ss)[i].0)
    decreases ss
  {
    if ss != [] {
      var prefix := ss[..|ss| - 1];
      AllDefsDefine(prefix);
      DefsDefine(ss[|ss| - 1]);
      var a := DefsOf(prefix);
      var b := DefsOfStmt(ss[|ss| - 1]);
      assert forall i | |a| <= i < |a + b| :: (a + b)[i] == b[i - |a|];
    }
  }

  lemma {:induction false} RecordedNodesDefine(m: map<string, Stmt>, ds: seq<(string, Stmt)>)
    requires forall n | n in m :: Defines(m[n], n)
    requires forall i | 0 <= i < |ds| :: Defines(ds[i].1, ds[i].0)
    ensures forall n | n in Record(m, ds) :: Defines(Record(m, ds)[n], n)
  {
    if ds != [] {
      RecordedNodesDefine(m, ds[..|ds| - 1]);
    }
  }

  /** Each entry of a file's dictionary is a definition (function, class or
      single-name assignment) of its key. */
  lemma NameDictDefines(tree: seq<Stmt>)
    ensures forall n | n in NameDictOf(tree) :: Defines(NameDictOf(tree)[n], n)
  {
    AllDefsDefine(tree);
    RecordedNodesDefine(map[], DefsOf(tree));
  }

  /** A name assigned inside a function overrides the function's own entry:
      `def f(): f = 1` maps "f" to the assignment. */
  lemma NestedDefinitionOverrides(value: Expr)
    ensures var inner := Assign([Name("f", Store)], value);
      NameDictOf([FunctionDef("f", [], [], [], [inner])]) == map["f" := inner]
  {
    var inner := Assign([Name("f", Store)], value);
    var outer := FunctionDef("f", [], [], [], [inner]);
    assert [inner][..0] == [];
    assert DefsOf([inner]) == [("f", inner)];
    assert [outer][..0] == [];
    assert DefsOf([outer]) == [("f", outer), ("f", inner)];
    assert [("f", outer), ("f", inner)][..1] == [("f", outer)];
    assert [("f", outer)][..0] == [];
    assert Record(map[], [("f", outer)]) == map["f" := outer];
    assert Record(map[], [("f", outer), ("f", inner)]) == map["f" := outer]["f" := inner];
  }

  /** `def foo(): pass`, `class Bar: pass` and `x = 1` are all indexed; a tuple
      assignment `a, b = ...` is not. */
  lemma CombinedDefinitions(one: Expr)
    ensures var tree := [FunctionDef("foo", [], [], [], [Pass]), ClassDef("Bar", [], [Pass]), Assign([Name("x", Store)], one)];
      NameDictOf(tree).Keys == {"foo", "Bar", "x"}
    ensures NameDictOf([Assign([Name("a", Store), Name("b", Store)], one)]) == map[]
  {
    var tree := [FunctionDef("foo", [], [], [], [Pass]), ClassDef("Bar", [], [Pass]), Assign([Name("x", Store)], one)];
    DefsOfCombined(tree, one);
    var ds := [("foo", tree[0]), ("Bar", tree[1]), ("x", tree[2])];
    assert ds[..2][..1] == ds[..1] && ds[..1][..0] == [];
    assert Record(map[], ds[..1]) == map["foo" := tree[0]];
    assert Record(map[], ds[..2]) == map["foo" := tree[0], "Bar" := tree[1]];
    assert ds[..3] == ds;
    assert Record(map[], ds) == map["foo" := tree[0], "Bar" := tree[1], "x" := tree[2]];
    var t := [Assign([Name("a", Store), Name("b", Store)], one)];
    assert t[..0] == [];
    assert DefsOf(t) == [];
  }

  lemma DefsOfCombined(tree: seq<Stmt>, one: Expr)
    requires tree == [FunctionDef("foo", [], [], [], [Pass]), ClassDef("Bar", [], [Pass]), Assign([Name("x", Store)], one)]
    ensures DefsOf(tree) == [("foo", tree[0]), ("Bar", tree[1]), ("x", tree[2])]
  {
    assert [Pass][..0] == [];
    assert DefsOf([Pass]) == [];
    assert DefsOfStmt(tree[0]) == [("foo", tree[0])];
    assert DefsOfStmt(tree[1]) == [("Bar", tree[1])];
    assert DefsOfStmt(tree[2]) == [("x", tree[2])];
    assert tree[..2][..1] == tree[..1];
    assert tree[..1][..0] == [];
    assert DefsOf(tree[..1]) == [("foo", tree[0])];
    assert DefsOf(tree[..2]) == [("foo", tree[0]), ("Bar", tree[1])];
    assert tree[..3] == tree;
  }

  // ---------------------------------------------------------------------------
  // generate_ast_dict

  datatype SourceFile = SourceFile(name: string, parsed: Option<seq<Stmt>>)
  datatype WalkDir = WalkDir(root: string, files: seq<SourceFile>)

  /** The path segments whose directories are never indexed. */
  const SkippedSegments: seq<string> := ["/site-packages/", "/.venv/", "/venv/", "/virtualenv/"]

  predicate SkippedRoot(root: string)
  {
    exists k | 0 <= k < |SkippedSegments| :: IsSubstring(SkippedSegments[k], root)
  }

  /** A file is indexed when its directory is not skipped and its name ends
      in ".py". */
  predicate Indexed(root: string, f: SourceFile)
  {
    !SkippedRoot(root) && EndsWith(f.name, ".py")
  }

  /** `os.path.join(root, name)` for a plain file name. */
  function JoinPath(root: string, name: string): string
  {
    if root == [] || EndsWith(root, "/") then root + name else root + "/" + name
  }

  /** The file that does not parse. */
  datatype IndexError = SyntaxError(path: string)

  /** Folding one file into the dictionary, or failing on it. */
  function IndexFile(acc: Result<map<string, Stmt>, IndexError>, root: string, f: SourceFile): Result<map<string, Stmt>, IndexError>
  {
    if acc.Err? || !Indexed(root, f) then acc
    else match f.parsed
      case None => Err(SyntaxError(JoinPath(root, f.name)))
      case Some(tree) => Ok(acc.value + NameDictOf(tree))
  }

  function IndexFiles(acc: Result<map<string, Stmt>, IndexError>, root: string, files: seq<SourceFile>): Result<map<string, Stmt>, IndexError>
  {
    if files == [] then acc else IndexFile(IndexFiles(acc, root, files[..|files| - 1]), root, files[|files| - 1])
  }

  /** What `generate_ast_dict` returns (or raises) for a directory walk. */
  function IndexWalk(walk: seq<WalkDir>): Result<map<string, Stmt>, IndexError>
  {
    if walk == [] then Ok(map[])
    else IndexFiles(IndexWalk(walk[..|walk| - 1]), walk[|walk| - 1].root, walk[|walk| - 1].files)
  }

  /** `name_dict.update(d)` is the same as storing d's pairs one by one. */
  lemma {:induction false} UpdateIsRecord(m: map<string, Stmt>, ds: seq<(string, Stmt)>)
    ensures m + Record(map[], ds) == Record(m, ds)
  {
    if ds != [] {
      UpdateIsRecord(m, ds[..|ds| - 1]);
    }
  }

  /** `generate_ast_dict`: walks the directories and their files in order. */
  method GenerateAstDict(walk: seq<WalkDir>) returns (r: Result<map<string, Stmt>, IndexError>)
    ensures r == IndexWalk(walk)
  {
    var nameDict: map<string, Stmt> := map[];
    for i := 0 to |walk|
      invariant IndexWalk(walk[..i]) == Ok(nameDict)
    {
      assert walk[..i + 1][..i] == walk[..i];
      var dir := IndexDirectory(nameDict, walk[i].root, walk[i].files);
      if dir.Err? {
        IndexWalkKeepsError(walk, i + 1);
        return dir;
      }
      nameDict := dir.value;
    }
    assert walk[..|walk|] == walk;
    return Ok(nameDict);
  }

  /** The inner loop of `generate_ast_dict` over the files of one directory. */
  method IndexDirectory(nameDict0: map<string, Stmt>, root: string, files: seq<SourceFile>) returns (r: Result<map<string, Stmt>, IndexError>)
    ensures r == IndexFiles(Ok(nameDict0), root, files)
  {
    var nameDict := nameDict0;
    for j := 0 to |files|
      invariant IndexFiles(Ok(nameDict0), root, files[..j]) == Ok(nameDict)
    {
      assert files[..j + 1][..j] == files[..j];
      var f := files[j];
      var skip := SkipRootCheck(root);
      if skip {
        continue;
      }
      var isPy := HasSuffix(f.name, ".py");
      if isPy {
        match f.parsed {
          case None =>
            IndexFilesKeepsError(Ok(nameDict0), root, files, j + 1);
            return Err(SyntaxError(JoinPath(root, f.name)));
          case Some(tree) =>
            var extractor := new ASTNameNodeMappingExtractor();
            extractor.VisitStmts(tree);
            nameDict := nameDict + extractor.nameDict;
        }
      }
    }
    assert files[..|files|] == files;
    return Ok(nameDict);
  }

  /** `any(segment in root for segment in ...)`. */
  method SkipRootCheck(root: string) returns (b: bool)
    ensures b <==> SkippedRoot(root)
  {
    b := false;
    for k := 0 to |SkippedSegments|
      invariant b <==> exists k' | 0 <= k' < k :: IsSubstring(SkippedSegments[k'], root)
    {
      var seg := SkippedSegments[k];
      if |seg| <= |root| {
        for p := 0 to |root| - |seg| + 1
          invariant b <==> exists k' | 0 <= k' < k + (if exists q | 0 <= q < p :: OccursAt(seg, root, q) then 1 else 0)
                                    :: IsSubstring(SkippedSegments[k'], root)
        {
          if root[p..p + |seg|] == seg {
            assert OccursAt(seg, root, p);
            b := true;
          }
        }
      }
    }
  }

  /** `name.endswith(suffix)`. */
  method HasSuffix(name: string, suffix: string) returns (b: bool)
    ensures b <==> EndsWith(name, suffix)
  {
    b := |suffix| <= |name| && name[|name| - |suffix|..] == suffix;
  }

  lemma {:induction false} IndexFilesKeepsError(acc: Result<map<string, Stmt>, IndexError>, root: string, files: seq<SourceFile>, j: nat)
    requires j <= |files| && IndexFiles(acc, root, files[..j]).Err?
    ensures IndexFiles(acc, root, files) == IndexFiles(acc, root, files[..j])
    decreases |files| - j
  {
    if j < |files| {
      assert files[..j + 1][..j] == files[..j];
      IndexFilesKeepsError(acc, root, files, j + 1);
    } else {
      assert files[..j] == files;
    }
  }

  lemma {:induction false} IndexFilesFromError(e: IndexError, root: string, files: seq<SourceFile>)
    ensures IndexFiles(Err(e), root, files) == Err(e)
  {
    if files != [] {
      IndexFilesFromError(e, root, files[..|files| - 1]);
    }
  }

  lemma {:induction false} IndexWalkKeepsError(walk: seq<WalkDir>, i: nat)
    requires i <= |walk| && IndexWalk(walk[..i]).Err?
    ensures IndexWalk(walk) == IndexWalk(walk[..i])
    decreases |walk| - i
  {
    if i < |walk| {
      assert walk[..i + 1][..i] == walk[..i];
      IndexFilesFromError(IndexWalk(walk[..i]).error, walk[i].root, walk[i].files);
      IndexWalkKeepsError(walk, i + 1);
    } else {
      assert walk[..i] == walk;
    }
  }

  /** Files in a skipped directory (a virtual environment or `site-packages`)
      and files not ending in ".py" change nothing, even when they do not parse. */
  lemma {:induction false} UnindexedFilesIgnored(acc: Result<map<string, Stmt>, IndexError>, root: string, files: seq<SourceFile>)
    requires forall j | 0 <= j < |files| :: !Indexed(root, files[j])
    ensures IndexFiles(acc, root, files) == acc
  {
    if files != [] {
      UnindexedFilesIgnored(acc, root, files[..|files| - 1]);
    }
  }

  lemma SkippedDirectoryIgnored(walk: seq<WalkDir>, d: WalkDir)
    requires SkippedRoot(d.root)
    ensures IndexWalk(walk + [d]) == IndexWalk(walk)
  {
    assert (walk + [d])[..|walk|] == walk;
    UnindexedFilesIgnored(IndexWalk(walk), d.root, d.files);
  }

  /** A file of one directory that would fail the index. */
  predicate Unparsable(root: string, f: SourceFile)
  {
    Indexed(root, f) && f.parsed.None?
  }

  lemma {:induction false} IndexFilesFailsIff(acc: Result<map<string, Stmt>, IndexError>, root: string, files: seq<SourceFile>)
    ensures IndexFiles(acc, root, files).Err?
        <==> acc.Err? || exists j | 0 <= j < |files| :: Unparsable(root, files[j])
  {
    if files != [] {
      var prefix := files[..|files| - 1];
      IndexFilesFailsIff(acc, root, prefix);
      if exists j | 0 <= j < |prefix| :: Unparsable(root, prefix[j]) {
        var j :| 0 <= j < |prefix| && Unparsable(root, prefix[j]);
        assert Unparsable(root, files[j]);
      }
    }
  }

  /** `generate_ast_dict` raises exactly when some indexed file does not parse. */
  lemma {:induction false} IndexWalkFailsIff(walk: seq<WalkDir>)
    ensures IndexWalk(walk).Err?
        <==> exists i, j | 0 <= i < |walk| && 0 <= j < |walk[i].files| :: Unparsable(walk[i].root, walk[i].files[j])
  {
    if walk != [] {
      var prefix := walk[..|walk| - 1];
      var d := walk[|walk| - 1];
      IndexWalkFailsIff(prefix);
      IndexFilesFailsIff(IndexWalk(prefix), d.root, d.files);
      if exists i, j | 0 <= i < |prefix| && 0 <= j < |prefix[i].files| :: Unparsable(prefix[i].root, prefix[i].files[j]) {
        var i, j :| 0 <= i < |prefix| && 0 <= j < |prefix[i].files| && Unparsable(prefix[i].root, prefix[i].files[j]);
        assert Unparsable(walk[i].root, walk[i].files[j]);
      }
      if exists j | 0 <= j < |d.files| :: Unparsable(d.root, d.files[j]) {
        var j :| 0 <= j < |d.files| && Unparsable(d.root, d.files[j]);
        assert Unparsable(walk[|walk| - 1].root, walk[|walk| - 1].files[j]);
      }
      if exists i, j | 0 <= i < |walk| && 0 <= j < |walk[i].files| :: Unparsable(walk[i].root, walk[i].files[j]) {
        var i, j :| 0 <= i < |walk| && 0 <= j < |walk[i].files| && Unparsable(walk[i].root, walk[i].files[j]);
        if i < |prefix| {
          assert Unparsable(prefix[i].root, prefix[i].files[j]);
        }
      }
    }
  }
}

// The recursive resolver (uc_functions/inline.py: RecursiveResolver and
// inline_function). `resolve` collects the source of a function together with
// the library imports of its file, then follows the calls the source makes
// into other project code. `get_inline` stitches the collected code into one
// module, rewrites and trims it, and keeps adding definitions of the names that
// are still undefined until none remain, the same names come back twice, or
// the retry budget runs out.
//
// The interpreter's recursion limit, which bounds how deep `resolve` can nest,
// is the `fuel` parameter: a call `fuel` levels deep fails. Nothing in the
// source guards against a function that calls itself, and `resolve` then
// nests until that limit (SelfRecursionExhausts).
//
// Each round of `get_inline` runs the import optimizer and the undefined-name
// finder. `Passes.AsWritten` runs them as the source has them; `Corrected`
// runs the corrected optimizer and finder of import_optimizer.dfy and
// undefined_names.dfy. Everything about the retry loop is proved for both.

module Resolver {
  import opened Util
  import opened PyAst
  import opened Runtime
  import LibraryPath
  import CE = CallExtraction
  import Imp = Imports
  import RD = ReplaceDots
  import IO = ImportOptimization
  import UN = UndefinedNames
  import NameIndex

  /** The exceptions that escape `inline_function`. */
  datatype InlineError =
    | AttributeMissing(attr: string)     // `getattr` on an attribute chain raised
    | RecursionLimit                     // `resolve` nested deeper than the interpreter allows
    | NoRootSource                       // `get_inline` before any root function was resolved
    | RootNotDefinition                  // the root source does not start with a def or class
    | LookupFailed(name: string)         // `is_from_libraries` raised while replacing dots
    | Unresolved(names: seq<string>)     // the same undefined names came back twice
    | LintFailed(lines: seq<string>)     // pyflakes still reports undefined names
    | NoCandidate                        // the retry loop never ran, so there is no code
    | IndexFailed(path: string)          // a project file does not parse

  /** The resolver's collections: the import lines (an insertion-ordered set),
      the root function's parsed source, and the parsed sources of the
      dependencies in the order they were found. */
  datatype ResolverState = ResolverState(imports: seq<Stmt>, root: Option<seq<Stmt>>, functions: seq<seq<Stmt>>)

  const Empty := ResolverState([], None, [])

  /** The library test `ImportVisitor` applies in the world `w`. */
  function LibraryTest(w: World): string -> bool
  {
    n => IsLibraryModuleIn(w, n)
  }

  // ---------------------------------------------------------------------------
  // resolve

  /** An object whose code `resolve` collects: its source is available, it is
      not one of the skipped classes and it is not a module. */
  predicate Eligible(w: World, skip: seq<Obj>, o: Obj)
  {
    w.sourceOf(o).Some? && o !in skip && !w.isModule(o)
  }

  /** The state after `resolve` has taken the imports of the object's file and
      recorded its source, as the root or as the next dependency. */
  function Recorded(w: World, st: ResolverState, o: Obj, isRoot: bool): ResolverState
    requires w.sourceOf(o).Some?
  {
    var imports := AddAll(st.imports, Imp.FileImports(w.fileTreeOf(o), LibraryTest(w)));
    var src := w.sourceOf(o).value;
    if isRoot then st.(imports := imports, root := Some(src))
    else st.(imports := imports, functions := st.functions + [src])
  }

  /** `getattr` along an attribute chain; it raises on a missing attribute and
      on an absent object. */
  function WalkAttrs(w: World, o: Option<Obj>, attrs: seq<string>): Result<Option<Obj>, InlineError>
    decreases attrs
  {
    if attrs == [] then Ok(o)
    else if o.None? || w.getAttr(o.value, attrs[0]).None? then Err(AttributeMissing(attrs[0]))
    else WalkAttrs(w, w.getAttr(o.value, attrs[0]), attrs[1..])
  }

  /** The object a call record names: the scope's binding of its first name
      (absent when unbound), followed along the remaining attributes. */
  function Target(w: World, g: Globals, m: CE.FunctionMetadata): Result<Option<Obj>, InlineError>
    requires m.moduleName.Some?
  {
    var start := if m.moduleName.value in g then Some(g[m.moduleName.value]) else None;
    if |m.attrs| > 1 then WalkAttrs(w, start, m.attrs[1..]) else Ok(start)
  }

  /** `resolve(obj, globals_dict, is_root_function)` with `fuel` levels of
      nesting left. */
  function Resolved(w: World, g: Globals, skip: seq<Obj>, st: ResolverState, obj: Option<Obj>, isRoot: bool, fuel: nat)
    : Result<ResolverState, InlineError>
    decreases fuel, 2, 0
  {
    if obj.None? || !Eligible(w, skip, obj.value) then Ok(st)
    else
      var st1 := Recorded(w, st, obj.value, isRoot);
      ResolvedCalls(w, g, skip, st1, CE.ExtractCalls(w.sourceOf(obj.value).value), fuel)
  }

  /** The loop over the call records of one source, in order; the first
      failure ends it. */
  function ResolvedCalls(w: World, g: Globals, skip: seq<Obj>, st: ResolverState, metas: seq<CE.FunctionMetadata>, fuel: nat)
    : Result<ResolverState, InlineError>
    decreases fuel, 1, |metas|
  {
    if metas == [] then Ok(st)
    else
      match ResolvedCall(w, g, skip, st, metas[0], fuel)
      case Err(e) => Err(e)
      case Ok(st1) => ResolvedCalls(w, g, skip, st1, metas[1..], fuel)
  }

  /** One call record: records without a module and records whose module is a
      library are passed over; otherwise the named object is resolved one
      level deeper. */
  function ResolvedCall(w: World, g: Globals, skip: seq<Obj>, st: ResolverState, m: CE.FunctionMetadata, fuel: nat)
    : Result<ResolverState, InlineError>
    decreases fuel, 0, 0
  {
    if m.moduleName.None? || IsBuiltinLibrary(w, g, m.moduleName.value) then Ok(st)
    else
      match Target(w, g, m)
      case Err(e) => Err(e)
      case Ok(obj) =>
        if fuel == 0 then Err(RecursionLimit) else Resolved(w, g, skip, st, obj, false, fuel - 1)
  }

  // ---------------------------------------------------------------------------
  // get_inline

  /** `stitch_code`: imports, then dependencies, then the root's body. */
  function Stitch(imports: seq<Stmt>, deps: seq<Stmt>, root: seq<Stmt>): (r: seq<Stmt>)
    ensures |r| == |imports| + |deps| + |root|
    ensures r[..|imports|] == imports
    ensures r[|imports|..|imports| + |deps|] == deps
    ensures r[|imports| + |deps|..] == root
  {
    imports + deps + root
  }

  /** The module `get_inline` builds from the current state: the dependencies
      go in the reverse of the order they were found in. */
  function Candidate(st: ResolverState, rootBody: seq<Stmt>): seq<Stmt>
  {
    Stitch(st.imports, Concat(Reverse(st.functions)), rootBody)
  }

  /** The stitched module holds every import and every statement of every
      resolved dependency, and the root's body ends it. */
  lemma CandidateContents(st: ResolverState, rootBody: seq<Stmt>)
    ensures var c := Candidate(st, rootBody);
      && |rootBody| <= |c| && c[|c| - |rootBody|..] == rootBody
      && (forall s | s in st.imports :: s in c)
      && (forall i, s | 0 <= i < |st.functions| && s in st.functions[i] :: s in c)
  {
    var c := Candidate(st, rootBody);
    forall i, s | 0 <= i < |st.functions| && s in st.functions[i]
      ensures s in c
    {
      ReverseMembers(st.functions, st.functions[i]);
      var j :| 0 <= j < |Reverse(st.functions)| && Reverse(st.functions)[j] == st.functions[i];
      ConcatMembers(Reverse(st.functions), j, s);
    }
  }

  /** `root.body[0].body`: the body of the root's definition. */
  function RootBody(src: seq<Stmt>): Option<seq<Stmt>>
  {
    if |src| > 0 && (src[0].FunctionDef? || src[0].ClassDef?) then Some(src[0].body) else None
  }

  /** The statements of a module, numbered by position. */
  function Numbered(ss: seq<Stmt>): seq<IO.Node>
  {
    seq(|ss|, i requires 0 <= i < |ss| => IO.Node(i, ss[i]))
  }

  function Statements(nodes: seq<IO.Node>): seq<Stmt>
  {
    seq(|nodes|, i requires 0 <= i < |nodes| => nodes[i].stmt)
  }

  /** Which import optimizer and undefined-name finder a round runs. */
  datatype Passes = AsWritten | Corrected

  /** The module after the import optimizer of `passes`. */
  function Optimized(passes: Passes, t: seq<Stmt>): seq<Stmt>
  {
    match passes
    case AsWritten => Statements(IO.OptimizeAsWritten(Numbered(t)))
    case Corrected => Statements(IO.OptimizeCorrected(Numbered(t)))
  }

  /** What one round of the retry loop produces: the formatted code and the
      names still undefined in it. */
  datatype Round = Round(code: string, undefined: seq<string>)

  /** One round: stitch, replace dotted calls, drop unused imports, render, and
      look for undefined names other than the root's parameters, with the
      optimizer and finder of `passes` (`AsWritten` for `get_inline`). */
  function Attempt(w: World, g: Globals, passes: Passes, argNames: seq<string>, st: ResolverState, rootBody: seq<Stmt>): Result<Round, InlineError>
  {
    match RD.TransformStmts(w, g, Candidate(st, rootBody))
    case Err(n) => Err(LookupFailed(n))
    case Ok(t) =>
      var opt := Optimized(passes, t);
      Ok(Round(w.render(opt), UN.Undefined(opt, argNames, w.builtins, passes.Corrected?)))
  }

  /** The definitions appended for the undefined names that the project index
      knows, in the order of the names. */
  function AddDefinitions(functions: seq<seq<Stmt>>, undefined: seq<string>, index: map<string, Stmt>): seq<seq<Stmt>>
    decreases undefined
  {
    if undefined == [] then functions
    else
      var next := if undefined[0] in index then functions + [[index[undefined[0]]]] else functions;
      AddDefinitions(next, undefined[1..], index)
  }

  const UndefinedNameMarker := "undefined name"

  /** `lint_code_for_undefined_names` on pyflakes' report lines. */
  function UndefinedNameLines(lines: seq<string>): seq<string>
  {
    if lines == [] then []
    else (if IsSubstring(UndefinedNameMarker, lines[0]) then [lines[0]] else []) + UndefinedNameLines(lines[1..])
  }

  /** After the retry budget runs out: the last code, if pyflakes finds no
      undefined name in it. */
  function Fallback(w: World, last: Option<string>): Result<string, InlineError>
  {
    match last
    case None => Err(NoCandidate)
    case Some(code) =>
      var lines := UndefinedNameLines(w.pyflakes(code));
      if lines == [] then Ok(code) else Err(LintFailed(lines))
  }

  /** The retry loop from round `retries` on, with the previous round's
      undefined names `prev` and the previous round's code `last`. */
  function InlineLoop(w: World, g: Globals, passes: Passes, index: map<string, Stmt>, argNames: seq<string>, st: ResolverState,
                      rootBody: seq<Stmt>, retries: int, limit: int, prev: set<string>, last: Option<string>)
    : Result<string, InlineError>
    decreases if retries <= limit then limit - retries + 1 else 0
  {
    if retries > limit then Fallback(w, last)
    else
      match Attempt(w, g, passes, argNames, st, rootBody)
      case Err(e) => Err(e)
      case Ok(round) =>
        if round.undefined == [] then Ok(round.code)
        else
          var now := set x | x in round.undefined;
          var st' := st.(functions := AddDefinitions(st.functions, round.undefined, index));
          if prev == now then Err(Unresolved(round.undefined))
          else InlineLoop(w, g, passes, index, argNames, st', rootBody, retries + 1, limit, now, Some(round.code))
  }

  /** A round that leaves names undefined, other than the previous round's,
      hands the loop on to the next round with their definitions added. */
  lemma InlineLoopStep(w: World, g: Globals, passes: Passes, index: map<string, Stmt>, argNames: seq<string>, st: ResolverState,
                       rootBody: seq<Stmt>, retries: int, limit: int, prev: set<string>, last: Option<string>, round: Round)
    requires retries <= limit
    requires Attempt(w, g, passes, argNames, st, rootBody) == Ok(round)
    requires round.undefined != []
    ensures var now := set x | x in round.undefined;
      prev != now ==>
        InlineLoop(w, g, passes, index, argNames, st, rootBody, retries, limit, prev, last)
        == InlineLoop(w, g, passes, index, argNames, st.(functions := AddDefinitions(st.functions, round.undefined, index)),
                      rootBody, retries + 1, limit, now, Some(round.code))
    ensures var now := set x | x in round.undefined;
      prev == now ==> InlineLoop(w, g, passes, index, argNames, st, rootBody, retries, limit, prev, last) == Err(Unresolved(round.undefined))
  {
  }

  /** `get_inline(globals_dict, recursion_limit)`, as written when `passes` is `AsWritten`. */
  function GetInlineSpec(w: World, g: Globals, passes: Passes, index: map<string, Stmt>, argNames: seq<string>, st: ResolverState, limit: int)
    : Result<string, InlineError>
  {
    match st.root
    case None => Err(NoRootSource)
    case Some(src) =>
      match RootBody(src)
      case None => Err(RootNotDefinition)
      case Some(body) => InlineLoop(w, g, passes, index, argNames, st, body, 1, limit, {}, None)
  }

  /** The retry budget `inline_function` passes to `get_inline`. */
  const RetryLimit := 100

  /** `inline_function(function, code_root, globals_dict)`: the root's
      parameters are never reported undefined, the secrets class is never
      inlined, and `depth` is the nesting `resolve` may reach. */
  function InlineFunctionSpec(w: World, g: Globals, passes: Passes, root: Obj, walk: seq<NameIndex.WalkDir>, secretClass: Obj, depth: nat)
    : Result<string, InlineError>
  {
    var argNames := w.fullArgSpec(root).0 + w.fullArgSpec(root).1;
    match NameIndex.IndexWalk(walk)
    case Err(e) => Err(IndexFailed(e.path))
    case Ok(index) =>
      match Resolved(w, g, [secretClass], Empty, Some(root), true, depth)
      case Err(e) => Err(e)
      case Ok(st) => GetInlineSpec(w, g, passes, index, argNames, st, RetryLimit)
  }

  // ---------------------------------------------------------------------------
  // The resolver object.

  /** A method's outcome against its specification: the new state on success,
      the same error on failure. */
  predicate Reports(spec: Result<ResolverState, InlineError>, failure: Option<InlineError>, st: ResolverState)
  {
    match spec
    case Ok(s) => failure.None? && st == s
    case Err(e) => failure == Some(e)
  }

  class RecursiveResolver {
    const nameAstDict: map<string, Stmt>
    const skipClasses: seq<Obj>
    const argNamesPredefined: seq<string>
    var rootFunctionCode: Option<seq<Stmt>>
    var functionsCode: seq<seq<Stmt>>
    var imports: seq<Stmt>

    function State(): ResolverState
      reads this
    {
      ResolverState(imports, rootFunctionCode, functionsCode)
    }

    constructor(skipClasses: seq<Obj>, nameAstDict: map<string, Stmt>, argNamesPredefined: seq<string>)
      ensures State() == Empty
      ensures this.skipClasses == skipClasses && this.nameAstDict == nameAstDict
      ensures this.argNamesPredefined == argNamesPredefined
    {
      this.nameAstDict := nameAstDict;
      this.skipClasses := skipClasses;
      this.argNamesPredefined := argNamesPredefined;
      rootFunctionCode := None;
      functionsCode := [];
      imports := [];
    }

    /** `resolve`, with `fuel` levels of nesting left. */
    method Resolve(w: World, g: Globals, obj: Option<Obj>, isRoot: bool, fuel: nat) returns (failure: Option<InlineError>)
      modifies this
      ensures Reports(Resolved(w, g, skipClasses, old(State()), obj, isRoot, fuel), failure, State())
      decreases fuel, 2
    {
      if obj.None? || !Eligible(w, skipClasses, obj.value) {
        return None;
      }
      var o := obj.value;
      var src := w.sourceOf(o).value;
      var lines := Imp.ImportsFromFile(w.fileTreeOf(o), LibraryTest(w));
      ghost var imports0 := imports;
      var i := 0;
      while i < |lines|
        invariant 0 <= i <= |lines|
        invariant imports == AddAll(imports0, lines[..i])
        invariant rootFunctionCode == old(rootFunctionCode) && functionsCode == old(functionsCode)
      {
        AddAllSnoc(imports0, lines[..i], lines[i]);
        assert lines[..i + 1] == lines[..i] + [lines[i]];
        imports := AddUnique(imports, lines[i]);
        i := i + 1;
      }
      assert lines[..i] == lines;
      if isRoot {
        rootFunctionCode := Some(src);
      } else {
        functionsCode := functionsCode + [src];
      }
      ghost var st1 := State();
      assert st1 == Recorded(w, old(State()), o, isRoot);
      var metas := CE.ExtractFunctionCalls(src);
      var j := 0;
      while j < |metas|
        invariant 0 <= j <= |metas|
        invariant ResolvedCalls(w, g, skipClasses, st1, metas, fuel) == ResolvedCalls(w, g, skipClasses, State(), metas[j..], fuel)
      {
        assert metas[j..][1..] == metas[j + 1..];
        failure := ResolveCall(w, g, metas[j], fuel);
        if failure.Some? {
          return;
        }
        j := j + 1;
      }
      assert metas[j..] == [];
      failure := None;
    }

    /** One call record of `resolve`'s loop. */
    method ResolveCall(w: World, g: Globals, m: CE.FunctionMetadata, fuel: nat) returns (failure: Option<InlineError>)
      modifies this
      ensures Reports(ResolvedCall(w, g, skipClasses, old(State()), m, fuel), failure, State())
      decreases fuel, 1
    {
      if m.moduleName.None? || IsBuiltinLibrary(w, g, m.moduleName.value) {
        return None;
      }
      var target := FindTarget(w, g, m);
      if target.Err? {
        return Some(target.error);
      }
      if fuel == 0 {
        return Some(RecursionLimit);
      }
      failure := Resolve(w, g, target.value, false, fuel - 1);
    }

    /** One round of `get_inline`: stitch the imports, the definitions found
        so far (newest first) and the root's body, rewrite the dotted calls,
        optimize the imports, render the code and look for undefined names. */
    method RunAttempt(w: World, g: Globals, passes: Passes, rootBody: seq<Stmt>) returns (r: Result<Round, InlineError>)
      ensures r == Attempt(w, g, passes, argNamesPredefined, State(), rootBody)
    {
      var candidate := Stitch(imports, Concat(Reverse(functionsCode)), rootBody);
      var transformed := RD.TransformStmts(w, g, candidate);
      if transformed.Err? {
        return Err(LookupFailed(transformed.error));
      }
      var tree := new IO.ModuleTree(Numbered(transformed.value));
      var optimizer := new IO.ImportOptimizer();
      if passes.Corrected? {
        optimizer.OptimizeImportsCorrected(tree);
      } else {
        optimizer.OptimizeImports(tree);
      }
      var stmts := Statements(tree.body);
      var code := w.render(stmts);
      var undefined := UN.FindUndefinedNames(stmts, argNamesPredefined, w.builtins, passes.Corrected?);
      return Ok(Round(code, undefined));
    }

    /** The loop of `get_inline` that appends the definition of every
        undefined name the project index knows. */
    method AppendDefinitions(undefined: seq<string>)
      modifies this
      ensures functionsCode == AddDefinitions(old(functionsCode), undefined, nameAstDict)
      ensures imports == old(imports) && rootFunctionCode == old(rootFunctionCode)
    {
      var j := 0;
      while j < |undefined|
        invariant 0 <= j <= |undefined|
        invariant imports == old(imports) && rootFunctionCode == old(rootFunctionCode)
        invariant AddDefinitions(old(functionsCode), undefined, nameAstDict)
               == AddDefinitions(functionsCode, undefined[j..], nameAstDict)
      {
        assert undefined[j..][1..] == undefined[j + 1..];
        if undefined[j] in nameAstDict {
          functionsCode := functionsCode + [[nameAstDict[undefined[j]]]];
        }
        j := j + 1;
      }
      assert undefined[j..] == [];
    }

    /** `get_inline(globals_dict, limit)`, as written when `passes` is `AsWritten`. */
    method GetInline(w: World, g: Globals, passes: Passes, limit: int) returns (r: Result<string, InlineError>)
      modifies this
      ensures r == GetInlineSpec(w, g, passes, nameAstDict, argNamesPredefined, old(State()), limit)
    {
      if rootFunctionCode.None? {
        return Err(NoRootSource);
      }
      var src := rootFunctionCode.value;
      if |src| == 0 || !(src[0].FunctionDef? || src[0].ClassDef?) {
        return Err(RootNotDefinition);
      }
      r := RetryLoop(w, g, passes, src[0].body, limit);
    }

    /** The retry loop of `get_inline` over the root's body `rootBody`. */
    method RetryLoop(w: World, g: Globals, passes: Passes, rootBody: seq<Stmt>, limit: int) returns (r: Result<string, InlineError>)
      modifies this
      ensures r == InlineLoop(w, g, passes, nameAstDict, argNamesPredefined, old(State()), rootBody, 1, limit, {}, None)
    {
      var retries := 1;
      var prev: set<string> := {};
      var finalCode: Option<string> := None;
      ghost var spec := InlineLoop(w, g, passes, nameAstDict, argNamesPredefined, State(), rootBody, 1, limit, {}, None);
      while retries <= limit
        invariant InlineLoop(w, g, passes, nameAstDict, argNamesPredefined, State(), rootBody, retries, limit, prev, finalCode) == spec
        decreases limit - retries + 1
      {
        var round := RunAttempt(w, g, passes, rootBody);
        if round.Err? {
          return Err(round.error);
        }
        var code := round.value.code;
        var undefined := round.value.undefined;
        if undefined == [] {
          return Ok(code);
        }
        var now := set x | x in undefined;
        InlineLoopStep(w, g, passes, nameAstDict, argNamesPredefined, State(), rootBody, retries, limit, prev, finalCode, round.value);
        AppendDefinitions(undefined);
        if prev == now {
          return Err(Unresolved(undefined));
        }
        prev := now;
        retries := retries + 1;
        finalCode := Some(code);
      }
      r := FinalCheck(w, finalCode);
    }

    /** After the retry budget runs out: lint the last round's code. */
    method FinalCheck(w: World, finalCode: Option<string>) returns (r: Result<string, InlineError>)
      ensures r == Fallback(w, finalCode)
    {
      if finalCode.None? {
        return Err(NoCandidate);
      }
      var lines := LintCodeForUndefinedNames(w, finalCode.value);
      if lines == [] {
        return Ok(finalCode.value);
      }
      return Err(LintFailed(lines));
    }
  }

  /** The attribute walk of `resolve`'s loop body. */
  method FindTarget(w: World, g: Globals, m: CE.FunctionMetadata) returns (r: Result<Option<Obj>, InlineError>)
    requires m.moduleName.Some?
    ensures r == Target(w, g, m)
  {
    var obj := if m.moduleName.value in g then Some(g[m.moduleName.value]) else None;
    if |m.attrs| > 1 {
      var attrs := m.attrs[1..];
      var i := 0;
      while i < |attrs|
        invariant 0 <= i <= |attrs|
        invariant Target(w, g, m) == WalkAttrs(w, obj, attrs[i..])
      {
        assert attrs[i..][1..] == attrs[i + 1..];
        if obj.None? || w.getAttr(obj.value, attrs[i]).None? {
          return Err(AttributeMissing(attrs[i]));
        }
        obj := w.getAttr(obj.value, attrs[i]);
        i := i + 1;
      }
      assert attrs[i..] == [];
    }
    return Ok(obj);
  }

  /** `lint_code_for_undefined_names` */
  method LintCodeForUndefinedNames(w: World, code: string) returns (r: seq<string>)
    ensures r == UndefinedNameLines(w.pyflakes(code))
  {
    var lines := w.pyflakes(code);
    r := [];
    var i := 0;
    while i < |lines|
      invariant 0 <= i <= |lines|
      invariant r + UndefinedNameLines(lines[i..]) == UndefinedNameLines(lines)
    {
      assert lines[i..][1..] == lines[i + 1..];
      var found := LibraryPath.Contains(UndefinedNameMarker, lines[i]);
      if found {
        assert r + UndefinedNameLines(lines[i..]) == (r + [lines[i]]) + UndefinedNameLines(lines[i + 1..]);
        r := r + [lines[i]];
      }
      i := i + 1;
    }
    assert lines[i..] == [];
    assert r + [] == r;
  }

  /** `inline_function`: returns the inlined code (the source's when `passes` is `AsWritten`). */
  method InlineFunction(w: World, g: Globals, passes: Passes, root: Obj, walk: seq<NameIndex.WalkDir>, secretClass: Obj, depth: nat)
    returns (r: Result<string, InlineError>)
    ensures r == InlineFunctionSpec(w, g, passes, root, walk, secretClass, depth)
  {
    var argNames := w.fullArgSpec(root).0 + w.fullArgSpec(root).1;
    var index := NameIndex.GenerateAstDict(walk);
    if index.Err? {
      return Err(IndexFailed(index.error.path));
    }
    var resolver := new RecursiveResolver([secretClass], index.value, argNames);
    var failure := resolver.Resolve(w, g, Some(root), true, depth);
    if failure.Some? {
      return Err(failure.value);
    }
    r := resolver.GetInline(w, g, passes, RetryLimit);
  }

  // ---------------------------------------------------------------------------
  // What resolve collects.

  /** A source that came from an eligible object. */
  ghost predicate Inlined(w: World, skip: seq<Obj>, src: seq<Stmt>)
  {
    exists o :: Eligible(w, skip, o) && w.sourceOf(o) == Some(src)
  }

  /** `r` grows `st`: old imports and dependencies stay in place, every new
      dependency is the source of an eligible object, every new import line
      imports a library, and import lines stay free of duplicates. */
  ghost predicate Extends(w: World, skip: seq<Obj>, st: ResolverState, r: ResolverState)
  {
    && st.imports <= r.imports
    && st.functions <= r.functions
    && (forall i | |st.functions| <= i < |r.functions| :: Inlined(w, skip, r.functions[i]))
    && (forall l | l in r.imports && l !in st.imports :: Imp.IsLibraryLine(l, LibraryTest(w)))
    && (Distinct(st.imports) ==> Distinct(r.imports))
  }

  lemma ExtendsTrans(w: World, skip: seq<Obj>, a: ResolverState, b: ResolverState, c: ResolverState)
    requires Extends(w, skip, a, b) && Extends(w, skip, b, c)
    ensures Extends(w, skip, a, c)
  {
    forall i | |a.functions| <= i < |c.functions|
      ensures Inlined(w, skip, c.functions[i])
    {
      if i < |b.functions| {
        assert c.functions[i] == b.functions[i];
      }
    }
  }

  lemma RecordedExtends(w: World, skip: seq<Obj>, st: ResolverState, o: Obj, isRoot: bool)
    requires Eligible(w, skip, o)
    ensures Extends(w, skip, st, Recorded(w, st, o, isRoot))
    ensures Recorded(w, st, o, isRoot).root == if isRoot then w.sourceOf(o) else st.root
  {
    var lines := Imp.FileImports(w.fileTreeOf(o), LibraryTest(w));
    AddAllFacts(st.imports, lines);
    Imp.FileImportsAreDistinctLibraryLines(w.fileTreeOf(o), LibraryTest(w));
    assert Eligible(w, skip, o) && w.sourceOf(o) == Some(w.sourceOf(o).value);
  }

  /** What `resolve` leaves behind: the state only grows as `Extends` says, and
      the root source is set by the root call alone. */
  lemma {:induction false} ResolvedGrows(w: World, g: Globals, skip: seq<Obj>, st: ResolverState, obj: Option<Obj>, isRoot: bool, fuel: nat)
    requires Resolved(w, g, skip, st, obj, isRoot, fuel).Ok?
    ensures Extends(w, skip, st, Resolved(w, g, skip, st, obj, isRoot, fuel).value)
    ensures Resolved(w, g, skip, st, obj, isRoot, fuel).value.root ==
      if isRoot && obj.Some? && Eligible(w, skip, obj.value) then w.sourceOf(obj.value) else st.root
    decreases fuel, 2, 0
  {
    if obj.Some? && Eligible(w, skip, obj.value) {
      var st1 := Recorded(w, st, obj.value, isRoot);
      RecordedExtends(w, skip, st, obj.value, isRoot);
      ResolvedCallsGrows(w, g, skip, st1, CE.ExtractCalls(w.sourceOf(obj.value).value), fuel);
      ExtendsTrans(w, skip, st, st1, Resolved(w, g, skip, st, obj, isRoot, fuel).value);
    }
  }

  lemma {:induction false} ResolvedCallsGrows(w: World, g: Globals, skip: seq<Obj>, st: ResolverState, metas: seq<CE.FunctionMetadata>, fuel: nat)
    requires ResolvedCalls(w, g, skip, st, metas, fuel).Ok?
    ensures Extends(w, skip, st, ResolvedCalls(w, g, skip, st, metas, fuel).value)
    ensures ResolvedCalls(w, g, skip, st, metas, fuel).value.root == st.root
    decreases fuel, 1, |metas|
  {
    if metas != [] {
      var st1 := ResolvedCall(w, g, skip, st, metas[0], fuel).value;
      ResolvedCallGrows(w, g, skip, st, metas[0], fuel);
      ResolvedCallsGrows(w, g, skip, st1, metas[1..], fuel);
      ExtendsTrans(w, skip, st, st1, ResolvedCalls(w, g, skip, st, metas, fuel).value);
    }
  }

  lemma {:induction false} ResolvedCallGrows(w: World, g: Globals, skip: seq<Obj>, st: ResolverState, m: CE.FunctionMetadata, fuel: nat)
    requires ResolvedCall(w, g, skip, st, m, fuel).Ok?
    ensures Extends(w, skip, st, ResolvedCall(w, g, skip, st, m, fuel).value)
    ensures ResolvedCall(w, g, skip, st, m, fuel).value.root == st.root
    decreases fuel, 0, 0
  {
    if !(m.moduleName.None? || IsBuiltinLibrary(w, g, m.moduleName.value)) {
      var obj := Target(w, g, m).value;
      ResolvedGrows(w, g, skip, st, obj, false, fuel - 1);
    }
  }

  /** Resolving a root function from scratch: its source becomes the root, the
      collected imports are distinct library imports, and no dependency is the
      source of a skipped class or of a module. */
  lemma ResolveRoot(w: World, g: Globals, skip: seq<Obj>, o: Obj, fuel: nat)
    requires Eligible(w, skip, o)
    requires Resolved(w, g, skip, Empty, Some(o), true, fuel).Ok?
    ensures var r := Resolved(w, g, skip, Empty, Some(o), true, fuel).value;
      && r.root == w.sourceOf(o)
      && Distinct(r.imports)
      && (forall l | l in r.imports :: Imp.IsLibraryLine(l, LibraryTest(w)))
      && (forall src | src in r.functions :: Inlined(w, skip, src))
  {
    ResolvedGrows(w, g, skip, Empty, Some(o), true, fuel);
  }

  /** A function whose only call is to itself: `resolve` follows the call again
      and again until the nesting limit, for every limit. */
  lemma {:induction false} SelfRecursionExhausts(w: World, g: Globals, skip: seq<Obj>, st: ResolverState, o: Obj, isRoot: bool, f: string, fuel: nat)
    requires Eligible(w, skip, o)
    requires CE.ExtractCalls(w.sourceOf(o).value) == [CE.FunctionMetadata(Some(f), f, [])]
    requires f in g && g[f] == o && !IsBuiltinLibrary(w, g, f)
    ensures Resolved(w, g, skip, st, Some(o), isRoot, fuel) == Err(RecursionLimit)
    decreases fuel
  {
    var m := CE.FunctionMetadata(Some(f), f, []);
    var st1 := Recorded(w, st, o, isRoot);
    assert Target(w, g, m) == Ok(Some(o));
    if fuel > 0 {
      SelfRecursionExhausts(w, g, skip, st1, o, false, f, fuel - 1);
    }
    assert ResolvedCall(w, g, skip, st1, m, fuel) == Err(RecursionLimit);
  }

  /** `def f(): return f()` makes one call record, for `f` itself. */
  lemma SelfCallExtracted(f: string)
    ensures CE.ExtractCalls([FunctionDef(f, [], [], [], [Return(Call(Name(f, Load), [], []))])])
         == [CE.FunctionMetadata(Some(f), f, [])]
  {
    var target := Name(f, Load);
    var call := Call(target, [], []);
    var body := [Return(call)];
    var def := FunctionDef(f, [], [], [], body);
    assert CE.TargetsExpr(call) == [target] + CE.TargetsExpr(target) + CE.TargetsExprs([]) + CE.TargetsKeywords([]);
    assert CE.TargetsExpr(call) == [target];
    assert body[..0] == [] && [def][..0] == [];
    assert CE.TargetsStmts(body) == [target];
    assert CE.TargetsStmt(def) == CE.TargetsExprs([]) + CE.TargetsStmts(body);
    assert CE.TargetsStmts([def]) == [target];
    assert [target][..0] == [];
    var m := CE.FunctionMetadata(Some(f), f, []);
    assert CE.CallRecord(target) == Some((f, m));
    var e0 := CE.Extraction([], {});
    assert CE.Collect(e0, [target]) == CE.Step(CE.Collect(e0, []), target);
    assert CE.Step(e0, target) == CE.Extraction([] + [m], {} + {f});
    assert [] + [m] == [m];
  }

  /** The recursion `resolve` cannot escape: resolving `def f(): return f()`,
      bound to `f` in the caller's scope, fails at every nesting limit. */
  lemma SelfRecursiveFunctionFails(w: World, g: Globals, skip: seq<Obj>, o: Obj, f: string, fuel: nat)
    requires w.sourceOf(o) == Some([FunctionDef(f, [], [], [], [Return(Call(Name(f, Load), [], []))])])
    requires o !in skip && !w.isModule(o)
    requires f in g && g[f] == o && !IsBuiltinLibrary(w, g, f)
    ensures Resolved(w, g, skip, Empty, Some(o), true, fuel) == Err(RecursionLimit)
  {
    SelfCallExtracted(f);
    SelfRecursionExhausts(w, g, skip, Empty, o, true, f, fuel);
  }

  /** `resolve` fails only where `getattr` raises or the nesting limit is hit. */
  lemma {:induction false} ResolveFailures(w: World, g: Globals, skip: seq<Obj>, st: ResolverState, obj: Option<Obj>, isRoot: bool, fuel: nat)
    ensures var r := Resolved(w, g, skip, st, obj, isRoot, fuel);
      r.Err? ==> r.error.AttributeMissing? || r.error.RecursionLimit?
    decreases fuel, 2, 0
  {
    if obj.Some? && Eligible(w, skip, obj.value) {
      ResolveCallsFailures(w, g, skip, Recorded(w, st, obj.value, isRoot), CE.ExtractCalls(w.sourceOf(obj.value).value), fuel);
    }
  }

  lemma {:induction false} ResolveCallsFailures(w: World, g: Globals, skip: seq<Obj>, st: ResolverState, metas: seq<CE.FunctionMetadata>, fuel: nat)
    ensures var r := ResolvedCalls(w, g, skip, st, metas, fuel);
      r.Err? ==> r.error.AttributeMissing? || r.error.RecursionLimit?
    decreases fuel, 1, |metas|
  {
    if metas != [] {
      ResolveCallFailures(w, g, skip, st, metas[0], fuel);
      if ResolvedCall(w, g, skip, st, metas[0], fuel).Ok? {
        ResolveCallsFailures(w, g, skip, ResolvedCall(w, g, skip, st, metas[0], fuel).value, metas[1..], fuel);
      }
    }
  }

  lemma {:induction false} ResolveCallFailures(w: World, g: Globals, skip: seq<Obj>, st: ResolverState, m: CE.FunctionMetadata, fuel: nat)
    ensures var r := ResolvedCall(w, g, skip, st, m, fuel);
      r.Err? ==> r.error.AttributeMissing? || r.error.RecursionLimit?
    decreases fuel, 0, 0
  {
    if !(m.moduleName.None? || IsBuiltinLibrary(w, g, m.moduleName.value)) {
      WalkAttrsFailures(w, if m.moduleName.value in g then Some(g[m.moduleName.value]) else None, if |m.attrs| > 1 then m.attrs[1..] else []);
      if Target(w, g, m).Ok? && fuel > 0 {
        ResolveFailures(w, g, skip, st, Target(w, g, m).value, false, fuel - 1);
      }
    }
  }

  lemma {:induction false} WalkAttrsFailures(w: World, o: Option<Obj>, attrs: seq<string>)
    ensures WalkAttrs(w, o, attrs).Err? ==> WalkAttrs(w, o, attrs).error.AttributeMissing?
    decreases attrs
  {
    if attrs != [] && o.Some? && w.getAttr(o.value, attrs[0]).Some? {
      WalkAttrsFailures(w, w.getAttr(o.value, attrs[0]), attrs[1..]);
    }
  }

  /** A skipped class, a module or an object without source adds nothing. */
  lemma IneligibleIgnored(w: World, g: Globals, skip: seq<Obj>, st: ResolverState, o: Obj, isRoot: bool, fuel: nat)
    requires o in skip || w.isModule(o) || w.sourceOf(o).None?
    ensures Resolved(w, g, skip, st, Some(o), isRoot, fuel) == Ok(st)
  {
  }

  // ---------------------------------------------------------------------------
  // What get_inline returns.

  lemma {:induction false} AddDefinitionsFacts(functions: seq<seq<Stmt>>, undefined: seq<string>, index: map<string, Stmt>)
    ensures var r := AddDefinitions(functions, undefined, index);
      && functions <= r
      && (forall i | |functions| <= i < |r| :: exists x | x in undefined && x in index :: r[i] == [index[x]])
      && (r == functions <==> forall x | x in undefined :: x !in index)
    decreases undefined
  {
    if undefined != [] {
      var x := undefined[0];
      var next := if x in index then functions + [[index[x]]] else functions;
      AddDefinitionsFacts(next, undefined[1..], index);
      var r := AddDefinitions(functions, undefined, index);
      assert forall y | y in undefined :: y == x || y in undefined[1..];
      forall i | |functions| <= i < |r|
        ensures exists y | y in undefined && y in index :: r[i] == [index[y]]
      {
        if i < |next| {
          assert r[i] == next[i] == [index[x]];
          assert x in undefined;
        } else {
          var y :| y in undefined[1..] && y in index && r[i] == [index[y]];
          assert y in undefined;
        }
      }
    }
  }

  lemma UndefinedNameLinesFacts(lines: seq<string>)
    ensures forall l :: l in UndefinedNameLines(lines) <==> l in lines && IsSubstring(UndefinedNameMarker, l)
  {
    if lines != [] {
      UndefinedNameLinesFacts(lines[1..]);
      assert forall l :: l in lines <==> l == lines[0] || l in lines[1..];
    }
  }

  /** What each round reports: every name at most once, and never a
      parameter of the root or a built-in. */
  lemma AttemptReportsNoParameters(w: World, g: Globals, passes: Passes, argNames: seq<string>, st: ResolverState, rootBody: seq<Stmt>)
    requires Attempt(w, g, passes, argNames, st, rootBody).Ok?
    ensures var u := Attempt(w, g, passes, argNames, st, rootBody).value.undefined;
      Distinct(u) && forall x | x in u :: x !in argNames && x !in w.builtins
  {
    var t := RD.TransformStmts(w, g, Candidate(st, rootBody)).value;
    var opt := Optimized(passes, t);
    UN.UndefinedIff(opt, argNames, w.builtins, passes.Corrected?);
    forall x | x in UN.Undefined(opt, argNames, w.builtins, passes.Corrected?)
      ensures x !in w.builtins
    {
      if x in w.builtins {
        UN.BuiltinsNeverUndefined(opt, argNames, w.builtins, passes.Corrected?, x);
      }
    }
  }

  /** Code is acceptable when some round, with at least the dependencies the
      loop started from, rendered it with no undefined name, or when pyflakes
      reports no undefined name in it. */
  ghost predicate Acceptable(w: World, g: Globals, passes: Passes, argNames: seq<string>, st: ResolverState, rootBody: seq<Stmt>, code: string)
  {
    || (exists s: ResolverState ::
          s.imports == st.imports && st.functions <= s.functions && Attempt(w, g, passes, argNames, s, rootBody) == Ok(Round(code, [])))
    || UndefinedNameLines(w.pyflakes(code)) == []
  }

  lemma {:induction false} InlineLoopSound(w: World, g: Globals, passes: Passes, index: map<string, Stmt>, argNames: seq<string>, st: ResolverState,
                                           rootBody: seq<Stmt>, retries: int, limit: int, prev: set<string>, last: Option<string>)
    requires InlineLoop(w, g, passes, index, argNames, st, rootBody, retries, limit, prev, last).Ok?
    ensures Acceptable(w, g, passes, argNames, st, rootBody, InlineLoop(w, g, passes, index, argNames, st, rootBody, retries, limit, prev, last).value)
    decreases if retries <= limit then limit - retries + 1 else 0
  {
    if retries <= limit {
      var round := Attempt(w, g, passes, argNames, st, rootBody).value;
      if round.undefined == [] {
        assert st.functions <= st.functions;
      } else {
        var now := set x | x in round.undefined;
        var st' := st.(functions := AddDefinitions(st.functions, round.undefined, index));
        var code := InlineLoop(w, g, passes, index, argNames, st, rootBody, retries, limit, prev, last).value;
        InlineLoopSound(w, g, passes, index, argNames, st', rootBody, retries + 1, limit, now, Some(round.code));
        AddDefinitionsFacts(st.functions, round.undefined, index);
        assert code == InlineLoop(w, g, passes, index, argNames, st', rootBody, retries + 1, limit, now, Some(round.code)).value;
        if UndefinedNameLines(w.pyflakes(code)) != [] {
          var s: ResolverState :| s.imports == st'.imports && st'.functions <= s.functions
            && Attempt(w, g, passes, argNames, s, rootBody) == Ok(Round(code, []));
          assert st.functions <= s.functions;
        }
      }
    }
  }

  lemma {:induction false} InlineLoopUnresolved(w: World, g: Globals, passes: Passes, index: map<string, Stmt>, argNames: seq<string>, st: ResolverState,
                                                rootBody: seq<Stmt>, retries: int, limit: int, prev: set<string>, last: Option<string>)
    requires InlineLoop(w, g, passes, index, argNames, st, rootBody, retries, limit, prev, last).Err?
    requires InlineLoop(w, g, passes, index, argNames, st, rootBody, retries, limit, prev, last).error.Unresolved?
    ensures var u := InlineLoop(w, g, passes, index, argNames, st, rootBody, retries, limit, prev, last).error.names;
      u != [] && Distinct(u) && forall x | x in u :: x !in argNames && x !in w.builtins
    decreases if retries <= limit then limit - retries + 1 else 0
  {
    var r := InlineLoop(w, g, passes, index, argNames, st, rootBody, retries, limit, prev, last);
    if retries <= limit {
      var a := Attempt(w, g, passes, argNames, st, rootBody);
      AttemptFailure(w, g, passes, argNames, st, rootBody);
      if a.Ok? && a.value.undefined != [] {
        var round := a.value;
        AttemptReportsNoParameters(w, g, passes, argNames, st, rootBody);
        InlineLoopStep(w, g, passes, index, argNames, st, rootBody, retries, limit, prev, last, round);
        var now := set x | x in round.undefined;
        if prev != now {
          var st' := st.(functions := AddDefinitions(st.functions, round.undefined, index));
          InlineLoopUnresolved(w, g, passes, index, argNames, st', rootBody, retries + 1, limit, now, Some(round.code));
          assert r == InlineLoop(w, g, passes, index, argNames, st', rootBody, retries + 1, limit, now, Some(round.code));
        } else {
          assert r == Err(Unresolved(round.undefined));
        }
      }
    }
  }

  /** A round fails only where a dotted call's receiver cannot be looked up. */
  lemma AttemptFailure(w: World, g: Globals, passes: Passes, argNames: seq<string>, st: ResolverState, rootBody: seq<Stmt>)
    ensures Attempt(w, g, passes, argNames, st, rootBody).Err? ==> Attempt(w, g, passes, argNames, st, rootBody).error.LookupFailed?
  {
  }

  /** `get_inline` returns code only when a round found no undefined name in
      it or pyflakes agrees that none is left. */
  lemma GetInlineSound(w: World, g: Globals, passes: Passes, index: map<string, Stmt>, argNames: seq<string>, st: ResolverState, limit: int)
    requires GetInlineSpec(w, g, passes, index, argNames, st, limit).Ok?
    ensures st.root.Some? && RootBody(st.root.value).Some?
    ensures Acceptable(w, g, passes, argNames, st, RootBody(st.root.value).value, GetInlineSpec(w, g, passes, index, argNames, st, limit).value)
  {
    InlineLoopSound(w, g, passes, index, argNames, st, RootBody(st.root.value).value, 1, limit, {}, None);
  }

  /** The names in an "unable to resolve" error: at least one, each once, and
      never a parameter of the root or a built-in. */
  lemma GetInlineUnresolved(w: World, g: Globals, passes: Passes, index: map<string, Stmt>, argNames: seq<string>, st: ResolverState, limit: int)
    requires GetInlineSpec(w, g, passes, index, argNames, st, limit).Err?
    requires GetInlineSpec(w, g, passes, index, argNames, st, limit).error.Unresolved?
    ensures var u := GetInlineSpec(w, g, passes, index, argNames, st, limit).error.names;
      u != [] && Distinct(u) && forall x | x in u :: x !in argNames && x !in w.builtins
  {
    InlineLoopUnresolved(w, g, passes, index, argNames, st, RootBody(st.root.value).value, 1, limit, {}, None);
  }

  /** Names the project index does not know come back unchanged in the second
      round, which ends the loop with exactly those names. */
  lemma UnindexedNamesStagnate(w: World, g: Globals, passes: Passes, index: map<string, Stmt>, argNames: seq<string>, st: ResolverState,
                               rootBody: seq<Stmt>, limit: int, code: string, u: seq<string>)
    requires Attempt(w, g, passes, argNames, st, rootBody) == Ok(Round(code, u))
    requires u != [] && forall x | x in u :: x !in index
    requires limit >= 2
    ensures InlineLoop(w, g, passes, index, argNames, st, rootBody, 1, limit, {}, None) == Err(Unresolved(u))
  {
    AddDefinitionsFacts(st.functions, u, index);
    assert st.(functions := AddDefinitions(st.functions, u, index)) == st;
    assert u[0] in set x | x in u;
  }

  /** A clean first round is returned as it is. */
  lemma CleanFirstRound(w: World, g: Globals, passes: Passes, index: map<string, Stmt>, argNames: seq<string>, st: ResolverState,
                        rootBody: seq<Stmt>, limit: int, code: string)
    requires Attempt(w, g, passes, argNames, st, rootBody) == Ok(Round(code, []))
    requires limit >= 1
    ensures InlineLoop(w, g, passes, index, argNames, st, rootBody, 1, limit, {}, None) == Ok(code)
  {
  }

  /** With no retries allowed there is no code to lint. */
  lemma NoRoundsNoCode(w: World, g: Globals, passes: Passes, index: map<string, Stmt>, argNames: seq<string>, st: ResolverState, rootBody: seq<Stmt>, limit: int)
    requires limit < 1
    ensures InlineLoop(w, g, passes, index, argNames, st, rootBody, 1, limit, {}, None) == Err(NoCandidate)
  {
  }

  // ---------------------------------------------------------------------------
  // inline_function

  /** An "unable to resolve" error from `inline_function` never names a
      parameter of the function, keyword-only ones included. */
  lemma ParametersNeverUnresolved(w: World, g: Globals, passes: Passes, root: Obj, walk: seq<NameIndex.WalkDir>, secretClass: Obj, depth: nat)
    requires InlineFunctionSpec(w, g, passes, root, walk, secretClass, depth).Err?
    requires InlineFunctionSpec(w, g, passes, root, walk, secretClass, depth).error.Unresolved?
    ensures var u := InlineFunctionSpec(w, g, passes, root, walk, secretClass, depth).error.names;
      u != [] && forall x | x in u :: x !in w.fullArgSpec(root).0 && x !in w.fullArgSpec(root).1 && x !in w.builtins
  {
    var argNames := w.fullArgSpec(root).0 + w.fullArgSpec(root).1;
    var index := NameIndex.IndexWalk(walk).value;
    ResolveFailures(w, g, [secretClass], Empty, Some(root), true, depth);
    var st := Resolved(w, g, [secretClass], Empty, Some(root), true, depth).value;
    GetInlineUnresolved(w, g, passes, index, argNames, st, RetryLimit);
  }

  /** `inline_function` never inlines the source of the secrets class: the
      state `get_inline` starts from holds no dependency taken from it. */
  lemma SecretClassNeverInlined(w: World, g: Globals, root: Obj, secretClass: Obj, depth: nat)
    requires Resolved(w, g, [secretClass], Empty, Some(root), true, depth).Ok?
    ensures forall src | src in Resolved(w, g, [secretClass], Empty, Some(root), true, depth).value.functions ::
      exists o :: o != secretClass && !w.isModule(o) && w.sourceOf(o) == Some(src)
  {
    ResolvedGrows(w, g, [secretClass], Empty, Some(root), true, depth);
  }
}

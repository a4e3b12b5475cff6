# uc-functions: the inliner and the SQL generator, in Dafny

uc-functions turns a Python function into a Unity Catalog SQL function. It
works in three steps:

1. It **inlines** the function. Starting from the function's source, it
   collects every project function the code calls, following them
   recursively (`RecursiveResolver.resolve`). It keeps the import lines that
   name library modules. It stitches everything into one module and rewrites
   `mod.f()` calls on project code into `f()`. It drops unused imports. Then
   it retries with definitions from a project-wide name index until no name
   is left undefined (`get_inline`, `inline_function`).
2. It **maps the signature** to SQL types. Defaults are allowed only when
   they are `DatabricksSecret`s (`get_sql_type_mapping`).
3. It **generates the SQL**: `DROP` and `CREATE` statements, with a private
   Python function and a SQL wrapper when secrets are involved.
   `FunctionDeployment` registers, serializes and compiles functions by name.

The model follows the source module by module:

| Dafny file | module | models |
|---|---|---|
| `util.dfy` | `Util` | Python helpers: `str.join`, `in` on strings, `endswith`, insertion-ordered sets |
| `pyast.dfy` | `PyAst` | the fragment of Python's `ast` the visitors look at |
| `library_path.dfy` | `LibraryPath` | `is_library_path`, `is_library_module` |
| `runtime.dfy` | `Runtime` | what `inspect`, `importlib` and `getattr` report, as a `World` value; `is_from_libraries`, `FunctionMetadata.is_builtin_library` |
| `import_visitor.dfy` | `Imports` | `ImportVisitor`, `RecursiveResolver.get_imports_from_func_file` |
| `name_index.dfy` | `NameIndex` | `ASTNameNodeMappingExtractor`, `generate_ast_dict` |
| `replace_dots.dfy` | `ReplaceDots` | `ReplaceDotsTransformer` |
| `import_optimizer.dfy` | `ImportOptimization` | `ImportOptimizer` |
| `call_extraction.dfy` | `CallExtraction` | `FunctionMetadata`, `ExtractFunctionCallsVisitor` |
| `undefined_names.dfy` | `UndefinedNames` | `UnresolvedNamesFinder`, `find_undefined_names` |
| `resolver.dfy` | `Resolver` | `RecursiveResolver`, `lint_code_for_undefined_names`, `inline_function` |
| `functions.dfy` | `Functions` | the type table, `FunctionArg`, `get_sql_type_mapping`, `FunctionSerialized` and its statement generators |
| `deployment.dfy` | `Deployment` | `FunctionDeployment`: register, serialize, generate, compile |

**Where the source mutates, the model is imperative.**

- The visitors are classes whose fields the visit methods update:
  - `imports` and `import_objs` of `ImportVisitor`;
  - `name_dict` of the name index;
  - `used_names`, `imported_names` and `seen_imports` of `ImportOptimizer`;
  - the visited set and records of `ExtractFunctionCallsVisitor`;
  - the defined and used names of `UnresolvedNamesFinder`.
- `RecursiveResolver` and `FunctionDeployment` are classes too.
- Each method is proved against a function on the old state, e.g.
  `State() == Collect(old(State()), TargetsStmt(s))`.
- The properties are lemmas about those functions.

**Where the source is a pure transformation, the model is functional.**

- `ReplaceDotsTransformer` returns the rewritten tree.
- The type mapping and the statement generators compute values.

**Python's unordered and ordered collections.**

- Python sets that are iterated are modelled as insertion-ordered,
  duplicate-free sequences.
- `dict` key order is modelled by a sequence of keys.

**The running interpreter is given as data.** A `World` value holds:

- `inspect.getsource` and `inspect.getfile`, `importlib.import_module` and
  `getattr`;
- the formatter (`astor` plus `black`) and pyflakes' report lines;
- `dir(builtins)` and `inspect.getfullargspec`.

The model holds for every such world.

## Model

| member | source | states |
|---|---|---|
| `LibraryPath.Contains` | uc_functions/visitors.py:35-41 | Python's `sub in s` by scanning start positions: true exactly when `sub` occurs somewhere in `s` |
| `LibraryPath.IsLibraryPath` | uc_functions/visitors.py:35-41 | the early-exit loop over the markers answers exactly whether some marker (`site-packages`, `lib-dynload`, `dist-packages`, `lib/python`) occurs in the path |
| `LibraryPath.UnlocatableIsLocal` | uc_functions/visitors.py:9-32 | a module that does not import or has no file is a library exactly when it is `builtins`, so local code that fails to import is inlined |
| `LibraryPath.SitePackagesIsLibrary` | uc_functions/visitors.py:35-41 | any path through a `site-packages` directory is a library path |
| `LibraryPath.LibDynloadIsLibrary` | uc_functions/visitors.py:35-41 | any path through `lib-dynload` is a library path |
| `LibraryPath.NoDashNoBIsLocal` | uc_functions/visitors.py:35-41 | a path containing neither `-` nor `b` is never a library path |
| `LibraryPath.ProjectFilesAreLocal` | tests/visitors/test_helpers.py:37-39 | files of a home-directory project and under `/tmp` are not library paths |
| `Runtime.IsFromLibraries` | uc_functions/visitors.py:105-120 | `DatabricksSecret` always counts as a library; otherwise the call raises when `inspect.getfile` raises, and answers false exactly when neither `__file__` nor the `getfile` path is a library path |
| `Imports.AliasTexts` | uc_functions/visitors.py:72-83 | one `name [as alias]` text per alias, in order |
| `Imports.StripAliases` | uc_functions/visitors.py:72-83 | the aliases of a from-import with every `as` part removed, in order |
| `Imports.FromImportObjs` | uc_functions/visitors.py:72-83 | one `ImportObj(module, name, alias)` per alias of a from-import, library or not |
| `Imports.ImportVisitor.VisitImport` | uc_functions/visitors.py:61-70 | adds one line per library alias (alias kept) to the ordered import set, and one ImportObj per library alias |
| `Imports.ImportVisitor.VisitImportFrom` | uc_functions/visitors.py:72-83 | adds the alias-free `from m import ...` line when `m` is a library, and records an ImportObj for every alias |
| `Imports.ImportVisitor.VisitStmts` | uc_functions/visitors.py:56-83 | the generic visit: nested statements contribute their lines and objects in visiting order |
| `Imports.ImportsFromFile` | uc_functions/inline.py:106-111 | a fresh visitor over the file returns exactly `FileImports` of the tree |
| `Imports.FileImportsAreDistinctLibraryLines` | uc_functions/inline.py:106-111 | every collected line imports a library module and no line repeats |
| `Imports.PlainLibraryAliasKept` | uc_functions/visitors.py:61-70 | completeness: every library alias of a plain import gets its own line, `as` part included |
| `Imports.PlainLineHasAlias` | uc_functions/visitors.py:61-70 | soundness: each plain line names one alias of the statement, and that alias is a library |
| `Imports.FromImportLineIff` | uc_functions/visitors.py:72-83 | a from-import yields a line exactly when its module is given and is a library; its ImportObjs are recorded either way |
| `Imports.FromAliasDropped` | tests/visitors/test_import.py:72-83 | `from os import path as p` is collected as `from os import path`, which binds `path` and not `p` |
| `Imports.PlainAliasKept` | tests/visitors/test_import.py:28-34 | `import n as alias` of any library module (the test's `import os as operating_system`) is collected with its alias and rendered as written |
| `Imports.LocalPlainImportIgnored` | uc_functions/visitors.py:61-70 | a plain import of a non-library module yields neither a line nor an ImportObj |
| `NameIndex.ASTNameNodeMappingExtractor.VisitStmt` | uc_functions/visitors.py:86-102 | records functions, classes and single-name assignments (nested ones included) into `name_dict`, as `Record` of the old dictionary |
| `NameIndex.ASTNameNodeMappingExtractor.VisitStmts` | uc_functions/visitors.py:86-102 | visiting a module stores its definitions in order, each overwriting earlier entries |
| `NameIndex.LastIndexOf` | uc_functions/visitors.py:86-102 | finds the last definition of a name, or says that there is none |
| `NameIndex.RecordLastWriterWins` | uc_functions/visitors.py:86-102 | the dictionary maps a name to its last definition, and keeps the old entry when the tree does not define it |
| `NameIndex.RecordKeys` | uc_functions/visitors.py:86-102 | the keys are the old keys plus the defined names |
| `NameIndex.NameDictDefines` | uc_functions/visitors.py:86-102 | each entry is a function, class or single-name assignment that defines its key |
| `NameIndex.NestedDefinitionOverrides` | uc_functions/visitors.py:86-102 | `def f(): f = 1` maps `f` to the inner assignment, because the generic visit runs after the function is recorded |
| `NameIndex.CombinedDefinitions` | tests/visitors/test_ast_namenode_mapping_extract.py:57-68 | `def foo`, `class Bar` and `x = 1` are all indexed; a tuple assignment is not |
| `NameIndex.UpdateIsRecord` | uc_functions/inline.py:68-90 | `name_dict.update(d)` equals recording d's pairs one by one, so the project index is one dictionary in walk order |
| `NameIndex.GenerateAstDict` | uc_functions/inline.py:68-90 | the walk loop returns `IndexWalk`: the files of non-skipped directories ending in `.py`, folded in order, or the first parse error |
| `NameIndex.IndexDirectory` | uc_functions/inline.py:77-88 | the loop over one directory's files adds their definitions to the dictionary in order, or stops at the first file that does not parse |
| `NameIndex.SkipRootCheck` | uc_functions/inline.py:68-90 | true exactly when the directory path contains a skipped segment |
| `NameIndex.UnindexedFilesIgnored` | uc_functions/inline.py:68-90 | files in skipped directories and non-`.py` files change nothing, even when they do not parse |
| `NameIndex.SkippedDirectoryIgnored` | uc_functions/inline.py:68-90 | a skipped directory appended to the walk changes nothing |
| `NameIndex.IndexWalkFailsIff` | uc_functions/inline.py:68-90 | `generate_ast_dict` raises exactly when some indexed file does not parse |
| `ReplaceDots.VisitCall` | uc_functions/visitors.py:130-142 | `obj.f(...)` with `f` in the globals raises when `is_from_libraries` raises, and is rewritten to `f(...)` (same arguments) exactly when `f` is not from a library; every other call is left as it is |
| `ReplaceDots.TransformStmtsIdempotent` | uc_functions/visitors.py:123-142 | transforming an already transformed module changes nothing |
| `ReplaceDots.TransformKeepsImports` | uc_functions/visitors.py:123-142 | one statement out per statement in; import statements are untouched |
| `ReplaceDots.DotsReplacedForLocalFunctions` | tests/visitors/test_replace_dot.py:7-29 | `mock_lib.some_function()` and `mock_lib.another_function()` become bare calls when both names are bound to project code |
| `ReplaceDots.NestedCallNotRewritten` | uc_functions/visitors.py:130-142 | a call inside another call's arguments is not rewritten, because the transformer does not descend into calls |
| `ImportOptimization.TopName` | uc_functions/visitors.py:151-158 | the name `import a.b` binds: a dot-free prefix, and the whole name when it has no dot |
| `ImportOptimization.VisitTopDedups` | uc_functions/visitors.py:151-167 | after the first pass no two top-level imports have the same key: duplicate imports are dropped |
| `ImportOptimization.FirstPassKeepsFirstCopies` | uc_functions/visitors.py:144-167 | the first pass leaves, in input order, exactly the nodes of `FirstCopies`, with their identities, rewriting nothing but the bodies of defs and classes; the keys seen are those of every import in the module, nested ones included |
| `ImportOptimization.FirstCopiesIff` | uc_functions/visitors.py:151-167 | the reference keeps an input node exactly when it is not an import or no import before it, nested ones included, has its key |
| `ImportOptimization.NonImportsSurvive` | uc_functions/visitors.py:151-181 | every input statement that is not an import is left by both optimizers, with its identity and its header: only imports are removed |
| `ImportOptimization.VisitTopIds` | uc_functions/visitors.py:145-171 | the first pass keeps node identities distinct and draws them from the input |
| `ImportOptimization.RemoveRefFacts` | uc_functions/visitors.py:173-181 | `body.remove(node)` drops exactly the node with that identity, when it is at the top level |
| `ImportOptimization.RemoveUnusedFacts` | uc_functions/visitors.py:173-181 | the second pass leaves a node exactly when no unused recorded name points at it |
| `ImportOptimization.AsWrittenRemoval` | uc_functions/visitors.py:173-181 | `optimize_imports` as written: a node survives exactly when the first pass kept it and no never-used name has it as its last recorded node |
| `ImportOptimization.KeepUsedFacts` | uc_functions/visitors.py:173-181 | the corrected filter keeps exactly the nodes that are not unused imports |
| `ImportOptimization.CorrectedKeepsUsedImports` | uc_functions/visitors.py:173-181 | corrected rule: a kept node is left exactly when it is not an import or some name it binds is used, so no used name loses its import |
| `ImportOptimization.UnusedImportsRemoved` | tests/visitors/test_import_optimizer.py:68-78 | `import a`, `import b`, `x = 1` for any three different names (the test's `os`, `sys`, `x`): both imports go and the assignment stays |
| `ImportOptimization.DuplicateImportDropped` | tests/visitors/test_import_optimizer.py:23-28 | `import a` twice, for any name (the test's `os`): one key is seen and the second node is dropped |
| `ImportOptimization.SiblingNameUnusedRemovesImport` | uc_functions/visitors.py:160-181 | `from m import a, b` followed by `a('{}')`, for any two different names: as written the whole import goes and `a` is left unbound; the corrected pass keeps both statements |
| `ImportOptimization.DottedImportRemoved` | uc_functions/visitors.py:151-158 | `import p.q` followed by `p.q.join('a')`, for any package name `p` without a dot: as written the import goes, because the recorded name is `p.q`; the corrected pass keeps both statements |
| `ImportOptimization.KeepUsedNodes` | uc_functions/visitors.py:173-181 | the filtering loop of the corrected second pass returns exactly the nodes `KeepUsed` keeps |
| `ImportOptimization.ModuleTree.Remove` | uc_functions/visitors.py:178-181 | `list.remove` on the module body; reports whether Python would raise ValueError, which the source catches |
| `ImportOptimization.ImportOptimizer.VisitImportNode` | uc_functions/visitors.py:151-167 | records the bound names and the key, and drops the node when its key was seen |
| `ImportOptimization.ImportOptimizer.Visit` | uc_functions/visitors.py:145-171 | the generic visit of one statement, proved equal to the first-pass function |
| `ImportOptimization.ImportOptimizer.VisitModule` | uc_functions/visitors.py:145-171 | replaces the module body by the kept nodes |
| `ImportOptimization.ImportOptimizer.VisitTopNode` | uc_functions/visitors.py:151-171 | one top-level node: the state and the kept nodes become `VisitTop` of the nodes so far and this one |
| `ImportOptimization.ImportOptimizer.OptimizeImports` | uc_functions/visitors.py:173-181 | the module body ends as `OptimizeAsWritten` of the old one |
| `ImportOptimization.ImportOptimizer.OptimizeImportsCorrected` | uc_functions/visitors.py:173-181 | the module body ends as `OptimizeCorrected` of the old one |
| `ImportOptimization.IsUnusedImport` | uc_functions/visitors.py:173-181 | true exactly when the statement is an import none of whose bound names is used |
| `CallExtraction.Unwind` | uc_functions/visitors.py:224-240 | splits an attribute chain into its attribute names and a base that is not an attribute; the names are non-empty exactly for an attribute |
| `CallExtraction.HandleAttrBasedFunctionCall` | uc_functions/visitors.py:224-240 | the loop over the attribute chain builds the record `ChainMetadata` describes |
| `CallExtraction.RecordKeyMatches` | uc_functions/visitors.py:242-254 | a record is admitted under the key it reports (`unique_name`, or the bare name) |
| `CallExtraction.CollectAppend` | uc_functions/visitors.py:242-254 | visiting two runs of calls equals visiting them one after the other |
| `CallExtraction.ExtractFunctionCallsVisitor.VisitCall` | uc_functions/visitors.py:242-254 | records the call's target, then visits its children |
| `CallExtraction.ExtractFunctionCallsVisitor.VisitStmts` | uc_functions/visitors.py:214-254 | visiting a module collects the call targets in visiting order |
| `CallExtraction.ExtractFunctionCalls` | uc_functions/visitors.py:214-254 | a fresh visitor yields exactly `ExtractCalls` of the source |
| `CallExtraction.KeysFacts` | uc_functions/visitors.py:190-191 | one key per record, the record's own key |
| `CallExtraction.ExtractionKeepsFirstOccurrences` | uc_functions/visitors.py:242-254 | the extractor keeps exactly the first call of each key, in source order, and its visited set is the set of all keys met |
| `CallExtraction.ExtractedKeysDistinct` | uc_functions/visitors.py:242-254 | the records of a source unit have pairwise distinct keys |
| `CallExtraction.DottedCallShape` | uc_functions/visitors.py:224-240 | `root.p1...pk()` is recorded with module `root`, name `pk` and attrs `[root, p1, ..., p(k-1)]` |
| `CallExtraction.UnwindDotted` | uc_functions/visitors.py:224-240 | unwinding `root.p1...pk` gives the path reversed and the name `root` |
| `CallExtraction.DottedCallTargets` | uc_functions/visitors.py:242-254 | the statement `root.p1...pk(consts)` has exactly one call target |
| `CallExtraction.SameReceiverCollapses` | uc_functions/visitors.py:190-191 | `a.f()` then `a.g()` share the key `a`, which leaves out the called name, so only the first is recorded |
| `CallExtraction.OsPathAbsExample` | tests/visitors/test_extract_function_calls.py:17-28 | `os.path.abs('foobar')` gives one record: module `os`, name `abs`, attrs `[os, path]` |
| `UndefinedNames.UnresolvedNamesFinder.VisitImport` | uc_functions/visitors.py:262-266 | a plain import defines every alias and every imported (dotted) name, and reads nothing |
| `UndefinedNames.UnresolvedNamesFinder.VisitImportFrom` | uc_functions/visitors.py:268-272 | a from-import defines each alias, else the imported name, and reads nothing |
| `UndefinedNames.UnresolvedNamesFinder.VisitStmt` | uc_functions/visitors.py:262-301 | imports, definitions, parameters and assignment targets are added to the defined names; loaded names other than built-ins are added to the used names in order |
| `UndefinedNames.UnresolvedNamesFinder.VisitStmts` | uc_functions/visitors.py:257-301 | a module's statements contribute their definitions and their reads, in order |
| `UndefinedNames.FindUndefinedNames` | uc_functions/inline.py:37-41 | a fresh finder returns `Undefined`: the names read, first reads first, less the skipped and the defined ones |
| `UndefinedNames.UndefinedIff` | uc_functions/visitors.py:303-304 | a name is reported exactly when the module reads it and neither the skip list nor any definition covers it; each is reported once |
| `UndefinedNames.BuiltinsNeverUndefined` | uc_functions/visitors.py:296-301 | a built-in name is never reported |
| `UndefinedNames.CorrectedReportsFewer` | uc_functions/visitors.py:274-284 | defining keyword-only parameters only removes names from the report, and removes every keyword-only parameter of a top-level function |
| `UndefinedNames.KeywordOnlyParameterReported` | uc_functions/visitors.py:274-284 | `def f(*, k): return k` reports `k` as written, and nothing once keyword-only parameters are defined |
| `UndefinedNames.AssignedNameNotReported` | tests/visitors/test_undefined_names.py:82-92 | `x = 1` then `print(y)` reports only `y` |
| `UndefinedNames.FunctionAndParametersDefined` | tests/visitors/test_undefined_names.py:40-47 | `def foo(arg1, arg2): pass` defines the function and both parameters |
| `Resolver.Stitch` | uc_functions/inline.py:142-148 | the module is the imports, then the dependencies, then the root's body, each whole and in order |
| `Resolver.CandidateContents` | uc_functions/inline.py:187-193 | the module of a round holds every recorded import and every statement of every resolved dependency, and ends with the root's body |
| `Resolver.RecursiveResolver.Resolve` | uc_functions/inline.py:113-140 | success leaves the state `Resolved` computes; failure reports its error |
| `Resolver.RecursiveResolver.ResolveCall` | uc_functions/inline.py:131-140 | one call record of `resolve`'s loop, against `ResolvedCall` |
| `Resolver.RecursiveResolver.GetInline` | uc_functions/inline.py:174-222 | a missing or non-definition root is an error; otherwise the result is the retry loop's, `GetInlineSpec` of the state; with `Passes.AsWritten` every round runs the source's optimizer and finder |
| `Resolver.RecursiveResolver.RetryLoop` | uc_functions/inline.py:185-215 | the loop of rounds returns what `InlineLoop` specifies from round 1, with no previous names and no code yet, for the passes it is given |
| `Resolver.RecursiveResolver.RunAttempt` | uc_functions/inline.py:186-202 | one round's rendered code and undefined names are `Attempt` of the current state, or the lookup error; with `Passes.AsWritten` it runs `optimize_imports` as written and the finder that defines only positional parameters |
| `Resolver.RecursiveResolver.AppendDefinitions` | uc_functions/inline.py:205-209 | appends the definitions of the undefined names the index knows, in their order, and leaves imports and root alone |
| `Resolver.RecursiveResolver.FinalCheck` | uc_functions/inline.py:217-222 | after the budget runs out: no code is an error, linted code is returned only when pyflakes reports no undefined name |
| `Resolver.FindTarget` | uc_functions/inline.py:136-139 | the attribute walk returns the object the record names, or the missing-attribute error |
| `Resolver.LintCodeForUndefinedNames` | uc_functions/inline.py:154-172 | keeps exactly pyflakes' report lines that mention an undefined name |
| `Resolver.InlineFunction` | uc_functions/inline.py:249-270 | returns `InlineFunctionSpec`: index the project, resolve from the root with the secrets class skipped, then run `get_inline`; the deployment calls it with `Passes.AsWritten` |
| `Resolver.ResolvedGrows` | uc_functions/inline.py:113-140 | `resolve` only adds: every dependency is the source of an eligible object, every import line is a distinct library line, and only the root call sets the root |
| `Resolver.ResolveRoot` | uc_functions/inline.py:113-140 | resolving from an eligible root records its source as the root; the import lines are distinct library lines and every dependency came from an eligible object |
| `Resolver.SelfRecursionExhausts` | uc_functions/inline.py:101 | a function whose only call is to itself hits the nesting limit at every limit: `already_visited_functions` is never read |
| `Resolver.SelfCallExtracted` | uc_functions/visitors.py:242-254 | `def f(): return f()` yields one call record, for `f` itself |
| `Resolver.SelfRecursiveFunctionFails` | uc_functions/inline.py:113-140 | resolving `def f(): return f()` bound to `f` fails with the recursion limit at every nesting depth |
| `Resolver.ResolveFailures` | uc_functions/inline.py:113-140 | `resolve` fails only on a missing attribute or the nesting limit |
| `Resolver.IneligibleIgnored` | uc_functions/inline.py:114-121 | a skipped class, a module or an object without source adds nothing |
| `Resolver.AddDefinitionsFacts` | uc_functions/inline.py:205-209 | the appended definitions are index entries for undefined names, and nothing is appended exactly when no undefined name is indexed |
| `Resolver.UndefinedNameLinesFacts` | uc_functions/inline.py:154-172 | a line is kept exactly when it is a report line containing the undefined-name marker |
| `Resolver.AttemptReportsNoParameters` | uc_functions/inline.py:187-202 | each round, with either passes, reports every name at most once, and never a parameter of the root or a built-in |
| `Resolver.InlineLoopSound` | uc_functions/inline.py:185-222 | code the loop returns is acceptable: a round rendered it with no undefined name, or pyflakes reports none |
| `Resolver.GetInlineSound` | uc_functions/inline.py:174-222 | `get_inline` returns code only for a state with a root body, and only acceptable code |
| `Resolver.GetInlineUnresolved` | uc_functions/inline.py:174-222 | an "unable to resolve" error names at least one name, each once, never a parameter of the root or a built-in |
| `Resolver.UnindexedNamesStagnate` | uc_functions/inline.py:205-215 | names the index does not know come back unchanged in round two, which fails with exactly those names |
| `Resolver.CleanFirstRound` | uc_functions/inline.py:200-204 | a first round with no undefined name returns its code |
| `Resolver.NoRoundsNoCode` | uc_functions/inline.py:176-222 | with no rounds allowed there is no code, and the fallback fails |
| `Resolver.ParametersNeverUnresolved` | uc_functions/inline.py:249-270 | an unresolved-name error of `inline_function` never names a parameter of the function, keyword-only ones included |
| `Resolver.SecretClassNeverInlined` | uc_functions/inline.py:249-270 | no dependency `get_inline` starts from was taken from the secrets class |
| `Functions.SqlTypeNameIff` | uc_functions/functions.py:16-21 | exactly `int`, `float`, `str` and `bool` have a SQL type: INTEGER, FLOAT, STRING, BOOLEAN |
| `Functions.ResponseSqlTypeIff` | uc_functions/functions.py:24-33 | the response type is found exactly for the four known return types, with their SQL names, and raises for every other |
| `Functions.ArgOfIff` | uc_functions/functions.py:53-78 | a parameter maps exactly when its type is known and its default is absent, `None` or a secret; the entry keeps the name and the secret |
| `Functions.MappingEntries` | uc_functions/functions.py:53-78 | with distinct parameter names, a successful mapping has one entry per parameter, in parameter order |
| `Functions.SqlTypeMappingIff` | uc_functions/functions.py:53-78 | the mapping succeeds exactly when every parameter maps, and then it is those entries in order |
| `Functions.MappingFirstError` | uc_functions/functions.py:53-78 | a failing mapping reports the error of the first parameter that does not map |
| `Functions.GetSqlTypeMapping` | uc_functions/functions.py:53-78 | the loop over the parameters returns `SqlTypeMapping` |
| `Functions.ConvertParam` | uc_functions/functions.py:58-76 | one parameter's entry is `ArgOf` of it: an unknown type or an unsupported default is the matching error |
| `Functions.DefaultValueRejected` | tests/functions/test_sql_type_extraction.py:94-103 | `func(a: int = 1)` raises "default values are not supported" for `a` |
| `Functions.ContainsSecretsIff` | uc_functions/functions.py:91-94 | a function whose arguments are the mapping of a signature with distinct names has secrets exactly when some parameter's default is a `DatabricksSecret` |
| `Functions.DropStatementsShape` | uc_functions/functions.py:96-99 | one `DROP` for `catalog.schema.name`, preceded by one for the private `_name` exactly when there are secrets |
| `Functions.PublicArgsFacts` | uc_functions/functions.py:139-164 | the wrapper declares exactly the parameters without a secret |
| `Functions.CallArgsFacts` | uc_functions/functions.py:139-164 | the wrapper passes one argument per parameter, in order: the name, or `secret("scope", "key")` |
| `Functions.CreateStatementsShape` | uc_functions/functions.py:127-164 | with secrets: the Python code under `_name` and then the SQL wrapper; without: the Python code alone under the public name |
| `Functions.CreatesAreNotDrops` | uc_functions/functions.py:101-164 | no `CREATE` statement is a `DROP` |
| `Functions.DropsBeforeCreates` | uc_functions/functions.py:280-283 | the deployment statements put every `DROP` before every `CREATE` |
| `Deployment.Registered` | uc_functions/functions.py:357-358 | registering stores the function under its name, leaves the other entries and the serialized functions alone |
| `Deployment.RegisterResult` | uc_functions/functions.py:357-373 | `register` returns a wrapper exactly when the type mapping succeeds, remotely named `catalog.schema.name` |
| `Deployment.Added` | uc_functions/functions.py:246-256 | `_add_function` succeeds exactly when both the argument mapping and the response type succeed; a mapping error wins |
| `Deployment.AddedSecretsIff` | uc_functions/functions.py:91-94 | a function `_add_function` records contains secrets, and so gets the private function and the SQL wrapper, exactly when one of the user's parameters defaults to a secret |
| `Deployment.Serialization` | uc_functions/functions.py:349-355 | a serialization carries the function's name, catalog and schema; it fails only in the inliner or the type mapping |
| `Deployment.Serialized` | uc_functions/functions.py:349-355 | `serialize_fn` is a no-op for a serialized name, a KeyError exactly for an unregistered one, and otherwise adds exactly that name and keeps the deployment consistent |
| `Deployment.FunctionDeployment.Register` | uc_functions/functions.py:357-373 | the new state is `Registered` of the old one and the result is `RegisterResult` |
| `Deployment.FunctionDeployment.AddFunction` | uc_functions/functions.py:246-256 | records the serialization `Added` builds under the function's name, or reports its error and changes nothing; the registrations stay |
| `Deployment.FunctionDeployment.SerializeFn` | uc_functions/functions.py:349-355 | on success the new state is `Serialized` of the old one; on failure the error is `Serialized`'s and the registry is unchanged |
| `Deployment.FunctionDeployment.GetFunction` | uc_functions/functions.py:346-347 | finds the serialized function exactly when the name was serialized, with its name, catalog and schema; a KeyError otherwise |
| `Deployment.FunctionDeployment.GenerateDeploymentSql` | uc_functions/functions.py:280-283 | the drops, then the creates of the serialized function, or a KeyError |
| `Deployment.FunctionDeployment.CompileByName` | uc_functions/functions.py:329-337 | serializes and then returns the statements of `Compiled`; on failure the registry is unchanged |
| `Deployment.FunctionDeployment.Compile` | uc_functions/functions.py:339-344 | the new state and the failure are those of `CompileSpec`: one function for a non-empty name, otherwise every registered one in registration order, stopping at the first failure with the names before it still serialized |
| `Deployment.SerializeIdempotent` | uc_functions/functions.py:349-355 | a second `serialize_fn` of the same name changes nothing |
| `Deployment.ReregisteredStaysStale` | uc_functions/functions.py:349-358 | re-registering a serialized name keeps the old serialization: the new function is never inlined and the SQL stays the same |
| `Deployment.DeploymentSqlShape` | uc_functions/functions.py:280-283 | the SQL exists exactly for serialized names; every `DROP` comes first, and the last one names the function `remote` calls |
| `Deployment.CompiledAllFacts` | uc_functions/functions.py:339-344 | compiling a list of names touches nothing serialized before, adds only those names and keeps the registrations; at the end every name is serialized; on failure it stopped at a name that is not serialized, every name before it is, and the error is that name's `serialize_fn` error |
| `Deployment.CompileEverything` | uc_functions/functions.py:339-344 | `compile()` that gets to the end has serialized exactly the registered functions |

## Left out

- I/O is left out. It includes:
  - reading source files, `inspect` and `importlib`, the formatter and pyflakes, which are fields of the `World` value;
  - `os.walk`, which is a given sequence of directories whose files are already parsed (or not);
  - SQL execution (`run_sql`, `deploy`, `_deploy_by_name`);
  - the compiled-file writes (`ensure_and_get_compile_path` and `write_text` in `_compile_by_name`);
  - the `print` diagnostics.
- Deployment.FunctionDeployment.Register: the returned `wrapper` that forwards secret defaults, and its `remote` helpers (functions.py:208-244), are not modelled. Only the wrapper's remote name and remote arguments are.
- Parsing and rendering are not modelled as text:
  - source units are parsed trees;
  - the stitched module's text is `World.render` of the tree;
  - `ast.parse` of the rendered text is assumed to give the tree back.
- `textwrap.dedent` is not modelled; the templates are built already dedented.
- The `lru_cache` of `generate_ast_dict` (inline.py:68) is not modelled; it does not change results. `get_obj_source` (inline.py:23-28) is the `World.sourceOf` oracle.
- `inspect.getfile` returning nothing is merged with its raising.
- Python sets that are iterated have an unspecified order. The model uses insertion order, for:
  - the resolver's import lines;
  - the finder's undefined names.
- Resolver.RecursiveResolver.Resolve: on failure the resolver's partial state is not specified. `inline_function` builds a fresh resolver (inline.py:248-252), and the exception from `resolve` (inline.py:265) discards it.
- Resolver.RecursiveResolver.ResolveCall: on failure the partial state is not specified, for the same reason.
- The resolver's recursion has no cycle guard in the source. The model's fuel stands for Python's recursion limit, and running out is an error.
- The base64 branch of `generate_create_statements` (functions.py:112-126) is not modelled. It needs a base64 encoding and the `use_b64` flag, which the deployment never sets. `functionInlined` is always present here.
- Deployment.Serialized: order independence is not proved. Serializing two different names in either order gives the same state, but the proof was too large for the solver.
- The concrete SQL text of the tests is not proved equal, character for character. The statements are proved by their shape (`DropStatementsShape`, `CreateStatementsShape`, `CallArgsFacts`).
- The repository's example scripts and `setup.py` are not part of this model.

## Findings

| source | as written | input that shows it | evidently intended | confidence | as-written member | corrected member |
|---|---|---|---|---|---|---|
| uc_functions/visitors.py:160-181 | `optimize_imports` removes a whole import node as soon as one name it binds is unused | `from json import loads, dumps` followed by `loads('{}')`: the import goes and `loads` is unbound | keep an import while any name it binds is used | not executed | `ImportOptimization.SiblingNameUnusedRemovesImport` | `ImportOptimization.CorrectedKeepsUsedImports` |
| uc_functions/visitors.py:151-158 | `import os.path` records the name `os.path`, which never occurs as a `Name`, so the import is removed | `import os.path` followed by `os.path.join('a')`: the import goes and `os` is unbound | record the name the import binds, `os` | not executed | `ImportOptimization.DottedImportRemoved` | `ImportOptimization.CorrectedKeepsUsedImports` |
| uc_functions/visitors.py:274-284 | `visit_FunctionDef` defines `args.args` only, so keyword-only parameters are reported as undefined | `def f(*, k): return k` reports `k` | define keyword-only parameters too | not executed | `UndefinedNames.KeywordOnlyParameterReported` | `UndefinedNames.CorrectedReportsFewer` |

The inliner is modelled with both: `Resolver.Passes.AsWritten` runs the two passes as the source has them, and it is what `inline_function` and the deployment use; `Resolver.Passes.Corrected` runs the corrected optimizer and finder. The retry-loop lemmas hold for both.

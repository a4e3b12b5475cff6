// The Python runtime the inliner inspects, given as data: what `inspect`,
// `importlib` and `getattr` report about objects and module names, and the
// classifications built on them (uc_functions/visitors.py: is_library_module,
// is_from_libraries, FunctionMetadata.get_module_obj and is_builtin_library).

module Runtime {
  import opened Util
  import opened PyAst
  import opened LibraryPath

  /** What the inliner can observe about the running interpreter. */
  datatype World = World(
    /** `inspect.getsource(obj)`, parsed; absent when it raises. */
    sourceOf: Obj -> Option<seq<Stmt>>,
    /** The parsed source file that defines `obj`. */
    fileTreeOf: Obj -> seq<Stmt>,
    /** `isinstance(obj, types.ModuleType)` */
    isModule: Obj -> bool,
    /** `getattr(obj, attr)`; absent when it raises AttributeError. */
    getAttr: (Obj, string) -> Option<Obj>,
    /** `obj.__file__`, when the object has that attribute. */
    dunderFile: Obj -> Option<string>,
    /** `inspect.getfile(obj)`; absent when it raises TypeError. */
    getFile: Obj -> Option<string>,
    /** `importlib.import_module(name)`; absent when it raises ImportError. */
    importModule: string -> Option<Obj>,
    /** The formatted source text of a module tree (`astor.to_source`, then black). */
    render: seq<Stmt> -> string,
    /** The report lines pyflakes prints for a source text. */
    pyflakes: string -> seq<string>,
    /** `dir(builtins)` */
    builtins: set<string>,
    /** The `args` and `kwonlyargs` of `inspect.getfullargspec(obj)`. */
    fullArgSpec: Obj -> (seq<string>, seq<string>))

  /** A scope dictionary: `globals()` of the caller. */
  type Globals = map<string, Obj>

  /** Where `is_library_module` finds a module: it imports the module, asks
      `inspect.getfile`, and falls back to `__file__` when that raises. */
  function Locate(w: World, name: string): ModuleLocation
  {
    match w.importModule(name)
    case None => NotImportable
    case Some(mod) =>
      if w.getFile(mod).Some? then File(w.getFile(mod).value)
      else if w.dunderFile(mod).Some? then File(w.dunderFile(mod).value)
      else NoFile
  }

  /** `is_library_module`, for the world `w`. */
  predicate IsLibraryModuleIn(w: World, name: string)
  {
    IsLibraryModule(name, n => Locate(w, n))
  }

  /** `FunctionMetadata.get_module_obj`: the scope's binding, else the imported
      module (absent when the import raises). */
  function ModuleObj(w: World, globals: Globals, moduleName: string): Option<Obj>
  {
    if moduleName in globals then Some(globals[moduleName]) else w.importModule(moduleName)
  }

  /** `FunctionMetadata.is_builtin_library` for a record with a module: the
      module object's `__file__`, or else `inspect.getfile` of it, is a library
      path; every exception along the way counts as "not a library". */
  predicate IsBuiltinLibrary(w: World, globals: Globals, moduleName: string)
  {
    match ModuleObj(w, globals, moduleName)
    case None => false
    case Some(mod) =>
      if w.dunderFile(mod).Some? then IsLibraryPathSpec(w.dunderFile(mod).value)
      else w.getFile(mod).Some? && IsLibraryPathSpec(w.getFile(mod).value)
  }

  /** The class name that `is_from_libraries` always treats as a library. */
  const DatabricksSecretName := "DatabricksSecret"

  /** `is_from_libraries(name, globals)` for a bound name: true for
      "DatabricksSecret"; otherwise true when the object's `__file__` or its
      `inspect.getfile` path is a library path. Absent when `inspect.getfile`
      raises (for a built-in object), which the caller does not catch. */
  function IsFromLibraries(w: World, globals: Globals, name: string): (r: Option<bool>)
    requires name in globals
    ensures name == DatabricksSecretName ==> r == Some(true)
    ensures name != DatabricksSecretName && w.getFile(globals[name]).None? ==> r.None?
    ensures r == Some(false) <==>
      && name != DatabricksSecretName
      && w.getFile(globals[name]).Some?
      && !IsLibraryPathSpec(w.getFile(globals[name]).value)
      && (w.dunderFile(globals[name]).Some? ==> !IsLibraryPathSpec(w.dunderFile(globals[name]).value))
  {
    var obj := globals[name];
    var paths := if w.dunderFile(obj).Some? then [w.dunderFile(obj).value] else [];
    if name == DatabricksSecretName then Some(true)
    else match w.getFile(obj)
      case None => None
      case Some(f) =>
        var all := paths + [f];
        assert all[|all| - 1] == f;
        assert paths != [] ==> all[0] == paths[0];
        Some(exists i | 0 <= i < |all| :: IsLibraryPathSpec(all[i]))
  }
}

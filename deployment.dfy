// The deployment registry (uc_functions/functions.py: FunctionDeployment).
// `register` records a function under its `__name__`; `serialize_fn` inlines a
// registered function once and records what its SQL statements need;
// `generate_deployment_sql` turns a recorded function into its statements;
// `compile` does the last two for one function or for every registered one.
//
// What the interpreter reports about a function (`__name__`,
// `inspect.signature`) is part of the registered value; everything the
// inliner needs from the interpreter and the code tree is the `Env`.

module Deployment {
  import opened Util
  import opened PyAst
  import opened Runtime
  import F = Functions
  import R = Resolver
  import NameIndex

  /** The exceptions that escape the registry's methods. */
  datatype DeployError =
    | NotRegistered(name: string)    // KeyError from `_raw_functions`
    | NotSerialized(name: string)    // KeyError from `_serialized_functions`
    | InlineFailed(inlineError: R.InlineError)
    | TypeFailed(typeError: F.TypeError)

  /** A registered Python function: the object, its `__name__` and its
      signature. */
  datatype RawFunction = RawFunction(obj: Obj, name: string, signature: F.Signature)

  /** What `inline_function` needs beyond the function: the interpreter, the
      globals of the module that calls it, the walk of `root_dir`, the
      `DatabricksSecret` class and the interpreter's nesting limit. */
  datatype Env = Env(w: World, moduleGlobals: Globals, walk: seq<NameIndex.WalkDir>, secretClass: Obj, depth: nat)

  /** The two dictionaries of a deployment; `order` is the insertion order of
      `_raw_functions`. */
  datatype DeploymentState = DeploymentState(
    raw: map<string, RawFunction>,
    order: seq<string>,
    serialized: map<string, F.FunctionSerialized>)

  const Initial := DeploymentState(map[], [], map[])

  /** What the methods keep: every function is filed under its own name, the
      key order lists each registered name once, and every serialized function
      is a registered one, deployed to this catalog and schema. */
  predicate Consistent(catalog: string, schema: string, st: DeploymentState)
  {
    && (forall n | n in st.raw :: st.raw[n].name == n)
    && Distinct(st.order)
    && (forall n | n in st.order :: n in st.raw)
    && (forall n | n in st.raw :: n in st.order)
    && (forall n | n in st.serialized ::
          && n in st.raw
          && st.serialized[n].functionName == n
          && st.serialized[n].catalog == catalog
          && st.serialized[n].schema == schema)
  }

  // ---------------------------------------------------------------------------
  // register

  /** `catalog.schema.name`, the name `remote` calls. */
  function RemoteName(catalog: string, schema: string, name: string): string
  {
    catalog + "." + schema + "." + name
  }

  /** The wrapper `register` returns: the function it forwards to, the
      parameters' mapping and the deployed name. */
  datatype Wrapper = Wrapper(wrapped: RawFunction, remoteArgs: seq<F.FunctionArg>, remoteName: string)

  /** `_raw_functions[f.__name__] = f`; the key keeps its place when it is
      already present. */
  function Registered(st: DeploymentState, f: RawFunction): (r: DeploymentState)
    ensures r.raw.Keys == st.raw.Keys + {f.name} && r.raw[f.name] == f
    ensures forall n | n in st.raw && n != f.name :: r.raw[n] == st.raw[n]
    ensures r.serialized == st.serialized
  {
    st.(raw := st.raw[f.name := f], order := if f.name in st.raw then st.order else st.order + [f.name])
  }

  /** What `register` returns: the wrapper, or the mapping's error, which is
      raised only after the function is stored. */
  function RegisterResult(catalog: string, schema: string, f: RawFunction): (r: Result<Wrapper, DeployError>)
    ensures r.Ok? <==> F.SqlTypeMapping(f.signature).Ok?
    ensures r.Ok? ==> r.value.wrapped == f && r.value.remoteName == RemoteName(catalog, schema, f.name)
  {
    match F.SqlTypeMapping(f.signature)
    case Err(e) => Err(TypeFailed(e))
    case Ok(args) => Ok(Wrapper(f, args, RemoteName(catalog, schema, f.name)))
  }

  // ---------------------------------------------------------------------------
  // serialize_fn

  /** `_add_function` for a function whose inlined code is `code`: the
      parameters' mapping is computed before the return type, so its error
      wins. */
  function Added(catalog: string, schema: string, f: RawFunction, code: string): (r: Result<F.FunctionSerialized, DeployError>)
    ensures r.Ok? <==> F.SqlTypeMapping(f.signature).Ok? && F.ResponseSqlType(f.signature).Ok?
    ensures F.SqlTypeMapping(f.signature).Err? ==> r == Err(TypeFailed(F.SqlTypeMapping(f.signature).error))
    ensures r.Ok? ==>
      && r.value.functionName == f.name && r.value.catalog == catalog && r.value.schema == schema
      && r.value.functionInlined == Some(code)
      && r.value.args == F.SqlTypeMapping(f.signature).value
      && r.value.responseType == F.ResponseSqlType(f.signature).value
  {
    match F.SqlTypeMapping(f.signature)
    case Err(e) => Err(TypeFailed(e))
    case Ok(args) =>
      match F.ResponseSqlType(f.signature)
      case Err(e) => Err(TypeFailed(e))
      case Ok(t) => Ok(F.FunctionSerialized(args, t, Some(code), f.name, catalog, schema))
  }

  /** The globals `serialize_fn` hands to `inline_function`: the module's
      own, overridden by the deployment's. */
  function InlineGlobals(env: Env, globalsDict: Globals): Globals
  {
    env.moduleGlobals + globalsDict
  }

  /** `inline_function` for one function object: its code or its failure. */
  type Inliner = Obj -> Result<string, R.InlineError>

  /** The inliner `serialize_fn` runs: `inline_function` with the module's
      globals overridden by the deployment's. */
  function InlinerOf(env: Env, globalsDict: Globals): Inliner
  {
    o => R.InlineFunctionSpec(env.w, InlineGlobals(env, globalsDict), R.AsWritten, o, env.walk, env.secretClass, env.depth)
  }

  /** What `serialize_fn` records for a function it has not serialized yet:
      `inline_function`, then `_add_function`. */
  function Serialization(catalog: string, schema: string, inline: Inliner, f: RawFunction)
    : (r: Result<F.FunctionSerialized, DeployError>)
    ensures r.Ok? ==> r.value.functionName == f.name && r.value.catalog == catalog && r.value.schema == schema
    ensures r.Err? ==> r.error.InlineFailed? || r.error.TypeFailed?
  {
    match inline(f.obj)
    case Err(e) => Err(InlineFailed(e))
    case Ok(code) => Added(catalog, schema, f, code)
  }

  /** `serialize_fn(name)`: nothing happens for a serialized name; otherwise
      the registered function is inlined and recorded under its `__name__`.
      In a consistent registry, success files the name, keeps every other
      entry and the registrations, and keeps the registry consistent; failure
      is a KeyError exactly for an unknown name. */
  function Serialized(catalog: string, schema: string, inline: Inliner, st: DeploymentState, name: string)
    : (r: Result<DeploymentState, DeployError>)
    ensures name in st.serialized ==> r == Ok(st)
    ensures r.Err? ==> name !in st.serialized && (r.error == NotRegistered(name) <==> name !in st.raw)
    ensures Consistent(catalog, schema, st) && r.Ok? ==>
      && Consistent(catalog, schema, r.value)
      && r.value.raw == st.raw && r.value.order == st.order
      && r.value.serialized.Keys == st.serialized.Keys + {name}
      && (forall n | n in r.value.serialized ::
            if n in st.serialized then r.value.serialized[n] == st.serialized[n]
            else Serialization(catalog, schema, inline, st.raw[n]) == Ok(r.value.serialized[n]))
  {
    if name in st.serialized then Ok(st)
    else if name !in st.raw then Err(NotRegistered(name))
    else
      var f := st.raw[name];
      match Serialization(catalog, schema, inline, f)
      case Err(e) => Err(e)
      case Ok(fs) => Ok(st.(serialized := st.serialized[f.name := fs]))
  }

  // ---------------------------------------------------------------------------
  // generate_deployment_sql and compile

  /** `generate_deployment_sql(name)`, collected into a list. */
  function DeploymentSqlOf(st: DeploymentState, name: string): Result<seq<string>, DeployError>
  {
    if name in st.serialized then Ok(F.DeploymentSql(st.serialized[name])) else Err(NotSerialized(name))
  }

  /** `_compile_by_name(name)`: the new state and the statements. */
  function Compiled(catalog: string, schema: string, inline: Inliner, st: DeploymentState, name: string)
    : Result<(DeploymentState, seq<string>), DeployError>
  {
    match Serialized(catalog, schema, inline, st, name)
    case Err(e) => Err(e)
    case Ok(s) =>
      match DeploymentSqlOf(s, name)
      case Err(e) => Err(e)
      case Ok(stmts) => Ok((s, stmts))
  }

  /** The loop of `compile()` over the names from `names` on: the state it
      reaches and the failure that ends it, if any. A failing name leaves the
      state as it was, so the names compiled before it stay serialized. */
  function CompiledAll(catalog: string, schema: string, inline: Inliner, st: DeploymentState, names: seq<string>)
    : (DeploymentState, Option<DeployError>)
    decreases names
  {
    if names == [] then (st, None)
    else
      match Compiled(catalog, schema, inline, st, names[0])
      case Err(e) => (st, Some(e))
      case Ok(p) => CompiledAll(catalog, schema, inline, p.0, names[1..])
  }

  /** `compile(name)`: one function when a non-empty name is given, every
      registered one in registration order otherwise; the state reached and
      the failure, if any. */
  function CompileSpec(catalog: string, schema: string, inline: Inliner, st: DeploymentState, name: Option<string>)
    : (DeploymentState, Option<DeployError>)
  {
    if name.Some? && name.value != "" then
      match Compiled(catalog, schema, inline, st, name.value)
      case Err(e) => (st, Some(e))
      case Ok(p) => (p.0, None)
    else CompiledAll(catalog, schema, inline, st, st.order)
  }

  // ---------------------------------------------------------------------------
  // The registry object.

  /** A method's outcome against its specification: on success the state
      the specification gives, on failure its error and the state `before`
      the call. */
  predicate Reports(spec: Result<DeploymentState, DeployError>, failure: Option<DeployError>, st: DeploymentState, before: DeploymentState)
  {
    match spec
    case Ok(s) => failure.None? && st == s
    case Err(e) => failure == Some(e) && st == before
  }

  class FunctionDeployment {
    const catalog: string
    const schema: string
    const globalsDict: Globals
    var rawFunctions: map<string, RawFunction>
    var rawOrder: seq<string>
    var serializedFunctions: map<string, F.FunctionSerialized>

    function State(): DeploymentState
      reads this
    {
      DeploymentState(rawFunctions, rawOrder, serializedFunctions)
    }

    predicate Valid()
      reads this
    {
      Consistent(catalog, schema, State())
    }

    constructor(catalog: string, schema: string, globalsDict: Globals)
      ensures Valid() && State() == Initial
      ensures this.catalog == catalog && this.schema == schema && this.globalsDict == globalsDict
    {
      this.catalog := catalog;
      this.schema := schema;
      this.globalsDict := globalsDict;
      rawFunctions := map[];
      rawOrder := [];
      serializedFunctions := map[];
    }

    /** `register(function)` */
    method Register(f: RawFunction) returns (r: Result<Wrapper, DeployError>)
      requires Valid()
      modifies this
      ensures Valid() && State() == Registered(old(State()), f)
      ensures r == RegisterResult(catalog, schema, f)
    {
      if f.name !in rawFunctions {
        rawOrder := rawOrder + [f.name];
      }
      rawFunctions := rawFunctions[f.name := f];
      var args := F.GetSqlTypeMapping(f.signature);
      if args.Err? {
        return Err(TypeFailed(args.error));
      }
      r := Ok(Wrapper(f, args.value, RemoteName(catalog, schema, f.name)));
    }

    /** `_add_function(function)` for `f` inlined to `code`. */
    method AddFunction(f: RawFunction, code: string) returns (failure: Option<DeployError>)
      modifies this
      ensures rawFunctions == old(rawFunctions) && rawOrder == old(rawOrder)
      ensures match Added(catalog, schema, f, code)
        case Err(e) => failure == Some(e) && serializedFunctions == old(serializedFunctions)
        case Ok(fs) => failure.None? && serializedFunctions == old(serializedFunctions)[f.name := fs]
    {
      var args := F.GetSqlTypeMapping(f.signature);
      if args.Err? {
        return Some(TypeFailed(args.error));
      }
      var responseType := F.ResponseSqlType(f.signature);
      if responseType.Err? {
        return Some(TypeFailed(responseType.error));
      }
      serializedFunctions := serializedFunctions[f.name := F.FunctionSerialized(args.value, responseType.value, Some(code), f.name, catalog, schema)];
      return None;
    }

    /** `serialize_fn(name)` */
    method SerializeFn(env: Env, name: string) returns (failure: Option<DeployError>)
      requires Valid()
      modifies this
      ensures Valid()
      ensures Reports(Serialized(catalog, schema, InlinerOf(env, globalsDict), old(State()), name), failure, State(), old(State()))
    {
      if name in serializedFunctions {
        return None;
      }
      if name !in rawFunctions {
        return Some(NotRegistered(name));
      }
      var f := rawFunctions[name];
      var code := R.InlineFunction(env.w, InlineGlobals(env, globalsDict), R.AsWritten, f.obj, env.walk, env.secretClass, env.depth);
      if code.Err? {
        return Some(InlineFailed(code.error));
      }
      failure := AddFunction(f, code.value);
    }

    /** `get_function(name)` */
    function GetFunction(name: string): (r: Result<F.FunctionSerialized, DeployError>)
      reads this
      requires Valid()
      ensures r.Ok? <==> name in serializedFunctions
      ensures r.Ok? ==> r.value.functionName == name && r.value.catalog == catalog && r.value.schema == schema
      ensures r.Err? ==> r == Err(NotSerialized(name))
    {
      if name in serializedFunctions then Ok(serializedFunctions[name]) else Err(NotSerialized(name))
    }

    /** `generate_deployment_sql(name)`: the function's drops, then its
        creates. */
    method GenerateDeploymentSql(name: string) returns (r: Result<seq<string>, DeployError>)
      ensures r == DeploymentSqlOf(State(), name)
    {
      if name !in serializedFunctions {
        return Err(NotSerialized(name));
      }
      var fs := serializedFunctions[name];
      var stmts: seq<string> := [];
      var drops := F.DropStatements(fs);
      for i := 0 to |drops|
        invariant stmts == drops[..i]
      {
        stmts := stmts + [drops[i]];
      }
      var creates := F.CreateStatements(fs);
      for i := 0 to |creates|
        invariant stmts == drops + creates[..i]
      {
        stmts := stmts + [creates[i]];
      }
      assert drops[..|drops|] == drops && creates[..|creates|] == creates;
      return Ok(stmts);
    }

    /** `_compile_by_name(name)`, without writing the file. */
    method CompileByName(env: Env, name: string) returns (r: Result<seq<string>, DeployError>)
      requires Valid()
      modifies this
      ensures Valid()
      ensures match Compiled(catalog, schema, InlinerOf(env, globalsDict), old(State()), name)
        case Err(e) => r == Err(e) && State() == old(State())
        case Ok(p) => r == Ok(p.1) && State() == p.0
    {
      var failure := SerializeFn(env, name);
      if failure.Some? {
        return Err(failure.value);
      }
      r := GenerateDeploymentSql(name);
    }

    /** `compile(name)`, without writing the files. */
    method Compile(env: Env, name: Option<string>) returns (failure: Option<DeployError>)
      requires Valid()
      modifies this
      ensures Valid()
      ensures (State(), failure) == CompileSpec(catalog, schema, InlinerOf(env, globalsDict), old(State()), name)
    {
      if name.Some? && name.value != "" {
        var r := CompileByName(env, name.value);
        return if r.Err? then Some(r.error) else None;
      }
      var names := rawOrder;
      ghost var st0 := State();
      var i := 0;
      while i < |names|
        invariant 0 <= i <= |names| && Valid()
        invariant CompiledAll(catalog, schema, InlinerOf(env, globalsDict), st0, names) == CompiledAll(catalog, schema, InlinerOf(env, globalsDict), State(), names[i..])
      {
        assert names[i..][1..] == names[i + 1..];
        var r := CompileByName(env, names[i]);
        if r.Err? {
          return Some(r.error);
        }
        i := i + 1;
      }
      assert names[i..] == [];
      return None;
    }
  }

  // ---------------------------------------------------------------------------
  // Properties.

  /** A recorded function gets the secret-forwarding wrapper exactly when some
      parameter of the user's function defaults to a secret. */
  lemma AddedSecretsIff(catalog: string, schema: string, f: RawFunction, code: string)
    requires F.DistinctParamNames(f.signature.params)
    requires Added(catalog, schema, f, code).Ok?
    ensures Added(catalog, schema, f, code).value.ContainsSecrets() <==>
      exists i | 0 <= i < |f.signature.params| :: f.signature.params[i].default.SecretValue?
  {
    F.ContainsSecretsIff(Added(catalog, schema, f, code).value, f.signature);
  }

  /** `serialize_fn` is idempotent: a second call with the same name finds it
      serialized and changes nothing. */
  lemma SerializeIdempotent(catalog: string, schema: string, inline: Inliner, st: DeploymentState, name: string)
    requires Consistent(catalog, schema, st)
    requires Serialized(catalog, schema, inline, st, name).Ok?
    ensures var s := Serialized(catalog, schema, inline, st, name).value;
      Serialized(catalog, schema, inline, s, name) == Ok(s)
  {
  }

  /** Registering a function again under a name that is already serialized
      does not refresh the serialized entry: the new function is never
      inlined. */
  lemma ReregisteredStaysStale(catalog: string, schema: string, inline: Inliner, st: DeploymentState, f: RawFunction)
    requires Consistent(catalog, schema, st)
    requires f.name in st.serialized
    ensures Consistent(catalog, schema, Registered(st, f))
    ensures Serialized(catalog, schema, inline, Registered(st, f), f.name) == Ok(Registered(st, f))
    ensures DeploymentSqlOf(Registered(st, f), f.name) == DeploymentSqlOf(st, f.name)
  {
  }

  /** The statements of a serialized function put every `DROP` first, and its
      last `DROP` names the function `remote` calls. */
  lemma DeploymentSqlShape(catalog: string, schema: string, st: DeploymentState, name: string)
    requires Consistent(catalog, schema, st)
    ensures DeploymentSqlOf(st, name).Ok? <==> name in st.serialized
    ensures DeploymentSqlOf(st, name).Ok? ==>
      var sql := DeploymentSqlOf(st, name).value;
      var k := |F.DropStatements(st.serialized[name])|;
      && 1 <= k <= |sql|
      && (forall i | 0 <= i < |sql| :: F.IsDrop(sql[i]) <==> i < k)
      && sql[k - 1] == F.DropPrefix + RemoteName(catalog, schema, name) + ";"
  {
    if name in st.serialized {
      var fs := st.serialized[name];
      F.DropStatementsShape(fs);
      F.DropsBeforeCreates(fs);
      var sql := F.DeploymentSql(fs);
      var k := |F.DropStatements(fs)|;
      assert sql[k - 1] == F.DropStatements(fs)[k - 1];
    }
  }

  /** The loop of `compile()` over `names`, whether it gets to the end or
      stops: nothing serialized before is touched, only names of the list are
      added, and the registrations stay as they were. When it gets to the end
      every name is serialized. */
  lemma {:induction false} CompiledAllKeeps(catalog: string, schema: string, inline: Inliner, st: DeploymentState, names: seq<string>)
    requires Consistent(catalog, schema, st)
    ensures var (s, failure) := CompiledAll(catalog, schema, inline, st, names);
      && Consistent(catalog, schema, s)
      && s.raw == st.raw && s.order == st.order
      && (forall n | n in s.serialized :: n in st.serialized || n in names)
      && (forall n | n in st.serialized :: n in s.serialized && s.serialized[n] == st.serialized[n])
      && (failure.None? ==> forall n | n in names :: n in s.serialized)
    decreases names
  {
    if names != [] {
      var r := Serialized(catalog, schema, inline, st, names[0]);
      if r.Ok? {
        CompiledAllKeeps(catalog, schema, inline, r.value, names[1..]);
      }
    }
  }

  /** When the loop of `compile()` stops, it stops at a name that is still
      not serialized, every name before it is, and the error is that name's
      `serialize_fn` error in the state reached. */
  lemma {:induction false} CompiledAllStops(catalog: string, schema: string, inline: Inliner, st: DeploymentState, names: seq<string>)
    requires Consistent(catalog, schema, st)
    ensures var (s, failure) := CompiledAll(catalog, schema, inline, st, names);
      failure.Some? ==> exists k | 0 <= k < |names| ::
        && names[k] !in s.serialized
        && (forall n | n in names[..k] :: n in s.serialized)
        && Serialized(catalog, schema, inline, s, names[k]) == Err(failure.value)
    decreases names
  {
    if names != [] {
      var r := Serialized(catalog, schema, inline, st, names[0]);
      if r.Err? {
        assert names[..0] == [];
      } else {
        var s1 := r.value;
        CompiledAllKeeps(catalog, schema, inline, s1, names[1..]);
        CompiledAllStops(catalog, schema, inline, s1, names[1..]);
        var (s, failure) := CompiledAll(catalog, schema, inline, s1, names[1..]);
        if failure.Some? {
          var rest := names[1..];
          var k :| 0 <= k < |rest| && rest[k] !in s.serialized
            && (forall n | n in rest[..k] :: n in s.serialized)
            && Serialized(catalog, schema, inline, s, rest[k]) == Err(failure.value);
          PrefixOfTail(names, k);
        }
      }
    }
  }

  /** The loop of `compile()` over `names`, both when it gets to the end and
      when it stops. */
  lemma CompiledAllFacts(catalog: string, schema: string, inline: Inliner, st: DeploymentState, names: seq<string>)
    requires Consistent(catalog, schema, st)
    ensures var (s, failure) := CompiledAll(catalog, schema, inline, st, names);
      && Consistent(catalog, schema, s)
      && s.raw == st.raw && s.order == st.order
      && (forall n | n in s.serialized :: n in st.serialized || n in names)
      && (forall n | n in st.serialized :: n in s.serialized && s.serialized[n] == st.serialized[n])
      && (failure.None? ==> forall n | n in names :: n in s.serialized)
      && (failure.Some? ==> exists k | 0 <= k < |names| ::
            && names[k] !in s.serialized
            && (forall n | n in names[..k] :: n in s.serialized)
            && Serialized(catalog, schema, inline, s, names[k]) == Err(failure.value))
  {
    CompiledAllKeeps(catalog, schema, inline, st, names);
    CompiledAllStops(catalog, schema, inline, st, names);
  }

  /** `compile()` with no name, when it gets to the end, has serialized every
      registered function. */
  lemma CompileEverything(catalog: string, schema: string, inline: Inliner, st: DeploymentState)
    requires Consistent(catalog, schema, st)
    requires CompileSpec(catalog, schema, inline, st, None).1.None?
    ensures var s := CompileSpec(catalog, schema, inline, st, None).0;
      s.serialized.Keys == s.raw.Keys == st.raw.Keys
  {
    CompiledAllFacts(catalog, schema, inline, st, st.order);
  }
}

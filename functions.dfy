// From a Python function's signature to the SQL statements that deploy it
// (uc_functions/functions.py: python_to_sql_type_mapping,
// get_response_sql_type, get_sql_type_mapping, FunctionArg and
// FunctionSerialized). A signature is given as data: each parameter's name,
// annotation and default, and the return annotation.

module Functions {
  import opened Util

  /** A type annotation: one of the four the type table knows, or any other
      (a class, a missing annotation). */
  datatype Annotation = IntType | FloatType | StrType | BoolType | OtherType(name: string)

  /** `DatabricksSecret(scope, key, default_value)` */
  datatype Secret = Secret(scope: string, key: string, defaultValue: string)

  /** A parameter's default as `inspect` reports it: none at all, `None`, a
      secret, or any other value. */
  datatype Default = NoDefault | NoneValue | SecretValue(secret: Secret) | OtherValue

  datatype Param = Param(name: string, annotation: Annotation, default: Default)

  datatype Signature = Signature(params: seq<Param>, returnAnnotation: Annotation)

  /** The `ValueError`s of the type mapping. */
  datatype TypeError =
    | UnknownReturnType(returnAnnotation: Annotation)
    | UnknownParamType(paramAnnotation: Annotation)
    | DefaultNotSupported(param: string)

  const Unknown := "UNKNOWN"

  /** `python_to_sql_type_mapping.get(t, "UNKNOWN")` */
  function SqlTypeName(t: Annotation): string
  {
    match t
    case IntType => "INTEGER"
    case FloatType => "FLOAT"
    case StrType => "STRING"
    case BoolType => "BOOLEAN"
    case OtherType(_) => Unknown
  }

  /** `get_response_sql_type` */
  function ResponseSqlType(sig: Signature): Result<string, TypeError>
  {
    var sqlType := SqlTypeName(sig.returnAnnotation);
    if sqlType == Unknown then Err(UnknownReturnType(sig.returnAnnotation)) else Ok(sqlType)
  }

  /** A parameter of the SQL function: its name, SQL type and, for a secret
      parameter, the secret. */
  datatype FunctionArg = FunctionArg(name: string, sqlType: string, default: Option<Secret>)
  {
    /** `to_arg_string` */
    function ArgString(): string
    {
      name + " " + sqlType
    }

    /** `to_call_string` */
    function CallString(): string
    {
      name
    }

    /** `to_secret_call_string`: `secret("scope", "key")`, nothing for a
        parameter without a secret. */
    function SecretCallString(): Option<string>
    {
      match default
      case None => None
      case Some(s) => Some("secret(\"" + s.scope + "\", \"" + s.key + "\")")
    }
  }

  /** The default a mapping entry keeps: `None` for no default and for `None`,
      the secret for a secret; any other value raises. */
  function ArgDefault(p: Param): Result<Option<Secret>, TypeError>
  {
    match p.default
    case NoDefault => Ok(None)
    case NoneValue => Ok(None)
    case SecretValue(s) => Ok(Some(s))
    case OtherValue => Err(DefaultNotSupported(p.name))
  }

  /** The mapping entry for one parameter; the type is checked first. */
  function ArgOf(p: Param): Result<FunctionArg, TypeError>
  {
    var sqlType := SqlTypeName(p.annotation);
    if sqlType == Unknown then Err(UnknownParamType(p.annotation))
    else
      match ArgDefault(p)
      case Err(e) => Err(e)
      case Ok(d) => Ok(FunctionArg(p.name, sqlType, d))
  }

  function Names(args: seq<FunctionArg>): (r: seq<string>)
    ensures |r| == |args| && forall i | 0 <= i < |args| :: r[i] == args[i].name
  {
    seq(|args|, i requires 0 <= i < |args| => args[i].name)
  }

  /** No two parameters share a name, as Python guarantees of a signature. */
  predicate DistinctParamNames(params: seq<Param>)
  {
    forall i, j | 0 <= i < j < |params| :: params[i].name != params[j].name
  }

  /** `d[a.name] = a` on an insertion-ordered dictionary: an existing key keeps
      its place, a new key goes last. */
  function Put(d: seq<FunctionArg>, a: FunctionArg): seq<FunctionArg>
  {
    if a.name in Names(d) then
      seq(|d|, i requires 0 <= i < |d| => if d[i].name == a.name then a else d[i])
    else d + [a]
  }

  /** The loop of `get_sql_type_mapping` from the dictionary `d` on; the first
      failing parameter ends it. */
  function Mapping(d: seq<FunctionArg>, params: seq<Param>): Result<seq<FunctionArg>, TypeError>
    decreases params
  {
    if params == [] then Ok(d)
    else
      match ArgOf(params[0])
      case Err(e) => Err(e)
      case Ok(a) => Mapping(Put(d, a), params[1..])
  }

  /** `get_sql_type_mapping` */
  function SqlTypeMapping(sig: Signature): Result<seq<FunctionArg>, TypeError>
  {
    Mapping([], sig.params)
  }

  /** `get_sql_type_mapping`, with its loop. */
  method GetSqlTypeMapping(sig: Signature) returns (r: Result<seq<FunctionArg>, TypeError>)
    ensures r == SqlTypeMapping(sig)
  {
    var params := sig.params;
    var mapping: seq<FunctionArg> := [];
    var i := 0;
    while i < |params|
      invariant 0 <= i <= |params|
      invariant Mapping([], params) == Mapping(mapping, params[i..])
    {
      MappingStep(mapping, params, i);
      var arg := ConvertParam(params[i]);
      if arg.Err? {
        return Err(arg.error);
      }
      mapping := Put(mapping, arg.value);
      i := i + 1;
    }
    assert params[i..] == [];
    return Ok(mapping);
  }

  /** The body of the mapping loop for one parameter: its SQL type, then its
      default. */
  method ConvertParam(p: Param) returns (r: Result<FunctionArg, TypeError>)
    ensures r == ArgOf(p)
  {
    var sqlType := SqlTypeName(p.annotation);
    if sqlType == Unknown {
      return Err(UnknownParamType(p.annotation));
    }
    var d: Option<Secret>;
    match p.default {
      case NoDefault => d := None;
      case NoneValue => d := None;
      case SecretValue(s) => d := Some(s);
      case OtherValue => return Err(DefaultNotSupported(p.name));
    }
    return Ok(FunctionArg(p.name, sqlType, d));
  }

  /** One turn of the mapping loop: the parameter at `i` either fails the
      whole mapping or is stored before the rest is mapped. */
  lemma MappingStep(d: seq<FunctionArg>, params: seq<Param>, i: int)
    requires 0 <= i < |params|
    ensures ArgOf(params[i]).Err? ==> Mapping(d, params[i..]) == Err(ArgOf(params[i]).error)
    ensures ArgOf(params[i]).Ok? ==> Mapping(d, params[i..]) == Mapping(Put(d, ArgOf(params[i]).value), params[i + 1..])
  {
    assert params[i..][0] == params[i];
    assert params[i..][1..] == params[i + 1..];
  }

  // ---------------------------------------------------------------------------
  // Statements.

  /** What `_add_function` records for one function: its mapped parameters,
      its SQL return type, the inlined code, and where it is deployed. */
  datatype FunctionSerialized = FunctionSerialized(
    args: seq<FunctionArg>,
    responseType: string,
    functionInlined: Option<string>,
    functionName: string,
    catalog: string,
    schema: string)
  {
    /** `contains_secrets` */
    predicate ContainsSecrets()
    {
      exists a | a in args :: a.default.Some?
    }

    /** `catalog.schema.name` */
    function Qualified(name: string): string
    {
      catalog + "." + schema + "." + name
    }
  }

  const DropPrefix := "DROP FUNCTION IF EXISTS "
  const CreatePrefix := "\nCREATE OR REPLACE FUNCTION "

  function DropStatement(fs: FunctionSerialized, name: string): string
  {
    DropPrefix + fs.Qualified(name) + ";"
  }

  /** `generate_drop_statements` */
  function DropStatements(fs: FunctionSerialized): seq<string>
  {
    (if fs.ContainsSecrets() then [DropStatement(fs, "_" + fs.functionName)] else [])
      + [DropStatement(fs, fs.functionName)]
  }

  function ArgStrings(args: seq<FunctionArg>): (r: seq<string>)
    ensures |r| == |args| && forall i | 0 <= i < |args| :: r[i] == args[i].ArgString()
  {
    seq(|args|, i requires 0 <= i < |args| => args[i].ArgString())
  }

  /** The parameters the SQL wrapper declares: those without a secret. */
  function PublicArgs(args: seq<FunctionArg>): seq<FunctionArg>
  {
    if args == [] then []
    else (if args[0].default.None? then [args[0]] else []) + PublicArgs(args[1..])
  }

  /** The arguments the SQL wrapper passes on, one per parameter. */
  function CallArgs(args: seq<FunctionArg>): seq<string>
  {
    if args == [] then []
    else [if args[0].default.None? then args[0].CallString() else args[0].SecretCallString().value] + CallArgs(args[1..])
  }

  /** The Python function's name in SQL: private when a wrapper hides its
      secrets. */
  function PythonName(fs: FunctionSerialized): string
  {
    if fs.ContainsSecrets() then "_" + fs.functionName else fs.functionName
  }

  /** The `CREATE` statement for the inlined Python code. */
  function PythonCreate(fs: FunctionSerialized, code: string): string
  {
    CreatePrefix
      + (fs.Qualified(PythonName(fs)) + "(" + Join(ArgStrings(fs.args), ", ") + ")\n"
         + "RETURNS " + fs.responseType + "\n"
         + "LANGUAGE PYTHON\n"
         + "AS $$\n"
         + code + "\n"
         + "$$;\n")
  }

  /** The `CREATE` statement for the SQL wrapper that reads the secrets and
      calls the private Python function. */
  function SqlWrapper(fs: FunctionSerialized): string
  {
    CreatePrefix
      + (fs.Qualified(fs.functionName) + "(" + Join(ArgStrings(PublicArgs(fs.args)), ", ") + ")\n"
         + "RETURNS " + fs.responseType + "\n"
         + "LANGUAGE SQL \n"
         + "NOT DETERMINISTIC \n"
         + "CONTAINS SQL\n"
         + "RETURN SELECT " + fs.Qualified("_" + fs.functionName) + "(" + Join(CallArgs(fs.args), ", ") + ");\n")
  }

  /** `generate_create_statements` */
  function CreateStatements(fs: FunctionSerialized): seq<string>
  {
    (if fs.functionInlined.Some? then [PythonCreate(fs, fs.functionInlined.value)] else [])
      + (if fs.ContainsSecrets() then [SqlWrapper(fs)] else [])
  }

  /** `FunctionDeployment.generate_deployment_sql` for a serialized function. */
  function DeploymentSql(fs: FunctionSerialized): seq<string>
  {
    DropStatements(fs) + CreateStatements(fs)
  }

  // ---------------------------------------------------------------------------
  // Properties.

  /** The type table: exactly the four known annotations have a SQL type, and
      it is never the "unknown" marker. */
  lemma SqlTypeNameIff(t: Annotation)
    ensures SqlTypeName(t) != Unknown <==> t in {IntType, FloatType, StrType, BoolType}
    ensures t == IntType ==> SqlTypeName(t) == "INTEGER"
    ensures t == FloatType ==> SqlTypeName(t) == "FLOAT"
    ensures t == StrType ==> SqlTypeName(t) == "STRING"
    ensures t == BoolType ==> SqlTypeName(t) == "BOOLEAN"
  {
  }

  /** `get_response_sql_type` succeeds exactly for the four known return types,
      with their SQL names, and raises for every other. */
  lemma ResponseSqlTypeIff(sig: Signature)
    ensures ResponseSqlType(sig).Ok? <==> !sig.returnAnnotation.OtherType?
    ensures ResponseSqlType(sig).Ok? ==> ResponseSqlType(sig).value == SqlTypeName(sig.returnAnnotation)
    ensures ResponseSqlType(sig).Err? ==> ResponseSqlType(sig) == Err(UnknownReturnType(sig.returnAnnotation))
  {
  }

  /** A parameter maps exactly when its type is known and its default is
      absent, `None` or a secret; the entry keeps the name and the secret. */
  lemma ArgOfIff(p: Param)
    ensures ArgOf(p).Ok? <==> !p.annotation.OtherType? && !p.default.OtherValue?
    ensures ArgOf(p).Ok? ==>
      && ArgOf(p).value.name == p.name
      && ArgOf(p).value.sqlType == SqlTypeName(p.annotation)
      && ArgOf(p).value.default == (if p.default.SecretValue? then Some(p.default.secret) else None)
  {
  }

  lemma {:induction false} PutNew(d: seq<FunctionArg>, a: FunctionArg)
    requires a.name !in Names(d)
    ensures Put(d, a) == d + [a]
  {
  }

  /** The entries of parameters that all map, in order. */
  function Entries(params: seq<Param>): seq<FunctionArg>
    requires forall i | 0 <= i < |params| :: ArgOf(params[i]).Ok?
  {
    seq(|params|, i requires 0 <= i < |params| && ArgOf(params[i]).Ok? => ArgOf(params[i]).value)
  }

  /** With distinct parameter names, which Python guarantees, a successful
      mapping appends one entry per parameter, in parameter order. */
  lemma {:induction false} MappingEntries(d: seq<FunctionArg>, params: seq<Param>)
    requires DistinctParamNames(params)
    requires forall i | 0 <= i < |params| :: params[i].name !in Names(d)
    requires Mapping(d, params).Ok?
    ensures forall i | 0 <= i < |params| :: ArgOf(params[i]).Ok?
    ensures Mapping(d, params).value == d + Entries(params)
    decreases params
  {
    if params != [] {
      var a := ArgOf(params[0]).value;
      var rest := params[1..];
      assert ArgOf(params[0]).Ok? && Mapping(d, params) == Mapping(Put(d, a), rest);
      PutNew(d, a);
      TailNamesFresh(d, a, params);
      MappingEntries(d + [a], rest);
      EntriesCons(params);
    }
  }

  /** The entries of a non-empty parameter list: the first one's, then the
      rest's. */
  lemma EntriesCons(params: seq<Param>)
    requires params != [] && ArgOf(params[0]).Ok?
    requires forall i | 0 <= i < |params[1..]| :: ArgOf(params[1..][i]).Ok?
    ensures forall i | 0 <= i < |params| :: ArgOf(params[i]).Ok?
    ensures Entries(params) == [ArgOf(params[0]).value] + Entries(params[1..])
  {
    forall i | 0 < i < |params|
      ensures ArgOf(params[i]).Ok?
    {
      assert params[i] == params[1..][i - 1];
    }
  }

  /** After storing the first parameter's entry, the other parameters' names
      are still fresh and still distinct. */
  lemma TailNamesFresh(d: seq<FunctionArg>, a: FunctionArg, params: seq<Param>)
    requires params != [] && ArgOf(params[0]) == Ok(a)
    requires DistinctParamNames(params)
    requires forall i | 0 <= i < |params| :: params[i].name !in Names(d)
    ensures DistinctParamNames(params[1..])
    ensures forall i | 0 <= i < |params[1..]| :: params[1..][i].name !in Names(d + [a])
  {
    var rest := params[1..];
    assert Names(d + [a]) == Names(d) + [a.name];
    forall i | 0 <= i < |rest|
      ensures rest[i].name !in Names(d + [a])
    {
      ArgOfIff(params[0]);
      assert rest[i] == params[i + 1];
    }
  }

  /** `get_sql_type_mapping` on a signature with distinct parameter names: it
      succeeds exactly when every parameter maps, and then holds one entry per
      parameter, in order, keyed by the parameter's name. */
  lemma SqlTypeMappingIff(sig: Signature)
    requires DistinctParamNames(sig.params)
    ensures SqlTypeMapping(sig).Ok? <==> forall i | 0 <= i < |sig.params| :: ArgOf(sig.params[i]).Ok?
    ensures SqlTypeMapping(sig).Ok? ==>
      && |SqlTypeMapping(sig).value| == |sig.params|
      && (forall i | 0 <= i < |sig.params| ::
            SqlTypeMapping(sig).value[i] == ArgOf(sig.params[i]).value
            && SqlTypeMapping(sig).value[i].name == sig.params[i].name)
  {
    if SqlTypeMapping(sig).Ok? {
      MappingEntries([], sig.params);
      assert SqlTypeMapping(sig).value == Entries(sig.params);
      forall i | 0 <= i < |sig.params|
        ensures SqlTypeMapping(sig).value[i].name == sig.params[i].name
      {
        ArgOfIff(sig.params[i]);
      }
    } else {
      var k := MappingFirstError([], sig.params);
    }
  }

  /** A failing mapping reports the first parameter that does not map. */
  lemma {:induction false} MappingFirstError(d: seq<FunctionArg>, params: seq<Param>) returns (k: nat)
    requires Mapping(d, params).Err?
    ensures k < |params|
    ensures forall j | 0 <= j < k :: ArgOf(params[j]).Ok?
    ensures ArgOf(params[k]) == Err(Mapping(d, params).error)
    decreases params
  {
    if ArgOf(params[0]).Err? {
      k := 0;
    } else {
      var k' := MappingFirstError(Put(d, ArgOf(params[0]).value), params[1..]);
      k := k' + 1;
      forall j | 0 <= j < k
        ensures ArgOf(params[j]).Ok?
      {
        if j > 0 {
          assert params[j] == params[1..][j - 1];
        }
      }
    }
  }

  /** `func(a: int = 1)` raises "default values are not supported". */
  lemma DefaultValueRejected(a: string)
    ensures SqlTypeMapping(Signature([Param(a, IntType, OtherValue)], StrType)) == Err(DefaultNotSupported(a))
  {
    assert [Param(a, IntType, OtherValue)][0].default == OtherValue;
  }

  /** A function serialized from a signature has secrets exactly when the
      default of one of the signature's parameters is a secret: the test that
      decides whether the private function and its SQL wrapper are built. */
  lemma ContainsSecretsIff(fs: FunctionSerialized, sig: Signature)
    requires DistinctParamNames(sig.params)
    requires SqlTypeMapping(sig) == Ok(fs.args)
    ensures fs.ContainsSecrets() <==> exists i | 0 <= i < |sig.params| :: sig.params[i].default.SecretValue?
  {
    SqlTypeMappingIff(sig);
    if fs.ContainsSecrets() {
      var a :| a in fs.args && a.default.Some?;
      var i :| 0 <= i < |fs.args| && fs.args[i] == a;
      ArgOfIff(sig.params[i]);
    }
    if exists i | 0 <= i < |sig.params| :: sig.params[i].default.SecretValue? {
      var i :| 0 <= i < |sig.params| && sig.params[i].default.SecretValue?;
      ArgOfIff(sig.params[i]);
      assert fs.args[i] in fs.args;
    }
  }

  /** One `DROP` for the function itself, preceded by one for the private
      Python function exactly when there are secrets. */
  lemma DropStatementsShape(fs: FunctionSerialized)
    ensures var drops := DropStatements(fs);
      && |drops| == (if fs.ContainsSecrets() then 2 else 1)
      && drops[|drops| - 1] == DropPrefix + fs.catalog + "." + fs.schema + "." + fs.functionName + ";"
      && (fs.ContainsSecrets() ==> drops[0] == DropPrefix + fs.catalog + "." + fs.schema + "._" + fs.functionName + ";")
  {
    var c := fs.catalog;
    var s := fs.schema;
    var n := fs.functionName;
    assert c + "." + s + "." + ("_" + n) == c + "." + s + "._" + n;
  }

  /** The wrapper's parameters are exactly those without a secret, in order. */
  lemma {:induction false} PublicArgsFacts(args: seq<FunctionArg>)
    ensures forall a :: a in PublicArgs(args) <==> a in args && a.default.None?
    ensures |PublicArgs(args)| <= |args|
    decreases args
  {
    if args != [] {
      PublicArgsFacts(args[1..]);
      assert forall a :: a in args <==> a == args[0] || a in args[1..];
    }
  }

  /** The wrapper passes one argument per parameter, in order: the name for an
      ordinary parameter, `secret("scope", "key")` for a secret one. */
  lemma {:induction false} CallArgsFacts(args: seq<FunctionArg>)
    ensures |CallArgs(args)| == |args|
    ensures forall i | 0 <= i < |args| ::
      CallArgs(args)[i] == match args[i].default
        case None => args[i].name
        case Some(s) => "secret(\"" + s.scope + "\", \"" + s.key + "\")"
    decreases args
  {
    if args != [] {
      CallArgsFacts(args[1..]);
      forall i | 0 < i < |args|
        ensures CallArgs(args)[i] == CallArgs(args[1..])[i - 1]
      {
      }
    }
  }

  /** With secrets, the Python code is created under the private name and a SQL
      wrapper under the public name; without, the Python code alone under the
      public name. */
  lemma CreateStatementsShape(fs: FunctionSerialized)
    requires fs.functionInlined.Some?
    ensures var creates := DeploymentSql(fs)[|DropStatements(fs)|..];
      && creates[0] == PythonCreate(fs, fs.functionInlined.value)
      && (fs.ContainsSecrets() ==> PythonName(fs) == "_" + fs.functionName && creates == [creates[0], SqlWrapper(fs)])
      && (!fs.ContainsSecrets() ==> PythonName(fs) == fs.functionName && creates == [creates[0]])
  {
    assert DeploymentSql(fs)[|DropStatements(fs)|..] == CreateStatements(fs);
  }

  predicate IsDrop(stmt: string)
  {
    |DropPrefix| <= |stmt| && stmt[..|DropPrefix|] == DropPrefix
  }

  lemma CreateIsNotDrop(rest: string)
    ensures !IsDrop(CreatePrefix + rest) && (CreatePrefix + rest)[0] == '\n'
  {
    assert (CreatePrefix + rest)[0] == CreatePrefix[0] == '\n' != DropPrefix[0];
  }

  lemma CreatesAreNotDrops(fs: FunctionSerialized)
    ensures forall stmt | stmt in CreateStatements(fs) :: !IsDrop(stmt) && stmt[0] == '\n'
  {
    forall stmt | stmt in CreateStatements(fs)
      ensures !IsDrop(stmt) && stmt[0] == '\n'
    {
      var rest := if stmt == SqlWrapper(fs) then
          fs.Qualified(fs.functionName) + "(" + Join(ArgStrings(PublicArgs(fs.args)), ", ") + ")\n"
          + "RETURNS " + fs.responseType + "\n"
          + "LANGUAGE SQL \n"
          + "NOT DETERMINISTIC \n"
          + "CONTAINS SQL\n"
          + "RETURN SELECT " + fs.Qualified("_" + fs.functionName) + "(" + Join(CallArgs(fs.args), ", ") + ");\n"
        else
          fs.Qualified(PythonName(fs)) + "(" + Join(ArgStrings(fs.args), ", ") + ")\n"
          + "RETURNS " + fs.responseType + "\n"
          + "LANGUAGE PYTHON\n"
          + "AS $$\n"
          + fs.functionInlined.value + "\n"
          + "$$;\n";
      assert stmt == CreatePrefix + rest;
      CreateIsNotDrop(rest);
    }
  }

  /** `generate_deployment_sql` puts every `DROP` before every `CREATE`. */
  lemma DropsBeforeCreates(fs: FunctionSerialized)
    ensures var sql := DeploymentSql(fs);
      forall i, j | 0 <= i < j < |sql| :: IsDrop(sql[j]) ==> IsDrop(sql[i])
    ensures var sql := DeploymentSql(fs);
      forall i | 0 <= i < |sql| :: IsDrop(sql[i]) <==> i < |DropStatements(fs)|
  {
    var sql := DeploymentSql(fs);
    var drops := DropStatements(fs);
    CreatesAreNotDrops(fs);
    forall i | 0 <= i < |drops|
      ensures IsDrop(drops[i])
    {
      var n := if i == |drops| - 1 then fs.functionName else "_" + fs.functionName;
      assert drops[i] == DropPrefix + (fs.Qualified(n) + ";");
    }
    forall i | |drops| <= i < |sql|
      ensures !IsDrop(sql[i])
    {
      assert sql[i] == CreateStatements(fs)[i - |drops|];
      assert sql[i] in CreateStatements(fs);
    }
  }
}

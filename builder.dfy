/**
 * The procedure-invocation builder: `LoadStoredProc` creates a stored-procedure command
 * and the `WithSqlParam` / `WithSqlParams` overloads append parameters to it.  Each
 * overload returns the command itself for chaining, or throws when its guard rejects
 * the command.
 */
module Builder {
  import opened Base
  import opened Driver

  /** A C# `short`: the type of the `commandTimeout` argument. */
  newtype int16 = x: int | -0x8000 <= x < 0x8000

  /**
   * The command text: `schema.name` when the default schema is to be prepended and the
   * model declares one, else the bare name.
   */
  function ProcedureText(name: string, prependDefaultSchema: bool, defaultSchema: Option<string>): (t: string)
    ensures |t| >= |name| && t[|t| - |name|..] == name
    ensures prependDefaultSchema && defaultSchema.Some? ==>
              |t| == |defaultSchema.value| + 1 + |name|
              && t[..|defaultSchema.value|] == defaultSchema.value && t[|defaultSchema.value|] == '.'
    ensures !(prependDefaultSchema && defaultSchema.Some?) ==> t == name
  {
    if prependDefaultSchema && defaultSchema.Some? then defaultSchema.value + "." + name else name
  }

  /** The guard of every binding overload: empty text and a type other than stored procedure. */
  predicate Rejects(text: string, kind: CommandType): (r: bool)
    ensures kind == StoredProcedure ==> !r
    ensures |text| > 0 ==> !r
    ensures r ==> text == "" && (kind == Text || kind == TableDirect)
  {
    |text| == 0 && kind != StoredProcedure
  }

  /** `configureParam?.Invoke(param)`: an absent callback leaves the parameter as it is. */
  function Configure(configure: Option<Parameter -> Parameter>, p: Parameter): (r: Parameter)
    ensures configure.None? ==> r == p
  {
    if configure.Some? then configure.value(p) else p
  }

  /**
   * `context.LoadStoredProc(name, prependDefaultSchema, commandTimeout)`; `defaultSchema` is
   * what the context's model declares.
   */
  method LoadStoredProc(connection: Connection, name: string, defaultSchema: Option<string>,
                        prependDefaultSchema: bool := true, commandTimeout: int16 := 30)
    returns (cmd: Command)
    ensures fresh(cmd) && cmd.connection == connection
    ensures cmd.text == ProcedureText(name, prependDefaultSchema, defaultSchema)
    ensures cmd.kind == StoredProcedure && cmd.timeout == commandTimeout as int
    ensures cmd.parameters == [] && cmd.disposeCount == 0
    ensures !Rejects(cmd.text, cmd.kind)
  {
    cmd := new Command(connection);
    cmd.timeout := commandTimeout as int;
    var storedProcName := name;
    if prependDefaultSchema {
      if defaultSchema.Some? {
        storedProcName := defaultSchema.value + "." + storedProcName;
      }
    }
    cmd.text := storedProcName;
    cmd.kind := StoredProcedure;
  }

  /** `WithSqlParam(name, value, configureParam)`: a null value is stored as DBNull. */
  method WithSqlParamValue(cmd: Command, paramName: string, paramValue: Option<Datum>,
                           configureParam: Option<Parameter -> Parameter> := None)
    returns (r: Result<Command>)
    modifies cmd`parameters
    ensures Rejects(cmd.text, cmd.kind) ==>
              r == Failure(InvalidOperation(LoadStoredProcFirst)) && cmd.parameters == old(cmd.parameters)
    ensures !Rejects(cmd.text, cmd.kind) ==>
              && r == Success(cmd)
              && var cell := if paramValue.Some? then Value(paramValue.value) else DBNull;
                 cmd.parameters == old(cmd.parameters) + [Configure(configureParam, Parameter(paramName, Some(cell), Input))]
  {
    if |cmd.text| == 0 && cmd.kind != StoredProcedure {
      return Failure(InvalidOperation(LoadStoredProcFirst));
    }
    var cell := if paramValue.Some? then Value(paramValue.value) else DBNull;
    var param := Parameter(paramName, None, Input);
    param := param.(value := Some(cell));
    param := Configure(configureParam, param);
    cmd.parameters := cmd.parameters + [param];
    r := Success(cmd);
  }

  /** `WithSqlParam(name, configureParam)`: the parameter's value is left unassigned. */
  method WithSqlParamNamed(cmd: Command, paramName: string, configureParam: Option<Parameter -> Parameter> := None)
    returns (r: Result<Command>)
    modifies cmd`parameters
    ensures Rejects(cmd.text, cmd.kind) ==>
              r == Failure(InvalidOperation(LoadStoredProcFirst)) && cmd.parameters == old(cmd.parameters)
    ensures !Rejects(cmd.text, cmd.kind) ==>
              r == Success(cmd)
              && cmd.parameters == old(cmd.parameters) + [Configure(configureParam, Parameter(paramName, None, Input))]
  {
    if |cmd.text| == 0 && cmd.kind != StoredProcedure {
      return Failure(InvalidOperation(LoadStoredProcFirst));
    }
    var param := Parameter(paramName, None, Input);
    param := Configure(configureParam, param);
    cmd.parameters := cmd.parameters + [param];
    r := Success(cmd);
  }

  /** `WithSqlParam(SqlParameter parameter)`: a ready-made parameter is appended as it is. */
  method WithSqlParam(cmd: Command, parameter: Parameter) returns (r: Result<Command>)
    modifies cmd`parameters
    ensures Rejects(cmd.text, cmd.kind) ==>
              r == Failure(InvalidOperation(LoadStoredProcFirst)) && cmd.parameters == old(cmd.parameters)
    ensures !Rejects(cmd.text, cmd.kind) ==>
              r == Success(cmd) && cmd.parameters == old(cmd.parameters) + [parameter]
  {
    if |cmd.text| == 0 && cmd.kind != StoredProcedure {
      return Failure(InvalidOperation(LoadStoredProcFirst));
    }
    cmd.parameters := cmd.parameters + [parameter];
    r := Success(cmd);
  }

  /** `WithSqlParams(SqlParameter[] parameters)`: the array is appended in its own order. */
  method WithSqlParams(cmd: Command, parameters: seq<Parameter>) returns (r: Result<Command>)
    modifies cmd`parameters
    ensures Rejects(cmd.text, cmd.kind) ==>
              r == Failure(InvalidOperation(LoadStoredProcFirst)) && cmd.parameters == old(cmd.parameters)
    ensures !Rejects(cmd.text, cmd.kind) ==>
              && r == Success(cmd)
              && |cmd.parameters| == |old(cmd.parameters)| + |parameters|
              && cmd.parameters[..|old(cmd.parameters)|] == old(cmd.parameters)
              && cmd.parameters[|old(cmd.parameters)|..] == parameters
  {
    if |cmd.text| == 0 && cmd.kind != StoredProcedure {
      return Failure(InvalidOperation(LoadStoredProcFirst));
    }
    cmd.parameters := cmd.parameters + parameters;
    r := Success(cmd);
  }
}

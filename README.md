# EFCoreFluent stored-procedure helpers, modelled in Dafny

This project models `EFExtensions.cs`, the core of EFCoreFluent. That file holds extension methods that make
a stored-procedure call from EF Core in four steps:

- build the command (`LoadStoredProc`);
- bind its parameters (the three `WithSqlParam` overloads and `WithSqlParams`);
- execute it, handing a forward-only result cursor (`SprocResults`) to one or more caller handlers
  (`ExecuteStoredProc`, and the two `ExecuteStoredProcAsync` overloads);
- or execute it as a non-query (`ExecuteStoredNonQuery`, `ExecuteStoredNonQueryAsync`).

Below the helpers, the cursor maps rows to objects (`MapToList`) or reads one scalar (`MapToValue`).

The files are:

- `base.dfy`: `Option`, `Result` and the exceptions that reach a caller.
- `driver.dfy`: an abstract ADO.NET driver.
  - The driver is made of a `Connection`, a `Command` and a forward-only `Reader`.
  - The reader works over a sequence of result sets. Each set has an ordered column schema (name and an
    optional ordinal) and rows of `DBNull`-or-value cells.
  - The connection records every driver-side effect in a ghost `trace`, in order: open, reader created,
    reader disposed, connection closed, command disposed. It also keeps a close counter.
- `mapping.dfy`: the column mapping of `MapToList` and the object built for each row.
  - The column mapping is the `Where` filter followed by `ToDictionary` on upper-cased names.
  - A reflected type becomes an ordered list of property names, and an object becomes a map from name to
    field value.
- `results.dfy`: the `SprocResults` class and its two mappers, written as loops over the reader.
  - Each mapper is proved against a function of the reader state (`ListStep`, `ScalarStep`).
  - A caller's handler is a script of cursor operations (`Op`), any of which may throw.
  - `RunOps` says what one handler learns.
- `builder.dfy`: `LoadStoredProc` and the parameter binders, as methods on the `Command` object.
- `lifecycle.dfy`: the execution methods and what they are proved against.
  - Each method is proved against a function of the connection state and the driver's answers:
    `ReaderRunOf` or `NonQueryRunOf`.
  - Lemmas state the guarantees about those functions: which exception reaches the caller, the order of
    open, dispose and close, and the final connection state.

The driver's answers come in as parameters: a `ReaderScript` or `NonQueryScript` holding an optional open
failure and the execution's result sets, row count or failure. An asynchronous overload behaves as its
synchronous counterpart. A cancelled token is the driver failing with `Cancelled` at the open step or the
execute step, or `NextResultAsync` raising `Cancelled`.

In six places the code does something a reader of the method names and signatures might not expect.
The model follows the code in each:

1. The single-handler paths close the connection whenever `manageConnection` holds, including when
   the connection was already open on entry (`EFExtensions.cs:254-257`). `ReaderRunOutcome` states that the
   connection ends closed exactly when it is managed or was already closed.
2. A failing non-query propagates the driver's exception. The initial `-1` is never returned on a failure
   (`EFExtensions.cs:354-376`).
3. The binding guard rejects only an empty text together with a command type other than stored procedure
   (`EFExtensions.cs:63`). A command with a stored-procedure type and an empty text is accepted.
4. A missing handler, or a missing handler array, throws before `using (command)`. The command is
   then not disposed, and nothing else changes.
5. An open failure, including cancellation, happens before the `try`. The connection is not closed, but
   `using (command)` still disposes the command.
6. The non-query paths open a closed connection whatever `manageConnection` says (`EFExtensions.cs:358`).

## Model

| member | source | states |
|---|---|---|
| Builder.ProcedureText | EFCoreFluent/src/EFCoreFluent/EFExtensions.cs:33-46 | the text is `schema + "." + name` when prepending is asked for and the model declares a schema, and the bare name otherwise; it always ends with the name |
| Builder.LoadStoredProc | EFCoreFluent/src/EFCoreFluent/EFExtensions.cs:27-50 | a fresh command on the context's connection, with the schema-qualified text, the stored-procedure type, the given `short` timeout and no parameters; the binding guard never rejects it |
| Builder.Rejects | EFCoreFluent/src/EFCoreFluent/EFExtensions.cs:63 | the guard shared by all four binders: it never rejects a stored-procedure command or a non-empty text, and when it rejects, the text is empty and the type is `Text` or `TableDirect` |
| Builder.Configure | EFCoreFluent/src/EFCoreFluent/EFExtensions.cs:69 | `configureParam?.Invoke(param)`: with no callback, the parameter is left as it is |
| Builder.WithSqlParamValue | EFCoreFluent/src/EFCoreFluent/EFExtensions.cs:60-72 | throws `InvalidOperationException("Call LoadStoredProc before using this method")` exactly when the text is empty and the type is not stored procedure, leaving the parameters as they were; otherwise it appends one parameter carrying the value, or DBNull for a null, after the callback runs on it, and returns the command |
| Builder.WithSqlParamNamed | EFCoreFluent/src/EFCoreFluent/EFExtensions.cs:81-92 | the same guard; otherwise it appends one parameter with that name, no value assigned and the callback applied, and returns the command |
| Builder.WithSqlParam | EFCoreFluent/src/EFCoreFluent/EFExtensions.cs:101-109 | the same guard; otherwise the given parameter is appended unchanged after the existing ones |
| Builder.WithSqlParams | EFCoreFluent/src/EFCoreFluent/EFExtensions.cs:118-126 | the same guard; otherwise the existing parameters are kept as a prefix and the array follows in its own order |
| Mapping.Fold | EFCoreFluent/src/EFCoreFluent/EFExtensions.cs:186 | upper-casing keeps the length, leaves no lower-case letter, and matches its input ignoring case |
| Mapping.FoldIgnoresCase | EFCoreFluent/src/EFCoreFluent/EFExtensions.cs:175-176 | two names upper-case to the same key if and only if they are equal ignoring case, where equality ignoring case is defined character by character, independently of `Fold` |
| Mapping.Key | EFCoreFluent/src/EFCoreFluent/EFExtensions.cs:176 | a column's dictionary key matches its name ignoring case |
| Mapping.WantedIgnoresCase | EFCoreFluent/src/EFCoreFluent/EFExtensions.cs:174-175 | the `Where` filter `Wanted` keeps a column exactly when some property's name equals the column name ignoring case |
| Mapping.BuildMapping | EFCoreFluent/src/EFCoreFluent/EFExtensions.cs:173-176 | every built entry is a schema column filed under its own upper-cased name; a failure is a `DuplicateKey` naming the key of a wanted column |
| Mapping.BuildMappingContents | EFCoreFluent/src/EFCoreFluent/EFExtensions.cs:173-176 | the keys of the built dictionary are exactly the upper-cased names of the columns some property matches ignoring case, each filed with its column |
| Mapping.BuildMappingClash | EFCoreFluent/src/EFCoreFluent/EFExtensions.cs:173-176 | a failed construction has two wanted columns, earlier and later, with the same upper-cased name, and it reports the later one's key |
| Mapping.BuildMappingDistinct | EFCoreFluent/src/EFCoreFluent/EFExtensions.cs:173-176 | a built dictionary comes from wanted columns with pairwise distinct upper-cased names |
| Mapping.BuildMappingSucceeds | EFCoreFluent/src/EFCoreFluent/EFExtensions.cs:173-176 | the dictionary is built if and only if no two wanted columns collide after upper-casing |
| Mapping.FieldOf | EFCoreFluent/src/EFCoreFluent/EFExtensions.cs:197 | a property receives null exactly for a DBNull cell |
| Mapping.AssignSpec | EFCoreFluent/src/EFCoreFluent/EFExtensions.cs:184-198 | after the `foreach` over the properties (`Assign`), a bound property holds its column's value; every other name keeps what the object had |
| Mapping.MapRows | EFCoreFluent/src/EFCoreFluent/EFExtensions.cs:181-201 | the objects built for a run of rows: exactly one per row |
| Mapping.MapRowsSpec | EFCoreFluent/src/EFCoreFluent/EFExtensions.cs:181-201 | one object per row, in row order |
| Mapping.MappingFits | EFCoreFluent/src/EFCoreFluent/EFExtensions.cs:191-196 | on a row of the schema's width, every ordinal in the dictionary indexes into the row, so `GetValue` is in range |
| Mapping.MapRowFields | EFCoreFluent/src/EFCoreFluent/EFExtensions.cs:184-197 | for one row: a property whose name equals a column's ignoring case, when that column has an ordinal, gets that column's value (null for DBNull); a property with no such column, and any name that is not a property, keeps its `new T()` default; unmatched columns play no part |
| Mapping.SetRowsFit | EFCoreFluent/src/EFCoreFluent/EFExtensions.cs:181-196 | every row of a well-formed result set fits its column dictionary |
| Driver.HasRowsAt | EFCoreFluent/src/EFCoreFluent/EFExtensions.cs:178 | `HasRows` holds whenever an unread row remains in the current set, and only while a current set exists |
| Driver.SchemaAt | EFCoreFluent/src/EFCoreFluent/EFExtensions.cs:173 | the schema of a current set that has rows is non-empty, and each of its rows is as wide as the schema |
| Driver.Reader.GetValue | EFCoreFluent/src/EFCoreFluent/EFExtensions.cs:196 | the value at an ordinal of the row the last successful `Read` stepped onto: that `Read` led to the present position, and the cell is in the first row that remained before it |
| Driver.RemainingRows | EFCoreFluent/src/EFCoreFluent/EFExtensions.cs:181 | the rows a `Read` loop can still reach: the current set's unread rows, or none once the sets are exhausted |
| Driver.ReadStep | EFCoreFluent/src/EFCoreFluent/EFExtensions.cs:181 | `Read` succeeds exactly when an unread row remains, and then consumes one row of the current set |
| Driver.NextStep | EFCoreFluent/src/EFCoreFluent/EFExtensions.cs:157-160 | `NextResult` reports true exactly when another result set follows, moves to it before its first row, and otherwise moves past the last set |
| Driver.Reader.Read | EFCoreFluent/src/EFCoreFluent/EFExtensions.cs:181 | the reader's cursor moves as `ReadStep` says |
| Driver.Reader.NextResult | EFCoreFluent/src/EFCoreFluent/EFExtensions.cs:159 | the reader's cursor moves as `NextStep` says |
| Driver.Reader.Dispose | EFCoreFluent/src/EFCoreFluent/EFExtensions.cs:246-250 | leaving `using (reader)` marks it disposed and records the disposal on the connection |
| Driver.Connection.Open | EFCoreFluent/src/EFCoreFluent/EFExtensions.cs:242-243 | a closed connection becomes open and records it, unless the driver fails or the token is cancelled, which leaves it closed and reports the failure |
| Driver.Connection.Close | EFCoreFluent/src/EFCoreFluent/EFExtensions.cs:254-257 | closing is legal in any state, leaves the connection closed, counts the close and records it |
| Driver.Command.constructor | EFCoreFluent/src/EFCoreFluent/EFExtensions.cs:30 | `CreateCommand` gives an empty text command on the connection, with no parameters and not disposed |
| Driver.Command.ExecuteReader | EFCoreFluent/src/EFCoreFluent/EFExtensions.cs:246 | on a closed connection the driver refuses; on an open one it reports the execution failure, or it creates a fresh reader positioned before the first row of the first set |
| Driver.Command.ExecuteNonQuery | EFCoreFluent/src/EFCoreFluent/EFExtensions.cs:365 | the driver's row count or failure on an open connection, a refusal on a closed one |
| Driver.Command.Dispose | EFCoreFluent/src/EFCoreFluent/EFExtensions.cs:240 | leaving `using (command)` counts one disposal and records it |
| Results.ListStep | EFCoreFluent/src/EFCoreFluent/EFExtensions.cs:168-204 | `MapToList` never leaves the current result set and never moves the cursor back |
| Results.ListStepOutcome | EFCoreFluent/src/EFCoreFluent/EFExtensions.cs:170-203 | throws exactly when two wanted columns collide after upper-casing, naming a schema column's key and reading no row; with no rows it returns an empty list and does not move; otherwise it returns one object per remaining row and leaves the cursor past the last row |
| Results.ListStepRecords | EFCoreFluent/src/EFCoreFluent/EFExtensions.cs:181-201 | object i of the list is built from remaining row i: matched properties with an ordinal get that column's value or null, and the rest keep their defaults |
| Results.ListStepConsumes | EFCoreFluent/src/EFCoreFluent/EFExtensions.cs:178-181 | a second `ReadToList` on the same result set returns an empty list: the first consumed every row |
| Results.ScalarStep | EFCoreFluent/src/EFCoreFluent/EFExtensions.cs:209-220 | no value when the set has no rows, when `Read` finds no row or when column 0 is DBNull, else column 0 of the next row; at most one row is consumed and the set is not left |
| Results.Step | EFCoreFluent/src/EFCoreFluent/EFExtensions.cs:137-160 | every cursor operation keeps the reader valid, never moves it back, and either throws or reports one observation |
| Results.RunWithValid | EFCoreFluent/src/EFCoreFluent/EFExtensions.cs:137-160 | however many operations a handler performs, the cursor stays valid and only moves forward; a handler that does not throw reports one observation per operation |
| Results.RunOps | EFCoreFluent/src/EFCoreFluent/EFExtensions.cs:249 | what one handler learns: at most one observation per operation, one each when it does not throw, and a cursor that moved only forward |
| Results.RunOpsAppend | EFCoreFluent/src/EFCoreFluent/EFExtensions.cs:249 | running two scripts back to back is running the first, then, unless it threw, the second from where the first left the cursor |
| Results.SprocResults.constructor | EFCoreFluent/src/EFCoreFluent/EFExtensions.cs:132-135 | the cursor wraps the given reader |
| Results.SprocResults.ReadToList | EFCoreFluent/src/EFCoreFluent/EFExtensions.cs:137-140 | result and new cursor position are those of `ListStep` |
| Results.SprocResults.ReadToValue | EFCoreFluent/src/EFCoreFluent/EFExtensions.cs:142-145 | result and new cursor position are those of `ScalarStep` |
| Results.SprocResults.NextResult | EFCoreFluent/src/EFCoreFluent/EFExtensions.cs:157-160 | result and new cursor position are those of `NextStep` |
| Results.SprocResults.NextResultAsync | EFCoreFluent/src/EFCoreFluent/EFExtensions.cs:147-155 | a cancelled token raises `Cancelled` and leaves the cursor; otherwise it behaves as `NextResult` |
| Results.SprocResults.MapToList | EFCoreFluent/src/EFCoreFluent/EFExtensions.cs:168-204 | the mapping, the early return without rows and the `while (dr.Read())` loop give what `ListStep` says, list and position |
| Results.SprocResults.ReadRows | EFCoreFluent/src/EFCoreFluent/EFExtensions.cs:181-201 | the row loop returns the mapped object of each remaining row, in order, and leaves the cursor past the last row of the same set |
| Results.SprocResults.FillObject | EFCoreFluent/src/EFCoreFluent/EFExtensions.cs:183-198 | the `foreach` over the properties, with its two `continue`s, builds exactly `MapRow` of the row just read |
| Results.SprocResults.MapToValue | EFCoreFluent/src/EFCoreFluent/EFExtensions.cs:209-220 | result and new cursor position are those of `ScalarStep` |
| Results.Perform | EFCoreFluent/src/EFCoreFluent/EFExtensions.cs:137-160 | one handler operation on the cursor does what `Step` says |
| Results.Invoke | EFCoreFluent/src/EFCoreFluent/EFExtensions.cs:249 | `handleResults(sprocResults)`: the handler's operations in order until the first exception, as `RunOps` says |
| Lifecycle.RunHandlers | EFCoreFluent/src/EFCoreFluent/EFExtensions.cs:332-333 | the `foreach` over handlers sharing one cursor: the cursor only moves forward; every handler reports unless one threw, and then that one is the last to report |
| Lifecycle.HandlersShareCursor | EFCoreFluent/src/EFCoreFluent/EFExtensions.cs:330-333 | handler n starts where handler n-1 left the cursor: together the handlers learn exactly what one handler doing all their operations in order would learn, and end with the same exception and position |
| Lifecycle.RunHandlersSnoc | EFCoreFluent/src/EFCoreFluent/EFExtensions.cs:332-333 | one more handler runs, from where the others left the cursor, only if none of them threw |
| Lifecycle.RunHandlersStops | EFCoreFluent/src/EFCoreFluent/EFExtensions.cs:332-333 | after a handler throws, no later handler runs |
| Lifecycle.InvokeAll | EFCoreFluent/src/EFCoreFluent/EFExtensions.cs:330-333 | the loop over the handlers does what `RunHandlers` says |
| Lifecycle.ReaderEvents | EFCoreFluent/src/EFCoreFluent/EFExtensions.cs:240-259 | the command is disposed exactly once and last; the connection is opened exactly when it is managed, found closed and the open succeeds; it is closed exactly when it is managed and the open did not fail; a reader is created and disposed exactly when execution succeeds over an open connection |
| Lifecycle.ReaderDisposedFirst | EFCoreFluent/src/EFCoreFluent/EFExtensions.cs:246-258 | the reader is disposed before the connection is closed and before the command is disposed, and after any open |
| Lifecycle.AfterOpen | EFCoreFluent/src/EFCoreFluent/EFExtensions.cs:244-258 | the `try` and its `finally`, after the open step: the command is disposed last; the connection is closed, once, exactly when it is managed; no exception reaches the caller only when the connection was open and execution succeeded |
| Lifecycle.ReaderRunOf | EFCoreFluent/src/EFCoreFluent/EFExtensions.cs:240-259 | the whole reader path: the connection is closed once exactly when it is managed and the open did not fail; it ends closed exactly when managed or found closed; no exception reaches the caller only when a reader was created |
| Lifecycle.ReaderRunOutcome | EFCoreFluent/src/EFCoreFluent/EFExtensions.cs:240-259 | the effects are `ReaderEvents`; the connection ends closed exactly when it is managed or was closed; the caller gets the open failure, the driver's refusal of an unmanaged closed connection, or the execution failure; handlers learn nothing unless a reader was created, and otherwise the caller gets what they learned and their first exception |
| Lifecycle.ManyHandlersAsOne | EFCoreFluent/src/EFCoreFluent/EFExtensions.cs:316-343 | the multi-handler overload, on any connection state and driver answer, has the effects, exception and final state of one handler doing all the work, and learns the same observations |
| Lifecycle.ExecuteWithReader | EFCoreFluent/src/EFCoreFluent/EFExtensions.cs:240-259 | the open step, then the `try`/`finally`: results, effects, final state, close count and one disposal as `ReaderRunOf` says |
| Lifecycle.ExecuteOpened | EFCoreFluent/src/EFCoreFluent/EFExtensions.cs:244-258 | the `try` block and its `finally`, from the state after the open step: one close exactly when managed and one disposal of the command |
| Lifecycle.Consume | EFCoreFluent/src/EFCoreFluent/EFExtensions.cs:246-258 | the handlers over a fresh cursor, then the reader disposed, the connection closed when managed and the command disposed, in that order |
| Lifecycle.ExecuteStoredProc | EFCoreFluent/src/EFCoreFluent/EFExtensions.cs:231-260 | a missing handler throws `ArgumentNullException("handleResults")` and changes nothing; otherwise the handler runs once over the fresh cursor and everything follows `ReaderRunOf`, with one close when managed and the open succeeded and exactly one disposal |
| Lifecycle.ExecuteStoredProcAsync | EFCoreFluent/src/EFCoreFluent/EFExtensions.cs:271-301 | the same contract as the synchronous overload, with cancellation as a driver failure at open or execute |
| Lifecycle.ExecuteStoredProcAsyncAll | EFCoreFluent/src/EFCoreFluent/EFExtensions.cs:312-344 | a missing array throws `ArgumentNullException("resultActions")` and changes nothing; an empty one is legal; otherwise the handlers run in order over one shared cursor, with the same close and dispose guarantees |
| Lifecycle.NonQueryRunOf | EFCoreFluent/src/EFCoreFluent/EFExtensions.cs:352-377 | the non-query path: the connection is closed once exactly when it is managed and the open did not fail; it ends closed exactly then or after a failed open; a row count that reaches the caller is the driver's |
| Lifecycle.NonQueryEffects | EFCoreFluent/src/EFCoreFluent/EFExtensions.cs:352-377 | a closed connection is opened whatever `manageConnection` says; an open failure reaches the caller and only the command is disposed; otherwise the driver's row count or exception reaches the caller unchanged, and the connection is closed exactly when managed and left open otherwise; the command is disposed once, last |
| Lifecycle.ExecuteStoredNonQuery | EFCoreFluent/src/EFCoreFluent/EFExtensions.cs:352-377 | result, effects, final state, close count and one disposal as `NonQueryRunOf` says |
| Lifecycle.ExecuteStoredNonQueryAsync | EFCoreFluent/src/EFCoreFluent/EFExtensions.cs:386-412 | the same contract as the synchronous non-query |

## Left out

- EF Core's schema lookup (`GetDefaultSchema` or `Relational().DefaultSchema`, chosen by conditional compilation): the default schema is an `Option<string>` input to `LoadStoredProc`.
- The real ADO.NET driver (`DbConnection`, `DbDataReader`, `SqlParameter`, `CreateParameter`): replaced by the abstract classes of `driver.dfy`. The driver's answers (open failures, result sets, row counts, execution failures) are inputs.
- Builder.LoadStoredProc: does not model the driver rejecting a negative `CommandTimeout`; the model stores any `short` value.
- Reflection (`GetRuntimeProperties`, `new T()`, `PropertyInfo.SetValue`): a type is an ordered list of property names, and `new T()` is the starting map `init`.
- Results.SprocResults.MapToList: does not model `SetValue` throwing on a read-only property or on a value of the wrong type; every bound property is assigned.
- Results.SprocResults.MapToValue: does not model the typed read `GetFieldValue<T>` or its `InvalidCastException`; the model returns the untyped value.
- Mapping.Fold: ASCII upper-casing stands in for the culture-sensitive `ToUpper` and `CurrentCultureIgnoreCase`; letters outside `a`-`z` and culture rules such as the Turkish dotted i are not folded. The same `Fold` serves the filter and the dictionary keys.
- `CommandBehavior`: passed straight to the driver, so it is not modelled.
- The `configureParam` callbacks are arbitrary functions of the parameter. Their other side effects are not modelled.
- A handler is a finite script of cursor operations, any of which may throw. Effects a handler has outside the cursor are not modelled.
- Driver.Reader.Read and Driver.Reader.NextResult never fail: a driver exception from `dr.Read()` or `_reader.NextResult()`, including one in the middle of the `MapToList` row loop after some rows were consumed, is not modelled. It is represented only by a handler's own `Throw` operation at the same point of its script.
- Results.RunOps: every exception inside a handler ends the handler. A handler that catches the `DuplicateKey` of `ReadToList`, or a cancelled `NextResultAsync`, and carries on cannot be written as a script.
- async/await, `ConfigureAwait` and scheduling: each asynchronous overload behaves as its synchronous one. A cancelled token is a driver failure at the open or execute step. `NextResultAsync()` without a token is `NextResultAsync(false)`.
- `Close` and `Dispose` never fail in the model, so an exception raised inside a `finally` and masking an earlier one is not modelled.
- Concurrency: each call owns its command, connection and cursor.

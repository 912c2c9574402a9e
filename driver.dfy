/**
 * An abstract model of the ADO.NET objects the helper drives: a connection with an
 * open/closed state, a command with its text, type, timeout and parameter list, and a
 * forward-only data reader over a sequence of result sets.  The real driver is not
 * visible; what it answers (an open failure, an execution failure, the result sets, an
 * affected-row count) is handed to these objects as input.
 */
module Driver {
  import opened Base

  /** A column value that is not DBNull; the model keeps values untyped. */
  datatype Datum = Number(n: int) | Str(s: string) | Flag(b: bool)

  /** What `DbDataReader.GetValue` yields: the DBNull sentinel or a value. */
  datatype Cell = DBNull | Value(datum: Datum)

  type Row = seq<Cell>

  /** One entry of `GetColumnSchema()`: a column name and its optional ordinal. */
  datatype Column = Column(name: string, ordinal: Option<nat>)

  datatype ResultSet = ResultSet(columns: seq<Column>, rows: seq<Row>)

  /** Shapes a real driver guarantees: rows as wide as the schema, ordinals inside it. */
  predicate WellFormedSet(s: ResultSet)
  {
    && (|s.rows| > 0 ==> |s.columns| > 0)
    && (forall i :: 0 <= i < |s.rows| ==> |s.rows[i]| == |s.columns|)
    && (forall j :: 0 <= j < |s.columns| && s.columns[j].ordinal.Some? ==> s.columns[j].ordinal.value < |s.columns|)
  }

  predicate WellFormed(rs: seq<ResultSet>)
  {
    forall k :: 0 <= k < |rs| ==> WellFormedSet(rs[k])
  }

  /**
   * A reader's cursor: the index of the current result set (|rs| once they are
   * exhausted) and the number of its rows already consumed by `Read`.
   */
  datatype Position = Position(current: nat, consumed: nat)

  predicate ValidPosition(rs: seq<ResultSet>, p: Position)
  {
    && p.current <= |rs|
    && (p.current < |rs| ==> p.consumed <= |rs[p.current].rows|)
    && (p.current == |rs| ==> p.consumed == 0)
  }

  /** A fresh reader stands on the first result set, before its first row. */
  const Start: Position := Position(0, 0)

  /** `q` is reachable from `p` by a forward-only reader. */
  predicate NotBefore(p: Position, q: Position)
  {
    p.current < q.current || (p.current == q.current && p.consumed <= q.consumed)
  }

  /** `DbDataReader.HasRows`: the current result set has rows, read or not. */
  predicate HasRowsAt(rs: seq<ResultSet>, p: Position): (r: bool)
    ensures ValidPosition(rs, p) && p.current < |rs| && p.consumed < |rs[p.current].rows| ==> r
    ensures r ==> p.current < |rs|
  {
    p.current < |rs| && |rs[p.current].rows| > 0
  }

  /** `GetColumnSchema()` of the current result set; empty once they are exhausted. */
  function SchemaAt(rs: seq<ResultSet>, p: Position): (cols: seq<Column>)
    ensures WellFormed(rs) && HasRowsAt(rs, p) ==>
              |cols| > 0 && forall i :: 0 <= i < |rs[p.current].rows| ==> |rs[p.current].rows[i]| == |cols|
  {
    if p.current < |rs| then rs[p.current].columns else []
  }

  /** Rows of the current result set not yet consumed. */
  function RemainingRows(rs: seq<ResultSet>, p: Position): (rows: seq<Row>)
    requires ValidPosition(rs, p)
    ensures p.current < |rs| ==> |rows| == |rs[p.current].rows| - p.consumed
    ensures p.current == |rs| ==> rows == []
  {
    if p.current < |rs| then rs[p.current].rows[p.consumed..] else []
  }

  /** `DbDataReader.Read()`: step onto the next row of the current result set, if any. */
  function ReadStep(rs: seq<ResultSet>, p: Position): (r: (bool, Position))
    requires ValidPosition(rs, p)
    ensures ValidPosition(rs, r.1) && r.1.current == p.current
    ensures r.0 <==> |RemainingRows(rs, p)| > 0
    ensures r.1.consumed == p.consumed + (if r.0 then 1 else 0)
  {
    if p.current < |rs| && p.consumed < |rs[p.current].rows| then (true, p.(consumed := p.consumed + 1))
    else (false, p)
  }

  /** `DbDataReader.NextResult()`: move to the next result set, reporting whether there is one. */
  function NextStep(rs: seq<ResultSet>, p: Position): (r: (bool, Position))
    requires ValidPosition(rs, p)
    ensures ValidPosition(rs, r.1) && r.1.consumed == 0
    ensures r.0 <==> p.current + 1 < |rs|
    ensures r.0 ==> r.1.current == p.current + 1
    ensures !r.0 ==> r.1.current == |rs|
  {
    if p.current + 1 < |rs| then (true, Position(p.current + 1, 0)) else (false, Position(|rs|, 0))
  }

  datatype ConnectionState = Closed | Open

  datatype CommandType = Text | StoredProcedure | TableDirect

  datatype Direction = Input | Output | InputOutput | ReturnValue

  /**
   * A `DbParameter`: its name, its value (None while never assigned, as in a parameter
   * fresh from `CreateParameter`) and its direction.
   */
  datatype Parameter = Parameter(name: string, value: Option<Cell>, direction: Direction)

  /** Driver-side effects, in the order they happen on one connection. */
  datatype Event = Opened | ReaderOpened | ReaderDisposed | ConnectionClosed | CommandDisposed

  class Connection {
    var state: ConnectionState
    var closeCount: nat
    /** Every driver-side effect on this connection, oldest first. */
    ghost var trace: seq<Event>

    constructor (state: ConnectionState)
      ensures this.state == state && closeCount == 0 && trace == []
    {
      this.state := state;
      closeCount := 0;
      trace := [];
    }

    /** `Open()` / `OpenAsync(ct)`; `failure` is the driver's error or the cancellation, if any. */
    method Open(failure: Option<Error>) returns (err: Option<Error>)
      requires state == Closed
      modifies this`state, this`trace
      ensures err == failure
      ensures state == (if failure.None? then ConnectionState.Open else Closed)
      ensures trace == old(trace) + (if failure.None? then [Opened] else [])
    {
      err := failure;
      if failure.None? {
        state := ConnectionState.Open;
        trace := trace + [Opened];
      }
    }

    /** `Close()`: legal in any state; leaves the connection closed. */
    method Close()
      modifies this`state, this`closeCount, this`trace
      ensures state == Closed && closeCount == old(closeCount) + 1
      ensures trace == old(trace) + [ConnectionClosed]
    {
      state := Closed;
      closeCount := closeCount + 1;
      trace := trace + [ConnectionClosed];
    }
  }

  class Reader {
    const results: seq<ResultSet>
    const connection: Connection
    var position: Position
    var disposed: bool

    ghost predicate Valid()
      reads this
    {
      WellFormed(results) && ValidPosition(results, position)
    }

    constructor (connection: Connection, results: seq<ResultSet>)
      requires WellFormed(results)
      ensures Valid() && this.connection == connection && this.results == results
      ensures position == Start && !disposed
    {
      this.connection := connection;
      this.results := results;
      position := Start;
      disposed := false;
    }

    predicate HasRows()
      reads this
    {
      HasRowsAt(results, position)
    }

    function GetColumnSchema(): seq<Column>
      reads this
    {
      SchemaAt(results, position)
    }

    /** `GetValue(ordinal)` on the row the last successful `Read` stepped onto. */
    function GetValue(ordinal: nat): (c: Cell)
      reads this
      requires Valid() && position.current < |results| && 0 < position.consumed
      requires ordinal < |results[position.current].columns|
      ensures var before := position.(consumed := position.consumed - 1);
        && ValidPosition(results, before) && ReadStep(results, before) == (true, position)
        && c == RemainingRows(results, before)[0][ordinal]
    {
      results[position.current].rows[position.consumed - 1][ordinal]
    }

    method Read() returns (more: bool)
      requires Valid()
      modifies this`position
      ensures Valid() && (more, position) == ReadStep(results, old(position))
    {
      if position.current < |results| && position.consumed < |results[position.current].rows| {
        position := position.(consumed := position.consumed + 1);
        more := true;
      } else {
        more := false;
      }
    }

    method NextResult() returns (more: bool)
      requires Valid()
      modifies this`position
      ensures Valid() && (more, position) == NextStep(results, old(position))
    {
      if position.current + 1 < |results| {
        position := Position(position.current + 1, 0);
        more := true;
      } else {
        position := Position(|results|, 0);
        more := false;
      }
    }

    method Dispose()
      modifies this`disposed, connection`trace
      ensures disposed
      ensures connection.trace == old(connection.trace) + [ReaderDisposed]
    {
      disposed := true;
      connection.trace := connection.trace + [ReaderDisposed];
    }
  }

  class Command {
    var text: string
    var kind: CommandType
    var timeout: int
    var parameters: seq<Parameter>
    var disposeCount: nat
    const connection: Connection

    /** `connection.CreateCommand()`: an empty text command with the driver's default timeout. */
    constructor (connection: Connection)
      ensures this.connection == connection
      ensures text == "" && kind == Text && timeout == 30 && parameters == [] && disposeCount == 0
    {
      this.connection := connection;
      text := "";
      kind := Text;
      timeout := 30;
      parameters := [];
      disposeCount := 0;
    }

    /** `ExecuteReader` / `ExecuteReaderAsync`; `response` is what the database answers. */
    method ExecuteReader(response: Result<seq<ResultSet>>) returns (r: Result<Reader>)
      requires response.Success? ==> WellFormed(response.value)
      modifies connection`trace
      ensures connection.state == Closed ==> r == Failure(ConnectionNotOpen) && connection.trace == old(connection.trace)
      ensures connection.state == Open && response.Failure? ==>
                r == Failure(response.error) && connection.trace == old(connection.trace)
      ensures connection.state == Open && response.Success? ==>
                && r.Success? && fresh(r.value) && r.value.Valid()
                && r.value.results == response.value && r.value.position == Start
                && r.value.connection == connection && !r.value.disposed
                && connection.trace == old(connection.trace) + [ReaderOpened]
    {
      if connection.state == Closed {
        r := Failure(ConnectionNotOpen);
      } else if response.Failure? {
        r := Failure(response.error);
      } else {
        var reader := new Reader(connection, response.value);
        connection.trace := connection.trace + [ReaderOpened];
        r := Success(reader);
      }
    }

    /** `ExecuteNonQuery` / `ExecuteNonQueryAsync`; `response` is the database's row count or failure. */
    method ExecuteNonQuery(response: Result<int>) returns (r: Result<int>)
      ensures connection.state == Closed ==> r == Failure(ConnectionNotOpen)
      ensures connection.state == Open ==> r == response
    {
      r := if connection.state == Closed then Failure(ConnectionNotOpen) else response;
    }

    method Dispose()
      modifies this`disposeCount, connection`trace
      ensures disposeCount == old(disposeCount) + 1
      ensures connection.trace == old(connection.trace) + [CommandDisposed]
    {
      disposeCount := disposeCount + 1;
      connection.trace := connection.trace + [CommandDisposed];
    }
  }
}

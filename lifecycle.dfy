/**
 * The execution lifecycle: `ExecuteStoredProc`, the two `ExecuteStoredProcAsync`
 * overloads, `ExecuteStoredNonQuery` and `ExecuteStoredNonQueryAsync`.  Each opens the
 * connection when it has to, executes the command and hands the reader's cursor to the
 * caller's handlers.  On every exit it disposes the reader, closes the connection when
 * asked to manage it, and disposes the command.  An asynchronous variant behaves as the
 * synchronous one; a cancelled token is the driver failing with `Cancelled` at the open or
 * the execute step.
 */
module Lifecycle {
  import opened Base
  import opened Driver
  import opened Results

  /** What the handlers learned, each its own list, how the last one ended and where the cursor stands. */
  datatype HandlersRun = HandlersRun(observed: seq<seq<Observation>>, error: Option<Error>, position: Position)

  /** `foreach (var t in resultActions) t(sprocResults)`: one shared cursor, stopping at the first exception. */
  function RunHandlers(rs: seq<ResultSet>, p: Position, hs: seq<Handler>): (r: HandlersRun)
    requires WellFormed(rs) && ValidPosition(rs, p)
    decreases |hs|
    ensures ValidPosition(rs, r.position) && NotBefore(p, r.position)
    ensures |r.observed| <= |hs|
    ensures r.error.None? ==> |r.observed| == |hs|
    ensures r.error.Some? ==> |r.observed| > 0
  {
    if hs == [] then HandlersRun([], None, p)
    else
      var h := RunOps(rs, p, hs[0]);
      if h.error.Some? then HandlersRun([h.observed], h.error, h.position)
      else
        var rest := RunHandlers(rs, h.position, hs[1..]);
        HandlersRun([h.observed] + rest.observed, rest.error, rest.position)
  }

  /**
   * Handlers that share one cursor learn, between them, exactly what one handler doing
   * all their operations in the same order would learn: handler n starts where n-1 stopped.
   */
  lemma {:induction false} HandlersShareCursor(rs: seq<ResultSet>, p: Position, hs: seq<Handler>)
    requires WellFormed(rs) && ValidPosition(rs, p)
    decreases |hs|
    ensures var h, one := RunHandlers(rs, p, hs), RunOps(rs, p, Flatten(hs));
      Flatten(h.observed) == one.observed && h.error == one.error && h.position == one.position
  {
    if hs != [] {
      var first := RunOps(rs, p, hs[0]);
      RunOpsAppend(rs, p, hs[0], Flatten(hs[1..]));
      if first.error.Some? {
        assert Flatten([first.observed]) == first.observed + Flatten([first.observed][1..]);
        assert [first.observed][1..] == [];
      } else {
        HandlersShareCursor(rs, first.position, hs[1..]);
        var rest := RunHandlers(rs, first.position, hs[1..]);
        assert ([first.observed] + rest.observed)[1..] == rest.observed;
      }
    }
  }

  /** One more handler after `hs`; it runs only if none of `hs` threw. */
  lemma {:induction false} RunHandlersSnoc(rs: seq<ResultSet>, p: Position, hs: seq<Handler>, h: Handler)
    requires WellFormed(rs) && ValidPosition(rs, p)
    decreases |hs|
    ensures var r := RunHandlers(rs, p, hs);
      RunHandlers(rs, p, hs + [h]) ==
        if r.error.Some? then r
        else var last := RunOps(rs, r.position, h); HandlersRun(r.observed + [last.observed], last.error, last.position)
  {
    if hs == [] {
      assert hs + [h] == [h];
    } else {
      assert (hs + [h])[0] == hs[0] && (hs + [h])[1..] == hs[1..] + [h];
      var first := RunOps(rs, p, hs[0]);
      if first.error.None? {
        RunHandlersSnoc(rs, first.position, hs[1..], h);
        var rest := RunHandlers(rs, first.position, hs[1..]);
        if rest.error.None? {
          var last := RunOps(rs, rest.position, h);
          assert [first.observed] + (rest.observed + [last.observed]) == ([first.observed] + rest.observed) + [last.observed];
        }
      }
    }
  }

  /** A stopped handler list ignores the handlers after it. */
  lemma {:induction false} RunHandlersStops(rs: seq<ResultSet>, p: Position, hs: seq<Handler>, more: seq<Handler>)
    requires WellFormed(rs) && ValidPosition(rs, p)
    requires RunHandlers(rs, p, hs).error.Some?
    decreases |hs|
    ensures RunHandlers(rs, p, hs + more) == RunHandlers(rs, p, hs)
  {
    assert (hs + more)[0] == hs[0] && (hs + more)[1..] == hs[1..] + more;
    var first := RunOps(rs, p, hs[0]);
    if first.error.None? {
      RunHandlersStops(rs, first.position, hs[1..], more);
    }
  }

  /** One more handler of the `foreach`: either the list goes on, or it stops here for good. */
  lemma HandlersStep(rs: seq<ResultSet>, p0: Position, hs: seq<Handler>, i: nat,
                     observed: seq<seq<Observation>>, p: Position, o: seq<Observation>, e: Option<Error>, q: Position)
    requires WellFormed(rs) && ValidPosition(rs, p0) && i < |hs|
    requires RunHandlers(rs, p0, hs[..i]) == HandlersRun(observed, None, p)
    requires ValidPosition(rs, p) && RunOps(rs, p, hs[i]) == Run(o, e, q)
    ensures e.None? ==> RunHandlers(rs, p0, hs[..i + 1]) == HandlersRun(observed + [o], None, q)
    ensures e.Some? ==> RunHandlers(rs, p0, hs) == HandlersRun(observed + [o], e, q)
  {
    var front, h := hs[..i], hs[i];
    RunHandlersSnoc(rs, p0, front, h);
    var grown := RunHandlers(rs, p0, front + [h]);
    assert grown == HandlersRun(observed + [o], e, q);
    PrefixSnoc(hs, i);
    if e.Some? {
      RunHandlersStops(rs, p0, front + [h], hs[i + 1..]);
    }
  }

  /** The `foreach` over the handlers. */
  method InvokeAll(results: SprocResults, hs: seq<Handler>) returns (observed: seq<seq<Observation>>, err: Option<Error>)
    requires results.reader.Valid()
    modifies results.reader`position
    ensures results.reader.Valid()
    ensures HandlersRun(observed, err, results.reader.position) ==
              RunHandlers(results.reader.results, old(results.reader.position), hs)
  {
    ghost var rs, p0 := results.reader.results, results.reader.position;
    observed, err := [], None;
    var i := 0;
    while i < |hs|
      invariant 0 <= i <= |hs| && results.reader.Valid() && results.reader.results == rs
      invariant RunHandlers(rs, p0, hs[..i]) == HandlersRun(observed, None, results.reader.position)
    {
      ghost var p := results.reader.position;
      var o, e := Invoke(results, hs[i]);
      HandlersStep(rs, p0, hs, i, observed, p, o, e, results.reader.position);
      observed := observed + [o];
      if e.Some? {
        return observed, e;
      }
      i := i + 1;
    }
    assert hs[..i] == hs;
  }

  /** What the driver answers: an open failure (or cancellation), then the result sets or a failure. */
  datatype ReaderScript = ReaderScript(open: Option<Error>, execute: Result<seq<ResultSet>>)

  predicate ScriptValid(script: ReaderScript)
  {
    script.execute.Success? ==> WellFormed(script.execute.value)
  }

  /** The connection is opened by the call: management is on and it was found closed. */
  predicate Opens(state: ConnectionState, manage: bool)
  {
    manage && state == Closed
  }

  /** The open step failed, so the call stops before its `try` block. */
  predicate OpenFails(state: ConnectionState, manage: bool, script: ReaderScript)
  {
    Opens(state, manage) && script.open.Some?
  }

  /** A reader is created: the connection is open at the execute step and execution succeeds. */
  predicate ReaderCreated(state: ConnectionState, manage: bool, script: ReaderScript)
  {
    !OpenFails(state, manage, script) && (Opens(state, manage) || state == Open) && script.execute.Success?
  }

  /** The driver-side effects of the reader path, in order. */
  function ReaderEvents(state: ConnectionState, manage: bool, script: ReaderScript): (events: seq<Event>)
    ensures events != [] && events[|events| - 1] == CommandDisposed && CommandDisposed !in events[..|events| - 1]
    ensures Opened in events <==> Opens(state, manage) && script.open.None?
    ensures ConnectionClosed in events <==> manage && !OpenFails(state, manage, script)
    ensures ReaderOpened in events <==> ReaderCreated(state, manage, script)
    ensures ReaderDisposed in events <==> ReaderCreated(state, manage, script)
  {
    if OpenFails(state, manage, script) then [CommandDisposed]
    else
      var pre: seq<Event> := if Opens(state, manage) then [Opened] else [];
      var closing: seq<Event> := if manage then [ConnectionClosed] else [];
      if ReaderCreated(state, manage, script) then pre + ([ReaderOpened] + ([ReaderDisposed] + closing + [CommandDisposed]))
      else pre + (closing + [CommandDisposed])
  }

  /** The reader is disposed before the connection is closed and before the command is disposed. */
  lemma ReaderDisposedFirst(state: ConnectionState, manage: bool, script: ReaderScript, i: nat)
    requires i < |ReaderEvents(state, manage, script)| && ReaderEvents(state, manage, script)[i] == ReaderDisposed
    ensures var events := ReaderEvents(state, manage, script);
      ConnectionClosed !in events[..i] && CommandDisposed !in events[..i] && Opened !in events[i..]
  {
  }

  /**
   * The effects, what the handlers learned, the exception (if any), the final connection
   * state and the number of times the connection was closed.
   */
  datatype ReaderOutcome =
    ReaderOutcome(events: seq<Event>, observed: seq<seq<Observation>>, error: Option<Error>, state: ConnectionState, closes: nat)

  /**
   * The `try` block and its `finally`, from the connection state at the execute step:
   * execute, run the handlers, dispose the reader, close the connection when managed.
   * The command is disposed last on every path.
   */
  function AfterOpen(state: ConnectionState, manage: bool, hs: seq<Handler>, execute: Result<seq<ResultSet>>): (r: ReaderOutcome)
    requires execute.Success? ==> WellFormed(execute.value)
    ensures |r.events| > 0 && r.events[|r.events| - 1] == CommandDisposed
    ensures (ConnectionClosed in r.events <==> manage) && r.closes == (if manage then 1 else 0)
    ensures r.error.None? ==> state != Closed && execute.Success?
  {
    var closing: seq<Event> := if manage then [ConnectionClosed] else [];
    var closes := if manage then 1 else 0;
    var final := if manage then Closed else state;
    if state == Closed then ReaderOutcome(closing + [CommandDisposed], [], Some(ConnectionNotOpen), final, closes)
    else if execute.Failure? then ReaderOutcome(closing + [CommandDisposed], [], Some(execute.error), final, closes)
    else
      var h := RunHandlers(execute.value, Start, hs);
      ReaderOutcome([ReaderOpened] + ([ReaderDisposed] + closing + [CommandDisposed]), h.observed, h.error, final, closes)
  }

  /**
   * The shared body of the reader-executing operations, from the connection state on entry:
   * the open step outside the `try` (a failure there disposes only the command), then the rest.
   */
  function ReaderRunOf(state: ConnectionState, manage: bool, hs: seq<Handler>, script: ReaderScript): (r: ReaderOutcome)
    requires ScriptValid(script)
    ensures r.closes == (if manage && !OpenFails(state, manage, script) then 1 else 0)
    ensures r.state == Closed <==> manage || state == Closed
    ensures r.error.None? ==> ReaderCreated(state, manage, script)
  {
    if OpenFails(state, manage, script) then ReaderOutcome([CommandDisposed], [], script.open, Closed, 0)
    else
      var pre: seq<Event> := if Opens(state, manage) then [Opened] else [];
      var r := AfterOpen(if Opens(state, manage) then Open else state, manage, hs, script.execute);
      r.(events := pre + r.events)
  }

  /**
   * What reaches the caller: the open failure, the driver's refusal of a closed connection,
   * the execution failure, or else what the handlers learned and the first exception one
   * of them raised.  Handlers learn nothing unless a reader was created, and the
   * connection ends closed exactly when it is managed or was closed already.
   */
  lemma ReaderRunOutcome(state: ConnectionState, manage: bool, hs: seq<Handler>, script: ReaderScript)
    requires ScriptValid(script)
    ensures var r := ReaderRunOf(state, manage, hs, script);
      && r.events == ReaderEvents(state, manage, script)
      && (r.state == Closed <==> manage || state == Closed)
      && (OpenFails(state, manage, script) ==> r.error == script.open)
      && (!manage && state == Closed ==> r.error == Some(ConnectionNotOpen))
      && (((Opens(state, manage) && script.open.None?) || state == Open) && script.execute.Failure? ==>
            r.error == Some(script.execute.error))
      && (!ReaderCreated(state, manage, script) ==> r.error.Some? && r.observed == [])
      && (ReaderCreated(state, manage, script) ==>
            var h := RunHandlers(script.execute.value, Start, hs);
            r.observed == h.observed && r.error == h.error)
  {
  }

  /** Several handlers in one execution learn what one handler doing all their work would learn. */
  lemma ManyHandlersAsOne(state: ConnectionState, manage: bool, hs: seq<Handler>, script: ReaderScript)
    requires ScriptValid(script)
    ensures var many, one := ReaderRunOf(state, manage, hs, script), ReaderRunOf(state, manage, [Flatten(hs)], script);
      && Flatten(many.observed) == Flatten(one.observed)
      && many.error == one.error && many.events == one.events && many.state == one.state
  {
    if ReaderCreated(state, manage, script) {
      var rs := script.execute.value;
      HandlersShareCursor(rs, Start, hs);
      HandlersShareCursor(rs, Start, [Flatten(hs)]);
      assert Flatten([Flatten(hs)]) == Flatten(hs) + Flatten([Flatten(hs)][1..]);
      assert [Flatten(hs)][1..] == [];
    }
  }

  /** The reader path shared by the three reader-executing operations. */
  method ExecuteWithReader(command: Command, hs: seq<Handler>, manage: bool, script: ReaderScript)
    returns (observed: seq<seq<Observation>>, err: Option<Error>)
    requires ScriptValid(script)
    modifies command`disposeCount, command.connection
    ensures var r := ReaderRunOf(old(command.connection.state), manage, hs, script);
      && observed == r.observed && err == r.error
      && command.connection.state == r.state
      && command.connection.trace == old(command.connection.trace) + r.events
      && command.connection.closeCount == old(command.connection.closeCount) + r.closes
      && command.disposeCount == old(command.disposeCount) + 1
  {
    var connection := command.connection;
    ghost var s0, t0 := connection.state, connection.trace;
    ghost var pre: seq<Event> := if Opens(s0, manage) then [Opened] else [];
    if manage && connection.state == Closed {
      var failure := connection.Open(script.open);
      if failure.Some? {
        command.Dispose();
        return [], failure;
      }
    }
    ghost var t1 := connection.trace;
    assert t1 == t0 + pre;
    observed, err := ExecuteOpened(command, hs, manage, script.execute);
    AppendAssoc(t0, pre, connection.trace[|t1|..]);
  }

  /** Everything after the open step: the `try` block and its `finally`. */
  method ExecuteOpened(command: Command, hs: seq<Handler>, manage: bool, execute: Result<seq<ResultSet>>)
    returns (observed: seq<seq<Observation>>, err: Option<Error>)
    requires execute.Success? ==> WellFormed(execute.value)
    modifies command`disposeCount, command.connection
    ensures var r := AfterOpen(old(command.connection.state), manage, hs, execute);
      && observed == r.observed && err == r.error
      && command.connection.state == r.state
      && command.connection.trace == old(command.connection.trace) + r.events
      && command.connection.closeCount == old(command.connection.closeCount) + r.closes
      && command.disposeCount == old(command.disposeCount) + 1
  {
    var connection := command.connection;
    ghost var t0 := connection.trace;
    var executed := command.ExecuteReader(execute);
    if executed.Failure? {
      if manage {
        connection.Close();
      }
      command.Dispose();
      return [], Some(executed.error);
    }
    observed, err := Consume(command, executed.value, hs, manage);
    AppendAssoc(t0, [ReaderOpened], ([ReaderDisposed] + (if manage then [ConnectionClosed] else []) + [CommandDisposed]));
  }

  /**
   * The handlers running over a fresh reader, then the `finally`: the reader is disposed,
   * the connection closed when managed and the command disposed.
   */
  method Consume(command: Command, reader: Reader, hs: seq<Handler>, manage: bool)
    returns (observed: seq<seq<Observation>>, err: Option<Error>)
    requires reader.Valid() && reader.position == Start && reader.connection == command.connection
    modifies reader, command`disposeCount, command.connection
    ensures var h := RunHandlers(reader.results, Start, hs);
      && observed == h.observed && err == h.error
      && command.connection.state == (if manage then Closed else old(command.connection.state))
      && command.connection.trace ==
           old(command.connection.trace) + ([ReaderDisposed] + (if manage then [ConnectionClosed] else []) + [CommandDisposed])
      && command.connection.closeCount == old(command.connection.closeCount) + (if manage then 1 else 0)
      && command.disposeCount == old(command.disposeCount) + 1
  {
    var connection := command.connection;
    var sprocResults := new SprocResults(reader);
    observed, err := InvokeAll(sprocResults, hs);
    reader.Dispose();
    if manage {
      connection.Close();
    }
    command.Dispose();
  }

  /** `ExecuteStoredProc(handleResults, commandBehaviour, manageConnection)`. */
  method ExecuteStoredProc(command: Command, handleResults: Option<Handler>, script: ReaderScript, manageConnection: bool := true)
    returns (observed: seq<Observation>, err: Option<Error>)
    requires ScriptValid(script)
    modifies command`disposeCount, command.connection
    ensures handleResults.None? ==>
              && err == Some(ArgumentNull("handleResults")) && observed == []
              && unchanged(command, command.connection)
    ensures handleResults.Some? ==>
              var r := ReaderRunOf(old(command.connection.state), manageConnection, [handleResults.value], script);
              && observed == Flatten(r.observed) && err == r.error
              && command.connection.state == r.state
              && command.connection.trace == old(command.connection.trace) + r.events
              && command.connection.closeCount == old(command.connection.closeCount) + r.closes
              && command.disposeCount == old(command.disposeCount) + 1
  {
    if handleResults.None? {
      return [], Some(ArgumentNull("handleResults"));
    }
    var all;
    all, err := ExecuteWithReader(command, [handleResults.value], manageConnection, script);
    observed := Flatten(all);
  }

  /** `ExecuteStoredProcAsync(handleResults, commandBehaviour, ct, manageConnection)`. */
  method ExecuteStoredProcAsync(command: Command, handleResults: Option<Handler>, script: ReaderScript, manageConnection: bool := true)
    returns (observed: seq<Observation>, err: Option<Error>)
    requires ScriptValid(script)
    modifies command`disposeCount, command.connection
    ensures handleResults.None? ==>
              && err == Some(ArgumentNull("handleResults")) && observed == []
              && unchanged(command, command.connection)
    ensures handleResults.Some? ==>
              var r := ReaderRunOf(old(command.connection.state), manageConnection, [handleResults.value], script);
              && observed == Flatten(r.observed) && err == r.error
              && command.connection.state == r.state
              && command.connection.trace == old(command.connection.trace) + r.events
              && command.connection.closeCount == old(command.connection.closeCount) + r.closes
              && command.disposeCount == old(command.disposeCount) + 1
  {
    observed, err := ExecuteStoredProc(command, handleResults, script, manageConnection);
  }

  /** `ExecuteStoredProcAsync(commandBehaviour, ct, manageConnection, params resultActions)`. */
  method ExecuteStoredProcAsyncAll(command: Command, resultActions: Option<seq<Handler>>, script: ReaderScript,
                                   manageConnection: bool := true)
    returns (observed: seq<seq<Observation>>, err: Option<Error>)
    requires ScriptValid(script)
    modifies command`disposeCount, command.connection
    ensures resultActions.None? ==>
              && err == Some(ArgumentNull("resultActions")) && observed == []
              && unchanged(command, command.connection)
    ensures resultActions.Some? ==>
              var r := ReaderRunOf(old(command.connection.state), manageConnection, resultActions.value, script);
              && observed == r.observed && err == r.error
              && command.connection.state == r.state
              && command.connection.trace == old(command.connection.trace) + r.events
              && command.connection.closeCount == old(command.connection.closeCount) + r.closes
              && command.disposeCount == old(command.disposeCount) + 1
  {
    if resultActions.None? {
      return [], Some(ArgumentNull("resultActions"));
    }
    observed, err := ExecuteWithReader(command, resultActions.value, manageConnection, script);
  }

  /** What the driver answers a non-query: an open failure (or cancellation), then a row count or a failure. */
  datatype NonQueryScript = NonQueryScript(open: Option<Error>, execute: Result<int>)

  /** The effects, the row count or exception, the final connection state and the number of closes. */
  datatype NonQueryOutcome = NonQueryOutcome(events: seq<Event>, result: Result<int>, state: ConnectionState, closes: nat)

  /** The non-query path, from the connection state on entry. */
  function NonQueryRunOf(state: ConnectionState, manage: bool, script: NonQueryScript): (r: NonQueryOutcome)
    ensures r.closes == (if manage && !(state == Closed && script.open.Some?) then 1 else 0)
    ensures r.state == Closed <==> manage || (state == Closed && script.open.Some?)
    ensures r.result.Success? ==> r.result == script.execute
  {
    if state == Closed && script.open.Some? then
      NonQueryOutcome([CommandDisposed], Failure(script.open.value), Closed, 0)
    else
      var pre: seq<Event> := if state == Closed then [Opened] else [];
      var closing: seq<Event> := if manage then [ConnectionClosed] else [];
      NonQueryOutcome(pre + (closing + [CommandDisposed]), script.execute, if manage then Closed else Open, if manage then 1 else 0)
  }

  /**
   * What a non-query does: a closed connection is opened whatever `manage` says; an open
   * failure reaches the caller and only the command is disposed; otherwise the driver's row
   * count or exception reaches the caller unchanged, and the connection is closed exactly
   * when it is managed and left open otherwise.  The command is disposed once, last.
   */
  lemma NonQueryEffects(state: ConnectionState, manage: bool, script: NonQueryScript)
    ensures var r := NonQueryRunOf(state, manage, script);
      && r.events != [] && r.events[|r.events| - 1] == CommandDisposed && CommandDisposed !in r.events[..|r.events| - 1]
      && (Opened in r.events <==> state == Closed && script.open.None?)
      && (ConnectionClosed in r.events <==> manage && !(state == Closed && script.open.Some?))
      && (state == Closed && script.open.Some? ==> r.result == Failure(script.open.value) && r.state == Closed)
      && (!(state == Closed && script.open.Some?) ==> r.result == script.execute && r.state == (if manage then Closed else Open))
  {
    var r := NonQueryRunOf(state, manage, script);
    if !(state == Closed && script.open.Some?) {
      var pre: seq<Event> := if state == Closed then [Opened] else [];
      var closing: seq<Event> := if manage then [ConnectionClosed] else [];
      assert r.events == pre + closing + [CommandDisposed];
      assert r.events[..|r.events| - 1] == pre + closing;
    }
  }

  /** `ExecuteStoredNonQuery(manageConnection)`. */
  method ExecuteStoredNonQuery(command: Command, script: NonQueryScript, manageConnection: bool := true)
    returns (r: Result<int>)
    modifies command`disposeCount, command.connection
    ensures var o := NonQueryRunOf(old(command.connection.state), manageConnection, script);
      && r == o.result
      && command.connection.state == o.state
      && command.connection.trace == old(command.connection.trace) + o.events
      && command.connection.closeCount == old(command.connection.closeCount) + o.closes
      && command.disposeCount == old(command.disposeCount) + 1
  {
    var numberOfRecordsAffected := -1;
    var connection := command.connection;
    ghost var t0 := connection.trace;
    ghost var pre: seq<Event> := if connection.state == Closed then [Opened] else [];
    ghost var closing: seq<Event> := if manageConnection then [ConnectionClosed] else [];
    if connection.state == Closed {
      var failure := connection.Open(script.open);
      if failure.Some? {
        command.Dispose();
        return Failure(failure.value);
      }
    }
    assert connection.trace == t0 + pre && connection.state == Open;
    var executed := command.ExecuteNonQuery(script.execute);
    if manageConnection {
      connection.Close();
    }
    command.Dispose();
    assert connection.trace == t0 + pre + closing + [CommandDisposed];
    AppendAssoc(t0 + pre, closing, [CommandDisposed]);
    AppendAssoc(t0, pre, closing + [CommandDisposed]);
    if executed.Failure? {
      return Failure(executed.error);
    }
    numberOfRecordsAffected := executed.value;
    r := Success(numberOfRecordsAffected);
  }

  /** `ExecuteStoredNonQueryAsync(ct, manageConnection)`. */
  method ExecuteStoredNonQueryAsync(command: Command, script: NonQueryScript, manageConnection: bool := true)
    returns (r: Result<int>)
    modifies command`disposeCount, command.connection
    ensures var o := NonQueryRunOf(old(command.connection.state), manageConnection, script);
      && r == o.result
      && command.connection.state == o.state
      && command.connection.trace == old(command.connection.trace) + o.events
      && command.connection.closeCount == old(command.connection.closeCount) + o.closes
      && command.disposeCount == old(command.disposeCount) + 1
  {
    r := ExecuteStoredNonQuery(command, script, manageConnection);
  }
}

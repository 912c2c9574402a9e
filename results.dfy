/**
 * The result cursor `SprocResults` over a forward-only reader, with its two mappers.
 * `MapToList` maps every remaining row of the current result set to an object, and
 * `MapToValue` reads at most one row and returns its first column.  A caller's result
 * handler is modelled as a script of cursor operations; running a script may fail.
 */
module Results {
  import opened Base
  import opened Driver
  import opened Mapping

  /** The outcome of `MapToList` on a reader state: the list (or the exception) and the new position. */
  function ListStep(rs: seq<ResultSet>, p: Position, props: seq<string>, init: Record): (r: (Result<seq<Record>>, Position))
    requires WellFormed(rs) && ValidPosition(rs, p)
    ensures ValidPosition(rs, r.1) && r.1.current == p.current && NotBefore(p, r.1)
  {
    var cols := SchemaAt(rs, p);
    match BuildMapping(cols, props)
    case Failure(e) => (Failure(e), p)
    case Success(m) =>
      if !HasRowsAt(rs, p) then (Success([]), p)
      else
        var rows := RemainingRows(rs, p);
        SetRowsFit(rs[p.current], props);
        assert forall i :: 0 <= i < |rows| ==> rows[i] == rs[p.current].rows[p.consumed + i];
        (Success(MapRows(m, rows, props, init)), p.(consumed := |rs[p.current].rows|))
  }

  /**
   * `MapToList` throws exactly when two wanted columns share an upper-cased name, and then
   * reads nothing; a result set without rows gives an empty list; otherwise it returns one
   * object per remaining row and consumes them all.
   */
  lemma ListStepOutcome(rs: seq<ResultSet>, p: Position, props: seq<string>, init: Record)
    requires WellFormed(rs) && ValidPosition(rs, p)
    ensures var r := ListStep(rs, p, props, init);
      && (r.0.Failure? <==> !DistinctKeys(SchemaAt(rs, p), props))
      && (r.0.Failure? ==> r.1 == p && exists c :: c in SchemaAt(rs, p) && r.0.error == DuplicateKey(Key(c)))
      && (r.0.Success? && !HasRowsAt(rs, p) ==> r.0.value == [] && r.1 == p)
      && (r.0.Success? && HasRowsAt(rs, p) ==>
            |r.0.value| == |RemainingRows(rs, p)| && r.1.consumed == |rs[p.current].rows|)
  {
    var cols := SchemaAt(rs, p);
    BuildMappingSucceeds(cols, props);
    var b := BuildMapping(cols, props);
    if b.Success? && HasRowsAt(rs, p) {
      var rows := RemainingRows(rs, p);
      SetRowsFit(rs[p.current], props);
      assert forall i :: 0 <= i < |rows| ==> rows[i] == rs[p.current].rows[p.consumed + i];
      MapRowsSpec(b.value, rows, props, init);
    }
  }

  /**
   * The objects `MapToList` returns, one per remaining row in row order, each assigned
   * field by field from the schema of the current result set.
   */
  lemma ListStepRecords(rs: seq<ResultSet>, p: Position, props: seq<string>, init: Record, i: nat, k: string)
    requires WellFormed(rs) && ValidPosition(rs, p)
    requires ListStep(rs, p, props, init).0.Success? && HasRowsAt(rs, p)
    requires i < |RemainingRows(rs, p)|
    ensures var rset := rs[p.current];
      var row := rset.rows[p.consumed + i];
      var l := ListStep(rs, p, props, init).0.value;
      && i < |l|
      && var r := l[i];
      && (forall j :: 0 <= j < |rset.columns| && k in props && Key(rset.columns[j]) == Fold(k) && rset.columns[j].ordinal.Some? ==>
            k in r && r[k] == FieldOf(row[rset.columns[j].ordinal.value]))
      && ((k !in props || forall j :: 0 <= j < |rset.columns| && Key(rset.columns[j]) == Fold(k) ==> rset.columns[j].ordinal.None?) ==>
            (k in r <==> k in init) && (k in init ==> r[k] == init[k]))
  {
    var s := rs[p.current];
    var rows := RemainingRows(rs, p);
    BuildMappingSucceeds(s.columns, props);
    var m := BuildMapping(s.columns, props).value;
    SetRowsFit(s, props);
    assert forall t :: 0 <= t < |rows| ==> rows[t] == s.rows[p.consumed + t];
    MapRowsSpec(m, rows, props, init);
    assert ListStep(rs, p, props, init).0.value[i] == MapRow(m, s.rows[p.consumed + i], props, init);
    MapRowFields(s.columns, props, s.rows[p.consumed + i], init, k);
  }

  /** A second `MapToList` on the same result set reads nothing: the rows are consumed. */
  lemma ListStepConsumes(rs: seq<ResultSet>, p: Position, props: seq<string>, init: Record)
    requires WellFormed(rs) && ValidPosition(rs, p)
    requires ListStep(rs, p, props, init).0.Success?
    ensures var q := ListStep(rs, p, props, init).1;
      ListStep(rs, q, props, init) == (Success([]), q)
  {
  }

  /** The outcome of `MapToValue` on a reader state: the scalar (or no value) and the new position. */
  function ScalarStep(rs: seq<ResultSet>, p: Position): (r: (Option<Datum>, Position))
    requires WellFormed(rs) && ValidPosition(rs, p)
    ensures ValidPosition(rs, r.1) && r.1.current == p.current
    ensures r.1.consumed == p.consumed + (if HasRowsAt(rs, p) && |RemainingRows(rs, p)| > 0 then 1 else 0)
    ensures r.0.Some? <==> HasRowsAt(rs, p) && |RemainingRows(rs, p)| > 0 && RemainingRows(rs, p)[0][0] != DBNull
    ensures r.0.Some? ==> RemainingRows(rs, p)[0][0] == Value(r.0.value)
  {
    if !HasRowsAt(rs, p) then (None, p)
    else
      var (more, q) := ReadStep(rs, p);
      if more then
        var c := rs[p.current].rows[p.consumed][0];
        (if c.DBNull? then None else Some(c.datum), q)
      else (None, q)
  }

  /** One operation a result handler performs on the cursor. */
  datatype Op =
    | ReadList(props: seq<string>, init: Record)  // results.ReadToList<T>()
    | ReadValue                                   // results.ReadToValue<T>()
    | Advance                                     // results.NextResult()
    | AdvanceAsync(cancelled: bool)               // results.NextResultAsync(ct)
    | Throw(error: Error)                         // the handler's own exception

  /** A result handler, `Action<SprocResults>`, as the cursor operations it performs. */
  type Handler = seq<Op>

  /** What a handler learns from one operation. */
  datatype Observation = Rows(records: seq<Record>) | Scalar(value: Option<Datum>) | Advanced(more: bool)

  /** What a handler learned, the exception it ended with (if any) and where it left the cursor. */
  datatype Run = Run(observed: seq<Observation>, error: Option<Error>, position: Position)

  function Step(rs: seq<ResultSet>, p: Position, op: Op): (r: Run)
    requires WellFormed(rs) && ValidPosition(rs, p)
    ensures ValidPosition(rs, r.position) && NotBefore(p, r.position)
    ensures r.error.Some? <==> r.observed == []
    ensures |r.observed| <= 1
  {
    match op
    case ReadList(props, init) =>
      var (l, q) := ListStep(rs, p, props, init);
      if l.Success? then Run([Rows(l.value)], None, q) else Run([], Some(l.error), q)
    case ReadValue =>
      var (v, q) := ScalarStep(rs, p);
      Run([Scalar(v)], None, q)
    case Advance =>
      var (b, q) := NextStep(rs, p);
      Run([Advanced(b)], None, q)
    case AdvanceAsync(cancelled) =>
      if cancelled then Run([], Some(Cancelled), p)
      else var (b, q) := NextStep(rs, p); Run([Advanced(b)], None, q)
    case Throw(e) => Run([], Some(e), p)
  }

  /** A cursor operation as a value: what one operation learns from a given position. */
  type StepFn = (Position, Op) -> Run

  /** The operations of the reader over `rs`; positions outside `rs` learn nothing. */
  function StepOf(rs: seq<ResultSet>): StepFn
    requires WellFormed(rs)
  {
    (p: Position, op: Op) => if ValidPosition(rs, p) then Step(rs, p, op) else Run([], None, p)
  }

  /** The operations `ops[i..]` of a handler, stepped by `step` from position `p`, stopping at the first exception. */
  function RunWith(step: StepFn, p: Position, ops: Handler, i: nat): Run
    requires i <= |ops|
    decreases |ops| - i
  {
    if i == |ops| then Run([], None, p)
    else
      var s := step(p, ops[i]);
      if s.error.Some? then s
      else Then(s, RunWith(step, s.position, ops, i + 1))
  }

  /** `ra` followed by `rb`: what was learned by both, and how the second ended. */
  function Then(ra: Run, rb: Run): Run
  {
    Run(ra.observed + rb.observed, rb.error, rb.position)
  }

  /** Chaining runs is associative. */
  lemma ThenAssoc(ra: Run, rb: Run, rc: Run)
    ensures Then(ra, Then(rb, rc)) == Then(Then(ra, rb), rc)
  {
    AppendAssoc(ra.observed, rb.observed, rc.observed);
  }

  /** Every operation of the reader keeps the cursor valid and never moves it back. */
  lemma {:induction false} RunWithValid(rs: seq<ResultSet>, p: Position, ops: Handler, i: nat)
    requires WellFormed(rs) && ValidPosition(rs, p) && i <= |ops|
    decreases |ops| - i
    ensures var r := RunWith(StepOf(rs), p, ops, i);
      && ValidPosition(rs, r.position) && NotBefore(p, r.position)
      && |r.observed| <= |ops| - i && (r.error.None? ==> |r.observed| == |ops| - i)
  {
    if i < |ops| {
      var s := StepOf(rs)(p, ops[i]);
      assert s == Step(rs, p, ops[i]);
      if s.error.None? {
        RunWithValid(rs, s.position, ops, i + 1);
      }
    }
  }

  /** One handler, its operations in order, stopping at the first exception. */
  function RunOps(rs: seq<ResultSet>, p: Position, ops: Handler): (r: Run)
    requires WellFormed(rs) && ValidPosition(rs, p)
    ensures ValidPosition(rs, r.position) && NotBefore(p, r.position)
    ensures |r.observed| <= |ops|
    ensures r.error.None? ==> |r.observed| == |ops|
  {
    RunWithValid(rs, p, ops, 0);
    RunWith(StepOf(rs), p, ops, 0)
  }

  /** The operations of `b` keep their behaviour behind the operations of `a`. */
  lemma {:induction false} RunWithShift(step: StepFn, p: Position, a: Handler, b: Handler, j: nat)
    requires j <= |b|
    decreases |b| - j
    ensures RunWith(step, p, a + b, |a| + j) == RunWith(step, p, b, j)
  {
    if j < |b| {
      assert (a + b)[|a| + j] == b[j];
      var s := step(p, b[j]);
      if s.error.None? {
        RunWithShift(step, s.position, a, b, j + 1);
      }
    }
  }

  /** Stepping `a + b` is stepping `a`, then, unless `a` threw, `b` from where `a` left the cursor. */
  lemma {:induction false} RunWithAppend(step: StepFn, p: Position, a: Handler, b: Handler, i: nat)
    requires i <= |a|
    decreases |a| - i
    ensures var ra := RunWith(step, p, a, i);
      RunWith(step, p, a + b, i) == if ra.error.Some? then ra else Then(ra, RunWith(step, ra.position, b, 0))
  {
    if i == |a| {
      RunWithShift(step, p, a, b, 0);
    } else {
      assert (a + b)[i] == a[i];
      var s := step(p, a[i]);
      if s.error.None? {
        RunWithAppend(step, s.position, a, b, i + 1);
        var ra := RunWith(step, s.position, a, i + 1);
        if ra.error.None? {
          ThenAssoc(s, ra, RunWith(step, ra.position, b, 0));
        }
      }
    }
  }

  /** Running `a + b` is running `a`, then, unless `a` threw, `b` from where `a` left the cursor. */
  lemma RunOpsAppend(rs: seq<ResultSet>, p: Position, a: Handler, b: Handler)
    requires WellFormed(rs) && ValidPosition(rs, p)
    ensures var ra := RunOps(rs, p, a);
      RunOps(rs, p, a + b) == if ra.error.Some? then ra else Then(ra, RunOps(rs, ra.position, b))
  {
    RunWithAppend(StepOf(rs), p, a, b, 0);
  }

  class SprocResults {
    const reader: Reader

    constructor (reader: Reader)
      ensures this.reader == reader
    {
      this.reader := reader;
    }

    method ReadToList(props: seq<string>, init: Record) returns (r: Result<seq<Record>>)
      requires reader.Valid()
      modifies reader`position
      ensures reader.Valid() && (r, reader.position) == ListStep(reader.results, old(reader.position), props, init)
    {
      r := MapToList(reader, props, init);
    }

    method ReadToValue() returns (v: Option<Datum>)
      requires reader.Valid()
      modifies reader`position
      ensures reader.Valid() && (v, reader.position) == ScalarStep(reader.results, old(reader.position))
    {
      v := MapToValue(reader);
    }

    method NextResult() returns (more: bool)
      requires reader.Valid()
      modifies reader`position
      ensures reader.Valid() && (more, reader.position) == NextStep(reader.results, old(reader.position))
    {
      more := reader.NextResult();
    }

    /** `NextResultAsync(ct)`: a cancelled token raises instead of advancing. */
    method NextResultAsync(cancelled: bool) returns (r: Result<bool>)
      requires reader.Valid()
      modifies reader`position
      ensures reader.Valid()
      ensures cancelled ==> r == Failure(Cancelled) && reader.position == old(reader.position)
      ensures !cancelled ==> r.Success? && (r.value, reader.position) == NextStep(reader.results, old(reader.position))
    {
      if cancelled {
        r := Failure(Cancelled);
      } else {
        var more := reader.NextResult();
        r := Success(more);
      }
    }

    /** Maps every remaining row of the current result set, `while (dr.Read())`. */
    static method MapToList(dr: Reader, props: seq<string>, init: Record) returns (r: Result<seq<Record>>)
      requires dr.Valid()
      modifies dr`position
      ensures dr.Valid() && (r, dr.position) == ListStep(dr.results, old(dr.position), props, init)
    {
      var mapping := BuildMapping(dr.GetColumnSchema(), props);
      if mapping.Failure? {
        return Failure(mapping.error);
      }
      var colMapping := mapping.value;
      if !dr.HasRows() {
        return Success([]);
      }
      SetRowsFit(dr.results[dr.position.current], props);
      var objList := ReadRows(dr, colMapping, props, init);
      r := Success(objList);
    }

    /** The `while (dr.Read())` loop: one object per remaining row of the current result set. */
    static method ReadRows(dr: Reader, colMapping: map<string, Column>, props: seq<string>, init: Record)
      returns (objList: seq<Record>)
      requires dr.Valid() && dr.HasRows()
      requires forall i :: 0 <= i < |dr.results[dr.position.current].rows| ==>
                 Fits(colMapping, dr.results[dr.position.current].rows[i])
      modifies dr`position
      ensures dr.Valid() && dr.position == old(dr.position).(consumed := |dr.results[old(dr.position).current].rows|)
      ensures objList == MapRows(colMapping, RemainingRows(dr.results, old(dr.position)), props, init)
    {
      ghost var p0 := dr.position;
      ghost var rows := dr.results[p0.current].rows;
      objList := [];
      ghost var done := p0.consumed;
      var more := dr.Read();
      while more
        invariant dr.Valid() && dr.position.current == p0.current
        invariant p0.consumed <= done <= |rows|
        invariant more ==> dr.position.consumed == done + 1
        invariant !more ==> dr.position.consumed == done == |rows|
        invariant |objList| == done - p0.consumed
        invariant forall i :: 0 <= i < |objList| ==> objList[i] == MapRow(colMapping, rows[p0.consumed + i], props, init)
        decreases |rows| - done
      {
        var obj := FillObject(dr, colMapping, props, init);
        objList := objList + [obj];
        done := done + 1;
        more := dr.Read();
      }
      ghost var remaining := RemainingRows(dr.results, p0);
      MapRowsSpec(colMapping, remaining, props, init);
    }

    /** The body of the row loop: a fresh object with every bound property assigned from the current row. */
    static method FillObject(dr: Reader, colMapping: map<string, Column>, props: seq<string>, init: Record) returns (obj: Record)
      requires dr.Valid() && dr.position.current < |dr.results| && 0 < dr.position.consumed
      requires Fits(colMapping, dr.results[dr.position.current].rows[dr.position.consumed - 1])
      ensures obj == MapRow(colMapping, dr.results[dr.position.current].rows[dr.position.consumed - 1], props, init)
    {
      ghost var s := dr.results[dr.position.current];
      ghost var row := s.rows[dr.position.consumed - 1];
      assert WellFormedSet(s) && |row| == |s.columns|;
      obj := init;
      for j := 0 to |props|
        invariant obj == Assign(colMapping, row, init, props[..j])
      {
        assert props[..j + 1][..j] == props[..j];
        var upperName := Fold(props[j]);
        if upperName !in colMapping {
          continue;
        }
        var column := colMapping[upperName];
        if column.ordinal.None? {
          continue;
        }
        var val := dr.GetValue(column.ordinal.value);
        obj := obj[props[j] := if val.DBNull? then None else Some(val.datum)];
      }
      assert props[..|props|] == props;
    }

    /** Reads at most one row and returns its first column, unless DBNull. */
    static method MapToValue(dr: Reader) returns (v: Option<Datum>)
      requires dr.Valid()
      modifies dr`position
      ensures dr.Valid() && (v, dr.position) == ScalarStep(dr.results, old(dr.position))
    {
      if !dr.HasRows() {
        return None;
      }
      var more := dr.Read();
      if more {
        var c := dr.GetValue(0);
        return if c.DBNull? then None else Some(c.datum);
      }
      return None;
    }
  }

  /** One handler operation performed on the cursor. */
  method Perform(results: SprocResults, op: Op) returns (observed: seq<Observation>, err: Option<Error>)
    requires results.reader.Valid()
    modifies results.reader`position
    ensures results.reader.Valid()
    ensures Run(observed, err, results.reader.position) == Step(results.reader.results, old(results.reader.position), op)
  {
    match op {
      case ReadList(props, init) =>
        var l := results.ReadToList(props, init);
        if l.Success? {
          observed, err := [Rows(l.value)], None;
        } else {
          observed, err := [], Some(l.error);
        }
      case ReadValue =>
        var v := results.ReadToValue();
        observed, err := [Scalar(v)], None;
      case Advance =>
        var b := results.NextResult();
        observed, err := [Advanced(b)], None;
      case AdvanceAsync(cancelled) =>
        var b := results.NextResultAsync(cancelled);
        if b.Success? {
          observed, err := [Advanced(b.value)], None;
        } else {
          observed, err := [], Some(b.error);
        }
      case Throw(e) =>
        observed, err := [], Some(e);
    }
  }

  /**
   * One more operation of a handler: what was learned so far, followed by what the
   * operation and the rest of the handler learn, is what the whole handler learns.
   */
  lemma OpsStep(rs: seq<ResultSet>, p0: Position, handler: Handler, i: nat,
                observed: seq<Observation>, p: Position, o: seq<Observation>, e: Option<Error>, q: Position)
    requires WellFormed(rs) && ValidPosition(rs, p0) && ValidPosition(rs, p) && i < |handler|
    requires Then(Run(observed, None, p), RunWith(StepOf(rs), p, handler, i)) == RunOps(rs, p0, handler)
    requires Step(rs, p, handler[i]) == Run(o, e, q)
    ensures e.Some? ==> RunOps(rs, p0, handler) == Run(observed + o, e, q)
    ensures e.None? ==>
              Then(Run(observed + o, None, q), RunWith(StepOf(rs), q, handler, i + 1)) == RunOps(rs, p0, handler)
  {
  }

  /** `handleResults(sprocResults)`: the handler's operations, until one throws. */
  method Invoke(results: SprocResults, handler: Handler) returns (observed: seq<Observation>, err: Option<Error>)
    requires results.reader.Valid()
    modifies results.reader`position
    ensures results.reader.Valid()
    ensures Run(observed, err, results.reader.position) == RunOps(results.reader.results, old(results.reader.position), handler)
  {
    ghost var rs, p0 := results.reader.results, results.reader.position;
    observed, err := [], None;
    var i := 0;
    while i < |handler|
      invariant 0 <= i <= |handler| && results.reader.Valid() && results.reader.results == rs
      invariant Then(Run(observed, None, results.reader.position), RunWith(StepOf(rs), results.reader.position, handler, i)) ==
                RunOps(rs, p0, handler)
    {
      ghost var p := results.reader.position;
      var o, e := Perform(results, handler[i]);
      OpsStep(rs, p0, handler, i, observed, p, o, e, results.reader.position);
      if e.Some? {
        return observed + o, e;
      }
      observed := observed + o;
      i := i + 1;
    }
  }
}

/**
 * The record mapper of `SprocResults.MapToList`, stated on values.  The reflected target
 * type becomes an ordered list of property names, and an object becomes a map from
 * property name to field value.  A field value is None for a null and Some(d) for a
 * value d.  Culture-sensitive upper-casing is `Fold`.
 */
module Mapping {
  import opened Base
  import opened Driver

  type Field = Option<Datum>

  /** A mapped object: property name to field value; `new T()` supplies the starting map. */
  type Record = map<string, Field>

  function UpperChar(c: char): char
  {
    if 'a' <= c <= 'z' then (c as int - 32) as char else c
  }

  /** Two characters are the same letter, or the same character, once case is ignored. */
  predicate SameIgnoringCase(a: char, b: char)
  {
    || a == b
    || ('a' <= a <= 'z' && b as int == a as int - 32)
    || ('a' <= b <= 'z' && a as int == b as int - 32)
  }

  /** `string.Equals(s, t, ...IgnoreCase)`, character by character. */
  predicate EqualIgnoringCase(s: string, t: string)
  {
    |s| == |t| && forall i :: 0 <= i < |s| ==> SameIgnoringCase(s[i], t[i])
  }

  /** Stand-in for `ToUpper()` and for the `CurrentCultureIgnoreCase` comparison. */
  function Fold(s: string): (r: string)
    ensures |r| == |s|
    ensures forall i :: 0 <= i < |r| ==> !('a' <= r[i] <= 'z')
    ensures EqualIgnoringCase(r, s)
  {
    seq(|s|, i requires 0 <= i < |s| => UpperChar(s[i]))
  }

  lemma UpperCharIgnoresCase(a: char, b: char)
    ensures UpperChar(a) == UpperChar(b) <==> SameIgnoringCase(a, b)
  {
  }

  /** Two names upper-case to the same key exactly when they are equal ignoring case. */
  lemma FoldIgnoresCase(s: string, t: string)
    ensures Fold(s) == Fold(t) <==> EqualIgnoringCase(s, t)
  {
    if |s| == |t| {
      forall i | 0 <= i < |s|
        ensures Fold(s)[i] == Fold(t)[i] <==> SameIgnoringCase(s[i], t[i])
      {
        UpperCharIgnoresCase(s[i], t[i]);
      }
      if EqualIgnoringCase(s, t) {
        assert forall i :: 0 <= i < |s| ==> Fold(s)[i] == Fold(t)[i];
      }
    }
  }

  /** The dictionary key of a column: its upper-cased name, which matches the name ignoring case. */
  function Key(c: Column): (k: string)
    ensures EqualIgnoringCase(k, c.name)
  {
    Fold(c.name)
  }

  /** The `Where` filter: some property's name equals the column's, ignoring case. */
  predicate Wanted(c: Column, props: seq<string>)
  {
    exists p :: p in props && Fold(p) == Key(c)
  }

  /** A column is wanted exactly when some property's name equals its name, ignoring case. */
  lemma WantedIgnoresCase(c: Column, props: seq<string>)
    ensures Wanted(c, props) <==> exists p :: p in props && EqualIgnoringCase(p, c.name)
  {
    forall p | p in props
      ensures Fold(p) == Key(c) <==> EqualIgnoringCase(p, c.name)
    {
      FoldIgnoresCase(p, c.name);
    }
  }

  /**
   * The column mapping of `MapToList`: the wanted columns, in schema order, fed to
   * `ToDictionary` keyed by upper-cased name.  The first wanted column whose key repeats
   * an earlier one makes the construction throw.
   */
  function BuildMapping(cols: seq<Column>, props: seq<string>): (r: Result<map<string, Column>>)
    ensures r.Success? ==> forall k :: k in r.value ==> r.value[k] in cols && Key(r.value[k]) == k
    ensures r.Failure? ==> exists c :: c in cols && Wanted(c, props) && r.error == DuplicateKey(Key(c))
  {
    if cols == [] then Success(map[])
    else
      var c := cols[|cols| - 1];
      match BuildMapping(cols[..|cols| - 1], props)
      case Failure(e) => Failure(e)
      case Success(m) =>
        if !Wanted(c, props) then Success(m)
        else if Key(c) in m then Failure(DuplicateKey(Key(c)))
        else Success(m[Key(c) := c])
  }

  /** No two wanted columns share a key: exactly the condition under which the mapping is built. */
  predicate DistinctKeys(cols: seq<Column>, props: seq<string>)
  {
    forall i, j :: 0 <= i < j < |cols| && Wanted(cols[i], props) && Wanted(cols[j], props) ==> Key(cols[i]) != Key(cols[j])
  }

  /** What a built mapping holds: exactly the keys of the wanted columns, each with its column. */
  lemma {:induction false} BuildMappingContents(cols: seq<Column>, props: seq<string>)
    requires BuildMapping(cols, props).Success?
    ensures var m := BuildMapping(cols, props).value;
      && (forall k :: k in m ==> exists j :: 0 <= j < |cols| && Wanted(cols[j], props) && Key(cols[j]) == k)
      && (forall j :: 0 <= j < |cols| && Wanted(cols[j], props) ==> Key(cols[j]) in m && m[Key(cols[j])] == cols[j])
  {
    if cols != [] {
      var n := |cols| - 1;
      var front, c := cols[..n], cols[n];
      BuildMappingContents(front, props);
      var m0 := BuildMapping(front, props).value;
      var m := BuildMapping(cols, props).value;
      forall k | k in m ensures exists j :: 0 <= j < |cols| && Wanted(cols[j], props) && Key(cols[j]) == k {
        if k in m0 {
          var j :| 0 <= j < |front| && Wanted(front[j], props) && Key(front[j]) == k;
          assert cols[j] == front[j];
        } else {
          assert cols[n] == c;
        }
      }
      forall j | 0 <= j < |cols| && Wanted(cols[j], props) ensures Key(cols[j]) in m && m[Key(cols[j])] == cols[j] {
        if j < n {
          assert cols[j] == front[j];
        }
      }
    }
  }

  /** A failed construction names a key that two wanted columns share. */
  lemma {:induction false} BuildMappingClash(cols: seq<Column>, props: seq<string>)
    requires BuildMapping(cols, props).Failure?
    ensures exists i, j :: 0 <= i < j < |cols| && Wanted(cols[i], props) && Wanted(cols[j], props)
                            && Key(cols[i]) == Key(cols[j]) && BuildMapping(cols, props).error == DuplicateKey(Key(cols[j]))
  {
    var n := |cols| - 1;
    var front, c := cols[..n], cols[n];
    var r := BuildMapping(front, props);
    if r.Failure? {
      BuildMappingClash(front, props);
      var i, j :| 0 <= i < j < |front| && Wanted(front[i], props) && Wanted(front[j], props)
                  && Key(front[i]) == Key(front[j]) && r.error == DuplicateKey(Key(front[j]));
      assert cols[i] == front[i] && cols[j] == front[j];
    } else {
      BuildMappingContents(front, props);
      var j :| 0 <= j < |front| && Wanted(front[j], props) && Key(front[j]) == Key(c);
      assert cols[j] == front[j] && cols[n] == c;
    }
  }

  /** Distinct keys survive one more column whose key, if it is wanted, is new. */
  lemma DistinctSnoc(front: seq<Column>, c: Column, props: seq<string>)
    requires DistinctKeys(front, props)
    requires Wanted(c, props) ==> forall i :: 0 <= i < |front| && Wanted(front[i], props) ==> Key(front[i]) != Key(c)
    ensures DistinctKeys(front + [c], props)
  {
  }

  /** A built mapping comes from wanted columns with pairwise distinct keys. */
  lemma {:induction false} BuildMappingDistinct(cols: seq<Column>, props: seq<string>)
    requires BuildMapping(cols, props).Success?
    ensures DistinctKeys(cols, props)
  {
    if cols != [] {
      var n := |cols| - 1;
      var front, c := cols[..n], cols[n];
      assert cols == front + [c];
      BuildMappingDistinct(front, props);
      BuildMappingContents(front, props);
      var m := BuildMapping(front, props).value;
      assert Wanted(c, props) ==> Key(c) !in m;
      DistinctSnoc(front, c, props);
    }
  }

  /** The mapping is built exactly when no two wanted columns share a key. */
  lemma BuildMappingSucceeds(cols: seq<Column>, props: seq<string>)
    ensures BuildMapping(cols, props).Success? <==> DistinctKeys(cols, props)
  {
    if BuildMapping(cols, props).Success? {
      BuildMappingDistinct(cols, props);
    } else {
      BuildMappingClash(cols, props);
    }
  }

  /** A property gets a value only when its key is mapped to a column that has an ordinal. */
  predicate Bound(m: map<string, Column>, p: string)
  {
    Fold(p) in m && m[Fold(p)].ordinal.Some?
  }

  /** Every ordinal of the mapping indexes into the row. */
  predicate Fits(m: map<string, Column>, row: Row)
  {
    forall k :: k in m && m[k].ordinal.Some? ==> m[k].ordinal.value < |row|
  }

  /** `val == DBNull.Value ? null : val`. */
  function FieldOf(c: Cell): (f: Field)
    ensures f.None? <==> c.DBNull?
  {
    if c.DBNull? then None else Some(c.datum)
  }

  /** The value property `p` receives from `row`. */
  function BoundValue(m: map<string, Column>, row: Row, p: string): Field
    requires Fits(m, row) && Bound(m, p)
  {
    FieldOf(row[m[Fold(p)].ordinal.value])
  }

  /** One pass of the `foreach (var prop in props)` body over `obj`. */
  function AssignProp(m: map<string, Column>, row: Row, obj: Record, p: string): Record
    requires Fits(m, row)
  {
    if Bound(m, p) then obj[p := BoundValue(m, row, p)] else obj
  }

  /** The properties `props`, in order, assigned into `obj` from `row`. */
  function Assign(m: map<string, Column>, row: Row, obj: Record, props: seq<string>): (r: Record)
    requires Fits(m, row)
  {
    if props == [] then obj
    else AssignProp(m, row, Assign(m, row, obj, props[..|props| - 1]), props[|props| - 1])
  }

  /** The object built for one row, starting from the defaults `init` of `new T()`. */
  function MapRow(m: map<string, Column>, row: Row, props: seq<string>, init: Record): (r: Record)
    requires Fits(m, row)
  {
    Assign(m, row, init, props)
  }

  /** The objects built for `rows`, one per row, in row order. */
  function MapRows(m: map<string, Column>, rows: seq<Row>, props: seq<string>, init: Record): (r: seq<Record>)
    requires forall i :: 0 <= i < |rows| ==> Fits(m, rows[i])
    ensures |r| == |rows|
  {
    if rows == [] then []
    else MapRows(m, rows[..|rows| - 1], props, init) + [MapRow(m, rows[|rows| - 1], props, init)]
  }

  /** What one property ends up holding: the bound value, or else whatever `obj` had. */
  lemma {:induction false} AssignSpec(m: map<string, Column>, row: Row, obj: Record, props: seq<string>, k: string)
    requires Fits(m, row)
    ensures k in props && Bound(m, k) ==>
              k in Assign(m, row, obj, props) && Assign(m, row, obj, props)[k] == BoundValue(m, row, k)
    ensures !(k in props && Bound(m, k)) ==>
              && (k in Assign(m, row, obj, props) <==> k in obj)
              && (k in obj ==> Assign(m, row, obj, props)[k] == obj[k])
  {
    if props != [] {
      var front := props[..|props| - 1];
      assert props == front + [props[|props| - 1]];
      AssignSpec(m, row, obj, front, k);
    }
  }

  lemma {:induction false} MapRowsSpec(m: map<string, Column>, rows: seq<Row>, props: seq<string>, init: Record)
    requires forall i :: 0 <= i < |rows| ==> Fits(m, rows[i])
    ensures |MapRows(m, rows, props, init)| == |rows|
    ensures forall i :: 0 <= i < |rows| ==> MapRows(m, rows, props, init)[i] == MapRow(m, rows[i], props, init)
  {
    if rows != [] {
      var front := rows[..|rows| - 1];
      MapRowsSpec(m, front, props, init);
    }
  }

  /** A row as wide as the schema, with ordinals inside the schema. */
  predicate RowShape(cols: seq<Column>, row: Row)
  {
    && |row| == |cols|
    && forall j :: 0 <= j < |cols| && cols[j].ordinal.Some? ==> cols[j].ordinal.value < |cols|
  }

  lemma MappingFits(cols: seq<Column>, props: seq<string>, row: Row)
    requires BuildMapping(cols, props).Success? && RowShape(cols, row)
    ensures Fits(BuildMapping(cols, props).value, row)
  {
  }

  /**
   * The field assignment of `MapToList` for one row, in terms of the schema: a property
   * takes the value (or null) of the column whose name equals it ignoring case, when that
   * column has an ordinal; otherwise, as does every name outside `props`, it keeps the
   * default of `init`.  Columns that match no property play no part.
   */
  lemma {:induction false} MapRowFields(cols: seq<Column>, props: seq<string>, row: Row, init: Record, k: string)
    requires BuildMapping(cols, props).Success? && RowShape(cols, row)
    ensures Fits(BuildMapping(cols, props).value, row)
    ensures var r := MapRow(BuildMapping(cols, props).value, row, props, init);
      forall j :: 0 <= j < |cols| && k in props && Key(cols[j]) == Fold(k) && cols[j].ordinal.Some? ==>
        k in r && r[k] == FieldOf(row[cols[j].ordinal.value])
    ensures var r := MapRow(BuildMapping(cols, props).value, row, props, init);
      (k !in props || forall j :: 0 <= j < |cols| && Key(cols[j]) == Fold(k) ==> cols[j].ordinal.None?) ==>
        (k in r <==> k in init) && (k in init ==> r[k] == init[k])
  {
    MappingFits(cols, props, row);
    BuildMappingContents(cols, props);
    var m := BuildMapping(cols, props).value;
    AssignSpec(m, row, init, props, k);
    if k in props && Bound(m, k) {
      var j :| 0 <= j < |cols| && Wanted(cols[j], props) && Key(cols[j]) == Fold(k);
      assert m[Fold(k)] == cols[j];
    }
    forall j | 0 <= j < |cols| && k in props && Key(cols[j]) == Fold(k) && cols[j].ordinal.Some?
      ensures Bound(m, k) && m[Fold(k)] == cols[j]
    {
      assert Wanted(cols[j], props);
    }
  }

  /** The driver's row shape makes every row of a result set fit its column mapping. */
  lemma SetRowsFit(s: ResultSet, props: seq<string>)
    requires WellFormedSet(s) && BuildMapping(s.columns, props).Success?
    ensures forall i :: 0 <= i < |s.rows| ==> Fits(BuildMapping(s.columns, props).value, s.rows[i])
  {
  }
}

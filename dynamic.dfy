/** The runtime-typed column store (src/dynamic/mod.rs): a dictionary from column
    name to a typed column, plus the row count. Column binding (`cbind`), row
    binding (`rbind`) and column selection (`select`) each come as a copying form
    and an in-place `_mut` form, and each is guarded by a check that runs to
    completion before anything is built or changed.

    The error messages the source assembles are left abstract: an `Error` records
    only which check failed. `HashMap` iteration order is unspecified, so the loops
    over a map's keys take the remaining keys in an arbitrary order. */
module Dynamic {

  /** Single and double precision payloads are only stored and concatenated, so
      their bit patterns stand for them. */
  type F32 = bv32
  type F64 = bv64

  datatype Column =
    | Float(floats: seq<F32>)
    | Double(doubles: seq<F64>)
    | Factor(levels: seq<string>)
    | Bool(flags: seq<bool>)

  /** `Column::len`: the number of entries. */
  function Len(c: Column): nat
  {
    match c
    case Float(v) => |v|
    case Double(v) => |v|
    case Factor(v) => |v|
    case Bool(v) => |v|
  }

  /** `Column::variant_str`: the name of the column's type used in messages. */
  function VariantStr(c: Column): string
  {
    match c
    case Float(_) => "Float"
    case Double(_) => "Double"
    case Factor(_) => "Factor"
    case Bool(_) => "Boolean"
  }

  predicate SameVariant(a: Column, b: Column)
  {
    (a.Float? && b.Float?) || (a.Double? && b.Double?) || (a.Factor? && b.Factor?) || (a.Bool? && b.Bool?)
  }

  /** Two columns get the same name in messages exactly when they have the same type. */
  lemma VariantStrNamesType(a: Column, b: Column)
    ensures VariantStr(a) == VariantStr(b) <==> SameVariant(a, b)
  {
  }

  /** The column `a` extended with the entries of `b` (the arms of the `rbind` match;
      the `panic!` arm is excluded by the precondition, which `rbind_ck` establishes). */
  function Append(a: Column, b: Column): (c: Column)
    requires SameVariant(a, b)
    ensures SameVariant(c, a) && Len(c) == Len(a) + Len(b)
  {
    match (a, b)
    case (Float(v), Float(o)) => Float(v + o)
    case (Double(v), Double(o)) => Double(v + o)
    case (Factor(v), Factor(o)) => Factor(v + o)
    case (Bool(v), Bool(o)) => Bool(v + o)
  }

  /** Both dictionaries have the same column names, each with the same type in both. */
  predicate ColumnsMatch(a: map<string, Column>, b: map<string, Column>)
  {
    a.Keys == b.Keys && forall k :: k in a ==> SameVariant(a[k], b[k])
  }

  /** The columns of a row binding: every column of `a` followed by that of `b`. */
  function Stacked(a: map<string, Column>, b: map<string, Column>): map<string, Column>
    requires ColumnsMatch(a, b)
  {
    map k | k in a :: Append(a[k], b[k])
  }

  /** The columns named in `names`, copied from `cols`. */
  function Selected(cols: map<string, Column>, names: seq<string>): map<string, Column>
    requires forall n :: n in names ==> n in cols
  {
    map n | n in names :: cols[n]
  }

  /** Which check failed. */
  datatype Error = RowCountMismatch | ConflictingColumns | IncompatibleColumns | MissingColumn(name: string)

  datatype Outcome = Pass | Fail(error: Error)

  datatype Result<T> = Ok(value: T) | Err(error: Error)

  class DataFrame {
    var columns: map<string, Column>
    var nrow: nat

    /** Every column holds exactly `nrow` entries. */
    ghost predicate Valid()
      reads this
    {
      forall k :: k in columns ==> Len(columns[k]) == nrow
    }

    /** `new` / `default`: no columns and no rows. */
    constructor New()
      ensures columns == map[] && nrow == 0
      ensures Valid()
    {
      columns := map[];
      nrow := 0;
    }

    /** `cbind_ck`: the row counts must agree and no column name may be shared. */
    method CbindCk(other: DataFrame) returns (res: Outcome)
      ensures res == if nrow != other.nrow then Fail(RowCountMismatch)
                     else if columns.Keys !! other.columns.Keys then Pass
                     else Fail(ConflictingColumns)
    {
      if nrow != other.nrow {
        return Fail(RowCountMismatch);
      }
      var todo := other.columns.Keys;
      while todo != {}
        invariant todo <= other.columns.Keys
        invariant forall k :: k in other.columns && k !in todo ==> k !in columns
        decreases todo
      {
        var key :| key in todo;
        if key in columns {
          return Fail(ConflictingColumns);
        }
        todo := todo - {key};
      }
      return Pass;
    }

    /** `cbind`: a new store holding the columns of both, with this store's row count. */
    method Cbind(other: DataFrame) returns (res: Result<DataFrame>)
      ensures res.Err? <==> !(nrow == other.nrow && columns.Keys !! other.columns.Keys)
      ensures res.Err? ==> res.error == if nrow != other.nrow then RowCountMismatch else ConflictingColumns
      ensures res.Ok? ==> fresh(res.value) && res.value.columns == columns + other.columns && res.value.nrow == nrow
      ensures res.Ok? && Valid() && other.Valid() ==> res.value.Valid()
    {
      var ck := CbindCk(other);
      if ck.Fail? {
        return Err(ck.error);
      }
      var result := new DataFrame.New();
      result.nrow := nrow;
      var todo := columns.Keys;
      while todo != {}
        invariant fresh(result) && result.nrow == nrow
        invariant todo <= columns.Keys
        invariant result.columns.Keys == columns.Keys - todo
        invariant forall k :: k in result.columns ==> result.columns[k] == columns[k]
        decreases todo
      {
        var key :| key in todo;
        result.columns := result.columns[key := columns[key]];
        todo := todo - {key};
      }
      todo := other.columns.Keys;
      while todo != {}
        invariant fresh(result) && result.nrow == nrow
        invariant todo <= other.columns.Keys
        invariant result.columns.Keys == columns.Keys + (other.columns.Keys - todo)
        invariant forall k :: k in result.columns ==>
          result.columns[k] == if k in other.columns && k !in todo then other.columns[k] else columns[k]
        decreases todo
      {
        var key :| key in todo;
        result.columns := result.columns[key := other.columns[key]];
        todo := todo - {key};
      }
      return Ok(result);
    }

    /** `cbind_mut`: adds the other store's columns to this one; on an error nothing changes. */
    method CbindMut(other: DataFrame) returns (res: Result<DataFrame>)
      requires other != this
      modifies this
      ensures res.Err? <==> !(old(nrow) == other.nrow && old(columns).Keys !! other.columns.Keys)
      ensures res.Err? ==> (res.error == (if old(nrow) != other.nrow then RowCountMismatch else ConflictingColumns)
                            && columns == old(columns) && nrow == old(nrow))
      ensures res.Ok? ==> res.value == this && columns == old(columns) + other.columns && nrow == old(nrow)
      ensures old(Valid()) && other.Valid() ==> Valid()
    {
      var ck := CbindCk(other);
      if ck.Fail? {
        return Err(ck.error);
      }
      var todo := other.columns.Keys;
      while todo != {}
        invariant todo <= other.columns.Keys
        invariant nrow == old(nrow)
        invariant columns.Keys == old(columns).Keys + (other.columns.Keys - todo)
        invariant forall k :: k in columns ==>
          columns[k] == if k in other.columns && k !in todo then other.columns[k] else old(columns)[k]
        decreases todo
      {
        var key :| key in todo;
        columns := columns[key := other.columns[key]];
        todo := todo - {key};
      }
      return Ok(this);
    }

    /** `rbind_ck_base`: every column of `a` is in `b`, with the same type. */
    static method RbindCkBase(a: DataFrame, b: DataFrame) returns (res: Outcome)
      ensures res == Pass || res == Fail(IncompatibleColumns)
      ensures res == Pass <==> forall k :: k in a.columns ==> k in b.columns && SameVariant(a.columns[k], b.columns[k])
    {
      var todo := a.columns.Keys;
      while todo != {}
        invariant todo <= a.columns.Keys
        invariant forall k :: k in a.columns && k !in todo ==> k in b.columns && SameVariant(a.columns[k], b.columns[k])
        decreases todo
      {
        var key :| key in todo;
        if key !in b.columns || !SameVariant(a.columns[key], b.columns[key]) {
          return Fail(IncompatibleColumns);
        }
        todo := todo - {key};
      }
      return Pass;
    }

    /** `rbind_ck`: the base check in both directions. */
    method RbindCk(other: DataFrame) returns (res: Outcome)
      ensures res == Pass || res == Fail(IncompatibleColumns)
      ensures res == Pass <==> ColumnsMatch(columns, other.columns)
    {
      res := RbindCkBase(this, other);
      if res.Fail? {
        return;
      }
      res := RbindCkBase(other, this);
      if res.Fail? {
        return;
      }
      // The source's `assert!` on the column counts cannot fail here.
      assert columns.Keys == other.columns.Keys;
      assert |columns| == |other.columns|;
    }

    /** `rbind`: a new store whose every column is this store's column followed by the
        other's, with the row counts added. */
    method Rbind(other: DataFrame) returns (res: Result<DataFrame>)
      ensures res.Err? <==> !ColumnsMatch(columns, other.columns)
      ensures res.Err? ==> res.error == IncompatibleColumns
      ensures res.Ok? ==> (fresh(res.value) && ColumnsMatch(columns, other.columns)
                           && res.value.columns == Stacked(columns, other.columns)
                           && res.value.nrow == nrow + other.nrow)
      ensures res.Ok? && Valid() && other.Valid() ==> res.value.Valid()
    {
      var ck := RbindCk(other);
      if ck.Fail? {
        return Err(ck.error);
      }
      var result := new DataFrame.New();
      result.nrow := nrow + other.nrow;
      var todo := columns.Keys;
      while todo != {}
        invariant fresh(result) && result.nrow == nrow + other.nrow
        invariant todo <= columns.Keys
        invariant result.columns.Keys == columns.Keys - todo
        invariant forall k :: k in result.columns ==> result.columns[k] == Append(columns[k], other.columns[k])
        decreases todo
      {
        var key :| key in todo;
        result.columns := result.columns[key := Append(columns[key], other.columns[key])];
        todo := todo - {key};
      }
      return Ok(result);
    }

    /** `rbind_mut`: extends every column of this store with the other's and adds the
        row counts; on an error nothing changes. */
    method RbindMut(other: DataFrame) returns (res: Result<DataFrame>)
      requires other != this
      modifies this
      ensures res.Err? <==> !ColumnsMatch(old(columns), other.columns)
      ensures res.Err? ==> res.error == IncompatibleColumns && columns == old(columns) && nrow == old(nrow)
      ensures res.Ok? ==> (res.value == this && ColumnsMatch(old(columns), other.columns)
                           && columns == Stacked(old(columns), other.columns)
                           && nrow == old(nrow) + other.nrow)
      ensures old(Valid()) && other.Valid() ==> Valid()
    {
      var ck := RbindCk(other);
      if ck.Fail? {
        return Err(ck.error);
      }
      var todo := columns.Keys;
      while todo != {}
        invariant todo <= old(columns).Keys
        invariant nrow == old(nrow)
        invariant columns.Keys == old(columns).Keys
        invariant forall k :: k in columns ==>
          columns[k] == if k in todo then old(columns)[k] else Append(old(columns)[k], other.columns[k])
        decreases todo
      {
        var key :| key in todo;
        columns := columns[key := Append(columns[key], other.columns[key])];
        todo := todo - {key};
      }
      nrow := nrow + other.nrow;
      return Ok(this);
    }

    /** `select_ck`: every requested name must be a column; the first one that is
        not (in the order requested) is reported. */
    method SelectCk(names: seq<string>) returns (res: Outcome)
      ensures res == Pass <==> forall n :: n in names ==> n in columns
      ensures res.Fail? ==> exists i :: 0 <= i < |names| && names[i] !in columns
                              && (forall j :: 0 <= j < i ==> names[j] in columns)
                              && res.error == MissingColumn(names[i])
    {
      var i := 0;
      while i < |names|
        invariant 0 <= i <= |names|
        invariant forall j :: 0 <= j < i ==> names[j] in columns
      {
        if names[i] !in columns {
          return Fail(MissingColumn(names[i]));
        }
        i := i + 1;
      }
      return Pass;
    }

    /** `select`: a new store with exactly the requested columns, copied, and the same
        row count. */
    method Select(names: seq<string>) returns (res: Result<DataFrame>)
      ensures res.Err? <==> exists n :: n in names && n !in columns
      ensures res.Err? ==> res.error.MissingColumn? && res.error.name in names && res.error.name !in columns
      ensures res.Ok? ==> (fresh(res.value) && (forall n :: n in names ==> n in columns)
                           && res.value.columns == Selected(columns, names) && res.value.nrow == nrow)
      ensures res.Ok? && Valid() ==> res.value.Valid()
    {
      var ck := SelectCk(names);
      if ck.Fail? {
        return Err(ck.error);
      }
      var result := new DataFrame.New();
      var i := 0;
      while i < |names|
        invariant 0 <= i <= |names|
        invariant fresh(result) && result.nrow == 0
        invariant result.columns == Selected(columns, names[..i])
      {
        result.columns := result.columns[names[i] := columns[names[i]]];
        assert names[..i + 1] == names[..i] + [names[i]];
        i := i + 1;
      }
      assert names[..i] == names;
      result.nrow := nrow;
      return Ok(result);
    }

    /** `select_mut` as written: after the check, REMOVES the requested columns (its
        documentation says it keeps them and removes the others). */
    method SelectMut(names: seq<string>) returns (res: Result<DataFrame>)
      modifies this
      ensures res.Err? <==> exists n :: n in names && n !in old(columns)
      ensures res.Err? ==> columns == old(columns) && nrow == old(nrow)
      ensures res.Ok? ==> res.value == this && columns == old(columns) - (set n | n in names) && nrow == old(nrow)
      ensures old(Valid()) ==> Valid()
    {
      var ck := SelectCk(names);
      if ck.Fail? {
        return Err(ck.error);
      }
      var i := 0;
      while i < |names|
        invariant 0 <= i <= |names|
        invariant nrow == old(nrow)
        invariant columns == old(columns) - (set n | n in names[..i])
      {
        columns := columns - {names[i]};
        assert names[..i + 1] == names[..i] + [names[i]];
        i := i + 1;
      }
      assert names[..i] == names;
      return Ok(this);
    }

    /** `select_mut` as documented: keeps exactly the requested columns, leaving this
        store with the columns that `select` returns. */
    method SelectMutRetain(names: seq<string>) returns (res: Result<DataFrame>)
      modifies this
      ensures res.Err? <==> exists n :: n in names && n !in old(columns)
      ensures res.Err? ==> columns == old(columns) && nrow == old(nrow)
      ensures res.Ok? ==> (res.value == this && (forall n :: n in names ==> n in old(columns))
                           && columns == Selected(old(columns), names) && nrow == old(nrow))
      ensures old(Valid()) ==> Valid()
    {
      var ck := SelectCk(names);
      if ck.Fail? {
        return Err(ck.error);
      }
      var todo := columns.Keys;
      while todo != {}
        invariant todo <= old(columns).Keys
        invariant nrow == old(nrow)
        invariant columns == old(columns) - ((old(columns).Keys - todo) - (set n | n in names))
        decreases todo
      {
        var key :| key in todo;
        if key !in names {
          columns := columns - {key};
        }
        todo := todo - {key};
      }
      return Ok(this);
    }
  }

  /** On a store with columns `a` and `b`, `select_mut(["a"])` as written leaves only
      `b`, while `select(["a"])` (and the documented behaviour) keeps only `a`. */
  method SelectMutDiscrepancy() returns (afterMut: set<string>, selected: set<string>)
    ensures afterMut == {"b"} && selected == {"a"}
  {
    var d := new DataFrame.New();
    d.columns := map["a" := Bool([true]), "b" := Bool([false])];
    d.nrow := 1;
    var copy := d.Select(["a"]);
    assert "a" in ["a"];
    selected := copy.value.columns.Keys;
    var r := d.SelectMut(["a"]);
    afterMut := d.columns.Keys;
  }

  /** The corrected form leaves the same columns as `select`. */
  method SelectMutRetainExample() returns (afterMut: set<string>, selected: set<string>)
    ensures afterMut == {"a"} && selected == {"a"}
  {
    var d := new DataFrame.New();
    d.columns := map["a" := Bool([true]), "b" := Bool([false])];
    d.nrow := 1;
    var copy := d.Select(["a"]);
    assert "a" in ["a"];
    selected := copy.value.columns.Keys;
    var r := d.SelectMutRetain(["a"]);
    afterMut := d.columns.Keys;
  }
}

/** The `gather` verb (src/gather/mod.rs): a wide-to-long pivot. Each input row is
    expanded into one output row per (field name, value) pair that `collect` yields
    for it; each output row is a copy of the input row passed through `update`.

    The `gather!` macro builds `collect` and `update` for a record type whose
    gathered fields all have one type `Option<V>`: `collect` lists the named fields
    in the order given, and `update` clears them, writes the field name into the key
    field and the value into the value field. */
module Gather {
  import opened Wrappers
  import Filter

  /** The output rows for one input row `r`, in the order `collect` yields its pairs. */
  function Expand<R, V>(r: R, collect: R -> seq<(string, V)>, update: (R, string, V) -> R): seq<R>
  {
    var pairs := collect(r);
    seq(|pairs|, j requires 0 <= j < |pairs| => update(r, pairs[j].0, pairs[j].1))
  }

  /** The total number of pairs `collect` yields over all rows. */
  function TotalPairs<R, V>(rows: seq<R>, collect: R -> seq<(string, V)>): nat
  {
    if rows == [] then 0 else TotalPairs(rows[..|rows| - 1], collect) + |collect(rows[|rows| - 1])|
  }

  /** The rows of the gathered store: the expansions of the rows, concatenated in row order. */
  function Gathered<R, V>(rows: seq<R>, collect: R -> seq<(string, V)>, update: (R, string, V) -> R): seq<R>
  {
    if rows == [] then []
    else Gathered(rows[..|rows| - 1], collect, update) + Expand(rows[|rows| - 1], collect, update)
  }

  /** `gather`: the nested loop of the source, pushing each updated copy onto a growing result. */
  method Gather<R, V>(rows: seq<R>, collect: R -> seq<(string, V)>, update: (R, string, V) -> R)
    returns (newRecords: seq<R>)
    ensures newRecords == Gathered(rows, collect, update)
  {
    newRecords := [];
    var i := 0;
    while i < |rows|
      invariant 0 <= i <= |rows|
      invariant newRecords == Gathered(rows[..i], collect, update)
    {
      var record := rows[i];
      var pairs := collect(record);
      var j := 0;
      while j < |pairs|
        invariant 0 <= j <= |pairs|
        invariant newRecords == Gathered(rows[..i], collect, update) + Expand(record, collect, update)[..j]
      {
        var newRecord := update(record, pairs[j].0, pairs[j].1);
        newRecords := newRecords + [newRecord];
        j := j + 1;
      }
      assert rows[..i + 1][..i] == rows[..i];
      assert Expand(record, collect, update)[..j] == Expand(record, collect, update);
      i := i + 1;
    }
    assert rows[..i] == rows;
  }

  /** The output has one row per collected pair. */
  lemma {:induction false} GatheredLength<R, V>(rows: seq<R>, collect: R -> seq<(string, V)>, update: (R, string, V) -> R)
    ensures |Gathered(rows, collect, update)| == TotalPairs(rows, collect)
  {
    if rows != [] {
      GatheredLength(rows[..|rows| - 1], collect, update);
    }
  }

  /** Gathering a concatenation gathers each part, in order. */
  lemma {:induction false} GatheredAppend<R, V>(a: seq<R>, b: seq<R>, collect: R -> seq<(string, V)>, update: (R, string, V) -> R)
    ensures Gathered(a + b, collect, update) == Gathered(a, collect, update) + Gathered(b, collect, update)
    ensures TotalPairs(a + b, collect) == TotalPairs(a, collect) + TotalPairs(b, collect)
  {
    if b == [] {
      assert a + b == a;
    } else {
      var b' := b[..|b| - 1];
      assert (a + b)[..|a + b| - 1] == a + b';
      assert (a + b)[|a + b| - 1] == b[|b| - 1];
      GatheredAppend(a, b', collect, update);
    }
  }

  /** Output row `TotalPairs(rows[..i]) + j` is input row `i` updated with its `j`-th
      collected pair: rows are grouped by input row in input order, and within a row
      follow `collect`'s order. */
  lemma GatheredAt<R, V>(rows: seq<R>, collect: R -> seq<(string, V)>, update: (R, string, V) -> R, i: nat, j: nat)
    requires i < |rows| && j < |collect(rows[i])|
    ensures TotalPairs(rows[..i], collect) + j < |Gathered(rows, collect, update)|
    ensures Gathered(rows, collect, update)[TotalPairs(rows[..i], collect) + j]
         == update(rows[i], collect(rows[i])[j].0, collect(rows[i])[j].1)
  {
    var before, after := rows[..i], rows[i + 1..];
    assert rows == before + [rows[i]] + after;
    GatheredAppend(before, [rows[i]], collect, update);
    GatheredAppend(before + [rows[i]], after, collect, update);
    GatheredLength(before, collect, update);
    assert [rows[i]][..0] == [];
  }

  /** A row whose `collect` yields nothing contributes no output rows: gathering
      gives the same store once such rows are removed. */
  lemma {:induction false} GatheredSkipsEmpty<R, V>(rows: seq<R>, collect: R -> seq<(string, V)>, update: (R, string, V) -> R)
    ensures Gathered(rows, collect, update) == Gathered(Filter.Filter(rows, r => |collect(r)| > 0), collect, update)
  {
    if rows != [] {
      var p := r => |collect(r)| > 0;
      GatheredSkipsEmpty(rows[1..], collect, update);
      assert rows == [rows[0]] + rows[1..];
      GatheredAppend([rows[0]], rows[1..], collect, update);
      var head := if p(rows[0]) then [rows[0]] else [];
      assert Filter.Filter(rows, p) == head + Filter.Filter(rows[1..], p);
      GatheredAppend(head, Filter.Filter(rows[1..], p), collect, update);
      assert [rows[0]][..0] == [];
      if !p(rows[0]) {
        assert Gathered([rows[0]], collect, update) == [];
      }
    }
  }

  /* The `gather!` macro. */

  /** A record as the macro sees it: `values` holds its fields of the gathered type
      `Option<V>` (the gathered columns and the value column), `labels` its
      `Option<String>` fields (the key column), and `rest` everything else, which
      the macro never touches. */
  datatype Record<T, V> = Record(rest: T, values: map<string, Option<V>>, labels: map<string, Option<string>>)

  /** The record has every field the macro invocation names (Rust rejects the
      invocation at compile time otherwise). */
  ghost predicate HasFields<T, V>(r: Record<T, V>, key: string, val: string, cols: seq<string>)
  {
    key in r.labels && val in r.values && forall c :: c in cols ==> c in r.values
  }

  function Field<T, V>(r: Record<T, V>, name: string): Option<V>
  {
    if name in r.values then r.values[name] else None
  }

  /** The macro's collect closure: `(name, value)` for each listed column, in order. */
  function MacroCollect<T, V>(cols: seq<string>): Record<T, V> -> seq<(string, Option<V>)>
  {
    r => seq(|cols|, i requires 0 <= i < |cols| => (cols[i], Field(r, cols[i])))
  }

  /** The fields after `r.col = None` for every listed column, in order. */
  function Masked<V>(values: map<string, Option<V>>, cols: seq<string>): map<string, Option<V>>
    decreases cols
  {
    if cols == [] then values else Masked(values[cols[0] := None], cols[1..])
  }

  /** The macro's update closure: clear the gathered columns, then set the key and the value. */
  function MacroUpdate<T, V>(key: string, val: string, cols: seq<string>): (Record<T, V>, string, Option<V>) -> Record<T, V>
  {
    (r: Record<T, V>, cn: string, v: Option<V>) => Record(r.rest, Masked(r.values, cols)[val := v], r.labels[key := Some(cn)])
  }

  /** Clearing sets exactly the listed columns to `None`. */
  lemma {:induction false} MaskedAt<V>(values: map<string, Option<V>>, cols: seq<string>)
    ensures Masked(values, cols).Keys == values.Keys + set c | c in cols
    ensures forall c :: c in cols ==> Masked(values, cols)[c] == None
    ensures forall k :: k in values && k !in cols ==> Masked(values, cols)[k] == values[k]
    decreases cols
  {
    if cols != [] {
      MaskedAt(values[cols[0] := None], cols[1..]);
      assert forall c :: c in cols <==> c == cols[0] || c in cols[1..];
    }
  }

  /** One macro update: the key field gets the column name, the value field the
      value, every other gathered column is cleared, and nothing else changes. */
  lemma MacroUpdateFields<T, V>(r: Record<T, V>, key: string, val: string, cols: seq<string>, cn: string, v: Option<V>)
    requires HasFields(r, key, val, cols)
    ensures var out := MacroUpdate(key, val, cols)(r, cn, v);
      && HasFields(out, key, val, cols)
      && out.rest == r.rest
      && out.labels == r.labels[key := Some(cn)]
      && out.values.Keys == r.values.Keys
      && out.values[val] == v
      && (forall c :: c in cols && c != val ==> out.values[c] == None)
      && (forall k :: k in r.values && k !in cols && k != val ==> out.values[k] == r.values[k])
  {
    MaskedAt(r.values, cols);
  }

  /** Every row yields one pair per listed column. */
  lemma {:induction false} MacroTotalPairs<T, V>(rows: seq<Record<T, V>>, cols: seq<string>)
    ensures TotalPairs(rows, MacroCollect(cols)) == |rows| * |cols|
  {
    if rows != [] {
      MacroTotalPairs(rows[..|rows| - 1], cols);
    }
  }

  /** The macro-driven gather: `|rows| * |cols|` output rows, and output row
      `i * |cols| + j` is input row `i` updated with column `j`'s name and value. */
  lemma GatherMacroAt<T, V>(rows: seq<Record<T, V>>, key: string, val: string, cols: seq<string>, i: nat, j: nat)
    requires forall k :: 0 <= k < |rows| ==> HasFields(rows[k], key, val, cols)
    requires i < |rows| && j < |cols|
    ensures |Gathered(rows, MacroCollect(cols), MacroUpdate(key, val, cols))| == |rows| * |cols|
    ensures i * |cols| + j < |rows| * |cols|
    ensures cols[j] in rows[i].values
    ensures Gathered(rows, MacroCollect(cols), MacroUpdate(key, val, cols))[i * |cols| + j]
         == MacroUpdate(key, val, cols)(rows[i], cols[j], rows[i].values[cols[j]])
  {
    var collect, update := MacroCollect(cols), MacroUpdate(key, val, cols);
    GatheredLength(rows, collect, update);
    MacroTotalPairs(rows, cols);
    MacroTotalPairs(rows[..i], cols);
    GatheredAt(rows, collect, update, i, j);
    IndexBound(i, j, |rows|, |cols|);
    assert HasFields(rows[i], key, val, cols);
    assert collect(rows[i])[j] == (cols[j], rows[i].values[cols[j]]);
  }

  /** Row-major positions stay inside the grid. */
  lemma IndexBound(i: nat, j: nat, n: nat, m: nat)
    requires i < n && j < m
    ensures i * m + j < n * m
  {
    calc {
      i * m + j;
    <  i * m + m;
    == (i + 1) * m;
    <= { MulMonotone(i + 1, n, m); }
      n * m;
    }
  }

  lemma MulMonotone(a: nat, b: nat, c: nat)
    requires a <= b
    ensures a * c <= b * c
  {
    assert b * c == a * c + (b - a) * c;
  }

  /** `gather!(key, val, bar, baz)` on the row `{id: 1, bar: 5, baz: 6}`. */
  lemma GatherExample()
    ensures Gathered([Record(1, map["bar" := Some(5), "baz" := Some(6), "val" := None], map["key" := None])],
                     MacroCollect(["bar", "baz"]), MacroUpdate("key", "val", ["bar", "baz"]))
         == [Record(1, map["bar" := None, "baz" := None, "val" := Some(5)], map["key" := Some("bar")]),
             Record(1, map["bar" := None, "baz" := None, "val" := Some(6)], map["key" := Some("baz")])]
  {
    var r := Record(1, map["bar" := Some(5), "baz" := Some(6), "val" := None], map["key" := None]);
    var cols := ["bar", "baz"];
    var collect, update := MacroCollect(cols), MacroUpdate("key", "val", cols);
    var cleared := map["bar" := None, "baz" := None, "val" := None];
    assert cols[1..] == ["baz"] && cols[1..][1..] == [];
    assert Masked(r.values, cols) == Masked(r.values["bar" := None], ["baz"]);
    assert Masked(r.values["bar" := None], ["baz"]) == r.values["bar" := None]["baz" := None];
    assert r.values["bar" := None]["baz" := None] == cleared;
    assert Field(r, "bar") == Some(5) && Field(r, "baz") == Some(6);
    var pairs := collect(r);
    assert |pairs| == 2 && pairs[0] == ("bar", Some(5)) && pairs[1] == ("baz", Some(6));
    var first := Record(1, cleared["val" := Some(5)], map["key" := Some("bar")]);
    var second := Record(1, cleared["val" := Some(6)], map["key" := Some("baz")]);
    assert update(r, "bar", Some(5)) == first;
    assert update(r, "baz", Some(6)) == second;
    assert Expand(r, collect, update) == [first, second];
    assert [r][..0] == [];
    assert Gathered([r], collect, update) == [first, second];
    assert cleared["val" := Some(5)] == map["bar" := None, "baz" := None, "val" := Some(5)];
    assert cleared["val" := Some(6)] == map["bar" := None, "baz" := None, "val" := Some(6)];
  }
}

/** The `filter` verb of the typed row store (src/filter/mod.rs): keep the rows
    that satisfy a predicate, in their original order. Rayon's order-preserving
    `par_iter().filter(..).collect()` is modelled as the sequential filter. */
module Filter {

  /** Number of rows of `rows` that satisfy `p`. */
  function Count<R>(rows: seq<R>, p: R -> bool): nat
  {
    if rows == [] then 0 else (if p(rows[0]) then 1 else 0) + Count(rows[1..], p)
  }

  /** `a` is obtained from `b` by deleting zero or more elements. */
  predicate Subsequence<R(==)>(a: seq<R>, b: seq<R>)
  {
    a == [] || (b != [] && ((a[0] == b[0] && Subsequence(a[1..], b[1..])) || Subsequence(a, b[1..])))
  }

  /** The rows of the new store: exactly those of `rows` satisfying `p`. */
  function Filter<R(==)>(rows: seq<R>, p: R -> bool): (out: seq<R>)
    ensures |out| == Count(rows, p)
    ensures forall i :: 0 <= i < |out| ==> out[i] in rows && p(out[i])
    ensures forall i :: 0 <= i < |rows| && p(rows[i]) ==> rows[i] in out
  {
    if rows == [] then [] else (if p(rows[0]) then [rows[0]] else []) + Filter(rows[1..], p)
  }

  /** Filtering a concatenation filters each part and keeps the parts in order:
      together with the one-row case this fixes the relative order of the output. */
  lemma {:induction false} FilterAppend<R>(a: seq<R>, b: seq<R>, p: R -> bool)
    ensures Filter(a + b, p) == Filter(a, p) + Filter(b, p)
  {
    if a == [] {
      assert a + b == b;
    } else {
      assert (a + b)[1..] == a[1..] + b;
      FilterAppend(a[1..], b, p);
    }
  }

  /** A one-row store is kept exactly when its row satisfies `p`. */
  lemma FilterSingle<R>(x: R, p: R -> bool)
    ensures Filter([x], p) == if p(x) then [x] else []
  {
    assert [x][1..] == [];
  }

  /** The output is a subsequence of the input: retained rows keep their relative order. */
  lemma {:induction false} FilterSubsequence<R>(rows: seq<R>, p: R -> bool)
    ensures Subsequence(Filter(rows, p), rows)
  {
    if rows != [] {
      FilterSubsequence(rows[1..], p);
      var out := Filter(rows, p);
      if p(rows[0]) {
        assert out[0] == rows[0] && out[1..] == Filter(rows[1..], p);
      } else {
        assert out == Filter(rows[1..], p);
      }
    }
  }

  /** An always-true predicate returns the same rows. */
  lemma {:induction false} FilterAll<R>(rows: seq<R>, p: R -> bool)
    requires forall x :: p(x)
    ensures Filter(rows, p) == rows
  {
    if rows != [] {
      FilterAll(rows[1..], p);
      assert [rows[0]] + rows[1..] == rows;
    }
  }

  /** An always-false predicate returns an empty store. */
  lemma {:induction false} FilterNone<R>(rows: seq<R>, p: R -> bool)
    requires forall x :: !p(x)
    ensures Filter(rows, p) == []
  {
    if rows != [] {
      FilterNone(rows[1..], p);
    }
  }
}

/** The `select` verb (src/select/mod.rs): a named entry point for reshaping each
    row into a (possibly different) row type; it delegates to `transform`. */
module Select {
  import Frame

  function Select<R, S>(rows: seq<R>, f: R -> S): (out: seq<S>)
    ensures out == Frame.Transform(rows, f)
    ensures |out| == |rows|
    ensures forall i :: 0 <= i < |rows| ==> out[i] == f(rows[i])
  {
    Frame.Transform(rows, f)
  }
}

/** The `mutate` verb (src/mutate/mod.rs): `transform` with a closure that edits a
    fresh copy of each row in place and returns it. The in-place edit of one row is
    modelled as the function giving the edited row. */
module Mutate {
  import Frame

  function Mutate<R>(rows: seq<R>, mutation: R -> R): (out: seq<R>)
    ensures |out| == |rows|
    ensures forall i :: 0 <= i < |rows| ==> out[i] == mutation(rows[i])
  {
    Frame.Transform(rows, mutation)
  }

  /** A mutation that changes nothing yields the same rows. */
  lemma MutateNoop<R>(rows: seq<R>, mutation: R -> R)
    requires forall r :: mutation(r) == r
    ensures Mutate(rows, mutation) == rows
  {
  }
}

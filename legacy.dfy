/** The older, all-in-one generation of the typed row store (src/lib.rs). Where its
    code is the same as the modular generation's, the verbs here are defined by the
    modular ones; what differs is `lookup`, whose default row is mandatory (so no
    row is ever dropped), and `reverse_lookup`, which only this generation has. */
module Legacy {
  import opened Wrappers
  import Frame
  import FilterVerb = Filter
  import MutateVerb = Mutate
  import GatherVerb = Gather

  class DataFrame<R> {
    var rows: seq<R>

    /** An empty store. */
    constructor New()
      ensures rows == []
    {
      rows := [];
    }

    /** The store that the caller's builder produces. */
    constructor With(ctor: () -> seq<R>)
      ensures rows == ctor()
    {
      rows := ctor();
    }

    /** Appends `r` after the existing rows. */
    method Push(r: R)
      modifies this
      ensures rows == old(rows) + [r]
      ensures |rows| == |old(rows)| + 1 && rows[|rows| - 1] == r
    {
      rows := rows + [r];
    }

    /** `Extend`: appends the items one by one, in iteration order. */
    method Extend(items: seq<R>)
      modifies this
      ensures rows == old(rows) + items
      ensures rows[..|old(rows)|] == old(rows) && |rows| == |old(rows)| + |items|
    {
      var i := 0;
      while i < |items|
        invariant 0 <= i <= |items|
        invariant rows == old(rows) + items[..i]
      {
        rows := rows + [items[i]];
        i := i + 1;
      }
      assert items[..i] == items;
    }
  }

  /** `lookup` with a mandatory default: exactly one output row per row of the store,
      the combination with its first match or else `default()`. */
  function Lookup<R, O, N>(rows: seq<R>, others: seq<O>, p: (R, O) -> bool, op: (R, O) -> N, default: () -> N): (out: seq<N>)
    ensures |out| == |rows|
    ensures forall i :: 0 <= i < |rows| ==>
      (exists k :: Frame.IsFirstMatch(rows[i], others, p, k) && out[i] == op(rows[i], others[k])) ||
      (Frame.NoMatch(rows[i], others, p) && out[i] == default())
  {
    Frame.Lookup(rows, others, p, op, Some(default))
  }

  /** `reverse_lookup`: the lookup of `others` against this store, with the arguments
      of the predicate and of the combining function swapped back. One output row per
      row of `others`. */
  function ReverseLookup<R, O, N>(rows: seq<R>, others: seq<O>, p: (R, O) -> bool, op: (R, O) -> N, default: () -> N): (out: seq<N>)
    ensures |out| == |others|
    ensures forall j :: 0 <= j < |others| ==>
      (exists k :: 0 <= k < |rows| && p(rows[k], others[j]) && (forall i :: 0 <= i < k ==> !p(rows[i], others[j]))
         && out[j] == op(rows[k], others[j])) ||
      ((forall k :: 0 <= k < |rows| ==> !p(rows[k], others[j])) && out[j] == default())
  {
    Lookup(others, rows, (o, s) => p(s, o), (o, s) => op(s, o), default)
  }

  /** `transform`: `op` applied to a copy of every row. */
  function Transform<R, S>(rows: seq<R>, op: R -> S): (out: seq<S>)
    ensures |out| == |rows|
    ensures forall i :: 0 <= i < |rows| ==> out[i] == op(rows[i])
  {
    Frame.Transform(rows, op)
  }

  /** `transform_mut`: the same rows as `transform`; it consumes the store instead of
      copying its rows. */
  function TransformMut<R, S>(rows: seq<R>, op: R -> S): (out: seq<S>)
    ensures out == Transform(rows, op)
    ensures |out| == |rows|
    ensures forall i :: 0 <= i < |rows| ==> out[i] == op(rows[i])
  {
    Frame.Transform(rows, op)
  }

  /** `select`: `transform` with `op`'s result converted by `into`, which is the
      identity for the same type. */
  function Select<R, S>(rows: seq<R>, op: R -> S): (out: seq<S>)
    ensures out == Transform(rows, op)
    ensures |out| == |rows|
    ensures forall i :: 0 <= i < |rows| ==> out[i] == op(rows[i])
  {
    Transform(rows, r => op(r))
  }

  /** `mutate`: every row edited by `op` on a copy. */
  function Mutate<R>(rows: seq<R>, op: R -> R): (out: seq<R>)
    ensures out == MutateVerb.Mutate(rows, op)
    ensures |out| == |rows|
    ensures forall i :: 0 <= i < |rows| ==> out[i] == op(rows[i])
  {
    Transform(rows, op)
  }

  /** `filter`: exactly the rows satisfying `p`, in order. */
  function Filter<R(==)>(rows: seq<R>, p: R -> bool): (out: seq<R>)
    ensures out == FilterVerb.Filter(rows, p)
    ensures |out| == FilterVerb.Count(rows, p)
    ensures forall i :: 0 <= i < |out| ==> out[i] in rows && p(out[i])
    ensures forall i :: 0 <= i < |rows| && p(rows[i]) ==> rows[i] in out
  {
    FilterVerb.Filter(rows, p)
  }

  /** `gather`: the same nested loop as the modular generation's. */
  method Gather<R, V>(rows: seq<R>, collect: R -> seq<(string, V)>, update: (R, string, V) -> R)
    returns (out: seq<R>)
    ensures out == GatherVerb.Gathered(rows, collect, update)
    ensures |out| == GatherVerb.TotalPairs(rows, collect)
  {
    out := GatherVerb.Gather(rows, collect, update);
    GatherVerb.GatheredLength(rows, collect, update);
  }
}

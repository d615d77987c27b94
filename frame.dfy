/** The typed row store of the modular generation (src/dataframe/mod.rs, with its
    `Extend` implementation from src/dataframe/traits.rs).

    A store is an ordered sequence of rows of one type `R`. The verbs borrow a store
    and build a new one, so they are modelled as functions from the borrowed store's
    rows to the new store's rows: the borrowed store cannot change. `push` and
    `extend` update the store in place and are methods of the class.

    Rayon's `par_iter().map(..).collect()` keeps the input order and `find_first`
    returns the earliest match in the original order, so both are modelled by their
    sequential meaning. */
module Frame {
  import opened Wrappers
  import Filter

  class DataFrame<R> {
    var rows: seq<R>

    /** An empty store. */
    constructor New()
      ensures rows == []
    {
      rows := [];
    }

    /** The store that the caller's builder produces. */
    constructor With(ctor: () -> seq<R>)
      ensures rows == ctor()
    {
      rows := ctor();
    }

    /** Appends `r` after the existing rows. */
    method Push(r: R)
      modifies this
      ensures rows == old(rows) + [r]
      ensures |rows| == |old(rows)| + 1 && rows[|rows| - 1] == r
    {
      rows := rows + [r];
    }

    /** Appends the items one by one, in iteration order. */
    method Extend(items: seq<R>)
      modifies this
      ensures rows == old(rows) + items
      ensures rows[..|old(rows)|] == old(rows) && |rows| == |old(rows)| + |items|
    {
      var i := 0;
      while i < |items|
        invariant 0 <= i <= |items|
        invariant rows == old(rows) + items[..i]
      {
        rows := rows + [items[i]];
        i := i + 1;
      }
      assert items[..i] == items;
    }
  }

  /** `transform`: the store obtained by applying `f` to (a copy of) every row. */
  function Transform<R, S>(rows: seq<R>, f: R -> S): (out: seq<S>)
    ensures |out| == |rows|
    ensures forall i :: 0 <= i < |rows| ==> out[i] == f(rows[i])
  {
    if rows == [] then [] else [f(rows[0])] + Transform(rows[1..], f)
  }

  /** Transforming a concatenation transforms each part, in order. */
  lemma {:induction false} TransformAppend<R, S>(a: seq<R>, b: seq<R>, f: R -> S)
    ensures Transform(a + b, f) == Transform(a, f) + Transform(b, f)
  {
    if a == [] {
      assert a + b == b;
    } else {
      assert (a + b)[1..] == a[1..] + b;
      TransformAppend(a[1..], b, f);
    }
  }

  /** `k` is the position of the first row of `others` that `pred` pairs with `s`. */
  ghost predicate IsFirstMatch<R, O>(s: R, others: seq<O>, pred: (R, O) -> bool, k: int)
  {
    0 <= k < |others| && pred(s, others[k]) && forall j :: 0 <= j < k ==> !pred(s, others[j])
  }

  /** No row of `others` is paired with `s` by `pred`. */
  ghost predicate NoMatch<R, O>(s: R, others: seq<O>, pred: (R, O) -> bool)
  {
    forall j :: 0 <= j < |others| ==> !pred(s, others[j])
  }

  /** `find_first`: the position of the earliest row of `others` matching `s`, if any. */
  function FindFirst<R, O>(s: R, others: seq<O>, pred: (R, O) -> bool): (k: Option<nat>)
    ensures k.Some? ==> IsFirstMatch(s, others, pred, k.value)
    ensures k.None? ==> NoMatch(s, others, pred)
  {
    if others == [] then None
    else if pred(s, others[0]) then Some(0)
    else match FindFirst(s, others[1..], pred)
      case None => None
      case Some(j) => Some(j + 1)
  }

  /** The first match is unique, so ties among several matching rows are always
      resolved the same way (by original position). */
  lemma FirstMatchUnique<R, O>(s: R, others: seq<O>, pred: (R, O) -> bool, k1: int, k2: int)
    requires IsFirstMatch(s, others, pred, k1) && IsFirstMatch(s, others, pred, k2)
    ensures k1 == k2
  {
  }

  /** The predicate "row `s` has a match in `others`", as a value. */
  function HasMatch<R, O>(others: seq<O>, pred: (R, O) -> bool): R -> bool
  {
    s => FindFirst(s, others, pred).Some?
  }

  /** The per-row step of `lookup` (the `filter_map` closure): the combined row for
      the first match; otherwise the constructor's row if one was given; otherwise
      nothing. */
  function Resolve<R, O, N>(s: R, others: seq<O>, pred: (R, O) -> bool,
                            transform: (R, O) -> N, ctor: Option<() -> N>): Option<N>
  {
    match FindFirst(s, others, pred)
    case Some(k) => Some(transform(s, others[k]))
    case None => if ctor.Some? then Some(ctor.value()) else None
  }

  /** `lookup`: for every row `s` of the store, in order, combine `s` with its first
      match in `others`; an unmatched row is replaced by `ctor()` when a constructor
      is given and dropped otherwise. */
  function Lookup<R, O, N>(rows: seq<R>, others: seq<O>, pred: (R, O) -> bool,
                           transform: (R, O) -> N, ctor: Option<() -> N>): (out: seq<N>)
    ensures |out| <= |rows|
    ensures ctor.None? ==> |out| == Filter.Count(rows, HasMatch(others, pred))
    ensures ctor.Some? ==> |out| == |rows| && forall i :: 0 <= i < |rows| ==>
      (exists k :: IsFirstMatch(rows[i], others, pred, k) && out[i] == transform(rows[i], others[k])) ||
      (NoMatch(rows[i], others, pred) && out[i] == ctor.value())
  {
    if rows == [] then []
    else Emitted(rows[0], others, pred, transform, ctor) + Lookup(rows[1..], others, pred, transform, ctor)
  }

  /** What one row contributes to the output: nothing or one row. */
  function Emitted<R, O, N>(s: R, others: seq<O>, pred: (R, O) -> bool,
                            transform: (R, O) -> N, ctor: Option<() -> N>): seq<N>
  {
    match Resolve(s, others, pred, transform, ctor)
    case Some(n) => [n]
    case None => []
  }

  /** Looking up a concatenation looks up each part and keeps them in order: every
      row's output stays in its row's position relative to the others. */
  lemma {:induction false} LookupAppend<R, O, N>(a: seq<R>, b: seq<R>, others: seq<O>, pred: (R, O) -> bool,
                                                  transform: (R, O) -> N, ctor: Option<() -> N>)
    ensures Lookup(a + b, others, pred, transform, ctor)
         == Lookup(a, others, pred, transform, ctor) + Lookup(b, others, pred, transform, ctor)
  {
    if a == [] {
      assert a + b == b;
    } else {
      var ab := a + b;
      assert ab[0] == a[0] && ab[1..] == a[1..] + b;
      LookupAppend(a[1..], b, others, pred, transform, ctor);
      var e := Emitted(a[0], others, pred, transform, ctor);
      calc {
        Lookup(ab, others, pred, transform, ctor);
        e + Lookup(a[1..] + b, others, pred, transform, ctor);
        e + (Lookup(a[1..], others, pred, transform, ctor) + Lookup(b, others, pred, transform, ctor));
        (e + Lookup(a[1..], others, pred, transform, ctor)) + Lookup(b, others, pred, transform, ctor);
      }
    }
  }

  /** Without a constructor, `lookup` drops exactly the unmatched rows: it equals the
      lookup of the matched rows alone, where no constructor is ever used. */
  lemma {:induction false} LookupDropsUnmatched<R, O, N>(rows: seq<R>, others: seq<O>, pred: (R, O) -> bool,
                                                             transform: (R, O) -> N, ctor: () -> N)
    ensures Lookup(rows, others, pred, transform, None)
         == Lookup(Filter.Filter(rows, HasMatch(others, pred)), others, pred, transform, Some(ctor))
  {
    if rows != [] {
      LookupDropsUnmatched(rows[1..], others, pred, transform, ctor);
      var kept := Filter.Filter(rows, HasMatch(others, pred));
      var rest := Filter.Filter(rows[1..], HasMatch(others, pred));
      if FindFirst(rows[0], others, pred).Some? {
        assert kept == [rows[0]] + rest;
        assert kept[0] == rows[0] && kept[1..] == rest;
      } else {
        assert kept == rest;
      }
    }
  }

  /* A worked example: two stores keyed by `id`, joined on equal ids. */

  datatype Left = Left(id: int, v: int)
  datatype Right = Right(id: int, w: int)
  datatype Joined = Joined(id: int, v: int, w: int)

  function SameId(): (Left, Right) -> bool { (a: Left, b: Right) => a.id == b.id }
  function Join(): (Left, Right) -> Joined { (a: Left, b: Right) => Joined(a.id, a.v, b.w) }

  /** Without a constructor the unmatched row id=1 is dropped. */
  lemma LookupInnerExample()
    ensures Lookup([Left(1, 10), Left(2, 20)], [Right(2, 200), Right(3, 300)], SameId(), Join(), None)
         == [Joined(2, 20, 200)]
  {
    var others := [Right(2, 200), Right(3, 300)];
    assert FindFirst(Left(1, 10), others[1..], SameId()) == None;
    assert FindFirst(Left(1, 10), others, SameId()) == None;
    assert FindFirst(Left(2, 20), others, SameId()) == Some(0);
    assert [Left(1, 10), Left(2, 20)][1..] == [Left(2, 20)];
  }

  /** With a constructor the unmatched row is replaced in place, not dropped. */
  lemma LookupDefaultExample()
    ensures Lookup([Left(1, 10), Left(2, 20)], [Right(2, 200), Right(3, 300)], SameId(), Join(),
                   Some(() => Joined(0, 0, 0)))
         == [Joined(0, 0, 0), Joined(2, 20, 200)]
  {
    var others := [Right(2, 200), Right(3, 300)];
    assert FindFirst(Left(1, 10), others[1..], SameId()) == None;
    assert FindFirst(Left(1, 10), others, SameId()) == None;
    assert FindFirst(Left(2, 20), others, SameId()) == Some(0);
    assert [Left(1, 10), Left(2, 20)][1..] == [Left(2, 20)];
  }
}

/** The second expression-recording prototype (src/dynamic/df_token_copy.rs). The
    notepad now has two lists: indexing records a column token on the `stage`, and
    adding moves the top two staged tokens onto the `stack` (the most recent first),
    pushes `Add` and clears the stage, so stray indexed columns do not reach the
    output. `add` pops the stage twice with `unwrap`, which panics on fewer than two
    staged tokens: that is its precondition here. */
module DfTokenCopy {

  datatype Item = Add | OwnColumn(name: string)

  class Df {
    var stack: seq<Item>
    var stage: seq<Item>

    /** `df::new`: both lists empty. */
    constructor New()
      ensures stack == [] && stage == []
    {
      stack := [];
      stage := [];
    }

    /** `Clone`: a notepad with copies of both lists. */
    constructor Clone(src: Df)
      ensures stack == src.stack && stage == src.stage
    {
      stack := src.stack;
      stage := src.stage;
    }

    /** `Index`: stages the column token and returns the same notepad; the stack is
        unchanged. */
    method Index(name: string) returns (d: Df)
      modifies this
      ensures d == this
      ensures stage == old(stage) + [OwnColumn(name)] && stack == old(stack)
    {
      stage := stage + [OwnColumn(name)];
      d := this;
    }

    /** `Add`: on a copy, pops the last two staged tokens onto the stack, pushes `Add`
        and clears the stage. The right operand is ignored and this notepad is not
        changed. */
    method Add(rhs: Df) returns (sum: Df)
      requires |stage| >= 2
      ensures fresh(sum)
      ensures sum.stack == stack + [stage[|stage| - 1], stage[|stage| - 2], Item.Add]
      ensures sum.stage == []
    {
      sum := new Df.Clone(this);
      var top := sum.stage[|sum.stage| - 1];
      sum.stage := sum.stage[..|sum.stage| - 1];
      sum.stack := sum.stack + [top];
      top := sum.stage[|sum.stage| - 1];
      sum.stage := sum.stage[..|sum.stage| - 1];
      sum.stack := sum.stack + [top];
      sum.stack := sum.stack + [Item.Add];
      sum.stage := [];
    }
  }

  /** `&d["x"] + &d["y"]` records `y x Add`: the most recently staged column first. */
  method SumExample() returns (stack: seq<Item>, stage: seq<Item>)
    ensures stack == [OwnColumn("y"), OwnColumn("x"), Item.Add] && stage == []
  {
    var d := new Df.New();
    var x := d.Index("x");
    var y := d.Index("y");
    var s := x.Add(y);
    stack, stage := s.stack, s.stage;
  }

  /** `&d["a"]; &d["x"] + &d["y"]`: the extraneous `a` does not reach the output. */
  method StrayIndexExample() returns (stack: seq<Item>)
    ensures stack == [OwnColumn("y"), OwnColumn("x"), Item.Add]
    ensures OwnColumn("a") !in stack
  {
    var d := new Df.New();
    var a := d.Index("a");
    var x := d.Index("x");
    var y := d.Index("y");
    var s := x.Add(y);
    stack := s.stack;
  }

  /** `&(&d["a"] + &d["b"]) + &d["c"]`: the inner sum has an empty stage (and `c` is
      staged on `d`, not on it), so the outer `add` would pop an empty stage: its
      precondition does not hold. */
  method NestedSumExample() returns (left: seq<Item>, leftStage: seq<Item>, dStage: seq<Item>)
    ensures left == [OwnColumn("b"), OwnColumn("a"), Item.Add]
    ensures leftStage == [] && |leftStage| < 2
    ensures dStage == [OwnColumn("a"), OwnColumn("b"), OwnColumn("c")]
  {
    var d := new Df.New();
    var a := d.Index("a");
    var b := d.Index("b");
    var ab := a.Add(b);
    var c := d.Index("c");
    left, leftStage, dStage := ab.stack, ab.stage, d.stage;
  }
}

/** The first expression-recording prototype (src/dynamic/df_token.rs). A `df` is a
    notepad handed to a user closure: indexing it by a column name records a column
    token, and adding two borrowed notepads returns a copy with an `Add` token
    appended, so `&d["x"] + &d["y"]` records the reverse-Polish items
    `x y Add`. The items live behind a `RefCell`, so indexing through a shared
    reference still appends; here the notepad is a class whose `items` field the
    methods update. */
module DfToken {

  datatype Item = Add | OwnColumn(name: string)

  class Df {
    var items: seq<Item>

    /** `df::new`: an empty notepad. */
    constructor New()
      ensures items == []
    {
      items := [];
    }

    /** The derived `Clone`: a notepad with the same items. */
    constructor Clone(src: Df)
      ensures items == src.items
    {
      items := src.items;
    }

    /** `Index`: records the column token and returns the same notepad. Tokens that
        no `add` consumes stay in the list. */
    method Index(name: string) returns (d: Df)
      modifies this
      ensures d == this
      ensures items == old(items) + [OwnColumn(name)]
    {
      items := items + [OwnColumn(name)];
      d := this;
    }

    /** `Add`: a copy of this notepad with `Add` appended. The right operand is
        ignored: both operands are taken to be the same notepad. This notepad is
        not changed. */
    method Add(rhs: Df) returns (sum: Df)
      ensures fresh(sum)
      ensures sum.items == items + [Item.Add]
    {
      sum := new Df.Clone(this);
      sum.items := sum.items + [Item.Add];
    }
  }

  /** `&d["x"] + &d["y"]` on a fresh notepad records `x y Add`; the notepad itself
      keeps the two column tokens. */
  method SumExample() returns (sum: seq<Item>, left: seq<Item>)
    ensures sum == [OwnColumn("x"), OwnColumn("y"), Item.Add]
    ensures left == [OwnColumn("x"), OwnColumn("y")]
  {
    var d := new Df.New();
    var x := d.Index("x");
    var y := d.Index("y");
    var s := x.Add(y);
    sum := s.items;
    left := d.items;
  }

  /** Indexing without adding keeps pushing tokens: `d["a"]; d["b"]; d["c"]`. */
  method StrayIndexExample() returns (items: seq<Item>)
    ensures items == [OwnColumn("a"), OwnColumn("b"), OwnColumn("c")]
  {
    var d := new Df.New();
    var a := d.Index("a");
    var b := d.Index("b");
    var c := d.Index("c");
    items := d.items;
  }
}

/** The two aggregates derived from the cart's lines: the number of units
    (`getCartItemsCount`) and the price total (`getCartTotal`), each a
    `reduce` over the list starting from 0. */
module CartTotals {
  import opened CartLines

  /** `reduce((total, item) => total + item.quantity, acc)`: the lines visited
      left to right, each adding its quantity to the running total. */
  function ReduceCount(acc: int, s: seq<LineItem>): int
    decreases |s|
  {
    if s == [] then acc else ReduceCount(acc + s[0].quantity, s[1..])
  }

  /** `reduce((total, item) => total + item.price * item.quantity, acc)`. */
  function ReduceTotal(acc: int, s: seq<LineItem>): int
    decreases |s|
  {
    if s == [] then acc else ReduceTotal(acc + s[0].price * s[0].quantity, s[1..])
  }

  /** A running total started at `acc` ends `acc` above one started at 0. */
  lemma {:induction false} ReduceShift(acc: int, s: seq<LineItem>)
    ensures ReduceCount(acc, s) == acc + ReduceCount(0, s)
    ensures ReduceTotal(acc, s) == acc + ReduceTotal(0, s)
    decreases |s|
  {
    if s != [] {
      ReduceShift(acc + s[0].quantity, s[1..]);
      ReduceShift(s[0].quantity, s[1..]);
      ReduceShift(acc + s[0].price * s[0].quantity, s[1..]);
      ReduceShift(s[0].price * s[0].quantity, s[1..]);
    }
  }

  /** Sum of `quantity` over the lines: what `getCartItemsCount`'s reduce from 0 yields. */
  function Count(s: seq<LineItem>): (n: int)
    ensures n == ReduceCount(0, s)
  {
    if s == [] then 0
    else
      ReduceShift(s[0].quantity, s[1..]);
      s[0].quantity + Count(s[1..])
  }

  /** Sum of `price * quantity` over the lines, in cents: what `getCartTotal`'s
      reduce from 0 yields. */
  function Total(s: seq<LineItem>): (t: int)
    ensures t == ReduceTotal(0, s)
  {
    if s == [] then 0
    else
      ReduceShift(s[0].price * s[0].quantity, s[1..]);
      s[0].price * s[0].quantity + Total(s[1..])
  }

  /** Each aggregate splits over concatenation, so the order in which `reduce`
      visits the lines does not matter and appending a line adds its share. */
  lemma {:induction false} AggregatesAppend(a: seq<LineItem>, b: seq<LineItem>)
    ensures Count(a + b) == Count(a) + Count(b)
    ensures Total(a + b) == Total(a) + Total(b)
    decreases |a|
  {
    if a == [] {
      assert a + b == b;
    } else {
      assert (a + b)[1..] == a[1..] + b;
      AggregatesAppend(a[1..], b);
    }
  }

  /** Replacing one line changes each aggregate by that line's difference. */
  lemma {:induction false} AggregatesReplace(s: seq<LineItem>, i: int, l: LineItem)
    requires 0 <= i < |s|
    ensures Count(s[i := l]) == Count(s) - s[i].quantity + l.quantity
    ensures Total(s[i := l]) == Total(s) - s[i].price * s[i].quantity + l.price * l.quantity
    decreases |s|
  {
    if i > 0 {
      assert s[i := l][1..] == s[1..][i - 1 := l];
      AggregatesReplace(s[1..], i - 1, l);
    }
  }

  /** Both aggregates are 0 for the empty cart. */
  lemma EmptyAggregates()
    ensures Count([]) == 0 && Total([]) == 0
  {
  }

  /** With every quantity at least 1 the count is at least the number of lines,
      and it is 0 exactly when the cart is empty. */
  lemma {:induction false} CountBounds(s: seq<LineItem>)
    requires QuantitiesPositive(s)
    ensures Count(s) >= |s|
    ensures Count(s) == 0 <==> s == []
    decreases |s|
  {
    if s != [] {
      assert QuantitiesPositive(s[1..]);
      CountBounds(s[1..]);
    }
  }

  /** With non-negative prices and positive quantities the total is never negative. */
  lemma {:induction false} TotalNonNegative(s: seq<LineItem>)
    requires QuantitiesPositive(s)
    requires forall i :: 0 <= i < |s| ==> s[i].price >= 0
    ensures Total(s) >= 0
    decreases |s|
  {
    if s != [] {
      assert QuantitiesPositive(s[1..]);
      TotalNonNegative(s[1..]);
    }
  }

  /** `addToCart(p)` adds exactly one unit, and the price of one unit: the
      snapshot price of the existing line, or the product's price for a new line. */
  lemma AddAggregates(s: seq<LineItem>, p: Product)
    ensures Count(AddLine(s, p)) == Count(s) + 1
    ensures Total(AddLine(s, p)) ==
      Total(s) + match FindLine(s, p.id) case Some(i) => s[i].price case None => p.price
  {
    match FindLine(s, p.id)
    case Some(i) =>
      AggregatesReplace(s, i, s[i].(quantity := s[i].quantity + 1));
      assert s[i].price * (s[i].quantity + 1) == s[i].price * s[i].quantity + s[i].price;
    case None =>
      AggregatesAppend(s, [NewLine(p)]);
  }

  /** On a cart with distinct ids, `removeFromCart(id)` takes away exactly the
      units and the price share of the line with that id, if there is one. */
  lemma {:induction false} RemoveAggregates(s: seq<LineItem>, id: int)
    requires IdsDistinct(s)
    ensures Count(RemoveLines(s, id)) ==
      Count(s) - match FindLine(s, id) case Some(i) => s[i].quantity case None => 0
    ensures Total(RemoveLines(s, id)) ==
      Total(s) - match FindLine(s, id) case Some(i) => s[i].price * s[i].quantity case None => 0
    decreases |s|
  {
    if s != [] {
      var t := s[1..];
      assert IdsDistinct(t);
      if s[0].id == id {
        assert FindLine(s, id) == Some(0);
        assert id !in Ids(t);
        RemoveAbsentUnchanged(t, id);
      } else {
        RemoveAggregates(t, id);
        match FindLine(t, id)
        case Some(k) => assert FindLine(s, id) == Some(k + 1);
        case None =>
      }
    }
  }

  /** An accepted `updateCartItemQuantity(id, q)` replaces that line's units by `q`. */
  lemma UpdateAggregates(s: seq<LineItem>, id: int, q: int)
    requires UpdateQuantity(s, id, q).Some?
    ensures FindLine(s, id).Some?
    ensures Count(UpdateQuantity(s, id, q).value) ==
      Count(s) - s[FindLine(s, id).value].quantity + q
    ensures Total(UpdateQuantity(s, id, q).value) ==
      Total(s) - s[FindLine(s, id).value].price * s[FindLine(s, id).value].quantity
               + s[FindLine(s, id).value].price * q
  {
    var i := FindLine(s, id).value;
    AggregatesReplace(s, i, s[i].(quantity := q));
  }
}

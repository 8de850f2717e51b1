/** Line items of the cart and the pure list transformations that the cart
    store applies to the persisted list: finding a line by id, adding a
    product, removing lines by id and setting a quantity. */
module CartLines {

  datatype Option<T> = None | Some(value: T)

  /** A product as the catalog hands it to the cart. Prices are integer cents. */
  datatype Product = Product(id: int, name: string, image: string, price: int, description: string)

  /** One line of the cart: a snapshot of the product's fields plus a quantity. */
  datatype LineItem = LineItem(id: int, name: string, image: string, price: int,
                               description: string, quantity: int)

  /** The line `{ ...product, quantity: 1 }` that a first add appends. */
  function NewLine(p: Product): (l: LineItem)
  {
    LineItem(p.id, p.name, p.image, p.price, p.description, 1)
  }

  /** The ids that occur in a list of lines. */
  ghost function Ids(s: seq<LineItem>): set<int>
  {
    set i | 0 <= i < |s| :: s[i].id
  }

  /** `i` is the position of the first line whose id is `id` (what `Array.find` picks). */
  ghost predicate FirstWith(s: seq<LineItem>, id: int, i: int)
  {
    0 <= i < |s| && s[i].id == id && forall j :: 0 <= j < i ==> s[j].id != id
  }

  /** No two lines share an id. */
  ghost predicate IdsDistinct(s: seq<LineItem>)
  {
    forall i, j :: 0 <= i < j < |s| ==> s[i].id != s[j].id
  }

  /** Every line holds at least one unit. */
  ghost predicate QuantitiesPositive(s: seq<LineItem>)
  {
    forall i :: 0 <= i < |s| ==> s[i].quantity >= 1
  }

  /** The two invariants the cart operations keep. */
  ghost predicate WellFormed(s: seq<LineItem>)
  {
    IdsDistinct(s) && QuantitiesPositive(s)
  }

  /** Position of the first line with the given id, as `cartItems.find(item => item.id === id)`. */
  function FindLine(s: seq<LineItem>, id: int): (r: Option<nat>)
    ensures r.None? <==> id !in Ids(s)
    ensures r.Some? ==> FirstWith(s, id, r.value)
    decreases |s|
  {
    if s == [] then None
    else if s[0].id == id then
      assert s[0].id in Ids(s);
      Some(0)
    else
      match FindLine(s[1..], id)
      case None => None
      case Some(k) =>
        assert s[1..][k] == s[k + 1];
        Some(k + 1)
  }

  /** The list after `addToCart(p)`: the first line with `p.id` gains one unit,
      or, when there is none, `p` is appended with quantity 1. */
  function AddLine(s: seq<LineItem>, p: Product): (r: seq<LineItem>)
    ensures p.id !in Ids(s) ==> r == s + [NewLine(p)]
    ensures p.id in Ids(s) ==>
      |r| == |s| &&
      forall i :: FirstWith(s, p.id, i) ==>
        r[i] == s[i].(quantity := s[i].quantity + 1) &&
        forall j :: 0 <= j < |s| && j != i ==> r[j] == s[j]
  {
    match FindLine(s, p.id)
    case Some(i) => s[i := s[i].(quantity := s[i].quantity + 1)]
    case None => s + [NewLine(p)]
  }

  /** The lines whose id differs from `id`, as `cartItems.filter(item => item.id !== id)`. */
  function RemoveLines(s: seq<LineItem>, id: int): (r: seq<LineItem>)
    ensures Ids(r) == Ids(s) - {id}
    ensures |r| <= |s|
    decreases |s|
  {
    if s == [] then []
    else
      var rest := RemoveLines(s[1..], id);
      assert s == [s[0]] + s[1..];
      assert Ids(s) == {s[0].id} + Ids(s[1..]) by { IdsCons(s); }
      if s[0].id == id then rest
      else
        assert Ids([s[0]] + rest) == {s[0].id} + Ids(rest) by { IdsCons([s[0]] + rest); }
        [s[0]] + rest
  }

  /** The list after `updateCartItemQuantity(id, q)`, or None when nothing is
      saved: `q` below 1, or no line has that id. */
  function UpdateQuantity(s: seq<LineItem>, id: int, q: int): (r: Option<seq<LineItem>>)
    ensures r.None? <==> q < 1 || id !in Ids(s)
    ensures r.Some? ==>
      |r.value| == |s| &&
      forall i :: FirstWith(s, id, i) ==>
        r.value[i] == s[i].(quantity := q) &&
        forall j :: 0 <= j < |s| && j != i ==> r.value[j] == s[j]
  {
    if q < 1 then None
    else
      match FindLine(s, id)
      case Some(i) => Some(s[i := s[i].(quantity := q)])
      case None => None
  }

  // ----- helpers about Ids

  lemma IdsCons(s: seq<LineItem>)
    requires s != []
    ensures Ids(s) == {s[0].id} + Ids(s[1..])
  {
    forall x | x in Ids(s) ensures x in {s[0].id} + Ids(s[1..]) {
      var i :| 0 <= i < |s| && s[i].id == x;
      if i > 0 { assert s[1..][i - 1].id == x; }
    }
    forall x | x in Ids(s[1..]) ensures x in Ids(s) {
      var i :| 0 <= i < |s[1..]| && s[1..][i].id == x;
      assert s[i + 1].id == x;
    }
  }

  // ----- addToCart

  /** A product not yet in the cart gets exactly one new line, at the end, with
      quantity 1 and the product's own fields; earlier lines are unchanged. */
  lemma AddAbsentAppends(s: seq<LineItem>, p: Product)
    requires p.id !in Ids(s)
    ensures |AddLine(s, p)| == |s| + 1
    ensures AddLine(s, p)[..|s|] == s
    ensures AddLine(s, p)[|s|] == LineItem(p.id, p.name, p.image, p.price, p.description, 1)
  {
  }

  /** A product already in a well-formed cart raises that line's quantity by
      exactly 1 and keeps its snapshot fields; length, order and all other
      lines are unchanged, so no second line for the id appears. */
  lemma AddPresentIncrements(s: seq<LineItem>, p: Product, i: int)
    requires IdsDistinct(s)
    requires 0 <= i < |s| && s[i].id == p.id
    ensures |AddLine(s, p)| == |s|
    ensures AddLine(s, p)[i] == s[i].(quantity := s[i].quantity + 1)
    ensures forall j :: 0 <= j < |s| && j != i ==> AddLine(s, p)[j] == s[j]
    ensures Ids(AddLine(s, p)) == Ids(s)
  {
    assert s[i].id in Ids(s);
    assert FirstWith(s, p.id, i);
    var r := AddLine(s, p);
    forall x | x in Ids(r) ensures x in Ids(s) {
      var k :| 0 <= k < |r| && r[k].id == x;
      assert s[k].id == x;
    }
    forall x | x in Ids(s) ensures x in Ids(r) {
      var k :| 0 <= k < |s| && s[k].id == x;
      assert r[k].id == x;
    }
  }

  /** `addToCart` keeps both invariants. */
  lemma AddPreservesWellFormed(s: seq<LineItem>, p: Product)
    requires WellFormed(s)
    ensures WellFormed(AddLine(s, p))
  {
    var r := AddLine(s, p);
    if p.id in Ids(s) {
      var i :| 0 <= i < |s| && s[i].id == p.id;
      AddPresentIncrements(s, p, i);
      assert forall j :: 0 <= j < |s| ==> r[j].id == s[j].id;
    } else {
      forall i, j | 0 <= i < j < |r| ensures r[i].id != r[j].id {
        if j == |s| { assert s[i].id in Ids(s); }
      }
    }
  }

  // ----- removeFromCart

  /** Removing an id that no line has leaves the list as it was. */
  lemma {:induction false} RemoveAbsentUnchanged(s: seq<LineItem>, id: int)
    requires id !in Ids(s)
    ensures RemoveLines(s, id) == s
    decreases |s|
  {
    if s != [] {
      IdsCons(s);
      RemoveAbsentUnchanged(s[1..], id);
      assert s == [s[0]] + s[1..];
    }
  }

  /** Removal looks at the first line, then at the rest. */
  lemma RemoveCons(x: LineItem, t: seq<LineItem>, id: int)
    ensures RemoveLines([x] + t, id) == (if x.id == id then [] else [x]) + RemoveLines(t, id)
  {
    assert ([x] + t)[0] == x && ([x] + t)[1..] == t;
  }

  /** Removal works line by line, so it keeps the relative order of the lines it keeps. */
  lemma {:induction false} RemoveDistributes(a: seq<LineItem>, b: seq<LineItem>, id: int)
    ensures RemoveLines(a + b, id) == RemoveLines(a, id) + RemoveLines(b, id)
    decreases |a|
  {
    if a == [] {
      assert a + b == b;
    } else {
      var head := if a[0].id == id then [] else [a[0]];
      assert a == [a[0]] + a[1..] && a + b == [a[0]] + (a[1..] + b);
      RemoveCons(a[0], a[1..] + b, id);
      RemoveCons(a[0], a[1..], id);
      RemoveDistributes(a[1..], b, id);
      assert head + (RemoveLines(a[1..], id) + RemoveLines(b, id))
          == (head + RemoveLines(a[1..], id)) + RemoveLines(b, id);
    }
  }

  /** Removal drops every line with the id and keeps every other line as
      many times as it occurred. */
  lemma {:induction false} RemoveMultiplicities(s: seq<LineItem>, id: int)
    ensures forall x :: multiset(RemoveLines(s, id))[x] == if x.id == id then 0 else multiset(s)[x]
    decreases |s|
  {
    if s != [] {
      RemoveMultiplicities(s[1..], id);
      assert s == [s[0]] + s[1..];
    }
  }

  /** On one line, removal keeps it exactly when its id differs. */
  lemma RemoveSingle(x: LineItem, id: int)
    ensures RemoveLines([x], id) == if x.id == id then [] else [x]
  {
    assert [x][1..] == [];
  }

  /** Removal is idempotent. */
  lemma RemoveIdempotent(s: seq<LineItem>, id: int)
    ensures RemoveLines(RemoveLines(s, id), id) == RemoveLines(s, id)
  {
    RemoveAbsentUnchanged(RemoveLines(s, id), id);
  }

  /** A line kept by removal comes from the original list. */
  lemma RemoveKeepsOriginals(s: seq<LineItem>, id: int, k: int)
    requires 0 <= k < |RemoveLines(s, id)|
    ensures RemoveLines(s, id)[k] in s && RemoveLines(s, id)[k].id != id
  {
    var r := RemoveLines(s, id);
    RemoveMultiplicities(s, id);
    assert r[k] in multiset(r);
  }

  /** A line whose id is new to a list with distinct ids can go in front of it. */
  lemma DistinctCons(x: LineItem, t: seq<LineItem>)
    requires IdsDistinct(t) && x.id !in Ids(t)
    ensures IdsDistinct([x] + t)
  {
    var r := [x] + t;
    forall i, j | 0 <= i < j < |r| ensures r[i].id != r[j].id {
      assert r[j] == t[j - 1];
      if i == 0 { assert t[j - 1].id in Ids(t); }
    }
  }

  /** `removeFromCart` keeps both invariants. */
  lemma {:induction false} RemovePreservesWellFormed(s: seq<LineItem>, id: int)
    requires WellFormed(s)
    ensures WellFormed(RemoveLines(s, id))
    decreases |s|
  {
    var r := RemoveLines(s, id);
    forall k | 0 <= k < |r| ensures r[k].quantity >= 1 {
      RemoveKeepsOriginals(s, id, k);
    }
    if s != [] {
      var t := s[1..];
      assert WellFormed(t);
      RemovePreservesWellFormed(t, id);
      if s[0].id != id {
        DistinctCons(s[0], RemoveLines(t, id));
      }
    }
  }

  // ----- updateCartItemQuantity

  /** A quantity below 1 is rejected whatever the cart holds. */
  lemma UpdateBelowOneRejected(s: seq<LineItem>, id: int, q: int)
    requires q < 1
    ensures UpdateQuantity(s, id, q) == None
  {
  }

  /** On a well-formed cart an accepted update sets exactly the line with that id. */
  lemma UpdateSetsLine(s: seq<LineItem>, id: int, q: int, i: int)
    requires IdsDistinct(s)
    requires q >= 1 && 0 <= i < |s| && s[i].id == id
    ensures UpdateQuantity(s, id, q).Some?
    ensures |UpdateQuantity(s, id, q).value| == |s|
    ensures UpdateQuantity(s, id, q).value[i] == s[i].(quantity := q)
    ensures forall j :: 0 <= j < |s| && j != i ==> UpdateQuantity(s, id, q).value[j] == s[j]
  {
    assert s[i].id in Ids(s);
    assert FirstWith(s, id, i);
  }

  /** `updateCartItemQuantity` keeps both invariants. */
  lemma UpdatePreservesWellFormed(s: seq<LineItem>, id: int, q: int)
    requires WellFormed(s)
    ensures UpdateQuantity(s, id, q).Some? ==> WellFormed(UpdateQuantity(s, id, q).value)
  {
    if UpdateQuantity(s, id, q).Some? {
      var r := UpdateQuantity(s, id, q).value;
      var i :| 0 <= i < |s| && s[i].id == id;
      UpdateSetsLine(s, id, q, i);
      assert forall j :: 0 <= j < |s| ==> r[j].id == s[j].id;
    }
  }
}

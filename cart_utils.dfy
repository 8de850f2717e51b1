/** The cart store of `src/utils/cartUtils.js`. The browser's local storage
    entry under the fixed key is the field `stored` (None while the key is
    absent), and the `cartUpdated` events dispatched so far are counted in
    `notifications`. Each exported function is one method, following the
    source's read, modify, save and notify steps. */
module CartUtils {
  import opened CartLines
  import opened CartTotals

  /** The storage key the list is kept under. */
  const CartKey: string := "cloudmart_cart"

  class CartStore {
    /** The value under `CartKey`: None when the key is absent, else the list last saved. */
    var stored: Option<seq<LineItem>>
    /** How many `cartUpdated` events have been dispatched. */
    var notifications: nat

    /** A store over whatever the profile already holds under the key. */
    constructor (persisted: Option<seq<LineItem>>)
      ensures stored == persisted && notifications == 0
    {
      stored := persisted;
      notifications := 0;
    }

    /** The list a read yields: the stored list, or the empty list when nothing is stored. */
    function Contents(): seq<LineItem>
      reads this
    {
      match stored
      case None => []
      case Some(s) => s
    }

    /** `getCartItems`: the list last saved, or the empty list when nothing was ever saved. */
    method GetCartItems() returns (items: seq<LineItem>)
      ensures stored.None? ==> items == []
      ensures stored.Some? ==> items == stored.value
    {
      match stored
      case None => items := [];
      case Some(s) => items := s;
    }

    /** `saveCartItems`: overwrites the stored list and dispatches one notification;
        a later read yields exactly `items`, in the same order. */
    method SaveCartItems(items: seq<LineItem>)
      modifies this
      ensures stored == Some(items) && Contents() == items
      ensures notifications == old(notifications) + 1
    {
      stored := Some(items);
      notifications := notifications + 1;
    }

    /** `addToCart`: one more unit of `p`, saved and notified. */
    method AddToCart(p: Product)
      modifies this
      ensures Contents() == AddLine(old(Contents()), p) && stored.Some?
      ensures notifications == old(notifications) + 1
      ensures Count(Contents()) == Count(old(Contents())) + 1
      ensures WellFormed(old(Contents())) ==> WellFormed(Contents())
    {
      ghost var before := Contents();
      var cartItems := GetCartItems();
      var existing := FindLine(cartItems, p.id);
      match existing {
        case Some(i) =>
          cartItems := cartItems[i := cartItems[i].(quantity := cartItems[i].quantity + 1)];
        case None =>
          cartItems := cartItems + [NewLine(p)];
      }
      assert cartItems == AddLine(before, p);
      SaveCartItems(cartItems);
      AddAggregates(before, p);
      if WellFormed(before) { AddPreservesWellFormed(before, p); }
    }

    /** `removeFromCart`: drops every line with `id`; the list is saved and a
        notification sent even when no line had that id. */
    method RemoveFromCart(id: int)
      modifies this
      ensures Contents() == RemoveLines(old(Contents()), id) && stored.Some?
      ensures notifications == old(notifications) + 1
      ensures id !in Ids(old(Contents())) ==> Contents() == old(Contents())
      ensures WellFormed(old(Contents())) ==> WellFormed(Contents())
    {
      ghost var before := Contents();
      var cartItems := GetCartItems();
      var updatedItems := RemoveLines(cartItems, id);
      SaveCartItems(updatedItems);
      if id !in Ids(before) { RemoveAbsentUnchanged(before, id); }
      if WellFormed(before) { RemovePreservesWellFormed(before, id); }
    }

    /** `updateCartItemQuantity`: a quantity below 1, or an id no line has,
        saves nothing and sends no notification; otherwise the first line with
        `id` gets quantity `q`, and the list is saved and notified. */
    method UpdateCartItemQuantity(id: int, q: int)
      modifies this
      ensures q < 1 ==> stored == old(stored) && notifications == old(notifications)
      ensures UpdateQuantity(old(Contents()), id, q).None? ==>
        stored == old(stored) && notifications == old(notifications)
      ensures UpdateQuantity(old(Contents()), id, q).Some? ==>
        stored == Some(UpdateQuantity(old(Contents()), id, q).value) &&
        notifications == old(notifications) + 1
      ensures WellFormed(old(Contents())) ==> WellFormed(Contents())
    {
      ghost var before := Contents();
      if WellFormed(before) { UpdatePreservesWellFormed(before, id, q); }
      if q < 1 {
        return;
      }
      var cartItems := GetCartItems();
      var item := FindLine(cartItems, id);
      if item.Some? {
        var i := item.value;
        cartItems := cartItems[i := cartItems[i].(quantity := q)];
        SaveCartItems(cartItems);
      }
    }

    /** `getCartItemsCount`: the number of units in the cart. */
    method GetCartItemsCount() returns (n: int)
      ensures n == Count(Contents())
      ensures QuantitiesPositive(Contents()) ==> n >= |Contents()|
    {
      var cartItems := GetCartItems();
      n := Count(cartItems);
      if QuantitiesPositive(cartItems) { CountBounds(cartItems); }
    }

    /** `getCartTotal`: the price of the cart, in cents, not rounded. */
    method GetCartTotal() returns (t: int)
      ensures t == Total(Contents())
    {
      var cartItems := GetCartItems();
      t := Total(cartItems);
    }

    /** `clearCart`: saves the empty list and notifies; count and total are then 0. */
    method ClearCart()
      modifies this
      ensures stored == Some([]) && Contents() == []
      ensures notifications == old(notifications) + 1
      ensures Count(Contents()) == 0 && Total(Contents()) == 0
    {
      SaveCartItems([]);
    }
  }

  /** Helper for the two sessions below: the aggregates of a two-line cart. */
  lemma TwoLineAggregates(a: LineItem, b: LineItem)
    ensures Count([a, b]) == a.quantity + b.quantity
    ensures Total([a, b]) == a.price * a.quantity + b.price * b.quantity
  {
    assert [a, b][1..] == [b];
    assert [b][1..] == [];
    assert Count([b]) == b.quantity && Total([b]) == b.price * b.quantity;
  }

  /** A session on a fresh profile: add products 1, 2 and 1 again. */
  method AddScenario() returns (cart: CartStore)
    ensures fresh(cart)
    ensures cart.stored == Some([LineItem(1, "Mug", "mug.png", 10, "", 2), LineItem(2, "Pen", "pen.png", 5, "", 1)])
  {
    var one := Product(1, "Mug", "mug.png", 10, "");
    var two := Product(2, "Pen", "pen.png", 5, "");
    cart := new CartStore(None);
    var items := cart.GetCartItems();
    assert items == [];
    var line1 := LineItem(1, "Mug", "mug.png", 10, "", 1);
    var line2 := LineItem(2, "Pen", "pen.png", 5, "", 1);
    cart.AddToCart(one);
    assert cart.Contents() == [line1];
    cart.AddToCart(two);
    assert cart.Contents() == [line1, line2];
    assert FindLine([line1, line2], 1) == Some(0);
    cart.AddToCart(one);
    items := cart.GetCartItems();
    assert items == [line1.(quantity := 2), line2];
    TwoLineAggregates(items[0], items[1]);
    var n := cart.GetCartItemsCount();
    var t := cart.GetCartTotal();
    assert n == 3 && t == 25;
  }

  /** Continuing: a quantity of 0 is ignored, then the quantity of 2 is set to 5;
      removing 1 and clearing leaves an empty cart. */
  method UpdateScenario(cart: CartStore)
    requires cart.stored == Some([LineItem(1, "Mug", "mug.png", 10, "", 2), LineItem(2, "Pen", "pen.png", 5, "", 1)])
    modifies cart
    ensures cart.stored == Some([])
    ensures cart.notifications == old(cart.notifications) + 3
  {
    cart.UpdateCartItemQuantity(2, 0);
    cart.UpdateCartItemQuantity(2, 5);
    var items := cart.GetCartItems();
    assert items == [LineItem(1, "Mug", "mug.png", 10, "", 2), LineItem(2, "Pen", "pen.png", 5, "", 5)];
    TwoLineAggregates(items[0], items[1]);
    var t := cart.GetCartTotal();
    assert t == 45;

    cart.RemoveFromCart(1);
    cart.ClearCart();
    items := cart.GetCartItems();
    var n := cart.GetCartItemsCount();
    t := cart.GetCartTotal();
    assert items == [] && n == 0 && t == 0;
  }
}

/**
 * The cart as the pages see it: a sequence of cart items. The cart
 * provider's own file is not part of this model, so its operations other
 * than `clearCart` are not given a meaning here; pages that call them
 * return the request instead (see `Prelude.Effect`).
 */
module Cart {
  import opened Prelude

  datatype CartItem = CartItem(id: string, name: string, price: real, quantity: int, image: Option<string>)

  /** `item.price * item.quantity`, in exact arithmetic. */
  function LineTotal(item: CartItem): (r: real) {
    item.price * item.quantity as real
  }

  /** `cart.reduce((sum, item) => sum + item.price * item.quantity, 0)`: a left fold. */
  function Subtotal(items: seq<CartItem>): (r: real) {
    if items == [] then 0.0 else Subtotal(items[..|items| - 1]) + LineTotal(items[|items| - 1])
  }

  /** The fold splits over concatenation, so the order of accumulation does not matter. */
  lemma {:induction false} SubtotalAppend(a: seq<CartItem>, b: seq<CartItem>)
    ensures Subtotal(a + b) == Subtotal(a) + Subtotal(b)
    decreases |b|
  {
    if b == [] {
      assert a + b == a;
    } else {
      var last := b[|b| - 1];
      var front := b[..|b| - 1];
      assert (a + b)[..|a + b| - 1] == a + front;
      SubtotalAppend(a, front);
    }
  }

  /** Read from the front: the first line plus the rest. */
  lemma SubtotalCons(x: CartItem, rest: seq<CartItem>)
    ensures Subtotal([x] + rest) == LineTotal(x) + Subtotal(rest)
  {
    SubtotalAppend([x], rest);
    assert [x][..0] == [];
  }

  /** With non-negative prices and quantities the subtotal is non-negative. */
  lemma {:induction false} SubtotalNonNegative(items: seq<CartItem>)
    requires forall i :: 0 <= i < |items| ==> items[i].price >= 0.0 && items[i].quantity >= 0
    ensures Subtotal(items) >= 0.0
    decreases |items|
  {
    if items != [] {
      SubtotalNonNegative(items[..|items| - 1]);
    }
  }

  /** Subtotal, tax and grand total as the cart and checkout pages display them. */
  datatype Bill = Bill(subtotal: real, tax: real, total: real)

  /** `tax = subtotal * 0.1` and `total = subtotal + tax`. */
  function Totals(items: seq<CartItem>): (b: Bill)
    ensures b.subtotal == Subtotal(items)
    ensures b.tax * 10.0 == b.subtotal
    ensures b.total * 10.0 == b.subtotal * 11.0
    ensures b.total == b.subtotal + b.tax
  {
    var subtotal := Subtotal(items);
    var tax := subtotal * 0.1;
    Bill(subtotal, tax, subtotal + tax)
  }

  /** `cart.find((item) => item.id === id)`: the first item with that id, if any. */
  function FindById(cart: seq<CartItem>, id: string): (r: Option<CartItem>)
    ensures r.None? <==> forall i :: 0 <= i < |cart| ==> cart[i].id != id
    ensures r.Some? ==> exists k :: 0 <= k < |cart| && cart[k] == r.value && cart[k].id == id &&
                                 forall j :: 0 <= j < k ==> cart[j].id != id
  {
    if cart == [] then None
    else if cart[0].id == id then Some(cart[0])
    else
      var r := FindById(cart[1..], id);
      if r.None? then r
      else
        var k :| 0 <= k < |cart| - 1 && cart[1..][k] == r.value && cart[1..][k].id == id &&
                 forall j :: 0 <= j < k ==> cart[1..][j].id != id;
        assert cart[k + 1] == r.value && forall j :: 0 <= j < k + 1 ==> cart[j].id != id;
        r
  }

  /** The cart store, reduced to the one operation whose meaning its name gives. */
  class CartStore {
    var items: seq<CartItem>

    constructor (items: seq<CartItem>)
      ensures this.items == items
    {
      this.items := items;
    }

    /** `clearCart()`: the cart becomes empty. */
    method ClearCart()
      modifies this
      ensures items == []
    {
      items := [];
    }
  }
}

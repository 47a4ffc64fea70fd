/**
 * The browser's local storage as an abstract map from key to entry. The
 * entries are typed values instead of JSON text: serialising and parsing
 * them is not part of this model.
 */
module Storage {
  import opened Prelude
  import opened Cart
  import opened Orders
  import opened Users

  const UserKey := "user"
  const CartKey := "cart"
  const OrdersKey := "orders"

  datatype Entry =
    | UserEntry(user: User)
    | CartEntry(items: seq<CartItem>)
    | OrdersEntry(orders: seq<Order>)
    | OtherEntry(raw: string)

  class LocalStorage {
    var entries: map<string, Entry>

    constructor (entries: map<string, Entry>)
      ensures this.entries == entries
    {
      this.entries := entries;
    }

    /** Each of the storefront's three keys holds the kind of value its owner writes. */
    ghost predicate WellTyped()
      reads this
    {
      && (UserKey in entries ==> entries[UserKey].UserEntry?)
      && (CartKey in entries ==> entries[CartKey].CartEntry?)
      && (OrdersKey in entries ==> entries[OrdersKey].OrdersEntry?)
    }

    /** `localStorage.getItem(key)`. */
    function GetItem(key: string): (r: Option<Entry>)
      reads this
      ensures r.Some? <==> key in entries
      ensures r.Some? ==> r.value == entries[key]
    {
      if key in entries then Some(entries[key]) else None
    }

    /** `localStorage.setItem(key, value)`. */
    method SetItem(key: string, value: Entry)
      modifies this
      ensures entries == old(entries)[key := value]
    {
      entries := entries[key := value];
    }

    /** `localStorage.removeItem(key)`: absent keys are ignored. */
    method RemoveItem(key: string)
      modifies this
      ensures entries == old(entries) - {key}
    {
      entries := entries - {key};
    }
  }
}

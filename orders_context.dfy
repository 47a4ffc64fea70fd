/**
 * The orders provider: one state cell holding the order list, loaded from
 * the `orders` storage entry on mount and written back after every change.
 */
module OrdersContext {
  import opened Prelude
  import opened Orders
  import opened Storage

  class OrdersProvider {
    var orders: seq<Order>
    const storage: LocalStorage

    /** `useState<Order[]>([])`: the list starts empty. */
    constructor (storage: LocalStorage)
      ensures orders == [] && this.storage == storage
    {
      orders := [];
      this.storage := storage;
    }

    /** The `orders` entry holds exactly the in-memory list. */
    ghost predicate Persisted()
      reads this, storage
    {
      storage.GetItem(OrdersKey) == Some(OrdersEntry(orders))
    }

    /**
     * The mount effects: a stored list replaces the initial one, then the
     * save effect writes the list back. Without a stored list the list stays
     * as it was and that is what is written.
     */
    method Mount()
      requires storage.WellTyped()
      modifies this, storage
      ensures orders == if OrdersKey in old(storage.entries) then old(storage.entries)[OrdersKey].orders
                        else old(orders)
      ensures storage.entries == old(storage.entries)[OrdersKey := OrdersEntry(orders)]
      ensures Persisted() && storage.WellTyped()
    {
      var stored := storage.GetItem(OrdersKey);
      if stored.Some? {
        orders := stored.value.orders;
      }
      storage.SetItem(OrdersKey, OrdersEntry(orders));
    }

    /** `addOrder`: prepend, then persist. */
    method AddOrder(order: Order)
      requires storage.WellTyped()
      modifies this, storage
      ensures orders == Orders.AddOrder(old(orders), order)
      ensures storage.entries == old(storage.entries)[OrdersKey := OrdersEntry(orders)]
      ensures Persisted() && storage.WellTyped()
    {
      orders := Orders.AddOrder(orders, order);
      storage.SetItem(OrdersKey, OrdersEntry(orders));
    }

    /** `updateOrderStatus`: rewrite the matching orders' status, then persist. */
    method UpdateOrderStatus(orderId: string, status: Status)
      requires storage.WellTyped()
      modifies this, storage
      ensures orders == Orders.UpdateOrderStatus(old(orders), orderId, status)
      ensures storage.entries == old(storage.entries)[OrdersKey := OrdersEntry(orders)]
      ensures Persisted() && storage.WellTyped()
    {
      orders := Orders.UpdateOrderStatus(orders, orderId, status);
      storage.SetItem(OrdersKey, OrdersEntry(orders));
    }
  }
}

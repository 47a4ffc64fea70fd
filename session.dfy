/**
 * How the two providers share one storage: signing out removes the
 * `orders` entry but not the orders provider's in-memory list, so the next
 * order placed in the same page session writes the earlier orders back.
 */
module Session {
  import opened Prelude
  import opened Orders
  import opened Storage
  import opened AuthContext
  import opened OrdersContext

  /** Sign out, then place an order, with both providers over the same storage. */
  method SignOutThenOrder(auth: AuthProvider, ordersStore: OrdersProvider, order: Order)
    requires auth.storage == ordersStore.storage && auth.storage.WellTyped()
    modifies auth, ordersStore, auth.storage
    ensures auth.user.None?
    ensures ordersStore.orders == [order] + old(ordersStore.orders)
    ensures auth.storage.GetItem(OrdersKey) == Some(OrdersEntry([order] + old(ordersStore.orders)))
    ensures auth.storage.GetItem(UserKey).None? && auth.storage.GetItem(CartKey).None?
  {
    auth.Logout();
    assert ordersStore.orders == old(ordersStore.orders);
    ordersStore.AddOrder(order);
  }

  /**
   * A protected page on first load: the provider starts out loading with no
   * user, hydrates, and the page's guard then sends the visitor to the login
   * page exactly when storage holds no `user` entry.
   */
  method FirstLoadRedirect(auth: AuthProvider) returns (redirect: bool)
    requires auth.user.None? && auth.loading && auth.storage.WellTyped()
    modifies auth
    ensures !auth.loading && auth.Synced()
    ensures redirect == RedirectsToLogin(auth.loading, auth.user)
    ensures redirect <==> UserKey !in auth.storage.entries
  {
    auth.Hydrate();
    redirect := RedirectsToLogin(auth.loading, auth.user);
  }
}

/**
 * The session provider: a `user` cell and a `loading` flag, hydrated from
 * the `user` storage entry on mount. Signing in or up stores the new user;
 * signing out removes the user, cart and orders entries.
 */
module AuthContext {
  import opened Prelude
  import opened Users
  import opened Storage

  /** Protected pages send the visitor to the login page once hydration is over and nobody is signed in. */
  function RedirectsToLogin(loading: bool, user: Option<User>): (r: bool)
    ensures r <==> !loading && user.None?
  {
    !loading && user == None
  }

  class AuthProvider {
    var user: Option<User>
    var loading: bool
    const storage: LocalStorage

    /** `useState<User | null>(null)` and `useState(true)`. */
    constructor (storage: LocalStorage)
      ensures user.None? && loading && this.storage == storage
    {
      user := None;
      loading := true;
      this.storage := storage;
    }

    /** The `user` entry is present exactly when someone is signed in, and holds that user. */
    ghost predicate Synced()
      reads this, storage
    {
      storage.GetItem(UserKey) == if user.Some? then Some(UserEntry(user.value)) else None
    }

    /** The mount effect: restore a stored user if there is one, then stop loading. */
    method Hydrate()
      requires storage.WellTyped()
      modifies this
      ensures user == if UserKey in storage.entries then Some(storage.entries[UserKey].user) else old(user)
      ensures !loading
      ensures old(user).None? ==> Synced()
    {
      var stored := storage.GetItem(UserKey);
      if stored.Some? {
        user := Some(stored.value.user);
      }
      loading := false;
    }

    /** `login(email, password)` once its delay has elapsed; the password is not used. */
    method Login(email: string, password: string)
      requires storage.WellTyped()
      modifies this, storage
      ensures user == Some(LoginUser(email)) && loading == old(loading)
      ensures storage.entries == old(storage.entries)[UserKey := UserEntry(LoginUser(email))]
      ensures Synced() && storage.WellTyped()
    {
      var userData := LoginUser(email);
      user := Some(userData);
      storage.SetItem(UserKey, UserEntry(userData));
    }

    /** `signup(data)` once its delay has elapsed. */
    method Signup(data: SignupData)
      requires storage.WellTyped()
      modifies this, storage
      ensures user == Some(SignupUser(data)) && loading == old(loading)
      ensures storage.entries == old(storage.entries)[UserKey := UserEntry(SignupUser(data))]
      ensures Synced() && storage.WellTyped()
    {
      var userData := SignupUser(data);
      user := Some(userData);
      storage.SetItem(UserKey, UserEntry(userData));
    }

    /** `logout()`: no user, and exactly the three storefront entries are gone. */
    method Logout()
      requires storage.WellTyped()
      modifies this, storage
      ensures user.None? && loading == old(loading)
      ensures RedirectsToLogin(loading, user) <==> !loading
      ensures storage.entries == old(storage.entries) - {UserKey, CartKey, OrdersKey}
      ensures Synced() && storage.WellTyped()
    {
      user := None;
      storage.RemoveItem(UserKey);
      storage.RemoveItem(CartKey);
      storage.RemoveItem(OrdersKey);
      assert storage.entries == old(storage.entries) - {UserKey, CartKey, OrdersKey};
    }
  }
}

/** The session store: the signed-in user and the authenticated flag, kept
    in storage under `user` so that a reload stays signed in. */
module AuthContext {
  import opened Common
  import opened Storage

  class AuthStore {
    var user: Option<User>
    var isAuthenticated: bool
    const storage: LocalStorage

    /** The flag says exactly whether a user is set. */
    ghost predicate Consistent()
      reads this
    {
      isAuthenticated <==> user.Some?
    }

    /** A signed-in user is the one stored under `user`. */
    ghost predicate Persisted()
      reads this, storage
    {
      user.Some? ==> storage.GetItem(UserKey) == Some(UserJson(user.value))
    }

    /** The first render: nobody signed in. */
    constructor (storage: LocalStorage)
      ensures this.storage == storage
      ensures user.None? && !isAuthenticated
      ensures Consistent()
    {
      this.storage := storage;
      user, isAuthenticated := None, false;
    }

    /** The mount effect: a stored user signs the session in; with nothing
        stored the state stays as it is. */
    method Mount() returns (outcome: Hydration)
      modifies this
      ensures var stored := old(storage.GetItem(UserKey));
        && (outcome.Malformed? <==> stored.Some? && Truthy(stored.value) && !stored.value.UserJson?)
        && (outcome.Hydrated? && stored.Some? && Truthy(stored.value) ==>
              user == Some(stored.value.user) && isAuthenticated)
        && (!(outcome.Hydrated? && stored.Some? && Truthy(stored.value)) ==>
              user == old(user) && isAuthenticated == old(isAuthenticated))
      ensures old(Consistent()) ==> Consistent()
      ensures old(Persisted()) ==> Persisted()
    {
      var stored := storage.GetItem(UserKey);
      if stored.Some? && Truthy(stored.value) {
        if !stored.value.UserJson? {
          return Malformed(UserKey);
        }
        user := Some(stored.value.user);
        isAuthenticated := true;
      }
      outcome := Hydrated;
    }

    /** `login(userData)`. */
    method Login(userData: User)
      modifies this, storage
      ensures user == Some(userData) && isAuthenticated
      ensures storage.entries == old(storage.entries)[UserKey := UserJson(userData)]
      ensures Consistent() && Persisted()
    {
      user := Some(userData);
      isAuthenticated := true;
      storage.SetItem(UserKey, UserJson(userData));
    }

    /** `logout()`. */
    method Logout()
      modifies this, storage
      ensures user.None? && !isAuthenticated
      ensures storage.entries == old(storage.entries) - {UserKey}
      ensures Consistent() && Persisted()
    {
      user := None;
      isAuthenticated := false;
      storage.RemoveItem(UserKey);
    }
  }

  /** Signing in and then out returns a fresh session, in memory and in
      storage, to where it started. */
  method LoginThenLogout(auth: AuthStore, userData: User)
    requires auth.user.None? && !auth.isAuthenticated && UserKey !in auth.storage.entries
    modifies auth, auth.storage
    ensures auth.user.None? && !auth.isAuthenticated
    ensures auth.storage.entries == old(auth.storage.entries)
  {
    auth.Login(userData);
    auth.Logout();
  }
}

/**
 * The session slice: the signed-in user and the bearer token, written in
 * place by two reducers, `setCredentials` and `logout`, which also keep the
 * token persisted under the storage key "token".
 */
module AuthSlice {
  import opened Common
  import opened Storage

  datatype Role = UserRole | AgentRole | AdminRole

  /** The role as the backend spells it, which is also the first path segment of its dashboard. */
  function RoleName(r: Role): (s: string)
    ensures s == "user" || s == "agent" || s == "admin"
  {
    match r
    case UserRole => "user"
    case AgentRole => "agent"
    case AdminRole => "admin"
  }

  /** Distinct roles have distinct names, so a name identifies its role. */
  lemma RoleNameInjective(a: Role, b: Role)
    ensures RoleName(a) == RoleName(b) <==> a == b
  {
  }

  /** The signed-in account as the session keeps it. */
  datatype Principal = Principal(id: string, name: string, phone: string, role: Role, isBlocked: bool)

  const TokenKey: string := "token"

  /**
   * `localStorage.getItem("token") ? localStorage.getItem("token") : null`:
   * the stored token when there is one and it is not the empty string.
   */
  function InitialToken(items: map<string, string>): (r: Option<string>)
    ensures r.Some? <==> TokenKey in items && items[TokenKey] != ""
    ensures r.Some? ==> r.value == items[TokenKey]
  {
    if TokenKey in items && items[TokenKey] != "" then Some(items[TokenKey]) else None
  }

  /** The reducers, for replaying a sequence of dispatches. */
  datatype Action = SetCredentials(user: Principal, token: string) | Logout

  class AuthStore {
    var user: Option<Principal>
    var token: Option<string>
    const storage: LocalStorage

    /**
     * What every reachable state satisfies: a user is only held together with
     * a token, and a held token is the one in storage. The converse of the
     * first half does not hold: at start-up a stored token is loaded with no
     * user.
     */
    ghost predicate Valid()
      reads this, storage
    {
      && (user.Some? ==> token.Some?)
      && (token.Some? ==> TokenKey in storage.items && storage.items[TokenKey] == token.value)
    }

    /** `initialState`: no user, and the token read back from storage. */
    constructor(storage: LocalStorage)
      ensures this.storage == storage
      ensures user == None && token == InitialToken(storage.items)
      ensures Valid()
    {
      this.storage := storage;
      user := None;
      token := InitialToken(storage.items);
    }

    /** `setCredentials`: exactly the payload's user and token, and the token persisted. */
    method SetCredentials(u: Principal, t: string)
      modifies this, storage
      ensures user == Some(u) && token == Some(t)
      ensures storage.items == old(storage.items)[TokenKey := t]
      ensures Valid()
    {
      user := Some(u);
      token := Some(t);
      storage.SetItem(TokenKey, t);
    }

    /** `logout`: no user, no token, and the stored token removed. */
    method Logout()
      modifies this, storage
      ensures user == None && token == None
      ensures storage.items == old(storage.items) - {TokenKey}
      ensures Valid()
    {
      user := None;
      token := None;
      storage.RemoveItem(TokenKey);
    }

    method Dispatch(a: Action)
      modifies this, storage
      ensures a.SetCredentials? ==> user == Some(a.user) && token == Some(a.token) &&
                                    storage.items == old(storage.items)[TokenKey := a.token]
      ensures a.Logout? ==> user == None && token == None && storage.items == old(storage.items) - {TokenKey}
      ensures Valid()
    {
      match a
      case SetCredentials(u, t) => SetCredentials(u, t);
      case Logout => Logout();
    }

    /** Any sequence of dispatches keeps the session consistent, and leaves only the "token" key changed. */
    method Replay(actions: seq<Action>)
      requires Valid()
      modifies this, storage
      ensures Valid()
      ensures forall k :: k != TokenKey ==> (k in storage.items <==> k in old(storage.items))
      ensures forall k :: k != TokenKey && k in storage.items ==> storage.items[k] == old(storage.items)[k]
    {
      for i := 0 to |actions|
        invariant Valid()
        invariant forall k :: k != TokenKey ==> (k in storage.items <==> k in old(storage.items))
        invariant forall k :: k != TokenKey && k in storage.items ==> storage.items[k] == old(storage.items)[k]
      {
        Dispatch(actions[i]);
      }
    }

    /** Logging out a second time changes nothing further. */
    method LogoutTwice()
      modifies this, storage
      ensures user == None && token == None
      ensures storage.items == old(storage.items) - {TokenKey}
    {
      Logout();
      ghost var once := storage.items;
      Logout();
      assert storage.items == once;
    }
  }

  /** A stored token is loaded at start-up with no user: the session then holds a token but no user. */
  method StoredTokenWithoutUser() returns (store: AuthStore)
    ensures store.user.None? && store.token == Some("abc")
  {
    var storage := new LocalStorage(map[TokenKey := "abc"]);
    store := new AuthStore(storage);
  }
}

/**
  The session guard of `useAuth`: three pieces of component state
  (`isLoading`, `isAuthenticated`, `user`) mirrored from the two storage
  keys `access_token` and `user_id`, plus the redirect to `/login`.
 */
module Auth {
  import opened Base
  import opened Storage

  const TokenKey := "access_token"
  const UserKey := "user_id"
  const LoginRoute := "/login"

  /**
    `localStorage.getItem(key)` seen as a string.  Only the session code
    writes these keys, always as plain text.
   */
  function StoredText(items: map<string, Entry>, key: string): (r: Option<string>)
    ensures r.Some? <==> key in items && items[key].Text?
    ensures r.Some? ==> items[key] == Text(r.value)
  {
    if key in items && items[key].Text? then Some(items[key].s) else None
  }

  /** JavaScript truthiness of `getItem`'s result: `null` and `""` are false. */
  predicate Truthy(v: Option<string>) {
    v.Some? && v.value != ""
  }

  /**
    The user id `checkAuth` recovers from storage: present exactly when
    both keys hold non-empty text, and then it is the stored `user_id`.
   */
  function Session(items: map<string, Entry>): (r: Option<string>)
    ensures r.Some? <==>
      (TokenKey in items && items[TokenKey].Text? && items[TokenKey].s != "" &&
       UserKey in items && items[UserKey].Text? && items[UserKey].s != "")
    ensures r.Some? ==> items[UserKey] == Text(r.value) && r.value != ""
  {
    var token := StoredText(items, TokenKey);
    var userId := StoredText(items, UserKey);
    if Truthy(token) && Truthy(userId) then userId else None
  }

  /** Storage after writing a session: `access_token` then `user_id`. */
  function SaveSession(items: map<string, Entry>, token: string, userId: string): (r: map<string, Entry>)
    ensures r.Keys == items.Keys + {TokenKey, UserKey}
    ensures r[TokenKey] == Text(token) && r[UserKey] == Text(userId)
    ensures forall k :: k in items && k != TokenKey && k != UserKey ==> r[k] == items[k]
  {
    items[TokenKey := Text(token)][UserKey := Text(userId)]
  }

  /** Storage after removing both session keys. */
  function ClearSession(items: map<string, Entry>): (r: map<string, Entry>)
    ensures r.Keys == items.Keys - {TokenKey, UserKey}
    ensures forall k :: k in r ==> r[k] == items[k]
  {
    items - {TokenKey, UserKey}
  }

  /** A session saved with non-empty credentials is what the next check recovers. */
  lemma SaveThenSession(items: map<string, Entry>, token: string, userId: string)
    requires token != "" && userId != ""
    ensures Session(SaveSession(items, token, userId)) == Some(userId)
  {
  }

  /**
    `login` with an empty token or user id still marks the hook authenticated,
    but what it stored is not a session: the next `checkAuth` reports logged out.
   */
  lemma SaveEmptyIsNoSession(items: map<string, Entry>, token: string, userId: string)
    requires token == "" || userId == ""
    ensures Session(SaveSession(items, token, userId)) == None
  {
  }

  /** After the keys are cleared there is no session, and clearing again changes nothing. */
  lemma ClearIsLoggedOutAndIdempotent(items: map<string, Entry>)
    ensures Session(ClearSession(items)) == None
    ensures ClearSession(ClearSession(items)) == ClearSession(items)
  {
  }

  /** The state and operations `useAuth()` hands to a component. */
  class AuthHook {
    var isAuthenticated: bool
    var isLoading: bool
    var user: Option<string>
    const store: LocalStore
    const router: Router

    /** The hook's initial state, before its mount effect runs `checkAuth`. */
    constructor (store: LocalStore, router: Router)
      ensures this.store == store && this.router == router
      ensures isLoading && !isAuthenticated && user == None
    {
      this.store := store;
      this.router := router;
      isAuthenticated := false;
      isLoading := true;
      user := None;
    }

    /**
      `checkAuth`: outside a browser (`typeof window === "undefined"`) only
      the loading phase ends; in a browser the state mirrors storage.
     */
    method CheckAuth(inBrowser: bool)
      modifies this
      ensures !isLoading
      ensures inBrowser ==> isAuthenticated == Session(store.items).Some? && user == Session(store.items)
      ensures !inBrowser ==> isAuthenticated == old(isAuthenticated) && user == old(user)
    {
      if inBrowser {
        var token := store.GetItem(TokenKey);
        var userId := store.GetItem(UserKey);
        if token.Some? && token.value.Text? && token.value.s != ""
          && userId.Some? && userId.value.Text? && userId.value.s != ""
        {
          isAuthenticated := true;
          user := Some(userId.value.s);
        } else {
          isAuthenticated := false;
          user := None;
        }
      }
      isLoading := false;
    }

    /** `login(token, userId)`: writes both keys and marks the hook authenticated. */
    method Login(token: string, userId: string)
      modifies this, store
      ensures store.items == SaveSession(old(store.items), token, userId)
      ensures isAuthenticated && user == Some(userId) && isLoading == old(isLoading)
    {
      store.SetItem(TokenKey, Text(token));
      store.SetItem(UserKey, Text(userId));
      isAuthenticated := true;
      user := Some(userId);
    }

    /** `logout()`: removes both keys, clears the state and navigates to `/login`. */
    method Logout()
      modifies this, store, router
      ensures store.items == ClearSession(old(store.items))
      ensures !isAuthenticated && user == None && isLoading == old(isLoading)
      ensures router.pushed == old(router.pushed) + [LoginRoute]
    {
      store.RemoveItem(TokenKey);
      store.RemoveItem(UserKey);
      isAuthenticated := false;
      user := None;
      router.Push(LoginRoute);
    }

    /** `getToken()`: the stored `access_token`, or `null`; reads only. */
    function GetToken(inBrowser: bool): (r: Option<string>)
      reads this, store
      ensures !inBrowser ==> r == None
      ensures inBrowser ==> r == StoredText(store.items, TokenKey)
    {
      if inBrowser then StoredText(store.items, TokenKey) else None
    }

    /**
      `requireAuth()`: lets the caller through while loading or when
      authenticated; otherwise pushes `/login` once and refuses.
     */
    method RequireAuth() returns (allowed: bool)
      modifies router
      ensures allowed <==> isLoading || isAuthenticated
      ensures router.pushed == old(router.pushed) + (if allowed then [] else [LoginRoute])
    {
      if !isLoading && !isAuthenticated {
        router.Push(LoginRoute);
        return false;
      }
      return true;
    }
  }

  /**
    The whole session lifecycle on a fresh store: log in, re-check (as a
    reload would), log out, re-check.  Reports what each check saw and the
    routes pushed.
   */
  method LoginCheckLogout(token: string, userId: string)
    returns (authAfterLogin: bool, userAfterLogin: Option<string>,
             authAfterLogout: bool, tokenAfterLogout: Option<string>, routes: seq<string>)
    requires token != "" && userId != ""
    ensures authAfterLogin && userAfterLogin == Some(userId)
    ensures !authAfterLogout && tokenAfterLogout == None
    ensures routes == [LoginRoute]
  {
    var store := new LocalStore(map[]);
    var router := new Router();
    var hook := new AuthHook(store, router);
    hook.Login(token, userId);
    var reloaded := new AuthHook(store, router);
    reloaded.CheckAuth(true);
    authAfterLogin, userAfterLogin := reloaded.isAuthenticated, reloaded.user;
    reloaded.Logout();
    reloaded.CheckAuth(true);
    authAfterLogout := reloaded.isAuthenticated;
    tokenAfterLogout := reloaded.GetToken(true);
    routes := router.pushed;
  }
}

/**
  `ProtectedRoute`: what a protected page shows, decided from the session
  guard's loading flag and the answer of `requireAuth`.
 */
module ProtectedRoute {
  import opened Auth

  /** What the component renders: the loading spinner, nothing (`null`), or its children. */
  datatype View = Spinner | Nothing | Children

  /**
    The render decision.  Children appear only once loading is over and the
    visitor is authenticated; the spinner appears exactly while loading.
   */
  function Decide(isLoading: bool, isAuthenticated: bool): (v: View)
    ensures v == Spinner <==> isLoading
    ensures v == Children <==> !isLoading && isAuthenticated
    ensures v == Nothing <==> !isLoading && !isAuthenticated
  {
    if isLoading then Spinner
    else if !(isLoading || isAuthenticated) then Nothing
    else Children
  }

  /**
    One render of `ProtectedRoute`.  While loading, `requireAuth` is not
    called, so nothing is pushed; otherwise its answer picks nothing or the
    children, and the only navigation is its push of `/login`.
   */
  method Render(auth: AuthHook) returns (v: View)
    modifies auth.router
    ensures v == Decide(old(auth.isLoading), old(auth.isAuthenticated))
    ensures auth.router.pushed == old(auth.router.pushed) + (if v == Nothing then [LoginRoute] else [])
  {
    if auth.isLoading {
      return Spinner;
    }
    var allowed := auth.RequireAuth();
    if !allowed {
      return Nothing;
    }
    return Children;
  }

  /**
    A visitor who is not logged in, on a fresh page load: the first render
    shows the spinner and does not redirect; once `checkAuth` has run, the
    next render shows nothing and redirects to `/login` exactly once.
   */
  method FirstVisitLoggedOut() returns (first: View, second: View, routes: seq<string>)
    ensures first == Spinner && second == Nothing
    ensures routes == [LoginRoute]
  {
    var store := new Storage.LocalStore(map[]);
    var router := new Storage.Router();
    var auth := new AuthHook(store, router);
    first := Render(auth);
    auth.CheckAuth(true);
    second := Render(auth);
    routes := router.pushed;
  }
}

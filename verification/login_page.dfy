/**
  The login page's submit handler: it trades the entered API key for a
  session at `/auth/login`, stores the session and goes to `/`.  The
  handler runs in two steps around its `await`: what happens on submit,
  and what happens when the reply settles.
 */
module LoginPage {
  import opened Base
  import opened Storage
  import opened Auth
  import opened Api

  const LoginEndpoint := "/auth/login"
  const HomeRoute := "/"
  /** The message of the `catch` block. */
  const InvalidKeyMessage := "Invalid Api Key"

  /**
    The reply body of the login endpoint; a field the body lacks is `None`.
    `detail` is only read by the handler's non-OK branch, which cannot run.
   */
  datatype LoginReply = LoginReply(accessToken: Option<string>, userId: Option<string>, detail: Option<string>)

  /** What `localStorage.setItem` stores for a reply field: a missing one becomes the text "undefined". */
  function StorageString(v: Option<string>): (s: string)
    ensures v.Some? ==> s == v.value
    ensures v.None? ==> s == "undefined"
  {
    if v.Some? then v.value else "undefined"
  }

  /** The request body: the entered key and a user id made from the clock. */
  function LoginBody(apiKey: string, now: nat): Json {
    JObj(map["openai_api_key" := JStr(apiKey), "user_id" := JStr("user_" + Decimal(now))])
  }

  /** What `apiCall("/auth/login", { method: "POST", body })` sends. */
  function LoginRequest(base: string, apiKey: string, now: nat): (req: Request)
    ensures req.url == base + LoginEndpoint
    ensures req.init.verb == Some("POST")
    ensures req.init.headers == map[ContentType := JsonMediaType]
    ensures req.init.body == Some(LoginBody(apiKey, now))
  {
    var options := RequestInit(Some("POST"), map[], Some(LoginBody(apiKey, now)));
    PrepareRelative(base, LoginEndpoint, options);
    Prepare(base, LoginEndpoint, options)
  }

  /**
    The session a settled login request stores, if any: only an OK reply
    whose body could be read yields one, and it is the reply's two fields.
   */
  function StoredCredentials(outcome: FetchOutcome<LoginReply>): (r: Option<(string, string)>)
    ensures r.Some? <==> outcome.Delivered? && outcome.response.Ok() && outcome.response.json.Ok?
    ensures r.Some? ==> r.value == (StorageString(outcome.response.json.value.accessToken),
                                    StorageString(outcome.response.json.value.userId))
  {
    match Settle(outcome)
    case Err(_) => None
    case Ok(response) =>
      match response.json
      case Err(_) => None
      case Ok(data) => Some((StorageString(data.accessToken), StorageString(data.userId)))
  }

  /**
    After a successful login the next protected page recovers the stored
    user id, unless the reply carried an empty token or user id; a reply
    that lacks a field still yields a session, with the text "undefined".
   */
  lemma LoginReplyBecomesSession(items: map<string, Entry>, reply: LoginReply)
    ensures var token, user := StorageString(reply.accessToken), StorageString(reply.userId);
      Session(SaveSession(items, token, user)) == if token != "" && user != "" then Some(user) else None
    ensures reply.userId == None && reply.accessToken != Some("") ==>
      Session(SaveSession(items, StorageString(reply.accessToken), StorageString(reply.userId))) == Some("undefined")
  {
  }

  class LoginPage {
    var apiKey: string
    var isLoading: bool
    var error: string
    const apiBase: string
    const store: LocalStore
    const router: Router

    constructor (apiBase: string, store: LocalStore, router: Router)
      ensures this.apiBase == apiBase && this.store == store && this.router == router
      ensures apiKey == "" && !isLoading && error == ""
      ensures !SubmitEnabled()
    {
      this.apiBase := apiBase;
      this.store := store;
      this.router := router;
      apiKey := "";
      isLoading := false;
      error := "";
    }

    /** The submit button is enabled only when not loading and a key was entered. */
    predicate SubmitEnabled()
      reads this
      ensures isLoading || apiKey == "" ==> !SubmitEnabled()
      ensures !isLoading && apiKey != "" ==> SubmitEnabled()
    {
      !isLoading && apiKey != ""
    }

    /** Submit: loading starts, the error is cleared, and the request goes out. */
    method StartSubmit(now: nat) returns (sent: Request)
      modifies this
      ensures isLoading && error == "" && apiKey == old(apiKey)
      ensures !SubmitEnabled()
      ensures sent == LoginRequest(apiBase, apiKey, now)
    {
      isLoading := true;
      error := "";
      sent := LoginRequest(apiBase, apiKey, now);
    }

    /**
      The reply settles: on success the session is stored and `/` is
      pushed; on any failure the error reads "Invalid Api Key" and storage
      and navigation are untouched.  Loading ends either way.
     */
    method Settle(outcome: FetchOutcome<LoginReply>)
      modifies this, store, router
      ensures !isLoading && apiKey == old(apiKey)
      ensures StoredCredentials(outcome).Some? ==>
        && store.items == SaveSession(old(store.items), StoredCredentials(outcome).value.0,
                                      StoredCredentials(outcome).value.1)
        && router.pushed == old(router.pushed) + [HomeRoute]
        && error == old(error)
      ensures StoredCredentials(outcome).None? ==>
        && store.items == old(store.items)
        && router.pushed == old(router.pushed)
        && error == InvalidKeyMessage
    {
      var result := Api.Settle(outcome);
      match result {
        case Err(_) =>
          error := InvalidKeyMessage;
        case Ok(response) =>
          if response.Ok() {
            match response.json {
              case Err(_) =>
                error := InvalidKeyMessage;
              case Ok(data) =>
                store.SetItem(TokenKey, Text(StorageString(data.accessToken)));
                store.SetItem(UserKey, Text(StorageString(data.userId)));
                router.Push(HomeRoute);
            }
          } else {
            // The source would set `errorData.detail || "Invalid API key"` here,
            // but `apiCall` has already thrown for every reply that is not OK.
            assert false;
          }
      }
      isLoading := false;
    }
  }

  /**
    Logging in with a key the backend accepts, then opening a protected
    page (a fresh `useAuth` that checks storage): the page shows its
    content for the user id of the reply.
   */
  method LoginThenOpenProtectedPage(key: string, now: nat, token: string, userId: string)
    returns (sent: Request, authenticated: bool, user: Option<string>, routes: seq<string>)
    requires token != "" && userId != ""
    ensures sent.url == DefaultBaseUrl + LoginEndpoint
    ensures authenticated && user == Some(userId)
    ensures routes == [HomeRoute]
  {
    var store := new LocalStore(map[]);
    var router := new Router();
    var page := new LoginPage(BaseUrl(None), store, router);
    page.apiKey := key;
    sent := page.StartSubmit(now);
    var reply := Response(200, "OK", Ok(LoginReply(Some(token), Some(userId), None)));
    page.Settle(Delivered(reply));
    var auth := new AuthHook(store, router);
    auth.CheckAuth(true);
    authenticated, user := auth.isAuthenticated, auth.user;
    routes := router.pushed;
  }
}

/**
  `apiCall`: the one helper every page uses to reach the backend.  It
  builds the URL and the request options, hands them to `fetch`, and turns
  any reply whose status is not 2xx into a thrown error.  `fetch` itself is
  the network, so its outcome is an input here.
 */
module Api {
  import opened Base
  import opened Storage

  /** `API_BASE_URL` when `NEXT_PUBLIC_API_BASE_URL` is unset or empty. */
  const DefaultBaseUrl := "http://localhost:8000"

  /** `API_ENDPOINTS` */
  const SendEmailEndpoint := "/api/send-email"
  const GenerateDocsEndpoint := "/api/generate-docs"
  const DownloadDocsEndpoint := "/api/download-docs"
  const AuthEndpoint := "/auth"
  const HealthEndpoint := "/health"

  const ContentType := "Content-Type"
  const JsonMediaType := "application/json"

  /** `process.env.NEXT_PUBLIC_API_BASE_URL || "http://localhost:8000"` */
  function BaseUrl(env: Option<string>): (r: string)
    ensures env.Some? && env.value != "" ==> r == env.value
    ensures env == None || env == Some("") ==> r == DefaultBaseUrl
    ensures r != ""
  {
    if env.Some? && env.value != "" then env.value else DefaultBaseUrl
  }

  /**
    The URL `apiCall` fetches: an endpoint that already starts with `http`
    is used as it is, any other is appended to the base URL.
   */
  function ResolveUrl(base: string, endpoint: string): (url: string)
    ensures StartsWith(endpoint, "http") ==> url == endpoint
    ensures !StartsWith(endpoint, "http") ==> url == base + endpoint
  {
    if StartsWith(endpoint, "http") then endpoint else base + endpoint
  }

  /** Resolving an already resolved URL again changes nothing, whenever the base is itself an `http` URL. */
  lemma ResolveIdempotent(base: string, endpoint: string)
    requires StartsWith(base, "http")
    ensures StartsWith(ResolveUrl(base, endpoint), "http")
    ensures ResolveUrl(base, ResolveUrl(base, endpoint)) == ResolveUrl(base, endpoint)
  {
    if !StartsWith(endpoint, "http") {
      assert (base + endpoint)[..4] == base[..4];
    }
  }

  /**
    The options a page passes (`RequestInit`): method, headers as a plain
    object, and the JSON document whose `JSON.stringify` text is the body.
   */
  datatype RequestInit = RequestInit(verb: Option<string>, headers: map<string, string>, body: Option<Json>)

  /** What `fetch` is given. */
  datatype Request = Request(url: string, init: RequestInit)

  /**
    `{ ...defaultHeaders, ...options.headers }`: the JSON content type is
    always there, and every header the caller gives wins over it.
   */
  function MergeHeaders(caller: map<string, string>): (h: map<string, string>)
    ensures h.Keys == caller.Keys + {ContentType}
    ensures forall k :: k in caller ==> h[k] == caller[k]
    ensures ContentType !in caller ==> h[ContentType] == JsonMediaType
  {
    map[ContentType := JsonMediaType] + caller
  }

  /**
    The request `apiCall(endpoint, options)` sends: every option passes
    through except the headers, which are merged with the default.
   */
  function Prepare(base: string, endpoint: string, options: RequestInit): (req: Request)
    ensures req.url == ResolveUrl(base, endpoint)
    ensures req.init.verb == options.verb && req.init.body == options.body
    ensures req.init.headers == MergeHeaders(options.headers)
  {
    Request(ResolveUrl(base, endpoint), options.(headers := MergeHeaders(options.headers)))
  }

  /** An endpoint path (starting with `/`) is always appended to the base. */
  lemma PrepareRelative(base: string, endpoint: string, options: RequestInit)
    requires |endpoint| > 0 && endpoint[0] == '/'
    ensures Prepare(base, endpoint, options).url == base + endpoint
  {
    assert endpoint[0] != "http"[0];
  }

  /** A bearer token is the only header a page adds; the JSON content type joins it. */
  lemma BearerHeaders(token: string)
    ensures MergeHeaders(map["Authorization" := "Bearer " + token])
         == map["Authorization" := "Bearer " + token, ContentType := JsonMediaType]
  {
  }

  /**
    A reply from the backend.  `json` is what `response.json()` gives: the
    decoded body, or the error it throws when the body is not of that shape.
   */
  datatype Response<B> = Response(status: nat, statusText: string, json: Result<B>) {
    /** `response.ok` */
    predicate Ok() {
      200 <= status <= 299
    }
  }

  /** How `fetch` settles: a reply of any status, or a rejection (no reply at all). */
  datatype FetchOutcome<B> = Delivered(response: Response<B>) | Rejected(message: string)

  function FailureMessage(status: nat, statusText: string): string {
    "API call failed: " + Decimal(status) + " " + statusText
  }

  /**
    How the promise `apiCall` returns settles: with the reply when it is OK,
    otherwise with the error thrown, so no caller ever sees a non-OK reply.
   */
  function Settle<B>(outcome: FetchOutcome<B>): (r: Result<Response<B>>)
    ensures r.Ok? <==> outcome.Delivered? && outcome.response.Ok()
    ensures r.Ok? ==> r.value == outcome.response && r.value.Ok()
    ensures outcome.Rejected? ==> r == Err(outcome.message)
    ensures outcome.Delivered? && !outcome.response.Ok() ==>
      r == Err(FailureMessage(outcome.response.status, outcome.response.statusText))
  {
    match outcome
    case Rejected(message) => Err(message)
    case Delivered(response) =>
      if !response.Ok() then Err(FailureMessage(response.status, response.statusText))
      else Ok(response)
  }

  /** The failure message names the status, so distinct statuses give distinct messages. */
  lemma FailureMessageNamesStatus(s1: nat, s2: nat, text: string)
    ensures FailureMessage(s1, text) == FailureMessage(s2, text) <==> s1 == s2
  {
    var prefix := "API call failed: ";
    if FailureMessage(s1, text) == FailureMessage(s2, text) {
      var m1, m2 := FailureMessage(s1, text), FailureMessage(s2, text);
      var d1, d2 := Decimal(s1), Decimal(s2);
      // the status digits run up to the first space after the prefix
      var n1, n2 := |prefix| + |d1|, |prefix| + |d2|;
      assert m1[n1] == ' ' && m2[n2] == ' ';
      if |d1| != |d2| {
        assert false;
      }
      assert d1 == m1[|prefix|..n1] == m2[|prefix|..n2] == d2;
      DecimalInjective(s1, s2);
    }
  }
}

/**
  The email page's submit handler: it sends the recipient and subject to
  the backend with the stored bearer token, shows the reply, and records
  the attempt in the email history.  The handler runs in two steps around
  its `await`: what happens on submit, and what happens when the reply
  settles.  Every attempt, failed or not, adds exactly one record.
 */
module EmailPage {
  import opened Base
  import opened Storage
  import opened Api
  import opened Auth
  import History
  import EmailHistory

  const NoTokenMessage := "No authentication token found"
  /** The body text the page always sends; the backend writes the email from the subject. */
  const ContentPrompt := "Please generate appropriate content for this email based on the subject line."

  /** `SendEmailResponse`, as the page stores it in its `response` state. */
  datatype EmailReply = EmailReply(
    success: bool, result: Option<string>, error: Option<string>, userId: string,
    needsAuthentication: Option<bool>, oauthUrl: Option<string>)

  /** The form values a submit captured. */
  datatype Draft = Draft(to: string, subject: string)

  /** How a submit ends: no token, the backend's reply data, or a thrown error's message. */
  datatype Outcome = MissingToken | Returned(data: EmailReply) | Threw(message: string)

  /**
    The outcome of a request that was sent: the reply data when `apiCall`
    resolved and the body could be read, otherwise the message of what was thrown.
   */
  function Classify(outcome: FetchOutcome<EmailReply>): (o: Outcome)
    ensures !o.MissingToken?
    ensures o.Returned? <==> outcome.Delivered? && outcome.response.Ok() && outcome.response.json.Ok?
    ensures o.Returned? ==> o.data == outcome.response.json.value
    ensures outcome.Rejected? ==> o == Threw(outcome.message)
    ensures outcome.Delivered? && !outcome.response.Ok() ==>
      o == Threw(FailureMessage(outcome.response.status, outcome.response.statusText))
    ensures outcome.Delivered? && outcome.response.Ok() && outcome.response.json.Err? ==>
      o == Threw(outcome.response.json.message)
  {
    match Settle(outcome)
    case Err(message) => Threw(message)
    case Ok(response) =>
      match response.json
      case Err(message) => Threw(message)
      case Ok(data) => Returned(data)
  }

  /** The `errorResponse` of the `catch` block. */
  function ErrorResponse(message: string): EmailReply {
    EmailReply(false, None, Some(message), "", None, None)
  }

  function ErrorMessage(o: Outcome): string {
    match o
    case MissingToken => NoTokenMessage
    case Threw(message) => message
    case Returned(_) => ""
  }

  /** The response the page shows after a submit. */
  function ResponseFor(o: Outcome): (r: EmailReply)
    ensures o.Returned? ==> r == o.data
    ensures !o.Returned? ==> !r.success && r.error == Some(ErrorMessage(o)) && r.userId == ""
    ensures o.MissingToken? ==> r.error == Some(NoTokenMessage)
  {
    if o.Returned? then o.data else ErrorResponse(ErrorMessage(o))
  }

  /**
    The one history record a submit adds: the form's recipient and subject,
    successful only when the backend said so, and carrying the same error
    as the response shown.
   */
  function RecordFor(draft: Draft, o: Outcome): (rec: EmailHistory.EmailInput)
    ensures rec.to == draft.to && rec.subject == draft.subject
    ensures rec.success <==> o.Returned? && o.data.success
    ensures rec.error == ResponseFor(o).error
  {
    match o
    case Returned(data) => EmailHistory.EmailInput(draft.to, draft.subject, data.success, data.error)
    case _ => EmailHistory.EmailInput(draft.to, draft.subject, false, Some(ErrorMessage(o)))
  }

  /** The JSON body: recipient, subject and the fixed prompt. */
  function SendBody(draft: Draft): Json {
    JObj(map["to" := JStr(draft.to), "subject" := JStr(draft.subject), "body" := JStr(ContentPrompt)])
  }

  /** What `apiCall(API_ENDPOINTS.SEND_EMAIL, ...)` sends: a POST with the bearer token. */
  function SendRequest(base: string, draft: Draft, token: string): (req: Request)
    ensures req.url == base + SendEmailEndpoint
    ensures req.init.verb == Some("POST") && req.init.body == Some(SendBody(draft))
    ensures req.init.headers == map["Authorization" := "Bearer " + token, ContentType := JsonMediaType]
  {
    var options := RequestInit(Some("POST"), map["Authorization" := "Bearer " + token], Some(SendBody(draft)));
    PrepareRelative(base, SendEmailEndpoint, options);
    BearerHeaders(token);
    Prepare(base, SendEmailEndpoint, options)
  }

  class EmailPage {
    var recipient: string
    var subject: string
    var isLoading: bool
    var response: Option<EmailReply>
    /** The form values of the submit that is waiting for its reply. */
    var pending: Option<Draft>
    const apiBase: string
    const auth: AuthHook
    const history: EmailHistory.EmailHistory

    /** The page and the history panel share one storage. */
    ghost predicate Valid() {
      auth.store == history.store
    }

    constructor (apiBase: string, auth: AuthHook, history: EmailHistory.EmailHistory)
      requires auth.store == history.store
      ensures Valid() && this.apiBase == apiBase && this.auth == auth && this.history == history
      ensures recipient == "" && subject == "" && !isLoading && response == None && pending == None
    {
      this.apiBase := apiBase;
      this.auth := auth;
      this.history := history;
      recipient := "";
      subject := "";
      isLoading := false;
      response := None;
      pending := None;
    }

    /** The send button is enabled only when not loading and both fields are filled. */
    predicate SubmitEnabled()
      reads this
      ensures isLoading || recipient == "" || subject == "" ==> !SubmitEnabled()
      ensures !isLoading && recipient != "" && subject != "" ==> SubmitEnabled()
    {
      !isLoading && recipient != "" && subject != ""
    }

    /** The `catch` block: show the error and record the failed attempt. */
    method Fail(draft: Draft, o: Outcome, now: nat)
      requires Valid() && !o.Returned?
      modifies this, history, history.store
      ensures response == Some(ResponseFor(o))
      ensures history.entries == History.Prepend(old(history.entries), EmailHistory.Stamp(RecordFor(draft, o), now))
      ensures history.store.items
           == old(history.store.items)[EmailHistory.HistoryKey := Doc(EmailHistory.EncodeAll(history.entries))]
      ensures history.Persisted()
      ensures recipient == old(recipient) && subject == old(subject)
      ensures isLoading == old(isLoading) && pending == old(pending)
    {
      var message := ErrorMessage(o);
      response := Some(ErrorResponse(message));
      history.Add(EmailHistory.EmailInput(draft.to, draft.subject, false, Some(message)), now);
    }

    /**
      Submit: loading starts and the old response is cleared.  Without a
      stored token the handler ends at once with the "No authentication
      token found" error and one failed record; otherwise the request goes
      out with the token and the form values wait for the reply.
     */
    method StartSubmit(now: nat) returns (sent: Option<Request>)
      requires Valid()
      modifies this, history, history.store
      ensures recipient == old(recipient) && subject == old(subject)
      ensures var token := old(auth.GetToken(true));
        if Truthy(token) then
          && sent == Some(SendRequest(apiBase, Draft(recipient, subject), token.value))
          && isLoading && !SubmitEnabled()
          && response == None && pending == Some(Draft(recipient, subject))
          && history.entries == old(history.entries)
          && history.store.items == old(history.store.items)
        else
          && sent == None
          && !isLoading && pending == old(pending)
          && response == Some(ResponseFor(MissingToken))
          && history.entries == History.Prepend(old(history.entries),
               EmailHistory.Stamp(RecordFor(Draft(recipient, subject), MissingToken), now))
          && history.store.items
             == old(history.store.items)[EmailHistory.HistoryKey := Doc(EmailHistory.EncodeAll(history.entries))]
          && history.Persisted()
    {
      isLoading := true;
      response := None;
      var draft := Draft(recipient, subject);
      var token := auth.GetToken(true);
      if !Truthy(token) {
        Fail(draft, MissingToken, now);
        isLoading := false;
        return None;
      }
      pending := Some(draft);
      sent := Some(SendRequest(apiBase, draft, token.value));
    }

    /**
      The reply settles: the response shown and the one record added follow
      from the outcome; loading ends either way.
     */
    method Settle(outcome: FetchOutcome<EmailReply>, now: nat)
      requires Valid() && pending.Some?
      modifies this, history, history.store
      ensures !isLoading && pending == None
      ensures recipient == old(recipient) && subject == old(subject)
      ensures response == Some(ResponseFor(Classify(outcome)))
      ensures history.entries == History.Prepend(old(history.entries),
                EmailHistory.Stamp(RecordFor(old(pending.value), Classify(outcome)), now))
      ensures history.store.items
           == old(history.store.items)[EmailHistory.HistoryKey := Doc(EmailHistory.EncodeAll(history.entries))]
      ensures history.Persisted()
    {
      var draft := pending.value;
      var result := Api.Settle(outcome);
      match result {
        case Err(message) =>
          Fail(draft, Threw(message), now);
        case Ok(reply) =>
          match reply.json {
            case Err(message) =>
              Fail(draft, Threw(message), now);
            case Ok(data) =>
              response := Some(data);
              history.Add(EmailHistory.EmailInput(draft.to, draft.subject, data.success, data.error), now);
              if !reply.Ok() {
                // The source throws `data.error || "Failed to send email"` here, which
                // would add a second, failed record; `apiCall` has already thrown
                // for every reply that is not OK, so this never happens.
                assert false;
              }
          }
      }
      isLoading := false;
      pending := None;
    }

    /** `resetForm`: clears the two fields and the response, nothing else. */
    method ResetForm()
      modifies this
      ensures recipient == "" && subject == "" && response == None
      ensures isLoading == old(isLoading) && pending == old(pending)
    {
      recipient := "";
      subject := "";
      response := None;
    }
  }

  /** The status text of a 500 reply, as `apiCall` writes it into its message. */
  lemma StatusText500()
    ensures Decimal(500) == "500"
  {
    assert 500 / 10 == 50 && 500 % 10 == 0 && 50 / 10 == 5 && 50 % 10 == 0;
    assert Decimal(5) == [DigitChar(5)] == "5";
    assert Decimal(50) == Decimal(5) + [DigitChar(0)] == "50";
  }

  /** A 500 reply's error names the status after the fixed prefix. */
  lemma ServerErrorMessage(statusText: string)
    ensures FailureMessage(500, statusText) == "API call failed: 500 " + statusText
  {
    StatusText500();
    assert "API call failed: " + "500" + " " == "API call failed: 500 ";
  }

  /**
    A send that the backend rejects with status 500: the page shows the
    `apiCall` error and the history gains exactly one failed record with
    the same message.
   */
  method RejectedSend(token: string, to: string, subj: string, now: nat)
    returns (shown: EmailReply, records: seq<EmailHistory.EmailItem>)
    requires token != ""
    ensures !shown.success && shown.error == Some("API call failed: 500 " + "Internal Server Error")
    ensures |records| == 1 && records[0].to == to && records[0].subject == subj
    ensures !records[0].success && records[0].error == shown.error
  {
    var store := new LocalStore(map[TokenKey := Text(token)]);
    var router := new Router();
    var auth := new AuthHook(store, router);
    var history := new EmailHistory.EmailHistory(store);
    var page := new EmailPage(DefaultBaseUrl, auth, history);
    page.recipient, page.subject := to, subj;
    assert auth.GetToken(true) == Some(token);
    var sent := page.StartSubmit(now);
    assert page.pending == Some(Draft(to, subj)) && history.entries == [];
    var outcome: FetchOutcome<EmailReply> := Delivered(Response(500, "Internal Server Error", Err("not read")));
    assert Classify(outcome) == Threw(FailureMessage(500, "Internal Server Error"));
    page.Settle(outcome, now);
    shown := page.response.value;
    records := history.entries;
    ServerErrorMessage("Internal Server Error");
  }
}

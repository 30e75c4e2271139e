# Frontend_winning session guard, histories and request helper in Dafny

This project models the small amount of logic inside a Next.js front end for an
AI email and documentation assistant. Everything else in that front end is
presentational. The model covers:

- **The session guard.** This is the `useAuth` hook, with three state fields
  (`isLoading`, `isAuthenticated`, `user`) mirrored from the `access_token` and
  `user_id` keys of `localStorage`. It also covers `ProtectedRoute`, which shows
  a spinner, nothing (plus a redirect to `/login`), or its children, and the
  login page, which creates the session.
- **The two bounded history panels.** `EmailHistory` and `DocumentHistory` each
  keep the last ten attempts, newest first. They persist the whole list under
  `email_history` and `document_history`, and revive it when they mount.
- **`apiCall`.** It resolves the URL, merges the headers, and turns every
  reply that is not 2xx into a thrown `API call failed: <status> <text>`.
- **The email page's submit handler.** Each submit shows one response and adds
  exactly one history record.

Layout of the model:

- `base.dfy`: Option/Result, and the decimal text of numbers.
- `storage.dfy`: JSON trees, `localStorage` as a class over a map, and the router
  as a class that records pushed routes.
- `auth.dfy`, `protected_route.dfy`, `api.dfy` and `history.dfy`. `history.dfy`
  holds the `[newItem, ...list].slice(0, 10)` discipline shared by both panels.
- `email_history.dfy`, `document_history.dfy`, `login_page.dfy` and
  `email_page.dfy`.

Each component whose methods change state is a class. React state setters are
field assignments, and `localStorage` and `router.push` are the methods of
the shared `LocalStore` and `Router` objects.

An `async` handler is split at its `await` into two methods:

- `StartSubmit`: everything before the request is sent.
- `Settle`: everything after the promise settles.

The wall clock (`Date.now()`), the reply of `fetch` and `typeof window` are
parameters.

Some of the code's behaviour is easy to misread; the model follows the code:

- `checkAuth` treats an empty stored token or user id as logged out, because
  it tests truthiness and not presence.
- `login` is not restricted to valid input. With an empty token it still marks
  the hook authenticated, but the next `checkAuth` reports logged out
  (`Auth.SaveEmptyIsNoSession`).
- The login page stores the text `"undefined"` for a reply field that is
  missing (`LoginPage.LoginReplyBecomesSession`).
- A stored history that is not an array, or an array with a `null` element,
  makes the source throw. It does not fall back to an empty list. The
  model's `LoadOnMount` reports `ok == false` in that case and leaves the
  list as it was (it does the same for a few more values, listed under
  "## Left out").

Because `apiCall` already throws for every non-OK reply, two branches of the
callers can never run. These are the login page's `else` branch
(`src/app/login/page.tsx:48-50`) and the email page's `!response.ok` throw
(`src/app/email/page.tsx:112-114`). The model proves this by `assert false` at
those points.

## Model

| member | source | states |
|---|---|---|
| Base.Decimal | src/components/EmailHistory.tsx:39 | `Date.now().toString()` is a non-empty run of decimal digits, one digit exactly for values below ten |
| Base.ParseDecimal | src/components/EmailHistory.tsx:31 | reading a time value back succeeds exactly on non-empty all-digit text |
| Base.DecimalRoundTrip | src/components/EmailHistory.tsx:39 | reading back the decimal text of a time gives that time |
| Base.DecimalInjective | src/components/EmailHistory.tsx:39 | ids made at distinct times are distinct, and ids made at equal times are equal |
| Storage.DateRoundTrip | src/components/EmailHistory.tsx:29-32 | a stored `Date` is revived by `new Date(...)` as the same instant |
| Storage.LocalStore.GetItem | src/hooks/useAuth.ts:18-19 | `getItem` gives the stored value exactly when the key is present, else `null` |
| Storage.LocalStore.SetItem | src/hooks/useAuth.ts:33-34 | `setItem` overwrites one key and leaves every other key alone |
| Storage.LocalStore.RemoveItem | src/hooks/useAuth.ts:40-41 | `removeItem` drops one key and leaves every other key alone |
| Storage.Router.Push | src/hooks/useAuth.ts:44 | `router.push` appends exactly one route to the navigation log |
| Auth.StoredText | src/hooks/useAuth.ts:18-19 | a session key is read as the text stored under it, or `null` |
| Auth.Session | src/hooks/useAuth.ts:18-27 | a session exists exactly when both keys hold non-empty text, and its user is the stored `user_id` |
| Auth.SaveSession | src/hooks/useAuth.ts:33-34 | writing a session sets exactly the two keys and keeps every other key |
| Auth.ClearSession | src/hooks/useAuth.ts:40-41 | clearing removes exactly the two keys and keeps every other key |
| Auth.SaveThenSession | src/hooks/useAuth.ts:16-37 | after `login(t, u)` with non-empty values, `checkAuth` recovers user `u` |
| Auth.SaveEmptyIsNoSession | src/hooks/useAuth.ts:16-37 | after `login` with an empty token or user id, `checkAuth` finds no session |
| Auth.ClearIsLoggedOutAndIdempotent | src/hooks/useAuth.ts:39-45 | after `logout` there is no session, and clearing twice is the same as clearing once |
| Auth.AuthHook.constructor | src/hooks/useAuth.ts:7-9 | the initial state is loading, unauthenticated, with no user |
| Auth.AuthHook.CheckAuth | src/hooks/useAuth.ts:16-30 | loading always ends; in a browser, authenticated and user mirror the stored session; outside one, they are unchanged |
| Auth.AuthHook.Login | src/hooks/useAuth.ts:32-37 | both keys are written, and the hook is authenticated as that user |
| Auth.AuthHook.Logout | src/hooks/useAuth.ts:39-45 | both keys are removed, the state is cleared, and `/login` is pushed once |
| Auth.AuthHook.GetToken | src/hooks/useAuth.ts:47-52 | gives the stored `access_token` (or `null`, also outside a browser) and changes nothing |
| Auth.AuthHook.RequireAuth | src/hooks/useAuth.ts:54-60 | allows exactly while loading or authenticated; otherwise pushes `/login` once, and pushes nothing when allowed |
| Auth.LoginCheckLogout | src/hooks/useAuth.ts:16-45 | the lifecycle login, reload check, logout, check ends logged out, without a token, and after a single redirect |
| ProtectedRoute.Decide | src/components/ProtectedRoute.tsx:14-30 | spinner exactly while loading; children exactly when loaded and authenticated; nothing otherwise |
| ProtectedRoute.Render | src/components/ProtectedRoute.tsx:10-31 | the view follows the decision, and `/login` is pushed exactly when nothing is rendered (never while loading) |
| ProtectedRoute.FirstVisitLoggedOut | src/components/ProtectedRoute.tsx:14-28 | a logged-out first visit shows the spinner, then nothing, with exactly one redirect |
| Api.BaseUrl | src/lib/api.ts:2-3 | an unset or empty environment value gives `http://localhost:8000`, and any other value is used as it is |
| Api.ResolveUrl | src/lib/api.ts:15-17 | an endpoint starting with `http` is used verbatim; any other is appended to the base |
| Api.ResolveIdempotent | src/lib/api.ts:15-17 | with an `http` base, a resolved URL resolves to itself |
| Api.MergeHeaders | src/lib/api.ts:19-29 | the merged headers are the caller's plus `Content-Type`, the caller wins on a conflict, and the JSON default is used otherwise |
| Api.PrepareRelative | src/lib/api.ts:15-17 | every endpoint path starting with `/` is fetched at base + path |
| Api.BearerHeaders | src/lib/api.ts:19-29 | a page's bearer header ends up next to the JSON content type, and nothing else is sent |
| Api.Prepare | src/lib/api.ts:14-29 | the request goes to the resolved URL; method and body pass through unchanged; headers are merged |
| Api.Settle | src/lib/api.ts:31-39 | the call resolves exactly for a 2xx reply, returned as is; a non-2xx reply throws `API call failed: <status> <text>`; a network failure rethrows |
| Api.FailureMessageNamesStatus | src/lib/api.ts:33-35 | two failure messages with the same status text are equal exactly when the statuses are |
| History.Prepend | src/components/EmailHistory.tsx:43 | the new record first, then the old list in order, cut to `min(old+1, 10)`; nothing is dropped from a list with room; a list of ten loses only its oldest record, and a longer restored list keeps only its first nine |
| History.AddAllNewestFirst | src/components/EmailHistory.tsx:43 | any sequence of adds yields the added records newest first, then the old list, cut to ten |
| History.AddAllBounded | src/components/EmailHistory.tsx:43 | any sequence of adds keeps the list at `min(total, 10)` records, never more than ten |
| History.FromEmpty | src/components/EmailHistory.tsx:43 | from an empty list, position `i` holds the `i`-th most recent record |
| History.AddAllStep | src/components/EmailHistory.tsx:36-48 | one more add extends the sequence of adds by that record |
| History.Panel | src/components/EmailHistory.tsx:54-56 | nothing is rendered exactly for an empty list; otherwise the whole list |
| EmailHistory.Stamp | src/components/EmailHistory.tsx:37-41 | the new record keeps the caller's `to`/`subject`/`success`/`error`; its id reads back as the time, and its timestamp is that time |
| EmailHistory.EncodeFields | src/components/EmailHistory.tsx:47 | every field of a stored record is written as it is; an absent `error` is left out |
| EmailHistory.DecodeEncode | src/components/EmailHistory.tsx:28-32 | a stored record revives as the same record, timestamp included |
| EmailHistory.EncodeAll | src/components/EmailHistory.tsx:47 | the stored array has one element per record, in list order |
| EmailHistory.DecodeEachEncoded | src/components/EmailHistory.tsx:28-32 | reviving a stored array gives back the whole list |
| EmailHistory.SavedListReloads | src/components/EmailHistory.tsx:24-47 | what `addToHistory` stores is exactly what the next mount restores |
| EmailHistory.EmailHistory.constructor | src/components/EmailHistory.tsx:22 | the panel starts with an empty list |
| EmailHistory.EmailHistory.LoadOnMount | src/components/EmailHistory.tsx:24-34 | a list of well-formed records is restored; a missing or empty value leaves the list as it was; any other value is reported unreadable and changes nothing |
| EmailHistory.EmailHistory.Add | src/components/EmailHistory.tsx:36-48 | the list becomes the stamped record prepended and cut to ten; `email_history` then holds exactly that list, and no other key changes |
| EmailHistory.EmailHistory.View | src/components/EmailHistory.tsx:54-56 | renders nothing exactly when the list is empty |
| EmailHistory.ElevenSends | src/components/EmailHistory.tsx:36-48 | eleven sends `S0`…`S10` leave ten records, `S10` first down to `S1`; `S0` is evicted |
| EmailHistory.FailedSendSurvivesReload | src/components/EmailHistory.tsx:24-48 | a failed send's record, with its error, is the first record after a reload |
| DocumentHistory.Stamp | src/components/DocumentHistory.tsx:33-37 | the new record keeps every caller field; its id reads back as the time, and its timestamp is that time |
| DocumentHistory.ReadStrArrayRoundTrip | src/types/document.ts:19-28 | a stored `urls` array reads back as the same strings |
| DocumentHistory.EncodeRequiredFields | src/components/DocumentHistory.tsx:43 | the always-present fields (`id`, `topic`, `output_format`, `success`, `timestamp`) are stored as they are |
| DocumentHistory.EncodeOptionalFields | src/components/DocumentHistory.tsx:43 | `urls`, `error` and `file_path` read back as written, and absent ones as absent |
| DocumentHistory.DecodeEncode | src/components/DocumentHistory.tsx:24-28 | a stored record revives as the same record, timestamp included |
| DocumentHistory.EncodeAll | src/components/DocumentHistory.tsx:43 | the stored array has one element per record, in list order |
| DocumentHistory.DecodeEachEncoded | src/components/DocumentHistory.tsx:24-28 | reviving a stored array gives back the whole list |
| DocumentHistory.SavedListReloads | src/components/DocumentHistory.tsx:20-43 | what `addToHistory` stores is exactly what the next mount restores |
| DocumentHistory.DownloadName | src/components/DocumentHistory.tsx:158 | the name contains no `/`, ends the path, and follows a `/` unless it is the whole path |
| DocumentHistory.DownloadNameAfterSlash | src/components/DocumentHistory.tsx:158 | the slash-free segment after the last `/` (or the start) is the name |
| DocumentHistory.DownloadNameCases | src/components/DocumentHistory.tsx:158 | a path without `/` is its own name, and `dir/file` names `file` |
| DocumentHistory.ShowDownload | src/components/DocumentHistory.tsx:154 | the button needs a successful record with a path; an empty path hides it |
| DocumentHistory.SourceLabel | src/components/DocumentHistory.tsx:125-133 | shown exactly for non-empty `urls`: "1 source", or "n sources" for more |
| DocumentHistory.DownloadRequest | src/components/DocumentHistory.tsx:50-62 | no token throws "No authentication token found"; otherwise a bodiless GET goes to `/api/download-docs/<name>` with the bearer token |
| DocumentHistory.DocumentHistory.constructor | src/components/DocumentHistory.tsx:17 | the panel starts with an empty list |
| DocumentHistory.DocumentHistory.LoadOnMount | src/components/DocumentHistory.tsx:20-30 | a list of well-formed records is restored; a missing or empty value leaves the list as it was; any other value is reported unreadable and changes nothing |
| DocumentHistory.DocumentHistory.Add | src/components/DocumentHistory.tsx:32-44 | the list becomes the stamped record prepended and cut to ten; `document_history` then holds exactly that list |
| DocumentHistory.DocumentHistory.View | src/components/DocumentHistory.tsx:80-82 | renders nothing exactly when the list is empty |
| LoginPage.StorageString | src/app/login/page.tsx:43-44 | `setItem` stores a reply field as it is, and a missing one as the text `undefined` |
| LoginPage.LoginRequest | src/app/login/page.tsx:31-37 | a POST to `/auth/login` with the JSON content type and a body of the entered key and `user_<time>` |
| LoginPage.StoredCredentials | src/app/login/page.tsx:39-53 | a session is stored exactly for a 2xx reply whose body could be read, and it is the reply's two fields |
| LoginPage.LoginReplyBecomesSession | src/app/login/page.tsx:39-47 | the next `checkAuth` sees the reply's user id exactly when both stored values are non-empty; a reply without `user_id` yields user `undefined` |
| LoginPage.LoginPage.constructor | src/app/login/page.tsx:20-22 | the page starts with no key, no error, not loading, and submit disabled |
| LoginPage.LoginPage.SubmitEnabled | src/app/login/page.tsx:137 | submit is enabled exactly when not loading and a key was entered |
| LoginPage.LoginPage.StartSubmit | src/app/login/page.tsx:25-37 | loading starts, the error is cleared, submit is disabled, and the login request goes out |
| LoginPage.LoginPage.Settle | src/app/login/page.tsx:39-56 | on success the two keys are stored and `/` is pushed; on every failure the error is `Invalid Api Key` and storage and navigation are untouched; loading ends |
| LoginPage.LoginThenOpenProtectedPage | src/app/login/page.tsx:25-56 | an accepted key leads to a protected page that is authenticated as the reply's user, after one push of `/` |
| EmailPage.Classify | src/app/email/page.tsx:85-93 | the handler gets data exactly for a 2xx reply with a readable body; otherwise the thrown message (`apiCall`'s, the network's or the body's) |
| EmailPage.ResponseFor | src/app/email/page.tsx:100-124 | the response shown is the reply data, or `{success: false, error: message, user_id: ""}` |
| EmailPage.RecordFor | src/app/email/page.tsx:103-133 | the one record carries the form's `to`/`subject`; it succeeds only when the backend said so, and carries the same error as the response |
| EmailPage.SendRequest | src/app/email/page.tsx:79-91 | a POST to `/api/send-email` with a body of the form values and the fixed prompt, and headers exactly the bearer token and the JSON content type |
| EmailPage.EmailPage.constructor | src/app/email/page.tsx:37-40 | the form starts empty, not loading, with no response |
| EmailPage.EmailPage.Fail | src/app/email/page.tsx:115-134 | the error response is shown, one failed record with the same message is added, and `email_history` is rewritten with the new list; every other storage key and field is unchanged |
| EmailPage.EmailPage.SubmitEnabled | src/app/email/page.tsx:488 | send is enabled exactly when not loading and both recipient and subject are filled |
| EmailPage.EmailPage.StartSubmit | src/app/email/page.tsx:68-91 | the old response is cleared; without a token: no request, a "No authentication token found" response and one failed record, with only `email_history` rewritten in storage; with one: the send request goes out, submit is disabled and storage is untouched |
| EmailPage.EmailPage.Settle | src/app/email/page.tsx:93-137 | exactly one record for the outcome is added and `email_history` is rewritten with the new list, with no other storage key changed (the session survives a failed send); the response matches the record; loading ends |
| EmailPage.EmailPage.ResetForm | src/app/email/page.tsx:140-144 | clears recipient, subject and response, and touches nothing else |
| EmailPage.ServerErrorMessage | src/lib/api.ts:33-35 | a 500 reply's error reads `API call failed: 500 ` followed by the status text |
| EmailPage.RejectedSend | src/app/email/page.tsx:68-137 | a send rejected with 500 shows `API call failed: 500 Internal Server Error` and leaves exactly one failed record carrying the same message |

## Left out

- JSON text is not modelled. A stored document is kept as a JSON tree, so `JSON.stringify`/`JSON.parse` text and parse errors are out of scope. A stored value the panel cannot read is reported as unreadable rather than thrown.
- A `Date` in storage is written as its decimal millisecond count, not as the ISO 8601 text `JSON.stringify` produces. Calendar formatting is out of scope. So is `toLocaleTimeString`, which is presentational.
- EmailHistory.EmailHistory.LoadOnMount: does not load every value the source loads. It rejects stored records that lack a field or have a field of the wrong type, and JSON stored as raw text; the source would load those. Only a stored value that is not an array, or an array with a `null` element, makes the source throw. Fields outside the record shape are dropped on load, where the source keeps and re-persists them.
- DocumentHistory.DocumentHistory.LoadOnMount: the same as `EmailHistory.EmailHistory.LoadOnMount`, for `document_history`: it rejects records with a missing or mistyped field and JSON stored as raw text, which the source would load, and fields outside the record shape are dropped on load, where the source keeps and re-persists them.
- Auth.StoredText: storage entries are split into plain text and JSON documents. So a JSON document stored under a session key reads as `null` here, where `getItem` would return its text. Only the session code writes these keys, always as plain text.
- `addToHistory` reads the clock twice (`Date.now()` and `new Date()`). The model uses one reading for both.
- The email handler's `"An unexpected error occurred"` fallback for a thrown non-`Error` value is not modelled. Every failure here carries a message.
- The history ref being `null` (panel not mounted) is not modelled. The panel is always mounted, so every submit adds its record.
- A reply field of the wrong JSON type (such as a numeric `access_token`) is not modelled. Reply fields are strings or missing.
- Header names are compared case-sensitively, as object keys are. Only plain-object headers are modelled, not `Headers` instances or arrays.
- `handleDownload` after the request is not modelled: the blob, the object URL, the anchor element and the `console.error` are browser I/O. The request it sends is modelled.
- React scheduling is not modelled. State setters take effect at once, and re-renders and effects run only when a method is called.
- Storage write failures (quota), cross-tab races and `console.log` are not modelled.
- The docs, github, agents and home pages are not modelled. They are presentational, or simulate their work with timers and randomness.
- `API_ENDPOINTS.AUTH`, `GENERATE_DOCS` and `HEALTH` are declared as constants, but nothing in the model uses them.
- The `detail` field of a login reply is carried but never read. Only the unreachable non-OK branch reads it.

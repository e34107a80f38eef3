# FestaFlow core, modelled in Dafny

FestaFlow is a single-administrator back office for an event-planning
business (weddings and parties). This project models its core:

- the session manager (`src/lib/session.ts`): a signed, one-day session
  token (HS256 JWT) kept in one `session` cookie, and how reading it
  deletes a stale cookie;
- the access guard (`src/middleware.ts`), which sends anonymous visitors
  of the protected areas to `/login` and signed-in visitors of `/login` to
  `/dashboard`;
- the login and logout server actions (`src/app/login/actions.ts`);
- the Google Calendar delegation (`src/lib/google.ts` and the three
  routes under `src/app/api/`): the OAuth client configuration, the
  consent-screen request, the callback that exchanges the authorization
  code (section 4.1 of RFC 6749) and stores the tokens, the store that
  merges them into one fixed document (`user_tokens/admin_google_tokens`),
  and the status probe;
- the three data contexts the screens use (`src/contexts/`): events kept
  in date order, payments cached per event, each new payment
  rewriting the event's `amountPaid` as the total of the payments cached
  for it, and prospects newest first.

Modelling conventions:

- An environment variable is a string, and `""` stands for unset (the
  source tests them with `!x`, which treats both alike).
- The clock is an integer count of milliseconds (`Date.now()`). JWT
  claims are whole seconds, `ms / 1000`.
- A token is either `Signed(jwt)`, a compact JWT whose signature checks
  under the key recorded in it, or `Opaque(text)`, any other cookie text.
- Amounts are integer cents. New ids (`addDoc`, `Math.random`) are
  parameters.
- Each database read is a `Fetch` (documents, or a thrown error). Each
  write is a boolean saying whether it succeeded.
- The React state of each context is a Dafny `class`, and its operations
  are methods that reassign it. The JavaScript array helpers are
  functions: `filter`, `find`, and the stable comparator `sort`, modelled
  as a stable insertion sort.

Where the code and its documentation disagree, the model follows the code:

- The status probe is described as free of side effects. It reads the
  session through `getSession`, which deletes a cookie that is present but
  no longer valid, so `AuthStatusRoute.Get` may change the jar.
- `publicRoutes` in `src/middleware.ts` is declared but never consulted.
  Only the protected-route prefixes and the `/login` test decide.
- `addPayment` writes as `amountPaid` the total of the payments cached for
  the event plus the new one. When the event's payments were never loaded,
  this is the new amount alone, and it replaces the stored total.
  `PaymentContext.RecordedTotal` states this.

## Model

| member | source | states |
|---|---|---|
| Session.Encrypt | src/lib/session.ts:18-27 | fails with the missing-secret message exactly when the secret is unset; otherwise yields an HS256 token signed with the secret over exactly the given payload, issued now and expiring one day (86400 seconds) later |
| Session.Decrypt | src/lib/session.ts:29-46 | never throws; yields the payload exactly when the token is present and non-empty, the secret is set, and the token verifies (HS256, signed with the secret, `exp` ahead); a missing or empty token or a missing secret yields nothing |
| Session.ForgedTokenRejected | src/lib/session.ts:37-45 | a token signed with any other key never decodes |
| Session.EncryptDecrypt | src/lib/session.ts:18-46 | round trip: decoding an encoded payload gives it back exactly while its one-day `exp` is ahead, and nothing afterwards |
| Session.SessionCookie | src/lib/session.ts:48-59 | the cookie expires a day after `now`; it is httpOnly, `secure` only in production, SameSite=Lax and has path `/`; its token carries the username and that expiry; it fails exactly when the secret is unset |
| Session.CurrentSession | src/lib/session.ts:61-67 | a session exists exactly when the cookie holds a token that verifies under the secret and whose `expiresAt` is ahead, and it is then that token's payload; whenever decoding succeeds with `expiresAt` ahead, the session is the decoded payload |
| Session.CookieAfterRead | src/lib/session.ts:69-72 | reading either keeps the cookie or deletes it; a present cookie is deleted if and only if it is non-empty and gives no session |
| Session.CreateThenGet | src/lib/session.ts:48-67 | round trip: a created session reads back as the same username and expiry exactly while both the JWT `exp` and `expiresAt` are ahead |
| Session.SessionLastsADay | src/lib/session.ts:48-67 | a created session is readable from its creation instant for a day less one second |
| Session.ReadIsIdempotent | src/lib/session.ts:61-74 | a second read changes nothing more and returns the same session as the first |
| Session.CookieJar.CreateSession | src/lib/session.ts:48-59 | sets exactly the session cookie, or fails and changes nothing when the secret is unset |
| Session.CookieJar.GetSession | src/lib/session.ts:61-74 | returns the current session and leaves the jar as `CookieAfterRead` says |
| Session.CookieJar.DeleteSession | src/lib/session.ts:76-78 | the jar holds no session cookie afterwards |
| Session.CookieJar.VerifySession | src/lib/session.ts:80-86 | the session when there is one, otherwise a redirect to `/login` |
| Session.NoSessionAfterDelete | src/lib/session.ts:61-78 | after deletion no read finds a session, and a read leaves the empty jar alone |
| Middleware.SomePrefix | src/middleware.ts:26 | true exactly when some listed route is a prefix of the path |
| Middleware.Guard | src/middleware.ts:13-40 | asset, API and image paths pass; without a session, a path under a protected prefix redirects to login carrying the path, and only then; with a session, exactly `/login` redirects to the dashboard |
| Middleware.RedirectTargetPasses | src/middleware.ts:28-38 | no redirect loop: for the same session state, the guard lets its own redirect target through |
| Middleware.UnprotectedByShape | src/middleware.ts:26 | a path that differs from every protected route in its second or third character is not protected |
| Middleware.NotBypassedByShape | src/middleware.ts:13-20 | a path whose characters rule out each bypass prefix and suffix is not bypassed |
| Middleware.PrefixMatchExamples | src/middleware.ts:26-33 | matching is by prefix: `/eventsX` is protected, and `/events/42` without a session redirects to login carrying `/events/42` |
| Middleware.AppointmentsPass | src/middleware.ts:6 | `/appointments` is not protected, so it passes without a session |
| Middleware.SettingsPass | src/middleware.ts:6 | `/settings` is not protected, so it passes without a session |
| Middleware.MatcherExclusionsPass | src/middleware.ts:44-55 | every path the route matcher excludes would have passed the guard anyway |
| Middleware.HandleRequest | src/middleware.ts:9-41 | decides as `Guard` on the session read; a bypassed path never reads the session and leaves the jar as it was |
| Google.GetGoogleOAuth2Client | src/lib/google.ts:16-30 | succeeds exactly when id, secret and base URL are all set, otherwise fails with the configuration message; the redirect URI is the base URL followed by `/api/oauth2callback` |
| Google.GetGoogleAuthUrl | src/lib/google.ts:35-43 | fails exactly as the client does; otherwise asks for offline access and forced consent for the single calendar scope |
| Google.Merge | src/lib/google.ts:61-68 | access token and expiry are always replaced; the refresh token is replaced only by a truthy one; owner and creation time are kept |
| Google.Create | src/lib/google.ts:69-78 | a new record holds the given tokens as they are, owned by the session user |
| Google.AfterStore | src/lib/google.ts:55-79 | a store writes only the fixed document `admin_google_tokens`, merging into it when it exists and creating it otherwise; every other document is unchanged |
| Google.RefreshTokenSurvives | src/lib/google.ts:61-68 | over any series of writes to an existing record, its refresh token is the last truthy one written, and its owner and creation time never change |
| Google.LastRefreshKeepsPresent | src/lib/google.ts:65 | starting from a truthy refresh token, the surviving one is truthy |
| Google.RefreshTokenNeverLost | src/lib/google.ts:61-68 | a stored truthy refresh token stays truthy whatever is written later |
| Google.TokenStore.StoreTokens | src/lib/google.ts:49-80 | without a session username it fails with the not-authenticated message and writes nothing; a failed store writes nothing; otherwise the collection becomes `AfterStore` |
| Google.TokenStore.GetStoredTokens | src/lib/google.ts:85-101 | nothing without a session username; otherwise the fixed document if present; only the session read may change the jar |
| Http.Resolve | src/app/api/oauth2callback/route.ts:10 | `new URL(path, base)` succeeds exactly when the base is an absolute URL, with no query yet |
| Http.SetParam | src/app/api/oauth2callback/route.ts:14 | sets one query parameter and keeps the others |
| Http.SettingsUrl | src/app/api/auth/google/route.ts:11 | the corrected settings URL, not the code as written (which throws without a base URL; see Findings): the settings page on the configured base when that is a URL, otherwise on the request's own origin |
| Http.MissingBaseIsNotAUrl | src/app/api/auth/google/route.ts:11 | an unset base URL cannot be resolved against |
| AuthGoogleRoute.GetAsWritten | src/app/api/auth/google/route.ts:4-15 | as written: redirects to the provider's consent URL exactly when configured; the fallback throws exactly when the base URL is also unusable |
| AuthGoogleRoute.MissingBaseUrlEscapes | src/app/api/auth/google/route.ts:11 | with client id and secret set but no base URL, an exception escapes the handler |
| AuthGoogleRoute.Get | src/app/api/auth/google/route.ts:4-15 | as intended: never throws; goes to the provider exactly when configured, otherwise to settings with `error=google_auth_failed`; agrees with the code as written whenever the base URL is usable |
| OAuthCallbackRoute.FlagsAreDistinct | src/app/api/oauth2callback/route.ts:12-49 | distinct outcomes reach the settings page as distinct parameters |
| OAuthCallbackRoute.Plan | src/app/api/oauth2callback/route.ts:12-39 | a provider error comes first, then a missing code; tokens are stored exactly when there is no error, a code, a configured client, an exchange that did not throw and both tokens truthy, and they are the exchanged tokens; an unconfigured client or a thrown exchange gives `google_token_exchange_failed`, and an exchange lacking either token gives `google_token_missing` |
| OAuthCallbackRoute.ErrorCheckedFirst | src/app/api/oauth2callback/route.ts:12-16 | with a provider error the answer is permission-denied, whatever the code and the exchange |
| OAuthCallbackRoute.FlagUrl | src/app/api/oauth2callback/route.ts:14 | the settings URL carrying exactly the outcome's one parameter |
| OAuthCallbackRoute.ExactlyOneFlag | src/app/api/oauth2callback/route.ts:10-49 | every redirect carries exactly one parameter: `success` for a connection, `error` otherwise |
| OAuthCallbackRoute.ResponseAsWritten | src/app/api/oauth2callback/route.ts:5-50 | as written: the handler throws exactly when the base URL is unusable, on every path |
| OAuthCallbackRoute.DenialWithoutBaseUrlEscapes | src/app/api/oauth2callback/route.ts:10-16 | a provider denial with no base URL ends in an exception instead of the settings page |
| OAuthCallbackRoute.Get | src/app/api/oauth2callback/route.ts:5-50 | as intended: a rejected callback writes nothing; an accepted one stores exactly the received tokens and reports `google_connected` or `google_token_exchange_failed` by the store's outcome; agrees with the code as written whenever the base URL is usable |
| AuthStatusRoute.IsConnected | src/app/api/auth/status/route.ts:7 | connected exactly when a record exists with a truthy refresh token |
| AuthStatusRoute.Get | src/app/api/auth/status/route.ts:4-13 | 200 with the connection state, or 500 with `false` when the read throws; reports a connection only when the fixed document has a truthy refresh token; never writes the token store |
| AuthStatusRoute.ConnectedAfterStore | src/app/api/oauth2callback/route.ts:35-43 | after the callback stores a truthy refresh token, the probe reports a connection, whether the record was created or merged |
| AuthStatusRoute.StaysConnected | src/lib/google.ts:61-68 | once connected, later token writes never disconnect |
| LoginActions.SchemaIssues | src/app/login/actions.ts:8-11 | the form is valid exactly when both fields are present and non-empty; at most one issue per field |
| LoginActions.Decide | src/app/login/actions.ts:22-55 | schema issues first, joined with `, `; then missing configuration; a login is accepted exactly when both fields equal the configured credentials |
| LoginActions.EmptyFormMessage | src/app/login/actions.ts:8-25 | an empty form reports both messages, username first |
| LoginActions.SchemaBeforeConfig | src/app/login/actions.ts:22-36 | a malformed form is rejected the same way whatever the configuration |
| LoginActions.LoginAction | src/app/login/actions.ts:18-56 | each rejection returns its message and leaves the jar alone; an accepted login sets the session cookie and redirects to `/dashboard`, after which a session is readable |
| LoginActions.LogoutAction | src/app/login/actions.ts:58-61 | no session cookie remains, and the browser goes to `/login` |
| Sequences.Filter | src/contexts/EventContext.tsx:157 | keeps exactly the elements the predicate accepts, each as often as before, and no more than the input |
| Sequences.FilterAppend | src/contexts/EventContext.tsx:157 | filtering a concatenation is the concatenation of the filtered parts, so kept elements stay in their original order |
| Sequences.FilterKeepsOrder | src/contexts/EventContext.tsx:157 | filtering a sorted list leaves it sorted |
| Sequences.FilterNarrows | src/contexts/EventContext.tsx:175-181 | filtering by a predicate and then by a stricter one is filtering by the stricter one |
| Sequences.FindFirst | src/contexts/EventContext.tsx:165 | nothing exactly when no element matches; otherwise the first match |
| Sequences.InsertBy | src/contexts/EventContext.tsx:94 | inserting adds exactly one element |
| Sequences.InsertBySplices | src/contexts/EventContext.tsx:94 | inserting into a sorted list places the element after every element with a key up to its own and before the rest |
| Sequences.InsertBySorted | src/contexts/EventContext.tsx:94 | inserting into a sorted list keeps it sorted |
| Sequences.SortBy | src/contexts/EventContext.tsx:94 | the result is sorted and a permutation of the input |
| Sequences.SortBySortedIsIdentity | src/contexts/EventContext.tsx:172 | sorting a sorted list changes nothing |
| Sequences.SortAppendIsInsert | src/contexts/EventContext.tsx:94 | appending to a sorted list and sorting is inserting in place |
| EventContext.FromDoc | src/contexts/EventContext.tsx:50-58 | a loaded event has the document's id, date and status, and `amountPaid` defaults to 0 |
| EventContext.NewEvent | src/contexts/EventContext.tsx:78-86 | a new event is confirmed, has nothing paid yet, and empty extra details when none were given |
| EventContext.Apply | src/contexts/EventContext.tsx:127-136 | an update keeps the id; every field the patch carries takes the patch's value (for `extraDetails` also an explicit `undefined`), every other field keeps its value; a patch of only `amountPaid` changes nothing else |
| EventContext.PatchWhere | src/contexts/EventContext.tsx:127-137 | patches every event with the id; the others are untouched and in place |
| EventContext.WithoutId | src/contexts/EventContext.tsx:157 | keeps exactly the events with another id, each as often as before |
| EventContext.Loaded | src/contexts/EventContext.tsx:46-59 | exactly the documents' events (the same multiset, each document's event present), in date order |
| EventContext.EventContext.LoadData | src/contexts/EventContext.tsx:38-65 | the stored events in date order, or an empty list when unconfigured or the read throws; loading ends either way |
| EventContext.EventContext.AddEvent | src/contexts/EventContext.tsx:72-100 | fails without configuration or on a failed write, leaving the list alone; otherwise inserts exactly the new event after every event on or before its date |
| EventContext.EventContext.UpdateEvent | src/contexts/EventContext.tsx:102-144 | fails without configuration or on a failed write, leaving the list alone; otherwise the patched list, re-sorted, with the same events otherwise |
| EventContext.EventContext.DeleteEvent | src/contexts/EventContext.tsx:146-162 | fails without configuration or on a failed write, leaving the list alone; otherwise removes exactly the events with the id and keeps the others in their order (`FilterAppend`) |
| EventContext.EventContext.GetEventById | src/contexts/EventContext.tsx:164-166 | nothing exactly when no event has the id; otherwise the first event with it |
| EventContext.EventContext.GetEventsByMonth | src/contexts/EventContext.tsx:168-173 | exactly the events in the local year and month of the date, in date order |
| EventContext.EventContext.GetEventsByDate | src/contexts/EventContext.tsx:175-181 | exactly the events on the local day of the date, in date order |
| EventContext.DayWithinMonth | src/contexts/EventContext.tsx:168-181 | a day's events are among its month's |
| EventContext.MonthQueryIsFilter | src/contexts/EventContext.tsx:168-173 | the month view's sort changes nothing, since the list is kept sorted |
| EventContext.DayQueryNarrowsMonth | src/contexts/EventContext.tsx:175-181 | the day view is the month view narrowed to the day, in the same order |
| EventContext.DatelessPatchKeepsOrder | src/contexts/EventContext.tsx:127-138 | an update that changes no date leaves every event in place |
| EventContext.AddedIsFound | src/contexts/EventContext.tsx:164-166 | an added event is found by its id |
| EventContext.DeletedIsGone | src/contexts/EventContext.tsx:157-165 | after a delete, the id finds nothing |
| PaymentContext.FromDoc | src/contexts/PaymentContext.tsx:52-60 | a loaded payment has the document's id, event, amount and date; its creation time falls back to now |
| PaymentContext.ToPayments | src/contexts/PaymentContext.tsx:52-60 | one payment per document, in the same order |
| PaymentContext.SelectedDocs | src/contexts/PaymentContext.tsx:45-50 | a document is returned exactly when it belongs to the event and has a payment date |
| PaymentContext.QueryPayments | src/contexts/PaymentContext.tsx:44-60 | exactly the payments of the selected documents (the same multiset): only the event's payments, every one of its dated documents present, in date order |
| PaymentContext.SelectedPayments | src/contexts/PaymentContext.tsx:52-60 | converting selected documents keeps every document's payment and only the event's |
| PaymentContext.NewPayment | src/contexts/PaymentContext.tsx:97-106 | the recorded payment has the new id, the form's event, amount and date, and the event's couple name |
| PaymentContext.Recorded | src/contexts/PaymentContext.tsx:108-111 | the cached list plus the new payment, in date order |
| PaymentContext.TotalAppend | src/contexts/PaymentContext.tsx:115 | the total of two lists together is the sum of their totals |
| PaymentContext.TotalInsert | src/contexts/PaymentContext.tsx:115 | inserting a payment anywhere adds its amount to the total |
| PaymentContext.TotalSort | src/contexts/PaymentContext.tsx:109-115 | sorting payments does not change their total |
| PaymentContext.RecordedTotal | src/contexts/PaymentContext.tsx:108-115 | the total written is the cached total plus the new amount; with nothing cached it is the new amount alone |
| PaymentContext.CacheUpdate | src/contexts/PaymentContext.tsx:61 | storing a sorted list of one event's payments under that event keeps every cached list sorted and pure |
| PaymentContext.PatchedAmount | src/contexts/PaymentContext.tsx:118 | after the amount update every event with the id carries the total |
| PaymentContext.PaymentContext.GetPaymentsForEvent | src/contexts/PaymentContext.tsx:38-69 | without configuration returns nothing and changes nothing; a failed read returns nothing and keeps the cache; otherwise returns the event's payments by date and caches them under the event |
| PaymentContext.PaymentContext.AddPayment | src/contexts/PaymentContext.tsx:71-127 | fails without configuration or for an unknown event, changing nothing; a failed write changes nothing but loading; otherwise caches the payment in date order and sets the event's `amountPaid` to the cached total plus the new amount; if that update fails, the cache is still updated |
| ProspectContext.NewProspect | src/contexts/ProspectContext.tsx:117-122 | a new prospect is a lead, created and updated now |
| ProspectContext.Apply | src/contexts/ProspectContext.tsx:156 | an update keeps id and creation time and stamps the update time; every field the patch carries takes the patch's value (for `notes` also an explicit `undefined`), every other field keeps its value |
| ProspectContext.PatchWhere | src/contexts/ProspectContext.tsx:155-157 | patches every prospect with the id; the others are untouched and in place |
| ProspectContext.WithoutId | src/contexts/ProspectContext.tsx:173 | keeps exactly the prospects with another id |
| ProspectContext.ProspectContext.AddProspect | src/contexts/ProspectContext.tsx:116-145 | a failed write changes nothing; otherwise the new lead is put at the head of the list, and without configuration it never fails |
| ProspectContext.ProspectContext.UpdateProspect | src/contexts/ProspectContext.tsx:147-167 | a failed write changes nothing; otherwise the patched list |
| ProspectContext.ProspectContext.DeleteProspect | src/contexts/ProspectContext.tsx:169-181 | a failed write changes nothing; otherwise removes exactly the prospects with the id |
| ProspectContext.ProspectContext.GetProspectById | src/contexts/ProspectContext.tsx:183-185 | nothing exactly when no prospect has the id; otherwise the first one with it |
| ProspectContext.ProspectContext.GetProspectsByStatus | src/contexts/ProspectContext.tsx:187-191 | exactly the prospects in the status, most recently created first |
| ProspectContext.AddedIsFound | src/contexts/ProspectContext.tsx:133 | a prospect just added is what its id finds, and it is a lead |
| ProspectContext.DeletedIsGone | src/contexts/ProspectContext.tsx:173-185 | after a delete, the id finds nothing |

## Left out

- Signing and verification are abstract: the HMAC of HS256 and the
  token's text encoding are not modelled. A token either
  carries the key it was signed with or is opaque text.
- The cookie's `expires` attribute is recorded, but the browser's own
  dropping of an expired cookie is not modelled. The server's checks (JWT
  `exp` and `expiresAt`) are.
- The session payload is taken as trusted once it verifies. The JSON
  round trip of `expiresAt` (a `Date` serialised to text and read back
  with `new Date`) is modelled as the same millisecond count.
- The Google client library is outside the model: the consent URL's
  encoding, and the code exchange, which is a parameter (`Exchange`).
- The document database is outside the model. Reads and writes are
  parameters, `serverTimestamp()` is `now`, and the `!db` test is folded
  into the configuration flag.
- A query's tie order among equal dates is not modelled (the database
  breaks ties by document id). The model keeps stored order.
- Google.TokenStore.StoreTokens: a failed database call reports a fixed
  message, not the database's own error.
- Google.TokenStore.StoreTokens: the document read and the update or
  create are one atomic step in the model. In the source they are two
  separate calls with no transaction, so two callbacks running at once can
  interleave: both may see no document and both create one, or one update
  may overwrite the other (a lost update). Concurrency is not modelled.
- EventContext.Apply: a required field sent with the value `undefined`
  (a key present but empty) is treated as absent. In the source the spread
  would set that field to `undefined`; the patch types of the required
  fields cannot carry it. For the optional `extraDetails` it is modelled.
- ProspectContext.Apply: a required field sent with the value `undefined`
  is treated as absent, as for events. For the optional `notes`, which the
  prospect form may leave undefined, the overwrite is modelled.
- Google.TokenStore.GetStoredTokens: a failed database call reports a
  fixed message, not the database's own error.
- Http.IsAbsoluteUrl approximates URL parsing by the scheme test that
  decides whether a base URL is usable. Paths and query encoding are not
  parsed.
- Middleware.HandleRequest: the redirect responses are decisions, not
  built URLs. The `redirectedFrom` parameter is the decision's field.
- The route matcher's regular expression is represented by
  `MatcherExclusionsPass` for the prefixes it lists, not as a regular
  expression.
- Date handling uses a fixed offset from UTC for `getFullYear`,
  `getMonth` and `getDate`. Daylight-saving changes are not modelled.
- Date parsing (`new Date(string)`) and `Number()` conversions are not
  modelled. Dates arrive parsed; amounts and counts arrive as integers.
  So `NaN`, and an empty `eventDate` text in an update, are out of reach.
- The login form's fields are strings or absent. Non-text form values and
  repeated keys are not modelled.
- `fetchProspects`, the browser-storage fallback, its example data and
  the effect that saves prospects to browser storage are left out; they
  are I/O on the browser.
- React's scheduling is not modelled. Each `setState(prev => …)` happens
  at once and in program order, and `addPayment` reads the current cache
  rather than the one its render captured.
- The appointments context, the AI flow, the UI, the Firebase
  configuration and the type-only files are not part of this model.

## Findings

| source | as written | input that shows it | evidently intended | confidence | as-written member | corrected member |
|---|---|---|---|---|---|---|
| src/app/api/auth/google/route.ts:11 | the `catch` builds `new URL('/settings', NEXT_PUBLIC_BASE_URL)`, which throws when the base URL is the missing setting, so the error escapes the handler | `GOOGLE_CLIENT_ID` and `GOOGLE_CLIENT_SECRET` set, `NEXT_PUBLIC_BASE_URL` unset | the fallback always redirects to the settings page with `error=google_auth_failed` | not executed | AuthGoogleRoute.GetAsWritten | AuthGoogleRoute.Get |
| src/app/api/oauth2callback/route.ts:10 | the settings URL is built from `NEXT_PUBLIC_BASE_URL` before any guard and outside the `try`, so without it every callback throws, even a plain denial | `?error=access_denied` with `NEXT_PUBLIC_BASE_URL` unset | every callback ends on the settings page with exactly one flag | not executed | OAuthCallbackRoute.ResponseAsWritten | OAuthCallbackRoute.Get |

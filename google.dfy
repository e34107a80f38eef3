/** The Google OAuth client configuration and the delegated-token store: an
    authorization-code grant (section 4.1 of RFC 6749) whose tokens live in
    one document of the `user_tokens` collection. */
module Google {
  import opened Wrappers
  import Session

  const CalendarScope := "https://www.googleapis.com/auth/calendar"
  const CallbackPath := "/api/oauth2callback"
  const TokenCollection := "user_tokens"
  /** The single-administrator deployment keeps one fixed document. */
  const TokenDocId := "admin_google_tokens"
  const MissingConfig := "Variáveis de ambiente do Google não configuradas. Verifique GOOGLE_CLIENT_ID, GOOGLE_CLIENT_SECRET e NEXT_PUBLIC_BASE_URL."
  const NotAuthenticated := "Usuário não autenticado. Não é possível salvar os tokens."

  /** The process environment the client reads; "" stands for unset. */
  datatype GoogleEnv = GoogleEnv(clientId: string, clientSecret: string, baseUrl: string)

  datatype OAuthClient = OAuthClient(clientId: string, clientSecret: string, redirectUri: string)

  /** The options given to `generateAuthUrl`; the provider's library turns
      them into the consent-screen URL. */
  datatype AuthUrlRequest = AuthUrlRequest(client: OAuthClient, accessType: string, prompt: string, scope: seq<string>)

  predicate Configured(env: GoogleEnv) {
    env.clientId != "" && env.clientSecret != "" && env.baseUrl != ""
  }

  /** `getGoogleOAuth2Client`: fails unless id, secret and base URL are all
      set; the redirect URI is the base URL followed by the callback path. */
  function GetGoogleOAuth2Client(env: GoogleEnv): (r: Result<OAuthClient, string>)
    ensures r.Success? <==> Configured(env)
    ensures r.Failure? ==> r.error == MissingConfig
    ensures r.Success? ==> r.value.clientId == env.clientId && r.value.clientSecret == env.clientSecret
    ensures r.Success? ==> (&& |r.value.redirectUri| == |env.baseUrl| + |CallbackPath|
                           && r.value.redirectUri[..|env.baseUrl|] == env.baseUrl
                           && r.value.redirectUri[|env.baseUrl|..] == CallbackPath)
  {
    if !Configured(env) then Failure(MissingConfig)
    else
      var uri := env.baseUrl + CallbackPath;
      assert uri[..|env.baseUrl|] == env.baseUrl && uri[|env.baseUrl|..] == CallbackPath;
      Success(OAuthClient(env.clientId, env.clientSecret, uri))
  }

  /** `getGoogleAuthUrl`: offline access and forced consent, so that the
      provider issues a refresh token, for the one calendar scope. */
  function GetGoogleAuthUrl(env: GoogleEnv): (r: Result<AuthUrlRequest, string>)
    ensures r.Success? <==> Configured(env)
    ensures r.Failure? ==> r.error == MissingConfig
    ensures r.Success? ==> r.value.accessType == "offline" && r.value.prompt == "consent"
    ensures r.Success? ==> r.value.scope == [CalendarScope]
    ensures r.Success? ==> GetGoogleOAuth2Client(env) == Success(r.value.client)
  {
    match GetGoogleOAuth2Client(env)
    case Failure(e) => Failure(e)
    case Success(client) => Success(AuthUrlRequest(client, "offline", "consent", [CalendarScope]))
  }

  /** The tokens handed to `storeTokens`; `None` stands for null/undefined. */
  datatype Tokens = Tokens(accessToken: Option<string>, refreshToken: Option<string>, expiryDate: Option<int>)

  /** JavaScript truthiness of an optional string. */
  predicate Present(s: Option<string>) {
    s.Some? && s.value != ""
  }

  /** The stored document; timestamps are the server clock at the write. */
  datatype TokenRecord = TokenRecord(
    userId: string,
    accessToken: Option<string>,
    refreshToken: Option<string>,
    expiryDate: Option<int>,
    createdAt: int,
    updatedAt: int)

  /** `updateDoc` on an existing record: access token and expiry always, the
      refresh token only when a truthy one is supplied. */
  function Merge(rec: TokenRecord, t: Tokens, now: int): (r: TokenRecord)
    ensures r.userId == rec.userId && r.createdAt == rec.createdAt && r.updatedAt == now
    ensures r.accessToken == t.accessToken && r.expiryDate == t.expiryDate
    ensures Present(t.refreshToken) ==> r.refreshToken == t.refreshToken
    ensures !Present(t.refreshToken) ==> r.refreshToken == rec.refreshToken
  {
    rec.(accessToken := t.accessToken,
         refreshToken := if Present(t.refreshToken) then t.refreshToken else rec.refreshToken,
         expiryDate := t.expiryDate,
         updatedAt := now)
  }

  /** `setDoc` when no record exists: the three token fields exactly as given. */
  function Create(user: string, t: Tokens, now: int): (r: TokenRecord)
    ensures r.userId == user && r.accessToken == t.accessToken && r.refreshToken == t.refreshToken
    ensures r.expiryDate == t.expiryDate && r.createdAt == now && r.updatedAt == now
  {
    TokenRecord(user, t.accessToken, t.refreshToken, t.expiryDate, now, now)
  }

  /** The record after one successful `storeTokens` by `user`. */
  function Upsert(existing: Option<TokenRecord>, user: string, t: Tokens, now: int): TokenRecord {
    match existing
    case Some(rec) => Merge(rec, t, now)
    case None => Create(user, t, now)
  }

  /** A session `storeTokens` accepts: present, with a truthy username. */
  predicate Authorised(s: Option<Session.Payload>) {
    s.Some? && s.value.username != ""
  }

  /** The collection after a successful `storeTokens` by `user`: only the
      fixed document changes. */
  function AfterStore(docs: map<string, TokenRecord>, user: string, t: Tokens, now: int): (r: map<string, TokenRecord>)
    ensures r.Keys == docs.Keys + {TokenDocId}
    ensures forall k :: k in docs && k != TokenDocId ==> r[k] == docs[k]
    ensures TokenDocId in docs ==> r[TokenDocId] == Merge(docs[TokenDocId], t, now)
    ensures TokenDocId !in docs ==> r[TokenDocId] == Create(user, t, now)
  {
    docs[TokenDocId := Upsert(if TokenDocId in docs then Some(docs[TokenDocId]) else None, user, t, now)]
  }

  /** The record after a series of successful `storeTokens` calls. */
  function StoreAll(existing: Option<TokenRecord>, user: string, calls: seq<Tokens>, now: int): Option<TokenRecord>
    decreases |calls|
  {
    if calls == [] then existing
    else StoreAll(Some(Upsert(existing, user, calls[0], now)), user, calls[1..], now)
  }

  /** The refresh token that survives a series of writes: the last truthy one
      supplied, or the one already stored. */
  function LastRefresh(stored: Option<string>, calls: seq<Tokens>): Option<string>
    decreases |calls|
  {
    if calls == [] then stored
    else LastRefresh(if Present(calls[0].refreshToken) then calls[0].refreshToken else stored, calls[1..])
  }

  /** Merge semantics over any history: once a record exists, its refresh
      token is the last truthy one written, so a truthy stored refresh token
      is never lost, and owner and creation time never change. */
  lemma {:induction false} RefreshTokenSurvives(rec: TokenRecord, user: string, calls: seq<Tokens>, now: int)
    ensures var r := StoreAll(Some(rec), user, calls, now);
      && r.Some?
      && r.value.refreshToken == LastRefresh(rec.refreshToken, calls)
      && r.value.userId == rec.userId && r.value.createdAt == rec.createdAt
    decreases |calls|
  {
    if calls != [] {
      RefreshTokenSurvives(Merge(rec, calls[0], now), user, calls[1..], now);
    }
  }

  lemma {:induction false} LastRefreshKeepsPresent(stored: Option<string>, calls: seq<Tokens>)
    requires Present(stored)
    ensures Present(LastRefresh(stored, calls))
    decreases |calls|
  {
    if calls != [] {
      LastRefreshKeepsPresent(if Present(calls[0].refreshToken) then calls[0].refreshToken else stored, calls[1..]);
    }
  }

  /** A stored truthy refresh token stays truthy whatever is written later. */
  lemma RefreshTokenNeverLost(rec: TokenRecord, user: string, calls: seq<Tokens>, now: int)
    requires Present(rec.refreshToken)
    ensures var r := StoreAll(Some(rec), user, calls, now); r.Some? && Present(r.value.refreshToken)
  {
    RefreshTokenSurvives(rec, user, calls, now);
    LastRefreshKeepsPresent(rec.refreshToken, calls);
  }

  /** The `user_tokens` collection, by document id. */
  class TokenStore {
    var docs: map<string, TokenRecord>

    constructor(docs: map<string, TokenRecord>)
      ensures this.docs == docs
    {
      this.docs := docs;
    }

    /** `storeTokens`: needs a session with a username, then reads and
        updates or creates the fixed document. `ioOk` is whether the store's
        read and write succeed; a failed call leaves the store unchanged. */
    method StoreTokens(jar: Session.CookieJar, tokens: Tokens, now: int, ioOk: bool) returns (r: Outcome<string>)
      modifies this, jar
      ensures jar.session == Session.CookieAfterRead(old(jar.session), jar.secret, now)
      ensures var s := Session.CurrentSession(old(jar.session), jar.secret, now);
        && (!Authorised(s) ==> r == Fail(NotAuthenticated) && docs == old(docs))
        && (Authorised(s) && !ioOk ==> r.Fail? && docs == old(docs))
        && (Authorised(s) && ioOk ==> r == Pass && docs == AfterStore(old(docs), s.value.username, tokens, now))
    {
      var session := jar.GetSession(now);
      if session.None? || session.value.username == "" {
        return Fail(NotAuthenticated);
      }
      if !ioOk {
        return Fail("store unavailable");
      }
      if TokenDocId in docs {
        docs := docs[TokenDocId := Merge(docs[TokenDocId], tokens, now)];
      } else {
        docs := docs[TokenDocId := Create(session.value.username, tokens, now)];
      }
      return Pass;
    }

    /** `getStoredTokens`: `None` without a session, otherwise the fixed
        document if present. Only the session read may change the jar. */
    method GetStoredTokens(jar: Session.CookieJar, now: int, ioOk: bool) returns (r: Result<Option<TokenRecord>, string>)
      modifies jar
      ensures jar.session == Session.CookieAfterRead(old(jar.session), jar.secret, now)
      ensures var s := Session.CurrentSession(old(jar.session), jar.secret, now);
        && (!Authorised(s) ==> r == Success(None))
        && (Authorised(s) && !ioOk ==> r.Failure?)
        && (Authorised(s) && ioOk ==>
              r == Success(if TokenDocId in docs then Some(docs[TokenDocId]) else None))
    {
      var session := jar.GetSession(now);
      if session.None? || session.value.username == "" {
        return Success(None);
      }
      if !ioOk {
        return Failure("store unavailable");
      }
      if TokenDocId in docs {
        return Success(Some(docs[TokenDocId]));
      }
      return Success(None);
    }
  }
}

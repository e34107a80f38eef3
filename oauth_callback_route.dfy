/** `GET /api/oauth2callback`: the redirection endpoint of the
    authorization-code grant (section 4.1.2 of RFC 6749). It turns the
    provider's answer into a redirect to the settings page carrying exactly
    one flag, and stores the tokens on success. */
module OAuthCallbackRoute {
  import opened Wrappers
  import opened Http
  import Session
  import Google

  datatype Flag =
    | PermissionDenied
    | CodeMissing
    | TokenMissing
    | TokenExchangeFailed
    | Connected

  /** The query parameter a flag is sent under. */
  function FlagKey(f: Flag): string {
    if f == Connected then "success" else "error"
  }

  function FlagValue(f: Flag): string {
    match f
    case PermissionDenied => "google_permission_denied"
    case CodeMissing => "google_code_missing"
    case TokenMissing => "google_token_missing"
    case TokenExchangeFailed => "google_token_exchange_failed"
    case Connected => "google_connected"
  }

  /** Distinct outcomes reach the settings page as distinct parameters. */
  lemma FlagsAreDistinct(f: Flag, g: Flag)
    requires f != g
    ensures (FlagKey(f), FlagValue(f)) != (FlagKey(g), FlagValue(g))
  {
  }

  /** What `getToken(code)` gave: the tokens, or a thrown error. */
  datatype Exchange = Exchanged(tokens: Google.Tokens) | ExchangeThrew

  /** The callback's decision before any write: finish with a flag, or store
      these tokens. */
  datatype Step = Finish(flag: Flag) | Persist(tokens: Google.Tokens)

  /** The guards in source order: `error`, then `code`, then client
      configuration and exchange, then the two tokens. */
  function Plan(code: Option<string>, error: Option<string>, env: Google.GoogleEnv, exchange: Exchange): (s: Step)
    ensures Google.Present(error) ==> s == Finish(PermissionDenied)
    ensures !Google.Present(error) && !Google.Present(code) ==> s == Finish(CodeMissing)
    ensures s.Persist? ==> Google.Present(s.tokens.accessToken) && Google.Present(s.tokens.refreshToken)
    ensures s.Persist? <==> (&& !Google.Present(error) && Google.Present(code) && Google.Configured(env)
                            && exchange.Exchanged?
                            && Google.Present(exchange.tokens.accessToken)
                            && Google.Present(exchange.tokens.refreshToken))
    ensures s.Persist? ==> s.tokens == exchange.tokens
    ensures !Google.Present(error) && Google.Present(code) && (!Google.Configured(env) || exchange.ExchangeThrew?)
            ==> s == Finish(TokenExchangeFailed)
    ensures (&& !Google.Present(error) && Google.Present(code) && Google.Configured(env) && exchange.Exchanged?
             && !(Google.Present(exchange.tokens.accessToken) && Google.Present(exchange.tokens.refreshToken)))
            ==> s == Finish(TokenMissing)
    ensures s != Finish(Connected)
  {
    if Google.Present(error) then Finish(PermissionDenied)
    else if !Google.Present(code) then Finish(CodeMissing)
    else if Google.GetGoogleOAuth2Client(env).Failure? then Finish(TokenExchangeFailed)
    else match exchange
      case ExchangeThrew => Finish(TokenExchangeFailed)
      case Exchanged(t) =>
        if !Google.Present(t.accessToken) || !Google.Present(t.refreshToken) then Finish(TokenMissing)
        else Persist(Google.Tokens(t.accessToken, t.refreshToken, t.expiryDate))
  }

  /** A provider error is looked at before the code, and no exchange result
      is consulted. */
  lemma ErrorCheckedFirst(code: Option<string>, error: Option<string>, env: Google.GoogleEnv, x: Exchange, y: Exchange)
    requires Google.Present(error)
    ensures Plan(code, error, env, x) == Plan(None, error, env, y) == Finish(PermissionDenied)
  {
  }

  /** The settings URL carrying the flag. */
  function FlagUrl(settings: Url, f: Flag): (u: Url)
    ensures u.base == settings.base && u.path == settings.path
    ensures settings.query == map[] ==> u.query == map[FlagKey(f) := FlagValue(f)]
  {
    SetParam(settings, FlagKey(f), FlagValue(f))
  }

  /** Exactly one of `error` and `success` is set on every redirect. */
  lemma ExactlyOneFlag(settings: Url, f: Flag)
    requires settings.query == map[]
    ensures var q := FlagUrl(settings, f).query;
      |q.Keys| == 1 && ("error" in q <==> f != Connected) && ("success" in q <==> f == Connected)
  {
    var q := FlagUrl(settings, f).query;
    assert q.Keys == {FlagKey(f)};
  }

  datatype Response = Redirect(location: Url) | Unhandled

  /** The handler as written, given whether `storeTokens` succeeded: the
      settings URL is built from the configured base URL before any guard,
      so without a usable base URL every request ends in an exception. */
  function ResponseAsWritten(code: Option<string>, error: Option<string>, env: Google.GoogleEnv, exchange: Exchange, stored: bool): (r: Response)
    ensures r.Unhandled? <==> !IsAbsoluteUrl(env.baseUrl)
  {
    match Resolve(SettingsPath, env.baseUrl)
    case None => Unhandled
    case Some(settings) =>
      match Plan(code, error, env, exchange)
      case Finish(f) => Redirect(FlagUrl(settings, f))
      case Persist(_) => Redirect(FlagUrl(settings, if stored then Connected else TokenExchangeFailed))
  }

  /** A provider denial with `NEXT_PUBLIC_BASE_URL` unset escapes as an
      exception instead of reaching the settings page. */
  lemma DenialWithoutBaseUrlEscapes()
    ensures ResponseAsWritten(None, Some("access_denied"), Google.GoogleEnv("client-id", "client-secret", ""), ExchangeThrew, false) == Unhandled
  {
    MissingBaseIsNotAUrl();
  }

  /** The handler as intended (settings URL on the request's origin when the
      base URL is unusable). A rejected request writes nothing; an accepted
      one hands exactly the received tokens to `storeTokens`, and its outcome
      picks `success=google_connected` or `error=google_token_exchange_failed`. */
  method Get(env: Google.GoogleEnv, requestOrigin: string, code: Option<string>, error: Option<string>, exchange: Exchange,
             jar: Session.CookieJar, store: Google.TokenStore, now: int, ioOk: bool) returns (r: Response)
    requires IsAbsoluteUrl(requestOrigin)
    modifies jar, store
    ensures var settings := SettingsUrl(env.baseUrl, requestOrigin);
            var s := Session.CurrentSession(old(jar.session), jar.secret, now);
      match Plan(code, error, env, exchange)
      case Finish(f) =>
        r == Redirect(FlagUrl(settings, f)) && store.docs == old(store.docs) && jar.session == old(jar.session)
      case Persist(t) =>
        && jar.session == Session.CookieAfterRead(old(jar.session), jar.secret, now)
        && (Google.Authorised(s) && ioOk ==>
              r == Redirect(FlagUrl(settings, Connected))
              && store.docs == Google.AfterStore(old(store.docs), s.value.username, t, now))
        && (!(Google.Authorised(s) && ioOk) ==>
              r == Redirect(FlagUrl(settings, TokenExchangeFailed)) && store.docs == old(store.docs))
    ensures IsAbsoluteUrl(env.baseUrl) ==>
      r == ResponseAsWritten(code, error, env, exchange,
                             Google.Authorised(Session.CurrentSession(old(jar.session), jar.secret, now)) && ioOk)
  {
    var settings := SettingsUrl(env.baseUrl, requestOrigin);
    var step := Plan(code, error, env, exchange);
    match step {
      case Finish(f) =>
        return Redirect(FlagUrl(settings, f));
      case Persist(t) =>
        var stored := store.StoreTokens(jar, t, now, ioOk);
        if stored.Pass? {
          return Redirect(FlagUrl(settings, Connected));
        }
        return Redirect(FlagUrl(settings, TokenExchangeFailed));
    }
  }
}

/** `GET /api/auth/google`: send the browser to the provider's consent
    screen, or back to the settings page with an error flag. */
module AuthGoogleRoute {
  import opened Wrappers
  import opened Http
  import Google

  const AuthFailed := "google_auth_failed"

  datatype Response =
    | RedirectToProvider(request: Google.AuthUrlRequest)
    | Redirect(location: Url)
    /** An exception escaped the handler (the framework answers 500). */
    | Unhandled

  /** The handler as written: the fallback builds its settings URL from the
      configured base URL inside the `catch`, so when the base URL is the
      missing piece of configuration the fallback itself throws. */
  function GetAsWritten(env: Google.GoogleEnv): (r: Response)
    ensures r.RedirectToProvider? <==> Google.Configured(env)
    ensures r.Unhandled? <==> !Google.Configured(env) && !IsAbsoluteUrl(env.baseUrl)
    ensures r.RedirectToProvider? ==> Google.GetGoogleAuthUrl(env) == Success(r.request)
    ensures r.Redirect? ==> r.location == Url(env.baseUrl, SettingsPath, map["error" := AuthFailed])
  {
    match Google.GetGoogleAuthUrl(env)
    case Success(request) => RedirectToProvider(request)
    case Failure(_) =>
      match Resolve(SettingsPath, env.baseUrl)
      case None => Unhandled
      case Some(settings) => Redirect(SetParam(settings, "error", AuthFailed))
  }

  /** With client id and secret set but no base URL, an exception escapes. */
  lemma MissingBaseUrlEscapes()
    ensures GetAsWritten(Google.GoogleEnv("client-id", "client-secret", "")) == Unhandled
  {
    MissingBaseIsNotAUrl();
  }

  /** The handler as intended: every path ends in a redirect; the fallback
      uses the request's own origin when the base URL is unusable. */
  function Get(env: Google.GoogleEnv, requestOrigin: string): (r: Response)
    requires IsAbsoluteUrl(requestOrigin)
    ensures !r.Unhandled?
    ensures r.RedirectToProvider? <==> Google.Configured(env)
    ensures r.RedirectToProvider? ==> Google.GetGoogleAuthUrl(env) == Success(r.request)
    ensures r.Redirect? ==> r.location.path == SettingsPath && r.location.query == map["error" := AuthFailed]
    ensures IsAbsoluteUrl(env.baseUrl) ==> r == GetAsWritten(env)
  {
    match Google.GetGoogleAuthUrl(env)
    case Success(request) => RedirectToProvider(request)
    case Failure(_) => Redirect(SetParam(SettingsUrl(env.baseUrl, requestOrigin), "error", AuthFailed))
  }
}

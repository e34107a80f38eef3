/** The session manager: a signed, time-limited token (a JWT signed with
    HS256, RFC 7519 and section 3.2 of RFC 7518) kept in one cookie.

    The signature is abstract: a `Signed(jwt)` token is a well-formed compact
    JWT whose signature checks under `jwt.key`; any other cookie text is
    `Opaque`. Encoding is a constructor, hence injective. Times are integer
    milliseconds (`Date.now()`); JWT claims are seconds. */
module Session {
  import opened Wrappers

  const CookieName := "session"
  const Algorithm := "HS256"
  /** `Date.now() + 24 * 60 * 60 * 1000` */
  const DayMs := 24 * 60 * 60 * 1000
  /** `setExpirationTime('1d')` */
  const DaySeconds := 24 * 60 * 60
  const MissingSecret := "SESSION_SECRET is not defined in environment variables."

  datatype Payload = Payload(username: string, expiresAt: int)

  /** A signed token: header algorithm, claims and the key it was signed with. */
  datatype Jwt = Jwt(alg: string, payload: Payload, iat: int, exp: int, key: string)

  datatype Token = Signed(jwt: Jwt) | Opaque(text: string)

  /** JavaScript truthiness of the cookie text: only the empty string is falsy. */
  predicate Truthy(t: Token) {
    t.Signed? || t.text != ""
  }

  /** JWT `NumericDate` of a millisecond instant (`Math.floor(ms / 1000)`). */
  function Epoch(ms: int): int {
    ms / 1000
  }

  /** `encrypt`: sign the payload with the secret, issued now, valid one day. */
  function Encrypt(p: Payload, secret: string, now: int): (r: Result<Token, string>)
    ensures r.Failure? <==> secret == ""
    ensures r.Failure? ==> r.error == MissingSecret
    ensures r.Success? ==> r.value.Signed? && r.value.jwt.payload == p
    ensures r.Success? ==> r.value.jwt.key == secret && r.value.jwt.alg == Algorithm
    ensures r.Success? ==> r.value.jwt.iat == Epoch(now) && r.value.jwt.exp == Epoch(now) + DaySeconds
  {
    if secret == "" then Failure(MissingSecret)
    else Success(Signed(Jwt(Algorithm, p, Epoch(now), Epoch(now) + DaySeconds, secret)))
  }

  /** What `jwtVerify` with `algorithms: ['HS256']` accepts: the right
      algorithm, a signature under the secret, and an `exp` still ahead. */
  predicate Verifies(jwt: Jwt, secret: string, now: int) {
    jwt.alg == Algorithm && jwt.key == secret && Epoch(now) < jwt.exp
  }

  /** `decrypt`: the payload, or `None` (never an error) for a missing or empty
      token, a missing secret or a token that does not verify. */
  function Decrypt(token: Option<Token>, secret: string, now: int): (r: Option<Payload>)
    ensures token.None? || !Truthy(token.value) ==> r.None?
    ensures secret == "" ==> r.None?
    ensures r.Some? <==> token.Some? && token.value.Signed? && secret != "" && Verifies(token.value.jwt, secret, now)
    ensures r.Some? ==> r.value == token.value.jwt.payload
  {
    if token.None? || !Truthy(token.value) then None
    else if secret == "" then None
    else match token.value
      case Signed(jwt) => if Verifies(jwt, secret, now) then Some(jwt.payload) else None
      case Opaque(_) => None
  }

  /** A token signed with any other key never decodes. */
  lemma ForgedTokenRejected(jwt: Jwt, secret: string, now: int)
    requires jwt.key != secret
    ensures Decrypt(Some(Signed(jwt)), secret, now) == None
  {
  }

  /** The codec round trip: decoding what `Encrypt` produced at `signedAt`
      gives back the payload exactly while `exp` (one day after the signing
      second) is ahead, and nothing afterwards. */
  lemma EncryptDecrypt(p: Payload, secret: string, signedAt: int, now: int)
    requires secret != ""
    ensures Decrypt(Some(Encrypt(p, secret, signedAt).value), secret, now)
         == if Epoch(now) < Epoch(signedAt) + DaySeconds then Some(p) else None
  {
  }

  datatype SameSite = Lax | Strict | NoRestriction

  datatype Cookie = Cookie(value: Token, expires: int, httpOnly: bool, secure: bool, sameSite: SameSite, path: string)

  /** The cookie `createSession` sets for `username` at `now`. */
  function SessionCookie(username: string, secret: string, production: bool, now: int): (r: Result<Cookie, string>)
    ensures r.Failure? <==> secret == ""
    ensures r.Success? ==> r.value.expires == now + DayMs && r.value.httpOnly
    ensures r.Success? ==> r.value.secure == production && r.value.sameSite == Lax && r.value.path == "/"
    ensures r.Success? ==> r.value.value.Signed? && r.value.value.jwt.payload == Payload(username, now + DayMs)
  {
    var expiresAt := now + DayMs;
    match Encrypt(Payload(username, expiresAt), secret, now)
    case Success(token) => Success(Cookie(token, expiresAt, true, production, Lax, "/"))
    case Failure(e) => Failure(e)
  }

  /** What `getSession` returns for the cookie present at `now`: the decoded
      payload if it verifies and its `expiresAt` is still ahead. */
  function CurrentSession(cookie: Option<Cookie>, secret: string, now: int): (r: Option<Payload>)
    ensures r.Some? ==> r.value.expiresAt > now
    ensures r.Some? ==> cookie.Some? && cookie.value.value.Signed? && r.value == cookie.value.value.jwt.payload
    ensures (cookie.Some? && Decrypt(Some(cookie.value.value), secret, now).Some?
             && Decrypt(Some(cookie.value.value), secret, now).value.expiresAt > now)
            ==> r == Decrypt(Some(cookie.value.value), secret, now)
    ensures r.Some? <==> (&& cookie.Some? && cookie.value.value.Signed? && secret != ""
                          && Verifies(cookie.value.value.jwt, secret, now)
                          && cookie.value.value.jwt.payload.expiresAt > now)
  {
    var token := if cookie.Some? then Some(cookie.value.value) else None;
    match Decrypt(token, secret, now)
    case Some(p) => if p.expiresAt > now then Some(p) else None
    case None => None
  }

  /** The cookie left after `getSession` at `now`: a present, non-empty cookie
      that does not give a session is deleted; otherwise nothing changes. */
  function CookieAfterRead(cookie: Option<Cookie>, secret: string, now: int): (r: Option<Cookie>)
    ensures r == cookie || r == None
    ensures CurrentSession(cookie, secret, now).Some? ==> r == cookie
    ensures cookie.None? ==> r == None
    ensures cookie.Some? && Truthy(cookie.value.value) && CurrentSession(cookie, secret, now).None? ==> r == None
    ensures (cookie.Some? && r.None?) <==> (cookie.Some? && Truthy(cookie.value.value) && CurrentSession(cookie, secret, now).None?)
  {
    if CurrentSession(cookie, secret, now).None? && cookie.Some? && Truthy(cookie.value.value) then None
    else cookie
  }

  /** Round trip: within the token's day a freshly created session reads back
      with the same username, and after it the session is gone. */
  lemma CreateThenGet(username: string, secret: string, production: bool, createdAt: int, now: int)
    requires secret != ""
    ensures var c := SessionCookie(username, secret, production, createdAt).value;
      CurrentSession(Some(c), secret, now)
        == if Epoch(now) < Epoch(createdAt) + DaySeconds && now < createdAt + DayMs
           then Some(Payload(username, createdAt + DayMs)) else None
  {
  }

  /** The window is never shorter than a day less one second: any read from
      the creation instant to 23:59:59 later sees the session. */
  lemma SessionLastsADay(username: string, secret: string, production: bool, createdAt: int, now: int)
    requires secret != ""
    requires createdAt <= now < createdAt + DayMs - 1000
    ensures var c := SessionCookie(username, secret, production, createdAt).value;
      CurrentSession(Some(c), secret, now) == Some(Payload(username, createdAt + DayMs))
  {
    CreateThenGet(username, secret, production, createdAt, now);
    assert Epoch(now) < Epoch(createdAt) + DaySeconds;
  }

  /** A second read right after the first changes nothing: a stale cookie is
      removed once. */
  lemma ReadIsIdempotent(cookie: Option<Cookie>, secret: string, now: int)
    ensures CookieAfterRead(CookieAfterRead(cookie, secret, now), secret, now) == CookieAfterRead(cookie, secret, now)
    ensures CurrentSession(CookieAfterRead(cookie, secret, now), secret, now) == CurrentSession(cookie, secret, now)
  {
  }

  datatype Verified = Authenticated(session: Payload) | RedirectTo(path: string)

  /** The request's cookie jar, holding the one `session` cookie, with the
      server's signing secret and production flag. */
  class CookieJar {
    const secret: string
    const production: bool
    var session: Option<Cookie>

    constructor(secret: string, production: bool, session: Option<Cookie>)
      ensures this.secret == secret && this.production == production && this.session == session
    {
      this.secret := secret;
      this.production := production;
      this.session := session;
    }

    /** `createSession`: sets the signed cookie, or throws (changing nothing)
        when the secret is missing. */
    method CreateSession(username: string, now: int) returns (r: Outcome<string>)
      modifies this
      ensures r.Fail? <==> secret == ""
      ensures r.Pass? ==> session == Some(SessionCookie(username, secret, production, now).value)
      ensures r.Fail? ==> session == old(session)
    {
      var c := SessionCookie(username, secret, production, now);
      if c.Failure? {
        return Fail(c.error);
      }
      session := Some(c.value);
      return Pass;
    }

    /** `getSession`: the current session, deleting a stale cookie. */
    method GetSession(now: int) returns (p: Option<Payload>)
      modifies this
      ensures p == CurrentSession(old(session), secret, now)
      ensures session == CookieAfterRead(old(session), secret, now)
    {
      var token := if session.Some? then Some(session.value.value) else None;
      var decoded := Decrypt(token, secret, now);
      if decoded.Some? && decoded.value.expiresAt > now {
        return decoded;
      }
      if token.Some? && Truthy(token.value) {
        DeleteSession();
      }
      return None;
    }

    /** `deleteSession`: removes the cookie, whether or not it is there. */
    method DeleteSession()
      modifies this
      ensures session == None
    {
      session := None;
    }

    /** `verifySession`: the session, or a redirect to `/login` without one. */
    method VerifySession(now: int) returns (v: Verified)
      modifies this
      ensures v == match CurrentSession(old(session), secret, now)
                   case Some(p) => Authenticated(p)
                   case None => RedirectTo("/login")
      ensures session == CookieAfterRead(old(session), secret, now)
    {
      var p := GetSession(now);
      if p.None? {
        return RedirectTo("/login");
      }
      return Authenticated(p.value);
    }
  }

  /** After `deleteSession` no read finds a session, and reading does not
      touch the empty jar. */
  lemma NoSessionAfterDelete(secret: string, now: int)
    ensures CurrentSession(None, secret, now) == None
    ensures CookieAfterRead(None, secret, now) == None
  {
  }
}

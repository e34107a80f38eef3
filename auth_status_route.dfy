/** `GET /api/auth/status`: whether a usable delegated credential is stored. */
module AuthStatusRoute {
  import opened Wrappers
  import Session
  import Google

  datatype Response = Json(isConnected: bool, status: int)

  /** `!!tokens && !!tokens.refresh_token` */
  function IsConnected(rec: Option<Google.TokenRecord>): (b: bool)
    ensures b <==> rec.Some? && Google.Present(rec.value.refreshToken)
  {
    match rec
    case None => false
    case Some(r) => Google.Present(r.refreshToken)
  }

  /** The probe: 200 with the connection state, or 500 with `false` when the
      store read throws. It never writes the token store; its session read
      may remove a stale cookie, as every `getSession` does. */
  method Get(jar: Session.CookieJar, store: Google.TokenStore, now: int, ioOk: bool) returns (r: Response)
    modifies jar
    ensures jar.session == Session.CookieAfterRead(old(jar.session), jar.secret, now)
    ensures var s := Session.CurrentSession(old(jar.session), jar.secret, now);
      && (!Google.Authorised(s) ==> r == Json(false, 200))
      && (Google.Authorised(s) && !ioOk ==> r == Json(false, 500))
      && (Google.Authorised(s) && ioOk ==>
            r == Json(IsConnected(if Google.TokenDocId in store.docs then Some(store.docs[Google.TokenDocId]) else None), 200))
    ensures r.isConnected ==> Google.TokenDocId in store.docs && Google.Present(store.docs[Google.TokenDocId].refreshToken)
  {
    var tokens := store.GetStoredTokens(jar, now, ioOk);
    match tokens {
      case Failure(_) =>
        return Json(false, 500);
      case Success(rec) =>
        return Json(IsConnected(rec), 200);
    }
  }

  /** After a successful callback stored its tokens, the probe reports a
      connection, whether the record was created or merged. */
  lemma ConnectedAfterStore(docs: map<string, Google.TokenRecord>, user: string, t: Google.Tokens, now: int)
    requires Google.Present(t.refreshToken)
    ensures IsConnected(Some(Google.AfterStore(docs, user, t, now)[Google.TokenDocId]))
  {
  }

  /** Once connected, later token writes (say a re-authorization that omits
      the refresh token) never disconnect. */
  lemma StaysConnected(rec: Google.TokenRecord, user: string, calls: seq<Google.Tokens>, now: int)
    requires IsConnected(Some(rec))
    ensures IsConnected(Google.StoreAll(Some(rec), user, calls, now))
  {
    Google.RefreshTokenNeverLost(rec, user, calls, now);
  }
}

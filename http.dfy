/** URLs as the route handlers build them: `new URL(path, base)` followed by
    `searchParams.set`. */
module Http {
  import opened Wrappers

  const SettingsPath := "/settings"

  /** A URL resolved against `base`; `query` holds the search parameters. */
  datatype Url = Url(base: string, path: string, query: map<string, string>)

  predicate IsAsciiLetter(c: char) {
    'a' <= c <= 'z' || 'A' <= c <= 'Z'
  }

  predicate IsSchemeChar(c: char) {
    IsAsciiLetter(c) || '0' <= c <= '9' || c == '+' || c == '-' || c == '.'
  }

  /** `base` starts with a URL scheme (a letter, then letters, digits, `+`,
      `-` or `.`, then `:`), which `new URL` demands of a base URL. */
  predicate IsAbsoluteUrl(base: string) {
    exists i :: 1 <= i < |base| && base[i] == ':' && IsAsciiLetter(base[0])
                && forall j :: 1 <= j < i ==> IsSchemeChar(base[j])
  }

  /** `new URL(path, base)` for an absolute path: `None` where it throws. */
  function Resolve(path: string, base: string): (r: Option<Url>)
    ensures r.Some? <==> IsAbsoluteUrl(base)
    ensures r.Some? ==> r.value == Url(base, path, map[])
  {
    if IsAbsoluteUrl(base) then Some(Url(base, path, map[])) else None
  }

  /** `url.searchParams.set(key, value)` */
  function SetParam(u: Url, key: string, value: string): (r: Url)
    ensures r.base == u.base && r.path == u.path
    ensures r.query.Keys == u.query.Keys + {key} && r.query[key] == value
    ensures forall k :: k in u.query && k != key ==> r.query[k] == u.query[k]
  {
    u.(query := u.query[key := value])
  }

  /** The settings page on the configured base URL, or on the request's own
      origin when the configured base is not a usable URL. */
  function SettingsUrl(baseUrl: string, requestOrigin: string): (r: Url)
    requires IsAbsoluteUrl(requestOrigin)
    ensures r.path == SettingsPath && r.query == map[]
    ensures r.base == if IsAbsoluteUrl(baseUrl) then baseUrl else requestOrigin
    ensures IsAbsoluteUrl(baseUrl) ==> Resolve(SettingsPath, baseUrl) == Some(r)
  {
    match Resolve(SettingsPath, baseUrl)
    case Some(u) => u
    case None => Url(requestOrigin, SettingsPath, map[])
  }

  lemma MissingBaseIsNotAUrl()
    ensures !IsAbsoluteUrl("")
    ensures Resolve(SettingsPath, "") == None
  {
  }
}

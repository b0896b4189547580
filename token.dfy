/** server/src/utils/token.ts: token lifetimes, the structural guards on
    decoded claims, and the cookie options both tokens are set with. */
module TokenUtils {
  import opened Wrappers
  import opened Json
  import opened Jwt
  import opened Types

  /** `accessTokenExpiration = '1m'`, in seconds. */
  const AccessTokenExpiration: int := 60
  /** `refreshTokenExpiration = '3m'`, in seconds. */
  const RefreshTokenExpiration: int := 180

  /** The claims a refresh token carries once the guard has accepted them.
      `role` is any string: the guard does not restrict it to USER/ADMIN. */
  datatype RefreshTokenData = RefreshTokenData(jti: string, id: string, role: string, exp: int, iat: int)

  datatype AccessTokenData = AccessTokenData(id: string, role: string, exp: int, iat: int)

  /** `isRefreshTokenData(value)` */
  predicate IsRefreshTokenData(value: Value) {
    if !Truthy(value) || !IsObjectType(value) then false
    else
      IsObjectType(value)
      && HasString(value, "jti")
      && HasString(value, "id")
      && HasString(value, "role")
      && HasNumber(value, "exp")
      && HasNumber(value, "iat")
  }

  /** `isAccessTokenData(value)` */
  predicate IsAccessTokenData(value: Value) {
    if !Truthy(value) || !IsObjectType(value) then false
    else
      IsObjectType(value)
      && HasString(value, "id")
      && HasString(value, "role")
      && HasNumber(value, "exp")
      && HasNumber(value, "iat")
  }

  /** The narrowed view TypeScript gives `value` once the guard holds. */
  function AsRefreshTokenData(value: Value): (d: RefreshTokenData)
    requires IsRefreshTokenData(value)
    ensures value.fields["jti"] == Str(d.jti) && value.fields["id"] == Str(d.id)
    ensures value.fields["role"] == Str(d.role)
    ensures value.fields["exp"] == Num(d.exp) && value.fields["iat"] == Num(d.iat)
  {
    RefreshTokenData(value.fields["jti"].s, value.fields["id"].s, value.fields["role"].s,
                     value.fields["exp"].n, value.fields["iat"].n)
  }

  /** The claims object of a refresh token with the given data. */
  function RefreshClaims(d: RefreshTokenData): Value {
    Obj(map["jti" := Str(d.jti), "id" := Str(d.id), "role" := Str(d.role),
            "exp" := Num(d.exp), "iat" := Num(d.iat)])
  }

  /** Null, undefined and every non-object value fail both guards. */
  lemma GuardsRejectNonObjects(value: Value)
    requires !value.Obj?
    ensures !IsRefreshTokenData(value) && !IsAccessTokenData(value)
  {
  }

  /** Reading the claims back out of a refresh-claims object gives the data
      it was built from, whatever string the role is. */
  lemma RefreshClaimsRoundTrip(d: RefreshTokenData)
    ensures IsRefreshTokenData(RefreshClaims(d)) && IsAccessTokenData(RefreshClaims(d))
    ensures AsRefreshTokenData(RefreshClaims(d)) == d
  {
  }

  /** The access guard checks a subset of the refresh guard's fields. */
  lemma RefreshGuardImpliesAccessGuard(value: Value)
    requires IsRefreshTokenData(value)
    ensures IsAccessTokenData(value)
  {
  }

  /** A payload without `jti` passes the access guard but not the refresh guard. */
  lemma NoJtiIsAccessOnly(value: Value)
    requires IsAccessTokenData(value) && Field(value, "jti").None?
    ensures !IsRefreshTokenData(value)
  {
  }

  /** `getAccessTokenCookieOptions()`; `isDevelopment` is
      `process.env.NODE_ENV === 'development'`. */
  function AccessTokenCookieOptions(isDevelopment: bool): (o: CookieOptions)
    ensures o.httpOnly && o.path == None
    ensures o.maxAge == AccessTokenExpiration * 1000
    ensures o.secure == !isDevelopment
    ensures o.sameSite == (if isDevelopment then Lax else NoneSameSite)
  {
    CookieOptions(true, 1 * 60 * 1000, if isDevelopment then false else true,
                  if isDevelopment then Lax else NoneSameSite, None)
  }

  /** `getRefreshTokenCookieOptions()`: scoped to `/api/auth`, with a one-day
      `maxAge` that does not match the refresh token's three-minute lifetime. */
  function RefreshTokenCookieOptions(isDevelopment: bool): (o: CookieOptions)
    ensures o.httpOnly && o.path == Some("/api/auth")
    ensures o.maxAge == 86400000 && o.maxAge != RefreshTokenExpiration * 1000
    ensures o.secure == !isDevelopment
    ensures o.sameSite == (if isDevelopment then Lax else NoneSameSite)
  {
    CookieOptions(true, 24 * 60 * 60 * 1000, if isDevelopment then false else true,
                  if isDevelopment then Lax else NoneSameSite, Some("/api/auth"))
  }

  /** Both cookies follow one secure/sameSite policy and differ in scope
      (RFC 6265 section 5.3: a cookie is identified by name, domain and path). */
  lemma CookiePolicyShared(isDevelopment: bool)
    ensures AccessTokenCookieOptions(isDevelopment).secure == RefreshTokenCookieOptions(isDevelopment).secure
    ensures AccessTokenCookieOptions(isDevelopment).sameSite == RefreshTokenCookieOptions(isDevelopment).sameSite
    ensures AccessTokenCookieOptions(isDevelopment).path != RefreshTokenCookieOptions(isDevelopment).path
  {
  }

  /** The `{id, role}` payload both token kinds start from; `id` is the
      user's `_id`, which the JSON encoding turns into its hex string. */
  function IdentityPayload(id: string, role: string): map<string, Value> {
    map["id" := Str(id), "role" := Str(role)]
  }

  /** The refresh token login and registration issue: `{id, role, jti}`
      with the fixed refresh lifetime. */
  function IssueRefreshToken(id: string, role: string, jti: string, nowS: int): (t: Token)
    ensures t.secret == RefreshSecret
    ensures IsRefreshTokenData(Decode(t))
    ensures AsRefreshTokenData(Decode(t)) == RefreshTokenData(jti, id, role, nowS + RefreshTokenExpiration, nowS)
  {
    Sign(RefreshSecret, IdentityPayload(id, role)["jti" := Str(jti)], nowS, RefreshTokenExpiration)
  }

  /** The access token every issuing path signs: `{id, role}` with the fixed
      access lifetime, and no `jti`. */
  function IssueAccessToken(id: string, role: string, nowS: int): (t: Token)
    ensures t.secret == AccessSecret && "jti" !in t.claims
    ensures IsAccessTokenData(Decode(t)) && !IsRefreshTokenData(Decode(t))
    ensures t.claims["id"] == Str(id) && t.claims["role"] == Str(role)
    ensures t.claims["exp"] == Num(nowS + AccessTokenExpiration)
  {
    Sign(AccessSecret, IdentityPayload(id, role), nowS, AccessTokenExpiration)
  }

  /** The two cookies every issuing path sets, access first. */
  function TokenCookies(access: Token, refresh: Token, isDevelopment: bool): (cs: seq<CookieOp>)
    ensures |cs| == 2
    ensures cs[0] == SetCookie("accessToken", access, AccessTokenCookieOptions(isDevelopment))
    ensures cs[1] == SetCookie("refreshToken", refresh, RefreshTokenCookieOptions(isDevelopment))
  {
    [SetCookie("accessToken", access, AccessTokenCookieOptions(isDevelopment)),
     SetCookie("refreshToken", refresh, RefreshTokenCookieOptions(isDevelopment))]
  }
}

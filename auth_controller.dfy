/** The authentication handlers (server/src/controllers/authController and
    server/src/controllers/userController/createUser): refresh-token
    rotation, logout, login, the session probe, and registration.

    Signature verification is an input: `verified` is `None` when
    `jwt.verify` reports an error and otherwise the decoded claims. Password
    comparison and hashing, the fresh `jti` and `_id`, the login and
    registration schemas, and `jwt.decode` are inputs too. `nowMs` is
    `Date.now()`. */
module AuthController {
  import opened Wrappers
  import opened Json
  import opened Jwt
  import opened Types
  import opened TokenUtils
  import opened Blacklist
  import opened Store
  import opened ServerUtils
  import opened Text

  function Max(a: int, b: int): int {
    if a >= b then a else b
  }

  /** `Math.floor(Date.now() / 1000)` */
  function Seconds(nowMs: nat): nat {
    nowMs / 1000
  }

  const NoRefreshTokenMessage: string := "A `refreshToken` must be sent with the request."
  const InvalidRefreshTokenMessage: string := "Invalid `refreshToken`."
  const NotRefreshTokenDataMessage: string := "The `refreshToken` was not of type `RefreshTokenData`."
  const UserNotFoundMessage: string := "User not found."
  const BlacklistedMessage: string := "The `refreshToken` was previously blacklisted."
  const GrantedMessage: string := "The request for a new `accessToken` was granted."
  const TokenCreationFailedMessage: string := "The process failed while creating tokens."
  const SessionDeniedMessage: string := "Invalid `refreshToken`. Session data denied."
  const SessionGuardFailedMessage: string := "Session request failed at RefreshTokenData check."
  /** The start of the message MongoDB's unique index raises; the rest of
      it (collection, index, key) is not modelled. */
  const DuplicateKeyMessage: string := "E11000 duplicate key error"

  /** The rotated refresh token: `{id, role}` with no `jti`, signed to
      expire after `max(0, exp - now)` seconds. */
  function RotatedRefreshToken(d: RefreshTokenData, nowS: int): Token {
    Sign(RefreshSecret, IdentityPayload(d.id, d.role), nowS, Max(0, d.exp - nowS))
  }

  /** `refreshAccessToken` as a function of the user table. */
  function Refresh(users: seq<User>, cookie: Value, verified: Option<Value>, nowMs: nat, isDevelopment: bool): (o: Outcome)
    ensures !o.res.success ==> o.users == users && o.res.cookies == [] && o.res.status == 401
    ensures o.res.success ==> o.res.status == 200 && o.res.code == Some(OK) && o.res.data == NoData
    ensures |o.users| == |users|
  {
    if !Truthy(cookie) then Outcome(Failure(401, BAD_REQUEST, NoRefreshTokenMessage), users)
    else if verified.None? then Outcome(Failure(401, UNAUTHORIZED, InvalidRefreshTokenMessage), users)
    else if !IsRefreshTokenData(verified.value) then Outcome(Failure(401, UNAUTHORIZED, NotRefreshTokenDataMessage), users)
    else
      var d := AsRefreshTokenData(verified.value);
      match FirstIndex(users, ById(d.id))
      case None => Outcome(Failure(401, UNAUTHORIZED, UserNotFoundMessage), users)
      case Some(i) => Rotation(users, i, d, nowMs, isDevelopment)
  }

  /** The rest of `refreshAccessToken` once the user at `i` is loaded: the
      blacklist check, the two new tokens, and the sweep and revocation. */
  function Rotation(users: seq<User>, i: nat, d: RefreshTokenData, nowMs: nat, isDevelopment: bool): (o: Outcome)
    requires i < |users|
    ensures !o.res.success ==> o.users == users && o.res == Failure(401, UNAUTHORIZED, BlacklistedMessage)
    ensures o.res.success <==> !Contains(users[i].blacklist, d.jti)
    ensures o.res.success ==>
              o.users == users[i := users[i].(blacklist := SweepThenRevoke(users[i].blacklist, d.jti, d.exp, nowMs))]
  {
    if Contains(users[i].blacklist, d.jti) then Outcome(Failure(401, UNAUTHORIZED, BlacklistedMessage), users)
    else
      var nowS := Seconds(nowMs);
      var refresh := RotatedRefreshToken(d, nowS);
      var access := IssueAccessToken(d.id, d.role, nowS);
      var user := users[i].(blacklist := SweepThenRevoke(users[i].blacklist, d.jti, d.exp, nowMs));
      Outcome(Response(200, Some(OK), NoData, None, GrantedMessage, true, TokenCookies(access, refresh, isDevelopment)),
              users[i := user])
  }

  /** The handler: the early-return chain, then the cookies, the inline
      sweep, the guarded revocation and the save. */
  method RefreshAccessToken(db: Db, cookie: Value, verified: Option<Value>, nowMs: nat, isDevelopment: bool)
    returns (res: Response)
    modifies db
    ensures Outcome(res, db.users) == Refresh(old(db.users), cookie, verified, nowMs, isDevelopment)
    ensures db.todos == old(db.todos)
  {
    if !Truthy(cookie) {
      return Failure(401, BAD_REQUEST, NoRefreshTokenMessage);
    }
    if verified.None? {
      return Failure(401, UNAUTHORIZED, InvalidRefreshTokenMessage);
    }
    var decoded := verified.value;
    if !IsRefreshTokenData(decoded) {
      return Failure(401, UNAUTHORIZED, NotRefreshTokenDataMessage);
    }
    var d := AsRefreshTokenData(decoded);
    var found := FirstIndex(db.users, ById(d.id));
    if found.None? {
      return Failure(401, UNAUTHORIZED, UserNotFoundMessage);
    }
    res := Rotate(db, found.value, d, nowMs, isDevelopment);
  }

  /** The blacklist check, the new cookies, the inline sweep, the guarded
      revocation and the save, for the user at `i`. */
  method Rotate(db: Db, i: nat, d: RefreshTokenData, nowMs: nat, isDevelopment: bool) returns (res: Response)
    requires i < |db.users|
    modifies db
    ensures Outcome(res, db.users) == Rotation(old(db.users), i, d, nowMs, isDevelopment)
    ensures db.todos == old(db.todos)
  {
    var user := db.users[i];
    if Contains(user.blacklist, d.jti) {
      return Failure(401, UNAUTHORIZED, BlacklistedMessage);
    }
    var now := Seconds(nowMs);
    var newRefreshToken := RotatedRefreshToken(d, now);
    var newAccessToken := IssueAccessToken(d.id, d.role, now);
    var cookies := TokenCookies(newAccessToken, newRefreshToken, isDevelopment);
    var blacklist := Sweep(user.blacklist, nowMs);
    if d.jti != "" && d.exp != 0 {
      blacklist := blacklist + [BlacklistEntry(d.jti, d.exp * 1000)];
    }
    assert blacklist == SweepThenRevoke(user.blacklist, d.jti, d.exp, nowMs);
    db.users := db.users[i := user.(blacklist := blacklist)];
    res := Response(200, Some(OK), NoData, None, GrantedMessage, true, cookies);
  }

  /** The rejection chain, in order: a missing cookie is 401 with code
      BAD_REQUEST; a verification error, a failed guard, an unknown user
      and a blacklisted `jti` are 401 UNAUTHORIZED. None of them writes. */
  lemma RefreshRejections(users: seq<User>, cookie: Value, verified: Option<Value>, nowMs: nat, isDevelopment: bool)
    ensures var o := Refresh(users, cookie, verified, nowMs, isDevelopment);
            (!Truthy(cookie) ==> o.res == Failure(401, BAD_REQUEST, NoRefreshTokenMessage))
            && (Truthy(cookie) && verified.None? ==> o.res == Failure(401, UNAUTHORIZED, InvalidRefreshTokenMessage))
            && (Truthy(cookie) && verified.Some? && !IsRefreshTokenData(verified.value) ==>
                  o.res == Failure(401, UNAUTHORIZED, NotRefreshTokenDataMessage))
            && (Truthy(cookie) && verified.Some? && IsRefreshTokenData(verified.value)
                && FindOne(users, ById(AsRefreshTokenData(verified.value).id)).None? ==>
                  o.res == Failure(401, UNAUTHORIZED, UserNotFoundMessage))
            && (Truthy(cookie) && verified.Some? && IsRefreshTokenData(verified.value)
                && FindOne(users, ById(AsRefreshTokenData(verified.value).id)).Some?
                && Contains(FindOne(users, ById(AsRefreshTokenData(verified.value).id)).value.blacklist,
                            AsRefreshTokenData(verified.value).jti) ==>
                  o.res == Failure(401, UNAUTHORIZED, BlacklistedMessage))
  {
  }

  /** What a presented refresh token must satisfy for rotation. */
  predicate Rotates(users: seq<User>, cookie: Value, verified: Option<Value>) {
    Truthy(cookie) && verified.Some? && IsRefreshTokenData(verified.value)
    && FindOne(users, ById(AsRefreshTokenData(verified.value).id)).Some?
    && !Contains(FindOne(users, ById(AsRefreshTokenData(verified.value).id)).value.blacklist,
                 AsRefreshTokenData(verified.value).jti)
  }

  /** Rotation: exactly when the chain passes, the presenting user's
      blacklist becomes its unexpired entries followed by the presented
      token (`exp` converted to milliseconds), no other record changes, and
      both new tokens carry the old `id` and `role`. The new refresh token
      has no `jti` and expires at `max(exp, now)`: never later than the old
      token unless the old one had already expired. */
  lemma RefreshRotation(users: seq<User>, cookie: Value, verified: Option<Value>, nowMs: nat, isDevelopment: bool)
    ensures Refresh(users, cookie, verified, nowMs, isDevelopment).res.success <==> Rotates(users, cookie, verified)
    ensures Rotates(users, cookie, verified) ==>
              var o := Refresh(users, cookie, verified, nowMs, isDevelopment);
              var d := AsRefreshTokenData(verified.value);
              var i := FirstIndex(users, ById(d.id)).value;
              var nowS := Seconds(nowMs);
              && o.users == users[i := users[i].(blacklist := SweepThenRevoke(users[i].blacklist, d.jti, d.exp, nowMs))]
              && |o.res.cookies| == 2
              && o.res.cookies[0].SetCookie? && o.res.cookies[0].name == "accessToken"
              && o.res.cookies[0].token.claims["id"] == Str(d.id) && o.res.cookies[0].token.claims["role"] == Str(d.role)
              && o.res.cookies[0].token.claims["exp"] == Num(nowS + AccessTokenExpiration)
              && o.res.cookies[1].SetCookie? && o.res.cookies[1].name == "refreshToken"
              && o.res.cookies[1].token.secret == RefreshSecret
              && o.res.cookies[1].token.claims["id"] == Str(d.id) && o.res.cookies[1].token.claims["role"] == Str(d.role)
              && "jti" !in o.res.cookies[1].token.claims
              && o.res.cookies[1].token.claims["exp"] == Num(Max(d.exp, nowS))
              && (d.exp >= nowS ==> Max(d.exp, nowS) == d.exp)
  {
    if Rotates(users, cookie, verified) {
      var d := AsRefreshTokenData(verified.value);
      var nowS := Seconds(nowMs);
      var t := RotatedRefreshToken(d, nowS);
      assert t.claims["exp"] == Num(nowS + Max(0, d.exp - nowS));
    }
  }

  /** Replay protection: once a token with a non-empty `jti` and a non-zero
      `exp` has been rotated, presenting it again, at any later time, is
      rejected as blacklisted. */
  lemma RefreshReplayRejected(users: seq<User>, cookie: Value, verified: Option<Value>, nowMs: nat, laterMs: nat,
                              isDevelopment: bool)
    requires Rotates(users, cookie, verified)
    requires AsRefreshTokenData(verified.value).jti != "" && AsRefreshTokenData(verified.value).exp != 0
    ensures var after := Refresh(users, cookie, verified, nowMs, isDevelopment).users;
            Refresh(after, cookie, verified, laterMs, isDevelopment).res == Failure(401, UNAUTHORIZED, BlacklistedMessage)
  {
    var d := AsRefreshTokenData(verified.value);
    var i := FirstIndex(users, ById(d.id)).value;
    var user := users[i].(blacklist := SweepThenRevoke(users[i].blacklist, d.jti, d.exp, nowMs));
    RefreshRotation(users, cookie, verified, nowMs, isDevelopment);
    FirstIndexAfterUpdate(users, i, user);
    RevokedIsContained(users[i].blacklist, d.jti, d.exp, nowMs);
  }

  /** A rotated refresh token has no `jti`, so presenting it once it
      verifies fails the refresh guard: refresh answers 401 and the session
      probe 500. */
  lemma RotatedTokenFailsGuard(users: seq<User>, cookie: Value, d: RefreshTokenData, nowMs: nat, isDevelopment: bool)
    requires Truthy(cookie) && cookie.Str?
    ensures var rotated := Some(Decode(RotatedRefreshToken(d, Seconds(nowMs))));
            Refresh(users, cookie, rotated, nowMs, isDevelopment).res == Failure(401, UNAUTHORIZED, NotRefreshTokenDataMessage)
            && GetSession(cookie, rotated).status == 500
  {
    var t := RotatedRefreshToken(d, Seconds(nowMs));
    assert Field(Decode(t), "jti").None?;
  }

  /** `logOut` as a function of the user table. */
  function LogOut(users: seq<User>, cookie: Value, verified: Option<Value>, nowMs: nat, isDevelopment: bool): (o: Outcome)
    ensures o.res.status == 200 && o.res.code == Some(OK) && o.res.success && o.res.data == NoData
    ensures |o.users| == |users|
  {
    var users' :=
      if !Truthy(cookie) || verified.None? || !IsRefreshTokenData(verified.value) then users
      else RevokePresented(users, AsRefreshTokenData(verified.value), nowMs);
    Outcome(Response(200, Some(OK), NoData, None, "Log out successful.", true, ClearedCookies(isDevelopment)), users')
  }

  /** The `try` block of `logOut` once the token has passed the guard:
      the user it names, if stored, gets the sweep and the revocation. */
  function RevokePresented(users: seq<User>, d: RefreshTokenData, nowMs: nat): (r: seq<User>)
    ensures |r| == |users|
  {
    match FirstIndex(users, ById(d.id))
    case None => users
    case Some(i) => users[i := users[i].(blacklist := SweepThenRevoke(users[i].blacklist, d.jti, d.exp, nowMs))]
  }

  /** Only a blacklist can change, only a record with the token's id is
      touched, and a stored user with that id is swept and given the
      token. */
  lemma RevokePresentedTouchesOnlyNamed(users: seq<User>, d: RefreshTokenData, nowMs: nat)
    ensures var r := RevokePresented(users, d, nowMs);
            (forall j :: 0 <= j < |users| ==> r[j] == users[j].(blacklist := r[j].blacklist))
            && (forall j :: 0 <= j < |users| && users[j].id != d.id ==> r[j] == users[j])
    ensures (exists j :: 0 <= j < |users| && users[j].id == d.id) ==>
              exists j :: 0 <= j < |users| && users[j].id == d.id
                          && RevokePresented(users, d, nowMs)[j].blacklist
                               == SweepThenRevoke(users[j].blacklist, d.jti, d.exp, nowMs)
  {
    if exists j :: 0 <= j < |users| && users[j].id == d.id {
      var j :| 0 <= j < |users| && users[j].id == d.id;
      assert ById(d.id)(users[j]);
    }
  }

  /** Both cookies cleared with their own scope and `maxAge: 0`. */
  function ClearedCookies(isDevelopment: bool): (cs: seq<CookieOp>)
    ensures |cs| == 2 && cs[0].ClearCookie? && cs[1].ClearCookie?
    ensures cs[0].name == "accessToken" && cs[1].name == "refreshToken"
    ensures cs[0].options.maxAge == 0 && cs[1].options.maxAge == 0
    ensures cs[0].options.path == AccessTokenCookieOptions(isDevelopment).path
    ensures cs[1].options.path == RefreshTokenCookieOptions(isDevelopment).path
  {
    [ClearCookie("accessToken", AccessTokenCookieOptions(isDevelopment).(maxAge := 0)),
     ClearCookie("refreshToken", RefreshTokenCookieOptions(isDevelopment).(maxAge := 0))]
  }

  /** The handler: a verification failure or anything thrown inside the
      `try` is swallowed; the cookies are cleared and 200 sent regardless. */
  method LogOutHandler(db: Db, cookie: Value, verified: Option<Value>, nowMs: nat, isDevelopment: bool)
    returns (res: Response)
    modifies db
    ensures Outcome(res, db.users) == LogOut(old(db.users), cookie, verified, nowMs, isDevelopment)
    ensures db.todos == old(db.todos)
  {
    if Truthy(cookie) && verified.Some? && IsRefreshTokenData(verified.value) {
      RevokeInPlace(db, AsRefreshTokenData(verified.value), nowMs);
    }
    res := Response(200, Some(OK), NoData, None, "Log out successful.", true, ClearedCookies(isDevelopment));
  }

  /** The `try` block of `logOut`: load the user the token names and, if
      there is one, sweep its blacklist, revoke the token and save. */
  method RevokeInPlace(db: Db, d: RefreshTokenData, nowMs: nat)
    modifies db
    ensures db.users == RevokePresented(old(db.users), d, nowMs)
    ensures db.todos == old(db.todos)
  {
    var found := FirstIndex(db.users, ById(d.id));
    if found.Some? {
      var user := db.users[found.value];
      user := user.(blacklist := Sweep(user.blacklist, nowMs));
      if d.jti != "" && d.exp != 0 {
        user := user.(blacklist := user.blacklist + [BlacklistEntry(d.jti, d.exp * 1000)]);
      }
      db.users := db.users[found.value := user];
    }
  }

  /** Logout writes only when the cookie verifies, passes the guard and
      names an existing user; it then revokes exactly as rotation does, and
      without checking the blacklist first. */
  lemma LogOutRevokesOnlyVerified(users: seq<User>, cookie: Value, verified: Option<Value>, nowMs: nat, isDevelopment: bool)
    ensures var o := LogOut(users, cookie, verified, nowMs, isDevelopment);
            (!Truthy(cookie) || verified.None? || !IsRefreshTokenData(verified.value)
             || FindOne(users, ById(AsRefreshTokenData(verified.value).id)).None?) ==> o.users == users
    ensures Truthy(cookie) && verified.Some? && IsRefreshTokenData(verified.value)
            && FindOne(users, ById(AsRefreshTokenData(verified.value).id)).Some? ==>
              var d := AsRefreshTokenData(verified.value);
              var i := FirstIndex(users, ById(d.id)).value;
              LogOut(users, cookie, verified, nowMs, isDevelopment).users
                == users[i := users[i].(blacklist := SweepThenRevoke(users[i].blacklist, d.jti, d.exp, nowMs))]
  {
  }

  /** Revoking the same token twice, the second time no earlier than the
      first and before it expires, leaves two identical entries at the end
      of the user's blacklist. */
  lemma RevokePresentedTwice(users: seq<User>, d: RefreshTokenData, now1: nat, now2: nat, i: nat)
    requires FirstIndex(users, ById(d.id)) == Some(i)
    requires d.jti != "" && d.exp != 0 && now1 <= now2 && now2 < d.exp * 1000
    ensures var bl := RevokePresented(RevokePresented(users, d, now1), d, now2)[i].blacklist;
            |bl| >= 2 && bl[|bl| - 1] == bl[|bl| - 2] == BlacklistEntry(d.jti, d.exp * 1000)
  {
    var user := users[i].(blacklist := SweepThenRevoke(users[i].blacklist, d.jti, d.exp, now1));
    assert ById(d.id)(users[i]);
    var once := users[i := user];
    assert RevokePresented(users, d, now1) == once;
    FirstIndexAfterUpdate(users, i, user);
    var bl := SweepThenRevoke(once[i].blacklist, d.jti, d.exp, now2);
    assert RevokePresented(once, d, now2)[i] == once[i].(blacklist := bl);
    assert once[i].blacklist == SweepThenRevoke(users[i].blacklist, d.jti, d.exp, now1);
    RevokeTwiceDuplicates(users[i].blacklist, d.jti, d.exp, now1, now2);
    assert RevokePresented(RevokePresented(users, d, now1), d, now2)[i].blacklist == bl;
  }

  /** Logging out twice with the same live cookie leaves two identical
      entries at the end of the user's blacklist. */
  lemma LogOutTwiceDuplicates(users: seq<User>, cookie: Value, verified: Option<Value>, now1: nat, now2: nat,
                              isDevelopment: bool)
    requires Truthy(cookie) && verified.Some? && IsRefreshTokenData(verified.value)
    requires FindOne(users, ById(AsRefreshTokenData(verified.value).id)).Some?
    requires AsRefreshTokenData(verified.value).jti != "" && now1 <= now2
    requires now2 < AsRefreshTokenData(verified.value).exp * 1000
    ensures var d := AsRefreshTokenData(verified.value);
            var i := FirstIndex(users, ById(d.id)).value;
            var once := LogOut(users, cookie, verified, now1, isDevelopment).users;
            var twice := LogOut(once, cookie, verified, now2, isDevelopment).users;
            var bl := twice[i].blacklist;
            |bl| >= 2 && bl[|bl| - 1] == bl[|bl| - 2] == BlacklistEntry(d.jti, d.exp * 1000)
  {
    var d := AsRefreshTokenData(verified.value);
    var once := LogOut(users, cookie, verified, now1, isDevelopment).users;
    assert once == RevokePresented(users, d, now1);
    assert LogOut(once, cookie, verified, now2, isDevelopment).users == RevokePresented(once, d, now2);
    RevokePresentedTwice(users, d, now1, now2, FirstIndex(users, ById(d.id)).value);
  }

  /** `logIn`. `compare` is `bcrypt.compare`, `decode` is `jwt.decode`;
      `schemaAccepts` is `LoginUserSchema.safeParse(...).success`. The
      record's `save()` changes nothing, so the user table is not an
      output. */
  function LogIn(users: seq<User>, schemaAccepts: bool, email: string, password: string,
                 compare: (string, string) -> bool, jti: string, nowS: int,
                 decode: Token -> Value, isDevelopment: bool): (r: Response)
    ensures r.success ==> r.status == 200 && r.code == Some(OK) && r.data.SessionData? && |r.cookies| == 2
    ensures !r.success ==> r.cookies == [] && r.data == NoData
  {
    if !schemaAccepts then Failure(400, INVALID_CREDENTIALS, "Invalid credentials. (1)")
    else match FindOne(users, ByEmail(email))
      case None => Failure(400, INVALID_CREDENTIALS, "Invalid credentials. (2)")
      case Some(existingUser) =>
        if !existingUser.isActive then Failure(409, INVALID_CREDENTIALS, "Invalid credentials. (3)")
        else if !compare(password, existingUser.password) then Failure(400, INVALID_CREDENTIALS, "Invalid credentials. (4)")
        else
          var role := RoleName(existingUser.role);
          var refreshToken := IssueRefreshToken(existingUser.id, role, jti, nowS);
          var decoded := decode(refreshToken);
          if !IsRefreshTokenData(decoded) then Failure(500, INTERNAL_SERVER_ERROR, TokenCreationFailedMessage)
          else
            var accessToken := IssueAccessToken(existingUser.id, role, nowS);
            var d := AsRefreshTokenData(decoded);
            Response(200, Some(OK), SessionData(Session(existingUser.id, role, d.exp, d.iat)), None,
                     "Login success.", true, TokenCookies(accessToken, refreshToken, isDevelopment))
  }

  /** The four credential failures, in order, all coded INVALID_CREDENTIALS:
      schema (400), no user with exactly that email (400), inactive user
      (409, before the password is compared), wrong password (400). */
  lemma LogInRejections(users: seq<User>, schemaAccepts: bool, email: string, password: string,
                        compare: (string, string) -> bool, jti: string, nowS: int,
                        decode: Token -> Value, isDevelopment: bool)
    ensures var r := LogIn(users, schemaAccepts, email, password, compare, jti, nowS, decode, isDevelopment);
            var found := FindOne(users, ByEmail(email));
            (!schemaAccepts ==> r == Failure(400, INVALID_CREDENTIALS, "Invalid credentials. (1)"))
            && (schemaAccepts && found.None? ==> r == Failure(400, INVALID_CREDENTIALS, "Invalid credentials. (2)"))
            && (schemaAccepts && found.Some? && !found.value.isActive ==>
                  r == Failure(409, INVALID_CREDENTIALS, "Invalid credentials. (3)"))
            && (schemaAccepts && found.Some? && found.value.isActive && !compare(password, found.value.password) ==>
                  r == Failure(400, INVALID_CREDENTIALS, "Invalid credentials. (4)"))
  {
  }

  /** With the real `jwt.decode`, valid credentials for an active user
      always succeed: the guard cannot fail, the session is the issued
      refresh token's `exp`/`iat`, and the refresh token carries the fresh
      `jti` while the access token carries none. */
  lemma LogInSucceeds(users: seq<User>, email: string, password: string,
                      compare: (string, string) -> bool, jti: string, nowS: int, isDevelopment: bool)
    requires FindOne(users, ByEmail(email)).Some?
    requires FindOne(users, ByEmail(email)).value.isActive
    requires compare(password, FindOne(users, ByEmail(email)).value.password)
    ensures var u := FindOne(users, ByEmail(email)).value;
            var r := LogIn(users, true, email, password, compare, jti, nowS, Decode, isDevelopment);
            && r.success
            && r.data == SessionData(Session(u.id, RoleName(u.role), nowS + RefreshTokenExpiration, nowS))
            && r.cookies[1].token.claims["jti"] == Str(jti)
            && "jti" !in r.cookies[0].token.claims
  {
    var u := FindOne(users, ByEmail(email)).value;
    var t := IssueRefreshToken(u.id, RoleName(u.role), jti, nowS);
    assert t.claims["jti"] == Decode(t).fields["jti"];
  }

  /** A `jwt.decode` that loses a claim makes login answer 500 with no
      cookies. */
  lemma LogInGuardFailure(users: seq<User>, email: string, password: string,
                          compare: (string, string) -> bool, jti: string, nowS: int, isDevelopment: bool)
    requires FindOne(users, ByEmail(email)).Some?
    requires FindOne(users, ByEmail(email)).value.isActive
    requires compare(password, FindOne(users, ByEmail(email)).value.password)
    ensures LogIn(users, true, email, password, compare, jti, nowS, (t: Token) => Null, isDevelopment)
            == Failure(500, INTERNAL_SERVER_ERROR, TokenCreationFailedMessage)
  {
  }

  /** `getSession`: the refresh cookie's claims, verified but not checked
      against the blacklist. */
  function GetSession(cookie: Value, verified: Option<Value>): (r: Response)
    ensures r.success <==> cookie.Str? && cookie.s != "" && verified.Some? && IsRefreshTokenData(verified.value)
    ensures r.success ==>
              var d := AsRefreshTokenData(verified.value);
              r.status == 200 && r.data == SessionData(Session(d.id, d.role, d.exp, d.iat))
    ensures !r.success ==> r.cookies == [] && r.data == NoData
    ensures (!cookie.Str? || cookie.s == "" || verified.None?) ==> r.status == 401
    ensures cookie.Str? && cookie.s != "" && verified.Some? && !IsRefreshTokenData(verified.value) ==> r.status == 500
  {
    if !Truthy(cookie) || !cookie.Str? then Failure(401, UNAUTHORIZED, SessionDeniedMessage)
    else if verified.None? then Failure(401, UNAUTHORIZED, SessionDeniedMessage)
    else if !IsRefreshTokenData(verified.value) then Failure(500, INTERNAL_SERVER_ERROR, SessionGuardFailedMessage)
    else
      var d := AsRefreshTokenData(verified.value);
      Response(200, Some(OK), SessionData(Session(d.id, d.role, d.exp, d.iat)), None, "Success.", true, [])
  }

  /** The session probe ignores the blacklist: a revoked token that still
      verifies still yields its session. */
  lemma SessionIgnoresBlacklist(users: seq<User>, cookie: Value, verified: Option<Value>, nowMs: nat, isDevelopment: bool)
    requires cookie.Str? && cookie.s != ""
    requires Rotates(users, cookie, verified)
    requires AsRefreshTokenData(verified.value).jti != "" && AsRefreshTokenData(verified.value).exp != 0
    ensures var after := Refresh(users, cookie, verified, nowMs, isDevelopment).users;
            Refresh(after, cookie, verified, nowMs, isDevelopment).res.status == 401
            && GetSession(cookie, verified).status == 200
  {
    RefreshReplayRejected(users, cookie, verified, nowMs, nowMs, isDevelopment);
  }

  /** The fields of a registration the schema has accepted. */
  datatype Registration = Registration(userName: string, firstName: string, lastName: string, email: string)

  /** `createUser` as a function of the user table. `schema` stands for
      `getCreateUserSchema({ existingUser, password }).safeParse(...)`,
      given the case-insensitive lookup's result; `hash` is `bcrypt.hash`
      of the raw password; `newId` is the new document's `_id`. A record
      whose `_id` or exact email is already stored makes `save()` throw,
      which `handleServerError` turns into a 500. */
  function Register(users: seq<User>, email: string, password: string,
                    schema: Option<User> -> Validation<Registration>, hash: string -> string,
                    newId: string, jti: string, nowS: int, decode: Token -> Value,
                    isDevelopment: bool): (o: Outcome)
    ensures o.res.success ==> o.res.status == 201 && o.res.code == Some(CREATED) && |o.users| == |users| + 1
    ensures !o.res.success ==> o.users == users && o.res.cookies == []
  {
    var existingUser := FindOne(users, ByEmailIgnoringCase(email));
    match schema(existingUser)
    case Invalid(errors) =>
      Outcome(Response(400, Some(FORM_ERRORS), NoData, Some(errors), "The form data is invalid.", false, []), users)
    case Valid(validated) =>
      var newUser := NewUser(newId, validated.userName, validated.firstName, validated.lastName,
                             Lower(validated.email), hash(password));
      var role := RoleName(newUser.role);
      var refreshToken := IssueRefreshToken(newId, role, jti, nowS);
      var decoded := decode(refreshToken);
      if !IsRefreshTokenData(decoded) then
        Outcome(Failure(500, INTERNAL_SERVER_ERROR, TokenCreationFailedMessage), users)
      else
        Saved(users, newUser, AsRefreshTokenData(decoded), IssueAccessToken(newId, role, nowS), refreshToken, isDevelopment)
  }

  /** `newUser.save()` and the 201 answer: a record whose `_id` or exact
      email is already stored is refused by the unique indexes. */
  function Saved(users: seq<User>, newUser: User, d: RefreshTokenData, accessToken: Token, refreshToken: Token,
                 isDevelopment: bool): (o: Outcome)
    ensures o.res.success <==> forall u :: u in users ==> u.id != newUser.id && u.email != newUser.email
    ensures o.res.success ==> o.users == users + [newUser] && o.res.status == 201 && o.res.code == Some(CREATED)
    ensures !o.res.success ==> o.users == users && o.res.status == 500 && o.res.cookies == []
  {
    if exists u :: u in users && (u.id == newUser.id || u.email == newUser.email) then
      Outcome(HandleServerError(isDevelopment, ErrorThrown(DuplicateKeyMessage)), users)
    else
      Outcome(Response(201, Some(CREATED), SessionData(Session(newUser.id, RoleName(newUser.role), d.exp, d.iat)), None,
                       "Registration successful.", true, TokenCookies(accessToken, refreshToken, isDevelopment)),
              users + [newUser])
  }

  /** The handler: lookup, validation, the new record, token issuance and
      the guard, then `save()` (which the unique indexes can reject). */
  method CreateUser(db: Db, email: string, password: string,
                    schema: Option<User> -> Validation<Registration>, hash: string -> string,
                    newId: string, jti: string, nowS: int, decode: Token -> Value, isDevelopment: bool)
    returns (res: Response)
    modifies db
    ensures Outcome(res, db.users) == Register(old(db.users), email, password, schema, hash, newId, jti, nowS, decode, isDevelopment)
    ensures db.todos == old(db.todos)
  {
    var existingUser := FindOne(db.users, ByEmailIgnoringCase(email));
    var validationResult := schema(existingUser);
    if validationResult.Invalid? {
      return Response(400, Some(FORM_ERRORS), NoData, Some(validationResult.errors), "The form data is invalid.", false, []);
    }
    var validated := validationResult.data;
    var newUser := NewUser(newId, validated.userName, validated.firstName, validated.lastName,
                           Lower(validated.email), hash(password));
    var refreshToken := IssueRefreshToken(newId, RoleName(newUser.role), jti, nowS);
    var decoded := decode(refreshToken);
    if !IsRefreshTokenData(decoded) {
      return Failure(500, INTERNAL_SERVER_ERROR, TokenCreationFailedMessage);
    }
    var accessToken := IssueAccessToken(newId, RoleName(newUser.role), nowS);
    res := Save(db, newUser, AsRefreshTokenData(decoded), accessToken, refreshToken, isDevelopment);
  }

  /** `await newUser.save()` and the response built after it. */
  method Save(db: Db, newUser: User, d: RefreshTokenData, accessToken: Token, refreshToken: Token, isDevelopment: bool)
    returns (res: Response)
    modifies db
    ensures Outcome(res, db.users) == Saved(old(db.users), newUser, d, accessToken, refreshToken, isDevelopment)
    ensures db.todos == old(db.todos)
  {
    if exists u :: u in db.users && (u.id == newUser.id || u.email == newUser.email) {
      return HandleServerError(isDevelopment, ErrorThrown(DuplicateKeyMessage));
    }
    db.users := db.users + [newUser];
    res := Response(201, Some(CREATED), SessionData(Session(newUser.id, RoleName(newUser.role), d.exp, d.iat)), None,
                    "Registration successful.", true, TokenCookies(accessToken, refreshToken, isDevelopment));
  }

  /** A successful registration stores the validated email lower-cased, the
      hash of the raw password, and the schema defaults, and answers with
      the session of the token it issued. */
  lemma RegisterStoresNewUser(users: seq<User>, email: string, password: string,
                              schema: Option<User> -> Validation<Registration>, hash: string -> string,
                              newId: string, jti: string, nowS: int, isDevelopment: bool)
    requires schema(FindOne(users, ByEmailIgnoringCase(email))).Valid?
    requires forall u :: u in users ==> u.id != newId
    requires forall u :: u in users ==> u.email != Lower(schema(FindOne(users, ByEmailIgnoringCase(email))).data.email)
    ensures var v := schema(FindOne(users, ByEmailIgnoringCase(email))).data;
            var o := Register(users, email, password, schema, hash, newId, jti, nowS, Decode, isDevelopment);
            && o.res.success
            && o.users[..|users|] == users
            && o.users[|users|] == NewUser(newId, v.userName, v.firstName, v.lastName, Lower(v.email), hash(password))
            && o.users[|users|].role == USER && o.users[|users|].isActive && o.users[|users|].blacklist == []
            && o.res.data == SessionData(Session(newId, "USER", nowS + RefreshTokenExpiration, nowS))
  {
    var v := schema(FindOne(users, ByEmailIgnoringCase(email))).data;
    var newUser := NewUser(newId, v.userName, v.firstName, v.lastName, Lower(v.email), hash(password));
    assert RoleName(newUser.role) == "USER";
    var t := IssueRefreshToken(newId, "USER", jti, nowS);
    var d := AsRefreshTokenData(Decode(t));
    var o := Saved(users, newUser, d, IssueAccessToken(newId, "USER", nowS), t, isDevelopment);
    assert Register(users, email, password, schema, hash, newId, jti, nowS, Decode, isDevelopment) == o;
    assert o.users == users + [newUser];
    assert o.users[..|users|] == users;
  }

  /** The existence lookup ignores case: a schema that refuses any existing
      user turns away `Bob@example.com` once `bob@example.com` is stored. */
  lemma RegisterRejectsCaseVariant(users: seq<User>, email: string, password: string,
                                   schema: Option<User> -> Validation<Registration>, hash: string -> string,
                                   newId: string, jti: string, nowS: int, decode: Token -> Value,
                                   isDevelopment: bool, stored: User)
    requires stored in users && Lower(stored.email) == Lower(email)
    requires forall existing: Option<User> :: existing.Some? ==> schema(existing).Invalid?
    ensures Register(users, email, password, schema, hash, newId, jti, nowS, decode, isDevelopment).res.status == 400
    ensures Register(users, email, password, schema, hash, newId, jti, nowS, decode, isDevelopment).users == users
  {
    assert ByEmailIgnoringCase(email)(stored);
  }

  /** Registration lower-cases the stored email but login matches the
      typed email exactly: a user who registered as `Bob@example.com`
      cannot log in by typing it the same way. */
  lemma MixedCaseEmailCannotLogIn(users: seq<User>, email: string, password: string,
                                  compare: (string, string) -> bool, jti: string, nowS: int,
                                  decode: Token -> Value, isDevelopment: bool)
    requires Lower(email) != email
    requires forall u :: u in users ==> u.email == Lower(u.email)
    ensures LogIn(users, true, email, password, compare, jti, nowS, decode, isDevelopment)
            == Failure(400, INVALID_CREDENTIALS, "Invalid credentials. (2)")
  {
    forall u | u in users
      ensures !ByEmail(email)(u)
    {
    }
  }

  /** A successful registration appends exactly the new record. */
  lemma RegisterAppends(users: seq<User>, email: string, password: string,
                        schema: Option<User> -> Validation<Registration>, hash: string -> string,
                        newId: string, jti: string, nowS: int, decode: Token -> Value, isDevelopment: bool)
    requires Register(users, email, password, schema, hash, newId, jti, nowS, decode, isDevelopment).res.success
    ensures schema(FindOne(users, ByEmailIgnoringCase(email))).Valid?
    ensures var v := schema(FindOne(users, ByEmailIgnoringCase(email))).data;
            Register(users, email, password, schema, hash, newId, jti, nowS, decode, isDevelopment).users
              == users + [NewUser(newId, v.userName, v.firstName, v.lastName, Lower(v.email), hash(password))]
  {
  }

  /** Every record registration stores has a lower-case email. */
  lemma RegisterKeepsEmailsLowerCase(users: seq<User>, email: string, password: string,
                                     schema: Option<User> -> Validation<Registration>, hash: string -> string,
                                     newId: string, jti: string, nowS: int, decode: Token -> Value,
                                     isDevelopment: bool)
    requires forall u :: u in users ==> u.email == Lower(u.email)
    ensures forall u :: u in Register(users, email, password, schema, hash, newId, jti, nowS, decode, isDevelopment).users
              ==> u.email == Lower(u.email)
  {
    var o := Register(users, email, password, schema, hash, newId, jti, nowS, decode, isDevelopment);
    if o.res.success {
      RegisterAppends(users, email, password, schema, hash, newId, jti, nowS, decode, isDevelopment);
      var v := schema(FindOne(users, ByEmailIgnoringCase(email))).data;
      var newUser := NewUser(newId, v.userName, v.firstName, v.lastName, Lower(v.email), hash(password));
      LowerIdempotent(v.email);
      forall u | u in o.users
        ensures u.email == Lower(u.email)
      {
        if u !in users {
          assert u == newUser;
        }
      }
    }
  }
}

/** The request gates in server/src/middleware: `authMiddleware` (every
    rejection 401), `roleMiddleware(allowedRole)` (every rejection 403) and
    `userMiddleware` (never rejects). `verified` is the outcome of
    `jwt.verify` on the access cookie: `None` for an error, otherwise the
    decoded payload. */
module Middleware {
  import opened Wrappers
  import opened Json
  import opened Types
  import opened Store

  /** What a gate decides: send a response, or call `next()` with the
      `req.user` it leaves. */
  datatype Gate = Reject(res: Response) | Proceed(user: Option<Value>)

  const NoAccessTokenMessage: string := "No accessToken. Authentication failed."
  const InvalidAccessTokenMessage: string := "Invalid `accessToken`."
  const UserMissingMessage: string := "Authentication failed: unable to find user."
  const IdMissingMessage: string := "Authentication failed: data missing from decoded cookie."
  const NoRoleMessage: string := "Forbidden: Unable to determine user role."
  const WrongRoleMessage: string := "Forbidden: The user lacks the requisite permission for this request."

  /** `User.findById(decoded.id)`: the record whose `_id` is the claimed id;
      an id that is not a string matches no record. */
  function ClaimedUser(users: seq<User>, decoded: Value): (r: Option<User>)
    ensures r.Some? ==> r.value in users && Field(decoded, "id") == Some(Str(r.value.id))
    ensures r.None? && Field(decoded, "id").Some? && Field(decoded, "id").value.Str? ==>
              forall u :: u in users ==> u.id != Field(decoded, "id").value.s
  {
    match Field(decoded, "id")
    case Some(Str(id)) => FindOne(users, ById(id))
    case _ => None
  }

  /** `accessToken && typeof accessToken === 'string'` */
  predicate HasAccessCookie(cookie: Value) {
    Truthy(cookie) && cookie.Str?
  }

  /** `authMiddleware`: the rejection chain, then `req.user` is the record
      re-read by id with `+role` (never the token's claims). */
  function AuthGate(users: seq<User>, cookie: Value, verified: Option<Value>): (g: Gate)
    ensures g.Reject? ==> g.res.status == 401 && g.res.code == Some(UNAUTHORIZED) && !g.res.success && g.res.cookies == []
    ensures g.Proceed? <==> HasAccessCookie(cookie) && verified.Some? && ClaimedUser(users, verified.value).Some?
    ensures g.Proceed? ==> g.user == Some(Selected(ClaimedUser(users, verified.value).value, DefaultHidden - {"role"}))
  {
    if !HasAccessCookie(cookie) then Reject(Failure(401, UNAUTHORIZED, NoAccessTokenMessage))
    else if verified.None? then Reject(Failure(401, UNAUTHORIZED, InvalidAccessTokenMessage))
    else if Field(verified.value, "id").None? then Reject(Failure(401, UNAUTHORIZED, IdMissingMessage))
    else match ClaimedUser(users, verified.value)
      case None => Reject(Failure(401, UNAUTHORIZED, UserMissingMessage))
      case Some(user) => Proceed(Some(Selected(user, DefaultHidden - {"role"})))
  }

  /** The four rejections, in order, with their messages. */
  lemma AuthGateRejections(users: seq<User>, cookie: Value, verified: Option<Value>)
    ensures var g := AuthGate(users, cookie, verified);
            (!HasAccessCookie(cookie) ==> g == Reject(Failure(401, UNAUTHORIZED, NoAccessTokenMessage)))
            && (HasAccessCookie(cookie) && verified.None? ==> g == Reject(Failure(401, UNAUTHORIZED, InvalidAccessTokenMessage)))
            && (HasAccessCookie(cookie) && verified.Some? && Field(verified.value, "id").None? ==>
                  g == Reject(Failure(401, UNAUTHORIZED, IdMissingMessage)))
            && (HasAccessCookie(cookie) && verified.Some? && Field(verified.value, "id").Some?
                && ClaimedUser(users, verified.value).None? ==>
                  g == Reject(Failure(401, UNAUTHORIZED, UserMissingMessage)))
  {
  }

  /** `userMiddleware`'s decision: the record re-read by id with
      `-password` (the paths hidden by default stay hidden), or nothing. */
  function UserGate(users: seq<User>, cookie: Value, verified: Option<Value>): (user: Option<Value>)
    ensures user.Some? <==> HasAccessCookie(cookie) && verified.Some? && ClaimedUser(users, verified.value).Some?
    ensures user.Some? ==> user == Some(Selected(ClaimedUser(users, verified.value).value, DefaultHidden))
    ensures user.Some? ==> "password" !in user.value.fields
  {
    if HasAccessCookie(cookie) && verified.Some? && Field(verified.value, "id").Some? then
      match ClaimedUser(users, verified.value)
      case Some(u) => Some(Selected(u, DefaultHidden))
      case None => None
    else None
  }

  /** The mutable request the two callback-style gates work on. */
  class Request {
    var user: Option<Value>
    var sent: Option<Response>
    var nextCalls: nat

    constructor ()
      ensures user == None && sent == None && nextCalls == 0
    {
      user := None;
      sent := None;
      nextCalls := 0;
    }

    /** `authMiddleware(req, res, next)`: either one response and no
        `next`, or `req.user` assigned and `next` called once. */
    method Authenticate(users: seq<User>, cookie: Value, verified: Option<Value>)
      modifies this
      ensures AuthGate(users, cookie, verified).Reject? ==>
                sent == Some(AuthGate(users, cookie, verified).res) && nextCalls == old(nextCalls) && user == old(user)
      ensures AuthGate(users, cookie, verified).Proceed? ==>
                sent == old(sent) && nextCalls == old(nextCalls) + 1 && user == AuthGate(users, cookie, verified).user
    {
      if !HasAccessCookie(cookie) {
        sent := Some(Failure(401, UNAUTHORIZED, NoAccessTokenMessage));
        return;
      }
      if verified.None? {
        sent := Some(Failure(401, UNAUTHORIZED, InvalidAccessTokenMessage));
        return;
      }
      var decoded := verified.value;
      if Field(decoded, "id").Some? {
        var found := ClaimedUser(users, decoded);
        if found.None? {
          sent := Some(Failure(401, UNAUTHORIZED, UserMissingMessage));
          return;
        }
        user := Some(Selected(found.value, DefaultHidden - {"role"}));
      } else {
        sent := Some(Failure(401, UNAUTHORIZED, IdMissingMessage));
        return;
      }
      nextCalls := nextCalls + 1;
    }

    /** `userMiddleware(req, res, next)`: never responds, calls `next`
        once, and assigns `req.user` only when a record is found. */
    method AttachUser(users: seq<User>, cookie: Value, verified: Option<Value>)
      modifies this
      ensures sent == old(sent) && nextCalls == old(nextCalls) + 1
      ensures UserGate(users, cookie, verified).Some? ==> user == UserGate(users, cookie, verified)
      ensures UserGate(users, cookie, verified).None? ==> user == old(user)
    {
      if HasAccessCookie(cookie) {
        if verified.Some? && Field(verified.value, "id").Some? {
          var found := ClaimedUser(users, verified.value);
          if found.Some? {
            user := Some(Selected(found.value, DefaultHidden));
          }
        }
        nextCalls := nextCalls + 1;
      } else {
        nextCalls := nextCalls + 1;
      }
    }
  }

  /** `req.user?.role` */
  function UserRole(user: Option<Value>): Value {
    if user.Some? then Prop(user.value, "role") else Undefined
  }

  /** `roleMiddleware(allowedRole)`: 403 without a `code` when the role is
      missing or different; otherwise `next()` with `req.user` untouched. */
  function RoleGate(allowedRole: Role, user: Option<Value>): (g: Gate)
    ensures g.Reject? ==> g.res.status == 403 && g.res.code == None && !g.res.success && g.res.data == NoData
    ensures g.Proceed? <==> UserRole(user) == Str(RoleName(allowedRole))
    ensures g.Proceed? ==> g.user == user
    ensures !Truthy(UserRole(user)) ==> g.Reject? && g.res.message == NoRoleMessage
  {
    var userRole := UserRole(user);
    if !Truthy(userRole) then Reject(Response(403, None, NoData, None, NoRoleMessage, false, []))
    else if userRole != Str(RoleName(allowedRole)) then Reject(Response(403, None, NoData, None, WrongRoleMessage, false, []))
    else Proceed(user)
  }

  /** `authMiddleware` then `roleMiddleware(role)`: the role gate sees the
      stored role, because the first gate loads it with `+role`. A request
      gets through exactly when its access token names a stored user with
      that role; otherwise the refusal is 401 when the first gate refuses
      and 403 when the second does. */
  lemma AuthThenRole(users: seq<User>, cookie: Value, verified: Option<Value>, role: Role)
    ensures var a := AuthGate(users, cookie, verified);
            a.Proceed? ==>
              (RoleGate(role, a.user).Proceed? <==> ClaimedUser(users, verified.value).value.role == role)
  {
    var a := AuthGate(users, cookie, verified);
    if a.Proceed? {
      var u := ClaimedUser(users, verified.value).value;
      assert UserRole(a.user) == Str(RoleName(u.role));
      if u.role != role {
        assert RoleName(u.role) != RoleName(role);
      }
    }
  }

  /** `userMiddleware` leaves the role out, so a role gate placed after it
      refuses every request, signed in or not. */
  lemma UserGateThenRoleAlwaysForbidden(users: seq<User>, cookie: Value, verified: Option<Value>, role: Role)
    ensures RoleGate(role, UserGate(users, cookie, verified)) ==
            Reject(Response(403, None, NoData, None, NoRoleMessage, false, []))
  {
    var user := UserGate(users, cookie, verified);
    if user.Some? {
      assert "role" !in user.value.fields;
    }
  }

  /** Both gates identify the same record; they differ only in whether the
      role is attached. */
  lemma GatesAgreeOnUser(users: seq<User>, cookie: Value, verified: Option<Value>)
    ensures AuthGate(users, cookie, verified).Proceed? <==> UserGate(users, cookie, verified).Some?
    ensures AuthGate(users, cookie, verified).Proceed? ==>
              var u := ClaimedUser(users, verified.value).value;
              AuthGate(users, cookie, verified).user.value.fields
                == UserGate(users, cookie, verified).value.fields["role" := Str(RoleName(u.role))]
  {
    if AuthGate(users, cookie, verified).Proceed? {
      DefaultProjectionHidesSecrets(ClaimedUser(users, verified.value).value);
    }
  }
}

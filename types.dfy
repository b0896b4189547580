/** Signed tokens as the server issues them. Signing and verification
    themselves are cryptography and are not modelled: a token is the claims
    it carries together with the secret it was signed with. */
module Jwt {
  import opened Json

  datatype Secret = AccessSecret | RefreshSecret

  datatype Token = Token(secret: Secret, claims: map<string, Value>)

  /** `jwt.sign(payload, secret, { expiresIn })` at time `iatS` (seconds):
      the library adds `iat` and `exp` to the payload. */
  function Sign(secret: Secret, payload: map<string, Value>, iatS: int, expiresInS: int): (t: Token)
    ensures t.secret == secret
    ensures t.claims.Keys == payload.Keys + {"iat", "exp"}
    ensures t.claims["iat"] == Num(iatS) && t.claims["exp"] == Num(iatS + expiresInS)
    ensures forall k :: k in payload && k != "iat" && k != "exp" ==> t.claims[k] == payload[k]
  {
    Token(secret, payload["iat" := Num(iatS)]["exp" := Num(iatS + expiresInS)])
  }

  /** What `jwt.decode` returns for a token this server has just signed. */
  function Decode(t: Token): Value {
    Obj(t.claims)
  }
}

/** The records, codes and response envelope shared by the server's
    handlers (server/src/types/index.ts and the user and todo models). */
module Types {
  import opened Wrappers
  import opened Json
  import opened Jwt

  datatype Role = USER | ADMIN

  function RoleName(r: Role): (s: string)
    ensures s == "USER" || s == "ADMIN"
  {
    match r
    case USER => "USER"
    case ADMIN => "ADMIN"
  }

  datatype Code =
    | OK | CREATED | UPDATED | DELETED
    | BAD_REQUEST | UNAUTHORIZED | FORBIDDEN | NOT_FOUND
    | INVALID_CREDENTIALS | FORM_ERRORS | USER_ARCHIVED
    | INTERNAL_SERVER_ERROR

  /** The client-visible projection of a refresh token. */
  datatype Session = Session(id: string, role: string, sessionExp: int, sessionIat: int)

  /** A revoked refresh token: its `jti` and its expiry in milliseconds. */
  datatype BlacklistEntry = BlacklistEntry(jti: string, expiresAt: int)

  datatype User = User(
    id: string,
    userName: string,
    firstName: string,
    lastName: string,
    email: string,
    image: Option<string>,
    password: string,
    role: Role,
    isActive: bool,
    blacklist: seq<BlacklistEntry>)

  datatype Todo = Todo(id: string, title: string, body: string, completed: bool, owner: string)

  datatype SameSite = Lax | NoneSameSite

  datatype CookieOptions = CookieOptions(
    httpOnly: bool,
    maxAge: int,
    secure: bool,
    sameSite: SameSite,
    path: Option<string>)

  /** A `res.cookie` or `res.clearCookie` call. */
  datatype CookieOp =
    | SetCookie(name: string, token: Token, options: CookieOptions)
    | ClearCookie(name: string, options: CookieOptions)

  /** A todo as a response carries it: its `user` populated with the owner's
      selected fields, or `null` when the owner no longer exists. */
  datatype TodoView = TodoView(todo: Todo, user: Value)

  datatype Data =
    | NoData
    | SessionData(session: Session)
    | ObjectData(obj: map<string, Value>)
    | TodoData(view: TodoView)
    | TodoListData(views: seq<TodoView>)

  /** The `{code, data, errors, message, success}` envelope, with the HTTP
      status and the cookies the handler set or cleared. */
  datatype Response = Response(
    status: int,
    code: Option<Code>,
    data: Data,
    errors: Option<map<string, string>>,
    message: string,
    success: bool,
    cookies: seq<CookieOp>)

  /** An early-return failure: no data, no errors map, no cookies. */
  function Failure(status: int, code: Code, message: string): (r: Response)
    ensures !r.success && r.status == status && r.code == Some(code)
    ensures r.data == NoData && r.cookies == [] && r.errors == None
  {
    Response(status, Some(code), NoData, None, message, false, [])
  }

  /** A handler's response together with the user table it leaves behind. */
  datatype Outcome = Outcome(res: Response, users: seq<User>)

  /** A schema's `safeParse` outcome: the validated data, or the field errors
      `getZodErrors` extracts. */
  datatype Validation<T> = Valid(data: T) | Invalid(errors: map<string, string>)

  /** A value thrown inside a handler: an `Error` with its message, or
      anything else. */
  datatype Thrown = ErrorThrown(message: string) | OtherThrown
}

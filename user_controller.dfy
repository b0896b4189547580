/** The user handlers in server/src/controllers/userController (soft
    delete, update, delete, current user) and the admin probe
    `getAdmin`. The requester is `req.user`, as the gates in front of
    these routes leave it. */
module UserController {
  import opened Wrappers
  import opened Json
  import opened Text
  import opened Types
  import opened Store
  import opened ServerUtils
  import opened AuthController

  const NotFoundMessage: string := "Resource not found."
  const ArchivedMessage: string := "The user was previously deleted."
  const InvalidObjectIdMessage: string := "The ObjectId format is invalid."
  const FormErrorsMessage: string := "The form data is invalid."

  /** `The user ${firstName} ${lastName} with an 'id' of ${_id} has been deleted.` */
  function DeletedMessage(u: User): string {
    "The user " + u.firstName + " " + u.lastName + " with an 'id' of " + u.id + " has been deleted."
  }

  /** `__ARCHIVED_AT_${Date.now()}__${email}`: strictly longer than the
      email it archives, which it ends with. */
  function ArchivedEmail(nowMs: nat, email: string): (s: string)
    ensures |s| > |email| && s[|s| - |email|..] == email
  {
    var prefix := "__ARCHIVED_AT_" + NatToString(nowMs) + "__";
    assert (prefix + email)[|prefix|..] == email;
    prefix + email
  }

  /** `softDeleteUser` as a function of the user table. */
  function SoftDelete(users: seq<User>, requester: Option<Value>, nowMs: nat): (o: Outcome)
    ensures |o.users| == |users|
    ensures !o.res.success ==> o.users == users && o.res.data == NoData
    ensures o.res.success ==> o.res.status == 200 && o.res.code == Some(UPDATED)
  {
    match IndexOfId(users, RequesterId(requester))
    case None => Outcome(Failure(404, NOT_FOUND, NotFoundMessage), users)
    case Some(i) =>
      if !users[i].isActive then Outcome(Failure(409, USER_ARCHIVED, ArchivedMessage), users)
      else
        var updated := users[i].(isActive := false, email := ArchivedEmail(nowMs, users[i].email));
        Outcome(Response(200, Some(UPDATED), ObjectData(Selected(updated, DefaultHidden).fields), None,
                         DeletedMessage(updated), true, []),
                users[i := updated])
  }

  /** The handler: load, check, then two assignments and `save()`. */
  method SoftDeleteUser(db: Db, requester: Option<Value>, nowMs: nat) returns (res: Response)
    modifies db
    ensures Outcome(res, db.users) == SoftDelete(old(db.users), requester, nowMs)
    ensures db.todos == old(db.todos)
  {
    var found := IndexOfId(db.users, RequesterId(requester));
    if found.None? {
      return Failure(404, NOT_FOUND, NotFoundMessage);
    }
    var user := db.users[found.value];
    var isDeactivated := !user.isActive;
    if isDeactivated {
      return Failure(409, USER_ARCHIVED, ArchivedMessage);
    }
    user := user.(isActive := false);
    var archivedEmail := ArchivedEmail(nowMs, user.email);
    user := user.(email := archivedEmail);
    db.users := db.users[found.value := user];
    res := Response(200, Some(UPDATED), ObjectData(Selected(user, DefaultHidden).fields), None,
                    DeletedMessage(user), true, []);
  }

  /** Soft delete is a one-way transition of the requester's own record:
      the first call on an active user deactivates it and archives its
      email, touching nothing else, and every later call answers 409
      USER_ARCHIVED without a change. */
  lemma SoftDeleteIsOneWay(users: seq<User>, requester: Option<Value>, nowMs: nat, laterMs: nat)
    requires IndexOfId(users, RequesterId(requester)).Some?
    requires users[IndexOfId(users, RequesterId(requester)).value].isActive
    ensures var i := IndexOfId(users, RequesterId(requester)).value;
            var after := SoftDelete(users, requester, nowMs).users;
            && after == users[i := users[i].(isActive := false, email := ArchivedEmail(nowMs, users[i].email))]
            && SoftDelete(after, requester, laterMs) == Outcome(Failure(409, USER_ARCHIVED, ArchivedMessage), after)
  {
    var i := IndexOfId(users, RequesterId(requester)).value;
    var updated := users[i].(isActive := false, email := ArchivedEmail(nowMs, users[i].email));
    FirstIndexAfterUpdate(users, i, updated);
  }

  /** After a soft delete, logging in with the original email finds no
      record (the lookup is exact and the stored email is now archived),
      so login fails at its second check. */
  lemma SoftDeleteBlocksLogIn(users: seq<User>, requester: Option<Value>, nowMs: nat,
                              password: string, compare: (string, string) -> bool, jti: string, nowS: int,
                              decode: Jwt.Token -> Value, isDevelopment: bool)
    requires IndexOfId(users, RequesterId(requester)).Some?
    requires var i := IndexOfId(users, RequesterId(requester)).value;
             users[i].isActive && forall j :: 0 <= j < |users| && j != i ==> users[j].email != users[i].email
    ensures var i := IndexOfId(users, RequesterId(requester)).value;
            var after := SoftDelete(users, requester, nowMs).users;
            LogIn(after, true, users[i].email, password, compare, jti, nowS, decode, isDevelopment)
              == Failure(400, INVALID_CREDENTIALS, "Invalid credentials. (2)")
  {
    var i := IndexOfId(users, RequesterId(requester)).value;
    var after := SoftDelete(users, requester, nowMs).users;
    var email := users[i].email;
    forall j | 0 <= j < |after|
      ensures !ByEmail(email)(after[j])
    {
      if j == i {
        assert |after[j].email| > |email|;
      }
    }
    if FirstIndex(after, ByEmail(email)).Some? {
      assert false;
    }
  }

  /** The fields of an update the schema has accepted; `""` stands for a
      field left out (both are falsy). */
  datatype UserUpdate = UserUpdate(userName: string, firstName: string, lastName: string, email: string,
                                   image: string, password: string)

  /** The record after the conditional assignments: each truthy validated
      field replaces the stored one, the password as its hash; the id, role,
      active flag and blacklist never change. */
  function Updated(u: User, v: UserUpdate, hash: string -> string): (r: User)
    ensures r.id == u.id && r.role == u.role && r.isActive == u.isActive && r.blacklist == u.blacklist
    ensures r.userName == (if v.userName != "" then v.userName else u.userName)
    ensures r.firstName == (if v.firstName != "" then v.firstName else u.firstName)
    ensures r.lastName == (if v.lastName != "" then v.lastName else u.lastName)
    ensures r.email == (if v.email != "" then v.email else u.email)
    ensures r.image == (if v.image != "" then Some(v.image) else u.image)
    ensures r.password == (if v.password != "" then hash(v.password) else u.password)
  {
    var a := if v.userName != "" then u.(userName := v.userName) else u;
    var b := if v.firstName != "" then a.(firstName := v.firstName) else a;
    var c := if v.lastName != "" then b.(lastName := v.lastName) else b;
    var d := if v.email != "" then c.(email := v.email) else c;
    var e := if v.image != "" then d.(image := Some(v.image)) else d;
    if v.password != "" then e.(password := hash(v.password)) else e
  }

  /** `updateUser` as a function of the user table. `email` is the raw body
      field the case-insensitive lookup uses; `schema` stands for
      `getUpdateUserSchema({userId, existingUser, password}).safeParse(...)`.
      A `save()` that collides with another record's email is a 500. */
  function UpdateUserSpec(users: seq<User>, requester: Option<Value>, email: string,
                          schema: Option<User> -> Validation<UserUpdate>, hash: string -> string,
                          isDevelopment: bool): (o: Outcome)
    ensures |o.users| == |users|
    ensures !o.res.success ==> o.users == users && o.res.data == NoData
    ensures o.res.success ==> o.res.status == 200 && o.res.code == Some(UPDATED)
  {
    var userId := RequesterId(requester);
    if !Truthy(userId) || !IsObjectId(userId) then Outcome(Failure(400, BAD_REQUEST, InvalidObjectIdMessage), users)
    else match IndexOfId(users, userId)
      case None => Outcome(Failure(404, NOT_FOUND, NotFoundMessage), users)
      case Some(i) =>
        match schema(FindOne(users, ByEmailIgnoringCase(email)))
        case Invalid(errors) =>
          Outcome(Response(400, Some(FORM_ERRORS), NoData, Some(errors), FormErrorsMessage, false, []), users)
        case Valid(v) =>
          var updated := Updated(users[i], v, hash);
          if exists j :: 0 <= j < |users| && j != i && users[j].email == updated.email then
            Outcome(HandleServerError(isDevelopment, ErrorThrown(DuplicateKeyMessage)), users)
          else
            Outcome(Response(200, Some(UPDATED), ObjectData(Selected(updated, DefaultHidden).fields), None,
                             "Resource updated.", true, []),
                    users[i := updated])
  }

  /** The conditional assignments of the handler, one field at a time. */
  method AssignValidated(u: User, v: UserUpdate, hash: string -> string) returns (user: User)
    ensures user == Updated(u, v, hash)
  {
    user := u;
    if v.userName != "" {
      user := user.(userName := v.userName);
    }
    if v.firstName != "" {
      user := user.(firstName := v.firstName);
    }
    if v.lastName != "" {
      user := user.(lastName := v.lastName);
    }
    if v.email != "" {
      user := user.(email := v.email);
    }
    if v.image != "" {
      user := user.(image := Some(v.image));
    }
    if v.password != "" {
      user := user.(password := hash(v.password));
    }
  }

  /** The handler: the id check, the load, validation, the conditional
      assignments and `save()`. */
  method UpdateUser(db: Db, requester: Option<Value>, email: string,
                    schema: Option<User> -> Validation<UserUpdate>, hash: string -> string, isDevelopment: bool)
    returns (res: Response)
    modifies db
    ensures Outcome(res, db.users) == UpdateUserSpec(old(db.users), requester, email, schema, hash, isDevelopment)
    ensures db.todos == old(db.todos)
  {
    var userId := RequesterId(requester);
    if !Truthy(userId) || !IsObjectId(userId) {
      return Failure(400, BAD_REQUEST, InvalidObjectIdMessage);
    }
    var found := IndexOfId(db.users, userId);
    if found.None? {
      return Failure(404, NOT_FOUND, NotFoundMessage);
    }
    var user := db.users[found.value];
    var existingUser := FindOne(db.users, ByEmailIgnoringCase(email));
    var validationResult := schema(existingUser);
    if validationResult.Invalid? {
      return Response(400, Some(FORM_ERRORS), NoData, Some(validationResult.errors), FormErrorsMessage, false, []);
    }
    var validated := validationResult.data;
    user := AssignValidated(user, validated, hash);
    if exists j :: 0 <= j < |db.users| && j != found.value && db.users[j].email == user.email {
      return HandleServerError(isDevelopment, ErrorThrown(DuplicateKeyMessage));
    }
    db.users := db.users[found.value := user];
    res := Response(200, Some(UPDATED), ObjectData(Selected(user, DefaultHidden).fields), None,
                    "Resource updated.", true, []);
  }

  /** The check chain, in order: a bad id is 400 BAD_REQUEST, a missing
      record 404, rejected form data 400 FORM_ERRORS with the schema's
      errors; none of them writes. */
  lemma UpdateUserRejections(users: seq<User>, requester: Option<Value>, email: string,
                             schema: Option<User> -> Validation<UserUpdate>, hash: string -> string,
                             isDevelopment: bool)
    ensures var o := UpdateUserSpec(users, requester, email, schema, hash, isDevelopment);
            var id := RequesterId(requester);
            (!Truthy(id) || !IsObjectId(id) ==> o.res == Failure(400, BAD_REQUEST, InvalidObjectIdMessage))
            && (Truthy(id) && IsObjectId(id) && IndexOfId(users, id).None? ==> o.res == Failure(404, NOT_FOUND, NotFoundMessage))
            && (Truthy(id) && IsObjectId(id) && IndexOfId(users, id).Some? && schema(FindOne(users, ByEmailIgnoringCase(email))).Invalid? ==>
                  o.res.status == 400 && o.res.code == Some(FORM_ERRORS)
                  && o.res.errors == Some(schema(FindOne(users, ByEmailIgnoringCase(email))).errors))
  {
  }

  /** A successful update rewrites only the requester's record, leaves
      every field the form left empty as it was, and answers with the
      record without its password, role or blacklist. The email is stored
      as typed, not lower-cased as at registration. */
  lemma UpdateUserPartial(users: seq<User>, requester: Option<Value>, email: string,
                          schema: Option<User> -> Validation<UserUpdate>, hash: string -> string,
                          isDevelopment: bool)
    requires UpdateUserSpec(users, requester, email, schema, hash, isDevelopment).res.success
    ensures var o := UpdateUserSpec(users, requester, email, schema, hash, isDevelopment);
            var i := IndexOfId(users, RequesterId(requester)).value;
            var v := schema(FindOne(users, ByEmailIgnoringCase(email))).data;
            && o.users == users[i := Updated(users[i], v, hash)]
            && (v.email != "" ==> o.users[i].email == v.email)
            && o.res.data.ObjectData?
            && "password" !in o.res.data.obj && "role" !in o.res.data.obj
            && "refreshTokenBlacklist" !in o.res.data.obj
  {
  }

  /** `deleteUser`: 404 when the requester's record is gone; otherwise the
      document-level `deleteOne`, whose hook first removes the requester's
      todos. */
  method DeleteUser(db: Db, requester: Option<Value>) returns (res: Response)
    modifies db
    ensures IndexOfId(old(db.users), RequesterId(requester)).None? ==>
              res == Failure(404, NOT_FOUND, NotFoundMessage) && db.users == old(db.users) && db.todos == old(db.todos)
    ensures IndexOfId(old(db.users), RequesterId(requester)).Some? ==>
              var i := IndexOfId(old(db.users), RequesterId(requester)).value;
              && db.users == RemoveAt(old(db.users), i)
              && db.todos == TodosWithoutOwners(old(db.todos), {old(db.users)[i].id})
              && res == Response(200, Some(DELETED), NoData, None, DeletedMessage(old(db.users)[i]), true, [])
  {
    var found := IndexOfId(db.users, RequesterId(requester));
    if found.None? {
      return Failure(404, NOT_FOUND, NotFoundMessage);
    }
    var user := db.users[found.value];
    db.DeleteUserDocument(found.value);
    res := Response(200, Some(DELETED), NoData, None, DeletedMessage(user), true, []);
  }

  /** `user && typeof user === 'object' ? { ...user } : null` */
  function ShallowCopy(user: Option<Value>): Option<map<string, Value>> {
    if user.Some? && Truthy(user.value) && IsObjectType(user.value) then Some(Spread(user.value)) else None
  }

  /** `if (copy?.k) delete copy.k`: only a truthy value is deleted. */
  function DeleteIfTruthy(copy: Option<map<string, Value>>, k: string): (r: Option<map<string, Value>>)
    ensures r.None? <==> copy.None?
    ensures r.Some? ==> r.value.Keys == copy.value.Keys - (if k in copy.value && Truthy(copy.value[k]) then {k} else {})
    ensures r.Some? ==> forall j :: j in r.value ==> r.value[j] == copy.value[j]
  {
    if copy.Some? && k in copy.value && Truthy(copy.value[k]) then Some(copy.value - {k}) else copy
  }

  function AsData(copy: Option<map<string, Value>>): Data {
    if copy.Some? then ObjectData(copy.value) else NoData
  }

  /** `getCurrentUser`: always 200 OK; `data` is `null` without a
      `req.user` object, and otherwise a copy of it without a truthy
      `password`. */
  function GetCurrentUser(user: Option<Value>): (r: Response)
    ensures r.status == 200 && r.code == Some(OK) && r.success && r.cookies == []
    ensures r.data.ObjectData? <==> user.Some? && (user.value.Obj? || user.value.Arr?)
    ensures r.data.ObjectData? ==>
              forall k :: k in r.data.obj <==> k in Spread(user.value) && !(k == "password" && Truthy(Spread(user.value)[k]))
    ensures r.data.ObjectData? ==> forall k :: k in r.data.obj ==> r.data.obj[k] == Spread(user.value)[k]
  {
    var partialUser := DeleteIfTruthy(ShallowCopy(user), "password");
    Response(200, Some(OK), AsData(partialUser), None, "Request successful.", true, [])
  }

  /** `getAdmin`: as `getCurrentUser`, also without a truthy
      `refreshTokenBlacklist`. */
  function GetAdmin(user: Option<Value>): (r: Response)
    ensures r.status == 200 && r.code == Some(OK) && r.success && r.cookies == []
    ensures r.data.ObjectData? <==> user.Some? && (user.value.Obj? || user.value.Arr?)
    ensures r.data.ObjectData? ==>
              forall k :: k in r.data.obj <==>
                k in Spread(user.value)
                && !(k == "password" && Truthy(Spread(user.value)[k]))
                && !(k == "refreshTokenBlacklist" && Truthy(Spread(user.value)[k]))
    ensures r.data.ObjectData? ==> forall k :: k in r.data.obj ==> r.data.obj[k] == Spread(user.value)[k]
  {
    var partialUser := DeleteIfTruthy(DeleteIfTruthy(ShallowCopy(user), "password"), "refreshTokenBlacklist");
    Response(200, Some(OK), AsData(partialUser), None, "Request for admin data successful.", true, [])
  }

  /** The deletion tests truthiness, so an empty-string password is
      returned. */
  lemma CurrentUserKeepsFalsyPassword()
    ensures GetCurrentUser(Some(Obj(map["password" := Str("")]))).data == ObjectData(map["password" := Str("")])
  {
  }
}

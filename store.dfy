/** The user and todo collections (server/src/models/userModel.ts and the
    todo model it cascades into): the schema defaults a new user gets, the
    lookups the handlers run, and the pre-delete hooks that remove a
    deleted user's todos. A collection is an ordered table; a query's first
    match is the document `findOne`/`findById` returns. */
module Store {
  import opened Wrappers
  import opened Json
  import opened Types
  import opened Text

  /** `new User({...})`: the schema fills `role`, `isActive` and the
      blacklist with their defaults; `image` is optional and absent. */
  function NewUser(id: string, userName: string, firstName: string, lastName: string,
                   email: string, password: string): (u: User)
    ensures u.role == USER && u.isActive && u.blacklist == [] && u.image == None
    ensures u.id == id && u.email == email && u.password == password
    ensures u.userName == userName && u.firstName == firstName && u.lastName == lastName
  {
    User(id, userName, firstName, lastName, email, None, password, USER, true, [])
  }

  /** A blacklist as its stored array of `{jti, expiresAt}` objects. */
  function BlacklistValue(bl: seq<BlacklistEntry>): (v: Value)
    ensures v.Arr? && |v.items| == |bl|
  {
    Arr(seq(|bl|, i requires 0 <= i < |bl| =>
      Obj(map["jti" := Str(bl[i].jti), "expiresAt" := Num(bl[i].expiresAt)])))
  }

  /** The modelled fields of a user document as a plain object, `_id` as
      its hex string and `image` only when set. The `createdAt` and
      `updatedAt` timestamps and the `__v` version key are not modelled. */
  function UserDocument(u: User): map<string, Value> {
    var base := map[
      "_id" := Str(u.id), "userName" := Str(u.userName), "firstName" := Str(u.firstName),
      "lastName" := Str(u.lastName), "email" := Str(u.email), "password" := Str(u.password),
      "role" := Str(RoleName(u.role)), "isActive" := Bool(u.isActive),
      "refreshTokenBlacklist" := BlacklistValue(u.blacklist)];
    if u.image.Some? then base["image" := Str(u.image.value)] else base
  }

  /** The paths marked `select: false`: left out of every query that does
      not ask for them with `+path`. */
  const DefaultHidden: set<string> := {"password", "role", "refreshTokenBlacklist"}

  /** A document loaded with the given paths left out, as `.lean()` returns
      it. */
  function Selected(u: User, hidden: set<string>): (v: Value)
    ensures v.Obj? && v.fields.Keys == UserDocument(u).Keys - hidden
    ensures forall k :: k in v.fields ==> v.fields[k] == UserDocument(u)[k]
  {
    Obj(map k | k in UserDocument(u) && k !in hidden :: UserDocument(u)[k])
  }

  /** A default projection never carries the password, the role or the
      blacklist; `+role` adds the role back and nothing else. */
  lemma DefaultProjectionHidesSecrets(u: User)
    ensures "password" !in Selected(u, DefaultHidden).fields
    ensures "refreshTokenBlacklist" !in Selected(u, DefaultHidden).fields
    ensures "role" !in Selected(u, DefaultHidden).fields
    ensures Selected(u, DefaultHidden - {"role"}).fields ==
            Selected(u, DefaultHidden).fields["role" := Str(RoleName(u.role))]
  {
  }

  /** Position of the first user satisfying `p`. */
  function FirstIndex(users: seq<User>, p: User -> bool): (r: Option<nat>)
    ensures r.Some? ==> r.value < |users| && p(users[r.value])
    ensures r.Some? ==> forall j :: 0 <= j < r.value ==> !p(users[j])
    ensures r.None? ==> forall j :: 0 <= j < |users| ==> !p(users[j])
  {
    if users == [] then None
    else if p(users[0]) then Some(0)
    else match FirstIndex(users[1..], p)
      case Some(i) => Some(i + 1)
      case None => None
  }

  /** `User.findOne(query)` */
  function FindOne(users: seq<User>, p: User -> bool): (r: Option<User>)
    ensures r.Some? <==> exists u :: u in users && p(u)
    ensures r.Some? ==> r.value in users && p(r.value)
  {
    match FirstIndex(users, p)
    case Some(i) => Some(users[i])
    case None => None
  }

  /** `{ _id: id }` */
  function ById(id: string): User -> bool {
    (u: User) => u.id == id
  }

  /** `{ email }`: an exact, case-sensitive match. */
  function ByEmail(email: string): User -> bool {
    (u: User) => u.email == email
  }

  /** `{ email: new RegExp(`^${email}$`, 'i') }`, for an `email` free of
      regular-expression metacharacters. */
  function ByEmailIgnoringCase(email: string): User -> bool {
    (u: User) => Lower(u.email) == Lower(email)
  }

  /** `ObjectId.isValid(id)`: a string of 24 hexadecimal digits, or an
      integer (taken as a timestamp). */
  predicate IsObjectId(id: Value) {
    (id.Str? && |id.s| == 24 && forall i :: 0 <= i < |id.s| ==> IsHexDigit(id.s[i])) || id.Num?
  }

  /** `findById(id)`: the position of the record whose `_id` is `id`; an id
      that is not a string matches no record. */
  function IndexOfId(users: seq<User>, id: Value): (r: Option<nat>)
    ensures r.Some? ==> r.value < |users| && id == Str(users[r.value].id)
    ensures r.Some? ==> forall j :: 0 <= j < r.value ==> id != Str(users[j].id)
    ensures r.None? ==> forall j :: 0 <= j < |users| ==> id != Str(users[j].id)
  {
    if id.Str? then FirstIndex(users, ById(id.s)) else None
  }

  /** `req?.user?._id` */
  function RequesterId(user: Option<Value>): Value {
    if user.Some? then Prop(user.value, "_id") else Undefined
  }

  /** Replacing the record at the first match of an id keeps that index as
      the first match, as long as the replacement keeps the id. */
  lemma {:induction false} FirstIndexAfterUpdate(users: seq<User>, i: nat, u: User)
    requires FirstIndex(users, ById(u.id)) == Some(i)
    ensures FirstIndex(users[i := u], ById(u.id)) == Some(i)
  {
    var r := FirstIndex(users[i := u], ById(u.id));
    assert ById(u.id)(users[i := u][i]);
    assert forall j :: 0 <= j < i ==> users[i := u][j] == users[j];
    if r.None? {
      assert false;
    } else if r.value != i {
      assert false;
    }
  }

  /** The ids of every user satisfying `p`. */
  function MatchingIds(users: seq<User>, p: User -> bool): set<string> {
    set u | u in users && p(u) :: u.id
  }

  /** `Todo.deleteMany({ user: { $in: owners } })`: the todos that survive. */
  function TodosWithoutOwners(todos: seq<Todo>, owners: set<string>): (r: seq<Todo>)
    ensures |r| <= |todos|
    ensures forall t :: t in r <==> t in todos && t.owner !in owners
  {
    if todos == [] then []
    else
      var rest := TodosWithoutOwners(todos[1..], owners);
      assert todos == [todos[0]] + todos[1..];
      if todos[0].owner in owners then rest else [todos[0]] + rest
  }

  /** `User.deleteMany(query)`: the users that survive. */
  function UsersWithout(users: seq<User>, p: User -> bool): (r: seq<User>)
    ensures |r| <= |users|
    ensures forall u :: u in r <==> u in users && !p(u)
  {
    if users == [] then []
    else
      var rest := UsersWithout(users[1..], p);
      assert users == [users[0]] + users[1..];
      if p(users[0]) then rest else [users[0]] + rest
  }

  function RemoveAt<T>(s: seq<T>, i: nat): (r: seq<T>)
    requires i < |s|
    ensures |r| == |s| - 1
    ensures forall j :: 0 <= j < i ==> r[j] == s[j]
    ensures forall j :: i <= j < |r| ==> r[j] == s[j + 1]
  {
    s[..i] + s[i + 1..]
  }

  /** The persisted collections. */
  class Db {
    var users: seq<User>
    var todos: seq<Todo>

    constructor ()
      ensures users == [] && todos == []
    {
      users := [];
      todos := [];
    }

    /** Document-level `user.deleteOne()` on the record at `i`: the
        `{ document: true }` pre-hook removes that user's todos, then the
        document goes. */
    method DeleteUserDocument(i: nat)
      requires i < |users|
      modifies this
      ensures todos == TodosWithoutOwners(old(todos), {old(users)[i].id})
      ensures users == RemoveAt(old(users), i)
    {
      todos := TodosWithoutOwners(todos, {users[i].id});
      users := RemoveAt(users, i);
    }

    /** Query-level `User.deleteOne(query)`: the `{ query: true }` pre-hook
        finds every match and removes all their todos; the query then
        removes the first match only. */
    method DeleteOneWhere(p: User -> bool)
      modifies this
      ensures todos == TodosWithoutOwners(old(todos), MatchingIds(old(users), p))
      ensures FirstIndex(old(users), p).None? ==> users == old(users)
      ensures FirstIndex(old(users), p).Some? ==> users == RemoveAt(old(users), FirstIndex(old(users), p).value)
    {
      todos := TodosWithoutOwners(todos, MatchingIds(users, p));
      var found := FirstIndex(users, p);
      if found.Some? {
        users := RemoveAt(users, found.value);
      }
    }

    /** Query-level `User.deleteMany(query)`: the same pre-hook, then every
        match goes. */
    method DeleteManyWhere(p: User -> bool)
      modifies this
      ensures todos == TodosWithoutOwners(old(todos), MatchingIds(old(users), p))
      ensures users == UsersWithout(old(users), p)
    {
      todos := TodosWithoutOwners(todos, MatchingIds(users, p));
      users := UsersWithout(users, p);
    }

    /** `User.findOneAndDelete(query)`: the pre-hook removes the first
        match's todos, if there is a match, then that user goes. */
    method FindOneAndDeleteWhere(p: User -> bool) returns (deleted: Option<User>)
      modifies this
      ensures deleted == FindOne(old(users), p)
      ensures deleted.None? ==> users == old(users) && todos == old(todos)
      ensures deleted.Some? ==> todos == TodosWithoutOwners(old(todos), {deleted.value.id})
      ensures deleted.Some? ==> users == RemoveAt(old(users), FirstIndex(old(users), p).value)
    {
      var found := FirstIndex(users, p);
      if found.Some? {
        deleted := Some(users[found.value]);
        todos := TodosWithoutOwners(todos, {users[found.value].id});
        users := RemoveAt(users, found.value);
      } else {
        deleted := None;
      }
    }
  }

  /** Every delete path leaves no todo owned by a deleted user, and keeps
      every todo of a user it did not match. */
  lemma CascadeLeavesNoOrphans(todos: seq<Todo>, users: seq<User>, p: User -> bool)
    ensures forall t :: t in TodosWithoutOwners(todos, MatchingIds(users, p)) ==>
              forall u :: u in users && p(u) ==> t.owner != u.id
    ensures forall t :: t in todos && (forall u :: u in users && t.owner == u.id ==> !p(u)) ==>
              t in TodosWithoutOwners(todos, MatchingIds(users, p))
  {
  }

  /** The query-level `deleteOne` hook removes the todos of every match,
      while the query deletes only the first: a second matching user keeps
      their record but loses their todos. */
  lemma DeleteOneTakesOtherMatchesTodos(users: seq<User>, todos: seq<Todo>, p: User -> bool, j: nat, t: Todo)
    requires j < |users| && p(users[j]) && FirstIndex(users, p) != Some(j)
    requires users[j] !in users[..j]
    requires t in todos && t.owner == users[j].id
    ensures users[j] in RemoveAt(users, FirstIndex(users, p).value)
    ensures t !in TodosWithoutOwners(todos, MatchingIds(users, p))
  {
    var i := FirstIndex(users, p).value;
    assert users[j] in users;
    assert i < j;
    assert RemoveAt(users, i)[j - 1] == users[j];
  }
}

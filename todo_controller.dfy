/** The todo handlers in server/src/controllers/todoController, all behind
    `authMiddleware`. The checks run in a fixed order: id present, id
    well-formed, todo exists, requester owns it, form data valid; only
    then does a handler write. A todo's `user` is populated with its
    owner's record minus the paths hidden by default, or `null` when the
    owner is gone; `getTodo` and `updateTodo` then read `todo.user._id`
    from that `null`, which throws. */
module TodoController {
  import opened Wrappers
  import opened Text
  import opened Json
  import opened Types
  import opened Store
  import opened ServerUtils

  /** A handler's response together with the todo table it leaves. */
  datatype TodoOutcome = TodoOutcome(res: Response, todos: seq<Todo>)

  const IdRequiredMessage: string := "The resource 'id' is required."
  const NotFoundMessage: string := "Resource not found."
  const NotOwnerMessage: string := "Only the resource owner may make this request."
  /** What reading `_id` from a `null` populated owner throws. */
  const OrphanMessage: string := "Cannot read properties of null (reading '_id')"

  /** `Todo.findById(id)` for an id Mongoose can cast: the first todo whose
      id is that string. Only a string id can match. */
  function TodoIndex(todos: seq<Todo>, id: Value): (r: Option<nat>)
    ensures r.Some? ==> r.value < |todos| && id == Str(todos[r.value].id)
    ensures r.None? ==> forall k :: 0 <= k < |todos| ==> id != Str(todos[k].id)
  {
    if id.Str? then FirstTodo(todos, id.s) else None
  }

  function FirstTodo(todos: seq<Todo>, id: string): (r: Option<nat>)
    ensures r.Some? ==> r.value < |todos| && todos[r.value].id == id
    ensures r.Some? ==> forall k :: 0 <= k < r.value ==> todos[k].id != id
    ensures r.None? ==> forall k :: 0 <= k < |todos| ==> todos[k].id != id
  {
    if todos == [] then None
    else if todos[0].id == id then Some(0)
    else match FirstTodo(todos[1..], id)
      case Some(k) => Some(k + 1)
      case None => None
  }

  /** `ObjectId.isValid` accepts a number, but Mongoose casts a query id
      through its string form, and `"5"` is no ObjectId: `findById` throws
      this CastError, which the handler's `catch` turns into a 500. */
  function CastErrorMessage(n: int): (m: string)
    ensures |m| > |"Cast to ObjectId failed"|
    ensures m[..|"Cast to ObjectId failed"|] == "Cast to ObjectId failed"
  {
    var digits := if n < 0 then "-" + NatToString(-n) else NatToString(n);
    "Cast to ObjectId failed" + " for value \"" + digits + "\" (type number) at path \"_id\" for model \"Todo\""
  }

  /** `.populate({ path: 'user', select: ... })` */
  function PopulatedOwner(users: seq<User>, t: Todo): (v: Value)
    ensures v.Null? <==> forall u :: u in users ==> u.id != t.owner
    ensures !v.Null? ==> exists u :: u in users && u.id == t.owner && v == Selected(u, DefaultHidden)
  {
    match FindOne(users, ById(t.owner))
    case Some(u) => Selected(u, DefaultHidden)
    case None => Null
  }

  /** `!userId?.equals(todo.user._id)` */
  predicate NotOwner(requester: Option<Value>, t: Todo) {
    RequesterId(requester) != Str(t.owner)
  }

  /** The two id checks every single-todo handler starts with. */
  function IdCheck(todoId: Value, invalidMessage: string): (r: Option<Response>)
    ensures r.Some? <==> !IsObjectId(todoId) || !Truthy(todoId)
    ensures r.Some? ==> r.value.status == 400 && r.value.code == Some(BAD_REQUEST)
  {
    if !Truthy(todoId) then Some(Failure(400, BAD_REQUEST, IdRequiredMessage))
    else if !IsObjectId(todoId) then Some(Failure(400, BAD_REQUEST, invalidMessage))
    else None
  }

  /** `getTodo`, with the id taken from the path. */
  function GetTodo(users: seq<User>, todos: seq<Todo>, requester: Option<Value>, todoId: Value,
                   isDevelopment: bool): (r: Response)
    ensures r.status in {200, 400, 403, 404, 500}
    ensures r.success <==> r.status == 200
    ensures r.success ==>
              r.data.TodoData? && Str(r.data.view.todo.id) == todoId
              && !NotOwner(requester, r.data.view.todo) && r.data.view.todo in todos
  {
    match IdCheck(todoId, "The ObjectId format is invalid.")
    case Some(rejection) => rejection
    case None =>
      if todoId.Num? then HandleServerError(isDevelopment, ErrorThrown(CastErrorMessage(todoId.n)))
      else match TodoIndex(todos, todoId)
      case None => Failure(404, NOT_FOUND, NotFoundMessage)
      case Some(k) =>
        var todo := todos[k];
        var owner := PopulatedOwner(users, todo);
        if owner.Null? then HandleServerError(isDevelopment, ErrorThrown(OrphanMessage))
        else if NotOwner(requester, todo) then Failure(403, FORBIDDEN, NotOwnerMessage)
        else Response(200, Some(OK), TodoData(TodoView(todo, owner)), None, "Request successful.", true, [])
  }

  /** The checks in order: a missing id, then a malformed one, is 400; an
      unknown todo is 404 before ownership is looked at; someone else's
      todo is 403, never 401. */
  lemma GetTodoChecks(users: seq<User>, todos: seq<Todo>, requester: Option<Value>, todoId: Value, isDevelopment: bool)
    ensures var r := GetTodo(users, todos, requester, todoId, isDevelopment);
            (!Truthy(todoId) ==> r == Failure(400, BAD_REQUEST, IdRequiredMessage))
            && (Truthy(todoId) && !IsObjectId(todoId) ==> r == Failure(400, BAD_REQUEST, "The ObjectId format is invalid."))
            && (todoId.Str? && IsObjectId(todoId) && TodoIndex(todos, todoId).None? ==> r == Failure(404, NOT_FOUND, NotFoundMessage))
            && r.status != 401
    ensures todoId.Str? && IsObjectId(todoId) && TodoIndex(todos, todoId).Some? ==>
              var t := todos[TodoIndex(todos, todoId).value];
              PopulatedOwner(users, t).Obj? && NotOwner(requester, t) ==>
                GetTodo(users, todos, requester, todoId, isDevelopment) == Failure(403, FORBIDDEN, NotOwnerMessage)
  {
  }

  /** The owner record in a successful `getTodo` is the populated owner. */
  lemma GetTodoOwnerView(users: seq<User>, todos: seq<Todo>, requester: Option<Value>, todoId: Value, isDevelopment: bool)
    ensures var r := GetTodo(users, todos, requester, todoId, isDevelopment);
            r.success ==> var owner := r.data.view.user;
                          owner.Obj? && "password" !in owner.fields && "role" !in owner.fields
                          && "refreshTokenBlacklist" !in owner.fields
  {
  }

  /** The requester's todos, in stored order. */
  function OwnedBy(todos: seq<Todo>, userId: Value): (r: seq<Todo>)
    ensures |r| <= |todos|
    ensures forall t :: t in r <==> t in todos && Str(t.owner) == userId
  {
    if todos == [] then []
    else
      var rest := OwnedBy(todos[1..], userId);
      assert todos == [todos[0]] + todos[1..];
      if Str(todos[0].owner) == userId then [todos[0]] + rest else rest
  }

  /** `getTodos`: `Todo.find({ user: userId })` with owners populated. An
      empty list is still a 200. */
  function GetTodos(users: seq<User>, todos: seq<Todo>, requester: Option<Value>): (r: Response)
    ensures r.status == 200 && r.code == Some(OK) && r.success && r.data.TodoListData?
    ensures forall v :: v in r.data.views ==> v.todo in todos && Str(v.todo.owner) == RequesterId(requester)
    ensures forall t :: t in todos && Str(t.owner) == RequesterId(requester) ==>
              exists v :: v in r.data.views && v.todo == t
  {
    var owned := OwnedBy(todos, RequesterId(requester));
    var views := seq(|owned|, i requires 0 <= i < |owned| => TodoView(owned[i], PopulatedOwner(users, owned[i])));
    assert forall i :: 0 <= i < |owned| ==> views[i].todo == owned[i];
    Response(200, Some(OK), TodoListData(views), None, "Request successful.", true, [])
  }

  /** The fields of a new todo the schema has accepted. */
  datatype TodoDraft = TodoDraft(title: string, body: Option<string>)

  /** `Todo.create({ title, body: body || '', user: userId })`; the todo
      starts not completed. */
  function NewTodo(id: string, draft: TodoDraft, userId: string): (t: Todo)
    ensures t.id == id && t.title == draft.title && t.owner == userId && !t.completed
    ensures t.body == (if draft.body.Some? then draft.body.value else "")
  {
    Todo(id, draft.title, if draft.body.Some? && draft.body.value != "" then draft.body.value else "", false, userId)
  }

  /** `createTodo` as a function of the todo table. `userId` is the
      requester's id, which `authMiddleware` guarantees. */
  function CreateTodoSpec(users: seq<User>, todos: seq<Todo>, userId: string, validation: Validation<TodoDraft>,
                          newId: string): (o: TodoOutcome)
    ensures o.res.success <==> validation.Valid?
    ensures !o.res.success ==> o.todos == todos && o.res.status == 400 && o.res.code == Some(FORM_ERRORS)
    ensures o.res.success ==>
              o.res.status == 201 && o.res.code == Some(CREATED)
              && o.todos == todos + [NewTodo(newId, validation.data, userId)]
  {
    match validation
    case Invalid(errors) =>
      TodoOutcome(Response(400, Some(FORM_ERRORS), NoData, Some(errors), "The form data is invalid.", false, []), todos)
    case Valid(validated) =>
      var newTodo := NewTodo(newId, validated, userId);
      TodoOutcome(Response(201, Some(CREATED), TodoData(TodoView(newTodo, PopulatedOwner(users, newTodo))), None,
                           "Resource created.", true, []),
                  todos + [newTodo])
  }

  method CreateTodo(db: Db, userId: string, validation: Validation<TodoDraft>, newId: string)
    returns (res: Response)
    modifies db
    ensures TodoOutcome(res, db.todos) == CreateTodoSpec(old(db.users), old(db.todos), userId, validation, newId)
    ensures db.users == old(db.users)
  {
    if validation.Invalid? {
      return Response(400, Some(FORM_ERRORS), NoData, Some(validation.errors), "The form data is invalid.", false, []);
    }
    var validated := validation.data;
    var newTodo := NewTodo(newId, validated, userId);
    db.todos := db.todos + [newTodo];
    res := Response(201, Some(CREATED), TodoData(TodoView(newTodo, PopulatedOwner(db.users, newTodo))), None,
                    "Resource created.", true, []);
  }

  /** A created todo is the requester's: it shows up in their list and in
      nobody else's. */
  lemma CreatedTodoIsListed(users: seq<User>, todos: seq<Todo>, userId: string, draft: TodoDraft, newId: string,
                            requester: Option<Value>)
    requires RequesterId(requester) == Str(userId)
    ensures var after := CreateTodoSpec(users, todos, userId, Valid(draft), newId).todos;
            exists v :: v in GetTodos(users, after, requester).data.views && v.todo == NewTodo(newId, draft, userId)
    ensures forall other: Option<Value> :: RequesterId(other) != Str(userId) ==>
              var after := CreateTodoSpec(users, todos, userId, Valid(draft), newId).todos;
              forall v :: v in GetTodos(users, after, other).data.views ==> v.todo != NewTodo(newId, draft, userId)
  {
    var after := CreateTodoSpec(users, todos, userId, Valid(draft), newId).todos;
    assert NewTodo(newId, draft, userId) in after;
  }

  /** The fields of an update the schema has accepted; `None` where the
      validated value is not of the field's type. */
  datatype TodoUpdate = TodoUpdate(title: Option<string>, body: Option<string>, completed: Option<bool>)

  /** The type-guarded assignments: only fields with a value of their own
      type change; the id and owner never do. */
  function Revised(t: Todo, v: TodoUpdate): (r: Todo)
    ensures r.id == t.id && r.owner == t.owner
    ensures r.title == v.title.GetOr(t.title)
    ensures r.body == v.body.GetOr(t.body)
    ensures r.completed == v.completed.GetOr(t.completed)
  {
    var a := if v.title.Some? then t.(title := v.title.value) else t;
    var b := if v.body.Some? then a.(body := v.body.value) else a;
    if v.completed.Some? then b.(completed := v.completed.value) else b
  }

  /** The three `if (x !== undefined) todo.x = x` assignments. */
  method Revise(t: Todo, v: TodoUpdate) returns (r: Todo)
    ensures r == Revised(t, v)
  {
    r := t;
    if v.title.Some? {
      r := r.(title := v.title.value);
    }
    if v.body.Some? {
      r := r.(body := v.body.value);
    }
    if v.completed.Some? {
      r := r.(completed := v.completed.value);
    }
  }

  /** `updateTodo`, with the id taken from the body. */
  function UpdateTodoSpec(users: seq<User>, todos: seq<Todo>, requester: Option<Value>, todoId: Value,
                          validation: Validation<TodoUpdate>, isDevelopment: bool): (o: TodoOutcome)
    ensures |o.todos| == |todos|
    ensures !o.res.success ==> o.todos == todos
    ensures o.res.success ==> o.res.status == 200 && o.res.code == Some(UPDATED)
  {
    match IdCheck(todoId, "Invalid ObjectId.")
    case Some(rejection) => TodoOutcome(rejection, todos)
    case None =>
      if todoId.Num? then TodoOutcome(HandleServerError(isDevelopment, ErrorThrown(CastErrorMessage(todoId.n))), todos)
      else match TodoIndex(todos, todoId)
      case None => TodoOutcome(Failure(404, NOT_FOUND, NotFoundMessage), todos)
      case Some(k) =>
        var todo := todos[k];
        var owner := PopulatedOwner(users, todo);
        if owner.Null? then TodoOutcome(HandleServerError(isDevelopment, ErrorThrown(OrphanMessage)), todos)
        else if NotOwner(requester, todo) then TodoOutcome(Failure(403, FORBIDDEN, NotOwnerMessage), todos)
        else match validation
          case Invalid(errors) =>
            TodoOutcome(Response(400, Some(FORM_ERRORS), NoData, Some(errors), "There were one or more form errors.", false, []), todos)
          case Valid(validated) =>
            var revised := Revised(todo, validated);
            TodoOutcome(Response(200, Some(UPDATED), TodoData(TodoView(revised, owner)), None, "Resource updated.", true, []),
                        todos[k := revised])
  }

  method UpdateTodo(db: Db, requester: Option<Value>, todoId: Value, validation: Validation<TodoUpdate>,
                    isDevelopment: bool) returns (res: Response)
    modifies db
    ensures TodoOutcome(res, db.todos) == UpdateTodoSpec(old(db.users), old(db.todos), requester, todoId, validation, isDevelopment)
    ensures db.users == old(db.users)
  {
    var rejection := IdCheck(todoId, "Invalid ObjectId.");
    if rejection.Some? {
      return rejection.value;
    }
    if todoId.Num? {
      return HandleServerError(isDevelopment, ErrorThrown(CastErrorMessage(todoId.n)));
    }
    var found := TodoIndex(db.todos, todoId);
    if found.None? {
      return Failure(404, NOT_FOUND, NotFoundMessage);
    }
    var todo := db.todos[found.value];
    var owner := PopulatedOwner(db.users, todo);
    if owner.Null? {
      return HandleServerError(isDevelopment, ErrorThrown(OrphanMessage));
    }
    if NotOwner(requester, todo) {
      return Failure(403, FORBIDDEN, NotOwnerMessage);
    }
    if validation.Invalid? {
      return Response(400, Some(FORM_ERRORS), NoData, Some(validation.errors), "There were one or more form errors.", false, []);
    }
    todo := Revise(todo, validation.data);
    db.todos := db.todos[found.value := todo];
    res := Response(200, Some(UPDATED), TodoData(TodoView(todo, owner)), None, "Resource updated.", true, []);
  }

  /** Ownership is checked before validation: a non-owner gets the same 403
      whatever the form says, and nothing changes. A successful update
      rewrites only that todo, field by field. */
  lemma UpdateTodoOwnerOnly(users: seq<User>, todos: seq<Todo>, requester: Option<Value>, todoId: Value,
                            v1: Validation<TodoUpdate>, v2: Validation<TodoUpdate>, isDevelopment: bool)
    requires IsObjectId(todoId) && Truthy(todoId) && TodoIndex(todos, todoId).Some?
    requires PopulatedOwner(users, todos[TodoIndex(todos, todoId).value]).Obj?
    ensures var k := TodoIndex(todos, todoId).value;
            NotOwner(requester, todos[k]) ==>
              UpdateTodoSpec(users, todos, requester, todoId, v1, isDevelopment)
                == UpdateTodoSpec(users, todos, requester, todoId, v2, isDevelopment)
                == TodoOutcome(Failure(403, FORBIDDEN, NotOwnerMessage), todos)
    ensures var k := TodoIndex(todos, todoId).value;
            !NotOwner(requester, todos[k]) && v1.Valid? ==>
              UpdateTodoSpec(users, todos, requester, todoId, v1, isDevelopment).todos
                == todos[k := Revised(todos[k], v1.data)]
  {
  }

  /** `The todo '${title}' with an id of ${_id} has been deleted.` */
  function TodoDeletedMessage(t: Todo): string {
    "The todo '" + t.title + "' with an id of " + t.id + " has been deleted."
  }

  /** `deleteTodo`, with the id taken from the body. The owner is compared
      on the stored reference, which is not populated, so a todo whose
      owner is gone is still checked normally. */
  function DeleteTodoSpec(todos: seq<Todo>, requester: Option<Value>, todoId: Value, isDevelopment: bool): (o: TodoOutcome)
    ensures !o.res.success ==> o.todos == todos
    ensures o.res.success ==> o.res.status == 200 && o.res.code == Some(DELETED) && |o.todos| == |todos| - 1
  {
    match IdCheck(todoId, "Invalid ObjectId.")
    case Some(rejection) => TodoOutcome(rejection, todos)
    case None =>
      if todoId.Num? then TodoOutcome(HandleServerError(isDevelopment, ErrorThrown(CastErrorMessage(todoId.n))), todos)
      else match TodoIndex(todos, todoId)
      case None => TodoOutcome(Failure(404, NOT_FOUND, NotFoundMessage), todos)
      case Some(k) =>
        if NotOwner(requester, todos[k]) then TodoOutcome(Failure(403, FORBIDDEN, NotOwnerMessage), todos)
        else TodoOutcome(Response(200, Some(DELETED), NoData, None, TodoDeletedMessage(todos[k]), true, []),
                         RemoveAt(todos, k))
  }

  method DeleteTodo(db: Db, requester: Option<Value>, todoId: Value, isDevelopment: bool) returns (res: Response)
    modifies db
    ensures TodoOutcome(res, db.todos) == DeleteTodoSpec(old(db.todos), requester, todoId, isDevelopment)
    ensures db.users == old(db.users)
  {
    var rejection := IdCheck(todoId, "Invalid ObjectId.");
    if rejection.Some? {
      return rejection.value;
    }
    if todoId.Num? {
      return HandleServerError(isDevelopment, ErrorThrown(CastErrorMessage(todoId.n)));
    }
    var found := TodoIndex(db.todos, todoId);
    if found.None? {
      return Failure(404, NOT_FOUND, NotFoundMessage);
    }
    var todo := db.todos[found.value];
    if NotOwner(requester, todo) {
      return Failure(403, FORBIDDEN, NotOwnerMessage);
    }
    db.todos := RemoveAt(db.todos, found.value);
    res := Response(200, Some(DELETED), NoData, None, TodoDeletedMessage(todo), true, []);
  }

  /** A non-zero number passes `ObjectId.isValid` but not the cast inside
      `findById`, so each handler that looks a todo up answers 500, with
      the CastError's message only in development, and writes nothing. */
  lemma NumericIdIsServerError(users: seq<User>, todos: seq<Todo>, requester: Option<Value>, n: int,
                               validation: Validation<TodoUpdate>, isDevelopment: bool)
    requires n != 0
    ensures GetTodo(users, todos, requester, Num(n), isDevelopment)
              == HandleServerError(isDevelopment, ErrorThrown(CastErrorMessage(n)))
    ensures UpdateTodoSpec(users, todos, requester, Num(n), validation, isDevelopment)
              == TodoOutcome(HandleServerError(isDevelopment, ErrorThrown(CastErrorMessage(n))), todos)
    ensures DeleteTodoSpec(todos, requester, Num(n), isDevelopment)
              == TodoOutcome(HandleServerError(isDevelopment, ErrorThrown(CastErrorMessage(n))), todos)
  {
  }

  /** Only the owner deletes, and once a todo with a unique id is deleted
      every later lookup of that id is a 404. */
  lemma DeleteTodoThenNotFound(users: seq<User>, todos: seq<Todo>, requester: Option<Value>, todoId: Value,
                               anyone: Option<Value>, isDevelopment: bool)
    requires forall a, b :: 0 <= a < b < |todos| ==> todos[a].id != todos[b].id
    ensures DeleteTodoSpec(todos, requester, todoId, isDevelopment).res.success <==>
              IsObjectId(todoId) && Truthy(todoId) && TodoIndex(todos, todoId).Some?
              && !NotOwner(requester, todos[TodoIndex(todos, todoId).value])
    ensures DeleteTodoSpec(todos, requester, todoId, isDevelopment).res.success ==>
              GetTodo(users, DeleteTodoSpec(todos, requester, todoId, isDevelopment).todos, anyone, todoId, isDevelopment)
                == Failure(404, NOT_FOUND, NotFoundMessage)
  {
    var o := DeleteTodoSpec(todos, requester, todoId, isDevelopment);
    if o.res.success {
      var k := TodoIndex(todos, todoId).value;
      var after := o.todos;
      assert after == RemoveAt(todos, k);
      forall j | 0 <= j < |after|
        ensures todoId != Str(after[j].id)
      {
        if j < k {
          assert after[j] == todos[j];
        } else {
          assert after[j] == todos[j + 1];
        }
      }
    }
  }
}

/** client/src/pages/todos/PageUpdateTodo/components/UpdateTodoForm.tsx:
    the edit form for one todo, prefilled from `getTodo`. The `completed`
    checkbox is validated and prefilled but never sent. */
module UpdateTodoForm {
  import opened Wrappers
  import opened Text
  import opened Json
  import opened FormRules

  const LoadFailedMessage: string := "Unable to get todo."

  /** `{ id: todoId, ...(title ? { title } : {}), body }` */
  function RequestBody(todoId: string, title: string, body: string): (r: map<string, Value>)
    ensures "id" in r && r["id"] == Str(todoId)
    ensures "body" in r && r["body"] == Str(body)
    ensures "title" in r <==> title != ""
    ensures "title" in r ==> r["title"] == Str(title)
    ensures "completed" !in r
    ensures r.Keys <= {"id", "title", "body"}
  {
    map["id" := Str(todoId)] + (if title != "" then map["title" := Str(title)] else map[]) + map["body" := Str(body)]
  }

  /** `success == true && data` */
  predicate IsOk(result: Value) {
    LooselyTrue(Prop(result, "success")) && Truthy(Prop(result, "data"))
  }

  /** `success === true && data`, the stricter test of the prefill. */
  predicate IsLoaded(result: Value) {
    Prop(result, "success") == Bool(true) && Truthy(Prop(result, "data"))
  }

  class UpdateTodoForm {
    const todoId: string
    var todo: Value
    var error: string
    var title: Field
    var body: Field
    var completed: bool
    var completedTouched: bool
    var completedError: string
    var updatingTodo: bool

    constructor (id: string)
      ensures todoId == id && todo == Undefined && error == ""
      ensures title == Untouched && body == Untouched
      ensures !completed && !completedTouched && completedError == "" && !updatingTodo
    {
      todoId := id;
      todo := Undefined;
      error := "";
      title := Untouched;
      body := Untouched;
      completed := false;
      completedTouched := false;
      completedError := "";
      updatingTodo := false;
    }

    /** `disabled={allTouched && isErrors}` over the three fields. */
    predicate SubmitIsDisabled()
      reads this
    {
      SubmitDisabled([title, body, Field("", completedTouched, completedError)])
    }

    /** `handleGetTodo` after `getTodo` settles: title and body are copied
        when truthy strings, `completed` when it is a boolean. The error
        cleared before the request stays cleared on success. */
    method TodoLoaded(result: Value)
      modifies this
      ensures IsLoaded(result) ==>
                var data := Prop(result, "data");
                todo == data && error == ""
                && title.value == (if Prop(data, "title").Str? && Prop(data, "title").s != "" then Prop(data, "title").s else old(title.value))
                && body.value == (if Prop(data, "body").Str? && Prop(data, "body").s != "" then Prop(data, "body").s else old(body.value))
                && completed == (if Prop(data, "completed").Bool? then Prop(data, "completed").b else old(completed))
      ensures !IsLoaded(result) ==>
                error == LoadFailedMessage && todo == old(todo)
                && title.value == old(title.value) && body.value == old(body.value) && completed == old(completed)
      ensures title.touched == old(title.touched) && title.error == old(title.error)
      ensures body.touched == old(body.touched) && body.error == old(body.error)
      ensures completedTouched == old(completedTouched) && updatingTodo == old(updatingTodo)
    {
      if IsLoaded(result) {
        var data := Prop(result, "data");
        error := "";
        todo := data;
        match Prop(data, "title") {
          case Str(s) => if s != "" { title := title.(value := s); }
          case _ =>
        }
        match Prop(data, "body") {
          case Str(s) => if s != "" { body := body.(value := s); }
          case _ =>
        }
        match Prop(data, "completed") {
          case Bool(b) => completed := b;
          case _ =>
        }
      } else {
        error := LoadFailedMessage;
      }
    }

    /** `validate()`: only the title can fail. */
    method Validate() returns (isValid: bool, errors: seq<string>, toast: Option<string>)
      modifies this
      ensures toast == ValidationToast(isValid)
      ensures title == Validated(old(title), TitleError(old(title.value)))
      ensures body == Validated(old(body), "")
      ensures completedTouched && completedError == ""
      ensures errors == NonEmpty([TitleError(old(title.value)), "", ""])
      ensures isValid <==> !IsBlank(old(title.value))
      ensures completed == old(completed) && updatingTodo == old(updatingTodo) && todo == old(todo)
    {
      var titleError := TitleError(title.value);
      title := Validated(title, titleError);
      body := Validated(body, "");
      completedTouched := true;
      completedError := "";
      isValid, errors, toast := CollectErrors([titleError, "", ""]);
    }

    method Submit() returns (sent: Option<map<string, Value>>, toast: Option<string>)
      modifies this
      ensures toast == ValidationToast(sent.Some?)
      ensures sent.Some? <==> !IsBlank(old(title.value))
      ensures sent.Some? ==> sent.value == RequestBody(todoId, old(title.value), old(body.value)) && updatingTodo
      ensures sent.None? ==> updatingTodo == old(updatingTodo)
      ensures title.value == old(title.value) && body.value == old(body.value) && completed == old(completed)
    {
      var isValid, _, shown := Validate();
      toast := shown;
      if !isValid {
        sent := None;
        return;
      }
      updatingTodo := true;
      sent := Some(RequestBody(todoId, title.value, body.value));
    }

    /** The `updateTodo` response: success resets the fields and goes to the
        todo's page; otherwise server field errors are shown. */
    method UpdateSettled(result: Value) returns (navigateTo: Option<string>)
      modifies this
      ensures IsOk(result) ==>
                navigateTo == Some("/todos/" + todoId)
                && title == Untouched && body == Untouched
                && !completed && !completedTouched && completedError == ""
      ensures !IsOk(result) ==>
                var errs := Prop(result, "errors");
                navigateTo == None && completed == old(completed) && completedTouched == old(completedTouched)
                && (Truthy(errs) ==>
                      title == WithServerError(old(title), errs, "title")
                      && body == WithServerError(old(body), errs, "body")
                      && completedError == WithServerError(Field("", false, old(completedError)), errs, "completed").error)
                && (!Truthy(errs) ==> title == old(title) && body == old(body) && completedError == old(completedError))
      ensures !updatingTodo && todo == old(todo)
    {
      navigateTo := None;
      if IsOk(result) {
        title := Untouched;
        body := Untouched;
        completed := false;
        completedTouched := false;
        completedError := "";
        navigateTo := Some("/todos/" + todoId);
      } else {
        var errs := Prop(result, "errors");
        if Truthy(errs) {
          title := WithServerError(title, errs, "title");
          body := WithServerError(body, errs, "body");
          completedError := WithServerError(Field("", false, completedError), errs, "completed").error;
        }
      }
      updatingTodo := false;
    }
  }

  /** The checkbox never reaches the server: whatever `completed` holds,
      the request body is the same. */
  lemma CompletedNeverSent(todoId: string, title: string, body: string)
    ensures "completed" !in RequestBody(todoId, title, body)
    ensures RequestBody(todoId, title, body).Keys == (if title == "" then {"id", "body"} else {"id", "title", "body"})
  {
  }
}

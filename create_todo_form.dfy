/** client/src/pages/todos/PageCreateTodo/components/CreateTodoForm.tsx:
    a required title and an optional body. */
module CreateTodoForm {
  import opened Wrappers
  import opened Text
  import opened Json
  import opened FormRules

  const TodosPath: string := "/todos"

  /** `validateBody` accepts every body. */
  function BodyError(value: string): (e: string)
    ensures e == ""
  {
    ""
  }

  /** `{ title, ...(body ? { body } : {}) }` */
  function RequestBody(title: string, body: string): (r: map<string, Value>)
    ensures "title" in r && r["title"] == Str(title)
    ensures "body" in r <==> body != ""
    ensures "body" in r ==> r["body"] == Str(body)
    ensures r.Keys <= {"title", "body"}
  {
    map["title" := Str(title)] + (if body != "" then map["body" := Str(body)] else map[])
  }

  /** `success == true && data` */
  predicate IsCreated(result: Value) {
    LooselyTrue(Prop(result, "success")) && Truthy(Prop(result, "data"))
  }

  class CreateTodoForm {
    var title: Field
    var body: Field
    var creatingTodo: bool

    constructor ()
      ensures title == Untouched && body == Untouched && !creatingTodo
    {
      title := Untouched;
      body := Untouched;
      creatingTodo := false;
    }

    predicate SubmitIsDisabled()
      reads this
    {
      SubmitDisabled([title, body])
    }

    method Validate() returns (isValid: bool, errors: seq<string>, toast: Option<string>)
      modifies this
      ensures toast == ValidationToast(isValid)
      ensures title == Validated(old(title), TitleError(old(title.value)))
      ensures body == Validated(old(body), "")
      ensures errors == NonEmpty([TitleError(old(title.value)), ""])
      ensures isValid <==> !IsBlank(old(title.value))
      ensures creatingTodo == old(creatingTodo)
    {
      var titleError := TitleError(title.value);
      var bodyError := BodyError(body.value);
      title := Validated(title, titleError);
      body := Validated(body, bodyError);
      isValid, errors, toast := CollectErrors([titleError, bodyError]);
    }

    /** `handleSubmit` then `handleCreateTodo` up to the request: the
        loading flag is raised and the body sent. */
    method Submit() returns (sent: Option<map<string, Value>>, toast: Option<string>)
      modifies this
      ensures toast == ValidationToast(sent.Some?)
      ensures sent.Some? <==> !IsBlank(old(title.value))
      ensures sent.Some? ==> sent.value == RequestBody(old(title.value), old(body.value)) && creatingTodo
      ensures sent.None? ==> creatingTodo == old(creatingTodo)
      ensures title.value == old(title.value) && body.value == old(body.value)
    {
      var isValid, _, shown := Validate();
      toast := shown;
      if !isValid {
        sent := None;
        return;
      }
      creatingTodo := true;
      sent := Some(RequestBody(title.value, body.value));
    }

    /** The response. The loading flag is left as it is on both paths. */
    method CreateSettled(result: Value) returns (navigateTo: Option<string>)
      modifies this
      ensures IsCreated(result) ==> navigateTo == Some(TodosPath) && title == Untouched && body == Untouched
      ensures !IsCreated(result) && Truthy(Prop(result, "errors")) ==>
                navigateTo == None
                && title == WithServerError(old(title), Prop(result, "errors"), "title")
                && body == WithServerError(old(body), Prop(result, "errors"), "body")
      ensures !IsCreated(result) && !Truthy(Prop(result, "errors")) ==>
                navigateTo == None && title == old(title) && body == old(body)
      ensures creatingTodo == old(creatingTodo)
    {
      navigateTo := None;
      if IsCreated(result) {
        title := Untouched;
        body := Untouched;
        navigateTo := Some(TodosPath);
      } else {
        var errs := Prop(result, "errors");
        if Truthy(errs) {
          title := WithServerError(title, errs, "title");
          body := WithServerError(body, errs, "body");
        }
      }
    }
  }

  /** A valid form always sends its title and sends the body exactly when
      the user typed one. */
  lemma ValidFormSendsTitle(title: string, body: string)
    requires !IsBlank(title)
    ensures RequestBody(title, body).Keys == (if body == "" then {"title"} else {"title", "body"})
  {
  }
}

/** client/src/pages/PageUpdateUser/components/UpdateUserForm.tsx: the
    profile form, prefilled from `getCurrentUser`, with an image picker
    whose file is validated but never sent. */
module UpdateUserForm {
  import opened Wrappers
  import opened Text
  import opened Json
  import opened FormRules
  import opened ServerUtils

  /** The part of a `File` the form reads. */
  datatype File = File(name: string, mimeType: string)

  const UserNameRequiredMessage: string := "User name is required."
  const FirstNameRequiredMessage: string := "First name is required."
  const LastNameRequiredMessage: string := "Last name is required."
  const AllowedImageTypes: seq<string> := ["image/png", "image/jpeg", "image/jpg"]
  const ProfilePath: string := "/profile"
  const LoadFailedMessage: string := "Unable to get current user."

  /** `validateImage`: no file is fine; a file of another type is refused
      with a message naming it. */
  function ImageError(image: Option<File>): (e: string)
    ensures e == "" <==> image.None? || image.value.mimeType in AllowedImageTypes
    ensures e != "" ==>
              e == image.value.name + " uses file type of " + image.value.mimeType + ", which is not allowed."
  {
    match image
    case None => ""
    case Some(f) =>
      if IsOneOf(f.mimeType, AllowedImageTypes) then ""
      else f.name + " uses file type of " + f.mimeType + ", which is not allowed."
  }

  /** The five messages `validate()` gathers, in order. */
  function ValidatorResults(userName: string, firstName: string, lastName: string, email: string,
                            image: Option<File>): (r: seq<string>)
    ensures |r| == 5
    ensures (forall i :: 0 <= i < 5 ==> r[i] == "") <==>
              !IsBlank(userName) && !IsBlank(firstName) && !IsBlank(lastName) && IsEmail(email)
              && (image.None? || image.value.mimeType in AllowedImageTypes)
  {
    var r := [RequiredError(userName, UserNameRequiredMessage),
              RequiredError(firstName, FirstNameRequiredMessage),
              RequiredError(lastName, LastNameRequiredMessage),
              EmailError(email),
              ImageError(image)];
    assert r[0] == "" && r[1] == "" && r[2] == "" && r[3] == "" && r[4] == "" ==>
             forall i :: 0 <= i < 5 ==> r[i] == "";
    r
  }

  /** The request body: each of the four text fields only when non-empty,
      and never the image. */
  function RequestBody(userName: string, firstName: string, lastName: string, email: string): (body: map<string, Value>)
    ensures "image" !in body
    ensures forall k :: k in body ==> k in {"userName", "firstName", "lastName", "email"}
    ensures ("userName" in body <==> userName != "") && ("userName" in body ==> body["userName"] == Str(userName))
    ensures ("firstName" in body <==> firstName != "") && ("firstName" in body ==> body["firstName"] == Str(firstName))
    ensures ("lastName" in body <==> lastName != "") && ("lastName" in body ==> body["lastName"] == Str(lastName))
    ensures ("email" in body <==> email != "") && ("email" in body ==> body["email"] == Str(email))
  {
    (if userName != "" then map["userName" := Str(userName)] else map[])
    + (if firstName != "" then map["firstName" := Str(firstName)] else map[])
    + (if lastName != "" then map["lastName" := Str(lastName)] else map[])
    + (if email != "" then map["email" := Str(email)] else map[])
  }

  /** `success == true && data` */
  predicate IsUpdated(body: Value) {
    LooselyTrue(Prop(body, "success")) && Truthy(Prop(body, "data"))
  }

  /** A text field prefilled from the current user: set only when that
      property is a non-empty string. */
  function Prefilled(f: Field, user: Value, key: string): (g: Field)
    ensures Prop(user, key).Str? && Prop(user, key).s != "" ==> g == f.(value := Prop(user, key).s)
    ensures !Truthy(Prop(user, key)) ==> g == f
  {
    match Prop(user, key)
    case Str(s) => if s != "" then f.(value := s) else f
    case _ => f
  }

  class UpdateUserForm {
    var user: Value
    var userError: string
    var userName: Field
    var firstName: Field
    var lastName: Field
    var email: Field
    var image: Option<File>
    var imageTouched: bool
    var imageError: string
    var updatingUser: bool

    constructor ()
      ensures user == Undefined && userError == ""
      ensures userName == Untouched && firstName == Untouched && lastName == Untouched && email == Untouched
      ensures image == None && !imageTouched && imageError == "" && !updatingUser
    {
      user := Undefined;
      userError := "";
      userName := Untouched;
      firstName := Untouched;
      lastName := Untouched;
      email := Untouched;
      image := None;
      imageTouched := false;
      imageError := "";
      updatingUser := false;
    }

    /** `isErrors`/`allTouched` read only the first name, last name and
        e-mail fields. */
    predicate SubmitIsDisabled()
      reads this
    {
      SubmitDisabled([firstName, lastName, email])
    }

    /** `handleGetCurrentUser`, after the request settles with `result`: the
        error cleared before the request stays cleared on success. */
    method CurrentUserLoaded(result: Value)
      modifies this
      ensures IsUpdated(result) ==>
                var data := Prop(result, "data");
                user == data && userError == ""
                && userName == Prefilled(old(userName), data, "userName")
                && firstName == Prefilled(old(firstName), data, "firstName")
                && lastName == Prefilled(old(lastName), data, "lastName")
                && email == Prefilled(old(email), data, "email")
      ensures !IsUpdated(result) ==>
                userError == LoadFailedMessage && user == old(user)
                && userName == old(userName) && firstName == old(firstName)
                && lastName == old(lastName) && email == old(email)
      ensures image == old(image) && imageError == old(imageError) && updatingUser == old(updatingUser)
    {
      if IsUpdated(result) {
        var data := Prop(result, "data");
        userError := "";
        user := data;
        userName := Prefilled(userName, data, "userName");
        firstName := Prefilled(firstName, data, "firstName");
        lastName := Prefilled(lastName, data, "lastName");
        email := Prefilled(email, data, "email");
      } else {
        userError := LoadFailedMessage;
      }
    }

    /** `validate()` over the five validators. */
    method Validate() returns (isValid: bool, errors: seq<string>, toast: Option<string>)
      modifies this
      ensures toast == ValidationToast(isValid)
      ensures var r := ValidatorResults(old(userName.value), old(firstName.value), old(lastName.value),
                                        old(email.value), old(image));
              && userName == Validated(old(userName), r[0]) && firstName == Validated(old(firstName), r[1])
              && lastName == Validated(old(lastName), r[2]) && email == Validated(old(email), r[3])
              && imageTouched && imageError == r[4]
              && errors == NonEmpty(r)
              && (isValid <==> forall i :: 0 <= i < 5 ==> r[i] == "")
      ensures image == old(image) && user == old(user) && updatingUser == old(updatingUser)
    {
      var r := ValidatorResults(userName.value, firstName.value, lastName.value, email.value, image);
      ShowErrors(r);
      isValid, errors, toast := CollectErrors(r);
    }

    /** Touch the five inputs and show the five messages under them. */
    method ShowErrors(r: seq<string>)
      requires |r| == 5
      modifies this
      ensures userName == Validated(old(userName), r[0]) && firstName == Validated(old(firstName), r[1])
      ensures lastName == Validated(old(lastName), r[2]) && email == Validated(old(email), r[3])
      ensures imageTouched && imageError == r[4]
      ensures image == old(image) && user == old(user) && updatingUser == old(updatingUser)
    {
      userName := Validated(userName, r[0]);
      firstName := Validated(firstName, r[1]);
      lastName := Validated(lastName, r[2]);
      email := Validated(email, r[3]);
      imageTouched := true;
      imageError := r[4];
    }

    /** `handleSubmit`: a valid form sends the request body; an invalid
        one sends nothing and clears nothing. */
    method Submit() returns (sent: Option<map<string, Value>>, toast: Option<string>)
      modifies this
      ensures toast == ValidationToast(sent.Some?)
      ensures sent.Some? <==>
                !IsBlank(old(userName.value)) && !IsBlank(old(firstName.value)) && !IsBlank(old(lastName.value))
                && IsEmail(old(email.value)) && (old(image).None? || old(image).value.mimeType in AllowedImageTypes)
      ensures sent.Some? ==>
                sent.value == RequestBody(old(userName.value), old(firstName.value), old(lastName.value), old(email.value))
                && updatingUser
      ensures sent.None? ==> updatingUser == old(updatingUser)
      ensures userName.value == old(userName.value) && firstName.value == old(firstName.value)
      ensures lastName.value == old(lastName.value) && email.value == old(email.value) && image == old(image)
    {
      var isValid, _, shown := Validate();
      toast := shown;
      if !isValid {
        sent := None;
        return;
      }
      updatingUser := true;
      sent := Some(RequestBody(userName.value, firstName.value, lastName.value, email.value));
    }

    /** The `updateUser` response: success resets every field and goes to
        the profile page; otherwise each server field error is shown. */
    method UpdateSettled(result: Value) returns (navigateTo: Option<string>)
      modifies this
      ensures IsUpdated(result) ==>
                navigateTo == Some(ProfilePath)
                && userName == Untouched && firstName == Untouched && lastName == Untouched && email == Untouched
                && image == None && !imageTouched && imageError == ""
      ensures !IsUpdated(result) ==>
                var errs := Prop(result, "errors");
                navigateTo == None && image == old(image) && imageTouched == old(imageTouched)
                && (Truthy(errs) ==>
                      userName == WithServerError(old(userName), errs, "userName")
                      && firstName == WithServerError(old(firstName), errs, "firstName")
                      && lastName == WithServerError(old(lastName), errs, "lastName")
                      && email == WithServerError(old(email), errs, "email")
                      && imageError == WithServerError(Field("", false, old(imageError)), errs, "image").error)
                && (!Truthy(errs) ==>
                      userName == old(userName) && firstName == old(firstName) && lastName == old(lastName)
                      && email == old(email) && imageError == old(imageError))
      ensures !updatingUser && user == old(user)
    {
      navigateTo := None;
      if IsUpdated(result) {
        userName := Untouched;
        firstName := Untouched;
        lastName := Untouched;
        email := Untouched;
        image := None;
        imageTouched := false;
        imageError := "";
        navigateTo := Some(ProfilePath);
      } else {
        var errs := Prop(result, "errors");
        if Truthy(errs) {
          userName := WithServerError(userName, errs, "userName");
          firstName := WithServerError(firstName, errs, "firstName");
          lastName := WithServerError(lastName, errs, "lastName");
          email := WithServerError(email, errs, "email");
          imageError := WithServerError(Field("", false, imageError), errs, "image").error;
        }
      }
      updatingUser := false;
    }
  }

  /** The button ignores the user name: a form whose only problem is a
      blank user name has its button enabled after `validate()`, although
      `validate()` refused it. */
  lemma BlankUserNameLeavesButtonEnabled(userName: string, firstName: string, lastName: string, email: string)
    requires IsBlank(userName) && !IsBlank(firstName) && !IsBlank(lastName) && IsEmail(email)
    ensures var r := ValidatorResults(userName, firstName, lastName, email, None);
            NonEmpty(r) == [RequiredError(userName, UserNameRequiredMessage)]
            && !SubmitDisabled([Validated(Untouched.(value := firstName), r[1]),
                                Validated(Untouched.(value := lastName), r[2]),
                                Validated(Untouched.(value := email), r[3])])
  {
    var r := ValidatorResults(userName, firstName, lastName, email, None);
    assert r == [UserNameRequiredMessage, "", "", "", ""];
    assert NonEmpty(r) == [UserNameRequiredMessage] + NonEmpty(r[1..]);
    NonEmptyNone(r[1..]);
  }

  /** Every text field that passes `validate()` is sent: a non-blank
      value is non-empty. */
  lemma ValidFormSendsAllText(userName: string, firstName: string, lastName: string, email: string)
    requires !IsBlank(userName) && !IsBlank(firstName) && !IsBlank(lastName) && !IsBlank(email)
    ensures RequestBody(userName, firstName, lastName, email).Keys == {"userName", "firstName", "lastName", "email"}
  {
    assert IsBlank("");
    var body := RequestBody(userName, firstName, lastName, email);
    assert "userName" in body && "firstName" in body && "lastName" in body && "email" in body;
  }
}

/** client/src/pages/PageLogin/components/LoginForm.tsx: two fields, a
    password visibility toggle and the submit flow. The form destructures
    `setSession` from the auth context, which does not provide it, so the
    success branch calls `undefined` and lands in the `catch`. */
module LoginForm {
  import opened Wrappers
  import opened Text
  import opened Json
  import opened FormRules
  import AuthContext

  /** How the `loginUser` promise settles: with a response body, or by
      rejecting. */
  datatype Settled = Resolved(body: Value) | Rejected

  const LoginFailedMessage: string := "Unable to log in! Invalid credentials."
  const LoginErrorMessage: string := "Unable to log in user!"
  const LoginSucceededMessage: string := "User login successful!"

  /** `validatePassword`: required, nothing more. */
  function PasswordError(value: string): (e: string)
    ensures e == "" <==> !IsBlank(value)
    ensures e != "" ==> e == PasswordRequiredMessage
  {
    RequiredError(value, PasswordRequiredMessage)
  }

  /** The two messages `validate()` gathers, e-mail first. */
  function ValidatorResults(email: string, password: string): (r: seq<string>)
    ensures |r| == 2 && r[0] == EmailError(email) && r[1] == PasswordError(password)
    ensures (forall i :: 0 <= i < 2 ==> r[i] == "") <==> IsEmail(email) && !IsBlank(password)
  {
    var r := [EmailError(email), PasswordError(password)];
    assert r[0] == "" && r[1] == "" ==> forall i :: 0 <= i < 2 ==> r[i] == "";
    r
  }

  /** Whether the destructured `setSession` is a function: only when the
      context value has that key. */
  predicate ContextProvidesSetSession() {
    "setSession" in AuthContext.ContextKeys
  }

  /** The `.then` branch taken: the success branch only runs to completion
      when `setSession` exists; otherwise its call throws and the `.catch`
      toast is shown. `None` is a settled call that shows no toast. */
  function LoginToast(result: Settled): (t: Option<string>)
    ensures result.Rejected? ==> t == Some(LoginErrorMessage)
    ensures result.Resolved? && Prop(result.body, "success") == Bool(false) ==> t == Some(LoginFailedMessage)
  {
    match result
    case Rejected => Some(LoginErrorMessage)
    case Resolved(body) =>
      if Prop(body, "success") == Bool(true) && Truthy(Prop(body, "data")) then
        if ContextProvidesSetSession() then Some(LoginSucceededMessage) else Some(LoginErrorMessage)
      else if Prop(body, "success") == Bool(false) then Some(LoginFailedMessage)
      else None
  }

  /** Whether the success branch reached its `setEmail('')` and the resets
      after it. */
  predicate SuccessBranchCompletes(result: Settled) {
    result.Resolved? && Prop(result.body, "success") == Bool(true) && Truthy(Prop(result.body, "data"))
    && ContextProvidesSetSession()
  }

  /** Even a login the server accepts is reported as an error, and the form
      keeps the e-mail: the success branch never completes. */
  lemma AcceptedLoginReportsError(body: Value)
    requires Prop(body, "success") == Bool(true) && Truthy(Prop(body, "data"))
    ensures LoginToast(Resolved(body)) == Some(LoginErrorMessage)
    ensures !SuccessBranchCompletes(Resolved(body))
  {
    AuthContext.NoSetSession();
  }

  class LoginForm {
    var email: Field
    var password: Field
    var passwordType: string
    var loggingIn: bool

    constructor ()
      ensures email == Untouched && password == Untouched
      ensures passwordType == "password" && !loggingIn
    {
      email := Untouched;
      password := Untouched;
      passwordType := "password";
      loggingIn := false;
    }

    /** `disabled={allTouched && isErrors}` */
    predicate SubmitIsDisabled()
      reads this
    {
      SubmitDisabled([email, password])
    }

    /** `validate()`: touch both fields, run both validators in order, and
        collect their messages. */
    method Validate() returns (isValid: bool, errors: seq<string>, toast: Option<string>)
      modifies this
      ensures toast == ValidationToast(isValid)
      ensures email == Validated(old(email), EmailError(old(email.value)))
      ensures password == Validated(old(password), PasswordError(old(password.value)))
      ensures errors == NonEmpty([EmailError(old(email.value)), PasswordError(old(password.value))])
      ensures isValid <==> IsEmail(old(email.value)) && !IsBlank(old(password.value))
      ensures passwordType == old(passwordType) && loggingIn == old(loggingIn)
    {
      var r := ValidatorResults(email.value, password.value);
      email := Validated(email, r[0]);
      password := Validated(password, r[1]);
      isValid, errors, toast := CollectErrors(r);
    }

    /** `handleSubmit`: an invalid form clears the password, hides it and
        sends nothing; a valid one sends the two values and marks the form
        as logging in. */
    method Submit() returns (sent: Option<(string, string)>, toast: Option<string>)
      modifies this
      ensures toast == ValidationToast(sent.Some?)
      ensures email == Validated(old(email), EmailError(old(email.value)))
      ensures sent.Some? <==> IsEmail(old(email.value)) && !IsBlank(old(password.value))
      ensures sent.None? ==>
                password == Field("", true, PasswordError(old(password.value)))
                && passwordType == "password" && loggingIn == old(loggingIn)
      ensures sent.Some? ==>
                sent.value == (old(email.value), old(password.value))
                && password == Validated(old(password), "")
                && passwordType == old(passwordType) && loggingIn
    {
      var isValid, _, shown := Validate();
      toast := shown;
      if !isValid {
        password := password.(value := "");
        passwordType := "password";
        sent := None;
        return;
      }
      sent := Some((email.value, password.value));
      loggingIn := true;
    }

    /** The `loginUser` promise settles. Whatever the outcome, `.finally`
        clears the password, hides it and ends the loading state; the other
        resets happen only when the success branch completes. */
    method LoginSettled(result: Settled) returns (toast: Option<string>)
      modifies this
      ensures toast == LoginToast(result)
      ensures !SuccessBranchCompletes(result) ==> email == old(email)
      ensures !SuccessBranchCompletes(result) ==> password == old(password).(value := "")
      ensures passwordType == "password" && !loggingIn
    {
      toast := LoginToast(result);
      if SuccessBranchCompletes(result) {
        email := Untouched;
        password := Untouched;
      }
      password := password.(value := "");
      passwordType := "password";
      loggingIn := false;
    }

    /** `onChange` of the e-mail input: store the value; re-validate only
        once the field has been touched. */
    method EmailChanged(value: string)
      modifies this
      ensures email.value == value && email.touched == old(email.touched)
      ensures email.error == (if old(email.touched) then EmailError(value) else old(email.error))
      ensures password == old(password) && passwordType == old(passwordType) && loggingIn == old(loggingIn)
    {
      email := email.(value := value);
      if email.touched {
        email := email.(error := EmailError(value));
      }
    }

    /** `onBlur` of the e-mail input: touch and validate. */
    method EmailBlurred()
      modifies this
      ensures email == Validated(old(email), EmailError(old(email.value)))
      ensures password == old(password) && passwordType == old(passwordType) && loggingIn == old(loggingIn)
    {
      email := Validated(email, EmailError(email.value));
    }

    method PasswordChanged(value: string)
      modifies this
      ensures password.value == value && password.touched == old(password.touched)
      ensures password.error == (if old(password.touched) then PasswordError(value) else old(password.error))
      ensures email == old(email) && passwordType == old(passwordType) && loggingIn == old(loggingIn)
    {
      password := password.(value := value);
      if password.touched {
        password := password.(error := PasswordError(value));
      }
    }

    method PasswordBlurred()
      modifies this
      ensures password == Validated(old(password), PasswordError(old(password.value)))
      ensures email == old(email) && passwordType == old(passwordType) && loggingIn == old(loggingIn)
    {
      password := Validated(password, PasswordError(password.value));
    }

    /** The eye button. */
    method TogglePasswordType()
      modifies this
      ensures passwordType == Toggled(old(passwordType))
      ensures email == old(email) && password == old(password) && loggingIn == old(loggingIn)
    {
      passwordType := Toggled(passwordType);
    }
  }

  /** After a rejected submit both fields are touched, so the button stays
      disabled until an error is cleared; after an accepted one it is
      enabled. */
  lemma DisabledAfterSubmit(emailValue: string, passwordValue: string)
    ensures SubmitDisabled([Validated(Untouched.(value := emailValue), EmailError(emailValue)),
                            Validated(Untouched.(value := passwordValue), PasswordError(passwordValue))])
            <==> !IsEmail(emailValue) || IsBlank(passwordValue)
  {
    var fields := [Validated(Untouched.(value := emailValue), EmailError(emailValue)),
                   Validated(Untouched.(value := passwordValue), PasswordError(passwordValue))];
    if !IsEmail(emailValue) {
      assert fields[0].error != "";
    } else if IsBlank(passwordValue) {
      assert fields[1].error != "";
    }
  }
}

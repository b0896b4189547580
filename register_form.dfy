/** client/src/pages/PageRegister/components/RegisterForm.tsx: six
    required fields, the password confirmation rule, and the handling of
    the `createUser` result. */
module RegisterForm {
  import opened Wrappers
  import opened Text
  import opened Json
  import opened FormRules

  datatype Settled = Resolved(body: Value) | Rejected

  const UserNameRequiredMessage: string := "User name is required."
  const FirstNameRequiredMessage: string := "First name is required."
  const LastNameRequiredMessage: string := "Last name is required."
  const ConfirmRequiredMessage: string := "Password confirmation is required."
  const MismatchMessage: string := "The passwords must match."
  const RegisterFailedMessage: string := "Unable to register user!"
  const RegisteredMessage: string := "Registration successful!"

  /** `validateConfirmPassword(value, passwordValue)`: blank first, then
      exact equality with the password. */
  function ConfirmPasswordError(value: string, passwordValue: string): (e: string)
    ensures IsBlank(value) ==> e == ConfirmRequiredMessage
    ensures !IsBlank(value) && value != passwordValue ==> e == MismatchMessage
    ensures e == "" <==> !IsBlank(value) && value == passwordValue
  {
    if IsBlank(value) then ConfirmRequiredMessage
    else if value != passwordValue then MismatchMessage
    else ""
  }

  /** The six messages `validate()` gathers, in its fixed order. */
  function ValidatorResults(userName: string, firstName: string, lastName: string,
                            email: string, password: string, confirmPassword: string): (r: seq<string>)
    ensures |r| == 6
    ensures (forall i :: 0 <= i < 6 ==> r[i] == "") <==>
              !IsBlank(userName) && !IsBlank(firstName) && !IsBlank(lastName) && IsEmail(email)
              && !IsBlank(password) && !IsBlank(confirmPassword) && confirmPassword == password
  {
    var r := [RequiredError(userName, UserNameRequiredMessage),
              RequiredError(firstName, FirstNameRequiredMessage),
              RequiredError(lastName, LastNameRequiredMessage),
              EmailError(email),
              RequiredError(password, PasswordRequiredMessage),
              ConfirmPasswordError(confirmPassword, password)];
    assert r[0] == "" && r[1] == "" && r[2] == "" && r[3] == "" && r[4] == "" && r[5] == "" ==>
             forall i :: 0 <= i < 6 ==> r[i] == "";
    r
  }

  /** `success === false && errors && code === 'FORM_ERRORS'` */
  predicate IsFormErrors(body: Value) {
    Prop(body, "success") == Bool(false) && Truthy(Prop(body, "errors"))
    && Prop(body, "code") == Str("FORM_ERRORS")
  }

  /** `success === true && session` */
  predicate IsRegistered(body: Value) {
    Prop(body, "success") == Bool(true) && Truthy(Prop(body, "data"))
  }

  class RegisterForm {
    var userName: Field
    var firstName: Field
    var lastName: Field
    var email: Field
    var password: Field
    var confirmPassword: Field
    var passwordType: string
    var confirmPasswordType: string
    var creatingUser: bool

    constructor ()
      ensures userName == Untouched && firstName == Untouched && lastName == Untouched
      ensures email == Untouched && password == Untouched && confirmPassword == Untouched
      ensures passwordType == "password" && confirmPasswordType == "password" && !creatingUser
    {
      userName := Untouched;
      firstName := Untouched;
      lastName := Untouched;
      email := Untouched;
      password := Untouched;
      confirmPassword := Untouched;
      passwordType := "password";
      confirmPasswordType := "password";
      creatingUser := false;
    }

    function Fields(): seq<Field>
      reads this
    {
      [userName, firstName, lastName, email, password, confirmPassword]
    }

    /** `disabled={allTouched && isErrors}` over all six fields. */
    predicate SubmitIsDisabled()
      reads this
    {
      SubmitDisabled(Fields())
    }

    /** `validate()`: touch all six fields, set each error, and collect the
        messages in order. */
    method Validate() returns (isValid: bool, errors: seq<string>, toast: Option<string>)
      modifies this
      ensures toast == ValidationToast(isValid)
      ensures var r := ValidatorResults(old(userName.value), old(firstName.value), old(lastName.value),
                                        old(email.value), old(password.value), old(confirmPassword.value));
              && userName == Validated(old(userName), r[0]) && firstName == Validated(old(firstName), r[1])
              && lastName == Validated(old(lastName), r[2]) && email == Validated(old(email), r[3])
              && password == Validated(old(password), r[4]) && confirmPassword == Validated(old(confirmPassword), r[5])
              && errors == NonEmpty(r)
              && (isValid <==> forall i :: 0 <= i < 6 ==> r[i] == "")
      ensures isValid <==>
                !IsBlank(old(userName.value)) && !IsBlank(old(firstName.value)) && !IsBlank(old(lastName.value))
                && IsEmail(old(email.value)) && !IsBlank(old(password.value))
                && !IsBlank(old(confirmPassword.value)) && old(confirmPassword.value) == old(password.value)
      ensures passwordType == old(passwordType) && confirmPasswordType == old(confirmPasswordType)
      ensures creatingUser == old(creatingUser)
    {
      var r := ValidatorResults(userName.value, firstName.value, lastName.value,
                                email.value, password.value, confirmPassword.value);
      ShowErrors(r);
      isValid, errors, toast := CollectErrors(r);
    }

    /** Touch all six fields and show the six messages under them. */
    method ShowErrors(r: seq<string>)
      requires |r| == 6
      modifies this
      ensures userName == Validated(old(userName), r[0]) && firstName == Validated(old(firstName), r[1])
      ensures lastName == Validated(old(lastName), r[2]) && email == Validated(old(email), r[3])
      ensures password == Validated(old(password), r[4]) && confirmPassword == Validated(old(confirmPassword), r[5])
      ensures passwordType == old(passwordType) && confirmPasswordType == old(confirmPasswordType)
      ensures creatingUser == old(creatingUser)
    {
      userName := Validated(userName, r[0]);
      firstName := Validated(firstName, r[1]);
      lastName := Validated(lastName, r[2]);
      email := Validated(email, r[3]);
      password := Validated(password, r[4]);
      confirmPassword := Validated(confirmPassword, r[5]);
    }

    /** `handleSubmit`: an invalid form clears and hides both passwords and
        sends nothing; a valid one sends the six values. */
    method Submit() returns (sent: Option<seq<string>>, toast: Option<string>)
      modifies this
      ensures toast == ValidationToast(sent.Some?)
      ensures sent.Some? <==>
                !IsBlank(old(userName.value)) && !IsBlank(old(firstName.value)) && !IsBlank(old(lastName.value))
                && IsEmail(old(email.value)) && !IsBlank(old(password.value))
                && !IsBlank(old(confirmPassword.value)) && old(confirmPassword.value) == old(password.value)
      ensures sent.None? ==>
                password.value == "" && confirmPassword.value == ""
                && passwordType == "password" && confirmPasswordType == "password"
                && creatingUser == old(creatingUser)
      ensures sent.Some? ==>
                sent.value == [old(userName.value), old(firstName.value), old(lastName.value),
                               old(email.value), old(password.value), old(confirmPassword.value)]
                && creatingUser
      ensures userName.touched && firstName.touched && lastName.touched
      ensures email.touched && password.touched && confirmPassword.touched
    {
      var isValid, _, shown := Validate();
      toast := shown;
      if !isValid {
        password := password.(value := "");
        passwordType := "password";
        confirmPassword := confirmPassword.(value := "");
        confirmPasswordType := "password";
        sent := None;
        return;
      }
      sent := Some([userName.value, firstName.value, lastName.value, email.value, password.value, confirmPassword.value]);
      creatingUser := true;
    }

    /** The `createUser` promise settles. `session` is what is handed to
        `handleAuthSuccess`. */
    method RegisterSettled(result: Settled) returns (session: Option<Value>, toast: Option<string>)
      modifies this
      ensures result.Resolved? && IsRegistered(result.body) ==>
                session == Some(Prop(result.body, "data")) && toast == Some(RegisteredMessage)
                && Fields() == [Untouched, Untouched, Untouched, Untouched, Untouched, Untouched]
      ensures result.Resolved? && IsFormErrors(result.body) && IsObjectType(Prop(result.body, "errors")) ==>
                var errs := Prop(result.body, "errors");
                session == None && toast == Some(RegisterFailedMessage)
                && userName == WithServerError(old(userName), errs, "userName")
                && firstName == WithServerError(old(firstName), errs, "firstName")
                && lastName == WithServerError(old(lastName), errs, "lastName")
                && email == WithServerError(old(email), errs, "email")
                && password == WithServerError(old(password), errs, "password").(value := "")
                && confirmPassword == WithServerError(old(confirmPassword), errs, "confirmPassword").(value := "")
      ensures result.Resolved? && IsFormErrors(result.body) && !IsObjectType(Prop(result.body, "errors")) ==>
                session == None && toast == Some(RegisterFailedMessage)
                && Fields() == old(Fields())[4 := old(password).(value := "")][5 := old(confirmPassword).(value := "")]
      ensures result.Rejected? ==>
                session == None && toast == Some(RegisterFailedMessage)
                && Fields() == old(Fields())[4 := old(password).(value := "")][5 := old(confirmPassword).(value := "")]
      ensures result.Resolved? && !IsRegistered(result.body) && !IsFormErrors(result.body) ==>
                session == None && toast == None && Fields() == old(Fields())
      ensures passwordType == "password" && confirmPasswordType == "password" && !creatingUser
    {
      session := None;
      toast := None;
      match result {
        case Resolved(body) =>
          if IsRegistered(body) {
            session := Some(Prop(body, "data"));
            userName := Untouched;
            firstName := Untouched;
            lastName := Untouched;
            email := Untouched;
            password := Untouched;
            confirmPassword := Untouched;
            toast := Some(RegisteredMessage);
          }
          if IsFormErrors(body) {
            var errs := Prop(body, "errors");
            if IsObjectType(errs) {
              userName := WithServerError(userName, errs, "userName");
              firstName := WithServerError(firstName, errs, "firstName");
              lastName := WithServerError(lastName, errs, "lastName");
              email := WithServerError(email, errs, "email");
              password := WithServerError(password, errs, "password");
              confirmPassword := WithServerError(confirmPassword, errs, "confirmPassword");
            }
            password := password.(value := "");
            confirmPassword := confirmPassword.(value := "");
            toast := Some(RegisterFailedMessage);
          }
        case Rejected =>
          password := password.(value := "");
          confirmPassword := confirmPassword.(value := "");
          toast := Some(RegisterFailedMessage);
      }
      passwordType := "password";
      confirmPasswordType := "password";
      creatingUser := false;
    }

    /** `onChange` of the password input: store it, re-validate it once
        touched, and re-check the confirmation against the new value once
        the confirmation has been touched. */
    method PasswordChanged(value: string)
      modifies this
      ensures password.value == value && password.touched == old(password.touched)
      ensures password.error == (if old(password.touched) then RequiredError(value, PasswordRequiredMessage) else old(password.error))
      ensures confirmPassword.value == old(confirmPassword.value) && confirmPassword.touched == old(confirmPassword.touched)
      ensures confirmPassword.error ==
                (if old(confirmPassword.touched) then ConfirmPasswordError(old(confirmPassword.value), value)
                 else old(confirmPassword.error))
      ensures userName == old(userName) && firstName == old(firstName) && lastName == old(lastName) && email == old(email)
    {
      password := password.(value := value);
      if password.touched {
        password := password.(error := RequiredError(value, PasswordRequiredMessage));
      }
      if confirmPassword.touched {
        confirmPassword := confirmPassword.(error := ConfirmPasswordError(confirmPassword.value, value));
      }
    }

    /** `onChange` of the confirmation input: checked against the stored
        password. */
    method ConfirmPasswordChanged(value: string)
      modifies this
      ensures confirmPassword.value == value && confirmPassword.touched == old(confirmPassword.touched)
      ensures confirmPassword.error ==
                (if old(confirmPassword.touched) then ConfirmPasswordError(value, old(password.value))
                 else old(confirmPassword.error))
      ensures password == old(password)
      ensures userName == old(userName) && firstName == old(firstName) && lastName == old(lastName) && email == old(email)
    {
      confirmPassword := confirmPassword.(value := value);
      if confirmPassword.touched {
        confirmPassword := confirmPassword.(error := ConfirmPasswordError(value, password.value));
      }
    }
  }

  /** A touched confirmation shows no error after a password edit exactly
      when it is non-blank and equal to the new password. */
  lemma ConfirmationFollowsPassword(confirm: string, newPassword: string)
    ensures ConfirmPasswordError(confirm, newPassword) == "" <==> !IsBlank(confirm) && confirm == newPassword
    ensures IsBlank(confirm) ==> ConfirmPasswordError(confirm, newPassword) == ConfirmRequiredMessage
  {
  }

  /** A registration that passes `validate()` has a non-blank password, so
      the confirmation check reduces to plain equality. */
  lemma ValidRegistrationPasswordsMatch(userName: string, firstName: string, lastName: string,
                                        email: string, password: string, confirmPassword: string)
    requires var r := ValidatorResults(userName, firstName, lastName, email, password, confirmPassword);
             NonEmpty(r) == []
    ensures confirmPassword == password && !IsBlank(password)
    ensures IsEmail(email)
  {
    var r := ValidatorResults(userName, firstName, lastName, email, password, confirmPassword);
    forall i | 0 <= i < 6
      ensures r[i] == ""
    {
      assert r[i] in r;
    }
  }
}

/** The validation rules every client form repeats: the blank test of
    `!value || value.trim() === ''`, the e-mail pattern the forms copy from
    the HTML `<input type="email">` documentation, the `validate()` loop that
    collects the non-empty messages, the submit-button rule, the copying of
    server field errors and the password visibility toggle. */
module FormRules {
  import opened Wrappers
  import opened Text
  import opened Json
  import opened ServerUtils

  /** One input's three state cells: its value, whether it has been
      touched, and the error shown under it. */
  datatype Field = Field(value: string, touched: bool, error: string)

  /** The cells' initial values, and what a successful submit resets to. */
  const Untouched: Field := Field("", false, "")

  const EmailRequiredMessage: string := "An email is required."
  const EmailInvalidMessage: string := "A valid email is required."
  const PasswordRequiredMessage: string := "A password is required."

  /** A character the local part of the pattern accepts:
      `[a-zA-Z0-9.!#$%&'*+/=?^_`{|}~-]`. */
  predicate IsLocalChar(c: char) {
    IsAsciiAlnum(c) || c == '.' || c == '!' || c == '#' || c == '$' || c == '%' || c == '&'
    || c == '\'' || c == '*' || c == '+' || c == '/' || c == '=' || c == '?' || c == '^' || c == '_'
    || c == '`' || c == '{' || c == '|' || c == '}' || c == '~' || c == '-'
  }

  /** One domain label: `[a-zA-Z0-9](?:[a-zA-Z0-9-]{0,61}[a-zA-Z0-9])?`,
      that is 1 to 63 letters, digits and hyphens, starting and ending with
      a letter or digit. */
  predicate IsLabel(l: string) {
    1 <= |l| <= 63 && IsAsciiAlnum(l[0]) && IsAsciiAlnum(l[|l| - 1])
    && forall i :: 0 <= i < |l| ==> IsAsciiAlnum(l[i]) || l[i] == '-'
  }

  /** One or more labels separated by single dots. A label has no dot, so
      the first dot ends the first label. */
  predicate IsDomain(d: string)
    decreases |d|
  {
    var j := IndexOf(d, '.');
    if j < 0 then IsLabel(d)
    else IsLabel(d[..j]) && IsDomain(d[j + 1..])
  }

  /** `regex.test(value)` for the whole-string e-mail pattern: a non-empty
      local part, `@`, and a domain. The local part has no `@`, so the first
      `@` is the separator. */
  predicate IsEmail(s: string) {
    var i := IndexOf(s, '@');
    i > 0
    && (forall k :: 0 <= k < i ==> IsLocalChar(s[k]))
    && IsDomain(s[i + 1..])
  }

  lemma LabelShape(l: string)
    requires IsLabel(l)
    ensures '@' !in l && '.' !in l
  {
    forall k | 0 <= k < |l|
      ensures l[k] != '@' && l[k] != '.'
    {
      assert IsAsciiAlnum(l[k]) || l[k] == '-';
    }
  }

  lemma LocalCharShape(c: char)
    requires IsLocalChar(c)
    ensures c != '@' && !IsJsWhitespace(c)
  {
  }

  lemma AlnumShape(c: char)
    requires IsAsciiAlnum(c)
    ensures !IsJsWhitespace(c)
  {
  }

  /** A domain is never empty, never contains `@`, and starts and ends with
      a letter or digit. */
  lemma {:induction false} DomainShape(d: string)
    requires IsDomain(d)
    ensures |d| >= 1 && '@' !in d && IsAsciiAlnum(d[0]) && IsAsciiAlnum(d[|d| - 1])
    decreases |d|
  {
    var j := IndexOf(d, '.');
    if j < 0 {
      LabelShape(d);
    } else {
      var l, rest := d[..j], d[j + 1..];
      LabelShape(l);
      DomainShape(rest);
      assert d == l + ['.'] + rest;
      forall k | 0 <= k < |d|
        ensures d[k] != '@'
      {
        if k < j {
          assert d[k] == l[k];
        } else if k > j {
          assert d[k] == rest[k - j - 1];
        }
      }
      assert d[0] == l[0];
      assert d[|d| - 1] == rest[|rest| - 1];
    }
  }

  /** A character found at `i` and nowhere else in the string occurs only
      at `i`. */
  lemma OnlyAt(s: string, c: char, i: nat)
    requires i < |s| && c !in s[..i] && c !in s[i + 1..]
    ensures forall k :: 0 <= k < |s| && s[k] == c ==> k == i
  {
    forall k | 0 <= k < |s| && s[k] == c
      ensures k == i
    {
    }
  }

  /** The `@` that splits an accepted address is its only one. */
  lemma EmailSingleAt(s: string)
    requires IsEmail(s)
    ensures forall k :: 0 <= k < |s| && s[k] == '@' ==> k == IndexOf(s, '@')
  {
    var i := IndexOf(s, '@');
    DomainShape(s[i + 1..]);
    OnlyAt(s, '@', i);
  }

  /** An accepted address starts with a local-part character and ends with
      the domain's last letter or digit. */
  lemma EmailEnds(s: string)
    requires IsEmail(s)
    ensures |s| >= 3 && !IsJsWhitespace(s[0]) && !IsJsWhitespace(s[|s| - 1])
  {
    var i := IndexOf(s, '@');
    var d := s[i + 1..];
    DomainShape(d);
    LocalCharShape(s[0]);
    assert s[|s| - 1] == d[|d| - 1];
    AlnumShape(s[|s| - 1]);
  }

  /** An address the pattern accepts has exactly one `@`, is not blank and
      has no whitespace at either end. */
  lemma EmailShape(s: string)
    requires IsEmail(s)
    ensures forall k :: 0 <= k < |s| && s[k] == '@' ==> k == IndexOf(s, '@')
    ensures !IsBlank(s)
    ensures !IsJsWhitespace(s[0]) && !IsJsWhitespace(s[|s| - 1])
  {
    EmailSingleAt(s);
    EmailEnds(s);
  }

  /** The blank test shared by every required field. */
  function RequiredError(value: string, message: string): (e: string)
    ensures e == "" || e == message
    ensures message != "" ==> (e == "" <==> !IsBlank(value))
  {
    if IsBlank(value) then message else ""
  }

  /** `validateEmail`: blank first, then the pattern. */
  function EmailError(value: string): (e: string)
    ensures IsBlank(value) ==> e == EmailRequiredMessage
    ensures !IsBlank(value) && !IsEmail(value) ==> e == EmailInvalidMessage
    ensures e == "" <==> IsEmail(value)
  {
    if IsBlank(value) then EmailRequiredMessage
    else if !IsEmail(value) then EmailInvalidMessage
    else
      EmailShape(value);
      ""
  }

  const TitleRequiredMessage: string := "A title is required."

  /** `validateTitle`, the same in the create and the update todo forms. */
  function TitleError(value: string): (e: string)
    ensures e == "" <==> !IsBlank(value)
    ensures e != "" ==> e == TitleRequiredMessage
  {
    RequiredError(value, TitleRequiredMessage)
  }

  /** The truthy messages of `errors`, in order. */
  function NonEmpty(errors: seq<string>): (r: seq<string>)
    ensures |r| <= |errors|
    ensures forall e :: e in r <==> e in errors && e != ""
  {
    if errors == [] then []
    else
      assert errors == [errors[0]] + errors[1..];
      (if errors[0] != "" then [errors[0]] else []) + NonEmpty(errors[1..])
  }

  lemma {:induction false} NonEmptyAppend(a: seq<string>, b: seq<string>)
    ensures NonEmpty(a + b) == NonEmpty(a) + NonEmpty(b)
  {
    if a == [] {
      assert a + b == b;
    } else {
      assert (a + b)[1..] == a[1..] + b;
      NonEmptyAppend(a[1..], b);
    }
  }

  /** No message is collected exactly when every validator returned `''`. */
  lemma NonEmptyNone(errors: seq<string>)
    ensures NonEmpty(errors) == [] <==> forall i :: 0 <= i < |errors| ==> errors[i] == ""
  {
    if NonEmpty(errors) != [] {
      assert NonEmpty(errors)[0] in NonEmpty(errors);
    } else {
      forall i | 0 <= i < |errors|
        ensures errors[i] == ""
      {
        assert errors[i] in errors;
      }
    }
  }

  const ValidationFailedToast: string := "Form validation errors found!"

  /** The toast every form's `validate()` shows when it returns early. */
  function ValidationToast(isValid: bool): (t: Option<string>)
    ensures t.Some? <==> !isValid
    ensures t.Some? ==> t.value == ValidationFailedToast
  {
    if isValid then None else Some(ValidationFailedToast)
  }

  /** `validators.forEach(v => { const error = v(); if (error) errors.push(error) })`,
      then `toast.error(...)` when `errors.length >= 1`, and `isValid`
      exactly when nothing was collected. */
  method CollectErrors(results: seq<string>) returns (isValid: bool, errors: seq<string>, toast: Option<string>)
    ensures errors == NonEmpty(results)
    ensures isValid <==> forall i :: 0 <= i < |results| ==> results[i] == ""
    ensures toast.Some? <==> |errors| >= 1
    ensures toast == ValidationToast(isValid)
  {
    errors := [];
    var i := 0;
    while i < |results|
      invariant 0 <= i <= |results|
      invariant errors == NonEmpty(results[..i])
    {
      NonEmptyAppend(results[..i], [results[i]]);
      assert results[..i + 1] == results[..i] + [results[i]];
      if results[i] != "" {
        errors := errors + [results[i]];
      }
      i := i + 1;
    }
    assert results[..i] == results;
    isValid := |errors| < 1;
    toast := if |errors| >= 1 then Some(ValidationFailedToast) else None;
    if !isValid {
      assert errors[0] in results;
    } else {
      forall k | 0 <= k < |results|
        ensures results[k] == ""
      {
        assert results[k] in results;
      }
    }
  }

  /** `disabled={allTouched && isErrors}` over the fields the form counts. */
  predicate SubmitDisabled(fields: seq<Field>) {
    (forall i :: 0 <= i < |fields| ==> fields[i].touched)
    && exists i :: 0 <= i < |fields| && fields[i].error != ""
  }

  /** A field after `validate()`: touched, with its validator's message. */
  function Validated(f: Field, error: string): (g: Field)
    ensures g.value == f.value && g.touched && g.error == error
  {
    Field(f.value, true, error)
  }

  /** After `validate()` every counted field is touched, so the button is
      disabled exactly when some validator failed. */
  lemma DisabledAfterValidate(fields: seq<Field>, results: seq<string>)
    requires |fields| == |results|
    ensures var after := seq(|fields|, i requires 0 <= i < |fields| => Validated(fields[i], results[i]));
            SubmitDisabled(after) <==> exists i :: 0 <= i < |results| && results[i] != ""
  {
    var after := seq(|fields|, i requires 0 <= i < |fields| => Validated(fields[i], results[i]));
    if exists i :: 0 <= i < |results| && results[i] != "" {
      var i :| 0 <= i < |results| && results[i] != "";
      assert after[i].error != "";
    }
  }

  /** `if (errors.x) setXError(errors.x)`: a truthy server message for the
      field replaces its error; anything else leaves it. */
  function WithServerError(f: Field, errors: Value, key: string): (g: Field)
    ensures g.value == f.value && g.touched == f.touched
    ensures Truthy(Prop(errors, key)) && Prop(errors, key).Str? ==> g.error == Prop(errors, key).s
    ensures !Truthy(Prop(errors, key)) ==> g == f
  {
    match Prop(errors, key)
    case Str(s) => if s != "" then f.(error := s) else f
    case _ => f
  }

  /** `v == true` with loose equality, for the values a response body
      carries: `true` itself or the number 1. */
  predicate LooselyTrue(v: Value) {
    v == Bool(true) || v == Num(1)
  }

  /** The visibility toggle: `'password'` becomes `'text'`, anything else
      becomes `'password'`. */
  function Toggled(inputType: string): (t: string)
    ensures inputType == "password" ==> t == "text"
    ensures inputType != "password" ==> t == "password"
  {
    if inputType == "password" then "text" else "password"
  }

  lemma ToggleTwice(inputType: string)
    requires inputType == "password" || inputType == "text"
    ensures Toggled(Toggled(inputType)) == inputType
  {
  }
}

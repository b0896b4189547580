/** server/src/utils/index.ts: `isOneOf`, `getErrorMessage`,
    `transformToSlug`, `stripObj`, `stripObjOfUndefined` and the response
    `handleServerError` sends. */
module ServerUtils {
  import opened Wrappers
  import opened Json
  import opened Text
  import opened Types

  /** `allowedValues.indexOf(value)`: the first position, or -1. */
  function IndexOf<T(==)>(allowedValues: seq<T>, value: T): (r: int)
    ensures -1 <= r < |allowedValues|
    ensures r == -1 <==> value !in allowedValues
    ensures r >= 0 ==> allowedValues[r] == value && value !in allowedValues[..r]
  {
    if allowedValues == [] then -1
    else if allowedValues[0] == value then 0
    else
      var i := IndexOf(allowedValues[1..], value);
      assert allowedValues == [allowedValues[0]] + allowedValues[1..];
      if i == -1 then -1
      else
        assert allowedValues[..i + 1] == [allowedValues[0]] + allowedValues[1..][..i];
        i + 1
  }

  /** `isOneOf(value, allowedValues)`; `===` on the model's values is
      structural, which matches JavaScript for strings, numbers and booleans. */
  function IsOneOf<T(==)>(value: T, allowedValues: seq<T>): (b: bool)
    ensures b <==> value in allowedValues
  {
    IndexOf(allowedValues, value) != -1
  }

  /** `getErrorMessage(err, fallBackMessage)`: `None` where the source throws
      (`err.message` on `undefined`). */
  function GetErrorMessage(err: Value, fallBackMessage: string): (m: Option<Value>)
    ensures err.Null? ==> m == Some(Str(fallBackMessage))
    ensures m.None? <==> err.Undefined?
    ensures m.Some? ==> Truthy(m.value) || m.value == Str(fallBackMessage)
    ensures !err.Null? && Truthy(Prop(Prop(Prop(err, "response"), "data"), "message")) ==>
              m == Some(Prop(Prop(Prop(err, "response"), "data"), "message"))
  {
    if err.Null? then Some(Str(fallBackMessage))
    else
      var nested := Prop(Prop(Prop(err, "response"), "data"), "message");
      if Truthy(nested) then Some(nested)
      else if err.Undefined? then None
      else if Truthy(Prop(err, "message")) then Some(Prop(err, "message"))
      else Some(Str(fallBackMessage))
  }

  /** The default `fallBackMessage`. */
  const DefaultFallBackMessage: string := "The request failed!"

  /** `getErrorMessage` reads the response's message before the error's own. */
  lemma ErrorMessagePrecedence(responseMessage: string, ownMessage: string)
    requires responseMessage != "" && ownMessage != ""
    ensures var err := Obj(map["message" := Str(ownMessage),
                               "response" := Obj(map["data" := Obj(map["message" := Str(responseMessage)])])]);
            GetErrorMessage(err, DefaultFallBackMessage) == Some(Str(responseMessage))
    ensures GetErrorMessage(Obj(map["message" := Str(ownMessage)]), DefaultFallBackMessage) == Some(Str(ownMessage))
    ensures GetErrorMessage(Obj(map[]), DefaultFallBackMessage) == Some(Str(DefaultFallBackMessage))
  {
  }

  /** The characters `/[^a-zA-Z0-9 ]/g` leaves in place. */
  predicate IsSlugSource(c: char) {
    IsAsciiAlnum(c) || c == ' '
  }

  /** `.replaceAll(/[^a-zA-Z0-9 ]/g, '')` */
  function RemoveDisallowed(s: string): (r: string)
    ensures |r| <= |s|
    ensures forall i :: 0 <= i < |r| ==> IsSlugSource(r[i])
  {
    if s == [] then []
    else (if IsSlugSource(s[0]) then [s[0]] else []) + RemoveDisallowed(s[1..])
  }

  /** `.replaceAll(' ', '-')` */
  function SpacesToHyphens(s: string): (r: string)
    ensures |r| == |s|
    ensures forall i :: 0 <= i < |s| ==> r[i] == (if s[i] == ' ' then '-' else s[i])
  {
    if s == [] then [] else [if s[0] == ' ' then '-' else s[0]] + SpacesToHyphens(s[1..])
  }

  predicate IsSlugChar(c: char) {
    IsAsciiLower(c) || IsAsciiDigit(c) || c == '-'
  }

  /** The three chained string operations of `transformToSlug`. */
  function Slug(s: string): (r: string)
    ensures |r| <= |s|
    ensures forall i :: 0 <= i < |r| ==> IsSlugChar(r[i])
  {
    var kept := RemoveDisallowed(s);
    var hyphenated := SpacesToHyphens(kept);
    assert forall i :: 0 <= i < |hyphenated| ==> IsAsciiAlnum(hyphenated[i]) || hyphenated[i] == '-';
    Lower(hyphenated)
  }

  /** `transformToSlug(str)`: falsy and non-string input comes back as it was. */
  function TransformToSlug(str: Value): (r: Value)
    ensures !Truthy(str) || !str.Str? ==> r == str
    ensures str.Str? && str.s != "" ==> r.Str? && r.s == Slug(str.s)
  {
    if !Truthy(str) || !str.Str? then str else Str(Slug(str.s))
  }

  /** A one-pass reading of the slug rule: each character independently
      becomes a hyphen (space), its lower-case form (letter or digit) or
      nothing (anything else, including an input hyphen). */
  function SlugChar(c: char): string {
    if c == ' ' then "-" else if IsAsciiAlnum(c) then [LowerChar(c)] else ""
  }

  function SlugByChar(s: string): string {
    if s == [] then [] else SlugChar(s[0]) + SlugByChar(s[1..])
  }

  lemma {:induction false} SlugIsCharwise(s: string)
    ensures Slug(s) == SlugByChar(s)
  {
    if s != [] {
      SlugIsCharwise(s[1..]);
      var head := if IsSlugSource(s[0]) then [s[0]] else [];
      assert RemoveDisallowed(s) == head + RemoveDisallowed(s[1..]);
      SpacesToHyphensAppend(head, RemoveDisallowed(s[1..]));
      LowerAppend(SpacesToHyphens(head), SpacesToHyphens(RemoveDisallowed(s[1..])));
    }
  }

  lemma {:induction false} SpacesToHyphensAppend(a: string, b: string)
    ensures SpacesToHyphens(a + b) == SpacesToHyphens(a) + SpacesToHyphens(b)
  {
    assert forall i :: 0 <= i < |a + b| ==> SpacesToHyphens(a + b)[i] == (SpacesToHyphens(a) + SpacesToHyphens(b))[i];
  }

  lemma {:induction false} LowerAppend(a: string, b: string)
    ensures Lower(a + b) == Lower(a) + Lower(b)
  {
    assert forall i :: 0 <= i < |a + b| ==> Lower(a + b)[i] == (Lower(a) + Lower(b))[i];
  }

  /** Slugging is not idempotent: an input hyphen is dropped, so a slug
      with a hyphen in it loses the hyphen when slugged again. */
  lemma SlugNotIdempotent()
    ensures Slug("a b") == "a-b" && Slug("a-b") == "ab"
  {
    SlugByCharExample();
    SlugIsCharwise("a b");
    SlugIsCharwise("a-b");
  }

  lemma SlugByCharExample()
    ensures SlugByChar("a b") == "a-b" && SlugByChar("a-b") == "ab"
  {
    var b, sb, hb, asb, ahb := "b", " b", "-b", "a b", "a-b";
    assert b[1..] == [] && sb[1..] == b && hb[1..] == b && asb[1..] == sb && ahb[1..] == hb;
    assert SlugByChar(b) == "b";
    assert SlugByChar(sb) == "-b";
    assert SlugByChar(hb) == "b";
  }

  /** `stripObj(obj, allowedKeys)`: copy the object, then walk its keys and
      delete every key not in `allowedKeys`. */
  method StripObj(obj: map<string, Value>, allowedKeys: seq<string>) returns (newObject: map<string, Value>)
    ensures newObject.Keys == obj.Keys * (set k | k in allowedKeys)
    ensures forall k :: k in newObject ==> newObject[k] == obj[k]
  {
    newObject := obj;
    var keys := obj.Keys;
    while keys != {}
      invariant keys <= newObject.Keys <= obj.Keys
      invariant forall k :: k in obj && k !in keys ==> (k in newObject <==> k in allowedKeys)
      invariant forall k :: k in newObject ==> newObject[k] == obj[k]
      decreases keys
    {
      var key :| key in keys;
      if !IsOneOf(key, allowedKeys) {
        newObject := newObject - {key};
      }
      keys := keys - {key};
    }
  }

  /** With the default `allowedKeys = []` nothing survives. */
  method StripObjDefault(obj: map<string, Value>) returns (newObject: map<string, Value>)
    ensures newObject == map[]
  {
    newObject := StripObj(obj, []);
  }

  /** `stripObjOfUndefined(obj)`: falsy and non-object input comes back as
      it was; otherwise a fresh copy with every `undefined`-valued key
      deleted. */
  method StripObjOfUndefined(obj: Value) returns (r: Value)
    ensures !Truthy(obj) || !IsObjectType(obj) ==> r == obj
    ensures Truthy(obj) && IsObjectType(obj) ==>
              r.Obj? && r.fields == map k | k in Spread(obj) && !Spread(obj)[k].Undefined? :: Spread(obj)[k]
  {
    if !Truthy(obj) || !IsObjectType(obj) {
      return obj;
    }
    var copy := Spread(obj);
    var keys := copy.Keys;
    while keys != {}
      invariant keys <= copy.Keys <= Spread(obj).Keys
      invariant forall k :: k in copy ==> copy[k] == Spread(obj)[k]
      invariant forall k :: k in Spread(obj) && k !in keys ==> (k in copy <==> !Spread(obj)[k].Undefined?)
      decreases keys
    {
      var key :| key in keys;
      if copy[key].Undefined? {
        copy := copy - {key};
      }
      keys := keys - {key};
    }
    return Obj(copy);
  }

  /** An object without undefined values comes back with the same fields.
      Whether the result is the same object or a copy is not modelled. */
  method StripObjOfUndefinedCopies(fields: map<string, Value>) returns (r: Value)
    requires forall k :: k in fields ==> !fields[k].Undefined?
    ensures r == Obj(fields)
  {
    r := StripObjOfUndefined(Obj(fields));
  }

  /** `handleServerError(res, err)`: always 500; the error's own message is
      shown only in development and only for an `Error`. */
  function HandleServerError(isDevelopment: bool, err: Thrown): (r: Response)
    ensures r.status == 500 && r.code == Some(INTERNAL_SERVER_ERROR) && !r.success
    ensures r.data == NoData && r.cookies == [] && r.errors == None
    ensures r.message == (if isDevelopment && err.ErrorThrown? then err.message else "Server error.")
  {
    var message := if isDevelopment && err.ErrorThrown? then err.message else "Server error.";
    Response(500, Some(INTERNAL_SERVER_ERROR), NoData, None, message, false, [])
  }
}

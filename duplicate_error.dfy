/** Normalisation of a unique-index collision reported by the document store. */
module DuplicateErrors {
  import opened Wrappers
  import opened JsString
  import opened Zod
  import opened ErrorTypes

  /** `Object.keys(keyValue || {})[0]`: undefined when there is no key. */
  function FirstKey(keyValue: Option<seq<(string, string)>>): Option<string> {
    if keyValue.Some? && keyValue.value != [] then Some(keyValue.value[0].0) else None
  }

  /** `keyValue ? keyValue[field] : 'unknown value'`. */
  function CollidingValue(keyValue: Option<seq<(string, string)>>): Option<string> {
    if keyValue.None? then Some("unknown value")
    else if keyValue.value == [] then None
    else Some(keyValue.value[0].1)
  }

  function DuplicateMessage(value: string, field: string): string {
    "The value '" + value + "' already exists for the field '" + field + "'."
  }

  /** The message names both the value and the field. */
  lemma DuplicateMessageNames(value: string, field: string)
    ensures Contains(DuplicateMessage(value, field), value)
    ensures Contains(DuplicateMessage(value, field), field)
  {
    var tail := "' already exists for the field '" + field + "'.";
    assert DuplicateMessage(value, field) == "The value '" + value + tail;
    ContainsMiddle("The value '", value, tail);
    var head := "The value '" + value + "' already exists for the field '";
    assert DuplicateMessage(value, field) == head + field + "'.";
    ContainsMiddle(head, field, "'.");
  }

  function HandleDuplicateError(keyValue: Option<seq<(string, string)>>): (r: ErrorResponse)
    ensures r.statusCode == 400 && r.message == "Duplicate value error." && r.stack.None?
    ensures |r.errorSources| == 1
    ensures Truthy(FirstKey(keyValue)) ==> r.errorSources[0].path == Some(Key(FirstKey(keyValue).value))
    ensures !Truthy(FirstKey(keyValue)) ==> r.errorSources[0].path == Some(Key("unknown"))
    ensures Contains(r.errorSources[0].message, Interpolate(CollidingValue(keyValue)))
    ensures Contains(r.errorSources[0].message, Interpolate(FirstKey(keyValue)))
  {
    var field := FirstKey(keyValue);
    var value := CollidingValue(keyValue);
    DuplicateMessageNames(Interpolate(value), Interpolate(field));
    ErrorResponse(BAD_REQUEST, "Duplicate value error.",
      [ErrorSource(Some(Key(if Truthy(field) then field.value else "unknown")), DuplicateMessage(Interpolate(value), Interpolate(field)))], None)
  }

  /** Without `keyValue` the path is 'unknown', the value 'unknown value', and the field prints as undefined. */
  lemma NoKeyValue()
    ensures HandleDuplicateError(None).errorSources
         == [ErrorSource(Some(Key("unknown")), DuplicateMessage("unknown value", "undefined"))]
  {
  }

  /** The collision the user store reports for a taken email. */
  lemma DuplicateEmail(email: string)
    ensures HandleDuplicateError(Some([("email", email)])).errorSources
         == [ErrorSource(Some(Key("email")), DuplicateMessage(email, "email"))]
  {
  }
}

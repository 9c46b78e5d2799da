/** Normalisation of a value the document mapper could not cast. */
module CastErrors {
  import opened Wrappers
  import opened JsString
  import opened Zod
  import opened ErrorTypes

  function CastMessage(path: string, kind: string): string {
    "Invalid value for the field '" + path + "'. Expected a valid " + kind + "."
  }

  /** The message names both the path and the expected kind. */
  lemma CastMessageNames(path: string, kind: string)
    ensures Contains(CastMessage(path, kind), path) && Contains(CastMessage(path, kind), kind)
  {
    var tail := "'. Expected a valid " + kind + ".";
    assert CastMessage(path, kind) == "Invalid value for the field '" + path + tail;
    ContainsMiddle("Invalid value for the field '", path, tail);
    var head := "Invalid value for the field '" + path + "'. Expected a valid ";
    assert CastMessage(path, kind) == head + kind + ".";
    ContainsMiddle(head, kind, ".");
  }

  function HandleCastError(path: string, kind: string): (r: ErrorResponse)
    ensures r.statusCode == 400 && r.message == "Invalid input data." && r.stack.None?
    ensures |r.errorSources| == 1 && r.errorSources[0].path == Some(Key(path))
    ensures Contains(r.errorSources[0].message, path) && Contains(r.errorSources[0].message, kind)
  {
    CastMessageNames(path, kind);
    ErrorResponse(BAD_REQUEST, "Invalid input data.", [ErrorSource(Some(Key(path)), CastMessage(path, kind))], None)
  }
}

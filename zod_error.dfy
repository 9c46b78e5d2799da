/** Normalisation of a failed request validation: one error source per issue. */
module ZodErrors {
  import opened Wrappers
  import opened Zod
  import opened ErrorTypes
  import opened Json
  import AuthValidation

  /** `issue.path[issue.path.length - 1]`: undefined for an empty path. */
  function LastPathItem(path: seq<PathItem>): (r: Option<PathItem>)
    ensures r.None? <==> path == []
    ensures r.Some? ==> r.value == path[|path| - 1]
  {
    if path == [] then None else Some(path[|path| - 1])
  }

  /** `issues.map(...)`. */
  function IssueSources(issues: seq<Issue>): (sources: seq<ErrorSource>)
    ensures |sources| == |issues|
    ensures forall i :: 0 <= i < |issues| ==>
      sources[i] == ErrorSource(LastPathItem(issues[i].path), issues[i].message)
  {
    if issues == [] then []
    else [ErrorSource(LastPathItem(issues[0].path), issues[0].message)] + IssueSources(issues[1..])
  }

  function HandleZodError(issues: seq<Issue>): (r: ErrorResponse)
    ensures r.statusCode == 400 && r.message == "Validation Error" && r.stack.None?
    ensures |r.errorSources| == |issues|
    ensures forall i :: 0 <= i < |issues| ==>
      r.errorSources[i].message == issues[i].message && r.errorSources[i].path == LastPathItem(issues[i].path)
  {
    ErrorResponse(BAD_REQUEST, "Validation Error", IssueSources(issues), None)
  }

  /** A register request without a body is answered with one source, at `body`, saying "Required". */
  lemma MissingBodyNormalised(cookies: Option<Json>, isEmail: string -> bool)
    ensures HandleZodError(Issues(AuthValidation.RegisterUserSchema, [], Some(RequestInput(None, cookies)), isEmail)).errorSources
         == [ErrorSource(Some(Key("body")), "Required")]
  {
    AuthValidation.MissingBodyReported(cookies, isEmail);
  }
}

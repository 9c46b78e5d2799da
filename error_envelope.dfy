/**
 * The error envelope: `success` is false, `statusCode` and the HTTP
 * status are the error's status code, `message` is copied and `error` is
 * the list of error sources.  `stack` is given a value only in the
 * development environment; otherwise it is undefined and so is absent
 * from the JSON written.
 */
module ErrorEnvelope {
  import opened Wrappers
  import opened Json
  import opened Zod
  import opened ErrorTypes
  import opened Http

  function PathJson(p: PathItem): Json {
    match p
    case Key(name) => JString(name)
    case Index(i) => JNumber(i)
  }

  function SourceJson(s: ErrorSource): Json {
    JObject(map["message" := JString(s.message)]
            + Optional("path", if s.path.Some? then Some(PathJson(s.path.value)) else None))
  }

  function SourcesJson(sources: seq<ErrorSource>): (j: Json)
    ensures j.JArray? && |j.items| == |sources|
    ensures forall i :: 0 <= i < |sources| ==> j.items[i] == SourceJson(sources[i])
  {
    if sources == [] then JArray([])
    else JArray([SourceJson(sources[0])] + SourcesJson(sources[1..]).items)
  }

  /** The stack sent: only in development. */
  function SentStack(e: ErrorResponse, env: string): Option<string> {
    if env == "development" then e.stack else None
  }

  function Envelope(e: ErrorResponse, env: string): (body: Json)
    ensures body.JObject?
    ensures body.members.Keys
         == {"success", "statusCode", "message", "error"} + (if SentStack(e, env).Some? then {"stack"} else {})
    ensures body.members["success"] == JBool(false)
    ensures body.members["statusCode"] == JNumber(e.statusCode)
    ensures body.members["message"] == JString(e.message)
    ensures body.members["error"] == SourcesJson(e.errorSources)
    ensures env != "development" ==> "stack" !in body.members
  {
    var stack := SentStack(e, env);
    JObject(map["success" := JBool(false), "statusCode" := JNumber(e.statusCode), "message" := JString(e.message),
                "error" := SourcesJson(e.errorSources)]
            + Optional("stack", if stack.Some? then Some(JString(stack.value)) else None))
  }

  function ReadPath(j: Json): Option<PathItem> {
    match j
    case JString(name) => Some(Key(name))
    case JNumber(i) => Some(Index(i))
    case _ => None
  }

  function ReadSource(j: Json): Option<ErrorSource> {
    if j.JObject? && "message" in j.members && j.members["message"].JString? then
      var path := Lookup(j.members, "path");
      if path.Some? && ReadPath(path.value).None? then None
      else Some(ErrorSource(if path.Some? then ReadPath(path.value) else None, j.members["message"].s))
    else None
  }

  function ReadSources(items: seq<Json>): Option<seq<ErrorSource>> {
    if items == [] then Some([])
    else
      var first := ReadSource(items[0]);
      var rest := ReadSources(items[1..]);
      if first.Some? && rest.Some? then Some([first.value] + rest.value) else None
  }

  /** How a client reads an error envelope back. */
  function ReadEnvelope(body: Json): Option<ErrorResponse> {
    if body.JObject?
       && "statusCode" in body.members && body.members["statusCode"].JNumber?
       && "message" in body.members && body.members["message"].JString?
       && "error" in body.members && body.members["error"].JArray?
    then
      var sources := ReadSources(body.members["error"].items);
      var stack := Lookup(body.members, "stack");
      if sources.None? || (stack.Some? && !stack.value.JString?) then None
      else
        Some(ErrorResponse(body.members["statusCode"].n, body.members["message"].s, sources.value,
                           if stack.Some? then Some(stack.value.s) else None))
    else None
  }

  /** One error source read back from its JSON is the source itself. */
  lemma ReadSourceRoundTrip(source: ErrorSource)
    ensures ReadSource(SourceJson(source)) == Some(source)
  {
    var j := SourceJson(source);
    assert j.members["message"] == JString(source.message);
    assert Lookup(j.members, "path") == if source.path.Some? then Some(PathJson(source.path.value)) else None;
  }

  lemma {:induction false} ReadSourcesRoundTrip(sources: seq<ErrorSource>)
    ensures ReadSources(SourcesJson(sources).items) == Some(sources)
  {
    if sources != [] {
      var items := SourcesJson(sources).items;
      assert items[0] == SourceJson(sources[0]) && items[1..] == SourcesJson(sources[1..]).items;
      ReadSourcesRoundTrip(sources[1..]);
      ReadSourceRoundTrip(sources[0]);
      assert [sources[0]] + sources[1..] == sources;
    }
  }

  /** The client gets back the error with its sources in order; the stack survives only in development. */
  lemma ReadEnvelopeRoundTrip(e: ErrorResponse, env: string)
    ensures ReadEnvelope(Envelope(e, env)) == Some(e.(stack := SentStack(e, env)))
  {
    ReadSourcesRoundTrip(e.errorSources);
    var body := Envelope(e, env);
    var stack := SentStack(e, env);
    assert Lookup(body.members, "stack") == if stack.Some? then Some(JString(stack.value)) else None;
  }

  /** `sendError(res, e)`: one write, with the error's status code. */
  method SendError(res: Response, e: ErrorResponse, env: string)
    modifies res
    ensures res.writes == old(res.writes) + [Write(e.statusCode, Envelope(e, env))]
  {
    res.writes := res.writes + [Write(e.statusCode, Envelope(e, env))];
  }

  /** The handlers' catch block: send the simplified error, then `next(error)` with the original error. */
  method SendErrorAndForward(res: Response, error: Error, simplify: Error -> ErrorResponse, env: string)
    returns (next: NextCall)
    modifies res
    ensures res.writes == old(res.writes) + [Write(simplify(error).statusCode, Envelope(simplify(error), env))]
    ensures next == CalledWith(error)
  {
    SendError(res, simplify(error), env);
    next := CalledWith(error);
  }
}

/**
 * The success envelope: `statusCode`, `success` and `message` are copied
 * from the caller's record, and `data` is added only when it is defined
 * (a `null` data is kept).  The envelope is written with the record's
 * status code.
 */
module ResponseEnvelope {
  import opened Wrappers
  import opened Json
  import opened Http

  /** The record a handler passes in; `data == None` is an undefined `data`. */
  datatype ResponseData = ResponseData(statusCode: int, success: bool, message: string, data: Option<Json>)

  function Envelope(d: ResponseData): (body: Json)
    ensures body.JObject?
    ensures body.members.Keys == {"statusCode", "success", "message"} + (if d.data.Some? then {"data"} else {})
    ensures body.members["statusCode"] == JNumber(d.statusCode)
    ensures body.members["success"] == JBool(d.success)
    ensures body.members["message"] == JString(d.message)
    ensures d.data.Some? ==> body.members["data"] == d.data.value
  {
    JObject(map["statusCode" := JNumber(d.statusCode), "success" := JBool(d.success), "message" := JString(d.message)]
            + Optional("data", d.data))
  }

  /** How a client reads an envelope back. */
  function ReadEnvelope(body: Json): Option<ResponseData> {
    if body.JObject?
       && "statusCode" in body.members && body.members["statusCode"].JNumber?
       && "success" in body.members && body.members["success"].JBool?
       && "message" in body.members && body.members["message"].JString?
    then
      Some(ResponseData(body.members["statusCode"].n, body.members["success"].b, body.members["message"].s,
                        Lookup(body.members, "data")))
    else None
  }

  /** Nothing is lost: an undefined `data` comes back undefined and a `null` one comes back `null`. */
  lemma ReadEnvelopeRoundTrip(d: ResponseData)
    ensures ReadEnvelope(Envelope(d)) == Some(d)
  {
    var body := Envelope(d);
    assert Lookup(body.members, "data") == d.data;
  }

  /** `sendResponse(res, d)`: builds the envelope, adds `data` in place when defined, writes once. */
  method SendResponse(res: Response, d: ResponseData)
    modifies res
    ensures res.writes == old(res.writes) + [Write(d.statusCode, Envelope(d))]
  {
    var response := map["statusCode" := JNumber(d.statusCode), "success" := JBool(d.success), "message" := JString(d.message)];
    if d.data.Some? {
      response := response["data" := d.data.value];
    }
    assert JObject(response) == Envelope(d);
    res.writes := res.writes + [Write(d.statusCode, JObject(response))];
  }
}

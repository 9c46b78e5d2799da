/** The framework's response object and the three ways a handler can end. */
module Http {
  import opened Json
  import opened ErrorTypes

  /** One `res.status(status).json(body)` (or `.send(body)`) call. */
  datatype Write = Write(status: int, body: Json)

  /** `next` not called, `next()` called, or `next(error)` called. */
  datatype NextCall = NotCalled | Called | CalledWith(error: Error)

  /** A response records the writes made to it, in order. */
  class Response {
    var writes: seq<Write>

    constructor ()
      ensures writes == []
    {
      writes := [];
    }
  }
}

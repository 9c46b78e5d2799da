/**
 * The error shapes the service passes around: an error source
 * `{path, message}`, the normalised error response, the errors that
 * handlers and middleware throw, and the HTTP status codes they use.
 */
module ErrorTypes {
  import opened Wrappers
  import opened Zod

  /** `path` is undefined only where a validation issue had an empty path. */
  datatype ErrorSource = ErrorSource(path: Option<PathItem>, message: string)

  /** The normalised error; `stack` is carried when the error had one. */
  datatype ErrorResponse = ErrorResponse(statusCode: int, message: string, errorSources: seq<ErrorSource>, stack: Option<string>)

  /** What handlers and middleware throw. */
  datatype Error =
    | AppError(statusCode: int, message: string)
      /** Raised by the token library for a malformed, badly signed or expired token. */
    | JsonWebTokenError(reason: string)
      /** The document mapper could not cast a value to the type of `path`. */
    | CastError(path: string, kind: string)
      /** A unique index rejected a write; `keyValue` lists the colliding keys in order. */
    | DuplicateKeyError(keyValue: Option<seq<(string, string)>>)
      /** The document mapper rejected a document whose required paths are missing. */
    | DocumentValidationError(paths: set<string>)
      /** Request validation failed with these issues. */
    | ZodError(issues: seq<Issue>)
      /** A plain error thrown by a library, such as the hashing library given no password. */
    | LibraryError(message: string)

  const OK := 200
  const CREATED := 201
  const BAD_REQUEST := 400
  const UNAUTHORIZED := 401
  const FORBIDDEN := 403
  const NOT_FOUND := 404
  const INTERNAL_SERVER_ERROR := 500
}

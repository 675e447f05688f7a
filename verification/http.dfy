/** What a handler or middleware does with an Express response. */
module Http {
  import opened Values

  /** A response sent with `res.status(status).json(body)`. */
  datatype Reply = Reply(status: int, body: Value)

  /** The `{ error: message }` body every failing handler sends. */
  function ErrorReply(status: int, message: string): Reply
  {
    Reply(status, Obj(map["error" := Str(message)]))
  }

  /** The `{ error: message, detalle }` body of a caught exception, whose
      text is `detail`. */
  function ErrorDetail(status: int, message: string, detail: string): Reply
  {
    Reply(status, Obj(map["error" := Str(message), "detalle" := Str(detail)]))
  }

  /** The outcome of a middleware: it either calls `next()` once or answers
      the request itself with an error. */
  datatype GateResult = Next | Respond(status: int, error: string)
}

/**
  What the code sees of HTTP: the outcome of a `fetch` and the responses
  the route handlers and the Python endpoints send back.
 */
module Http {
  import opened JsonValues

  /** A reply that arrived: `response.ok` and the body, already read with
      `response.json()`. */
  datatype Reply = Reply(ok: bool, body: Json)

  /** The outcome of `fetch`: a reply, or a rejected promise (the backend
      is down, the connection was refused). */
  datatype Fetched = Replied(reply: Reply) | Unreachable

  /** A JSON response with its status code. */
  datatype Response = Response(status: nat, body: Json)

  /** What a route handler did: the body of the request it forwarded to
      the backend, if it sent one, and the response it returned. */
  datatype Exchange = Exchange(sent: Option<string>, response: Response)

  predicate IsOk(f: Fetched) {
    f.Replied? && f.reply.ok
  }

  /** `{ key: text }` */
  function Message(key: string, text: string): Json {
    JObj([Field(key, JStr(text))])
  }
}

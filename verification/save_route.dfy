/**
  `POST /api/admin/save`: the admin panel's save request, forwarded to the
  Python backend. A backend that fails still counts as a (local) success;
  only a request that cannot be read is an error.
 */
module SaveRoute {
  import opened JsonValues
  import JsonText
  import opened Http

  /** `{ success: false, message, error: err.message }` */
  function Failed(errorMessage: string): Json {
    JObj([Field("success", JBool(false)), Field("message", JStr("Failed to process save request")),
          Field("error", JStr(errorMessage))])
  }

  /** `{ success: true, message, backend_response }` */
  function SavedPermanently(result: Json): Json {
    JObj([Field("success", JBool(true)), Field("message", JStr("Portfolio data saved permanently to backend")),
          Field("backend_response", result)])
  }

  const SavedLocally: Json :=
    JObj([Field("success", JBool(true)), Field("message", JStr("Data saved locally (backend not available)")),
          Field("error", JStr("Backend connection failed"))])

  /** The handler, given the request body text and the backend's answer.
      After a failed forward the handler logs `data.personalInfo?.name`,
      which throws when the document is `null`; that error reaches the
      outer handler. `engineMessage` is the text of the engine's error. */
  function Post(request: string, backend: Fetched, engineMessage: string): Exchange {
    match JsonText.Parse(request)
    case None => Exchange(None, Response(500, Failed(engineMessage)))
    case Some(data) =>
      var sent := Some(JsonText.Stringify(data));
      if IsOk(backend) then Exchange(sent, Response(200, SavedPermanently(backend.reply.body)))
      else if data == JNull then Exchange(sent, Response(500, Failed(engineMessage)))
      else Exchange(sent, Response(200, SavedLocally))
  }

  /** The three outcomes: saved permanently exactly when the backend
      answered ok (its answer attached), saved locally when it did not,
      and a 500 with `success: false` only when the request cannot be read
      (or is `null` and the backend failed). `success` is false exactly
      in the 500 case. */
  lemma PostOutcome(request: string, backend: Fetched, engineMessage: string)
    ensures var r := Post(request, backend, engineMessage).response;
      r.body.JObj? && |r.body.fields| == 3 && r.body.fields[0].key == "success"
      && (r.body.fields[0].value == JBool(false) <==> r.status == 500)
    ensures var r := Post(request, backend, engineMessage).response;
      r.status == 500 <==>
        JsonText.Parse(request).None? || (JsonText.Parse(request) == Some(JNull) && !IsOk(backend))
    ensures JsonText.Parse(request).Some? && IsOk(backend) ==>
      Member(Post(request, backend, engineMessage).response.body, "backend_response") == Some(backend.reply.body)
    ensures JsonText.Parse(request).Some? && JsonText.Parse(request) != Some(JNull) && !IsOk(backend) ==>
      Post(request, backend, engineMessage).response == Response(200, SavedLocally)
  {
  }

  /** One POST is sent exactly when the request can be read, and it
      carries the document: the backend reads back what the admin panel
      sent. */
  lemma PostForwards(request: string, backend: Fetched, engineMessage: string)
    ensures Post(request, backend, engineMessage).sent.Some? <==> JsonText.Parse(request).Some?
    ensures Post(request, backend, engineMessage).sent.Some? ==>
      JsonText.Parse(Post(request, backend, engineMessage).sent.value) == JsonText.Parse(request)
  {
    if JsonText.Parse(request).Some? {
      JsonText.ParseWellFormed(request);
      JsonText.ParseStringify(JsonText.Parse(request).value);
    }
  }
}

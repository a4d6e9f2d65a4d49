/**
  `POST /api/contact`: the contact form's message, checked for its four
  fields and forwarded to the Python backend; the visitor is told the
  message was sent whether or not the backend took it.
 */
module ContactRoute {
  import opened JsonValues
  import JsonText
  import opened Http

  const Sent: Json := Message("message", "Message sent successfully")
  const Incomplete: Json := Message("error", "All fields are required")
  const Broken: Json := Message("error", "Failed to send message")

  /** All four of name, email, subject and message are truthy. */
  predicate Complete(body: Json) {
    Truthy(Member(body, "name")) && Truthy(Member(body, "email"))
    && Truthy(Member(body, "subject")) && Truthy(Member(body, "message"))
  }

  /** `{ name, email, subject, message }` of a complete body. */
  function Forwarded(body: Json): Json
    requires Complete(body)
  {
    JObj([Field("name", Member(body, "name").value), Field("email", Member(body, "email").value),
          Field("subject", Member(body, "subject").value), Field("message", Member(body, "message").value)])
  }

  /** `{ message: result.message }`: a missing message is left out of the
      JSON text. */
  function Relayed(result: Json): Json {
    match Member(result, "message")
    case None => JObj([])
    case Some(m) => JObj([Field("message", m)])
  }

  /** The handler. Destructuring a `null` body throws; reading
      `result.message` of a `null` answer throws inside the inner `try`,
      which falls back like a failed backend. */
  function Post(request: string, backend: Fetched): Exchange {
    match JsonText.Parse(request)
    case None => Exchange(None, Response(500, Broken))
    case Some(body) =>
      if body == JNull then Exchange(None, Response(500, Broken))
      else if !Complete(body) then Exchange(None, Response(400, Incomplete))
      else
        var sent := Some(JsonText.Stringify(Forwarded(body)));
        if IsOk(backend) && backend.reply.body != JNull then
          Exchange(sent, Response(200, Relayed(backend.reply.body)))
        else Exchange(sent, Response(200, Sent))
  }

  /** A missing field is a 400 and the backend is not contacted; a
      complete message is forwarded, and answered with the backend's
      message when it accepts it and with the fixed confirmation
      otherwise; an unreadable body is a 500. */
  lemma PostOutcome(request: string, backend: Fetched)
    ensures var e := Post(request, backend);
      e.response.status == 500 <==> JsonText.Parse(request).None? || JsonText.Parse(request) == Some(JNull)
    ensures var e := Post(request, backend);
      e.response.status == 400 <==>
        JsonText.Parse(request).Some? && JsonText.Parse(request) != Some(JNull) && !Complete(JsonText.Parse(request).value)
    ensures var e := Post(request, backend);
      e.sent.Some? <==> e.response.status == 200
    ensures var e := Post(request, backend);
      e.response.status == 200 && !IsOk(backend) ==> e.response.body == Sent
    ensures var e := Post(request, backend);
      e.response.status == 200 && IsOk(backend) && backend.reply.body.JObj? ==>
        Member(e.response.body, "message") == Member(backend.reply.body, "message")
  {
    var e := Post(request, backend);
    if e.response.status == 200 && IsOk(backend) && backend.reply.body.JObj? {
      var result := backend.reply.body;
      if Member(result, "message").Some? {
        assert Lookup([Field("message", Member(result, "message").value)], "message") == Some(Member(result, "message").value);
      } else {
        assert !HasKey([], "message");
      }
    }
  }

  /** Only the four fields are forwarded, unchanged: the backend reads
      back exactly name, email, subject and message. */
  lemma PostForwardsFields(request: string, backend: Fetched)
    requires Post(request, backend).sent.Some?
    ensures JsonText.Parse(request).Some? && Complete(JsonText.Parse(request).value)
    ensures JsonText.Parse(Post(request, backend).sent.value) == Some(Forwarded(JsonText.Parse(request).value))
  {
    var body := JsonText.Parse(request).value;
    JsonText.ParseWellFormed(request);
    ForwardedWellFormed(body);
    JsonText.ParseStringify(Forwarded(body));
  }

  /** The forwarded message of a well-formed body is well-formed. */
  lemma ForwardedWellFormed(body: Json)
    requires Complete(body) && WellFormed(body)
    ensures WellFormed(Forwarded(body))
  {
    FieldValuesWellFormed(body, "name");
    FieldValuesWellFormed(body, "email");
    FieldValuesWellFormed(body, "subject");
    FieldValuesWellFormed(body, "message");
    var fields := Forwarded(body).fields;
    assert forall i :: 0 <= i < |fields| ==> WellFormed(fields[i].value);
  }

  /** A member of a well-formed value is well-formed. */
  lemma FieldValuesWellFormed(body: Json, key: string)
    requires WellFormed(body) && Member(body, key).Some?
    ensures WellFormed(Member(body, key).value)
  {
    var i :| 0 <= i < |body.fields| && body.fields[i] == Field(key, Member(body, key).value);
  }
}

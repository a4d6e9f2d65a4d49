/**
  `/api/projects`: the whole portfolio document from the Python backend,
  or the built-in snapshot when the backend cannot be reached; and the
  forwarding of a saved document.
 */
module ProjectsRoute {
  import opened JsonValues
  import JsonText
  import Portfolio
  import opened Http

  const NotSaved: Json :=
    JObj([Field("success", JBool(false)), Field("message", JStr("Backend not available - data saved locally only")),
          Field("error", JStr("Backend connection failed"))])

  /** `GET`: the backend's document unchanged, or the default snapshot. */
  function Get(backend: Fetched): (r: Response)
    ensures r.status == 200
    ensures IsOk(backend) ==> r.body == backend.reply.body
    ensures !IsOk(backend) ==> r.body == Portfolio.DefaultSnapshot()
  {
    if IsOk(backend) then Response(200, backend.reply.body) else Response(200, Portfolio.DefaultSnapshot())
  }

  /** `POST`: the backend's answer, or a record saying nothing was saved
      remotely; an unreadable request sends nothing. */
  function Post(request: string, backend: Fetched): Exchange {
    match JsonText.Parse(request)
    case None => Exchange(None, Response(200, NotSaved))
    case Some(data) =>
      var sent := Some(JsonText.Stringify(data));
      if IsOk(backend) then Exchange(sent, Response(200, backend.reply.body))
      else Exchange(sent, Response(200, NotSaved))
  }

  /** The fallback document of `GET` is an object (never an array) with
      the three sample projects, ids "1", "2" and "3", and the sixteen
      sample skills. */
  lemma GetFallback(backend: Fetched)
    requires !IsOk(backend)
    ensures Get(backend).body.JObj?
    ensures Member(Get(backend).body, "projects") == Some(JArr(Portfolio.DefaultProjects))
    ensures Member(Get(backend).body, "skills") == Some(JArr(Portfolio.DefaultSkills))
    ensures |Portfolio.DefaultProjects| == 3 && |Portfolio.DefaultSkills| == 16
    ensures Member(Portfolio.DefaultProjects[0], "id") == Some(JStr("1"))
    ensures Member(Portfolio.DefaultProjects[1], "id") == Some(JStr("2"))
    ensures Member(Portfolio.DefaultProjects[2], "id") == Some(JStr("3"))
  {
    Portfolio.SnapshotMembers(Portfolio.PersonalInfo(Portfolio.ShortDescription), Portfolio.DefaultProjects, Portfolio.DefaultSkills);
    Portfolio.DefaultProjectIds();
    Portfolio.DefaultSkillLevels();
  }

  /** `POST` relays the backend's answer when it is ok, and otherwise (or
      when the request cannot be read) answers `success: false`; a
      request that can be read is forwarded as the same document. */
  lemma PostOutcome(request: string, backend: Fetched)
    ensures var e := Post(request, backend);
      e.response.status == 200
      && (JsonText.Parse(request).Some? && IsOk(backend) ==> e.response.body == backend.reply.body)
      && (JsonText.Parse(request).None? || !IsOk(backend) ==> e.response.body == NotSaved)
    ensures Post(request, backend).sent.Some? <==> JsonText.Parse(request).Some?
    ensures Post(request, backend).sent.Some? ==>
      JsonText.Parse(Post(request, backend).sent.value) == JsonText.Parse(request)
  {
    if JsonText.Parse(request).Some? {
      JsonText.ParseWellFormed(request);
      JsonText.ParseStringify(JsonText.Parse(request).value);
    }
  }
}

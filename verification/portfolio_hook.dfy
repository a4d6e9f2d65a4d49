/**
  `usePortfolioData`: the page's data. A load shows the cached document
  at once when all four cache entries are there, then asks `/api/portfolio`;
  a good answer replaces the data and the cache, and any failure leaves the
  data as it is, or installs the defaults when the hook had no data when
  the load began.
 */
module PortfolioHook {
  import opened JsonValues
  import JsonText
  import Portfolio
  import opened Http
  import opened Storage

  /** The error thrown for a reply that is not ok. */
  const NotOkMessage: string := "Failed to fetch portfolio data"

  /** The document installed when a load fails and there was no data. */
  function Defaults(): Json {
    Portfolio.Snapshot(Portfolio.PersonalInfo(Portfolio.ShortDescription), [], [])
  }

  /** `Array.isArray(v) ? v : []` */
  function ArrayOr(v: Option<Json>): (r: Json)
    ensures r.JArr?
    ensures IsArray(v) ==> r == v.value
  {
    if IsArray(v) then v.value else JArr([])
  }

  /** `localData` after its two array guards. */
  function LocalData(personal: Json, projects: Json, skills: Json, theme: Json): Json {
    JObj([Field("personalInfo", personal), Field("projects", ArrayOr(Some(projects))),
          Field("skills", ArrayOr(Some(skills))), Field("themeSettings", theme)])
  }

  /** The cache is used only when all four entries are there and non-empty. */
  predicate CacheComplete(cache: map<string, string>) {
    Saved(cache, PersonalKey).Some? && Saved(cache, ProjectsKey).Some?
    && Saved(cache, SkillsKey).Some? && Saved(cache, ThemeKey).Some?
  }

  /** The cached document, if the cache is complete; a `JSON.parse` that
      fails throws. */
  function Hydration(cache: map<string, string>): (r: Result<Option<Json>>)
    ensures !CacheComplete(cache) ==> r == Ok(None)
  {
    if !CacheComplete(cache) then Ok(None)
    else
      var p := JsonText.Parse(cache[PersonalKey]);
      var pr := JsonText.Parse(cache[ProjectsKey]);
      var s := JsonText.Parse(cache[SkillsKey]);
      var t := JsonText.Parse(cache[ThemeKey]);
      if p.None? || pr.None? || s.None? || t.None? then Err(EngineError)
      else Ok(Some(LocalData(p.value, pr.value, s.value, t.value)))
  }

  /** `if (!Array.isArray(obj[key])) obj[key] = []` on an object's members:
      a non-array member is replaced in place, a missing one is added at
      the end, and nothing else changes. */
  function Guard(fields: seq<Field>, key: string): (r: seq<Field>)
    ensures DistinctKeys(fields) ==> DistinctKeys(r)
    ensures Lookup(r, key) == Some(ArrayOr(Lookup(fields, key)))
    ensures forall other :: other != key ==> Lookup(r, other) == Lookup(fields, other)
  {
    if IsArray(Lookup(fields, key)) then fields
    else
      var r := Assign(fields, key, JArr([]));
      forall other | other != key
        ensures Lookup(r, other) == Lookup(fields, other)
      {
        AssignThenLookup(fields, key, JArr([]), other);
      }
      AssignThenLookup(fields, key, JArr([]), key);
      r
  }

  /** `portfolioData` after its two array guards. An object has both lists
      guarded; an array takes the assignments as extra properties, which
      the model does not keep; reading a member of `null` throws, and so
      does assigning one on a string, number or boolean. */
  function Received(body: Json): (r: Result<Json>)
    ensures r.Ok? <==> body.JObj? || body.JArr?
  {
    match body
    case JObj(fields) => Ok(JObj(Guard(Guard(fields, "projects"), "skills")))
    case JArr(_) => Ok(body)
    case _ => Err(EngineError)
  }

  /** The answer of `/api/portfolio`: a non-ok reply throws an `Error` of
      the hook's own. */
  function Remote(outcome: Fetched): (r: Result<Json>)
    ensures outcome.Unreachable? ==> r == Err(EngineError)
    ensures outcome.Replied? && !outcome.reply.ok ==> r == Err(Raised(NotOkMessage))
    ensures IsOk(outcome) ==> r == Received(outcome.reply.body)
  {
    match outcome
    case Unreachable => Err(EngineError)
    case Replied(reply) => if reply.ok then Received(reply.body) else Err(Raised(NotOkMessage))
  }

  /** The four `setItem` calls after a good answer, made from the guarded
      `portfolioData`. */
  function Refresh(cache: map<string, string>, body: Json): map<string, string> {
    Store(cache,
      CacheText(Member(body, "personalInfo")),
      CacheText(Some(ArrayOr(Member(body, "projects")))),
      CacheText(Some(ArrayOr(Member(body, "skills")))),
      CacheText(Member(body, "themeSettings")))
  }

  /** What a load leaves behind: the data, the error, the cache, whether
      the request was made, and the data shown while it was awaited. */
  datatype After = After(data: Option<Json>, error: Option<string>, cache: map<string, string>,
                         requested: bool, shown: Option<Json>)

  /** One run of `loadPortfolioData`, from the data it starts with, the
      data the function captured when it was created (`null` is None), the
      cache, the outcome of the request and the engine's error text. */
  function Load(data: Option<Json>, captured: Option<Json>, cache: map<string, string>,
                outcome: Fetched, engineMessage: string): After
  {
    match Hydration(cache)
    case Err(f) =>
      After(if !Truthy(captured) then Some(Defaults()) else data,
            Some(MessageOf(f, engineMessage)), cache, false, data)
    case Ok(local) =>
      var shown := if local.Some? then local else data;
      match Remote(outcome)
      case Ok(answer) => After(Some(answer), None, Refresh(cache, outcome.reply.body), true, shown)
      case Err(f) =>
        After(if !Truthy(captured) then Some(Defaults()) else shown,
              Some(MessageOf(f, engineMessage)), cache, true, shown)
  }

  /** The hook's state and the browser's storage. */
  class Loader {
    var data: Option<Json>
    var loading: bool
    var error: Option<string>
    var cache: map<string, string>

    constructor(stored: map<string, string>)
      ensures data == None && loading && error == None && cache == stored
    {
      data := None;
      loading := true;
      error := None;
      cache := stored;
    }

    /** `loadPortfolioData`, step by step; `captured` is the value of
        `data` in the closure that runs. */
    method LoadPortfolioData(captured: Option<Json>, outcome: Fetched, engineMessage: string)
      returns (requested: bool, shown: Option<Json>)
      modifies this
      ensures var after := Load(old(data), captured, old(cache), outcome, engineMessage);
        && data == after.data && error == after.error && cache == after.cache
        && requested == after.requested && shown == after.shown
      ensures !loading
    {
      ghost var want := Load(data, captured, cache, outcome, engineMessage);
      loading := true;
      error := None;
      requested := false;
      var failure := ShowCached();
      shown := data;
      if failure.None? {
        requested := true;
        failure := Refetch(outcome);
      }
      if failure.Some? {
        error := Some(MessageOf(failure.value, engineMessage));
        if !Truthy(captured) {
          data := Some(Defaults());
        }
      }
      loading := false;
    }

    /** The part before the request: show the cached document when all
        four entries are there; a `JSON.parse` that fails throws. */
    method ShowCached() returns (failure: Option<Failure>)
      modifies this
      ensures failure.None? <==> Hydration(old(cache)).Ok?
      ensures failure.Some? ==> failure.value == Hydration(old(cache)).failure
      ensures data == if Hydration(old(cache)).Ok? && Hydration(old(cache)).value.Some?
        then Hydration(old(cache)).value else old(data)
      ensures cache == old(cache) && error == old(error) && loading == old(loading)
    {
      failure := None;
      if Saved(cache, PersonalKey).Some? && Saved(cache, ProjectsKey).Some?
        && Saved(cache, SkillsKey).Some? && Saved(cache, ThemeKey).Some?
      {
        var p := JsonText.Parse(cache[PersonalKey]);
        var pr := JsonText.Parse(cache[ProjectsKey]);
        var s := JsonText.Parse(cache[SkillsKey]);
        var t := JsonText.Parse(cache[ThemeKey]);
        if p.None? || pr.None? || s.None? || t.None? {
          failure := Some(EngineError);
        } else {
          data := Some(LocalData(p.value, pr.value, s.value, t.value));
        }
      }
    }

    /** The request and what a good answer does: replace the data and
        write the four cache entries. */
    method Refetch(outcome: Fetched) returns (failure: Option<Failure>)
      modifies this
      ensures failure.None? <==> Remote(outcome).Ok?
      ensures failure.Some? ==> failure.value == Remote(outcome).failure && data == old(data) && cache == old(cache)
      ensures failure.None? ==> data == Some(Remote(outcome).value) && cache == Refresh(old(cache), outcome.reply.body)
      ensures error == old(error) && loading == old(loading)
    {
      failure := None;
      match outcome {
        case Unreachable =>
          failure := Some(EngineError);
        case Replied(reply) =>
          if reply.ok {
            var received := Received(reply.body);
            if received.Err? {
              failure := Some(received.failure);
            } else {
              data := Some(received.value);
              cache := cache[PersonalKey := CacheText(Member(reply.body, "personalInfo"))];
              cache := cache[ProjectsKey := CacheText(Some(ArrayOr(Member(reply.body, "projects"))))];
              cache := cache[SkillsKey := CacheText(Some(ArrayOr(Member(reply.body, "skills"))))];
              cache := cache[ThemeKey := CacheText(Member(reply.body, "themeSettings"))];
            }
          } else {
            failure := Some(Raised(NotOkMessage));
          }
      }
    }
  }

  // ---------------------------------------------------------------------
  // Properties
  // ---------------------------------------------------------------------

  /** The cached document is shown exactly when all four entries are there
      and read; its lists are always arrays. */
  lemma CacheFirst(data: Option<Json>, captured: Option<Json>, cache: map<string, string>,
                   outcome: Fetched, engineMessage: string)
    ensures var h := Hydration(cache);
      h.Ok? && h.value.Some? <==>
        CacheComplete(cache)
        && JsonText.Parse(cache[PersonalKey]).Some? && JsonText.Parse(cache[ProjectsKey]).Some?
        && JsonText.Parse(cache[SkillsKey]).Some? && JsonText.Parse(cache[ThemeKey]).Some?
    ensures var h := Hydration(cache);
      h.Ok? && h.value.Some? ==>
        && Load(data, captured, cache, outcome, engineMessage).shown == h.value
        && IsArray(Member(h.value.value, "projects")) && IsArray(Member(h.value.value, "skills"))
        && Member(h.value.value, "personalInfo") == JsonText.Parse(cache[PersonalKey])
        && Member(h.value.value, "themeSettings") == JsonText.Parse(cache[ThemeKey])
    ensures !CacheComplete(cache) ==> Load(data, captured, cache, outcome, engineMessage).shown == data
  {
    var h := Hydration(cache);
    LoadShown(data, captured, cache, outcome, engineMessage);
    if h.Ok? && h.value.Some? {
      LocalMembers(JsonText.Parse(cache[PersonalKey]).value, JsonText.Parse(cache[ProjectsKey]).value,
                   JsonText.Parse(cache[SkillsKey]).value, JsonText.Parse(cache[ThemeKey]).value);
    }
  }

  /** What is shown before the request: the cached document if there is
      one, else the data as it was. */
  lemma LoadShown(data: Option<Json>, captured: Option<Json>, cache: map<string, string>,
                  outcome: Fetched, engineMessage: string)
    ensures var h := Hydration(cache);
      h.Ok? ==> Load(data, captured, cache, outcome, engineMessage).shown == if h.value.Some? then h.value else data
  {
  }

  /** The four parts of `localData`, the lists guarded. */
  lemma LocalMembers(personal: Json, projects: Json, skills: Json, theme: Json)
    ensures var v := LocalData(personal, projects, skills, theme);
      && Member(v, "personalInfo") == Some(personal)
      && Member(v, "projects") == Some(ArrayOr(Some(projects)))
      && Member(v, "skills") == Some(ArrayOr(Some(skills)))
      && Member(v, "themeSettings") == Some(theme)
  {
    var fields := LocalData(personal, projects, skills, theme).fields;
    LookupDistinct(fields, 0);
    LookupDistinct(fields, 1);
    LookupDistinct(fields, 2);
    LookupDistinct(fields, 3);
  }

  /** A good answer that is an object is exposed with both lists as
      arrays, every other member as received. */
  lemma ReceivedArrays(body: Json, key: string)
    requires body.JObj?
    ensures var r := Received(body).value;
      && IsArray(Member(r, "projects")) && IsArray(Member(r, "skills"))
      && Member(r, "projects") == Some(ArrayOr(Member(body, "projects")))
      && Member(r, "skills") == Some(ArrayOr(Member(body, "skills")))
      && (key != "projects" && key != "skills" ==> Member(r, key) == Member(body, key))
  {
  }

  /** A good answer replaces the data and rewrites all four entries from
      it; each entry reads back as the member it was written from. */
  lemma GoodAnswer(data: Option<Json>, captured: Option<Json>, cache: map<string, string>,
                   body: Json, engineMessage: string)
    requires Hydration(cache).Ok?
    requires body.JObj? && WellFormed(body)
    ensures var after := Load(data, captured, cache, Replied(Reply(true, body)), engineMessage);
      && after.requested && after.error == None
      && after.data == Some(Received(body).value)
      && after.cache == Refresh(cache, body)
    ensures var c := Load(data, captured, cache, Replied(Reply(true, body)), engineMessage).cache;
      var answer := Received(body).value;
      && JsonText.Parse(c[ProjectsKey]) == Member(answer, "projects")
      && JsonText.Parse(c[SkillsKey]) == Member(answer, "skills")
      && (Member(body, "personalInfo").Some? ==> JsonText.Parse(c[PersonalKey]) == Member(answer, "personalInfo"))
      && (Member(body, "themeSettings").Some? ==> JsonText.Parse(c[ThemeKey]) == Member(answer, "themeSettings"))
  {
    var after := Load(data, captured, cache, Replied(Reply(true, body)), engineMessage);
    assert after.cache == Refresh(cache, body);
    RefreshReadsBack(cache, body);
  }

  /** Each entry the refresh writes reads back as the matching part of the
      exposed answer. */
  lemma RefreshReadsBack(cache: map<string, string>, body: Json)
    requires body.JObj? && WellFormed(body)
    ensures var c := Refresh(cache, body);
      var answer := Received(body).value;
      && JsonText.Parse(c[ProjectsKey]) == Member(answer, "projects")
      && JsonText.Parse(c[SkillsKey]) == Member(answer, "skills")
      && (Member(body, "personalInfo").Some? ==> JsonText.Parse(c[PersonalKey]) == Member(answer, "personalInfo"))
      && (Member(body, "themeSettings").Some? ==> JsonText.Parse(c[ThemeKey]) == Member(answer, "themeSettings"))
  {
    ReceivedArrays(body, "personalInfo");
    ReceivedArrays(body, "themeSettings");
    MemberWellFormed(body, "projects");
    MemberWellFormed(body, "skills");
    StoredText(ArrayOr(Member(body, "projects")));
    StoredText(ArrayOr(Member(body, "skills")));
    if Member(body, "personalInfo").Some? {
      MemberWellFormed(body, "personalInfo");
      StoredText(Member(body, "personalInfo").value);
    }
    if Member(body, "themeSettings").Some? {
      MemberWellFormed(body, "themeSettings");
      StoredText(Member(body, "themeSettings").value);
    }
  }

  /** Members of a well-formed object are well formed. */
  lemma MemberWellFormed(body: Json, key: string)
    requires WellFormed(body)
    ensures Member(body, key).Some? ==> WellFormed(Member(body, key).value)
    ensures WellFormed(ArrayOr(Member(body, key)))
  {
    if Member(body, key).Some? {
      var i :| 0 <= i < |body.fields| && body.fields[i] == Field(key, Member(body, key).value);
    }
  }

  /** After a good answer with all four parts, the next load shows the
      same four parts from the cache before it asks again. */
  lemma CacheRoundTrip(data: Option<Json>, captured: Option<Json>, cache: map<string, string>,
                       body: Json, engineMessage: string)
    requires Hydration(cache).Ok?
    requires body.JObj? && WellFormed(body)
    requires Member(body, "personalInfo").Some? && Member(body, "themeSettings").Some?
    ensures var c := Load(data, captured, cache, Replied(Reply(true, body)), engineMessage).cache;
      var answer := Received(body).value;
      && Hydration(c).Ok? && Hydration(c).value.Some?
      && Hydration(c).value.value == LocalData(Member(answer, "personalInfo").value, Member(answer, "projects").value,
                                               Member(answer, "skills").value, Member(answer, "themeSettings").value)
  {
    GoodAnswer(data, captured, cache, body, engineMessage);
    var c := Load(data, captured, cache, Replied(Reply(true, body)), engineMessage).cache;
    MemberWellFormed(body, "projects");
    MemberWellFormed(body, "skills");
    MemberWellFormed(body, "personalInfo");
    MemberWellFormed(body, "themeSettings");
    StoredText(ArrayOr(Member(body, "projects")));
    StoredText(ArrayOr(Member(body, "skills")));
    StoredText(Member(body, "personalInfo").value);
    StoredText(Member(body, "themeSettings").value);
    assert CacheComplete(c);
  }

  /** A good answer without `themeSettings` stores the text `undefined`,
      which the next load cannot read: it fails before asking again. */
  lemma MissingThemePoisons(data: Option<Json>, captured: Option<Json>, cache: map<string, string>,
                            body: Json, engineMessage: string, next: Fetched)
    requires Hydration(cache).Ok?
    requires body.JObj? && Member(body, "themeSettings").None?
    ensures var after := Load(data, captured, cache, Replied(Reply(true, body)), engineMessage);
      && after.cache[ThemeKey] == "undefined"
      && !Load(after.data, captured, after.cache, next, engineMessage).requested
  {
    var c := Load(data, captured, cache, Replied(Reply(true, body)), engineMessage).cache;
    UndefinedUnreadable();
    var p := Member(body, "personalInfo");
    assert c[PersonalKey] != "" by {
      if p.Some? {
        StoredTextNonEmpty(p.value);
      } else {
        UndefinedUnreadable();
      }
    }
    StoredTextNonEmpty(ArrayOr(Member(body, "projects")));
    StoredTextNonEmpty(ArrayOr(Member(body, "skills")));
    assert CacheComplete(c);
    assert Hydration(c).Err?;
  }

  /** Whatever it holds, a stored document is never the empty string. */
  lemma StoredTextNonEmpty(v: Json)
    ensures CacheText(Some(v)) != ""
  {
    JsonText.PrintStart(v, "", "");
  }

  /** A reply that is not ok is handled exactly like a request that
      failed: only the error text differs. */
  lemma NotOkLikeFailure(data: Option<Json>, captured: Option<Json>, cache: map<string, string>,
                         body: Json, engineMessage: string)
    ensures var a := Load(data, captured, cache, Replied(Reply(false, body)), engineMessage);
      var b := Load(data, captured, cache, Unreachable, engineMessage);
      && a.data == b.data && a.cache == b.cache && a.requested == b.requested && a.shown == b.shown
      && (Hydration(cache).Ok? ==> a.error == Some(NotOkMessage) && b.error == Some(engineMessage))
  {
  }

  /** A cache entry that cannot be read throws before the request: no
      request is made, the error is set and the cache is left as it is. */
  lemma UnreadableCache(data: Option<Json>, captured: Option<Json>, cache: map<string, string>,
                        outcome: Fetched, engineMessage: string)
    requires CacheComplete(cache)
    requires JsonText.Parse(cache[PersonalKey]).None? || JsonText.Parse(cache[ProjectsKey]).None?
          || JsonText.Parse(cache[SkillsKey]).None? || JsonText.Parse(cache[ThemeKey]).None?
    ensures var after := Load(data, captured, cache, outcome, engineMessage);
      && !after.requested && after.error == Some(engineMessage) && after.cache == cache
      && after.data == if Truthy(captured) then data else Some(Defaults())
  {
  }

  /** On every failure the defaults are installed exactly when the
      captured `data` was `null`; otherwise the data shown so far stays.
      On first mount that replaces even a document shown from the cache. */
  lemma FailureFallback(data: Option<Json>, captured: Option<Json>, cache: map<string, string>,
                        outcome: Fetched, engineMessage: string)
    requires Load(data, captured, cache, outcome, engineMessage).error.Some?
    ensures var after := Load(data, captured, cache, outcome, engineMessage);
      && after.cache == cache
      && after.data == if Truthy(captured) then after.shown else Some(Defaults())
  {
  }

  /** The error is cleared exactly by a load that succeeds. */
  lemma ErrorIffFailed(data: Option<Json>, captured: Option<Json>, cache: map<string, string>,
                       outcome: Fetched, engineMessage: string)
    ensures var after := Load(data, captured, cache, outcome, engineMessage);
      after.error.None? <==> Hydration(cache).Ok? && Remote(outcome).Ok?
  {
  }

  /** The defaults: the owner's details, no projects, no skills and the
      default theme. */
  lemma DefaultsContent()
    ensures Member(Defaults(), "projects") == Some(JArr([]))
    ensures Member(Defaults(), "skills") == Some(JArr([]))
    ensures Member(Defaults(), "personalInfo") == Some(Portfolio.PersonalInfo(Portfolio.ShortDescription))
    ensures Member(Portfolio.PersonalInfo(Portfolio.ShortDescription), "name") == Some(JStr("Alex Kumar"))
    ensures Member(Defaults(), "themeSettings") == Some(Portfolio.DefaultTheme)
  {
    Portfolio.SnapshotMembers(Portfolio.PersonalInfo(Portfolio.ShortDescription), [], []);
    Portfolio.PersonalInfoMembers(Portfolio.ShortDescription);
  }
}

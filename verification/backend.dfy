/**
  The Python API server's document store and its read endpoints:
  `load_portfolio_data` with its fallback to `get_default_data`, the
  project lookup `/api/projects/{id}`, the skills grouped by category
  `/api/skills`, and the counts of `/api/stats`.

  Reading the data file is an input: `file` is its text when it exists
  and can be opened. Each endpoint works on the document that
  `load_portfolio_data` returns, and every Python exception it raises
  becomes a 500 response.
 */
module Backend {
  import opened JsonValues
  import JsonText
  import Portfolio
  import Grouping
  import Http

  // ---------------------------------------------------------------------
  // The stored document
  // ---------------------------------------------------------------------

  /** `get_default_data()`: the long description, the three sample
      projects, the sixteen sample skills, the theme and the time of the
      call (an ISO timestamp, supplied by the caller). */
  function DefaultData(now: string): Json {
    JObj(Portfolio.Snapshot(Portfolio.PersonalInfo(Portfolio.LongDescription),
                            Portfolio.DefaultProjects, Portfolio.DefaultSkills).fields
         + [Field("lastUpdated", JStr(now))])
  }

  /** `load_portfolio_data()`: the parsed file, or the default data when
      the file is missing or does not parse. */
  function LoadPortfolioData(file: Option<string>, now: string): Json {
    if file.Some? && JsonText.Parse(file.value).Some? then JsonText.Parse(file.value).value
    else DefaultData(now)
  }

  // ---------------------------------------------------------------------
  // The Python operations the endpoints apply
  // ---------------------------------------------------------------------

  /** `d.get(key, default)`: only a dict has `get`. */
  function PyGet(d: Json, key: string, default: Json): (r: Result<Json>)
    ensures r.Err? <==> !d.JObj?
    ensures d.JObj? && !HasKey(d.fields, key) ==> r == Ok(default)
    ensures d.JObj? && HasKey(d.fields, key) ==> r == Ok(Lookup(d.fields, key).value)
  {
    if !d.JObj? then Err(EngineError)
    else
      match Lookup(d.fields, key)
      case None => Ok(default)
      case Some(v) => Ok(v)
  }

  /** `d[key]` with a string key: a KeyError when the key is absent, a
      TypeError on anything but a dict. */
  function Subscript(d: Json, key: string): (r: Result<Json>)
    ensures r.Ok? <==> d.JObj? && HasKey(d.fields, key)
    ensures r.Ok? ==> Lookup(d.fields, key) == Some(r.value)
  {
    if d.JObj? && Lookup(d.fields, key).Some? then Ok(Lookup(d.fields, key).value) else Err(EngineError)
  }

  /** `len(v)`: strings, lists and dicts have a length. */
  function PyLen(v: Json): (r: Result<nat>)
    ensures r.Ok? <==> v.JStr? || v.JArr? || v.JObj?
  {
    match v
    case JStr(s) => Ok(|s|)
    case JArr(items) => Ok(|items|)
    case JObj(fields) => Ok(|fields|)
    case _ => Err(EngineError)
  }

  /** `for x in v`: a list yields its items, a string its characters, a
      dict its keys; anything else is not iterable. */
  function PyIter(v: Json): (r: Result<seq<Json>>)
    ensures r.Ok? <==> PyLen(v).Ok?
    ensures r.Ok? ==> |r.value| == PyLen(v).value
  {
    match v
    case JStr(s) => Ok(seq(|s|, i requires 0 <= i < |s| => JStr([s[i]])))
    case JArr(items) => Ok(items)
    case JObj(fields) => Ok(seq(|fields|, i requires 0 <= i < |fields| => JStr(fields[i].key)))
    case _ => Err(EngineError)
  }

  /** The items of `data.get(key, [])`. */
  function ItemsOf(data: Json, key: string): (r: Result<seq<Json>>)
    ensures data.JObj? && Lookup(data.fields, key) == Some(JArr([])) ==> r == Ok([])
    ensures data.JObj? && !HasKey(data.fields, key) ==> r == Ok([])
  {
    match PyGet(data, key, JArr([]))
    case Err(f) => Err(f)
    case Ok(v) => PyIter(v)
  }

  /** A value used as a dict key or set member. `True` and `False` are
      equal to 1 and 0 and hash alike, so they share those keys. */
  datatype PyKey = KNone | KNum(n: int) | KStr(s: string)

  /** `hash(v)`: lists and dicts are unhashable. */
  function Hash(v: Json): (r: Result<PyKey>)
    ensures r.Err? <==> v.JArr? || v.JObj?
    ensures v.JStr? ==> r == Ok(KStr(v.s))
  {
    match v
    case JNull => Ok(KNone)
    case JBool(b) => Ok(KNum(if b then 1 else 0))
    case JNum(n) => Ok(KNum(n))
    case JStr(s) => Ok(KStr(s))
    case _ => Err(EngineError)
  }

  /** The body of an HTTPException. */
  function Detail(status: nat, text: string): Http.Response {
    Http.Response(status, Http.Message("detail", text))
  }

  // ---------------------------------------------------------------------
  // GET /api/projects/{project_id}
  // ---------------------------------------------------------------------

  /** `p["id"] == project_id` holds. */
  predicate IdIs(p: Json, id: string) {
    Subscript(p, "id") == Ok(JStr(id))
  }

  /** `p["id"]` can be read and differs from `project_id`. */
  predicate OtherId(p: Json, id: string) {
    Subscript(p, "id").Ok? && Subscript(p, "id") != Ok(JStr(id))
  }

  /** `next((p for p in projects if p["id"] == project_id), None)`: the
      generator stops at the first match, so only the projects before it
      are read; reading one without an id raises. */
  function FirstWithId(projects: seq<Json>, id: string): (r: Result<Option<Json>>)
    ensures r.Ok? && r.value.Some? ==>
      exists i :: 0 <= i < |projects| && projects[i] == r.value.value && IdIs(projects[i], id)
                  && forall j :: 0 <= j < i ==> OtherId(projects[j], id)
    ensures r == Ok(None) <==> forall j :: 0 <= j < |projects| ==> OtherId(projects[j], id)
    ensures r.Err? ==>
      exists i :: 0 <= i < |projects| && Subscript(projects[i], "id").Err?
                  && forall j :: 0 <= j < i ==> OtherId(projects[j], id)
  {
    if projects == [] then Ok(None)
    else
      match Subscript(projects[0], "id")
      case Err(f) => Err(f)
      case Ok(v) =>
        if v == JStr(id) then Ok(Some(projects[0]))
        else
          var r := FirstWithId(projects[1..], id);
          ShiftResult(projects, id, r);
          assert forall j :: 0 < j < |projects| ==> projects[j] == projects[1..][j - 1];
          r
  }

  /** What the search finds past a first project with another id is what
      it finds in the whole list. */
  lemma ShiftResult(projects: seq<Json>, id: string, r: Result<Option<Json>>)
    requires projects != [] && OtherId(projects[0], id)
    requires r.Ok? && r.value.Some? ==>
      exists i :: 0 <= i < |projects[1..]| && projects[1..][i] == r.value.value && IdIs(projects[1..][i], id)
                  && forall j :: 0 <= j < i ==> OtherId(projects[1..][j], id)
    requires r.Err? ==>
      exists i :: 0 <= i < |projects[1..]| && Subscript(projects[1..][i], "id").Err?
                  && forall j :: 0 <= j < i ==> OtherId(projects[1..][j], id)
    ensures r.Ok? && r.value.Some? ==>
      exists i :: 0 <= i < |projects| && projects[i] == r.value.value && IdIs(projects[i], id)
                  && forall j :: 0 <= j < i ==> OtherId(projects[j], id)
    ensures r.Err? ==>
      exists i :: 0 <= i < |projects| && Subscript(projects[i], "id").Err?
                  && forall j :: 0 <= j < i ==> OtherId(projects[j], id)
  {
    if r.Ok? && r.value.Some? {
      FoundAfter(projects, id, r.value.value);
    }
    if r.Err? {
      FailedAfter(projects, id);
    }
  }

  /** A match found past a first project with another id is the first
      match of the whole list. */
  lemma FoundAfter(projects: seq<Json>, id: string, v: Json)
    requires projects != [] && OtherId(projects[0], id)
    requires exists i :: 0 <= i < |projects[1..]| && projects[1..][i] == v && IdIs(projects[1..][i], id)
                         && forall j :: 0 <= j < i ==> OtherId(projects[1..][j], id)
    ensures exists i :: 0 <= i < |projects| && projects[i] == v && IdIs(projects[i], id)
                        && forall j :: 0 <= j < i ==> OtherId(projects[j], id)
  {
    var i :| 0 <= i < |projects[1..]| && projects[1..][i] == v && IdIs(projects[1..][i], id)
             && forall j :: 0 <= j < i ==> OtherId(projects[1..][j], id);
    assert projects[i + 1] == v && IdIs(projects[i + 1], id);
    assert forall j :: 0 <= j < i + 1 ==> OtherId(projects[j], id);
  }

  /** Likewise for a project without an id found past the first one. */
  lemma FailedAfter(projects: seq<Json>, id: string)
    requires projects != [] && OtherId(projects[0], id)
    requires exists i :: 0 <= i < |projects[1..]| && Subscript(projects[1..][i], "id").Err?
                         && forall j :: 0 <= j < i ==> OtherId(projects[1..][j], id)
    ensures exists i :: 0 <= i < |projects| && Subscript(projects[i], "id").Err?
                        && forall j :: 0 <= j < i ==> OtherId(projects[j], id)
  {
    var i :| 0 <= i < |projects[1..]| && Subscript(projects[1..][i], "id").Err?
             && forall j :: 0 <= j < i ==> OtherId(projects[1..][j], id);
    assert Subscript(projects[i + 1], "id").Err?;
    assert forall j :: 0 <= j < i + 1 ==> OtherId(projects[j], id);
  }

  /** The endpoint: the first project with that id, 404 when none has it,
      500 when the projects cannot be read. `pyMessage` is the text of the
      Python exception. */
  function GetProject(data: Json, projectId: string, pyMessage: string): Http.Response {
    match ItemsOf(data, "projects")
    case Err(_) => Detail(500, "Failed to load project: " + pyMessage)
    case Ok(projects) =>
      match FirstWithId(projects, projectId)
      case Err(_) => Detail(500, "Failed to load project: " + pyMessage)
      case Ok(None) => Detail(404, "Project not found")
      case Ok(Some(p)) => if !PyTruthy(p) then Detail(404, "Project not found") else Http.Response(200, p)
  }

  /** A project that matched has an id, so it is a non-empty dict and the
      `if not project` guard never rejects it: the endpoint answers with
      the first project whose id matches, 404 exactly when every project
      has another id, and 500 when a project before the first match has
      no id. */
  lemma GetProjectOutcome(data: Json, projectId: string, pyMessage: string, projects: seq<Json>)
    requires ItemsOf(data, "projects") == Ok(projects)
    ensures FirstWithId(projects, projectId).Ok? && FirstWithId(projects, projectId).value.Some? ==>
      GetProject(data, projectId, pyMessage) == Http.Response(200, FirstWithId(projects, projectId).value.value)
    ensures GetProject(data, projectId, pyMessage).status == 404 <==>
      forall j :: 0 <= j < |projects| ==> OtherId(projects[j], projectId)
    ensures GetProject(data, projectId, pyMessage).status == 500 <==>
      exists i :: 0 <= i < |projects| && Subscript(projects[i], "id").Err?
                  && forall j :: 0 <= j < i ==> OtherId(projects[j], projectId)
  {
    var r := FirstWithId(projects, projectId);
    if r.Ok? && r.value.Some? {
      FoundOutcome(projects, projectId, r.value.value);
    } else if r.Ok? {
      forall i | 0 <= i < |projects| ensures !Subscript(projects[i], "id").Err? {
        assert OtherId(projects[i], projectId);
      }
    } else {
      var i :| 0 <= i < |projects| && Subscript(projects[i], "id").Err?
               && forall j :: 0 <= j < i ==> OtherId(projects[j], projectId);
      assert !OtherId(projects[i], projectId);
    }
  }

  /** A first match is a truthy dict, and no project before it lacks an
      id, nor does every project have another id. */
  lemma FoundOutcome(projects: seq<Json>, projectId: string, p: Json)
    requires exists i :: 0 <= i < |projects| && projects[i] == p && IdIs(projects[i], projectId)
                         && forall j :: 0 <= j < i ==> OtherId(projects[j], projectId)
    ensures PyTruthy(p)
    ensures !forall j :: 0 <= j < |projects| ==> OtherId(projects[j], projectId)
    ensures !exists k :: 0 <= k < |projects| && Subscript(projects[k], "id").Err?
                         && forall j :: 0 <= j < k ==> OtherId(projects[j], projectId)
  {
    var i :| 0 <= i < |projects| && projects[i] == p && IdIs(projects[i], projectId)
             && forall j :: 0 <= j < i ==> OtherId(projects[j], projectId);
    assert HasKey(p.fields, "id");
    assert !OtherId(projects[i], projectId);
    assert forall k :: 0 <= k < |projects| && Subscript(projects[k], "id").Err? ==> i < k;
  }

  // ---------------------------------------------------------------------
  // GET /api/skills
  // ---------------------------------------------------------------------

  /** One skill's dict key and its `{"name": ..., "level": ...}` entry.
      Reading `category`, hashing it, and reading `name` and `level` can
      each raise. */
  function SkillEntry(skill: Json): (r: Result<(PyKey, Json)>)
    ensures r.Ok? <==> Subscript(skill, "category").Ok? && Hash(Subscript(skill, "category").value).Ok?
                       && Subscript(skill, "name").Ok? && Subscript(skill, "level").Ok?
    ensures r.Ok? ==> r.value.0 == Hash(Subscript(skill, "category").value).value
    ensures r.Ok? ==> r.value.1 == JObj([Field("name", Subscript(skill, "name").value),
                                         Field("level", Subscript(skill, "level").value)])
  {
    match Subscript(skill, "category")
    case Err(f) => Err(f)
    case Ok(category) =>
      match Hash(category)
      case Err(f) => Err(f)
      case Ok(key) =>
        match Subscript(skill, "name")
        case Err(f) => Err(f)
        case Ok(name) =>
          match Subscript(skill, "level")
          case Err(f) => Err(f)
          case Ok(level) => Ok((key, JObj([Field("name", name), Field("level", level)])))
  }

  /** The keys and entries of all skills, or the first failure. */
  function SkillEntries(skills: seq<Json>): (r: Result<(seq<PyKey>, seq<Json>)>)
    ensures r.Ok? <==> forall i :: 0 <= i < |skills| ==> SkillEntry(skills[i]).Ok?
    ensures r.Ok? ==> |r.value.0| == |skills| && |r.value.1| == |skills|
    ensures r.Ok? ==> forall i :: 0 <= i < |skills| ==> SkillEntry(skills[i]).value == (r.value.0[i], r.value.1[i])
  {
    if skills == [] then Ok(([], []))
    else
      var n := |skills| - 1;
      match SkillEntries(skills[..n])
      case Err(f) =>
        PrefixFails(skills, n);
        Err(f)
      case Ok((keys, entries)) =>
        assert forall i :: 0 <= i < n ==> skills[..n][i] == skills[i];
        match SkillEntry(skills[n])
        case Err(f) => Err(f)
        case Ok((key, entry)) =>
          EntriesExtend(skills, keys, entries, key, entry);
          Ok((keys + [key], entries + [entry]))
  }

  /** The entries of all skills but the last, and the last one's. */
  lemma EntriesExtend(skills: seq<Json>, keys: seq<PyKey>, entries: seq<Json>, key: PyKey, entry: Json)
    requires skills != [] && |keys| == |entries| == |skills| - 1
    requires forall i :: 0 <= i < |skills| - 1 ==>
      SkillEntry(skills[i]).Ok? && SkillEntry(skills[i]).value == (keys[i], entries[i])
    requires SkillEntry(skills[|skills| - 1]) == Ok((key, entry))
    ensures forall i :: 0 <= i < |skills| ==>
      SkillEntry(skills[i]).Ok? && SkillEntry(skills[i]).value == ((keys + [key])[i], (entries + [entry])[i])
  {
  }

  /** A skill of a prefix that raises is a skill of the list that raises. */
  lemma PrefixFails(skills: seq<Json>, n: nat)
    requires n <= |skills|
    requires exists i :: 0 <= i < n && !SkillEntry(skills[..n][i]).Ok?
    ensures exists i :: 0 <= i < |skills| && !SkillEntry(skills[i]).Ok?
  {
    var i :| 0 <= i < n && !SkillEntry(skills[..n][i]).Ok?;
    assert skills[..n][i] == skills[i];
  }

  /** `/api/skills`: a dict from each category to the entries of its
      skills, built in one pass; any skill that raises makes the response
      a 500 and nothing of the partial dict is sent, so the model checks
      every skill first and then groups. The dict is returned as its keys
      in insertion order and the key-to-list table. */
  method GetSkills(data: Json) returns (r: Result<(seq<PyKey>, map<PyKey, seq<Json>>)>)
    ensures r.Err? <==> ItemsOf(data, "skills").Err? || SkillEntries(ItemsOf(data, "skills").value).Err?
    ensures r.Ok? ==> r.value.0 == Grouping.Categories(SkillEntries(ItemsOf(data, "skills").value).value.0)
    ensures r.Ok? ==> forall k :: k in r.value.1 <==> k in SkillEntries(ItemsOf(data, "skills").value).value.0
    ensures r.Ok? ==> forall k :: k in r.value.1 ==>
      r.value.1[k] == Grouping.Members(SkillEntries(ItemsOf(data, "skills").value).value.0,
                                       SkillEntries(ItemsOf(data, "skills").value).value.1, k)
  {
    var items := ItemsOf(data, "skills");
    if items.Err? {
      return Err(items.failure);
    }
    var entries := SkillEntries(items.value);
    if entries.Err? {
      return Err(entries.failure);
    }
    var order, table := Grouping.GroupBy(entries.value.0, entries.value.1);
    return Ok((order, table));
  }

  /** Every entry of a category's list comes from a skill of that
      category and carries only that skill's name and level. */
  lemma SkillGroupEntry(skills: seq<Json>, k: PyKey, m: nat)
    requires SkillEntries(skills).Ok?
    requires m < |Grouping.Members(SkillEntries(skills).value.0, SkillEntries(skills).value.1, k)|
    ensures exists i :: (0 <= i < |skills|
      && Hash(Subscript(skills[i], "category").value) == Ok(k)
      && Grouping.Members(SkillEntries(skills).value.0, SkillEntries(skills).value.1, k)[m]
         == JObj([Field("name", Subscript(skills[i], "name").value), Field("level", Subscript(skills[i], "level").value)]))
  {
    var keys, entries := SkillEntries(skills).value.0, SkillEntries(skills).value.1;
    Grouping.MembersFrom(keys, entries, k, m);
    var i :| 0 <= i < |keys| && keys[i] == k && entries[i] == Grouping.Members(keys, entries, k)[m];
    assert SkillEntry(skills[i]).value == (keys[i], entries[i]);
  }

  /** Every skill is listed exactly once, under its own category. */
  lemma SkillGroupsPartition(skills: seq<Json>)
    requires SkillEntries(skills).Ok?
    ensures multiset(Grouping.Flatten(SkillEntries(skills).value.0, SkillEntries(skills).value.1,
                                      Grouping.Categories(SkillEntries(skills).value.0)))
         == multiset(SkillEntries(skills).value.1)
  {
    Grouping.GroupsPartition(SkillEntries(skills).value.0, SkillEntries(skills).value.1);
  }

  // ---------------------------------------------------------------------
  // GET /api/stats
  // ---------------------------------------------------------------------

  /** The integer fields of the statistics; `averageSkillLevel` is a float. */
  datatype Stats = Stats(totalProjects: nat, featuredProjects: nat, totalSkills: nat,
                         skillCategories: nat, lastUpdated: Json)

  /** `p.get("featured", False)` is truthy. */
  predicate Featured(p: Json)
    requires p.JObj?
  {
    PyTruthy(PyGet(p, "featured", JBool(false)).value)
  }

  /** `len([p for p in projects if p.get("featured", False)])`: every item
      must be a dict to have `get`. */
  function FeaturedCount(projects: seq<Json>): (r: Result<nat>)
    ensures r.Ok? <==> forall i :: 0 <= i < |projects| ==> projects[i].JObj?
    ensures r.Ok? ==> r.value <= |projects|
    ensures r.Ok? ==> r.value == |FeaturedPositions(projects)|
  {
    if projects == [] then
      assert FeaturedPositions(projects) == {};
      Ok(0)
    else
      var n := |projects| - 1;
      assert forall i :: 0 <= i < n ==> projects[..n][i] == projects[i];
      var prev := FeaturedCount(projects[..n]);
      if prev.Err? || !projects[n].JObj? then Err(EngineError)
      else
        FeaturedStep(projects);
        Ok(prev.value + if Featured(projects[n]) then 1 else 0)
  }

  /** The positions of the dicts whose `featured` is truthy. */
  function FeaturedPositions(projects: seq<Json>): set<int> {
    set i | 0 <= i < |projects| && projects[i].JObj? && Featured(projects[i])
  }

  /** The last project adds its own position, if featured, to those of
      the projects before it. */
  lemma FeaturedStep(projects: seq<Json>)
    requires projects != [] && projects[|projects| - 1].JObj?
    ensures var n := |projects| - 1;
      |FeaturedPositions(projects)|
      == |FeaturedPositions(projects[..n])| + if Featured(projects[n]) then 1 else 0
  {
    var n := |projects| - 1;
    var before := FeaturedPositions(projects[..n]);
    var last: set<int> := if Featured(projects[n]) then {n} else {};
    assert forall i :: 0 <= i < n ==> projects[..n][i] == projects[i];
    assert FeaturedPositions(projects) == before + last;
    assert n !in before;
  }

  /** The hashed `skill["category"]` of every skill. */
  function CategoryKeys(skills: seq<Json>): (r: Result<seq<PyKey>>)
    ensures r.Ok? ==> |r.value| == |skills|
    ensures r.Ok? <==> forall i :: 0 <= i < |skills| ==>
      Subscript(skills[i], "category").Ok? && Hash(Subscript(skills[i], "category").value).Ok?
  {
    if skills == [] then Ok([])
    else
      var n := |skills| - 1;
      assert forall i :: 0 <= i < n ==> skills[..n][i] == skills[i];
      var prev := CategoryKeys(skills[..n]);
      if prev.Err? || Subscript(skills[n], "category").Err? then Err(EngineError)
      else
        match Hash(Subscript(skills[n], "category").value)
        case Err(f) => Err(f)
        case Ok(k) => Ok(prev.value + [k])
  }

  /** `sum(skill["level"] for skill in skills)` can be computed: every
      level exists and is a number (a bool counts as 0 or 1). */
  predicate LevelsSummable(skills: seq<Json>) {
    forall i :: 0 <= i < |skills| ==>
      Subscript(skills[i], "level").Ok? && (Subscript(skills[i], "level").value.JNum? || Subscript(skills[i], "level").value.JBool?)
  }

  /** `/api/stats`: the counts, or a failure (a 500). The average is
      computed only when `data.get("skills")` is truthy, and then fails
      unless every level is a number. */
  function PortfolioStats(data: Json): Result<Stats> {
    if !data.JObj? then Err(EngineError)
    else
      var projects := PyGet(data, "projects", JArr([])).value;
      var skills := PyGet(data, "skills", JArr([])).value;
      if PyIter(projects).Err? || PyIter(skills).Err? then Err(EngineError)
      else
        var featured := FeaturedCount(PyIter(projects).value);
        var keys := CategoryKeys(PyIter(skills).value);
        if featured.Err? || keys.Err? then Err(EngineError)
        else if PyTruthy(skills) && !LevelsSummable(PyIter(skills).value) then Err(EngineError)
        else
          Ok(Stats(PyLen(projects).value, featured.value, PyLen(skills).value,
                   |set k | k in keys.value|, PyGet(data, "lastUpdated", JNull).value))
  }

  /** No more featured projects than projects, no more categories than
      skills, and as many categories as `/api/skills` has groups. */
  lemma StatsBounds(data: Json)
    requires PortfolioStats(data).Ok?
    ensures PortfolioStats(data).value.featuredProjects <= PortfolioStats(data).value.totalProjects
    ensures PortfolioStats(data).value.skillCategories <= PortfolioStats(data).value.totalSkills
    ensures PortfolioStats(data).value.skillCategories
         == |Grouping.Categories(CategoryKeys(ItemsOf(data, "skills").value).value)|
  {
    var skills := PyGet(data, "skills", JArr([])).value;
    var keys := CategoryKeys(PyIter(skills).value).value;
    Grouping.GroupCount(keys);
    Grouping.CategoriesBound(keys);
  }

  /** `/api/skills` and `/api/stats` group by the same keys: when both
      succeed, the dict has `skillCategories` entries. */
  lemma StatsMatchSkills(data: Json)
    requires PortfolioStats(data).Ok?
    requires ItemsOf(data, "skills").Ok? && SkillEntries(ItemsOf(data, "skills").value).Ok?
    ensures CategoryKeys(ItemsOf(data, "skills").value) == Ok(SkillEntries(ItemsOf(data, "skills").value).value.0)
    ensures PortfolioStats(data).value.skillCategories
         == |Grouping.Categories(SkillEntries(ItemsOf(data, "skills").value).value.0)|
  {
    var skills := ItemsOf(data, "skills").value;
    SameKeys(skills);
    StatsBounds(data);
  }

  lemma {:induction false} SameKeys(skills: seq<Json>)
    requires SkillEntries(skills).Ok?
    ensures CategoryKeys(skills) == Ok(SkillEntries(skills).value.0)
  {
    if skills != [] {
      var n := |skills| - 1;
      assert forall i :: 0 <= i < n ==> skills[..n][i] == skills[i];
      SameKeys(skills[..n]);
    }
  }

  // ---------------------------------------------------------------------
  // The default document
  // ---------------------------------------------------------------------

  /** A file holding a document written as JSON text, compact or indented,
      loads back as that document; a missing or unreadable file gives the
      default data. */
  lemma LoadWritten(d: Json, gap: string, now: string)
    requires WellFormed(d) && JsonText.AllSpace(gap)
    ensures LoadPortfolioData(Some(JsonText.Print(d, gap, "")), now) == d
    ensures LoadPortfolioData(None, now) == DefaultData(now)
  {
    JsonText.ParsePrint(d, gap);
  }

  /** The default data: the long description, three projects with ids
      "1", "2" and "3", sixteen skills with levels between 0 and 100, and
      `lastUpdated` set to the time of the call. */
  lemma DefaultDataContent(now: string)
    ensures DefaultData(now).JObj? && DistinctKeys(DefaultData(now).fields)
    ensures Member(DefaultData(now), "lastUpdated") == Some(JStr(now))
    ensures Member(DefaultData(now), "projects") == Some(JArr(Portfolio.DefaultProjects))
    ensures Member(DefaultData(now), "skills") == Some(JArr(Portfolio.DefaultSkills))
    ensures Member(DefaultData(now), "personalInfo") == Some(Portfolio.PersonalInfo(Portfolio.LongDescription))
  {
    Stamped(Portfolio.PersonalInfo(Portfolio.LongDescription), Portfolio.DefaultProjects, Portfolio.DefaultSkills, now);
  }

  /** A snapshot with the time stamp appended keeps its four members. */
  lemma Stamped(pi: Json, projects: seq<Json>, skills: seq<Json>, now: string)
    ensures var fields := Portfolio.Snapshot(pi, projects, skills).fields + [Field("lastUpdated", JStr(now))];
      && DistinctKeys(fields)
      && Lookup(fields, "lastUpdated") == Some(JStr(now))
      && Lookup(fields, "projects") == Some(JArr(projects))
      && Lookup(fields, "skills") == Some(JArr(skills))
      && Lookup(fields, "personalInfo") == Some(pi)
  {
    var snap := Portfolio.Snapshot(pi, projects, skills);
    Portfolio.SnapshotMembers(pi, projects, skills);
    var fields := snap.fields + [Field("lastUpdated", JStr(now))];
    assert fields[..|fields| - 1] == snap.fields;
  }

  /** On the default data, project "2" is the second sample project and
      an unknown id is a 404. */
  lemma DefaultProjectLookup(now: string, pyMessage: string)
    ensures GetProject(DefaultData(now), "2", pyMessage) == Http.Response(200, Portfolio.DefaultProjects[1])
    ensures GetProject(DefaultData(now), "7", pyMessage).status == 404
  {
    DefaultProjectItems(now);
    DefaultIds();
    GetProjectOutcome(DefaultData(now), "2", pyMessage, Portfolio.DefaultProjects);
    GetProjectOutcome(DefaultData(now), "7", pyMessage, Portfolio.DefaultProjects);
  }

  lemma DefaultProjectItems(now: string)
    ensures ItemsOf(DefaultData(now), "projects") == Ok(Portfolio.DefaultProjects)
  {
    DefaultDataContent(now);
  }

  lemma DefaultIds()
    ensures FirstWithId(Portfolio.DefaultProjects, "2") == Ok(Some(Portfolio.DefaultProjects[1]))
    ensures forall j :: 0 <= j < |Portfolio.DefaultProjects| ==> OtherId(Portfolio.DefaultProjects[j], "7")
  {
    Portfolio.DefaultProjectIds();
    ThreeIds(Portfolio.DefaultProjects);
  }

  lemma ThreeIds(ps: seq<Json>)
    requires |ps| == 3
    requires Member(ps[0], "id") == Some(JStr("1"))
    requires Member(ps[1], "id") == Some(JStr("2"))
    requires Member(ps[2], "id") == Some(JStr("3"))
    ensures FirstWithId(ps, "2") == Ok(Some(ps[1]))
    ensures forall j :: 0 <= j < |ps| ==> OtherId(ps[j], "7")
  {
    assert OtherId(ps[0], "2") && IdIs(ps[1], "2");
    assert ps[1..][0] == ps[1];
    assert OtherId(ps[0], "7") && OtherId(ps[1], "7") && OtherId(ps[2], "7");
  }
}

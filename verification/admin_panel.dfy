/**
  The admin panel: an editable copy of the portfolio document (personal
  information, projects, skills, theme), loaded from `/api/portfolio` or
  from the browser's storage, edited through validated add, update and
  delete actions, and saved first to the storage and then through
  `/api/admin/save`. Every action reports itself with a toast.
 */
module AdminPanel {
  import opened JsonValues
  import JsonText
  import Portfolio
  import opened Http
  import opened Storage
  import Text
  import SaveRoute

  // ---------------------------------------------------------------------
  // Toasts
  // ---------------------------------------------------------------------

  /** A toast: its title, its text, and whether it is shown as an error. */
  datatype Toast = Toast(title: string, description: string, destructive: bool)

  const DataLoaded: Toast := Toast("Data Loaded", "Portfolio data loaded from backend successfully.", false)
  const LoadWarning: Toast := Toast("Warning", "Could not load data from backend. Using local data.", true)
  const SavedToBackend: Toast := Toast("Success!", "Portfolio data saved permanently to backend.", false)
  const SaveFailed: Toast := Toast("Error", "Failed to save data. Please try again.", true)
  const ProjectFieldsMissing: Toast := Toast("Error", "Please fill in all required fields.", true)
  const ProjectAdded: Toast := Toast("Success!", "Project added successfully. Don't forget to save!", false)
  const ProjectUpdated: Toast := Toast("Success!", "Project updated successfully. Don't forget to save!", false)
  const ProjectDeleted: Toast := Toast("Success!", "Project deleted successfully. Don't forget to save!", false)
  const SkillFieldsMissing: Toast := Toast("Error", "Please fill in all skill fields.", true)
  const SkillAdded: Toast := Toast("Success!", "Skill added successfully. Don't forget to save!", false)
  const SkillDeleted: Toast := Toast("Success!", "Skill deleted successfully. Don't forget to save!", false)

  /** The toast for an answer of the save route whose `success` is falsy. */
  function PartialSuccess(result: Json): Toast {
    Toast("Partial Success", OrText(Member(result, "message"), "Data saved locally but backend sync failed."), true)
  }

  // ---------------------------------------------------------------------
  // The document being edited
  // ---------------------------------------------------------------------

  /** The four parts of the panel's state. */
  datatype Parts = Parts(personalInfo: Json, projects: Json, skills: Json, themeSettings: Json)

  /** The panel's state before anything is loaded. */
  const InitialParts: Parts :=
    Parts(Portfolio.PersonalInfo(Portfolio.ShortDescription), JArr([]), JArr([]), Portfolio.DefaultTheme)

  /** `{ personalInfo, projects, skills, themeSettings }`, the document sent
      on save. */
  function Document(parts: Parts): Json {
    JObj([Field("personalInfo", parts.personalInfo), Field("projects", parts.projects),
          Field("skills", parts.skills), Field("themeSettings", parts.themeSettings)])
  }

  /** JavaScript's `a || b`. */
  function Or(v: Option<Json>, fallback: Json): (r: Json)
    ensures Truthy(v) ==> r == v.value
    ensures !Truthy(v) ==> r == fallback
  {
    if Truthy(v) then v.value else fallback
  }

  // ---------------------------------------------------------------------
  // Loading
  // ---------------------------------------------------------------------

  /** `if (data.key) setPart(data.key)` for the four parts. */
  function FromAnswer(parts: Parts, data: Json): (r: Parts)
    ensures r.personalInfo == Or(Member(data, "personalInfo"), parts.personalInfo)
    ensures r.projects == Or(Member(data, "projects"), parts.projects)
    ensures r.skills == Or(Member(data, "skills"), parts.skills)
    ensures r.themeSettings == Or(Member(data, "themeSettings"), parts.themeSettings)
  {
    Parts(Or(Member(data, "personalInfo"), parts.personalInfo), Or(Member(data, "projects"), parts.projects),
          Or(Member(data, "skills"), parts.skills), Or(Member(data, "themeSettings"), parts.themeSettings))
  }

  /** A cache entry that is absent (or empty) or that `JSON.parse` reads. */
  predicate Readable(cache: map<string, string>, key: string) {
    Saved(cache, key).None? || JsonText.Parse(Saved(cache, key).value).Some?
  }

  /** `if (saved) setPart(JSON.parse(saved))` for one part. */
  function Restore(part: Json, cache: map<string, string>, key: string): (r: Result<Json>)
    ensures r.Ok? <==> Readable(cache, key)
    ensures Saved(cache, key).None? ==> r == Ok(part)
    ensures Saved(cache, key).Some? && r.Ok? ==> Some(r.value) == JsonText.Parse(cache[key])
  {
    match Saved(cache, key)
    case None => Ok(part)
    case Some(text) =>
      match JsonText.Parse(text)
      case None => Err(EngineError)
      case Some(v) => Ok(v)
  }

  /** The four restores in order; the first entry that cannot be read
      throws, after the parts before it have been set. The flag says
      whether it threw. */
  function FromCache(parts: Parts, cache: map<string, string>): (Parts, bool) {
    match Restore(parts.personalInfo, cache, PersonalKey)
    case Err(_) => (parts, true)
    case Ok(p) =>
      var parts1 := parts.(personalInfo := p);
      match Restore(parts.projects, cache, ProjectsKey)
      case Err(_) => (parts1, true)
      case Ok(pr) =>
        var parts2 := parts1.(projects := pr);
        match Restore(parts.skills, cache, SkillsKey)
        case Err(_) => (parts2, true)
        case Ok(s) =>
          var parts3 := parts2.(skills := s);
          match Restore(parts.themeSettings, cache, ThemeKey)
          case Err(_) => (parts3, true)
          case Ok(t) => (parts3.(themeSettings := t), false)
  }

  /** `loadData`: the parts afterwards and the toast shown, if any. An ok
      answer that is `null` throws on its first member read. */
  function LoadOutcome(parts: Parts, cache: map<string, string>, outcome: Fetched): (Parts, Option<Toast>) {
    match outcome
    case Unreachable => (parts, Some(LoadWarning))
    case Replied(reply) =>
      if reply.ok then
        if reply.body == JNull then (parts, Some(LoadWarning))
        else (FromAnswer(parts, reply.body), Some(DataLoaded))
      else
        var (restored, threw) := FromCache(parts, cache);
        (restored, if threw then Some(LoadWarning) else None)
  }

  // ---------------------------------------------------------------------
  // Saving
  // ---------------------------------------------------------------------

  /** The four `setItem` calls of `saveData`: each part under its own key
      as JSON text, every other entry of the storage as it was. */
  function SaveLocally(cache: map<string, string>, parts: Parts): (c: map<string, string>)
    ensures c.Keys == cache.Keys + {PersonalKey, ProjectsKey, SkillsKey, ThemeKey}
    ensures c[PersonalKey] == JsonText.Stringify(parts.personalInfo)
    ensures c[ProjectsKey] == JsonText.Stringify(parts.projects)
    ensures c[SkillsKey] == JsonText.Stringify(parts.skills)
    ensures c[ThemeKey] == JsonText.Stringify(parts.themeSettings)
    ensures forall k :: k in cache && k !in {PersonalKey, ProjectsKey, SkillsKey, ThemeKey} ==> c[k] == cache[k]
  {
    Store(cache, JsonText.Stringify(parts.personalInfo), JsonText.Stringify(parts.projects),
          JsonText.Stringify(parts.skills), JsonText.Stringify(parts.themeSettings))
  }

  /** The toast after the request to the save route: reading `success` of
      a `null` answer, or a failed request, throws. */
  function SaveToast(outcome: Fetched): (t: Toast)
    ensures t in {SavedToBackend, SaveFailed} || t.title == "Partial Success"
  {
    match outcome
    case Unreachable => SaveFailed
    case Replied(reply) =>
      if reply.body == JNull then SaveFailed
      else if Truthy(Member(reply.body, "success")) then SavedToBackend
      else PartialSuccess(reply.body)
  }

  // ---------------------------------------------------------------------
  // List edits
  // ---------------------------------------------------------------------

  /** `[...v]`: arrays spread to their elements, strings to their
      characters; anything else is not iterable and throws. */
  function Spread(v: Json): (r: Result<seq<Json>>)
    ensures r.Ok? <==> v.JArr? || v.JStr?
    ensures v.JArr? ==> r == Ok(v.items)
  {
    match v
    case JArr(items) => Ok(items)
    case JStr(s) => Ok(seq(|s|, i requires 0 <= i < |s| => JStr([s[i]])))
    case _ => Err(EngineError)
  }

  /** A project record with the given member values. */
  function ProjectRecord(id: Json, title: Json, description: Json, technologies: Json,
                         githubUrl: Json, liveUrl: Json, imageUrl: Json, featured: Json): (p: Json)
    ensures p.JObj? && |p.fields| == 8 && DistinctKeys(p.fields)
  {
    JObj([
      Field("id", id), Field("title", title), Field("description", description),
      Field("technologies", technologies), Field("github_url", githubUrl), Field("live_url", liveUrl),
      Field("image_url", imageUrl), Field("featured", featured)
    ])
  }

  /** The project `addProject` builds from the draft and the id. */
  function NewProject(draft: seq<Field>, id: string): (p: Json)
    ensures p.JObj? && |p.fields| == 8 && DistinctKeys(p.fields)
  {
    var d := JObj(draft);
    ProjectRecord(JStr(id), Or(Member(d, "title"), JStr("")), Or(Member(d, "description"), JStr("")),
                  Or(Member(d, "technologies"), JArr([])), Or(Member(d, "github_url"), JStr("")),
                  Or(Member(d, "live_url"), JStr("")), Or(Member(d, "image_url"), JStr("default")),
                  Or(Member(d, "featured"), JBool(false)))
  }

  /** The skill `addSkill` builds from the draft. */
  function NewSkill(draft: seq<Field>): (s: Json)
    ensures s.JObj? && |s.fields| == 3
  {
    var d := JObj(draft);
    JObj([Field("name", Or(Member(d, "name"), JStr(""))), Field("level", Or(Member(d, "level"), JNum(0))),
          Field("category", Or(Member(d, "category"), JStr("")))])
  }

  /** `projects.map(p => p.id === updated.id ? updated : p)`: only arrays
      have `map`, and reading `id` of `null` throws (the updated project's
      only when there is an element to compare it with). */
  function Updated(projects: Json, updated: Json): (r: Result<seq<Json>>)
    ensures r.Ok? <==> projects.JArr? && (projects.items == [] || (updated != JNull && JNull !in projects.items))
    ensures r.Ok? ==> |r.value| == |projects.items|
    ensures r.Ok? ==> forall i :: 0 <= i < |r.value| ==>
      r.value[i] == if Member(projects.items[i], "id") == Member(updated, "id") then updated else projects.items[i]
  {
    if !projects.JArr? then Err(EngineError)
    else
      var items := projects.items;
      if items != [] && (updated == JNull || JNull in items) then Err(EngineError)
      else Ok(seq(|items|, i requires 0 <= i < |items| =>
                if Member(items[i], "id") == Member(updated, "id") then updated else items[i]))
  }

  /** `p.id !== id`, where `id` is the `id` of a listed project: any JSON
      value, or `None` for a project without one (`undefined`, which
      equals only `undefined`). */
  predicate Keeps(p: Json, id: Option<Json>) {
    Member(p, "id") != id
  }

  /** `items.filter(p => p.id !== id)` once no element is `null`. */
  function Without(items: seq<Json>, id: Option<Json>): (r: seq<Json>)
    ensures |r| <= |items|
    ensures forall x :: x in r ==> x in items && Keeps(x, id)
    ensures forall x :: x in items && Keeps(x, id) ==> x in r
    ensures (forall i :: 0 <= i < |items| ==> Keeps(items[i], id)) ==> r == items
  {
    if items == [] then []
    else
      var rest := Without(items[1..], id);
      assert items == [items[0]] + items[1..];
      if Keeps(items[0], id) then [items[0]] + rest else rest
  }

  /** The filter of `deleteProject`: only arrays have `filter`, and
      reading `id` of a `null` element throws. */
  function Deleted(projects: Json, id: Option<Json>): (r: Result<seq<Json>>)
    ensures r.Ok? <==> projects.JArr? && JNull !in projects.items
    ensures r.Ok? ==> r.value == Without(projects.items, id)
  {
    if !projects.JArr? || JNull in projects.items then Err(EngineError) else Ok(Without(projects.items, id))
  }

  /** `items.filter((_, i) => i !== index)` */
  function DropIndex(items: seq<Json>, index: int): (r: seq<Json>)
    ensures 0 <= index < |items| ==> r == items[..index] + items[index + 1..]
    ensures !(0 <= index < |items|) ==> r == items
  {
    if items == [] then []
    else
      var rest := DropIndex(items[1..], index - 1);
      if index == 0 then rest
      else
        assert 0 < index < |items| ==> items[1..][..index - 1] == items[1..index];
        assert 0 < index < |items| ==> [items[0]] + items[1..index] == items[..index];
        [items[0]] + rest
  }

  // ---------------------------------------------------------------------
  // Avatar
  // ---------------------------------------------------------------------

  /** `words.map(w => w.charAt(0)).join("")` */
  function FirstLetters(words: seq<string>): (r: string)
    ensures |r| <= |words|
  {
    if words == [] then ""
    else (if words[0] == "" then "" else [words[0][0]]) + FirstLetters(words[1..])
  }

  /** `s.substring(0, 2)` */
  function FirstTwo(s: string): (r: string)
    ensures |r| == if |s| < 2 then |s| else 2
    ensures r == s[..|r|]
  {
    if |s| <= 2 then s else s[..2]
  }

  /** `name.trim().split(/\s+/).map(w => w.charAt(0)).join("").substring(0, 2).toUpperCase()` */
  function Initials(name: string): (r: string)
    ensures |r| <= 2
  {
    Text.ToUpper(FirstTwo(FirstLetters(Text.Words(Text.Trim(name)))))
  }

  /** The avatar preview: the avatar text if it is not empty, else the
      initials of the name if it is not empty, else `AK`. */
  function Avatar(avatar: string, name: string): (r: string)
    ensures avatar != "" ==> r == avatar
    ensures avatar == "" && name != "" ==> r == Initials(name) && |r| <= 2
    ensures avatar == "" && name == "" ==> r == "AK"
  {
    if avatar != "" then avatar else if name != "" then Initials(name) else "AK"
  }

  // ---------------------------------------------------------------------
  // The panel
  // ---------------------------------------------------------------------

  class Panel {
    var personalInfo: Json
    var projects: Json
    var skills: Json
    var themeSettings: Json
    /** The project open in the edit dialog (`null` is None). */
    var editing: Option<Json>
    /** The drafts of the add forms, always objects. */
    var projectDraft: seq<Field>
    var skillDraft: seq<Field>
    var cache: map<string, string>
    var loading: bool
    var saving: bool

    function State(): Parts
      reads this
    {
      Parts(personalInfo, projects, skills, themeSettings)
    }

    constructor(stored: map<string, string>)
      ensures State() == InitialParts
      ensures editing == None && projectDraft == [] && skillDraft == []
      ensures cache == stored && loading && !saving
    {
      personalInfo := Portfolio.PersonalInfo(Portfolio.ShortDescription);
      projects := JArr([]);
      skills := JArr([]);
      themeSettings := Portfolio.DefaultTheme;
      editing := None;
      projectDraft := [];
      skillDraft := [];
      cache := stored;
      loading := true;
      saving := false;
    }

    /** `loadData`, step by step. */
    method LoadData(outcome: Fetched) returns (toast: Option<Toast>)
      modifies this
      ensures (State(), toast) == LoadOutcome(old(State()), old(cache), outcome)
      ensures editing == old(editing) && projectDraft == old(projectDraft) && skillDraft == old(skillDraft)
      ensures cache == old(cache) && saving == old(saving) && !loading
    {
      loading := true;
      toast := None;
      match outcome {
        case Unreachable =>
          toast := Some(LoadWarning);
        case Replied(reply) =>
          if reply.ok {
            var data := reply.body;
            if data == JNull {
              toast := Some(LoadWarning);
            } else {
              TakeAnswer(data);
              toast := Some(DataLoaded);
            }
          } else {
            toast := RestoreFromCache();
          }
      }
      loading := false;
    }

    /** The ok branch of `loadData`: each truthy part of the answer is set. */
    method TakeAnswer(data: Json)
      modifies this
      ensures State() == FromAnswer(old(State()), data)
      ensures editing == old(editing) && projectDraft == old(projectDraft) && skillDraft == old(skillDraft)
      ensures cache == old(cache) && saving == old(saving) && loading == old(loading)
    {
      ghost var target := FromAnswer(State(), data);
      if Truthy(Member(data, "personalInfo")) { personalInfo := Member(data, "personalInfo").value; }
      assert personalInfo == target.personalInfo;
      if Truthy(Member(data, "projects")) { projects := Member(data, "projects").value; }
      assert projects == target.projects;
      if Truthy(Member(data, "skills")) { skills := Member(data, "skills").value; }
      assert skills == target.skills;
      if Truthy(Member(data, "themeSettings")) { themeSettings := Member(data, "themeSettings").value; }
    }

    /** The storage branch of `loadData`. */
    method RestoreFromCache() returns (toast: Option<Toast>)
      modifies this
      ensures var (restored, threw) := FromCache(old(State()), cache);
        State() == restored && toast == if threw then Some(LoadWarning) else None
      ensures editing == old(editing) && projectDraft == old(projectDraft) && skillDraft == old(skillDraft)
      ensures cache == old(cache) && saving == old(saving) && loading == old(loading)
    {
      var p := Restore(personalInfo, cache, PersonalKey);
      if p.Err? { return Some(LoadWarning); }
      personalInfo := p.value;
      var pr := Restore(projects, cache, ProjectsKey);
      if pr.Err? { return Some(LoadWarning); }
      projects := pr.value;
      var s := Restore(skills, cache, SkillsKey);
      if s.Err? { return Some(LoadWarning); }
      skills := s.value;
      var t := Restore(themeSettings, cache, ThemeKey);
      if t.Err? { return Some(LoadWarning); }
      themeSettings := t.value;
      return None;
    }

    /** `saveData`: the four entries first, then the request; `sent` is its
        body. */
    method SaveData(outcome: Fetched) returns (sent: string, toast: Toast)
      modifies this
      ensures cache == SaveLocally(old(cache), State())
      ensures sent == JsonText.Stringify(Document(State()))
      ensures toast == SaveToast(outcome)
      ensures State() == old(State()) && editing == old(editing)
      ensures projectDraft == old(projectDraft) && skillDraft == old(skillDraft)
      ensures loading == old(loading) && !saving
    {
      saving := true;
      var document := Document(State());
      cache := cache[PersonalKey := JsonText.Stringify(personalInfo)];
      cache := cache[ProjectsKey := JsonText.Stringify(projects)];
      cache := cache[SkillsKey := JsonText.Stringify(skills)];
      cache := cache[ThemeKey := JsonText.Stringify(themeSettings)];
      sent := JsonText.Stringify(document);
      match outcome {
        case Unreachable =>
          toast := SaveFailed;
        case Replied(reply) =>
          var result := reply.body;
          if result == JNull {
            toast := SaveFailed;
          } else if Truthy(Member(result, "success")) {
            toast := SavedToBackend;
          } else {
            toast := PartialSuccess(result);
          }
      }
      saving := false;
    }

    /** The form fields of the add forms: `{ ...draft, key: value }`. */
    method EditProjectDraft(key: string, value: Json)
      modifies this
      ensures projectDraft == Assign(old(projectDraft), key, value)
      ensures State() == old(State()) && editing == old(editing) && skillDraft == old(skillDraft)
      ensures cache == old(cache) && loading == old(loading) && saving == old(saving)
    {
      projectDraft := Assign(projectDraft, key, value);
    }

    method EditSkillDraft(key: string, value: Json)
      modifies this
      ensures skillDraft == Assign(old(skillDraft), key, value)
      ensures State() == old(State()) && editing == old(editing) && projectDraft == old(projectDraft)
      ensures cache == old(cache) && loading == old(loading) && saving == old(saving)
    {
      skillDraft := Assign(skillDraft, key, value);
    }

    /** `addProject`; `id` is `Date.now().toString()`. No toast means the
        handler threw. */
    method AddProject(id: string) returns (toast: Option<Toast>)
      modifies this
      ensures var d := JObj(old(projectDraft));
        !Truthy(Member(d, "title")) || !Truthy(Member(d, "description")) ==>
          toast == Some(ProjectFieldsMissing) && projects == old(projects) && projectDraft == old(projectDraft)
      ensures var d := JObj(old(projectDraft));
        Truthy(Member(d, "title")) && Truthy(Member(d, "description")) && Spread(old(projects)).Ok? ==>
          && toast == Some(ProjectAdded) && projectDraft == []
          && projects == JArr(Spread(old(projects)).value + [NewProject(old(projectDraft), id)])
      ensures var d := JObj(old(projectDraft));
        Truthy(Member(d, "title")) && Truthy(Member(d, "description")) && Spread(old(projects)).Err? ==>
          toast == None && projects == old(projects) && projectDraft == old(projectDraft)
      ensures personalInfo == old(personalInfo) && skills == old(skills) && themeSettings == old(themeSettings)
      ensures editing == old(editing) && skillDraft == old(skillDraft)
      ensures cache == old(cache) && loading == old(loading) && saving == old(saving)
    {
      var d := JObj(projectDraft);
      if !Truthy(Member(d, "title")) || !Truthy(Member(d, "description")) {
        return Some(ProjectFieldsMissing);
      }
      var project := NewProject(projectDraft, id);
      var items := Spread(projects);
      if items.Err? {
        return None;
      }
      projects := JArr(items.value + [project]);
      projectDraft := [];
      return Some(ProjectAdded);
    }

    /** `updateProject`: replace by id and close the dialog. */
    method UpdateProject(updated: Json) returns (toast: Option<Toast>)
      modifies this
      ensures Updated(old(projects), updated).Ok? ==>
        projects == JArr(Updated(old(projects), updated).value) && editing == None && toast == Some(ProjectUpdated)
      ensures Updated(old(projects), updated).Err? ==>
        projects == old(projects) && editing == old(editing) && toast == None
      ensures personalInfo == old(personalInfo) && skills == old(skills) && themeSettings == old(themeSettings)
      ensures projectDraft == old(projectDraft) && skillDraft == old(skillDraft)
      ensures cache == old(cache) && loading == old(loading) && saving == old(saving)
    {
      var r := Updated(projects, updated);
      if r.Err? {
        return None;
      }
      projects := JArr(r.value);
      editing := None;
      return Some(ProjectUpdated);
    }

    /** `deleteProject(project.id)`: keep the projects whose id is not
        the listed project's. */
    method DeleteProject(id: Option<Json>) returns (toast: Option<Toast>)
      modifies this
      ensures Deleted(old(projects), id).Ok? ==>
        projects == JArr(Deleted(old(projects), id).value) && toast == Some(ProjectDeleted)
      ensures Deleted(old(projects), id).Err? ==> projects == old(projects) && toast == None
      ensures personalInfo == old(personalInfo) && skills == old(skills) && themeSettings == old(themeSettings)
      ensures editing == old(editing) && projectDraft == old(projectDraft) && skillDraft == old(skillDraft)
      ensures cache == old(cache) && loading == old(loading) && saving == old(saving)
    {
      var r := Deleted(projects, id);
      if r.Err? {
        return None;
      }
      projects := JArr(r.value);
      return Some(ProjectDeleted);
    }

    /** `addSkill`: name, level and category must all be truthy, so a
        level of 0 is refused. */
    method AddSkill() returns (toast: Option<Toast>)
      modifies this
      ensures var d := JObj(old(skillDraft));
        !Truthy(Member(d, "name")) || !Truthy(Member(d, "level")) || !Truthy(Member(d, "category")) ==>
          toast == Some(SkillFieldsMissing) && skills == old(skills) && skillDraft == old(skillDraft)
      ensures var d := JObj(old(skillDraft));
        Truthy(Member(d, "name")) && Truthy(Member(d, "level")) && Truthy(Member(d, "category"))
        && Spread(old(skills)).Ok? ==>
          && toast == Some(SkillAdded) && skillDraft == []
          && skills == JArr(Spread(old(skills)).value + [NewSkill(old(skillDraft))])
      ensures var d := JObj(old(skillDraft));
        Truthy(Member(d, "name")) && Truthy(Member(d, "level")) && Truthy(Member(d, "category"))
        && Spread(old(skills)).Err? ==>
          toast == None && skills == old(skills) && skillDraft == old(skillDraft)
      ensures personalInfo == old(personalInfo) && projects == old(projects) && themeSettings == old(themeSettings)
      ensures editing == old(editing) && projectDraft == old(projectDraft)
      ensures cache == old(cache) && loading == old(loading) && saving == old(saving)
    {
      var d := JObj(skillDraft);
      if !Truthy(Member(d, "name")) || !Truthy(Member(d, "level")) || !Truthy(Member(d, "category")) {
        return Some(SkillFieldsMissing);
      }
      var skill := NewSkill(skillDraft);
      var items := Spread(skills);
      if items.Err? {
        return None;
      }
      skills := JArr(items.value + [skill]);
      skillDraft := [];
      return Some(SkillAdded);
    }

    /** `deleteSkill(index)`: only arrays have `filter`. */
    method DeleteSkill(index: int) returns (toast: Option<Toast>)
      modifies this
      ensures old(skills).JArr? ==> skills == JArr(DropIndex(old(skills).items, index)) && toast == Some(SkillDeleted)
      ensures !old(skills).JArr? ==> skills == old(skills) && toast == None
      ensures personalInfo == old(personalInfo) && projects == old(projects) && themeSettings == old(themeSettings)
      ensures editing == old(editing) && projectDraft == old(projectDraft) && skillDraft == old(skillDraft)
      ensures cache == old(cache) && loading == old(loading) && saving == old(saving)
    {
      if !skills.JArr? {
        return None;
      }
      skills := JArr(DropIndex(skills.items, index));
      return Some(SkillDeleted);
    }
  }

  // ---------------------------------------------------------------------
  // Properties
  // ---------------------------------------------------------------------

  /** An ok answer sets exactly the parts it has a truthy value for; the
      others keep their values. */
  lemma LoadFromAnswer(parts: Parts, cache: map<string, string>, body: Json)
    requires body != JNull
    ensures var (after, toast) := LoadOutcome(parts, cache, Replied(Reply(true, body)));
      && toast == Some(DataLoaded)
      && (Truthy(Member(body, "personalInfo")) ==> after.personalInfo == Member(body, "personalInfo").value)
      && (!Truthy(Member(body, "personalInfo")) ==> after.personalInfo == parts.personalInfo)
      && (Truthy(Member(body, "projects")) ==> after.projects == Member(body, "projects").value)
      && (!Truthy(Member(body, "projects")) ==> after.projects == parts.projects)
      && (Truthy(Member(body, "skills")) ==> after.skills == Member(body, "skills").value)
      && (!Truthy(Member(body, "skills")) ==> after.skills == parts.skills)
      && (Truthy(Member(body, "themeSettings")) ==> after.themeSettings == Member(body, "themeSettings").value)
      && (!Truthy(Member(body, "themeSettings")) ==> after.themeSettings == parts.themeSettings)
  {
  }

  /** Without an ok answer each stored part replaces its part, in the order
      personal information, projects, skills, theme; the first entry that
      cannot be read stops the restore there, with a warning. */
  lemma LoadFromCache(parts: Parts, cache: map<string, string>, body: Json)
    ensures var (after, toast) := LoadOutcome(parts, cache, Replied(Reply(false, body)));
      var rp := Readable(cache, PersonalKey);
      var rpr := rp && Readable(cache, ProjectsKey);
      var rs := rpr && Readable(cache, SkillsKey);
      var rt := rs && Readable(cache, ThemeKey);
      && (toast == if rt then None else Some(LoadWarning))
      && after.personalInfo == (if rp then Restore(parts.personalInfo, cache, PersonalKey).value else parts.personalInfo)
      && after.projects == (if rpr then Restore(parts.projects, cache, ProjectsKey).value else parts.projects)
      && after.skills == (if rs then Restore(parts.skills, cache, SkillsKey).value else parts.skills)
      && after.themeSettings == (if rt then Restore(parts.themeSettings, cache, ThemeKey).value else parts.themeSettings)
  {
  }

  /** A stored part is restored as the value that was stored; an absent
      one leaves the part as it is. */
  lemma RestoreStored(part: Json, cache: map<string, string>, key: string, v: Json)
    requires WellFormed(v)
    ensures Restore(part, cache[key := CacheText(Some(v))], key) == Ok(v)
    ensures key !in cache ==> Restore(part, cache, key) == Ok(part)
  {
    StoredText(v);
  }

  /** Saving then loading without the backend gives back the saved parts. */
  lemma SaveThenLoad(parts: Parts, cache: map<string, string>, other: Parts, body: Json)
    requires WellFormed(parts.personalInfo) && WellFormed(parts.projects)
    requires WellFormed(parts.skills) && WellFormed(parts.themeSettings)
    ensures LoadOutcome(other, SaveLocally(cache, parts), Replied(Reply(false, body))) == (parts, None)
  {
    var c := SaveLocally(cache, parts);
    StoredText(parts.personalInfo);
    StoredText(parts.projects);
    StoredText(parts.skills);
    StoredText(parts.themeSettings);
    assert c[PersonalKey] == CacheText(Some(parts.personalInfo));
    assert c[ProjectsKey] == CacheText(Some(parts.projects));
    assert c[SkillsKey] == CacheText(Some(parts.skills));
    assert c[ThemeKey] == CacheText(Some(parts.themeSettings));
  }

  /** The storage is written from the current parts whatever the request
      does, so the save's outcome never affects what is stored; the request
      body reads back as the whole document. */
  lemma SaveWritesFirst(parts: Parts, cache: map<string, string>)
    requires WellFormed(parts.personalInfo) && WellFormed(parts.projects)
    requires WellFormed(parts.skills) && WellFormed(parts.themeSettings)
    ensures var c := SaveLocally(cache, parts);
      && JsonText.Parse(c[PersonalKey]) == Some(parts.personalInfo)
      && JsonText.Parse(c[ProjectsKey]) == Some(parts.projects)
      && JsonText.Parse(c[SkillsKey]) == Some(parts.skills)
      && JsonText.Parse(c[ThemeKey]) == Some(parts.themeSettings)
    ensures JsonText.Parse(JsonText.Stringify(Document(parts))) == Some(Document(parts))
  {
    StoredText(parts.personalInfo);
    StoredText(parts.projects);
    StoredText(parts.skills);
    StoredText(parts.themeSettings);
    DocumentWellFormed(parts);
    JsonText.ParseStringify(Document(parts));
  }

  lemma DocumentWellFormed(parts: Parts)
    requires WellFormed(parts.personalInfo) && WellFormed(parts.projects)
    requires WellFormed(parts.skills) && WellFormed(parts.themeSettings)
    ensures WellFormed(Document(parts))
  {
    var fields := Document(parts).fields;
    assert forall i :: 0 <= i < |fields| ==> WellFormed(fields[i].value);
  }

  /** The three outcomes of a save: the backend's `success` decides
      between "Success!" and "Partial Success", and a failed request or a
      `null` answer gives "Error". */
  lemma SaveOutcomes(outcome: Fetched)
    ensures outcome.Unreachable? ==> SaveToast(outcome) == SaveFailed
    ensures outcome.Replied? && outcome.reply.body == JNull ==> SaveToast(outcome) == SaveFailed
    ensures outcome.Replied? && outcome.reply.body != JNull ==>
      (SaveToast(outcome) == SavedToBackend <==> Truthy(Member(outcome.reply.body, "success")))
    ensures outcome.Replied? && outcome.reply.body != JNull && !Truthy(Member(outcome.reply.body, "success")) ==>
      SaveToast(outcome).title == "Partial Success" && SaveToast(outcome).destructive
  {
  }

  /** Through the save route, a save of a well-formed document always ends
      in "Success!": the route answers `success: true` whether or not the
      backend stores it. */
  lemma SaveThroughRoute(parts: Parts, backend: Fetched, engineMessage: string)
    requires WellFormed(parts.personalInfo) && WellFormed(parts.projects)
    requires WellFormed(parts.skills) && WellFormed(parts.themeSettings)
    ensures var sent := JsonText.Stringify(Document(parts));
      var answer := SaveRoute.Post(sent, backend, engineMessage).response;
      SaveToast(Replied(Reply(answer.status == 200, answer.body))) == SavedToBackend
  {
    var sent := JsonText.Stringify(Document(parts));
    DocumentWellFormed(parts);
    JsonText.ParseStringify(Document(parts));
    RouteSucceeds(sent, backend, engineMessage);
  }

  /** The save route answers a readable document that is not `null` with
      a truthy `success`. */
  lemma RouteSucceeds(request: string, backend: Fetched, engineMessage: string)
    requires JsonText.Parse(request).Some? && JsonText.Parse(request) != Some(JNull)
    ensures var answer := SaveRoute.Post(request, backend, engineMessage).response;
      answer.body != JNull && Truthy(Member(answer.body, "success"))
  {
    if IsOk(backend) {
      LookupDistinct(SaveRoute.SavedPermanently(backend.reply.body).fields, 0);
    } else {
      LookupDistinct(SaveRoute.SavedLocally.fields, 0);
    }
  }

  /** A new project takes the draft's title and description and the
      defaults for every field the draft leaves falsy. */
  lemma NewProjectFields(draft: seq<Field>, id: string)
    ensures var p := NewProject(draft, id);
      var d := JObj(draft);
      && DistinctKeys(p.fields)
      && Member(p, "id") == Some(JStr(id))
      && Member(p, "title") == Some(Or(Member(d, "title"), JStr("")))
      && Member(p, "description") == Some(Or(Member(d, "description"), JStr("")))
      && Member(p, "technologies") == Some(Or(Member(d, "technologies"), JArr([])))
      && Member(p, "github_url") == Some(Or(Member(d, "github_url"), JStr("")))
      && Member(p, "live_url") == Some(Or(Member(d, "live_url"), JStr("")))
      && Member(p, "image_url") == Some(Or(Member(d, "image_url"), JStr("default")))
      && Member(p, "featured") == Some(Or(Member(d, "featured"), JBool(false)))
  {
    var d := JObj(draft);
    RecordMembers(JStr(id), Or(Member(d, "title"), JStr("")), Or(Member(d, "description"), JStr("")),
                  Or(Member(d, "technologies"), JArr([])), Or(Member(d, "github_url"), JStr("")),
                  Or(Member(d, "live_url"), JStr("")), Or(Member(d, "image_url"), JStr("default")),
                  Or(Member(d, "featured"), JBool(false)));
  }

  /** Each member of a project record is the value it was built with. */
  lemma RecordMembers(id: Json, title: Json, description: Json, technologies: Json,
                      githubUrl: Json, liveUrl: Json, imageUrl: Json, featured: Json)
    ensures var p := ProjectRecord(id, title, description, technologies, githubUrl, liveUrl, imageUrl, featured);
      && Member(p, "id") == Some(id) && Member(p, "title") == Some(title)
      && Member(p, "description") == Some(description) && Member(p, "technologies") == Some(technologies)
      && Member(p, "github_url") == Some(githubUrl) && Member(p, "live_url") == Some(liveUrl)
      && Member(p, "image_url") == Some(imageUrl) && Member(p, "featured") == Some(featured)
  {
    var fields := ProjectRecord(id, title, description, technologies, githubUrl, liveUrl, imageUrl, featured).fields;
    LookupDistinct(fields, 0);
    LookupDistinct(fields, 1);
    LookupDistinct(fields, 2);
    LookupDistinct(fields, 3);
    LookupDistinct(fields, 4);
    LookupDistinct(fields, 5);
    LookupDistinct(fields, 6);
    LookupDistinct(fields, 7);
  }

  /** With nothing in the draft every field takes its default: the
      record with empty texts, no technologies, the default image key and
      not featured. */
  lemma EmptyDraftProject(id: string)
    ensures NewProject([], id) == Portfolio.Project(id, "", "", [], "", "", "default", false)
  {
    assert Strings([]) == JArr([]);
  }

  /** `deleteProject` keeps the relative order of the projects it keeps:
      deleting from two lists one after the other is deleting from both. */
  lemma {:induction false} WithoutSplits(a: seq<Json>, b: seq<Json>, id: Option<Json>)
    ensures Without(a + b, id) == Without(a, id) + Without(b, id)
  {
    if a == [] {
      assert a + b == b;
    } else {
      assert (a + b)[1..] == a[1..] + b;
      WithoutSplits(a[1..], b, id);
    }
  }

  /** Deleting a project leaves no project with that id, and only those
      are removed. */
  lemma WithoutRemovesOnly(items: seq<Json>, id: Option<Json>)
    ensures forall x :: x in Without(items, id) ==> Member(x, "id") != id
    ensures forall x :: x in items && Member(x, "id") != id ==> x in Without(items, id)
    ensures |Without(items, id)| == |items| - |Matching(items, id)|
  {
    WithoutCount(items, id);
  }

  /** The delete button of a listed project removes that project, and
      with it every other project sharing its id; for a project without
      an id, that is every project without one. */
  lemma DeleteListed(items: seq<Json>, i: nat)
    requires i < |items|
    ensures items[i] !in Without(items, Member(items[i], "id"))
    ensures forall x :: x in Without(items, Member(items[i], "id")) ==> Member(x, "id") != Member(items[i], "id")
    ensures Member(items[i], "id") == None ==> forall x :: x in Without(items, None) ==> Member(x, "id").Some?
  {
  }

  /** The projects that carry the id. */
  function Matching(items: seq<Json>, id: Option<Json>): (r: seq<Json>)
    ensures forall x :: x in r ==> x in items && !Keeps(x, id)
  {
    if items == [] then []
    else (if Keeps(items[0], id) then [] else [items[0]]) + Matching(items[1..], id)
  }

  lemma {:induction false} WithoutCount(items: seq<Json>, id: Option<Json>)
    ensures |Without(items, id)| + |Matching(items, id)| == |items|
  {
    if items != [] {
      WithoutCount(items[1..], id);
    }
  }

  /** `deleteSkill(i)` removes exactly the skill at `i` when `i` is a
      position, keeping the others in order; any other index changes
      nothing. */
  lemma DropIndexShape(items: seq<Json>, index: int)
    ensures 0 <= index < |items| ==>
      |DropIndex(items, index)| == |items| - 1
      && (forall j :: 0 <= j < index ==> DropIndex(items, index)[j] == items[j])
      && (forall j :: index <= j < |items| - 1 ==> DropIndex(items, index)[j] == items[j + 1])
    ensures !(0 <= index < |items|) ==> DropIndex(items, index) == items
  {
  }

  /** A skill draft whose level is 0 is refused. */
  lemma LevelZeroRefused(draft: seq<Field>)
    requires Member(JObj(draft), "level") == Some(JNum(0))
    ensures !Truthy(Member(JObj(draft), "level"))
  {
  }

  /** The new skill carries the draft's name, level and category. */
  lemma NewSkillFields(draft: seq<Field>)
    requires Truthy(Member(JObj(draft), "name")) && Truthy(Member(JObj(draft), "level"))
    requires Truthy(Member(JObj(draft), "category"))
    ensures var s := NewSkill(draft);
      && Member(s, "name") == Member(JObj(draft), "name")
      && Member(s, "level") == Member(JObj(draft), "level")
      && Member(s, "category") == Member(JObj(draft), "category")
  {
    var fields := NewSkill(draft).fields;
    LookupDistinct(fields, 0);
    LookupDistinct(fields, 1);
    LookupDistinct(fields, 2);
  }

  // ---------------------------------------------------------------------
  // Avatar properties
  // ---------------------------------------------------------------------

  /** Two words give the upper-cased first letter of each, whatever
      whitespace surrounds or separates them. */
  lemma TwoInitials(first: string, gap: string, last: string)
    requires first != [] && Text.NoWhitespace(first)
    requires gap != [] && Text.AllWhitespace(gap)
    requires last != [] && Text.NoWhitespace(last)
    ensures Initials(first + gap + last) == [Text.UpperChar(first[0]), Text.UpperChar(last[0])]
  {
    TrimmedWords(first, gap, last);
    FirstLettersOfTwo(first, last);
    UpperOfTwo(first[0], last[0]);
  }

  lemma TrimmedWords(first: string, gap: string, last: string)
    requires first != [] && Text.NoWhitespace(first)
    requires gap != [] && Text.AllWhitespace(gap)
    requires last != [] && Text.NoWhitespace(last)
    ensures Text.Words(Text.Trim(first + gap + last)) == [first, last]
  {
    var name := first + gap + last;
    assert name[0] == first[0];
    assert name[|name| - 1] == last[|last| - 1];
    Text.TrimKeeps(name);
    Text.TwoWords(first, gap, last);
  }

  lemma FirstLettersOfTwo(first: string, last: string)
    requires first != [] && last != []
    ensures FirstLetters([first, last]) == [first[0], last[0]]
  {
    assert [first, last][1..] == [last];
    assert [last][1..] == [];
  }

  lemma UpperOfTwo(a: char, b: char)
    ensures Text.ToUpper(FirstTwo([a, b])) == [Text.UpperChar(a), Text.UpperChar(b)]
  {
    assert FirstTwo([a, b]) == [a, b];
  }

  /** The owner's name gives the default avatar. */
  lemma OwnerInitials()
    ensures Avatar("", "Alex Kumar") == "AK"
  {
    var first, gap, last := "Alex", " ", "Kumar";
    assert first + gap + last == "Alex Kumar";
    assert Text.NoWhitespace(first) && Text.NoWhitespace(last) && Text.AllWhitespace(gap);
    TwoInitials(first, gap, last);
  }

  /** A name of white space only shows an empty avatar. */
  lemma BlankName(name: string)
    requires name != [] && Text.AllWhitespace(name)
    ensures Avatar("", name) == ""
  {
    assert Text.Trim(name) == [];
    assert Text.Words([]) == [[]];
  }

  /** The initials hold no ASCII lower-case letter (a-z). */
  lemma InitialsUpper(name: string)
    ensures forall i :: 0 <= i < |Initials(name)| ==> !('a' <= Initials(name)[i] <= 'z')
  {
    Text.UpperNoLower(FirstTwo(FirstLetters(Text.Words(Text.Trim(name)))));
  }
}

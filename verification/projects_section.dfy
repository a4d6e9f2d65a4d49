/**
  The projects section of the page: it loads the project list from
  `/api/projects` once, falls back to the three sample projects, and picks
  an icon for each card from its image key.
 */
module ProjectsSection {
  import opened JsonValues
  import Portfolio
  import opened Http
  import ProjectsRoute

  /** The notice shown when the request itself failed. */
  const DemoNotice: string := "Using demo data - FastAPI backend connected successfully!"

  /** The projects the section holds after loading: the reply's body when
      it is an array, and the samples in every other case. */
  function Loaded(outcome: Fetched): (r: Json)
    ensures r.JArr?
    ensures IsOk(outcome) && outcome.reply.body.JArr? ==> r == outcome.reply.body
    ensures !(IsOk(outcome) && outcome.reply.body.JArr?) ==> r == JArr(Portfolio.DefaultProjects)
  {
    match outcome
    case Unreachable => JArr(Portfolio.DefaultProjects)
    case Replied(reply) =>
      if reply.ok && reply.body.JArr? then reply.body else JArr(Portfolio.DefaultProjects)
  }

  /** `Array.isArray(projects) ? projects : []` */
  function SafeProjects(projects: Json): (r: seq<Json>)
    ensures projects.JArr? ==> r == projects.items
    ensures !projects.JArr? ==> r == []
  {
    if projects.JArr? then projects.items else []
  }

  /** The component's state. */
  class Section {
    var projects: Json
    var loading: bool
    var error: Option<string>

    constructor()
      ensures projects == JArr([]) && loading && error == None
    {
      projects := JArr([]);
      loading := true;
      error := None;
    }

    /** `fetchProjects`: sets the list from the outcome; only a failed
        request sets the notice, and loading always ends. */
    method FetchProjects(outcome: Fetched)
      modifies this
      ensures projects == Loaded(outcome)
      ensures error == if outcome.Unreachable? then Some(DemoNotice) else old(error)
      ensures !loading
    {
      match outcome {
        case Unreachable =>
          projects := JArr(Portfolio.DefaultProjects);
          error := Some(DemoNotice);
        case Replied(reply) =>
          if reply.ok {
            if reply.body.JArr? {
              projects := reply.body;
            } else {
              projects := JArr(Portfolio.DefaultProjects);
            }
          } else {
            projects := JArr(Portfolio.DefaultProjects);
          }
      }
      loading := false;
    }
  }

  // ---------------------------------------------------------------------
  // Icons
  // ---------------------------------------------------------------------

  datatype Glyph = Server | Database | Monitor

  /** The icon of a card and its colour class. */
  datatype Icon = Icon(glyph: Glyph, colour: string)

  const DefaultIcon: Icon := Icon(Server, "text-gray-500")

  /** `getProjectIcon(project.image_url)`: a strict comparison with three
      keys; anything else, `undefined` included, gets the grey server. */
  function ProjectIcon(imageUrl: Option<Json>): Icon {
    if imageUrl == Some(JStr("cicd")) then Icon(Server, "text-blue-500")
    else if imageUrl == Some(JStr("infrastructure")) then Icon(Database, "text-green-500")
    else if imageUrl == Some(JStr("monitoring")) then Icon(Monitor, "text-purple-500")
    else DefaultIcon
  }

  // ---------------------------------------------------------------------
  // Properties
  // ---------------------------------------------------------------------

  /** What the section renders is always the list it loaded. */
  lemma RenderedList(outcome: Fetched)
    ensures SafeProjects(Loaded(outcome)) == Loaded(outcome).items
    ensures |SafeProjects(Loaded(outcome))| == if IsOk(outcome) && outcome.reply.body.JArr?
      then |outcome.reply.body.items| else 3
  {
    Portfolio.DefaultProjectIds();
  }

  /** The three keys get three different icons, each different from the
      default; every other value gets the default. */
  lemma IconsDistinct(imageUrl: Option<Json>)
    ensures ProjectIcon(Some(JStr("cicd"))) != ProjectIcon(Some(JStr("infrastructure")))
    ensures ProjectIcon(Some(JStr("cicd"))) != ProjectIcon(Some(JStr("monitoring")))
    ensures ProjectIcon(Some(JStr("infrastructure"))) != ProjectIcon(Some(JStr("monitoring")))
    ensures ProjectIcon(imageUrl) == DefaultIcon <==>
      imageUrl !in {Some(JStr("cicd")), Some(JStr("infrastructure")), Some(JStr("monitoring"))}
  {
  }

  /** The icons of the three sample cards, in order. */
  const SampleIconList: seq<Icon> :=
    [Icon(Server, "text-blue-500"), Icon(Database, "text-green-500"), Icon(Monitor, "text-purple-500")]

  /** The three sample projects show the three different icons. */
  lemma SampleIcons()
    ensures |Portfolio.DefaultProjects| == |SampleIconList| == 3
    ensures forall i :: 0 <= i < 3 ==> ProjectIcon(Member(Portfolio.DefaultProjects[i], "image_url")) == SampleIconList[i]
    ensures forall i, j :: 0 <= i < j < 3 ==> SampleIconList[i] != SampleIconList[j]
  {
    SampleIcon(0);
    forall i | 0 <= i < 3
      ensures ProjectIcon(Member(Portfolio.DefaultProjects[i], "image_url")) == SampleIconList[i]
    {
      SampleIcon(i);
    }
  }

  lemma SampleIcon(i: nat)
    requires i < 3
    ensures |Portfolio.DefaultProjectTable| == |Portfolio.DefaultProjects| == 3
    ensures ProjectIcon(Member(Portfolio.DefaultProjects[i], "image_url")) == SampleIconList[i]
  {
    Portfolio.DefaultProjectMembers(i);
    var key := Portfolio.DefaultProjectTable[i].6;
    if i == 0 {
      assert key == "cicd";
    } else if i == 1 {
      assert key == "infrastructure";
    } else {
      assert key == "monitoring";
    }
  }

  /** The section reads `/api/projects`, whose `GET` answers with a whole
      document (an object) whenever the backend's document is one or the
      backend fails: the section then always shows the samples. */
  lemma AlwaysSamples(backend: Fetched)
    requires IsOk(backend) ==> backend.reply.body.JObj?
    ensures Loaded(Replied(Reply(true, ProjectsRoute.Get(backend).body))) == JArr(Portfolio.DefaultProjects)
  {
    if !IsOk(backend) {
      ProjectsRoute.GetFallback(backend);
    }
  }
}

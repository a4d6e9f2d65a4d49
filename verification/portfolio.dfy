/**
  The portfolio document: personal information, projects, skills and theme
  settings, as JSON values, and the fixed default content that the backend,
  the API routes, the hook, the admin panel and the page sections fall back
  to. The same three projects and sixteen skills are written out in five
  places of the site; they are defined here once.
 */
module Portfolio {
  import opened JsonValues

  // ---------------------------------------------------------------------
  // Builders
  // ---------------------------------------------------------------------

  /** A personal-information record with the fixed contact details. */
  function PersonalInfo(description: string): Json {
    JObj([
      Field("name", JStr("Alex Kumar")),
      Field("title", JStr("DevOps Engineer")),
      Field("description", JStr(description)),
      Field("email", JStr("alex.kumar@example.com")),
      Field("phone", JStr("+1 (555) 123-4567")),
      Field("location", JStr("Bangalore, India")),
      Field("github", JStr("https://github.com")),
      Field("linkedin", JStr("https://linkedin.com")),
      Field("avatar", JStr("AK"))
    ])
  }

  const ShortDescription: string :=
    "Passionate DevOps Engineer focused on automating infrastructure, building CI/CD pipelines, and optimizing cloud deployments."

  const LongDescription: string :=
    "Passionate DevOps Engineer focused on automating infrastructure, building CI/CD pipelines, and optimizing cloud deployments. Ready to streamline your development workflow."

  /** A project record. */
  function Project(id: string, title: string, description: string, technologies: seq<string>,
                   githubUrl: string, liveUrl: string, imageUrl: string, featured: bool): Json
  {
    JObj([
      Field("id", JStr(id)),
      Field("title", JStr(title)),
      Field("description", JStr(description)),
      Field("technologies", Strings(technologies)),
      Field("github_url", JStr(githubUrl)),
      Field("live_url", JStr(liveUrl)),
      Field("image_url", JStr(imageUrl)),
      Field("featured", JBool(featured))
    ])
  }

  /** A skill record. */
  function Skill(name: string, level: int, category: string): Json {
    JObj([Field("name", JStr(name)), Field("level", JNum(level)), Field("category", JStr(category))])
  }

  const DefaultTheme: Json := JObj([
    Field("primaryColor", JStr("#3b82f6")),
    Field("darkMode", JBool(true)),
    Field("animations", JBool(true)),
    Field("showFloatingElements", JBool(true))
  ])

  /** A whole portfolio document with the default theme. */
  function Snapshot(personalInfo: Json, projects: seq<Json>, skills: seq<Json>): Json {
    JObj([
      Field("personalInfo", personalInfo),
      Field("projects", JArr(projects)),
      Field("skills", JArr(skills)),
      Field("themeSettings", DefaultTheme)
    ])
  }

  // ---------------------------------------------------------------------
  // Default content
  // ---------------------------------------------------------------------

  /** The three sample projects as (id, title, description, technologies,
      GitHub URL, live URL, image key, featured). */
  const DefaultProjectTable: seq<(string, string, string, seq<string>, string, string, string, bool)> := [
    ("1", "Automated CI/CD Pipeline",
      "Built a complete CI/CD pipeline using Jenkins and Docker for a microservices application, reducing deployment time by 70% and eliminating manual errors.",
      ["Jenkins", "Docker", "Kubernetes", "AWS", "Terraform"],
      "https://github.com/example/cicd-pipeline", "https://pipeline-demo.example.com", "cicd", true),
    ("2", "Infrastructure as Code",
      "Designed and implemented cloud infrastructure using Terraform and Ansible, managing 50+ AWS resources with version control and automated provisioning.",
      ["Terraform", "Ansible", "AWS", "CloudFormation", "Python"],
      "https://github.com/example/iac-project", "https://infrastructure-demo.example.com", "infrastructure", false),
    ("3", "Monitoring & Alerting System",
      "Implemented comprehensive monitoring solution using Prometheus, Grafana, and AlertManager for real-time infrastructure and application monitoring.",
      ["Prometheus", "Grafana", "AlertManager", "Docker", "Kubernetes"],
      "https://github.com/example/monitoring-stack", "https://monitoring-demo.example.com", "monitoring", true)
  ]

  function ProjectOf(row: (string, string, string, seq<string>, string, string, string, bool)): Json {
    Project(row.0, row.1, row.2, row.3, row.4, row.5, row.6, row.7)
  }

  function ProjectsOf(table: seq<(string, string, string, seq<string>, string, string, string, bool)>): seq<Json> {
    seq(|table|, i requires 0 <= i < |table| => ProjectOf(table[i]))
  }

  const DefaultProjects: seq<Json> := ProjectsOf(DefaultProjectTable)

  /** The sixteen sample skills as (name, level, category). */
  const DefaultSkillTable: seq<(string, int, string)> := [
    ("AWS", 75, "Cloud Platforms"),
    ("Azure", 70, "Cloud Platforms"),
    ("Google Cloud", 60, "Cloud Platforms"),
    ("DigitalOcean", 80, "Cloud Platforms"),
    ("Jenkins", 80, "CI/CD & Automation"),
    ("GitHub Actions", 85, "CI/CD & Automation"),
    ("GitLab CI", 75, "CI/CD & Automation"),
    ("Ansible", 70, "CI/CD & Automation"),
    ("Docker", 85, "Containerization"),
    ("Kubernetes", 75, "Containerization"),
    ("Docker Compose", 90, "Containerization"),
    ("Helm", 65, "Containerization"),
    ("Terraform", 78, "Infrastructure & Monitoring"),
    ("Prometheus", 70, "Infrastructure & Monitoring"),
    ("Grafana", 75, "Infrastructure & Monitoring"),
    ("ELK Stack", 65, "Infrastructure & Monitoring")
  ]

  function SkillsOf(table: seq<(string, int, string)>): seq<Json> {
    seq(|table|, i requires 0 <= i < |table| => Skill(table[i].0, table[i].1, table[i].2))
  }

  const DefaultSkills: seq<Json> := SkillsOf(DefaultSkillTable)

  /** The projects route's fallback: the owner's record with the short
      description, the default projects and the default skills. */
  function DefaultSnapshot(): Json {
    Snapshot(PersonalInfo(ShortDescription), DefaultProjects, DefaultSkills)
  }

  // ---------------------------------------------------------------------
  // Properties of the records
  // ---------------------------------------------------------------------

  lemma PersonalInfoKeys(description: string)
    ensures PersonalInfo(description).JObj? && DistinctKeys(PersonalInfo(description).fields)
    ensures WellFormed(PersonalInfo(description))
  {
  }

  /** The fixed name, title and avatar, and the given description. */
  lemma PersonalInfoMembers(description: string)
    ensures Member(PersonalInfo(description), "name") == Some(JStr("Alex Kumar"))
    ensures Member(PersonalInfo(description), "title") == Some(JStr("DevOps Engineer"))
    ensures Member(PersonalInfo(description), "description") == Some(JStr(description))
    ensures Member(PersonalInfo(description), "avatar") == Some(JStr("AK"))
  {
    var fields := PersonalInfo(description).fields;
    PersonalInfoKeys(description);
    LookupDistinct(fields, 0);
    LookupDistinct(fields, 1);
    LookupDistinct(fields, 2);
    LookupDistinct(fields, 8);
  }

  lemma ProjectKeys(id: string, title: string, description: string, technologies: seq<string>,
                    githubUrl: string, liveUrl: string, imageUrl: string, featured: bool)
    ensures var p := Project(id, title, description, technologies, githubUrl, liveUrl, imageUrl, featured);
      p.JObj? && DistinctKeys(p.fields) && WellFormed(p)
  {
  }

  /** A project's id, image key and featured flag are the ones given. */
  lemma ProjectMembers(id: string, title: string, description: string, technologies: seq<string>,
                       githubUrl: string, liveUrl: string, imageUrl: string, featured: bool)
    ensures var p := Project(id, title, description, technologies, githubUrl, liveUrl, imageUrl, featured);
      && Member(p, "id") == Some(JStr(id))
      && Member(p, "technologies") == Some(Strings(technologies))
      && Member(p, "image_url") == Some(JStr(imageUrl))
      && Member(p, "featured") == Some(JBool(featured))
  {
    var fields := Project(id, title, description, technologies, githubUrl, liveUrl, imageUrl, featured).fields;
    ProjectKeys(id, title, description, technologies, githubUrl, liveUrl, imageUrl, featured);
    LookupDistinct(fields, 0);
    LookupDistinct(fields, 3);
    LookupDistinct(fields, 6);
    LookupDistinct(fields, 7);
  }

  /** A skill's name, level and category are the ones given. */
  lemma SkillMembers(name: string, level: int, category: string)
    ensures WellFormed(Skill(name, level, category))
    ensures Member(Skill(name, level, category), "name") == Some(JStr(name))
    ensures Member(Skill(name, level, category), "level") == Some(JNum(level))
    ensures Member(Skill(name, level, category), "category") == Some(JStr(category))
  {
    var fields := Skill(name, level, category).fields;
    LookupDistinct(fields, 0);
    LookupDistinct(fields, 1);
    LookupDistinct(fields, 2);
  }

  /** The four parts of a document built by `Snapshot`. */
  lemma SnapshotMembers(personalInfo: Json, projects: seq<Json>, skills: seq<Json>)
    ensures Snapshot(personalInfo, projects, skills).JObj?
    ensures DistinctKeys(Snapshot(personalInfo, projects, skills).fields)
    ensures Member(Snapshot(personalInfo, projects, skills), "personalInfo") == Some(personalInfo)
    ensures Member(Snapshot(personalInfo, projects, skills), "projects") == Some(JArr(projects))
    ensures Member(Snapshot(personalInfo, projects, skills), "skills") == Some(JArr(skills))
    ensures Member(Snapshot(personalInfo, projects, skills), "themeSettings") == Some(DefaultTheme)
  {
    var fields := Snapshot(personalInfo, projects, skills).fields;
    LookupDistinct(fields, 0);
    LookupDistinct(fields, 1);
    LookupDistinct(fields, 2);
    LookupDistinct(fields, 3);
  }

  // ---------------------------------------------------------------------
  // Properties of the defaults
  // ---------------------------------------------------------------------

  /** The sample projects have the distinct ids "1", "2" and "3"; the first
      and third are featured. */
  lemma DefaultProjectIds()
    ensures |DefaultProjects| == 3
    ensures Member(DefaultProjects[0], "id") == Some(JStr("1"))
    ensures Member(DefaultProjects[1], "id") == Some(JStr("2"))
    ensures Member(DefaultProjects[2], "id") == Some(JStr("3"))
    ensures Member(DefaultProjects[0], "featured") == Some(JBool(true))
    ensures Member(DefaultProjects[1], "featured") == Some(JBool(false))
    ensures Member(DefaultProjects[2], "featured") == Some(JBool(true))
  {
    var t := DefaultProjectTable;
    assert t[0].0 == "1" && t[1].0 == "2" && t[2].0 == "3";
    assert t[0].7 && !t[1].7 && t[2].7;
    DefaultProjectMembers(0);
    DefaultProjectMembers(1);
    DefaultProjectMembers(2);
  }

  lemma DefaultProjectMembers(i: nat)
    requires i < |DefaultProjectTable|
    ensures DefaultProjects[i] == ProjectOf(DefaultProjectTable[i])
    ensures WellFormed(DefaultProjects[i])
    ensures Member(DefaultProjects[i], "id") == Some(JStr(DefaultProjectTable[i].0))
    ensures Member(DefaultProjects[i], "image_url") == Some(JStr(DefaultProjectTable[i].6))
    ensures Member(DefaultProjects[i], "featured") == Some(JBool(DefaultProjectTable[i].7))
  {
    var row := DefaultProjectTable[i];
    ProjectKeys(row.0, row.1, row.2, row.3, row.4, row.5, row.6, row.7);
    ProjectMembers(row.0, row.1, row.2, row.3, row.4, row.5, row.6, row.7);
  }

  /** Every sample project is a well-formed document. */
  lemma DefaultProjectsWellFormed()
    ensures forall i :: 0 <= i < |DefaultProjects| ==> WellFormed(DefaultProjects[i])
  {
    forall i | 0 <= i < |DefaultProjects| ensures WellFormed(DefaultProjects[i]) {
      DefaultProjectMembers(i);
    }
  }

  lemma DefaultSkillMembers(i: nat)
    requires i < |DefaultSkillTable|
    ensures DefaultSkills[i] == Skill(DefaultSkillTable[i].0, DefaultSkillTable[i].1, DefaultSkillTable[i].2)
    ensures WellFormed(DefaultSkills[i])
    ensures Member(DefaultSkills[i], "name") == Some(JStr(DefaultSkillTable[i].0))
    ensures Member(DefaultSkills[i], "level") == Some(JNum(DefaultSkillTable[i].1))
    ensures Member(DefaultSkills[i], "category") == Some(JStr(DefaultSkillTable[i].2))
  {
    var row := DefaultSkillTable[i];
    SkillMembers(row.0, row.1, row.2);
  }

  /** Sixteen sample skills, each well formed with a level between 0 and 100. */
  lemma DefaultSkillLevels()
    ensures |DefaultSkills| == 16
    ensures forall i :: 0 <= i < 16 ==> 0 <= DefaultSkillTable[i].1 <= 100
    ensures forall i :: 0 <= i < 16 ==> Member(DefaultSkills[i], "level") == Some(JNum(DefaultSkillTable[i].1))
    ensures forall i :: 0 <= i < 16 ==> WellFormed(DefaultSkills[i])
  {
    forall i | 0 <= i < 16
      ensures Member(DefaultSkills[i], "level") == Some(JNum(DefaultSkillTable[i].1))
      ensures WellFormed(DefaultSkills[i])
    {
      DefaultSkillMembers(i);
    }
  }
}

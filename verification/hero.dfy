/**
  The hero section's "Download CV" button: the same plain-text CV as the
  `/api/cv` route, written in the browser from the data the page already
  holds, with the owner's details as defaults and project URLs written as
  they are.
 */
module Hero {
  import opened JsonValues
  import Text
  import CvText

  /** The closing lines, dated with the browser's date. */
  function Footer(date: string): string {
    "\n\n" + CvText.DoubleRule + "\nGenerated from Portfolio - " + date + "\n    "
  }

  /** The header: every missing detail falls back to the owner's own. */
  function HeaderOf(personalInfo: Option<Json>): (r: Result<string>)
    ensures r.Err? <==> Truthy(OptGet(personalInfo, "name")) && !OptGet(personalInfo, "name").value.JStr?
  {
    match CvText.NameText(OptGet(personalInfo, "name"), "Alex Kumar")
    case Err(f) => Err(f)
    case Ok(name) =>
      Ok(CvText.Header(
        name,
        OrText(OptGet(personalInfo, "title"), "DevOps Engineer"),
        OrText(OptGet(personalInfo, "email"), "alex.kumar@example.com"),
        OrText(OptGet(personalInfo, "phone"), "+1 (555) 123-4567"),
        OrText(OptGet(personalInfo, "location"), "Bangalore, India"),
        OrText(OptGet(personalInfo, "github"), "https://github.com"),
        OrText(OptGet(personalInfo, "linkedin"), "https://linkedin.com"),
        OrText(OptGet(personalInfo, "description"), "Passionate DevOps Engineer")))
  }

  /** For any record the header carries each member's text, and the
      owner's own detail wherever a member is missing or falsy. */
  lemma HeaderFallbacks(personalInfo: Option<Json>)
    requires HeaderOf(personalInfo).Ok?
    ensures var name := OptGet(personalInfo, "name");
      HeaderOf(personalInfo).value == CvText.Header(
        if Truthy(name) then name.value.s else "Alex Kumar",
        OrText(OptGet(personalInfo, "title"), "DevOps Engineer"),
        OrText(OptGet(personalInfo, "email"), "alex.kumar@example.com"),
        OrText(OptGet(personalInfo, "phone"), "+1 (555) 123-4567"),
        OrText(OptGet(personalInfo, "location"), "Bangalore, India"),
        OrText(OptGet(personalInfo, "github"), "https://github.com"),
        OrText(OptGet(personalInfo, "linkedin"), "https://linkedin.com"),
        OrText(OptGet(personalInfo, "description"), "Passionate DevOps Engineer"))
    ensures var h := HeaderOf(personalInfo).value;
      && CvText.Contains(h, "\nEmail: " + OrText(OptGet(personalInfo, "email"), "alex.kumar@example.com") + "\n")
      && CvText.Contains(h, "\nPhone: " + OrText(OptGet(personalInfo, "phone"), "+1 (555) 123-4567") + "\n")
      && CvText.Contains(h, "\nLocation: " + OrText(OptGet(personalInfo, "location"), "Bangalore, India") + "\n")
      && CvText.Contains(h, "\nGitHub: " + OrText(OptGet(personalInfo, "github"), "https://github.com") + "\n")
      && CvText.Contains(h, "\nLinkedIn: " + OrText(OptGet(personalInfo, "linkedin"), "https://linkedin.com") + "\n")
  {
    var name := OptGet(personalInfo, "name");
    CvText.ContactLines(if Truthy(name) then name.value.s else "Alex Kumar",
      OrText(OptGet(personalInfo, "title"), "DevOps Engineer"),
      OrText(OptGet(personalInfo, "email"), "alex.kumar@example.com"),
      OrText(OptGet(personalInfo, "phone"), "+1 (555) 123-4567"),
      OrText(OptGet(personalInfo, "location"), "Bangalore, India"),
      OrText(OptGet(personalInfo, "github"), "https://github.com"),
      OrText(OptGet(personalInfo, "linkedin"), "https://linkedin.com"),
      OrText(OptGet(personalInfo, "description"), "Passionate DevOps Engineer"));
  }

  /** A record without a usable email shows the owner's address. */
  lemma MissingEmail(personalInfo: Option<Json>)
    requires HeaderOf(personalInfo).Ok? && !Truthy(OptGet(personalInfo, "email"))
    ensures CvText.Contains(HeaderOf(personalInfo).value, "\nEmail: alex.kumar@example.com\n")
  {
    HeaderFallbacks(personalInfo);
    var email := OrText(OptGet(personalInfo, "email"), "alex.kumar@example.com");
    assert email == "alex.kumar@example.com";
    EmailLine(email);
  }

  lemma EmailLine(email: string)
    requires email == "alex.kumar@example.com"
    ensures "\nEmail: " + email + "\n" == "\nEmail: alex.kumar@example.com\n"
  {
  }

  /** `generateCVContent(data?.personalInfo, data?.projects, data?.skills)`,
      where `data` is the page's data or `null` before it has loaded. */
  function Content(data: Option<Json>, date: string): Result<string> {
    match HeaderOf(OptGet(data, "personalInfo"))
    case Err(f) => Err(f)
    case Ok(header) =>
      match CvText.ForEachItems(OptGet(data, "skills"))
      case Err(f) => Err(f)
      case Ok(skills) =>
        match CvText.ForEachItems(OptGet(data, "projects"))
        case Err(f) => Err(f)
        case Ok(projects) => CvText.CV(header, skills, projects, CvText.AsIs, Footer(date))
  }

  /** Writes the CV with the loops of the source. */
  method GenerateCVContent(data: Option<Json>, date: string) returns (r: Result<string>)
    ensures r == Content(data, date)
  {
    var header := HeaderOf(OptGet(data, "personalInfo"));
    var skills := CvText.ForEachItems(OptGet(data, "skills"));
    var projects := CvText.ForEachItems(OptGet(data, "projects"));
    if header.Err? || skills.Err? || projects.Err? {
      return Err(EngineError);
    }
    r := CvText.WriteCV(header.value, skills.value, projects.value, CvText.AsIs, Footer(date));
  }

  /** `${personalInfo?.name?.replace(/\s+/g, "_") || "Portfolio"}_CV.txt`:
      a missing name, or one that replaces to nothing, gives `Portfolio`;
      a name that is present but not a string has no `replace` and throws. */
  function Filename(data: Option<Json>): (r: Result<string>)
    ensures var name := OptGet(OptGet(data, "personalInfo"), "name");
      r.Err? <==> name.Some? && name.value != JNull && !name.value.JStr?
  {
    var name := OptGet(OptGet(data, "personalInfo"), "name");
    if name == None || name == Some(JNull) then Ok("Portfolio_CV.txt")
    else if name.value.JStr? then
      var stem := Text.ReplaceWhitespaceRuns(name.value.s);
      Ok((if stem == "" then "Portfolio" else stem) + "_CV.txt")
    else Err(EngineError)
  }

  /** `downloadCV`: the file name and the text of the download; the CV is
      written first, so its failure is the one seen. */
  function DownloadCV(data: Option<Json>, date: string): Result<(string, string)> {
    match Content(data, date)
    case Err(f) => Err(f)
    case Ok(content) =>
      match Filename(data)
      case Err(f) => Err(f)
      case Ok(name) => Ok((name, content))
  }

  // ---------------------------------------------------------------------
  // Properties
  // ---------------------------------------------------------------------

  /** The file name is `Portfolio_CV.txt` when the name is missing or
      empty; otherwise it is the name with each whitespace run replaced by
      `_`. Either way it has no whitespace. */
  lemma FilenameShape(data: Option<Json>)
    requires Filename(data).Ok?
    ensures var name := OptGet(OptGet(data, "personalInfo"), "name");
      && (name == None || name == Some(JNull) || name == Some(JStr("")) ==>
            Filename(data).value == "Portfolio_CV.txt")
      && (name.Some? && name.value.JStr? && name.value.s != "" ==>
            Filename(data).value == Text.ReplaceWhitespaceRuns(name.value.s) + "_CV.txt")
      && Text.NoWhitespace(Filename(data).value)
  {
    var name := OptGet(OptGet(data, "personalInfo"), "name");
    assert Text.NoWhitespace("Portfolio_CV.txt");
    if name.Some? && name.value.JStr? {
      var stem := Text.ReplaceWhitespaceRuns(name.value.s);
      if name.value.s == "" {
        assert stem == "" by { Text.ReplaceKeepsPlainText(""); }
      } else {
        Text.ReplaceNonEmpty(name.value.s);
        assert Text.NoWhitespace("_CV.txt");
      }
    }
  }

  /** Without personal information every header line takes the owner's
      default. */
  lemma DefaultHeader(data: Option<Json>)
    requires OptGet(data, "personalInfo") == None
    ensures HeaderOf(OptGet(data, "personalInfo")) == Ok(CvText.Header(
      "Alex Kumar", "DevOps Engineer", "alex.kumar@example.com", "+1 (555) 123-4567",
      "Bangalore, India", "https://github.com", "https://linkedin.com", "Passionate DevOps Engineer"))
  {
  }

  /** Before the data has loaded the download is the owner's header with
      no skills and no projects, named `Portfolio_CV.txt`. */
  lemma NoData(date: string)
    ensures HeaderOf(None).Ok?
    ensures DownloadCV(None, date) == Ok(("Portfolio_CV.txt", HeaderOf(None).value + CvText.ProjectsHeading + Footer(date)))
  {
    var header := HeaderOf(None).value;
    assert CvText.ForEachItems(None) == Ok([]);
    CvText.NothingListed(header, CvText.AsIs, Footer(date));
  }
}

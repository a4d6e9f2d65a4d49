/**
  `/api/cv`: fetches the portfolio document from the Python backend (or
  uses a built-in record when the backend answers with an error status),
  writes the plain-text CV and sends it as a download named after the
  owner.
 */
module CvRoute {
  import opened JsonValues
  import Text
  import CvText
  import Portfolio
  import Grouping
  import opened Http

  /** The summary written when the document has none. */
  const DefaultSummary: string := "Passionate DevOps Engineer focused on automation and cloud technologies."

  /** The personal information of the built-in record. */
  function FallbackInfo(): Json {
    JObj([
      Field("name", JStr("Alex Kumar")),
      Field("title", JStr("DevOps Engineer")),
      Field("email", JStr("alex.kumar@example.com")),
      Field("phone", JStr("+1 (555) 123-4567")),
      Field("location", JStr("Bangalore, India")),
      Field("github", JStr("https://github.com")),
      Field("linkedin", JStr("https://linkedin.com")),
      Field("description", JStr(Portfolio.ShortDescription))
    ])
  }

  /** The record used when the backend answers with an error status: no
      projects and no skills. */
  function Fallback(): Json {
    JObj([Field("personalInfo", FallbackInfo()), Field("projects", JArr([])), Field("skills", JArr([]))])
  }

  /** The closing lines, dated with the server's date. */
  function Footer(date: string): string {
    "\n\n" + CvText.DoubleRule + "\nGenerated from Portfolio - " + date
    + "\nPortfolio Website: [Your Portfolio URL]\n  "
  }

  /** The header of the CV: the name and title fall back to the owner's,
      the contact lines to `N/A`, the summary to a fixed sentence. */
  function HeaderOf(personalInfo: Option<Json>): (r: Result<string>)
    ensures r.Err? <==> Truthy(OptGet(personalInfo, "name")) && !OptGet(personalInfo, "name").value.JStr?
  {
    match CvText.NameText(OptGet(personalInfo, "name"), "Alex Kumar")
    case Err(f) => Err(f)
    case Ok(name) =>
      Ok(CvText.Header(
        name,
        OrText(OptGet(personalInfo, "title"), "DevOps Engineer"),
        OrText(OptGet(personalInfo, "email"), "N/A"),
        OrText(OptGet(personalInfo, "phone"), "N/A"),
        OrText(OptGet(personalInfo, "location"), "N/A"),
        OrText(OptGet(personalInfo, "github"), "N/A"),
        OrText(OptGet(personalInfo, "linkedin"), "N/A"),
        OrText(OptGet(personalInfo, "description"), DefaultSummary)))
  }

  /** `generateCVContent(data)`: destructuring `null` throws; the skills
      and projects are walked with `?.forEach`; a missing URL reads `N/A`. */
  function Content(data: Json, date: string): Result<string> {
    if data == JNull then Err(EngineError)
    else
      match HeaderOf(Member(data, "personalInfo"))
      case Err(f) => Err(f)
      case Ok(header) =>
        match CvText.ForEachItems(Member(data, "skills"))
        case Err(f) => Err(f)
        case Ok(skills) =>
          match CvText.ForEachItems(Member(data, "projects"))
          case Err(f) => Err(f)
          case Ok(projects) => CvText.CV(header, skills, projects, CvText.NotAvailable, Footer(date))
  }

  /** Writes the CV with the loops of the source. */
  method GenerateCVContent(data: Json, date: string) returns (r: Result<string>)
    ensures r == Content(data, date)
  {
    if data == JNull {
      return Err(EngineError);
    }
    var header := HeaderOf(Member(data, "personalInfo"));
    var skills := CvText.ForEachItems(Member(data, "skills"));
    var projects := CvText.ForEachItems(Member(data, "projects"));
    if header.Err? || skills.Err? || projects.Err? {
      return Err(EngineError);
    }
    r := CvText.WriteCV(header.value, skills.value, projects.value, CvText.NotAvailable, Footer(date));
  }

  /** `${data.personalInfo.name.replace(/\s+/g, "_")}_CV.txt`: the name
      must be a string (anything else has no `replace`), and reading it
      from a missing record throws. */
  function Filename(data: Json): (r: Result<string>)
    ensures r.Ok? <==> OptGet(Member(data, "personalInfo"), "name").Some?
                       && OptGet(Member(data, "personalInfo"), "name").value.JStr?
    ensures r.Ok? ==> r.value == Text.ReplaceWhitespaceRuns(OptGet(Member(data, "personalInfo"), "name").value.s) + "_CV.txt"
  {
    match JsonValues.Get(Member(data, "personalInfo"), "name")
    case Err(f) => Err(f)
    case Ok(name) =>
      if name.Some? && name.value.JStr? then Ok(Text.ReplaceWhitespaceRuns(name.value.s) + "_CV.txt")
      else Err(EngineError)
  }

  /** What `GET` sends: the CV as a text attachment, or an error. */
  datatype Download = Attachment(filename: string, content: string) | Failed(response: Response)

  const GenerationFailed: Response := Response(500, Message("error", "Failed to generate CV"))

  /** The document the CV is written from, when the backend replied. */
  function SourceData(reply: Reply): Json {
    if reply.ok then reply.body else Fallback()
  }

  /** A text the response headers accept: the `Headers` of the Fetch
      standard convert each value to a ByteString, which refuses a
      character above U+00FF, and refuse a value holding NUL; either
      refusal is a `TypeError`, thrown inside the route's `try`. */
  predicate HeaderSafe(s: string) {
    forall i :: 0 <= i < |s| ==> s[i] <= '\U{00FF}' && s[i] != '\0'
  }

  /** `GET`: an unreachable backend, or any error while writing, gives the
      500 response; the built-in record is used only for an error status. */
  function Get(backend: Fetched, date: string): Download {
    match backend
    case Unreachable => Failed(GenerationFailed)
    case Replied(reply) =>
      var data := SourceData(reply);
      match Content(data, date)
      case Err(_) => Failed(GenerationFailed)
      case Ok(content) =>
        match Filename(data)
        case Err(_) => Failed(GenerationFailed)
        case Ok(name) =>
          if HeaderSafe(name) then Attachment(name, content) else Failed(GenerationFailed)
  }

  // ---------------------------------------------------------------------
  // Properties
  // ---------------------------------------------------------------------

  /** A download is sent exactly when the backend replied, both the CV
      and the file name could be written from its document, and the file
      name fits in a header; otherwise the answer is the 500 error. */
  lemma GetOutcome(backend: Fetched, date: string)
    ensures Get(backend, date).Attachment? <==>
      backend.Replied? && Content(SourceData(backend.reply), date).Ok? && Filename(SourceData(backend.reply)).Ok?
      && HeaderSafe(Filename(SourceData(backend.reply)).value)
    ensures Get(backend, date).Attachment? ==>
      Get(backend, date) == Attachment(Filename(SourceData(backend.reply)).value, Content(SourceData(backend.reply), date).value)
    ensures Get(backend, date).Failed? ==> Get(backend, date).response == GenerationFailed
  {
  }

  /** The file name has no whitespace and ends in `_CV.txt`. */
  lemma FilenameShape(data: Json)
    requires Filename(data).Ok?
    ensures Text.NoWhitespace(Filename(data).value)
    ensures |Filename(data).value| >= 7
    ensures Filename(data).value[|Filename(data).value| - 7..] == "_CV.txt"
  {
    var stem := Text.ReplaceWhitespaceRuns(OptGet(Member(data, "personalInfo"), "name").value.s);
    assert Filename(data).value == stem + "_CV.txt";
    assert Text.NoWhitespace("_CV.txt");
  }

  /** The CV and the file name disagree on an empty name: the CV falls
      back to the owner's name, the file name keeps the empty one. */
  lemma EmptyName(data: Json)
    requires OptGet(Member(data, "personalInfo"), "name") == Some(JStr(""))
    ensures Filename(data) == Ok("_CV.txt")
    ensures CvText.NameText(OptGet(Member(data, "personalInfo"), "name"), "Alex Kumar") == Ok("Alex Kumar")
  {
    var empty: string := [];
    assert Text.ReplaceWhitespaceRuns(empty) == empty;
    assert JsonValues.Get(Member(data, "personalInfo"), "name") == Ok(Some(JStr(empty)));
    assert Filename(data) == Ok(empty + "_CV.txt");
    assert empty + "_CV.txt" == "_CV.txt";
  }

  lemma FallbackMembers()
    ensures Member(Fallback(), "personalInfo") == Some(FallbackInfo())
    ensures Member(Fallback(), "skills") == Some(JArr([]))
    ensures Member(Fallback(), "projects") == Some(JArr([]))
  {
    var fields := Fallback().fields;
    LookupDistinct(fields, 0);
    LookupDistinct(fields, 1);
    LookupDistinct(fields, 2);
  }

  lemma InfoMembers()
    ensures Member(FallbackInfo(), "name") == Some(JStr("Alex Kumar"))
    ensures Member(FallbackInfo(), "title") == Some(JStr("DevOps Engineer"))
    ensures Member(FallbackInfo(), "email") == Some(JStr("alex.kumar@example.com"))
    ensures Member(FallbackInfo(), "phone") == Some(JStr("+1 (555) 123-4567"))
    ensures Member(FallbackInfo(), "location") == Some(JStr("Bangalore, India"))
    ensures Member(FallbackInfo(), "github") == Some(JStr("https://github.com"))
    ensures Member(FallbackInfo(), "linkedin") == Some(JStr("https://linkedin.com"))
    ensures Member(FallbackInfo(), "description") == Some(JStr(Portfolio.ShortDescription))
  {
    var fields := FallbackInfo().fields;
    assert DistinctKeys(fields);
    LookupDistinct(fields, 0);
    LookupDistinct(fields, 1);
    LookupDistinct(fields, 2);
    LookupDistinct(fields, 3);
    LookupDistinct(fields, 4);
    LookupDistinct(fields, 5);
    LookupDistinct(fields, 6);
    LookupDistinct(fields, 7);
  }

  /** For any record the header carries the name (or the owner's), the
      title (or `DevOps Engineer`), each contact line with the member's
      text or `N/A`, and the summary (or the route's own sentence). */
  lemma HeaderFallbacks(personalInfo: Option<Json>)
    requires HeaderOf(personalInfo).Ok?
    ensures var name := OptGet(personalInfo, "name");
      HeaderOf(personalInfo).value == CvText.Header(
        if Truthy(name) then name.value.s else "Alex Kumar",
        OrText(OptGet(personalInfo, "title"), "DevOps Engineer"),
        OrText(OptGet(personalInfo, "email"), "N/A"),
        OrText(OptGet(personalInfo, "phone"), "N/A"),
        OrText(OptGet(personalInfo, "location"), "N/A"),
        OrText(OptGet(personalInfo, "github"), "N/A"),
        OrText(OptGet(personalInfo, "linkedin"), "N/A"),
        OrText(OptGet(personalInfo, "description"), DefaultSummary))
    ensures var h := HeaderOf(personalInfo).value;
      && CvText.Contains(h, "\nEmail: " + OrText(OptGet(personalInfo, "email"), "N/A") + "\n")
      && CvText.Contains(h, "\nPhone: " + OrText(OptGet(personalInfo, "phone"), "N/A") + "\n")
      && CvText.Contains(h, "\nLocation: " + OrText(OptGet(personalInfo, "location"), "N/A") + "\n")
      && CvText.Contains(h, "\nGitHub: " + OrText(OptGet(personalInfo, "github"), "N/A") + "\n")
      && CvText.Contains(h, "\nLinkedIn: " + OrText(OptGet(personalInfo, "linkedin"), "N/A") + "\n")
  {
    var name := OptGet(personalInfo, "name");
    CvText.ContactLines(if Truthy(name) then name.value.s else "Alex Kumar",
      OrText(OptGet(personalInfo, "title"), "DevOps Engineer"),
      OrText(OptGet(personalInfo, "email"), "N/A"),
      OrText(OptGet(personalInfo, "phone"), "N/A"),
      OrText(OptGet(personalInfo, "location"), "N/A"),
      OrText(OptGet(personalInfo, "github"), "N/A"),
      OrText(OptGet(personalInfo, "linkedin"), "N/A"),
      OrText(OptGet(personalInfo, "description"), DefaultSummary));
  }

  /** A record without a usable email gives the line `Email: N/A`. */
  lemma MissingEmail(personalInfo: Option<Json>)
    requires HeaderOf(personalInfo).Ok? && !Truthy(OptGet(personalInfo, "email"))
    ensures CvText.Contains(HeaderOf(personalInfo).value, "\nEmail: N/A\n")
  {
    HeaderFallbacks(personalInfo);
    var na := OrText(OptGet(personalInfo, "email"), "N/A");
    assert na == "N/A";
    EmailLine(na);
  }

  lemma EmailLine(na: string)
    requires na == "N/A"
    ensures "\nEmail: " + na + "\n" == "\nEmail: N/A\n"
  {
  }

  /** A record whose contact members are all non-empty strings gives the
      header with exactly those strings. */
  lemma HeaderOfStrings(info: Json, name: string, title: string, email: string, phone: string,
                        location: string, github: string, linkedin: string, description: string)
    requires name != [] && title != [] && email != [] && phone != []
    requires location != [] && github != [] && linkedin != [] && description != []
    requires Member(info, "name") == Some(JStr(name)) && Member(info, "title") == Some(JStr(title))
    requires Member(info, "email") == Some(JStr(email)) && Member(info, "phone") == Some(JStr(phone))
    requires Member(info, "location") == Some(JStr(location)) && Member(info, "github") == Some(JStr(github))
    requires Member(info, "linkedin") == Some(JStr(linkedin))
    requires Member(info, "description") == Some(JStr(description))
    ensures HeaderOf(Some(info)) == Ok(CvText.Header(name, title, email, phone, location, github, linkedin, description))
  {
    var v := Some(info);
    assert CvText.NameText(OptGet(v, "name"), "Alex Kumar") == Ok(name);
    assert OrText(OptGet(v, "title"), "DevOps Engineer") == title;
    assert OrText(OptGet(v, "email"), "N/A") == email;
    assert OrText(OptGet(v, "phone"), "N/A") == phone;
    assert OrText(OptGet(v, "location"), "N/A") == location;
    assert OrText(OptGet(v, "github"), "N/A") == github;
    assert OrText(OptGet(v, "linkedin"), "N/A") == linkedin;
    assert OrText(OptGet(v, "description"), DefaultSummary) == description;
  }

  /** The header of the built-in record names the owner and the summary
      of the record, not the route's own default sentence. */
  lemma FallbackHeader()
    ensures HeaderOf(Some(FallbackInfo())) == Ok(CvText.Header(
      "Alex Kumar", "DevOps Engineer", "alex.kumar@example.com", "+1 (555) 123-4567",
      "Bangalore, India", "https://github.com", "https://linkedin.com", Portfolio.ShortDescription))
  {
    InfoMembers();
    HeaderOfStrings(FallbackInfo(), "Alex Kumar", "DevOps Engineer", "alex.kumar@example.com", "+1 (555) 123-4567",
      "Bangalore, India", "https://github.com", "https://linkedin.com", Portfolio.ShortDescription);
  }

  /** With an error status the CV is the owner's header, an empty skills
      section and no projects, sent as `Alex_Kumar_CV.txt`. */
  lemma FallbackDownload(date: string)
    ensures HeaderOf(Some(FallbackInfo())).Ok?
    ensures Get(Replied(Reply(false, JNull)), date)
         == Attachment("Alex_Kumar_CV.txt", HeaderOf(Some(FallbackInfo())).value + CvText.ProjectsHeading + Footer(date))
  {
    FallbackContent(date);
    FallbackFilename();
    FallbackFilenameSafe();
  }

  lemma FallbackContent(date: string)
    ensures HeaderOf(Some(FallbackInfo())).Ok?
    ensures Content(Fallback(), date) == Ok(HeaderOf(Some(FallbackInfo())).value + CvText.ProjectsHeading + Footer(date))
  {
    FallbackMembers();
    FallbackHeader();
    EmptyLists(Fallback(), date);
  }

  lemma FallbackFilenameSafe()
    ensures HeaderSafe("Alex_Kumar_CV.txt")
  {
    var name := "Alex_Kumar_CV.txt";
    forall i | 0 <= i < |name|
      ensures name[i] <= '\U{00FF}' && name[i] != '\0'
    {
    }
  }

  lemma FallbackFilename()
    ensures Filename(Fallback()) == Ok("Alex_Kumar_CV.txt")
  {
    FallbackMembers();
    InfoMembers();
    AlexKumar();
  }

  /** A document with empty skills and projects gives just the header, the
      PROJECTS heading and the footer. */
  lemma EmptyLists(data: Json, date: string)
    requires data != JNull && HeaderOf(Member(data, "personalInfo")).Ok?
    requires Member(data, "skills") == Some(JArr([])) && Member(data, "projects") == Some(JArr([]))
    ensures Content(data, date) == Ok(HeaderOf(Member(data, "personalInfo")).value + CvText.ProjectsHeading + Footer(date))
  {
    var header := HeaderOf(Member(data, "personalInfo")).value;
    assert CvText.ForEachItems(Member(data, "skills")) == Ok([]);
    assert CvText.ForEachItems(Member(data, "projects")) == Ok([]);
    CvText.NothingListed(header, CvText.NotAvailable, Footer(date));
  }

  lemma AlexKumar()
    ensures Text.ReplaceWhitespaceRuns("Alex Kumar") + "_CV.txt" == "Alex_Kumar_CV.txt"
  {
    var first, last := "Alex", "Kumar";
    assert Text.NoWhitespace(first) && Text.NoWhitespace(last);
    Text.JoinWords(first, last);
    assert first + " " + last == "Alex Kumar";
    assert first + "_" + last + "_CV.txt" == "Alex_Kumar_CV.txt";
  }
}

/**
  The plain-text CV that both the `/api/cv` route and the hero section's
  download button write: a header with contact details and a summary,
  the skills grouped by category, the numbered projects and a footer.
  The two writers differ only in their defaults, in how a missing project
  URL is shown and in the footer; they share the layout defined here.
 */
module CvText {
  import opened JsonValues
  import Text
  import Grouping

  // ---------------------------------------------------------------------
  // Header
  // ---------------------------------------------------------------------

  /** `"=".repeat(50)`, under the title and above the footer. */
  const DoubleRule: string := "=================================================="

  /** `"-".repeat(20)`, under each section heading. */
  const SingleRule: string := "--------------------"

  /** The header, from the name through the `TECHNICAL SKILLS` rule. */
  function Header(name: string, title: string, email: string, phone: string, location: string,
                  github: string, linkedin: string, summary: string): string
  {
    Masthead(name, title) + Contact(email, phone, location, github, linkedin, summary)
  }

  /** The upper-cased name, the title and a rule of fifty `=`. */
  function Masthead(name: string, title: string): string {
    "\n" + Text.ToUpper(name) + "\n" + title + "\n" + DoubleRule
  }

  /** The contact, summary and skills headings below the masthead. */
  function Contact(email: string, phone: string, location: string,
                   github: string, linkedin: string, summary: string): string
  {
    "\n\nCONTACT INFORMATION\n" + SingleRule
    + Line("\nEmail: ", email) + Line("\nPhone: ", phone) + Line("\nLocation: ", location)
    + Line("\nGitHub: ", github) + Line("\nLinkedIn: ", linkedin)
    + Summary(summary)
  }

  /** One contact line: its caption, opened by the line break, then the value. */
  function Line(caption: string, value: string): string {
    caption + value
  }

  /** The summary under its heading, then the skills heading. */
  function Summary(summary: string): string {
    "\n\nPROFESSIONAL SUMMARY\n" + SingleRule + "\n" + summary
    + "\n\nTECHNICAL SKILLS\n" + SingleRule
  }

  /** `(v || fallback).toUpperCase()` needs a string: a truthy value of
      another type has no `toUpperCase` and throws. */
  function NameText(v: Option<Json>, fallback: string): (r: Result<string>)
    ensures r.Err? <==> Truthy(v) && !v.value.JStr?
    ensures !Truthy(v) ==> r == Ok(fallback)
    ensures Truthy(v) && v.value.JStr? ==> r == Ok(v.value.s)
  {
    if !Truthy(v) then Ok(fallback)
    else if v.value.JStr? then Ok(v.value.s)
    else Err(EngineError)
  }

  /** The header always opens with the upper-cased name, the title on the
      next line and a rule of fifty `=`. */
  lemma HeaderStart(name: string, title: string, email: string, phone: string, location: string,
                    github: string, linkedin: string, summary: string)
    ensures var h := Header(name, title, email, phone, location, github, linkedin, summary);
      var start := "\n" + Text.ToUpper(name) + "\n" + title + "\n" + DoubleRule;
      |start| <= |h| && h[..|start|] == start
  {
    Opening(Masthead(name, title), Contact(email, phone, location, github, linkedin, summary));
  }

  /** `part` occurs in `text` from index `k` on. */
  predicate OccursAt(text: string, part: string, k: nat) {
    k + |part| <= |text| && text[k..k + |part|] == part
  }

  /** `part` occurs somewhere in `text`. */
  predicate Contains(text: string, part: string) {
    exists k: nat :: k <= |text| && OccursAt(text, part, k)
  }

  /** A piece followed by a line break is found, with that break. */
  lemma LineAt(a: string, x: string, b: string)
    requires b != [] && b[0] == '\n'
    ensures Contains(a + x + b, x + "\n")
  {
    assert OccursAt(a + x + b, x + "\n", |a|);
  }

  /** Each contact detail stands on a line of its own, after its label. */
  lemma ContactLines(name: string, title: string, email: string, phone: string, location: string,
                     github: string, linkedin: string, summary: string)
    ensures var h := Header(name, title, email, phone, location, github, linkedin, summary);
      && Contains(h, "\nEmail: " + email + "\n")
      && Contains(h, "\nPhone: " + phone + "\n")
      && Contains(h, "\nLocation: " + location + "\n")
      && Contains(h, "\nGitHub: " + github + "\n")
      && Contains(h, "\nLinkedIn: " + linkedin + "\n")
  {
    var m := Masthead(name, title);
    var c := "\n\nCONTACT INFORMATION\n" + SingleRule;
    var e, p, l := Line("\nEmail: ", email), Line("\nPhone: ", phone), Line("\nLocation: ", location);
    var g, k, r := Line("\nGitHub: ", github), Line("\nLinkedIn: ", linkedin), Summary(summary);
    ContactParts(m, c, e, p, l, g, k, r);
    LineAt(m + c, e, p + l + g + k + r);
    LineAt(m + c + e, p, l + g + k + r);
    LineAt(m + c + e + p, l, g + k + r);
    LineAt(m + c + e + p + l, g, k + r);
    LineAt(m + c + e + p + l + g, k, r);
  }

  /** The header cut at the start of each contact line. */
  lemma ContactParts(m: string, c: string, e: string, p: string, l: string, g: string, k: string, r: string)
    ensures var h := m + (c + e + p + l + g + k + r);
      && h == m + c + e + (p + l + g + k + r)
      && h == m + c + e + p + (l + g + k + r)
      && h == m + c + e + p + l + (g + k + r)
      && h == m + c + e + p + l + g + (k + r)
      && h == m + c + e + p + l + g + k + r
  {
  }

  lemma Opening(a: string, b: string)
    ensures |a| <= |a + b| && (a + b)[..|a|] == a
  {
  }

  // ---------------------------------------------------------------------
  // Skills
  // ---------------------------------------------------------------------

  /** `xs?.forEach(...)`: nothing to visit for `undefined` or `null`, the
      items of an array; any other value has no `forEach` and throws. */
  function ForEachItems(v: Option<Json>): (r: Result<seq<Json>>)
    ensures r.Ok? <==> v == None || v == Some(JNull) || IsArray(v)
    ensures IsArray(v) ==> r == Ok(v.value.items)
    ensures r.Err? ==> r == Err(EngineError)
  {
    if v == None || v == Some(JNull) then Ok([])
    else if v.value.JArr? then Ok(v.value.items)
    else Err(EngineError)
  }

  /** The names every plain object inherits from `Object.prototype`. For
      such a category, `!acc[category]` is false (the inherited function or
      prototype is there), no array is created, and `push` is not a
      function of it: the grouping throws. */
  const InheritedNames: set<string> := {
    "constructor", "__proto__", "toString", "toLocaleString", "valueOf", "hasOwnProperty",
    "isPrototypeOf", "propertyIsEnumerable", "__defineGetter__", "__defineSetter__",
    "__lookupGetter__", "__lookupSetter__"
  }

  /** The inherited names all start with a lower-case letter or `_`. */
  lemma CapitalNotInherited(c: string)
    requires c != [] && 'A' <= c[0] <= 'Z'
    ensures c !in InheritedNames
  {
  }

  /** The property name `acc[skill.category]` uses. */
  function CategoryKey(skill: Json): string {
    DisplayOpt(Member(skill, "category"))
  }

  /** A skill the grouping can take: reading `skill.category` of `null`
      throws, and so does pushing under an inherited name. */
  predicate Groupable(skill: Json) {
    skill != JNull && CategoryKey(skill) !in InheritedNames
  }

  /** The property names of all skills, or the failure of the grouping. */
  function SkillKeys(skills: seq<Json>): (r: Result<seq<string>>)
    ensures r.Ok? <==> forall i :: 0 <= i < |skills| ==> Groupable(skills[i])
    ensures r.Ok? ==> |r.value| == |skills| && forall i :: 0 <= i < |skills| ==> r.value[i] == CategoryKey(skills[i])
    ensures r.Err? ==> r == Err(EngineError)
  {
    if skills == [] then Ok([])
    else
      var n := |skills| - 1;
      assert forall i :: 0 <= i < n ==> skills[..n][i] == skills[i];
      var prev := SkillKeys(skills[..n]);
      if prev.Err? || !Groupable(skills[n]) then Err(EngineError)
      else Ok(prev.value + [CategoryKey(skills[n])])
  }

  /** One line of the TECHNICAL SKILLS section, or its category heading. */
  datatype Row = Heading(category: string) | Item(skill: Json)

  function SkillLine(skill: Json): string {
    "• " + DisplayOpt(Member(skill, "name")) + " (" + DisplayOpt(Member(skill, "level")) + "%)\n"
  }

  function RowText(row: Row): string {
    match row
    case Heading(c) => "\n\n" + c + ":\n"
    case Item(s) => SkillLine(s)
  }

  function ItemRows(skills: seq<Json>): (r: seq<Row>)
    ensures |r| == |skills| && forall i :: 0 <= i < |skills| ==> r[i] == Item(skills[i])
  {
    seq(|skills|, i requires 0 <= i < |skills| => Item(skills[i]))
  }

  /** Each category of `cats` with the skills filed under it. */
  function Rows(cats: seq<string>, keys: seq<string>, skills: seq<Json>): seq<Row>
    requires |keys| == |skills|
  {
    if cats == [] then []
    else
      var n := |cats| - 1;
      Rows(cats[..n], keys, skills) + [Heading(cats[n])] + ItemRows(Grouping.Members(keys, skills, cats[n]))
  }

  /** `text` followed by the lines of `rows`. */
  function Append(text: string, rows: seq<Row>): string {
    if rows == [] then text else Append(text, rows[..|rows| - 1]) + RowText(rows[|rows| - 1])
  }

  /** The category headings, in order. */
  function Headings(rows: seq<Row>): seq<string> {
    if rows == [] then []
    else
      var n := |rows| - 1;
      Headings(rows[..n]) + if rows[n].Heading? then [rows[n].category] else []
  }

  /** The skills listed, in order. */
  function Items(rows: seq<Row>): seq<Json> {
    if rows == [] then []
    else
      var n := |rows| - 1;
      Items(rows[..n]) + if rows[n].Item? then [rows[n].skill] else []
  }

  /** The TECHNICAL SKILLS section: one heading per category in order of
      first appearance, no category twice, and every skill listed exactly
      once, under its own category, in list order. */
  lemma SkillSection(skills: seq<Json>)
    requires SkillKeys(skills).Ok?
    ensures var keys := SkillKeys(skills).value;
      Headings(Rows(Grouping.Categories(keys), keys, skills)) == Grouping.Categories(keys)
      && Grouping.Distinct(Headings(Rows(Grouping.Categories(keys), keys, skills)))
      && multiset(Items(Rows(Grouping.Categories(keys), keys, skills))) == multiset(skills)
  {
    var keys := SkillKeys(skills).value;
    RowsShape(Grouping.Categories(keys), keys, skills);
    Grouping.CategoriesDistinct(keys);
    Grouping.GroupsPartition(keys, skills);
  }

  lemma {:induction false} RowsShape(cats: seq<string>, keys: seq<string>, skills: seq<Json>)
    requires |keys| == |skills|
    ensures Headings(Rows(cats, keys, skills)) == cats
    ensures Items(Rows(cats, keys, skills)) == Grouping.Flatten(keys, skills, cats)
  {
    if cats != [] {
      var n := |cats| - 1;
      var group := Grouping.Members(keys, skills, cats[n]);
      var prefix := Rows(cats[..n], keys, skills);
      RowsShape(cats[..n], keys, skills);
      GroupRowsShape(prefix, cats[n], group);
      assert cats == cats[..n] + [cats[n]];
    }
  }

  /** Appending one category's rows adds its heading and its skills. */
  lemma GroupRowsShape(prefix: seq<Row>, c: string, group: seq<Json>)
    ensures Headings(prefix + [Heading(c)] + ItemRows(group)) == Headings(prefix) + [c]
    ensures Items(prefix + [Heading(c)] + ItemRows(group)) == Items(prefix) + group
  {
    var withHeading := prefix + [Heading(c)];
    assert withHeading[..|prefix|] == prefix;
    assert Headings(withHeading) == Headings(prefix) + [c];
    assert Items(withHeading) == Items(prefix);
    HeadingsAppend(withHeading, ItemRows(group));
    ItemsAppend(withHeading, ItemRows(group));
    ItemRowsShape(group);
  }

  lemma {:induction false} ItemRowsShape(group: seq<Json>)
    ensures Headings(ItemRows(group)) == [] && Items(ItemRows(group)) == group
  {
    if group != [] {
      var n := |group| - 1;
      assert ItemRows(group)[..n] == ItemRows(group[..n]);
      ItemRowsShape(group[..n]);
      assert group == group[..n] + [group[n]];
    }
  }

  lemma {:induction false} HeadingsAppend(a: seq<Row>, b: seq<Row>)
    ensures Headings(a + b) == Headings(a) + Headings(b)
  {
    if b != [] {
      var n := |b| - 1;
      assert (a + b)[..|a| + n] == a + b[..n];
      HeadingsAppend(a, b[..n]);
    } else {
      assert a + b == a;
    }
  }

  lemma {:induction false} ItemsAppend(a: seq<Row>, b: seq<Row>)
    ensures Items(a + b) == Items(a) + Items(b)
  {
    if b != [] {
      var n := |b| - 1;
      assert (a + b)[..|a| + n] == a + b[..n];
      ItemsAppend(a, b[..n]);
    } else {
      assert a + b == a;
    }
  }

  // ---------------------------------------------------------------------
  // Projects
  // ---------------------------------------------------------------------

  /** How a missing GitHub or live URL is written: the route writes
      `N/A`, the hero section writes the value as it is (`undefined`). */
  datatype UrlStyle = NotAvailable | AsIs

  function UrlText(v: Option<Json>, style: UrlStyle): string {
    match style
    case NotAvailable => OrText(v, "N/A")
    case AsIs => DisplayOpt(v)
  }

  /** `project.technologies?.join(", ") || "N/A"`: only arrays have
      `join`; `undefined` and `null` give `N/A`, and so does an array that
      joins to nothing. */
  function TechnologiesText(v: Option<Json>): (r: Result<string>)
    ensures r.Err? <==> v.Some? && v.value != JNull && !v.value.JArr?
    ensures r.Ok? ==> r.value != ""
    ensures IsArray(v) && DisplayItems(v.value.items, ", ") != "" ==> r == Ok(DisplayItems(v.value.items, ", "))
    ensures v == None || v == Some(JNull) || (IsArray(v) && DisplayItems(v.value.items, ", ") == "") ==> r == Ok("N/A")
  {
    if v == None || v == Some(JNull) then Ok("N/A")
    else if v.value.JArr? then
      var joined := DisplayItems(v.value.items, ", ");
      if joined == "" then Ok("N/A") else Ok(joined)
    else Err(EngineError)
  }

  /** The start of a project's entry: its number and title. */
  function EntryStart(project: Json, index: nat): string {
    "\n\n" + Text.NatToString(index + 1) + ". " + DisplayOpt(Member(project, "title"))
  }

  /** Writing a project's entry does not throw: it is not `null` and its
      technologies can be joined. */
  predicate EntryOk(project: Json) {
    project != JNull && TechnologiesText(Member(project, "technologies")).Ok?
  }

  /** The entry of the project at position `index` (counting from 0). */
  function ProjectEntry(project: Json, index: nat, style: UrlStyle): (r: Result<string>)
    ensures r.Ok? <==> EntryOk(project)
  {
    if project == JNull then Err(EngineError)
    else
      match TechnologiesText(Member(project, "technologies"))
      case Err(f) => Err(f)
      case Ok(technologies) =>
        Ok(EntryStart(project, index) + FeaturedMark(project) + EntryDetails(project, technologies, style))
  }

  /** `if (project.featured) cv += " ⭐ FEATURED"` */
  function FeaturedMark(project: Json): string {
    if Truthy(Member(project, "featured")) then " ⭐ FEATURED" else ""
  }

  /** The description, technologies and URL lines of an entry. */
  function EntryDetails(project: Json, technologies: string, style: UrlStyle): string {
    "\n   " + DisplayOpt(Member(project, "description"))
    + "\n   Technologies: " + technologies
    + "\n   GitHub: " + UrlText(Member(project, "github_url"), style)
    + "\n   Live Demo: " + UrlText(Member(project, "live_url"), style)
  }

  /** Every project's entry can be written. */
  predicate AllEntriesOk(projects: seq<Json>) {
    forall i :: 0 <= i < |projects| ==> EntryOk(projects[i])
  }

  /** The text of an entry, empty for one that throws. */
  function EntryText(project: Json, index: nat, style: UrlStyle): string {
    match ProjectEntry(project, index, style)
    case Ok(text) => text
    case Err(_) => ""
  }

  /** The entries of all projects, numbered by position. */
  function EntryTexts(projects: seq<Json>, style: UrlStyle): seq<string> {
    MapIndexed(projects, (p: Json, k: nat) => EntryText(p, k, style))
  }

  /** `f` applied to each item and its position. */
  function MapIndexed(xs: seq<Json>, f: (Json, nat) -> string): (r: seq<string>)
    ensures |r| == |xs|
  {
    if xs == [] then [] else MapIndexed(xs[..|xs| - 1], f) + [f(xs[|xs| - 1], |xs| - 1)]
  }

  lemma {:induction false} MapIndexedAt(xs: seq<Json>, f: (Json, nat) -> string, i: nat)
    requires i < |xs|
    ensures MapIndexed(xs, f)[i] == f(xs[i], i)
  {
    var n := |xs| - 1;
    if i < n {
      MapIndexedAt(xs[..n], f, i);
      assert xs[..n][i] == xs[i];
    }
  }

  lemma MapIndexedSnoc(xs: seq<Json>, f: (Json, nat) -> string, i: nat)
    requires i < |xs|
    ensures MapIndexed(xs[..i + 1], f) == MapIndexed(xs[..i], f) + [f(xs[i], i)]
  {
    assert xs[..i + 1][..i] == xs[..i];
  }

  /** Pieces of text written one after the other. */
  function Concat(pieces: seq<string>): string {
    if pieces == [] then "" else Concat(pieces[..|pieces| - 1]) + pieces[|pieces| - 1]
  }

  /** The projects' part of the CV, or the failure of an entry. */
  function ProjectsText(projects: seq<Json>, style: UrlStyle): Result<string> {
    if AllEntriesOk(projects) then Ok(Concat(EntryTexts(projects, style))) else Err(EngineError)
  }

  /** Projects are numbered from 1 in list order: the entry of the
      project at position `i` appears in the text, headed by `i + 1`. */
  lemma ProjectNumbered(projects: seq<Json>, style: UrlStyle, i: nat)
    requires ProjectsText(projects, style).Ok? && i < |projects|
    ensures exists before, after ::
      ProjectsText(projects, style).value == before + ProjectEntry(projects[i], i, style).value + after
    ensures ProjectEntry(projects[i], i, style).value[..|EntryStart(projects[i], i)|] == EntryStart(projects[i], i)
  {
    var p := projects[i];
    assert EntryOk(p);
    Prefix(EntryStart(p, i), FeaturedMark(p), EntryDetails(p, TechnologiesText(Member(p, "technologies")).value, style));
    ConcatHas(EntryTexts(projects, style), i);
    MapIndexedAt(projects, (p: Json, k: nat) => EntryText(p, k, style), i);
  }

  /** Each piece occurs in the concatenation. */
  lemma {:induction false} ConcatHas(pieces: seq<string>, i: nat)
    requires i < |pieces|
    ensures exists before, after :: Concat(pieces) == before + pieces[i] + after
  {
    var n := |pieces| - 1;
    var prev := Concat(pieces[..n]);
    if i < n {
      ConcatHas(pieces[..n], i);
      var before, after :| prev == before + pieces[..n][i] + after;
      Regroup(before, pieces[i], after, pieces[n]);
    } else {
      assert Concat(pieces) == prev + pieces[i] + "";
    }
  }

  lemma ConcatSnoc(pieces: seq<string>, piece: string)
    ensures Concat(pieces + [piece]) == Concat(pieces) + piece
  {
    assert (pieces + [piece])[..|pieces|] == pieces;
  }

  lemma Regroup(a: string, b: string, c: string, d: string)
    ensures a + b + c + d == a + b + (c + d)
  {
  }

  /** A featured project's title is followed by the marker. In the
      route's style a falsy URL reads `N/A` and a truthy one its text; in
      the hero's a missing URL reads `undefined`. */
  lemma EntryMarks(project: Json, index: nat, style: UrlStyle)
    requires ProjectEntry(project, index, style).Ok?
    ensures Truthy(Member(project, "featured")) ==>
      var marked := EntryStart(project, index) + " ⭐ FEATURED";
      ProjectEntry(project, index, style).value[..|marked|] == marked
    ensures style == NotAvailable ==>
      && UrlText(Member(project, "github_url"), style)
         == (if Truthy(Member(project, "github_url")) then Display(Member(project, "github_url").value) else "N/A")
      && UrlText(Member(project, "live_url"), style)
         == (if Truthy(Member(project, "live_url")) then Display(Member(project, "live_url").value) else "N/A")
    ensures style == AsIs ==>
      && (Member(project, "github_url") == None ==> UrlText(Member(project, "github_url"), style) == "undefined")
      && (Member(project, "live_url") == None ==> UrlText(Member(project, "live_url"), style) == "undefined")
  {
    var technologies := TechnologiesText(Member(project, "technologies")).value;
    var details := EntryDetails(project, technologies, style);
    assert ProjectEntry(project, index, style).value == EntryStart(project, index) + FeaturedMark(project) + details;
    Prefix(EntryStart(project, index), FeaturedMark(project), details);
  }

  /** Slicing a concatenation of three strings. */
  lemma Prefix(a: string, b: string, c: string)
    ensures (a + b + c)[..|a + b|] == a + b
    ensures (a + b + c)[|a|..] == b + c
    ensures (a + b + c)[..|a|] == a
  {
  }

  // ---------------------------------------------------------------------
  // The whole CV
  // ---------------------------------------------------------------------

  const ProjectsHeading: string := "\n\nPROJECTS\n" + SingleRule

  /** The CV text, or the failure of one of its loops. */
  function CV(header: string, skills: seq<Json>, projects: seq<Json>, style: UrlStyle, footer: string): Result<string> {
    match SkillKeys(skills)
    case Err(f) => Err(f)
    case Ok(keys) =>
      match ProjectsText(projects, style)
      case Err(f) => Err(f)
      case Ok(entries) =>
        Ok(Append(header, Rows(Grouping.Categories(keys), keys, skills)) + ProjectsHeading + entries + footer)
  }

  /** Without skills and projects the CV is the header, the PROJECTS
      heading and the footer. */
  lemma NothingListed(header: string, style: UrlStyle, footer: string)
    ensures CV(header, [], [], style, footer) == Ok(header + ProjectsHeading + footer)
  {
    var none: seq<Json> := [];
    var noKeys: seq<string> := [];
    assert SkillKeys(none) == Ok(noKeys);
    assert Grouping.Categories(noKeys) == [];
    assert Rows([], noKeys, none) == [];
    assert Append(header, []) == header;
    assert AllEntriesOk(none);
    assert EntryTexts(none, style) == [];
    assert Concat([]) == "";
    assert ProjectsText(none, style) == Ok("");
    var top := header + ProjectsHeading;
    assert CV(header, none, none, style, footer) == Ok(top + "" + footer);
    assert top + "" == top;
  }

  /** Writes the CV the way the source does, appending to the text in
      loops: file each skill under its category, then for each category
      its heading and one line per skill, then one entry per project. */
  method WriteCV(header: string, skills: seq<Json>, projects: seq<Json>, style: UrlStyle, footer: string)
    returns (r: Result<string>)
    ensures r == CV(header, skills, projects, style, footer)
  {
    var keys := CollectKeys(skills);
    if keys.Err? {
      return Err(EngineError);
    }
    var order, table := Grouping.GroupBy(keys.value, skills);
    forall k | k in order
      ensures k in table && table[k] == Grouping.Members(keys.value, skills, k)
    {
      Grouping.CategoriesAreKeys(keys.value, k);
    }
    var cv := WriteSkills(header, keys.value, skills, order, table);
    var entries := WriteProjects(projects, style);
    if entries.Err? {
      return Err(EngineError);
    }
    r := Ok(cv + ProjectsHeading + entries.value + footer);
  }

  /** The first loop: the property name of each skill, stopping at the
      first skill that makes the grouping throw. */
  method CollectKeys(skills: seq<Json>) returns (r: Result<seq<string>>)
    ensures r == SkillKeys(skills)
  {
    var keys: seq<string> := [];
    for i := 0 to |skills|
      invariant SkillKeys(skills[..i]) == Ok(keys)
    {
      assert skills[..i + 1][..i] == skills[..i];
      if !Groupable(skills[i]) {
        assert !Groupable(skills[..|skills|][i]);
        assert skills[..|skills|] == skills;
        return Err(EngineError);
      }
      keys := keys + [CategoryKey(skills[i])];
    }
    assert skills[..|skills|] == skills;
    return Ok(keys);
  }

  /** `Object.entries(skillsByCategory).forEach(...)`: each category's
      heading, then a line per skill filed under it. */
  method WriteSkills(header: string, keys: seq<string>, skills: seq<Json>, order: seq<string>, table: map<string, seq<Json>>)
    returns (cv: string)
    requires |keys| == |skills|
    requires forall k :: k in order ==> k in table && table[k] == Grouping.Members(keys, skills, k)
    ensures cv == Append(header, Rows(order, keys, skills))
  {
    cv := header;
    for j := 0 to |order|
      invariant cv == Append(header, Rows(order[..j], keys, skills))
    {
      var before := Rows(order[..j], keys, skills);
      var heading := Heading(order[j]);
      var group := table[order[j]];
      AppendSnoc(header, before, heading);
      cv := cv + RowText(heading);
      cv := WriteGroup(cv, group);
      AppendAll(header, before + [heading], ItemRows(group));
      RowsSnoc(order, j, keys, skills);
    }
    assert order[..|order|] == order;
  }

  /** `categorySkills.forEach(...)`: one line per skill. */
  method WriteGroup(text: string, group: seq<Json>) returns (cv: string)
    ensures cv == Append(text, ItemRows(group))
  {
    cv := text;
    for m := 0 to |group|
      invariant cv == Append(text, ItemRows(group[..m]))
    {
      ItemRowsSnoc(group, m);
      AppendSnoc(text, ItemRows(group[..m]), Item(group[m]));
      cv := cv + SkillLine(group[m]);
    }
    assert group[..|group|] == group;
  }

  lemma AppendSnoc(text: string, rows: seq<Row>, row: Row)
    ensures Append(text, rows + [row]) == Append(text, rows) + RowText(row)
  {
    assert (rows + [row])[..|rows|] == rows;
  }

  lemma {:induction false} AppendAll(text: string, a: seq<Row>, b: seq<Row>)
    ensures Append(text, a + b) == Append(Append(text, a), b)
  {
    if b == [] {
      assert a + b == a;
    } else {
      var n := |b| - 1;
      var rest, last := b[..n], b[n];
      assert a + b == (a + rest) + [last];
      assert b == rest + [last];
      AppendSnoc(text, a + rest, last);
      AppendAll(text, a, rest);
      AppendSnoc(Append(text, a), rest, last);
    }
  }


  lemma ItemRowsSnoc(group: seq<Json>, m: nat)
    requires m < |group|
    ensures ItemRows(group[..m + 1]) == ItemRows(group[..m]) + [Item(group[m])]
  {
  }

  lemma RowsSnoc(order: seq<string>, j: nat, keys: seq<string>, skills: seq<Json>)
    requires j < |order| && |keys| == |skills|
    ensures Rows(order[..j + 1], keys, skills)
         == Rows(order[..j], keys, skills) + [Heading(order[j])] + ItemRows(Grouping.Members(keys, skills, order[j]))
  {
    assert order[..j + 1][..j] == order[..j];
  }

  /** `projects?.forEach((project, index) => ...)`: one entry per project,
      stopping at the first one that throws. */
  method WriteProjects(projects: seq<Json>, style: UrlStyle) returns (r: Result<string>)
    ensures r == ProjectsText(projects, style)
  {
    var text := "";
    for i := 0 to |projects|
      invariant AllEntriesOk(projects[..i]) && text == Concat(EntryTexts(projects[..i], style))
    {
      if !EntryOk(projects[i]) {
        return Err(EngineError);
      }
      var entry := EntryText(projects[i], i, style);
      EntriesOkGrow(projects, i);
      MapIndexedSnoc(projects, (p: Json, k: nat) => EntryText(p, k, style), i);
      ConcatSnoc(EntryTexts(projects[..i], style), entry);
      text := text + entry;
    }
    assert projects[..|projects|] == projects;
    return Ok(text);
  }

  lemma EntriesOkGrow(projects: seq<Json>, i: nat)
    requires i < |projects| && AllEntriesOk(projects[..i]) && EntryOk(projects[i])
    ensures AllEntriesOk(projects[..i + 1])
  {
    assert forall k :: 0 <= k < i ==> projects[..i + 1][k] == projects[..i][k];
  }
}

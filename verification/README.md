# Portfolio site: a verified model of its data logic

The site is a DevOps engineer's portfolio. It has:

- a Next.js front end;
- a handful of Next.js API routes;
- a small FastAPI backend.

Beneath the markup and animations sits one shared document:
`{ personalInfo, projects, skills, themeSettings }`. Several parts of
the site move that document around:

- **the admin panel** edits it in memory. It adds, updates and deletes
  projects and skills, loads the document from the backend or from the
  browser's `localStorage`, and saves it to both.
- **the data hook** (`usePortfolioData`) shows the cached copy first,
  then asks the backend. It falls back to built-in defaults when that fails.
- **the Python backend** serves the document. It also serves a single
  project, the skills grouped by category, and counts.
- **the API routes** forward saves, contact messages and project lists to
  the backend, with a soft fallback when it is down.
- **the CV generators** (the `/api/cv` route and the hero section's
  download button) write the document as a plain-text CV with a derived
  file name.
- **the skills and projects sections** pick what to show from what they
  receive.

The model follows the source's own forms:

- State that the source updates in place is a `class`:
  - the admin panel (`AdminPanel.Panel`);
  - the data hook (`PortfolioHook.Loader`);
  - the projects section (`ProjectsSection.Section`).
  
  Each method is proved against a function of the old state.
- Loops that fill a table or grow a string are `method`s with loop
  invariants, proved equal to a recursive specification:
  - `Grouping.GroupBy`;
  - `CvText.WriteCV`, `CvText.WriteSkills` and `CvText.WriteProjects`;
  - `Backend.GetSkills`;
  - `SkillsSection.SkillCategories`.
- The route handlers and the other pure decisions are total functions
  from the parsed request and the backend's outcome to the response.

Documents are the `JsonValues.Json` datatype. An object keeps its members
in insertion order, and a lookup returns the last member with the key,
as `JSON.parse` does. `JsonText` gives `JSON.stringify` and a parser, and
proves that any well-formed document, printed compactly or indented,
parses back to itself.

The following become inputs:

- **`fetch`**: a `Fetched` value, either `Replied(Reply(ok, body))` or
  `Unreachable`.
- **`localStorage`**: a `map<string, string>`.
- **the clock**: a `now`/`date` string.
- **`Date.now()` ids**: an `id` parameter.

## Model

| member | source | states |
|---|---|---|
| JsonValues.Lookup | app/admin/page.tsx:113-116 | a member read is absent exactly when no member has the key, and otherwise is the value of some member with that key |
| JsonValues.LookupDistinct | app/admin/page.tsx:113-116 | in an object with distinct keys, reading a member's key gives that member's value |
| JsonValues.Assign | app/admin/page.tsx:470 | `{ ...draft, key: value }` replaces the member in place if the key is there and appends it otherwise; all other members are unchanged |
| JsonValues.AssignThenLookup | app/admin/page.tsx:470 | after `{ ...o, key: value }` the key reads `value`, every other key reads as before, and distinct keys stay distinct |
| JsonValues.Replace | hooks/use-portfolio-data.ts:77-78 | overwriting a member keeps the length and changes exactly the members with that key |
| JsonValues.ReplaceThenLookup | hooks/use-portfolio-data.ts:77-78 | after overwriting a present key it reads the new value; other keys are unaffected |
| JsonValues.Get | app/api/cv/route.ts:38 | `v.key` throws exactly when `v` is `undefined` or `null` |
| JsonValues.OrText | app/api/cv/route.ts:59-63 | `` `${v \|\| "N/A"}` `` shows the value when truthy and the fallback otherwise |
| JsonValues.DisplayStringItems | app/api/cv/route.ts:95 | `technologies.join(", ")` of an array of strings is the strings joined by the separator |
| JsonText.ParsePrint | scripts/fastapi_backend.py:81-89 | any well-formed document printed with any indentation gap parses back to itself |
| JsonText.ParseWellFormed | app/api/admin/save/route.ts:5 | every document the parser accepts is well formed: no object in it, at any depth, repeats a member name |
| JsonText.ParseStringify | app/admin/page.tsx:158-161 | `JSON.parse(JSON.stringify(v))` gives back `v` for every well-formed document |
| Storage.Saved | app/admin/page.tsx:124-132 | `if (localStorage.getItem(key))`: the entry counts exactly when it exists and is not empty |
| Storage.Store | app/admin/page.tsx:158-161 | the four `setItem` calls write exactly the four portfolio keys and leave every other entry alone |
| Storage.StoredText | app/admin/page.tsx:158-161 | a stored document is never the empty string and reads back as itself |
| Storage.UndefinedUnreadable | hooks/use-portfolio-data.ts:98-101 | a stored `undefined` is a non-empty entry that `JSON.parse` rejects |
| Text.NatToString | app/api/cv/route.ts:84 | the decimal numeral of a level is non-empty, all digits, has no leading zero and denotes the number |
| Text.IntToString | app/api/cv/route.ts:84 | negative levels print with a leading minus before the numeral of their magnitude |
| Text.ReplaceWhitespaceRuns | app/api/cv/route.ts:38 | `replace(/\s+/g, "_")` never lengthens the text and leaves no whitespace |
| Text.ReplaceKeepsPlainText | app/api/cv/route.ts:38 | a name without whitespace is unchanged |
| Text.ReplaceNonEmpty | app/api/cv/route.ts:38 | a non-empty name never replaces to nothing |
| Text.ReplaceIsIdempotent | app/api/cv/route.ts:38 | replacing twice is replacing once |
| Text.ReplaceSplitsAtRun | app/api/cv/route.ts:38 | a maximal whitespace run between two pieces of text becomes exactly one `_` |
| Text.JoinWords | app/api/cv/route.ts:38 | `"First Last"` becomes `"First_Last"` |
| Text.Trim | app/admin/page.tsx:433 | `trim()` is the middle slice of the text, with only whitespace cut off before and after it, and neither starts nor ends with whitespace |
| Text.TrimKeeps | app/admin/page.tsx:433 | text without whitespace at its ends is its own trim |
| Text.TwoWords | app/admin/page.tsx:434 | `split(/\s+/)` of two words separated by a whitespace run gives exactly those two words |
| Text.ToUpper | app/admin/page.tsx:438 | upper-casing keeps the length and maps each character |
| Grouping.GroupBy | app/api/cv/route.ts:73-79 | the loop that fills a category table yields the categories in first-appearance order, a table whose keys are exactly the categories, and each category's items in their original order |
| Grouping.CategoriesDistinct | app/api/cv/route.ts:81 | no category is listed twice |
| Grouping.CategoriesAreKeys | app/api/cv/route.ts:81 | a category is listed exactly when some item carries it |
| Grouping.CategoriesFirstAppearance | app/api/cv/route.ts:73-81 | a category first seen at position j is appended after every category seen before j |
| Grouping.MembersCount | app/api/cv/route.ts:78 | a category's group holds as many items as there are items with that category |
| Grouping.MembersFrom | app/api/cv/route.ts:78 | every entry of a group is an item of that category |
| Grouping.GroupsPartition | app/api/cv/route.ts:73-86 | the groups, read in category order, are a permutation of the items: every item appears exactly once |
| Grouping.CategoriesBound | scripts/fastapi_backend.py:334 | there are never more categories than items |
| Grouping.GroupCount | scripts/fastapi_backend.py:334 | the number of categories is the number of distinct category values |
| Portfolio.PersonalInfoMembers | app/admin/page.tsx:68-79 | the owner's details: name "Alex Kumar", title "DevOps Engineer", the given description, avatar "AK" |
| Portfolio.SnapshotMembers | app/api/projects/route.ts:20-93 | a default document has the given personal info, projects and skills and the default theme, with distinct keys |
| Portfolio.DefaultProjectIds | components/projects.tsx:60-94 | the three sample projects have ids "1", "2", "3"; the first and third are featured |
| Portfolio.DefaultSkillLevels | components/skills.tsx:78-95 | there are 16 default skills, all with levels between 0 and 100 |
| Backend.PyGet | scripts/fastapi_backend.py:222 | `d.get(key, default)` fails on a non-dict, gives the default for a missing key and the value otherwise |
| Backend.Subscript | scripts/fastapi_backend.py:242 | `d[key]` succeeds exactly on a dict that has the key |
| Backend.FirstWithId | scripts/fastapi_backend.py:223 | `next(...)` returns the first project whose id matches; it returns None exactly when every project has another id, and raises when a project before any match has no id |
| Backend.GetProjectOutcome | scripts/fastapi_backend.py:217-230 | the endpoint answers the first match with 200, 404 exactly when no project has the id, and 500 when the data cannot be searched |
| Backend.FoundOutcome | scripts/fastapi_backend.py:224 | a project that matched is truthy, so `if not project` never rejects a found project |
| Backend.SkillEntries | scripts/fastapi_backend.py:241-248 | every skill yields its category key and a `{name, level}` entry, or the loop fails at a skill without them |
| Backend.GetSkills | scripts/fastapi_backend.py:232-254 | the result is keyed by exactly the skills' categories, in first-appearance order, each mapped to its skills' `{name, level}` entries in order; it fails exactly when a skill cannot be read |
| Backend.SkillGroupsPartition | scripts/fastapi_backend.py:240-248 | every skill's entry appears exactly once across the categories |
| Backend.SkillGroupEntry | scripts/fastapi_backend.py:245-248 | every entry of a category's list is the `{name, level}` of a skill of that category |
| Backend.FeaturedCount | scripts/fastapi_backend.py:332 | the featured count is computed exactly when every project is a dict, is at most the number of projects, and is the number of positions holding a dict whose `featured` is truthy |
| Backend.CategoryKeys | scripts/fastapi_backend.py:334 | every skill's category is read and hashed, or the comprehension fails |
| Backend.StatsBounds | scripts/fastapi_backend.py:331-334 | featuredProjects ≤ totalProjects, and skillCategories ≤ totalSkills and equals the number of distinct categories |
| Backend.StatsMatchSkills | scripts/fastapi_backend.py:240-248 | `/api/stats` and `/api/skills` group by the same keys, so the category count is the number of groups `/api/skills` returns |
| Backend.LoadWritten | scripts/fastapi_backend.py:79-89 | a stored file, compact or indented, loads as the document it holds; no file loads the default data |
| Backend.DefaultDataContent | scripts/fastapi_backend.py:103-173 | the default data has the long description, the three sample projects, the 16 skills and `lastUpdated` set to the clock |
| Backend.DefaultProjectLookup | scripts/fastapi_backend.py:217-226 | on the default data project "2" is found and project "7" is a 404 |
| SaveRoute.PostOutcome | app/api/admin/save/route.ts:3-57 | backend ok means saved permanently with the answer attached; backend down means still `success: true` with the local-save message; an unreadable request means 500; `success` is false exactly in the 500 case |
| SaveRoute.PostForwards | app/api/admin/save/route.ts:9-15 | exactly one POST is sent when the request can be read, and the backend reads back the same document |
| ContactRoute.PostOutcome | app/api/contact/route.ts:3-45 | 500 exactly for an unreadable or `null` body; 400 exactly when a field is falsy, and then nothing is sent; 200 otherwise, with the backend's message when it accepts and "Message sent successfully" when it does not |
| ContactRoute.PostForwardsFields | app/api/contact/route.ts:6-20 | a message is forwarded only when all four fields are truthy, and the backend reads back exactly those four fields |
| ProjectsRoute.Get | app/api/projects/route.ts:3-97 | always a 200: the backend's document unchanged when it answers ok, the default document otherwise |
| ProjectsRoute.GetFallback | app/api/projects/route.ts:17-95 | the fallback is an object with the three sample projects (ids "1", "2", "3") and the 16 skills |
| ProjectsRoute.PostOutcome | app/api/projects/route.ts:99-126 | the backend's answer when it is ok; otherwise `success: false` "Backend not available - data saved locally only"; the document is forwarded unchanged |
| CvText.NameText | app/api/cv/route.ts:49-50 | `personalInfo?.name \|\| fallback` gives the fallback for a falsy name, fails for a truthy non-string (no `toUpperCase`), and is the name otherwise |
| CvText.HeaderStart | app/api/cv/route.ts:52-55 | the CV opens with a newline, the upper-cased name, the title and a rule of 50 `=` |
| CvText.ForEachItems | app/api/cv/route.ts:74 | `skills?.forEach` runs over an array, does nothing for a missing or `null` list, and throws otherwise |
| CvText.SkillKeys | app/api/cv/route.ts:74-79 | the grouping succeeds exactly when every skill can be grouped, and gives each skill's category key |
| CvText.SkillSection | app/api/cv/route.ts:81-86 | the skill lines list each category heading once, in first-appearance order, followed by exactly its skills in their order; together they hold every skill exactly once |
| CvText.TechnologiesText | app/api/cv/route.ts:95 | the technologies joined with ", "; "N/A" when the field is missing, null, or an array whose join is empty; it fails for a value that has no `join` |
| CvText.ProjectEntry | app/api/cv/route.ts:91-97 | a project entry can be written exactly when the project can be read |
| CvText.ProjectNumbered | app/api/cv/route.ts:91-92 | project i appears in the text, and its entry starts with its number i + 1 and its title |
| CvText.EntryMarks | app/api/cv/route.ts:93-97 | a featured project carries " ⭐ FEATURED"; in the route's style the GitHub and live URLs each print their text when truthy and "N/A" when falsy; in the hero's style a missing URL prints `undefined` |
| CvText.WriteCV | app/api/cv/route.ts:47-106 | the loops that grow the CV produce the specified text: header, grouped skills, numbered projects, footer |
| CvText.WriteSkills | app/api/cv/route.ts:81-86 | the category loop appends each heading and its skill lines in order |
| CvText.WriteProjects | app/api/cv/route.ts:91-98 | the project loop appends the numbered entries, or fails at the first project that cannot be read |
| CvText.NothingListed | app/api/cv/route.ts:69-103 | with no skills and no projects the CV is the header, the projects heading and the footer |
| CvRoute.HeaderOf | app/api/cv/route.ts:48-70 | the header fails exactly when the name is truthy but not a string |
| CvRoute.HeaderFallbacks | app/api/cv/route.ts:49-67 | for any record the header carries the truthy name or "Alex Kumar", the title or "DevOps Engineer", each contact line with the member's text or `N/A`, and the description or the route's own summary |
| CvRoute.MissingEmail | app/api/cv/route.ts:59 | a record without a truthy email gives the line `Email: N/A` |
| CvText.ContactLines | app/api/cv/route.ts:57-63 | each contact detail stands on its own line after its label |
| CvRoute.GenerateCVContent | app/api/cv/route.ts:47-106 | the method writes exactly the specified CV of the document |
| CvRoute.Filename | app/api/cv/route.ts:38 | the file name is the name with each whitespace run replaced by `_`, followed by `_CV.txt`; it exists exactly when the name is a string |
| CvRoute.FilenameShape | app/api/cv/route.ts:38 | the file name has no whitespace and ends in `_CV.txt` |
| CvRoute.EmptyName | app/api/cv/route.ts:38 | an empty name gives the file `_CV.txt`, while the CV shows "Alex Kumar" |
| CvRoute.GetOutcome | app/api/cv/route.ts:3-45 | a download is sent exactly when the backend replied, both the CV and the file name could be written from its document, and the file name fits in a header (no character above U+00FF, no NUL); otherwise the answer is the 500 error |
| CvRoute.FallbackMembers | app/api/cv/route.ts:15-29 | the built-in record has the owner's details and empty projects and skills |
| CvRoute.InfoMembers | app/api/cv/route.ts:16-26 | the built-in personal info holds the owner's name, title, email, phone, location, links and description |
| CvRoute.FallbackDownload | app/api/cv/route.ts:11-40 | an error status downloads `Alex_Kumar_CV.txt` holding the built-in CV |
| CvRoute.EmptyLists | app/api/cv/route.ts:69-103 | with empty lists the CV has no skill lines and no project entries |
| Hero.HeaderOf | components/hero.tsx:122-147 | the header fails exactly when the name is truthy but not a string |
| Hero.HeaderFallbacks | components/hero.tsx:122-144 | for any record the header carries each truthy member's text and otherwise the owner's own detail: name, title, email, phone, location, GitHub and LinkedIn URLs and the short summary |
| Hero.MissingEmail | components/hero.tsx:124-136 | a record without a truthy email shows the owner's address `alex.kumar@example.com` |
| Hero.GenerateCVContent | components/hero.tsx:121-182 | the method writes exactly the specified CV, with URLs printed as they are |
| Hero.Filename | components/hero.tsx:113 | the download name fails only when a present name is not a string |
| Hero.FilenameShape | components/hero.tsx:113 | `Portfolio_CV.txt` for a missing or empty name, otherwise the name with whitespace runs replaced by `_` (or `Portfolio` if that is empty) followed by `_CV.txt` |
| Hero.DefaultHeader | components/hero.tsx:122-127 | without personal info, every field takes the owner's default |
| Hero.NoData | components/hero.tsx:105-113 | with no data at all the download is `Portfolio_CV.txt` with the default header and no entries |
| SkillsSection.SkillsToUse | components/skills.tsx:75-97 | the data's skills when they are a non-empty array, the 16 defaults otherwise |
| SkillsSection.Entries | components/skills.tsx:103-106 | each entry keeps only the skill's name and level |
| SkillsSection.SkillCategories | components/skills.tsx:99-107 | the loop yields the categories in first-appearance order, each with its skills' entries in order, or fails exactly when a skill cannot be grouped |
| SkillsSection.GroupsPartition | components/skills.tsx:99-107 | every skill in use appears exactly once over all categories, and the number of groups is the number of distinct categories |
| SkillsSection.EntryFromSkill | components/skills.tsx:103-106 | each entry of a category is the name and level of a skill of that category |
| SkillsSection.DefaultsGroupable | components/skills.tsx:78-95 | the default skills can always be grouped |
| ProjectsSection.Loaded | components/projects.tsx:33-58 | the projects are the reply's body when it is an ok array, and the three samples in every other case |
| ProjectsSection.Section.FetchProjects | components/projects.tsx:33-58 | sets the projects as specified; only a failed request sets the demo notice; loading always ends |
| ProjectsSection.SafeProjects | components/projects.tsx:162 | the array itself when it is one, else the empty list |
| ProjectsSection.RenderedList | components/projects.tsx:162 | what is rendered is always the loaded list: the reply's items, or the three samples |
| ProjectsSection.IconsDistinct | components/projects.tsx:111-121 | the three keys get three distinct icons; the default icon is given exactly to every other value |
| ProjectsSection.SampleIcons | components/projects.tsx:60-121 | the three sample cards show the three different icons in order |
| ProjectsSection.AlwaysSamples | components/projects.tsx:40-44 | since `/api/projects` answers with a whole document, the section always shows the samples |
| PortfolioHook.ArrayOr | hooks/use-portfolio-data.ts:77-78 | the guard always yields an array, and the value itself when it is one |
| PortfolioHook.Hydration | hooks/use-portfolio-data.ts:63-81 | nothing is shown from the cache unless all four entries are present |
| PortfolioHook.Guard | hooks/use-portfolio-data.ts:92-93 | guarding a member makes it an array and leaves the other members alone |
| PortfolioHook.Received | hooks/use-portfolio-data.ts:89-93 | an answer can be guarded exactly when it is an object or an array |
| PortfolioHook.Remote | hooks/use-portfolio-data.ts:84-104 | a failed request raises the engine's error, a non-ok reply raises "Failed to fetch portfolio data", and an ok reply is the guarded answer |
| PortfolioHook.Loader.LoadPortfolioData | hooks/use-portfolio-data.ts:57-138 | one load leaves the data, error, cache, request flag and shown data that `Load` specifies, and loading is false on every path |
| PortfolioHook.Loader.ShowCached | hooks/use-portfolio-data.ts:63-81 | shows the cached document when it is complete and readable, and fails before the request when an entry cannot be read |
| PortfolioHook.Loader.Refetch | hooks/use-portfolio-data.ts:84-104 | a good answer replaces the data and rewrites the cache; a failure changes neither |
| PortfolioHook.CacheFirst | hooks/use-portfolio-data.ts:68-81 | the cache is shown exactly when all four entries are present and readable, with its lists as arrays; an incomplete cache shows the data as it was |
| PortfolioHook.ReceivedArrays | hooks/use-portfolio-data.ts:92-93 | an ok answer is exposed with both lists as arrays and every other member as received |
| PortfolioHook.GoodAnswer | hooks/use-portfolio-data.ts:88-101 | an ok answer is requested, clears the error, becomes the data and rewrites all four entries, each reading back as the matching part of the answer |
| PortfolioHook.CacheRoundTrip | hooks/use-portfolio-data.ts:63-101 | after a good answer with all four parts, the next load shows those parts from the cache |
| PortfolioHook.MissingThemePoisons | hooks/use-portfolio-data.ts:70-101 | an answer without `themeSettings` stores the text `undefined`, so the next load fails before it asks again |
| PortfolioHook.NotOkLikeFailure | hooks/use-portfolio-data.ts:102-104 | a non-ok reply is handled exactly like a failed request; only the error text differs |
| PortfolioHook.UnreadableCache | hooks/use-portfolio-data.ts:70-105 | an unreadable entry throws before the fetch: no request is made, the error is set and the cache is untouched |
| PortfolioHook.FailureFallback | hooks/use-portfolio-data.ts:105-134 | on failure the defaults are installed exactly when the captured `data` is null; otherwise what was shown stays |
| PortfolioHook.ErrorIffFailed | hooks/use-portfolio-data.ts:59-107 | the error is cleared exactly by a load whose cache read and request both succeed |
| PortfolioHook.DefaultsContent | hooks/use-portfolio-data.ts:111-132 | the defaults are the owner's details ("Alex Kumar"), no projects, no skills and the default theme |
| AdminPanel.Or | app/admin/page.tsx:208-214 | `v \|\| fallback`: the value when truthy, the fallback otherwise |
| AdminPanel.FromAnswer | app/admin/page.tsx:113-116 | each part is replaced by the answer's member when that member is truthy and kept otherwise |
| AdminPanel.Restore | app/admin/page.tsx:129-132 | a stored part is restored when it can be read; an absent or empty entry keeps the part; an unreadable one throws |
| AdminPanel.Panel.constructor | app/admin/page.tsx:68-94 | the panel starts with the owner's details, empty lists, the default theme, no dialog, empty drafts and loading |
| AdminPanel.Panel.LoadData | app/admin/page.tsx:102-144 | the parts and toast after a load are exactly `LoadOutcome`; the cache, drafts and dialog are untouched; loading ends |
| AdminPanel.Panel.TakeAnswer | app/admin/page.tsx:111-121 | each truthy part of the answer is set, and nothing else changes |
| AdminPanel.Panel.RestoreFromCache | app/admin/page.tsx:122-133 | the stored parts are restored in order until one cannot be read, in which case the warning is shown |
| AdminPanel.LoadFromAnswer | app/admin/page.tsx:111-121 | an ok answer overwrites exactly the parts it has a truthy value for and shows "Data Loaded" |
| AdminPanel.LoadFromCache | app/admin/page.tsx:122-133 | without an ok answer each stored part replaces its part and absent entries keep theirs |
| AdminPanel.RestoreStored | app/admin/page.tsx:129-132 | a stored part is restored as the value that was stored; an absent one keeps the current value |
| AdminPanel.SaveLocally | app/admin/page.tsx:158-161 | the four entries hold the JSON text of the current parts, and every other entry of the storage is kept |
| AdminPanel.Panel.SaveData | app/admin/page.tsx:146-194 | writes the four entries from the current parts, sends the whole document, shows the toast `SaveToast` picks and ends saving; the parts are unchanged |
| AdminPanel.SaveToast | app/admin/page.tsx:170-190 | the toast is one of "Success!", "Partial Success" or "Error" |
| AdminPanel.SaveOutcomes | app/admin/page.tsx:170-190 | "Success!" exactly when the answer's `success` is truthy; a falsy one gives "Partial Success" shown as an error; an unreachable route or a `null` answer gives "Error" |
| AdminPanel.SaveWritesFirst | app/admin/page.tsx:157-167 | whatever the request does, the four entries hold the parts, and the request body reads back as the document |
| AdminPanel.SaveThenLoad | app/admin/page.tsx:124-161 | saving and then loading without the backend gives back exactly the saved parts |
| AdminPanel.SaveThroughRoute | app/admin/page.tsx:164-176 | through the save route, a save always ends with "Success!", because the route answers `success: true` whether or not the backend is up |
| AdminPanel.Spread | app/admin/page.tsx:217 | `[...v]` works on arrays (their items) and strings, and throws otherwise |
| AdminPanel.NewProject | app/admin/page.tsx:206-215 | the new project is a record with eight distinct members |
| AdminPanel.NewProjectFields | app/admin/page.tsx:206-215 | the new project has the given id and the draft's title and description, with defaults technologies [], URLs "", image "default" and featured false |
| AdminPanel.EmptyDraftProject | app/admin/page.tsx:206-215 | an empty draft builds the project with every default |
| AdminPanel.Panel.AddProject | app/admin/page.tsx:196-223 | a falsy title or description leaves the projects and the draft unchanged and shows the error toast; otherwise exactly one new project is appended after the existing ones and the draft is reset; a project list that cannot be spread throws and changes nothing |
| AdminPanel.Updated | app/admin/page.tsx:226 | the map keeps the length, replaces every entry with the updated id and keeps every other entry; it throws on a `null` entry |
| AdminPanel.Panel.UpdateProject | app/admin/page.tsx:225-232 | the projects become the mapped list and the dialog closes |
| AdminPanel.Without | app/admin/page.tsx:235 | for any id, including a number or a missing one, the filter keeps exactly the projects whose id differs, and keeps everything when none matches |
| AdminPanel.Deleted | app/admin/page.tsx:235 | deleting works on an array without `null` entries and is the filter |
| AdminPanel.WithoutSplits | app/admin/page.tsx:235 | filtering distributes over concatenation, so the kept projects stay in their relative order |
| AdminPanel.WithoutRemovesOnly | app/admin/page.tsx:235 | no project with the id remains, every other project remains, and the length drops by the number of matches |
| AdminPanel.WithoutCount | app/admin/page.tsx:235 | the kept and the removed projects add up to the whole list |
| AdminPanel.Panel.DeleteProject | app/admin/page.tsx:234-240 | for the id of any listed project the projects become the filtered list with the success toast; a list that cannot be filtered throws and changes nothing |
| AdminPanel.DeleteListed | app/admin/page.tsx:546 | the delete button removes its own project and every project sharing its id; for a project without an id, every project without one |
| AdminPanel.NewSkill | app/admin/page.tsx:252-256 | the new skill is a record of three members |
| AdminPanel.NewSkillFields | app/admin/page.tsx:252-256 | the new skill carries the draft's name, level and category |
| AdminPanel.LevelZeroRefused | app/admin/page.tsx:243 | level 0 is falsy, so the skill is refused |
| AdminPanel.Panel.AddSkill | app/admin/page.tsx:242-264 | a falsy name, level or category changes nothing and shows the error toast; otherwise exactly one new skill is appended and the draft is reset; a skill list that cannot be spread throws and changes nothing |
| AdminPanel.DropIndex | app/admin/page.tsx:267 | exactly position i is removed when it is in range; otherwise the list is unchanged |
| AdminPanel.DropIndexShape | app/admin/page.tsx:267 | the rest keep their order and the list is one shorter in range |
| AdminPanel.Panel.DeleteSkill | app/admin/page.tsx:266-272 | the skills become the list without position i |
| AdminPanel.Panel.EditProjectDraft | app/admin/page.tsx:470 | a form field sets one member of the project draft |
| AdminPanel.Panel.EditSkillDraft | app/admin/page.tsx:587 | a form field sets one member of the skill draft |
| AdminPanel.FirstTwo | app/admin/page.tsx:437 | `substring(0, 2)` is the prefix of length at most 2 |
| AdminPanel.Initials | app/admin/page.tsx:432-438 | the initials are at most two characters |
| AdminPanel.Avatar | app/admin/page.tsx:430-439 | the avatar text when it is not empty; otherwise the initials of the name; "AK" when the name is empty |
| AdminPanel.TwoInitials | app/admin/page.tsx:432-438 | two words separated by any whitespace give the upper-cased first letters of both |
| AdminPanel.OwnerInitials | app/admin/page.tsx:430-439 | the owner's name "Alex Kumar" gives "AK" |
| AdminPanel.BlankName | app/admin/page.tsx:430-439 | a name of whitespace only shows an empty avatar |
| AdminPanel.InitialsUpper | app/admin/page.tsx:438 | the initials contain no ASCII lower-case letter (a-z) |

## Left out

- The JSX, animations, scroll effects, toast rendering and theme toggling carry no state worth stating. Toasts are returned as values.
- Concurrency is not modelled. Each load, save and fetch is one atomic step: responses arriving out of order, storage shared between tabs and the refresh-while-loading race are outside the model.
- `response.json()` is assumed to succeed. Every answer is already a parsed JSON document. The routes that relay a reply therefore cannot fail while reading it.
- The backend's file I/O is not modelled. The file's text is an `Option<string>` input. Writing the file, `save_portfolio_data` and the contact-message store are not part of this model.
- The engine's error texts (`error.message`, `str(e)`) are one `engineMessage` parameter. Messages that depend on the exception's kind are not modelled.
- `averageSkillLevel` is a floating-point division and is not modelled. The statistics record holds only its integer fields.
- Numbers are integers. Fractions, exponents and `NaN` are not modelled. A `NaN` level is therefore represented as a missing level, which is falsy in the same way.
- JavaScript orders integer-like object keys (`"1"`, `"2"`) before the other keys. The model keeps every key in insertion order, so a category named by a numeral is listed where it first appears.
- `toUpperCase` is modelled for ASCII letters only. Other characters are left as they are.
- The parser reads the JSON the site writes, in the layout `JSON.stringify` produces. Exponents, fractions and surrogate pairs (`\ud83d\ude00`) are not read; any other `\uXXXX` escape is decoded.
- Backend.LoadPortfolioData: the file is read with the parser above. `json.dump(..., indent=2)` escapes every non-ASCII character and writes a character above U+FFFF as a surrogate pair. For a file holding such a character (an emoji, say), the model therefore gives the default data, where the backend would read the file.
- The admin panel's `exportData` and `importData`, its theme controls and the edit dialog's field handlers are not part of this model. The project dialog's result is the `updated` argument of `UpdateProject`.
- Project ids are compared by value. JavaScript `===` on two object ids would compare references.
- Arrays in the model are plain lists. Extra properties set on an array object (`arr.projects = ...`) are not kept.
- AdminPanel.Avatar: only string avatars and names are modelled. A non-string value would take JavaScript's string conversion.
- Text.Words: its contract only says the list is non-empty. The shape of `split(/\s+/)` is stated for the cases the avatar needs: two words (Text.TwoWords) and blank text.
- AdminPanel.Initials: the contract states only the length bound. The exact initials are proved for two-word names (AdminPanel.TwoInitials) and for blank names (AdminPanel.BlankName). Strings in the model are sequences of code points, and `charAt(0)` and `substring(0, 2)` are modelled as if no character lay above U+FFFF. JavaScript counts UTF-16 units: for a word starting with such a character (`𠮷`, an emoji), `charAt(0)` is a lone high surrogate, and `substring(0, 2)` keeps just that one character. A lone surrogate is not a value of Dafny's `char`, so the model cannot show it.
- AdminPanel.InitialsUpper: only the ASCII letters a-z are excluded. Upper-casing is ASCII-only in the model, so a name starting with `é` keeps the lower-case `é` in its initials, where `toUpperCase` gives `É`.
- AdminPanel.FirstTwo: `substring(0, 2)` is modelled as the first two code points. When the text starts with a character above U+FFFF, the source keeps only that character.
- AdminPanel.TwoInitials: the initials it states are the first code points of the two words. When a word starts with a character above U+FFFF, the source shows its high surrogate instead.

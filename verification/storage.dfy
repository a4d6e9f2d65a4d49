/**
  The browser's `localStorage` as the site uses it: four entries holding
  the four parts of the portfolio document as JSON text, written by the
  admin panel and by the data hook and read back by both.
 */
module Storage {
  import opened JsonValues
  import JsonText

  const PersonalKey: string := "portfolio_personal_info"
  const ProjectsKey: string := "portfolio_projects"
  const SkillsKey: string := "portfolio_skills"
  const ThemeKey: string := "portfolio_theme"

  /** `localStorage.getItem(key)` used as a condition: the entry counts
      only when it exists and is not the empty string. */
  function Saved(cache: map<string, string>, key: string): (r: Option<string>)
    ensures r.Some? <==> key in cache && cache[key] != ""
    ensures r.Some? ==> r.value == cache[key]
  {
    if key in cache && cache[key] != "" then Some(cache[key]) else None
  }

  /** `localStorage.setItem(key, JSON.stringify(v))`: `JSON.stringify`
      of `undefined` is `undefined`, which `setItem` stores as the text
      `undefined`. */
  function CacheText(v: Option<Json>): string {
    if v.None? then "undefined" else JsonText.Stringify(v.value)
  }

  /** The four `setItem` calls, in the order the code makes them. */
  function Store(cache: map<string, string>, personal: string, projects: string, skills: string, theme: string)
    : (r: map<string, string>)
    ensures r.Keys == cache.Keys + {PersonalKey, ProjectsKey, SkillsKey, ThemeKey}
    ensures r[PersonalKey] == personal && r[ProjectsKey] == projects
    ensures r[SkillsKey] == skills && r[ThemeKey] == theme
    ensures forall k :: k in cache && k !in {PersonalKey, ProjectsKey, SkillsKey, ThemeKey} ==> r[k] == cache[k]
  {
    cache[PersonalKey := personal][ProjectsKey := projects][SkillsKey := skills][ThemeKey := theme]
  }

  /** A stored document is never the empty string and reads back as itself. */
  lemma StoredText(v: Json)
    requires WellFormed(v)
    ensures CacheText(Some(v)) != ""
    ensures JsonText.Parse(CacheText(Some(v))) == Some(v)
  {
    JsonText.ParseStringify(v);
    assert JsonText.Parse("") == None by {
      assert JsonText.SkipSpace("") == "";
    }
  }

  /** A stored `undefined` cannot be read back: `JSON.parse` throws on it. */
  lemma UndefinedUnreadable()
    ensures CacheText(None) != ""
    ensures JsonText.Parse(CacheText(None)) == None
  {
    var u := "undefined";
    assert JsonText.SkipSpace(u) == u;
    assert u[0] == 'u';
  }
}

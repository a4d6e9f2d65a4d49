/**
  The skills section of the page: the skills of the loaded data (or the
  sixteen sample skills when there are none), filed by category in order
  of first appearance, each kept as its name and level.
 */
module SkillsSection {
  import opened JsonValues
  import Grouping
  import CvText
  import Portfolio

  /** `{ name: skill.name, level: skill.level }`; either may be `undefined`. */
  datatype SkillEntry = SkillEntry(name: Option<Json>, level: Option<Json>)

  /** `Array.isArray(data?.skills) ? data.skills : []`, then the samples
      when that list is empty. */
  function SkillsToUse(data: Option<Json>): (r: seq<Json>)
    ensures IsArray(OptGet(data, "skills")) && OptGet(data, "skills").value.items != [] ==>
      r == OptGet(data, "skills").value.items
    ensures !IsArray(OptGet(data, "skills")) || OptGet(data, "skills").value.items == [] ==>
      r == Portfolio.DefaultSkills
  {
    var skills := if IsArray(OptGet(data, "skills")) then OptGet(data, "skills").value.items else [];
    if |skills| > 0 then skills else Portfolio.DefaultSkills
  }

  function EntryOf(skill: Json): (e: SkillEntry)
    ensures e.name == Member(skill, "name") && e.level == Member(skill, "level")
  {
    SkillEntry(Member(skill, "name"), Member(skill, "level"))
  }

  function Entries(skills: seq<Json>): (r: seq<SkillEntry>)
    ensures |r| == |skills| && forall i :: 0 <= i < |skills| ==> r[i] == EntryOf(skills[i])
  {
    seq(|skills|, i requires 0 <= i < |skills| => EntryOf(skills[i]))
  }

  /** The grouping the section renders: the categories in order and the
      entries of each, or the failure of the loop (a `null` skill, or a
      category named like a built-in property of objects). */
  method SkillCategories(data: Option<Json>) returns (r: Result<(seq<string>, map<string, seq<SkillEntry>>)>)
    ensures var skills := SkillsToUse(data);
      r.Ok? <==> CvText.SkillKeys(skills).Ok?
    ensures var skills := SkillsToUse(data);
      r.Ok? ==>
        var keys := CvText.SkillKeys(skills).value;
        && r.value.0 == Grouping.Categories(keys)
        && (forall k :: k in r.value.1 <==> k in keys)
        && (forall k :: k in r.value.1 ==> r.value.1[k] == Grouping.Members(keys, Entries(skills), k))
  {
    var skills := SkillsToUse(data);
    var keys := CvText.CollectKeys(skills);
    if keys.Err? {
      return Err(EngineError);
    }
    var order, table := Grouping.GroupBy(keys.value, Entries(skills));
    return Ok((order, table));
  }

  // ---------------------------------------------------------------------
  // Properties
  // ---------------------------------------------------------------------

  /** Every skill in use appears exactly once over all categories, and
      there are as many categories as distinct category names. */
  lemma GroupsPartition(data: Option<Json>)
    requires CvText.SkillKeys(SkillsToUse(data)).Ok?
    ensures var skills := SkillsToUse(data);
      var keys := CvText.SkillKeys(skills).value;
      && multiset(Grouping.Flatten(keys, Entries(skills), Grouping.Categories(keys))) == multiset(Entries(skills))
      && |Grouping.Categories(keys)| == |set k | k in keys|
      && Grouping.Distinct(Grouping.Categories(keys))
  {
    var skills := SkillsToUse(data);
    var keys := CvText.SkillKeys(skills).value;
    Grouping.GroupsPartition(keys, Entries(skills));
    Grouping.GroupCount(keys);
    Grouping.CategoriesDistinct(keys);
  }

  /** Each entry of a category comes from a skill of that category. */
  lemma EntryFromSkill(data: Option<Json>, k: string, m: nat)
    requires CvText.SkillKeys(SkillsToUse(data)).Ok?
    requires var skills := SkillsToUse(data);
      m < |Grouping.Members(CvText.SkillKeys(skills).value, Entries(skills), k)|
    ensures var skills := SkillsToUse(data);
      exists i :: 0 <= i < |skills| && CvText.CategoryKey(skills[i]) == k
        && EntryOf(skills[i]) == Grouping.Members(CvText.SkillKeys(skills).value, Entries(skills), k)[m]
  {
    var skills := SkillsToUse(data);
    var keys := CvText.SkillKeys(skills).value;
    Grouping.MembersFrom(keys, Entries(skills), k, m);
  }

  /** The sample skills are all groupable: the section never throws on them. */
  lemma DefaultsGroupable()
    ensures CvText.SkillKeys(Portfolio.DefaultSkills).Ok?
  {
    Portfolio.DefaultSkillLevels();
    forall i | 0 <= i < |Portfolio.DefaultSkills|
      ensures CvText.Groupable(Portfolio.DefaultSkills[i])
    {
      DefaultGroupable(i);
    }
  }

  lemma DefaultGroupable(i: nat)
    requires i < |Portfolio.DefaultSkillTable|
    ensures CvText.Groupable(Portfolio.DefaultSkills[i])
  {
    Portfolio.DefaultSkillMembers(i);
    var c := Portfolio.DefaultSkillTable[i].2;
    assert c[0] == 'C' || c[0] == 'I';
    CvText.CapitalNotInherited(c);
  }
}

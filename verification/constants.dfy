/** The skill table (`SKILL_ABILITIES`, src/dnd_mcp/constants.py:8-27): the ability each of
    the eighteen 5e skills is rolled with, and how the skill tool normalises a skill name
    before looking it up. */
module Constants {
  import opened Text

  const SkillAbilities: map<string, string> := map[
    "acrobatics" := "dex",
    "animal_handling" := "wis",
    "arcana" := "int",
    "athletics" := "str",
    "deception" := "cha",
    "history" := "int",
    "insight" := "wis",
    "intimidation" := "cha",
    "investigation" := "int",
    "medicine" := "wis",
    "nature" := "int",
    "perception" := "wis",
    "performance" := "cha",
    "persuasion" := "cha",
    "religion" := "int",
    "sleight_of_hand" := "dex",
    "stealth" := "dex",
    "survival" := "wis"
  ]

  /** The six ability keys a new character has (src/dnd_mcp/character.py:27-30). */
  const AbilityKeys: set<string> := {"str", "dex", "con", "int", "wis", "cha"}

  /** `skill.lower().replace(" ", "_")`: position by position, a space becomes `_` and a
      letter its lower-case form, so the result is normal. */
  function NormalizeSkill(skill: string): (r: string)
    ensures |r| == |skill|
    ensures forall i :: 0 <= i < |skill| ==> r[i] == (if skill[i] == ' ' then '_' else LowerChar(skill[i]))
    ensures IsNormal(r)
  {
    ReplaceChar(Lower(skill), ' ', '_');
    ReplaceAll(Lower(skill), " ", "_")
  }

  /** Normalising twice is normalising once. */
  lemma NormalizeIdempotent(skill: string)
    ensures NormalizeSkill(NormalizeSkill(skill)) == NormalizeSkill(skill)
  {
    NormalizeFixed(NormalizeSkill(skill));
  }

  /** Text with no upper-case letter and no space. */
  predicate IsNormal(s: string) {
    forall i :: 0 <= i < |s| ==> !IsUpper(s[i]) && s[i] != ' '
  }

  /** Normalising leaves text that is already lower-case and space-free unchanged. */
  lemma NormalizeFixed(s: string)
    requires IsNormal(s)
    ensures NormalizeSkill(s) == s
  {
    LowerFixed(s);
    ReplaceAbsentChar(s, ' ', "_");
  }

  /** Every skill maps to one of the six ability keys, and none to constitution. */
  lemma SkillAbilitiesValues()
    ensures forall k :: k in SkillAbilities ==> SkillAbilities[k] in AbilityKeys
    ensures forall k :: k in SkillAbilities ==> SkillAbilities[k] in {"str", "dex", "int", "wis", "cha"}
    ensures forall k :: k in SkillAbilities ==> SkillAbilities[k] != "con"
  {
  }

  /** Every ability in the table is already lower-case. */
  lemma SkillAbilityLower(sk: string)
    requires sk in SkillAbilities
    ensures Lower(SkillAbilities[sk]) == SkillAbilities[sk]
  {
    SkillAbilitiesValues();
    LowerFixed(SkillAbilities[sk]);
  }

  /** The table has eighteen skills. */
  lemma SkillCount()
    ensures |SkillAbilities| == 18
  {
    var keys := ["acrobatics", "animal_handling", "arcana", "athletics", "deception", "history",
                 "insight", "intimidation", "investigation", "medicine", "nature", "perception",
                 "performance", "persuasion", "religion", "sleight_of_hand", "stealth", "survival"];
    assert SkillAbilities.Keys == set k | k in keys;
    DistinctCount(keys);
  }

  /** A sequence of pairwise different values has as many distinct values as elements. */
  lemma {:induction false} DistinctCount<T>(xs: seq<T>)
    requires forall i, j :: 0 <= i < j < |xs| ==> xs[i] != xs[j]
    ensures |set x | x in xs| == |xs|
    decreases |xs|
  {
    if xs != [] {
      DistinctCount(xs[1..]);
      var tail := set x | x in xs[1..];
      assert (set x | x in xs) == {xs[0]} + tail;
      assert xs[0] !in tail;
    }
  }

  /** The strength and dexterity skills. */
  lemma SkillExamples()
    ensures SkillAbilities["athletics"] == "str"
    ensures SkillAbilities["acrobatics"] == "dex"
    ensures SkillAbilities["sleight_of_hand"] == "dex"
    ensures SkillAbilities["stealth"] == "dex"
  {
  }

  /** Every key is already normal, so a key typed as it appears in the table is found. */
  lemma KeysAreNormal()
    ensures forall k :: k in SkillAbilities ==> NormalizeSkill(k) == k
  {
    NormalKeys1();
    NormalKeys2();
    NormalKeys3();
    forall k | k in SkillAbilities
      ensures NormalizeSkill(k) == k
    {
      NormalizeFixed(k);
    }
  }

  // The eighteen keys are checked in three groups of six: each group is a small obligation,
  // while one lemma over all eighteen literals costs the solver far more than the three.
  lemma NormalKeys1()
    ensures IsNormal("acrobatics") && IsNormal("animal_handling") && IsNormal("arcana")
    ensures IsNormal("athletics") && IsNormal("deception") && IsNormal("history")
  {
  }

  lemma NormalKeys2()
    ensures IsNormal("insight") && IsNormal("intimidation") && IsNormal("investigation")
    ensures IsNormal("medicine") && IsNormal("nature") && IsNormal("perception")
  {
  }

  lemma NormalKeys3()
    ensures IsNormal("performance") && IsNormal("persuasion") && IsNormal("religion")
    ensures IsNormal("sleight_of_hand") && IsNormal("stealth") && IsNormal("survival")
  {
  }
}

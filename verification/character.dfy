/** The character sheet (src/dnd_mcp/character.py): the record a `Character` holds, the
    defaults its constructor sets, the dictionary `to_dict` writes and `_load_from_dict` reads,
    and the level, ability-modifier and proficiency-bonus arithmetic.

    The dictionary is modelled as a record with one optional field per key (`None` when the
    key is absent), not as JSON text. Free-form parts of the sheet (race, background, the
    entries of the feat, spell, weapon and equipment lists) are kept as opaque `Record`s. */
module Sheet {
  import opened Common
  import opened Text

  // ---------------------------------------------------------------------------
  // Data model
  // ---------------------------------------------------------------------------

  /** A JSON value the model carries without looking inside. */
  datatype Json =
    | JNull
    | JBool(b: bool)
    | JNum(n: int)
    | JText(s: string)
    | JList(items: seq<Json>)
    | JObject(fields: map<string, Json>)

  /** A free-form dictionary. */
  type Record = map<string, Json>

  /** `self.player`: the player's name and optional id. */
  datatype Player = Player(name: string, id: Option<string>)

  /** One entry of `self.classes`; only its `level` key is read by the code. */
  datatype ClassEntry = ClassEntry(level: Option<int>, rest: Record)

  datatype Character = Character(
    name: Option<string>,
    nickname: Option<string>,
    player: Player,
    race: Record,
    xp: int,
    classes: seq<ClassEntry>,
    alignment: Option<string>,
    background: Record,
    details: Record,
    hitPoints: map<string, int>,
    armorClass: Record,
    abilityScores: map<string, int>,
    savingThrows: map<string, bool>,
    skills: map<string, bool>,
    speed: map<string, int>,
    weaponProficiencies: seq<string>,
    armorProficiencies: seq<string>,
    toolProficiencies: seq<string>,
    feats: seq<Record>,
    spells: seq<Record>,
    weapons: seq<Record>,
    equipment: seq<Record>,
    languages: seq<string>,
    treasure: map<string, int>)

  const DefaultPlayer := Player("NPC", None)
  const DefaultHitPoints: map<string, int> := map["max" := 0, "current" := 0]
  const DefaultArmorClass: Record := map["value" := JNum(10), "description" := JText("")]
  const DefaultAbilityScores: map<string, int> :=
    map["str" := 10, "dex" := 10, "con" := 10, "int" := 10, "wis" := 10, "cha" := 10]
  const DefaultSpeed: map<string, int> := map["Walk" := 30]
  const DefaultTreasure: map<string, int> := map["pp" := 0, "ep" := 0, "gp" := 0, "sp" := 0, "cp" := 0]

  /** `Character()`: what the constructor sets. */
  function NewCharacter(): Character {
    Character(
      None, None, DefaultPlayer, map[], 0, [], None, map[], map[],
      DefaultHitPoints, DefaultArmorClass, DefaultAbilityScores, map[], map[], DefaultSpeed,
      [], [], [], [], [], [], [], [], DefaultTreasure)
  }

  /** The `player` entry of a sheet dictionary: either key may be absent. */
  datatype PlayerData = PlayerData(name: Option<string>, id: Option<string>)

  /** A sheet dictionary: one field per key, `None` when the key is absent. */
  datatype SheetData = SheetData(
    name: Option<string>,
    nickname: Option<string>,
    player: Option<PlayerData>,
    race: Option<Record>,
    xp: Option<int>,
    classes: Option<seq<ClassEntry>>,
    alignment: Option<string>,
    background: Option<Record>,
    details: Option<Record>,
    hitPoints: Option<map<string, int>>,
    armorClass: Option<Record>,
    abilityScores: Option<map<string, int>>,
    savingThrows: Option<map<string, bool>>,
    skills: Option<map<string, bool>>,
    speed: Option<map<string, int>>,
    weaponProficiencies: Option<seq<string>>,
    armorProficiencies: Option<seq<string>>,
    toolProficiencies: Option<seq<string>>,
    feats: Option<seq<Record>>,
    spells: Option<seq<Record>>,
    weapons: Option<seq<Record>>,
    equipment: Option<seq<Record>>,
    languages: Option<seq<string>>,
    treasure: Option<map<string, int>>)

  /** The empty dictionary `{}`. */
  const EmptySheet := SheetData(
    None, None, None, None, None, None, None, None, None, None, None, None,
    None, None, None, None, None, None, None, None, None, None, None, None)

  // ---------------------------------------------------------------------------
  // to_dict and _load_from_dict
  // ---------------------------------------------------------------------------

  /** Some coin amount is positive: `any(value > 0 for value in treasure.values())`. */
  predicate HasTreasure(t: map<string, int>) {
    exists k :: k in t && t[k] > 0
  }

  /** Python truthiness of an optional string: present and non-empty. */
  predicate Truthy(s: Option<string>) {
    s.Some? && s.value != ""
  }

  /** `keep` when `present` holds, absent otherwise. */
  function When<T>(present: bool, keep: T): Option<T> {
    if present then Some(keep) else None
  }

  /** `to_dict`: `player`, `race`, `hit_points`, `armor_class`, `ability_scores` and `speed`
      are always written; `name` and `nickname` when not `None`; `xp` when positive; every
      string, dictionary and list field when non-empty; `treasure` when some amount is
      positive. */
  function ToDict(c: Character): (d: SheetData)
    ensures d.player.Some? && d.race.Some? && d.hitPoints.Some? && d.armorClass.Some?
    ensures d.abilityScores.Some? && d.speed.Some?
    ensures d.name.Some? <==> c.name.Some?
    ensures d.nickname.Some? <==> c.nickname.Some?
    ensures d.xp.Some? <==> c.xp > 0
    ensures d.classes.Some? <==> c.classes != []
    ensures d.alignment.Some? <==> Truthy(c.alignment)
    ensures d.background.Some? <==> c.background != map[]
    ensures d.details.Some? <==> c.details != map[]
    ensures d.savingThrows.Some? <==> c.savingThrows != map[]
    ensures d.skills.Some? <==> c.skills != map[]
    ensures d.weaponProficiencies.Some? <==> c.weaponProficiencies != []
    ensures d.armorProficiencies.Some? <==> c.armorProficiencies != []
    ensures d.toolProficiencies.Some? <==> c.toolProficiencies != []
    ensures d.feats.Some? <==> c.feats != []
    ensures d.spells.Some? <==> c.spells != []
    ensures d.weapons.Some? <==> c.weapons != []
    ensures d.equipment.Some? <==> c.equipment != []
    ensures d.languages.Some? <==> c.languages != []
    ensures d.treasure.Some? <==> HasTreasure(c.treasure)
  {
    SheetData(
      c.name,
      c.nickname,
      Some(PlayerData(Some(c.player.name), c.player.id)),
      Some(c.race),
      When(c.xp > 0, c.xp),
      When(c.classes != [], c.classes),
      When(Truthy(c.alignment), c.alignment.GetOr("")),
      When(c.background != map[], c.background),
      When(c.details != map[], c.details),
      Some(c.hitPoints),
      Some(c.armorClass),
      Some(c.abilityScores),
      When(c.savingThrows != map[], c.savingThrows),
      When(c.skills != map[], c.skills),
      Some(c.speed),
      When(c.weaponProficiencies != [], c.weaponProficiencies),
      When(c.armorProficiencies != [], c.armorProficiencies),
      When(c.toolProficiencies != [], c.toolProficiencies),
      When(c.feats != [], c.feats),
      When(c.spells != [], c.spells),
      When(c.weapons != [], c.weapons),
      When(c.equipment != [], c.equipment),
      When(c.languages != [], c.languages),
      When(HasTreasure(c.treasure), c.treasure))
  }

  /** `_load_from_dict` on the character `c`: every key present sets its field and every
      absent key resets the field to the constructor's default, except `player`, which is
      left as it was when absent. A `player` entry without `name` loads as `"NPC"`. */
  function LoadFromDict(c: Character, d: SheetData): (r: Character)
    ensures d.player.None? ==> r.player == c.player
    ensures d.player.Some? ==>
      r.player == Player(d.player.value.name.GetOr(DefaultPlayer.name), d.player.value.id)
    ensures r.name == d.name && r.nickname == d.nickname && r.alignment == d.alignment
    ensures var n := NewCharacter();
      && r.race == d.race.GetOr(n.race) && r.xp == d.xp.GetOr(n.xp)
      && r.classes == d.classes.GetOr(n.classes)
      && r.background == d.background.GetOr(n.background) && r.details == d.details.GetOr(n.details)
      && r.hitPoints == d.hitPoints.GetOr(n.hitPoints) && r.armorClass == d.armorClass.GetOr(n.armorClass)
      && r.abilityScores == d.abilityScores.GetOr(n.abilityScores)
      && r.savingThrows == d.savingThrows.GetOr(n.savingThrows) && r.skills == d.skills.GetOr(n.skills)
      && r.speed == d.speed.GetOr(n.speed)
      && r.weaponProficiencies == d.weaponProficiencies.GetOr(n.weaponProficiencies)
      && r.armorProficiencies == d.armorProficiencies.GetOr(n.armorProficiencies)
      && r.toolProficiencies == d.toolProficiencies.GetOr(n.toolProficiencies)
      && r.feats == d.feats.GetOr(n.feats) && r.spells == d.spells.GetOr(n.spells)
      && r.weapons == d.weapons.GetOr(n.weapons) && r.equipment == d.equipment.GetOr(n.equipment)
      && r.languages == d.languages.GetOr(n.languages) && r.treasure == d.treasure.GetOr(n.treasure)
  {
    Character(
      d.name,
      d.nickname,
      if d.player.Some? then Player(d.player.value.name.GetOr("NPC"), d.player.value.id) else c.player,
      d.race.GetOr(map[]),
      d.xp.GetOr(0),
      d.classes.GetOr([]),
      d.alignment,
      d.background.GetOr(map[]),
      d.details.GetOr(map[]),
      d.hitPoints.GetOr(DefaultHitPoints),
      d.armorClass.GetOr(DefaultArmorClass),
      d.abilityScores.GetOr(DefaultAbilityScores),
      d.savingThrows.GetOr(map[]),
      d.skills.GetOr(map[]),
      d.speed.GetOr(DefaultSpeed),
      d.weaponProficiencies.GetOr([]),
      d.armorProficiencies.GetOr([]),
      d.toolProficiencies.GetOr([]),
      d.feats.GetOr([]),
      d.spells.GetOr([]),
      d.weapons.GetOr([]),
      d.equipment.GetOr([]),
      d.languages.GetOr([]),
      d.treasure.GetOr(DefaultTreasure))
  }

  /** The character loaded into is forgotten, except for its player when the dictionary has
      no `player` entry. */
  lemma LoadIgnoresStart(c1: Character, c2: Character, d: SheetData)
    ensures LoadFromDict(c1, d).(player := LoadFromDict(c2, d).player) == LoadFromDict(c2, d)
    ensures d.player.Some? ==> LoadFromDict(c1, d) == LoadFromDict(c2, d)
  {
  }

  /** Loading the empty dictionary gives the constructor's character, keeping only the
      player the loading character had. */
  lemma LoadEmpty(c: Character)
    ensures LoadFromDict(c, EmptySheet) == NewCharacter().(player := c.player)
    ensures LoadFromDict(NewCharacter(), EmptySheet) == NewCharacter()
  {
  }

  /** A `player` entry missing `name` loads as `"NPC"`; one missing `id` loads with no id. */
  lemma LoadPlayerDefaults(c: Character, d: SheetData)
    requires d.player.Some?
    ensures d.player.value.name.None? ==> LoadFromDict(c, d).player.name == "NPC"
    ensures d.player.value.id.None? ==> LoadFromDict(c, d).player.id.None?
    ensures d.player.value == PlayerData(None, None) ==> LoadFromDict(c, d).player == DefaultPlayer
  {
  }

  /** Writing a character out and loading it back into any character gives it back exactly
      when nothing `to_dict` drops carries information: `xp` is not negative, the alignment
      is not the empty string, and the treasure has a positive amount or is the default
      purse. A negative `xp` comes back as 0, an empty alignment as `None`, and a purse
      without a positive amount as the default one. */
  lemma RoundTrip(c: Character, into: Character)
    ensures LoadFromDict(into, ToDict(c)) == c
        <==> c.xp >= 0 && c.alignment != Some("") && (HasTreasure(c.treasure) || c.treasure == DefaultTreasure)
  {
    RoundTripFields(c, into);
    if c.xp >= 0 && c.alignment != Some("") && (HasTreasure(c.treasure) || c.treasure == DefaultTreasure) {
      RoundTripKept(c, into);
    }
  }

  /** What each field looks like after writing `c` out and loading it back. */
  lemma RoundTripFields(c: Character, into: Character)
    ensures var back := LoadFromDict(into, ToDict(c));
      && back.xp == (if c.xp > 0 then c.xp else 0)
      && back.alignment == (if Truthy(c.alignment) then c.alignment else None)
      && back.treasure == (if HasTreasure(c.treasure) then c.treasure else DefaultTreasure)
  {
  }

  lemma RoundTripKept(c: Character, into: Character)
    requires c.xp >= 0 && c.alignment != Some("")
    requires HasTreasure(c.treasure) || c.treasure == DefaultTreasure
    ensures LoadFromDict(into, ToDict(c)) == c
  {
    KeptScalars(c, into);
    KeptCollections(c, into);
    var back := LoadFromDict(into, ToDict(c));
    assert back.treasure == c.treasure by {
      RoundTripFields(c, into);
    }
  }

  /** The fields `to_dict` writes whatever their value, and the optional scalars. */
  lemma KeptScalars(c: Character, into: Character)
    requires c.xp >= 0 && c.alignment != Some("")
    ensures var back := LoadFromDict(into, ToDict(c));
      && back.name == c.name && back.nickname == c.nickname && back.player == c.player
      && back.race == c.race && back.xp == c.xp && back.alignment == c.alignment
      && back.hitPoints == c.hitPoints && back.armorClass == c.armorClass
      && back.abilityScores == c.abilityScores && back.speed == c.speed
  {
  }

  /** The dictionaries and lists `to_dict` drops when empty come back as the empty default. */
  lemma KeptCollections(c: Character, into: Character)
    ensures var back := LoadFromDict(into, ToDict(c));
      && back.classes == c.classes && back.background == c.background && back.details == c.details
      && back.savingThrows == c.savingThrows && back.skills == c.skills
      && back.weaponProficiencies == c.weaponProficiencies
      && back.armorProficiencies == c.armorProficiencies
      && back.toolProficiencies == c.toolProficiencies
      && back.feats == c.feats && back.spells == c.spells
      && back.weapons == c.weapons && back.equipment == c.equipment
      && back.languages == c.languages
  {
  }

  // ---------------------------------------------------------------------------
  // Level, ability modifiers, proficiency bonus
  // ---------------------------------------------------------------------------

  /** The sum of the classes' levels, a class without `level` counting 0. */
  function LevelSum(classes: seq<ClassEntry>): int {
    if classes == [] then 0 else classes[0].level.GetOr(0) + LevelSum(classes[1..])
  }

  /** `get_level`: a character without classes is level 0, and when no class level is
      negative the total is at least every single class's level. */
  function GetLevel(c: Character): (r: int)
    ensures c.classes == [] ==> r == 0
    ensures (forall k :: 0 <= k < |c.classes| ==> c.classes[k].level.GetOr(0) >= 0) ==>
      && r >= 0
      && forall k :: 0 <= k < |c.classes| ==> c.classes[k].level.GetOr(0) <= r
  {
    LevelSumBounds(c.classes);
    LevelSum(c.classes)
  }

  /** With no negative class level, the total is not negative and bounds every class level. */
  lemma {:induction false} LevelSumBounds(classes: seq<ClassEntry>)
    ensures (forall k :: 0 <= k < |classes| ==> classes[k].level.GetOr(0) >= 0) ==>
      && LevelSum(classes) >= 0
      && forall k :: 0 <= k < |classes| ==> classes[k].level.GetOr(0) <= LevelSum(classes)
    decreases |classes|
  {
    if classes != [] {
      LevelSumBounds(classes[1..]);
      assert forall k :: 1 <= k < |classes| ==> classes[k] == classes[1..][k - 1];
    }
  }

  /** Adding a class adds its level to the total, wherever it is added. */
  lemma {:induction false} LevelSumAppend(a: seq<ClassEntry>, b: seq<ClassEntry>)
    ensures LevelSum(a + b) == LevelSum(a) + LevelSum(b)
    decreases |a|
  {
    if a == [] {
      assert a + b == b;
    } else {
      assert (a + b)[1..] == a[1..] + b;
      LevelSumAppend(a[1..], b);
    }
  }

  /** A multiclass character's level is the sum of the class levels, and reordering the
      classes does not change it. */
  lemma {:induction false} LevelSumPermutation(a: seq<ClassEntry>, b: seq<ClassEntry>)
    requires multiset(a) == multiset(b)
    ensures LevelSum(a) == LevelSum(b)
    decreases |a|
  {
    if a == [] {
      assert |b| == |multiset(b)| == 0;
    } else {
      var x := a[0];
      assert x in multiset(b);
      var j :| 0 <= j < |b| && b[j] == x;
      var rest := b[..j] + b[j + 1..];
      assert multiset(rest) == multiset(a[1..]) by {
        RemoveAt(a, 0);
        RemoveAt(b, j);
      }
      LevelSumPermutation(a[1..], rest);
      LevelSumSplit(b, j);
    }
  }

  /** The total is the level at `j` plus the total of the other classes. */
  lemma LevelSumSplit(b: seq<ClassEntry>, j: nat)
    requires j < |b|
    ensures LevelSum(b) == b[j].level.GetOr(0) + LevelSum(b[..j] + b[j + 1..])
  {
    RemoveAt(b, j);
    LevelSumAppend(b[..j] + [b[j]], b[j + 1..]);
    LevelSumAppend(b[..j], [b[j]]);
    LevelSumAppend(b[..j], b[j + 1..]);
  }

  /** `(score - 10) // 2`: the floor of half the distance from 10. */
  function ScoreModifier(score: int): (r: int)
    ensures 2 * r <= score - 10 < 2 * r + 2
  {
    (score - 10) / 2
  }

  /** `get_ability_modifier`: the ability is looked up lower-cased; a missing ability
      counts as a score of 10. */
  function AbilityModifier(c: Character, ability: string): (r: int)
    ensures Lower(ability) !in c.abilityScores ==> r == 0
    ensures Lower(ability) in c.abilityScores ==>
      2 * r <= c.abilityScores[Lower(ability)] - 10 < 2 * r + 2
  {
    ScoreModifier(if Lower(ability) in c.abilityScores then c.abilityScores[Lower(ability)] else 10)
  }

  /** A higher score never gives a lower modifier. */
  lemma ScoreModifierMonotone(a: int, b: int)
    requires a <= b
    ensures ScoreModifier(a) <= ScoreModifier(b)
  {
  }

  /** `2 + (level - 1) // 4`. */
  function LevelProficiency(level: int): (r: int)
    ensures 4 * (r - 2) <= level - 1 < 4 * (r - 2) + 4
  {
    2 + (level - 1) / 4
  }

  /** `get_proficiency_bonus`: the bracket of `LevelProficiency` at the character's level,
      so at least +2 from level 1 on. */
  function ProficiencyBonus(c: Character): (r: int)
    ensures 4 * (r - 2) <= GetLevel(c) - 1 < 4 * (r - 2) + 4
    ensures GetLevel(c) >= 1 ==> r >= 2
  {
    LevelProficiency(GetLevel(c))
  }

  /** The 5e table: +2 at levels 1-4, +3 at 5-8, +4 at 9-12, +5 at 13-16, +6 at 17-20. A
      character with no class levels gets +1. */
  lemma ProficiencyTable(level: int)
    ensures 1 <= level <= 4 ==> LevelProficiency(level) == 2
    ensures 5 <= level <= 8 ==> LevelProficiency(level) == 3
    ensures 9 <= level <= 12 ==> LevelProficiency(level) == 4
    ensures 13 <= level <= 16 ==> LevelProficiency(level) == 5
    ensures 17 <= level <= 20 ==> LevelProficiency(level) == 6
    ensures level == 0 ==> LevelProficiency(level) == 1
  {
  }

  /** A higher level never gives a lower bonus. */
  lemma ProficiencyMonotone(a: int, b: int)
    requires a <= b
    ensures LevelProficiency(a) <= LevelProficiency(b)
  {
  }
}

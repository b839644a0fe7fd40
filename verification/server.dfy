/** The character tools of the server (src/dnd_mcp/server.py): ability checks, skill checks,
    saving throws, attack rolls and the hit-point update.

    The global `current_character` becomes a `Session` passed to every tool and returned with
    its reply. A reply is the data the tool puts into its JSON or message text, not the text. */
module Server {
  import opened Common
  import opened Text
  import opened Dice
  import opened Sheet
  import opened Constants
  import ModifierParser

  /** The server's state: the loaded character, if any. */
  datatype Session = Session(current: Option<Character>)

  /** The message every character tool returns when no character is loaded. */
  const NoCharacterText := "No character currently loaded. Use load_character() first."

  datatype Reply =
    | NoCharacter
    | InvalidAbility(ability: string, valid: set<string>)
    | InvalidSkill(skill: string, available: set<string>)
    // The `ValueError` that `perform_roll` raises and the tools do not catch
    | RollFailed(error: RollError)
    | AbilityCheck(roll: RollResult, ability: string)
    | SkillCheck(roll: RollResult, skill: string, ability: string,
                 abilityModifier: int, proficiencyBonus: int, isProficient: bool)
    | SavingThrow(roll: RollResult, savingThrow: string,
                  abilityModifier: int, proficiencyBonus: int, isProficient: bool)
    | Attack(roll: RollResult, weapon: string, ability: string, abilityModifier: int, proficiencyBonus: int)
    | HitPointsUpdated(previous: int, current: int, maximum: int)

  datatype Outcome = Outcome(reply: Reply, session: Session)

  /** The text of the replies that are plain messages. */
  function MessageText(r: Reply): (t: string)
    requires r.NoCharacter? || r.HitPointsUpdated?
    ensures t == NoCharacterText <==> r.NoCharacter?
    ensures r.HitPointsUpdated? ==> "Hit points updated: " <= t
  {
    if r.NoCharacter? then NoCharacterText
    else
      var rest := IntToString(r.previous) + " -> " + IntToString(r.current)
                  + " (Max: " + IntToString(r.maximum) + ")";
      var t := "Hit points updated: " + rest;
      assert NoCharacterText[|NoCharacterText| - 1] == '.' && t[|t| - 1] == rest[|rest| - 1] == ')';
      t
  }

  // ---------------------------------------------------------------------------
  // Base modifiers
  // ---------------------------------------------------------------------------

  /** `d.get(key, False)`. */
  function Flag(d: map<string, bool>, key: string): bool {
    key in d && d[key]
  }

  /** The base modifier of a check that may add the proficiency bonus: the ability modifier,
      plus the bonus when proficient. */
  function ProficientBase(c: Character, ability: string, proficient: bool): (r: int)
    ensures !proficient ==> r == AbilityModifier(c, ability)
    ensures proficient ==> r == AbilityModifier(c, ability) + ProficiencyBonus(c)
  {
    AbilityModifier(c, ability) + (if proficient then ProficiencyBonus(c) else 0)
  }

  // ---------------------------------------------------------------------------
  // The roll tools
  // ---------------------------------------------------------------------------

  /** `roll_ability_check`: the ability is lower-cased and must be one of the character's
      ability keys; the roll uses the ability modifier as its base. */
  function RollAbilityCheck(s: Session, ability: string, modifiers: string, src: Source): (o: Outcome)
    ensures o.session == s
    ensures s.current.None? <==> o.reply.NoCharacter?
    ensures s.current.Some? && Lower(ability) !in s.current.value.abilityScores
            <==> o.reply.InvalidAbility?
    ensures o.reply.InvalidAbility? ==>
      o.reply == InvalidAbility(Lower(ability), s.current.value.abilityScores.Keys)
    ensures s.current.Some? && Lower(ability) in s.current.value.abilityScores ==>
      var r := PerformRoll(AbilityModifier(s.current.value, ability), ModifierParser.ParseModifiers(modifiers),
                           Upper(Lower(ability)) + " Check", src);
      && (r.Err? <==> o.reply.RollFailed?)
      && (r.Err? ==> o.reply.error == r.error)
      && (r.Ok? ==> o.reply.AbilityCheck? && o.reply.roll == r.value)
    ensures o.reply.AbilityCheck? ==>
      && o.reply.roll.baseModifier == AbilityModifier(s.current.value, ability)
      && o.reply.roll.rollName == Upper(Lower(ability)) + " Check"
      && o.reply.ability == Upper(Lower(ability))
  {
    if s.current.None? then Outcome(NoCharacter, s)
    else
      var c := s.current.value;
      var a := Lower(ability);
      if a !in c.abilityScores then Outcome(InvalidAbility(a, c.abilityScores.Keys), s)
      else
        LowerIdempotent(ability);
        var base := AbilityModifier(c, a);
        var result := PerformRoll(base, ModifierParser.ParseModifiers(modifiers), Upper(a) + " Check", src);
        match result
        case Err(e) => Outcome(RollFailed(e), s)
        case Ok(res) => Outcome(AbilityCheck(res, Upper(a)), s)
  }

  /** `roll_skill_check`: the skill name is lower-cased with spaces turned into underscores
      and must be in the skill table; the base is the modifier of the skill's ability plus the
      proficiency bonus when the character's `skills` entry for it is true (a missing entry
      means not proficient), and the reported bonus is 0 when not proficient. */
  function RollSkillCheck(s: Session, skill: string, modifiers: string, src: Source): (o: Outcome)
    ensures o.session == s
    ensures s.current.None? <==> o.reply.NoCharacter?
    ensures s.current.Some? && NormalizeSkill(skill) !in SkillAbilities <==> o.reply.InvalidSkill?
    ensures o.reply.InvalidSkill? ==> o.reply == InvalidSkill(NormalizeSkill(skill), SkillAbilities.Keys)
    ensures s.current.Some? && NormalizeSkill(skill) in SkillAbilities ==>
      var c, sk := s.current.value, NormalizeSkill(skill);
      var r := PerformRoll(ProficientBase(c, SkillAbilities[sk], Flag(c.skills, sk)),
                           ModifierParser.ParseModifiers(modifiers), Title(ReplaceAll(sk, "_", " ")) + " Check", src);
      && (r.Err? <==> o.reply.RollFailed?)
      && (r.Err? ==> o.reply.error == r.error)
      && (r.Ok? ==> o.reply.SkillCheck? && o.reply.roll == r.value)
    ensures o.reply.SkillCheck? ==>
      var c, sk := s.current.value, NormalizeSkill(skill);
      && sk in SkillAbilities
      && o.reply.isProficient == Flag(c.skills, sk)
      && o.reply.abilityModifier == AbilityModifier(c, SkillAbilities[sk])
      && o.reply.proficiencyBonus == (if o.reply.isProficient then ProficiencyBonus(c) else 0)
      && o.reply.roll.baseModifier == o.reply.abilityModifier + o.reply.proficiencyBonus
      && o.reply.ability == Upper(SkillAbilities[sk])
      && o.reply.skill == Title(ReplaceAll(sk, "_", " "))
      && o.reply.roll.rollName == o.reply.skill + " Check"
  {
    if s.current.None? then Outcome(NoCharacter, s)
    else
      var c := s.current.value;
      var sk := NormalizeSkill(skill);
      if sk !in SkillAbilities then Outcome(InvalidSkill(sk, SkillAbilities.Keys), s)
      else
        var ability := SkillAbilities[sk];
        var proficient := Flag(c.skills, sk);
        var skillName := Title(ReplaceAll(sk, "_", " "));
        var result := PerformRoll(ProficientBase(c, ability, proficient),
                                  ModifierParser.ParseModifiers(modifiers), skillName + " Check", src);
        match result
        case Err(e) => Outcome(RollFailed(e), s)
        case Ok(res) =>
          Outcome(SkillCheck(res, skillName, Upper(ability), AbilityModifier(c, ability),
                             if proficient then ProficiencyBonus(c) else 0, proficient), s)
  }

  /** `roll_saving_throw`: validated like an ability check; the base adds the proficiency
      bonus when the character's `saving_throws` entry for the ability is true. */
  function RollSavingThrow(s: Session, ability: string, modifiers: string, src: Source): (o: Outcome)
    ensures o.session == s
    ensures s.current.None? <==> o.reply.NoCharacter?
    ensures s.current.Some? && Lower(ability) !in s.current.value.abilityScores
            <==> o.reply.InvalidAbility?
    ensures o.reply.InvalidAbility? ==>
      o.reply == InvalidAbility(Lower(ability), s.current.value.abilityScores.Keys)
    ensures s.current.Some? && Lower(ability) in s.current.value.abilityScores ==>
      var c, a := s.current.value, Lower(ability);
      var r := PerformRoll(ProficientBase(c, a, Flag(c.savingThrows, a)),
                           ModifierParser.ParseModifiers(modifiers), Upper(a) + " Saving Throw", src);
      && (r.Err? <==> o.reply.RollFailed?)
      && (r.Err? ==> o.reply.error == r.error)
      && (r.Ok? ==> o.reply.SavingThrow? && o.reply.roll == r.value)
    ensures o.reply.SavingThrow? ==>
      var c, a := s.current.value, Lower(ability);
      && o.reply.isProficient == Flag(c.savingThrows, a)
      && o.reply.abilityModifier == AbilityModifier(c, ability)
      && o.reply.proficiencyBonus == (if o.reply.isProficient then ProficiencyBonus(c) else 0)
      && o.reply.roll.baseModifier == o.reply.abilityModifier + o.reply.proficiencyBonus
      && o.reply.savingThrow == Upper(a)
      && o.reply.roll.rollName == Upper(a) + " Saving Throw"
  {
    if s.current.None? then Outcome(NoCharacter, s)
    else
      var c := s.current.value;
      var a := Lower(ability);
      if a !in c.abilityScores then Outcome(InvalidAbility(a, c.abilityScores.Keys), s)
      else
        LowerIdempotent(ability);
        var proficient := Flag(c.savingThrows, a);
        var result := PerformRoll(ProficientBase(c, a, proficient),
                                  ModifierParser.ParseModifiers(modifiers), Upper(a) + " Saving Throw", src);
        match result
        case Err(e) => Outcome(RollFailed(e), s)
        case Ok(res) =>
          Outcome(SavingThrow(res, Upper(a), AbilityModifier(c, a),
                              if proficient then ProficiencyBonus(c) else 0, proficient), s)
  }

  /** `roll_attack`: always strength-based, always adding the proficiency bonus; the weapon
      is reported as given, or as `"Generic Attack"` when empty. The attack is made even for
      a character without a strength score, whose modifier then counts as 0. */
  function RollAttack(s: Session, weapon: string, modifiers: string, src: Source): (o: Outcome)
    ensures o.session == s
    ensures s.current.None? <==> o.reply.NoCharacter?
    ensures !o.reply.InvalidAbility? && !o.reply.InvalidSkill?
    ensures s.current.Some? ==>
      var c := s.current.value;
      var r := PerformRoll(ProficientBase(c, "str", true), ModifierParser.ParseModifiers(modifiers), "Attack Roll", src);
      && (r.Err? <==> o.reply.RollFailed?)
      && (r.Err? ==> o.reply.error == r.error)
      && (r.Ok? ==> o.reply.Attack? && o.reply.roll == r.value)
    ensures o.reply.Attack? ==>
      var c := s.current.value;
      && o.reply.abilityModifier == AbilityModifier(c, "str")
      && o.reply.proficiencyBonus == ProficiencyBonus(c)
      && o.reply.roll.baseModifier == o.reply.abilityModifier + o.reply.proficiencyBonus
      && o.reply.weapon == (if weapon == "" then "Generic Attack" else weapon)
      && o.reply.ability == "STR"
      && o.reply.roll.rollName == "Attack Roll"
  {
    if s.current.None? then Outcome(NoCharacter, s)
    else
      var c := s.current.value;
      var result := PerformRoll(ProficientBase(c, "str", true),
                                ModifierParser.ParseModifiers(modifiers), "Attack Roll", src);
      match result
      case Err(e) => Outcome(RollFailed(e), s)
      case Ok(res) =>
        Outcome(Attack(res, if weapon == "" then "Generic Attack" else weapon, "STR",
                       AbilityModifier(c, "str"), ProficiencyBonus(c)), s)
  }

  // ---------------------------------------------------------------------------
  // How the roll tools relate
  // ---------------------------------------------------------------------------

  /** Shifting the base modifier shifts the total by the same amount and changes nothing
      else the dice decide: the same draws, the same failures. */
  lemma PerformRollShift(base: int, shift: int, mods: RollModifiers, n1: string, n2: string, src: Source)
    ensures PerformRoll(base + shift, mods, n1, src).Ok? == PerformRoll(base, mods, n2, src).Ok?
    ensures PerformRoll(base + shift, mods, n1, src).Ok? ==>
      var r1, r2 := PerformRoll(base + shift, mods, n1, src).value, PerformRoll(base, mods, n2, src).value;
      && r1.d20 == r2.d20 && r1.diceModifiers == r2.diceModifiers
      && r1.total == r2.total + shift
  {
  }

  /** A skill check totals what a check of the skill's ability totals with the same
      modifiers and dice, plus the proficiency bonus when proficient in the skill. */
  lemma SkillIsAbilityCheck(c: Character, skill: string, modifiers: string, src: Source)
    requires NormalizeSkill(skill) in SkillAbilities
    requires SkillAbilities[NormalizeSkill(skill)] in c.abilityScores
    ensures var sk := NormalizeSkill(skill);
      var check := RollAbilityCheck(Session(Some(c)), SkillAbilities[sk], modifiers, src).reply;
      var skillCheck := RollSkillCheck(Session(Some(c)), skill, modifiers, src).reply;
      && (check.AbilityCheck? <==> skillCheck.SkillCheck?)
      && (check.AbilityCheck? ==>
            skillCheck.roll.total
              == check.roll.total + (if Flag(c.skills, sk) then ProficiencyBonus(c) else 0))
  {
    SkillSameOutcome(c, skill, modifiers, src);
    SkillSameTotal(c, skill, modifiers, src);
  }

  lemma SkillSameOutcome(c: Character, skill: string, modifiers: string, src: Source)
    requires NormalizeSkill(skill) in SkillAbilities
    requires SkillAbilities[NormalizeSkill(skill)] in c.abilityScores
    ensures var sk := NormalizeSkill(skill);
      RollAbilityCheck(Session(Some(c)), SkillAbilities[sk], modifiers, src).reply.AbilityCheck?
      <==> RollSkillCheck(Session(Some(c)), skill, modifiers, src).reply.SkillCheck?
  {
    SkillShift(c, skill, modifiers, src);
  }

  lemma SkillSameTotal(c: Character, skill: string, modifiers: string, src: Source)
    requires NormalizeSkill(skill) in SkillAbilities
    requires SkillAbilities[NormalizeSkill(skill)] in c.abilityScores
    ensures var sk := NormalizeSkill(skill);
      var check := RollAbilityCheck(Session(Some(c)), SkillAbilities[sk], modifiers, src).reply;
      var skillCheck := RollSkillCheck(Session(Some(c)), skill, modifiers, src).reply;
      check.AbilityCheck? && skillCheck.SkillCheck? ==>
        skillCheck.roll.total == check.roll.total + (if Flag(c.skills, sk) then ProficiencyBonus(c) else 0)
  {
    SkillShift(c, skill, modifiers, src);
  }

  /** The two rolls differ only in the base modifier. */
  lemma SkillShift(c: Character, skill: string, modifiers: string, src: Source)
    requires NormalizeSkill(skill) in SkillAbilities
    ensures var sk := NormalizeSkill(skill);
      var a := SkillAbilities[sk];
      var mods := ModifierParser.ParseModifiers(modifiers);
      && Lower(a) == a
      && var r1 := PerformRoll(ProficientBase(c, a, Flag(c.skills, sk)), mods, Title(ReplaceAll(sk, "_", " ")) + " Check", src);
         var r2 := PerformRoll(AbilityModifier(c, a), mods, Upper(a) + " Check", src);
         && r1.Ok? == r2.Ok?
         && (r1.Ok? ==> r1.value.total == r2.value.total + (if Flag(c.skills, sk) then ProficiencyBonus(c) else 0))
  {
    var sk := NormalizeSkill(skill);
    var a := SkillAbilities[sk];
    SkillAbilityLower(sk);
    var mods := ModifierParser.ParseModifiers(modifiers);
    var shift := if Flag(c.skills, sk) then ProficiencyBonus(c) else 0;
    PerformRollShift(AbilityModifier(c, a), shift, mods,
                     Title(ReplaceAll(sk, "_", " ")) + " Check", Upper(a) + " Check", src);
  }

  /** A saving throw totals what a check of the same ability totals with the same modifiers
      and dice, plus the proficiency bonus when proficient in the save. */
  lemma SaveIsAbilityCheck(c: Character, ability: string, modifiers: string, src: Source)
    ensures var check := RollAbilityCheck(Session(Some(c)), ability, modifiers, src).reply;
      var save := RollSavingThrow(Session(Some(c)), ability, modifiers, src).reply;
      && (check.AbilityCheck? <==> save.SavingThrow?)
      && (check.AbilityCheck? ==>
            save.roll.total
              == check.roll.total + (if Flag(c.savingThrows, Lower(ability)) then ProficiencyBonus(c) else 0))
  {
    var a := Lower(ability);
    LowerIdempotent(ability);
    var mods := ModifierParser.ParseModifiers(modifiers);
    var shift := if Flag(c.savingThrows, a) then ProficiencyBonus(c) else 0;
    PerformRollShift(AbilityModifier(c, a), shift, mods, Upper(a) + " Saving Throw", Upper(a) + " Check", src);
  }

  /** For a character with a strength score, an attack totals what a strength check totals
      with the same modifiers and dice, plus the proficiency bonus. */
  lemma AttackIsStrengthCheck(c: Character, weapon: string, modifiers: string, src: Source)
    requires "str" in c.abilityScores
    ensures var check := RollAbilityCheck(Session(Some(c)), "str", modifiers, src).reply;
      var attack := RollAttack(Session(Some(c)), weapon, modifiers, src).reply;
      && (check.AbilityCheck? <==> attack.Attack?)
      && (check.AbilityCheck? ==> attack.roll.total == check.roll.total + ProficiencyBonus(c))
  {
    AttackShift(c, "str", weapon, modifiers, src);
  }

  lemma AttackShift(c: Character, a: string, weapon: string, modifiers: string, src: Source)
    requires a == "str" && a in c.abilityScores
    ensures var check := RollAbilityCheck(Session(Some(c)), a, modifiers, src).reply;
      var attack := RollAttack(Session(Some(c)), weapon, modifiers, src).reply;
      && (check.AbilityCheck? <==> attack.Attack?)
      && (check.AbilityCheck? ==> attack.roll.total == check.roll.total + ProficiencyBonus(c))
  {
    AttackSameOutcome(c, a, weapon, modifiers, src);
    AttackSameTotal(c, a, weapon, modifiers, src);
  }

  lemma AttackSameOutcome(c: Character, a: string, weapon: string, modifiers: string, src: Source)
    requires a == "str" && a in c.abilityScores
    ensures RollAbilityCheck(Session(Some(c)), a, modifiers, src).reply.AbilityCheck?
        <==> RollAttack(Session(Some(c)), weapon, modifiers, src).reply.Attack?
  {
    LowerFixed(a);
    var mods := ModifierParser.ParseModifiers(modifiers);
    PerformRollShift(AbilityModifier(c, a), ProficiencyBonus(c), mods, "Attack Roll", Upper(a) + " Check", src);
  }

  lemma AttackSameTotal(c: Character, a: string, weapon: string, modifiers: string, src: Source)
    requires a == "str" && a in c.abilityScores
    ensures var check := RollAbilityCheck(Session(Some(c)), a, modifiers, src).reply;
      var attack := RollAttack(Session(Some(c)), weapon, modifiers, src).reply;
      check.AbilityCheck? && attack.Attack? ==> attack.roll.total == check.roll.total + ProficiencyBonus(c)
  {
    LowerFixed(a);
    var mods := ModifierParser.ParseModifiers(modifiers);
    var base := AbilityModifier(c, a);
    assert ProficientBase(c, "str", true) == base + ProficiencyBonus(c);
    PerformRollShift(base, ProficiencyBonus(c), mods, "Attack Roll", Upper(a) + " Check", src);
  }

  // ---------------------------------------------------------------------------
  // update_hit_points
  // ---------------------------------------------------------------------------

  /** The clamp of `update_hit_points`: a negative value becomes 0, otherwise a value above
      the maximum becomes the maximum. */
  function ClampHitPoints(v: int, maximum: int): (r: int)
    ensures maximum >= 0 ==> 0 <= r <= maximum
    ensures 0 <= v <= maximum ==> r == v
  {
    if v < 0 then 0 else if v > maximum then maximum else v
  }

  /** With a non-negative maximum the clamp picks the point of `[0, maximum]` nearest to
      the value asked for. */
  lemma ClampIsNearest(v: int, maximum: int, y: int)
    requires 0 <= y <= maximum
    ensures var r := ClampHitPoints(v, maximum); Dist(r, v) <= Dist(y, v)
  {
  }

  function Dist(a: int, b: int): nat {
    if a >= b then a - b else b - a
  }

  /** Clamping a clamped value changes nothing exactly when the maximum is not negative; with
      a negative maximum the clamp sends 0 to the maximum and the maximum back to 0. */
  lemma ClampIdempotent(v: int, maximum: int)
    ensures ClampHitPoints(ClampHitPoints(v, maximum), maximum) == ClampHitPoints(v, maximum) <==> maximum >= 0
  {
  }

  /** `update_hit_points`: the new value is clamped against `hit_points["max"]` (0 when
      absent) and stored as `hit_points["current"]`; nothing else changes. The reply reports
      the previous current value (0 when absent), the stored value and the maximum. */
  function UpdateHitPoints(s: Session, v: int): (o: Outcome)
    ensures s.current.None? <==> o.reply.NoCharacter?
    ensures s.current.None? ==> o.session == s
    ensures s.current.Some? ==>
      var c := s.current.value;
      var maximum := if "max" in c.hitPoints then c.hitPoints["max"] else 0;
      && o.session.current.Some?
      && o.session.current.value == c.(hitPoints := o.session.current.value.hitPoints)
      && o.session.current.value.hitPoints.Keys == c.hitPoints.Keys + {"current"}
      && o.session.current.value.hitPoints["current"] == ClampHitPoints(v, maximum)
      && (forall k :: k in c.hitPoints && k != "current" ==> o.session.current.value.hitPoints[k] == c.hitPoints[k])
      && o.reply == HitPointsUpdated(if "current" in c.hitPoints then c.hitPoints["current"] else 0,
                                     ClampHitPoints(v, maximum), maximum)
  {
    if s.current.None? then Outcome(NoCharacter, s)
    else
      var c := s.current.value;
      var maximum := if "max" in c.hitPoints then c.hitPoints["max"] else 0;
      var previous := if "current" in c.hitPoints then c.hitPoints["current"] else 0;
      var stored := ClampHitPoints(v, maximum);
      Outcome(HitPointsUpdated(previous, stored, maximum),
              Session(Some(c.(hitPoints := c.hitPoints["current" := stored]))))
  }

  /** Asking for the same hit points twice leaves the character as asking once does. */
  lemma UpdateHitPointsTwice(s: Session, v: int)
    ensures UpdateHitPoints(UpdateHitPoints(s, v).session, v).session == UpdateHitPoints(s, v).session
  {
    if s.current.Some? {
      var c := s.current.value;
      var c' := UpdateHitPoints(s, v).session.current.value;
      var maximum := if "max" in c.hitPoints then c.hitPoints["max"] else 0;
      var x := ClampHitPoints(v, maximum);
      assert c'.hitPoints == c.hitPoints["current" := x];
      assert (if "max" in c'.hitPoints then c'.hitPoints["max"] else 0) == maximum;
      assert c'.hitPoints["current" := x] == c'.hitPoints;
    }
  }

  /** Every character tool answers the no-character message and leaves the session empty
      when no character is loaded. */
  lemma NoCharacterLoaded(ability: string, skill: string, weapon: string, modifiers: string, v: int, src: Source)
    ensures var s := Session(None);
      && RollAbilityCheck(s, ability, modifiers, src) == Outcome(NoCharacter, s)
      && RollSkillCheck(s, skill, modifiers, src) == Outcome(NoCharacter, s)
      && RollSavingThrow(s, ability, modifiers, src) == Outcome(NoCharacter, s)
      && RollAttack(s, weapon, modifiers, src) == Outcome(NoCharacter, s)
      && UpdateHitPoints(s, v) == Outcome(NoCharacter, s)
      && MessageText(NoCharacter) == NoCharacterText
  {
  }
}

# DND-MCP dice, character sheet and roll tools in Dafny

This project models the rules engine of the DND-MCP server, an MCP tool server for a
Dungeons & Dragons 5e character. It covers four parts:

- the modifier language a player types, such as `"advantage +2 guidance:1d4"`, and its parser;
- the d20 roll with advantage or disadvantage, the dice modifiers, the flat modifiers and the
  text breakdown of a roll;
- the character sheet: its dictionary form, loading with defaults, total level, ability
  modifiers and proficiency bonus;
- the roll tools (ability check, skill check, saving throw, attack), the hit point update and
  the reply given when no character is loaded, together with the skill-to-ability table.

The random number generator is a parameter. A `Source` is a function from draw number to the
value `random.randint` returns at that draw. Each roll consumes draws in the order the code
makes them: the d20 first, then each die of each dice modifier. Range facts such as "every die
lies in 1..sides" are lemmas with an `Honest` hypothesis on the source. They are not
preconditions, so every roll function is total.

Modules follow the source files:

- `Common`: `Option`, `Result` and two sequence lemmas;
- `Text`: the ASCII behaviour of `str.lower`, `str.upper`, `str.title`, `str.split`,
  `str.split(sep, 1)`, `str.replace`, `int()` on text without whitespace, and `str(int)`;
- `Render`: the `" + "` join of a breakdown, its `"+ -"` to `"- "` replacement, and the
  reading of that text as a sum and differences;
- `Dice`: `src/dnd_mcp/dice.py`;
- `ModifierParser`: `parse_modifiers_string`;
- `Sheet`: `src/dnd_mcp/character.py`;
- `Constants`: `SKILL_ABILITIES`;
- `Server`: the tools of `src/dnd_mcp/server.py` as functions from a session, the tool
  arguments and a `Source` to a reply and the next session;
- `Examples`: worked inputs.

Behaviour kept exactly as the code has it:

- The breakdown shows a non-negative flat modifier with its own sign after the joining
  `" + "`, so `"+2"` reads `"... + +2 (Modifier) ..."`.
- Only the text `"+ -"` is rewritten, so a negative term reads as a subtraction.
- `str.title()` starts a new word after a digit, so the name `"2nd"` becomes `"2Nd"`.
- A dice modifier's expression is not checked by the parser. A malformed one such as
  `"guidance:xx"` is accepted, and the roll that uses it fails with `InvalidDiceFormat`.
- The dice expression follows `int()` rather than a `[count]d<sides>` grammar with positive
  numbers. A count may be empty (one die), zero or negative (no dice drawn, total 0), or
  signed. Sides below 1 fail only when at least one die is drawn, as `randint(1, sides)` does
  (`EmptyRange`). An expression with two `d`s fails, as the two-value unpacking does.
- No tool catches the `ValueError` that `perform_roll` raises for a bad dice expression or an
  empty `randint` range. The reply `RollFailed` stands for that escaping exception.

## Model

| member | source | states |
|---|---|---|
| ModifierParser.Classify | src/dnd_mcp/dice.py:171-187 | one word is a mode exactly when it is `advantage` or `disadvantage`; otherwise a dice modifier exactly when it holds a colon, named by the title-cased text before the first colon with the rest as expression; otherwise a flat modifier exactly when it is a signed or unsigned digit string, valued by `int()`, with a `+` added to the description of an unsigned number |
| ModifierParser.ParseModifiers | src/dnd_mcp/dice.py:163-164 | the empty text parses to no modifiers and a normal roll |
| ModifierParser.ParseParts | src/dnd_mcp/dice.py:171-189 | no words give no modifiers and a normal roll, and each word adds at most one modifier |
| ModifierParser.ParsePartsLists | src/dnd_mcp/dice.py:171-189 | the parsed dice and flat modifiers are exactly those the words ask for, in word order |
| ModifierParser.ParsePartsLastMode | src/dnd_mcp/dice.py:172-175 | the roll type is set by the last `advantage` or `disadvantage` word; later words of other kinds do not change it |
| ModifierParser.ParsePartsNormal | src/dnd_mcp/dice.py:167 | with no mode word the roll stays normal |
| ModifierParser.DiceOfAppend | src/dnd_mcp/dice.py:176-179 | one more word adds at most its own dice modifier, at the end |
| ModifierParser.FlatOfAppend | src/dnd_mcp/dice.py:180-187 | one more word adds at most its own flat modifier, at the end |
| ModifierParser.FlatWordRoundTrip | src/dnd_mcp/dice.py:180-187 | the decimal text of any integer parses back to a flat modifier of that value, with `+` shown before a non-negative value |
| ModifierParser.PlusWordRoundTrip | src/dnd_mcp/dice.py:180-183 | `"+"` followed by the decimal text of a natural number parses back to that value, described with the word itself |
| ModifierParser.DiceWordRoundTrip | src/dnd_mcp/dice.py:176-179 | a colon-free name joined to any expression by a colon parses back to that expression under the title-cased name |
| ModifierParser.BlankText | src/dnd_mcp/dice.py:163-171 | text made only of whitespace parses to no modifiers |
| ModifierParser.CaseInsensitive | src/dnd_mcp/dice.py:166 | lower-casing the text first changes nothing |
| ModifierParser.ParsedNamesPlain | src/dnd_mcp/dice.py:176-187 | no modifier name the parser produces holds a space, so the breakdown's rewrite cannot reach into a name |
| Dice.ParseDiceSpec | src/dnd_mcp/dice.py:31-36 | an expression without a `d` fails with `InvalidDiceFormat`, and every failure is that error; a parsed expression holds exactly one `d`; for text split at its single `d`, parsing succeeds exactly when the count is empty or an `int()` numeral and the sides are an `int()` numeral, and then gives the count (1 when empty) and the sides as those numbers |
| Dice.DiceSpecRoundTrip | src/dnd_mcp/dice.py:34-36 | the text `<count>d<sides>` of any two integers parses back to those two integers |
| Dice.SingleDieRoundTrip | src/dnd_mcp/dice.py:35 | an empty count before the `d` means one die |
| Dice.CheckedSpec | src/dnd_mcp/dice.py:31-38 | rolling an expression succeeds exactly when it parses and either no die is drawn or the sides are at least 1; an expression that does not parse fails with exactly the parse error, and one that parses fails only with `EmptyRange` |
| Dice.RollDice | src/dnd_mcp/dice.py:28-47 | a rolled modifier keeps its name, expression and description, draws as many values as its count (none when the count is not positive), consumes exactly those draws in order, and totals their sum |
| Dice.RollDiceInRange | src/dnd_mcp/dice.py:36-39 | with an honest source every die lies in 1..sides and the total lies between the count and the count times the sides |
| Dice.RollD20 | src/dnd_mcp/dice.py:84-112 | one draw for a normal roll and two otherwise, recorded in draw order; the result is one of the draws, the highest with advantage and the lowest with disadvantage |
| Dice.AdvantageOrdering | src/dnd_mcp/dice.py:86-112 | on the same draws, disadvantage never beats a normal roll and a normal roll never beats advantage |
| Dice.D20InRange | src/dnd_mcp/dice.py:86-98 | with an honest source the used d20 lies in 1..20 |
| Dice.RollAll | src/dnd_mcp/dice.py:75-77 | the dice modifiers are rolled in order on consecutive draws; the whole call fails exactly when some expression cannot be rolled, with the first such error |
| Dice.FlatTotalIsSum | src/dnd_mcp/dice.py:71-73 | the flat total is the sum of the modifiers' values, taken in order |
| Dice.FlatTotalAppend | src/dnd_mcp/dice.py:71-73 | the flat total of two lists is the sum of their totals |
| Dice.FlatTotalPermutation | src/dnd_mcp/dice.py:71-73 | reordering the flat modifiers leaves the flat total unchanged |
| Dice.PerformRoll | src/dnd_mcp/dice.py:115-152 | fails exactly when some dice expression cannot be rolled, with the first error; otherwise the d20 is the roll of the parsed roll type on the first draws, each reported dice result is its own modifier rolled, the d20 and then each dice modifier use consecutive draws from the first, and the total is the used d20 plus the base plus the flat total plus every die drawn; with space-free names the breakdown reads d20, then the base only when non-zero, the flat terms and the dice totals, each negative one as a subtraction, then `= total` |
| Dice.BreakdownOfRoll | src/dnd_mcp/dice.py:129-141 | the joined and rewritten breakdown text equals the independent spoken reading of its terms |
| Render.BreakdownReads | src/dnd_mcp/dice.py:140-141 | for space-free labels, joining with `" + "` and replacing `"+ -"` by `"- "` yields the first term, then each later term as an addition, or as the subtraction of its magnitude when negative, then `= total` |
| Render.CollapseSafePrefix | src/dnd_mcp/dice.py:140 | the replacement leaves untouched a prefix in which no `+` is followed by a space and which does not end in `+` |
| Sheet.ToDict | src/dnd_mcp/character.py:136-209 | player, race, hit points, armor class, ability scores and speed are always written; every other key is written exactly when its value is present, positive, non-empty or, for the treasure, holds a positive amount |
| Sheet.RoundTrip | src/dnd_mcp/character.py:71-122 | loading the dictionary of a character into any character gives it back exactly when its `xp` is not negative, its alignment is not the empty string and its treasure holds a positive amount or is the default purse |
| Sheet.RoundTripFields | src/dnd_mcp/character.py:151-207 | after a round trip a negative `xp` reads 0, an empty alignment reads absent and a purse without a positive amount reads as the default purse |
| Sheet.KeptCollections | src/dnd_mcp/character.py:154-204 | after a round trip every list and dictionary `to_dict` drops when empty comes back equal |
| Sheet.LoadFromDict | src/dnd_mcp/character.py:71-122 | `name`, `nickname` and `alignment` are read as given (absent stays absent); `player` is replaced only when present, its `name` defaulting to `"NPC"`; every other field takes the dictionary's value when present and the constructor's default otherwise |
| Sheet.LoadEmpty | src/dnd_mcp/character.py:71-122 | loading the empty dictionary gives the constructor's character, except that the player is kept |
| Sheet.LoadPlayerDefaults | src/dnd_mcp/character.py:78-82 | a `player` entry without `name` loads as `"NPC"` and one without `id` loads with no id |
| Sheet.GetLevel | src/dnd_mcp/character.py:211-213 | no classes give level 0, a class without a level counts 0, and when no class level is negative the total is non-negative and at least every single class's level |
| Sheet.LevelSumAppend | src/dnd_mcp/character.py:211-213 | adding classes adds their levels to the total level |
| Sheet.LevelSumPermutation | src/dnd_mcp/character.py:211-213 | reordering the classes leaves the total level unchanged |
| Sheet.ScoreModifier | src/dnd_mcp/character.py:218 | the modifier is the floor of half the distance of the score from 10 |
| Sheet.ScoreModifierMonotone | src/dnd_mcp/character.py:218 | a higher score never gives a lower modifier |
| Sheet.AbilityModifier | src/dnd_mcp/character.py:215-218 | the ability is looked up lower-cased; a missing ability counts as a score of 10, so its modifier is 0 |
| Sheet.ProficiencyBonus | src/dnd_mcp/character.py:220-223 | the bonus grows by one every four levels: it is 2 plus the floor of a quarter of the total level minus one, and at least 2 from level 1 |
| Sheet.LevelProficiency | src/dnd_mcp/character.py:220-223 | the bonus is 2 plus the floor of a quarter of the level minus one |
| Sheet.ProficiencyTable | src/dnd_mcp/character.py:220-223 | +2 at levels 1-4, +3 at 5-8, +4 at 9-12, +5 at 13-16, +6 at 17-20, and +1 at level 0 |
| Sheet.ProficiencyMonotone | src/dnd_mcp/character.py:220-223 | a higher level never gives a lower bonus |
| Constants.SkillAbilitiesValues | src/dnd_mcp/constants.py:8-27 | every skill maps to one of the six ability keys, and none maps to constitution |
| Constants.SkillCount | src/dnd_mcp/constants.py:8-27 | the table holds eighteen skills |
| Constants.SkillExamples | src/dnd_mcp/constants.py:9-25 | `athletics` maps to strength, and `acrobatics`, `sleight_of_hand` and `stealth` map to dexterity |
| Constants.NormalizeSkill | src/dnd_mcp/server.py:112 | the normalised skill has the typed length, with each space made `_` and each letter lower-cased, so it holds no space and no upper-case letter |
| Constants.NormalizeIdempotent | src/dnd_mcp/server.py:112 | normalising a normalised skill changes nothing |
| Constants.KeysAreNormal | src/dnd_mcp/server.py:112-114 | every skill key survives the skill tool's normalisation unchanged, so a key typed as listed is found |
| Server.RollAbilityCheck | src/dnd_mcp/server.py:67-95 | without a character the reply is the no-character message; an ability not on the sheet after lower-casing is rejected with the sheet's abilities; otherwise the reply carries `perform_roll` of the ability modifier and the parsed modifiers, named `<ABILITY> Check`, and is `RollFailed` with its error exactly when that roll fails; the session is unchanged |
| Server.RollSkillCheck | src/dnd_mcp/server.py:98-139 | the skill is lower-cased with spaces made underscores and must be in the table; the base is the modifier of the skill's ability plus the proficiency bonus exactly when the sheet marks the skill proficient; the reply carries `perform_roll` of that base and the parsed modifiers, named after the title-cased skill with underscores as spaces, and is `RollFailed` with its error exactly when that roll fails; it names the skill and its upper-cased ability; the session is unchanged |
| Server.RollSavingThrow | src/dnd_mcp/server.py:142-177 | validated like an ability check; the base adds the proficiency bonus exactly when the sheet marks the save proficient; the reply carries `perform_roll` of that base and the parsed modifiers, named `<ABILITY> Saving Throw`, and is `RollFailed` with its error exactly when that roll fails; the session is unchanged |
| Server.RollAttack | src/dnd_mcp/server.py:180-213 | the attack is always strength-based and always adds the proficiency bonus; the weapon reads `Generic Attack` when none is named and the ability reads `STR`; it is never rejected as an invalid ability or skill; with a character the reply carries `perform_roll` of the strength modifier plus the bonus and the parsed modifiers, named `Attack Roll`, and is `RollFailed` with its error exactly when that roll fails; the session is unchanged |
| Server.PerformRollShift | src/dnd_mcp/dice.py:115-152 | raising the base by some amount raises the total by that amount and changes neither the d20 nor the dice |
| Server.SkillIsAbilityCheck | src/dnd_mcp/server.py:119-132 | a skill check succeeds exactly when the check of its ability does, and on the same draws totals that check plus the proficiency bonus when proficient |
| Server.SaveIsAbilityCheck | src/dnd_mcp/server.py:156-171 | a saving throw succeeds exactly when the check of the same ability does, and on the same draws totals that check plus the proficiency bonus when proficient |
| Server.AttackIsStrengthCheck | src/dnd_mcp/server.py:196-207 | an attack succeeds exactly when a strength check does, and on the same draws totals that check plus the proficiency bonus |
| Server.ClampHitPoints | src/dnd_mcp/server.py:258-261 | with a non-negative maximum the new value lies in 0..maximum, and a value already in range is kept |
| Server.ClampIsNearest | src/dnd_mcp/server.py:258-261 | the clamped value is the point of 0..maximum nearest to the requested one |
| Server.ClampIdempotent | src/dnd_mcp/server.py:258-261 | clamping twice equals clamping once exactly when the maximum is not negative |
| Server.UpdateHitPoints | src/dnd_mcp/server.py:250-266 | sets only `hit_points["current"]`, to the requested value clamped against `max` (0 when missing), keeps every other key and field, and reports the old value (0 when missing), the new one and the maximum |
| Server.UpdateHitPointsTwice | src/dnd_mcp/server.py:250-266 | repeating the same update leaves the character as one update does |
| Server.NoCharacterLoaded | src/dnd_mcp/server.py:78-79 | every roll tool and the hit point update answer the no-character message and leave the session empty |
| Server.MessageText | src/dnd_mcp/server.py:253-266 | the text is the no-character message exactly for that reply, and the hit point message starts with `Hit points updated: ` |
| Text.Title | src/dnd_mcp/dice.py:179 | `str.title()` on ASCII: same length, non-letters kept, a letter upper-cased when it does not follow a letter and lower-cased when it does |
| Text.Words | src/dnd_mcp/dice.py:166 | every word of `str.split()` is non-empty and holds no whitespace |
| Text.WordsCoverText | src/dnd_mcp/dice.py:166 | the words, joined back together, are the text with its whitespace removed |
| Text.ParseInt | src/dnd_mcp/dice.py:35-36 | `int()` accepts exactly a digit string of any length, optionally after one `+` or `-` |
| Text.IntToString | src/dnd_mcp/dice.py:129-141 | `str(int)` ends in a digit, holds no space and no `+`, and starts with `-` exactly for a negative number |
| Text.IntToStringRoundTrip | src/dnd_mcp/dice.py:129-141 | `int()` reads the decimal text of any integer back as that integer |
| Examples.AdvantageExample | src/dnd_mcp/dice.py:155-189 | `"advantage +2 guidance:1d4"` parses to advantage, a flat +2 and a `Guidance` d4 |
| Examples.TitleAfterDigit | src/dnd_mcp/dice.py:179 | the title-casing of a name turns `2nd` into `2Nd` |
| Examples.PositiveFlatBreakdown | src/dnd_mcp/dice.py:129-141 | a natural 15 with base 3 and a flat +2 reads `15 (d20) + 3 (base) + +2 (Modifier) = 20` |
| Examples.NegativeFlatBreakdown | src/dnd_mcp/dice.py:129-141 | a natural 12 with base 0 and a flat -1 reads `12 (d20) - 1 (Modifier) = 11` |
| Examples.OneFlatRoll | src/dnd_mcp/dice.py:115-152 | a normal roll with one flat modifier and no dice uses the first draw and totals it with the base and the flat value |
| Examples.MalformedDiceFailsAtRoll | src/dnd_mcp/dice.py:31-32 | `guidance:xx` is accepted by the parser, and a roll using it fails with `InvalidDiceFormat("xx")` whatever the draws |
| Examples.DiceSpecExamples | src/dnd_mcp/dice.py:34-35 | `d6` is one six-sided die and `1d6d2` is malformed |

## Left out

- Randomness: `random.randint` is the `Source` parameter; nothing models how uniform it is.
- I/O: `load`, `load_from_json`, `write`, `to_json`, and the `load_character` and
  `save_character` tools read and write files and JSON text. The model stops at the
  dictionary form (`SheetData`, with an absent key as `None`).
- JSON `null` as the value of a key whose field has a fixed type is not modelled; every
  present key holds a value of the field's type.
- A class entry whose `level` is not a number, for which Python raises `TypeError`, is not
  modelled; a level is an integer or absent.
- The treasure holds integers. Python allows floats there, and floating point is left out.
- Replies are datatypes. The JSON text the tools build with `json.dumps` is not modelled.
  `MessageText` gives the text only of the no-character and hit-point messages.
- The valid abilities and skills that `InvalidAbility` and `InvalidSkill` report are sets.
  The tools reply with the dictionary's keys as a list in insertion order, and that order is
  not modelled.
- FastMCP registration and the module-level global character are left out; the session is
  an explicit value passed in and returned.
- `get_dice_total` rolls the dice modifiers again and sums their totals. No tool calls it,
  and `Dice.RollAll` models the rolling it repeats.
- `get_character_info`, `get_character_spells`, `get_character_equipment`, `__str__` and
  `__repr__` only format the sheet for display.
- The tools `list_available_skills` and `list_common_modifiers` only print `SKILL_ABILITIES`
  and `COMMON_MODIFIERS` as JSON, and `COMMON_MODIFIERS` is used by nothing else.
- The tool `create_custom_modifier` rolls one dice expression and formats a flat value for
  display; its roll is `Dice.RollDice`, and its formatted text is not modelled.
- Strings are ASCII. `str.lower`, `str.upper`, `str.title`, `str.isdigit`, `str.split` and
  `int()` are modelled on ASCII text only, so non-ASCII digits, letters and whitespace are
  left out, as are the underscores `int()` accepts between digits.
- Text.ParseInt: Python 3.11 and later (and 3.10.7) refuse to convert text of more than
  4300 digits and raise `ValueError`. Here any length parses, so a flat word or a dice count
  or sides of more than 4300 digits, for which `parse_modifiers_string` or
  `DiceModifier.roll` raises, is read as its number.
- Text.IntToStringRoundTrip: for the same reason `str()` of an integer of more than 4300
  digits raises in Python, while the round trip here holds for every integer.
- Dice.ParseDiceSpec: `int()` also strips surrounding whitespace, so `"1d 4"` draws a d4 in
  Python and fails here. Words from the parser hold no whitespace, so only a hand-built
  modifier reaches this difference.
- Dice.PerformRoll: the breakdown is stated only when no modifier name holds a space. Names
  from the parser never do (`ModifierParser.ParsedNamesPlain`), but a caller building
  modifiers by hand could produce other text.

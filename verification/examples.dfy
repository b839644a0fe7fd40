/** Concrete runs of the model on the formats the tools document, including the two quirks
    of the original: a positive flat modifier reads `"+ +2 (Modifier)"` in a breakdown, and
    `str.title()` capitalises a letter after a digit.

    Most examples go through small helper lemmas whose parameters are pinned to literals by
    `requires x == "..."`. The solver reasons about a named string much more cheaply than
    about the same literal spelled out inside a larger term, so each step of an example sees
    only the few literals it needs. */
module Examples {
  import opened Common
  import opened Text
  import opened Dice
  import opened ModifierParser

  /** A source whose every draw is `v`. */
  function Always(v: int): Source {
    (i: nat) => v
  }

  /** `"advantage +2 guidance:1d4"` asks for advantage, a flat +2 and a guidance d4. */
  lemma AdvantageExample()
    ensures ParseModifiers("advantage +2 guidance:1d4") == RollModifiers(
      [FlatModifier("Modifier", 2, "Flat modifier +2")],
      [DiceModifier("Guidance", "1d4", "Guidance dice")],
      Advantage)
  {
    AdvantageText("advantage +2 guidance:1d4", ["advantage", "+2", "guidance:1d4"]);
    AdvantageWords();
  }

  lemma AdvantageText(text: string, parts: seq<string>)
    requires text == "advantage +2 guidance:1d4" && parts == ["advantage", "+2", "guidance:1d4"]
    ensures ParseModifiers(text) == ParseParts(parts)
  {
    JoinThree("advantage", "+2", "guidance:1d4", " ");
    ParseOfWords(text, parts);
  }

  lemma JoinThree(a: string, b: string, c: string, sep: string)
    ensures Join([a, b, c], sep) == a + sep + b + sep + c
  {
    assert [a, b, c][1..] == [b, c];
    assert [b, c][1..] == [c];
    assert Join([b, c], sep) == b + sep + c;
    AppendAssoc(a + sep, b + sep, c);
    AppendAssoc(a + sep, b, sep);
  }

  lemma AdvantageWords()
    ensures ParseParts(["advantage", "+2", "guidance:1d4"]) == RollModifiers(
      [FlatModifier("Modifier", 2, "Flat modifier +2")],
      [DiceModifier("Guidance", "1d4", "Guidance dice")],
      Advantage)
  {
    AdvantageParts("advantage", "+2", "guidance:1d4");
  }

  lemma AdvantageParts(a: string, b: string, c: string)
    requires a == "advantage" && b == "+2" && c == "guidance:1d4"
    ensures ParseParts([a, b, c]) == RollModifiers(
      [FlatModifier("Modifier", 2, "Flat modifier +2")],
      [DiceModifier("Guidance", "1d4", "Guidance dice")],
      Advantage)
  {
    AdvantageWord(a);
    PlusTwoWord(b);
    GuidanceSplit("guidance", "1d4", c);
    ParseThree(a, b, c, FlatModifier("Modifier", 2, "Flat modifier +2"),
               DiceModifier("Guidance", "1d4", "Guidance dice"));
  }

  lemma AdvantageWord(a: string)
    requires a == "advantage"
    ensures Classify(a) == SetMode(Advantage)
  {
  }

  lemma PlusTwoWord(b: string)
    requires b == "+2"
    ensures Classify(b) == AddFlat(FlatModifier("Modifier", 2, "Flat modifier +2"))
  {
    var digits := b[1..];
    assert digits == "2" && IsDigits(digits);
    assert digits[..0] == [];
    assert DigitsValue(digits) == 2;
    assert ParseInt(b) == Some(2);
    assert !IsDigits(b) by { assert !IsDigit(b[0]); }
    assert ':' !in b;
  }

  lemma GuidanceSplit(name: string, dice: string, part: string)
    requires name == "guidance" && part == name + ":" + dice
    ensures Classify(part) == AddDice(DiceModifier("Guidance", dice, "Guidance dice"))
  {
    DiceWordRoundTrip(name, dice);
    TitleGuidance(name);
  }

  lemma TitleGuidance(name: string)
    requires name == "guidance"
    ensures Title(name) == "Guidance"
  {
  }

  /** Lower-case text is parsed word by word. */
  lemma ParseOfWords(text: string, parts: seq<string>)
    requires text != "" && text == Join(parts, " ")
    requires forall k :: 0 <= k < |parts| ==> IsToken(parts[k])
    requires forall i :: 0 <= i < |text| ==> !IsUpper(text[i])
    ensures ParseModifiers(text) == ParseParts(parts)
  {
    LowerFixed(text);
    WordsOfJoin(parts);
  }

  /** A mode word, a flat modifier and a dice modifier, in that order. */
  lemma ParseThree(a: string, b: string, c: string, f: FlatModifier, m: DiceModifier)
    requires Classify(a) == SetMode(Advantage)
    requires Classify(b) == AddFlat(f)
    requires Classify(c) == AddDice(m)
    ensures ParseParts([a, b, c]) == RollModifiers([f], [m], Advantage)
  {
    assert [a, b, c][..2] == [a, b];
    assert [a, b][..1] == [a];
    assert [a][..0] == [];
    assert ParseParts([a]) == Apply(NoModifiers, a);
    assert ParseParts([a, b]) == Apply(ParseParts([a]), b);
    assert ParseParts([a, b, c]) == Apply(ParseParts([a, b]), c);
  }

  /** `str.title()` starts a new word after a digit. */
  lemma TitleAfterDigit()
    ensures Title("2nd") == "2Nd"
  {
  }

  /** A normal roll with one flat modifier and no dice: the d20 is the first draw, and the
      breakdown is the d20, the base term when the base is not zero, then the flat term. */
  lemma OneFlatRoll(base: int, f: FlatModifier, rollName: string, d: int)
    requires Render.Plain(f.name)
    ensures var r := PerformRoll(base, RollModifiers([f], [], Normal), rollName, Always(d));
      && r.Ok? && r.value.d20.result == d && r.value.total == d + base + f.value
      && r.value.breakdown == IntToString(d) + " (d20)" + (BaseSpoken(base) + Render.Spoken(Render.Term(f.value, f.name, true)))
                              + " = " + IntToString(d + base + f.value)
  {
    var mods := RollModifiers([f], [], Normal);
    var r := PerformRoll(base, mods, rollName, Always(d));
    assert PlainNames(mods);
    assert r.Ok?;
    var res := r.value;
    assert res.d20.rolls == Draws(Always(d), 0, 1);
    assert res.d20.result == d;
    assert res.diceModifiers == [];
    assert AllRolls([]) == [];
    assert FlatTotal([f]) == f.value;
    assert FlatTerms([f]) == [Render.Term(f.value, f.name, true)];
    assert Render.SpokenAll(FlatTerms([f])) == Render.Spoken(Render.Term(f.value, f.name, true));
    var flat := Render.SpokenAll(FlatTerms([f]));
    var dice := Render.SpokenAll(DiceTerms(res.diceModifiers));
    assert dice == "";
    assert BaseSpoken(base) + flat + dice == BaseSpoken(base) + flat;
    assert res.total == d + base + f.value;
  }

  /** A base of 3 and a flat +2 on a natural 15: the flat keeps its own `+`, so the breakdown
      reads `"+ +2"`. */
  lemma PositiveFlatBreakdown()
    ensures var mods := RollModifiers([FlatModifier("Modifier", 2, "Flat modifier +2")], [], Normal);
      var r := PerformRoll(3, mods, "STR Check", Always(15));
      r.Ok? && r.value.total == 20 && r.value.breakdown == "15 (d20) + 3 (base) + +2 (Modifier) = 20"
  {
    PositiveFlatReads(3, FlatModifier("Modifier", 2, "Flat modifier +2"), 15);
  }

  lemma PositiveFlatReads(base: int, f: FlatModifier, d: int)
    requires base == 3 && f == FlatModifier("Modifier", 2, "Flat modifier +2") && d == 15
    ensures var r := PerformRoll(base, RollModifiers([f], [], Normal), "STR Check", Always(d));
      r.Ok? && r.value.total == 20 && r.value.breakdown == "15 (d20) + 3 (base) + +2 (Modifier) = 20"
  {
    assert Render.Plain(f.name);
    var roll, sum := IntToString(d), IntToString(d + base + f.value);
    NumeralOf(d, "15");
    NumeralOf(d + base + f.value, "20");
    OneFlatRoll(base, f, "STR Check", d);
    var baseText := BaseSpoken(base);
    BaseThreeSpoken(base);
    var flatText := Render.Spoken(Render.Term(f.value, f.name, true));
    PlusTwoSpoken(f.value, f.name);
    PositiveText(roll, baseText, flatText, sum);
  }

  lemma BaseThreeSpoken(base: int)
    requires base == 3
    ensures BaseSpoken(base) == " + 3 (base)"
  {
    NatNumeralOf(base, "3");
  }

  lemma PlusTwoSpoken(v: int, name: string)
    requires v == 2 && name == "Modifier"
    ensures Render.Spoken(Render.Term(v, name, true)) == " + +2 (Modifier)"
  {
    NatNumeralOf(v, "2");
  }

  lemma PositiveText(roll: string, baseText: string, flatText: string, sum: string)
    requires roll == "15" && baseText == " + 3 (base)" && flatText == " + +2 (Modifier)" && sum == "20"
    ensures roll + " (d20)" + (baseText + flatText) + " = " + sum == "15 (d20) + 3 (base) + +2 (Modifier) = 20"
  {
  }

  /** A flat -1 on a natural 12 with no base: the base term is left out and the negative
      term reads as a subtraction. */
  lemma NegativeFlatBreakdown()
    ensures var mods := RollModifiers([FlatModifier("Modifier", -1, "Flat modifier -1")], [], Normal);
      var r := PerformRoll(0, mods, "DEX Check", Always(12));
      r.Ok? && r.value.total == 11 && r.value.breakdown == "12 (d20) - 1 (Modifier) = 11"
  {
    NegativeFlatReads(0, FlatModifier("Modifier", -1, "Flat modifier -1"), 12);
  }

  lemma NegativeFlatReads(base: int, f: FlatModifier, d: int)
    requires base == 0 && f == FlatModifier("Modifier", -1, "Flat modifier -1") && d == 12
    ensures var r := PerformRoll(base, RollModifiers([f], [], Normal), "DEX Check", Always(d));
      r.Ok? && r.value.total == 11 && r.value.breakdown == "12 (d20) - 1 (Modifier) = 11"
  {
    assert Render.Plain(f.name);
    var roll, sum := IntToString(d), IntToString(d + base + f.value);
    NumeralOf(d, "12");
    NumeralOf(d + base + f.value, "11");
    OneFlatRoll(base, f, "DEX Check", d);
    var flatText := Render.Spoken(Render.Term(f.value, f.name, true));
    MinusOneSpoken(f.value, f.name);
    NegativeText(roll, BaseSpoken(base), flatText, sum);
  }

  lemma MinusOneSpoken(v: int, name: string)
    requires v == -1 && name == "Modifier"
    ensures Render.Spoken(Render.Term(v, name, true)) == " - 1 (Modifier)"
  {
    NatNumeralOf(-v, "1");
  }

  lemma NegativeText(roll: string, baseText: string, flatText: string, sum: string)
    requires roll == "12" && baseText == "" && flatText == " - 1 (Modifier)" && sum == "11"
    ensures roll + " (d20)" + (baseText + flatText) + " = " + sum == "12 (d20) - 1 (Modifier) = 11"
  {
  }

  /** The decimal text of a small non-negative number. */
  lemma NumeralOf(n: int, text: string)
    requires 0 <= n < 100 && text == (if n < 10 then [DigitChar(n)] else [DigitChar(n / 10), DigitChar(n % 10)])
    ensures IntToString(n) == text
  {
    NatNumeralOf(n, text);
  }

  lemma NatNumeralOf(n: nat, text: string)
    requires n < 100 && text == (if n < 10 then [DigitChar(n)] else [DigitChar(n / 10), DigitChar(n % 10)])
    ensures NatToString(n) == text
  {
    if n >= 10 {
      assert NatToString(n / 10) == [DigitChar(n / 10)];
    }
  }

  /** A dice modifier with a malformed expression is accepted by the parser and fails the
      whole roll when rolled. */
  lemma MalformedDiceFailsAtRoll(src: Source)
    ensures ParseModifiers("guidance:xx") == RollModifiers([], [DiceModifier("Guidance", "xx", "Guidance dice")], Normal)
    ensures PerformRoll(0, ParseModifiers("guidance:xx"), "WIS Check", src) == Err(InvalidDiceFormat("xx"))
  {
    MalformedParse("guidance:xx");
    MalformedRoll(ParseModifiers("guidance:xx"), "xx", src);
  }

  lemma MalformedParse(text: string)
    requires text == "guidance:xx"
    ensures ParseModifiers(text) == RollModifiers([], [DiceModifier("Guidance", "xx", "Guidance dice")], Normal)
  {
    MalformedWord(text);
    OneDiceWord(text, DiceModifier("Guidance", "xx", "Guidance dice"));
  }

  lemma MalformedWord(text: string)
    requires text == "guidance:xx"
    ensures ParseModifiers(text) == ParseParts([text])
    ensures Classify(text) == AddDice(DiceModifier("Guidance", "xx", "Guidance dice"))
  {
    SingleWord(text);
    MalformedSplit("guidance", "xx", text);
  }

  lemma SingleWord(text: string)
    requires text == "guidance:xx"
    ensures ParseModifiers(text) == ParseParts([text])
  {
    assert Join([text], " ") == text;
    ParseOfWords(text, [text]);
  }

  lemma MalformedSplit(name: string, dice: string, part: string)
    requires name == "guidance" && dice == "xx" && part == "guidance:xx"
    ensures Classify(part) == AddDice(DiceModifier("Guidance", "xx", "Guidance dice"))
  {
    assert part == name + ":" + dice;
    GuidanceSplit(name, dice, part);
  }

  /** A single dice word. */
  lemma OneDiceWord(part: string, m: DiceModifier)
    requires Classify(part) == AddDice(m)
    ensures ParseParts([part]) == RollModifiers([], [m], Normal)
  {
    assert [part][..0] == [];
  }

  lemma MalformedRoll(mods: RollModifiers, dice: string, src: Source)
    requires dice == "xx" && mods == RollModifiers([], [DiceModifier("Guidance", dice, "Guidance dice")], Normal)
    ensures PerformRoll(0, mods, "WIS Check", src) == Err(InvalidDiceFormat(dice))
  {
    assert 'd' !in dice;
    assert CheckedSpec(mods.diceModifiers[0].dice).Err?;
  }

  /** `"d6"` is one six-sided die; `"1d6d2"` has two `d`s and is malformed. */
  lemma DiceSpecExamples()
    ensures ParseDiceSpec("d6") == Ok(DiceSpec(1, 6))
    ensures ParseDiceSpec("1d6d2") == Err(InvalidDiceFormat("1d6d2"))
  {
    SixSidedDie("d6", 6);
    TwoLetterDs("1d6d2");
  }

  lemma SixSidedDie(dice: string, sides: int)
    requires dice == "d6" && sides == 6
    ensures ParseDiceSpec(dice) == Ok(DiceSpec(1, sides))
  {
    SingleDieRoundTrip(sides);
    assert IntToString(sides) == "6";
    assert dice == "d" + IntToString(sides);
  }

  lemma TwoLetterDs(dice: string)
    requires dice == "1d6d2"
    ensures ParseDiceSpec(dice) == Err(InvalidDiceFormat(dice))
  {
    var (a, b) := SplitOnce(dice, 'd');
    assert dice == "1" + "d" + "6d2";
    SplitOnceUnique(dice, 'd', a, b, "1", "6d2");
  }
}

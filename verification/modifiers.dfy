/** The modifier text of the roll tools (`parse_modifiers_string`, src/dnd_mcp/dice.py:155-189):
    the text is lower-cased and split on whitespace, and every word either sets the roll type,
    adds a dice modifier (`name:dice`), adds a flat modifier (an integer), or is ignored. */
module ModifierParser {
  import opened Common
  import opened Text
  import opened Dice

  /** What one word of the modifier text asks for. */
  datatype Token =
    | SetMode(mode: RollType)
    | AddDice(dice: DiceModifier)
    | AddFlat(flat: FlatModifier)
    | Ignored

  /** A word that starts with a sign followed by at least one digit. */
  predicate IsSignedNumber(part: string) {
    |part| > 0 && (part[0] == '+' || part[0] == '-') && IsDigits(part[1..])
  }

  /** How the loop body treats one (already lower-cased) word. The tests are made in this
      order: `advantage`, `disadvantage`, a colon anywhere, a signed number, an unsigned number.
      A dice modifier's name is the title-cased text before the first colon and its expression
      is everything after that colon, unchecked; a flat modifier's description shows the word,
      with a `+` put in front of an unsigned number. */
  function Classify(part: string): (r: Token)
    ensures r.SetMode? <==> part == "advantage" || part == "disadvantage"
    ensures r.SetMode? ==> (r.mode == Advantage <==> part == "advantage")
    ensures r.AddDice? <==> !r.SetMode? && ':' in part
    ensures r.AddDice? ==>
      exists name :: && part == name + ":" + r.dice.dice && ':' !in name
                     && r.dice.name == Title(name) && r.dice.description == Title(name) + " dice"
    ensures r.AddFlat? <==> !r.SetMode? && ':' !in part && (IsSignedNumber(part) || IsDigits(part))
    ensures r.AddFlat? ==>
      && ParseInt(part) == Some(r.flat.value) && r.flat.name == "Modifier"
      && r.flat.description == "Flat modifier " + (if IsDigits(part) then "+" else "") + part
  {
    if part == "advantage" then SetMode(Advantage)
    else if part == "disadvantage" then SetMode(Disadvantage)
    else if ':' in part then
      var (name, dice) := SplitOnce(part, ':');
      assert part == name + ":" + dice;
      AddDice(DiceModifier(Title(name), dice, Title(name) + " dice"))
    else if IsSignedNumber(part) then
      assert !IsDigits(part) by { assert !IsDigit(part[0]); }
      AddFlat(FlatModifier("Modifier", ParseInt(part).value, "Flat modifier " + part))
    else if IsDigits(part) then
      AddFlat(FlatModifier("Modifier", ParseInt(part).value, "Flat modifier +" + part))
    else Ignored
  }

  /** The modifiers after one more word. */
  function Apply(acc: RollModifiers, part: string): RollModifiers {
    match Classify(part)
    case SetMode(t) => acc.(rollType := t)
    case AddDice(m) => acc.(diceModifiers := acc.diceModifiers + [m])
    case AddFlat(f) => acc.(flatModifiers := acc.flatModifiers + [f])
    case Ignored => acc
  }

  /** The loop of `parse_modifiers_string` over `parts`, starting from no modifiers. */
  function ParseParts(parts: seq<string>): (r: RollModifiers)
    ensures parts == [] ==> r == NoModifiers
    ensures |r.diceModifiers| + |r.flatModifiers| <= |parts|
    decreases |parts|
  {
    if parts == [] then NoModifiers else Apply(ParseParts(parts[..|parts| - 1]), parts[|parts| - 1])
  }

  /** `parse_modifiers_string`: empty text gives no modifiers; otherwise the loop runs over
      the whitespace-separated words of the lower-cased text. */
  function ParseModifiers(text: string): (r: RollModifiers)
    ensures text == "" ==> r == NoModifiers
  {
    if text == "" then NoModifiers else ParseParts(Words(Lower(text)))
  }

  // ---------------------------------------------------------------------------
  // What the parse means, word by word
  // ---------------------------------------------------------------------------

  predicate IsModeWord(part: string) {
    part == "advantage" || part == "disadvantage"
  }

  function ModeOfWord(part: string): RollType {
    if part == "advantage" then Advantage else Disadvantage
  }

  /** The dice modifiers the words ask for, in the order they appear. */
  function DiceOf(parts: seq<string>): seq<DiceModifier> {
    if parts == [] then [] else DiceWord(parts[0]) + DiceOf(parts[1..])
  }

  /** The dice modifier one word asks for, if any. */
  function DiceWord(part: string): seq<DiceModifier> {
    if Classify(part).AddDice? then [Classify(part).dice] else []
  }

  /** The flat modifiers the words ask for, in the order they appear. */
  function FlatOf(parts: seq<string>): seq<FlatModifier> {
    if parts == [] then [] else FlatWord(parts[0]) + FlatOf(parts[1..])
  }

  /** The flat modifier one word asks for, if any. */
  function FlatWord(part: string): seq<FlatModifier> {
    if Classify(part).AddFlat? then [Classify(part).flat] else []
  }

  /** The loop collects every dice modifier and every flat modifier in word order. */
  lemma {:induction false} ParsePartsLists(parts: seq<string>)
    ensures ParseParts(parts).diceModifiers == DiceOf(parts)
    ensures ParseParts(parts).flatModifiers == FlatOf(parts)
    decreases |parts|
  {
    if parts != [] {
      var n := |parts| - 1;
      var init, last := parts[..n], parts[n];
      assert parts == init + [last];
      ParsePartsLists(init);
      ApplyLists(ParseParts(init), last);
      DiceOfAppend(init, last);
      FlatOfAppend(init, last);
    }
  }

  /** One more word adds its dice modifier and its flat modifier, if any, at the end. */
  lemma ApplyLists(acc: RollModifiers, part: string)
    ensures Apply(acc, part).diceModifiers == acc.diceModifiers + DiceWord(part)
    ensures Apply(acc, part).flatModifiers == acc.flatModifiers + FlatWord(part)
  {
  }

  /** Without `advantage` or `disadvantage` among the words the roll is normal. */
  lemma {:induction false} ParsePartsNormal(parts: seq<string>)
    requires forall k :: 0 <= k < |parts| ==> !IsModeWord(parts[k])
    ensures ParseParts(parts).rollType == Normal
    decreases |parts|
  {
    if parts != [] {
      var n := |parts| - 1;
      var init := parts[..n];
      assert forall k :: 0 <= k < |init| ==> init[k] == parts[k];
      ParsePartsNormal(init);
      ApplyMode(ParseParts(init), parts[n]);
    }
  }

  /** The roll type is set by the last of `advantage` and `disadvantage` to appear: a later
      mode word overrides an earlier one. */
  lemma {:induction false} ParsePartsLastMode(parts: seq<string>, k: nat)
    requires k < |parts| && IsModeWord(parts[k])
    requires forall j :: k < j < |parts| ==> !IsModeWord(parts[j])
    ensures ParseParts(parts).rollType == ModeOfWord(parts[k])
    decreases |parts|
  {
    var n := |parts| - 1;
    var init, last := parts[..n], parts[n];
    ApplyMode(ParseParts(init), last);
    if k < n {
      assert init[k] == parts[k];
      assert forall j :: k < j < |init| ==> init[j] == parts[j];
      ParsePartsLastMode(init, k);
    }
  }

  /** A mode word sets the roll type; any other word keeps it. */
  lemma ApplyMode(acc: RollModifiers, part: string)
    ensures IsModeWord(part) ==> Apply(acc, part).rollType == ModeOfWord(part)
    ensures !IsModeWord(part) ==> Apply(acc, part).rollType == acc.rollType
  {
  }

  lemma {:induction false} DiceOfAppend(parts: seq<string>, last: string)
    ensures DiceOf(parts + [last]) == DiceOf(parts) + DiceWord(last)
    decreases |parts|
  {
    if parts == [] {
      assert [last][1..] == [];
    } else {
      var all := parts + [last];
      assert all[0] == parts[0] && all[1..] == parts[1..] + [last];
      DiceOfAppend(parts[1..], last);
      var head := DiceWord(parts[0]);
      AppendAssoc(head, DiceOf(parts[1..]), DiceWord(last));
    }
  }


  lemma {:induction false} FlatOfAppend(parts: seq<string>, last: string)
    ensures FlatOf(parts + [last]) == FlatOf(parts) + FlatWord(last)
    decreases |parts|
  {
    if parts == [] {
      assert [last][1..] == [];
    } else {
      var all := parts + [last];
      assert all[0] == parts[0] && all[1..] == parts[1..] + [last];
      FlatOfAppend(parts[1..], last);
      var head := FlatWord(parts[0]);
      AppendAssoc(head, FlatOf(parts[1..]), FlatWord(last));
    }
  }


  // ---------------------------------------------------------------------------
  // Words the parser writes back
  // ---------------------------------------------------------------------------

  /** The text of any integer, signed or not, reads as a flat modifier of that value; the
      description of a non-negative one gains a `+`. */
  lemma FlatWordRoundTrip(v: int)
    ensures Classify(IntToString(v))
         == AddFlat(FlatModifier("Modifier", v, "Flat modifier " + (if v >= 0 then "+" else "") + IntToString(v)))
  {
    var s := IntToString(v);
    IntToStringRoundTrip(v);
    assert IsDigits(s) <==> v >= 0 by {
      if v < 0 { assert !IsDigit(s[0]); }
    }
    assert s != "advantage" && s != "disadvantage" by {
      assert IsDigit(s[|s| - 1]);
    }
    assert ':' !in s by {
      forall k | 0 <= k < |s| ensures s[k] != ':' {
        if k > 0 || v >= 0 {
          assert IsDigit(s[k]) by {
            if v < 0 { assert s[k] == NatToString(-v)[k - 1]; } else { assert s == NatToString(v); }
          }
        }
      }
    }
  }

  /** A non-negative number written with an explicit `+` reads as a flat modifier of that
      value whose description shows the word as typed. */
  lemma PlusWordRoundTrip(v: nat)
    ensures Classify("+" + IntToString(v)) == AddFlat(FlatModifier("Modifier", v, "Flat modifier +" + IntToString(v)))
  {
    var part := "+" + IntToString(v);
    PlusWordShape(v, part);
    assert !IsModeWord(part);
  }

  /** `+` then the digits of `v`: a signed number of value `v` with no colon. */
  lemma PlusWordShape(v: nat, part: string)
    requires part == "+" + IntToString(v)
    ensures IsSignedNumber(part) && !IsDigits(part) && ':' !in part
    ensures ParseInt(part) == Some(v)
    ensures part[0] == '+'
  {
    var digits := IntToString(v);
    IntToStringRoundTrip(v);
    assert part[1..] == digits;
    assert !IsDigits(part) by { assert !IsDigit(part[0]); }
    assert ':' !in part by {
      forall k | 0 <= k < |part| ensures part[k] != ':' {
        if k > 0 { assert part[k] == digits[k - 1]; }
      }
    }
  }

  /** `name:dice` with a colon-free name reads back as a dice modifier with that expression
      and the title-cased name. */
  lemma DiceWordRoundTrip(name: string, dice: string)
    requires ':' !in name
    ensures Classify(name + ":" + dice) == AddDice(DiceModifier(Title(name), dice, Title(name) + " dice"))
  {
    var part := name + ":" + dice;
    assert part[|name|] == ':';
    assert part != "advantage" && part != "disadvantage" by {
      assert ':' in part;
      assert ':' !in "advantage" && ':' !in "disadvantage";
    }
    var (a, b) := SplitOnce(part, ':');
    SplitOnceUnique(part, ':', a, b, name, dice);
  }

  // ---------------------------------------------------------------------------
  // Properties of the whole parse
  // ---------------------------------------------------------------------------

  /** Text made only of whitespace gives no modifiers, as empty text does. */
  lemma {:induction false} BlankText(text: string)
    requires forall i :: 0 <= i < |text| ==> IsSpace(text[i])
    ensures ParseModifiers(text) == NoModifiers
  {
    if text != "" {
      BlankWords(Lower(text));
    }
  }

  lemma {:induction false} BlankWords(s: string)
    requires forall i :: 0 <= i < |s| ==> IsSpace(s[i])
    ensures Words(s) == []
    decreases |s|
  {
    if s != [] {
      BlankWords(s[1..]);
    }
  }

  /** Modifier text is read without regard to case. */
  lemma CaseInsensitive(text: string)
    ensures ParseModifiers(Lower(text)) == ParseModifiers(text)
  {
    LowerIdempotent(text);
  }

  /** No modifier the parser makes has a space in its name, so the breakdown of a roll with
      parsed modifiers reads term by term (`Dice.PerformRoll`). */
  lemma ParsedNamesPlain(text: string)
    ensures PlainNames(ParseModifiers(text))
  {
    var r := ParseModifiers(text);
    if text != "" {
      var parts := Words(Lower(text));
      ParsePartsLists(parts);
      DiceNamesPlain(parts);
      FlatNamesPlain(parts);
    }
  }

  lemma {:induction false} DiceNamesPlain(parts: seq<string>)
    requires forall k :: 0 <= k < |parts| ==> IsToken(parts[k])
    ensures forall k :: 0 <= k < |DiceOf(parts)| ==> Render.Plain(DiceOf(parts)[k].name)
    decreases |parts|
  {
    if parts != [] {
      DiceNamesPlain(parts[1..]);
      var t := Classify(parts[0]);
      if t.AddDice? {
        TokenDiceNamePlain(parts[0]);
      }
      var head := DiceWord(parts[0]);
      assert DiceOf(parts) == head + DiceOf(parts[1..]);
      forall k | 0 <= k < |DiceOf(parts)| ensures Render.Plain(DiceOf(parts)[k].name) {
        if k >= |head| {
          assert DiceOf(parts)[k] == DiceOf(parts[1..])[k - |head|];
        }
      }
    }
  }

  lemma TokenDiceNamePlain(part: string)
    requires IsToken(part) && Classify(part).AddDice?
    ensures Render.Plain(Classify(part).dice.name)
  {
    var m := Classify(part).dice;
    var name :| && part == name + ":" + m.dice && ':' !in name
                && m.name == Title(name) && m.description == Title(name) + " dice";
    var t := Title(name);
    forall i | 0 <= i < |t| ensures t[i] != ' ' {
      assert name[i] == part[i];
      assert !IsSpace(part[i]);
      if IsLetter(name[i]) {
        assert t[i] == LowerChar(name[i]) || t[i] == UpperChar(name[i]);
        assert IsLetter(LowerChar(name[i])) && IsLetter(UpperChar(name[i]));
      } else {
        assert t[i] == name[i];
      }
    }
  }

  lemma {:induction false} FlatNamesPlain(parts: seq<string>)
    ensures forall k :: 0 <= k < |FlatOf(parts)| ==> FlatOf(parts)[k].name == "Modifier"
    ensures forall k :: 0 <= k < |FlatOf(parts)| ==> Render.Plain(FlatOf(parts)[k].name)
    decreases |parts|
  {
    if parts != [] {
      FlatNamesPlain(parts[1..]);
      var head := FlatWord(parts[0]);
      assert FlatOf(parts) == head + FlatOf(parts[1..]);
      forall k | 0 <= k < |FlatOf(parts)| ensures FlatOf(parts)[k].name == "Modifier" {
        if k >= |head| {
          assert FlatOf(parts)[k] == FlatOf(parts[1..])[k - |head|];
        }
      }
      assert Render.Plain("Modifier") by {
        assert "Modifier" == ['M', 'o', 'd', 'i', 'f', 'i', 'e', 'r'];
      }
    }
  }
}

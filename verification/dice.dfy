/** Dice rolling (src/dnd_mcp/dice.py): roll modes, dice and flat modifiers, rolling a dice
    expression, the d20 roll and a complete roll with its total and breakdown.

    Python's `random.randint` is replaced by a `Source`: the values the generator returns,
    in call order. Every operation is then a function of its inputs and of that stream. */
module Dice {
  import opened Common
  import opened Text
  import Render

  // ---------------------------------------------------------------------------
  // Data model
  // ---------------------------------------------------------------------------

  /** `RollType`. */
  datatype RollType = Normal | Advantage | Disadvantage

  /** A named extra die such as guidance or bardic inspiration; `dice` is the text of the
      expression (`"1d4"`), which is only checked when the modifier is rolled. */
  datatype DiceModifier = DiceModifier(name: string, dice: string, description: string)

  datatype FlatModifier = FlatModifier(name: string, value: int, description: string)

  /** `RollModifiers`: everything the modifier text asks of one roll. */
  datatype RollModifiers = RollModifiers(
    flatModifiers: seq<FlatModifier>,
    diceModifiers: seq<DiceModifier>,
    rollType: RollType)

  /** `RollModifiers()`: no modifiers and a normal roll. */
  const NoModifiers := RollModifiers([], [], Normal)

  /** The count and sides read from a dice expression. */
  datatype DiceSpec = DiceSpec(count: int, sides: int)

  /** The `ValueError`s rolling can raise. */
  datatype RollError =
    | InvalidDiceFormat(dice: string)  // no `d`, more than one `d`, or a part `int()` rejects
    | EmptyRange(dice: string)         // `randint(1, sides)` with `sides < 1`

  /** The result `DiceModifier.roll` returns. */
  datatype DiceRoll = DiceRoll(name: string, dice: string, rolls: seq<int>, total: int, description: string)

  /** The result `roll_d20` returns. */
  datatype D20Roll = D20Roll(result: int, rolls: seq<int>, rollType: RollType, usedRoll: int)

  /** The result `perform_roll` returns. */
  datatype RollResult = RollResult(
    rollName: string,
    d20: D20Roll,
    baseModifier: int,
    flatModifiers: seq<FlatModifier>,
    diceModifiers: seq<DiceRoll>,
    total: int,
    breakdown: string)

  // ---------------------------------------------------------------------------
  // The random source
  // ---------------------------------------------------------------------------

  /** The values `random.randint` returns, in call order: call number `i` returns `src(i)`. */
  type Source = nat -> int

  /** The `n` values drawn from call number `from` on. */
  function Draws(src: Source, from: nat, n: nat): (r: seq<int>)
    ensures |r| == n
    ensures forall i {:trigger r[i]} :: 0 <= i < n ==> r[i] == src(from + i)
    decreases n
  {
    if n == 0 then [] else [src(from)] + Draws(src, from + 1, n - 1)
  }

  /** The source keeps `randint(1, sides)`'s promise for the `n` calls from `from` on. */
  predicate Honest(src: Source, from: nat, n: nat, sides: int) {
    forall i :: from <= i < from + n ==> 1 <= src(i) <= sides
  }

  lemma {:induction false} DrawsAppend(src: Source, from: nat, n: nat, m: nat)
    ensures Draws(src, from, n) + Draws(src, from + n, m) == Draws(src, from, n + m)
  {
  }

  // ---------------------------------------------------------------------------
  // Sums
  // ---------------------------------------------------------------------------

  function Sum(xs: seq<int>): int {
    if xs == [] then 0 else xs[0] + Sum(xs[1..])
  }

  lemma {:induction false} SumAppend(a: seq<int>, b: seq<int>)
    ensures Sum(a + b) == Sum(a) + Sum(b)
  {
    if a != [] {
      assert (a + b)[1..] == a[1..] + b;
      SumAppend(a[1..], b);
    } else {
      assert a + b == b;
    }
  }

  /** A sum of `|xs|` values each in `[lo, hi]` lies in `[|xs| * lo, |xs| * hi]`. */
  lemma {:induction false} SumBounds(xs: seq<int>, lo: int, hi: int)
    requires forall i :: 0 <= i < |xs| ==> lo <= xs[i] <= hi
    ensures |xs| * lo <= Sum(xs) <= |xs| * hi
  {
    if xs != [] {
      SumBounds(xs[1..], lo, hi);
      assert |xs| * lo == lo + (|xs| - 1) * lo;
      assert |xs| * hi == hi + (|xs| - 1) * hi;
    }
  }

  /** The values of the flat modifiers, in order. */
  function Values(fs: seq<FlatModifier>): (r: seq<int>)
    ensures |r| == |fs|
    ensures forall k :: 0 <= k < |fs| ==> r[k] == fs[k].value
  {
    if fs == [] then [] else [fs[0].value] + Values(fs[1..])
  }

  /** `RollModifiers.get_flat_total`: the sum of the flat modifiers' values. */
  function FlatTotal(fs: seq<FlatModifier>): int {
    if fs == [] then 0 else fs[0].value + FlatTotal(fs[1..])
  }

  /** The flat total is the sum of the modifiers' values, taken in order. */
  lemma {:induction false} FlatTotalIsSum(fs: seq<FlatModifier>)
    ensures FlatTotal(fs) == Sum(Values(fs))
  {
    if fs != [] {
      assert Values(fs)[1..] == Values(fs[1..]);
      FlatTotalIsSum(fs[1..]);
    }
  }

  lemma {:induction false} FlatTotalAppend(a: seq<FlatModifier>, b: seq<FlatModifier>)
    ensures FlatTotal(a + b) == FlatTotal(a) + FlatTotal(b)
  {
    if a != [] {
      assert (a + b)[1..] == a[1..] + b;
      FlatTotalAppend(a[1..], b);
    } else {
      assert a + b == b;
    }
  }

  /** The order of the flat modifiers does not affect their total: any rearrangement of
      the same modifiers sums to the same value. */
  lemma {:induction false} FlatTotalPermutation(a: seq<FlatModifier>, b: seq<FlatModifier>)
    requires multiset(a) == multiset(b)
    ensures FlatTotal(a) == FlatTotal(b)
    decreases |a|
  {
    if a == [] {
      assert |b| == |multiset(b)| == 0;
    } else {
      var x := a[0];
      assert x in multiset(b);
      var j :| 0 <= j < |b| && b[j] == x;
      var rest := b[..j] + b[j + 1..];
      assert multiset(rest) == multiset(a[1..]) by {
        RemoveAt(a, 0);
        RemoveAt(b, j);
      }
      FlatTotalPermutation(a[1..], rest);
      FlatTotalSplit(b, j);
    }
  }

  /** The total is the element at `j` plus the total of the others. */
  lemma FlatTotalSplit(b: seq<FlatModifier>, j: nat)
    requires j < |b|
    ensures FlatTotal(b) == b[j].value + FlatTotal(b[..j] + b[j + 1..])
  {
    RemoveAt(b, j);
    FlatTotalAppend(b[..j] + [b[j]], b[j + 1..]);
    FlatTotalAppend(b[..j], [b[j]]);
    FlatTotalAppend(b[..j], b[j + 1..]);
  }

  // ---------------------------------------------------------------------------
  // Dice expressions (DiceModifier.roll)
  // ---------------------------------------------------------------------------

  /** How `DiceModifier.roll` reads its expression: `dice.split('d')` must give exactly
      two parts, an empty count means 1, and both parts go through `int()`. */
  function ParseDiceSpec(dice: string): (r: Result<DiceSpec, RollError>)
    ensures 'd' !in dice ==> r.Err?
    ensures r.Err? ==> r.error == InvalidDiceFormat(dice)
    ensures r.Ok? ==> multiset(dice)['d'] == 1
    ensures forall a, b :: dice == a + "d" + b && 'd' !in a && 'd' !in b ==>
      (r.Ok? <==> (a == "" || ParseInt(a).Some?) && ParseInt(b).Some?)
    ensures forall a, b :: dice == a + "d" + b && 'd' !in a && 'd' !in b
                           && (a == "" || ParseInt(a).Some?) && ParseInt(b).Some? ==>
      r == Ok(DiceSpec(if a == "" then 1 else ParseInt(a).value, ParseInt(b).value))
  {
    if 'd' !in dice then Err(InvalidDiceFormat(dice))
    else
      var parts := SplitOnce(dice, 'd');
      var countText, sidesText := parts.0, parts.1;
      SplitsAtD(dice, countText, sidesText);
      assert multiset(dice) == multiset(countText) + multiset{'d'} + multiset(sidesText);
      if 'd' in sidesText then Err(InvalidDiceFormat(dice))
      else
        var count := if countText == "" then Some(1) else ParseInt(countText);
        var sides := ParseInt(sidesText);
        if count.None? || sides.None? then Err(InvalidDiceFormat(dice))
        else Ok(DiceSpec(count.value, sides.value))
  }

  /** `str(count) + "d" + str(sides)` reads back as that count and those sides. */
  lemma {:induction false} DiceSpecRoundTrip(count: int, sides: int)
    ensures ParseDiceSpec(IntToString(count) + "d" + IntToString(sides)) == Ok(DiceSpec(count, sides))
  {
    var c, s := IntToString(count), IntToString(sides);
    NoDInNumeral(count);
    NoDInNumeral(sides);
    var text := c + "d" + s;
    SplitAtD(text, c, s);
    IntToStringRoundTrip(count);
    IntToStringRoundTrip(sides);
  }

  /** `"d" + str(sides)` reads back as a single die of those sides. */
  lemma {:induction false} SingleDieRoundTrip(sides: int)
    ensures ParseDiceSpec("d" + IntToString(sides)) == Ok(DiceSpec(1, sides))
  {
    var s := IntToString(sides);
    NoDInNumeral(sides);
    assert "d" + s == "" + "d" + s;
    SplitAtD("d" + s, "", s);
    IntToStringRoundTrip(sides);
  }

  lemma NoDInNumeral(i: int)
    ensures 'd' !in IntToString(i)
  {
    var t := IntToString(i);
    forall k | 0 <= k < |t| ensures t[k] != 'd' {
      assert t[k] == '-' || IsDigit(t[k]);
    }
  }

  /** Every split of `text` around a `d` with no `d` on either side is the split at the first `d`. */
  lemma SplitsAtD(text: string, first: string, second: string)
    requires 'd' in text && SplitOnce(text, 'd') == (first, second)
    ensures forall a, b :: text == a + "d" + b && 'd' !in a && 'd' !in b ==> a == first && b == second
  {
    forall a, b | text == a + "d" + b && 'd' !in a && 'd' !in b
      ensures a == first && b == second
    {
      SplitAtD(text, a, b);
    }
  }

  lemma SplitAtD(text: string, a: string, b: string)
    requires text == a + "d" + b && 'd' !in a && 'd' !in b
    ensures 'd' in text && SplitOnce(text, 'd') == (a, b)
  {
    assert text[|a|] == 'd';
    var (x, y) := SplitOnce(text, 'd');
    SplitOnceUnique(text, 'd', x, y, a, b);
  }

  /** The number of values `range(count)` draws. */
  function DrawCount(spec: DiceSpec): nat {
    if spec.count > 0 then spec.count else 0
  }

  /** Everything rolling an expression can raise: a malformed expression, or a first
      `randint(1, sides)` call on an empty range (none is made when the count is not positive). */
  function CheckedSpec(dice: string): (r: Result<DiceSpec, RollError>)
    ensures r.Ok? <==> ParseDiceSpec(dice).Ok? && (ParseDiceSpec(dice).value.count <= 0 || ParseDiceSpec(dice).value.sides >= 1)
    ensures r.Ok? ==> r.value == ParseDiceSpec(dice).value
    ensures r.Err? && ParseDiceSpec(dice).Ok? ==> r.error == EmptyRange(dice)
    ensures ParseDiceSpec(dice).Err? ==> r == ParseDiceSpec(dice)
  {
    match ParseDiceSpec(dice)
    case Err(e) => Err(e)
    case Ok(spec) => if spec.count > 0 && spec.sides < 1 then Err(EmptyRange(dice)) else Ok(spec)
  }

  /** `DiceModifier.roll` with its calls to `randint` answered by `src` from call number `at`
      on; the second component is the number of the next unused call. */
  function RollDice(m: DiceModifier, src: Source, at: nat): (r: Result<(DiceRoll, nat), RollError>)
    ensures r.Err? <==> CheckedSpec(m.dice).Err?
    ensures r.Err? ==> r.error == CheckedSpec(m.dice).error
    ensures r.Ok? ==>
      var (roll, next) := r.value;
      && roll.name == m.name && roll.dice == m.dice && roll.description == m.description
      && |roll.rolls| == DrawCount(CheckedSpec(m.dice).value)
      && next == at + |roll.rolls|
      && roll.rolls == Draws(src, at, |roll.rolls|)
      && roll.total == Sum(roll.rolls)
  {
    match CheckedSpec(m.dice)
    case Err(e) => Err(e)
    case Ok(spec) =>
      var rolls := Draws(src, at, DrawCount(spec));
      Ok((DiceRoll(m.name, m.dice, rolls, Sum(rolls), m.description), at + DrawCount(spec)))
  }

  /** Rolling `count` dice of `sides` sides with a source that keeps `randint`'s promise gives
      `count` values in `[1, sides]` whose total lies in `[count, count * sides]`. */
  lemma {:induction false} RollDiceInRange(m: DiceModifier, src: Source, at: nat)
    requires CheckedSpec(m.dice).Ok?
    requires var spec := CheckedSpec(m.dice).value; Honest(src, at, DrawCount(spec), spec.sides)
    ensures RollDice(m, src, at).Ok?
    ensures var roll := RollDice(m, src, at).value.0; var spec := CheckedSpec(m.dice).value;
      && |roll.rolls| == DrawCount(spec)
      && (forall i :: 0 <= i < |roll.rolls| ==> 1 <= roll.rolls[i] <= spec.sides)
      && DrawCount(spec) <= roll.total <= DrawCount(spec) * spec.sides
  {
    var spec := CheckedSpec(m.dice).value;
    HonestDraws(src, at, DrawCount(spec), spec.sides);
  }

  /** Draws from a source that keeps its promise lie in `[1, sides]`, so their sum lies in
      `[n, n * sides]`. */
  lemma HonestDraws(src: Source, from: nat, n: nat, sides: int)
    requires Honest(src, from, n, sides)
    ensures forall i :: 0 <= i < n ==> 1 <= Draws(src, from, n)[i] <= sides
    ensures n <= Sum(Draws(src, from, n)) <= n * sides
  {
    var xs := Draws(src, from, n);
    assert forall i :: 0 <= i < n ==> xs[i] == src(from + i);
    SumBounds(xs, 1, sides);
  }

  // ---------------------------------------------------------------------------
  // The d20 (roll_d20)
  // ---------------------------------------------------------------------------

  /** The number of d20s a roll type draws. */
  function D20Draws(t: RollType): nat {
    if t == Normal then 1 else 2
  }

  function Max(a: int, b: int): int { if a >= b then a else b }

  function Min(a: int, b: int): int { if a <= b then a else b }

  /** `roll_d20`: the first draw alone for a normal roll; for advantage (disadvantage) a
      second draw too, and the higher (lower) of the two is used. Both draws are recorded in
      draw order. */
  function RollD20(t: RollType, src: Source, at: nat): (r: (D20Roll, nat))
    ensures r.0.rolls == Draws(src, at, D20Draws(t)) && r.1 == at + D20Draws(t)
    ensures r.0.rollType == t && r.0.usedRoll == r.0.result
    ensures r.0.result in r.0.rolls
    ensures t == Advantage ==> forall x :: x in r.0.rolls ==> x <= r.0.result
    ensures t == Disadvantage ==> forall x :: x in r.0.rolls ==> r.0.result <= x
  {
    var roll1 := src(at);
    match t
    case Advantage =>
      var roll2 := src(at + 1);
      var result := Max(roll1, roll2);
      (D20Roll(result, [roll1, roll2], t, result), at + 2)
    case Disadvantage =>
      var roll2 := src(at + 1);
      var result := Min(roll1, roll2);
      (D20Roll(result, [roll1, roll2], t, result), at + 2)
    case Normal =>
      (D20Roll(roll1, [roll1], t, roll1), at + 1)
  }

  /** With the same draws, advantage never does worse than a normal roll and disadvantage
      never does better. */
  lemma {:induction false} AdvantageOrdering(src: Source, at: nat)
    ensures RollD20(Disadvantage, src, at).0.result <= RollD20(Normal, src, at).0.result
    ensures RollD20(Normal, src, at).0.result <= RollD20(Advantage, src, at).0.result
  {
  }

  /** A source that keeps `randint(1, 20)`'s promise gives a d20 result in `[1, 20]`. */
  lemma {:induction false} D20InRange(t: RollType, src: Source, at: nat)
    requires Honest(src, at, D20Draws(t), 20)
    ensures 1 <= RollD20(t, src, at).0.result <= 20
  {
    var r := RollD20(t, src, at).0;
    assert forall x :: x in r.rolls ==> 1 <= x <= 20;
  }

  // ---------------------------------------------------------------------------
  // All dice modifiers (RollModifiers.roll_dice_modifiers)
  // ---------------------------------------------------------------------------

  /** Every value drawn by a sequence of dice rolls, in order. */
  function AllRolls(rs: seq<DiceRoll>): seq<int> {
    if rs == [] then [] else rs[0].rolls + AllRolls(rs[1..])
  }

  /** The sum of the dice rolls' totals. */
  function DiceTotal(rs: seq<DiceRoll>): int {
    if rs == [] then 0 else rs[0].total + DiceTotal(rs[1..])
  }

  /** Modifier `k` is the first whose expression cannot be rolled. */
  predicate FirstFailure(ms: seq<DiceModifier>, k: int) {
    && 0 <= k < |ms|
    && CheckedSpec(ms[k].dice).Err?
    && forall j :: 0 <= j < k ==> CheckedSpec(ms[j].dice).Ok?
  }

  /** `roll` is a result of rolling `m`: same name, expression and description, as many
      values as the expression asks for, and their sum as total. */
  predicate RolledAs(m: DiceModifier, roll: DiceRoll) {
    && CheckedSpec(m.dice).Ok?
    && roll.name == m.name && roll.dice == m.dice && roll.description == m.description
    && |roll.rolls| == DrawCount(CheckedSpec(m.dice).value)
    && roll.total == Sum(roll.rolls)
  }

  /** One result per modifier, in order. */
  predicate RolledEach(ms: seq<DiceModifier>, rolls: seq<DiceRoll>) {
    && |rolls| == |ms|
    && forall k :: 0 <= k < |ms| ==> RolledAs(ms[k], rolls[k])
  }

  /** `rolls` drew their values from `src` consecutively from call number `at` up to `next`. */
  predicate DrewInOrder(rolls: seq<DiceRoll>, src: Source, at: nat, next: nat) {
    && next == at + |AllRolls(rolls)|
    && AllRolls(rolls) == Draws(src, at, |AllRolls(rolls)|)
  }

  /** `roll_dice_modifiers`: each dice modifier rolled in order from call number `at` on;
      the first that raises aborts the whole list. */
  function RollAll(ms: seq<DiceModifier>, src: Source, at: nat): (r: Result<(seq<DiceRoll>, nat), RollError>)
    ensures r.Ok? <==> forall k :: 0 <= k < |ms| ==> CheckedSpec(ms[k].dice).Ok?
    ensures r.Err? ==> exists k :: FirstFailure(ms, k) && r.error == CheckedSpec(ms[k].dice).error
    ensures r.Ok? ==> RolledEach(ms, r.value.0)
    ensures r.Ok? ==> DrewInOrder(r.value.0, src, at, r.value.1)
    ensures r.Ok? ==> DiceTotal(r.value.0) == Sum(AllRolls(r.value.0))
    decreases |ms|
  {
    if ms == [] then Ok(([], at))
    else
      match RollDice(ms[0], src, at)
      case Err(e) =>
        assert FirstFailure(ms, 0);
        Err(e)
      case Ok((first, mid)) =>
        match RollAll(ms[1..], src, mid)
        case Err(e) =>
          LaterFailure(ms, e);
          Err(e)
        case Ok((rest, next)) =>
          RollAllCons(ms, src, at, first, mid, rest, next);
          Ok(([first] + rest, next))
  }

  lemma {:induction false} LaterFailure(ms: seq<DiceModifier>, e: RollError)
    requires |ms| > 0 && CheckedSpec(ms[0].dice).Ok?
    requires exists k :: FirstFailure(ms[1..], k) && e == CheckedSpec(ms[1..][k].dice).error
    ensures exists k :: FirstFailure(ms, k) && e == CheckedSpec(ms[k].dice).error
  {
    var k :| FirstFailure(ms[1..], k) && e == CheckedSpec(ms[1..][k].dice).error;
    assert ms[1..][k] == ms[k + 1];
    forall j | 0 < j < k + 1 ensures CheckedSpec(ms[j].dice).Ok? {
      assert ms[j] == ms[1..][j - 1];
    }
    assert FirstFailure(ms, k + 1);
  }

  lemma {:induction false} RollAllCons(ms: seq<DiceModifier>, src: Source, at: nat, first: DiceRoll, mid: nat, rest: seq<DiceRoll>, next: nat)
    requires |ms| > 0 && RolledAs(ms[0], first)
    requires mid == at + |first.rolls| && first.rolls == Draws(src, at, |first.rolls|)
    requires RolledEach(ms[1..], rest) && DrewInOrder(rest, src, mid, next)
    requires DiceTotal(rest) == Sum(AllRolls(rest))
    ensures RolledEach(ms, [first] + rest)
    ensures DrewInOrder([first] + rest, src, at, next)
    ensures DiceTotal([first] + rest) == Sum(AllRolls([first] + rest))
  {
    RolledEachCons(ms, first, rest);
    DrewInOrderCons(src, at, first, mid, rest, next);
    AllRollsCons(first, rest);
    SumAppend(first.rolls, AllRolls(rest));
  }

  lemma DrewInOrderCons(src: Source, at: nat, first: DiceRoll, mid: nat, rest: seq<DiceRoll>, next: nat)
    requires mid == at + |first.rolls| && first.rolls == Draws(src, at, |first.rolls|)
    requires DrewInOrder(rest, src, mid, next)
    ensures DrewInOrder([first] + rest, src, at, next)
  {
    var n, m := |first.rolls|, |AllRolls(rest)|;
    AllRollsCons(first, rest);
    DrawsAppend(src, at, n, m);
    assert AllRolls([first] + rest) == Draws(src, at, n) + Draws(src, at + n, m);
  }

  lemma AllRollsCons(first: DiceRoll, rest: seq<DiceRoll>)
    ensures AllRolls([first] + rest) == first.rolls + AllRolls(rest)
    ensures DiceTotal([first] + rest) == first.total + DiceTotal(rest)
  {
    assert ([first] + rest)[1..] == rest;
  }

  lemma RolledEachCons(ms: seq<DiceModifier>, first: DiceRoll, rest: seq<DiceRoll>)
    requires |ms| > 0 && RolledAs(ms[0], first)
    requires RolledEach(ms[1..], rest)
    ensures RolledEach(ms, [first] + rest)
  {
    var rolls := [first] + rest;
    forall k | 0 <= k < |ms|
      ensures RolledAs(ms[k], rolls[k])
    {
      if k > 0 {
        assert ms[k] == ms[1..][k - 1] && rolls[k] == rest[k - 1];
      }
    }
  }

  // ---------------------------------------------------------------------------
  // A complete roll (perform_roll)
  // ---------------------------------------------------------------------------

  function FlatTerms(fs: seq<FlatModifier>): (r: seq<Render.Term>)
    ensures |r| == |fs|
    ensures forall k :: 0 <= k < |fs| ==> r[k] == Render.Term(fs[k].value, fs[k].name, true)
  {
    if fs == [] then [] else [Render.Term(fs[0].value, fs[0].name, true)] + FlatTerms(fs[1..])
  }

  function DiceTerms(rs: seq<DiceRoll>): (r: seq<Render.Term>)
    ensures |r| == |rs|
    ensures forall k :: 0 <= k < |rs| ==> r[k] == Render.Term(rs[k].total, rs[k].name, false)
  {
    if rs == [] then [] else [Render.Term(rs[0].total, rs[0].name, false)] + DiceTerms(rs[1..])
  }

  /** The terms of the breakdown, in order: the d20, the base modifier unless it is 0, each
      flat modifier, each dice modifier. */
  function Terms(d20: int, base: int, fs: seq<FlatModifier>, rs: seq<DiceRoll>): seq<Render.Term> {
    [Render.Term(d20, "d20", false)] + BaseTerms(base) + FlatTerms(fs) + DiceTerms(rs)
  }

  /** No modifier name holds a space, so the breakdown's collapse of `"+ -"` cannot reach
      into a name. Names that come from the modifier parser never do. */
  predicate PlainNames(mods: RollModifiers) {
    && (forall k :: 0 <= k < |mods.flatModifiers| ==> Render.Plain(mods.flatModifiers[k].name))
    && (forall k :: 0 <= k < |mods.diceModifiers| ==> Render.Plain(mods.diceModifiers[k].name))
  }

  /** `perform_roll` with `random.randint` answered by `src`: the d20 is drawn first (call 0,
      and call 1 for advantage or disadvantage), then every dice modifier in order. Any dice
      expression that cannot be rolled makes the whole call fail, with the first such error.
      The total is the used d20 plus the base modifier plus every flat value plus every die
      drawn for the dice modifiers. The breakdown starts with `"<d20> (d20)"`, adds
      `"<base> (base)"` only when the base is not 0, then each flat modifier (a non-negative
      one with its own `+`) and each dice modifier's total, every negative term reading as a
      subtraction, and ends with `" = <total>"`. */
  function PerformRoll(base: int, mods: RollModifiers, rollName: string, src: Source): (r: Result<RollResult, RollError>)
    ensures r.Err? <==> exists k :: 0 <= k < |mods.diceModifiers| && CheckedSpec(mods.diceModifiers[k].dice).Err?
    ensures r.Err? ==> exists k :: FirstFailure(mods.diceModifiers, k) && r.error == CheckedSpec(mods.diceModifiers[k].dice).error
    ensures r.Ok? ==>
      var res := r.value;
      && res.rollName == rollName && res.baseModifier == base && res.flatModifiers == mods.flatModifiers
      && res.d20 == RollD20(mods.rollType, src, 0).0
      && RolledEach(mods.diceModifiers, res.diceModifiers)
      && res.d20.rollType == mods.rollType
      && |res.d20.rolls| == D20Draws(mods.rollType)
      && |res.diceModifiers| == |mods.diceModifiers|
      && (forall k :: 0 <= k < |mods.diceModifiers| ==>
            && res.diceModifiers[k].name == mods.diceModifiers[k].name
            && |res.diceModifiers[k].rolls| == DrawCount(CheckedSpec(mods.diceModifiers[k].dice).value))
      && DrawnFrom(src, 0, res.d20.rolls + AllRolls(res.diceModifiers))
      && res.total == res.d20.usedRoll + base + FlatTotal(mods.flatModifiers) + Sum(AllRolls(res.diceModifiers))
    ensures r.Ok? && PlainNames(mods) ==>
      var res := r.value;
      res.breakdown ==
        IntToString(res.d20.result) + " (d20)"
        + (BaseSpoken(base)
           + Render.SpokenAll(FlatTerms(mods.flatModifiers))
           + Render.SpokenAll(DiceTerms(res.diceModifiers)))
        + " = " + IntToString(res.total)
  {
    var (d20, next) := RollD20(mods.rollType, src, 0);
    match RollAll(mods.diceModifiers, src, next)
    case Err(e) => Err(e)
    case Ok((rolls, end)) =>
      var total := d20.result + base + FlatTotal(mods.flatModifiers) + DiceTotal(rolls);
      var terms := Terms(d20.result, base, mods.flatModifiers, rolls);
      D20ThenDice(src, 0, d20.rolls, next, rolls, end);
      BreakdownOfRoll(d20.result, base, mods.flatModifiers, rolls, total);
      Ok(RollResult(rollName, d20, base, mods.flatModifiers, rolls, total, Render.Breakdown(terms, total)))
  }

  /** `xs` are the values drawn from call number `at` on, in order. */
  predicate DrawnFrom(src: Source, at: nat, xs: seq<int>) {
    xs == Draws(src, at, |xs|)
  }

  /** The d20 draws come first, the dice modifiers' draws right after them. */
  lemma D20ThenDice(src: Source, at: nat, d20: seq<int>, mid: nat, rolls: seq<DiceRoll>, end: nat)
    requires mid == at + |d20| && d20 == Draws(src, at, |d20|)
    requires DrewInOrder(rolls, src, mid, end)
    ensures DrawnFrom(src, at, d20 + AllRolls(rolls))
  {
    var xs := AllRolls(rolls);
    assert xs == Draws(src, mid, |xs|);
    DrawsAppend(src, at, |d20|, |xs|);
  }

  lemma {:induction false} SpokenAllAppend(a: seq<Render.Term>, b: seq<Render.Term>)
    ensures Render.SpokenAll(a + b) == Render.SpokenAll(a) + Render.SpokenAll(b)
  {
    if a != [] {
      assert (a + b)[1..] == a[1..] + b;
      SpokenAllAppend(a[1..], b);
    } else {
      assert a + b == b;
    }
  }

  lemma BreakdownOfRoll(d20: int, base: int, fs: seq<FlatModifier>, rs: seq<DiceRoll>, total: int)
    ensures
      (&& (forall k :: 0 <= k < |fs| ==> Render.Plain(fs[k].name))
       && (forall k :: 0 <= k < |rs| ==> Render.Plain(rs[k].name)))
      ==>
      Render.Breakdown(Terms(d20, base, fs, rs), total) ==
        IntToString(d20) + " (d20)"
        + (BaseSpoken(base) + Render.SpokenAll(FlatTerms(fs)) + Render.SpokenAll(DiceTerms(rs)))
        + " = " + IntToString(total)
  {
    if && (forall k :: 0 <= k < |fs| ==> Render.Plain(fs[k].name))
       && (forall k :: 0 <= k < |rs| ==> Render.Plain(rs[k].name))
    {
      PlainBreakdown(d20, base, fs, rs, total);
    }
  }

  lemma PlainBreakdown(d20: int, base: int, fs: seq<FlatModifier>, rs: seq<DiceRoll>, total: int)
    requires forall k :: 0 <= k < |fs| ==> Render.Plain(fs[k].name)
    requires forall k :: 0 <= k < |rs| ==> Render.Plain(rs[k].name)
    ensures Render.Breakdown(Terms(d20, base, fs, rs), total) ==
      IntToString(d20) + " (d20)"
      + (BaseSpoken(base) + Render.SpokenAll(FlatTerms(fs)) + Render.SpokenAll(DiceTerms(rs)))
      + " = " + IntToString(total)
  {
    var ts := Terms(d20, base, fs, rs);
    TermsPlain(d20, base, fs, rs);
    Render.BreakdownReads(ts, total);
    TermsHead(d20, base, fs, rs);
    TermsTail(d20, base, fs, rs);
  }

  /** How the base modifier reads in a breakdown: absent when it is 0. */
  function BaseSpoken(base: int): string {
    if base != 0 then Render.Spoken(Render.Term(base, "base", false)) else ""
  }

  function BaseTerms(base: int): seq<Render.Term> {
    if base != 0 then [Render.Term(base, "base", false)] else []
  }

  lemma TermsPlain(d20: int, base: int, fs: seq<FlatModifier>, rs: seq<DiceRoll>)
    requires forall k :: 0 <= k < |fs| ==> Render.Plain(fs[k].name)
    requires forall k :: 0 <= k < |rs| ==> Render.Plain(rs[k].name)
    ensures |Terms(d20, base, fs, rs)| > 0
    ensures forall k :: 0 <= k < |Terms(d20, base, fs, rs)| ==> Render.Plain(Terms(d20, base, fs, rs)[k].name)
  {
    var ts := Terms(d20, base, fs, rs);
    var b := BaseTerms(base);
    assert ts == [Render.Term(d20, "d20", false)] + b + FlatTerms(fs) + DiceTerms(rs);
    assert Render.Plain("d20") by { assert "d20" == ['d', '2', '0']; }
    assert Render.Plain("base") by { assert "base" == ['b', 'a', 's', 'e']; }
    forall k | 0 <= k < |ts| ensures Render.Plain(ts[k].name) {
      if k == 0 {
      } else if k < 1 + |b| {
        assert ts[k] == b[k - 1];
      } else if k < 1 + |b| + |fs| {
        assert ts[k] == FlatTerms(fs)[k - 1 - |b|];
      } else {
        assert ts[k] == DiceTerms(rs)[k - 1 - |b| - |fs|];
      }
    }
  }

  lemma TermsHead(d20: int, base: int, fs: seq<FlatModifier>, rs: seq<DiceRoll>)
    ensures Render.Segment(Terms(d20, base, fs, rs)[0]) == IntToString(d20) + " (d20)"
  {
    var t := Terms(d20, base, fs, rs)[0];
    assert t == Render.Term(d20, "d20", false);
  }

  lemma TermsTail(d20: int, base: int, fs: seq<FlatModifier>, rs: seq<DiceRoll>)
    ensures Render.SpokenAll(Terms(d20, base, fs, rs)[1..])
      == BaseSpoken(base) + Render.SpokenAll(FlatTerms(fs)) + Render.SpokenAll(DiceTerms(rs))
  {
    var ts := Terms(d20, base, fs, rs);
    var b := BaseTerms(base);
    var f, d := FlatTerms(fs), DiceTerms(rs);
    assert ts[1..] == (b + f) + d;
    SpokenAllAppend(b + f, d);
    SpokenAllAppend(b, f);
    BaseSpokenAll(base);
  }

  lemma BaseSpokenAll(base: int)
    ensures Render.SpokenAll(BaseTerms(base)) == BaseSpoken(base)
  {
    if base != 0 {
      var b := BaseTerms(base);
      assert b[1..] == [];
    }
  }
}

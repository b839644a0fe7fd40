/** The breakdown text of a roll (dice.py:128-141): every term rendered as
    `"<value> (<name>)"`, the terms joined by `" + "`, every `"+ -"` collapsed into `"- "`,
    and `" = <total>"` appended.

    The module also gives an independent reading of that text, term by term, and proves the
    two agree whenever no name holds a space. */
module Render {
  import opened Common
  import opened Text

  /** One term of a breakdown: its value, the name shown in parentheses, and whether a
      non-negative value carries its own `+` sign (flat modifiers do, dice.py:134). */
  datatype Term = Term(value: int, name: string, signed: bool)

  /** The text of one term before joining: `f"{sign}{value} ({name})"`. */
  function Segment(t: Term): string {
    (if t.signed && t.value >= 0 then "+" else "") + IntToString(t.value) + " (" + t.name + ")"
  }

  function Segments(ts: seq<Term>): (r: seq<string>)
    ensures |r| == |ts|
    ensures forall k :: 0 <= k < |ts| ==> r[k] == Segment(ts[k])
  {
    if ts == [] then [] else [Segment(ts[0])] + Segments(ts[1..])
  }

  /** `" + ".join(segments).replace("+ -", "- ") + f" = {total}"`. */
  function Breakdown(ts: seq<Term>, total: int): string {
    Collapse(Join(Segments(ts), " + ")) + " = " + IntToString(total)
  }

  /** `.replace("+ -", "- ")`. */
  function Collapse(s: string): string {
    ReplaceAll(s, "+ -", "- ")
  }

  // ---------------------------------------------------------------------------
  // The term-by-term reading
  // ---------------------------------------------------------------------------

  /** How a term after the first reads: a negative value as the subtraction of its
      magnitude, any other value as an addition, where a signed term keeps its own `+`
      (so a flat `+2` reads `" + +2 (Modifier)"`). */
  function Spoken(t: Term): string {
    if t.value < 0 then " - " + NatToString(-t.value) + " (" + t.name + ")"
    else " + " + (if t.signed then "+" else "") + NatToString(t.value) + " (" + t.name + ")"
  }

  function SpokenAll(ts: seq<Term>): string {
    if ts == [] then "" else Spoken(ts[0]) + SpokenAll(ts[1..])
  }

  /** A name the collapse cannot reach into. */
  predicate Plain(name: string) {
    ' ' !in name
  }

  /** The breakdown of terms whose labels hold no space is the first term's segment, then
      every later term read as an addition or a subtraction, then `" = <total>"`. */
  lemma {:induction false} BreakdownReads(ts: seq<Term>, total: int)
    requires |ts| > 0
    requires forall k :: 0 <= k < |ts| ==> Plain(ts[k].name)
    ensures Breakdown(ts, total) == Segment(ts[0]) + SpokenAll(ts[1..]) + " = " + IntToString(total)
  {
    var segs := Segments(ts);
    JoinSplitsHead(segs);
    SegmentSafe(ts[0]);
    CollapseSafePrefix(segs[0], JoinTail(segs[1..]));
    assert Segments(ts[1..]) == segs[1..];
    CollapseJoinTail(ts[1..]);
  }

  // ---------------------------------------------------------------------------
  // Proof of BreakdownReads
  // ---------------------------------------------------------------------------

  /** Text in which no `"+ -"` can start: no `+` is followed by a space, and the text does
      not end in `+`. */
  predicate Safe(s: string) {
    && (s == [] || s[|s| - 1] != '+')
    && forall i :: 0 <= i < |s| - 1 ==> !(s[i] == '+' && s[i + 1] == ' ')
  }

  /** `" + " + s` for every segment after the first. */
  function JoinTail(ss: seq<string>): string {
    if ss == [] then "" else " + " + ss[0] + JoinTail(ss[1..])
  }

  lemma {:induction false} JoinSplitsHead(ss: seq<string>)
    requires |ss| > 0
    ensures Join(ss, " + ") == ss[0] + JoinTail(ss[1..])
    decreases |ss|
  {
    if |ss| == 1 {
      assert ss[1..] == [];
    } else {
      JoinSplitsHead(ss[1..]);
      assert ss[1..][1..] == ss[2..];
      assert Join(ss, " + ") == ss[0] + " + " + Join(ss[1..], " + ");
    }
  }

  /** A character that cannot start `"+ -"` is kept by the collapse. */
  lemma CollapseKeeps(c: char, s: string)
    requires c != '+' || |s| < 2 || s[0] != ' ' || s[1] != '-'
    ensures Collapse([c] + s) == [c] + Collapse(s)
  {
    var x := [c] + s;
    assert x[1..] == s;
    if |x| >= 3 {
      assert x[0] == c && x[1] == s[0] && x[2] == s[1];
      assert x[..3] != "+ -";
    }
  }

  /** An occurrence of `"+ -"` becomes `"- "`. */
  lemma CollapseHits(s: string)
    ensures Collapse("+ -" + s) == "- " + Collapse(s)
  {
    var x := "+ -" + s;
    assert x[..3] == "+ -";
    assert x[3..] == s;
  }

  /** The collapse passes over a safe prefix untouched. */
  lemma {:induction false} CollapseSafePrefix(s: string, t: string)
    requires Safe(s)
    ensures Collapse(s + t) == s + Collapse(t)
    decreases |s|
  {
    if s == [] {
      assert s + t == t;
    } else {
      var rest := s[1..] + t;
      assert s + t == [s[0]] + rest;
      if |s| == 1 {
        assert s[0] != '+';
      } else {
        assert !(s[0] == '+' && s[1] == ' ');
        assert rest[0] == s[1];
      }
      CollapseKeeps(s[0], rest);
      SafeTail(s);
      CollapseSafePrefix(s[1..], t);
      assert s == [s[0]] + s[1..];
    }
  }

  lemma SafeTail(s: string)
    requires Safe(s) && s != []
    ensures Safe(s[1..])
  {
  }

  lemma {:induction false} SegmentSafe(t: Term)
    requires Plain(t.name)
    ensures Safe(Segment(t))
    ensures Safe(Segment(t)[1..])
  {
    var a := (if t.signed && t.value >= 0 then "+" else "") + IntToString(t.value);
    var s := Segment(t);
    assert s == a + " (" + t.name + ")";
    assert |a| > 0 && IsDigit(a[|a| - 1]);
    assert forall i :: 0 <= i < |a| ==> a[i] != ' ';
    forall i | 0 <= i < |s| - 1
      ensures !(s[i] == '+' && s[i + 1] == ' ')
    {
      if i + 1 < |a| {
        assert s[i + 1] == a[i + 1];
      } else if i + 1 == |a| {
        assert s[i] == a[|a| - 1];
      } else if i + 1 == |a| + 1 {
        assert s[i + 1] == '(';
      } else if i + 1 < |s| - 1 {
        assert s[i + 1] == t.name[i + 1 - |a| - 2];
      }
    }
    SafeTail(s);
  }

  /** One joined term after the first, collapsed, reads as `Spoken`. */
  lemma {:induction false} CollapseOneTerm(t: Term, rest: string)
    requires Plain(t.name)
    ensures Collapse(" + " + Segment(t) + rest) == Spoken(t) + Collapse(rest)
  {
    if t.value < 0 {
      CollapseNegativeTerm(t, rest);
    } else {
      CollapseOtherTerm(t, rest);
    }
  }

  lemma {:induction false} CollapseNegativeTerm(t: Term, rest: string)
    requires Plain(t.name) && t.value < 0
    ensures Collapse(" + " + Segment(t) + rest) == Spoken(t) + Collapse(rest)
  {
    SegmentSafe(t);
    var tail := Magnitude(t);
    assert Segment(t) == "-" + tail;
    assert " + " + Segment(t) + rest == " + -" + tail + rest;
    assert Segment(t)[1..] == tail;
    CollapseMinus(tail, rest);
    assert Spoken(t) == " - " + tail;
  }

  lemma {:induction false} CollapseOtherTerm(t: Term, rest: string)
    requires Plain(t.name) && t.value >= 0
    ensures Collapse(" + " + Segment(t) + rest) == Spoken(t) + Collapse(rest)
  {
    SegmentSafe(t);
    var seg := Segment(t);
    assert seg == (if t.signed then "+" else "") + Magnitude(t);
    assert seg[0] != '-';
    CollapsePlus(seg, rest);
    assert Spoken(t) == " + " + seg;
  }

  /** A term's text without its sign. */
  function Magnitude(t: Term): string {
    NatToString(if t.value < 0 then -t.value else t.value) + " (" + t.name + ")"
  }

  /** `" + -"` before a safe text reads `" - "`. */
  lemma {:induction false} CollapseMinus(tail: string, rest: string)
    requires Safe(tail)
    ensures Collapse(" + -" + tail + rest) == " - " + tail + Collapse(rest)
  {
    var y := "+ -" + (tail + rest);
    assert " + -" + tail + rest == [' '] + y;
    CollapseKeeps(' ', y);
    CollapseHits(tail + rest);
    CollapseSafePrefix(tail, rest);
  }

  /** `" + "` before a safe text that does not start with `-` is kept. */
  lemma {:induction false} CollapsePlus(seg: string, rest: string)
    requires Safe(seg) && seg != [] && seg[0] != '-'
    ensures Collapse(" + " + seg + rest) == " + " + seg + Collapse(rest)
  {
    var z := [' '] + (seg + rest);
    var y := ['+'] + z;
    assert " + " + seg + rest == [' '] + y;
    CollapseKeeps(' ', y);
    assert z[0] == ' ' && z[1] == seg[0];
    CollapseKeeps('+', z);
    CollapseKeeps(' ', seg + rest);
    CollapseSafePrefix(seg, rest);
    var t := seg + Collapse(rest);
    AppendAssoc([' '], ['+'], [' '] + t);
    AppendAssoc([' '] + ['+'], [' '], t);
    assert [' '] + ['+'] + [' '] == " + ";
    AppendAssoc(" + ", seg, Collapse(rest));
  }

  lemma {:induction false} CollapseJoinTail(ts: seq<Term>)
    requires forall k :: 0 <= k < |ts| ==> Plain(ts[k].name)
    ensures Collapse(JoinTail(Segments(ts))) == SpokenAll(ts)
    decreases |ts|
  {
    if ts != [] {
      var segs := Segments(ts);
      assert segs[1..] == Segments(ts[1..]);
      assert JoinTail(segs) == " + " + Segment(ts[0]) + JoinTail(Segments(ts[1..]));
      CollapseOneTerm(ts[0], JoinTail(Segments(ts[1..])));
      CollapseJoinTail(ts[1..]);
    }
  }
}

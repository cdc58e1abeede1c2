/**
 The indentation rule used when a child's summary is folded into its parent's:
 a leading line break, then every line of the child's block four spaces
 further to the right.
 */
module Indentation {
  import opened Text

  /** The indent unit added per nesting level. */
  const Unit: string := "    "

  /** `s` with the indent unit inserted after each of its line breaks. */
  function Widen(s: string): (r: string)
  {
    if s == [] then []
    else (if s[0] == '\n' then "\n" + Unit else [s[0]]) + Widen(s[1..])
  }

  /**
   The indented block: a line break, the indent unit, and `s` with the unit
   inserted after each line break, so that every line of `s` moves right.
   */
  function Indent(s: string): (r: string)
    ensures |r| > 4 && r[0] == '\n'
  {
    "\n" + Unit + Widen(s)
  }

  /** Widening keeps a last character that is not a line break. */
  lemma {:induction false} WidenLast(s: string)
    requires |s| > 0 && s[|s| - 1] != '\n'
    ensures |Widen(s)| > 0 && Widen(s)[|Widen(s)| - 1] == s[|s| - 1]
  {
    if |s| > 1 {
      WidenLast(s[1..]);
    }
  }

  /** An indented block ends as its content ends, unless that ends with a line break. */
  lemma IndentLast(s: string)
    requires |s| > 0 && s[|s| - 1] != '\n'
    ensures Indent(s)[|Indent(s)| - 1] == s[|s| - 1]
  {
    WidenLast(s);
  }

  /** Widening adds one unit per line break. */
  lemma {:induction false} WidenLength(s: string)
    ensures |Widen(s)| == |s| + 4 * Count('\n', s)
  {
    if s != [] {
      WidenLength(s[1..]);
    }
  }

  /** Indenting adds a line break and one unit per line of the input. */
  lemma IndentLength(s: string)
    ensures |Indent(s)| == |s| + 1 + 4 * |Split(s)|
  {
    WidenLength(s);
    SplitCount(s);
  }

  /** Widening keeps the first line and moves every later line right by one unit. */
  lemma {:induction false} WidenLines(s: string)
    ensures Split(Widen(s)) == [Split(s)[0]] + MapPrefix(Unit, Split(s)[1..])
    decreases |s|, 0
  {
    if s != [] {
      var w := Widen(s[1..]);
      var lines := Split(s[1..]);
      if s[0] == '\n' {
        assert Split(Widen(s)) == [[]] + MapPrefix(Unit, lines) by {
          assert Widen(s) == "\n" + (Unit + w);
          SplitBreak(Unit + w);
          UnitThenWidened(s[1..]);
        }
        assert Split(s) == [[]] + lines by {
          assert s == "\n" + s[1..];
          SplitBreak(s[1..]);
        }
      } else {
        WidenLines(s[1..]);
        assert Split(Widen(s)) == [[s[0]] + lines[0]] + MapPrefix(Unit, lines[1..]) by {
          assert Widen(s) == [s[0]] + w;
          SplitOther(s[0], w);
        }
        assert Split(s) == [[s[0]] + lines[0]] + lines[1..] by {
          assert s == [s[0]] + s[1..];
          SplitOther(s[0], s[1..]);
        }
      }
    }
  }

  /** The indent unit before a widened string moves every one of its lines right. */
  lemma {:induction false} UnitThenWidened(s: string)
    ensures Split(Unit + Widen(s)) == MapPrefix(Unit, Split(s))
    decreases |s|, 1
  {
    var lines := Split(s);
    WidenLines(s);
    SplitLineFreePrefix(Unit, Widen(s));
    assert [Unit + lines[0]] + MapPrefix(Unit, lines[1..]) == MapPrefix(Unit, lines);
  }

  /**
   The lines of `Indent(s)` are an empty line followed by every line of `s`
   prefixed with the indent unit, in order.
   */
  lemma IndentLines(s: string)
    ensures Split(Indent(s)) == [[]] + MapPrefix(Unit, Split(s))
  {
    assert Indent(s) == "\n" + (Unit + Widen(s));
    SplitBreak(Unit + Widen(s));
    UnitThenWidened(s);
  }

  /** `Indent(s)` is the line-wise rule written out: the prefixed lines joined after an empty line. */
  lemma IndentByLines(s: string)
    ensures Indent(s) == JoinWith("\n", [[]] + MapPrefix(Unit, Split(s)))
  {
    IndentLines(s);
    JoinSplit(Indent(s));
  }

  /** Indenting adds exactly one line, and that line is the first one and is empty. */
  lemma IndentLineCount(s: string)
    ensures |Split(Indent(s))| == |Split(s)| + 1
    ensures Split(Indent(s))[0] == []
    ensures forall i :: 0 <= i < |Split(s)| ==> Split(Indent(s))[i + 1] == Unit + Split(s)[i]
  {
    IndentLines(s);
  }

  /**
   Existing nesting is kept: a line that starts with k spaces comes out
   starting with k + 4 spaces, the rest of the line unchanged.
   */
  lemma IndentKeepsNesting(s: string, i: nat, k: nat, rest: string)
    requires i < |Split(s)| && Split(s)[i] == Spaces(k) + rest
    ensures i + 1 < |Split(Indent(s))|
    ensures Split(Indent(s))[i + 1] == Spaces(k + |Unit|) + rest
  {
    IndentLines(s);
    assert Unit == Spaces(4);
    SpacesAdd(4, k);
  }

  /**
   Indenting twice is not indenting once: the second application adds a
   second leading line (holding one unit) and a second unit on every line.
   */
  lemma IndentTwice(s: string)
    ensures Indent(Indent(s)) != Indent(s)
    ensures Split(Indent(Indent(s))) == [[], Unit] + MapPrefix(Unit + Unit, Split(s))
  {
    IndentLines(s);
    IndentLines(Indent(s));
    MapPrefixTwice(Unit, Unit, Split(s));
    assert MapPrefix(Unit, [[]] + MapPrefix(Unit, Split(s)))
        == [Unit + []] + MapPrefix(Unit, MapPrefix(Unit, Split(s)));
    assert Unit + [] == Unit;
  }

  /**
   Appending an indented block after any text adds the block's prefixed lines
   after the text's own lines; the text's last line is not disturbed.
   */
  lemma AppendIndented(t: string, s: string)
    ensures Split(t + Indent(s)) == Split(t) + MapPrefix(Unit, Split(s))
  {
    var x := Unit + Widen(s);
    assert Indent(s) == "\n" + x;
    assert t + Indent(s) == t + "\n" + x;
    SplitAtBreak(t, x);
    SplitBreak(x);
    IndentLines(s);
    assert Split(x) == Split(Indent(s))[1..];
  }
}

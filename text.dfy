/**
 Lines of text: splitting a string at its line breaks, joining strings with a
 separator, runs of spaces, and prefixing every line of a block.
 */
module Text {

  /** Number of occurrences of `c` in `s`. */
  function Count(c: char, s: string): (n: nat)
    ensures n <= |s|
    ensures n == 0 <==> c !in s
  {
    if s == [] then 0 else (if s[0] == c then 1 else 0) + Count(c, s[1..])
  }

  /**
   The lines of `s`: the pieces between its line breaks, in order. A string
   with k line breaks has k + 1 lines; the empty string is one empty line.
   */
  function Split(s: string): (lines: seq<string>)
    ensures |lines| >= 1
  {
    if s == [] then [[]]
    else
      var rest := Split(s[1..]);
      if s[0] == '\n' then [[]] + rest
      else [[s[0]] + rest[0]] + rest[1..]
  }

  /** `items` with `sep` between consecutive items. */
  function JoinWith(sep: string, items: seq<string>): (r: string)
    ensures |items| == 0 ==> r == []
    ensures |items| == 1 ==> r == items[0]
  {
    if |items| == 0 then []
    else if |items| == 1 then items[0]
    else items[0] + sep + JoinWith(sep, items[1..])
  }

  /** `n` spaces. */
  function Spaces(n: nat): (r: string)
    ensures |r| == n && forall i :: 0 <= i < n ==> r[i] == ' '
  {
    seq(n, _ => ' ')
  }

  /** Every line of `lines` with `p` put in front of it. */
  function MapPrefix(p: string, lines: seq<string>): (r: seq<string>)
    ensures |r| == |lines| && forall i :: 0 <= i < |lines| ==> r[i] == p + lines[i]
  {
    seq(|lines|, i requires 0 <= i < |lines| => p + lines[i])
  }

  /** True when `line` starts with at least `n` spaces. */
  predicate LeadingSpaces(line: string, n: nat)
  {
    n <= |line| && forall j :: 0 <= j < n ==> line[j] == ' '
  }

  /** True when no string of `items` holds a line break. */
  predicate LineFree(items: seq<string>)
  {
    forall i :: 0 <= i < |items| ==> '\n' !in items[i]
  }

  /** A character other than a line break joins the first line of what follows it. */
  lemma SplitOther(c: char, t: string)
    requires c != '\n'
    ensures Split([c] + t) == [[c] + Split(t)[0]] + Split(t)[1..]
  {
    assert ([c] + t)[1..] == t;
  }

  /** A line break starts a new line: it contributes one empty line before those of what follows. */
  lemma SplitBreak(t: string)
    ensures Split("\n" + t) == [[]] + Split(t)
  {
    assert ("\n" + t)[1..] == t;
  }

  /** A line-free prefix extends the first line of what follows it. */
  lemma {:induction false} SplitLineFreePrefix(a: string, b: string)
    requires '\n' !in a
    ensures Split(a + b) == [a + Split(b)[0]] + Split(b)[1..]
  {
    var lines := Split(b);
    if a == [] {
      assert a + b == b && a + lines[0] == lines[0];
      assert [lines[0]] + lines[1..] == lines;
    } else {
      var t := a[1..] + b;
      assert a + b == [a[0]] + t;
      SplitOther(a[0], t);
      SplitLineFreePrefix(a[1..], b);
      assert [a[0]] + (a[1..] + lines[0]) == a + lines[0];
    }
  }

  /** A line-free string is one line. */
  lemma SplitLineFree(a: string)
    requires '\n' !in a
    ensures Split(a) == [a]
  {
    SplitLineFreePrefix(a, []);
    assert a + [] == a;
  }

  /** Splitting at a line break splits the two sides independently. */
  lemma {:induction false} SplitAtBreak(a: string, b: string)
    ensures Split(a + "\n" + b) == Split(a) + Split(b)
  {
    if a == [] {
      assert a + "\n" + b == "\n" + b;
      SplitBreak(b);
    } else {
      SplitAtBreak(a[1..], b);
      if a[0] == '\n' {
        SplitAtBreakAfterBreak(a, b);
      } else {
        SplitAtBreakAfterOther(a, b);
      }
    }
  }

  /** The step of SplitAtBreak when `a` starts with a line break. */
  lemma SplitAtBreakAfterBreak(a: string, b: string)
    requires a != [] && a[0] == '\n'
    requires Split(a[1..] + "\n" + b) == Split(a[1..]) + Split(b)
    ensures Split(a + "\n" + b) == Split(a) + Split(b)
  {
    var t := a[1..] + "\n" + b;
    assert a + "\n" + b == "\n" + t;
    assert a == "\n" + a[1..];
    SplitBreak(t);
    SplitBreak(a[1..]);
    ConcatAssoc([[]], Split(a[1..]), Split(b));
  }

  /** The step of SplitAtBreak when `a` starts with another character. */
  lemma SplitAtBreakAfterOther(a: string, b: string)
    requires a != [] && a[0] != '\n'
    requires Split(a[1..] + "\n" + b) == Split(a[1..]) + Split(b)
    ensures Split(a + "\n" + b) == Split(a) + Split(b)
  {
    var t := a[1..] + "\n" + b;
    assert a + "\n" + b == [a[0]] + t;
    assert a == [a[0]] + a[1..];
    SplitOther(a[0], t);
    SplitOther(a[0], a[1..]);
    FirstLineJoins(a[0], Split(a[1..]), Split(b));
  }

  /** A character put before the first of two runs of lines joins the first line of the first run. */
  lemma FirstLineJoins(c: char, first: seq<string>, second: seq<string>)
    requires |first| >= 1
    ensures [[c] + (first + second)[0]] + (first + second)[1..] == ([[c] + first[0]] + first[1..]) + second
  {
    assert (first + second)[0] == first[0];
    assert (first + second)[1..] == first[1..] + second;
  }

  /** A string with k line breaks has k + 1 lines. */
  lemma {:induction false} SplitCount(s: string)
    ensures |Split(s)| == Count('\n', s) + 1
  {
    if s != [] {
      SplitCount(s[1..]);
    }
  }

  /** Joining the lines of `s` with line breaks gives back `s`. */
  lemma {:induction false} JoinSplit(s: string)
    ensures JoinWith("\n", Split(s)) == s
  {
    if s != [] {
      var rest := Split(s[1..]);
      JoinSplit(s[1..]);
      if s[0] == '\n' {
        assert Split(s) == [[]] + rest;
        assert JoinWith("\n", Split(s)) == [] + "\n" + JoinWith("\n", rest);
      } else if |rest| == 1 {
        assert Split(s) == [[s[0]] + rest[0]];
      } else {
        assert Split(s)[1..] == rest[1..];
        assert JoinWith("\n", rest) == rest[0] + "\n" + JoinWith("\n", rest[1..]);
      }
    }
  }

  /** Splitting line-free lines joined with line breaks gives back the lines. */
  lemma {:induction false} SplitJoin(lines: seq<string>)
    requires |lines| >= 1 && LineFree(lines)
    ensures Split(JoinWith("\n", lines)) == lines
  {
    SplitLineFree(lines[0]);
    if |lines| > 1 {
      SplitJoin(lines[1..]);
      SplitAtBreak(lines[0], JoinWith("\n", lines[1..]));
    }
  }

  lemma ConcatAssoc<T>(a: seq<T>, b: seq<T>, c: seq<T>)
    ensures a + (b + c) == (a + b) + c
  {
  }

  lemma SpacesAdd(m: nat, n: nat)
    ensures Spaces(m) + Spaces(n) == Spaces(m + n)
  {
  }

  lemma MapPrefixAppend(p: string, a: seq<string>, b: seq<string>)
    ensures MapPrefix(p, a + b) == MapPrefix(p, a) + MapPrefix(p, b)
  {
  }

  /** Putting nothing in front of every line leaves the lines as they are. */
  lemma MapPrefixNothing(lines: seq<string>)
    ensures MapPrefix([], lines) == lines
  {
    forall i | 0 <= i < |lines|
      ensures MapPrefix([], lines)[i] == lines[i]
    {
      assert [] + lines[i] == lines[i];
    }
  }

  /** A line behind `n` spaces starts with `n` spaces. */
  lemma SpacesLead(n: nat, rest: string)
    ensures LeadingSpaces(Spaces(n) + rest, n)
  {
    assert forall j :: 0 <= j < n ==> (Spaces(n) + rest)[j] == Spaces(n)[j];
  }

  /** A line that starts with `n` spaces starts with any fewer. */
  lemma LeadingSpacesFewer(line: string, m: nat, n: nat)
    requires m <= n && LeadingSpaces(line, n)
    ensures LeadingSpaces(line, m)
  {
  }

  lemma MapPrefixTwice(p: string, q: string, lines: seq<string>)
    ensures MapPrefix(p, MapPrefix(q, lines)) == MapPrefix(p + q, lines)
  {
    forall i | 0 <= i < |lines|
      ensures p + (q + lines[i]) == (p + q) + lines[i]
    {
    }
  }

  /** A character found in neither the separator nor any item is not in their join. */
  lemma {:induction false} JoinWithExcludes(c: char, sep: string, items: seq<string>)
    requires c !in sep && forall i :: 0 <= i < |items| ==> c !in items[i]
    ensures c !in JoinWith(sep, items)
  {
    if |items| > 1 {
      JoinWithExcludes(c, sep, items[1..]);
    }
  }
  /** Two items joined: the first, the separator, the second. */
  lemma JoinTwo(sep: string, a: string, b: string)
    ensures JoinWith(sep, [a, b]) == a + sep + b
  {
    assert [a, b][1..] == [b];
  }

  /** Total number of characters in `items`. */
  function TotalLength(items: seq<string>): nat
  {
    if items == [] then 0 else |items[0]| + TotalLength(items[1..])
  }

  /** Joining adds one separator between each two consecutive items and nothing else. */
  lemma {:induction false} JoinWithLength(sep: string, items: seq<string>)
    requires items != []
    ensures |JoinWith(sep, items)| == TotalLength(items) + |sep| * (|items| - 1)
  {
    if |items| > 1 {
      JoinWithLength(sep, items[1..]);
    }
  }
  /** No comma-and-space inside `s`. */
  predicate NoItemBreak(s: string)
  {
    forall i :: 0 <= i < |s| - 1 ==> !(s[i] == ',' && s[i + 1] == ' ')
  }

  /** The items of a comma-and-space separated list, read from left to right. */
  function SplitItems(s: string): (r: seq<string>)
    ensures |r| >= 1
  {
    if s == [] then [[]]
    else if |s| >= 2 && s[0] == ',' && s[1] == ' ' then [[]] + SplitItems(s[2..])
    else
      var rest := SplitItems(s[1..]);
      [[s[0]] + rest[0]] + rest[1..]
  }

  /** A piece holding no comma-and-space is a single item. */
  lemma {:induction false} SplitItemsSingle(x: string)
    requires NoItemBreak(x)
    ensures SplitItems(x) == [x]
  {
    if x != [] {
      assert NoItemBreak(x[1..]) by {
        forall i | 0 <= i < |x[1..]| - 1
          ensures !(x[1..][i] == ',' && x[1..][i + 1] == ' ')
        {
          assert x[1..][i] == x[i + 1] && x[1..][i + 1] == x[i + 2];
        }
      }
      SplitItemsSingle(x[1..]);
      assert [x[0]] + x[1..] == x;
    }
  }

  /** A piece holding no comma-and-space, then a comma-and-space: the piece is the first item. */
  lemma {:induction false} SplitItemsFirst(x: string, rest: string)
    requires NoItemBreak(x)
    ensures SplitItems(x + ", " + rest) == [x] + SplitItems(rest)
  {
    var s := x + ", " + rest;
    if x == [] {
      assert s == ", " + rest && s[2..] == rest;
    } else {
      assert s[1..] == x[1..] + ", " + rest;
      assert !(s[0] == ',' && s[1] == ' ') by {
        if |x| >= 2 { assert s[1] == x[1]; } else { assert s[1] == ','; }
      }
      assert NoItemBreak(x[1..]) by {
        forall i | 0 <= i < |x[1..]| - 1
          ensures !(x[1..][i] == ',' && x[1..][i + 1] == ' ')
        {
          assert x[1..][i] == x[i + 1] && x[1..][i + 1] == x[i + 2];
        }
      }
      SplitItemsFirst(x[1..], rest);
      assert [x[0]] + x[1..] == x;
    }
  }

  /** Items holding no comma-and-space, joined by comma-and-space, read back as themselves. */
  lemma {:induction false} SplitItemsJoin(items: seq<string>)
    requires items != []
    requires forall i :: 0 <= i < |items| ==> NoItemBreak(items[i])
    ensures SplitItems(JoinWith(", ", items)) == items
  {
    if |items| == 1 {
      SplitItemsSingle(items[0]);
    } else {
      SplitItemsJoin(items[1..]);
      SplitItemsFirst(items[0], JoinWith(", ", items[1..]));
      assert items == [items[0]] + items[1..];
    }
  }

  /** Two items and their separator inside an opening and a closing piece, regrouped from the left. */
  lemma RegroupTwo(open: string, a: string, sep: string, b: string, close: string)
    ensures open + (a + sep + b) + close == open + a + sep + b + close
  {
  }

  /** Four items and their separators inside an opening and a closing piece, regrouped from the left. */
  lemma RegroupFour(open: string, a: string, sep: string, b: string, c: string, d: string, close: string)
    ensures open + (a + sep + (b + sep + (c + sep + d))) + close
         == open + a + sep + b + sep + c + sep + d + close
  {
  }

  /** Five items joined, with the concatenation regrouped from the right. */
  lemma JoinFive(sep: string, a: string, b: string, c: string, d: string, e: string)
    ensures JoinWith(sep, [a, b, c, d, e]) == (a + sep) + ((b + sep) + ((c + sep) + ((d + sep) + e)))
  {
    assert [a, b, c, d, e][1..] == [b, c, d, e];
    assert [b, c, d, e][1..] == [c, d, e];
    assert [c, d, e][1..] == [d, e];
    JoinTwo(sep, d, e);
    assert JoinWith(sep, [c, d, e]) == c + sep + JoinWith(sep, [d, e]);
    assert JoinWith(sep, [b, c, d, e]) == b + sep + JoinWith(sep, [c, d, e]);
  }

  /** Five pieces concatenated, regrouped from the left. */
  lemma RegroupFive(a: string, b: string, c: string, d: string, e: string)
    ensures a + (b + (c + (d + e))) == a + b + c + d + e
  {
  }
}

/**
 The three rendering examples of the plan tests: a self-union of a
 projection, a distinct over a session-window aggregation, and the
 indentation of a five-line block.

 A lemma documented as a "literal merge" only joins string or list
 literals; each keeps one such merge out of the larger proofs that use it.
 */
module Scenarios {
  import opened Text
  import opened Indentation
  import opened Expressions
  import opened Operations

  /** The single-field catalog table `cat1.db1.tab1` with field `a`. */
  function Table(): Op
  {
    CatalogTable(["cat1", "db1", "tab1"], ["a"])
  }

  /** The reference to field `a`, input 0, position 0. */
  function FieldA(): Expr
  {
    FieldRef("a", 0, 0)
  }

  /** Projection of `a` over the table. */
  function ProjectA(): Op
  {
    Project([FieldA()], Table(), ["a"])
  }

  /** UNION ALL of the projection with itself. */
  function SelfUnion(): Op
  {
    SetOp(Union, true, ProjectA(), ProjectA())
  }

  /** Grouping by `a`, summing `a`, over a session window on `a` with a 10 ms gap. */
  function SessionAggregate(): Op
  {
    WindowAggregate([FieldA()], [Call("sum", [FieldA()])], [],
                    SessionWindow("w", FieldA(), IntervalMillis(10)), Table(), ["a"])
  }

  function DistinctAggregate(): Op
  {
    Distinct(SessionAggregate())
  }

  /*
   The rendered texts of TableOperationTest, written as short pieces that
   concatenate to exactly the asserted characters.
   */
  function TableText(): string
  {
    "CatalogTable: (" + "path: [cat1, db1, tab1]" + ", " + "fields: [a]" + ")"
  }

  function ProjectText(): string
  {
    "Project: (" + "projections: [a]" + ")"
  }

  function UnionText(): string
  {
    "Union: (" + "all: [true]" + ")"
  }

  function SessionWindowText(): string
  {
    "SessionWindow(" + "field: [a]" + ", " + "gap: [10.millis]" + ")"
  }

  function AggregateText(): string
  {
    "WindowAggregate: (" + "group: [a]" + ", " + "agg: [sum(a)]" + ", " + "windowProperties: []"
      + ", " + ("window: [" + SessionWindowText() + "]") + ")"
  }

  lemma TableHeader()
    ensures Header(Table()) == TableText()
  {
    CatalogTableHeader(["cat1", "db1", "tab1"], ["a"]);
    assert List(["cat1", "db1", "tab1"]) == "cat1, db1, tab1" by {
      assert ["cat1", "db1", "tab1"][1..] == ["db1", "tab1"];
      JoinTwo(", ", "db1", "tab1");
    }
    TablePieces();
  }

  /** Literal merge: the path and field parameters of the test's table. */
  lemma TablePieces()
    ensures "path: [" + "cat1, db1, tab1" + "]" == "path: [cat1, db1, tab1]"
    ensures "fields: [" + "a" + "]" == "fields: [a]"
  {
  }

  lemma ProjectHeader()
    ensures Header(ProjectA()) == ProjectText()
  {
    ProjectHeaderForm([FieldA()], Table(), ["a"]);
    assert DisplayAll([FieldA()]) == ["a"];
    assert "projections: [" + "a" + "]" == "projections: [a]";
  }

  lemma UnionHeader()
    ensures Header(SelfUnion()) == UnionText()
  {
    SetHeaderForm(Union, true, ProjectA(), ProjectA());
    assert "all: [" + "true" + "]" == "all: [true]";
  }

  /** The gap literal of ten milliseconds displays as `10.millis`. */
  lemma TenMillis()
    ensures Display(IntervalMillis(10)) == "10.millis"
  {
    assert Decimal(10) == Decimal(1) + [DigitChar(0)];
  }

  lemma SessionWindowDisplay()
    ensures WindowDisplay(SessionWindow("w", FieldA(), IntervalMillis(10))) == SessionWindowText()
  {
    SessionWindowForm("w", FieldA(), IntervalMillis(10));
    TenMillis();
    WindowPieces();
  }

  /** Literal merge: the parameters of the test's session window. */
  lemma WindowPieces()
    ensures "field: [" + "a" + "]" == "field: [a]"
    ensures "gap: [" + "10.millis" + "]" == "gap: [10.millis]"
  {
  }

  /** The call summing field `a` displays as `sum(a)`. */
  lemma SumDisplay()
    ensures List(DisplayAll([Call("sum", [FieldA()])])) == "sum(a)"
  {
    assert DisplayAll([FieldA()]) == ["a"];
    assert Display(Call("sum", [FieldA()])) == "sum" + "(" + "a" + ")";
  }

  lemma SessionAggregateHeader()
    ensures Header(SessionAggregate()) == AggregateText()
  {
    WindowAggregateHeaderForm([FieldA()], [Call("sum", [FieldA()])], [],
                              SessionWindow("w", FieldA(), IntervalMillis(10)), Table(), ["a"]);
    assert DisplayAll([FieldA()]) == ["a"] && DisplayAll([]) == [];
    SumDisplay();
    SessionWindowDisplay();
    AggregatePieces();
  }

  /** Literal merge: the group, aggregate and window-property parameters of the test's aggregation. */
  lemma AggregatePieces()
    ensures "group: [" + "a" + "]" == "group: [a]"
    ensures "agg: [" + "sum(a)" + "]" == "agg: [sum(a)]"
    ensures "windowProperties: [" + "" + "]" == "windowProperties: []"
  {
  }

  lemma DistinctHeader()
    ensures Header(DistinctAggregate()) == "Distinct:"
  {
    DistinctHeaderForm(SessionAggregate());
  }

  /** The outline of a node without children is its own line. */
  lemma OutlineLeaf(op: Op, depth: nat)
    requires Children(op) == []
    ensures Outline(op, depth) == [Spaces(4 * depth) + Header(op)]
  {
  }

  /** The outline of a node with one child: its own line, then the child's outline one level deeper. */
  lemma OutlineUnary(op: Op, c: Op, depth: nat)
    requires Children(op) == [c]
    ensures Outline(op, depth) == [Spaces(4 * depth) + Header(op)] + Outline(c, depth + 1)
  {
    var cs := Children(op);
    assert cs[1..] == [];
    assert OutlineAll(cs, depth + 1) == Outline(c, depth + 1) + OutlineAll([], depth + 1);
  }

  /** The outline of a node with two children: its own line, then both children's outlines, in order. */
  lemma OutlineBinary(op: Op, l: Op, r: Op, depth: nat)
    requires Children(op) == [l, r]
    ensures Outline(op, depth) == [Spaces(4 * depth) + Header(op)] + Outline(l, depth + 1) + Outline(r, depth + 1)
  {
    var cs := Children(op);
    var first, second := Outline(l, depth + 1), Outline(r, depth + 1);
    assert OutlineAll(cs[1..], depth + 1) == second by {
      assert cs[1..][0] == r && cs[1..][1..] == [];
      assert OutlineAll(cs[1..], depth + 1) == second + OutlineAll([], depth + 1);
      assert second + [] == second;
    }
    assert OutlineAll(cs, depth + 1) == first + second;
    ConcatAssoc([Spaces(4 * depth) + Header(op)], first, second);
  }

  /** The outline of a node whose only child is a leaf: two lines, the child's one level deeper. */
  lemma TwoLevelOutline(p: Op, t: Op, depth: nat)
    requires Children(p) == [t] && Children(t) == []
    ensures Outline(p, depth) == [Spaces(4 * depth) + Header(p), Spaces(4 * depth + 4) + Header(t)]
  {
    OutlineLeaf(t, depth + 1);
    OutlineUnary(p, t, depth);
  }

  /**
   The outline of a node whose two children are the same one-child node over
   a leaf: the node's line, then that two-line block twice.
   */
  lemma SharedChildOutline(u: Op, p: Op, t: Op, depth: nat)
    requires Children(u) == [p, p] && Children(p) == [t] && Children(t) == []
    ensures Outline(u, depth) == [Spaces(4 * depth) + Header(u),
      Spaces(4 * depth + 4) + Header(p), Spaces(4 * depth + 8) + Header(t),
      Spaces(4 * depth + 4) + Header(p), Spaces(4 * depth + 8) + Header(t)]
  {
    TwoLevelOutline(p, t, depth + 1);
    OutlineBinary(u, p, p, depth);
    RepeatedBlock(Spaces(4 * depth) + Header(u), Spaces(4 * depth + 4) + Header(p), Spaces(4 * depth + 8) + Header(t));
  }

  /** Literal merge: the margins of the first two nesting levels, written out. */
  lemma Margins()
    ensures Spaces(4) == "    " && Spaces(8) == "        "
  {
    assert Spaces(4) == "    ";
    SpacesAdd(4, 4);
  }

  /** Literal merge: no indentation leaves a line as it is. */
  lemma NoSpaces(line: string)
    ensures Spaces(4 * 0) + line == line
  {
    assert Spaces(4 * 0) == [];
  }

  /** Literal merge: a header followed by a two-line block, once and twice. */
  lemma RepeatedBlock<T>(x: T, a: T, b: T)
    ensures [x] + [a, b] == [x, a, b]
    ensures [x] + [a, b] + [a, b] == [x, a, b, a, b]
  {
  }

  lemma SelfUnionOutline()
    ensures Outline(SelfUnion(), 0) == [Header(SelfUnion()),
      Spaces(4) + Header(ProjectA()), Spaces(8) + Header(Table()),
      Spaces(4) + Header(ProjectA()), Spaces(8) + Header(Table())]
  {
    assert Children(SelfUnion()) == [ProjectA(), ProjectA()];
    assert Children(ProjectA()) == [Table()];
    SharedChildOutline(SelfUnion(), ProjectA(), Table(), 0);
    NoSpaces(Header(SelfUnion()));
  }

  lemma SelfUnionLineFree()
    ensures LineFreeOp(SelfUnion())
  {
    assert LineFreeOp(Table());
    assert LineFreeOp(ProjectA());
  }

  /**
   A self-union renders its header, then the projection's block, catalog table
   included, twice: five lines, four spaces deeper per level.
   */
  lemma SelfUnionSummary()
    ensures var lines := [UnionText(), "    " + ProjectText(), "        " + TableText(),
                                       "    " + ProjectText(), "        " + TableText()];
      Split(Summary(SelfUnion())) == lines && Summary(SelfUnion()) == JoinWith("\n", lines)
  {
    SelfUnionOutline();
    TableHeader();
    ProjectHeader();
    UnionHeader();
    Margins();
    SelfUnionLineFree();
    SummaryLines(SelfUnion());
  }

  /** The outline of a chain of three nodes: one line each, one level deeper each. */
  lemma ChainOutline(d: Op, a: Op, t: Op, depth: nat)
    requires Children(d) == [a] && Children(a) == [t] && Children(t) == []
    ensures Outline(d, depth) == [Spaces(4 * depth) + Header(d),
      Spaces(4 * depth + 4) + Header(a), Spaces(4 * depth + 8) + Header(t)]
  {
    TwoLevelOneDeeper(a, t, depth);
    OutlineUnary(d, a, depth);
    RepeatedBlock(Spaces(4 * depth) + Header(d), Spaces(4 * depth + 4) + Header(a), Spaces(4 * depth + 8) + Header(t));
  }

  /** A one-child node over a leaf, one level below `depth`. */
  lemma TwoLevelOneDeeper(p: Op, t: Op, depth: nat)
    requires Children(p) == [t] && Children(t) == []
    ensures Outline(p, depth + 1) == [Spaces(4 * depth + 4) + Header(p), Spaces(4 * depth + 8) + Header(t)]
  {
    TwoLevelOutline(p, t, depth + 1);
    assert 4 * (depth + 1) == 4 * depth + 4 && 4 * (depth + 1) + 4 == 4 * depth + 8;
  }

  lemma DistinctAggregateOutline()
    ensures Outline(DistinctAggregate(), 0)
         == [Header(DistinctAggregate()), Spaces(4) + Header(SessionAggregate()), Spaces(8) + Header(Table())]
  {
    assert Children(DistinctAggregate()) == [SessionAggregate()];
    assert Children(SessionAggregate()) == [Table()];
    ChainOutline(DistinctAggregate(), SessionAggregate(), Table(), 0);
    NoSpaces(Header(DistinctAggregate()));
  }

  lemma DistinctAggregateLineFree()
    ensures LineFreeOp(DistinctAggregate())
  {
    assert LineFreeOp(Table());
    assert LineFreeExpr(FieldA()) && LineFreeExpr(Call("sum", [FieldA()]));
    assert LineFreeOp(SessionAggregate());
  }

  /**
   A distinct over a session-window aggregation over the table renders three
   lines, one level deeper each; the distinct's header has no parameter list.
   */
  lemma DistinctAggregateSummary()
    ensures var lines := ["Distinct:", "    " + AggregateText(), "        " + TableText()];
      Split(Summary(DistinctAggregate())) == lines && Summary(DistinctAggregate()) == JoinWith("\n", lines)
  {
    DistinctAggregateOutline();
    TableHeader();
    SessionAggregateHeader();
    DistinctHeader();
    Margins();
    DistinctAggregateLineFree();
    SummaryLines(DistinctAggregate());
  }

  /** The test's input block is its five lines joined by line breaks. */
  lemma IndentationInput()
    ensures JoinWith("\n", ["firstLevel", "    secondLevel0", "        thirdLevel0",
                            "    secondLevel1", "        thirdLevel1"]) ==
      "firstLevel\n" +
      "    secondLevel0\n" +
      "        thirdLevel0\n" +
      "    secondLevel1\n" +
      "        thirdLevel1"
  {
    var a, b, c, d, e := "firstLevel", "    secondLevel0", "        thirdLevel0",
      "    secondLevel1", "        thirdLevel1";
    JoinFive("\n", a, b, c, d, e);
    assert a + "\n" == "firstLevel\n";
    assert b + "\n" == "    secondLevel0\n";
    assert c + "\n" == "        thirdLevel0\n";
    assert d + "\n" == "    secondLevel1\n";
    RegroupFive("firstLevel\n", "    secondLevel0\n", "        thirdLevel0\n", "    secondLevel1\n", e);
  }

  /** An empty first item contributes only the separator. */
  lemma JoinAfterEmpty(sep: string, items: seq<string>)
    requires items != []
    ensures JoinWith(sep, [[]] + items) == sep + JoinWith(sep, items)
  {
    assert ([[]] + items)[1..] == items;
  }

  /** Literal merge: the first three expected output lines, each input line behind the indent unit. */
  lemma IndentedFirstLines()
    ensures Unit + "firstLevel" + "\n" == "    firstLevel\n"
    ensures Unit + "    secondLevel0" + "\n" == "        secondLevel0\n"
    ensures Unit + "        thirdLevel0" + "\n" == "            thirdLevel0\n"
  {
  }

  /** Literal merge: the last two expected output lines, each input line behind the indent unit. */
  lemma IndentedLastLines()
    ensures Unit + "    secondLevel1" + "\n" == "        secondLevel1\n"
    ensures Unit + "        thirdLevel1" == "            thirdLevel1"
  {
  }

  /** No line of the test's input block holds a line break. */
  lemma InputLinesLineFree()
    ensures LineFree(["firstLevel", "    secondLevel0", "        thirdLevel0", "    secondLevel1", "        thirdLevel1"])
  {
  }

  /** The test's expected block is an empty line and the five lines, each one unit deeper, joined by line breaks. */
  lemma IndentationOutput()
    ensures JoinWith("\n", [[]] + MapPrefix(Unit, ["firstLevel", "    secondLevel0", "        thirdLevel0",
                                                  "    secondLevel1", "        thirdLevel1"])) ==
      "\n" +
      "    firstLevel\n" +
      "        secondLevel0\n" +
      "            thirdLevel0\n" +
      "        secondLevel1\n" +
      "            thirdLevel1"
  {
    var a, b, c, d, e := "firstLevel", "    secondLevel0", "        thirdLevel0",
      "    secondLevel1", "        thirdLevel1";
    var shifted := MapPrefix(Unit, [a, b, c, d, e]);
    assert shifted == [Unit + a, Unit + b, Unit + c, Unit + d, Unit + e];
    JoinAfterEmpty("\n", shifted);
    JoinFive("\n", Unit + a, Unit + b, Unit + c, Unit + d, Unit + e);
    IndentedFirstLines();
    IndentedLastLines();
    var x1, x2, x3, x4, x5 := "    firstLevel\n", "        secondLevel0\n", "            thirdLevel0\n",
                              "        secondLevel1\n", "            thirdLevel1";
    ConcatAssoc("\n", x1, x2 + (x3 + (x4 + x5)));
    RegroupFive("\n" + x1, x2, x3, x4, x5);
  }

  /** Indenting a block that already holds three levels keeps them, one unit deeper, after a blank line. */
  lemma IndentationScenario()
    ensures Indent(
      "firstLevel\n" +
      "    secondLevel0\n" +
      "        thirdLevel0\n" +
      "    secondLevel1\n" +
      "        thirdLevel1")
      ==
      "\n" +
      "    firstLevel\n" +
      "        secondLevel0\n" +
      "            thirdLevel0\n" +
      "        secondLevel1\n" +
      "            thirdLevel1"
  {
    var lines := ["firstLevel", "    secondLevel0", "        thirdLevel0", "    secondLevel1", "        thirdLevel1"];
    IndentationInput();
    InputLinesLineFree();
    SplitJoin(lines);
    IndentByLines(JoinWith("\n", lines));
    IndentationOutput();
  }
}

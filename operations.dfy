/**
 The logical plan: an immutable tree of table operations, the one-line header
 of each node and the recursive summary of a whole tree.
 */
module Operations {
  import opened Text
  import opened Indentation
  import opened Expressions

  /** A resolved group window: its alias, its time attribute and its size, slide or gap. */
  datatype Window =
    | TumbleWindow(alias: string, timeField: Expr, size: Expr)
    | SlideWindow(alias: string, timeField: Expr, size: Expr, slide: Expr)
    | SessionWindow(alias: string, timeField: Expr, gap: Expr)

  datatype SetKind = Union | Intersect | Minus

  /**
   A plan node. A schema is modelled as its list of field names; the names of
   Project and WindowAggregate are carried but do not appear in the summary.
   */
  datatype Op =
    | CatalogTable(path: seq<string>, fields: seq<string>)
    | Project(projections: seq<Expr>, child: Op, fields: seq<string>)
    | Distinct(child: Op)
    | WindowAggregate(group: seq<Expr>, agg: seq<Expr>, windowProperties: seq<Expr>,
                      window: Window, child: Op, fields: seq<string>)
    | SetOp(kind: SetKind, all: bool, left: Op, right: Op)

  /** One rendered parameter: `key: [value]`. */
  function FormatParam(key: string, value: string): string
  {
    key + ": [" + value + "]"
  }

  /** The rendered parameters, in order. */
  function FormatParams(params: seq<(string, string)>): (r: seq<string>)
    ensures |r| == |params|
    ensures forall i :: 0 <= i < |params| ==> r[i] == FormatParam(params[i].0, params[i].1)
  {
    seq(|params|, i requires 0 <= i < |params| => FormatParam(params[i].0, params[i].1))
  }

  /**
   A node header: the node's label and a colon, then, unless there are no
   parameters, a space and the parenthesised parameter list.
   */
  function Format(name: string, params: seq<(string, string)>): (r: string)
    ensures |r| > |name| && r[..|name| + 1] == name + ":"
    ensures r[|r| - 1] == (if params == [] then ':' else ')')
    ensures params == [] <==> |r| == |name| + 1
  {
    if params == [] then name + ":"
    else name + ": (" + JoinWith(", ", FormatParams(params)) + ")"
  }

  /** The items of a list parameter, separated by a comma and a space. */
  function List(items: seq<string>): string
  {
    JoinWith(", ", items)
  }

  function WindowLabel(w: Window): string
  {
    match w
    case TumbleWindow(_, _, _) => "TumbleWindow"
    case SlideWindow(_, _, _, _) => "SlideWindow"
    case SessionWindow(_, _, _) => "SessionWindow"
  }

  function WindowParams(w: Window): seq<(string, string)>
  {
    match w
    case TumbleWindow(_, field, size) => [("field", Display(field)), ("size", Display(size))]
    case SlideWindow(_, field, size, slide) =>
      [("field", Display(field)), ("slide", Display(slide)), ("size", Display(size))]
    case SessionWindow(_, field, gap) => [("field", Display(field)), ("gap", Display(gap))]
  }

  /** The one-line display of a window: its label and its parameters in parentheses. */
  function WindowDisplay(w: Window): (r: string)
    ensures |r| > |WindowLabel(w)| && r[..|WindowLabel(w)| + 1] == WindowLabel(w) + "("
    ensures r[|r| - 1] == ')'
  {
    WindowLabel(w) + "(" + JoinWith(", ", FormatParams(WindowParams(w))) + ")"
  }

  function SetLabel(kind: SetKind): string
  {
    match kind
    case Union => "Union"
    case Intersect => "Intersect"
    case Minus => "Minus"
  }

  function Label(op: Op): string
  {
    match op
    case CatalogTable(_, _) => "CatalogTable"
    case Project(_, _, _) => "Project"
    case Distinct(_) => "Distinct"
    case WindowAggregate(_, _, _, _, _, _) => "WindowAggregate"
    case SetOp(kind, _, _, _) => SetLabel(kind)
  }

  /** The node's own parameters, as key and rendered value, in display order. */
  function Params(op: Op): seq<(string, string)>
  {
    match op
    case CatalogTable(path, fields) => [("path", List(path)), ("fields", List(fields))]
    case Project(projections, _, _) => [("projections", List(DisplayAll(projections)))]
    case Distinct(_) => []
    case WindowAggregate(group, agg, props, window, _, _) =>
      [("group", List(DisplayAll(group))), ("agg", List(DisplayAll(agg))),
       ("windowProperties", List(DisplayAll(props))), ("window", WindowDisplay(window))]
    case SetOp(_, all, _, _) => [("all", if all then "true" else "false")]
  }

  /**
   The header of a node, without its children. Only Distinct has no
   parameters, so only its header is the bare label and colon.
   */
  function Header(op: Op): (r: string)
    ensures |r| > 0 && r[|r| - 1] in {':', ')'}
    ensures r == Label(op) + ":" <==> op.Distinct?
  {
    Format(Label(op), Params(op))
  }

  /** Number of nodes in the tree, a subtree counted once per place it occurs. */
  function Size(op: Op): (n: nat)
    ensures n >= 1
  {
    match op
    case CatalogTable(_, _) => 1
    case Project(_, c, _) => 1 + Size(c)
    case Distinct(c) => 1 + Size(c)
    case WindowAggregate(_, _, _, _, c, _) => 1 + Size(c)
    case SetOp(_, _, l, r) => 1 + Size(l) + Size(r)
  }

  /** Total number of nodes in the trees `cs`. */
  function SizeAll(cs: seq<Op>): (n: nat)
    ensures |cs| <= n
    ensures cs != [] ==> Size(cs[0]) <= n
  {
    if cs == [] then 0 else Size(cs[0]) + SizeAll(cs[1..])
  }

  /** The children of a node, in summary order; the node adds one to their size. */
  function Children(op: Op): (cs: seq<Op>)
    ensures forall i :: 0 <= i < |cs| ==> cs[i] < op
    ensures Size(op) == 1 + SizeAll(cs)
  {
    match op
    case CatalogTable(_, _) => []
    case Project(_, c, _) => [c]
    case Distinct(c) => [c]
    case WindowAggregate(_, _, _, _, c, _) => [c]
    case SetOp(_, _, l, r) =>
      assert [l, r][1..] == [r] && [r][1..] == [];
      assert SizeAll([r]) == Size(r) + SizeAll([]);
      assert SizeAll([l, r]) == Size(l) + SizeAll([r]);
      [l, r]
  }

  /**
   The summary of a tree: the header of its root, then the summary of every
   child, indented, in child order. It never ends with a line break.
   */
  function Summary(op: Op): (r: string)
    ensures |r| > 0 && r[|r| - 1] in {':', ')'}
    decreases Size(op), 0
  {
    Header(op) + Blocks(Children(op))
  }

  /** The indented summaries of `cs`, one block after the other. */
  function Blocks(cs: seq<Op>): (r: string)
    ensures r == [] <==> cs == []
    ensures cs != [] ==> r[|r| - 1] in {':', ')'}
    decreases SizeAll(cs), 1
  {
    if cs == [] then []
    else
      var first := Indent(Summary(cs[0]));
      var rest := Blocks(cs[1..]);
      IndentLast(Summary(cs[0]));
      assert rest != [] ==> (first + rest)[|first + rest| - 1] == rest[|rest| - 1];
      first + rest
  }

  /**
   The expected lines of a summary, built without indentation: every node in
   preorder contributes one line, its header behind four spaces per level of
   depth.
   */
  function Outline(op: Op, depth: nat): (lines: seq<string>)
    ensures |lines| == Size(op)
    decreases Size(op), 0
  {
    [Spaces(4 * depth) + Header(op)] + OutlineAll(Children(op), depth + 1)
  }

  /** The outlines of `cs` at `depth`, one after the other. */
  function OutlineAll(cs: seq<Op>, depth: nat): (lines: seq<string>)
    ensures |lines| == SizeAll(cs)
    decreases SizeAll(cs), 1
  {
    if cs == [] then [] else Outline(cs[0], depth) + OutlineAll(cs[1..], depth)
  }

  /** No name anywhere in the window's expressions holds a line break. */
  predicate LineFreeWindow(w: Window)
  {
    match w
    case TumbleWindow(_, field, size) => LineFreeExpr(field) && LineFreeExpr(size)
    case SlideWindow(_, field, size, slide) =>
      LineFreeExpr(field) && LineFreeExpr(size) && LineFreeExpr(slide)
    case SessionWindow(_, field, gap) => LineFreeExpr(field) && LineFreeExpr(gap)
  }

  predicate LineFreeExprs(es: seq<Expr>)
  {
    forall e :: e in es ==> LineFreeExpr(e)
  }

  /** No path segment, field name or expression name of the node itself holds a line break. */
  predicate LineFreeParams(op: Op)
  {
    match op
    case CatalogTable(path, fields) => LineFree(path) && LineFree(fields)
    case Project(projections, _, _) => LineFreeExprs(projections)
    case Distinct(_) => true
    case WindowAggregate(group, agg, props, window, _, _) =>
      LineFreeExprs(group) && LineFreeExprs(agg) && LineFreeExprs(props) && LineFreeWindow(window)
    case SetOp(_, _, _, _) => true
  }

  /** No path segment, field name or expression name anywhere in the tree holds a line break. */
  predicate LineFreeOp(op: Op)
  {
    LineFreeParams(op) && forall i :: 0 <= i < |Children(op)| ==> LineFreeOp(Children(op)[i])
  }

  /** A list of line-free items renders on one line. */
  lemma ListLineFree(items: seq<string>)
    requires LineFree(items)
    ensures '\n' !in List(items)
  {
    JoinWithExcludes('\n', ", ", items);
  }

  /** True when no key and no value of `params` holds a line break. */
  predicate LineFreePairs(params: seq<(string, string)>)
  {
    forall i :: 0 <= i < |params| ==> '\n' !in params[i].0 && '\n' !in params[i].1
  }

  lemma FormatParamLineFree(key: string, value: string)
    requires '\n' !in key && '\n' !in value
    ensures '\n' !in FormatParam(key, value)
  {
    var open, close := ": [", "]";
    assert '\n' !in open && '\n' !in close;
    assert FormatParam(key, value) == key + open + value + close;
  }

  lemma FormatParamsLineFree(params: seq<(string, string)>)
    requires LineFreePairs(params)
    ensures '\n' !in JoinWith(", ", FormatParams(params))
  {
    var rendered := FormatParams(params);
    forall i | 0 <= i < |rendered|
      ensures '\n' !in rendered[i]
    {
      FormatParamLineFree(params[i].0, params[i].1);
    }
    JoinWithExcludes('\n', ", ", rendered);
  }

  /** A line-free label and line-free parameters give a one-line header. */
  lemma FormatLineFree(name: string, params: seq<(string, string)>)
    requires '\n' !in name && LineFreePairs(params)
    ensures '\n' !in Format(name, params)
  {
    if params != [] {
      var body := JoinWith(", ", FormatParams(params));
      FormatParamsLineFree(params);
      var open, close := ": (", ")";
      assert '\n' !in open && '\n' !in close;
      assert Format(name, params) == name + open + body + close;
    }
  }

  lemma WindowParamsLineFree(w: Window)
    requires LineFreeWindow(w)
    ensures LineFreePairs(WindowParams(w))
  {
  }

  /** A window whose expressions are line-free displays on one line. */
  lemma WindowDisplayLineFree(w: Window)
    requires LineFreeWindow(w)
    ensures '\n' !in WindowDisplay(w)
  {
    WindowParamsLineFree(w);
    FormatParamsLineFree(WindowParams(w));
    var body := JoinWith(", ", FormatParams(WindowParams(w)));
    var open, close := "(", ")";
    assert '\n' !in open && '\n' !in close && '\n' !in WindowLabel(w);
    assert WindowDisplay(w) == WindowLabel(w) + open + body + close;
  }

  /** The displays of line-free expressions, listed, stay on one line. */
  lemma ExprListLineFree(es: seq<Expr>)
    requires LineFreeExprs(es)
    ensures '\n' !in List(DisplayAll(es))
  {
    ListLineFree(DisplayAll(es));
  }

  /** The parameters of a node whose own names are line-free are line-free. */
  lemma ParamsLineFree(op: Op)
    requires LineFreeParams(op)
    ensures LineFreePairs(Params(op))
  {
    match op {
      case CatalogTable(path, fields) =>
        assert LineFreePairs(Params(op)) by {
          ListLineFree(path);
          ListLineFree(fields);
          assert Params(op) == [("path", List(path)), ("fields", List(fields))];
        }
      case Project(projections, _, _) =>
        assert LineFreePairs(Params(op)) by {
          ExprListLineFree(projections);
          assert Params(op) == [("projections", List(DisplayAll(projections)))];
        }
      case Distinct(_) =>
      case WindowAggregate(_, _, _, _, _, _) =>
        WindowAggregateParamsLineFree(op);
      case SetOp(_, all, _, _) =>
        assert LineFreePairs(Params(op)) by {
          assert Params(op) == [("all", if all then "true" else "false")];
        }
    }
  }

  lemma WindowAggregateParamsLineFree(op: Op)
    requires op.WindowAggregate? && LineFreeParams(op)
    ensures LineFreePairs(Params(op))
  {
    var ps := [("group", List(DisplayAll(op.group))), ("agg", List(DisplayAll(op.agg))),
               ("windowProperties", List(DisplayAll(op.windowProperties))),
               ("window", WindowDisplay(op.window))];
    assert Params(op) == ps;
    assert '\n' !in ps[0].1 by { ExprListLineFree(op.group); }
    assert '\n' !in ps[1].1 by { ExprListLineFree(op.agg); }
    assert '\n' !in ps[2].1 by { ExprListLineFree(op.windowProperties); }
    assert '\n' !in ps[3].1 by { WindowDisplayLineFree(op.window); }
    assert '\n' !in ps[0].0 && '\n' !in ps[1].0 && '\n' !in ps[2].0 && '\n' !in ps[3].0;
  }

  /** A node whose own names are line-free has a one-line header. */
  lemma HeaderLineFree(op: Op)
    requires LineFreeParams(op)
    ensures '\n' !in Header(op)
  {
    ParamsLineFree(op);
    assert '\n' !in Label(op);
    FormatLineFree(Label(op), Params(op));
  }

  /** Text followed by the blocks of `cs` splits into the text's lines and the children's shifted lines. */
  lemma {:induction false} AppendBlocks(t: string, cs: seq<Op>)
    ensures Split(t + Blocks(cs)) == Split(t) + ChildLines(cs)
    decreases cs
  {
    if cs == [] {
      assert t + [] == t;
    } else {
      var first := Indent(Summary(cs[0]));
      var rest := Blocks(cs[1..]);
      assert Blocks(cs) == first + rest;
      ConcatAssoc(t, first, rest);
      var shifted := MapPrefix(Unit, Split(Summary(cs[0])));
      AppendIndented(t, Summary(cs[0]));
      assert Split(t + first) == Split(t) + shifted;
      AppendBlocks(t + first, cs[1..]);
      assert ChildLines(cs) == shifted + ChildLines(cs[1..]);
      ConcatAssoc(Split(t), shifted, ChildLines(cs[1..]));
    }
  }

  /** The lines of the indented summaries of `cs`, one child after the other. */
  function ChildLines(cs: seq<Op>): seq<string>
  {
    if cs == [] then [] else MapPrefix(Unit, Split(Summary(cs[0]))) + ChildLines(cs[1..])
  }

  /**
   Line by line, a summary is the lines of its root's header followed by every
   line of every child's own summary, four spaces further right, children in
   order; a one-line header is the first line. A child that occurs twice (a
   self-union) is reproduced twice.
   */
  lemma SummaryChildLines(op: Op)
    ensures Split(Summary(op)) == Split(Header(op)) + ChildLines(Children(op))
    ensures '\n' !in Header(op) ==> Split(Summary(op)) == [Header(op)] + ChildLines(Children(op))
  {
    var h := Header(op);
    AppendBlocks(h, Children(op));
    if '\n' !in h {
      SplitLineFree(h);
    }
  }

  /** Shifting the lines of text followed by an indented block. */
  lemma ShiftIndented(t: string, s: string, depth: nat)
    ensures MapPrefix(Spaces(4 * depth), Split(t + Indent(s)))
         == MapPrefix(Spaces(4 * depth), Split(t)) + MapPrefix(Spaces(4 * (depth + 1)), Split(s))
  {
    AppendIndented(t, s);
    MapPrefixAppend(Spaces(4 * depth), Split(t), MapPrefix(Unit, Split(s)));
    MapPrefixTwice(Spaces(4 * depth), Unit, Split(s));
    assert Unit == Spaces(4);
    SpacesAdd(4 * depth, 4);
  }

  /**
   The summary of a node, every line shifted by `depth` levels, is the
   outline of the node at that depth.
   */
  lemma {:induction false} SummaryOutline(op: Op, depth: nat)
    requires LineFreeOp(op)
    ensures MapPrefix(Spaces(4 * depth), Split(Summary(op))) == Outline(op, depth)
    decreases Size(op), 0
  {
    var h := Header(op);
    var pad := Spaces(4 * depth);
    HeaderLineFree(op);
    SplitLineFreePrefix(h, []);
    assert h + [] == h;
    assert MapPrefix(pad, Split(h)) == [pad + h];
    BlocksOutline(h, Children(op), depth);
  }

  /** Shifting text followed by the blocks of `cs` gives the text's lines and the outlines of `cs`. */
  lemma {:induction false} BlocksOutline(t: string, cs: seq<Op>, depth: nat)
    requires forall i :: 0 <= i < |cs| ==> LineFreeOp(cs[i])
    ensures MapPrefix(Spaces(4 * depth), Split(t + Blocks(cs)))
         == MapPrefix(Spaces(4 * depth), Split(t)) + OutlineAll(cs, depth + 1)
    decreases SizeAll(cs), 1
  {
    var pad := Spaces(4 * depth);
    if cs == [] {
      assert t + [] == t;
    } else {
      var first := Indent(Summary(cs[0]));
      var rest := Blocks(cs[1..]);
      assert Blocks(cs) == first + rest;
      ConcatAssoc(t, first, rest);
      ShiftIndented(t, Summary(cs[0]), depth);
      SummaryOutline(cs[0], depth + 1);
      BlocksOutline(t + first, cs[1..], depth);
    }
  }

  /**
   The summary of a tree whose names are line-free has one line per node, in
   preorder, each node's header behind four spaces per level of depth; the
   summary is exactly those lines joined by line breaks.
   */
  lemma SummaryLines(op: Op)
    requires LineFreeOp(op)
    ensures Split(Summary(op)) == Outline(op, 0)
    ensures |Split(Summary(op))| == Size(op)
    ensures Summary(op) == JoinWith("\n", Outline(op, 0))
  {
    SummaryOutline(op, 0);
    MapPrefixNothing(Split(Summary(op)));
    JoinSplit(Summary(op));
  }

  /** A catalog table with line-free names renders as its header alone, on one line. */
  lemma CatalogTableSingleLine(path: seq<string>, fields: seq<string>)
    requires LineFree(path) && LineFree(fields)
    ensures Split(Summary(CatalogTable(path, fields))) == [Header(CatalogTable(path, fields))]
  {
    var op := CatalogTable(path, fields);
    SummaryLines(op);
    assert Outline(op, 0) == [Spaces(0) + Header(op)] + [];
    assert Spaces(0) + Header(op) == Header(op);
  }

  /**
   Every line of an outline at `depth` starts with four spaces per level of
   depth, and every line after the first, a descendant's, with four more.
   */
  lemma {:induction false} OutlineIndented(op: Op, depth: nat, i: nat)
    requires i < Size(op)
    ensures LeadingSpaces(Outline(op, depth)[i], 4 * depth)
    ensures i > 0 ==> LeadingSpaces(Outline(op, depth)[i], 4 * (depth + 1))
    decreases Size(op), 0
  {
    var lines := Outline(op, depth);
    var own := Spaces(4 * depth) + Header(op);
    var below := OutlineAll(Children(op), depth + 1);
    assert lines == [own] + below;
    if i == 0 {
      SpacesLead(4 * depth, Header(op));
    } else {
      OutlineAllIndented(Children(op), depth + 1, i - 1);
      LeadingSpacesFewer(below[i - 1], 4 * depth, 4 * (depth + 1));
    }
  }

  lemma {:induction false} OutlineAllIndented(cs: seq<Op>, depth: nat, i: nat)
    requires i < SizeAll(cs)
    ensures LeadingSpaces(OutlineAll(cs, depth)[i], 4 * depth)
    decreases SizeAll(cs), 1
  {
    var all := OutlineAll(cs, depth);
    var first := Outline(cs[0], depth);
    var rest := OutlineAll(cs[1..], depth);
    assert all == first + rest;
    if i < |first| {
      OutlineIndented(cs[0], depth, i);
      assert all[i] == first[i];
    } else {
      OutlineAllIndented(cs[1..], depth, i - |first|);
      assert all[i] == rest[i - |first|];
    }
  }

  /** A header with one parameter: the label, then that parameter rendered, in parentheses. */
  lemma FormatOne(name: string, k: string, v: string)
    ensures Format(name, [(k, v)]) == name + ": (" + FormatParam(k, v) + ")"
  {
    assert FormatParams([(k, v)]) == [FormatParam(k, v)];
  }

  /** A header with two parameters: each rendered, a comma and a space between them. */
  lemma FormatTwo(name: string, k1: string, v1: string, k2: string, v2: string)
    ensures Format(name, [(k1, v1), (k2, v2)])
         == name + ": (" + FormatParam(k1, v1) + ", " + FormatParam(k2, v2) + ")"
  {
    var ps := [FormatParam(k1, v1), FormatParam(k2, v2)];
    assert FormatParams([(k1, v1), (k2, v2)]) == ps;
    JoinTwo(", ", ps[0], ps[1]);
    RegroupTwo(name + ": (", ps[0], ", ", ps[1], ")");
  }

  /** A header with four parameters: each rendered, a comma and a space between each two. */
  lemma FormatFour(name: string, k0: string, v0: string, k1: string, v1: string,
                   k2: string, v2: string, k3: string, v3: string)
    ensures Format(name, [(k0, v0), (k1, v1), (k2, v2), (k3, v3)])
         == name + ": (" + FormatParam(k0, v0) + ", " + FormatParam(k1, v1)
            + ", " + FormatParam(k2, v2) + ", " + FormatParam(k3, v3) + ")"
  {
    var p0, p1, p2, p3 := FormatParam(k0, v0), FormatParam(k1, v1), FormatParam(k2, v2), FormatParam(k3, v3);
    assert FormatParams([(k0, v0), (k1, v1), (k2, v2), (k3, v3)]) == [p0, p1, p2, p3];
    assert JoinWith(", ", [p0, p1, p2, p3]) == p0 + ", " + (p1 + ", " + (p2 + ", " + p3)) by {
      assert [p0, p1, p2, p3][1..] == [p1, p2, p3];
      assert [p1, p2, p3][1..] == [p2, p3];
      JoinTwo(", ", p2, p3);
    }
    RegroupFour(name + ": (", p0, ", ", p1, p2, p3, ")");
  }

  /**
   Literal merge: the fixed pieces of the rendered text, written out, kept
   apart so that the header proofs stay small.
   */
  lemma Keys()
    ensures "CatalogTable" + ": (" == "CatalogTable: ("
    ensures "Project" + ": (" == "Project: ("
    ensures "WindowAggregate" + ": (" == "WindowAggregate: ("
    ensures "SessionWindow" + "(" == "SessionWindow("
    ensures "path" + ": [" == "path: [" && "fields" + ": [" == "fields: ["
    ensures "projections" + ": [" == "projections: [" && "all" + ": [" == "all: ["
    ensures "field" + ": [" == "field: [" && "gap" + ": [" == "gap: ["
    ensures "group" + ": [" == "group: [" && "agg" + ": [" == "agg: ["
    ensures "windowProperties" + ": [" == "windowProperties: [" && "window" + ": [" == "window: ["
  {
  }

  /** A catalog table renders its path segments and its field names, each joined by a comma and a space. */
  lemma CatalogTableHeader(path: seq<string>, fields: seq<string>)
    ensures Header(CatalogTable(path, fields))
         == "CatalogTable: (" + ("path: [" + List(path) + "]") + ", " + ("fields: [" + List(fields) + "]") + ")"
  {
    var p, f := List(path), List(fields);
    assert Header(CatalogTable(path, fields)) == Format("CatalogTable", [("path", p), ("fields", f)]);
    FormatTwo("CatalogTable", "path", p, "fields", f);
    Keys();
  }

  /** A projection renders the displays of its expressions, in order. */
  lemma ProjectHeaderForm(projections: seq<Expr>, child: Op, fields: seq<string>)
    ensures Header(Project(projections, child, fields))
         == "Project: (" + ("projections: [" + List(DisplayAll(projections)) + "]") + ")"
  {
    var x := List(DisplayAll(projections));
    assert Header(Project(projections, child, fields)) == Format("Project", [("projections", x)]);
    FormatOne("Project", "projections", x);
    Keys();
  }

  /** A distinct renders its label alone, whatever it reads from. */
  lemma DistinctHeaderForm(child: Op)
    ensures Header(Distinct(child)) == "Distinct:"
  {
  }

  /** A set operation renders its kind and its `all` flag as `true` or `false`. */
  lemma SetHeaderForm(kind: SetKind, all: bool, left: Op, right: Op)
    ensures Header(SetOp(kind, all, left, right))
         == SetLabel(kind) + ": (" + ("all: [" + (if all then "true" else "false") + "]") + ")"
  {
    var b := if all then "true" else "false";
    assert Header(SetOp(kind, all, left, right)) == Format(SetLabel(kind), [("all", b)]);
    FormatOne(SetLabel(kind), "all", b);
    Keys();
  }

  /** A session window renders its time attribute and its gap. */
  lemma SessionWindowForm(alias: string, timeField: Expr, gap: Expr)
    ensures WindowDisplay(SessionWindow(alias, timeField, gap))
         == "SessionWindow(" + ("field: [" + Display(timeField) + "]") + ", " + ("gap: [" + Display(gap) + "]") + ")"
  {
    var w := SessionWindow(alias, timeField, gap);
    var t, g := Display(timeField), Display(gap);
    var ps := [FormatParam("field", t), FormatParam("gap", g)];
    assert WindowLabel(w) == "SessionWindow" && WindowParams(w) == [("field", t), ("gap", g)];
    assert FormatParams([("field", t), ("gap", g)]) == ps;
    assert WindowDisplay(w) == "SessionWindow" + "(" + JoinWith(", ", ps) + ")";
    JoinTwo(", ", ps[0], ps[1]);
    RegroupTwo("SessionWindow" + "(", ps[0], ", ", ps[1], ")");
    Keys();
  }

  /**
   A window aggregation renders its grouping expressions, its aggregate calls,
   its window properties (an empty list as `[]`) and its window, in that order.
   */
  lemma WindowAggregateHeaderForm(group: seq<Expr>, agg: seq<Expr>, props: seq<Expr>,
                                  window: Window, child: Op, fields: seq<string>)
    ensures Header(WindowAggregate(group, agg, props, window, child, fields))
         == "WindowAggregate: (" + ("group: [" + List(DisplayAll(group)) + "]")
            + ", " + ("agg: [" + List(DisplayAll(agg)) + "]")
            + ", " + ("windowProperties: [" + List(DisplayAll(props)) + "]")
            + ", " + ("window: [" + WindowDisplay(window) + "]") + ")"
  {
    var g, a, p, w := List(DisplayAll(group)), List(DisplayAll(agg)), List(DisplayAll(props)), WindowDisplay(window);
    assert Header(WindowAggregate(group, agg, props, window, child, fields))
        == Format("WindowAggregate", [("group", g), ("agg", a), ("windowProperties", p), ("window", w)]);
    FormatFour("WindowAggregate", "group", g, "agg", a, "windowProperties", p, "window", w);
    Keys();
  }

  /**
   A set operation over the same subtree on both sides reproduces that
   subtree's indented block twice, line for line.
   */
  lemma SelfSetRepeatsChild(kind: SetKind, all: bool, c: Op)
    ensures Summary(SetOp(kind, all, c, c)) == Header(SetOp(kind, all, c, c)) + Indent(Summary(c)) + Indent(Summary(c))
    ensures Split(Summary(SetOp(kind, all, c, c)))
         == [Header(SetOp(kind, all, c, c))] + MapPrefix(Unit, Split(Summary(c))) + MapPrefix(Unit, Split(Summary(c)))
  {
    var op := SetOp(kind, all, c, c);
    var shifted := MapPrefix(Unit, Split(Summary(c)));
    SelfSetBlocks(kind, all, c);
    assert ChildLines([c, c]) == shifted + shifted by {
      assert [c, c][1..] == [c] && [c][1..] == [];
      assert ChildLines([c]) == shifted + [];
    }
    HeaderLineFree(op);
    SummaryChildLines(op);
    ConcatAssoc([Header(op)], shifted, shifted);
  }

  lemma SelfSetBlocks(kind: SetKind, all: bool, c: Op)
    ensures Summary(SetOp(kind, all, c, c)) == Header(SetOp(kind, all, c, c)) + Indent(Summary(c)) + Indent(Summary(c))
  {
    var op := SetOp(kind, all, c, c);
    var block := Indent(Summary(c));
    assert Children(op) == [c, c];
    assert Blocks([c, c]) == block + block by {
      assert [c, c][1..] == [c] && [c][1..] == [];
      assert Blocks([c]) == block + [];
    }
    assert Summary(op) == Header(op) + Blocks([c, c]);
    ConcatAssoc(Header(op), block, block);
  }
}

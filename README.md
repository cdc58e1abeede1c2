# Logical table operations and their summary strings

A model of the textual contract of Flink's logical plan description
(`TableOperation.asSummaryString()` and `TableOperationUtils.indent`), as it is
fixed character by character by `TableOperationTest`.

A plan is an immutable tree of table operations: a catalog table (a leaf read
by its qualified path), a projection, a distinct, a window aggregation and a
set operation (union, intersect or minus, with an `all` flag, over a left and
a right input). Every node renders a one-line header, `Label: (key: [value], …)`
or, for a distinct, the bare `Distinct:`; its summary is that header followed
by the summary of each input, in order, passed through the indentation rule.
The indentation rule puts a line break in front of a block and moves every
line of the block four spaces to the right. Expressions are field references
(displayed as their name), calls (`name(arg, …)`) and millisecond interval
literals (`N.millis`).

Files:

- `text.dfy` (module `Text`): lines of a string (`Split`), joining with a
  separator, runs of spaces, the round trip between splitting and joining, and
  reading a `, `-separated list back into its items.
- `indentation.dfy` (module `Indentation`): `Indent`, defined character by
  character and proved equal to the line-wise rule.
- `expressions.dfy` (module `Expressions`): expressions and their display,
  with the decimal rendering of interval literals and its read-back.
- `operations.dfy` (module `Operations`): window descriptors, set kinds, the
  operation tree, headers, the recursive `Summary`, and `Outline`, an
  independent description of a summary as one depth-padded header line per
  node in preorder.
- `scenarios.dfy` (module `Scenarios`): the three expectations of the test
  class as lemmas.

## Model

| member | source | states |
|---|---|---|
| Indentation.Indent | flink-table/flink-table-api-java/src/test/java/org/apache/flink/table/operations/TableOperationTest.java:104-113 | the indented block is never empty and starts with a line break |
| Indentation.IndentLines | flink-table/flink-table-api-java/src/test/java/org/apache/flink/table/operations/TableOperationTest.java:97-113 | the lines of `Indent(s)` are an empty line followed by each line of `s` behind four spaces, in order |
| Indentation.IndentByLines | flink-table/flink-table-api-java/src/test/java/org/apache/flink/table/operations/TableOperationTest.java:97-113 | `Indent(s)` equals a line break followed by the lines of `s`, each behind four spaces, joined by line breaks |
| Indentation.IndentLineCount | flink-table/flink-table-api-java/src/test/java/org/apache/flink/table/operations/TableOperationTest.java:104-108 | indenting adds exactly one line, the first one, and it is empty; every other line is an input line behind the unit |
| Indentation.IndentKeepsNesting | flink-table/flink-table-api-java/src/test/java/org/apache/flink/table/operations/TableOperationTest.java:98-112 | an input line that starts with k spaces comes out starting with k + 4 spaces, the rest of the line unchanged |
| Indentation.IndentLength | flink-table/flink-table-api-java/src/test/java/org/apache/flink/table/operations/TableOperationTest.java:106-113 | the indented block is one line break plus four characters per input line longer than the input |
| Indentation.IndentLast | flink-table/flink-table-api-java/src/test/java/org/apache/flink/table/operations/TableOperationTest.java:58-62 | indenting a block that does not end in a line break does not add a trailing line break |
| Indentation.IndentTwice | flink-table/flink-table-api-java/src/test/java/org/apache/flink/table/operations/TableOperationTest.java:104-113 | indenting twice differs from indenting once: two leading lines and eight spaces in front of every input line |
| Indentation.AppendIndented | flink-table/flink-table-api-java/src/test/java/org/apache/flink/table/operations/TableOperationTest.java:58-62 | text followed by an indented block has the text's lines followed by the block's lines shifted right; the text's last line is untouched |
| Text.JoinSplit | flink-table/flink-table-api-java/src/test/java/org/apache/flink/table/operations/TableOperationTest.java:97-102 | joining the lines of a string with line breaks gives the string back |
| Text.SplitJoin | flink-table/flink-table-api-java/src/test/java/org/apache/flink/table/operations/TableOperationTest.java:97-102 | splitting line-free lines joined with line breaks gives the lines back |
| Text.SplitCount | flink-table/flink-table-api-java/src/test/java/org/apache/flink/table/operations/TableOperationTest.java:97-102 | a string with k line breaks has k + 1 lines |
| Expressions.DecimalRoundTrip | flink-table/flink-table-api-java/src/test/java/org/apache/flink/table/operations/TableOperationTest.java:75-77 | the decimal numeral of a count of milliseconds reads back as that count |
| Expressions.IntRoundTrip | flink-table/flink-table-api-java/src/test/java/org/apache/flink/table/operations/TableOperationTest.java:75-77 | the printed form of an integer literal, sign included, reads back as that integer |
| Expressions.Display | flink-table/flink-table-api-java/src/test/java/org/apache/flink/table/operations/TableOperationTest.java:69-77 | a field reference displays as its name, a call as its name and arguments in parentheses, an interval literal as `N.millis`; an expression whose names hold no line break displays on one line |
| Expressions.CallDisplayParts | flink-table/flink-table-api-java/src/test/java/org/apache/flink/table/operations/TableOperationTest.java:72-73 | a call's display starts with its name and `(` and ends with `)`; without arguments it is exactly the name and `()`; it is as long as the name, the parentheses, the argument displays and one `, ` between each two; and when no argument display holds `, `, the text between the parentheses splits at `, ` back into the argument displays, in order |
| Operations.WindowDisplay | flink-table/flink-table-api-java/src/test/java/org/apache/flink/table/operations/TableOperationTest.java:75-77 | a window displays as its label followed by `(` and ends with `)` |
| Operations.WindowDisplayLineFree | flink-table/flink-table-api-java/src/test/java/org/apache/flink/table/operations/TableOperationTest.java:89 | a window whose expressions hold no line break displays on one line |
| Operations.Header | flink-table/flink-table-api-java/src/test/java/org/apache/flink/table/operations/TableOperationTest.java:58-60 | a header ends with `:` or `)`, and it is the bare label and colon exactly for a distinct |
| Operations.HeaderLineFree | flink-table/flink-table-api-java/src/test/java/org/apache/flink/table/operations/TableOperationTest.java:58-60 | a node whose own names (path segments, field names and the names in its expressions) hold no line break has a header on a single line |
| Operations.CatalogTableHeader | flink-table/flink-table-api-java/src/test/java/org/apache/flink/table/operations/TableOperationTest.java:48-60 | a catalog table renders `CatalogTable: (path: [..], fields: [..])` with its segments and field names joined by a comma and a space |
| Operations.ProjectHeaderForm | flink-table/flink-table-api-java/src/test/java/org/apache/flink/table/operations/TableOperationTest.java:46-59 | a projection renders `Project: (projections: [..])` with the displays of its expressions in order |
| Operations.DistinctHeaderForm | flink-table/flink-table-api-java/src/test/java/org/apache/flink/table/operations/TableOperationTest.java:84-87 | a distinct renders `Distinct:` with no parameter list |
| Operations.SetHeaderForm | flink-table/flink-table-api-java/src/test/java/org/apache/flink/table/operations/TableOperationTest.java:52-58 | a set operation renders its kind's label and `(all: [true])` or `(all: [false])` |
| Operations.SessionWindowForm | flink-table/flink-table-api-java/src/test/java/org/apache/flink/table/operations/TableOperationTest.java:75-89 | a session window renders `SessionWindow(field: [..], gap: [..])` with the displays of its time attribute and gap |
| Operations.WindowAggregateHeaderForm | flink-table/flink-table-api-java/src/test/java/org/apache/flink/table/operations/TableOperationTest.java:70-89 | a window aggregation renders its group, agg, windowProperties and window parameters in that order; an empty list renders as `[]` |
| Operations.Summary | flink-table/flink-table-api-java/src/test/java/org/apache/flink/table/operations/TableOperationTest.java:58-62 | a summary is never empty and never ends with a line break |
| Operations.SummaryChildLines | flink-table/flink-table-api-java/src/test/java/org/apache/flink/table/operations/TableOperationTest.java:52-63 | line by line, every summary is the lines of its header followed by every line of each input's own summary, four spaces further right, inputs in order; a one-line header is exactly the first line |
| Operations.SelfSetRepeatsChild | flink-table/flink-table-api-java/src/test/java/org/apache/flink/table/operations/TableOperationTest.java:52-63 | a set operation with the same input on both sides is its header followed by that input's indented block twice |
| Operations.SummaryOutline | flink-table/flink-table-api-java/src/test/java/org/apache/flink/table/operations/TableOperationTest.java:58-62 | a summary shifted by d levels is the outline at depth d: each node's header in preorder behind four spaces per level |
| Operations.SummaryLines | flink-table/flink-table-api-java/src/test/java/org/apache/flink/table/operations/TableOperationTest.java:86-90 | a summary of a tree with line-free names has one line per node and is exactly its outline joined by line breaks |
| Operations.OutlineIndented | flink-table/flink-table-api-java/src/test/java/org/apache/flink/table/operations/TableOperationTest.java:58-62 | every line of an outline at depth d starts with 4·d spaces, and every descendant's line with 4·(d + 1) |
| Operations.CatalogTableSingleLine | flink-table/flink-table-api-java/src/test/java/org/apache/flink/table/operations/TableOperationTest.java:58-60 | a catalog table with line-free names renders as a single line, its header |
| Scenarios.TableHeader | flink-table/flink-table-api-java/src/test/java/org/apache/flink/table/operations/TableOperationTest.java:60 | the test's catalog table renders `CatalogTable: (path: [cat1, db1, tab1], fields: [a])` |
| Scenarios.ProjectHeader | flink-table/flink-table-api-java/src/test/java/org/apache/flink/table/operations/TableOperationTest.java:59 | the projection of `a` renders `Project: (projections: [a])` |
| Scenarios.UnionHeader | flink-table/flink-table-api-java/src/test/java/org/apache/flink/table/operations/TableOperationTest.java:58 | the self-union with `all` set renders `Union: (all: [true])` |
| Scenarios.TenMillis | flink-table/flink-table-api-java/src/test/java/org/apache/flink/table/operations/TableOperationTest.java:75-77 | the gap literal of 10 milliseconds displays as `10.millis` |
| Scenarios.SumDisplay | flink-table/flink-table-api-java/src/test/java/org/apache/flink/table/operations/TableOperationTest.java:72-73 | the call summing field `a` displays as `sum(a)` |
| Scenarios.SessionWindowDisplay | flink-table/flink-table-api-java/src/test/java/org/apache/flink/table/operations/TableOperationTest.java:75-89 | the session window on `a` with a 10 ms gap renders `SessionWindow(field: [a], gap: [10.millis])` |
| Scenarios.SessionAggregateHeader | flink-table/flink-table-api-java/src/test/java/org/apache/flink/table/operations/TableOperationTest.java:86-89 | the test's window aggregation renders its full header, with `sum(a)` and `windowProperties: []` |
| Scenarios.SelfUnionSummary | flink-table/flink-table-api-java/src/test/java/org/apache/flink/table/operations/TableOperationTest.java:42-63 | the union of the projection with itself renders exactly the five asserted lines |
| Scenarios.DistinctAggregateSummary | flink-table/flink-table-api-java/src/test/java/org/apache/flink/table/operations/TableOperationTest.java:66-91 | the distinct over the window aggregation renders exactly the three asserted lines |
| Scenarios.IndentationScenario | flink-table/flink-table-api-java/src/test/java/org/apache/flink/table/operations/TableOperationTest.java:95-113 | indenting the five-line, three-level block gives exactly the asserted six lines |

## Left out

- Data types and schemas: a schema is modelled as its list of field names, a field reference carries its name and positions but not its type, and no schema is checked against the expressions that produce it. Schema validation and type checking happen outside the rendering contract.
- Function definitions: a call carries the display name of its function (`sum`), not the built-in definition it stands for; lowering the definition's name to the display name happens outside this model.
- Literals: the only literal is a millisecond interval, displayed as `N.millis`; other value literals never appear in these summaries.
- Tumbling and sliding windows and the Intersect and Minus set kinds are datatype cases whose rendering (`TumbleWindow(field: [..], size: [..])`, `SlideWindow(field: [..], slide: [..], size: [..])`, `Intersect`, `Minus`) follows the same pattern but is not fixed by any asserted string; the window alias is carried but never rendered.
- Line-free names: the line-wise lemmas assume that no path segment, field name or function name holds a line break (`LineFreeOp`); `Summary` itself is total.
- The JUnit scaffolding (test annotations and `assertEquals`) is not modelled; each assertion is a lemma instead.

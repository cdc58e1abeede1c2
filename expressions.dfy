/**
 Expressions referenced by plan nodes and their one-line display form.
 */
module Expressions {
  import opened Text

  /**
   A field reference (its name, the input it reads from and its position
   there; the field's type is not modelled), a call of a function known by its
   display name, or a time-interval literal counted in milliseconds.
   */
  datatype Expr =
    | FieldRef(name: string, inputIndex: nat, fieldIndex: nat)
    | Call(func: string, args: seq<Expr>)
    | IntervalMillis(millis: int)

  /** The decimal digit for `d`. */
  function DigitChar(d: nat): (c: char)
    requires d < 10
    ensures '0' <= c <= '9'
  {
    (48 + d) as char
  }

  /** The value of the decimal digit `c`. */
  function DigitValue(c: char): (d: nat)
    requires '0' <= c <= '9'
    ensures d < 10
  {
    (c as int - 48) as nat
  }

  predicate IsDigits(s: string)
  {
    forall i :: 0 <= i < |s| ==> '0' <= s[i] <= '9'
  }

  /** The decimal numeral of `n`, most significant digit first, without leading zeros. */
  function Decimal(n: nat): (r: string)
    ensures |r| > 0 && IsDigits(r)
    ensures |r| > 1 ==> r[0] != '0'
  {
    if n < 10 then [DigitChar(n)] else Decimal(n / 10) + [DigitChar(n % 10)]
  }

  /** The number a nonempty string of decimal digits denotes. */
  function DecimalValue(s: string): (n: nat)
    requires IsDigits(s)
  {
    if s == [] then 0 else 10 * DecimalValue(s[..|s| - 1]) + DigitValue(s[|s| - 1])
  }

  /** Reading back the numeral of `n` gives `n`. */
  lemma {:induction false} DecimalRoundTrip(n: nat)
    ensures DecimalValue(Decimal(n)) == n
  {
    if n >= 10 {
      var r := Decimal(n);
      assert r[..|r| - 1] == Decimal(n / 10);
      DecimalRoundTrip(n / 10);
    }
  }

  /** A signed integer as the source's integers print: a minus sign before negative values. */
  function IntToString(n: int): (r: string)
    ensures |r| > 0 && (n >= 0 <==> r[0] != '-')
  {
    if n < 0 then "-" + Decimal(-n) else Decimal(n)
  }

  /** The integer a numeral with an optional leading minus sign denotes. */
  function IntValue(s: string): int
    requires |s| > 0 && (if s[0] == '-' then IsDigits(s[1..]) else IsDigits(s))
  {
    if s[0] == '-' then -(DecimalValue(s[1..]) as int) else DecimalValue(s)
  }

  /** Reading back the printed form of `n` gives `n`. */
  lemma IntRoundTrip(n: int)
    ensures var r := IntToString(n); |r| > 0 && (if r[0] == '-' then IsDigits(r[1..]) else IsDigits(r))
    ensures IntValue(IntToString(n)) == n
  {
    if n < 0 {
      var d := Decimal(-n);
      assert IntToString(n) == "-" + d;
      assert ("-" + d)[1..] == d;
      DecimalRoundTrip(-n);
    } else {
      var d := Decimal(n);
      assert IntToString(n) == d && d[0] != '-';
      DecimalRoundTrip(n);
    }
  }

  /**
   The display of an expression: a field reference by its name, a call by its
   name and its arguments' displays in parentheses, an interval literal by its
   count of milliseconds and `.millis`. An expression whose names hold no line
   break displays on one line.
   */
  function Display(e: Expr): (r: string)
    ensures LineFreeExpr(e) ==> '\n' !in r
    decreases e
  {
    match e
    case FieldRef(name, _, _) => name
    case Call(f, args) =>
      var items := DisplayAll(args);
      var r := f + "(" + JoinWith(", ", items) + ")";
      assert LineFreeExpr(e) ==> '\n' !in r by {
        if LineFreeExpr(e) {
          JoinWithExcludes('\n', ", ", items);
        }
      }
      r
    case IntervalMillis(n) =>
      assert IsDigits(Decimal(if n < 0 then -n else n));
      IntToString(n) + ".millis"
  }

  /** The displays of `es`, in order; one line each when their names are line-free. */
  function DisplayAll(es: seq<Expr>): (r: seq<string>)
    ensures |r| == |es|
    ensures forall i :: 0 <= i < |es| ==> r[i] == Display(es[i])
    ensures (forall a :: a in es ==> LineFreeExpr(a)) ==> LineFree(r)
    decreases es
  {
    if es == [] then [] else [Display(es[0])] + DisplayAll(es[1..])
  }

  /** No name anywhere in the expression holds a line break. */
  predicate LineFreeExpr(e: Expr)
  {
    match e
    case FieldRef(name, _, _) => '\n' !in name
    case Call(f, args) => '\n' !in f && forall a :: a in args ==> LineFreeExpr(a)
    case IntervalMillis(_) => true
  }

  /**
   A call's display is its name, an opening parenthesis, its arguments'
   displays with one comma-and-space between each two, and a closing
   parenthesis. It is as long as those pieces together, and when no
   argument's display holds a comma-and-space itself, the text between the
   parentheses reads back as the arguments' displays, in order.
   */
  lemma CallDisplayParts(func: string, args: seq<Expr>)
    ensures var r := Display(Call(func, args));
      |r| >= |func| + 2 && r[..|func|] == func && r[|func|] == '(' && r[|r| - 1] == ')'
    ensures args == [] ==> Display(Call(func, args)) == func + "()"
    ensures args != [] ==>
      |Display(Call(func, args))| == |func| + 2 + TotalLength(DisplayAll(args)) + 2 * (|args| - 1)
    ensures var r := Display(Call(func, args));
      args != [] && (forall i :: 0 <= i < |args| ==> NoItemBreak(Display(args[i]))) ==>
        SplitItems(r[|func| + 1..|r| - 1]) == DisplayAll(args)
  {
    var items := DisplayAll(args);
    var inner := JoinWith(", ", items);
    var r := Display(Call(func, args));
    assert r == func + "(" + inner + ")";
    assert r[..|func|] == func && r[|func| + 1..|r| - 1] == inner;
    if args != [] {
      JoinWithLength(", ", items);
      if forall i :: 0 <= i < |args| ==> NoItemBreak(Display(args[i])) {
        SplitItemsJoin(items);
      }
    }
  }
}

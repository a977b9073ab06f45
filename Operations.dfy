/**
 * The static operation catalog of the calculator engine: a dictionary from
 * button symbols to what the symbol does. The value domain is kept abstract:
 * `Numerics<N>` bundles the numeric constants, the arithmetic and trigonometric
 * closures and the rendering of a number as text, none of which is interpreted.
 */
module Operations {

  /**
   * The numeric environment the catalog is built from. In the original these
   * are Swift's `Double` constants and library functions, and the string
   * interpolation of a `Double`; here they are uninterpreted values.
   */
  datatype Numerics<!N> = Numerics(
    zero: N,                    // 0.0
    pi: N,                      // Double.pi
    show: N -> string,          // the interpolation "\(operand)"
    sqrt: N -> N,
    negate: N -> N,             // { -$0 }
    cos: N -> N,
    sin: N -> N,
    tan: N -> N,
    squared: N -> N,            // { pow($0, 2) }
    add: (N, N) -> N,
    subtract: (N, N) -> N,
    divide: (N, N) -> N,
    multiply: (N, N) -> N
  )

  /** One catalog entry: the cases of the source's `Operation` enum. */
  datatype OperationSpec<!N> =
    | Constant(value: N)
    | UnaryOperation(apply: N -> N, render: string -> string)
    | BinaryOperation(combine: (N, N) -> N, join: (string, string) -> string)
    | Equals
    | Reset
    | Undo

  const ResetSymbol: string := "C"
  const UndoSymbol: string := "←"
  const EqualsSymbol: string := "="
  const ConstantSymbols: set<string> := {"π"}
  const UnarySymbols: set<string> := {"√", "±", "cos", "sin", "tan", "x²"}
  const BinarySymbols: set<string> := {"+", "-", "÷", "*"}

  /** The symbols that are recorded in the program when pressed. */
  const LoggedSymbols: set<string> := {EqualsSymbol} + ConstantSymbols + UnarySymbols + BinarySymbols

  /** Every symbol the catalog knows: the logged ones, reset and undo. */
  const Symbols: set<string> := LoggedSymbols + {ResetSymbol, UndoSymbol}

  // The describe closures of the dictionary literal, one per unary and binary entry.
  function SqrtText(d: string): string { "√(" + d + ")" }
  function NegateText(d: string): string { "-(" + d + ")" }
  function CosText(d: string): string { "cos(" + d + ")" }
  function SinText(d: string): string { "sin(" + d + ")" }
  function TanText(d: string): string { "tan(" + d + ")" }
  function SquaredText(d: string): string { "(" + d + ")²" }
  function PlusText(a: string, b: string): string { a + "+" + b }
  function MinusText(a: string, b: string): string { a + "-" + b }
  function DivideText(a: string, b: string): string { a + "÷" + b }
  function TimesText(a: string, b: string): string { a + "*" + b }

  /**
   * The entry stored under a known symbol. Reset, undo, equals and the
   * constant are told apart directly; a unary or a binary symbol then selects
   * its closures below.
   */
  function Entry<N>(num: Numerics<N>, s: string): OperationSpec<N>
    requires s in Symbols
  {
    if s == ResetSymbol then Reset
    else if s == UndoSymbol then Undo
    else if s == EqualsSymbol then Equals
    else if s in ConstantSymbols then Constant(num.pi)
    else if s in UnarySymbols then UnaryEntryFor(num, s)
    else BinaryEntryFor(num, s)
  }

  /** The dictionary's unary entries: the compute closure and the describe closure. */
  function UnaryEntryFor<N>(num: Numerics<N>, s: string): OperationSpec<N>
    requires s in UnarySymbols
  {
    if s == "√" then UnaryOperation(num.sqrt, SqrtText)
    else if s == "±" then UnaryOperation(num.negate, NegateText)
    else if s == "cos" then UnaryOperation(num.cos, CosText)
    else if s == "sin" then UnaryOperation(num.sin, SinText)
    else if s == "tan" then UnaryOperation(num.tan, TanText)
    else UnaryOperation(num.squared, SquaredText)
  }

  /** The dictionary's binary entries: the compute closure and the describe closure. */
  function BinaryEntryFor<N>(num: Numerics<N>, s: string): OperationSpec<N>
    requires s in BinarySymbols
  {
    if s == "+" then BinaryOperation(num.add, PlusText)
    else if s == "-" then BinaryOperation(num.subtract, MinusText)
    else if s == "÷" then BinaryOperation(num.divide, DivideText)
    else BinaryOperation(num.multiply, TimesText)
  }

  /** The catalog: a dictionary whose keys are exactly `Symbols`. */
  function Catalog<N>(num: Numerics<N>): (r: map<string, OperationSpec<N>>)
    ensures r.Keys == Symbols
    ensures forall s :: s in r ==> r[s] == Entry(num, s)
  {
    map s | s in Symbols :: Entry(num, s)
  }

  /** The kind of each entry is given by the symbol class its key belongs to. */
  lemma EntryKinds<N>(num: Numerics<N>, s: string)
    requires s in Symbols
    ensures Entry(num, s).Constant? <==> s in ConstantSymbols
    ensures Entry(num, s).UnaryOperation? <==> s in UnarySymbols
    ensures Entry(num, s).BinaryOperation? <==> s in BinarySymbols
    ensures Entry(num, s).Equals? <==> s == EqualsSymbol
    ensures Entry(num, s).Reset? <==> s == ResetSymbol
    ensures Entry(num, s).Undo? <==> s == UndoSymbol
  {
  }

  /**
   * Which closure each unary symbol names. This is the same table as the
   * compute halves of `UnaryEntryFor`, written by itself so that the replay
   * can be stated without the catalog; the independent reading of a unary
   * entry is its text, `UnaryText`.
   */
  function UnaryFunction<N>(num: Numerics<N>, s: string): N -> N
    requires s in UnarySymbols
  {
    if s == "√" then num.sqrt
    else if s == "±" then num.negate
    else if s == "cos" then num.cos
    else if s == "sin" then num.sin
    else if s == "tan" then num.tan
    else num.squared
  }

  /**
   * Reference reading of the unary descriptions: a function-call shape named
   * after the symbol ("-" for "±"), except "x²", which is written postfix.
   */
  function UnaryText(s: string, d: string): string
  {
    if s == "x²" then "(" + d + ")²"
    else (if s == "±" then "-" else s) + "(" + d + ")"
  }

  /**
   * Which closure each binary symbol names: the same table as the compute
   * halves of `BinaryEntryFor`; the independent reading of a binary entry is
   * its infix text (`BinaryEntry`).
   */
  function BinaryFunction<N>(num: Numerics<N>, s: string): (N, N) -> N
    requires s in BinarySymbols
  {
    if s == "+" then num.add
    else if s == "-" then num.subtract
    else if s == "÷" then num.divide
    else num.multiply
  }

  /**
   * A unary entry computes the closure `UnaryFunction` lists for it (two
   * copies of one table agreeing) and describes its operand as `UnaryText`.
   */
  lemma UnaryEntry<N>(num: Numerics<N>, s: string, d: string)
    requires s in UnarySymbols
    ensures Entry(num, s).UnaryOperation?
    ensures Entry(num, s).apply == UnaryFunction(num, s)
    ensures Entry(num, s).render(d) == UnaryText(s, d)
  {
    if s == "√" {
      assert "√(" == "√" + "(";
    } else if s == "±" {
    } else if s == "cos" {
      assert "cos(" == "cos" + "(";
    } else if s == "sin" {
      assert "sin(" == "sin" + "(";
    } else if s == "tan" {
      assert "tan(" == "tan" + "(";
    } else {
      assert s == "x²";
    }
  }

  /**
   * A binary entry computes the closure `BinaryFunction` lists for it (two
   * copies of one table agreeing) and describes its operands infix: `a + s + b`.
   */
  lemma BinaryEntry<N>(num: Numerics<N>, s: string, a: string, b: string)
    requires s in BinarySymbols
    ensures Entry(num, s) == BinaryEntryFor(num, s)
    ensures Entry(num, s).BinaryOperation?
    ensures Entry(num, s).combine == BinaryFunction(num, s)
    ensures Entry(num, s).join(a, b) == a + s + b
  {
    if s == "+" {
    } else if s == "-" {
    } else if s == "÷" {
    } else {
      assert s == "*";
    }
  }

  /** The six unary symbols are distinct. */
  lemma UnaryCount()
    ensures |UnarySymbols| == 6
  {
  }

  /** The four binary symbols are distinct. */
  lemma BinaryCount()
    ensures |BinarySymbols| == 4
  {
  }

  /** The unary and binary symbols are ten distinct strings. */
  lemma OperatorCount()
    ensures |UnarySymbols + BinarySymbols| == 10
  {
    UnaryCount();
    BinaryCount();
    assert UnarySymbols * BinarySymbols == {};
  }

  /** The logged symbols are twelve distinct strings. */
  lemma LoggedCount()
    ensures |LoggedSymbols| == 12
  {
    OperatorCount();
    assert LoggedSymbols == {EqualsSymbol, "π"} + (UnarySymbols + BinarySymbols);
    assert {EqualsSymbol, "π"} * (UnarySymbols + BinarySymbols) == {};
  }

  /** Reset and undo are applied when pressed, never logged. */
  lemma ControlNotLogged()
    ensures ResetSymbol !in LoggedSymbols
    ensures UndoSymbol !in LoggedSymbols
  {
  }

  /** With reset and undo, the catalog's symbols are fourteen distinct strings. */
  lemma SymbolCount()
    ensures |Symbols| == 14
  {
    LoggedCount();
    ControlNotLogged();
    assert |LoggedSymbols + {ResetSymbol}| == 13;
  }

  /** The dictionary literal has fourteen distinct keys. */
  lemma CatalogSize<N>(num: Numerics<N>)
    ensures |Catalog(num)| == 14
  {
    SymbolCount();
    assert Catalog(num).Keys == Symbols;
  }

  /** The only constant is π, whose value is `num.pi`. */
  lemma ConstantEntry<N>(num: Numerics<N>, s: string)
    requires s in ConstantSymbols
    ensures Entry(num, s) == Constant(num.pi)
  {
  }
}

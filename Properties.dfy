/**
 * What `evaluate(using:)` shows after one more program entry, the left to
 * right chaining of binary operations without precedence, and how the
 * mutators of the log relate to what is shown.
 */
module EvaluationProperties {
  import opened Wrappers
  import opened Operations
  import opened Program
  import opened Evaluation

  /** A one-entry replay is one `Step`. */
  lemma RunSingle<N>(num: Numerics<N>, using: Option<map<string, N>>, s: State<N>, e: Element<N>)
    ensures Run(num, using, s, [e]) == Step(num, using, s, e)
  {
    FoldSingle(StepOf(num, using), s, e);
    assert StepOf(num, using)(s, e) == Step(num, using, s, e);
  }

  /**
   * Evaluating a log with one more entry: the replay of the log so far,
   * one more `Step`, and the triple read off the final state.
   */
  lemma EvalSnoc<N>(num: Numerics<N>, using: Option<map<string, N>>, p: seq<Element<N>>, e: Element<N>,
                    t: State<N>)
    requires Run(num, using, Initial(), p) == Ok(t)
    ensures Eval(num, p + [e], using) ==
      match Step(num, using, t, e)
      case MissingOperand(symbol) => MissingOperand(symbol)
      case Ok(next) => Ok(Finish(next))
  {
    RunSnoc(num, using, Initial(), p, e);
  }

  /** The empty log shows `0`, nothing pending and no text. */
  lemma EmptyProgram<N>(num: Numerics<N>, using: Option<map<string, N>>)
    ensures Eval(num, [], using) == Ok(Outcome(Some(num.zero), false, ""))
  {
  }

  /**
   * An operand becomes the shown value with its rendering as text; a pending
   * operation stays pending and shows its left operand joined to it.
   */
  lemma OperandShown<N>(num: Numerics<N>, using: Option<map<string, N>>, p: seq<Element<N>>, t: State<N>, v: N)
    requires Run(num, using, Initial(), p) == Ok(t)
    ensures t.pbo.None? ==> Eval(num, p + [Operand(v)], using) == Ok(Outcome(Some(v), false, num.show(v)))
    ensures t.pbo.Some? ==>
      Eval(num, p + [Operand(v)], using) ==
      Ok(Outcome(Some(v), true, t.pbo.value.description(t.pbo.value.firstOperand.desc, num.show(v))))
  {
    EvalSnoc(num, using, p, Operand(v), t);
  }

  /**
   * A variable shows the value `using` binds it to, or `0` when `using` is nil
   * or does not bind it, rendered as text like an operand; a pending
   * operation stays pending and shows its left operand joined to it.
   */
  lemma VariableShown<N>(num: Numerics<N>, using: Option<map<string, N>>, p: seq<Element<N>>, t: State<N>,
                         name: string)
    requires Run(num, using, Initial(), p) == Ok(t)
    ensures Lookup(num, using, name) == if using.Some? && name in using.value then using.value[name] else num.zero
    ensures t.pbo.None? ==>
      Eval(num, p + [Variable(name)], using) ==
      Ok(Outcome(Some(Lookup(num, using, name)), false, num.show(Lookup(num, using, name))))
    ensures t.pbo.Some? ==>
      Eval(num, p + [Variable(name)], using) ==
      Ok(Outcome(Some(Lookup(num, using, name)), true,
                    t.pbo.value.description(t.pbo.value.firstOperand.desc, num.show(Lookup(num, using, name)))))
  {
    EvalSnoc(num, using, p, Variable(name), t);
  }

  /**
   * The constant π replaces the accumulator after any pending operation was
   * resolved; its text is the symbol itself. An operation pending on an
   * empty accumulator takes π as its right operand.
   */
  lemma ConstantShown<N>(num: Numerics<N>, using: Option<map<string, N>>, p: seq<Element<N>>, t: State<N>)
    requires Run(num, using, Initial(), p) == Ok(t)
    ensures ResolvePending(t).pbo.None? ==>
      Eval(num, p + [Operation("π")], using) == Ok(Outcome(Some(num.pi), false, "π"))
    ensures ResolvePending(t).pbo.Some? ==>
      Eval(num, p + [Operation("π")], using) ==
      Ok(Outcome(Some(num.pi), true, t.pbo.value.description(t.pbo.value.firstOperand.desc, "π")))
  {
    EvalSnoc(num, using, p, Operation("π"), t);
  }

  /**
   * A unary operation applies its closure to the accumulator left by
   * resolving any pending operation, shows the result with nothing pending,
   * and wraps the accumulator's text as `UnaryText` says.
   */
  lemma UnaryShown<N>(num: Numerics<N>, using: Option<map<string, N>>, p: seq<Element<N>>, t: State<N>,
                      symbol: string, x: Term<N>)
    requires Run(num, using, Initial(), p) == Ok(t)
    requires symbol in UnarySymbols
    requires ResolvePending(t).accumulator == Some(x)
    ensures Eval(num, p + [Operation(symbol)], using) ==
      Ok(Outcome(Some(UnaryFunction(num, symbol)(x.value)), false, UnaryText(symbol, x.desc)))
  {
    EvalSnoc(num, using, p, Operation(symbol), t);
  }

  /**
   * A unary operation with no accumulator is the force-unwrap trap, and
   * nothing logged after it changes that.
   */
  lemma UnaryTraps<N>(num: Numerics<N>, using: Option<map<string, N>>, p: seq<Element<N>>, t: State<N>,
                      symbol: string, rest: seq<Element<N>>)
    requires Run(num, using, Initial(), p) == Ok(t)
    requires symbol in UnarySymbols
    requires ResolvePending(t).accumulator.None?
    ensures Eval(num, p + [Operation(symbol)] + rest, using) == MissingOperand(symbol)
  {
    RunSnoc(num, using, Initial(), p, Operation(symbol));
    StepTraps(num, using, t, Operation(symbol));
    assert Run(num, using, Initial(), p + [Operation(symbol)]) == MissingOperand(symbol);
    RunTrapExtends(num, using, Initial(), p + [Operation(symbol)], rest);
    EvalTrap(num, p + [Operation(symbol)] + rest, using);
  }

  /**
   * A binary operation with an accumulator makes it the pending left operand:
   * no value is shown, the result is pending and the text ends in the symbol.
   */
  lemma BinaryPending<N>(num: Numerics<N>, using: Option<map<string, N>>, p: seq<Element<N>>, t: State<N>,
                         symbol: string, x: Term<N>)
    requires Run(num, using, Initial(), p) == Ok(t)
    requires symbol in BinarySymbols
    requires ResolvePending(t).accumulator == Some(x)
    ensures Eval(num, p + [Operation(symbol)], using) == Ok(Outcome(None, true, x.desc + symbol))
  {
    EvalSnoc(num, using, p, Operation(symbol), t);
    BinaryEntry(num, symbol, x.desc, "");
    assert x.desc + symbol + "" == x.desc + symbol;
  }

  /** A binary operation with no accumulator is ignored: the display does not change. */
  lemma BinaryIgnored<N>(num: Numerics<N>, using: Option<map<string, N>>, p: seq<Element<N>>, t: State<N>,
                         symbol: string)
    requires p != []
    requires Run(num, using, Initial(), p) == Ok(t)
    requires symbol in BinarySymbols
    requires t.accumulator.None?
    ensures Eval(num, p + [Operation(symbol)], using) == Eval(num, p, using)
  {
    EvalSnoc(num, using, p, Operation(symbol), t);
  }

  /**
   * `=` combines the pending left operand with the accumulator through the
   * pending closures and shows the result with nothing pending.
   */
  lemma EqualsResolves<N>(num: Numerics<N>, using: Option<map<string, N>>, p: seq<Element<N>>, t: State<N>,
                          op: PendingBinaryOperation<N>, y: Term<N>)
    requires Run(num, using, Initial(), p) == Ok(t)
    requires t == State(Some(y), Some(op))
    ensures Eval(num, p + [Operation(EqualsSymbol)], using) ==
      Ok(Outcome(Some(op.operation(op.firstOperand.value, y.value)), false,
                    op.description(op.firstOperand.desc, y.desc)))
  {
    EvalSnoc(num, using, p, Operation(EqualsSymbol), t);
  }

  /** `=` with nothing to resolve (no pending operation, or no accumulator) changes nothing. */
  lemma EqualsWithoutPending<N>(num: Numerics<N>, using: Option<map<string, N>>, p: seq<Element<N>>, t: State<N>)
    requires p != []
    requires Run(num, using, Initial(), p) == Ok(t)
    requires t.pbo.None? || t.accumulator.None?
    ensures Eval(num, p + [Operation(EqualsSymbol)], using) == Eval(num, p, using)
  {
    EvalSnoc(num, using, p, Operation(EqualsSymbol), t);
  }

  /**
   * On the empty log a binary operation or `=` is not ignored: the empty log
   * shows `0`, while the log holding just that operation shows no value.
   */
  lemma OperationOnEmptyLog<N>(num: Numerics<N>, using: Option<map<string, N>>, symbol: string)
    requires symbol in BinarySymbols || symbol == EqualsSymbol
    ensures Eval(num, [Operation(symbol)], using) == Ok(Outcome(None, false, ""))
    ensures Eval(num, [], using) == Ok(Outcome(Some(num.zero), false, ""))
  {
    RunSingle(num, using, Initial(), Operation(symbol));
  }

  /** Pressing `=` twice shows what pressing it once shows. */
  lemma EqualsIdempotent<N>(num: Numerics<N>, using: Option<map<string, N>>, p: seq<Element<N>>, t: State<N>)
    requires Run(num, using, Initial(), p) == Ok(t)
    ensures Eval(num, p + [Operation(EqualsSymbol)] + [Operation(EqualsSymbol)], using) ==
            Eval(num, p + [Operation(EqualsSymbol)], using)
  {
    RunSnoc(num, using, Initial(), p, Operation(EqualsSymbol));
    var once := ResolvePending(t);
    assert Run(num, using, Initial(), p + [Operation(EqualsSymbol)]) == Ok(once);
    EqualsWithoutPending(num, using, p + [Operation(EqualsSymbol)], once);
  }

  /**
   * An operation symbol that is in the catalog never reads the bindings:
   * the fallback of the nested `performOperation` that looks a symbol up as
   * a variable is taken only for symbols outside the catalog, which a
   * well-formed log never holds as operations.
   */
  lemma LoggedOperationsIgnoreBindings<N>(num: Numerics<N>, u: Option<map<string, N>>, w: Option<map<string, N>>,
                                          s: State<N>, symbol: string)
    requires symbol in LoggedSymbols
    ensures Dispatch(num, u, s, symbol) == Dispatch(num, w, s, symbol)
  {
  }

  /** No entry of the log is a variable reference. */
  predicate VariableFree<N>(program: seq<Element<N>>)
  {
    forall i :: 0 <= i < |program| ==> !program[i].Variable?
  }

  /** An operand, or an operation a well-formed log may hold, steps alike under any bindings. */
  lemma StepIgnoresBindings<N>(num: Numerics<N>, u: Option<map<string, N>>, w: Option<map<string, N>>,
                               s: State<N>, e: Element<N>)
    requires !e.Variable? && (e.Operation? ==> e.symbol in LoggedSymbols)
    ensures Step(num, u, s, e) == Step(num, w, s, e)
  {
    if e.Operation? {
      LoggedOperationsIgnoreBindings(num, u, w, ResolvePending(s), e.symbol);
    }
  }

  /** Dropping the first entry keeps a log well-formed and free of variables. */
  lemma TailKeepsShape<N>(program: seq<Element<N>>)
    requires program != [] && WellFormed(program) && VariableFree(program)
    ensures WellFormed(program[1..]) && VariableFree(program[1..])
  {
    var rest := program[1..];
    assert forall i :: 0 <= i < |rest| ==> rest[i] == program[i + 1];
  }

  /** A well-formed log without variables replays alike under any bindings. */
  lemma {:induction false} RunIgnoresBindings<N>(num: Numerics<N>, u: Option<map<string, N>>,
                                                 w: Option<map<string, N>>, s: State<N>, program: seq<Element<N>>)
    requires WellFormed(program) && VariableFree(program)
    ensures Run(num, u, s, program) == Run(num, w, s, program)
    decreases |program|
  {
    if program != [] {
      StepIgnoresBindings(num, u, w, s, program[0]);
      TailKeepsShape(program);
      match Step(num, u, s, program[0])
      case MissingOperand(_) =>
      case Ok(next) => RunIgnoresBindings(num, u, w, next, program[1..]);
    }
  }

  /** So `evaluate` of such a log does not depend on `using`. */
  lemma EvalIgnoresBindings<N>(num: Numerics<N>, u: Option<map<string, N>>, w: Option<map<string, N>>,
                               program: seq<Element<N>>)
    requires WellFormed(program) && VariableFree(program)
    ensures Eval(num, program, u) == Eval(num, program, w)
  {
    RunIgnoresBindings(num, u, w, Initial(), program);
  }

  /** A binary operator pressed, followed by its right operand. */
  datatype Press<N> = Press(symbol: string, operand: N)

  predicate AllBinary<N>(steps: seq<Press<N>>)
  {
    forall i :: 0 <= i < |steps| ==> steps[i].symbol in BinarySymbols
  }

  /** The log of `x0 op1 x1 op2 x2 …`. */
  function Chain<N>(x0: N, steps: seq<Press<N>>): (r: seq<Element<N>>)
    ensures |r| == 1 + 2 * |steps|
  {
    if steps == [] then [Operand(x0)]
    else
      var last := steps[|steps| - 1];
      Chain(x0, steps[..|steps| - 1]) + [Operation(last.symbol), Operand(last.operand)]
  }

  /** Strictly left to right, with no precedence: `((x0 op1 x1) op2 x2) …`. */
  function ChainValue<N>(num: Numerics<N>, x0: N, steps: seq<Press<N>>): N
    requires AllBinary(steps)
  {
    if steps == [] then x0
    else
      var last := steps[|steps| - 1];
      BinaryFunction(num, last.symbol)(ChainValue(num, x0, steps[..|steps| - 1]), last.operand)
  }

  /** The infix text `x0 op1 x1 op2 x2 …`, without brackets. */
  function ChainText<N>(num: Numerics<N>, x0: N, steps: seq<Press<N>>): string
  {
    if steps == [] then num.show(x0)
    else
      var last := steps[|steps| - 1];
      ChainText(num, x0, steps[..|steps| - 1]) + last.symbol + num.show(last.operand)
  }

  /** Replaying two entries is two steps. */
  lemma RunPair<N>(num: Numerics<N>, using: Option<map<string, N>>, s: State<N>, a: Element<N>, b: Element<N>)
    ensures Run(num, using, s, [a, b]) ==
      match Step(num, using, s, a)
      case MissingOperand(symbol) => MissingOperand(symbol)
      case Ok(t) => Step(num, using, t, b)
  {
    assert [a, b] == [a] + [b];
    RunSnoc(num, using, s, [a], b);
    RunSingle(num, using, s, a);
  }

  /**
   * After a chain the replay has not trapped; once the pending operation is
   * resolved the accumulator is the chain's value and text. With at least
   * one operator the last operand is the accumulator and an operation is
   * still pending.
   */
  lemma {:induction false} ChainRun<N>(num: Numerics<N>, using: Option<map<string, N>>, x0: N,
                                       steps: seq<Press<N>>)
    requires AllBinary(steps)
    ensures Run(num, using, Initial(), Chain(x0, steps)).Ok?
    ensures ResolvePending(Run(num, using, Initial(), Chain(x0, steps)).value) ==
      State(Some(Term(ChainValue(num, x0, steps), ChainText(num, x0, steps))), None)
    ensures steps != [] ==>
      Run(num, using, Initial(), Chain(x0, steps)).value.accumulator ==
        Some(Literal(num, steps[|steps| - 1].operand)) &&
      Run(num, using, Initial(), Chain(x0, steps)).value.pbo.Some?
    decreases |steps|
  {
    if steps == [] {
      RunSingle(num, using, Initial(), Operand(x0));
    } else {
      var prefix := steps[..|steps| - 1];
      var last := steps[|steps| - 1];
      assert AllBinary(prefix) by {
        assert forall i :: 0 <= i < |prefix| ==> prefix[i] == steps[i];
      }
      ChainRun(num, using, x0, prefix);
      var before := Run(num, using, Initial(), Chain(x0, prefix)).value;
      var left := Term(ChainValue(num, x0, prefix), ChainText(num, x0, prefix));
      RunAppend(num, using, Initial(), Chain(x0, prefix), [Operation(last.symbol), Operand(last.operand)]);
      ChainStep(num, using, before, left, last.symbol, last.operand);
    }
  }

  /**
   * One more link of a chain: from an accumulator `left` with nothing left to
   * resolve, an operator and an operand leave the operand as accumulator
   * and `left op operand` pending.
   */
  lemma ChainStep<N>(num: Numerics<N>, using: Option<map<string, N>>, before: State<N>, left: Term<N>,
                     symbol: string, operand: N)
    requires ResolvePending(before) == State(Some(left), None)
    requires symbol in BinarySymbols
    ensures Run(num, using, before, [Operation(symbol), Operand(operand)]) ==
      Ok(State(Some(Literal(num, operand)),
               Some(PendingBinaryOperation(left, BinaryEntryFor(num, symbol).combine, BinaryEntryFor(num, symbol).join))))
    ensures BinaryEntryFor(num, symbol).combine == BinaryFunction(num, symbol)
    ensures BinaryEntryFor(num, symbol).join(left.desc, num.show(operand)) == left.desc + symbol + num.show(operand)
  {
    RunPair(num, using, before, Operation(symbol), Operand(operand));
    BinaryEntry(num, symbol, left.desc, num.show(operand));
  }

  /** `x0 op1 x1 … =` shows the left-to-right value and the infix text, nothing pending. */
  lemma ChainEquals<N>(num: Numerics<N>, using: Option<map<string, N>>, x0: N, steps: seq<Press<N>>)
    requires AllBinary(steps)
    ensures Eval(num, Chain(x0, steps) + [Operation(EqualsSymbol)], using) ==
      Ok(Outcome(Some(ChainValue(num, x0, steps)), false, ChainText(num, x0, steps)))
  {
    ChainRun(num, using, x0, steps);
    var t := Run(num, using, Initial(), Chain(x0, steps)).value;
    EvalSnoc(num, using, Chain(x0, steps), Operation(EqualsSymbol), t);
  }

  /**
   * `x0 op1 x1 … opn xn` without `=` shows the last operand as the value,
   * reports a pending result, and shows the whole infix text.
   */
  lemma ChainPending<N>(num: Numerics<N>, using: Option<map<string, N>>, x0: N, steps: seq<Press<N>>)
    requires AllBinary(steps) && steps != []
    ensures Eval(num, Chain(x0, steps), using) ==
      Ok(Outcome(Some(steps[|steps| - 1].operand), true, ChainText(num, x0, steps)))
  {
    ChainRun(num, using, x0, steps);
  }

  /** `a + b =` shows the sum and the text `a+b`. */
  lemma AddThenEquals<N>(num: Numerics<N>, using: Option<map<string, N>>, a: N, b: N)
    ensures Eval(num, [Operand(a), Operation("+"), Operand(b), Operation(EqualsSymbol)], using) ==
      Ok(Outcome(Some(num.add(a, b)), false, num.show(a) + "+" + num.show(b)))
  {
    var steps := [Press("+", b)];
    assert steps[..0] == [];
    assert Chain(a, steps) == [Operand(a), Operation("+"), Operand(b)];
    assert Chain(a, steps) + [Operation(EqualsSymbol)] ==
      [Operand(a), Operation("+"), Operand(b), Operation(EqualsSymbol)];
    assert ChainValue(num, a, steps) == num.add(a, b);
    assert ChainText(num, a, steps) == num.show(a) + "+" + num.show(b);
    ChainEquals(num, using, a, steps);
  }

  /** `a + b` without `=` shows `b`, pending, with the text `a+b`. */
  lemma AddPending<N>(num: Numerics<N>, using: Option<map<string, N>>, a: N, b: N)
    ensures Eval(num, [Operand(a), Operation("+"), Operand(b)], using) ==
      Ok(Outcome(Some(b), true, num.show(a) + "+" + num.show(b)))
  {
    var steps := [Press("+", b)];
    assert steps[..0] == [];
    assert Chain(a, steps) == [Operand(a), Operation("+"), Operand(b)];
    ChainPending(num, using, a, steps);
  }

  /** `a +` leaves no accumulator and `a+` pending. */
  lemma AddPressed<N>(num: Numerics<N>, using: Option<map<string, N>>, a: N)
    ensures Run(num, using, Initial(), [Operand(a), Operation("+")]) ==
      Ok(State(None, Some(PendingBinaryOperation(Literal(num, a), BinaryEntryFor(num, "+").combine,
                                                 BinaryEntryFor(num, "+").join))))
  {
    RunPair(num, using, Initial(), Operand(a), Operation("+"));
  }

  /**
   * `a +` followed by a unary operation traps, whatever follows: the binary
   * press emptied the accumulator.
   */
  lemma UnaryAfterBinaryTraps<N>(num: Numerics<N>, using: Option<map<string, N>>, a: N, symbol: string,
                                 rest: seq<Element<N>>)
    requires symbol in UnarySymbols
    ensures Eval(num, [Operand(a), Operation("+"), Operation(symbol)] + rest, using) == MissingOperand(symbol)
  {
    var p := [Operand(a), Operation("+")];
    AddPressed(num, using, a);
    assert p + [Operation(symbol)] == [Operand(a), Operation("+"), Operation(symbol)];
    UnaryTraps(num, using, p, Run(num, using, Initial(), p).value, symbol, rest);
  }

  /** After reset the display is the empty one. */
  lemma ResetShowsZero<N>(num: Numerics<N>, st: Store<N>, using: Option<map<string, N>>)
    ensures Eval(num, Perform(st, ResetSymbol).program, using) == Ok(Outcome(Some(num.zero), false, ""))
  {
  }

  /** Undo right after a logged press restores what is shown. */
  lemma UndoRestoresDisplay<N>(num: Numerics<N>, st: Store<N>, symbol: string, using: Option<map<string, N>>)
    requires symbol != ResetSymbol && symbol != UndoSymbol
    ensures Eval(num, Perform(Perform(st, symbol), UndoSymbol).program, using) == Eval(num, st.program, using)
  {
    UndoCancelsPress(st, symbol);
  }

  /** Presses without reset or undo, undone one by one, restore what is shown. */
  lemma UndoAllRestoresDisplay<N>(num: Numerics<N>, st: Store<N>, symbols: seq<string>, using: Option<map<string, N>>)
    requires forall i :: 0 <= i < |symbols| ==> symbols[i] != ResetSymbol && symbols[i] != UndoSymbol
    ensures Eval(num, PerformAll(st, symbols + Undos(|symbols|)).program, using) == Eval(num, st.program, using)
  {
    PressesThenUndos(st, symbols);
  }

  /** Presses, numbers and variable references without reset or undo, undone one by one, restore what is shown. */
  lemma UndoInputsRestoresDisplay<N>(num: Numerics<N>, st: Store<N>, inputs: seq<Input<N>>,
                                     using: Option<map<string, N>>)
    requires forall i :: 0 <= i < |inputs| ==> inputs[i] != Key(ResetSymbol) && inputs[i] != Key(UndoSymbol)
    ensures Eval(num, EnterAll(st, inputs + Repeat(Key(UndoSymbol), |inputs|)).program, using) ==
            Eval(num, st.program, using)
  {
    InputsThenUndos(st, inputs);
  }
}

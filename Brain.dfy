/**
 * The engine object `CalculatorBrain`: the program and the variable bindings
 * are fields that the mutators update in place, and `Evaluate` replays the
 * program with a loop over it, as the source does.
 */
module Brain {
  import opened Wrappers
  import opened Operations
  import opened Program
  import opened Evaluation

  class CalculatorBrain<N> {
    /** The numeric environment the catalog is built from. */
    const num: Numerics<N>
    /** The variable bindings, written directly by the user interface. */
    var variables: map<string, N>
    /** The instruction log. */
    var program: seq<Element<N>>

    /** The object invariant: the log holds no reset, no undo and no unknown operation. */
    ghost predicate Valid()
      reads this
    {
      WellFormed(program)
    }

    /** A fresh engine: empty program, no variables. */
    constructor (num: Numerics<N>)
      ensures Valid()
      ensures this.num == num && program == [] && variables == map[]
    {
      this.num := num;
      variables := map[];
      program := [];
    }

    /**
     * `performOperation(symbol)`: looks the symbol up in the catalog and
     * switches on the entry; the new stores are `Perform` of the old ones.
     */
    method PerformOperation(symbol: string)
      requires Valid()
      modifies this
      ensures Valid()
      ensures Store(program, variables) == Perform(Store(old(program), old(variables)), symbol)
    {
      if symbol in Catalog(num) {
        EntryKinds(num, symbol);
        match Catalog(num)[symbol] {
          case Reset =>
            Clear();
          case Undo =>
            DropLast();
          case _ =>
            LogOperation(symbol);
        }
      } else {
        SetVariableOperand(symbol);
      }
    }

    /** The reset arm: both stores emptied. */
    method Clear()
      modifies this
      ensures Valid()
      ensures program == [] && variables == map[]
    {
      program := [];
      variables := map[];
    }

    /** The undo arm: the last entry, if any, removed. */
    method DropLast()
      requires Valid()
      modifies this
      ensures Valid()
      ensures variables == old(variables)
      ensures program == if |old(program)| > 0 then old(program)[..|old(program)| - 1] else old(program)
    {
      if |program| > 0 {
        DropLastKeepsWellFormed(program);
        program := program[..|program| - 1];
      }
    }

    /** The default arm: a logged catalog symbol appended as an operation. */
    method LogOperation(symbol: string)
      requires Valid()
      requires symbol in LoggedSymbols
      modifies this
      ensures Valid()
      ensures program == old(program) + [Operation(symbol)] && variables == old(variables)
    {
      AppendKeepsWellFormed(program, Operation(symbol));
      program := program + [Operation(symbol)];
    }

    /** `setOperand(_:)`: log a number. */
    method SetOperand(operand: N)
      requires Valid()
      modifies this
      ensures Valid()
      ensures program == old(program) + [Operand(operand)] && variables == old(variables)
      ensures Store(program, variables) == Enter(Store(old(program), old(variables)), Number(operand))
    {
      AppendKeepsWellFormed(program, Operand(operand));
      program := program + [Operand(operand)];
    }

    /** `setOperand(variable:)`: log a reference to a variable. */
    method SetVariableOperand(named: string)
      requires Valid()
      modifies this
      ensures Valid()
      ensures program == old(program) + [Variable(named)] && variables == old(variables)
      ensures Store(program, variables) == Enter(Store(old(program), old(variables)), Name(named))
    {
      AppendKeepsWellFormed(program, Variable(named));
      program := program + [Variable(named)];
    }

    /** `variables[name] = value`: the user interface binds a variable. */
    method BindVariable(name: string, value: N)
      requires Valid()
      modifies this
      ensures Valid()
      ensures variables == old(variables)[name := value] && program == old(program)
    {
      variables := variables[name := value];
    }

    /**
     * The nested `performPendingBinaryOperation` of `evaluate`: when an
     * operation is pending and there is an accumulator, the accumulator
     * becomes the combined value and nothing is pending any more.
     */
    method PerformPendingBinaryOperation(accumulator: Option<Term<N>>, pbo: Option<PendingBinaryOperation<N>>)
      returns (accumulator': Option<Term<N>>, pbo': Option<PendingBinaryOperation<N>>)
      ensures State(accumulator', pbo') == ResolvePending(State(accumulator, pbo))
    {
      accumulator', pbo' := accumulator, pbo;
      if pbo'.Some? && accumulator'.Some? {
        accumulator' := Some(pbo'.value.Perform(accumulator'.value));
        pbo' := None;
      }
    }

    /**
     * The nested `performOperation(symbol)` of `evaluate`, on the two locals.
     * `ok` is false exactly where the source traps on `accumulator!`; the new
     * locals are those of `Dispatch`.
     */
    method ReplayOperation(using: Option<map<string, N>>, symbol: string,
                           accumulator: Option<Term<N>>, pbo: Option<PendingBinaryOperation<N>>)
      returns (ok: bool, accumulator': Option<Term<N>>, pbo': Option<PendingBinaryOperation<N>>)
      ensures ok <==> Dispatch(num, using, State(accumulator, pbo), symbol).Ok?
      ensures ok ==> Dispatch(num, using, State(accumulator, pbo), symbol) == Ok(State(accumulator', pbo'))
      ensures !ok ==> Dispatch(num, using, State(accumulator, pbo), symbol) == MissingOperand(symbol)
    {
      ok, accumulator', pbo' := true, accumulator, pbo;
      ghost var s := State(accumulator, pbo);
      if symbol in Catalog(num) {
        match Catalog(num)[symbol] {
          case Constant(value) =>
            DispatchConstantEntry(num, using, s, symbol);
            accumulator' := Some(Term(value, symbol));
          case UnaryOperation(fn, description) =>
            DispatchUnaryEntry(num, using, s, symbol);
            if accumulator'.None? {
              ok := false;
            } else {
              accumulator' := Some(Term(fn(accumulator'.value.value), description(accumulator'.value.desc)));
            }
          case BinaryOperation(fn, descriptionFunction) =>
            DispatchBinaryEntry(num, using, s, symbol);
            if accumulator'.Some? {
              pbo' := Some(PendingBinaryOperation(accumulator'.value, fn, descriptionFunction));
              accumulator' := None;
            }
          case Equals =>
            DispatchControlEntry(num, using, s, symbol);
            accumulator', pbo' := PerformPendingBinaryOperation(accumulator', pbo');
          case _ =>
            DispatchControlEntry(num, using, s, symbol);
        }
      } else {
        // a variable name inside the log; unreachable for a valid program
        DispatchUnknown(num, using, s, symbol);
        var value := if using.Some? && symbol in using.value then using.value[symbol] else num.zero;
        accumulator' := Some(Term(value, num.show(value)));
      }
    }

    /**
     * One pass of the replay loop: the `switch` on one program entry. An
     * operand or a variable sets the accumulator to the value and its
     * rendering; an operation first resolves any pending operation and then
     * dispatches. `ok` is false exactly where the source traps.
     */
    method ReplayEntry(using: Option<map<string, N>>, item: Element<N>,
                       accumulator: Option<Term<N>>, pbo: Option<PendingBinaryOperation<N>>)
      returns (ok: bool, accumulator': Option<Term<N>>, pbo': Option<PendingBinaryOperation<N>>)
      ensures ok <==> Step(num, using, State(accumulator, pbo), item).Ok?
      ensures ok ==> Step(num, using, State(accumulator, pbo), item) == Ok(State(accumulator', pbo'))
      ensures !ok ==> item.Operation? && Step(num, using, State(accumulator, pbo), item) == MissingOperand(item.symbol)
    {
      ok, accumulator', pbo' := true, accumulator, pbo;
      match item {
        case Operand(value) =>
          accumulator' := Some(Term(value, num.show(value)));
        case Variable(named) =>
          var value := if using.Some? && named in using.value then using.value[named] else num.zero;
          accumulator' := Some(Term(value, num.show(value)));
        case Operation(symbol) =>
          accumulator', pbo' := PerformPendingBinaryOperation(accumulator', pbo');
          ok, accumulator', pbo' := ReplayOperation(using, symbol, accumulator', pbo');
      }
    }

    /**
     * `evaluate(using:)`: replays the program with a loop over it, changing
     * nothing. The result is exactly the fold `Eval`; in particular the stored
     * `variables` are not consulted, only `using`.
     */
    method Evaluate(using: Option<map<string, N>>) returns (r: Result<Outcome<N>>)
      ensures r == Eval(num, program, using)
    {
      if |program| == 0 {
        return Ok(Outcome(Some(num.zero), false, ""));
      }
      var accumulator: Option<Term<N>> := None;
      var pbo: Option<PendingBinaryOperation<N>> := None;
      var i := 0;
      while i < |program|
        invariant 0 <= i <= |program|
        invariant Run(num, using, Initial(), program[..i]) == Ok(State(accumulator, pbo))
      {
        RunPrefix(num, using, Initial(), program, i);
        var ok;
        ok, accumulator, pbo := ReplayEntry(using, program[i], accumulator, pbo);
        if !ok {
          RunPrefixTrap(num, using, Initial(), program, i + 1);
          EvalTrap(num, program, using);
          return MissingOperand(program[i].symbol);
        }
        i := i + 1;
      }
      assert program[..i] == program;
      EvalFinish(num, program, using, State(accumulator, pbo));
      var current := if accumulator.Some? then accumulator.value.desc else "";
      var description :=
        if pbo.Some? then pbo.value.description(pbo.value.firstOperand.desc, current) else current;
      r := Ok(Outcome(if accumulator.Some? then Some(accumulator.value.value) else None,
                         pbo.Some?, description));
      assert r == Ok(Finish(State(accumulator, pbo)));
    }
  }
}

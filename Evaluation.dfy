/**
 * `evaluate(using:)`: the replay of the instruction log. The source runs a
 * `for` loop over the program that updates two locals, the accumulator and
 * the pending binary operation; here one loop iteration is `Step` and the
 * loop is the left-to-right fold `Run`. The loop itself is the method
 * `CalculatorBrain.Evaluate` in Brain.dfy, proved equal to `Eval`.
 */
module Evaluation {
  import opened Wrappers
  import opened Operations
  import opened Program

  /** A value with the text that describes it: the source's `(Double, String)` pair. */
  datatype Term<N> = Term(value: N, desc: string)

  /** A binary operator waiting for its right operand. */
  datatype PendingBinaryOperation<!N> = PendingBinaryOperation(
    firstOperand: Term<N>,
    operation: (N, N) -> N,
    description: (string, string) -> string)
  {
    function Perform(secondOperand: Term<N>): Term<N>
    {
      Term(operation(firstOperand.value, secondOperand.value),
           description(firstOperand.desc, secondOperand.desc))
    }
  }

  /** The two locals of the replay loop. */
  datatype State<!N> = State(
    accumulator: Option<Term<N>>,
    pbo: Option<PendingBinaryOperation<N>>)

  /** Both locals start out nil. */
  function Initial<N>(): State<N>
  {
    State(None, None)
  }

  /**
   * The outcome of a replay. `MissingOperand(symbol)` is the trap of the
   * force-unwrap `accumulator!` when the unary operation `symbol` is applied
   * with no accumulator.
   */
  datatype Result<T> = Ok(value: T) | MissingOperand(symbol: string)

  /** What `evaluate` returns: `(result, isPending, description)`. */
  datatype Outcome<N> = Outcome(result: Option<N>, isPending: bool, description: string)

  /** The accumulator an operand sets: the value with its rendering. */
  function Literal<N>(num: Numerics<N>, v: N): Term<N>
  {
    Term(v, num.show(v))
  }

  /** `using?[name] ?? 0.0`: only the argument of `evaluate` is consulted. */
  function Lookup<N>(num: Numerics<N>, using: Option<map<string, N>>, name: string): N
  {
    if using.Some? && name in using.value then using.value[name] else num.zero
  }

  /**
   * `performPendingBinaryOperation`: combine the pending operation with the
   * accumulator when both are present. Afterwards the two are never both set,
   * and with nothing pending nothing changes.
   */
  function ResolvePending<N>(s: State<N>): (r: State<N>)
    ensures !(r.pbo.Some? && r.accumulator.Some?)
    ensures s.pbo.None? ==> r == s
    ensures r.pbo.Some? ==> r == s
  {
    if s.pbo.Some? && s.accumulator.Some? then
      State(Some(s.pbo.value.Perform(s.accumulator.value)), None)
    else
      s
  }

  /**
   * What the nested `performOperation(symbol)` does to the two locals, by the
   * class of the symbol (`EntryKinds` ties each class to
   * its kind of catalog entry). The constant sets
   * the accumulator to its value, with the symbol as its text. A unary
   * operation applies its closure to the accumulator and wraps the text as
   * `UnaryText` says; with no accumulator it is the force-unwrap trap. A
   * binary operation moves the accumulator into a new pending operation
   * carrying the catalog's closures, and is ignored with no accumulator.
   * `=` resolves the pending operation; reset and undo do nothing here.
   * A symbol outside the catalog is looked up in `using` like a variable.
   */
  function Dispatch<N>(num: Numerics<N>, using: Option<map<string, N>>, s: State<N>, symbol: string)
    : Result<State<N>>
  {
    if symbol in ConstantSymbols then
      Ok(s.(accumulator := Some(Term(num.pi, symbol))))
    else if symbol in UnarySymbols then
      match s.accumulator
      case None => MissingOperand(symbol)
      case Some(x) => Ok(s.(accumulator := Some(Term(UnaryFunction(num, symbol)(x.value), UnaryText(symbol, x.desc)))))
    else if symbol in BinarySymbols then
      match s.accumulator
      case None => Ok(s)
      case Some(x) =>
        Ok(State(None, Some(PendingBinaryOperation(x, BinaryEntryFor(num, symbol).combine,
                                                   BinaryEntryFor(num, symbol).join))))
    else if symbol == EqualsSymbol then
      Ok(ResolvePending(s))
    else if symbol == ResetSymbol || symbol == UndoSymbol then
      Ok(s)
    else
      Ok(s.(accumulator := Some(Literal(num, Lookup(num, using, symbol)))))
  }

  /** `Dispatch` on a constant does what its catalog entry says. */
  lemma DispatchConstantEntry<N>(num: Numerics<N>, using: Option<map<string, N>>, s: State<N>, symbol: string)
    requires symbol in Symbols && Entry(num, symbol).Constant?
    ensures Dispatch(num, using, s, symbol) == Ok(s.(accumulator := Some(Term(Entry(num, symbol).value, symbol))))
  {
    EntryKinds(num, symbol);
    ConstantEntry(num, symbol);
  }

  /** `Dispatch` on a unary operation applies the closures of its catalog entry. */
  lemma DispatchUnaryEntry<N>(num: Numerics<N>, using: Option<map<string, N>>, s: State<N>, symbol: string)
    requires symbol in Symbols && Entry(num, symbol).UnaryOperation?
    ensures s.accumulator.Some? ==>
      Dispatch(num, using, s, symbol) ==
      Ok(s.(accumulator := Some(Term(Entry(num, symbol).apply(s.accumulator.value.value),
                                     Entry(num, symbol).render(s.accumulator.value.desc)))))
    ensures s.accumulator.None? ==> Dispatch(num, using, s, symbol) == MissingOperand(symbol)
  {
    EntryKinds(num, symbol);
    if s.accumulator.Some? {
      UnaryEntry(num, symbol, s.accumulator.value.desc);
    }
  }

  /** `Dispatch` on a binary operation keeps the closures of its catalog entry pending. */
  lemma DispatchBinaryEntry<N>(num: Numerics<N>, using: Option<map<string, N>>, s: State<N>, symbol: string)
    requires symbol in Symbols && Entry(num, symbol).BinaryOperation?
    ensures s.accumulator.Some? ==>
      Dispatch(num, using, s, symbol) ==
      Ok(State(None, Some(PendingBinaryOperation(s.accumulator.value, Entry(num, symbol).combine,
                                                 Entry(num, symbol).join))))
    ensures s.accumulator.None? ==> Dispatch(num, using, s, symbol) == Ok(s)
  {
    EntryKinds(num, symbol);
    BinaryEntry(num, symbol, "", "");
  }

  /** A symbol outside the catalog is looked up in `using`, like a variable. */
  lemma DispatchUnknown<N>(num: Numerics<N>, using: Option<map<string, N>>, s: State<N>, symbol: string)
    requires symbol !in Symbols
    ensures Dispatch(num, using, s, symbol) == Ok(s.(accumulator := Some(Literal(num, Lookup(num, using, symbol)))))
  {
  }

  /** `Dispatch` on `=`, reset or undo does what its catalog entry says. */
  lemma DispatchControlEntry<N>(num: Numerics<N>, using: Option<map<string, N>>, s: State<N>, symbol: string)
    requires symbol in Symbols
    requires Entry(num, symbol).Equals? || Entry(num, symbol).Reset? || Entry(num, symbol).Undo?
    ensures Entry(num, symbol).Equals? ==> Dispatch(num, using, s, symbol) == Ok(ResolvePending(s))
    ensures !Entry(num, symbol).Equals? ==> Dispatch(num, using, s, symbol) == Ok(s)
  {
    EntryKinds(num, symbol);
  }

  /** One iteration of the replay loop on one program entry. */
  function Step<N>(num: Numerics<N>, using: Option<map<string, N>>, s: State<N>, e: Element<N>)
    : Result<State<N>>
  {
    match e
    case Operand(v) => Ok(s.(accumulator := Some(Literal(num, v))))
    case Variable(name) => Ok(s.(accumulator := Some(Literal(num, Lookup(num, using, name)))))
    case Operation(symbol) => Dispatch(num, using, ResolvePending(s), symbol)
  }

  /**
   * A step fails exactly on a unary operation that finds no accumulator
   * once any pending operation is resolved; the failure names it.
   */
  lemma StepTraps<N>(num: Numerics<N>, using: Option<map<string, N>>, s: State<N>, e: Element<N>)
    ensures Step(num, using, s, e).MissingOperand? <==>
      e.Operation? && e.symbol in UnarySymbols && ResolvePending(s).accumulator.None?
    ensures Step(num, using, s, e).MissingOperand? ==> e == Operation(Step(num, using, s, e).symbol)
  {
  }

  /** A loop over `items` that applies `step` to each in turn and stops at the first trap. */
  function Fold<S, E>(step: (S, E) -> Result<S>, s: S, items: seq<E>): Result<S>
    decreases |items|
  {
    if items == [] then
      Ok(s)
    else
      match step(s, items[0])
      case MissingOperand(symbol) => MissingOperand(symbol)
      case Ok(next) => Fold(step, next, items[1..])
  }

  /** `Step` under fixed numerics and bindings, as a closure for `Fold`. */
  function StepOf<N>(num: Numerics<N>, using: Option<map<string, N>>): (State<N>, Element<N>) -> Result<State<N>>
  {
    (s: State<N>, e: Element<N>) => Step(num, using, s, e)
  }

  /**
   * The replay loop from state `s` over `program`, left to right; a trap
   * ends it (`RunTrapOccurs` says which).
   */
  function Run<N>(num: Numerics<N>, using: Option<map<string, N>>, s: State<N>, program: seq<Element<N>>)
    : Result<State<N>>
  {
    Fold(StepOf(num, using), s, program)
  }

  /**
   * The text `evaluate` reports: while an operation is pending, its describe
   * closure applied to the left operand's text and the accumulator's text (or
   * "" when there is none); otherwise the accumulator's text, or "".
   */
  function Describe<N>(s: State<N>): string
  {
    var current := if s.accumulator.Some? then s.accumulator.value.desc else "";
    if s.pbo.Some? then s.pbo.value.description(s.pbo.value.firstOperand.desc, current)
    else current
  }

  /** The triple built from the final state of the loop. */
  function Finish<N>(s: State<N>): Outcome<N>
  {
    Outcome(
      if s.accumulator.Some? then Some(s.accumulator.value.value) else None,
      s.pbo.Some?,
      Describe(s))
  }

  /**
   * `evaluate(using:)`: the empty program gives `(0, false, "")` without
   * replaying; otherwise the final state of the replay, or the trap
   * (`EvalTrapOccurs` says which).
   */
  function Eval<N>(num: Numerics<N>, program: seq<Element<N>>, using: Option<map<string, N>>)
    : Result<Outcome<N>>
  {
    if program == [] then
      Ok(Outcome(Some(num.zero), false, ""))
    else
      match Run(num, using, Initial(), program)
      case MissingOperand(symbol) => MissingOperand(symbol)
      case Ok(s) => Ok(Finish(s))
  }

  /** A non-empty program that replays without a trap shows the triple of its final state. */
  lemma EvalFinish<N>(num: Numerics<N>, program: seq<Element<N>>, using: Option<map<string, N>>, t: State<N>)
    requires program != [] && Run(num, using, Initial(), program) == Ok(t)
    ensures Eval(num, program, using) == Ok(Finish(t))
  {
  }

  /** A program whose replay traps evaluates to that trap. */
  lemma EvalTrap<N>(num: Numerics<N>, program: seq<Element<N>>, using: Option<map<string, N>>)
    requires Run(num, using, Initial(), program).MissingOperand?
    ensures Eval(num, program, using) == MissingOperand(Run(num, using, Initial(), program).symbol)
  {
    assert program != [];
  }

  /** Looping over `p + q` is looping over `p` and then, if it did not trap, over `q`. */
  lemma {:induction false} FoldAppend<S, E>(step: (S, E) -> Result<S>, s: S, p: seq<E>, q: seq<E>)
    ensures Fold(step, s, p + q) ==
      match Fold(step, s, p)
      case MissingOperand(symbol) => MissingOperand(symbol)
      case Ok(t) => Fold(step, t, q)
    decreases |p|
  {
    if p == [] {
      assert p + q == q;
    } else {
      assert (p + q)[0] == p[0];
      assert (p + q)[1..] == p[1..] + q;
      match step(s, p[0])
      case MissingOperand(_) =>
      case Ok(next) => FoldAppend(step, next, p[1..], q);
    }
  }

  /** A loop over one item is one step. */
  lemma FoldSingle<S, E>(step: (S, E) -> Result<S>, s: S, e: E)
    ensures Fold(step, s, [e]) == step(s, e)
  {
    assert [e][1..] == [];
  }

  /** Once the loop traps, further items do not matter. */
  lemma {:induction false} FoldTrapExtends<S, E>(step: (S, E) -> Result<S>, s: S, p: seq<E>, q: seq<E>)
    requires Fold(step, s, p).MissingOperand?
    ensures Fold(step, s, p + q) == Fold(step, s, p)
    decreases |p|
  {
    assert p != [];
    assert (p + q)[0] == p[0];
    assert (p + q)[1..] == p[1..] + q;
    match step(s, p[0])
    case MissingOperand(_) =>
    case Ok(next) => FoldTrapExtends(step, next, p[1..], q);
  }

  /** Replaying `p + q` is replaying `p` and then, if it did not trap, `q`. */
  lemma RunAppend<N>(num: Numerics<N>, using: Option<map<string, N>>, s: State<N>,
                     p: seq<Element<N>>, q: seq<Element<N>>)
    ensures Run(num, using, s, p + q) ==
      match Run(num, using, s, p)
      case MissingOperand(symbol) => MissingOperand(symbol)
      case Ok(t) => Run(num, using, t, q)
  {
    FoldAppend(StepOf(num, using), s, p, q);
  }

  /** Replaying one more entry is one more `Step`. */
  lemma RunSnoc<N>(num: Numerics<N>, using: Option<map<string, N>>, s: State<N>,
                   p: seq<Element<N>>, e: Element<N>)
    ensures Run(num, using, s, p + [e]) ==
      match Run(num, using, s, p)
      case MissingOperand(symbol) => MissingOperand(symbol)
      case Ok(t) => Step(num, using, t, e)
  {
    RunAppend(num, using, s, p, [e]);
    match Run(num, using, s, p)
    case MissingOperand(_) =>
    case Ok(t) =>
      FoldSingle(StepOf(num, using), t, e);
      assert StepOf(num, using)(t, e) == Step(num, using, t, e);
  }

  /** The replay of the first `i + 1` entries is that of the first `i` and one more `Step`. */
  lemma RunPrefix<N>(num: Numerics<N>, using: Option<map<string, N>>, s: State<N>,
                     program: seq<Element<N>>, i: nat)
    requires i < |program|
    ensures Run(num, using, s, program[..i + 1]) ==
      match Run(num, using, s, program[..i])
      case MissingOperand(symbol) => MissingOperand(symbol)
      case Ok(t) => Step(num, using, t, program[i])
  {
    assert program[..i + 1] == program[..i] + [program[i]];
    RunSnoc(num, using, s, program[..i], program[i]);
  }

  /** Once the replay traps, further entries do not matter. */
  lemma RunTrapExtends<N>(num: Numerics<N>, using: Option<map<string, N>>, s: State<N>,
                          p: seq<Element<N>>, q: seq<Element<N>>)
    requires Run(num, using, s, p).MissingOperand?
    ensures Run(num, using, s, p + q) == Run(num, using, s, p)
  {
    FoldTrapExtends(StepOf(num, using), s, p, q);
  }

  /** A trap in a prefix is the trap of the whole replay. */
  lemma RunPrefixTrap<N>(num: Numerics<N>, using: Option<map<string, N>>, s: State<N>,
                         program: seq<Element<N>>, i: nat)
    requires i <= |program|
    requires Run(num, using, s, program[..i]).MissingOperand?
    ensures Run(num, using, s, program) == Run(num, using, s, program[..i])
  {
    SplitAt(program, i);
    RunTrapExtends(num, using, s, program[..i], program[i..]);
  }

  /** A sequence is its prefix followed by its suffix. */
  lemma SplitAt<T>(s: seq<T>, i: nat)
    requires i <= |s|
    ensures s[..i] + s[i..] == s
  {
  }

  /** A trap of the replay is raised by a unary operation that occurs in the replayed entries. */
  lemma {:induction false} RunTrapOccurs<N>(num: Numerics<N>, using: Option<map<string, N>>, s: State<N>,
                                            program: seq<Element<N>>)
    requires Run(num, using, s, program).MissingOperand?
    ensures Run(num, using, s, program).symbol in UnarySymbols
    ensures Operation(Run(num, using, s, program).symbol) in program
    decreases |program|
  {
    assert program != [];
    StepTraps(num, using, s, program[0]);
    match Step(num, using, s, program[0])
    case MissingOperand(_) =>
      assert program[0] == Operation(Run(num, using, s, program).symbol);
    case Ok(next) =>
      RunTrapOccurs(num, using, next, program[1..]);
      assert Operation(Run(num, using, s, program).symbol) in program[1..];
  }

  /** A trap of `evaluate` is raised by a unary operation of the program. */
  lemma EvalTrapOccurs<N>(num: Numerics<N>, program: seq<Element<N>>, using: Option<map<string, N>>)
    requires Eval(num, program, using).MissingOperand?
    ensures Eval(num, program, using).symbol in UnarySymbols
    ensures Operation(Eval(num, program, using).symbol) in program
  {
    RunTrapOccurs(num, using, Initial(), program);
  }
}

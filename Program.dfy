/**
 * The instruction log of the calculator engine and the way the mutators
 * change it, as functions on values. The class in Brain.dfy performs the same
 * changes in place, dispatching on the catalog as the source does, and is
 * proved to agree with `Perform`.
 */
module Program {
  import opened Operations

  /** One recorded input: the source's `Element` enum. */
  datatype Element<N> =
    | Operation(symbol: string)
    | Operand(value: N)
    | Variable(name: string)

  /** The engine's two stores: the program and the variable bindings. */
  datatype Store<N> = Store(program: seq<Element<N>>, variables: map<string, N>)

  /**
   * The log invariant: every recorded operation is a catalog symbol other
   * than reset and undo, which are applied when pressed and never logged.
   */
  predicate WellFormed<N>(program: seq<Element<N>>)
  {
    forall i :: 0 <= i < |program| && program[i].Operation? ==> program[i].symbol in LoggedSymbols
  }

  /**
   * The entry a press of `symbol` records, when it records one: an operation
   * for a catalog symbol, a variable reference for any other string.
   */
  function Recorded<N>(symbol: string): (e: Element<N>)
    ensures symbol != ResetSymbol && symbol != UndoSymbol && e.Operation? ==> e.symbol in LoggedSymbols
  {
    if symbol in Symbols then Operation(symbol) else Variable(symbol)
  }

  /**
   * What `performOperation(symbol)` does to the stores, by the kind of
   * symbol: reset clears the program and the variables, undo drops the last
   * entry of a non-empty program, and any other press appends exactly one
   * entry, `Recorded(symbol)`, keeping the earlier entries and the variables.
   */
  function Perform<N>(st: Store<N>, symbol: string): Store<N>
  {
    if symbol == ResetSymbol then Store([], map[])
    else if symbol == UndoSymbol then
      if |st.program| > 0 then st.(program := st.program[..|st.program| - 1]) else st
    else st.(program := st.program + [Recorded(symbol)])
  }

  /**
   * Every operation of a well-formed log is a key of the catalog, so the
   * replay never takes its fallback of reading an operation as a variable.
   */
  lemma WellFormedInCatalog<N>(num: Numerics<N>, program: seq<Element<N>>)
    requires WellFormed(program)
    ensures forall i :: 0 <= i < |program| && program[i].Operation? ==> program[i].symbol in Catalog(num)
  {
  }

  /** Appending a logged operation or any operand keeps the log invariant. */
  lemma AppendKeepsWellFormed<N>(p: seq<Element<N>>, e: Element<N>)
    requires WellFormed(p)
    requires e.Operation? ==> e.symbol in LoggedSymbols
    ensures WellFormed(p + [e])
  {
    var q := p + [e];
    forall i | 0 <= i < |q| && q[i].Operation?
      ensures q[i].symbol in LoggedSymbols
    {
      if i < |p| {
        assert q[i] == p[i];
      }
    }
  }

  /** Dropping the last entry keeps the log invariant. */
  lemma DropLastKeepsWellFormed<N>(p: seq<Element<N>>)
    requires WellFormed(p) && |p| > 0
    ensures WellFormed(p[..|p| - 1])
  {
    var q := p[..|p| - 1];
    assert forall i :: 0 <= i < |q| ==> q[i] == p[i];
  }

  /** Every press keeps the log invariant. */
  lemma PerformKeepsWellFormed<N>(st: Store<N>, symbol: string)
    requires WellFormed(st.program)
    ensures WellFormed(Perform(st, symbol).program)
  {
    if symbol == UndoSymbol && |st.program| > 0 {
      DropLastKeepsWellFormed(st.program);
    } else if symbol != ResetSymbol && symbol != UndoSymbol {
      AppendKeepsWellFormed(st.program, Recorded<N>(symbol));
    }
  }

  /** A sequence of inputs, each applied by `press`, left to right. */
  function Replay<S, E>(press: (S, E) -> S, st: S, inputs: seq<E>): S
    decreases |inputs|
  {
    if inputs == [] then st else Replay(press, press(st, inputs[0]), inputs[1..])
  }

  /** Entering `a` and then `b` is entering `a + b`. */
  lemma {:induction false} ReplayConcat<S, E>(press: (S, E) -> S, st: S, a: seq<E>, b: seq<E>)
    ensures Replay(press, st, a + b) == Replay(press, Replay(press, st, a), b)
    decreases |a|
  {
    if a != [] {
      assert (a + b)[0] == a[0];
      assert (a + b)[1..] == a[1..] + b;
      ReplayConcat(press, press(st, a[0]), a[1..], b);
    } else {
      assert a + b == b;
    }
  }

  /** A single input. */
  lemma ReplaySingle<S, E>(press: (S, E) -> S, st: S, input: E)
    ensures Replay(press, st, [input]) == press(st, input)
  {
    assert [input][1..] == [];
  }

  /** `n` copies of one input. */
  function Repeat<E>(input: E, n: nat): (r: seq<E>)
    ensures |r| == n
    ensures forall i :: 0 <= i < n ==> r[i] == input
  {
    seq(n, _ => input)
  }

  /** `n` presses of undo. */
  function Undos(n: nat): (r: seq<string>)
    ensures |r| == n
  {
    Repeat(UndoSymbol, n)
  }

  /** Inputs followed by as many undos: the first input, the rest nested inside, the last undo. */
  lemma RepeatSplit<E>(inputs: seq<E>, undo: E)
    requires inputs != []
    ensures inputs + Repeat(undo, |inputs|) ==
      [inputs[0]] + ((inputs[1..] + Repeat(undo, |inputs| - 1)) + [undo])
  {
    var n := |inputs| - 1;
    assert Repeat(undo, n + 1) == Repeat(undo, n) + [undo];
  }

  /** Inputs that `undo` cancels, followed by as many undos, restore the state they started from. */
  lemma {:induction false} ReplayThenUndos<S, E>(press: (S, E) -> S, undo: E, st: S, inputs: seq<E>)
    requires forall i, s :: 0 <= i < |inputs| ==> press(press(s, inputs[i]), undo) == s
    ensures Replay(press, st, inputs + Repeat(undo, |inputs|)) == st
    decreases |inputs|
  {
    if inputs == [] {
      assert inputs + Repeat(undo, 0) == [];
    } else {
      var inner := inputs[1..] + Repeat(undo, |inputs| - 1);
      RepeatSplit(inputs, undo);
      ReplayConcat(press, st, [inputs[0]], inner + [undo]);
      ReplaySingle(press, st, inputs[0]);
      var first := press(st, inputs[0]);
      ReplayConcat(press, first, inner, [undo]);
      assert forall i :: 0 <= i < |inputs[1..]| ==> inputs[1..][i] == inputs[i + 1];
      ReplayThenUndos(press, undo, first, inputs[1..]);
      ReplaySingle(press, first, undo);
      assert press(press(st, inputs[0]), undo) == st;
    }
  }

  /** `Perform` as a closure for `Replay`. */
  function PressOf<N>(): (Store<N>, string) -> Store<N>
  {
    (st: Store<N>, symbol: string) => Perform(st, symbol)
  }

  /** A sequence of button presses on the engine, applied left to right. */
  function PerformAll<N>(st: Store<N>, symbols: seq<string>): Store<N>
  {
    Replay(PressOf(), st, symbols)
  }

  /** Undo right after a logged press restores both stores exactly. */
  lemma UndoCancelsPress<N>(st: Store<N>, symbol: string)
    requires symbol != ResetSymbol && symbol != UndoSymbol
    ensures Perform(Perform(st, symbol), UndoSymbol) == st
  {
    var p := Perform(st, symbol);
    assert p.program[..|p.program| - 1] == st.program;
  }

  /**
   * Any run of presses without reset or undo, followed by as many undos,
   * gives back the stores it started from.
   */
  lemma PressesThenUndos<N>(st: Store<N>, symbols: seq<string>)
    requires forall i :: 0 <= i < |symbols| ==> symbols[i] != ResetSymbol && symbols[i] != UndoSymbol
    ensures PerformAll(st, symbols + Undos(|symbols|)) == st
  {
    forall i, s: Store<N> | 0 <= i < |symbols|
      ensures PressOf()(PressOf()(s, symbols[i]), UndoSymbol) == s
    {
      UndoCancelsPress(s, symbols[i]);
    }
    ReplayThenUndos(PressOf(), UndoSymbol, st, symbols);
  }

  /**
   * One input to the engine: a button press (`performOperation`), a number
   * (`setOperand(_:)`) or a variable reference (`setOperand(variable:)`).
   */
  datatype Input<N> = Key(symbol: string) | Number(value: N) | Name(named: string)

  /** What an input does to the stores: a press is `Perform`, the other two append one entry. */
  function Enter<N>(st: Store<N>, input: Input<N>): Store<N>
  {
    match input
    case Key(symbol) => Perform(st, symbol)
    case Number(v) => st.(program := st.program + [Operand(v)])
    case Name(named) => st.(program := st.program + [Variable(named)])
  }

  /** `Enter` as a closure for `Replay`. */
  function EnterOf<N>(): (Store<N>, Input<N>) -> Store<N>
  {
    (st: Store<N>, input: Input<N>) => Enter(st, input)
  }

  /** A sequence of inputs to the engine, applied left to right. */
  function EnterAll<N>(st: Store<N>, inputs: seq<Input<N>>): Store<N>
  {
    Replay(EnterOf(), st, inputs)
  }

  /** Undo right after any input other than reset or undo restores both stores exactly. */
  lemma UndoCancelsInput<N>(st: Store<N>, input: Input<N>)
    requires input != Key(ResetSymbol) && input != Key(UndoSymbol)
    ensures Enter(Enter(st, input), Key(UndoSymbol)) == st
  {
    match input
    case Key(symbol) => UndoCancelsPress(st, symbol);
    case Number(v) =>
      var p := Enter(st, input);
      assert p.program[..|p.program| - 1] == st.program;
    case Name(named) =>
      var p := Enter(st, input);
      assert p.program[..|p.program| - 1] == st.program;
  }

  /**
   * Any run of presses, numbers and variable references without reset or
   * undo, followed by as many undos, gives back the stores it started from.
   */
  lemma InputsThenUndos<N>(st: Store<N>, inputs: seq<Input<N>>)
    requires forall i :: 0 <= i < |inputs| ==> inputs[i] != Key(ResetSymbol) && inputs[i] != Key(UndoSymbol)
    ensures EnterAll(st, inputs + Repeat(Key(UndoSymbol), |inputs|)) == st
  {
    forall i, s: Store<N> | 0 <= i < |inputs|
      ensures EnterOf()(EnterOf()(s, inputs[i]), Key(UndoSymbol)) == s
    {
      UndoCancelsInput(s, inputs[i]);
    }
    ReplayThenUndos(EnterOf(), Key(UndoSymbol), st, inputs);
  }
}

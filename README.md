# CalculatorBrain in Dafny

A model of the evaluation engine of an iOS calculator, `CalculatorBrain`
(`calculator/CalculatorBrain.swift`). The engine keeps three things:

- an instruction log (`internalProgram`), whose entries are operands, variable references and operation symbols;
- a dictionary of variable bindings;
- a static catalog that maps button symbols to what they do: a constant, a unary or binary operation (each with a compute closure and a describe closure), equals, reset or undo.

`evaluate(using:)` replays the log left to right. As it goes it keeps an optional accumulator `(value, text)` and an optional pending binary operation. It returns `(result, isPending, description)`.

The numeric domain is a type parameter `N`. `Operations.Numerics` bundles the constants `0.0` and `π`, the arithmetic and trigonometric closures, and the rendering `"\(x)"` of a number as text, all uninterpreted. Everything structural is exact:
- which operand ends up where;
- the pending flag;
- every description string;
- the contents of the log.

Modules, by file:

- `Operations.dfy`: the `Operation` enum (`OperationSpec`), the catalog (`Catalog`, `Entry`) and its describe closures. It also gives reference readings of the symbols by class (`UnaryFunction`, `UnaryText`, `BinaryFunction`), proved equal to the catalog's entries.
- `Program.dfy`: the `Element` enum and the log invariant `WellFormed`. The reference function `Perform` gives what a button press does to the two stores, and `Enter` extends it to numbers and variable references. `Replay`, `PerformAll` and `EnterAll` apply a run of inputs.
- `Evaluation.dfy`: the nested helpers of `evaluate`. These are `PendingBinaryOperation.Perform`, `ResolvePending` (`performPendingBinaryOperation`) and `Dispatch` (the nested `performOperation`). One loop iteration is `Step`, the loop is the fold `Run`, and `Eval` is the whole of `evaluate`. The force-unwrap `accumulator!` on a unary operation with no accumulator is the error outcome `MissingOperand(symbol)`.
- `Brain.dfy`: the class `CalculatorBrain`. Its fields `program` and `variables` are updated in place by the mutators. `PerformOperation` is proved to agree with `Perform`, and the two `setOperand` overloads with `Enter`. `BindVariable` is the direct assignment to the public dictionary. `Evaluate` is the source's `for` loop over the log, written over the two locals and proved equal to `Eval`. It has no `modifies` clause, so it changes nothing.
- `Properties.dfy`: what is shown after each kind of entry, the left-to-right chaining of binary operators without precedence, independence from the bindings, and how reset and undo relate to what is shown.

Behaviour of the code worth noting:
- `evaluate(using:)` names its argument `variables`, which shadows the stored dictionary. The stored bindings are never consulted; a missing key, or a nil argument, reads as `0.0`.
- `5 + 3` without `=` shows the value `3` (the accumulator), not the sum. The result is pending, and the text is the two renderings joined by `+`.
- The multiply key is `"*"`.
- A variable's text is the rendering of its value, not its name.
- The empty log evaluates to the value `0`. A non-empty log shows `accumulator?.0`, so a log holding only `+` or `=` shows no value.

## Model

| member | source | states |
|---|---|---|
| Operations.Catalog | calculator/CalculatorBrain.swift:40-55 | definition of the `operations` dictionary literal, built from `Entry`, `UnaryEntryFor`, `BinaryEntryFor` and the describe closures `SqrtText` … `TimesText`; its properties are in `CatalogSize`, `EntryKinds`, `UnaryEntry`, `BinaryEntry` and `ConstantEntry` |
| Operations.CatalogSize | calculator/CalculatorBrain.swift:40-55 | the dictionary literal has fourteen distinct keys |
| Operations.SymbolCount | calculator/CalculatorBrain.swift:41-54 | the fourteen button symbols are distinct strings |
| Operations.ControlNotLogged | calculator/CalculatorBrain.swift:74-85 | reset and undo are not among the symbols that a press records in the log |
| Operations.EntryKinds | calculator/CalculatorBrain.swift:40-55 | an entry is a constant, unary, binary, equals, reset or undo exactly when its key is π, one of the six unary symbols, one of `+ - ÷ *`, `=`, `C` or `←` |
| Operations.UnaryEntry | calculator/CalculatorBrain.swift:43-48 | each unary entry computes the closure its symbol names (`x²` computes `squared`, `±` computes `negate`) and describes an operand as `s(d)`, except `±` as `-(d)` and `x²` as `(d)²` |
| Operations.BinaryEntry | calculator/CalculatorBrain.swift:49-52 | each binary entry computes the closure its symbol names and describes its operands infix, `a` then the symbol then `b` |
| Operations.ConstantEntry | calculator/CalculatorBrain.swift:42 | the only constant is π with the value `Double.pi` |
| Program.WellFormed | calculator/CalculatorBrain.swift:71-98 | definition of the log invariant: every operation entry is a catalog symbol other than reset and undo; kept by every mutator (`PerformKeepsWellFormed`, the `ensures Valid()` of the class) and used by `WellFormedInCatalog` and `EvaluationProperties.RunIgnoresBindings` |
| Program.WellFormedInCatalog | calculator/CalculatorBrain.swift:147-150 | every operation of a well-formed log is a catalog key, so the replay never reads a logged operation as a variable |
| Program.PerformKeepsWellFormed | calculator/CalculatorBrain.swift:71-90 | every press keeps the log free of reset, undo and non-catalog operations |
| Program.UndoCancelsPress | calculator/CalculatorBrain.swift:78-89 | undo right after any press other than reset or undo gives back exactly the log and the bindings from before the press |
| Program.PressesThenUndos | calculator/CalculatorBrain.swift:78-89 | any run of presses without reset or undo, followed by as many undos, gives back both stores |
| Program.ReplayConcat | calculator/CalculatorBrain.swift:71-98 | entering `a` and then `b` is entering `a + b` |
| Program.Perform | calculator/CalculatorBrain.swift:71-90 | definition of a button press on the two stores, by the class of the symbol; its properties are in `PerformKeepsWellFormed`, `UndoCancelsPress` and `PressesThenUndos`, and `Brain.CalculatorBrain.PerformOperation` is proved equal to it |
| Program.Recorded | calculator/CalculatorBrain.swift:83-88 | the entry a press other than reset or undo records: an operation for a catalog symbol, which is then a logged symbol, and a variable reference for any other string |
| Program.Enter | calculator/CalculatorBrain.swift:71-98 | definition of one input on the two stores: a press is `Perform`, a number or a variable reference appends one entry; the setters are proved equal to it, and `UndoCancelsInput` and `InputsThenUndos` carry its properties |
| Program.UndoCancelsInput | calculator/CalculatorBrain.swift:78-98 | undo right after a press other than reset or undo, a number or a variable reference gives back both stores exactly |
| Program.InputsThenUndos | calculator/CalculatorBrain.swift:78-98 | any run of presses other than reset and undo, numbers and variable references, followed by as many undos, gives back both stores |
| Brain.CalculatorBrain.constructor | calculator/CalculatorBrain.swift:12-13 | a new engine has an empty log, no bindings, and satisfies the log invariant |
| Brain.CalculatorBrain.PerformOperation | calculator/CalculatorBrain.swift:71-90 | the catalog switch keeps the log invariant, and the new log and bindings are `Perform` of the old ones: reset empties both, undo drops the last entry if there is one, another catalog symbol is appended as an operation, and any other string is appended as a variable |
| Brain.CalculatorBrain.Clear | calculator/CalculatorBrain.swift:74-77 | both stores are empty afterwards |
| Brain.CalculatorBrain.DropLast | calculator/CalculatorBrain.swift:78-82 | the last entry of a non-empty log is removed and nothing else changes; an empty log stays empty |
| Brain.CalculatorBrain.LogOperation | calculator/CalculatorBrain.swift:83-85 | the symbol is appended as one operation entry, earlier entries and the bindings unchanged, invariant kept |
| Brain.CalculatorBrain.SetOperand | calculator/CalculatorBrain.swift:92-94 | exactly one operand entry is appended, earlier entries and the bindings unchanged, as `Enter` of a number says |
| Brain.CalculatorBrain.SetVariableOperand | calculator/CalculatorBrain.swift:96-98 | exactly one variable entry is appended, earlier entries and the bindings unchanged, as `Enter` of a variable reference says |
| Brain.CalculatorBrain.BindVariable | calculator/CalculatorBrain.swift:12 | assigning to the public `variables` dictionary updates one binding and leaves the log alone |
| Brain.CalculatorBrain.PerformPendingBinaryOperation | calculator/CalculatorBrain.swift:119-124 | the two locals afterwards are those of `ResolvePending` |
| Brain.CalculatorBrain.ReplayOperation | calculator/CalculatorBrain.swift:126-151 | the catalog switch on the two locals succeeds exactly when `Dispatch` does and then gives its state; otherwise it is the trap of the pressed unary symbol |
| Brain.CalculatorBrain.ReplayEntry | calculator/CalculatorBrain.swift:169-182 | one pass of the loop body agrees with `Step`, and a trap happens only on an operation entry and names its symbol |
| Brain.CalculatorBrain.Evaluate | calculator/CalculatorBrain.swift:100-186 | the loop over the log returns exactly `Eval` of the log under `using`, including the trap, and changes no field |
| Evaluation.PendingBinaryOperation.Perform | calculator/CalculatorBrain.swift:35-37 | definition: the pending closures applied to the left operand and the given right operand, value and text alike; used by `ResolvePending` and stated by `EvaluationProperties.EqualsResolves` |
| Evaluation.Literal | calculator/CalculatorBrain.swift:153-155 | definition of the accumulator an operand sets, its value with its rendering; stated by `EvaluationProperties.OperandShown` |
| Evaluation.Lookup | calculator/CalculatorBrain.swift:157-163 | definition of `using?[name] ?? 0.0`, also used at line 148; stated by `EvaluationProperties.VariableShown` and `Evaluation.DispatchUnknown` |
| Evaluation.ResolvePending | calculator/CalculatorBrain.swift:119-124 | afterwards a pending operation and an accumulator are never both present; with nothing pending, or with something still pending, the state is the one before |
| Evaluation.Dispatch | calculator/CalculatorBrain.swift:126-151 | definition of the nested `performOperation` by the class of the symbol; `Brain.CalculatorBrain.ReplayOperation` is proved equal to it, and the `Dispatch…Entry` lemmas below tie each class to its catalog entry |
| Evaluation.DispatchConstantEntry | calculator/CalculatorBrain.swift:129-131 | a constant entry sets the accumulator to its value, with the symbol as text, and keeps the pending operation |
| Evaluation.DispatchUnaryEntry | calculator/CalculatorBrain.swift:132-134 | a unary entry maps the accumulator's value and text through its two closures; with no accumulator it is the trap naming the symbol |
| Evaluation.DispatchBinaryEntry | calculator/CalculatorBrain.swift:135-140 | a binary entry with an accumulator makes it the left operand of a new pending operation that carries the entry's closures and empties the accumulator; without one it changes nothing |
| Evaluation.DispatchControlEntry | calculator/CalculatorBrain.swift:141-146 | `=` resolves the pending operation; reset and undo leave the locals as they are |
| Evaluation.DispatchUnknown | calculator/CalculatorBrain.swift:147-150 | a symbol outside the catalog sets the accumulator to its binding in `using`, or `0.0`, with the rendering as text |
| Evaluation.Step | calculator/CalculatorBrain.swift:170-181 | definition of one pass of the loop body; `Brain.CalculatorBrain.ReplayEntry` is proved equal to it, and `StepTraps` says when it traps |
| Evaluation.StepTraps | calculator/CalculatorBrain.swift:133 | one step traps exactly on a unary operation that still finds no accumulator once any pending operation is resolved, and the trap names that operation |
| Evaluation.Run | calculator/CalculatorBrain.swift:169-182 | definition of the loop as a left-to-right fold that stops at the first trap; the invariant of `Brain.CalculatorBrain.Evaluate`, with `RunAppend`, `RunTrapExtends` and `RunTrapOccurs` as its properties |
| Evaluation.RunAppend | calculator/CalculatorBrain.swift:169-182 | replaying `p + q` is replaying `p` and then, unless it trapped, `q` from where `p` ended |
| Evaluation.RunTrapExtends | calculator/CalculatorBrain.swift:133 | once the replay traps, entries after it do not matter |
| Evaluation.RunTrapOccurs | calculator/CalculatorBrain.swift:133 | a trap of the replay names a unary symbol that occurs as an operation in the replayed log |
| Evaluation.EvalTrapOccurs | calculator/CalculatorBrain.swift:133 | a trap of `evaluate` names a unary symbol that occurs as an operation in the program |
| Evaluation.Describe | calculator/CalculatorBrain.swift:109-117 | definition of the reported text; stated by `EvaluationProperties.OperandShown`, `BinaryPending`, `ChainPending` and `AddPending` |
| Evaluation.Finish | calculator/CalculatorBrain.swift:184 | definition of the returned triple, built from the final state; stated by `Evaluation.EvalFinish` |
| Evaluation.Eval | calculator/CalculatorBrain.swift:100-186 | definition of the whole of `evaluate`; `Brain.CalculatorBrain.Evaluate` is proved equal to it, and the lemmas of `EvaluationProperties` state what it shows |
| Evaluation.EvalFinish | calculator/CalculatorBrain.swift:184 | a non-empty program that replays without a trap returns the accumulator's value, whether an operation is pending, and the description of the final state |
| EvaluationProperties.EvalSnoc | calculator/CalculatorBrain.swift:169-184 | evaluating a log with one more entry is one more `Step` on its replay, then the triple of the new state |
| EvaluationProperties.EmptyProgram | calculator/CalculatorBrain.swift:166-167 | the empty log shows `0`, nothing pending and the empty text |
| EvaluationProperties.OperandShown | calculator/CalculatorBrain.swift:153-155 | an operand is shown as the value with its rendering; if an operation is pending it stays pending and the text is the left operand joined to the rendering |
| EvaluationProperties.VariableShown | calculator/CalculatorBrain.swift:157-164 | after any log, a variable shows its binding in `using`, or `0.0` when `using` is nil or lacks the name, with that value's rendering as text; if an operation is pending it stays pending and the text is the left operand joined to the rendering |
| EvaluationProperties.ConstantShown | calculator/CalculatorBrain.swift:129-131 | π shows `Double.pi` with the text "π"; an operation still pending on an empty accumulator takes "π" as its right text |
| EvaluationProperties.UnaryShown | calculator/CalculatorBrain.swift:132-134 | a unary operation shows its closure applied to the accumulator left once the pending operation is resolved, nothing pending, with the text wrapped as the symbol says |
| EvaluationProperties.UnaryTraps | calculator/CalculatorBrain.swift:133 | a unary operation with no accumulator traps, whatever is logged after it |
| EvaluationProperties.BinaryPending | calculator/CalculatorBrain.swift:135-140 | a binary operation with an accumulator shows no value, a pending result, and the accumulator's text followed by the symbol |
| EvaluationProperties.BinaryIgnored | calculator/CalculatorBrain.swift:135-140 | on a non-empty log, a binary operation with no accumulator leaves what is shown unchanged |
| EvaluationProperties.EqualsResolves | calculator/CalculatorBrain.swift:141-143 | `=` shows the pending closure applied to the left operand and the accumulator, nothing pending, and their texts joined by the pending describe closure |
| EvaluationProperties.EqualsWithoutPending | calculator/CalculatorBrain.swift:120 | on a non-empty log, `=` with no pending operation, or with no accumulator, changes nothing shown |
| EvaluationProperties.OperationOnEmptyLog | calculator/CalculatorBrain.swift:166-184 | on the empty log a binary operation or `=` does change what is shown: `0` becomes no value, still with nothing pending and no text |
| EvaluationProperties.EqualsIdempotent | calculator/CalculatorBrain.swift:119-124 | pressing `=` twice shows what pressing it once shows |
| EvaluationProperties.LoggedOperationsIgnoreBindings | calculator/CalculatorBrain.swift:126-146 | the nested `performOperation` on a logged catalog symbol does not depend on `using` |
| EvaluationProperties.StepIgnoresBindings | calculator/CalculatorBrain.swift:170-180 | an operand, or an operation a well-formed log may hold, steps alike under any bindings |
| EvaluationProperties.RunIgnoresBindings | calculator/CalculatorBrain.swift:169-182 | a well-formed log without variable entries replays alike under any bindings |
| EvaluationProperties.EvalIgnoresBindings | calculator/CalculatorBrain.swift:100-186 | `evaluate` of a well-formed log without variable entries does not depend on `using` |
| EvaluationProperties.ChainRun | calculator/CalculatorBrain.swift:169-182 | after `x0 op1 x1 … opn xn` the replay has not trapped, the last operand is the accumulator with an operation pending, and resolving it gives the strictly left-to-right value and the unbracketed infix text |
| EvaluationProperties.ChainStep | calculator/CalculatorBrain.swift:135-140 | from a resolved accumulator, an operator and an operand leave the operand as accumulator and `left op operand` pending, joined infix |
| EvaluationProperties.ChainEquals | calculator/CalculatorBrain.swift:178-184 | `x0 op1 x1 … =` shows `((x0 op1 x1) op2 x2) …` with no precedence, nothing pending, and the infix text |
| EvaluationProperties.ChainPending | calculator/CalculatorBrain.swift:104-117 | without `=` a chain shows its last operand, a pending result, and the whole infix text |
| EvaluationProperties.AddThenEquals | calculator/CalculatorBrain.swift:178-184 | `a + b =` shows `a + b` and the text `show(a)+show(b)` joined by "+", nothing pending |
| EvaluationProperties.AddPending | calculator/CalculatorBrain.swift:104-117 | `a + b` without `=` shows `b`, pending, with the text of `a`, "+" and `b` |
| EvaluationProperties.AddPressed | calculator/CalculatorBrain.swift:135-140 | `a +` leaves no accumulator and `a` pending with the addition's closures |
| EvaluationProperties.UnaryAfterBinaryTraps | calculator/CalculatorBrain.swift:133-139 | `a +` followed by a unary operation traps whatever follows, because the binary press emptied the accumulator |
| EvaluationProperties.ResetShowsZero | calculator/CalculatorBrain.swift:74-77 | after reset the engine shows `0`, nothing pending and no text |
| EvaluationProperties.UndoRestoresDisplay | calculator/CalculatorBrain.swift:78-82 | undo right after any press other than reset or undo restores what is shown |
| EvaluationProperties.UndoAllRestoresDisplay | calculator/CalculatorBrain.swift:78-82 | presses without reset or undo, undone one by one, restore what is shown |
| EvaluationProperties.UndoInputsRestoresDisplay | calculator/CalculatorBrain.swift:78-98 | presses without reset or undo, numbers and variable references, undone one by one, restore what is shown |

## Left out

- `calculator/ViewController.swift` is not part of this model: it is user-interface plumbing over the engine (outlets, display editing, number parsing).
- No floating-point meaning is modelled. `Double`, `sqrt`, `cos`, `sin`, `tan`, `pow(_, 2)`, `+`, `-`, `/` and `*` are the uninterpreted closures of `Numerics`, so overflow, NaN and division by zero are not modelled.
- The text of Swift's `"\(x)"` rendering of a `Double` is the uninterpreted `show`.
- Strings: symbols and variable names are compared as sequences of code units. Swift compares `String`s, and so dictionary keys, by Unicode canonical equivalence (lines 148 and 158, and the assignment to `variables`). Two canonically equivalent spellings of one name are therefore one variable in the source and two here, in `Evaluation.Lookup` and `Brain.CalculatorBrain.BindVariable`. The catalog's own keys have no second equivalent spelling, so the catalog lookup is unaffected.
- The deprecated `result` and `description` properties (lines 57-69) always return nil and are not modelled.
- The trap of the force-unwrap `accumulator!` (line 133) is modelled as the result `MissingOperand(symbol)`, not as a process crash.
- Catalog lookup in the specifications: the mutator `PerformOperation` is specified through the reference function `Perform`, which classifies a symbol with the catalog's key sets instead of looking it up. The method itself switches on the catalog entry as the source does, and its `ensures` ties the two together.
- The same holds for the nested `performOperation`. `Dispatch` reads a symbol by class, and `Brain.CalculatorBrain.ReplayOperation` switches on the catalog entry and is proved to agree with it.
- Value semantics: the source's `struct` value semantics (copy on assignment) are not modelled. The engine is one object with fields updated in place.

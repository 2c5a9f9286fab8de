# A verified model of a small Forth interpreter

The model covers four pieces of a small Forth system written in C++.

- **`ForthVM`** is the word-dispatch engine. It has five pieces of state:
  - an operand stack of `int`;
  - a stack of skip flags for `IF`/`ELSE`/`THEN`;
  - a table of user-defined words;
  - a definition-mode flag;
  - a pending word name.

  `run` splits a line at whitespace and dispatches each token in a fixed
  order: definition capture, builtin, number, user word, then "Unknown word".
  A user word is run by feeding each of its stored tokens back through `run`.
- **`ForthInterpreter`** is the earlier engine. It has only an operand stack
  and a seven-word table (`+ - * / DUP DROP SWAP`), and it tests for a number
  before it looks in the table.
- **`Tokenizer`** is a cursor over one line, with a FIFO of tokens already
  peeked.
- **`FSM::Engine`** is a transition table kept as a nested map (state name to
  event name to `State`), with `add`, `start`/`stop` and `can`/`cannot`.

The files split the work as follows.

- **Shared pieces**
  - `lexer.dfy`: the whitespace split, the numeric test, and the `std::stoi` digit-prefix parse.
  - `arith.dfy`: 32-bit `int` arithmetic with C++ truncating `/` and `%`. An undefined result yields no value.
  - `stack_ops.dfy`: `dup`, `drop`, `swap` and `binaryOperator`.
  - `events.dfy`: the output log and how a run ends.
- **`ForthVM`**
  - `vm_semantics.dfy`: the engine's meaning, as functions on a `Machine` value.
  - `vm_properties.dfy`: what those functions promise.
  - `virtual_machine.dfy`: the class `ForthVM`. Every method has an `ensures` saying its new fields equal the matching semantics function applied to the old ones.
- **The other three pieces**
  - `interpreter.dfy`: `ForthInterpreter`.
  - `agreement.dfy`: how `ForthInterpreter` relates to `ForthVM`.
  - `tokenizer.dfy`: `Tokenizer`.
  - `fsm.dfy`: `FSM::Engine`.

Writes to `std::cout` and `std::cerr` are appended to an output log (`out`).
Two things are written to it:
- `Printed(v)` for the value `.` prints;
- `Reported(e)` for an error message.

Some runs leave the behaviour C++ defines. These stop with a `Status` other
than `Normal`, and the state stays as it was before the offending word:
- signed overflow, a zero divisor, and `INT_MIN / -1` or `INT_MIN % -1` give `UndefinedBehaviour`;
- a number `std::stoi` cannot hold gives `OutOfRange`;
- `NEGATE` and `NOT` give `Unmodelled`;
- running out of the nesting bound on user-word invocations gives `DepthExhausted`.

Only the innermost skip flag is tested (src/forth_vm.cc:178-181), so an
`IF` inside a skipped branch can turn execution back on.
`VMProperties.NestedIfInSkippedBranch` and `VMProperties.NestedIfExample`
show this.

## Model

| member | source | states |
|---|---|---|
| Lexer.Tokens | src/forth_vm.cc:73-76 | every token `>>` extracts from a line is non-empty and holds no whitespace |
| Lexer.TokensOfJoin | src/forth_vm.cc:73-76 | splitting words written with single blanks between them gives back exactly those words |
| Lexer.TokensOfWord | src/forth_vm.cc:172-174 | a stored token, run again as a line of its own, splits into that one token |
| Lexer.IsNumber | src/forth_vm.cc:135-149 | the numeric test; a token that passes is non-empty and always leaves `std::stoi` at least one digit after the optional sign |
| Lexer.ParseNumber | src/forth_vm.cc:86 | `std::stoi` on a numeric token: never positive after a leading `-`, never negative otherwise, and a token of digits alone reads as its decimal value |
| Lexer.IsNumberLooksAtTwoCharacters | src/forth_vm.cc:135-149 | only the first two characters decide the numeric test |
| Lexer.ShallowNumericTest | src/forth_vm.cc:137-148 | `12x` is numeric and reads as 12; `-3` reads as -3; `-`, `DUP` and the empty token are not numeric |
| Lexer.LeadingDigits | src/forth_vm.cc:86 | `std::stoi` reads the longest run of digits: the result is a digit-only prefix, the character after it is not a digit, and a string of digits alone is read whole |
| Lexer.ShowThenParse | src/forth_vm.cc:227 | the decimal text `.` writes for any value reads back as a number with the same value |
| Arith.TruncDiv | src/forth_vm.cc:23 | C++ `/`: the quotient's magnitude is the largest whose multiple of the divisor does not exceed the dividend's, and it is negative only when the signs differ |
| Arith.TruncMod | src/forth_vm.cc:24 | C++ `%`: the remainder is smaller than the divisor in magnitude and, when not 0, has the sign of the dividend |
| Arith.TruncDivMod | src/forth_vm.cc:23-24 | `/` and `%` satisfy `(a/b)*b + a%b == a`; the remainder is smaller than the divisor; the quotient truncates toward zero |
| Arith.TruncatesTowardZero | src/forth_vm.cc:23-24 | `-7 / 2` is -3 with remainder -1, where Euclidean division would give -4 and 1 |
| Arith.DivisionUndefined | src/forth_vm.cc:23-24 | `/` and `MOD` have no defined result for a zero divisor or for `INT_MIN` over -1 |
| Arith.Checked | src/forth_vm.h:82 | a result is kept exactly when it fits a 32-bit `int`, and then unchanged |
| Arith.ApplyBinary | src/forth_vm.h:82 | every defined result of an arithmetic, comparison or bitwise word fits an `int` |
| Arith.ComparisonIsFlag | src/forth_vm.cc:28-31 | `> < = <>` always yield 0 or 1, and yield 1 exactly when the comparison holds |
| Arith.Bitwise | src/forth_vm.cc:44-46 | `AND`, `OR` and `XOR` give an `int` whose two's-complement bits are the operands' bits combined bit by bit |
| Arith.FromBits | src/forth_vm.cc:44-46 | reading 32 bits back as two's complement gives a value that fits an `int` |
| Arith.ToBitsFromBits | src/forth_vm.cc:44-46 | reading 32 bits as an `int` and writing that `int` back gives the same bits |
| StackOps.Dup | src/forth_vm.cc:107-111 | pushes a copy of the top and keeps everything below; leaves an empty stack alone |
| StackOps.Drop | src/forth_vm.cc:114-118 | removes exactly the top; leaves an empty stack alone |
| StackOps.Swap | src/forth_vm.cc:121-127 | exchanges the two top elements and no others; leaves a stack of fewer than two alone |
| StackOps.DropAfterDup | src/forth_vm.cc:107-118 | DROP undoes DUP on every stack |
| StackOps.SwapTwice | src/forth_vm.cc:121-127 | SWAP is its own inverse |
| StackOps.Binary | src/forth_vm.h:72-82 | fails exactly on fewer than two values; on success the depth drops by one, deeper elements are unchanged, and the new top is `op(a, b)` where `b` was the top |
| StackOps.TopIsRightOperand | src/forth_vm.h:79-82 | `10 3 -` leaves 7, `7 2 /` leaves 3 and `1 2 <` leaves 1 |
| StackOps.AddAfterPushes | src/forth_vm.h:79-82 | pushing `a` and `b` and adding leaves `a + b` in their place |
| VMSemantics.LookupName | src/forth_vm.cc:20-59 | every builtin is found in the table under its own name |
| VMSemantics.NameOfLookup | src/forth_vm.cc:20-59 | the table holds nothing else: a word found in it is the name of what it finds |
| VMProperties.StackWordsTouchOnlyTheStack | src/forth_vm.cc:39-41 | DUP, DROP and SWAP change only the stack, as the stack operations say |
| VMProperties.BinaryUnderflowKeepsStack | src/forth_vm.h:72-76 | a binary word on fewer than two values reports "not enough values" and leaves the stack exactly as it was |
| VMProperties.ZeroCompareReplacesTop | src/forth_vm.cc:234-256 | `0= 0< 0> 0<>` replace the top by 1 exactly when its test against zero holds and by 0 otherwise, and change nothing else; on an empty stack nothing changes and nothing is reported |
| VMProperties.PrintPopsTop | src/forth_vm.cc:221-228 | `.` pops the top and appends it to the output, and changes nothing else; on an empty stack it changes nothing |
| VMProperties.GuardedWordsSuppressed | src/forth_vm.cc:20-50 | while a branch is skipped, every arithmetic, comparison, stack and `.` word changes nothing and reports nothing |
| VMProperties.IfOpensLevel | src/forth_vm.cc:184-196 | IF always runs; it pops the stack, pushes the flag `value == 0` and changes nothing else, so the new level executes exactly when the value was not 0; on an empty stack it reports an error and changes neither stack |
| VMProperties.NestedIfInSkippedBranch | src/forth_vm.cc:178-196 | an IF inside a skipped branch still pops a value and, when that value is not 0, turns execution back on |
| VMProperties.ElseAndThen | src/forth_vm.cc:199-218 | ELSE flips the innermost flag and changes nothing else, so two ELSEs restore it; THEN removes exactly one level and changes nothing else |
| VMProperties.ElseThenWithoutIf | src/forth_vm.cc:201-214 | ELSE or THEN with no open IF reports its error and changes nothing else |
| VMProperties.IfThenRestoresLevel | src/forth_vm.cc:184-218 | IF ... THEN and IF ... ELSE ... THEN leave the skip flags as they were |
| VMProperties.BuiltinShadowsUserWord | src/forth_vm.cc:83-88 | a builtin is dispatched before a user word of the same name |
| VMProperties.ZeroComparisonsAreBuiltins | src/forth_vm.cc:83-86 | `0=` and its companions pass the numeric test yet dispatch as builtins |
| VMProperties.NumberPushedWhenExecuting | src/forth_vm.cc:85-86 | a number is pushed only while executing; a skipped one has no effect |
| VMProperties.UnknownWordContinues | src/forth_vm.cc:89-91 | an unknown word is reported, leaves the stacks and tables alone, and the rest of the line still runs |
| VMProperties.SkippedTokensHaveNoEffect | src/forth_vm.cc:83-92 | in a skipped branch outside a definition, tokens other than IF, ELSE, THEN, `:` and `;` change nothing at all |
| VMSemantics.Step | src/forth_vm.cc:77-91 | one token of `run`: output is only appended, and a step that stops the run without invoking a user word leaves the machine as it was |
| VMSemantics.Invoke | src/forth_vm.cc:169-175 | `runDefinition`: output is only appended |
| VMSemantics.RunBody | src/forth_vm.cc:172-174 | the loop over a stored body: output is only appended |
| VMSemantics.RunTokens | src/forth_vm.cc:76-92 | the token loop of `run`: output is only appended |
| VMSemantics.RunLine | src/forth_vm.cc:71-93 | `run`: output is only appended, and a blank line changes nothing |
| VMProperties.RunTokensAppend | src/forth_vm.cc:76-92 | running `a + b` is running `a`, then `b` from where `a` stopped |
| VMProperties.RunLineIsWordByWord | src/forth_vm.cc:71-93 | running a line is running its words one at a time, and two lines back to back act as their concatenation |
| VMProperties.RunBodyOfWords | src/forth_vm.cc:169-175 | replaying stored words one per line is running them as one token sequence |
| VMProperties.InitWellFormed | src/forth_vm.h:56-65 | a fresh machine satisfies the invariant |
| VMProperties.CallBuiltinPreserves | src/forth_vm.cc:20-59 | every builtin keeps the stack values within `int` and only appends to the output |
| VMProperties.BinaryStepPreserves | src/forth_vm.h:72-82 | `binaryOperator` keeps the stack values within `int` and only appends to the output |
| VMProperties.StepPreserves | src/forth_vm.cc:77-91 | one dispatch step keeps the invariant (stack values fit an `int`, stored bodies are words) and only appends to the output |
| VMProperties.InvokePreserves | src/forth_vm.cc:169-175 | invoking a user word keeps the invariant and only appends to the output |
| VMProperties.RunBodyPreserves | src/forth_vm.cc:172-174 | replaying a body keeps the invariant and only appends to the output |
| VMProperties.RunTokensPreserves | src/forth_vm.cc:76-92 | a run of tokens keeps the invariant and only appends to the output |
| VMProperties.InvokeRunsBody | src/forth_vm.cc:169-175 | invoking a user word is running its stored tokens in order on the shared state |
| VMProperties.StepDepth | src/forth_vm.cc:87-88 | the nesting bound only cuts runs short: a step that did not exhaust it is the same under any larger bound |
| VMProperties.InvokeDepth | src/forth_vm.cc:169-175 | the same for an invocation |
| VMProperties.RunBodyDepth | src/forth_vm.cc:172-174 | the same for replaying a body |
| VMProperties.RunTokensDepth | src/forth_vm.cc:76-92 | the same for a run of tokens |
| VMProperties.CaptureBody | src/forth_vm.cc:77-82 | in definition mode with a name, every token other than `;` is appended to that name's body |
| VMProperties.DefineWord | src/forth_vm.cc:77-82 | `: NAME body ;` appends exactly `body` to NAME's entry and leaves definition mode; a redefinition appends, `;` is never stored, an empty body creates no entry, and other names are untouched |
| VMProperties.IfThenExample | src/forth_vm.cc:184-218 | `1 IF 5 . THEN` prints 5 and `0 IF 5 . THEN` prints nothing; both leave stack and flags as they found them |
| VMProperties.IfElseExample | src/forth_vm.cc:199-207 | `0 IF 1 . ELSE 2 . THEN` prints 2 and nothing else |
| VMProperties.DoubleExample | src/forth_vm.cc:169-175 | after `: DOUBLE DUP + ;`, the line `3 DOUBLE .` prints 6 |
| VMProperties.NestedIfExample | src/forth_vm.cc:184-196 | with a non-zero value on top, `0 IF 1 IF 5 . THEN THEN` consumes that value and prints 5 |
| VirtualMachine.ForthVM.constructor | src/forth_vm.h:56-65 | a fresh VM has empty stacks, no user words, no pending name and is not defining |
| VirtualMachine.ForthVM.Dup | src/forth_vm.cc:107-111 | changes the stack as `StackOps.Dup` and nothing else |
| VirtualMachine.ForthVM.Drop | src/forth_vm.cc:114-118 | changes the stack as `StackOps.Drop` and nothing else |
| VirtualMachine.ForthVM.Swap | src/forth_vm.cc:121-127 | changes the stack as `StackOps.Swap` and nothing else |
| VirtualMachine.ForthVM.BinaryOperator | src/forth_vm.h:70-83 | pops, pops, pushes as `StackOps.Binary`, or reports the underflow |
| VirtualMachine.ForthVM.ZeroCompare | src/forth_vm.cc:234-256 | replaces the top by its zero test |
| VirtualMachine.ForthVM.PrintTOS | src/forth_vm.cc:221-228 | pops the top onto the output |
| VirtualMachine.ForthVM.ShouldExecute | src/forth_vm.cc:178-181 | true exactly when no IF is open or the innermost one is not skipping |
| VirtualMachine.ForthVM.ProcessIf | src/forth_vm.cc:184-196 | as `VMProperties.IfOpensLevel` states |
| VirtualMachine.ForthVM.ProcessElse | src/forth_vm.cc:199-207 | as `VMProperties.ElseAndThen` states |
| VirtualMachine.ForthVM.ProcessThen | src/forth_vm.cc:210-218 | as `VMProperties.ElseAndThen` states |
| VirtualMachine.ForthVM.BeginDefinition | src/forth_vm.cc:152-156 | enters definition mode with no pending name |
| VirtualMachine.ForthVM.EndDefinition | src/forth_vm.cc:159-163 | leaves definition mode and clears the pending name |
| VirtualMachine.ForthVM.Call | src/forth_vm.cc:20-59 | runs the closure stored for a builtin, with its `shouldExecute` guard where it has one |
| VirtualMachine.ForthVM.RunDefinition | src/forth_vm.cc:169-175 | runs each stored token of the body as a line, stopping on an abnormal status |
| VirtualMachine.ForthVM.Run | src/forth_vm.cc:71-93 | runs the tokens of the line in turn, as the semantics of a line says |
| VirtualMachine.ForthVM.Word | src/forth_vm.cc:77-91 | one token in the priority order: capture, builtin, number, user word, unknown word |
| Interpreter.ForthInterpreter.constructor | src/ForthInterpreter.h:43-44 | the stack starts empty |
| Interpreter.ForthInterpreter.Dup | src/ForthInterpreter.cc:56-60 | as `StackOps.Dup` |
| Interpreter.ForthInterpreter.Drop | src/ForthInterpreter.cc:63-67 | as `StackOps.Drop` |
| Interpreter.ForthInterpreter.Swap | src/ForthInterpreter.cc:70-76 | as `StackOps.Swap` |
| Interpreter.ForthInterpreter.BinaryOperator | src/ForthInterpreter.h:48-62 | as `StackOps.Binary`, or the "not enough values" report with the stack unchanged |
| Interpreter.ForthInterpreter.Run | src/ForthInterpreter.cc:36-51 | runs the tokens of the line in turn: number first, then table word, then "Unknown word" |
| Interpreter.Step | src/ForthInterpreter.cc:42-48 | one token of `run`: output is only appended, and a step that stops the run leaves the machine as it was |
| Interpreter.RunTokens | src/ForthInterpreter.cc:41-50 | the token loop of `run`: output is only appended |
| Interpreter.RunLine | src/ForthInterpreter.cc:36-51 | `run`: output is only appended, and a blank line changes nothing |
| Interpreter.TableIsSevenWords | src/ForthInterpreter.cc:17-24 | the table holds exactly `+ - * / DUP DROP SWAP`, none of them numeric |
| Interpreter.NumbersComeFirst | src/ForthInterpreter.cc:42-43 | a token passing the numeric test is always pushed, unless `std::stoi` cannot hold it |
| Interpreter.MinusSignExamples | src/ForthInterpreter.cc:84-98 | `-` alone subtracts, `-3` is pushed, `12x` is pushed as 12 |
| Interpreter.UnknownWordContinues | src/ForthInterpreter.cc:44-49 | any other token is reported, the stack is unchanged and the line goes on |
| Interpreter.UnderflowKeepsStack | src/ForthInterpreter.h:52-55 | an operator on fewer than two values reports the error and leaves the stack as it was |
| Interpreter.RunTokensAppend | src/ForthInterpreter.cc:41-50 | running `a + b` is running `a`, then `b` |
| Interpreter.StepPreserves | src/ForthInterpreter.cc:42-48 | one token keeps stack values within `int` and only appends to the log |
| Interpreter.RunTokensPreserves | src/ForthInterpreter.cc:41-50 | a run keeps stack values within `int` and only appends to the log |
| Agreement.TablesAgree | src/ForthInterpreter.cc:17-24 | each of the interpreter's seven words names the same operation in the VM's table |
| Agreement.StepAgrees | src/ForthInterpreter.cc:41-49 | outside IF branches and definitions, on a token both engines read alike, one VM step does to the stack and log what one interpreter step does, ends the same way, and leaves the rest of the VM alone |
| Agreement.TableWordAgrees | src/ForthInterpreter.cc:45-46 | each of the seven table words does the same to the stack and log on both engines |
| Agreement.PerformAgrees | src/ForthInterpreter.cc:17-24 | each table operation does the same to the stack and log on both engines and ends the same way |
| Agreement.UntabledAgrees | src/ForthInterpreter.cc:42-48 | a token outside both tables is pushed as a number, or reported as unknown, alike by both engines |
| Agreement.RunAgrees | src/ForthInterpreter.cc:41-50 | the same for a whole run of such tokens |
| Agreement.LineAgrees | src/ForthInterpreter.cc:36-51 | the same for a whole line |
| Agreement.ZeroEqualsDiverges | src/ForthInterpreter.cc:42-48 | `0=` replaces the top in the VM but pushes 0 in the interpreter, which tests for numbers first |
| Tokenizing.NextToken | src/tokenizer.cc:48-66 | `next` returns nothing exactly when nothing is pending; otherwise it returns the first pending token and removes it, a queued token before the stream |
| Tokenizing.PeekToken | src/tokenizer.cc:72-84 | `peek` leaves the pending tokens unchanged; it returns nothing exactly when the stream is exhausted, however many tokens are queued; otherwise it moves the stream's next token to the back of the queue and returns it |
| Tokenizing.Tokenizer.constructor | src/tokenizer.h:37-38 | a fresh cursor has nothing pending |
| Tokenizing.Tokenizer.Clear | src/tokenizer.cc:37-42 | empties both the stream and the queue |
| Tokenizing.Tokenizer.Parse | src/tokenizer.cc:27-34 | empties the queue and makes the line's tokens pending |
| Tokenizing.Tokenizer.Next | src/tokenizer.cc:48-66 | as `Tokenizing.NextToken` |
| Tokenizing.Tokenizer.Peek | src/tokenizer.cc:72-84 | as `Tokenizing.PeekToken` |
| Tokenizing.ReplayKeepsOrder | src/tokenizer.cc:48-84 | in any interleaving of `next` and `peek`, the tokens `next` delivers followed by those still pending are those pending at the start |
| Tokenizing.PeeksDeliverNothing | src/tokenizer.cc:72-84 | a run of peeks delivers nothing and leaves the pending tokens as they were |
| Tokenizing.NextsDeliverPrefix | src/tokenizer.cc:48-66 | `k` calls of `next` deliver the first `k` pending tokens, or all of them if fewer are left |
| Tokenizing.NextsOnEmpty | src/tokenizer.cc:59-61 | with nothing pending, `next` delivers nothing |
| Tokenizing.PeekTwiceThenNext | src/tokenizer.cc:72-84 | two peeks return the first two tokens of the line, and two calls of `next` then return them again |
| FSM.AddTransition | src/fsm.cc:33-47 | `add` registers the begin and end names, maps the begin state's event to the end state, and gives a new name exactly its own record; other entries and other keys are unchanged |
| FSM.AddTransitions | src/fsm.cc:53-58 | `add(list)` never removes a registered state, and every registered state keeps its own record |
| FSM.AddTransitionsAppend | src/fsm.cc:53-58 | adding a list `a + b` is adding `a`, then `b` |
| FSM.AddTransitionsKeys | src/fsm.cc:53-58 | after adding a list, the registered names are the old ones plus every begin and end name of the list |
| FSM.AddKeepsRecords | src/fsm.cc:36-43 | every registered state keeps a `"__object"` record |
| FSM.AddOverwrites | src/fsm.cc:46 | a later transition for the same begin state and event replaces the earlier one |
| FSM.RecordNotOverwritten | src/fsm.cc:36-43 | a registered state keeps its record when it reappears in a transition |
| FSM.Engine.constructor | src/fsm.h:88-89 | a fresh engine has ended, has a default current state and no states |
| FSM.Engine.Add | src/fsm.cc:33-47 | changes the table as `FSM.AddTransition` and nothing else |
| FSM.Engine.AddAll | src/fsm.cc:53-58 | adds each transition in list order |
| FSM.Engine.StateName | src/fsm.cc:64-67 | the name of the current state |
| FSM.Engine.Seek | src/fsm.cc:73-79 | whenever a stored state of the requested type exists, the current state becomes one of them; otherwise it is unchanged; the table and the ended flag are untouched |
| FSM.Engine.Start | src/fsm.cc:70-81 | clears the ended flag and, whenever a stored BEGIN state exists, enters one of them; otherwise the current state is unchanged |
| FSM.Engine.Stop | src/fsm.cc:84-95 | sets the ended flag and, whenever a stored END state exists, enters one of them; otherwise the current state is unchanged |
| FSM.Engine.Update | src/fsm.cc:98-101 | changes nothing |
| FSM.Engine.Can | src/fsm.cc:109-116 | as written: throws when the current state is unregistered; otherwise true exactly when the current entry has a key equal to the target's name |
| FSM.Engine.Cannot | src/fsm.cc:124-127 | the negation of `can`, throwing when `can` throws |
| FSM.Engine.CanReach | src/fsm.cc:103-108 | true exactly when some transition out of the current state ends in a state of the target's name |
| FSM.CanTestsEventNames | src/fsm.cc:109-116 | with only `A --go--> B` registered and `A` current, `can(B)` is false while `can` of a state named `go` is true; `CanReach` answers the other way round |
| FSM.CanReachAfterAdd | src/fsm.cc:103-108 | right after `add(A --e--> B)` with `A` current, `CanReach(B)` holds |

## Left out

- The REPL in src/main.cc and `ForthVM::printStack` only move text between stdin and stdout. They are not part of this model.
- Output is a log of `Printed(v)` and `Reported(e)` entries, not characters. `Lexer.Show` gives the decimal text of a value.
- `std::isdigit` and `std::isspace` are taken in the "C" locale.
- NEGATE and NOT call `unaryOperator`, whose body is not part of this model. They stop the run with `Unmodelled` instead of being given a contract.
- `Arith.ApplyBinary`: its own contract states only that every defined result fits an `int`. For `AND`, `OR` and `XOR` the result is `Arith.Bitwise`, whose contract gives its bits.
- `Arith.FromBits`: only one half of the two's-complement round trip is proved. `Arith.ToBitsFromBits` shows bits read as an `int` and written back are unchanged. The converse, that every `int` in range is read back from its own bits, needs the solver to turn an unbounded integer into a bit-vector, which exceeds its resource limit.
- `Arith.Bitwise`: the contract ties the result's bits to the operands' bits. Because only one half of the round trip is proved, it does not show that the result is the only `int` with those bits, so concrete identities such as `x AND -1 == x` are not derived.
- Undefined C++ arithmetic gets no value. This covers signed overflow, a zero divisor, and `INT_MIN / -1` or `INT_MIN % -1`. The word stops the run with `UndefinedBehaviour` and leaves the state as it was.
- An out-of-range number (`std::out_of_range` from `std::stoi`) stops the run with `OutOfRange`. The exception's unwinding through callers is not modelled.
- User-word invocation takes a `depth` bound that stands in for the host's call stack. A word that recurses forever, such as `: F F ;`, ends with `DepthExhausted`. `VMProperties.StepDepth` and its companions prove the bound never changes a run that did not exhaust it.
- `runDefinition` iterates the body as it was when the word was invoked. A body that appends to its own `std::deque` while being iterated (src/forth_vm.cc:172 with 81) is undefined behaviour in the source.
- The tokenizer's `std::istringstream` is represented by the tokens it still has to deliver. Its end is "no tokens left". After trailing whitespace the real stream can yield one empty token before reporting end of file. `clear` does not reset its fail and eof bits. Neither quirk is modelled. In the source, then, a fresh tokenizer or an empty line gives one empty token from `next` before `std::nullopt`. After a line that ends in whitespace the fail bit stays set through `clear` and `parse`, so every later `next` returns an empty token and never reports the end. The model instead ends each line cleanly.
- `start`/`stop` visit `std::unordered_map` entries in an unspecified order. `FSM.Engine.Seek` leaves the order open and promises only that some stored state of the requested type is chosen when one exists. The source keeps the last one visited.
- `FSM::Engine`'s `queue_` reference and `setup` (src/fsm.cc:25-27) are not modelled. `queue_` is never used, and `setup` is undeclared and empty.
- Several declarations disagree with their definitions. The model follows the `.cc` bodies:
  - src/forth_vm.h declares neither `zeroCompare`, `printTOS`, `unaryOperator` nor `ZeroCompFcn`.
  - src/ForthInterpreter.cc:84 defines the numeric test as a free function named `ForthInterpreter`, not as `ForthInterpreter::isNumber`. Its body is used as the interpreter's numeric test.
  - src/fsm.h:60 declares a constructor taking a queue, but src/fsm.cc:15 defines it with no parameters.
  - src/fsm.h:81 declares `update` returning `bool`, but src/fsm.cc:98 defines it returning `void`.

## Findings

| source | as written | input that shows it | evidently intended | confidence | as-written member | corrected member |
|---|---|---|---|---|---|---|
| src/fsm.cc:109-116 | `can(state)` looks for `state.name` among the keys of the current state's entry. Those keys are event names and `"__object"`. | Register only `A --go--> B` and make `A` current. `can(B)` is false, and `can` of any state named `go` or `__object` is true. | true exactly when a transition out of the current state leads to a state with that name, as the comment above the function describes | not executed | FSM.CanTestsEventNames | FSM.CanReachAfterAdd |

# The Lua code generator for logical expressions

eLua compiles Lua 5.1 on the device, in one pass. `src/lua/lcode.c` emits instructions while
the parser (`src/lua/lparser.c`) is still reading, so the jumps of `and`, `or`, `not` and the
comparisons are emitted before their targets are known. Open jumps are kept in lists threaded
through the jump instructions themselves: the pending jumps `jpc`, and per expression the exits
when true (`t`) and when false (`f`). A jump may carry a value along (TESTSET) or not, a LOADNIL
may be merged into the one before, and an OP_NOT may be taken back.

This project models that part of the compiler and proves it correct against the short-circuit
meaning of section 2.5.3 (Logical Operators) of the Lua 5.1 Reference Manual.

| file | content |
|---|---|
| LuaSource.dfy | values, the outside world, expressions, and their short-circuit meaning `Eval` |
| LuaMachine.dfy | instructions and their execution, as `src/lua/lvm.c` does it |
| LuaCodegen.dfy | each operation of the code generator as a function on values; lists are sequences |
| LuaOutcome.dfy | a source-level account of what the emitted code really delivers |
| LuaRun.dfy | how runs change when code grows and open jumps are resolved |
| LuaInvariant.dfy, LuaOperands.dfy | what every operation keeps, up to whole expressions |
| LuaDelivery.dfy, LuaFlow.dfy, LuaRegister.dfy, LuaCorrect.dfy | what every operation makes of a run |
| LuaTheorem.dfy | the main theorem: the emitted code delivers exactly `Outcome` |
| LuaExact.dfy, LuaNecessary.dfy | when `Outcome` is the short-circuit value: an exact, computable condition |
| LuaProgram.dfy | `return` statements and conditions behind any code, and when they are right |
| LuaBlock.dfy | function bodies: local declarations, conditionals and returns |
| LuaLaw.dfy | when a whole function is right: an exact, computable condition |
| LuaExamples.dfy | inputs that are compiled wrongly, with the code of two of them, and the limits of the condition |
| LuaLimits.dfy | when compilation succeeds |
| LuaEconomy.dfy | instructions that are merged, taken back or never emitted |
| LuaWord.dfy | instructions as 32-bit words |
| LuaCheckCode.dfy | the code checker of `src/lua/ldebug.c`, and what a run of accepted code cannot do |
| LuaChecker.dfy | the checker accepts all emitted code, and all of it fits its words |
| LuaThreads.dfy | jump lists threaded through the instructions |
| LuaFuncState.dfy | `FuncState` and `expdesc` as classes updated in place, each method proved to do what its function does |
| LuaParser.dfy, LuaStatements.dfy | the parser's calls on that state, and the end-to-end statement |

## Where code and manual disagree

The manual promises that `and` and `or` return one of their operands by the short-circuit rule.
The code does not keep that promise for all expressions. When the first operand of `and` is
compiled to the constant false (`src/lua/lcode.c:547-549`), or that of `or` to the constant true
(`src/lua/lcode.c:575-577`), the generator emits an unconditional jump, and the jumps pending at
that point join its list. A pending jump that comes from a TESTSET offers the value it tested, and
that value then leaves the expression in place of the constant. `((x or false) and true) or false`
delivers `x` instead of true, and `not ((x and true) or false) or x` delivers nil instead of true.
The pending jumps may also come from the statement before: `if x then end return true or y`
returns nil instead of true when `x` is nil.

The model follows the code. `Outcome` says what is delivered, for all expressions and whatever the
pending jumps offer. `Clean` is computed from the expression and the class of what is offered
(nothing, a true value, or a false one), and holds if and only if the short-circuit value is
delivered in every world, for all locals and for all offered values of that class. `CleanFunction`
is computed from a whole function; when its declared values are never booleans it holds if and only
if the function is right in every world and for all arguments. It holds for every function without
the two constants in first operands. As a condition an expression loses only its value and not its
truth, so that a conditional is right whenever the comparisons in its condition get their own
operands, which again depends on what is pending before it: behind an `if` whose condition was
nil, `(true or y) == z` compares nil with `z`.

Two limits of these equivalences are stated by a lemma each. A world may answer a comparison in any
way, and the language decides most comparisons itself; over worlds that compare as the language
does (`Lawful`) the equivalences hold for comparisons between globals, while
`((((1 == 2) and x) or false) and true) or false` is not clean but right in all of these. And when a
declared value may be a boolean `CleanFunction` is sufficient, but a wrong value in a variable that
is never looked at does no harm.

## Reading the statements

A `World` answers reads of globals and comparisons; the answer may depend on everything done
before, because both can run metamethods, and the log of these events is part of every result. In
a `Lawful` world equality is decided by the values unless both are different objects; the
order of numbers is their own; strings are ordered the same way at all times.
A `Start` is one run: entry point, registers, log and final constant table. `Spot` is where that
run stands at the end of the code emitted so far: there, possibly over a pending jump that offers a
value, or elsewhere because it returned or left through a jump of an enclosing construct. A
statement about "every run" is about all of these. `FuncState.failed` stands for the error the
original would have raised, and every method sets it exactly when its function says so; nothing is
promised about the state after an error. A value that owns a temporary register, as calls and
arithmetic leave it, is covered by the operations on descriptors, though no expression modelled
here produces one between calls.

## Model

| member | source | states |
|---|---|---|
| LuaTheorem.CompileCorrect | src/lua/lparser.c:833-858 | For every expression, every state of the code generator it can start in, every world and every run that reaches the code before it, over whatever pending jump: the code emitted by the prefix, infix and posfix calls delivers exactly `Outcome` (value or exit, and the value a TESTSET carries along), after the same global reads and comparisons in the same order, and keeps every register in use |
| LuaLaw.FunctionIsExact | src/lua/lcode.c:538-592 | The short-circuit law for whole functions and its exact condition: a function whose declared values are never booleans returns what the source says, after the right events, in every world and for all arguments **if and only if** it is `CleanFunction` |
| LuaLaw.FunctionIsExactLawfully | src/lua/lcode.c:538-592 | The same over only those worlds that compare as the language does, for functions whose comparisons, if any, are between globals |
| LuaLaw.UndecidedFunctionIsClean | src/lua/lcode.c:547-577 | A lower bound for every body, declarations included: a function in which no first operand of `and` is the constant false and none of `or` the constant true is `CleanFunction` |
| LuaLaw.CleanFunctionIsRight | src/lua/lparser.c:1336-1345 | The sufficient half for all function bodies, local declarations included |
| LuaLaw.UncleanFunctionIsWrong | src/lua/lcode.c:547-577 | A witness world and witness arguments for every function that is not clean and whose declared values are never booleans; the world compares as the language does when comparisons are between globals |
| LuaBlock.BlockDelivers | src/lua/lparser.c:1336-1345 | The code of a body delivers exactly `BlockOutcome`, behind any code and over any pending jumps: what is pending at the end of one statement is pending at the start of the next |
| LuaBlock.FunctionDelivers | src/lua/lparser.c:329-361 | The same for a whole function with the closing RETURN, called with its parameters set and all other registers nil |
| LuaLimits.FunctionCompiles | src/lua/lparser.c:161-165 | Every function within limits on its own size is compiled without an error: at most 50 variables at a time, parameters included, fewer than 250 registers for them and the operands, and a size below 131071 at 16 instructions for every part |
| LuaLimits.FailsExactly | src/lua/lparser.c:161-165 | Within the other limits an error is raised exactly when a 51st variable is declared |
| LuaLimits.TooManyVariables | src/lua/lparser.c:161-165 | A 51st variable is refused wherever it is declared |
| LuaProgram.ReturnDelivers | src/lua/lparser.c:1249-1279 | `return s` behind any code: every run that gets there, over whatever pending jump, returns the final value of `Outcome` after exactly its events |
| LuaProgram.CleanReturnsRight | src/lua/lcode.c:718-789 | `return s` behind any code is right when `s` is clean for the class of what the pending jumps offer |
| LuaProgram.UncleanReturnsWrong | src/lua/lcode.c:547-577 | ... and only then: for every class for which `s` is not clean there are a world, locals and an offered value of that class with which every run goes wrong |
| LuaProgram.CondIsRight | src/lua/lparser.c:971-978 | As a condition even an unclean expression is right, behind any code and over any pending jumps, as long as its comparisons get their own operands: a run goes on into the block exactly when the short-circuit value is true, and otherwise leaves through the list of false exits, having changed no register in use |
| LuaProgram.CondIsWrong | src/lua/lparser.c:971-978 | ... and only then: else some world, locals and offered value make every run perform wrong events |
| LuaNecessary.CleanIsExact | src/lua/lcode.c:538-592 | Over all worlds, locals and offered values of a class: what the code delivers is the short-circuit value after the right events if and only if the expression is `Clean` for that class |
| LuaNecessary.CleanIsExactLawfully | src/lua/lcode.c:538-592 | The same over worlds that compare as the language does, for expressions whose comparisons, if any, are between globals |
| LuaNecessary.EventsAreExact | src/lua/lcode.c:681-694 | Globals are read and values compared exactly as the short-circuit meaning says, in every world, if and only if no comparison can get a foreign operand |
| LuaExact.CleanIsRight | src/lua/lcode.c:718-789 | If no way out of an expression entered over pending jumps of a class is spoiled, what the code delivers is the short-circuit value after the right events |
| LuaExamples.BoolOfDeliversX | src/lua/lcode.c:547-549 | `((x or false) and true) or false` should be a boolean, but delivers `x` |
| LuaExamples.NotOfLosesTruth | src/lua/lcode.c:575-577 | `not ((x and true) or false) or x` should be true for nil, but delivers nil |
| LuaExamples.BehindIfReturnsNil | src/lua/lparser.c:1152-1173 | `if x then end return true or y` returns nil when `x` is nil, although the returned expression is clean where nothing is pending |
| LuaExamples.CompiledBehindIf | src/lua/lparser.c:1152-1173 | Its nine instructions, computed through every call |
| LuaExamples.ComparesForeign | src/lua/lcode.c:575-577 | Behind an `if` whose condition was nil, the condition `(true or y) == z` compares nil with `z` |
| LuaExamples.UncleanYetLawful | src/lua/lvm.c:284-310 | The gap that is left: an expression with a decided comparison, `1 == 2`, that is not clean but right in every world that compares as the language does |
| LuaExamples.UnusedYetRight | src/lua/lparser.c:1190-1205 | A declared variable with a spoiled value that is never looked at: not clean, but right |
| LuaExamples.CompiledProgram | src/lua/lcode.c:390-411 | The nine instructions emitted for the first input |
| LuaExamples.ProgramReturnsX | src/lua/lvm.c:621-635 | Those instructions return `x` when run |
| LuaChecker.FunctionChecked | src/lua/ldebug.c:328-397 | The code of every function is accepted by the code checker of the virtual machine, and no open jump is left in it |
| LuaChecker.FunctionEncoded | src/lua/lopcodes.h:31-67 | Every instruction of every compiled function fits its 32-bit word and is read back from it unchanged; registers stay below 250 and constants within 262143 |
| LuaWord.RoundTrip | src/lua/lopcodes.h:85-115 | An instruction with A at most 255, B and C at most 511 and Bx at most 262143 is a 32-bit word, and decoding the word gives the instruction |
| LuaWord.RKMeans | src/lua/lopcodes.h:117-133 | An operand from 256 on is a constant to the virtual machine, and a smaller one a register |
| LuaCheckCode.CheckedRun | src/lua/ldebug.c:328-392 | What acceptance buys: a run of accepted code never falls off the end, never changes a register from `maxstack` on, and ends at a RETURN of values from below `maxstack`, unless it meets a backward jump or a RETURN of an open list of values |
| LuaCheckCode.CheckedRunsAlike | src/lua/ldebug.c:328-392 | ... and depends only on the registers below `maxstack` and the constants that were checked |
| LuaCheckCode.ChecksFields | src/lua/ldebug.c:305-371 | Checking an instruction by its kind is checking its operand fields by the modes of `luaP_opmodes` |
| LuaCheckCode.CheckAll | src/lua/ldebug.c:328-392 | The checking loop decides `CheckCode`: operands in range, jumps inside the code, every test followed by a jump, no skip past the end, a final RETURN |
| LuaChecker.CompileSound | src/lua/lparser.c:833-858 | After any expression all operands are in range and every open jump is in a list of the expression, in the pending list, or in a list of an enclosing construct: no jump is ever forgotten |
| LuaChecker.BlockSound | src/lua/lparser.c:1336-1345 | After a whole body the only open jumps are those of enclosing statements |
| LuaChecker.JumpOnNotSound | src/lua/lcode.c:525-530 | Removing the OP_NOT just emitted leaves every operand in range and every open jump listed |
| LuaChecker.CodeCompSound | src/lua/lcode.c:681-694 | A comparison gets operands in range, and its jump is the only new open one |
| LuaOperands.CompileOK | src/lua/lparser.c:833-858 | The lists `jpc`, `t` and `f` of every compiled expression are disjoint, duplicate-free lists of open jumps; only jumps that were pending before were redirected; the register level is restored; the constants are those the source predicts; `t` and `f` are empty exactly when the source says so |
| LuaBlock.BlockOK | src/lua/lparser.c:1336-1345 | A body closes what it opens: no jump is pending after it, and of the jumps open before only the pending ones have been redirected |
| LuaOperands.Joined | src/lua/lcode.c:745-760 | The exits of both operands of `and`/`or` together again form disjoint lists |
| LuaOperands.CodeCompOK | src/lua/lcode.c:681-694 | A comparison releases both operands, swaps them for `>` and `>=`, and ends in a test with an open jump that is in no list |
| LuaOperands.Exp2RKCases | src/lua/lcode.c:444-469 | An operand is an existing or new small constant exactly for a constant without jumps and a table that is not too big, else a register |
| LuaOperands.Exp2RKOK | src/lua/lcode.c:444-469 | The operand stays valid while later code is emitted: a constant, a local, or one temporary on top |
| LuaOperands.OperandNumber | src/lua/lcode.c:444-469 | As a number the operand fits its 9 bits: from 256 on it is the constant with that index, below 250 it is a register; a constant is used in place exactly when its index, or a new index, is at most 255 |
| LuaOperands.FreeOperands | src/lua/lcode.c:215-226 | Releasing second, then first operand restores the register level: the register released is always the last one reserved |
| LuaOperands.Exp2NextRegOK | src/lua/lcode.c:414-419 | The value lands in the first free register, its own temporary having been released; all lists of the expression are resolved, and only its own and the pending jumps were redirected |
| LuaOperands.Exp2AnyRegOK | src/lua/lcode.c:422-433 | A value already in a register with no jumps is left alone; any other is put into its own temporary or the next register |
| LuaInvariant.PatchOK | src/lua/lcode.c:150-160 | Patching sends exactly the listed jumps forward to their targets, leaves every other open jump open and guarded as before, and changes no other instruction except the TESTSETs of the list |
| LuaInvariant.LoadNilOK | src/lua/lcode.c:35-56 | A LOADNIL is merged into the previous one only when no jump lands between them |
| LuaInvariant.GoIfTrueOK | src/lua/lcode.c:539-564 | Afterwards one list goes on at the next instruction and the false exits leave; the two are disjoint, and the exits are empty exactly for a true constant without false exits |
| LuaInvariant.GoIfFalseOK | src/lua/lcode.c:567-591 | The same with true and false exchanged |
| LuaInvariant.CodeNotOK | src/lua/lcode.c:594-626 | The lists are exchanged, the value's own temporary is released and only jumps of the expression or pending ones are touched |
| LuaInvariant.PatchExitsOK | src/lua/lcode.c:404-406 | Resolving the false exits does not disturb the true exits or the pending jumps, and the other way round |
| LuaInvariant.BoolsOnlyIfNeeded | src/lua/lcode.c:394-403 | The two LOADBOOLs and the jump over them are emitted exactly when some exit offers no value |
| LuaInvariant.Exp2RegOK | src/lua/lcode.c:390-411 | Every list of the expression is resolved, and only its own and the pending jumps were redirected |
| LuaRun.RunExtended | src/lua/lcode.c:80-87 | Resolving open jumps and appending code does not change what a run did before it took one of them: it is resumed there |
| LuaRun.RunLeavesOpen | src/lua/lvm.c:627-635 | A run that leaves through an open jump with a value has it from the TESTSET guarding that jump |
| LuaRun.RunStretchedNil | src/lua/lcode.c:37-53 | Stretching a LOADNIL at the end of the code changes every run that gets there only by one more nil register, when `lasttarget` excludes jumps to the end |
| LuaDelivery.NilDelivers | src/lua/lcode.c:35-56 | Whether merged, dropped or emitted, LOADNIL leaves nil in the register for every run that arrives |
| LuaDelivery.Discharge2RegDelivers | src/lua/lcode.c:343-379 | The value of every kind of descriptor, with its events, ends up in the register; a value that owns the register is left there |
| LuaDelivery.JumpOnCondDirected | src/lua/lcode.c:524-536 | The jump is taken exactly when the truth of the value equals the condition, offering the value unless a NOT was folded into the test |
| LuaFlow.ComparisonRun | src/lua/lcode.c:516-521 | A comparison's own jump is taken when it holds, and when it does not hold after `invertjump` |
| LuaFlow.JumpDirected | src/lua/lcode.c:547-549 | The unconditional jump of a constant carries away the pending jumps with the values they offer: the cause of the failure |
| LuaFlow.GoIfTrueParted | src/lua/lcode.c:539-564 | After `luaK_goiftrue` a run goes on or leaves as `AndNext` says, for every way it came out of the operand |
| LuaFlow.GoIfFalseParted | src/lua/lcode.c:567-591 | After `luaK_goiffalse` as `OrNext` says |
| LuaFlow.CodeNotDelivers | src/lua/lcode.c:594-626 | Truth is negated on every way out, and exits lose their values |
| LuaRegister.ExitsRun | src/lua/lcode.c:404-406 | Every exit ends behind the expression with its value, or true or false, in the register |
| LuaRegister.Exp2RegRun | src/lua/lcode.c:390-411 | Wherever a run comes out of the expression, the register holds its final value, and registers below are as before, also for a value that owns the register |
| LuaCorrect.Exp2NextRegRun | src/lua/lcode.c:414-419 | The final value is in the first register that is free once the value's own temporary is released; a value that owns that register is there already, after no further event |
| LuaProgram.Exp2AnyRegRun | src/lua/lcode.c:422-433 | The final value is in the register that is returned, whether it was put there or owns it |
| LuaCorrect.ComparisonAccepts | src/lua/lcode.c:687-692 | Swapped or inverted, the emitted test accepts exactly when the relation holds, and performs its event |
| LuaCorrect.AndCorrect | src/lua/lcode.c:745-753 | `and` delivers the outcome of both operands together: the second runs only when the first is true |
| LuaCorrect.OrCorrect | src/lua/lcode.c:754-760 | `or`: the second runs only when the first is not true |
| LuaCorrect.RelCorrect | src/lua/lcode.c:781-786 | Relations, both operands evaluated left to right |
| LuaSource.LawfulOrder | src/lua/lvm.c:254-281 | In a lawful world numbers are ordered as numbers, and `<=` holds exactly when the reverse `<` does not |
| LuaSource.LawfulRelations | src/lua/lvm.c:601-620 | In a lawful world each of the six relations between numbers is what its sign says |
| LuaEconomy.NilsMerge | src/lua/lcode.c:35-56 | Nil for two registers in a row takes one instruction, and none at the start of a function |
| LuaEconomy.NotFolded | src/lua/lcode.c:524-536 | A test of a negated value takes the OP_NOT back |
| LuaEconomy.ConstantsDecide | src/lua/lcode.c:539-626 | Branching on a constant emits at most one jump and no test, and negating it nothing |
| LuaEconomy.NilCondition | src/lua/lparser.c:971-978 | A condition `nil` is compiled as `false` is |
| LuaEconomy.LocalInPlace | src/lua/lcode.c:422-469 | A local variable is compared, tested and returned where it is |
| LuaEconomy.FirstInstructions | src/lua/lparser.c:329-354 | At the start of a function nothing is emitted for nil in a new variable, and a function that returns its parameter is one instruction in a frame of two registers |
| LuaEconomy.CodeLimit | src/lua/lcode.c:797-809 | An instruction no jump is pending to is refused only when the code is full |
| LuaEconomy.NoIdleStore | src/lua/lcode.c:131-141 | A TESTSET that would store a register into itself becomes a TEST |
| LuaThreads.ThreadsUnique | src/lua/lcode.c:100-106 | A list is determined by its head, so it is finite and visits no jump twice |
| LuaThreads.Linked | src/lua/lcode.c:185-196 | Linking the last jump of one list to the head of another yields their concatenation, forward or backward |
| LuaThreads.ThreadsKept | src/lua/lcode.c:185-196 | A step that moves only other open jumps keeps a list |
| LuaFuncState.FuncState.Concat | src/lua/lcode.c:185-196 | The result threads the concatenation of both lists; only the last link of the first changes; fails exactly when that link is too far |
| LuaFuncState.FuncState.PatchListAux | src/lua/lcode.c:150-160 | The threaded list is walked to its end: exactly its jumps are sent to their targets, and every other list keeps its links |
| LuaFuncState.FuncState.NeedsValue | src/lua/lcode.c:122-128 | True exactly when some jump of the list offers no value |
| LuaFuncState.FuncState.DropValues | src/lua/lcode.c:144-147 | Exactly the jumps of the list stop offering values; no link changes |
| LuaFuncState.FuncState.Code | src/lua/lcode.c:797-809 | The pending jumps land here, then the instruction follows |
| LuaFuncState.FuncState.Jump | src/lua/lcode.c:59-66 | The new jump threads the pending ones behind it |
| LuaFuncState.FuncState.CondJump | src/lua/lcode.c:74-77 | A test and its jump; other lists keep their links |
| LuaFuncState.FuncState.Here | src/lua/lcode.c:179-182 | The list joins the pending jumps |
| LuaFuncState.FuncState.LoadNil1 | src/lua/lcode.c:35-56 | LOADNIL for one register, merged where that is allowed |
| LuaFuncState.FuncState.Constant | src/lua/lcode.c:229-247 | The index of a constant, each constant stored once |
| LuaFuncState.FuncState.DischargeVars | src/lua/lcode.c:304-334 | A variable becomes a value; lists keep their links |
| LuaFuncState.FuncState.Discharge2Reg | src/lua/lcode.c:343-379 | The value is put into the register |
| LuaFuncState.FuncState.JumpOnCond | src/lua/lcode.c:524-536 | A jump on the truth of the value; the expression's own lists keep their links |
| LuaFuncState.FuncState.GoIfTrue | src/lua/lcode.c:539-564 | State and both threaded lists afterwards are those of `LuaCodegen.GoIfTrue` |
| LuaFuncState.FuncState.GoIfFalse | src/lua/lcode.c:567-591 | ... of `LuaCodegen.GoIfFalse` |
| LuaFuncState.FuncState.Not | src/lua/lcode.c:594-626 | ... of `LuaCodegen.CodeNot` |
| LuaFuncState.FuncState.LoadBooleans | src/lua/lcode.c:396-403 | The LOADBOOLs of `exp2reg` and the jump over them |
| LuaFuncState.FuncState.ResolveExits | src/lua/lcode.c:404-406 | Both threaded lists are resolved behind the expression |
| LuaFuncState.FuncState.Exp2Reg | src/lua/lcode.c:390-411 | State and descriptor afterwards are those of `LuaCodegen.Exp2Reg`; lists of other expressions keep their links |
| LuaFuncState.FuncState.Exp2NextReg | src/lua/lcode.c:414-419 | ... of `LuaCodegen.Exp2NextReg` |
| LuaFuncState.FuncState.Exp2AnyReg | src/lua/lcode.c:422-433 | ... of `LuaCodegen.Exp2AnyReg` |
| LuaFuncState.FuncState.Exp2RK | src/lua/lcode.c:444-469 | ... of `LuaCodegen.Exp2RK`, with the operand returned |
| LuaFuncState.FuncState.Compare | src/lua/lcode.c:681-694 | ... of `LuaCodegen.CodeComp` |
| LuaFuncState.FuncState.PosfixAnd | src/lua/lcode.c:745-753 | The false exits of the first operand are threaded behind those of the second |
| LuaFuncState.FuncState.PosfixOr | src/lua/lcode.c:754-760 | The true exits likewise |
| LuaParser.Expression | src/lua/lparser.c:833-858 | On the state updated in place, the calls for an expression in source order give exactly `Compile`: same instructions, links, constants, registers and errors |
| LuaStatements.Condition | src/lua/lparser.c:971-978 | The returned head threads the false exits of the condition |
| LuaStatements.ReturnStat | src/lua/lparser.c:1249-1279 | `return s` on the state updated in place gives exactly `CompileReturn` |
| LuaStatements.LocalStat | src/lua/lparser.c:1190-1205 | `local x = e` gives exactly `CompileLocal` |
| LuaStatements.Body | src/lua/lparser.c:1336-1345 | A body gives exactly `CompileBlock`, while the false exits of enclosing conditionals stay threaded |
| LuaStatements.Function | src/lua/lparser.c:329-361 | The end-to-end statement: within the limits there is no error; the instructions this leaves behind pass the code checker, can be read back from their words, deliver exactly `BlockOutcome` in every world and for all arguments, and what the source means when the function is clean |

## Left out

- LuaLaw.FunctionIsExact: the necessary half leaves out declarations of values that may be booleans, for which the condition is not necessary (`UnusedYetRight`).
- LuaLaw.FunctionIsExactLawfully: comparisons between globals only; where the language decides a comparison itself the condition is sufficient, but not necessary (`UncleanYetLawful`).
- LuaProgram.UncleanReturnsWrong: the witness world is lawful only for comparisons between globals, for the same reason.
- LuaBlock.BlockDelivers: bodies end with a return, and a conditional has a body that ends with a return or an empty one, without `elseif` and `else`; loops, assignments, calls and other statements are not modelled.
- LuaStatements.ReturnStat: one returned value; lists of values and tail calls are not modelled.
- LuaStatements.LocalStat: one variable with one value.
- LuaFuncState.FuncState.LoadNil1: one register at a time; the loop form `luaK_nil(fs, from, n)` serves declarations without a value.
- LuaFuncState.FuncState.Constant: numbers are reals, so a NaN constant and the two zeros are not told apart; nil is its own key, where the original uses the table itself because nil cannot be a key.
- LuaFuncState.FuncState.DischargeVars: locals and globals; upvalues, indexing and calls are other kinds of operands.
- LuaParser.Expression: takes the syntax tree instead of tokens; operator priorities, the nesting limit of `enterlevel` and line information are not modelled.
- LuaCorrect.Exp2RKRun: an operand of a comparison that owns a temporary register is covered by `LuaOperands.Exp2RKOK` and `LuaProgram.Exp2AnyRegRun` only.
- LuaLimits.FunctionCompiles: the limit of 249 registers is not shown to be exact, because operands that need no register are counted too.
- LuaCheckCode.CheckedRun: a RETURN of an open list of values, and loops, are not executed by the model.
- LuaMachine.Exec: code of the modelled statements only jumps forward, so a backward jump counts as going wrong. Running metamethods is an event answered by the world and cannot change locals or raise errors; an order comparison of different types, which raises an error, is answered too.
- Arithmetic, constant folding, concatenation, length and unary minus: they add temporaries but no jumps.
- Calls, varargs, upvalues, indexing, table constructors, `luaK_storevar`, `luaK_self` and `luaK_setlist`: operands and statements of other kinds.
- Garbage collection, memory growth of the code and constant arrays, and error messages.
- The memory allocators, FatFs, the serial multiplexer and RPC code, interrupts, upvalue lists and `luaL_ref`: separate components of the repository.

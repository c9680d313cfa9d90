# Solix in Dafny

Solix compiles an object-oriented language to bytecode and runs it on a virtual
machine with its own heap and reference counting. This project models the parts of
it in which things can go subtly wrong and proves that they do not, or exactly when
they do.

**Compiler and virtual machine.** `Syntax` and `Semantics` are the structured source:
expressions, assignments, all loops, switch, static calls, `throw` and
`try`/`catch`/`finally`, as a big-step semantics that also records every reference
operation. `Assembler` is the code generator as a class: it appends bytes, leaves
holes, and fills them from stacks of patch lists. `OnePass` is the emitter that knows
all addresses in advance, and `Patching` shows that the two write the same bytes.
`VirtualMachine` is the machine as a step function over those bytes and `RunLoop` the
interpreter's loop over its arrays. `Stepping`, `Simulation` and `Programs` prove that
the machine does what the source means, across frames, cleanups and handlers, and
`Compiler` puts the ends together: what is assembled and then interpreted ends as the
source program does.

**Promises of the language.** `Once` and `OnceInMachine` state when a `finally` block
runs exactly once, `Escapes` which ways out skip it, `Residue` and `Finally` what
survives it, `ReturnPaths` when the "returns on all paths" check is sound, and
`Narrowing` that narrow integers may be computed in 64 bits and narrowed once.
`Operators` says what the operators compute, `Releases` which references a block and a
call release, and `Balance` and `BalanceInMachine` that the counts which compiled code
changes come out even.

**Memory.** `RefCounts`, `Pacts`, `Fates`, `Arc` and `Reachability` are reference
counting over blocks: recursive release, destructors that run re-entrantly and may keep
their object alive, exact counts, and collection by reachability. `Fates` holds the
rules: what a release sets off, as a tree of releases, teardowns and bodies. `HeapLayout`, `FreeIndex` and
`Allocator` are the byte heap with its two free indexes, splitting, coalescing and
the retracting top. `WeakSlots` is the registry of weak fields.

**Class tables.** `Hierarchy`, `Subtyping`, `ClassTables`, `TableBuilder` and
`ObjectLayout` are virtual tables, interface tables, type tests and instance layouts:
what the binder builds and what the machine finds in it.

**Types and dependencies.** `TypeSyntax`, `TypeParser` and `TypeRoundTrip` are the
printer, lexer and parser of types. `DependencyGraph`, `Versions` and `Dependencies`
are the dependency walk and the choice of versions.

Where the source works by changing things in place, so does the model: the assembler,
the interpreter's loop, both memories, the table and layout builders, the lexer, the
parser and the dependency walk are classes whose methods are proved against
specification functions and invariants. Input, output, clocks and calls into other
code are parameters: the allocator's answers and the type test of the compiled
program's world, and the manifests of the dependency walk.

Some promises do not hold as the documentation words them; then the code is followed
and the exact condition is proved. A `finally` block does not run when a break, a
continue, or a return inside a loop or a switch leaves its try (`Once.FinallyRunsOnce`,
`Escapes.EscapeSkipsFinally`, `Escapes.LeapSkipsFinally`); such a return also skips
narrowing and every release. A `finally` block keeps a pending result only when
no call in it raises and is caught in it while an operand is pending
(`Finally.CarefulFinallyKeepsOutcome`, `Finally.EachPositionFails`); a break in a
switch defeats the return check (`ReturnPaths.BreakDefeatsTheCheck`); freeing a block
may zero a word of another when a weak registration outlived its holder
(`WeakSlots.StaleRegistration`); reference counts come out even only where blocks
declare references before anything that may leave them and nothing is thrown
(`Balance.StaleSlotReleasedAgain`, `Balance.ThrowGivesUpBorrowed`); a function-pointer type without return type does not
survive printing and parsing (`TypeRoundTrip.RoundTrip`).

`dafny verify dfyconfig.toml` checks everything.

## Model

| member | source | states |
|---|---|---|
| Words.DivModIdentity | core/src/runtime.cpp:794-824 | For all 64-bit operands with a nonzero divisor, INT64_MIN by -1 included, quotient times divisor plus remainder is the dividend modulo 2^64, and the remainder has the dividend's sign and a smaller magnitude |
| Words.NarrowByResidue | core/src/runtime.cpp:1207-1256 | A conversion depends only on the value's residue modulo the target width |
| Words.NarrowKeepsResidue | core/src/runtime.cpp:1207-1256 | A conversion keeps the value's residue modulo the target width |
| Words.NarrowIntoRange | core/src/runtime.cpp:1207-1256 | A conversion gives the one value in the target type's range, written out for each width and sign, that lies a multiple of the type's size away |
| Words.Truncated | core/src/runtime.cpp:794-824 | DIV_I64 gives the quotient that truncates toward zero, modulo 2^64 where it does not fit, and MOD_I64 the remainder that goes with it |
| Words.Read32Back | core/src/runtime.cpp:314-322 | The VM's 32-bit operand read gives back what the assembler's big-endian write put there |
| Words.Read64Back | core/src/runtime.cpp:324-339 | The VM's 64-bit operand read gives back what the assembler's big-endian write put there |
| Instructions.FetchBack | core/src/runtime.cpp:680-712 | Decoding at an address where an instruction has been encoded gives that instruction and the address behind it |
| RunLoop.Vm.PushValue | core/src/runtime.cpp:430-436 | Pushing, or a stack overflow at capacity |
| RunLoop.Vm.PopValue | core/src/runtime.cpp:437-438 | Popping, or a stack underflow on an empty stack |
| RunLoop.Vm.BinaryOp | core/src/runtime.cpp:752-908 | In place of the two operands the sum, difference or product modulo 2^64, the truncated quotient or its remainder, or 1 or 0 as a comparison of the signed or equal words holds; division by zero reported exactly for the two divisions; the cells below untouched |
| RunLoop.Vm.Unary | core/src/runtime.cpp:909-945 | In place of the operand 1 or 0 for a test, its negative, successor or predecessor modulo 2^64, or the value in the target type's range a multiple of its size away; the cells below untouched |
| RunLoop.Vm.ReadLocal | core/src/runtime.cpp:946-954 | GET_LOCAL relative to the current frame |
| RunLoop.Vm.WriteLocal | core/src/runtime.cpp:955-963 | SET_LOCAL changes that one cell of the current frame |
| RunLoop.Vm.BranchOn | core/src/runtime.cpp:984-1000 | Conditional jumps pop the condition and jump exactly when it selects |
| RunLoop.Vm.CallTop | core/src/runtime.cpp:1289-1312 | CALL checks the target, pushes the frame with the return address and the environment, and jumps |
| RunLoop.Vm.ReturnTop | core/src/runtime.cpp:1552-1583 | RETURN pops the frame, cuts the stack to it, and hands the result to the caller, or ends the run with its low 32 bits as exit code |
| RunLoop.Vm.UnwindOut | core/src/runtime.cpp:1604-1643 | JMP_TO_OUTER_CLEANUP leaves one frame for the cleanup registered for its return address; an exception that leaves the last frame is released and reported |
| RunLoop.Vm.SearchOut | core/src/runtime.cpp:1645-1667 | The fallback search along the frames when a call site registered no cleanup |
| RunLoop.Vm.GrowFrame | core/src/runtime.cpp:1716-1730 | ALLOC_FRAME zeroes exactly the locals beyond the arguments |
| RunLoop.Vm.Allocate | core/src/runtime.cpp:1007-1018 | ALLOC_DYNAMIC rejects negative sizes and pushes the new address |
| RunLoop.Vm.ReleaseSlot | core/src/runtime.cpp:1774-1791 | DEC_REF_SLOT releases a non-null slot that its mask selects |
| RunLoop.Vm.ThrowTop | core/src/runtime.cpp:1669-1684 | THROW_EXCEPTION retains the exception and enters the innermost cleanup, or unwinds |
| RunLoop.Vm.ForgetException | core/src/runtime.cpp:1690-1699 | CLEAR_EXCEPTION releases the active exception once |
| RunLoop.Vm.Dispatch | core/src/runtime.cpp:680-690 | One dispatch of the in-place interpreter is one step of the machine |
| RunLoop.Vm.RunBytecode | core/src/runtime.cpp:425-456 | The interpreter's loop over its arrays refines the step function for any instruction budget, and stops where the budget stops the source |
| Semantics.ApplyComputes | core/src/runtime.cpp:752-908 | The operators compute these numbers |
| Semantics.ComputesOnce | core/src/runtime.cpp:752-908 | and there is one word each that does |
| Semantics.ClassIsLastStamp | core/src/runtime.cpp:1370-1378 | An object's class is the one last stamped on it since its allocation |
| Semantics.InstanceHasClass | core/src/runtime.cpp:1370-1393 | The type test asks whether a non-null object's class passes as the target class |
| VirtualMachine.MappedMaps | core/src/runtime.cpp:909-945 | The one-operand instructions compute the numbers that Unary states |
| VirtualMachine.ExitCode | core/src/runtime.cpp:1564-1580 | The exit code is the number in the signed 32-bit range with the result's low 32 bits |
| Operators.ArithComputes | core/src/processes/assembler.cpp:1799-1842 | A binary expression evaluates left before right and gives the operator's number, or fails exactly for a division by zero |
| Operators.AssignOpComputes | core/src/processes/assembler.cpp:1543-1740 | A compound assignment computes with the value from before its operand, is worth the result as computed, and stores its conversion |
| Operators.AssignConverts | core/src/processes/assembler.cpp:1543-1740 | An assignment stores the conversion and is worth the operand as computed |
| Operators.PrefixComputes | core/src/processes/assembler.cpp:1844-1935 | Negation gives the conversion of the negative, ! gives 1 exactly for zero |
| Operators.IncDecComputes | core/src/processes/assembler.cpp:1894-1915 | ++ and -- move the slot by one modulo 2^64 without converting; prefix is worth the new value, postfix the old |
| Stepping.MaskBit | core/src/runtime.cpp:1774-1779 | A mask selects a slot below 64 exactly by the slot's own bit |
| Stepping.MaskSelectsOne | core/src/processes/assembler.cpp:816-820 | The mask that the assembler writes selects its slot and, of the first 64, no other |
| Patching.EmitSound | core/src/processes/assembler.cpp:467-485 | Appending an instruction with holes keeps the buffer equal, outside the holes, to the one-pass text, and every known operand a listed instruction's address |
| Patching.PatchSound | core/src/processes/assembler.cpp:1098-1102 | Filling a hole with the address the one-pass emitter would have written keeps that correspondence |
| Patching.Complete | core/src/processes/assembler.cpp:506-529 | When no hole is left the buffer is, byte for byte, what a one-pass emitter knowing all addresses writes |
| Assembler.Assembler.Emit | core/src/processes/assembler.cpp:467-474 | Appends the encoded instruction |
| Assembler.Assembler.EmitHole | core/src/processes/assembler.cpp:1087-1089 | Appends an instruction whose operand is still unknown and returns the hole |
| Assembler.Assembler.Patch | core/src/processes/assembler.cpp:1098-1102 | Overwrites the four bytes of a hole in place and nothing else |
| Assembler.Assembler.PatchAll | core/src/processes/assembler.cpp:1152-1157 | Overwrites a whole patch list |
| Assembler.Assembler.NoteBreak | core/src/processes/assembler.cpp:1345-1347 | Records a jump in the innermost break list |
| Assembler.Assembler.CloseBreaks | core/src/processes/assembler.cpp:1152-1159 | Resolves and drops the innermost break list |
| Assembler.Assembler.NoteContinue | core/src/processes/assembler.cpp:1362-1364 | Records a jump in the innermost continue list |
| Assembler.Assembler.CloseContinues | core/src/processes/assembler.cpp:1191-1222 | Resolves and drops the innermost continue list |
| Assembler.Assembler.NoteCleanup | core/src/processes/assembler.cpp:1053-1056 | Records an operand in the innermost exception-cleanup list |
| Assembler.Assembler.CloseCleanups | core/src/processes/assembler.cpp:1022-1029 | Resolves and drops the innermost exception-cleanup list |
| Assembler.Assembler.CompileArith | core/src/processes/assembler.cpp:1799-1842 | Emits the one-pass code of a binary expression |
| Assembler.Assembler.CompileShortCircuit | core/src/processes/assembler.cpp:1769-1797 | Emits the one-pass code of && and ||, patching the short cut |
| Assembler.Assembler.CompileTernary | core/src/processes/assembler.cpp:2393-2436 | Emits the one-pass code of a conditional expression, retaining the arm that is not retained already |
| Assembler.Assembler.CompileAssign | core/src/processes/assembler.cpp:1543-1740 | Emits the one-pass code of an assignment: the value is duplicated before it is narrowed |
| Assembler.Assembler.CompileAssignOp | core/src/processes/assembler.cpp:1543-1740 | Emits the one-pass code of a compound assignment |
| Assembler.Assembler.EmitIncDec | core/src/processes/assembler.cpp:1894-1915 | Emits the one-pass code of ++ and --, which never narrow |
| Assembler.Assembler.CompileNew | core/src/processes/assembler.cpp:2135-2204 | Emits the one-pass code of an object creation |
| Assembler.Assembler.EmitCall | core/src/processes/assembler.cpp:2075-2131 | Emits a static call with its registered cleanup and the linker's hole |
| Assembler.Assembler.CompileDecl | core/src/processes/assembler.cpp:1070-1081 | Emits a declaration: initialiser, narrowing, retention, store |
| Assembler.Assembler.CompileIf | core/src/processes/assembler.cpp:1083-1118 | Emits an if statement and patches its jump |
| Assembler.Assembler.CompileIfElse | core/src/processes/assembler.cpp:1083-1118 | Emits an if-else statement and patches both jumps |
| Assembler.Assembler.CompileWhile | core/src/processes/assembler.cpp:1120-1161 | Emits a while loop; breaks lead behind it, continues to its test |
| Assembler.Assembler.CompileFor | core/src/processes/assembler.cpp:1163-1223 | Emits a for loop; continues lead to its iterator |
| Assembler.Assembler.CompileDo | core/src/processes/assembler.cpp:1225-1257 | Emits a do-while loop; continues lead to its test |
| Assembler.Assembler.CompileSwitch | core/src/processes/assembler.cpp:1378-1456 | Emits the comparisons, the case bodies and the exit of a switch |
| Assembler.Assembler.CompileReturn | core/src/processes/assembler.cpp:1259-1330 | Emits a return: result, narrowing, the cleanups and inlined finally blocks on the chain of parents, RETURN; inside a loop or a switch the chain ends there |
| Assembler.Assembler.CompileChain | core/src/processes/assembler.cpp:1297-1327 | Emits the releases and the inlined finally blocks that a return passes |
| Assembler.Assembler.CompileThrow | core/src/processes/assembler.cpp:2658-2667 | Emits a throw with the enclosing block's cleanup as operand |
| Assembler.Assembler.CompileBlock | core/src/processes/assembler.cpp:997-1068 | Emits a block and its two ends: the releases of its own reference declarations, last first (Releases.SlotsLastFirst), on the normal way out, and again in the exception cleanup that goes on outward |
| Assembler.Assembler.CompileTry | core/src/processes/assembler.cpp:2537-2654 | Emits a try with its clauses, its finally on both ways out, and the rethrow; breaks and continues pass the finally by |
| Assembler.Assembler.CompileClause | core/src/processes/assembler.cpp:2567-2605 | Emits a clause: type test, taking over the exception, the body, releasing the variable |
| Assembler.Assembler.CompileFunction | core/src/processes/assembler.cpp:770-810 | Emits a whole function at the address the linker will use |
| Assembler.Assembler.CompileBody | core/src/processes/assembler.cpp:796-870 | Emits the frame setup, the body and the function's own cleanup |
| Assembler.Assembler.CompileBoot | core/src/processes/assembler.cpp:724-741 | Emits the entry call and HALT |
| Assembler.Assembler.ApplyLinkerPatches | core/src/processes/assembler.cpp:506-529 | Fills every call target with its function's address; fails exactly when a called function was not compiled |
| Assembler.Assemble | core/src/processes/assembler.cpp:163-206 | For every program in scope, unless it calls a function that it does not have, the finished buffer holds no hole, lists every instruction it starts, and equals the one-pass text |
| Assembler.Finished | core/src/processes/assembler.cpp:506-529 | A buffer without pending holes is placed: bytes, listing and text agree and every jump leads to a listed address |
| OnePass.ExprLaid | core/src/processes/assembler.cpp:1465-2204 | The one-pass code of an expression has the promised length and is the layout the proofs about the VM assume |
| OnePass.StmtLaid | core/src/processes/assembler.cpp:997-1456 | The same for statements |
| OnePass.TryLaid | core/src/processes/assembler.cpp:2537-2654 | The same for try statements |
| OnePass.ProgramLaid | core/src/processes/assembler.cpp:531-810 | The same for whole programs, boot sequence first |
| Compiler.DecodesBack | core/src/runtime.cpp:680-712 | At every listed address of a finished buffer the VM decodes exactly that instruction, and the next listed address lies behind it |
| Simulation.SimExpr | core/src/processes/assembler.cpp:1465-2436 | Running an expression's code leaves its value on the operand stack, with the locals, the heap events and any raised exception of the source evaluation |
| Simulation.SimStmt | core/src/processes/assembler.cpp:997-1376 | Running a statement's code ends at the position its outcome asks for, with the same locals and heap events |
| Simulation.SimBlock | core/src/processes/assembler.cpp:997-1068 | Running a block releases its references once, on the normal and on the exceptional way out |
| Simulation.SimLoop | core/src/processes/assembler.cpp:1120-1223 | Running a while or for loop's code agrees with the loop, over any number of rounds |
| Simulation.SimDo | core/src/processes/assembler.cpp:1225-1257 | Running a do-while loop's code agrees with the loop |
| Simulation.SimSwitchStmt | core/src/processes/assembler.cpp:1378-1456 | Running a switch's code agrees with the statement: comparisons, fall-through, break |
| Simulation.SimClauses | core/src/processes/assembler.cpp:2567-2605 | An exception enters the first matching clause, with the locals of that frame, or passes on |
| Simulation.SimTry | core/src/processes/assembler.cpp:2537-2654 | Running a try's code agrees with the statement for every combination of outcomes of body, clauses and finally |
| Simulation.SimFinish | core/src/processes/assembler.cpp:2626-2654 | A finally block runs once on the normal, the unmatched and the rethrowing way out, and then control goes on |
| Simulation.SimReturned | core/src/processes/assembler.cpp:1297-1329 | A return runs the finally blocks it passes, innermost first, and then returns the value |
| Simulation.SimCall | core/src/processes/assembler.cpp:2075-2131 | A call runs the callee in its own frame, returns its value, or unwinds to the cleanup registered at the call site |
| Simulation.SimBody | core/src/processes/assembler.cpp:770-810 | A function's code agrees with its body, from frame setup to RETURN or unwinding |
| Releases.SlotsLastFirst | core/src/processes/assembler.cpp:812-828 | The slots that a block's code releases are those of the reference declarations among its own statements, the last one first |
| Releases.BlockReleasesItsOwn | core/src/processes/assembler.cpp:812-828 | However a block is left, but by an escape, what happens behind its statements is one release for each of its own reference declarations whose slot is not null, the last declaration first, of what the slot holds then, and nothing else |
| Releases.CompiledBlockReleases | core/src/processes/assembler.cpp:1008-1036 | The machine has done the same when control leaves the block's code |
| Releases.CallReleasesParameters | core/src/processes/assembler.cpp:830-842 | A call that does not escape releases the references among its parameters behind its body, in the order listed, nulls excepted, and nothing else |
| Stepping.DoReleaseSlot | core/src/runtime.cpp:1774-1791 | DEC_REF_SLOT with the mask the assembler emits releases exactly the slot's reference |
| Programs.ProgramRuns | core/src/processes/assembler.cpp:724-741 | When the entry function's source run ends, the VM ends with its result, its escaped exception reported as unhandled, or its error, after exactly the same allocations, class stamps and count changes |
| Programs.OneEnd | core/src/runtime.cpp:425-456 | A run that has stopped has stopped as any run of the same machine stops, unless room ran out |
| Compiler.CompiledProgramRuns | core/src/processes/assembler.cpp:163-206 | From syntax tree to patched bytes: the VM's run over the finished buffer ends as the source program does, heap events included |
| Compiler.CompileProgram | core/src/processes/assembler.cpp:163-206 | The same, for any number of dispatches of the assembler's own output, which every program has whose calls name its functions |
| Compiler.CompileAndRun | core/src/runtime.cpp:425-456 | Assembling and then interpreting in place: programs whose calls name their functions are run, and whenever the run ends within the budget it ends as the source program does, heap events included |
| Balance.ExprBalances | core/src/processes/assembler.cpp:97-135 | An expression that completes changes each block's count by what the reference slots have come to hold, and by one for its own value exactly when it is a reference that the assembler takes for counted already |
| Balance.BlockBalances | core/src/processes/assembler.cpp:997-1068 | A block, however its run ends, changes each count by what the slots outside it have come to hold and by a reference being returned; never below what is left without those slots |
| Balance.CallBalances | core/src/processes/assembler.cpp:97-135 | Over every call that ends, at any depth, loops and early exits included, each block's count changes by the reference returned less those passed in, and is at no point below what is left without those: nothing is released twice and nothing is left over; for programs without try and throw whose blocks declare references before anything that may leave them |
| BalanceInMachine.MachineBalances | core/src/processes/assembler.cpp:97-135 | The same of the machine, over the patched bytes of such a program |
| Balance.StaleSlotReleasedAgain | core/src/processes/assembler.cpp:812-828 | A block left before a reference declaration releases again what the slot held in an earlier round of the loop |
| Balance.UnsetSlotReleased | core/src/processes/assembler.cpp:1070-1081 | A declaration without initialiser lets its block release whatever the slot held |
| Balance.StatementReleasesBorrowed | core/src/processes/assembler.cpp:1367-1376 | An expression statement releases a reference that it has not counted |
| Balance.CaseKeepsReference | core/src/processes/assembler.cpp:1378-1456 | A reference declared directly in a case is never released |
| Balance.ThrowGivesUpBorrowed | core/src/processes/assembler.cpp:2567-2605 | Throwing what a local holds and catching it releases once more than it retains |
| Finally.FirstMatchHandles | core/src/processes/assembler.cpp:2567-2605 | The first clause whose class the exception is an instance of handles it, and no other clause runs |
| Finally.NoMatchPassesOn | core/src/processes/assembler.cpp:2612-2635 | When no clause matches the exception leaves the try unchanged |
| Once.FinallyRunsOnce | README.md:305 | A finally block that begins by creating an object of a class created nowhere else: however the try ends, the run's heap events hold exactly one more such creation, unless a break, a continue, or a return inside a loop or a switch leaves the guarded code; then they hold none |
| OnceInMachine.MachineRunsFinallyOnce | core/src/processes/assembler.cpp:1297-1329 | The same of the machine: a run of the compiled bytes of a function with such a try, where the block's code stands in several copies, has created exactly one such object when it has ended with a result or an exception |
| Escapes.LoopReturnEscapes | core/src/processes/assembler.cpp:1259-1330 | A return inside a loop body gives the value as it was computed, whatever narrowing the function's type asks for |
| Escapes.EscapeSkipsReleases | core/src/processes/assembler.cpp:1290-1330 | No block around the loop releases its references |
| Escapes.EscapeSkipsFinally | core/src/processes/assembler.cpp:1290-1330 | No finally block around the loop runs, whichever it is |
| Escapes.EscapeSkipsParameters | core/src/processes/assembler.cpp:1290-1330 | The function releases none of its parameters |
| Escapes.LeapSkipsFinally | core/src/processes/assembler.cpp:1332-1365 | A break or continue out of a try releases the block's references and runs no finally block |
| Finally.CarefulFinallyKeepsOutcome | core/src/processes/assembler.cpp:1297-1329 | A finally block in whose nested try statements nothing raises while an operand is pending, when it completes, keeps how the try ends: completion, exception and the value returned, for every program and state |
| Residue.EvalMeets | core/src/processes/assembler.cpp:1799-1842 | An expression that raises only in the last place to be evaluated leaves no operand behind when it does; one whose calls are all to functions that cannot raise does not raise |
| Residue.StmtTidy | core/src/processes/assembler.cpp:2537-2654 | A careful statement, its nested try statements included, completes, breaks or continues with no operand left behind |
| Finally.LateRaiseLeaves | core/src/processes/assembler.cpp:1799-1842 | In every other place (right of an operator, a later argument, a compound assignment, a constructor or its arguments) whatever raises leaves an operand behind |
| Finally.SwitchLeaves | core/src/processes/assembler.cpp:1378-1456 | As does whatever raises under the subject of a switch |
| Finally.LeftoverReplacesResult | core/src/processes/assembler.cpp:1297-1329 | For every statement, exception and value: a return through a finally block that catches the exception returns the topmost operand left behind, and its own value exactly when there is none or it is the same |
| Finally.EachPositionFails | core/src/processes/assembler.cpp:1297-1329 | None of the places can be left out of the condition: each has a concrete finally block that the condition excludes and that makes the method return something else |
| ReturnPaths.AcceptedSurely | core/src/processes/binder.cpp:1653-1714 | What the analysis accepts returns for sure unless a break leaves a switch that it has accepted; what returns for sure is accepted |
| ReturnPaths.NeverFallsThrough | core/src/processes/binder.cpp:1653-1714 | A statement that returns for sure never completes normally, with any exceptions thrown and caught and any breaks elsewhere |
| ReturnPaths.AcceptedBodyReturns | core/src/processes/binder.cpp:1716-1726 | A function whose body is accepted ends by returning or throwing, unless a break leaves a switch that the analysis relies on |
| ReturnPaths.FallsThroughAtItsBreaks | core/src/processes/binder.cpp:1690-1712 | An accepted switch falls through exactly when its run ends at a break of its own |
| ReturnPaths.BreakDefeatsTheCheck | core/src/processes/binder.cpp:1690-1712 | A concrete body that the analysis accepts and that runs off its end |
| Narrowing.WideAgrees | core/src/processes/assembler.cpp:86-95 | Evaluating +, - and * trees in 64 bits agrees with narrow evaluation modulo the width |
| Narrowing.NarrowOnceIsEnough | core/src/processes/assembler.cpp:1070-1081 | One conversion at the store equals narrowing after every operation, for every width up to 32 bits, when the locals that the tree reads are in range |
| Narrowing.DivisionNeedsMore | core/src/processes/assembler.cpp:1070-1081 | With a division inside the tree the two differ |
| Narrowing.IncDecKeepsRange | core/src/processes/assembler.cpp:1894-1915 | ++ and -- keep a narrow local in range exactly when it is not at the end of its range they go towards, as no conversion follows |
| Arc.Memory.IncreaseReference | core/src/runtime.cpp:111-119 | Counts one more outside reference; other addresses are ignored |
| Arc.Memory.DecRef | core/src/runtime.cpp:1198-1206 | Dropping a reference, whichever destructors run: it goes step by step as the rules of Fates say; counts stay exact and nothing dangles; what the other references reach stays with all its references unless a destructor empties another object's field, what neither the block nor a static leads to is not touched, no block is left with count zero, and outside there are exactly the old references, less this one, and those that bodies still kept when they ended; it fails only when a destructor finds the heap full |
| Arc.Memory.DecreaseReference | core/src/runtime.cpp:121-155 | Terminates, at any depth of destructors, with the heap that the rules of Fates give: the last reference runs the destructor, drops the fields and frees the block, or the destructor keeps it; keeps every pact: blocks behind the fence untouched, roots live with their references; the outside references are the old ones, less this one, and those that bodies still kept when they ended |
| Arc.Memory.DecreaseReferenceCallable | core/src/runtime.cpp:157-184 | The same for captured callables, whose block is freed without looking at its count again |
| Arc.Memory.TearDown | core/src/runtime.cpp:129-152 | Captures of a closure are dropped; for anything else the destructor, if any, runs and the slots are dropped unless it has kept the block |
| Arc.Memory.ReleaseCaptured | core/src/runtime.cpp:133-146 | Drops each captured reference once, in order, leaving the stored values in place |
| Arc.Memory.ReleaseFields | core/src/runtime.cpp:218-238 | Nulls each strong slot of a dying object or array, in order, and drops what it held |
| Arc.Memory.ObjectDestructor | core/src/runtime.cpp:192-240 | A destructor never starts while it runs; afterwards the object has dropped all its fields, or it is alive, its count the number of slots that hold it and of references kept to it, and its fields as they were but for those its body took; it is not alive when bodies drop all they keep and put nothing into fields |
| Arc.Memory.RunDestructor | core/src/runtime.cpp:197-216 | The destructor holds its object for as long as it runs, its whole body is performed, and exactly that reference is taken back |
| Arc.Memory.InvokeDestructor | core/src/runtime.cpp:372-390 | Any body, all its actions performed in order: holding, loading, creating, storing into and taking out of fields and dropping, with nested destructors; the outside references grow by what it still keeps at its end and what nested runs have kept |
| Arc.Memory.Perform | core/src/runtime.cpp:372-390 | Each action has its effect on the heap and on what the body keeps, and a drop has all that follows from it |
| Arc.Memory.Deallocate | core/src/runtime.cpp:29-109 | Removes the block, which must be there: a block is freed at most once |
| Arc.Memory.Allocate | core/include/solix/runtime.hpp:165-176 | A new block at an unused address has count one and null slots; none only when the heap is full |
| Arc.Memory.Store | core/src/runtime.cpp:1043-1070 | Storing a held reference moves it from the outside into the slot |
| Arc.Memory.Unstore | core/src/runtime.cpp:1043-1070 | Taking a reference out of a field moves it to the outside |
| RefCounts.UnslotOk | core/src/runtime.cpp:220-228 | Taking a reference out of a slot keeps all counts exact |
| RefCounts.FreeOk | core/src/runtime.cpp:150-152 | Freeing a block with count zero and dropped slots keeps all counts exact and leaves no dangling slot |
| Pacts.CalmStep | core/src/runtime.cpp:121-155 | Calm stretches of a run compose, so that what one release leaves alone a whole run of them does |
| Fates.HoldsAtMost | core/src/runtime.cpp:372-390 | A body never keeps more references than its actions up to then account for |
| Fates.NothingKept | core/src/runtime.cpp:121-155 | When every body drops all it keeps, a release leaves no new reference behind, at any depth of destructors |
| Fates.DropShrinks | core/src/runtime.cpp:121-155 | When bodies put nothing into fields, a release only takes references out of slots, at any depth of destructors |
| Arc.NotSaved | core/src/runtime.cpp:192-216 | Under both conditions no destructor keeps its object alive |
| Arc.Dies | core/src/runtime.cpp:121-155 | From the drop of the last reference to the removal of the block, nothing else is disturbed |
| Arc.Revives | core/src/runtime.cpp:208-213 | An object that its destructor kept alive stays, and nothing else is disturbed |
| Reachability.DropHonoured | core/src/runtime.cpp:121-155 | At any release, what the other references reach holds itself up, and no slot leads from the rest into what the release cannot reach |
| Reachability.ReachableIsLive | core/src/runtime.cpp:121-155 | Whatever outside references reach is live |
| Reachability.FreesOnlyUnreachable | core/src/runtime.cpp:121-155 | Whatever destructors run, as long as none empties a field of another object, what the remaining references reach is live afterwards with all its references, and still in their reach |
| Reachability.RestUntouched | core/src/runtime.cpp:121-155 | What the dropped block does not lead to, nor any static that a destructor names, is exactly as before |
| Reachability.LeavesExactlyTheReachable | core/src/runtime.cpp:121-155 | Whatever destructors have run, when the heap that is left has no cycles, the blocks left are exactly those that the other references reach, and those that bodies still kept when they ended |
| Reachability.KeepsExactlyTheReachable | core/src/runtime.cpp:121-155 | Without cycles, a release keeps exactly what the remaining references reached before, when there are no destructors or their bodies take only out of their own object's fields, put nothing into fields and drop all they keep |
| Untame.WildDestructorFreesTheReachable | core/src/runtime.cpp:192-216 | A destructor that takes a reference out of another object's field and drops it: its run by the rules frees a block that a remaining reference has reached, so the condition on destructors cannot be left out |
| Reachability.CyclesStay | core/src/runtime.cpp:121-155 | Two objects that hold each other stay when the last outside reference goes |
| Allocator.Memory.constructor | core/include/solix/runtime.hpp:107-110 | An empty memory, nothing live |
| Allocator.Memory.Allocate | core/include/solix/runtime.hpp:113-177 | The payload is the least positive multiple of eight in which every element lies at its width; exact fit, else the smallest block that can be split, else above the top; the payload is zeroed, disjoint from all live blocks, whose bytes are kept; tiling, both indexes and the counters stay right; overflow leaves the top beyond the heap |
| Allocator.Memory.PickFree | core/include/solix/runtime.hpp:132-154 | The indexed search takes the size class a search through all free blocks would, and splits it |
| Allocator.Memory.Reserve | core/include/solix/runtime.hpp:132-162 | The same with the space above the top; fails exactly when that overflows |
| Allocator.Memory.Deallocate | core/src/runtime.cpp:29-109 | Only that block stops being live; all other live bytes are kept; no two free blocks touch and none ends at the top |
| Allocator.Memory.JoinNext | core/src/runtime.cpp:63-77 | Coalesces with a free block behind |
| Allocator.Memory.JoinPrevious | core/src/runtime.cpp:79-97 | Coalesces with a free block that ends where this one begins, found as the nearest below |
| Allocator.Memory.Settle | core/src/runtime.cpp:99-106 | Lowers the top or files the block in both indexes |
| Allocator.Memory.Insert | core/src/runtime.cpp:104-105 | Files a block in both indexes, behind those of its size |
| Allocator.Memory.Erase | core/src/runtime.cpp:67-76 | Removes the one entry of a block from both indexes |
| Allocator.Memory.SyncFreeBlocks | core/include/solix/runtime.hpp:88-94 | The list of free blocks is the sorted key list of the address index |
| Allocator.Memory.StaticAllocation | core/src/runtime.cpp:13-27 | Static space stays below the dynamic base |
| Allocator.Memory.WriteU8 | core/include/solix/runtime.hpp:186-188 | A write into a live payload keeps every other live block and every header |
| Allocator.Memory.IncreaseReference | core/src/runtime.cpp:111-119 | Only the low 28 bits of the header's second word change, by one |
| Allocator.Memory.Drained | core/src/runtime.cpp:29-109 | Once nothing is live the top is back at the base and both indexes are empty, whatever the order of frees |
| Allocator.PayloadIsTightest | core/include/solix/runtime.hpp:119-128 | The payload is the least positive multiple of eight that holds all elements, each at the width its tag stands for |
| HeapLayout.InOneBlock | core/src/runtime.cpp:29-109 | Every address below the top lies in exactly one block |
| HeapLayout.TilesExactly | core/src/runtime.cpp:29-109 | The extents of all blocks add up to the dynamic heap |
| HeapLayout.SplitOk | core/include/solix/runtime.hpp:139-153 | Splitting keeps the tiling and leaves no free blocks touching |
| HeapLayout.JoinPreviousOk | core/src/runtime.cpp:79-97 | Joining backwards keeps the tiling and leaves the block apart from all other free ones |
| HeapLayout.LoweredOk | core/src/runtime.cpp:99-102 | Lowering the top keeps the tiling and leaves no free block at the top |
| HeapLayout.DrainedCompletely | core/src/runtime.cpp:29-109 | With nothing live the layout is empty |
| FreeIndex.InsertedAgrees | core/src/runtime.cpp:104-105 | Inserting keeps both indexes in agreement and the size index sorted |
| FreeIndex.RemovedAgrees | core/src/runtime.cpp:67-76 | Removing keeps both indexes in agreement |
| WeakSlots.Memory.WeakSetProperty | core/src/runtime.cpp:1071-1099 | Moves the slot's registration from the old target to the new one and stores it; null holders and addresses outside the heap are refused |
| WeakSlots.Memory.Deallocate | core/src/runtime.cpp:29-38 | Zeroes exactly the registered slots and forgets the registrations |
| WeakSlots.StepOk | core/src/runtime.cpp:1071-1099 | Every allowed operation keeps each live weak slot registered under what it refers to |
| WeakSlots.NeverDangles | core/src/runtime.cpp:29-38 | Over every run no weak field of a live block refers to a freed block |
| WeakSlots.FreeNulls | core/src/runtime.cpp:29-38 | Freeing a block nulls every weak field that refers to it |
| WeakSlots.TidyRunsFreeCleanly | core/src/runtime.cpp:29-38 | Over every run that clears weak fields before it frees their holders, freeing a block touches no word but those that refer to it |
| WeakSlots.FreeLeavesTheRest | core/src/runtime.cpp:29-38 | It leaves every other word alone exactly when no other slot is still registered under the block |
| WeakSlots.StaleRegistration | core/src/runtime.cpp:29-38 | A registration that outlives its holder zeroes a word of the block that reuses the space |
| Subtyping.CheckInterface | core/src/processes/binder.cpp:1925-1962 | The search with a visited set finds an interface exactly when it is reached through interface edges, or has exhausted them |
| Subtyping.ClassImplementsInterface | core/src/processes/binder.cpp:1921-1972 | True exactly when the target is an interface above the class and not the class itself |
| Subtyping.IsAssignable | core/src/processes/binder.cpp:1907-1918 | True exactly when the target is the source or above it |
| Subtyping.InstanceOf | core/src/runtime.cpp:1370-1393 | The walk over base ids and interface tables succeeds exactly when the target is the object's class or above it |
| Subtyping.BuiltTablesDescribe | core/src/processes/binder.cpp:1286-1357 | The tables the binder builds are what the run-time walk needs to agree with the compiler |
| Hierarchy.BelowTransitive | core/src/processes/binder.cpp:1907-1918 | The subtype relation is transitive |
| Hierarchy.BelowSelf | core/src/processes/binder.cpp:1830-1832 | The subtype relation is reflexive |
| TableBuilder.Binder.CollectAllInterfaces | core/src/processes/binder.cpp:1111-1151 | Lists exactly the interfaces above a class |
| TableBuilder.Binder.CalculateInterface | core/src/processes/binder.cpp:1153-1220 | An interface's table keeps its base's slots and covers every signature of the interfaces it extends; circularity is reported only for an interface in progress |
| TableBuilder.Binder.Merge | core/src/processes/binder.cpp:1179-1191 | Appends exactly the signatures that are missing, moving no slot |
| TableBuilder.Binder.PlaceOwn | core/src/processes/binder.cpp:1250-1284 | Overrides take the first slot of their signature, every other virtual or abstract method gets a new slot behind the inherited ones, in the order of declaration, and all other slots are kept; an override with nothing to override throws |
| TableBuilder.Binder.FindImplementation | core/src/processes/binder.cpp:1295-1322 | The concrete method of the signature declared nearest on the base chain |
| TableBuilder.Binder.PlaceImplementation | core/src/processes/binder.cpp:1329-1352 | Finds or makes the implementation's slot without breaking any promise made before |
| TableBuilder.Binder.FillSlots | core/src/processes/binder.cpp:1290-1355 | Each method index of an interface leads to the nearest implementation; a missing one is an error in a concrete class |
| TableBuilder.Binder.FillTables | core/src/processes/binder.cpp:1286-1357 | A class has an interface table for exactly the interfaces above it |
| TableBuilder.Binder.CalculateClass | core/src/processes/binder.cpp:1222-1248 | Memoised, finished once, with every promise about earlier classes kept; throws only when some class on its base chain has an override with nothing declared above to override |
| TableBuilder.Binder.FinishClass | core/src/processes/binder.cpp:1359-1374 | A concrete class left with an abstract slot is an error |
| TableBuilder.Binder.CalculateAll | core/src/processes/binder.cpp:1222-1374 | All classes of a program, in any order, get such tables, unless, and only unless, a class on the base chain of one of them has an override for which no class above declares a virtual or abstract method or promotes an implementation for an interface; and a concrete class is reported exactly when it lacks something |
| ClassTables.NewMethodHasSlot | core/src/processes/binder.cpp:1277-1283 | Each new virtual or abstract method has its own slot behind the inherited ones, unless an interface has put the nearest implementation of its signature there |
| ClassTables.InheritedSlotHolds | core/src/processes/binder.cpp:1250-1276 | An inherited slot keeps its signature and holds the class's override, the inherited method, or the nearest implementation where an interface needs one |
| ClassTables.SlotsByDeclaration | core/src/processes/binder.cpp:1222-1357 | A class's table has a slot for a signature exactly when the class or one that it extends declares a new virtual or abstract method of it, or an interface needs it and it is implemented |
| ClassTables.InterfaceSignatures | core/src/processes/binder.cpp:1153-1212 | An interface's table has exactly the signatures that it and the interfaces it extends declare |
| ClassTables.InterfaceCallReachesNearest | core/src/runtime.cpp:1452-1491 | CALL_INTERFACE on a concrete class for which nothing is reported, whatever is reported for others, reaches the nearest concrete method of that signature, through every interface and index |
| ClassTables.ReportedExactly | core/src/processes/binder.cpp:1324-1374 | A concrete class is reported exactly when a method of one of its interfaces has no implementation on its chain or a slot is left abstract |
| ClassTables.VirtualCallKeepsSignature | core/src/runtime.cpp:1428-1451 | A slot of an ancestor's table holds a method of the same signature at the same index |
| ClassTables.NearestFacts | core/src/processes/binder.cpp:1295-1322 | Nearest means: concrete, of that signature, on the chain, with no concrete one of that signature in between |
| ObjectLayout.SizesOfTypes | core/src/utilities/statements.hpp:134-140 | The primitives listed by width take one, two or four bytes; arrays, function pointers and all other names eight |
| ObjectLayout.ElementsTakeTheirSize | core/src/utilities/statements.hpp:142-152 | The tag that an array is allocated with makes the allocator reserve for each element exactly what its type takes |
| ObjectLayout.Binder.PlaceFields | core/src/processes/binder.cpp:1398-1413 | Instance fields are aligned, in order and disjoint; reference offsets are those of the non-weak reference fields |
| ObjectLayout.Binder.CalculateLayout | core/src/processes/binder.cpp:1376-1422 | Memoised; a class's layout starts behind its base's instance, and finished layouts never change |
| ObjectLayout.FieldInside | core/src/processes/binder.cpp:1376-1422 | Every field of the chain is aligned, behind the class id and inside an instance size divisible by eight |
| ObjectLayout.FieldsApart | core/src/processes/binder.cpp:1376-1422 | No two fields of an instance overlap, whichever classes of the chain declare them |
| ObjectLayout.ReferencesExact | core/src/processes/binder.cpp:1386-1411 | The reference offsets are exactly the strong reference fields of the whole chain |
| TypeSyntax.LexerState.Tokenize | core/src/processes/lexer.cpp:272-379 | The lexer's loop produces the tokens of the text, ended by EOF |
| TypeSyntax.LexerState.ScanWord | core/src/processes/lexer.cpp:256-267 | A maximal word, told apart into primitive, tuple, keyword or identifier |
| TypeSyntax.LexerState.ScanPunctuation | core/src/processes/lexer.cpp:298-342 | Punctuation of type syntax, with its longer forms |
| TypeParser.ParserState.ParseTypeInfo | core/src/processes/parser.cpp:189-299 | Terminates on every token list ended by EOF; the cursor moves to the end of the type it returns |
| TypeParser.ParserState.ParseSuffixes | core/src/processes/parser.cpp:264-295 | Any number of function-pointer suffixes, each with its parameters and brackets |
| TypeParser.ParserState.ParseDimensions | core/src/processes/parser.cpp:253-262 | Runs of brackets, as one token or as two |
| TypeParser.ParserState.ParsePath | core/src/processes/parser.cpp:233-239 | Qualified names with . or :: |
| TypeRoundTrip.LexType | core/src/processes/lexer.cpp:272-379 | Lexing the printed form of a type gives its tokens, whatever follows that does not extend the last one |
| TypeRoundTrip.ParsesBack | core/src/processes/parser.cpp:189-299 | Parsing them consumes exactly those tokens when the next one extends no type |
| TypeRoundTrip.RoundTrip | core/src/utilities/statements.hpp:95-131 | Printing, lexing and parsing gives an equal type exactly when no function pointer in it lacks its return type |
| TypeRoundTrip.NormalIsSame | core/src/utilities/statements.hpp:74-91 | Equality with the parsed form holds exactly under that condition |
| TypeRoundTrip.EqualExactlyWhenPrintedAlike | core/src/utilities/statements.hpp:74-119 | Two types are equal exactly when they print alike, when no function pointer in them lacks its return type |
| Versions.OlderIsStrictOrder | tools/cli/src/semver.hpp:50-61 | A strict total order that goes by major, then minor, then patch |
| Versions.NamesInOrder | tools/cli/src/dependency_resolver.hpp:163-172 | Of two names the one listed first is discovered first |
| Versions.SortByVersion | tools/cli/src/dependency_resolver.hpp:181-184 | A permutation in non-decreasing version order |
| Versions.SelectOne | tools/cli/src/dependency_resolver.hpp:176-216 | Refuses a name exactly when its candidates differ in the major version, else takes one that none is newer than, with the profile of a newest candidate that asks for one, or its own when none does |
| Versions.SelectVersions | tools/cli/src/dependency_resolver.hpp:163-220 | Fails exactly when two candidates of one name differ in the major version; else one newest for each name, with its profile, in order of discovery; with unique names everything discovered |
| Dependencies.DependencyManager.DiscoverSingle | tools/cli/src/dependency_resolver.hpp:383-620 | Follows one dependency, each manifest entered at most once, on every graph; a new one is walked with the profile asked for, else its referrer's if defined, else debug, else its first or none; a repeated reference replaces the profile where it asks for one and overrides or none had been asked for; never refuses one that leads to the root or to a named library with the profile asked for, within a closed set of such |
| Dependencies.DependencyManager.Visit | tools/cli/src/dependency_resolver.hpp:575-619 | Walks all dependencies of a manifest, its profile's included, before listing it; does not fail within a closed set |
| Dependencies.DependencyManager.AdoptProfile | tools/cli/src/dependency_resolver.hpp:492-505 | The profile of the candidate of that manifest becomes the one asked for, explicitly, where the reference overrides or none had been asked for; nothing else changes |
| Dependencies.DependencyManager.DiscoverAll | tools/cli/src/dependency_resolver.hpp:622-643 | Follows the listed dependencies, all of them, in order; does not fail within a closed set |
| Dependencies.DependencyManager.ResolveGraph | tools/cli/src/dependency_resolver.hpp:102-221 | Terminates on every graph; succeeds when all that the root can reach, in any profile, are named libraries with the profiles asked for; lists every manifest the root reaches once, the root last; each was entered by the first reference to it with the profile that one chooses, leads to exactly what it lists under that profile, and ends with that profile unless a later reference replaced it; without cycles dependencies precede dependents; then selects versions |
| Dependencies.ProfileIsChosen | tools/cli/src/dependency_resolver.hpp:543-572 | A profile asked for and missing is refused; otherwise it is the one asked for, else the referrer's if defined, else debug, else the first, or none |
| Dependencies.StaysSettled | tools/cli/src/dependency_resolver.hpp:492-505 | A candidate has the profile of the last overriding reference that came back to it, else, if it was entered without asking, of the first that asked, else the one it was walked with |
| Dependencies.LinkedAt | tools/cli/src/dependency_resolver.hpp:575-605 | A manifest leads to exactly the targets of what it lists under the profile it is walked with |
| DependencyGraph.WalkFinished | tools/cli/src/dependency_resolver.hpp:102-221 | Back at the root, the walk has finished exactly what the root reaches, dependencies first unless there is a cycle |
| DependencyGraph.LeftOk | tools/cli/src/dependency_resolver.hpp:605-619 | Finishing a manifest keeps the order promised so far |

## Left out

- Floating point, strings, arrays, lambdas and closures, properties, globals, natives, casts, overloaded operators and assertions are not in the compiled fragment; it has 64-bit integers and booleans with narrow storage, object references without fields, static calls and exceptions.
- Constructor calls with bodies, field initialisers, abstract-method sentinels, table definitions and static initialisers of the boot sequence: the boot model calls the entry function and halts.
- In the compiler proofs the heap is a trace of allocations, class stamps and count changes answered by an arbitrary allocator; what releasing a reference does to the heap is proved separately, over blocks, and destructors started by compiled code are not followed.
- A `finally` block that a break or continue of its own leaves, `continue` inside a switch, and a `default` that is not last are excluded from the programs in scope.
- An exception thrown inside a finally block that a return has inlined goes to the inner cleanup; the source semantics gives such runs no result.
- Programs whose code reaches 2^32 - 1 bytes: addresses are 32 bits and the last one marks holes.
- Balance.CallBalances: leaves out programs with try or throw, in which the counts do not balance in general (Balance.ThrowGivesUpBorrowed), and those with a reference declared where the block may be left before it, without initialiser, or outside a block, and expression statements of references that are not counted; for each of these there is a run that does not balance.
- RunLoop.Vm.RunBytecode: a budget of zero, which the source takes as none, is left out.
- RunLoop.Vm.ReadLocal: slots above the stack pointer are reported as out of bounds, where the source reads stale cells up to the stack's end.
- RunLoop.Vm.WriteLocal: slots above the stack pointer are reported as out of bounds, where the source writes them.
- RunLoop.Vm.ReleaseSlot: slots above the stack pointer are skipped, where the source would release stale cells.
- RunLoop.Vm.ReturnTop: the stop depth of nested interpreter runs, which destructors use, is not modelled; those runs are the bodies of Arc.
- Assembler.Assembler.CompileNew: classes without constructor or table.
- Assembler.Assembler.CompileSwitch: a default that is not last.
- Assembler.Assembler.CompileTry: a break or continue that leaves the finally block from inside it.
- Assembler.Assembler.CompileBoot: static initialisers, string constants and table definitions of the boot sequence.
- Simulation.SimTry: a finally block that a return has inlined and that throws has no source result, so nothing is claimed there.
- Simulation.SimReturned: finally blocks that throw or leap out of an inlined return have no source result.
- Subtyping.IsAssignable: null, numeric, tuple, array and function-pointer types are left out; with them assignability is not transitive.
- TypeSyntax.LexerState.ScanPunctuation: operators outside type syntax are not told apart.
- Arc.Memory.Store: into an empty slot; overwriting a filled one is Unstore, Store, and the release of what was there.
- Reachability.FreesOnlyUnreachable: for destructors that take references only out of their own object's fields; a body that empties a field of another object changes what is reachable, as WildDestructorFreesTheReachable shows, and then RestUntouched, LeavesExactlyTheReachable and exact counts are what is promised.
- Exceptions that unwind through call sites without a registered cleanup: the fallback search is modelled as it is, but no source construct in scope reaches it.
- Arc.Memory.InvokeDestructor: a body is a list of reference operations, arbitrary for each run; what it computes, and so which list it is, is not modelled, nor are weak slots. A body that finds the heap full ends the run.
- Arc.Memory.Deallocate: over blocks; that the byte-level allocator keeps the same blocks apart is proved on its own.
- TUPLE blocks, which are allocated and freed with different sizes, and counts of 2^28 and more.
- Allocator.Memory.Allocate: after an overflow the memory is not used again; sizes near 2^32, where the top itself would wrap, are required away. Among blocks of one size the first in insertion order is taken, which the C++ standard leaves open.
- WeakSlots.NeverDangles: says nothing about the words that a stale registration may zero; StaleRegistration shows that it happens.
- Symbol, import and alias resolution, template instantiation, and the rest of assignability (null, numeric, tuple, array and function-pointer types), which is not transitive.
- `vtable_index` of a base method that a subclass promotes to a slot: dispatch is stated over the tables. Hierarchies with cycles: reporting them is modelled, the tables built afterwards are not.
- TableBuilder.Binder.CalculateClass: result types of overrides are checked as the source does, but an interface's result type is not compared there either.
- TypeSyntax.LexerState.Tokenize: numbers, literals, comments and the punctuation that types do not use are one token kind of length one, so the tokens of such texts differ from the source's.
- Reading manifests, package look-up and installation: a dependency comes with the manifest it resolves to. `SemVer::parse` is not modelled. Equal versions may come in any order after the source's sort; here they keep their order.
- Re-walking a manifest whose profile is replaced later: as in the source, the edges are those of the profile at discovery.
- The disassembler, code for debugging and logging, the language server, the editor extension, the package tools and the native libraries.

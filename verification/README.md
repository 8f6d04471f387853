# The VORTECH compiler, modelled and verified

VORTECH compiles a small language to x86-64: parsing, lowering to SSA form with Braun's
on-the-fly construction, a handful of optimisation passes, instruction selection with PHI
elimination, linear-scan register allocation, a peephole pass, and direct encoding of machine
code.  This project models that path in Dafny and proves that each stage keeps the meaning of
the program.  Where a stage, as coded, does not, the project gives a program that goes wrong and,
for every stage but the construction of SSA, the condition that says exactly where.

`dafny verify dfyconfig.toml` checks everything.

## How meaning is stated

`Ssa.dfy` gives SSA functions a meaning: a run goes block by block, prints and calls are events,
the outside world answers calls, and a run is at a block, finished with a result, or faulted.
`Refines(f, g)` says that in every world, for all arguments and after any number of blocks, `g`
shows what `f` shows as long as `f` has not faulted.  `Mach.dfy` does the same for machine code
with flags and registers, `Hir.dfy` for the source tree, and `Processor.dfy` for bytes: a processor
that decodes at its instruction pointer, jumps, and keeps a stack.  All values are 64-bit words with
wrap-around; `WordLaws.dfy` says what the operations on them mean without the functions that
compute them.

The passes update an `SsaFunc` or `MachFunc` object in place, as the source does; each method's
contract ties the new contents to a function or relation on the old ones, and lemmas say what
that function preserves.

| stage | files |
|---|---|
| words | `Word64`, `WordLaws`, `Folding` |
| expressions to trees | `Expressions`, `Operators` |
| trees to SSA | `SsaBuilder` with `Draft*`, `BuilderTables`, `BuilderRuns`; `Hir`, `LoweredCode`, `Lowering*` |
| SSA checking and strictness | `SsaVerify`, `StrictSsa` |
| optimisation | `ConstFold`, `FoldConditions`, `CopyProp`, `Rename`, `Sccp`, `Cse`, `CseLeaders`, `Dce`, `Optimizer` |
| selection | `Isel`, `IselShape`, `ParallelCopy`, `IselCorrect`, `IselSimulation`, `IselPrints`, `IselShifts` |
| allocation | `LinearScan`, `RegAlloc`, `Liveness`, `Allocator`, `Prologue` |
| clean-up and emission | `Peephole`, `BackEnd`, `Expand`, `X86`, `Emit`, `Disassembly` |
| running the bytes | `Processor`, `LoadedCode`, `CodeRuns`, `Frames`, `CallProtocol`, `CompiledCode` |
| programs that go wrong | `BuilderDepartures`, `NestedDepartures`, `CseDepartures`, `SelectorDepartures`, `LoopDepartures` |

## What holds, and where it stops

- **Parsing.**  Printing a tree with the fewest parentheses and parsing it gives the tree back;
  printing what was parsed is never longer than the tokens, and is the same exactly when they hold
  no superfluous parenthesis, no comma before a closing one and no call of a call.  A call of a
  call drops the first arguments (src/parser.c:135-151).
- **Building SSA.**  `Builder` has a switch: with `guarded` off it is the code as written.  As
  written, a PHI number is taken back even if later numbers were handed out meanwhile
  (src/ssa_build.c:290-294), and unlinking the first pending PHI drops the ones pushed in front
  of it (src/ssa_build.c:431).  Both happen on ordinary programs: two ifs in a row, a loop
  whose body does not read the variable.  With the two guards on, every completed build is right
  unless it met a variable with no definition on some path.  Guarded or not, a join is told that
  an arm comes from the block where it began (src/ssa_build.c:1019-1020, 1062-1063, 1126), so that an if
  inside an if loses its assignments; the theorems on lowering are about arms without control flow.
- **Constant folding.**  x + 0, x - 0 and x * 1 are replaced by the constant, not by x
  (src/opt_constfold.c:84-95).  The pass keeps meaning exactly as far as no sweep reaches such an
  operation with x unknown, which can be told from the input.
- **Common subexpressions.**  Uses in GEP are not replaced (src/opt_cse.c:116-156), so a GEP may
  be left with the 0 put in place of its pointer; exactly the programs are described in which it is.
- **Selection.**  PRINT becomes a call whose destination field is left 0, so register 0 is lost
  across a print (src/isel.c:288-296); an arithmetic right shift becomes a logical one; a branch
  gets its PHI copies wrong when both targets are the same block and need copies, or both targets
  need copies and the taken one is laid out later; the copies of one edge are run one after the
  other, which is right exactly when none reads what an earlier one wrote; a loop that swaps two
  variables is one where they do.
- **Allocation.**  Intervals run from first to last occurrence in layout order and ignore jumps
  back (src/regalloc.c:11-90).  They are right exactly when they span every loop a value stays
  live around; an ordinary counting loop is one where they do not.
- **Expansion.**  An x86 two-operand sequence computes its three-operand instruction for all
  register contents if and only if the copy spares the right operand, unary instructions work in
  place and immediates fit; allocated code always meets the first.
- **Bytes.**  For code without calls, prints, divisions and shifts, with at most six parameters, no
  spills and intervals that span the loops, the chain is closed: the bytes of a function, called with
  its arguments in RDI, RSI, RDX, RCX, R8 and R9 and anything in the other registers, come back to the
  caller if and only if the SSA function ends, as long as it does not fault: with its result in RAX,
  the stack pointer above the return address, and RBX, RBP, R12 to R15 and the stack above as they were.

Where the source's comments promise more than its code does (copy propagation cleaning up after
the folder, dead-code elimination after common subexpressions), the model follows the code.

## Model

| member | source | states |
|---|---|---|
| Expressions.Parser.Primary | src/parser.c:99-244 | literals, names, calls, parentheses and prefix operators are read as the recursive grammar says, for every token list |
| Expressions.Parser.Calls | src/parser.c:128-173 | the loop behind a name reads call after call as the grammar says |
| Expressions.Parser.Args | src/parser.c:136-151 | the argument loop reads up to the closing parenthesis or the first argument without a comma behind it |
| Expressions.Parser.Prec | src/parser.c:281-301 | the precedence-climbing loop computes the grammar's climb, for every token list and every starting precedence |
| Expressions.Parser.ParseExpr | src/parser.c:303-305 | an expression is read at the lowest precedence |
| Expressions.ParseShow | src/parser.c:99-301 | printing any tree with the fewest parentheses and parsing the tokens, in any context not continued by an operator or an opening parenthesis, gives the tree back |
| Expressions.ShowParse | src/parser.c:99-301 | for all tokens parsed without an error: printing the tree is never longer, and gives the tokens back if and only if every group holds an operator its place would not let stand bare, no argument list ends in a comma and no call is called |
| Operators.OperatorsGroup | src/parser.c:247-269 | with the ten levels listed from loosest to tightest: for all operators j and k and all operands, the tokens a j b k c are read as (a j b) k c if j's level is the tighter or the same, and as a j (b k c) otherwise |
| Operators.PrefixesRead | src/parser.c:203-238 | the signs `!`, `-`, `~`, `*` and `&` before any operand are read as negation, minus, complement, dereference and address |
| Expressions.CallOfCall | src/parser.c:135-151 | the second of two calls in a row replaces the arguments of the first |
| SsaBuilder.Builder.ReadVar | src/ssa_build.c:228-370 | finds the register that carries a variable at the end of a block, keeps the whole invariant of the construction, and leaves the tables the recursive lookup function leaves, as written or guarded |
| SsaBuilder.Builder.SealBlock | src/ssa_build.c:377-436 | sealing completes the block's pending PHIs, keeps the invariant, and leaves the tables of the functional description, including the in-place walk over a list that grows under it |
| SsaBuilder.Builder.CompletePhi | src/ssa_build.c:384-434 | completing one pending PHI gives it an operand per predecessor and shrinks what is left to do |
| SsaBuilder.Builder.ReadVarCurrent | src/ssa_build.c:372-374 | the register read in the current block carries the variable at that point |
| SsaBuilder.Builder.WriteVar | src/ssa_build.c:208-222 | the script of the current block gains exactly this write |
| SsaBuilder.Builder.EmitInst | src/ssa_build.c:439-461 | the current block gains exactly this instruction, whose register must be new |
| SsaBuilder.Builder.AddPred | src/ssa_build.c:79-87 | the block's predecessor list gains exactly this block |
| SsaBuilder.Builder.Finish | src/ssa_build.c:1321-1323 | the blocks are the function the finished draft describes, and once all blocks are sealed nothing is pending |
| BuilderTables.Lookup | src/ssa_build.c:228-370 | lookup as a recursive function on the tables, as written and guarded, with its termination measure |
| BuilderTables.CompleteAt | src/ssa_build.c:396-431 | completing an entry keeps the tables' shape and strictly shortens the rest of the list |
| BuilderRuns.ReadsAreRight | src/ssa_build.c:228-436 | in every run of a function built on sealed blocks, as far as it goes, each read gets the value last written on the path taken and every PHI finds its operand |
| BuilderRuns.BuiltOnce | src/ssa_build.c:173-175 | the function built defines every register once and no parameter again |
| SsaBuilder.TakeBackExact | src/ssa_build.c:290-294 | once the predecessors are read, the last number handed out is the PHI's own, and nobody else's, if and only if nothing was numbered meanwhile |
| BuilderDepartures.NumberTakenBack | src/ssa_build.c:279-295 | two ifs in a row, built from the empty entry block on: the source returns 12; as written a PHI number is reused, a register is defined twice and the program returns 14; guarded it returns 12 |
| BuilderDepartures.PendingLost | src/ssa_build.c:427-432 | a loop whose body does not read the variable, built likewise: as written the body's pending PHI is dropped, and entering the body faults; guarded it goes round, as the source does |
| NestedDepartures.NestedIfForgets | src/ssa_build.c:1023-1066 | an if inside an if, built likewise: as written or guarded, the inner assignment is lost |
| Lowering.BuildExpr | src/ssa_build.c:476-762 | any expression of the modelled grammar is lowered to code that stands where the description says and whose register is the result |
| Lowering.BuildAnd | src/ssa_build.c:508-595 | a short-circuit conjunction becomes a test, two ways and a PHI of the two results |
| Lowering.BuildOr | src/ssa_build.c:597-680 | likewise for disjunction |
| LoweringStmts.BuildIf | src/ssa_build.c:946-1068 | an if without else, whose then-block is recorded as a predecessor of the join even when it does not jump there |
| LoweringStmts.BuildIfElse | src/ssa_build.c:946-1068 | an if with both arms, neither of them empty |
| LoweringStmts.BuildWhile | src/ssa_build.c:1069-1137 | a loop: header, body, jump back, and the header sealed only then |
| LoweringStmts.BuildFn | src/ssa_build.c:1268-1323 | a whole function is lowered as described, or ends in an empty block, which the code then leaves without a return |
| LoweringRuns.LoweringAgrees | src/ssa_build.c:476-1323 | for every function, world, arguments and fuel: what the source returns, prints or calls the built function returns, prints and calls; where the source faults it faults; where the source goes on so does it |
| LoweringRuns.CompoundMeans | src/ssa_build.c:887-901 | for every store in which x is defined: `x += e`, `-=`, `*=`, `/=` leave the wrapped sum, difference, product and quotient rounded to zero of x and the value of e, and division faults by zero and on the one overflow |
| LoweringRuns.CompoundBuilt | src/ssa_build.c:887-901 | so does the built function: one that ends in such an assignment and returns the variable finishes with that value, or faults |
| LoweringRuns.LoweringExact | src/ssa_build.c:476-1323 | the built function finishes with a result and trace if and only if the source does |
| LoweringRuns.Translate | src/ssa_build.c:1268-1323 | the guarded builder, run on any function of the modelled language, gives a function that agrees in every run unless a variable was undefined on some path or the last block was left empty |
| SsaVerify.VerifyFunc | src/ssa_verify.c:175-191 | accepts exactly the functions whose blocks end in one terminator and whose operands and targets are in range |
| SsaVerify.VerifyBlock | src/ssa_verify.c:13-173 | accepts exactly the well-formed blocks |
| SsaVerify.AcceptedIsInBounds | src/ssa_verify.c:42-160 | what is accepted can index the per-register tables, GEP pointers and parameters apart, which are not looked at |
| Cse.StrictGivesLocalOrder | src/opt_cse.c:68-165 | in strict SSA with every block reachable no instruction but a PHI reads what its own block defines there or later |
| WordLaws.ArithmeticLaw | src/opt_constfold.c:30-44 | sums, differences and products are the integer ones modulo 2^64; minus and complement are what adds up to 0 and -1; logical negation tells zero from the rest |
| WordLaws.ComparisonLaw | src/opt_constfold.c:46-56 | the six comparisons give 1 or 0 by the signed order |
| WordLaws.DivisionLaw | src/opt_constfold.c:30-44 | division and remainder fault on the same operands and otherwise are the quotient rounded to zero and the remainder with the sign of the dividend |
| WordLaws.BitsLaw | src/opt_constfold.c:30-44 | and, or and exclusive or work bit by bit |
| WordLaws.ShiftLaw | src/opt_constfold.c:30-44 | a left shift multiplies by a power of two modulo 2^64, a right shift divides by it rounding down |
| WordLaws.FoldingLaw | src/opt_constfold.c:30-44 | folding gives 0 for a remainder by zero and, in the folder but not in SCCP, for a quotient by zero |
| ConstFold.IsConstVal | src/opt_constfold.c:13-27 | finds the constant that defines a register if and only if some CONST does |
| ConstFold.VisitInst | src/opt_constfold.c:69-124 | one visit rewrites the instruction as the arms say and reports a change only for a constant arm |
| ConstFold.OptConstFold | src/opt_constfold.c:57-128 | the pass computes the function of at most ten sweeps, with the early stop |
| ConstFold.FoldExact | src/opt_constfold.c:72-123 | folding one operation is right in every environment exactly when it is not an identity arm |
| ConstFold.FoldCorrect | src/opt_constfold.c:57-128 | the pass keeps SSA form, only simplifies, and keeps meaning while no identity arm is taken |
| FoldConditions.CleanExact | src/opt_constfold.c:57-128 | no identity arm is taken in the run if and only if no sweep reaches x + 0, x - 0 or x * 1 with x unknown, where what is known is defined inductively on the input |
| FoldConditions.SafeFoldCorrect | src/opt_constfold.c:57-128 | on such inputs folding keeps meaning |
| FoldConditions.IdentityGoesWrong | src/opt_constfold.c:82-94 | for each of the three operations a well-formed function that the pass makes return another value |
| CopyProp.CollectCopies | src/opt_copyprop.c:14-42 | the table maps exactly the results of one-operand PHIs to their operands |
| CopyProp.Resolve | src/opt_copyprop.c:44-56 | the in-place resolution leads every register along its copies, to the end of the chain whenever chains end within the depth cap |
| CopyProp.ReplaceAll | src/opt_copyprop.c:59-105 | every operand is replaced by its table entry and nothing else changes |
| Rename.RenamesPreserves | src/opt_copyprop.c:59-105 | for any renaming along chains of copies or repeated operations that make registers equal, replacing the operands keeps the meaning of strict SSA; CopyProp.RedirectionCorrect applies it to the table the pass builds |
| CopyProp.RedirectionCorrect | src/opt_copyprop.c:107-132 | replacing along the resolved table of the pass keeps strict SSA and its meaning |
| CopyProp.OptCopyProp | src/opt_copyprop.c:107-132 | the pass keeps strict SSA and its meaning, and leaves no reader of a copy when chains end within the depth cap |
| Sccp.VisitInst | src/opt_sccp.c:68-193 | one visit puts the transfer function's value in the cell of the destination and reports whether the lattice changed |
| Sccp.Pass | src/opt_sccp.c:60-195 | a pass only lowers the lattice, stays above every fixpoint's truth, and ends at a fixpoint when it changes nothing |
| Sccp.MeetExact | src/opt_sccp.c:153-180 | the meet of a PHI is Bottom exactly if an operand is or two constants differ, Top exactly if every operand is, and otherwise the constant they share |
| Sccp.Solve | src/opt_sccp.c:33-195 | at most 2n + 2 passes for n registers, a fixpoint whenever the cap of 1000 did not stop it, and no optimistic fixpoint knows a constant it does not |
| Sccp.FixpointIsSound | src/opt_sccp.c:56-195 | at a fixpoint every cell agrees with every value its register takes in any run |
| Sccp.RewritePreserves | src/opt_sccp.c:197-222 | replacing constants and decided branches according to a fixpoint keeps meaning |
| Sccp.OptSccp | src/opt_sccp.c:25-225 | the pass rewrites along the greatest fixpoint and keeps meaning, for every function whose fixpoint the cap does not cut off |
| Cse.VisitInst | src/opt_cse.c:68-165 | the hash table, kept exact by every visit, finds just what a linear search of the block would |
| Cse.OptCse | src/opt_cse.c:46-181 | the pass with its hash table computes the function defined by linear search |
| CseLeaders.CseEliminates | src/opt_cse.c:99-166 | an instruction is eliminated exactly when an earlier one of its block, itself kept, has the same key once eliminated operands are counted as their replacements |
| CseLeaders.UnreadExact | src/opt_cse.c:112-163 | no thrown-away result stays in use if and only if no GEP takes its pointer from an eliminated instruction |
| CseLeaders.CseCorrect | src/opt_cse.c:46-181 | on strict SSA under that condition the pass keeps strict SSA and its meaning |
| CseDepartures.CseForgetsGep | src/opt_cse.c:112-163 | a sound program that the pass makes print 0 instead of minus its argument |
| Dce.MarkUsed | src/opt_dce.c:14-76 | exactly the registers some instruction reads are marked |
| Dce.Compact | src/opt_dce.c:111-133 | compaction in place keeps the instructions with effects, without destination or with a used one, in order |
| Dce.OptDce | src/opt_dce.c:93-137 | the result is at most ten rounds, after which every result that is merely computed is read by somebody, unless each of ten rounds removed something |
| Dce.DceOncePreserves | src/opt_dce.c:93-137 | one round keeps meaning |
| Dce.DceIterCorrect | src/opt_dce.c:93-137 | any number of rounds keep meaning, strict SSA, order and reachability |
| Optimizer.OptimizeO2 | src/main.c:244-265 | the passes run in this order, each doing what its own contract says; the verifier accepts what they make of strict SSA, and the result means the same if the input is safe for the folder and small enough for SCCP's cap |
| Isel.CollectEdges | src/isel.c:345-386 | every edge that needs PHI copies is listed once, with its copies in order |
| Isel.MachFunc.Place | src/isel.c:389-499 | the copies of one edge go before the jump, or into a block of their own on a conditional edge |
| Isel.IselSelect | src/isel.c:56-506 | the machine function is the lowered blocks with the copies of every edge placed |
| IselShape.SelectionExact | src/isel.c:389-499 | after PHI elimination the edges of a block carry their copies if and only if its branch has no copies on the taken edge, or two targets of which, if both need copies, the taken one has the lower number |
| ParallelCopy.SequenceIsParallel | src/isel.c:433-437 | copies without conflict, run in sequence, are the parallel assignment a PHI means |
| ParallelCopy.SequenceExact | src/isel.c:433-437 | copies run in sequence are the parallel assignment for all register contents if and only if none reads what an earlier one wrote |
| SelectorDepartures.SwapGoesWrong | src/isel.c:433-437 | a loop that swaps two variables passes the verifier and is selected to code that never ends where the program returns |
| SelectorDepartures.PickGoesWrong | src/isel.c:389-499 | a branch with copies on both edges, the taken target laid out later, passes the verifier and is selected to code that returns a register never written |
| IselCorrect.ShiftExact | src/isel.c:155-159 | the logical and the arithmetic right shift agree if and only if the value is not negative or the count is a multiple of 64 |
| IselSimulation.SelectionSimulates | src/isel.c:56-506 | the selected code passes through everything a run shows, each SSA block taking one or two machine blocks, if no path reads register 0 after a PRINT without defining it again and no negative value is shifted right |
| IselPrints.PrintsExact | src/isel.c:288-296 | when register 0 is read only where its value shows, the selected code is right if and only if no run reads it after a PRINT without defining it again |
| IselPrints.PrintTimesExact | src/isel.c:288-296 | a function that prints register 0 k times is selected correctly exactly for k at most 1 |
| IselShifts.ShiftProgramExact | src/isel.c:155-159 | a function that returns its argument shifted right by n is selected correctly exactly when n is a multiple of 64 |
| RegAlloc.ComputeLiveIntervals | src/regalloc.c:11-74 | the interval of every register runs exactly from its first mention, or from the start for a parameter, to its last |
| RegAlloc.Sort | src/regalloc.c:93-98 | the intervals come in strictly increasing order of start and register, none lost |
| LinearScan.Scanner.Expire | src/regalloc.c:175-188 | exactly the intervals that ended leave the active list and free their registers |
| LinearScan.Scanner.FindFree | src/regalloc.c:190-197 | the lowest free register, or none if all are taken |
| LinearScan.Scanner.FurthestEnd | src/regalloc.c:212-220 | the active interval, parameters apart, that ends furthest beyond the current one |
| LinearScan.Scanner.Place | src/regalloc.c:190-238 | the interval gets a register, a slot, or the register of an evicted one that ends later, and the invariant of the scan is kept |
| LinearScan.Scanner.Run | src/regalloc.c:141-239 | no two overlapping intervals share a register, slots are all different, only registers of the allocatable list are given out, parameter registers go to nobody else, and until something spills each interval has the lowest register free |
| RegAlloc.AllocationPreserves | src/regalloc.c:267-289 | if the intervals cover liveness, rewriting to the assigned registers keeps every run |
| RegAlloc.ForwardCovers | src/regalloc.c:11-90 | without jumps back the intervals cover liveness |
| Liveness.CoversExact | src/regalloc.c:11-90 | the intervals cover the liveness of the code's paths if and only if at every jump back each register live into the target and possibly written by then has an interval from the target's start to the jump |
| Liveness.LoopsAllocated | src/regalloc.c:100-289 | registers with disjoint intervals are right for code whose intervals span its loops |
| LinearScan.AllListed | src/common.h:399-403 | the list of allocatable registers holds every general-purpose register but the stack and base pointers |
| Allocator.LinearScanAllocate | src/regalloc.c:100-265 | the whole allocator: no double booking, first fit while nothing spills, parameters kept apart, never the stack or base pointer, exactly the used callee-saved registers reported, the frame size in whole 16 bytes, and the meaning kept when nothing spilled and intervals span the loops |
| Allocator.MeasureFrame | src/regalloc.c:241-258 | the registers reported as used are exactly the callee-saved ones some vreg has, and the frame has room for all slots and saves, each rounded up to 16 bytes |
| LoopDepartures.LoopSelected | src/isel.c:56-506 | a counting loop is selected to the code whose allocation goes wrong |
| LoopDepartures.LoopGoesWrong | src/regalloc.c:11-265 | whatever satisfies the allocator's contract on that code gives the limit's register to the loop body, and the loop returns 1 instead of 2 |
| LoopDepartures.AllocateLoop | src/regalloc.c:100-265 | the allocator itself returns that assignment |
| Prologue.ParamsArrive | src/emit.c:769-779 | the parameter moves in sequence put each argument in its parameter's register |
| Allocator.AllocatedParamsArrive | src/emit.c:769-779 | so they do for what the allocator returns |
| Peephole.PeepholeRun | src/peephole.c:14-90 | the pass computes at most five sweeps of windows and compaction |
| Peephole.PeepholePreserves | src/peephole.c:14-90 | it keeps every register, event and result at the end of every block of every run, flags being dead where it changes them |
| Peephole.NoNops | src/peephole.c:76-88 | a sweep leaves no NOP in a block |
| Peephole.SelectionAdjacent | src/isel.c:163-254 | in selected code every reader of flags stands directly behind the compare or test it reads |
| Expand.ExpandExact | src/emit.c:809-1056 | an instruction's x86 sequence computes it for all register contents if and only if the copy spares the right operand, a unary instruction works in place and the immediate fits |
| Expand.AllocatedExpands | src/emit.c:809-1056 | allocation never makes the copy destroy a right operand that was a different register |
| BackEnd.SelectedExpands | src/emit.c:809-1056 | so every arithmetic instruction of selected and allocated code expands correctly |
| BackEnd.BackEndCorrect | src/main.c:267-297 | selection, allocation and peephole together, for code without calls, prints, divisions and shifts: every run of the SSA function shows on the final code, started with anything in the other registers |
| X86.EncodeRound | src/emit.c:331-655 | decoding the bytes of any modelled instruction, whatever follows, gives the instruction and its length back |
| Emit.PatchAll | src/emit.c:1332-1341 | patching the 32-bit fields after the fact gives the bytes that knowing all labels beforehand would have given |
| Emit.Emitter.EmitFunc | src/emit.c:1295-1345 | the emitter's buffer ends as the assembled function with every branch resolved to its label |
| Disassembly.EmittedDisassembles | src/emit.c:1295-1345 | the bytes of a function disassemble to exactly its instructions at exactly their offsets |
| Disassembly.JumpsLand | src/emit.c:1332-1341 | in code shorter than 2 GB every branch lands on the first instruction of its target block |
| Processor.RegisterNumbers | src/emit.c:745-797 | the compiler's RAX, RSP and RBP are the registers the encoding numbers 0, 4 and 5, with the bytes of the prologue's and epilogue's own instructions written out |
| CodeRuns.SameCondition | src/emit.c:1129-1152 | whatever the flags, the emitted jump is taken if and only if the machine instruction's is |
| CodeRuns.ResultInRax | src/emit.c:1216-1222 | what stands before the epilogue of a RET leaves the source's value in RAX and everything else as it is, from whatever the registers hold |
| CodeRuns.BlockRuns | src/emit.c:809-1224 | from any instruction of a block, with the machine's registers and flags, the bytes go to the label the machine goes to with the same registers, or to the epilogue with its result |
| CodeRuns.BytesFollow | src/emit.c:1295-1345 | over whole runs the bytes get to every block the machine gets to, with its registers, in at least as many steps |
| Frames.SavedAre | src/emit.c:762-767 | the prologue saves exactly the used ones of RBX and R12 to R15, each once |
| CallProtocol.PrologueRuns | src/emit.c:745-780 | from any call with room on the stack the prologue sets up the frame, saves those registers, and moves the parameters |
| CallProtocol.EpilogueRuns | src/emit.c:782-798 | from a standing frame the epilogue restores the saved registers and returns to the caller |
| CallProtocol.FunctionServes | src/emit.c:1295-1345 | the whole function, called: its bytes pass through every block of the machine's run and come back with its result, the caller's registers and stack kept |
| CallProtocol.FallsOff | src/emit.c:1328-1330 | control that runs off the last block returns 0 |
| CompiledCode.ParamsBound | src/emit.c:769-779 | behind the prologue every argument is in its parameter's register |
| CompiledCode.BytesCorrect | src/main.c:267-312 | strict SSA, selected, allocated, tidied and emitted: called with any arguments, the bytes get to the code of every block the function gets to and come back with its result |
| CompiledCode.ReturnsExactly | src/main.c:267-312 | where the function does not fault, its bytes return if and only if it ends |
| CompiledCode.CompileFunction | src/main.c:267-312 | the driver: selection, allocation, rewriting, peephole and emission in turn append such bytes whenever nothing is spilled and the intervals span the loops |

## Left out

- LoweringRuns.LoweringAgrees: for functions whose `if` and `while` bodies hold only lets, assignments, prints and expressions, and whose right operands of `&&` and `||` and loop conditions hold no short-circuit operator themselves; on nested control flow it is false, as NestedDepartures.NestedIfForgets shows.  `for`, early return, `break` and `continue` are not lowered in the model.
- LoweringStmts.BuildIfElse: takes arms that are not empty; behind an empty arm of an if with else the code puts no jump, and the block stays without a terminator.
- Lowering.BuildCall: a call of `print` is modelled as a statement only; elsewhere it gives no value.
- SsaBuilder.TakeBackExact: is about the moment the number is taken back; which source programs come to it is not characterised, nor which come to lose a pending PHI.
- LoweringRuns.Translate: says nothing of a function in which a variable is undefined on some path, where the code goes on with an invalid register, nor of one whose last block stays empty.
- Sccp.OptSccp: meaning is kept for up to 499 registers; above, the cap of 1000 passes may stop the solver short of a fixpoint, and the rewrite then has no justification.
- Optimizer.OptimizeO2: takes strict SSA without GEP and with every block reachable, and that the builder makes such functions is not proved; for GEP the exact condition is CseLeaders.UnreadExact, stated for the function CSE is given.
- IselSimulation.SelectionSimulates: takes branches and copies the selector gets right, as IselShape.SelectionExact and ParallelCopy.SequenceExact delimit them, and PHI operand lists without repeated predecessors.
- IselPrints.PrintsExact: the other half is for functions that read register 0 only where it shows; an unseen read of a spoiled register does no harm.
- RegAlloc.AllocationPreserves: for the register-only instructions; calls, division and shifts use fixed machine registers that the allocator does not set aside.
- Allocator.LinearScanAllocate: nothing is claimed of the meaning when something is spilled; slots are assigned but no loads and stores are generated by the allocator.
- Expand.ExpandExact: calls, division, shifts, LEA and spilled operands are not expanded in the model.
- BackEnd.BackEndCorrect: takes selected code without calls, prints, divisions and shifts, so that no run shows an event.
- CompiledCode.BytesCorrect: under the conditions of BackEnd.BackEndCorrect, for at most six parameters (the code never loads a seventh), frames and code below 2 GB and a stack with room for the frame.
- Processor.Execute: words on the stack are whole eight-byte cells, and a push loses the cells it overlaps; bytes are not writable, and flags other than the two operands last compared are unspecified.
- SsaVerify.AcceptedIsInBounds: leaves out GEP pointers and parameters, which the verifier does not check.
- Expressions.ParseShow: indexing, member access, `alloc`, `sizeof`, casts, string and float literals and assignment are not in the modelled grammar; nor is a context that begins with `[` or `.`.
- Memory: LOAD, STORE, ALLOC, FREE and structs, at every stage; the passes' cases for them are not modelled.
- Widths: every value is a 64-bit integer; narrow types, floats, strings and type checking are not modelled.
- Compile-time shifts by 64 or more and MIN / -1, which C leaves undefined, are given the values the processor gives shifts and the wrapped quotient.
- Register and block numbers are unbounded; the wrap-around of 32-bit counters is not modelled, nor are arenas, reallocation and out-of-memory exits.
- Loop-invariant code motion and unrolling (src/opt_licm.c, src/opt_unroll.c), which change nothing in the functions modelled.
- The lexer, declarations and statements of the parser, scopes and type inference of src/hir_build.c.
- The ELF file, symbols, relocations, the print routine and the moves of call arguments in src/emit.c; spill slots are room in the frame that no modelled instruction uses.
- Diagnostics and textual dumps of the intermediate forms.

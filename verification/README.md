# devils_script: the compiler back end and its stack machine

devils_script compiles small scripts into a flat array of commands for a stack machine.
This project models the parts whose correctness is not visible from one function: the
lowering of blocks to jumps and absolute stack slots, the peephole that rewrites and
renumbers the emitted commands, script-in-script calls, list pipelines, the search for
implicit conversions and overloads, constant folding, and the way from events to flat trees
to normalised blocks.

How the files fit together:

- `Machine.dfy` is the machine. A command is an operation with one argument; jump targets,
  packed pairs and iterator data slots are numbers in that argument, as in the program.
  `Run` executes a range of commands and calls back into sections. A run may be *watched*:
  then it ends off the model as soon as a stack differs from the types the compiler
  predicted for that command.
- `Optimizer.dfy` says what each phase of the peephole computes; `OptimizeCommands.dfy` is
  the pass as it runs, over flag arrays and vectors, proved equal to it. `Simulation.dfy`,
  `Transforms.dfy`, `Streams.dfy`, `Compaction.dfy`, `Relocation.dfy` and `Peephole.dfy`
  prove that the optimised commands run like the original ones, from every entry to every
  bound, callback sections included, and that the pass accepts its own output.
  `DescriptionSpans.dfy` says what becomes of everything that rides along with the commands,
  and `PeepholeLeaves.dfy` what the pass may not touch and what it leaves nothing of.
  `Sections.dfy` says where callback sections lie.
- `Lowering.dfy` defines script expressions, what they mean (no stack, no jumps), and the
  structured code they are lowered to. `Blocks.dfy` flattens structured code, resolving
  labels, and proves that flat commands do what structured code says and find the stack the
  compiler predicted. `LoweringTyped.dfy` and `LoweringMeans.dfy` prove the stack model and
  the meaning for every construct; `MeaningLaws.dfy` says of the meaning, on plain values,
  which case, clause or child runs, what converts to what, and what is left where nothing is. `Emission.dfy` shows the emitted tables are what the
  peephole requires; `Compile.dfy` puts both halves together; `Streaming.dfy` does it for
  any number of rows, each followed by the peephole over everything.
- `Emitter.dfy` is the generator as it runs: it appends commands, keeps a type stack, and
  backpatches labels (`Patching.dfy`). `PartialRows.dfy` is a row while it is being emitted,
  step by step; `Parse.dfy` is a streamed row, the rollback of one rejected after any of its
  steps, and the loop over a whole stream.
- `RandomChoice.dfy` and `Answers.dfy` treat `random` over the reals. `ImplicitBlocks.dfy` is
  the block the generator makes of plain braces by adding up or multiplying its children,
  whatever their types, with the registry of conversions around it (`SameCode.dfy`: the code
  of an expression depends on the height of the stack below, not on its types).
  `BlockLimits.dfy` is a nullable scope among effects. Where such blocks do not do what the
  generator believes, the exact condition is proved.
- `ListPipelines.dfy` is the list-pipeline opcode: its loops over a mutable context, against
  plain functions on sequences. `ListRuns.dfy` proves that the same pipelines, given to the
  machine as its native part, end the same way. `ListSections.dfy` proves that the callback
  sections the generator emits are what the loops ask for. `ListAnswers.dfy` says what the
  plain functions are, from answers given as reals and booleans.
- `Frames.dfy` defines calls between scripts, `FrameSafety.dfy` and `FrameCalls.dfy` prove
  isolation, capacity, list binding and unwinding over any call tree. `FrameReads.dfy` proves
  that a run reads nothing below its frame, and what every local opcode reads and writes.
  `NestingLimit.dfy` says which trees can lose lists at the nesting limit, and `Contexts.dfy`
  is the mutable context whose methods do it.
- `Conversions.dfy` is the shortest-path search, `Overloads.dfy` the choice of an overload,
  and `Folding.dfy` the constant folder against the code and the overload it replaces;
  `FoldingAgrees.dfy` proves where folding goes unnoticed, and `FoldingValues.dfy` what a
  folded constant is: nested integer arithmetic modulo 2^64, the other operators over the reals.
- `Pratt.dfy` is the expression parser, a cursor over events that builds flat prefix trees,
  with a printer and the round trips between them; `Operators.dfy` says how the built-in
  operators group. `Normaliser.dfy` turns those trees into the blocks the generator reads:
  sizes are patched in place, and the result spells one forest. `NormalForm.dfy` defines that
  forest and, by itself, which scripts have one and what the blocks must say. `Descriptions.dfy` is the description array: how it is appended, indexed and walked.

Results worth knowing before reading the proofs:

- Fusing a run of erases is right exactly when every erased slot exists
  (`Transforms.FusionExact`); with slots outside the stack the two forms differ
  (`Transforms.FusionOutsideStack`).
- A description still spans the commands it spanned, as far as they survive the peephole; one
  whose range keeps none becomes empty, unless nothing before it is kept either, when it names
  the first command (`DescriptionSpans.OptimizedSpans`).
- `scope ?= { ... }` in an effect block leaves one extra slot when the handle is invalid, and
  is balanced exactly when it is valid (`BlockLimits.VoidGuardBalance`, at an input
  `BlockLimits.VoidGuardLeaks`).
- An integer block folded by `fold_block` uses the floating-point addition, whose result is a
  double in the instruction table. Of integers, one alone without a condition works; every
  other block is taken where an integer is expected if and only if the registry converts
  doubles to integers, which the default one does not (`ImplicitBlocks.IntegerFoldTaken`).
  What such a block does when it runs (`ImplicitBlocks.IntegerFoldEnds`): with a condition
  on some child it raises a type mismatch at the first child whose condition holds, and
  when none holds leaves the integer it started on where the generator believes a double;
  without, its first two children raise a type mismatch. Inputs are
  `ImplicitBlocks.GuardedBlockFails` and `ImplicitBlocks.NarrowedBlockFails`.
- A floating-point block means the sum or product of its children exactly when no truth value
  stands in front of a block without conditions (`ImplicitBlocks.FirstOkExactly`). Such a
  truth value is left unconverted. Alone it is typed as one, counts as a number where an
  argument converts it, and is rejected where only the default registry would
  (`ImplicitBlocks.BoolAlone`); with a second child the block is taken for a double and raises
  a type mismatch when it runs (`ImplicitBlocks.BoolFirstFails`, at an input
  `ImplicitBlocks.BoolAndTwoFails`).
- The generator's own type stack is recorded beside the run-time one at every command. Outside
  `switch` and `random` the two are equal. In `switch` the generator's is one value short at
  the jump behind the value of a case, at the second erase of the case value, and at the erase
  of the value switched on; in `random` at the jump behind the value of a branch and at the
  erases of roll and weights; without values only at the second erase of a case
  (`Emitters.Emitter.EmitExpr`, `Emitters.Emitter.EmitCase`, `Emitters.Emitter.EmitBranch`,
  `Emitters.Emitter.EmitErases`, `Emitters.OwnStack`). The reported peak is still the true one.
- A call refused by the nesting limit leaves its list frame behind
  (`FrameCalls.RefusedCallLeaks`). Every call around it counts its lists from the end of the
  vector when it unwinds, so its bound lists come back shifted by the lists of the refused
  script; bases, arguments, saved values, depth and return value are restored all the same
  (`FrameCalls.CallUnwinds`, `FrameCalls.UnwoundLists`). Whether that can happen is read off
  the scripts before the call: if no script with lists can be met at the limit below it, and
  so in any tree no higher than what is left of the limit, every failure gives the lists back
  in place (`NestingLimit.UnwoundInPlace`); where the tree does not branch the condition is
  exact (`NestingLimit.LosesExactly`). A chain of 129 calls to a script with one list keeps
  that list, a chain of any other length does not (`NestingLimit.ChainKeepsList`).
- Folding a constant preserves type and value (`Folding.FoldingRefines`), but not the cost
  that overload choice weighs: with overloads on mixed types a call may be ambiguous folded
  and unique unfolded (`Folding.FoldingDecidesOverload`). Where operators keep their built-in
  candidates and a consumer's names have one each, folding goes unnoticed in any expression:
  it compiles folded if and only if it compiles unfolded, to the same type and the same value
  (`FoldingAgrees.FoldingUnnoticed`).
- Parsing a printed script gives it back exactly when every subtree may stand where it does
  (`Pratt.PrintParseExactly`); with parentheses added only where needed it always does
  (`Pratt.RoundTrip`). Both ask of the operator table one associativity for every precedence, as
  the built-in operators have (`Pratt.BuiltinRegular`).
- A normalised script has one block per row (`Normaliser.OrdinaryCount`), except that a row
  calling the reserved name `__empty_lvalue` on arguments leaves one block per argument
  (`Normaliser.RowsCount` says how many for any rows).
- A branch of `random` with weight zero can run, exactly when it is the first and the scaled
  roll is zero (`RandomChoice.ZeroWeightRuns`).

## Model

| member | source | states |
|---|---|---|
| OptimizeInPlace.ParseTables.RecordDataSlots | src/optimizer.cpp:38-41 | a block of data slots is recorded, consecutive from the first |
| OptimizeInPlace.MarkEntries | src/optimizer.cpp:66-83 | exactly the recorded targets, the commands behind data slots, the start and the end are marked |
| OptimizeInPlace.DropDeadPushes | src/optimizer.cpp:111-128 | the in-place loop over keep flags and descriptions computes the specified flags |
| OptimizeInPlace.FuseRuns | src/optimizer.cpp:134-153 | the in-place loop rewrites and drops exactly the erases the specification fuses |
| OptimizeInPlace.DropFallThroughJumps | src/optimizer.cpp:159-166 | exactly the unobserved jumps onto the next surviving command are dropped |
| OptimizeInPlace.ThreadBranches | src/optimizer.cpp:172-196 | recorded branches get the target their chain of jumps ends at |
| OptimizeInPlace.RelocateFields | src/optimizer.cpp:241-262 | compacted commands are patched, and surviving fields renumbered, as specified |
| OptimizeInPlace.OptimizeCommands | src/optimizer.cpp:47-282 | the whole pass turns container and tables into what the specification makes of them, or does nothing when switched off |
| Transforms.DropPushSound | src/optimizer.cpp:96-128 | dropping one dead context push and its unwind preserves every run between entries |
| Transforms.DropPushesSound | src/optimizer.cpp:111-128 | the same for all recorded pushes in turn |
| Transforms.EraseSeqIsRemoved | src/context.cpp:61-70 | a repeated or descending series of erases removes one contiguous range |
| Transforms.FuseErasesSound | src/optimizer.cpp:130-153 | fusing erase runs preserves every run between entries |
| Transforms.FusionExact | src/optimizer.cpp:145-149 | one fused erase equals the run it replaces if and only if all slots exist |
| Transforms.FusionOutsideStack | src/context.cpp:50-70 | with a slot outside the stack the fused and the unfused form differ |
| Transforms.DropJumpsSound | src/optimizer.cpp:155-166 | dropping fall-through jumps preserves every run |
| Transforms.ThreadJumpsSound | src/optimizer.cpp:168-196 | threading branches past chains of jumps preserves every run between entries |
| Compaction.RelocNamesNext | src/optimizer.cpp:202-222 | a relocated index names the first survivor at or after its target |
| Compaction.RelocLastNamesPrevious | src/optimizer.cpp:203-222 | a relocated inclusive end names the last survivor at or before it |
| Compaction.CompactPatched | src/optimizer.cpp:224-262 | after compaction every surviving recorded field holds its relocated target |
| Relocation.CompactionSound | src/optimizer.cpp:198-281 | compacted and renumbered commands run like the uncompacted ones, sections included |
| Peephole.StreamLinked | src/optimizer.cpp:64-83 | in a well-formed stream everything control can be sent to is an entry |
| Peephole.DecideSound | src/optimizer.cpp:96-196 | all transforms together, before anything moves, preserve every run between entries |
| Peephole.CompactWellFormed | src/optimizer.cpp:241-281 | the renumbered tables are again what the pass requires |
| Peephole.OptimizeSound | src/optimizer.cpp:47-282 | from every entry to every bound the optimised stream ends as the original; it is well formed again |
| Peephole.OptimizedProcess | src/container.cpp:31-56 | processing the optimised commands ends as processing the original on its model |
| Peephole.OptimizedTwice | src/system.cpp:1791-1792 | the pass may run again over its own output |
| DescriptionSpans.OptimizedSpans | src/optimizer.cpp:198-281 | of the optimised stream: every description spans exactly the survivors of its old range, `end` is one past the last survivor before the old end, its scope is the old one if and only if no dropped push named it, and every command has the location it came with |
| DescriptionSpans.RelocatedSpans | src/optimizer.cpp:276-280 | a renumbered description has a command in its range if and only if the command came from the old range |
| DescriptionSpans.LocationMoves | src/optimizer.cpp:228-239 | the location of a command moves with it; commands without one have none |
| DescriptionSpans.ScopeKept | src/optimizer.cpp:123-127 | a description loses its scope only to a dropped push around it that pushed that slot |
| DescriptionSpans.ScopeDropped | src/optimizer.cpp:123-127 | and loses it to every such push |
| PeepholeLeaves.SampledStays | src/optimizer.cpp:85-94 | a command a description starts or ends at stays what it is, unless it belongs to a dead push; of a branch only the target may change |
| PeepholeLeaves.SampledTarget | src/optimizer.cpp:168-196 | a branch onto a sampled command keeps leading there |
| PeepholeLeaves.DeadPushGoes | src/optimizer.cpp:111-128 | a recorded dead push goes with its unwind, unless control may arrive in between |
| PeepholeLeaves.NoErasesLeft | src/optimizer.cpp:130-153 | no two neighbouring erases of one slot, or of a slot and the one below, are left that nothing samples or enters |
| PeepholeLeaves.NoJumpToNextLeft | src/optimizer.cpp:155-166 | no unsampled jump to the next command is left |
| PeepholeLeaves.NoJumpChainLeft | src/optimizer.cpp:168-196 | no recorded branch leads to an unsampled jump |
| Sections.IteratorSections | include/devils_script/template_functions.h:558-637 | the present sections of an iterator follow one another behind its data slots, and the run goes on behind the last |
| Sections.PipelineSections | src/basic_functions.cpp:574-593 | a list pipeline finds its sections, where to go on and the type of its items from its three data slots |
| Blocks.FlattenRuns | src/system.cpp:859-873 | flat commands with bound labels do what the structured code says, wherever they are placed |
| Blocks.ExecKeeps | src/system.cpp:829-857 | whichever way code is left the stack is the predicted one, and the safe and unsafe opcodes agree |
| Blocks.PrimHolds | src/basic_functions.cpp:170-398 | an operation on operands of the predicted types leaves the predicted types; both variants compute the same |
| Blocks.BranchTyped | src/basic_functions.cpp:84-168 | every branch keeps the prediction on both sides, safe and unsafe alike |
| Emission.BranchRecorded | src/system.cpp:865-873 | every emitted branch is recorded and leads forward |
| Emission.PushShape | src/system_builtins.cpp:1183-1206 | a recorded dead push is context, one read, and the erase of the pushed slot |
| Emission.CompiledWellFormed | src/optimizer.cpp:33-46 | emitted code and tables meet the precondition of the peephole |
| LoweringTyped.LogicTyped | src/system.cpp:1493-1616 | AND, OR, NAND and NOR keep the stack model on every path to the end of the block |
| LoweringTyped.TermsTyped | src/system.cpp:1521-1616 | plain and conditional folds keep the stack model, with integers and truth values among the terms converted |
| LoweringTyped.CasesTyped | src/system_builtins.cpp:1032-1066 | every case of a switch, taken or skipped, keeps the stack model |
| LoweringTyped.WeightsTyped | src/system_builtins.cpp:1103-1130 | each weight of random adds exactly one float slot |
| LoweringTyped.LowerTyped | src/system.cpp:1869-1881 | whatever the expression, the compile-time stack ends with its result on top of what was there |
| LoweringMeans.LogicMeans | src/system.cpp:1493-1616 | the first decisive child decides a boolean block, the ones behind it are not run |
| LoweringMeans.TermsMeans | include/devils_script/system_templates.h:552-623 | a fold accumulates, from the left, the terms whose condition holds, each converted to the fold's type |
| LoweringMeans.SelectMeans | src/system_builtins.cpp:892-928 | select runs the first clause whose condition holds |
| LoweringMeans.StagesMeans | src/system_builtins.cpp:931-980 | sequence collects stages, numbers as truth values and truth values as floats where so expected, until a condition fails |
| LoweringMeans.CasesMeans | src/system_builtins.cpp:982-1076 | switch runs the first case equal to the value, else the default, else raises |
| LoweringMeans.ValueOrMeans | src/system_builtins.cpp:694-743 | value_or takes the branch its condition names, converted inside the branch |
| LoweringMeans.EffectsMeans | src/system.cpp:1538-1571 | an effect block runs its children until a condition fails |
| LoweringMeans.WeightsMeans | src/system_builtins.cpp:1103-1130 | the in-place additions leave the running totals of the weights |
| LoweringMeans.BranchesMeans | src/system_builtins.cpp:1132-1158 | the comparisons pick the first branch whose running total reaches the scaled roll |
| LoweringMeans.ExecEraseDown | src/system_builtins.cpp:1160-1165 | the descending erases remove roll and weights under the chosen value |
| LoweringMeans.GuardedMeans | include/devils_script/system_templates.h:665-690 | a nullable scope runs its body, or leaves the default of the expected type |
| LoweringMeans.LowerMeans | src/system.cpp:1349-1621 | lowered code pushes exactly the values the expression means on an untouched stack |
| MeaningLaws.SwitchRuns | src/system_builtins.cpp:982-1076 | `switch` on a value that is no double runs the body of the first case equal to it, else the default, else raises |
| MeaningLaws.SwitchRunsFloat | src/basic_functions.cpp:226-240 | `switch` on a double runs the first case that is a double within the epsilon |
| MeaningLaws.LogicDecides | src/system.cpp:1493-1616 | OR runs children until one holds, AND until one fails; the last one run decides, negated for NOR and NAND |
| MeaningLaws.SelectRuns | src/system_builtins.cpp:892-928 | `select` runs the first clause whose condition holds and no other |
| MeaningLaws.NativeCalled | include/devils_script/system_templates.h:552-623 | a native function gets the innermost scope and its arguments in the order they are written |
| MeaningLaws.AddCounts | include/devils_script/template_functions.h:764-769 | adding up truth values counts those that hold |
| MeaningLaws.LoneTerm | include/devils_script/template_functions.h:764-769 | a single truth value counts 0 or 1, a single integer as the same double |
| MeaningLaws.StageHolds | src/system_builtins.cpp:931-980 | a number a sequence collects as a truth value holds unless it is 0 |
| MeaningLaws.TakenByClauses | src/system_builtins.cpp:892-928 | `select` and `value_or` take an integer for a double and otherwise exactly the type that is expected |
| MeaningLaws.TakenByStages | src/system_builtins.cpp:931-980 | a sequence takes numbers as truth values, and integers and truth values as doubles, and nothing else |
| MeaningLaws.TakenByTotals | include/devils_script/system_templates.h:410-426 | a sum or product takes truth values as numbers and integers as doubles, never a double as an integer |
| MeaningLaws.GuardLeaves | include/devils_script/template_functions.h:184-201 | a scope that is not valid leaves false, 0 or no object, as its context expects |
| MeaningLaws.BitsOfZeroAndOne | include/devils_script/common.h:65-70 | the identities of conditional sums and products are the numbers 0 and 1 in the binary64 format of IEEE 754 |
| MeaningLaws.EmptyTotals | include/devils_script/system_templates.h:572-577 | a conditional sum none of whose terms applies is 0, a product 1; an empty sequence of doubles is 0 |
| Compile.CompiledOnModel | src/container.cpp:31-56 | the watched run of compiled code ends as the meaning says, so the stack was as predicted at every command |
| Compile.CompiledProcess | src/system.cpp:1791-1792 | compiled commands, optimised once or twice, end as the expression means |
| Compile.SafeEqualsUnsafe | src/basic_functions.cpp:84-154 | the checks of the safe opcodes never change a run of compiled code |
| Streaming.AppendWellFormed | src/system.cpp:1714-1792 | a row compiled behind an optimised stream makes a stream the pass accepts |
| Streaming.RowRuns | src/system.cpp:1777-1792 | the stream runs as before, then the row runs and its value is stored |
| Streaming.StreamedProcess | src/system.cpp:1789-1792 | any number of rows, the whole stream optimised after each, run as the rows mean |
| RandomChoice.CumulativeIsSum | src/basic_functions.cpp:260-269 | the totals accumulated in place are the prefix sums |
| RandomChoice.RandomRunsFirst | src/system_builtins.cpp:1090-1169 | over the reals the first branch whose cumulative weight reaches roll times total runs, and there is exactly one such branch |
| RandomChoice.ZeroWeightRuns | src/system_builtins.cpp:1132-1140 | a branch of weight zero runs if and only if it is the first and the scaled roll is zero |
| Answers.MeaningAnswers | src/system.cpp:1349-1621 | over the reals every accepted expression yields values of its type or raises |
| BlockLimits.VoidGuardBalance | include/devils_script/template_functions.h:185-201 | a nullable effect scope is balanced if and only if the handle is valid; otherwise one invalid slot stays |
| BlockLimits.VoidGuardLeaks | include/devils_script/template_functions.h:185-201 | `ctx:arg:x ?= {}` among effects, with an invalid handle in x, leaves one invalid slot |
| SameCode.LowerAlike | src/system.cpp:1349-1621 | the commands of an expression depend on how high the stack below is, not on its types |
| ImplicitBlocks.FoldBlockOut | src/system.cpp:1520-1616 | a block of any children is typed as its only child, or as a double when anything is folded |
| ImplicitBlocks.FoldBlockRuns | src/system.cpp:1520-1616 | it starts on the identity when some child has a condition, skips children whose condition fails, converts integers in a floating-point block and truth values behind the first, and folds by the floating-point operation |
| ImplicitBlocks.IntegerFoldTaken | src/system.cpp:1520-1616 | a block of integers is taken where an integer is expected if and only if it is one child without a condition or the registry narrows doubles, which the default one does not |
| ImplicitBlocks.IntegerFoldEnds | src/system.cpp:1520-1616 | with a condition an integer block raises at the first child that holds, or leaves the integer it started on; without, one child is its value and two raise unless they are a double and no integer |
| ImplicitBlocks.GuardedBlockFails | src/system.cpp:1520-1531 | `{ { condition = c 5 } }` is a double to the generator, and raises or leaves 0 when it runs |
| ImplicitBlocks.NarrowedBlockFails | src/system.cpp:774 | `{ 1 2 }` is rejected by the default registry, and taken and failing with one that narrows |
| ImplicitBlocks.FirstOkExactly | src/system.cpp:1584-1614 | a floating-point block does what the sum or product of its children means if and only if no truth value stands in front of a block without conditions |
| ImplicitBlocks.BoolAlone | src/system.cpp:1596-1608 | a lone truth value is typed as one; an argument converts it, the default registry rejects it |
| ImplicitBlocks.BoolFirstFails | src/system.cpp:1596-1612 | a floating-point block with a truth value in front and a second child is typed as a double and raises when it runs |
| ImplicitBlocks.BoolAndTwoFails | src/system.cpp:1596-1612 | `{ AND = { true true } 2.0 }` is typed as a double and raises |
| Patching.PatchLevel | src/system.cpp:865-873 | patching the sites of a label equals having known its end |
| Emitters.Emitter.EmitOp | src/system.cpp:829-857 | one command is appended and the type stack and peak follow the instruction table |
| Emitters.Emitter.JumpTo | src/system.cpp:863 | a branch to an open label is emitted with 0 and its site kept |
| Emitters.Emitter.Bind | src/system.cpp:865-873 | every site of the label is patched to the current end and recorded |
| Emitters.Emitter.CloseClause | include/devils_script/system.h:312-319 | a guarded clause ends with a jump to the end and a bound skip label |
| Emitters.Emitter.EmitLogic | src/system.cpp:1493-1621 | the emission loop of a boolean block emits exactly its specification |
| Emitters.Emitter.EmitTotal | src/system.cpp:1514-1621 | the emission loop of ADD and MUL, conditional or not, emits exactly its specification |
| Emitters.Emitter.EmitSelect | src/system_builtins.cpp:892-928 | the emission loop of select emits exactly its specification |
| Emitters.Emitter.EmitSequence | src/system_builtins.cpp:931-980 | the emission loop of sequence emits exactly its specification |
| Emitters.Emitter.EmitCase | src/system_builtins.cpp:1046-1066 | one case is emitted as specified, in the generator's own order of pops: its stack is short at the jump behind the value and at the second erase, nowhere else |
| Emitters.Emitter.EmitBranch | src/system_builtins.cpp:1132-1158 | one branch of random is emitted as specified; the generator's stack is short at the jump behind the value, nowhere else |
| Emitters.Emitter.EmitErases | src/system_builtins.cpp:1160-1165 | roll and weights are erased from the top down; the generator's stack is short at all of these erases or, without values, at none |
| Emitters.OwnStack | src/system.cpp:1869-1881 | the commands listed as short are exactly those where the generator's stack is not the run-time one, and there it is a part of it |
| Emitters.Emitter.EmitSwitch | src/system_builtins.cpp:982-1076 | switch is emitted as specified |
| Emitters.Emitter.EmitValueOr | src/system_builtins.cpp:694-743 | value_or is emitted as specified |
| Emitters.Emitter.EmitRandom | src/system_builtins.cpp:1090-1169 | random is emitted as specified |
| Emitters.Emitter.EmitSaved | src/system_builtins.cpp:1171-1210 | a context read is emitted and recorded as an unused push |
| Emitters.Emitter.EmitWithinValid | include/devils_script/system_templates.h:665-690 | the nullable guard is emitted with its mode and patched behind the scope exit |
| Emitters.Emitter.EmitExpr | src/system.cpp:1349-1621 | an expression's commands, tables, result type, stack peak and run-time stack at every command are exactly the specified ones; outside switch and random the generator's own stack is that stack |
| Parse.ParseRow | src/system.cpp:1777-1792 | one accepted row is emitted behind the stream, and the whole stream optimised |
| PartialRows.RowExtends | src/system.cpp:1685-1712 | whatever steps a row made, everything that was there before it lies in front untouched, and its open branches are its own |
| PartialRows.TraceEmits | src/system.cpp:859-873 | the steps of structured code, labels opened, waited for and bound on the way, emit exactly its commands and tables |
| PartialRows.AcceptedRow | src/system.cpp:1777-1792 | an accepted row is the steps of its code run to the end |
| PartialRows.NodeExtends | include/devils_script/system.h:312-319 | what any operation of the generator promises to emit keeps what was there and leaves open only branches of its own |
| Parse.Step | src/system.cpp:859-873 | every step is made by the generator's own operations, on container and tables |
| Parse.RejectRow | src/system.cpp:1688-1712 | a row rejected after any of its steps leaves commands, tables, declared slots, also retyped ones, string pool and stacks as they were |
| Parse.ParseRows | src/system.cpp:1743-1800 | rows accepted and rejected in any order build the optimised stream of the accepted ones |
| FrameSafety.DeepestIsLeast | src/system_builtins.cpp:678-685 | the recorded child peak covers every executed script and is reached by one |
| FrameSafety.FinalizedCovers | src/system.cpp:1666-1673 | reported peaks cover the frames of every executed script |
| FrameSafety.SwapsPair | src/system_builtins.cpp:298-302 | the emitted swaps exchange the two lists of every binding |
| FrameSafety.SwapsRest | src/system_builtins.cpp:298-302 | and touch no other list |
| FrameSafety.UnwindBehind | src/system_builtins.cpp:418-437 | the catch handler swaps lists back and drops the frame, skipping write-backs |
| FrameCalls.CalleeStarts | src/system_builtins.cpp:374-404 | the callee starts on its arguments, blank saved values and the caller's contents of bound lists |
| FrameReads.RunAgrees | src/system_builtins.cpp:338-438 | two contexts that agree in a frame make a run end the same way, with the same fault, and agree there again: nothing below the frame is read |
| FrameReads.CalleeSeesOnly | src/system_builtins.cpp:355-404 | a call from two contexts that agree in what it passes ends the same way |
| FrameReads.SavedIsRead | src/basic_functions.cpp:509-518 | behind the write of a saved slot the next read of that slot gives the value; reads of other slots are unchanged |
| FrameReads.ArgIsRead | src/basic_functions.cpp:492-501 | the same for arguments |
| FrameReads.FrameIsRead | src/basic_functions.cpp:423-429 | `this` is the value in that place of the frame's own stack; an item is added to the one list of the frame's own; the return value is what was on top |
| FrameReads.StackIsRead | include/devils_script/template_functions.h:203-216 | a native function gets the values pushed last in their order and leaves its result, or fails; an erase takes the one value of the frame's own stack |
| FrameReads.CalleeReads | src/system_builtins.cpp:355-404 | in a callee the k-th argument is the k-th value passed, and saved values are blank |
| FrameReads.KeepingReturns | src/system_builtins.cpp:663-676 | a script that stores a value, reads it back and returns it returns that value, in any frame |
| FrameReads.ChoosingReturns | src/container.cpp:31-56 | a script that branches on a value returns what the branch taken pushes |
| FrameCalls.RunHolds | src/system_builtins.cpp:338-438 | no run in a frame with room meets a capacity fault; nothing below the frame changes, whether it ends, fails natively or hits the nesting limit at any depth |
| FrameCalls.CapacityCovers | src/container.cpp:31-40 | the checks of the top-level run cover every nested frame, and the list vector never outgrows its reserve; only a refused call's lists are left at the end |
| FrameCalls.CallReturns | src/system_builtins.cpp:663-676 | a returning call replaces arguments by the result, hands back bound lists and values, and restores everything else |
| FrameCalls.CallUnwinds | src/system_builtins.cpp:418-438 | a call that fails inside, natively or by the nesting limit at any depth, restores bases, arguments, saved values, depth and return value, writes nothing back, and takes each bound list from as many places higher as a refused script has lists |
| FrameCalls.UnwoundLists | src/system_builtins.cpp:418-437 | given the fault of the call, the lists are as a native failure would leave them if and only if no script with lists was refused below; and the same for each bound list by itself |
| NestingLimit.UnwoundInPlace | src/system_builtins.cpp:418-437 | where no script with lists can be met at the limit below a call, and so in every tree that fits under it, a failing call hands back every bound list in place and leaves none over, whatever natives answer |
| NestingLimit.LosesExactly | src/system_builtins.cpp:347-348 | in a tree that does not branch some natives make the call leave lists over if and only if a script with lists is met at the limit |
| NestingLimit.RunOnPath | src/system_builtins.cpp:338-438 | how a run ends, whatever natives answer, is what some path through its tree ends in |
| NestingLimit.ChainKeepsList | src/system_builtins.cpp:347-348 | a chain of scripts one call longer than the limit, the last with a list, comes back with that list; no other chain does |
| FrameCalls.RefusedCallLeaks | src/system_builtins.cpp:347-348 | a call refused by the nesting limit leaves the context as before if and only if the callee has no lists |
| Contexts.Context.ListFrameEnter | src/system_builtins.cpp:281-284 | fresh lists are appended, within the reserve |
| Contexts.Context.SwapBoundList | src/system_builtins.cpp:298-302 | a callee list, counted from the top, and a caller list are exchanged |
| Contexts.Context.WriteBackArg | src/system_builtins.cpp:315-329 | the callee's argument goes into the caller's saved value or argument |
| Contexts.Context.EnterCallee | src/system_builtins.cpp:355-404 | arguments move into the callee's frame and the bases up, or a bound is reported |
| Contexts.Context.ExecuteSite | src/system_builtins.cpp:338-438 | the emitted sequence of a call, with its handler, computes the specified context |
| Contexts.Context.RunProcess | src/container.cpp:31-56 | the command loop with its checks computes the specified run |
| Conversions.Conversions.Register | include/devils_script/system_templates.h:25-42 | an edge is added, or replaces the one for the same pair |
| Conversions.CheapestIsBest | src/system.cpp:364-377 | the cheapest entry that is not stale is the cheapest chain to its type |
| Conversions.Conversions.FindPath | src/system.cpp:364-392 | a connected chain of least cost, an error exactly when the least cost is out of range, nothing exactly when there is no chain |
| Overloads.Choose | src/system.cpp:525-556 | the unique least candidate, or ambiguity exactly when two attain it |
| Overloads.OrderIrrelevant | src/system.cpp:525-536 | neither winner nor ambiguity depends on the order of registration |
| Overloads.WinnerIs | src/system.cpp:525-556 | the winner costs least, returns exactly what is expected if any as cheap does, and is alone of its rank or below |
| Folding.WrapsAround | src/system.cpp:984-988 | unsigned arithmetic read back as signed is the exact result modulo 2^64 |
| Folding.RemainderIs | src/system_builtins.cpp:26-32 | the integer remainder is that of a truncating division, and 0 by -1 |
| Folding.FoldingRefines | src/system.cpp:1142-1169 | where a folded constant is emitted, the unfolded expression compiles too, to the same type and the same value, and raises nothing |
| Folding.FoldingRefinesAny | src/system.cpp:990-1114 | the same where any type is expected |
| FoldingValues.IntegerTree | src/system.cpp:1032-1074 | nested integer sums, differences, products and signs fold to the exact value modulo 2^64 |
| FoldingValues.IntegersCompare | src/system.cpp:1077-1082 | integers compare as they are |
| FoldingValues.Remainders | src/system.cpp:1075-1076 | an integer remainder is that of a truncating division; by zero none is folded |
| FoldingValues.RealsCombine | src/system.cpp:1087-1102 | over the reals a number and a double combine and compare as written, equality within the epsilon |
| FoldingValues.Quotients | src/system.cpp:1083-1093 | division is of doubles, also of integers |
| FoldingValues.BlocksAddUp | src/system.cpp:1040-1042 | over the reals a block with a double among its numbers is their sum or product |
| FoldingValues.TruthsCombine | src/system.cpp:1045-1052 | AND, OR, NAND and NOR of truth values: all, some, not all, none |
| FoldingValues.Signs | src/system.cpp:1059-1063 | over the reals a signed double is itself or its opposite, and `not` is the other truth value |
| FoldingValues.TruthPairs | src/system.cpp:1106-1110 | both, one, the same, or not the same of two truth values |
| FoldingAgrees.FoldingUnnoticed | src/system.cpp:1142-1169 | where operators have only their built-in candidates and every other name has at most one, an expression compiles folded if and only if it compiles unfolded, to the same type and the same value |
| FoldingAgrees.TwinChosen | src/system.cpp:525-556 | between an integer candidate and its floating-point twin the integer one is chosen, unless a double is expected and converting the operands costs nothing more, which is read off the expression |
| FoldingAgrees.GapOperand | src/system.cpp:1143-1152 | folded or not, an operand never costs less as a double than as an integer, and whether it costs more is the same |
| Folding.FoldingDecidesOverload | src/system.cpp:1143-1152 | with overloads on mixed types, folding a call makes the choice ambiguous that was unique unfolded, exactly for calls |
| ListPipelines.Context.FilterList | src/basic_functions.cpp:611-621 | the compaction in place keeps exactly the items answered with yes, in order |
| ListPipelines.Context.Measure | src/basic_functions.cpp:688-710 | the loop finds the least, greatest or average answer, or that there is none |
| ListPipelines.Context.Execute | src/basic_functions.cpp:574-733 | the opcode turns list, stack and environment into what the plain function of list and callbacks says, or fails as it does, and resumes behind its sections |
| ListPipelines.KeptAt | src/basic_functions.cpp:611-621 | every kept item stands behind as many as were kept before it |
| ListPipelines.BestIs | src/basic_functions.cpp:694-703 | the extreme is one of the answers and none beats it |
| ListAnswers.NumbersMean | src/basic_functions.cpp:681-710 | on answers that are doubles `sum` is their sum, `average` times their number is that sum, `min` and `max` are answers that bound every answer |
| ListAnswers.ChoicesMean | src/basic_functions.cpp:611-679 | on truth values `filter` keeps exactly the items answered with true, in order, and `count_if` says how many |
| ListAnswers.QuestionsMean | src/basic_functions.cpp:647-672 | `any`, `all`, `none` and `first` ask up to the first decisive answer and say what it decides |
| ListAnswers.LastMeans | src/basic_functions.cpp:712-731 | `last` asks all items and finds the last answered with true, or the default |
| ListAnswers.MapMeans | src/basic_functions.cpp:623-635 | `map` leaves the answers |
| ListAnswers.PlainMean | src/basic_functions.cpp:599-645 | what the operations without a callback leave |
| ListAnswers.NothingMeans | src/basic_functions.cpp:681-731 | on an empty list the sum is 0, and extremes, average, `first` and `last` are the default |
| ListAnswers.FailuresMean | src/basic_functions.cpp:611-731 | the first callback that fails or answers with another type ends the pipeline with its error |
| ListAnswers.AddingFails | src/basic_functions.cpp:599-604 | a value of another type is not added |
| ListAnswers.KindsAre | include/devils_script/container.h:63-80 | the numbers the operations have |
| ListRuns.PipelineRuns | src/basic_functions.cpp:574-733 | run by the machine, callback by callback, the opcode ends as the same plain function says |
| ListSections.MeaningSteady | src/system_builtins.cpp:1496-1510 | where native functions leave a list alone, so does every expression, whatever the list holds |
| ListSections.SectionRuns | src/system_builtins.cpp:1486-1522 | a callback section, placed anywhere, replaces the item on the stack by the value of its body |
| ListSections.SectionAnswers | src/system_builtins.cpp:1511-1517 | over the reals a callback section answers every item of the list's type |
| ListSections.SectionAlone | src/system_builtins.cpp:1486-1522 | every callback section the generator emits is what the pipeline loops ask for |
| ListSections.DefaultAlone | src/system_builtins.cpp:1524-1553 | and so is every default section |
| ListSections.CompiledPipeline | src/system_builtins.cpp:1588-1638 | a compiled pipeline, run by the machine, is the plain function of the list and of what its bodies mean |
| Pratt.PrintParse | src/script_ast.cpp:155-242 | a printed script whose subtrees may stand where they do is parsed back |
| Pratt.PrintParseExactly | src/script_ast.cpp:196-210 | it is parsed back if and only if they may |
| Pratt.RoundTrip | src/script_ast.cpp:142-210 | any script, with parentheses only where needed, is parsed back up to groups of one element |
| Pratt.RegroupNone | src/script_ast.cpp:196-210 | no parentheses are needed where the precedences already say so |
| Operators.BuiltinGroups | src/system_builtins.cpp:149-176 | with the built-in operators a script printed as it stands is parsed back if and only if its operators group by level: assignment, or, and, equality, order, sums, products |
| Operators.TwoOperators | src/script_ast.cpp:196-210 | `a op b op' c` groups to the left unless the second operator binds more strongly or both assign |
| Pratt.WalkIsDepth | src/script_ast.cpp:107-116 | the loop over a flat tree finds its depth |
| Pratt.Cursor.ReadExpr | src/script_ast.cpp:196-210 | the cursor climbs precedences as specified and leaves the flat form of the tree |
| Pratt.BuildScript | src/script_ast.cpp:232-242 | events become one flat tree, the one the grammar says, or its error |
| Normaliser.ConvertScope | src/system_ast.cpp:11-61 | a scope path is split, rejected or sized as its pieces say |
| NormalForm.NestSpells | src/system_ast.cpp:53-58 | the blocks of a path, sized by what is left of it, spell nested scopes |
| NormalForm.SplitsReadable | src/system_ast.cpp:11-61 | a path is split if and only if none of its elements is empty, it has at most 16 steps of at most 3 parts, and a function stands last |
| NormalForm.SplitSays | src/system_ast.cpp:26-49 | steps and function, read back with their separators, are the path, and every part is a name |
| NormalForm.CallTells | src/system_ast.cpp:187-237 | the blocks of a call are its scopes in the order they are written, each spanning to the end, then the function, then what is inside |
| NormalForm.ExprAllowed | src/system_ast.cpp:241-298 | an expression has a normal form if and only if its paths are readable, its groups hold one value and only rows assign |
| NormalForm.ExprTells | src/system_ast.cpp:241-298 | its blocks say what it does: `unary_minus` exactly for a leading `-`, `unary_plus` for `+`, every other operator by its own text in front of its operands in their order |
| NormalForm.RowTells | src/system_ast.cpp:143-185 | the blocks of a row are those of its path around those of what is assigned |
| Normaliser.Converter.NormalizeCall | src/system_ast.cpp:187-237 | path, function and right-hand side are laid out and patched into the blocks of one call |
| Normaliser.Converter.NormalizeExpr | src/system_ast.cpp:241-298 | an expression is accepted if and only if it is allowed, and appends blocks that say what it does |
| Normaliser.Converter.Normalize | src/system_ast.cpp:126-140 | a script is accepted if and only if its rows are allowed, and becomes blocks that say what they do, those of the forest it means |
| Normaliser.RowCountIs | src/system_ast.cpp:163-182 | how many blocks stand side by side for a row, whatever it is |
| Normaliser.RowsCount | src/system_ast.cpp:136-140 | a block has as many children as its rows leave side by side |
| Normaliser.OrdinaryCount | src/system_ast.cpp:136-140 | one child per row where no row calls the reserved name on arguments |
| Normaliser.ChildAt | src/system_ast.cpp:327-336 | stepping over sizes finds the child with that index, if there is one |
| Normaliser.FindChild | src/system_ast.cpp:314-325 | and the first child of that name |
| Normaliser.OperandsAt | src/system_ast.cpp:327-336 | child 0 of a binary operator's block says the left operand, child 1 the right one, and there is no other |
| Normaliser.ArgumentsAt | src/system_ast.cpp:327-336 | the k-th child of a call says its k-th argument |
| Normaliser.RowFound | src/system_ast.cpp:314-325 | looking a name up finds the first row that gives it a value, or nothing if none does |
| Descriptions.Compiled.Describe | src/system.cpp:711-729 | a node appended behind its children spans them, counts them and starts at the earliest of their commands |
| Descriptions.EarliestIsLeast | src/system.cpp:722-729 | that command is the least of the whole subtree |
| Descriptions.Compiled.Traverse | src/container.cpp:265-303 | the walk visits nodes before their children, in order, at their depth, and stops at a custom description |
| Descriptions.WalkVisitsAll | src/container.cpp:265-303 | without custom descriptions it visits every node of the subtree once |
| Descriptions.WalkInOrder | src/container.cpp:265-303 | whatever descriptions are custom, a later visit is of a node below an earlier one exactly while the walk stays deeper, and otherwise of one further behind |
| Descriptions.Index.Build | src/container.cpp:104-143 | every command gets its innermost node, and between its offsets stand, ascending, exactly the nodes that start there and span more than one command |

## Left out

- Text: the lexer and the event stream; parsing starts at events. Normalised blocks and the generator's expressions are not connected: expressions start as trees with the checks of the generator already made.
- String, object and any-typed blocks, element views, enum literals and custom arithmetic types.
- Iterators and list pipelines as expressions: the machine and the peephole cover their commands and sections, and `ListSections.dfy` the sections of a pipeline, but `Lower` does not emit them inside an expression.
- Native functions, iterators, reads, handle validity and edits of lists are arbitrary functions of the world; floats are reals with arbitrary operations except where a theorem asks for real arithmetic.
- Registered conversions other than integer to float are native calls with one argument.
- Callbacks of one iterator are counted against `World.limit`; every theorem holds for every limit.
- Backward jumps end a run off the model; the generator emits none.
- Partial evaluation while describing, tracing, source positions and warnings.
- `EmitExpr` is called on expressions that pass the generator's checks and whose slots fit 32 bits; parse errors are the predicate `Lowering.Check`.
- OptimizedProcess: says nothing when the original run leaves the compiler's model or exhausts the operand stack; `Compile.CompiledOnModel` shows compiled code does neither in a context of the reported size.
- CompiledProcess: in a world whose floats round, `random` may find no branch; `Answers.MeaningAnswers` shows this cannot happen over the reals.
- LowerTyped: expressions are those of `Lowering.Expr`: no object or string blocks, iterators, list pipelines or calls between scripts.
- LowerMeans: the same expressions; calls between scripts are the subject of `Frames.dfy`, list pipelines of `ListSections.dfy`.
- EmitExpr: emits those expressions only.
- GuardedMeans: the body of a nullable scope yields nothing, a truth value or a number; for an object the default is an invalid handle, which the stack model gives a type of its own.
- EmitWithinValid: the same bodies only.
- EmitSaved: the read of one slot behind a pushed context, which is the shape that is recorded; the scan that finds other shapes and does not record them is left out.
- PrintParse: a consumer's operators that mix associativities at one precedence, or a symbol both postfix and binary, are left out.
- CompiledPipeline: the items of a list have one type; lists whose type is not known when they are compiled are left out.
- Execute: in `ListPipelines.dfy` a callback neither reads nor changes the list it is called for; the generator rejects bodies that change it (src/system_builtins.cpp:1569-1570).
- RunHolds: the scripts a script executes are fixed when it is compiled; resolvers that reassign containers later are not modelled, so the nesting limit is reached only in trees that deep.
- Control flow inside a script of `Frames.dfy` is forward jumps over items; the emitted call sequence is one item.
